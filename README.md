# Wildlife Slider Pro — a verified model of its core

Wildlife Slider Pro is a wildlife-catalogue web front end: a carousel of animal records
with filters, a search box, favourites and catalogue statistics. This project models the
logic behind those screens in Dafny and proves properties of it:

- **the carousel controller** (`src/hooks/useSlider.ts`). It is a state machine over the
  index, animating, direction and paused flags, plus the two timer slots and the page
  visibility. `SliderModel` gives each operation and each timer callback as a function on
  the whole controller state. `Slider.SliderController` is a class whose fields are updated
  in place, and each of its methods is proved to perform the matching step. The
  `onSlideChange` callback is the log `events`.
- **the application state** (`src/context/AppContext.tsx`). `AppContext.AppReducer` is the
  reducer over a closed action datatype. `AppContext.AppProvider` is a class holding the
  state; its helper actions (`searchAnimals`, `filterAnimals`, the favourites helpers,
  `resetFilters`, the mount load) are sequences of dispatches.
- **the catalogue queries** (`src/data/animals.ts`), over an arbitrary catalogue
  `seq<Animal>` rather than the seven literal records.
- **the animal hooks** (`src/hooks/useAnimals.ts`). These are the synchronous bodies of the
  fetch pipeline, the id lookup of `useAnimal`, `useSimilarAnimals` and `useAnimalStats`.
- **the conservation colour lookup** (`getConservationColor` in `src/styles/theme.ts`).

The record and enum shapes come from `src/types/index.ts` (module `Types`). JavaScript
details the code relies on are written out:

- `Text.Lower` is `toLowerCase`, restricted to ASCII.
- `Text.Includes` is `includes`.
- `Text.IsBlank` is `!s.trim()`, with the ECMAScript whitespace set.
- `Seqs.SliceEnd` is the end rule of `slice`, negative ends included.
- `Types.IsSet` is JavaScript truthiness for optional strings: the empty string counts as
  unset.
- `Seqs.Filter` is `Array.prototype.filter`.

Behaviours of the code that the model keeps as written:

- **`pause` cancels an in-flight transition.** It calls `clearTimeouts()`
  (src/hooks/useSlider.ts:121), which also drops the pending transition end. The slider then
  keeps `isAnimating` set with no completion pending (`SliderModel.PauseDuringTransitionStalls`).
- **The auto-advance does not go through `nextSlide`.** The timer callback
  (src/hooks/useSlider.ts:50-67) sets the index, `isAnimating` and the direction itself. It
  skips the `goToSlide` guards and schedules no transition end. After one auto-advance the
  slider stays animating, and refuses every `goToSlide`, until `reset`
  (`SliderModel.AutoAdvanceStalls`, `SliderModel.StalledUntilReset`).
- **Resuming from pause also cancels an in-flight transition.** `goToSlide` does not look at
  the paused flag, so a transition can be running while paused. Clearing the flag gives
  `startAutoPlay` a new identity (src/hooks/useSlider.ts:69), so the mount effect
  (src/hooks/useSlider.ts:213-216) re-runs: its cleanup calls `clearTimeouts()` and it calls
  `startAutoPlay()` again. `SliderModel.Resume` includes that re-run when the slider was
  paused (`SliderModel.ResumeDuringTransitionStalls`).
- **Two more routes cancel an in-flight transition.** A `resume()` while not paused, with
  auto-play on and the page visible, calls `startAutoPlay()` (src/hooks/useSlider.ts:140),
  whose `clearTimeouts()` (src/hooks/useSlider.ts:49) drops the pending transition end
  (`SliderModel.ResumeWhileRunningStalls`). Hiding the page calls `clearTimeouts()`
  (src/hooks/useSlider.ts:201-202), with the same effect
  (`SliderModel.HideDuringTransitionStalls`).
- The provider's `filterAnimals` stores the merged filters but selects the animals with the
  filters passed in (src/context/AppContext.tsx:201-228).
- The provider compares continents case-sensitively. `useAnimals` compares them
  case-insensitively.
- In the fetch pipeline, a search term discards the category, status and continent filters.

The other effect re-runs (src/hooks/useSlider.ts:213-223) change nothing the model tracks.
On `pause` and `reset`, the mount effect's cleanup and restart repeat what the operation has
just done. On a transition end, the restart effect calls `startAutoPlay` again, which gives
the same state. When `goToSlide` or an auto-advance sets `isAnimating`, the restart effect
does nothing.

## Model

| member | source | states |
|---|---|---|
| Seqs.Filter | src/data/animals.ts:227-233 | `filter` keeps exactly the elements satisfying the predicate, each as often as in the input, in input order (a subsequence), never more of them |
| Seqs.SliceEnd | src/hooks/useAnimals.ts:198 | the end index `slice(0, end)` uses: an end within the length is kept, a larger one is the length, a negative one counts back from the length and stops at 0 |
| Text.Lower | src/data/animals.ts:236 | lower-casing keeps the length and maps every character independently |
| Counting.CountBy | src/context/AppContext.tsx:269-282 | the `reduce` count: each key's count is the number of animals with that key, and the counts add up to the number of animals; only keys some animal carries are present, each with a positive count |
| Counting.BumpTotal | src/context/AppContext.tsx:270-271 | one counting step of the fold raises the sum of all counts by exactly one, whether or not the key was present |
| Catalogue.GetAnimalById | src/data/animals.ts:223-225 | `find`: none exactly when no record has the id; otherwise a record with that id at a position before which no record has it |
| Catalogue.GetAnimalsByCategory | src/data/animals.ts:227-229 | exactly the records of the category, with their multiplicities, in catalogue order, never longer than the catalogue |
| Catalogue.GetAnimalsByConservationStatus | src/data/animals.ts:231-233 | exactly the records with the status, with their multiplicities, in catalogue order, never longer than the catalogue |
| Catalogue.SearchAnimals | src/data/animals.ts:235-243 | a record is kept iff the lower-cased term occurs in its lower-cased name, title, topic, description or habitat; order and multiplicities are kept |
| Catalogue.SearchEmptyTerm | src/data/animals.ts:236-243 | the empty term returns the whole catalogue unchanged |
| AnimalsHook.FetchAnimals | src/hooks/useAnimals.ts:27-50 | with a search term, the catalogue search over all animals; otherwise exactly the records passing the category and status (exact) and continent (case-insensitive) filters, in order; with no criteria, the catalogue itself |
| AnimalsHook.UseAnimal | src/hooks/useAnimals.ts:117-146 | an empty id leaves the hook loading with no record and no error; otherwise exactly one of record and error is set: the first catalogue record with the id, or `ANIMAL_NOT_FOUND` with the message naming the id |
| AnimalsHook.UseSimilarAnimals | src/hooks/useAnimals.ts:186-202 | no current animal gives nothing; every result is another catalogue record sharing category, continent or status; the results are a prefix of all similar records, of length `min(limit, all)` (a negative limit drops from the end) |
| AnimalsHook.UseSimilarAnimalsDefault | src/hooks/useAnimals.ts:186 | with the default limit of 3: nothing without a current animal; otherwise a prefix of the similar records of length `min(3, all)`, so every similar record when there are fewer than three |
| AnimalsHook.Tally | src/hooks/useAnimals.ts:159-172 | the mutating `reduce` loop computes the count map of `CountBy` |
| AnimalsHook.UseAnimalStats | src/hooks/useAnimals.ts:155-183 | the total is the catalogue length; each of the three maps counts every key by its multiplicity, holds only keys with a positive count, and sums to the total |
| AppContext.MergeFilters | src/context/AppContext.tsx:112-113 | `{ ...filters, ...payload }`: a criterion present in the payload wins, an absent one keeps its old value |
| AppContext.MergeFiltersLaws | src/context/AppContext.tsx:112-113 | the empty payload is an identity on both sides, merging the same payload twice is merging it once, and two merges compose into one merge of the combined payloads |
| AppContext.AppReducer | src/context/AppContext.tsx:92-145 | each setter writes its payload into its field (loading flag, error, animals, filtered animals, current animal, term, statistics, page, breadcrumbs); SET_ERROR and SET_ANIMALS end loading; an unrecognised action returns the state unchanged |
| AppContext.ReducerFrame | src/context/AppContext.tsx:92-145 | every action leaves every field it does not name unchanged |
| AppContext.AddFavoriteAppends | src/context/AppContext.tsx:115-118 | ADD_TO_FAVORITES appends the id at the end |
| AppContext.RemoveFavoriteKeepsOthers | src/context/AppContext.tsx:120-123 | REMOVE_FROM_FAVORITES drops every occurrence of the id, keeping every other id with its multiplicity and in order |
| AppContext.RemoveKeepsNoDuplicates | src/context/AppContext.tsx:120-123 | removing a favourite keeps a duplicate-free list duplicate-free, and the id is gone |
| AppContext.SetFiltersMerges | src/context/AppContext.tsx:112-113 | SET_FILTERS stores the payload merged over the current filters |
| AppContext.SetFiltersIdempotent | src/context/AppContext.tsx:112-113 | SET_FILTERS with no criteria changes nothing; the same SET_FILTERS twice equals once |
| AppContext.SetPreferencesIdempotent | src/context/AppContext.tsx:125-128 | SET_PREFERENCES with an empty payload changes nothing; the same SET_PREFERENCES twice equals once |
| AppContext.SetPreferencesMerges | src/context/AppContext.tsx:125-128 | SET_PREFERENCES: the keys are the union; payload keys take the payload's value, the others keep theirs |
| AppContext.ResetFiltersClears | src/context/AppContext.tsx:139-140 | RESET_FILTERS clears filters and term and shows every animal again |
| AppContext.InitialState | src/context/AppContext.tsx:69-89 | empty lists, stored favourites, not loading, no error, no filters, no current animal, no statistics, page `home`, no breadcrumbs; preferences are the defaults overridden key by key by the stored ones |
| AppContext.CalculateStats | src/context/AppContext.tsx:268-290 | the total is the list length; each of the three maps counts every key by its multiplicity, holds only keys with a positive count, and sums to the total |
| AppContext.SearchResults | src/context/AppContext.tsx:180-199 | a blank term gives every animal; otherwise exactly the animals whose name, description, habitat, continent or a country contains the term ignoring case, in order |
| AppContext.SelectFiltered | src/context/AppContext.tsx:203-225 | the `let filtered` chain selects exactly the animals meeting every criterion that is set, with their multiplicities, in order |
| AppContext.AppProvider.constructor | src/context/AppContext.tsx:162 | the provider starts in the initial state |
| AppContext.AppProvider.Dispatch | src/context/AppContext.tsx:162 | dispatching replaces the state by the reducer's result |
| AppContext.AppProvider.LoadCatalogue | src/context/AppContext.tsx:293-305 | the mount load leaves the catalogue as both lists, not loading, with its statistics, and nothing else changed |
| AppContext.AppProvider.SearchAnimals | src/context/AppContext.tsx:180-199 | stores the term and the search results over the animals held at the call; nothing else changes |
| AppContext.AppProvider.FilterAnimals | src/context/AppContext.tsx:201-228 | stores the merged filters, and as filtered list the animals meeting the filters passed in; nothing else changes |
| AppContext.AppProvider.AddToFavorites | src/context/AppContext.tsx:230-235 | an id already present changes nothing; otherwise it is appended; a duplicate-free list stays duplicate-free |
| AppContext.AppProvider.RemoveFromFavorites | src/context/AppContext.tsx:237-240 | the reducer's removal; afterwards the id is absent, and a duplicate-free list stays duplicate-free |
| AppContext.AppProvider.ToggleFavorite | src/context/AppContext.tsx:242-248 | a present id is removed as by REMOVE_FROM_FAVORITES, an absent one appended at the end; so the id's membership flips, every other id's membership and every other field are unchanged, and a duplicate-free list stays duplicate-free |
| AppContext.AppProvider.ResetFilters | src/context/AppContext.tsx:255-257 | clears filters and term and shows every animal; nothing else changes |
| SliderModel.NextIndex | src/hooks/useSlider.ts:108 | the next index is in range: one more, or 0 after the last |
| SliderModel.PrevIndex | src/hooks/useSlider.ts:114 | the previous index is in range and is the one whose next index is the current one |
| SliderModel.NextPrevInverse | src/hooks/useSlider.ts:107-116 | next then previous, and previous then next, return to the same index |
| SliderModel.Initial | src/hooks/useSlider.ts:22-31 | the mounted controller is valid, has the given item count and settings, is visible, at index 0, idle, unpaused, with no event, and with an auto-advance pending exactly when auto-play is on |
| SliderModel.ClearTimeouts | src/hooks/useSlider.ts:34-43 | neither timer is pending afterwards; state, events, item count, settings and visibility are unchanged |
| SliderModel.StartAutoPlay | src/hooks/useSlider.ts:46-69 | when auto-play is on, not paused and visible, exactly the auto-advance is pending; otherwise nothing changes; state, events, item count, settings and visibility are kept |
| SliderModel.GoToSlide | src/hooks/useSlider.ts:72-104 | a request while animating, out of range or for the current slide changes nothing; an accepted one moves there animating, direction next iff forward, one slide event from the old index, auto-advance cancelled, transition end pending, item count, settings and visibility kept |
| SliderModel.NextSlide | src/hooks/useSlider.ts:107-110 | `goToSlide` on the wrapped next index; with one slide, nothing changes |
| SliderModel.PrevSlide | src/hooks/useSlider.ts:113-116 | `goToSlide` on the wrapped previous index; with one slide, nothing changes |
| SliderModel.FireTransitionEnd | src/hooks/useSlider.ts:96-103 | stops animating and clears the direction, keeps index, paused flag, events, item count, settings and visibility, then an auto-advance is pending iff auto-play is on, not paused and visible |
| SliderModel.FireAutoPlay | src/hooks/useSlider.ts:50-68 | moves to the wrapped next index, animating in direction next, with one slide event, keeps item count, settings and visibility, and leaves no timer pending |
| SliderModel.Pause | src/hooks/useSlider.ts:119-128 | sets paused, cancels both timers, emits a pause event at the unchanged index; item count, settings and visibility are kept |
| SliderModel.Resume | src/hooks/useSlider.ts:131-141 | clears paused and emits a resume event; an auto-advance is pending iff auto-play is on and the page visible; a transition end survives only if the slider was not paused and no auto-advance was started; item count, settings and visibility are kept |
| SliderModel.Reset | src/hooks/useSlider.ts:144-160 | from any state: the initial state record, no transition pending, a reset event at index 0, and an auto-advance pending iff auto-play is on and the page visible; item count, settings and visibility are kept |
| SliderModel.VisibilityChange | src/hooks/useSlider.ts:198-206 | records the visibility; hiding cancels both timers; showing with auto-play on and not paused leaves exactly the auto-advance pending, and otherwise changes only the visibility; state, events, item count and settings are unchanged |
| SliderModel.KeyDown | src/hooks/useSlider.ts:163-191 | inactive without keyboard navigation; otherwise the arrows go next or back, space toggles pause, Home and End go to the first and last slide, other keys do nothing |
| SliderModel.NextThenPrevRestores | src/hooks/useSlider.ts:107-116 | on an idle controller with two or more slides, next then previous, each completed, return to the starting index, idle, after two events |
| SliderModel.PrevThenNextRestores | src/hooks/useSlider.ts:107-116 | previous then next, each completed, return to the starting index, idle, after two events |
| SliderModel.AutoAdvanceStalls | src/hooks/useSlider.ts:50-68 | after an auto-advance the controller is animating with no transition end pending and refuses every `goToSlide` |
| SliderModel.ResumeWhileRunningStalls | src/hooks/useSlider.ts:131-141 | a resume while not paused during a transition, with auto-play on and visible, drops the transition end through `startAutoPlay`'s `clearTimeouts`, leaving the controller stalled at the same index |
| SliderModel.HideDuringTransitionStalls | src/hooks/useSlider.ts:198-206 | hiding the page during a transition drops its completion, leaving the controller stalled at the same index |
| SliderModel.PauseDuringTransitionStalls | src/hooks/useSlider.ts:119-128 | a pause during a transition drops its completion, leaving the controller animating with nothing to end it |
| SliderModel.ResumeDuringTransitionStalls | src/hooks/useSlider.ts:213-216 | a resume from pause during a transition drops its completion through the mount effect's cleanup, leaving the controller animating with nothing to end it |
| SliderModel.StalledUntilReset | src/hooks/useSlider.ts:72-160 | a stalled controller refuses navigation and stays stalled under pause, resume, visibility changes, keys and auto-advances; only reset clears it |
| SliderModel.PauseResumeAdvancesOnce | src/hooks/useSlider.ts:119-141 | pause then resume, with auto-play on and visible, schedules exactly one auto-advance, which moves one slide forward and leaves no timer pending |
| SliderModel.ThreeNextSlides | src/hooks/useSlider.ts:72-110 | five slides: three completed next slides reach index 3 with three forward slide events |
| SliderModel.GoToDuringTransitionIgnored | src/hooks/useSlider.ts:72-104 | five slides: `goToSlide(4)` is accepted, `goToSlide(2)` during its transition is refused, and the index ends at 4 after one event |
| SliderModel.SingleSlideNavigationIsNoOp | src/hooks/useSlider.ts:107-116 | with one slide, next and previous change nothing |
| Slider.SliderController.constructor | src/hooks/useSlider.ts:21-31 | the new controller is valid and equals the mounted controller, the mount effect's auto-play start included |
| Slider.SliderController.ClearTimeouts | src/hooks/useSlider.ts:34-43 | performs `SliderModel.ClearTimeouts` in place |
| Slider.SliderController.StartAutoPlay | src/hooks/useSlider.ts:46-69 | performs `SliderModel.StartAutoPlay` in place, keeping the controller valid |
| Slider.SliderController.GoToSlide | src/hooks/useSlider.ts:72-104 | performs `SliderModel.GoToSlide` in place, keeping the controller valid |
| Slider.SliderController.NextSlide | src/hooks/useSlider.ts:107-110 | performs `SliderModel.NextSlide` in place, keeping the controller valid |
| Slider.SliderController.PrevSlide | src/hooks/useSlider.ts:113-116 | performs `SliderModel.PrevSlide` in place, keeping the controller valid |
| Slider.SliderController.FireTransitionEnd | src/hooks/useSlider.ts:96-103 | performs `SliderModel.FireTransitionEnd` in place; enabled only while the transition end is pending |
| Slider.SliderController.FireAutoPlay | src/hooks/useSlider.ts:50-68 | performs `SliderModel.FireAutoPlay` in place; enabled only while the auto-advance is pending |
| Slider.SliderController.Pause | src/hooks/useSlider.ts:119-128 | performs `SliderModel.Pause` in place, keeping the controller valid |
| Slider.SliderController.Resume | src/hooks/useSlider.ts:131-141 | performs `SliderModel.Resume` in place, the mount effect's cleanup and restart included when it was paused, keeping the controller valid |
| Slider.SliderController.Reset | src/hooks/useSlider.ts:144-160 | performs `SliderModel.Reset` in place, keeping the controller valid |
| Slider.SliderController.VisibilityChange | src/hooks/useSlider.ts:198-206 | performs `SliderModel.VisibilityChange` in place, keeping the controller valid |
| Slider.SliderController.KeyDown | src/hooks/useSlider.ts:163-191 | performs `SliderModel.KeyDown` in place, and reports `preventDefault` exactly for a recognised key with keyboard navigation on |
| Slider.ThreeNextSlidesScenario | src/hooks/useSlider.ts:72-110 | a fresh five-slide controller driven by three completed next slides is valid, idle at index 3, having reported three forward slides |
| Theme.GetConservationColor | src/styles/theme.ts:244-255 | each status string gets its own colour; any other string gets the least-concern colour; the result is always one of the seven |
| Theme.EveryStatusIsAKey | src/styles/theme.ts:245-253 | every conservation status is a key of the table, mapped to its colour, so no status reaches the default |
| Theme.ColorsDistinct | src/styles/theme.ts:60-68 | the seven statuses have seven different colours |

## Left out

- Browser storage: reading favourites and preferences, and writing them back. The stored
  values are parameters of `AppContext.InitialState`, and the writes are not modelled.
- Toast notifications. These are external I/O.
- Real `setTimeout`/`clearTimeout`, delays and intervals. The timers are flags, and firing is
  an explicit method enabled only while its flag is set. `autoPlayInterval` and
  `transitionDuration` therefore play no part.
- DOM listener registration and removal. The keydown and visibility handlers are methods.
- React effect re-run scheduling and stale closures. Every call sees the current state. The
  caller's `onSlideChange` is taken to keep its identity across renders; a new callback on
  each render would re-run the mount effect, and with it `clearTimeouts`, after every
  render.
- The slider's item count changing over the hook's lifetime. It is fixed at construction.
- Promise and async plumbing: the simulated API delays, `loadAnimals`, the `filterAnimals`,
  `searchAnimals` and `refetch` wrappers of `useAnimals`, and the loading flags they toggle
  around the synchronous bodies.
- The `Math.random` network-error simulation, which is switched off in the source, and the
  `Date` timestamps of errors. Both are nondeterministic.
- The `catch` of the provider's mount load, since nothing in its `try` block can throw
  synchronously.
- The single-dispatch provider helpers `setLoading`, `setError`, `setCurrentAnimal`,
  `updatePreferences`, `setCurrentPage` and `setBreadcrumbs`. Each is one `dispatch`,
  covered by `AppContext.AppProvider.Dispatch` and the reducer lemmas.
- `useAppContext` throwing outside a provider. This is framework plumbing.
- Coordinates and the literal catalogue records. The queries are proved over any catalogue.
- `toLowerCase` beyond ASCII. `Text.Lower` maps only A-Z.
- Object spread with a key explicitly set to `undefined`. The model treats such a key as
  absent.
- SliderModel.GoToSlide: indices are integers. JavaScript numbers are not: the guard of
  `goToSlide` (src/hooks/useSlider.ts:73) lets `NaN` through, since every comparison with it
  is false, and lets a fractional index within `[0, itemsCount)` through, and either would
  be stored as `currentIndex`. The model has no such values.
- AnimalsHook.UseSimilarAnimals: the limit is an integer. `slice` truncates a fractional
  limit and treats `NaN` as 0; the model has no such values.
- Counting.CountBy: does not model keys inherited from `Object.prototype`. A continent
  named, for example, `"constructor"` would start from the inherited function instead of 0
  in the source's `acc[key] || 0`; the model counts it from 0.
- AppContext.CalculateStats: counts through `Counting.CountBy`, so it has the same gap for
  continent names that are `Object.prototype` keys.
- AnimalsHook.UseAnimalStats: counts through `Counting.CountBy`, so it has the same gap for
  continent names that are `Object.prototype` keys.
- Theme.GetConservationColor: does not model keys inherited from `Object.prototype`, such
  as `"constructor"`, which the source's plain-object lookup would return instead of a
  colour.
- Rendering, routing, styling and the theme constants other than the conservation palette.
  These are UI only.
