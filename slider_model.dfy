/**
 * The carousel controller of src/hooks/useSlider.ts as a state machine over values: each
 * operation and each timer callback is a function from the controller's whole state to its
 * next state. The class in module Slider performs the same steps in place and is proved
 * against these functions. Every call is taken to see the current state (the hook's
 * closures over earlier renders are not modelled).
 */
module SliderModel {
  import opened Wrappers
  import opened Types

  /**
   * Everything the hook keeps: the item count and settings it was given, the state record,
   * whether the auto-advance timer (`autoPlayRef`) and the transition-end timer
   * (`animationRef`) are pending, the page visibility (`isVisibleRef`), and every event passed
   * to `onSlideChange` so far.
   */
  datatype Controller = Controller(
    itemsCount: int,
    config: SliderConfig,
    state: SliderState,
    autoPlayPending: bool,
    animationPending: bool,
    isVisible: bool,
    events: seq<SliderEvent>)

  /** The state record the hook starts with and returns to on reset. */
  const InitialState := SliderState(0, false, None, false)

  /** An event's indices lie in `[0, n)`. */
  predicate EventInRange(e: SliderEvent, n: int) {
    0 <= e.currentIndex < n && (e.previousIndex.Some? ==> 0 <= e.previousIndex.value < n)
  }

  /**
   * What holds of every reachable controller: the index is in range, a direction is set
   * exactly while animating, a pending transition end implies animating, at most one timer is
   * pending, an auto-advance is pending only while auto-play is on, not paused and visible,
   * and every emitted event names indices in range.
   */
  predicate Valid(c: Controller) {
    Consistent(c) && (c.autoPlayPending ==> c.config.autoPlay && !c.state.isPaused && c.isVisible)
  }

  /** The part of `Valid` that does not involve the auto-advance timer's enabling condition. */
  predicate Consistent(c: Controller) {
    c.itemsCount >= 1
    && 0 <= c.state.currentIndex < c.itemsCount
    && (c.state.isAnimating <==> c.state.direction.Some?)
    && (c.animationPending ==> c.state.isAnimating)
    && !(c.autoPlayPending && c.animationPending)
    && forall e :: e in c.events ==> EventInRange(e, c.itemsCount)
  }

  /** A step keeps the slide count, the settings and the page visibility. */
  predicate SameSetup(c: Controller, r: Controller) {
    r.itemsCount == c.itemsCount && r.config == c.config && r.isVisible == c.isVisible
  }

  /** `(c + 1) % n`: the next index, wrapping from the last to the first. */
  function NextIndex(i: int, n: int): (r: int)
    requires 0 <= i < n
    ensures 0 <= r < n
    ensures i < n - 1 ==> r == i + 1
    ensures i == n - 1 ==> r == 0
  {
    (i + 1) % n
  }

  /** `c === 0 ? n - 1 : c - 1`: the previous index, wrapping from the first to the last. */
  function PrevIndex(i: int, n: int): (r: int)
    requires 0 <= i < n
    ensures 0 <= r < n
    ensures NextIndex(r, n) == i
  {
    if i == 0 then n - 1 else i - 1
  }

  /** Stepping forward and then back, or back and then forward, returns to the same index. */
  lemma NextPrevInverse(i: int, n: int)
    requires 0 <= i < n
    ensures PrevIndex(NextIndex(i, n), n) == i
    ensures NextIndex(PrevIndex(i, n), n) == i
  {
  }

  /** The controller right after mounting: initial state, visible, and the mount effect's auto-play start. */
  function Initial(itemsCount: int, config: SliderConfig): (c: Controller)
    requires itemsCount >= 1
    ensures Valid(c) && c.state == InitialState && c.events == []
    ensures c.itemsCount == itemsCount && c.config == config && c.isVisible
    ensures c.autoPlayPending == config.autoPlay && !c.animationPending
  {
    StartAutoPlay(Controller(itemsCount, config, InitialState, false, false, true, []))
  }

  /** `clearTimeouts()`: neither timer is pending afterwards. */
  function ClearTimeouts(c: Controller): (r: Controller)
    requires Consistent(c)
    ensures Valid(r) && !r.autoPlayPending && !r.animationPending
    ensures r.state == c.state && r.events == c.events && SameSetup(c, r)
  {
    c.(autoPlayPending := false, animationPending := false)
  }

  /**
   * `startAutoPlay()`: when auto-play is on, not paused and visible, cancels both timers and
   * schedules an auto-advance; otherwise does nothing.
   */
  function StartAutoPlay(c: Controller): (r: Controller)
    requires Valid(c)
    ensures Valid(r)
    ensures r.state == c.state && r.events == c.events && SameSetup(c, r)
    ensures c.config.autoPlay && !c.state.isPaused && c.isVisible ==> r.autoPlayPending && !r.animationPending
    ensures !(c.config.autoPlay && !c.state.isPaused && c.isVisible) ==> r == c
  {
    if !c.config.autoPlay || c.state.isPaused || !c.isVisible then c
    else c.(autoPlayPending := true, animationPending := false)
  }

  /** The guard of `goToSlide`: idle, in range and a different slide. */
  predicate CanGoTo(c: Controller, index: int) {
    !c.state.isAnimating && 0 <= index < c.itemsCount && index != c.state.currentIndex
  }

  /**
   * `goToSlide(index)`. A refused request changes nothing. An accepted one moves to `index`,
   * starts animating in the direction of the move, emits one slide event, cancels the
   * auto-advance and schedules the transition end.
   */
  function GoToSlide(c: Controller, index: int): (r: Controller)
    requires Valid(c)
    ensures Valid(r)
    ensures !CanGoTo(c, index) ==> r == c
    ensures CanGoTo(c, index) ==>
      r.state.currentIndex == index && r.state.isAnimating && r.state.isPaused == c.state.isPaused
      && (r.state.direction == Some(Next) <==> index > c.state.currentIndex)
      && (r.state.direction == Some(Prev) <==> index < c.state.currentIndex)
      && r.events == c.events + [SliderEvent(SliderEventType.Slide, index, Some(c.state.currentIndex), r.state.direction)]
      && !r.autoPlayPending && r.animationPending && SameSetup(c, r)
  {
    if c.state.isAnimating || index < 0 || index >= c.itemsCount || index == c.state.currentIndex then c
    else
      var direction := if index > c.state.currentIndex then Next else Prev;
      var event := SliderEvent(SliderEventType.Slide, index, Some(c.state.currentIndex), Some(direction));
      var moved := c.(state := c.state.(currentIndex := index, isAnimating := true, direction := Some(direction)),
                      events := c.events + [event]);
      ClearTimeouts(moved).(animationPending := true)
  }

  /** `nextSlide()`: `goToSlide` on the wrapped next index. */
  function NextSlide(c: Controller): (r: Controller)
    requires Valid(c)
    ensures Valid(r)
    ensures r == GoToSlide(c, NextIndex(c.state.currentIndex, c.itemsCount))
    ensures c.itemsCount == 1 ==> r == c
  {
    GoToSlide(c, (c.state.currentIndex + 1) % c.itemsCount)
  }

  /** `prevSlide()`: `goToSlide` on the wrapped previous index. */
  function PrevSlide(c: Controller): (r: Controller)
    requires Valid(c)
    ensures Valid(r)
    ensures r == GoToSlide(c, PrevIndex(c.state.currentIndex, c.itemsCount))
    ensures c.itemsCount == 1 ==> r == c
  {
    GoToSlide(c, if c.state.currentIndex == 0 then c.itemsCount - 1 else c.state.currentIndex - 1)
  }

  /**
   * The transition-end callback: stops animating, clears the direction and tries to restart
   * auto-play. Enabled only while its timer is pending.
   */
  function FireTransitionEnd(c: Controller): (r: Controller)
    requires Valid(c) && c.animationPending
    ensures Valid(r)
    ensures !r.state.isAnimating && r.state.direction.None? && !r.animationPending
    ensures r.state.currentIndex == c.state.currentIndex && r.state.isPaused == c.state.isPaused
    ensures r.events == c.events && SameSetup(c, r)
    ensures r.autoPlayPending <==> c.config.autoPlay && !c.state.isPaused && c.isVisible
  {
    StartAutoPlay(c.(state := c.state.(isAnimating := false, direction := None), animationPending := false))
  }

  /**
   * The auto-advance callback: moves to the wrapped next index in direction next, animating,
   * and emits a slide event. It does not look at `isAnimating` and schedules no transition
   * end. Enabled only while its timer is pending.
   */
  function FireAutoPlay(c: Controller): (r: Controller)
    requires Valid(c) && c.autoPlayPending
    ensures Valid(r)
    ensures r.state.currentIndex == NextIndex(c.state.currentIndex, c.itemsCount)
    ensures r.state.isAnimating && r.state.direction == Some(Next) && r.state.isPaused == c.state.isPaused
    ensures r.events == c.events + [SliderEvent(SliderEventType.Slide, r.state.currentIndex, Some(c.state.currentIndex), Some(Next))]
    ensures !r.autoPlayPending && !r.animationPending && SameSetup(c, r)
  {
    var nextIndex := (c.state.currentIndex + 1) % c.itemsCount;
    var event := SliderEvent(SliderEventType.Slide, nextIndex, Some(c.state.currentIndex), Some(Next));
    c.(state := c.state.(currentIndex := nextIndex, isAnimating := true, direction := Some(Next)),
       events := c.events + [event],
       autoPlayPending := false)
  }

  /**
   * `pause()`: sets the paused flag, cancels both timers, an in-flight transition end
   * included, and emits a pause event with the unchanged index.
   */
  function Pause(c: Controller): (r: Controller)
    requires Valid(c)
    ensures Valid(r)
    ensures r.state == c.state.(isPaused := true)
    ensures !r.autoPlayPending && !r.animationPending && SameSetup(c, r)
    ensures r.events == c.events + [SliderEvent(SliderEventType.Pause, c.state.currentIndex, None, None)]
  {
    var paused := c.(state := c.state.(isPaused := true));
    ClearTimeouts(paused).(events := c.events + [SliderEvent(SliderEventType.Pause, c.state.currentIndex, None, None)])
  }

  /**
   * `resume()`: clears the paused flag, emits a resume event and tries to start auto-play.
   * When the slider was paused, the flag's change gives `startAutoPlay` a new identity, so the
   * mount effect re-runs: its cleanup cancels both timers, an in-flight transition end
   * included, and it starts auto-play again. When it was not paused, only the direct call to
   * `startAutoPlay` happens.
   */
  function Resume(c: Controller): (r: Controller)
    requires Valid(c)
    ensures Valid(r)
    ensures r.state == c.state.(isPaused := false) && SameSetup(c, r)
    ensures r.events == c.events + [SliderEvent(SliderEventType.Resume, c.state.currentIndex, None, None)]
    ensures r.autoPlayPending <==> c.config.autoPlay && c.isVisible
    ensures r.animationPending <==> c.animationPending && !c.state.isPaused && !(c.config.autoPlay && c.isVisible)
  {
    var resumed := c.(state := c.state.(isPaused := false),
                      events := c.events + [SliderEvent(SliderEventType.Resume, c.state.currentIndex, None, None)]);
    if c.state.isPaused then StartAutoPlay(ClearTimeouts(resumed)) else StartAutoPlay(resumed)
  }

  /**
   * `reset()`: from any state, cancels both timers, returns to the initial state record, emits
   * a reset event at index 0 and tries to start auto-play.
   */
  function Reset(c: Controller): (r: Controller)
    requires Valid(c)
    ensures Valid(r)
    ensures r.state == InitialState
    ensures r.events == c.events + [SliderEvent(SliderEventType.Reset, 0, None, None)]
    ensures !r.animationPending && SameSetup(c, r)
    ensures r.autoPlayPending <==> c.config.autoPlay && c.isVisible
  {
    var cleared := ClearTimeouts(c);
    var reset := cleared.(state := InitialState, events := c.events + [SliderEvent(SliderEventType.Reset, 0, None, None)]);
    StartAutoPlay(reset)
  }

  /**
   * The visibility handler: records the visibility; hiding cancels both timers, showing
   * restarts auto-play when it is on and not paused.
   */
  function VisibilityChange(c: Controller, hidden: bool): (r: Controller)
    requires Valid(c)
    ensures Valid(r)
    ensures r.isVisible == !hidden && r.state == c.state && r.events == c.events
    ensures r.itemsCount == c.itemsCount && r.config == c.config
    ensures hidden ==> !r.autoPlayPending && !r.animationPending
    ensures !hidden && c.config.autoPlay && !c.state.isPaused ==> r.autoPlayPending && !r.animationPending
    ensures !hidden && !(c.config.autoPlay && !c.state.isPaused) ==> r == c.(isVisible := true)
  {
    var updated := c.(isVisible := !hidden);
    if hidden then ClearTimeouts(updated)
    else if !updated.state.isPaused && updated.config.autoPlay then StartAutoPlay(updated)
    else updated
  }

  /** What a key asks for. */
  datatype Command = GoNext | GoPrev | TogglePause | GoFirst | GoLast | NoCommand

  /** The keydown switch: the arrows, the space bar, Home and End; other keys ask for nothing. */
  function KeyCommand(key: string): Command {
    if key == "ArrowRight" || key == "ArrowDown" then GoNext
    else if key == "ArrowLeft" || key == "ArrowUp" then GoPrev
    else if key == " " then TogglePause
    else if key == "Home" then GoFirst
    else if key == "End" then GoLast
    else NoCommand
  }

  /** Whether the handler calls `preventDefault`: keyboard navigation on and a recognised key. */
  predicate PreventsDefault(c: Controller, key: string) {
    c.config.enableKeyboardNavigation && KeyCommand(key) != NoCommand
  }

  /** The keydown handler; inactive when keyboard navigation is off. */
  function KeyDown(c: Controller, key: string): (r: Controller)
    requires Valid(c)
    ensures Valid(r)
    ensures !c.config.enableKeyboardNavigation ==> r == c
    ensures c.config.enableKeyboardNavigation ==>
      r == match KeyCommand(key)
           case GoNext => NextSlide(c)
           case GoPrev => PrevSlide(c)
           case TogglePause => if c.state.isPaused then Resume(c) else Pause(c)
           case GoFirst => GoToSlide(c, 0)
           case GoLast => GoToSlide(c, c.itemsCount - 1)
           case NoCommand => c
  {
    if !c.config.enableKeyboardNavigation then c
    else
      match KeyCommand(key)
      case GoNext => NextSlide(c)
      case GoPrev => PrevSlide(c)
      case TogglePause => if c.state.isPaused then Resume(c) else Pause(c)
      case GoFirst => GoToSlide(c, 0)
      case GoLast => GoToSlide(c, c.itemsCount - 1)
      case NoCommand => c
  }

  /**
   * On an idle controller with at least two slides, a next slide and its transition end
   * followed by a previous slide and its transition end return to the starting index, idle,
   * with exactly two slide events added.
   */
  lemma NextThenPrevRestores(c: Controller)
    requires Valid(c) && !c.state.isAnimating && c.itemsCount >= 2
    ensures NextSlide(c).animationPending
    ensures var c2 := FireTransitionEnd(NextSlide(c));
      PrevSlide(c2).animationPending
      && var c4 := FireTransitionEnd(PrevSlide(c2));
      c4.state.currentIndex == c.state.currentIndex && !c4.state.isAnimating
      && |c4.events| == |c.events| + 2
  {
  }

  /** The mirror image: a previous slide then a next slide, each completed, return to the start. */
  lemma PrevThenNextRestores(c: Controller)
    requires Valid(c) && !c.state.isAnimating && c.itemsCount >= 2
    ensures PrevSlide(c).animationPending
    ensures var c2 := FireTransitionEnd(PrevSlide(c));
      NextSlide(c2).animationPending
      && var c4 := FireTransitionEnd(NextSlide(c2));
      c4.state.currentIndex == c.state.currentIndex && !c4.state.isAnimating
      && |c4.events| == |c.events| + 2
  {
  }

  /**
   * Animating with no transition end pending: nothing but `reset` will ever clear the
   * animating flag, and `goToSlide` refuses every request.
   */
  predicate Stalled(c: Controller) {
    c.state.isAnimating && !c.animationPending
  }

  /** An auto-advance leaves the controller stalled: it sets the animating flag and schedules no transition end. */
  lemma AutoAdvanceStalls(c: Controller)
    requires Valid(c) && c.autoPlayPending
    ensures Stalled(FireAutoPlay(c))
    ensures forall i :: GoToSlide(FireAutoPlay(c), i) == FireAutoPlay(c)
  {
  }

  /**
   * A resume from the paused state during a transition (`goToSlide` does not look at the
   * paused flag) cancels the transition end through the mount effect's cleanup, and so leaves
   * the controller stalled.
   */
  lemma ResumeDuringTransitionStalls(c: Controller)
    requires Valid(c) && c.state.isPaused && c.animationPending
    ensures Stalled(Resume(c))
    ensures Resume(c).state.currentIndex == c.state.currentIndex
  {
  }

  /**
   * A resume while not paused, during a transition, with auto-play on and the page visible:
   * its direct `startAutoPlay()` clears both timers, the transition end included, and so
   * leaves the controller stalled.
   */
  lemma ResumeWhileRunningStalls(c: Controller)
    requires Valid(c) && !c.state.isPaused && c.animationPending && c.config.autoPlay && c.isVisible
    ensures Stalled(Resume(c))
    ensures Resume(c).state.currentIndex == c.state.currentIndex
  {
  }

  /** Hiding the page during a transition cancels its transition end and so leaves the controller stalled. */
  lemma HideDuringTransitionStalls(c: Controller)
    requires Valid(c) && c.animationPending
    ensures Stalled(VisibilityChange(c, true))
    ensures VisibilityChange(c, true).state.currentIndex == c.state.currentIndex
  {
  }

  /** A pause during a transition cancels its transition end and so leaves the controller stalled. */
  lemma PauseDuringTransitionStalls(c: Controller)
    requires Valid(c) && c.animationPending
    ensures Stalled(Pause(c))
    ensures Pause(c).state.currentIndex == c.state.currentIndex
  {
  }

  /**
   * A stalled controller stays stalled under every operation and callback except `reset`,
   * which always clears the animating flag; manual navigation is refused throughout.
   */
  lemma StalledUntilReset(c: Controller, index: int, key: string, hidden: bool)
    requires Valid(c) && Stalled(c)
    ensures GoToSlide(c, index) == c && NextSlide(c) == c && PrevSlide(c) == c
    ensures Stalled(Pause(c)) && Stalled(Resume(c)) && Stalled(VisibilityChange(c, hidden))
    ensures Stalled(KeyDown(c, key))
    ensures c.autoPlayPending ==> Stalled(FireAutoPlay(c))
    ensures !Reset(c).state.isAnimating && !Stalled(Reset(c))
  {
  }

  /**
   * A pause followed by a resume, with auto-play on and the page visible, schedules exactly
   * one auto-advance: it moves one slide forward and leaves no timer pending.
   */
  lemma PauseResumeAdvancesOnce(c: Controller)
    requires Valid(c) && c.config.autoPlay && c.isVisible
    ensures var r := Resume(Pause(c));
      r.autoPlayPending && !r.animationPending
      && var f := FireAutoPlay(r);
      f.state.currentIndex == NextIndex(c.state.currentIndex, c.itemsCount)
      && !f.autoPlayPending && !f.animationPending
      && f.events == c.events + [SliderEvent(SliderEventType.Pause, c.state.currentIndex, None, None),
                                 SliderEvent(SliderEventType.Resume, c.state.currentIndex, None, None),
                                 SliderEvent(SliderEventType.Slide, f.state.currentIndex, Some(c.state.currentIndex), Some(Next))]
  {
  }

  /**
   * Five slides, fresh: three next slides, each completed, reach index 3 and report three
   * forward slide events.
   */
  lemma ThreeNextSlides(config: SliderConfig)
    ensures var c1 := FireTransitionEnd(NextSlide(Initial(5, config)));
      c1.state.currentIndex == 1 && NextSlide(c1).animationPending
      && var c2 := FireTransitionEnd(NextSlide(c1));
      c2.state.currentIndex == 2 && NextSlide(c2).animationPending
      && var c3 := FireTransitionEnd(NextSlide(c2));
      c3.state.currentIndex == 3 && !c3.state.isAnimating
      && c3.events == [SliderEvent(SliderEventType.Slide, 1, Some(0), Some(Next)),
                       SliderEvent(SliderEventType.Slide, 2, Some(1), Some(Next)),
                       SliderEvent(SliderEventType.Slide, 3, Some(2), Some(Next))]
  {
    var c0 := Initial(5, config);
    assert NextSlide(c0).animationPending;
  }

  /**
   * Five slides, fresh: `goToSlide(4)` is accepted, a `goToSlide(2)` during its transition is
   * refused, and after the transition end the index is 4 with a single slide event.
   */
  lemma GoToDuringTransitionIgnored(config: SliderConfig)
    ensures var c1 := GoToSlide(Initial(5, config), 4);
      c1.animationPending && GoToSlide(c1, 2) == c1
      && var c2 := FireTransitionEnd(GoToSlide(c1, 2));
      c2.state.currentIndex == 4 && !c2.state.isAnimating
      && c2.events == [SliderEvent(SliderEventType.Slide, 4, Some(0), Some(Next))]
  {
  }

  /** With one slide, next and previous slide do nothing, from the fresh controller onwards. */
  lemma SingleSlideNavigationIsNoOp(config: SliderConfig)
    ensures NextSlide(Initial(1, config)) == Initial(1, config)
    ensures PrevSlide(Initial(1, config)) == Initial(1, config)
  {
  }
}
