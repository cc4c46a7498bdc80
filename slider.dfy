/**
 * `useSlider(itemsCount, config, onSlideChange)` of src/hooks/useSlider.ts as an object: the
 * state record and the three refs are fields that each operation updates in place, the
 * pending timers are flags that the timer-callback methods consume, and `onSlideChange` is
 * the log `events`. Each method is proved to perform the matching step of module SliderModel.
 */
module Slider {
  import opened Wrappers
  import opened Types
  import M = SliderModel

  class SliderController {
    /** The number of slides the hook was given. */
    const itemsCount: int
    /** The merged settings (defaults overridden by the caller's). */
    const config: SliderConfig
    /** The state record of `useState`. */
    var state: SliderState
    /** `autoPlayRef.current` holds a pending auto-advance. */
    var autoPlayPending: bool
    /** `animationRef.current` holds a pending transition end. */
    var animationPending: bool
    /** `isVisibleRef.current`. */
    var isVisible: bool
    /** Every event passed to `onSlideChange`, oldest first. */
    var events: seq<SliderEvent>

    /** The whole controller as a value. */
    function Model(): M.Controller
      reads this
    {
      M.Controller(itemsCount, config, state, autoPlayPending, animationPending, isVisible, events)
    }

    ghost predicate Valid()
      reads this
    {
      M.Valid(Model())
    }

    /** Mounting: the initial state, visible, followed by the mount effect's `startAutoPlay()`. */
    constructor (itemsCount: int, config: SliderConfig)
      requires itemsCount >= 1
      ensures Valid()
      ensures Model() == M.Initial(itemsCount, config)
    {
      this.itemsCount := itemsCount;
      this.config := config;
      state := M.InitialState;
      autoPlayPending := false;
      animationPending := false;
      isVisible := true;
      events := [];
      new;
      StartAutoPlay();
    }

    /** `clearTimeouts()`; also the unmount cleanup. */
    method ClearTimeouts()
      requires M.Consistent(Model())
      modifies this
      ensures Valid()
      ensures Model() == M.ClearTimeouts(old(Model()))
    {
      autoPlayPending := false;
      animationPending := false;
    }

    /** `startAutoPlay()`. */
    method StartAutoPlay()
      requires Valid()
      modifies this
      ensures Valid()
      ensures Model() == M.StartAutoPlay(old(Model()))
    {
      if !config.autoPlay || state.isPaused || !isVisible {
        return;
      }
      ClearTimeouts();
      autoPlayPending := true;
    }

    /** `goToSlide(index)`. */
    method GoToSlide(index: int)
      requires Valid()
      modifies this
      ensures Valid()
      ensures Model() == M.GoToSlide(old(Model()), index)
    {
      if state.isAnimating || index < 0 || index >= itemsCount || index == state.currentIndex {
        return;
      }
      var direction := if index > state.currentIndex then Next else Prev;
      var previous := state.currentIndex;
      state := state.(currentIndex := index, isAnimating := true, direction := Some(direction));
      events := events + [SliderEvent(SliderEventType.Slide, index, Some(previous), Some(direction))];
      ClearTimeouts();
      animationPending := true;
    }

    /** `nextSlide()`. */
    method NextSlide()
      requires Valid()
      modifies this
      ensures Valid()
      ensures Model() == M.NextSlide(old(Model()))
    {
      var nextIndex := (state.currentIndex + 1) % itemsCount;
      GoToSlide(nextIndex);
    }

    /** `prevSlide()`. */
    method PrevSlide()
      requires Valid()
      modifies this
      ensures Valid()
      ensures Model() == M.PrevSlide(old(Model()))
    {
      var prevIndex := if state.currentIndex == 0 then itemsCount - 1 else state.currentIndex - 1;
      GoToSlide(prevIndex);
    }

    /** The transition-end timer fires. */
    method FireTransitionEnd()
      requires Valid() && animationPending
      modifies this
      ensures Valid()
      ensures Model() == M.FireTransitionEnd(old(Model()))
    {
      state := state.(isAnimating := false, direction := None);
      animationPending := false;
      StartAutoPlay();
    }

    /** The auto-advance timer fires. */
    method FireAutoPlay()
      requires Valid() && autoPlayPending
      modifies this
      ensures Valid()
      ensures Model() == M.FireAutoPlay(old(Model()))
    {
      autoPlayPending := false;
      var nextIndex := (state.currentIndex + 1) % itemsCount;
      var previous := state.currentIndex;
      state := state.(currentIndex := nextIndex, isAnimating := true, direction := Some(Next));
      events := events + [SliderEvent(SliderEventType.Slide, nextIndex, Some(previous), Some(Next))];
    }

    /** `pause()`. */
    method Pause()
      requires Valid()
      modifies this
      ensures Valid()
      ensures Model() == M.Pause(old(Model()))
    {
      state := state.(isPaused := true);
      ClearTimeouts();
      events := events + [SliderEvent(SliderEventType.Pause, state.currentIndex, None, None)];
    }

    /** `resume()`, with the mount effect's re-run when the paused flag changes. */
    method Resume()
      requires Valid()
      modifies this
      ensures Valid()
      ensures Model() == M.Resume(old(Model()))
    {
      var wasPaused := state.isPaused;
      state := state.(isPaused := false);
      events := events + [SliderEvent(SliderEventType.Resume, state.currentIndex, None, None)];
      if wasPaused {
        ClearTimeouts();
      }
      StartAutoPlay();
    }

    /** `reset()`. */
    method Reset()
      requires Valid()
      modifies this
      ensures Valid()
      ensures Model() == M.Reset(old(Model()))
    {
      ClearTimeouts();
      state := M.InitialState;
      events := events + [SliderEvent(SliderEventType.Reset, 0, None, None)];
      StartAutoPlay();
    }

    /** The `visibilitychange` listener. */
    method VisibilityChange(hidden: bool)
      requires Valid()
      modifies this
      ensures Valid()
      ensures Model() == M.VisibilityChange(old(Model()), hidden)
    {
      isVisible := !hidden;
      if hidden {
        ClearTimeouts();
      } else if !state.isPaused && config.autoPlay {
        StartAutoPlay();
      }
    }

    /** The `keydown` listener; `prevented` tells whether it called `preventDefault`. */
    method KeyDown(key: string) returns (prevented: bool)
      requires Valid()
      modifies this
      ensures Valid()
      ensures prevented == M.PreventsDefault(old(Model()), key)
      ensures Model() == M.KeyDown(old(Model()), key)
    {
      prevented := false;
      if !config.enableKeyboardNavigation {
        return;
      }
      if key == "ArrowRight" || key == "ArrowDown" {
        prevented := true;
        NextSlide();
      } else if key == "ArrowLeft" || key == "ArrowUp" {
        prevented := true;
        PrevSlide();
      } else if key == " " {
        prevented := true;
        if state.isPaused {
          Resume();
        } else {
          Pause();
        }
      } else if key == "Home" {
        prevented := true;
        GoToSlide(0);
      } else if key == "End" {
        prevented := true;
        GoToSlide(itemsCount - 1);
      }
    }
  }

  /**
   * Driving a fresh five-slide controller with three next slides, each completed, leaves it
   * idle on slide 3 having reported three forward slides.
   */
  method ThreeNextSlidesScenario(config: SliderConfig) returns (slider: SliderController)
    ensures fresh(slider) && slider.Valid()
    ensures slider.state.currentIndex == 3 && !slider.state.isAnimating
    ensures slider.events == [SliderEvent(SliderEventType.Slide, 1, Some(0), Some(Next)),
                              SliderEvent(SliderEventType.Slide, 2, Some(1), Some(Next)),
                              SliderEvent(SliderEventType.Slide, 3, Some(2), Some(Next))]
  {
    slider := new SliderController(5, config);
    M.ThreeNextSlides(config);
    slider.NextSlide();
    slider.FireTransitionEnd();
    slider.NextSlide();
    slider.FireTransitionEnd();
    slider.NextSlide();
    slider.FireTransitionEnd();
  }
}
