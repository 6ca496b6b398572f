/**
 * The search box widget as the source keeps it: the `expanded` class on the
 * wrapper and on its form are two flags that the handlers update in place.
 * Each handler returns the effects it had, and is proved to agree with the
 * value-level definition of the same handler in SearchInputSpec.
 */
module SearchInput {
  import opened SearchInputSpec

  class SearchBox {
    /** Whether the wrapper `div` carries the `expanded` class. */
    var wrapperExpanded: bool
    /** Whether the wrapper's `form` carries the `expanded` class. */
    var formExpanded: bool
    /** The listener bound by `init`; it is never rebound. */
    const strategy: Strategy

    function Current(): Classes
      reads this
    {
      Classes(wrapperExpanded, formExpanded)
    }

    /**
     * `init`: binds the toggle handler when `expandable` is true and the
     * process handler otherwise. The classes are whatever the page markup
     * already put on the wrapper and the form.
     */
    constructor Init(expandable: bool, wrapperInMarkup: bool, formInMarkup: bool)
      ensures strategy == ToggleStrategy <==> expandable
      ensures wrapperExpanded == wrapperInMarkup && formExpanded == formInMarkup
    {
      strategy := ChooseStrategy(expandable);
      wrapperExpanded := wrapperInMarkup;
      formExpanded := formInMarkup;
    }

    /** `submitForm`: only the submission happens. */
    method SubmitForm() returns (fx: Effects)
      ensures fx.submitted && fx.after == Current() && !fx.focused && !fx.preventedDefault
    {
      fx := Effects(Classes(wrapperExpanded, formExpanded), true, false, false);
    }

    /** `showForm`: submit on a small screen, expand and focus on a wide one. */
    method ShowForm(ev: Event) returns (fx: Effects)
      modifies this
      ensures fx == Show(old(Current()), ev)
      ensures Current() == fx.after
    {
      if ev.kind == KeyDown && ev.keyCode != EnterKey && ev.keyCode != SpaceKey {
        fx := Effects(Current(), false, false, false);
        return;
      }
      if ev.width <= Breakpoint && (ev.kind == Click || ev.kind == KeyDown) {
        fx := SubmitForm();
        return;
      } else if ev.width <= Breakpoint {
        fx := Effects(Current(), false, false, false);
        return;
      }
      var prevented := false;
      if ev.kind == KeyDown {
        prevented := true;
      }
      wrapperExpanded := true;
      formExpanded := true;
      fx := Effects(Current(), false, true, prevented);
    }

    /** `hideForm`: remove the class from the wrapper and the form. */
    method HideForm() returns (fx: Effects)
      modifies this
      ensures fx == Hide(old(Current()))
      ensures Current() == Collapsed
    {
      wrapperExpanded := false;
      formExpanded := false;
      fx := Effects(Current(), false, false, false);
    }

    /** `processForm`: like `showForm`, but focusing in place of expanding. */
    method ProcessForm(ev: Event) returns (fx: Effects)
      ensures fx == Process(Current(), ev)
      ensures fx.after == Current()
    {
      if ev.kind == KeyDown && ev.keyCode != EnterKey && ev.keyCode != SpaceKey {
        fx := Effects(Current(), false, false, false);
        return;
      }
      if ev.width <= Breakpoint && (ev.kind == Click || ev.kind == KeyDown) {
        fx := SubmitForm();
        return;
      } else if ev.width <= Breakpoint {
        fx := Effects(Current(), false, false, false);
        return;
      }
      var prevented := false;
      if ev.kind == KeyDown {
        prevented := true;
      }
      fx := Effects(Current(), false, true, prevented);
    }

    /** `toggleForm`: the wrapper's class decides, before any key or width test. */
    method ToggleForm(ev: Event) returns (fx: Effects)
      modifies this
      ensures fx == Toggle(old(Current()), ev)
      ensures Current() == fx.after
      ensures old(wrapperExpanded) ==> Current() == Collapsed && !fx.submitted && !fx.focused
    {
      if wrapperExpanded {
        fx := HideForm();
      } else {
        fx := ShowForm(ev);
      }
    }

    /**
     * One call of the listener `init` delegates to the `div` elements
     * inside the wrapper for click, mouseover and keydown. Wrapper and form stay equal once equal.
     */
    method Dispatch(ev: Event) returns (fx: Effects)
      modifies this
      ensures fx == Handle(strategy, old(Current()), ev)
      ensures Current() == fx.after
      ensures InSync(old(Current())) ==> InSync(Current())
    {
      if strategy == ToggleStrategy {
        fx := ToggleForm(ev);
      } else {
        fx := ProcessForm(ev);
      }
      if InSync(old(Current())) {
        HandleKeepsInSync(strategy, old(Current()), ev);
      }
    }
  }

  /**
   * The scenario of a toggling widget on a 1024-pixel screen: a click expands
   * and focuses, a second click collapses; then a keydown of Enter on a
   * 500-pixel screen with the process strategy submits once.
   */
  method Scenario() returns (first: Effects, second: Effects, third: Effects)
    ensures first.after == Expanded && first.focused && !first.submitted
    ensures second.after == Collapsed && !second.submitted && !second.focused
    ensures third.submitted && third.after == Collapsed && !third.focused
  {
    var box := new SearchBox.Init(true, false, false);
    first := box.Dispatch(Event(Click, 0, 1024));
    second := box.Dispatch(Event(Click, 0, 1024));
    var other := new SearchBox.Init(false, false, false);
    third := other.Dispatch(Event(KeyDown, EnterKey, 500));
  }
}
