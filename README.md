# Search box widget of the Adaptable theme, in Dafny

The Adaptable Moodle theme ships a small jQuery UI module,
`theme/adaptable/amd/src/search-input.js`, that drives the header search box.
The widget's only state is whether the wrapper `div` and its `form` carry the
`expanded` CSS class. `init` binds one listener for `click`, `mouseover` and
`keydown`, delegated to every `div` element nested inside the wrapper. Which
listener it binds depends on the `expandable` setting:

- the **toggle strategy** (`toggleForm`) collapses an expanded wrapper
  (`hideForm`), and otherwise runs `showForm`;
- the **process strategy** (`processForm`) never changes a class.

`showForm` and `processForm` both ignore every keydown that is not Enter (13)
or Space (32). On a document 767 pixels wide or narrower they submit the form
for a click or keydown and ignore a mouseover. On a wider document `showForm`
adds `expanded` to the wrapper and the form and focuses the input, while
`processForm` only focuses the input. Both call `preventDefault` on a keydown.

The model has two parts:

- `search_input_spec.dfy`, module `SearchInputSpec`, works on values. An event
  is its type, its keyCode and the document width measured for it. The effects
  of a handler are recorded as:
  - the new wrapper and form flags;
  - whether the form was submitted;
  - whether the input was focused;
  - whether `preventDefault` was called.

  `Show`, `Hide`, `Process` and `Toggle` define the handlers. `Run` and
  `Submissions` follow a sequence of events through the bound listener. The
  lemmas state the transition rules and their consequences over whole runs.
- `search_input.dfy`, module `SearchInput`, is the widget as the source holds
  it. Class `SearchBox` has the two class flags as mutable fields and the
  bound strategy as a constant. Its methods `ShowForm`, `HideForm` and
  `ToggleForm` update those fields in place. `ProcessForm` and `SubmitForm`
  have no `modifies` clause and change nothing. Each method is proved equal
  to its value-level definition. `Dispatch` is the listener that `init`
  binds.

Under the toggle strategy the wrapper's class is tested before anything else.
`toggleForm` checks `hasClass('expanded')` (search-input.js:133) before
`showForm` applies its key filter (:58) or its breakpoint (:62). So an
expanded wrapper is collapsed by any event, of any type, keyCode or width, and
the form is not submitted. `ExpandedToggleCollapses` states this. For the same
reason `SmallRunSubmitsEachActivation` requires the process strategy or a
collapsed wrapper: on a small screen, a click on an expanded toggling widget
collapses it instead of submitting.

## Model

| member | source | states |
|---|---|---|
| SearchInputSpec.Submit | theme/adaptable/amd/src/search-input.js:42-44 | submitting the form keeps both classes, does not focus the input and does not cancel the event |
| SearchInputSpec.Show | theme/adaptable/amd/src/search-input.js:53-79 | `showForm` either leaves the classes as they were or sets `expanded` on both wrapper and form; a submission comes with no class change and no focus; `preventDefault` is called only on a keydown that also focuses |
| SearchInputSpec.Hide | theme/adaptable/amd/src/search-input.js:87-90 | `hideForm` clears `expanded` on wrapper and form and has no other effect |
| SearchInputSpec.Process | theme/adaptable/amd/src/search-input.js:99-122 | `processForm` never changes either class; a submission comes with no focus; `preventDefault` only on a keydown that also focuses |
| SearchInputSpec.Toggle | theme/adaptable/amd/src/search-input.js:131-138 | whenever `toggleForm` changes the wrapper's class, the form ends with the same class as the wrapper |
| SearchInputSpec.ChooseStrategy | theme/adaptable/amd/src/search-input.js:154-158 | the toggle strategy is chosen exactly when `expandable` is true, the process strategy otherwise |
| SearchInputSpec.IgnoredKeyIsNoOp | theme/adaptable/amd/src/search-input.js:58-105 | a keydown whose keyCode is neither 13 nor 32 has no effect at all in `showForm` and in `processForm`, at any width and in any state |
| SearchInputSpec.ShowCharacterized | theme/adaptable/amd/src/search-input.js:53-79 | in `showForm` each effect happens exactly when stated. It submits iff the event is a click or an Enter/Space keydown and width <= 767. It focuses iff the event is not an ignored key and width > 767. It calls `preventDefault` iff the event is an Enter/Space keydown and width > 767. The classes become expanded under the focus condition and otherwise stay as they were |
| SearchInputSpec.ProcessCharacterized | theme/adaptable/amd/src/search-input.js:99-122 | in `processForm` submission, focus and `preventDefault` happen under exactly the same conditions as in `showForm`, and the classes never change |
| SearchInputSpec.SmallActivationSubmits | theme/adaptable/amd/src/search-input.js:62-110 | when width <= 767 (767 included), a click or an Enter/Space keydown submits the form in `showForm` and in `processForm`, with no class change, no focus and no `preventDefault` |
| SearchInputSpec.SmallMouseOverIsNoOp | theme/adaptable/amd/src/search-input.js:66-114 | when width <= 767 a mouseover reaching `showForm` or `processForm` has no effect |
| SearchInputSpec.WideShowExpands | theme/adaptable/amd/src/search-input.js:71-78 | when width > 767 and the event is not an ignored key, `showForm` expands wrapper and form and focuses the input. It never submits, and it calls `preventDefault` exactly for a keydown |
| SearchInputSpec.ExpandedToggleCollapses | theme/adaptable/amd/src/search-input.js:131-134 | under the toggle strategy an expanded wrapper is collapsed (wrapper and form) by any event of any type, keyCode and width, with no submit, focus or `preventDefault` |
| SearchInputSpec.CollapsedToggleShows | theme/adaptable/amd/src/search-input.js:135-137 | on a collapsed wrapper `toggleForm` behaves exactly as `showForm` |
| SearchInputSpec.ClickRoundTrip | theme/adaptable/amd/src/search-input.js:131-138 | two clicks at width > 767 take a collapsed widget to expanded (focused, not submitted) and back to collapsed |
| SearchInputSpec.HandleKeepsInSync | theme/adaptable/amd/src/search-input.js:76-89 | every handler keeps the wrapper's and the form's `expanded` flags equal if they were equal |
| SearchInputSpec.RunKeepsInSync | theme/adaptable/amd/src/search-input.js:131-158 | wrapper and form flags that start equal stay equal over any sequence of events, under either strategy |
| SearchInputSpec.ProcessRunKeepsClasses | theme/adaptable/amd/src/search-input.js:99-122 | under the process strategy no sequence of events changes either class |
| SearchInputSpec.SmallRunSubmitsEachActivation | theme/adaptable/amd/src/search-input.js:62-110 | on a small screen, under the process strategy or from a collapsed wrapper, no sequence of events changes a class, and the form is submitted once per click or Enter/Space keydown |
| SearchInputSpec.WideToggleRunAlternates | theme/adaptable/amd/src/search-input.js:71-138 | under the toggle strategy at width > 767, each event that is not an ignored key flips the widget. After n such events from a synchronised state, it is expanded iff it started expanded and n is even, or it started collapsed and n is odd |
| SearchInput.SearchBox.Init | theme/adaptable/amd/src/search-input.js:151-158 | `init` binds the toggle handler exactly when `expandable` is true; the classes are those of the page markup |
| SearchInput.SearchBox.SubmitForm | theme/adaptable/amd/src/search-input.js:42-44 | submits the form and changes no class, focus or event |
| SearchInput.SearchBox.ShowForm | theme/adaptable/amd/src/search-input.js:53-79 | returns the effects of `Show` on the classes before the call and leaves the fields at the new classes |
| SearchInput.SearchBox.HideForm | theme/adaptable/amd/src/search-input.js:87-90 | clears both fields and returns the effects of `Hide` |
| SearchInput.SearchBox.ProcessForm | theme/adaptable/amd/src/search-input.js:99-122 | changes no field and returns the effects of `Process` on the current classes |
| SearchInput.SearchBox.ToggleForm | theme/adaptable/amd/src/search-input.js:131-138 | returns the effects of `Toggle` and leaves the fields at the new classes; an expanded wrapper ends collapsed with no submit and no focus |
| SearchInput.SearchBox.Dispatch | theme/adaptable/amd/src/search-input.js:154-158 | the bound listener runs the chosen strategy's handler and keeps equal wrapper and form flags equal |
| SearchInput.Scenario | theme/adaptable/amd/src/search-input.js:131-158 | with `expandable` true at width 1024, a click expands and focuses and a second click collapses. With `expandable` false at width 500, an Enter keydown submits and changes no class |

## Left out

- jQuery selection and delegation (`$('#' + id)`, `.on(…, 'div', …)`, `.find`): the wrapper, form and input are two class flags and a focus effect.
- Delegated dispatch: jQuery calls the listener once for each `div` between the event's target and the wrapper, so one DOM event inside nested `div`s reaches `toggleForm` several times (two calls expand and then collapse). The model makes one handler call per delivered event; a DOM event that produces k calls is k consecutive events in `Run`.
- The measurement `$(document).width()`: the width is a parameter of each event, sampled per event as the source does.
- Browser side effects of submission, focus and `preventDefault` (navigation, keyboard focus, default action): recorded only as booleans in `Effects`.
- `log.debug` at `init`: logging only, with no effect on behaviour.
- Calling `init` more than once (listeners accumulate, and the module-level `wrapper` is reassigned): listener plumbing in the page, not modelled. A `SearchBox` is one call to `init`.
- A missing wrapper, form or input (jQuery's empty selections make every call a no-op): the model assumes they exist.
- The loose comparison `data.expandable == true`: `expandable` is a plain boolean.
- Event types other than click, mouseover and keydown: the listener is bound only to these three.
