# Pixels: Activity replay and Popup state, modelled in Dafny

This project models the two components of `docs/modules.js` in the Pixels drawing tool.

- **Activity** is an append-only list of tasks. `executeAndRegister` runs a callable task once and
  records it; it ignores anything that is not a function. `executeAll` runs every recorded task again,
  in registration order. Here a task is a drawing operation on a point buffer (`AppendPoint`,
  `ClearBuffer`), or `NotCallable` for a non-function value. The main property proved is replay
  determinism: replaying the recorded tasks from the buffer's starting contents gives exactly the
  contents the registrations reached (`Activities.RecordThenReplay`).
- **Popup** is a floating panel, modelled with the DOM abstracted away:
  - its `popup-enabled`/`popup-disabled` class markers;
  - its position, offset and size, with the inline style it displays;
  - the static registry from ids to popups, and the single dragged-popup slot.

  The static state is the class `Popups.Registry`, and one object of it stands for the page. The id
  scheme is in `PopupIds`: a sub-element's id is the popup's id plus a suffix. A drag finds the popup
  from its bar's id by dropping the trailing `-bar`. The registry's invariant includes that every
  registered popup carries exactly one of the two markers.

Modelling choices:

- Coordinates and sizes are integers.
- A `Number.isFinite` test becomes an `Option<int>` argument (`None` = missing or not finite).
- The window centre that `locate()` falls back to is a pair of parameters.
- An inline style value is `None` until it is first assigned.
- An offset is a `Num`: a finite integer, or `NaN`. `parseInt` of a style that was never assigned
  gives `NaN`. Assigning `"NaNpx"` is not a valid length, so the displayed value stays as it was
  (`Popups.Shown`).
- A negative width or height is not a valid CSS length either, so `resize` stores it but the
  displayed size stays as it was (`Popups.SizeShown`).

Behaviour of the code that the model follows:

- A press while a popup is already dragged leaves that popup dragged.
- A press on an id that ends in `-bar` but is not registered leaves nothing dragged.
- After a release, the displayed `left` is the release point plus the offset captured at the press.
  `#x` is the release point, and the offsets are 0. So `left == x + offset` is not an invariant
  between drags; the model does not claim it.
- Only the bar element itself starts a drag. The title, close button and content ids never end in
  `-bar` (`PopupIds.OnlyBarStartsDrag`).

## Model

| member | source | states |
|---|---|---|
| `Activities.Activity.constructor` | docs/modules.js:197-199 | a new Activity has an empty task list |
| `Activities.Activity.ExecuteAndRegister` | docs/modules.js:201-206 | a callable task is applied to the buffer exactly once and appended at the end, earlier entries unchanged; a non-callable one changes neither the buffer nor the list |
| `Activities.Activity.ExecuteAll` | docs/modules.js:208-210 | the buffer ends as the in-order replay of every recorded task from its previous contents; the task list is not modified |
| `Activities.Apply` | docs/modules.js:203 | one call of a task: an appended point goes last with every earlier point kept; a clear leaves the buffer empty |
| `Activities.Replay` | docs/modules.js:209 | replaying the tasks in order adds at most one point per task |
| `Activities.ReplayOnlyAppends` | docs/modules.js:209 | replaying tasks that only append keeps the starting points as a prefix, followed by the tasks' points in registration order |
| `Activities.Callables` | docs/modules.js:201-206 | the tasks kept by a run of registrations are all callable, never more than were offered, each one of those offered, and all of them when all were callable |
| `Activities.CallablesSnoc` | docs/modules.js:201-206 | one more registration extends the kept list by the task exactly when it is callable |
| `Activities.ReplayConcat` | docs/modules.js:208-210 | replaying a concatenation replays the first part and then the second from where it stopped |
| `Activities.ReplaySnoc` | docs/modules.js:201-210 | replaying one more task at the end applies that task to the previous replay's result |
| `Activities.RecordThenReplay` | docs/modules.js:194-211 | after registering any sequence of tasks, the list holds the callable ones in call order, and replaying them from the starting state gives exactly the state the registrations reached |
| `PopupIds.StripBar` | docs/modules.js:149-152 | dropping the suffix of an id that ends in "-bar" keeps its first length-4 characters |
| `PopupIds.BarIdRoundTrip` | docs/modules.js:149-152 | a popup's bar id passes the "-bar" test and strips back to the popup's id |
| `PopupIds.StripBarInverse` | docs/modules.js:149-152 | every id passing the "-bar" test is the bar id of what stripping yields |
| `PopupIds.BarIdInjective` | docs/modules.js:30-31 | popups with different ids have different bar ids |
| `PopupIds.OnlyBarStartsDrag` | docs/modules.js:30-34 | the title, close and content ids never pass the "-bar" test |
| `Popups.WithEnabled` | docs/modules.js:183-186 | enabling leaves the enabled marker without the disabled one and keeps every other class |
| `Popups.WithDisabled` | docs/modules.js:188-191 | disabling leaves the disabled marker without the enabled one and keeps every other class |
| `Popups.Toggled` | docs/modules.js:93-99 | a disabled class list gains the enabled marker and loses the disabled one; any other gains the disabled marker and loses the enabled one; every other class is kept |
| `Popups.ReopenSameAsEnable` | docs/modules.js:101-106 | closing and then enabling an enabled popup gives the same classes as enabling it directly |
| `Popups.ToggleTwice` | docs/modules.js:93-99 | from exactly one marker, openOrClose keeps exactly one marker, and two calls restore the class list |
| `Popups.Offset` | docs/modules.js:155-156 | the captured offset is finite exactly when a position is displayed, and pointer plus offset is that position |
| `Popups.Shown` | docs/modules.js:118-119 | a finite position plus offset is displayed; a NaN one leaves the displayed value as it was |
| `Popups.StartKeepsPosition` | docs/modules.js:155-158 | relocating to the press point with the offset captured there displays the popup where it already was |
| `Popups.DragTranslates` | docs/modules.js:155-168 | while dragging, the displayed position is the start position moved by the pointer's displacement |
| `Popups.DragKey` | docs/modules.js:148-152 | a press yields a lookup key exactly when the target exists and its id ends in "-bar", and the bar id of that key is the target id |
| `Popups.Popup.constructor` | docs/modules.js:23-63 | defaults for missing arguments, sub-ids are the id plus their suffixes, classes "popup", "popup-disabled", "bordered-menu" (so disabled, not enabled), position and offsets 0, no inline style, registered under its id |
| `Popups.Popup.IsEnabled` | docs/modules.js:139-141 | with exactly one marker, a popup is enabled exactly when it is not disabled |
| `Popups.Popup.IsDisabled` | docs/modules.js:143-145 | with exactly one marker, a popup is disabled exactly when it is not enabled |
| `Popups.Popup.SetEnabled` | docs/modules.js:183-186 | the class list becomes its enabled form; nothing else changes |
| `Popups.Popup.SetDisabled` | docs/modules.js:188-191 | the class list becomes its disabled form; nothing else changes |
| `Popups.Popup.Locate` | docs/modules.js:114-120 | the position is the given coordinates, or the centre for a missing one; the displayed left/top are position plus offset |
| `Popups.Popup.Resize` | docs/modules.js:122-128 | each dimension is the given one or 300; the displayed size equals it when it is 0 or more, and a negative one leaves the displayed size as it was |
| `Popups.SizeShown` | docs/modules.js:126-127 | a size of 0 or more is displayed; a negative one, not a valid CSS length, leaves the displayed value unchanged |
| `Popups.Popup.Open` | docs/modules.js:101-108 | the popup ends enabled and not disabled, other classes kept, and is located at the centre |
| `Popups.Popup.Close` | docs/modules.js:110-112 | the popup ends disabled and not enabled, other classes kept, position unchanged |
| `Popups.Popup.OpenOrClose` | docs/modules.js:93-99 | a disabled popup opens at the centre; any other closes and stays where it is |
| `Popups.Registry.constructor` | docs/modules.js:2-3 | the registry starts empty with nothing dragged |
| `Popups.Registry.Get` | docs/modules.js:65-67 | the lookup finds a popup exactly for a registered id, and it is the registered one |
| `Popups.Registry.BarFindsPopup` | docs/modules.js:30-62 | pressing the bar of a registered popup looks up that popup's id and finds that popup |
| `Popups.Registry.Open` | docs/modules.js:77-83 | the registered popup is opened and centred; an unknown id changes nothing; every registered popup keeps exactly one marker |
| `Popups.Registry.Close` | docs/modules.js:85-91 | the registered popup is closed; an unknown id changes nothing; every registered popup keeps exactly one marker |
| `Popups.Registry.OpenOrClose` | docs/modules.js:69-75 | the registered popup is toggled; an unknown id changes nothing; every registered popup keeps exactly one marker |
| `Popups.Registry.StartDragging` | docs/modules.js:147-164 | with nothing dragged, a "-bar" target and a registered key, that popup is dragged, offsets are displayed position minus pointer, it moves to the pointer and its displayed position is unchanged; every other press changes no popup and leaves the dragged slot as it was |
| `Popups.Registry.ContinueDragging` | docs/modules.js:166-170 | the dragged popup, if any, moves to the pointer and displays pointer plus offset; with none, nothing changes |
| `Popups.Registry.FinishDragging` | docs/modules.js:172-181 | the dragged popup, if any, is located at the pointer with its old offsets, then its offsets become 0; afterwards nothing is dragged |
| `Popups.DragGesture` | docs/modules.js:147-181 | press on a centred popup's bar, move, release: the popup was grabbed, ends displaced from the centre by the pointer's travel, offsets 0, nothing dragged |

## Left out

- docs/script.js: WebGL context acquisition, the Worker, `alert` and `console.log` are browser I/O with no logic.
- DOM construction in the Popup constructor (`createElement`, `appendChild`, `textContent`, `setAttribute`, appending to the body) and `setContent`'s child-removal loop: foreign DOM calls. The title is kept as a field only.
- Event wiring: the static initialiser, the `pointerdown` and `click` handlers, and the window `resize` listener that relocates every registered popup. The model calls the drag methods and `Locate` directly.
- The `"px"` formatting of styles, and the `scrollX + innerWidth / 2` centre. The centre is a parameter. Its possibly fractional value, and `parseInt`'s truncation of a fractional style, are not modelled, because coordinates are integers.
- Activities.Activity.ExecuteAndRegister: a task is one of two drawing operations on a point buffer, not an arbitrary closure. A task that throws, or that re-enters the Activity while `executeAll` runs, is not modelled.
- `Layer` is a plain data holder with no behaviour.
