# AgendaFlatList synchronisation model

`AgendaFlatList` is a list of dated items from react-native-calendars. It keeps its
on-screen section in step with the date selected in a shared calendar context. It works
in both directions:

- When the context date changes from elsewhere, the list scrolls to the item with that date.
- When the user drags the list, the list reports the date of its top item with `setDate(date, LIST_DRAG)`.

Three instance fields keep this from becoming a feedback loop:

- `_topSection`: the last recorded top date.
- `didScroll`: whether any `onScroll` callback has arrived yet. The host also delivers `onScroll` during an animated programmatic scroll, so this is not strictly a user gesture.
- `sectionScroll`: whether a programmatic scroll is in flight.

The model has two modules.

- `AgendaModel` (`agenda_model.dfy`) holds the values.
  - A `State` holds the props the list reads, whether the host list ref is set, the three fields, and the `setTimeout` callbacks that are still pending.
  - Each handler is a total function from a state to a `Transition`. A transition carries the next state, the calls made on the world (`ScrollToIndex`, `SetDate`, `SetDisabled`), and whether the handler ended in a JavaScript `TypeError`.
  - `Run` folds a sequence of host `Event`s into a `Trace`.
  - The lemmas state each handler's rule and the feedback-loop guarantees over whole traces.
- `AgendaFlatList` (`agenda_flat_list.dfy`) holds the component as a class, `AgendaList`.
  - Its fields are updated in place, and every outgoing call is appended to the `effects` log.
  - Each handler method is proved to move the object exactly as the matching transition does, so every lemma about the transition holds of the object.
  - `GetSectionIndex` is the source's lookup loop, with its invariant.
  - `Drive` feeds any event sequence to an object and is proved to agree with `Run`.

Modelling decisions:

- The item list is the sequence of the items' `dataDateProperty` values. A date is a string.
- The update source is `ListDrag`, `CalendarInit` or `Other`.
- JavaScript truthiness of the viewable top date is an `Option`. The empty string counts as absent.
- `setTimeout` in `componentDidMount` is a pending entry. It holds the index looked up at mount time and runs when a later `Timeout` event fires.
- `this.list.current` is a boolean that a `ListRef` host event sets.
- A new props object from the parent, followed by `componentDidUpdate(prevProps)`, is the `NewProps` event.
- Two reads in the source can throw a `TypeError`, and both are modelled as a `thrown` result:
  - `componentDidMount` reads `data[0]` on empty data.
  - `scrollToSection` reads an index past the end of `data`. This can happen when the data shrank between the mount and its timeout. The source has already set `sectionScroll` to true at that point, so the model keeps that update.

## Model

| member | source | states |
|---|---|---|
| `AgendaFlatList.AgendaList.constructor` | src/expandableCalendar/agendaFlatList.js:46-59 | after construction `didScroll` and `sectionScroll` are false, the ref is unset, no timer is pending and `_topSection` is the first item's date, or absent for empty data |
| `AgendaModel.InitialState` | src/expandableCalendar/agendaFlatList.js:50-53 | the initial state has neither flag set; its top date is absent exactly when there is no data, and is otherwise the first item's date |
| `AgendaFlatList.AgendaList.GetSectionIndex` | src/expandableCalendar/agendaFlatList.js:61-71 | the result is none exactly when no item has the date; otherwise it is an in-range index whose item has the date, and no later item does (the last match wins, because the callback's `return` does not stop the map) |
| `AgendaModel.LastIndexOfSpec` | src/expandableCalendar/agendaFlatList.js:61-71 | the reference lookup is none iff the date is absent, and otherwise an in-range index of the last item with that date |
| `AgendaFlatList.AgendaList.ComponentDidMount` | src/expandableCalendar/agendaFlatList.js:73-81 | the object moves as `MountStep`: a `TypeError` on empty data, nothing when the context date is the first item's, otherwise one timer holding the lookup of the context date |
| `AgendaModel.MountSchedules` | src/expandableCalendar/agendaFlatList.js:73-81 | on non-empty data a mount emits no call and does not throw; it schedules nothing when the context date equals the first item's date, and otherwise schedules exactly the lookup of that date |
| `AgendaModel.MountThenTimeout` | src/expandableCalendar/agendaFlatList.js:73-108 | with the ref set and a context date other than the first item's, a mount followed by its timeout scrolls exactly once, to an in-range index of an item with that date, which becomes the top date with `sectionScroll` set; a date naming no item leaves no call and the state unchanged |
| `AgendaFlatList.AgendaList.FireTimeout` | src/expandableCalendar/agendaFlatList.js:77-79 | the oldest pending callback is removed and its `scrollToSection` runs on the current state; with no pending callback nothing happens |
| `AgendaFlatList.AgendaList.ComponentDidUpdate` | src/expandableCalendar/agendaFlatList.js:83-95 | the object moves as `DidUpdateStep`; for a `LIST_DRAG` or `CALENDAR_INIT` source no field and no call changes |
| `AgendaFlatList.AgendaList.ReceiveProps` | src/expandableCalendar/agendaFlatList.js:83-95 | new props are stored, then `componentDidUpdate` runs against the previous context |
| `AgendaModel.UpdateFilter` | src/expandableCalendar/agendaFlatList.js:83-95 | an update never throws, and it acts only when the date changed, the source is neither `LIST_DRAG` nor `CALENDAR_INIT`, and the new date names an item |
| `AgendaModel.UpdateScrollsToDate` | src/expandableCalendar/agendaFlatList.js:83-108 | a changed date from another source, with the ref set and a matching item, issues exactly one scroll, to an in-range index of an item with that date; it records that date as the top section and sets the programmatic-scroll flag |
| `AgendaModel.UnknownDateNoScroll` | src/expandableCalendar/agendaFlatList.js:91-98 | a context date that matches no item changes nothing and issues no scroll |
| `AgendaModel.DragUpdateNoRescroll` | src/expandableCalendar/agendaFlatList.js:83-95 | new props whose source is `LIST_DRAG` or `CALENDAR_INIT` update only the props: no scroll, no call and no field change |
| `AgendaFlatList.AgendaList.ScrollToSection` | src/expandableCalendar/agendaFlatList.js:97-110 | the object moves as `ScrollStep`, and `didScroll` is unchanged |
| `AgendaModel.ScrollMissingTargetIsNoOp` | src/expandableCalendar/agendaFlatList.js:97-98 | with no index or no list ref the scroll changes nothing and issues no command |
| `AgendaModel.ScrollValidTarget` | src/expandableCalendar/agendaFlatList.js:97-108 | a valid index sets `sectionScroll`, records that item's date as `_topSection` and issues exactly one `scrollToIndex(index)`; nothing else changes |
| `AgendaModel.StepScrollsInRange` | src/expandableCalendar/agendaFlatList.js:97-108 | every scroll command that any handler issues names an item of the current data, and that item's date becomes the recorded top date |
| `AgendaFlatList.AgendaList.OnViewableItemsChanged` | src/expandableCalendar/agendaFlatList.js:112-129 | the object moves as `ViewableStep`; while `sectionScroll` is set, no field and no call changes |
| `AgendaModel.ViewableDuringSectionScroll` | src/expandableCalendar/agendaFlatList.js:113 | during a programmatic scroll a viewability change does nothing |
| `AgendaModel.ViewableRule` | src/expandableCalendar/agendaFlatList.js:112-129 | outside a programmatic scroll, a truthy top date that differs from `_topSection` always becomes `_topSection`, and `setDate(top, LIST_DRAG)` is emitted exactly when `didScroll` holds; an equal or falsy top date does nothing |
| `AgendaModel.ViewableEmitsOnlyDrag` | src/expandableCalendar/agendaFlatList.js:115-127 | a viewability change emits at most one call: a `setDate` of the newly recorded, changed, non-empty top date with source `LIST_DRAG`, and only once `didScroll` holds |
| `AgendaFlatList.AgendaList.OnScroll` | src/expandableCalendar/agendaFlatList.js:131-136 | the object moves as `ScrollEventStep`, after which `didScroll` holds |
| `AgendaModel.ScrollEventRule` | src/expandableCalendar/agendaFlatList.js:131-136 | `onScroll` sets `didScroll` and changes nothing else; a second call has the same result as the first |
| `AgendaFlatList.AgendaList.OnMomentumScrollBegin` | src/expandableCalendar/agendaFlatList.js:138-141 | the object moves as `MomentumBeginStep`: one `setDisabled(true)` |
| `AgendaFlatList.AgendaList.OnMomentumScrollEnd` | src/expandableCalendar/agendaFlatList.js:143-148 | the object moves as `MomentumEndStep`, after which `sectionScroll` is false |
| `AgendaModel.MomentumRules` | src/expandableCalendar/agendaFlatList.js:138-148 | momentum begin emits `setDisabled(true)` and changes no field; momentum end clears `sectionScroll` and emits `setDisabled(false)` |
| `AgendaFlatList.AgendaList.SetListRef` | src/expandableCalendar/agendaFlatList.js:156 | the host list fills in or clears the ref passed to it, and nothing else changes |
| `AgendaFlatList.AgendaList.Handle` | src/expandableCalendar/agendaFlatList.js:73-168 | each host event moves the object as `Step`: the lifecycle hooks `componentDidMount` and `componentDidUpdate` (with new props), the timer callback they schedule, the ref, and the callbacks wired up in `render` |
| `AgendaFlatList.Drive` | src/expandableCalendar/agendaFlatList.js:152-168 | any sequence of host callbacks leaves the object in the final state of `Run` and appends exactly its calls |
| `AgendaModel.StepKeepsDidScroll` | src/expandableCalendar/agendaFlatList.js:131-136 | no handler clears `didScroll`, and only `onScroll` changes it |
| `AgendaModel.StepKeepsSectionScroll` | src/expandableCalendar/agendaFlatList.js:143-145 | only momentum end clears `sectionScroll` |
| `AgendaModel.StepSetDateGuard` | src/expandableCalendar/agendaFlatList.js:113-126 | only a viewability change can emit `setDate`, and only once `didScroll` holds and outside a programmatic scroll |
| `AgendaModel.DidScrollNeverResets` | src/expandableCalendar/agendaFlatList.js:131-136 | once `didScroll` holds it holds after any sequence of events |
| `AgendaModel.NoSetDateBeforeFirstScroll` | src/expandableCalendar/agendaFlatList.js:118-119 | from a state where `didScroll` is false, any sequence of events without an `onScroll` callback emits no `setDate` and leaves `didScroll` false |
| `AgendaModel.NoFeedbackDuringSectionScroll` | src/expandableCalendar/agendaFlatList.js:99 | from a state with a programmatic scroll in flight, any sequence of events without momentum end keeps the flag and emits no `setDate` |
| `AgendaModel.DragEchoIsAbsorbed` | src/expandableCalendar/agendaFlatList.js:85-125 | after the list reports a drag date, the context handing that date back as `LIST_DRAG` causes no call and keeps the reported date |
| `AgendaModel.InitialTopInData` | src/expandableCalendar/agendaFlatList.js:50-51 | a fresh list records no top date or the date of an item |
| `AgendaModel.StepKeepsTopInData` | src/expandableCalendar/agendaFlatList.js:97-129 | every handler keeps the recorded top date among the items' dates when the viewable dates come from the data and new props keep every old date; only new props change the data |
| `AgendaModel.TopInDataAlongTrace` | src/expandableCalendar/agendaFlatList.js:97-129 | over any sequence of events without new props, with viewable dates taken from the data, the recorded top date stays the date of an item |
| `AgendaModel.StaleTopAfterNewData` | src/expandableCalendar/agendaFlatList.js:83-95 | new data that drops the recorded date, with an unchanged context date, leaves `_topSection` naming no item |

## Left out

- The recorded top date is proved to be an item's date only while new props keep every old date (`StepKeepsTopInData`). `componentDidUpdate` never updates `_topSection` when the data is replaced and no scroll follows, so new data without the old date leaves it stale (`StaleTopAfterNewData`). This is how the source behaves, not a modelling gap.
- Rendering is not modelled: `render`, `FlatList`/`SectionList`, `keyExtractor`, `viewabilityConfig`, prop types, default props and styles are host-library and presentation concerns. Only the callbacks that `render` wires up are modelled, as the `Event` type.
- The host's viewability computation is not modelled. The dates of the viewable items are an input to `OnViewableItemsChanged`.
- Timing is not modelled. This covers the delay of `setTimeout` and animated scrolling. A timer is an explicit later `Timeout` event, and a scroll's end is the host's `MomentumScrollEnd` event.
- `_.get` and `_.invoke` path semantics are simplified. Every item is assumed to carry its date property. The context is assumed to provide `setDate` and `setDisabled`, so `_.invoke` is always recorded as a call.
- The forwarding of `onScroll`, `onMomentumScrollBegin` and `onMomentumScrollEnd` to the parent's own props is left out. It is pass-through with no logic.
- The `dataDateProperty` key and the `dayFormat` formatting are not modelled. The data is already the sequence of dates, and XDate formatting is foreign code.
- What the calendar context does with `setDate` and `setDisabled` is left out. The context is owned by a provider that is not part of this model.
- The arguments `animated: true` and `viewPosition: 0` of `scrollToIndex` are not modelled. They are host animation parameters, so the effect records only the index.
