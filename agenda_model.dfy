/** Value-level model of the list/calendar synchronisation of AgendaFlatList.
    A `State` is everything one list instance reads or writes: the props it is
    given (`data`, `context`), whether the host list ref is set, the three
    instance fields and the timers scheduled by componentDidMount. Every handler
    is a function from a state to a `Transition`: the next state, the calls it
    makes on the outside world (in order) and whether it ended in a TypeError. */
module AgendaModel {

  datatype Option<T> = None | Some(value: T)

  /** A section title, i.e. the `dataDateProperty` of an item. */
  type Date = string

  /** Who last changed the shared date. Only the two sources the list tests
      for are distinguished. */
  datatype UpdateSource = ListDrag | CalendarInit | Other

  /** What the list reads from the shared calendar context. */
  datatype Context = Context(date: Date, updateSource: UpdateSource)

  /** Calls the list makes on the world: on its host list, or on the context. */
  datatype Effect =
    | ScrollToIndex(index: nat)
    | SetDate(date: Date, source: UpdateSource)
    | SetDisabled(disabled: bool)

  datatype State = State(
    data: seq<Date>,              // dates of the items, in list order
    context: Context,
    listAttached: bool,           // `this.list.current` is set
    topSection: Option<Date>,     // `this._topSection`
    didScroll: bool,
    sectionScroll: bool,
    pending: seq<Option<nat>>)    // setTimeout callbacks, each with its section index

  datatype Transition = Transition(next: State, out: seq<Effect>, thrown: bool)

  /** JS truthiness of a date value: absent and the empty string are falsy. */
  predicate Truthy(d: Option<Date>) {
    d.Some? && d.value != ""
  }

  predicate EmitsSetDate(out: seq<Effect>) {
    exists k :: 0 <= k < |out| && out[k].SetDate?
  }

  // ---------------------------------------------------------------------------
  // Lookup

  /** The index the lookup loop leaves in its variable: every matching item
      overwrites it, so the last match wins; no match leaves it undefined. */
  function LastIndexOf(data: seq<Date>, date: Date): Option<nat>
  {
    if |data| == 0 then None
    else if data[|data| - 1] == date then Some(|data| - 1)
    else LastIndexOf(data[..|data| - 1], date)
  }

  /** An index is found exactly when some item carries the date; a found index
      is in range, its item carries the date and no later item does. */
  lemma {:induction false} LastIndexOfSpec(data: seq<Date>, date: Date)
    ensures LastIndexOf(data, date).None? <==> date !in data
    ensures LastIndexOf(data, date).Some? ==>
      var i := LastIndexOf(data, date).value;
      i < |data| && data[i] == date &&
      forall j :: i < j < |data| ==> data[j] != date
  {
    if |data| > 0 && data[|data| - 1] != date {
      var init := data[..|data| - 1];
      LastIndexOfSpec(init, date);
      assert data == init + [data[|data| - 1]];
    }
  }

  // ---------------------------------------------------------------------------
  // Construction and handlers

  /** The fields set by the constructor: the ref is not attached yet, nothing
      has scrolled, and the recorded top date is the first item's, if any. */
  function Initial(data: seq<Date>, context: Context): State {
    State(data, context, false, if |data| > 0 then Some(data[0]) else None, false, false, [])
  }

  function Quiet(s: State): Transition {
    Transition(s, [], false)
  }

  /** scrollToSection: a programmatic scroll to an item, when the ref is set and
      an index was found. An index past the end of the data makes the read of
      the item throw after `sectionScroll` has already been raised. */
  function ScrollStep(s: State, index: Option<nat>): Transition {
    if !s.listAttached || index.None? then Quiet(s)
    else if index.value >= |s.data| then Transition(s.(sectionScroll := true), [], true)
    else Transition(s.(sectionScroll := true, topSection := Some(s.data[index.value])),
                    [ScrollToIndex(index.value)], false)
  }

  /** componentDidMount: when the context date is not the first item's, look the
      date up now and schedule the scroll to it for later. Empty data throws. */
  function MountStep(s: State): Transition {
    if |s.data| == 0 then Transition(s, [], true)
    else if s.context.date == s.data[0] then Quiet(s)
    else Quiet(s.(pending := s.pending + [LastIndexOf(s.data, s.context.date)]))
  }

  /** The first scheduled timeout fires and runs its scroll. */
  function TimeoutStep(s: State): Transition {
    if s.pending == [] then Quiet(s)
    else ScrollStep(s.(pending := s.pending[1..]), s.pending[0])
  }

  /** componentDidUpdate, with the context of the previous props. */
  function DidUpdateStep(s: State, prev: Context): Transition {
    if s.context.date != prev.date
       && s.context.updateSource != ListDrag && s.context.updateSource != CalendarInit
    then ScrollStep(s, LastIndexOf(s.data, s.context.date))
    else Quiet(s)
  }

  /** New props from the parent, followed by componentDidUpdate. */
  function PropsStep(s: State, data: seq<Date>, context: Context): Transition {
    DidUpdateStep(s.(data := data, context := context), s.context)
  }

  /** The date of the first viewable item, if the host reported any. */
  function TopDate(viewable: seq<Option<Date>>): Option<Date> {
    if |viewable| > 0 then viewable[0] else None
  }

  /** onViewableItemsChanged, given the dates of the viewable items. */
  function ViewableStep(s: State, viewable: Option<seq<Option<Date>>>): Transition {
    if viewable.None? || s.sectionScroll then Quiet(s)
    else
      var top := TopDate(viewable.value);
      if Truthy(top) && top != s.topSection then
        Transition(s.(topSection := top),
                   if s.didScroll then [SetDate(top.value, ListDrag)] else [], false)
      else Quiet(s)
  }

  function ScrollEventStep(s: State): Transition {
    Quiet(s.(didScroll := true))
  }

  function MomentumBeginStep(s: State): Transition {
    Transition(s, [SetDisabled(true)], false)
  }

  function MomentumEndStep(s: State): Transition {
    Transition(s.(sectionScroll := false), [SetDisabled(false)], false)
  }

  function ListRefStep(s: State, attached: bool): Transition {
    Quiet(s.(listAttached := attached))
  }

  // ---------------------------------------------------------------------------
  // Event traces

  /** Everything the host can do to a constructed list, one callback at a time. */
  datatype Event =
    | Mount
    | Timeout
    | NewProps(data: seq<Date>, context: Context)
    | ListRef(attached: bool)
    | ViewableItemsChanged(viewable: Option<seq<Option<Date>>>)
    | Scroll
    | MomentumScrollBegin
    | MomentumScrollEnd

  function Step(s: State, e: Event): Transition {
    match e
    case Mount => MountStep(s)
    case Timeout => TimeoutStep(s)
    case NewProps(d, c) => PropsStep(s, d, c)
    case ListRef(a) => ListRefStep(s, a)
    case ViewableItemsChanged(v) => ViewableStep(s, v)
    case Scroll => ScrollEventStep(s)
    case MomentumScrollBegin => MomentumBeginStep(s)
    case MomentumScrollEnd => MomentumEndStep(s)
  }

  datatype Trace = Trace(final: State, out: seq<Effect>)

  /** Runs the events in order and collects every call made on the world. */
  function Run(s: State, events: seq<Event>): Trace
    decreases |events|
  {
    if events == [] then Trace(s, [])
    else
      var t := Step(s, events[0]);
      var r := Run(t.next, events[1..]);
      Trace(r.final, t.out + r.out)
  }

  /** Running the events from position k is one step followed by the rest. */
  lemma RunUnfold(s: State, events: seq<Event>, k: nat)
    requires k < |events|
    ensures var t := Step(s, events[k]);
      Run(s, events[k..]) == Trace(Run(t.next, events[k + 1..]).final, t.out + Run(t.next, events[k + 1..]).out)
  {
    assert events[k..][1..] == events[k + 1..];
  }

  // ---------------------------------------------------------------------------
  // Properties of single handlers

  /** A fresh list has not scrolled, is not scrolling programmatically and
      records the first item's date, or nothing for empty data. */
  lemma InitialState(data: seq<Date>, context: Context)
    ensures !Initial(data, context).didScroll && !Initial(data, context).sectionScroll
    ensures Initial(data, context).topSection.None? <==> data == []
    ensures data != [] ==> Initial(data, context).topSection == Some(data[0])
    ensures Initial(data, context).pending == []
  {
  }

  /** A scroll without a target or without a list ref does nothing at all. */
  lemma ScrollMissingTargetIsNoOp(s: State, index: Option<nat>)
    requires index.None? || !s.listAttached
    ensures ScrollStep(s, index) == Quiet(s)
  {
  }

  /** A scroll to an item raises `sectionScroll`, records that item's date and
      issues exactly one scroll command to its index; nothing else changes. */
  lemma ScrollValidTarget(s: State, i: nat)
    requires s.listAttached && i < |s.data|
    ensures ScrollStep(s, Some(i)).next == s.(sectionScroll := true, topSection := Some(s.data[i]))
    ensures ScrollStep(s, Some(i)).out == [ScrollToIndex(i)]
    ensures !ScrollStep(s, Some(i)).thrown
  {
  }

  /** A mount on non-empty data schedules a scroll exactly when the context
      date is not the first item's, and the scheduled target is the lookup of
      that date. Nothing is emitted at mount time. */
  lemma MountSchedules(s: State)
    requires s.data != []
    ensures MountStep(s).out == [] && !MountStep(s).thrown
    ensures s.context.date == s.data[0] ==> MountStep(s).next == s
    ensures s.context.date != s.data[0] ==>
      MountStep(s).next == s.(pending := s.pending + [LastIndexOf(s.data, s.context.date)])
  {
  }

  /** A mount followed by its timeout, with the ref set: a context date that
      names an item, other than the first item's, ends in exactly one scroll to
      an item with that date, which becomes the recorded top date with a
      programmatic scroll in flight; a date naming no item changes nothing. */
  lemma {:induction false} MountThenTimeout(s: State)
    requires s.data != [] && s.pending == [] && s.listAttached
    requires s.context.date != s.data[0]
    ensures var r := Run(s, [Mount, Timeout]);
      if s.context.date in s.data then
        |r.out| == 1 && r.out[0].ScrollToIndex? && r.out[0].index < |s.data| &&
        s.data[r.out[0].index] == s.context.date &&
        r.final.topSection == Some(s.context.date) && r.final.sectionScroll
      else r.out == [] && r.final == s
  {
    LastIndexOfSpec(s.data, s.context.date);
    assert [Mount, Timeout][1..] == [Timeout];
    assert [Timeout][1..] == [];
  }

  /** A date change from any other source re-scrolls to the new date: when the
      ref is set and the date names an item, the list ends up recording that
      date with a programmatic scroll in flight. */
  lemma {:induction false} UpdateScrollsToDate(s: State, prev: Context)
    requires s.context.date != prev.date
    requires s.context.updateSource == Other
    requires s.listAttached && s.context.date in s.data
    ensures DidUpdateStep(s, prev).next.topSection == Some(s.context.date)
    ensures DidUpdateStep(s, prev).next.sectionScroll
    ensures |DidUpdateStep(s, prev).out| == 1 && DidUpdateStep(s, prev).out[0].ScrollToIndex?
    ensures DidUpdateStep(s, prev).out[0].index < |s.data|
    ensures s.data[DidUpdateStep(s, prev).out[0].index] == s.context.date
  {
    LastIndexOfSpec(s.data, s.context.date);
  }

  /** componentDidUpdate acts only on a changed date from a source other than
      the list's own drag or the calendar's initialisation; it throws never. */
  lemma {:induction false} UpdateFilter(s: State, prev: Context)
    ensures !DidUpdateStep(s, prev).thrown
    ensures DidUpdateStep(s, prev) != Quiet(s) ==>
      s.context.date != prev.date && s.context.updateSource == Other && s.context.date in s.data
  {
    LastIndexOfSpec(s.data, s.context.date);
  }

  /** A date that matches no item never causes a scroll. */
  lemma {:induction false} UnknownDateNoScroll(s: State, prev: Context)
    requires s.context.date !in s.data
    ensures DidUpdateStep(s, prev) == Quiet(s)
  {
    LastIndexOfSpec(s.data, s.context.date);
  }

  /** The echo of the list's own drag, or the calendar's initial date, never
      scrolls the list and changes none of its fields. */
  lemma DragUpdateNoRescroll(s: State, data: seq<Date>, context: Context)
    requires context.updateSource == ListDrag || context.updateSource == CalendarInit
    ensures PropsStep(s, data, context) == Quiet(s.(data := data, context := context))
  {
  }

  /** While a programmatic scroll is in flight, viewability changes do nothing. */
  lemma ViewableDuringSectionScroll(s: State, viewable: Option<seq<Option<Date>>>)
    requires s.sectionScroll
    ensures ViewableStep(s, viewable) == Quiet(s)
  {
  }

  /** Outside a programmatic scroll, a new truthy top date is always recorded,
      and reported to the context as a list drag exactly when the user has
      scrolled; the same top date as recorded, or no top date, does nothing. */
  lemma ViewableRule(s: State, viewable: seq<Option<Date>>)
    requires !s.sectionScroll
    ensures var t := ViewableStep(s, Some(viewable));
      var top := TopDate(viewable);
      if Truthy(top) && top != s.topSection then
        t.next == s.(topSection := top) && !t.thrown &&
        (t.out == if s.didScroll then [SetDate(top.value, ListDrag)] else [])
      else t == Quiet(s)
  {
  }

  /** A viewability change emits at most one call, and only a `setDate` of the
      newly recorded top date as a list drag. */
  lemma ViewableEmitsOnlyDrag(s: State, viewable: Option<seq<Option<Date>>>)
    ensures var t := ViewableStep(s, viewable);
      |t.out| <= 1 &&
      (|t.out| == 1 ==> t.out[0] == SetDate(t.next.topSection.value, ListDrag) &&
                        t.next.topSection.Some? && t.next.topSection.value != "" &&
                        t.next.topSection != s.topSection && s.didScroll && !s.sectionScroll)
  {
  }

  /** onScroll marks the list as scrolled and nothing else; a second one adds
      nothing. */
  lemma ScrollEventRule(s: State)
    ensures ScrollEventStep(s).next == s.(didScroll := true) && ScrollEventStep(s).out == []
    ensures ScrollEventStep(ScrollEventStep(s).next) == ScrollEventStep(s)
  {
  }

  /** Momentum start disables the calendar and changes no field; momentum end
      ends any programmatic scroll and enables it again. */
  lemma MomentumRules(s: State)
    ensures MomentumBeginStep(s).next == s && MomentumBeginStep(s).out == [SetDisabled(true)]
    ensures MomentumEndStep(s).next == s.(sectionScroll := false)
    ensures MomentumEndStep(s).out == [SetDisabled(false)]
  {
  }

  /** Every scroll command any handler issues names an item of the current data,
      and that item's date becomes the recorded top date. */
  lemma {:induction false} StepScrollsInRange(s: State, e: Event)
    ensures forall k :: 0 <= k < |Step(s, e).out| && Step(s, e).out[k].ScrollToIndex? ==>
      Step(s, e).out[k].index < |Step(s, e).next.data| &&
      Step(s, e).next.topSection == Some(Step(s, e).next.data[Step(s, e).out[k].index])
  {
  }

  /** No handler clears `didScroll`, and only onScroll sets it. */
  lemma StepKeepsDidScroll(s: State, e: Event)
    ensures s.didScroll ==> Step(s, e).next.didScroll
    ensures !e.Scroll? ==> Step(s, e).next.didScroll == s.didScroll
  {
  }

  /** Only momentum end clears `sectionScroll`. */
  lemma StepKeepsSectionScroll(s: State, e: Event)
    ensures s.sectionScroll && !e.MomentumScrollEnd? ==> Step(s, e).next.sectionScroll
  {
  }

  /** Only a viewability change can call `setDate`, and only after an `onScroll`
      and outside a programmatic scroll. */
  lemma StepSetDateGuard(s: State, e: Event)
    ensures EmitsSetDate(Step(s, e).out) ==>
      e.ViewableItemsChanged? && s.didScroll && !s.sectionScroll
  {
  }

  // ---------------------------------------------------------------------------
  // Properties of traces

  lemma EmitsSetDateConcat(a: seq<Effect>, b: seq<Effect>)
    ensures EmitsSetDate(a + b) <==> EmitsSetDate(a) || EmitsSetDate(b)
  {
    if EmitsSetDate(a + b) {
      var k :| 0 <= k < |a + b| && (a + b)[k].SetDate?;
      if k >= |a| { assert b[k - |a|].SetDate?; } else { assert a[k].SetDate?; }
    }
    if EmitsSetDate(a) {
      var k :| 0 <= k < |a| && a[k].SetDate?;
      assert (a + b)[k].SetDate?;
    }
    if EmitsSetDate(b) {
      var k :| 0 <= k < |b| && b[k].SetDate?;
      assert (a + b)[|a| + k].SetDate?;
    }
  }

  /** Once `onScroll` has been delivered, `didScroll` stays true for the rest of the
      component's life. */
  lemma {:induction false} DidScrollNeverResets(s: State, events: seq<Event>)
    requires s.didScroll
    ensures Run(s, events).final.didScroll
    decreases |events|
  {
    if events != [] {
      StepKeepsDidScroll(s, events[0]);
      DidScrollNeverResets(Step(s, events[0]).next, events[1..]);
    }
  }

  /** Before the first `onScroll` callback no handler reports a date to the
      context, whatever else the host delivers meanwhile. */
  lemma {:induction false} NoSetDateBeforeFirstScroll(s: State, events: seq<Event>)
    requires !s.didScroll
    requires forall k :: 0 <= k < |events| ==> !events[k].Scroll?
    ensures !Run(s, events).final.didScroll
    ensures !EmitsSetDate(Run(s, events).out)
    decreases |events|
  {
    if events != [] {
      var t := Step(s, events[0]);
      StepKeepsDidScroll(s, events[0]);
      StepSetDateGuard(s, events[0]);
      NoSetDateBeforeFirstScroll(t.next, events[1..]);
      EmitsSetDateConcat(t.out, Run(t.next, events[1..]).out);
    }
  }

  /** From the moment a programmatic scroll starts until its momentum ends, no
      handler reports a date to the context: the list cannot echo a scroll it
      was asked to make. */
  lemma {:induction false} NoFeedbackDuringSectionScroll(s: State, events: seq<Event>)
    requires s.sectionScroll
    requires forall k :: 0 <= k < |events| ==> !events[k].MomentumScrollEnd?
    ensures Run(s, events).final.sectionScroll
    ensures !EmitsSetDate(Run(s, events).out)
    decreases |events|
  {
    if events != [] {
      var t := Step(s, events[0]);
      StepKeepsSectionScroll(s, events[0]);
      StepSetDateGuard(s, events[0]);
      NoFeedbackDuringSectionScroll(t.next, events[1..]);
      EmitsSetDateConcat(t.out, Run(t.next, events[1..]).out);
    }
  }

  /** The round trip of a drag: when the list reports a top date and the
      context hands that date back as a list drag, the list does not scroll
      and keeps the date it reported. */
  lemma {:induction false} DragEchoIsAbsorbed(s: State, viewable: seq<Option<Date>>, data: seq<Date>)
    requires EmitsSetDate(ViewableStep(s, Some(viewable)).out)
    ensures var t := ViewableStep(s, Some(viewable));
      var echo := PropsStep(t.next, data, Context(t.out[0].date, ListDrag));
      echo.out == [] && echo.next.topSection == Some(t.out[0].date) &&
      echo.next.sectionScroll == t.next.sectionScroll
  {
    ViewableEmitsOnlyDrag(s, Some(viewable));
  }

  // ---------------------------------------------------------------------------
  // The recorded top date is an item's date

  /** The recorded top date, when there is one, is the date of some item. */
  predicate TopInData(s: State) {
    s.topSection.Some? ==> s.topSection.value in s.data
  }

  /** Every date the host reports as viewable is the date of an item. */
  predicate ViewableWithin(viewable: Option<seq<Option<Date>>>, data: seq<Date>) {
    viewable.Some? ==>
      forall k :: 0 <= k < |viewable.value| && viewable.value[k].Some? ==>
        viewable.value[k].value in data
  }

  /** Every date of the old data is still a date of the new data. */
  predicate Covers(newData: seq<Date>, oldData: seq<Date>) {
    forall i :: 0 <= i < |oldData| ==> oldData[i] in newData
  }

  /** The host's events fit the state: viewable items come from the data, and
      new props keep every date the list had. */
  predicate HostConsistent(s: State, e: Event) {
    (e.ViewableItemsChanged? ==> ViewableWithin(e.viewable, s.data)) &&
    (e.NewProps? ==> Covers(e.data, s.data))
  }

  /** A fresh list satisfies the invariant. */
  lemma InitialTopInData(data: seq<Date>, context: Context)
    ensures TopInData(Initial(data, context))
  {
  }

  /** Every handler keeps the recorded top date among the items' dates, as
      long as the host's event fits the state; only new props change data. */
  lemma StepKeepsTopInData(s: State, e: Event)
    requires TopInData(s) && HostConsistent(s, e)
    ensures TopInData(Step(s, e).next)
    ensures !e.NewProps? ==> Step(s, e).next.data == s.data
  {
  }

  /** Over any sequence of events without new props whose viewable dates come
      from the data, the recorded top date stays the date of an item. */
  lemma {:induction false} TopInDataAlongTrace(s: State, events: seq<Event>)
    requires TopInData(s)
    requires forall k :: 0 <= k < |events| ==>
      !events[k].NewProps? &&
      (events[k].ViewableItemsChanged? ==> ViewableWithin(events[k].viewable, s.data))
    ensures TopInData(Run(s, events).final) && Run(s, events).final.data == s.data
    decreases |events|
  {
    if events != [] {
      var t := Step(s, events[0]);
      StepKeepsTopInData(s, events[0]);
      forall k | 0 <= k < |events[1..]|
        ensures !events[1..][k].NewProps? &&
          (events[1..][k].ViewableItemsChanged? ==> ViewableWithin(events[1..][k].viewable, t.next.data))
      {
        assert events[1..][k] == events[k + 1];
      }
      TopInDataAlongTrace(t.next, events[1..]);
    }
  }

  /** New data without the recorded date breaks the invariant: componentDidUpdate
      never touches `_topSection` unless it scrolls. */
  lemma StaleTopAfterNewData()
    ensures var s := Initial(["a"], Context("a", Other));
      TopInData(s) && !TopInData(PropsStep(s, ["b"], Context("a", Other)).next)
  {
  }
}
