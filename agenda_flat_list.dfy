/** The list component itself: an object whose handlers update its three
    fields in place and append the calls they make on the host list and on the
    calendar context to an output log. Each handler is proved to move the
    object exactly as the matching transition of AgendaModel does, so every
    property proved there holds of the object. */
module AgendaFlatList {

  import opened AgendaModel

  class AgendaList {
    // props, as last received from the parent
    var data: seq<Date>
    var context: Context
    // whether the host FlatList has filled in the ref
    var listAttached: bool
    // instance fields
    var topSection: Option<Date>
    var didScroll: bool
    var sectionScroll: bool
    // callbacks handed to setTimeout and not yet run, oldest first
    var pending: seq<Option<nat>>
    // every scrollToIndex, setDate and setDisabled call, in order
    var effects: seq<Effect>

    function Snapshot(): State
      reads this
    {
      State(data, context, listAttached, topSection, didScroll, sectionScroll, pending)
    }

    /** Applies the new snapshot and appends the calls a transition makes. */
    predicate Took(logBefore: seq<Effect>, t: Transition)
      reads this
    {
      Snapshot() == t.next && effects == logBefore + t.out
    }

    constructor (data: seq<Date>, context: Context)
      ensures Snapshot() == Initial(data, context) && effects == []
      ensures !didScroll && !sectionScroll
      ensures topSection == if data == [] then None else Some(data[0])
    {
      this.data := data;
      this.context := context;
      listAttached := false;
      topSection := if |data| > 0 then Some(data[0]) else None;
      didScroll := false;
      sectionScroll := false;
      pending := [];
      effects := [];
    }

    /** getSectionIndex: scans every item and keeps the index of the last one
        whose date equals `date`. */
    method GetSectionIndex(date: Date) returns (i: Option<nat>)
      ensures i.None? <==> date !in data
      ensures i.Some? ==> i.value < |data| && data[i.value] == date
      ensures i.Some? ==> forall j :: i.value < j < |data| ==> data[j] != date
      ensures i == LastIndexOf(data, date)
    {
      i := None;
      var index := 0;
      while index < |data|
        invariant 0 <= index <= |data|
        invariant i == LastIndexOf(data[..index], date)
      {
        assert data[..index + 1][..index] == data[..index];
        if data[index] == date {
          i := Some(index);
        }
        index := index + 1;
      }
      assert data[..index] == data;
      LastIndexOfSpec(data, date);
    }

    method ComponentDidMount() returns (thrown: bool)
      modifies this
      ensures Took(old(effects), MountStep(old(Snapshot())))
      ensures thrown == MountStep(old(Snapshot())).thrown
    {
      var date := context.date;
      if |data| == 0 {
        // reading a field of `data[0]` fails
        return true;
      }
      thrown := false;
      if date != data[0] {
        var sectionIndex := GetSectionIndex(date);
        pending := pending + [sectionIndex];
      }
    }

    /** The event loop runs the oldest scheduled callback, if any. */
    method FireTimeout() returns (thrown: bool)
      modifies this
      ensures Took(old(effects), TimeoutStep(old(Snapshot())))
      ensures thrown == TimeoutStep(old(Snapshot())).thrown
    {
      if pending == [] {
        return false;
      }
      var sectionIndex := pending[0];
      pending := pending[1..];
      thrown := ScrollToSection(sectionIndex);
    }

    method ComponentDidUpdate(prevContext: Context) returns (thrown: bool)
      modifies this
      ensures Took(old(effects), DidUpdateStep(old(Snapshot()), prevContext))
      ensures thrown == DidUpdateStep(old(Snapshot()), prevContext).thrown
      ensures context.updateSource != Other ==> Snapshot() == old(Snapshot()) && effects == old(effects)
    {
      thrown := false;
      var updateSource, date := context.updateSource, context.date;
      if date != prevContext.date {
        if updateSource != ListDrag && updateSource != CalendarInit {
          var sectionIndex := GetSectionIndex(date);
          thrown := ScrollToSection(sectionIndex);
        }
      }
    }

    /** The parent re-renders the list with new props; React then calls
        componentDidUpdate with the previous ones. */
    method ReceiveProps(newData: seq<Date>, newContext: Context) returns (thrown: bool)
      modifies this
      ensures Took(old(effects), PropsStep(old(Snapshot()), newData, newContext))
      ensures thrown == PropsStep(old(Snapshot()), newData, newContext).thrown
    {
      var prevContext := context;
      data, context := newData, newContext;
      thrown := ComponentDidUpdate(prevContext);
    }

    /** The host list fills in, or clears, the ref. */
    method SetListRef(attached: bool)
      modifies this
      ensures Took(old(effects), ListRefStep(old(Snapshot()), attached))
    {
      listAttached := attached;
    }

    method ScrollToSection(sectionIndex: Option<nat>) returns (thrown: bool)
      modifies this
      ensures Took(old(effects), ScrollStep(old(Snapshot()), sectionIndex))
      ensures thrown == ScrollStep(old(Snapshot()), sectionIndex).thrown
      ensures didScroll == old(didScroll)
    {
      thrown := false;
      if listAttached && sectionIndex.Some? {
        sectionScroll := true;
        if sectionIndex.value >= |data| {
          // reading a field of an item past the end fails
          return true;
        }
        topSection := Some(data[sectionIndex.value]);
        effects := effects + [ScrollToIndex(sectionIndex.value)];
      }
    }

    method OnViewableItemsChanged(viewableItems: Option<seq<Option<Date>>>)
      modifies this
      ensures Took(old(effects), ViewableStep(old(Snapshot()), viewableItems))
      ensures old(sectionScroll) ==> Snapshot() == old(Snapshot()) && effects == old(effects)
    {
      if viewableItems.Some? && !sectionScroll {
        var top := if |viewableItems.value| > 0 then viewableItems.value[0] else None;
        if top.Some? && top.value != "" && top != topSection {
          topSection := top;
          if didScroll {
            effects := effects + [SetDate(top.value, ListDrag)];
          }
        }
      }
    }

    method OnScroll()
      modifies this
      ensures Took(old(effects), ScrollEventStep(old(Snapshot())))
      ensures didScroll
    {
      if !didScroll {
        didScroll := true;
      }
    }

    method OnMomentumScrollBegin()
      modifies this
      ensures Took(old(effects), MomentumBeginStep(old(Snapshot())))
    {
      effects := effects + [SetDisabled(true)];
    }

    method OnMomentumScrollEnd()
      modifies this
      ensures Took(old(effects), MomentumEndStep(old(Snapshot())))
      ensures !sectionScroll
    {
      sectionScroll := false;
      effects := effects + [SetDisabled(false)];
    }

    /** Dispatches one host event to its handler. */
    method Handle(e: Event) returns (thrown: bool)
      modifies this
      ensures Took(old(effects), Step(old(Snapshot()), e))
      ensures thrown == Step(old(Snapshot()), e).thrown
    {
      thrown := false;
      match e
      case Mount => thrown := ComponentDidMount();
      case Timeout => thrown := FireTimeout();
      case NewProps(d, c) => thrown := ReceiveProps(d, c);
      case ListRef(a) => SetListRef(a);
      case ViewableItemsChanged(v) => OnViewableItemsChanged(v);
      case Scroll => OnScroll();
      case MomentumScrollBegin => OnMomentumScrollBegin();
      case MomentumScrollEnd => OnMomentumScrollEnd();
    }
  }

  /** A mounted list driven through a sequence of host events ends in the
      state, and has made the calls, of the trace semantics. */
  method Drive(list: AgendaList, events: seq<Event>)
    modifies list
    ensures list.Snapshot() == Run(old(list.Snapshot()), events).final
    ensures list.effects == old(list.effects) + Run(old(list.Snapshot()), events).out
  {
    ghost var start := list.Snapshot();
    ghost var emitted: seq<Effect> := [];
    var k := 0;
    assert events[k..] == events;
    while k < |events|
      invariant 0 <= k <= |events|
      invariant list.effects == old(list.effects) + emitted
      invariant Run(start, events) ==
        Trace(Run(list.Snapshot(), events[k..]).final, emitted + Run(list.Snapshot(), events[k..]).out)
    {
      ghost var before := list.Snapshot();
      ghost var rest := Run(before, events[k..]);
      var _ := list.Handle(events[k]);
      ghost var t := Step(before, events[k]);
      ghost var after := Run(t.next, events[k + 1..]);
      RunUnfold(before, events, k);
      assert rest == Trace(after.final, t.out + after.out);
      assert emitted + (t.out + after.out) == (emitted + t.out) + after.out;
      emitted := emitted + t.out;
      k := k + 1;
    }
    assert events[k..] == [];
  }
}
