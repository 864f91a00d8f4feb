/** What every critical section of the scheduler keeps. */
module KernelInvariants {
  import opened Words
  import opened Lists
  import opened Kernel

  type Tcbs = map<Task, Tcb>
  type StateLists = map<StateList, TaskList>
  type EventLists = map<EventList, TaskList>

  /** Every live task outside `out` is on the one state list its item names, and nothing
      else is on any list. */
  ghost predicate ListsOk(lists: StateLists, tcb: Tcbs, out: set<Task>) {
    && (forall l, t {:trigger t in At(lists, l).items} ::
          t in At(lists, l).items <==> t in tcb && t !in out && tcb[t].stateIn == l)
    && (forall l {:trigger At(lists, l)} :: NoDup(At(lists, l).items))
  }

  /** An event item is on the one event list it names, if any. */
  ghost predicate EventsOk(events: EventLists, tcb: Tcbs) {
    && (forall e, t {:trigger t in At(events, e).items} ::
          t in At(events, e).items <==> t in tcb && e != NoEvent && tcb[t].eventIn == e)
    && (forall e {:trigger At(events, e)} :: NoDup(At(events, e).items))
  }

  /** Wake times in order and between the bounds. */
  ghost predicate Window(tcb: Tcbs, s: seq<Task>, lo: int, hi: int) {
    && (forall i :: 0 <= i < |s| ==> lo <= TcbIn(tcb, s[i]).stateValue <= hi)
    && (forall i, j :: 0 <= i < j < |s| ==> TcbIn(tcb, s[i]).stateValue <= TcbIn(tcb, s[j]).stateValue)
  }

  /** The delayed list holds wake times still to come in the current tick period, the
      overflow list wake times in the next one. */
  ghost predicate TimeOk(k: State) {
    && k.tick == Periods(k.overflows) + k.tickCount && IsWord(k.tickCount) && k.nextUnblock <= MAX_DELAY
    && Window(k.tcb, Delayed(k), k.tickCount, MAX_DELAY)
    && Window(k.tcb, Delayed(k), k.nextUnblock, MAX_DELAY)
    && Window(k.tcb, Overflow(k), 0, k.tickCount - 1)
  }

  /** No task is still on the delayed list at its wake time. */
  ghost predicate NoneDue(k: State) {
    Window(k.tcb, Delayed(k), k.tickCount + 1, MAX_DELAY)
  }

  ghost predicate PrioritiesOk(tcb: Tcbs, top: nat) {
    && top < MAX_PRIORITIES
    && (forall t :: t in tcb ==> tcb[t].priority < MAX_PRIORITIES && tcb[t].base < MAX_PRIORITIES)
    && (forall t :: t in tcb && tcb[t].stateIn.Ready? ==> tcb[t].stateIn.priority == tcb[t].priority <= top)
  }

  /** The same, but the ready list of `t` may not fit its priority yet. */
  ghost predicate PrioritiesBut(tcb: Tcbs, top: nat, t: Task) {
    && top < MAX_PRIORITIES
    && (forall x :: x in tcb ==> tcb[x].priority < MAX_PRIORITIES && tcb[x].base < MAX_PRIORITIES)
    && (forall x :: x in tcb && x != t && tcb[x].stateIn.Ready? ==> tcb[x].stateIn.priority == tcb[x].priority <= top)
  }

  ghost predicate CountsOk(k: State) {
    k.current in k.tcb && k.number == |k.tcb| && k.cleanup == |ListOf(k, Terminated).items|
  }

  ghost predicate Blocking(l: StateList) {
    l == DelayA || l == DelayB || l == Suspended
  }

  /** Only blocked tasks wait for events. */
  ghost predicate BlockedOk(tcb: Tcbs) {
    forall t :: t in tcb && tcb[t].eventIn != NoEvent ==> Blocking(tcb[t].stateIn)
  }

  /** What holds even inside a tick and inside xTaskResumeAll. */
  ghost predicate Core(k: State) {
    && ListsOk(k.lists, k.tcb, {}) && EventsOk(k.events, k.tcb)
    && TimeOk(k) && PrioritiesOk(k.tcb, k.top) && CountsOk(k) && BlockedOk(k.tcb)
  }

  /** No task is left pending ready, and no tick unprocessed, while the scheduler runs. */
  ghost predicate NonePending(k: State) {
    k.suspended == 0 ==> EventsOf(k, Pending).items == [] && k.pended == 0
  }

  /** What holds at every kernel exit. */
  ghost predicate Inv(k: State) {
    Core(k) && NoneDue(k) && NonePending(k)
  }

  // ----- moving one item

  lemma AtUpdate<L>(m: map<L, TaskList>, l: L, r: TaskList)
    ensures forall l' {:trigger At(m[l := r], l')} :: At(m[l := r], l') == if l' == l then r else At(m, l')
  {
  }

  lemma AtUpdateUnique<L>(m: map<L, TaskList>, l: L, r: TaskList)
    requires (forall l' {:trigger At(m, l')} :: NoDup(At(m, l').items)) && NoDup(r.items)
    ensures forall l' {:trigger At(m[l := r], l')} :: NoDup(At(m[l := r], l').items)
  {
    AtUpdate(m, l, r);
    hide At, NoDup;
  }

  lemma TakeOutOk(k: State, t: Task)
    requires ListsOk(k.lists, k.tcb, {}) && t in k.tcb
    ensures ListsOk(TakeOut(k, t).lists, k.tcb, {t})
  {
    var l := k.tcb[t].stateIn;
    assert t in At(k.lists, l).items;
    RemoveFacts(ListOf(k, l), t);
    AtUpdate(k.lists, l, Remove(ListOf(k, l), t));
    AtUpdateUnique(k.lists, l, Remove(ListOf(k, l), t));
    hide Remove, At, NoDup;
  }

  lemma PutOk(lists: StateLists, tcb: Tcbs, tcb': Tcbs, t: Task, l: StateList, pos: nat)
    requires ListsOk(lists, tcb, {t}) && t in tcb && pos <= |At(lists, l).items|
    requires t in tcb' && tcb'[t].stateIn == l && tcb' == tcb[t := tcb'[t]]
    ensures ListsOk(lists[l := InsertAt(At(lists, l), t, pos)], tcb', {})
  {
    hide InsertAt, At, NoDup;
    assert t !in At(lists, l).items;
    InsertAtFacts(At(lists, l), t, pos);
    AtUpdate(lists, l, InsertAt(At(lists, l), t, pos));
    AtUpdateUnique(lists, l, InsertAt(At(lists, l), t, pos));
  }

  lemma DropEventOk(k: State, t: Task)
    requires EventsOk(k.events, k.tcb) && t in k.tcb
    ensures EventsOk(DropEvent(k, t).events, DropEvent(k, t).tcb)
  {
    var e := k.tcb[t].eventIn;
    if e != NoEvent {
      assert t in At(k.events, e).items;
      RemoveFacts(EventsOf(k, e), t);
      AtUpdate(k.events, e, Remove(EventsOf(k, e), t));
      AtUpdateUnique(k.events, e, Remove(EventsOf(k, e), t));
      hide Remove, At, NoDup;
    }
  }

  lemma PutEventOk(events: EventLists, tcb: Tcbs, tcb': Tcbs, t: Task, e: EventList, pos: nat)
    requires EventsOk(events, tcb) && t in tcb && tcb[t].eventIn == NoEvent && e != NoEvent
    requires pos <= |At(events, e).items|
    requires t in tcb' && tcb'[t].eventIn == e && tcb' == tcb[t := tcb'[t]]
    ensures EventsOk(events[e := InsertAt(At(events, e), t, pos)], tcb')
  {
    hide InsertAt, At, NoDup;
    assert t !in At(events, e).items;
    InsertAtFacts(At(events, e), t, pos);
    AtUpdate(events, e, InsertAt(At(events, e), t, pos));
    AtUpdateUnique(events, e, InsertAt(At(events, e), t, pos));
  }

  /** Fields other than the list named leave the placement alone. */
  lemma ListsFrame(lists: StateLists, tcb: Tcbs, tcb': Tcbs, out: set<Task>)
    requires ListsOk(lists, tcb, out) && tcb'.Keys == tcb.Keys
    requires forall t :: t in tcb ==> tcb'[t].stateIn == tcb[t].stateIn
    ensures ListsOk(lists, tcb', out)
  {
  }

  lemma EventsFrame(events: EventLists, tcb: Tcbs, tcb': Tcbs)
    requires EventsOk(events, tcb) && tcb'.Keys == tcb.Keys
    requires forall t :: t in tcb ==> tcb'[t].eventIn == tcb[t].eventIn
    ensures EventsOk(events, tcb')
  {
  }

  // ----- time

  ghost predicate SameValues(tcb: Tcbs, tcb': Tcbs, s: seq<Task>) {
    forall i :: 0 <= i < |s| ==> TcbIn(tcb', s[i]).stateValue == TcbIn(tcb, s[i]).stateValue
  }

  lemma WindowDrop(tcb: Tcbs, tcb': Tcbs, r: TaskList, r': TaskList, t: Task, lo: int, hi: int)
    requires Window(tcb, r.items, lo, hi) && SameValues(tcb, tcb', r'.items)
    requires r' == r || r' == Drop(r, t)
    ensures Window(tcb', r'.items, lo, hi)
  {
    if r' != r {
      var i := IndexOf(r.items, t);
      assert forall j :: 0 <= j < |r'.items| ==> r'.items[j] == r.items[if j < i then j else j + 1];
    }
  }

  ghost predicate SameTime(k: State, k': State) {
    && k'.tick == k.tick && k'.tickCount == k.tickCount && k'.overflows == k.overflows
    && k'.delayedIsB == k.delayedIsB && k'.nextUnblock == k.nextUnblock
    && SameValues(k.tcb, k'.tcb, Delayed(k')) && SameValues(k.tcb, k'.tcb, Overflow(k'))
  }

  /** Taking a task off the delay lists keeps them in order. */
  lemma TimeShrinks(k: State, k': State, t: Task)
    requires TimeOk(k) && SameTime(k, k')
    requires ListOf(k', DelayA) == ListOf(k, DelayA) || ListOf(k', DelayA) == Drop(ListOf(k, DelayA), t)
    requires ListOf(k', DelayB) == ListOf(k, DelayB) || ListOf(k', DelayB) == Drop(ListOf(k, DelayB), t)
    ensures TimeOk(k') && (NoneDue(k) ==> NoneDue(k'))
  {
    hide Window, Drop, SameValues, ListOf;
    var d, o := ListOf(k, DelayedId(k)), ListOf(k, OverflowId(k));
    var d', o' := ListOf(k', DelayedId(k')), ListOf(k', OverflowId(k'));
    WindowDrop(k.tcb, k'.tcb, d, d', t, k.tickCount, MAX_DELAY);
    WindowDrop(k.tcb, k'.tcb, d, d', t, k.nextUnblock, MAX_DELAY);
    WindowDrop(k.tcb, k'.tcb, o, o', t, 0, k.tickCount - 1);
    if NoneDue(k) {
      WindowDrop(k.tcb, k'.tcb, d, d', t, k.tickCount + 1, MAX_DELAY);
    }
  }

  lemma ResetOk(k: State)
    requires TimeOk(k)
    ensures TimeOk(ResetNextUnblock(k))
  {
  }

  // ----- moving a task to another list

  lemma RequeueEffect(k: State, t: Task, l: StateList)
    requires t in k.tcb
    ensures var k' := Requeue(k, t, l);
            var b := k.tcb[t];
            && k'.tcb == k.tcb[t := b.(stateIn := l, eventIn := NoEvent)]
            && k'.lists == k.lists[b.stateIn := Drop(ListOf(k, b.stateIn), t)][l := InsertEnd(ListOf(TakeOut(k, t), l),
                t)]
            && k'.events == (if b.eventIn == NoEvent then k.events
                else k.events[b.eventIn := Drop(EventsOf(k, b.eventIn), t)])
            && k' == k.(tcb := k'.tcb, lists := k'.lists, events := k'.events)
  {
  }

  lemma RequeuePlaced(k: State, t: Task, l: StateList)
    requires ListsOk(k.lists, k.tcb, {}) && EventsOk(k.events, k.tcb) && t in k.tcb
    ensures var k' := Requeue(k, t, l);
            ListsOk(k'.lists, k'.tcb, {}) && EventsOk(k'.events, k'.tcb)
  {
    hide ListsOk, EventsOk, InsertAt, Drop, At, TakeOut, DropEvent;
    var k1 := TakeOut(k, t);
    var k2 := DropEvent(k1, t);
    TakeOutOk(k, t);
    TakeOutFrame(k, t);
    DropEventOk(k1, t);
    DropEventFrame(k1, t);
    ListsFrame(k2.lists, k.tcb, k2.tcb, {t});
    PutEndPlaced(k2, t, l);
  }

  lemma TakeOutFrame(k: State, t: Task)
    ensures TakeOut(k, t) == k.(lists := TakeOut(k, t).lists)
  {
  }

  lemma DropEventFrame(k: State, t: Task)
    requires t in k.tcb
    ensures var k' := DropEvent(k, t);
            && k'.lists == k.lists && k'.tcb.Keys == k.tcb.Keys
            && forall x :: x in k.tcb ==> k'.tcb[x].stateIn == k.tcb[x].stateIn
  {
    hide Drop;
  }

  lemma PutEndPlaced(k: State, t: Task, l: StateList)
    requires ListsOk(k.lists, k.tcb, {t}) && EventsOk(k.events, k.tcb) && t in k.tcb
    ensures var k' := PutEnd(k, t, l);
            ListsOk(k'.lists, k'.tcb, {}) && EventsOk(k'.events, k'.tcb)
  {
    hide ListsOk, EventsOk, InsertAt, At;
    var k' := PutEnd(k, t, l);
    PutOk(k.lists, k.tcb, k'.tcb, t, l, EndPos(ListOf(k, l)));
    EventsFrame(k.events, k.tcb, k'.tcb);
  }

  lemma RequeueOther(k: State, t: Task, l: StateList, m: StateList)
    requires t in k.tcb && m != l
    ensures ListOf(Requeue(k, t, l), m) == ListOf(k, m) || ListOf(Requeue(k, t, l), m) == Drop(ListOf(k, m), t)
  {
  }

  lemma RequeueSameTime(k: State, t: Task, l: StateList)
    requires t in k.tcb
    ensures SameTime(k, Requeue(k, t, l))
  {
    RequeueEffect(k, t, l);
    hide Requeue, TakeOut, Drop, InsertEnd;
  }

  lemma RequeueTime(k: State, t: Task, l: StateList)
    requires TimeOk(k) && t in k.tcb && l != DelayA && l != DelayB
    ensures TimeOk(Requeue(k, t, l)) && (NoneDue(k) ==> NoneDue(Requeue(k, t, l)))
  {
    hide *;
    RequeueOther(k, t, l, DelayA);
    RequeueOther(k, t, l, DelayB);
    RequeueSameTime(k, t, l);
    TimeShrinks(k, Requeue(k, t, l), t);
  }

  ghost predicate MayBeIn(b: Tcb, l: StateList, top: nat) {
    l.Ready? ==> l.priority == b.priority <= top
  }

  /** Every move of a live task keeps everything; only leaving or entering the termination
      list touches the clean-up count. */
  lemma RequeueCore(k: State, t: Task, l: StateList)
    requires Core(k) && t in k.tcb && MayBeIn(k.tcb[t], l, k.top)
    requires l != DelayA && l != DelayB && l != Terminated && k.tcb[t].stateIn != Terminated
    ensures Core(Requeue(k, t, l)) && (NoneDue(k) ==> NoneDue(Requeue(k, t, l)))
  {
    RequeueRest(k, t, l);
    hide Requeue, ListsOk, EventsOk, TimeOk, PrioritiesOk, CountsOk, BlockedOk, NoneDue;
    RequeuePlaced(k, t, l);
    RequeueTime(k, t, l);
  }

  lemma RequeueRest(k: State, t: Task, l: StateList)
    requires PrioritiesBut(k.tcb, k.top, t) && CountsOk(k) && BlockedOk(k.tcb)
    requires t in k.tcb && MayBeIn(k.tcb[t], l, k.top) && l != Terminated && k.tcb[t].stateIn != Terminated
    ensures var k' := Requeue(k, t, l);
            PrioritiesOk(k'.tcb, k'.top) && CountsOk(k') && BlockedOk(k'.tcb)
  {
    RequeueTerminated(k, t, l);
    RequeueEffect(k, t, l);
    hide Requeue, TakeOut, Drop, InsertEnd, At;
    assert Requeue(k, t, l).tcb.Keys == k.tcb.Keys;
  }

  lemma RequeueTerminated(k: State, t: Task, l: StateList)
    requires t in k.tcb && l != Terminated && k.tcb[t].stateIn != Terminated
    ensures ListOf(Requeue(k, t, l), Terminated) == ListOf(k, Terminated)
  {
  }

  // ----- the order on the lists

  /** The state item of `t` goes to the end of list `l`; every other member of every list keeps
      its place. */
  ghost predicate Moves(k: State, k': State, t: Task, l: StateList) {
    forall m {:trigger ListOf(k', m)} ::
      ListOf(k', m) == if m == l then InsertEnd(Drop(ListOf(k, m), t), t) else Drop(ListOf(k, m), t)
  }

  /** `t` is off every event list; every other member keeps its place. */
  ghost predicate Leaves(k: State, k': State, t: Task) {
    forall e {:trigger EventsOf(k', e)} :: EventsOf(k', e) == Drop(EventsOf(k, e), t)
  }

  lemma ElsewhereNot(k: State, t: Task)
    requires ListsOk(k.lists, k.tcb, {}) && EventsOk(k.events, k.tcb) && t in k.tcb
    ensures forall l :: l != k.tcb[t].stateIn ==> t !in ListOf(k, l).items
    ensures forall e :: e != k.tcb[t].eventIn || e == NoEvent ==> t !in EventsOf(k, e).items
  {
    assert forall l :: t in At(k.lists, l).items ==> k.tcb[t].stateIn == l;
    assert forall e :: t in At(k.events, e).items ==> k.tcb[t].eventIn == e && e != NoEvent;
  }

  lemma RequeueMoves(k: State, t: Task, l: StateList)
    requires ListsOk(k.lists, k.tcb, {}) && EventsOk(k.events, k.tcb) && t in k.tcb
    ensures Moves(k, Requeue(k, t, l), t, l) && Leaves(k, Requeue(k, t, l), t)
  {
    var k' := Requeue(k, t, l);
    ElsewhereNot(k, t);
    RequeueEffect(k, t, l);
    hide Requeue, InsertEnd, ListsOk, EventsOk, Remove;
    forall m
      ensures ListOf(k', m) == if m == l then InsertEnd(Drop(ListOf(k, m), t), t) else Drop(ListOf(k, m), t)
    {
    }
    forall e
      ensures EventsOf(k', e) == Drop(EventsOf(k, e), t)
    {
    }
  }

  lemma MakeReadyMoves(k: State, t: Task)
    requires ListsOk(k.lists, k.tcb, {}) && EventsOk(k.events, k.tcb) && t in k.tcb
    ensures Moves(k, MakeReady(k, t), t, Ready(k.tcb[t].priority)) && Leaves(k, MakeReady(k, t), t)
  {
    hide Requeue, MakeReady, ListsOk, EventsOk, Drop, InsertEnd;
    var p := k.tcb[t].priority;
    MakeReadyIs(k, t);
    RequeueMoves(RaiseTop(k, p), t, Ready(p));
    assert forall m :: ListOf(RaiseTop(k, p), m) == ListOf(k, m);
    assert forall e :: EventsOf(RaiseTop(k, p), e) == EventsOf(k, e);
  }

  lemma MakeReadyEffect(k: State, t: Task)
    requires t in k.tcb
    ensures var k' := MakeReady(k, t);
            var b := k.tcb[t];
            && k'.tcb == k.tcb[t := b.(stateIn := Ready(b.priority), eventIn := NoEvent)]
            && k' == k.(tcb := k'.tcb, lists := k'.lists, events := k'.events, top := Max(k.top, b.priority))
  {
    RequeueEffect(RaiseTop(k, k.tcb[t].priority), t, Ready(k.tcb[t].priority));
    hide Requeue;
  }

  lemma RaiseTopCore(k: State, p: nat)
    requires Core(k) && p < MAX_PRIORITIES
    ensures Core(RaiseTop(k, p)) && (NoneDue(k) ==> NoneDue(RaiseTop(k, p)))
  {
  }

  lemma CorePriority(k: State, t: Task)
    requires Core(k) && t in k.tcb
    ensures k.tcb[t].priority < MAX_PRIORITIES
  {
  }

  lemma MakeReadyIs(k: State, t: Task)
    ensures MakeReady(k, t) == Requeue(RaiseTop(k, Priority(k, t)), t, Ready(Priority(k, t)))
  {
    hide Requeue;
  }

  lemma MakeReadyCore(k: State, t: Task)
    requires Core(k) && t in k.tcb && k.tcb[t].stateIn != Terminated
    ensures Core(MakeReady(k, t)) && IsReady(MakeReady(k, t), t)
    ensures NoneDue(k) ==> NoneDue(MakeReady(k, t))
  {
    hide Core, NoneDue, Requeue, MakeReady;
    MakeReadyEffect(k, t);
    CorePriority(k, t);
    RaiseTopCore(k, k.tcb[t].priority);
    RequeueCore(RaiseTop(k, k.tcb[t].priority), t, Ready(k.tcb[t].priority));
    MakeReadyIs(k, t);
  }
}
