/** Each critical section of tasks.c keeps the invariants. */
module KernelOps {
  import opened Words
  import opened Lists
  import opened Kernel
  import opened KernelInvariants
  import opened KernelTime

  // ----- falling asleep

  function Spread<T>(s: seq<T>, x: T, p: nat): (t: seq<T>)
    requires p <= |s|
    ensures |t| == |s| + 1 && t[p] == x
    ensures forall i :: 0 <= i < p ==> t[i] == s[i]
    ensures forall i :: p < i < |t| ==> t[i] == s[i - 1]
  {
    s[..p] + [x] + s[p..]
  }

  ghost predicate ValuesOf(tcb: Tcbs, s: seq<Task>, vs: seq<nat>) {
    |vs| == |s| && forall i :: 0 <= i < |s| ==> TcbIn(tcb, s[i]).stateValue == vs[i]
  }

  lemma SpreadValues(tcb: Tcbs, tcb': Tcbs, s: seq<Task>, t: Task, vs: seq<nat>, p: nat)
    requires SameValues(tcb, tcb', s) && ValuesOf(tcb, s, vs) && p <= |s|
    ensures ValuesOf(tcb', Spread(s, t, p), Spread(vs, TcbIn(tcb', t).stateValue, p))
  {
    hide Spread;
  }

  lemma WindowOfValues(tcb: Tcbs, s: seq<Task>, vs: seq<nat>, lo: int, hi: int)
    requires ValuesOf(tcb, s, vs) && Sorted(vs) && forall i :: 0 <= i < |vs| ==> lo <= vs[i] <= hi
    ensures Window(tcb, s, lo, hi)
  {
  }

  lemma ValuesOfWindow(tcb: Tcbs, s: seq<Task>, vs: seq<nat>, lo: int, hi: int)
    requires ValuesOf(tcb, s, vs) && Window(tcb, s, lo, hi)
    ensures Sorted(vs) && forall i :: 0 <= i < |vs| ==> lo <= vs[i] <= hi
  {
  }

  lemma WindowInsert(tcb: Tcbs, tcb': Tcbs, r: TaskList, t: Task, vs: seq<nat>, lo: int, hi: int)
    requires Window(tcb, r.items, lo, hi) && SameValues(tcb, tcb', r.items) && ValuesOf(tcb, r.items, vs)
    requires lo <= TcbIn(tcb', t).stateValue <= hi
    ensures Window(tcb', InsertAt(r, t, SortedPos(vs, TcbIn(tcb', t).stateValue)).items, lo, hi)
  {
    var v := TcbIn(tcb', t).stateValue;
    var p := SortedPos(vs, v);
    ValuesOfWindow(tcb, r.items, vs, lo, hi);
    SortedInsert(vs, v);
    SpreadValues(tcb, tcb', r.items, t, vs, p);
    assert Spread(vs, v, p) == vs[..p] + [v] + vs[p..];
    assert InsertAt(r, t, p).items == Spread(r.items, t, p);
    hide Window, ValuesOf, SameValues, Sorted, SortedPos, InsertAt, Spread;
    assert Sorted(Spread(vs, v, p));
    WindowOfValues(tcb', Spread(r.items, t, p), Spread(vs, v, p), lo, hi);
  }

  lemma DelayPlaced(k: State, ticks: nat, canBlock: bool)
    requires ListsOk(k.lists, k.tcb, {}) && EventsOk(k.events, k.tcb) && k.current in k.tcb
    ensures var k' := DelayCurrent(k, ticks, canBlock);
            ListsOk(k'.lists, k'.tcb, {}) && EventsOk(k'.events, k'.tcb)
  {
    hide ListsOk, EventsOk, TakeOut, InsertAt, SleepPos, At, Wrap;
    var t := k.current;
    var l := SleepList(k, ticks, canBlock);
    var k' := DelayCurrent(k, ticks, canBlock);
    var k1 := TakeOut(k, t);
    TakeOutOk(k, t);
    EventsFrame(k.events, k.tcb, k'.tcb);
    PutOk(k1.lists, k.tcb, k'.tcb, t, l, SleepPos(k1, ListOf(k1, l), l, Wrap(k.tickCount + ticks)));
    TakeOutFrame(k, t);
  }

  lemma TakeOutTime(k: State, t: Task)
    requires ListsOk(k.lists, k.tcb, {}) && TimeOk(k) && NoneDue(k) && t in k.tcb
    ensures TimeOk(TakeOut(k, t)) && NoneDue(TakeOut(k, t)) && IsWord(k.tickCount)
    ensures t !in Delayed(TakeOut(k, t)) && t !in Overflow(TakeOut(k, t))
  {
    TakeOutOk(k, t);
    assert IsWord(k.tickCount);
    assert forall l :: t !in At(TakeOut(k, t).lists, l).items;
    hide ListsOk, TimeOk, NoneDue, Window;
    TimeShrinks(k, TakeOut(k, t), t);
  }

  lemma WindowLower(tcb: Tcbs, s: seq<Task>, lo: int, lo': int, hi: int)
    requires Window(tcb, s, lo, hi) && lo' <= lo
    ensures Window(tcb, s, lo', hi)
  {
  }

  lemma WindowSame(tcb: Tcbs, tcb': Tcbs, s: seq<Task>, lo: int, hi: int)
    requires Window(tcb, s, lo, hi) && SameValues(tcb, tcb', s)
    ensures Window(tcb', s, lo, hi)
  {
  }

  ghost predicate SameClock(k: State, k': State) {
    && k'.tick == k.tick && k'.tickCount == k.tickCount && k'.overflows == k.overflows
    && k'.delayedIsB == k.delayedIsB
  }

  lemma StateValuesAre(k: State, r: TaskList)
    ensures ValuesOf(k.tcb, r.items, StateValues(k, r.items))
  {
  }

  lemma SameValuesBut(tcb: Tcbs, t: Task, b: Tcb, s: seq<Task>)
    requires t !in s
    ensures SameValues(tcb, tcb[t := b], s)
  {
  }

  /** The sleeper goes to its sorted place on the delayed list. */
  lemma SleepDelayed(k1: State, k': State, t: Task, b: Tcb)
    requires TimeOk(k1) && NoneDue(k1) && t !in Delayed(k1) && t !in Overflow(k1)
    requires k1.tickCount < b.stateValue <= MAX_DELAY && k'.tcb == k1.tcb[t := b]
    requires SameClock(k1, k') && k'.nextUnblock == Min(k1.nextUnblock, b.stateValue)
    requires Delayed(k') == InsertAt(ListOf(k1, DelayedId(k1)), t,
             SortedPos(StateValues(k1, Delayed(k1)), b.stateValue)).items
    requires Overflow(k') == Overflow(k1)
    ensures TimeOk(k') && NoneDue(k')
  {
    var r := ListOf(k1, DelayedId(k1));
    var vs := StateValues(k1, r.items);
    hide Window, SortedPos, StateValues, InsertAt, SameValues, ValuesOf;
    StateValuesAre(k1, r);
    SameValuesBut(k1.tcb, t, b, r.items);
    SameValuesBut(k1.tcb, t, b, Overflow(k1));
    WindowLower(k1.tcb, r.items, k1.nextUnblock, k'.nextUnblock, MAX_DELAY);
    WindowInsert(k1.tcb, k'.tcb, r, t, vs, k1.tickCount, MAX_DELAY);
    WindowInsert(k1.tcb, k'.tcb, r, t, vs, k1.tickCount + 1, MAX_DELAY);
    WindowInsert(k1.tcb, k'.tcb, r, t, vs, k'.nextUnblock, MAX_DELAY);
    WindowSame(k1.tcb, k'.tcb, Overflow(k1), 0, k1.tickCount - 1);
    hide ListOf;
  }

  /** The sleeper goes to its sorted place on the overflow list. */
  lemma SleepOverflow(k1: State, k': State, t: Task, b: Tcb)
    requires TimeOk(k1) && NoneDue(k1) && t !in Delayed(k1) && t !in Overflow(k1)
    requires b.stateValue < k1.tickCount && k'.tcb == k1.tcb[t := b]
    requires SameClock(k1, k') && k'.nextUnblock == k1.nextUnblock
    requires Overflow(k') == InsertAt(ListOf(k1, OverflowId(k1)), t,
             SortedPos(StateValues(k1, Overflow(k1)), b.stateValue)).items
    requires Delayed(k') == Delayed(k1)
    ensures TimeOk(k') && NoneDue(k')
  {
    var r := ListOf(k1, OverflowId(k1));
    hide Window, SortedPos, StateValues, InsertAt, SameValues, ValuesOf;
    StateValuesAre(k1, r);
    SameValuesBut(k1.tcb, t, b, r.items);
    SameValuesBut(k1.tcb, t, b, Delayed(k1));
    WindowInsert(k1.tcb, k'.tcb, r, t, StateValues(k1, r.items), 0, k1.tickCount - 1);
    WindowSame(k1.tcb, k'.tcb, Delayed(k1), k1.tickCount, MAX_DELAY);
    WindowSame(k1.tcb, k'.tcb, Delayed(k1), k1.tickCount + 1, MAX_DELAY);
    WindowSame(k1.tcb, k'.tcb, Delayed(k1), k1.nextUnblock, MAX_DELAY);
    hide ListOf;
  }

  /** Or to the suspended list, when it blocks indefinitely. */
  lemma SleepSuspended(k1: State, k': State, t: Task, b: Tcb)
    requires TimeOk(k1) && NoneDue(k1) && t !in Delayed(k1) && t !in Overflow(k1)
    requires k'.tcb == k1.tcb[t := b] && SameClock(k1, k') && k'.nextUnblock == k1.nextUnblock
    requires Delayed(k') == Delayed(k1) && Overflow(k') == Overflow(k1)
    ensures TimeOk(k') && NoneDue(k')
  {
    hide Window, SameValues, ListOf;
    SameValuesBut(k1.tcb, t, b, Delayed(k1));
    SameValuesBut(k1.tcb, t, b, Overflow(k1));
    WindowSame(k1.tcb, k'.tcb, Delayed(k1), k1.tickCount, MAX_DELAY);
    WindowSame(k1.tcb, k'.tcb, Delayed(k1), k1.tickCount + 1, MAX_DELAY);
    WindowSame(k1.tcb, k'.tcb, Delayed(k1), k1.nextUnblock, MAX_DELAY);
    WindowSame(k1.tcb, k'.tcb, Overflow(k1), 0, k1.tickCount - 1);
  }

  lemma DelayLists(k: State, ticks: nat, canBlock: bool, l: StateList)
    ensures var k1 := TakeOut(k, k.current);
            var into := SleepList(k, ticks, canBlock);
            ListOf(DelayCurrent(k, ticks, canBlock), l)
            == if l != into then ListOf(k1, l)
               else InsertAt(ListOf(k1, l), k.current, SleepPos(k1, ListOf(k1, l), l, Wrap(k.tickCount + ticks)))
  {
    hide TakeOut, SleepPos, InsertAt;
  }

  lemma DelayFields(k: State, ticks: nat, canBlock: bool)
    ensures var k1 := TakeOut(k, k.current);
            var k' := DelayCurrent(k, ticks, canBlock);
            && SameClock(k, k1) && k1.tcb == k.tcb && k1.nextUnblock == k.nextUnblock
            && SameClock(k, k') && k'.tcb == k.tcb[k.current := Slept(k, ticks, canBlock)]
            && k'.nextUnblock == (if SleepList(k, ticks, canBlock) == DelayedId(k)
                                  then Min(k.nextUnblock, Wrap(k.tickCount + ticks)) else k.nextUnblock)
  {
    hide SleepPos, InsertAt, ListOf, Drop;
  }

  lemma DelayQueues(k: State, ticks: nat, canBlock: bool)
    ensures var k1 := TakeOut(k, k.current);
            var k' := DelayCurrent(k, ticks, canBlock);
            var l := SleepList(k, ticks, canBlock);
            var wake := Wrap(k.tickCount + ticks);
            && Delayed(k') == (if l == DelayedId(k)
                 then InsertAt(ListOf(k1, DelayedId(k1)), k.current,
                     SortedPos(StateValues(k1, Delayed(k1)), wake)).items
                 else Delayed(k1))
            && Overflow(k') == (if l == OverflowId(k)
                 then InsertAt(ListOf(k1, OverflowId(k1)), k.current,
                     SortedPos(StateValues(k1, Overflow(k1)), wake)).items
                 else Overflow(k1))
  {
    DelayLists(k, ticks, canBlock, DelayedId(k));
    DelayLists(k, ticks, canBlock, OverflowId(k));
    DelayFields(k, ticks, canBlock);
    hide TakeOut, DelayCurrent, InsertAt, SortedPos, StateValues, ListOf, Wrap;
  }

  lemma DelayTime(k: State, ticks: nat, canBlock: bool)
    requires ListsOk(k.lists, k.tcb, {}) && TimeOk(k) && NoneDue(k) && k.current in k.tcb && 1 <= ticks < MODULUS
    ensures TimeOk(DelayCurrent(k, ticks, canBlock)) && NoneDue(DelayCurrent(k, ticks, canBlock))
  {
    var t := k.current;
    var k1 := TakeOut(k, t);
    var k' := DelayCurrent(k, ticks, canBlock);
    var b := Slept(k, ticks, canBlock);
    hide TakeOut, At, ListsOk, TimeOk, NoneDue, InsertAt, StateValues, DelayCurrent, ListOf, Delayed, Overflow,
      SortedPos;
    TakeOutTime(k, t);
    WrapSum(k.tickCount, ticks);
    DelayQueues(k, ticks, canBlock);
    DelayFields(k, ticks, canBlock);
    if b.stateIn == Suspended {
      SleepSuspended(k1, k', t, b);
    } else if b.stateIn == DelayedId(k) {
      SleepDelayed(k1, k', t, b);
    } else {
      SleepOverflow(k1, k', t, b);
    }
  }

  lemma DelayRest(k: State, ticks: nat, canBlock: bool)
    requires PrioritiesOk(k.tcb, k.top) && CountsOk(k) && k.tcb[k.current].stateIn != Terminated
    requires forall t :: t in k.tcb && t != k.current && k.tcb[t].eventIn != NoEvent ==> Blocking(k.tcb[t].stateIn)
    ensures var k' := DelayCurrent(k, ticks, canBlock);
            PrioritiesOk(k'.tcb, k'.top) && CountsOk(k') && BlockedOk(k'.tcb)
  {
    DelayEffect(k, ticks, canBlock);
    DelayLists(k, ticks, canBlock, Terminated);
    hide DelayCurrent;
    assert DelayCurrent(k, ticks, canBlock).tcb.Keys == k.tcb.Keys;
  }

  /** What the running task satisfies when it blocks: it is ready and waits for nothing yet. */
  ghost predicate Running(k: State) {
    IsReady(k, k.current) && k.tcb[k.current].eventIn == NoEvent
  }

  lemma DelaySettled(k: State, ticks: nat, canBlock: bool)
    requires Settled(k) && Running(k) && 1 <= ticks < MODULUS
    ensures Settled(DelayCurrent(k, ticks, canBlock))
  {
    DelayRest(k, ticks, canBlock);
    hide DelayCurrent, ListsOk, EventsOk, TimeOk, NoneDue, PrioritiesOk, CountsOk, BlockedOk;
    DelayPlaced(k, ticks, canBlock);
    DelayTime(k, ticks, canBlock);
  }

  // ----- waiting for an event

  lemma WaitPlaced(k: State, id: nat, v: nat, pos: nat, k1: State)
    requires EventsOk(k.events, k.tcb) && Running(k)
    requires pos <= |EventsOf(k, Waiters(id)).items|
    requires k1 == k.(events := k.events[Waiters(id) := InsertAt(EventsOf(k, Waiters(id)), k.current, pos)],
                      tcb := k.tcb[k.current := k.tcb[k.current].(eventIn := Waiters(id), eventValue := v)])
    ensures EventsOk(k1.events, k1.tcb)
  {
    PutEventOk(k.events, k.tcb, k1.tcb, k.current, Waiters(id), pos);
  }

  /** Between being put on the event list and leaving the ready list, the running task is
      the one exception to "only blocked tasks wait". */
  lemma WaitSettled(k: State, id: nat, v: nat, pos: nat, k1: State, ticks: nat, canBlock: bool)
    requires Settled(k) && Running(k) && 1 <= ticks < MODULUS
    requires pos <= |EventsOf(k, Waiters(id)).items|
    requires k1 == k.(events := k.events[Waiters(id) := InsertAt(EventsOf(k, Waiters(id)), k.current, pos)],
                      tcb := k.tcb[k.current := k.tcb[k.current].(eventIn := Waiters(id), eventValue := v)])
    ensures Settled(DelayCurrent(k1, ticks, canBlock))
  {
    WaitPlaced(k, id, v, pos, k1);
    ListsFrame(k.lists, k.tcb, k1.tcb, {});
    EventValueTime(k, k1);
    assert k1.tcb.Keys == k.tcb.Keys;
    assert PrioritiesOk(k1.tcb, k1.top) && CountsOk(k1);
    hide DelayCurrent, ListsOk, EventsOk, TimeOk, NoneDue, InsertAt;
    DelayRest(k1, ticks, canBlock);
    hide PrioritiesOk, CountsOk, BlockedOk;
    DelayPlaced(k1, ticks, canBlock);
    DelayTime(k1, ticks, canBlock);
  }

  /** Changes to TCBs that leave the wake times alone. */
  lemma EventValueTime(k: State, k1: State)
    requires TimeOk(k) && NoneDue(k) && SameClock(k, k1) && k1.nextUnblock == k.nextUnblock && k1.lists == k.lists
    requires forall t :: TcbIn(k1.tcb, t).stateValue == TcbIn(k.tcb, t).stateValue
    ensures TimeOk(k1) && NoneDue(k1)
  {
    hide TimeOk, NoneDue, Window;
    TimeShrinks(k, k1, 0);
  }

  lemma PlaceOnEventListSettled(k: State, id: nat, ticks: nat)
    requires Settled(k) && Running(k) && 1 <= ticks < MODULUS
    ensures Settled(PlaceOnEventList(k, id, ticks))
  {
    var r := EventsOf(k, Waiters(id));
    var v := k.tcb[k.current].eventValue;
    hide Settled, DelayCurrent;
    WaitSettled(k, id, v, SortedPos(EventValues(k, r.items), v), PutEventSorted(k, k.current, Waiters(id)), ticks,
        true);
  }

  lemma PlaceOnUnorderedSettled(k: State, id: nat, value: nat, ticks: nat)
    requires Settled(k) && Running(k) && 1 <= ticks < MODULUS
    ensures Settled(PlaceOnUnorderedEventList(k, id, value, ticks))
  {
    var k1 := PutEventEnd(SetEventValue(k, k.current, MarkInUse(value)), k.current, Waiters(id));
    hide Settled, DelayCurrent, MarkInUse;
    WaitSettled(k, id, MarkInUse(value), EndPos(EventsOf(k, Waiters(id))), k1, ticks, true);
  }

  lemma PlaceRestrictedSettled(k: State, id: nat, ticks: nat, indefinitely: bool)
    requires Settled(k) && Running(k) && (indefinitely || 1 <= ticks < MODULUS)
    ensures Settled(PlaceRestricted(k, id, ticks, indefinitely))
  {
    var k1 := PutEventEnd(k, k.current, Waiters(id));
    var v := k.tcb[k.current].eventValue;
    hide Settled, DelayCurrent;
    WaitSettled(k, id, v, EndPos(EventsOf(k, Waiters(id))), k1, if indefinitely then MAX_DELAY else ticks,
        indefinitely);
  }

  // ----- the pending ready list

  lemma NonePendingFrame(k: State, k': State)
    requires NonePending(k) && EventsOk(k.events, k.tcb) && EventsOk(k'.events, k'.tcb)
    requires k'.suspended == k.suspended && k'.pended == k.pended
    requires forall t :: t in k'.tcb && k'.tcb[t].eventIn == Pending ==> t in k.tcb && k.tcb[t].eventIn == Pending
    ensures NonePending(k')
  {
    if EventsOf(k', Pending).items != [] {
      var t := EventsOf(k', Pending).items[0];
      assert t in At(k'.events, Pending).items;
      assert t in At(k.events, Pending).items;
    }
  }

  lemma FlagsInv(k: State, k': State)
    requires Inv(k) && k' == k.(yieldPending := k'.yieldPending, yieldAsked := k'.yieldAsked)
    ensures Inv(k')
  {
    FlagsFrame(k, k');
  }

  lemma ResetInv(k: State)
    requires Inv(k)
    ensures Inv(ResetNextUnblock(k)) && ResetNextUnblock(k) == k.(nextUnblock := ResetNextUnblock(k).nextUnblock)
    ensures Earliest(ResetNextUnblock(k))
  {
    hide Earliest;
    ResetCore(k);
  }

  lemma RequeueInv(k: State, t: Task, l: StateList)
    requires Inv(k) && t in k.tcb && MayBeIn(k.tcb[t], l, k.top)
    requires l != DelayA && l != DelayB && l != Terminated && k.tcb[t].stateIn != Terminated
    ensures Inv(Requeue(k, t, l))
  {
    RequeueCore(k, t, l);
    RequeueEffect(k, t, l);
    hide Requeue, TakeOut, ListsOk, TimeOk, NoneDue, PrioritiesOk, CountsOk, BlockedOk;
    NonePendingFrame(k, Requeue(k, t, l));
  }

  lemma MakeReadyInv(k: State, t: Task)
    requires Inv(k) && t in k.tcb && k.tcb[t].stateIn != Terminated
    ensures Inv(MakeReady(k, t))
  {
    var p := k.tcb[t].priority;
    RaiseTopCore(k, p);
    hide Core, NoneDue, Requeue;
    RequeueInv(RaiseTop(k, p), t, Ready(p));
  }

  lemma HeadWaiter(k: State, e: EventList)
    requires EventsOk(k.events, k.tcb) && BlockedOk(k.tcb) && EventsOf(k, e).items != []
    ensures var t := EventsOf(k, e).items[0];
            t in k.tcb && e != NoEvent && k.tcb[t].eventIn == e && Blocking(k.tcb[t].stateIn)
  {
    assert EventsOf(k, e).items[0] in At(k.events, e).items;
  }

  lemma ToPendingPlaced(k: State, t: Task)
    requires EventsOk(k.events, k.tcb) && t in k.tcb
    ensures var k' := PutEventEnd(DropEvent(k, t), t, Pending);
            && EventsOk(k'.events, k'.tcb)
            && k'.tcb == k.tcb[t := k.tcb[t].(eventIn := Pending)]
            && k' == k.(tcb := k'.tcb, events := k'.events)
  {
    hide EventsOk, Drop, At, InsertAt;
    var k1 := DropEvent(k, t);
    var k' := PutEventEnd(k1, t, Pending);
    DropEventOk(k, t);
    PutEventOk(k1.events, k1.tcb, k'.tcb, t, Pending, EndPos(EventsOf(k1, Pending)));
  }

  lemma ToPendingInv(k: State, t: Task)
    requires Inv(k) && k.suspended > 0 && t in k.tcb && Blocking(k.tcb[t].stateIn)
    ensures Inv(PutEventEnd(DropEvent(k, t), t, Pending))
  {
    hide DropEvent, PutEventEnd, ListsOk, EventsOk, TimeOk, NoneDue;
    var k' := PutEventEnd(DropEvent(k, t), t, Pending);
    ToPendingPlaced(k, t);
    ListsFrame(k.lists, k.tcb, k'.tcb, {});
    EventValueTime(k, k');
    assert k'.tcb.Keys == k.tcb.Keys;
  }

  /** The event item of `t` goes to the end of the list of pending ready tasks. */
  ghost predicate Pends(k: State, k': State, t: Task) {
    && k'.lists == k.lists
    && forall e {:trigger EventsOf(k', e)} ::
         EventsOf(k', e) == if e == Pending then InsertEnd(Drop(EventsOf(k, e), t), t) else Drop(EventsOf(k, e), t)
  }

  lemma ToPendingPends(k: State, t: Task)
    requires ListsOk(k.lists, k.tcb, {}) && EventsOk(k.events, k.tcb) && t in k.tcb && k.tcb[t].eventIn.Waiters?
    ensures Pends(k, PutEventEnd(DropEvent(k, t), t, Pending), t)
  {
    ElsewhereNot(k, t);
    hide ListsOk, EventsOk, InsertEnd, Remove;
  }

  /** The task that has waited longest among those of the highest priority leaves the event list:
      it is ready or, while the scheduler is suspended, the last of the pending ready ones. A
      yield becomes pending if it outranks the running task. */
  lemma RemoveFromEventListInv(k: State, id: nat)
    requires Inv(k) && EventsOf(k, Waiters(id)).items != []
    ensures Inv(RemoveFromEventList(k, id))
    ensures var k' := RemoveFromEventList(k, id);
            var t := EventsOf(k, Waiters(id)).items[0];
            && t in k.tcb
            && k' == k.(tcb := k'.tcb, lists := k'.lists, events := k'.events, top := k'.top,
                yieldPending := k.yieldPending || k.tcb[t].priority > Priority(k, k.current))
            && if k.suspended == 0
               then Moves(k, k', t, Ready(k.tcb[t].priority)) && Leaves(k, k', t)
                    && k'.tcb == k.tcb[t := k.tcb[t].(stateIn := Ready(k.tcb[t].priority), eventIn := NoEvent)]
               else Pends(k, k', t) && k'.tcb == k.tcb[t := k.tcb[t].(eventIn := Pending)]
  {
    hide Inv, MakeReady, DropEvent, PutEventEnd, EventsOf, Moves, Leaves, Pends, ListsOk, EventsOk, BlockedOk;
    HeadWaits(k, Waiters(id));
    var t := EventsOf(k, Waiters(id)).items[0];
    if k.suspended == 0 {
      WokenInv(k, t, Priority(k, t) > Priority(k, k.current), RemoveFromEventList(k, id));
    } else {
      PendedInv(k, t, Priority(k, t) > Priority(k, k.current), RemoveFromEventList(k, id));
    }
  }

  lemma HeadWaits(k: State, e: EventList)
    requires Inv(k) && EventsOf(k, e).items != []
    ensures var t := EventsOf(k, e).items[0];
            t in k.tcb && k.tcb[t].eventIn == e && Blocking(k.tcb[t].stateIn)
  {
    HeadWaiter(k, e);
  }

  lemma WokenInv(k: State, t: Task, ask: bool, k': State)
    requires Inv(k) && t in k.tcb && Blocking(k.tcb[t].stateIn) && k' == Pend(MakeReady(k, t), ask)
    ensures Inv(k') && Moves(k, k', t, Ready(k.tcb[t].priority)) && Leaves(k, k', t)
    ensures k'.tcb == k.tcb[t := k.tcb[t].(stateIn := Ready(k.tcb[t].priority), eventIn := NoEvent)]
    ensures k' == k.(tcb := k'.tcb, lists := k'.lists, events := k'.events, top := k'.top,
                     yieldPending := k.yieldPending || ask)
  {
    hide Inv, MakeReady, Moves, Leaves;
    assert k.tcb[t := k.tcb[t]] == k.tcb;
    ReadiedFlags(k, t, k.tcb[t]);
    ReadiedInv(k, t, k.tcb[t], k');
  }

  lemma PendedInv(k: State, t: Task, ask: bool, k': State)
    requires Inv(k) && k.suspended > 0 && t in k.tcb && Blocking(k.tcb[t].stateIn) && k.tcb[t].eventIn.Waiters?
    requires k' == Pend(PutEventEnd(DropEvent(k, t), t, Pending), ask)
    ensures Inv(k') && Pends(k, k', t) && k'.tcb == k.tcb[t := k.tcb[t].(eventIn := Pending)]
    ensures k' == k.(tcb := k'.tcb, events := k'.events, yieldPending := k.yieldPending || ask)
  {
    hide Inv, DropEvent, PutEventEnd, Moves, Leaves, Pends, ListsOk, EventsOk;
    var k1 := PutEventEnd(DropEvent(k, t), t, Pending);
    PlacedLists(k);
    ToPendingInv(k, t);
    ToPendingPlaced(k, t);
    ToPendingPends(k, t);
    SameOrder(k, k1, k', t);
    FlagsInv(k1, k');
  }

  lemma PlacedLists(k: State)
    requires Inv(k)
    ensures ListsOk(k.lists, k.tcb, {}) && EventsOk(k.events, k.tcb)
  {
  }

  /** The order predicates speak of the lists only. */
  lemma SameOrder(k: State, k1: State, k2: State, t: Task)
    requires k2.lists == k1.lists && k2.events == k1.events
    ensures forall l :: Moves(k, k1, t, l) ==> Moves(k, k2, t, l)
    ensures Leaves(k, k1, t) ==> Leaves(k, k2, t)
    ensures Pends(k, k1, t) ==> Pends(k, k2, t)
  {
    hide InsertEnd, Drop;
    assert forall m :: ListOf(k2, m) == ListOf(k1, m);
    assert forall e :: EventsOf(k2, e) == EventsOf(k1, e);
  }

  /** The same for the lists before a change of other fields. */
  lemma SameOrderBefore(k: State, k1: State, k2: State, t: Task)
    requires k1.lists == k.lists && k1.events == k.events
    ensures forall l :: Moves(k1, k2, t, l) ==> Moves(k, k2, t, l)
    ensures Leaves(k1, k2, t) ==> Leaves(k, k2, t)
  {
    hide InsertEnd, Drop;
    assert forall m :: ListOf(k1, m) == ListOf(k, m);
    assert forall e :: EventsOf(k1, e) == EventsOf(k, e);
  }

  /** TCB fields that no list and no clock depends on. */
  lemma EditInv(k: State, t: Task, b: Tcb)
    requires Inv(k) && t in k.tcb && b.base < MAX_PRIORITIES
    requires b == k.tcb[t].(base := b.base, mutexesHeld := b.mutexesHeld, eventValue := b.eventValue,
             delayAborted := b.delayAborted)
    ensures Inv(SetTcb(k, t, b))
  {
    EditRest(k, t, b);
    hide ListsOk, EventsOk, TimeOk, NoneDue, ListOf, EventsOf, PrioritiesOk, CountsOk, BlockedOk;
    var k' := SetTcb(k, t, b);
    ListsFrame(k.lists, k.tcb, k'.tcb, {});
    EventsFrame(k.events, k.tcb, k'.tcb);
    EventValueTime(k, k');
  }

  lemma PriorityBounds(k: State, t: Task)
    requires Inv(k) && t in k.tcb
    ensures k.tcb[t].base < MAX_PRIORITIES && k.tcb[t].priority < MAX_PRIORITIES
  {
  }

  lemma EditRest(k: State, t: Task, b: Tcb)
    requires PrioritiesOk(k.tcb, k.top) && CountsOk(k) && BlockedOk(k.tcb) && t in k.tcb && b.base < MAX_PRIORITIES
    requires b == k.tcb[t].(base := b.base, mutexesHeld := b.mutexesHeld, eventValue := b.eventValue,
             delayAborted := b.delayAborted)
    ensures var k' := SetTcb(k, t, b);
            && PrioritiesOk(k'.tcb, k'.top) && CountsOk(k') && BlockedOk(k'.tcb) && k'.tcb.Keys == k.tcb.Keys
  {
    assert SetTcb(k, t, b).tcb.Keys == k.tcb.Keys;
  }

  /** A task, its TCB changed to `b`, becomes ready and leaves whatever it was waiting on. */
  lemma ReadiedInv(k: State, t: Task, b: Tcb, k': State)
    requires Inv(k) && t in k.tcb && k.tcb[t].stateIn != Terminated && b.base == k.tcb[t].base
    requires b == k.tcb[t].(eventValue := b.eventValue, delayAborted := b.delayAborted)
    requires var k1 := MakeReady(SetTcb(k, t, b), t);
             k' == k1.(yieldPending := k'.yieldPending, yieldAsked := k'.yieldAsked)
    ensures Inv(k') && Moves(k, k', t, Ready(b.priority)) && Leaves(k, k', t)
    ensures k'.tcb == k.tcb[t := b.(stateIn := Ready(b.priority), eventIn := NoEvent)]
    ensures t in ListOf(k', Ready(b.priority)).items && forall e :: t !in EventsOf(k', e).items
    ensures k' == k.(tcb := k'.tcb, lists := k'.lists, events := k'.events, top := Max(k.top, b.priority),
                     yieldPending := k'.yieldPending, yieldAsked := k'.yieldAsked)
  {
    hide Inv, MakeReady, ListsOk, EventsOk, Moves, Leaves, ListOf, EventsOf;
    PriorityBounds(k, t);
    var k0 := SetTcb(k, t, b);
    EditInv(k, t, b);
    PlacedLists(k0);
    MakeReadyInv(k0, t);
    MakeReadyEffect(k0, t);
    MakeReadyMoves(k0, t);
    FlagsInv(MakeReady(k0, t), k');
    SameOrder(k0, MakeReady(k0, t), k', t);
    SameOrderBefore(k, k0, k', t);
    assert k0.tcb[t := b.(stateIn := Ready(b.priority), eventIn := NoEvent)]
        == k.tcb[t := b.(stateIn := Ready(b.priority), eventIn := NoEvent)];
    PlacedLists(k');
    ElsewhereNot(k', t);
    OnItsStateList(k', t);
  }

  /** The task named leaves its event list and its delay and is ready with the marked value in
      its item; a yield becomes pending if it outranks the running task. */
  lemma RemoveFromUnorderedInv(k: State, t: Task, value: nat)
    requires Inv(k) && t in k.tcb && k.tcb[t].stateIn != Terminated
    ensures Inv(RemoveFromUnordered(k, t, value))
    ensures var k' := RemoveFromUnordered(k, t, value);
            var p := k.tcb[t].priority;
            && k'.tcb == k.tcb[t := k.tcb[t].(eventValue := MarkInUse(value), stateIn := Ready(p), eventIn := NoEvent)]
            && t in ListOf(k', Ready(p)).items && (forall e :: t !in EventsOf(k', e).items)
            && Moves(k, k', t, Ready(p)) && Leaves(k, k', t)
            && k' == k.(tcb := k'.tcb, lists := k'.lists, events := k'.events, top := k'.top,
                yieldPending := k.yieldPending || p > Priority(k, k.current))
  {
    hide Inv, MakeReady, MarkInUse, Moves, Leaves, ListOf, EventsOf;
    ReadiedInv(k, t, k.tcb[t].(eventValue := MarkInUse(value)), RemoveFromUnordered(k, t, value));
    ReadiedFlags(k, t, k.tcb[t].(eventValue := MarkInUse(value)));
  }

  lemma ReadiedFlags(k: State, t: Task, b: Tcb)
    requires t in k.tcb
    ensures var k' := MakeReady(SetTcb(k, t, b), t);
            k'.yieldPending == k.yieldPending && k'.yieldAsked == k.yieldAsked && k'.current == k.current
  {
    MakeReadyEffect(SetTcb(k, t, b), t);
    hide MakeReady;
  }

  /** The task named is on the suspended list, behind those already there, and waits for
      nothing; a switch is asked for if it is the running one. */
  lemma SuspendInv(k: State, t: Task)
    requires Inv(k) && t in k.tcb && k.tcb[t].stateIn != Terminated
    ensures Inv(Suspend(k, t))
    ensures var k' := Suspend(k, t);
            && k'.tcb == k.tcb[t := k.tcb[t].(stateIn := Suspended, eventIn := NoEvent)]
            && t in ListOf(k', Suspended).items && (forall e :: t !in EventsOf(k', e).items)
            && Moves(k, k', t, Suspended) && Leaves(k, k', t) && Earliest(k')
            && k' == k.(tcb := k'.tcb, lists := k'.lists, events := k'.events, nextUnblock := k'.nextUnblock,
                yieldAsked := k.yieldAsked || t == k.current)
  {
    hide Inv, Requeue, ResetNextUnblock, Moves, Leaves, ListsOk, EventsOk, ListOf, EventsOf, Earliest;
    var k1 := Requeue(k, t, Suspended);
    var k' := Suspend(k, t);
    RequeueInv(k, t, Suspended);
    RequeueEffect(k, t, Suspended);
    PlacedLists(k);
    RequeueMoves(k, t, Suspended);
    ResetInv(k1);
    FlagsInv(ResetNextUnblock(k1), k');
    SameEarliest(ResetNextUnblock(k1), k');
    SameOrder(k, k1, k', t);
    PlacedLists(k');
    ElsewhereNot(k', t);
    OnItsStateList(k', t);
  }

  lemma ResumeInv(k: State, t: Task)
    requires Inv(k) && t in k.tcb
    ensures Inv(Resume(k, t))
    ensures var k' := Resume(k, t);
            var p := k.tcb[t].priority;
            if t != k.current && k.tcb[t].stateIn == Suspended && k.tcb[t].eventIn == NoEvent
            then IsReady(k', t) && k'.tcb == k.tcb[t := k.tcb[t].(stateIn := Ready(p))] && Moves(k, k', t, Ready(p))
                 && k' == k.(tcb := k'.tcb, lists := k'.lists, events := k'.events, top := k'.top,
                     yieldAsked := k.yieldAsked || p >= Priority(k, k.current))
            else k' == k
  {
    hide Inv, MakeReady, Moves, Leaves, ListOf, EventsOf;
    if t != k.current && k.tcb[t].stateIn == Suspended && k.tcb[t].eventIn == NoEvent {
      var b := k.tcb[t];
      assert k.tcb[t := b] == k.tcb;
      ReadiedInv(k, t, b, Resume(k, t));
      ReadiedFlags(k, t, b);
    }
  }

  /** A blocked task, and no other, becomes ready; the abort is recorded if it was waiting for an
      event. */
  lemma AbortDelayInv(k: State, t: Task)
    requires Inv(k) && t in k.tcb
    ensures Inv(AbortDelay(k, t))
    ensures var k' := AbortDelay(k, t);
            var b := k.tcb[t];
            if t != k.current && (b.stateIn == DelayA || b.stateIn == DelayB
                                  || (b.stateIn == Suspended && b.eventIn != NoEvent))
            then Moves(k, k', t, Ready(b.priority)) && Leaves(k, k', t)
                 && k'.tcb == k.tcb[t := b.(stateIn := Ready(b.priority), eventIn := NoEvent,
                      delayAborted := b.eventIn != NoEvent || b.delayAborted)]
                 && k' == k.(tcb := k'.tcb, lists := k'.lists, events := k'.events, top := k'.top,
                     yieldPending := k.yieldPending || b.priority > Priority(k, k.current))
            else k' == k
  {
    hide Inv, MakeReady, Moves, Leaves, ListOf, EventsOf;
    if IsBlocked(k, t) {
      var b := k.tcb[t].(delayAborted := k.tcb[t].delayAborted || k.tcb[t].eventIn != NoEvent);
      ReadiedInv(k, t, b, AbortDelay(k, t));
      ReadiedFlags(k, t, b);
    }
  }

  // ----- creating and deleting

  function NewTcb(p: nat): Tcb {
    Tcb(p, p, 0, 0, MAX_PRIORITIES - Min(p, MAX_PRIORITIES), Ready(p), NoEvent, false)
  }

  function Created(k: State, t: Task, p: nat): State {
    AddToReady(SetTcb(k, t, NewTcb(p)).(number := k.number + 1), t)
  }

  lemma CreatedEffect(k: State, t: Task, p: nat)
    ensures var k' := Created(k, t, p);
            k' == k.(tcb := k.tcb[t := NewTcb(p)], top := Max(k.top, p), number := k.number + 1,
                     lists := k.lists[Ready(p) := InsertEnd(ListOf(k, Ready(p)), t)])
  {
    hide InsertEnd, At;
  }

  lemma CreatedPlaced(k: State, t: Task, p: nat)
    requires ListsOk(k.lists, k.tcb, {}) && EventsOk(k.events, k.tcb) && t !in k.tcb
    ensures ListsOk(k.lists[Ready(p) := InsertEnd(ListOf(k, Ready(p)), t)], k.tcb[t := NewTcb(p)], {})
    ensures EventsOk(k.events, k.tcb[t := NewTcb(p)])
  {
    var tcb' := k.tcb[t := NewTcb(p)];
    assert ListsOk(k.lists, tcb', {t});
    PutOk(k.lists, tcb', tcb', t, Ready(p), EndPos(ListOf(k, Ready(p))));
    hide ListsOk, InsertAt;
  }

  lemma CreatedRest(k: State, t: Task, p: nat)
    requires PrioritiesOk(k.tcb, k.top) && CountsOk(k) && BlockedOk(k.tcb) && t !in k.tcb && p < MAX_PRIORITIES
    ensures var k' := Created(k, t, p);
            PrioritiesOk(k'.tcb, k'.top) && CountsOk(k') && BlockedOk(k'.tcb)
  {
    CreatedEffect(k, t, p);
    hide Created;
    assert ListOf(Created(k, t, p), Terminated) == ListOf(k, Terminated);
    assert k.tcb[t := NewTcb(p)].Keys == k.tcb.Keys + {t};
  }

  lemma CreatedTime(k: State, t: Task, p: nat)
    requires TimeOk(k) && NoneDue(k) && t !in k.tcb
    ensures TimeOk(Created(k, t, p)) && NoneDue(Created(k, t, p))
  {
    var k' := Created(k, t, p);
    CreatedEffect(k, t, p);
    hide Created, TimeOk, NoneDue, Window, InsertEnd;
    assert ListOf(k', DelayA) == ListOf(k, DelayA) && ListOf(k', DelayB) == ListOf(k, DelayB);
    assert forall x :: TcbIn(k'.tcb, x).stateValue == TcbIn(k.tcb, x).stateValue;
    TimeShrinks(k, k', t);
  }

  lemma OnItsStateList(k: State, t: Task)
    ensures ListsOk(k.lists, k.tcb, {}) && t in k.tcb ==> t in ListOf(k, k.tcb[t].stateIn).items
  {
    if ListsOk(k.lists, k.tcb, {}) && t in k.tcb {
      assert t in At(k.lists, k.tcb[t].stateIn).items;
    }
  }

  lemma OnNoList(k: State, t: Task)
    requires ListsOk(k.lists, k.tcb, {}) && EventsOk(k.events, k.tcb) && t !in k.tcb
    ensures (forall l :: t !in ListOf(k, l).items) && (forall e :: t !in EventsOf(k, e).items)
  {
    assert forall l :: t !in At(k.lists, l).items;
    assert forall e :: t !in At(k.events, e).items;
  }

  /** Nobody but `t`, which was on no list, moves: it is the last on list `l`. */
  lemma EntersLast(k: State, t: Task, l: StateList, k': State)
    requires ListsOk(k.lists, k.tcb, {}) && EventsOk(k.events, k.tcb) && t !in k.tcb
    requires k'.lists == k.lists[l := InsertEnd(ListOf(k, l), t)]
    ensures Moves(k, k', t, l)
  {
    OnNoList(k, t);
    hide ListsOk, EventsOk, InsertEnd, Remove;
  }

  lemma NewFields(p: nat)
    requires p < MAX_PRIORITIES
    ensures var b := NewTcb(p);
            && b.priority == b.base == p && b.mutexesHeld == 0 && b.eventValue + p == MAX_PRIORITIES
            && b.stateIn == Ready(p) && b.eventIn == NoEvent && !b.delayAborted
  {
  }

  /** The new task is ready, the last of its priority, with its base priority in use, no mutex
      and the item value of its priority; a switch is asked for if it outranks the running task. */
  lemma CreateInv(k: State, t: Task, p: nat)
    requires Inv(k) && t !in k.tcb && p < MAX_PRIORITIES
    ensures Inv(Create(k, t, p))
    ensures var k' := Create(k, t, p);
            && t in k'.tcb && k'.tcb == k.tcb[t := k'.tcb[t]] && k'.tcb[t] == NewTcb(p)
            && IsReady(k', t) && t in ListOf(k', Ready(p)).items && Moves(k, k', t, Ready(p))
            && k' == k.(tcb := k'.tcb, lists := k'.lists, top := k'.top, number := k.number + 1,
                yieldAsked := k.yieldAsked || p > Priority(k, k.current))
            && var b := k'.tcb[t];
               b.priority == b.base == p && b.mutexesHeld == 0 && b.eventValue + p == MAX_PRIORITIES && !b.delayAborted
  {
    hide ListsOk, EventsOk, TimeOk, NoneDue, PrioritiesOk, CountsOk, BlockedOk, Created, At, Moves;
    NewFields(p);
    OnItsStateList(Create(k, t, p), t);
    EntersLast(k, t, Ready(p), Create(k, t, p));
    CreatedPlaced(k, t, p);
    CreatedRest(k, t, p);
    CreatedTime(k, t, p);
    CreatedEffect(k, t, p);
    FlagsInv(Created(k, t, p), Create(k, t, p));
  }

  /** Both ways a task is forgotten: it is already off every list. */
  lemma ForgetPlaced(k: State, t: Task)
    requires ListsOk(k.lists, k.tcb, {t}) && EventsOk(k.events, k.tcb) && t in k.tcb && k.tcb[t].eventIn == NoEvent
    ensures ListsOk(k.lists, k.tcb - {t}, {}) && EventsOk(k.events, k.tcb - {t})
  {
  }

  lemma ForgetCounts(tcb: Tcbs, t: Task)
    requires t in tcb
    ensures |tcb - {t}| == |tcb| - 1
  {
    assert (tcb - {t}).Keys == tcb.Keys - {t};
  }

  lemma Unlinked(k: State, t: Task)
    requires ListsOk(k.lists, k.tcb, {}) && EventsOk(k.events, k.tcb) && t in k.tcb
    ensures var k2 := DropEvent(TakeOut(k, t), t);
            && ListsOk(k2.lists, k2.tcb, {t}) && EventsOk(k2.events, k2.tcb)
            && k2.tcb == k.tcb[t := k.tcb[t].(eventIn := NoEvent)]
            && k2 == k.(lists := TakeOut(k, t).lists, events := k2.events, tcb := k2.tcb)
  {
    var k1 := TakeOut(k, t);
    TakeOutOk(k, t);
    DropEventOk(k1, t);
    hide Drop, At;
    ListsFrame(k1.lists, k.tcb, DropEvent(k1, t).tcb, {t});
    hide ListsOk, EventsOk;
    if k.tcb[t].eventIn == NoEvent {
      assert k.tcb[t] == k.tcb[t].(eventIn := NoEvent);
      assert k.tcb == k.tcb[t := k.tcb[t]];
    }
  }

  lemma ForgottenTime(k: State, t: Task, k': State)
    requires ListsOk(k.lists, k.tcb, {}) && TimeOk(k) && NoneDue(k) && t in k.tcb
    requires k'.lists == TakeOut(k, t).lists && k'.tcb == k.tcb - {t} && SameClock(k, k')
             && k'.nextUnblock == k.nextUnblock
    ensures TimeOk(k') && NoneDue(k')
  {
    TakeOutTime(k, t);
    hide TimeOk, NoneDue, Window, TakeOut, ListsOk;
    assert k'.lists == TakeOut(k, t).lists;
    assert Delayed(k') == Delayed(TakeOut(k, t)) && Overflow(k') == Overflow(TakeOut(k, t));
    assert TakeOut(k, t).tcb == k.tcb;
    TimeShrinks(TakeOut(k, t), k', t);
  }

  function Deleted(k: State, t: Task): State {
    Forget(DropEvent(TakeOut(k, t), t), t)
  }

  lemma DeletedEffect(k: State, t: Task)
    requires ListsOk(k.lists, k.tcb, {}) && EventsOk(k.events, k.tcb) && t in k.tcb && k.number > 0
    ensures var k' := Deleted(k, t);
            && ListsOk(k'.lists, k'.tcb, {}) && EventsOk(k'.events, k'.tcb)
            && k'.lists == TakeOut(k, t).lists && k'.tcb == k.tcb - {t}
            && k' == k.(lists := k'.lists, events := k'.events, tcb := k'.tcb, number := k.number - 1)
  {
    hide TakeOut, DropEvent, ListsOk, EventsOk;
    Unlinked(k, t);
    ForgetPlaced(DropEvent(TakeOut(k, t), t), t);
    assert k.tcb[t := k.tcb[t].(eventIn := NoEvent)] - {t} == k.tcb - {t};
  }

  lemma DeletedRest(k: State, t: Task)
    requires Core(k) && t in k.tcb && t != k.current && k.tcb[t].stateIn != Terminated
    ensures k.number > 0
    ensures var k' := Deleted(k, t);
            PrioritiesOk(k'.tcb, k'.top) && CountsOk(k') && BlockedOk(k'.tcb)
  {
    ForgetCounts(k.tcb, t);
    assert ListOf(TakeOut(k, t), Terminated) == ListOf(k, Terminated);
    DeletedEffect(k, t);
    hide TakeOut, ListsOk, EventsOk, TimeOk, Deleted;
  }

  /** Another task is off every list and forgotten at once. */
  lemma DeleteOtherInv(k: State, t: Task)
    requires Inv(k) && t in k.tcb && t != k.current && k.tcb[t].stateIn != Terminated
    ensures Inv(Delete(k, t))
    ensures var k' := Delete(k, t);
            && k'.tcb == k.tcb - {t} && k'.number == k.number - 1
            && (forall l :: t !in ListOf(k', l).items) && (forall e :: t !in EventsOf(k', e).items)
            && Vanishes(k, k', t) && Leaves(k, k', t) && Earliest(k')
            && k' == k.(tcb := k'.tcb, lists := k'.lists, events := k'.events, number := k'.number,
                nextUnblock := k'.nextUnblock)
  {
    var k' := Deleted(k, t);
    hide TakeOut, ListsOk, EventsOk, TimeOk, NoneDue, ListOf, ResetNextUnblock, Deleted, PrioritiesOk, CountsOk,
      BlockedOk, Vanishes, Leaves, Earliest;
    DeletedVanishes(k, t);
    ResetFields(k');
    SameVanishing(k, k', ResetNextUnblock(k'), t);
    SameOrder(k, k', ResetNextUnblock(k'), t);
    DeletedRest(k, t);
    DeletedEffect(k, t);
    ForgottenTime(k, t, k');
    NonePendingFrame(k, k');
    ResetInv(k');
    DeleteOtherIs(k, t);
    hide EventsOf;
    OnNoList(ResetNextUnblock(k'), t);
  }

  /** `t` is off every state list; every other member keeps its place. */
  ghost predicate Vanishes(k: State, k': State, t: Task) {
    forall m {:trigger ListOf(k', m)} :: ListOf(k', m) == Drop(ListOf(k, m), t)
  }

  lemma SameVanishing(k: State, k1: State, k2: State, t: Task)
    requires k2.lists == k1.lists
    ensures Vanishes(k, k1, t) ==> Vanishes(k, k2, t)
  {
    hide Drop;
    assert forall m :: ListOf(k2, m) == ListOf(k1, m);
  }

  lemma TakenOutVanishes(k: State, t: Task)
    requires ListsOk(k.lists, k.tcb, {}) && EventsOk(k.events, k.tcb) && t in k.tcb
    ensures Vanishes(k, TakeOut(k, t), t)
  {
    ElsewhereNot(k, t);
    hide ListsOk, EventsOk, Remove;
  }

  lemma DeletedVanishes(k: State, t: Task)
    requires ListsOk(k.lists, k.tcb, {}) && EventsOk(k.events, k.tcb) && t in k.tcb
    ensures Vanishes(k, Deleted(k, t), t) && Leaves(k, Deleted(k, t), t)
  {
    TakenOutVanishes(k, t);
    SameVanishing(k, TakeOut(k, t), Deleted(k, t), t);
    ElsewhereNot(k, t);
    hide ListsOk, EventsOk, Remove, Vanishes;
  }

  lemma ResetFields(k: State)
    ensures ResetNextUnblock(k) == k.(nextUnblock := ResetNextUnblock(k).nextUnblock)
  {
  }

  lemma DeleteOtherIs(k: State, t: Task)
    requires t != k.current
    ensures Delete(k, t) == ResetNextUnblock(Deleted(k, t))
  {
  }

  /** The idle task frees the task that has been terminated longest, and only that one. */
  lemma CleanUpInv(k: State)
    requires Inv(k) && ListOf(k, Terminated).items != [] && k.tcb[k.current].stateIn != Terminated
    ensures Inv(CleanUp(k))
    ensures var k' := CleanUp(k);
            var t := ListOf(k, Terminated).items[0];
            && t in k.tcb && k'.tcb == k.tcb - {t} && Vanishes(k, k', t)
            && k' == k.(tcb := k'.tcb, lists := k'.lists, number := k.number - 1, cleanup := k.cleanup - 1)
  {
    CleanUpEffect(k);
    CleanUpKept(k);
  }

  lemma CleanUpEffect(k: State)
    requires Inv(k) && ListOf(k, Terminated).items != []
    ensures k.cleanup > 0 && k.number > 0
    ensures var k' := CleanUp(k);
            var t := ListOf(k, Terminated).items[0];
            && t in k.tcb && k'.tcb == k.tcb - {t} && Vanishes(k, k', t)
            && k' == k.(tcb := k'.tcb, lists := k'.lists, number := k.number - 1, cleanup := k.cleanup - 1)
  {
    var t := ListOf(k, Terminated).items[0];
    assert t in At(k.lists, Terminated).items;
    TakenOutVanishes(k, t);
    SameVanishing(k, TakeOut(k, t), CleanUp(k), t);
    assert |k.tcb| > 0;
    hide ListsOk, EventsOk, TimeOk, NoneDue, Drop, Vanishes;
  }

  lemma CleanUpRest(k: State)
    requires Core(k) && ListOf(k, Terminated).items != [] && k.tcb[k.current].stateIn != Terminated
    ensures k.cleanup > 0
    ensures var k' := CleanUp(k);
            PrioritiesOk(k'.tcb, k'.top) && CountsOk(k') && BlockedOk(k'.tcb)
  {
    var t := ListOf(k, Terminated).items[0];
    assert t in At(k.lists, Terminated).items;
    RemoveFacts(ListOf(k, Terminated), t);
    assert ListOf(CleanUp(k), Terminated) == Remove(ListOf(k, Terminated), t);
    ForgetCounts(k.tcb, t);
    hide ListsOk, EventsOk, TimeOk, Remove;
  }

  lemma CleanUpKept(k: State)
    requires Inv(k) && ListOf(k, Terminated).items != [] && k.tcb[k.current].stateIn != Terminated
    ensures k.cleanup > 0 && Inv(CleanUp(k))
  {
    var t := ListOf(k, Terminated).items[0];
    var k' := CleanUp(k);
    CleanUpRest(k);
    assert t in At(k.lists, Terminated).items;
    hide TakeOut, ListsOk, EventsOk, TimeOk, NoneDue, PrioritiesOk, CountsOk, BlockedOk, ListOf;
    WaitsForNothing(k, t);
    TakeOutOk(k, t);
    TakeOutFrame(k, t);
    ForgetPlaced(TakeOut(k, t), t);
    ForgottenTime(k, t, k');
    NonePendingFrame(k, k');
  }

  lemma WaitsForNothing(k: State, t: Task)
    requires Core(k) && t in At(k.lists, Terminated).items
    ensures t in k.tcb && k.tcb[t].eventIn == NoEvent
  {
  }

  function SelfDeleted(k: State): State {
    Requeue(k, k.current, Terminated).(cleanup := k.cleanup + 1)
  }

  lemma SelfDeletedRest(k: State)
    requires Core(k) && k.tcb[k.current].stateIn != Terminated
    ensures var k' := SelfDeleted(k);
            && PrioritiesOk(k'.tcb, k'.top) && CountsOk(k') && BlockedOk(k'.tcb)
            && forall t :: t in k'.tcb && k'.tcb[t].eventIn == Pending ==> t in k.tcb && k.tcb[t].eventIn == Pending
  {
    var t := k.current;
    hide Requeue, ListsOk, EventsOk, TimeOk, TakeOut, At;
    RequeueEffect(k, t, Terminated);
    RequeuedTerminated(k, t);
    assert Requeue(k, t, Terminated).tcb.Keys == k.tcb.Keys;
  }

  lemma RequeuedTerminated(k: State, t: Task)
    requires t in k.tcb && k.tcb[t].stateIn != Terminated
    ensures ListOf(Requeue(k, t, Terminated), Terminated) == InsertEnd(ListOf(k, Terminated), t)
  {
  }

  lemma SelfDeletedTime(k: State)
    requires TimeOk(k) && NoneDue(k) && k.current in k.tcb
    ensures TimeOk(SelfDeleted(k)) && NoneDue(SelfDeleted(k))
  {
    hide Requeue, TimeOk, NoneDue;
    RequeueTime(k, k.current, Terminated);
    CleanupTime(Requeue(k, k.current, Terminated), k.cleanup + 1);
  }

  lemma CleanupTime(k: State, n: nat)
    requires TimeOk(k) && NoneDue(k)
    ensures TimeOk(k.(cleanup := n)) && NoneDue(k.(cleanup := n))
  {
  }

  /** A task that deletes itself stays live on the termination list. */
  lemma DeleteSelfInv(k: State)
    requires Inv(k) && k.tcb[k.current].stateIn != Terminated
    ensures Inv(Delete(k, k.current))
    ensures var k' := Delete(k, k.current);
            && k'.tcb == k.tcb[k.current := k.tcb[k.current].(stateIn := Terminated, eventIn := NoEvent)]
            && k.current in ListOf(k', Terminated).items && Moves(k, k', k.current, Terminated)
            && Leaves(k, k', k.current)
            && k' == k.(tcb := k'.tcb, lists := k'.lists, events := k'.events, cleanup := k.cleanup + 1,
                yieldAsked := true)
  {
    var k1 := Requeue(k, k.current, Terminated);
    var k2 := SelfDeleted(k);
    assert k.current in k.tcb;
    hide Requeue, TakeOut, ListsOk, EventsOk, TimeOk, NoneDue, PrioritiesOk, CountsOk, BlockedOk, Moves, Leaves;
    RequeuePlaced(k, k.current, Terminated);
    RequeueMoves(k, k.current, Terminated);
    SameOrder(k, k1, Delete(k, k.current), k.current);
    SelfDeletedRest(k);
    SelfDeletedTime(k);
    RequeueEffect(k, k.current, Terminated);
    NonePendingFrame(k, k2);
    FlagsInv(k2, Delete(k, k.current));
    OnItsStateList(Delete(k, k.current), k.current);
  }

  // ----- choosing the running task

  lemma ReadyLive(k: State, p: nat, t: Task)
    requires ListsOk(k.lists, k.tcb, {}) && t in ListOf(k, Ready(p)).items
    ensures t in k.tcb && k.tcb[t].stateIn == Ready(p)
  {
    assert t in At(k.lists, Ready(p)).items;
  }

  /** No ready list above xTopReadyPriority has a member. */
  lemma TopBounds(k: State, p: nat)
    requires ListsOk(k.lists, k.tcb, {}) && PrioritiesOk(k.tcb, k.top) && ListOf(k, Ready(p)).items != []
    ensures p <= k.top < MAX_PRIORITIES
  {
    ReadyLive(k, p, ListOf(k, Ready(p)).items[0]);
  }

  /** If any task is ready the downward search finds one, of the highest ready priority. */
  lemma SearchFinds(k: State, t: Task)
    requires ListsOk(k.lists, k.tcb, {}) && PrioritiesOk(k.tcb, k.top) && IsReady(k, t)
    ensures var p := HighestReady(k, k.top);
            p >= k.tcb[t].priority && ListOf(k, Ready(p)).items != []
  {
    var q := k.tcb[t].priority;
    assert t in At(k.lists, Ready(q)).items;
    assert q <= k.top && t in ListOf(k, Ready(q)).items;
  }

  ghost predicate SomeReady(k: State) {
    exists t :: IsReady(k, t)
  }

  lemma SelectedLive(k: State)
    requires ListsOk(k.lists, k.tcb, {}) && PrioritiesOk(k.tcb, k.top) && SomeReady(k)
    ensures ListOf(k, Ready(HighestReady(k, k.top))).items != []
    ensures k.suspended == 0 ==> var k' := SwitchContext(k);
            && IsReady(k', k'.current) && k'.tcb == k.tcb
            && k'.tcb[k'.current].priority == k'.top == HighestReady(k, k.top)
            && (forall t :: IsReady(k, t) ==> k.tcb[t].priority <= k'.tcb[k'.current].priority)
  {
    var t :| IsReady(k, t);
    SearchFinds(k, t);
    forall t | IsReady(k, t)
      ensures k.tcb[t].priority <= HighestReady(k, k.top)
    {
      SearchFinds(k, t);
    }
    var p := HighestReady(k, k.top);
    var r := Advance(ListOf(k, Ready(p)));
    assert Selected(r) in ListOf(k, Ready(p)).items;
    ReadyLive(k, p, Selected(r));
  }

  lemma SwitchPlaced(k: State)
    requires ListsOk(k.lists, k.tcb, {}) && PrioritiesOk(k.tcb, k.top) && SomeReady(k) && k.suspended == 0
    ensures ListsOk(SelectedLists(k), k.tcb, {})
  {
    SelectedLive(k);
    hide ListsOk, SwitchContext;
    SameItems(k.lists, Ready(HighestReady(k, k.top)), k.tcb);
  }

  function SelectedLists(k: State): StateLists {
    var p := HighestReady(k, k.top);
    if ListOf(k, Ready(p)).items == [] then k.lists else k.lists[Ready(p) := Advance(ListOf(k, Ready(p)))]
  }

  lemma SameItems(lists: StateLists, l: StateList, tcb: Tcbs)
    requires ListsOk(lists, tcb, {}) && At(lists, l).items != []
    ensures ListsOk(lists[l := Advance(At(lists, l))], tcb, {})
  {
    AtUpdate(lists, l, Advance(At(lists, l)));
    AtUpdateUnique(lists, l, Advance(At(lists, l)));
    assert Advance(At(lists, l)).items == At(lists, l).items;
    hide At, Advance, NoDup;
  }

  lemma SwitchRest(k: State)
    requires PrioritiesOk(k.tcb, k.top) && CountsOk(k) && ListsOk(k.lists, k.tcb, {}) && SomeReady(k)
             && k.suspended == 0
    requires ListOf(k, Ready(HighestReady(k, k.top))).items != []
    ensures PrioritiesOk(k.tcb, SwitchContext(k).top) && CountsOk(SwitchContext(k))
  {
    SelectedLive(k);
    var k' := SwitchContext(k);
    forall t | t in k.tcb && k.tcb[t].stateIn.Ready?
      ensures k.tcb[t].priority <= k'.top
    {
      assert IsReady(k, t);
    }
  }

  lemma SwitchTime(k: State)
    requires TimeOk(k) && NoneDue(k) && ListOf(k, Ready(HighestReady(k, k.top))).items != [] && k.suspended == 0
    ensures TimeOk(SwitchContext(k)) && NoneDue(SwitchContext(k))
  {
    var k' := SwitchContext(k);
    assert ListOf(k', DelayA) == ListOf(k, DelayA) && ListOf(k', DelayB) == ListOf(k, DelayB);
    hide TimeOk, NoneDue, Window, SwitchContext;
    TimeShrinks(k, k', 0);
  }

  /** The index of the list of the task selected has moved on by one, to that task, which no
      ready task outranks. */
  ghost predicate TakesTurn(k: State, k': State) {
    && IsReady(k, k'.current) && (forall t :: IsReady(k, t) ==> Priority(k, t) <= Priority(k, k'.current))
    && var l := Ready(Priority(k, k'.current));
       && ListOf(k, l).items != [] && ListOf(k', l) == Advance(ListOf(k, l))
       && k'.current == Selected(Advance(ListOf(k, l)))
       && forall m :: m != l ==> ListOf(k', m) == ListOf(k, m)
  }

  lemma SwitchTurns(k: State)
    requires Inv(k) && SomeReady(k) && k.suspended == 0
    ensures ListOf(k, Ready(HighestReady(k, k.top))).items != [] && TakesTurn(k, SwitchContext(k))
  {
    SelectedLive(k);
    hide ListsOk, EventsOk, TimeOk, NoneDue, PrioritiesOk, CountsOk, BlockedOk, HighestReady, Advance;
  }

  /** While the scheduler is suspended the switch is put off; otherwise the next task, in turn, of
      the highest ready priority runs, no request is left, and nothing else changes. */
  lemma SwitchContextInv(k: State)
    requires Inv(k) && SomeReady(k)
    ensures k.suspended == 0 ==> ListOf(k, Ready(HighestReady(k, k.top))).items != []
    ensures Inv(SwitchContext(k))
    ensures var k' := SwitchContext(k);
            if k.suspended > 0 then k' == k.(yieldPending := true, yieldAsked := false)
            else k' == k.(current := k'.current, top := k'.top, lists := k'.lists, yieldPending := false,
                     yieldAsked := false)
                 && TakesTurn(k, k')
  {
    if k.suspended == 0 {
      SwitchTurns(k);
    }
    SelectedLive(k);
    if k.suspended > 0 {
      FlagsInv(k, SwitchContext(k));
    } else {
      SwitchPlaced(k);
      SwitchRest(k);
      SwitchTime(k);
      hide ListsOk, EventsOk, TimeOk, NoneDue, PrioritiesOk, CountsOk, BlockedOk, HighestReady;
      assert SwitchContext(k).lists == SelectedLists(k);
    }
  }

  // ----- priorities

  lemma ReadyMove(k: State, t: Task)
    requires TcbOf(k, t).eventIn == NoEvent
    ensures AddToReady(TakeOut(k, t), t) == MakeReady(k, t) && MakeReady(k, t).events == k.events
  {
    hide Drop, InsertEnd, At;
  }

  /** A ready task goes to the end of the ready list of priority `p`; no other list item moves. */
  ghost predicate MovesIfReady(k: State, k': State, t: Task, p: nat) {
    if t in k.tcb && k.tcb[t].stateIn.Ready? then Moves(k, k', t, Ready(p)) else k'.lists == k.lists
  }

  lemma SameMoves(k: State, k1: State, k2: State, t: Task)
    requires k2.lists == k1.lists
    ensures forall p :: MovesIfReady(k, k1, t, p) ==> MovesIfReady(k, k2, t, p)
  {
    hide InsertEnd, Drop;
    assert forall m :: ListOf(k2, m) == ListOf(k1, m);
  }

  lemma SameMovesBefore(k: State, k1: State, k2: State, t: Task)
    requires k1.lists == k.lists && t in k.tcb && t in k1.tcb && k1.tcb[t].stateIn == k.tcb[t].stateIn
    ensures forall p :: MovesIfReady(k1, k2, t, p) ==> MovesIfReady(k, k2, t, p)
  {
    hide InsertEnd, Drop;
    assert forall m :: ListOf(k1, m) == ListOf(k, m);
  }

  /** Raising or lowering the priority in use, wherever the task is. */
  lemma ReprioritisedOk(k: State, t: Task, p: nat)
    requires Inv(k) && t in k.tcb && p < MAX_PRIORITIES
    ensures var k1 := SetTcb(k, t, k.tcb[t].(priority := p));
            && ListsOk(k1.lists, k1.tcb, {}) && EventsOk(k1.events, k1.tcb) && TimeOk(k1) && NoneDue(k1)
            && PrioritiesBut(k1.tcb, k1.top, t) && CountsOk(k1) && BlockedOk(k1.tcb) && NonePending(k1)
            && (!k.tcb[t].stateIn.Ready? ==> PrioritiesOk(k1.tcb, k1.top))
  {
    hide ListsOk, EventsOk, TimeOk, NoneDue;
    var k1 := SetTcb(k, t, k.tcb[t].(priority := p));
    assert k1.tcb.Keys == k.tcb.Keys;
    ListsFrame(k.lists, k.tcb, k1.tcb, {});
    EventsFrame(k.events, k.tcb, k1.tcb);
    EventValueTime(k, k1);
  }

  lemma ReprioritiseInv(k: State, t: Task, p: nat)
    requires Inv(k) && t in k.tcb && p < MAX_PRIORITIES
    ensures Inv(Reprioritise(k, t, p))
    ensures var k' := Reprioritise(k, t, p);
            var b := k.tcb[t];
            && k'.tcb == k.tcb[t := b.(priority := p, stateIn := if b.stateIn.Ready? then Ready(p) else b.stateIn)]
            && MovesIfReady(k, k', t, p)
            && k' == k.(tcb := k'.tcb, lists := k'.lists, top := k'.top)
  {
    hide ListsOk, EventsOk, TimeOk, NoneDue, CountsOk, BlockedOk, NonePending, PrioritiesOk, PrioritiesBut, AddToReady,
      TakeOut, MakeReady, Moves, Leaves;
    var k1 := SetTcb(k, t, k.tcb[t].(priority := p));
    ReadyFacts(k, t);
    ReprioritisedOk(k, t, p);
    if k.tcb[t].stateIn.Ready? {
      ReadyMove(k1, t);
      ReadyMoved(k1, t);
      MakeReadyEffect(k1, t);
      MakeReadyMoves(k1, t);
      SameOrderBefore(k, k1, MakeReady(k1, t), t);
      assert k1.tcb[t := k1.tcb[t].(stateIn := Ready(p), eventIn := NoEvent)]
          == k.tcb[t := k.tcb[t].(priority := p, stateIn := Ready(p))];
    }
  }

  lemma ReadyFacts(k: State, t: Task)
    requires Inv(k) && t in k.tcb
    ensures k.tcb[t].stateIn.Ready? ==> k.tcb[t].stateIn == Ready(k.tcb[t].priority) && k.tcb[t].eventIn == NoEvent
    ensures k.current in k.tcb
  {
  }

  lemma ReadyMoved(k: State, t: Task)
    requires ListsOk(k.lists, k.tcb, {}) && EventsOk(k.events, k.tcb) && TimeOk(k) && NoneDue(k) && NonePending(k)
    requires PrioritiesBut(k.tcb, k.top, t) && CountsOk(k) && BlockedOk(k.tcb)
    requires t in k.tcb && k.tcb[t].stateIn.Ready?
    ensures Inv(MakeReady(k, t))
  {
    hide ListsOk, EventsOk, TimeOk, NoneDue, PrioritiesOk, PrioritiesBut, CountsOk, BlockedOk, Requeue, MakeReady;
    MakeReadyIs(k, t);
    var p := k.tcb[t].priority;
    var k1 := RaiseTop(k, p);
    RaisedTop(k, t);
    RequeuePlaced(k1, t, Ready(p));
    RequeueTime(k1, t, Ready(p));
    RequeueRest(k1, t, Ready(p));
    RequeueEffect(k1, t, Ready(p));
    NonePendingFrame(k, MakeReady(k, t));
  }

  lemma RaisedTop(k: State, t: Task)
    requires TimeOk(k) && NoneDue(k) && PrioritiesBut(k.tcb, k.top, t) && CountsOk(k) && t in k.tcb
    ensures var k1 := RaiseTop(k, k.tcb[t].priority);
            TimeOk(k1) && NoneDue(k1) && PrioritiesBut(k1.tcb, k1.top, t) && CountsOk(k1)
  {
  }

  /** The item value that follows a change of priority to `p`: one that is in use stays. */
  function Following(b: Tcb, p: nat): nat {
    if InUse(b.eventValue) then b.eventValue else MAX_PRIORITIES - Min(p, MAX_PRIORITIES)
  }

  lemma ResetEventValueInv(k: State, t: Task, p: nat)
    requires Inv(k) && t in k.tcb
    ensures Inv(ResetEventValue(k, t, p))
    ensures ResetEventValue(k, t, p) == SetTcb(k, t, k.tcb[t].(eventValue := Following(k.tcb[t], p)))
  {
    var v := Following(k.tcb[t], p);
    hide InUse, Inv;
    PriorityBounds(k, t);
    EditInv(k, t, k.tcb[t].(eventValue := v));
    assert k.tcb[t := k.tcb[t]] == k.tcb;
    assert ResetEventValue(k, t, p) == SetTcb(k, t, k.tcb[t].(eventValue := v));
  }

  lemma CurrentLive(k: State)
    requires Inv(k)
    ensures k.current in k.tcb
  {
  }

  lemma Listed(k: State, t: Task)
    ensures Inv(k) && t in k.tcb ==> t in ListOf(k, k.tcb[t].stateIn).items
  {
    OnItsStateList(k, t);
  }

  /** Item value and priority of `t` both follow to `p`. */
  lemma RaisedInv(k: State, t: Task, p: nat)
    requires Inv(k) && t in k.tcb && p < MAX_PRIORITIES
    ensures var k' := Reprioritise(ResetEventValue(k, t, p), t, p);
            && Inv(k') && t in k'.tcb && k'.tcb == k.tcb[t := InheritedTcb(k.tcb[t], p)] && MovesIfReady(k, k', t, p)
            && k' == k.(tcb := k'.tcb, lists := k'.lists, top := k'.top)
  {
    hide Inv, Reprioritise, InUse, MovesIfReady;
    var k1 := ResetEventValue(k, t, p);
    ResetEventValueInv(k, t, p);
    ReprioritiseInv(k1, t, p);
    SameMovesBefore(k, k1, Reprioritise(k1, t, p), t);
  }

  function InheritedTcb(b: Tcb, p: nat): Tcb {
    b.(priority := p, stateIn := if b.stateIn.Ready? then Ready(p) else b.stateIn, eventValue := Following(b, p))
  }

  /** The holder of a mutex rises to the priority of the running task if it is below it, at once
      and wherever it is; otherwise nothing changes. */
  lemma InheritInv(k: State, h: Task)
    requires Inv(k) && h in k.tcb
    ensures Inv(Inherit(k, h))
    ensures var k' := Inherit(k, h);
            var p := Priority(k, k.current);
            if k.tcb[h].priority >= p then k' == k
            else k'.tcb == k.tcb[h := InheritedTcb(k.tcb[h], p)] && MovesIfReady(k, k', h, p)
                 && k' == k.(tcb := k'.tcb, lists := k'.lists, top := k'.top)
    ensures var k' := Inherit(k, h);
            && h in k'.tcb && k'.tcb[h].priority == Max(k.tcb[h].priority, Priority(k, k.current))
            && k'.tcb[h].stateIn == (if k.tcb[h].stateIn.Ready? then Ready(k'.tcb[h].priority) else k.tcb[h].stateIn)
            && k'.tcb[h].eventIn == k.tcb[h].eventIn && h in ListOf(k', k'.tcb[h].stateIn).items
  {
    var p := Priority(k, k.current);
    hide Inv, Reprioritise, ResetEventValue, MovesIfReady;
    CurrentLive(k);
    PriorityBounds(k, k.current);
    ReadyFacts(k, h);
    Listed(Inherit(k, h), h);
    if Priority(k, h) < p {
      RaisedInv(k, h, p);
    }
  }

  function ReturnedTcb(b: Tcb): Tcb {
    b.(mutexesHeld := 0, priority := b.base, stateIn := if b.stateIn.Ready? then Ready(b.base) else b.stateIn,
       eventValue := MAX_PRIORITIES - Min(b.base, MAX_PRIORITIES))
  }

  /** The running task holds one mutex less; with the last one it returns to its base priority
      if it has inherited, and its item value with it. */
  lemma DisinheritInv(k: State)
    requires Inv(k) && TcbOf(k, k.current).mutexesHeld > 0
    ensures Inv(Disinherit(k)) && k.current in k.tcb && k.tcb[k.current].base < MAX_PRIORITIES
    ensures var k' := Disinherit(k);
            var b := k.tcb[k.current];
            if b.priority != b.base && b.mutexesHeld == 1
            then k'.tcb == k.tcb[k.current := ReturnedTcb(b)] && MovesIfReady(k, k', k.current, b.base)
                 && k' == k.(tcb := k'.tcb, lists := k'.lists, top := k'.top)
            else k' == k.(tcb := k.tcb[k.current := b.(mutexesHeld := b.mutexesHeld - 1)])
  {
    var t := k.current;
    hide Inv, Reprioritise, MovesIfReady;
    CurrentLive(k);
    PriorityBounds(k, t);
    var b := k.tcb[t];
    if b.priority != b.base && b.mutexesHeld == 1 {
      var b2 := b.(mutexesHeld := 0, eventValue := MAX_PRIORITIES - Min(b.base, MAX_PRIORITIES));
      EditInv(k, t, b2);
      ReprioritiseInv(SetTcb(k, t, b2), t, b.base);
      SameMovesBefore(k, SetTcb(k, t, b2), Disinherit(k), t);
    } else {
      EditInv(k, t, b.(mutexesHeld := b.mutexesHeld - 1));
    }
  }

  /** A holder of one mutex gets the higher of its base priority and that of the highest task
      still waiting; a holder of several keeps what it has. */
  lemma DisinheritAfterTimeoutInv(k: State, h: Task, waiting: nat)
    requires Inv(k) && h in k.tcb && waiting < MAX_PRIORITIES
    ensures Inv(DisinheritAfterTimeout(k, h, waiting))
    ensures var k' := DisinheritAfterTimeout(k, h, waiting);
            var b := k.tcb[h];
            var p := Max(b.base, waiting);
            if b.mutexesHeld != 1 || b.priority == p then k' == k
            else k'.tcb == k.tcb[h := InheritedTcb(b, p)] && MovesIfReady(k, k', h, p)
                 && k' == k.(tcb := k'.tcb, lists := k'.lists, top := k'.top)
  {
    var p := Max(k.tcb[h].base, waiting);
    hide Inv, Reprioritise, ResetEventValue, MovesIfReady;
    PriorityBounds(k, h);
    RaisedInv(k, h, p);
  }

  lemma RequeuesAsBefore(k: State, t: Task)
    requires t in k.tcb
    ensures RequeueReady(k, t) == Reprioritise(k, t, k.tcb[t].priority)
  {
    hide AddToReady, TakeOut;
    assert SetTcb(k, t, k.tcb[t].(priority := k.tcb[t].priority)) == k;
  }

  lemma RequeueReadyInv(k: State, t: Task)
    requires Inv(k) && t in k.tcb
    ensures Inv(RequeueReady(k, t)) && MovesIfReady(k, RequeueReady(k, t), t, k.tcb[t].priority)
    ensures var k' := RequeueReady(k, t); k' == k.(lists := k'.lists, top := k'.top)
  {
    hide Inv, RequeueReady, Reprioritise, MovesIfReady;
    RequeuesAsBefore(k, t);
    PriorityBounds(k, t);
    ReadyFacts(k, t);
    ReprioritiseInv(k, t, k.tcb[t].priority);
    assert k.tcb[t := k.tcb[t]] == k.tcb;
  }

  /** The priority in use that vTaskPrioritySet leaves: an inherited one stays. */
  function InUseAfter(b: Tcb, p: nat): nat {
    if b.priority == b.base then p else b.priority
  }

  function RebasedTcb(b: Tcb, p: nat): Tcb {
    var q := InUseAfter(b, p);
    b.(base := p, priority := q, stateIn := if b.stateIn.Ready? then Ready(q) else b.stateIn,
       eventValue := Following(b, p))
  }

  /** vTaskPrioritySet of a task's own base priority changes nothing. Otherwise the base priority
      is the one given; so is the priority in use unless it is inherited; the item value follows
      the base; a ready task goes to the end of the ready list of the priority in use even if
      that has not changed; no other task changes. A switch is asked for if another task is
      raised to the running one's priority or above, or the running one is lowered. */
  lemma PrioritySetInv(k: State, t: Task, p: nat)
    requires Inv(k) && t in k.tcb && p < MAX_PRIORITIES
    ensures Inv(PrioritySet(k, t, p))
    ensures var k' := PrioritySet(k, t, p);
            var b := k.tcb[t];
            if p == b.base then k' == k
            else k'.tcb == k.tcb[t := RebasedTcb(b, p)] && MovesIfReady(k, k', t, InUseAfter(b, p))
                 && k' == k.(tcb := k'.tcb, lists := k'.lists, top := k'.top,
                     yieldAsked := k.yieldAsked || PrioritySetAsks(k, t, p))
  {
    hide Inv, Reprioritise, ResetEventValue, RequeueReady, MovesIfReady, InUse;
    var b := k.tcb[t];
    var k1 := ResetEventValue(SetTcb(k, t, b.(base := p)), t, p);
    var k' := PrioritySet(k, t, p);
    RebasedInv(k, t, p);
    if b.base == p {
      assert k' == k;
    } else if b.base == b.priority {
      ReprioritiseInv(k1, t, p);
      FlagsInv(Reprioritise(k1, t, p), Ask(Reprioritise(k1, t, p), PrioritySetAsks(k, t, p)));
      SameMoves(k1, Reprioritise(k1, t, p), k', t);
    } else {
      ReadyFacts(k, t);
      RequeueReadyInv(k1, t);
      FlagsInv(RequeueReady(k1, t), Ask(RequeueReady(k1, t), PrioritySetAsks(k, t, p)));
      SameMoves(k1, RequeueReady(k1, t), k', t);
    }
    SameMovesBefore(k, k1, k', t);
  }

  lemma RebasedInv(k: State, t: Task, p: nat)
    requires Inv(k) && t in k.tcb && p < MAX_PRIORITIES
    ensures var b := k.tcb[t];
            var k1 := ResetEventValue(SetTcb(k, t, b.(base := p)), t, p);
            Inv(k1) && t in k1.tcb && k1 == k.(tcb := k.tcb[t := b.(base := p, eventValue := Following(b, p))])
  {
    hide Inv, ResetEventValue, InUse;
    var k0 := SetTcb(k, t, k.tcb[t].(base := p));
    EditInv(k, t, k.tcb[t].(base := p));
    ResetEventValueInv(k0, t, p);
  }

  predicate PrioritySetAsks(k: State, t: Task, p: nat) {
    if p > TcbOf(k, t).base then t != k.current && p >= Priority(k, k.current) else t == k.current
  }
}
