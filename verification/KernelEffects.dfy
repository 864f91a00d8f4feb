/** What blocking does to the caller, in which order tasks wake up, and how long a suspended task
    stays suspended. */
module KernelEffects {
  import opened Words
  import opened Lists
  import opened Kernel
  import opened KernelInvariants
  import opened KernelTime
  import opened KernelOps
  import opened KernelRuns

  // ----- blocking

  predicate Forever(op: Op) {
    Blocks(op) && !Finite(op)
  }

  /** `t` joins the list in front of the first member whose wake time is later than `wake`, and
      behind all the others. */
  ghost predicate JoinsByTime(tcb: Tcbs, r: TaskList, r': TaskList, t: Task, wake: nat) {
    exists p: nat ::
      && p <= |r.items| && r' == InsertAt(r, t, p)
      && (forall x :: x in r.items[..p] ==> TcbIn(tcb, x).stateValue <= wake)
      && (forall x :: x in r.items[p..] ==> TcbIn(tcb, x).stateValue > wake)
  }

  /** `t` joins the list directly in front of the first member with a higher item value, that is
      of a lower priority. */
  ghost predicate JoinsByValue(tcb: Tcbs, r: TaskList, r': TaskList, t: Task, value: nat) {
    exists p: nat ::
      && p <= |r.items| && r' == InsertAt(r, t, p)
      && (forall x :: x in r.items[..p] ==> TcbIn(tcb, x).eventValue <= value)
      && (p < |r.items| ==> TcbIn(tcb, r.items[p]).eventValue > value)
  }

  /** The caller leaves its ready list: for the end of the suspended list if it blocks for ever,
      else for its place on a delay list. Every other member of every list keeps its place. */
  ghost predicate FallsAsleep(k: State, k': State, forever: bool)
    requires k.current in k'.tcb
  {
    var t := k.current;
    var l := k'.tcb[t].stateIn;
    if forever then l == Suspended && Moves(k, k', t, Suspended)
    else (l == DelayA || l == DelayB)
         && (forall m :: m != l ==> ListOf(k', m) == Drop(ListOf(k, m), t))
         && JoinsByTime(k.tcb, ListOf(k, l), ListOf(k', l), t, k'.tcb[t].stateValue)
  }

  /** Where the caller waits for its event. */
  ghost predicate Queues(k: State, k': State, op: Op) {
    if !Blocks(op) || op.Sleep? then k'.events == k.events
    else
      var e := Waiters(op.id);
      && (forall x :: x != e ==> EventsOf(k', x) == EventsOf(k, x))
      && if op.Wait? then JoinsByValue(k.tcb, EventsOf(k, e), EventsOf(k', e), k.current, OwnValue(k))
         else EventsOf(k', e) == InsertEnd(EventsOf(k, e), k.current)
  }

  function OwnValue(k: State): nat {
    TcbOf(k, k.current).eventValue
  }

  lemma TakenFromReady(k: State, m: StateList)
    requires ListsOk(k.lists, k.tcb, {}) && k.current in k.tcb
    ensures ListOf(TakeOut(k, k.current), m) == Drop(ListOf(k, m), k.current)
    ensures k.current !in ListOf(k, m).items ==> ListOf(TakeOut(k, k.current), m) == ListOf(k, m)
  {
    assert k.current in At(k.lists, m).items <==> k.tcb[k.current].stateIn == m;
    hide ListsOk, Lists.Remove;
  }

  lemma BehindPlace(vs: seq<nat>, v: nat)
    requires Sorted(vs)
    ensures forall i :: SortedPos(vs, v) <= i < |vs| ==> vs[i] > v
  {
    SortedInsert(vs, v);
  }

  lemma WindowSorted(k: State, s: seq<Task>, lo: int, hi: int)
    requires Window(k.tcb, s, lo, hi)
    ensures Sorted(StateValues(k, s))
  {
  }

  /** The place that the sorted insertion finds. */
  lemma TimePlace(k: State, r: TaskList, t: Task, wake: nat, lo: int, hi: int)
    requires Window(k.tcb, r.items, lo, hi)
    ensures JoinsByTime(k.tcb, r, InsertAt(r, t, SortedPos(StateValues(k, r.items), wake)), t, wake)
  {
    var vs := StateValues(k, r.items);
    var p := SortedPos(vs, wake);
    WindowSorted(k, r.items, lo, hi);
    BehindPlace(vs, wake);
    hide Window, Sorted, SortedPos, InsertAt, StateValues;
    forall x | x in r.items[p..]
      ensures TcbIn(k.tcb, x).stateValue > wake
    {
      var i :| p <= i < |r.items| && r.items[i] == x;
      assert vs[i] > wake;
    }
    forall x | x in r.items[..p]
      ensures TcbIn(k.tcb, x).stateValue <= wake
    {
      var i :| 0 <= i < p && r.items[i] == x;
      assert vs[i] <= wake;
    }
  }

  lemma ValuePlace(k: State, r: TaskList, t: Task, v: nat)
    ensures JoinsByValue(k.tcb, r, InsertAt(r, t, SortedPos(EventValues(k, r.items), v)), t, v)
  {
    var vs := EventValues(k, r.items);
    var p := SortedPos(vs, v);
    hide SortedPos, InsertAt;
    forall x | x in r.items[..p]
      ensures TcbIn(k.tcb, x).eventValue <= v
    {
      var i :| 0 <= i < p && r.items[i] == x;
      assert vs[i] <= v;
    }
  }

  lemma DelayWindows(k: State)
    requires TimeOk(k)
    ensures Window(k.tcb, Delayed(k), k.tickCount, MAX_DELAY) && Window(k.tcb, Overflow(k), 0, k.tickCount - 1)
  {
  }

  lemma DelayedListAfter(k: State, ticks: nat, canBlock: bool, m: StateList)
    requires ListsOk(k.lists, k.tcb, {}) && k.current in k.tcb && k.tcb[k.current].stateIn.Ready?
    ensures var l := SleepList(k, ticks, canBlock);
            var wake := Wrap(k.tickCount + ticks);
            ListOf(DelayCurrent(k, ticks, canBlock), m)
            == if m != l then Drop(ListOf(k, m), k.current)
               else if l == Suspended then InsertEnd(Drop(ListOf(k, m), k.current), k.current)
               else InsertAt(ListOf(k, m), k.current, SortedPos(StateValues(k, ListOf(k, m).items), wake))
  {
    hide ListsOk, DelayCurrent, TakeOut, Drop, InsertAt, SortedPos, StateValuesIn, Wrap;
    DelayLists(k, ticks, canBlock, m);
    TakenFromReady(k, m);
    TakeOutFrame(k, k.current);
    if !m.Ready? {
      NotThere(k, m);
    }
  }

  lemma DelayForever(k: State)
    requires ListsOk(k.lists, k.tcb, {}) && k.current in k.tcb && k.tcb[k.current].stateIn.Ready?
    ensures Moves(k, DelayCurrent(k, MAX_DELAY, true), k.current, Suspended)
  {
    hide ListsOk, DelayCurrent, Drop, InsertEnd, ListOf, Wrap;
    var k' := DelayCurrent(k, MAX_DELAY, true);
    forall m
      ensures ListOf(k', m)
              == if m == Suspended then InsertEnd(Drop(ListOf(k, m), k.current), k.current)
                 else Drop(ListOf(k, m), k.current)
    {
      DelayedListAfter(k, MAX_DELAY, true, m);
    }
  }

  lemma DelayUntil(k: State, ticks: nat, canBlock: bool)
    requires ListsOk(k.lists, k.tcb, {}) && TimeOk(k) && k.current in k.tcb && k.tcb[k.current].stateIn.Ready?
    requires !(ticks == MAX_DELAY && canBlock)
    ensures var k' := DelayCurrent(k, ticks, canBlock);
            var l := SleepList(k, ticks, canBlock);
            && (forall m :: m != l ==> ListOf(k', m) == Drop(ListOf(k, m), k.current))
            && JoinsByTime(k.tcb, ListOf(k, l), ListOf(k', l), k.current, Wrap(k.tickCount + ticks))
  {
    DelayWindows(k);
    hide ListsOk, TimeOk, DelayCurrent, Drop, InsertAt, ListOf, Wrap, JoinsByTime, Window, StateValues, SortedPos;
    var l := SleepList(k, ticks, canBlock);
    forall m
      ensures m != l ==> ListOf(DelayCurrent(k, ticks, canBlock), m) == Drop(ListOf(k, m), k.current)
    {
      DelayedListAfter(k, ticks, canBlock, m);
    }
    DelayedListAfter(k, ticks, canBlock, l);
    if l == DelayedId(k) {
      TimePlace(k, ListOf(k, l), k.current, Wrap(k.tickCount + ticks), k.tickCount, MAX_DELAY);
    } else {
      TimePlace(k, ListOf(k, l), k.current, Wrap(k.tickCount + ticks), 0, k.tickCount - 1);
    }
  }

  /** The state list item, whatever is waited for. */
  lemma DelayPlaces(k: State, ticks: nat, canBlock: bool)
    requires ListsOk(k.lists, k.tcb, {}) && TimeOk(k) && k.current in k.tcb && k.tcb[k.current].stateIn.Ready?
    ensures var k' := DelayCurrent(k, ticks, canBlock);
            k.current in k'.tcb && FallsAsleep(k, k', ticks == MAX_DELAY && canBlock)
  {
    hide ListsOk, TimeOk, DelayCurrent, Drop, ListOf, Wrap, JoinsByTime, Moves;
    DelayEffect(k, ticks, canBlock);
    if ticks == MAX_DELAY && canBlock {
      DelayForever(k);
    } else {
      DelayUntil(k, ticks, canBlock);
    }
  }

  lemma NotThere(k: State, l: StateList)
    requires ListsOk(k.lists, k.tcb, {}) && k.current in k.tcb && k.tcb[k.current].stateIn != l
    ensures k.current !in ListOf(k, l).items
  {
    assert k.current in At(k.lists, l).items <==> k.tcb[k.current].stateIn == l;
  }

  /** From `k` to `k1` the caller has at most been put on an event list. */
  ghost predicate OnlyQueued(k: State, k1: State) {
    && k.current in k.tcb && k.current in k1.tcb && k1 == k.(events := k1.events, tcb := k1.tcb)
    && k1.tcb == k.tcb[k.current := k.tcb[k.current].(eventIn := k1.tcb[k.current].eventIn,
        eventValue := k1.tcb[k.current].eventValue)]
  }

  lemma QueuedReady(k: State, k1: State)
    requires Inv(k) && Running(k) && OnlyQueued(k, k1)
    ensures ListsOk(k1.lists, k1.tcb, {}) && TimeOk(k1) && k1.tcb[k.current].stateIn.Ready?
  {
    hide EventsOk, PrioritiesOk, CountsOk, BlockedOk, NonePending;
    ListsFrame(k.lists, k.tcb, k1.tcb, {});
    EventValueTime(k, k1);
  }

  lemma SameTimes(tcb: Tcbs, tcb': Tcbs, r: TaskList, r': TaskList, t: Task, wake: nat)
    requires JoinsByTime(tcb', r, r', t, wake)
    requires forall x :: TcbIn(tcb', x).stateValue == TcbIn(tcb, x).stateValue
    ensures JoinsByTime(tcb, r, r', t, wake)
  {
    hide TcbIn, InsertAt;
    var p: nat :|
      && p <= |r.items| && r' == InsertAt(r, t, p)
      && (forall x :: x in r.items[..p] ==> TcbIn(tcb', x).stateValue <= wake)
      && (forall x :: x in r.items[p..] ==> TcbIn(tcb', x).stateValue > wake);
    assert forall x :: x in r.items[..p] ==> TcbIn(tcb, x).stateValue <= wake;
  }

  lemma QueuedFalls(k: State, k1: State, ticks: nat, canBlock: bool)
    requires Inv(k) && Running(k) && OnlyQueued(k, k1)
    ensures var k' := DelayCurrent(k1, ticks, canBlock);
            k.current in k'.tcb && FallsAsleep(k, k', ticks == MAX_DELAY && canBlock)
  {
    QueuedReady(k, k1);
    DelayPlaces(k1, ticks, canBlock);
    assert forall x :: TcbIn(k1.tcb, x).stateValue == TcbIn(k.tcb, x).stateValue;
    hide Inv, Running, ListsOk, TimeOk, DelayCurrent, Drop, InsertEnd, JoinsByTime, TcbIn;
    var k' := DelayCurrent(k1, ticks, canBlock);
    assert forall m :: ListOf(k1, m) == ListOf(k, m);
    hide ListOf;
    var l := k'.tcb[k.current].stateIn;
    if !(ticks == MAX_DELAY && canBlock) {
      SameTimes(k.tcb, k1.tcb, ListOf(k, l), ListOf(k', l), k.current, k'.tcb[k.current].stateValue);
    }
  }

  lemma QueuedTcb(k: State, k1: State, ticks: nat, canBlock: bool)
    requires OnlyQueued(k, k1)
    ensures var k' := Ask(DelayCurrent(k1, ticks, canBlock), true);
            && k.current in k'.tcb && k'.events == k1.events
            && k' == k.(tcb := k'.tcb, lists := k'.lists, events := k'.events, nextUnblock := k'.nextUnblock,
                yieldAsked := true)
            && k'.tcb == k.tcb[k.current := k1.tcb[k.current].(delayAborted := false,
                stateIn := k'.tcb[k.current].stateIn, stateValue := k'.tcb[k.current].stateValue)]
  {
    DelayEffect(k1, ticks, canBlock);
    hide DelayCurrent, Wrap, SleepList;
    assert k1.tcb[k.current := Slept(k1, ticks, canBlock)] == k.tcb[k.current := Slept(k1, ticks, canBlock)];
  }

  /** What the caller is left with. */
  function BlockedTcb(k: State, op: Op, stateIn: StateList, stateValue: nat): Tcb
    requires Blocks(op)
  {
    TcbOf(k, k.current).(delayAborted := false, stateIn := stateIn, stateValue := stateValue,
        eventIn := if op.Sleep? then NoEvent else Waiters(op.id),
        eventValue := if op.WaitUnordered? then MarkInUse(op.value) else TcbOf(k, k.current).eventValue)
  }

  ghost predicate BlocksAs(k: State, op: Op, k1: State, ticks: nat, canBlock: bool)
    requires Inv(k) && Enabled(k, op) && Blocks(op)
  {
    && OnlyQueued(k, k1) && Step(k, op) == Ask(DelayCurrent(k1, ticks, canBlock), true)
    && (ticks == MAX_DELAY && canBlock <==> Forever(op)) && Queues(k, k1, op)
    && k1.tcb[k.current].eventIn == (if op.Sleep? then NoEvent else Waiters(op.id))
    && k1.tcb[k.current].eventValue == if op.WaitUnordered? then MarkInUse(op.value) else OwnValue(k)
  }

  lemma EndsQueue(k: State, v: nat, op: Op)
    requires Inv(k) && Running(k) && (op.WaitUnordered? || op.WaitRestricted?)
    ensures var k1 := PutEventEnd(SetEventValue(k, k.current, v), k.current, Waiters(op.id));
            && OnlyQueued(k, k1) && Queues(k, k1, op) && k1.tcb[k.current].eventIn == Waiters(op.id)
            && k1.tcb[k.current].eventValue == v
  {
    CurrentLive(k);
    hide Inv, InsertEnd;
  }

  lemma SortsQueue(k: State, op: Op)
    requires Inv(k) && Running(k) && op.Wait?
    ensures var k1 := PutEventSorted(k, k.current, Waiters(op.id));
            && OnlyQueued(k, k1) && Queues(k, k1, op) && k1.tcb[k.current].eventIn == Waiters(op.id)
            && k1.tcb[k.current].eventValue == OwnValue(k)
  {
    CurrentLive(k);
    ValuePlace(k, EventsOf(k, Waiters(op.id)), k.current, OwnValue(k));
    hide Inv, InsertAt, SortedPos, EventValues, JoinsByValue;
  }

  lemma BlockingForm(k: State, op: Op) returns (k1: State, ticks: nat, canBlock: bool)
    requires Inv(k) && Enabled(k, op) && Blocks(op)
    ensures BlocksAs(k, op, k1, ticks, canBlock)
  {
    hide Inv, DelayCurrent, PutEventSorted, PutEventEnd, MarkInUse, Queues;
    CurrentLive(k);
    var c := k.current;
    match op {
      case Sleep(n) =>
        assert k.tcb[c := k.tcb[c]] == k.tcb;
        k1, ticks, canBlock := k, n, false;
        SleepQueues(k, op);
      case Wait(id, n) =>
        SortsQueue(k, op);
        k1, ticks, canBlock := PutEventSorted(k, c, Waiters(id)), n, true;
      case WaitUnordered(id, v, n) =>
        EndsQueue(k, MarkInUse(v), op);
        k1, ticks, canBlock := PutEventEnd(SetEventValue(k, c, MarkInUse(v)), c, Waiters(id)), n, true;
      case WaitRestricted(id, n, indefinitely) =>
        EndsQueue(k, OwnValue(k), op);
        assert k.tcb[c := k.tcb[c]] == k.tcb;
        k1, ticks, canBlock := PutEventEnd(k, c, Waiters(id)), if indefinitely then MAX_DELAY else n, indefinitely;
    }
  }

  lemma SleepQueues(k: State, op: Op)
    requires op.Sleep?
    ensures Queues(k, k, op)
  {
  }

  /** Every way of blocking: the caller alone changes; it is on the list and at the place that
      its time asks for, waits where it asked to wait, with the value it stored, and a switch is
      asked for. A finite wait ends at the unbounded tick it began at plus its ticks. */
  lemma BlockedExact(k: State, op: Op)
    requires Inv(k) && Enabled(k, op) && Blocks(op)
    ensures var k' := Step(k, op);
            && k.current in k'.tcb && FallsAsleep(k, k', Forever(op)) && Queues(k, k', op)
            && k'.tcb == k.tcb[k.current := BlockedTcb(k, op, k'.tcb[k.current].stateIn,
                k'.tcb[k.current].stateValue)]
            && k' == k.(tcb := k'.tcb, lists := k'.lists, events := k'.events, nextUnblock := k'.nextUnblock,
                yieldAsked := true)
            && (Finite(op) ==> WakeAt(k', k.current) == k.tick + TicksOf(op))
  {
    var k1, ticks, canBlock := BlockingForm(k, op);
    if Finite(op) {
      DelayBegins(k, op);
    }
    RunsNow(k, op);
    QueuedFalls(k, k1, ticks, canBlock);
    QueuedTcb(k, k1, ticks, canBlock);
    hide Inv, Running, Step, DelayCurrent, FallsAsleep, Enabled, WakeAt, MarkInUse;
    SameFall(k, DelayCurrent(k1, ticks, canBlock), Step(k, op), Forever(op));
    SameQueues(k, k1, Step(k, op), op);
  }

  lemma RunsNow(k: State, op: Op)
    requires Enabled(k, op) && Blocks(op)
    ensures Running(k)
  {
  }

  lemma SameFall(k: State, k1: State, k2: State, forever: bool)
    requires k.current in k1.tcb && FallsAsleep(k, k1, forever) && k2.lists == k1.lists && k2.tcb == k1.tcb
    ensures FallsAsleep(k, k2, forever)
  {
    assert forall m :: ListOf(k2, m) == ListOf(k1, m);
    hide JoinsByTime, Drop, InsertEnd;
  }

  lemma SameQueues(k: State, k1: State, k2: State, op: Op)
    requires Queues(k, k1, op) && k2.events == k1.events
    ensures Queues(k, k2, op)
  {
    assert forall e :: EventsOf(k2, e) == EventsOf(k1, e);
    hide JoinsByValue, InsertEnd;
  }

  // ----- several tasks woken at once

  /** Those of `ts` that have priority `p`, in order. */
  function OfPriority(k: State, ts: seq<Task>, p: nat): seq<Task> {
    if ts == [] then [] else (if Priority(k, ts[0]) == p then [ts[0]] else []) + OfPriority(k, ts[1..], p)
  }

  /** `more` comes after every member that is to run before the one indexed, all together. */
  ghost predicate Extends(r: TaskList, r': TaskList, more: seq<Task>) {
    && r'.items == r.items[..EndPos(r)] + more + r.items[EndPos(r)..]
    && r'.index == if r.index == 0 then 0 else r.index + |more|
  }

  lemma ExtendsBoth(r: TaskList, t: Task, r': TaskList, more: seq<Task>)
    requires Extends(InsertEnd(r, t), r', more)
    ensures Extends(r, r', [t] + more)
  {
    var e := EndPos(r);
    var r1 := InsertEnd(r, t);
    assert r1.items[..e + 1] == r.items[..e] + [t] && r1.items[e + 1..] == r.items[e..];
    assert EndPos(r1) == e + 1;
  }

  lemma SamePriorities(k: State, k': State, ts: seq<Task>, p: nat)
    requires forall t :: Priority(k', t) == Priority(k, t)
    ensures OfPriority(k', ts, p) == OfPriority(k, ts, p)
  {
  }

  lemma NotReadyYet(k: State, ts: seq<Task>, p: nat)
    requires Core(k) && AllBlocked(k.tcb, ts)
    ensures forall t :: t in ts ==> t in k.tcb && k.tcb[t].stateIn != Terminated && t !in ListOf(k, Ready(p)).items
  {
    forall t | t in ts
      ensures t !in ListOf(k, Ready(p)).items
    {
      assert t in At(k.lists, Ready(p)).items <==> k.tcb[t].stateIn == Ready(p);
    }
  }

  lemma CorePlaced(k: State)
    requires Core(k)
    ensures ListsOk(k.lists, k.tcb, {}) && EventsOk(k.events, k.tcb)
  {
  }

  /** One of them: it is put behind the others of its priority that are to run before the one
      indexed. */
  lemma ReadiesOne(k: State, t: Task, p: nat)
    requires Core(k) && t in k.tcb && t !in ListOf(k, Ready(p)).items
    ensures var r' := ListOf(MakeReady(k, t), Ready(p));
            r' == if Priority(k, t) == p then InsertEnd(ListOf(k, Ready(p)), t) else ListOf(k, Ready(p))
    ensures forall x :: Priority(MakeReady(k, t), x) == Priority(k, x)
  {
    hide Core, MakeReady, ListsOk, EventsOk, InsertEnd, Lists.Remove;
    CorePlaced(k);
    MakeReadyMoves(k, t);
    MakeReadyEffect(k, t);
  }

  /** Tasks woken together are ready in the order in which they are woken, behind those already
      to run before the task indexed. */
  lemma {:induction false} WokenInOrder(k: State, ts: seq<Task>, p: nat)
    requires Core(k) && NoDup(ts) && AllBlocked(k.tcb, ts)
    ensures Extends(ListOf(k, Ready(p)), ListOf(MakeAllReady(k, ts), Ready(p)), OfPriority(k, ts, p))
    decreases ts
  {
    hide Core, MakeReady, NoDup, AllBlocked, ListOf, InsertEnd, Extends;
    if ts == [] {
      NoneExtends(ListOf(k, Ready(p)));
    } else {
      var k1 := MakeReady(k, ts[0]);
      NotReadyYet(k, ts, p);
      ReadiesOne(k, ts[0], p);
      MakeReadyCore(k, ts[0]);
      RestBlocked(k, ts);
      WokenInOrder(k1, ts[1..], p);
      SamePriorities(k, k1, ts[1..], p);
      if Priority(k, ts[0]) == p {
        ExtendsBoth(ListOf(k, Ready(p)), ts[0], ListOf(MakeAllReady(k, ts), Ready(p)), OfPriority(k, ts[1..], p));
      } else {
        assert [] + OfPriority(k, ts[1..], p) == OfPriority(k, ts[1..], p);
      }
    }
  }

  lemma NoneExtends(r: TaskList)
    ensures Extends(r, r, [])
  {
    assert r.items == r.items[..EndPos(r)] + [] + r.items[EndPos(r)..];
  }

  /** The tasks due with a tick are made ready in the order of the delayed list. */
  lemma TickOrder(k: State, p: nat) returns (due: seq<Task>)
    requires Settled(k)
    ensures due <= Delayed(Advanced(k))
    ensures forall t :: t in due <==> t in k.tcb && WakeAt(k, t) == k.tick + 1
    ensures Extends(ListOf(k, Ready(p)), ListOf(Increment(k), Ready(p)), OfPriority(k, due, p))
  {
    hide Settled, Extends, MakeAllReady, WakeAt, Delayed, NoDup, AllBlocked, SortedPos, StateValues;
    var k1 := Advanced(k);
    AdvancedSettled(k);
    ExpiredAreDue(k1);
    due := Expired(k1);
    DueNow(k);
    SamePriorities(k, k1, due, p);
    if k1.tickCount < k1.nextUnblock {
      NotYetDue(k1);
      assert due == [];
      NoneExtends(ListOf(k, Ready(p)));
    } else {
      WokenInOrder(k1, due, p);
    }
  }

  lemma AdvancedSettled(k: State)
    requires Settled(k)
    ensures Core(Advanced(k)) && Advanced(k).lists == k.lists && forall t :: Priority(Advanced(k), t) == Priority(k, t)
  {
    AdvancedCore(k);
    hide Core, NoneDue, Advanced;
  }

  lemma DueNow(k: State)
    requires Settled(k)
    ensures forall t :: Due(Advanced(k), t) <==> t in k.tcb && WakeAt(k, t) == k.tick + 1
  {
    AdvancedCore(k);
    hide Settled, Advanced, WakeAt;
    forall t
      ensures Due(Advanced(k), t) <==> t in k.tcb && WakeAt(k, t) == k.tick + 1
    {
      if t in k.tcb {
        AdvancedWakeAt(k, t);
      }
    }
  }

  /** The pending ready tasks are made ready in the order in which they became pending. */
  lemma DrainOrder(k: State, p: nat)
    requires Settled(k)
    ensures Extends(ListOf(k, Ready(p)), ListOf(DrainPending(k), Ready(p)),
                    OfPriority(k, EventsOf(k, Pending).items, p))
  {
    hide Core, NoneDue, Extends, MakeAllReady, NoDup, AllBlocked, EventsOf;
    PendingTasks(k);
    WokenInOrder(k, EventsOf(k, Pending).items, p);
    NoneExtends(ListOf(k, Ready(p)));
  }

  lemma ExtendsTwice(r: TaskList, r1: TaskList, r2: TaskList, a: seq<Task>, b: seq<Task>)
    requires Extends(r, r1, a) && Extends(r1, r2, b)
    ensures Extends(r, r2, a + b)
  {
    var e := EndPos(r);
    assert EndPos(r1) == e + |a|;
    assert r1.items[..e + |a|] == r.items[..e] + a && r1.items[e + |a|..] == r.items[e..];
    assert r.items[..e] + a + b == r.items[..e] + (a + b);
  }

  lemma {:induction false} CatchUpOrder(k: State, n: nat, p: nat) returns (more: seq<Task>)
    requires Settled(k)
    ensures Extends(ListOf(k, Ready(p)), ListOf(CatchUp(k, n), Ready(p)), more)
    decreases n
  {
    hide Settled, Extends, Increment, IncrementSwitches, ListOf, WakeAt, Ticked;
    if n == 0 {
      NoneExtends(ListOf(k, Ready(p)));
      more := [];
    } else {
      var k1 := Pend(Increment(k), IncrementSwitches(k));
      var due := TickOrder(k, p);
      CatchUpOne(k);
      PendedLists(k, p);
      var rest := CatchUpOrder(k1, n - 1, p);
      ExtendsTwice(ListOf(k, Ready(p)), ListOf(k1, Ready(p)), ListOf(CatchUp(k, n), Ready(p)),
          OfPriority(k, due, p), rest);
      more := OfPriority(k, due, p) + rest;
    }
  }

  lemma PendedLists(k: State, p: nat)
    ensures ListOf(Pend(Increment(k), IncrementSwitches(k)), Ready(p)) == ListOf(Increment(k), Ready(p))
  {
    hide Increment, IncrementSwitches;
  }

  /** xTaskResumeAll: the pending ready tasks come before those that the held-back ticks wake. */
  lemma ResumeOrder(k: State, p: nat) returns (ticked: seq<Task>)
    requires Inv(k) && k.suspended == 1
    ensures Extends(ListOf(k, Ready(p)), ListOf(ResumeAll(k), Ready(p)),
                    OfPriority(k, EventsOf(k, Pending).items, p) + ticked)
    ensures k.pended == 0 ==> ticked == []
  {
    hide Inv, Settled, Extends, CatchUp, DrainPending, EventsOf, Drained;
    var k0 := k.(suspended := 0);
    var k1 := DrainPending(k0);
    ResumeSettled(k);
    DrainPendingExact(k0);
    DrainOrder(k0, p);
    SamePriorities(k, k0, EventsOf(k, Pending).items, p);
    assert EventsOf(k0, Pending) == EventsOf(k, Pending) by {
      SameEvents(k, k0);
    }
    if k.pended == 0 {
      NoneExtends(ListOf(k1, Ready(p)));
      ticked := [];
      NothingToCatchUp(k1);
    } else {
      ticked := CatchUpOrder(k1, k.pended, p);
    }
    ExtendsTwice(ListOf(k, Ready(p)), ListOf(k1, Ready(p)), ListOf(ResumeAll(k), Ready(p)),
        OfPriority(k, EventsOf(k, Pending).items, p), ticked);
  }

  lemma SameEvents(k: State, k': State)
    requires k'.events == k.events
    ensures EventsOf(k', Pending) == EventsOf(k, Pending)
  {
  }

  lemma NothingToCatchUp(k: State)
    ensures CatchUp(k, 0) == k
  {
  }

  // ----- the running task's own item value

  /** The item value stands for the priority again; nothing else changes. */
  lemma ResetItemExact(k: State)
    requires Inv(k)
    ensures var k' := ResetItem(k);
            && k.current in k'.tcb && k'.tcb[k.current].eventValue + Priority(k, k.current) == MAX_PRIORITIES
            && k' == k.(tcb := k.tcb[k.current := k.tcb[k.current].(eventValue := k'.tcb[k.current].eventValue)])
  {
    CurrentLive(k);
    PriorityBounds(k, k.current);
    hide Inv;
  }

  // ----- suspended tasks

  /** `t` is on the suspended list and waits on `e`, if at all: it was suspended, or it blocks for
      ever. */
  ghost predicate Parked(k: State, t: Task, e: EventList) {
    t in k.tcb && k.tcb[t].stateIn == Suspended && k.tcb[t].eventIn == e && e != Pending
  }

  /** The actions that end it. Suspending it once more and aborting a delay it does not have do
      nothing to a task that waits for nothing, nor does resuming one that waits. */
  ghost predicate Releases(k: State, op: Op, t: Task, e: EventList)
    requires Enabled(k, op)
  {
    && Target(k, op) == t
    && (op.Remove? || if e == NoEvent then op.Continue?
                      else op.Wake? || op.WakeUnordered? || op.Abort? || op.Halt?)
  }

  lemma ParkedTick(k: State, k': State, n: nat, t: Task, e: EventList)
    requires Ticked(k, k', n) && Parked(k, t, e)
    ensures Parked(k', t, e)
  {
  }

  lemma ParkedDrain(k: State, k': State, t: Task, e: EventList)
    requires Drained(k, k') && Parked(k, t, e)
    ensures Parked(k', t, e)
  {
    hide WakeAt;
  }

  lemma ParkedTime(k: State, op: Op, t: Task, e: EventList)
    requires Inv(k) && Enabled(k, op) && (op.Tick? || Outermost(k, op)) && Parked(k, t, e)
    ensures Parked(Step(k, op), t, e) && Step(k, op).current == k.current
  {
    hide Inv, Ticked, Drained, SysTick, ResumeAll, DrainPending, DueReaches, Contended;
    if op.Tick? {
      SysTickInv(k);
      if k.suspended == 0 {
        ParkedTick(k, SysTick(k), 1, t, e);
      }
    } else {
      var k0 := k.(suspended := 0);
      ResumeAllExact(k);
      ParkedDrain(k0, DrainPending(k0), t, e);
      ParkedTick(DrainPending(k0), ResumeAll(k), k.pended, t, e);
    }
  }

  lemma WaiterNamed(k: State, op: Op)
    requires Inv(k) && Enabled(k, op) && (op.Wake? || op.WakeUnordered? || op.Collect?)
    ensures var x := Target(k, op);
            x in k.tcb && if op.Collect? then k.tcb[x].stateIn == Terminated else k.tcb[x].eventIn.Waiters?
  {
    if op.Wake? {
      HeadWaits(k, Waiters(op.id));
    } else if op.Collect? {
      CleanUpEffect(k);
      TerminatedHead(k);
    }
  }

  /** An action that names a parked task without releasing it. */
  lemma ParkedNamed(k: State, op: Op, t: Task, e: EventList)
    requires Inv(k) && Enabled(k, op) && Parked(k, t, e) && !Releases(k, op, t, e) && Target(k, op) == t
    requires op.Wake? || op.WakeUnordered? || op.New? || op.Remove? || op.Collect? || op.Halt? || op.Continue?
             || op.Abort?
    ensures Parked(Step(k, op), t, e)
  {
    hide Inv, Kernel.Suspend, Resume, AbortDelay, CleanUp, Create, Delete, RemoveFromEventList, RemoveFromUnordered,
      Moves, Leaves, ListOf, EventsOf;
    if op.Wake? || op.WakeUnordered? || op.Collect? {
      WaiterNamed(k, op);
    } else if op.Halt? {
      SuspendInv(k, t);
    } else if op.Continue? {
      ResumeInv(k, t);
    } else if op.Abort? {
      AbortDelayInv(k, t);
    }
  }

  lemma StepParked(k: State, op: Op, t: Task, e: EventList)
    requires Inv(k) && Enabled(k, op) && Parked(k, t, e) && !Releases(k, op, t, e)
    ensures Parked(Step(k, op), t, e)
  {
    hide Inv, Step, Releases, OnlyTouches, Running, EventsOf, ListOf, SomeReady;
    if op.Tick? || Outermost(k, op) {
      ParkedTime(k, op, t, e);
    } else {
      StepTouches(k, op);
      if Target(k, op) != t {
        ParkedElsewhere(k, Step(k, op), Target(k, op), t, e);
      } else {
        ParkedTarget(k, op, t, e);
      }
    }
  }

  lemma ParkedElsewhere(k: State, k': State, x: Task, t: Task, e: EventList)
    requires OnlyTouches(k, k', x) && t != x && Parked(k, t, e)
    ensures Parked(k', t, e)
  {
  }

  lemma ParkedTarget(k: State, op: Op, t: Task, e: EventList)
    requires Inv(k) && Enabled(k, op) && Parked(k, t, e) && !Releases(k, op, t, e) && Target(k, op) == t
    requires !op.Tick? && !Outermost(k, op)
    ensures Parked(Step(k, op), t, e)
  {
    hide Inv, Releases, Running, EventsOf, ListOf, SomeReady, DelayCurrent, PlaceOnEventList, PlaceOnUnorderedEventList,
      PlaceRestricted, RemoveFromEventList, RemoveFromUnordered, Create, Delete, CleanUp, Kernel.Suspend, Resume,
      AbortDelay, PrioritySet, Inherit, Disinherit, DisinheritAfterTimeout, SwitchContext, SuspendAll, ResumeAll,
      ResetItem;
    if op.SetPriority? || op.Raise? || op.Lower? || op.LowerLate? {
      PriorityTouches(k, op);
    } else if op.Switch? || op.Suspending? || op.Resuming? {
      SwitchTouches(k);
    } else if op.ReadItem? {
      ResetItemSleeps(k);
    } else if Blocks(op) {
      RunsNow(k, op);
      ReadyNotParked(k, t, e);
    } else {
      ParkedNamed(k, op, t, e);
    }
  }

  lemma ReadyNotParked(k: State, t: Task, e: EventList)
    requires Parked(k, t, e)
    ensures !IsReady(k, t)
  {
  }

  /** As long as `t` is parked on `e`, no action of the run releases it. */
  ghost predicate Unreleased(k: State, ops: seq<Op>, t: Task, e: EventList)
    requires Inv(k) && Allowed(k, ops)
    decreases |ops|
  {
    || ops == []
    || (!Releases(k, ops[0], t, e) && (StepInv(k, ops[0]); Unreleased(Step(k, ops[0]), ops[1..], t, e)))
  }

  lemma StepKeepsOff(k: State, op: Op, t: Task)
    requires Inv(k) && Enabled(k, op) && t != k.current && !IsReady(k, t)
    ensures Step(k, op).current != t
  {
    hide Inv, SysTick, DelayCurrent, PlaceOnEventList, PlaceOnUnorderedEventList, PlaceRestricted, RemoveFromEventList,
      RemoveFromUnordered, Create, Delete, CleanUp, Kernel.Suspend, Resume, AbortDelay, PrioritySet, Inherit,
      Disinherit, DisinheritAfterTimeout, SwitchContext, ResumeAll, Running, EventsOf, ListOf, SomeReady;
    if op.Switch? {
      SwitchContextInv(k);
      hide Advance, Selected;
    } else {
      StepFrame(k, op);
    }
  }

  ghost predicate SameFrame(k: State, k': State) {
    k'.current == k.current && k'.suspended == k.suspended
  }

  lemma PriorityFrame(k: State, op: Op)
    requires Inv(k) && Enabled(k, op) && (op.SetPriority? || op.Raise? || op.Lower? || op.LowerLate? || op.ReadItem?)
    ensures SameFrame(k, Step(k, op))
  {
    hide Inv, PrioritySet, Inherit, Disinherit, DisinheritAfterTimeout, ListOf, MovesIfReady;
    match op {
      case SetPriority(t, p) => PrioritySetInv(k, t, p);
      case Raise(t) => InheritInv(k, t);
      case Lower => DisinheritInv(k);
      case LowerLate(t, w) => DisinheritAfterTimeoutInv(k, t, w);
      case ReadItem =>
    }
  }

  lemma NamedFrame(k: State, op: Op)
    requires Inv(k) && Enabled(k, op)
    requires op.Wake? || op.WakeUnordered? || op.New? || op.Remove? || op.Collect? || op.Halt? || op.Continue?
             || op.Abort?
    ensures SameFrame(k, Step(k, op))
  {
    hide Inv, RemoveFromEventList, RemoveFromUnordered, Create, Delete, CleanUp, Kernel.Suspend, Resume, AbortDelay,
      EventsOf, ListOf, Moves, Leaves, Vanishes, Pends;
    CurrentLive(k);
    match op {
      case Wake(id) => RemoveFromEventListInv(k, id);
      case WakeUnordered(t, v) => RemoveFromUnorderedInv(k, t, v);
      case New(t, p) => CreateInv(k, t, p);
      case Remove(t) => if t == k.current { DeleteSelfInv(k); } else { DeleteOtherInv(k, t); }
      case Collect => CleanUpInv(k);
      case Halt(t) => SuspendInv(k, t);
      case Continue(t) => ResumeInv(k, t);
      case Abort(t) => AbortDelayInv(k, t);
    }
  }

  /** Only a switch changes the running task, and only two actions the nesting. */
  lemma StepFrame(k: State, op: Op)
    requires Inv(k) && Enabled(k, op)
    ensures !op.Switch? ==> Step(k, op).current == k.current
    ensures Step(k, op).suspended
            == k.suspended + if op.Suspending? then 1 else if op.Resuming? then -1 else 0
  {
    hide Inv, SysTick, ResumeAll, SwitchContext, TakesTurn, Ticked, DueReaches, Contended, Drained, DrainPending,
      FallsAsleep, Queues, PendingReaches, SomeReady;
    if Blocks(op) {
      BlockedExact(k, op);
    } else {
      hide Step;
      match op {
        case Tick => TickFrames(k);
        case Switch => SwitchFrames(k);
        case Suspending => NestingFrames(k, op);
        case Resuming => NestingFrames(k, op);
        case SetPriority(_, _) => PriorityFrame(k, op);
        case Raise(_) => PriorityFrame(k, op);
        case Lower => PriorityFrame(k, op);
        case LowerLate(_, _) => PriorityFrame(k, op);
        case ReadItem => PriorityFrame(k, op);
        case _ => NamedFrame(k, op);
      }
    }
  }

  lemma TickFrames(k: State)
    requires Inv(k)
    ensures SameFrame(k, Step(k, Tick))
  {
    hide Inv, SysTick, Ticked, DueReaches, Contended;
    SysTickInv(k);
  }

  lemma SwitchFrames(k: State)
    requires Inv(k) && SomeReady(k)
    ensures Step(k, Switch).suspended == k.suspended
  {
    hide Inv, SwitchContext, TakesTurn, HighestReady, ListOf;
    SwitchContextInv(k);
  }

  lemma NestingFrames(k: State, op: Op)
    requires Inv(k) && Enabled(k, op) && (op.Suspending? || op.Resuming?)
    ensures Step(k, op).current == k.current
    ensures Step(k, op).suspended == k.suspended + if op.Suspending? then 1 else -1
  {
    hide Inv, ResumeAll, Ticked, DueReaches, Contended, Drained, DrainPending, PendingReaches;
    if op.Resuming? {
      ResumeAllAsks(k);
      if k.suspended == 1 {
        ResumeAllExact(k);
      }
    }
  }

  /** In every run, whatever else happens: a suspended task, or one that blocks for ever, stays on
      the suspended list, is not ready and is never chosen to run, up to the first action that
      names it to release it. */
  lemma {:induction false} SuspendedStays(k: State, ops: seq<Op>, t: Task, e: EventList)
    requires Inv(k) && Allowed(k, ops) && Parked(k, t, e) && Unreleased(k, ops, t, e)
    ensures var k' := Run(k, ops);
            Parked(k', t, e) && !IsReady(k', t) && (t != k.current ==> t != k'.current)
    decreases |ops|
  {
    hide Inv, Enabled, Step, Releases, Parked;
    ReadyNotParked(k, t, e);
    if ops != [] {
      StepInv(k, ops[0]);
      StepParked(k, ops[0], t, e);
      if t != k.current {
        StepKeepsOff(k, ops[0], t);
      }
      SuspendedStays(Step(k, ops[0]), ops[1..], t, e);
    }
  }

  /** However often a task is suspended, one vTaskResume makes it ready. */
  lemma OneResumeSuffices(k: State, ops: seq<Op>, t: Task)
    requires Inv(k) && Allowed(k, ops) && t != k.current && ops != [] && ops[0] == Halt(t)
    requires Unreleased(k, ops, t, NoEvent)
    ensures var k' := Run(k, ops);
            Parked(k', t, NoEvent) && !IsReady(k', t) && IsReady(Resume(k', t), t)
  {
    hide Inv, Releases, Kernel.Suspend, Resume, ListOf, EventsOf, Moves, Leaves;
    StepInv(k, Halt(t));
    SuspendInv(k, t);
    var k1 := Step(k, Halt(t));
    SuspendedStays(k1, ops[1..], t, NoEvent);
    ResumeInv(Run(k, ops), t);
  }

  // ----- suspending the scheduler

  function Nesting(ops: seq<Op>): int {
    if ops == [] then 0
    else (if ops[0].Suspending? then 1 else if ops[0].Resuming? then -1 else 0) + Nesting(ops[1..])
  }

  /** Every state the run leaves has the scheduler suspended. */
  ghost predicate KeptSuspended(k: State, ops: seq<Op>)
    requires Inv(k) && Allowed(k, ops)
    decreases |ops|
  {
    ops == [] || (k.suspended > 0 && !Outermost(k, ops[0])
                  && (StepInv(k, ops[0]); KeptSuspended(Step(k, ops[0]), ops[1..])))
  }

  lemma StepSuspended(k: State, op: Op)
    requires Inv(k) && Enabled(k, op) && k.suspended > 0 && !Outermost(k, op)
    ensures var k' := Step(k, op);
            k'.current == k.current && k'.tick == k.tick && k'.pended == k.pended + if op.Tick? then 1 else 0
  {
    hide Inv, SysTick, ResumeAll, Running, EventsOf, ListOf, SomeReady, TakesTurn, DueReaches, Contended;
    if op.Tick? {
      SysTickInv(k);
    } else {
      StepTouches(k, op);
      if op.Switch? {
        SwitchContextInv(k);
      } else {
        StepFrame(k, op);
      }
    }
  }

  /** Suspensions nest: the scheduler runs again exactly when resumes have matched them. As long as
      they have not, the running task keeps the processor, whatever becomes ready, and the clock
      stands still while the ticks are counted. */
  lemma {:induction false} SuspensionsNest(k: State, ops: seq<Op>)
    requires Inv(k) && Allowed(k, ops)
    ensures var k' := Run(k, ops);
            && k'.suspended == k.suspended + Nesting(ops)
            && (KeptSuspended(k, ops) ==>
                  k'.current == k.current && k'.tick == k.tick && k'.pended == k.pended + TicksIn(ops))
    decreases |ops|
  {
    hide Inv, Enabled, Step;
    if ops != [] {
      StepInv(k, ops[0]);
      StepFrame(k, ops[0]);
      if k.suspended > 0 && !Outermost(k, ops[0]) {
        StepSuspended(k, ops[0]);
      }
      SuspensionsNest(Step(k, ops[0]), ops[1..]);
    }
  }
}
