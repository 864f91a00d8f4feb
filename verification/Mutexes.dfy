/** Mutexes of queue.c on the scheduler of tasks.c: priority inheritance, recursion, accounting. */
module Mutexes {
  import opened Words
  import opened Lists
  import opened Kernel
  import opened KernelInvariants
  import opened KernelTime
  import opened KernelOps
  import opened KernelRuns

  datatype Holder = Nobody | Held(task: Task)

  /** The fields of a queue that is a mutex: uxMessagesWaiting, xMutexHolder and
      uxRecursiveCallCount. Its waiting list is the event list `Waiters(id)`. */
  datatype Mutex = Mutex(count: nat, holder: Holder, recursive: bool, depth: nat)

  /** `retry` is not in the source: the tasks that a give has taken off the waiting list of a
      mutex and that have not yet come back to try again. */
  datatype System = System(k: State, mutexes: map<nat, Mutex>, retry: map<Task, nat>)

  function WaitersOf(k: State, id: nat): seq<Task> {
    EventsOf(k, Waiters(id)).items
  }

  // ----- the critical sections

  /** xQueueSemaphoreTake when the mutex is free; a recursive take counts its first level. */
  function TakeFree(s: System, id: nat): System
    requires id in s.mutexes
  {
    var t := s.k.current;
    var b := TcbOf(s.k, t);
    var m := s.mutexes[id];
    s.(k := SetTcb(s.k, t, b.(mutexesHeld := b.mutexesHeld + 1)),
       mutexes := s.mutexes[id := m.(count := 0, holder := Held(t), depth := if m.recursive then 1 else 0)])
  }

  /** The first critical section of xQueueSemaphoreTake, and the whole of a nested recursive
      take. */
  function Take(s: System, id: nat): System
    requires id in s.mutexes
  {
    var m := s.mutexes[id];
    var s1 := s.(retry := s.retry - {s.k.current});
    if m.recursive && m.holder == Held(s.k.current) then s1.(mutexes := s.mutexes[id := m.(depth := m.depth + 1)])
    else if m.count > 0 then TakeFree(s1, id)
    else s1
  }

  /** The suspended region of xQueueSemaphoreTake: the holder inherits, the caller blocks
      and then yields. */
  function BlockOn(s: System, id: nat, ticks: nat): System
    requires id in s.mutexes && s.mutexes[id].holder.Held?
  {
    s.(k := Ask(PlaceOnEventList(Inherit(s.k, s.mutexes[id].holder.task), id, ticks), true))
  }

  /** xQueueGenericSend on a held mutex */
  function GiveBack(s: System, id: nat): System
    requires id in s.mutexes && TcbOf(s.k, s.k.current).mutexesHeld > 0
  {
    var k1 := Disinherit(s.k);
    var mutexes := s.mutexes[id := s.mutexes[id].(count := 1, holder := Nobody, depth := 0)];
    if WaitersOf(k1, id) == [] then s.(k := Ask(k1, Lowers(s.k)), mutexes := mutexes)
    else
      var t := WaitersOf(k1, id)[0];
      System(Ask(RemoveFromEventList(k1, id), Priority(k1, t) > Priority(k1, k1.current)), mutexes, s.retry[t := id])
  }

  /** A give, which for a recursive mutex only counts until the outermost one. */
  function Give(s: System, id: nat): System
    requires id in s.mutexes && TcbOf(s.k, s.k.current).mutexesHeld > 0
  {
    var m := s.mutexes[id];
    if m.recursive && m.depth > 1 then s.(mutexes := s.mutexes[id := m.(depth := m.depth - 1)]) else GiveBack(s, id)
  }

  /** prvGetDisinheritPriorityAfterTimeout */
  function HighestWaiting(k: State, id: nat): nat {
    if WaitersOf(k, id) == [] then 0
    else var v := TcbOf(k, WaitersOf(k, id)[0]).eventValue; if v <= MAX_PRIORITIES then MAX_PRIORITIES - v else 0
  }

  /** What a take does that has timed out, having inherited, with the mutex still held. */
  function TimedOut(s: System, id: nat): System
    requires id in s.mutexes && s.mutexes[id].holder.Held?
  {
    s.(k := DisinheritAfterTimeout(s.k, s.mutexes[id].holder.task, HighestWaiting(s.k, id)))
  }

  // ----- the invariants

  function HeldBy(mutexes: map<nat, Mutex>, t: Task): set<nat> {
    set id | id in mutexes && mutexes[id].holder == Held(t)
  }

  predicate MutexOk(m: Mutex) {
    && (m.count == 1 <==> m.holder == Nobody) && m.count <= 1
    && (if m.recursive then m.depth > 0 <==> m.holder.Held? else m.depth == 0)
  }

  /** An item value stands for a priority, or an event group has borrowed it. */
  predicate ValueOk(v: nat) {
    InUse(v) || 0 < v <= MAX_PRIORITIES
  }

  /** The task's count is the number of mutexes that name it; a deleted task holds none. */
  predicate CountOk(b: Tcb, held: int) {
    b.mutexesHeld == held && ValueOk(b.eventValue) && (b.stateIn == Terminated ==> held == 0)
  }

  predicate WaitsFor(tcb: Tcbs, w: Task, id: nat) {
    w in tcb && tcb[w].eventIn == Waiters(id)
  }

  ghost predicate Accounted(tcb: Tcbs, mutexes: map<nat, Mutex>) {
    && (forall id :: id in mutexes ==> MutexOk(mutexes[id]))
    && (forall id :: id in mutexes && mutexes[id].holder.Held? ==> mutexes[id].holder.task in tcb)
    && (forall t :: t in tcb ==> CountOk(tcb[t], |HeldBy(mutexes, t)|))
    && (forall id, w :: id in mutexes && WaitsFor(tcb, w, id) ==> !InUse(tcb[w].eventValue))
  }

  /** What every call keeps, whoever makes it. */
  ghost predicate CallsInv(s: System) {
    Inv(s.k) && Accounted(s.k.tcb, s.mutexes)
  }

  /** Priorities are inherited by holders only. */
  predicate RankOk(b: Tcb) {
    b.base <= b.priority && (b.mutexesHeld == 0 ==> b.priority == b.base)
  }

  ghost predicate Ranked(tcb: Tcbs) {
    forall t :: t in tcb ==> RankOk(tcb[t])
  }

  lemma HolderHolds(mutexes: map<nat, Mutex>, t: Task, id: nat)
    requires id in mutexes && mutexes[id].holder == Held(t)
    ensures |HeldBy(mutexes, t)| > 0
  {
    assert id in HeldBy(mutexes, t);
  }

  lemma HolderIs(s: System, id: nat)
    requires CallsInv(s) && id in s.mutexes && s.mutexes[id].holder.Held?
    ensures var h := s.mutexes[id].holder.task; h in s.k.tcb && s.k.tcb[h].mutexesHeld > 0
  {
    HolderHolds(s.mutexes, s.mutexes[id].holder.task, id);
  }

  lemma HeldWhenEmpty(s: System, id: nat)
    requires CallsInv(s) && id in s.mutexes && s.mutexes[id].count == 0
    ensures s.mutexes[id].holder.Held?
  {
  }

  // ----- kernel actions between the calls on mutexes

  /** What keeps the accounting of one task. */
  predicate CountKept(b: Tcb, b': Tcb, mutexes: map<nat, Mutex>) {
    && b'.mutexesHeld == b.mutexesHeld && (ValueOk(b.eventValue) ==> ValueOk(b'.eventValue))
    && (b'.stateIn == Terminated ==> b.stateIn == Terminated || b.mutexesHeld == 0)
    && (b'.eventIn.Waiters? && b'.eventIn.id in mutexes ==>
          b'.eventIn == b.eventIn && (InUse(b'.eventValue) ==> InUse(b.eventValue)))
  }

  predicate SameRank(b: Tcb, b': Tcb) {
    b'.priority == b.priority && b'.base == b.base && b'.mutexesHeld == b.mutexesHeld
  }

  predicate IsNew(b: Tcb) {
    b == NewTcb(b.priority) && b.priority < MAX_PRIORITIES
  }

  ghost predicate Kept(tcb: Tcbs, tcb': Tcbs, mutexes: map<nat, Mutex>) {
    && (forall t :: t in tcb && t in tcb' ==> CountKept(tcb[t], tcb'[t], mutexes))
    && (forall t :: t in tcb' && t !in tcb ==> IsNew(tcb'[t]))
    && (forall t :: t in tcb && t !in tcb' ==> tcb[t].mutexesHeld == 0)
  }

  ghost predicate SameRanks(tcb: Tcbs, tcb': Tcbs) {
    && (forall t :: t in tcb && t in tcb' ==> SameRank(tcb[t], tcb'[t]))
    && (forall t :: t in tcb' && t !in tcb ==> IsNew(tcb'[t]))
  }

  lemma KeptAccounted(tcb: Tcbs, tcb': Tcbs, mutexes: map<nat, Mutex>)
    requires Accounted(tcb, mutexes) && Kept(tcb, tcb', mutexes)
    ensures Accounted(tcb', mutexes)
  {
    forall id | id in mutexes && mutexes[id].holder.Held?
      ensures mutexes[id].holder.task in tcb'
    {
      HolderHolds(mutexes, mutexes[id].holder.task, id);
    }
    forall t | t in tcb'
      ensures CountOk(tcb'[t], |HeldBy(mutexes, t)|)
    {
      if t !in tcb {
        assert HeldBy(mutexes, t) == {};
      }
    }
    forall id, w | id in mutexes && WaitsFor(tcb', w, id)
      ensures !InUse(tcb'[w].eventValue)
    {
      assert w in tcb && WaitsFor(tcb, w, id);
    }
  }

  lemma RanksKept(tcb: Tcbs, tcb': Tcbs)
    requires Ranked(tcb) && SameRanks(tcb, tcb')
    ensures Ranked(tcb')
  {
  }

  lemma KeptTwice(a: Tcbs, b: Tcbs, c: Tcbs, mutexes: map<nat, Mutex>)
    requires Kept(a, b, mutexes) && Kept(b, c, mutexes) && a.Keys == b.Keys == c.Keys
    ensures Kept(a, c, mutexes)
  {
  }

  /** One task changes. */
  ghost predicate OneKept(k: State, k': State, x: Task, mutexes: map<nat, Mutex>) {
    if x in k.tcb && x in k'.tcb then CountKept(k.tcb[x], k'.tcb[x], mutexes)
    else if x in k'.tcb then IsNew(k'.tcb[x])
    else x in k.tcb ==> k.tcb[x].mutexesHeld == 0
  }

  ghost predicate OneRank(k: State, k': State, x: Task) {
    x in k.tcb && x in k'.tcb ==> SameRank(k.tcb[x], k'.tcb[x])
  }

  lemma TouchedKept(k: State, k': State, x: Task, mutexes: map<nat, Mutex>)
    requires OnlyTouches(k, k', x) && OneKept(k, k', x, mutexes)
    ensures Kept(k.tcb, k'.tcb, mutexes)
    ensures OneRank(k, k', x) ==> SameRanks(k.tcb, k'.tcb)
  {
  }

  /** The waiting list of a mutex belongs to the calls on it, the priority functions are called
      by them only, and a task that holds a mutex is not deleted. */
  predicate Apart(s: System, op: Op) {
    match op
    case Wait(id, _) => id !in s.mutexes
    case WaitUnordered(id, _, _) => id !in s.mutexes
    case WaitRestricted(id, _, _) => id !in s.mutexes
    case Wake(id) => id !in s.mutexes
    case WakeUnordered(t, _) => TcbOf(s.k, t).eventIn.Waiters? ==> TcbOf(s.k, t).eventIn.id !in s.mutexes
    case Remove(t) => TcbOf(s.k, t).mutexesHeld == 0
    case Raise(_) => false
    case Lower => false
    case LowerLate(_, _) => false
    case _ => true
  }

  lemma MarkedInUse(v: nat)
    ensures InUse(MarkInUse(v)) && ValueOk(MarkInUse(v))
  {
  }

  lemma BlockKept(s: System, op: Op)
    requires CallsInv(s) && Enabled(s.k, op) && Apart(s, op) && Blocks(op)
    ensures var k' := Step(s.k, op); OneKept(s.k, k', s.k.current, s.mutexes) && OneRank(s.k, k', s.k.current)
  {
    hide Inv, Running, Accounted, DelayCurrent, PutEventSorted, PutEventEnd, MarkInUse, InUse, Wrap, OnlyTouches;
    var k := s.k;
    CurrentLive(k);
    match op {
      case Sleep(ticks) => DelayEffect(k, ticks, false);
      case Wait(id, ticks) =>
        PutTcb(k, id);
        DelayEffect(PutEventSorted(k, k.current, Waiters(id)), ticks, true);
      case WaitUnordered(id, v, ticks) =>
        MarkedInUse(v);
        PutTcb(SetEventValue(k, k.current, MarkInUse(v)), id);
        DelayEffect(PutEventEnd(SetEventValue(k, k.current, MarkInUse(v)), k.current, Waiters(id)), ticks, true);
      case WaitRestricted(id, ticks, indefinitely) =>
        PutTcb(k, id);
        DelayEffect(PutEventEnd(k, k.current, Waiters(id)), if indefinitely then MAX_DELAY else ticks, indefinitely);
    }
  }

  lemma PutTcb(k: State, id: nat)
    requires k.current in k.tcb
    ensures var tcb' := k.tcb[k.current := k.tcb[k.current].(eventIn := Waiters(id))];
            && PutEventSorted(k, k.current, Waiters(id)).tcb == tcb'
            && PutEventEnd(k, k.current, Waiters(id)).tcb == tcb'
            && PutEventSorted(k, k.current, Waiters(id)).current == k.current
            && PutEventEnd(k, k.current, Waiters(id)).current == k.current
  {
    hide SortedPos, EventValues, InsertAt, InsertEnd;
  }

  lemma WakeKept(s: System, op: Op)
    requires CallsInv(s) && Enabled(s.k, op) && Apart(s, op)
    requires op.WakeUnordered? || op.Continue? || op.Abort? || op.Halt?
    ensures var k' := Step(s.k, op); OneKept(s.k, k', Target(s.k, op), s.mutexes) && OneRank(s.k, k', Target(s.k, op))
  {
    hide Inv, RemoveFromUnordered, Kernel.Suspend, Resume, AbortDelay, MarkInUse, InUse, ValueOk, Moves, Leaves,
      EventsOf, ListOf, HeldBy;
    var k := s.k;
    match op {
      case WakeUnordered(t, v) =>
        MarkedInUse(v);
        RemoveFromUnorderedInv(k, t, v);
      case Continue(t) => ResumeInv(k, t);
      case Abort(t) => AbortDelayInv(k, t);
      case Halt(t) => SuspendInv(k, t);
    }
  }

  /** The head waiter of a list is woken. */
  lemma HeadKept(k: State, id: nat, mutexes: map<nat, Mutex>)
    requires Inv(k) && WaitersOf(k, id) != []
    ensures var k' := RemoveFromEventList(k, id);
            OneKept(k, k', WaitersOf(k, id)[0], mutexes) && OneRank(k, k', WaitersOf(k, id)[0])
  {
    hide Inv, RemoveFromEventList, Moves, Leaves, Pends, EventsOf, ValueOk, InUse;
    RemoveFromEventListInv(k, id);
  }

  lemma WaitingHead(k: State, id: nat)
    requires Inv(k) && WaitersOf(k, id) != []
    ensures WaitsFor(k.tcb, WaitersOf(k, id)[0], id) && EventsOk(k.events, k.tcb)
  {
    HeadWaiter(k, Waiters(id));
  }

  lemma LifeKept(s: System, op: Op)
    requires CallsInv(s) && Enabled(s.k, op) && Apart(s, op) && (op.New? || op.Remove? || op.Collect?)
    ensures var k' := Step(s.k, op); OneKept(s.k, k', Target(s.k, op), s.mutexes) && OneRank(s.k, k', Target(s.k, op))
  {
    hide Inv, Create, Delete, CleanUp, ListOf, EventsOf, HeldBy, InUse, Moves, Leaves, Vanishes;
    var k := s.k;
    CurrentLive(k);
    match op {
      case New(t, p) => CreateInv(k, t, p);
      case Remove(t) => if t == k.current { DeleteSelfInv(k); } else { DeleteOtherInv(k, t); }
      case Collect =>
        TerminatedHead(k);
        CleanUpInv(k);
    }
  }

  lemma ReadKept(k: State, mutexes: map<nat, Mutex>)
    requires Inv(k)
    ensures OneKept(k, ResetItem(k), k.current, mutexes) && OneRank(k, ResetItem(k), k.current)
  {
    hide Core, NoneDue;
    CurrentLive(k);
    PriorityBounds(k, k.current);
  }

  // ----- changes of priority

  /** The TCB of a task moved to priority `p`, its item value following unless it is in use. */
  predicate Moved(b: Tcb, b': Tcb, p: nat) {
    && b' == b.(priority := p, eventValue := b'.eventValue, mutexesHeld := b'.mutexesHeld,
                stateIn := if b.stateIn.Ready? then Ready(p) else b.stateIn)
    && (b'.eventValue + p == MAX_PRIORITIES
        || (b'.eventValue == b.eventValue && (InUse(b.eventValue) || p == b.priority)))
  }

  /** `h` alone has been moved, and no event list has changed. */
  ghost predicate MovedOne(k: State, k': State, h: Task, p: nat) {
    && Inv(k') && h in k.tcb && h in k'.tcb && k'.tcb == k.tcb[h := k'.tcb[h]] && Moved(k.tcb[h], k'.tcb[h], p)
    && k'.events == k.events && k'.current == k.current && k'.suspended == k.suspended
  }

  lemma Unmoved(k: State, h: Task)
    requires Inv(k) && h in k.tcb
    ensures MovedOne(k, k, h, k.tcb[h].priority)
  {
    hide Inv, InUse;
    ReadyFacts(k, h);
    assert k.tcb == k.tcb[h := k.tcb[h]];
  }

  lemma InheritEffect(k: State, h: Task)
    requires Inv(k) && h in k.tcb
    ensures var k' := Inherit(k, h);
            && MovedOne(k, k', h, Max(k.tcb[h].priority, Priority(k, k.current)))
            && k'.tcb[h].mutexesHeld == k.tcb[h].mutexesHeld
  {
    hide Inv, Inherit, InUse, ListOf, MovesIfReady;
    CurrentLive(k);
    PriorityBounds(k, k.current);
    Unmoved(k, h);
    InheritInv(k, h);
  }

  lemma LateEffect(k: State, h: Task, waiting: nat)
    requires Inv(k) && h in k.tcb && waiting < MAX_PRIORITIES
    ensures var k' := DisinheritAfterTimeout(k, h, waiting);
            && MovedOne(k, k', h, if k.tcb[h].mutexesHeld == 1 then Max(k.tcb[h].base, waiting) else k.tcb[h].priority)
            && k'.tcb[h].mutexesHeld == k.tcb[h].mutexesHeld
  {
    hide Inv, DisinheritAfterTimeout, InUse, MovesIfReady;
    PriorityBounds(k, h);
    Unmoved(k, h);
    DisinheritAfterTimeoutInv(k, h, waiting);
  }

  lemma DisinheritEffect(k: State)
    requires Inv(k) && TcbOf(k, k.current).mutexesHeld > 0
    ensures var t := k.current;
            var k' := Disinherit(k);
            && t in k.tcb && MovedOne(k, k', t, if k.tcb[t].mutexesHeld == 1 then k.tcb[t].base else k.tcb[t].priority)
            && k'.tcb[t].mutexesHeld == k.tcb[t].mutexesHeld - 1
  {
    hide Inv, Disinherit, InUse, MovesIfReady;
    CurrentLive(k);
    ReadyFacts(k, k.current);
    DisinheritInv(k);
  }

  lemma MovedKept(k: State, k': State, h: Task, p: nat, mutexes: map<nat, Mutex>)
    requires MovedOne(k, k', h, p) && k'.tcb[h].mutexesHeld == k.tcb[h].mutexesHeld && p < MAX_PRIORITIES
    ensures Kept(k.tcb, k'.tcb, mutexes)
  {
    hide Inv;
  }

  lemma PlainValue(p: nat)
    requires p < MAX_PRIORITIES
    ensures !InUse(MAX_PRIORITIES - p) && ValueOk(MAX_PRIORITIES - p)
  {
  }

  lemma SetKept(k: State, t: Task, p: nat, mutexes: map<nat, Mutex>)
    requires Inv(k) && t in k.tcb && p < MAX_PRIORITIES
    ensures OneKept(k, PrioritySet(k, t, p), t, mutexes)
  {
    hide Inv, PrioritySet, MovesIfReady, InUse, ValueOk, PrioritySetAsks;
    PrioritySetInv(k, t, p);
    PlainValue(p);
  }

  // ----- every kernel action keeps the accounting

  lemma TickedKept(k: State, k': State, n: nat, mutexes: map<nat, Mutex>)
    requires Ticked(k, k', n)
    ensures Kept(k.tcb, k'.tcb, mutexes) && SameRanks(k.tcb, k'.tcb)
  {
    hide WakeAt, ValueOk, InUse;
  }

  lemma DrainedKept(k: State, k': State, mutexes: map<nat, Mutex>)
    requires Drained(k, k')
    ensures Kept(k.tcb, k'.tcb, mutexes) && SameRanks(k.tcb, k'.tcb)
  {
    hide WakeAt, ValueOk, InUse;
  }

  lemma TimeKept(k: State, op: Op, mutexes: map<nat, Mutex>)
    requires Inv(k) && Enabled(k, op) && (op.Tick? || Outermost(k, op))
    ensures Kept(k.tcb, Step(k, op).tcb, mutexes) && SameRanks(k.tcb, Step(k, op).tcb)
  {
    hide Inv, Increment, Ticked, Drained, ResumeAll, DrainPending, CountKept;
    if Outermost(k, op) {
      var k0 := k.(suspended := 0);
      var k1 := DrainPending(k0);
      ResumeAllExact(k);
      DrainedKept(k0, k1, mutexes);
      TickedKept(k1, ResumeAll(k), k.pended, mutexes);
      KeysKept(k0, k1, ResumeAll(k), k.pended);
      KeptTwice(k.tcb, k1.tcb, ResumeAll(k).tcb, mutexes);
    } else if k.suspended == 0 {
      IncrementSettled(k);
      TickedKept(k, Increment(k), 1, mutexes);
    } else {
      SelfKept(k.tcb, mutexes);
    }
  }

  lemma KeysKept(k0: State, k1: State, k2: State, n: nat)
    requires Drained(k0, k1) && Ticked(k1, k2, n)
    ensures k0.tcb.Keys == k1.tcb.Keys == k2.tcb.Keys
  {
    hide WakeAt, Woken;
  }

  lemma SelfKept(tcb: Tcbs, mutexes: map<nat, Mutex>)
    ensures Kept(tcb, tcb, mutexes) && SameRanks(tcb, tcb)
  {
    hide ValueOk, InUse;
  }

  lemma TargetKept(s: System, op: Op)
    requires CallsInv(s) && Enabled(s.k, op) && Apart(s, op) && !op.Tick? && !op.Switch? && !op.Suspending?
             && !op.Resuming?
    ensures var k' := Step(s.k, op);
            OneKept(s.k, k', Target(s.k, op), s.mutexes) && (!op.SetPriority? ==> OneRank(s.k, k', Target(s.k, op)))
  {
    hide Inv, Accounted, Running, SomeReady, DelayCurrent, PlaceOnEventList, PlaceOnUnorderedEventList, PlaceRestricted,
      ResetItem, RemoveFromEventList, RemoveFromUnordered, Create, Delete, CleanUp, Kernel.Suspend, Resume, AbortDelay,
      PrioritySet, Inherit, Disinherit, DisinheritAfterTimeout, EventsOf, ListOf, CountKept, SameRank;
    if Blocks(op) {
      BlockKept(s, op);
    } else if op.WakeUnordered? || op.Continue? || op.Abort? || op.Halt? {
      WakeKept(s, op);
    } else if op.New? || op.Remove? || op.Collect? {
      LifeKept(s, op);
    } else if op.Wake? {
      HeadKept(s.k, op.id, s.mutexes);
    } else if op.ReadItem? {
      ReadKept(s.k, s.mutexes);
    } else if op.SetPriority? {
      SetKept(s.k, op.task, op.priority, s.mutexes);
    }
  }

  lemma OtherKept(s: System, op: Op)
    requires CallsInv(s) && Enabled(s.k, op) && Apart(s, op)
    ensures Kept(s.k.tcb, Step(s.k, op).tcb, s.mutexes)
    ensures !op.SetPriority? ==> SameRanks(s.k.tcb, Step(s.k, op).tcb)
  {
    hide Inv, Accounted, Enabled, Apart, Step, Target, OneKept, OneRank, OnlyTouches, Kept, SameRanks;
    if op.Tick? || Outermost(s.k, op) {
      TimeKept(s.k, op, s.mutexes);
    } else if op.Switch? || op.Suspending? || op.Resuming? {
      StillKept(s.k, op, s.mutexes);
    } else {
      StepTouches(s.k, op);
      TargetKept(s, op);
      TouchedKept(s.k, Step(s.k, op), Target(s.k, op), s.mutexes);
    }
  }

  lemma StillKept(k: State, op: Op, mutexes: map<nat, Mutex>)
    requires Inv(k) && Enabled(k, op) && (op.Switch? || op.Suspending? || op.Resuming?) && !Outermost(k, op)
    ensures Kept(k.tcb, Step(k, op).tcb, mutexes) && SameRanks(k.tcb, Step(k, op).tcb)
  {
    hide Inv, SomeReady, SwitchContext, SuspendAll, ResumeAll, Kept, SameRanks;
    SwitchTouches(k);
    SelfKept(k.tcb, mutexes);
  }

  // ----- the calls keep the accounting

  lemma HeldAfter(mutexes: map<nat, Mutex>, id: nat, m: Mutex, t: Task)
    requires id in mutexes
    ensures HeldBy(mutexes[id := m], t)
            == if m.holder == Held(t) then HeldBy(mutexes, t) + {id} else HeldBy(mutexes, t) - {id}
    ensures |HeldBy(mutexes[id := m], t)|
            == |HeldBy(mutexes, t)| + (if m.holder == Held(t) && mutexes[id].holder != Held(t) then 1
                                       else if m.holder != Held(t) && mutexes[id].holder == Held(t) then -1 else 0)
  {
    var before, after := HeldBy(mutexes, t), HeldBy(mutexes[id := m], t);
    if m.holder == Held(t) {
      assert after == before + {id};
    } else {
      assert after == before - {id};
    }
    assert id in before <==> mutexes[id].holder == Held(t);
  }

  /** The mutex `id` changes hands between nobody and `c`, which waits for nothing. */
  lemma HandOver(tcb: Tcbs, tcb': Tcbs, mutexes: map<nat, Mutex>, id: nat, m: Mutex, c: Task)
    requires Accounted(tcb, mutexes) && id in mutexes && MutexOk(m) && c in tcb && c in tcb'
             && tcb' == tcb[c := tcb'[c]]
    requires (mutexes[id].holder == Nobody && m.holder == Held(c))
             || (mutexes[id].holder == Held(c) && m.holder == Nobody)
    requires CountOk(tcb'[c], |HeldBy(mutexes, c)| + if m.holder == Nobody then -1 else 1)
    requires tcb'[c].eventIn == tcb[c].eventIn && (InUse(tcb'[c].eventValue) ==> InUse(tcb[c].eventValue))
    ensures Accounted(tcb', mutexes[id := m])
  {
    hide ValueOk, InUse;
    forall t | t in tcb'
      ensures CountOk(tcb'[t], |HeldBy(mutexes[id := m], t)|)
    {
      HeldAfter(mutexes, id, m, t);
    }
    forall x, w | x in mutexes && WaitsFor(tcb', w, x)
      ensures !InUse(tcb'[w].eventValue)
    {
      assert WaitsFor(tcb, w, x);
    }
  }

  /** Only the depth of a recursive mutex changes. */
  lemma DeeperKeeps(tcb: Tcbs, mutexes: map<nat, Mutex>, id: nat, depth: nat)
    requires Accounted(tcb, mutexes) && id in mutexes && mutexes[id].holder.Held? && mutexes[id].recursive && depth > 0
    ensures Accounted(tcb, mutexes[id := mutexes[id].(depth := depth)])
  {
    var mutexes' := mutexes[id := mutexes[id].(depth := depth)];
    forall t
      ensures HeldBy(mutexes', t) == HeldBy(mutexes, t)
    {
    }
  }

  function Taken(m: Mutex, c: Task): Mutex {
    m.(count := 0, holder := Held(c), depth := if m.recursive then 1 else 0)
  }

  lemma TakeKeeps(s: System, id: nat)
    requires CallsInv(s) && id in s.mutexes && Running(s.k)
    ensures CallsInv(Take(s, id))
  {
    hide Inv, HeldBy, ValueOk, InUse;
    var k := s.k;
    var c := k.current;
    var m := s.mutexes[id];
    if m.recursive && m.holder == Held(c) {
      DeeperKeeps(k.tcb, s.mutexes, id, m.depth + 1);
    } else if m.count > 0 {
      var b := k.tcb[c].(mutexesHeld := k.tcb[c].mutexesHeld + 1);
      CurrentLive(k);
      PriorityBounds(k, c);
      EditInv(k, c, b);
      HandOver(k.tcb, k.tcb[c := b], s.mutexes, id, Taken(m, c), c);
    }
  }

  /** The caller, having lent its priority, goes to sleep on the waiting list. */
  lemma WaitCounts(k: State, mutexes: map<nat, Mutex>, id: nat, ticks: nat)
    requires Inv(k) && Accounted(k.tcb, mutexes) && Running(k) && 1 <= ticks < MODULUS
             && !InUse(k.tcb[k.current].eventValue)
    ensures var k' := Ask(PlaceOnEventList(k, id, ticks), true);
            && Inv(k') && Accounted(k'.tcb, mutexes) && k.current in k'.tcb
            && k'.tcb == k.tcb[k.current := k'.tcb[k.current]]
            && SameRank(k.tcb[k.current], k'.tcb[k.current]) && k'.tcb[k.current].eventIn == Waiters(id)
            && k'.tcb[k.current].eventValue == k.tcb[k.current].eventValue
  {
    hide Inv, DelayCurrent, PutEventSorted, Wrap, ValueOk, InUse, HeldBy, MutexOk, Running;
    var c := k.current;
    var k' := Ask(PlaceOnEventList(k, id, ticks), true);
    CurrentLive(k);
    BlockingInv(k, Wait(id, ticks));
    PutTcb(k, id);
    DelayEffect(PutEventSorted(k, c, Waiters(id)), ticks, true);
    forall x, w | x in mutexes && WaitsFor(k'.tcb, w, x)
      ensures !InUse(k'.tcb[w].eventValue)
    {
      if w != c {
        assert WaitsFor(k.tcb, w, x);
      }
    }
  }

  lemma InheritKeeps(s: System, id: nat)
    requires CallsInv(s) && id in s.mutexes && s.mutexes[id].holder.Held? && Running(s.k)
    ensures var k' := Inherit(s.k, s.mutexes[id].holder.task);
            && CallsInv(s.(k := k')) && Running(k') && k'.current == s.k.current
            && k'.tcb[k'.current].eventValue == s.k.tcb[s.k.current].eventValue
  {
    hide Inv, Accounted, Inherit, InUse;
    var h := s.mutexes[id].holder.task;
    HolderIs(s, id);
    CurrentLive(s.k);
    PriorityBounds(s.k, h);
    PriorityBounds(s.k, s.k.current);
    InheritEffect(s.k, h);
    InheritSelf(s.k);
    hide Moved;
    MovedKept(s.k, Inherit(s.k, h), h, Max(s.k.tcb[h].priority, Priority(s.k, s.k.current)), s.mutexes);
    KeptAccounted(s.k.tcb, Inherit(s.k, h).tcb, s.mutexes);
  }

  lemma InheritSelf(k: State)
    ensures Inherit(k, k.current) == k
  {
  }

  lemma BlockKeeps(s: System, id: nat, ticks: nat)
    requires CallsInv(s) && id in s.mutexes && s.mutexes[id].holder.Held? && Running(s.k) && 1 <= ticks < MODULUS
    requires !InUse(TcbOf(s.k, s.k.current).eventValue)
    ensures CallsInv(BlockOn(s, id, ticks))
  {
    hide Inv, Accounted, Inherit, PlaceOnEventList, InUse;
    InheritKeeps(s, id);
    WaitCounts(Inherit(s.k, s.mutexes[id].holder.task), s.mutexes, id, ticks);
  }

  lemma GivenBack(s: System, id: nat)
    requires CallsInv(s) && id in s.mutexes && s.mutexes[id].holder == Held(s.k.current)
    ensures TcbOf(s.k, s.k.current).mutexesHeld > 0
    ensures var k1 := Disinherit(s.k);
            Inv(k1) && Accounted(k1.tcb, s.mutexes[id := s.mutexes[id].(count := 1, holder := Nobody, depth := 0)])
  {
    hide Inv, Disinherit, HeldBy;
    HolderIs(s, id);
    DisinheritEffect(s.k);
    var c := s.k.current;
    PriorityBounds(s.k, c);
    HandOver(s.k.tcb, Disinherit(s.k).tcb, s.mutexes, id, s.mutexes[id].(count := 1, holder := Nobody, depth := 0), c);
  }

  lemma GiveBackKeeps(s: System, id: nat)
    requires CallsInv(s) && id in s.mutexes && s.mutexes[id].holder == Held(s.k.current)
    ensures TcbOf(s.k, s.k.current).mutexesHeld > 0
    ensures CallsInv(GiveBack(s, id))
  {
    hide Inv, Accounted, Disinherit, RemoveFromEventList, EventsOf;
    GivenBack(s, id);
    var k1 := Disinherit(s.k);
    var mutexes := GiveBack(s, id).mutexes;
    if WaitersOf(k1, id) == [] {
      FlagsInv(k1, GiveBack(s, id).k);
    } else {
      WokenKeeps(k1, id, mutexes);
      FlagsInv(RemoveFromEventList(k1, id), GiveBack(s, id).k);
    }
  }

  lemma WokenKeeps(k: State, id: nat, mutexes: map<nat, Mutex>)
    requires Inv(k) && WaitersOf(k, id) != [] && Accounted(k.tcb, mutexes)
    ensures Inv(RemoveFromEventList(k, id)) && Accounted(RemoveFromEventList(k, id).tcb, mutexes)
    ensures SameRanks(k.tcb, RemoveFromEventList(k, id).tcb)
  {
    hide Inv, Accounted, RemoveFromEventList, Kept, OneKept, OneRank, OnlyTouches;
    RemoveFromEventListInv(k, id);
    WakeTouches(k, id);
    HeadKept(k, id, mutexes);
    TouchedKept(k, RemoveFromEventList(k, id), WaitersOf(k, id)[0], mutexes);
    KeptAccounted(k.tcb, RemoveFromEventList(k, id).tcb, mutexes);
  }

  lemma GiveKeeps(s: System, id: nat)
    requires CallsInv(s) && id in s.mutexes && s.mutexes[id].holder == Held(s.k.current)
    ensures TcbOf(s.k, s.k.current).mutexesHeld > 0
    ensures CallsInv(Give(s, id))
  {
    hide Inv, Accounted, GiveBack;
    GiveBackKeeps(s, id);
    if s.mutexes[id].recursive && s.mutexes[id].depth > 1 {
      DeeperKeeps(s.k.tcb, s.mutexes, id, s.mutexes[id].depth - 1);
    }
  }

  lemma HighestBelow(s: System, id: nat)
    requires CallsInv(s)
    ensures HighestWaiting(s.k, id) < MAX_PRIORITIES
  {
    hide Inv, InUse;
    if WaitersOf(s.k, id) != [] {
      WaitingHead(s.k, id);
      BigInUse(s.k.tcb[WaitersOf(s.k, id)[0]].eventValue);
    }
  }

  lemma BigInUse(v: nat)
    ensures ValueOk(v) ==> v > 0
  {
  }

  lemma TimedOutKeeps(s: System, id: nat)
    requires CallsInv(s) && id in s.mutexes && s.mutexes[id].holder.Held?
    ensures CallsInv(TimedOut(s, id))
  {
    hide Inv, Accounted, DisinheritAfterTimeout, HighestWaiting, Moved;
    var h := s.mutexes[id].holder.task;
    var w := HighestWaiting(s.k, id);
    HolderIs(s, id);
    HighestBelow(s, id);
    PriorityBounds(s.k, h);
    LateEffect(s.k, h, w);
    MovedKept(s.k, DisinheritAfterTimeout(s.k, h, w), h,
              if s.k.tcb[h].mutexesHeld == 1 then Max(s.k.tcb[h].base, w) else s.k.tcb[h].priority, s.mutexes);
    KeptAccounted(s.k.tcb, DisinheritAfterTimeout(s.k, h, w).tcb, s.mutexes);
  }

  // ----- runs

  /** Kernel actions, and the calls the running task makes on mutexes. */
  datatype Action =
    | Other(op: Op)
    | TakeCall(id: nat)
    | BlockCall(id: nat, ticks: nat)
    | GiveCall(id: nat)
    | TimeoutCall(id: nat)
    | CreateCall(id: nat, recursive: bool)
    | DeleteCall(id: nat)

  /** What the source asks of its callers. A caller that blocks has read back an item value that
      an event group had borrowed; a new mutex has an empty waiting list; no mutex is deleted
      while it is held. */
  ghost predicate Legal(s: System, a: Action) {
    match a
    case Other(op) => Enabled(s.k, op) && Apart(s, op)
    case TakeCall(id) => id in s.mutexes && Running(s.k)
    case BlockCall(id, ticks) =>
      && id in s.mutexes && s.mutexes[id].count == 0 && Running(s.k) && 1 <= ticks < MODULUS
      && !InUse(TcbOf(s.k, s.k.current).eventValue)
    case GiveCall(id) => id in s.mutexes && s.mutexes[id].holder == Held(s.k.current)
    case TimeoutCall(id) => id in s.mutexes && s.mutexes[id].count == 0
    case CreateCall(id, _) => id !in s.mutexes && WaitersOf(s.k, id) == []
    case DeleteCall(id) => id in s.mutexes && s.mutexes[id].holder == Nobody
  }

  ghost function Act(s: System, a: Action): System
    requires CallsInv(s) && Legal(s, a)
  {
    match a
    case Other(op) => s.(k := Step(s.k, op))
    case TakeCall(id) => Take(s, id)
    case BlockCall(id, ticks) => HeldWhenEmpty(s, id); BlockOn(s, id, ticks)
    case GiveCall(id) => GiveKeeps(s, id); Give(s, id)
    case TimeoutCall(id) => HeldWhenEmpty(s, id); TimedOut(s, id)
    case CreateCall(id, recursive) => s.(mutexes := s.mutexes[id := Mutex(1, Nobody, recursive, 0)])
    case DeleteCall(id) => s.(mutexes := s.mutexes - {id})
  }

  /** xQueueCreateMutex, and vQueueDelete of a mutex nobody holds. */
  lemma CreateKeeps(s: System, id: nat, m: Mutex)
    requires CallsInv(s) && id !in s.mutexes && WaitersOf(s.k, id) == [] && MutexOk(m) && m.holder == Nobody
    ensures Accounted(s.k.tcb, s.mutexes[id := m])
  {
    NoWaiters(s.k, id);
    hide Inv, ValueOk, InUse;
    forall t
      ensures HeldBy(s.mutexes[id := m], t) == HeldBy(s.mutexes, t)
    {
    }
  }

  lemma DeleteKeeps(s: System, id: nat)
    requires CallsInv(s) && id in s.mutexes && s.mutexes[id].holder == Nobody
    ensures Accounted(s.k.tcb, s.mutexes - {id})
  {
    hide Inv, ValueOk, InUse;
    forall t
      ensures HeldBy(s.mutexes - {id}, t) == HeldBy(s.mutexes, t)
    {
    }
  }

  lemma OnItsList(k: State, t: Task)
    requires Inv(k) && t in k.tcb && k.tcb[t].eventIn != NoEvent
    ensures t in EventsOf(k, k.tcb[t].eventIn).items && EventsOf(k, k.tcb[t].eventIn).items != []
  {
    assert t in At(k.events, k.tcb[t].eventIn).items;
  }

  lemma NoWaiters(k: State, id: nat)
    requires Inv(k) && WaitersOf(k, id) == []
    ensures forall w :: !WaitsFor(k.tcb, w, id)
  {
    forall w | WaitsFor(k.tcb, w, id)
      ensures false
    {
      OnItsList(k, w);
    }
  }

  lemma ActKeeps(s: System, a: Action)
    requires CallsInv(s) && Legal(s, a)
    ensures CallsInv(Act(s, a))
  {
    hide Inv, Accounted, Enabled, Apart, Step, Take, BlockOn, Give, TimedOut, Running, InUse;
    match a {
      case Other(op) =>
        StepInv(s.k, op);
        OtherKept(s, op);
        KeptAccounted(s.k.tcb, Step(s.k, op).tcb, s.mutexes);
      case TakeCall(id) => TakeKeeps(s, id);
      case BlockCall(id, ticks) => HeldWhenEmpty(s, id); BlockKeeps(s, id, ticks);
      case GiveCall(id) => GiveKeeps(s, id);
      case TimeoutCall(id) => HeldWhenEmpty(s, id); TimedOutKeeps(s, id);
      case CreateCall(id, recursive) => CreateKeeps(s, id, Mutex(1, Nobody, recursive, 0));
      case DeleteCall(id) => DeleteKeeps(s, id);
    }
  }

  ghost predicate Follows(s: System, actions: seq<Action>)
    requires CallsInv(s)
    decreases |actions|
  {
    actions == [] || (Legal(s, actions[0]) && (ActKeeps(s, actions[0]); Follows(Act(s, actions[0]), actions[1..])))
  }

  ghost function After(s: System, actions: seq<Action>): (s': System)
    requires CallsInv(s) && Follows(s, actions)
    ensures CallsInv(s')
    decreases |actions|
  {
    if actions == [] then s else ActKeeps(s, actions[0]); After(Act(s, actions[0]), actions[1..])
  }

  // ----- priorities in use

  predicate SetsPriority(a: Action) {
    a.Other? && a.op.SetPriority?
  }

  lemma MovedRanked(k: State, k': State, h: Task, p: nat)
    requires Ranked(k.tcb) && MovedOne(k, k', h, p) && k'.tcb[h].mutexesHeld == k.tcb[h].mutexesHeld > 0
             && k.tcb[h].base <= p
    ensures Ranked(k'.tcb)
  {
  }

  lemma BlockRanked(s: System, id: nat, ticks: nat)
    requires CallsInv(s) && Legal(s, BlockCall(id, ticks)) && Ranked(s.k.tcb)
    ensures Ranked(Act(s, BlockCall(id, ticks)).k.tcb)
  {
    hide Inv, Accounted, Running, Inherit, PlaceOnEventList, InUse, MovedOne, Ranked;
    HeldWhenEmpty(s, id);
    HolderIs(s, id);
    var h := s.mutexes[id].holder.task;
    var k1 := Inherit(s.k, h);
    InheritEffect(s.k, h);
    InheritKeeps(s, id);
    CurrentLive(s.k);
    CurrentLive(k1);
    HolderRanked(s.k.tcb, h);
    MovedRanked(s.k, k1, h, Max(s.k.tcb[h].priority, Priority(s.k, s.k.current)));
    WaitCounts(k1, s.mutexes, id, ticks);
    OneRanked(k1.tcb, Ask(PlaceOnEventList(k1, id, ticks), true).tcb, k1.current);
  }

  lemma HolderRanked(tcb: Tcbs, h: Task)
    requires Ranked(tcb) && h in tcb
    ensures tcb[h].base <= tcb[h].priority
  {
  }

  lemma OneRanked(tcb: Tcbs, tcb': Tcbs, c: Task)
    requires Ranked(tcb) && c in tcb && c in tcb' && tcb' == tcb[c := tcb'[c]] && SameRank(tcb[c], tcb'[c])
    ensures Ranked(tcb')
  {
  }

  lemma GiveRanked(s: System, id: nat)
    requires CallsInv(s) && Legal(s, GiveCall(id)) && Ranked(s.k.tcb)
    ensures Ranked(Act(s, GiveCall(id)).k.tcb)
  {
    hide Inv, Accounted, Disinherit, RemoveFromEventList, EventsOf, InUse;
    GivenBack(s, id);
    HolderIs(s, id);
    DisinheritEffect(s.k);
    var k1 := Disinherit(s.k);
    var m := s.mutexes[id];
    if !(m.recursive && m.depth > 1) && WaitersOf(k1, id) != [] {
      WokenKeeps(k1, id, s.mutexes[id := m.(count := 1, holder := Nobody, depth := 0)]);
    }
  }

  lemma TimeoutRanked(s: System, id: nat)
    requires CallsInv(s) && Legal(s, TimeoutCall(id)) && Ranked(s.k.tcb)
    ensures Ranked(Act(s, TimeoutCall(id)).k.tcb)
  {
    hide Inv, Accounted, DisinheritAfterTimeout, HighestWaiting, MovedOne, Ranked;
    HeldWhenEmpty(s, id);
    HolderIs(s, id);
    HighestBelow(s, id);
    var h := s.mutexes[id].holder.task;
    var w := HighestWaiting(s.k, id);
    LateEffect(s.k, h, w);
    HolderRanked(s.k.tcb, h);
    MovedRanked(s.k, DisinheritAfterTimeout(s.k, h, w), h,
                if s.k.tcb[h].mutexesHeld == 1 then Max(s.k.tcb[h].base, w) else s.k.tcb[h].priority);
  }

  lemma TakeRanked(s: System, id: nat)
    requires CallsInv(s) && Legal(s, TakeCall(id)) && Ranked(s.k.tcb)
    ensures Ranked(Take(s, id).k.tcb)
  {
    hide Inv, Accounted;
  }

  lemma ActRanked(s: System, a: Action)
    requires CallsInv(s) && Legal(s, a) && Ranked(s.k.tcb) && !SetsPriority(a)
    ensures Ranked(Act(s, a).k.tcb)
  {
    hide Inv, Accounted, Ranked, Enabled, Apart, Step, Take, BlockOn, Give, TimedOut, Running, InUse, Kept, SameRanks;
    match a {
      case Other(op) =>
        OtherKept(s, op);
        RanksKept(s.k.tcb, Step(s.k, op).tcb);
      case TakeCall(id) => TakeRanked(s, id);
      case BlockCall(id, ticks) => BlockRanked(s, id, ticks);
      case GiveCall(id) => GiveRanked(s, id);
      case TimeoutCall(id) => TimeoutRanked(s, id);
      case CreateCall(_, _) =>
      case DeleteCall(_) =>
    }
  }

  lemma {:induction false} RunRanked(s: System, actions: seq<Action>)
    requires CallsInv(s) && Follows(s, actions) && Ranked(s.k.tcb) && forall a :: a in actions ==> !SetsPriority(a)
    ensures Ranked(After(s, actions).k.tcb)
    decreases |actions|
  {
    hide CallsInv, Legal, Act, Ranked, SetsPriority;
    if actions != [] {
      ActKeeps(s, actions[0]);
      ActRanked(s, actions[0]);
      RunRanked(Act(s, actions[0]), actions[1..]);
    }
  }

  /** In every run: a mutex is free exactly when it has no holder, and a recursive one exactly
      when its depth is zero; a task's count is the number of mutexes that name it. If the run
      never sets a priority, a base priority never exceeds the priority in use and equals it
      while the task holds nothing. */
  lemma MutexAccounting(s: System, actions: seq<Action>, id: nat, t: Task)
    requires CallsInv(s) && Follows(s, actions)
    ensures var s' := After(s, actions);
            && (id in s'.mutexes ==> (s'.mutexes[id].count == 1 <==> s'.mutexes[id].holder == Nobody))
            && (id in s'.mutexes && s'.mutexes[id].recursive ==>
                (s'.mutexes[id].depth == 0 <==> s'.mutexes[id].holder == Nobody))
            && (t in s'.k.tcb ==> s'.k.tcb[t].mutexesHeld == |HeldBy(s'.mutexes, t)|)
            && (t in s'.k.tcb && Ranked(s.k.tcb) && (forall a :: a in actions ==> !SetsPriority(a)) ==>
                  var b := s'.k.tcb[t];
                  b.base <= b.priority && (b.mutexesHeld == 0 ==> b.priority == b.base))
  {
    hide Inv, ValueOk, SetsPriority, Follows, After;
    var s' := After(s, actions);
    assert t in s'.k.tcb ==> CountOk(s'.k.tcb[t], |HeldBy(s'.mutexes, t)|);
    if Ranked(s.k.tcb) && forall a :: a in actions ==> !SetsPriority(a) {
      RunRanked(s, actions);
      assert t in s'.k.tcb ==> RankOk(s'.k.tcb[t]);
    }
  }

  // ----- recursive mutexes balance takes and gives

  /** Successful takes of `id` minus gives of it. */
  ghost function Balance(s: System, actions: seq<Action>, id: nat): int
    requires CallsInv(s) && Follows(s, actions)
    decreases |actions|
  {
    if actions == [] then 0 else
      ActKeeps(s, actions[0]);
      (if actions[0] == TakeCall(id) && Succeeds(s, id) then 1 else if actions[0] == GiveCall(id) then -1 else 0)
      + Balance(Act(s, actions[0]), actions[1..], id)
  }

  predicate Succeeds(s: System, id: nat) {
    id in s.mutexes && (s.mutexes[id].count > 0
        || (s.mutexes[id].recursive && s.mutexes[id].holder == Held(s.k.current)))
  }

  lemma ActDepth(s: System, a: Action, id: nat)
    requires CallsInv(s) && Legal(s, a) && id in s.mutexes && s.mutexes[id].recursive && a != DeleteCall(id)
    ensures var s' := Act(s, a);
            && id in s'.mutexes && s'.mutexes[id].recursive
            && s'.mutexes[id].depth == s.mutexes[id].depth
               + if a == TakeCall(id) && Succeeds(s, id) then 1 else if a == GiveCall(id) then -1 else 0
  {
    hide Inv, Enabled, Apart, Step, Inherit, PlaceOnEventList, Disinherit, RemoveFromEventList, DisinheritAfterTimeout,
      InUse, CountOk, WaitersOf;
    if a.GiveCall? {
      GiveKeeps(s, a.id);
    } else if a.BlockCall? || a.TimeoutCall? {
      HeldWhenEmpty(s, a.id);
    }
  }

  lemma {:induction false} DepthBalances(s: System, actions: seq<Action>, id: nat)
    requires CallsInv(s) && Follows(s, actions) && id in s.mutexes && s.mutexes[id].recursive
             && DeleteCall(id) !in actions
    ensures var s' := After(s, actions);
            && id in s'.mutexes && s'.mutexes[id].recursive
            && s'.mutexes[id].depth == s.mutexes[id].depth + Balance(s, actions, id)
    decreases |actions|
  {
    hide CallsInv, Legal, Act, Succeeds;
    if actions != [] {
      ActKeeps(s, actions[0]);
      ActDepth(s, actions[0], id);
      DepthBalances(Act(s, actions[0]), actions[1..], id);
    }
  }

  /** A recursive mutex that begins a run free is free again at its end exactly if gives have
      matched takes; until then one and the same count of levels is owed. */
  lemma ReleasedWhenBalanced(s: System, actions: seq<Action>, id: nat)
    requires CallsInv(s) && Follows(s, actions) && id in s.mutexes && s.mutexes[id].recursive
             && s.mutexes[id].holder == Nobody
    requires DeleteCall(id) !in actions
    ensures var s' := After(s, actions);
            && id in s'.mutexes && Balance(s, actions, id) >= 0 && s'.mutexes[id].depth == Balance(s, actions, id)
            && (s'.mutexes[id].holder == Nobody <==> Balance(s, actions, id) == 0)
  {
    hide Inv, CountOk, Follows, After, Balance;
    DepthBalances(s, actions, id);
  }

  /** A run can begin with all mutexes just created. */
  lemma StartedCalls(idle: Task, mutexes: map<nat, Mutex>)
    requires forall id :: id in mutexes ==> MutexOk(mutexes[id]) && mutexes[id].holder == Nobody
    ensures CallsInv(System(Started(idle), mutexes, map[])) && Ranked(Started(idle).tcb)
  {
    hide Inv;
    StartedInv(idle);
    assert HeldBy(mutexes, idle) == {};
  }
}
