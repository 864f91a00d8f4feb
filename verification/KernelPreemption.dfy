/** Preemption: the running task is ready and outranked by no ready task, or a switch is
    requested. */
module KernelPreemption {
  import opened Words
  import opened Lists
  import opened Kernel
  import opened KernelInvariants
  import opened KernelTime
  import opened KernelOps
  import opened KernelRuns

  predicate SwitchRequested(k: State) {
    k.yieldPending || k.yieldAsked
  }

  ghost predicate NoneOutranks(k: State) {
    IsReady(k, k.current) && forall t :: IsReady(k, t) ==> Priority(k, t) <= Priority(k, k.current)
  }

  ghost predicate Preemptive(k: State) {
    SwitchRequested(k) || NoneOutranks(k)
  }

  /** The one task an action changes does not get ahead of the running one unnoticed. */
  ghost predicate Behaves(k: State, k': State, x: Task) {
    && k'.current == k.current && (SwitchRequested(k) ==> SwitchRequested(k'))
    && (|| SwitchRequested(k')
        || (x == k.current && IsReady(k', x) && Priority(k', x) >= Priority(k, x))
        || (x != k.current && (IsReady(k', x) ==>
              (IsReady(k, x) && Priority(k', x) <= Priority(k, x)) || Priority(k', x) <= Priority(k, k.current))))
  }

  lemma TouchKeeps(k: State, k': State, x: Task)
    requires Preemptive(k) && OnlyTouches(k, k', x) && Behaves(k, k', x)
    ensures Preemptive(k')
  {
    if !SwitchRequested(k') {
      forall t | IsReady(k', t)
        ensures Priority(k', t) <= Priority(k', k'.current)
      {
        if t != x {
          assert IsReady(k, t);
        }
      }
    }
  }

  // ----- ticks

  /** A task the tick makes ready requests a switch unless the running task outranks it. */
  lemma TickRequests(k: State, t: Task)
    requires Settled(k) && t in k.tcb && t in Increment(k).tcb && Increment(k).tcb[t] != k.tcb[t]
    requires Priority(k, t) >= Priority(k, k.current)
    ensures IncrementSwitches(k)
  {
    hide ListsOk, EventsOk, TimeOk, NoneDue, PrioritiesOk, CountsOk, BlockedOk, Expired, MakeAllReady, Advanced,
      TimeSlice, ResetNextUnblock;
    var k1 := Advanced(k);
    AdvancedCore(k);
    WakeExpiredExact(k1);
    ExpiredAreDue(k1);
    assert t in Expired(k1);
    assert Priority(k1, t) == Priority(k, t);
  }

  lemma IncrementKeeps(k: State)
    requires Settled(k) && Preemptive(k) && !SwitchRequested(k) && !IncrementSwitches(k)
    ensures NoneOutranks(Increment(k))
  {
    hide Settled, Increment, IncrementSwitches, WakeAt;
    var k' := Increment(k);
    IncrementTicks(k);
    forall t | t in k.tcb && k'.tcb[t] != k.tcb[t]
      ensures Priority(k, t) < Priority(k, k.current)
    {
      if Priority(k, t) >= Priority(k, k.current) {
        TickRequests(k, t);
      }
    }
    SameRanks(k, k');
  }

  lemma SameRanks(k: State, k': State)
    requires Ticked(k, k', 1) && TickFrame(k, k') && NoneOutranks(k)
    requires forall t :: t in k.tcb && k'.tcb[t] != k.tcb[t] ==> Priority(k, t) < Priority(k, k.current)
    ensures NoneOutranks(k')
  {
    hide WakeAt;
    assert k'.tcb[k.current] == k.tcb[k.current];
    forall t | IsReady(k', t)
      ensures Priority(k', t) <= Priority(k', k'.current)
    {
      if k'.tcb[t] == k.tcb[t] {
        assert IsReady(k, t);
      }
    }
  }

  lemma TickPreempts(k: State)
    requires Inv(k) && Preemptive(k)
    ensures Preemptive(SysTick(k))
  {
    hide Core, NoneDue, Increment, IncrementSwitches;
    if k.suspended == 0 {
      IncrementFlags(k);
      if !SwitchRequested(SysTick(k)) {
        IncrementKeeps(k);
        RanksOf(Increment(k), SysTick(k));
      }
    } else {
      RanksOf(k, SysTick(k));
    }
  }

  lemma RanksOf(k: State, k': State)
    requires k'.tcb == k.tcb && k'.current == k.current
    ensures NoneOutranks(k) ==> NoneOutranks(k')
  {
    assert forall t :: IsReady(k', t) <==> IsReady(k, t);
    assert forall t :: Priority(k', t) == Priority(k, t);
  }

  // ----- xTaskResumeAll

  lemma CatchUpOneKeeps(k: State)
    requires Settled(k) && Preemptive(k)
    ensures Preemptive(Pend(Increment(k), IncrementSwitches(k)))
  {
    hide Settled, Increment, IncrementSwitches;
    IncrementFlags(k);
    if !SwitchRequested(k) && !IncrementSwitches(k) {
      IncrementKeeps(k);
      RanksOf(Increment(k), Pend(Increment(k), IncrementSwitches(k)));
    }
  }

  lemma {:induction false} CatchUpKeeps(k: State, n: nat)
    requires Settled(k) && Preemptive(k)
    ensures Preemptive(CatchUp(k, n))
    decreases n
  {
    hide Settled, Preemptive, Increment, IncrementSwitches;
    if n > 0 {
      CatchUpOne(k);
      CatchUpOneKeeps(k);
      CatchUpKeeps(Pend(Increment(k), IncrementSwitches(k)), n - 1);
    }
  }

  lemma DrainKeeps(k: State)
    requires Settled(k) && Preemptive(k)
    ensures Preemptive(DrainPending(k))
  {
    hide Settled, MakeAllReady, ResetNextUnblock, NoDup, AllBlocked, EventsOf;
    var ts := EventsOf(k, Pending).items;
    if ts != [] {
      var k1 := MakeAllReady(k, ts);
      PendingTasks(k);
      MakeAllReadyEffect(k, ts);
      WakingFlags(k, ts);
      ResetRanks(Pend(k1, AnyReaches(k, ts, Priority(k, k.current))));
      if !SwitchRequested(k) && !AnyReaches(k, ts, Priority(k, k.current)) {
        DrainedRanks(k, k1, ts);
        RanksOf(k1, DrainPending(k));
      }
    }
  }

  lemma ResetRanks(k: State)
    ensures var k' := ResetNextUnblock(k);
            && k'.tcb == k.tcb && k'.current == k.current
            && k'.yieldPending == k.yieldPending && k'.yieldAsked == k.yieldAsked
  {
  }

  lemma DrainedRanks(k: State, k1: State, ts: seq<Task>)
    requires NoneOutranks(k) && !AnyReaches(k, ts, Priority(k, k.current)) && k1.current == k.current
    requires k1.tcb.Keys == k.tcb.Keys && forall t :: t in k.tcb && t !in ts ==> k1.tcb[t] == k.tcb[t]
    requires forall t :: t in ts ==> t in k.tcb && Woken(k.tcb[t], k1.tcb[t])
    ensures NoneOutranks(k1)
  {
    forall t | IsReady(k1, t)
      ensures Priority(k1, t) <= Priority(k1, k1.current)
    {
      if t !in ts {
        assert IsReady(k, t);
      } else {
        assert Priority(k, t) < Priority(k, k.current);
      }
    }
  }

  lemma ResumePreempts(k: State)
    requires Inv(k) && k.suspended > 0 && Preemptive(k)
    ensures Preemptive(ResumeAll(k))
  {
    hide Inv, Settled, DrainPending, CatchUp, TickFrame, Drained, NoneOutranks, EventsOf;
    var k0 := k.(suspended := k.suspended - 1);
    RanksOf(k, k0);
    if k.suspended == 1 {
      ResumeSettled(k);
      DrainPendingExact(k0);
      DrainKeeps(k0);
      CatchUpKeeps(DrainPending(k0), k.pended);
      RanksOf(CatchUp(DrainPending(k0), k.pended), ResumeAll(k));
    }
  }

  // ----- the other actions

  ghost predicate ReadyAbove(k: State, p: nat) {
    exists t :: t != k.current && IsReady(k, t) && Priority(k, t) > p
  }

  /** A disinheritance after a timeout that puts the holder above the running task (its base
      priority was lifted while it had inherited, or a waiter is above it), or that lowers the
      running task itself below another ready one. */
  ghost predicate LateOutranks(k: State, h: Task, waiting: nat) {
    var p := Max(TcbOf(k, h).base, waiting);
    && TcbOf(k, h).mutexesHeld == 1
    && if h == k.current then ReadyAbove(k, p) else IsReady(k, h) && p > Priority(k, k.current)
  }

  /** Every action, with the exact condition on the two that lower a priority without asking for
      a switch: the disinheritance inside a give (the give around it is in `MutexPreemption`),
      and that of another task after a timeout. */
  ghost predicate Counted(k: State, op: Op) {
    && (op.Lower? ==> SwitchRequested(k) || !(Lowers(k) && ReadyAbove(k, TcbOf(k, k.current).base)))
    && (op.LowerLate? ==> SwitchRequested(k) || !LateOutranks(k, op.task, op.waiting))
  }

  lemma SwitchPreempts(k: State)
    requires Inv(k) && SomeReady(k)
    ensures Preemptive(Step(k, Switch))
  {
    hide ListsOk, EventsOk, TimeOk, NoneDue, PrioritiesOk, CountsOk, BlockedOk;
    SelectedLive(k);
    hide HighestReady, Advance, Selected, ListOf;
    var k' := Step(k, Switch);
    if k.suspended == 0 {
      assert forall t :: IsReady(k', t) <==> IsReady(k, t);
    }
  }

  lemma WakeBehaves(k: State, id: nat)
    requires Inv(k) && EventsOf(k, Waiters(id)).items != [] && Preemptive(k)
    ensures Behaves(k, RemoveFromEventList(k, id), EventsOf(k, Waiters(id)).items[0])
  {
    HeadWaits(k, Waiters(id));
    hide Inv, RemoveFromEventList, Moves, Leaves, Pends, NoneOutranks, EventsOf;
    RemoveFromEventListInv(k, id);
  }

  lemma NotReady(k: State, t: Task)
    requires Inv(k) && t in k.tcb && (k.tcb[t].eventIn != NoEvent || !k.tcb[t].stateIn.Ready?)
    ensures !IsReady(k, t)
  {
  }

  lemma WakingBehaves(k: State, op: Op)
    requires Inv(k) && Enabled(k, op) && Preemptive(k) && (op.WakeUnordered? || op.Continue? || op.Abort?)
    ensures Behaves(k, Step(k, op), Target(k, op))
  {
    hide Inv, RemoveFromUnordered, Resume, AbortDelay, MarkInUse, Moves, Leaves, EventsOf, ListOf, NoneOutranks;
    var t := Target(k, op);
    match op {
      case WakeUnordered(_, v) =>
        NotReady(k, t);
        RemoveFromUnorderedInv(k, t, v);
      case Continue(_) =>
        SelfBehaves(k, t);
        ResumeInv(k, t);
      case Abort(_) =>
        SelfBehaves(k, t);
        AbortDelayInv(k, t);
    }
  }

  lemma SelfBehaves(k: State, t: Task)
    requires Preemptive(k)
    ensures Behaves(k, k, t)
  {
  }

  lemma LifeBehaves(k: State, op: Op)
    requires Inv(k) && Enabled(k, op) && Preemptive(k) && (op.New? || op.Remove? || op.Collect? || op.Halt?)
    ensures Behaves(k, Step(k, op), Target(k, op))
  {
    hide Inv, Create, Delete, CleanUp, Kernel.Suspend, Moves, Leaves, Vanishes, ListOf, EventsOf, NoneOutranks;
    CurrentLive(k);
    match op {
      case New(t, p) => CreateInv(k, t, p);
      case Remove(t) => if t == k.current { DeleteSelfInv(k); } else { DeleteOtherInv(k, t); }
      case Collect =>
        TerminatedHead(k);
        CleanUpInv(k);
      case Halt(t) => SuspendInv(k, t);
    }
  }

  // ----- priorities

  lemma InheritBehaves(k: State, h: Task)
    requires Inv(k) && h in k.tcb && Preemptive(k)
    ensures Behaves(k, Inherit(k, h), h)
  {
    hide Inv, Inherit, MovesIfReady, Following, NoneOutranks, ListOf;
    CurrentLive(k);
    SelfBehaves(k, h);
    InheritInv(k, h);
  }

  lemma LateTcb(k: State, h: Task, w: nat)
    requires Inv(k) && h in k.tcb && w < MAX_PRIORITIES
    ensures var k' := DisinheritAfterTimeout(k, h, w);
            var p := if k.tcb[h].mutexesHeld == 1 then Max(k.tcb[h].base, w) else k.tcb[h].priority;
            && k'.current == k.current && k'.yieldPending == k.yieldPending && k'.yieldAsked == k.yieldAsked
            && h in k'.tcb && k'.tcb == k.tcb[h := k'.tcb[h]] && k'.tcb[h].priority == p
            && (IsReady(k', h) <==> IsReady(k, h))
  {
    hide Inv, DisinheritAfterTimeout, MovesIfReady, Following;
    ReadyFacts(k, h);
    assert k.tcb == k.tcb[h := k.tcb[h]];
    DisinheritAfterTimeoutInv(k, h, w);
  }

  /** A late disinheritance leaves the running task outranked with no switch requested exactly
      in those cases. */
  lemma LatePreempts(k: State, h: Task, w: nat)
    requires Inv(k) && h in k.tcb && w < MAX_PRIORITIES && Preemptive(k) && !SwitchRequested(k)
    ensures Preemptive(DisinheritAfterTimeout(k, h, w)) <==> !LateOutranks(k, h, w)
  {
    hide Inv, DisinheritAfterTimeout;
    var k' := DisinheritAfterTimeout(k, h, w);
    LateTcb(k, h, w);
    if h == k.current {
      LateSelf(k, k', Priority(k', h));
    } else if LateOutranks(k, h, w) {
      assert IsReady(k', h) && Priority(k', h) > Priority(k', k'.current);
    } else {
      LateRanks(k, k', h);
    }
  }

  /** The running task itself changes priority. */
  lemma LateSelf(k: State, k': State, p: nat)
    requires NoneOutranks(k) && !SwitchRequested(k) && k'.current == k.current
    requires k'.yieldPending == k.yieldPending && k'.yieldAsked == k.yieldAsked
    requires k.current in k.tcb && k.current in k'.tcb && k'.tcb == k.tcb[k.current := k'.tcb[k.current]]
    requires IsReady(k', k.current) && k'.tcb[k.current].priority == p
    ensures Preemptive(k') <==> !ReadyAbove(k, p)
    ensures !ReadyAbove(k, Priority(k, k.current))
  {
    NoneAbove(k);
    if ReadyAbove(k, p) {
      var t :| t != k.current && IsReady(k, t) && Priority(k, t) > p;
      assert IsReady(k', t) && Priority(k', t) > Priority(k', k'.current);
    } else {
      LoweredRanks(k, k');
    }
  }

  lemma LateRanks(k: State, k': State, h: Task)
    requires NoneOutranks(k) && k'.current == k.current && h != k.current && h in k'.tcb
             && k'.tcb == k.tcb[h := k'.tcb[h]]
    requires IsReady(k', h) ==> k'.tcb[h].priority <= Priority(k, k.current)
    ensures NoneOutranks(k')
  {
    forall t | IsReady(k', t)
      ensures Priority(k', t) <= Priority(k', k'.current)
    {
      if t != h {
        assert IsReady(k, t);
      }
    }
  }

  lemma LateKeeps(k: State, h: Task, w: nat)
    requires Inv(k) && h in k.tcb && w < MAX_PRIORITIES && Preemptive(k) && Counted(k, LowerLate(h, w))
    ensures Preemptive(DisinheritAfterTimeout(k, h, w))
  {
    hide Inv, DisinheritAfterTimeout, NoneOutranks, LateOutranks;
    LateTcb(k, h, w);
    if !SwitchRequested(k) {
      LatePreempts(k, h, w);
    }
  }

  lemma LowerTcb(k: State)
    requires Inv(k) && TcbOf(k, k.current).mutexesHeld > 0
    ensures var k' := Disinherit(k);
            var c := k.current;
            && k'.current == c && k'.yieldPending == k.yieldPending && k'.yieldAsked == k.yieldAsked
            && c in k.tcb && c in k'.tcb && k'.tcb == k.tcb[c := k'.tcb[c]]
            && k'.tcb[c].priority == (if Lowers(k) then k.tcb[c].base else k.tcb[c].priority)
            && (IsReady(k', c) <==> IsReady(k, c))
  {
    hide Inv, Disinherit, MovesIfReady;
    CurrentLive(k);
    ReadyFacts(k, k.current);
    DisinheritInv(k);
  }

  /** No other ready task is above the priority the running one is left with. */
  lemma LoweredRanks(k: State, k1: State)
    requires NoneOutranks(k) && k1.current == k.current && k.current in k.tcb && k.current in k1.tcb
    requires k1.tcb == k.tcb[k.current := k1.tcb[k.current]] && IsReady(k1, k.current)
    requires !ReadyAbove(k, Priority(k1, k.current))
    ensures NoneOutranks(k1)
  {
    forall t | IsReady(k1, t)
      ensures Priority(k1, t) <= Priority(k1, k1.current)
    {
      if t != k.current {
        assert IsReady(k, t);
      }
    }
  }

  lemma NoneAbove(k: State)
    requires NoneOutranks(k)
    ensures !ReadyAbove(k, Priority(k, k.current))
  {
  }

  /** A disinheritance on its own leaves the running task outranked exactly when another ready
      task is above its base priority. */
  lemma LowerPreempts(k: State)
    requires Inv(k) && TcbOf(k, k.current).mutexesHeld > 0 && Preemptive(k) && !SwitchRequested(k)
    ensures Preemptive(Disinherit(k)) <==> !(Lowers(k) && ReadyAbove(k, TcbOf(k, k.current).base))
  {
    hide Inv, Disinherit;
    var k' := Disinherit(k);
    LowerTcb(k);
    if Lowers(k) && ReadyAbove(k, TcbOf(k, k.current).base) {
      var t :| t != k.current && IsReady(k, t) && Priority(k, t) > TcbOf(k, k.current).base;
      assert IsReady(k', t) && Priority(k', t) > Priority(k', k'.current);
    } else {
      NoneAbove(k);
      LoweredRanks(k, k');
    }
  }

  lemma LowerKeeps(k: State)
    requires Inv(k) && TcbOf(k, k.current).mutexesHeld > 0 && Preemptive(k) && Counted(k, Lower)
    ensures Preemptive(Disinherit(k))
  {
    hide Inv, Disinherit, NoneOutranks, ReadyAbove;
    LowerTcb(k);
    if !SwitchRequested(k) {
      LowerPreempts(k);
    }
  }

  lemma SetBehaves(k: State, t: Task, p: nat)
    requires Inv(k) && t in k.tcb && p < MAX_PRIORITIES && Preemptive(k)
    ensures Behaves(k, PrioritySet(k, t, p), t)
  {
    hide Inv, PrioritySet, MovesIfReady, Following, NoneOutranks;
    ReadyFacts(k, t);
    SelfBehaves(k, t);
    PrioritySetInv(k, t, p);
  }

  lemma ReadBehaves(k: State)
    requires Inv(k) && Preemptive(k)
    ensures Behaves(k, ResetItem(k), k.current)
  {
    hide Core, NoneDue;
  }

  lemma OrdinaryBehaves(k: State, op: Op)
    requires Inv(k) && Enabled(k, op) && Preemptive(k) && Counted(k, op)
    requires op.Wake? || op.SetPriority? || op.Raise? || op.ReadItem? || Blocks(op)
    ensures Behaves(k, Step(k, op), Target(k, op))
  {
    hide Inv, DelayCurrent, PlaceOnEventList, PlaceOnUnorderedEventList, RemoveFromEventList, PrioritySet, Inherit,
      DisinheritAfterTimeout, Preemptive, Running, EventsOf, ListOf;
    if op.Wake? {
      WakeBehaves(k, op.id);
    } else if op.SetPriority? {
      SetBehaves(k, op.task, op.priority);
    } else if op.Raise? {
      InheritBehaves(k, op.task);
    } else if op.ReadItem? {
      ReadBehaves(k);
    } else {
      BlockBehaves(k, op);
    }
  }

  lemma StepBehaves(k: State, op: Op)
    requires Inv(k) && Enabled(k, op) && Preemptive(k) && Counted(k, op)
    requires !op.Tick? && !op.Switch? && !op.Resuming? && !op.Suspending? && !op.LowerLate? && !op.Lower?
    ensures Behaves(k, Step(k, op), Target(k, op))
  {
    hide Inv, DelayCurrent, PlaceOnEventList, PlaceOnUnorderedEventList, RemoveFromEventList, RemoveFromUnordered,
      Create, Delete, CleanUp, Kernel.Suspend, Resume, AbortDelay, PrioritySet, Inherit, DisinheritAfterTimeout,
      Preemptive, Running, EventsOf, ListOf;
    if op.WakeUnordered? || op.Continue? || op.Abort? {
      WakingBehaves(k, op);
    } else if op.New? || op.Remove? || op.Collect? || op.Halt? {
      LifeBehaves(k, op);
    } else {
      OrdinaryBehaves(k, op);
    }
  }

  lemma BlockBehaves(k: State, op: Op)
    requires Inv(k) && Enabled(k, op) && Blocks(op)
    ensures Behaves(k, Step(k, op), k.current)
  {
    hide Inv, Running, DelayCurrent, PutEventSorted, PutEventEnd, MarkInUse;
    match op {
      case Sleep(ticks) => DelayEffect(k, ticks, false);
      case Wait(id, ticks) =>
        PutEventTouches(k, Waiters(id), 0);
        DelayEffect(PutEventSorted(k, k.current, Waiters(id)), ticks, true);
      case WaitUnordered(id, v, ticks) =>
        PutEventTouches(k, Waiters(id), MarkInUse(v));
        DelayEffect(PutEventEnd(SetEventValue(k, k.current, MarkInUse(v)), k.current, Waiters(id)), ticks, true);
      case WaitRestricted(id, ticks, indefinitely) =>
        PutEventTouches(k, Waiters(id), 0);
        DelayEffect(PutEventEnd(k, k.current, Waiters(id)), if indefinitely then MAX_DELAY else ticks, indefinitely);
    }
  }

  /** No action but a lowering one that meets its condition exactly gets a ready task ahead of
      the running one unnoticed. */
  lemma StepPreempts(k: State, op: Op)
    requires Inv(k) && Enabled(k, op) && Preemptive(k) && Counted(k, op)
    ensures Preemptive(Step(k, op))
  {
    hide Inv, DelayCurrent, PlaceOnEventList, PlaceOnUnorderedEventList, RemoveFromEventList, RemoveFromUnordered,
      Create, Delete, CleanUp, Kernel.Suspend, Resume, AbortDelay, PrioritySet, Inherit, DisinheritAfterTimeout,
      Preemptive, Running, EventsOf, ListOf, SysTick, SwitchContext, ResumeAll, SomeReady, Behaves, OnlyTouches;
    if op.Tick? {
      TickPreempts(k);
    } else if op.Switch? {
      SwitchPreempts(k);
    } else if op.Resuming? {
      ResumePreempts(k);
    } else if op.Suspending? {
      SuspendPreempts(k);
    } else if op.LowerLate? {
      LateKeeps(k, op.task, op.waiting);
    } else if op.Lower? {
      LowerKeeps(k);
    } else {
      StepTouches(k, op);
      StepBehaves(k, op);
      TouchKeeps(k, Step(k, op), Target(k, op));
    }
  }

  lemma SuspendPreempts(k: State)
    requires Preemptive(k)
    ensures Preemptive(SuspendAll(k))
  {
    RanksOf(k, SuspendAll(k));
  }

  lemma StartedPreemptive(idle: Task)
    ensures Preemptive(Started(idle))
  {
  }

  /** Such a state: task 1 inherited priority 3, then vTaskPrioritySet lifted its base to 5;
      task 0, of priority 4, is running. */
  const RUNNER: Tcb := Tcb(4, 4, 0, 0, 11, Ready(4), NoEvent, false)
  const LIFTED: Tcb := Tcb(3, 5, 1, 0, 10, Ready(3), NoEvent, false)

  function LiftedTcbs(): Tcbs {
    map[0 := RUNNER, 1 := LIFTED]
  }

  function LiftedLists(): StateLists {
    map[Ready(4) := Ring([0], 1), Ready(3) := Ring([1], 0)]
  }

  function Lifted(): State {
    Still(LiftedTcbs(), LiftedLists(), map[], 0, 4)
  }

  /** There, the time-out of a waiter puts task 1 above task 0, and nobody asks for a switch. */
  lemma LateDisinheritanceCanRaise(w: nat)
    requires w < MAX_PRIORITIES
    ensures Inv(Lifted()) && Preemptive(Lifted()) && !SwitchRequested(Lifted())
    ensures !Preemptive(DisinheritAfterTimeout(Lifted(), 1, w))
  {
    hide Inv, DisinheritAfterTimeout;
    LiftedInv();
    LatePreempts(Lifted(), 1, w);
  }

  lemma LiftedPlaced()
    ensures Placed(LiftedTcbs(), LiftedLists())
  {
  }

  lemma LiftedInv()
    ensures Inv(Lifted())
  {
    hide Inv, Placed, Queued;
    LiftedPlaced();
    NothingQueued();
    StillInv(LiftedTcbs(), LiftedLists(), map[], 0, 4);
  }

  lemma NothingQueued()
    ensures Queued(LiftedTcbs(), map[])
  {
  }

  /** Time slicing: after a tick, another ready task of the running task's priority has had a
      switch requested for it. */
  lemma TickSlices(k: State, t: Task)
    requires Inv(k) && k.suspended == 0
    requires var k' := SysTick(k);
             IsReady(k', t) && IsReady(k', k'.current) && t != k'.current && Priority(k', t) == Priority(k', k'.current)
    ensures SysTick(k).yieldAsked
  {
    hide Core, NoneDue, Increment;
    IncrementTicks(k);
    hide Ticked, Settled;
    TwoOnList(Increment(k), t);
  }

  lemma TwoOnList(k: State, t: Task)
    requires Settled(k) && IsReady(k, t) && IsReady(k, k.current) && t != k.current
             && Priority(k, t) == Priority(k, k.current)
    ensures TimeSlice(k)
  {
    var l := Ready(Priority(k, k.current));
    assert t in At(k.lists, l).items && k.current in At(k.lists, l).items;
  }
}
