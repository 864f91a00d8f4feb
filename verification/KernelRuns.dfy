/** Whole runs of the scheduler: ticks, interrupts and calls in any order. */
module KernelRuns {
  import opened Words
  import opened Lists
  import opened Kernel
  import opened KernelInvariants
  import opened KernelTime
  import opened KernelOps

  // ----- the tick interrupt and xTaskResumeAll

  lemma TickedEvents(k: State, k': State, n: nat)
    requires Ticked(k, k', n)
    ensures forall t :: t in k'.tcb && k'.tcb[t].eventIn == Pending ==> t in k.tcb && k.tcb[t].eventIn == Pending
  {
  }

  /** The tick interrupt. While the scheduler runs, it wakes exactly the tasks that are due and
      asks for a switch exactly if one was pending, one of those tasks has at least the running
      task's priority, or two ready tasks now have that priority; while it is suspended, the tick
      is only counted. */
  lemma SysTickInv(k: State)
    requires Inv(k)
    ensures Inv(SysTick(k))
    ensures var k' := SysTick(k);
            if k.suspended > 0 then k' == k.(pended := k.pended + 1)
            else Ticked(k, k', 1) && k'.current == k.current && k'.suspended == 0 && k'.pended == 0
                 && (k'.yieldAsked <==>
                     k.yieldAsked || k.yieldPending || DueReaches(k, k.tick + 1) || Contended(k'))
  {
    hide Increment, IncrementSwitches, DueReaches, Contended;
    if k.suspended == 0 {
      var k' := Increment(k);
      IncrementTicks(k);
      IncrementAsks(k);
      TickedEvents(k, k', 1);
      hide Ticked, ListsOk, TimeOk, NoneDue, PrioritiesOk, CountsOk, BlockedOk, EventsOk;
      NonePendingFrame(k, k');
      FlagsInv(k', SysTick(k));
      FlagsAside(k, k', SysTick(k));
    }
  }

  /** The flags play no part in what has been woken and what is ready. */
  lemma FlagsAside(k: State, k1: State, k2: State)
    requires k2 == k1.(yieldPending := k2.yieldPending, yieldAsked := k2.yieldAsked)
    ensures forall n :: Ticked(k, k1, n) ==> Ticked(k, k2, n)
    ensures Contended(k2) <==> Contended(k1)
  {
    assert forall t :: WakeAt(k2, t) == WakeAt(k1, t);
    hide WakeAt, Woken;
    assert forall t :: IsReady(k2, t) == IsReady(k1, t);
    assert forall t :: Priority(k2, t) == Priority(k1, t);
  }

  /** Exactly the pending ready tasks become ready. */
  ghost predicate Drained(k: State, k': State) {
    && k'.tick == k.tick && k'.tcb.Keys == k.tcb.Keys
    && (forall t :: t in k.tcb ==>
          if k.tcb[t].eventIn == Pending then Woken(k.tcb[t], k'.tcb[t])
          else k'.tcb[t] == k.tcb[t] && WakeAt(k', t) == WakeAt(k, t))
  }

  lemma PendingTasks(k: State)
    requires Settled(k)
    ensures var ts := EventsOf(k, Pending).items;
            && NoDup(ts) && AllBlocked(k.tcb, ts)
            && forall t :: t in ts <==> t in k.tcb && k.tcb[t].eventIn == Pending
  {
    var ts := EventsOf(k, Pending).items;
    assert NoDup(At(k.events, Pending).items);
    forall t
      ensures t in ts <==> t in k.tcb && k.tcb[t].eventIn == Pending
      ensures t in ts ==> t in k.tcb && Blocking(k.tcb[t].stateIn)
    {
      assert t in ts <==> t in At(k.events, Pending).items;
    }
  }

  lemma DrainedOf(k: State, k': State)
    requires k'.tcb.Keys == k.tcb.Keys
    requires forall t :: t in k.tcb && k.tcb[t].eventIn == Pending ==> Woken(k.tcb[t], k'.tcb[t])
    requires forall t :: t in k.tcb && k.tcb[t].eventIn != Pending ==> k'.tcb[t] == k.tcb[t]
    requires k'.tick == k.tick && k'.delayedIsB == k.delayedIsB && k'.overflows == k.overflows
    ensures Drained(k, k')
  {
  }

  lemma PendingHead(k: State)
    requires EventsOk(k.events, k.tcb) && EventsOf(k, Pending).items != []
    ensures exists t :: t in k.tcb && k.tcb[t].eventIn == Pending
  {
    var t := EventsOf(k, Pending).items[0];
    assert t in At(k.events, Pending).items;
  }

  lemma NoneLeftPending(k: State)
    requires Core(k) && forall t :: t in k.tcb ==> k.tcb[t].eventIn != Pending
    ensures EventsOf(k, Pending).items == []
  {
    if EventsOf(k, Pending).items != [] {
      PendingHead(k);
    }
  }

  lemma DrainedAll(k: State, ts: seq<Task>, ask: bool)
    requires Settled(k) && NoDup(ts) && AllBlocked(k.tcb, ts)
    ensures var k1 := MakeAllReady(k, ts);
            var k' := ResetNextUnblock(Pend(k1, ask));
            && Settled(k') && TickFrame(k, k') && k'.tcb == k1.tcb && Earliest(k')
            && k'.tick == k.tick && k'.delayedIsB == k.delayedIsB && k'.overflows == k.overflows
  {
    hide Core, NoneDue, MakeAllReady, ResetNextUnblock, NoDup, AllBlocked, Earliest;
    var k1 := MakeAllReady(k, ts);
    MakeAllReadyEffect(k, ts);
    MakeAllReadyCore(k, ts);
    FlagsFrame(k1, Pend(k1, ask));
    ResetCore(Pend(k1, ask));
    ResetFrame(Pend(k1, ask));
  }

  lemma ResetFrame(k: State)
    ensures ResetNextUnblock(k) == k.(nextUnblock := ResetNextUnblock(k).nextUnblock)
  {
  }

  lemma DrainPendingExact(k: State)
    requires Settled(k)
    ensures var k' := DrainPending(k);
            && Settled(k') && Drained(k, k') && EventsOf(k', Pending).items == [] && TickFrame(k, k')
            && (EventsOf(k, Pending).items != [] ==> Earliest(k'))
  {
    var ts := EventsOf(k, Pending).items;
    var k' := DrainPending(k);
    hide Settled, MakeAllReady, ResetNextUnblock, EventsOf, AnyReaches, NoDup, AllBlocked, Pend, WakeAt, Earliest;
    PendingTasks(k);
    if ts != [] {
      MakeAllReadyEffect(k, ts);
      DrainedAll(k, ts, AnyReaches(k, ts, Priority(k, k.current)));
    }
    DrainedOf(k, k');
    NonePendingSettled(k');
  }

  lemma NonePendingSettled(k: State)
    requires Settled(k) && forall t :: t in k.tcb ==> k.tcb[t].eventIn != Pending
    ensures EventsOf(k, Pending).items == []
  {
    NoneLeftPending(k);
  }

  lemma ResumeSettled(k: State)
    requires Inv(k)
    ensures Settled(k.(suspended := 0)) && k.number > 0
  {
  }

  lemma CaughtUp(k1: State, k2: State, n: nat)
    requires Settled(k1) && Settled(k2) && Ticked(k1, k2, n) && EventsOf(k1, Pending).items == []
    ensures EventsOf(k2, Pending).items == []
  {
    forall t | t in k2.tcb
      ensures k2.tcb[t].eventIn != Pending
    {
      NotPending(k1, t);
    }
    hide Settled, EventsOf;
    NonePendingSettled(k2);
  }

  lemma NotPending(k: State, t: Task)
    requires Settled(k) && EventsOf(k, Pending).items == [] && t in k.tcb
    ensures k.tcb[t].eventIn != Pending
  {
    assert t !in At(k.events, Pending).items;
  }

  /** Clearing the processed ticks and asking for the switch changes nothing else. */
  lemma ResumedFrame(k1: State, k2: State, k': State, n: nat)
    requires Settled(k2) && Ticked(k1, k2, n) && EventsOf(k2, Pending).items == []
    requires k' == k2.(pended := 0, yieldAsked := k'.yieldAsked)
    ensures Inv(k') && Ticked(k1, k', n)
  {
    hide ListsOk, EventsOk, Window, PrioritiesOk, BlockedOk, Ticked;
    TickedSame(k1, k2, k', n);
  }

  lemma TickedSame(k1: State, k2: State, k': State, n: nat)
    requires Ticked(k1, k2, n) && k'.tcb == k2.tcb && k'.tick == k2.tick
    requires k'.overflows == k2.overflows && k'.delayedIsB == k2.delayedIsB
    ensures Ticked(k1, k', n)
  {
    assert forall t :: WakeAt(k', t) == WakeAt(k2, t);
  }

  /** The outermost xTaskResumeAll: the pending ready tasks first, then the pended ticks one
      by one; afterwards no tick and no ready task is owed. */
  lemma ResumeAllExact(k: State)
    requires Inv(k) && k.suspended == 1
    ensures var k1 := DrainPending(k.(suspended := 0));
            var k' := ResumeAll(k);
            && Inv(k') && Drained(k.(suspended := 0), k1) && Ticked(k1, k', k.pended)
            && k'.tick == k.tick + k.pended && k'.pended == 0
            && k'.current == k.current && k'.suspended == 0
  {
    var k0 := k.(suspended := 0);
    var k1 := DrainPending(k0);
    var k2 := CatchUp(k1, k.pended);
    hide Inv, Settled, CatchUp, DrainPending, EventsOf, WakeAt;
    ResumeSettled(k);
    DrainPendingExact(k0);
    CatchUpTicks(k1, k.pended);
    CaughtUp(k1, k2, k.pended);
    ResumedFrame(k1, k2, ResumeAll(k), k.pended);
  }

  /** A pending ready task has at least the running task's priority. */
  ghost predicate PendingReaches(k: State) {
    exists t :: t in k.tcb && k.tcb[t].eventIn == Pending && Priority(k, t) >= Priority(k, k.current)
  }

  lemma DrainAsks(k: State)
    requires Settled(k)
    ensures var k' := DrainPending(k);
            k'.yieldPending <==> k.yieldPending || PendingReaches(k)
  {
    hide Settled, MakeAllReady, ResetNextUnblock, EventsOf, NoDup, AllBlocked;
    var ts := EventsOf(k, Pending).items;
    PendingTasks(k);
    if ts != [] {
      WakingFlags(k, ts);
      ResetFrame(Pend(MakeAllReady(k, ts), AnyReaches(k, ts, Priority(k, k.current))));
    }
  }

  /** The drained tasks are awake; the others sleep on. */
  lemma DrainedDue(k: State, k1: State, until: int)
    requires Drained(k, k1) && k1.current == k.current
    ensures PendingReaches(k) || DueReaches(k, until) <==> PendingReaches(k) || DueReaches(k1, until)
  {
    assert forall t :: Priority(k1, t) == Priority(k, t);
    forall t | t in k.tcb && k.tcb[t].eventIn == Pending
      ensures WakeAt(k1, t) == -1
    {
    }
    hide WakeAt, Priority;
    if DueReaches(k, until) {
      var t :| t in k.tcb && 0 <= WakeAt(k, t) <= until && Priority(k, t) >= Priority(k, k.current);
      assert k.tcb[t].eventIn == Pending || WakeAt(k1, t) == WakeAt(k, t);
    }
    if DueReaches(k1, until) {
      var t :| t in k1.tcb && 0 <= WakeAt(k1, t) <= until && Priority(k1, t) >= Priority(k1, k1.current);
      assert k.tcb[t].eventIn != Pending;
    }
  }

  /** The outermost xTaskResumeAll yields exactly if a yield was pending, a task that was pending
      ready or has become due meanwhile has at least the running task's priority, or ticks were
      held back and two ready tasks now have that priority. An inner one only counts. */
  lemma ResumeAllAsks(k: State)
    requires Inv(k) && k.suspended > 0
    ensures var k' := ResumeAll(k);
            if k.suspended > 1 then k' == k.(suspended := k.suspended - 1)
            else (k'.yieldPending <==>
                    k.yieldPending || PendingReaches(k) || DueReaches(k, k.tick + k.pended)
                    || (k.pended > 0 && Contended(k')))
                 && (k'.yieldAsked <==> k.yieldAsked || k'.yieldPending)
  {
    hide Inv, Settled, CatchUp, DrainPending, EventsOf, WakeAt, Drained, Ticked, PendingReaches, DueReaches, Contended;
    if k.suspended == 1 {
      var k0 := k.(suspended := 0);
      var k1 := DrainPending(k0);
      ResumeSettled(k);
      DrainPendingExact(k0);
      DrainAsks(k0);
      DrainedDue(k0, k1, k.tick + k.pended);
      CatchUpAsks(k1, k.pended);
      CatchUpTicks(k1, k.pended);
      DrainedTick(k0, k1);
      NestingAside(k, k0);
      SuspensionAside(CatchUp(k1, k.pended), ResumeAll(k));
    }
  }

  lemma DrainedTick(k: State, k': State)
    requires Drained(k, k')
    ensures k'.tick == k.tick
  {
  }

  lemma NestingAside(k: State, k0: State)
    requires k0 == k.(suspended := 0)
    ensures PendingReaches(k0) <==> PendingReaches(k)
    ensures forall until :: DueReaches(k0, until) <==> DueReaches(k, until)
  {
    assert forall t :: WakeAt(k0, t) == WakeAt(k, t);
    assert forall t :: Priority(k0, t) == Priority(k, t);
    hide WakeAt, Priority;
  }

  lemma SuspensionAside(k: State, k': State)
    requires k' == k.(pended := k'.pended, yieldAsked := k'.yieldAsked)
    ensures Contended(k') <==> Contended(k)
  {
    assert forall t :: IsReady(k', t) == IsReady(k, t);
    assert forall t :: Priority(k', t) == Priority(k, t);
  }

  // ----- runs

  /** The atomic actions: interrupts, critical sections and the regions that run with the
      scheduler suspended. */
  datatype Op =
    | Tick
    | Switch
    | Suspending
    | Resuming
    | Sleep(ticks: nat)
    | Wait(id: nat, ticks: nat)
    | WaitUnordered(id: nat, value: nat, ticks: nat)
    | WaitRestricted(id: nat, ticks: nat, indefinitely: bool)
    | ReadItem
    | Wake(id: nat)
    | WakeUnordered(task: Task, value: nat)
    | New(task: Task, priority: nat)
    | Remove(task: Task)
    | Collect
    | Halt(task: Task)
    | Continue(task: Task)
    | Abort(task: Task)
    | SetPriority(task: Task, priority: nat)
    | Raise(task: Task)
    | Lower
    | LowerLate(task: Task, waiting: nat)

  predicate Usable(k: State, t: Task) {
    t in k.tcb && k.tcb[t].stateIn != Terminated
  }

  predicate Blocks(op: Op) {
    op.Sleep? || op.Wait? || op.WaitUnordered? || op.WaitRestricted?
  }

  /** What the source asserts of its callers. */
  ghost predicate Enabled(k: State, op: Op) {
    match op
    case Tick => true
    case Switch => SomeReady(k)
    case Suspending => true
    case Resuming => k.suspended > 0
    case Sleep(ticks) => Running(k) && 1 <= ticks < MODULUS
    case Wait(_, ticks) => Running(k) && 1 <= ticks < MODULUS
    case WaitUnordered(_, _, ticks) => Running(k) && 1 <= ticks < MODULUS && k.suspended > 0
    case WaitRestricted(_, ticks, indefinitely) => Running(k) && (indefinitely || 1 <= ticks < MODULUS)
    case ReadItem => true
    case Wake(id) => EventsOf(k, Waiters(id)).items != []
    case WakeUnordered(t, _) => Usable(k, t) && k.tcb[t].eventIn.Waiters? && k.suspended > 0
    case New(t, p) => t !in k.tcb && p < MAX_PRIORITIES
    case Remove(t) => Usable(k, t) && (t == k.current ==> k.suspended == 0)
    case Collect => ListOf(k, Terminated).items != [] && Usable(k, k.current)
    case Halt(t) => Usable(k, t) && (t == k.current ==> k.suspended == 0)
    case Continue(t) => t in k.tcb
    case Abort(t) => t in k.tcb && k.suspended > 0
    case SetPriority(t, p) => t in k.tcb && p < MAX_PRIORITIES
    case Raise(t) => t in k.tcb
    case Lower => TcbOf(k, k.current).mutexesHeld > 0
    case LowerLate(t, w) => t in k.tcb && w < MAX_PRIORITIES
  }

  /** Every caller that blocks yields, at once or when the scheduler is resumed. */
  ghost function Step(k: State, op: Op): State
    requires Inv(k) && Enabled(k, op)
  {
    match op
    case Tick => SysTick(k)
    case Switch => SwitchContextInv(k); SwitchContext(k)
    case Suspending => SuspendAll(k)
    case Resuming => ResumeAll(k)
    case Sleep(ticks) => Ask(DelayCurrent(k, ticks, false), true)
    case Wait(id, ticks) => Ask(PlaceOnEventList(k, id, ticks), true)
    case WaitUnordered(id, v, ticks) => Ask(PlaceOnUnorderedEventList(k, id, v, ticks), true)
    case WaitRestricted(id, ticks, indefinitely) => Ask(PlaceRestricted(k, id, ticks, indefinitely), true)
    case ReadItem => ResetItem(k)
    case Wake(id) => RemoveFromEventList(k, id)
    case WakeUnordered(t, v) => RemoveFromUnordered(k, t, v)
    case New(t, p) => Create(k, t, p)
    case Remove(t) => Delete(k, t)
    case Collect => CleanUp(k)
    case Halt(t) => Suspend(k, t)
    case Continue(t) => Resume(k, t)
    case Abort(t) => AbortDelay(k, t)
    case SetPriority(t, p) => PrioritySet(k, t, p)
    case Raise(t) => Inherit(k, t)
    case Lower => Disinherit(k)
    case LowerLate(t, w) => DisinheritAfterTimeout(k, t, w)
  }

  lemma BlockedInv(k: State, k1: State)
    requires Inv(k) && Settled(k1) && k1.suspended == k.suspended && k1.pended == k.pended
    requires forall t :: t in k1.tcb && k1.tcb[t].eventIn == Pending ==> t in k.tcb && k.tcb[t].eventIn == Pending
    ensures Inv(Ask(k1, true))
  {
    hide ListsOk, TimeOk, NoneDue, PrioritiesOk, CountsOk, BlockedOk;
    NonePendingFrame(k, k1);
    FlagsInv(k1, Ask(k1, true));
  }

  lemma BlockingInv(k: State, op: Op)
    requires Inv(k) && Enabled(k, op) && Blocks(op)
    ensures Inv(Step(k, op))
  {
    hide DelayCurrent, ListsOk, EventsOk, TimeOk, NoneDue, PrioritiesOk, CountsOk, BlockedOk;
    match op {
      case Sleep(ticks) =>
        DelaySettled(k, ticks, false);
        BlockingFrame(k, k, ticks, false);
        BlockedInv(k, DelayCurrent(k, ticks, false));
      case Wait(id, ticks) =>
        PlaceOnEventListSettled(k, id, ticks);
        BlockingFrame(k, PutEventSorted(k, k.current, Waiters(id)), ticks, true);
        BlockedInv(k, PlaceOnEventList(k, id, ticks));
      case WaitUnordered(id, v, ticks) =>
        PlaceOnUnorderedSettled(k, id, v, ticks);
        BlockingFrame(k, PutEventEnd(SetEventValue(k, k.current, MarkInUse(v)), k.current, Waiters(id)), ticks, true);
        BlockedInv(k, PlaceOnUnorderedEventList(k, id, v, ticks));
      case WaitRestricted(id, ticks, indefinitely) =>
        PlaceRestrictedSettled(k, id, ticks, indefinitely);
        BlockingFrame(k, PutEventEnd(k, k.current, Waiters(id)), if indefinitely then MAX_DELAY else ticks,
            indefinitely);
        BlockedInv(k, PlaceRestricted(k, id, ticks, indefinitely));
    }
  }

  lemma BlockingFrame(k: State, k1: State, ticks: nat, canBlock: bool)
    requires k1 == k || (&& k1 == k.(events := k1.events, tcb := k1.tcb) && k.current in k1.tcb
                         && !k1.tcb[k.current].eventIn.Pending? && k1.tcb == k.tcb[k.current := k1.tcb[k.current]])
    requires k.current in k.tcb
    ensures var k' := DelayCurrent(k1, ticks, canBlock);
            && k'.suspended == k.suspended && k'.pended == k.pended && k'.tick == k.tick
            && (forall t :: t in k'.tcb && k'.tcb[t].eventIn == Pending ==> t in k.tcb && k.tcb[t].eventIn == Pending)
            && (forall t :: t in k.tcb && t != k.current ==> t in k'.tcb && k'.tcb[t] == k.tcb[t])
  {
    DelayEffect(k1, ticks, canBlock);
    hide DelayCurrent;
  }

  lemma NestingInv(k: State)
    requires Inv(k)
    ensures Inv(SuspendAll(k)) && (k.suspended > 1 ==> Inv(ResumeAll(k)))
  {
    hide ListsOk, EventsOk, Window, PrioritiesOk, BlockedOk, CatchUp, DrainPending;
  }

  lemma ResetItemInv(k: State)
    requires Inv(k)
    ensures Inv(ResetItem(k))
  {
    hide Inv;
    CurrentLive(k);
    PriorityBounds(k, k.current);
    EditInv(k, k.current,
            k.tcb[k.current].(eventValue := MAX_PRIORITIES - Min(Priority(k, k.current), MAX_PRIORITIES)));
  }

  /** The invariants survive every action. */
  lemma StepInv(k: State, op: Op)
    requires Inv(k) && Enabled(k, op)
    ensures Inv(Step(k, op))
  {
    hide Inv, SysTick, SwitchContext, SuspendAll, ResumeAll, DelayCurrent, PlaceOnEventList, PlaceOnUnorderedEventList,
      PlaceRestricted, ResetItem, RemoveFromEventList, RemoveFromUnordered, Create, Delete, CleanUp, Kernel.Suspend,
      Resume, AbortDelay, PrioritySet, Inherit, Disinherit, DisinheritAfterTimeout, Running, SomeReady, EventsOf,
      ListOf;
    CurrentLive(k);
    match op {
      case Tick => SysTickInv(k);
      case Switch => SwitchContextInv(k);
      case Suspending => NestingInv(k);
      case Resuming => if k.suspended == 1 { ResumeAllExact(k); } else { NestingInv(k); }
      case Sleep(_) => BlockingInv(k, op);
      case Wait(_, _) => BlockingInv(k, op);
      case WaitUnordered(_, _, _) => BlockingInv(k, op);
      case WaitRestricted(_, _, _) => BlockingInv(k, op);
      case ReadItem => ResetItemInv(k);
      case Wake(id) => RemoveFromEventListInv(k, id);
      case WakeUnordered(t, v) => RemoveFromUnorderedInv(k, t, v);
      case New(t, p) => CreateInv(k, t, p);
      case Remove(t) => if t == k.current { DeleteSelfInv(k); } else { DeleteOtherInv(k, t); }
      case Collect => CleanUpInv(k);
      case Halt(t) => SuspendInv(k, t);
      case Continue(t) => ResumeInv(k, t);
      case Abort(t) => AbortDelayInv(k, t);
      case SetPriority(t, p) => PrioritySetInv(k, t, p);
      case Raise(t) => InheritInv(k, t);
      case Lower => DisinheritInv(k);
      case LowerLate(t, w) => DisinheritAfterTimeoutInv(k, t, w);
    }
  }

  // ----- what one action leaves alone

  /** The one task whose TCB an action other than a tick or a resume can change. */
  ghost function Target(k: State, op: Op): Task
    requires Enabled(k, op)
  {
    match op
    case Wake(id) => EventsOf(k, Waiters(id)).items[0]
    case WakeUnordered(t, _) => t
    case New(t, _) => t
    case Remove(t) => t
    case Collect => ListOf(k, Terminated).items[0]
    case Halt(t) => t
    case Continue(t) => t
    case Abort(t) => t
    case SetPriority(t, _) => t
    case Raise(t) => t
    case LowerLate(t, _) => t
    case _ => k.current
  }

  predicate Outermost(k: State, op: Op) {
    op.Resuming? && k.suspended == 1
  }

  /** The clock stands still and no task but `x` changes. */
  ghost predicate OnlyTouches(k: State, k': State, x: Task) {
    && k'.tick == k.tick && k'.pended == k.pended && k'.delayedIsB == k.delayedIsB && k'.overflows == k.overflows
    && (forall t :: t != x ==> (t in k'.tcb <==> t in k.tcb) && (t in k.tcb ==> k'.tcb[t] == k.tcb[t]))
  }

  lemma BlockTouches(k: State, k1: State, ticks: nat, canBlock: bool)
    requires OnlyTouches(k, k1, k.current) && k1.current == k.current
    ensures OnlyTouches(k, DelayCurrent(k1, ticks, canBlock), k.current)
  {
    hide DelayCurrent, Slept;
    DelayEffect(k1, ticks, canBlock);
  }

  lemma PutEventTouches(k: State, e: EventList, v: nat)
    ensures OnlyTouches(k, PutEventSorted(k, k.current, e), k.current)
    ensures OnlyTouches(k, PutEventEnd(SetEventValue(k, k.current, v), k.current, e), k.current)
    ensures OnlyTouches(k, PutEventEnd(k, k.current, e), k.current) && PutEventEnd(k, k.current, e).current == k.current
    ensures PutEventSorted(k, k.current, e).current == k.current
    ensures PutEventEnd(SetEventValue(k, k.current, v), k.current, e).current == k.current
  {
    hide InsertAt, InsertEnd, SortedPos, EventValues, At;
  }

  lemma BlockingTouches(k: State, op: Op)
    requires Inv(k) && Enabled(k, op) && Blocks(op)
    ensures OnlyTouches(k, Step(k, op), k.current)
  {
    hide DelayCurrent, Inv, Running, PutEventSorted, PutEventEnd, MarkInUse;
    match op {
      case Sleep(ticks) => BlockTouches(k, k, ticks, false);
      case Wait(id, ticks) =>
        PutEventTouches(k, Waiters(id), 0);
        BlockTouches(k, PutEventSorted(k, k.current, Waiters(id)), ticks, true);
      case WaitUnordered(id, v, ticks) =>
        PutEventTouches(k, Waiters(id), MarkInUse(v));
        BlockTouches(k, PutEventEnd(SetEventValue(k, k.current, MarkInUse(v)), k.current, Waiters(id)), ticks, true);
      case WaitRestricted(id, ticks, indefinitely) =>
        PutEventTouches(k, Waiters(id), 0);
        BlockTouches(k, PutEventEnd(k, k.current, Waiters(id)), if indefinitely then MAX_DELAY else ticks,
            indefinitely);
    }
  }

  lemma WakeTouches(k: State, id: nat)
    requires Inv(k) && EventsOf(k, Waiters(id)).items != []
    ensures OnlyTouches(k, RemoveFromEventList(k, id), EventsOf(k, Waiters(id)).items[0])
  {
    hide Inv, RemoveFromEventList, Moves, Leaves, Pends, EventsOf;
    RemoveFromEventListInv(k, id);
  }

  lemma WakingTouches(k: State, op: Op)
    requires Inv(k) && Enabled(k, op) && (op.WakeUnordered? || op.Halt? || op.Continue? || op.Abort?)
    ensures OnlyTouches(k, Step(k, op), Target(k, op))
  {
    hide Inv, RemoveFromUnordered, Kernel.Suspend, Resume, AbortDelay, MarkInUse, Moves, Leaves, EventsOf, ListOf;
    match op {
      case WakeUnordered(t, v) => RemoveFromUnorderedInv(k, t, v);
      case Halt(t) => SuspendInv(k, t);
      case Continue(t) => ResumeInv(k, t);
      case Abort(t) => AbortDelayInv(k, t);
    }
  }

  lemma LifeTouches(k: State, op: Op)
    requires Inv(k) && Enabled(k, op) && (op.New? || op.Remove? || op.Collect?)
    ensures OnlyTouches(k, Step(k, op), Target(k, op))
  {
    hide Inv, Create, Delete, CleanUp, Moves, Leaves, Vanishes, ListOf, EventsOf;
    CurrentLive(k);
    match op {
      case New(t, p) => CreateInv(k, t, p);
      case Remove(t) => if t == k.current { DeleteSelfInv(k); } else { DeleteOtherInv(k, t); }
      case Collect => CleanUpInv(k);
    }
  }

  /** Changes of priority keep even the task itself where it sleeps. */
  ghost predicate SleepsOn(k: State, k': State, t: Task) {
    && t in k.tcb && t in k'.tcb
    && k'.tcb[t].stateIn == k.tcb[t].stateIn && k'.tcb[t].stateValue == k.tcb[t].stateValue
    && k'.tcb[t].eventIn == k.tcb[t].eventIn
    && k'.delayedIsB == k.delayedIsB && k'.overflows == k.overflows && k'.tick == k.tick
  }

  ghost predicate Adjusts(k: State, k': State, t: Task) {
    OnlyTouches(k, k', t) && (t in k.tcb && !k.tcb[t].stateIn.Ready? ==> SleepsOn(k, k', t))
  }

  lemma InheritAdjusts(k: State, h: Task)
    requires Inv(k) && h in k.tcb
    ensures Adjusts(k, Inherit(k, h), h)
  {
    hide Inv, Inherit, MovesIfReady, Following;
    InheritInv(k, h);
  }

  lemma DisinheritAdjusts(k: State)
    requires Inv(k) && TcbOf(k, k.current).mutexesHeld > 0
    ensures Adjusts(k, Disinherit(k), k.current)
  {
    hide Inv, Disinherit, MovesIfReady;
    CurrentLive(k);
    DisinheritInv(k);
  }

  lemma DisinheritLateAdjusts(k: State, h: Task, w: nat)
    requires Inv(k) && h in k.tcb && w < MAX_PRIORITIES
    ensures Adjusts(k, DisinheritAfterTimeout(k, h, w), h)
  {
    hide Inv, DisinheritAfterTimeout, MovesIfReady, Following;
    DisinheritAfterTimeoutInv(k, h, w);
  }

  lemma PrioritySetAdjusts(k: State, t: Task, p: nat)
    requires Inv(k) && t in k.tcb && p < MAX_PRIORITIES
    ensures Adjusts(k, PrioritySet(k, t, p), t)
  {
    hide Inv, PrioritySet, MovesIfReady, Following, InUseAfter, PrioritySetAsks;
    PrioritySetInv(k, t, p);
  }

  lemma PriorityTouches(k: State, op: Op)
    requires Inv(k) && Enabled(k, op) && (op.SetPriority? || op.Raise? || op.Lower? || op.LowerLate?)
    ensures Adjusts(k, Step(k, op), Target(k, op))
  {
    hide Inv, PrioritySet, Inherit, Disinherit, DisinheritAfterTimeout, Adjusts;
    match op {
      case SetPriority(t, p) => PrioritySetAdjusts(k, t, p);
      case Raise(t) => InheritAdjusts(k, t);
      case Lower => DisinheritAdjusts(k);
      case LowerLate(t, w) => DisinheritLateAdjusts(k, t, w);
    }
  }

  lemma ResetItemTouches(k: State)
    ensures OnlyTouches(k, ResetItem(k), k.current)
  {
  }

  lemma ResetItemSleeps(k: State)
    ensures k.current in k.tcb ==> SleepsOn(k, ResetItem(k), k.current)
  {
  }

  /** Whatever happens except time passing, one task at most changes. */
  lemma StepTouches(k: State, op: Op)
    requires Inv(k) && Enabled(k, op) && !op.Tick? && !Outermost(k, op)
    ensures OnlyTouches(k, Step(k, op), Target(k, op))
  {
    hide Inv, DelayCurrent, PlaceOnEventList, PlaceOnUnorderedEventList, PlaceRestricted, ResetItem,
      RemoveFromEventList, RemoveFromUnordered, Create, Delete, CleanUp, Kernel.Suspend, Resume, AbortDelay,
      PrioritySet, Inherit, Disinherit, DisinheritAfterTimeout, Running, SomeReady, EventsOf, DrainPending, CatchUp,
      ListOf, HighestReady, Advance, Selected;
    if Blocks(op) {
      BlockingTouches(k, op);
    } else if op.SetPriority? || op.Raise? || op.Lower? || op.LowerLate? {
      PriorityTouches(k, op);
    } else if op.WakeUnordered? || op.Halt? || op.Continue? || op.Abort? {
      WakingTouches(k, op);
    } else if op.New? || op.Remove? || op.Collect? {
      LifeTouches(k, op);
    } else {
      match op {
        case Wake(id) => WakeTouches(k, id);
        case ReadItem => ResetItemTouches(k);
        case _ => SwitchTouches(k);
      }
    }
  }

  lemma SwitchTouches(k: State)
    requires Inv(k)
    ensures SomeReady(k) ==> OnlyTouches(k, Step(k, Switch), k.current) && Step(k, Switch).tcb == k.tcb
    ensures OnlyTouches(k, SuspendAll(k), k.current) && SuspendAll(k).tcb == k.tcb
    ensures k.suspended > 1 ==> OnlyTouches(k, ResumeAll(k), k.current) && ResumeAll(k).tcb == k.tcb
  {
    hide Inv, HighestReady, Advance, Selected, ListOf, SomeReady, CatchUp, DrainPending;
    if SomeReady(k) {
      SwitchContextInv(k);
    }
  }

  // ----- delays are exact

  ghost predicate Sleeping(k: State, t: Task, wake: int) {
    t in k.tcb && 0 <= wake == WakeAt(k, t) && k.tcb[t].eventIn != Pending
  }

  /** Actions that end the delay of `t` before its time. */
  ghost predicate Disturbs(k: State, op: Op, t: Task)
    requires Enabled(k, op)
  {
    && (op.Wake? || op.WakeUnordered? || op.Remove? || op.Halt? || op.Abort?)
    && Target(k, op) == t
  }

  lemma SleepsOnSleeping(k: State, k': State, t: Task, wake: int)
    requires Sleeping(k, t, wake) && SleepsOn(k, k', t)
    ensures Sleeping(k', t, wake)
  {
  }

  lemma SleepingPlace(k: State, t: Task, wake: int)
    requires Inv(k) && Sleeping(k, t, wake)
    ensures k.tcb[t].stateIn == DelayA || k.tcb[t].stateIn == DelayB
    ensures k.tick < wake
  {
    SleepBounds(k, t);
  }

  lemma TerminatedHead(k: State)
    requires Inv(k) && ListOf(k, Terminated).items != []
    ensures TcbOf(k, ListOf(k, Terminated).items[0]).stateIn == Terminated
  {
    assert ListOf(k, Terminated).items[0] in At(k.lists, Terminated).items;
  }

  /** Without an action that names it, a sleeping task sleeps on. */
  lemma StepSleeps(k: State, op: Op, t: Task, wake: int)
    requires Inv(k) && Enabled(k, op) && !op.Tick? && !Outermost(k, op)
    requires Sleeping(k, t, wake) && !Disturbs(k, op, t)
    ensures SleepsOn(k, Step(k, op), t)
  {
    hide Inv, DelayCurrent, PlaceOnEventList, PlaceOnUnorderedEventList, PlaceRestricted, ResetItem,
      RemoveFromEventList, RemoveFromUnordered, Create, Delete, CleanUp, Kernel.Suspend, AbortDelay, PrioritySet,
      Inherit, Disinherit, WakeAt, MakeReady, DisinheritAfterTimeout, SomeReady, EventsOf, DrainPending, CatchUp,
      ListOf, SwitchContext;
    SleepingPlace(k, t, wake);
    StepTouches(k, op);
    if Target(k, op) == t {
      if op.SetPriority? || op.Raise? || op.Lower? || op.LowerLate? {
        PriorityTouches(k, op);
      } else if op.Collect? {
        TerminatedHead(k);
      } else if op.Switch? || op.Suspending? || op.Resuming? {
        SwitchTouches(k);
      } else if op.ReadItem? {
        ResetItemTouches(k);
        ResetItemSleeps(k);
      }
    }
  }

  /** Time passing leaves the task asleep until its time, and then it is ready. */
  lemma TickedDelay(k: State, k': State, n: nat, t: Task, wake: int)
    requires Ticked(k, k', n) && Sleeping(k, t, wake)
    ensures if k'.tick < wake then Sleeping(k', t, wake) else IsReady(k', t)
  {
  }

  lemma DrainedDelay(k: State, k': State, t: Task, wake: int)
    requires Drained(k, k') && Sleeping(k, t, wake)
    ensures Sleeping(k', t, wake)
  {
  }

  lemma SysTickDelay(k: State, t: Task, wake: int)
    requires Inv(k) && Sleeping(k, t, wake)
    ensures var k' := SysTick(k);
            if k'.tick < wake then Sleeping(k', t, wake) else IsReady(k', t)
  {
    hide Inv, Increment, Ticked, WakeAt, Sleeping, TickFrame;
    SleepingPlace(k, t, wake);
    if k.suspended == 0 {
      IncrementSettled(k);
      TickedDelay(k, Increment(k), 1, t, wake);
      SleepsFlags(Increment(k), SysTick(k), t, wake);
    } else {
      SleepsFlags(k, SysTick(k), t, wake);
    }
  }

  lemma IncrementSettled(k: State)
    requires Inv(k)
    ensures Ticked(k, Increment(k), 1) && Increment(k).tick == k.tick + 1 && TickFrame(k, Increment(k))
  {
    hide Core, NoneDue, Increment;
    IncrementTicks(k);
  }

  lemma SleepsFlags(k: State, k': State, t: Task, wake: int)
    requires k' == k.(pended := k'.pended, yieldAsked := k'.yieldAsked)
    ensures Sleeping(k, t, wake) ==> Sleeping(k', t, wake)
    ensures IsReady(k, t) ==> IsReady(k', t)
  {
  }

  lemma ResumeDelay(k: State, t: Task, wake: int)
    requires Inv(k) && k.suspended == 1 && Sleeping(k, t, wake)
    ensures var k' := ResumeAll(k);
            if k'.tick < wake then Sleeping(k', t, wake) else IsReady(k', t)
  {
    hide Inv, Ticked, Drained, ResumeAll, DrainPending, WakeAt;
    var k0 := k.(suspended := 0);
    ResumeAllExact(k);
    SleepsNested(k, k0, t, wake);
    DrainedDelay(k0, DrainPending(k0), t, wake);
    TickedDelay(DrainPending(k0), ResumeAll(k), k.pended, t, wake);
  }

  lemma SleepsNested(k: State, k0: State, t: Task, wake: int)
    requires k0 == k.(suspended := 0) && Sleeping(k, t, wake)
    ensures Sleeping(k0, t, wake)
  {
  }

  /** One action of any kind: the task wakes in it exactly if the clock reaches its time. */
  lemma StepDelay(k: State, op: Op, t: Task, wake: int)
    requires Inv(k) && Enabled(k, op) && Sleeping(k, t, wake) && !Disturbs(k, op, t)
    ensures var k' := Step(k, op);
            if k'.tick < wake then Sleeping(k', t, wake) else IsReady(k', t)
  {
    hide Inv, DelayCurrent, PlaceOnEventList, PlaceOnUnorderedEventList, PlaceRestricted, ResetItem,
      RemoveFromEventList, RemoveFromUnordered, Create, Delete, CleanUp, Kernel.Suspend, Resume, AbortDelay,
      PrioritySet, Inherit, Disinherit, WakeAt, DisinheritAfterTimeout, SomeReady, EventsOf, ListOf, SwitchContext,
      SysTick, ResumeAll, Running, Disturbs, Sleeping;
    if op.Tick? {
      SysTickDelay(k, t, wake);
    } else if Outermost(k, op) {
      ResumeDelay(k, t, wake);
    } else {
      StepSleeps(k, op, t, wake);
      SleepsOnSleeping(k, Step(k, op), t, wake);
      StepInv(k, op);
      SleepingPlace(Step(k, op), t, wake);
    }
  }

  /** Every action of the run is allowed when its turn comes. */
  ghost predicate Allowed(k: State, ops: seq<Op>)
    requires Inv(k)
    decreases |ops|
  {
    ops == [] || (Enabled(k, ops[0]) && (StepInv(k, ops[0]); Allowed(Step(k, ops[0]), ops[1..])))
  }

  ghost function Run(k: State, ops: seq<Op>): (k': State)
    requires Inv(k) && Allowed(k, ops)
    ensures Inv(k')
    decreases |ops|
  {
    if ops == [] then k else StepInv(k, ops[0]); Run(Step(k, ops[0]), ops[1..])
  }

  /** As long as `t` sleeps, no action ends its delay early. */
  ghost predicate Undisturbed(k: State, ops: seq<Op>, t: Task, wake: int)
    requires Inv(k) && Allowed(k, ops)
    decreases |ops|
  {
    || ops == [] || !Sleeping(k, t, wake)
    || (!Disturbs(k, ops[0], t) && (StepInv(k, ops[0]); Undisturbed(Step(k, ops[0]), ops[1..], t, wake)))
  }

  /** After `n` actions of the run, `t` is still asleep and the next action, the one in which
      the clock reaches `wake`, makes it ready. */
  ghost predicate WokenAt(k: State, ops: seq<Op>, n: nat, t: Task, wake: int)
    requires Inv(k) && Allowed(k, ops)
    decreases |ops|
  {
    && n < |ops|
    && (StepInv(k, ops[0]);
        var k' := Step(k, ops[0]);
        if n == 0 then Sleeping(k, t, wake) && k.tick < wake <= k'.tick && IsReady(k', t)
        else WokenAt(k', ops[1..], n - 1, t, wake))
  }

  lemma WokenNow(k: State, ops: seq<Op>, t: Task, wake: int)
    requires Inv(k) && Allowed(k, ops) && ops != [] && Sleeping(k, t, wake) && k.tick < wake
    requires (StepInv(k, ops[0]); wake <= Step(k, ops[0]).tick && IsReady(Step(k, ops[0]), t))
    ensures WokenAt(k, ops, 0, t, wake)
  {
    hide Inv, Enabled, Sleeping, IsReady;
  }

  lemma WokenLater(k: State, ops: seq<Op>, n: nat, t: Task, wake: int)
    requires Inv(k) && Allowed(k, ops) && ops != []
    requires (StepInv(k, ops[0]); WokenAt(Step(k, ops[0]), ops[1..], n, t, wake))
    ensures WokenAt(k, ops, n + 1, t, wake)
  {
    hide Inv, Enabled, Sleeping, IsReady;
  }

  /** In every run, through any number of tick overflows and of scheduler suspensions: a
      sleeping task that no action names stays asleep until the very action that brings the
      clock to its wake time, and that action makes it ready. */
  lemma {:induction false} DelayExact(k: State, ops: seq<Op>, t: Task, wake: int)
    requires Inv(k) && Allowed(k, ops) && Sleeping(k, t, wake) && Undisturbed(k, ops, t, wake)
    ensures Sleeping(Run(k, ops), t, wake) || exists n :: WokenAt(k, ops, n, t, wake)
    decreases |ops|
  {
    hide Inv, Enabled, Sleeping, IsReady, Step, WokenAt, Disturbs;
    if ops != [] {
      StepInv(k, ops[0]);
      StepDelay(k, ops[0], t, wake);
      SleepingPlace(k, t, wake);
      var k' := Step(k, ops[0]);
      if k'.tick < wake {
        DelayExact(k', ops[1..], t, wake);
        if n :| WokenAt(k', ops[1..], n, t, wake) {
          WokenLater(k, ops, n, t, wake);
        }
      } else {
        WokenNow(k, ops, t, wake);
      }
    }
  }

  /** The finite waits, with the task they put to sleep and the ticks they ask for. */
  predicate Finite(op: Op) {
    match op
    case Sleep(_) => true
    case Wait(_, ticks) => ticks != MAX_DELAY
    case WaitUnordered(_, _, ticks) => ticks != MAX_DELAY
    case WaitRestricted(_, _, indefinitely) => !indefinitely
    case _ => false
  }

  function TicksOf(op: Op): nat
    requires Finite(op)
  {
    op.ticks
  }

  lemma WaitBegins(k: State, k1: State, ticks: nat, canBlock: bool)
    requires TimeOk(k) && k.current in k1.tcb
             && k1 == k.(events := k1.events, tcb := k.tcb[k.current := k1.tcb[k.current]])
    requires 1 <= ticks < MODULUS && !(ticks == MAX_DELAY && canBlock)
    requires k1.tcb[k.current].eventIn != Pending
    ensures Sleeping(Ask(DelayCurrent(k1, ticks, canBlock), true), k.current, k.tick + ticks)
  {
    hide DelayCurrent, Window, WakeAt;
    DelayEffect(k1, ticks, canBlock);
    WrapSum(k.tickCount, ticks);
    SleptWakeAt(k1, ticks, canBlock);
    AskWakeAt(DelayCurrent(k1, ticks, canBlock), k.current);
  }

  /** `DelayWakeAt` needs the clock only, so it holds between the two list moves of a wait. */
  lemma SleptWakeAt(k: State, ticks: nat, canBlock: bool)
    requires k.tick == Periods(k.overflows) + k.tickCount && IsWord(k.tickCount)
    requires 1 <= ticks < MODULUS && !(ticks == MAX_DELAY && canBlock)
    ensures WakeAt(DelayCurrent(k, ticks, canBlock), k.current) == k.tick + ticks
  {
    DelayEffect(k, ticks, canBlock);
    hide DelayCurrent;
    WrapSum(k.tickCount, ticks);
  }

  /** Every way of blocking for a finite time begun at tick T is due at T plus its ticks,
      whatever the wrapped count. */
  lemma DelayBegins(k: State, op: Op)
    requires Inv(k) && Enabled(k, op) && Finite(op)
    ensures Sleeping(Step(k, op), k.current, k.tick + TicksOf(op))
  {
    hide DelayCurrent, ListsOk, EventsOk, PrioritiesOk, CountsOk, BlockedOk, NoneDue, WakeAt, Window, InsertAt,
      InsertEnd, SortedPos, EventValues, MarkInUse, Sleeping;
    match op {
      case Sleep(ticks) =>
        assert k.tcb == k.tcb[k.current := k.tcb[k.current]];
        WaitBegins(k, k, ticks, false);
      case Wait(id, ticks) => WaitBegins(k, PutEventSorted(k, k.current, Waiters(id)), ticks, true);
      case WaitUnordered(id, v, ticks) =>
        WaitBegins(k, PutEventEnd(SetEventValue(k, k.current, MarkInUse(v)), k.current, Waiters(id)), ticks, true);
      case WaitRestricted(id, ticks, _) => WaitBegins(k, PutEventEnd(k, k.current, Waiters(id)), ticks, false);
    }
  }

  lemma AskWakeAt(k: State, t: Task)
    ensures WakeAt(Ask(k, true), t) == WakeAt(k, t)
  {
  }

  // ----- ticks are conserved

  lemma StepTicks(k: State, op: Op)
    requires Inv(k) && Enabled(k, op)
    ensures var k' := Step(k, op);
            k'.tick + k'.pended == k.tick + k.pended + if op.Tick? then 1 else 0
  {
    hide Inv, DelayCurrent, PlaceOnEventList, PlaceOnUnorderedEventList, PlaceRestricted, ResetItem,
      RemoveFromEventList, RemoveFromUnordered, Create, Delete, CleanUp, Kernel.Suspend, Resume, AbortDelay,
      PrioritySet, Inherit, Disinherit, DisinheritAfterTimeout, SomeReady, EventsOf, ListOf, SwitchContext, ResumeAll,
      Running, Increment, Ticked;
    if op.Tick? {
      IncrementSettled(k);
    } else if Outermost(k, op) {
      ResumeAllExact(k);
    } else {
      StepTouches(k, op);
    }
  }

  function TicksIn(ops: seq<Op>): nat {
    if ops == [] then 0 else (if ops[0].Tick? then 1 else 0) + TicksIn(ops[1..])
  }

  /** No tick is lost or invented under any nesting of suspensions; none is owed while the
      scheduler runs. */
  lemma {:induction false} TicksConserved(k: State, ops: seq<Op>)
    requires Inv(k) && Allowed(k, ops)
    ensures var k' := Run(k, ops);
            && k'.tick + k'.pended == k.tick + k.pended + TicksIn(ops)
            && (k'.suspended == 0 ==> k'.pended == 0 && EventsOf(k', Pending).items == [])
    decreases |ops|
  {
    hide Core, NoneDue, Enabled, Step;
    if ops != [] {
      StepInv(k, ops[0]);
      StepTicks(k, ops[0]);
      TicksConserved(Step(k, ops[0]), ops[1..]);
    }
  }

  // ----- every task is in one place

  function ReadyLists(n: nat): (ls: seq<StateList>)
    ensures |ls| == n && forall i :: 0 <= i < n ==> ls[i] == Ready(i)
  {
    seq(n, i requires 0 <= i => Ready(i))
  }

  /** All the state lists of the kernel. */
  function AllLists(): seq<StateList> {
    ReadyLists(MAX_PRIORITIES) + [DelayA, DelayB, Suspended, Terminated]
  }

  function TotalLength(k: State, ls: seq<StateList>): nat {
    if ls == [] then 0 else |ListOf(k, ls[0]).items| + TotalLength(k, ls[1..])
  }

  function TasksOn(k: State, ls: seq<StateList>): set<Task> {
    set t | t in k.tcb && k.tcb[t].stateIn in ls
  }

  lemma {:induction false} NoDupSize<T>(s: seq<T>, ts: set<T>)
    requires NoDup(s) && forall t :: t in ts <==> t in s
    ensures |ts| == |s|
    decreases |s|
  {
    if s == [] {
      assert ts == {};
    } else {
      assert s == [s[0]] + s[1..];
      NoDupSize(s[1..], ts - {s[0]});
    }
  }

  lemma TasksHere(k: State, ls: seq<StateList>)
    requires ListsOk(k.lists, k.tcb, {}) && NoDup(ls) && ls != []
    ensures |TasksOn(k, ls)| == |ListOf(k, ls[0]).items| + |TasksOn(k, ls[1..])| && NoDup(ls[1..])
  {
    var here := set t | t in k.tcb && k.tcb[t].stateIn == ls[0];
    var items := ListOf(k, ls[0]).items;
    assert NoDup(items) && forall t :: t in here <==> t in items;
    hide ListsOk, ListOf;
    NoDupSize(items, here);
    assert ls == [ls[0]] + ls[1..];
    assert TasksOn(k, ls) == here + TasksOn(k, ls[1..]);
    assert here * TasksOn(k, ls[1..]) == {};
  }

  lemma {:induction false} TotalIsTasks(k: State, ls: seq<StateList>)
    requires ListsOk(k.lists, k.tcb, {}) && NoDup(ls)
    ensures TotalLength(k, ls) == |TasksOn(k, ls)|
    decreases |ls|
  {
    hide ListsOk, NoDup, ListOf, TasksOn;
    if ls != [] {
      TasksHere(k, ls);
      TotalIsTasks(k, ls[1..]);
    } else {
      NoTasks(k);
    }
  }

  lemma NoTasks(k: State)
    ensures TasksOn(k, []) == {}
  {
  }

  lemma EveryListListed(k: State, t: Task)
    requires PrioritiesOk(k.tcb, k.top) && t in k.tcb
    ensures k.tcb[t].stateIn in AllLists()
  {
    var l := k.tcb[t].stateIn;
    if l.Ready? {
      assert AllLists()[l.priority] == l;
    } else {
      assert l in [DelayA, DelayB, Suspended, Terminated];
    }
  }

  /** The list lengths add up to the number of tasks: none is lost and none is on two lists. */
  lemma Conservation(k: State)
    requires Inv(k)
    ensures TotalLength(k, AllLists()) == k.number
    ensures forall t :: t in k.tcb ==> t in ListOf(k, k.tcb[t].stateIn).items
    ensures forall l, t :: t in ListOf(k, l).items ==> t in k.tcb && k.tcb[t].stateIn == l
  {
    hide EventsOk, TimeOk, NoneDue, BlockedOk, AllLists, TotalLength;
    AllListsOnce();
    TotalIsTasks(k, AllLists());
    forall t | t in k.tcb
      ensures k.tcb[t].stateIn in AllLists() && t in ListOf(k, k.tcb[t].stateIn).items
    {
      EveryListListed(k, t);
      assert t in At(k.lists, k.tcb[t].stateIn).items;
    }
    assert TasksOn(k, AllLists()) == k.tcb.Keys;
    forall l, t | t in ListOf(k, l).items
      ensures t in k.tcb && k.tcb[t].stateIn == l
    {
      assert t in At(k.lists, l).items;
    }
  }

  lemma AllListsOnce()
    ensures NoDup(AllLists())
  {
  }

  // ----- where runs begin

  /** The state in which the scheduler starts, with the idle task `idle`. */
  function Started(idle: Task): State {
    State(0, 0, 0, 0, MAX_DELAY, false, 0, 0, idle, false, false, 1, 0,
          map[idle := NewTcb(0)], map[Ready(0) := Ring([idle], 0)], map[])
  }

  lemma StartedInv(idle: Task)
    ensures Inv(Started(idle)) && SomeReady(Started(idle))
  {
    var k := Started(idle);
    forall l, t
      ensures t in At(k.lists, l).items <==> t == idle && l == Ready(0)
    {
    }
    assert k.tcb.Keys == {idle};
    assert IsReady(k, idle);
  }

  /** A state at tick zero in which nothing is delayed, pending or requested. */
  function Still(tcb: Tcbs, lists: StateLists, events: EventLists, current: Task, top: nat): State {
    State(0, 0, 0, 0, MAX_DELAY, false, 0, top, current, false, false, |tcb|, 0, tcb, lists, events)
  }

  ghost predicate Placed(tcb: Tcbs, lists: StateLists) {
    && (forall l :: NoDup(At(lists, l).items))
    && (forall l, t :: t in At(lists, l).items <==> t in tcb && tcb[t].stateIn == l)
  }

  ghost predicate Queued(tcb: Tcbs, events: EventLists) {
    && (forall e :: NoDup(At(events, e).items))
    && (forall e, t {:trigger t in At(events, e).items} ::
          t in At(events, e).items <==> t in tcb && e != NoEvent && tcb[t].eventIn == e)
  }

  lemma StillInv(tcb: Tcbs, lists: StateLists, events: EventLists, current: Task, top: nat)
    requires Placed(tcb, lists) && Queued(tcb, events) && PrioritiesOk(tcb, top) && BlockedOk(tcb) && current in tcb
    requires At(lists, DelayA).items == At(lists, DelayB).items == At(lists, Terminated).items == []
    requires At(events, Pending).items == []
    ensures Inv(Still(tcb, lists, events, current, top))
  {
    hide At, NoDup;
    assert ListsOk(lists, tcb, {});
    assert EventsOk(events, tcb);
    hide Placed, Queued, ListsOk, EventsOk;
  }

  // ----- equal turns

  /** The list the next switch chooses from. */
  function TopList(k: State): TaskList {
    ListOf(k, Ready(HighestReady(k, k.top)))
  }

  ghost predicate CanSwitch(k: State) {
    k.suspended == 0 && TopList(k).items != []
  }

  lemma SwitchedTop(k: State)
    requires CanSwitch(k)
    ensures var k' := SwitchContext(k);
            && CanSwitch(k') && TopList(k') == Advance(TopList(k)) && k'.current == Selected(Advance(TopList(k)))
  {
    var k' := SwitchContext(k);
    var p := HighestReady(k, k.top);
    assert ListOf(k', Ready(p)) == Advance(ListOf(k, Ready(p)));
  }

  /** The tasks that `n` switches in a row select. */
  ghost function Chosen(k: State, n: nat): seq<Task>
    requires CanSwitch(k)
    decreases n
  {
    if n == 0 then [] else
      SwitchedTop(k);
      [SwitchContext(k).current] + Chosen(SwitchContext(k), n - 1)
  }

  lemma {:induction false} ChosenAreTurns(k: State, n: nat)
    requires CanSwitch(k)
    ensures Chosen(k, n) == Turns(TopList(k), n)
    decreases n
  {
    hide SwitchContext, HighestReady, ListOf, Advance, Selected;
    if n > 0 {
      SwitchedTop(k);
      ChosenAreTurns(SwitchContext(k), n - 1);
    }
  }

  /** As many switches as there are tasks on the highest ready list, with the list unchanged
      between them, select each of those tasks exactly once. */
  lemma EqualTurns(k: State)
    requires CanSwitch(k)
    ensures multiset(Chosen(k, |TopList(k).items|)) == multiset(TopList(k).items)
  {
    ChosenAreTurns(k, |TopList(k).items|);
    RoundRobin(TopList(k));
  }
}
