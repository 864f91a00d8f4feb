/** A borrowed item value stays as it is until its task reads it back. */
module ItemValues {
  import opened Kernel
  import opened KernelInvariants
  import opened KernelTime
  import opened KernelOps
  import opened KernelRuns
  import opened KernelEffects

  // ----- one action

  /** The actions that may change the item value of `t` while it is in use: reading it back,
      waiting on a further event group, handing over the bits of a set call, deletion, and the
      lowering of the running task when it gives its last mutex back. */
  ghost predicate Overwrites(k: State, op: Op, t: Task)
    requires Enabled(k, op)
  {
    match op
    case ReadItem => t == k.current
    case WaitUnordered(_, _, _) => t == k.current
    case Lower => t == k.current && Lowers(k)
    case WakeUnordered(x, _) => x == t
    case Remove(x) => x == t && t != k.current
    case Collect => Target(k, op) == t
    case _ => false
  }

  ghost predicate SameValue(k: State, k': State, t: Task) {
    t in k.tcb && t in k'.tcb && k'.tcb[t].eventValue == k.tcb[t].eventValue
  }

  lemma BlockValue(k: State, op: Op)
    requires Inv(k) && Enabled(k, op) && Blocks(op) && !op.WaitUnordered?
    ensures SameValue(k, Step(k, op), k.current)
  {
    hide Inv, Step, FallsAsleep, Queues, WakeAt;
    CurrentLive(k);
    BlockedExact(k, op);
  }

  lemma MoveValue(k: State, op: Op)
    requires Inv(k) && Enabled(k, op) && (op.Wake? || op.Halt? || op.Continue? || op.Abort?)
    ensures SameValue(k, Step(k, op), Target(k, op))
  {
    hide Inv, RemoveFromEventList, Kernel.Suspend, Resume, AbortDelay, EventsOf, ListOf, Moves, Leaves, Pends;
    match op {
      case Wake(id) => RemoveFromEventListInv(k, id);
      case Halt(t) => SuspendInv(k, t);
      case Continue(t) => ResumeInv(k, t);
      case Abort(t) => AbortDelayInv(k, t);
    }
  }

  lemma PriorityValue(k: State, op: Op)
    requires Inv(k) && Enabled(k, op) && (op.SetPriority? || op.Raise? || op.Lower? || op.LowerLate?)
             && InUse(k.tcb[Target(k, op)].eventValue) && !(op.Lower? && Lowers(k))
    ensures SameValue(k, Step(k, op), Target(k, op))
  {
    hide Inv, PrioritySet, Inherit, Disinherit, DisinheritAfterTimeout, ListOf, MovesIfReady, InUse, PrioritySetAsks;
    match op {
      case SetPriority(t, p) => PrioritySetInv(k, t, p);
      case Raise(t) => InheritInv(k, t);
      case Lower => DisinheritInv(k);
      case LowerLate(t, w) => DisinheritAfterTimeoutInv(k, t, w);
    }
  }

  lemma TargetValue(k: State, op: Op, t: Task)
    requires Inv(k) && Enabled(k, op) && !op.Tick? && !Outermost(k, op) && t in k.tcb && t == Target(k, op)
    requires InUse(k.tcb[t].eventValue) && !Overwrites(k, op, t)
    ensures SameValue(k, Step(k, op), t)
  {
    hide Inv, DelayCurrent, PlaceOnEventList, PlaceOnUnorderedEventList, PlaceRestricted, ResetItem,
      RemoveFromEventList, RemoveFromUnordered, Create, Delete, CleanUp, Kernel.Suspend, Resume, AbortDelay,
      PrioritySet, Inherit, Disinherit, DisinheritAfterTimeout, Running, SomeReady, EventsOf, ListOf, InUse,
      SwitchContext, SuspendAll, ResumeAll, Moves, Leaves, Lowers;
    if Blocks(op) {
      BlockValue(k, op);
    } else if op.Wake? || op.Halt? || op.Continue? || op.Abort? {
      MoveValue(k, op);
    } else if op.SetPriority? || op.Raise? || op.Lower? || op.LowerLate? {
      PriorityValue(k, op);
    } else if op.Remove? {
      DeleteSelfInv(k);
    } else if op.Switch? || op.Suspending? || op.Resuming? {
      SwitchTouches(k);
    }
  }

  lemma TickedValue(k: State, k': State, n: nat, t: Task)
    requires Ticked(k, k', n) && t in k.tcb
    ensures SameValue(k, k', t)
  {
    hide WakeAt;
  }

  lemma DrainedValue(k: State, k': State, t: Task)
    requires Drained(k, k') && t in k.tcb
    ensures SameValue(k, k', t)
  {
    hide WakeAt;
  }

  lemma TimeValue(k: State, op: Op, t: Task)
    requires Inv(k) && Enabled(k, op) && (op.Tick? || Outermost(k, op)) && t in k.tcb
    ensures SameValue(k, Step(k, op), t)
  {
    hide Inv, Increment, Ticked, Drained, ResumeAll, DrainPending;
    if Outermost(k, op) {
      var k0 := k.(suspended := 0);
      ResumeAllExact(k);
      DrainedValue(k0, DrainPending(k0), t);
      TickedValue(DrainPending(k0), ResumeAll(k), k.pended, t);
    } else if k.suspended == 0 {
      IncrementSettled(k);
      TickedValue(k, Increment(k), 1, t);
    }
  }

  /** Every action leaves a borrowed item value as it is, unless it overwrites it by design. */
  lemma StepKeepsValue(k: State, op: Op, t: Task)
    requires Inv(k) && Enabled(k, op) && t in k.tcb && InUse(k.tcb[t].eventValue) && !Overwrites(k, op, t)
    ensures SameValue(k, Step(k, op), t)
  {
    hide Inv, Enabled, Step, Target, InUse, Overwrites;
    if op.Tick? || Outermost(k, op) {
      TimeValue(k, op, t);
    } else {
      StepTouches(k, op);
      if t == Target(k, op) {
        TargetValue(k, op, t);
      }
    }
  }

  // ----- runs

  ghost predicate NeverOverwrites(k: State, ops: seq<Op>, t: Task)
    requires Inv(k) && Allowed(k, ops)
    decreases |ops|
  {
    ops == [] || (!Overwrites(k, ops[0], t) && (StepInv(k, ops[0]); NeverOverwrites(Step(k, ops[0]), ops[1..], t)))
  }

  /** In every run: the mask a waiting task has stored, or the bits it has been handed, survive
      ticks, interrupts, blocking and every change of priority until it reads them back. */
  lemma {:induction false} StoredValueSurvives(k: State, ops: seq<Op>, t: Task)
    requires Inv(k) && Allowed(k, ops) && NeverOverwrites(k, ops, t)
    requires t in k.tcb && InUse(k.tcb[t].eventValue)
    ensures var k' := Run(k, ops); t in k'.tcb && k'.tcb[t].eventValue == k.tcb[t].eventValue
    decreases |ops|
  {
    hide Inv, Enabled, Step, InUse, Overwrites;
    if ops != [] {
      StepInv(k, ops[0]);
      StepKeepsValue(k, ops[0], t);
      StoredValueSurvives(Step(k, ops[0]), ops[1..], t);
    }
  }
}
