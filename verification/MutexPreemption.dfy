/** When giving a mutex back leaves a higher-priority ready task waiting, and what every run with
    mutexes keeps otherwise. */
module MutexPreemption {
  import opened Lists
  import opened Kernel
  import opened KernelInvariants
  import opened KernelTime
  import opened KernelOps
  import opened KernelRuns
  import opened KernelPreemption
  import M = Mutexes
  import MI = MutexInversion

  /** The giver loses an inherited priority while a task that its base priority is not below
      still waits: xQueueGenericSend then looks at that waiter only. */
  predicate SkipsYield(k: State, id: nat) {
    && Lowers(k) && M.WaitersOf(k, id) != []
    && Priority(k, M.WaitersOf(k, id)[0]) <= TcbOf(k, k.current).base
  }

  /** And another task is ready above the giver's base. */
  ghost predicate LeavesBehind(k: State, id: nat) {
    SkipsYield(k, id) && ReadyAbove(k, TcbOf(k, k.current).base)
  }

  // ----- the give, once the giver is lowered

  /** The giver is lowered and the head waiter, if any, still to be woken. */
  lemma Lowered(s: M.System, id: nat)
    requires M.CallsInv(s) && id in s.mutexes && s.mutexes[id].holder == M.Held(s.k.current)
    ensures TcbOf(s.k, s.k.current).mutexesHeld > 0
    ensures var k := s.k;
            var c := k.current;
            var k1 := Disinherit(k);
            && Inv(k1) && c in k.tcb && c in k1.tcb && k1.tcb == k.tcb[c := k1.tcb[c]] && k1.current == c
            && Priority(k1, c) == (if Lowers(k) then k.tcb[c].base else Priority(k, c))
            && (IsReady(k, c) ==> IsReady(k1, c))
            && k1.yieldPending == k.yieldPending && k1.yieldAsked == k.yieldAsked
            && M.WaitersOf(k1, id) == M.WaitersOf(k, id) && k1.suspended == k.suspended
  {
    hide Inv, Disinherit, M.Accounted, M.Moved;
    M.HolderIs(s, id);
    M.DisinheritEffect(s.k);
    LowerTcb(s.k);
  }

  lemma HeadWaits(k: State, id: nat)
    requires Inv(k) && M.WaitersOf(k, id) != [] && IsReady(k, k.current)
    ensures M.WaitersOf(k, id)[0] != k.current && M.WaitersOf(k, id)[0] in k.tcb
  {
    M.WaitingHead(k, id);
    hide ListsOk, EventsOk, TimeOk, NoneDue, PrioritiesOk, CountsOk, NonePending;
  }

  // ----- waking the head waiter

  /** Waking it, and the yield that follows if it outranks the giver. */
  lemma GiveWakes(k1: State, id: nat)
    requires Inv(k1) && M.WaitersOf(k1, id) != []
    ensures var t := M.WaitersOf(k1, id)[0];
            var k' := Ask(RemoveFromEventList(k1, id), Priority(k1, t) > Priority(k1, k1.current));
            && (Preemptive(k1) ==> Preemptive(k'))
            && (Priority(k1, t) > Priority(k1, k1.current) ==> Preemptive(k'))
  {
    hide Inv, RemoveFromEventList, EventsOf;
    var t := M.WaitersOf(k1, id)[0];
    var k2 := RemoveFromEventList(k1, id);
    if Preemptive(k1) {
      WokenPreempts(k1, id);
      if !SwitchRequested(Ask(k2, Priority(k1, t) > Priority(k1, k1.current))) {
        RanksOf(k2, Ask(k2, Priority(k1, t) > Priority(k1, k1.current)));
      }
    }
  }

  lemma WokenPreempts(k: State, id: nat)
    requires Inv(k) && M.WaitersOf(k, id) != [] && Preemptive(k)
    ensures Preemptive(RemoveFromEventList(k, id))
  {
    hide Inv, RemoveFromEventList, Preemptive, Behaves, OnlyTouches;
    WakeTouches(k, id);
    WakeBehaves(k, id);
    TouchKeeps(k, RemoveFromEventList(k, id), EventsOf(k, Waiters(id)).items[0]);
  }

  lemma WakeLow(k1: State, id: nat, t: Task)
    requires Inv(k1) && M.WaitersOf(k1, id) != [] && !SwitchRequested(k1)
    requires Priority(k1, M.WaitersOf(k1, id)[0]) <= Priority(k1, k1.current)
    requires IsReady(k1, t) && Priority(k1, t) > Priority(k1, k1.current)
    ensures !Preemptive(Ask(RemoveFromEventList(k1, id), false))
  {
    hide Inv, EventsOk, MakeReady, DropEvent, PutEventEnd;
    var w := M.WaitersOf(k1, id)[0];
    M.WaitingHead(k1, id);
    NotReady(k1, w);
    WakingFlagsOne(k1, w);
    MakeReadyEffect(k1, w);
    ToPendingPlaced(k1, w);
    var k' := Ask(RemoveFromEventList(k1, id), false);
    assert IsReady(k', t) && Priority(k', t) > Priority(k', k'.current);
  }

  // ----- the exact condition

  /** Otherwise the give leaves the running task outranked only with a switch requested. */
  lemma GiveYields(s: M.System, id: nat)
    requires M.CallsInv(s) && id in s.mutexes && s.mutexes[id].holder == M.Held(s.k.current)
    requires Preemptive(s.k) && !SwitchRequested(s.k) && !LeavesBehind(s.k, id)
    ensures TcbOf(s.k, s.k.current).mutexesHeld > 0
    ensures Preemptive(M.GiveBack(s, id).k)
  {
    hide Inv, Disinherit, M.Accounted, RemoveFromEventList, EventsOf;
    Lowered(s, id);
    var k := s.k;
    var k1 := Disinherit(k);
    var k' := M.GiveBack(s, id).k;
    if !Lowers(k) || SkipsYield(k, id) {
      NoneAbove(k);
      LoweredRanks(k, k1);
    }
    if M.WaitersOf(k1, id) == [] {
      if !SwitchRequested(k') {
        RanksOf(k1, k');
      }
    } else {
      HeadWaits(k, id);
      GiveWakes(k1, id);
    }
  }

  lemma GiveSkipsYield(s: M.System, id: nat)
    requires M.CallsInv(s) && id in s.mutexes && s.mutexes[id].holder == M.Held(s.k.current)
    requires Preemptive(s.k) && !SwitchRequested(s.k) && LeavesBehind(s.k, id)
    ensures TcbOf(s.k, s.k.current).mutexesHeld > 0
    ensures !Preemptive(M.GiveBack(s, id).k)
  {
    hide Inv, Disinherit, M.Accounted, EventsOf, RemoveFromEventList;
    var t :| t != s.k.current && IsReady(s.k, t) && Priority(s.k, t) > TcbOf(s.k, s.k.current).base;
    Lowered(s, id);
    HeadWaits(s.k, id);
    WakeLow(Disinherit(s.k), id, t);
  }

  /** Giving a mutex back leaves the running task outranked with no switch requested exactly
      when the yield is skipped and another ready task is above the giver's base priority. */
  lemma GivePreempts(s: M.System, id: nat)
    requires M.CallsInv(s) && id in s.mutexes && s.mutexes[id].holder == M.Held(s.k.current)
    requires Preemptive(s.k) && !SwitchRequested(s.k)
    ensures TcbOf(s.k, s.k.current).mutexesHeld > 0
    ensures Preemptive(M.GiveBack(s, id).k) <==> !LeavesBehind(s.k, id)
  {
    hide M.CallsInv, M.GiveBack, Preemptive, LeavesBehind;
    if LeavesBehind(s.k, id) {
      GiveSkipsYield(s, id);
    } else {
      GiveYields(s, id);
    }
  }

  // ----- runs

  /** What the gives and time-outs of a run have to meet: the two exact conditions. */
  ghost predicate Yields(s: M.System, a: M.Action)
    requires M.CallsInv(s) && M.Legal(s, a)
  {
    match a
    case GiveCall(id) =>
      var m := s.mutexes[id];
      (m.recursive && m.depth > 1) || SwitchRequested(s.k) || !LeavesBehind(s.k, id)
    case TimeoutCall(id) =>
      M.HeldWhenEmpty(s, id);
      var h := s.mutexes[id].holder.task;
      SwitchRequested(s.k) || !LateOutranks(s.k, h, M.HighestWaiting(s.k, id))
    case _ => true
  }

  lemma Requested(s: M.System, id: nat)
    requires M.CallsInv(s) && id in s.mutexes && s.mutexes[id].holder == M.Held(s.k.current) && SwitchRequested(s.k)
    ensures TcbOf(s.k, s.k.current).mutexesHeld > 0
    ensures SwitchRequested(M.GiveBack(s, id).k)
  {
    hide Inv, Disinherit, M.Accounted, MakeReady, DropEvent, PutEventEnd;
    Lowered(s, id);
    var k1 := Disinherit(s.k);
    if M.WaitersOf(k1, id) != [] {
      var t := M.WaitersOf(k1, id)[0];
      M.WaitingHead(k1, id);
      hide EventsOk;
      WakingFlagsOne(k1, t);
      ToPendingPlaced(k1, t);
    }
  }

  lemma GiveCallPreempts(s: M.System, id: nat)
    requires M.CallsInv(s) && M.Legal(s, M.GiveCall(id)) && Preemptive(s.k) && Yields(s, M.GiveCall(id))
    ensures Preemptive(M.Act(s, M.GiveCall(id)).k)
  {
    hide Inv, M.Accounted, M.GiveBack, NoneOutranks, LeavesBehind;
    M.GiveKeeps(s, id);
    if !(s.mutexes[id].recursive && s.mutexes[id].depth > 1) {
      if SwitchRequested(s.k) {
        Requested(s, id);
      } else {
        GivePreempts(s, id);
      }
    }
  }

  lemma TimeoutPreempts(s: M.System, id: nat)
    requires M.CallsInv(s) && M.Legal(s, M.TimeoutCall(id)) && Preemptive(s.k) && Yields(s, M.TimeoutCall(id))
    ensures Preemptive(M.Act(s, M.TimeoutCall(id)).k)
  {
    hide Inv, M.Accounted, DisinheritAfterTimeout, Preemptive, LateOutranks, M.HighestWaiting;
    M.HeldWhenEmpty(s, id);
    M.HolderIs(s, id);
    M.HighestBelow(s, id);
    LateKeeps(s.k, s.mutexes[id].holder.task, M.HighestWaiting(s.k, id));
  }

  lemma TakePreempts(s: M.System, id: nat)
    requires M.CallsInv(s) && M.Legal(s, M.TakeCall(id)) && Preemptive(s.k)
    ensures Preemptive(M.Take(s, id).k)
  {
    hide Inv, M.Accounted;
    if !SwitchRequested(s.k) {
      var k' := M.Take(s, id).k;
      assert forall t :: IsReady(k', t) <==> IsReady(s.k, t);
      assert forall t :: Priority(k', t) == Priority(s.k, t);
    }
  }

  lemma ActPreempts(s: M.System, a: M.Action)
    requires M.CallsInv(s) && M.Legal(s, a) && Preemptive(s.k) && Yields(s, a)
    ensures Preemptive(M.Act(s, a).k)
  {
    hide Inv, M.Accounted, NoneOutranks, Enabled, Step, M.Take, M.Give, M.TimedOut, Inherit, PlaceOnEventList,
      LeavesBehind, LateOutranks, Running, InUse;
    match a {
      case Other(op) => StepPreempts(s.k, op);
      case TakeCall(id) => TakePreempts(s, id);
      case BlockCall(_, _) =>
      case GiveCall(id) => GiveCallPreempts(s, id);
      case TimeoutCall(id) => TimeoutPreempts(s, id);
      case CreateCall(_, _) =>
      case DeleteCall(_) =>
    }
  }

  ghost predicate AllYield(s: M.System, actions: seq<M.Action>)
    requires M.CallsInv(s) && M.Follows(s, actions)
    decreases |actions|
  {
    actions == [] || (Yields(s, actions[0])
        && (M.ActKeeps(s, actions[0]); AllYield(M.Act(s, actions[0]), actions[1..])))
  }

  /** In every run of ticks, interrupts, calls and mutexes: unless a switch is requested, the
      running task is ready and no ready task has a higher priority. */
  lemma {:induction false} HighestPriorityRuns(s: M.System, actions: seq<M.Action>)
    requires M.CallsInv(s) && M.Follows(s, actions) && AllYield(s, actions) && Preemptive(s.k)
    ensures Preemptive(M.After(s, actions).k)
    decreases |actions|
  {
    hide M.CallsInv, M.Legal, M.Act, Preemptive, Yields;
    if actions != [] {
      M.ActKeeps(s, actions[0]);
      ActPreempts(s, actions[0]);
      HighestPriorityRuns(M.Act(s, actions[0]), actions[1..]);
    }
  }

  /** In a system in which priority inversion is bounded a time-out never leaves the running
      task outranked: of the two conditions only the one on gives remains. */
  lemma BoundedTimeouts(s: M.System, id: nat)
    requires MI.SysInv(s) && M.Legal(s, M.TimeoutCall(id)) && Preemptive(s.k)
             && s.mutexes[id].holder != M.Held(s.k.current)
    ensures Yields(s, M.TimeoutCall(id))
  {
    hide Inv, M.Accounted, MI.Ordered, MI.Fit, MI.Retrying, M.HighestWaiting, IsReady;
    M.HeldWhenEmpty(s, id);
    M.HolderIs(s, id);
    var h := s.mutexes[id].holder.task;
    MI.HighestBounds(s, id);
    assert M.RankOk(s.k.tcb[h]);
    if M.WaitersOf(s.k, id) != [] {
      M.WaitingHead(s.k, id);
    } else {
      NoneWaiting(s.k, id);
    }
  }

  lemma NoneWaiting(k: State, id: nat)
    requires M.WaitersOf(k, id) == []
    ensures M.HighestWaiting(k, id) == 0
  {
  }

  // ----- a state in which a give skips its yield

  /** Task 0, of base priority 1, has just given mutex 1 back to task 2, from which it inherited
      priority 3 and which is therefore ready but not above it; it still holds mutex 0, for
      which task 1, of priority 1, waits. */
  const GIVER: Tcb := Tcb(3, 1, 1, 0, 12, Ready(3), NoEvent, false)
  const WAITER: Tcb := Tcb(1, 1, 0, 0, 14, Suspended, Waiters(0), false)
  const WOKEN: Tcb := Tcb(3, 3, 0, 0, 12, Ready(3), NoEvent, false)

  function LeftTcbs(): Tcbs {
    map[0 := GIVER, 1 := WAITER, 2 := WOKEN]
  }

  function LeftLists(): StateLists {
    map[Ready(3) := Ring([2, 0], 2), Suspended := Ring([1], 0)]
  }

  function LeftEvents(): EventLists {
    map[Waiters(0) := Ring([1], 0)]
  }

  function Left(): M.System {
    M.System(Still(LeftTcbs(), LeftLists(), LeftEvents(), 0, 3),
             map[0 := M.Mutex(0, M.Held(0), false, 0), 1 := M.Mutex(1, M.Nobody, false, 0)], map[2 := 1])
  }

  lemma LeftPlaced()
    ensures Placed(LeftTcbs(), LeftLists())
  {
    forall l
      ensures At(LeftLists(), l).items == if l == Ready(3) then [2, 0] else if l == Suspended then [1] else []
    {
    }
    assert 2 in [2, 0] && 0 in [2, 0] && 1 in [1];
  }

  lemma LeftQueued()
    ensures Queued(LeftTcbs(), LeftEvents())
  {
  }

  lemma LeftInv()
    ensures Inv(Left().k)
  {
    hide Inv, Placed, Queued;
    LeftPlaced();
    LeftQueued();
    StillInv(LeftTcbs(), LeftLists(), LeftEvents(), 0, 3);
  }

  lemma LeftHeld()
    ensures M.HeldBy(Left().mutexes, 0) == {0} && M.HeldBy(Left().mutexes, 1) == {} && M.HeldBy(Left().mutexes, 2) == {}
  {
  }

  lemma LeftTasks(t: Task)
    requires t in Left().k.tcb
    ensures var b := Left().k.tcb[t];
            M.CountOk(b, |M.HeldBy(Left().mutexes, t)|) && M.RankOk(b) && MI.FitOk(b) && !InUse(b.eventValue)
  {
    LeftHeld();
    hide M.HeldBy;
  }

  lemma LeftMutexes(id: nat)
    requires id in Left().mutexes
    ensures M.MutexOk(Left().mutexes[id])
            && (Left().mutexes[id].holder.Held? ==> Left().mutexes[id].holder.task in Left().k.tcb)
  {
  }

  lemma LeftAccounts()
    ensures M.Accounted(Left().k.tcb, Left().mutexes) && M.Ranked(Left().k.tcb) && MI.Fit(Left().k.tcb)
  {
    hide M.CountOk, M.RankOk, MI.FitOk, M.MutexOk, InUse, M.HeldBy, Left;
    forall id | id in Left().mutexes
      ensures M.MutexOk(Left().mutexes[id])
              && (Left().mutexes[id].holder.Held? ==> Left().mutexes[id].holder.task in Left().k.tcb)
    {
      LeftMutexes(id);
    }
    forall t | t in Left().k.tcb
      ensures var b := Left().k.tcb[t];
              M.CountOk(b, |M.HeldBy(Left().mutexes, t)|) && M.RankOk(b) && MI.FitOk(b) && !InUse(b.eventValue)
    {
      LeftTasks(t);
    }
  }

  lemma LeftLinks()
    ensures var s := Left();
            MI.Bound(s.k.tcb, s.mutexes) && MI.Retrying(s.k.tcb, s.mutexes, s.retry)
                && MI.Ordered(s.k.events, s.k.tcb, s.mutexes.Keys)
  {
    assert At(LeftEvents(), Waiters(0)).items == [1] && At(LeftEvents(), Waiters(1)).items == [];
  }

  lemma LeftReady()
    ensures Preemptive(Left().k) && !SwitchRequested(Left().k) && LeavesBehind(Left().k, 0)
  {
    assert IsReady(Left().k, 2);
    assert EventsOf(Left().k, Waiters(0)).items == [1];
  }

  /** The give in that state, which satisfies every invariant, leaves task 2 ready above task 0,
      which goes on running. */
  lemma LeftBehind()
    ensures MI.SysInv(Left()) && Preemptive(Left().k) && TcbOf(Left().k, Left().k.current).mutexesHeld > 0
    ensures !Preemptive(M.GiveBack(Left(), 0).k)
  {
    LeftInv();
    LeftAccounts();
    LeftLinks();
    LeftReady();
    hide Inv, M.Accounted, M.Ranked, MI.Fit, MI.Bound, MI.Retrying, MI.Ordered, M.GiveBack, Preemptive, LeavesBehind;
    GivePreempts(Left(), 0);
  }
}
