/** The scheduler of tasks.c as an object whose critical sections update it in place. Each
    method is proved against the function of the same critical section in Kernel. */
module Scheduling {
  import opened Words
  import opened Lists
  import opened Kernel
  import opened KernelInvariants
  import opened KernelTime
  import opened KernelOps
  import opened KernelRuns

  // ----- unfolding the specification one loop round at a time

  lemma HeadDelayed(k: State)
    requires Core(k) && Delayed(k) != []
    ensures var t := Delayed(k)[0];
            t in k.tcb && k.tcb[t].stateIn == DelayedId(k) && StateValues(k, Delayed(k))[0] == k.tcb[t].stateValue
  {
    assert Delayed(k)[0] in At(k.lists, DelayedId(k)).items;
  }

  lemma DropHead(r: TaskList)
    requires r.items != []
    ensures Drop(r, r.items[0]).items == r.items[1..]
  {
  }

  lemma WokenHead(k: State)
    requires Core(k) && Delayed(k) != []
    ensures var t := Delayed(k)[0];
            var k' := MakeReady(k, t);
            && Delayed(k') == Delayed(k)[1..] && k'.tickCount == k.tickCount && Core(k')
            && (forall x :: x in k.tcb ==> x in k'.tcb && k'.tcb[x].stateValue == k.tcb[x].stateValue)
  {
    HeadDelayed(k);
    var t := Delayed(k)[0];
    DropHead(ListOf(k, DelayedId(k)));
    MakeReadyCore(k, t);
    MakeReadyEffect(k, t);
    MakeReadyDrops(k, t);
    hide Core, MakeReady;
  }

  lemma MakeReadyDrops(k: State, t: Task)
    requires t in k.tcb && (k.tcb[t].stateIn == DelayA || k.tcb[t].stateIn == DelayB)
    ensures var l := k.tcb[t].stateIn;
            ListOf(MakeReady(k, t), l) == Drop(ListOf(k, l), t)
  {
    hide Drop, InsertEnd;
  }

  lemma StateValuesOf(k: State, k': State, s: seq<Task>)
    requires forall x :: x in s ==> x in k.tcb && x in k'.tcb && k'.tcb[x].stateValue == k.tcb[x].stateValue
    ensures StateValues(k', s) == StateValues(k, s)
  {
  }

  lemma DelayedLive(k: State)
    requires Core(k)
    ensures forall t :: t in Delayed(k) ==> t in k.tcb
  {
    assert forall t :: t in Delayed(k) <==> t in At(k.lists, DelayedId(k)).items;
  }

  lemma PosRound(vs: seq<nat>, v: nat)
    requires vs != [] && vs[0] <= v
    ensures SortedPos(vs, v) == 1 + SortedPos(vs[1..], v)
  {
  }

  lemma TakeRound(s: seq<Task>, p: nat)
    requires p < |s|
    ensures s[..1 + p] == [s[0]] + s[1..][..p]
  {
  }

  lemma ValuesTail(k: State, s: seq<Task>)
    requires s != []
    ensures StateValues(k, s)[1..] == StateValues(k, s[1..])
  {
  }

  /** One more round of the loop in xTaskIncrementTick. */
  lemma ExpiredRound(k: State)
    requires Core(k) && Delayed(k) != [] && TcbOf(k, Delayed(k)[0]).stateValue <= k.tickCount
    ensures var t := Delayed(k)[0];
            Core(MakeReady(k, t)) && Expired(k) == [t] + Expired(MakeReady(k, t))
  {
    hide Core, MakeReady, SortedPos, StateValues, Delayed;
    var t := Delayed(k)[0];
    var k' := MakeReady(k, t);
    HeadDelayed(k);
    WokenHead(k);
    DelayedLive(k);
    StateValuesOf(k, k', Delayed(k'));
    ValuesTail(k, Delayed(k));
    PosRound(StateValues(k, Delayed(k)), k.tickCount);
    TakeRound(Delayed(k), SortedPos(StateValues(k', Delayed(k')), k'.tickCount));
  }

  lemma ExpiredDone(k: State)
    requires Delayed(k) == [] || TcbOf(k, Delayed(k)[0]).stateValue > k.tickCount
    ensures Expired(k) == []
  {
    if Delayed(k) != [] {
      assert StateValues(k, Delayed(k))[0] > k.tickCount;
    }
  }

  /** What the rounds still to come contribute to the result of the tick. */
  predicate Reaches(k: State) {
    AnyReaches(k, Expired(k), Priority(k, k.current))
  }

  function Awoken(k: State): State {
    ResetNextUnblock(MakeAllReady(k, Expired(k)))
  }

  lemma SamePriorities(k: State, t: Task)
    requires t in k.tcb
    ensures forall x :: Priority(MakeReady(k, t), x) == Priority(k, x)
    ensures MakeReady(k, t).current == k.current
  {
    MakeReadyEffect(k, t);
    hide MakeReady;
  }

  lemma AnyReachesCons(k: State, k': State, t: Task, ts: seq<Task>, p: nat)
    requires forall x :: Priority(k', x) == Priority(k, x)
    ensures AnyReaches(k, [t] + ts, p) <==> Priority(k, t) >= p || AnyReaches(k', ts, p)
  {
    if AnyReaches(k', ts, p) {
      var x :| x in ts && Priority(k', x) >= p;
      assert x in [t] + ts;
    }
    assert t in [t] + ts;
  }

  lemma AwokenRound(k: State)
    requires Core(k) && Delayed(k) != [] && TcbOf(k, Delayed(k)[0]).stateValue <= k.tickCount
    ensures var t := Delayed(k)[0];
            var k' := MakeReady(k, t);
            && Core(k') && Awoken(k) == Awoken(k') && |Delayed(k')| < |Delayed(k)|
            && (Reaches(k) <==> Priority(k, t) >= Priority(k, k.current) || Reaches(k'))
  {
    var t := Delayed(k)[0];
    hide Core, MakeReady, ResetNextUnblock, Expired, AnyReaches;
    HeadDelayed(k);
    WokenHead(k);
    ExpiredRound(k);
    SamePriorities(k, t);
    AnyReachesCons(k, MakeReady(k, t), t, Expired(MakeReady(k, t)), Priority(k, k.current));
  }

  lemma AwokenDone(k: State)
    requires Delayed(k) == [] || TcbOf(k, Delayed(k)[0]).stateValue > k.tickCount
    ensures Awoken(k) == ResetNextUnblock(k) && !Reaches(k)
  {
    ExpiredDone(k);
    hide Expired, ResetNextUnblock;
  }

  lemma SwitchFinds(k: State)
    requires Settled(k) && Wrap(k.tickCount + 1) == 0
    ensures Delayed(k) == []
  {
    EmptyAtSwitch(k);
  }

  lemma ResumeBounds(k: State)
    requires Inv(k)
    ensures k.suspended == 1 ==> Settled(k.(suspended := 0))
  {
    if k.suspended == 1 {
      ResumeSettled(k);
    }
  }

  /** What the rounds still to come of the draining loop amount to. */
  function DrainRest(k: State): State {
    var ts := EventsOf(k, Pending).items;
    Pend(MakeAllReady(k, ts), AnyReaches(k, ts, Priority(k, k.current)))
  }

  lemma DrainRestStart(k: State)
    ensures DrainPending(k) == if EventsOf(k, Pending).items == [] then k else ResetNextUnblock(DrainRest(k))
  {
  }

  lemma DrainRestEnd(k: State)
    requires EventsOf(k, Pending).items == []
    ensures DrainRest(k) == k
  {
    assert !AnyReaches(k, [], Priority(k, k.current));
  }

  lemma {:induction false} PendCommutes(k: State, ask: bool, ts: seq<Task>)
    ensures MakeAllReady(Pend(k, ask), ts) == Pend(MakeAllReady(k, ts), ask)
    decreases ts
  {
    if ts != [] {
      assert MakeReady(Pend(k, ask), ts[0]) == Pend(MakeReady(k, ts[0]), ask) by {
        PendCommutesOne(k, ask, ts[0]);
      }
      PendCommutes(MakeReady(k, ts[0]), ask, ts[1..]);
    }
  }

  lemma PendCommutesOne(k: State, ask: bool, t: Task)
    ensures MakeReady(Pend(k, ask), t) == Pend(MakeReady(k, t), ask)
  {
    hide Drop, InsertEnd;
  }

  lemma PendingTail(k: State)
    requires Core(k) && EventsOf(k, Pending).items != []
    ensures var t := EventsOf(k, Pending).items[0];
            && t in k.tcb && Core(MakeReady(k, t))
            && EventsOf(MakeReady(k, t), Pending).items == EventsOf(k, Pending).items[1..]
  {
    var t := EventsOf(k, Pending).items[0];
    HeadWaiter(k, Pending);
    MakeReadyCore(k, t);
    DropHead(EventsOf(k, Pending));
    hide Core, Drop, InsertEnd;
  }

  lemma PendCore(k: State, ask: bool)
    requires Core(k)
    ensures Core(Pend(k, ask)) && EventsOf(Pend(k, ask), Pending) == EventsOf(k, Pending)
  {
  }

  /** One more round of the draining loop in xTaskResumeAll. */
  lemma DrainRound(k: State)
    requires Core(k) && EventsOf(k, Pending).items != []
    ensures var ts := EventsOf(k, Pending).items;
            var t := ts[0];
            var k' := Pend(MakeReady(k, t), Priority(k, t) >= Priority(k, k.current));
            && t in k.tcb && Core(k') && EventsOf(k', Pending).items == ts[1..]
            && DrainRest(k) == DrainRest(k')
            && Priority(MakeReady(k, t), t) == Priority(k, t)
            && Priority(MakeReady(k, t), k.current) == Priority(k, k.current)
            && MakeReady(k, t).tcb.Keys == k.tcb.Keys
  {
    hide Core, MakeReady, AnyReaches, EventsOf, MakeAllReady;
    var ts := EventsOf(k, Pending).items;
    var t := ts[0];
    var ask := Priority(k, t) >= Priority(k, k.current);
    PendingTail(k);
    var k1 := MakeReady(k, t);
    PendCore(k1, ask);
    SamePriorities(k, t);
    AnyReachesCons(k, Pend(k1, ask), t, ts[1..], Priority(k, k.current));
    PendCommutes(k1, ask, ts[1..]);
    MakeReadyKeys(k, t);
    AllReadyCons(k, ts);
    assert ts == [t] + ts[1..];
  }

  lemma AllReadyCons(k: State, ts: seq<Task>)
    requires ts != []
    ensures MakeAllReady(k, ts) == MakeAllReady(MakeReady(k, ts[0]), ts[1..])
  {
  }

  lemma MakeReadyKeys(k: State, t: Task)
    requires t in k.tcb
    ensures MakeReady(k, t).tcb.Keys == k.tcb.Keys
  {
    MakeReadyEffect(k, t);
  }

  lemma SearchDown(k: State, p: nat)
    requires ListOf(k, Ready(p)).items == [] && ListOf(k, Ready(HighestReady(k, p))).items != []
    ensures p > 0 && HighestReady(k, p) == HighestReady(k, p - 1)
  {
  }

  lemma SearchDone(k: State, p: nat)
    requires ListOf(k, Ready(p)).items != []
    ensures HighestReady(k, p) == p
  {
  }

  lemma SameStateValues(tcb: Tcbs, tcb': Tcbs, s: seq<Task>)
    requires forall t :: TcbIn(tcb', t).stateValue == TcbIn(tcb, t).stateValue
    ensures StateValuesIn(tcb', s) == StateValuesIn(tcb, s)
  {
  }

  /** What prvAddCurrentTaskToDelayedList does to the lists, one branch at a time. */
  lemma BlocksIndefinitely(k: State, k': State, lists1: StateLists, tcb1: Tcbs)
    requires k.current in k.tcb && lists1 == TakeOut(k, k.current).lists
    requires tcb1 == k.tcb[k.current := k.tcb[k.current].(delayAborted := false)]
    requires k' == k.(lists := lists1[Suspended := InsertEnd(At(lists1, Suspended), k.current)],
                      tcb := tcb1[k.current := tcb1[k.current].(stateIn := Suspended)])
    ensures k' == DelayCurrent(k, MAX_DELAY, true)
  {
    hide InsertAt, At;
    TakeOutKeeps(k);
    assert k'.tcb == k.tcb[k.current := Slept(k, MAX_DELAY, true)];
    hide TakeOut;
  }

  lemma TakeOutKeeps(k: State)
    ensures TakeOut(k, k.current) == k.(lists := TakeOut(k, k.current).lists)
  {
  }

  lemma BlocksUntil(k: State, k': State, lists1: StateLists, tcb1: Tcbs, ticks: nat, canBlock: bool, l: StateList,
      wake: nat)
    requires k.current in k.tcb && !(ticks == MAX_DELAY && canBlock)
    requires wake == Wrap(k.tickCount + ticks) && l == if wake < k.tickCount then OverflowId(k) else DelayedId(k)
    requires lists1 == TakeOut(k, k.current).lists
    requires tcb1 == k.tcb[k.current := k.tcb[k.current].(delayAborted := false)]
    requires k' == k.(lists := lists1[l := InsertAt(At(lists1, l), k.current,
             SortedPos(StateValuesIn(tcb1, At(lists1, l).items), wake))],
                      tcb := tcb1[k.current := tcb1[k.current].(stateValue := wake, stateIn := l)],
                      nextUnblock := if wake >= k.tickCount then Min(k.nextUnblock, wake) else k.nextUnblock)
    ensures k' == DelayCurrent(k, ticks, canBlock)
  {
    hide TakeOut, InsertAt, At, SortedPos, StateValuesIn, Wrap;
    TakeOutKeeps(k);
    SameStateValues(k.tcb, tcb1, At(lists1, l).items);
    assert k'.tcb == k.tcb[k.current := Slept(k, ticks, canBlock)];
  }

  lemma RequeuedReady(k: State, t: Task)
    requires t in k.tcb
    ensures RequeueReady(k, t) == if k.tcb[t].stateIn == Ready(k.tcb[t].priority) then AddToReady(TakeOut(k, t), t)
            else k
  {
  }

  lemma CleanUpRound(k: State)
    requires Inv(k) && k.cleanup > 0 && TcbOf(k, k.current).stateIn != Terminated
    ensures ListOf(k, Terminated).items != [] && k.number > 0
    ensures var t := ListOf(k, Terminated).items[0];
            && t in k.tcb && k.tcb[t].stateIn == Terminated && t != k.current
            && Inv(CleanUp(k)) && TakeOut(k, t).number == k.number
  {
    CleanUpInv(k);
    assert ListOf(k, Terminated).items[0] in At(k.lists, Terminated).items;
  }

  lemma NoneTerminated(k: State)
    requires Inv(k) && k.cleanup == 0
    ensures forall t :: t in k.tcb ==> k.tcb[t].stateIn != Terminated
  {
    forall t | t in k.tcb
      ensures k.tcb[t].stateIn != Terminated
    {
      assert t in At(k.lists, k.tcb[t].stateIn).items;
    }
  }

  lemma WaiterLive(k: State, id: nat)
    requires Inv(k) && EventsOf(k, Waiters(id)).items != []
    ensures EventsOf(k, Waiters(id)).items[0] in k.tcb
  {
    HeadWaiter(k, Waiters(id));
  }

  lemma KeepsKeys(k: State, t: Task)
    requires t in k.tcb
    ensures TakeOut(k, t).tcb == k.tcb && DropEvent(TakeOut(k, t), t).tcb.Keys == k.tcb.Keys
  {
    hide Drop;
  }

  lemma NoEventToDrop(k: State, t: Task)
    requires t in k.tcb && k.tcb[t].eventIn == NoEvent
    ensures AddToReady(TakeOut(k, t), t) == MakeReady(k, t) && TakeOut(k, t).tcb == k.tcb
  {
    ReadyMove(k, t);
    KeepsKeys(k, t);
  }

  function Aborted(k: State, t: Task): State {
    var b := TcbOf(k, t);
    Pend(MakeReady(SetTcb(k, t, b.(delayAborted := b.delayAborted || b.eventIn != NoEvent)), t),
         b.priority > Priority(k, k.current))
  }

  lemma AbortedTcb(k: State, k1: State, t: Task)
    requires t in k.tcb
    requires k1 == if k.tcb[t].eventIn != NoEvent then SetTcb(k, t, k.tcb[t].(delayAborted := true)) else k
    ensures k1 == SetTcb(k, t, k.tcb[t].(delayAborted := k.tcb[t].delayAborted || k.tcb[t].eventIn != NoEvent))
  {
    assert k.tcb == k.tcb[t := k.tcb[t]];
  }

  class Scheduler {
    ghost var tick: nat
    var tickCount: nat
    var overflows: nat
    var pended: nat
    var nextUnblock: nat
    var delayedIsB: bool
    var suspended: nat
    var top: nat
    var current: Task
    var yieldPending: bool
    var yieldAsked: bool
    var number: nat
    var cleanup: nat
    var tcb: map<Task, Tcb>
    var lists: map<StateList, TaskList>
    var events: map<EventList, TaskList>

    ghost function St(): State
      reads this
    {
      State(tick, tickCount, overflows, pended, nextUnblock, delayedIsB, suspended, top, current, yieldPending,
            yieldAsked, number, cleanup, tcb, lists, events)
    }

    // ----- list items

    /** uxListRemove on the state item */
    method RemoveStateItem(t: Task)
      requires t in tcb
      modifies `lists
      ensures St() == TakeOut(old(St()), t) && lists == TakeOut(old(St()), t).lists
    {
      var l := tcb[t].stateIn;
      lists := lists[l := Drop(At(lists, l), t)];
    }

    method RemoveEventItem(t: Task)
      requires t in tcb
      modifies `events, `tcb
      ensures St() == DropEvent(old(St()), t)
    {
      var e := tcb[t].eventIn;
      if e != NoEvent {
        events := events[e := Drop(At(events, e), t)];
        tcb := tcb[t := tcb[t].(eventIn := NoEvent)];
      }
    }

    method InsertStateItemEnd(t: Task, l: StateList)
      requires t in tcb
      modifies `lists, `tcb
      ensures St() == PutEnd(old(St()), t, l)
      ensures lists == old(lists)[l := InsertEnd(At(old(lists), l), t)]
      ensures tcb == old(tcb)[t := old(tcb)[t].(stateIn := l)]
    {
      lists := lists[l := InsertEnd(At(lists, l), t)];
      tcb := tcb[t := tcb[t].(stateIn := l)];
    }

    /** vListInsert of the state item with the value `wake` */
    method InsertStateItemSorted(t: Task, l: StateList, wake: nat)
      requires t in tcb
      modifies `lists, `tcb
      ensures lists == old(lists)[l := InsertAt(At(old(lists), l), t,
              SortedPos(StateValuesIn(old(tcb), At(old(lists), l).items), wake))]
      ensures tcb == old(tcb)[t := old(tcb)[t].(stateValue := wake, stateIn := l)]
    {
      var r := At(lists, l);
      lists := lists[l := InsertAt(r, t, SortedPos(StateValuesIn(tcb, r.items), wake))];
      tcb := tcb[t := tcb[t].(stateValue := wake, stateIn := l)];
    }

    /** prvAddTaskToReadyList */
    method AddTaskToReadyList(t: Task)
      requires t in tcb
      modifies `top, `lists, `tcb
      ensures St() == AddToReady(old(St()), t)
    {
      if tcb[t].priority > top {
        top := tcb[t].priority;
      }
      InsertStateItemEnd(t, Ready(tcb[t].priority));
    }

    /** Both items of a blocked task come off their lists and it becomes ready. */
    method Unblock(t: Task)
      requires t in tcb
      modifies `top, `lists, `tcb, `events
      ensures St() == MakeReady(old(St()), t)
    {
      hide Drop, InsertEnd;
      RemoveStateItem(t);
      RemoveEventItem(t);
      AddTaskToReadyList(t);
    }

    // ----- time

    /** prvResetNextTaskUnblockTime */
    method ResetNextTaskUnblockTime()
      modifies `nextUnblock
      ensures St() == ResetNextUnblock(old(St()))
    {
      var delayed := At(lists, if delayedIsB then DelayB else DelayA).items;
      if delayed == [] {
        nextUnblock := MAX_DELAY;
      } else {
        nextUnblock := TcbIn(tcb, delayed[0]).stateValue;
      }
    }

    /** taskSWITCH_DELAYED_LISTS: its precondition is what the macro asserts. */
    method SwitchDelayed()
      requires Delayed(St()) == []
      modifies `delayedIsB, `overflows, `nextUnblock
      ensures St() == SwitchDelayedLists(old(St()))
    {
      delayedIsB := !delayedIsB;
      overflows := overflows + 1;
      ResetNextTaskUnblockTime();
    }

    /** xTaskIncrementTick */
    method IncrementTick() returns (switchRequired: bool)
      requires Settled(St())
      modifies this
      ensures if old(suspended) == 0
              then St() == Increment(old(St())) && switchRequired == IncrementSwitches(old(St()))
              else St() == old(St()).(pended := old(pended) + 1) && !switchRequired
      ensures old(suspended) == 0 ==>
                (switchRequired <==> old(yieldPending) || DueReaches(old(St()), old(tick) + 1) || Contended(St()))
    {
      hide Core, NoneDue, Advanced, Expired, ResetNextUnblock, MakeAllReady, Ticked, DueReaches, Contended;
      IncrementAsks(St());
      IncrementFlags(St());
      switchRequired := false;
      if suspended != 0 {
        pended := pended + 1;
        return;
      }
      switchRequired := AdvanceTick();
      if |At(lists, Ready(TcbIn(tcb, current).priority)).items| > 1 {
        switchRequired := true;
      }
      if yieldPending {
        switchRequired := true;
      }
    }

    method AdvanceTick() returns (reached: bool)
      requires Settled(St())
      modifies `tick, `tickCount, `delayedIsB, `overflows, `nextUnblock, `top, `lists, `tcb, `events
      ensures St() == Increment(old(St()))
      ensures reached == (Advanced(old(St())).tickCount >= Advanced(old(St())).nextUnblock
              && Reaches(Advanced(old(St()))))
    {
      hide Core, NoneDue, Reaches, ResetNextUnblock, MakeAllReady, Expired;
      ghost var k0 := St();
      ghost var k1 := Advanced(k0);
      AdvancedCore(k0);
      tick := tick + 1;
      tickCount := Wrap(tickCount + 1);
      if tickCount == 0 {
        SwitchFinds(k0);
        SwitchDelayed();
      }
      assert St() == k1;
      reached := false;
      if tickCount >= nextUnblock {
        reached := WakeDelayed();
      }
    }

    /** The loop of xTaskIncrementTick over the delayed list. */
    method WakeDelayed() returns (reached: bool)
      requires Core(St())
      modifies `top, `lists, `tcb, `events, `nextUnblock
      ensures St() == Awoken(old(St())) && reached == Reaches(old(St()))
    {
      ghost var k1 := St();
      hide Core, Awoken, Reaches, MakeReady;
      reached := false;
      var delayed := At(lists, if delayedIsB then DelayB else DelayA).items;
      while delayed != [] && TcbIn(tcb, delayed[0]).stateValue <= tickCount
        invariant delayed == Delayed(St())
        invariant Core(St()) && Awoken(St()) == Awoken(k1)
        invariant Reaches(k1) <==> reached || Reaches(St())
        decreases |delayed|
      {
        var t := delayed[0];
        AwokenRound(St());
        HeadDelayed(St());
        if TcbIn(tcb, t).priority >= TcbIn(tcb, current).priority {
          reached := true;
        }
        Unblock(t);
        delayed := At(lists, if delayedIsB then DelayB else DelayA).items;
      }
      AwokenDone(St());
      if delayed == [] {
        nextUnblock := MAX_DELAY;
      } else {
        nextUnblock := TcbIn(tcb, delayed[0]).stateValue;
      }
    }

    // ----- suspending the scheduler

    /** vTaskSuspendAll */
    method SuspendScheduler()
      modifies `suspended
      ensures St() == SuspendAll(old(St()))
    {
      suspended := suspended + 1;
    }

    /** xTaskResumeAll */
    method ResumeScheduler() returns (alreadyYielded: bool)
      requires Inv(St()) && suspended > 0
      modifies this
      ensures St() == ResumeAll(old(St()))
      ensures alreadyYielded == (old(suspended) == 1 && yieldPending) && (alreadyYielded ==> yieldAsked)
    {
      hide Inv, Core, NoneDue, DrainPending, CatchUp;
      alreadyYielded := false;
      ResumeSettled(St());
      ResumeBounds(St());
      suspended := suspended - 1;
      if suspended == 0 && number > 0 {
        ghost var k0 := St();
        DrainPendingExact(k0);
        DrainPendingReady();
        CatchUpPended();
        if yieldPending {
          alreadyYielded := true;
          yieldAsked := true;
        }
      }
    }

    method UnblockPending(t: Task)
      requires t in tcb
      modifies `top, `lists, `tcb, `events, `yieldPending
      ensures St() == Pend(MakeReady(old(St()), t), Priority(old(St()), t) >= Priority(old(St()), current))
    {
      hide MakeReady;
      SamePriorities(St(), t);
      MakeReadyKeys(St(), t);
      Unblock(t);
      if tcb[t].priority >= TcbIn(tcb, current).priority {
        yieldPending := true;
      }
    }

    /** The first loop of xTaskResumeAll. */
    method DrainPendingReady()
      requires Settled(St())
      modifies `top, `lists, `tcb, `events, `nextUnblock, `yieldPending
      ensures St() == DrainPending(old(St()))
    {
      hide Core, NoneDue, MakeReady, MakeAllReady, ResetNextUnblock, AnyReaches, DrainRest, Pend, DrainPending;
      ghost var k0 := St();
      var pending := At(events, Pending).items;
      var any := pending != [];
      DrainRestStart(k0);
      while pending != []
        invariant pending == EventsOf(St(), Pending).items
        invariant Core(St()) && DrainRest(St()) == DrainRest(k0)
        decreases |pending|
      {
        var t := pending[0];
        DrainRound(St());
        UnblockPending(t);
        pending := At(events, Pending).items;
      }
      DrainRestEnd(St());
      if any {
        ResetNextTaskUnblockTime();
      } else {
        DrainRestEnd(k0);
      }
    }

    /** The second loop: the ticks that were held back are processed one by one. */
    method CatchUpPended()
      requires Settled(St()) && suspended == 0
      modifies this
      ensures St() == CatchUp(old(St()), old(pended)).(pended := 0)
    {
      hide Core, NoneDue, Increment, IncrementSwitches;
      ghost var k0 := St();
      var counts := pended;
      while counts > 0
        invariant Settled(St()) && suspended == 0
        invariant CatchUp(St(), counts) == CatchUp(k0, k0.pended)
      {
        CatchUpOne(St());
        var switchRequired := IncrementTick();
        if switchRequired {
          yieldPending := true;
        }
        counts := counts - 1;
      }
      pended := 0;
    }

    // ----- choosing the running task

    /** The downward search of taskSELECT_HIGHEST_PRIORITY_TASK; it cannot run below 0. */
    method SearchReady() returns (p: nat)
      requires ListOf(St(), Ready(HighestReady(St(), top))).items != []
      ensures p == HighestReady(St(), top) && At(lists, Ready(p)).items != []
    {
      hide HighestReady;
      p := top;
      while At(lists, Ready(p)).items == []
        invariant HighestReady(St(), p) == HighestReady(St(), top)
        decreases p
      {
        SearchDown(St(), p);
        p := p - 1;
      }
      SearchDone(St(), p);
    }

    /** vTaskSwitchContext */
    method SelectNext()
      requires Inv(St()) && SomeReady(St())
      modifies `top, `lists, `current, `yieldPending, `yieldAsked
      ensures (SwitchContextInv(old(St())); St() == SwitchContext(old(St())))
    {
      hide Inv, SomeReady, HighestReady, Advance, Selected, At, TakesTurn;
      ghost var k := St();
      SwitchContextInv(k);
      if suspended != 0 {
        yieldPending := true;
      } else {
        var p := SearchReady();
        var r := Advance(At(lists, Ready(p)));
        yieldPending := false;
        lists := lists[Ready(p) := r];
        current := Selected(r);
        top := p;
      }
      yieldAsked := false;
    }

    // ----- blocking

    method SleepUntil(l: StateList, wake: nat)
      requires current in tcb
      modifies `lists, `tcb, `nextUnblock
      ensures lists == old(lists)[l := InsertAt(At(old(lists), l), current,
              SortedPos(StateValuesIn(old(tcb), At(old(lists), l).items), wake))]
      ensures tcb == old(tcb)[current := old(tcb)[current].(stateValue := wake, stateIn := l)]
      ensures nextUnblock == if wake >= tickCount then Min(old(nextUnblock), wake) else old(nextUnblock)
    {
      hide InsertAt, SortedPos, StateValuesIn, At;
      InsertStateItemSorted(current, l, wake);
      if wake >= tickCount && wake < nextUnblock {
        nextUnblock := wake;
      }
    }

    /** prvAddCurrentTaskToDelayedList */
    method AddCurrentToDelayed(ticks: nat, canBlockIndefinitely: bool)
      requires current in tcb
      modifies `lists, `tcb, `nextUnblock
      ensures St() == DelayCurrent(old(St()), ticks, canBlockIndefinitely)
    {
      hide TakeOut, InsertAt, InsertEnd, PutEnd, SortedPos, StateValuesIn, DelayCurrent, At;
      ghost var k := St();
      RemoveStateItem(current);
      tcb := tcb[current := tcb[current].(delayAborted := false)];
      ghost var lists1, tcb1 := lists, tcb;
      if ticks == MAX_DELAY && canBlockIndefinitely {
        InsertStateItemEnd(current, Suspended);
        BlocksIndefinitely(k, St(), lists1, tcb1);
      } else {
        var wake := Wrap(tickCount + ticks);
        var l := if (wake < tickCount) == delayedIsB then DelayA else DelayB;
        SleepUntil(l, wake);
        BlocksUntil(k, St(), lists1, tcb1, ticks, canBlockIndefinitely, l, wake);
      }
    }

    /** vTaskPlaceOnEventList */
    method PlaceOnEvents(id: nat, ticks: nat)
      requires current in tcb
      modifies `lists, `tcb, `events, `nextUnblock
      ensures St() == PlaceOnEventList(old(St()), id, ticks)
    {
      hide DelayCurrent, InsertAt, SortedPos, EventValuesIn;
      var r := At(events, Waiters(id));
      events := events[Waiters(id) := InsertAt(r, current,
          SortedPos(EventValuesIn(tcb, r.items), tcb[current].eventValue))];
      tcb := tcb[current := tcb[current].(eventIn := Waiters(id))];
      AddCurrentToDelayed(ticks, true);
    }

    /** vTaskPlaceOnUnorderedEventList */
    method PlaceOnUnorderedEvents(id: nat, value: nat, ticks: nat)
      requires current in tcb && suspended > 0
      modifies `lists, `tcb, `events, `nextUnblock
      ensures St() == PlaceOnUnorderedEventList(old(St()), id, value, ticks)
    {
      hide DelayCurrent, InsertEnd, MarkInUse;
      tcb := tcb[current := tcb[current].(eventValue := MarkInUse(value))];
      events := events[Waiters(id) := InsertEnd(At(events, Waiters(id)), current)];
      tcb := tcb[current := tcb[current].(eventIn := Waiters(id))];
      AddCurrentToDelayed(ticks, true);
    }

    /** vTaskPlaceOnEventListRestricted */
    method PlaceOnEventsRestricted(id: nat, ticks: nat, indefinitely: bool)
      requires current in tcb
      modifies `lists, `tcb, `events, `nextUnblock
      ensures St() == PlaceRestricted(old(St()), id, ticks, indefinitely)
    {
      hide DelayCurrent, InsertEnd;
      events := events[Waiters(id) := InsertEnd(At(events, Waiters(id)), current)];
      tcb := tcb[current := tcb[current].(eventIn := Waiters(id))];
      var wait := ticks;
      if indefinitely {
        wait := MAX_DELAY;
      }
      AddCurrentToDelayed(wait, indefinitely);
    }

    /** uxTaskResetEventItemValue */
    method ResetEventItem() returns (value: nat)
      requires current in tcb && tcb[current].priority < MAX_PRIORITIES
      modifies `tcb
      ensures St() == ResetItem(old(St())) && value == TcbOf(old(St()), current).eventValue
    {
      value := tcb[current].eventValue;
      tcb := tcb[current := tcb[current].(eventValue := MAX_PRIORITIES - tcb[current].priority)];
    }

    // ----- waking

    /** xTaskRemoveFromEventList */
    method RemoveFromEvents(id: nat) returns (higher: bool)
      requires Inv(St()) && At(events, Waiters(id)).items != []
      modifies `top, `lists, `tcb, `events, `yieldPending
      ensures St() == RemoveFromEventList(old(St()), id)
      ensures higher == (Priority(old(St()), At(old(events), Waiters(id)).items[0]) > Priority(old(St()), current))
    {
      hide Inv, MakeReady, InsertEnd, Drop;
      ghost var k := St();
      WaiterLive(k, id);
      var t := At(events, Waiters(id)).items[0];
      higher := tcb[t].priority > TcbIn(tcb, current).priority;
      if suspended == 0 {
        Unblock(t);
      } else {
        RemoveEventItem(t);
        events := events[Pending := InsertEnd(At(events, Pending), t)];
        tcb := tcb[t := tcb[t].(eventIn := Pending)];
      }
      if higher {
        yieldPending := true;
      }
    }

    /** vTaskRemoveFromUnorderedEventList */
    method RemoveFromUnorderedEvents(t: Task, value: nat)
      requires t in tcb && suspended > 0
      modifies `top, `lists, `tcb, `events, `yieldPending
      ensures St() == RemoveFromUnordered(old(St()), t, value)
    {
      hide MakeReady, MarkInUse;
      ghost var k1 := SetEventValue(St(), t, MarkInUse(value));
      SamePriorities(k1, t);
      MakeReadyKeys(k1, t);
      tcb := tcb[t := tcb[t].(eventValue := MarkInUse(value))];
      Unblock(t);
      assert Priority(St(), t) == Priority(k1, t) && Priority(St(), current) == Priority(k1, current);
      if TcbIn(tcb, t).priority > TcbIn(tcb, current).priority {
        yieldPending := true;
      }
    }

    /** Takes both items of a task off their lists. */
    method Unlink(t: Task)
      requires t in tcb
      modifies `lists, `tcb, `events
      ensures St() == DropEvent(TakeOut(old(St()), t), t) && t in tcb
    {
      hide TakeOut, DropEvent;
      KeepsKeys(St(), t);
      RemoveStateItem(t);
      RemoveEventItem(t);
    }

    /** vTaskSuspend */
    method SuspendTask(t: Task)
      requires t in tcb
      modifies `lists, `tcb, `events, `nextUnblock, `yieldAsked
      ensures St() == Kernel.Suspend(old(St()), t)
    {
      hide TakeOut, DropEvent, ResetNextUnblock, InsertEnd, PutEnd;
      Unlink(t);
      InsertStateItemEnd(t, Suspended);
      ResetNextTaskUnblockTime();
      if t == current {
        yieldAsked := true;
      }
    }

    /** vTaskResume */
    method ResumeTask(t: Task)
      requires t in tcb
      modifies `top, `lists, `tcb, `events, `yieldAsked
      ensures St() == Resume(old(St()), t)
    {
      hide MakeReady;
      ghost var k := St();
      if t != current && tcb[t].stateIn == Suspended && tcb[t].eventIn == NoEvent {
        NoEventToDrop(k, t);
        SamePriorities(k, t);
        MakeReadyKeys(k, t);
        RemoveStateItem(t);
        AddTaskToReadyList(t);
        if TcbIn(tcb, t).priority >= TcbIn(tcb, current).priority {
          yieldAsked := true;
        }
      }
    }

    /** The suspended region of xTaskAbortDelay */
    method AbortTaskDelay(t: Task) returns (passed: bool)
      requires t in tcb
      modifies `top, `lists, `tcb, `events, `yieldPending
      ensures St() == AbortDelay(old(St()), t) && passed == IsBlocked(old(St()), t)
    {
      hide MakeReady;
      ghost var k := St();
      passed := false;
      if t != current {
        var l := tcb[t].stateIn;
        passed := l == DelayA || l == DelayB || (l == Suspended && tcb[t].eventIn != NoEvent);
      }
      if passed {
        UnblockAborted(t);
      }
    }

    method UnblockAborted(t: Task)
      requires t in tcb
      modifies `top, `lists, `tcb, `events, `yieldPending
      ensures St() == Aborted(old(St()), t)
    {
      hide MakeReady;
      ghost var k := St();
      if tcb[t].eventIn != NoEvent {
        tcb := tcb[t := tcb[t].(delayAborted := true)];
      }
      AbortedTcb(k, St(), t);
      ghost var k1 := St();
      SamePriorities(k1, t);
      MakeReadyKeys(k1, t);
      Unblock(t);
      assert Priority(St(), t) == Priority(k1, t) && Priority(St(), current) == Priority(k1, current);
      if TcbIn(tcb, t).priority > TcbIn(tcb, current).priority {
        yieldPending := true;
      }
    }

    // ----- priorities

    /** Moves a ready task whose priority has changed. */
    method MoveReady(t: Task)
      requires t in tcb
      modifies `top, `lists, `tcb
      ensures St() == AddToReady(TakeOut(old(St()), t), t)
    {
      RemoveStateItem(t);
      AddTaskToReadyList(t);
    }

    /** The part xTaskPriorityInherit and vTaskPriorityDisinheritAfterTimeout share. */
    method ChangePriority(t: Task, p: nat)
      requires t in tcb
      modifies `top, `lists, `tcb
      ensures St() == Reprioritise(ResetEventValue(old(St()), t, p), t, p)
    {
      hide AddToReady, TakeOut, InUse;
      if !InUse(tcb[t].eventValue) {
        tcb := tcb[t := tcb[t].(eventValue := MAX_PRIORITIES - Min(p, MAX_PRIORITIES))];
      }
      SetPriorityInUse(t, p);
    }

    method SetPriorityInUse(t: Task, p: nat)
      requires t in tcb
      modifies `top, `lists, `tcb
      ensures St() == Reprioritise(old(St()), t, p)
    {
      hide AddToReady, TakeOut;
      var ready := tcb[t].stateIn == Ready(tcb[t].priority);
      tcb := tcb[t := tcb[t].(priority := p)];
      if ready {
        MoveReady(t);
      }
    }

    /** xTaskPriorityInherit: the running task blocks on a mutex that `h` holds. */
    method PriorityInherit(h: Task) returns (inherited: bool)
      requires h in tcb && current in tcb
      modifies `top, `lists, `tcb
      ensures St() == Inherit(old(St()), h)
      ensures inherited == (Priority(old(St()), h) < Priority(old(St()), current)
                            || TcbOf(old(St()), h).base < Priority(old(St()), current))
    {
      hide Reprioritise, ResetEventValue;
      var p := tcb[current].priority;
      if tcb[h].priority < p {
        ChangePriority(h, p);
        inherited := true;
      } else {
        inherited := tcb[h].base < p;
      }
    }

    /** xTaskPriorityDisinherit: the running task gives a mutex back. */
    method PriorityDisinherit() returns (lowered: bool)
      requires current in tcb && tcb[current].mutexesHeld > 0
      modifies `top, `lists, `tcb
      ensures St() == Disinherit(old(St()))
      ensures lowered == (var b := TcbOf(old(St()), current); b.priority != b.base && b.mutexesHeld == 1)
    {
      hide Reprioritise;
      var t := current;
      var b := tcb[t];
      tcb := tcb[t := b.(mutexesHeld := b.mutexesHeld - 1)];
      lowered := b.priority != b.base && tcb[t].mutexesHeld == 0;
      if lowered {
        tcb := tcb[t := tcb[t].(eventValue := MAX_PRIORITIES - Min(b.base, MAX_PRIORITIES))];
        assert tcb == old(tcb)[t := b.(mutexesHeld := 0, eventValue := MAX_PRIORITIES - Min(b.base, MAX_PRIORITIES))];
        SetPriorityInUse(t, b.base);
      }
    }

    /** vTaskPriorityDisinheritAfterTimeout */
    method PriorityDisinheritAfterTimeout(h: Task, waiting: nat)
      requires h in tcb
      modifies `top, `lists, `tcb
      ensures St() == DisinheritAfterTimeout(old(St()), h, waiting)
    {
      hide Reprioritise, ResetEventValue;
      var p := if tcb[h].base < waiting then waiting else tcb[h].base;
      if tcb[h].priority != p && tcb[h].mutexesHeld == 1 {
        ChangePriority(h, p);
      }
    }

    method SetBasePriority(t: Task, p: nat)
      requires t in tcb
      modifies `tcb
      ensures St() == ResetEventValue(SetTcb(old(St()), t, old(tcb)[t].(base := p)), t, p)
      ensures t in tcb && tcb[t].priority == old(tcb)[t].priority && tcb[t].stateIn == old(tcb)[t].stateIn
    {
      hide InUse;
      tcb := tcb[t := tcb[t].(base := p)];
      if !InUse(tcb[t].eventValue) {
        tcb := tcb[t := tcb[t].(eventValue := MAX_PRIORITIES - Min(p, MAX_PRIORITIES))];
      }
    }

    /** vTaskPrioritySet */
    method SetTaskPriority(t: Task, p: nat)
      requires t in tcb && p < MAX_PRIORITIES
      modifies `top, `lists, `tcb, `yieldAsked
      ensures St() == PrioritySet(old(St()), t, p)
    {
      hide Reprioritise, RequeueReady, ResetEventValue, AddToReady, TakeOut;
      var base := tcb[t].base;
      if base != p {
        var yieldRequired := if p > base then t != current && p >= TcbIn(tcb, current).priority else t == current;
        SetBasePriority(t, p);
        RequeuedReady(St(), t);
        if base == tcb[t].priority {
          SetPriorityInUse(t, p);
        } else if tcb[t].stateIn == Ready(tcb[t].priority) {
          MoveReady(t);
        }
        if yieldRequired {
          yieldAsked := true;
        }
      }
    }

    // ----- creating and deleting

    /** prvAddNewTaskToReadyList, for a TCB that prvInitialiseNewTask has filled in. */
    method CreateTask(t: Task, priority: nat)
      requires t !in tcb && priority < MAX_PRIORITIES
      modifies `number, `top, `lists, `tcb, `yieldAsked
      ensures St() == Create(old(St()), t, priority)
    {
      hide AddToReady;
      ghost var k := St();
      var asks := TcbIn(tcb, current).priority < priority;
      tcb := tcb[t := NewTcb(priority)];
      number := number + 1;
      AddTaskToReadyList(t);
      if asks {
        yieldAsked := true;
      }
    }

    /** vTaskDelete */
    method DeleteTask(t: Task)
      requires t in tcb && number > 0
      modifies `lists, `tcb, `events, `cleanup, `number, `nextUnblock, `yieldAsked
      ensures St() == Delete(old(St()), t)
    {
      hide TakeOut, DropEvent, ResetNextUnblock, InsertEnd, PutEnd;
      Unlink(t);
      if t == current {
        InsertStateItemEnd(t, Terminated);
        cleanup := cleanup + 1;
        yieldAsked := true;
      } else {
        number := number - 1;
        tcb := tcb - {t};
        ResetNextTaskUnblockTime();
      }
    }

    method FreeOne()
      requires Inv(St()) && At(lists, Terminated).items != [] && cleanup > 0 && number > 0
      requires At(lists, Terminated).items[0] in tcb
      modifies `lists, `tcb, `cleanup, `number
      ensures St() == CleanUp(old(St())) && tcb == old(tcb) - {At(old(lists), Terminated).items[0]}
      ensures cleanup == old(cleanup) - 1
    {
      hide TakeOut, Inv;
      ghost var k := St();
      var t := At(lists, Terminated).items[0];
      KeepsKeys(k, t);
      RemoveStateItem(t);
      number := number - 1;
      cleanup := cleanup - 1;
      tcb := tcb - {t};
    }

    /** prvCheckTasksWaitingTermination, run by the idle task: it frees exactly the tasks that
        deleted themselves. */
    method CheckTasksWaitingTermination()
      requires Inv(St()) && tcb[current].stateIn != Terminated
      modifies `lists, `tcb, `cleanup, `number
      ensures Inv(St()) && cleanup == 0
      ensures forall t :: t in tcb <==> t in old(tcb) && old(tcb)[t].stateIn != Terminated
      ensures forall t :: t in tcb ==> tcb[t] == old(tcb)[t]
    {
      hide Inv, CleanUp, TakeOut;
      CurrentLive(St());
      while cleanup > 0
        invariant Inv(St()) && current in tcb && tcb[current].stateIn != Terminated
        invariant forall t :: t in tcb ==> t in old(tcb) && tcb[t] == old(tcb)[t]
        invariant forall t :: t in old(tcb) && old(tcb)[t].stateIn != Terminated ==> t in tcb
        decreases cleanup
      {
        CleanUpRound(St());
        FreeOne();
      }
      NoneTerminated(St());
    }
  }
}
