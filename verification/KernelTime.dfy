/** Ticks, sleeping and waking, against the unbounded tick count. */
module KernelTime {
  import opened Words
  import opened Lists
  import opened Kernel
  import opened KernelInvariants

  // ----- waking several tasks

  ghost predicate AllBlocked(tcb: Tcbs, ts: seq<Task>) {
    forall t :: t in ts ==> t in tcb && Blocking(tcb[t].stateIn)
  }

  ghost predicate Woken(b: Tcb, b': Tcb) {
    b' == b.(stateIn := Ready(b.priority), eventIn := NoEvent)
  }

  lemma {:induction false} MakeAllReadyEffect(k: State, ts: seq<Task>)
    requires NoDup(ts) && AllBlocked(k.tcb, ts)
    ensures var k' := MakeAllReady(k, ts);
            && k'.tcb.Keys == k.tcb.Keys
            && (forall t :: t in ts ==> Woken(k.tcb[t], k'.tcb[t]))
            && (forall t :: t in k.tcb && t !in ts ==> k'.tcb[t] == k.tcb[t])
            && k' == k.(tcb := k'.tcb, lists := k'.lists, events := k'.events, top := k'.top)
    decreases ts
  {
    if ts != [] {
      MakeReadyEffect(k, ts[0]);
      assert forall i :: 1 <= i < |ts| ==> ts[i] != ts[0];
      MakeAllReadyEffect(MakeReady(k, ts[0]), ts[1..]);
    }
  }

  lemma {:induction false} MakeAllReadyCore(k: State, ts: seq<Task>)
    requires Core(k) && NoDup(ts) && AllBlocked(k.tcb, ts)
    ensures Core(MakeAllReady(k, ts)) && (NoneDue(k) ==> NoneDue(MakeAllReady(k, ts)))
    decreases ts
  {
    if ts != [] {
      MakeReadyCore(k, ts[0]);
      RestBlocked(k, ts);
      MakeAllReadyCore(MakeReady(k, ts[0]), ts[1..]);
    }
  }

  lemma RestBlocked(k: State, ts: seq<Task>)
    requires NoDup(ts) && AllBlocked(k.tcb, ts) && ts != []
    ensures NoDup(ts[1..]) && AllBlocked(MakeReady(k, ts[0]).tcb, ts[1..])
  {
    MakeReadyEffect(k, ts[0]);
    assert forall i :: 1 <= i < |ts| ==> ts[i] != ts[0];
  }

  // ----- one tick

  lemma WindowHead(tcb: Tcbs, s: seq<Task>, lo: int, hi: int)
    requires Window(tcb, s, lo, hi) && s != []
    ensures lo <= TcbIn(tcb, s[0]).stateValue <= hi
  {
  }

  /** The emptiness that taskSWITCH_DELAYED_LISTS asserts. */
  lemma EmptyAtSwitch(k: State)
    requires TimeOk(k) && NoneDue(k) && Wrap(k.tickCount + 1) == 0
    ensures Delayed(k) == []
  {
    if Delayed(k) != [] {
      WindowHead(k.tcb, Delayed(k), k.tickCount + 1, MAX_DELAY);
    }
  }

  lemma AdvancedTime(k: State)
    requires TimeOk(k) && NoneDue(k)
    ensures TimeOk(Advanced(k))
  {
    WrapSum(k.tickCount, 1);
    if Wrap(k.tickCount + 1) == 0 {
      EmptyAtSwitch(k);
      AdvancedIntoNextPeriod(k);
    } else {
      AdvancedWithinPeriod(k);
    }
  }

  lemma WindowWiden(tcb: Tcbs, s: seq<Task>, lo: int, hi: int, hi': int)
    requires Window(tcb, s, lo, hi) && hi <= hi'
    ensures Window(tcb, s, lo, hi')
  {
  }

  lemma AdvancedWithinPeriod(k: State)
    requires TimeOk(k) && NoneDue(k) && Wrap(k.tickCount + 1) == k.tickCount + 1
    ensures TimeOk(Advanced(k))
  {
    hide Window;
    WindowWiden(k.tcb, Overflow(k), 0, k.tickCount - 1, k.tickCount);
    assert Advanced(k) == k.(tick := k.tick + 1, tickCount := k.tickCount + 1);
  }

  lemma AdvancedIntoNextPeriod(k: State)
    requires TimeOk(k) && Delayed(k) == [] && k.tickCount == MAX_DELAY && Wrap(k.tickCount + 1) == 0
    ensures TimeOk(Advanced(k))
  {
    var k1 := k.(tick := k.tick + 1, tickCount := 0, delayedIsB := !k.delayedIsB, overflows := k.overflows + 1,
        nextUnblock := 0);
    NewPeriod(k, k1);
    ResetOk(k1);
    hide TimeOk;
    assert Advanced(k) == ResetNextUnblock(k1);
  }

  lemma NewPeriod(k: State, k1: State)
    requires TimeOk(k) && Delayed(k) == [] && k.tickCount == MAX_DELAY
    requires k1 == k.(tick := k.tick + 1, tickCount := 0, delayedIsB := !k.delayedIsB, overflows := k.overflows + 1,
             nextUnblock := 0)
    ensures TimeOk(k1)
  {
    assert Overflow(k1) == Delayed(k) && Delayed(k1) == Overflow(k);
  }

  lemma AdvancedCore(k: State)
    requires Core(k) && NoneDue(k)
    ensures Core(Advanced(k)) && AdvancedFrame(k, Advanced(k))
  {
    hide ListsOk, EventsOk, TimeOk, PrioritiesOk, BlockedOk, NoneDue, Wrap;
    AdvancedTime(k);
  }

  ghost predicate AdvancedFrame(k: State, k': State) {
    k' == k.(tick := k.tick + 1, tickCount := k'.tickCount, delayedIsB := k'.delayedIsB,
             overflows := k'.overflows, nextUnblock := k'.nextUnblock)
  }

  ghost predicate Due(k: State, t: Task) {
    t in k.tcb && k.tcb[t].stateIn == DelayedId(k) && k.tcb[t].stateValue <= k.tickCount
  }

  lemma OnDelayed(k: State, t: Task)
    requires Core(k)
    ensures t in Delayed(k) <==> t in k.tcb && k.tcb[t].stateIn == DelayedId(k)
    ensures NoDup(Delayed(k))
  {
    assert t in At(k.lists, DelayedId(k)).items <==> t in k.tcb && k.tcb[t].stateIn == DelayedId(k);
  }

  /** The values up to `v` of a sorted list are those in front of `v`'s place. */
  lemma InFront(k: State, s: seq<Task>, v: nat, t: Task)
    requires Window(k.tcb, s, 0, MAX_DELAY)
    ensures t in s[..SortedPos(StateValues(k, s), v)] <==> t in s && TcbOf(k, t).stateValue <= v
  {
    var vs := StateValues(k, s);
    var p := SortedPos(vs, v);
    assert Sorted(vs);
    hide Window, SortedPos;
    if t in s {
      var i :| 0 <= i < |s| && s[i] == t;
      assert vs[i] == TcbOf(k, t).stateValue;
      if i < p {
        assert s[..p][i] == t;
      }
    }
    if t in s[..p] {
      var j :| 0 <= j < p && s[j] == t;
      assert vs[j] <= v;
    }
  }

  lemma ExpiredAreDue(k: State)
    requires Core(k)
    ensures NoDup(Expired(k)) && AllBlocked(k.tcb, Expired(k))
    ensures forall t :: t in Expired(k) <==> Due(k, t)
  {
    DelayedWindow(k);
    hide Core, SortedPos, StateValues, Window, Delayed;
    OnDelayed(k, 0);
    forall t
      ensures t in Expired(k) <==> Due(k, t)
    {
      OnDelayed(k, t);
      InFront(k, Delayed(k), k.tickCount, t);
    }
  }

  lemma DelayedWindow(k: State)
    requires Core(k)
    ensures Window(k.tcb, Delayed(k), 0, MAX_DELAY)
  {
  }

  lemma DueReached(k: State, t: Task)
    requires Core(k) && Due(k, t)
    ensures k.nextUnblock <= k.tickCount
  {
    assert t in At(k.lists, DelayedId(k)).items;
  }

  lemma NotYetDue(k: State)
    requires Core(k) && k.tickCount < k.nextUnblock
    ensures forall t :: !Due(k, t)
    ensures NoneDue(k)
  {
    forall t | Due(k, t)
      ensures false
    {
      DueReached(k, t);
    }
  }

  lemma NoneDueAfter(k: State, k1: State)
    requires Core(k) && Core(k1) && k1.tcb.Keys == k.tcb.Keys
    requires k1.tickCount == k.tickCount && k1.delayedIsB == k.delayedIsB
    requires forall t :: Due(k, t) ==> k1.tcb[t].stateIn.Ready?
    requires forall t :: t in k.tcb && !Due(k, t) ==> k1.tcb[t] == k.tcb[t]
    ensures NoneDue(k1)
  {
    forall i | 0 <= i < |Delayed(k1)|
      ensures k1.tickCount < TcbIn(k1.tcb, Delayed(k1)[i]).stateValue
    {
      assert Delayed(k1)[i] in At(k1.lists, DelayedId(k1)).items;
    }
  }

  /** The cached unblock time is the earliest wake time on the delayed list, or the latest there is
      if the list is empty. */
  ghost predicate Earliest(k: State) {
    && (forall t :: t in Delayed(k) ==> k.nextUnblock <= TcbOf(k, t).stateValue)
    && (if Delayed(k) == [] then k.nextUnblock == MAX_DELAY
        else exists t :: t in Delayed(k) && TcbOf(k, t).stateValue == k.nextUnblock)
  }

  lemma ResetNextUnblockExact(k: State)
    requires TimeOk(k)
    ensures Earliest(ResetNextUnblock(k))
  {
    var k' := ResetNextUnblock(k);
    assert Delayed(k') == Delayed(k);
    if Delayed(k) != [] {
      assert Delayed(k)[0] in Delayed(k);
    }
  }

  lemma SameEarliest(k: State, k': State)
    requires Earliest(k) && k'.lists == k.lists && k'.tcb == k.tcb
    requires k'.delayedIsB == k.delayedIsB && k'.nextUnblock == k.nextUnblock
    ensures Earliest(k')
  {
    assert Delayed(k') == Delayed(k);
    assert forall t :: TcbOf(k', t) == TcbOf(k, t);
    hide Delayed, TcbOf;
  }

  ghost predicate WakesExactly(k: State, k': State) {
    && k'.tcb.Keys == k.tcb.Keys
    && (forall t :: Due(k, t) ==> Woken(k.tcb[t], k'.tcb[t]))
    && (forall t :: t in k.tcb && !Due(k, t) ==> k'.tcb[t] == k.tcb[t])
  }

  /** The tick wakes exactly the tasks that are due, and nobody else changes. */
  lemma WakeExpiredExact(k: State)
    requires Core(k)
    ensures var k' := WakeExpired(k);
            && Core(k') && NoneDue(k') && WakesExactly(k, k') && (k.nextUnblock <= k.tickCount ==> Earliest(k'))
            && k' == k.(tcb := k'.tcb, lists := k'.lists, events := k'.events, top := k'.top,
                nextUnblock := k'.nextUnblock)
  {
    if k.tickCount < k.nextUnblock {
      NotYetDue(k);
    } else {
      var k1 := MakeAllReady(k, Expired(k));
      WakeDue(k, k1);
    }
  }

  lemma WakeDue(k: State, k1: State)
    requires Core(k) && k1 == MakeAllReady(k, Expired(k))
    ensures Core(ResetNextUnblock(k1)) && NoneDue(ResetNextUnblock(k1)) && WakesExactly(k, k1)
    ensures Earliest(ResetNextUnblock(k1))
    ensures k1 == k.(tcb := k1.tcb, lists := k1.lists, events := k1.events, top := k1.top)
  {
    hide Core, NoneDue, MakeAllReady, Expired, ResetNextUnblock, Earliest;
    ExpiredAreDue(k);
    MakeAllReadyEffect(k, Expired(k));
    MakeAllReadyCore(k, Expired(k));
    NoneDueAfter(k, k1);
    ResetCore(k1);
  }

  lemma ResetCore(k: State)
    requires Core(k)
    ensures Core(ResetNextUnblock(k)) && (NoneDue(k) ==> NoneDue(ResetNextUnblock(k)))
    ensures Earliest(ResetNextUnblock(k))
  {
    ResetOk(k);
    ResetNextUnblockExact(k);
    hide Earliest;
  }

  // ----- the unbounded wake time

  /** The unbounded tick at which `t` is due, or -1 if it is on no delay list. */
  function WakeAt(k: State, t: Task): int {
    var b := TcbOf(k, t);
    if b.stateIn == DelayedId(k) then Periods(k.overflows) + b.stateValue
    else if b.stateIn == OverflowId(k) then Periods(k.overflows + 1) + b.stateValue
    else -1
  }

  ghost predicate Asleep(k: State, t: Task) {
    t in k.tcb && WakeAt(k, t) >= 0
  }

  /** From `k` to `k'` the clock has moved on by `n`; exactly the tasks due by then have been
      woken, and every other task, with its wake time, is as it was. */
  ghost predicate Ticked(k: State, k': State, n: nat) {
    && k'.tick == k.tick + n && k'.tcb.Keys == k.tcb.Keys
    && (forall t :: t in k.tcb ==>
          if 0 <= WakeAt(k, t) <= k'.tick then Woken(k.tcb[t], k'.tcb[t])
          else k'.tcb[t] == k.tcb[t] && WakeAt(k', t) == WakeAt(k, t))
  }

  ghost predicate Settled(k: State) {
    Core(k) && NoneDue(k)
  }

  ghost predicate TickFrame(k: State, k': State) {
    && k'.current == k.current && k'.suspended == k.suspended && k'.pended == k.pended
    && k'.number == k.number && k'.cleanup == k.cleanup && k'.yieldAsked == k.yieldAsked
  }

  lemma SleepBounds(k: State, t: Task)
    requires Settled(k) && Asleep(k, t)
    ensures k.tick < WakeAt(k, t) < k.tick + MODULUS
  {
    assert t in At(k.lists, k.tcb[t].stateIn).items;
  }

  lemma AdvancedShape(k: State)
    requires IsWord(k.tickCount)
    ensures var k' := Advanced(k);
            && k'.tick == k.tick + 1 && k'.tcb == k.tcb && k'.lists == k.lists
            && (if k.tickCount == MAX_DELAY
                then k'.tickCount == 0 && k'.overflows == k.overflows + 1 && k'.delayedIsB == !k.delayedIsB
                else k'.tickCount == k.tickCount + 1 && k'.overflows == k.overflows && k'.delayedIsB == k.delayedIsB)
  {
    WrapSum(k.tickCount, 1);
  }

  lemma AdvancedWakeAt(k: State, t: Task)
    requires Settled(k) && t in k.tcb
    ensures WakeAt(Advanced(k), t) == WakeAt(k, t)
    ensures Due(Advanced(k), t) <==> WakeAt(k, t) == k.tick + 1
  {
    AdvancedShape(k);
    if Asleep(k, t) {
      SleepBounds(k, t);
    }
    if k.tickCount == MAX_DELAY {
      EmptyAtSwitch(k);
      assert t !in At(k.lists, DelayedId(k)).items;
      assert k.tcb[t].stateIn != DelayedId(k);
    }
    assert k.tick == Periods(k.overflows) + k.tickCount;
    hide Settled, Core, ListsOk, Advanced;
  }

  lemma IncrementTicks(k: State)
    requires Settled(k)
    ensures Settled(Increment(k)) && Ticked(k, Increment(k), 1) && TickFrame(k, Increment(k))
  {
    var k1 := Advanced(k);
    var k' := Increment(k);
    AdvancedCore(k);
    WakeExpiredExact(k1);
    forall t | t in k.tcb
      ensures Due(k1, t) <==> 0 <= WakeAt(k, t) <= k'.tick
      ensures WakeAt(k1, t) == WakeAt(k, t)
    {
      AdvancedWakeAt(k, t);
      if Asleep(k, t) {
        SleepBounds(k, t);
      }
    }
    IncrementedTasks(k, k1, k');
  }

  lemma IncrementedTasks(k: State, k1: State, k': State)
    requires AdvancedFrame(k, k1) && WakesExactly(k1, k')
    requires k' == k1.(tcb := k'.tcb, lists := k'.lists, events := k'.events, top := k'.top,
             nextUnblock := k'.nextUnblock)
    requires forall t :: t in k.tcb ==> (Due(k1, t) <==> 0 <= WakeAt(k, t) <= k'.tick)
    requires forall t :: t in k.tcb ==> WakeAt(k1, t) == WakeAt(k, t)
    ensures Ticked(k, k', 1) && TickFrame(k, k')
  {
    forall t | t in k.tcb && !Due(k1, t)
      ensures k'.tcb[t] == k.tcb[t] && WakeAt(k', t) == WakeAt(k, t)
    {
      assert k'.tcb[t] == k1.tcb[t];
    }
  }

  // ----- what a tick asks for

  /** A task that is due by tick `until` has at least the running task's priority. */
  ghost predicate DueReaches(k: State, until: int) {
    exists t :: t in k.tcb && 0 <= WakeAt(k, t) <= until && Priority(k, t) >= Priority(k, k.current)
  }

  /** Two ready tasks have the running task's priority. */
  ghost predicate Contended(k: State) {
    exists t, u :: t != u && IsReady(k, t) && IsReady(k, u)
                   && Priority(k, t) == Priority(k, u) == Priority(k, k.current)
  }

  /** If the running task is ready itself: another one shares its priority. */
  lemma ContendedByOther(k: State)
    requires IsReady(k, k.current)
    ensures Contended(k) <==>
            exists t :: t != k.current && IsReady(k, t) && Priority(k, t) == Priority(k, k.current)
  {
    if Contended(k) {
      var t, u :| t != u && IsReady(k, t) && IsReady(k, u)
                  && Priority(k, t) == Priority(k, u) == Priority(k, k.current);
      assert t != k.current || u != k.current;
    }
  }

  lemma SharedIsContended(k: State)
    requires ListsOk(k.lists, k.tcb, {}) && PrioritiesOk(k.tcb, k.top)
    ensures TimeSlice(k) <==> Contended(k)
  {
    var l := Ready(Priority(k, k.current));
    var items := ListOf(k, l).items;
    if TimeSlice(k) {
      var t, u := items[0], items[1];
      assert t in At(k.lists, l).items && u in At(k.lists, l).items && NoDup(At(k.lists, l).items);
      assert IsReady(k, t) && IsReady(k, u);
    }
    if Contended(k) {
      var t, u :| t != u && IsReady(k, t) && IsReady(k, u)
                  && Priority(k, t) == Priority(k, u) == Priority(k, k.current);
      assert t in At(k.lists, l).items && u in At(k.lists, l).items;
    }
  }

  lemma ExpiredReach(k: State)
    requires Settled(k)
    ensures var k1 := Advanced(k);
            k1.tickCount >= k1.nextUnblock && AnyReaches(k1, Expired(k1), Priority(k1, k1.current))
            <==> DueReaches(k, k.tick + 1)
  {
    hide Advanced, Expired, WakeAt, ListsOk, EventsOk, TimeOk, NoneDue, PrioritiesOk, CountsOk, BlockedOk, Due;
    var k1 := Advanced(k);
    AdvancedCore(k);
    ExpiredAreDue(k1);
    assert forall t :: Priority(k1, t) == Priority(k, t);
    forall t | t in k.tcb
      ensures t in Expired(k1) <==> 0 <= WakeAt(k, t) <= k.tick + 1
      ensures t in Expired(k1) ==> k1.tickCount >= k1.nextUnblock
    {
      AdvancedWakeAt(k, t);
      if 0 <= WakeAt(k, t) {
        SleepBounds(k, t);
      }
      if Due(k1, t) {
        DueReached(k1, t);
      }
    }
    DueLive(k1);
    if DueReaches(k, k.tick + 1) {
      var t :| t in k.tcb && 0 <= WakeAt(k, t) <= k.tick + 1 && Priority(k, t) >= Priority(k, k.current);
      assert t in Expired(k1);
    }
  }

  lemma DueLive(k: State)
    ensures forall t :: Due(k, t) ==> t in k.tcb
  {
  }

  /** A tick asks for a switch exactly if one was pending, or a task that is due with it has at
      least the running task's priority, or two ready tasks now have that priority. */
  lemma IncrementAsks(k: State)
    requires Settled(k)
    ensures IncrementSwitches(k) <==> k.yieldPending || DueReaches(k, k.tick + 1) || Contended(Increment(k))
  {
    hide Increment, DueReaches, Contended, Expired, AnyReaches, TimeSlice, ListsOk, PrioritiesOk;
    ExpiredReach(k);
    IncrementTicks(k);
    PlacedOf(Increment(k));
    SharedIsContended(Increment(k));
  }

  lemma PlacedOf(k: State)
    requires Settled(k)
    ensures ListsOk(k.lists, k.tcb, {}) && PrioritiesOk(k.tcb, k.top)
  {
  }

  lemma TickedTwice(k: State, k1: State, k2: State, m: nat, n: nat)
    requires Ticked(k, k1, m) && Ticked(k1, k2, n)
    ensures Ticked(k, k2, m + n)
  {
    forall t | t in k.tcb
      ensures if 0 <= WakeAt(k, t) <= k2.tick then Woken(k.tcb[t], k2.tcb[t])
              else k2.tcb[t] == k.tcb[t] && WakeAt(k2, t) == WakeAt(k, t)
    {
      if 0 <= WakeAt(k, t) <= k1.tick {
        assert WakeAt(k1, t) == -1;
      }
    }
  }

  /** The flags of a context switch change nothing else. */
  lemma FlagsFrame(k: State, k': State)
    requires Settled(k) && k' == k.(yieldPending := k'.yieldPending, yieldAsked := k'.yieldAsked)
    ensures Settled(k') && Ticked(k, k', 0)
  {
    forall t | Asleep(k, t)
      ensures WakeAt(k, t) > k.tick
    {
      SleepBounds(k, t);
    }
  }

  /** The pended ticks of xTaskResumeAll are that many ticks. */
  lemma {:induction false} CatchUpTicks(k: State, n: nat)
    requires Settled(k)
    ensures Settled(CatchUp(k, n)) && Ticked(k, CatchUp(k, n), n) && TickFrame(k, CatchUp(k, n))
    decreases n
  {
    hide Settled, Ticked, WakeAt;
    if n == 0 {
      FlagsFrame(k, k);
    } else {
      CatchUpOne(k);
      var k1 := Pend(Increment(k), IncrementSwitches(k));
      hide Increment, IncrementSwitches;
      CatchUpTicks(k1, n - 1);
      TickedTwice(k, k1, CatchUp(k1, n - 1), 1, n - 1);
      assert CatchUp(k, n) == CatchUp(k1, n - 1);
    }
  }

  lemma CatchUpOne(k: State)
    requires Settled(k)
    ensures var k1 := Pend(Increment(k), IncrementSwitches(k));
            Settled(k1) && Ticked(k, k1, 1) && TickFrame(k, k1)
  {
    hide Settled, Ticked, WakeAt;
    IncrementTicks(k);
    hide Increment, IncrementSwitches;
    var k' := Increment(k);
    var k1 := Pend(k', IncrementSwitches(k));
    FlagsFrame(k', k1);
    TickedTwice(k, k', k1, 1, 0);
  }

  /** Waking tasks leaves both requests as they are. */
  lemma {:induction false} WakingFlags(k: State, ts: seq<Task>)
    ensures var k' := MakeAllReady(k, ts);
            k'.yieldPending == k.yieldPending && k'.yieldAsked == k.yieldAsked && k'.current == k.current
    decreases ts
  {
    if ts != [] {
      WakingFlagsOne(k, ts[0]);
      hide MakeReady;
      WakingFlags(MakeReady(k, ts[0]), ts[1..]);
    }
  }

  lemma WakingFlagsOne(k: State, t: Task)
    ensures var k' := MakeReady(k, t);
            k'.yieldPending == k.yieldPending && k'.yieldAsked == k.yieldAsked && k'.current == k.current
  {
    hide Drop, InsertEnd, At;
  }

  lemma IncrementFlags(k: State)
    ensures var k' := Increment(k);
            k'.yieldPending == k.yieldPending && k'.yieldAsked == k.yieldAsked && k'.current == k.current
  {
    var k1 := Advanced(k);
    WakingFlags(k1, Expired(k1));
    hide MakeAllReady, Expired, Delayed;
  }

  /** Once two ready tasks share the priority, ticks leave it so. */
  lemma StaysContended(k: State, k': State, n: nat)
    requires Settled(k) && Ticked(k, k', n) && k'.current == k.current && Contended(k)
    ensures Contended(k')
  {
    hide Settled, WakeAt;
    var t, u :| t != u && IsReady(k, t) && IsReady(k, u)
                && Priority(k, t) == Priority(k, u) == Priority(k, k.current);
    TickedPriority(k, k', n, k.current);
    TickedPriority(k, k', n, t);
    TickedPriority(k, k', n, u);
    assert IsReady(k', t) && IsReady(k', u);
  }

  lemma TickedPriority(k: State, k': State, n: nat, t: Task)
    requires Ticked(k, k', n)
    ensures Priority(k', t) == Priority(k, t) && (IsReady(k, t) ==> IsReady(k', t))
  {
    hide WakeAt;
  }

  /** What is due by a later tick is due now or after this tick. */
  lemma DueInTwo(k: State, k1: State, until: int)
    requires Settled(k) && Ticked(k, k1, 1) && k1.current == k.current && until > k.tick
    ensures DueReaches(k, until) <==> DueReaches(k, k.tick + 1) || DueReaches(k1, until)
  {
    hide Settled;
    forall t | t in k.tcb
      ensures Priority(k1, t) == Priority(k, t)
      ensures WakeAt(k1, t) == if 0 <= WakeAt(k, t) <= k.tick + 1 then -1 else WakeAt(k, t)
    {
      TickedPriority(k, k1, 1, t);
    }
    TickedPriority(k, k1, 1, k.current);
    hide WakeAt, Ticked, Priority;
    if DueReaches(k, until) {
      var t :| t in k.tcb && 0 <= WakeAt(k, t) <= until && Priority(k, t) >= Priority(k, k.current);
      assert WakeAt(k, t) <= k.tick + 1 || WakeAt(k1, t) == WakeAt(k, t);
    }
  }

  lemma NothingDueNow(k: State)
    requires Settled(k)
    ensures !DueReaches(k, k.tick)
  {
    forall t | t in k.tcb && 0 <= WakeAt(k, t)
      ensures WakeAt(k, t) > k.tick
    {
      SleepBounds(k, t);
    }
  }

  /** What the pended ticks ask for together. */
  lemma {:induction false} CatchUpAsks(k: State, n: nat)
    requires Settled(k)
    ensures var k' := CatchUp(k, n);
            && (k'.yieldPending <==> k.yieldPending || DueReaches(k, k.tick + n) || (n > 0 && Contended(k')))
    decreases n
  {
    hide Settled, Ticked, DueReaches, Contended, Increment, IncrementSwitches, WakeAt;
    if n == 0 {
      NothingDueNow(k);
    } else {
      var k1 := Pend(Increment(k), IncrementSwitches(k));
      CatchUpOne(k);
      CatchUpOneAsks(k);
      CatchUpAsks(k1, n - 1);
      CatchUpTicks(k1, n - 1);
      assert CatchUp(k, n) == CatchUp(k1, n - 1);
      DueInTwo(k, k1, k.tick + n);
      if Contended(k1) {
        StaysContended(k1, CatchUp(k, n), n - 1);
      }
    }
  }

  lemma CatchUpOneAsks(k: State)
    requires Settled(k)
    ensures var k1 := Pend(Increment(k), IncrementSwitches(k));
            && k1.tick == k.tick + 1
            && (k1.yieldPending <==> k.yieldPending || DueReaches(k, k.tick + 1) || Contended(k1))
  {
    hide DueReaches, Increment, IncrementSwitches;
    IncrementTicks(k);
    IncrementFlags(k);
    IncrementAsks(k);
    hide Settled, Ticked;
    var k1 := Pend(Increment(k), IncrementSwitches(k));
    assert forall t :: IsReady(k1, t) == IsReady(Increment(k), t);
    assert forall t :: Priority(k1, t) == Priority(Increment(k), t);
  }

  // ----- falling asleep

  lemma DelayEffect(k: State, ticks: nat, canBlock: bool)
    ensures var k' := DelayCurrent(k, ticks, canBlock);
            && k'.tcb == k.tcb[k.current := Slept(k, ticks, canBlock)]
            && k' == k.(tcb := k'.tcb, lists := k'.lists, nextUnblock := k'.nextUnblock)
  {
    hide ListOf, Drop, StateValues, SortedPos, InsertAt, Wrap;
  }

  /** A finite delay of `ticks` begun now ends at tick + ticks, whether or not the wrapped
      count overflows on the way. */
  lemma DelayWakeAt(k: State, ticks: nat, canBlock: bool)
    requires TimeOk(k) && 1 <= ticks < MODULUS && !(ticks == MAX_DELAY && canBlock)
    ensures WakeAt(DelayCurrent(k, ticks, canBlock), k.current) == k.tick + ticks
  {
    DelayEffect(k, ticks, canBlock);
    hide DelayCurrent, Window;
    WrapSum(k.tickCount, ticks);
  }
}
