/** Priority inversion is bounded: no mutex holder is outranked by a task waiting for its mutex. */
module MutexInversion {
  import opened Words
  import opened Lists
  import opened Kernel
  import opened KernelInvariants
  import opened KernelTime
  import opened KernelOps
  import opened KernelRuns
  import opened Mutexes

  // ----- the invariants

  /** The item value follows the priority unless it is borrowed; a holder waits for nothing. */
  predicate FitOk(b: Tcb) {
    (InUse(b.eventValue) || b.eventValue + b.priority == MAX_PRIORITIES) && (b.mutexesHeld > 0 ==> b.eventIn == NoEvent)
  }

  ghost predicate Fit(tcb: Tcbs) {
    forall t :: t in tcb ==> FitOk(tcb[t])
  }

  /** No holder is outranked by a task waiting for its mutex. */
  ghost predicate Bound(tcb: Tcbs, mutexes: map<nat, Mutex>) {
    forall id, w :: id in mutexes && mutexes[id].holder.Held? && WaitsFor(tcb, w, id) ==>
      tcb[w].priority <= TcbIn(tcb, mutexes[id].holder.task).priority
  }

  /** Woken, or about to be when the scheduler is resumed. */
  predicate Way(b: Tcb) {
    b.eventIn == Pending || (b.stateIn.Ready? && b.eventIn == NoEvent)
  }

  predicate OnItsWay(tcb: Tcbs, t: Task) {
    t in tcb && Way(tcb[t])
  }

  ghost predicate Outranks(tcb: Tcbs, t: Task, id: nat) {
    t in tcb && forall w :: WaitsFor(tcb, w, id) ==> tcb[w].priority <= tcb[t].priority
  }

  ghost predicate Coming(tcb: Tcbs, retry: map<Task, nat>, id: nat, t: Task) {
    t in retry && retry[t] == id && Outranks(tcb, t, id)
  }

  ghost predicate OnTheirWay(tcb: Tcbs, retry: map<Task, nat>) {
    forall t :: t in retry ==> OnItsWay(tcb, t) && tcb[t].mutexesHeld == 0
  }

  /** While a free mutex has waiters, one that outranks them all is on its way to take it. */
  ghost predicate Retrying(tcb: Tcbs, mutexes: map<nat, Mutex>, retry: map<Task, nat>) {
    && OnTheirWay(tcb, retry)
    && (forall id, w :: id in mutexes && mutexes[id].holder == Nobody && WaitsFor(tcb, w, id) ==>
          exists t :: Coming(tcb, retry, id, t))
  }

  ghost predicate Linked(tcb: Tcbs, mutexes: map<nat, Mutex>, retry: map<Task, nat>) {
    Fit(tcb) && Bound(tcb, mutexes) && Retrying(tcb, mutexes, retry)
  }

  /** The waiting lists of mutexes are in order of priority. */
  ghost predicate Ordered(events: EventLists, tcb: Tcbs, ids: set<nat>) {
    forall id: nat, i, j :: id in ids && 0 <= i < j < |At(events, Waiters(id)).items| ==>
      TcbIn(tcb, At(events, Waiters(id)).items[i]).priority >= TcbIn(tcb, At(events, Waiters(id)).items[j]).priority
  }

  ghost predicate SysInv(s: System) {
    && CallsInv(s) && Ranked(s.k.tcb)
    && Ordered(s.k.events, s.k.tcb, s.mutexes.Keys) && Linked(s.k.tcb, s.mutexes, s.retry)
  }

  // ----- changes that no mutex depends on

  /** The task stays as it is or stops waiting. */
  predicate EasedTcb(b: Tcb, b': Tcb) {
    && SameRank(b, b') && (FitOk(b) ==> FitOk(b')) && (Way(b) ==> Way(b'))
    && (b'.eventIn == b.eventIn || b'.eventIn == NoEvent || (b'.eventIn == Pending && b.eventIn != NoEvent))
  }

  ghost predicate Eased(tcb: Tcbs, tcb': Tcbs) {
    tcb'.Keys == tcb.Keys && forall t :: t in tcb ==> EasedTcb(tcb[t], tcb'[t])
  }

  lemma ComingStays(tcb: Tcbs, tcb': Tcbs, retry: map<Task, nat>, id: nat, t: Task)
    requires Eased(tcb, tcb') && Coming(tcb, retry, id, t)
    ensures Coming(tcb', retry, id, t)
  {
    hide FitOk, Way;
    forall w | WaitsFor(tcb', w, id)
      ensures tcb'[w].priority <= tcb'[t].priority
    {
      assert WaitsFor(tcb, w, id);
    }
  }

  lemma EasedKeeps(tcb: Tcbs, tcb': Tcbs, mutexes: map<nat, Mutex>, retry: map<Task, nat>)
    requires Eased(tcb, tcb') && Linked(tcb, mutexes, retry)
    ensures Linked(tcb', mutexes, retry)
  {
    hide FitOk, Way;
    forall id, w | id in mutexes && WaitsFor(tcb', w, id)
      ensures WaitsFor(tcb, w, id)
      ensures mutexes[id].holder.Held? ==> tcb'[w].priority <= TcbIn(tcb', mutexes[id].holder.task).priority
      ensures mutexes[id].holder == Nobody ==> exists t :: Coming(tcb', retry, id, t)
    {
      assert EasedTcb(tcb[w], tcb'[w]);
      assert WaitsFor(tcb, w, id);
      if mutexes[id].holder == Nobody {
        var t :| Coming(tcb, retry, id, t);
        ComingStays(tcb, tcb', retry, id, t);
      }
    }
  }

  // ----- waiting lists stay in order

  ghost predicate InOrder(tcb: Tcbs, s: seq<Task>) {
    forall i, j :: 0 <= i < j < |s| ==> TcbIn(tcb, s[i]).priority >= TcbIn(tcb, s[j]).priority
  }

  lemma DropOrder(tcb: Tcbs, r: TaskList, t: Task)
    requires InOrder(tcb, r.items)
    ensures InOrder(tcb, Drop(r, t).items)
  {
    if t in r.items {
      var i := IndexOf(r.items, t);
      var s := Drop(r, t).items;
      assert forall j :: 0 <= j < |s| ==> s[j] == r.items[if j < i then j else j + 1];
    }
  }

  ghost predicate SamePriority(tcb: Tcbs, tcb': Tcbs) {
    forall t :: TcbIn(tcb', t).priority == TcbIn(tcb, t).priority
  }

  lemma OrderedFrame(events: EventLists, tcb: Tcbs, tcb': Tcbs, ids: set<nat>)
    requires Ordered(events, tcb, ids) && SamePriority(tcb, tcb')
    ensures Ordered(events, tcb', ids)
  {
  }

  lemma OrderedUpdate(events: EventLists, tcb: Tcbs, e: EventList, r: TaskList, ids: set<nat>)
    requires Ordered(events, tcb, ids) && InOrder(tcb, r.items)
    ensures Ordered(events[e := r], tcb, ids)
  {
    AtUpdate(events, e, r);
    hide At;
  }

  lemma OrderOf(events: EventLists, tcb: Tcbs, id: nat, ids: set<nat>)
    requires Ordered(events, tcb, ids) && id in ids
    ensures InOrder(tcb, At(events, Waiters(id)).items)
  {
  }

  lemma OffMutexes(events: EventLists, tcb: Tcbs, e: EventList, r: TaskList, ids: set<nat>)
    requires Ordered(events, tcb, ids) && (e.Waiters? ==> e.id !in ids)
    ensures Ordered(events[e := r], tcb, ids)
  {
    AtUpdate(events, e, r);
    hide At;
  }

  lemma DropEventOrdered(events: EventLists, tcb: Tcbs, e: EventList, t: Task, ids: set<nat>)
    requires Ordered(events, tcb, ids)
    ensures Ordered(events[e := Drop(At(events, e), t)], tcb, ids)
  {
    hide Ordered, Drop, At, InOrder;
    if e.Waiters? && e.id in ids {
      OrderOf(events, tcb, e.id, ids);
      DropOrder(tcb, At(events, e), t);
      OrderedUpdate(events, tcb, e, Drop(At(events, e), t), ids);
    } else {
      OffMutexes(events, tcb, e, Drop(At(events, e), t), ids);
    }
  }

  lemma MakeReadyOrdered(k: State, t: Task, ids: set<nat>)
    requires Ordered(k.events, k.tcb, ids) && t in k.tcb
    ensures Ordered(MakeReady(k, t).events, MakeReady(k, t).tcb, ids)
  {
    hide Ordered, Drop, At, MakeReady, Requeue;
    var b := k.tcb[t];
    MakeReadyIs(k, t);
    MakeReadyEffect(k, t);
    RequeueEffect(RaiseTop(k, b.priority), t, Ready(b.priority));
    DropEventOrdered(k.events, k.tcb, b.eventIn, t, ids);
    OrderedFrame(MakeReady(k, t).events, k.tcb, MakeReady(k, t).tcb, ids);
  }

  lemma {:induction false} MakeAllReadyOrdered(k: State, ts: seq<Task>, ids: set<nat>)
    requires Ordered(k.events, k.tcb, ids) && forall t :: t in ts ==> t in k.tcb
    ensures Ordered(MakeAllReady(k, ts).events, MakeAllReady(k, ts).tcb, ids)
    decreases ts
  {
    hide Ordered, MakeReady;
    if ts != [] {
      MakeReadyOrdered(k, ts[0], ids);
      MakeReadyEffect(k, ts[0]);
      MakeAllReadyOrdered(MakeReady(k, ts[0]), ts[1..], ids);
    }
  }

  lemma IncrementOrdered(k: State, ids: set<nat>)
    requires Settled(k) && Ordered(k.events, k.tcb, ids)
    ensures Ordered(Increment(k).events, Increment(k).tcb, ids)
  {
    hide Ordered, MakeAllReady, Core, NoneDue, Expired;
    AdvancedCore(k);
    var k1 := Advanced(k);
    ExpiredAreDue(k1);
    MakeAllReadyOrdered(k1, Expired(k1), ids);
  }

  lemma {:induction false} CatchUpOrdered(k: State, n: nat, ids: set<nat>)
    requires Settled(k) && Ordered(k.events, k.tcb, ids)
    ensures Ordered(CatchUp(k, n).events, CatchUp(k, n).tcb, ids)
    decreases n
  {
    hide Settled, Ordered, Increment, IncrementSwitches, Ticked, TickFrame;
    if n > 0 {
      IncrementOrdered(k, ids);
      CatchUpOne(k);
      CatchUpOrdered(Pend(Increment(k), IncrementSwitches(k)), n - 1, ids);
    }
  }

  lemma DrainPendingOrdered(k: State, ids: set<nat>)
    requires Settled(k) && Ordered(k.events, k.tcb, ids)
    ensures Ordered(DrainPending(k).events, DrainPending(k).tcb, ids)
  {
    hide Settled, Ordered, MakeAllReady, AnyReaches, NoDup;
    var ts := EventsOf(k, Pending).items;
    PendingTasks(k);
    MakeAllReadyOrdered(k, ts, ids);
  }

  lemma ResumeOrdered(k: State, ids: set<nat>)
    requires Inv(k) && k.suspended > 0 && Ordered(k.events, k.tcb, ids)
    ensures Ordered(ResumeAll(k).events, ResumeAll(k).tcb, ids)
  {
    hide Inv, Settled, Ordered, DrainPending, CatchUp, Drained, TickFrame, EventsOf;
    if k.suspended == 1 {
      var k0 := k.(suspended := 0);
      ResumeSettled(k);
      DrainPendingExact(k0);
      DrainPendingOrdered(k0, ids);
      CatchUpOrdered(DrainPending(k0), k.pended, ids);
    }
  }

  // ----- kernel actions between the calls on mutexes

  /** What `EasedKeeps` and the order lemmas need of a kernel step. */
  ghost predicate Quiet(k: State, k': State, ids: set<nat>) {
    Eased(k.tcb, k'.tcb) && Ordered(k'.events, k'.tcb, ids)
  }

  lemma TickedEased(k: State, k': State, n: nat)
    requires Ticked(k, k', n)
    ensures Eased(k.tcb, k'.tcb)
  {
    hide WakeAt, InUse;
  }

  lemma DrainedEased(k: State, k': State)
    requires Drained(k, k')
    ensures Eased(k.tcb, k'.tcb)
  {
    hide WakeAt, InUse;
  }

  lemma EasedTwice(a: Tcbs, b: Tcbs, c: Tcbs)
    requires Eased(a, b) && Eased(b, c)
    ensures Eased(a, c)
  {
    hide FitOk, Way;
  }

  lemma EasedSelf(tcb: Tcbs)
    ensures Eased(tcb, tcb)
  {
    hide FitOk, Way;
  }

  lemma EasedOne(tcb: Tcbs, t: Task, b: Tcb)
    requires t in tcb && EasedTcb(tcb[t], b)
    ensures Eased(tcb, tcb[t := b])
  {
    hide FitOk, Way;
  }

  lemma TickQuiet(k: State, ids: set<nat>)
    requires Inv(k) && Ordered(k.events, k.tcb, ids)
    ensures Quiet(k, SysTick(k), ids)
  {
    hide Ordered, Increment, Ticked, Core, NoneDue, Eased;
    if k.suspended == 0 {
      IncrementSettled(k);
      TickedEased(k, Increment(k), 1);
      IncrementOrdered(k, ids);
    } else {
      EasedSelf(k.tcb);
    }
  }

  lemma ResumeQuiet(k: State, ids: set<nat>)
    requires Inv(k) && k.suspended > 0 && Ordered(k.events, k.tcb, ids)
    ensures Quiet(k, ResumeAll(k), ids)
  {
    hide Inv, Ordered, Ticked, Drained, Eased, CatchUp, DrainPending;
    ResumeOrdered(k, ids);
    if k.suspended == 1 {
      var k1 := DrainPending(k.(suspended := 0));
      ResumeAllExact(k);
      DrainedEased(k.(suspended := 0), k1);
      TickedEased(k1, ResumeAll(k), k.pended);
      EasedTwice(k.tcb, k1.tcb, ResumeAll(k).tcb);
    } else {
      EasedSelf(k.tcb);
    }
  }

  lemma MakeReadyQuiet(k: State, t: Task, ids: set<nat>)
    requires t in k.tcb && Ordered(k.events, k.tcb, ids)
    ensures Quiet(k, MakeReady(k, t), ids)
  {
    hide Ordered, MakeReady, Eased, InUse;
    MakeReadyOrdered(k, t, ids);
    MakeReadyEffect(k, t);
    EasedOne(k.tcb, t, k.tcb[t].(stateIn := Ready(k.tcb[t].priority), eventIn := NoEvent));
  }

  lemma ToPendingQuiet(k: State, t: Task, ids: set<nat>)
    requires EventsOk(k.events, k.tcb) && Ordered(k.events, k.tcb, ids) && t in k.tcb && k.tcb[t].eventIn != NoEvent
    ensures Quiet(k, PutEventEnd(DropEvent(k, t), t, Pending), ids)
  {
    var k1 := DropEvent(k, t);
    var k' := PutEventEnd(k1, t, Pending);
    var b := k.tcb[t].(eventIn := Pending);
    hide Ordered, Drop, At, Eased, EventsOk, InsertEnd, InUse;
    DropEventOrdered(k.events, k.tcb, k.tcb[t].eventIn, t, ids);
    OffMutexes(k1.events, k.tcb, Pending, InsertEnd(At(k1.events, Pending), t), ids);
    EasedOne(k.tcb, t, b);
    ToPendingPlaced(k, t);
    OrderedFrame(k'.events, k.tcb, k'.tcb, ids);
  }

  lemma WakeQuiet(k: State, id: nat, ids: set<nat>)
    requires Inv(k) && Ordered(k.events, k.tcb, ids) && WaitersOf(k, id) != []
    ensures Quiet(k, RemoveFromEventList(k, id), ids)
  {
    hide Inv, Ordered, Eased, MakeReady, DropEvent, PutEventEnd, EventsOf;
    var t := WaitersOf(k, id)[0];
    WaitingHead(k, id);
    MakeReadyQuiet(k, t, ids);
    ToPendingQuiet(k, t, ids);
  }

  lemma AbortQuiet(k: State, t: Task, ids: set<nat>)
    requires t in k.tcb && Ordered(k.events, k.tcb, ids)
    ensures Quiet(k, AbortDelay(k, t), ids)
  {
    hide Ordered, MakeReady, Eased, InUse;
    var b := k.tcb[t].(delayAborted := k.tcb[t].delayAborted || k.tcb[t].eventIn != NoEvent);
    var k1 := SetTcb(k, t, b);
    OrderedFrame(k.events, k.tcb, k1.tcb, ids);
    EasedOne(k.tcb, t, b);
    EasedSelf(k.tcb);
    MakeReadyQuiet(k1, t, ids);
    EasedTwice(k.tcb, k1.tcb, MakeReady(k1, t).tcb);
  }


  lemma WakeUnorderedQuiet(k: State, t: Task, v: nat, ids: set<nat>)
    requires t in k.tcb && Ordered(k.events, k.tcb, ids)
    ensures Quiet(k, RemoveFromUnordered(k, t, v), ids)
  {
    hide Ordered, MakeReady, Eased, InUse, MarkInUse;
    var b := k.tcb[t].(eventValue := MarkInUse(v));
    var k1 := SetTcb(k, t, b);
    MarkedInUse(v);
    OrderedFrame(k.events, k.tcb, k1.tcb, ids);
    EasedOne(k.tcb, t, b);
    MakeReadyQuiet(k1, t, ids);
    EasedTwice(k.tcb, k1.tcb, MakeReady(k1, t).tcb);
  }

  lemma ReadQuiet(k: State, ids: set<nat>)
    requires Inv(k) && Ordered(k.events, k.tcb, ids)
    ensures Quiet(k, ResetItem(k), ids)
  {
    hide Inv, Ordered, Eased, InUse;
    var c := k.current;
    CurrentLive(k);
    PriorityBounds(k, c);
    var b := k.tcb[c].(eventValue := MAX_PRIORITIES - Min(Priority(k, c), MAX_PRIORITIES));
    EasedOne(k.tcb, c, b);
    OrderedFrame(k.events, k.tcb, k.tcb[c := b], ids);
  }

  lemma StillQuiet(k: State, k': State, ids: set<nat>)
    requires Ordered(k.events, k.tcb, ids) && k'.tcb == k.tcb && k'.events == k.events
    ensures Quiet(k, k', ids)
  {
    hide FitOk, Way;
  }

  lemma SwitchQuiet(k: State, ids: set<nat>)
    requires Inv(k) && Ordered(k.events, k.tcb, ids)
    ensures Quiet(k, SuspendAll(k), ids)
    ensures SomeReady(k) ==> Quiet(k, Step(k, Switch), ids)
  {
    hide Inv, Ordered, Quiet, SomeReady, HighestReady, ListOf, Advance, Selected;
    StillQuiet(k, SuspendAll(k), ids);
    if SomeReady(k) {
      SwitchContextInv(k);
      StillQuiet(k, Step(k, Switch), ids);
    }
  }

  lemma ContinueQuiet(k: State, t: Task, ids: set<nat>)
    requires t in k.tcb && Ordered(k.events, k.tcb, ids)
    ensures Quiet(k, Resume(k, t), ids)
  {
    hide Ordered, MakeReady, Eased;
    EasedSelf(k.tcb);
    MakeReadyQuiet(k, t, ids);
  }

  // ----- a task that is not on its way to a mutex

  /** It falls asleep, is suspended or deletes itself; if it then waits for a mutex, the holder
      is not below it. */
  lemma SleepKeeps(tcb: Tcbs, tcb': Tcbs, mutexes: map<nat, Mutex>, retry: map<Task, nat>, c: Task)
    requires Linked(tcb, mutexes, retry)
    requires c in tcb && c in tcb' && c !in retry && tcb' == tcb[c := tcb'[c]] && SameRank(tcb[c], tcb'[c])
             && FitOk(tcb'[c])
    requires tcb'[c].eventIn.Waiters? ==>
               var id := tcb'[c].eventIn.id;
               id in mutexes ==>
                 mutexes[id].holder.Held? && tcb[c].priority <= TcbIn(tcb, mutexes[id].holder.task).priority
    ensures Linked(tcb', mutexes, retry)
  {
    hide InUse;
    forall id, w | id in mutexes && WaitsFor(tcb', w, id)
      ensures mutexes[id].holder.Held? ==> tcb'[w].priority <= TcbIn(tcb', mutexes[id].holder.task).priority
      ensures mutexes[id].holder == Nobody ==> exists t :: Coming(tcb', retry, id, t)
    {
      if mutexes[id].holder == Nobody {
        assert WaitsFor(tcb, w, id);
        var t :| Coming(tcb, retry, id, t);
        assert forall x :: WaitsFor(tcb', x, id) ==> WaitsFor(tcb, x, id);
        assert Coming(tcb', retry, id, t);
      } else if w != c {
        assert WaitsFor(tcb, w, id);
      }
    }
  }

  lemma NewKeeps(tcb: Tcbs, mutexes: map<nat, Mutex>, retry: map<Task, nat>, t: Task, p: nat)
    requires Accounted(tcb, mutexes) && Linked(tcb, mutexes, retry) && t !in tcb && p < MAX_PRIORITIES
    ensures Linked(tcb[t := NewTcb(p)], mutexes, retry)
  {
    hide InUse, CountOk;
    var tcb' := tcb[t := NewTcb(p)];
    assert forall id, w :: WaitsFor(tcb', w, id) ==> WaitsFor(tcb, w, id);
    forall id, x | Coming(tcb, retry, id, x)
      ensures Coming(tcb', retry, id, x)
    {
    }
    forall id, w | id in mutexes && mutexes[id].holder == Nobody && WaitsFor(tcb', w, id)
      ensures exists x :: Coming(tcb', retry, id, x)
    {
      assert WaitsFor(tcb, w, id);
      var x :| Coming(tcb, retry, id, x);
    }
  }

  lemma ForgetKeeps(tcb: Tcbs, mutexes: map<nat, Mutex>, retry: map<Task, nat>, t: Task)
    requires Accounted(tcb, mutexes) && Linked(tcb, mutexes, retry) && t in tcb && t !in retry
             && tcb[t].mutexesHeld == 0
    ensures Linked(tcb - {t}, mutexes, retry)
  {
    hide InUse, ValueOk;
    var tcb' := tcb - {t};
    assert forall id, w :: WaitsFor(tcb', w, id) ==> WaitsFor(tcb, w, id);
    forall id | id in mutexes && mutexes[id].holder.Held?
      ensures mutexes[id].holder.task != t
    {
      HolderHolds(mutexes, mutexes[id].holder.task, id);
    }
    forall id, x | Coming(tcb, retry, id, x)
      ensures Coming(tcb', retry, id, x)
    {
    }
    forall id, w | id in mutexes && mutexes[id].holder == Nobody && WaitsFor(tcb', w, id)
      ensures exists x :: Coming(tcb', retry, id, x)
    {
      assert WaitsFor(tcb, w, id);
      var x :| Coming(tcb, retry, id, x);
    }
  }

  lemma RankFrame(events: EventLists, tcb: Tcbs, t: Task, b: Tcb, ids: set<nat>)
    requires Ordered(events, tcb, ids) && t in tcb && b.priority == tcb[t].priority
    ensures Ordered(events, tcb[t := b], ids)
  {
    hide Ordered;
    OrderedFrame(events, tcb, tcb[t := b], ids);
  }

  /** Tasks on no list of a mutex do not matter to the order. */
  lemma OrderedOff(events: EventLists, tcb: Tcbs, tcb': Tcbs, t: Task, ids: set<nat>)
    requires Ordered(events, tcb, ids) && forall x :: x != t ==> TcbIn(tcb', x) == TcbIn(tcb, x)
    requires forall id: nat :: id in ids ==> t !in At(events, Waiters(id)).items
    ensures Ordered(events, tcb', ids)
  {
    forall id: nat, i, j | id in ids && 0 <= i < j < |At(events, Waiters(id)).items|
      ensures TcbIn(tcb', At(events, Waiters(id)).items[i]).priority
              >= TcbIn(tcb', At(events, Waiters(id)).items[j]).priority
    {
      var s := At(events, Waiters(id)).items;
      assert s[i] in s && s[j] in s;
    }
  }

  lemma Unlisted(k: State, t: Task)
    requires Inv(k) && (t in k.tcb ==> k.tcb[t].eventIn == NoEvent)
    ensures forall id: nat :: t !in At(k.events, Waiters(id)).items
  {
  }

  lemma SleepOrdered(k: State, ticks: nat, ids: set<nat>)
    requires Ordered(k.events, k.tcb, ids) && k.current in k.tcb
    ensures var k' := DelayCurrent(k, ticks, false); Ordered(k'.events, k'.tcb, ids)
    ensures var k' := DelayCurrent(k, ticks, true); Ordered(k'.events, k'.tcb, ids)
  {
    hide Ordered, DelayCurrent;
    DelayEffect(k, ticks, false);
    DelayEffect(k, ticks, true);
    RankFrame(k.events, k.tcb, k.current, Slept(k, ticks, false), ids);
    RankFrame(k.events, k.tcb, k.current, Slept(k, ticks, true), ids);
  }

  /** Waiting on a list that is no mutex's. */
  lemma ElsewhereOrdered(k: State, k1: State, id: nat, r: TaskList, b: Tcb, ids: set<nat>)
    requires Ordered(k.events, k.tcb, ids) && k.current in k.tcb && id !in ids
    requires k1 == k.(events := k.events[Waiters(id) := r], tcb := k.tcb[k.current := b])
             && b.priority == Priority(k, k.current)
    ensures Ordered(k1.events, k1.tcb, ids)
  {
    hide Ordered;
    OffMutexes(k.events, k.tcb, Waiters(id), r, ids);
    RankFrame(k1.events, k.tcb, k.current, b, ids);
  }

  // ----- kernel actions of tasks that follow the discipline

  /** No ready task outranks the running one. */
  ghost predicate RunsHighest(k: State) {
    forall t :: IsReady(k, t) ==> k.tcb[t].priority <= Priority(k, k.current)
  }

  /** A holder waits for no event; a task woken for a mutex tries again before it does anything
      else and is left alone until then; a free mutex is taken while the scheduler runs by a
      task that no ready task outranks; no priority is set. */
  ghost predicate Disciplined(s: System, a: Action) {
    var c := s.k.current;
    match a
    case Other(Sleep(_)) => c !in s.retry
    case Other(Wait(_, _)) => c !in s.retry && TcbOf(s.k, c).mutexesHeld == 0
    case Other(WaitUnordered(_, _, _)) => c !in s.retry && TcbOf(s.k, c).mutexesHeld == 0
    case Other(WaitRestricted(_, _, _)) => c !in s.retry && TcbOf(s.k, c).mutexesHeld == 0
    case Other(Halt(t)) => t !in s.retry
    case Other(Remove(t)) => t !in s.retry
    case Other(SetPriority(_, _)) => false
    case TakeCall(id) =>
      && (c in s.retry ==> s.retry[c] == id)
      && (id in s.mutexes && s.mutexes[id].count > 0 ==> s.k.suspended == 0 && RunsHighest(s.k))
    case BlockCall(_, _) => c !in s.retry && TcbOf(s.k, c).mutexesHeld == 0
    case _ => true
  }

  /** What remains to be shown of a step that is known to keep the accounting. */
  ghost predicate Rest(s: System) {
    Ordered(s.k.events, s.k.tcb, s.mutexes.Keys) && Linked(s.k.tcb, s.mutexes, s.retry)
  }

  lemma QuietRest(s: System, k': State)
    requires Rest(s) && Quiet(s.k, k', s.mutexes.Keys)
    ensures Rest(s.(k := k'))
  {
    hide Ordered, Linked, Eased;
    EasedKeeps(s.k.tcb, k'.tcb, s.mutexes, s.retry);
  }

  /** Between the two list moves of a wait. */
  lemma AsleepRest(s: System, k1: State, ticks: nat, canBlock: bool)
    requires SysInv(s) && s.k.current in s.k.tcb && s.k.current in k1.tcb && s.k.current !in s.retry
    requires k1.current == s.k.current && k1.tcb == s.k.tcb[s.k.current := k1.tcb[s.k.current]]
    requires Ordered(k1.events, k1.tcb, s.mutexes.Keys) && SameRank(s.k.tcb[s.k.current], k1.tcb[s.k.current])
    requires FitOk(k1.tcb[s.k.current])
             && (k1.tcb[s.k.current].eventIn.Waiters? ==> k1.tcb[s.k.current].eventIn.id !in s.mutexes)
    ensures Rest(s.(k := Ask(DelayCurrent(k1, ticks, canBlock), true)))
  {
    hide CallsInv, Ranked, Ordered, Linked, DelayCurrent, InUse, Wrap;
    var k' := DelayCurrent(k1, ticks, canBlock);
    DelayEffect(k1, ticks, canBlock);
    SleepOrdered(k1, ticks, s.mutexes.Keys);
    SleepKeeps(s.k.tcb, k'.tcb, s.mutexes, s.retry, s.k.current);
  }

  lemma BlocksRest(s: System, op: Op)
    requires SysInv(s) && Legal(s, Other(op)) && Disciplined(s, Other(op)) && Blocks(op)
    ensures Rest(s.(k := Step(s.k, op)))
  {
    hide Inv, Accounted, Ranked, Ordered, Bound, Retrying, DelayCurrent, PutEventSorted, PutEventEnd, MarkInUse, InUse,
      RunsHighest;
    var k := s.k;
    var c := k.current;
    CurrentLive(k);
    assert k.tcb == k.tcb[c := k.tcb[c]];
    match op {
      case Sleep(ticks) => AsleepRest(s, k, ticks, false);
      case Wait(id, ticks) =>
        PlacedElsewhere(k, id, s.mutexes.Keys);
        AsleepRest(s, PutEventSorted(k, c, Waiters(id)), ticks, true);
      case WaitUnordered(id, v, ticks) =>
        MarkedInUse(v);
        RankFrame(k.events, k.tcb, c, k.tcb[c].(eventValue := MarkInUse(v)), s.mutexes.Keys);
        PlacedElsewhere(SetEventValue(k, c, MarkInUse(v)), id, s.mutexes.Keys);
        AsleepRest(s, PutEventEnd(SetEventValue(k, c, MarkInUse(v)), c, Waiters(id)), ticks, true);
      case WaitRestricted(id, ticks, indefinitely) =>
        PlacedElsewhere(k, id, s.mutexes.Keys);
        AsleepRest(s, PutEventEnd(k, c, Waiters(id)), if indefinitely then MAX_DELAY else ticks, indefinitely);
    }
  }

  lemma PlacedElsewhere(k: State, id: nat, ids: set<nat>)
    requires Ordered(k.events, k.tcb, ids) && k.current in k.tcb && id !in ids
    ensures var k1 := PutEventSorted(k, k.current, Waiters(id));
            && Ordered(k1.events, k1.tcb, ids) && k1.current == k.current
            && k1.tcb == k.tcb[k.current := k.tcb[k.current].(eventIn := Waiters(id))]
    ensures var k1 := PutEventEnd(k, k.current, Waiters(id));
            && Ordered(k1.events, k1.tcb, ids) && k1.current == k.current
            && k1.tcb == k.tcb[k.current := k.tcb[k.current].(eventIn := Waiters(id))]
  {
    hide Ordered, InsertAt, InsertEnd, SortedPos, EventValues, At;
    var b := k.tcb[k.current].(eventIn := Waiters(id));
    PutTcb(k, id);
    var k1 := PutEventSorted(k, k.current, Waiters(id));
    var k2 := PutEventEnd(k, k.current, Waiters(id));
    ElsewhereOrdered(k, k1, id, k1.events[Waiters(id)], b, ids);
    ElsewhereOrdered(k, k2, id, k2.events[Waiters(id)], b, ids);
  }

  /** A task is suspended, or deletes itself. */
  lemma RequeuedRest(s: System, t: Task, l: StateList, k': State)
    requires SysInv(s) && t in s.k.tcb && t !in s.retry && k'.tcb == Requeue(s.k, t, l).tcb
             && k'.events == Requeue(s.k, t, l).events
    ensures Rest(s.(k := k'))
  {
    hide CallsInv, Ranked, Ordered, Bound, Retrying, Requeue, Drop, At, InUse;
    var k := s.k;
    var b := k.tcb[t].(stateIn := l, eventIn := NoEvent);
    RequeueEffect(k, t, l);
    SleepKeeps(k.tcb, k'.tcb, s.mutexes, s.retry, t);
    DropEventOrdered(k.events, k.tcb, k.tcb[t].eventIn, t, s.mutexes.Keys);
    RankFrame(k'.events, k.tcb, t, b, s.mutexes.Keys);
  }

  lemma HaltRest(s: System, t: Task)
    requires SysInv(s) && Usable(s.k, t) && t !in s.retry
    ensures Rest(s.(k := Kernel.Suspend(s.k, t)))
  {
    hide SysInv, Requeue, Delayed, Rest;
    RequeuedRest(s, t, Suspended, Kernel.Suspend(s.k, t));
  }

  lemma RemoveRest(s: System, t: Task)
    requires SysInv(s) && Usable(s.k, t) && t !in s.retry && s.k.tcb[t].mutexesHeld == 0
    ensures Rest(s.(k := Delete(s.k, t)))
  {
    hide SysInv, Requeue, Rest, Delete;
    if t == s.k.current {
      DeletedFields(s.k, t);
      RequeuedRest(s, t, Terminated, Delete(s.k, t));
    } else {
      RemoveOtherRest(s, t);
    }
  }

  lemma DeletedFields(k: State, t: Task)
    requires t in k.tcb
    ensures t == k.current ==>
              && Delete(k, t).tcb == Requeue(k, t, Terminated).tcb
              && Delete(k, t).events == Requeue(k, t, Terminated).events
    ensures t != k.current ==>
              Delete(k, t).events == if k.tcb[t].eventIn == NoEvent then k.events
                                     else k.events[k.tcb[t].eventIn := Drop(At(k.events, k.tcb[t].eventIn), t)]
  {
    hide Requeue, Drop, Delayed;
  }

  lemma RemoveOtherRest(s: System, t: Task)
    requires SysInv(s) && Usable(s.k, t) && t != s.k.current && t !in s.retry && s.k.tcb[t].mutexesHeld == 0
    ensures Rest(s.(k := Delete(s.k, t)))
  {
    hide Inv, Accounted, Ranked, Ordered, Linked, Delete, Drop, At;
    var k := s.k;
    var k' := Delete(k, t);
    DeleteOtherInv(k, t);
    DeletedFields(k, t);
    ForgetKeeps(k.tcb, s.mutexes, s.retry, t);
    DropEventOrdered(k.events, k.tcb, k.tcb[t].eventIn, t, s.mutexes.Keys);
    Unlisted(k', t);
    OrderedOff(k'.events, k.tcb, k'.tcb, t, s.mutexes.Keys);
  }

  lemma CollectRest(s: System)
    requires SysInv(s) && Enabled(s.k, Collect) && s.k.cleanup > 0
    ensures Rest(s.(k := CleanUp(s.k)))
  {
    hide Ranked, Ordered, Bound, TimeOk, NoneDue, PrioritiesOk, HeldBy;
    var k := s.k;
    var t := ListOf(k, Terminated).items[0];
    assert t in At(k.lists, Terminated).items;
    assert k.tcb[t].eventIn == NoEvent && t !in s.retry && k.tcb[t].mutexesHeld == 0;
    hide Inv, ListsOk, EventsOk, BlockedOk, Accounted, Retrying;
    CollectedFields(k);
    ForgetKeeps(k.tcb, s.mutexes, s.retry, t);
    Unlisted(k, t);
    OrderedOff(k.events, k.tcb, CleanUp(k).tcb, t, s.mutexes.Keys);
  }

  lemma CollectedFields(k: State)
    requires ListOf(k, Terminated).items != [] && k.cleanup > 0
    ensures CleanUp(k).tcb == k.tcb - {ListOf(k, Terminated).items[0]} && CleanUp(k).events == k.events
  {
    hide Drop;
  }

  lemma NewRest(s: System, t: Task, p: nat)
    requires SysInv(s) && Enabled(s.k, New(t, p))
    ensures Rest(s.(k := Create(s.k, t, p)))
  {
    hide Inv, Accounted, Ranked, Ordered, Linked, Create;
    CreateInv(s.k, t, p);
    CreatedEvents(s.k, t, p);
    NewKeeps(s.k.tcb, s.mutexes, s.retry, t, p);
    Unlisted(s.k, t);
    OrderedOff(s.k.events, s.k.tcb, s.k.tcb[t := NewTcb(p)], t, s.mutexes.Keys);
  }

  lemma CreatedEvents(k: State, t: Task, p: nat)
    ensures Create(k, t, p).events == k.events
  {
    hide InsertEnd, At;
  }

  lemma QuietSteps(s: System, op: Op)
    requires SysInv(s) && Legal(s, Other(op))
    requires !Blocks(op) && !op.New? && !op.Remove? && !op.Collect? && !op.Halt? && !op.SetPriority?
    ensures Quiet(s.k, Step(s.k, op), s.mutexes.Keys)
  {
    hide Inv, Accounted, Ranked, Ordered, Linked, Quiet, SysTick, SwitchContext, SuspendAll, ResumeAll,
      RemoveFromEventList, RemoveFromUnordered, Resume, AbortDelay, ResetItem, SomeReady, EventsOf;
    var k := s.k;
    var ids := s.mutexes.Keys;
    if op.Tick? {
      TickQuiet(k, ids);
    } else if op.Switch? || op.Suspending? {
      SwitchQuiet(k, ids);
    } else if op.Resuming? {
      ResumeQuiet(k, ids);
    } else if op.ReadItem? {
      ReadQuiet(k, ids);
    } else if op.Wake? {
      WakeQuiet(k, op.id, ids);
    } else if op.WakeUnordered? {
      WakeUnorderedQuiet(k, op.task, op.value, ids);
    } else if op.Continue? {
      ContinueQuiet(k, op.task, ids);
    } else if op.Abort? {
      AbortQuiet(k, op.task, ids);
    }
  }

  lemma OtherRest(s: System, op: Op)
    requires SysInv(s) && Legal(s, Other(op)) && Disciplined(s, Other(op))
    ensures Rest(s.(k := Step(s.k, op)))
  {
    hide Inv, Accounted, Ranked, Ordered, Linked, Quiet, Rest, Create, Delete, CleanUp, Kernel.Suspend, EventsOf,
      ListOf, SomeReady, RunsHighest;
    if Blocks(op) {
      BlocksRest(s, op);
    } else if op.New? {
      NewRest(s, op.task, op.priority);
    } else if op.Remove? {
      RemoveRest(s, op.task);
    } else if op.Collect? {
      CollectTouchesCleanup(s);
      CollectRest(s);
    } else if op.Halt? {
      HaltRest(s, op.task);
    } else {
      RestOf(s);
      QuietSteps(s, op);
      QuietRest(s, Step(s.k, op));
    }
  }

  lemma RestOf(s: System)
    requires SysInv(s)
    ensures Rest(s)
  {
    hide CallsInv, Ranked, Ordered, Linked;
  }

  lemma CollectTouchesCleanup(s: System)
    requires SysInv(s) && Enabled(s.k, Collect)
    ensures s.k.cleanup > 0
  {
    hide Accounted, Ranked, Ordered, Linked;
    CleanUpEffect(s.k);
  }

  // ----- the calls on mutexes, on the TCBs

  lemma HoldsOne(mutexes: map<nat, Mutex>, t: Task, id: nat)
    requires id in mutexes && mutexes[id].holder == Held(t) && |HeldBy(mutexes, t)| == 1
    ensures forall x :: x in mutexes && mutexes[x].holder == Held(t) ==> x == id
  {
    assert id in HeldBy(mutexes, t);
    assert |HeldBy(mutexes, t) - {id}| == 0;
    assert HeldBy(mutexes, t) - {id} == {};
    assert forall x :: x in mutexes && mutexes[x].holder == Held(t) ==> x in HeldBy(mutexes, t);
  }

  /** The holder of `id` moves to a priority that no waiter for a mutex of its own exceeds. */
  lemma MoveKeeps(tcb: Tcbs, tcb': Tcbs, mutexes: map<nat, Mutex>, retry: map<Task, nat>, h: Task, p: nat)
    requires Linked(tcb, mutexes, retry)
    requires h in tcb && h in tcb' && tcb' == tcb[h := tcb'[h]] && Moved(tcb[h], tcb'[h], p)
    requires tcb[h].mutexesHeld == tcb'[h].mutexesHeld > 0
    requires forall id, w :: id in mutexes && mutexes[id].holder == Held(h) && WaitsFor(tcb, w, id) ==>
             tcb[w].priority <= p
    ensures Linked(tcb', mutexes, retry)
  {
    hide InUse;
    assert FitOk(tcb[h]);
    assert forall id, w :: WaitsFor(tcb', w, id) <==> WaitsFor(tcb, w, id);
    forall id, w | id in mutexes && WaitsFor(tcb', w, id)
      ensures mutexes[id].holder.Held? ==> tcb'[w].priority <= TcbIn(tcb', mutexes[id].holder.task).priority
      ensures mutexes[id].holder == Nobody ==> exists t :: Coming(tcb', retry, id, t)
    {
      assert WaitsFor(tcb, w, id) && w != h;
      if mutexes[id].holder == Nobody {
        var t :| Coming(tcb, retry, id, t);
        assert Coming(tcb', retry, id, t);
      }
    }
  }

  lemma DropRetry(tcb: Tcbs, mutexes: map<nat, Mutex>, retry: map<Task, nat>, c: Task, id: nat)
    requires Retrying(tcb, mutexes, retry) && (c in retry ==> retry[c] == id)
    requires id in mutexes ==> mutexes[id].holder.Held?
    ensures Retrying(tcb, mutexes, retry - {c})
  {
    forall x, w | x in mutexes && mutexes[x].holder == Nobody && WaitsFor(tcb, w, x)
      ensures exists t :: Coming(tcb, retry - {c}, x, t)
    {
      var t :| Coming(tcb, retry, x, t);
      assert Coming(tcb, retry - {c}, x, t);
    }
  }

  /** A free mutex is taken by a task that no ready task outranks. */
  lemma TakeLinked(tcb: Tcbs, mutexes: map<nat, Mutex>, retry: map<Task, nat>, c: Task, id: nat, m: Mutex)
    requires Linked(tcb, mutexes, retry)
    requires c in tcb && tcb[c].eventIn == NoEvent && id in mutexes && mutexes[id].holder == Nobody
    requires (c in retry ==> retry[c] == id) && m.holder == Held(c)
    requires forall t :: t in retry ==> t in tcb && tcb[t].priority <= tcb[c].priority
    ensures Linked(tcb[c := tcb[c].(mutexesHeld := tcb[c].mutexesHeld + 1)], mutexes[id := m], retry - {c})
  {
    hide InUse;
    var tcb' := tcb[c := tcb[c].(mutexesHeld := tcb[c].mutexesHeld + 1)];
    var mutexes' := mutexes[id := m];
    assert FitOk(tcb[c]);
    assert forall x, w :: WaitsFor(tcb', w, x) <==> WaitsFor(tcb, w, x);
    forall x, w | x in mutexes' && WaitsFor(tcb', w, x)
      ensures mutexes'[x].holder.Held? ==> tcb'[w].priority <= TcbIn(tcb', mutexes'[x].holder.task).priority
      ensures mutexes'[x].holder == Nobody ==> exists t :: Coming(tcb', retry - {c}, x, t)
    {
      assert WaitsFor(tcb, w, x);
      if mutexes[x].holder == Nobody {
        var t :| Coming(tcb, retry, x, t);
        if x != id {
          assert Coming(tcb', retry - {c}, x, t);
        }
      }
    }
  }

  /** A give before its head waiter is woken: only the mutex given may lack a comer. */
  ghost predicate LinkedBut(tcb: Tcbs, mutexes: map<nat, Mutex>, retry: map<Task, nat>, id: nat) {
    && Fit(tcb) && Bound(tcb, mutexes) && OnTheirWay(tcb, retry)
    && (forall x, w :: x != id && x in mutexes && mutexes[x].holder == Nobody && WaitsFor(tcb, w, x) ==>
          exists t :: Coming(tcb, retry, x, t))
  }

  lemma ReleaseKeeps(tcb: Tcbs, tcb': Tcbs, mutexes: map<nat, Mutex>, retry: map<Task, nat>, c: Task, id: nat, m: Mutex)
    requires Linked(tcb, mutexes, retry) && c in tcb && c in tcb'
    requires id in mutexes && mutexes[id].holder == Held(c) && m.holder == Nobody
             && tcb[c].mutexesHeld == |HeldBy(mutexes, c)|
    requires tcb' == tcb[c := tcb'[c]] && tcb'[c].mutexesHeld == tcb[c].mutexesHeld - 1
    requires Moved(tcb[c], tcb'[c], if tcb[c].mutexesHeld == 1 then tcb[c].base else tcb[c].priority)
    ensures LinkedBut(tcb', mutexes[id := m], retry, id)
  {
    hide InUse;
    var mutexes' := mutexes[id := m];
    assert FitOk(tcb[c]);
    HolderHolds(mutexes, c, id);
    if tcb[c].mutexesHeld == 1 {
      HoldsOne(mutexes, c, id);
    }
    assert forall x, w :: WaitsFor(tcb', w, x) <==> WaitsFor(tcb, w, x);
    forall x, w | x in mutexes' && WaitsFor(tcb', w, x) && x != id
      ensures mutexes'[x].holder.Held? ==> tcb'[w].priority <= TcbIn(tcb', mutexes'[x].holder.task).priority
      ensures mutexes'[x].holder == Nobody ==> exists t :: Coming(tcb', retry, x, t)
    {
      assert WaitsFor(tcb, w, x) && w != c;
      if mutexes[x].holder == Nobody {
        var t :| Coming(tcb, retry, x, t);
        assert Coming(tcb', retry, x, t);
      }
    }
  }

  lemma NobodyWaits(tcb: Tcbs, mutexes: map<nat, Mutex>, retry: map<Task, nat>, id: nat)
    requires LinkedBut(tcb, mutexes, retry, id) && forall w :: !WaitsFor(tcb, w, id)
    ensures Linked(tcb, mutexes, retry)
  {
    hide InUse;
  }

  /** The woken head is the one that is on its way to the mutex just given. */
  lemma WakeLinked(tcb: Tcbs, tcb': Tcbs, mutexes: map<nat, Mutex>, retry: map<Task, nat>, id: nat, t: Task)
    requires LinkedBut(tcb, mutexes, retry, id) && Eased(tcb, tcb') && WaitsFor(tcb, t, id)
    requires Outranks(tcb, t, id) && OnItsWay(tcb', t) && id in mutexes && mutexes[id].holder == Nobody
    ensures Linked(tcb', mutexes, retry[t := id])
  {
    hide InUse;
    var retry' := retry[t := id];
    assert t !in retry;
    assert EasedTcb(tcb[t], tcb'[t]) && FitOk(tcb[t]);
    hide FitOk, Way;
    forall x, w | x in mutexes && WaitsFor(tcb', w, x)
      ensures mutexes[x].holder.Held? ==> tcb'[w].priority <= TcbIn(tcb', mutexes[x].holder.task).priority
      ensures mutexes[x].holder == Nobody ==> exists u :: Coming(tcb', retry', x, u)
    {
      assert EasedTcb(tcb[w], tcb'[w]);
      assert WaitsFor(tcb, w, x);
      if x == id {
        WokenComes(tcb, tcb', retry, id, t);
      } else if mutexes[x].holder == Nobody {
        var u :| Coming(tcb, retry, x, u);
        ComingStays(tcb, tcb', retry, x, u);
        assert Coming(tcb', retry', x, u);
      }
    }
  }

  lemma WokenComes(tcb: Tcbs, tcb': Tcbs, retry: map<Task, nat>, id: nat, t: Task)
    requires Eased(tcb, tcb') && Outranks(tcb, t, id)
    ensures Coming(tcb', retry[t := id], id, t)
  {
    hide FitOk, Way;
    forall w | WaitsFor(tcb', w, id)
      ensures tcb'[w].priority <= tcb'[t].priority
    {
      assert EasedTcb(tcb[w], tcb'[w]) && EasedTcb(tcb[t], tcb'[t]);
      assert WaitsFor(tcb, w, id);
    }
  }

  // ----- the head of a waiting list

  lemma HeadOutranks(k: State, id: nat, ids: set<nat>)
    requires Inv(k) && Ordered(k.events, k.tcb, ids) && id in ids && WaitersOf(k, id) != []
    ensures Outranks(k.tcb, WaitersOf(k, id)[0], id)
  {
    var s := WaitersOf(k, id);
    WaitingHead(k, id);
    forall w | WaitsFor(k.tcb, w, id)
      ensures k.tcb[w].priority <= k.tcb[s[0]].priority
    {
      assert w in At(k.events, Waiters(id)).items;
      var i :| 0 <= i < |s| && s[i] == w;
      assert TcbIn(k.tcb, s[0]).priority >= TcbIn(k.tcb, s[i]).priority;
    }
  }

  lemma WokenOnItsWay(k: State, id: nat)
    requires Inv(k) && WaitersOf(k, id) != []
    ensures OnItsWay(RemoveFromEventList(k, id).tcb, WaitersOf(k, id)[0])
  {
    var t := WaitersOf(k, id)[0];
    WaitingHead(k, id);
    hide Inv, MakeReady, DropEvent, PutEventEnd, EventsOk;
    MakeReadyEffect(k, t);
    ToPendingPlaced(k, t);
  }

  /** prvGetDisinheritPriorityAfterTimeout finds the highest waiting priority. */
  lemma HighestBounds(s: System, id: nat)
    requires SysInv(s) && id in s.mutexes
    ensures HighestWaiting(s.k, id) < MAX_PRIORITIES
    ensures forall w :: WaitsFor(s.k.tcb, w, id) ==> s.k.tcb[w].priority <= HighestWaiting(s.k, id)
    ensures HighestWaiting(s.k, id)
            == if WaitersOf(s.k, id) == [] then 0 else Priority(s.k, WaitersOf(s.k, id)[0])
  {
    hide Inv, Ordered, Bound, Retrying, Ranked, InUse, CountOk;
    HighestBelow(s, id);
    if WaitersOf(s.k, id) == [] {
      NoWaiters(s.k, id);
    } else {
      var t := WaitersOf(s.k, id)[0];
      WaitingHead(s.k, id);
      HeadOutranks(s.k, id, s.mutexes.Keys);
      assert FitOk(s.k.tcb[t]) && !InUse(s.k.tcb[t].eventValue);
    }
  }

  // ----- the calls on mutexes keep the invariants

  lemma OnItsWayReady(k: State, t: Task)
    requires Inv(k) && k.suspended == 0 && OnItsWay(k.tcb, t)
    ensures IsReady(k, t)
  {
    if k.tcb[t].eventIn == Pending {
      OnItsList(k, t);
    }
  }

  lemma RetryingRank(s: System)
    requires SysInv(s) && s.k.suspended == 0 && RunsHighest(s.k)
    ensures forall t :: t in s.retry ==> t in s.k.tcb && s.k.tcb[t].priority <= Priority(s.k, s.k.current)
  {
    hide Inv, Accounted, Ranked, Ordered, Bound, IsReady, Way;
    forall t | t in s.retry
      ensures t in s.k.tcb && s.k.tcb[t].priority <= Priority(s.k, s.k.current)
    {
      OnItsWayReady(s.k, t);
    }
  }

  lemma TakeFreeRest(s: System, id: nat)
    requires SysInv(s) && Legal(s, TakeCall(id)) && Disciplined(s, TakeCall(id)) && s.mutexes[id].count > 0
    ensures Rest(TakeFree(s.(retry := s.retry - {s.k.current}), id))
  {
    hide Inv, Ranked, Ordered, Linked, IsReady, CountOk, HeldBy, InUse, RunsHighest;
    var c := s.k.current;
    var m := s.mutexes[id];
    CurrentLive(s.k);
    RetryingRank(s);
    TakeLinked(s.k.tcb, s.mutexes, s.retry, c, id, Taken(m, c));
    RankFrame(s.k.events, s.k.tcb, c, s.k.tcb[c].(mutexesHeld := s.k.tcb[c].mutexesHeld + 1), s.mutexes.Keys);
    SameKeys(s.mutexes, id, Taken(m, c));
  }

  /** A nested take, or one that finds the mutex held. */
  lemma TakeHeldRest(s: System, id: nat)
    requires SysInv(s) && Legal(s, TakeCall(id)) && Disciplined(s, TakeCall(id)) && s.mutexes[id].holder.Held?
    ensures Rest(s.(retry := s.retry - {s.k.current}))
    ensures forall m: Mutex :: m.holder == s.mutexes[id].holder ==>
            Rest(s.(retry := s.retry - {s.k.current}, mutexes := s.mutexes[id := m]))
  {
    hide CallsInv, Ranked, Ordered, Fit, Bound, Retrying, Running, RunsHighest;
    var s1 := s.(retry := s.retry - {s.k.current});
    DropRetry(s.k.tcb, s.mutexes, s.retry, s.k.current, id);
    forall m: Mutex | m.holder == s.mutexes[id].holder
      ensures Rest(s1.(mutexes := s.mutexes[id := m]))
    {
      DeeperLinked(s.k.tcb, s.mutexes, s1.retry, id, m);
      SameKeys(s.mutexes, id, m);
    }
  }

  lemma TakeRest(s: System, id: nat)
    requires SysInv(s) && Legal(s, TakeCall(id)) && Disciplined(s, TakeCall(id))
    ensures Rest(Take(s, id))
  {
    hide SysInv, Rest, TakeFree, Disciplined, Running;
    if s.mutexes[id].count > 0 {
      TakeFreeRest(s, id);
      FreeUnheld(s, id);
    } else {
      EmptyHeld(s, id);
      TakeHeldRest(s, id);
    }
  }

  lemma FreeUnheld(s: System, id: nat)
    requires SysInv(s) && id in s.mutexes && s.mutexes[id].count > 0
    ensures s.mutexes[id].holder == Nobody
  {
    hide Inv, Ranked, Ordered, Linked, CountOk, HeldBy, InUse;
  }

  lemma EmptyHeld(s: System, id: nat)
    requires SysInv(s) && id in s.mutexes && s.mutexes[id].count == 0
    ensures s.mutexes[id].holder.Held?
  {
    HeldWhenEmpty(s, id);
  }

  lemma SameKeys(mutexes: map<nat, Mutex>, id: nat, m: Mutex)
    requires id in mutexes
    ensures mutexes[id := m].Keys == mutexes.Keys
  {
  }

  lemma DeeperLinked(tcb: Tcbs, mutexes: map<nat, Mutex>, retry: map<Task, nat>, id: nat, m: Mutex)
    requires Linked(tcb, mutexes, retry) && id in mutexes && m.holder == mutexes[id].holder
    ensures Linked(tcb, mutexes[id := m], retry)
  {
    hide InUse, FitOk, Way;
  }

  lemma GiveBackRest(s: System, id: nat)
    requires SysInv(s) && Legal(s, GiveCall(id))
    ensures TcbOf(s.k, s.k.current).mutexesHeld > 0
    ensures Rest(GiveBack(s, id))
  {
    hide Inv, Ranked, Ordered, Bound, Retrying, Disinherit, RemoveFromEventList, EventsOf, InUse, Moved, LinkedBut,
      Linked, Fit;
    HolderIs(s, id);
    DisinheritEffect(s.k);
    var c := s.k.current;
    var k1 := Disinherit(s.k);
    var m := s.mutexes[id].(count := 1, holder := Nobody, depth := 0);
    ReleaseKeeps(s.k.tcb, k1.tcb, s.mutexes, s.retry, c, id, m);
    HolderOff(s, c);
    OrderedOff(s.k.events, s.k.tcb, k1.tcb, c, s.mutexes.Keys);
    SameKeys(s.mutexes, id, m);
    GivenRest(s, id, k1, m);
  }

  lemma HolderOff(s: System, h: Task)
    requires SysInv(s) && h in s.k.tcb && s.k.tcb[h].mutexesHeld > 0
    ensures forall id: nat :: h !in At(s.k.events, Waiters(id)).items
  {
    hide Inv, Accounted, Ranked, Ordered, Bound, Retrying;
    assert FitOk(s.k.tcb[h]);
    Unlisted(s.k, h);
  }

  lemma GivenRest(s: System, id: nat, k1: State, m: Mutex)
    requires id in s.mutexes && m.holder == Nobody && Inv(k1) && Ordered(k1.events, k1.tcb, s.mutexes.Keys)
    requires LinkedBut(k1.tcb, s.mutexes[id := m], s.retry, id)
    ensures WaitersOf(k1, id) == [] ==> Rest(System(k1, s.mutexes[id := m], s.retry))
    ensures WaitersOf(k1, id) != [] ==> Rest(System(RemoveFromEventList(k1, id), s.mutexes[id := m],
            s.retry[WaitersOf(k1, id)[0] := id]))
  {
    hide Inv, Ordered, LinkedBut, Linked, RemoveFromEventList, EventsOf, Eased, OnItsWay, Outranks;
    var mutexes := s.mutexes[id := m];
    SameKeys(s.mutexes, id, m);
    if WaitersOf(k1, id) == [] {
      NoWaiters(k1, id);
      NobodyWaits(k1.tcb, mutexes, s.retry, id);
    } else {
      var t := WaitersOf(k1, id)[0];
      var k2 := RemoveFromEventList(k1, id);
      WaitingHead(k1, id);
      WakeQuiet(k1, id, mutexes.Keys);
      HeadOutranks(k1, id, mutexes.Keys);
      WokenOnItsWay(k1, id);
      WakeLinked(k1.tcb, k2.tcb, mutexes, s.retry, id, t);
    }
  }

  lemma GiveRest(s: System, id: nat)
    requires SysInv(s) && Legal(s, GiveCall(id))
    ensures TcbOf(s.k, s.k.current).mutexesHeld > 0
    ensures Rest(Give(s, id))
  {
    hide Inv, Accounted, Ranked, Ordered, Linked, GiveBack;
    GiveBackRest(s, id);
    var m := s.mutexes[id];
    if m.recursive && m.depth > 1 {
      DeeperLinked(s.k.tcb, s.mutexes, s.retry, id, m.(depth := m.depth - 1));
      SameKeys(s.mutexes, id, m.(depth := m.depth - 1));
    }
  }

  lemma BoundOf(tcb: Tcbs, mutexes: map<nat, Mutex>, h: Task)
    requires Bound(tcb, mutexes) && h in tcb
    ensures forall id, w :: id in mutexes && mutexes[id].holder == Held(h) && WaitsFor(tcb, w, id) ==>
            tcb[w].priority <= tcb[h].priority
  {
  }

  lemma HeldCount(s: System, h: Task)
    requires CallsInv(s) && h in s.k.tcb
    ensures s.k.tcb[h].mutexesHeld == |HeldBy(s.mutexes, h)|
  {
    hide Inv, HeldBy, ValueOk;
  }

  lemma TimedOutRest(s: System, id: nat)
    requires SysInv(s) && id in s.mutexes && s.mutexes[id].holder.Held?
    ensures Rest(TimedOut(s, id))
  {
    hide Inv, Accounted, Ranked, Ordered, Fit, Retrying, DisinheritAfterTimeout, HighestWaiting, Moved, InUse, HeldBy;
    var h := s.mutexes[id].holder.task;
    var k := s.k;
    var w := HighestWaiting(k, id);
    HolderIs(s, id);
    HeldCount(s, h);
    HighestBounds(s, id);
    LateEffect(k, h, w);
    var k' := DisinheritAfterTimeout(k, h, w);
    if k.tcb[h].mutexesHeld == 1 {
      HoldsOne(s.mutexes, h, id);
      MoveKeeps(k.tcb, k'.tcb, s.mutexes, s.retry, h, Max(k.tcb[h].base, w));
    } else {
      BoundOf(k.tcb, s.mutexes, h);
      MoveKeeps(k.tcb, k'.tcb, s.mutexes, s.retry, h, k.tcb[h].priority);
    }
    HolderOff(s, h);
    OrderedOff(k.events, k.tcb, k'.tcb, h, s.mutexes.Keys);
  }

  /** The holder inherits: it is then at least at the caller's priority. */
  lemma InheritRest(s: System, id: nat)
    requires SysInv(s) && id in s.mutexes && s.mutexes[id].holder.Held? && TcbOf(s.k, s.k.current).mutexesHeld == 0
    ensures var h := s.mutexes[id].holder.task;
            var k' := Inherit(s.k, h);
            && Rest(s.(k := k')) && Inv(k') && k'.current == s.k.current && s.k.current in s.k.tcb && h in k'.tcb
            && TcbOf(k', k'.current) == TcbOf(s.k, s.k.current) && Priority(k', h) >= Priority(k', k'.current)
  {
    hide Inv, Ranked, Ordered, Bound, Retrying, Fit, Inherit, CountOk, InUse, Moved;
    var h := s.mutexes[id].holder.task;
    var k := s.k;
    CurrentLive(k);
    HolderIs(s, id);
    InheritEffect(k, h);
    BoundOf(k.tcb, s.mutexes, h);
    MoveKeeps(k.tcb, Inherit(k, h).tcb, s.mutexes, s.retry, h, Max(k.tcb[h].priority, Priority(k, k.current)));
    MovedPriority(k.tcb[h], Inherit(k, h).tcb[h], Max(k.tcb[h].priority, Priority(k, k.current)));
    HolderOff(s, h);
    OrderedOff(k.events, k.tcb, Inherit(k, h).tcb, h, s.mutexes.Keys);
  }

  lemma MovedPriority(b: Tcb, b': Tcb, p: nat)
    requires Moved(b, b', p)
    ensures b'.priority == p
  {
  }

  // ----- placing the caller on the waiting list

  /** Item values that stand for the priorities. */
  ghost predicate Matched(tcb: Tcbs, vs: seq<nat>, s: seq<Task>) {
    |vs| == |s| && forall i :: 0 <= i < |s| ==> vs[i] + TcbIn(tcb, s[i]).priority == MAX_PRIORITIES
  }

  lemma {:induction false} PlacedInOrder(tcb: Tcbs, vs: seq<nat>, s: seq<Task>, c: Task)
    requires InOrder(tcb, s) && Matched(tcb, vs, s)
    requires TcbIn(tcb, c).priority <= MAX_PRIORITIES
    ensures InOrder(tcb, Spread(s, c, SortedPos(vs, MAX_PRIORITIES - TcbIn(tcb, c).priority)))
  {
    var v := MAX_PRIORITIES - TcbIn(tcb, c).priority;
    var p := SortedPos(vs, v);
    hide SortedPos;
    assert forall i :: 0 <= i < p ==> TcbIn(tcb, s[i]).priority >= TcbIn(tcb, c).priority;
    forall i | p <= i < |s|
      ensures TcbIn(tcb, s[i]).priority <= TcbIn(tcb, c).priority
    {
      assert TcbIn(tcb, s[p]).priority >= TcbIn(tcb, s[i]).priority;
    }
  }

  lemma ListedValues(k: State, mutexes: map<nat, Mutex>, id: nat)
    requires Inv(k) && Accounted(k.tcb, mutexes) && Fit(k.tcb) && id in mutexes
    ensures Matched(k.tcb, EventValues(k, WaitersOf(k, id)), WaitersOf(k, id))
  {
    hide InUse, CountOk;
    var s := WaitersOf(k, id);
    forall i | 0 <= i < |s|
      ensures EventValues(k, s)[i] + TcbIn(k.tcb, s[i]).priority == MAX_PRIORITIES
    {
      assert s[i] in At(k.events, Waiters(id)).items;
      assert WaitsFor(k.tcb, s[i], id) && FitOk(k.tcb[s[i]]);
    }
  }

  lemma PutOrdered(k: State, mutexes: map<nat, Mutex>, id: nat)
    requires Inv(k) && Ordered(k.events, k.tcb, mutexes.Keys) && Accounted(k.tcb, mutexes) && Fit(k.tcb)
             && id in mutexes
    requires k.current in k.tcb && !InUse(k.tcb[k.current].eventValue)
    ensures var k' := PutEventSorted(k, k.current, Waiters(id));
            Ordered(k'.events, k'.tcb, mutexes.Keys)
  {
    hide Inv, Ordered, Accounted, SortedPos, EventValues, InOrder, Matched, InUse;
    var c := k.current;
    var r := EventsOf(k, Waiters(id));
    var v := k.tcb[c].eventValue;
    assert FitOk(k.tcb[c]);
    ListedValues(k, mutexes, id);
    OrderOf(k.events, k.tcb, id, mutexes.Keys);
    PlacedInOrder(k.tcb, EventValues(k, r.items), r.items, c);
    assert InsertAt(r, c, SortedPos(EventValues(k, r.items), v)).items
        == Spread(r.items, c, SortedPos(EventValues(k, r.items), v));
    hide InsertAt, Spread;
    OrderedUpdate(k.events, k.tcb, Waiters(id), InsertAt(r, c, SortedPos(EventValues(k, r.items), v)), mutexes.Keys);
    RankFrame(k.events[Waiters(id) := InsertAt(r, c, SortedPos(EventValues(k, r.items), v))], k.tcb, c,
              k.tcb[c].(eventIn := Waiters(id)), mutexes.Keys);
  }

  lemma WaitRest(s: System, id: nat, ticks: nat)
    requires CallsInv(s) && Rest(s) && id in s.mutexes && s.mutexes[id].holder.Held?
             && s.mutexes[id].holder.task in s.k.tcb
    requires Running(s.k) && TcbOf(s.k, s.k.current).mutexesHeld == 0 && s.k.current !in s.retry
    requires Priority(s.k, s.k.current) <= Priority(s.k, s.mutexes[id].holder.task)
             && !InUse(TcbOf(s.k, s.k.current).eventValue)
    ensures Rest(s.(k := Ask(PlaceOnEventList(s.k, id, ticks), true)))
  {
    hide Inv, Accounted, Ordered, Bound, Retrying, PutEventSorted, DelayCurrent, InUse, Wrap;
    var k := s.k;
    var c := k.current;
    CurrentLive(k);
    var k1 := PutEventSorted(k, c, Waiters(id));
    PutOrdered(k, s.mutexes, id);
    PutTcb(k, id);
    DelayEffect(k1, ticks, true);
    SleepOrdered(k1, ticks, s.mutexes.Keys);
    SleepKeeps(k.tcb, DelayCurrent(k1, ticks, true).tcb, s.mutexes, s.retry, c);
  }

  lemma BlockRest(s: System, id: nat, ticks: nat)
    requires SysInv(s) && Legal(s, BlockCall(id, ticks)) && Disciplined(s, BlockCall(id, ticks))
             && s.mutexes[id].holder.Held?
    ensures Rest(BlockOn(s, id, ticks))
  {
    hide Inv, Accounted, Ranked, Ordered, Linked, Inherit, PlaceOnEventList, InUse;
    InheritRest(s, id);
    InheritKeeps(s, id);
    WaitRest(s.(k := Inherit(s.k, s.mutexes[id].holder.task)), id, ticks);
  }

  // ----- creating and deleting a mutex

  lemma CreateRest(s: System, id: nat, m: Mutex)
    requires SysInv(s) && id !in s.mutexes && WaitersOf(s.k, id) == [] && m.holder == Nobody
    ensures Rest(s.(mutexes := s.mutexes[id := m]))
  {
    NoWaiters(s.k, id);
    hide Inv, Accounted, Ranked, FitOk, Way, At;
    assert s.mutexes[id := m].Keys == s.mutexes.Keys + {id};
    assert At(s.k.events, Waiters(id)).items == [];
    assert forall x :: x in s.mutexes[id := m] && x != id ==> x in s.mutexes && s.mutexes[id := m][x] == s.mutexes[x];
  }

  lemma DeleteRest(s: System, id: nat)
    requires SysInv(s) && id in s.mutexes
    ensures Rest(s.(mutexes := s.mutexes - {id}))
  {
    hide Inv, Accounted, Ranked, FitOk, Way, At;
    assert (s.mutexes - {id}).Keys == s.mutexes.Keys - {id};
  }

  // ----- runs

  /** Every disciplined action keeps the bound. */
  lemma ActInv(s: System, a: Action)
    requires SysInv(s) && Legal(s, a) && Disciplined(s, a)
    ensures CallsInv(Act(s, a)) && SysInv(Act(s, a))
  {
    hide Inv, Accounted, Ranked, Enabled, Apart, Disciplined, Step, Take, BlockOn, Give, TimedOut, Running, InUse,
      Ordered, Linked;
    ActKeeps(s, a);
    NoPrioritySet(s, a);
    ActRanked(s, a);
    match a {
      case Other(op) => OtherRest(s, op);
      case TakeCall(id) => TakeRest(s, id);
      case BlockCall(id, ticks) => HeldWhenEmpty(s, id); BlockRest(s, id, ticks);
      case GiveCall(id) => GiveRest(s, id);
      case TimeoutCall(id) => HeldWhenEmpty(s, id); TimedOutRest(s, id);
      case CreateCall(id, recursive) => CreateRest(s, id, Mutex(1, Nobody, recursive, 0));
      case DeleteCall(id) => DeleteRest(s, id);
    }
  }

  lemma NoPrioritySet(s: System, a: Action)
    requires Disciplined(s, a)
    ensures !SetsPriority(a)
  {
  }

  ghost predicate AllDisciplined(s: System, actions: seq<Action>)
    requires CallsInv(s) && Follows(s, actions)
    decreases |actions|
  {
    actions == [] || (Disciplined(s, actions[0])
        && (ActKeeps(s, actions[0]); AllDisciplined(Act(s, actions[0]), actions[1..])))
  }

  lemma {:induction false} RunInv(s: System, actions: seq<Action>)
    requires SysInv(s) && Follows(s, actions) && AllDisciplined(s, actions)
    ensures SysInv(After(s, actions))
    decreases |actions|
  {
    hide CallsInv, Ranked, Ordered, Linked, Legal, Act, Disciplined;
    if actions != [] {
      ActKeeps(s, actions[0]);
      ActInv(s, actions[0]);
      RunInv(Act(s, actions[0]), actions[1..]);
    }
  }

  /** In every disciplined run, the holder of a mutex has at least the priority of every task on
      the waiting list of that mutex. */
  lemma InversionBound(s: System, actions: seq<Action>, id: nat)
    requires SysInv(s) && Follows(s, actions) && AllDisciplined(s, actions)
    ensures var s' := After(s, actions);
            id in s'.mutexes && s'.mutexes[id].holder.Held? ==>
              forall w :: w in WaitersOf(s'.k, id) ==> Priority(s'.k, w) <= Priority(s'.k, s'.mutexes[id].holder.task)
  {
    hide Accounted, Ranked, Ordered, Fit, Retrying, Follows, AllDisciplined, After;
    RunInv(s, actions);
    var s' := After(s, actions);
    forall w | w in WaitersOf(s'.k, id)
      ensures WaitsFor(s'.k.tcb, w, id)
    {
      WaiterWaits(s'.k, w, id);
    }
  }

  lemma WaiterWaits(k: State, w: Task, id: nat)
    requires Inv(k) && w in WaitersOf(k, id)
    ensures WaitsFor(k.tcb, w, id)
  {
    assert w in At(k.events, Waiters(id)).items;
  }

  /** A run can begin with all mutexes just created. */
  lemma StartedSystem(idle: Task, mutexes: map<nat, Mutex>)
    requires forall id :: id in mutexes ==> MutexOk(mutexes[id]) && mutexes[id].holder == Nobody
    ensures SysInv(System(Started(idle), mutexes, map[]))
  {
    hide Inv, Accounted;
    StartedCalls(idle, mutexes);
    assert forall id: nat :: At(Started(idle).events, Waiters(id)).items == [];
  }

  // ----- what one blocking call does to the bound

  /** The holder that is to inherit itself waits for a mutex, and inheritance stops at it: that
      mutex's holder stays below the caller. */
  predicate StopsShort(k: State, mutexes: map<nat, Mutex>, h: Task) {
    var p := Priority(k, k.current);
    var e := TcbOf(k, h).eventIn;
    && Priority(k, h) < p && e.Waiters? && e.id in mutexes && mutexes[e.id].holder.Held?
    && mutexes[e.id].holder.task != h && Priority(k, mutexes[e.id].holder.task) < p
  }

  lemma InheritBound(k: State, mutexes: map<nat, Mutex>, h: Task)
    requires Inv(k) && h in k.tcb && Bound(k.tcb, mutexes)
    requires forall id :: id in mutexes && mutexes[id].holder.Held? ==> mutexes[id].holder.task in k.tcb
    ensures Bound(Inherit(k, h).tcb, mutexes) <==> !StopsShort(k, mutexes, h)
  {
    hide Inv, Inherit, Bound, InUse;
    InheritEffect(k, h);
    CurrentLive(k);
    var tcb' := Inherit(k, h).tcb;
    if StopsShort(k, mutexes, h) {
      Outranked(tcb', mutexes, k.tcb[h].eventIn.id, h);
    } else {
      NotStopped(k, tcb', mutexes, h);
    }
  }

  lemma Outranked(tcb: Tcbs, mutexes: map<nat, Mutex>, id: nat, w: Task)
    requires id in mutexes && mutexes[id].holder.Held? && WaitsFor(tcb, w, id)
    requires TcbIn(tcb, mutexes[id].holder.task).priority < tcb[w].priority
    ensures !Bound(tcb, mutexes)
  {
  }

  lemma NotStopped(k: State, tcb': Tcbs, mutexes: map<nat, Mutex>, h: Task)
    requires Bound(k.tcb, mutexes) && !StopsShort(k, mutexes, h) && h in k.tcb && k.current in k.tcb
    requires forall id :: id in mutexes && mutexes[id].holder.Held? ==> mutexes[id].holder.task in k.tcb
    requires h in tcb' && tcb' == k.tcb[h := tcb'[h]] && tcb'[h].eventIn == k.tcb[h].eventIn
    requires tcb'[h].priority == Max(k.tcb[h].priority, Priority(k, k.current))
    ensures Bound(tcb', mutexes)
  {
    forall id, w | id in mutexes && mutexes[id].holder.Held? && WaitsFor(tcb', w, id)
      ensures tcb'[w].priority <= TcbIn(tcb', mutexes[id].holder.task).priority
    {
      assert WaitsFor(k.tcb, w, id);
    }
  }

  lemma BoundWith(tcb: Tcbs, tcb': Tcbs, mutexes: map<nat, Mutex>, c: Task, id: nat)
    requires c in tcb && c in tcb' && tcb' == tcb[c := tcb'[c]] && tcb'[c].priority == tcb[c].priority
    requires tcb[c].eventIn == NoEvent && tcb'[c].eventIn == Waiters(id)
    requires id in mutexes && mutexes[id].holder.Held?
             && tcb[c].priority <= TcbIn(tcb, mutexes[id].holder.task).priority
    ensures Bound(tcb', mutexes) <==> Bound(tcb, mutexes)
  {
    assert forall t :: TcbIn(tcb', t).priority == TcbIn(tcb, t).priority;
    assert forall x, w :: w != c ==> (WaitsFor(tcb', w, x) <==> WaitsFor(tcb, w, x));
    assert forall x :: WaitsFor(tcb', c, x) <==> x == id;
  }

  /** Among all callers and holders, whatever else they hold or wait for: a blocking call breaks
      the bound exactly when inheritance stops short. */
  lemma BlockingBound(s: System, id: nat, ticks: nat)
    requires CallsInv(s) && Legal(s, BlockCall(id, ticks)) && Bound(s.k.tcb, s.mutexes)
    ensures s.mutexes[id].holder.Held?
    ensures Bound(BlockOn(s, id, ticks).k.tcb, s.mutexes) <==> !StopsShort(s.k, s.mutexes, s.mutexes[id].holder.task)
  {
    hide Inv, CountOk, Inherit, PlaceOnEventList, InUse, Bound, StopsShort;
    HeldWhenEmpty(s, id);
    var h := s.mutexes[id].holder.task;
    var k1 := Inherit(s.k, h);
    HolderIs(s, id);
    InheritBound(s.k, s.mutexes, h);
    InheritEffect(s.k, h);
    InheritKeeps(s, id);
    CurrentLive(s.k);
    CurrentLive(k1);
    WaitCounts(k1, s.mutexes, id, ticks);
    BoundWith(k1.tcb, BlockOn(s, id, ticks).k.tcb, s.mutexes, k1.current, id);
  }

  /** Task 0, of base priority 1, holds mutex 0 and has inherited priority 2 from task 1, which
      waits for it while holding mutex 1; task 2, of priority 3, is running. */
  const LENDER: Tcb := Tcb(2, 1, 1, 0, 13, Ready(2), NoEvent, false)
  const MIDDLE: Tcb := Tcb(2, 2, 1, 0, 13, Suspended, Waiters(0), false)
  const CALLER: Tcb := Tcb(3, 3, 0, 0, 12, Ready(3), NoEvent, false)

  function ChainTcbs(): Tcbs {
    map[0 := LENDER, 1 := MIDDLE, 2 := CALLER]
  }

  function ChainLists(): StateLists {
    map[Ready(2) := Ring([0], 1), Ready(3) := Ring([2], 1), Suspended := Ring([1], 0)]
  }

  function ChainEvents(): EventLists {
    map[Waiters(0) := Ring([1], 0)]
  }

  function Chain(): System {
    System(Still(ChainTcbs(), ChainLists(), ChainEvents(), 2, 3),
           map[0 := Mutex(0, Held(0), false, 0), 1 := Mutex(0, Held(1), false, 0)], map[])
  }

  lemma ChainPlaced()
    ensures Placed(ChainTcbs(), ChainLists())
  {
  }

  lemma ChainQueued()
    ensures Queued(ChainTcbs(), ChainEvents())
  {
  }

  lemma ChainInv()
    ensures Inv(Chain().k)
  {
    hide Inv, Placed, Queued;
    ChainPlaced();
    ChainQueued();
    StillInv(ChainTcbs(), ChainLists(), ChainEvents(), 2, 3);
  }

  lemma ChainHeld()
    ensures HeldBy(Chain().mutexes, 0) == {0} && HeldBy(Chain().mutexes, 1) == {1} && HeldBy(Chain().mutexes, 2) == {}
  {
  }

  lemma ChainTasks(t: Task)
    requires t in Chain().k.tcb
    ensures CountOk(Chain().k.tcb[t], |HeldBy(Chain().mutexes, t)|) && RankOk(Chain().k.tcb[t])
            && !InUse(Chain().k.tcb[t].eventValue)
  {
    ChainHeld();
    hide HeldBy;
  }

  lemma ChainCounts()
    ensures Accounted(Chain().k.tcb, Chain().mutexes) && Ranked(Chain().k.tcb)
  {
    hide CountOk, RankOk, InUse, HeldBy;
    forall t | t in Chain().k.tcb
      ensures CountOk(Chain().k.tcb[t], |HeldBy(Chain().mutexes, t)|) && RankOk(Chain().k.tcb[t])
              && !InUse(Chain().k.tcb[t].eventValue)
    {
      ChainTasks(t);
    }
  }

  lemma ChainReady()
    ensures Bound(Chain().k.tcb, Chain().mutexes) && Running(Chain().k)
    ensures StopsShort(Chain().k, Chain().mutexes, 1)
  {
  }

  /** There, the wait of task 2 for mutex 1 lifts task 1 above the holder it waits for: this is
      why holders must not wait. */
  lemma ChainBreaks(ticks: nat)
    requires 1 <= ticks < MODULUS
    ensures CallsInv(Chain()) && Ranked(Chain().k.tcb) && Bound(Chain().k.tcb, Chain().mutexes)
    ensures Legal(Chain(), BlockCall(1, ticks)) && !Bound(BlockOn(Chain(), 1, ticks).k.tcb, Chain().mutexes)
  {
    hide Inv, Accounted, Ranked, Bound, BlockOn, Running, InUse, CountOk, RankOk, StopsShort;
    ChainInv();
    ChainCounts();
    ChainReady();
    ChainTasks(2);
    BlockingBound(Chain(), 1, ticks);
  }

  // ----- a time-out on the caller's own mutex

  /** vTaskPriorityDisinheritAfterTimeout asserts that a holder it moves is not its caller. */
  predicate TimeoutAsserted(s: System, id: nat)
    requires id in s.mutexes && s.mutexes[id].holder.Held?
  {
    var h := s.mutexes[id].holder.task;
    var b := TcbOf(s.k, h);
    b.priority != Max(b.base, HighestWaiting(s.k, id)) && b.mutexesHeld == 1 ==> h != s.k.current
  }

  /** The assertion fails exactly when the mutex that was not to be had is the only one its
      caller holds, and the caller's priority is not the one that is left to it. */
  lemma TimeoutAssertedExactly(s: System, id: nat)
    requires CallsInv(s) && Legal(s, TimeoutCall(id))
    ensures s.mutexes[id].holder.Held?
    ensures !TimeoutAsserted(s, id) <==>
              && HeldBy(s.mutexes, s.k.current) == {id}
              && Priority(s.k, s.k.current) != Max(TcbOf(s.k, s.k.current).base, HighestWaiting(s.k, id))
    ensures TimeoutAsserted(s, id) && s.mutexes[id].holder == Held(s.k.current) ==> TimedOut(s, id) == s
  {
    hide Inv, Accounted, HighestWaiting, Reprioritise, ResetEventValue, HeldBy;
    HeldWhenEmpty(s, id);
    CurrentLive(s.k);
    HeldCount(s, s.k.current);
    OnlyOne(s.mutexes, s.k.current, id);
  }

  lemma OnlyOne(mutexes: map<nat, Mutex>, t: Task, id: nat)
    requires id in mutexes
    ensures HeldBy(mutexes, t) == {id} <==> mutexes[id].holder == Held(t) && |HeldBy(mutexes, t)| == 1
  {
    if mutexes[id].holder == Held(t) && |HeldBy(mutexes, t)| == 1 {
      HoldsOne(mutexes, t, id);
    }
  }

  /** Task 0, of base priority 1, inherited priority 3 from task 1 and then waited for its own
      mutex; task 1 has timed out first, which left task 0 at the priority of the head of the
      list, itself. */
  const OWNER: Tcb := Tcb(3, 1, 1, 0, 12, Ready(3), NoEvent, false)
  const LENT: Tcb := Tcb(3, 3, 0, 0, 12, Ready(3), NoEvent, false)

  function OwnTcbs(): Tcbs {
    map[0 := OWNER, 1 := LENT]
  }

  function OwnLists(): StateLists {
    map[Ready(3) := Ring([0, 1], 1)]
  }

  function Own(): System {
    System(Still(OwnTcbs(), OwnLists(), map[], 0, 3), map[0 := Mutex(0, Held(0), false, 0)], map[])
  }

  lemma OwnPlaced()
    ensures Placed(OwnTcbs(), OwnLists())
  {
    assert forall l :: At(OwnLists(), l).items == if l == Ready(3) then [0, 1] else [];
    assert 0 in [0, 1] && 1 in [0, 1];
  }

  lemma OwnQueued()
    ensures Queued(OwnTcbs(), map[])
  {
  }

  lemma OwnCounts()
    ensures Accounted(Own().k.tcb, Own().mutexes) && Ranked(Own().k.tcb)
  {
    assert HeldBy(Own().mutexes, 0) == {0};
    assert HeldBy(Own().mutexes, 1) == {};
  }

  lemma OwnInv()
    ensures Inv(Own().k)
  {
    hide Inv, Placed, Queued;
    OwnPlaced();
    OwnQueued();
    StillInv(OwnTcbs(), OwnLists(), map[], 0, 3);
  }

  lemma OwnFacts()
    ensures 0 in Own().mutexes && Own().mutexes[0] == Mutex(0, Held(0), false, 0)
    ensures Own().k.current == 0 && TcbOf(Own().k, 0) == OWNER && HighestWaiting(Own().k, 0) == 0
  {
  }

  lemma OwnFails()
    ensures 0 in Own().mutexes && Own().mutexes[0].holder.Held? && Own().mutexes[0].count == 0
            && !TimeoutAsserted(Own(), 0)
  {
    hide Own, HighestWaiting;
    OwnFacts();
  }

  /** There, the time-out of task 0 runs into the assertion. */
  lemma OwnTimeoutFails()
    ensures 0 in Own().mutexes && Own().mutexes[0].holder.Held? && !TimeoutAsserted(Own(), 0)
    ensures CallsInv(Own()) && Ranked(Own().k.tcb) && Legal(Own(), TimeoutCall(0))
  {
    hide Inv, Accounted, Ranked, Own, TimeoutAsserted;
    OwnInv();
    OwnCounts();
    OwnFails();
  }
}
