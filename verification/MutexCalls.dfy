/** What each call on a mutex does, in full, and who holds it over whole runs. */
module MutexCalls {
  import opened Words
  import opened Kernel
  import opened KernelInvariants
  import opened KernelTime
  import opened KernelOps
  import opened KernelRuns
  import opened KernelEffects
  import opened Mutexes

  function TakenBy(m: Mutex, t: Task, depth: nat): Mutex {
    m.(count := 0, holder := Held(t), depth := depth)
  }

  /** A mutex that nobody holds becomes the caller's; a recursive one that is the caller's goes one
      level deeper; any other take changes nothing. The scheduler only counts. */
  lemma TakeExact(s: System, id: nat)
    requires CallsInv(s) && id in s.mutexes && Running(s.k)
    ensures var s' := Take(s, id);
            var c := s.k.current;
            var m := s.mutexes[id];
            && s'.retry == s.retry - {c}
            && if m.holder == Nobody
               then s'.mutexes == s.mutexes[id := TakenBy(m, c, if m.recursive then 1 else 0)]
                    && s'.k == s.k.(tcb := s.k.tcb[c := s.k.tcb[c].(mutexesHeld := s.k.tcb[c].mutexesHeld + 1)])
               else if m.recursive && m.holder == Held(c)
               then s'.mutexes == s.mutexes[id := TakenBy(m, c, m.depth + 1)] && s'.k == s.k
               else s'.mutexes == s.mutexes && s'.k == s.k
  {
    hide Inv, HeldBy, CountOk;
    CurrentLive(s.k);
    assert MutexOk(s.mutexes[id]);
  }

  /** The caller waits, in order of priority, on the waiting list, until its time has passed; the
      holder has at least its priority; no other task changes. */
  lemma BlockExact(s: System, id: nat, ticks: nat)
    requires CallsInv(s) && Legal(s, BlockCall(id, ticks))
    ensures s.mutexes[id].holder.Held?
    ensures var h := s.mutexes[id].holder.task;
            var c := s.k.current;
            var k1 := Inherit(s.k, h);
            var s' := BlockOn(s, id, ticks);
            && s' == s.(k := s'.k) && h in k1.tcb && c in s'.k.tcb && k1.current == c
            && k1.tcb[h].priority == Max(s.k.tcb[h].priority, s.k.tcb[c].priority)
            && s'.k.tcb == k1.tcb[c := s'.k.tcb[c]] && s'.k.tcb[c].eventIn == Waiters(id)
            && FallsAsleep(k1, s'.k, ticks == MAX_DELAY)
            && JoinsByValue(k1.tcb, EventsOf(k1, Waiters(id)), EventsOf(s'.k, Waiters(id)), c, OwnValue(k1))
            && (ticks != MAX_DELAY ==> WakeAt(s'.k, c) == s.k.tick + ticks)
            && s'.k.yieldAsked
  {
    hide Inv, Accounted, Inherit, InUse, Step, FallsAsleep, JoinsByValue, ListOf, WakeAt, MovesIfReady, Following,
      Running, EventsOf;
    HeldWhenEmpty(s, id);
    HolderIs(s, id);
    CurrentLive(s.k);
    var k1 := Inherit(s.k, s.mutexes[id].holder.task);
    InheritKeeps(s, id);
    InheritInv(s.k, s.mutexes[id].holder.task);
    BlockedExact(k1, Wait(id, ticks));
    StepIsWait(k1, id, ticks);
  }

  lemma StepIsWait(k: State, id: nat, ticks: nat)
    requires Inv(k) && Running(k) && 1 <= ticks < MODULUS
    ensures Step(k, Wait(id, ticks)) == Ask(PlaceOnEventList(k, id, ticks), true)
  {
    hide Inv, Running, PlaceOnEventList;
  }

  /** The outermost give frees the mutex, and the giver holds one less. */
  ghost predicate Freed(s: System, s': System, id: nat)
    requires id in s.mutexes
  {
    s'.mutexes == s.mutexes[id := s.mutexes[id].(count := 1, holder := Nobody, depth := 0)]
  }

  /** With nobody waiting, the giver alone changes: it is back at its base priority if that was
      its last mutex, and then yields if it had inherited. */
  lemma GiveAlone(s: System, id: nat)
    requires CallsInv(s) && Legal(s, GiveCall(id)) && WaitersOf(s.k, id) == []
    requires !(s.mutexes[id].recursive && s.mutexes[id].depth > 1)
    ensures TcbOf(s.k, s.k.current).mutexesHeld > 0
    ensures var s' := Give(s, id);
            var k1 := Disinherit(s.k);
            && Freed(s, s', id) && s'.retry == s.retry && s'.k == k1.(yieldAsked := s'.k.yieldAsked)
            && (s'.k.yieldAsked <==> s.k.yieldAsked || k1.tcb[s.k.current].priority != s.k.tcb[s.k.current].priority)
  {
    hide Inv, Accounted, Disinherit, MovesIfReady, InUse, EventsOf;
    HolderIs(s, id);
    CurrentLive(s.k);
    DisinheritInv(s.k);
    DisinheritEffect(s.k);
    SameWaiters(s.k, Disinherit(s.k), id);
    ReadyFacts(s.k, s.k.current);
  }

  function WokenWaiter(k: State, w: Task): Tcb {
    var b := TcbOf(k, w);
    if k.suspended == 0 then b.(stateIn := Ready(b.priority), eventIn := NoEvent) else b.(eventIn := Pending)
  }

  lemma HeadWoken(k: State, id: nat)
    requires Inv(k) && WaitersOf(k, id) != []
    ensures var w := WaitersOf(k, id)[0];
            var k' := RemoveFromEventList(k, id);
            && w in k.tcb && k'.tcb == k.tcb[w := WokenWaiter(k, w)] && k'.yieldAsked == k.yieldAsked
            && (k'.yieldPending <==> k.yieldPending || Priority(k, w) > Priority(k, k.current))
  {
    hide Inv, RemoveFromEventList, Moves, Leaves, Pends, EventsOf;
    RemoveFromEventListInv(k, id);
  }

  /** The task at the head of the waiting list, of the highest priority, is woken to try again; the
      give asks for a switch if it outranks what the giver is left with. */
  lemma GiveWakes(s: System, id: nat)
    requires CallsInv(s) && Legal(s, GiveCall(id)) && WaitersOf(s.k, id) != []
    requires !(s.mutexes[id].recursive && s.mutexes[id].depth > 1)
    ensures TcbOf(s.k, s.k.current).mutexesHeld > 0
    ensures var s' := Give(s, id);
            var k1 := Disinherit(s.k);
            var w := WaitersOf(s.k, id)[0];
            && Freed(s, s', id) && s'.retry == s.retry[w := id]
            && k1.tcb == s.k.tcb[s.k.current := TcbOf(k1, s.k.current)]
            && s'.k.tcb == k1.tcb[w := WokenWaiter(k1, w)]
            && (s'.k.yieldAsked <==> s.k.yieldAsked || Priority(k1, w) > Priority(k1, s.k.current))
            && (s'.k.yieldPending <==> s.k.yieldPending || Priority(k1, w) > Priority(k1, s.k.current))
  {
    hide Inv, Accounted, Disinherit, RemoveFromEventList, InUse, EventsOf, WaitersOf, WokenWaiter, Moved;
    HolderIs(s, id);
    DisinheritEffect(s.k);
    SameFlags(s.k);
    SameWaiters(s.k, Disinherit(s.k), id);
    HeadWoken(Disinherit(s.k), id);
  }

  lemma SameWaiters(k: State, k1: State, id: nat)
    requires k1.events == k.events
    ensures WaitersOf(k1, id) == WaitersOf(k, id)
  {
  }

  lemma SameFlags(k: State)
    requires Inv(k) && TcbOf(k, k.current).mutexesHeld > 0
    ensures var k1 := Disinherit(k);
            k1.yieldAsked == k.yieldAsked && k1.yieldPending == k.yieldPending
  {
    hide Inv, Disinherit, MovesIfReady;
    DisinheritInv(k);
  }

  /** A time-out leaves a holder of this mutex alone at the higher of its base priority and the
      highest priority still waiting for it, and moves it to match; nothing else changes. */
  lemma TimedOutExact(s: System, id: nat)
    requires CallsInv(s) && id in s.mutexes && s.mutexes[id].holder.Held?
    ensures s.mutexes[id].holder.task in s.k.tcb
    ensures var s' := TimedOut(s, id);
            var h := s.mutexes[id].holder.task;
            var b := s.k.tcb[h];
            var p := Max(b.base, HighestWaiting(s.k, id));
            && s' == s.(k := s'.k)
            && if |HeldBy(s.mutexes, h)| != 1 || b.priority == p then s'.k == s.k
               else s'.k.tcb == s.k.tcb[h := InheritedTcb(b, p)] && MovesIfReady(s.k, s'.k, h, p)
                    && s'.k == s.k.(tcb := s'.k.tcb, lists := s'.k.lists, top := s'.k.top)
  {
    hide Inv, DisinheritAfterTimeout, HighestWaiting, MovesIfReady, InUse, HeldBy, ValueOk;
    var h := s.mutexes[id].holder.task;
    HolderIs(s, id);
    HighestBelow(s, id);
    assert CountOk(s.k.tcb[h], |HeldBy(s.mutexes, h)|);
    DisinheritAfterTimeoutInv(s.k, h, HighestWaiting(s.k, id));
  }

  // ----- mutual exclusion

  function HolderAfter(s: System, a: Action, id: nat): Holder
    requires id in s.mutexes
  {
    var m := s.mutexes[id];
    if a == TakeCall(id) && m.holder == Nobody then Held(s.k.current)
    else if a == GiveCall(id) && !(m.recursive && m.depth > 1) then Nobody
    else m.holder
  }

  /** Only a take of a free mutex gives it a holder, and that is the caller; only the holder's own
      outermost give takes the holder away. */
  lemma ActHolder(s: System, a: Action, id: nat)
    requires CallsInv(s) && Legal(s, a) && id in s.mutexes && a != DeleteCall(id)
    ensures var s' := Act(s, a);
            && id in s'.mutexes && s'.mutexes[id].holder == HolderAfter(s, a, id)
            && (a == GiveCall(id) ==> s.mutexes[id].holder == Held(s.k.current))
  {
    hide Inv, Enabled, Apart, Step, Inherit, PlaceOnEventList, Disinherit, RemoveFromEventList, DisinheritAfterTimeout,
      InUse, CountOk, WaitersOf, HighestWaiting;
    assert MutexOk(s.mutexes[id]);
    if a.GiveCall? {
      GiveKeeps(s, a.id);
    } else if a.BlockCall? || a.TimeoutCall? {
      HeldWhenEmpty(s, a.id);
    }
  }

  /** In every run: a task that holds a mutex is its only holder until it gives it back itself. */
  lemma {:induction false} HeldUntilGiven(s: System, actions: seq<Action>, id: nat, t: Task)
    requires CallsInv(s) && Follows(s, actions) && id in s.mutexes && s.mutexes[id].holder == Held(t)
    requires GiveCall(id) !in actions
    ensures var s' := After(s, actions);
            id in s'.mutexes && s'.mutexes[id].holder == Held(t) && t in s'.k.tcb && s'.k.tcb[t].mutexesHeld > 0
    decreases |actions|
  {
    hide CallsInv, Act;
    if actions == [] {
      HolderIs(s, id);
    } else {
      ActKeeps(s, actions[0]);
      ActHolder(s, actions[0], id);
      HeldUntilGiven(Act(s, actions[0]), actions[1..], id, t);
    }
  }
}
