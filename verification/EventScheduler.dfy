/** An event group on the scheduler: its waiting list is an event list of the kernel, and what a
    set call hands over is the item value of the task it wakes. */
module EventScheduling {
  import opened Words
  import opened Kernel
  import opened KernelInvariants
  import opened KernelTime
  import opened KernelOps
  import opened KernelRuns
  import opened KernelEffects
  import opened ItemValues
  import B = EventBits
  import G = EventGroups

  datatype System = System(k: State, g: G.Group)

  function Number(v: bv32): nat {
    v as nat
  }

  /** Who waits in the group is who is on its event list, with the same item value; a task that
      has been handed something has that in its item. */
  ghost predicate Linked(tcb: Tcbs, g: G.Group, id: nat) {
    && (forall t :: G.Waits(g.waiting, t) <==> t in tcb && tcb[t].eventIn == Waiters(id))
    && (forall w :: w in g.waiting ==> w.task in tcb && tcb[w.task].eventValue == Number(w.value))
    && (forall t :: t in g.handed ==> t in tcb && tcb[t].eventValue == Number(g.handed[t]))
  }

  ghost predicate SystemInv(s: System, id: nat) {
    Inv(s.k) && G.Inv(s.g) && Linked(s.k.tcb, s.g, id)
  }

  // ----- the calls

  /** What xEventGroupSetBits does to the tasks whose condition it has found to hold. */
  function WakeAll(k: State, ws: seq<B.Waiter>, value: nat): State
    decreases ws
  {
    if ws == [] then k else WakeAll(RemoveFromUnordered(k, ws[0].task, value), ws[1..], value)
  }

  function SetRegion(s: System, bits: bv32): System {
    var b := B.Or(s.g.bits, bits);
    System(WakeAll(s.k, B.Woken(s.g.waiting, b), Number(b | B.UNBLOCKED)), G.SetBits(s.g, bits))
  }

  /** The value handed to vTaskPlaceOnUnorderedEventList. */
  function WaitValue(mask: bv32, clear: bool, all: bool): bv32 {
    mask | (if clear then B.CLEAR_ON_EXIT else 0) | (if all then B.WAIT_FOR_ALL else 0)
  }

  function Blocked(k: State, id: nat, mask: bv32, clear: bool, all: bool, ticks: nat): State {
    Ask(PlaceOnUnorderedEventList(k, id, Number(WaitValue(mask, clear, all)), ticks), true)
  }

  function WaitRegion(s: System, id: nat, mask: bv32, clear: bool, all: bool, ticks: nat): System {
    System(if B.TestWaitCondition(s.g.bits, mask, all) || ticks == 0 then s.k
           else Blocked(s.k, id, mask, clear, all, ticks),
           G.WaitBits(s.g, s.k.current, mask, clear, all, ticks > 0))
  }

  function SyncRegion(s: System, id: nat, bits: bv32, mask: bv32, ticks: nat): System {
    var s1 := SetRegion(s, bits);
    System(if B.Covers(B.Or(s.g.bits, bits), mask) || ticks == 0 then s1.k
           else Blocked(s1.k, id, mask, true, true, ticks),
           G.Sync(s.g, s.k.current, bits, mask, ticks > 0))
  }

  /** The waiting tasks that a kernel action has taken off the event list leave the group. */
  function Departed(g: G.Group, ws: seq<B.Waiter>, tcb: Tcbs, id: nat): G.Group
    decreases ws
  {
    if ws == [] then g
    else
      var t := ws[0].task;
      Departed(if TcbIn(tcb, t).eventIn != Waiters(id) && G.Waits(g.waiting, t) then G.Expire(g, t) else g,
          ws[1..], tcb, id)
  }

  /** Calls on the group by the running task, the first two from an interrupt's deferred
      function as well, and everything else the kernel does. */
  datatype Action =
    | SetCall(bits: bv32)
    | ClearCall(bits: bv32)
    | WaitCall(mask: bv32, clear: bool, all: bool, ticks: nat)
    | SyncCall(bits: bv32, mask: bv32, ticks: nat)
    | FinishCall(mask: bv32, clear: bool, all: bool)
    | Other(op: Op)

  predicate Tracked(g: G.Group, t: Task) {
    G.Waits(g.waiting, t) || t in g.handed
  }

  /** The event list belongs to the calls on the group, and no other action overwrites the item
      value of a task that is inside one of them. */
  ghost predicate Apart(s: System, op: Op, id: nat)
    requires Enabled(s.k, op)
  {
    && (op.Wait? || op.WaitUnordered? || op.WaitRestricted? || op.Wake? ==> op.id != id)
    && (op.WakeUnordered? ==> TcbOf(s.k, op.task).eventIn != Waiters(id))
    && forall t :: Tracked(s.g, t) ==> !Overwrites(s.k, op, t)
  }

  ghost predicate Calls(s: System, mask: bv32, ticks: nat) {
    && s.k.suspended > 0 && Running(s.k) && s.k.current !in s.g.handed && B.Plain(mask) && mask != 0
    && ticks < MODULUS
  }

  ghost predicate Legal(s: System, a: Action, id: nat) {
    match a
    case SetCall(bits) => s.k.suspended > 0 && B.Plain(bits)
    case ClearCall(bits) => B.Plain(bits)
    case WaitCall(mask, _, _, ticks) => Calls(s, mask, ticks)
    case SyncCall(bits, mask, ticks) => Calls(s, mask, ticks) && B.Plain(bits)
    case FinishCall(_, _, _) => s.k.current in s.g.handed
    case Other(op) => Enabled(s.k, op) && Apart(s, op, id)
  }

  ghost function Act(s: System, a: Action, id: nat): System
    requires SystemInv(s, id) && Legal(s, a, id)
  {
    match a
    case SetCall(bits) => SetRegion(s, bits)
    case ClearCall(bits) => s.(g := G.ClearBits(s.g, bits))
    case WaitCall(mask, clear, all, ticks) => WaitRegion(s, id, mask, clear, all, ticks)
    case SyncCall(bits, mask, ticks) => SyncRegion(s, id, bits, mask, ticks)
    case FinishCall(mask, clear, all) => System(ResetItem(s.k), G.Resume(s.g, s.k.current, mask, clear, all))
    case Other(op) => var k' := Step(s.k, op); System(k', Departed(s.g, s.g.waiting, k'.tcb, id))
  }

  // ----- a set call wakes exactly whom it should

  function WokenTcb(b: Tcb, value: nat): Tcb {
    b.(eventValue := MarkInUse(value), stateIn := Ready(b.priority), eventIn := NoEvent)
  }

  ghost predicate Live(tcb: Tcbs, ws: seq<B.Waiter>) {
    forall w :: w in ws ==> w.task in tcb && tcb[w.task].stateIn != Terminated
  }

  lemma WaitsCons(ws: seq<B.Waiter>, t: Task)
    requires ws != []
    ensures G.Waits(ws, t) <==> t == ws[0].task || G.Waits(ws[1..], t)
  {
    assert ws == [ws[0]] + ws[1..];
    if t == ws[0].task {
      assert ws[0] in ws;
    }
  }

  lemma {:induction false} WakeAllEffect(k: State, ws: seq<B.Waiter>, value: nat)
    requires Inv(k) && Live(k.tcb, ws)
    ensures var k' := WakeAll(k, ws, value);
            && Inv(k') && k'.tcb.Keys == k.tcb.Keys && k'.current == k.current && k'.suspended == k.suspended
            && forall t :: t in k.tcb ==>
                 k'.tcb[t] == if G.Waits(ws, t) then WokenTcb(k.tcb[t], value) else k.tcb[t]
    decreases |ws|
  {
    hide Inv, RemoveFromUnordered, MarkInUse, ListOf, EventsOf, Moves, Leaves;
    if ws != [] {
      var k1 := RemoveFromUnordered(k, ws[0].task, value);
      assert ws[0] in ws;
      RemoveFromUnorderedInv(k, ws[0].task, value);
      assert forall w :: w in ws[1..] ==> w in ws;
      WakeAllEffect(k1, ws[1..], value);
      forall t | t in k.tcb
        ensures G.Waits(ws, t) <==> t == ws[0].task || G.Waits(ws[1..], t)
      {
        WaitsCons(ws, t);
      }
    }
  }

  lemma HandedNumber(b: bv32)
    ensures MarkInUse(Number(b | B.UNBLOCKED)) == Number(B.HandedValue(b))
  {
    B.MarkedValue(b | B.UNBLOCKED);
  }

  lemma WaitNumber(mask: bv32, clear: bool, all: bool)
    ensures MarkInUse(Number(WaitValue(mask, clear, all))) == Number(B.ItemValue(mask, clear, all))
  {
    B.MarkedValue(WaitValue(mask, clear, all));
  }

  lemma BlockedLive(k: State, t: Task)
    requires Inv(k) && t in k.tcb && k.tcb[t].eventIn != NoEvent
    ensures k.tcb[t].stateIn != Terminated && !k.tcb[t].stateIn.Ready?
  {
  }

  lemma WaitersLive(s: System, id: nat, b: bv32)
    requires SystemInv(s, id)
    ensures Live(s.k.tcb, B.Woken(s.g.waiting, b))
  {
    hide Inv, G.Inv, B.Met, B.Woken;
    B.WakesExactly(s.g.waiting, b);
    forall w | w in B.Woken(s.g.waiting, b)
      ensures w.task in s.k.tcb && s.k.tcb[w.task].stateIn != Terminated
    {
      assert G.Waits(s.g.waiting, w.task);
      BlockedLive(s.k, w.task);
    }
  }

  /** `t` waits in the group for a condition that the bits `b` satisfy. */
  ghost predicate MetBy(ws: seq<B.Waiter>, t: Task, b: bv32) {
    exists w :: w in ws && w.task == t && B.Met(w.value, b)
  }

  lemma WokenWaits(ws: seq<B.Waiter>, b: bv32)
    ensures forall t :: G.Waits(B.Woken(ws, b), t) <==> MetBy(ws, t, b)
    ensures forall w :: w in B.StillWaiting(ws, b) <==> w in ws && !B.Met(w.value, b)
  {
    hide B.Met, B.Woken, B.StillWaiting;
    B.WakesExactly(ws, b);
  }

  function HandedTcb(b: Tcb, bits: bv32): Tcb {
    b.(stateIn := Ready(b.priority), eventIn := NoEvent, eventValue := Number(B.HandedValue(bits)))
  }

  /** On the scheduler: exactly the tasks that wait in the group for a condition that the old and
      new bits satisfy together become ready, leave the event list and find those bits in their
      items. */
  lemma SetOnScheduler(s: System, bits: bv32, id: nat)
    requires SystemInv(s, id)
    ensures var k' := SetRegion(s, bits).k;
            var b := B.Or(s.g.bits, bits);
            && Inv(k') && k'.tcb.Keys == s.k.tcb.Keys && k'.current == s.k.current && k'.suspended == s.k.suspended
            && forall t :: t in s.k.tcb ==>
                 k'.tcb[t] == if MetBy(s.g.waiting, t, b) then HandedTcb(s.k.tcb[t], b) else s.k.tcb[t]
  {
    hide Inv, G.Inv, Linked, B.Met, B.Woken, B.Or, B.HandedValue, MarkInUse, Number, WakeAll, G.SetBits, G.Waits, MetBy;
    var b := B.Or(s.g.bits, bits);
    var value := Number(b | B.UNBLOCKED);
    HandedNumber(b);
    WaitersLive(s, id, b);
    WakeAllEffect(s.k, B.Woken(s.g.waiting, b), value);
    WokenWaits(s.g.waiting, b);
  }

  lemma MetIsWaiting(ws: seq<B.Waiter>, t: Task, b: bv32)
    requires MetBy(ws, t, b)
    ensures G.Waits(ws, t)
  {
    hide B.Met;
  }

  lemma MetAlone(g: G.Group, t: Task, b: bv32, w: B.Waiter)
    requires G.Inv(g) && w in g.waiting && w.task == t
    ensures MetBy(g.waiting, t, b) <==> B.Met(w.value, b)
  {
    hide B.Met, B.Plain, B.Flagged, B.WasUnblocked;
  }

  /** In the group: who still waits, and who has been handed what. */
  lemma SetInGroup(g: G.Group, bits: bv32, t: Task)
    requires G.Inv(g)
    ensures var b := B.Or(g.bits, bits);
            var g' := G.SetBits(g, bits);
            && (G.Waits(g'.waiting, t) <==> G.Waits(g.waiting, t) && !MetBy(g.waiting, t, b))
            && (forall w :: w in g'.waiting ==> w in g.waiting && !B.Met(w.value, b))
            && (t in g'.handed <==> t in g.handed || MetBy(g.waiting, t, b))
            && (t in g'.handed ==>
                  g'.handed[t] == if MetBy(g.waiting, t, b) then B.HandedValue(b) else g.handed[t])
  {
    hide G.Inv, B.Met, B.ClearMask, B.StillWaiting, B.Woken, B.HandedValue, G.Hand, B.Or, B.Without, MetBy;
    var b := B.Or(g.bits, bits);
    WokenWaits(g.waiting, b);
    G.HandFacts(g.handed, B.Woken(g.waiting, b), B.HandedValue(b));
    if G.Waits(g.waiting, t) {
      var w :| w in g.waiting && w.task == t;
      MetAlone(g, t, b, w);
      if !B.Met(w.value, b) {
        assert w in B.StillWaiting(g.waiting, b);
      }
    }
    forall w | w in B.StillWaiting(g.waiting, b)
      ensures !MetBy(g.waiting, w.task, b)
    {
      MetAlone(g, w.task, b, w);
    }
  }

  lemma SetLinks(s: System, bits: bv32, id: nat)
    requires SystemInv(s, id) && B.Plain(bits)
    ensures SystemInv(SetRegion(s, bits), id)
  {
    hide Inv, G.Inv, B.Met, B.HandedValue, Number, WakeAll, G.SetBits, B.Plain, B.Or, MetBy, G.Waits;
    var s' := SetRegion(s, bits);
    SetOnScheduler(s, bits, id);
    G.SetBitsInv(s.g, bits);
    forall t
      ensures G.Waits(s'.g.waiting, t) <==> t in s'.k.tcb && s'.k.tcb[t].eventIn == Waiters(id)
    {
      SetInGroup(s.g, bits, t);
    }
    forall t | t in s'.g.handed
      ensures t in s'.k.tcb && s'.k.tcb[t].eventValue == Number(s'.g.handed[t])
    {
      SetInGroup(s.g, bits, t);
      if MetBy(s.g.waiting, t, B.Or(s.g.bits, bits)) {
        MetIsWaiting(s.g.waiting, t, B.Or(s.g.bits, bits));
      }
    }
    forall w | w in s'.g.waiting
      ensures w.task in s'.k.tcb && s'.k.tcb[w.task].eventValue == Number(w.value)
    {
      SetInGroup(s.g, bits, w.task);
      MetAlone(s.g, w.task, B.Or(s.g.bits, bits), w);
    }
  }

  // ----- blocking, and reading back

  lemma BlockedOnScheduler(k: State, id: nat, mask: bv32, clear: bool, all: bool, ticks: nat)
    requires Inv(k) && Running(k) && k.suspended > 0 && 1 <= ticks < MODULUS
    ensures var k' := Blocked(k, id, mask, clear, all, ticks);
            && Inv(k') && k.current in k'.tcb && k'.tcb == k.tcb[k.current := k'.tcb[k.current]]
            && k'.tcb[k.current].eventIn == Waiters(id)
            && k'.tcb[k.current].eventValue == Number(B.ItemValue(mask, clear, all))
  {
    hide Inv, B.ItemValue, Number, WaitValue, MarkInUse, Step, FallsAsleep, Queues, WakeAt, Running;
    var op := WaitUnordered(id, Number(WaitValue(mask, clear, all)), ticks);
    RunningWaitsNot(k);
    StepInv(k, op);
    BlockedExact(k, op);
    StepIsBlocked(k, id, mask, clear, all, ticks);
    WaitNumber(mask, clear, all);
  }

  lemma BlockLinks(s: System, id: nat, mask: bv32, clear: bool, all: bool, ticks: nat)
    requires SystemInv(s, id) && Calls(s, mask, ticks) && ticks > 0 && !B.TestWaitCondition(s.g.bits, mask, all)
    ensures SystemInv(System(Blocked(s.k, id, mask, clear, all, ticks),
                             G.Block(s.g, s.k.current, B.ItemValue(mask, clear, all))), id)
  {
    hide Inv, G.Inv, B.Plain, B.TestWaitCondition, B.ItemValue, Number, Blocked, Running;
    RunningWaitsNot(s.k);
    BlockedOnScheduler(s.k, id, mask, clear, all, ticks);
    G.BlockInv(s.g, s.k.current, mask, clear, all);
    OneMore(s.g.waiting, B.Waiter(s.k.current, B.ItemValue(mask, clear, all)));
  }

  lemma RunningWaitsNot(k: State)
    requires Running(k)
    ensures k.current in k.tcb && k.tcb[k.current].eventIn == NoEvent
  {
  }

  lemma StepIsBlocked(k: State, id: nat, mask: bv32, clear: bool, all: bool, ticks: nat)
    requires Inv(k) && Running(k) && k.suspended > 0 && 1 <= ticks < MODULUS
    ensures Step(k, WaitUnordered(id, Number(WaitValue(mask, clear, all)), ticks))
            == Blocked(k, id, mask, clear, all, ticks)
  {
    hide Inv, Running, PlaceOnUnorderedEventList, WaitValue, Number;
  }

  lemma OneMore(ws: seq<B.Waiter>, w: B.Waiter)
    ensures forall t :: G.Waits(ws + [w], t) <==> G.Waits(ws, t) || t == w.task
    ensures forall x :: x in ws + [w] <==> x in ws || x == w
  {
    forall t | G.Waits(ws, t) || t == w.task
      ensures G.Waits(ws + [w], t)
    {
      if t == w.task {
        assert w in ws + [w];
      } else {
        var x :| x in ws && x.task == t;
        assert x in ws + [w];
      }
    }
  }

  lemma WaitLinks(s: System, id: nat, mask: bv32, clear: bool, all: bool, ticks: nat)
    requires SystemInv(s, id) && Calls(s, mask, ticks)
    ensures SystemInv(WaitRegion(s, id, mask, clear, all, ticks), id)
  {
    hide Inv, G.Inv, B.Plain, B.TestWaitCondition, B.ItemValue, Blocked, G.Block, Number, Running, B.Without;
    if B.TestWaitCondition(s.g.bits, mask, all) {
      G.ClearBitsInv(s.g, mask);
    } else if ticks > 0 {
      BlockLinks(s, id, mask, clear, all, ticks);
    }
  }

  lemma StillRuns(s: System, id: nat, bits: bv32, mask: bv32, ticks: nat)
    requires SystemInv(s, id) && Calls(s, mask, ticks)
    ensures Calls(SetRegion(s, bits), mask, ticks) && SetRegion(s, bits).k.current == s.k.current
  {
    hide Inv, G.Inv, B.Plain, B.Or, B.Met, B.HandedValue, Number, WakeAll, G.SetBits, G.Waits, MetBy;
    var b := B.Or(s.g.bits, bits);
    CurrentLive(s.k);
    SetOnScheduler(s, bits, id);
    SetInGroup(s.g, bits, s.k.current);
    if MetBy(s.g.waiting, s.k.current, b) {
      MetIsWaiting(s.g.waiting, s.k.current, b);
    }
  }

  lemma SyncLinks(s: System, id: nat, bits: bv32, mask: bv32, ticks: nat)
    requires SystemInv(s, id) && Calls(s, mask, ticks) && B.Plain(bits)
    ensures SystemInv(SyncRegion(s, id, bits, mask, ticks), id)
  {
    hide Inv, G.Inv, B.Plain, B.Covers, B.Or, B.ItemValue, Blocked, G.Block, Number, Running, B.Without, SetRegion,
      G.SetBits;
    var s1 := SetRegion(s, bits);
    SetLinks(s, bits, id);
    StillRuns(s, id, bits, mask, ticks);
    SetRegionGroup(s, bits);
    if B.Covers(B.Or(s.g.bits, bits), mask) {
      G.ClearBitsInv(s1.g, mask);
    } else if ticks > 0 {
      NotYetCovered(s.g, bits, mask);
      BlockLinks(s1, id, mask, true, true, ticks);
    }
  }

  lemma SetRegionGroup(s: System, bits: bv32)
    ensures SetRegion(s, bits).g == G.SetBits(s.g, bits)
  {
    hide WakeAll, G.SetBits, Number;
  }

  lemma NotYetCovered(g: G.Group, bits: bv32, mask: bv32)
    requires !B.Covers(B.Or(g.bits, bits), mask)
    ensures !B.TestWaitCondition(G.SetBits(g, bits).bits, mask, true)
  {
    hide B.Covers, B.Or, B.Without, B.ClearMask, B.StillWaiting, G.Hand;
    B.StillUncovered(B.Or(g.bits, bits), B.ClearMask(g.waiting, B.Or(g.bits, bits)), mask);
  }

  /** The task reads its item back: uxTaskResetEventItemValue returns what the group has handed
      it, or the value it stored if it has timed out. */
  lemma FinishLinks(s: System, id: nat, mask: bv32, clear: bool, all: bool)
    requires SystemInv(s, id) && s.k.current in s.g.handed
    ensures TcbOf(s.k, s.k.current).eventValue == Number(s.g.handed[s.k.current])
    ensures SystemInv(System(ResetItem(s.k), G.Resume(s.g, s.k.current, mask, clear, all)), id)
  {
    hide Inv, G.Inv, ResetItem, Number, G.Resume, B.Plain;
    var t := s.k.current;
    var g' := G.Resume(s.g, t, mask, clear, all);
    ResetItemInv(s.k);
    ResetItemExact(s.k);
    G.StepInv(s.g, G.Resuming(t, mask, clear, all));
    ResumedGroup(s.g, t, mask, clear, all);
    assert !G.Waits(s.g.waiting, t) by {
      HandedWaitsNot(s.g, t);
    }
  }

  lemma ResumedGroup(g: G.Group, t: Task, mask: bv32, clear: bool, all: bool)
    requires t in g.handed
    ensures var g' := G.Resume(g, t, mask, clear, all);
            g' == g.(bits := g'.bits, handed := g.handed - {t})
            && G.Step(g, G.Resuming(t, mask, clear, all)) == g'
  {
    hide B.Without, B.TestWaitCondition, B.WasUnblocked;
  }

  lemma HandedWaitsNot(g: G.Group, t: Task)
    requires G.Inv(g) && t in g.handed
    ensures !G.Waits(g.waiting, t)
  {
    hide B.Met, B.Plain, B.Flagged, B.WasUnblocked;
  }

  // ----- everything else the kernel does

  ghost predicate Left(tcb: Tcbs, id: nat, t: Task) {
    TcbIn(tcb, t).eventIn != Waiters(id)
  }

  /** The tasks of `ws` that have left the event list have left the group with the values they
      stored; nothing else of the group has changed. */
  ghost predicate DepartedOnly(g: G.Group, g': G.Group, ws: seq<B.Waiter>, tcb: Tcbs, id: nat) {
    && g'.bits == g.bits
    && (forall w :: w in g'.waiting <==> w in g.waiting && !(G.Waits(ws, w.task) && Left(tcb, id, w.task)))
    && (forall t :: t in g'.handed <==>
          t in g.handed || (G.Waits(g.waiting, t) && G.Waits(ws, t) && Left(tcb, id, t)))
    && (forall t :: t in g'.handed ==>
          if t in g.handed then g'.handed[t] == g.handed[t] else B.Waiter(t, g'.handed[t]) in g.waiting)
  }

  lemma DepartsOne(g: G.Group, t: Task, tcb: Tcbs, id: nat, w: B.Waiter)
    requires G.Inv(g) && w.task == t
    ensures var g1 := if Left(tcb, id, t) && G.Waits(g.waiting, t) then G.Expire(g, t) else g;
            G.Inv(g1) && DepartedOnly(g, g1, [w], tcb, id)
  {
    hide G.Inv, G.Expire;
    WaitsOne(w);
    if Left(tcb, id, t) && G.Waits(g.waiting, t) {
      G.ExpireInv(g, t);
      G.ExpireCall(g, t);
      var x :| x in g.waiting && x.task == t;
      SameWaiter(g, x, B.Waiter(t, G.Expire(g, t).handed[t]));
      forall y | y in g.waiting && y.task == t
        ensures y == x
      {
        SameWaiter(g, y, x);
      }
      WaiterNotHanded(g, t);
    }
  }

  lemma WaitsOne(w: B.Waiter)
    ensures forall t :: G.Waits([w], t) <==> t == w.task
  {
    assert w in [w];
  }

  lemma SameWaiter(g: G.Group, x: B.Waiter, y: B.Waiter)
    requires G.Inv(g) && x in g.waiting && y in g.waiting && x.task == y.task
    ensures x == y
  {
    hide B.Met, B.Plain, B.Flagged, B.WasUnblocked;
  }

  lemma WaiterNotHanded(g: G.Group, t: Task)
    requires G.Inv(g) && G.Waits(g.waiting, t)
    ensures t !in g.handed
  {
    hide B.Met, B.Plain, B.Flagged, B.WasUnblocked;
  }

  lemma DepartsThen(g: G.Group, g1: G.Group, g2: G.Group, ws: seq<B.Waiter>, tcb: Tcbs, id: nat)
    requires ws != [] && DepartedOnly(g, g1, [ws[0]], tcb, id) && DepartedOnly(g1, g2, ws[1..], tcb, id)
    ensures DepartedOnly(g, g2, ws, tcb, id)
  {
    hide Left;
    WaitsOne(ws[0]);
    forall t
      ensures G.Waits(ws, t) <==> t == ws[0].task || G.Waits(ws[1..], t)
    {
      WaitsCons(ws, t);
    }
    forall t
      ensures G.Waits(g1.waiting, t) <==> G.Waits(g.waiting, t) && !(t == ws[0].task && Left(tcb, id, t))
    {
    }
    hide G.Waits;
  }

  lemma {:induction false} DepartedFacts(g: G.Group, ws: seq<B.Waiter>, tcb: Tcbs, id: nat)
    requires G.Inv(g)
    ensures G.Inv(Departed(g, ws, tcb, id)) && DepartedOnly(g, Departed(g, ws, tcb, id), ws, tcb, id)
    decreases |ws|
  {
    hide G.Inv, G.Expire, DepartedOnly, G.Waits;
    if ws == [] {
      NoneDeparts(g, tcb, id);
    } else {
      var t := ws[0].task;
      var g1 := if Left(tcb, id, t) && G.Waits(g.waiting, t) then G.Expire(g, t) else g;
      DepartsOne(g, t, tcb, id, ws[0]);
      DepartedFacts(g1, ws[1..], tcb, id);
      DepartsThen(g, g1, Departed(g, ws, tcb, id), ws, tcb, id);
    }
  }

  lemma NoneDeparts(g: G.Group, tcb: Tcbs, id: nat)
    ensures DepartedOnly(g, g, [], tcb, id)
  {
    hide Left;
  }

  /** Nobody joins the event list. */
  ghost predicate NoneJoins(k: State, k': State, id: nat) {
    forall t :: t in k'.tcb && k'.tcb[t].eventIn == Waiters(id) ==> t in k.tcb && k.tcb[t].eventIn == Waiters(id)
  }

  lemma TargetJoins(k: State, op: Op, id: nat)
    requires Inv(k) && Enabled(k, op) && !op.Tick? && !Outermost(k, op)
    requires op.Wait? || op.WaitUnordered? || op.WaitRestricted? ==> op.id != id
    ensures var x := Target(k, op);
            var k' := Step(k, op);
            x in k'.tcb && k'.tcb[x].eventIn == Waiters(id) ==> x in k.tcb && k.tcb[x].eventIn == Waiters(id)
  {
    hide Inv, SwitchContext, SuspendAll, ResumeAll, ResetItem, RemoveFromEventList, RemoveFromUnordered, Create, Delete,
      CleanUp, Kernel.Suspend, Resume, AbortDelay, PrioritySet, Inherit, Disinherit, DisinheritAfterTimeout, Running,
      SomeReady, EventsOf, ListOf, Moves, Leaves, Vanishes, Pends, FallsAsleep, Queues, WakeAt, DelayCurrent,
      PlaceOnEventList, PlaceOnUnorderedEventList, PlaceRestricted;
    CurrentLive(k);
    if Blocks(op) {
      BlockedExact(k, op);
    } else if op.SetPriority? || op.Raise? || op.Lower? || op.LowerLate? {
      PriorityJoins(k, op, id);
    } else {
      match op {
        case Wake(i) => RemoveFromEventListInv(k, i);
        case WakeUnordered(t, v) => RemoveFromUnorderedInv(k, t, v);
        case New(t, p) => CreateInv(k, t, p);
        case Remove(t) => if t == k.current { DeleteSelfInv(k); } else { DeleteOtherInv(k, t); }
        case Collect => CleanUpInv(k);
        case Halt(t) => SuspendInv(k, t);
        case Continue(t) => ResumeInv(k, t);
        case Abort(t) => AbortDelayInv(k, t);
        case ReadItem => ResetItemExact(k);
        case _ => SwitchTouches(k);
      }
    }
  }

  lemma PriorityJoins(k: State, op: Op, id: nat)
    requires Inv(k) && Enabled(k, op) && (op.SetPriority? || op.Raise? || op.Lower? || op.LowerLate?)
    ensures var x := Target(k, op);
            x in k.tcb && x in Step(k, op).tcb && Step(k, op).tcb[x].eventIn == k.tcb[x].eventIn
  {
    hide Inv, PrioritySet, Inherit, Disinherit, DisinheritAfterTimeout, ListOf, MovesIfReady, Following,
      PrioritySetAsks;
    CurrentLive(k);
    match op {
      case SetPriority(t, p) => PrioritySetInv(k, t, p);
      case Raise(t) => InheritInv(k, t);
      case Lower => DisinheritInv(k);
      case LowerLate(t, w) => DisinheritAfterTimeoutInv(k, t, w);
    }
  }

  lemma TickedJoins(k: State, k': State, n: nat, id: nat)
    requires Ticked(k, k', n)
    ensures NoneJoins(k, k', id)
  {
    hide WakeAt;
  }

  lemma DrainedJoins(k: State, k1: State, k': State, n: nat, id: nat)
    requires Drained(k, k1) && Ticked(k1, k', n)
    ensures NoneJoins(k, k', id)
  {
    hide WakeAt;
  }

  lemma StepJoins(k: State, op: Op, id: nat)
    requires Inv(k) && Enabled(k, op)
    requires op.Wait? || op.WaitUnordered? || op.WaitRestricted? ==> op.id != id
    ensures NoneJoins(k, Step(k, op), id)
  {
    hide Inv, Step, Target, Running, EventsOf, ListOf, SomeReady, NoneJoins;
    if op.Tick? {
      TickJoins(k, id);
    } else if Outermost(k, op) {
      ResumeJoins(k, id);
    } else {
      StepTouches(k, op);
      TargetJoins(k, op, id);
      TouchJoins(k, Step(k, op), Target(k, op), id);
    }
  }

  lemma TickJoins(k: State, id: nat)
    requires Inv(k)
    ensures NoneJoins(k, Step(k, Tick), id)
  {
    hide Inv, SysTick, Ticked, DueReaches, Contended;
    SysTickInv(k);
    if k.suspended == 0 {
      TickedJoins(k, SysTick(k), 1, id);
    }
  }

  lemma ResumeJoins(k: State, id: nat)
    requires Inv(k) && k.suspended == 1
    ensures NoneJoins(k, Step(k, Resuming), id)
  {
    hide Inv, ResumeAll, Drained, Ticked, DrainPending, NoneJoins;
    ResumeAllExact(k);
    DrainedJoins(k.(suspended := 0), DrainPending(k.(suspended := 0)), ResumeAll(k), k.pended, id);
    SameJoins(k, k.(suspended := 0), ResumeAll(k), id);
  }

  lemma SameJoins(k: State, k0: State, k': State, id: nat)
    requires NoneJoins(k0, k', id) && k0.tcb == k.tcb
    ensures NoneJoins(k, k', id)
  {
  }

  lemma TouchJoins(k: State, k': State, x: Task, id: nat)
    requires OnlyTouches(k, k', x)
    requires x in k'.tcb && k'.tcb[x].eventIn == Waiters(id) ==> x in k.tcb && k.tcb[x].eventIn == Waiters(id)
    ensures NoneJoins(k, k', id)
  {
  }

  lemma TrackedInUse(s: System, id: nat, t: Task)
    requires SystemInv(s, id) && Tracked(s.g, t)
    ensures t in s.k.tcb && InUse(s.k.tcb[t].eventValue)
  {
    hide Inv, B.Met, B.Plain, InUse, B.WasUnblocked;
    if t in s.g.handed {
      B.InUseFlag(s.g.handed[t]);
    } else {
      var w :| w in s.g.waiting && w.task == t;
      B.InUseFlag(w.value);
    }
  }

  lemma OtherKeeps(s: System, op: Op, id: nat, t: Task)
    requires SystemInv(s, id) && Legal(s, Other(op), id) && Tracked(s.g, t)
    ensures SameValue(s.k, Step(s.k, op), t)
  {
    hide Inv, G.Inv, Linked, InUse, Overwrites, Enabled, Step;
    TrackedInUse(s, id, t);
    StepKeepsValue(s.k, op, t);
  }

  lemma OtherLinks(s: System, op: Op, id: nat)
    requires SystemInv(s, id) && Legal(s, Other(op), id)
    ensures SystemInv(Act(s, Other(op), id), id)
  {
    hide Inv, G.Inv, Enabled, Step, Overwrites, Departed, Number;
    var k' := Step(s.k, op);
    StepInv(s.k, op);
    DepartedFacts(s.g, s.g.waiting, k'.tcb, id);
    StepJoins(s.k, op, id);
    forall t | Tracked(s.g, t)
      ensures SameValue(s.k, k', t)
    {
      OtherKeeps(s, op, id, t);
    }
    DepartedLinks(s, k', Departed(s.g, s.g.waiting, k'.tcb, id), id);
  }

  lemma DepartedLinks(s: System, k': State, g': G.Group, id: nat)
    requires Linked(s.k.tcb, s.g, id) && NoneJoins(s.k, k', id) && DepartedOnly(s.g, g', s.g.waiting, k'.tcb, id)
    requires forall t :: Tracked(s.g, t) ==> SameValue(s.k, k', t)
    ensures Linked(k'.tcb, g', id)
  {
    hide Number;
    forall t
      ensures G.Waits(g'.waiting, t) <==> t in k'.tcb && k'.tcb[t].eventIn == Waiters(id)
    {
      if t in k'.tcb && k'.tcb[t].eventIn == Waiters(id) {
        assert G.Waits(s.g.waiting, t);
        var w :| w in s.g.waiting && w.task == t;
        assert w in g'.waiting;
      }
    }
    forall w | w in g'.waiting
      ensures w.task in k'.tcb && k'.tcb[w.task].eventValue == Number(w.value)
    {
      assert Tracked(s.g, w.task);
    }
    forall t | t in g'.handed
      ensures t in k'.tcb && k'.tcb[t].eventValue == Number(g'.handed[t])
    {
      if t !in s.g.handed {
        assert B.Waiter(t, g'.handed[t]) in s.g.waiting;
      }
      assert Tracked(s.g, t);
    }
  }

  // ----- runs

  lemma ActLinks(s: System, a: Action, id: nat)
    requires SystemInv(s, id) && Legal(s, a, id)
    ensures SystemInv(Act(s, a, id), id)
  {
    hide Inv, G.Inv, Linked, Enabled, Step, Apart, SetRegion, WaitRegion, SyncRegion, Departed, ResetItem, G.Resume,
      Calls, B.Plain, G.ClearBits;
    match a {
      case SetCall(bits) => SetLinks(s, bits, id);
      case ClearCall(bits) => ClearLinks(s, bits, id);
      case WaitCall(mask, clear, all, ticks) => WaitLinks(s, id, mask, clear, all, ticks);
      case SyncCall(bits, mask, ticks) => SyncLinks(s, id, bits, mask, ticks);
      case FinishCall(mask, clear, all) => FinishLinks(s, id, mask, clear, all);
      case Other(op) => OtherLinks(s, op, id);
    }
  }

  lemma ClearLinks(s: System, bits: bv32, id: nat)
    requires SystemInv(s, id)
    ensures SystemInv(s.(g := G.ClearBits(s.g, bits)), id)
  {
    hide Inv, G.Inv, B.Without, Number;
    G.ClearBitsInv(s.g, bits);
  }

  ghost predicate Follows(s: System, actions: seq<Action>, id: nat)
    requires SystemInv(s, id)
    decreases |actions|
  {
    actions == [] || (Legal(s, actions[0], id)
                      && (ActLinks(s, actions[0], id); Follows(Act(s, actions[0], id), actions[1..], id)))
  }

  ghost function After(s: System, actions: seq<Action>, id: nat): (s': System)
    requires SystemInv(s, id) && Follows(s, actions, id)
    ensures SystemInv(s', id)
    decreases |actions|
  {
    if actions == [] then s else ActLinks(s, actions[0], id); After(Act(s, actions[0], id), actions[1..], id)
  }

  /** In every run of the scheduler and the group together: whoever is on the group's event list
      still waits for a condition that the bits do not meet, with that condition in its item. */
  lemma WaitersUnmet(s: System, actions: seq<Action>, id: nat, t: Task)
    requires SystemInv(s, id) && Follows(s, actions, id)
    ensures var s' := After(s, actions, id);
            t in s'.k.tcb && s'.k.tcb[t].eventIn == Waiters(id) ==>
              exists w :: w in s'.g.waiting && w.task == t && s'.k.tcb[t].eventValue == Number(w.value)
                          && !B.Met(w.value, s'.g.bits)
  {
    hide Inv, B.Met, B.Plain, B.Flagged, B.WasUnblocked, Number, Follows, After;
    var s' := After(s, actions, id);
    if t in s'.k.tcb && s'.k.tcb[t].eventIn == Waiters(id) {
      assert G.Waits(s'.g.waiting, t);
    }
  }

  /** The task is about to read its item back. */
  ghost predicate Reads(s: System, a: Action, t: Task) {
    a.FinishCall? && s.k.current == t
  }

  ghost predicate NeverReads(s: System, actions: seq<Action>, id: nat, t: Task)
    requires SystemInv(s, id) && Follows(s, actions, id)
    decreases |actions|
  {
    actions == [] || (!Reads(s, actions[0], t)
                      && (ActLinks(s, actions[0], id); NeverReads(Act(s, actions[0], id), actions[1..], id, t)))
  }

  lemma ActHands(s: System, a: Action, id: nat, t: Task)
    requires SystemInv(s, id) && Legal(s, a, id) && t in s.g.handed && !Reads(s, a, t)
    ensures var g' := Act(s, a, id).g; t in g'.handed && g'.handed[t] == s.g.handed[t]
  {
    hide Inv, Linked, Step, Departed, ResetItem, B.Plain, B.Met, B.Covers, B.TestWaitCondition, B.ItemValue, Number,
      WakeAll, Blocked, B.Without, B.Or, B.WasUnblocked, B.Flagged, Enabled, DepartedOnly, G.SetBits;
    match a {
      case SetCall(bits) => HandsOn(s, bits, t);
      case SyncCall(bits, _, _) => HandsOn(s, bits, t);
      case Other(op) =>
        var k' := Step(s.k, op);
        DepartedFacts(s.g, s.g.waiting, k'.tcb, id);
        StillHanded(s.g, Departed(s.g, s.g.waiting, k'.tcb, id), s.g.waiting, k'.tcb, id, t);
      case _ =>
    }
  }

  lemma StillHanded(g: G.Group, g': G.Group, ws: seq<B.Waiter>, tcb: Tcbs, id: nat, t: Task)
    requires DepartedOnly(g, g', ws, tcb, id) && t in g.handed
    ensures t in g'.handed && g'.handed[t] == g.handed[t]
  {
  }

  lemma HandsOn(s: System, bits: bv32, t: Task)
    requires G.Inv(s.g) && t in s.g.handed
    ensures var g' := G.SetBits(s.g, bits); t in g'.handed && g'.handed[t] == s.g.handed[t]
  {
    hide G.Inv, B.Met, G.SetBits, B.Or, B.HandedValue, MetBy, G.Waits;
    SetInGroup(s.g, bits, t);
    HandedWaitsNot(s.g, t);
    if MetBy(s.g.waiting, t, B.Or(s.g.bits, bits)) {
      MetIsWaiting(s.g.waiting, t, B.Or(s.g.bits, bits));
    }
  }

  lemma {:induction false} RunHands(s: System, actions: seq<Action>, id: nat, t: Task)
    requires SystemInv(s, id) && Follows(s, actions, id) && t in s.g.handed && NeverReads(s, actions, id, t)
    ensures var g' := After(s, actions, id).g; t in g'.handed && g'.handed[t] == s.g.handed[t]
    decreases |actions|
  {
    hide SystemInv, Legal, Act, Reads;
    if actions != [] {
      ActLinks(s, actions[0], id);
      ActHands(s, actions[0], id, t);
      RunHands(Act(s, actions[0], id), actions[1..], id, t);
    }
  }

  lemma SetReadies(s: System, bits: bv32, id: nat, w: B.Waiter)
    requires SystemInv(s, id) && w in s.g.waiting && B.Met(w.value, B.Or(s.g.bits, bits))
    ensures var s1 := SetRegion(s, bits);
            && IsReady(s1.k, w.task) && w.task in s1.g.handed
            && s1.g.handed[w.task] == B.HandedValue(B.Or(s.g.bits, bits))
  {
    hide Inv, G.Inv, B.Met, B.Or, B.HandedValue, Number, WakeAll, G.SetBits, MetBy;
    MetAlone(s.g, w.task, B.Or(s.g.bits, bits), w);
    SetOnScheduler(s, bits, id);
    SetInGroup(s.g, bits, w.task);
  }

  /** Both calls that set bits. */
  predicate Sets(a: Action, bits: bv32) {
    a == SetCall(bits) || (a.SyncCall? && a.bits == bits)
  }

  lemma SetsHand(s: System, a: Action, id: nat, bits: bv32)
    requires SystemInv(s, id) && Legal(s, a, id) && Sets(a, bits)
    ensures Act(s, a, id).g.handed == SetRegion(s, bits).g.handed
  {
    hide Inv, G.Inv, Linked, Number, WakeAll, Blocked, B.Covers, B.Or, B.Without, B.ItemValue, B.Plain, G.SetBits;
  }

  /** From the set or sync call that meets its condition, through any run of the scheduler and of
      the group, up to the moment at which it reads its item back: the task is made ready by that
      call, and its item holds the bits that met its condition, marked as handed over. */
  lemma HandedOnScheduler(s: System, actions: seq<Action>, id: nat, w: B.Waiter, bits: bv32)
    requires SystemInv(s, id) && Follows(s, actions, id) && actions != [] && Sets(actions[0], bits)
    requires w in s.g.waiting && B.Met(w.value, B.Or(s.g.bits, bits)) && NeverReads(s, actions, id, w.task)
    ensures var k' := After(s, actions, id).k;
            && IsReady(SetRegion(s, bits).k, w.task) && w.task in k'.tcb
            && k'.tcb[w.task].eventValue == Number(B.HandedValue(B.Or(s.g.bits, bits)))
  {
    hide Inv, G.Inv, B.Met, B.Or, B.HandedValue, Number, SetRegion, SyncRegion, B.Plain, Reads, G.Waits, Sets;
    ActLinks(s, actions[0], id);
    SetReadies(s, bits, id, w);
    SetsHand(s, actions[0], id, bits);
    RunHands(Act(s, actions[0], id), actions[1..], id, w.task);
  }

  /** A new group, before any task waits on its event list. */
  lemma NewOnScheduler(k: State, id: nat)
    requires Inv(k) && EventsOf(k, Waiters(id)).items == []
    ensures SystemInv(System(k, G.Group(0, [], map[])), id)
  {
    hide Inv;
    G.NewGroup();
    forall t | t in k.tcb
      ensures k.tcb[t].eventIn != Waiters(id)
    {
      NotWaiting(k, id, t);
    }
  }

  lemma NotWaiting(k: State, id: nat, t: Task)
    requires Inv(k) && EventsOf(k, Waiters(id)).items == [] && t in k.tcb
    ensures k.tcb[t].eventIn != Waiters(id)
  {
    assert t !in At(k.events, Waiters(id)).items;
  }
}
