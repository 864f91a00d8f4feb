/** Event groups: waiting, setting, clearing and the rendezvous. */
module EventGroups {
  import opened EventBits

  type Task = nat

  /** `handed` keeps the item values of tasks that have left the waiting list and have not yet
      read them back with uxTaskResetEventItemValue. */
  datatype Group = Group(bits: bv32, waiting: seq<Waiter>, handed: map<Task, bv32>)

  function Hand(handed: map<Task, bv32>, ws: seq<Waiter>, value: bv32): map<Task, bv32>
    decreases ws
  {
    if ws == [] then handed else Hand(handed[ws[0].task := value], ws[1..], value)
  }

  /** xEventGroupSetBits */
  function SetBits(g: Group, bits: bv32): Group {
    var b := Or(g.bits, bits);
    Group(Without(b, ClearMask(g.waiting, b)), StillWaiting(g.waiting, b),
        Hand(g.handed, Woken(g.waiting, b), HandedValue(b)))
  }

  function ClearBits(g: Group, bits: bv32): Group {
    g.(bits := Without(g.bits, bits))
  }

  function Block(g: Group, t: Task, value: bv32): Group {
    g.(waiting := g.waiting + [Waiter(t, value)])
  }

  /** The suspended region of xEventGroupWaitBits; `wait` says whether there is time to wait. */
  function WaitBits(g: Group, t: Task, mask: bv32, clear: bool, all: bool, wait: bool): Group {
    if TestWaitCondition(g.bits, mask, all) then (if clear then ClearBits(g, mask) else g)
    else if wait then Block(g, t, ItemValue(mask, clear, all))
    else g
  }

  /** The suspended region of xEventGroupSync */
  function Sync(g: Group, t: Task, bits: bv32, mask: bv32, wait: bool): Group {
    var g1 := SetBits(g, bits);
    if Covers(Or(g.bits, bits), mask) then ClearBits(g1, mask)
    else if wait then Block(g1, t, ItemValue(mask, true, true))
    else g1
  }

  predicate Waits(ws: seq<Waiter>, t: Task) {
    exists w :: w in ws && w.task == t
  }

  function WithoutTask(ws: seq<Waiter>, t: Task): (ws': seq<Waiter>)
    ensures forall w :: w in ws' <==> w in ws && w.task != t
  {
    if ws == [] then [] else (if ws[0].task == t then [] else [ws[0]]) + WithoutTask(ws[1..], t)
  }

  function ValueIn(ws: seq<Waiter>, t: Task): (v: bv32)
    requires Waits(ws, t)
    ensures exists w :: w in ws && w.task == t && w.value == v
  {
    if ws[0].task == t then ws[0].value else
      assert ws == [ws[0]] + ws[1..];
      assert Waits(ws[1..], t);
      ValueIn(ws[1..], t)
  }

  /** The time of a waiting task runs out: it leaves with the value it stored. */
  function Expire(g: Group, t: Task): Group
    requires Waits(g.waiting, t)
  {
    g.(waiting := WithoutTask(g.waiting, t), handed := g.handed[t := ValueIn(g.waiting, t)])
  }

  /** What a woken or expired task returns. */
  function Returned(g: Group, t: Task): bv32
    requires t in g.handed
  {
    if WasUnblocked(g.handed[t]) then MaskOf(g.handed[t]) else MaskOf(g.bits)
  }

  /** The last critical section of a waiting call that blocked. */
  function Resume(g: Group, t: Task, mask: bv32, clear: bool, all: bool): Group
    requires t in g.handed
  {
    var g1 := g.(handed := g.handed - {t});
    if !WasUnblocked(g.handed[t]) && TestWaitCondition(g.bits, mask, all) && clear then ClearBits(g1, mask) else g1
  }

  // ----- no satisfied waiter is left

  ghost predicate Unmet(ws: seq<Waiter>, bits: bv32) {
    forall w :: w in ws ==> !Met(w.value, bits)
  }

  /** A task waits once, and not before it has read back what it was handed. */
  ghost predicate OneEach(ws: seq<Waiter>, handed: map<Task, bv32>) {
    && (forall w, x :: w in ws && x in ws && w.task == x.task ==> w == x)
    && (forall w :: w in ws ==> w.task !in handed)
  }

  ghost predicate Inv(g: Group) {
    && Plain(g.bits) && Unmet(g.waiting, g.bits) && OneEach(g.waiting, g.handed)
    && (forall w :: w in g.waiting ==> Flagged(w.value) && !WasUnblocked(w.value))
    && (forall t :: t in g.handed ==> Flagged(g.handed[t]))
  }

  /** A task that calls is neither blocked nor on its way out of an earlier call. */
  predicate Free(g: Group, t: Task) {
    !Waits(g.waiting, t) && t !in g.handed
  }

  lemma UnmetFewer(ws: seq<Waiter>, bits: bv32, gone: bv32)
    requires Unmet(ws, bits)
    ensures Unmet(ws, Without(bits, gone))
  {
    hide Met, Without;
    forall w | w in ws
      ensures !Met(w.value, Without(bits, gone))
    {
      MetMonotone(w.value, bits, gone);
    }
  }

  lemma {:induction false} HandFacts(handed: map<Task, bv32>, ws: seq<Waiter>, value: bv32)
    ensures forall t :: t in Hand(handed, ws, value) <==> t in handed || Waits(ws, t)
    ensures forall t :: Waits(ws, t) ==> Hand(handed, ws, value)[t] == value
    ensures forall t :: t in handed && !Waits(ws, t) ==> Hand(handed, ws, value)[t] == handed[t]
    decreases |ws|
  {
    if ws != [] {
      HandFacts(handed[ws[0].task := value], ws[1..], value);
      assert ws == [ws[0]] + ws[1..];
      forall t
        ensures Waits(ws, t) <==> t == ws[0].task || Waits(ws[1..], t)
      {
        if t == ws[0].task {
          assert ws[0] in ws;
        }
      }
    }
  }

  /** A set call leaves only unsatisfied waiters, even after the clearing. */
  lemma SetBitsInv(g: Group, bits: bv32)
    requires Inv(g) && Plain(bits)
    ensures Inv(SetBits(g, bits))
    ensures Unmet(SetBits(g, bits).waiting, Or(g.bits, bits))
  {
    hide Met, ClearMask, StillWaiting, Woken, HandedValue, Hand, Flagged, WasUnblocked, Or, Without, Plain, Apart;
    var b := Or(g.bits, bits);
    WakesExactly(g.waiting, b);
    HandFacts(g.handed, Woken(g.waiting, b), HandedValue(b));
    HandedBits(b);
    OrPlain(g.bits, bits);
    WithoutFacts(b, ClearMask(g.waiting, b));
    UnmetFewer(StillWaiting(g.waiting, b), b, ClearMask(g.waiting, b));
  }

  lemma StillFree(g: Group, bits: bv32, t: Task)
    requires Free(g, t)
    ensures Free(SetBits(g, bits), t)
  {
    hide Met, ClearMask, StillWaiting, Woken, HandedValue, Hand, Or, Without;
    var b := Or(g.bits, bits);
    WakesExactly(g.waiting, b);
    HandFacts(g.handed, Woken(g.waiting, b), HandedValue(b));
  }

  lemma ClearBitsInv(g: Group, bits: bv32)
    requires Inv(g)
    ensures Inv(ClearBits(g, bits))
  {
    hide Met, Flagged, Without, Plain, Apart;
    WithoutFacts(g.bits, bits);
    UnmetFewer(g.waiting, g.bits, bits);
  }

  lemma BlockInv(g: Group, t: Task, mask: bv32, clear: bool, all: bool)
    requires Inv(g) && Plain(mask) && !TestWaitCondition(g.bits, mask, all) && Free(g, t)
    ensures Inv(Block(g, t, ItemValue(mask, clear, all)))
  {
    hide ItemValue, MaskOf, TestWaitCondition, Flagged, Plain, Apart, WasUnblocked, Clears;
    ItemValueRoundTrip(mask, clear, all);
  }

  lemma SyncInv(g: Group, t: Task, bits: bv32, mask: bv32, wait: bool)
    requires Inv(g) && Plain(bits) && Plain(mask) && Free(g, t)
    ensures Inv(Sync(g, t, bits, mask, wait))
  {
    hide Inv, ClearMask, StillWaiting, Woken, Hand, HandedValue, ItemValue, Covers, Without, Or, Plain;
    var g1 := SetBits(g, bits);
    SetBitsInv(g, bits);
    StillFree(g, bits, t);
    if Covers(Or(g.bits, bits), mask) {
      ClearBitsInv(g1, mask);
    } else {
      StillUncovered(Or(g.bits, bits), ClearMask(g.waiting, Or(g.bits, bits)), mask);
      BlockInv(g1, t, mask, true, true);
    }
  }

  datatype Op =
    | Setting(bits: bv32)
    | Clearing(bits: bv32)
    | Waiting(task: Task, mask: bv32, clear: bool, all: bool, wait: bool)
    | Syncing(task: Task, bits: bv32, mask: bv32, wait: bool)
    | Expiring(task: Task)
    | Resuming(task: Task, mask: bv32, clear: bool, all: bool)

  /** What the source asserts of the arguments. A blocked task makes no call, and one that has
      left the waiting list first finishes the call it is in. */
  predicate Enabled(g: Group, op: Op) {
    match op
    case Setting(bits) => Plain(bits)
    case Clearing(bits) => Plain(bits)
    case Waiting(t, mask, _, _, _) => Plain(mask) && mask != 0 && Free(g, t)
    case Syncing(t, bits, mask, _) => Plain(bits) && Plain(mask) && mask != 0 && Free(g, t)
    case Expiring(t) => Waits(g.waiting, t)
    case Resuming(t, mask, _, _) => t in g.handed
  }

  function Step(g: Group, op: Op): Group
    requires Enabled(g, op)
  {
    match op
    case Setting(bits) => SetBits(g, bits)
    case Clearing(bits) => ClearBits(g, bits)
    case Waiting(t, mask, clear, all, wait) => WaitBits(g, t, mask, clear, all, wait)
    case Syncing(t, bits, mask, wait) => Sync(g, t, bits, mask, wait)
    case Expiring(t) => Expire(g, t)
    case Resuming(t, mask, clear, all) => Resume(g, t, mask, clear, all)
  }

  lemma ExpireInv(g: Group, t: Task)
    requires Inv(g) && Waits(g.waiting, t)
    ensures Inv(Expire(g, t))
  {
    hide Met, Flagged, Plain;
  }

  lemma StepInv(g: Group, op: Op)
    requires Inv(g) && Enabled(g, op)
    ensures Inv(Step(g, op))
  {
    hide SetBits, ClearBits, Block, Sync, Expire, ItemValue, Met, Flagged, Plain, Apart, WasUnblocked,
      TestWaitCondition;
    match op {
      case Setting(bits) => SetBitsInv(g, bits);
      case Clearing(bits) => ClearBitsInv(g, bits);
      case Waiting(t, mask, clear, all, wait) =>
        if TestWaitCondition(g.bits, mask, all) {
          ClearBitsInv(g, mask);
        } else {
          BlockInv(g, t, mask, clear, all);
        }
      case Syncing(t, bits, mask, wait) => SyncInv(g, t, bits, mask, wait);
      case Expiring(t) => ExpireInv(g, t);
      case Resuming(t, mask, _, _) =>
        var g1 := g.(handed := g.handed - {t});
        assert Inv(g1);
        ClearBitsInv(g1, mask);
    }
  }

  predicate Allowed(g: Group, ops: seq<Op>)
    decreases |ops|
  {
    ops == [] || (Enabled(g, ops[0]) && Allowed(Step(g, ops[0]), ops[1..]))
  }

  function Run(g: Group, ops: seq<Op>): Group
    requires Allowed(g, ops)
    decreases |ops|
  {
    if ops == [] then g else Run(Step(g, ops[0]), ops[1..])
  }

  /** In every reachable state no waiting task's condition holds. */
  lemma {:induction false} NoSatisfiedWaiter(g: Group, ops: seq<Op>)
    requires Inv(g) && Allowed(g, ops)
    ensures var g' := Run(g, ops);
            Inv(g') && forall w :: w in g'.waiting ==> !Met(w.value, g'.bits)
    decreases |ops|
  {
    hide Met, Enabled, Step, Flagged, Plain;
    if ops != [] {
      StepInv(g, ops[0]);
      NoSatisfiedWaiter(Step(g, ops[0]), ops[1..]);
    }
  }

  // ----- what one set call does

  /** It wakes exactly the tasks whose condition the old and the new bits satisfy together,
      hands each of them that same value, and then clears the masks of those that asked. */
  lemma SetCall(g: Group, bits: bv32, w: Waiter)
    requires Inv(g) && Plain(bits) && w in g.waiting
    ensures var b := Or(g.bits, bits);
            var g' := SetBits(g, bits);
            && (w in g'.waiting <==> !Met(w.value, b))
            && b == g.bits | bits && (Met(w.value, b) ==> w.task in g'.handed && Returned(g', w.task) == b)
            && (Met(w.value, b) && Clears(w.value) ==> Apart(g'.bits, MaskOf(w.value)))
  {
    hide Met, Clears, MaskOf, ClearMask, StillWaiting, Woken, HandedValue, Hand, Flagged, WasUnblocked, Or, Without,
      Plain, Apart, Covers;
    var b := Or(g.bits, bits);
    WakesExactly(g.waiting, b);
    HandFacts(g.handed, Woken(g.waiting, b), HandedValue(b));
    OrMeans(g.bits, bits);
    OrPlain(g.bits, bits);
    HandedBits(b);
    if Met(w.value, b) {
      assert Waits(Woken(g.waiting, b), w.task);
      if Clears(w.value) {
        ClearMaskCovers(g.waiting, b, w);
        WithoutCovered(b, ClearMask(g.waiting, b), MaskOf(w.value));
      }
    }
  }

  /** Bits that no woken task asked to clear are left as the set call made them. */
  lemma SetCallKeeps(g: Group, bits: bv32, bit: bv32)
    requires forall w :: w in g.waiting && Met(w.value, Or(g.bits, bits)) && Clears(w.value) ==>
             Apart(MaskOf(w.value), bit)
    ensures SetBits(g, bits).bits & bit == (Or(g.bits, bits)) & bit
  {
    hide ClearMask, Or, Without, Apart, Met, Clears, MaskOf, StillWaiting, Woken, Hand, HandedValue;
    ClearMaskOnly(g.waiting, Or(g.bits, bits), bit);
    WithoutApart(Or(g.bits, bits), ClearMask(g.waiting, Or(g.bits, bits)), bit);
  }

  // ----- what each call does to the bits and the waiting list

  /** The condition as the caller states it. */
  predicate Wanted(bits: bv32, mask: bv32, all: bool) {
    if all then bits & mask == mask else bits & mask != 0
  }

  /** The bits of `mask` are zero and every other bit is as before. */
  predicate Zeroed(bits: bv32, bits': bv32, mask: bv32) {
    bits' & mask == 0 && bits' & !mask == bits & !mask
  }

  /** An item value from which `mask`, `clear` and `all` can be read back. */
  predicate Stores(value: bv32, mask: bv32, clear: bool, all: bool) {
    && value & 0x00ff_ffff == mask && (value & CLEAR_ON_EXIT != 0 <==> clear) && (value & WAIT_FOR_ALL != 0 <==> all)
    && value & UNBLOCKED == 0 && value & IN_USE != 0
  }

  /** `t` alone has joined, at the end of the waiting list. */
  ghost predicate Joins(g: Group, g': Group, t: Task, mask: bv32, clear: bool, all: bool) {
    && g' == g.(waiting := g'.waiting) && |g'.waiting| == |g.waiting| + 1 && g'.waiting[..|g.waiting|] == g.waiting
    && g'.waiting[|g.waiting|].task == t && Stores(g'.waiting[|g.waiting|].value, mask, clear, all)
  }

  /** xEventGroupWaitBits: a condition that holds clears the mask on request and nothing else; one
      that does not hold makes the caller wait if it has the time. */
  ghost predicate Waited(g: Group, g': Group, t: Task, mask: bv32, clear: bool, all: bool, wait: bool) {
    if Wanted(g.bits, mask, all) then g' == g.(bits := g'.bits)
                                      && if clear then Zeroed(g.bits, g'.bits, mask) else g'.bits == g.bits
    else if wait then Joins(g, g', t, mask, clear, all)
    else g' == g
  }

  lemma ZeroedBits(bits: bv32, mask: bv32)
    ensures Zeroed(bits, Without(bits, mask), mask)
  {
  }

  lemma StoredValue(mask: bv32, clear: bool, all: bool)
    requires Plain(mask)
    ensures Stores(ItemValue(mask, clear, all), mask, clear, all)
  {
  }

  lemma WantedBits(bits: bv32, mask: bv32, all: bool)
    ensures TestWaitCondition(bits, mask, all) <==> Wanted(bits, mask, all)
  {
  }

  lemma BlockJoins(g: Group, t: Task, mask: bv32, clear: bool, all: bool)
    requires Plain(mask)
    ensures Joins(g, Block(g, t, ItemValue(mask, clear, all)), t, mask, clear, all)
  {
    StoredValue(mask, clear, all);
    hide Stores, ItemValue, Plain;
  }

  lemma WaitCall(g: Group, t: Task, mask: bv32, clear: bool, all: bool, wait: bool)
    requires Plain(mask)
    ensures Waited(g, WaitBits(g, t, mask, clear, all, wait), t, mask, clear, all, wait)
  {
    hide Wanted, TestWaitCondition, Zeroed, Without, Joins, Block, ItemValue;
    WantedBits(g.bits, mask, all);
    ZeroedBits(g.bits, mask);
    BlockJoins(g, t, mask, clear, all);
  }

  lemma ClearCall(g: Group, bits: bv32)
    ensures var g' := ClearBits(g, bits);
            g' == g.(bits := g'.bits) && Zeroed(g.bits, g'.bits, bits)
  {
    hide Zeroed, Without;
    ZeroedBits(g.bits, bits);
  }

  /** xEventGroupSync sets its bits like any set call; then the caller that completes the mask
      clears it, and one that does not waits for all of it, if it has the time. */
  ghost predicate Synced(g1: Group, g': Group, t: Task, together: bv32, mask: bv32, wait: bool) {
    if Wanted(together, mask, true) then g' == g1.(bits := g'.bits) && Zeroed(g1.bits, g'.bits, mask)
    else if wait then Joins(g1, g', t, mask, true, true)
    else g' == g1
  }

  lemma WantsAll(bits: bv32, mask: bv32)
    ensures Covers(bits, mask) <==> Wanted(bits, mask, true)
  {
  }

  lemma OrMeans(a: bv32, b: bv32)
    ensures Or(a, b) == a | b
  {
  }

  lemma SyncCall(g: Group, t: Task, bits: bv32, mask: bv32, wait: bool)
    requires Plain(mask)
    ensures Synced(SetBits(g, bits), Sync(g, t, bits, mask, wait), t, g.bits | bits, mask, wait)
  {
    hide Covers, Zeroed, Without, Joins, Block, ItemValue, SetBits, Or, Wanted, Plain;
    var g1 := SetBits(g, bits);
    OrMeans(g.bits, bits);
    WantsAll(g.bits | bits, mask);
    ZeroedBits(g1.bits, mask);
    BlockJoins(g1, t, mask, true, true);
  }

  /** The end of a call that blocked: one that timed out and finds its condition to hold after all
      clears the mask on request; nothing else of the group changes. */
  ghost predicate Finished(g: Group, g': Group, t: Task, mask: bv32, clear: bool, all: bool)
    requires t in g.handed
  {
    && g' == g.(bits := g'.bits, handed := g.handed - {t})
    && if g.handed[t] & UNBLOCKED == 0 && Wanted(g.bits, mask, all) && clear then Zeroed(g.bits, g'.bits, mask)
       else g'.bits == g.bits
  }

  lemma ResumeCall(g: Group, t: Task, mask: bv32, clear: bool, all: bool)
    requires t in g.handed
    ensures Finished(g, Resume(g, t, mask, clear, all), t, mask, clear, all)
  {
    hide Wanted, TestWaitCondition, Zeroed, Without;
    WantedBits(g.bits, mask, all);
    ZeroedBits(g.bits, mask);
  }

  /** A time-out takes the task off the waiting list with the value it stored. */
  lemma ExpireCall(g: Group, t: Task)
    requires Inv(g) && Waits(g.waiting, t)
    ensures var g' := Expire(g, t);
            && g'.bits == g.bits && t in g'.handed && Waiter(t, g'.handed[t]) in g.waiting
            && (forall w :: w in g'.waiting <==> w in g.waiting && w != Waiter(t, g'.handed[t]))
            && (forall x :: x != t ==> (x in g'.handed <==> x in g.handed))
            && (forall x :: x != t && x in g.handed ==> g'.handed[x] == g.handed[x])
  {
    hide Unmet, Plain, Flagged, WasUnblocked;
    var w: Waiter :| w in g.waiting && w.task == t && w.value == ValueIn(g.waiting, t);
    assert w == Waiter(t, Expire(g, t).handed[t]);
  }

  /** A set call hands something to the tasks it wakes only. */
  lemma SetCallHands(g: Group, bits: bv32)
    requires Inv(g)
    ensures var g' := SetBits(g, bits);
            forall t :: if exists w :: w in g.waiting && w.task == t && Met(w.value, Or(g.bits, bits))
                        then t in g'.handed
                        else (t in g'.handed <==> t in g.handed)
                             && (t in g.handed ==> g'.handed[t] == g.handed[t])
  {
    hide Met, ClearMask, StillWaiting, Woken, HandedValue, Hand, Or, Without, Flagged, WasUnblocked, Plain;
    var b := Or(g.bits, bits);
    WakesExactly(g.waiting, b);
    HandFacts(g.handed, Woken(g.waiting, b), HandedValue(b));
    assert forall t :: Waits(Woken(g.waiting, b), t) <==> exists w :: w in g.waiting && w.task == t && Met(w.value, b);
  }

  // ----- the rendezvous

  /** A set call tests the condition that the waiting call stated. */
  lemma StoredCondition(mask: bv32, clear: bool, all: bool, b: bv32)
    requires Plain(mask)
    ensures Met(ItemValue(mask, clear, all), b) <==> Wanted(b, mask, all)
    ensures Clears(ItemValue(mask, clear, all)) == clear && MaskOf(ItemValue(mask, clear, all)) == mask
  {
    hide ItemValue, MaskOf, Plain, Apart, Flagged, WasUnblocked, Clears, TestWaitCondition, Wanted;
    ItemValueRoundTrip(mask, clear, all);
    WantedBits(b, mask, all);
  }

  /** The call that completes the mask hands every task blocked in a sync on it the bits with
      the whole mask in them, and leaves the mask's bits zero. */
  lemma Completes(g: Group, caller: Task, bits: bv32, mask: bv32, wait: bool, w: Waiter)
    requires Inv(g) && Enabled(g, Syncing(caller, bits, mask, wait)) && Covers(Or(g.bits, bits), mask)
    requires w in g.waiting && w.value == ItemValue(mask, true, true)
    ensures var g' := Sync(g, caller, bits, mask, wait);
            && w !in g'.waiting && w.task in g'.handed && g'.handed[w.task] == HandedValue(Or(g.bits, bits))
            && Apart(g'.bits, mask)
  {
    hide ItemValue, Met, Clears, MaskOf, ClearMask, StillWaiting, Woken, Hand, HandedValue, SetBits, Inv, Plain, Covers,
      Apart, Or, Without, WasUnblocked, Free, Wanted;
    StoredCondition(mask, true, true, Or(g.bits, bits));
    WantsAll(Or(g.bits, bits), mask);
    SetCall(g, bits, w);
    WithoutFacts(SetBits(g, bits).bits, mask);
    HandedOver(g, bits, w);
  }

  lemma HandedOver(g: Group, bits: bv32, w: Waiter)
    requires w in g.waiting && Met(w.value, Or(g.bits, bits))
    ensures var g' := SetBits(g, bits);
            w.task in g'.handed && g'.handed[w.task] == HandedValue(Or(g.bits, bits))
  {
    hide Met, ClearMask, StillWaiting, Woken, HandedValue, Hand, Or, Without;
    var b := Or(g.bits, bits);
    WakesExactly(g.waiting, b);
    HandFacts(g.handed, Woken(g.waiting, b), HandedValue(b));
    assert Waits(Woken(g.waiting, b), w.task);
  }

  // ----- what a blocked call returns, however late

  predicate Reads(op: Op, t: Task) {
    op.Resuming? && op.task == t
  }

  /** Until the task reads its item value back, nobody else changes it. */
  lemma HandedStays(g: Group, op: Op, t: Task)
    requires Inv(g) && Enabled(g, op) && t in g.handed && !Reads(op, t)
    ensures var g' := Step(g, op); t in g'.handed && g'.handed[t] == g.handed[t]
  {
    hide Met, ClearMask, StillWaiting, Woken, HandedValue, Hand, Flagged, WasUnblocked, Or, Without, Plain, Apart,
      ItemValue, Covers, TestWaitCondition, WithoutTask;
    if op.Setting? || op.Syncing? {
      var b := Or(g.bits, op.bits);
      WakesExactly(g.waiting, b);
      HandFacts(g.handed, Woken(g.waiting, b), HandedValue(b));
    }
  }

  lemma {:induction false} HandedUntilRead(g: Group, ops: seq<Op>, t: Task)
    requires Inv(g) && Allowed(g, ops) && t in g.handed && forall op :: op in ops ==> !Reads(op, t)
    ensures var g' := Run(g, ops); t in g'.handed && g'.handed[t] == g.handed[t]
    decreases |ops|
  {
    hide Inv, Enabled, Step, Reads;
    if ops != [] {
      StepInv(g, ops[0]);
      HandedStays(g, ops[0], t);
      HandedUntilRead(Step(g, ops[0]), ops[1..], t);
    }
  }

  /** From the call that completes the mask, through any calls of others and time-outs, up to the
      moment at which it reads its item value: every task that was blocked in a sync on that mask
      returns the same value, which contains the whole mask, as does the caller's; and the mask's
      bits were zero when the completing call left its suspended region. */
  lemma Rendezvous(g: Group, caller: Task, bits: bv32, mask: bv32, wait: bool, ops: seq<Op>, w: Waiter)
    requires Inv(g) && Enabled(g, Syncing(caller, bits, mask, wait)) && Covers(Or(g.bits, bits), mask)
    requires w in g.waiting && w.value == ItemValue(mask, true, true)
    requires Allowed(Step(g, Syncing(caller, bits, mask, wait)), ops) && forall op :: op in ops ==> !Reads(op, w.task)
    ensures var g1 := Step(g, Syncing(caller, bits, mask, wait));
            var g' := Run(g1, ops);
            && Apart(g1.bits, mask) && w !in g1.waiting
            && w.task in g'.handed && Returned(g', w.task) == Or(g.bits, bits) && Covers(Returned(g', w.task), mask)
  {
    hide Inv, ItemValue, HandedValue, MaskOf, Sync, Plain, Covers, Apart, Or, WasUnblocked, Free, Run, Allowed, Reads;
    var op := Syncing(caller, bits, mask, wait);
    StepInv(g, op);
    Completes(g, caller, bits, mask, wait, w);
    HandedUntilRead(Step(g, op), ops, w.task);
    PlainBits(g);
    OrPlain(g.bits, bits);
    HandedBits(Or(g.bits, bits));
  }

  lemma PlainBits(g: Group)
    requires Inv(g)
    ensures Plain(g.bits)
  {
  }

  /** The calls of one task that has blocked with item value `v`: it waits, or it has timed out,
      or it was handed bits that meet its condition. */
  ghost predicate Settles(g: Group, t: Task, v: bv32) {
    || Waiter(t, v) in g.waiting
    || (t in g.handed && (g.handed[t] == v || (WasUnblocked(g.handed[t]) && Met(v, MaskOf(g.handed[t])))))
  }

  lemma SetSettles(g: Group, bits: bv32, t: Task, v: bv32)
    requires Inv(g) && Plain(bits) && Waiter(t, v) in g.waiting
    ensures Settles(SetBits(g, bits), t, v)
  {
    hide Met, ClearMask, StillWaiting, Woken, HandedValue, Hand, Flagged, WasUnblocked, Or, Without, Plain, Apart,
      MaskOf;
    var b := Or(g.bits, bits);
    WakesExactly(g.waiting, b);
    OrPlain(g.bits, bits);
    HandedBits(b);
    if Met(v, b) {
      HandedOver(g, bits, Waiter(t, v));
    }
  }

  lemma ExpireSettles(g: Group, x: Task, t: Task, v: bv32)
    requires Inv(g) && Waits(g.waiting, x) && Waiter(t, v) in g.waiting
    ensures Settles(Expire(g, x), t, v)
  {
    hide Met, Flagged, WasUnblocked, Plain, MaskOf;
    var w: Waiter :| w in g.waiting && w.task == x && w.value == ValueIn(g.waiting, x);
  }

  lemma StepSettles(g: Group, op: Op, t: Task, v: bv32)
    requires Inv(g) && Enabled(g, op) && Settles(g, t, v) && !Reads(op, t)
    ensures Settles(Step(g, op), t, v)
  {
    hide Inv, Met, SetBits, Expire, ItemValue, WasUnblocked, Without, Plain, Covers, Or, MaskOf, TestWaitCondition,
      Free, Waits;
    if t in g.handed {
      HandedStays(g, op, t);
    }
    if Waiter(t, v) in g.waiting {
      match op {
        case Setting(bits) => SetSettles(g, bits, t, v);
        case Syncing(_, bits, _, _) => SetSettles(g, bits, t, v);
        case Expiring(x) => ExpireSettles(g, x, t, v);
        case _ =>
      }
    }
  }

  lemma {:induction false} RunSettles(g: Group, ops: seq<Op>, t: Task, v: bv32)
    requires Inv(g) && Allowed(g, ops) && Settles(g, t, v) && forall op :: op in ops ==> !Reads(op, t)
    ensures Settles(Run(g, ops), t, v)
    decreases |ops|
  {
    hide Inv, Enabled, Step, Reads, Settles;
    if ops != [] {
      StepInv(g, ops[0]);
      StepSettles(g, ops[0], t, v);
      RunSettles(Step(g, ops[0]), ops[1..], t, v);
    }
  }

  /** In every run after a task has blocked with item value `v`, until it reads that value back:
      it is still waiting, or it was woken and will return bits that meet its condition, or it
      has timed out and will return the bits as they are then. */
  lemma BlockedReturns(g: Group, ops: seq<Op>, t: Task, v: bv32)
    requires Inv(g) && Allowed(g, ops) && Waiter(t, v) in g.waiting && forall op :: op in ops ==> !Reads(op, t)
    ensures var g' := Run(g, ops);
            || Waiter(t, v) in g'.waiting
            || (t in g'.handed && if WasUnblocked(g'.handed[t]) then Met(v, Returned(g', t))
                else Returned(g', t) == MaskOf(g'.bits))
  {
    hide Allowed, Run, Reads, Met, WasUnblocked, MaskOf, Flagged, Plain;
    RunSettles(g, ops, t, v);
  }

  /** A new group. */
  lemma NewGroup()
    ensures Inv(Group(0, [], map[]))
  {
  }

  // ----- the object

  /** The scan with `kept` behind it, `rest` before it and `clear` gathered so far. */
  function Scanned(kept: seq<Waiter>, rest: seq<Waiter>, clear: bv32, handed: map<Task, bv32>, bits: bv32): Group {
    Group(Without(bits, Or(clear, ClearMask(rest, bits))), kept + StillWaiting(rest, bits),
          Hand(handed, Woken(rest, bits), HandedValue(bits)))
  }

  lemma ScanKeeps(kept: seq<Waiter>, rest: seq<Waiter>, clear: bv32, handed: map<Task, bv32>, bits: bv32)
    requires rest != [] && !Met(rest[0].value, bits)
    ensures Scanned(kept, rest, clear, handed, bits) == Scanned(kept + [rest[0]], rest[1..], clear, handed, bits)
  {
    hide Met, Or, Without, HandedValue, Hand;
    OrZero(ClearMask(rest[1..], bits));
    assert Contribution(rest[0], bits) == 0;
    assert Woken(rest, bits) == Woken(rest[1..], bits);
    assert kept + ([rest[0]] + StillWaiting(rest[1..], bits)) == kept + [rest[0]] + StillWaiting(rest[1..], bits);
  }

  lemma OrZero(a: bv32)
    ensures Or(0, a) == a && Or(a, 0) == a
  {
  }

  lemma ScanWakes(kept: seq<Waiter>, rest: seq<Waiter>, clear: bv32, handed: map<Task, bv32>, bits: bv32)
    requires rest != [] && Met(rest[0].value, bits)
    ensures Scanned(kept, rest, clear, handed, bits)
            == Scanned(kept, rest[1..], Or(clear, Contribution(rest[0], bits)),
                handed[rest[0].task := HandedValue(bits)], bits)
  {
    hide Met, Or, Without, HandedValue, Contribution;
    OrGroups(clear, Contribution(rest[0], bits), ClearMask(rest[1..], bits));
    assert Woken(rest, bits) == [rest[0]] + Woken(rest[1..], bits);
    assert StillWaiting(rest, bits) == StillWaiting(rest[1..], bits);
  }

  lemma OrGroups(a: bv32, b: bv32, c: bv32)
    ensures Or(a, Or(b, c)) == Or(Or(a, b), c)
  {
  }

  class EventGroup {
    var bits: bv32
    var waiting: seq<Waiter>
    var handed: map<Task, bv32>

    function Value(): Group
      reads this
    {
      Group(bits, waiting, handed)
    }

    constructor ()
      ensures Value() == Group(0, [], map[])
    {
      bits, waiting, handed := 0, [], map[];
    }

    /** xEventGroupSetBits: the items are unlinked while the list is scanned. */
    method SetEventBits(toSet: bv32)
      modifies this
      ensures Value() == SetBits(old(Value()), toSet)
    {
      hide Met, ClearMask, StillWaiting, Woken, Hand, HandedValue, Scanned, Contribution, Or, Without, MaskOf, Clears;
      ghost var g := Value();
      bits := Or(bits, toSet);
      var toClear: bv32 := 0;
      var i := 0;
      ScanStart(g, toSet);
      while i < |waiting|
        invariant 0 <= i <= |waiting| && bits == Or(g.bits, toSet)
        invariant Scanned(waiting[..i], waiting[i..], toClear, handed, bits) == SetBits(g, toSet)
        decreases |waiting| - i
      {
        var w := waiting[i];
        assert waiting[i..][1..] == waiting[i + 1..];
        if Met(w.value, bits) {
          ScanWakes(waiting[..i], waiting[i..], toClear, handed, bits);
          toClear := Gather(toClear, w);
          handed := handed[w.task := HandedValue(bits)];
          Unlink(i);
        } else {
          ScanKeeps(waiting[..i], waiting[i..], toClear, handed, bits);
          assert waiting[..i + 1] == waiting[..i] + [w];
          i := i + 1;
        }
      }
      ScanEnd(waiting[..i], waiting[i..], toClear, handed, bits);
      assert waiting[..i] == waiting;
      bits := Without(bits, toClear);
    }

    method Gather(toClear: bv32, w: Waiter) returns (r: bv32)
      requires Met(w.value, bits)
      ensures r == Or(toClear, Contribution(w, bits))
    {
      hide Met, Or, MaskOf, Clears;
      OrZero(toClear);
      r := if Clears(w.value) then Or(toClear, MaskOf(w.value)) else toClear;
    }

    method Unlink(i: nat)
      requires i < |waiting|
      modifies `waiting
      ensures waiting == old(waiting)[..i] + old(waiting)[i + 1..]
      ensures i <= |waiting| == |old(waiting)| - 1 && waiting[..i] == old(waiting)[..i]
              && waiting[i..] == old(waiting)[i + 1..]
    {
      waiting := waiting[..i] + waiting[i + 1..];
    }

    /** xEventGroupClearBits */
    method ClearEventBits(toClear: bv32) returns (before: bv32)
      modifies `bits
      ensures Value() == ClearBits(old(Value()), toClear) && before == old(bits)
      ensures Zeroed(old(bits), bits, toClear)
    {
      ZeroedBits(bits, toClear);
      before := bits;
      bits := Without(bits, toClear);
    }

    /** The suspended region of xEventGroupWaitBits */
    method WaitForBits(t: Task, mask: bv32, clear: bool, all: bool, wait: bool) returns (result: bv32, blocked: bool)
      modifies `bits, `waiting
      ensures Value() == WaitBits(old(Value()), t, mask, clear, all, wait)
      ensures blocked == (!TestWaitCondition(old(bits), mask, all) && wait)
      ensures !blocked ==> result == old(bits)
      ensures Plain(mask) ==> Waited(old(Value()), Value(), t, mask, clear, all, wait)
    {
      hide TestWaitCondition, ItemValue, Waited, Plain;
      if Plain(mask) {
        WaitCall(Value(), t, mask, clear, all, wait);
      }
      result := bits;
      blocked := false;
      if TestWaitCondition(bits, mask, all) {
        if clear {
          bits := Without(bits, mask);
        }
      } else if wait {
        waiting := waiting + [Waiter(t, ItemValue(mask, clear, all))];
        result := 0;
        blocked := true;
      }
    }

    /** The suspended region of xEventGroupSync */
    method SyncOnBits(t: Task, toSet: bv32, mask: bv32, wait: bool) returns (result: bv32, blocked: bool)
      modifies this
      ensures Value() == Sync(old(Value()), t, toSet, mask, wait)
      ensures blocked == (!Covers(Or(old(bits), toSet), mask) && wait)
      ensures Covers(Or(old(bits), toSet), mask) ==> result == Or(old(bits), toSet)
      ensures !Covers(Or(old(bits), toSet), mask) && !wait ==> result == SetBits(old(Value()), toSet).bits
      ensures Plain(mask) ==> Synced(SetBits(old(Value()), toSet), Value(), t, old(bits) | toSet, mask, wait)
    {
      hide SetBits, ItemValue, Covers, Or, Synced, Plain;
      if Plain(mask) {
        SyncCall(Value(), t, toSet, mask, wait);
      }
      var original := bits;
      SetEventBits(toSet);
      blocked := false;
      if Covers(Or(original, toSet), mask) {
        result := Or(original, toSet);
        bits := Without(bits, mask);
      } else if wait {
        waiting := waiting + [Waiter(t, ItemValue(mask, true, true))];
        result := 0;
        blocked := true;
      } else {
        result := bits;
      }
    }

    /** The end of a call that blocked, for a wait and, with `clear` and `all`, for a sync */
    method ReturnFromWait(t: Task, mask: bv32, clear: bool, all: bool) returns (result: bv32)
      requires t in handed
      modifies `bits, `handed
      ensures Value() == Resume(old(Value()), t, mask, clear, all) && result == Returned(old(Value()), t)
      ensures Finished(old(Value()), Value(), t, mask, clear, all)
    {
      hide TestWaitCondition, Apart, Finished;
      ResumeCall(Value(), t, mask, clear, all);
      result := handed[t];
      handed := handed - {t};
      if !WasUnblocked(result) {
        result := bits;
        if TestWaitCondition(result, mask, all) && clear {
          bits := Without(bits, mask);
        }
      }
      result := MaskOf(result);
    }
  }

  lemma ScanStart(g: Group, toSet: bv32)
    ensures Scanned([], g.waiting, 0, g.handed, Or(g.bits, toSet)) == SetBits(g, toSet)
    ensures g.waiting[..0] == [] && g.waiting[0..] == g.waiting
  {
    hide Met, ClearMask, StillWaiting, Woken, Hand, HandedValue, Or, Without;
    OrZero(ClearMask(g.waiting, Or(g.bits, toSet)));
  }

  lemma ScanEnd(kept: seq<Waiter>, rest: seq<Waiter>, clear: bv32, handed: map<Task, bv32>, bits: bv32)
    requires rest == []
    ensures Scanned(kept, rest, clear, handed, bits) == Group(Without(bits, clear), kept, handed)
  {
    hide Met, HandedValue, Or, Without;
    OrZero(clear);
  }
}
