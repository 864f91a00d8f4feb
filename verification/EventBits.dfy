/** The bits of event_groups.c: wait conditions, control bits, what a set call wakes. */
module EventBits {
  import opened Kernel

  const CLEAR_ON_EXIT: bv32 := 0x0100_0000
  const UNBLOCKED: bv32 := 0x0200_0000
  const WAIT_FOR_ALL: bv32 := 0x0400_0000
  const CONTROL: bv32 := 0xff00_0000
  const IN_USE: bv32 := 0x8000_0000

  /** A blocked task with the value of its event list item. */
  datatype Waiter = Waiter(task: Task, value: bv32)

  // The bit operations have names so that proofs about lists can keep them closed.

  function Or(a: bv32, b: bv32): bv32 {
    a | b
  }

  function Without(a: bv32, gone: bv32): bv32 {
    a & !gone
  }

  predicate Covers(bits: bv32, mask: bv32) {
    bits & mask == mask
  }

  predicate Apart(bits: bv32, mask: bv32) {
    bits & mask == 0
  }

  /** No control bits. */
  predicate Plain(bits: bv32) {
    Apart(bits, CONTROL)
  }

  predicate Flagged(value: bv32) {
    !Apart(value, IN_USE)
  }

  predicate WasUnblocked(value: bv32) {
    !Apart(value, UNBLOCKED)
  }

  /** prvTestWaitCondition */
  predicate TestWaitCondition(bits: bv32, mask: bv32, all: bool) {
    if all then Covers(bits, mask) else !Apart(bits, mask)
  }

  function MaskOf(value: bv32): bv32 {
    Without(value, CONTROL)
  }

  /** The item value that a waiting call stores. */
  function ItemValue(mask: bv32, clear: bool, all: bool): bv32 {
    mask | (if clear then CLEAR_ON_EXIT else 0) | (if all then WAIT_FOR_ALL else 0) | IN_USE
  }

  /** The condition that xEventGroupSetBits reads back from an item value. */
  predicate Met(value: bv32, bits: bv32) {
    TestWaitCondition(bits, MaskOf(value), !Apart(value, WAIT_FOR_ALL))
  }

  predicate Clears(value: bv32) {
    !Apart(value, CLEAR_ON_EXIT)
  }

  /** The control bits do not disturb the mask, nor the mask them. */
  lemma ItemValueRoundTrip(mask: bv32, clear: bool, all: bool)
    requires Plain(mask)
    ensures var v := ItemValue(mask, clear, all);
            && MaskOf(v) == mask && Clears(v) == clear && Apart(v, WAIT_FOR_ALL) == !all
            && Flagged(v) && !WasUnblocked(v)
  {
  }

  /** Fewer bits never satisfy a condition that more bits did not. */
  lemma MetMonotone(value: bv32, bits: bv32, gone: bv32)
    requires !Met(value, bits)
    ensures !Met(value, Without(bits, gone))
  {
    hide Covers, Apart, Without, MaskOf;
    StillUncovered(bits, gone, MaskOf(value));
    StillApart(bits, gone, MaskOf(value));
  }

  lemma StillApart(bits: bv32, gone: bv32, mask: bv32)
    ensures Apart(bits, mask) ==> Apart(Without(bits, gone), mask)
  {
  }

  lemma OrPlain(a: bv32, b: bv32)
    requires Plain(a) && Plain(b)
    ensures Plain(Or(a, b))
  {
  }

  lemma WithoutFacts(bits: bv32, gone: bv32)
    ensures Plain(bits) ==> Plain(Without(bits, gone))
    ensures Apart(Without(bits, gone), gone)
  {
  }

  lemma WithoutCovered(bits: bv32, gone: bv32, mask: bv32)
    requires Covers(gone, mask)
    ensures Apart(Without(bits, gone), mask)
  {
  }

  lemma WithoutApart(bits: bv32, gone: bv32, bit: bv32)
    requires Apart(gone, bit)
    ensures Without(bits, gone) & bit == bits & bit
  {
  }

  lemma StillUncovered(bits: bv32, gone: bv32, mask: bv32)
    ensures !Covers(bits, mask) ==> !Covers(Without(bits, gone), mask)
  {
  }

  // ----- what a set call does to the waiting list

  function StillWaiting(ws: seq<Waiter>, bits: bv32): seq<Waiter> {
    if ws == [] then []
    else (if Met(ws[0].value, bits) then [] else [ws[0]]) + StillWaiting(ws[1..], bits)
  }

  function Woken(ws: seq<Waiter>, bits: bv32): seq<Waiter> {
    if ws == [] then []
    else (if Met(ws[0].value, bits) then [ws[0]] else []) + Woken(ws[1..], bits)
  }

  /** The union of the masks that the woken tasks asked to have cleared. */
  function ClearMask(ws: seq<Waiter>, bits: bv32): bv32 {
    if ws == [] then 0
    else Or(Contribution(ws[0], bits), ClearMask(ws[1..], bits))
  }

  function Contribution(w: Waiter, bits: bv32): bv32 {
    if Met(w.value, bits) && Clears(w.value) then MaskOf(w.value) else 0
  }

  lemma {:induction false} WakesExactly(ws: seq<Waiter>, bits: bv32)
    ensures forall w :: w in Woken(ws, bits) <==> w in ws && Met(w.value, bits)
    ensures forall w :: w in StillWaiting(ws, bits) <==> w in ws && !Met(w.value, bits)
    decreases |ws|
  {
    hide Met;
    if ws != [] {
      WakesExactly(ws[1..], bits);
      assert ws == [ws[0]] + ws[1..];
    }
  }

  lemma HeadOf(ws: seq<Waiter>, ws': seq<Waiter>)
    requires ws != []
    ensures (ws + ws') != [] && (ws + ws')[0] == ws[0] && (ws + ws')[1..] == ws[1..] + ws'
  {
  }

  lemma Regroup(a: seq<Waiter>, b: seq<Waiter>, c: seq<Waiter>)
    ensures a + (b + c) == (a + b) + c
  {
  }

  lemma ScanHead(ws: seq<Waiter>, bits: bv32)
    requires ws != []
    ensures Woken(ws, bits) == (if Met(ws[0].value, bits) then [ws[0]] else []) + Woken(ws[1..], bits)
    ensures StillWaiting(ws, bits) == (if Met(ws[0].value, bits) then [] else [ws[0]]) + StillWaiting(ws[1..], bits)
  {
    hide Met;
  }

  /** Both keep the order of the list. */
  lemma {:induction false} ScanInOrder(ws: seq<Waiter>, ws': seq<Waiter>, bits: bv32)
    ensures Woken(ws + ws', bits) == Woken(ws, bits) + Woken(ws', bits)
    ensures StillWaiting(ws + ws', bits) == StillWaiting(ws, bits) + StillWaiting(ws', bits)
    decreases |ws|
  {
    if ws == [] {
      assert ws + ws' == ws';
      assert Woken(ws, bits) == [] && StillWaiting(ws, bits) == [];
    } else {
      hide Met, Woken, StillWaiting;
      var m := Met(ws[0].value, bits);
      HeadOf(ws, ws');
      ScanHead(ws, bits);
      ScanHead(ws + ws', bits);
      ScanInOrder(ws[1..], ws', bits);
      Regroup(if m then [ws[0]] else [], Woken(ws[1..], bits), Woken(ws', bits));
      Regroup(if m then [] else [ws[0]], StillWaiting(ws[1..], bits), StillWaiting(ws', bits));
    }
  }

  lemma {:induction false} ClearMaskAt(ws: seq<Waiter>, bits: bv32, i: nat)
    requires i < |ws|
    ensures ClearMask(ws, bits) == Or(Contribution(ws[i], bits), ClearMask(ws[..i] + ws[i + 1..], bits))
    decreases |ws|
  {
    hide Contribution, Or;
    var rest := ws[..i] + ws[i + 1..];
    if i == 0 {
      assert rest == ws[1..];
    } else {
      ClearMaskAt(ws[1..], bits, i - 1);
      assert rest[1..] == ws[1..][..i - 1] + ws[1..][i..];
      OrSwap(Contribution(ws[0], bits), Contribution(ws[i], bits), ClearMask(rest[1..], bits));
    }
  }

  lemma OrSwap(a: bv32, b: bv32, c: bv32)
    ensures Or(a, Or(b, c)) == Or(b, Or(a, c))
  {
  }

  lemma WithoutOne(ws: seq<Waiter>, i: nat)
    requires i < |ws|
    ensures multiset(ws[..i] + ws[i + 1..]) == multiset(ws) - multiset{ws[i]}
  {
    assert ws == ws[..i] + [ws[i]] + ws[i + 1..];
  }

  lemma WithoutFirst(ws: seq<Waiter>)
    requires ws != []
    ensures multiset(ws[1..]) == multiset(ws) - multiset{ws[0]}
  {
    assert ws == [ws[0]] + ws[1..];
  }

  lemma Somewhere(w: Waiter, ws: seq<Waiter>) returns (i: nat)
    requires w in multiset(ws)
    ensures i < |ws| && ws[i] == w
  {
    i :| 0 <= i < |ws| && ws[i] == w;
  }

  lemma SameBag(ws: seq<Waiter>, ws': seq<Waiter>) returns (i: nat)
    requires multiset(ws) == multiset(ws') && ws != []
    ensures i < |ws'| && ws'[i] == ws[0]
    ensures multiset(ws[1..]) == multiset(ws'[..i] + ws'[i + 1..])
  {
    assert ws[0] in multiset(ws);
    i := Somewhere(ws[0], ws');
    WithoutFirst(ws);
    WithoutOne(ws', i);
  }

  lemma EmptyBag(ws: seq<Waiter>)
    requires multiset(ws) == multiset{}
    ensures ws == []
  {
    assert |multiset(ws)| == 0;
  }

  /** The bits cleared do not depend on the order of the waiting list. */
  lemma {:induction false} ClearMaskAnyOrder(ws: seq<Waiter>, ws': seq<Waiter>, bits: bv32)
    requires multiset(ws) == multiset(ws')
    ensures ClearMask(ws, bits) == ClearMask(ws', bits)
    decreases |ws|
  {
    hide ClearMask, Contribution, Or;
    if ws == [] {
      EmptyBag(ws');
    } else {
      var i := SameBag(ws, ws');
      ClearMaskAt(ws, bits, 0);
      ClearMaskAt(ws', bits, i);
      assert ws[..0] + ws[0 + 1..] == ws[1..];
      ClearMaskAnyOrder(ws[1..], ws'[..i] + ws'[i + 1..], bits);
    }
  }

  /** Every woken task that asked for it has its whole mask cleared, and no bit is cleared that
      nobody asked for. */
  lemma {:induction false} ClearMaskCovers(ws: seq<Waiter>, bits: bv32, w: Waiter)
    requires w in ws && Met(w.value, bits) && Clears(w.value)
    ensures Covers(ClearMask(ws, bits), MaskOf(w.value))
  {
    hide Met, Clears, MaskOf, ClearMask, Or, Covers;
    var i :| 0 <= i < |ws| && ws[i] == w;
    ClearMaskAt(ws, bits, i);
    OrCovers(MaskOf(w.value), ClearMask(ws[..i] + ws[i + 1..], bits));
  }

  lemma OrCovers(a: bv32, b: bv32)
    ensures Covers(Or(a, b), a)
  {
  }

  lemma {:induction false} ClearMaskOnly(ws: seq<Waiter>, bits: bv32, bit: bv32)
    requires forall w :: w in ws && Met(w.value, bits) && Clears(w.value) ==> Apart(MaskOf(w.value), bit)
    ensures Apart(ClearMask(ws, bits), bit)
    decreases |ws|
  {
    hide Met, Clears, MaskOf, Or, Apart;
    if ws != [] {
      ClearMaskOnly(ws[1..], bits, bit);
      OrOnly(Contribution(ws[0], bits), ClearMask(ws[1..], bits), bit);
    } else {
      ZeroAnd(bit);
    }
  }

  lemma ZeroAnd(bit: bv32)
    ensures Apart(0, bit)
  {
  }

  lemma OrOnly(a: bv32, b: bv32, bit: bv32)
    requires Apart(b, bit)
    ensures Apart(a, bit) ==> Apart(Or(a, b), bit)
    ensures Apart(0, bit)
  {
  }

  /** What a woken task finds in its item: the bits at the moment of the set call. */
  function HandedValue(bits: bv32): bv32 {
    bits | UNBLOCKED | IN_USE
  }

  lemma HandedBits(bits: bv32)
    ensures Plain(bits) ==> MaskOf(HandedValue(bits)) == bits
    ensures WasUnblocked(HandedValue(bits)) && Flagged(HandedValue(bits))
  {
  }

  // ----- the in-use flag, as the scheduler reads it

  lemma HighHalf(v: bv32)
    ensures v & IN_USE != 0 <==> v >= IN_USE
    ensures v >= IN_USE <==> v as int >= 0x8000_0000
  {
  }

  lemma InUseFlag(v: bv32)
    ensures InUse(v as nat) <==> v & IN_USE != 0
  {
    HighHalf(v);
    UpperHalf(v as nat);
  }

  lemma UpperHalf(n: nat)
    requires n < 0x1_0000_0000
    ensures InUse(n) <==> n >= 0x8000_0000
  {
  }

  /** vTaskPlaceOnUnorderedEventList stores the mask, the control bits and the flag. */
  lemma MarkedValue(v: bv32)
    ensures MarkInUse(v as nat) == (v | IN_USE) as nat
  {
    InUseFlag(v);
    if v & IN_USE == 0 {
      HighHalf(v);
      OrIsSum(v);
    } else {
      OrIsSelf(v);
    }
  }

  lemma OrIsSelf(v: bv32)
    requires v & IN_USE != 0
    ensures v | IN_USE == v
  {
  }

  lemma OrIsSum(v: bv32)
    requires v & IN_USE == 0 && v as int < 0x8000_0000
    ensures (v | IN_USE) as int == v as int + 0x8000_0000
  {
    OrAdds(v);
    SumFits(v);
  }

  lemma OrAdds(v: bv32)
    requires v & IN_USE == 0
    ensures v | IN_USE == v + 0x8000_0000
  {
  }

  lemma SumFits(v: bv32)
    requires v as int < 0x8000_0000
    ensures (v + 0x8000_0000) as int == v as int + 0x8000_0000
  {
  }
}
