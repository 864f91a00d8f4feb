/** The descriptor rings of eth_driver_RMII.c, shared between the CPU and the Ethernet DMA. */
module EthRings {

  type Byte = b: nat | b < 256
  type Frame = seq<Byte>

  /** The fields of ETH_DMADESCTypeDef the driver looks at: the OWN bit of Status, whether the
      error bit is clear and the first and last bits set, and the buffer with its length. */
  datatype Desc = Desc(own: bool, good: bool, frame: Frame)

  /** Buffer2NextDescAddr: the descriptors form one circle. */
  function Next(i: nat, n: nat): (j: nat)
    requires i < n
    ensures j < n
  {
    if i + 1 == n then 0 else i + 1
  }

  function At(start: nat, i: nat, n: nat): (j: nat)
    requires start < n && i <= n
    ensures j < n
  {
    if start + i < n then start + i else start + i - n
  }

  lemma AtSteps(start: nat, i: nat, n: nat)
    requires start < n && i < n
    ensures At(Next(start, n), i, n) == At(start, i + 1, n)
    ensures At(start, i + 1, n) == Next(At(start, i, n), n)
    ensures At(start, 0, n) == At(start, n, n) == start
  {
  }

  lemma AtDistinct(start: nat, i: nat, j: nat, n: nat)
    requires start < n && i < j < n
    ensures At(start, i, n) != At(start, j, n)
  {
  }

  /** The `k` descriptors from `start` on, in order. */
  function Section(descs: seq<Desc>, start: nat, k: nat): (s: seq<Desc>)
    requires start < |descs| && k <= |descs|
    ensures |s| == k && forall i :: 0 <= i < k ==> s[i] == descs[At(start, i, |descs|)]
  {
    seq(k, i requires 0 <= i < k => descs[At(start, i, |descs|)])
  }

  /** Exactly the `k` descriptors from `start` on have OWN bit `own`. */
  predicate Contiguous(descs: seq<Desc>, start: nat, k: nat, own: bool)
    requires start < |descs| && k <= |descs|
  {
    forall i :: 0 <= i < |descs| ==> descs[At(start, i, |descs|)].own == if i < k then own else !own
  }

  /** The section loses its first descriptor. */
  lemma GiveFirst(descs: seq<Desc>, start: nat, k: nat, own: bool, d: Desc)
    requires start < |descs| && 0 < k <= |descs| && Contiguous(descs, start, k, own) && d.own == !own
    ensures var n := |descs|;
            var descs' := descs[start := d];
            && Contiguous(descs', Next(start, n), k - 1, own)
            && Section(descs', Next(start, n), k - 1) == Section(descs, start, k)[1..]
            && Section(descs, start, k)[0] == descs[start]
            && At(Next(start, n), k - 1, n) == At(start, k, n)
  {
    var n := |descs|;
    var descs' := descs[start := d];
    forall i | 0 <= i < n
      ensures descs'[At(Next(start, n), i, n)].own == if i < k - 1 then own else !own
    {
      AtSteps(start, i, n);
      if i + 1 < n {
        AtDistinct(start, 0, i + 1, n);
        assert descs[At(start, i + 1, n)].own == if i + 1 < k then own else !own;
      }
    }
    var s := Section(descs', Next(start, n), k - 1);
    forall i | 0 <= i < k - 1
      ensures s[i] == Section(descs, start, k)[i + 1]
    {
      AtSteps(start, i, n);
      AtDistinct(start, 0, i + 1, n);
    }
    AtSteps(start, k - 1, n);
  }

  /** The section grows by the descriptor behind it. */
  lemma TakeNext(descs: seq<Desc>, start: nat, k: nat, own: bool, d: Desc)
    requires start < |descs| && k < |descs| && Contiguous(descs, start, k, own) && d.own == own
    ensures var n := |descs|;
            var at := At(start, k, n);
            var descs' := descs[at := d];
            && descs[at].own == !own
            && Contiguous(descs', start, k + 1, own)
            && Section(descs', start, k + 1) == Section(descs, start, k) + [d]
            && Next(at, n) == At(start, k + 1, n)
  {
    var n := |descs|;
    var at := At(start, k, n);
    var descs' := descs[at := d];
    forall i | 0 <= i < n
      ensures descs'[At(start, i, n)].own == if i < k + 1 then own else !own
      ensures i != k ==> descs'[At(start, i, n)] == descs[At(start, i, n)]
    {
      if i < k {
        AtDistinct(start, i, k, n);
      } else if k < i {
        AtDistinct(start, k, i, n);
      }
    }
    assert Section(descs', start, k + 1) == Section(descs, start, k) + [d];
    AtSteps(start, k, n);
  }

  // ----- reception

  /** `cpu` is pDMARxSet and `dma` the descriptor the DMA will fill next. A frame is `held` from
      a peek that returned it to the matching free. `arrived` and `delivered` are not in the
      source: the frames the DMA has stored, and the good ones handed over and freed. */
  datatype Rx = Rx(descs: seq<Desc>, cpu: nat, dma: nat, held: bool, arrived: seq<Desc>, delivered: seq<Frame>)

  datatype RxOp =
    | Arrive(good: bool, frame: Frame)
    | Discard
    | Peek
    | Free

  predicate Sized(r: Rx) {
    r.cpu < |r.descs| && r.dma < |r.descs|
  }

  /** A peek finds a good frame, or discards a bad one and looks again; a frame is freed only
      after a peek. */
  predicate RxEnabled(r: Rx, op: RxOp)
    requires Sized(r)
  {
    match op
    case Arrive(_, _) => true
    case Discard => !r.held && !r.descs[r.cpu].own && !r.descs[r.cpu].good
    case Peek => !r.held && !r.descs[r.cpu].own && r.descs[r.cpu].good
    case Free => r.held
  }

  /** Status = ETH_DMARxDesc_OWN, then on to the next descriptor */
  function Return(r: Rx): Rx
    requires Sized(r)
  {
    r.(descs := r.descs[r.cpu := r.descs[r.cpu].(own := true, good := false)], cpu := Next(r.cpu, |r.descs|))
  }

  function RxStep(r: Rx, op: RxOp): Rx
    requires Sized(r) && RxEnabled(r, op)
  {
    match op
    case Arrive(good, frame) =>
      var d := Desc(false, good, frame);
      if r.descs[r.dma].own
      then r.(descs := r.descs[r.dma := d], dma := Next(r.dma, |r.descs|), arrived := r.arrived + [d])
      else r
    case Discard => Return(r)
    case Peek => r.(held := true)
    case Free => Return(r).(held := false, delivered := r.delivered + [r.descs[r.cpu].frame])
  }

  function GoodFrames(ds: seq<Desc>): seq<Frame> {
    if ds == [] then [] else (if ds[0].good then [ds[0].frame] else []) + GoodFrames(ds[1..])
  }

  lemma {:induction false} GoodAppend(a: seq<Desc>, b: seq<Desc>)
    ensures GoodFrames(a + b) == GoodFrames(a) + GoodFrames(b)
    decreases |a|
  {
    if a == [] {
      assert a + b == b;
    } else {
      GoodAppend(a[1..], b);
      GoodCons(a, b);
    }
  }

  lemma GoodCons(a: seq<Desc>, b: seq<Desc>)
    requires a != [] && GoodFrames(a[1..] + b) == GoodFrames(a[1..]) + GoodFrames(b)
    ensures GoodFrames(a + b) == GoodFrames(a) + GoodFrames(b)
  {
    var first := if a[0].good then [a[0].frame] else [];
    assert (a + b)[0] == a[0] && (a + b)[1..] == a[1..] + b;
    GoodFirst(a);
    GoodFirst(a + b);
    hide GoodFrames;
    JoinFirst(first, GoodFrames(a[1..]), GoodFrames(b));
  }

  lemma GoodFirst(s: seq<Desc>)
    requires s != []
    ensures GoodFrames(s) == (if s[0].good then [s[0].frame] else []) + GoodFrames(s[1..])
  {
  }

  lemma JoinFirst(a: seq<Frame>, b: seq<Frame>, c: seq<Frame>)
    ensures a + (b + c) == a + b + c
  {
  }

  /** The descriptors the CPU owns are the `k` from `cpu` on, and the DMA fills the one behind
      them; what has arrived and was not handed over yet is in them, in order. */
  ghost predicate RxOwned(r: Rx, k: nat) {
    && Sized(r) && k <= |r.descs| && Contiguous(r.descs, r.cpu, k, false) && r.dma == At(r.cpu, k, |r.descs|)
    && GoodFrames(r.arrived) == r.delivered + GoodFrames(Section(r.descs, r.cpu, k))
    && (r.held ==> k > 0 && r.descs[r.cpu].good)
  }

  lemma ArriveOwned(r: Rx, k: nat, good: bool, frame: Frame)
    requires RxOwned(r, k)
    ensures r.descs[r.dma].own <==> k < |r.descs|
    ensures RxOwned(RxStep(r, Arrive(good, frame)), if k < |r.descs| then k + 1 else k)
    ensures RxStep(r, Arrive(good, frame)).arrived
            == r.arrived + if k < |r.descs| then [Desc(false, good, frame)] else []
    ensures r.held ==> RxStep(r, Arrive(good, frame)).descs[r.cpu] == r.descs[r.cpu]
  {
    hide GoodFrames, Section, Contiguous;
    var n := |r.descs|;
    if k < n {
      var d := Desc(false, good, frame);
      TakeNext(r.descs, r.cpu, k, false, d);
      GoodAppend(r.arrived, [d]);
      GoodAppend(Section(r.descs, r.cpu, k), [d]);
      if k > 0 {
        AtDistinct(r.cpu, 0, k, n);
      }
    } else {
      FullIsOurs(r.descs, r.cpu, k);
    }
  }

  lemma FullIsOurs(descs: seq<Desc>, start: nat, k: nat)
    requires start < |descs| && k == |descs| && Contiguous(descs, start, k, false)
    ensures !descs[start].own && At(start, k, |descs|) == start
  {
    assert At(start, 0, |descs|) == start;
  }

  lemma ReturnOwned(r: Rx, k: nat)
    requires RxOwned(r, k) && k > 0
    ensures var r' := Return(r);
            && Contiguous(r'.descs, r'.cpu, k - 1, false) && r'.dma == At(r'.cpu, k - 1, |r'.descs|)
            && GoodFrames(r.arrived) == r.delivered + (if r.descs[r.cpu].good then [r.descs[r.cpu].frame] else [])
                                        + GoodFrames(Section(r'.descs, r'.cpu, k - 1))
  {
    GiveFirst(r.descs, r.cpu, k, false, r.descs[r.cpu].(own := true, good := false));
    hide Section, Contiguous;
    assert GoodFrames(Section(r.descs, r.cpu, k))
        == (if r.descs[r.cpu].good then [r.descs[r.cpu].frame] else []) + GoodFrames(Section(r.descs, r.cpu, k)[1..]);
  }

  lemma OwnedHead(r: Rx, k: nat)
    requires RxOwned(r, k)
    ensures Sized(r) && (!r.descs[r.cpu].own <==> k > 0)
  {
    assert At(r.cpu, 0, |r.descs|) == r.cpu;
  }

  lemma RxStepOwned(r: Rx, k: nat, op: RxOp) returns (k': nat)
    requires RxOwned(r, k) && RxEnabled(r, op)
    ensures RxOwned(RxStep(r, op), k')
  {
    hide GoodFrames, Section, Contiguous;
    OwnedHead(r, k);
    k' := k;
    match op {
      case Arrive(good, frame) =>
        ArriveOwned(r, k, good, frame);
        k' := if k < |r.descs| then k + 1 else k;
      case Discard =>
        ReturnOwned(r, k);
        k' := k - 1;
      case Peek =>
      case Free =>
        ReturnOwned(r, k);
        k' := k - 1;
    }
  }

  ghost predicate RxAllowed(r: Rx, ops: seq<RxOp>)
    decreases |ops|
  {
    ops == [] || (Sized(r) && RxEnabled(r, ops[0]) && RxAllowed(RxStep(r, ops[0]), ops[1..]))
  }

  ghost function RxRun(r: Rx, ops: seq<RxOp>): Rx
    requires RxAllowed(r, ops)
    decreases |ops|
  {
    if ops == [] then r else RxRun(RxStep(r, ops[0]), ops[1..])
  }

  lemma {:induction false} RxRunOwned(r: Rx, k: nat, ops: seq<RxOp>) returns (k': nat)
    requires RxOwned(r, k) && RxAllowed(r, ops)
    ensures RxOwned(RxRun(r, ops), k')
    decreases |ops|
  {
    hide RxOwned, RxStep, RxEnabled;
    if ops == [] {
      k' := k;
    } else {
      var k1 := RxStepOwned(r, k, ops[0]);
      k' := RxRunOwned(RxStep(r, ops[0]), k1, ops[1..]);
    }
  }

  lemma {:induction false} RxRunAppend(r: Rx, ops: seq<RxOp>, op: RxOp)
    requires RxAllowed(r, ops)
    requires var r' := RxRun(r, ops); Sized(r') && RxEnabled(r', op)
    ensures RxAllowed(r, ops + [op]) && RxRun(r, ops + [op]) == RxStep(RxRun(r, ops), op)
    decreases |ops|
  {
    hide RxStep, RxEnabled, Sized;
    if ops == [] {
      assert ops + [op] == [op];
      assert [op][1..] == [];
    } else {
      assert (ops + [op])[0] == ops[0] && (ops + [op])[1..] == ops[1..] + [op];
      RxRunAppend(RxStep(r, ops[0]), ops[1..], op);
    }
  }

  /** For any ring size and any interleaving: the descriptors the CPU owns are one run starting
      at pDMARxSet, and the good frames are delivered once each, in order of arrival; none is
      outstanding once the CPU owns no descriptor. */
  lemma RxDelivery(r: Rx, k: nat, ops: seq<RxOp>)
    requires RxOwned(r, k) && RxAllowed(r, ops)
    ensures var r' := RxRun(r, ops);
            && (exists k' :: RxOwned(r', k'))
            && r'.delivered <= GoodFrames(r'.arrived)
            && (Sized(r') && r'.descs[r'.cpu].own ==> r'.delivered == GoodFrames(r'.arrived))
  {
    hide GoodFrames, Contiguous, Section, RxRun, RxAllowed;
    var k' := RxRunOwned(r, k, ops);
    var r' := RxRun(r, ops);
    OwnedHead(r', k');
    EmptyFrames(Section(r'.descs, r'.cpu, k'));
  }

  lemma EmptyFrames(s: seq<Desc>)
    ensures s == [] ==> GoodFrames(s) == []
  {
  }

  /** While a peeked frame is held, no action but its free touches it. */
  lemma HeldUntouched(r: Rx, k: nat, op: RxOp)
    requires RxOwned(r, k) && RxEnabled(r, op) && r.held && !op.Free?
    ensures RxStep(r, op).cpu == r.cpu && RxStep(r, op).descs[r.cpu] == r.descs[r.cpu] && RxStep(r, op).held
  {
    if op.Arrive? {
      ArriveOwned(r, k, op.good, op.frame);
    }
  }

  /** ETH_DMARxDescChainInit: every descriptor is the DMA's, and both start at the first. */
  lemma RxStart(descs: seq<Desc>)
    requires descs != [] && forall i :: 0 <= i < |descs| ==> descs[i].own
    ensures RxOwned(Rx(descs, 0, 0, false, [], []), 0)
  {
  }

  // ----- transmission

  /** `cpu` is DMATxDescToSet. `got` says that ETH_GetTxBuf returned this buffer and no frame
      was committed since. */
  datatype Tx = Tx(descs: seq<Desc>, cpu: nat, dma: nat, got: bool, committed: seq<Frame>, sent: seq<Frame>)

  datatype TxOp =
    | GetBuf
    | Fill(frame: Frame)
    | Commit
    | Transmit

  predicate TxSized(t: Tx) {
    t.cpu < |t.descs| && t.dma < |t.descs|
  }

  predicate TxEnabled(t: Tx, op: TxOp) {
    match op
    case GetBuf => true
    case Fill(_) => t.got
    case Commit => t.got
    case Transmit => true
  }

  function TxStep(t: Tx, op: TxOp): Tx
    requires TxSized(t) && TxEnabled(t, op)
  {
    match op
    case GetBuf => if t.descs[t.cpu].own then t else t.(got := true)
    case Fill(frame) => t.(descs := t.descs[t.cpu := t.descs[t.cpu].(frame := frame)])
    case Commit =>
      t.(descs := t.descs[t.cpu := t.descs[t.cpu].(own := true, good := true)], cpu := Next(t.cpu, |t.descs|),
          got := false,
         committed := t.committed + [t.descs[t.cpu].frame])
    case Transmit =>
      if t.descs[t.dma].own
      then t.(descs := t.descs[t.dma := t.descs[t.dma].(own := false)], dma := Next(t.dma, |t.descs|),
              sent := t.sent + [t.descs[t.dma].frame])
      else t
  }

  function FramesOf(ds: seq<Desc>): (fs: seq<Frame>)
    ensures |fs| == |ds| && forall i :: 0 <= i < |fs| ==> fs[i] == ds[i].frame
  {
    seq(|ds|, i requires 0 <= i < |ds| => ds[i].frame)
  }

  /** The descriptors the DMA owns are the `k` before DMATxDescToSet, and hold what was
      committed and has not left yet. */
  ghost predicate TxOwned(t: Tx, k: nat) {
    && TxSized(t) && k <= |t.descs| && Contiguous(t.descs, t.dma, k, true) && t.cpu == At(t.dma, k, |t.descs|)
    && t.committed == t.sent + FramesOf(Section(t.descs, t.dma, k))
    && (t.got ==> k < |t.descs|)
  }

  lemma TxFull(t: Tx, k: nat)
    requires TxOwned(t, k)
    ensures t.descs[t.cpu].own <==> k == |t.descs|
    ensures t.descs[t.dma].own <==> k > 0
  {
    assert At(t.dma, 0, |t.descs|) == t.dma;
  }

  lemma FillOwned(t: Tx, k: nat, frame: Frame)
    requires TxOwned(t, k) && t.got
    ensures TxOwned(TxStep(t, Fill(frame)), k)
  {
    var t' := TxStep(t, Fill(frame));
    var n := |t.descs|;
    forall i | 0 <= i < k
      ensures At(t.dma, i, n) != t.cpu
    {
      AtDistinct(t.dma, i, k, n);
    }
    assert Section(t'.descs, t.dma, k) == Section(t.descs, t.dma, k);
  }

  lemma CommitOwned(t: Tx, k: nat)
    requires TxOwned(t, k) && t.got
    ensures TxOwned(TxStep(t, Commit), k + 1)
  {
    hide Section, Contiguous;
    TxFull(t, k);
    TakeNext(t.descs, t.dma, k, true, t.descs[t.cpu].(own := true, good := true));
    assert FramesOf(Section(t.descs, t.dma, k) + [t.descs[t.cpu].(own := true, good := true)])
        == FramesOf(Section(t.descs, t.dma, k)) + [t.descs[t.cpu].frame];
  }

  lemma TransmitOwned(t: Tx, k: nat)
    requires TxOwned(t, k)
    ensures TxOwned(TxStep(t, Transmit), if k > 0 then k - 1 else 0)
  {
    hide Section, Contiguous, FramesOf;
    TxFull(t, k);
    if k > 0 {
      GiveFirst(t.descs, t.dma, k, true, t.descs[t.dma].(own := false));
      FirstFrame(t.sent, Section(t.descs, t.dma, k));
    }
  }

  lemma FirstFrame(before: seq<Frame>, s: seq<Desc>)
    requires s != []
    ensures before + FramesOf(s) == before + [s[0].frame] + FramesOf(s[1..])
  {
    assert FramesOf(s) == [s[0].frame] + FramesOf(s[1..]);
  }

  lemma TxStepOwned(t: Tx, k: nat, op: TxOp) returns (k': nat)
    requires TxOwned(t, k) && TxEnabled(t, op)
    ensures TxOwned(TxStep(t, op), k')
  {
    hide Section, Contiguous;
    k' := k;
    match op {
      case GetBuf => TxFull(t, k);
      case Fill(frame) => FillOwned(t, k, frame);
      case Commit =>
        CommitOwned(t, k);
        k' := k + 1;
      case Transmit =>
        TransmitOwned(t, k);
        k' := if k > 0 then k - 1 else 0;
    }
  }

  function Transmits(n: nat): seq<TxOp>
    decreases n
  {
    if n == 0 then [] else [Transmit] + Transmits(n - 1)
  }

  /** While the CPU fills the buffer it got, the DMA sends others. */
  lemma TransmitElsewhere(t: Tx, k: nat)
    requires TxOwned(t, k) && t.got
    ensures var t' := TxStep(t, Transmit);
            && TxOwned(t', if k > 0 then k - 1 else 0) && t'.got && t'.cpu == t.cpu && t'.committed == t.committed
            && t'.descs[t.cpu] == t.descs[t.cpu]
  {
    TransmitOwned(t, k);
    TxFull(t, k);
  }

  lemma {:induction false} SendsWhatItHolds(t: Tx, k: nat, n: nat)
    requires TxOwned(t, k) && t.got
    ensures TxAllowed(t, Transmits(n) + [Commit])
    ensures TxRun(t, Transmits(n) + [Commit]).committed == t.committed + [t.descs[t.cpu].frame]
    decreases n
  {
    hide TxOwned;
    TxGot(t, k);
    if n == 0 {
      assert Transmits(n) + [Commit] == [Commit];
    } else {
      TransmitElsewhere(t, k);
      SendsWhatItHolds(TxStep(t, Transmit), if k > 0 then k - 1 else 0, n - 1);
      assert Transmits(n) + [Commit] == [Transmit] + (Transmits(n - 1) + [Commit]);
    }
  }

  lemma TxGot(t: Tx, k: nat)
    requires TxOwned(t, k)
    ensures TxSized(t)
  {
  }

  /** A buffer is to be had exactly while the DMA does not own them all, and the frame written into
      it last is the one that is committed, whatever the DMA sends meanwhile. */
  lemma WrittenIsCommitted(t: Tx, k: nat, frame: Frame, n: nat)
    requires TxOwned(t, k)
    ensures TxSized(t) && (TxStep(t, GetBuf).got <==> t.got || k < |t.descs|)
    ensures t.got ==>
              var ops := [Fill(frame)] + (Transmits(n) + [Commit]);
              TxAllowed(t, ops) && TxRun(t, ops).committed == t.committed + [frame]
  {
    TxFull(t, k);
    if t.got {
      var t' := TxStep(t, Fill(frame));
      var ops := [Fill(frame)] + (Transmits(n) + [Commit]);
      FillOwned(t, k, frame);
      SendsWhatItHolds(t', k, n);
      assert ops[1..] == Transmits(n) + [Commit];
    }
  }

  ghost predicate TxAllowed(t: Tx, ops: seq<TxOp>)
    decreases |ops|
  {
    ops == [] || (TxSized(t) && TxEnabled(t, ops[0]) && TxAllowed(TxStep(t, ops[0]), ops[1..]))
  }

  ghost function TxRun(t: Tx, ops: seq<TxOp>): Tx
    requires TxAllowed(t, ops)
    decreases |ops|
  {
    if ops == [] then t else TxRun(TxStep(t, ops[0]), ops[1..])
  }

  lemma {:induction false} TxRunOwned(t: Tx, k: nat, ops: seq<TxOp>) returns (k': nat)
    requires TxOwned(t, k) && TxAllowed(t, ops)
    ensures TxOwned(TxRun(t, ops), k')
    decreases |ops|
  {
    hide TxOwned, TxStep, TxEnabled;
    if ops == [] {
      k' := k;
    } else {
      var k1 := TxStepOwned(t, k, ops[0]);
      k' := TxRunOwned(TxStep(t, ops[0]), k1, ops[1..]);
    }
  }

  /** For any ring size and any interleaving, frames leave unchanged and in the order they were
      committed, and all have left when the DMA owns no descriptor. */
  lemma TxDelivery(t: Tx, k: nat, ops: seq<TxOp>)
    requires TxOwned(t, k) && TxAllowed(t, ops)
    ensures var t' := TxRun(t, ops);
            && (exists k' :: TxOwned(t', k'))
            && t'.sent <= t'.committed
            && (TxSized(t') && !t'.descs[t'.dma].own ==> t'.sent == t'.committed)
  {
    hide Contiguous, Section, TxRun, TxAllowed;
    var k' := TxRunOwned(t, k, ops);
    TxFull(TxRun(t, ops), k');
  }

  /** ETH_DMATxDescChainInit: no descriptor is the DMA's, and both start at the first. */
  lemma TxStart(descs: seq<Desc>)
    requires descs != [] && forall i :: 0 <= i < |descs| ==> !descs[i].own
    ensures TxOwned(Tx(descs, 0, 0, false, [], []), 0)
  {
  }

  /** A buffer the DMA owns is never written by the CPU: what it was given it keeps. */
  lemma OwnedUntouched(t: Tx, k: nat, op: TxOp, i: nat)
    requires TxOwned(t, k) && TxEnabled(t, op) && !op.Transmit? && i < |t.descs| && t.descs[i].own
    ensures TxStep(t, op).descs[i] == t.descs[i]
  {
    TxFull(t, k);
  }

  // ----- the driver

  datatype Peeked = Nothing | Found(frame: Frame, length: nat)

  /** What the DMA has received from the line. */
  datatype Arrival = Arrival(good: bool, frame: Frame)

  lemma ArriveAllowed(r: Rx, k: nat, a: Arrival)
    requires RxOwned(r, k)
    ensures Sized(r) && RxEnabled(r, Arrive(a.good, a.frame))
  {
  }

  lemma HeadAllowed(r: Rx, k: nat)
    requires RxOwned(r, k) && !r.held && k > 0
    ensures Sized(r) && RxEnabled(r, if r.descs[r.cpu].good then Peek else Discard)
  {
    OwnedHead(r, k);
  }

  lemma Nowhere(r: Rx)
    ensures RxAllowed(r, []) && RxRun(r, []) == r
  {
  }

  lemma RxStepKeeps(r: Rx, k: nat, op: RxOp)
    requires RxOwned(r, k) && RxEnabled(r, op) && (op.Peek? || op.Discard?) && k > 0
    ensures RxOwned(RxStep(r, op), if op.Peek? then k else k - 1)
  {
    hide GoodFrames, Section, Contiguous;
    ReturnOwned(r, k);
  }

  class EthDriver {
    const rx: array<Desc>
    const tx: array<Desc>
    var rxSet: nat
    var txSet: nat
    var rxDma: nat
    ghost var txDma: nat
    ghost var held: bool
    ghost var got: bool
    ghost var arrived: seq<Desc>
    ghost var delivered: seq<Frame>
    ghost var committed: seq<Frame>
    ghost var sent: seq<Frame>

    ghost function RxValue(): Rx
      reads this, rx
    {
      Rx(rx[..], rxSet, rxDma, held, arrived, delivered)
    }

    ghost function TxValue(): Tx
      reads this, tx
    {
      Tx(tx[..], txSet, txDma, got, committed, sent)
    }

    /** The DMA stores a frame in the descriptor that is its own and next, if any. */
    method DmaStore(a: Arrival, ghost k: nat) returns (ghost k': nat)
      requires RxOwned(RxValue(), k)
      modifies rx, `rxDma, `arrived
      ensures RxValue() == RxStep(old(RxValue()), Arrive(a.good, a.frame)) && RxOwned(RxValue(), k') && k' >= k
    {
      hide Contiguous, Section, GoodFrames;
      ArriveOwned(RxValue(), k, a.good, a.frame);
      k' := if k < rx.Length then k + 1 else k;
      if rx[rxDma].own {
        rx[rxDma] := Desc(false, a.good, a.frame);
        arrived := arrived + [rx[rxDma]];
        rxDma := Next(rxDma, rx.Length);
      }
    }

    /** What arrives between two rounds of ETH_RecPeek; `ops` are the actions since `start`. */
    method DmaBurst(burst: seq<Arrival>, ghost k: nat, ghost start: Rx, ghost ops: seq<RxOp>)
      returns (ghost k': nat, ghost ops': seq<RxOp>)
      requires RxOwned(RxValue(), k) && RxAllowed(start, ops) && RxValue() == RxRun(start, ops)
      requires forall op :: op in ops ==> op.Discard? || op.Arrive?
      modifies rx, `rxDma, `arrived
      ensures RxOwned(RxValue(), k') && RxAllowed(start, ops') && RxValue() == RxRun(start, ops')
      ensures (forall op :: op in ops' ==> op.Discard? || op.Arrive?) && |ops'| == |ops| + |burst|
    {
      hide RxOwned, RxRun, RxAllowed;
      k', ops' := k, ops;
      for i := 0 to |burst|
        invariant RxOwned(RxValue(), k') && RxAllowed(start, ops') && RxValue() == RxRun(start, ops')
        invariant (forall op :: op in ops' ==> op.Discard? || op.Arrive?) && |ops'| == |ops| + i
      {
        ArriveAllowed(RxValue(), k', burst[i]);
        RxRunAppend(start, ops', Arrive(burst[i].good, burst[i].frame));
        k' := DmaStore(burst[i], k');
        ops' := ops' + [Arrive(burst[i].good, burst[i].frame)];
      }
    }

    /** ETH_RecPeek: every bad frame in front of the first good one goes back to the DMA, while
        the DMA goes on storing frames, `arrivals[i]` after the round number `i`. */
    method RecPeek(arrivals: seq<seq<Arrival>>, ghost k: nat) returns (result: Peeked, ghost k': nat,
        ghost ops: seq<RxOp>)
      requires RxOwned(RxValue(), k) && !held
      modifies rx, `rxSet, `rxDma, `arrived, `held
      ensures RxOwned(RxValue(), k') && RxAllowed(old(RxValue()), ops) && RxValue() == RxRun(old(RxValue()), ops)
      ensures forall i :: 0 <= i < |ops| ==> ops[i].Discard? || ops[i].Arrive? || (i == |ops| - 1 && ops[i] == Peek)
      ensures result.Nothing? <==> k' == 0
      ensures result.Found? ==> held && rx[rxSet].good && result.frame == rx[rxSet].frame
                                && result.length == (|result.frame| + 65532) % 65536
      ensures result.Nothing? ==> !held && rx[rxSet].own
    {
      hide RxOwned, RxRun, RxAllowed;
      ghost var start := RxValue();
      k', ops := k, [];
      Nowhere(start);
      OwnedHead(RxValue(), k');
      var round := 0;
      while !rx[rxSet].own
        invariant rxSet < rx.Length && RxOwned(RxValue(), k') && !held
        invariant RxAllowed(start, ops) && RxValue() == RxRun(start, ops)
        invariant forall op :: op in ops ==> op.Discard? || op.Arrive?
        invariant !rx[rxSet].own <==> k' > 0
        decreases if round < |arrivals| then |arrivals| - round else 0, k'
      {
        HeadAllowed(RxValue(), k');
        if rx[rxSet].good {
          RxRunAppend(start, ops, Peek);
          RxStepKeeps(RxValue(), k', Peek);
          held := true;
          ops := ops + [Peek];
          result := Found(rx[rxSet].frame, (|rx[rxSet].frame| + 65532) % 65536);
          return;
        }
        RxRunAppend(start, ops, Discard);
        RxStepKeeps(RxValue(), k', Discard);
        ghost var next := Return(RxValue());
        rx[rxSet] := rx[rxSet].(own := true, good := false);
        rxSet := Next(rxSet, rx.Length);
        assert RxValue() == next;
        k', ops := k' - 1, ops + [Discard];
        if round < |arrivals| {
          k', ops := DmaBurst(arrivals[round], k', start, ops);
          round := round + 1;
        }
        OwnedHead(RxValue(), k');
      }
      result := Nothing;
    }

    /** ETH_RecFree */
    method RecFree(ghost k: nat)
      requires RxOwned(RxValue(), k) && held
      modifies rx, `rxSet, `held, `delivered
      ensures RxValue() == RxStep(old(RxValue()), Free) && k > 0 && RxOwned(RxValue(), k - 1)
    {
      ReturnOwned(RxValue(), k);
      hide Contiguous, Section, GoodFrames;
      delivered := delivered + [rx[rxSet].frame];
      held := false;
      rx[rxSet] := rx[rxSet].(own := true, good := false);
      rxSet := Next(rxSet, rx.Length);
    }

    /** ETH_GetTxBuf */
    method GetTxBuf(ghost k: nat) returns (available: bool)
      requires TxOwned(TxValue(), k)
      modifies `got
      ensures TxValue() == TxStep(old(TxValue()), GetBuf) && TxOwned(TxValue(), k)
      ensures available == (k < tx.Length)
    {
      TxFull(TxValue(), k);
      hide Contiguous, Section, FramesOf;
      if tx[txSet].own {
        available := false;
      } else {
        got := true;
        available := true;
      }
    }

    /** ETH_SendFrame, for a frame already copied into the buffer */
    method SendFrame(ghost k: nat)
      requires TxOwned(TxValue(), k) && got
      modifies tx, `txSet, `got, `committed
      ensures TxValue() == TxStep(old(TxValue()), Commit) && TxOwned(TxValue(), k + 1)
    {
      CommitOwned(TxValue(), k);
      hide Contiguous, Section, FramesOf;
      committed := committed + [tx[txSet].frame];
      got := false;
      tx[txSet] := tx[txSet].(own := true, good := true);
      txSet := Next(txSet, tx.Length);
    }
  }
}
