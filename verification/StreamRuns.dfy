/** One writer and one reader of a stream buffer, interleaved byte by byte. */
module StreamRuns {
  import opened StreamRing

  /** A writer between its space check and the publication of the head; a reader between its
      count and the publication of the tail. */
  datatype Writer = NotWriting | Writing(data: seq<Byte>, done: nat)
  datatype Reader = NotReading | Reading(count: nat, got: seq<Byte>)

  /** `accepted` and `delivered` are not in the source: all the bytes published so far, and all
      the bytes handed to the receiving task. */
  datatype Stream = Stream(
    buffer: seq<Byte>, head: nat, tail: nat, writer: Writer, reader: Reader,
    accepted: seq<Byte>, delivered: seq<Byte>)

  datatype Op =
    | BeginWrite(data: seq<Byte>)
    | CopyIn
    | PublishHead
    | AbandonWrite
    | BeginRead(count: nat)
    | CopyOut
    | PublishTail
    | AbandonRead

  predicate IndicesOk(s: Stream) {
    s.head < |s.buffer| && s.tail < |s.buffer| <= 0x8000_0000
  }

  function Pending(s: Stream): (n: nat)
    requires IndicesOk(s)
    ensures n < |s.buffer|
  {
    Used(|s.buffer|, s.head, s.tail)
  }

  /** A write begins with data that fits the space counter, a read with no more than the byte
      counter says; neither index moves before all the bytes are copied. */
  predicate Enabled(s: Stream, op: Op)
    requires IndicesOk(s)
  {
    match op
    case BeginWrite(data) => s.writer.NotWriting? && 0 < |data| <= SpacesAvailable(|s.buffer|, s.head, s.tail)
    case CopyIn => s.writer.Writing? && s.writer.done < |s.writer.data|
    case PublishHead => s.writer.Writing? && s.writer.done == |s.writer.data|
    case AbandonWrite => s.writer.Writing?
    case BeginRead(count) => s.reader.NotReading? && 0 < count <= BytesInBuffer(|s.buffer|, s.head, s.tail)
    case CopyOut => s.reader.Reading? && |s.reader.got| < s.reader.count
    case PublishTail => s.reader.Reading? && |s.reader.got| == s.reader.count
    case AbandonRead => s.reader.Reading?
  }

  function Step(s: Stream, op: Op): Stream
    requires Inv(s) && Enabled(s, op)
  {
    var n := |s.buffer|;
    match op
    case BeginWrite(data) => s.(writer := Writing(data, 0))
    case CopyIn =>
      s.(buffer := s.buffer[Around(s.head + s.writer.done, n) := s.writer.data[s.writer.done]],
         writer := s.writer.(done := s.writer.done + 1))
    case PublishHead =>
      s.(head := Around(s.head + |s.writer.data|, n), writer := NotWriting, accepted := s.accepted + s.writer.data)
    case AbandonWrite => s.(writer := NotWriting)
    case BeginRead(count) => s.(reader := Reading(count, []))
    case CopyOut => s.(reader := s.reader.(got := s.reader.got + [s.buffer[Around(s.tail + |s.reader.got|, n)]]))
    case PublishTail =>
      s.(tail := Around(s.tail + s.reader.count, n), reader := NotReading, delivered := s.delivered + s.reader.got)
    case AbandonRead => s.(reader := NotReading)
  }

  predicate WriterOk(s: Stream)
    requires IndicesOk(s)
  {
    s.writer.Writing? ==>
      && s.writer.done <= |s.writer.data| && Pending(s) + |s.writer.data| < |s.buffer|
      && forall i :: 0 <= i < s.writer.done ==> s.buffer[Around(s.head + i, |s.buffer|)] == s.writer.data[i]
  }

  predicate ReaderOk(s: Stream)
    requires IndicesOk(s)
  {
    s.reader.Reading? ==>
      |s.reader.got| <= s.reader.count <= Pending(s) && s.reader.got == Unread(s.buffer, s.tail, |s.reader.got|)
  }

  /** What was accepted is what was delivered followed by the unread bytes, intact. */
  predicate Inv(s: Stream) {
    IndicesOk(s) && WriterOk(s) && ReaderOk(s) && s.accepted == s.delivered + Unread(s.buffer, s.tail, Pending(s))
  }

  lemma BeginInv(s: Stream, op: Op)
    requires Inv(s) && Enabled(s, op) && (op.BeginWrite? || op.BeginRead? || op.AbandonWrite? || op.AbandonRead?)
    ensures Inv(Step(s, op))
  {
    CountersAgree(|s.buffer|, s.head, s.tail);
    hide SpacesAvailable, BytesInBuffer, Unread, Used;
  }

  /** No unread byte is overwritten: the place being written is outside the unread bytes. */
  lemma CopyInKeeps(s: Stream, k: nat)
    requires Inv(s) && Enabled(s, CopyIn) && k <= Pending(s)
    ensures Unread(Step(s, CopyIn).buffer, s.tail, k) == Unread(s.buffer, s.tail, k)
  {
    var before, after := Unread(s.buffer, s.tail, k), Unread(Step(s, CopyIn).buffer, s.tail, k);
    forall i | 0 <= i < k
      ensures after[i] == before[i]
    {
      assert Around(s.tail + i, |s.buffer|) != Around(s.head + s.writer.done, |s.buffer|);
    }
  }

  lemma CopyInInv(s: Stream)
    requires Inv(s) && Enabled(s, CopyIn)
    ensures Inv(Step(s, CopyIn))
  {
    var s' := Step(s, CopyIn);
    CopyInKeeps(s, Pending(s));
    if s.reader.Reading? {
      CopyInKeeps(s, |s.reader.got|);
    }
    hide Unread, Used;
    forall i | 0 <= i < s'.writer.done
      ensures s'.buffer[Around(s.head + i, |s.buffer|)] == s.writer.data[i]
    {
    }
  }

  lemma PublishHeadInv(s: Stream)
    requires Inv(s) && Enabled(s, PublishHead)
    ensures Inv(Step(s, PublishHead))
  {
    var s' := Step(s, PublishHead);
    var n := Pending(s);
    assert Pending(s') == n + |s.writer.data|;
    WrittenBytes(s);
    hide Unread, Used;
    assert s.delivered + (Unread(s.buffer, s.tail, n) + s.writer.data)
        == s.delivered + Unread(s.buffer, s.tail, n) + s.writer.data;
  }

  lemma WrittenBytes(s: Stream)
    requires Inv(s) && Enabled(s, PublishHead)
    ensures Unread(s.buffer, s.tail, Pending(s) + |s.writer.data|)
            == Unread(s.buffer, s.tail, Pending(s)) + s.writer.data
  {
    var n := Pending(s);
    var all := Unread(s.buffer, s.tail, n + |s.writer.data|);
    forall i | n <= i < |all|
      ensures all[i] == s.writer.data[i - n]
    {
      assert Around(s.tail + i, |s.buffer|) == Around(s.head + (i - n), |s.buffer|);
    }
  }

  lemma CopyOutInv(s: Stream)
    requires Inv(s) && Enabled(s, CopyOut)
    ensures Inv(Step(s, CopyOut))
  {
    var k := |s.reader.got|;
    var more := Unread(s.buffer, s.tail, k + 1);
    assert more == Unread(s.buffer, s.tail, k) + [more[k]];
    hide Used;
  }

  lemma PublishTailInv(s: Stream)
    requires Inv(s) && Enabled(s, PublishTail)
    ensures Inv(Step(s, PublishTail))
  {
    hide Unread, Used;
    var n := Pending(s);
    var all := Unread(s.buffer, s.tail, n);
    PendingLess(s);
    UnreadSplit(s.buffer, s.tail, n, s.reader.count);
    Moved(s.delivered, all, s.reader.count);
  }

  lemma PendingLess(s: Stream)
    requires Inv(s) && Enabled(s, PublishTail)
    ensures Pending(Step(s, PublishTail)) == Pending(s) - s.reader.count
  {
    hide Unread;
  }

  lemma Moved(delivered: seq<Byte>, all: seq<Byte>, n: nat)
    requires n <= |all|
    ensures delivered + all == delivered + all[..n] + all[n..]
  {
  }

  lemma StepInv(s: Stream, op: Op)
    requires Inv(s) && Enabled(s, op)
    ensures Inv(Step(s, op))
  {
    hide Inv, Step, Enabled;
    match op {
      case CopyIn => CopyInInv(s);
      case PublishHead => PublishHeadInv(s);
      case CopyOut => CopyOutInv(s);
      case PublishTail => PublishTailInv(s);
      case _ => BeginInv(s, op);
    }
  }

  predicate Allowed(s: Stream, ops: seq<Op>)
    requires Inv(s)
    decreases |ops|
  {
    ops == [] || (Enabled(s, ops[0]) && (StepInv(s, ops[0]); Allowed(Step(s, ops[0]), ops[1..])))
  }

  function Run(s: Stream, ops: seq<Op>): (s': Stream)
    requires Inv(s) && Allowed(s, ops)
    ensures Inv(s')
    decreases |ops|
  {
    if ops == [] then s else StepInv(s, ops[0]); Run(Step(s, ops[0]), ops[1..])
  }

  function Empty(buffer: seq<Byte>): Stream {
    Stream(buffer, 0, 0, NotWriting, NotReading, [], [])
  }

  lemma EmptyInv(buffer: seq<Byte>)
    requires 0 < |buffer| <= 0x8000_0000
    ensures Inv(Empty(buffer))
  {
    assert Unread(buffer, 0, 0) == [];
  }

  /** Whatever the interleaving, the bytes delivered are a prefix of the bytes accepted, the
      rest is still in the buffer, and the two counters add up to the capacity. */
  lemma DeliveredInOrder(s: Stream, ops: seq<Op>)
    requires Inv(s) && Allowed(s, ops)
    ensures var s' := Run(s, ops);
            && s'.delivered <= s'.accepted
            && s'.accepted[|s'.delivered|..] == Unread(s'.buffer, s'.tail, Pending(s'))
            && BytesInBuffer(|s'.buffer|, s'.head, s'.tail) == |s'.accepted| - |s'.delivered|
            && BytesInBuffer(|s'.buffer|, s'.head, s'.tail) + SpacesAvailable(|s'.buffer|, s'.head, s'.tail)
                == |s'.buffer| - 1
  {
    hide Allowed, Run, BytesInBuffer, SpacesAvailable, Unread, Used;
    var s' := Run(s, ops);
    CountersAgree(|s'.buffer|, s'.head, s'.tail);
  }

  /** And every run only extends what was accepted and delivered before. */
  lemma {:induction false} HistoryGrows(s: Stream, ops: seq<Op>)
    requires Inv(s) && Allowed(s, ops)
    ensures s.accepted <= Run(s, ops).accepted && s.delivered <= Run(s, ops).delivered
    decreases |ops|
  {
    hide Inv;
    if ops != [] {
      StepInv(s, ops[0]);
      HistoryGrows(Step(s, ops[0]), ops[1..]);
    }
  }
}
