/** Message buffers under byte-by-byte interleaving: the units written and read are frames. */
module StreamMessages {
  import opened Words
  import opened StreamRing
  import opened StreamBuffers
  import opened StreamRuns

  predicate IsFrame(data: seq<Byte>) {
    |data| > LENGTH_BYTES && IsWord(|data| - LENGTH_BYTES) && data[..LENGTH_BYTES] == LengthBytes(|data| - LENGTH_BYTES)
  }

  /** What a message buffer adds to the rules of a stream buffer. A send writes a frame; for an
      empty message it writes the length only and never publishes it. A receive takes the length
      stored in front and as many bytes as that says; if they do not fit, or there is only a
      length to be had, it gives up without moving the tail. */
  predicate Framed(s: Stream, op: Op)
    requires IndicesOk(s)
  {
    match op
    case BeginWrite(data) => IsFrame(data) || data == LengthBytes(0)
    case PublishHead => s.writer.Writing? ==> IsFrame(s.writer.data)
    case BeginRead(count) =>
      var n := BytesInBuffer(|s.buffer|, s.head, s.tail);
      && LENGTH_BYTES < n <= |s.buffer|
      && count == LENGTH_BYTES + Min(LengthOf(Unread(s.buffer, s.tail, LENGTH_BYTES)), n - LENGTH_BYTES)
    case _ => true
  }

  /** The buffer holds the messages `queued`, and whoever is at work handles one of them. */
  ghost predicate Whole(s: Stream, queued: seq<Message>) {
    && Inv(s) && Unread(s.buffer, s.tail, Pending(s)) == Frames(queued)
    && (s.writer.Writing? ==> IsFrame(s.writer.data) || s.writer.data == LengthBytes(0))
    && (s.reader.Reading? ==> queued != [] && s.reader.count == LENGTH_BYTES + |queued[0]|)
  }

  /** The messages an action adds to those sent and to those received. */
  function SentBy(s: Stream, op: Op): seq<seq<Byte>>
    requires Inv(s) && Enabled(s, op) && Framed(s, op)
  {
    if op.PublishHead? then [s.writer.data[LENGTH_BYTES..]] else []
  }

  function ReceivedBy(s: Stream, op: Op): seq<seq<Byte>>
    requires Inv(s) && Enabled(s, op)
  {
    if op.PublishTail? && |s.reader.got| >= LENGTH_BYTES then [s.reader.got[LENGTH_BYTES..]] else []
  }

  lemma SendWhole(s: Stream, queued: seq<Message>)
    requires Whole(s, queued) && Enabled(s, PublishHead) && Framed(s, PublishHead)
    ensures IsFrame(s.writer.data) && Whole(Step(s, PublishHead), queued + [s.writer.data[LENGTH_BYTES..]])
  {
    hide Unread, Used, LengthBytes, Frames, ReaderOk;
    var data := s.writer.data;
    var m: Message := data[LENGTH_BYTES..];
    PublishHeadInv(s);
    WrittenBytes(s);
    PublishedCount(s);
    FramesAppend(queued, m);
    assert data == Frame(m);
  }

  lemma PublishedCount(s: Stream)
    requires Inv(s) && Enabled(s, PublishHead)
    ensures Pending(Step(s, PublishHead)) == Pending(s) + |s.writer.data|
  {
    hide Unread;
  }

  lemma ReceiveWhole(s: Stream, queued: seq<Message>)
    requires Whole(s, queued) && Enabled(s, PublishTail)
    ensures queued != [] && Whole(Step(s, PublishTail), queued[1..]) && s.reader.got == Frame(queued[0])
  {
    hide Unread, Used, LengthBytes, Frame, WriterOk;
    var n := Pending(s);
    PublishTailInv(s);
    PendingLess(s);
    UnreadSplit(s.buffer, s.tail, n, s.reader.count);
    assert Frames(queued) == Frame(queued[0]) + Frames(queued[1..]);
  }

  lemma BeginReadWhole(s: Stream, queued: seq<Message>, count: nat)
    requires Whole(s, queued) && Enabled(s, BeginRead(count)) && Framed(s, BeginRead(count))
    ensures Whole(Step(s, BeginRead(count)), queued)
  {
    hide Unread, Used, LengthBytes, LengthOf, Frames, BytesInBuffer, SpacesAvailable;
    BeginInv(s, BeginRead(count));
    CountersAgree(|s.buffer|, s.head, s.tail);
    FirstFrame(s.buffer, s.tail, Pending(s), queued);
  }

  lemma CopyInWhole(s: Stream, queued: seq<Message>)
    requires Whole(s, queued) && Enabled(s, CopyIn)
    ensures Whole(Step(s, CopyIn), queued)
  {
    hide Unread, Used, LengthBytes, Frames, IsFrame;
    CopyInInv(s);
    CopyInKeeps(s, Pending(s));
  }

  lemma OtherWhole(s: Stream, queued: seq<Message>, op: Op)
    requires Whole(s, queued) && Enabled(s, op) && Framed(s, op)
    requires op.BeginWrite? || op.AbandonWrite? || op.CopyOut? || op.AbandonRead?
    ensures Whole(Step(s, op), queued)
  {
    StepInv(s, op);
    hide Inv, Unread, LengthBytes, Frames, IsFrame;
  }

  /** One action: what was queued and what it sends is what it receives and what is queued
      afterwards. */
  lemma StepWhole(s: Stream, queued: seq<Message>, op: Op) returns (queued': seq<Message>)
    requires Whole(s, queued) && Enabled(s, op) && Framed(s, op)
    ensures Whole(Step(s, op), queued') && queued + SentBy(s, op) == ReceivedBy(s, op) + queued'
  {
    hide Inv, Step, Unread, LengthBytes, Frames;
    queued' := queued;
    match op {
      case PublishHead =>
        SendWhole(s, queued);
        var m: Message := s.writer.data[LENGTH_BYTES..];
        queued' := queued + [m];
      case PublishTail =>
        ReceiveWhole(s, queued);
        FramePayload(queued[0]);
        queued' := queued[1..];
      case BeginRead(count) => BeginReadWhole(s, queued, count);
      case CopyIn => CopyInWhole(s, queued);
      case _ => OtherWhole(s, queued, op);
    }
  }

  lemma FramePayload(m: Message)
    ensures Frame(m)[LENGTH_BYTES..] == m
  {
    hide LengthBytes;
  }

  // ----- runs

  predicate AllFramed(s: Stream, ops: seq<Op>)
    requires Inv(s) && Allowed(s, ops)
    decreases |ops|
  {
    ops == [] || (Framed(s, ops[0]) && (StepInv(s, ops[0]); AllFramed(Step(s, ops[0]), ops[1..])))
  }

  /** The payloads of the frames published in a run, and of those handed to the receiver. */
  function SentIn(s: Stream, ops: seq<Op>): seq<seq<Byte>>
    requires Inv(s) && Allowed(s, ops) && AllFramed(s, ops)
    decreases |ops|
  {
    if ops == [] then [] else StepInv(s, ops[0]); SentBy(s, ops[0]) + SentIn(Step(s, ops[0]), ops[1..])
  }

  function ReceivedIn(s: Stream, ops: seq<Op>): seq<seq<Byte>>
    requires Inv(s) && Allowed(s, ops) && AllFramed(s, ops)
    decreases |ops|
  {
    if ops == [] then [] else StepInv(s, ops[0]); ReceivedBy(s, ops[0]) + ReceivedIn(Step(s, ops[0]), ops[1..])
  }

  lemma {:induction false} RunWhole(s: Stream, queued: seq<Message>, ops: seq<Op>) returns (queued': seq<Message>)
    requires Whole(s, queued) && Allowed(s, ops) && AllFramed(s, ops)
    ensures Whole(Run(s, ops), queued') && queued + SentIn(s, ops) == ReceivedIn(s, ops) + queued'
    decreases |ops|
  {
    hide Inv, Step, Enabled, Framed, IsFrame, Unread, LengthBytes, Frames, SentBy, ReceivedBy;
    if ops == [] {
      queued' := queued;
    } else {
      var op := ops[0];
      StepInv(s, op);
      var mid := StepWhole(s, queued, op);
      queued' := RunWhole(Step(s, op), mid, ops[1..]);
      Joined(queued, SentBy(s, op), ReceivedBy(s, op), mid, SentIn(Step(s, op), ops[1..]),
          ReceivedIn(Step(s, op), ops[1..]), queued');
    }
  }

  lemma Joined<T>(q: seq<T>, s: seq<T>, r: seq<T>, mid: seq<T>, s': seq<T>, r': seq<T>, q': seq<T>)
    requires q + s == r + mid && mid + s' == r' + q'
    ensures q + (s + s') == r + r' + q'
  {
    assert q + (s + s') == (q + s) + s';
    assert r + (mid + s') == (r + mid) + s';
    assert r + (r' + q') == r + r' + q';
  }

  /** In every byte-by-byte interleaving of one sender and one receiver on a new message buffer,
      the messages received are the first ones sent, whole, in order and unchanged; the others
      are in the buffer, framed. */
  lemma MessagesInOrder(buffer: seq<Byte>, ops: seq<Op>)
    requires 0 < |buffer| <= 0x8000_0000
    requires (EmptyInv(buffer); Allowed(Empty(buffer), ops) && AllFramed(Empty(buffer), ops))
    ensures Inv(Empty(buffer))
    ensures var s := Empty(buffer);
            var s' := Run(s, ops);
            SentIn(s, ops) == ReceivedIn(s, ops) + Parse(Unread(s'.buffer, s'.tail, Pending(s')))
  {
    hide Allowed, AllFramed, SentIn, ReceivedIn, Run, Parse;
    EmptyInv(buffer);
    var s := Empty(buffer);
    assert Whole(s, []);
    var queued := RunWhole(s, [], ops);
    FramingRoundTrip(queued);
    assert [] + SentIn(s, ops) == SentIn(s, ops);
  }
}
