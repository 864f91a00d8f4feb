/** StreamBuffer_t of stream_buffer.c, written and read in place. */
module StreamBuffers {
  import opened Words
  import opened StreamRing

  class StreamBuffer {
    const buffer: array<Byte>
    var tail: nat
    var head: nat
    const isMessageBuffer: bool

    ghost predicate Valid()
      reads this
    {
      && 0 < buffer.Length <= 0x8000_0000 && tail < buffer.Length && head < buffer.Length
    }

    /** The bytes accepted but not yet delivered. */
    ghost function Contents(): (s: seq<Byte>)
      requires Valid()
      reads this, buffer
      ensures |s| == Used(buffer.Length, head, tail)
    {
      Unread(buffer[..], tail, Used(buffer.Length, head, tail))
    }

    /** prvInitialiseNewStreamBuffer: one byte more than the capacity asked for */
    constructor (capacity: nat, isMessageBuffer: bool)
      requires 0 < capacity < 0x8000_0000
      ensures Valid() && Contents() == [] && buffer.Length == capacity + 1 && fresh(buffer)
      ensures this.isMessageBuffer == isMessageBuffer
    {
      buffer := new Byte[capacity + 1];
      tail, head := 0, 0;
      this.isMessageBuffer := isMessageBuffer;
    }

    /** prvBytesInBuffer */
    function Bytes(): (n: nat)
      requires Valid()
      reads this
      ensures n == Used(buffer.Length, head, tail)
    {
      CountersAgree(buffer.Length, head, tail);
      BytesInBuffer(buffer.Length, head, tail)
    }

    /** xStreamBufferSpacesAvailable */
    function Spaces(): (n: nat)
      requires Valid()
      reads this
      ensures n == buffer.Length - 1 - Used(buffer.Length, head, tail)
    {
      CountersAgree(buffer.Length, head, tail);
      SpacesAvailable(buffer.Length, head, tail)
    }

    /** One memcpy into the buffer */
    method CopyIn(at: nat, data: seq<Byte>, from: nat, count: nat)
      requires at + count <= buffer.Length && from + count <= |data|
      modifies buffer
      ensures forall j :: 0 <= j < buffer.Length ==>
                buffer[j] == if at <= j < at + count then data[from + j - at] else old(buffer[j])
    {
      for i := 0 to count
        invariant forall j :: 0 <= j < buffer.Length ==>
                    buffer[j] == if at <= j < at + i then data[from + j - at] else old(buffer[j])
      {
        buffer[at + i] := data[from + i];
      }
    }

    /** prvWriteBytesToBuffer: in two parts when the data wraps around */
    method WriteBytes(data: seq<Byte>, at: nat) returns (next: nat)
      requires 0 < |data| < buffer.Length && at < buffer.Length
      modifies buffer
      ensures next == Around(at + |data|, buffer.Length)
      ensures Stored(old(buffer[..]), buffer[..], at, data)
    {
      var first := Min(buffer.Length - at, |data|);
      CopyIn(at, data, 0, first);
      if |data| > first {
        CopyIn(0, data, first, |data| - first);
      }
      next := at + |data|;
      if next >= buffer.Length {
        next := next - buffer.Length;
      }
    }

    /** prvReadBytesFromBuffer */
    method ReadBytes(count: nat, at: nat) returns (data: seq<Byte>, next: nat)
      requires 0 < count < buffer.Length && at < buffer.Length
      ensures data == Unread(buffer[..], at, count) && next == Around(at + count, buffer.Length)
    {
      var first := Min(buffer.Length - at, count);
      data := buffer[at..at + first];
      if count > first {
        data := data + buffer[..count - first];
      }
      next := at + count;
      if next >= buffer.Length {
        next := next - buffer.Length;
      }
    }

    /** xStreamBufferSend without waiting, on a stream buffer: as much as fits is appended. */
    method SendBytes(data: seq<Byte>) returns (sent: nat)
      requires Valid() && !isMessageBuffer
      modifies `head, buffer
      ensures Valid() && sent == Min(|data|, buffer.Length - 1 - |old(Contents())|)
      ensures Contents() == old(Contents()) + data[..sent]
    {
      ghost var n := Used(buffer.Length, head, tail);
      sent := Min(|data|, Spaces());
      if sent != 0 {
        var next := WriteBytes(data[..sent], head);
        StoredAppends(old(buffer[..]), buffer[..], tail, n, data[..sent]);
        head := next;
        UsedAfter(buffer.Length, next, tail, n + sent);
      }
    }

    /** xStreamBufferReceive without waiting, on a stream buffer */
    method ReceiveBytes(limit: nat) returns (data: seq<Byte>)
      requires Valid() && !isMessageBuffer
      modifies `tail
      ensures Valid() && |data| == Min(limit, |old(Contents())|)
      ensures old(Contents()) == data + Contents()
    {
      var n := Bytes();
      var count := Min(limit, n);
      data := [];
      if count != 0 {
        var next: nat;
        data, next := ReadBytes(count, tail);
        UnreadSplit(buffer[..], tail, n, count);
        tail := next;
        UsedAfter(buffer.Length, head, tail, n - count);
      }
    }

    /** xStreamBufferSend without waiting, on a message buffer: the whole frame or nothing. The
        head is published once, behind the payload, so an empty message leaves no trace. */
    method SendMessage(data: seq<Byte>, ghost queued: seq<Message>) returns (sent: nat)
      requires Valid() && isMessageBuffer && Contents() == Frames(queued) && IsWord(|data| + LENGTH_BYTES)
      modifies `head, buffer
      ensures Valid()
      ensures sent == if |data| + LENGTH_BYTES <= buffer.Length - 1 - |old(Contents())| then |data| else 0
      ensures if sent > 0 then Contents() == Frames(queued + [data]) else Contents() == old(Contents())
    {
      hide LengthBytes, Stored, Unread, Frames;
      ghost var n := Used(buffer.Length, head, tail);
      ghost var before := buffer[..];
      var space := Spaces();
      var next := head;
      sent := |data|;
      if space >= |data| + LENGTH_BYTES {
        next := WriteBytes(LengthBytes(|data|), next);
        StoredKeeps(before, buffer[..], tail, n, LengthBytes(|data|));
      } else {
        sent := 0;
      }
      if sent != 0 {
        ghost var mid := buffer[..];
        next := WriteBytes(data, next);
        FrameStored(before, mid, buffer[..], tail, n, data, queued);
        UsedAfter(buffer.Length, next, tail, n + LENGTH_BYTES + |data|);
        head := next;
      }
    }

    /** xStreamBufferReceive without waiting, on a message buffer: a message that does not fit
        stays for a later call. */
    method ReceiveMessage(limit: nat, ghost queued: seq<Message>) returns (data: seq<Byte>)
      requires Valid() && isMessageBuffer && Contents() == Frames(queued)
      modifies `tail
      ensures Valid()
      ensures if queued != [] && |queued[0]| <= limit then data == queued[0] && Contents() == Frames(queued[1..])
              else data == [] && tail == old(tail)
    {
      hide LengthBytes, LengthOf, Unread, Frame;
      data := [];
      var n := Bytes();
      if n > LENGTH_BYTES {
        var header, next := ReadBytes(LENGTH_BYTES, tail);
        FirstFrame(buffer[..], tail, n, queued);
        var length := LengthOf(header);
        if length > limit {
          length := 0;
        }
        var count := Min(length, n - LENGTH_BYTES);
        if count != 0 {
          var after: nat;
          data, after := ReadBytes(count, next);
          tail := after;
          UsedAfter(buffer.Length, head, tail, n - LENGTH_BYTES - count);
        }
      }
    }
  }

  /** The head determines the count and the other way round. */
  lemma UsedAfter(length: nat, head: nat, tail: nat, n: nat)
    requires 0 < length && tail < length && n < length && head == Around(tail + n, length)
    ensures Used(length, head, tail) == n
  {
  }

  /** The unread bytes begin with the frame of the oldest message. */
  lemma FirstFrame(buffer: seq<Byte>, tail: nat, n: nat, queued: seq<Message>)
    requires tail < |buffer| && n < |buffer| && n > 0 && Unread(buffer, tail, n) == Frames(queued)
    ensures queued != []
    ensures var m := queued[0];
            var at := Around(tail + LENGTH_BYTES, |buffer|);
            && n > LENGTH_BYTES && LengthOf(Unread(buffer, tail, LENGTH_BYTES)) == |m| <= n - LENGTH_BYTES
            && Unread(buffer, at, |m|) == m
            && Unread(buffer, Around(at + |m|, |buffer|), n - LENGTH_BYTES - |m|) == Frames(queued[1..])
  {
    hide LengthBytes, LengthOf, Unread, Around, Frame;
    var m := queued[0];
    var s := Unread(buffer, tail, n);
    var at := Around(tail + LENGTH_BYTES, |buffer|);
    SplitFrame(s, m, Frames(queued[1..]));
    LengthRoundTrip(|m|);
    UnreadSplit(buffer, tail, n, LENGTH_BYTES);
    UnreadSplit(buffer, at, n - LENGTH_BYTES, |m|);
  }

  lemma SplitFrame(s: seq<Byte>, m: Message, rest: seq<Byte>)
    requires s == Frame(m) + rest
    ensures |s| == LENGTH_BYTES + |m| + |rest| && s[..LENGTH_BYTES] == LengthBytes(|m|)
    ensures s[LENGTH_BYTES..][..|m|] == m && s[LENGTH_BYTES..][|m|..] == rest
  {
    hide LengthBytes;
  }

  lemma AroundTwice(tail: nat, n: nat, k: nat, length: nat)
    requires tail < length && n < length && n + k <= length
    ensures Around(Around(tail + n, length) + k, length) == Around(tail + (n + k), length)
  {
  }

  lemma StoredKeeps(before: seq<Byte>, after: seq<Byte>, tail: nat, n: nat, data: seq<Byte>)
    requires tail < |before| && n + |data| <= |before| && n < |before|
    requires Stored(before, after, Around(tail + n, |before|), data)
    ensures Unread(after, tail, n) == Unread(before, tail, n)
  {
    StoredAppends(before, after, tail, n, data);
    UnreadSplit(after, tail, n + |data|, n);
  }

  /** The length and then the payload behind it make a frame behind the queued ones. */
  lemma FrameStored(before: seq<Byte>, mid: seq<Byte>, after: seq<Byte>, tail: nat, n: nat, data: Message,
      queued: seq<Message>)
    requires tail < |before| && n + LENGTH_BYTES + |data| < |before| && Unread(before, tail, n) == Frames(queued)
    requires Stored(before, mid, Around(tail + n, |before|), LengthBytes(|data|))
    requires Stored(mid, after, Around(Around(tail + n, |before|) + LENGTH_BYTES, |before|), data)
    ensures Unread(after, tail, n + LENGTH_BYTES + |data|) == Frames(queued + [data])
    ensures Around(Around(Around(tail + n, |before|) + LENGTH_BYTES, |before|) + |data|, |before|)
            == Around(tail + (n + LENGTH_BYTES + |data|), |before|)
  {
    hide Stored, Unread, Frames, LengthBytes, Around;
    AroundTwice(tail, n, LENGTH_BYTES, |before|);
    AroundTwice(tail, n + LENGTH_BYTES, |data|, |before|);
    StoredAppends(before, mid, tail, n, LengthBytes(|data|));
    StoredAppends(mid, after, tail, n + LENGTH_BYTES, data);
    FramesAppend(queued, data);
    assert Frames(queued) + Frame(data) == Frames(queued) + LengthBytes(|data|) + data;
  }
}
