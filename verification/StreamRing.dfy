/** The byte ring of stream_buffer.c on values: indices, counters, framing. */
module StreamRing {
  import opened Words

  type Byte = b: nat | b < 256

  /** An index advanced by at most one buffer length. */
  function Around(k: nat, length: nat): (i: nat)
    requires 0 < length && k < 2 * length
    ensures i < length
  {
    if k >= length then k - length else k
  }

  /** The bytes between the tail and the head. */
  function Used(length: nat, head: nat, tail: nat): (n: nat)
    requires head < length && tail < length
    ensures n < length && Around(tail + n, length) == head
  {
    if head >= tail then head - tail else length + head - tail
  }

  // ----- the counters, in 32-bit words

  /** prvBytesInBuffer */
  function BytesInBuffer(length: nat, head: nat, tail: nat): nat {
    var count := Wrap(Wrap(length + head) - tail);
    if count >= length then count - length else count
  }

  /** xStreamBufferSpacesAvailable */
  function SpacesAvailable(length: nat, head: nat, tail: nat): nat {
    var space := Wrap(Wrap(Wrap(length + tail) - head) - 1);
    if space >= length then space - length else space
  }

  lemma WrapTwice(a: nat, b: nat)
    requires b <= a
    ensures Wrap(Wrap(a) - b) == Wrap(a - b)
  {
  }

  /** The count is right exactly when the sum it is computed from fits a word. */
  lemma BytesExact(length: nat, head: nat, tail: nat)
    requires IsWord(length) && head < length && tail < length
    ensures BytesInBuffer(length, head, tail) == Used(length, head, tail)
            <==> head < tail || length + (head - tail) < MODULUS
  {
    WrapTwice(length + head, tail);
    WrapOnce(length + head - tail);
    hide Wrap;
  }

  /** In the largest buffer two unread bytes are counted as one, and four free ones as three. */
  lemma LargeBufferMiscounts()
    ensures Used(MAX_DELAY, 2, 0) == 2 && BytesInBuffer(MAX_DELAY, 2, 0) == 1
    ensures MAX_DELAY - 1 - Used(MAX_DELAY, 0, 5) == 4 && SpacesAvailable(MAX_DELAY, 0, 5) == 3
  {
  }

  lemma WrapOnce(x: nat)
    requires x < 2 * MODULUS
    ensures Wrap(x) == if x < MODULUS then x else x - MODULUS
  {
  }

  lemma SpacesExact(length: nat, head: nat, tail: nat)
    requires IsWord(length) && head < length && tail < length
    ensures SpacesAvailable(length, head, tail) == length - 1 - Used(length, head, tail)
            <==> tail <= head || length + (tail - head) <= MODULUS
  {
    WrapTwice(length + tail, head);
    WrapOnce(length + tail - head);
    WrapLess(Wrap(length + tail - head));
    hide Wrap;
  }

  lemma WrapLess(x: nat)
    requires IsWord(x)
    ensures Wrap(x - 1) == if x == 0 then MODULUS - 1 else x - 1
  {
  }

  /** Up to half the address space the two counters always add up to the capacity. */
  lemma CountersAgree(length: nat, head: nat, tail: nat)
    requires length <= 0x8000_0000 && head < length && tail < length
    ensures BytesInBuffer(length, head, tail) == Used(length, head, tail)
    ensures BytesInBuffer(length, head, tail) + SpacesAvailable(length, head, tail) == length - 1
  {
    BytesExact(length, head, tail);
    SpacesExact(length, head, tail);
  }

  // ----- the unread bytes

  function Unread(buffer: seq<Byte>, tail: nat, n: nat): (s: seq<Byte>)
    requires tail < |buffer| && n <= |buffer|
    ensures |s| == n && forall i :: 0 <= i < n ==> s[i] == buffer[Around(tail + i, |buffer|)]
  {
    seq(n, i requires 0 <= i < n => buffer[Around(tail + i, |buffer|)])
  }

  /** `after` is `before` with `data` stored from `head` on, wrapping around. */
  ghost predicate Stored(before: seq<Byte>, after: seq<Byte>, head: nat, data: seq<Byte>)
    requires head < |before| && |data| <= |before|
  {
    && |after| == |before|
    && (forall i :: 0 <= i < |data| ==> after[Around(head + i, |before|)] == data[i])
    && (forall j :: 0 <= j < |before| && !Within(|before|, head, |data|, j) ==> after[j] == before[j])
  }

  /** Index `j` lies in the `n` places from `head` on. */
  predicate Within(length: nat, head: nat, n: nat, j: nat) {
    (head <= j < head + n) || j + length < head + n
  }

  lemma StoredAppends(before: seq<Byte>, after: seq<Byte>, tail: nat, n: nat, data: seq<Byte>)
    requires tail < |before| && n + |data| <= |before| && n < |before|
    requires Stored(before, after, Around(tail + n, |before|), data)
    ensures |after| == |before| && Unread(after, tail, n + |data|) == Unread(before, tail, n) + data
  {
    var s := Unread(after, tail, n + |data|);
    forall i | 0 <= i < n + |data|
      ensures s[i] == (Unread(before, tail, n) + data)[i]
    {
      if i >= n {
        assert Around(tail + i, |before|) == Around(Around(tail + n, |before|) + (i - n), |before|);
      }
    }
  }

  lemma UnreadSplit(buffer: seq<Byte>, tail: nat, n: nat, m: nat)
    requires tail < |buffer| && m <= n <= |buffer|
    ensures Unread(buffer, tail, n)[..m] == Unread(buffer, tail, m)
    ensures m < |buffer| ==> Unread(buffer, tail, n)[m..] == Unread(buffer, Around(tail + m, |buffer|), n - m)
  {
    if m < |buffer| {
      var s := Unread(buffer, Around(tail + m, |buffer|), n - m);
      assert forall i :: 0 <= i < n - m ==> s[i] == Unread(buffer, tail, n)[m + i];
    }
  }

  // ----- message framing

  const LENGTH_BYTES: nat := 4

  /** The bytes of a 32-bit length, lowest first. */
  function LengthBytes(n: nat): (s: seq<Byte>)
    requires IsWord(n)
    ensures |s| == LENGTH_BYTES
  {
    var b := n / 256;
    var c := b / 256;
    [n % 256, b % 256, c % 256, c / 256]
  }

  function LengthOf(s: seq<Byte>): nat
    requires |s| == LENGTH_BYTES
  {
    s[0] as int + 256 * (s[1] as int + 256 * (s[2] as int + 256 * (s[3] as int)))
  }

  lemma LengthRoundTrip(n: nat)
    requires IsWord(n)
    ensures LengthOf(LengthBytes(n)) == n
  {
  }

  type Message = m: seq<Byte> | m != [] && IsWord(|m|) witness [0]

  function Frame(m: Message): (s: seq<Byte>)
    ensures |s| == LENGTH_BYTES + |m|
  {
    LengthBytes(|m|) + m
  }

  /** The bytes of queued messages, the oldest first. */
  function Frames(ms: seq<Message>): seq<Byte> {
    if ms == [] then [] else Frame(ms[0]) + Frames(ms[1..])
  }

  lemma {:induction false} FramesAppend(ms: seq<Message>, m: Message)
    ensures Frames(ms + [m]) == Frames(ms) + Frame(m)
    decreases |ms|
  {
    hide Frame;
    if ms == [] {
      assert Frames([m]) == Frame(m) + Frames([m][1..]);
      assert Frames([m]) == Frame(m);
    } else {
      FramesAppend(ms[1..], m);
      assert (ms + [m])[1..] == ms[1..] + [m];
    }
  }

  /** A reader that follows the lengths gets back the messages. */
  function Parse(s: seq<Byte>): (ms: seq<seq<Byte>>)
    decreases |s|
  {
    if |s| < LENGTH_BYTES then []
    else
      var n := LengthOf(s[..LENGTH_BYTES]);
      if LENGTH_BYTES + n > |s| then [] else [s[LENGTH_BYTES..LENGTH_BYTES + n]] + Parse(s[LENGTH_BYTES + n..])
  }

  lemma {:induction false} FramingRoundTrip(ms: seq<Message>)
    ensures Parse(Frames(ms)) == ms
    decreases |ms|
  {
    if ms != [] {
      var m := ms[0];
      var s := Frames(ms);
      var rest := Frames(ms[1..]);
      LengthRoundTrip(|m|);
      assert s[..LENGTH_BYTES] == LengthBytes(|m|);
      assert s[LENGTH_BYTES..LENGTH_BYTES + |m|] == m;
      assert s[LENGTH_BYTES + |m|..] == rest;
      FramingRoundTrip(ms[1..]);
    }
  }
}
