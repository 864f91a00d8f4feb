/** Queue_t of queue.c: the storage ring and the waiting lists, updated in place. */
module Queues {
  import W = QueueWaits

  type Task = W.Task

  datatype Position = SendToBack | SendToFront | Overwrite

  datatype Option<T> = None | Some(value: T)

  /** A slot number advanced past the end of the storage at most twice. */
  function Around(k: nat, length: nat): (slot: nat)
    requires 0 < length && k <= 2 * length
    ensures slot < length
  {
    if k < length then k else if k < 2 * length then k - length else 0
  }

  /** The `n` messages in the slots behind `readFrom`. */
  function ContentsOf<T>(slots: seq<T>, readFrom: nat, n: nat): (s: seq<T>)
    requires readFrom < |slots| && n <= |slots|
    ensures |s| == n && forall i :: 0 <= i < n ==> s[i] == slots[Around(readFrom + 1 + i, |slots|)]
  {
    seq(n, i requires 0 <= i < n => slots[Around(readFrom + 1 + i, |slots|)])
  }

  lemma Appended<T>(slots: seq<T>, readFrom: nat, n: nat, item: T)
    requires readFrom < |slots| && n < |slots|
    ensures ContentsOf(slots[Around(readFrom + 1 + n, |slots|) := item], readFrom, n + 1)
            == ContentsOf(slots, readFrom, n) + [item]
  {
    var after := ContentsOf(slots[Around(readFrom + 1 + n, |slots|) := item], readFrom, n + 1);
    assert forall i :: 0 <= i < n ==> after[i] == ContentsOf(slots, readFrom, n)[i];
  }

  lemma Prepended<T>(slots: seq<T>, readFrom: nat, n: nat, item: T)
    requires readFrom < |slots| && n < |slots|
    ensures ContentsOf(slots[readFrom := item], if readFrom == 0 then |slots| - 1 else readFrom - 1, n + 1)
            == [item] + ContentsOf(slots, readFrom, n)
  {
    var before := ContentsOf(slots, readFrom, n);
    var after := ContentsOf(slots[readFrom := item], if readFrom == 0 then |slots| - 1 else readFrom - 1, n + 1);
    assert forall i :: 1 <= i <= n ==> after[i] == before[i - 1];
  }

  lemma Overwritten<T>(slots: seq<T>, item: T)
    requires |slots| == 1
    ensures ContentsOf(slots[0 := item], 0, 1) == [item]
  {
  }

  lemma Popped<T>(slots: seq<T>, readFrom: nat, n: nat)
    requires readFrom < |slots| && 0 < n <= |slots|
    ensures var next := Around(readFrom + 1, |slots|);
            ContentsOf(slots, readFrom, n) == [slots[next]] + ContentsOf(slots, next, n - 1)
  {
    var after := ContentsOf(slots, Around(readFrom + 1, |slots|), n - 1);
    assert forall i :: 0 <= i < n - 1 ==> after[i] == ContentsOf(slots, readFrom, n)[i + 1];
  }

  class Queue<T(0)> {
    const items: array<T>
    var writeTo: nat
    var readFrom: nat
    var messagesWaiting: nat
    var rxLock: int
    var txLock: int
    var toReceive: seq<Task>
    var toSend: seq<Task>
    ghost var wokenReceivers: set<Task>
    ghost var wokenSenders: set<Task>
    ghost var phase: W.Phase

    /** The slots in use follow the read slot, and the write slot follows them. */
    ghost predicate Valid()
      reads this
    {
      && 0 < items.Length && readFrom < items.Length && messagesWaiting <= items.Length
      && writeTo == Around(readFrom + 1 + messagesWaiting, items.Length)
    }

    /** The queued messages, oldest first. */
    ghost function Contents(): (s: seq<T>)
      requires Valid()
      reads this, items
      ensures |s| == messagesWaiting
    {
      ContentsOf(items[..], readFrom, messagesWaiting)
    }

    ghost function State(): W.Waits
      reads this
    {
      W.Waits(items.Length, messagesWaiting, txLock, rxLock, toReceive, toSend, wokenReceivers, wokenSenders, phase)
    }

    /** xQueueGenericReset on a new queue */
    constructor (length: nat)
      requires length >= 1
      ensures Valid() && Contents() == [] && State() == W.Fresh(length) && fresh(items)
    {
      items := new T[length];
      messagesWaiting := 0;
      writeTo := 0;
      readFrom := length - 1;
      rxLock, txLock := -1, -1;
      toReceive, toSend := [], [];
      wokenReceivers, wokenSenders, phase := {}, {}, W.Running;
    }

    /** prvCopyDataToQueue for a non-zero item size */
    method CopyDataToQueue(item: T, position: Position)
      requires Valid() && (messagesWaiting < items.Length || position.Overwrite?)
      requires position.Overwrite? ==> items.Length == 1
      modifies `writeTo, `readFrom, `messagesWaiting, items
      ensures Valid()
      ensures Contents() == Put(old(Contents()), item, position)
      ensures messagesWaiting == if position.Overwrite? && old(messagesWaiting) > 0 then old(messagesWaiting)
              else old(messagesWaiting) + 1
    {
      hide ContentsOf;
      ghost var slots := items[..];
      var waiting := messagesWaiting;
      if position.SendToBack? {
        Appended(slots, readFrom, messagesWaiting, item);
        items[writeTo] := item;
        writeTo := writeTo + 1;
        if writeTo >= items.Length {
          writeTo := 0;
        }
      } else {
        if position.Overwrite? {
          Overwritten(slots, item);
        } else {
          Prepended(slots, readFrom, messagesWaiting, item);
        }
        items[readFrom] := item;
        if readFrom == 0 {
          readFrom := items.Length - 1;
        } else {
          readFrom := readFrom - 1;
        }
        if position.Overwrite? && waiting > 0 {
          waiting := waiting - 1;
        }
      }
      messagesWaiting := waiting + 1;
    }

    /** prvCopyDataFromQueue */
    method CopyDataFromQueue() returns (item: T)
      requires Valid() && messagesWaiting > 0
      modifies `readFrom
      ensures readFrom == Around(old(readFrom) + 1, items.Length)
      ensures old(Contents()) == [item] + ContentsOf(items[..], readFrom, messagesWaiting - 1)
    {
      Popped(items[..], readFrom, messagesWaiting);
      readFrom := readFrom + 1;
      if readFrom >= items.Length {
        readFrom := 0;
      }
      item := items[readFrom];
    }

    /** xTaskRemoveFromEventList on one of the two lists */
    method WakeReceiver()
      requires toReceive != []
      modifies `toReceive, `wokenReceivers
      ensures State() == W.WakeReceiver(old(State()))
    {
      wokenReceivers := wokenReceivers + {toReceive[0]};
      toReceive := toReceive[1..];
    }

    method WakeSender()
      requires toSend != []
      modifies `toSend, `wokenSenders
      ensures State() == W.WakeSender(old(State()))
    {
      wokenSenders := wokenSenders + {toSend[0]};
      toSend := toSend[1..];
    }

    /** The critical section of xQueueGenericSend */
    method TrySend(t: Task, item: T, position: Position) returns (sent: bool)
      requires Valid() && (position.Overwrite? ==> items.Length == 1)
      modifies this, items
      ensures Valid() && State() == W.TrySend(old(State()), t, position.Overwrite?)
      ensures sent == (old(messagesWaiting) < items.Length || position.Overwrite?)
      ensures Contents() == if sent then Put(old(Contents()), item, position) else old(Contents())
      ensures Contents() == Next(old(Contents()), items.Length, Sent(item, position))
    {
      hide ContentsOf, Put, Around;
      wokenSenders := wokenSenders - {t};
      sent := messagesWaiting < items.Length || position.Overwrite?;
      if sent {
        CopyDataToQueue(item, position);
        if toReceive != [] {
          WakeReceiver();
        }
      }
    }

    /** The critical section of xQueueReceive */
    method TryReceive(t: Task) returns (item: Option<T>)
      requires Valid()
      modifies this
      ensures Valid() && State() == W.TryReceive(old(State()), t)
      ensures if old(messagesWaiting) == 0 then item == None && Contents() == old(Contents())
              else item.Some? && old(Contents()) == [item.value] + Contents()
      ensures Contents() == Next(old(Contents()), items.Length, Taken)
    {
      wokenReceivers := wokenReceivers - {t};
      item := None;
      if messagesWaiting > 0 {
        var received := CopyDataFromQueue();
        item := Some(received);
        messagesWaiting := messagesWaiting - 1;
        if toSend != [] {
          WakeSender();
        }
      }
    }

    /** The critical section of xQueuePeek */
    method TryPeek(t: Task) returns (item: Option<T>)
      requires Valid()
      modifies this
      ensures Valid() && State() == W.TryPeek(old(State()), t) && Contents() == old(Contents())
      ensures item == if old(messagesWaiting) == 0 then None else Some(Contents()[0])
    {
      wokenReceivers := wokenReceivers - {t};
      item := None;
      if messagesWaiting > 0 {
        var originalReadPosition := readFrom;
        var peeked := CopyDataFromQueue();
        item := Some(peeked);
        readFrom := originalReadPosition;
        if toReceive != [] {
          WakeReceiver();
        }
      }
    }

    /** xQueueGenericSendFromISR */
    method SendFromISR(item: T, position: Position) returns (sent: bool)
      requires Valid() && txLock < W.INT8_MAX && (position.Overwrite? ==> items.Length == 1)
      modifies this, items
      ensures Valid() && State() == W.IsrSend(old(State()), position.Overwrite?)
      ensures sent == (old(messagesWaiting) < items.Length || position.Overwrite?)
      ensures Contents() == if sent then Put(old(Contents()), item, position) else old(Contents())
      ensures Contents() == Next(old(Contents()), items.Length, Sent(item, position))
    {
      hide ContentsOf, Put, Around;
      sent := messagesWaiting < items.Length || position.Overwrite?;
      if sent {
        CopyDataToQueue(item, position);
        if txLock != W.UNLOCKED {
          txLock := txLock + 1;
        } else if toReceive != [] {
          WakeReceiver();
        }
      }
    }

    /** xQueueReceiveFromISR */
    method ReceiveFromISR() returns (item: Option<T>)
      requires Valid() && rxLock < W.INT8_MAX
      modifies this
      ensures Valid() && State() == W.IsrReceive(old(State()))
      ensures if old(messagesWaiting) == 0 then item == None && Contents() == old(Contents())
              else item.Some? && old(Contents()) == [item.value] + Contents()
      ensures Contents() == Next(old(Contents()), items.Length, Taken)
    {
      item := None;
      if messagesWaiting > 0 {
        var received := CopyDataFromQueue();
        item := Some(received);
        messagesWaiting := messagesWaiting - 1;
        if rxLock != W.UNLOCKED {
          rxLock := rxLock + 1;
        } else if toSend != [] {
          WakeSender();
        }
      }
    }

    /** prvLockQueue */
    method LockQueue()
      modifies `rxLock, `txLock
      ensures State() == W.LockQueue(old(State()))
    {
      if rxLock == W.UNLOCKED {
        rxLock := 0;
      }
      if txLock == W.UNLOCKED {
        txLock := 0;
      }
    }

    /** The first critical section of prvUnlockQueue */
    method UnlockTx()
      modifies `txLock, `toReceive, `wokenReceivers
      ensures State() == W.UnlockTxHalf(old(State()))
    {
      var lock := txLock;
      ghost var n: nat := 0;
      while lock > 0
        invariant n <= |old(toReceive)| && (n == 0 || n <= txLock) && lock == txLock - n && txLock == old(txLock)
        invariant toReceive == old(toReceive)[n..]
        invariant wokenReceivers == old(wokenReceivers) + W.SetOf(old(toReceive)[..n])
        decreases lock
      {
        if toReceive == [] {
          break;
        }
        assert old(toReceive)[..n + 1] == old(toReceive)[..n] + [toReceive[0]];
        WakeReceiver();
        lock := lock - 1;
        n := n + 1;
      }
      assert n == W.Wakes(old(txLock), old(toReceive));
      txLock := W.UNLOCKED;
    }

    /** The second critical section of prvUnlockQueue */
    method UnlockRx()
      modifies `rxLock, `toSend, `wokenSenders
      ensures State() == W.UnlockRxHalf(old(State()))
    {
      var lock := rxLock;
      ghost var n: nat := 0;
      while lock > 0
        invariant n <= |old(toSend)| && (n == 0 || n <= rxLock) && lock == rxLock - n && rxLock == old(rxLock)
        invariant toSend == old(toSend)[n..]
        invariant wokenSenders == old(wokenSenders) + W.SetOf(old(toSend)[..n])
        decreases lock
      {
        if toSend == [] {
          break;
        }
        assert old(toSend)[..n + 1] == old(toSend)[..n] + [toSend[0]];
        WakeSender();
        lock := lock - 1;
        n := n + 1;
      }
      assert n == W.Wakes(old(rxLock), old(toSend));
      rxLock := W.UNLOCKED;
    }
  }

  function Put<T>(s: seq<T>, item: T, position: Position): seq<T> {
    match position
    case SendToBack => s + [item]
    case SendToFront => [item] + s
    case Overwrite => [item]
  }

  // ----- the order of messages over whole runs

  datatype Traffic<T> = Sent(item: T, position: Position) | Taken

  predicate Passes<T>(s: seq<T>, length: nat, e: Traffic<T>) {
    if e.Sent? then |s| < length || e.position.Overwrite? else s != []
  }

  /** The messages in a queue of `length` slots after a send or a receive. */
  function Next<T>(s: seq<T>, length: nat, e: Traffic<T>): seq<T> {
    if !Passes(s, length, e) then s
    else if e.Sent? then Put(s, e.item, e.position)
    else s[1..]
  }

  function Left<T>(s: seq<T>, length: nat, run: seq<Traffic<T>>): seq<T>
    decreases |run|
  {
    if run == [] then s else Left(Next(s, length, run[0]), length, run[1..])
  }

  /** The message that one event puts in, and the one that it takes out. */
  function In<T>(s: seq<T>, length: nat, e: Traffic<T>): seq<T> {
    if e.Sent? && Passes(s, length, e) then [e.item] else []
  }

  function Out<T>(s: seq<T>, e: Traffic<T>): seq<T> {
    if e.Taken? && s != [] then [s[0]] else []
  }

  /** The messages accepted, and those received, each in order. */
  function Accepted<T>(s: seq<T>, length: nat, run: seq<Traffic<T>>): seq<T>
    decreases |run|
  {
    if run == [] then [] else In(s, length, run[0]) + Accepted(Next(s, length, run[0]), length, run[1..])
  }

  function Received<T>(s: seq<T>, length: nat, run: seq<Traffic<T>>): seq<T>
    decreases |run|
  {
    if run == [] then [] else Out(s, run[0]) + Received(Next(s, length, run[0]), length, run[1..])
  }

  ghost predicate OnlyTo<T>(run: seq<Traffic<T>>, position: Position) {
    forall e :: e in run && e.Sent? ==> e.position == position
  }

  lemma OneInOrder<T>(s: seq<T>, length: nat, e: Traffic<T>)
    requires e.Sent? ==> e.position.SendToBack?
    ensures Out(s, e) + Next(s, length, e) == s + In(s, length, e)
  {
  }

  lemma Regroup<T>(a: seq<T>, b: seq<T>, c: seq<T>)
    ensures (a + b) + c == a + (b + c)
  {
  }

  /** First in, first out: over every run of sends to the back and receives, whatever is refused,
      the messages received and then those left are the messages there at first and then those
      accepted. */
  lemma {:induction false} FirstInFirstOut<T>(s: seq<T>, length: nat, run: seq<Traffic<T>>)
    requires OnlyTo(run, SendToBack)
    ensures Received(s, length, run) + Left(s, length, run) == s + Accepted(s, length, run)
    decreases |run|
  {
    if run != [] {
      assert run == [run[0]] + run[1..];
      assert OnlyTo(run[1..], SendToBack);
      var s' := Next(s, length, run[0]);
      OneInOrder(s, length, run[0]);
      hide Next, In, Out, OnlyTo;
      FirstInFirstOut(s', length, run[1..]);
      Regroup(Out(s, run[0]), Received(s', length, run[1..]), Left(s', length, run[1..]));
      Regroup(Out(s, run[0]), s', Accepted(s', length, run[1..]));
      Regroup(s, In(s, length, run[0]), Accepted(s', length, run[1..]));
    }
  }

  ghost predicate Overwrites<T>(run: seq<Traffic<T>>) {
    exists e :: e in run && e.Sent? && e.position.Overwrite?
  }

  lemma OneConserved<T>(s: seq<T>, length: nat, e: Traffic<T>)
    requires e.Sent? ==> !e.position.Overwrite?
    ensures multiset(Out(s, e)) + multiset(Next(s, length, e)) == multiset(s) + multiset(In(s, length, e))
  {
    if e.Taken? && s != [] {
      assert s == [s[0]] + s[1..];
    }
  }

  /** To either end: no message is lost, doubled or invented. */
  lemma {:induction false} MessagesConserved<T>(s: seq<T>, length: nat, run: seq<Traffic<T>>)
    requires !Overwrites(run)
    ensures multiset(Received(s, length, run)) + multiset(Left(s, length, run))
            == multiset(s) + multiset(Accepted(s, length, run))
    decreases |run|
  {
    if run != [] {
      assert run == [run[0]] + run[1..];
      assert !Overwrites(run[1..]);
      var s' := Next(s, length, run[0]);
      OneConserved(s, length, run[0]);
      hide Next, In, Out, Overwrites;
      MessagesConserved(s', length, run[1..]);
      BagsJoin(multiset(Out(s, run[0])), multiset(s'), multiset(s), multiset(In(s, length, run[0])),
          multiset(Received(s', length, run[1..])), multiset(Left(s, length, run)),
          multiset(Accepted(s', length, run[1..])));
      JoinedBag(Out(s, run[0]), Received(s', length, run[1..]));
      JoinedBag(In(s, length, run[0]), Accepted(s', length, run[1..]));
    }
  }

  lemma JoinedBag<T>(a: seq<T>, b: seq<T>)
    ensures multiset(a + b) == multiset(a) + multiset(b)
  {
  }

  lemma BagsJoin<T>(out: multiset<T>, next: multiset<T>, s: multiset<T>, in': multiset<T>, rest: multiset<T>,
      left: multiset<T>, more: multiset<T>)
    requires out + next == s + in' && rest + left == next + more
    ensures (out + rest) + left == s + (in' + more)
  {
    assert (out + rest) + left == out + (rest + left);
    assert out + (next + more) == (out + next) + more;
  }

  /** A message sent to the front is the next one received, and the others follow as if it had not
      been sent; an overwriting one replaces whatever a queue of one slot held. */
  lemma UrgentFirst<T>(s: seq<T>, length: nat, item: T, position: Position, run: seq<Traffic<T>>)
    requires !position.SendToBack? && (|s| < length || position.Overwrite?)
    requires position.Overwrite? ==> |s| <= 1 == length
    ensures Received(s, length, [Sent(item, position), Taken] + run)
            == [item] + Received(if position.Overwrite? then [] else s, length, run)
  {
    var both := [Sent(item, position), Taken] + run;
    var s1 := Put(s, item, position);
    assert both[1..] == [Taken] + run && both[1..][1..] == run;
    assert s1[1..] == if position.Overwrite? then [] else s;
    assert Received(s1, length, both[1..]) == [item] + Received(s1[1..], length, run);
  }
}
