/** The wake-up protocol of queue.c: waiting lists, lock counts, interrupts in between. */
module QueueWaits {

  type Task = nat

  /** Where the task that has the queue locked is. Other tasks cannot run meanwhile, because
      the scheduler is suspended, but interrupts can. */
  datatype Phase =
    | Running
    | Locked(task: Task)
    | SawEmpty(task: Task)
    | SawFull(task: Task)
    | Blocked(task: Task)
    | TxUnlocked

  /** `receivers` and `senders` are the two event lists; a lock of -1 is queueUNLOCKED. The
      woken tasks, taken off a list but not yet back at their next attempt, are kept beside
      the source's fields. */
  datatype Waits = Waits(
    length: nat, count: nat, txLock: int, rxLock: int,
    receivers: seq<Task>, senders: seq<Task>,
    wokenReceivers: set<Task>, wokenSenders: set<Task>, phase: Phase)

  const UNLOCKED: int := -1
  const INT8_MAX: int := 127

  datatype Op =
    | Send(task: Task, overwrite: bool)
    | Receive(task: Task)
    | Peek(task: Task)
    | SendFromISR(overwrite: bool)
    | ReceiveFromISR
    | Lock(task: Task)
    | CheckEmpty
    | CheckFull
    | PlaceReceiver(pos: nat)
    | PlaceSender(pos: nat)
    | UnlockTx
    | UnlockRx
    | Expire(task: Task)

  function WakeReceiver(q: Waits): Waits {
    if q.receivers == [] then q else
      q.(receivers := q.receivers[1..], wokenReceivers := q.wokenReceivers + {q.receivers[0]})
  }

  function WakeSender(q: Waits): Waits {
    if q.senders == [] then q else
      q.(senders := q.senders[1..], wokenSenders := q.wokenSenders + {q.senders[0]})
  }

  predicate Accepts(q: Waits, overwrite: bool) {
    q.count < q.length || overwrite
  }

  /** prvCopyDataToQueue: an overwrite replaces what is there. */
  function Stored(q: Waits, overwrite: bool): Waits {
    q.(count := if overwrite && q.count > 0 then q.count else q.count + 1)
  }

  /** The critical section of xQueueGenericSend. */
  function TrySend(q: Waits, t: Task, overwrite: bool): Waits {
    var q1 := q.(wokenSenders := q.wokenSenders - {t});
    if Accepts(q, overwrite) then WakeReceiver(Stored(q1, overwrite)) else q1
  }

  /** The critical section of xQueueReceive and xQueueSemaphoreTake. */
  function TryReceive(q: Waits, t: Task): Waits {
    var q1 := q.(wokenReceivers := q.wokenReceivers - {t});
    if q.count > 0 then WakeSender(q1.(count := q.count - 1)) else q1
  }

  /** The critical section of xQueuePeek: the message stays, so the next waiter is woken. */
  function TryPeek(q: Waits, t: Task): Waits {
    var q1 := q.(wokenReceivers := q.wokenReceivers - {t});
    if q.count > 0 then WakeReceiver(q1) else q1
  }

  /** xQueueGenericSendFromISR and xQueueGiveFromISR */
  function IsrSend(q: Waits, overwrite: bool): Waits {
    if !Accepts(q, overwrite) then q
    else if q.txLock == UNLOCKED then WakeReceiver(Stored(q, overwrite))
    else Stored(q, overwrite).(txLock := q.txLock + 1)
  }

  /** xQueueReceiveFromISR */
  function IsrReceive(q: Waits): Waits {
    if q.count == 0 then q
    else if q.rxLock == UNLOCKED then WakeSender(q.(count := q.count - 1))
    else q.(count := q.count - 1, rxLock := q.rxLock + 1)
  }

  /** prvLockQueue */
  function LockQueue(q: Waits): Waits {
    q.(rxLock := if q.rxLock == UNLOCKED then 0 else q.rxLock, txLock := if q.txLock == UNLOCKED then 0 else q.txLock)
  }

  function SetOf(s: seq<Task>): set<Task> {
    set t | t in s
  }

  function Wakes(lock: int, waiting: seq<Task>): (n: nat)
    ensures n <= |waiting|
  {
    if lock <= 0 then 0 else if lock <= |waiting| then lock else |waiting|
  }

  /** The two halves of prvUnlockQueue: one waiter is woken for each locked-out event. */
  function UnlockTxHalf(q: Waits): Waits {
    var n := Wakes(q.txLock, q.receivers);
    q.(txLock := UNLOCKED, receivers := q.receivers[n..], wokenReceivers := q.wokenReceivers + SetOf(q.receivers[..n]))
  }

  function UnlockRxHalf(q: Waits): Waits {
    var n := Wakes(q.rxLock, q.senders);
    q.(rxLock := UNLOCKED, senders := q.senders[n..], wokenSenders := q.wokenSenders + SetOf(q.senders[..n]))
  }

  function InsertAt(s: seq<Task>, t: Task, p: nat): seq<Task> {
    if p <= |s| then s[..p] + [t] + s[p..] else s
  }

  function Without(s: seq<Task>, t: Task): (s': seq<Task>)
    ensures |s'| <= |s|
    ensures forall x :: x in s' <==> x in s && x != t
  {
    if s == [] then [] else if s[0] == t then Without(s[1..], t) else [s[0]] + Without(s[1..], t)
  }

  /** Not blocked on this queue. */
  predicate Free(q: Waits, t: Task) {
    t !in q.receivers && t !in q.senders
  }

  /** A task only retries the kind of call it was woken in; the counts stay below their limit. */
  predicate Enabled(q: Waits, op: Op) {
    match op
    case Send(t, overwrite) => q.phase.Running? && Free(q, t) && t !in q.wokenReceivers && (overwrite ==> q.length == 1)
    case Receive(t) => q.phase.Running? && Free(q, t) && t !in q.wokenSenders
    case Peek(t) => q.phase.Running? && Free(q, t) && t !in q.wokenSenders
    case SendFromISR(overwrite) => q.txLock < INT8_MAX && (overwrite ==> q.length == 1)
    case ReceiveFromISR => q.rxLock < INT8_MAX
    case Lock(t) => q.phase.Running? && Free(q, t) && t !in q.wokenReceivers && t !in q.wokenSenders
    case CheckEmpty => q.phase.Locked?
    case CheckFull => q.phase.Locked?
    case PlaceReceiver(p) => q.phase.SawEmpty? && p <= |q.receivers|
    case PlaceSender(p) => q.phase.SawFull? && p <= |q.senders|
    case UnlockTx => q.phase.Locked? || q.phase.Blocked?
    case UnlockRx => q.phase.TxUnlocked?
    case Expire(t) => q.phase.Running?
  }

  function Step(q: Waits, op: Op): Waits
    requires Enabled(q, op)
  {
    match op
    case Send(t, overwrite) => TrySend(q, t, overwrite)
    case Receive(t) => TryReceive(q, t)
    case Peek(t) => TryPeek(q, t)
    case SendFromISR(overwrite) => IsrSend(q, overwrite)
    case ReceiveFromISR => IsrReceive(q)
    case Lock(t) => LockQueue(q).(phase := Locked(t))
    case CheckEmpty => if q.count == 0 then q.(phase := SawEmpty(q.phase.task)) else q
    case CheckFull => if q.count == q.length then q.(phase := SawFull(q.phase.task)) else q
    case PlaceReceiver(p) => q.(receivers := InsertAt(q.receivers, q.phase.task, p), phase := Blocked(q.phase.task))
    case PlaceSender(p) => q.(senders := InsertAt(q.senders, q.phase.task, p), phase := Blocked(q.phase.task))
    case UnlockTx => UnlockTxHalf(q).(phase := TxUnlocked)
    case UnlockRx => UnlockRxHalf(q).(phase := Running)
    case Expire(t) => q.(receivers := Without(q.receivers, t), senders := Without(q.senders, t))
  }

  function Owed(lock: int): nat {
    if lock > 0 then lock else 0
  }

  /** No wake-up is lost: while receivers wait, every message is spoken for by a woken receiver
      that has not retried yet or by a count of the transmit lock; likewise for free slots. */
  predicate Spoken(q: Waits) {
    && (q.receivers != [] ==> q.count <= |q.wokenReceivers| + Owed(q.txLock))
    && (q.senders != [] ==> q.length - q.count <= |q.wokenSenders| + Owed(q.rxLock))
    && (q.phase.SawEmpty? ==> q.count <= Owed(q.txLock))
    && (q.phase.SawFull? ==> q.length - q.count <= Owed(q.rxLock))
  }

  predicate LocksFit(q: Waits) {
    match q.phase
    case Running => q.txLock == UNLOCKED && q.rxLock == UNLOCKED
    case TxUnlocked => q.txLock == UNLOCKED && 0 <= q.rxLock <= INT8_MAX
    case _ => 0 <= q.txLock <= INT8_MAX && 0 <= q.rxLock <= INT8_MAX
  }

  predicate Distinct(s: seq<Task>) {
    forall i, j :: 0 <= i < j < |s| ==> s[i] != s[j]
  }

  predicate Placed(q: Waits) {
    && Distinct(q.receivers) && Distinct(q.senders)
    && (forall t :: t in q.receivers ==> t !in q.wokenReceivers && t !in q.wokenSenders && t !in q.senders)
    && (forall t :: t in q.senders ==> t !in q.wokenReceivers && t !in q.wokenSenders)
    && (q.phase.Locked? || q.phase.SawEmpty? || q.phase.SawFull? ==>
          Free(q, q.phase.task) && q.phase.task !in q.wokenReceivers && q.phase.task !in q.wokenSenders)
  }

  predicate Inv(q: Waits) {
    q.count <= q.length && LocksFit(q) && Placed(q) && Spoken(q)
  }

  // ----- every action keeps the invariant

  lemma WakeReceiverInv(q: Waits)
    requires Placed(q)
    ensures Placed(WakeReceiver(q))
    ensures q.receivers != [] ==> |WakeReceiver(q).wokenReceivers| == |q.wokenReceivers| + 1
  {
    if q.receivers != [] {
      var t := q.receivers[0];
      assert q.receivers == [t] + q.receivers[1..];
      assert t !in q.wokenReceivers;
    }
  }

  lemma WakeSenderInv(q: Waits)
    requires Placed(q)
    ensures Placed(WakeSender(q))
    ensures q.senders != [] ==> |WakeSender(q).wokenSenders| == |q.wokenSenders| + 1
  {
    if q.senders != [] {
      var t := q.senders[0];
      assert q.senders == [t] + q.senders[1..];
      assert t !in q.wokenSenders;
    }
  }

  lemma OneLess(s: set<Task>, t: Task)
    ensures |s - {t}| >= |s| - 1
    ensures t !in s ==> s - {t} == s
  {
    if t in s {
      assert s == (s - {t}) + {t};
    }
  }

  lemma SendInv(q: Waits, t: Task, overwrite: bool)
    requires Inv(q) && Enabled(q, Send(t, overwrite))
    ensures Inv(TrySend(q, t, overwrite))
  {
    var q1 := q.(wokenSenders := q.wokenSenders - {t});
    OneLess(q.wokenSenders, t);
    assert Placed(q1);
    if Accepts(q, overwrite) {
      WakeReceiverInv(Stored(q1, overwrite));
    }
  }

  lemma ReceiveInv(q: Waits, t: Task)
    requires Inv(q) && Enabled(q, Receive(t))
    ensures Inv(TryReceive(q, t))
  {
    var q1 := q.(wokenReceivers := q.wokenReceivers - {t});
    OneLess(q.wokenReceivers, t);
    assert Placed(q1);
    if q.count > 0 {
      WakeSenderInv(q1.(count := q.count - 1));
    }
  }

  lemma PeekInv(q: Waits, t: Task)
    requires Inv(q) && Enabled(q, Peek(t))
    ensures Inv(TryPeek(q, t))
  {
    var q1 := q.(wokenReceivers := q.wokenReceivers - {t});
    OneLess(q.wokenReceivers, t);
    assert Placed(q1);
    if q.count > 0 {
      WakeReceiverInv(q1);
    }
  }

  lemma IsrSendInv(q: Waits, overwrite: bool)
    requires Inv(q) && Enabled(q, SendFromISR(overwrite))
    ensures Inv(IsrSend(q, overwrite))
  {
    if Accepts(q, overwrite) && q.txLock == UNLOCKED {
      WakeReceiverInv(Stored(q, overwrite));
    }
  }

  lemma IsrReceiveInv(q: Waits)
    requires Inv(q) && Enabled(q, ReceiveFromISR)
    ensures Inv(IsrReceive(q))
  {
    if q.count > 0 && q.rxLock == UNLOCKED {
      WakeSenderInv(q.(count := q.count - 1));
    }
  }

  lemma {:induction false} SetOfSize(s: seq<Task>)
    requires Distinct(s)
    ensures |SetOf(s)| == |s|
    decreases |s|
  {
    if s == [] {
      assert SetOf(s) == {};
    } else {
      assert s == [s[0]] + s[1..];
      assert SetOf(s) == {s[0]} + SetOf(s[1..]);
      SetOfSize(s[1..]);
    }
  }

  lemma SplitOff(s: seq<Task>, n: nat)
    requires n <= |s| && Distinct(s)
    ensures Distinct(s[n..]) && Distinct(s[..n])
    ensures forall t :: t in s <==> t in s[..n] || t in s[n..]
    ensures forall t :: t in s[n..] ==> t !in s[..n]
  {
    assert s == s[..n] + s[n..];
  }

  lemma MoreWoken(woken: set<Task>, s: seq<Task>)
    requires Distinct(s) && forall t :: t in s ==> t !in woken
    ensures |woken + SetOf(s)| == |woken| + |s|
  {
    SetOfSize(s);
    assert woken !! SetOf(s);
  }

  lemma UnlockTxInv(q: Waits)
    requires Inv(q) && Enabled(q, UnlockTx)
    ensures Inv(Step(q, UnlockTx))
  {
    var n := Wakes(q.txLock, q.receivers);
    SplitOff(q.receivers, n);
    MoreWoken(q.wokenReceivers, q.receivers[..n]);
  }

  lemma UnlockRxInv(q: Waits)
    requires Inv(q) && Enabled(q, UnlockRx)
    ensures Inv(Step(q, UnlockRx))
  {
    var n := Wakes(q.rxLock, q.senders);
    SplitOff(q.senders, n);
    MoreWoken(q.wokenSenders, q.senders[..n]);
  }

  lemma InsertDistinct(s: seq<Task>, t: Task, p: nat)
    requires Distinct(s) && t !in s && p <= |s|
    ensures Distinct(InsertAt(s, t, p)) && forall x :: x in InsertAt(s, t, p) <==> x == t || x in s
  {
    assert s == s[..p] + s[p..];
  }

  lemma {:induction false} WithoutDistinct(s: seq<Task>, t: Task)
    requires Distinct(s)
    ensures Distinct(Without(s, t))
  {
    if s != [] {
      var w := Without(s[1..], t);
      WithoutDistinct(s[1..], t);
      assert forall i :: 0 <= i < |w| ==> w[i] in s[1..];
      assert s[0] !in s[1..];
      assert s[0] !in w;
    }
  }

  lemma PlaceInv(q: Waits, op: Op)
    requires Inv(q) && Enabled(q, op) && (op.PlaceReceiver? || op.PlaceSender?)
    ensures Inv(Step(q, op))
  {
    if op.PlaceReceiver? {
      InsertDistinct(q.receivers, q.phase.task, op.pos);
    } else {
      InsertDistinct(q.senders, q.phase.task, op.pos);
    }
  }

  lemma ExpireInv(q: Waits, t: Task)
    requires Inv(q) && Enabled(q, Expire(t))
    ensures Inv(Step(q, Expire(t)))
  {
    WithoutDistinct(q.receivers, t);
    WithoutDistinct(q.senders, t);
  }

  lemma LockInv(q: Waits, op: Op)
    requires Inv(q) && Enabled(q, op) && (op.Lock? || op.CheckEmpty? || op.CheckFull?)
    ensures Inv(Step(q, op))
  {
  }

  lemma StepInv(q: Waits, op: Op)
    requires Inv(q) && Enabled(q, op)
    ensures Inv(Step(q, op))
  {
    hide Inv, TrySend, TryReceive, TryPeek, IsrSend, IsrReceive, UnlockTxHalf, UnlockRxHalf, LockQueue, InsertAt,
      Without;
    match op {
      case Send(t, overwrite) => SendInv(q, t, overwrite);
      case Receive(t) => ReceiveInv(q, t);
      case Peek(t) => PeekInv(q, t);
      case SendFromISR(overwrite) => IsrSendInv(q, overwrite);
      case ReceiveFromISR => IsrReceiveInv(q);
      case Lock(_) => LockInv(q, op);
      case CheckEmpty => LockInv(q, op);
      case CheckFull => LockInv(q, op);
      case PlaceReceiver(_) => PlaceInv(q, op);
      case PlaceSender(_) => PlaceInv(q, op);
      case UnlockTx => UnlockTxInv(q);
      case UnlockRx => UnlockRxInv(q);
      case Expire(t) => ExpireInv(q, t);
    }
  }

  // ----- whole runs

  predicate Allowed(q: Waits, ops: seq<Op>)
    decreases |ops|
  {
    ops == [] || (Enabled(q, ops[0]) && Allowed(Step(q, ops[0]), ops[1..]))
  }

  function Run(q: Waits, ops: seq<Op>): Waits
    requires Allowed(q, ops)
    decreases |ops|
  {
    if ops == [] then q else Run(Step(q, ops[0]), ops[1..])
  }

  lemma {:induction false} RunInv(q: Waits, ops: seq<Op>)
    requires Inv(q) && Allowed(q, ops)
    ensures Inv(Run(q, ops))
    decreases |ops|
  {
    hide Inv, Enabled, Step;
    if ops != [] {
      StepInv(q, ops[0]);
      RunInv(Step(q, ops[0]), ops[1..]);
    }
  }

  /** A queue after xQueueGenericReset. */
  function Fresh(length: nat): Waits {
    Waits(length, 0, UNLOCKED, UNLOCKED, [], [], {}, {}, Running)
  }

  /** Under every interleaving of task and interrupt sends, receives and peeks: when the queue
      is unlocked, a message never lies there while receivers wait and none of those woken is
      still on its way, and a free slot never while senders wait in the same manner. */
  lemma NoLostWakeUp(length: nat, ops: seq<Op>)
    requires Allowed(Fresh(length), ops)
    ensures var q := Run(Fresh(length), ops);
            && q.count <= q.length
            && (q.receivers != [] ==> q.count <= |q.wokenReceivers| + Owed(q.txLock))
            && (q.senders != [] ==> q.length - q.count <= |q.wokenSenders| + Owed(q.rxLock))
            && (q.phase.Running? && q.receivers != [] && q.count > 0 ==> q.wokenReceivers != {})
            && (q.phase.Running? && q.senders != [] && q.count < q.length ==> q.wokenSenders != {})
  {
    RunInv(Fresh(length), ops);
  }

  // ----- no wake-up is given without cause

  /** A message accepted or found by a peek: what a receiver may be woken for. */
  function Offers(q: Waits, op: Op): nat {
    match op
    case Send(_, overwrite) => if Accepts(q, overwrite) then 1 else 0
    case SendFromISR(overwrite) => if Accepts(q, overwrite) then 1 else 0
    case Peek(_) => if q.count > 0 then 1 else 0
    case _ => 0
  }

  /** A slot freed: what a sender may be woken for. */
  function Frees(q: Waits, op: Op): nat {
    match op
    case Receive(_) => if q.count > 0 then 1 else 0
    case ReceiveFromISR => if q.count > 0 then 1 else 0
    case _ => 0
  }

  predicate ChangesLists(op: Op) {
    op.PlaceReceiver? || op.PlaceSender? || op.Expire?
  }

  /** The tasks woken: those by which a list has become shorter, except when a time-out did it. */
  function ReceiversWoken(q: Waits, op: Op): int
    requires Enabled(q, op)
  {
    if ChangesLists(op) then 0 else |q.receivers| - |Step(q, op).receivers|
  }

  function SendersWoken(q: Waits, op: Op): int
    requires Enabled(q, op)
  {
    if ChangesLists(op) then 0 else |q.senders| - |Step(q, op).senders|
  }

  /** The tasks woken are the first of the list, which are those of the highest priority, and every
      one of them is paid for. */
  lemma StepWakes(q: Waits, op: Op)
    requires Inv(q) && Enabled(q, op)
    ensures var q' := Step(q, op);
            && ReceiversWoken(q, op) >= 0 && SendersWoken(q, op) >= 0
            && ReceiversWoken(q, op) + Owed(q'.txLock) <= Owed(q.txLock) + Offers(q, op)
            && SendersWoken(q, op) + Owed(q'.rxLock) <= Owed(q.rxLock) + Frees(q, op)
    ensures !ChangesLists(op) ==>
              var q' := Step(q, op);
              && q'.receivers == q.receivers[ReceiversWoken(q, op)..]
              && q'.senders == q.senders[SendersWoken(q, op)..]
              && (forall t :: t in q.receivers[..ReceiversWoken(q, op)] ==> t in q'.wokenReceivers)
              && (forall t :: t in q.senders[..SendersWoken(q, op)] ==> t in q'.wokenSenders)
  {
    hide Placed, Spoken;
  }

  function AllOffers(q: Waits, ops: seq<Op>): nat
    requires Allowed(q, ops)
    decreases |ops|
  {
    if ops == [] then 0 else Offers(q, ops[0]) + AllOffers(Step(q, ops[0]), ops[1..])
  }

  function AllFrees(q: Waits, ops: seq<Op>): nat
    requires Allowed(q, ops)
    decreases |ops|
  {
    if ops == [] then 0 else Frees(q, ops[0]) + AllFrees(Step(q, ops[0]), ops[1..])
  }

  function AllReceiversWoken(q: Waits, ops: seq<Op>): int
    requires Allowed(q, ops)
    decreases |ops|
  {
    if ops == [] then 0 else ReceiversWoken(q, ops[0]) + AllReceiversWoken(Step(q, ops[0]), ops[1..])
  }

  function AllSendersWoken(q: Waits, ops: seq<Op>): int
    requires Allowed(q, ops)
    decreases |ops|
  {
    if ops == [] then 0 else SendersWoken(q, ops[0]) + AllSendersWoken(Step(q, ops[0]), ops[1..])
  }

  lemma {:induction false} RunWakes(q: Waits, ops: seq<Op>)
    requires Inv(q) && Allowed(q, ops)
    ensures var q' := Run(q, ops);
            && AllReceiversWoken(q, ops) + Owed(q'.txLock) <= Owed(q.txLock) + AllOffers(q, ops)
            && AllSendersWoken(q, ops) + Owed(q'.rxLock) <= Owed(q.rxLock) + AllFrees(q, ops)
    decreases |ops|
  {
    hide Inv, Enabled, Step, Offers, Frees, ReceiversWoken, SendersWoken;
    if ops != [] {
      StepInv(q, ops[0]);
      StepWakes(q, ops[0]);
      RunWakes(Step(q, ops[0]), ops[1..]);
    }
  }

  /** Under every interleaving: each receiver woken has a message of its own that was accepted, or
      a peek that left one, to account for it, and each sender woken a message received; what the
      interrupts counted while the queue was locked is still owed. */
  lemma NoSpuriousWakeUp(length: nat, ops: seq<Op>)
    requires Allowed(Fresh(length), ops)
    ensures var q := Run(Fresh(length), ops);
            && AllReceiversWoken(Fresh(length), ops) + Owed(q.txLock) <= AllOffers(Fresh(length), ops)
            && AllSendersWoken(Fresh(length), ops) + Owed(q.rxLock) <= AllFrees(Fresh(length), ops)
  {
    RunWakes(Fresh(length), ops);
  }
}
