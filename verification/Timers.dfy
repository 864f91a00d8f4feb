/** The timer daemon of timers.c: wrapped expiry decisions, catching up, the list switch. */
module Timers {
  import opened Words

  type Id = nat

  /** Timer_t; `value` is the value of its list item. */
  datatype Timer = Timer(period: nat, autoReload: bool, active: bool, value: nat)

  datatype Decision = ProcessNow | OnCurrent | OnOverflow

  /** The comparisons of prvInsertTimerInActiveList. */
  function Decide(next: nat, now: nat, command: nat, period: nat): Decision {
    if next <= now then
      if Wrap(now - command) >= period then ProcessNow else OnOverflow
    else if now < command && next >= command then ProcessNow
    else OnCurrent
  }

  /** What a timer started at `c` deserves at the later time `n`. */
  function Deserved(c: nat, period: nat, n: nat): Decision {
    if n >= c + period then ProcessNow
    else if Epoch(c + period) == Epoch(n) then OnCurrent
    else OnOverflow
  }

  /** The comparisons see only the wrapped distance between command and processing. */
  lemma DecideWrapped(c: nat, period: nat, n: nat)
    requires c <= n && 0 < period < MODULUS
    ensures Decide(Wrap(c + period), Wrap(n), Wrap(c), period) == ProcessNow <==> Wrap(n - c) >= period
  {
    SoonAfter(c, period);
    DifferenceWraps(c, n);
  }

  lemma DifferenceWraps(c: nat, n: nat)
    requires c <= n
    ensures Wrap(Wrap(n) - Wrap(c)) == Wrap(n - c)
    ensures Wrap(n - c) == if Wrap(n) >= Wrap(c) then Wrap(n) - Wrap(c) else Wrap(n) - Wrap(c) + MODULUS
    ensures n - c < MODULUS ==> Wrap(n - c) == n - c
  {
  }

  lemma DecideSoon(c: nat, period: nat, n: nat)
    requires c <= n < c + MODULUS && 0 < period < MODULUS
    ensures Decide(Wrap(c + period), Wrap(n), Wrap(c), period) == Deserved(c, period, n)
  {
    DecideWrapped(c, period, n);
    DifferenceWraps(c, n);
    if n < c + period {
      SoonAfter(n, c + period - n);
    }
    SoonAfter(c, n - c);
    SoonAfter(c, period);
    hide Wrap, Epoch;
  }

  /** The four-way comparison is right exactly when less than a tick period has passed, or
      when the part of the delay it can see is already a timer period long. */
  lemma DecideExact(c: nat, period: nat, n: nat)
    requires c <= n && 0 < period < MODULUS
    ensures Decide(Wrap(c + period), Wrap(n), Wrap(c), period) == Deserved(c, period, n)
            <==> n - c < MODULUS || Wrap(n - c) >= period
  {
    DecideWrapped(c, period, n);
    if n < c + MODULUS {
      DecideSoon(c, period, n);
    }
    hide Wrap, Epoch, Decide;
  }

  /** A timer of one tick, processed a whole tick period late, is listed as still to come. */
  lemma LateExpiryUnseen()
    ensures Decide(Wrap(0 + 1), Wrap(MODULUS), Wrap(0), 1) == OnCurrent && Deserved(0, 1, MODULUS) == ProcessNow
  {
  }

  // ----- how often an auto-reload timer is due

  /** The `k`-th expiry of a timer started at `c`. */
  function Expiry(c: nat, period: nat, k: nat): nat {
    c + k * period
  }

  lemma ExpiryNext(c: nat, period: nat, k: nat)
    ensures Expiry(c, period, k + 1) == Expiry(c, period, k) + period
  {
  }

  /** The number of expiries by time `n`. */
  lemma ExpiriesBy(c: nat, period: nat, n: nat, k: nat)
    requires c <= n && 0 < period && Expiry(c, period, k) <= n < Expiry(c, period, k + 1)
    ensures k == (n - c) / period
  {
    ExpiryNext(c, period, k);
    Quotient(n - c, period, k);
  }

  lemma Quotient(x: nat, d: nat, q: nat)
    requires 0 < d && q * d <= x < q * d + d
    ensures x / d == q
  {
    var r := x / d;
    assert x == r * d + x % d;
    NextMultiple(r, d);
    NextMultiple(q, d);
    if r < q {
      Monotone(r + 1, q, d);
    } else if r > q {
      Monotone(q + 1, r, d);
    }
  }

  lemma NextMultiple(a: nat, d: nat)
    ensures (a + 1) * d == a * d + d
  {
  }

  lemma Monotone(a: nat, b: nat, d: nat)
    requires a <= b
    ensures a * d <= b * d
  {
  }

  // ----- the wrap between two samples of the tick count

  /** prvSampleTimeNow notices the wrap exactly when it can be at most one: the number of
      switches made is the number of wraps if and only if the samples are less than a tick
      period apart. */
  lemma SampleExact(last: nat, n: nat)
    requires last <= n
    ensures Epoch(n) == Epoch(last) + (if Wrap(n) < Wrap(last) then 1 else 0) <==> n - last < MODULUS
  {
    EpochSplit(last);
    EpochSplit(n);
  }

  /** Two samples a whole tick period apart hide the wrap between them. */
  lemma WrapUnseen()
    ensures Epoch(MODULUS) == Epoch(0) + 1 && !(Wrap(MODULUS) < Wrap(0))
  {
  }
}
