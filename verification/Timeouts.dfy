/** Elapsed time from wrapped tick counts: xTaskCheckForTimeOut and xTaskDelayUntil. */
module Timeouts {
  import opened Words
  import opened Kernel
  import opened KernelInvariants
  import opened KernelTime
  import opened KernelOps
  import opened Scheduling

  /** TimeOut_t: the overflow count and the tick count when the wait began. */
  datatype Stamp = Stamp(overflowCount: nat, timeOnEntering: nat)

  /** The stamp of the unbounded time `t`. */
  function StampAt(t: nat): Stamp {
    Stamp(Epoch(t), Wrap(t))
  }

  datatype Verdict = Expired | Waiting(stamp: Stamp, left: nat)

  /** The decision of xTaskCheckForTimeOut when no delay was aborted. */
  function Check(now: Stamp, entered: Stamp, wait: nat): Verdict {
    var elapsed := Wrap(now.timeOnEntering - entered.timeOnEntering);
    if wait == MAX_DELAY then Waiting(entered, wait)
    else if now.overflowCount != entered.overflowCount && now.timeOnEntering >= entered.timeOnEntering then Expired
    else if elapsed < wait then Waiting(now, wait - elapsed)
    else Expired
  }

  /** The one case the comparison cannot see: at least two overflows and less than a whole
      number of tick periods since the wait began. */
  predicate Missed(entered: nat, now: nat, wait: nat) {
    now >= entered && Epoch(now) >= Epoch(entered) + 2 && Wrap(now) < Wrap(entered) && Wrap(now - entered) < wait
  }

  lemma WrapOfDifference(entered: nat, now: nat)
    requires entered <= now
    ensures Wrap(Wrap(now) - Wrap(entered)) == Wrap(now - entered)
  {
  }

  lemma ShortDistance(entered: nat, now: nat)
    requires entered <= now
    ensures now - entered < MODULUS ==> Wrap(now - entered) == now - entered
    ensures now - entered < MODULUS <==>
            Epoch(now) == Epoch(entered) || (Epoch(now) == Epoch(entered) + 1 && Wrap(now) < Wrap(entered))
    ensures Epoch(now) == Epoch(entered) ==> Wrap(now) >= Wrap(entered)
    ensures Epoch(now) >= Epoch(entered)
  {
    EpochSplit(entered);
    EpochSplit(now);
  }

  /** A finite wait is judged rightly, with the exact remaining time, if and only if it is not
      the missed case. */
  lemma CheckExact(entered: nat, now: nat, wait: nat)
    requires entered <= now && wait < MAX_DELAY
    ensures Check(StampAt(now), StampAt(entered), wait)
            == (if now >= entered + wait then Expired else Waiting(StampAt(now), entered + wait - now))
            <==> !Missed(entered, now, wait)
  {
    WrapOfDifference(entered, now);
    ShortDistance(entered, now);
    hide Wrap, Epoch;
  }

  /** A wait of two ticks, checked one period and one tick after its start: it has expired, and
      the call says that a tick is left. */
  lemma LateCheckMisses()
    ensures var entered, now := MODULUS - 1, 2 * MODULUS;
            now >= entered + 2 && Missed(entered, now, 2)
                && Check(StampAt(now), StampAt(entered), 2) == Waiting(StampAt(now), 1)
  {
    EpochUnique(MODULUS - 1, 0, MODULUS - 1);
    EpochUnique(2 * MODULUS, 2, 0);
    EpochUnique(MODULUS + 1, 1, 1);
    WrapOfDifference(MODULUS - 1, 2 * MODULUS);
    hide Wrap, Epoch;
  }

  /** A wait of portMAX_DELAY never expires. */
  lemma ForeverWaits(entered: nat, now: nat)
    ensures Check(StampAt(now), StampAt(entered), MAX_DELAY) == Waiting(StampAt(entered), MAX_DELAY)
  {
  }

  /** The calls of a blocking loop at the times given, up to the first that reports expiry. */
  function Poll(stamp: Stamp, wait: nat, times: seq<nat>): Verdict
    decreases |times|
  {
    if times == [] then Waiting(stamp, wait) else
      match Check(StampAt(times[0]), stamp, wait)
      case Expired => Expired
      case Waiting(stamp', left) => Poll(stamp', left, times[1..])
  }

  /** Time does not run backwards and overflows at most once between two checks. */
  predicate Regular(entered: nat, times: seq<nat>)
    decreases |times|
  {
    times == [] || (entered <= times[0] && Epoch(times[0]) <= Epoch(entered) + 1 && Regular(times[0], times[1..]))
  }

  function LastOf(entered: nat, times: seq<nat>): nat {
    if times == [] then entered else times[|times| - 1]
  }

  /** The checks telescope: expiry is reported by some call if and only if one of them came at
      or after the original deadline, and until then what is left always adds up to it. */
  lemma {:induction false} Telescopes(entered: nat, wait: nat, times: seq<nat>)
    requires Regular(entered, times) && 0 < wait < MAX_DELAY
    ensures Poll(StampAt(entered), wait, times)
            == if LastOf(entered, times) >= entered + wait then Expired
               else Waiting(StampAt(LastOf(entered, times)), entered + wait - LastOf(entered, times))
    decreases |times|
  {
    if times != [] {
      var now := times[0];
      CheckExact(entered, now, wait);
      LastReached(now, times[1..]);
      hide Epoch, Wrap;
      if now < entered + wait {
        Telescopes(now, entered + wait - now, times[1..]);
      }
    }
  }

  lemma {:induction false} LastReached(entered: nat, times: seq<nat>)
    requires Regular(entered, times)
    ensures entered <= LastOf(entered, times)
    decreases |times|
  {
    hide Epoch;
    if times != [] {
      LastReached(times[0], times[1..]);
    }
  }

  // ----- xTaskDelayUntil

  datatype Until = Until(wake: nat, delays: bool)

  function DelayUntil(now: nat, previous: nat, increment: nat): Until {
    var wake := Wrap(previous + increment);
    Until(wake, if now < previous then wake < previous && wake > now else wake < previous || wake > now)
  }

  /** The call delays exactly when the next period is still to come, as long as the caller is
      less than one tick period late; later than that it is right exactly when it does not
      delay. */
  lemma DelayUntilExact(previous: nat, now: nat, increment: nat)
    requires previous <= now && 0 < increment < MODULUS
    ensures var r := DelayUntil(Wrap(now), Wrap(previous), increment);
            && r.wake == Wrap(previous + increment)
            && (r.delays == (previous + increment > now)
                <==> now - previous < MODULUS || Wrap(now - previous) >= increment)
            && (r.delays ==> 1 <= Wrap(r.wake - Wrap(now)) < MODULUS)
            && (r.delays && now - previous < MODULUS ==> Wrap(r.wake - Wrap(now)) == previous + increment - now)
  {
    SoonAfter(previous, increment);
    DelayUntilWrapped(previous, now, increment);
    ShortDistance(previous, now);
  }

  /** A period of one tick, resumed a whole tick period late: it is over, and the call delays. */
  lemma LatePeriodDelays()
    ensures 0 + 1 <= MODULUS && DelayUntil(Wrap(MODULUS), Wrap(0), 1).delays
  {
  }

  lemma DelayUntilWrapped(previous: nat, now: nat, increment: nat)
    requires previous <= now && 0 < increment < MODULUS
    ensures var r := DelayUntil(Wrap(now), Wrap(previous), increment);
            && (r.delays <==> increment > Wrap(now - previous))
            && (r.delays ==> Wrap(r.wake - Wrap(now)) == increment - Wrap(now - previous))
  {
    var now', wake := Wrap(now), Wrap(previous + increment);
    WrapOfDifference(previous, now);
    SoonAfter(previous, increment);
    WordDifference(now', Wrap(previous));
    WordDifference(wake, now');
    hide Wrap;
  }

  lemma WordDifference(a: nat, b: nat)
    requires IsWord(a) && IsWord(b)
    ensures Wrap(a - b) == if a >= b then a - b else a - b + MODULUS
  {
  }

  // ----- the same with the scheduler's clock

  class TimeOut {
    var overflowCount: nat
    var timeOnEntering: nat

    function Value(): Stamp
      reads this
    {
      Stamp(overflowCount, timeOnEntering)
    }

    /** vTaskSetTimeOutState */
    constructor (s: Scheduler)
      ensures TimeOk(s.St()) ==> Value() == StampAt(s.tick)
    {
      overflowCount := s.overflows;
      timeOnEntering := s.tickCount;
      new;
      StampNow(s.St());
    }

    /** xTaskCheckForTimeOut */
    method CheckForTimeOut(s: Scheduler, wait: nat) returns (expired: bool, left: nat)
      requires s.current in s.tcb && TimeOk(s.St()) && IsWord(timeOnEntering)
      modifies this, s`tcb
      ensures if old(s.tcb)[s.current].delayAborted
              then expired && left == wait && Value() == old(Value())
                   && s.tcb == old(s.tcb)[s.current := old(s.tcb)[s.current].(delayAborted := false)]
              else s.tcb == old(s.tcb)
                   && (match Check(StampAt(s.tick), old(Value()), wait)
                       case Expired => expired && left == 0 && Value() == old(Value())
                       case Waiting(stamp, rest) => !expired && left == rest && Value() == stamp)
    {
      StampNow(s.St());
      var elapsed := Wrap(s.tickCount - timeOnEntering);
      left := wait;
      if s.tcb[s.current].delayAborted {
        s.tcb := s.tcb[s.current := s.tcb[s.current].(delayAborted := false)];
        expired := true;
      } else if wait == MAX_DELAY {
        expired := false;
      } else if s.overflows != overflowCount && s.tickCount >= timeOnEntering {
        expired := true;
        left := 0;
      } else if elapsed < wait {
        left := wait - elapsed;
        overflowCount := s.overflows;
        timeOnEntering := s.tickCount;
        expired := false;
      } else {
        left := 0;
        expired := true;
      }
    }
  }

  lemma StampNow(k: State)
    ensures TimeOk(k) ==> StampAt(k.tick) == Stamp(k.overflows, k.tickCount)
  {
    if TimeOk(k) {
      EpochUnique(k.tick, k.overflows, k.tickCount);
    }
  }

  /** The suspended region of xTaskDelayUntil: the task sleeps until `previous + increment`
      in unbounded time, so periods do not drift. */
  method DelayTaskUntil(s: Scheduler, ghost previous: nat, previousWakeTime: nat, increment: nat)
    returns (wake: nat, delayed: bool)
    requires Inv(s.St()) && Running(s.St()) && 0 < increment < MODULUS
    requires previous <= s.tick && previousWakeTime == Wrap(previous)
    modifies s`lists, s`tcb, s`nextUnblock
    ensures wake == Wrap(previous + increment)
    ensures s.tick - previous < MODULUS ==>
              delayed == (previous + increment > s.tick)
              && (delayed ==> WakeAt(s.St(), s.current) == previous + increment)
    ensures s.St() == if delayed then DelayCurrent(old(s.St()), Wrap(wake - s.tickCount), false) else old(s.St())
  {
    hide Inv, Running, DelayCurrent, WakeAt, DelayUntil;
    ghost var k := s.St();
    ClockOf(k);
    DelayUntilExact(previous, k.tick, increment);
    wake, delayed := UntilDecision(s.tickCount, previousWakeTime, increment);
    if delayed {
      DelayWakeAt(k, Wrap(wake - s.tickCount), false);
      s.AddCurrentToDelayed(Wrap(wake - s.tickCount), false);
    }
  }

  method UntilDecision(now: nat, previous: nat, increment: nat) returns (wake: nat, delays: bool)
    ensures DelayUntil(now, previous, increment) == Until(wake, delays)
  {
    wake := Wrap(previous + increment);
    delays := false;
    if now < previous {
      if wake < previous && wake > now {
        delays := true;
      }
    } else if wake < previous || wake > now {
      delays := true;
    }
  }

  lemma ClockOf(k: State)
    requires Inv(k)
    ensures TimeOk(k) && k.tickCount == Wrap(k.tick) && k.current in k.tcb
  {
    StampNow(k);
  }
}
