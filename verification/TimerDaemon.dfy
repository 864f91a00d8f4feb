/** The two timer lists of timers.c and the daemon that serves them. */
module TimerDaemons {
  import opened Words
  import opened Lists
  import opened Timers

  /** `origin`, `expiries` and `calls` are not in the source: the time the timer was started,
      and how many of its expiries have passed and how many callbacks have run since. */
  datatype Served = Served(timer: Timer, origin: nat, expiries: nat, calls: nat)

  function At(b: Served, k: nat): nat {
    Expiry(b.origin, b.timer.period, k)
  }

  /** The unbounded time of the next expiry. */
  function Due(b: Served): nat {
    At(b, b.expiries + 1)
  }

  function Values(all: map<Id, Served>, s: seq<Id>): (vs: seq<nat>)
    ensures |vs| == |s| && forall i :: 0 <= i < |s| && s[i] in all ==> vs[i] == all[s[i]].timer.value
  {
    seq(|s|, i requires 0 <= i < |s| => if s[i] in all then all[s[i]].timer.value else 0)
  }

  /** The list item value is the wrapped expiry time, in the period `epoch`. */
  predicate ValueFits(b: Served, epoch: nat) {
    Due(b) == Periods(epoch) + b.timer.value && IsWord(b.timer.value)
  }

  /** A timer list of one tick period, in order. */
  ghost predicate Good(all: map<Id, Served>, s: seq<Id>, epoch: nat) {
    && NoDup(s) && Sorted(Values(all, s))
    && forall t :: t in s ==> t in all && ValueFits(all[t], epoch)
  }

  ghost predicate PeriodsOk(all: map<Id, Served>) {
    forall t :: t in all ==> 0 < all[t].timer.period < MODULUS
  }

  predicate Settled(b: Served, listed: bool) {
    (b.timer.active <==> listed) && b.calls == b.expiries
  }

  /** Timers other than `off` are active exactly when they are on a list, and every expiry has
      had its callback. */
  ghost predicate ActiveOk(all: map<Id, Served>, current: seq<Id>, overflow: seq<Id>, off: set<Id>) {
    forall t :: t in all && t !in off ==> Settled(all[t], t in current || t in overflow)
  }

  ghost predicate Apart(current: seq<Id>, overflow: seq<Id>) {
    forall t :: t in current ==> t !in overflow
  }

  /** The timer after every expiry up to time `n` has been served. */
  predicate CaughtUp(b: Served, b': Served, n: nat) {
    if b.timer.autoReload then
      && b' == b.(timer := b.timer.(value := b'.timer.value), expiries := b'.expiries, calls := b'.expiries)
      && At(b, b'.expiries) <= n < At(b, b'.expiries + 1)
    else
      && b' == b.(timer := b.timer.(active := false, value := b'.timer.value), expiries := b.expiries + 1,
          calls := b.expiries + 1)
      && Due(b) <= n
  }

  /** The callbacks an auto-reload timer has run by then is the number of its periods. */
  lemma CaughtUpCount(b: Served, b': Served, n: nat)
    requires CaughtUp(b, b', n) && b.timer.autoReload && b.timer.period > 0 && b.origin <= n
    ensures b'.calls == (n - b.origin) / b.timer.period
    ensures n < Due(b') <= n + b.timer.period
  {
    ExpiriesBy(b.origin, b.timer.period, n, b'.expiries);
    ExpiryNext(b.origin, b.timer.period, b'.expiries);
  }

  // ----- the lists

  function InsertIn(s: seq<Id>, t: Id, p: nat): (s': seq<Id>)
    requires p <= |s|
    ensures forall x :: x in s' <==> x == t || x in s
  {
    assert s == s[..p] + s[p..];
    s[..p] + [t] + s[p..]
  }

  lemma InsertInNoDup(s: seq<Id>, t: Id, p: nat)
    requires p <= |s| && NoDup(s) && t !in s
    ensures NoDup(InsertIn(s, t, p))
  {
  }

  lemma ValuesInsert(all: map<Id, Served>, s: seq<Id>, t: Id, p: nat)
    requires p <= |s| && t in all
    ensures Values(all, InsertIn(s, t, p)) == Values(all, s)[..p] + [all[t].timer.value] + Values(all, s)[p..]
  {
  }

  lemma GoodInsert(all: map<Id, Served>, s: seq<Id>, epoch: nat, t: Id)
    requires Good(all, s, epoch) && t in all && t !in s && ValueFits(all[t], epoch)
    ensures Good(all, InsertIn(s, t, SortedPos(Values(all, s), all[t].timer.value)), epoch)
  {
    hide NoDup, Sorted, SortedPos, InsertIn, Values, ValueFits;
    var v := all[t].timer.value;
    var vs := Values(all, s);
    var p := SortedPos(vs, v);
    InsertInNoDup(s, t, p);
    SortedInsert(vs, v);
    ValuesInsert(all, s, t, p);
  }

  /** Changes to timers that are not on the list leave it good. */
  lemma GoodFrame(all: map<Id, Served>, all': map<Id, Served>, s: seq<Id>, epoch: nat)
    requires Good(all, s, epoch) && forall t :: t in s && t in all ==> t in all' && all'[t] == all[t]
    ensures Good(all', s, epoch)
  {
    assert Values(all', s) == Values(all, s);
  }

  lemma GoodEmpty(all: map<Id, Served>, epoch: nat)
    ensures Good(all, [], epoch)
  {
  }

  lemma GoodTail(all: map<Id, Served>, s: seq<Id>, epoch: nat)
    requires Good(all, s, epoch) && s != []
    ensures Good(all, s[1..], epoch) && s[0] !in s[1..]
    ensures forall t :: t in s ==> all[s[0]].timer.value <= all[t].timer.value
  {
    assert s == [s[0]] + s[1..];
    assert Values(all, s[1..]) == Values(all, s)[1..];
    forall t | t in s
      ensures all[s[0]].timer.value <= all[t].timer.value
    {
      var i :| 0 <= i < |s| && s[i] == t;
      assert Values(all, s)[0] <= Values(all, s)[i];
    }
  }

  function Without(s: seq<Id>, t: Id): (s': seq<Id>)
    ensures t !in s ==> s' == s
    ensures forall x :: x in s' ==> x in s
  {
    if t in s then Remove(Ring(s, 0), t).items else s
  }

  lemma SortedWithout(vs: seq<nat>, i: nat)
    requires i < |vs| && Sorted(vs)
    ensures Sorted(vs[..i] + vs[i + 1..])
  {
  }

  lemma ValuesWithout(all: map<Id, Served>, s: seq<Id>, i: nat)
    requires i < |s|
    ensures Values(all, s[..i] + s[i + 1..]) == Values(all, s)[..i] + Values(all, s)[i + 1..]
  {
  }

  lemma GoodWithout(all: map<Id, Served>, s: seq<Id>, epoch: nat, t: Id)
    requires Good(all, s, epoch)
    ensures Good(all, Without(s, t), epoch)
    ensures forall x :: x in Without(s, t) <==> x in s && x != t
  {
    hide Sorted, Values, NoDup, ValueFits;
    if t in s {
      RemoveFacts(Ring(s, 0), t);
      SortedWithout(Values(all, s), IndexOf(s, t));
      ValuesWithout(all, s, IndexOf(s, t));
    }
  }

  /** What prvInsertTimerInActiveList decides, in unbounded time. */
  lemma DecidedPlace(b: Served, next: nat, now: nat, command: nat, time: nat)
    requires 0 < b.timer.period < MODULUS && At(b, b.expiries) <= time < At(b, b.expiries) + MODULUS
    requires next == Wrap(Due(b)) && now == Wrap(time) && command == Wrap(At(b, b.expiries))
    ensures var d := Decide(next, now, command, b.timer.period);
            var b' := b.(timer := b.timer.(value := next));
            && (d == ProcessNow <==> Due(b) <= time)
            && (d == OnCurrent <==> Due(b) > time && Epoch(Due(b)) == Epoch(time))
            && (d == OnCurrent ==> ValueFits(b', Epoch(time)))
            && (d == OnOverflow ==> ValueFits(b', Epoch(time) + 1))
  {
    ExpiryNext(b.origin, b.timer.period, b.expiries);
    DecideSoon(At(b, b.expiries), b.timer.period, time);
    hide Decide;
    EpochSplit(Due(b));
    if time < Due(b) {
      SoonAfter(time, Due(b) - time);
    }
    hide Wrap, Epoch, Expiry;
  }

  /** The timer after prvReloadTimer. */
  predicate Reloaded(b: Served, b': Served, time: nat) {
    && b'.expiries >= b.expiries
    && b' == b.(timer := b.timer.(value := b'.timer.value), expiries := b'.expiries,
                calls := b.calls + (b'.expiries - b.expiries))
    && At(b', b'.expiries) <= time < Due(b')
  }

  lemma SameTimes(b: Served, value: nat)
    ensures var b' := b.(timer := b.timer.(value := value));
            Due(b') == Due(b) && At(b', b'.expiries) == At(b, b.expiries)
  {
  }

  lemma NextDue(b: Served)
    ensures Due(b) == At(b, b.expiries) + b.timer.period
    ensures Due(b) == At(b.(expiries := b.expiries + 1, calls := b.calls + 1), b.expiries + 1)
    ensures Due(b) == At(b.(expiries := b.expiries + 1), b.expiries + 1)
    ensures Wrap(Wrap(At(b, b.expiries)) + b.timer.period) == Wrap(Due(b))
  {
    ExpiryNext(b.origin, b.timer.period, b.expiries);
    hide Expiry;
  }

  lemma Head(s: seq<Id>)
    requires s != []
    ensures s == [s[0]] + s[1..] && forall x :: x in s <==> x == s[0] || x in s[1..]
  {
    assert s == [s[0]] + s[1..];
  }

  /** The head of a list whose value the clock has reached is due, by less than a period. */
  lemma HeadDue(all: map<Id, Served>, s: seq<Id>, epoch: nat, time: nat)
    requires Good(all, s, epoch) && s != [] && s[0] in all && epoch == Epoch(time)
             && all[s[0]].timer.value <= Wrap(time)
    ensures Due(all[s[0]]) <= time < Due(all[s[0]]) + MODULUS && all[s[0]].timer.value == Wrap(Due(all[s[0]]))
  {
    EpochSplit(time);
    assert ValueFits(all[s[0]], epoch);
    EpochUnique(Due(all[s[0]]), epoch, all[s[0]].timer.value);
  }

  lemma CalledGood(all: map<Id, Served>, s: seq<Id>, epoch: nat, t: Id)
    requires Good(all, s, epoch) && t in all
    ensures Good(all[t := all[t].(calls := all[t].calls + 1)], s, epoch)
  {
    var all' := all[t := all[t].(calls := all[t].calls + 1)];
    assert Values(all', s) == Values(all, s);
    assert Due(all'[t]) == Due(all[t]);
  }

  lemma AtGrows(b: Served, j: nat, k: nat)
    requires j <= k
    ensures At(b, j) <= At(b, k)
  {
    Monotone(j, k, b.timer.period);
  }

  lemma SettledFacts(b: Served, listed: bool)
    requires Settled(b, listed)
    ensures b.timer.active == listed && b.calls == b.expiries
  {
  }

  /** Between the reload and the last callback of prvProcessExpiredTimer. */
  lemma ServedOnce(b: Served, r: Served, time: nat)
    requires b.calls == b.expiries && b.timer.active && Due(b) <= time
    requires if b.timer.autoReload then Reloaded(b.(expiries := b.expiries + 1), r, time)
             else r == b.(timer := b.timer.(active := false), expiries := b.expiries + 1)
    ensures CaughtUp(b, r.(calls := r.calls + 1), time)
    ensures Settled(r.(calls := r.calls + 1), b.timer.autoReload) && r.calls < r.expiries && At(r, r.expiries) <= time
    ensures Due(r.(calls := r.calls + 1)) == Due(r) && r.timer.autoReload == b.timer.autoReload
  {
    hide Expiry;
  }

  /** Exactly the timers in `s` have been served up to `time`. */
  ghost predicate ServedAll(all: map<Id, Served>, all': map<Id, Served>, s: seq<Id>, time: nat) {
    && all'.Keys == all.Keys
    && forall t :: t in all ==> if t in s then CaughtUp(all[t], all'[t], time) else all'[t] == all[t]
  }

  lemma HeadLive(all: map<Id, Served>, s: seq<Id>, epoch: nat, end: nat)
    requires Good(all, s, epoch) && s != [] && end == Periods(epoch) + MAX_DELAY
    ensures s[0] in all && all[s[0]].timer.value <= Wrap(end)
  {
    EpochUnique(end, epoch, MAX_DELAY);
    assert ValueFits(all[s[0]], epoch);
  }

  /** A reloaded timer is due later than the time it was served at. */
  lemma CaughtUpLater(b: Served, b': Served, time: nat)
    requires CaughtUp(b, b', time)
    ensures b.timer.autoReload ==> Due(b') > time && b'.timer.autoReload
    ensures !b.timer.autoReload ==> !b'.timer.autoReload
  {
  }

  /** Active timers were started, or last expired, before the last sample. */
  ghost predicate AllBegun(all: map<Id, Served>, time: nat) {
    forall t :: t in all && all[t].timer.active ==> At(all[t], all[t].expiries) <= time
  }

  lemma ServedBegun(b: Served, b': Served, end: nat)
    requires CaughtUp(b, b', end) && b'.timer.active
    ensures At(b', b'.expiries) <= end
  {
    hide Expiry;
  }

  lemma AllServedBegun(all: map<Id, Served>, all': map<Id, Served>, s: seq<Id>, last: nat, end: nat, time: nat)
    requires AllBegun(all, last) && ServedAll(all, all', s, end) && last <= time && end <= time
    ensures AllBegun(all', time)
  {
    hide At, CaughtUp;
    forall t | t in all' && all'[t].timer.active
      ensures At(all'[t], all'[t].expiries) <= time
    {
      if t in s {
        ServedBegun(all[t], all'[t], end);
      }
    }
  }

  lemma BegunLater(all: map<Id, Served>, last: nat, time: nat)
    requires AllBegun(all, last) && last <= time
    ensures AllBegun(all, time)
  {
    hide At;
  }

  lemma DueSoon(b: Served, time: nat)
    requires At(b, b.expiries) <= time && b.timer.period < MODULUS && Wrap(time) == 0
    ensures Due(b) < Periods(Epoch(time) + 1)
  {
    hide Epoch, Wrap;
    EpochSplit(time);
    NextDue(b);
    NextPeriod(Epoch(time));
  }

  lemma DueInPeriod(all: map<Id, Served>, s: seq<Id>, epoch: nat, t: Id)
    requires Good(all, s, epoch) && t in s
    ensures t in all && Due(all[t]) >= Periods(epoch)
  {
    assert ValueFits(all[t], epoch);
  }

  /** When the wrapped time is zero the overflow list is empty: its timers would be due a whole
      tick period from now. */
  lemma NoneAtWrap(all: map<Id, Served>, overflow: seq<Id>, time: nat)
    requires Good(all, overflow, Epoch(time) + 1) && PeriodsOk(all) && AllBegun(all, time) && Wrap(time) == 0
    requires forall t :: t in overflow ==> t in all && all[t].timer.active
    ensures overflow == []
  {
    hide Good, Values, At, Due, Epoch, Wrap;
    if overflow != [] {
      var t := overflow[0];
      DueSoon(all[t], time);
      DueInPeriod(all, overflow, Epoch(time) + 1, t);
    }
  }

  lemma HeadWord(all: map<Id, Served>, s: seq<Id>, epoch: nat)
    requires Good(all, s, epoch)
    ensures s != [] ==> s[0] in all && IsWord(all[s[0]].timer.value)
  {
    if s != [] {
      assert s[0] in s;
      assert ValueFits(all[s[0]], epoch);
    }
  }

  lemma EndPassed(last: nat, time: nat)
    requires last <= time && Wrap(time) < Wrap(last)
    ensures Periods(Epoch(last)) + MAX_DELAY <= time
  {
    EpochSplit(last);
    EpochSplit(time);
  }

  lemma NextPeriod(e: nat)
    ensures Periods(e + 1) == Periods(e) + MODULUS
  {
  }

  datatype Command = Start(timer: Id) | Stop(timer: Id) | ChangePeriod(timer: Id, period: nat) | Delete(timer: Id)

  /** What a command processed at `time` makes of its timer. A start whose expiry has passed
      is served at once, and caught up with if the timer reloads. */
  ghost predicate Commanded(command: Command, sent: nat, time: nat, b: Served, b': Served) {
    match command
    case Start(_) =>
      var s := Served(b.timer.(active := true), sent, 0, 0);
      if Due(s) <= time then CaughtUp(s, b', time) else b' == s.(timer := s.timer.(value := b'.timer.value))
    case Stop(_) => b' == b.(timer := b.timer.(active := false))
    case ChangePeriod(_, period) =>
      b' == Served(b.timer.(active := true, period := period, value := b'.timer.value), time, 0, 0)
    case Delete(_) => true
  }

  lemma CommandedBegun(command: Command, sent: nat, time: nat, b: Served, b': Served)
    requires Commanded(command, sent, time, b, b') && !command.Delete? && b'.timer.active
             && (command.Start? ==> sent <= time)
    ensures At(b', b'.expiries) <= time
  {
    match command {
      case Start(_) =>
        var s := Served(b.timer.(active := true), sent, 0, 0);
        if Due(s) <= time {
          ServedBegun(s, b', time);
        }
      case Stop(_) =>
      case ChangePeriod(_, _) =>
    }
  }

  // ----- what the commands so far ask of a timer

  /** Whether it is to run, from when with which period, and whether it reloads; not in the
      source. */
  datatype Plan = Plan(running: bool, origin: nat, period: nat, autoReload: bool)

  function Planned(p: Plan, command: Command, sent: nat, time: nat): Plan {
    match command
    case Start(_) => Plan(true, sent, p.period, p.autoReload)
    case Stop(_) => p.(running := false)
    case ChangePeriod(_, period) => Plan(true, time, period, p.autoReload)
    case Delete(_) => p
  }

  function PlannedAll(plans: map<Id, Plan>, command: Command, sent: nat, time: nat): map<Id, Plan> {
    var t := command.timer;
    if t !in plans || command.Delete? then plans - {t} else plans[t := Planned(plans[t], command, sent, time)]
  }

  /** The timer is on its way to what its plan asks for by time `n`. */
  predicate Tracks(b: Served, p: Plan, n: nat) {
    && b.timer.period == p.period && b.timer.autoReload == p.autoReload && b.calls == b.expiries
    && (b.timer.active ==> p.running)
    && (p.running ==>
          && b.origin == p.origin
          && (if b.timer.autoReload then b.timer.active
              else if b.timer.active then b.expiries == 0 else b.expiries == 1 && At(b, 1) <= n))
  }

  /** And there: as many callbacks as periods have ended by `n`, or one if it is one-shot, and
      the next expiry is the first after `n`. */
  predicate Exact(b: Served, p: Plan, n: nat) {
    && b.timer.autoReload == p.autoReload
    && if !p.running then !b.timer.active
       else if p.autoReload then
         && b.timer.active && p.period > 0 && p.origin <= n && b.calls == (n - p.origin) / p.period
         && n < Due(b) <= n + p.period && Due(b) == p.origin + (b.calls + 1) * p.period
       else
         && b.timer.active == (n < p.origin + p.period) && b.calls == (if n < p.origin + p.period then 0 else 1)
         && (b.timer.active ==> Due(b) == p.origin + p.period)
  }

  ghost predicate AllTrack(all: map<Id, Served>, plans: map<Id, Plan>, n: nat) {
    plans.Keys == all.Keys && forall t :: t in all ==> Tracks(all[t], plans[t], n)
  }

  lemma ServedTracks(b: Served, b': Served, p: Plan, last: nat, end: nat, time: nat)
    requires Tracks(b, p, last) && b.timer.active && CaughtUp(b, b', end) && last <= time && end <= time
    ensures Tracks(b', p, time)
  {
    hide Expiry;
  }

  lemma TracksLater(b: Served, p: Plan, last: nat, time: nat)
    requires Tracks(b, p, last) && last <= time
    ensures Tracks(b, p, time)
  {
  }

  lemma AllServedTrack(all: map<Id, Served>, all': map<Id, Served>, plans: map<Id, Plan>, s: seq<Id>, last: nat,
      end: nat, time: nat)
    requires AllTrack(all, plans, last) && ServedAll(all, all', s, end) && last <= time && end <= time
    requires forall t :: t in s && t in all ==> all[t].timer.active
    ensures AllTrack(all', plans, time)
  {
    hide Tracks, CaughtUp;
    forall t | t in all'
      ensures Tracks(all'[t], plans[t], time)
    {
      if t in s {
        ServedTracks(all[t], all'[t], plans[t], last, end, time);
      } else {
        TracksLater(all[t], plans[t], last, time);
      }
    }
  }

  lemma PlansKnown(all: map<Id, Served>, plans: map<Id, Plan>, n: nat)
    requires AllTrack(all, plans, n)
    ensures plans.Keys == all.Keys
  {
  }

  lemma AllTrackLater(all: map<Id, Served>, plans: map<Id, Plan>, last: nat, time: nat)
    requires AllTrack(all, plans, last) && last <= time
    ensures AllTrack(all, plans, time)
  {
    hide Expiry;
  }

  lemma CommandTracks(command: Command, sent: nat, time: nat, b: Served, b': Served, p: Plan, last: nat)
    requires Commanded(command, sent, time, b, b') && !command.Delete? && Tracks(b, p, last) && last <= time
    ensures Tracks(b', Planned(p, command, sent, time), time)
  {
    match command {
      case Start(_) =>
        var s := Served(b.timer.(active := true), sent, 0, 0);
        if Due(s) <= time {
          ServedTracks(s, b', Planned(p, command, sent, time), time, time, time);
        }
      case Stop(_) =>
      case ChangePeriod(_, _) =>
    }
  }

  /** Once no active timer is due, every timer is exactly where its plan asks. */
  lemma TracksExact(b: Served, p: Plan, n: nat)
    requires Tracks(b, p, n) && b.timer.period > 0 && (b.timer.active ==> At(b, b.expiries) <= n < Due(b))
    ensures Exact(b, p, n)
  {
    if p.running {
      if b.timer.autoReload {
        AtGrows(b, 0, b.expiries);
        ExpiryZero(b);
        ExpiriesBy(b.origin, b.timer.period, n, b.expiries);
        ExpiryNext(b.origin, b.timer.period, b.expiries);
      } else {
        OneExpiry(b);
      }
    }
  }

  lemma ExpiryZero(b: Served)
    ensures At(b, 0) == b.origin
  {
  }

  lemma OneExpiry(b: Served)
    ensures At(b, 1) == b.origin + b.timer.period
  {
  }

  /** A start command, however late it is processed, leaves its timer there at once. */
  lemma StartExact(sent: nat, time: nat, b: Served, b': Served, p: Plan, last: nat)
    requires sent <= time && last <= time && Tracks(b, p, last) && b.timer.period > 0
    requires var s := Served(b.timer.(active := true), sent, 0, 0);
             if Due(s) <= time then CaughtUp(s, b', time) else b' == s.(timer := s.timer.(value := b'.timer.value))
    ensures Exact(b', Plan(true, sent, p.period, p.autoReload), time)
  {
    var s := Served(b.timer.(active := true), sent, 0, 0);
    ExpiryZero(s);
    if Due(s) <= time {
      ServedTracks(s, b', Plan(true, sent, p.period, p.autoReload), time, time, time);
    }
    hide Expiry;
    TracksExact(b', Plan(true, sent, p.period, p.autoReload), time);
  }

  /** Of the timers other than `t`, exactly those in `s` have been served up to `end`. */
  ghost predicate OthersServed(all: map<Id, Served>, all': map<Id, Served>, t: Id, s: seq<Id>, end: nat) {
    forall x :: x in all && x != t ==> x in all' && if x in s then CaughtUp(all[x], all'[x], end) else all'[x] == all[x]
  }

  /** A command, with the switch of the lists that it may bring. */
  lemma AllCommanded(all: map<Id, Served>, all': map<Id, Served>, plans: map<Id, Plan>, command: Command, sent: nat,
                     last: nat, time: nat, switched: seq<Id>, end: nat)
    requires AllTrack(all, plans, last) && AllBegun(all, last) && PeriodsOk(all) && command.timer in all && last <= time
    requires all'.Keys == (if command.Delete? then all.Keys - {command.timer} else all.Keys)
    requires Commanded(command, sent, time, all[command.timer], if command.timer in all' then all'[command.timer]
             else all[command.timer])
    requires command.Start? ==> sent <= time
    requires OthersServed(all, all', command.timer, switched, end)
    requires switched != [] ==> end <= time
    requires forall x :: x in switched && x in all ==> all[x].timer.active
    ensures AllTrack(all', PlannedAll(plans, command, sent, time), time) && AllBegun(all', time)
    ensures command.Start? ==>
              Exact(all'[command.timer], PlannedAll(plans, command, sent, time)[command.timer], time)
  {
    hide Tracks, Exact, CaughtUp, At, Due;
    var t := command.timer;
    forall x | x in all'
      ensures all'[x].timer.active ==> At(all'[x], all'[x].expiries) <= time
      ensures Tracks(all'[x], PlannedAll(plans, command, sent, time)[x], time)
    {
      if x == t {
        CommandTracks(command, sent, time, all[t], all'[t], plans[t], last);
        if all'[t].timer.active {
          CommandedBegun(command, sent, time, all[t], all'[t]);
        }
      } else if x in switched {
        ServedTracks(all[x], all'[x], plans[x], last, end, time);
        if all'[x].timer.active {
          ServedBegun(all[x], all'[x], end);
        }
      } else {
        TracksLater(all[x], plans[x], last, time);
      }
    }
    if command.Start? {
      StartExact(sent, time, all[t], all'[t], plans[t], last);
    }
  }

  // ----- the rounds of prvTimerTask

  /** A command with the time it was sent and the time it is processed. */
  datatype Message = Message(command: Command, sent: nat, time: nat)

  /** The daemon looks at its lists at `time`, and then empties its command queue. */
  datatype Round = Round(time: nat, messages: seq<Message>)

  function PlansBy(plans: map<Id, Plan>, ms: seq<Message>): map<Id, Plan>
    decreases |ms|
  {
    if ms == [] then plans else PlansBy(PlannedAll(plans, ms[0].command, ms[0].sent, ms[0].time), ms[1..])
  }

  function TimeAfter(last: nat, ms: seq<Message>): nat
    decreases |ms|
  {
    if ms == [] then last else TimeAfter(ms[0].time, ms[1..])
  }

  /** Commands name timers that exist, and less than a tick period passes between two samples of
      the time, and between the sending and the processing of a start. */
  predicate MessagesOk(plans: map<Id, Plan>, last: nat, ms: seq<Message>)
    decreases |ms|
  {
    ms == [] ||
    var m := ms[0];
    && m.command.timer in plans && last <= m.time < last + MODULUS
    && (m.command.ChangePeriod? ==> 0 < m.command.period < MODULUS)
    && (m.command.Start? ==> m.sent <= m.time < m.sent + MODULUS)
    && MessagesOk(PlannedAll(plans, m.command, m.sent, m.time), m.time, ms[1..])
  }

  lemma NoMessages(plans: map<Id, Plan>, last: nat)
    ensures PlansBy(plans, []) == plans && TimeAfter(last, []) == last
  {
  }

  predicate RoundsOk(plans: map<Id, Plan>, last: nat, rs: seq<Round>)
    decreases |rs|
  {
    rs == [] ||
    var r := rs[0];
    && last <= r.time < last + MODULUS && MessagesOk(plans, r.time, r.messages)
    && RoundsOk(PlansBy(plans, r.messages), TimeAfter(r.time, r.messages), rs[1..])
  }

  function PlansAfter(plans: map<Id, Plan>, rs: seq<Round>): map<Id, Plan>
    decreases |rs|
  {
    if rs == [] then plans else PlansAfter(PlansBy(plans, rs[0].messages), rs[1..])
  }

  datatype Outcome = ListsSwitched | TimerServed(t: Id) | Blocks(ticks: nat, indefinitely: bool)

  /** If the head of the current list is not due then no timer is, and the wrapped distance to
      the head, or to the next tick period, does not pass any expiry. */
  lemma NoneDueYet(all: map<Id, Served>, current: seq<Id>, overflow: seq<Id>, time: nat, next: nat)
    requires Good(all, current, Epoch(time)) && Good(all, overflow, Epoch(time) + 1)
    requires next == if current == [] then 0 else all[current[0]].timer.value
    requires current != [] ==> next > Wrap(time)
    ensures forall t :: t in current || t in overflow ==>
              time < Due(all[t]) && time + Wrap(next - Wrap(time)) <= Due(all[t])
    ensures current != [] ==> current[0] in all && time + Wrap(next - Wrap(time)) == Due(all[current[0]])
  {
    EpochSplit(time);
    hide Epoch;
    forall t | t in current
      ensures Due(all[t]) == Periods(Epoch(time)) + all[t].timer.value && next <= all[t].timer.value <= MAX_DELAY
    {
      GoodTail(all, current, Epoch(time));
      assert ValueFits(all[t], Epoch(time));
    }
    forall t | t in overflow
      ensures Due(all[t]) == Periods(Epoch(time) + 1) + all[t].timer.value
    {
      assert ValueFits(all[t], Epoch(time) + 1);
    }
    assert current != [] ==> current[0] in current;
    hide Good, Values, Due, At;
    WrappedGap(next, Wrap(time));
  }

  lemma WrappedGap(next: nat, now: nat)
    requires IsWord(now) && (next > now || next == 0) && IsWord(next)
    ensures Wrap(next - now) == if next > now then next - now else if now == 0 then 0 else MODULUS - now
  {
  }

  lemma FirstDue(b: Served)
    requires b.expiries == 0
    ensures At(b, 0) == b.origin && Due(b) == b.origin + b.timer.period
    ensures Due(b) < b.origin + MODULUS + b.timer.period
  {
  }

  /** The item value, overwritten on reload, does not matter to catching up. */
  lemma CaughtUpFrom(b: Served, b': Served, time: nat, value: nat)
    requires CaughtUp(b.(timer := b.timer.(value := value)), b', time)
    ensures CaughtUp(b, b', time)
  {
  }

  class TimerDaemon {
    var all: map<Id, Served>
    var current: seq<Id>
    var overflow: seq<Id>
    var lastTime: nat
    /** The unbounded time of the last sample. */
    ghost var last: nat
    ghost var plans: map<Id, Plan>

    /** All but the bookkeeping of the timers in `off` is in order. */
    ghost predicate Lists(off: set<Id>)
      reads `all, `current, `overflow, `last
    {
      && PeriodsOk(all) && Apart(current, overflow) && ActiveOk(all, current, overflow, off)
      && Good(all, current, Epoch(last)) && Good(all, overflow, Epoch(last) + 1)
    }

    ghost predicate Valid()
      reads this
    {
      Lists({}) && lastTime == Wrap(last) && AllBegun(all, last) && AllTrack(all, plans, last)
    }

    predicate Listed(t: Id)
      reads `current, `overflow
    {
      t in current || t in overflow
    }

    constructor ()
      ensures Valid() && all == map[] && last == 0
    {
      all, current, overflow, lastTime, last, plans := map[], [], [], 0, 0, map[];
    }

    method LinkCurrent(t: Id, ghost off: set<Id>)
      requires Lists(off) && t in off && t in all && !Listed(t) && ValueFits(all[t], Epoch(last))
      modifies `current
      ensures Lists(off) && t in current
      ensures forall x :: x in current <==> x == t || x in old(current)
    {
      hide Good, Values, SortedPos, ValueFits;
      GoodInsert(all, current, Epoch(last), t);
      current := InsertIn(current, t, SortedPos(Values(all, current), all[t].timer.value));
    }

    method LinkOverflow(t: Id, ghost off: set<Id>)
      requires Lists(off) && t in off && t in all && !Listed(t) && ValueFits(all[t], Epoch(last) + 1)
      modifies `overflow
      ensures Lists(off) && t in overflow
      ensures forall x :: x in overflow <==> x == t || x in old(overflow)
    {
      hide Good, Values, SortedPos, ValueFits;
      GoodInsert(all, overflow, Epoch(last) + 1, t);
      overflow := InsertIn(overflow, t, SortedPos(Values(all, overflow), all[t].timer.value));
    }

    /** Updates of a timer that is on no list. */
    method Update(t: Id, b: Served, ghost off: set<Id>)
      requires Lists(off) && t in off && t in all && !Listed(t) && 0 < b.timer.period < MODULUS
      modifies `all
      ensures Lists(off) && all == old(all)[t := b]
    {
      hide Good, Settled;
      GoodFrame(all, all[t := b], current, Epoch(last));
      GoodFrame(all, all[t := b], overflow, Epoch(last) + 1);
      all := all[t := b];
    }

    /** prvInsertTimerInActiveList, `time` being the unbounded value of `now`: the timer is
        due, or is put on the list of the period its expiry lies in. */
    method InsertInActiveList(t: Id, next: nat, now: nat, command: nat, ghost time: nat,
        ghost off: set<Id>) returns (processNow: bool)
      requires Lists(off) && t in off && t in all && !Listed(t) && Epoch(time) == Epoch(last)
      requires At(all[t], all[t].expiries) <= time < At(all[t], all[t].expiries) + MODULUS
      requires next == Wrap(Due(all[t])) && now == Wrap(time) && command == Wrap(At(all[t], all[t].expiries))
      modifies `all, `current, `overflow
      ensures Lists(off) && processNow == (Due(old(all)[t]) <= time)
      ensures all == old(all)[t := old(all)[t].(timer := old(all)[t].timer.(value := next))]
      ensures Due(all[t]) == Due(old(all)[t]) && At(all[t], all[t].expiries) == At(old(all)[t], old(all)[t].expiries)
      ensures forall x :: Listed(x) <==> old(Listed(x)) || (x == t && !processNow)
      ensures !processNow ==> (t in current <==> Epoch(Due(old(all)[t])) == Epoch(time))
      ensures t !in current ==> current == old(current)
    {
      hide Lists, Wrap, Epoch, At, Due, ValueFits;
      PeriodOf(t, off);
      DecidedPlace(all[t], next, now, command, time);
      SameTimes(all[t], next);
      var b := all[t].(timer := all[t].timer.(value := next));
      Update(t, b, off);
      processNow := false;
      if next <= now {
        if Wrap(now - command) >= b.timer.period {
          processNow := true;
        } else {
          LinkOverflow(t, off);
        }
      } else if now < command && next >= command {
        processNow := true;
      } else {
        LinkCurrent(t, off);
      }
    }

    lemma PeriodsKnown()
      requires Lists({})
      ensures PeriodsOk(all)
    {
    }

    lemma PeriodOf(t: Id, off: set<Id>)
      requires Lists(off) && t in all
      ensures 0 < all[t].timer.period < MODULUS
    {
    }

    /** Runs the callback for the first expiry that has not had one; that expiry has passed. */
    method Callback(t: Id, ghost time: nat, ghost off: set<Id>)
      requires Lists(off + {t}) && t in all && all[t].calls < all[t].expiries && At(all[t], all[t].expiries) <= time
      modifies `all
      ensures all == old(all)[t := old(all)[t].(calls := old(all)[t].calls + 1)]
      ensures At(old(all)[t], all[t].calls) <= time
      ensures Lists(off + {t}) && (Settled(all[t], Listed(t)) ==> Lists(off))
    {
      AtGrows(all[t], all[t].calls + 1, all[t].expiries);
      hide Values, At, Due;
      CalledGood(all, current, Epoch(last), t);
      CalledGood(all, overflow, Epoch(last) + 1, t);
      all := all[t := all[t].(calls := all[t].calls + 1)];
    }

    /** prvReloadTimer: accounts for every expiry by `time`, running a callback for each but
        the one that the caller still has to run, and lists the timer for the first later one. */
    method ReloadTimer(t: Id, expired: nat, now: nat, ghost time: nat, ghost off: set<Id>)
      requires Lists(off) && t in off && t in all && !Listed(t) && Epoch(time) == Epoch(last) && now == Wrap(time)
      requires At(all[t], all[t].expiries) <= time < At(all[t], all[t].expiries) + MODULUS
      requires expired == Wrap(At(all[t], all[t].expiries)) && all[t].calls < all[t].expiries
      modifies `all, `current, `overflow
      ensures Lists(off) && Listed(t) && (forall x :: x != t ==> Listed(x) == old(Listed(x)))
      ensures all == old(all)[t := all[t]] && Reloaded(old(all)[t], all[t], time)
      ensures t in current <==> Epoch(Due(all[t])) == Epoch(time)
      ensures t !in current ==> current == old(current)
    {
      hide Lists, Wrap, Epoch, At, Due;
      ghost var b := all[t];
      var expiredTime := expired;
      PeriodOf(t, off);
      NextDue(all[t]);
      var processNow := InsertInActiveList(t, Wrap(expiredTime + all[t].timer.period), now, expiredTime, time, off);
      while processNow
        invariant Lists(off) && t in all && all == old(all)[t := all[t]] && processNow == (Due(all[t]) <= time)
        invariant At(all[t], all[t].expiries) <= time < At(all[t], all[t].expiries) + MODULUS
        invariant expiredTime == Wrap(At(all[t], all[t].expiries))
        invariant b.expiries <= all[t].expiries
        invariant all[t] == b.(timer := b.timer.(value := all[t].timer.value), expiries := all[t].expiries,
                               calls := b.calls + (all[t].expiries - b.expiries))
        invariant forall x :: Listed(x) <==> old(Listed(x)) || (x == t && !processNow)
        invariant !processNow ==> (t in current <==> Epoch(Due(all[t])) == Epoch(time))
        invariant t !in current ==> current == old(current)
        decreases time - At(all[t], all[t].expiries)
      {
        PeriodOf(t, off);
        NextDue(all[t]);
        expiredTime := Wrap(expiredTime + all[t].timer.period);
        Update(t, all[t].(expiries := all[t].expiries + 1), off);
        assert off + {t} == off;
        Callback(t, time, off);
        NextDue(all[t]);
        processNow := InsertInActiveList(t, Wrap(expiredTime + all[t].timer.period), now, expiredTime, time, off);
      }
    }

    /** prvProcessExpiredTimer, called when the head of the current list is due. */
    method ProcessExpiredTimer(nextExpire: nat, now: nat, ghost time: nat, ghost off: set<Id>) returns (t: Id)
      requires Lists(off) && current != [] && current[0] in all && current[0] !in off && Epoch(time) == Epoch(last)
               && now == Wrap(time)
      requires nextExpire == all[current[0]].timer.value <= now
      modifies `all, `current, `overflow
      ensures Lists(off) && t == old(current)[0] && t in all && all == old(all)[t := all[t]]
      ensures CaughtUp(old(all)[t], all[t], time)
      ensures forall x :: x != t ==> Listed(x) == old(Listed(x))
      ensures t in current <==> all[t].timer.autoReload && Epoch(Due(all[t])) == Epoch(time)
      ensures t !in current ==> current == old(current)[1..]
    {
      hide Good, Wrap, Epoch, At, Due, Settled, CaughtUp, Reloaded;
      t := current[0];
      ghost var b := all[t];
      HeadDue(all, current, Epoch(last), time);
      GoodTail(all, current, Epoch(last));
      Head(current);
      current := current[1..];
      SettledFacts(b, true);
      ServeExpired(t, nextExpire, now, time, off);
    }

    /** Serves a timer whose expiry has passed: reload or stop, then the callback. */
    method ServeExpired(t: Id, expired: nat, now: nat, ghost time: nat, ghost off: set<Id>)
      requires Lists(off + {t}) && t in all && !Listed(t) && Epoch(time) == Epoch(last) && now == Wrap(time)
      requires all[t].timer.active && all[t].calls == all[t].expiries
      requires Due(all[t]) <= time < Due(all[t]) + MODULUS && expired == Wrap(Due(all[t]))
      modifies `all, `current, `overflow
      ensures Lists(off) && t in all && all == old(all)[t := all[t]] && CaughtUp(old(all)[t], all[t], time)
      ensures forall x :: x != t ==> Listed(x) == old(Listed(x))
      ensures t in current <==> all[t].timer.autoReload && Epoch(Due(all[t])) == Epoch(time)
      ensures t !in current ==> current == old(current)
    {
      hide Good, Wrap, Epoch, At, Due, Settled, CaughtUp, Reloaded;
      ghost var b := all[t];
      NextDue(b);
      PeriodOf(t, off + {t});
      Update(t, all[t].(expiries := all[t].expiries + 1), off + {t});
      if all[t].timer.autoReload {
        ReloadTimer(t, expired, now, time, off + {t});
      } else {
        Update(t, all[t].(timer := all[t].timer.(active := false)), off + {t});
      }
      assert forall x :: x != t ==> Listed(x) == old(Listed(x));
      ServedOnce(b, all[t], time);
      Callback(t, time, off);
    }

    /** prvSwitchTimerLists: the loop ends with the current list empty, every timer that was on
        it served up to the end of the tick period, and the overflow list becomes current. */
    method SwitchTimerLists(ghost end: nat, ghost off: set<Id>)
      requires Lists(off) && (forall t :: t in off ==> !Listed(t)) && end == Periods(Epoch(last)) + MAX_DELAY
      modifies `all, `current, `overflow
      ensures Good(all, current, Epoch(last) + 1) && overflow == []
      ensures PeriodsOk(all) && ActiveOk(all, current, overflow, off)
      ensures ServedAll(old(all), all, old(current), end) && forall t :: t in off ==> !Listed(t)
      ensures old(current) == [] ==> current == old(overflow)
    {
      hide Good, Settled, CaughtUp, Values, At, Due;
      EpochUnique(end, Epoch(last), MAX_DELAY);
      hide Wrap, Epoch;
      ghost var done: set<Id> := {};
      while current != []
        invariant Lists(off) && forall t :: t in off ==> !Listed(t)
        invariant forall t :: t in old(current) <==> t in done || t in current
        invariant done !! set t | t in current
        invariant all.Keys == old(all).Keys
        invariant old(current) == [] ==> current == [] && overflow == old(overflow)
        invariant forall t :: t in all ==> if t in done then CaughtUp(old(all)[t], all[t], end)
                  else all[t] == old(all)[t]
        decreases |current|
      {
        HeadLive(all, current, Epoch(last), end);
        GoodTail(all, current, Epoch(last));
        Head(current);
        ghost var before := all;
        var t := ProcessExpiredTimer(all[current[0]].timer.value, MAX_DELAY, end, off);
        CaughtUpLater(before[t], all[t], end);
        done := done + {t};
      }
      current, overflow := overflow, current;
    }

    /** prvSampleTimeNow at the unbounded time `time` */
    method SampleTimeNow(time: nat, ghost off: set<Id>) returns (now: nat, switched: bool)
      requires Lists(off) && lastTime == Wrap(last) && (forall t :: t in off ==> !Listed(t)) && last <= time
      requires time - last < MODULUS || (current == [] && overflow == [])
      modifies `all, `current, `overflow, `lastTime, `last
      ensures Lists(off) && lastTime == Wrap(last) && last == time && now == Wrap(time)
      ensures switched == (now < old(lastTime)) && forall t :: t in off ==> !Listed(t)
      ensures if switched then ServedAll(old(all), all, old(current), Periods(Epoch(old(last))) + MAX_DELAY)
              else all == old(all) && current == old(current) && overflow == old(overflow)
    {
      hide Settled, Values, At, Due, CaughtUp;
      SampleExact(last, time);
      hide Epoch, Wrap;
      now := Wrap(time);
      switched := now < lastTime;
      if switched {
        SwitchTimerLists(Periods(Epoch(last)) + MAX_DELAY, off);
      }
      if current == [] {
        GoodEmpty(all, Epoch(time));
      }
      GoodEmpty(all, Epoch(time) + 1);
      lastTime := now;
      last := time;
    }

    /** prvGetNextExpireTime and prvProcessTimerOrBlockTask. The daemon blocks only when no
        timer is due, never beyond the earliest expiry, and indefinitely only when no timer is
        active; and then every timer has run exactly the callbacks it was asked for by now. */
    method ProcessTimerOrBlock(time: nat) returns (outcome: Outcome)
      requires Valid() && last <= time
      requires time - last < MODULUS || (current == [] && overflow == [])
      modifies this
      ensures Valid() && last == time && plans == old(plans)
      ensures outcome.Blocks? ==> forall t :: t in all ==> Exact(all[t], plans[t], time)
      ensures match outcome
              case ListsSwitched => ServedAll(old(all), all, old(current), Periods(Epoch(old(last))) + MAX_DELAY)
              case TimerServed(t) => ServedAll(old(all), all, [t], time) && t in old(all) && Due(old(all)[t]) <= time
              case Blocks(ticks, indefinitely) =>
                && all == old(all) && (indefinitely <==> forall t :: t in all ==> !all[t].timer.active)
                && (!indefinitely ==> 1 <= ticks < MODULUS)
                && (forall t :: t in all && all[t].timer.active ==> time < Due(all[t]) && time + ticks <= Due(all[t]))
                && (current != [] ==> exists t :: t in all && all[t].timer.active && time + ticks == Due(all[t]))
    {
      hide Good, Settled, Values, At, Due, CaughtUp, AllTrack, AllBegun, Exact, Epoch, Wrap, PeriodsOk, Apart;
      ActiveListed();
      var wasEmpty := current == [];
      var nextExpire := if wasEmpty then 0 else all[current[0]].timer.value;
      var now, switched := SampleTimeNow(time, {});
      if switched {
        EndPassed(old(last), time);
        AllServedBegun(old(all), all, old(current), old(last), Periods(Epoch(old(last))) + MAX_DELAY, time);
        AllServedTrack(old(all), all, plans, old(current), old(last), Periods(Epoch(old(last))) + MAX_DELAY, time);
        outcome := ListsSwitched;
      } else if !wasEmpty && nextExpire <= now {
        HeadDue(all, current, Epoch(last), time);
        var t := ProcessExpiredTimer(nextExpire, now, time, {});
        AllServedBegun(old(all), all, [t], old(last), time, time);
        AllServedTrack(old(all), all, plans, [t], old(last), time, time);
        outcome := TimerServed(t);
      } else {
        BegunLater(all, old(last), time);
        AllTrackLater(all, plans, old(last), time);
        NoneDueYet(all, current, overflow, time, nextExpire);
        ActiveListed();
        HeadWord(all, current, Epoch(last));
        Awaits(nextExpire, now);
        AllExact();
        outcome := Blocks(Wrap(nextExpire - now), wasEmpty && overflow == []);
      }
    }

    lemma AllExact()
      requires Lists({}) && AllBegun(all, last) && AllTrack(all, plans, last)
      requires forall t :: t in all && all[t].timer.active ==> last < Due(all[t])
      ensures forall t :: t in all ==> Exact(all[t], plans[t], last)
    {
      hide Good, Settled, Values, At, Due, Exact, Tracks;
      forall t | t in all
        ensures Exact(all[t], plans[t], last)
      {
        PeriodOf(t, {});
        TracksExact(all[t], plans[t], last);
      }
    }

    /** The daemon asks for no zero delay. */
    lemma Awaits(next: nat, now: nat)
      requires Lists({}) && AllBegun(all, last) && now == Wrap(last)
      requires if current == [] then next == 0 else now < next < MODULUS
      ensures current != [] || overflow != [] ==> 1 <= Wrap(next - now) < MODULUS
    {
      hide Good, Settled, Values, At, Due, Epoch;
      ActiveListed();
      if current == [] && now == 0 {
        NoneAtWrap(all, overflow, last);
      }
      WrappedGap(next, now);
    }

    lemma ActiveListed()
      requires Lists({})
      ensures forall t :: t in all ==> (all[t].timer.active <==> Listed(t))
      ensures forall t :: Listed(t) ==> t in all
      ensures current != [] ==> Listed(current[0])
      ensures overflow != [] ==> Listed(overflow[0])
    {
    }

    /** xTimerCreate */
    method Create(t: Id, period: nat, autoReload: bool)
      requires Valid() && t !in all && 0 < period < MODULUS
      modifies `all, `plans
      ensures Valid() && plans == old(plans)[t := Plan(false, 0, period, autoReload)]
              && all == old(all)[t := Served(Timer(period, autoReload, false, 0), 0, 0, 0)]
    {
      hide Good, Values, At;
      ActiveListed();
      var b := Served(Timer(period, autoReload, false, 0), 0, 0, 0);
      GoodFrame(all, all[t := b], current, Epoch(last));
      GoodFrame(all, all[t := b], overflow, Epoch(last) + 1);
      all := all[t := b];
      plans := plans[t := Plan(false, 0, period, autoReload)];
    }

    /** uxListRemove, if the timer is on a list */
    method Unlist(t: Id)
      requires Lists({})
      modifies `current, `overflow
      ensures Lists({t}) && !Listed(t)
      ensures forall x :: x in current <==> x != t && x in old(current)
      ensures old(current) == [] && old(overflow) == [] ==> current == [] && overflow == []
    {
      hide Good, Settled, Values;
      GoodWithout(all, current, Epoch(last), t);
      GoodWithout(all, overflow, Epoch(last) + 1, t);
      current := Without(current, t);
      overflow := Without(overflow, t);
    }

    /** One round of prvProcessReceivedCommands, at the unbounded time `time`; a start command
        was issued at `sent`. */
    method ProcessCommand(command: Command, sent: nat, time: nat)
      requires Valid() && command.timer in all && last <= time
      requires time - last < MODULUS || (current == [] && overflow == [])
      requires command.ChangePeriod? ==> 0 < command.period < MODULUS
      requires command.Start? ==> sent <= time < sent + MODULUS
      modifies this
      ensures Valid() && last == time && plans == PlannedAll(old(plans), command, sent, time)
      ensures command.Delete? <==> command.timer !in all
      ensures command.Start? ==>
                var b := all[command.timer];
                && Exact(b, plans[command.timer], time)
                && (b.timer.active ==> (command.timer in current <==> Epoch(Due(b)) == Epoch(time)))
      ensures Commanded(command, sent, time, old(all)[command.timer],
                        if command.timer in all then all[command.timer] else old(all)[command.timer])
      ensures OthersServed(old(all), all, command.timer, if Wrap(time) < old(lastTime) then old(current) else [],
                           Periods(Epoch(old(last))) + MAX_DELAY)
    {
      hide Lists, Values, At, Due, CaughtUp, Commanded, Tracks, Exact, AllBegun, AllTrack, OthersServed, Epoch, Wrap;
      var t := command.timer;
      ActiveListed();
      PeriodsKnown();
      PlansKnown(all, plans, last);
      HandleCommand(command, sent, time);
      plans := PlannedAll(plans, command, sent, time);
      if Wrap(time) < old(lastTime) {
        EndPassed(old(last), time);
      }
      AllCommanded(old(all), all, old(plans), command, sent, old(last), time,
                   if Wrap(time) < old(lastTime) then old(current) else [], Periods(Epoch(old(last))) + MAX_DELAY);
      if command.Start? && all[t].timer.active {
        ListedByPeriod(t);
      }
    }

    method HandleCommand(command: Command, sent: nat, time: nat)
      requires Lists({}) && lastTime == Wrap(last) && command.timer in all && last <= time
      requires time - last < MODULUS || (current == [] && overflow == [])
      requires command.ChangePeriod? ==> 0 < command.period < MODULUS
      requires command.Start? ==> sent <= time < sent + MODULUS
      modifies `all, `current, `overflow, `lastTime, `last
      ensures Lists({}) && last == time && lastTime == Wrap(time)
      ensures all.Keys == if command.Delete? then old(all).Keys - {command.timer} else old(all).Keys
      ensures Commanded(command, sent, time, old(all)[command.timer],
                        if command.timer in all then all[command.timer] else old(all)[command.timer])
      ensures OthersServed(old(all), all, command.timer, if Wrap(time) < old(lastTime) then old(current) else [],
                           Periods(Epoch(old(last))) + MAX_DELAY)
    {
      hide Good, Settled, Values, At, Due, CaughtUp, Reloaded, Commanded;
      var t := command.timer;
      CallsDone(t);
      Unlist(t);
      var now, switched := SampleTimeNow(time, {t});
      ghost var all1 := all;
      Execute(command, sent, now, time);
      assert forall x :: x in all1 && x != t ==> x in all1 - {t};
      assert forall x :: x in all && x != t ==> x in all - {t};
    }

    /** prvProcessReceivedCommands */
    method ReceiveCommands(ms: seq<Message>)
      requires Valid() && MessagesOk(plans, last, ms)
      modifies this
      ensures Valid() && plans == PlansBy(old(plans), ms) && last == TimeAfter(old(last), ms)
      ensures ms == [] ==> unchanged(this)
    {
      hide Valid, PlannedAll, Commanded, OthersServed, Exact, Due, Epoch;
      var i := 0;
      while i < |ms|
        invariant 0 <= i <= |ms| && Valid() && (i == 0 ==> unchanged(this)) && MessagesOk(plans, last, ms[i..])
        invariant PlansBy(plans, ms[i..]) == PlansBy(old(plans), ms)
                  && TimeAfter(last, ms[i..]) == TimeAfter(old(last), ms)
      {
        assert ms[i..][0] == ms[i] && ms[i..][1..] == ms[i + 1..];
        ValidPlans();
        ProcessCommand(ms[i].command, ms[i].sent, ms[i].time);
        i := i + 1;
      }
    }

    lemma ValidPlans()
      requires Valid()
      ensures plans.Keys == all.Keys
    {
    }

    /** Rounds of prvTimerTask. In every sequence of them, with any commands in between: when the
        daemon blocks, each timer has run exactly the callbacks that the commands so far ask for
        by that time, and its next expiry is the first one later. */
    method Serve(rounds: seq<Round>) returns (idle: bool)
      requires Valid() && RoundsOk(plans, last, rounds)
      modifies this
      ensures Valid() && plans == PlansAfter(old(plans), rounds)
      ensures idle ==> rounds != [] && last == rounds[|rounds| - 1].time && forall t :: t in all ==>
              Exact(all[t], plans[t], last)
      ensures idle ==> forall t :: t in all && all[t].timer.active ==>
              (t in current <==> Epoch(Due(all[t])) == Epoch(last))
    {
      hide Lists, AllBegun, AllTrack, Exact, Due, At, Epoch, Wrap, ServedAll, MessagesOk, PlansBy, TimeAfter;
      idle := false;
      var i := 0;
      while i < |rounds|
        invariant 0 <= i <= |rounds| && Valid() && RoundsOk(plans, last, rounds[i..])
        invariant PlansAfter(plans, rounds[i..]) == PlansAfter(old(plans), rounds)
        invariant idle ==> i > 0 && last == rounds[i - 1].time && plans.Keys == all.Keys
        invariant idle ==> forall t :: t in all ==> Exact(all[t], plans[t], last)
      {
        assert rounds[i..][0] == rounds[i] && rounds[i..][1..] == rounds[i + 1..];
        var outcome := ProcessTimerOrBlock(rounds[i].time);
        idle := outcome.Blocks? && rounds[i].messages == [];
        ValidPlans();
        NoMessages(plans, last);
        ReceiveCommands(rounds[i].messages);
        i := i + 1;
      }
      ListedAll();
    }

    lemma ListedAll()
      requires Valid()
      ensures forall t :: t in all && all[t].timer.active ==> (t in current <==> Epoch(Due(all[t])) == Epoch(last))
    {
      hide Valid;
      forall t | t in all && all[t].timer.active
        ensures t in current <==> Epoch(Due(all[t])) == Epoch(last)
      {
        ListedByPeriod(t);
      }
    }

    /** The switch statement of prvProcessReceivedCommands. */
    method Execute(command: Command, sent: nat, now: nat, time: nat)
      requires Lists({command.timer}) && command.timer in all && !Listed(command.timer) && last == time
               && now == Wrap(time)
      requires all[command.timer].calls == all[command.timer].expiries
      requires command.ChangePeriod? ==> 0 < command.period < MODULUS
      requires command.Start? ==> sent <= time < sent + MODULUS
      modifies `all, `current, `overflow
      ensures Lists({}) && (command.Delete? <==> command.timer !in all)
      ensures all - {command.timer} == old(all) - {command.timer}
      ensures Commanded(command, sent, time, old(all)[command.timer], if command.timer in all then all[command.timer]
              else old(all)[command.timer])
    {
      hide Good, Settled, Values, At, Due, CaughtUp, Reloaded;
      var t := command.timer;
      match command {
        case Start(_) =>
          Update(t, Served(all[t].timer.(active := true), sent, 0, 0), {t});
          StartTimer(t, sent, now, time);
        case Stop(_) =>
          Update(t, all[t].(timer := all[t].timer.(active := false)), {t});
          SettleAll(t);
        case ChangePeriod(_, period) =>
          Update(t, Served(all[t].timer.(active := true, period := period), time, 0, 0), {t});
          FirstDue(all[t]);
          var late := InsertInActiveList(t, Wrap(now + period), now, now, time, {t});
          SettleAll(t);
        case Delete(_) =>
          Forget(t);
      }
    }

    /** An active timer is on the current list exactly when it is due in the tick period of the
        last sample, and otherwise on the overflow list and due in the next one. */
    lemma ListedByPeriod(t: Id)
      requires Valid() && t in all && all[t].timer.active
      ensures t in current <==> Epoch(Due(all[t])) == Epoch(last)
      ensures t in overflow <==> Epoch(Due(all[t])) == Epoch(last) + 1
    {
      hide Values, Wrap, Due;
      if t in current {
        EpochUnique(Due(all[t]), Epoch(last), all[t].timer.value);
      } else {
        EpochUnique(Due(all[t]), Epoch(last) + 1, all[t].timer.value);
      }
      hide Epoch;
    }

    lemma CallsDone(t: Id)
      requires Lists({}) && t in all
      ensures all[t].calls == all[t].expiries
    {
    }

    lemma SettleAll(t: Id)
      requires Lists({t}) && t in all && all[t].timer.active == Listed(t) && all[t].calls == all[t].expiries
      ensures Lists({})
    {
    }

    method Forget(t: Id)
      requires Lists({t}) && !Listed(t)
      modifies `all
      ensures Lists({}) && all == old(all) - {t}
    {
      hide Good;
      GoodFrame(all, all - {t}, current, Epoch(last));
      GoodFrame(all, all - {t}, overflow, Epoch(last) + 1);
      all := all - {t};
    }

    method StartTimer(t: Id, sent: nat, now: nat, ghost time: nat)
      requires Lists({t}) && t in all && !Listed(t) && last == time && now == Wrap(time)
      requires sent <= time < sent + MODULUS
      requires all[t] == Served(all[t].timer, sent, 0, 0) && all[t].timer.active
      modifies `all, `current, `overflow
      ensures Lists({}) && t in all && all == old(all)[t := all[t]]
      ensures if Due(old(all)[t]) <= time then CaughtUp(old(all)[t], all[t], time)
              else all[t] == old(all)[t].(timer := old(all)[t].timer.(value := all[t].timer.value))
    {
      hide Good, Wrap, Epoch, At, Due, CaughtUp, Values;
      ghost var b := all[t];
      FirstDue(b);
      PeriodOf(t, {t});
      SettleOff(t);
      var late := InsertInActiveList(t, Wrap(sent + all[t].timer.period), now, Wrap(sent), time, {t});
      if late {
        ServeExpired(t, Wrap(sent + all[t].timer.period), now, time, {});
        CaughtUpFrom(b, all[t], time, Wrap(sent + b.timer.period));
      } else {
        SettleAll(t);
      }
    }

    lemma SettleOff(t: Id)
      requires Lists({t})
      ensures Lists({} + {t})
    {
    }
  }
}
