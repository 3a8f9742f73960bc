/**
 Expiration notices and their throttling.  Times are in nanoseconds.  A check
 reads the clock three times: when it starts, when it compares with the last
 notice, and after the notice has been delivered.
 */
module Expiration {
  import opened Basics
  import opened License

  const DAY := 86_400_000_000_000

  /** What is announced, and what the throttle is keyed by. */
  datatype Kind = ExpiredNotice | Expiring(threshold: int)

  datatype Throttle = Throttle(notified: map<int, int>, expiredAt: Option<int>)

  const UNUSED := Throttle(map[], None)

  datatype Event =
    | Check(edition: Edition, expiresAt: Option<int>, start: int, compare: int, done: int, delivered: bool)
    | Reset

  /** A recorded delivery: the notice went out between `compare` and `done`. */
  datatype Sent = Sent(kind: Kind, compare: int, done: int)

  /** Days left, rounded up. */
  function DaysRemaining(expiresAt: int, now: int): (days: int)
    ensures (days - 1) * DAY < expiresAt - now <= days * DAY
  {
    (expiresAt - now + DAY - 1) / DAY
  }

  /** The position of the first threshold that `days` does not exceed. */
  function FirstIndex(ts: seq<int>, days: int, from: nat): (i: nat)
    requires from <= |ts|
    ensures from <= i <= |ts|
    ensures forall k :: from <= k < i ==> ts[k] < days
    ensures i < |ts| ==> days <= ts[i]
    decreases |ts| - from
  {
    if from == |ts| || days <= ts[from] then from else FirstIndex(ts, days, from + 1)
  }

  function FirstMatch(ts: seq<int>, days: int): Option<int> {
    var i := FirstIndex(ts, days, 0);
    if i < |ts| then Some(ts[i]) else None
  }

  function Select(ts: seq<int>, e: Event): Option<Kind>
    requires e.Check?
  {
    if e.edition == CE || e.expiresAt.None? then None
    else if e.start > e.expiresAt.value then Some(ExpiredNotice)
    else
      var m := FirstMatch(ts, DaysRemaining(e.expiresAt.value, e.start));
      if m.Some? then Some(Expiring(m.value)) else None
  }

  function Last(c: Throttle, kind: Kind): Option<int> {
    match kind
    case ExpiredNotice => c.expiredAt
    case Expiring(t) => if t in c.notified then Some(c.notified[t]) else None
  }

  function Record(c: Throttle, kind: Kind, at: int): Throttle {
    match kind
    case ExpiredNotice => c.(expiredAt := Some(at))
    case Expiring(t) => c.(notified := c.notified[t := at])
  }

  /** The delivery an event records, if any. */
  function Delivery(ts: seq<int>, c: Throttle, e: Event): Option<Sent> {
    if e.Reset? then None
    else
      var kind := Select(ts, e);
      if kind.None? then None
      else
        var last := Last(c, kind.value);
        if last.Some? && e.compare - last.value < DAY then None
        else if !e.delivered then None
        else Some(Sent(kind.value, e.compare, e.done))
  }

  function Apply(ts: seq<int>, c: Throttle, e: Event): Throttle {
    if e.Reset? then UNUSED
    else
      var d := Delivery(ts, c, e);
      if d.Some? then Record(c, d.value.kind, d.value.done) else c
  }

  function Run(ts: seq<int>, es: seq<Event>): Throttle {
    if es == [] then UNUSED else Apply(ts, Run(ts, es[..|es| - 1]), es[|es| - 1])
  }

  /** The deliveries recorded since the last reset. */
  function Log(ts: seq<int>, es: seq<Event>): seq<Sent> {
    if es == [] then []
    else
      var init := es[..|es| - 1];
      var e := es[|es| - 1];
      if e.Reset? then []
      else
        var d := Delivery(ts, Run(ts, init), e);
        if d.Some? then Log(ts, init) + [d.value] else Log(ts, init)
  }

  /** Events stand in the order in which they take the lock, so one check has
      recorded its delivery before the next one compares.  Checks may overlap:
      nothing is said about when they start. */
  ghost predicate Monotone(es: seq<Event>) {
    && (forall i :: 0 <= i < |es| && es[i].Check? ==> es[i].compare <= es[i].done)
    && (forall i, j :: 0 <= i < j < |es| && es[i].Check? && es[j].Check? ==> es[i].done <= es[j].compare)
  }

  /** Deliveries of one kind lie at least a day apart. */
  ghost predicate Spaced(log: seq<Sent>) {
    forall i, j :: 0 <= i < j < |log| && log[i].kind == log[j].kind ==> log[j].compare - log[i].done >= DAY
  }

  /** The throttle holds the time of the latest delivery of each kind. */
  ghost predicate Remembers(c: Throttle, log: seq<Sent>) {
    && (forall i :: 0 <= i < |log| ==> Last(c, log[i].kind).Some? && log[i].done <= Last(c, log[i].kind).value)
    && (forall i :: 0 <= i < |log| ==> log[i].compare <= log[i].done)
  }

  /** Every recorded delivery was over by the time `now`. */
  ghost predicate Before(log: seq<Sent>, now: int) {
    forall i :: 0 <= i < |log| ==> log[i].done <= now
  }

  lemma LoggedStep(ts: seq<int>, c: Throttle, log: seq<Sent>, e: Event)
    requires e.Check? && e.compare <= e.done
    requires Spaced(log) && Remembers(c, log) && Before(log, e.compare)
    ensures var d := Delivery(ts, c, e);
            var log' := if d.Some? then log + [d.value] else log;
            Spaced(log') && Remembers(Apply(ts, c, e), log') && Before(log', e.done)
  {
  }

  lemma {:induction false} LogIsPast(ts: seq<int>, es: seq<Event>, now: int)
    requires forall i :: 0 <= i < |es| && es[i].Check? ==> es[i].done <= now
    ensures Before(Log(ts, es), now)
  {
    if es != [] {
      var n := |es| - 1;
      LogIsPast(ts, es[..n], now);
      assert es[n].Check? ==> es[n].done <= now;
    }
  }

  /** Over every run, whatever deliveries fail: between resets the recorded
      deliveries of one kind are at least a day apart. */
  lemma {:induction false} NoticesSpaced(ts: seq<int>, es: seq<Event>)
    requires Monotone(es)
    ensures Spaced(Log(ts, es)) && Remembers(Run(ts, es), Log(ts, es))
  {
    if es != [] {
      var n := |es| - 1;
      NoticesSpaced(ts, es[..n]);
      if es[n].Check? {
        LogIsPast(ts, es[..n], es[n].compare);
        LoggedStep(ts, Run(ts, es[..n]), Log(ts, es[..n]), es[n]);
      }
    }
  }

  /** The run without the checks whose delivery failed. */
  function WithoutFailures(es: seq<Event>): seq<Event> {
    if es == [] then []
    else
      var init := WithoutFailures(es[..|es| - 1]);
      var e := es[|es| - 1];
      if e.Check? && !e.delivered then init else init + [e]
  }

  /** Checks whose delivery fails can be erased from any run: neither the throttle
      nor the deliveries that are recorded change. */
  lemma {:induction false} FailuresAreErasable(ts: seq<int>, es: seq<Event>)
    ensures Run(ts, WithoutFailures(es)) == Run(ts, es)
    ensures Log(ts, WithoutFailures(es)) == Log(ts, es)
  {
    if es != [] {
      var n := |es| - 1;
      FailuresAreErasable(ts, es[..n]);
      var init := WithoutFailures(es[..n]);
      assert (init + [es[n]])[..|init|] == init;
    }
  }

  // ------------------------------------------------------------------------
  // What is announced, and that it is
  // ------------------------------------------------------------------------

  /** A check calls for a notice of the kind: the license is a paid one with an
      expiry that has passed, or that is at most that threshold's days away, the
      threshold being the first such of the list. */
  ghost predicate CallsFor(ts: seq<int>, e: Event, kind: Kind) {
    && e.Check? && e.edition != CE && e.expiresAt.Some?
    && match kind
       case ExpiredNotice => e.expiresAt.value < e.start
       case Expiring(t) =>
         && e.start <= e.expiresAt.value
         && exists i :: 0 <= i < |ts| && ts[i] == t && FirstWithin(ts, e.expiresAt.value - e.start, i)
  }

  /** Position `i` is the first whose days cover the remaining time. */
  ghost predicate FirstWithin(ts: seq<int>, remaining: int, i: nat)
    requires i < |ts|
  {
    remaining <= ts[i] * DAY && forall k :: 0 <= k < i ==> ts[k] * DAY < remaining
  }

  lemma DaysWithin(expiresAt: int, now: int, t: int)
    ensures DaysRemaining(expiresAt, now) <= t <==> expiresAt - now <= t * DAY
  {
  }

  lemma FirstIndexWithin(ts: seq<int>, expiresAt: int, now: int, i: nat)
    requires i < |ts|
    ensures FirstWithin(ts, expiresAt - now, i) <==> i == FirstIndex(ts, DaysRemaining(expiresAt, now), 0)
  {
    var m := FirstIndex(ts, DaysRemaining(expiresAt, now), 0);
    forall k | 0 <= k < |ts|
      ensures DaysRemaining(expiresAt, now) <= ts[k] <==> expiresAt - now <= ts[k] * DAY
    {
      DaysWithin(expiresAt, now, ts[k]);
    }
    if FirstWithin(ts, expiresAt - now, i) {
      assert m <= i;
      assert i <= m;
    }
  }

  lemma SelectIff(ts: seq<int>, e: Event, kind: Kind)
    requires e.Check?
    ensures Select(ts, e) == Some(kind) <==> CallsFor(ts, e, kind)
  {
    if e.expiresAt.Some? && e.start <= e.expiresAt.value {
      var m := FirstIndex(ts, DaysRemaining(e.expiresAt.value, e.start), 0);
      var remaining := e.expiresAt.value - e.start;
      forall i | 0 <= i < |ts|
        ensures FirstWithin(ts, remaining, i) <==> i == m
      {
        FirstIndexWithin(ts, e.expiresAt.value, e.start, i);
      }
    }
  }

  /** Whatever the throttle remembers is a recorded delivery. */
  ghost predicate Traced(c: Throttle, log: seq<Sent>) {
    forall kind :: Last(c, kind).Some? ==>
      exists i :: 0 <= i < |log| && log[i].kind == kind && log[i].done == Last(c, kind).value
  }

  lemma TracedStep(ts: seq<int>, c: Throttle, log: seq<Sent>, e: Event)
    requires e.Check? && Traced(c, log)
    ensures var d := Delivery(ts, c, e);
            Traced(Apply(ts, c, e), if d.Some? then log + [d.value] else log)
  {
    var d := Delivery(ts, c, e);
    if d.Some? {
      var log' := log + [d.value];
      forall kind | Last(Apply(ts, c, e), kind).Some?
        ensures exists i :: 0 <= i < |log'| && log'[i].kind == kind && log'[i].done == Last(Apply(ts, c, e), kind).value
      {
        if kind == d.value.kind {
          assert log'[|log|] == d.value;
        } else {
          assert Last(c, kind) == Last(Apply(ts, c, e), kind);
          var i :| 0 <= i < |log| && log[i].kind == kind && log[i].done == Last(c, kind).value;
          assert log'[i] == log[i];
        }
      }
    }
  }

  lemma {:induction false} ThrottleIsTraced(ts: seq<int>, es: seq<Event>)
    ensures Traced(Run(ts, es), Log(ts, es))
  {
    if es != [] {
      var n := |es| - 1;
      ThrottleIsTraced(ts, es[..n]);
      if es[n].Check? {
        TracedStep(ts, Run(ts, es[..n]), Log(ts, es[..n]), es[n]);
      }
    }
  }

  /** After any run: a check that calls for a notice, and whose delivery does not
      fail, leaves one of that kind recorded that went out less than a day before or
      goes out now.  So an expired paid license is announced day by day. */
  lemma CalledForIsAnnounced(ts: seq<int>, es: seq<Event>, e: Event, kind: Kind)
    requires CallsFor(ts, e, kind) && e.delivered
    ensures exists i :: 0 <= i < |Log(ts, es + [e])| && Log(ts, es + [e])[i].kind == kind
                        && (Log(ts, es + [e])[i] == Sent(kind, e.compare, e.done)
                            || e.compare - Log(ts, es + [e])[i].done < DAY)
  {
    assert (es + [e])[..|es|] == es;
    SelectIff(ts, e, kind);
    ThrottleIsTraced(ts, es);
    var d := Delivery(ts, Run(ts, es), e);
    if d.Some? {
      assert Log(ts, es + [e])[|Log(ts, es)|] == Sent(kind, e.compare, e.done);
    } else {
      var i :| 0 <= i < |Log(ts, es)| && Log(ts, es)[i].kind == kind
        && Log(ts, es)[i].done == Last(Run(ts, es), kind).value;
      assert Log(ts, es + [e])[i].kind == kind;
    }
  }

  /** Right after a reset such a check delivers, whatever was announced before. */
  lemma ResetForgets(ts: seq<int>, es: seq<Event>, e: Event, kind: Kind)
    requires CallsFor(ts, e, kind) && e.delivered
    ensures Log(ts, es + [Reset] + [e]) == [Sent(kind, e.compare, e.done)]
  {
    assert (es + [Reset])[..|es|] == es;
    assert (es + [Reset] + [e])[..|es| + 1] == es + [Reset];
    SelectIff(ts, e, kind);
  }

  /** Conversely every recorded delivery was called for by a check of the run; so
      nothing is ever announced for the community edition, for a license without
      expiry, or without need. */
  lemma {:induction false} AnnouncedIsCalledFor(ts: seq<int>, es: seq<Event>, k: nat)
    requires k < |Log(ts, es)|
    ensures exists i :: 0 <= i < |es| && CallsFor(ts, es[i], Log(ts, es)[k].kind) && es[i].delivered
                        && es[i].compare == Log(ts, es)[k].compare && es[i].done == Log(ts, es)[k].done
  {
    var n := |es| - 1;
    if k < |Log(ts, es[..n])| {
      AnnouncedIsCalledFor(ts, es[..n], k);
      var i :| 0 <= i < n && CallsFor(ts, es[..n][i], Log(ts, es[..n])[k].kind) && es[..n][i].delivered
        && es[..n][i].compare == Log(ts, es[..n])[k].compare && es[..n][i].done == Log(ts, es[..n])[k].done;
      assert es[..n][i] == es[i];
    } else {
      SelectIff(ts, es[n], Log(ts, es)[k].kind);
    }
  }

  // ------------------------------------------------------------------------
  // Which threshold is announced
  // ------------------------------------------------------------------------

  ghost predicate Descending(ts: seq<int>) {
    forall i, j :: 0 <= i < j < |ts| ==> ts[i] >= ts[j]
  }

  /** On a descending list, the default, only the largest threshold is ever announced. */
  lemma DescendingAnnouncesLargest(ts: seq<int>, days: int)
    requires Descending(ts)
    ensures FirstMatch(ts, days).Some? ==> FirstMatch(ts, days).value == ts[0]
    ensures FirstMatch(ts, days).Some? <==> ts != [] && days <= ts[0]
  {
    var i := FirstIndex(ts, days, 0);
    assert i == 0 || i == |ts|;
  }

  lemma {:induction false} DescendingLog(ts: seq<int>, es: seq<Event>)
    requires Descending(ts)
    ensures forall i :: 0 <= i < |Log(ts, es)| && Log(ts, es)[i].kind.Expiring? ==>
              ts != [] && Log(ts, es)[i].kind == Expiring(ts[0])
  {
    if es != [] {
      var n := |es| - 1;
      DescendingLog(ts, es[..n]);
      var e := es[n];
      if e.Check? && e.expiresAt.Some? {
        DescendingAnnouncesLargest(ts, DaysRemaining(e.expiresAt.value, e.start));
      }
    }
  }

  /** So all its "expiring" notices, of whatever urgency, are at least a day apart. */
  lemma DescendingNoticesSpaced(ts: seq<int>, es: seq<Event>, i: nat, j: nat)
    requires Descending(ts) && Monotone(es)
    requires i < j < |Log(ts, es)| && Log(ts, es)[i].kind.Expiring? && Log(ts, es)[j].kind.Expiring?
    ensures Log(ts, es)[j].compare - Log(ts, es)[i].done >= DAY
  {
    NoticesSpaced(ts, es);
    DescendingLog(ts, es);
    assert Log(ts, es)[i].kind == Log(ts, es)[j].kind;
  }

  ghost predicate Smallest(ts: seq<int>, days: int, t: int) {
    t in ts && days <= t && forall k :: 0 <= k < |ts| && days <= ts[k] ==> t <= ts[k]
  }

  /** Every threshold below an earlier one has already occurred before that one:
      ascending, up to repetitions and thresholds no remaining time can meet. */
  ghost predicate AscendingFirsts(ts: seq<int>) {
    forall i, j :: 0 <= i < j < |ts| && 0 <= ts[j] < ts[i] ==> ts[j] in ts[..i]
  }

  /** The scan announces the most urgent matching threshold, as its comment says,
      for every remaining time exactly when the list is ascending in that sense. */
  lemma SmallestIffAscending(ts: seq<int>)
    ensures (forall days: nat :: FirstMatch(ts, days).Some? ==> Smallest(ts, days, FirstMatch(ts, days).value))
            <==> AscendingFirsts(ts)
  {
    if AscendingFirsts(ts) {
      forall days: nat | FirstMatch(ts, days).Some?
        ensures Smallest(ts, days, FirstMatch(ts, days).value)
      {
        var m := FirstIndex(ts, days, 0);
        assert forall k :: 0 <= k < |ts| && days <= ts[k] ==> ts[k] !in ts[..m];
      }
    }
    if forall days: nat :: FirstMatch(ts, days).Some? ==> Smallest(ts, days, FirstMatch(ts, days).value) {
      forall i, j | 0 <= i < j < |ts| && 0 <= ts[j] < ts[i]
        ensures ts[j] in ts[..i]
      {
        var days: nat := ts[j];
        var m := FirstIndex(ts, days, 0);
        assert m <= i;
        assert Smallest(ts, days, FirstMatch(ts, days).value);
        assert ts[m] == ts[j] && ts[..i][m] == ts[j];
      }
    }
  }

  /** With the default list a license one day from expiry is announced at 30 days. */
  lemma DefaultListWitness()
    ensures FirstMatch([30, 15, 7, 3, 1], 1) == Some(30)
    ensures !Smallest([30, 15, 7, 3, 1], 1, 30)
  {
    var ts := [30, 15, 7, 3, 1];
    assert ts[4] == 1;
  }

  // ------------------------------------------------------------------------
  // The checker object
  // ------------------------------------------------------------------------

  class ExpirationChecker {
    const thresholds: seq<int>
    var notifiedThresholds: map<int, int>
    var expiredNotifiedAt: Option<int>

    ghost function State(): Throttle
      reads this
    {
      Throttle(notifiedThresholds, expiredNotifiedAt)
    }

    constructor (configured: seq<int>)
      ensures State() == UNUSED
      ensures thresholds == if configured == [] then [30, 15, 7, 3, 1] else configured
    {
      thresholds := if configured == [] then [30, 15, 7, 3, 1] else configured;
      notifiedThresholds, expiredNotifiedAt := map[], None;
    }

    method CheckOnce(edition: Edition, expiresAt: Option<int>, start: int, compare: int, done: int, delivered: bool)
      modifies this
      ensures State() == Apply(thresholds, old(State()), Check(edition, expiresAt, start, compare, done, delivered))
    {
      if edition == CE {
        return;
      }
      if expiresAt.None? {
        return;
      }
      if start > expiresAt.value {
        HandleExpired(compare, done, delivered);
        return;
      }
      var days := DaysRemaining(expiresAt.value, start);
      var i := 0;
      while i < |thresholds|
        invariant 0 <= i <= |thresholds|
        invariant FirstIndex(thresholds, days, 0) == FirstIndex(thresholds, days, i)
        invariant State() == old(State())
      {
        if days <= thresholds[i] {
          HandleThreshold(thresholds[i], compare, done, delivered);
          break;
        }
        i := i + 1;
      }
    }

    method HandleExpired(compare: int, done: int, delivered: bool)
      modifies this
      ensures State() == if (old(expiredNotifiedAt).Some? && compare - old(expiredNotifiedAt).value < DAY) || !delivered
                         then old(State()) else Record(old(State()), ExpiredNotice, done)
    {
      if expiredNotifiedAt.Some? {
        if compare - expiredNotifiedAt.value < DAY {
          return;
        }
      }
      if !delivered {
        return;
      }
      expiredNotifiedAt := Some(done);
    }

    method HandleThreshold(threshold: int, compare: int, done: int, delivered: bool)
      modifies this
      ensures var last := Last(old(State()), Expiring(threshold));
              State() == if (last.Some? && compare - last.value < DAY) || !delivered
                         then old(State()) else Record(old(State()), Expiring(threshold), done)
    {
      if threshold in notifiedThresholds {
        if compare - notifiedThresholds[threshold] < DAY {
          return;
        }
      }
      if !delivered {
        return;
      }
      notifiedThresholds := notifiedThresholds[threshold := done];
    }

    method ResetNotifications()
      modifies this
      ensures State() == Apply(thresholds, old(State()), Reset)
      ensures notifiedThresholds == map[] && expiredNotifiedAt == None
    {
      notifiedThresholds, expiredNotifiedAt := map[], None;
    }
  }
}
