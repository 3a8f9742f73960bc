/**
 Heartbeat statistics per agent, updated by received heartbeats and by periodic
 health checks, and the summary over all agents.
 */
module HeartbeatMonitor {
  import opened Basics
  import opened MapSums

  datatype Stats = Stats(
    host: HostId, total: nat, missed: nat, lastBeat: int, average: int, latencySum: int, latencyCount: nat,
    lastHealth: Health, changes: nat, consecutive: nat)

  type Table = map<AgentId, Stats>

  datatype Thresholds = Thresholds(warning: int, critical: int, dead: int)

  /** `Check` counts a look at a connection that was last seen `silence` ago;
      `NoteChange` records that the look changed the health known so far.  They
      are separate critical sections of one health check. */
  datatype Step =
    | Beat(agent: AgentId, host: HostId, health: Health, sentAt: int, now: int)
    | Check(agent: AgentId, silence: int)
    | NoteChange(agent: AgentId)
    | Forget(agent: AgentId)

  /** Division as the source's integer durations divide: towards zero. */
  function TruncDiv(a: int, b: int): int
    requires b > 0
  {
    if a >= 0 then a / b else -((-a) / b)
  }

  /** `q` is `sum / n` cut off towards zero. */
  ghost predicate IsAverage(q: int, sum: int, n: int) {
    if sum >= 0 then 0 <= q && q * n <= sum < (q + 1) * n
    else q <= 0 && -q * n <= -sum < (-q + 1) * n
  }

  lemma TruncDivIsAverage(sum: int, n: int)
    requires n > 0
    ensures IsAverage(TruncDiv(sum, n), sum, n)
  {
    if sum >= 0 {
      QuotientSpan(sum, n);
    } else {
      QuotientSpan(-sum, n);
    }
  }

  lemma QuotientSpan(x: nat, n: int)
    requires n > 0
    ensures 0 <= x / n && x / n * n <= x < (x / n + 1) * n
  {
    assert x == n * (x / n) + x % n;
    assert (x / n + 1) * n == x / n * n + n;
  }

  function Judge(th: Thresholds, silence: int): Health {
    if silence >= th.dead then UnknownHealth
    else if silence >= th.critical then Unhealthy
    else if silence >= th.warning then DegradedHealth
    else Healthy
  }

  function BeatStats(st: Stats, e: Step): Stats
    requires e.Beat?
  {
    var sum := st.latencySum + (e.now - e.sentAt);
    Stats(st.host, st.total + 1, st.missed, e.now, TruncDiv(sum, st.latencyCount + 1), sum, st.latencyCount + 1,
          e.health, if st.lastHealth != e.health then st.changes + 1 else st.changes, 0)
  }

  function CheckStats(th: Thresholds, st: Stats, silence: int): Stats {
    match Judge(th, silence)
    case UnknownHealth => st
    case Healthy => st.(consecutive := 0)
    case _ => st.(missed := st.missed + 1, consecutive := st.consecutive + 1)
  }

  function Blank(host: HostId): Stats {
    Stats(host, 0, 0, 0, 0, 0, 0, UnknownHealth, 0, 0)
  }

  function Apply(th: Thresholds, t: Table, e: Step): Table {
    match e
    case Beat(a, host, _, _, _) => t[a := BeatStats(if a in t then t[a] else Blank(host), e)]
    case Check(a, silence) => if a in t then t[a := CheckStats(th, t[a], silence)] else t
    case NoteChange(a) => if a in t then t[a := t[a].(changes := t[a].changes + 1)] else t
    case Forget(a) => t - {a}
  }

  function Run(th: Thresholds, es: seq<Step>): Table {
    if es == [] then map[] else Apply(th, Run(th, es[..|es| - 1]), es[|es| - 1])
  }

  // ------------------------------------------------------------------------
  // What the counters mean, read off the history
  // ------------------------------------------------------------------------

  /** The part of the history after the last step satisfying `p`. */
  function After(es: seq<Step>, p: Step -> bool): seq<Step> {
    if es == [] then []
    else if p(es[|es| - 1]) then []
    else After(es[..|es| - 1], p) + [es[|es| - 1]]
  }

  /** The part of the history from the first step satisfying `p` on. */
  function From(es: seq<Step>, p: Step -> bool): seq<Step> {
    if es == [] || p(es[0]) then es else From(es[1..], p)
  }

  function Count(es: seq<Step>, p: Step -> bool): nat {
    if es == [] then 0 else Count(es[..|es| - 1], p) + if p(es[|es| - 1]) then 1 else 0
  }

  function Latencies(es: seq<Step>, a: AgentId): int {
    if es == [] then 0
    else
      var e := es[|es| - 1];
      Latencies(es[..|es| - 1], a) + if IsBeat(a)(e) then e.now - e.sentAt else 0
  }

  /** The health the agent's last heartbeat reported. */
  function Reported(es: seq<Step>, a: AgentId): Health {
    if es == [] then UnknownHealth
    else
      var e := es[|es| - 1];
      if IsBeat(a)(e) then e.health else Reported(es[..|es| - 1], a)
  }

  /** When the agent's last heartbeat arrived. */
  function LastBeatAt(es: seq<Step>, a: AgentId): int {
    if es == [] then 0
    else
      var e := es[|es| - 1];
      if IsBeat(a)(e) then e.now else LastBeatAt(es[..|es| - 1], a)
  }

  /** The host the agent's first heartbeat came from. */
  function FirstHost(es: seq<Step>, a: AgentId): Option<HostId> {
    if es == [] then None
    else
      var first, e := FirstHost(es[..|es| - 1], a), es[|es| - 1];
      if first.None? && IsBeat(a)(e) then Some(e.host) else first
  }

  /** How many heartbeats reported another health than the one before. */
  function Switches(es: seq<Step>, a: AgentId): nat {
    if es == [] then 0
    else
      var init, e := es[..|es| - 1], es[|es| - 1];
      Switches(init, a) + if IsBeat(a)(e) && e.health != Reported(init, a) then 1 else 0
  }

  function IsBeat(a: AgentId): Step -> bool {
    (e: Step) => e.Beat? && e.agent == a
  }

  function IsForget(a: AgentId): Step -> bool {
    (e: Step) => e.Forget? && e.agent == a
  }

  function IsNote(a: AgentId): Step -> bool {
    (e: Step) => e.NoteChange? && e.agent == a
  }

  /** A degraded or unhealthy check; a check that presumes the agent dead is not counted. */
  function IsMiss(th: Thresholds, a: AgentId): Step -> bool {
    (e: Step) => e.Check? && e.agent == a && e.silence < th.dead
                 && (th.critical <= e.silence || th.warning <= e.silence)
  }

  predicate BelowAll(th: Thresholds, silence: int) {
    silence < th.warning && silence < th.critical && silence < th.dead
  }

  /** A heartbeat, a healthy check, or the removal of the agent. */
  function Clears(th: Thresholds, a: AgentId): Step -> bool {
    (e: Step) => e.agent == a && (e.Beat? || e.Forget? || (e.Check? && BelowAll(th, e.silence)))
  }

  /** What happened since the agent was first heard after its last removal. */
  function Heard(es: seq<Step>, a: AgentId): seq<Step> {
    From(After(es, IsForget(a)), IsBeat(a))
  }

  lemma {:induction false} FromSnoc(es: seq<Step>, e: Step, p: Step -> bool)
    ensures From(es + [e], p) == if From(es, p) == [] && !p(e) then [] else From(es, p) + [e]
  {
    if es == [] {
      assert es + [e] == [e];
      assert [e][1..] == [];
    } else if !p(es[0]) {
      assert (es + [e])[1..] == es[1..] + [e];
      FromSnoc(es[1..], e, p);
    }
  }

  lemma HeardSnoc(es: seq<Step>, e: Step, a: AgentId)
    ensures Heard(es + [e], a) ==
            if IsForget(a)(e) || (Heard(es, a) == [] && !IsBeat(a)(e)) then [] else Heard(es, a) + [e]
  {
    assert (es + [e])[..|es|] == es;
    FromSnoc(After(es, IsForget(a)), e, IsBeat(a));
  }

  lemma CountSnoc(es: seq<Step>, e: Step, p: Step -> bool)
    ensures Count(es + [e], p) == Count(es, p) + if p(e) then 1 else 0
  {
    assert (es + [e])[..|es|] == es;
  }

  lemma BeatsSnoc(es: seq<Step>, e: Step, a: AgentId)
    ensures Latencies(es + [e], a) == Latencies(es, a) + if IsBeat(a)(e) then e.now - e.sentAt else 0
    ensures Reported(es + [e], a) == if IsBeat(a)(e) then e.health else Reported(es, a)
    ensures LastBeatAt(es + [e], a) == if IsBeat(a)(e) then e.now else LastBeatAt(es, a)
    ensures FirstHost(es + [e], a) == if FirstHost(es, a).None? && IsBeat(a)(e) then Some(e.host) else FirstHost(es, a)
    ensures Switches(es + [e], a) == Switches(es, a) + if IsBeat(a)(e) && e.health != Reported(es, a) then 1 else 0
  {
    assert (es + [e])[..|es|] == es;
  }

  /** What a piece of history says about one agent's heartbeats and checks. */
  datatype Digest = Digest(beats: nat, misses: nat, latencies: int, notes: nat, switches: nat, health: Health,
                           lastAt: int, host: Option<HostId>)

  function DigestOf(th: Thresholds, heard: seq<Step>, a: AgentId): Digest {
    Digest(Count(heard, IsBeat(a)), Count(heard, IsMiss(th, a)), Latencies(heard, a),
           Count(heard, IsNote(a)), Switches(heard, a), Reported(heard, a), LastBeatAt(heard, a), FirstHost(heard, a))
  }

  function DigestStep(th: Thresholds, d: Digest, e: Step, a: AgentId): Digest {
    if e.agent != a then d
    else
      match e
      case Beat(_, host, health, sentAt, now) =>
        Digest(d.beats + 1, d.misses, d.latencies + (now - sentAt), d.notes,
               if health != d.health then d.switches + 1 else d.switches, health, now,
               if d.host.None? then Some(host) else d.host)
      case Check(_, _) => if IsMiss(th, a)(e) then d.(misses := d.misses + 1) else d
      case NoteChange(_) => d.(notes := d.notes + 1)
      case Forget(_) => d
  }

  lemma DigestSnoc(th: Thresholds, heard: seq<Step>, e: Step, a: AgentId)
    ensures DigestOf(th, heard + [e], a) == DigestStep(th, DigestOf(th, heard, a), e, a)
  {
    CountSnoc(heard, e, IsBeat(a));
    CountSnoc(heard, e, IsMiss(th, a));
    CountSnoc(heard, e, IsNote(a));
    BeatsSnoc(heard, e, a);
  }

  /** Misses since the streak was last cleared. */
  function Streak(th: Thresholds, es: seq<Step>, a: AgentId): nat {
    Count(After(es, Clears(th, a)), IsMiss(th, a))
  }

  function StreakStep(th: Thresholds, streak: nat, e: Step, a: AgentId): nat {
    if Clears(th, a)(e) then 0 else if IsMiss(th, a)(e) then streak + 1 else streak
  }

  lemma StreakSnoc(th: Thresholds, es: seq<Step>, e: Step, a: AgentId)
    ensures Streak(th, es + [e], a) == StreakStep(th, Streak(th, es, a), e, a)
  {
    assert (es + [e])[..|es|] == es;
    CountSnoc(After(es, Clears(th, a)), e, IsMiss(th, a));
  }

  /** Every field is what the history says. */
  ghost predicate Faithful(d: Digest, streak: nat, st: Stats) {
    && st.total == st.latencyCount == d.beats && d.beats > 0
    && st.latencySum == d.latencies
    && IsAverage(st.average, d.latencies, d.beats)
    && st.missed == d.misses
    && st.consecutive == streak <= st.missed
    && st.changes == d.notes + d.switches
    && st.lastHealth == d.health
    && st.lastBeat == d.lastAt
    && d.host == Some(st.host)
  }

  /** Nothing has been heard. */
  const NOTHING := Digest(0, 0, 0, 0, 0, UnknownHealth, 0, None)

  lemma BeatFaithful(th: Thresholds, d: Digest, streak: nat, st: Stats, e: Step)
    requires e.Beat?
    requires Faithful(d, streak, st) || (st == Blank(e.host) && d == NOTHING)
    ensures Faithful(DigestStep(th, d, e, e.agent), 0, BeatStats(st, e))
  {
    TruncDivIsAverage(st.latencySum + (e.now - e.sentAt), st.latencyCount + 1);
  }

  lemma CheckFaithful(th: Thresholds, d: Digest, streak: nat, st: Stats, e: Step)
    requires e.Check? && Faithful(d, streak, st)
    ensures Faithful(DigestStep(th, d, e, e.agent), StreakStep(th, streak, e, e.agent), CheckStats(th, st, e.silence))
  {
  }

  /** The history of one agent in three figures, and how a step continues it. */
  datatype Account = Account(heard: bool, digest: Digest, streak: nat)

  function AccountOf(th: Thresholds, es: seq<Step>, a: AgentId): Account {
    Account(Heard(es, a) != [], DigestOf(th, Heard(es, a), a), Streak(th, es, a))
  }

  function AccountStep(th: Thresholds, acc: Account, e: Step, a: AgentId): Account {
    var streak := StreakStep(th, acc.streak, e, a);
    if IsForget(a)(e) || (!acc.heard && !IsBeat(a)(e)) then Account(false, NOTHING, streak)
    else Account(true, DigestStep(th, acc.digest, e, a), streak)
  }

  lemma AccountSnoc(th: Thresholds, es: seq<Step>, e: Step, a: AgentId)
    ensures AccountOf(th, es + [e], a) == AccountStep(th, AccountOf(th, es, a), e, a)
  {
    HeardSnoc(es, e, a);
    StreakSnoc(th, es, e, a);
    DigestSnoc(th, Heard(es, a), e, a);
    assert DigestOf(th, [], a) == NOTHING;
  }

  ghost predicate Describes(acc: Account, a: AgentId, t: Table) {
    if a in t then acc.heard && Faithful(acc.digest, acc.streak, t[a]) else !acc.heard && acc.digest == NOTHING
  }

  lemma StepDescribes(th: Thresholds, acc: Account, e: Step, a: AgentId, t: Table)
    requires Describes(acc, a, t)
    ensures Describes(AccountStep(th, acc, e, a), a, Apply(th, t, e))
  {
    if e.agent == a && e.Beat? {
      BeatFaithful(th, acc.digest, acc.streak, if a in t then t[a] else Blank(e.host), e);
    } else if e.agent == a && e.Check? && a in t {
      CheckFaithful(th, acc.digest, acc.streak, t[a], e);
    }
  }

  /** Over every run: an agent has statistics exactly when it has sent a heartbeat
      since it was last removed.  Since that first heartbeat, the totals, the sum
      and the truncated average are those of its heartbeats, the misses are its
      degraded and unhealthy checks, and the changes are the noted ones and the
      heartbeats with another health than the one before; the consecutive misses
      are those since the last heartbeat or healthy check.  Host, health and time
      are those of the first and the last heartbeat. */
  lemma StatsAreFaithful(th: Thresholds, es: seq<Step>, a: AgentId)
    ensures a in Run(th, es) <==> Heard(es, a) != []
    ensures a in Run(th, es) ==> Faithful(DigestOf(th, Heard(es, a), a), Streak(th, es, a), Run(th, es)[a])
  {
    RunDescribed(th, es, a);
  }

  lemma {:induction false} RunDescribed(th: Thresholds, es: seq<Step>, a: AgentId)
    ensures Describes(AccountOf(th, es, a), a, Run(th, es))
  {
    if es != [] {
      var n := |es| - 1;
      RunDescribed(th, es[..n], a);
      StepDescribes(th, AccountOf(th, es[..n], a), es[n], a, Run(th, es[..n]));
      AccountSnoc(th, es[..n], es[n], a);
      assert es[..n] + [es[n]] == es;
    }
  }

  function SuccessRate(total: int, missed: int): real {
    if total + missed > 0 then total as real / (total + missed) as real * 100.0 else 0.0
  }

  /** A part of a positive whole, as a fraction. */
  lemma FractionBounds(part: real, whole: real)
    requires 0.0 <= part <= whole && 0.0 < whole
    ensures 0.0 <= part / whole <= 1.0
    ensures part / whole == 1.0 <==> part == whole
  {
    QuotientBounds(part / whole, part, whole);
  }

  lemma QuotientBounds(q: real, part: real, whole: real)
    requires 0.0 <= part <= whole && 0.0 < whole && q * whole == part
    ensures 0.0 <= q <= 1.0
    ensures q == 1.0 <==> part == whole
  {
    assert 1.0 * whole == whole && 0.0 * whole == 0.0;
    if q < 0.0 {
      Scaled(q, 0.0, whole);
    } else if q < 1.0 {
      Scaled(q, 1.0, whole);
    } else if q > 1.0 {
      Scaled(1.0, q, whole);
    }
  }

  lemma Scaled(x: real, y: real, z: real)
    requires x < y && 0.0 < z
    ensures x * z < y * z
  {
    assert (y - x) * z > 0.0;
  }

  /** The share of the heartbeats in all that were due, in percent. */
  ghost predicate IsShare(rate: real, total: int, missed: int) {
    && (total + missed > 0 ==> rate * (total + missed) as real == 100.0 * total as real)
    && (total + missed == 0 ==> rate == 0.0)
  }

  lemma ShareOf(part: real, whole: real)
    requires whole > 0.0
    ensures part / whole * 100.0 * whole == 100.0 * part
  {
    var q := part / whole;
    assert q * whole == part;
    assert q * 100.0 * whole == 100.0 * (q * whole);
  }

  lemma SuccessRateBounds(total: nat, missed: nat)
    ensures IsShare(SuccessRate(total, missed), total, missed)
    ensures 0.0 <= SuccessRate(total, missed) <= 100.0
    ensures total > 0 ==> (SuccessRate(total, missed) == 100.0 <==> missed == 0)
    ensures total == 0 ==> SuccessRate(total, missed) == 0.0
  {
    if total + missed > 0 {
      ShareOf(total as real, (total + missed) as real);
      FractionBounds(total as real, (total + missed) as real);
    }
  }

  /** One figure of the statistics of the given agents. */
  function Column(t: Table, keys: set<AgentId>, figure: Stats -> int): map<AgentId, int>
    requires keys <= t.Keys
  {
    map a | a in keys :: figure(t[a])
  }

  ghost function ColumnSum(t: Table, keys: set<AgentId>, figure: Stats -> int): int
    requires keys <= t.Keys
  {
    Sum(Column(t, keys, figure))
  }

  lemma ColumnStep(t: Table, keys: set<AgentId>, figure: Stats -> int, a: AgentId)
    requires a in keys && keys <= t.Keys
    ensures ColumnSum(t, keys, figure) == figure(t[a]) + ColumnSum(t, keys - {a}, figure)
  {
    SumRemove(Column(t, keys, figure), a);
    assert Column(t, keys, figure) - {a} == Column(t, keys - {a}, figure);
  }

  const AVERAGE := (st: Stats) => st.average
  const TOTAL := (st: Stats) => st.total as int
  const MISSED := (st: Stats) => st.missed as int
  const HEALTHY := (st: Stats) => if st.lastHealth.Healthy? then 1 else 0
  const DEGRADED := (st: Stats) => if st.lastHealth.DegradedHealth? then 1 else 0

  /** The figures the summary adds up. */
  datatype Totals = Totals(healthy: int, degraded: int, latency: int, total: int, missed: int)

  ghost function TotalsOf(t: Table, keys: set<AgentId>): Totals
    requires keys <= t.Keys
  {
    Totals(ColumnSum(t, keys, HEALTHY), ColumnSum(t, keys, DEGRADED), ColumnSum(t, keys, AVERAGE),
           ColumnSum(t, keys, TOTAL), ColumnSum(t, keys, MISSED))
  }

  function Add(st: Stats, r: Totals): Totals {
    Totals(HEALTHY(st) + r.healthy, DEGRADED(st) + r.degraded, st.average + r.latency, st.total + r.total,
           st.missed + r.missed)
  }

  lemma TotalsStep(t: Table, keys: set<AgentId>, a: AgentId)
    requires a in keys && keys <= t.Keys
    ensures TotalsOf(t, keys) == Add(t[a], TotalsOf(t, keys - {a}))
  {
    ColumnStep(t, keys, HEALTHY, a);
    ColumnStep(t, keys, DEGRADED, a);
    ColumnStep(t, keys, AVERAGE, a);
    ColumnStep(t, keys, TOTAL, a);
    ColumnStep(t, keys, MISSED, a);
  }

  lemma TotalsAreSums(t: Table)
    ensures TotalsOf(t, t.Keys).latency == Sum(map a | a in t :: t[a].average)
    ensures TotalsOf(t, t.Keys).total == Sum(map a | a in t :: t[a].total)
    ensures TotalsOf(t, t.Keys).missed == Sum(map a | a in t :: t[a].missed)
  {
    assert Column(t, t.Keys, AVERAGE) == map a | a in t :: t[a].average;
    assert Column(t, t.Keys, TOTAL) == map a | a in t :: t[a].total;
    assert Column(t, t.Keys, MISSED) == map a | a in t :: t[a].missed;
  }

  // ------------------------------------------------------------------------
  // The monitor object
  // ------------------------------------------------------------------------

  datatype Summary = Summary(agents: nat, healthy: nat, degraded: nat, unhealthy: nat, average: int, rate: real)

  function InBucket(t: Table, keys: set<AgentId>, h: Health): set<AgentId>
    requires keys <= t.Keys
  {
    set a | a in keys && t[a].lastHealth == h
  }

  class Monitor {
    const thresholds: Thresholds
    var stats: Table

    constructor (thresholds: Thresholds)
      ensures this.thresholds == thresholds && stats == Run(thresholds, [])
    {
      this.thresholds := thresholds;
      stats := map[];
    }

    method RecordHeartbeat(a: AgentId, host: HostId, health: Health, sentAt: int, now: int)
      modifies this
      ensures stats == Apply(thresholds, old(stats), Beat(a, host, health, sentAt, now))
    {
      if a !in stats {
        stats := stats[a := Blank(host)];
      }
      var st := stats[a];
      var latency := now - sentAt;
      st := st.(latencySum := st.latencySum + latency, latencyCount := st.latencyCount + 1);
      st := st.(average := TruncDiv(st.latencySum, st.latencyCount));
      st := st.(total := st.total + 1, lastBeat := now, consecutive := 0);
      if st.lastHealth != health {
        st := st.(changes := st.changes + 1, lastHealth := health);
      }
      stats := stats[a := st];
    }

    /** Two critical sections when the verdict differs from the health known so
        far, one or none otherwise; undisturbed, they come one after the other. */
    method CheckAgentHealth(a: AgentId, silence: int, known: Health) returns (verdict: Health, lost: bool)
      modifies this
      ensures lost <==> silence >= thresholds.dead
      ensures verdict == UnknownHealth <==> thresholds.dead <= silence
      ensures verdict == Unhealthy <==> thresholds.critical <= silence < thresholds.dead
      ensures verdict == DegradedHealth <==>
              thresholds.warning <= silence < thresholds.dead && silence < thresholds.critical
      ensures verdict == Healthy <==> BelowAll(thresholds, silence)
      ensures stats == if known == verdict
                       then Apply(thresholds, old(stats), Check(a, silence))
                       else Apply(thresholds, Apply(thresholds, old(stats), Check(a, silence)), NoteChange(a))
    {
      lost := false;
      if silence >= thresholds.dead {
        lost := true;
        verdict := UnknownHealth;
      } else if silence >= thresholds.critical {
        verdict := Unhealthy;
        IncrementMissed(a);
      } else if silence >= thresholds.warning {
        verdict := DegradedHealth;
        IncrementMissed(a);
      } else {
        verdict := Healthy;
        ResetMissed(a);
      }
      if known != verdict {
        RecordHealthChange(a);
      }
    }

    method ResetMissed(a: AgentId)
      modifies this
      ensures stats == if a in old(stats) then old(stats)[a := old(stats)[a].(consecutive := 0)] else old(stats)
    {
      if a in stats {
        stats := stats[a := stats[a].(consecutive := 0)];
      }
    }

    method RecordHealthChange(a: AgentId)
      modifies this
      ensures stats == Apply(thresholds, old(stats), NoteChange(a))
    {
      if a in stats {
        stats := stats[a := stats[a].(changes := stats[a].changes + 1)];
      }
    }

    method IncrementMissed(a: AgentId)
      modifies this
      ensures stats == if a in old(stats)
                       then old(stats)[a := old(stats)[a].(missed := old(stats)[a].missed + 1,
                                                           consecutive := old(stats)[a].consecutive + 1)]
                       else old(stats)
    {
      if a in stats {
        stats := stats[a := stats[a].(missed := stats[a].missed + 1, consecutive := stats[a].consecutive + 1)];
      }
    }

    method RemoveAgent(a: AgentId)
      modifies this
      ensures stats == Apply(thresholds, old(stats), Forget(a))
    {
      stats := stats - {a};
    }

    method GetAgentStats(a: AgentId) returns (r: Option<(Stats, real)>)
      ensures r.Some? <==> a in stats
      ensures r.Some? ==> r.value.0 == stats[a] && IsShare(r.value.1, stats[a].total, stats[a].missed)
      ensures r.Some? ==> 0.0 <= r.value.1 <= 100.0
    {
      if a !in stats {
        return None;
      }
      SuccessRateBounds(stats[a].total, stats[a].missed);
      r := Some((stats[a], SuccessRate(stats[a].total, stats[a].missed)));
    }

    /** The loop of the summary, over the agents in any order; each falls into one bucket. */
    method Accumulate() returns (healthy: nat, degraded: nat, unhealthy: nat, latency: int, total: nat, missed: nat)
      ensures healthy + degraded + unhealthy == |stats|
      ensures Totals(healthy, degraded, latency, total, missed) == TotalsOf(stats, stats.Keys)
    {
      healthy, degraded, unhealthy, latency, total, missed := 0, 0, 0, 0, 0, 0;
      var todo := stats.Keys;
      ghost var goal := TotalsOf(stats, todo);
      ghost var left := goal;
      while todo != {}
        invariant todo <= stats.Keys
        invariant healthy + degraded + unhealthy + |todo| == |stats|
        invariant left == TotalsOf(stats, todo)
        invariant healthy + left.healthy == goal.healthy && degraded + left.degraded == goal.degraded
        invariant latency + left.latency == goal.latency
        invariant total + left.total == goal.total && missed + left.missed == goal.missed
        decreases todo
      {
        var a :| a in todo;
        var st := stats[a];
        TotalsStep(stats, todo, a);
        latency, total, missed := latency + st.average, total + st.total, missed + st.missed;
        if st.lastHealth.Healthy? {
          healthy := healthy + 1;
        } else if st.lastHealth.DegradedHealth? {
          degraded := degraded + 1;
        } else {
          unhealthy := unhealthy + 1;
        }
        todo := todo - {a};
        left := TotalsOf(stats, todo);
      }
    }

    method GetSummary() returns (s: Summary)
      ensures s.agents == |stats| && s.healthy + s.degraded + s.unhealthy == s.agents
      ensures s.healthy == |InBucket(stats, stats.Keys, Healthy)|
      ensures s.degraded == |InBucket(stats, stats.Keys, DegradedHealth)|
      ensures if stats == map[] then s.average == 0
              else IsAverage(s.average, Sum(map a | a in stats :: stats[a].average), |stats|)
      ensures IsShare(s.rate, Sum(map a | a in stats :: stats[a].total), Sum(map a | a in stats :: stats[a].missed))
      ensures 0.0 <= s.rate <= 100.0
    {
      var healthy, degraded, unhealthy, latency, total, missed := Accumulate();
      var average := if |stats| > 0 then TruncDiv(latency, |stats|) else 0;
      if |stats| > 0 {
        TruncDivIsAverage(latency, |stats|);
      }
      SuccessRateBounds(total, missed);
      BucketsAreColumns(stats, stats.Keys);
      TotalsAreSums(stats);
      s := Summary(|stats|, healthy, degraded, unhealthy, average, SuccessRate(total, missed));
    }
  }

  lemma {:induction false} BucketsAreColumns(t: Table, keys: set<AgentId>)
    requires keys <= t.Keys
    ensures ColumnSum(t, keys, HEALTHY) == |InBucket(t, keys, Healthy)|
    ensures ColumnSum(t, keys, DEGRADED) == |InBucket(t, keys, DegradedHealth)|
  {
    if keys != {} {
      var a :| a in keys;
      BucketsAreColumns(t, keys - {a});
      ColumnStep(t, keys, HEALTHY, a);
      ColumnStep(t, keys, DEGRADED, a);
      BucketStep(t, keys, Healthy, a);
      BucketStep(t, keys, DegradedHealth, a);
    }
  }

  lemma BucketStep(t: Table, keys: set<AgentId>, h: Health, a: AgentId)
    requires a in keys && keys <= t.Keys
    ensures |InBucket(t, keys, h)| == |InBucket(t, keys - {a}, h)| + if t[a].lastHealth == h then 1 else 0
  {
    if t[a].lastHealth == h {
      assert InBucket(t, keys, h) == InBucket(t, keys - {a}, h) + {a};
    } else {
      assert InBucket(t, keys, h) == InBucket(t, keys - {a}, h);
    }
  }
}
