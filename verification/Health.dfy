/** Tunnel health of `proxy.rs`: success and failure marks, and the health updates that
    `main.rs` receives from the tunnel's own end. Averages are taken over exact reals. */
module Health {
  import opened Basics

  /** Milliseconds on the monotonic clock. */
  type Instant = nat

  const HYSTERESIS_DURATION: nat := 10_000
  const WARNING_TO_CRITICAL_FAILURES: nat := 5
  const SUCCESS_TO_NORMAL: nat := 3
  const U32_MAX: nat := 0xFFFF_FFFF

  datatype HealthStatus = Normal | Warning | Critical

  datatype TunnelHealth = TunnelHealth(
    status: HealthStatus,
    lastUpdate: Instant,
    lastSuccess: Option<Instant>,
    lastFailure: Option<Instant>,
    consecutiveSuccesses: nat,
    consecutiveFailures: nat,
    avgLatencyMs: Option<real>,
    errorRate: real,
    lastTransition: Instant)

  /** The clock as one call reads it: when it made a missing entry, when it stamped
      `last_update`, when it stamped the mark, and when it decided on the status. */
  datatype Readings = Readings(created: Instant, updated: Instant, marked: Instant, decided: Instant)

  datatype Event =
    | Success(latency: Option<real>, at: Readings)
    | Failure(at: Readings)
    | Update(status: HealthStatus, at: Readings)

  /** Hardware data only ever yields Normal or Critical. */
  predicate Genuine(e: Event) {
    e.Update? ==> e.status != Warning
  }

  function Default(created: Instant): TunnelHealth {
    TunnelHealth(Normal, created, None, None, 0, 0, None, 0.0, created)
  }

  /** `duration_since`, which is zero if the clock reads earlier. */
  function Since(now: Instant, earlier: Instant): nat {
    if now < earlier then 0 else now - earlier
  }

  function SaturatingIncrement(n: nat): nat {
    if n < U32_MAX then n + 1 else n
  }

  function Blend(prev: Option<real>, latency: Option<real>): Option<real> {
    match (prev, latency)
    case (_, None) => prev
    case (None, Some(lat)) => Some(lat)
    case (Some(p), Some(lat)) => Some(p * 0.8 + lat * 0.2)
  }

  function Max0(x: real): real {
    if x < 0.0 then 0.0 else x
  }

  function Settled(h: TunnelHealth, now: Instant): bool {
    Since(now, h.lastTransition) >= HYSTERESIS_DURATION
  }

  function AfterSuccess(h: TunnelHealth, latency: Option<real>, at: Readings): TunnelHealth {
    var recovered := h.status.Warning?
      && SaturatingIncrement(h.consecutiveSuccesses) >= SUCCESS_TO_NORMAL && Settled(h, at.decided);
    TunnelHealth(
      if recovered then Normal else h.status, at.updated, Some(at.marked), h.lastFailure,
      SaturatingIncrement(h.consecutiveSuccesses), 0, Blend(h.avgLatencyMs, latency),
      Max0(h.errorRate * 0.9), if recovered then at.decided else h.lastTransition)
  }

  function AfterFailure(h: TunnelHealth, at: Readings): TunnelHealth {
    var failures := SaturatingIncrement(h.consecutiveFailures);
    var target := if failures >= WARNING_TO_CRITICAL_FAILURES then Critical else Warning;
    var moves := Settled(h, at.decided) && (target == Critical || !h.status.Critical?);
    TunnelHealth(
      if moves then target else h.status, at.updated, h.lastSuccess, Some(at.marked),
      0, failures, h.avgLatencyMs,
      h.errorRate * 0.8 + 0.2, if moves then at.decided else h.lastTransition)
  }

  function EntryOr(o: Option<TunnelHealth>, created: Instant): TunnelHealth {
    if o.Some? then o.value else Default(created)
  }

  function Apply(o: Option<TunnelHealth>, e: Event): TunnelHealth {
    var h := EntryOr(o, e.at.created);
    match e
    case Success(latency, at) => AfterSuccess(h, latency, at)
    case Failure(at) => AfterFailure(h, at)
    case Update(status, at) => h.(status := status, lastUpdate := at.updated)
  }

  /** The entry of one tunnel after its whole history. */
  function Fold(es: seq<Event>): Option<TunnelHealth> {
    if es == [] then None else Some(Apply(Fold(es[..|es| - 1]), es[|es| - 1]))
  }

  // ----- The shared map -----

  type Log = seq<(Bytes, Event)>

  function HistoryOf(id: Bytes, log: Log): seq<Event> {
    if log == [] then []
    else HistoryOf(id, log[..|log| - 1]) + if log[|log| - 1].0 == id then [log[|log| - 1].1] else []
  }

  class HealthData {
    var entries: map<Bytes, TunnelHealth>

    constructor ()
      ensures entries == map[]
    {
      entries := map[];
    }

    method MarkTunnelSuccess(id: Bytes, latencyMs: Option<real>, at: Readings)
      modifies this
      ensures entries == old(entries)[id := Apply(Get(old(entries), id), Success(latencyMs, at))]
    {
      var entry := if id in entries then entries[id] else Default(at.created);
      entry := entry.(lastUpdate := at.updated);
      entry := entry.(lastSuccess := Some(at.marked));
      entry := entry.(consecutiveSuccesses := SaturatingIncrement(entry.consecutiveSuccesses));
      entry := entry.(consecutiveFailures := 0);
      if latencyMs.Some? {
        var lat := latencyMs.value;
        entry := entry.(avgLatencyMs := Some(match entry.avgLatencyMs
                                             case Some(prev) => prev * 0.8 + lat * 0.2
                                             case None => lat));
      }
      entry := entry.(errorRate := Max0(entry.errorRate * 0.9));
      if entry.status.Warning? && entry.consecutiveSuccesses >= SUCCESS_TO_NORMAL {
        if Since(at.decided, entry.lastTransition) >= HYSTERESIS_DURATION {
          entry := entry.(status := Normal, lastTransition := at.decided);
        }
      }
      entries := entries[id := entry];
    }

    method MarkTunnelFailure(id: Bytes, at: Readings)
      modifies this
      ensures entries == old(entries)[id := Apply(Get(old(entries), id), Failure(at))]
    {
      var entry := if id in entries then entries[id] else Default(at.created);
      entry := entry.(lastUpdate := at.updated);
      entry := entry.(lastFailure := Some(at.marked));
      entry := entry.(consecutiveFailures := SaturatingIncrement(entry.consecutiveFailures));
      entry := entry.(consecutiveSuccesses := 0);
      entry := entry.(errorRate := entry.errorRate * 0.8 + 0.2);
      if entry.consecutiveFailures >= WARNING_TO_CRITICAL_FAILURES {
        if Since(at.decided, entry.lastTransition) >= HYSTERESIS_DURATION {
          entry := entry.(status := Critical, lastTransition := at.decided);
        }
      } else {
        if !entry.status.Critical? && Since(at.decided, entry.lastTransition) >= HYSTERESIS_DURATION {
          entry := entry.(status := Warning, lastTransition := at.decided);
        }
      }
      entries := entries[id := entry];
    }

    /** The HealthUpdate arm of `handle_socket`. */
    method HealthUpdate(id: Bytes, status: HealthStatus, at: Readings)
      modifies this
      ensures entries == old(entries)[id := Apply(Get(old(entries), id), Update(status, at))]
    {
      var entry := if id in entries then entries[id] else Default(at.created);
      entry := entry.(status := status);
      entry := entry.(lastUpdate := at.updated);
      entries := entries[id := entry];
    }

    /** Any interleaving of marks and updates on any tunnels leaves each tunnel with what
        its own events alone make of it. */
    method Record(log: Log)
      requires entries == map[]
      modifies this
      ensures forall id :: Get(entries, id) == Fold(HistoryOf(id, log))
    {
      for n := 0 to |log|
        invariant forall id :: Get(entries, id) == Fold(HistoryOf(id, log[..n]))
      {
        var (id, e) := log[n];
        match e {
          case Success(latency, at) => MarkTunnelSuccess(id, latency, at);
          case Failure(at) => MarkTunnelFailure(id, at);
          case Update(status, at) => HealthUpdate(id, status, at);
        }
        assert log[..n + 1][..n] == log[..n];
        forall other ensures Get(entries, other) == Fold(HistoryOf(other, log[..n + 1])) {
          var before := HistoryOf(other, log[..n]);
          if other == id {
            assert (before + [e])[..|before|] == before;
          } else {
            assert before + [] == before;
          }
        }
      }
      assert log[..|log|] == log;
    }
  }

  // ----- Counters -----

  function Trailing(es: seq<Event>, successes: bool): nat {
    if es == [] then
      0
    else
      var earlier := es[..|es| - 1];
      match es[|es| - 1]
      case Success(_, _) => if successes then Trailing(earlier, true) + 1 else 0
      case Failure(_) => if successes then 0 else Trailing(earlier, false) + 1
      case Update(_, _) => Trailing(earlier, successes)
  }

  function Min(a: nat, b: nat): nat {
    if a < b then a else b
  }

  /** After any history the counters are the lengths of the latest unbroken run of
      successes and of failures, health updates aside, capped at the u32 maximum; so at
      most one of them is not zero. */
  lemma {:induction false} CountersAreTrailingRuns(es: seq<Event>)
    requires es != []
    ensures Fold(es).value.consecutiveSuccesses == Min(Trailing(es, true), 4_294_967_295)
    ensures Fold(es).value.consecutiveFailures == Min(Trailing(es, false), 4_294_967_295)
    ensures Trailing(es, true) == 0 || Trailing(es, false) == 0
  {
    var earlier := es[..|es| - 1];
    if earlier != [] {
      CountersAreTrailingRuns(earlier);
    }
  }

  /** The marks of a history, health updates left out. */
  function Marks(es: seq<Event>): seq<Event> {
    if es == [] then [] else Marks(es[..|es| - 1]) + if es[|es| - 1].Update? then [] else [es[|es| - 1]]
  }

  /** The latest `k` marks are there and all of one kind. */
  ghost predicate LatestAre(marks: seq<Event>, successes: bool, k: nat) {
    k <= |marks| && forall i :: |marks| - k <= i < |marks| ==> marks[i].Success? == successes
  }

  lemma OneMoreMark(marks: seq<Event>, e: Event, successes: bool, k: nat)
    requires k > 0
    ensures LatestAre(marks + [e], successes, k) <==> e.Success? == successes && LatestAre(marks, successes, k - 1)
  {
    var all := marks + [e];
    assert all[|marks|] == e;
    assert forall i :: 0 <= i < |marks| ==> all[i] == marks[i];
  }

  /** The latest unbroken run is at least `k` long exactly if the latest `k` marks are all of
      that kind. */
  lemma {:induction false} TrailingExactly(es: seq<Event>, successes: bool, k: nat)
    ensures Trailing(es, successes) >= k <==> LatestAre(Marks(es), successes, k)
    decreases |es|
  {
    if es != [] && k > 0 {
      var earlier, e := es[..|es| - 1], es[|es| - 1];
      if e.Update? {
        TrailingExactly(earlier, successes, k);
        assert Marks(es) == Marks(earlier);
      } else {
        TrailingExactly(earlier, successes, k - 1);
        OneMoreMark(Marks(earlier), e, successes, k);
      }
    }
  }

  /** Two entries that agree on all that marks alone decide. */
  predicate Alike(h: TunnelHealth, m: TunnelHealth) {
    && h.consecutiveSuccesses == m.consecutiveSuccesses && h.consecutiveFailures == m.consecutiveFailures
    && h.errorRate == m.errorRate && h.avgLatencyMs == m.avgLatencyMs
    && h.lastSuccess == m.lastSuccess && h.lastFailure == m.lastFailure
  }

  lemma MarkKeepsAlike(h: TunnelHealth, m: TunnelHealth, e: Event)
    requires Alike(h, m)
    ensures e.Update? ==> Alike(Apply(Some(h), e), m)
    ensures !e.Update? ==> Alike(Apply(Some(h), e), Apply(Some(m), e))
  {
  }

  /** Health updates change nothing but the status and the update stamp: counters, averages
      and mark stamps are those that the marks alone make, of a fresh entry if there are none. */
  lemma {:induction false} MarksAloneCount(es: seq<Event>, created: Instant)
    requires es != []
    ensures Alike(Fold(es).value, EntryOr(Fold(Marks(es)), created))
    decreases |es|
  {
    var earlier, e := es[..|es| - 1], es[|es| - 1];
    var h := EntryOr(Fold(earlier), e.at.created);
    var m := EntryOr(Fold(Marks(earlier)), e.at.created);
    if earlier != [] {
      MarksAloneCount(earlier, e.at.created);
    }
    assert Alike(h, m);
    MarkKeepsAlike(h, m, e);
    assert Fold(es).value == Apply(Some(h), e);
    if e.Update? {
      assert Marks(es) == Marks(earlier);
    } else {
      assert Marks(es)[..|Marks(earlier)|] == Marks(earlier);
      assert Fold(Marks(es)).value == Apply(Some(m), e);
    }
  }

  // ----- Status -----

  /** The status of a tunnel; one without an entry is as good as Normal. */
  function StatusAfter(es: seq<Event>): HealthStatus {
    if es == [] then Normal else Fold(es).value.status
  }

  /** Event `i` is a mark and changed the status. */
  ghost predicate MarkChanges(es: seq<Event>, i: nat)
    requires i < |es|
  {
    !es[i].Update? && StatusAfter(es[..i]) != StatusAfter(es[..i + 1])
  }

  /** When the hysteresis period that the last event of a history meets began: at the
      latest earlier decision, or when the entry was made. */
  function PeriodStart(es: seq<Event>): Instant
    requires es != []
    decreases |es|, 0
  {
    if |es| == 1 then es[0].at.created else LastDecision(es[..|es| - 1])
  }

  predicate PeriodOver(es: seq<Event>)
    requires es != []
    decreases |es|, 1
  {
    PeriodStart(es) + HYSTERESIS_DURATION <= es[|es| - 1].at.decided
  }

  /** The last event is a mark that decides on the status, whether or not that changes it:
      a failure, unless it is below the fifth in a row and the tunnel is Critical; the
      third success in a row, or a later one, at Warning. */
  predicate Decides(es: seq<Event>)
    requires es != []
    decreases |es|, 2
  {
    var before := StatusAfter(es[..|es| - 1]);
    PeriodOver(es) &&
    match es[|es| - 1]
    case Update(_, _) => false
    case Failure(_) => Trailing(es, false) >= WARNING_TO_CRITICAL_FAILURES || before != Critical
    case Success(_, _) => Trailing(es, true) >= SUCCESS_TO_NORMAL && before == Warning
  }

  /** When the latest deciding mark of a history decided. */
  function LastDecision(es: seq<Event>): Instant
    requires es != []
    decreases |es|, 3
  {
    if Decides(es) then es[|es| - 1].at.decided else PeriodStart(es)
  }

  /** The entry's `last_transition` is the time of the latest decision. */
  lemma {:induction false} StampIsLastDecision(es: seq<Event>)
    requires es != []
    ensures Fold(es).value.lastTransition == LastDecision(es)
  {
    CountersAreTrailingRuns(es);
    var earlier := es[..|es| - 1];
    if earlier != [] {
      StampIsLastDecision(earlier);
    }
    var h := EntryOr(Fold(earlier), es[|es| - 1].at.created);
    assert PeriodOver(es) <==> Settled(h, es[|es| - 1].at.decided);
  }

  /** The status rule in terms of the history alone. Once the hysteresis period since the
      latest decision is over, a failure makes the tunnel Critical exactly if it is at
      least the fifth in a row, and otherwise Warning unless it is Critical; a success
      makes it Normal exactly if it is at least the third in a row and the tunnel is at
      Warning. Before that, and in every other case, a mark leaves the status alone. */
  lemma StatusFollowsHistory(es: seq<Event>)
    requires es != []
    ensures var before := StatusAfter(es[..|es| - 1]);
      StatusAfter(es) ==
        match es[|es| - 1]
        case Update(status, _) => status
        case Failure(_) =>
          if PeriodOver(es) && Trailing(es, false) >= WARNING_TO_CRITICAL_FAILURES then Critical
          else if PeriodOver(es) && before != Critical then Warning
          else before
        case Success(_, _) =>
          if PeriodOver(es) && before == Warning && Trailing(es, true) >= SUCCESS_TO_NORMAL then Normal else before
  {
    CountersAreTrailingRuns(es);
    if |es| > 1 {
      StampIsLastDecision(es[..|es| - 1]);
    }
  }

  /** In numbers: a mark makes a tunnel Critical exactly if it is at least the fifth failure in
      a row and falls ten seconds after the period began. */
  lemma CriticalExactly(es: seq<Event>)
    requires es != [] && !es[|es| - 1].Update? && StatusAfter(es[..|es| - 1]) != Critical
    ensures StatusAfter(es) == Critical <==>
      PeriodStart(es) + 10_000 <= es[|es| - 1].at.decided && Trailing(es, false) >= 5
  {
    StatusFollowsHistory(es);
  }

  /** And a mark makes a Warning tunnel Normal exactly if it is at least the third success in
      a row, after the same period. */
  lemma NormalExactly(es: seq<Event>)
    requires es != [] && !es[|es| - 1].Update? && StatusAfter(es[..|es| - 1]) == Warning
    ensures StatusAfter(es) == Normal <==>
      PeriodStart(es) + 10_000 <= es[|es| - 1].at.decided && Trailing(es, true) >= 3
  {
    StatusFollowsHistory(es);
  }

  /** A failure after a whole period that decides on the status the tunnel has already:
      Warning below the fifth in a row, Critical from the fifth on. */
  predicate Restamps(es: seq<Event>)
    requires es != []
  {
    var target := if Trailing(es, false) >= WARNING_TO_CRITICAL_FAILURES then Critical else Warning;
    es[|es| - 1].Failure? && PeriodOver(es) && StatusAfter(es[..|es| - 1]) == target
  }

  /** A health update to another status. */
  predicate Unstamped(es: seq<Event>)
    requires es != []
  {
    es[|es| - 1].Update? && es[|es| - 1].status != StatusAfter(es[..|es| - 1])
  }

  /** A mark moves the stamp of the last transition without a transition exactly if it
      restamps. */
  lemma StampsWithoutChange(es: seq<Event>)
    requires es != []
    ensures LastDecision(es) != PeriodStart(es) && StatusAfter(es) == StatusAfter(es[..|es| - 1]) <==> Restamps(es)
  {
    StatusFollowsHistory(es);
  }

  /** A transition leaves the stamp where it was exactly if a health update makes it. */
  lemma ChangesWithoutStamp(es: seq<Event>)
    requires es != []
    ensures LastDecision(es) == PeriodStart(es) && StatusAfter(es) != StatusAfter(es[..|es| - 1]) <==> Unstamped(es)
  {
    StatusFollowsHistory(es);
  }

  /** So an event moves an entry's `last_transition` exactly when it changes the status,
      unless it restamps or is an update that changes the status, and in no other case. */
  lemma StampMovesExactly(es: seq<Event>)
    requires |es| > 1
    ensures var earlier := es[..|es| - 1];
      (Fold(es).value.lastTransition != Fold(earlier).value.lastTransition <==> StatusAfter(es) != StatusAfter(earlier))
      <==> !Restamps(es) && !Unstamped(es)
  {
    StampIsLastDecision(es);
    StampIsLastDecision(es[..|es| - 1]);
    StampsWithoutChange(es);
    ChangesWithoutStamp(es);
  }

  /** The stamp can be later than the latest status change: after two failures, each a
      period after what came before, the tunnel went to Warning with the first but is
      stamped with the second. */
  lemma RestampedWarning(one: Readings, two: Readings, es: seq<Event>)
    requires es == [Failure(one), Failure(two)]
    requires one.created + HYSTERESIS_DURATION <= one.decided && one.decided + HYSTERESIS_DURATION <= two.decided
    ensures MarkChanges(es, 0) && !MarkChanges(es, 1) && StatusAfter(es) == Warning
    ensures Fold(es).value.lastTransition == two.decided > one.decided
  {
    assert es[..0] == [] && es[..1] == [Failure(one)] && es[..2] == es;
    assert Fold(es[..1]) == Some(AfterFailure(Default(one.created), one));
  }

  /** And it can be earlier: two health updates take the tunnel to Critical and back without
      a stamp, so a failure changes the status again however soon it follows them. */
  lemma UnstampedRecovery(first: Readings, down: Readings, up: Readings, fail: Readings, es: seq<Event>)
    requires es == [Success(None, first), Update(Critical, down), Update(Normal, up), Failure(fail)]
    requires first.created + HYSTERESIS_DURATION <= fail.decided
    ensures StatusAfter(es[..1]) == Normal && StatusAfter(es[..2]) == Critical && StatusAfter(es[..3]) == Normal
    ensures StatusAfter(es) == Warning
    ensures Fold(es[..3]).value.lastTransition == first.created == PeriodStart(es)
  {
    var h := AfterSuccess(Default(first.created), None, first);
    assert es[..1][..0] == [] && Fold(es[..1]) == Some(h);
    assert es[..2][..1] == es[..1] && Fold(es[..2]).value == h.(status := Critical, lastUpdate := down.updated);
    assert es[..3][..2] == es[..2] && Fold(es[..3]).value == h.(lastUpdate := up.updated);
    StampIsLastDecision(es[..3]);
    assert Fold(es).value == AfterFailure(h.(lastUpdate := up.updated), fail);
  }

  /** When the latest success, or failure, of a history was stamped. */
  function LatestMark(es: seq<Event>, success: bool): Option<Instant> {
    if es == [] then
      None
    else
      var e := es[|es| - 1];
      if (success && e.Success?) || (!success && e.Failure?) then Some(e.at.marked)
      else LatestMark(es[..|es| - 1], success)
  }

  /** The stamps are those of the latest event and of the latest mark of each kind. */
  lemma {:induction false} StampsAreLatest(es: seq<Event>)
    requires es != []
    ensures Fold(es).value.lastUpdate == es[|es| - 1].at.updated
    ensures Fold(es).value.lastSuccess == LatestMark(es, true)
    ensures Fold(es).value.lastFailure == LatestMark(es, false)
  {
    if |es| > 1 {
      StampsAreLatest(es[..|es| - 1]);
    }
  }

  /** Critical is left only by a health update, and only to Normal. */
  lemma OnlyUpdatesLeaveCritical(es: seq<Event>)
    requires es != [] && Genuine(es[|es| - 1])
    requires StatusAfter(es[..|es| - 1]).Critical? && !StatusAfter(es).Critical?
    ensures es[|es| - 1].Update? && StatusAfter(es).Normal?
  {
  }

  /** The transition stamp is at least as late as every status change made by a mark, and
      each such change came a full hysteresis period after the entry was made. */
  lemma {:induction false} TransitionStamp(es: seq<Event>, i: nat)
    requires i < |es| && MarkChanges(es, i)
    ensures es[i].at.decided <= Fold(es).value.lastTransition
    ensures es[0].at.created + HYSTERESIS_DURATION <= es[i].at.decided
    decreases |es|
  {
    StampNeverFalls(es);
    var earlier := es[..|es| - 1];
    if i == |es| - 1 {
      assert es[..i + 1] == es;
      if earlier != [] {
        StampNeverFalls(earlier);
      }
    } else {
      assert earlier[..i] == es[..i] && earlier[..i + 1] == es[..i + 1];
      TransitionStamp(earlier, i);
    }
  }

  lemma {:induction false} StampNeverFalls(es: seq<Event>)
    requires es != []
    ensures es[0].at.created <= Fold(es).value.lastTransition
    ensures |es| > 1 ==> Fold(es[..|es| - 1]).value.lastTransition <= Fold(es).value.lastTransition
  {
    if |es| > 1 {
      StampNeverFalls(es[..|es| - 1]);
    }
  }

  /** Hysteresis over a whole history: whatever happens in between, two status changes
      that marks make to one tunnel are at least ten seconds apart. */
  lemma {:induction false} ChangesAreApart(es: seq<Event>, i: nat, j: nat)
    requires i < j < |es| && MarkChanges(es, i) && MarkChanges(es, j)
    ensures es[i].at.decided + 10_000 <= es[j].at.decided
  {
    var before := es[..j];
    assert before[..i] == es[..i] && before[..i + 1] == es[..i + 1];
    TransitionStamp(before, i);
    assert es[..j + 1][..j] == before;
  }

  /** The first failure of an unknown tunnel makes it Warning only if a whole hysteresis
      period passed between making the entry and deciding, within the one call. */
  lemma FirstFailure(at: Readings)
    ensures StatusAfter([Failure(at)]).Warning? <==> at.created + 10_000 <= at.decided
    ensures !StatusAfter([Failure(at)]).Critical?
  {
    var es := [Failure(at)];
    assert es[..0] == [];
    assert Fold(es) == Some(AfterFailure(Default(at.created), at));
  }

  // ----- Averages -----

  function Pow(x: real, n: nat): real {
    if n == 0 then 1.0 else x * Pow(x, n - 1)
  }

  /** The error rate that a history makes of a starting rate. */
  function RateAfter(rate: real, es: seq<Event>): real {
    if es == [] then
      rate
    else
      var earlier := RateAfter(rate, es[..|es| - 1]);
      match es[|es| - 1]
      case Success(_, _) => Max0(earlier * 0.9)
      case Failure(_) => earlier * 0.8 + 0.2
      case Update(_, _) => earlier
  }

  lemma {:induction false} RateOfEntry(es: seq<Event>)
    ensures es != [] ==> Fold(es).value.errorRate == RateAfter(0.0, es)
  {
    if es != [] {
      RateOfEntry(es[..|es| - 1]);
    }
  }

  /** An error rate never leaves [0, 1). */
  lemma {:induction false} RateStaysBelowOne(rate: real, es: seq<Event>)
    requires 0.0 <= rate < 1.0
    ensures 0.0 <= RateAfter(rate, es) < 1.0
  {
    if es != [] {
      RateStaysBelowOne(rate, es[..|es| - 1]);
    }
  }

  lemma {:induction false} RateAfterFailures(rate: real, es: seq<Event>)
    requires forall e :: e in es ==> e.Failure?
    ensures RateAfter(rate, es) == 1.0 - (1.0 - rate) * Pow(0.8, |es|)
  {
    if es != [] {
      RateAfterFailures(rate, es[..|es| - 1]);
      assert es[|es| - 1] in es;
    }
  }

  lemma {:induction false} RateAfterSuccesses(rate: real, es: seq<Event>)
    requires 0.0 <= rate && forall e :: e in es ==> e.Success?
    ensures RateAfter(rate, es) == rate * Pow(0.9, |es|) >= 0.0
  {
    if es != [] {
      RateAfterSuccesses(rate, es[..|es| - 1]);
      assert es[|es| - 1] in es;
    }
  }

  /** Turning successes of a history into failures never lowers the error rate. */
  lemma {:induction false} FailuresNeverHelp(low: real, high: real, es: seq<Event>, worse: seq<Event>)
    requires 0.0 <= low <= high < 1.0
    requires |es| == |worse|
    requires forall i :: 0 <= i < |es| ==> es[i] == worse[i] || (es[i].Success? && worse[i].Failure?)
    ensures RateAfter(low, es) <= RateAfter(high, worse)
  {
    if es != [] {
      var n := |es| - 1;
      FailuresNeverHelp(low, high, es[..n], worse[..n]);
      RateStaysBelowOne(low, es[..n]);
      RateStaysBelowOne(high, worse[..n]);
    }
  }

  /** The latencies a history reports, oldest first. */
  function Samples(es: seq<Event>): seq<real> {
    if es == [] then
      []
    else
      var e := es[|es| - 1];
      Samples(es[..|es| - 1]) + if e.Success? && e.latency.Some? then [e.latency.value] else []
  }

  /** The weight of each of `n` samples: fading by 0.8, the newest counting 0.2. */
  function Weights(n: nat): (w: seq<real>)
    requires n > 0
    ensures |w| == n
  {
    if n == 1 then [1.0] else Faded(Weights(n - 1)) + [0.2]
  }

  function Faded(w: seq<real>): (r: seq<real>)
    ensures |r| == |w| && forall i :: 0 <= i < |w| ==> r[i] == 0.8 * w[i]
  {
    seq(|w|, i requires 0 <= i < |w| => 0.8 * w[i])
  }

  function Sum(w: seq<real>): real {
    if w == [] then 0.0 else Sum(w[..|w| - 1]) + w[|w| - 1]
  }

  function Dot(w: seq<real>, x: seq<real>): real
    requires |w| == |x|
  {
    if w == [] then 0.0 else Dot(w[..|w| - 1], x[..|x| - 1]) + w[|w| - 1] * x[|x| - 1]
  }

  lemma {:induction false} SumFaded(w: seq<real>)
    ensures Sum(Faded(w)) == 0.8 * Sum(w)
  {
    if w != [] {
      var n := |w| - 1;
      SumFaded(w[..n]);
      assert Faded(w)[..n] == Faded(w[..n]);
    }
  }

  lemma {:induction false} DotFaded(w: seq<real>, x: seq<real>)
    requires |w| == |x|
    ensures Dot(Faded(w), x) == 0.8 * Dot(w, x)
  {
    if w != [] {
      var n := |w| - 1;
      DotFaded(w[..n], x[..n]);
      assert Faded(w)[..n] == Faded(w[..n]);
      assert (0.8 * w[n]) * x[n] == 0.8 * (w[n] * x[n]);
    }
  }

  lemma {:induction false} WeightsAreConvex(n: nat)
    requires n > 0
    ensures forall i :: 0 <= i < n ==> Weights(n)[i] > 0.0
    ensures Sum(Weights(n)) == 1.0
  {
    if n == 1 {
      assert Sum([1.0][..0]) == 0.0;
    } else {
      WeightsAreConvex(n - 1);
      SumFaded(Weights(n - 1));
      assert Weights(n)[..n - 1] == Faded(Weights(n - 1));
    }
  }

  /** The rolling average of the latencies in the order they came. */
  function Average(s: seq<real>): real
    requires s != []
  {
    if |s| == 1 then s[0] else Average(s[..|s| - 1]) * 0.8 + s[|s| - 1] * 0.2
  }

  lemma {:induction false} LatencyIsAverage(es: seq<Event>)
    requires es != []
    ensures Fold(es).value.avgLatencyMs == if Samples(es) == [] then None else Some(Average(Samples(es)))
  {
    var earlier := es[..|es| - 1];
    if earlier != [] {
      LatencyIsAverage(earlier);
    }
    var s := Samples(earlier);
    var e := es[|es| - 1];
    if e.Success? && e.latency.Some? {
      assert (s + [e.latency.value])[..|s|] == s;
    } else {
      assert Samples(es) == s;
    }
  }

  lemma {:induction false} AverageIsWeighted(s: seq<real>)
    requires s != []
    ensures Average(s) == Dot(Weights(|s|), s)
  {
    var n := |s| - 1;
    if n == 0 {
      assert Dot([1.0][..0], s[..0]) == 0.0;
    } else {
      AverageIsWeighted(s[..n]);
      DotFaded(Weights(n), s[..n]);
      assert Weights(|s|)[..n] == Faded(Weights(n));
    }
  }

  /** The average latency is a convex combination of all the latencies reported: their
      sum with positive weights that add up to one. */
  lemma LatencyIsConvexCombination(es: seq<Event>)
    requires es != [] && Samples(es) != []
    ensures var w := Weights(|Samples(es)|);
      && Fold(es).value.avgLatencyMs == Some(Dot(w, Samples(es)))
      && Sum(w) == 1.0
      && forall i :: 0 <= i < |w| ==> w[i] > 0.0
  {
    LatencyIsAverage(es);
    AverageIsWeighted(Samples(es));
    WeightsAreConvex(|Samples(es)|);
  }

  lemma {:induction false} AverageWithin(s: seq<real>, lo: real, hi: real)
    requires s != [] && forall i :: 0 <= i < |s| ==> lo <= s[i] <= hi
    ensures lo <= Average(s) <= hi
  {
    if |s| > 1 {
      AverageWithin(s[..|s| - 1], lo, hi);
    }
  }

  /** It lies between the smallest and the largest latency reported. */
  lemma LatencyWithinSamples(es: seq<Event>, lo: real, hi: real)
    requires Samples(es) != [] && forall x :: x in Samples(es) ==> lo <= x <= hi
    ensures es != [] && Fold(es).value.avgLatencyMs.Some? && lo <= Fold(es).value.avgLatencyMs.value <= hi
  {
    LatencyIsAverage(es);
    assert forall i :: 0 <= i < |Samples(es)| ==> Samples(es)[i] in Samples(es);
    AverageWithin(Samples(es), lo, hi);
  }
}
