/** Choosing a tunnel for a request, as `proxy.rs` does from what it reads of the
    registered tunnels and their health. */
module Routing {
  import opened Basics
  import opened Health

  const STALE_THRESHOLD: nat := 30_000
  const DASH: Byte := 45
  const DOT: Byte := 46

  datatype Ordering = Less | Equal | Greater

  function ThenWith(a: Ordering, b: Ordering): Ordering {
    if a.Equal? then b else a
  }

  function Cmp(x: real, y: real): Ordering {
    if x < y then Less else if x > y then Greater else Equal
  }

  function StatusRank(h: Option<TunnelHealth>): real {
    match h
    case None => 1.0
    case Some(t) =>
      match t.status
      case Normal => 0.0
      case Warning => 1.0
      case Critical => 2.0
  }

  function ErrorKey(h: Option<TunnelHealth>): real {
    if h.Some? then h.value.errorRate else 0.5
  }

  function LatencyKey(h: Option<TunnelHealth>): real {
    if h.Some? && h.value.avgLatencyMs.Some? then h.value.avgLatencyMs.value else 9999.0
  }

  /** Status first, then error rate, then latency. */
  function Compare(a: Option<TunnelHealth>, b: Option<TunnelHealth>): Ordering {
    ThenWith(ThenWith(Cmp(StatusRank(a), StatusRank(b)), Cmp(ErrorKey(a), ErrorKey(b))),
             Cmp(LatencyKey(a), LatencyKey(b)))
  }

  /** What an unknown tunnel counts as. */
  const UNKNOWN: TunnelHealth :=
    Default(0).(status := Warning, errorRate := 0.5, avgLatencyMs := Some(9999.0))

  function Known(h: Option<TunnelHealth>): TunnelHealth {
    if h.Some? then h.value else UNKNOWN
  }

  /** One status is healthier than another. */
  predicate Healthier(a: HealthStatus, b: HealthStatus) {
    (a == Normal && b != Normal) || (a == Warning && b == Critical)
  }

  predicate Faster(a: TunnelHealth, b: TunnelHealth) {
    (if a.avgLatencyMs.Some? then a.avgLatencyMs.value else 9999.0)
    < (if b.avgLatencyMs.Some? then b.avgLatencyMs.value else 9999.0)
  }

  /** A tunnel is better exactly if its status is healthier, or that is equal and its error
      rate is lower, or both are equal and its latency is lower; a tunnel nothing is
      known of counts as Warning with error rate 0.5 and latency 9999. */
  lemma CompareIsLexicographic(a: Option<TunnelHealth>, b: Option<TunnelHealth>)
    ensures var x, y := Known(a), Known(b);
      Compare(a, b) == Less <==>
        || Healthier(x.status, y.status)
        || (x.status == y.status && x.errorRate < y.errorRate)
        || (x.status == y.status && x.errorRate == y.errorRate && Faster(x, y))
  {
  }

  /** The comparator is a total preorder, which sorting relies on. */
  lemma CompareIsTotalPreorder(a: Option<TunnelHealth>, b: Option<TunnelHealth>, c: Option<TunnelHealth>)
    ensures Compare(a, a) == Equal
    ensures Compare(a, b) == Less <==> Compare(b, a) == Greater
    ensures Compare(a, b) != Greater && Compare(b, c) != Greater ==> Compare(a, c) != Greater
    ensures Compare(a, b) == Equal && Compare(b, c) == Equal ==> Compare(a, c) == Equal
  {
  }

  // ----- Sorting the candidates -----

  ghost predicate Sorted(ids: seq<Bytes>, health: map<Bytes, TunnelHealth>) {
    forall i, j :: 0 <= i < j < |ids| ==> Compare(Get(health, ids[i]), Get(health, ids[j])) != Greater
  }

  /** Puts `id` in front of the first candidate that is no better. */
  function Placed(id: Bytes, ids: seq<Bytes>, health: map<Bytes, TunnelHealth>): (r: seq<Bytes>)
    ensures multiset(r) == multiset(ids) + multiset{id}
  {
    if ids == [] then
      [id]
    else if Compare(Get(health, id), Get(health, ids[0])) != Greater then
      [id] + ids
    else
      assert ids == [ids[0]] + ids[1..];
      [ids[0]] + Placed(id, ids[1..], health)
  }

  lemma {:induction false} PlacedIsSorted(id: Bytes, ids: seq<Bytes>, health: map<Bytes, TunnelHealth>)
    requires Sorted(ids, health)
    ensures Sorted(Placed(id, ids, health), health)
  {
    if ids != [] {
      var x, y := Get(health, id), Get(health, ids[0]);
      CompareIsTotalPreorder(x, y, x);
      if Compare(x, y) != Greater {
        forall j | 0 <= j < |ids| ensures Compare(x, Get(health, ids[j])) != Greater {
          CompareIsTotalPreorder(x, y, Get(health, ids[j]));
        }
      } else {
        PlacedIsSorted(id, ids[1..], health);
        var rest := Placed(id, ids[1..], health);
        forall j | 0 <= j < |rest| ensures Compare(y, Get(health, rest[j])) != Greater {
          assert rest[j] in multiset(rest);
          assert rest[j] == id || rest[j] in ids[1..];
        }
      }
    }
  }

  function IfPeer(h: Option<TunnelHealth>, id: Bytes, health: map<Bytes, TunnelHealth>): seq<Bytes> {
    if Compare(h, Get(health, id)) == Equal then [id] else []
  }

  /** The candidates that rank the same as `h`, in the order they are listed. */
  function Peers(h: Option<TunnelHealth>, ids: seq<Bytes>, health: map<Bytes, TunnelHealth>): seq<Bytes> {
    if ids == [] then []
    else IfPeer(h, ids[0], health) + Peers(h, ids[1..], health)
  }

  /** Peers rank the same. */
  lemma PeersAreEqual(h: Option<TunnelHealth>, x: Bytes, y: Bytes, health: map<Bytes, TunnelHealth>)
    requires Compare(Get(health, x), Get(health, y)) == Greater
    ensures IfPeer(h, x, health) == [] || IfPeer(h, y, health) == []
  {
  }

  lemma EmptyCommutes<T>(a: seq<T>, b: seq<T>, rest: seq<T>)
    requires a == [] || b == []
    ensures a + (b + rest) == b + (a + rest)
  {
  }

  /** What is placed goes in front of its peers and leaves the rest in order. */
  lemma {:induction false} PlacedBeforePeers(h: Option<TunnelHealth>, id: Bytes, ids: seq<Bytes>,
                                             health: map<Bytes, TunnelHealth>)
    ensures Peers(h, Placed(id, ids, health), health) == IfPeer(h, id, health) + Peers(h, ids, health)
  {
    var r := Placed(id, ids, health);
    if ids == [] || Compare(Get(health, id), Get(health, ids[0])) != Greater {
      assert r[0] == id && r[1..] == ids;
    } else {
      assert r[0] == ids[0] && r[1..] == Placed(id, ids[1..], health);
      PlacedBeforePeers(h, id, ids[1..], health);
      PeersAreEqual(h, id, ids[0], health);
      EmptyCommutes(IfPeer(h, ids[0], health), IfPeer(h, id, health), Peers(h, ids[1..], health));
    }
  }

  /** Stands in for the standard library's stable `sort_by`: the same candidates, in order,
      and those that rank the same as they were listed. */
  function SortBy(ids: seq<Bytes>, health: map<Bytes, TunnelHealth>): (r: seq<Bytes>)
    ensures Sorted(r, health) && multiset(r) == multiset(ids)
    ensures forall h :: Peers(h, r, health) == Peers(h, ids, health)
  {
    if ids == [] then
      []
    else
      var rest := SortBy(ids[1..], health);
      assert ids == [ids[0]] + ids[1..];
      PlacedIsSorted(ids[0], rest, health);
      assert forall h :: Peers(h, Placed(ids[0], rest, health), health) == Peers(h, ids, health) by {
        forall h ensures Peers(h, Placed(ids[0], rest, health), health) == Peers(h, ids, health) {
          PlacedBeforePeers(h, ids[0], rest, health);
        }
      }
      Placed(ids[0], rest, health)
  }

  /** `id` is the logical name itself or one of its instances. */
  predicate Matches(id: Bytes, subdomain: Bytes) {
    id == subdomain || subdomain + [DASH] <= id
  }

  /** An instance is named by a dash and anything after the logical name, and by nothing
      else: the byte that follows the name must be a dash. */
  lemma MatchesExactly(id: Bytes, subdomain: Bytes)
    ensures Matches(id, subdomain) <==>
      |id| >= |subdomain| && id[..|subdomain|] == subdomain && (|id| == |subdomain| || id[|subdomain|] == '-' as int)
  {
    if subdomain + [DASH] <= id {
      assert (subdomain + [DASH])[|subdomain|] == DASH;
      assert id[..|subdomain|] == (subdomain + [DASH])[..|subdomain|];
    }
    if |id| > |subdomain| && id[..|subdomain|] == subdomain && id[|subdomain|] == DASH {
      assert id[..|subdomain| + 1] == subdomain + [DASH];
    }
  }

  /** A registered match that no other registered match beats. */
  ghost predicate LeastMatch<Tx>(id: Bytes, tunnels: map<Bytes, Tx>, health: map<Bytes, TunnelHealth>,
                                 subdomain: Bytes) {
    && id in tunnels && Matches(id, subdomain)
    && forall k :: k in tunnels && Matches(k, subdomain) ==> Compare(Get(health, id), Get(health, k)) != Greater
  }

  /** No healthier status; nor, with the same status, a lower error rate; nor, with both
      the same, a lower latency. */
  predicate NoBetter(other: TunnelHealth, chosen: TunnelHealth) {
    && !Healthier(other.status, chosen.status)
    && (other.status == chosen.status ==> other.errorRate >= chosen.errorRate)
    && (other.status == chosen.status && other.errorRate == chosen.errorRate ==> !Faster(other, chosen))
  }

  lemma NotGreaterIsNoBetter(chosen: Option<TunnelHealth>, other: Option<TunnelHealth>)
    requires Compare(chosen, other) != Greater
    ensures NoBetter(Known(other), Known(chosen))
  {
    CompareIsTotalPreorder(chosen, other, None);
    CompareIsLexicographic(other, chosen);
  }

  lemma LeastIsBest<Tx>(id: Bytes, tunnels: map<Bytes, Tx>, health: map<Bytes, TunnelHealth>, subdomain: Bytes)
    requires LeastMatch(id, tunnels, health, subdomain)
    ensures forall k :: k in tunnels && Matches(k, subdomain) ==>
      NoBetter(Known(Get(health, k)), Known(Get(health, id)))
  {
    forall k | k in tunnels && Matches(k, subdomain)
      ensures NoBetter(Known(Get(health, k)), Known(Get(health, id)))
    {
      NotGreaterIsNoBetter(Get(health, id), Get(health, k));
    }
  }

  method ChooseBestTunnel<Tx>(tunnels: map<Bytes, Tx>, health: map<Bytes, TunnelHealth>, subdomain: Bytes)
    returns (r: Option<(Bytes, Tx)>)
    ensures r.None? <==> forall k :: k in tunnels ==> !Matches(k, subdomain)
    ensures r.Some? ==> LeastMatch(r.value.0, tunnels, health, subdomain) && r.value.1 == tunnels[r.value.0]
    ensures r.Some? ==> forall k :: k in tunnels && Matches(k, subdomain) ==>
      NoBetter(Known(Get(health, k)), Known(Get(health, r.value.0)))
  {
    var candidates := [];
    var todo := tunnels.Keys;
    while todo != {}
      invariant todo <= tunnels.Keys
      invariant forall k :: k in candidates <==> k in tunnels.Keys - todo && Matches(k, subdomain)
    {
      var k :| k in todo;
      if Matches(k, subdomain) {
        candidates := candidates + [k];
      }
      todo := todo - {k};
    }
    if candidates == [] {
      return None;
    }
    var sorted := SortBy(candidates, health);
    assert forall k :: k in candidates <==> k in multiset(sorted);
    assert candidates[0] in multiset(sorted);
    for i := 0 to |sorted|
      invariant i == 0
    {
      assert sorted[i] in multiset(sorted);
      if sorted[i] in tunnels {
        FirstIsLeast(sorted, health);
        LeastIsBest(sorted[i], tunnels, health, subdomain);
        return Some((sorted[i], tunnels[sorted[i]]));
      }
    }
    r := None;
  }

  lemma FirstIsLeast(sorted: seq<Bytes>, health: map<Bytes, TunnelHealth>)
    requires sorted != [] && Sorted(sorted, health)
    ensures forall k :: k in sorted ==> Compare(Get(health, sorted[0]), Get(health, k)) != Greater
  {
  }

  /** If every match is Critical one of them is still chosen; otherwise a Critical one
      never is. */
  lemma CriticalOnlyIfAllAre<Tx>(id: Bytes, tunnels: map<Bytes, Tx>, health: map<Bytes, TunnelHealth>, subdomain: Bytes)
    requires LeastMatch(id, tunnels, health, subdomain)
    ensures StatusRank(Get(health, id)) == 2.0 <==>
      forall k :: k in tunnels && Matches(k, subdomain) ==> StatusRank(Get(health, k)) == 2.0
  {
  }

  /** Such a choice: a Critical tunnel that is the only match is what is chosen. */
  lemma CriticalIsChosen(tunnels: map<Bytes, ()>, health: map<Bytes, TunnelHealth>, a: Bytes, b: Bytes, id: Bytes)
    requires a != b && !Matches(b, a)
    requires tunnels == map[a := (), b := ()]
    requires health == map[a := Default(0).(status := Critical), b := Default(0)]
    ensures LeastMatch(id, tunnels, health, a) <==> id == a
    ensures health[a].status == Critical
  {
  }

  // ----- The routing decision -----

  datatype Route = ViaTunnel(id: Bytes) | Cloud

  predicate Stale(h: Option<TunnelHealth>, now: Instant) {
    h.Some? && Since(now, h.value.lastUpdate) >= STALE_THRESHOLD
  }

  predicate IsCritical(h: Option<TunnelHealth>) {
    h.Some? && h.value.status.Critical?
  }

  /** An unknown tunnel is given the benefit of the doubt. */
  predicate Healthy(h: Option<TunnelHealth>, now: Instant) {
    !IsCritical(h) && !Stale(h, now)
  }

  /** Healthy is what is not Critical and was updated less than thirty seconds ago. */
  lemma HealthyExactly(h: Option<TunnelHealth>, now: Instant)
    ensures Healthy(h, now) <==>
      h == None || (h.value.status in {Normal, Warning} && now < h.value.lastUpdate + 30_000)
  {
  }

  /** The cookie names a registered and healthy tunnel. */
  predicate UsableCookie<Tx>(cookie: Option<Bytes>, tunnels: map<Bytes, Tx>, health: map<Bytes, TunnelHealth>,
                             now: Instant) {
    cookie.Some? && cookie.value in tunnels && Healthy(Get(health, cookie.value), now)
  }

  /** What one request reads. The two shared maps may change between its awaits: it reads
      them once for the cookie, once together for the ranking, and the health map once more
      for the tunnel it chose. */
  datatype Reads<Tx> = Reads(
    cookieTunnels: map<Bytes, Tx>,
    cookieHealth: map<Bytes, TunnelHealth>,
    cookieAt: Instant,
    tunnels: map<Bytes, Tx>,
    health: map<Bytes, TunnelHealth>,
    chosenHealth: map<Bytes, TunnelHealth>,
    chosenAt: Instant)

  /** A request during which nothing changes. */
  function Still<Tx>(tunnels: map<Bytes, Tx>, health: map<Bytes, TunnelHealth>, now: Instant): Reads<Tx> {
    Reads(tunnels, health, now, tunnels, health, health, now)
  }

  /** The routes the handler may take; ties between matches are broken by the order the
      hash map happens to list them in. */
  ghost predicate MayRoute<Tx>(route: Route, s: Reads<Tx>, subdomain: Bytes, cookie: Option<Bytes>) {
    if UsableCookie(cookie, s.cookieTunnels, s.cookieHealth, s.cookieAt) then
      route == ViaTunnel(cookie.value)
    else
      match route
      case ViaTunnel(id) =>
        LeastMatch(id, s.tunnels, s.health, subdomain) && Healthy(Get(s.chosenHealth, id), s.chosenAt)
      case Cloud =>
        || (forall k :: k in s.tunnels ==> !Matches(k, subdomain))
        || exists id :: LeastMatch(id, s.tunnels, s.health, subdomain) && !Healthy(Get(s.chosenHealth, id), s.chosenAt)
  }

  /** The part of a host name before its first dot. */
  method SubdomainOf(host: Bytes) returns (subdomain: Bytes)
    ensures subdomain <= host && '.' as int !in subdomain
    ensures subdomain == host || host[|subdomain|] == '.' as int
  {
    var n := 0;
    while n < |host| && host[n] != DOT
      invariant 0 <= n <= |host| && DOT !in host[..n]
    {
      n := n + 1;
    }
    subdomain := host[..n];
  }

  /** The choice made by `proxy_handler`, whatever changes between its reads. */
  method RouteRequest<Tx>(s: Reads<Tx>, subdomain: Bytes, cookie: Option<Bytes>) returns (route: Route)
    ensures MayRoute(route, s, subdomain, cookie)
  {
    if cookie.Some? && cookie.value in s.cookieTunnels {
      if Healthy(Get(s.cookieHealth, cookie.value), s.cookieAt) {
        return ViaTunnel(cookie.value);
      }
    }
    var best := ChooseBestTunnel(s.tunnels, s.health, subdomain);
    if best.Some? {
      if Healthy(Get(s.chosenHealth, best.value.0), s.chosenAt) {
        return ViaTunnel(best.value.0);
      }
    }
    route := Cloud;
  }

  /** A request goes through a tunnel only if that tunnel was registered when it was looked
      up and healthy when its health was checked; and a request for which some tunnel
      matches goes to the cloud only if a tunnel that ranked first was not healthy when
      checked. */
  lemma RouteIsJustified<Tx>(route: Route, s: Reads<Tx>, subdomain: Bytes, cookie: Option<Bytes>, k: Bytes)
    requires MayRoute(route, s, subdomain, cookie)
    ensures route.ViaTunnel? ==>
      || (cookie == Some(route.id) && route.id in s.cookieTunnels && Healthy(Get(s.cookieHealth, route.id), s.cookieAt))
      || (route.id in s.tunnels && Matches(route.id, subdomain) && Healthy(Get(s.chosenHealth, route.id), s.chosenAt))
    ensures route.Cloud? && k in s.tunnels && Matches(k, subdomain) ==>
      exists id :: id in s.tunnels && Matches(id, subdomain) && !Healthy(Get(s.chosenHealth, id), s.chosenAt)
                   && Compare(Get(s.health, id), Get(s.health, k)) != Greater
  {
  }

  /** A visitor sticks to the tunnel of its cookie exactly as long as that is registered and
      healthy, however it ranks; the cookie counts for nothing otherwise. */
  lemma CookieSticks<Tx>(route: Route, s: Reads<Tx>, subdomain: Bytes, id: Bytes)
    requires MayRoute(route, s, subdomain, Some(id))
    ensures id in s.cookieTunnels
            && (id in s.cookieHealth ==>
                  s.cookieHealth[id].status != Critical && s.cookieAt < s.cookieHealth[id].lastUpdate + 30_000)
            ==> route == ViaTunnel(id)
    ensures !UsableCookie(Some(id), s.cookieTunnels, s.cookieHealth, s.cookieAt) ==> MayRoute(route, s, subdomain, None)
  {
  }

  /** When nothing changes during a request: with no usable cookie and no stale match, it
      goes to the cloud exactly when every match is Critical, or there is none. */
  lemma CloudExactlyWhenAllCritical<Tx>(route: Route, tunnels: map<Bytes, Tx>, health: map<Bytes, TunnelHealth>,
                                        subdomain: Bytes, cookie: Option<Bytes>, now: Instant)
    requires MayRoute(route, Still(tunnels, health, now), subdomain, cookie)
    requires !UsableCookie(cookie, tunnels, health, now)
    requires forall k :: k in tunnels && Matches(k, subdomain) ==> !Stale(Get(health, k), now)
    ensures route == Cloud <==> forall k :: k in tunnels && Matches(k, subdomain) ==> IsCritical(Get(health, k))
  {
  }

  /** With a healthy match to offer and no usable cookie, a request is still sent to the
      cloud exactly when some least match, by status, error rate and latency, is stale:
      the ranking itself does not look at staleness. */
  lemma CloudDespiteHealthyMatch<Tx>(tunnels: map<Bytes, Tx>, health: map<Bytes, TunnelHealth>, subdomain: Bytes,
                                     cookie: Option<Bytes>, now: Instant, good: Bytes)
    requires !UsableCookie(cookie, tunnels, health, now)
    requires good in tunnels && Matches(good, subdomain) && Healthy(Get(health, good), now)
    ensures MayRoute(Cloud, Still(tunnels, health, now), subdomain, cookie) <==>
      exists id :: LeastMatch(id, tunnels, health, subdomain) && Stale(Get(health, id), now)
  {
  }

  /** Such a request: a stale Normal tunnel outranks a fresh Warning one and the request
      can only go to the cloud. */
  lemma StaleFavourite(tunnels: map<Bytes, ()>, health: map<Bytes, TunnelHealth>, a: Bytes, b: Bytes, now: Instant,
                       route: Route)
    requires a != b && Matches(a, []) && Matches(b, [])
    requires tunnels == map[a := (), b := ()]
    requires health == map[a := Default(0), b := Default(now).(status := Warning)]
    requires now >= STALE_THRESHOLD
    requires MayRoute(route, Still(tunnels, health, now), [], None)
    ensures Healthy(Get(health, b), now) && route == Cloud
  {
  }
}
