/** Hot reload: `config_watcher.rs` turns two versions of the configuration into change
    events, and the server and the client replay the events on their tables. */
module Reload {
  import opened Basics
  import opened Configs
  import opened MultiMaps

  datatype ServiceChange<S> = Add(cfg: S) | Delete(name: Bytes)

  datatype ConfigChange =
    | General(config: Config)
    | ServerChange(server: ServiceChange<ServerServiceConfig>)
    | ClientChange(client: ServiceChange<ClientServiceConfig>)

  // ----- Edits of a table, whatever its keys -----

  datatype Edit<K, V> = Put(key: K, value: V) | Erase(key: K)

  function ApplyEdit<K, V>(m: map<K, V>, e: Edit<K, V>): map<K, V> {
    match e
    case Put(k, v) => m[k := v]
    case Erase(k) => m - {k}
  }

  function ApplyEdits<K, V>(m: map<K, V>, es: seq<Edit<K, V>>): map<K, V>
    decreases |es|
  {
    if es == [] then m else ApplyEdits(ApplyEdit(m, es[0]), es[1..])
  }

  /** `es` holds exactly the edits that differ between `old` and `new`, in any order. */
  ghost predicate Describes<K, V>(es: seq<Edit<K, V>>, old_: map<K, V>, new_: map<K, V>) {
    && (forall k :: k in old_ && k !in new_ ==> Erase(k) in es)
    && (forall k :: k in new_ && Get(old_, k) != Some(new_[k]) ==> Put(k, new_[k]) in es)
    && (forall e :: e in es ==> Belongs(e, old_, new_))
  }

  ghost predicate Belongs<K, V>(e: Edit<K, V>, old_: map<K, V>, new_: map<K, V>) {
    match e
    case Erase(k) => k in old_ && k !in new_
    case Put(k, v) => k in new_ && v == new_[k] && Get(old_, k) != Some(v)
  }

  /** Looking at one key: an edit of that key decides it if all its edits agree, and
      without one it keeps its value. */
  lemma {:induction false} EditsAtKey<K, V>(m: map<K, V>, es: seq<Edit<K, V>>, k: K, goal: Option<V>)
    requires forall e :: e in es && e.key == k ==> Get(ApplyEdit(m, e), k) == goal
    ensures (exists e :: e in es && e.key == k) ==> Get(ApplyEdits(m, es), k) == goal
    ensures (forall e :: e in es ==> e.key != k) ==> Get(ApplyEdits(m, es), k) == Get(m, k)
    decreases |es|
  {
    if es != [] {
      var m' := ApplyEdit(m, es[0]);
      forall e | e in es[1..] && e.key == k ensures Get(ApplyEdit(m', e), k) == goal {
        assert Get(ApplyEdit(m', e), k) == Get(ApplyEdit(m, e), k);
      }
      EditsAtKey(m', es[1..], k, goal);
      assert forall e :: e in es <==> e == es[0] || e in es[1..];
    }
  }

  lemma SameLookups<K, V>(a: map<K, V>, b: map<K, V>)
    requires forall k :: Get(a, k) == Get(b, k)
    ensures a == b
  {
    forall k | k in a.Keys ensures k in b.Keys && a[k] == b[k] {
      assert Get(a, k) == Get(b, k);
    }
    forall k | k in b.Keys ensures k in a.Keys {
      assert Get(a, k) == Get(b, k);
    }
    assert a.Keys == b.Keys;
  }

  /** A diff replayed in any order turns the old table into the new one. */
  lemma DiffReachesTarget<K, V>(es: seq<Edit<K, V>>, old_: map<K, V>, new_: map<K, V>)
    requires Describes(es, old_, new_)
    ensures ApplyEdits(old_, es) == new_
  {
    var r := ApplyEdits(old_, es);
    forall k ensures Get(r, k) == Get(new_, k) {
      EditsAtKey(old_, es, k, Get(new_, k));
    }
    SameLookups(r, new_);
  }

  // ----- Computing the events -----

  /** Some order in which a hash map may hand out its keys. */
  ghost predicate IsOrder<S>(order: seq<Bytes>, m: map<Bytes, S>) {
    forall n :: n in order <==> n in m
  }

  function Deletions<S>(order: seq<Bytes>, new_: map<Bytes, S>): seq<ServiceChange<S>> {
    if order == [] then
      []
    else
      (if order[0] in new_ then [] else [Delete(order[0])]) + Deletions(order[1..], new_)
  }

  function Additions<S(==)>(order: seq<Bytes>, old_: map<Bytes, S>, new_: map<Bytes, S>): seq<ServiceChange<S>>
    requires forall n :: n in order ==> n in new_
  {
    if order == [] then
      []
    else
      (if Get(old_, order[0]) != Some(new_[order[0]]) then [Add(new_[order[0]])] else [])
      + Additions(order[1..], old_, new_)
  }

  /** `calculate_instance_config_events` once the rest of the section is known equal:
      deletions, then additions, each in the order its map was iterated in. */
  function InstanceEvents<S(==)>(oldOrder: seq<Bytes>, newOrder: seq<Bytes>, old_: map<Bytes, S>, new_: map<Bytes, S>)
    : seq<ServiceChange<S>>
    requires forall n :: n in newOrder ==> n in new_
  {
    Deletions(oldOrder, new_) + Additions(newOrder, old_, new_)
  }

  lemma {:induction false} DeletionsExactly<S>(order: seq<Bytes>, new_: map<Bytes, S>, c: ServiceChange<S>)
    ensures c in Deletions(order, new_) <==> c.Delete? && c.name in order && c.name !in new_
  {
    if order != [] {
      DeletionsExactly(order[1..], new_, c);
    }
  }

  lemma {:induction false} AdditionsExactly<S>(order: seq<Bytes>, old_: map<Bytes, S>, new_: map<Bytes, S>,
                                               c: ServiceChange<S>)
    requires forall n :: n in order ==> n in new_
    ensures c in Additions(order, old_, new_) <==>
      exists n :: n in order && Get(old_, n) != Some(new_[n]) && c == Add(new_[n])
  {
    if order != [] {
      AdditionsExactly(order[1..], old_, new_, c);
      assert forall n :: n in order <==> n == order[0] || n in order[1..];
    }
  }

  /** The events are exactly the services that went away and those that are new or
      changed, whatever the iteration orders. */
  lemma InstanceEventsExactly<S>(oldOrder: seq<Bytes>, newOrder: seq<Bytes>, old_: map<Bytes, S>,
                                 new_: map<Bytes, S>, c: ServiceChange<S>)
    requires IsOrder(oldOrder, old_) && IsOrder(newOrder, new_)
    ensures c in InstanceEvents(oldOrder, newOrder, old_, new_) <==> IsChange(c, old_, new_)
  {
    DeletionsExactly(oldOrder, new_, c);
    AdditionsExactly(newOrder, old_, new_, c);
  }

  ghost predicate IsChange<S>(c: ServiceChange<S>, old_: map<Bytes, S>, new_: map<Bytes, S>) {
    match c
    case Delete(n) => n in old_ && n !in new_
    case Add(cfg) => exists n :: n in new_ && Get(old_, n) != Some(new_[n]) && cfg == new_[n]
  }

  /** `equal_without_service` compares both versions with their services taken out. */
  function WithoutServerServices(c: ServerConfig): ServerConfig { c.(services := map[]) }

  function WithoutClientServices(c: ClientConfig): ClientConfig { c.(services := map[]) }

  /** Something other than the services of a section changed: only a restart can apply it. */
  predicate NeedsRestart(old_: Config, new_: Config) {
    || old_.server.Some? != new_.server.Some?
    || old_.client.Some? != new_.client.Some?
    || (old_.server.Some? && new_.server.value != old_.server.value.(services := new_.server.value.services))
    || (old_.client.Some? && new_.client.value != old_.client.value.(services := new_.client.value.services))
  }

  function ServerServices(c: Config): map<Bytes, ServerServiceConfig> {
    if c.server.Some? then c.server.value.services else map[]
  }

  function ClientServices(c: Config): map<Bytes, ClientServiceConfig> {
    if c.client.Some? then c.client.value.services else map[]
  }

  /** The events are the whole difference of both sections and nothing else. */
  ghost predicate IsDifference(es: seq<ConfigChange>, old_: Config, new_: Config) {
    && (forall e :: e in es ==> !e.General?)
    && (forall c :: ServerChange(c) in es <==> IsChange(c, ServerServices(old_), ServerServices(new_)))
    && (forall c :: ClientChange(c) in es <==> IsChange(c, ClientServices(old_), ClientServices(new_)))
  }

  /** Visits the keys in whatever order the hash map gives. */
  method IterationOrder<S>(m: map<Bytes, S>) returns (order: seq<Bytes>)
    ensures IsOrder(order, m) && |order| == |m.Keys|
  {
    order := [];
    var todo := m.Keys;
    while todo != {}
      invariant todo <= m.Keys && |order| + |todo| == |m.Keys|
      invariant forall n :: n in order <==> n in m.Keys - todo
    {
      var n :| n in todo;
      order := order + [n];
      todo := todo - {n};
    }
  }

  method CalculateServerEvents(old_: ServerConfig, new_: ServerConfig) returns (r: Option<seq<ConfigChange>>)
    ensures r.None? <==> new_ != old_.(services := new_.services)
    ensures r.Some? ==> forall e :: e in r.value ==> e.ServerChange?
    ensures r.Some? ==> forall c :: ServerChange(c) in r.value <==> IsChange(c, old_.services, new_.services)
  {
    if WithoutServerServices(old_) != WithoutServerServices(new_) {
      return None;
    }
    var oldOrder := IterationOrder(old_.services);
    var newOrder := IterationOrder(new_.services);
    var events := InstanceEvents(oldOrder, newOrder, old_.services, new_.services);
    var wrapped := seq(|events|, i requires 0 <= i < |events| => ServerChange(events[i]));
    forall c ensures ServerChange(c) in wrapped <==> IsChange(c, old_.services, new_.services) {
      InstanceEventsExactly(oldOrder, newOrder, old_.services, new_.services, c);
      if c in events {
        var i :| 0 <= i < |events| && events[i] == c;
        assert wrapped[i] == ServerChange(c);
      }
    }
    r := Some(wrapped);
  }

  method CalculateClientEvents(old_: ClientConfig, new_: ClientConfig) returns (r: Option<seq<ConfigChange>>)
    ensures r.None? <==> new_ != old_.(services := new_.services)
    ensures r.Some? ==> forall e :: e in r.value ==> e.ClientChange?
    ensures r.Some? ==> forall c :: ClientChange(c) in r.value <==> IsChange(c, old_.services, new_.services)
  {
    if WithoutClientServices(old_) != WithoutClientServices(new_) {
      return None;
    }
    var oldOrder := IterationOrder(old_.services);
    var newOrder := IterationOrder(new_.services);
    var events := InstanceEvents(oldOrder, newOrder, old_.services, new_.services);
    var wrapped := seq(|events|, i requires 0 <= i < |events| => ClientChange(events[i]));
    forall c ensures ClientChange(c) in wrapped <==> IsChange(c, old_.services, new_.services) {
      InstanceEventsExactly(oldOrder, newOrder, old_.services, new_.services, c);
      if c in events {
        var i :| 0 <= i < |events| && events[i] == c;
        assert wrapped[i] == ClientChange(c);
      }
    }
    r := Some(wrapped);
  }

  /** `calculate_events`: nothing, one general event, or the difference. */
  method CalculateEvents(old_: Config, new_: Config) returns (r: Option<seq<ConfigChange>>)
    ensures r.None? <==> old_ == new_
    ensures r.Some? && NeedsRestart(old_, new_) ==> r.value == [General(new_)]
    ensures r.Some? && !NeedsRestart(old_, new_) ==> IsDifference(r.value, old_, new_)
  {
    if old_ == new_ {
      return None;
    }
    if old_.server.Some? != new_.server.Some? || old_.client.Some? != new_.client.Some? {
      return Some([General(new_)]);
    }
    var ret := [];
    if old_.server != new_.server {
      var v := CalculateServerEvents(old_.server.value, new_.server.value);
      if v.None? {
        return Some([General(new_)]);
      }
      ret := ret + v.value;
    }
    if old_.client != new_.client {
      var v := CalculateClientEvents(old_.client.value, new_.client.value);
      if v.None? {
        return Some([General(new_)]);
      }
      ret := ret + v.value;
    }
    r := Some(ret);
  }

  // ----- Replaying the events on the server's tables -----

  /** `services` by service digest, and the registered control channels. */
  ghost function ServiceTable(services: map<Bytes, ServerServiceConfig>): map<Digest, ServerServiceConfig> {
    map n | n in services :: Digest(n) := services[n]
  }

  datatype Tables<!V(==)> = Tables(services: map<Digest, ServerServiceConfig>, channels: set<(Digest, Digest, V)>)

  /** `handle_hot_reload` of the server; events that are not for it are ignored. */
  ghost function OnServer<V>(t: Tables<V>, e: ConfigChange): Tables<V> {
    match e
    case ServerChange(Add(cfg)) =>
      Tables(t.services[Digest(cfg.name) := cfg], Without1(t.channels, Digest(cfg.name)))
    case ServerChange(Delete(n)) =>
      Tables(t.services - {Digest(n)}, Without1(t.channels, Digest(n)))
    case _ => t
  }

  ghost function ReplayServer<V>(t: Tables<V>, es: seq<ConfigChange>): Tables<V>
    decreases |es|
  {
    if es == [] then t else ReplayServer(OnServer(t, es[0]), es[1..])
  }

  /** The channels a reload may keep: those whose service reads the same in both tables. */
  ghost function KeptChannels<V>(channels: set<(Digest, Digest, V)>, a: map<Digest, ServerServiceConfig>,
                                 b: map<Digest, ServerServiceConfig>)
    : set<(Digest, Digest, V)>
  {
    set c | c in channels && Get(a, c.0) == Get(b, c.0)
  }

  function ServerEdits(es: seq<ConfigChange>): seq<Edit<Digest, ServerServiceConfig>> {
    if es == [] then
      []
    else
      (match es[0]
       case ServerChange(Add(cfg)) => [Put(Digest(cfg.name), cfg)]
       case ServerChange(Delete(n)) => [Erase(Digest(n))]
       case _ => []) + ServerEdits(es[1..])
  }

  /** The services that some event is about. */
  ghost function Touched(es: seq<ConfigChange>): set<Digest> {
    set e | e in ServerEdits(es) :: e.key
  }

  lemma {:induction false} ServerEditsOfBoth(a: seq<ConfigChange>, b: seq<ConfigChange>)
    ensures ServerEdits(a + b) == ServerEdits(a) + ServerEdits(b)
  {
    if a == [] {
      assert a + b == b;
    } else {
      assert (a + b)[1..] == a[1..] + b;
      ServerEditsOfBoth(a[1..], b);
    }
  }

  lemma {:induction false} ServerEditsExactly(es: seq<ConfigChange>, e: Edit<Digest, ServerServiceConfig>)
    ensures e in ServerEdits(es) <==>
      match e
      case Put(d, cfg) => d == Digest(cfg.name) && ServerChange(Add(cfg)) in es
      case Erase(d) => ServerChange(Delete(d.preimage)) in es
  {
    if es != [] {
      ServerEditsExactly(es[1..], e);
      assert forall x :: x in es <==> x == es[0] || x in es[1..];
    }
  }

  lemma {:induction false} ReplayIsEdits<V>(t: Tables<V>, es: seq<ConfigChange>)
    ensures ReplayServer(t, es).services == ApplyEdits(t.services, ServerEdits(es))
    ensures ReplayServer(t, es).channels ==
      set c | c in t.channels && forall e :: e in ServerEdits(es) ==> e.key != c.0
    decreases |es|
  {
    if es != [] {
      var t' := OnServer(t, es[0]);
      ReplayIsEdits(t', es[1..]);
      var head := ServerEdits(es)[..|ServerEdits(es)| - |ServerEdits(es[1..])|];
      assert ServerEdits(es) == head + ServerEdits(es[1..]);
      assert forall e :: e in ServerEdits(es) <==> e in head || e in ServerEdits(es[1..]);
      if head != [] {
        assert ServerEdits(es)[1..] == ServerEdits(es[1..]);
      }
    }
  }

  /** The server's events, keyed by digest, are the difference of the two tables. */
  lemma ServerEventsDescribe(es: seq<ConfigChange>, old_: map<Bytes, ServerServiceConfig>,
                             new_: map<Bytes, ServerServiceConfig>)
    requires forall n :: n in old_ ==> old_[n].name == n
    requires forall n :: n in new_ ==> new_[n].name == n
    requires forall c :: ServerChange(c) in es <==> IsChange(c, old_, new_)
    ensures Describes(ServerEdits(es), ServiceTable(old_), ServiceTable(new_))
  {
    var a, b := ServiceTable(old_), ServiceTable(new_);
    forall d | d in a && d !in b ensures Erase(d) in ServerEdits(es) {
      assert IsChange(Delete(d.preimage), old_, new_);
      ServerEditsExactly(es, Erase(d));
    }
    forall d | d in b && Get(a, d) != Some(b[d]) ensures Put(d, b[d]) in ServerEdits(es) {
      assert Get(old_, d.preimage) == Get(a, d);
      assert IsChange(Add(b[d]), old_, new_);
      ServerEditsExactly(es, Put(d, b[d]));
    }
    forall e | e in ServerEdits(es) ensures Belongs(e, a, b) {
      ServerEditsExactly(es, e);
      if e.Erase? {
        assert IsChange(Delete(e.key.preimage), old_, new_);
      } else {
        assert IsChange(Add(e.value), old_, new_);
        assert Get(old_, e.key.preimage) == Get(a, e.key);
      }
    }
  }

  /** A difference leaves a service alone exactly if both tables have the same for it. */
  lemma TouchedExactly(es: seq<ConfigChange>, old_: map<Bytes, ServerServiceConfig>,
                         new_: map<Bytes, ServerServiceConfig>, d: Digest)
    requires forall n :: n in old_ ==> old_[n].name == n
    requires forall n :: n in new_ ==> new_[n].name == n
    requires forall c :: ServerChange(c) in es <==> IsChange(c, old_, new_)
    ensures d !in Touched(es) <==> Get(ServiceTable(old_), d) == Get(ServiceTable(new_), d)
  {
    var a, b := ServiceTable(old_), ServiceTable(new_);
    ServerEventsDescribe(es, old_, new_);
    if Get(a, d) != Get(b, d) {
      assert d in b ==> Put(d, b[d]) in ServerEdits(es);
      assert d !in b ==> Erase(d) in ServerEdits(es);
    }
  }

  /** The edits of a difference, in any order, make the new table, and touch
      exactly the services that differ. */
  lemma DifferenceMakesTable(es: seq<ConfigChange>, old_: map<Bytes, ServerServiceConfig>,
                             new_: map<Bytes, ServerServiceConfig>)
    requires forall n :: n in old_ ==> old_[n].name == n
    requires forall n :: n in new_ ==> new_[n].name == n
    requires forall c :: ServerChange(c) in es <==> IsChange(c, old_, new_)
    ensures ApplyEdits(ServiceTable(old_), ServerEdits(es)) == ServiceTable(new_)
    ensures forall d :: d in Touched(es) <==> Get(ServiceTable(old_), d) != Get(ServiceTable(new_), d)
  {
    ServerEventsDescribe(es, old_, new_);
    DiffReachesTarget(ServerEdits(es), ServiceTable(old_), ServiceTable(new_));
    forall d ensures d in Touched(es) <==> Get(ServiceTable(old_), d) != Get(ServiceTable(new_), d) {
      TouchedExactly(es, old_, new_, d);
    }
  }

  /** Replaying a difference, in any order, turns the old service table into the new one,
      keeps the channel of every service that reads the same in both, and drops every
      other channel of an affected service. */
  lemma ServerReload<V>(t: Tables<V>, es: seq<ConfigChange>, old_: map<Bytes, ServerServiceConfig>,
                        new_: map<Bytes, ServerServiceConfig>)
    requires forall n :: n in old_ ==> old_[n].name == n
    requires forall n :: n in new_ ==> new_[n].name == n
    requires forall c :: ServerChange(c) in es <==> IsChange(c, old_, new_)
    requires t.services == ServiceTable(old_)
    ensures ReplayServer(t, es).services == ServiceTable(new_)
    ensures ReplayServer(t, es).channels == KeptChannels(t.channels, ServiceTable(old_), ServiceTable(new_))
  {
    DifferenceMakesTable(es, old_, new_);
    ReplayIsEdits(t, es);
    assert ReplayServer(t, es).channels == set c | c in t.channels && c.0 !in Touched(es);
  }

  // ----- Replaying the events on the client's handles -----

  /** A running control channel of the client; `id` tells successive ones apart. */
  datatype Handle = Handle(cfg: ClientServiceConfig, id: nat)

  datatype Handles = Handles(byName: map<Bytes, Handle>, spawned: nat)

  ghost function OnClient(s: Handles, e: ConfigChange): Handles {
    match e
    case ClientChange(Add(cfg)) => Handles(s.byName[cfg.name := Handle(cfg, s.spawned)], s.spawned + 1)
    case ClientChange(Delete(n)) => s.(byName := s.byName - {n})
    case _ => s
  }

  ghost function ReplayClient(s: Handles, es: seq<ConfigChange>): Handles
    decreases |es|
  {
    if es == [] then s else ReplayClient(OnClient(s, es[0]), es[1..])
  }

  ghost function Running(s: Handles): map<Bytes, ClientServiceConfig> {
    map n | n in s.byName :: s.byName[n].cfg
  }

  function ClientEdits(es: seq<ConfigChange>): seq<Edit<Bytes, ClientServiceConfig>> {
    if es == [] then
      []
    else
      (match es[0]
       case ClientChange(Add(cfg)) => [Put(cfg.name, cfg)]
       case ClientChange(Delete(n)) => [Erase(n)]
       case _ => []) + ClientEdits(es[1..])
  }

  lemma {:induction false} ClientEditsExactly(es: seq<ConfigChange>, e: Edit<Bytes, ClientServiceConfig>)
    ensures e in ClientEdits(es) <==>
      match e
      case Put(n, cfg) => n == cfg.name && ClientChange(Add(cfg)) in es
      case Erase(n) => ClientChange(Delete(n)) in es
  {
    if es != [] {
      ClientEditsExactly(es[1..], e);
      assert forall x :: x in es <==> x == es[0] || x in es[1..];
    }
  }

  lemma {:induction false} ReplayClientIsEdits(s: Handles, es: seq<ConfigChange>)
    ensures Running(ReplayClient(s, es)) == ApplyEdits(Running(s), ClientEdits(es))
    decreases |es|
  {
    if es != [] {
      var s' := OnClient(s, es[0]);
      ReplayClientIsEdits(s', es[1..]);
      match es[0]
      case ClientChange(Add(cfg)) =>
        assert ClientEdits(es)[1..] == ClientEdits(es[1..]);
        assert Running(s') == Running(s)[cfg.name := cfg];
      case ClientChange(Delete(n)) =>
        assert ClientEdits(es)[1..] == ClientEdits(es[1..]);
        assert Running(s') == Running(s) - {n};
      case _ =>
        assert ClientEdits(es) == ClientEdits(es[1..]);
    }
  }

  /** A name no event mentions keeps its very handle; a running name some event mentions
      runs on a handle spawned during the replay. */
  lemma {:induction false} ReplayClientAtName(s: Handles, es: seq<ConfigChange>, n: Bytes)
    ensures s.spawned <= ReplayClient(s, es).spawned
    ensures (forall e :: e in ClientEdits(es) ==> e.key != n) ==>
      Get(ReplayClient(s, es).byName, n) == Get(s.byName, n)
    ensures (exists e :: e in ClientEdits(es) && e.key == n) && n in ReplayClient(s, es).byName ==>
      ReplayClient(s, es).byName[n].id >= s.spawned
    decreases |es|
  {
    if es != [] {
      ReplayClientAtName(OnClient(s, es[0]), es[1..], n);
      var rest := ClientEdits(es[1..]);
      match es[0]
      case ClientChange(Add(cfg)) =>
        assert ClientEdits(es) == [Put(cfg.name, cfg)] + rest;
        assert forall e :: e in ClientEdits(es) <==> e == Put(cfg.name, cfg) || e in rest;
      case ClientChange(Delete(m)) =>
        assert ClientEdits(es) == [Erase(m)] + rest;
        assert forall e :: e in ClientEdits(es) <==> e == Erase(m) || e in rest;
      case _ =>
    }
  }

  lemma ClientEventsDescribe(es: seq<ConfigChange>, old_: map<Bytes, ClientServiceConfig>,
                             new_: map<Bytes, ClientServiceConfig>)
    requires forall n :: n in old_ ==> old_[n].name == n
    requires forall n :: n in new_ ==> new_[n].name == n
    requires forall c :: ClientChange(c) in es <==> IsChange(c, old_, new_)
    ensures Describes(ClientEdits(es), old_, new_)
  {
    forall n | n in old_ && n !in new_ ensures Erase(n) in ClientEdits(es) {
      assert IsChange(Delete(n), old_, new_);
      ClientEditsExactly(es, Erase(n));
    }
    forall n | n in new_ && Get(old_, n) != Some(new_[n]) ensures Put(n, new_[n]) in ClientEdits(es) {
      assert IsChange(Add(new_[n]), old_, new_);
      ClientEditsExactly(es, Put(n, new_[n]));
    }
    forall e | e in ClientEdits(es) ensures Belongs(e, old_, new_) {
      ClientEditsExactly(es, e);
      if e.Erase? {
        assert IsChange(Delete(e.key), old_, new_);
      } else {
        assert IsChange(Add(e.value), old_, new_);
      }
    }
  }

  /** Replaying a difference, in any order, leaves exactly the new services running:
      unchanged ones on the control channel they had, new and changed ones on one
      started by the replay. */
  lemma ClientReload(s: Handles, es: seq<ConfigChange>, old_: map<Bytes, ClientServiceConfig>,
                     new_: map<Bytes, ClientServiceConfig>)
    requires forall n :: n in old_ ==> old_[n].name == n
    requires forall n :: n in new_ ==> new_[n].name == n
    requires forall c :: ClientChange(c) in es <==> IsChange(c, old_, new_)
    requires Running(s) == old_
    ensures Running(ReplayClient(s, es)) == new_
    ensures forall n :: n in new_ ==>
      if Get(old_, n) == Get(new_, n) then ReplayClient(s, es).byName[n] == s.byName[n]
      else ReplayClient(s, es).byName[n].id >= s.spawned
  {
    ClientEventsDescribe(es, old_, new_);
    DiffReachesTarget(ClientEdits(es), old_, new_);
    ReplayClientIsEdits(s, es);
    forall n | n in new_
      ensures if Get(old_, n) == Get(new_, n) then ReplayClient(s, es).byName[n] == s.byName[n]
              else ReplayClient(s, es).byName[n].id >= s.spawned
    {
      ReplayClientAtName(s, es, n);
      assert n in Running(ReplayClient(s, es));
      if Get(old_, n) != Get(new_, n) {
        assert Put(n, new_[n]) in ClientEdits(es);
      } else {
        assert n in Running(s);
      }
    }
  }

  // ----- The watcher -----

  /** The versions of the file that are in force, oldest first: unreadable and
      unacceptable ones are skipped. */
  ghost function Versions(initial: Config, files: seq<Option<Config>>): (vs: seq<Config>)
    ensures vs != []
  {
    if files == [] then
      [initial]
    else
      var last := |files| - 1;
      var earlier := Versions(initial, files[..last]);
      if files[last].Some? && AcceptableConfig(files[last].value) then
        earlier + [CompletedConfig(files[last].value)]
      else
        earlier
  }

  /** Reading one more content of the file adds a version exactly if it is acceptable, and
      what it adds is that content completed; earlier versions stay. */
  lemma VersionsExactly(initial: Config, files: seq<Option<Config>>, next: Option<Config>)
    ensures Versions(initial, []) == [initial]
    ensures Versions(initial, files + [next]) ==
      Versions(initial, files) + match next
                                 case Some(c) => if AcceptableConfig(c) then [CompletedConfig(c)] else []
                                 case None => []
  {
    assert (files + [next])[..|files|] == files;
  }

  /** The service reads the same in every version. */
  ghost predicate Steady(d: Digest, versions: seq<Config>) {
    forall i :: 0 < i < |versions| ==>
      Get(ServiceTable(ServerServices(versions[i - 1])), d) == Get(ServiceTable(ServerServices(versions[i])), d)
  }

  ghost predicate SomeRestart(versions: seq<Config>) {
    exists i :: 0 < i < |versions| && NeedsRestart(versions[i - 1], versions[i])
  }

  lemma {:induction false} ReplayServerAppend<V>(t: Tables<V>, a: seq<ConfigChange>, b: seq<ConfigChange>)
    ensures ReplayServer(t, a + b) == ReplayServer(ReplayServer(t, a), b)
    decreases |a|
  {
    if a == [] {
      assert a + b == b;
    } else {
      assert (a + b)[1..] == a[1..] + b;
      ReplayServerAppend(OnServer(t, a[0]), a[1..], b);
    }
  }

  lemma {:induction false} ReplayClientAppend(s: Handles, a: seq<ConfigChange>, b: seq<ConfigChange>)
    ensures ReplayClient(s, a + b) == ReplayClient(ReplayClient(s, a), b)
    decreases |a|
  {
    if a == [] {
      assert a + b == b;
    } else {
      assert (a + b)[1..] == a[1..] + b;
      ReplayClientAppend(OnClient(s, a[0]), a[1..], b);
    }
  }

  /** The `config_watcher` loop over the successive contents of the file (None: could not
      be read or parsed). Unless some version calls for a restart, replaying everything
      it sent, starting from tables that match the first version, ends in tables that
      match the last one, and a control channel survives exactly when its service never
      changed on the way. */
  method WatchConfig<V>(initial: Config, files: seq<Option<Config>>, ghost t: Tables<V>, ghost s: Handles)
    returns (sent: seq<ConfigChange>, old_: Config)
    requires RuntimeConfig(initial)
    requires t.services == ServiceTable(ServerServices(initial))
    requires Running(s) == ClientServices(initial)
    ensures old_ == Versions(initial, files)[|Versions(initial, files)| - 1]
    ensures (exists e :: e in sent && e.General?) <==> SomeRestart(Versions(initial, files))
    ensures !SomeRestart(Versions(initial, files)) ==>
      && ReplayServer(t, sent).services == ServiceTable(ServerServices(old_))
      && Running(ReplayClient(s, sent)) == ClientServices(old_)
      && ReplayServer(t, sent).channels == (set c | c in t.channels && Steady(c.0, Versions(initial, files)))
      && TouchesChanged(sent, Versions(initial, files))
  {
    sent := [];
    old_ := initial;
    for n := 0 to |files|
      invariant RuntimeConfig(old_)
      invariant Versions(initial, files[..n]) != []
      invariant old_ == Versions(initial, files[..n])[|Versions(initial, files[..n])| - 1]
      invariant (exists e :: e in sent && e.General?) <==> SomeRestart(Versions(initial, files[..n]))
      invariant !SomeRestart(Versions(initial, files[..n])) ==>
        && ReplayServer(t, sent).services == ServiceTable(ServerServices(old_))
        && Running(ReplayClient(s, sent)) == ClientServices(old_)
      invariant !SomeRestart(Versions(initial, files[..n])) ==> TouchesChanged(sent, Versions(initial, files[..n]))
    {
      ghost var before := Versions(initial, files[..n]);
      assert files[..n + 1][..n] == files[..n];
      if files[n].None? {
        continue;
      }
      var parsed := FromParsed(files[n].value);
      if parsed.Err? {
        continue;
      }
      var new_ := parsed.value;
      var events := CalculateEvents(old_, new_);
      var batch := if events.None? then [] else events.value;
      OneMoreVersion(t, s, sent, batch, before, new_);
      TouchesChangedGrows(sent, batch, before, new_);
      sent := sent + batch;
      old_ := new_;
    }
    assert files[..|files|] == files;
    if !SomeRestart(Versions(initial, files)) {
      SteadyChannelsStay(t, sent, Versions(initial, files));
    }
  }

  /** A channel survives the events that leave its service alone. */
  lemma SteadyChannelsStay<V>(t: Tables<V>, sent: seq<ConfigChange>, versions: seq<Config>)
    requires TouchesChanged(sent, versions)
    ensures ReplayServer(t, sent).channels == set c | c in t.channels && Steady(c.0, versions)
  {
    ReplayIsEdits(t, sent);
    forall c | c in t.channels ensures c in ReplayServer(t, sent).channels <==> Steady(c.0, versions) {
      assert c.0 in Touched(sent) <==> c.0 in Changed(versions);
    }
  }

  /** Tables that agree with the last version agree with the next one after its batch. */
  lemma TablesFollow<V>(t: Tables<V>, s: Handles, batch: seq<ConfigChange>, last: Config, new_: Config)
    requires RuntimeConfig(last) && RuntimeConfig(new_)
    requires if last == new_ then batch == [] else IsDifference(batch, last, new_)
    requires t.services == ServiceTable(ServerServices(last))
    requires Running(s) == ClientServices(last)
    ensures ReplayServer(t, batch).services == ServiceTable(ServerServices(new_))
    ensures Running(ReplayClient(s, batch)) == ClientServices(new_)
    ensures ReplayServer(t, batch).channels ==
      KeptChannels(t.channels, ServiceTable(ServerServices(last)), ServiceTable(ServerServices(new_)))
  {
    if last != new_ {
      ServerReload(t, batch, ServerServices(last), ServerServices(new_));
      ClientReload(s, batch, ClientServices(last), ClientServices(new_));
    }
  }

  lemma TouchedGrows(sent: seq<ConfigChange>, batch: seq<ConfigChange>, before: seq<Config>, new_: Config, d: Digest)
    requires before != []
    requires RuntimeConfig(before[|before| - 1]) && RuntimeConfig(new_)
    requires if before[|before| - 1] == new_ then batch == [] else IsDifference(batch, before[|before| - 1], new_)
    requires d in Touched(sent) <==> d in Changed(before)
    ensures d in Touched(sent + batch) <==> d in Changed(before + [new_])
  {
    var last := before[|before| - 1];
    SteadyGrows(d, before, new_);
    ServerEditsOfBoth(sent, batch);
    assert Touched(sent + batch) == Touched(sent) + Touched(batch);
    if last != new_ {
      TouchedExactly(batch, ServerServices(last), ServerServices(new_), d);
    }
  }

  /** The services that did not read the same in every version. */
  ghost function Changed(versions: seq<Config>): iset<Digest> {
    iset d | !Steady(d, versions)
  }

  /** The events so far leave alone exactly the services that never changed. */
  ghost predicate TouchesChanged(sent: seq<ConfigChange>, versions: seq<Config>) {
    forall d :: d in Touched(sent) <==> d in Changed(versions)
  }

  lemma TouchesChangedGrows(sent: seq<ConfigChange>, batch: seq<ConfigChange>, before: seq<Config>, new_: Config)
    requires before != []
    requires RuntimeConfig(before[|before| - 1]) && RuntimeConfig(new_)
    requires before[|before| - 1] == new_ ==> batch == []
    requires before[|before| - 1] != new_ && !NeedsRestart(before[|before| - 1], new_) ==>
      IsDifference(batch, before[|before| - 1], new_)
    requires !SomeRestart(before) ==> TouchesChanged(sent, before)
    ensures !SomeRestart(before + [new_]) ==> TouchesChanged(sent + batch, before + [new_])
  {
    RestartGrows(before, new_);
    if !SomeRestart(before + [new_]) && (before[|before| - 1] == new_ || !NeedsRestart(before[|before| - 1], new_)) {
      forall d ensures d in Touched(sent + batch) <==> d in Changed(before + [new_]) {
        assert d in Touched(sent) <==> d in Changed(before);
        TouchedGrows(sent, batch, before, new_, d);
      }
    }
  }

  /** One round of the watcher extends everything it has established so far. */
  lemma OneMoreVersion<V>(t: Tables<V>, s: Handles, sent: seq<ConfigChange>, batch: seq<ConfigChange>,
                          before: seq<Config>, new_: Config)
    requires before != []
    requires RuntimeConfig(before[|before| - 1]) && RuntimeConfig(new_)
    requires before[|before| - 1] == new_ ==> batch == []
    requires before[|before| - 1] != new_ && NeedsRestart(before[|before| - 1], new_) ==> batch == [General(new_)]
    requires before[|before| - 1] != new_ && !NeedsRestart(before[|before| - 1], new_) ==>
      IsDifference(batch, before[|before| - 1], new_)
    requires (exists e :: e in sent && e.General?) <==> SomeRestart(before)
    requires !SomeRestart(before) ==>
      && ReplayServer(t, sent).services == ServiceTable(ServerServices(before[|before| - 1]))
      && Running(ReplayClient(s, sent)) == ClientServices(before[|before| - 1])
    ensures (exists e :: e in sent + batch && e.General?) <==> SomeRestart(before + [new_])
    ensures !SomeRestart(before + [new_]) ==>
      && ReplayServer(t, sent + batch).services == ServiceTable(ServerServices(new_))
      && Running(ReplayClient(s, sent + batch)) == ClientServices(new_)
  {
    var last := before[|before| - 1];
    RestartGrows(before, new_);
    assert forall e :: e in sent + batch <==> e in sent || e in batch;
    if last != new_ && NeedsRestart(last, new_) {
      assert General(new_) in batch;
    } else if !SomeRestart(before) {
      ReplayServerAppend(t, sent, batch);
      ReplayClientAppend(s, sent, batch);
      TablesFollow(ReplayServer(t, sent), ReplayClient(s, sent), batch, last, new_);
    }
  }

  lemma RestartGrows(before: seq<Config>, new_: Config)
    requires before != []
    ensures SomeRestart(before + [new_]) <==> SomeRestart(before) || NeedsRestart(before[|before| - 1], new_)
  {
    var after := before + [new_];
    if SomeRestart(before) {
      var i :| 0 < i < |before| && NeedsRestart(before[i - 1], before[i]);
      assert NeedsRestart(after[i - 1], after[i]);
    }
    assert after[|before|] == new_ && after[|before| - 1] == before[|before| - 1];
    if SomeRestart(after) {
      var i :| 0 < i < |after| && NeedsRestart(after[i - 1], after[i]);
      assert i < |before| ==> NeedsRestart(before[i - 1], before[i]);
    }
    if NeedsRestart(before[|before| - 1], new_) {
      assert NeedsRestart(after[|before| - 1], after[|before|]);
    }
  }

  lemma SteadyGrows(d: Digest, before: seq<Config>, new_: Config)
    requires before != []
    ensures Steady(d, before + [new_]) <==>
      (Steady(d, before) &&
       Get(ServiceTable(ServerServices(before[|before| - 1])), d) == Get(ServiceTable(ServerServices(new_)), d))
  {
    var after := before + [new_];
    assert after[|before|] == new_;
    assert forall i :: 0 <= i < |before| ==> after[i] == before[i];
  }
}
