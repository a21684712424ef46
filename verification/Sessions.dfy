/** Control-channel handshakes and hot reloads of `server.rs`, interleaved at every
    `await`. A step is what one task does between two awaits; the registry's write lock
    and the services lock exclude the steps they exclude in the source. */
module Sessions {
  import opened Basics
  import opened Configs
  import opened MultiMaps

  /** How far a handshake task has come. `at` is when it read the service table. */
  datatype Phase =
    | Greeted
    | LookedUp(cfg: ServerServiceConfig, at: nat)
    | Verified(cfg: ServerServiceConfig, at: nat)
    | Committing(cfg: ServerServiceConfig, at: nat)
    | Registered(cfg: ServerServiceConfig, at: nat, filed: nat)
    | Failed

  datatype Handshake = Handshake(service: Digest, nonce: Bytes, phase: Phase)

  /** A registered control channel: its configuration, the handshake that made it, when
      that handshake read the service table, and when the channel was filed. */
  datatype Channel = Channel(cfg: ServerServiceConfig, handshake: nat, lookedUp: nat, filed: nat)

  /** A reload between its two table updates. Adding a service keeps the services lock
      until the end; deleting one has already released it. */
  datatype Reloading = Quiet | Midway(service: Digest, holdsServices: bool)

  datatype Server = Server(
    clock: nat,
    services: map<Digest, ServerServiceConfig>,
    channels: set<(Digest, Digest, Channel)>,
    writer: Option<nat>,
    handshakes: seq<Handshake>,
    reloading: Reloading,
    updated: map<Digest, nat>,
    reloaded: map<Digest, nat>)

  datatype Step =
    | Connect(service: Digest, nonce: Bytes)
    | Lookup(h: nat)
    | Authenticate(h: nat, auth: Digest)
    | HangUp(h: nat)
    | LockRegistry(h: nat)
    | Acknowledge(h: nat, delivered: bool)
    | ReloadAdd(cfg: ServerServiceConfig)
    | ReloadDelete(name: Bytes)
    | ReloadFinish

  function Start(services: map<Digest, ServerServiceConfig>): Server {
    Server(0, services, {}, None, [], Quiet, map[], map[])
  }

  /** Nonces are taken to be fresh: 32 random bytes never come up twice. */
  ghost predicate FreshNonce(s: Server, nonce: Bytes) {
    |nonce| == HASH_WIDTH_IN_BYTES && forall h :: h in s.handshakes ==> h.nonce != nonce
  }

  ghost predicate Enabled(s: Server, step: Step) {
    match step
    case Connect(service, nonce) => FreshNonce(s, nonce)
    case Lookup(h) =>
      h < |s.handshakes| && s.handshakes[h].phase.Greeted? && !(s.reloading.Midway? && s.reloading.holdsServices)
    case Authenticate(h, auth) => h < |s.handshakes| && s.handshakes[h].phase.LookedUp?
    case HangUp(h) => h < |s.handshakes| && (s.handshakes[h].phase.Greeted? || s.handshakes[h].phase.LookedUp?)
    case LockRegistry(h) => h < |s.handshakes| && s.handshakes[h].phase.Verified? && s.writer.None?
    case Acknowledge(h, delivered) => h < |s.handshakes| && s.handshakes[h].phase.Committing?
    case ReloadAdd(cfg) => s.reloading.Quiet?
    case ReloadDelete(name) => s.reloading.Quiet?
    case ReloadFinish => s.reloading.Midway? && s.writer.None?
  }

  ghost function Enter(s: Server, h: nat, phase: Phase): Server
    requires h < |s.handshakes|
  {
    s.(clock := s.clock + 1, handshakes := s.handshakes[h := s.handshakes[h].(phase := phase)])
  }

  ghost function Do(s: Server, step: Step): Server
    requires Enabled(s, step)
  {
    match step
    case Connect(service, nonce) =>
      s.(clock := s.clock + 1, handshakes := s.handshakes + [Handshake(service, nonce, Greeted)])
    case Lookup(h) =>
      var service := s.handshakes[h].service;
      Enter(s, h, if service in s.services then LookedUp(s.services[service], s.clock) else Failed)
    case Authenticate(h, auth) =>
      var hs := s.handshakes[h];
      Enter(s, h, if auth == SessionKey(hs.phase.cfg, hs.nonce) then Verified(hs.phase.cfg, hs.phase.at) else Failed)
    case HangUp(h) => Enter(s, h, Failed)
    case LockRegistry(h) =>
      var hs := s.handshakes[h];
      Enter(s, h, Committing(hs.phase.cfg, hs.phase.at))
        .(writer := Some(h), channels := Without1(s.channels, hs.service))
    case Acknowledge(h, delivered) =>
      var hs := s.handshakes[h];
      // Serving HTTP is not implemented: making its handle panics, as a failed write returns.
      if delivered && !hs.phase.cfg.serviceType.Http? then
        Enter(s, h, Registered(hs.phase.cfg, hs.phase.at, s.clock))
          .(writer := None, channels := Inserted(s.channels, hs.service, SessionKey(hs.phase.cfg, hs.nonce),
                                                 Channel(hs.phase.cfg, h, hs.phase.at, s.clock)))
      else
        Enter(s, h, Failed).(writer := None)
    case ReloadAdd(cfg) =>
      var d := Digest(cfg.name);
      s.(clock := s.clock + 1, services := s.services[d := cfg], updated := s.updated[d := s.clock],
         reloading := Midway(d, true))
    case ReloadDelete(name) =>
      var d := Digest(name);
      s.(clock := s.clock + 1, services := s.services - {d}, updated := s.updated[d := s.clock],
         reloading := Midway(d, false))
    case ReloadFinish =>
      var d := s.reloading.service;
      s.(clock := s.clock + 1, channels := Without1(s.channels, d), reloaded := s.reloaded[d := s.clock],
         reloading := Quiet)
  }

  ghost predicate Possible(s: Server, steps: seq<Step>)
    decreases |steps|
  {
    steps == [] || (Enabled(s, steps[0]) && Possible(Do(s, steps[0]), steps[1..]))
  }

  ghost function After(s: Server, steps: seq<Step>): Server
    requires Possible(s, steps)
    decreases |steps|
  {
    if steps == [] then s else After(Do(s, steps[0]), steps[1..])
  }

  // ----- What every reachable state satisfies -----

  /** Each filed channel belongs to the handshake that filed it, under that handshake's key. */
  ghost predicate Owned(s: Server) {
    forall c :: c in s.channels ==>
      && c.2.handshake < |s.handshakes|
      && s.handshakes[c.2.handshake].service == c.0
      && s.handshakes[c.2.handshake].phase == Registered(c.2.cfg, c.2.lookedUp, c.2.filed)
      && c.1 == SessionKey(c.2.cfg, s.handshakes[c.2.handshake].nonce)
  }

  ghost predicate Nonces(s: Server) {
    && (forall h :: 0 <= h < |s.handshakes| ==> |s.handshakes[h].nonce| == HASH_WIDTH_IN_BYTES)
    && (forall g, h :: 0 <= g < h < |s.handshakes| ==> s.handshakes[g].nonce != s.handshakes[h].nonce)
  }

  /** The write lock is held exactly by the handshake that is committing, and it has
      cleared its service's place. */
  ghost predicate Locked(s: Server) {
    && (forall h :: 0 <= h < |s.handshakes| ==> (s.handshakes[h].phase.Committing? <==> s.writer == Some(h)))
    && (s.writer.Some? ==>
          s.writer.value < |s.handshakes| && !HasKey1(s.channels, s.handshakes[s.writer.value].service))
  }

  ghost predicate HasRead(p: Phase) {
    p.LookedUp? || p.Verified? || p.Committing? || p.Registered?
  }

  /** What a handshake read is still in the table unless the entry was updated since. */
  ghost predicate Read(s: Server) {
    forall h :: 0 <= h < |s.handshakes| && HasRead(s.handshakes[h].phase) ==>
      var hs := s.handshakes[h];
      && hs.phase.at < s.clock
      && (hs.phase.Registered? ==> hs.phase.at < hs.phase.filed < s.clock)
      && (hs.service !in s.updated || s.updated[hs.service] <= hs.phase.at ==>
            Get(s.services, hs.service) == Some(hs.phase.cfg))
  }

  /** Every update of an entry is followed by its removal from the registry, unless the
      reload is still midway. */
  ghost predicate Followed(s: Server) {
    && (forall d :: d in s.updated ==> s.updated[d] < s.clock)
    && (forall d :: d in s.reloaded ==> s.reloaded[d] < s.clock)
    && (forall d :: d in s.updated ==>
          s.reloading == Midway(d, true) || s.reloading == Midway(d, false)
          || (d in s.reloaded && s.updated[d] < s.reloaded[d]))
  }

  /** No channel filed before a completed reload of its service is still registered. */
  ghost predicate NoSurvivors(s: Server) {
    forall c :: c in s.channels && c.0 in s.reloaded ==> s.reloaded[c.0] < c.2.filed
  }

  /** While a reload is midway every handshake of its service that has read the table did
      so before the update: a replaced entry cannot be read yet, a deleted one is not there. */
  ghost predicate Ahead(s: Server) {
    s.reloading.Midway? ==>
      var d := s.reloading.service;
      && d in s.updated
      && (!s.reloading.holdsServices ==> d !in s.services)
      && forall h :: 0 <= h < |s.handshakes| && s.handshakes[h].service == d && HasRead(s.handshakes[h].phase) ==>
           s.handshakes[h].phase.at < s.updated[d]
  }

  ghost predicate Inv(s: Server) {
    UniqueKeys(s.channels) && Owned(s) && Nonces(s) && Locked(s) && Read(s) && Followed(s) && NoSurvivors(s) && Ahead(s)
  }

  /** Session keys of different handshakes differ: the nonce is the last 32 bytes hashed. */
  lemma KeysDiffer(a: ServerServiceConfig, m: Bytes, b: ServerServiceConfig, n: Bytes)
    requires |m| == |n| == HASH_WIDTH_IN_BYTES
    requires SessionKey(a, m) == SessionKey(b, n)
    ensures m == n
  {
    var p := SessionKey(a, m).preimage;
    assert p[|p| - 32..] == m;
    assert p[|p| - 32..] == n;
  }

  /** When a handshake commits, neither of its keys is taken: the answer of `insert`
      that the source discards is always Ok. */
  lemma InsertSucceeds(s: Server, h: nat)
    requires Inv(s) && h < |s.handshakes| && s.handshakes[h].phase.Committing?
    ensures !HasKey1(s.channels, s.handshakes[h].service)
    ensures !HasKey2(s.channels, SessionKey(s.handshakes[h].phase.cfg, s.handshakes[h].nonce))
  {
    var hs := s.handshakes[h];
    forall c | c in s.channels ensures c.1 != SessionKey(hs.phase.cfg, hs.nonce) {
      var g := c.2.handshake;
      assert g != h;
      if c.1 == SessionKey(hs.phase.cfg, hs.nonce) {
        KeysDiffer(c.2.cfg, s.handshakes[g].nonce, hs.phase.cfg, hs.nonce);
      }
    }
  }

  /** A handshake that moves on without touching the tables keeps the invariant. */
  lemma EnterKeepsInv(s: Server, h: nat, phase: Phase)
    requires Inv(s) && h < |s.handshakes|
    requires !s.handshakes[h].phase.Registered? && !s.handshakes[h].phase.Committing?
    requires !phase.Registered? && !phase.Committing?
    requires HasRead(phase) ==>
      && phase.at <= s.clock
      && (s.reloading.Midway? && s.reloading.service == s.handshakes[h].service ==>
            phase.at < s.updated[s.reloading.service])
      && (s.handshakes[h].service !in s.updated || s.updated[s.handshakes[h].service] <= phase.at ==>
            Get(s.services, s.handshakes[h].service) == Some(phase.cfg))
    ensures Inv(Enter(s, h, phase))
  {
  }

  lemma ConnectKeepsInv(s: Server, service: Digest, nonce: Bytes)
    requires Inv(s) && FreshNonce(s, nonce)
    ensures Inv(Do(s, Connect(service, nonce)))
  {
  }

  lemma LookupKeepsInv(s: Server, h: nat)
    requires Inv(s) && Enabled(s, Lookup(h))
    ensures Inv(Do(s, Lookup(h)))
  {
    var service := s.handshakes[h].service;
    assert service in s.updated ==> s.updated[service] <= s.clock;
    EnterKeepsInv(s, h, if service in s.services then LookedUp(s.services[service], s.clock) else Failed);
  }

  lemma AuthenticateKeepsInv(s: Server, h: nat, auth: Digest)
    requires Inv(s) && Enabled(s, Authenticate(h, auth))
    ensures Inv(Do(s, Authenticate(h, auth)))
  {
    var hs := s.handshakes[h];
    var passed := auth == SessionKey(hs.phase.cfg, hs.nonce);
    EnterKeepsInv(s, h, if passed then Verified(hs.phase.cfg, hs.phase.at) else Failed);
  }

  lemma LockKeepsInv(s: Server, h: nat)
    requires Inv(s) && Enabled(s, LockRegistry(h))
    ensures Inv(Do(s, LockRegistry(h)))
  {
  }

  /** A handshake given up while committing frees the lock and files nothing. */
  lemma AbandonKeepsInv(s: Server, h: nat)
    requires Inv(s) && h < |s.handshakes| && s.handshakes[h].phase.Committing?
    ensures Inv(Enter(s, h, Failed).(writer := None))
  {
  }

  lemma FileKeepsInv(s: Server, h: nat)
    requires Inv(s) && Enabled(s, Acknowledge(h, true)) && !s.handshakes[h].phase.cfg.serviceType.Http?
    ensures Inv(Do(s, Acknowledge(h, true)))
  {
    InsertSucceeds(s, h);
    var hs := s.handshakes[h];
    var s' := Do(s, Acknowledge(h, true));
    var filed := (hs.service, SessionKey(hs.phase.cfg, hs.nonce), Channel(hs.phase.cfg, h, hs.phase.at, s.clock));
    assert s'.channels == s.channels + {filed};
    KeysStayUnique(s.channels, filed.0, filed.1, filed.2);
    assert Owned(s');
    assert NoSurvivors(s');
  }

  /** Updating one entry of the service table, with the reload then midway. */
  lemma UpdateKeepsInv(s: Server, step: Step)
    requires Inv(s) && Enabled(s, step) && (step.ReloadAdd? || step.ReloadDelete?)
    ensures Inv(Do(s, step))
  {
  }

  lemma FinishKeepsInv(s: Server)
    requires Inv(s) && Enabled(s, ReloadFinish)
    ensures Inv(Do(s, ReloadFinish))
  {
  }

  lemma StepKeepsInv(s: Server, step: Step)
    requires Inv(s) && Enabled(s, step)
    ensures Inv(Do(s, step))
  {
    match step
    case Connect(service, nonce) => ConnectKeepsInv(s, service, nonce);
    case Lookup(h) => LookupKeepsInv(s, h);
    case Authenticate(h, auth) => AuthenticateKeepsInv(s, h, auth);
    case HangUp(h) => EnterKeepsInv(s, h, Failed);
    case LockRegistry(h) => LockKeepsInv(s, h);
    case Acknowledge(h, delivered) =>
      if delivered && !s.handshakes[h].phase.cfg.serviceType.Http? {
        FileKeepsInv(s, h);
      } else {
        AbandonKeepsInv(s, h);
      }
    case ReloadFinish => FinishKeepsInv(s);
    case _ => UpdateKeepsInv(s, step);
  }

  lemma {:induction false} RunKeepsInv(s: Server, steps: seq<Step>)
    requires Inv(s) && Possible(s, steps)
    ensures Inv(After(s, steps))
    decreases |steps|
  {
    if steps != [] {
      StepKeepsInv(s, steps[0]);
      RunKeepsInv(Do(s, steps[0]), steps[1..]);
    }
  }

  lemma ReachableInv(services: map<Digest, ServerServiceConfig>, steps: seq<Step>)
    requires Possible(Start(services), steps)
    ensures Inv(After(Start(services), steps))
  {
    RunKeepsInv(Start(services), steps);
  }

  /** Any prefix of a run is a run, and ends where the next step starts. */
  lemma {:induction false} Prefix(s: Server, steps: seq<Step>, n: nat)
    requires Possible(s, steps) && n < |steps|
    ensures Possible(s, steps[..n]) && Enabled(After(s, steps[..n]), steps[n])
    ensures Possible(s, steps[..n + 1]) && After(s, steps[..n + 1]) == Do(After(s, steps[..n]), steps[n])
    decreases |steps|
  {
    if n > 0 {
      Prefix(Do(s, steps[0]), steps[1..], n - 1);
      assert steps[..n][1..] == steps[1..][..n - 1];
      assert steps[..n + 1][1..] == steps[1..][..n];
    } else {
      assert steps[..1][1..] == [];
    }
  }

  // ----- What follows for whole runs -----

  /** The table entry of the channel's service was updated after the channel's handshake
      had read it. */
  predicate Overtaken(s: Server, c: (Digest, Digest, Channel)) {
    c.0 in s.updated && c.2.lookedUp < s.updated[c.0]
  }

  /** After any interleaving: at most one channel per service and per key, each filed
      under the key of its own handshake. A channel has been overtaken by an update
      exactly if its service's reload is midway, or its handshake read the table before
      the last update of the service and filed it after that update's reload had
      completed; and a channel that has not been overtaken has the table's configuration. */
  lemma RegistryAfterAnyRun(services: map<Digest, ServerServiceConfig>, steps: seq<Step>, c: (Digest, Digest, Channel))
    requires Possible(Start(services), steps)
    requires c in After(Start(services), steps).channels
    ensures var s := After(Start(services), steps);
      && UniqueKeys(s.channels) && Owned(s)
      && (Overtaken(s, c) <==>
            || (s.reloading.Midway? && s.reloading.service == c.0)
            || (c.0 in s.updated && c.0 in s.reloaded
                && c.2.lookedUp < s.updated[c.0] < s.reloaded[c.0] < c.2.filed))
      && (!Overtaken(s, c) ==> Get(s.services, c.0) == Some(c.2.cfg))
  {
    RunKeepsInv(Start(services), steps);
    var s := After(Start(services), steps);
    var hs := s.handshakes[c.2.handshake];
    assert HasRead(hs.phase) && hs.phase.at == c.2.lookedUp && hs.service == c.0;
  }

  /** No step brings back a channel that is gone: only a handshake that commits files
      one, and it files its own. */
  lemma StepKeepsGone(s: Server, step: Step, c: (Digest, Digest, Channel))
    requires Enabled(s, step)
    requires c.2.handshake < |s.handshakes| && s.handshakes[c.2.handshake].phase.Registered? && c !in s.channels
    ensures var s' := Do(s, step);
      c.2.handshake < |s'.handshakes| && s'.handshakes[c.2.handshake].phase.Registered? && c !in s'.channels
  {
    var s' := Do(s, step);
    assert s'.handshakes[c.2.handshake] == s.handshakes[c.2.handshake];
    if step.Acknowledge? {
      assert forall x :: x in s'.channels ==> x in s.channels || x.2.handshake == step.h;
    } else {
      assert s'.channels <= s.channels;
    }
  }

  /** A channel that was dropped never comes back. */
  lemma {:induction false} GoneForGood(s: Server, steps: seq<Step>, c: (Digest, Digest, Channel))
    requires Inv(s) && Possible(s, steps)
    requires c.2.handshake < |s.handshakes| && s.handshakes[c.2.handshake].phase.Registered? && c !in s.channels
    ensures c.2.handshake < |After(s, steps).handshakes|
    ensures After(s, steps).handshakes[c.2.handshake].phase.Registered? && c !in After(s, steps).channels
    decreases |steps|
  {
    if steps != [] {
      StepKeepsInv(s, steps[0]);
      StepKeepsGone(s, steps[0], c);
      GoneForGood(Do(s, steps[0]), steps[1..], c);
    }
  }

  /** A channel registered when a reload of its service completes is registered at no
      later time. */
  lemma NothingSurvivesAReload(s: Server, steps: seq<Step>, c: (Digest, Digest, Channel))
    requires Inv(s) && c in s.channels
    requires Enabled(s, ReloadFinish) && s.reloading.service == c.0
    requires Possible(Do(s, ReloadFinish), steps)
    ensures c !in After(Do(s, ReloadFinish), steps).channels
  {
    StepKeepsInv(s, ReloadFinish);
    GoneForGood(Do(s, ReloadFinish), steps, c);
  }

  /** A data channel that presents the key of a completed handshake reaches that
      handshake's control channel or nothing; nothing exactly when it is no longer filed. */
  lemma DataChannelReachesItsSession(s: Server, h: nat, r: Option<Channel>)
    requires Inv(s) && h < |s.handshakes| && s.handshakes[h].phase.Registered?
    requires Holds2(s.channels, SessionKey(s.handshakes[h].phase.cfg, s.handshakes[h].nonce), r)
    ensures r.Some? ==> r.value.handshake == h && r.value.cfg == s.handshakes[h].phase.cfg
    ensures r.None? <==> forall c :: c in s.channels ==> c.2.handshake != h
  {
    var hs := s.handshakes[h];
    if r.Some? {
      var c :| c in s.channels && c.1 == SessionKey(hs.phase.cfg, hs.nonce) && c.2 == r.value;
      KeysDiffer(c.2.cfg, s.handshakes[c.2.handshake].nonce, hs.phase.cfg, hs.nonce);
    }
    forall c | c in s.channels && c.2.handshake == h ensures c.1 == SessionKey(hs.phase.cfg, hs.nonce) {
    }
  }

  /** Once a second handshake of a service has its channel filed, the key of the first
      resolves to nothing, then and after any further steps. */
  lemma ReplacedKeyIsDead(s: Server, steps: seq<Step>, old_: nat, c: (Digest, Digest, Channel), r: Option<Channel>)
    requires Inv(s) && Possible(s, steps)
    requires old_ < |s.handshakes| && s.handshakes[old_].phase.Registered?
    requires c in s.channels && c.0 == s.handshakes[old_].service && c.2.handshake != old_
    requires Holds2(After(s, steps).channels, SessionKey(s.handshakes[old_].phase.cfg, s.handshakes[old_].nonce), r)
    ensures r == None
  {
    var hs := s.handshakes[old_];
    var handle := Channel(hs.phase.cfg, old_, hs.phase.at, hs.phase.filed);
    var gone := (hs.service, SessionKey(hs.phase.cfg, hs.nonce), handle);
    assert gone !in s.channels;
    GoneForGood(s, steps, gone);
    RunKeepsInv(s, steps);
    RegisteredStays(s, steps, old_);
    DataChannelReachesItsSession(After(s, steps), old_, r);
  }

  lemma {:induction false} RegisteredStays(s: Server, steps: seq<Step>, h: nat)
    requires Possible(s, steps) && h < |s.handshakes| && s.handshakes[h].phase.Registered?
    ensures h < |After(s, steps).handshakes| && After(s, steps).handshakes[h] == s.handshakes[h]
    decreases |steps|
  {
    if steps != [] {
      RegisteredStays(Do(s, steps[0]), steps[1..], h);
    }
  }

  /** The server accepts the honest answer to its challenge exactly when client and
      server hold the same token, and then both hold the same session key. */
  lemma HonestClientIsAccepted(cfg: ServerServiceConfig, token: Bytes, nonce: Bytes)
    requires cfg.token.Some?
    ensures Digest(token + nonce) == SessionKey(cfg, nonce) <==> cfg.token == Some(token)
  {
    var a, b := token + nonce, cfg.token.value + nonce;
    if a == b {
      assert |token| == |cfg.token.value|;
      assert a[..|token|] == token && b[..|token|] == cfg.token.value;
    }
  }

  /** The handshake has shown that its client holds the token. */
  predicate Passed(p: Phase) {
    p.Verified? || p.Committing? || p.Registered?
  }

  lemma StepKeepsPassed(s: Server, step: Step, h: nat)
    requires Enabled(s, step) && h < |Do(s, step).handshakes| && Passed(Do(s, step).handshakes[h].phase)
    ensures h < |s.handshakes| && s.handshakes[h].nonce == Do(s, step).handshakes[h].nonce
    ensures var key := SessionKey(Do(s, step).handshakes[h].phase.cfg, s.handshakes[h].nonce);
      || step == Authenticate(h, key)
      || (Passed(s.handshakes[h].phase) && s.handshakes[h].phase.cfg == Do(s, step).handshakes[h].phase.cfg)
  {
  }

  /** In any run, a handshake registers a channel only if its client answered with the
      digest of the service's token and this handshake's own nonce. */
  lemma {:induction false} OnlyTokenHoldersRegister(services: map<Digest, ServerServiceConfig>, steps: seq<Step>,
                                                    h: nat)
    requires Possible(Start(services), steps) && h < |After(Start(services), steps).handshakes|
    requires Passed(After(Start(services), steps).handshakes[h].phase)
    ensures var hs := After(Start(services), steps).handshakes[h];
      Authenticate(h, SessionKey(hs.phase.cfg, hs.nonce)) in steps
    decreases |steps|
  {
    var s0 := Start(services);
    if steps != [] {
      var n := |steps| - 1;
      SplitLast(s0, steps);
      StepKeepsPassed(After(s0, steps[..n]), steps[n], h);
      var hs := After(s0, steps).handshakes[h];
      if steps[n] != Authenticate(h, SessionKey(hs.phase.cfg, hs.nonce)) {
        OnlyTokenHoldersRegister(services, steps[..n], h);
      }
    }
  }

  lemma {:induction false} SplitLast(s: Server, steps: seq<Step>)
    requires Possible(s, steps) && steps != []
    ensures var n := |steps| - 1;
      Possible(s, steps[..n]) && Enabled(After(s, steps[..n]), steps[n])
      && After(s, steps) == Do(After(s, steps[..n]), steps[n])
    decreases |steps|
  {
    var n := |steps| - 1;
    if n > 0 {
      SplitLast(Do(s, steps[0]), steps[1..]);
      assert steps[1..][..n - 1] == steps[..n][1..];
    }
  }

  // ----- What the steps of a run did -----

  /** The step at which a handshake ends without a channel: its client hangs up, asks for an
      unknown service, answers wrongly or cannot be told, or the service is an HTTP one. */
  predicate Fails(s: Server, step: Step, h: nat)
    requires h < |s.handshakes|
  {
    var hs := s.handshakes[h];
    || step == HangUp(h)
    || step == Acknowledge(h, false)
    || (step == Lookup(h) && hs.service !in s.services)
    || (step == Acknowledge(h, true) && hs.phase.Committing? && hs.phase.cfg.serviceType.Http?)
    || (step.Authenticate? && step.h == h && hs.phase.LookedUp? && step.auth != SessionKey(hs.phase.cfg, hs.nonce))
  }

  ghost predicate FailsIn(s: Server, steps: seq<Step>, h: nat)
    requires Possible(s, steps)
    decreases |steps|
  {
    steps != [] && ((h < |s.handshakes| && Fails(s, steps[0], h)) || FailsIn(Do(s, steps[0]), steps[1..], h))
  }

  predicate HasFailed(s: Server, h: nat) {
    h < |s.handshakes| && s.handshakes[h].phase.Failed?
  }

  lemma StepFails(s: Server, step: Step, h: nat)
    requires Enabled(s, step)
    ensures HasFailed(Do(s, step), h) <==> HasFailed(s, h) || (h < |s.handshakes| && Fails(s, step, h))
  {
  }

  /** A handshake has failed exactly if some step ended it; so one wrong answer is final. */
  lemma {:induction false} FailedExactly(s: Server, steps: seq<Step>, h: nat)
    requires Possible(s, steps)
    ensures HasFailed(After(s, steps), h) <==> HasFailed(s, h) || FailsIn(s, steps, h)
    decreases |steps|
  {
    if steps != [] {
      StepFails(s, steps[0], h);
      FailedExactly(Do(s, steps[0]), steps[1..], h);
    }
  }

  /** A failed handshake takes no step any more. */
  lemma FailedIsOver(s: Server, step: Step, h: nat)
    requires HasFailed(s, h) && Enabled(s, step)
    ensures Do(s, step).handshakes[h] == s.handshakes[h]
    ensures step != Lookup(h) && step != HangUp(h) && step != LockRegistry(h)
    ensures forall a, d :: step != Authenticate(h, a) && step != Acknowledge(h, d)
  {
  }

  /** While a handshake holds the registry's write lock, nobody else changes the registry. */
  lemma LockExcludes(s: Server, step: Step)
    requires Enabled(s, step) && s.writer.Some? && Locked(s) && Do(s, step).channels != s.channels
    ensures step.Acknowledge? && step.h == s.writer.value
  {
  }

  /** A service is being added: its reload has begun and not finished. */
  ghost predicate Adding(steps: seq<Step>) {
    exists i :: 0 <= i < |steps| && steps[i].ReloadAdd? && ReloadFinish !in steps[i..]
  }

  lemma AddingGrows(steps: seq<Step>, last: Step)
    ensures Adding(steps + [last]) <==> last.ReloadAdd? || (Adding(steps) && last != ReloadFinish)
  {
    var all := steps + [last];
    if Adding(steps) && last != ReloadFinish {
      var i :| 0 <= i < |steps| && steps[i].ReloadAdd? && ReloadFinish !in steps[i..];
      assert all[i..] == steps[i..] + [last];
    }
    if last.ReloadAdd? {
      assert all[|steps|..] == [last];
    }
    if Adding(all) && !last.ReloadAdd? {
      var i :| 0 <= i < |all| && all[i].ReloadAdd? && ReloadFinish !in all[i..];
      assert i < |steps| && all[i..] == steps[i..] + [last];
      assert steps[i].ReloadAdd? && last in all[i..];
    }
  }

  /** The services lock is kept through a reload exactly while a service is being added. */
  lemma {:induction false} HoldsServicesExactly(services: map<Digest, ServerServiceConfig>, steps: seq<Step>)
    requires Possible(Start(services), steps)
    ensures var s := After(Start(services), steps);
      (s.reloading.Midway? && s.reloading.holdsServices) <==> Adding(steps)
    decreases |steps|
  {
    var s0 := Start(services);
    if steps != [] {
      var n := |steps| - 1;
      SplitLast(s0, steps);
      HoldsServicesExactly(services, steps[..n]);
      AddingGrows(steps[..n], steps[n]);
      assert steps == steps[..n] + [steps[n]];
    }
  }

  /** So a handshake waits for the service table exactly while a service is being added;
      neither deleting one nor any other handshake keeps it waiting. */
  lemma LookupWaitsExactly(services: map<Digest, ServerServiceConfig>, steps: seq<Step>, h: nat)
    requires Possible(Start(services), steps) && h < |After(Start(services), steps).handshakes|
    requires After(Start(services), steps).handshakes[h].phase.Greeted?
    ensures Enabled(After(Start(services), steps), Lookup(h)) <==> !Adding(steps)
  {
    HoldsServicesExactly(services, steps);
  }

  /** Without fresh nonces: the section that replaces a service's channel files the new
      one exactly when no other service's channel has the same key; otherwise the service
      is left with none, although the client has been told Ok. */
  lemma CommitOutcome(channels: set<(Digest, Digest, Channel)>, service: Digest, key: Digest, ch: Channel)
    ensures var after := Inserted(Without1(channels, service), service, key, ch);
      if exists c :: c in channels && c.0 != service && c.1 == key then !HasKey1(after, service)
      else (service, key, ch) in after
  {
  }

  lemma {:induction false} Append(s: Server, steps: seq<Step>, last: Step)
    requires Possible(s, steps) && Enabled(After(s, steps), last)
    ensures Possible(s, steps + [last]) && After(s, steps + [last]) == Do(After(s, steps), last)
    decreases |steps|
  {
    if steps == [] {
      assert [last][1..] == [];
    } else {
      assert (steps + [last])[1..] == steps[1..] + [last];
      Append(Do(s, steps[0]), steps[1..], last);
    }
  }

  /** A handshake has read the old configuration when a reload replaces it. */
  lemma OvertakenHandshake(old_: ServerServiceConfig, new_: ServerServiceConfig, nonce: Bytes)
    returns (steps: seq<Step>)
    requires old_.name == new_.name && |nonce| == HASH_WIDTH_IN_BYTES
    ensures Possible(Start(map[Digest(old_.name) := old_]), steps)
    ensures var s := After(Start(map[Digest(old_.name) := old_]), steps);
      && s.handshakes == [Handshake(Digest(old_.name), nonce, LookedUp(old_, 1))]
      && s.services == map[Digest(old_.name) := new_] && s.channels == {} && s.writer.None? && s.reloading == Quiet
  {
    var d := Digest(old_.name);
    var s0 := Start(map[d := old_]);
    steps := [];
    Append(s0, steps, Connect(d, nonce));
    steps := steps + [Connect(d, nonce)];
    Append(s0, steps, Lookup(0));
    steps := steps + [Lookup(0)];
    Append(s0, steps, ReloadAdd(new_));
    steps := steps + [ReloadAdd(new_)];
    Append(s0, steps, ReloadFinish);
    steps := steps + [ReloadFinish];
  }

  /** The race behind the last case of RegistryAfterAnyRun is real: a handshake that
      looked up before a reload and committed after it leaves a channel with the old
      configuration registered, with no reload in progress. */
  lemma StaleChannelIsReachable(old_: ServerServiceConfig, new_: ServerServiceConfig, nonce: Bytes)
    returns (steps: seq<Step>)
    requires old_ != new_ && old_.name == new_.name && !old_.serviceType.Http?
    requires |nonce| == HASH_WIDTH_IN_BYTES
    ensures Possible(Start(map[Digest(old_.name) := old_]), steps)
    ensures var s := After(Start(map[Digest(old_.name) := old_]), steps);
      && s.reloading == Quiet && s.services == map[Digest(old_.name) := new_]
      && exists c :: c in s.channels && c.0 == Digest(old_.name) && c.2.cfg == old_
  {
    var s0 := Start(map[Digest(old_.name) := old_]);
    var key := SessionKey(old_, nonce);
    steps := OvertakenHandshake(old_, new_, nonce);
    Append(s0, steps, Authenticate(0, key));
    steps := steps + [Authenticate(0, key)];
    Append(s0, steps, LockRegistry(0));
    steps := steps + [LockRegistry(0)];
    var s := After(s0, steps);
    assert s.channels == {};
    Append(s0, steps, Acknowledge(0, true));
    steps := steps + [Acknowledge(0, true)];
    assert (Digest(old_.name), key, Channel(old_, 0, 1, s.clock)) in After(s0, steps).channels;
  }
}
