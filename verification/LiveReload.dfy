/** Reloads of `server.rs` under load: the difference of two versions of the file, or all
    the watcher sends, handled while handshakes go on at every await. */
module LiveReload {
  import opened Basics
  import opened Configs
  import opened MultiMaps
  import opened Reload
  import opened Sessions

  /** The change a step begins to handle, if any. */
  function Begun(step: Step): seq<ConfigChange> {
    match step
    case ReloadAdd(cfg) => [ServerChange(Add(cfg))]
    case ReloadDelete(name) => [ServerChange(Delete(name))]
    case _ => []
  }

  /** The changes a run handles, oldest first, with any other steps in between. */
  function Handled(steps: seq<Step>): seq<ConfigChange> {
    if steps == [] then [] else Begun(steps[0]) + Handled(steps[1..])
  }

  /** The events that are for a server; it ignores the others. */
  function ForServer(es: seq<ConfigChange>): seq<ConfigChange> {
    if es == [] then [] else (if es[0].ServerChange? then [es[0]] else []) + ForServer(es[1..])
  }

  lemma {:induction false} SameServerEdits(es: seq<ConfigChange>)
    ensures ServerEdits(ForServer(es)) == ServerEdits(es)
  {
    if es != [] {
      SameServerEdits(es[1..]);
      ServerEditsOfBoth(if es[0].ServerChange? then [es[0]] else [], ForServer(es[1..]));
    }
  }

  lemma EditsOfStep(step: Step, rest: seq<ConfigChange>)
    ensures ServerEdits(Begun(step) + rest) == ServerEdits(Begun(step)) + ServerEdits(rest)
    ensures ServerEdits(Begun(step)) ==
      match step
      case ReloadAdd(cfg) => [Put(Digest(cfg.name), cfg)]
      case ReloadDelete(name) => [Erase(Digest(name))]
      case _ => []
  {
    ServerEditsOfBoth(Begun(step), rest);
  }

  /** Handshakes never touch the service table: it follows the changes handled alone. */
  lemma {:induction false} TableFollowsEvents(s: Server, steps: seq<Step>)
    requires Possible(s, steps)
    ensures After(s, steps).services == ApplyEdits(s.services, ServerEdits(Handled(steps)))
    decreases |steps|
  {
    if steps != [] {
      TableFollowsEvents(Do(s, steps[0]), steps[1..]);
      EditsOfStep(steps[0], Handled(steps[1..]));
      var tail := ServerEdits(Handled(steps[1..]));
      if ServerEdits(Begun(steps[0])) == [] {
        assert ServerEdits(Handled(steps)) == tail;
      } else {
        assert ServerEdits(Handled(steps))[1..] == tail;
      }
    }
  }

  lemma {:induction false} UpdatedByEvents(s: Server, steps: seq<Step>, d: Digest)
    requires Possible(s, steps) && d !in s.updated && d !in Touched(Handled(steps))
    ensures d !in After(s, steps).updated
    decreases |steps|
  {
    if steps != [] {
      EditsOfStep(steps[0], Handled(steps[1..]));
      UpdatedByEvents(Do(s, steps[0]), steps[1..], d);
    }
  }

  /** A run that handles the events, in their order, under any load. */
  ghost predicate Follows(start: Server, steps: seq<Step>, es: seq<ConfigChange>) {
    Possible(start, steps) && Handled(steps) == ForServer(es)
  }

  lemma FollowerTable(services: map<Digest, ServerServiceConfig>, steps: seq<Step>, es: seq<ConfigChange>)
    requires Follows(Start(services), steps, es)
    ensures After(Start(services), steps).services == ApplyEdits(services, ServerEdits(es))
    ensures Touched(Handled(steps)) == Touched(es)
  {
    SameServerEdits(es);
    TableFollowsEvents(Start(services), steps);
  }

  /** The service table is `table`; a registered channel that was not overtaken has its
      configuration; and only a service in `touched` has one that was. */
  ghost predicate InStep(s: Server, table: map<Digest, ServerServiceConfig>, touched: set<Digest>) {
    && s.services == table
    && forall c :: c in s.channels ==> if Overtaken(s, c) then c.0 in touched else Get(table, c.0) == Some(c.2.cfg)
  }

  /** Whatever handshakes go on while the events are handled, the server ends in step. */
  lemma FollowerInStep(services: map<Digest, ServerServiceConfig>, steps: seq<Step>, es: seq<ConfigChange>,
                       table: map<Digest, ServerServiceConfig>)
    requires Follows(Start(services), steps, es) && ApplyEdits(services, ServerEdits(es)) == table
    ensures InStep(After(Start(services), steps), table, Touched(es))
  {
    var s := After(Start(services), steps);
    FollowerTable(services, steps, es);
    forall c | c in s.channels
      ensures if Overtaken(s, c) then c.0 in Touched(es) else Get(s.services, c.0) == Some(c.2.cfg)
    {
      RegistryAfterAnyRun(services, steps, c);
      if c.0 !in Touched(es) {
        UpdatedByEvents(Start(services), steps, c.0);
      }
    }
  }

  /** Every server that started with the table and handled the events is in step. */
  ghost predicate AllInStep(services: map<Digest, ServerServiceConfig>, es: seq<ConfigChange>,
                            table: map<Digest, ServerServiceConfig>) {
    forall steps :: Follows(Start(services), steps, es) ==> InStep(After(Start(services), steps), table, Touched(es))
  }

  lemma FollowersInStep(services: map<Digest, ServerServiceConfig>, es: seq<ConfigChange>,
                        table: map<Digest, ServerServiceConfig>)
    requires ApplyEdits(services, ServerEdits(es)) == table
    ensures AllInStep(services, es, table)
  {
    forall steps | Follows(Start(services), steps, es)
      ensures InStep(After(Start(services), steps), table, Touched(es))
    {
      FollowerInStep(services, steps, es, table);
    }
  }

  /** The difference of two versions, handled in any order while handshakes interleave at
      every await: the table ends as the new version's, and only a service that differs
      between the versions can have a channel without the new configuration. */
  lemma ReloadUnderLoad(old_: map<Bytes, ServerServiceConfig>, new_: map<Bytes, ServerServiceConfig>,
                        es: seq<ConfigChange>)
    requires forall n :: n in old_ ==> old_[n].name == n
    requires forall n :: n in new_ ==> new_[n].name == n
    requires forall x :: ServerChange(x) in es <==> IsChange(x, old_, new_)
    ensures AllInStep(ServiceTable(old_), es, ServiceTable(new_))
    ensures forall d :: d in Touched(es) <==> Get(ServiceTable(old_), d) != Get(ServiceTable(new_), d)
  {
    DifferenceMakesTable(es, old_, new_);
    FollowersInStep(ServiceTable(old_), es, ServiceTable(new_));
  }

  // ----- Channels that a reload must not touch -----

  predicate MidwayOn(s: Server, d: Digest) {
    s.reloading.Midway? && s.reloading.service == d
  }

  /** Some handshake of the service reached its commit in these steps. */
  ghost predicate Replaced(s': Server, steps: seq<Step>, d: Digest) {
    exists h: nat :: LockRegistry(h) in steps && h < |s'.handshakes| && s'.handshakes[h].service == d
  }

  lemma {:induction false} ServicesStay(s: Server, steps: seq<Step>)
    requires Possible(s, steps)
    ensures |s.handshakes| <= |After(s, steps).handshakes|
    ensures forall h :: 0 <= h < |s.handshakes| ==> After(s, steps).handshakes[h].service == s.handshakes[h].service
    decreases |steps|
  {
    if steps != [] {
      ServicesStay(Do(s, steps[0]), steps[1..]);
    }
  }

  lemma ReplacedFirst(s: Server, steps: seq<Step>, d: Digest)
    requires Possible(s, steps) && steps != []
    ensures var s' := After(s, steps);
      Replaced(s', steps, d) <==>
        (steps[0].LockRegistry? && s.handshakes[steps[0].h].service == d) || Replaced(s', steps[1..], d)
  {
    var s' := After(s, steps);
    ServicesStay(s, steps);
    assert forall x :: x in steps <==> x == steps[0] || x in steps[1..];
    if Replaced(s', steps[1..], d) {
      var h: nat :| LockRegistry(h) in steps[1..] && h < |s'.handshakes| && s'.handshakes[h].service == d;
      assert LockRegistry(h) in steps;
    }
    if steps[0].LockRegistry? {
      assert LockRegistry(steps[0].h) in steps;
    }
  }

  /** A channel goes in two steps only. */
  lemma DropsExactly(s: Server, step: Step, c: (Digest, Digest, Channel))
    requires Enabled(s, step) && c in s.channels
    ensures c in Do(s, step).channels <==>
      && !(step.LockRegistry? && s.handshakes[step.h].service == c.0)
      && !(step.ReloadFinish? && MidwayOn(s, c.0))
  {
  }

  lemma StillUntouched(s: Server, step: Step, rest: seq<Step>, d: Digest)
    requires Enabled(s, step) && !MidwayOn(s, d) && d !in Touched(Handled([step] + rest))
    ensures !MidwayOn(Do(s, step), d) && d !in Touched(Handled(rest))
  {
    assert ([step] + rest)[1..] == rest;
    EditsOfStep(step, Handled(rest));
    if step.ReloadAdd? || step.ReloadDelete? {
      assert ServerEdits(Handled([step] + rest))[0] in ServerEdits(Handled([step] + rest));
    }
  }

  lemma StaysRegistered(s: Server, step: Step, h: nat)
    requires Enabled(s, step) && h < |s.handshakes| && s.handshakes[h].phase.Registered?
    ensures h < |Do(s, step).handshakes| && Do(s, step).handshakes[h].phase.Registered?
  {
  }

  lemma DroppedForGood(s: Server, steps: seq<Step>, c: (Digest, Digest, Channel))
    requires Inv(s) && Possible(s, steps) && steps != [] && c in s.channels && c !in Do(s, steps[0]).channels
    ensures c !in After(s, steps).channels
  {
    assert c.2.handshake < |s.handshakes| && s.handshakes[c.2.handshake].phase.Registered?;
    StaysRegistered(s, steps[0], c.2.handshake);
    StepKeepsInv(s, steps[0]);
    GoneForGood(Do(s, steps[0]), steps[1..], c);
  }

  /** Through any run whose changes leave its service alone, a channel stays registered
      exactly as long as no other handshake of the service commits. */
  lemma {:induction false} KeptUnderLoad(s: Server, steps: seq<Step>, c: (Digest, Digest, Channel))
    requires Inv(s) && Possible(s, steps) && c in s.channels
    requires !MidwayOn(s, c.0) && c.0 !in Touched(Handled(steps))
    ensures c in After(s, steps).channels <==> !Replaced(After(s, steps), steps, c.0)
    decreases |steps|
  {
    if steps != [] {
      var s' := Do(s, steps[0]);
      DropsExactly(s, steps[0], c);
      ReplacedFirst(s, steps, c.0);
      if c in s'.channels {
        StepKeepsInv(s, steps[0]);
        assert steps == [steps[0]] + steps[1..];
        StillUntouched(s, steps[0], steps[1..], c.0);
        KeptUnderLoad(s', steps[1..], c);
      } else {
        DroppedForGood(s, steps, c);
      }
    }
  }

  // ----- Following the file -----

  /** The watcher over successive contents of the file, as the server's table sees it. */
  method WatchServices(initial: Config, files: seq<Option<Config>>) returns (sent: seq<ConfigChange>, last: Config)
    requires RuntimeConfig(initial)
    ensures last == Versions(initial, files)[|Versions(initial, files)| - 1]
    ensures !SomeRestart(Versions(initial, files)) ==>
      && ApplyEdits(ServiceTable(ServerServices(initial)), ServerEdits(sent)) == ServiceTable(ServerServices(last))
      && TouchesChanged(sent, Versions(initial, files))
  {
    ghost var t: Tables<Channel> := Tables(ServiceTable(ServerServices(initial)), {});
    ghost var handles := map n | n in ClientServices(initial) :: Handle(ClientServices(initial)[n], 0);
    assert Running(Handles(handles, 1)) == ClientServices(initial);
    sent, last := WatchConfig(initial, files, t, Handles(handles, 1));
    ReplayIsEdits(t, sent);
  }

  /** The watcher and the server together: unless some version calls for a restart, every
      run that handles what was sent, whatever handshakes go on meanwhile, ends in step
      with the last version of the file, and the services touched on the way are those
      that changed from some version to the next. */
  method FollowUnderLoad(initial: Config, files: seq<Option<Config>>) returns (sent: seq<ConfigChange>, last: Config)
    requires RuntimeConfig(initial)
    ensures last == Versions(initial, files)[|Versions(initial, files)| - 1]
    ensures !SomeRestart(Versions(initial, files)) ==>
      && AllInStep(ServiceTable(ServerServices(initial)), sent, ServiceTable(ServerServices(last)))
      && TouchesChanged(sent, Versions(initial, files))
  {
    sent, last := WatchServices(initial, files);
    if !SomeRestart(Versions(initial, files)) {
      FollowersInStep(ServiceTable(ServerServices(initial)), sent, ServiceTable(ServerServices(last)));
    }
  }
}
