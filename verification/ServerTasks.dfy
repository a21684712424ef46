/** The tasks of `server.rs` running on the shared tables: each method is what a handshake
    or a reload does from one await to the next, and takes exactly one step of `Sessions`. */
module ServerTasks {
  import opened Basics
  import opened Configs
  import opened MultiMaps
  import opened Reload
  import opened Sessions
  import Servers

  /** How a handshake ended: an acknowledgement was sent, or the connection was lost. */
  datatype Reply = Accepted | ServiceNotExist | AuthFailed | HungUp

  /** The shared tables and the tasks that use them. The clock and the two maps of times
      only record when steps were taken; no task looks at them. */
  class Tasks {
    const tables: Servers.Server
    var clock: nat
    var writer: Option<nat>
    var handshakes: seq<Handshake>
    var reloading: Reloading
    var updated: map<Digest, nat>
    var reloaded: map<Digest, nat>

    ghost predicate Valid()
      reads this, tables, tables.channels, tables.channels.born`live
    {
      tables.Valid()
    }

    ghost function View(): Server
      reads this, tables, tables.channels, tables.channels.born
    {
      Server(clock, tables.services, tables.channels.Contents(), writer, handshakes, reloading, updated, reloaded)
    }

    constructor (config: ServerConfig)
      ensures Valid() && View() == Start(ServiceTable(config.services))
      ensures fresh(tables) && fresh(tables.channels) && tables.channels.born == {}
    {
      tables := new Servers.Server(config);
      clock, writer, handshakes, reloading, updated, reloaded := 0, None, [], Quiet, map[], map[];
    }

    // ----- Handshakes -----

    /** A client says hello and gets a nonce. */
    method Greet(service: Digest, nonce: Bytes) returns (h: nat)
      requires FreshNonce(View(), nonce)
      modifies this`clock, this`handshakes
      ensures View() == Do(old(View()), Connect(service, nonce)) && h == |old(handshakes)|
    {
      h := |handshakes|;
      handshakes := handshakes + [Handshake(service, nonce, Greeted)];
      clock := clock + 1;
    }

    method SetPhase(h: nat, phase: Phase)
      requires h < |handshakes|
      modifies this`clock, this`handshakes
      ensures View() == Enter(old(View()), h, phase)
    {
      handshakes := handshakes[h := handshakes[h].(phase := phase)];
      clock := clock + 1;
    }

    /** Reads the service table under its read guard. */
    method ReadService(h: nat) returns (found: bool)
      requires Enabled(View(), Lookup(h))
      modifies this`clock, this`handshakes
      ensures View() == Do(old(View()), Lookup(h)) && found == (old(handshakes)[h].service in tables.services)
    {
      var service := handshakes[h].service;
      found := service in tables.services;
      SetPhase(h, if found then LookedUp(tables.services[service], clock) else Failed);
    }

    /** Compares the client's answer, if one comes, with the session key. */
    method CheckAnswer(h: nat, auth: Option<Digest>) returns (passed: bool)
      requires h < |handshakes| && handshakes[h].phase.LookedUp?
      modifies this`clock, this`handshakes
      ensures View() == Do(old(View()), if auth.Some? then Authenticate(h, auth.value) else HangUp(h))
      ensures passed <==> auth == Some(SessionKey(old(handshakes)[h].phase.cfg, old(handshakes)[h].nonce))
    {
      var hs := handshakes[h];
      passed := auth == Some(SessionKey(hs.phase.cfg, hs.nonce));
      SetPhase(h, if passed then Verified(hs.phase.cfg, hs.phase.at) else Failed);
    }

    /** Takes the registry's write lock, once nobody has it, and drops the service's
        previous channel. */
    method DropPrevious(h: nat) returns (dropped: bool)
      requires Valid() && Enabled(View(), LockRegistry(h))
      modifies this`clock, this`handshakes, this`writer, tables.channels, tables.channels.Live()
      ensures Valid() && tables.channels.born == old(tables.channels.born)
      ensures View() == Do(old(View()), LockRegistry(h))
      ensures tables.channels.Contents() == Without1(old(tables.channels.Contents()), old(handshakes)[h].service)
      ensures dropped == HasKey1(old(tables.channels.Contents()), old(handshakes)[h].service)
    {
      var hs := handshakes[h];
      dropped := tables.DropChannel(hs.service);
      writer := Some(h);
      SetPhase(h, Committing(hs.phase.cfg, hs.phase.at));
    }

    /** After the acknowledgement: makes the handle and files it, or gives up, and either
        way releases the lock. */
    method Conclude(h: nat, delivered: bool) returns (accepted: bool)
      requires Valid() && h < |handshakes| && handshakes[h].phase.Committing?
      modifies this`clock, this`handshakes, this`writer, tables.channels
      ensures Valid() && fresh(tables.channels.born - old(tables.channels.born))
      ensures View() == Do(old(View()), Acknowledge(h, delivered))
      ensures accepted <==> delivered && !old(handshakes)[h].phase.cfg.serviceType.Http?
      ensures var hs := old(handshakes)[h];
        tables.channels.Contents() ==
          if accepted
          then Inserted(old(tables.channels.Contents()), hs.service, SessionKey(hs.phase.cfg, hs.nonce),
                        Channel(hs.phase.cfg, h, hs.phase.at, old(clock)))
          else old(tables.channels.Contents())
    {
      var hs := handshakes[h];
      accepted := delivered && !hs.phase.cfg.serviceType.Http?;
      if accepted {
        var handle := Channel(hs.phase.cfg, h, hs.phase.at, clock);
        var _ := tables.FileChannel(hs.service, SessionKey(hs.phase.cfg, hs.nonce), handle);
        SetPhase(h, Registered(hs.phase.cfg, hs.phase.at, clock));
      } else {
        SetPhase(h, Failed);
      }
      writer := None;
    }

    /** The whole section under the registry's write lock, with nothing in between: the
        service's previous channel goes, and the new one is filed if the acknowledgement
        goes out. */
    method Commit(h: nat, delivered: bool) returns (accepted: bool)
      requires Valid() && Enabled(View(), LockRegistry(h))
      modifies this`clock, this`handshakes, this`writer, tables.channels, tables.channels.Live()
      ensures Valid() && fresh(tables.channels.born - old(tables.channels.born))
      ensures var hs := old(handshakes)[h];
        var cleared := Without1(old(tables.channels.Contents()), hs.service);
        && (accepted <==> delivered && !hs.phase.cfg.serviceType.Http?)
        && tables.channels.Contents() ==
             if accepted
             then Inserted(cleared, hs.service, SessionKey(hs.phase.cfg, hs.nonce),
                           Channel(hs.phase.cfg, h, hs.phase.at, old(clock) + 1))
             else cleared
    {
      var _ := DropPrevious(h);
      accepted := Conclude(h, delivered);
    }

    // ----- Reloads -----

    /** Updates the service table. Adding keeps the services lock, deleting releases it. */
    method BeginReload(change: ServiceChange<ServerServiceConfig>)
      requires reloading.Quiet?
      modifies this`clock, this`updated, this`reloading, tables`services
      ensures View() == Do(old(View()), match change
                                        case Add(cfg) => ReloadAdd(cfg)
                                        case Delete(name) => ReloadDelete(name))
    {
      var service := tables.UpdateService(change);
      updated := updated[service := clock];
      reloading := Midway(service, change.Add?);
      clock := clock + 1;
    }

    /** Drops whatever channel the service has, once nobody holds the registry's lock. */
    method FinishReload()
      requires Valid() && Enabled(View(), ReloadFinish)
      modifies this`clock, this`reloaded, this`reloading, tables.channels, tables.channels.Live()
      ensures Valid() && tables.channels.born == old(tables.channels.born)
      ensures View() == Do(old(View()), ReloadFinish)
    {
      var _ := tables.DropChannel(reloading.service);
      reloaded := reloaded[reloading.service := clock];
      reloading := Quiet;
      clock := clock + 1;
    }

    // ----- Whole runs on the shared tables -----

    /** Whatever step is possible, running the code of its task takes it. */
    method Perform(step: Step)
      requires Valid() && Enabled(View(), step)
      modifies this, tables`services, tables.channels, tables.channels.Live()
      ensures Valid() && fresh(tables.channels.born - old(tables.channels.born))
      ensures View() == Do(old(View()), step)
    {
      match step {
        case Connect(service, nonce) => var _ := Greet(service, nonce);
        case Lookup(h) => var _ := ReadService(h);
        case Authenticate(h, auth) => var _ := CheckAnswer(h, Some(auth));
        case HangUp(h) => SetPhase(h, Failed);
        case LockRegistry(h) => var _ := DropPrevious(h);
        case Acknowledge(h, delivered) => var _ := Conclude(h, delivered);
        case ReloadAdd(cfg) => BeginReload(Add(cfg));
        case ReloadDelete(name) => BeginReload(Delete(name));
        case ReloadFinish => FinishReload();
      }
    }

    /** The tasks' code run in any order the locks allow: the tables end where the run
        does, and so keep what every run keeps. */
    static method Run(config: ServerConfig, steps: seq<Step>) returns (t: Tasks)
      requires Possible(Start(ServiceTable(config.services)), steps)
      ensures t.Valid() && t.View() == After(Start(ServiceTable(config.services)), steps) && Inv(t.View())
    {
      ghost var start := Start(ServiceTable(config.services));
      t := new Tasks(config);
      for n := 0 to |steps|
        invariant fresh(t) && fresh(t.tables) && fresh(t.tables.channels) && fresh(t.tables.channels.born) && t.Valid()
        invariant Possible(start, steps[..n]) && t.View() == After(start, steps[..n])
      {
        Prefix(start, steps, n);
        t.Perform(steps[n]);
      }
      assert steps[..|steps|] == steps;
      ReachableInv(ServiceTable(config.services), steps);
    }

    /** A handshake up to its validation, with nothing in between: the reply it ends with,
        or None if the client may be registered. */
    method Admit(service: Digest, nonce: Bytes, auth: Option<Digest>) returns (h: nat, refusal: Option<Reply>)
      requires FreshNonce(View(), nonce) && reloading.Quiet?
      modifies this`clock, this`handshakes
      ensures h == |old(handshakes)| < |handshakes|
      ensures refusal ==
        if service !in tables.services then Some(ServiceNotExist)
        else if auth.None? then Some(HungUp)
        else if auth.value != SessionKey(tables.services[service], nonce) then Some(AuthFailed)
        else None
      ensures refusal.None? ==>
        && handshakes[h] == Handshake(service, nonce, Verified(tables.services[service], old(clock) + 1))
        && clock == old(clock) + 3
    {
      h := Greet(service, nonce);
      var found := ReadService(h);
      if !found {
        return h, Some(ServiceNotExist);
      }
      var passed := CheckAnswer(h, auth);
      if passed {
        refusal := None;
      } else {
        refusal := Some(if auth.Some? then AuthFailed else HungUp);
      }
    }

    /** One whole control-channel handshake with nothing in between. `auth` is what the
        client answers to the nonce, None if it hangs up; `delivered` says whether the final
        acknowledgement could be written. A service is looked up before anything is read,
        and the registry changes only for a client that proved it has the token. */
    method ControlHandshake(service: Digest, nonce: Bytes, auth: Option<Digest>, delivered: bool) returns (reply: Reply)
      requires Valid() && FreshNonce(View(), nonce) && reloading.Quiet? && writer.None?
      modifies this`clock, this`handshakes, this`writer, tables.channels, tables.channels.Live()
      ensures Valid() && fresh(tables.channels.born - old(tables.channels.born))
      ensures reply == ServiceNotExist <==> service !in tables.services
      ensures reply == AuthFailed <==>
        service in tables.services && auth.Some? && auth.value != SessionKey(tables.services[service], nonce)
      ensures reply != Accepted && (auth.None? || reply == ServiceNotExist || reply == AuthFailed) ==>
        tables.channels.Contents() == old(tables.channels.Contents())
      ensures service in tables.services && auth == Some(SessionKey(tables.services[service], nonce)) ==>
        var cfg := tables.services[service];
        var cleared := Without1(old(tables.channels.Contents()), service);
        && (reply == Accepted <==> delivered && !cfg.serviceType.Http?)
        && tables.channels.Contents() ==
             if reply == Accepted
             then Inserted(cleared, service, auth.value,
                           Channel(cfg, |old(handshakes)|, old(clock) + 1, old(clock) + 4))
             else cleared
    {
      var h, refusal := Admit(service, nonce, auth);
      if refusal.Some? {
        return refusal.value;
      }
      var accepted := Commit(h, delivered);
      reply := if accepted then Accepted else HungUp;
    }
  }
}
