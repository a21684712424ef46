/** The client's table of running services in `client.rs`. */
module Clients {
  import opened Basics
  import opened Configs
  import opened Reload

  class Client {
    var serviceHandles: map<Bytes, Handle>
    ghost var spawned: nat // control channels started so far

    ghost function View(): Handles
      reads this
    {
      Handles(serviceHandles, spawned)
    }

    constructor ()
      ensures View() == Handles(map[], 0)
    {
      serviceHandles := map[];
      spawned := 0;
    }

    /** `ControlChannelHandle::new` starts a control channel; `id` tells them apart. */
    method Spawn(cfg: ClientServiceConfig, id: nat) returns (handle: Handle)
      requires id == spawned
      modifies this`spawned
      ensures handle == Handle(cfg, old(spawned)) && spawned == old(spawned) + 1
    {
      handle := Handle(cfg, id);
      spawned := spawned + 1;
    }

    /** The start of `run`: one control channel for each service, filed under its name. */
    method StartAll(config: ClientConfig)
      requires View() == Handles(map[], 0)
      modifies this
      ensures Running(View()) == config.services
      ensures forall m, n :: m in serviceHandles && n in serviceHandles && m != n ==>
        serviceHandles[m].id != serviceHandles[n].id
      ensures forall n :: n in serviceHandles ==> serviceHandles[n].id < spawned
    {
      var todo := config.services.Keys;
      var id := 0;
      while todo != {}
        invariant todo <= config.services.Keys && id == spawned
        invariant serviceHandles.Keys == config.services.Keys - todo
        invariant forall n :: n in serviceHandles ==>
          serviceHandles[n].cfg == config.services[n] && serviceHandles[n].id < spawned
        invariant forall m, n :: m in serviceHandles && n in serviceHandles && m != n ==>
          serviceHandles[m].id != serviceHandles[n].id
      {
        var name :| name in todo;
        var handle := Spawn(config.services[name], id);
        id := id + 1;
        serviceHandles := serviceHandles[name := handle];
        todo := todo - {name};
      }
      assert Running(View()) == config.services;
    }

    /** Starts or drops one service; dropping a handle stops its control channel. */
    method HandleHotReload(e: ConfigChange, id: nat) returns (next: nat)
      requires id == spawned
      modifies this
      ensures View() == OnClient(old(View()), e) && next == spawned
    {
      next := id;
      match e {
        case ClientChange(change) =>
          match change {
            case Add(cfg) =>
              var handle := Spawn(cfg, id);
              next := id + 1;
              serviceHandles := serviceHandles[cfg.name := handle];
            case Delete(name) =>
              serviceHandles := serviceHandles - {name};
          }
        case _ =>
      }
    }

    method HandleAll(events: seq<ConfigChange>, id: nat)
      requires id == spawned
      modifies this
      ensures View() == ReplayClient(old(View()), events)
    {
      var next := id;
      for n := 0 to |events|
        invariant next == spawned
        invariant ReplayClient(View(), events[n..]) == ReplayClient(old(View()), events)
      {
        next := HandleHotReload(events[n], next);
        assert events[n..][1..] == events[n + 1..];
      }
    }

    /** A client in step with one version of the file replays the watcher's events for the
        next one: it then runs exactly the new services, and every service whose
        configuration did not change is still on the control channel it was on. */
    method ReloadTo(old_: ClientConfig, new_: ClientConfig, id: nat) returns (restart: bool)
      requires id == spawned && RuntimeClient(old_) && RuntimeClient(new_)
      requires Running(View()) == old_.services
      modifies this
      ensures restart <==> new_ != old_.(services := new_.services)
      ensures restart ==> View() == old(View())
      ensures !restart ==> Running(View()) == new_.services
      ensures !restart ==> forall n :: n in new_.services ==>
        if Get(old_.services, n) == Get(new_.services, n) then serviceHandles[n] == old(serviceHandles)[n]
        else serviceHandles[n].id >= old(spawned)
    {
      var events := CalculateClientEvents(old_, new_);
      restart := events.None?;
      if !restart {
        ClientReload(View(), events.value, old_.services, new_.services);
        HandleAll(events.value, id);
      }
    }
  }
}
