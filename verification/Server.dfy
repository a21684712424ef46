/** The server's two shared tables of `server.rs` and the sections that update them under
    their locks. `ServerTasks` runs these sections from interleaved tasks. */
module Servers {
  import opened Basics
  import opened Configs
  import opened MultiMaps
  import opened Reload
  import Sessions

  function ServiceOf(change: ServiceChange<ServerServiceConfig>): Digest {
    match change
    case Add(cfg) => Digest(cfg.name)
    case Delete(name) => Digest(name)
  }

  type Registry = MultiMap<Digest, Digest, Sessions.Channel>

  class Server {
    var services: map<Digest, ServerServiceConfig>
    var channels: Registry

    ghost predicate Valid()
      reads this, channels, channels.born`live
    {
      channels.Valid()
    }

    ghost function View(): Tables<Sessions.Channel>
      reads this, channels, channels.born
    {
      Tables(services, channels.Contents())
    }

    /** `generate_service_hashmap`. */
    static method GenerateServiceHashmap(config: ServerConfig) returns (ret: map<Digest, ServerServiceConfig>)
      ensures ret == ServiceTable(config.services)
    {
      ret := map[];
      var todo := config.services.Keys;
      while todo != {}
        invariant todo <= config.services.Keys
        invariant ret == map n | n in config.services.Keys - todo :: Digest(n) := config.services[n]
      {
        var n :| n in todo;
        ret := ret[Digest(n) := config.services[n]];
        todo := todo - {n};
      }
    }

    constructor (config: ServerConfig)
      ensures Valid() && fresh(channels) && channels.born == {}
      ensures View() == Tables(ServiceTable(config.services), {})
    {
      var table := GenerateServiceHashmap(config);
      var empty := new MultiMap();
      services := table;
      channels := empty;
    }

    /** First half of a reload, under the services lock. */
    method UpdateService(change: ServiceChange<ServerServiceConfig>) returns (service: Digest)
      modifies this`services
      ensures service == ServiceOf(change)
      ensures services == match change
                          case Add(cfg) => old(services)[service := cfg]
                          case Delete(_) => old(services) - {service}
    {
      service := ServiceOf(change);
      match change
      case Add(cfg) => services := services[service := cfg];
      case Delete(_) => services := services - {service};
    }

    /** Second half of a reload, and first half of a commit, under the registry's lock. */
    method DropChannel(service: Digest) returns (dropped: bool)
      requires Valid()
      modifies channels, channels.Live()
      ensures Valid() && channels.born == old(channels.born)
      ensures channels.Contents() == Without1(old(channels.Contents()), service)
      ensures dropped == HasKey1(old(channels.Contents()), service)
    {
      var previous := channels.Remove1(service);
      dropped := previous.Some?;
    }

    /** Replaces or removes a service, then drops whatever channel it had. */
    method HandleHotReload(e: ConfigChange)
      requires Valid()
      modifies this`services, channels, channels.Live()
      ensures Valid() && channels.born == old(channels.born)
      ensures View() == OnServer(old(View()), e)
    {
      match e {
        case ServerChange(change) =>
          var service := UpdateService(change);
          var _ := DropChannel(service);
        case _ =>
      }
    }

    /** The receiving half of the update queue. */
    method HandleAll(events: seq<ConfigChange>)
      requires Valid()
      modifies this`services, channels, channels.Live()
      ensures Valid() && channels.born == old(channels.born)
      ensures View() == ReplayServer(old(View()), events)
    {
      for n := 0 to |events|
        invariant Valid() && channels.born == old(channels.born) && channels.Live() <= old(channels.Live())
        invariant ReplayServer(View(), events[n..]) == ReplayServer(old(View()), events)
      {
        HandleHotReload(events[n]);
        assert events[n..][1..] == events[n + 1..];
      }
    }

    /** Second half of a commit, still under the registry's lock. The answer of `insert` is
        returned here; the source discards it. */
    method FileChannel(service: Digest, key: Digest, ch: Sessions.Channel)
      returns (r: Result<(), (Digest, Digest, Sessions.Channel)>)
      requires Valid()
      modifies channels
      ensures Valid() && fresh(channels.born - old(channels.born))
      ensures channels.Contents() == Inserted(old(channels.Contents()), service, key, ch)
      ensures r.Err? <==> HasKey1(old(channels.Contents()), service) || HasKey2(old(channels.Contents()), key)
    {
      r := channels.Insert(service, key, ch);
    }

    /** The lookup of `do_data_channel_handshake`. */
    method Resolve(key: Digest) returns (r: Option<Sessions.Channel>)
      requires Valid()
      ensures Holds2(channels.Contents(), key, r)
    {
      r := channels.Get2(key);
    }

    /** Shutdown replaces the registry, which drops the old one and frees all of it. */
    method Shutdown()
      requires Valid()
      modifies this`channels, channels, channels.Live()
      ensures Valid() && fresh(channels) && View() == Tables(old(services), {})
      ensures forall i :: i in old(channels.born) ==> !i.live
    {
      channels.Drop();
      channels := new MultiMap();
    }

    /** The watcher's events replayed on the real tables: without a restart, a server in
        step with the first version of the file ends in step with the last, and keeps
        exactly the channels whose service stayed the same in every version. */
    method FollowFile(initial: Config, files: seq<Option<Config>>) returns (last: Config)
      requires Valid() && RuntimeConfig(initial)
      requires services == ServiceTable(ServerServices(initial))
      modifies this`services, channels, channels.Live()
      ensures Valid()
      ensures last == Versions(initial, files)[|Versions(initial, files)| - 1]
      ensures !SomeRestart(Versions(initial, files)) ==>
        && services == ServiceTable(ServerServices(last))
        && channels.Contents() == set c | c in old(channels.Contents()) && Steady(c.0, Versions(initial, files))
    {
      ghost var handles := map n | n in ClientServices(initial) :: Handle(ClientServices(initial)[n], 0);
      assert Running(Handles(handles, 1)) == ClientServices(initial);
      var sent;
      sent, last := WatchConfig(initial, files, View(), Handles(handles, 1));
      HandleAll(sent);
    }
  }
}
