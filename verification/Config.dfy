/** The configuration of `config.rs` and the validation that completes it: every
    service learns its own name and gets a token. */
module Configs {
  import opened Basics

  datatype ServiceType = Tcp | Udp | Http

  datatype ServerServiceConfig = ServerServiceConfig(
    serviceType: ServiceType, name: Bytes, bindAddr: Bytes, token: Option<Bytes>, nodelay: Option<bool>)

  /** digest(token ++ nonce). A validated service always has a token. */
  function SessionKey(cfg: ServerServiceConfig, nonce: Bytes): Digest {
    Digest((if cfg.token.Some? then cfg.token.value else []) + nonce)
  }

  datatype ClientServiceConfig = ClientServiceConfig(
    serviceType: ServiceType, name: Bytes, localAddr: Bytes, preferIpv6: bool, token: Option<Bytes>,
    nodelay: Option<bool>, retryInterval: Option<nat>)

  datatype TransportType = TcpTransport | TlsTransport | NoiseTransport | WebsocketTransport

  datatype ProxyScheme = Socks5Proxy | HttpProxy | OtherProxy

  datatype TlsConfig = TlsConfig(pkcs12: Option<Bytes>, pkcs12Password: Option<Bytes>)

  /** `other` stands for the settings that validation never looks at. */
  datatype TransportConfig = TransportConfig(
    transportType: TransportType, proxy: Option<ProxyScheme>, tls: Option<TlsConfig>, other: Bytes)

  datatype ServerConfig = ServerConfig(
    bindAddr: Bytes, defaultToken: Option<Bytes>, jwtSecret: Bytes, defaultCloudBackend: Option<Bytes>,
    services: map<Bytes, ServerServiceConfig>, transport: TransportConfig, heartbeatInterval: nat)

  datatype ClientConfig = ClientConfig(
    remoteAddr: Bytes, defaultToken: Option<Bytes>, preferIpv6: Option<bool>,
    services: map<Bytes, ClientServiceConfig>, transport: TransportConfig, heartbeatTimeout: nat, retryInterval: nat)

  datatype Config = Config(server: Option<ServerConfig>, client: Option<ClientConfig>)

  datatype ConfigError =
    | TokenNotSet(name: Bytes)
    | UnknownProxyScheme
    | MissingTls
    | MissingPkcs12
    | NeitherDefined

  function ValidateTransportConfig(t: TransportConfig, isServer: bool): Result<(), ConfigError> {
    if t.proxy == Some(OtherProxy) then Err(UnknownProxyScheme)
    else if t.transportType != TlsTransport then Ok(())
    else if t.tls.None? then Err(MissingTls)
    else if isServer && (t.tls.value.pkcs12.None? || t.tls.value.pkcs12Password.None?) then Err(MissingPkcs12)
    else Ok(())
  }

  function TokenOr(token: Option<Bytes>, default: Option<Bytes>): Option<Bytes> {
    if token.None? then default else token
  }

  function CompletedServerService(name: Bytes, s: ServerServiceConfig, default: Option<Bytes>): ServerServiceConfig {
    s.(name := name, token := TokenOr(s.token, default))
  }

  function CompletedClientService(name: Bytes, s: ClientServiceConfig, c: ClientConfig): ClientServiceConfig {
    s.(name := name, token := TokenOr(s.token, c.defaultToken),
       retryInterval := if s.retryInterval.None? then Some(c.retryInterval) else s.retryInterval)
  }

  function CompletedServer(c: ServerConfig): ServerConfig {
    c.(services := map n | n in c.services :: CompletedServerService(n, c.services[n], c.defaultToken))
  }

  function CompletedClient(c: ClientConfig): ClientConfig {
    c.(services := map n | n in c.services :: CompletedClientService(n, c.services[n], c))
  }

  /** A default token, or a token of its own for every service, and a usable transport. */
  ghost predicate AcceptableServer(c: ServerConfig) {
    && (c.defaultToken.Some? || forall n :: n in c.services ==> c.services[n].token.Some?)
    && ValidateTransportConfig(c.transport, true).Ok?
  }

  ghost predicate AcceptableClient(c: ClientConfig) {
    && (c.defaultToken.Some? || forall n :: n in c.services ==> c.services[n].token.Some?)
    && ValidateTransportConfig(c.transport, false).Ok?
  }

  /** A transport is turned down exactly for a proxy of an unknown scheme, or for TLS
      without its section or, on a server, without a key file and its password. */
  lemma TransportRefusedExactly(t: TransportConfig, isServer: bool)
    ensures ValidateTransportConfig(t, isServer) == Err(UnknownProxyScheme) <==> t.proxy == Some(OtherProxy)
    ensures ValidateTransportConfig(t, isServer) == Err(MissingTls) <==>
      t.proxy != Some(OtherProxy) && t.transportType == TlsTransport && t.tls == None
    ensures ValidateTransportConfig(t, isServer) == Err(MissingPkcs12) <==>
      && t.proxy != Some(OtherProxy) && t.transportType == TlsTransport && isServer
      && exists k, w :: t.tls == Some(TlsConfig(k, w)) && (k == None || w == None)
    ensures ValidateTransportConfig(t, isServer).Err? ==>
      ValidateTransportConfig(t, isServer).error in {UnknownProxyScheme, MissingTls, MissingPkcs12}
  {
    if t.tls.Some? {
      assert t.tls == Some(TlsConfig(t.tls.value.pkcs12, t.tls.value.pkcs12Password));
    }
  }

  method ValidateServerConfig(server: ServerConfig) returns (r: Result<ServerConfig, ConfigError>)
    ensures r.Ok? <==> AcceptableServer(server)
    ensures r.Ok? ==> r.value == CompletedServer(server)
    // A service keeps a token of its own and gets the default one only without; nothing
    // but its name and a missing token is filled in.
    ensures r.Ok? ==> ValidateTransportConfig(server.transport, true).Ok?
    ensures r.Ok? ==> r.value.(services := server.services) == server
    ensures r.Ok? ==> r.value.services.Keys == server.services.Keys
    ensures r.Ok? ==> forall n :: n in server.services ==>
      var before, after := server.services[n], r.value.services[n];
      && after.name == n && after.(name := before.name, token := before.token) == before
      && (before.token.Some? ==> after.token == before.token)
      && (before.token.None? ==> after.token == server.defaultToken && after.token.Some?)
    ensures r.Err? && r.error.TokenNotSet? ==>
      server.defaultToken.None? && r.error.name in server.services && server.services[r.error.name].token.None?
    ensures r.Err? ==> r.error != NeitherDefined
    ensures r.Err? && !r.error.TokenNotSet? ==> ValidateTransportConfig(server.transport, true) == Err(r.error)
  {
    var services := server.services;
    var todo := services.Keys;
    while todo != {}
      invariant services.Keys == server.services.Keys && todo <= services.Keys
      invariant forall n :: n in todo ==> services[n] == server.services[n]
      invariant forall n :: n in services.Keys - todo ==>
        services[n] == CompletedServerService(n, server.services[n], server.defaultToken) && services[n].token.Some?
    {
      var name :| name in todo;
      var s := services[name].(name := name);
      if s.token.None? {
        s := s.(token := server.defaultToken);
        if s.token.None? {
          return Err(TokenNotSet(name));
        }
      }
      services := services[name := s];
      todo := todo - {name};
    }
    var t := ValidateTransportConfig(server.transport, true);
    if t.Err? {
      return Err(t.error);
    }
    assert services == CompletedServer(server).services;
    r := Ok(server.(services := services));
  }

  method ValidateClientConfig(client: ClientConfig) returns (r: Result<ClientConfig, ConfigError>)
    ensures r.Ok? <==> AcceptableClient(client)
    ensures r.Ok? ==> r.value == CompletedClient(client)
    ensures r.Ok? ==> ValidateTransportConfig(client.transport, false).Ok?
    ensures r.Ok? ==> r.value.(services := client.services) == client
    ensures r.Ok? ==> r.value.services.Keys == client.services.Keys
    ensures r.Ok? ==> forall n :: n in client.services ==>
      var before, after := client.services[n], r.value.services[n];
      && after.name == n
      && after.(name := before.name, token := before.token, retryInterval := before.retryInterval) == before
      && (before.token.Some? ==> after.token == before.token)
      && (before.token.None? ==> after.token == client.defaultToken && after.token.Some?)
      && (before.retryInterval.Some? ==> after.retryInterval == before.retryInterval)
      && (before.retryInterval.None? ==> after.retryInterval == Some(client.retryInterval))
    ensures r.Err? && r.error.TokenNotSet? ==>
      client.defaultToken.None? && r.error.name in client.services && client.services[r.error.name].token.None?
    ensures r.Err? ==> r.error != NeitherDefined
    ensures r.Err? && !r.error.TokenNotSet? ==> ValidateTransportConfig(client.transport, false) == Err(r.error)
  {
    var services := client.services;
    var todo := services.Keys;
    while todo != {}
      invariant services.Keys == client.services.Keys && todo <= services.Keys
      invariant forall n :: n in todo ==> services[n] == client.services[n]
      invariant forall n :: n in services.Keys - todo ==>
        services[n] == CompletedClientService(n, client.services[n], client) && services[n].token.Some?
    {
      var name :| name in todo;
      var s := services[name].(name := name);
      if s.token.None? {
        s := s.(token := client.defaultToken);
        if s.token.None? {
          return Err(TokenNotSet(name));
        }
      }
      if s.retryInterval.None? {
        s := s.(retryInterval := Some(client.retryInterval));
      }
      services := services[name := s];
      todo := todo - {name};
    }
    var t := ValidateTransportConfig(client.transport, false);
    if t.Err? {
      return Err(t.error);
    }
    assert services == CompletedClient(client).services;
    r := Ok(client.(services := services));
  }

  ghost predicate AcceptableConfig(c: Config) {
    && (c.server.Some? || c.client.Some?)
    && (c.server.Some? ==> AcceptableServer(c.server.value))
    && (c.client.Some? ==> AcceptableClient(c.client.value))
  }

  function CompletedConfig(c: Config): Config {
    Config(
      if c.server.Some? then Some(CompletedServer(c.server.value)) else None,
      if c.client.Some? then Some(CompletedClient(c.client.value)) else None)
  }

  /** What the rest of the program relies on: each service carries the name it is filed
      under, and has a token (and, on a client, a retry interval). */
  ghost predicate RuntimeServer(c: ServerConfig) {
    forall n :: n in c.services ==> c.services[n].name == n && c.services[n].token.Some?
  }

  ghost predicate RuntimeClient(c: ClientConfig) {
    forall n :: n in c.services ==>
      c.services[n].name == n && c.services[n].token.Some? && c.services[n].retryInterval.Some?
  }

  ghost predicate RuntimeConfig(c: Config) {
    (c.server.Some? ==> RuntimeServer(c.server.value)) && (c.client.Some? ==> RuntimeClient(c.client.value))
  }

  /** The tail of `from_str`: what a parsed file becomes, or why it is turned down. */
  method FromParsed(parsed: Config) returns (r: Result<Config, ConfigError>)
    ensures r.Ok? <==> AcceptableConfig(parsed)
    ensures r.Ok? ==> r.value == CompletedConfig(parsed) && RuntimeConfig(r.value)
    ensures r == Err(NeitherDefined) <==> parsed.server == None && parsed.client == None
    ensures r.Ok? <==>
      && !(parsed.server == None && parsed.client == None)
      && (parsed.server.Some? ==> AcceptableServer(parsed.server.value))
      && (parsed.client.Some? ==> AcceptableClient(parsed.client.value))
    ensures r.Ok? ==> r.value.server.Some? == parsed.server.Some? && r.value.client.Some? == parsed.client.Some?
  {
    var config := parsed;
    if config.server.Some? {
      var s := ValidateServerConfig(config.server.value);
      if s.Err? {
        return Err(s.error);
      }
      config := config.(server := Some(s.value));
    }
    if config.client.Some? {
      var c := ValidateClientConfig(config.client.value);
      if c.Err? {
        return Err(c.error);
      }
      config := config.(client := Some(c.value));
    }
    if config.server.None? && config.client.None? {
      return Err(NeitherDefined);
    }
    r := Ok(config);
  }

  /** A completed configuration is accepted again and completing it changes nothing. */
  lemma CompletionIsIdempotent(c: Config)
    requires AcceptableConfig(c)
    ensures AcceptableConfig(CompletedConfig(c)) && CompletedConfig(CompletedConfig(c)) == CompletedConfig(c)
  {
    if c.server.Some? {
      var s := CompletedServer(c.server.value);
      assert CompletedServer(s).services == s.services;
    }
    if c.client.Some? {
      var s := CompletedClient(c.client.value);
      assert CompletedClient(s).services == s.services;
    }
  }
}
