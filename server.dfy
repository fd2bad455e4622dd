/** The shared HTTP server provider (namekox_webserver/core/entrypoints/app/server.py):
    how its configuration is split into host, port, TLS arguments and server
    options, its start/stop flags, its registry binding, the URL map built from
    the registered handlers and the WSGI application's dispatch. Sockets, TLS
    and the WSGI engine are outside the model; they appear only as the values
    that record what was opened. */
module Server {
  import opened Wrappers
  import opened Handler
  import Bridge

  // ---------------------------------------------------------------------
  // Configuration

  /** A configuration value, with Python's truthiness. */
  datatype ConfigValue =
    | CNone
    | CBool(b: bool)
    | CInt(i: int)
    | CStr(s: string)
    | CList(items: seq<ConfigValue>)

  predicate Truthy(v: ConfigValue) {
    match v
    case CNone => false
    case CBool(b) => b
    case CInt(i) => i != 0
    case CStr(s) => s != ""
    case CList(items) => items != []
  }

  type Config = map<string, ConfigValue>

  /** `DEFAULT_WEBSERVER_HOST` and `DEFAULT_WEBSERVER_PORT`. */
  datatype Defaults = Defaults(host: ConfigValue, port: ConfigValue)

  const HOST_KEY: string := "host"
  const PORT_KEY: string := "port"
  const SERVER_SIDE_KEY: string := "server_side"
  const DEBUG_KEY: string := "debug"

  /** `WebServer.SSL_ARGS`: the keys that go to `wrap_ssl`. */
  const SSL_ARGS: seq<string> := [
    "keyfile", "certfile", "server_side", "cert_reqs",
    "ssl_version", "ca_certs",
    "do_handshake_on_connect", "suppress_ragged_eofs",
    "ciphers"
  ]

  /** `config.pop(key, default) or default`: the configured value unless it
      is missing or falsy. */
  function ConfigOr(config: Config, key: string, default: ConfigValue): (v: ConfigValue)
    ensures key in config && Truthy(config[key]) ==> v == config[key]
    ensures key !in config ==> v == default
    ensures key in config && !Truthy(config[key]) ==> v == default
  {
    if key in config && Truthy(config[key]) then config[key] else default
  }

  predicate HasSslKey(config: Config) {
    exists k :: k in SSL_ARGS && k in config
  }

  /** The TLS entries of the configuration. */
  function SslPart(config: Config): Config {
    map k | k in config && k in SSL_ARGS :: config[k]
  }

  /** The server options: every entry that is neither TLS nor host/port. */
  function SrvPart(config: Config): Config {
    map k | k in config && k !in SSL_ARGS && k != HOST_KEY && k != PORT_KEY :: config[k]
  }

  /** `sslargs` as intended: the TLS entries, with `server_side` forced on
      when there are any. */
  function SslArgs(config: Config): (args: Config)
    ensures forall k :: k in args ==> k in SSL_ARGS && (k == SERVER_SIDE_KEY || k in config)
    ensures forall k :: k in args && k != SERVER_SIDE_KEY ==> args[k] == config[k]
  {
    var p := SslPart(config);
    if p == map[] then p else p[SERVER_SIDE_KEY := CBool(true)]
  }

  /** `srvargs`: the remaining options, with `debug` forced on when there
      are any. */
  function SrvArgs(config: Config): (args: Config)
    ensures forall k :: k in args ==>
      k == DEBUG_KEY || (k in config && k !in SSL_ARGS && k != HOST_KEY && k != PORT_KEY)
    ensures forall k :: k in args && k != DEBUG_KEY ==> args[k] == config[k]
  {
    var p := SrvPart(config);
    if p == map[] then p else p[DEBUG_KEY := CBool(true)]
  }

  /** Every TLS key goes to `sslargs`, every other key but host/port goes to
      `srvargs`, and no key lands in both. */
  lemma PartitionRoutesEveryKey(config: Config)
    ensures forall k :: k in config && k in SSL_ARGS ==> k in SslArgs(config)
    ensures forall k :: k in config && k !in SSL_ARGS && k != HOST_KEY && k != PORT_KEY ==> k in SrvArgs(config)
    ensures forall k :: k in SslArgs(config) ==> k in SSL_ARGS
    ensures forall k :: k in SslArgs(config) ==> k == SERVER_SIDE_KEY || k in config
    ensures forall k :: k in SrvArgs(config) ==>
      k == DEBUG_KEY || (k in config && k !in SSL_ARGS && k != HOST_KEY && k != PORT_KEY)
    ensures SslArgs(config).Keys !! SrvArgs(config).Keys
    ensures HOST_KEY !in SslArgs(config) && HOST_KEY !in SrvArgs(config)
    ensures PORT_KEY !in SslArgs(config) && PORT_KEY !in SrvArgs(config)
  {
    assert SERVER_SIDE_KEY in SSL_ARGS;
    assert DEBUG_KEY !in SSL_ARGS && HOST_KEY !in SSL_ARGS && PORT_KEY !in SSL_ARGS;
    var ssl, srv := SslArgs(config), SrvArgs(config);
    forall k | k in ssl
      ensures k !in srv
    {
    }
  }

  /** Entries keep their configured values, except the two forced flags. */
  lemma PartitionKeepsValues(config: Config)
    ensures forall k :: k in config && k in SSL_ARGS && k != SERVER_SIDE_KEY ==> SslArgs(config)[k] == config[k]
    ensures forall k :: k in config && k !in SSL_ARGS && k != HOST_KEY && k != PORT_KEY && k != DEBUG_KEY ==>
      SrvArgs(config)[k] == config[k]
  {
  }

  /** `server_side` and `debug` are added only to a non-empty dictionary, so
      an empty one stays empty. */
  lemma PartitionForcedFlags(config: Config)
    ensures SslArgs(config) == map[] <==> !HasSslKey(config)
    ensures SslArgs(config) != map[] ==> SslArgs(config)[SERVER_SIDE_KEY] == CBool(true)
    ensures SrvArgs(config) == map[] <==>
      forall k :: k in config ==> k in SSL_ARGS || k == HOST_KEY || k == PORT_KEY
    ensures SrvArgs(config) != map[] ==> SrvArgs(config)[DEBUG_KEY] == CBool(true)
  {
    if HasSslKey(config) {
      var k :| k in SSL_ARGS && k in config;
      assert k in SslPart(config);
    }
    if !(forall k :: k in config ==> k in SSL_ARGS || k == HOST_KEY || k == PORT_KEY) {
      var k :| k in config && !(k in SSL_ARGS || k == HOST_KEY || k == PORT_KEY);
      assert k in SrvPart(config);
    }
  }

  /** The four fields that `setup` assigns. */
  datatype SetupState = SetupState(
    host: Option<ConfigValue>, port: Option<ConfigValue>,
    sslargs: Option<Config>, srvargs: Option<Config>)

  /** `setup` as intended, from the server's configuration section: all four
      fields are set, host and port fall back to their defaults, and the TLS
      arguments and server options share no key and never hold host or port. */
  function IntendedSetup(config: Config, defaults: Defaults): (st: SetupState)
    ensures st.host.Some? && st.port.Some? && st.sslargs.Some? && st.srvargs.Some?
    ensures HOST_KEY !in config ==> st.host == Some(defaults.host)
    ensures PORT_KEY !in config ==> st.port == Some(defaults.port)
    ensures st.sslargs.value.Keys !! st.srvargs.value.Keys
    ensures HOST_KEY !in st.sslargs.value && HOST_KEY !in st.srvargs.value
    ensures PORT_KEY !in st.sslargs.value && PORT_KEY !in st.srvargs.value
  {
    PartitionRoutesEveryKey(config);
    SetupState(Some(ConfigOr(config, HOST_KEY, defaults.host)), Some(ConfigOr(config, PORT_KEY, defaults.port)),
               Some(SslArgs(config)), Some(SrvArgs(config)))
  }

  /** What `setup` raises. */
  datatype SetupError = DictChangedSize   // RuntimeError: dictionary changed size during iteration

  /** `setup` as written, from a state where it runs: the comprehension on
      line 65 pops from the dictionary it iterates over, so the first TLS
      key makes it raise, after host and port were already assigned. */
  function SetupAsWritten(config: Config, defaults: Defaults): (r: (SetupState, Outcome<SetupError>))
    ensures r.1.Fail? <==> HasSslKey(config)
    ensures r.0.host == Some(ConfigOr(config, HOST_KEY, defaults.host))
    ensures r.0.port == Some(ConfigOr(config, PORT_KEY, defaults.port))
    ensures r.1.Fail? ==> r.0.sslargs.None? && r.0.srvargs.None?
    ensures r.1.Pass? ==> r.0.sslargs == Some(map[])
  {
    PartitionForcedFlags(config);
    var host := ConfigOr(config, HOST_KEY, defaults.host);
    var port := ConfigOr(config, PORT_KEY, defaults.port);
    if HasSslKey(config) then (SetupState(Some(host), Some(port), None, None), Fail(DictChangedSize))
    else (SetupState(Some(host), Some(port), Some(SslArgs(config)), Some(SrvArgs(config))), Pass)
  }

  /** The source's `setup` raises exactly when a TLS key is configured, and
      agrees with the intended partition otherwise. */
  lemma SetupAsWrittenRaisesIffSsl(config: Config, defaults: Defaults)
    ensures SetupAsWritten(config, defaults).1.Fail? <==> HasSslKey(config)
    ensures !HasSslKey(config) ==> SetupAsWritten(config, defaults).0 == IntendedSetup(config, defaults)
    ensures !HasSslKey(config) ==> SetupAsWritten(config, defaults).0.sslargs == Some(map[])
  {
    if !HasSslKey(config) {
      PartitionForcedFlags(config);
    }
  }

  /** The smallest TLS configuration: as written it raises, as intended it
      yields `{certfile, server_side: True}` and no server options. */
  lemma SetupAsWrittenCertfileOnly(defaults: Defaults)
    ensures SetupAsWritten(map["certfile" := CStr("c.pem")], defaults).1 == Fail(DictChangedSize)
    ensures IntendedSetup(map["certfile" := CStr("c.pem")], defaults).sslargs
         == Some(map["certfile" := CStr("c.pem"), SERVER_SIDE_KEY := CBool(true)])
    ensures IntendedSetup(map["certfile" := CStr("c.pem")], defaults).srvargs == Some(map[])
  {
    var config := map["certfile" := CStr("c.pem")];
    assert "certfile" in SSL_ARGS;
    assert SslPart(config) == config;
    assert SrvPart(config) == map[];
  }

  // ---------------------------------------------------------------------
  // URL map and WSGI application

  /** A werkzeug `Rule(rule, methods=..., endpoint=...)`. */
  datatype Rule = Rule(pattern: string, methods: seq<string>, endpoint: Entrypoint)

  /** The rule of one entrypoint (`BaseServerHandler.url_rule`). */
  function RuleOf(ep: Entrypoint): (r: Rule)
    ensures r.pattern == ep.rule && r.methods == ep.methods && r.endpoint == ep
  {
    Rule(ep.rule, ep.methods, ep)
  }

  /** One rule per entrypoint, in order. */
  function UrlRules(eps: seq<Entrypoint>): (rules: seq<Rule>)
    ensures |rules| == |eps|
    ensures forall i :: 0 <= i < |eps| ==> rules[i] == RuleOf(eps[i])
  {
    seq(|eps|, i requires 0 <= i < |eps| => RuleOf(eps[i]))
  }

  /** `WsgiApp`: the URL map built when the application is created. */
  datatype WsgiApp = WsgiApp(urlmap: seq<Rule>)

  /** What werkzeug's `adapter.match()` yields: the endpoint and path
      values, or a routing `HTTPException` (404, 405, ...). */
  datatype MatchResult = Found(endpoint: Entrypoint, params: map<string, string>) | RoutingError(code: int)

  /** What `WsgiApp.__call__` answers with: a handler's response, the routing
      exception used as the response, or an exception escaping the handler. */
  datatype AppResponse = Served(response: Response) | HttpError(code: int) | Raised(failure: Failure)

  /** `WsgiApp.__call__` as a function of the match and of the worker. */
  function AppOutcome(matched: MatchResult, submitError: Option<Exc>, worker: map<string, string> -> Triple)
    : (r: AppResponse)
    ensures r.HttpError? <==> matched.RoutingError?
    ensures matched.RoutingError? ==> r.code == matched.code
    ensures r.Served? ==>
      Respond(matched.endpoint.kind, Bridge.BridgeOutcome(submitError, worker(matched.params))) == Ok(r.response)
    ensures r.Raised? ==>
      Respond(matched.endpoint.kind, Bridge.BridgeOutcome(submitError, worker(matched.params))) == Err(r.failure)
  {
    match matched
    case RoutingError(code) => HttpError(code)
    case Found(ep, params) =>
      match Respond(ep.kind, Bridge.BridgeOutcome(submitError, worker(params)))
      case Ok(resp) => Served(resp)
      case Err(f) => Raised(f)
  }

  /** A routing failure is answered without any handler: the outcome is the
      routing exception, whatever the workers would have done. */
  lemma RoutingErrorSkipsHandlers(code: int, s1: Option<Exc>, w1: map<string, string> -> Triple,
                                  s2: Option<Exc>, w2: map<string, string> -> Triple)
    ensures AppOutcome(RoutingError(code), s1, w1) == AppOutcome(RoutingError(code), s2, w2) == HttpError(code)
  {
  }

  /** `WsgiApp.__call__`: the request gets the matched path values and goes
      to the matched handler; a routing exception becomes the response and
      leaves the request untouched. */
  method CallApp(app: WsgiApp, matched: MatchResult, request: Bridge.Request,
                 submitError: Option<Exc>, worker: map<string, string> -> Triple)
    returns (r: AppResponse)
    requires matched.Found? ==> RuleOf(matched.endpoint) in app.urlmap
    modifies request
    ensures r == AppOutcome(matched, submitError, worker)
    ensures matched.RoutingError? ==> unchanged(request)
    ensures matched.Found? ==> request.pathValues == matched.params && !request.shallow
  {
    match matched
    case RoutingError(code) =>
      r := HttpError(code);
    case Found(ep, params) =>
      request.pathValues := params;
      var res := Bridge.ServeRequest(ep.kind, request, submitError, worker);
      r := if res.Ok? then Served(res.value) else Raised(res.error);
  }

  // ---------------------------------------------------------------------
  // The server provider

  /** The listening socket opened by `eventlet.listen((host, port))`. */
  datatype Socket = Socket(host: ConfigValue, port: ConfigValue, open: bool)

  /** The accept-loop green thread. */
  datatype GreenThread = GreenThread(alive: bool)

  /** `wsgi.Server(sock, addr, app, **srvargs)`; `tls` holds the `wrap_ssl`
      arguments when the socket is wrapped. */
  datatype WsgiServer = WsgiServer(tls: Option<Config>, options: Config, app: WsgiApp)

  /** An accepted connection `(sock, addr)`. */
  datatype Connection = Connection(sock: nat, addr: string)

  /** What `stop` raises when `start` never ran. */
  datatype StopError = NotStarted   // AttributeError: None has no kill/close

  /** The container's `shared_providers` registry. */
  class Container {
    var sharedProviders: map<string, WebServer>

    constructor (sharedProviders: map<string, WebServer>)
      ensures this.sharedProviders == sharedProviders
    {
      this.sharedProviders := sharedProviders;
    }
  }

  /** `WebServer._key`: the class name. */
  const SERVER_KEY: string := "WebServer"

  class WebServer {
    var gt: Option<GreenThread>
    var host: Option<ConfigValue>
    var port: Option<ConfigValue>
    var evSock: Option<Socket>
    var evServ: Option<WsgiServer>
    var accpted: bool    // spelled as in the source
    var sslargs: Option<Config>
    var srvargs: Option<Config>
    var started: bool
    /** The registered handlers, in registration order. */
    var entrypoints: seq<Entrypoint>

    constructor (entrypoints: seq<Entrypoint>)
      ensures gt == None && host == None && port == None && evSock == None && evServ == None
      ensures accpted && sslargs == None && srvargs == None && !started
      ensures this.entrypoints == entrypoints
      ensures Valid()
    {
      gt, host, port, evSock, evServ := None, None, None, None, None;
      accpted, sslargs, srvargs, started := true, None, None, false;
      this.entrypoints := entrypoints;
    }

    /** All four fields that `setup` assigns are set. */
    predicate Configured()
      reads this
    {
      host.Some? && port.Some? && sslargs.Some? && srvargs.Some?
    }

    function State(): SetupState
      reads this
    {
      SetupState(host, port, sslargs, srvargs)
    }

    /** The socket, the WSGI server and the accept loop exist exactly once
        the server has started, and only a configured server starts. */
    ghost predicate Valid()
      reads this
    {
      && (started <==> gt.Some?)
      && (started <==> evSock.Some?)
      && (started <==> evServ.Some?)
      && (started ==> Configured())
    }

    /** `setup`, with the intended TLS partition: skipped once configured;
        otherwise host and port are popped with their defaults and the rest
        of the section is split into `sslargs` and `srvargs`. */
    method Setup(section: Option<Config>, defaults: Defaults)
      modifies this`host, this`port, this`sslargs, this`srvargs
      ensures Configured()
      ensures old(Configured()) ==> State() == old(State())
      ensures !old(Configured()) ==>
        State() == IntendedSetup(if section.Some? then section.value else map[], defaults)
      ensures old(Valid()) ==> Valid()
    {
      if Configured() {
        return;
      }
      var config := if section.Some? then section.value else map[];
      host := Some(ConfigOr(config, HOST_KEY, defaults.host));
      port := Some(ConfigOr(config - {HOST_KEY}, PORT_KEY, defaults.port));
      sslargs := Some(SslArgs(config));
      srvargs := Some(SrvArgs(config));
    }

    /** `bind`: get-or-insert of the registry entry under the class name. */
    method Bind(container: Container, name: string) returns (ins: WebServer)
      modifies container
      ensures SERVER_KEY in old(container.sharedProviders) ==>
        ins == old(container.sharedProviders[SERVER_KEY])
        && container.sharedProviders == old(container.sharedProviders)
      ensures SERVER_KEY !in old(container.sharedProviders) ==>
        fresh(ins) && container.sharedProviders == old(container.sharedProviders)[SERVER_KEY := ins]
      ensures SERVER_KEY in container.sharedProviders && container.sharedProviders[SERVER_KEY] == ins
    {
      if SERVER_KEY in container.sharedProviders {
        ins := container.sharedProviders[SERVER_KEY];
      } else {
        ins := new WebServer(entrypoints);
        container.sharedProviders := container.sharedProviders[SERVER_KEY := ins];
      }
    }

    /** `gen_urls_map`: one rule per registered entrypoint, in order. */
    method GenUrlsMap() returns (urlMap: seq<Rule>)
      ensures |urlMap| == |entrypoints|
      ensures forall i :: 0 <= i < |entrypoints| ==>
        urlMap[i].pattern == entrypoints[i].rule && urlMap[i].methods == entrypoints[i].methods
        && urlMap[i].endpoint == entrypoints[i]
      ensures urlMap == UrlRules(entrypoints)
    {
      urlMap := [];
      var i := 0;
      while i < |entrypoints|
        invariant 0 <= i <= |entrypoints|
        invariant |urlMap| == i
        invariant forall j :: 0 <= j < i ==> urlMap[j] == RuleOf(entrypoints[j])
      {
        urlMap := urlMap + [Rule(entrypoints[i].rule, entrypoints[i].methods, entrypoints[i])];
        i := i + 1;
      }
    }

    /** `get_wsgi_srv`: the socket is TLS-wrapped when `sslargs` is non-empty,
        and the application carries the URL map built now. */
    method GetWsgiSrv() returns (srv: WsgiServer)
      requires Configured()
      ensures srv.tls.Some? <==> sslargs.value != map[]
      ensures srv.tls.Some? ==> srv.tls.value == sslargs.value
      ensures srv.options == srvargs.value
      ensures srv.app.urlmap == UrlRules(entrypoints)
    {
      var urlMap := GenUrlsMap();
      var tls := if sslargs.value == map[] then None else Some(sslargs.value);
      srv := WsgiServer(tls, srvargs.value, WsgiApp(urlMap));
    }

    /** `start`: the first call opens the socket, builds the WSGI server and
        spawns the accept loop; any later call changes nothing. */
    method Start()
      requires Configured()
      modifies this`started, this`evSock, this`evServ, this`gt
      ensures started
      ensures old(started) ==> evSock == old(evSock) && evServ == old(evServ) && gt == old(gt)
      ensures !old(started) ==>
        && evSock == Some(Socket(host.value, port.value, true))
        && evServ == Some(WsgiServer(if sslargs.value == map[] then None else Some(sslargs.value),
                                     srvargs.value, WsgiApp(UrlRules(entrypoints))))
        && gt == Some(GreenThread(true))
      ensures old(Valid()) ==> Valid()
    {
      if !started {
        started := true;
        evSock := Some(Socket(host.value, port.value, true));
        var srv := GetWsgiSrv();
        evServ := Some(srv);
        gt := Some(GreenThread(true));
      }
    }

    /** `stop`: clears `accpted` first, then kills the accept loop and closes
        the socket; without a prior `start` the kill raises. */
    method Stop() returns (r: Outcome<StopError>)
      modifies this`accpted, this`gt, this`evSock
      ensures !accpted
      ensures old(gt).None? ==> r == Fail(NotStarted) && gt == old(gt) && evSock == old(evSock)
      ensures old(gt).Some? ==> gt == Some(GreenThread(false))
      ensures old(gt).Some? && old(evSock).None? ==> r == Fail(NotStarted) && evSock == None
      ensures old(gt).Some? && old(evSock).Some? ==>
        r == Pass && evSock == Some(old(evSock).value.(open := false))
      ensures old(Valid()) ==> Valid() && (r == Pass <==> started)
    {
      accpted := false;
      if gt.None? {
        return Fail(NotStarted);
      }
      gt := Some(GreenThread(false));
      if evSock.None? {
        return Fail(NotStarted);
      }
      evSock := Some(evSock.value.(open := false));
      r := Pass;
    }

    /** `handle_connect`: while `accpted` holds, every connection the socket
        yields is handed to its own `handle_request` thread; `incoming` is the
        sequence of connections `accept` returns, and `stopAfter` is the number
        of them handed off before a concurrent `stop` clears `accpted`. */
    method HandleConnect(incoming: seq<Connection>, stopAfter: Option<nat>) returns (spawned: seq<Connection>)
      requires accpted ==> evSock.Some? && evServ.Some?
      modifies this`accpted
      ensures spawned == incoming[..if old(accpted) then Handed(stopAfter, |incoming|) else 0]
      ensures accpted <==> old(accpted) && !(stopAfter.Some? && stopAfter.value < |incoming|)
    {
      spawned := [];
      var i := 0;
      while accpted && i < |incoming|
        invariant 0 <= i <= |incoming|
        invariant spawned == incoming[..i]
        invariant !old(accpted) ==> i == 0 && !accpted
        invariant old(accpted) && accpted ==> stopAfter.None? || i <= stopAfter.value
        invariant old(accpted) && !accpted ==> stopAfter == Some(i) && i < |incoming|
        decreases |incoming| - i, accpted
      {
        if stopAfter == Some(i) {
          accpted := false;
        } else {
          spawned := spawned + [incoming[i]];
          i := i + 1;
        }
      }
    }
  }

  /** How many of `n` accepted connections are handed off when a stop lands
      after `stopAfter` of them: all of them when no stop lands in time. */
  function Handed(stopAfter: Option<nat>, n: nat): (handed: nat)
    ensures handed <= n
    ensures handed < n <==> stopAfter.Some? && stopAfter.value < n
    ensures handed < n ==> handed == stopAfter.value
  {
    if stopAfter.Some? && stopAfter.value < n then stopAfter.value else n
  }

  /** Two binds of providers on one container return the same instance. */
  method BindTwice(a: WebServer, b: WebServer, container: Container) returns (first: WebServer, second: WebServer)
    modifies container
    ensures first == second
    ensures SERVER_KEY in container.sharedProviders && container.sharedProviders[SERVER_KEY] == first
  {
    first := a.Bind(container, "first");
    second := b.Bind(container, "second");
  }

  /** After `stop`, a second `start` changes nothing: the server stays stopped. */
  method StopThenStart(server: WebServer) returns (r: Outcome<StopError>)
    requires server.Valid() && server.started
    modifies server
    ensures r == Pass && !server.accpted && server.started
    ensures server.gt == Some(GreenThread(false))
    ensures server.evSock.Some? && !server.evSock.value.open
  {
    r := server.Stop();
    server.Start();
  }
}
