/**
 Building the proxy's routing tables. The listeners are walked in whatever order
 the configuration map gives; acceptance and the tables do not depend on it.
 */
module ProxyRouting {
  import opened Common

  datatype Listener = Listener(tenant: string, groups: seq<string>, targetPort: int, proxyPort: int, frontendIP: string)

  type Config = map<string, Listener>

  /** Routes of one port: one exclusive listener, or listeners chosen by normalized frontend address. */
  datatype Routes = Routes(exclusive: Option<string>, byFrontend: map<string, string>)

  /** Routes by port. */
  type Table = map<nat, Routes>

  /** Parses an address and prints it in normal form; None for text that is not an address. */
  type Parser = string -> Option<string>

  predicate PortInRange(port: int) {
    1 <= port <= 65535
  }

  ghost predicate ListenerOk(parse: Parser, l: Listener) {
    PortInRange(l.proxyPort) && (l.frontendIP != "" ==> parse(l.frontendIP).Some?)
  }

  /** Two listeners may share a port only as different frontends. */
  ghost predicate Compatible(parse: Parser, l: Listener, m: Listener) {
    l.proxyPort == m.proxyPort ==>
      l.frontendIP != "" && m.frontendIP != "" && parse(l.frontendIP) != parse(m.frontendIP)
  }

  /** The order-free acceptance condition, for the listeners with the given keys. */
  ghost predicate LoadableOn(parse: Parser, config: Config, keys: set<string>) {
    && (forall k :: k in keys && k in config ==> ListenerOk(parse, config[k]))
    && (forall k, k' :: k in keys && k' in keys && k in config && k' in config && k != k' ==>
          Compatible(parse, config[k], config[k']))
  }

  ghost predicate Loadable(parse: Parser, config: Config) {
    LoadableOn(parse, config, config.Keys)
  }

  predicate Exclusive(config: Config, k: string, port: nat) {
    k in config && config[k].proxyPort == port && config[k].frontendIP == ""
  }

  predicate Frontend(parse: Parser, config: Config, k: string, port: nat, ip: string) {
    k in config && config[k].proxyPort == port && config[k].frontendIP != "" && parse(config[k].frontendIP) == Some(ip)
  }

  /** The routes of one port hold the listeners with the given keys, each where its frontend puts it. */
  ghost predicate RoutesOf(parse: Parser, config: Config, keys: set<string>, port: nat, r: Routes) {
    && (forall k :: r.exclusive == Some(k) <==> k in keys && Exclusive(config, k, port))
    && (forall ip, k :: (ip in r.byFrontend && r.byFrontend[ip] == k) <==>
          k in keys && Frontend(parse, config, k, port, ip))
  }

  /** A table has a port exactly when a listener uses it, with that port's routes. */
  ghost predicate TableOn(parse: Parser, config: Config, keys: set<string>, table: Table) {
    && (forall port: nat :: port in table <==> exists k :: k in keys && k in config && config[k].proxyPort == port)
    && (forall port: nat :: port in table ==> RoutesOf(parse, config, keys, port, table[port]))
  }

  ghost predicate TableOf(parse: Parser, config: Config, table: Table) {
    TableOn(parse, config, config.Keys, table)
  }

  lemma RoutesUnique(parse: Parser, config: Config, keys: set<string>, port: nat, r: Routes, r': Routes)
    requires RoutesOf(parse, config, keys, port, r) && RoutesOf(parse, config, keys, port, r')
    ensures r == r'
  {
    assert r.exclusive.Some? ==> r'.exclusive == Some(r.exclusive.value);
    assert r'.exclusive.Some? ==> r.exclusive == Some(r'.exclusive.value);
    forall ip
      ensures ip in r.byFrontend <==> ip in r'.byFrontend
      ensures ip in r.byFrontend ==> r.byFrontend[ip] == r'.byFrontend[ip]
    {
      if ip in r.byFrontend {
        assert Frontend(parse, config, r.byFrontend[ip], port, ip);
      }
      if ip in r'.byFrontend {
        assert Frontend(parse, config, r'.byFrontend[ip], port, ip);
      }
    }
    assert r.byFrontend == r'.byFrontend;
  }

  /** A configuration has at most one table, so the order of the walk does not matter. */
  lemma TableUnique(parse: Parser, config: Config, table: Table, table': Table)
    requires TableOf(parse, config, table) && TableOf(parse, config, table')
    ensures table == table'
  {
    assert forall port: nat :: port in table <==> port in table';
    forall port: nat | port in table
      ensures table[port] == table'[port]
    {
      RoutesUnique(parse, config, config.Keys, port, table[port], table'[port]);
    }
  }

  /** Adds one listener to the routes of its port; None if it collides. */
  function AddRoute(parse: Parser, r: Routes, k: string, l: Listener): Option<Routes> {
    if l.frontendIP == "" then
      if r.exclusive.Some? || r.byFrontend != map[] then None else Some(r.(exclusive := Some(k)))
    else if r.exclusive.Some? then None
    else
      match parse(l.frontendIP)
      case None => None
      case Some(ip) => if ip in r.byFrontend then None else Some(r.(byFrontend := r.byFrontend[ip := k]))
  }

  const NO_ROUTES := Routes(None, map[])

  function PortRoutes(table: Table, port: nat): Routes {
    if port in table then table[port] else NO_ROUTES
  }

  /** The routes of a port no listener uses are empty, so RoutesOf holds of every port. */
  lemma PortRoutesOf(parse: Parser, config: Config, keys: set<string>, table: Table, port: nat)
    requires TableOn(parse, config, keys, table)
    ensures RoutesOf(parse, config, keys, port, PortRoutes(table, port))
  {
  }

  /** A listener that fits into the routes of its port is well formed and compatible with those already there. */
  lemma AcceptedIsLoadable(parse: Parser, config: Config, keys: set<string>, r: Routes, k: string)
    requires k in config && k !in keys && keys <= config.Keys && PortInRange(config[k].proxyPort)
    requires LoadableOn(parse, config, keys) && RoutesOf(parse, config, keys, config[k].proxyPort, r)
    requires AddRoute(parse, r, k, config[k]).Some?
    ensures LoadableOn(parse, config, keys + {k})
  {
    var l := config[k];
    forall k' | k' in keys
      ensures Compatible(parse, config[k'], l) && Compatible(parse, l, config[k'])
    {
      assert ListenerOk(parse, config[k']);
      if config[k'].proxyPort == l.proxyPort {
        assert !Exclusive(config, k', l.proxyPort);
        var ip := parse(config[k'].frontendIP).value;
        assert Frontend(parse, config, k', l.proxyPort, ip);
        assert ip in r.byFrontend;
      }
    }
  }

  /** And one that is well formed and compatible fits. */
  lemma LoadableIsAccepted(parse: Parser, config: Config, keys: set<string>, r: Routes, k: string)
    requires k in config && k !in keys && keys <= config.Keys && PortInRange(config[k].proxyPort)
    requires RoutesOf(parse, config, keys, config[k].proxyPort, r)
    requires LoadableOn(parse, config, keys + {k})
    ensures AddRoute(parse, r, k, config[k]).Some?
  {
    var l := config[k];
    assert ListenerOk(parse, l);
    forall k' | k' in keys
      ensures !Exclusive(config, k', l.proxyPort)
      ensures forall ip :: Frontend(parse, config, k', l.proxyPort, ip) ==>
        l.frontendIP != "" && parse(l.frontendIP) != Some(ip)
    {
      assert Compatible(parse, config[k'], l);
    }
    assert r.exclusive.None?;
    forall ip | ip in r.byFrontend
      ensures l.frontendIP != "" && parse(l.frontendIP) != Some(ip)
    {
      assert Frontend(parse, config, r.byFrontend[ip], l.proxyPort, ip);
    }
    assert l.frontendIP == "" ==> r.byFrontend == map[];
  }

  lemma AddRouteAdds(parse: Parser, config: Config, keys: set<string>, r: Routes, k: string)
    requires k in config && k !in keys && PortInRange(config[k].proxyPort)
    requires RoutesOf(parse, config, keys, config[k].proxyPort, r) && AddRoute(parse, r, k, config[k]).Some?
    ensures RoutesOf(parse, config, keys + {k}, config[k].proxyPort, AddRoute(parse, r, k, config[k]).value)
  {
  }

  lemma AddKeepsTable(parse: Parser, config: Config, keys: set<string>, table: Table, k: string, r: Routes)
    requires k in config && k !in keys && PortInRange(config[k].proxyPort) && TableOn(parse, config, keys, table)
    requires RoutesOf(parse, config, keys + {k}, config[k].proxyPort, r)
    ensures TableOn(parse, config, keys + {k}, table[config[k].proxyPort := r])
  {
  }

  /**
   Builds the routing tables, walking the listeners in an arbitrary order. It
   succeeds exactly on loadable configurations, with their one table.
   */
  method BuildTable(parse: Parser, config: Config) returns (r: Option<Table>)
    ensures r.Some? <==> Loadable(parse, config)
    ensures r.Some? ==> TableOf(parse, config, r.value)
  {
    var table: Table, done: set<string>, rest := map[], {}, config.Keys;
    assert LoadableOn(parse, config, done) && TableOn(parse, config, done, table);
    hide TableOn, RoutesOf;
    while rest != {}
      invariant done == config.Keys - rest && rest <= config.Keys
      invariant LoadableOn(parse, config, done) && TableOn(parse, config, done, table)
      decreases |rest|
    {
      var key :| key in rest;
      var listener := config[key];
      if listener.proxyPort < 1 || listener.proxyPort > 65535 {
        assert !ListenerOk(parse, config[key]);
        return None;
      }
      PortRoutesOf(parse, config, done, table, listener.proxyPort);
      var routes := PortRoutes(table, listener.proxyPort);
      var added := AddRoute(parse, routes, key, listener);
      if added.None? {
        assert !Loadable(parse, config) by {
          if Loadable(parse, config) {
            LoadableIsAccepted(parse, config, done, routes, key);
          }
        }
        return None;
      }
      AcceptedIsLoadable(parse, config, done, routes, key);
      AddRouteAdds(parse, config, done, routes, key);
      AddKeepsTable(parse, config, done, table, key, added.value);
      table := table[listener.proxyPort := added.value];
      done, rest := done + {key}, rest - {key};
    }
    assert done == config.Keys;
    return Some(table);
  }

  /** What a server is created with besides its configuration; times in nanoseconds. */
  datatype Options = Options(hasWaker: bool, holdTimeout: int, dialTimeout: int, shutdownTimeout: int)

  const DIAL_TIMEOUT := 10_000_000_000
  const SHUTDOWN_TIMEOUT := 30_000_000_000

  predicate OptionsOk(options: Options) {
    options.hasWaker && options.holdTimeout > 0
  }

  /**
   Creates a server's tables and settles its options: fails exactly without a waker,
   without a hold timeout, or on a configuration that is not loadable. Timeouts that
   are not set get their defaults, so that all are positive.
   */
  method New(parse: Parser, options: Options, config: Config) returns (r: Option<(Table, Options)>)
    ensures r.Some? <==> OptionsOk(options) && Loadable(parse, config)
    ensures r.Some? ==> TableOf(parse, config, r.value.0) && OptionsOk(r.value.1)
    ensures r.Some? ==>
      r.value.1.dialTimeout == (if options.dialTimeout > 0 then options.dialTimeout else DIAL_TIMEOUT) > 0
    ensures r.Some? ==>
      r.value.1.shutdownTimeout ==
        (if options.shutdownTimeout > 0 then options.shutdownTimeout else SHUTDOWN_TIMEOUT) > 0
    ensures r.Some? ==> r.value.1.holdTimeout == options.holdTimeout
  {
    if !options.hasWaker || options.holdTimeout <= 0 {
      return None;
    }
    var settled := options;
    if settled.dialTimeout <= 0 {
      settled := settled.(dialTimeout := DIAL_TIMEOUT);
    }
    if settled.shutdownTimeout <= 0 {
      settled := settled.(shutdownTimeout := SHUTDOWN_TIMEOUT);
    }
    hide Loadable, TableOf;
    var table := BuildTable(parse, config);
    return if table.None? then None else Some((table.value, settled));
  }

  /** The listener a connection to a port is routed to, given its local address. */
  function Select(r: Routes, localIP: string): Option<string> {
    if r.exclusive.Some? then r.exclusive
    else if localIP in r.byFrontend then Some(r.byFrontend[localIP]) else None
  }

  /** A connection is routed to the one listener that owns its port, or its port and local address. */
  lemma SelectIsOwner(parse: Parser, config: Config, table: Table, port: nat, ip: string, k: string)
    requires Loadable(parse, config) && TableOf(parse, config, table) && port in table
    ensures Select(table[port], ip) == Some(k) <==> Exclusive(config, k, port) || Frontend(parse, config, k, port, ip)
  {
  }
}
