/**
 The running proxy: a map of mutable per-port listeners, each with a socket and
 routes that accept loops read through the shared object. Reconcile swaps routes
 in place, keeps the sockets of surviving ports, and is all or nothing.
 */
module ProxyServer {
  import opened Common
  import opened ProxyRouting

  type Socket = nat

  /** Which ports the operating system grants during a call. */
  type Binder = int -> bool

  /** What one port serves: routes that change, on a socket that does not. */
  class PortListeners {
    var routes: Routes
    const listener: Socket

    constructor (routes: Routes, listener: Socket)
      ensures this.routes == routes && this.listener == listener
    {
      this.routes, this.listener := routes, listener;
    }
  }

  // ----- sockets and ports, as values -----

  /** Every port has its open socket, bound to it, and every open socket belongs to exactly one port. */
  ghost predicate Bound(sockets: map<nat, Socket>, open: map<Socket, nat>) {
    && (forall p :: p in sockets ==> sockets[p] in open && open[sockets[p]] == p)
    && (forall s :: s in open ==> open[s] in sockets && sockets[open[s]] == s)
  }

  /** `after` holds the sockets of `before` and, besides, exactly those in `added`. */
  ghost predicate OpensAdded(before: map<Socket, nat>, added: map<nat, Socket>, after: map<Socket, nat>) {
    && (forall s :: s in before ==> s in after && after[s] == before[s])
    && (forall p :: p in added ==> added[p] !in before && added[p] in after && after[added[p]] == p)
    && (forall s :: s in after && s !in before ==> after[s] in added && added[after[s]] == s)
  }

  lemma OpensOneMore(before: map<Socket, nat>, added: map<nat, Socket>, after: map<Socket, nat>, p: nat, s: Socket)
    requires OpensAdded(before, added, after) && p !in added && s !in after
    ensures OpensAdded(before, added[p := s], after[s := p])
  {
  }

  lemma ClosingAddedRestores(before: map<Socket, nat>, added: map<nat, Socket>, after: map<Socket, nat>)
    requires OpensAdded(before, added, after)
    ensures after - added.Values == before
  {
  }

  /** `after` is `before` without the sockets of the visited ports that the candidate drops. */
  ghost predicate Closes(was: map<nat, Socket>, rest: set<nat>, candidate: Table, before: map<Socket, nat>,
                         after: map<Socket, nat>) {
    && (forall s :: s in after ==> s in before && after[s] == before[s])
    && (forall s :: s in before && s !in after ==> exists p :: p in was && p !in rest && p !in candidate && was[p] == s)
    && (forall p :: p in was && p !in rest && p !in candidate ==> was[p] !in after)
  }

  lemma ClosesSubset(was: map<nat, Socket>, candidate: Table, before: map<Socket, nat>, after: map<Socket, nat>)
    requires Closes(was, {}, candidate, before, after)
    ensures forall s :: s in after ==> s in before
  {
  }

  lemma ClosesDropped(was: map<nat, Socket>, rest: set<nat>, candidate: Table, before: map<Socket, nat>,
                      after: map<Socket, nat>, port: nat)
    requires Closes(was, rest, candidate, before, after) && port in was && port !in candidate
    ensures Closes(was, rest - {port}, candidate, before, after - {was[port]})
  {
  }

  lemma ClosesKept(was: map<nat, Socket>, rest: set<nat>, candidate: Table, before: map<Socket, nat>,
                   after: map<Socket, nat>, port: nat)
    requires Closes(was, rest, candidate, before, after) && port in candidate
    ensures Closes(was, rest - {port}, candidate, before, after)
  {
  }

  /** Sockets stay in step with ports when some ports are dropped and others added. */
  lemma ReboundPorts(was: map<nat, Socket>, before: map<Socket, nat>, added: map<nat, Socket>, mid: map<Socket, nat>,
                     candidate: Table, now: map<nat, Socket>, after: map<Socket, nat>)
    requires Bound(was, before) && OpensAdded(before, added, mid) && Closes(was, {}, candidate, mid, after)
    requires forall p :: p in added <==> p in candidate && p !in was
    requires forall p :: p in now <==> p in candidate
    requires forall p :: p in now ==> now[p] == if p in was then was[p] else added[p]
    ensures Bound(now, after)
    ensures forall p :: p in was && p !in now ==> was[p] !in after
  {
  }

  /** From nothing open, the ports just bound are in step with their sockets. */
  lemma BoundAfresh(added: map<nat, Socket>, open: map<Socket, nat>)
    requires OpensAdded(map[], added, open)
    ensures Bound(added, open)
  {
  }

  /** Every port the listeners name, but for those served already, is granted. */
  ghost predicate Bindable(binds: Binder, config: Config, served: set<nat>) {
    forall k :: k in config && config[k].proxyPort !in served ==> binds(config[k].proxyPort)
  }

  /** The ports of a configuration's table are those its listeners name. */
  lemma NeededPorts(binds: Binder, parse: Parser, config: Config, table: Table, served: set<nat>)
    requires Loadable(parse, config) && TableOf(parse, config, table)
    ensures (forall p :: p in table && p !in served ==> binds(p)) <==> Bindable(binds, config, served)
  {
  }

  function SocketsOf(ports: map<nat, PortListeners>): map<nat, Socket> {
    map p | p in ports :: ports[p].listener
  }

  predicate Distinct(ports: map<nat, PortListeners>) {
    forall p, q :: p in ports && q in ports && p != q ==> ports[p] != ports[q]
  }

  /** The ports that remain once those not in `rest` have been looked at: the candidate's keep their listeners. */
  function Remaining(before: map<nat, PortListeners>, rest: set<nat>, candidate: Table): map<nat, PortListeners> {
    map p | p in before && (p in rest || p in candidate) :: before[p]
  }

  lemma RemainingStep(before: map<nat, PortListeners>, rest: set<nat>, candidate: Table, port: nat)
    requires port in rest && port in before
    ensures var now := Remaining(before, rest, candidate);
      && port in now && now[port] == before[port]
      && Remaining(before, rest - {port}, candidate) == if port in candidate then now else now - {port}
  {
  }

  lemma RemainingEnds(before: map<nat, PortListeners>, candidate: Table)
    ensures Remaining(before, before.Keys, candidate) == before
    ensures forall p :: p in Remaining(before, {}, candidate) <==> p in before && p in candidate
    ensures forall p :: p in Remaining(before, {}, candidate) ==> Remaining(before, {}, candidate)[p] == before[p]
  {
  }

  class Server {
    const parse: Parser
    const options: Options
    var config: Config
    var ports: map<nat, PortListeners>
    var started: bool
    var open: map<Socket, nat>      // sockets held open, and the port each is bound to
    var nextSocket: nat

    /** The routes being served. */
    ghost function Served(): Table
      reads this`ports, ports.Values`routes
    {
      map p | p in ports :: ports[p].routes
    }

    ghost function Sockets(): map<nat, Socket>
      reads this`ports
    {
      SocketsOf(ports)
    }

    /** No two ports share their listeners object. */
    ghost predicate Separate()
      reads this`ports
    {
      Distinct(ports)
    }

    ghost predicate Valid()
      reads this, ports.Values
    {
      && Separate()
      && (forall s :: s in open ==> s < nextSocket)
      && (started ==> OptionsOk(options) && Bound(Sockets(), open) && TableOf(parse, config, Served()))
      && (!started ==> ports == map[] && open == map[])
    }

    constructor (parse: Parser, options: Options)
      ensures Valid() && this.parse == parse && this.options == options && !started
    {
      this.parse, this.options := parse, options;
      config, ports, started, open, nextSocket := map[], map[], false, map[], 0;
    }

    /** Asks the operating system for a listening socket. */
    method Listen(binds: Binder, port: nat) returns (s: Option<Socket>)
      modifies this`open, this`nextSocket
      ensures s.Some? <==> binds(port)
      ensures s.None? ==> open == old(open) && nextSocket == old(nextSocket)
      ensures s.Some? ==>
        s.value == old(nextSocket) && open == old(open)[s.value := port] && nextSocket == old(nextSocket) + 1
    {
      if !binds(port) {
        return None;
      }
      s := Some(nextSocket);
      open := open[nextSocket := port];
      nextSocket := nextSocket + 1;
    }

    /**
     Binds every port of the candidate that is not served yet. If one bind fails,
     the sockets bound before are closed again.
     */
    method BindAdded(binds: Binder, candidate: Table) returns (added: Option<map<nat, Socket>>)
      requires forall s :: s in open ==> s < nextSocket
      modifies this`open, this`nextSocket
      ensures forall s :: s in open ==> s < nextSocket
      ensures added.Some? <==> forall p :: p in candidate && p !in ports ==> binds(p)
      ensures added.None? ==> open == old(open)
      ensures added.Some? ==>
        (forall p :: p in added.value <==> p in candidate && p !in ports) && OpensAdded(old(open), added.value, open)
    {
      var bound: map<nat, Socket>, rest := map[], candidate.Keys - ports.Keys;
      assert OpensAdded(old(open), bound, open);
      hide OpensAdded;
      while rest != {}
        invariant forall p :: p in rest ==> p in candidate && p !in ports
        invariant forall p :: p in bound <==> p in candidate && p !in ports && p !in rest
        invariant forall p :: p in bound ==> binds(p)
        invariant forall s :: s in open ==> s < nextSocket
        invariant OpensAdded(old(open), bound, open)
        decreases |rest|
      {
        var port :| port in rest;
        ghost var before := open;
        var listener := Listen(binds, port);
        if listener.None? {
          ClosingAddedRestores(old(open), bound, open);
          open := open - bound.Values;
          return None;
        }
        OpensOneMore(old(open), bound, before, port, listener.value);
        bound := bound[port := listener.value];
        rest := rest - {port};
      }
      return Some(bound);
    }

    /** Binds the ports a configuration needs and the server does not serve yet. */
    method BindNeeded(binds: Binder, config: Config, table: Table) returns (added: Option<map<nat, Socket>>)
      requires Loadable(parse, config) && TableOf(parse, config, table) && forall s :: s in open ==> s < nextSocket
      modifies this`open, this`nextSocket
      ensures forall s :: s in open ==> s < nextSocket
      ensures added.Some? <==> Bindable(binds, config, ports.Keys)
      ensures added.None? ==> open == old(open)
      ensures added.Some? ==>
        (forall p :: p in added.value <==> p in table && p !in ports) && OpensAdded(old(open), added.value, open)
    {
      NeededPorts(binds, parse, config, table, ports.Keys);
      hide Loadable, TableOf, OpensAdded, Bindable;
      added := BindAdded(binds, table);
    }

    /**
     Swapping is under way: of the ports before, those not in `rest` have been dropped
     with their sockets or been given the candidate's routes.
     */
    ghost predicate Swapping(before: map<nat, PortListeners>, rest: set<nat>, candidate: Table, first: map<Socket, nat>)
      reads this`ports, this`open, before.Values`routes
    {
      && Distinct(before) && rest <= before.Keys && ports == Remaining(before, rest, candidate)
      && (forall p :: p in before && p in candidate && p !in rest ==> before[p].routes == candidate[p])
      && Closes(SocketsOf(before), rest, candidate, first, open)
    }

    /** One port of the running server: closed if the candidate drops it, else given its new routes in place. */
    method SwapPort(candidate: Table, port: nat, ghost before: map<nat, PortListeners>, ghost rest: set<nat>,
                    ghost first: map<Socket, nat>)
      requires port in rest && Swapping(before, rest, candidate, first)
      modifies this`ports, this`open, before.Values`routes
      ensures Swapping(before, rest - {port}, candidate, first)
    {
      RemainingStep(before, rest, candidate, port);
      hide Remaining, Closes;
      var current := ports[port];
      if port !in candidate {
        ClosesDropped(SocketsOf(before), rest, candidate, first, open, port);
        open := open - {current.listener};
        ports := ports - {port};
      } else {
        ClosesKept(SocketsOf(before), rest, candidate, first, open, port);
        current.routes := candidate[port];
      }
    }

    /** Closes ports the candidate drops and swaps the routes of those it keeps, in place. */
    method SwapCurrent(candidate: Table)
      requires Separate()
      modifies this`ports, this`open, ports.Values`routes
      ensures Separate()
      ensures forall p :: p in ports <==> p in old(ports) && p in candidate
      ensures forall p :: p in ports ==> ports[p] == old(ports)[p] && ports[p].routes == candidate[p]
      ensures Closes(old(Sockets()), {}, candidate, old(open), open)
    {
      ghost var before := ports;
      RemainingEnds(before, candidate);
      SwapEach(candidate, before);
      hide Closes, Remaining;
    }

    method SwapEach(candidate: Table, ghost before: map<nat, PortListeners>)
      requires ports == before && Swapping(before, before.Keys, candidate, open)
      modifies this`ports, this`open, before.Values`routes
      ensures Swapping(before, {}, candidate, old(open))
    {
      var rest := ports.Keys;
      hide Swapping;
      while rest != {}
        invariant Swapping(before, rest, candidate, old(open))
        decreases |rest|
      {
        var port :| port in rest;
        SwapPort(candidate, port, before, rest, old(open));
        rest := rest - {port};
      }
    }

    /** Installs the newly bound ports. */
    method Install(candidate: Table, added: map<nat, Socket>)
      requires forall p :: p in added ==> p in candidate && p !in ports
      requires Separate()
      modifies this`ports
      ensures forall p :: p in ports <==> p in old(ports) || p in added
      ensures forall p :: p in old(ports) ==> ports[p] == old(ports)[p]
      ensures forall p :: p in added ==>
        fresh(ports[p]) && ports[p].routes == candidate[p] && ports[p].listener == added[p]
      ensures Separate()
    {
      var rest := added.Keys;
      while rest != {}
        invariant forall p :: p in rest ==> p in added
        invariant forall p :: p in ports <==> p in old(ports) || (p in added && p !in rest)
        invariant forall p :: p in old(ports) ==> ports[p] == old(ports)[p]
        invariant forall p :: p in added && p !in rest ==>
                    fresh(ports[p]) && ports[p].routes == candidate[p] && ports[p].listener == added[p]
        invariant Separate()
        decreases |rest|
      {
        var port :| port in rest;
        var next := new PortListeners(candidate[port], added[port]);
        ports := ports[port := next];
        rest := rest - {port};
      }
    }

    /**
     Creates the tables and binds all configured ports. A server already started is
     refused, and on a failed bind every socket is closed again.
     */
    method Start(binds: Binder, config: Config) returns (ok: bool)
      requires Valid()
      modifies this
      ensures Valid() && started == (old(started) || ok)
      ensures ok <==> !old(started) && OptionsOk(options) && Loadable(parse, config) && Bindable(binds, config, {})
      ensures ok ==> this.config == config
      ensures !ok ==> open == old(open) && ports == old(ports) && this.config == old(this.config)
    {
      hide TableOf, Loadable, OpensAdded, Served, Sockets, Bindable;
      if started {
        return false;
      }
      var created := New(parse, options, config);
      if created.None? {
        return false;
      }
      var table := created.value.0;
      assert ports.Keys == {};
      var added := BindNeeded(binds, config, table);
      if added.None? {
        return false;
      }
      BoundAfresh(added.value, open);
      hide Bound;
      Install(table, added.value);
      this.config, started := config, true;
      ServedIs(table);
      SocketsAre(added.value);
      return true;
    }

    /** Whatever was reconciled before, the routes served are those a fresh build of the current configuration gives. */
    lemma ServesFreshBuild(table: Table)
      requires Valid() && started && TableOf(parse, config, table)
      ensures Served() == table
    {
      TableUnique(parse, config, Served(), table);
    }

    lemma SocketFacts()
      ensures forall p :: p in Sockets() <==> p in ports
      ensures forall p :: p in ports ==> Sockets()[p] == ports[p].listener
    {
    }

    lemma ServedIs(table: Table)
      requires forall p :: p in ports <==> p in table
      requires forall p :: p in ports ==> ports[p].routes == table[p]
      ensures Served() == table
    {
    }

    lemma SocketsAre(sockets: map<nat, Socket>)
      requires forall p :: p in ports <==> p in sockets
      requires forall p :: p in ports ==> ports[p].listener == sockets[p]
      ensures Sockets() == sockets
    {
    }

    /** Swaps in the candidate once its new ports are bound. */
    method Swap(candidate: Table, added: map<nat, Socket>, ghost before: map<Socket, nat>)
      requires Separate()
      requires forall p :: p in added <==> p in candidate && p !in ports
      requires Bound(Sockets(), before) && OpensAdded(before, added, open)
      modifies this`ports, this`open, ports.Values`routes
      ensures Separate()
      ensures Served() == candidate && Bound(Sockets(), open)
      ensures forall p :: p in old(ports) && p in ports ==> ports[p] == old(ports)[p]
      ensures forall s :: s in open ==> s in old(open)
      ensures forall p :: p in old(ports) && p !in ports ==> old(ports)[p].listener !in open
    {
      ghost var was, mid := Sockets(), open;
      SocketFacts();
      hide Bound, OpensAdded, Closes, Served, Sockets;
      SwapCurrent(candidate);
      Install(candidate, added);
      ServedIs(candidate);
      ghost var sockets := map p | p in candidate :: if p in was then was[p] else added[p];
      SocketsAre(sockets);
      ReboundPorts(was, before, added, mid, candidate, sockets, open);
      ClosesSubset(was, candidate, mid, open);
    }

    /**
     Swaps the routes under running sockets, which ports that stay keep. It
     succeeds exactly when the server is started, the configuration is loadable
     and each port not yet served can be bound; otherwise nothing changes.
     */
    method Reconcile(binds: Binder, config: Config) returns (ok: bool)
      requires Valid()
      modifies this, ports.Values
      ensures Valid() && started == old(started)
      ensures ok <==> old(started) && Loadable(parse, config) && Bindable(binds, config, old(ports).Keys)
      ensures !ok ==> ports == old(ports) && open == old(open) && this.config == old(this.config)
      ensures !ok ==> forall p :: p in ports ==> ports[p].routes == old(ports[p].routes)
      ensures ok ==> this.config == config
      ensures ok ==> forall p :: p in old(ports) && p in ports ==> ports[p] == old(ports)[p]
      ensures ok ==> forall p :: p in old(ports) && p !in ports ==> old(ports)[p].listener !in open
    {
      hide TableOf, Loadable, OpensAdded, Bound, Served, Sockets, Bindable;
      var created := New(parse, options, config);
      if created.None? || !started {
        return false;
      }
      var candidate := created.value.0;
      var added := BindNeeded(binds, config, candidate);
      if added.None? {
        return false;
      }
      Swap(candidate, added.value, old(open));
      this.config := config;
      return true;
    }
  }
}
