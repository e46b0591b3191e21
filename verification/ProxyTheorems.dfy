/** Whether the listeners a server derives are ones its proxy can load. */
module ProxyTheorems {
  import opened Common
  import opened HostPort
  import opened ProxyRouting
  import opened ProxyDerivation

  /** Google frontends on one port each own their selector; every other listener owns its port. */
  lemma SelectorOwnedAlone(cfg: ServerConfig, listeners: Config, k: string, k': string)
    requires Accepted(cfg) && Derived(cfg, listeners) && k in listeners && k' in listeners && k != k'
    ensures listeners[k].proxyPort == listeners[k'].proxyPort ==> listeners[k].frontendIP != listeners[k'].frontendIP
  {
    var s :| IsItem(cfg, s) && KeyOf(cfg, s) == k;
    var s' :| IsItem(cfg, s') && KeyOf(cfg, s') == k';
    assert Apart(cfg, s, s');
    if s.port == s'.port {
      assert Google(s, s.port) && Google(s', s.port);
      assert Shared(cfg, s.port);
    }
  }

  /** A shared frontend is loadable: it has an address, and the addresses on its port differ once normalized. */
  ghost predicate FrontendsLoadable(parse: Parser, cfg: ServerConfig) {
    && (forall s :: IsItem(cfg, s) ==> PortInRange(s.port))
    && (forall s :: IsItem(cfg, s) && Google(s, s.port) && Shared(cfg, s.port) ==> s.ip != "" && parse(s.ip).Some?)
    && (forall s, s' :: IsItem(cfg, s) && IsItem(cfg, s') && s != s' && Google(s, s.port) && Google(s', s.port) ==>
          parse(s.ip) != parse(s'.ip))
  }

  lemma ItemListener(cfg: ServerConfig, listeners: Config, k: string) returns (s: Item)
    requires Derived(cfg, listeners) && k in listeners
    ensures IsItem(cfg, s) && KeyOf(cfg, s) == k && ListenerFor(cfg, s, listeners[k])
  {
    s :| IsItem(cfg, s) && KeyOf(cfg, s) == k;
  }

  lemma LoadableFrontends(parse: Parser, cfg: ServerConfig, listeners: Config)
    requires Accepted(cfg) && Derived(cfg, listeners) && Loadable(parse, listeners)
    ensures FrontendsLoadable(parse, cfg)
  {
    forall s | IsItem(cfg, s)
      ensures PortInRange(s.port)
      ensures Google(s, s.port) && Shared(cfg, s.port) ==> s.ip != "" && parse(s.ip).Some?
    {
      assert ListenerOk(parse, listeners[KeyOf(cfg, s)]);
      if Google(s, s.port) && Shared(cfg, s.port) {
        var x, x' :| IsItem(cfg, x) && IsItem(cfg, x') && x != x' && Google(x, s.port) && Google(x', s.port);
        var y := if x == s then x' else x;
        assert Apart(cfg, s, y);
        assert Compatible(parse, listeners[KeyOf(cfg, s)], listeners[KeyOf(cfg, y)]);
      }
    }
    forall s, s' | IsItem(cfg, s) && IsItem(cfg, s') && s != s' && Google(s, s.port) && Google(s', s.port)
      ensures parse(s.ip) != parse(s'.ip)
    {
      assert Shared(cfg, s.port) && Apart(cfg, s, s');
      assert Compatible(parse, listeners[KeyOf(cfg, s)], listeners[KeyOf(cfg, s')]);
    }
  }

  lemma FrontendsLoad(parse: Parser, cfg: ServerConfig, listeners: Config)
    requires Accepted(cfg) && Derived(cfg, listeners) && FrontendsLoadable(parse, cfg)
    ensures Loadable(parse, listeners)
  {
    forall k | k in listeners
      ensures ListenerOk(parse, listeners[k])
    {
      var s := ItemListener(cfg, listeners, k);
    }
    forall k, k' | k in listeners && k' in listeners && k != k'
      ensures Compatible(parse, listeners[k], listeners[k'])
    {
      var s := ItemListener(cfg, listeners, k);
      var s' := ItemListener(cfg, listeners, k');
      assert Apart(cfg, s, s');
      if s.port == s'.port {
        assert Google(s, s.port) && Google(s', s.port);
        assert Shared(cfg, s.port);
      }
    }
  }

  /**
   Of an accepted configuration, the derived listeners load in any order exactly
   when ports are in range and the frontends sharing a port have addresses that
   are valid and differ once normalized.
   */
  lemma DerivedIsLoadable(parse: Parser, cfg: ServerConfig, listeners: Config)
    requires Accepted(cfg) && Derived(cfg, listeners)
    ensures Loadable(parse, listeners) <==> FrontendsLoadable(parse, cfg)
  {
    if Loadable(parse, listeners) {
      LoadableFrontends(parse, cfg, listeners);
    }
    if FrontendsLoadable(parse, cfg) {
      FrontendsLoad(parse, cfg, listeners);
    }
  }

  /** With addresses written in normal form, everything that is accepted loads. */
  lemma CanonicalLoads(parse: Parser, cfg: ServerConfig, listeners: Config)
    requires Accepted(cfg) && Derived(cfg, listeners)
    requires forall s :: IsItem(cfg, s) ==> PortInRange(s.port)
    requires forall s :: IsItem(cfg, s) && Google(s, s.port) ==> s.ip != "" && parse(s.ip) == Some(s.ip)
    ensures Loadable(parse, listeners)
  {
    forall s, s' | IsItem(cfg, s) && IsItem(cfg, s') && s != s' && Google(s, s.port) && Google(s', s.port)
      ensures parse(s.ip) != parse(s'.ip)
    {
      assert Apart(cfg, s, s');
    }
    FrontendsLoad(parse, cfg, listeners);
  }

  // ----- listener identities -----

  /** While no address contains a slash, items that do not clash on a port have different keys. */
  lemma KeysDiffer(cfg: ServerConfig, s: Item, s': Item)
    requires IsItem(cfg, s) && IsItem(cfg, s') && s != s' && PortsApart(s, s') && '/' !in s.ip && '/' !in s'.ip
    ensures KeyOf(cfg, s) != KeyOf(cfg, s')
  {
    if KeyOf(cfg, s) == KeyOf(cfg, s') {
      KeyNamesPort(cfg, s, s');
      assert Google(s, s.port) && Google(s', s.port);
      assert Shared(cfg, s.port);
      KeyNamesAddress(s, s');
    }
  }

  ghost function Stem(cfg: ServerConfig, s: Item): string {
    if !s.exclusive && Shared(cfg, s.port) then s.lb + "/" + HostText(s.ip) else s.lb
  }

  lemma KeyNamesPort(cfg: ServerConfig, s: Item, s': Item)
    requires KeyOf(cfg, s) == KeyOf(cfg, s')
    ensures s.port == s'.port
  {
    assert KeyOf(cfg, s) == Stem(cfg, s) + [':'] + Itoa(s.port);
    assert KeyOf(cfg, s') == Stem(cfg, s') + [':'] + Itoa(s'.port);
    LastSeparator(Stem(cfg, s), Itoa(s.port), Stem(cfg, s'), Itoa(s'.port), ':');
    ItoaInjective(s.port, s'.port);
  }

  lemma KeyNamesAddress(s: Item, s': Item)
    requires KeyText(true, s) == KeyText(true, s') && !s.exclusive && !s'.exclusive && '/' !in s.ip && '/' !in s'.ip
    ensures s.ip == s'.ip
  {
    HostTextKeeps(s.ip, '/');
    HostTextKeeps(s'.ip, '/');
    assert forall c :: c in Itoa(s.port) || c in Itoa(s'.port) ==> c != '/';
    LastSeparator(s.lb, JoinHostPort(s.ip, s.port), s'.lb, JoinHostPort(s'.ip, s'.port), '/');
    JoinInjective(s.ip, s.port, s'.ip, s'.port);
  }

  // ----- two spellings of one address -----

  const UPPER := "2001:DB8::1"
  const LOWER := "2001:db8::1"

  /** Two balancers of one tenant, with frontends on one port that spell the same address differently. */
  const TWO_SPELLINGS := ServerConfig(
    map["t" := map["g" := ["a", "b"]]],
    map["a" := LoadBalancer("google", [], [Address(UPPER, 443)], []),
        "b" := LoadBalancer("google", [], [Address(LOWER, 443)], [])],
    {})

  const UPPER_ITEM := Item("a", 0, false, UPPER, 443, 443)
  const LOWER_ITEM := Item("b", 0, false, LOWER, 443, 443)

  lemma TwoItems(s: Item)
    ensures IsItem(TWO_SPELLINGS, s) <==> s == UPPER_ITEM || s == LOWER_ITEM
  {
    var a, b := TWO_SPELLINGS.loadBalancers["a"], TWO_SPELLINGS.loadBalancers["b"];
    assert Items("a", a) == [UPPER_ITEM] && Items("b", b) == [LOWER_ITEM];
  }

  lemma TwoSpellingsAccepted()
    ensures Accepted(TWO_SPELLINGS)
  {
    var cfg := TWO_SPELLINGS;
    forall s, s' | IsItem(cfg, s) && IsItem(cfg, s') && s != s'
      ensures Apart(cfg, s, s') && s.port !in cfg.serverPorts
    {
      TwoItems(s);
      TwoItems(s');
      assert UPPER[5] == 'D' && LOWER[5] == 'd';
      assert KeyOf(cfg, UPPER_ITEM)[0] == 'a' && KeyOf(cfg, LOWER_ITEM)[0] == 'b';
    }
    forall lb | lb in cfg.loadBalancers
      ensures OneTenant(cfg, lb)
    {
      assert cfg.groups["t"]["g"][0] == "a" && cfg.groups["t"]["g"][1] == "b";
      assert IsRef(cfg, "t", "g", lb);
      assert References(cfg, "t", lb) && forall other :: References(cfg, other, lb) ==> other == "t";
    }
  }

  /** Validation takes both spellings and the derivation accepts them, yet no proxy loads the result. */
  lemma TwoSpellingsDoNotLoad(parse: Parser, listeners: Config)
    requires parse(UPPER) == parse(LOWER) && Derived(TWO_SPELLINGS, listeners)
    ensures Accepted(TWO_SPELLINGS) && !Loadable(parse, listeners)
  {
    TwoSpellingsAccepted();
    DerivedIsLoadable(parse, TWO_SPELLINGS, listeners);
    TwoItems(UPPER_ITEM);
    TwoItems(LOWER_ITEM);
    assert Google(UPPER_ITEM, 443) && Google(LOWER_ITEM, 443);
  }
}
