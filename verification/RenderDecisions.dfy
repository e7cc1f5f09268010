/** What the whole render pipeline decides for each tenant's traffic. */
module RenderDecisions {
  import opened Common
  import opened Routing
  import opened AccountLimits
  import opened RenderPipeline

  /** The ports with a private inbound: the listed accounts', or without any account or entry, the configured one. */
  function ServedPorts(s: Settings, panelPorts: seq<nat>): seq<nat> {
    if s.entryPort.None? && panelPorts == [] then [s.listenPort] else panelPorts
  }

  /** Traffic of a port that is served: on its private inbound, or on the shared one under its account's name. */
  predicate TenantRequest(s: Settings, panelPorts: seq<nat>, port: nat, q: Request) {
    && port in ServedPorts(s, panelPorts)
    && (|| (q.inbound == PanelTag(port) && q.user.None?)
        || (s.entryPort.Some? && q.inbound == UnifiedTag(s.entryPort.value) && q.user == Some(UserName(port))))
  }

  predicate QuicBlocked(s: Settings, q: Request) {
    s.blockQuic && q.network.Udp? && q.port == 443
  }

  /** The fragment on disk after a write with these inputs. */
  function Stored(domains: set<string>, upstream: Option<seq<Outbound>>, scope: string,
      policy: Option<seq<PolicyRow>>): Option<Fragment> {
    if !FragmentWanted(domains, upstream, scope, policy) then None
    else Some(Fragment(
      EffectiveScope(if policy.Some? then policy.value else [], scope), FragmentRules(domains, scope, policy),
      upstream.value, if policy.Some? then Some(AllPortsOf(policy.value)) else None,
      if policy.Some? then policy.value else []))
  }

  /** Some active `all` row belongs to the account that holds the port now. */
  ghost predicate HolderSelectsAll(policy: seq<PolicyRow>, accounts: seq<CurrentAccount>, port: nat) {
    var current := CurrentPorts(accounts);
    exists row :: row in policy && SelectsAll(row) && row.id in current && current[row.id] == port
  }

  function Verdict(s: Settings, q: Request, ai: bool): Option<string> {
    if QuicBlocked(s, q) then Some("block") else if ai then Some(AI_PROXY) else Some("direct")
  }

  // ---------------------------------------------------------------------------------------------
  // Passes over rule lists, block by block
  // ---------------------------------------------------------------------------------------------

  lemma {:induction false} KeepDomainConcat(a: seq<Rule>, b: seq<Rule>)
    ensures KeepDomainRules(a + b) == KeepDomainRules(a) + KeepDomainRules(b)
  {
    if b == [] {
      assert a + b == a;
    } else {
      assert (a + b)[..|a + b| - 1] == a + b[..|b| - 1];
      KeepDomainConcat(a, b[..|b| - 1]);
    }
  }

  lemma {:induction false} CatchAllsHaveNoDomain(ports: seq<nat>)
    ensures KeepDomainRules(CatchAlls(ports)) == []
  {
    if ports != [] {
      CatchAllsHaveNoDomain(ports[..|ports| - 1]);
      var pair := CatchAll(ports[|ports| - 1]);
      KeepDomainConcat(CatchAlls(ports[..|ports| - 1]), pair);
      assert pair[..1][..0] == [] && pair[..1][0].domain.None? && pair[1].domain.None?;
      assert KeepDomainRules(pair[..1]) == [];
    }
  }

  lemma RegroupRules(a: seq<Rule>, b: seq<Rule>, c: seq<Rule>)
    ensures a + (b + c) == (a + b) + c
  {}

  lemma {:induction false} ScopeConcat(a: seq<Rule>, b: seq<Rule>, panel: seq<string>, unified: seq<string>)
    ensures ScopeRules(a + b, panel, unified) == ScopeRules(a, panel, unified) + ScopeRules(b, panel, unified)
  {
    if b == [] {
      assert a + b == a;
    } else {
      var init, last := b[..|b| - 1], b[|b| - 1];
      assert (a + b)[..|a + b| - 1] == a + init;
      ScopeConcat(a, init, panel, unified);
      RegroupRules(ScopeRules(a, panel, unified), ScopeRules(init, panel, unified), ScopeRule(last, panel, unified));
    }
  }

  lemma {:induction false} TenantTagsContents(inbounds: seq<Inbound>, prefixes: set<string>, tag: string)
    ensures tag in TenantTags(inbounds, prefixes) <==>
            exists i | i in inbounds :: i.tag == tag && exists p | p in prefixes :: Tenant(i, p)
  {
    if inbounds != [] {
      var init, last := inbounds[..|inbounds| - 1], inbounds[|inbounds| - 1];
      assert inbounds == init + [last];
      TenantTagsContents(init, prefixes, tag);
      assert last in inbounds && forall i :: i in inbounds <==> i in init || i == last;
    }
  }

  /** A tenant's own inbound is among the tags the merge collects. */
  lemma TenantInboundCollected(s: Settings, panelPorts: seq<nat>, port: nat, q: Request)
    requires TenantRequest(s, panelPorts, port, q)
    ensures var inbounds := BuiltInbounds(s, panelPorts);
            && q.inbound in TenantTags(inbounds, {"panel-", "unified-"})
            && (q.user.None? ==> q.inbound in TenantTags(inbounds, {"panel-"}))
            && (q.user.Some? ==> q.inbound in TenantTags(inbounds, {"unified-"}))
  {
    var inbounds := BuiltInbounds(s, panelPorts);
    var i := Inbound(q.inbound, "vless");
    if q.user.None? {
      TagPrefixes(port);
      var served := ServedPorts(s, panelPorts);
      var k :| 0 <= k < |served| && served[k] == port;
      assert inbounds[k] == i;
      assert Tenant(i, "panel-");
    } else {
      TagPrefixes(s.entryPort.value);
      assert inbounds[|inbounds| - 1] == i;
      assert Tenant(i, "unified-");
    }
    TenantTagsContents(inbounds, {"panel-", "unified-"}, q.inbound);
    TenantTagsContents(inbounds, {"panel-"}, q.inbound);
    TenantTagsContents(inbounds, {"unified-"}, q.inbound);
  }

  // ---------------------------------------------------------------------------------------------
  // Decisions
  // ---------------------------------------------------------------------------------------------

  function PanelTags(s: Settings, panelPorts: seq<nat>): seq<string> {
    TenantTags(BuiltInbounds(s, panelPorts), {"panel-"})
  }

  function UnifiedTags(s: Settings, panelPorts: seq<nat>): seq<string> {
    TenantTags(BuiltInbounds(s, panelPorts), {"unified-"})
  }

  /** A per-port fragment's rules as they stand after the merge. */
  function Scoped(s: Settings, panelPorts: seq<nat>, rules: seq<Rule>): seq<Rule> {
    ScopeRules(rules, PanelTags(s, panelPorts), UnifiedTags(s, panelPorts))
  }

  lemma ScopedOne(s: Settings, panelPorts: seq<nat>, r: Rule)
    ensures Scoped(s, panelPorts, [r]) == ScopeRule(r, PanelTags(s, panelPorts), UnifiedTags(s, panelPorts))
  {
    var panel, unified := PanelTags(s, panelPorts), UnifiedTags(s, panelPorts);
    assert [r][..|[r]| - 1] == [];
    assert ScopeRules([r], panel, unified) == ScopeRules([], panel, unified) + ScopeRule(r, panel, unified);
  }

  lemma AnyNetwork(q: Request)
    ensures q.network in BOTH
  {
    assert q.network == Tcp || q.network == Udp;
  }

  lemma KeepTagsOne(tag: string, allowed: seq<string>)
    ensures KeepTags([tag], allowed) == if tag in allowed then [tag] else []
  {
    assert [tag][..|[tag]| - 1] == [];
  }

  lemma InboundCatchAllDecides(
    s: Settings, panelPorts: seq<nat>, port: nat, bound: nat, q: Request, fallback: Option<string>)
    requires TenantRequest(s, panelPorts, port, q)
    ensures Decide(Scoped(s, panelPorts, [CatchAll(bound)[0]]), q, fallback)
         == if q.user.None? && bound == port then Some(AI_PROXY) else fallback
  {
    var r := CatchAll(bound)[0];
    var panel := PanelTags(s, panelPorts);
    ScopedOne(s, panelPorts, r);
    TenantInboundCollected(s, panelPorts, port, q);
    if s.entryPort.Some? { TagPrefixes(s.entryPort.value); }
    TagPrefixes(bound);
    if PanelTag(bound) == PanelTag(port) { PanelTagInjective(bound, port); }
    KeepTagsOne(PanelTag(bound), panel);
    AnyNetwork(q);
    var kept := KeepTags([PanelTag(bound)], panel);
    if kept != [] { DecideOne(r.(inboundTag := Some(kept)), q, fallback); }
  }

  lemma UserCatchAllDecides(
    s: Settings, panelPorts: seq<nat>, port: nat, bound: nat, q: Request, fallback: Option<string>)
    requires TenantRequest(s, panelPorts, port, q)
    ensures Decide(Scoped(s, panelPorts, [CatchAll(bound)[1]]), q, fallback)
         == if q.user.Some? && bound == port then Some(AI_PROXY) else fallback
  {
    var r := CatchAll(bound)[1];
    var unified := UnifiedTags(s, panelPorts);
    ScopedOne(s, panelPorts, r);
    TenantInboundCollected(s, panelPorts, port, q);
    if UserName(bound) == UserName(port) { UserNameInjective(bound, port); }
    AnyNetwork(q);
    if unified != [] { DecideOne(r.(inboundTag := Some(unified)), q, fallback); }
  }

  lemma CatchAllDecides(s: Settings, panelPorts: seq<nat>, port: nat, bound: nat, q: Request, fallback: Option<string>)
    requires TenantRequest(s, panelPorts, port, q)
    ensures Decide(Scoped(s, panelPorts, CatchAll(bound)), q, fallback)
         == if bound == port then Some(AI_PROXY) else fallback
  {
    var a, b := [CatchAll(bound)[0]], [CatchAll(bound)[1]];
    assert CatchAll(bound) == a + b;
    ScopeConcat(a, b, PanelTags(s, panelPorts), UnifiedTags(s, panelPorts));
    DecideConcat(Scoped(s, panelPorts, a), Scoped(s, panelPorts, b), q, fallback);
    UserCatchAllDecides(s, panelPorts, port, bound, q, fallback);
    InboundCatchAllDecides(s, panelPorts, port, bound, q, Decide(Scoped(s, panelPorts, b), q, fallback));
  }

  lemma {:induction false} CatchAllsDecide(
    s: Settings, panelPorts: seq<nat>, port: nat, bound: seq<nat>, q: Request, fallback: Option<string>)
    requires TenantRequest(s, panelPorts, port, q)
    ensures Decide(Scoped(s, panelPorts, CatchAlls(bound)), q, fallback)
         == if port in bound then Some(AI_PROXY) else fallback
  {
    if bound != [] {
      var init, last := bound[..|bound| - 1], bound[|bound| - 1];
      assert bound == init + [last];
      ScopeConcat(CatchAlls(init), CatchAll(last), PanelTags(s, panelPorts), UnifiedTags(s, panelPorts));
      var next := Decide(Scoped(s, panelPorts, CatchAll(last)), q, fallback);
      DecideConcat(Scoped(s, panelPorts, CatchAlls(init)), Scoped(s, panelPorts, CatchAll(last)), q, fallback);
      CatchAllDecides(s, panelPorts, port, last, q, fallback);
      CatchAllsDecide(s, panelPorts, port, init, q, next);
    }
  }

  lemma {:induction false} BoundPortsContents(scopes: seq<PolicyRow>, current: map<int, nat>, port: nat)
    ensures port in BoundPorts(scopes, current) <==>
            exists row :: row in scopes && SelectsAll(row) && row.id in current && current[row.id] == port
  {
    if scopes != [] {
      var init, last := scopes[..|scopes| - 1], scopes[|scopes| - 1];
      assert scopes == init + [last];
      BoundPortsContents(init, current, port);
      assert last in scopes && forall r :: r in scopes <==> r in init || r == last;
    }
  }

  lemma {:induction false} AllPortsContents(policy: seq<PolicyRow>)
    ensures AllPortsOf(policy) == [] <==> forall row | row in policy :: !SelectsAll(row)
  {
    if policy != [] {
      var init, last := policy[..|policy| - 1], policy[|policy| - 1];
      assert policy == init + [last];
      AllPortsContents(init);
      assert last in policy && forall r :: r in policy <==> r in init || r == last;
    }
  }

  lemma StaticDecision(s: Settings, panelPorts: seq<nat>, q: Request, rest: seq<Rule>, fallback: Option<string>)
    ensures Decide(StaticConfig(s, panelPorts).rules + rest, q, fallback)
         == if QuicBlocked(s, q) then Some("block") else Decide(rest, q, fallback)
  {
    DecideConcat(StaticConfig(s, panelPorts).rules, rest, q, fallback);
    DecideOne(QUIC_BLOCK, q, Decide(rest, q, fallback));
  }

  lemma NoFragmentDecision(s: Settings, panelPorts: seq<nat>, q: Request)
    ensures Route(RoutedConfig(s, None, panelPorts), q) == Verdict(s, q, false)
  {
    StaticDecision(s, panelPorts, q, [], Some("direct"));
    assert StaticConfig(s, panelPorts).rules + [] == StaticConfig(s, panelPorts).rules;
  }

  function DomainTail(domains: set<string>): seq<Rule> {
    if domains != {} then [DomainRule(domains)] else []
  }

  /** Rebinding keeps of a stored per-port fragment the domain rule alone. */
  lemma ReboundRules(domains: set<string>, scope: string, policy: seq<PolicyRow>)
    ensures KeepDomainRules(FragmentRules(domains, scope, Some(policy))) == DomainTail(domains)
  {
    CatchAllsHaveNoDomain(AllPortsOf(policy));
    KeepDomainConcat(CatchAlls(AllPortsOf(policy)), DomainTail(domains));
    if domains != {} { assert [DomainRule(domains)][..0] == []; }
  }

  lemma DomainTailDecides(s: Settings, panelPorts: seq<nat>, domains: set<string>, q: Request, fallback: Option<string>)
    ensures Decide(Scoped(s, panelPorts, DomainTail(domains)), q, fallback)
         == if InDomains(q.domain, domains) then Some(AI_PROXY) else fallback
  {
    if domains != {} {
      ScopedOne(s, panelPorts, DomainRule(domains));
      DecideOne(DomainRule(domains), q, fallback);
    }
  }

  /** What a rebound fragment decides once merged: catch-alls of the ports held now, then domains. */
  lemma ReboundFragmentDecides(s: Settings, domains: set<string>, f: Fragment, bound: seq<nat>, panelPorts: seq<nat>,
      port: nat, q: Request)
    requires TenantRequest(s, panelPorts, port, q)
    requires f.allPorts.Some? && f.rules == CatchAlls(bound) + DomainTail(domains)
    ensures Route(RoutedConfig(s, Some(f), panelPorts), q) ==
            Verdict(s, q, port in bound || InDomains(q.domain, domains))
  {
    var fallback := Some("direct");
    var tail := Scoped(s, panelPorts, DomainTail(domains));
    ScopeConcat(CatchAlls(bound), DomainTail(domains), PanelTags(s, panelPorts), UnifiedTags(s, panelPorts));
    StaticDecision(s, panelPorts, q, Scoped(s, panelPorts, f.rules), fallback);
    DecideConcat(Scoped(s, panelPorts, CatchAlls(bound)), tail, q, fallback);
    DomainTailDecides(s, panelPorts, domains, q, fallback);
    CatchAllsDecide(s, panelPorts, port, bound, q, Decide(tail, q, fallback));
    assert DefaultTag(RoutedConfig(s, Some(f), panelPorts)) == fallback;
  }

  /** The decision table with a port policy, after fragment, rebinding, merge and build. */
  lemma PortPolicyDecision(s: Settings, domains: set<string>, upstream: Option<seq<Outbound>>, scope: string,
      policy: seq<PolicyRow>, accounts: seq<CurrentAccount>, panelPorts: seq<nat>, port: nat, q: Request)
    requires TenantRequest(s, panelPorts, port, q)
    ensures var f := BindPortScopeAccounts(Stored(domains, upstream, scope, Some(policy)), accounts);
            Route(RoutedConfig(s, f, panelPorts), q) ==
            Verdict(s, q, upstream.Some? && (HolderSelectsAll(policy, accounts, port) || InDomains(q.domain, domains)))
  {
    var f := BindPortScopeAccounts(Stored(domains, upstream, scope, Some(policy)), accounts);
    if f.None? {
      AllPortsContents(policy);
      NoFragmentDecision(s, panelPorts, q);
    } else {
      var bound := BoundPorts(policy, CurrentPorts(accounts));
      ReboundRules(domains, scope, policy);
      ReboundFragmentDecides(s, domains, f.value, bound, panelPorts, port, q);
      BoundPortsContents(policy, CurrentPorts(accounts), port);
    }
  }

  predicate DistinctAccounts(accounts: seq<CurrentAccount>) {
    forall i, j | 0 <= i < j < |accounts| ::
      accounts[i].id != accounts[j].id && accounts[i].listenPort != accounts[j].listenPort
  }

  lemma {:induction false} CurrentPortsContents(accounts: seq<CurrentAccount>, a: CurrentAccount)
    requires DistinctAccounts(accounts) && a in accounts
    ensures var current := CurrentPorts(accounts);
            && a.id in current && current[a.id] == a.listenPort
            && forall id | id in current && current[id] == a.listenPort :: id == a.id
  {
    forall id | id in CurrentPorts(accounts) ensures CurrentAccount(id, CurrentPorts(accounts)[id]) in accounts {
      CurrentPortsSound(accounts, id);
    }
    CurrentPortsComplete(accounts, a);
  }

  lemma {:induction false} CurrentPortsSound(accounts: seq<CurrentAccount>, id: int)
    requires id in CurrentPorts(accounts)
    ensures CurrentAccount(id, CurrentPorts(accounts)[id]) in accounts
  {
    var n := |accounts| - 1;
    assert accounts == accounts[..n] + [accounts[n]];
    if id != accounts[n].id { CurrentPortsSound(accounts[..n], id); }
  }

  lemma {:induction false} CurrentPortsComplete(accounts: seq<CurrentAccount>, a: CurrentAccount)
    requires DistinctAccounts(accounts) && a in accounts
    ensures a.id in CurrentPorts(accounts) && CurrentPorts(accounts)[a.id] == a.listenPort
  {
    var n := |accounts| - 1;
    assert accounts == accounts[..n] + [accounts[n]];
    if a != accounts[n] {
      var k :| 0 <= k < n && accounts[k] == a;
      CurrentPortsComplete(accounts[..n], a);
    }
  }

  /** A port answers for its present holder only: another account's `all` row never captures it. */
  lemma ReusedPortFollowsItsHolder(policy: seq<PolicyRow>, accounts: seq<CurrentAccount>, holder: CurrentAccount)
    requires DistinctAccounts(accounts) && holder in accounts
    ensures HolderSelectsAll(policy, accounts, holder.listenPort) <==>
            exists row :: row in policy && SelectsAll(row) && row.id == holder.id
  {
    CurrentPortsContents(accounts, holder);
  }

  lemma ConfinedCatchAll(tags: seq<string>)
    ensures var all := AI_RULE.(network := Some(BOTH));
            ConfineRules([all], tags) == [all.(inboundTag := Some(tags))]
  {
    var all := AI_RULE.(network := Some(BOTH));
    assert [all][..|[all]| - 1] == [];
  }

  /** The decision table of the two older modes, which have no port policy. */
  lemma LegacyDecision(s: Settings, domains: set<string>, upstream: Option<seq<Outbound>>, scope: string,
      accounts: seq<CurrentAccount>, panelPorts: seq<nat>, port: nat, q: Request)
    requires TenantRequest(s, panelPorts, port, q)
    ensures var f := BindPortScopeAccounts(Stored(domains, upstream, scope, None), accounts);
            && Mergeable(StaticConfig(s, panelPorts), f)
            && Route(RoutedConfig(s, f, panelPorts), q) ==
               Verdict(s, q, upstream.Some? && (scope == ALL || InDomains(q.domain, domains)))
  {
    var f := BindPortScopeAccounts(Stored(domains, upstream, scope, None), accounts);
    if f.None? {
      NoFragmentDecision(s, panelPorts, q);
    } else {
      var fallback := Some("direct");
      var rules := MergedRules(StaticConfig(s, panelPorts), f.value);
      TenantInboundCollected(s, panelPorts, port, q);
      StaticDecision(s, panelPorts, q, rules, fallback);
      assert DefaultTag(RoutedConfig(s, f, panelPorts)) == fallback;
      if scope == ALL {
        AnyNetwork(q);
        ConfinedCatchAll(TenantTags(BuiltInbounds(s, panelPorts), {"panel-", "unified-"}));
        DecideOne(rules[0], q, fallback);
      } else {
        DecideOne(DomainRule(domains), q, fallback);
      }
    }
  }

  /** The upstream's outbounds leave the two built-in tags alone and provide a transport for AI traffic. */
  predicate ProvidesAiProxy(upstream: seq<Outbound>) {
    && (exists o | o in upstream :: o.tag == Some(AI_PROXY))
    && (forall o | o in upstream :: o.tag != Some("direct") && o.tag != Some("block"))
    && (forall o | o in upstream && o.tag == Some(AI_PROXY) :: Transport(o))
  }

  lemma Resolves(c: Config, tag: string)
    requires tag != "" && exists o | o in c.outbounds :: o.tag == Some(tag)
    requires forall o | o in c.outbounds && o.tag == Some(tag) :: Transport(o)
    ensures tag in Routable(c)
  {
    var o :| o in c.outbounds && o.tag == Some(tag);
    assert Named(o) && tag in Originals(c.outbounds);
    assert Originals(c.outbounds)[tag] in c.outbounds;
  }

  lemma BlockStaysUnrouted(c: Config)
    requires forall o | o in c.outbounds && o.tag == Some("block") :: !Transport(o)
    ensures "block" !in Routable(c)
  {
    if "block" in Originals(c.outbounds) {
      assert Originals(c.outbounds)["block"] in c.outbounds;
    }
  }

  /** The routed configuration's outbounds: the built-in ones, then the upstream's. */
  lemma RoutedOutbounds(s: Settings, f: Option<Fragment>, panelPorts: seq<nat>)
    ensures var c := RoutedConfig(s, f, panelPorts);
            && c.outbounds == StaticConfig(s, panelPorts).outbounds + (if f.Some? then f.value.outbounds else [])
            && DefaultTag(c) == Some("direct")
    ensures forall o | o in StaticConfig(s, panelPorts).outbounds ::
              o.tag == Some("direct") || (o.tag == Some("block") && !Transport(o))
  {}

  lemma BlockIsNoTransport(s: Settings, f: Option<Fragment>, panelPorts: seq<nat>)
    requires f.Some? ==> ProvidesAiProxy(f.value.outbounds)
    ensures "block" !in Routable(RoutedConfig(s, f, panelPorts))
  {
    RoutedOutbounds(s, f, panelPorts);
    BlockStaysUnrouted(RoutedConfig(s, f, panelPorts));
  }

  lemma AiProxyIsRoutable(s: Settings, f: Option<Fragment>, panelPorts: seq<nat>)
    requires f.Some? && ProvidesAiProxy(f.value.outbounds)
    ensures AI_PROXY in Routable(RoutedConfig(s, f, panelPorts))
  {
    var c := RoutedConfig(s, f, panelPorts);
    RoutedOutbounds(s, f, panelPorts);
    var o :| o in f.value.outbounds && o.tag == Some(AI_PROXY);
    assert o in c.outbounds;
    forall o | o in c.outbounds && o.tag == Some(AI_PROXY) ensures Transport(o) {
      assert o in f.value.outbounds;
    }
    Resolves(c, AI_PROXY);
  }

  lemma VerdictsRoutable(s: Settings, f: Option<Fragment>, panelPorts: seq<nat>)
    requires HasTransportDefault(RoutedConfig(s, f, panelPorts))
    requires f.Some? ==> ProvidesAiProxy(f.value.outbounds)
    ensures var routable := Routable(RoutedConfig(s, f, panelPorts));
            "block" !in routable && "direct" in routable && (f.Some? ==> AI_PROXY in routable)
  {
    RoutedOutbounds(s, f, panelPorts);
    BlockIsNoTransport(s, f, panelPorts);
    if f.Some? { AiProxyIsRoutable(s, f, panelPorts); }
  }

  /** Without accounts the marked configuration decides as the plain one. */
  lemma NothingToMark(c: Config, q: Request)
    requires HasTransportDefault(c)
    ensures Route(Marked(c, []), q) == Route(c, q)
  {
    CloningAttributesExactly(c, [], q);
  }

  /** With account limits on, each verdict except a block is carried out by the tenant's own marked outbound. */
  lemma LimitedDecision(s: Settings, f: Option<Fragment>, panelPorts: seq<nat>, port: nat, q: Request, ai: bool)
    requires TenantRequest(s, panelPorts, port, q) && Accepted(RoutedConfig(s, f, panelPorts), panelPorts)
    requires f.Some? ==> ProvidesAiProxy(f.value.outbounds)
    requires Route(RoutedConfig(s, f, panelPorts), q) == Verdict(s, q, ai) && (ai ==> f.Some?)
    ensures port in panelPorts ==> ValidPort(port)
    ensures Route(Marked(RoutedConfig(s, f, panelPorts), AccountPorts(panelPorts)), q) ==
            if QuicBlocked(s, q) || port !in panelPorts then Verdict(s, q, ai) else Some(CloneTag(port, Verdict(s, q, ai).value))
  {
    if port !in panelPorts {
      assert AccountPorts(panelPorts) == [];
      NothingToMark(RoutedConfig(s, f, panelPorts), q);
    } else {
      if s.entryPort.Some? { TagPrefixes(s.entryPort.value); }
      AttributionIsCompleteAndExclusive(RoutedConfig(s, f, panelPorts), AccountPorts(panelPorts), port, q);
      VerdictsRoutable(s, f, panelPorts);
    }
  }

  /** The whole table with limits on, from policy to marked configuration: what is not blocked leaves by the tenant's own
      marked copy of `ai_proxy` or of the direct outbound. */
  lemma LimitedPolicyDecision(s: Settings, domains: set<string>, upstream: Option<seq<Outbound>>, scope: string,
      policy: seq<PolicyRow>, accounts: seq<CurrentAccount>, panelPorts: seq<nat>, port: nat, q: Request)
    requires TenantRequest(s, panelPorts, port, q)
    requires upstream.Some? ==> ProvidesAiProxy(upstream.value)
    requires var f := BindPortScopeAccounts(Stored(domains, upstream, scope, Some(policy)), accounts);
             Accepted(RoutedConfig(s, f, panelPorts), panelPorts)
    ensures var f := BindPortScopeAccounts(Stored(domains, upstream, scope, Some(policy)), accounts);
            var ai := upstream.Some? && (HolderSelectsAll(policy, accounts, port) || InDomains(q.domain, domains));
            Route(Marked(RoutedConfig(s, f, panelPorts), AccountPorts(panelPorts)), q) ==
            if QuicBlocked(s, q) || port !in panelPorts then Verdict(s, q, ai)
            else Some(CloneTag(port, if ai then AI_PROXY else "direct"))
  {
    var f := BindPortScopeAccounts(Stored(domains, upstream, scope, Some(policy)), accounts);
    var ai := upstream.Some? && (HolderSelectsAll(policy, accounts, port) || InDomains(q.domain, domains));
    PortPolicyDecision(s, domains, upstream, scope, policy, accounts, panelPorts, port, q);
    AllPortsContents(policy);
    LimitedDecision(s, f, panelPorts, port, q, ai);
  }

  // ---------------------------------------------------------------------------------------------
  // Traffic that is no tenant's
  // ---------------------------------------------------------------------------------------------

  /** A request on an inbound the tenants do not use: the API's, or any other. */
  predicate ForeignRequest(s: Settings, panelPorts: seq<nat>, q: Request) {
    q.inbound !in PanelTags(s, panelPorts) && q.inbound !in UnifiedTags(s, panelPorts)
  }

  lemma {:induction false} KeptTagsAreAllowed(tags: seq<string>, allowed: seq<string>)
    ensures forall t | t in KeepTags(tags, allowed) :: t in allowed
  {
    if tags != [] { KeptTagsAreAllowed(tags[..|tags| - 1], allowed); }
  }

  lemma CatchAllSparesForeign(s: Settings, panelPorts: seq<nat>, bound: nat, q: Request, fallback: Option<string>)
    requires ForeignRequest(s, panelPorts, q)
    ensures Decide(Scoped(s, panelPorts, CatchAll(bound)), q, fallback) == fallback
  {
    var a, b := CatchAll(bound)[0], CatchAll(bound)[1];
    var panel, unified := PanelTags(s, panelPorts), UnifiedTags(s, panelPorts);
    assert CatchAll(bound) == [a] + [b];
    ScopeConcat([a], [b], panel, unified);
    DecideConcat(Scoped(s, panelPorts, [a]), Scoped(s, panelPorts, [b]), q, fallback);
    ScopedOne(s, panelPorts, a);
    ScopedOne(s, panelPorts, b);
    if unified != [] { DecideOne(b.(inboundTag := Some(unified)), q, fallback); }
    var kept := KeepTags([PanelTag(bound)], panel);
    KeptTagsAreAllowed([PanelTag(bound)], panel);
    if kept != [] { DecideOne(a.(inboundTag := Some(kept)), q, fallback); }
  }

  lemma {:induction false} CatchAllsSpareForeign(
    s: Settings, panelPorts: seq<nat>, bound: seq<nat>, q: Request, fallback: Option<string>)
    requires ForeignRequest(s, panelPorts, q)
    ensures Decide(Scoped(s, panelPorts, CatchAlls(bound)), q, fallback) == fallback
  {
    if bound != [] {
      var init, last := bound[..|bound| - 1], bound[|bound| - 1];
      ScopeConcat(CatchAlls(init), CatchAll(last), PanelTags(s, panelPorts), UnifiedTags(s, panelPorts));
      DecideConcat(Scoped(s, panelPorts, CatchAlls(init)), Scoped(s, panelPorts, CatchAll(last)), q, fallback);
      CatchAllSparesForeign(s, panelPorts, last, q, fallback);
      CatchAllsSpareForeign(s, panelPorts, init, q, fallback);
    }
  }

  lemma ReboundFragmentSparesForeign(s: Settings, domains: set<string>, f: Fragment, bound: seq<nat>, panelPorts: seq<nat>,
      q: Request)
    requires ForeignRequest(s, panelPorts, q)
    requires f.allPorts.Some? && f.rules == CatchAlls(bound) + DomainTail(domains)
    ensures Route(RoutedConfig(s, Some(f), panelPorts), q) == Verdict(s, q, InDomains(q.domain, domains))
  {
    var fallback := Some("direct");
    var tail := Scoped(s, panelPorts, DomainTail(domains));
    ScopeConcat(CatchAlls(bound), DomainTail(domains), PanelTags(s, panelPorts), UnifiedTags(s, panelPorts));
    StaticDecision(s, panelPorts, q, Scoped(s, panelPorts, f.rules), fallback);
    DecideConcat(Scoped(s, panelPorts, CatchAlls(bound)), tail, q, fallback);
    DomainTailDecides(s, panelPorts, domains, q, fallback);
    CatchAllsSpareForeign(s, panelPorts, bound, q, Decide(tail, q, fallback));
    assert DefaultTag(RoutedConfig(s, Some(f), panelPorts)) == fallback;
  }

  /** No catch-all of a port policy touches traffic outside the tenants' inbounds; only the AI domains do. */
  lemma PortPolicySparesForeign(s: Settings, domains: set<string>, upstream: Option<seq<Outbound>>, scope: string,
      policy: seq<PolicyRow>, accounts: seq<CurrentAccount>, panelPorts: seq<nat>, q: Request)
    requires ForeignRequest(s, panelPorts, q)
    ensures var f := BindPortScopeAccounts(Stored(domains, upstream, scope, Some(policy)), accounts);
            Route(RoutedConfig(s, f, panelPorts), q) == Verdict(s, q, upstream.Some? && InDomains(q.domain, domains))
  {
    var f := BindPortScopeAccounts(Stored(domains, upstream, scope, Some(policy)), accounts);
    if f.None? {
      NoFragmentDecision(s, panelPorts, q);
    } else {
      ReboundRules(domains, scope, policy);
      ReboundFragmentSparesForeign(s, domains, f.value, BoundPorts(policy, CurrentPorts(accounts)), panelPorts, q);
    }
  }

  lemma ForeignIsNoTenant(s: Settings, panelPorts: seq<nat>, q: Request)
    requires ForeignRequest(s, panelPorts, q)
    ensures q.inbound !in TenantTags(BuiltInbounds(s, panelPorts), {"panel-", "unified-"})
  {
    var inbounds := BuiltInbounds(s, panelPorts);
    TenantTagsContents(inbounds, {"panel-", "unified-"}, q.inbound);
    TenantTagsContents(inbounds, {"panel-"}, q.inbound);
    TenantTagsContents(inbounds, {"unified-"}, q.inbound);
    forall i, p | i in inbounds && i.tag == q.inbound && p in {"panel-", "unified-"} ensures !Tenant(i, p) {
      assert {p} == {"panel-"} || {p} == {"unified-"};
    }
  }

  /** Routing all traffic to the AI node without a port policy spares every inbound that is no tenant's. */
  lemma AllTrafficSparesForeign(s: Settings, domains: set<string>, upstream: Option<seq<Outbound>>,
      accounts: seq<CurrentAccount>, panelPorts: seq<nat>, q: Request)
    requires ForeignRequest(s, panelPorts, q)
    ensures var f := BindPortScopeAccounts(Stored(domains, upstream, ALL, None), accounts);
            Route(RoutedConfig(s, f, panelPorts), q) == Verdict(s, q, false)
  {
    var f := BindPortScopeAccounts(Stored(domains, upstream, ALL, None), accounts);
    if f.None? {
      NoFragmentDecision(s, panelPorts, q);
    } else {
      var fallback := Some("direct");
      var rules := MergedRules(StaticConfig(s, panelPorts), f.value);
      StaticDecision(s, panelPorts, q, rules, fallback);
      ConfinedCatchAll(TenantTags(BuiltInbounds(s, panelPorts), {"panel-", "unified-"}));
      ForeignIsNoTenant(s, panelPorts, q);
      DecideOne(rules[0], q, fallback);
      assert DefaultTag(RoutedConfig(s, f, panelPorts)) == fallback;
    }
  }
}
