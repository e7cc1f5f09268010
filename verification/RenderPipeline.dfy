/** From AI policy to the rule table: fragment, rebinding to current accounts, merge, server config. */
module RenderPipeline {
  import opened Common
  import opened Text
  import opened Routing
  import opened AccountLimits

  const AI_PROXY := "ai_proxy"
  const ALL := "all"
  const BOTH: set<Network> := {Tcp, Udp}

  /** One policy row of an account, and one current account. */
  datatype PolicyRow = PolicyRow(id: int, listenPort: nat, active: bool, scope: string)
  datatype CurrentAccount = CurrentAccount(id: int, listenPort: nat)

  /** The stored dynamic-routing payload; `allPorts` is present exactly for per-port policies. */
  datatype Fragment = Fragment(
    scope: string, rules: seq<Rule>, outbounds: seq<Outbound>, allPorts: Option<seq<nat>>, portScopes: seq<PolicyRow>)

  datatype Settings = Settings(
    entryPort: Option<nat>, listenPort: nat, blockQuic: bool, limitsEnabled: bool, relay: Option<Outbound>)

  const AI_RULE := NO_RULE.(outboundTag := Some(AI_PROXY))

  function DomainRule(domains: set<string>): Rule {
    AI_RULE.(domain := Some(domains))
  }

  function CatchAll(port: nat): seq<Rule> {
    [AI_RULE.(network := Some(BOTH), inboundTag := Some([PanelTag(port)])),
     AI_RULE.(network := Some(BOTH), user := Some([UserName(port)]))]
  }

  function CatchAlls(ports: seq<nat>): seq<Rule> {
    if ports == [] then [] else CatchAlls(ports[..|ports| - 1]) + CatchAll(ports[|ports| - 1])
  }

  // ---------------------------------------------------------------------------------------------
  // Writing the fragment
  // ---------------------------------------------------------------------------------------------

  predicate SelectsAll(row: PolicyRow) {
    row.active && row.scope == ALL
  }

  function AllPortsOf(policy: seq<PolicyRow>): seq<nat> {
    if policy == [] then []
    else
      var rest := AllPortsOf(policy[..|policy| - 1]);
      var row := policy[|policy| - 1];
      if SelectsAll(row) then rest + [row.listenPort] else rest
  }

  /** `mixed` when active rows disagree, their common scope when they agree, else the given default. */
  function EffectiveScope(policy: seq<PolicyRow>, default: string): string {
    var scopes := set row | row in policy && row.active :: row.scope;
    if |scopes| > 1 then "mixed"
    else if exists row :: row in policy && row.active then
      SharedScope(policy)
    else default
  }

  /** The scope of the last active row. */
  function SharedScope(policy: seq<PolicyRow>): string {
    if policy == [] then ""
    else if policy[|policy| - 1].active then policy[|policy| - 1].scope
    else SharedScope(policy[..|policy| - 1])
  }

  /** No fragment is kept when nothing is routed to the AI node or no upstream is known. */
  predicate FragmentWanted(domains: set<string>, upstream: Option<seq<Outbound>>, scope: string, policy: Option<seq<PolicyRow>>) {
    var hasAll := if policy.Some? then AllPortsOf(policy.value) != [] else scope == ALL;
    (domains != {} || hasAll) && upstream.Some?
  }

  function FragmentRules(domains: set<string>, scope: string, policy: Option<seq<PolicyRow>>): seq<Rule> {
    if policy.Some? then
      CatchAlls(AllPortsOf(policy.value)) + (if domains != {} then [DomainRule(domains)] else [])
    else if scope == ALL then [AI_RULE.(network := Some(BOTH))]
    else [DomainRule(domains)]
  }

  method WriteRoutingFragment(domains: set<string>, upstream: Option<seq<Outbound>>, scope: string,
      policy: Option<seq<PolicyRow>>) returns (f: Option<Fragment>)
    ensures f.Some? <==> FragmentWanted(domains, upstream, scope, policy)
    ensures f.Some? ==> f.value == Fragment(
              EffectiveScope(if policy.Some? then policy.value else [], scope),
              FragmentRules(domains, scope, policy), upstream.value,
              if policy.Some? then Some(AllPortsOf(policy.value)) else None,
              if policy.Some? then policy.value else [])
  {
    var rows := if policy.Some? then policy.value else [];
    var allPorts := [];
    for i := 0 to |rows|
      invariant allPorts == AllPortsOf(rows[..i])
    {
      assert rows[..i + 1][..i] == rows[..i];
      if SelectsAll(rows[i]) {
        allPorts := allPorts + [rows[i].listenPort];
      }
    }
    assert rows[..|rows|] == rows;
    var hasAll := if policy.Some? then allPorts != [] else scope == ALL;
    if (domains == {} && !hasAll) || upstream.None? {
      return None;
    }
    var rules := [];
    if policy.Some? {
      for i := 0 to |allPorts|
        invariant rules == CatchAlls(allPorts[..i])
      {
        assert allPorts[..i + 1][..i] == allPorts[..i];
        rules := rules + CatchAll(allPorts[i]);
      }
      assert allPorts[..|allPorts|] == allPorts;
      if domains != {} {
        rules := rules + [DomainRule(domains)];
      } else {
        assert rules + [] == rules;
      }
    } else if scope == ALL {
      rules := [AI_RULE.(network := Some(BOTH))];
    } else {
      rules := [DomainRule(domains)];
    }
    return Some(Fragment(EffectiveScope(rows, scope), rules, upstream.value,
                         if policy.Some? then Some(allPorts) else None, rows));
  }

  // ---------------------------------------------------------------------------------------------
  // Rebinding catch-alls to the accounts that exist now
  // ---------------------------------------------------------------------------------------------

  /** The port each account id holds now; the last row of an id decides. */
  function CurrentPorts(accounts: seq<CurrentAccount>): map<int, nat> {
    if accounts == [] then map[]
    else
      var last := accounts[|accounts| - 1];
      CurrentPorts(accounts[..|accounts| - 1])[last.id := last.listenPort]
  }

  function BoundPorts(scopes: seq<PolicyRow>, current: map<int, nat>): seq<nat> {
    if scopes == [] then []
    else
      var rest := BoundPorts(scopes[..|scopes| - 1], current);
      var row := scopes[|scopes| - 1];
      if SelectsAll(row) && row.id in current then rest + [current[row.id]] else rest
  }

  function KeepDomainRules(rules: seq<Rule>): seq<Rule> {
    if rules == [] then []
    else
      var rest := KeepDomainRules(rules[..|rules| - 1]);
      if rules[|rules| - 1].domain.Some? then rest + [rules[|rules| - 1]] else rest
  }

  function BindPortScopeAccounts(f: Option<Fragment>, accounts: seq<CurrentAccount>): Option<Fragment> {
    if f.None? || f.value.allPorts.None? then f
    else
      var ports := BoundPorts(f.value.portScopes, CurrentPorts(accounts));
      Some(f.value.(rules := CatchAlls(ports) + KeepDomainRules(f.value.rules), allPorts := Some(ports)))
  }

  // ---------------------------------------------------------------------------------------------
  // Merging into the server configuration
  // ---------------------------------------------------------------------------------------------

  predicate Tenant(i: Inbound, prefix: string) {
    i.protocol == "vless" && StartsWith(i.tag, prefix)
  }

  function TenantTags(inbounds: seq<Inbound>, prefixes: set<string>): seq<string> {
    if inbounds == [] then []
    else
      var rest := TenantTags(inbounds[..|inbounds| - 1], prefixes);
      var last := inbounds[|inbounds| - 1];
      if exists p | p in prefixes :: Tenant(last, p) then rest + [last.tag] else rest
  }

  function KeepTags(tags: seq<string>, allowed: seq<string>): seq<string> {
    if tags == [] then []
    else
      var rest := KeepTags(tags[..|tags| - 1], allowed);
      if tags[|tags| - 1] in allowed then rest + [tags[|tags| - 1]] else rest
  }

  predicate NonEmpty(condition: Option<seq<string>>) {
    condition.Some? && condition.value != []
  }

  /** One rule confined to the inbounds it may act on; nothing if none of them exists. */
  function ScopeRule(r: Rule, panel: seq<string>, unified: seq<string>): seq<Rule> {
    if NonEmpty(r.user) then
      if unified != [] then [r.(inboundTag := Some(unified))] else []
    else if NonEmpty(r.inboundTag) then
      var tags := KeepTags(r.inboundTag.value, panel);
      if tags != [] then [r.(inboundTag := Some(tags))] else []
    else [r]
  }

  function ScopeRules(rules: seq<Rule>, panel: seq<string>, unified: seq<string>): seq<Rule> {
    if rules == [] then []
    else ScopeRules(rules[..|rules| - 1], panel, unified) + ScopeRule(rules[|rules| - 1], panel, unified)
  }

  function ConfineRules(rules: seq<Rule>, tags: seq<string>): (r: seq<Rule>) {
    if rules == [] then []
    else ConfineRules(rules[..|rules| - 1], tags) + [rules[|rules| - 1].(inboundTag := Some(tags))]
  }

  function MergedRules(c: Config, f: Fragment): seq<Rule> {
    if f.allPorts.Some? then ScopeRules(f.rules, TenantTags(c.inbounds, {"panel-"}), TenantTags(c.inbounds, {"unified-"}))
    else if f.scope == ALL then ConfineRules(f.rules, TenantTags(c.inbounds, {"panel-", "unified-"}))
    else f.rules
  }

  /** A catch-all fragment without port scopes needs some tenant inbound to act on. */
  predicate Mergeable(c: Config, f: Option<Fragment>) {
    f.Some? && f.value.rules != [] && f.value.scope == ALL && f.value.allPorts.None? ==>
      TenantTags(c.inbounds, {"panel-", "unified-"}) != []
  }

  function Merged(c: Config, f: Option<Fragment>): Config {
    if f.None? then c
    else c.(outbounds := c.outbounds + f.value.outbounds,
            domainStrategy := Some("AsIs"),
            rules := c.rules + MergedRules(c, f.value))
  }

  method MergeDynamicRouting(c: Config, f: Option<Fragment>) returns (r: Result<Config>)
    ensures r.Ok? <==> Mergeable(c, f)
    ensures r.Ok? ==> r.value == Merged(c, f)
  {
    if f.None? {
      return Ok(c);
    }
    var config := c.(outbounds := c.outbounds + f.value.outbounds, domainStrategy := Some("AsIs"));
    var rules := f.value.rules;
    if rules == [] {
      assert c.rules + [] == c.rules;
      return Ok(config);
    }
    if f.value.scope == ALL && f.value.allPorts.None? {
      var tags := TenantTags(c.inbounds, {"panel-", "unified-"});
      if tags == [] {
        return Err("All-AI routing requires managed tenant inbounds");
      }
      rules := ConfineRules(rules, tags);
    }
    if f.value.allPorts.Some? {
      var panel, unified := TenantTags(c.inbounds, {"panel-"}), TenantTags(c.inbounds, {"unified-"});
      var scoped := [];
      for i := 0 to |rules|
        invariant scoped == ScopeRules(rules[..i], panel, unified)
      {
        assert rules[..i + 1][..i] == rules[..i];
        var rule := rules[i];
        ghost var before := scoped;
        if NonEmpty(rule.user) {
          if unified != [] {
            scoped := scoped + [rule.(inboundTag := Some(unified))];
          }
        } else if NonEmpty(rule.inboundTag) {
          var tags := KeepTags(rule.inboundTag.value, panel);
          if tags != [] {
            scoped := scoped + [rule.(inboundTag := Some(tags))];
          }
        } else {
          scoped := scoped + [rule];
        }
        assert scoped == before + ScopeRule(rule, panel, unified);
      }
      assert rules[..|rules|] == rules;
      rules := scoped;
    }
    return Ok(config.(rules := c.rules + rules));
  }

  // ---------------------------------------------------------------------------------------------
  // The server configuration
  // ---------------------------------------------------------------------------------------------

  const QUIC_BLOCK := NO_RULE.(network := Some({Udp}), port := Some(443), outboundTag := Some("block"))

  function PanelInbounds(ports: seq<nat>): seq<Inbound> {
    seq(|ports|, i requires 0 <= i < |ports| => Inbound(PanelTag(ports[i]), "vless"))
  }

  function BuiltInbounds(s: Settings, panelPorts: seq<nat>): seq<Inbound> {
    if s.entryPort.Some? then PanelInbounds(panelPorts) + [Inbound(UnifiedTag(s.entryPort.value), "vless")]
    else if panelPorts != [] then PanelInbounds(panelPorts)
    else PanelInbounds([s.listenPort])
  }

  function DirectOutbound(s: Settings): Outbound {
    if s.relay.Some? then s.relay.value.(tag := Some("direct"))
    else Outbound(Some("direct"), "freedom", false, None, false, "")
  }

  function StaticConfig(s: Settings, panelPorts: seq<nat>): Config {
    Config(BuiltInbounds(s, panelPorts),
           [DirectOutbound(s)] + (if s.blockQuic then [Outbound(Some("block"), "blackhole", false, None, false, "")] else []),
           if s.blockQuic then [QUIC_BLOCK] else [],
           None)
  }

  predicate EntryPortFree(s: Settings, panelPorts: seq<nat>) {
    s.entryPort.Some? ==> s.entryPort.value !in panelPorts
  }

  function RoutedConfig(s: Settings, f: Option<Fragment>, panelPorts: seq<nat>): Config {
    Merged(StaticConfig(s, panelPorts), f)
  }

  method BuildServerConfig(s: Settings, f: Option<Fragment>, panelPorts: seq<nat>) returns (r: Result<Config>)
    ensures r.Ok? <==> EntryPortFree(s, panelPorts) && Mergeable(StaticConfig(s, panelPorts), f) &&
                       (s.limitsEnabled ==> Accepted(RoutedConfig(s, f, panelPorts), panelPorts))
    ensures r.Ok? ==> r.value == if s.limitsEnabled then Marked(RoutedConfig(s, f, panelPorts), AccountPorts(panelPorts))
                                 else RoutedConfig(s, f, panelPorts)
  {
    if s.entryPort.Some? && s.entryPort.value in panelPorts {
      return Err("The unified entry port cannot also identify a legacy account");
    }
    r := MergeDynamicRouting(StaticConfig(s, panelPorts), f);
    if r.Ok? && s.limitsEnabled {
      r := MarkAccountRoutes(r.value, panelPorts);
    }
  }
}
