/** The rule table that every pass edits, and its one meaning: first match, else the first outbound. */
module Routing {
  import opened Bits
  import opened Common
  import opened Text

  datatype Network = Tcp | Udp

  /** One connection as the router sees it; `user` is the authenticated email of a shared inbound. */
  datatype Request = Request(inbound: string, user: Option<string>, network: Network, port: int, domain: string)

  /** A field rule. An absent condition accepts everything; `other` stands for all conditions not spelled out. */
  datatype Rule = Rule(
    inboundTag: Option<seq<string>>,
    user: Option<seq<string>>,
    network: Option<set<Network>>,
    port: Option<int>,
    domain: Option<set<string>>,
    other: Request -> bool,
    outboundTag: Option<string>,
    balancerTag: Option<string>)

  datatype Inbound = Inbound(tag: string, protocol: string)

  /** `body` stands for every setting no pass reads or writes. */
  datatype Outbound = Outbound(
    tag: Option<string>, protocol: string, chained: bool, mark: Option<Word>, muxEnabled: bool, body: string)

  datatype Config = Config(
    inbounds: seq<Inbound>, outbounds: seq<Outbound>, rules: seq<Rule>, domainStrategy: Option<string>)

  const UNRESTRICTED: Request -> bool := q => true

  const NO_RULE := Rule(None, None, None, None, None, UNRESTRICTED, None, None)

  /** A `domain:` condition accepts the name itself and every name below it. */
  predicate UnderDomain(name: string, suffix: string) {
    name == suffix || EndsWith(name, "." + suffix)
  }

  predicate InDomains(name: string, suffixes: set<string>) {
    exists s | s in suffixes :: UnderDomain(name, s)
  }

  predicate Matches(r: Rule, q: Request) {
    && (r.inboundTag.Some? ==> q.inbound in r.inboundTag.value)
    && (r.user.Some? ==> q.user.Some? && q.user.value in r.user.value)
    && (r.network.Some? ==> q.network in r.network.value)
    && (r.port.Some? ==> q.port == r.port.value)
    && (r.domain.Some? ==> InDomains(q.domain, r.domain.value))
    && r.other(q)
  }

  /** The outbound tag chosen by the first matching rule, or `fallback` when none matches. */
  function Decide(rules: seq<Rule>, q: Request, fallback: Option<string>): Option<string> {
    if rules == [] then fallback
    else if Matches(rules[0], q) then rules[0].outboundTag
    else Decide(rules[1..], q, fallback)
  }

  function DefaultTag(c: Config): Option<string> {
    if c.outbounds == [] then None else c.outbounds[0].tag
  }

  function Route(c: Config, q: Request): Option<string> {
    Decide(c.rules, q, DefaultTag(c))
  }

  /** A later block of rules is only consulted where the earlier block decides nothing. */
  lemma {:induction false} DecideConcat(a: seq<Rule>, b: seq<Rule>, q: Request, fallback: Option<string>)
    ensures Decide(a + b, q, fallback) == Decide(a, q, Decide(b, q, fallback))
  {
    if a == [] {
      assert a + b == b;
    } else {
      assert (a + b)[1..] == a[1..] + b;
      DecideConcat(a[1..], b, q, fallback);
    }
  }

  lemma DecideOne(r: Rule, q: Request, fallback: Option<string>)
    ensures Decide([r], q, fallback) == if Matches(r, q) then r.outboundTag else fallback
  {
    assert [r][1..] == [];
  }

  function PanelTag(port: nat): string { "panel-" + Decimal(port) }
  function UserName(port: nat): string { "panel-user-" + Decimal(port) }
  function UnifiedTag(port: nat): string { "unified-" + Decimal(port) }

  lemma PanelTagInjective(a: nat, b: nat)
    requires PanelTag(a) == PanelTag(b)
    ensures a == b
  {
    assert Decimal(a) == PanelTag(a)[6..];
    assert Decimal(b) == PanelTag(b)[6..];
    DecimalInjective(a, b);
  }

  lemma UserNameInjective(a: nat, b: nat)
    requires UserName(a) == UserName(b)
    ensures a == b
  {
    assert Decimal(a) == UserName(a)[11..];
    assert Decimal(b) == UserName(b)[11..];
    DecimalInjective(a, b);
  }

  lemma TagPrefixes(port: nat)
    ensures StartsWith(PanelTag(port), "panel-") && !StartsWith(PanelTag(port), "unified-")
    ensures StartsWith(UnifiedTag(port), "unified-") && !StartsWith(UnifiedTag(port), "panel-")
  {
    assert PanelTag(port)[0] == 'p';
    assert UnifiedTag(port)[0] == 'u';
  }
}
