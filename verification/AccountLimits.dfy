/** Per-account cloning of transport outbounds, the marks the clones carry, and the limiter manifest. */
module AccountLimits {
  import opened Bits
  import opened Common
  import opened Text
  import opened Routing

  /** 0x50000000 */
  const MARK_PREFIX: Word := {28, 30}

  /** 0xff00ffff: the high octet and the low sixteen bits */
  const MARK_MASK: Word := (set i | 0 <= i < 16) + (set i | 24 <= i < 32)

  type Port = p: int | 1 <= p <= 65535 witness 1

  predicate ValidPort(p: int) {
    1 <= p <= 65535
  }

  function AccountMark(port: Port): Word {
    MARK_PREFIX + BitsOf(port, 16)
  }

  function CloneTag(port: Port, tag: string): string {
    "account-" + Decimal(port) + "-" + tag
  }

  /** The transport behind a clone tag; every other tag stands for itself. */
  function EraseTag(tag: string): string {
    if !StartsWith(tag, "account-") then tag
    else
      var rest := tag[8..];
      var n := DigitRun(rest);
      if 0 < n < |rest| && rest[n] == '-' then rest[n + 1..] else tag
  }

  lemma CloneTagParts(port: Port, tag: string)
    ensures StartsWith(CloneTag(port, tag), "account-")
    ensures CloneTag(port, tag)[8..] == Decimal(port) + "-" + tag
    ensures DigitRun(CloneTag(port, tag)[8..]) == |Decimal(port)|
  {
    var digits := Decimal(port);
    assert CloneTag(port, tag)[8..] == digits + ("-" + tag);
    DigitRunLength(digits, "-" + tag);
  }

  lemma EraseCloneTag(port: Port, tag: string)
    ensures EraseTag(CloneTag(port, tag)) == tag
  {
    CloneTagParts(port, tag);
    assert (Decimal(port) + "-" + tag)[|Decimal(port)| + 1..] == tag;
  }

  lemma DigitsBeforeDash(a: string, s: string, b: string, t: string)
    requires AllDigits(a) && AllDigits(b) && a + ("-" + s) == b + "-" + t
    ensures a == b
  {
    assert b + "-" + t == b + ("-" + t);
    DigitRunLength(a, "-" + s);
    DigitRunLength(b, "-" + t);
    assert a == (a + ("-" + s))[..|a|] && b == (b + ("-" + t))[..|b|];
  }

  /** A clone tag begins with the tag prefix of one account only. */
  lemma CloneTagPrefix(port: Port, tag: string, account: Port)
    ensures StartsWith(CloneTag(port, tag), CloneTag(account, "")) <==> port == account
  {
    var whole := CloneTag(port, tag);
    var prefix := CloneTag(account, "");
    CloneTagParts(port, tag);
    CloneTagParts(account, "");
    if port == account {
      assert whole[..|prefix|] == prefix;
    }
    if prefix <= whole {
      var a, rest := Decimal(account), whole[|prefix|..];
      assert whole == prefix + rest && whole[8..] == a + ("-" + rest);
      DigitsBeforeDash(a, rest, Decimal(port), tag);
      DecimalInjective(account, port);
    }
  }

  lemma CloneTagInjective(p: Port, s: string, q: Port, t: string)
    requires CloneTag(p, s) == CloneTag(q, t)
    ensures p == q && s == t
  {
    assert CloneTag(q, t)[..|CloneTag(q, "")|] == CloneTag(q, "");
    CloneTagPrefix(p, s, q);
    EraseCloneTag(p, s);
    EraseCloneTag(q, t);
  }

  // ---------------------------------------------------------------------------------------------
  // Ordering
  // ---------------------------------------------------------------------------------------------

  predicate Increasing(s: seq<int>) {
    forall i, j | 0 <= i < j < |s| :: s[i] < s[j]
  }

  function InsertUnique(s: seq<int>, x: int): (r: seq<int>)
    requires Increasing(s)
    ensures Increasing(r)
    ensures forall y :: y in r <==> y == x || y in s
  {
    if s == [] then [x]
    else if x == s[0] then s
    else if x < s[0] then [x] + s
    else
      var rest := InsertUnique(s[1..], x);
      assert forall i | 0 <= i < |rest| :: rest[i] in rest && (rest[i] == x || rest[i] in s[1..]);
      [s[0]] + rest
  }

  /** `sorted({...})`: strictly increasing, with exactly the given elements. */
  function SortedUnique(s: seq<int>): (r: seq<int>)
    ensures Increasing(r)
    ensures forall y :: y in r <==> y in s
  {
    if s == [] then [] else InsertUnique(SortedUnique(s[1..]), s[0])
  }

  // ---------------------------------------------------------------------------------------------
  // Outbounds
  // ---------------------------------------------------------------------------------------------

  predicate Named(o: Outbound) {
    o.tag.Some? && o.tag.value != ""
  }

  /** Tagged outbounds by tag; of two outbounds with one tag the later one is kept. */
  function Originals(os: seq<Outbound>): (m: map<string, Outbound>)
    ensures forall t :: t in m <==> exists o :: o in os && Named(o) && o.tag.value == t
    ensures forall t | t in m :: m[t] in os && Named(m[t]) && m[t].tag.value == t
  {
    if os == [] then map[]
    else
      var last := os[|os| - 1];
      var m := Originals(os[..|os| - 1]);
      assert os == os[..|os| - 1] + [last];
      if Named(last) then m[last.tag.value := last] else m
  }

  /** Tags in the order they first appear. */
  function TagOrder(os: seq<Outbound>): (tags: seq<string>)
    ensures forall t :: t in tags <==> t in Originals(os)
    ensures forall i, j | 0 <= i < j < |tags| :: tags[i] != tags[j]
  {
    if os == [] then []
    else
      var last := os[|os| - 1];
      var tags := TagOrder(os[..|os| - 1]);
      if Named(last) && last.tag.value !in tags then tags + [last.tag.value] else tags
  }

  predicate Transport(o: Outbound) {
    o.protocol != "blackhole" && o.protocol != "dns"
  }

  /** The outbounds a rule may be cloned onto: everything named that is neither a blackhole nor DNS. */
  function Routable(c: Config): map<string, Outbound> {
    map t | t in Originals(c.outbounds) && Transport(Originals(c.outbounds)[t]) :: Originals(c.outbounds)[t]
  }

  type Table = map<string, Outbound>

  predicate Known(routable: Table, tag: Option<string>) {
    tag.Some? && tag.value in routable
  }

  function Keep(routable: Table, tags: seq<string>): (r: seq<string>)
    ensures forall t :: t in r <==> t in tags && t in routable
  {
    if tags == [] then []
    else
      var rest := Keep(routable, tags[..|tags| - 1]);
      var last := tags[|tags| - 1];
      assert tags == tags[..|tags| - 1] + [last];
      if last in routable then rest + [last] else rest
  }

  function RoutableTags(c: Config): (r: seq<string>)
    ensures forall t :: t in r <==> t in Routable(c)
  {
    Keep(Routable(c), TagOrder(c.outbounds))
  }

  /** An account's private copy of a transport: renamed, marked, and never multiplexed. */
  function CloneOf(routable: Table, port: Port, tag: string): Outbound
    requires tag in routable
  {
    routable[tag].(tag := Some(CloneTag(port, tag)), mark := Some(AccountMark(port)), muxEnabled := false)
  }

  function ClonesForPort(routable: Table, port: Port, tags: seq<string>): (r: seq<Outbound>)
    requires forall t | t in tags :: t in routable
  {
    if tags == [] then []
    else ClonesForPort(routable, port, tags[..|tags| - 1]) + [CloneOf(routable, port, tags[|tags| - 1])]
  }

  function CloneOutbounds(routable: Table, ports: seq<Port>, tags: seq<string>): seq<Outbound>
    requires forall t | t in tags :: t in routable
  {
    if ports == [] then []
    else CloneOutbounds(routable, ports[..|ports| - 1], tags) + ClonesForPort(routable, ports[|ports| - 1], tags)
  }

  ghost predicate IsCloneFor(routable: Table, port: Port, tags: seq<string>, o: Outbound) {
    exists t | t in tags :: t in routable && o == CloneOf(routable, port, t)
  }

  lemma {:induction false} ClonesForPortContents(routable: Table, port: Port, tags: seq<string>, o: Outbound)
    requires forall t | t in tags :: t in routable
    ensures o in ClonesForPort(routable, port, tags) <==> IsCloneFor(routable, port, tags, o)
  {
    if tags != [] {
      var init, last := tags[..|tags| - 1], tags[|tags| - 1];
      assert tags == init + [last];
      ClonesForPortContents(routable, port, init, o);
      assert last in tags && forall t :: t in tags <==> t in init || t == last;
    }
  }

  lemma {:induction false} CloneOutboundsContents(routable: Table, ports: seq<Port>, tags: seq<string>, o: Outbound)
    requires forall t | t in tags :: t in routable
    ensures o in CloneOutbounds(routable, ports, tags) <==> exists p | p in ports :: IsCloneFor(routable, p, tags, o)
  {
    if ports != [] {
      var init, last := ports[..|ports| - 1], ports[|ports| - 1];
      assert ports == init + [last];
      CloneOutboundsContents(routable, init, tags, o);
      ClonesForPortContents(routable, last, tags, o);
      assert last in ports && forall p :: p in ports <==> p in init || p == last;
    }
  }

  // ---------------------------------------------------------------------------------------------
  // Rules
  // ---------------------------------------------------------------------------------------------

  datatype Identity = ByInbound | ByUser

  predicate Belongs(port: Port, id: Identity, q: Request) {
    match id
    case ByInbound => q.inbound == PanelTag(port)
    case ByUser => q.user == Some(UserName(port))
  }

  function Requested(port: Port, id: Identity): string {
    if id.ByInbound? then PanelTag(port) else UserName(port)
  }

  function Existing(r: Rule, id: Identity): Option<seq<string>> {
    if id.ByInbound? then r.inboundTag else r.user
  }

  predicate Compatible(r: Rule, port: Port, id: Identity) {
    Existing(r, id).Some? ==> Requested(port, id) in Existing(r, id).value
  }

  function CloneRule(r: Rule, port: Port, id: Identity, tag: string): Rule {
    var narrowed :=
      if id.ByInbound? then r.(inboundTag := Some([Requested(port, id)])) else r.(user := Some([Requested(port, id)]));
    narrowed.(outboundTag := Some(CloneTag(port, tag)))
  }

  function CloneIfCompatible(r: Rule, port: Port, id: Identity, tag: string): seq<Rule> {
    if Compatible(r, port, id) then [CloneRule(r, port, id, tag)] else []
  }

  function ClonesOfRule(r: Rule, ports: seq<Port>, tag: string): seq<Rule> {
    if ports == [] then []
    else
      var p := ports[|ports| - 1];
      ClonesOfRule(r, ports[..|ports| - 1], tag)
      + CloneIfCompatible(r, p, ByInbound, tag) + CloneIfCompatible(r, p, ByUser, tag)
  }

  function MarkedRules(routable: Table, rules: seq<Rule>, ports: seq<Port>): seq<Rule> {
    if rules == [] then []
    else
      var r := rules[|rules| - 1];
      MarkedRules(routable, rules[..|rules| - 1], ports)
      + (if Known(routable, r.outboundTag) then ClonesOfRule(r, ports, r.outboundTag.value) else [])
      + [r]
  }

  /** The closing rules that stand in for the default outbound, one pair per account. */
  function DefaultRules(ports: seq<Port>, tag: string): seq<Rule> {
    ClonesOfRule(NO_RULE, ports, tag)
  }

  predicate AllPorts(ports: seq<int>) {
    forall p | p in ports :: ValidPort(p)
  }

  /** The accounts in the order the pass visits them. */
  function AccountPorts(requested: seq<int>): (ports: seq<Port>)
    requires AllPorts(requested)
    ensures Increasing(ports)
    ensures forall p :: p in ports <==> p in requested
  {
    var sorted := SortedUnique(requested);
    assert forall i | 0 <= i < |sorted| :: sorted[i] in requested;
    sorted
  }

  predicate Unchained(routable: Table) {
    forall t | t in routable :: !routable[t].chained
  }

  predicate RulesSupported(routable: Table, rules: seq<Rule>) {
    forall i | 0 <= i < |rules| :: Known(routable, rules[i].outboundTag) || rules[i].balancerTag.None?
  }

  predicate HasTransportDefault(c: Config) {
    Known(Routable(c), DefaultTag(c))
  }

  /** Exactly the configurations the cloning pass accepts. */
  predicate Accepted(c: Config, requested: seq<int>) {
    && AllPorts(requested)
    && (requested == [] || Unchained(Routable(c)))
    && RulesSupported(Routable(c), c.rules)
    && HasTransportDefault(c)
  }

  function ClonesAdded(c: Config, ports: seq<Port>): seq<Outbound> {
    CloneOutbounds(Routable(c), ports, RoutableTags(c))
  }

  function Marked(c: Config, ports: seq<Port>): Config
    requires HasTransportDefault(c)
  {
    c.(outbounds := c.outbounds + ClonesAdded(c, ports),
       rules := MarkedRules(Routable(c), c.rules, ports) + DefaultRules(ports, DefaultTag(c).value))
  }

  /** The pass as the program runs it. */
  method MarkAccountRoutes(c: Config, requested: seq<int>) returns (r: Result<Config>)
    ensures r.Ok? <==> Accepted(c, requested)
    ensures r.Ok? ==> r.value == Marked(c, AccountPorts(requested))
  {
    var ordered := SortedUnique(requested);
    for i := 0 to |ordered|
      invariant forall j | 0 <= j < i :: ValidPort(ordered[j])
    {
      if !ValidPort(ordered[i]) {
        assert ordered[i] in requested;
        return Err("Account port must be in 1..65535");
      }
    }
    assert forall p | p in requested :: p in ordered;
    var ports := AccountPorts(requested);
    assert requested == [] <==> ports == [] by {
      assert requested == [] || requested[0] in ports;
      assert ports == [] || ports[0] in requested;
    }
    var routable := Routable(c);
    var clones := BuildClones(routable, ports, RoutableTags(c));
    if clones.Err? {
      return Err(clones.reason);
    }
    var rules := BuildRules(routable, c.rules, ports);
    if rules.Err? {
      return Err(rules.reason);
    }
    if !Known(routable, DefaultTag(c)) {
      return Err("Account limiter requires a transport default outbound");
    }
    var closing := CopiesOfRule(NO_RULE, ports, DefaultTag(c).value);
    return Ok(c.(outbounds := c.outbounds + clones.value, rules := rules.value + closing));
  }

  method BuildClones(routable: Table, ports: seq<Port>, tags: seq<string>) returns (r: Result<seq<Outbound>>)
    requires forall t :: t in tags <==> t in routable
    ensures r.Ok? <==> ports == [] || Unchained(routable)
    ensures r.Ok? ==> r.value == CloneOutbounds(routable, ports, tags)
  {
    var clones := [];
    for i := 0 to |ports|
      invariant clones == CloneOutbounds(routable, ports[..i], tags)
      invariant i > 0 ==> Unchained(routable)
    {
      var row := BuildRow(routable, ports[i], tags);
      if row.Err? {
        return row;
      }
      assert ports[..i + 1][..i] == ports[..i];
      clones := clones + row.value;
    }
    assert ports[..|ports|] == ports;
    return Ok(clones);
  }

  /** The clones of every transport for one port. */
  method BuildRow(routable: Table, port: Port, tags: seq<string>) returns (r: Result<seq<Outbound>>)
    requires forall t :: t in tags <==> t in routable
    ensures r.Ok? <==> Unchained(routable)
    ensures r.Ok? ==> r.value == ClonesForPort(routable, port, tags)
  {
    var row := [];
    for j := 0 to |tags|
      invariant row == ClonesForPort(routable, port, tags[..j])
      invariant forall k | 0 <= k < j :: !routable[tags[k]].chained
    {
      assert tags[j] in tags;
      if routable[tags[j]].chained {
        return Err("Account limiter does not support chained outbounds");
      }
      row := row + [CloneOf(routable, port, tags[j])];
      assert tags[..j + 1][..j] == tags[..j];
    }
    assert tags[..|tags|] == tags;
    return Ok(row);
  }

  lemma MarkedOneMore(routable: Table, given: seq<Rule>, ports: seq<Port>, i: nat)
    requires i < |given|
    ensures var r := given[i];
            MarkedRules(routable, given[..i + 1], ports) ==
            MarkedRules(routable, given[..i], ports)
            + (if Known(routable, r.outboundTag) then ClonesOfRule(r, ports, r.outboundTag.value) else []) + [r]
  {
    assert given[..i + 1][..i] == given[..i];
    assert given[..i + 1][i] == given[i];
  }

  lemma SupportedOneMore(routable: Table, given: seq<Rule>, i: nat)
    requires i < |given|
    ensures RulesSupported(routable, given[..i + 1]) <==>
            RulesSupported(routable, given[..i]) && (Known(routable, given[i].outboundTag) || given[i].balancerTag.None?)
  {}

  lemma UnsupportedPrefix(routable: Table, given: seq<Rule>, n: nat)
    requires n <= |given| && !RulesSupported(routable, given[..n])
    ensures !RulesSupported(routable, given)
  {}

  method BuildRules(routable: Table, given: seq<Rule>, ports: seq<Port>) returns (r: Result<seq<Rule>>)
    ensures r.Ok? <==> RulesSupported(routable, given)
    ensures r.Ok? ==> r.value == MarkedRules(routable, given, ports)
  {
    var rules := [];
    for i := 0 to |given|
      invariant rules == MarkedRules(routable, given[..i], ports)
      invariant RulesSupported(routable, given[..i])
    {
      var rule := given[i];
      MarkedOneMore(routable, given, ports, i);
      SupportedOneMore(routable, given, i);
      var copies := [];
      if Known(routable, rule.outboundTag) {
        copies := CopiesOfRule(rule, ports, rule.outboundTag.value);
      } else if rule.balancerTag.Some? {
        UnsupportedPrefix(routable, given, i + 1);
        return Err("Account limiter does not support outbound balancers");
      }
      rules := rules + copies + [rule];
    }
    assert given[..|given|] == given;
    return Ok(rules);
  }

  /** One identity of one account: the rule is copied unless it already restricts that identity to others. */
  method CopyForIdentity(copies: seq<Rule>, rule: Rule, port: Port, id: Identity, tag: string) returns (r: seq<Rule>)
    ensures r == copies + CloneIfCompatible(rule, port, id, tag)
  {
    r := copies;
    var existing := Existing(rule, id);
    if existing.None? || Requested(port, id) in existing.value {
      r := copies + [CloneRule(rule, port, id, tag)];
    }
  }

  lemma ClonesOfOneMorePort(rule: Rule, ports: seq<Port>, i: nat, tag: string)
    requires i < |ports|
    ensures ClonesOfRule(rule, ports[..i + 1], tag) ==
            ClonesOfRule(rule, ports[..i], tag)
            + CloneIfCompatible(rule, ports[i], ByInbound, tag) + CloneIfCompatible(rule, ports[i], ByUser, tag)
  {
    assert ports[..i + 1][..i] == ports[..i];
  }

  method CopiesOfRule(rule: Rule, ports: seq<Port>, tag: string) returns (copies: seq<Rule>)
    ensures copies == ClonesOfRule(rule, ports, tag)
  {
    copies := [];
    for i := 0 to |ports|
      invariant copies == ClonesOfRule(rule, ports[..i], tag)
    {
      ClonesOfOneMorePort(rule, ports, i, tag);
      copies := CopyForIdentity(copies, rule, ports[i], ByInbound, tag);
      copies := CopyForIdentity(copies, rule, ports[i], ByUser, tag);
    }
    assert ports[..|ports|] == ports;
  }

  // ---------------------------------------------------------------------------------------------
  // What cloning does to routing
  // ---------------------------------------------------------------------------------------------

  predicate Owns(port: Port, q: Request) {
    Belongs(port, ByInbound, q) || Belongs(port, ByUser, q)
  }

  /** The first listed account the request identifies as. */
  function OwnerOf(ports: seq<Port>, q: Request): Option<Port> {
    if ports == [] then None
    else if OwnerOf(ports[..|ports| - 1], q).Some? then OwnerOf(ports[..|ports| - 1], q)
    else if Owns(ports[|ports| - 1], q) then Some(ports[|ports| - 1])
    else None
  }

  /** The outbound that must carry a decision: the owner's clone of it, if it is a transport. */
  function Attributed(routable: Table, ports: seq<Port>, q: Request, decision: Option<string>): Option<string> {
    if Known(routable, decision) && OwnerOf(ports, q).Some?
    then Some(CloneTag(OwnerOf(ports, q).value, decision.value))
    else decision
  }

  lemma CloneMatches(r: Rule, port: Port, id: Identity, tag: string, q: Request, fallback: Option<string>)
    ensures Decide(CloneIfCompatible(r, port, id, tag), q, fallback)
         == if Matches(r, q) && Belongs(port, id, q) then Some(CloneTag(port, tag)) else fallback
  {
    DecideOne(CloneRule(r, port, id, tag), q, fallback);
  }

  lemma {:induction false} ClonesMatch(r: Rule, ports: seq<Port>, tag: string, q: Request, fallback: Option<string>)
    ensures Decide(ClonesOfRule(r, ports, tag), q, fallback)
         == if Matches(r, q) && OwnerOf(ports, q).Some? then Some(CloneTag(OwnerOf(ports, q).value, tag)) else fallback
  {
    if ports != [] {
      var init, p := ports[..|ports| - 1], ports[|ports| - 1];
      var first, second := CloneIfCompatible(r, p, ByInbound, tag), CloneIfCompatible(r, p, ByUser, tag);
      DecideConcat(ClonesOfRule(r, init, tag) + first, second, q, fallback);
      CloneMatches(r, p, ByUser, tag, q, fallback);
      var next := Decide(second, q, fallback);
      DecideConcat(ClonesOfRule(r, init, tag), first, q, next);
      CloneMatches(r, p, ByInbound, tag, q, next);
      ClonesMatch(r, init, tag, q, Decide(first, q, next));
    }
  }

  lemma {:induction false} MarkedRulesDecide(
    routable: Table, rules: seq<Rule>, ports: seq<Port>, q: Request, fallback: Option<string>)
    ensures Decide(MarkedRules(routable, rules, ports), q, Attributed(routable, ports, q, fallback))
         == Attributed(routable, ports, q, Decide(rules, q, fallback))
  {
    if rules != [] {
      var init, r := rules[..|rules| - 1], rules[|rules| - 1];
      var next := if Matches(r, q) then r.outboundTag else fallback;
      assert rules == init + [r];
      DecideConcat(init, [r], q, fallback);
      DecideOne(r, q, fallback);
      MarkedRulesDecide(routable, init, ports, q, next);

      var copies := if Known(routable, r.outboundTag) then ClonesOfRule(r, ports, r.outboundTag.value) else [];
      var last := Attributed(routable, ports, q, fallback);
      DecideConcat(MarkedRules(routable, init, ports) + copies, [r], q, last);
      DecideOne(r, q, last);
      DecideConcat(MarkedRules(routable, init, ports), copies, q, Decide([r], q, last));
      if Known(routable, r.outboundTag) {
        ClonesMatch(r, ports, r.outboundTag.value, q, Decide([r], q, last));
      }
    }
  }

  /** For every request whatever, cloning replaces the decision by its attribution and changes nothing else. */
  lemma CloningAttributesExactly(c: Config, ports: seq<Port>, q: Request)
    requires HasTransportDefault(c)
    ensures Route(Marked(c, ports), q) == Attributed(Routable(c), ports, q, Route(c, q))
  {
    var fallback := DefaultTag(c);
    var routable := Routable(c);
    assert DefaultTag(Marked(c, ports)) == fallback;
    DecideConcat(MarkedRules(routable, c.rules, ports), DefaultRules(ports, fallback.value), q, fallback);
    ClonesMatch(NO_RULE, ports, fallback.value, q, fallback);
    MarkedRulesDecide(routable, c.rules, ports, q, fallback);
  }

  /** Reading `account-P-T` as `T` gives back the decision made before cloning. */
  lemma CloningPreservesRouting(c: Config, ports: seq<Port>, q: Request)
    requires HasTransportDefault(c)
    requires Route(c, q).Some? ==> !StartsWith(Route(c, q).value, "account-")
    ensures Route(c, q).Some? <==> Route(Marked(c, ports), q).Some?
    ensures Route(c, q).Some? ==> EraseTag(Route(Marked(c, ports), q).value) == Route(c, q).value
  {
    CloningAttributesExactly(c, ports, q);
    if Route(c, q).Some? && OwnerOf(ports, q).Some? {
      EraseCloneTag(OwnerOf(ports, q).value, Route(c, q).value);
    }
  }

  /** The two ways a client can be admitted: a private inbound without user, or the shared inbound with one. */
  predicate AccountRequest(port: Port, q: Request) {
    || (q.inbound == PanelTag(port) && q.user.None?)
    || (StartsWith(q.inbound, "unified-") && q.user == Some(UserName(port)))
  }

  lemma AccountRequestOwner(port: Port, other: Port, q: Request)
    requires AccountRequest(port, q)
    ensures Owns(other, q) <==> other == port
  {
    TagPrefixes(other);
    if Owns(other, q) {
      if q.user.None? { PanelTagInjective(other, port); } else { UserNameInjective(other, port); }
    }
  }

  lemma {:induction false} OwnerOfAccountRequest(ports: seq<Port>, port: Port, q: Request)
    requires AccountRequest(port, q)
    ensures OwnerOf(ports, q) == if port in ports then Some(port) else None
  {
    if ports != [] {
      var init, p := ports[..|ports| - 1], ports[|ports| - 1];
      assert ports == init + [p];
      OwnerOfAccountRequest(init, port, q);
      AccountRequestOwner(port, p, q);
    }
  }

  /** Traffic of a listed account leaves by its own clone exactly when the decision is a transport. */
  lemma AttributionIsCompleteAndExclusive(c: Config, ports: seq<Port>, port: Port, q: Request)
    requires HasTransportDefault(c) && AccountRequest(port, q)
    ensures Route(Marked(c, ports), q) ==
            if port in ports && Known(Routable(c), Route(c, q)) then Some(CloneTag(port, Route(c, q).value)) else Route(c, q)
    ensures forall other: Port, t | Route(Marked(c, ports), q) == Some(CloneTag(other, t)) &&
              Route(c, q) != Some(CloneTag(other, t)) :: other == port
  {
    CloningAttributesExactly(c, ports, q);
    OwnerOfAccountRequest(ports, port, q);
    forall other: Port, t | Route(Marked(c, ports), q) == Some(CloneTag(other, t)) &&
                            Route(c, q) != Some(CloneTag(other, t))
      ensures other == port
    {
      CloneTagInjective(other, t, port, Route(c, q).value);
    }
  }

  lemma CloneIsAdded(c: Config, ports: seq<Port>, port: Port, tag: string)
    requires HasTransportDefault(c) && port in ports && tag in Routable(c)
    ensures CloneOf(Routable(c), port, tag) in ClonesAdded(c, ports)
  {
    var clone := CloneOf(Routable(c), port, tag);
    assert IsCloneFor(Routable(c), port, RoutableTags(c), clone) by { assert tag in RoutableTags(c); }
    CloneOutboundsContents(Routable(c), ports, RoutableTags(c), clone);
  }

  /** Each clone named by a rule exists, dials as its original does, and carries its account's mark. */
  lemma ClonesCarryTheMark(c: Config, ports: seq<Port>, port: Port, tag: string)
    requires HasTransportDefault(c) && port in ports && tag in Routable(c)
    ensures CloneOf(Routable(c), port, tag) in Marked(c, ports).outbounds
    ensures CloneOf(Routable(c), port, tag).mark == Some(AccountMark(port))
    ensures forall o | o in ClonesAdded(c, ports) && o.tag == Some(CloneTag(port, tag)) ::
              o == CloneOf(Routable(c), port, tag)
  {
    var clone := CloneOf(Routable(c), port, tag);
    CloneIsAdded(c, ports, port, tag);
    forall o | o in ClonesAdded(c, ports) && o.tag == Some(CloneTag(port, tag))
      ensures o == clone
    {
      var p, t := WhichClone(c, ports, o);
      CloneTagInjective(p, t, port, tag);
    }
  }

  lemma WhichClone(c: Config, ports: seq<Port>, o: Outbound) returns (port: Port, tag: string)
    requires o in ClonesAdded(c, ports)
    ensures port in ports && tag in Routable(c) && o == CloneOf(Routable(c), port, tag)
  {
    CloneOutboundsContents(Routable(c), ports, RoutableTags(c), o);
    port :| port in ports && IsCloneFor(Routable(c), port, RoutableTags(c), o);
    tag :| tag in RoutableTags(c) && tag in Routable(c) && o == CloneOf(Routable(c), port, tag);
  }

  // ---------------------------------------------------------------------------------------------
  // The limiter manifest and the daemon's check of the produced configuration
  // ---------------------------------------------------------------------------------------------

  datatype Account = Account(port: int, throttled: bool)
  datatype Limit = Limit(port: Port, mark: Word, throttled: bool)

  function LimitOf(a: Account): Limit
    requires ValidPort(a.port)
  {
    Limit(a.port, AccountMark(a.port), a.throttled)
  }

  predicate DistinctPorts(accounts: seq<Account>) {
    forall i, j | 0 <= i < j < |accounts| :: accounts[i].port != accounts[j].port
  }

  predicate PortsIncrease(limits: seq<Limit>) {
    forall i, j | 0 <= i < j < |limits| :: limits[i].port < limits[j].port
  }

  function InsertLimit(limits: seq<Limit>, l: Limit): (r: seq<Limit>)
    requires PortsIncrease(limits) && forall x | x in limits :: x.port != l.port
    ensures PortsIncrease(r)
    ensures forall x :: x in r <==> x == l || x in limits
  {
    if limits == [] || l.port < limits[0].port then [l] + limits
    else
      var rest := InsertLimit(limits[1..], l);
      assert forall i | 0 <= i < |rest| :: rest[i] in rest && (rest[i] == l || rest[i] in limits[1..]);
      [limits[0]] + rest
  }

  /** Normalised limits in port order; duplicate and out-of-range ports are refused. */
  function LimitsManifest(accounts: seq<Account>): (r: Result<seq<Limit>>)
    ensures r.Ok? <==> DistinctPorts(accounts) && forall a | a in accounts :: ValidPort(a.port)
    ensures r.Ok? ==> PortsIncrease(r.value)
    ensures r.Ok? ==> forall l :: l in r.value <==> exists a :: a in accounts && ValidPort(a.port) && l == LimitOf(a)
  {
    if accounts == [] then Ok([])
    else
      var n := |accounts| - 1;
      var a := accounts[n];
      var init := LimitsManifest(accounts[..n]);
      assert accounts == accounts[..n] + [a];
      if init.Err? then init
      else if exists b | b in accounts[..n] :: b.port == a.port then Err("Duplicate account port")
      else if !ValidPort(a.port) then Err("Account port must be in 1..65535")
      else
        assert forall l | l in init.value :: l.port != a.port;
        Ok(InsertLimit(init.value, LimitOf(a)))
  }

  lemma {:induction false} IncreasingLimitsEqual(a: seq<Limit>, b: seq<Limit>)
    requires PortsIncrease(a) && PortsIncrease(b)
    requires forall l :: l in a <==> l in b
    ensures a == b
  {
    assert |b| == 0 || b[0] in b;
    if a != [] {
      assert a[0] in b;
      assert b[0] in a;
      assert a[0] == b[0];
      forall l ensures l in a[1..] <==> l in b[1..] {
        assert l in a <==> l == a[0] || l in a[1..];
        assert l in b <==> l == b[0] || l in b[1..];
      }
      IncreasingLimitsEqual(a[1..], b[1..]);
    }
  }

  /** The manifest, and so its hash, depends on which accounts there are and not on the order of the rows. */
  lemma ManifestIsCanonical(a: seq<Account>, b: seq<Account>)
    requires DistinctPorts(a) && DistinctPorts(b)
    requires forall x :: x in a <==> x in b
    ensures LimitsManifest(a).Ok? <==> LimitsManifest(b).Ok?
    ensures LimitsManifest(a).Ok? ==> LimitsManifest(a) == LimitsManifest(b)
  {
    if LimitsManifest(a).Ok? {
      IncreasingLimitsEqual(LimitsManifest(a).value, LimitsManifest(b).value);
    }
  }

  /** One account of a policy as read back from outside, with whatever numbers it claims. */
  datatype Claim = Claim(port: int, mark: Word, throttled: bool)

  const RATE_BITS_PER_SECOND := 5_000_000

  predicate Genuine(c: Claim) {
    ValidPort(c.port) && c.mark == AccountMark(c.port)
  }

  function AccountsOf(claims: seq<Claim>): (accounts: seq<Account>)
    ensures |accounts| == |claims|
  {
    seq(|claims|, i requires 0 <= i < |claims| => Account(claims[i].port, claims[i].throttled))
  }

  function ClaimsOf(limits: seq<Limit>): (claims: seq<Claim>)
    ensures |claims| == |limits|
  {
    seq(|limits|, i requires 0 <= i < |limits| => Claim(limits[i].port, limits[i].mark, limits[i].throttled))
  }

  /** A policy is trusted only when version, rate and every mark are the ones this program would have written. */
  function ValidateManifest(version: int, rate: int, claims: seq<Claim>): Result<seq<Limit>> {
    if version != 1 then Err("Unsupported account limiter policy version")
    else if rate != RATE_BITS_PER_SECOND then Err("Account limiter rate must be 5,000,000 bits/sec")
    else if exists c | c in claims :: !Genuine(c) then Err("Invalid account limiter identities")
    else LimitsManifest(AccountsOf(claims))
  }

  lemma ClaimedAccounts(limits: seq<Limit>, l: Limit)
    requires forall x | x in limits :: x == LimitOf(Account(x.port, x.throttled))
    ensures l in limits <==> exists a | a in AccountsOf(ClaimsOf(limits)) && ValidPort(a.port) :: l == LimitOf(a)
  {
    var accounts := AccountsOf(ClaimsOf(limits));
    if l in limits {
      var i :| 0 <= i < |limits| && limits[i] == l;
      assert accounts[i] in accounts && l == LimitOf(accounts[i]);
    }
    if a :| a in accounts && ValidPort(a.port) && l == LimitOf(a) {
      var i :| 0 <= i < |accounts| && accounts[i] == a;
      assert limits[i] in limits && l == limits[i];
    }
  }

  /** A manifest this program wrote reads back as itself, so its hash is stable. */
  lemma ManifestSurvivesValidation(accounts: seq<Account>)
    requires LimitsManifest(accounts).Ok?
    ensures ValidateManifest(1, RATE_BITS_PER_SECOND, ClaimsOf(LimitsManifest(accounts).value)) == LimitsManifest(accounts)
  {
    var limits := LimitsManifest(accounts).value;
    var claims := ClaimsOf(limits);
    forall x | x in limits ensures x == LimitOf(Account(x.port, x.throttled)) {
      var a :| a in accounts && ValidPort(a.port) && x == LimitOf(a);
    }
    forall c | c in claims ensures Genuine(c) {
      var i :| 0 <= i < |claims| && claims[i] == c;
      assert limits[i] in limits;
    }
    forall a | a in AccountsOf(claims) ensures ValidPort(a.port) {
      var i :| 0 <= i < |claims| && AccountsOf(claims)[i] == a;
    }
    forall i, j | 0 <= i < j < |limits| ensures AccountsOf(claims)[i].port != AccountsOf(claims)[j].port {
      assert limits[i].port < limits[j].port;
    }
    assert DistinctPorts(AccountsOf(claims));
    forall l ensures l in limits <==> l in LimitsManifest(AccountsOf(claims)).value {
      ClaimedAccounts(limits, l);
    }
    IncreasingLimitsEqual(limits, LimitsManifest(AccountsOf(claims)).value);
  }

  predicate HasAccountPrefix(o: Outbound, port: Port) {
    o.tag.Some? && StartsWith(o.tag.value, CloneTag(port, ""))
  }

  /** The limiter daemon's test of the deployed outbounds against one account of its manifest. */
  predicate DaemonAcceptsAccount(outbounds: seq<Outbound>, port: Port, mark: Word) {
    && (exists o | o in outbounds :: HasAccountPrefix(o, port))
    && (forall o | o in outbounds && HasAccountPrefix(o, port) :: o.mark == Some(mark))
  }

  predicate DaemonAccepts(c: Config, limits: seq<Limit>) {
    forall l | l in limits :: DaemonAcceptsAccount(c.outbounds, l.port, l.mark)
  }

  lemma PrefixedClonesAreMarked(c: Config, ports: seq<Port>, port: Port)
    requires HasTransportDefault(c)
    ensures forall o | o in ClonesAdded(c, ports) && HasAccountPrefix(o, port) :: o.mark == Some(AccountMark(port))
  {
    forall o | o in ClonesAdded(c, ports) && HasAccountPrefix(o, port)
      ensures o.mark == Some(AccountMark(port))
    {
      var p, t := WhichClone(c, ports, o);
      CloneTagPrefix(p, t, port);
    }
  }

  /** An account's own clone satisfies the daemon's search for it. */
  lemma OwnCloneIsFound(c: Config, ports: seq<Port>, port: Port)
    requires HasTransportDefault(c) && port in ports
    ensures exists o | o in ClonesAdded(c, ports) :: HasAccountPrefix(o, port)
  {
    var own := CloneOf(Routable(c), port, DefaultTag(c).value);
    CloneIsAdded(c, ports, port, DefaultTag(c).value);
    CloneTagPrefix(port, DefaultTag(c).value, port);
    assert HasAccountPrefix(own, port);
  }

  lemma MarkedPartsSuffice(given: seq<Outbound>, clones: seq<Outbound>, port: Port, mark: Word)
    requires exists o | o in clones :: HasAccountPrefix(o, port)
    requires forall o | o in clones && HasAccountPrefix(o, port) :: o.mark == Some(mark)
    ensures DaemonAcceptsAccount(given + clones, port, mark) <==>
            forall o | o in given && HasAccountPrefix(o, port) :: o.mark == Some(mark)
  {
    assert forall o :: o in given + clones <==> o in given || o in clones;
  }

  /** An account passes iff no outbound of the input squats on its tag prefix with another mark. */
  lemma DaemonAcceptsProducedAccount(c: Config, ports: seq<Port>, port: Port)
    requires HasTransportDefault(c) && port in ports
    ensures DaemonAcceptsAccount(Marked(c, ports).outbounds, port, AccountMark(port)) <==>
            forall o | o in c.outbounds && HasAccountPrefix(o, port) :: o.mark == Some(AccountMark(port))
  {
    OwnCloneIsFound(c, ports, port);
    PrefixedClonesAreMarked(c, ports, port);
    MarkedPartsSuffice(c.outbounds, ClonesAdded(c, ports), port, AccountMark(port));
  }

  lemma DaemonAcceptsProducedConfig(c: Config, ports: seq<Port>, accounts: seq<Account>)
    requires HasTransportDefault(c) && LimitsManifest(accounts).Ok?
    requires forall a | a in accounts :: a.port in ports
    ensures DaemonAccepts(Marked(c, ports), LimitsManifest(accounts).value) <==>
            forall a, o | a in accounts && o in c.outbounds && HasAccountPrefix(o, a.port) ::
              o.mark == Some(AccountMark(a.port))
  {
    var limits := LimitsManifest(accounts).value;
    forall l | l in limits
      ensures exists a | a in accounts :: l == LimitOf(a)
      ensures DaemonAcceptsAccount(Marked(c, ports).outbounds, l.port, l.mark) <==>
              forall o | o in c.outbounds && HasAccountPrefix(o, l.port) :: o.mark == Some(l.mark)
    {
      var a :| a in accounts && ValidPort(a.port) && l == LimitOf(a);
      DaemonAcceptsProducedAccount(c, ports, a.port);
    }
    assert forall a | a in accounts :: LimitOf(a) in limits;
  }

  // A configuration with such an outbound.
  const PLAIN := Outbound(Some("direct"), "freedom", false, None, false, "")
  const SQUATTER := Outbound(Some("account-5-x"), "vless", false, None, false, "")
  const SQUATTED := Config([], [PLAIN, SQUATTER], [], None)

  lemma SquatterBearsThePrefix()
    ensures HasAccountPrefix(SQUATTER, 5)
  {
    assert Decimal(5) == "5";
    assert CloneTag(5, "") == "account-5-";
    assert "account-5-x"[..10] == "account-5-";
  }

  lemma SquattedIsAccepted()
    ensures Accepted(SQUATTED, [5])
  {
    var os := SQUATTED.outbounds;
    assert os[0] == PLAIN && os[1] == SQUATTER && Named(PLAIN);
    assert forall o | o in os :: o == PLAIN || o == SQUATTER;
    assert "direct" in Originals(os);
    assert forall t | t in Routable(SQUATTED) :: Routable(SQUATTED)[t] in os;
  }

  /** The cloning pass accepts it, and the daemon refuses what the pass makes of it. */
  lemma SquattedPrefixIsRefused()
    ensures Accepted(SQUATTED, [5]) && LimitsManifest([Account(5, false)]).Ok?
    ensures !DaemonAccepts(Marked(SQUATTED, AccountPorts([5])), LimitsManifest([Account(5, false)]).value)
  {
    SquattedIsAccepted();
    SquatterBearsThePrefix();
    var account := Account(5, false);
    assert [account][0] == account && 5 in [5] && SQUATTED.outbounds[1] == SQUATTER;
    DaemonAcceptsProducedConfig(SQUATTED, AccountPorts([5]), [account]);
  }
}
