/** The public entry's TCP gateway: which private socket each connection is handed to. */
module EntryGateway {
  import opened Common
  import opened Text
  import opened Routing

  datatype Listener = Listener(tag: string, listen: string, acceptsProxy: bool, serverNames: seq<string>)

  /** `fullmatch(prefix + "\d+", tag)`. */
  predicate Numbered(prefix: string, tag: string) {
    StartsWith(tag, prefix) && |tag| > |prefix| && AllDigits(tag[|prefix|..])
  }

  function NumberOf(prefix: string, tag: string): nat
    requires Numbered(prefix, tag)
  {
    DecimalValue(tag[|prefix|..])
  }

  predicate IsLegacy(l: Listener) {
    Numbered("panel-", l.tag)
  }

  predicate IsEntry(l: Listener) {
    Numbered("unified-", l.tag)
  }

  function Entries(ls: seq<Listener>): (r: seq<Listener>)
    ensures forall i | 0 <= i < |r| :: IsEntry(r[i]) && r[i] in ls
    ensures forall l | l in ls && IsEntry(l) :: l in r
  {
    if ls == [] then [] else (if IsEntry(ls[0]) then [ls[0]] else []) + Entries(ls[1..])
  }

  function Legacy(ls: seq<Listener>): (r: seq<Listener>)
    ensures AllLegacy(r)
    ensures forall l :: l in r <==> l in ls && IsLegacy(l)
  {
    if ls == [] then [] else (if IsLegacy(ls[0]) then [ls[0]] else []) + Legacy(ls[1..])
  }

  predicate AllLegacy(ls: seq<Listener>) {
    forall l | l in ls :: IsLegacy(l)
  }

  function PortOf(l: Listener): nat
    requires IsLegacy(l)
  {
    NumberOf("panel-", l.tag)
  }

  function Ports(ls: seq<Listener>): (ports: seq<nat>)
    requires AllLegacy(ls)
    ensures |ports| == |ls| && forall i | 0 <= i < |ls| :: ports[i] == PortOf(ls[i])
  {
    seq(|ls|, i requires 0 <= i < |ls| => PortOf(ls[i]))
  }

  function Insert(l: Listener, ls: seq<Listener>): (r: seq<Listener>)
    requires IsLegacy(l) && AllLegacy(ls)
    ensures multiset(r) == multiset{l} + multiset(ls) && AllLegacy(r)
  {
    if ls == [] then [l]
    else
      assert ls == [ls[0]] + ls[1..];
      if PortOf(l) <= PortOf(ls[0]) then [l] + ls else [ls[0]] + Insert(l, ls[1..])
  }

  /** `sorted` by port. */
  function SortByPort(ls: seq<Listener>): (r: seq<Listener>)
    requires AllLegacy(ls)
    ensures multiset(r) == multiset(ls) && AllLegacy(r)
  {
    if ls == [] then []
    else
      assert ls == [ls[0]] + ls[1..];
      Insert(ls[0], SortByPort(ls[1..]))
  }

  predicate ValidPort(p: nat) {
    1 <= p <= 65535
  }

  predicate Distinct(s: seq<nat>) {
    forall i, j | 0 <= i < j < |s| :: s[i] != s[j]
  }

  predicate IsHostChar(c: char) {
    'A' <= c <= 'Z' || 'a' <= c <= 'z' || '0' <= c <= '9' || c == '.' || c == '-'
  }

  predicate ValidName(s: string) {
    s != "" && forall i | 0 <= i < |s| :: IsHostChar(s[i])
  }

  predicate ValidDirectory(s: string) {
    |s| > 1 && s[0] == '/' && forall i | 1 <= i < |s| :: IsHostChar(s[i]) || s[i] == '_' || s[i] == '/'
  }

  function SocketFile(tag: string): string {
    "entry-" + tag + ".sock"
  }

  predicate ListensPrivately(l: Listener) {
    l.listen == "/var/log/xray/" + SocketFile(l.tag) && l.acceptsProxy
  }

  // ---------------------------------------------------------------------------------------------
  // The rendered gateway
  // ---------------------------------------------------------------------------------------------

  datatype Condition = DstPort(port: nat) | Sni(names: seq<string>)
  datatype UseBackend = UseBackend(backend: string, condition: Condition)
  datatype Backend = Backend(name: string, address: string, sendsProxy: bool)
  datatype Gateway = Gateway(bind: nat, rules: seq<UseBackend>, fallback: string, backends: seq<Backend>)

  function LegacyName(port: nat): string {
    "legacy_" + Decimal(port)
  }

  function PortRule(port: nat): UseBackend {
    UseBackend(LegacyName(port), DstPort(port))
  }

  function PortBackend(socketDir: string, port: nat): Backend {
    Backend(LegacyName(port), socketDir + "/" + SocketFile(PanelTag(port)), true)
  }

  function FixedBackends(entry: Listener, socketDir: string, https: string): seq<Backend> {
    [Backend("proxy_entry", socketDir + "/" + SocketFile(entry.tag), true), Backend("subscription_https", https, false)]
  }

  function Rendered(entry: Listener, ports: seq<nat>, socketDir: string, https: string): Gateway
    requires IsEntry(entry)
  {
    Gateway(NumberOf("unified-", entry.tag),
            seq(|ports|, i requires 0 <= i < |ports| => PortRule(ports[i])) + [UseBackend("proxy_entry", Sni(entry.serverNames))],
            "subscription_https",
            FixedBackends(entry, socketDir, https)
            + seq(|ports|, i requires 0 <= i < |ports| => PortBackend(socketDir, ports[i])))
  }

  /** What the renderer demands of the deployed configuration. */
  predicate Acceptable(ls: seq<Listener>, socketDir: string, https: string) {
    var entries, legacy := Entries(ls), Legacy(ls);
    && |entries| == 1
    && ValidPort(NumberOf("unified-", entries[0].tag))
    && Numbered("127.0.0.1:", https)
    && ValidDirectory(socketDir)
    && NumberOf("unified-", entries[0].tag) !in Ports(SortByPort(legacy))
    && (forall p | p in Ports(SortByPort(legacy)) :: ValidPort(p))
    && Distinct(Ports(SortByPort(legacy)))
    && entries[0].serverNames != [] && (forall s | s in entries[0].serverNames :: ValidName(s))
    && ListensPrivately(entries[0]) && (forall l | l in SortByPort(legacy) :: ListensPrivately(l))
  }

  method CheckPorts(entryPort: nat, ports: seq<nat>) returns (ok: bool)
    ensures ok <==> entryPort !in ports && (forall p | p in ports :: ValidPort(p)) && Distinct(ports)
  {
    var seen: set<nat> := {};
    for i := 0 to |ports|
      invariant seen == set k | 0 <= k < i :: ports[k]
      invariant entryPort !in seen && (forall p | p in seen :: ValidPort(p)) && Distinct(ports[..i])
    {
      if ports[i] == entryPort || !ValidPort(ports[i]) || ports[i] in seen {
        assert ports[i] in ports;
        return false;
      }
      seen := seen + {ports[i]};
    }
    assert ports[..|ports|] == ports;
    return true;
  }

  /** Every check the renderer makes before it writes a line. */
  method Validate(ls: seq<Listener>, socketDir: string, https: string) returns (r: Result<()>)
    ensures r.Ok? <==> Acceptable(ls, socketDir, https)
  {
    var entries := Entries(ls);
    if |entries| != 1 {
      return Err("expected exactly one unified inbound");
    }
    var entry := entries[0];
    var entryPort := NumberOf("unified-", entry.tag);
    if !ValidPort(entryPort) {
      return Err("invalid entry port");
    }
    if !Numbered("127.0.0.1:", https) {
      return Err("HTTPS backend must be a loopback endpoint");
    }
    if !ValidDirectory(socketDir) {
      return Err("unsafe socket directory");
    }
    var legacy := SortByPort(Legacy(ls));
    var portsFine := CheckPorts(entryPort, Ports(legacy));
    if !portsFine {
      return Err("invalid or conflicting legacy ports");
    }
    if entry.serverNames == [] || exists s | s in entry.serverNames :: !ValidName(s) {
      return Err("invalid server name");
    }
    if !ListensPrivately(entry) || exists l | l in legacy :: !ListensPrivately(l) {
      return Err("wrong private socket");
    }
    return Ok(());
  }

  method WriteLines(entry: Listener, ports: seq<nat>, socketDir: string, https: string) returns (g: Gateway)
    requires IsEntry(entry)
    ensures g == Rendered(entry, ports, socketDir, https)
  {
    var rules: seq<UseBackend> := [];
    for i := 0 to |ports|
      invariant rules == seq(i, k requires 0 <= k < i => PortRule(ports[k]))
    {
      rules := rules + [PortRule(ports[i])];
    }
    rules := rules + [UseBackend("proxy_entry", Sni(entry.serverNames))];
    var backends := FixedBackends(entry, socketDir, https);
    for i := 0 to |ports|
      invariant backends == FixedBackends(entry, socketDir, https)
                            + seq(i, k requires 0 <= k < i => PortBackend(socketDir, ports[k]))
    {
      backends := backends + [PortBackend(socketDir, ports[i])];
    }
    g := Gateway(NumberOf("unified-", entry.tag), rules, "subscription_https", backends);
  }

  method RenderGateway(ls: seq<Listener>, socketDir: string, https: string) returns (r: Result<Gateway>)
    ensures r.Ok? <==> Acceptable(ls, socketDir, https)
    ensures r.Ok? ==> r.value == Rendered(Entries(ls)[0], Ports(SortByPort(Legacy(ls))), socketDir, https)
  {
    var valid := Validate(ls, socketDir, https);
    if valid.Err? {
      return Err(valid.reason);
    }
    var g := WriteLines(Entries(ls)[0], Ports(SortByPort(Legacy(ls))), socketDir, https);
    return Ok(g);
  }

  // ---------------------------------------------------------------------------------------------
  // Selection
  // ---------------------------------------------------------------------------------------------

  /** A connection after the trusted PROXY header: the port it was made to, and the name in its TLS hello. */
  datatype Connection = Connection(dstPort: nat, sni: Option<string>)

  function Lower(s: string): string {
    if s == "" then "" else [if 'A' <= s[0] <= 'Z' then (s[0] as int + 32) as char else s[0]] + Lower(s[1..])
  }

  predicate Holds(c: Condition, conn: Connection) {
    match c
    case DstPort(port) => conn.dstPort == port
    case Sni(names) => conn.sni.Some? && exists n | n in names :: Lower(n) == Lower(conn.sni.value)
  }

  /** `use_backend` rules are tried in order; the default backend takes what is left. */
  function Select(rules: seq<UseBackend>, fallback: string, conn: Connection): string {
    if rules == [] then fallback
    else if Holds(rules[0].condition, conn) then rules[0].backend
    else Select(rules[1..], fallback, conn)
  }

  function ServerOf(backends: seq<Backend>, name: string): Option<string> {
    if backends == [] then None
    else if backends[0].name == name then Some(backends[0].address)
    else ServerOf(backends[1..], name)
  }

  /** The address a connection is handed to. */
  function Destination(g: Gateway, conn: Connection): Option<string> {
    ServerOf(g.backends, Select(g.rules, g.fallback, conn))
  }

  lemma {:induction false} SelectPort(ports: seq<nat>, rest: seq<UseBackend>, fallback: string, conn: Connection)
    ensures Select(seq(|ports|, i requires 0 <= i < |ports| => PortRule(ports[i])) + rest, fallback, conn) ==
            if conn.dstPort in ports then LegacyName(conn.dstPort) else Select(rest, fallback, conn)
  {
    var rules := seq(|ports|, i requires 0 <= i < |ports| => PortRule(ports[i]));
    if ports == [] {
      assert rules + rest == rest;
    } else {
      var tail := ports[1..];
      assert (rules + rest)[1..] == seq(|tail|, i requires 0 <= i < |tail| => PortRule(tail[i])) + rest;
      SelectPort(tail, rest, fallback, conn);
      assert conn.dstPort in ports <==> conn.dstPort == ports[0] || conn.dstPort in tail;
    }
  }

  lemma LegacyNameInjective(a: nat, b: nat)
    requires LegacyName(a) == LegacyName(b)
    ensures a == b
  {
    assert Decimal(a) == LegacyName(a)[7..];
    assert Decimal(b) == LegacyName(b)[7..];
    DecimalInjective(a, b);
  }

  lemma {:induction false} ServerOfPort(ports: seq<nat>, socketDir: string, port: nat)
    requires port in ports
    ensures ServerOf(seq(|ports|, i requires 0 <= i < |ports| => PortBackend(socketDir, ports[i])), LegacyName(port))
         == Some(socketDir + "/" + SocketFile(PanelTag(port)))
  {
    var backends := seq(|ports|, i requires 0 <= i < |ports| => PortBackend(socketDir, ports[i]));
    if ports[0] != port {
      var tail := ports[1..];
      if LegacyName(ports[0]) == LegacyName(port) { LegacyNameInjective(ports[0], port); }
      assert backends[1..] == seq(|tail|, i requires 0 <= i < |tail| => PortBackend(socketDir, tail[i]));
      ServerOfPort(tail, socketDir, port);
    }
  }

  /** Alias connections go to their own account's socket; the rest go by server name, and else to the HTTPS backend. */
  lemma GatewayDestinations(entry: Listener, ports: seq<nat>, socketDir: string, https: string, conn: Connection)
    requires IsEntry(entry)
    ensures Destination(Rendered(entry, ports, socketDir, https), conn) ==
            if conn.dstPort in ports then Some(socketDir + "/" + SocketFile(PanelTag(conn.dstPort)))
            else if Holds(Sni(entry.serverNames), conn) then Some(socketDir + "/" + SocketFile(entry.tag))
            else Some(https)
  {
    var g := Rendered(entry, ports, socketDir, https);
    var sni := [UseBackend("proxy_entry", Sni(entry.serverNames))];
    SelectPort(ports, sni, g.fallback, conn);
    SelectName(entry.serverNames, conn);
    FixedServers(entry, socketDir, https, seq(|ports|, i requires 0 <= i < |ports| => PortBackend(socketDir, ports[i])), conn.dstPort);
    if conn.dstPort in ports { ServerOfPort(ports, socketDir, conn.dstPort); }
  }

  lemma SelectName(names: seq<string>, conn: Connection)
    ensures Select([UseBackend("proxy_entry", Sni(names))], "subscription_https", conn) ==
            if Holds(Sni(names), conn) then "proxy_entry" else "subscription_https"
  {
    assert [UseBackend("proxy_entry", Sni(names))][1..] == [];
  }

  lemma FixedServers(entry: Listener, socketDir: string, https: string, legacy: seq<Backend>, port: nat)
    ensures var all := FixedBackends(entry, socketDir, https) + legacy;
            && ServerOf(all, "proxy_entry") == Some(socketDir + "/" + SocketFile(entry.tag))
            && ServerOf(all, "subscription_https") == Some(https)
            && ServerOf(all, LegacyName(port)) == ServerOf(legacy, LegacyName(port))
  {
    var fixed := FixedBackends(entry, socketDir, https);
    var all := fixed + legacy;
    assert all[0] == fixed[0] && all[1..][0] == fixed[1] && all[1..][1..] == legacy;
    assert LegacyName(port)[0] == 'l' && fixed[0].name[0] == 'p' && fixed[1].name[0] == 's';
  }

  lemma SocketFileInjective(a: string, b: string)
    requires SocketFile(a) == SocketFile(b)
    ensures a == b
  {
    assert a == SocketFile(a)[6..|SocketFile(a)| - 5];
    assert b == SocketFile(b)[6..|SocketFile(b)| - 5];
  }

  lemma PortsOfPermutation(a: seq<Listener>, b: seq<Listener>, p: nat)
    requires multiset(a) == multiset(b) && AllLegacy(a) && AllLegacy(b) && p in Ports(a)
    ensures p in Ports(b)
  {
    var i :| 0 <= i < |a| && Ports(a)[i] == p;
    assert a[i] in multiset(a);
    var j :| 0 <= j < |b| && b[j] == a[i];
    assert Ports(b)[j] == p;
  }

  /** Forwarder and gateway serve the same aliases. */
  lemma AliasIsRendered(ls: seq<Listener>, p: nat)
    ensures p in Ports(SortByPort(Legacy(ls))) <==> p in Ports(Legacy(ls))
  {
    var legacy, sorted := Legacy(ls), SortByPort(Legacy(ls));
    if p in Ports(sorted) { PortsOfPermutation(sorted, legacy, p); }
    if p in Ports(legacy) { PortsOfPermutation(legacy, sorted, p); }
  }

  lemma CanonicalTag(l: Listener)
    requires IsLegacy(l)
    ensures PanelTag(PortOf(l)) == l.tag <==> Canonical(l)
  {
    var digits := l.tag[6..];
    CanonicalDecimal(digits);
    assert l.tag == "panel-" + digits && PanelTag(PortOf(l))[6..] == Decimal(PortOf(l));
  }

  /** The port in the tag is written without leading zeros. */
  predicate Canonical(l: Listener)
    requires IsLegacy(l)
  {
    |l.tag| == 7 || l.tag[6] != '0'
  }

  /** In an accepted configuration, the connections of an alias are handed to the socket its own inbound listens on iff the
      inbound's tag is written without leading zeros. */
  lemma AliasReachesItsListener(ls: seq<Listener>, l: Listener, socketDir: string, https: string, sni: Option<string>)
    requires Acceptable(ls, socketDir, https) && l in Legacy(ls)
    ensures Destination(Rendered(Entries(ls)[0], Ports(SortByPort(Legacy(ls))), socketDir, https), Connection(PortOf(l), sni))
            == Some(socketDir + "/" + SocketFile(l.tag))
            <==> Canonical(l)
  {
    var legacy := Legacy(ls);
    var i :| 0 <= i < |legacy| && legacy[i] == l;
    assert Ports(legacy)[i] == PortOf(l);
    AliasIsRendered(ls, PortOf(l));
    GatewayDestinations(Entries(ls)[0], Ports(SortByPort(legacy)), socketDir, https, Connection(PortOf(l), sni));
    CanonicalTag(l);
    SameSocketSameTag(socketDir, PanelTag(PortOf(l)), l.tag);
  }

  lemma SameSocketSameTag(socketDir: string, a: string, b: string)
    ensures socketDir + "/" + SocketFile(a) == socketDir + "/" + SocketFile(b) <==> a == b
  {
    var x, y := socketDir + "/" + SocketFile(a), socketDir + "/" + SocketFile(b);
    if x == y {
      assert x[|socketDir| + 1..] == SocketFile(a) && y[|socketDir| + 1..] == SocketFile(b);
      SocketFileInjective(a, b);
    }
  }

  // A configuration with such a tag.
  const ENTRY := Listener("unified-443", "/var/log/xray/" + SocketFile("unified-443"), true, ["a.b"])
  const PADDED := Listener("panel-07", "/var/log/xray/" + SocketFile("panel-07"), true, [])

  lemma WitnessNumbers()
    ensures IsEntry(ENTRY) && NumberOf("unified-", ENTRY.tag) == 443
    ensures IsLegacy(PADDED) && PortOf(PADDED) == 7
  {
    assert ENTRY.tag[8..] == "443" && PADDED.tag[6..] == "07";
    assert "443"[..2] == "44" && "44"[..1] == "4" && "4"[..0] == "";
    assert DecimalValue("4") == 4 && DecimalValue("44") == 44;
    assert "07"[..1] == "0" && "0"[..0] == "" && DecimalValue("0") == 0;
  }

  lemma WitnessLists()
    ensures Entries([ENTRY, PADDED]) == [ENTRY] && Legacy([ENTRY, PADDED]) == [PADDED]
    ensures SortByPort([PADDED]) == [PADDED]
  {
    WitnessNumbers();
    assert ENTRY.tag[0] == 'u' && PADDED.tag[0] == 'p';
    assert [ENTRY, PADDED][1..] == [PADDED] && [PADDED][1..] == [];
    assert Entries([PADDED]) == [] && Legacy([PADDED]) == [PADDED];
  }

  lemma WitnessChecks()
    ensures ListensPrivately(ENTRY) && ListensPrivately(PADDED)
    ensures forall n | n in ENTRY.serverNames :: ValidName(n)
  {
    assert ValidName("a.b") && forall n | n in ENTRY.serverNames :: n == "a.b";
  }

  lemma WitnessAccepted(socketDir: string, https: string)
    requires ValidDirectory(socketDir) && Numbered("127.0.0.1:", https)
    ensures Acceptable([ENTRY, PADDED], socketDir, https)
  {
    WitnessLists();
    WitnessNumbers();
    WitnessChecks();
    assert Ports([PADDED]) == [7];
    assert forall l | l in [PADDED] :: l == PADDED;
  }

  lemma WitnessDestination(socketDir: string, https: string, sni: Option<string>)
    ensures IsEntry(ENTRY) && AllLegacy([PADDED])
    ensures Destination(Rendered(ENTRY, Ports([PADDED]), socketDir, https), Connection(7, sni))
         == Some(socketDir + "/" + SocketFile(PanelTag(7)))
  {
    WitnessNumbers();
    assert Ports([PADDED])[0] == 7;
    GatewayDestinations(ENTRY, Ports([PADDED]), socketDir, https, Connection(7, sni));
  }

  lemma WitnessTagsDiffer()
    ensures PanelTag(7) != PADDED.tag && PanelTag(7) != ENTRY.tag
  {
    WitnessNumbers();
    CanonicalTag(PADDED);
    assert ENTRY.tag[0] == 'u' && PanelTag(7)[0] == 'p';
  }

  /** The renderer accepts the configuration, and the alias of the padded tag is handed to a socket none of its inbounds
      listens on. */
  lemma LeadingZeroAliasIsMissed(socketDir: string, https: string, sni: Option<string>)
    requires ValidDirectory(socketDir) && Numbered("127.0.0.1:", https)
    ensures var ls := [ENTRY, PADDED];
            && Acceptable(ls, socketDir, https) && PADDED in Legacy(ls) && PortOf(PADDED) == 7
            && forall l | l in ls ::
                 Destination(Rendered(Entries(ls)[0], Ports(SortByPort(Legacy(ls))), socketDir, https), Connection(7, sni))
                 != Some(socketDir + "/" + SocketFile(l.tag))
  {
    WitnessAccepted(socketDir, https);
    WitnessNumbers();
    WitnessLists();
    WitnessDestination(socketDir, https, sni);
    WitnessTagsDiffer();
    SameSocketSameTag(socketDir, PanelTag(7), PADDED.tag);
    SameSocketSameTag(socketDir, PanelTag(7), ENTRY.tag);
  }
}
