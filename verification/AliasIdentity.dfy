/** One alias, end to end: forwarder, gateway, private socket, account mark, return queue. */
module AliasIdentity {
  import opened Common
  import opened Text
  import opened Bits
  import opened Routing
  import opened ProxyHeader
  import G = EntryGateway
  import A = AccountLimits
  import M = ConnectionMarks
  import P = RenderPipeline
  import D = RenderDecisions

  // ---------------------------------------------------------------------------------------------
  // The forwarder's ports
  // ---------------------------------------------------------------------------------------------

  /** The inbounds whose tag merely starts like the shared entry's. */
  function Unified(ls: seq<G.Listener>): seq<G.Listener> {
    if ls == [] then [] else (if StartsWith(ls[0].tag, "unified-") then [ls[0]] else []) + Unified(ls[1..])
  }

  /** The numbers of all `panel-` tags, or nothing when one of them has no number. */
  function PanelNumbers(ls: seq<G.Listener>): Option<seq<nat>> {
    if ls == [] then Some([])
    else
      var rest := PanelNumbers(ls[1..]);
      if !StartsWith(ls[0].tag, "panel-") || rest.None? then rest
      else if G.Numbered("panel-", ls[0].tag) then Some([G.NumberOf("panel-", ls[0].tag)] + rest.value)
      else None
  }

  /** `load_ports`: the entry port and the alias ports, in the order of the inbounds. */
  function LoadPorts(ls: seq<G.Listener>): Result<(nat, seq<nat>)> {
    var entries := Unified(ls);
    if |entries| != 1 then Err("expected exactly one unified inbound")
    else if !G.Numbered("unified-", entries[0].tag) then Err("bad unified tag")
    else
      var entryPort, ports := G.NumberOf("unified-", entries[0].tag), PanelNumbers(ls);
      if ports.None? then Err("bad panel tag")
      else if entryPort in ports.value then Err("unified port conflicts with a legacy port")
      else Ok((entryPort, ports.value))
  }

  lemma {:induction false} PanelNumbersAreLegacyPorts(ls: seq<G.Listener>)
    requires PanelNumbers(ls).Some?
    ensures PanelNumbers(ls).value == G.Ports(G.Legacy(ls))
  {
    if ls != [] { PanelNumbersAreLegacyPorts(ls[1..]); }
  }

  lemma {:induction false} EntriesAreUnified(ls: seq<G.Listener>)
    ensures |G.Entries(ls)| <= |Unified(ls)|
    ensures |G.Entries(ls)| == |Unified(ls)| ==> G.Entries(ls) == Unified(ls)
  {
    if ls != [] { EntriesAreUnified(ls[1..]); }
  }

  /** Where forwarder and gateway both accept a configuration, they agree on the entry port and on every alias. */
  lemma ForwarderAgreesWithGateway(ls: seq<G.Listener>, socketDir: string, https: string)
    requires LoadPorts(ls).Ok? && G.Acceptable(ls, socketDir, https)
    ensures LoadPorts(ls).value.0 == G.NumberOf("unified-", G.Entries(ls)[0].tag)
    ensures forall p :: p in LoadPorts(ls).value.1 <==> p in G.Ports(G.SortByPort(G.Legacy(ls)))
  {
    EntriesAreUnified(ls);
    PanelNumbersAreLegacyPorts(ls);
    forall p ensures p in LoadPorts(ls).value.1 <==> p in G.Ports(G.SortByPort(G.Legacy(ls))) {
      G.AliasIsRendered(ls, p);
    }
  }

  // ---------------------------------------------------------------------------------------------
  // End to end
  // ---------------------------------------------------------------------------------------------

  /** The tunnel: the header the forwarder writes is read back to the alias port, and the gateway hands the connection to
      the socket the alias's inbound listens on, and to no other account's. */
  lemma TunnelReachesItsInbound(ls: seq<G.Listener>, l: G.Listener, socketDir: string, https: string, peer: Endpoint,
                                local: Endpoint, f: Family, payload: seq<Byte>, sni: Option<string>)
    requires G.Acceptable(ls, socketDir, https) && l in G.Legacy(ls) && G.PortOf(l) == local.port
    requires Header(peer, local, f).Ok? && G.Canonical(l)
    ensures var received := Receive(Header(peer, local, f).value + payload);
            var gateway := G.Rendered(G.Entries(ls)[0], G.Ports(G.SortByPort(G.Legacy(ls))), socketDir, https);
            && received.Some? && received.value.payload == payload && received.value.peer == peer
            && l.listen == "/var/log/xray/" + G.SocketFile(l.tag) && l.acceptsProxy
            && forall other | other in G.Legacy(ls) ::
                 G.Destination(gateway, G.Connection(received.value.local.port, sni))
                 == Some(socketDir + "/" + G.SocketFile(other.tag))
                 <==> other.tag == l.tag
  {
    HeaderRoundTrip(peer, local, f, payload);
    G.AliasReachesItsListener(ls, l, socketDir, https, sni);
    forall other | other in G.Legacy(ls)
      ensures socketDir + "/" + G.SocketFile(l.tag) == socketDir + "/" + G.SocketFile(other.tag) <==> other.tag == l.tag
    {
      G.SameSocketSameTag(socketDir, l.tag, other.tag);
    }
    assert l in multiset(G.Legacy(ls)) && l in G.SortByPort(G.Legacy(ls));
  }

  /** Behind the inbound: what would leave by a transport leaves by the account's own copy of it, every such copy carries
      the account's mark, and the marks of the replies select that account's queue and no other. */
  lemma InboundReachesItsQueue(c: Config, ports: seq<A.Port>, port: A.Port, q: Request, ct: Word)
    requires A.HasTransportDefault(c) && port in ports && q.inbound == PanelTag(port) && q.user.None?
    requires A.Known(A.Routable(c), Route(c, q))
    ensures var chosen := Route(A.Marked(c, ports), q);
            && chosen == Some(A.CloneTag(port, Route(c, q).value))
            && (exists o | o in A.Marked(c, ports).outbounds :: o.tag == chosen && o.mark == Some(A.AccountMark(port)))
            && (forall o | o in A.Marked(c, ports).outbounds && o !in c.outbounds && o.tag == chosen ::
                  && o.mark.Some?
                  && forall other: A.Port :: M.FilterMatches(M.SaveMark(o.mark.value, ct), other) <==> other == port)
  {
    var tag := Route(c, q).value;
    A.AttributionIsCompleteAndExclusive(c, ports, port, q);
    A.ClonesCarryTheMark(c, ports, port, tag);
    assert A.CloneOf(A.Routable(c), port, tag).tag == Some(A.CloneTag(port, tag));
    OwnMarkMatches(port);
    forall other: A.Port ensures M.FilterMatches(M.SaveMark(A.AccountMark(port), ct), other) <==> other == port {
      M.ReturnFilterSelectsTheAccount(A.AccountMark(port), ct, port, other);
    }
  }

  lemma OwnMarkMatches(port: A.Port)
    ensures M.FilterMatches(A.AccountMark(port), port)
  {}

  /** A client of an alias, end to end: header, gateway, private socket, marked outbound, return queue. */
  lemma AliasReachesItsOwnAccount(ls: seq<G.Listener>, l: G.Listener, socketDir: string, https: string, peer: Endpoint,
                                  local: Endpoint, f: Family, payload: seq<Byte>, sni: Option<string>,
                                  c: Config, ports: seq<A.Port>, network: Network, port: int, domain: string, ct: Word)
    requires G.Acceptable(ls, socketDir, https) && l in G.Legacy(ls) && G.PortOf(l) == local.port
    requires Header(peer, local, f).Ok? && G.Canonical(l)
    requires A.HasTransportDefault(c) && A.ValidPort(local.port) && local.port in ports
    requires A.Known(A.Routable(c), Route(c, Request(l.tag, None, network, port, domain)))
    ensures var received := Receive(Header(peer, local, f).value + payload);
            var gateway := G.Rendered(G.Entries(ls)[0], G.Ports(G.SortByPort(G.Legacy(ls))), socketDir, https);
            var chosen := Route(A.Marked(c, ports), Request(l.tag, None, network, port, domain));
            && received.Some? && received.value.payload == payload && received.value.peer == peer
            && G.Destination(gateway, G.Connection(received.value.local.port, sni)) == Some(socketDir + "/" + G.SocketFile(l.tag))
            && l.listen == "/var/log/xray/" + G.SocketFile(l.tag) && l.acceptsProxy
            && (exists o | o in A.Marked(c, ports).outbounds :: o.tag == chosen && o.mark == Some(A.AccountMark(local.port)))
            && (forall o | o in A.Marked(c, ports).outbounds && o !in c.outbounds && o.tag == chosen ::
                  && o.mark.Some?
                  && forall other: A.Port ::
                       M.FilterMatches(M.SaveMark(o.mark.value, ct), other) <==> other == received.value.local.port)
  {
    HeaderRoundTrip(peer, local, f, payload);
    TunnelReachesItsInbound(ls, l, socketDir, https, peer, local, f, payload, sni);
    G.CanonicalTag(l);
    InboundReachesItsQueue(c, ports, local.port, Request(l.tag, None, network, port, domain), ct);
  }

  // ---------------------------------------------------------------------------------------------
  // Configurations the panel builds
  // ---------------------------------------------------------------------------------------------

  /** The listeners are those of a built server configuration. */
  predicate Deployed(ls: seq<G.Listener>, s: P.Settings, panelPorts: seq<nat>) {
    forall l | l in ls :: exists i | i in P.BuiltInbounds(s, panelPorts) :: i.tag == l.tag
  }

  lemma BuiltTag(s: P.Settings, panelPorts: seq<nat>, i: Inbound)
    requires i in P.BuiltInbounds(s, panelPorts)
    ensures (exists p | p in D.ServedPorts(s, panelPorts) :: i.tag == PanelTag(p))
            || (s.entryPort.Some? && i.tag == UnifiedTag(s.entryPort.value))
  {
    var served := D.ServedPorts(s, panelPorts);
    var k :| 0 <= k < |P.BuiltInbounds(s, panelPorts)| && P.BuiltInbounds(s, panelPorts)[k] == i;
    if k < |served| { assert served[k] in served && i.tag == PanelTag(served[k]); }
  }

  /** Built tags are written without leading zeros, and a gateway's configuration was built with an entry port. */
  lemma DeployedAlias(ls: seq<G.Listener>, l: G.Listener, socketDir: string, https: string, s: P.Settings, panelPorts: seq<nat>)
    requires G.Acceptable(ls, socketDir, https) && l in G.Legacy(ls) && Deployed(ls, s, panelPorts)
    ensures s.entryPort.Some? && G.Canonical(l) && G.PortOf(l) in panelPorts && l.tag == PanelTag(G.PortOf(l))
  {
    var entry := G.Entries(ls)[0];
    var i :| i in P.BuiltInbounds(s, panelPorts) && i.tag == entry.tag;
    BuiltTag(s, panelPorts, i);
    if p :| p in D.ServedPorts(s, panelPorts) && entry.tag == PanelTag(p) { TagPrefixes(p); }
    var j :| j in P.BuiltInbounds(s, panelPorts) && j.tag == l.tag;
    BuiltTag(s, panelPorts, j);
    TagPrefixes(s.entryPort.value);
    var p :| p in D.ServedPorts(s, panelPorts) && l.tag == PanelTag(p);
    assert l.tag[6..] == Decimal(p);
    DecimalRoundTrip(p);
    G.CanonicalTag(l);
  }

  /** What is routed through the built configuration: a request on the alias's inbound. */
  function AliasRequest(l: G.Listener, network: Network, port: int, domain: string): Request {
    Request(l.tag, None, network, port, domain)
  }

  function BuiltConfig(s: P.Settings, domains: set<string>, upstream: Option<seq<Outbound>>, scope: string,
                       policy: seq<P.PolicyRow>, accounts: seq<P.CurrentAccount>, panelPorts: seq<nat>): Config {
    P.RoutedConfig(s, P.BindPortScopeAccounts(D.Stored(domains, upstream, scope, Some(policy)), accounts), panelPorts)
  }

  lemma BuiltDecisionIsTransport(s: P.Settings, domains: set<string>, upstream: Option<seq<Outbound>>, scope: string,
                                 policy: seq<P.PolicyRow>, accounts: seq<P.CurrentAccount>, panelPorts: seq<nat>,
                                 port: nat, q: Request)
    requires D.TenantRequest(s, panelPorts, port, q) && !D.QuicBlocked(s, q)
    requires upstream.Some? ==> D.ProvidesAiProxy(upstream.value)
    requires A.HasTransportDefault(BuiltConfig(s, domains, upstream, scope, policy, accounts, panelPorts))
    ensures var c := BuiltConfig(s, domains, upstream, scope, policy, accounts, panelPorts);
            A.Known(A.Routable(c), Route(c, q))
  {
    var f := P.BindPortScopeAccounts(D.Stored(domains, upstream, scope, Some(policy)), accounts);
    D.PortPolicyDecision(s, domains, upstream, scope, policy, accounts, panelPorts, port, q);
    D.AllPortsContents(policy);
    D.VerdictsRoutable(s, f, panelPorts);
  }

  /** The same for every configuration the panel itself builds from a port policy, with nothing assumed of tags or decisions:
      a request on an alias is blocked as QUIC, or leaves by its own account's marked copy of the outbound the policy names. */
  lemma BuiltAliasReachesItsOwnAccount(
      ls: seq<G.Listener>, l: G.Listener, socketDir: string, https: string, peer: Endpoint, local: Endpoint, f: Family,
      payload: seq<Byte>, sni: Option<string>, s: P.Settings, domains: set<string>, upstream: Option<seq<Outbound>>,
      scope: string, policy: seq<P.PolicyRow>, accounts: seq<P.CurrentAccount>, panelPorts: seq<nat>,
      network: Network, port: int, domain: string, ct: Word)
    requires G.Acceptable(ls, socketDir, https) && l in G.Legacy(ls) && G.PortOf(l) == local.port
    requires Header(peer, local, f).Ok? && Deployed(ls, s, panelPorts)
    requires upstream.Some? ==> D.ProvidesAiProxy(upstream.value)
    requires A.Accepted(BuiltConfig(s, domains, upstream, scope, policy, accounts, panelPorts), panelPorts)
    ensures local.port in panelPorts && A.ValidPort(local.port)
    ensures var received := Receive(Header(peer, local, f).value + payload);
            var gateway := G.Rendered(G.Entries(ls)[0], G.Ports(G.SortByPort(G.Legacy(ls))), socketDir, https);
            && received.Some? && received.value.payload == payload && received.value.peer == peer
            && G.Destination(gateway, G.Connection(received.value.local.port, sni)) == Some(socketDir + "/" + G.SocketFile(l.tag))
    ensures var c, q := BuiltConfig(s, domains, upstream, scope, policy, accounts, panelPorts), AliasRequest(l, network, port, domain);
            var marked := A.Marked(c, A.AccountPorts(panelPorts));
            var ai := upstream.Some? && (D.HolderSelectsAll(policy, accounts, local.port) || InDomains(domain, domains));
            if D.QuicBlocked(s, q) then Route(marked, q) == Some("block")
            else
              && Route(marked, q) == Some(A.CloneTag(local.port, if ai then P.AI_PROXY else "direct"))
              && (exists o | o in marked.outbounds :: o.tag == Route(marked, q) && o.mark == Some(A.AccountMark(local.port)))
              && (forall o | o in marked.outbounds && o !in c.outbounds && o.tag == Route(marked, q) ::
                    o.mark.Some? && forall other: A.Port ::
                      M.FilterMatches(M.SaveMark(o.mark.value, ct), other) <==> other == local.port)
  {
    var c, q := BuiltConfig(s, domains, upstream, scope, policy, accounts, panelPorts), AliasRequest(l, network, port, domain);
    DeployedAlias(ls, l, socketDir, https, s, panelPorts);
    HeaderRoundTrip(peer, local, f, payload);
    TunnelReachesItsInbound(ls, l, socketDir, https, peer, local, f, payload, sni);
    D.LimitedPolicyDecision(s, domains, upstream, scope, policy, accounts, panelPorts, local.port, q);
    if !D.QuicBlocked(s, q) {
      BuiltDecisionIsTransport(s, domains, upstream, scope, policy, accounts, panelPorts, local.port, q);
      InboundReachesItsQueue(c, A.AccountPorts(panelPorts), local.port, q, ct);
    }
  }

  /** A connection made to no alias never reaches an account's private socket. */
  lemma DirectConnectionsReachNoAlias(entry: G.Listener, ports: seq<nat>, socketDir: string, https: string,
                                      conn: G.Connection, p: nat)
    requires G.IsEntry(entry) && conn.dstPort !in ports
    requires G.ValidDirectory(socketDir) && G.Numbered("127.0.0.1:", https)
    ensures G.Destination(G.Rendered(entry, ports, socketDir, https), conn)
         != Some(socketDir + "/" + G.SocketFile(PanelTag(p)))
  {
    G.GatewayDestinations(entry, ports, socketDir, https, conn);
    assert https[0] == "127.0.0.1:"[0] && socketDir[0] == '/';
    G.SameSocketSameTag(socketDir, PanelTag(p), entry.tag);
    TagPrefixes(p);
  }
}
