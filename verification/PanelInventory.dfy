/** The inventory an apply renders from the port rows: live ports, their account ids and their limits. */
module PanelInventory {
  import opened Common
  import opened Routing
  import opened AccountLimits
  import opened RenderPipeline
  import opened RenderDecisions

  datatype PortRow = PortRow(id: int, listenPort: int, enabled: bool, expiresAt: Option<int>, limit: Option<nat>, usage: nat)

  datatype Payload = Payload(ports: seq<int>, accounts: seq<CurrentAccount>, limits: seq<Limit>)

  predicate Live(row: PortRow, now: int) {
    row.enabled && (row.expiresAt.None? || row.expiresAt.value > now)
  }

  predicate OverLimit(row: PortRow) {
    row.limit.Some? && row.usage >= row.limit.value
  }

  predicate ByPort(rows: seq<PortRow>) {
    forall i, j | 0 <= i < j < |rows| :: rows[i].listenPort <= rows[j].listenPort
  }

  function InsertRow(row: PortRow, rows: seq<PortRow>): (r: seq<PortRow>)
    requires ByPort(rows)
    ensures ByPort(r) && forall x :: x in r <==> x == row || x in rows
  {
    if rows == [] || row.listenPort <= rows[0].listenPort then [row] + rows
    else
      var rest := InsertRow(row, rows[1..]);
      assert forall i | 0 <= i < |rest| :: rest[i] in rest && (rest[i] == row || rest[i] in rows[1..]);
      [rows[0]] + rest
  }

  /** The live rows in port order. */
  function LiveRows(rows: seq<PortRow>, now: int): (r: seq<PortRow>)
    ensures ByPort(r)
    ensures forall x :: x in r <==> x in rows && Live(x, now)
  {
    if rows == [] then []
    else
      var rest := LiveRows(rows[1..], now);
      if Live(rows[0], now) then InsertRow(rows[0], rest) else rest
  }

  /** Rows have ids of their own, as the table's primary key. */
  predicate DistinctIds(rows: seq<PortRow>) {
    forall i, j | 0 <= i < j < |rows| :: rows[i].id != rows[j].id
  }

  lemma {:induction false} InsertKeepsDistinct(row: PortRow, rows: seq<PortRow>)
    requires ByPort(rows) && DistinctIds(rows) && forall x | x in rows :: x.id != row.id
    ensures DistinctIds(InsertRow(row, rows))
  {
    if rows != [] && !(row.listenPort <= rows[0].listenPort) {
      InsertKeepsDistinct(row, rows[1..]);
      var rest := InsertRow(row, rows[1..]);
      forall i | 0 <= i < |rest| ensures rest[i].id != rows[0].id {
        assert rest[i] in rest;
        assert forall x | x in rows[1..] :: x.id != rows[0].id;
      }
    }
  }

  lemma {:induction false} LiveKeepsDistinct(rows: seq<PortRow>, now: int)
    requires DistinctIds(rows)
    ensures DistinctIds(LiveRows(rows, now))
  {
    if rows != [] {
      LiveKeepsDistinct(rows[1..], now);
      assert forall x | x in rows[1..] :: x.id != rows[0].id;
      if Live(rows[0], now) { InsertKeepsDistinct(rows[0], LiveRows(rows[1..], now)); }
    }
  }

  function AccountOf(row: PortRow): Account {
    Account(row.listenPort, OverLimit(row))
  }

  function AccountsFor(live: seq<PortRow>): (accounts: seq<Account>)
    ensures |accounts| == |live| && forall i | 0 <= i < |live| :: accounts[i] == AccountOf(live[i])
  {
    seq(|live|, i requires 0 <= i < |live| => AccountOf(live[i]))
  }

  function RenderPayload(rows: seq<PortRow>, now: int): Result<Payload> {
    var live := LiveRows(rows, now);
    var limits := LimitsManifest(AccountsFor(live));
    if limits.Err? then Err(limits.reason)
    else Ok(Payload(seq(|live|, i requires 0 <= i < |live| => live[i].listenPort),
                    seq(|live|, i requires 0 <= i < |live| => CurrentAccount(live[i].id, live[i].listenPort)),
                    limits.value))
  }

  lemma LiveRowListed(rows: seq<PortRow>, now: int, row: PortRow) returns (i: nat)
    requires row in rows && Live(row, now)
    ensures i < |LiveRows(rows, now)| && LiveRows(rows, now)[i] == row
  {
    i :| 0 <= i < |LiveRows(rows, now)| && LiveRows(rows, now)[i] == row;
  }

  lemma RenderedRowIsValid(rows: seq<PortRow>, now: int, x: PortRow)
    requires RenderPayload(rows, now).Ok? && x in rows && Live(x, now)
    ensures ValidPort(x.listenPort)
  {
    var i := LiveRowListed(rows, now, x);
    assert AccountsFor(LiveRows(rows, now))[i] in AccountsFor(LiveRows(rows, now));
  }

  lemma RenderedRowsDiffer(rows: seq<PortRow>, now: int, x: PortRow, y: PortRow)
    requires RenderPayload(rows, now).Ok? && x in rows && Live(x, now) && y in rows && Live(y, now)
    requires x.listenPort == y.listenPort
    ensures x == y
  {
    var i := LiveRowListed(rows, now, x);
    var j := LiveRowListed(rows, now, y);
    assert AccountsFor(LiveRows(rows, now))[i].port == AccountsFor(LiveRows(rows, now))[j].port;
  }

  ghost predicate ValidPortsOnly(rows: seq<PortRow>, now: int) {
    forall x | x in rows && Live(x, now) :: ValidPort(x.listenPort)
  }

  ghost predicate NoPortTwice(rows: seq<PortRow>, now: int) {
    forall x, y | x in rows && y in rows && Live(x, now) && Live(y, now) && x.listenPort == y.listenPort :: x == y
  }

  /** Rendering fails exactly when two live rows claim one port, or one claims a port that is none. */
  lemma PayloadRendersIff(rows: seq<PortRow>, now: int)
    requires DistinctIds(rows)
    ensures RenderPayload(rows, now).Ok? <==> ValidPortsOnly(rows, now) && NoPortTwice(rows, now)
  {
    if RenderPayload(rows, now).Ok? {
      forall x | x in rows && Live(x, now) ensures ValidPort(x.listenPort) {
        RenderedRowIsValid(rows, now, x);
      }
      forall x, y | x in rows && y in rows && Live(x, now) && Live(y, now) && x.listenPort == y.listenPort ensures x == y {
        RenderedRowsDiffer(rows, now, x, y);
      }
    } else {
      LiveKeepsDistinct(rows, now);
      PlausibleRowsRender(rows, now);
    }
  }

  lemma PlausibleRowsRender(rows: seq<PortRow>, now: int)
    requires DistinctIds(LiveRows(rows, now)) && RenderPayload(rows, now).Err?
    ensures !ValidPortsOnly(rows, now) || !NoPortTwice(rows, now)
  {
    var live := LiveRows(rows, now);
    var accounts := AccountsFor(live);
    if !DistinctPorts(accounts) {
      var i, j :| 0 <= i < j < |accounts| && accounts[i].port == accounts[j].port;
      assert live[i] in live && live[j] in live && live[i].listenPort == live[j].listenPort && live[i] != live[j];
    } else {
      var a :| a in accounts && !ValidPort(a.port);
      var i :| 0 <= i < |accounts| && accounts[i] == a;
      assert live[i] in live && !ValidPort(live[i].listenPort);
    }
  }

  /** The ports listed are exactly those of live rows. */
  lemma PayloadListsLivePorts(rows: seq<PortRow>, now: int, port: int)
    requires RenderPayload(rows, now).Ok?
    ensures port in RenderPayload(rows, now).value.ports <==>
            exists row | row in rows :: Live(row, now) && row.listenPort == port
  {
    var live, ports := LiveRows(rows, now), RenderPayload(rows, now).value.ports;
    if port in ports {
      var i :| 0 <= i < |ports| && ports[i] == port;
      assert live[i] in live;
    }
    if row :| row in rows && Live(row, now) && row.listenPort == port {
      var i := LiveRowListed(rows, now, row);
      assert ports[i] == port;
    }
  }

  /** Each live account is limited exactly when it has used up its allowance, and nothing else is. */
  lemma PayloadLimitsLiveAccounts(rows: seq<PortRow>, now: int, l: Limit)
    requires RenderPayload(rows, now).Ok?
    ensures l in RenderPayload(rows, now).value.limits <==>
            exists row | row in rows :: Live(row, now) && ValidPort(row.listenPort) && l == LimitOf(AccountOf(row))
  {
    var live := LiveRows(rows, now);
    var accounts, limits := AccountsFor(live), RenderPayload(rows, now).value.limits;
    if l in limits {
      var a :| a in accounts && ValidPort(a.port) && l == LimitOf(a);
      var i :| 0 <= i < |accounts| && accounts[i] == a;
      assert live[i] in live;
    }
    if row :| row in rows && Live(row, now) && ValidPort(row.listenPort) && l == LimitOf(AccountOf(row)) {
      var i := LiveRowListed(rows, now, row);
      assert accounts[i] in accounts;
    }
  }

  lemma PayloadPortsAreValidAndDistinct(rows: seq<PortRow>, now: int)
    requires RenderPayload(rows, now).Ok?
    ensures AllPorts(RenderPayload(rows, now).value.ports)
    ensures forall i, j | 0 <= i < j < |RenderPayload(rows, now).value.ports| ::
              RenderPayload(rows, now).value.ports[i] != RenderPayload(rows, now).value.ports[j]
  {
    var accounts, ports := AccountsFor(LiveRows(rows, now)), RenderPayload(rows, now).value.ports;
    assert DistinctPorts(accounts) && forall a | a in accounts :: ValidPort(a.port);
    forall i | 0 <= i < |ports| ensures ports[i] == accounts[i].port && ValidPort(ports[i]) {
      assert accounts[i] in accounts;
    }
  }

  /** A configuration marked for the inventory's ports passes the limiter daemon's check against the inventory's limits,
      unless an outbound of the input squats on an account's tag prefix with another mark. */
  lemma InventoryAgreesWithMarkedRoutes(rows: seq<PortRow>, now: int, c: Config)
    requires RenderPayload(rows, now).Ok? && HasTransportDefault(c)
    ensures var payload := RenderPayload(rows, now).value;
            && AllPorts(payload.ports)
            && (DaemonAccepts(Marked(c, AccountPorts(payload.ports)), payload.limits) <==>
                  forall a, o | a in AccountsFor(LiveRows(rows, now)) && o in c.outbounds && HasAccountPrefix(o, a.port) ::
                    o.mark == Some(AccountMark(a.port)))
  {
    var live, payload := LiveRows(rows, now), RenderPayload(rows, now).value;
    PayloadPortsAreValidAndDistinct(rows, now);
    forall a | a in AccountsFor(live) ensures a.port in AccountPorts(payload.ports) {
      var i :| 0 <= i < |live| && AccountsFor(live)[i] == a;
      assert payload.ports[i] == a.port && payload.ports[i] in payload.ports;
    }
    DaemonAcceptsProducedConfig(c, AccountPorts(payload.ports), AccountsFor(live));
  }

  /** The inventory's accounts are what rebinding a port policy needs, so a reused port follows its live row alone. */
  lemma RebindingFollowsTheLiveRow(rows: seq<PortRow>, now: int, policy: seq<PolicyRow>, row: PortRow)
    requires RenderPayload(rows, now).Ok? && DistinctIds(rows) && row in rows && Live(row, now)
    ensures HolderSelectsAll(policy, RenderPayload(rows, now).value.accounts, row.listenPort) <==>
            exists p :: p in policy && SelectsAll(p) && p.id == row.id
  {
    var live, payload := LiveRows(rows, now), RenderPayload(rows, now).value;
    PayloadPortsAreValidAndDistinct(rows, now);
    LiveKeepsDistinct(rows, now);
    forall i, j | 0 <= i < j < |payload.accounts|
      ensures payload.accounts[i].id != payload.accounts[j].id
      ensures payload.accounts[i].listenPort != payload.accounts[j].listenPort
    {
      assert live[i] in live && live[j] in live && payload.ports[i] != payload.ports[j];
      assert live[i].id != live[j].id;
    }
    var i := LiveRowListed(rows, now, row);
    assert payload.accounts[i] in payload.accounts;
    ReusedPortFollowsItsHolder(policy, payload.accounts, payload.accounts[i]);
  }
}
