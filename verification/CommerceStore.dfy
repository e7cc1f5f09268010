/** The commerce tables as mutable state: each operation updates them row by row and rolls back when it must fail. */
module CommerceStore {
  import opened Common
  import opened CommerceModel

  class Store {
    var customers: map<nat, bool>
    var plans: map<nat, Plan>
    var orders: map<nat, Order>
    var submissions: map<nat, Submission>
    var services: map<nat, Service>
    var ports: map<nat, PortRow>
    var usage: map<int, nat>
    var next: nat

    constructor ()
      ensures Snapshot() == EMPTY
    {
      customers, plans, orders, submissions := map[], map[], map[], map[];
      services, ports, usage, next := map[], map[], map[], 1;
    }

    function Snapshot(): Db
      reads this
    {
      Db(customers, plans, orders, submissions, services, ports, usage, next)
    }

    /** Undo everything the open transaction did. */
    method Rollback(db: Db)
      modifies this
      ensures Snapshot() == db
    {
      customers, plans, orders, submissions := db.customers, db.plans, db.orders, db.submissions;
      services, ports, usage, next := db.services, db.ports, db.usage, db.next;
    }

    method ExpirePendingOrders(now: int)
      modifies this`orders
      ensures Snapshot() == ExpirePending(old(Snapshot()), now)
    {
      var due := orders.Keys;
      while due != {}
        invariant due <= old(orders).Keys == orders.Keys
        invariant forall o | o in orders ::
            orders[o] == if o in due then old(orders)[o] else ExpireOrder(old(orders)[o], now)
        decreases |due|
      {
        var o :| o in due;
        orders := orders[o := ExpireOrder(orders[o], now)];
        due := due - {o};
      }
      assert orders == ExpireOrders(old(orders), now);
    }

    method PlaceOrder(now: int, deadline: int, customer: nat, plan: nat, kind: Kind, service: Option<nat>) returns (ok: bool)
      modifies this
      ensures ok == CreateOrder(old(Snapshot()), now, deadline, customer, plan, kind, service).Ok?
      ensures Snapshot() == Settle(old(Snapshot()), CreateOrder(old(Snapshot()), now, deadline, customer, plan, kind, service))
    {
      var before := Snapshot();
      ExpirePendingOrders(now);
      ok := false;
      if customer !in customers || !customers[customer] || plan !in plans || !plans[plan].enabled {
        Rollback(before);
        return;
      }
      var target := None;
      if kind.Renewal? {
        if service.None? || service.value !in services || services[service.value].customer != customer
           || services[service.value].plan !in plans || services[service.value].plan != plan
           || !RenewalAllowed(Snapshot(), services[service.value], now)
           || HasOpenOrder(orders, service.value) {
          Rollback(before);
          return;
        }
        target := service;
      }
      orders := orders[next := Order(customer, plan, kind, target, Pending, Some(deadline), plans[plan].days, plans[plan].traffic)];
      next := next + 1;
      ok := true;
    }

    method SubmitProof(now: int, customer: nat, order: nat) returns (ok: bool)
      modifies this
      ensures ok == Submit(old(Snapshot()), now, customer, order).Ok?
      ensures Snapshot() == Settle(old(Snapshot()), Submit(old(Snapshot()), now, customer, order))
    {
      var before := Snapshot();
      ExpirePendingOrders(now);
      if order !in orders || orders[order].customer != customer
         || (!orders[order].status.Pending? && !orders[order].status.Rejected?) {
        Rollback(before);
        return false;
      }
      submissions := submissions[next := Submission(order, Awaiting)];
      next := next + 1;
      orders := orders[order := orders[order].(status := Submitted)];
      assert Snapshot() == PutUnderReview(ExpirePending(before, now), order);
      return true;
    }

    method LatestProof(order: nat) returns (id: Option<nat>)
      ensures id == Latest(submissions, order, next)
    {
      var bound: nat := next;
      while bound > 0 && !(bound - 1 in submissions && submissions[bound - 1].order == order)
        invariant bound <= next
        invariant Latest(submissions, order, bound) == Latest(submissions, order, next)
        decreases bound
      {
        bound := bound - 1;
      }
      return if bound == 0 then None else Some(bound - 1);
    }

    method AllocateListenPort(range: Range) returns (r: Option<int>)
      ensures r == Allocate(ports, range)
    {
      if range.first.None? || range.last.None? {
        return None;
      }
      var used := set p | p in ports :: ports[p].listen;
      var listen := range.first.value;
      while listen <= range.last.value
        invariant FirstFree(ports, listen, range.last.value) == FirstFree(ports, range.first.value, range.last.value)
        decreases range.last.value - listen
      {
        assert listen in used <==> ListenTaken(ports, listen);
        if listen !in used {
          return Some(listen);
        }
        listen := listen + 1;
      }
      return None;
    }

    method ProvideGoods(order: nat, now: int, range: Range) returns (ok: bool)
      requires order in orders
      modifies this
      ensures var r := Provide(old(Snapshot()), order, now, range);
              ok == r.Ok? && Snapshot() == if r.Ok? then r.value else old(Snapshot())
    {
      var row := orders[order];
      if row.kind.NewPurchase? {
        var listen := AllocateListenPort(range);
        if listen.None? {
          return false;
        }
        var portId, serviceId := next, next + 1;
        ports := ports[portId := PortRow(listen.value, Some(row.customer), None, Some(order),
                                         Some(now + SECONDS_PER_DAY * row.days), Some(row.traffic), true)];
        services := services[serviceId := Service(row.customer, row.plan, Some(portId), order, order)];
        ports := ports[portId := ports[portId].(service := Some(serviceId))];
        orders := orders[order := row.(service := Some(serviceId))];
        next := next + 2;
        assert ports == old(ports)[portId := PortRow(listen.value, Some(row.customer), Some(serviceId), Some(order),
                                         Some(now + SECONDS_PER_DAY * row.days), Some(row.traffic), true)];
        return true;
      }
      if row.service.None? || row.service.value !in services {
        return false;
      }
      var service := services[row.service.value];
      if service.customer != row.customer || service.plan !in plans || service.port.None? || service.port.value !in ports {
        return false;
      }
      var port := ports[service.port.value];
      ports := ports[service.port.value := port.(expires := Some(now + SECONDS_PER_DAY * row.days),
                                                 traffic := Some(row.traffic), enabled := true)];
      if port.listen in usage {
        usage := usage[port.listen := 0];
      }
      services := services[row.service.value := service.(latest := order, plan := row.plan)];
      return true;
    }

    method FulfilOrder(now: int, order: nat, range: Range, applied: bool) returns (ok: bool)
      modifies this
      ensures ok == Fulfil(old(Snapshot()), now, order, range, applied).Ok?
      ensures Snapshot() == Settle(old(Snapshot()), Fulfil(old(Snapshot()), now, order, range, applied))
    {
      var before := Snapshot();
      ExpirePendingOrders(now);
      ghost var expired := Snapshot();
      if order !in orders || orders[order].customer !in customers || !orders[order].status.Submitted? {
        Rollback(before);
        return false;
      }
      ok := ProvideGoods(order, now, range);
      if !ok {
        Rollback(before);
        return;
      }
      ghost var provided := Snapshot();
      assert provided == Provide(expired, order, now, range).value;
      var id := LatestProof(order);
      if id.None? {
        Rollback(before);
        return false;
      }
      submissions := submissions[id.value := submissions[id.value].(review := Approved)];
      orders := orders[order := orders[order].(status := Fulfilled)];
      assert Snapshot() == Judge(provided, order, Approved, Fulfilled);
      StopLapsed(now);
      if !applied {
        Rollback(before);
        return false;
      }
    }

    method RejectOrder(now: int, order: nat) returns (ok: bool)
      modifies this
      ensures ok == Reject(old(Snapshot()), now, order).Ok?
      ensures Snapshot() == Settle(old(Snapshot()), Reject(old(Snapshot()), now, order))
    {
      var before := Snapshot();
      ExpirePendingOrders(now);
      if order !in orders || !orders[order].status.Submitted? {
        Rollback(before);
        return false;
      }
      var id := LatestProof(order);
      if id.None? {
        Rollback(before);
        return false;
      }
      submissions := submissions[id.value := submissions[id.value].(review := Refused)];
      orders := orders[order := orders[order].(status := Rejected)];
      return true;
    }

    method CancelOrder(now: int, order: nat) returns (ok: bool)
      modifies this
      ensures ok == Cancel(old(Snapshot()), now, order).Ok?
      ensures Snapshot() == Settle(old(Snapshot()), Cancel(old(Snapshot()), now, order))
    {
      var before := Snapshot();
      ExpirePendingOrders(now);
      if order !in orders || Terminal(orders[order].status) {
        Rollback(before);
        return false;
      }
      orders := orders[order := orders[order].(status := Cancelled)];
      return true;
    }

    /** Delete one port row with its traffic; the foreign key clears any reference to it. */
    method DeletePortRow(port: nat)
      modifies this
      ensures Snapshot() == DropPorts(old(Snapshot()), {port})
    {
      if port in ports {
        usage := usage - {ports[port].listen};
      }
      ports := ports - {port};
      services := map s | s in services :: if services[s].port == Some(port) then services[s].(port := None) else services[s];
      assert ports == DropPorts(old(Snapshot()), {port}).ports;
      assert services == DropPorts(old(Snapshot()), {port}).services;
      assert usage == DropPorts(old(Snapshot()), {port}).usage;
    }

    method CleanUpLapsed(now: int)
      modifies this
      ensures Snapshot() == DropPorts(old(Snapshot()), LapsedFreePorts(old(Snapshot()), now))
    {
      ghost var before := Snapshot();
      var doomed := LapsedFreePorts(Snapshot(), now);
      ghost var gone := doomed;
      DropNone(before);
      assert gone - doomed == {};
      while doomed != {}
        invariant doomed <= gone && Snapshot() == DropPorts(before, gone - doomed)
        decreases |doomed|
      {
        var p :| p in doomed;
        DropOneMore(before, gone - doomed, p);
        OneMoreGone(gone, doomed, p);
        DeletePortRow(p);
        doomed := doomed - {p};
      }
      assert gone - doomed == gone;
    }

    method DisableLapsedPorts(now: int)
      modifies this`ports
      ensures ports == DisableLapsed(old(ports), now)
    {
      var late := set p | p in ports && ports[p].enabled && Lapsed(ports[p].expires, now);
      while late != {}
        invariant late <= old(ports).Keys && HalfDisabled(old(ports), ports, late, now)
        decreases |late|
      {
        var p :| p in late;
        ports := ports[p := ports[p].(enabled := false)];
        late := late - {p};
      }
    }

    method StopLapsed(now: int)
      modifies this
      ensures Snapshot() == StopLapsedPorts(old(Snapshot()), now)
    {
      CleanUpLapsed(now);
      DisableLapsedPorts(now);
    }

    method RemovePort(now: int, port: nat, applied: bool) returns (ok: bool)
      modifies this
      ensures ok == DeletePort(old(Snapshot()), now, port, applied).Ok?
      ensures Snapshot() == Settle(old(Snapshot()), DeletePort(old(Snapshot()), now, port, applied))
    {
      var before := Snapshot();
      if port !in ports || ports[port].customer.Some? || ports[port].service.Some? {
        return false;
      }
      DeletePortRow(port);
      StopLapsed(now);
      if !applied {
        Rollback(before);
        return false;
      }
      return true;
    }

    method EditPort(now: int, port: nat, listen: int, expires: Option<int>, traffic: Option<nat>, applied: bool) returns (ok: bool)
      modifies this
      ensures ok == UpdatePort(old(Snapshot()), now, port, listen, expires, traffic, applied).Ok?
      ensures Snapshot() == Settle(old(Snapshot()), UpdatePort(old(Snapshot()), now, port, listen, expires, traffic, applied))
    {
      var before := Snapshot();
      if !Editable(before, port, listen) {
        return false;
      }
      ports := ports[port := ports[port].(listen := listen, expires := expires, traffic := traffic)];
      assert Snapshot() == EditTerms(before, port, listen, expires, traffic);
      StopLapsed(now);
      if !applied {
        Rollback(before);
        return false;
      }
      return true;
    }
  }

  /** The lapsed ports are disabled, but for those in `late`. */
  ghost predicate HalfDisabled(before: map<nat, PortRow>, ports: map<nat, PortRow>, late: set<nat>, now: int) {
    ports.Keys == before.Keys
    && forall p | p in before ::
         if p in late then ports[p] == before[p] && Lapsed(before[p].expires, now)
         else ports[p] == if Lapsed(before[p].expires, now) then before[p].(enabled := false) else before[p]
  }

  lemma DropNone(db: Db)
    ensures DropPorts(db, {}) == db
  {
    var a := DropPorts(db, {});
    assert a.ports == db.ports && a.services == db.services && a.usage == db.usage;
  }

  lemma OneMoreGone(gone: set<nat>, doomed: set<nat>, p: nat)
    requires doomed <= gone && p in doomed
    ensures gone - (doomed - {p}) == (gone - doomed) + {p}
  {}

  lemma DropOneMoreUsage(db: Db, done: set<nat>, p: nat)
    ensures DropPorts(DropPorts(db, done), {p}).usage == DropPorts(db, done + {p}).usage
  {}

  lemma DropOneMore(db: Db, done: set<nat>, p: nat)
    ensures DropPorts(DropPorts(db, done), {p}) == DropPorts(db, done + {p})
  {
    var a, b := DropPorts(DropPorts(db, done), {p}), DropPorts(db, done + {p});
    assert a.ports == b.ports;
    assert a.services == b.services;
    DropOneMoreUsage(db, done, p);
  }
}
