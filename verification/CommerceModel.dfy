/** Orders, payment submissions, services and ports as tables, and each operation as one transaction on them. */
module CommerceModel {
  import opened Common

  datatype Status = Pending | Submitted | Rejected | Fulfilled | Cancelled | Expired
  datatype Kind = NewPurchase | Renewal
  datatype Review = Awaiting | Approved | Refused

  datatype Plan = Plan(enabled: bool, days: nat, traffic: nat)

  datatype Order = Order(customer: nat, plan: nat, kind: Kind, service: Option<nat>, status: Status,
                         deadline: Option<int>, days: nat, traffic: nat)

  datatype Submission = Submission(order: nat, review: Review)

  datatype Service = Service(customer: nat, plan: nat, port: Option<nat>, source: nat, latest: nat)

  datatype PortRow = PortRow(listen: int, customer: Option<nat>, service: Option<nat>, source: Option<nat>,
                             expires: Option<int>, traffic: Option<nat>, enabled: bool)

  /** `customers` maps an id to whether the account is active; `next` feeds every AUTOINCREMENT key. */
  datatype Db = Db(customers: map<nat, bool>, plans: map<nat, Plan>, orders: map<nat, Order>,
                   submissions: map<nat, Submission>, services: map<nat, Service>, ports: map<nat, PortRow>,
                   usage: map<int, nat>, next: nat)

  /** The saleable port range; an unset bound disables automatic allocation. */
  datatype Range = Range(first: Option<int>, last: Option<int>)

  const SECONDS_PER_DAY := 86400

  const EMPTY := Db(map[], map[], map[], map[], map[], map[], map[], 1)

  // ---------------------------------------------------------------------------------------------
  // Queries
  // ---------------------------------------------------------------------------------------------

  predicate Open(s: Status) {
    s.Pending? || s.Submitted? || s.Rejected?
  }

  predicate Terminal(s: Status) {
    s.Fulfilled? || s.Cancelled? || s.Expired?
  }

  predicate Lapsed(at: Option<int>, now: int) {
    at.Some? && at.value <= now
  }

  function UsageOf(usage: map<int, nat>, listen: int): nat {
    if listen in usage then usage[listen] else 0
  }

  /** A service may be renewed when its port has lapsed, or is enabled and has used up its traffic. */
  predicate RenewalAllowed(db: Db, s: Service, now: int) {
    s.port.Some? && s.port.value in db.ports &&
    var p := db.ports[s.port.value];
    Lapsed(p.expires, now) ||
    (p.enabled && p.traffic.Some? && UsageOf(db.usage, p.listen) >= p.traffic.value)
  }

  /** The newest submission of an order among ids below `bound`. */
  function Latest(submissions: map<nat, Submission>, order: nat, bound: nat): (id: Option<nat>)
    ensures id.Some? ==> id.value < bound && id.value in submissions && submissions[id.value].order == order
  {
    if bound == 0 then None
    else if bound - 1 in submissions && submissions[bound - 1].order == order then Some(bound - 1)
    else Latest(submissions, order, bound - 1)
  }

  predicate ListenTaken(ports: map<nat, PortRow>, listen: int) {
    exists p | p in ports :: ports[p].listen == listen
  }

  /** The lowest free listen port from `at` to `last`. */
  function FirstFree(ports: map<nat, PortRow>, at: int, last: int): (r: Option<int>)
    ensures r.Some? ==> at <= r.value <= last && !ListenTaken(ports, r.value)
    ensures r.Some? ==> forall l | at <= l < r.value :: ListenTaken(ports, l)
    ensures r.None? ==> forall l | at <= l <= last :: ListenTaken(ports, l)
    decreases last - at
  {
    if at > last then None
    else if ListenTaken(ports, at) then FirstFree(ports, at + 1, last)
    else Some(at)
  }

  function Allocate(ports: map<nat, PortRow>, range: Range): Option<int> {
    if range.first.None? || range.last.None? then None else FirstFree(ports, range.first.value, range.last.value)
  }

  // ---------------------------------------------------------------------------------------------
  // Effects inside a transaction
  // ---------------------------------------------------------------------------------------------

  function ExpireOrder(o: Order, now: int): Order {
    if (o.status.Pending? || o.status.Rejected?) && Lapsed(o.deadline, now) then o.(status := Expired) else o
  }

  function ExpireOrders(orders: map<nat, Order>, now: int): map<nat, Order> {
    map o | o in orders :: ExpireOrder(orders[o], now)
  }

  function ExpirePending(db: Db, now: int): Db {
    db.(orders := ExpireOrders(db.orders, now))
  }

  function SetStatus(orders: map<nat, Order>, o: nat, status: Status): map<nat, Order>
    requires o in orders
  {
    orders[o := orders[o].(status := status)]
  }

  function AddOrder(db: Db, order: Order): Db {
    db.(orders := db.orders[db.next := order], next := db.next + 1)
  }

  function PutUnderReview(db: Db, order: nat): Db
    requires order in db.orders
  {
    db.(submissions := db.submissions[db.next := Submission(order, Awaiting)],
        orders := SetStatus(db.orders, order, Submitted),
        next := db.next + 1)
  }

  predicate HasProof(db: Db, order: nat) {
    Latest(db.submissions, order, db.next).Some?
  }

  /** Record the verdict on the order's newest proof and move the order accordingly. */
  function Judge(db: Db, order: nat, review: Review, status: Status): Db
    requires order in db.orders && HasProof(db, order)
  {
    var id := Latest(db.submissions, order, db.next).value;
    db.(submissions := db.submissions[id := db.submissions[id].(review := review)],
        orders := SetStatus(db.orders, order, status))
  }

  /** Deleting a port row takes its traffic along and clears the reference of any service to it. */
  function DropPorts(db: Db, gone: set<nat>): Db {
    db.(ports := map p | p in db.ports && p !in gone :: db.ports[p],
        services := map s | s in db.services ::
          if db.services[s].port.Some? && db.services[s].port.value in gone then db.services[s].(port := None)
          else db.services[s],
        usage := map l | l in db.usage && !(exists p | p in gone && p in db.ports :: db.ports[p].listen == l) :: db.usage[l])
  }

  predicate NoOwner(id: Option<nat>) {
    id.None? || id.value == 0
  }

  function LapsedFreePorts(db: Db, now: int): set<nat> {
    set p | p in db.ports && Lapsed(db.ports[p].expires, now) &&
      NoOwner(db.ports[p].customer) && NoOwner(db.ports[p].service)
  }

  function DisableLapsed(ports: map<nat, PortRow>, now: int): map<nat, PortRow> {
    map p | p in ports :: if Lapsed(ports[p].expires, now) then ports[p].(enabled := false) else ports[p]
  }

  /** Run before every apply: drop lapsed ports nobody owns, then stop the lapsed ones that remain. */
  function StopLapsedPorts(db: Db, now: int): Db {
    var kept := DropPorts(db, LapsedFreePorts(db, now));
    kept.(ports := DisableLapsed(kept.ports, now))
  }

  // ---------------------------------------------------------------------------------------------
  // Operations; `Err` means the transaction is rolled back
  // ---------------------------------------------------------------------------------------------

  predicate HasOpenOrder(orders: map<nat, Order>, service: nat) {
    exists o | o in orders :: orders[o].service == Some(service) && Open(orders[o].status)
  }

  function CreateOrder(before: Db, now: int, deadline: int, customer: nat, plan: nat, kind: Kind, service: Option<nat>)
    : Result<Db>
  {
    var db := ExpirePending(before, now);
    if customer !in db.customers || !db.customers[customer] then Err("customer unavailable")
    else if plan !in db.plans then Err("no such plan")
    else if !db.plans[plan].enabled then Err("plan withdrawn")
    else if kind.Renewal? && service.None? then Err("renewal without service")
    else if kind.Renewal? && (service.value !in db.services || db.services[service.value].customer != customer ||
                              db.services[service.value].plan !in db.plans) then
      Err("no such service")
    else if kind.Renewal? && db.services[service.value].plan != plan then Err("plan change")
    else if kind.Renewal? && !RenewalAllowed(db, db.services[service.value], now) then Err("too early")
    else if kind.Renewal? && HasOpenOrder(db.orders, service.value) then Err("already open")
    else
      var order := Order(customer, plan, kind, if kind.Renewal? then service else None, Pending,
                         Some(deadline), db.plans[plan].days, db.plans[plan].traffic);
      Ok(AddOrder(db, order))
  }

  function Submit(before: Db, now: int, customer: nat, order: nat): Result<Db> {
    var db := ExpirePending(before, now);
    if order !in db.orders || db.orders[order].customer != customer then Err("no such order")
    else if !db.orders[order].status.Pending? && !db.orders[order].status.Rejected? then Err("not payable")
    else Ok(PutUnderReview(db, order))
  }

  function OpenService(db: Db, id: nat, now: int, range: Range): (r: Result<Db>)
    requires id in db.orders
    ensures r.Ok? ==> id in r.value.orders
  {
    var order := db.orders[id];
    var listen := Allocate(db.ports, range);
    if listen.None? then Err("no port left")
    else
      var portId, serviceId := db.next, db.next + 1;
      var port := PortRow(listen.value, Some(order.customer), Some(serviceId), Some(id),
                          Some(now + SECONDS_PER_DAY * order.days), Some(order.traffic), true);
      Ok(db.(ports := db.ports[portId := port],
             services := db.services[serviceId := Service(order.customer, order.plan, Some(portId), id, id)],
             orders := db.orders[id := order.(service := Some(serviceId))],
             next := db.next + 2))
  }

  function RenewService(db: Db, id: nat, now: int): (r: Result<Db>)
    requires id in db.orders
    ensures r.Ok? ==> r.value.orders == db.orders
  {
    var order := db.orders[id];
    if order.service.None? || order.service.value !in db.services then Err("renewal target missing")
    else
      var service := db.services[order.service.value];
      if service.customer != order.customer || service.plan !in db.plans then Err("renewal target missing")
      else if service.port.None? || service.port.value !in db.ports then Err("renewal target missing")
      else
        var port := db.ports[service.port.value];
        Ok(db.(ports := db.ports[service.port.value := port.(
                          expires := Some(now + SECONDS_PER_DAY * order.days), traffic := Some(order.traffic), enabled := true)],
               usage := if port.listen in db.usage then db.usage[port.listen := 0] else db.usage,
               services := db.services[order.service.value := service.(latest := id, plan := order.plan)]))
  }

  function Provide(db: Db, order: nat, now: int, range: Range): (r: Result<Db>)
    requires order in db.orders
    ensures r.Ok? ==> order in r.value.orders
  {
    if db.orders[order].kind.NewPurchase? then OpenService(db, order, now, range) else RenewService(db, order, now)
  }

  function Fulfil(before: Db, now: int, order: nat, range: Range, applied: bool): Result<Db> {
    var db := ExpirePending(before, now);
    if order !in db.orders || db.orders[order].customer !in db.customers then Err("no such order")
    else if !db.orders[order].status.Submitted? then Err("not under review")
    else
      var provided := Provide(db, order, now, range);
      if provided.Err? then provided
      else if !HasProof(provided.value, order) then Err("order has no payment proof")
      else if !applied then Err("apply failed")
      else Ok(StopLapsedPorts(Judge(provided.value, order, Approved, Fulfilled), now))
  }

  function Reject(before: Db, now: int, order: nat): Result<Db> {
    var db := ExpirePending(before, now);
    if order !in db.orders then Err("no such order")
    else if !db.orders[order].status.Submitted? then Err("not under review")
    else if !HasProof(db, order) then Err("order has no payment proof")
    else Ok(Judge(db, order, Refused, Rejected))
  }

  function Cancel(before: Db, now: int, order: nat): Result<Db> {
    var db := ExpirePending(before, now);
    if order !in db.orders then Err("no such order")
    else if Terminal(db.orders[order].status) then Err("closed")
    else Ok(db.(orders := SetStatus(db.orders, order, Cancelled)))
  }

  function CreatePort(db: Db, now: int, listen: Option<int>, expires: Option<int>, traffic: Option<nat>, range: Range,
      applied: bool): Result<Db>
  {
    var chosen := if listen.Some? then listen else Allocate(db.ports, range);
    if chosen.None? then Err("no port left")
    else if ListenTaken(db.ports, chosen.value) then Err("listen port in use")
    else if !applied then Err("apply failed")
    else Ok(StopLapsedPorts(
      db.(ports := db.ports[db.next := PortRow(chosen.value, None, None, None, expires, traffic, true)],
          next := db.next + 1), now))
  }

  predicate Editable(db: Db, port: nat, listen: int) {
    port in db.ports && (db.ports[port].listen == listen || !ListenTaken(db.ports, listen))
  }

  function EditTerms(db: Db, port: nat, listen: int, expires: Option<int>, traffic: Option<nat>): Db
    requires port in db.ports
  {
    db.(ports := db.ports[port := db.ports[port].(listen := listen, expires := expires, traffic := traffic)])
  }

  function UpdatePort(db: Db, now: int, port: nat, listen: int, expires: Option<int>, traffic: Option<nat>, applied: bool)
    : Result<Db>
  {
    if !Editable(db, port, listen) then Err("no such port, or listen port in use")
    else if !applied then Err("apply failed")
    else Ok(StopLapsedPorts(EditTerms(db, port, listen, expires, traffic), now))
  }

  function TogglePort(db: Db, now: int, port: nat, applied: bool): Result<Db> {
    if port !in db.ports then Err("no such port")
    else if !db.ports[port].enabled && Lapsed(db.ports[port].expires, now) then Err("lapsed")
    else if !applied then Err("apply failed")
    else Ok(StopLapsedPorts(db.(ports := db.ports[port := db.ports[port].(enabled := !db.ports[port].enabled)]), now))
  }

  function DeletePort(db: Db, now: int, port: nat, applied: bool): Result<Db> {
    if port !in db.ports then Err("no such port")
    else if db.ports[port].customer.Some? || db.ports[port].service.Some? then Err("commercial port")
    else if !applied then Err("apply failed")
    else Ok(StopLapsedPorts(DropPorts(db, {port}), now))
  }

  // ---------------------------------------------------------------------------------------------
  // One step of any run
  // ---------------------------------------------------------------------------------------------

  datatype Op =
    | OpCreateOrder(deadline: int, customer: nat, plan: nat, kind: Kind, service: Option<nat>)
    | OpSubmit(customer: nat, order: nat)
    | OpFulfil(order: nat, range: Range, applied: bool)
    | OpReject(order: nat)
    | OpCancel(order: nat)
    | OpExpire
    | OpCreatePort(listen: Option<int>, expires: Option<int>, traffic: Option<nat>, range: Range, applied: bool)
    | OpUpdatePort(port: nat, newListen: int, expires: Option<int>, traffic: Option<nat>, applied: bool)
    | OpTogglePort(port: nat, applied: bool)
    | OpDeletePort(port: nat, applied: bool)
    | OpStopLapsed
    | OpAddCustomer
    | OpAddPlan(newPlan: Plan)
    | OpUpdatePlan(plan: nat, newPlan: Plan)
    | OpTraffic(usage: map<int, nat>)

  function Apply(db: Db, op: Op, now: int): Result<Db> {
    match op
    case OpCreateOrder(deadline, customer, plan, kind, service) =>
      CreateOrder(db, now, deadline, customer, plan, kind, service)
    case OpSubmit(customer, order) => Submit(db, now, customer, order)
    case OpFulfil(order, range, applied) => Fulfil(db, now, order, range, applied)
    case OpReject(order) => Reject(db, now, order)
    case OpCancel(order) => Cancel(db, now, order)
    case OpExpire => Ok(ExpirePending(db, now))
    case OpCreatePort(listen, expires, traffic, range, applied) =>
      CreatePort(db, now, listen, expires, traffic, range, applied)
    case OpUpdatePort(port, listen, expires, traffic, applied) =>
      UpdatePort(db, now, port, listen, expires, traffic, applied)
    case OpTogglePort(port, applied) => TogglePort(db, now, port, applied)
    case OpDeletePort(port, applied) => DeletePort(db, now, port, applied)
    case OpStopLapsed => Ok(StopLapsedPorts(db, now))
    case OpAddCustomer => Ok(db.(customers := db.customers[db.next := true], next := db.next + 1))
    case OpAddPlan(plan) => Ok(db.(plans := db.plans[db.next := plan], next := db.next + 1))
    case OpUpdatePlan(id, plan) => if id in db.plans then Ok(db.(plans := db.plans[id := plan])) else Err("no such plan")
    case OpTraffic(usage) => Ok(db.(usage := usage))
  }

  /** A failed transaction leaves the tables as they were. */
  function Settle(before: Db, r: Result<Db>): Db {
    if r.Ok? then r.value else before
  }

  function Step(db: Db, op: Op, now: int): Db {
    Settle(db, Apply(db, op, now))
  }

  datatype Event = Event(op: Op, now: int)

  function Run(db: Db, events: seq<Event>): Db
    decreases |events|
  {
    if events == [] then db else Run(Step(db, events[0].op, events[0].now), events[1..])
  }
}
