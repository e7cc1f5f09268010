/** What every transaction keeps, and what follows for every run. */
module CommerceInvariants {
  import opened Common
  import opened CommerceModel

  ghost predicate KeysIssued(db: Db) {
    && 0 < db.next
    && (forall k | k in db.customers :: 0 < k < db.next)
    && (forall k | k in db.plans :: 0 < k < db.next)
    && (forall k | k in db.orders :: 0 < k < db.next)
    && (forall k | k in db.submissions :: 0 < k < db.next)
    && (forall k | k in db.services :: 0 < k < db.next)
    && (forall k | k in db.ports :: 0 < k < db.next)
  }

  /** A new purchase names its service exactly once it is fulfilled; a renewal always names one of its customer's. */
  ghost predicate OrderOk(db: Db, o: nat)
    requires o in db.orders
  {
    var r := db.orders[o];
    && r.customer in db.customers && r.plan in db.plans
    && (r.kind.NewPurchase? && !r.status.Fulfilled? ==> r.service.None?)
    && (r.kind.NewPurchase? && r.status.Fulfilled? ==>
          r.service.Some? && r.service.value in db.services && db.services[r.service.value].source == o)
    && (r.kind.Renewal? ==>
          r.service.Some? && r.service.value in db.services && db.services[r.service.value].customer == r.customer)
  }

  /** A service comes from one fulfilled purchase of its customer and owns one port that points back to it. */
  ghost predicate ServiceOk(db: Db, s: nat)
    requires s in db.services
  {
    var v := db.services[s];
    && v.plan in db.plans
    && v.source in db.orders && db.orders[v.source].kind.NewPurchase? && db.orders[v.source].status.Fulfilled?
    && db.orders[v.source].service == Some(s) && db.orders[v.source].customer == v.customer
    && v.latest in db.orders && db.orders[v.latest].status.Fulfilled? && db.orders[v.latest].service == Some(s)
    && v.port.Some? && v.port.value in db.ports
    && db.ports[v.port.value].service == Some(s) && db.ports[v.port.value].customer == Some(v.customer)
  }

  ghost predicate PortOk(db: Db, p: nat)
    requires p in db.ports
  {
    var r := db.ports[p];
    && (r.customer.Some? <==> r.service.Some?)
    && (r.service.Some? ==> r.service.value in db.services && db.services[r.service.value].port == Some(p))
  }

  ghost predicate ListenUnique(ports: map<nat, PortRow>) {
    forall p, q | p in ports && q in ports && ports[p].listen == ports[q].listen :: p == q
  }

  ghost predicate OneOpenOrder(orders: map<nat, Order>) {
    forall a, b | a in orders && b in orders && orders[a].service.Some? && orders[a].service == orders[b].service
      && Open(orders[a].status) && Open(orders[b].status) :: a == b
  }

  ghost predicate Links(db: Db) {
    && (forall o | o in db.orders :: OrderOk(db, o))
    && (forall s | s in db.services :: ServiceOk(db, s))
    && (forall p | p in db.ports :: PortOk(db, p))
  }

  /** What the newest payment proof of an order says about the order's status. */
  ghost predicate ReviewFits(submissions: map<nat, Submission>, next: nat, o: nat, status: Status) {
    var id := Latest(submissions, o, next);
    match status
    case Pending => id.None?
    case Submitted => id.Some? && submissions[id.value].review == Awaiting
    case Rejected => id.Some? && submissions[id.value].review == Refused
    case Fulfilled => id.Some? && submissions[id.value].review == Approved
    case Expired => id.Some? ==> submissions[id.value].review == Refused
    case Cancelled => id.Some? ==> submissions[id.value].review != Approved
  }

  ghost predicate Reviews(orders: map<nat, Order>, submissions: map<nat, Submission>, next: nat) {
    && (forall o | o in orders :: ReviewFits(submissions, next, o, orders[o].status))
    && (forall id | id in submissions :: submissions[id].order in orders)
  }

  ghost predicate Consistent(db: Db) {
    && KeysIssued(db) && Links(db) && ListenUnique(db.ports) && OneOpenOrder(db.orders)
    && Reviews(db.orders, db.submissions, db.next)
  }

  // ---------------------------------------------------------------------------------------------
  // Payment proofs
  // ---------------------------------------------------------------------------------------------

  lemma {:induction false} LatestFrame(a: map<nat, Submission>, b: map<nat, Submission>, order: nat, bound: nat)
    requires forall i | 0 <= i < bound :: (i in a && a[i].order == order) <==> (i in b && b[i].order == order)
    ensures Latest(a, order, bound) == Latest(b, order, bound)
  {
    if bound > 0 { LatestFrame(a, b, order, bound - 1); }
  }

  lemma {:induction false} LatestExtend(a: map<nat, Submission>, order: nat, bound: nat, more: nat)
    requires bound <= more && forall i | bound <= i < more :: i !in a || a[i].order != order
    ensures Latest(a, order, more) == Latest(a, order, bound)
  {
    if bound < more { LatestExtend(a, order, bound, more - 1); }
  }

  /** Issuing ids to other tables changes no order's newest proof, and a new order starts without one. */
  lemma ReviewsExtend(orders: map<nat, Order>, after: map<nat, Order>, submissions: map<nat, Submission>, next: nat, more: nat)
    requires Reviews(orders, submissions, next) && next <= more
    requires forall k | k in submissions :: k < next
    requires forall o | o in orders :: o < next && o in after && after[o].status == orders[o].status
    requires forall o | o in after && o !in orders :: after[o].status.Pending?
    ensures Reviews(after, submissions, more)
  {
    forall o | o in after ensures ReviewFits(submissions, more, o, after[o].status) {
      LatestExtend(submissions, o, next, more);
      if o !in orders { LatestExtend(submissions, o, 0, next); }
    }
  }

  /** Judging an order's newest proof suits the status that goes with the judgement. */
  lemma ReviewsJudged(orders: map<nat, Order>, submissions: map<nat, Submission>, next: nat, o: nat, review: Review, status: Status)
    requires Reviews(orders, submissions, next) && o in orders
    requires Latest(submissions, o, next).Some?
    requires (review.Approved? && status.Fulfilled?) || (review.Refused? && status.Rejected?)
    ensures var id := Latest(submissions, o, next).value;
            Reviews(SetStatus(orders, o, status), submissions[id := submissions[id].(review := review)], next)
  {
    var id := Latest(submissions, o, next).value;
    var judged := submissions[id := submissions[id].(review := review)];
    forall x | x in orders
      ensures ReviewFits(judged, next, x, if x == o then status else orders[x].status)
    {
      LatestFrame(submissions, judged, x, next);
      assert ReviewFits(submissions, next, x, orders[x].status);
    }
  }

  /** A new proof puts its order under review and leaves the others alone. */
  lemma ReviewsSubmitted(orders: map<nat, Order>, submissions: map<nat, Submission>, next: nat, o: nat)
    requires Reviews(orders, submissions, next) && o in orders && next !in submissions
    ensures Reviews(SetStatus(orders, o, Submitted), submissions[next := Submission(o, Awaiting)], next + 1)
  {
    var after := submissions[next := Submission(o, Awaiting)];
    forall x | x in orders
      ensures ReviewFits(after, next + 1, x, if x == o then Submitted else orders[x].status)
    {
      if x != o {
        LatestFrame(submissions, after, x, next);
        LatestExtend(after, x, next, next + 1);
        assert ReviewFits(submissions, next, x, orders[x].status);
      }
    }
  }

  lemma ReviewsCancelled(orders: map<nat, Order>, submissions: map<nat, Submission>, next: nat, o: nat)
    requires Reviews(orders, submissions, next) && o in orders && Open(orders[o].status)
    ensures Reviews(SetStatus(orders, o, Cancelled), submissions, next)
  {
    assert ReviewFits(submissions, next, o, orders[o].status);
  }

  lemma ReviewsExpired(orders: map<nat, Order>, submissions: map<nat, Submission>, next: nat, now: int)
    requires Reviews(orders, submissions, next)
    ensures Reviews(ExpireOrders(orders, now), submissions, next)
  {
    forall o | o in orders ensures ReviewFits(submissions, next, o, ExpireOrder(orders[o], now).status) {
      assert ReviewFits(submissions, next, o, orders[o].status);
    }
  }

  // ---------------------------------------------------------------------------------------------
  // Links between the tables
  // ---------------------------------------------------------------------------------------------

  /** Orders keep everything but their status, and none enters or leaves `Fulfilled` or reopens. */
  ghost predicate Relabelled(a: map<nat, Order>, b: map<nat, Order>) {
    && a.Keys == b.Keys
    && forall o | o in a :: && b[o] == a[o].(status := b[o].status)
                            && (a[o].status.Fulfilled? <==> b[o].status.Fulfilled?)
                            && (Open(b[o].status) ==> Open(a[o].status))
  }

  lemma RelabelKeepsLinks(db: Db, orders: map<nat, Order>)
    requires Links(db) && Relabelled(db.orders, orders)
    ensures Links(db.(orders := orders))
  {
    var after := db.(orders := orders);
    forall o | o in after.orders ensures OrderOk(after, o) { assert OrderOk(db, o); }
    forall s | s in after.services ensures ServiceOk(after, s) { assert ServiceOk(db, s); }
    forall p | p in after.ports ensures PortOk(after, p) { assert PortOk(db, p); }
  }

  lemma RelabelKeepsOneOpen(a: map<nat, Order>, b: map<nat, Order>)
    requires OneOpenOrder(a) && Relabelled(a, b)
    ensures OneOpenOrder(b)
  {}

  lemma ExpireKeeps(db: Db, now: int)
    requires Consistent(db)
    ensures Consistent(ExpirePending(db, now)) && Relabelled(db.orders, ExpireOrders(db.orders, now))
  {
    var orders := ExpireOrders(db.orders, now);
    assert Relabelled(db.orders, orders);
    RelabelKeepsLinks(db, orders);
    RelabelKeepsOneOpen(db.orders, orders);
    ReviewsExpired(db.orders, db.submissions, db.next, now);
  }

  /** Changing what ports offer, but not who owns them. */
  ghost predicate SameOwners(a: map<nat, PortRow>, b: map<nat, PortRow>) {
    a.Keys == b.Keys && forall p | p in a :: a[p].customer == b[p].customer && a[p].service == b[p].service
  }

  lemma PortTermsKeepLinks(db: Db, ports: map<nat, PortRow>)
    requires Links(db) && SameOwners(db.ports, ports)
    ensures Links(db.(ports := ports))
  {
    var after := db.(ports := ports);
    forall o | o in after.orders ensures OrderOk(after, o) { assert OrderOk(db, o); }
    forall s | s in after.services ensures ServiceOk(after, s) { assert ServiceOk(db, s); }
    forall p | p in after.ports ensures PortOk(after, p) { assert PortOk(db, p); }
  }

  ghost predicate Unowned(db: Db, gone: set<nat>) {
    forall p | p in gone && p in db.ports :: db.ports[p].service.None?
  }

  lemma DropKeepsServices(db: Db, gone: set<nat>)
    requires Links(db) && Unowned(db, gone)
    ensures DropPorts(db, gone).services == db.services
  {
    var after := DropPorts(db, gone);
    forall s | s in db.services ensures after.services[s] == db.services[s] { assert ServiceOk(db, s); }
  }

  /** Deleting ports no service owns leaves every service as it was. */
  lemma DropKeepsLinks(db: Db, gone: set<nat>)
    requires Links(db) && Unowned(db, gone)
    ensures Links(DropPorts(db, gone))
  {
    DropKeepsServices(db, gone);
    var after := DropPorts(db, gone);
    forall o | o in after.orders ensures OrderOk(after, o) { assert OrderOk(db, o); }
    forall s | s in after.services ensures ServiceOk(after, s) { assert ServiceOk(db, s); }
    forall p | p in after.ports ensures PortOk(after, p) { assert PortOk(db, p); }
  }

  lemma DropKeeps(db: Db, gone: set<nat>)
    requires Consistent(db) && Unowned(db, gone)
    ensures Consistent(DropPorts(db, gone))
  {
    DropKeepsServices(db, gone);
    DropKeepsLinks(db, gone);
  }

  lemma LapsedFreePortsUnowned(db: Db, now: int)
    requires Consistent(db)
    ensures Unowned(db, LapsedFreePorts(db, now))
  {
    forall p | p in LapsedFreePorts(db, now) ensures db.ports[p].service.None? {
      assert PortOk(db, p);
    }
  }

  lemma PortTermsKeep(db: Db, ports: map<nat, PortRow>)
    requires Consistent(db) && SameOwners(db.ports, ports) && ListenUnique(ports)
    ensures Consistent(db.(ports := ports))
  {
    PortTermsKeepLinks(db, ports);
  }

  lemma DisablingKeepsOwners(ports: map<nat, PortRow>, now: int)
    requires ListenUnique(ports)
    ensures SameOwners(ports, DisableLapsed(ports, now)) && ListenUnique(DisableLapsed(ports, now))
  {}

  lemma StopLapsedKeeps(db: Db, now: int)
    requires Consistent(db)
    ensures Consistent(StopLapsedPorts(db, now)) && StopLapsedPorts(db, now).services == db.services
  {
    var gone := LapsedFreePorts(db, now);
    LapsedFreePortsUnowned(db, now);
    DropKeeps(db, gone);
    DropKeepsServices(db, gone);
    var kept := DropPorts(db, gone);
    DisablingKeepsOwners(kept.ports, now);
    PortTermsKeep(kept, DisableLapsed(kept.ports, now));
  }

  // ---------------------------------------------------------------------------------------------
  // Operations
  // ---------------------------------------------------------------------------------------------

  /** Links survive changes to submissions, usage and the key counter. */
  lemma OtherTablesKeepLinks(db: Db, after: Db)
    requires Links(db) && after == db.(submissions := after.submissions, usage := after.usage, next := after.next)
    ensures Links(after)
  {
    forall o | o in after.orders ensures OrderOk(after, o) { assert OrderOk(db, o); }
    forall s | s in after.services ensures ServiceOk(after, s) { assert ServiceOk(db, s); }
    forall p | p in after.ports ensures PortOk(after, p) { assert PortOk(db, p); }
  }

  lemma SetStatusRelabels(orders: map<nat, Order>, o: nat, status: Status)
    requires o in orders && Open(orders[o].status) && !status.Fulfilled?
    ensures Relabelled(orders, SetStatus(orders, o, status))
  {}

  /** Moving an open order to a status other than `Fulfilled`, whatever happens to its proofs. */
  lemma MoveOrderKeeps(db: Db, after: Db, o: nat, status: Status)
    requires Consistent(db) && o in db.orders && Open(db.orders[o].status) && !status.Fulfilled?
    requires after == db.(orders := SetStatus(db.orders, o, status), submissions := after.submissions, next := after.next)
    ensures Links(after) && ListenUnique(after.ports) && OneOpenOrder(after.orders)
  {
    SetStatusRelabels(db.orders, o, status);
    RelabelKeepsLinks(db, after.orders);
    RelabelKeepsOneOpen(db.orders, after.orders);
    OtherTablesKeepLinks(db.(orders := after.orders), after);
  }

  lemma KeysAfterProof(db: Db, order: nat)
    requires KeysIssued(db) && order in db.orders
    ensures KeysIssued(PutUnderReview(db, order))
    ensures HasProof(db, order) ==> forall review, status :: KeysIssued(Judge(db, order, review, status))
  {}

  lemma UnderReviewKeeps(db: Db, order: nat)
    requires Consistent(db) && order in db.orders && Open(db.orders[order].status)
    ensures Consistent(PutUnderReview(db, order))
  {
    KeysAfterProof(db, order);
    ReviewsSubmitted(db.orders, db.submissions, db.next, order);
    MoveOrderKeeps(db, PutUnderReview(db, order), order, Submitted);
  }

  lemma SubmitKeeps(before: Db, now: int, customer: nat, order: nat)
    requires Consistent(before) && Submit(before, now, customer, order).Ok?
    ensures Consistent(Submit(before, now, customer, order).value)
  {
    ExpireKeeps(before, now);
    UnderReviewKeeps(ExpirePending(before, now), order);
  }

  lemma RefusalKeeps(db: Db, order: nat)
    requires Consistent(db) && order in db.orders && Open(db.orders[order].status) && HasProof(db, order)
    ensures Consistent(Judge(db, order, Refused, Rejected))
  {
    KeysAfterProof(db, order);
    ReviewsJudged(db.orders, db.submissions, db.next, order, Refused, Rejected);
    MoveOrderKeeps(db, Judge(db, order, Refused, Rejected), order, Rejected);
  }

  lemma RejectKeeps(before: Db, now: int, order: nat)
    requires Consistent(before) && Reject(before, now, order).Ok?
    ensures Consistent(Reject(before, now, order).value)
  {
    ExpireKeeps(before, now);
    RefusalKeeps(ExpirePending(before, now), order);
  }

  lemma CancellationKeeps(db: Db, order: nat)
    requires Consistent(db) && order in db.orders && Open(db.orders[order].status)
    ensures Consistent(db.(orders := SetStatus(db.orders, order, Cancelled)))
  {
    var after := db.(orders := SetStatus(db.orders, order, Cancelled));
    ReviewsCancelled(db.orders, db.submissions, db.next, order);
    MoveOrderKeeps(db, after, order, Cancelled);
    KeysAfterMove(db, order, Cancelled);
  }

  lemma KeysAfterMove(db: Db, order: nat, status: Status)
    requires KeysIssued(db) && order in db.orders
    ensures KeysIssued(db.(orders := SetStatus(db.orders, order, status)))
  {}

  lemma CancelKeeps(before: Db, now: int, order: nat)
    requires Consistent(before) && Cancel(before, now, order).Ok?
    ensures Consistent(Cancel(before, now, order).value)
  {
    ExpireKeeps(before, now);
    CancellationKeeps(ExpirePending(before, now), order);
  }

  /** A fresh order names at most a service of its customer that has no open order. */
  ghost predicate FreshOrder(db: Db, order: Order) {
    && order.status.Pending? && order.customer in db.customers && order.plan in db.plans
    && (order.kind.NewPurchase? ==> order.service.None?)
    && (order.kind.Renewal? ==> order.service.Some?)
    && (order.service.Some? ==> && order.service.value in db.services
                                && db.services[order.service.value].customer == order.customer
                                && !HasOpenOrder(db.orders, order.service.value))
  }

  lemma NewOrderKeepsLinks(db: Db, order: Order)
    requires KeysIssued(db) && Links(db) && FreshOrder(db, order)
    ensures Links(AddOrder(db, order))
  {
    var after := AddOrder(db, order);
    forall o | o in after.orders ensures OrderOk(after, o) {
      if o != db.next { assert OrderOk(db, o); }
    }
    forall s | s in after.services ensures ServiceOk(after, s) { assert ServiceOk(db, s); }
    forall p | p in after.ports ensures PortOk(after, p) { assert PortOk(db, p); }
  }

  lemma NewOrderKeepsOneOpen(db: Db, order: Order)
    requires OneOpenOrder(db.orders) && FreshOrder(db, order)
    ensures OneOpenOrder(AddOrder(db, order).orders)
  {}

  lemma KeysAfterOrder(db: Db, order: Order)
    requires KeysIssued(db)
    ensures KeysIssued(AddOrder(db, order))
  {}

  lemma NewOrderKeepsReviews(db: Db, order: Order)
    requires KeysIssued(db) && Reviews(db.orders, db.submissions, db.next) && order.status.Pending?
    ensures Reviews(AddOrder(db, order).orders, db.submissions, db.next + 1)
  {
    ReviewsExtend(db.orders, AddOrder(db, order).orders, db.submissions, db.next, db.next + 1);
  }

  lemma AddOrderKeeps(db: Db, order: Order)
    requires Consistent(db) && FreshOrder(db, order)
    ensures Consistent(AddOrder(db, order))
  {
    KeysAfterOrder(db, order);
    NewOrderKeepsLinks(db, order);
    NewOrderKeepsOneOpen(db, order);
    NewOrderKeepsReviews(db, order);
  }

  function OrderFor(db: Db, deadline: int, customer: nat, plan: nat, kind: Kind, service: Option<nat>): Order
    requires plan in db.plans
  {
    Order(customer, plan, kind, if kind.Renewal? then service else None, Pending, Some(deadline),
          db.plans[plan].days, db.plans[plan].traffic)
  }

  lemma CreateAddsFreshOrder(before: Db, now: int, deadline: int, customer: nat, plan: nat, kind: Kind, service: Option<nat>)
    requires CreateOrder(before, now, deadline, customer, plan, kind, service).Ok?
    ensures var db := ExpirePending(before, now);
            && plan in db.plans
            && var order := OrderFor(db, deadline, customer, plan, kind, service);
               FreshOrder(db, order)
               && CreateOrder(before, now, deadline, customer, plan, kind, service).value == AddOrder(db, order)
  {}

  lemma CreateOrderKeeps(before: Db, now: int, deadline: int, customer: nat, plan: nat, kind: Kind, service: Option<nat>)
    requires Consistent(before) && CreateOrder(before, now, deadline, customer, plan, kind, service).Ok?
    ensures Consistent(CreateOrder(before, now, deadline, customer, plan, kind, service).value)
  {
    ExpireKeeps(before, now);
    CreateAddsFreshOrder(before, now, deadline, customer, plan, kind, service);
    var db := ExpirePending(before, now);
    AddOrderKeeps(db, OrderFor(db, deadline, customer, plan, kind, service));
  }

  // ---------------------------------------------------------------------------------------------
  // Fulfilment
  // ---------------------------------------------------------------------------------------------

  /** The tables once the order whose goods were provided is closed, before its proof is judged. */
  function Closed(provided: Db, order: nat): Db
    requires order in provided.orders
  {
    provided.(orders := SetStatus(provided.orders, order, Fulfilled))
  }

  lemma OpenKeepsOrders(db: Db, id: nat, now: int, range: Range)
    requires KeysIssued(db) && Links(db) && id in db.orders
    requires db.orders[id].kind.NewPurchase? && OpenService(db, id, now, range).Ok?
    ensures var after := Closed(OpenService(db, id, now, range).value, id);
            forall o | o in after.orders :: OrderOk(after, o)
  {
    var after := Closed(OpenService(db, id, now, range).value, id);
    assert OrderOk(db, id);
    forall o | o in after.orders ensures OrderOk(after, o) {
      if o != id { assert OrderOk(db, o); }
    }
  }

  lemma OpenKeepsServices(db: Db, id: nat, now: int, range: Range)
    requires KeysIssued(db) && Links(db) && id in db.orders
    requires db.orders[id].kind.NewPurchase? && db.orders[id].status.Submitted? && OpenService(db, id, now, range).Ok?
    ensures var after := Closed(OpenService(db, id, now, range).value, id);
            forall s | s in after.services :: ServiceOk(after, s)
  {
    var after := Closed(OpenService(db, id, now, range).value, id);
    assert OrderOk(db, id);
    forall s | s in after.services ensures ServiceOk(after, s) {
      if s != db.next + 1 { assert ServiceOk(db, s); }
    }
  }

  lemma OpenKeepsPorts(db: Db, id: nat, now: int, range: Range)
    requires KeysIssued(db) && Links(db) && id in db.orders && OpenService(db, id, now, range).Ok?
    ensures var after := Closed(OpenService(db, id, now, range).value, id);
            forall p | p in after.ports :: PortOk(after, p)
  {
    var after := Closed(OpenService(db, id, now, range).value, id);
    forall p | p in after.ports ensures PortOk(after, p) {
      if p != db.next { assert PortOk(db, p); }
    }
  }

  lemma OpenKeepsRest(db: Db, id: nat, now: int, range: Range)
    requires KeysIssued(db) && OneOpenOrder(db.orders) && ListenUnique(db.ports) && id in db.orders
    requires OpenService(db, id, now, range).Ok?
    requires forall o | o in db.orders && db.orders[o].service.Some? :: db.orders[o].service.value != db.next + 1
    ensures var after := Closed(OpenService(db, id, now, range).value, id);
            KeysIssued(after) && OneOpenOrder(after.orders) && ListenUnique(after.ports)
  {}

  lemma NamedServicesExist(db: Db)
    requires KeysIssued(db) && Links(db)
    ensures forall o | o in db.orders && db.orders[o].service.Some? :: db.orders[o].service.value < db.next
  {
    forall o | o in db.orders && db.orders[o].service.Some? ensures db.orders[o].service.value < db.next {
      assert OrderOk(db, o);
    }
  }

  /** What a renewal changes: terms of one port, plan and latest order of one service, status of the order. */
  ghost predicate Renewed(db: Db, after: Db, id: nat)
    requires id in db.orders
  {
    var s := db.orders[id].service;
    && s.Some? && s.value in db.services && db.orders[id].plan in db.plans
    && after.customers == db.customers && after.plans == db.plans
    && after.orders == SetStatus(db.orders, id, Fulfilled)
    && after.services == db.services[s.value := db.services[s.value].(latest := id, plan := db.orders[id].plan)]
    && SameOwners(db.ports, after.ports)
  }

  lemma RenewalIsRenewed(db: Db, id: nat, now: int)
    requires Links(db) && id in db.orders && RenewService(db, id, now).Ok?
    ensures Renewed(db, Closed(RenewService(db, id, now).value, id), id)
  {
    assert OrderOk(db, id);
  }

  lemma RenewKeepsOrders(db: Db, after: Db, id: nat)
    requires Links(db) && id in db.orders && db.orders[id].kind.Renewal? && Renewed(db, after, id)
    ensures forall o | o in after.orders :: OrderOk(after, o)
  {
    forall o | o in after.orders ensures OrderOk(after, o) { assert OrderOk(db, o); }
  }

  lemma RenewKeepsService(db: Db, after: Db, id: nat, s: nat)
    requires id in db.orders && db.orders[id].kind.Renewal? && Renewed(db, after, id) && s in db.services && ServiceOk(db, s)
    ensures ServiceOk(after, s)
  {}

  lemma RenewKeepsServices(db: Db, after: Db, id: nat)
    requires Links(db) && id in db.orders && db.orders[id].kind.Renewal? && Renewed(db, after, id)
    ensures forall s | s in after.services :: ServiceOk(after, s)
  {
    forall s | s in after.services ensures ServiceOk(after, s) { RenewKeepsService(db, after, id, s); }
  }

  lemma RenewKeepsPorts(db: Db, after: Db, id: nat)
    requires Links(db) && id in db.orders && Renewed(db, after, id)
    ensures forall p | p in after.ports :: PortOk(after, p)
  {
    forall p | p in after.ports ensures PortOk(after, p) { assert PortOk(db, p); }
  }

  lemma RenewKeepsLinks(db: Db, id: nat, now: int)
    requires Links(db) && id in db.orders && db.orders[id].kind.Renewal? && RenewService(db, id, now).Ok?
    ensures Links(Closed(RenewService(db, id, now).value, id))
  {
    var after := Closed(RenewService(db, id, now).value, id);
    RenewalIsRenewed(db, id, now);
    RenewKeepsOrders(db, after, id);
    RenewKeepsServices(db, after, id);
    RenewKeepsPorts(db, after, id);
  }

  lemma RenewKeepsRest(db: Db, id: nat, now: int)
    requires KeysIssued(db) && OneOpenOrder(db.orders) && ListenUnique(db.ports) && id in db.orders
    requires RenewService(db, id, now).Ok?
    ensures var after := Closed(RenewService(db, id, now).value, id);
            KeysIssued(after) && OneOpenOrder(after.orders) && ListenUnique(after.ports)
  {}

  /** The order and everything provided for it are in place once it is closed. */
  lemma ProvideKeeps(db: Db, order: nat, now: int, range: Range)
    requires KeysIssued(db) && Links(db) && OneOpenOrder(db.orders) && ListenUnique(db.ports)
    requires order in db.orders && db.orders[order].status.Submitted? && Provide(db, order, now, range).Ok?
    ensures var after := Closed(Provide(db, order, now, range).value, order);
            KeysIssued(after) && Links(after) && OneOpenOrder(after.orders) && ListenUnique(after.ports)
  {
    if db.orders[order].kind.NewPurchase? {
      OpenKeepsOrders(db, order, now, range);
      OpenKeepsServices(db, order, now, range);
      OpenKeepsPorts(db, order, now, range);
      NamedServicesExist(db);
      OpenKeepsRest(db, order, now, range);
    } else {
      RenewKeepsLinks(db, order, now);
      RenewKeepsRest(db, order, now);
    }
  }

  /** Providing touches no proof and no other order. */
  lemma ProvideFrame(db: Db, order: nat, now: int, range: Range)
    requires order in db.orders && Provide(db, order, now, range).Ok?
    ensures var provided := Provide(db, order, now, range).value;
            && provided.submissions == db.submissions && db.next <= provided.next
            && provided.orders.Keys == db.orders.Keys
            && forall o | o in db.orders :: provided.orders[o].status == db.orders[o].status
                                            && (o != order ==> provided.orders[o] == db.orders[o])
  {}

  lemma ApprovedReviews(db: Db, order: nat, now: int, range: Range)
    requires KeysIssued(db) && Reviews(db.orders, db.submissions, db.next)
    requires order in db.orders && HasProof(db, order) && Provide(db, order, now, range).Ok?
    ensures var provided := Provide(db, order, now, range).value;
            && HasProof(provided, order)
            && var after := Judge(provided, order, Approved, Fulfilled);
               Reviews(after.orders, after.submissions, after.next)
  {
    ProvideFrame(db, order, now, range);
    var provided := Provide(db, order, now, range).value;
    LatestExtend(db.submissions, order, db.next, provided.next);
    ReviewsExtend(db.orders, provided.orders, db.submissions, db.next, provided.next);
    ReviewsJudged(provided.orders, provided.submissions, provided.next, order, Approved, Fulfilled);
  }

  /** An order under review always has the proof that approval needs, and closes consistently. */
  lemma ApprovalKeeps(db: Db, order: nat, now: int, range: Range)
    requires Consistent(db) && order in db.orders && db.orders[order].status.Submitted?
    requires Provide(db, order, now, range).Ok?
    ensures var provided := Provide(db, order, now, range).value;
            HasProof(provided, order) && Consistent(Judge(provided, order, Approved, Fulfilled))
  {
    var provided := Provide(db, order, now, range).value;
    assert ReviewFits(db.submissions, db.next, order, db.orders[order].status);
    ProvideKeeps(db, order, now, range);
    ApprovedReviews(db, order, now, range);
    OtherTablesKeepLinks(Closed(provided, order), Judge(provided, order, Approved, Fulfilled));
  }

  lemma FulfilKeeps(before: Db, now: int, order: nat, range: Range, applied: bool)
    requires Consistent(before) && Fulfil(before, now, order, range, applied).Ok?
    ensures Consistent(Fulfil(before, now, order, range, applied).value)
    ensures Fulfil(before, now, order, range, applied).value.services
         == Provide(ExpirePending(before, now), order, now, range).value.services
  {
    ExpireKeeps(before, now);
    var db := ExpirePending(before, now);
    ApprovalKeeps(db, order, now, range);
    StopLapsedKeeps(Judge(Provide(db, order, now, range).value, order, Approved, Fulfilled), now);
  }

  function AddPort(db: Db, row: PortRow): Db {
    db.(ports := db.ports[db.next := row], next := db.next + 1)
  }

  lemma NewPortKeepsLinks(db: Db, row: PortRow)
    requires KeysIssued(db) && Links(db) && row.customer.None? && row.service.None?
    ensures Links(AddPort(db, row))
  {
    var after := AddPort(db, row);
    forall o | o in after.orders ensures OrderOk(after, o) { assert OrderOk(db, o); }
    forall s | s in after.services ensures ServiceOk(after, s) { assert ServiceOk(db, s); }
    forall p | p in after.ports ensures PortOk(after, p) {
      if p != db.next { assert PortOk(db, p); }
    }
  }

  lemma NewPortKeeps(db: Db, row: PortRow)
    requires Consistent(db) && row.customer.None? && row.service.None? && !ListenTaken(db.ports, row.listen)
    ensures Consistent(AddPort(db, row))
  {
    NewPortKeepsLinks(db, row);
    ReviewsExtend(db.orders, db.orders, db.submissions, db.next, db.next + 1);
  }

  lemma ChangedPortStaysUnique(ports: map<nat, PortRow>, port: nat, row: PortRow)
    requires ListenUnique(ports) && port in ports
    requires row.listen != ports[port].listen ==> !ListenTaken(ports, row.listen)
    ensures ListenUnique(ports[port := row])
  {}

  lemma ChangePortKeeps(db: Db, port: nat, row: PortRow)
    requires Consistent(db) && port in db.ports
    requires row.customer == db.ports[port].customer && row.service == db.ports[port].service
    requires row.listen != db.ports[port].listen ==> !ListenTaken(db.ports, row.listen)
    ensures Consistent(db.(ports := db.ports[port := row]))
  {
    ChangedPortStaysUnique(db.ports, port, row);
    PortTermsKeep(db, db.ports[port := row]);
  }

  lemma CatalogKeeps(db: Db, after: Db)
    requires Consistent(db) && KeysIssued(after) && db.next <= after.next
    requires after == db.(customers := after.customers, plans := after.plans, usage := after.usage, next := after.next)
    requires db.customers.Keys <= after.customers.Keys && db.plans.Keys <= after.plans.Keys
    ensures Consistent(after)
  {
    ReviewsExtend(db.orders, db.orders, db.submissions, db.next, after.next);
    forall o | o in after.orders ensures OrderOk(after, o) { assert OrderOk(db, o); }
    forall s | s in after.services ensures ServiceOk(after, s) { assert ServiceOk(db, s); }
    forall p | p in after.ports ensures PortOk(after, p) { assert PortOk(db, p); }
  }

  lemma CreatePortKeeps(db: Db, now: int, listen: Option<int>, expires: Option<int>, traffic: Option<nat>, range: Range)
    requires Consistent(db) && CreatePort(db, now, listen, expires, traffic, range, true).Ok?
    ensures var after := CreatePort(db, now, listen, expires, traffic, range, true).value;
            Consistent(after) && after.services == db.services
  {
    var chosen := if listen.Some? then listen else Allocate(db.ports, range);
    var row := PortRow(chosen.value, None, None, None, expires, traffic, true);
    NewPortKeeps(db, row);
    StopLapsedKeeps(AddPort(db, row), now);
  }

  lemma UpdatePortKeeps(db: Db, now: int, port: nat, listen: int, expires: Option<int>, traffic: Option<nat>)
    requires Consistent(db) && Editable(db, port, listen)
    ensures var after := StopLapsedPorts(EditTerms(db, port, listen, expires, traffic), now);
            Consistent(after) && after.services == db.services
  {
    ChangePortKeeps(db, port, db.ports[port].(listen := listen, expires := expires, traffic := traffic));
    StopLapsedKeeps(EditTerms(db, port, listen, expires, traffic), now);
  }

  lemma TogglePortKeeps(db: Db, now: int, port: nat)
    requires Consistent(db) && port in db.ports
    ensures var row := db.ports[port].(enabled := !db.ports[port].enabled);
            var after := StopLapsedPorts(db.(ports := db.ports[port := row]), now);
            Consistent(after) && after.services == db.services
  {
    var row := db.ports[port].(enabled := !db.ports[port].enabled);
    ChangePortKeeps(db, port, row);
    StopLapsedKeeps(db.(ports := db.ports[port := row]), now);
  }

  lemma DeletePortKeeps(db: Db, now: int, port: nat)
    requires Consistent(db) && port in db.ports && db.ports[port].service.None?
    ensures var after := StopLapsedPorts(DropPorts(db, {port}), now);
            Consistent(after) && after.services == db.services
  {
    DropKeeps(db, {port});
    DropKeepsServices(db, {port});
    StopLapsedKeeps(DropPorts(db, {port}), now);
  }

  lemma PortOperationKeeps(db: Db, op: Op, now: int)
    requires Consistent(db) && Apply(db, op, now).Ok?
    requires op.OpCreatePort? || op.OpUpdatePort? || op.OpTogglePort? || op.OpDeletePort?
    ensures Consistent(Apply(db, op, now).value) && Apply(db, op, now).value.services == db.services
  {
    match op
    case OpCreatePort(listen, expires, traffic, range, _) => CreatePortKeeps(db, now, listen, expires, traffic, range);
    case OpUpdatePort(port, listen, expires, traffic, _) => UpdatePortKeeps(db, now, port, listen, expires, traffic);
    case OpTogglePort(port, _) => TogglePortKeeps(db, now, port);
    case OpDeletePort(port, _) => DeletePortKeeps(db, now, port);
  }

  lemma OrderOperationKeeps(db: Db, op: Op, now: int)
    requires Consistent(db) && Apply(db, op, now).Ok?
    requires op.OpCreateOrder? || op.OpSubmit? || op.OpFulfil? || op.OpReject? || op.OpCancel?
    ensures Consistent(Apply(db, op, now).value)
  {
    match op
    case OpCreateOrder(deadline, customer, plan, kind, service) =>
      CreateOrderKeeps(db, now, deadline, customer, plan, kind, service);
    case OpSubmit(customer, order) => SubmitKeeps(db, now, customer, order);
    case OpFulfil(order, range, applied) => FulfilKeeps(db, now, order, range, applied);
    case OpReject(order) => RejectKeeps(db, now, order);
    case OpCancel(order) => CancelKeeps(db, now, order);
  }

  lemma CatalogOperationKeeps(db: Db, op: Op, now: int)
    requires Consistent(db) && Apply(db, op, now).Ok?
    requires op.OpAddCustomer? || op.OpAddPlan? || op.OpUpdatePlan? || op.OpTraffic?
    ensures Consistent(Apply(db, op, now).value)
  {
    CatalogKeeps(db, Apply(db, op, now).value);
  }

  /** Every transaction keeps the tables consistent. */
  lemma StepKeeps(db: Db, op: Op, now: int)
    requires Consistent(db)
    ensures Consistent(Step(db, op, now))
  {
    if Apply(db, op, now).Ok? {
      match op
      case OpExpire => ExpireKeeps(db, now);
      case OpStopLapsed => StopLapsedKeeps(db, now);
      case OpCreatePort(_, _, _, _, _) => PortOperationKeeps(db, op, now);
      case OpUpdatePort(_, _, _, _, _) => PortOperationKeeps(db, op, now);
      case OpTogglePort(_, _) => PortOperationKeeps(db, op, now);
      case OpDeletePort(_, _) => PortOperationKeeps(db, op, now);
      case OpAddCustomer => CatalogOperationKeeps(db, op, now);
      case OpAddPlan(_) => CatalogOperationKeeps(db, op, now);
      case OpUpdatePlan(_, _) => CatalogOperationKeeps(db, op, now);
      case OpTraffic(_) => CatalogOperationKeeps(db, op, now);
      case _ => OrderOperationKeeps(db, op, now);
    }
  }

  /** Starting from empty tables, every run of transactions in any order ends consistent. */
  lemma {:induction false} EveryRunConsistent(db: Db, events: seq<Event>)
    requires Consistent(db)
    ensures Consistent(Run(db, events))
    decreases |events|
  {
    if events != [] {
      StepKeeps(db, events[0].op, events[0].now);
      EveryRunConsistent(Step(db, events[0].op, events[0].now), events[1..]);
    }
  }

  lemma EmptyIsConsistent()
    ensures Consistent(EMPTY)
  {}
}
