/** What the kept invariants mean for customers: purchases, services and orders over whole runs. */
module CommerceRuns {
  import opened Common
  import opened CommerceModel
  import opened CommerceInvariants

  /** Services and fulfilled new purchases correspond one to one, through the source order. */
  lemma ServicesMatchPurchases(db: Db)
    requires Consistent(db)
    ensures forall s | s in db.services ::
              && db.services[s].source in db.orders
              && db.orders[db.services[s].source].kind.NewPurchase?
              && db.orders[db.services[s].source].status.Fulfilled?
    ensures forall s, t | s in db.services && t in db.services && db.services[s].source == db.services[t].source :: s == t
    ensures forall o | o in db.orders && db.orders[o].kind.NewPurchase? && db.orders[o].status.Fulfilled? ::
              exists s | s in db.services :: db.services[s].source == o
  {
    forall s | s in db.services
      ensures db.services[s].source in db.orders && db.orders[db.services[s].source].service == Some(s)
      ensures db.orders[db.services[s].source].kind.NewPurchase? && db.orders[db.services[s].source].status.Fulfilled?
    {
      assert ServiceOk(db, s);
    }
    forall o | o in db.orders && db.orders[o].kind.NewPurchase? && db.orders[o].status.Fulfilled?
      ensures exists s | s in db.services :: db.services[s].source == o
    {
      assert OrderOk(db, o);
      assert db.services[db.orders[o].service.value].source == o;
    }
  }

  /** No two services share a port, and the owner of a service's port is the service's customer. */
  lemma ServicePortsAreExclusive(db: Db, s: nat, t: nat)
    requires Consistent(db) && s in db.services && t in db.services && db.services[s].port == db.services[t].port
    ensures s == t
  {
    assert ServiceOk(db, s) && ServiceOk(db, t);
  }

  /** The only ways an order's status can change, each with the event that causes it. */
  predicate MayMove(order: Order, to: Status, o: nat, op: Op, now: int) {
    var from := order.status;
    || to == from
    || (to.Expired? && (from.Pending? || from.Rejected?) && Lapsed(order.deadline, now))
    || (to.Submitted? && (from.Pending? || from.Rejected?) && !Lapsed(order.deadline, now) &&
          op.OpSubmit? && op.order == o)
    || (to.Fulfilled? && from.Submitted? && op.OpFulfil? && op.order == o && op.applied)
    || (to.Rejected? && from.Submitted? && op.OpReject? && op.order == o)
    || (to.Cancelled? && Open(from) && op.OpCancel? && op.order == o)
  }

  ghost predicate Followed(db: Db, after: Db, o: nat, op: Op, now: int)
    requires o in db.orders
  {
    && o in after.orders
    && MayMove(db.orders[o], after.orders[o].status, o, op, now)
    && (Terminal(db.orders[o].status) ==> after.orders[o] == db.orders[o])
  }

  lemma CreationFollows(db: Db, op: Op, now: int, o: nat)
    requires KeysIssued(db) && o in db.orders && Apply(db, op, now).Ok? && op.OpCreateOrder?
    ensures Followed(db, Step(db, op, now), o, op, now)
  {}

  lemma OrderOperationFollows(db: Db, op: Op, now: int, o: nat)
    requires KeysIssued(db) && o in db.orders && Apply(db, op, now).Ok?
    requires op.OpSubmit? || op.OpReject? || op.OpCancel? || op.OpExpire?
    ensures Followed(db, Step(db, op, now), o, op, now)
  {}

  lemma FulfilFollows(db: Db, op: Op, now: int, o: nat)
    requires KeysIssued(db) && o in db.orders && op.OpFulfil? && Apply(db, op, now).Ok?
    ensures Followed(db, Step(db, op, now), o, op, now)
  {
    ProvideFrame(ExpirePending(db, now), op.order, now, op.range);
  }

  /** Orders are never deleted, terminal ones never change, and an order under review cannot expire. */
  lemma StepFollowsOrder(db: Db, op: Op, now: int, o: nat)
    requires KeysIssued(db) && o in db.orders
    ensures Followed(db, Step(db, op, now), o, op, now)
  {
    if Apply(db, op, now).Ok? {
      match op
      case OpFulfil(_, _, _) => FulfilFollows(db, op, now, o);
      case OpCreateOrder(_, _, _, _, _) => CreationFollows(db, op, now, o);
      case OpSubmit(_, _) => OrderOperationFollows(db, op, now, o);
      case OpReject(_) => OrderOperationFollows(db, op, now, o);
      case OpCancel(_) => OrderOperationFollows(db, op, now, o);
      case OpExpire => OrderOperationFollows(db, op, now, o);
      case _ =>
    }
  }

  lemma {:induction false} TerminalOrdersNeverMove(db: Db, events: seq<Event>, o: nat)
    requires Consistent(db) && o in db.orders && Terminal(db.orders[o].status)
    ensures o in Run(db, events).orders && Run(db, events).orders[o] == db.orders[o]
    decreases |events|
  {
    if events != [] {
      StepFollowsOrder(db, events[0].op, events[0].now, o);
      StepKeeps(db, events[0].op, events[0].now);
      TerminalOrdersNeverMove(Step(db, events[0].op, events[0].now), events[1..], o);
    }
  }

  /** A service keeps its customer, its purchase and its port row, whatever is deleted or cleaned up. */
  ghost predicate Retained(db: Db, after: Db, s: nat)
    requires s in db.services
  {
    && s in after.services
    && after.services[s].customer == db.services[s].customer
    && after.services[s].source == db.services[s].source
    && after.services[s].port == db.services[s].port
  }

  lemma ProvideRetains(db: Db, order: nat, now: int, range: Range, s: nat)
    requires KeysIssued(db) && s in db.services && order in db.orders && Provide(db, order, now, range).Ok?
    ensures Retained(db, Provide(db, order, now, range).value, s)
  {}

  lemma FulfilRetains(db: Db, op: Op, now: int, s: nat)
    requires Consistent(db) && s in db.services && op.OpFulfil? && Apply(db, op, now).Ok?
    ensures Retained(db, Step(db, op, now), s)
  {
    FulfilKeeps(db, now, op.order, op.range, op.applied);
    ProvideRetains(ExpirePending(db, now), op.order, now, op.range, s);
  }

  lemma OtherOperationRetains(db: Db, op: Op, now: int)
    requires Apply(db, op, now).Ok?
    requires op.OpCreateOrder? || op.OpSubmit? || op.OpReject? || op.OpCancel? || op.OpExpire? || op.OpAddCustomer?
          || op.OpAddPlan? || op.OpUpdatePlan? || op.OpTraffic?
    ensures Step(db, op, now).services == db.services
  {}

  lemma StepRetainsService(db: Db, op: Op, now: int, s: nat)
    requires Consistent(db) && s in db.services
    ensures Retained(db, Step(db, op, now), s)
  {
    if Apply(db, op, now).Ok? {
      if op.OpFulfil? {
        FulfilRetains(db, op, now, s);
      } else if op.OpCreatePort? || op.OpUpdatePort? || op.OpTogglePort? || op.OpDeletePort? {
        PortOperationKeeps(db, op, now);
      } else if op.OpStopLapsed? {
        StopLapsedKeeps(db, now);
      } else {
        OtherOperationRetains(db, op, now);
      }
    }
  }

  /** Over every run a service and its port survive, the port still pointing back to it. */
  lemma {:induction false} ServicesAreNeverLost(db: Db, events: seq<Event>, s: nat)
    requires Consistent(db) && s in db.services
    ensures Retained(db, Run(db, events), s)
    ensures var p := db.services[s].port;
            p.Some? && p.value in Run(db, events).ports && Run(db, events).ports[p.value].service == Some(s)
    decreases |events|
  {
    EveryRunConsistent(db, events);
    if events != [] {
      StepRetainsService(db, events[0].op, events[0].now, s);
      StepKeeps(db, events[0].op, events[0].now);
      ServicesAreNeverLost(Step(db, events[0].op, events[0].now), events[1..], s);
    } else {
      assert ServiceOk(db, s);
    }
  }

  /** A renewal under review always finds its service and that service's port. */
  lemma RenewalFindsItsService(db: Db, order: nat, now: int)
    requires Links(db) && order in db.orders && db.orders[order].kind.Renewal?
    ensures RenewService(db, order, now).Ok?
  {
    assert OrderOk(db, order);
    assert ServiceOk(db, db.orders[order].service.value);
  }

  lemma UnderReviewCannotExpire(db: Db, now: int, order: nat)
    requires Consistent(db) && order in db.orders && db.orders[order].status.Submitted?
    ensures Consistent(ExpirePending(db, now)) && ExpirePending(db, now).orders[order] == db.orders[order]
    ensures db.orders[order].customer in db.customers
  {
    ExpireKeeps(db, now);
    assert OrderOk(db, order);
  }

  lemma ProvidingSucceedsIff(db: Db, order: nat, now: int, range: Range)
    requires Links(db) && order in db.orders
    ensures Provide(db, order, now, range).Ok? <==>
            (db.orders[order].kind.NewPurchase? ==> Allocate(db.ports, range).Some?)
  {
    if db.orders[order].kind.Renewal? { RenewalFindsItsService(db, order, now); }
  }

  /** An order under review can be fulfilled unless it is a purchase and the port range is used up. */
  lemma FulfilSucceedsIff(db: Db, now: int, order: nat, range: Range)
    requires Consistent(db) && order in db.orders && db.orders[order].status.Submitted?
    ensures Fulfil(db, now, order, range, true).Ok? <==>
            (db.orders[order].kind.NewPurchase? ==> Allocate(db.ports, range).Some?)
  {
    UnderReviewCannotExpire(db, now, order);
    var expired := ExpirePending(db, now);
    ProvidingSucceedsIff(expired, order, now, range);
    if Provide(expired, order, now, range).Ok? {
      ApprovalKeeps(expired, order, now, range);
    }
  }

  /** The port of a service can be neither deleted nor cleaned up. */
  lemma ServicePortsAreProtected(db: Db, s: nat, now: int, applied: bool)
    requires Consistent(db) && s in db.services
    ensures db.services[s].port.Some?
    ensures DeletePort(db, now, db.services[s].port.value, applied).Err?
    ensures db.services[s].port.value !in LapsedFreePorts(db, now)
  {
    assert ServiceOk(db, s);
    LapsedFreePortsUnowned(db, now);
  }
}
