/** Traffic counted under a listen port that changes hands: when a bought service starts unused. */
module CommerceUsage {
  import opened Common
  import opened CommerceModel
  import opened CommerceInvariants

  /** What is counted against a service that has its port. */
  function UsageOfService(db: Db, s: nat): nat
    requires s in db.services && db.services[s].port.Some? && db.services[s].port.value in db.ports
  {
    UsageOf(db.usage, db.ports[db.services[s].port.value].listen)
  }

  /** Whatever has been counted was counted for a port that is still there. */
  predicate NoStaleUsage(db: Db) {
    forall l | l in db.usage && db.usage[l] > 0 :: ListenTaken(db.ports, l)
  }

  // ---------------------------------------------------------------------------------------------
  // What a new service starts with
  // ---------------------------------------------------------------------------------------------

  /** Stopping lapsed ports touches neither an owned port's number nor what is counted under it. */
  lemma StopLapsedKeepsUsage(db: Db, now: int, p: nat)
    requires ListenUnique(db.ports) && p in db.ports && p !in LapsedFreePorts(db, now)
    ensures var after := StopLapsedPorts(db, now);
            p in after.ports && after.ports[p].listen == db.ports[p].listen
            && UsageOf(after.usage, db.ports[p].listen) == UsageOf(db.usage, db.ports[p].listen)
  {
    assert forall g | g in LapsedFreePorts(db, now) :: g in db.ports && g != p;
  }

  lemma OpenedService(db: Db, id: nat, now: int, range: Range)
    requires id in db.orders && OpenService(db, id, now, range).Ok?
    ensures var after, s, p := OpenService(db, id, now, range).value, db.next + 1, db.next;
            && after.orders[id].service == Some(s) && s in after.services && after.services[s].port == Some(p)
            && p in after.ports && Some(after.ports[p].listen) == Allocate(db.ports, range)
            && after.usage == db.usage
  {}

  lemma OwnedPortStays(db: Db, now: int, s: nat)
    requires Consistent(db) && s in db.services
    ensures db.services[s].port.Some? && db.services[s].port.value in db.ports
    ensures db.services[s].port.value !in LapsedFreePorts(db, now)
  {
    assert ServiceOk(db, s);
    LapsedFreePortsUnowned(db, now);
  }

  /** A bought service starts with whatever is counted under the port number it is given. */
  lemma NewServiceInheritsUsage(before: Db, now: int, order: nat, range: Range)
    requires Consistent(before) && Fulfil(before, now, order, range, true).Ok? && before.orders[order].kind.NewPurchase?
    ensures var after := Fulfil(before, now, order, range, true).value;
            var s := after.orders[order].service;
            && s.Some? && s.value in after.services && after.services[s.value].port.Some?
            && after.services[s.value].port.value in after.ports
            && Allocate(before.ports, range).Some?
            && UsageOfService(after, s.value) == UsageOf(before.usage, Allocate(before.ports, range).value)
  {
    var db := ExpirePending(before, now);
    ExpireKeeps(before, now);
    ApprovalKeeps(db, order, now, range);
    OpenedService(db, order, now, range);
    var judged := Judge(OpenService(db, order, now, range).value, order, Approved, Fulfilled);
    var s := judged.orders[order].service.value;
    OwnedPortStays(judged, now, s);
    StopLapsedKeeps(judged, now);
    StopLapsedKeepsUsage(judged, now, judged.services[s].port.value);
  }

  lemma AllocatedIsUnused(db: Db, range: Range)
    requires NoStaleUsage(db) && Allocate(db.ports, range).Some?
    ensures UsageOf(db.usage, Allocate(db.ports, range).value) == 0
  {
    assert !ListenTaken(db.ports, Allocate(db.ports, range).value);
  }

  // ---------------------------------------------------------------------------------------------
  // What leaves usage behind
  // ---------------------------------------------------------------------------------------------

  /** Moving a port to another number leaves what was counted under the old one behind, if there was anything. */
  lemma EditLeavesNoUsageIff(db: Db, port: nat, listen: int, expires: Option<int>, traffic: Option<nat>)
    requires ListenUnique(db.ports) && Editable(db, port, listen) && NoStaleUsage(db)
    ensures NoStaleUsage(EditTerms(db, port, listen, expires, traffic)) <==>
            listen == db.ports[port].listen || UsageOf(db.usage, db.ports[port].listen) == 0
  {
    var from, after := db.ports[port].listen, EditTerms(db, port, listen, expires, traffic);
    if listen == from || UsageOf(db.usage, from) == 0 {
      forall l | l in after.usage && after.usage[l] > 0 ensures ListenTaken(after.ports, l) {
        var p :| p in db.ports && db.ports[p].listen == l;
        assert p in after.ports && after.ports[p].listen == l;
      }
    } else {
      assert from in after.usage && after.usage[from] > 0;
      assert !ListenTaken(after.ports, from);
    }
  }

  /** More ports, or the same numbers under other terms, keep all usage accounted for. */
  lemma SamePortsKeepUsage(db: Db, ports: map<nat, PortRow>)
    requires NoStaleUsage(db)
    requires forall p | p in db.ports :: p in ports && ports[p].listen == db.ports[p].listen
    ensures NoStaleUsage(db.(ports := ports))
  {
    forall l | l in db.usage && db.usage[l] > 0 ensures ListenTaken(ports, l) {
      var p :| p in db.ports && db.ports[p].listen == l;
      assert p in ports && ports[p].listen == l;
    }
  }

  lemma DropKeepsNoStale(db: Db, gone: set<nat>)
    requires NoStaleUsage(db)
    ensures NoStaleUsage(DropPorts(db, gone))
  {
    var after := DropPorts(db, gone);
    forall l | l in after.usage && after.usage[l] > 0 ensures ListenTaken(after.ports, l) {
      var p :| p in db.ports && db.ports[p].listen == l;
      assert p in after.ports && after.ports[p].listen == l;
    }
  }

  lemma StopLapsedKeepsNoStale(db: Db, now: int)
    requires NoStaleUsage(db)
    ensures NoStaleUsage(StopLapsedPorts(db, now))
  {
    var kept := DropPorts(db, LapsedFreePorts(db, now));
    DropKeepsNoStale(db, LapsedFreePorts(db, now));
    SamePortsKeepUsage(kept, DisableLapsed(kept.ports, now));
  }

  lemma RenewKeepsNoStale(db: Db, id: nat, now: int)
    requires id in db.orders && NoStaleUsage(db) && RenewService(db, id, now).Ok?
    ensures NoStaleUsage(RenewService(db, id, now).value)
  {
    var after := RenewService(db, id, now).value;
    SamePortsKeepUsage(db, after.ports);
    forall l | l in after.usage && after.usage[l] > 0 ensures ListenTaken(after.ports, l) {
      assert l in db.usage && db.usage[l] > 0;
      assert ListenTaken(db.(ports := after.ports).ports, l);
    }
  }

  lemma ProvideKeepsNoStale(db: Db, order: nat, now: int, range: Range)
    requires KeysIssued(db) && order in db.orders && NoStaleUsage(db) && Provide(db, order, now, range).Ok?
    ensures NoStaleUsage(Provide(db, order, now, range).value)
  {
    if db.orders[order].kind.NewPurchase? {
      SamePortsKeepUsage(db, Provide(db, order, now, range).value.ports);
    } else {
      RenewKeepsNoStale(db, order, now);
    }
  }

  lemma FulfilKeepsNoStale(before: Db, now: int, order: nat, range: Range, applied: bool)
    requires KeysIssued(before) && NoStaleUsage(before) && Fulfil(before, now, order, range, applied).Ok?
    ensures NoStaleUsage(Fulfil(before, now, order, range, applied).value)
  {
    var db := ExpirePending(before, now);
    ProvideKeepsNoStale(db, order, now, range);
    StopLapsedKeepsNoStale(Judge(Provide(db, order, now, range).value, order, Approved, Fulfilled), now);
  }

  lemma ToggleKeepsNoStale(db: Db, now: int, port: nat)
    requires NoStaleUsage(db) && port in db.ports
    ensures NoStaleUsage(StopLapsedPorts(db.(ports := db.ports[port := db.ports[port].(enabled := !db.ports[port].enabled)]), now))
  {
    var ports := db.ports[port := db.ports[port].(enabled := !db.ports[port].enabled)];
    SamePortsKeepUsage(db, ports);
    StopLapsedKeepsNoStale(db.(ports := ports), now);
  }

  lemma NewPortKeepsNoStale(db: Db, now: int, row: PortRow)
    requires KeysIssued(db) && NoStaleUsage(db)
    ensures NoStaleUsage(StopLapsedPorts(AddPort(db, row), now))
  {
    SamePortsKeepUsage(db, AddPort(db, row).ports);
    StopLapsedKeepsNoStale(AddPort(db, row), now);
  }

  lemma PortOperationKeepsNoStale(db: Db, op: Op, now: int)
    requires Consistent(db) && NoStaleUsage(db) && Apply(db, op, now).Ok? && !LeavesUsage(db, op, now)
    requires op.OpCreatePort? || op.OpUpdatePort? || op.OpTogglePort? || op.OpDeletePort?
    ensures NoStaleUsage(Apply(db, op, now).value)
  {
    match op
    case OpCreatePort(listen, expires, traffic, range, _) =>
      var chosen := if listen.Some? then listen else Allocate(db.ports, range);
      NewPortKeepsNoStale(db, now, PortRow(chosen.value, None, None, None, expires, traffic, true));
    case OpUpdatePort(port, listen, expires, traffic, _) =>
      EditLeavesNoUsageIff(db, port, listen, expires, traffic);
      StopLapsedKeepsNoStale(EditTerms(db, port, listen, expires, traffic), now);
    case OpTogglePort(port, _) =>
      ToggleKeepsNoStale(db, now, port);
    case OpDeletePort(port, _) =>
      DropKeepsNoStale(db, {port});
      StopLapsedKeepsNoStale(DropPorts(db, {port}), now);
  }

  // ---------------------------------------------------------------------------------------------
  // Runs
  // ---------------------------------------------------------------------------------------------

  /** The operation moves a used port to another number, or counts traffic under a number no port has. */
  predicate LeavesUsage(db: Db, op: Op, now: int) {
    match op
    case OpUpdatePort(port, listen, _, _, applied) =>
      applied && Editable(db, port, listen) && listen != db.ports[port].listen && UsageOf(db.usage, db.ports[port].listen) > 0
    case OpTraffic(usage) => !NoStaleUsage(db.(usage := usage))
    case _ => false
  }

  predicate TouchesPorts(op: Op) {
    op.OpFulfil? || op.OpStopLapsed? || op.OpCreatePort? || op.OpUpdatePort? || op.OpTogglePort? || op.OpDeletePort?
  }

  lemma OtherOperationsKeepPorts(db: Db, op: Op, now: int)
    requires !TouchesPorts(op)
    ensures Step(db, op, now).ports == db.ports
    ensures Step(db, op, now).usage == if op.OpTraffic? then op.usage else db.usage
  {}

  lemma StepKeepsNoStale(db: Db, op: Op, now: int)
    requires Consistent(db) && NoStaleUsage(db) && !LeavesUsage(db, op, now)
    ensures NoStaleUsage(Step(db, op, now))
  {
    if !TouchesPorts(op) {
      OtherOperationsKeepPorts(db, op, now);
    } else if Apply(db, op, now).Ok? {
      match op
      case OpFulfil(order, range, applied) => FulfilKeepsNoStale(db, now, order, range, applied);
      case OpStopLapsed => StopLapsedKeepsNoStale(db, now);
      case _ => PortOperationKeepsNoStale(db, op, now);
    }
  }

  predicate LeavesNoUsage(db: Db, events: seq<Event>)
    decreases |events|
  {
    events == [] || (!LeavesUsage(db, events[0].op, events[0].now)
                     && LeavesNoUsage(Step(db, events[0].op, events[0].now), events[1..]))
  }

  lemma {:induction false} RunKeepsNoStale(db: Db, events: seq<Event>)
    requires Consistent(db) && NoStaleUsage(db) && LeavesNoUsage(db, events)
    ensures Consistent(Run(db, events)) && NoStaleUsage(Run(db, events))
    decreases |events|
  {
    if events != [] {
      StepKeeps(db, events[0].op, events[0].now);
      StepKeepsNoStale(db, events[0].op, events[0].now);
      RunKeepsNoStale(Step(db, events[0].op, events[0].now), events[1..]);
    }
  }

  /** After any run in which no used port was given another number and traffic was counted for existing ports only, a
      service bought next starts unused. */
  lemma BoughtServicesStartUnused(db: Db, events: seq<Event>, now: int, order: nat, range: Range)
    requires Consistent(db) && NoStaleUsage(db) && LeavesNoUsage(db, events)
    requires Fulfil(Run(db, events), now, order, range, true).Ok? && Run(db, events).orders[order].kind.NewPurchase?
    ensures var after := Fulfil(Run(db, events), now, order, range, true).value;
            var s := after.orders[order].service;
            && s.Some? && s.value in after.services && after.services[s.value].port.Some?
            && after.services[s.value].port.value in after.ports
            && UsageOfService(after, s.value) == 0
  {
    RunKeepsNoStale(db, events);
    NewServiceInheritsUsage(Run(db, events), now, order, range);
    AllocatedIsUnused(Run(db, events), range);
  }

  const USED := EMPTY.(ports := map[1 := PortRow(1000, None, None, None, None, None, true)], usage := map[1000 := 5], next := 2)

  lemma UsedIsConsistent()
    ensures Consistent(USED) && NoStaleUsage(USED)
  {
    assert USED.ports[1].listen == 1000;
  }

  lemma MovingKeepsUsage(now: int)
    ensures var moved := EditTerms(USED, 1, 2000, None, None);
            Editable(USED, 1, 2000) && StopLapsedPorts(moved, now).ports == moved.ports
            && UsageOf(StopLapsedPorts(moved, now).usage, 1000) == 5
  {
    assert LapsedFreePorts(EditTerms(USED, 1, 2000, None, None), now) == {};
  }

  /** A used port is moved, and its old number is handed out next with its usage. */
  lemma MovedPortPassesItsUsageOn(now: int)
    ensures Consistent(USED) && NoStaleUsage(USED)
    ensures var moved := Step(USED, OpUpdatePort(1, 2000, None, None, true), now);
            && Allocate(moved.ports, Range(Some(1000), Some(1000))) == Some(1000)
            && UsageOf(moved.usage, 1000) == 5
  {
    UsedIsConsistent();
    MovingKeepsUsage(now);
    assert !ListenTaken(EditTerms(USED, 1, 2000, None, None).ports, 1000);
  }
}
