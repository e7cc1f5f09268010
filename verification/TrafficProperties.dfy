/** Batched counting equals line-by-line counting, and the two tables always agree. */
module TrafficProperties {
  import opened Common
  import opened TrafficModel

  // ---------------------------------------------------------------------------------------------
  // Batching
  // ---------------------------------------------------------------------------------------------

  lemma AddTotalsCommutes(t: map<int, Totals>, a: int, x: Point, s: Option<int>, b: int, y: Point, u: Option<int>)
    ensures AddTotals(AddTotals(t, a, x, s), b, y, u) == AddTotals(AddTotals(t, b, y, u), a, x, s)
  {
    if a != b {
      assert t[a := AddTotals(t, a, x, s)[a]][b := AddTotals(t, b, y, u)[b]]
          == t[b := AddTotals(t, b, y, u)[b]][a := AddTotals(t, a, x, s)[a]];
    }
  }

  lemma AddDailyCommutes(t: map<Day, Point>, a: Day, x: Point, b: Day, y: Point)
    ensures AddDaily(AddDaily(t, a, x), b, y) == AddDaily(AddDaily(t, b, y), a, x)
  {}

  lemma AddCommutes(t: Tables, a: Day, x: Point, s: Option<int>, b: Day, y: Point, u: Option<int>)
    ensures Add(Add(t, a, x, s), b, y, u) == Add(Add(t, b, y, u), a, x, s)
  {
    AddTotalsCommutes(t.totals, a.port, x, s, b.port, y, u);
    AddDailyCommutes(t.daily, a, x, b, y);
  }

  lemma AddMerges(t: Tables, a: Day, x: Point, s: Option<int>, y: Point, u: Option<int>)
    ensures Add(Add(t, a, x, s), a, y, u) == Add(t, a, Plus(x, y), Later(s, u))
  {
    var l, r := Add(Add(t, a, x, s), a, y, u), Add(t, a, Plus(x, y), Later(s, u));
    assert l.totals == r.totals;
    assert l.daily == r.daily;
  }

  lemma GroupsCommute(t: Tables, a: Day, g: Group, b: Day, h: Group)
    ensures AddGroup(AddGroup(t, a, g), b, h) == AddGroup(AddGroup(t, b, h), a, g)
  {
    AddCommutes(t, a, Point(g.connections, 0, 0), Some(g.lastSeen), b, Point(h.connections, 0, 0), Some(h.lastSeen));
  }

  /** Any group may be upserted first. */
  lemma {:induction false} GroupOrderIrrelevant(t: Tables, groups: map<Day, Group>, day: Day)
    requires day in groups
    ensures AddGroups(t, groups) == AddGroups(AddGroup(t, day, groups[day]), groups - {day})
    decreases |groups|
  {
    var first :| first in groups && AddGroups(t, groups) == AddGroups(AddGroup(t, first, groups[first]), groups - {first});
    if first != day {
      var g, h := groups[first], groups[day];
      var rest := groups - {first};
      GroupOrderIrrelevant(AddGroup(t, first, g), rest, day);
      GroupOrderIrrelevant(AddGroup(t, day, h), groups - {day}, first);
      GroupsCommute(t, first, g, day, h);
      assert rest - {day} == (groups - {day}) - {first};
    }
  }

  lemma {:induction false} AddSlidesPastGroups(t: Tables, groups: map<Day, Group>, day: Day, x: Point, s: Option<int>)
    ensures AddGroups(Add(t, day, x, s), groups) == Add(AddGroups(t, groups), day, x, s)
    decreases |groups|
  {
    if groups != map[] {
      var first :| first in groups;
      var g := groups[first];
      GroupOrderIrrelevant(t, groups, first);
      GroupOrderIrrelevant(Add(t, day, x, s), groups, first);
      AddCommutes(t, day, x, s, first, Point(g.connections, 0, 0), Some(g.lastSeen));
      AddSlidesPastGroups(AddGroup(t, first, g), groups - {first}, day, x, s);
    }
  }

  lemma UpsertWithoutDay(t: Tables, groups: map<Day, Group>, day: Day, g: Group)
    requires day !in groups
    ensures AddGroups(t, groups[day := g]) == AddGroup(AddGroups(t, groups), day, g)
  {
    GroupOrderIrrelevant(t, groups[day := g], day);
    assert groups[day := g] - {day} == groups;
    AddSlidesPastGroups(t, groups, day, Point(g.connections, 0, 0), Some(g.lastSeen));
  }

  /** Putting one more line into its group is adding that line to the tables. */
  lemma BumpAddsOneLine(t: Tables, groups: map<Day, Group>, hit: Hit)
    ensures AddGroups(t, Bump(groups, hit)) == Add(AddGroups(t, groups), hit.day, ONE, Some(hit.seenAt))
  {
    var others := groups - {hit.day};
    if hit.day in groups {
      var g, h := groups[hit.day], Bump(groups, hit)[hit.day];
      assert groups == others[hit.day := g] && Bump(groups, hit) == others[hit.day := h];
      UpsertWithoutDay(t, others, hit.day, g);
      UpsertWithoutDay(t, others, hit.day, h);
      AddMerges(AddGroups(t, others), hit.day, Point(g.connections, 0, 0), Some(g.lastSeen), ONE, Some(hit.seenAt));
    } else {
      UpsertWithoutDay(t, groups, hit.day, Group(1, hit.seenAt));
    }
  }

  lemma {:induction false} CountInParts(t: Tables, a: seq<Option<Hit>>, b: seq<Option<Hit>>)
    ensures CountLines(t, a + b) == CountLines(CountLines(t, a), b)
  {
    if b == [] {
      assert a + b == a;
    } else {
      assert (a + b)[..|a + b| - 1] == a + b[..|b| - 1];
      CountInParts(t, a, b[..|b| - 1]);
    }
  }

  /** Reading a growing file in two steps, cut between lines, counts what reading it once would. */
  lemma SplitSyncEqualsOneSync(t: Tables, c: Cursor, inode: string, part: seq<Option<Hit>>, more: seq<Option<Hit>>)
    requires c.inode != inode || c.offset <= |part|
    ensures var (t1, c1) := SyncLog(t, c, inode, part);
            SyncLog(t1, c1, inode, part + more) == SyncLog(t, c, inode, part + more)
    ensures var (t1, c1) := SyncLog(t, c, inode, part);
            SyncLog(t1, c1, inode, part) == (t1, c1)
  {
    var start := if c.inode != inode then 0 else c.offset;
    assert (part + more)[|part|..] == more;
    assert Unread(c, inode, part + more) == part[start..] + more;
    assert Unread(c, inode, part) == part[start..];
    CountInParts(t, part[start..], more);
    assert part[|part|..] == [];
  }

  // ---------------------------------------------------------------------------------------------
  // The two tables agree
  // ---------------------------------------------------------------------------------------------

  /** Every dated row lies in the `length` days from `first`, and each port's totals are the sum of its days. */
  ghost predicate Agree(t: Tables, first: int, length: nat) {
    && (forall d | d in t.daily :: first <= d.date < first + length)
    && (forall port {:trigger TotalsOf(t.totals, port)} ::
          Counted(TotalsOf(t.totals, port)) == Sum(t.daily, port, first, length))
  }

  lemma {:induction false} SumFrame(a: map<Day, Point>, b: map<Day, Point>, port: int, first: int, length: nat)
    requires forall d | first <= d < first + length :: PointOf(a, Day(port, d)) == PointOf(b, Day(port, d))
    ensures Sum(a, port, first, length) == Sum(b, port, first, length)
  {
    if length > 0 { SumFrame(a, b, port, first, length - 1); }
  }

  lemma {:induction false} SumAdd(daily: map<Day, Point>, day: Day, amount: Point, first: int, length: nat)
    requires first <= day.date < first + length
    ensures Sum(daily[day := Plus(PointOf(daily, day), amount)], day.port, first, length)
         == Plus(Sum(daily, day.port, first, length), amount)
  {
    var after := daily[day := Plus(PointOf(daily, day), amount)];
    if day.date == first + length - 1 {
      SumFrame(daily, after, day.port, first, length - 1);
    } else {
      SumAdd(daily, day, amount, first, length - 1);
    }
  }

  lemma AddAgrees(t: Tables, day: Day, amount: Point, seen: Option<int>, first: int, length: nat)
    requires Agree(t, first, length) && first <= day.date < first + length
    ensures Agree(Add(t, day, amount, seen), first, length)
  {
    var after := Add(t, day, amount, seen);
    forall port {:trigger TotalsOf(after.totals, port)}
      ensures Counted(TotalsOf(after.totals, port)) == Sum(after.daily, port, first, length)
    {
      assert Counted(TotalsOf(t.totals, port)) == Sum(t.daily, port, first, length);
      if port == day.port {
        SumAdd(t.daily, day, amount, first, length);
      } else {
        SumFrame(t.daily, after.daily, port, first, length);
      }
    }
  }

  lemma {:induction false} LinesAgree(t: Tables, lines: seq<Option<Hit>>, first: int, length: nat)
    requires Agree(t, first, length)
    requires forall l | l in lines && l.Some? :: first <= l.value.day.date < first + length
    ensures Agree(CountLines(t, lines), first, length)
  {
    if lines != [] {
      var init, last := lines[..|lines| - 1], lines[|lines| - 1];
      assert last in lines && forall l | l in init :: l in lines;
      LinesAgree(t, init, first, length);
      if last.Some? {
        AddAgrees(CountLines(t, init), last.value.day, ONE, Some(last.value.seenAt), first, length);
      }
    }
  }

  lemma {:induction false} BytesAgree(t: Tables, date: int, now: int, stats: seq<Drain>, first: int, length: nat)
    requires Agree(t, first, length) && first <= date < first + length
    ensures Agree(CountBytes(t, date, now, stats), first, length)
  {
    if stats != [] {
      var d := stats[|stats| - 1];
      BytesAgree(t, date, now, stats[..|stats| - 1], first, length);
      AddAgrees(CountBytes(t, date, now, stats[..|stats| - 1]), Day(d.port, date), Point(0, d.sent, d.received),
                if d.sent != 0 || d.received != 0 then Some(now) else None, first, length);
    }
  }

  lemma {:induction false} SumReset(t: Tables, port: int, first: int, length: nat)
    ensures Sum(ResetUsage(t, port).daily, port, first, length)
         == Point(Sum(t.daily, port, first, length).connections, 0, 0)
  {
    if length > 0 { SumReset(t, port, first, length - 1); }
  }

  lemma ResetAgrees(t: Tables, port: int, first: int, length: nat)
    requires Agree(t, first, length)
    ensures Agree(ResetUsage(t, port), first, length)
  {
    var after := ResetUsage(t, port);
    forall p {:trigger TotalsOf(after.totals, p)}
      ensures Counted(TotalsOf(after.totals, p)) == Sum(after.daily, p, first, length)
    {
      assert Counted(TotalsOf(t.totals, p)) == Sum(t.daily, p, first, length);
      if p == port { SumReset(t, port, first, length); } else { SumFrame(t.daily, after.daily, p, first, length); }
    }
  }

  lemma {:induction false} SumNothing(daily: map<Day, Point>, port: int, first: int, length: nat)
    requires forall d | d in daily :: d.port != port
    ensures Sum(daily, port, first, length) == NOTHING
  {
    if length > 0 { SumNothing(daily, port, first, length - 1); }
  }

  lemma DropAgrees(t: Tables, port: int, first: int, length: nat)
    requires Agree(t, first, length)
    ensures Agree(DropPort(t, port), first, length)
  {
    var after := DropPort(t, port);
    forall p {:trigger TotalsOf(after.totals, p)}
      ensures Counted(TotalsOf(after.totals, p)) == Sum(after.daily, p, first, length)
    {
      assert Counted(TotalsOf(t.totals, p)) == Sum(t.daily, p, first, length);
      if p == port { SumNothing(after.daily, port, first, length); } else { SumFrame(t.daily, after.daily, p, first, length); }
    }
  }

  /** The dates an operation writes all lie in the given days. */
  predicate DatedWithin(op: Op, first: int, length: nat) {
    match op
    case OpLog(lines) => forall l | l in lines && l.Some? :: first <= l.value.day.date < first + length
    case OpStats(date, _, _) => first <= date < first + length
    case _ => true
  }

  /** Over every run of syncs, resets, renewals and deletions the totals stay the sums of the days. */
  lemma {:induction false} TotalsAreSumsOfDays(t: Tables, ops: seq<Op>, first: int, length: nat)
    requires Agree(t, first, length)
    requires forall op | op in ops :: DatedWithin(op, first, length)
    ensures Agree(Run(t, ops), first, length)
  {
    if ops != [] {
      var init, op := ops[..|ops| - 1], ops[|ops| - 1];
      assert op in ops && forall o | o in init :: o in ops;
      TotalsAreSumsOfDays(t, init, first, length);
      match op
      case OpLog(lines) => LinesAgree(Run(t, init), lines, first, length);
      case OpStats(date, now, stats) => BytesAgree(Run(t, init), date, now, stats, first, length);
      case OpReset(port) => ResetAgrees(Run(t, init), port, first, length);
      case OpDelete(port) => DropAgrees(Run(t, init), port, first, length);
    }
  }

  lemma EmptyTablesAgree(first: int, length: nat)
    ensures Agree(Tables(map[], map[]), first, length)
  {
    forall port {:trigger TotalsOf(map[], port)}
      ensures Counted(TotalsOf(map[], port)) == Sum(map[], port, first, length)
    {
      SumNothing(map[], port, first, length);
    }
  }

  // ---------------------------------------------------------------------------------------------
  // Series
  // ---------------------------------------------------------------------------------------------

  /** The sum of the first `n` points. */
  function SumPoints(s: seq<Point>, n: nat): Point
    requires n <= |s|
  {
    if n == 0 then NOTHING else Plus(SumPoints(s, n - 1), s[n - 1])
  }

  /** The first `n` ports together on one date. */
  function FleetOn(daily: map<Day, Point>, ports: seq<int>, n: nat, date: int): Point
    requires n <= |ports|
  {
    if n == 0 then NOTHING else Plus(FleetOn(daily, ports, n - 1, date), PointOf(daily, Day(ports[n - 1], date)))
  }

  /** The first `n` ports together over a number of days. */
  function FleetSum(daily: map<Day, Point>, ports: seq<int>, n: nat, first: int, length: nat): Point
    requires n <= |ports|
  {
    if n == 0 then NOTHING
    else Plus(FleetSum(daily, ports, n - 1, first, length), Sum(daily, ports[n - 1], first, length))
  }

  lemma {:induction false} SeriesSum(daily: map<Day, Point>, port: int, first: int, s: seq<Point>, n: nat)
    requires n <= |s| && forall i | 0 <= i < n :: s[i] == PointOf(daily, Day(port, first + i))
    ensures SumPoints(s, n) == Sum(daily, port, first, n)
  {
    if n > 0 { SeriesSum(daily, port, first, s, n - 1); }
  }

  lemma {:induction false} FleetSumNoDays(daily: map<Day, Point>, ports: seq<int>, n: nat, first: int)
    requires n <= |ports|
    ensures FleetSum(daily, ports, n, first, 0) == NOTHING
  {
    if n > 0 { FleetSumNoDays(daily, ports, n - 1, first); }
  }

  lemma PlusExchange(a: Point, b: Point, c: Point, d: Point)
    ensures Plus(Plus(a, b), Plus(c, d)) == Plus(Plus(a, c), Plus(b, d))
  {}

  lemma PlusZero(a: Point, z: Point)
    requires z.connections == 0 && z.sent == 0 && z.received == 0
    ensures Plus(a, z) == a
  {}

  lemma {:induction false} FleetSumLastDay(daily: map<Day, Point>, ports: seq<int>, n: nat, first: int, length: nat)
    requires n <= |ports| && length > 0
    ensures FleetSum(daily, ports, n, first, length)
         == Plus(FleetSum(daily, ports, n, first, length - 1), FleetOn(daily, ports, n, first + length - 1))
  {
    if n == 0 {
      PlusZero(FleetSum(daily, ports, n, first, length - 1), FleetOn(daily, ports, n, first + length - 1));
    } else {
      var port, last := ports[n - 1], first + length - 1;
      var a, b := FleetSum(daily, ports, n - 1, first, length - 1), FleetOn(daily, ports, n - 1, last);
      var c, d := Sum(daily, port, first, length - 1), PointOf(daily, Day(port, last));
      calc {
        FleetSum(daily, ports, n, first, length);
        Plus(FleetSum(daily, ports, n - 1, first, length), Sum(daily, port, first, length));
        { FleetSumLastDay(daily, ports, n - 1, first, length); }
        Plus(Plus(a, b), Plus(c, d));
        { PlusExchange(a, b, c, d); }
        Plus(Plus(a, c), Plus(b, d));
        { assert Plus(a, c) == FleetSum(daily, ports, n, first, length - 1);
          assert Plus(b, d) == FleetOn(daily, ports, n, last); }
        Plus(FleetSum(daily, ports, n, first, length - 1), FleetOn(daily, ports, n, last));
      }
    }
  }

  /** Adding up the fleet's days gives what adding up the ports' sums gives. */
  lemma {:induction false} FleetSumsExchange(daily: map<Day, Point>, ports: seq<int>, first: int, fleet: seq<Point>, n: nat)
    requires n <= |fleet| && forall i | 0 <= i < n :: fleet[i] == FleetOn(daily, ports, |ports|, first + i)
    ensures SumPoints(fleet, n) == FleetSum(daily, ports, |ports|, first, n)
  {
    if n == 0 {
      FleetSumNoDays(daily, ports, |ports|, first);
    } else {
      FleetSumsExchange(daily, ports, first, fleet, n - 1);
      FleetSumLastDay(daily, ports, |ports|, first, n);
    }
  }

  lemma {:induction false} SumOfSums(daily: map<Day, Point>, ports: seq<int>, first: int, length: nat, sums: seq<Point>, n: nat)
    requires n <= |ports| == |sums| && forall p | 0 <= p < n :: sums[p] == Sum(daily, ports[p], first, length)
    ensures SumPoints(sums, n) == FleetSum(daily, ports, n, first, length)
  {
    if n > 0 { SumOfSums(daily, ports, first, length, sums, n - 1); }
  }
}
