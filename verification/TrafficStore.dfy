/** The traffic tables as mutable state, and the console's daily series. */
module TrafficStore {
  import opened Common
  import opened TrafficModel
  import opened TrafficProperties

  class Store {
    var totals: map<int, Totals>
    var daily: map<Day, Point>
    var cursor: Cursor

    constructor ()
      ensures Snapshot() == Tables(map[], map[]) && cursor == Cursor("", 0)
    {
      totals, daily, cursor := map[], map[], Cursor("", 0);
    }

    function Snapshot(): Tables
      reads this
    {
      Tables(totals, daily)
    }

    /** The two upserts of one group. */
    method Upsert(day: Day, amount: Point, seen: Option<int>)
      modifies this`totals, this`daily
      ensures Snapshot() == Add(old(Snapshot()), day, amount, seen)
    {
      if day.port in totals {
        var row := totals[day.port];
        totals := totals[day.port := Totals(row.connections + amount.connections, row.sent + amount.sent,
                                            row.received + amount.received, Later(row.lastSeen, seen))];
      } else {
        totals := totals[day.port := Totals(amount.connections, amount.sent, amount.received, seen)];
      }
      if day in daily {
        daily := daily[day := Plus(daily[day], amount)];
      } else {
        daily := daily[day := amount];
      }
    }

    /** Read what is new in the log, group it by port and day, and upsert the groups in whatever order they come. */
    method SyncAccessLog(inode: string, log: seq<Option<Hit>>) returns (groupCount: nat)
      modifies this
      ensures (Snapshot(), cursor) == SyncLog(old(Snapshot()), old(cursor), inode, log)
    {
      var offset := if cursor.inode != inode || |log| < cursor.offset then 0 else cursor.offset;
      assert log[0..] == log;
      var groups := GroupLines(log[offset..], Snapshot());
      groupCount := |groups|;
      UpsertGroups(groups);
      cursor := Cursor(inode, |log|);
    }

    method UpsertGroups(groups: map<Day, Group>)
      modifies this`totals, this`daily
      ensures Snapshot() == AddGroups(old(Snapshot()), groups)
    {
      var left := groups;
      while left != map[]
        invariant AddGroups(Snapshot(), left) == AddGroups(old(Snapshot()), groups)
        decreases |left|
      {
        var day :| day in left;
        GroupOrderIrrelevant(Snapshot(), left, day);
        Upsert(day, Point(left[day].connections, 0, 0), Some(left[day].lastSeen));
        left := left - {day};
      }
    }

    method SyncStats(date: int, now: int, stats: seq<Drain>)
      modifies this`totals, this`daily
      ensures Snapshot() == CountBytes(old(Snapshot()), date, now, stats)
    {
      for i := 0 to |stats|
        invariant Snapshot() == CountBytes(old(Snapshot()), date, now, stats[..i])
      {
        CountOneMore(old(Snapshot()), date, now, stats, i);
        SyncOne(date, now, stats[i]);
      }
      assert stats[..|stats|] == stats;
    }

    method SyncOne(date: int, now: int, d: Drain)
      modifies this`totals, this`daily
      ensures Snapshot() == CountDrain(old(Snapshot()), date, now, d)
    {
      Upsert(Day(d.port, date), Point(0, d.sent, d.received),
             if d.sent != 0 || d.received != 0 then Some(now) else None);
    }

    method ResetPortUsage(port: int)
      modifies this`totals, this`daily
      ensures Snapshot() == ResetUsage(old(Snapshot()), port)
    {
      if port in totals {
        totals := totals[port := totals[port].(sent := 0, received := 0)];
      }
      daily := map d | d in daily :: if d.port == port then daily[d].(sent := 0, received := 0) else daily[d];
      assert totals == ResetUsage(old(Snapshot()), port).totals;
    }

    method DeletePortTraffic(port: int)
      modifies this`totals, this`daily
      ensures Snapshot() == DropPort(old(Snapshot()), port)
    {
      totals := totals - {port};
      daily := map d | d in daily && d.port != port :: daily[d];
      assert totals == DropPort(old(Snapshot()), port).totals;
    }

    /** Points for one port on consecutive days, with their sum. */
    method PortSeries(port: int, first: int, days: nat) returns (series: seq<Point>, sum: Point)
      ensures |series| == days && forall i | 0 <= i < days :: series[i] == PointOf(daily, Day(port, first + i))
      ensures sum == Sum(daily, port, first, days)
    {
      series, sum := [], NOTHING;
      for i := 0 to days
        invariant |series| == i && forall k | 0 <= k < i :: series[k] == PointOf(daily, Day(port, first + k))
        invariant sum == Sum(daily, port, first, i)
      {
        var point := PointOf(daily, Day(port, first + i));
        series := series + [point];
        sum := Plus(sum, point);
      }
    }

    /** The console's window: at most 30 days ending today, one aligned series per port, and the fleet's. `ranking` lists
        the ports by their bytes, those of equal traffic in the order given. */
    method QuerySeries(requested: int, today: int, ports: seq<int>)
      returns (first: int, series: seq<seq<Point>>, sums: seq<Point>, fleet: seq<Point>, fleetSum: Point, ranking: seq<nat>)
      ensures 1 <= |fleet| <= 30 && first + |fleet| - 1 == today && (1 <= requested <= 30 ==> |fleet| == requested)
      ensures |series| == |sums| == |ports|
      ensures forall p | 0 <= p < |ports| ::
                |series[p]| == |fleet| && sums[p] == SumPoints(series[p], |fleet|) == Sum(daily, ports[p], first, |fleet|)
      ensures forall p, i | 0 <= p < |ports| && 0 <= i < |fleet| :: series[p][i] == PointOf(daily, Day(ports[p], first + i))
      ensures forall i | 0 <= i < |fleet| :: fleet[i] == FleetOn(daily, ports, |ports|, first + i)
      ensures fleetSum == SumPoints(fleet, |fleet|) == SumPoints(sums, |ports|)
      ensures Bytes(fleetSum) == SumBytes(fleet, |fleet|) == SumBytes(sums, |ports|)
      ensures IsRanking(sums, ranking)
    {
      var days: nat := if requested < 1 then 1 else if requested > 30 then 30 else requested;
      first := today - (days - 1);
      fleet := seq(days, i => NOTHING);
      series, sums := [], [];
      for p := 0 to |ports|
        invariant |series| == |sums| == p && |fleet| == days
        invariant forall k | 0 <= k < p :: |series[k]| == days && sums[k] == Sum(daily, ports[k], first, days)
        invariant forall k, i | 0 <= k < p && 0 <= i < days :: series[k][i] == PointOf(daily, Day(ports[k], first + i))
        invariant forall i | 0 <= i < days :: fleet[i] == FleetOn(daily, ports, p, first + i)
      {
        var points, sum := PortSeries(ports[p], first, days);
        fleet := AddSeries(fleet, points);
        series, sums := series + [points], sums + [sum];
      }
      fleetSum := SumSeries(fleet);
      FleetSumsExchange(daily, ports, first, fleet, days);
      SumOfSums(daily, ports, first, days, sums, |ports|);
      forall p | 0 <= p < |ports| ensures sums[p] == SumPoints(series[p], days) {
        SeriesSum(daily, ports[p], first, series[p], days);
      }
      BytesOfSum(fleet, days);
      BytesOfSum(sums, |ports|);
      ranking := Ranked(sums, |sums|);
      RankedIsRanking(sums, |sums|);
    }
  }

  lemma CountOneMore(t: Tables, date: int, now: int, stats: seq<Drain>, i: nat)
    requires i < |stats|
    ensures CountBytes(t, date, now, stats[..i + 1]) == CountDrain(CountBytes(t, date, now, stats[..i]), date, now, stats[i])
  {
    assert stats[..i + 1][..i] == stats[..i] && stats[..i + 1][i] == stats[i];
  }

  function Bytes(p: Point): nat {
    p.sent + p.received
  }

  function SumBytes(s: seq<Point>, n: nat): nat
    requires n <= |s|
  {
    if n == 0 then 0 else SumBytes(s, n - 1) + Bytes(s[n - 1])
  }

  lemma {:induction false} BytesOfSum(s: seq<Point>, n: nat)
    requires n <= |s|
    ensures Bytes(SumPoints(s, n)) == SumBytes(s, n)
  {
    if n > 0 { BytesOfSum(s, n - 1); }
  }

  /** `a` is listed before `b`: more bytes, or as many and given first. */
  predicate Ahead(sums: seq<Point>, a: nat, b: nat)
    requires a < |sums| && b < |sums|
  {
    Bytes(sums[a]) > Bytes(sums[b]) || (Bytes(sums[a]) == Bytes(sums[b]) && a < b)
  }

  predicate Ordered(sums: seq<Point>, ranking: seq<nat>) {
    && (forall i | 0 <= i < |ranking| :: ranking[i] < |sums|)
    && forall i, j | 0 <= i < j < |ranking| :: Ahead(sums, ranking[i], ranking[j])
  }

  /** All positions of `sums`, each before the ones it is ahead of. */
  predicate IsRanking(sums: seq<Point>, ranking: seq<nat>) {
    |ranking| == |sums| && Ordered(sums, ranking)
  }

  /** The stable descending sort, one port after the other. */
  function Ranked(sums: seq<Point>, n: nat): (ranking: seq<nat>)
    requires n <= |sums|
    ensures |ranking| == n && forall i | 0 <= i < n :: ranking[i] < n
  {
    if n == 0 then [] else InsertRank(sums, Ranked(sums, n - 1), n - 1)
  }

  function InsertRank(sums: seq<Point>, ranking: seq<nat>, k: nat): (r: seq<nat>)
    requires k < |sums| && forall i | 0 <= i < |ranking| :: ranking[i] < k
    ensures |r| == |ranking| + 1 && forall i | 0 <= i < |r| :: r[i] <= k
  {
    if ranking == [] || Bytes(sums[ranking[0]]) < Bytes(sums[k]) then [k] + ranking
    else [ranking[0]] + InsertRank(sums, ranking[1..], k)
  }

  lemma {:induction false} InsertRankMembers(sums: seq<Point>, ranking: seq<nat>, k: nat)
    requires k < |sums| && forall i | 0 <= i < |ranking| :: ranking[i] < k
    ensures forall x | x in InsertRank(sums, ranking, k) :: x == k || x in ranking
  {
    if ranking != [] && Bytes(sums[ranking[0]]) >= Bytes(sums[k]) { InsertRankMembers(sums, ranking[1..], k); }
  }

  lemma {:induction false} InsertRankOrders(sums: seq<Point>, ranking: seq<nat>, k: nat)
    requires k < |sums| && (forall i | 0 <= i < |ranking| :: ranking[i] < k) && Ordered(sums, ranking)
    ensures Ordered(sums, InsertRank(sums, ranking, k))
  {
    if ranking != [] && Bytes(sums[ranking[0]]) >= Bytes(sums[k]) {
      var rest := InsertRank(sums, ranking[1..], k);
      InsertRankOrders(sums, ranking[1..], k);
      InsertRankMembers(sums, ranking[1..], k);
      forall j | 0 <= j < |rest| ensures Ahead(sums, ranking[0], rest[j]) {
        assert rest[j] in rest;
        if rest[j] != k { var m :| 0 <= m < |ranking| - 1 && ranking[1..][m] == rest[j]; }
      }
    }
  }

  lemma {:induction false} RankedIsOrdered(sums: seq<Point>, n: nat)
    requires n <= |sums|
    ensures Ordered(sums, Ranked(sums, n))
  {
    if n > 0 {
      RankedIsOrdered(sums, n - 1);
      InsertRankOrders(sums, Ranked(sums, n - 1), n - 1);
    }
  }

  lemma RankedIsRanking(sums: seq<Point>, n: nat)
    requires n == |sums|
    ensures IsRanking(sums, Ranked(sums, n))
  {
    RankedIsOrdered(sums, n);
  }

  method SumSeries(s: seq<Point>) returns (sum: Point)
    ensures sum == SumPoints(s, |s|)
  {
    sum := NOTHING;
    for i := 0 to |s|
      invariant sum == SumPoints(s, i)
    {
      sum := Plus(sum, s[i]);
    }
  }

  method AddToGroup(given: map<Day, Group>, hit: Hit) returns (groups: map<Day, Group>)
    ensures groups == Bump(given, hit)
  {
    groups := given;
    if hit.day !in groups {
      groups := groups[hit.day := Group(0, hit.seenAt)];
    }
    var g := groups[hit.day];
    groups := groups[hit.day := Group(g.connections + 1, if hit.seenAt > g.lastSeen then hit.seenAt else g.lastSeen)];
  }

  /** Whatever tables the groups are later added to, they stand for exactly these lines. */
  method GroupLines(lines: seq<Option<Hit>>, ghost t: Tables) returns (groups: map<Day, Group>)
    ensures AddGroups(t, groups) == CountLines(t, lines)
  {
    groups := map[];
    for i := 0 to |lines|
      invariant AddGroups(t, groups) == CountLines(t, lines[..i])
    {
      assert lines[..i + 1][..i] == lines[..i] && lines[..i + 1][i] == lines[i];
      if lines[i].Some? {
        var hit := lines[i].value;
        BumpAddsOneLine(t, groups, hit);
        groups := AddToGroup(groups, hit);
      }
    }
    assert lines[..|lines|] == lines;
  }

  method AddSeries(fleet: seq<Point>, points: seq<Point>) returns (r: seq<Point>)
    requires |fleet| == |points|
    ensures |r| == |fleet| && forall i | 0 <= i < |r| :: r[i] == Plus(fleet[i], points[i])
  {
    r := fleet;
    for i := 0 to |fleet|
      invariant |r| == |fleet|
      invariant forall k | 0 <= k < |fleet| :: r[k] == if k < i then Plus(fleet[k], points[k]) else fleet[k]
    {
      r := r[i := Plus(r[i], points[i])];
    }
  }
}
