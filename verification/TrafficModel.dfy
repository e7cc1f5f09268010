/** Traffic counters kept twice, per port and per port and day, and the upserts that feed both. */
module TrafficModel {
  import opened Common

  datatype Totals = Totals(connections: nat, sent: nat, received: nat, lastSeen: Option<int>)
  datatype Point = Point(connections: nat, sent: nat, received: nat)
  datatype Day = Day(port: int, date: int)

  datatype Tables = Tables(totals: map<int, Totals>, daily: map<Day, Point>)

  /** A log line that names a tenant, after parsing; other lines parse to `None`. */
  datatype Hit = Hit(day: Day, seenAt: int)

  const NOTHING := Point(0, 0, 0)
  const NO_TOTALS := Totals(0, 0, 0, None)

  function Plus(a: Point, b: Point): Point {
    Point(a.connections + b.connections, a.sent + b.sent, a.received + b.received)
  }

  function PointOf(daily: map<Day, Point>, day: Day): Point {
    if day in daily then daily[day] else NOTHING
  }

  function TotalsOf(totals: map<int, Totals>, port: int): Totals {
    if port in totals then totals[port] else NO_TOTALS
  }

  function Counted(t: Totals): Point {
    Point(t.connections, t.sent, t.received)
  }

  /** The later of a recorded time and a new one; an absent new one changes nothing. */
  function Later(recorded: Option<int>, seen: Option<int>): Option<int> {
    if seen.None? then recorded
    else if recorded.None? || recorded.value < seen.value then seen
    else recorded
  }

  function AddTotals(totals: map<int, Totals>, port: int, amount: Point, seen: Option<int>): map<int, Totals> {
    var row := TotalsOf(totals, port);
    totals[port := Totals(row.connections + amount.connections, row.sent + amount.sent,
                          row.received + amount.received, Later(row.lastSeen, seen))]
  }

  function AddDaily(daily: map<Day, Point>, day: Day, amount: Point): map<Day, Point> {
    daily[day := Plus(PointOf(daily, day), amount)]
  }

  /** Add to both tables at once, creating rows that do not exist yet. */
  function Add(t: Tables, day: Day, amount: Point, seen: Option<int>): Tables {
    Tables(AddTotals(t.totals, day.port, amount, seen), AddDaily(t.daily, day, amount))
  }

  const ONE := Point(1, 0, 0)

  /** The reference: count a log line by line. */
  function CountLines(t: Tables, lines: seq<Option<Hit>>): Tables {
    if lines == [] then t
    else
      var before := CountLines(t, lines[..|lines| - 1]);
      var line := lines[|lines| - 1];
      if line.None? then before else Add(before, line.value.day, ONE, Some(line.value.seenAt))
  }

  datatype Group = Group(connections: nat, lastSeen: int)

  /** Upsert groups one after the other, in an order nobody specifies. */
  ghost function AddGroups(t: Tables, groups: map<Day, Group>): Tables
    decreases |groups|
  {
    if groups == map[] then t
    else
      var day :| day in groups;
      AddGroups(AddGroup(t, day, groups[day]), groups - {day})
  }

  function AddGroup(t: Tables, day: Day, g: Group): Tables {
    Add(t, day, Point(g.connections, 0, 0), Some(g.lastSeen))
  }

  function Bump(groups: map<Day, Group>, hit: Hit): map<Day, Group> {
    if hit.day in groups then
      var g := groups[hit.day];
      groups[hit.day := Group(g.connections + 1, if hit.seenAt > g.lastSeen then hit.seenAt else g.lastSeen)]
    else groups[hit.day := Group(1, hit.seenAt)]
  }

  /** Bytes drained from the node's counters, one entry per port. */
  datatype Drain = Drain(port: int, sent: nat, received: nat)

  function CountDrain(t: Tables, date: int, now: int, d: Drain): Tables {
    Add(t, Day(d.port, date), Point(0, d.sent, d.received), if d.sent != 0 || d.received != 0 then Some(now) else None)
  }

  function CountBytes(t: Tables, date: int, now: int, stats: seq<Drain>): Tables {
    if stats == [] then t
    else CountDrain(CountBytes(t, date, now, stats[..|stats| - 1]), date, now, stats[|stats| - 1])
  }

  /** A usage reset forgets bytes and keeps connections, in both tables. */
  function ResetUsage(t: Tables, port: int): Tables {
    Tables(
      map p | p in t.totals :: if p == port then t.totals[p].(sent := 0, received := 0) else t.totals[p],
      map d | d in t.daily :: if d.port == port then t.daily[d].(sent := 0, received := 0) else t.daily[d])
  }

  function DropPort(t: Tables, port: int): Tables {
    Tables(map p | p in t.totals && p != port :: t.totals[p], map d | d in t.daily && d.port != port :: t.daily[d])
  }

  // ---------------------------------------------------------------------------------------------
  // Incremental reading of one log file
  // ---------------------------------------------------------------------------------------------

  /** How far the file has been read, in whole lines. */
  datatype Cursor = Cursor(inode: string, offset: nat)

  function Unread(c: Cursor, inode: string, log: seq<Option<Hit>>): (lines: seq<Option<Hit>>) {
    if c.inode != inode || |log| < c.offset then log else log[c.offset..]
  }

  function SyncLog(t: Tables, c: Cursor, inode: string, log: seq<Option<Hit>>): (Tables, Cursor) {
    (CountLines(t, Unread(c, inode, log)), Cursor(inode, |log|))
  }

  // ---------------------------------------------------------------------------------------------
  // Runs
  // ---------------------------------------------------------------------------------------------

  datatype Op =
    | OpLog(lines: seq<Option<Hit>>)
    | OpStats(date: int, now: int, stats: seq<Drain>)
    | OpReset(port: int)
    | OpDelete(port: int)

  function Step(t: Tables, op: Op): Tables {
    match op
    case OpLog(lines) => CountLines(t, lines)
    case OpStats(date, now, stats) => CountBytes(t, date, now, stats)
    case OpReset(port) => ResetUsage(t, port)
    case OpDelete(port) => DropPort(t, port)
  }

  function Run(t: Tables, ops: seq<Op>): Tables {
    if ops == [] then t else Step(Run(t, ops[..|ops| - 1]), ops[|ops| - 1])
  }

  /** What a port did on the days from `first`, `length` of them. */
  function Sum(daily: map<Day, Point>, port: int, first: int, length: nat): Point {
    if length == 0 then NOTHING
    else Plus(Sum(daily, port, first, length - 1), PointOf(daily, Day(port, first + length - 1)))
  }
}
