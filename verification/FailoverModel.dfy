/** The DNS failover controller: probe counters with two thresholds, and switches that may fail at the DNS API. */
module FailoverModel {
  import opened Common

  datatype Target = Primary | Backup

  function Other(t: Target): Target {
    if t == Primary then Backup else Primary
  }

  datatype Thresholds = Thresholds(failure: nat, recovery: nat)

  /** What the record should hold for each target; `Broken` when the configuration does not resolve. */
  datatype Contents = Ready(primary: string, backup: string) | Broken

  /** `ExecutorError`: the probe could not be carried out, so it says nothing about the node. */
  datatype Probe = Healthy | Unhealthy | ExecutorError

  /** Replies of the DNS API to one read and one update; `None` is a raised API error. */
  datatype Api = Api(read: Option<string>, write: Option<string>)

  datatype Outcome = Done | Failed | Noop | Skipped
  datatype Event = Probed(outcome: Outcome) | Switched(outcome: Outcome, target: Target)

  /** The singleton row, and the history table. */
  datatype State = State(target: Target, content: string, failures: nat, successes: nat, history: seq<Event>)

  function Recognise(contents: Contents, content: string): Option<Target>
    requires contents.Ready?
  {
    if content == contents.primary then Some(Primary)
    else if content == contents.backup then Some(Backup)
    else None
  }

  /** Where this probe result asks the record to go, if anywhere. */
  function Evaluate(th: Thresholds, current: Target, failures: nat, successes: nat, ok: bool, preferred: Target): Option<Target> {
    if ok then
      if current == Other(preferred) && successes >= th.recovery then Some(preferred) else None
    else
      if current == preferred && failures >= th.failure then Some(Other(preferred)) else None
  }

  /** The manager's older rule, which knows no preference. */
  function ManagerRule(th: Thresholds, current: Target, failures: nat, successes: nat, ok: bool): Option<Target> {
    if ok then
      if current == Backup && successes >= th.recovery then Some(Primary) else None
    else
      if current == Primary && failures >= th.failure then Some(Backup) else None
  }

  function Log(s: State, e: Event): State {
    s.(history := s.history + [e])
  }

  function Count(s: State, ok: bool): State {
    Log(s.(failures := if ok then 0 else s.failures + 1, successes := if ok then s.successes + 1 else 0),
        Probed(if ok then Done else Failed))
  }

  function SwitchTo(s: State, contents: Contents, target: Target, api: Api): State
    requires contents.Ready?
  {
    if api.read.None? then Log(s, Switched(Failed, target))
    else if Recognise(contents, api.read.value) == Some(target) then
      Log(s.(target := target, content := api.read.value), Switched(Noop, target))
    else if api.write.None? then Log(s, Switched(Failed, target))
    else
      var updated := Recognise(contents, api.write.value);
      Log(s.(target := if updated.Some? then updated.value else target, content := api.write.value), Switched(Done, target))
  }

  /** A switch somebody orders by hand. */
  datatype Order = Order(target: Target, api: Api)

  function Between(s: State, contents: Contents, between: Option<Order>): State
    requires contents.Ready?
  {
    if between.None? then s else SwitchTo(s, contents, between.value.target, between.value.api)
  }

  /** A check commits its counters and its decision first, and switches afterwards. A switch by hand may come in between. */
  function CheckOnce(th: Thresholds, s: State, contents: Contents, probe: Probe, preferred: Target, between: Option<Order>,
                     api: Api): State
  {
    if contents.Broken? then Log(s, Probed(Skipped))
    else if probe.ExecutorError? then Log(s, Probed(Failed))
    else
      var counted := Count(s, probe.Healthy?);
      var wanted := Evaluate(th, s.target, counted.failures, counted.successes, probe.Healthy?, preferred);
      var found := Between(counted, contents, between);
      if wanted.None? then found else SwitchTo(found, contents, wanted.value, api)
  }

  /** Rereading the record: an unknown content counts as the primary. */
  function Reread(s: State, contents: Contents, read: Option<string>): State {
    if contents.Broken? || read.None? then s
    else
      var seen := Recognise(contents, read.value);
      s.(target := if seen.Some? then seen.value else Primary, content := read.value)
  }

  datatype Op =
    | Check(contents: Contents, probe: Probe, preferred: Target, between: Option<Order>, api: Api)
    | Manual(contents: Contents, target: Target, api: Api)
    | Refresh(contents: Contents, read: Option<string>)

  function Step(th: Thresholds, s: State, op: Op): State {
    match op
    case Check(contents, probe, preferred, between, api) => CheckOnce(th, s, contents, probe, preferred, between, api)
    case Manual(contents, target, api) => if contents.Broken? then s else SwitchTo(s, contents, target, api)
    case Refresh(contents, read) => Reread(s, contents, read)
  }

  function Run(th: Thresholds, s: State, ops: seq<Op>): State {
    if ops == [] then s else Step(th, Run(th, s, ops[..|ops| - 1]), ops[|ops| - 1])
  }

  // ---------------------------------------------------------------------------------------------
  // The peak window
  // ---------------------------------------------------------------------------------------------

  const DAY := 86400

  predicate PeakActive(minute: nat, start: nat, end: nat) {
    if start < end then start <= minute < end else minute >= start || minute < end
  }

  /** The wall clock's minute of the day, `seconds` after midnight of some day. */
  function MinuteAt(seconds: nat): (m: nat)
    ensures m < 1440
  {
    (seconds % DAY) / 60
  }

  /** Python's `x % 86400 or 86400`, whose remainder is never negative. */
  function SecondsToTransition(now: nat, start: nat, end: nat): int
    requires now < DAY
  {
    var boundary := if PeakActive(MinuteAt(now), start, end) then end else start;
    var delta := (boundary * 60 - now) % DAY;
    if delta == 0 then DAY else delta
  }
}
