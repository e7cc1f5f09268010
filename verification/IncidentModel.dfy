/** Failure streaks, incidents and the diagnosis queue, and each operation on them. */
module IncidentModel {
  import opened Common

  datatype Kind = ExecutorError | NodeFailure

  datatype Place = Place(source: string, target: string)

  datatype Observation = Success | Failure(kind: Kind, origin: string)

  datatype StreakKey = StreakKey(place: Place, kind: Kind, origin: string)

  datatype Streak = Streak(first: int, occurrences: nat)

  datatype Status = Queued | Running | Completed | Failed

  datatype Incident = Incident(place: Place, kind: Kind, origin: string, first: int, last: int, occurrences: nat,
                               recovered: Option<int>, qualified: bool, status: Status, claimedAt: Option<int>)

  datatype EventKind = FailureSeen | Recovery

  datatype Event = Event(incident: nat, kind: EventKind)

  datatype State = State(streaks: map<StreakKey, Streak>, incidents: map<nat, Incident>, events: multiset<Event>, next: nat)

  const EMPTY := State(map[], map[], multiset{}, 0)

  // ---------------------------------------------------------------------------------------------
  // Recording a probe
  // ---------------------------------------------------------------------------------------------

  function KeyOf(place: Place, seen: Observation): StreakKey
    requires seen.Failure?
  {
    StreakKey(place, seen.kind, seen.origin)
  }

  /** A success ends every streak of the place; a failure ends those of another kind or executor and extends its own. */
  function Streaks(streaks: map<StreakKey, Streak>, place: Place, seen: Observation, now: int): map<StreakKey, Streak> {
    if seen.Success? then map k | k in streaks && k.place != place :: streaks[k]
    else
      var key := KeyOf(place, seen);
      var kept := map k | k in streaks && (k.place != place || k == key) :: streaks[k];
      kept[key := if key in streaks then streaks[key].(occurrences := streaks[key].occurrences + 1) else Streak(now, 1)]
  }

  predicate IsOpen(i: Incident, place: Place, kind: Kind) {
    i.place == place && i.kind == kind && i.recovered.None?
  }

  /** A success recovers everything open at the place; a target failure proves the executor works. */
  predicate Recovers(i: Incident, place: Place, seen: Observation) {
    && i.place == place && i.recovered.None?
    && (seen.Success? || (seen.kind.NodeFailure? && i.kind.ExecutorError?))
  }

  function RecoveredBy(incidents: map<nat, Incident>, place: Place, seen: Observation): set<nat> {
    set id | id in incidents && Recovers(incidents[id], place, seen)
  }

  function Close(incidents: map<nat, Incident>, ids: set<nat>, now: int): map<nat, Incident> {
    map id | id in incidents ::
      if id in ids then incidents[id].(recovered := Some(now), last := now) else incidents[id]
  }

  function RecoveryEvents(ids: set<nat>): multiset<Event> {
    multiset(set id | id in ids :: Event(id, Recovery))
  }

  /** An open incident of the kind at the place, if there is one below `bound`. */
  function FindOpen(incidents: map<nat, Incident>, place: Place, kind: Kind, bound: nat): (r: Option<nat>)
    ensures r.Some? ==> r.value in incidents && IsOpen(incidents[r.value], place, kind)
    ensures r.None? ==> forall id | 0 <= id < bound && id in incidents :: !IsOpen(incidents[id], place, kind)
  {
    if bound == 0 then None
    else if bound - 1 in incidents && IsOpen(incidents[bound - 1], place, kind) then Some(bound - 1)
    else FindOpen(incidents, place, kind, bound - 1)
  }

  function Continue(i: Incident, seen: Observation, reached: bool, now: int): Incident
    requires seen.Failure?
  {
    i.(occurrences := i.occurrences + 1, last := now, origin := seen.origin, qualified := i.qualified || reached)
  }

  function Begin(place: Place, seen: Observation, streak: Streak, now: int): Incident
    requires seen.Failure?
  {
    Incident(place, seen.kind, seen.origin, streak.first, now, streak.occurrences, None, true, Queued, None)
  }

  function Recovered(s: State, place: Place, seen: Observation, now: int): State {
    var ids := RecoveredBy(s.incidents, place, seen);
    s.(streaks := Streaks(s.streaks, place, seen, now),
       incidents := Close(s.incidents, ids, now),
       events := s.events + RecoveryEvents(ids))
  }

  /** The failure half, after streaks and recoveries are settled. */
  function NoteFailure(s: State, threshold: nat, place: Place, seen: Observation, now: int): State
    requires seen.Failure? && KeyOf(place, seen) in s.streaks
  {
    var streak := s.streaks[KeyOf(place, seen)];
    var current := FindOpen(s.incidents, place, seen.kind, s.next);
    if current.Some? then
      var id := current.value;
      s.(incidents := s.incidents[id := Continue(s.incidents[id], seen, streak.occurrences >= threshold, now)],
         events := s.events + multiset{Event(id, FailureSeen)})
    else if streak.occurrences < threshold then s
    else
      s.(incidents := s.incidents[s.next := Begin(place, seen, streak, now)],
         events := s.events + multiset{Event(s.next, FailureSeen)},
         next := s.next + 1)
  }

  function Record(s: State, threshold: nat, place: Place, seen: Observation, now: int): State {
    var settled := Recovered(s, place, seen, now);
    if seen.Success? then settled else NoteFailure(settled, threshold, place, seen, now)
  }

  // ---------------------------------------------------------------------------------------------
  // The diagnosis queue
  // ---------------------------------------------------------------------------------------------

  predicate Stale(i: Incident, age: int, now: int) {
    i.status.Running? && i.claimedAt.Some? && i.claimedAt.value <= now - age
  }

  function RecoverStale(s: State, age: int, now: int): State {
    s.(incidents := map id | id in s.incidents ::
         if Stale(s.incidents[id], age, now) then s.incidents[id].(status := Queued, claimedAt := None) else s.incidents[id])
  }

  predicate Claimable(i: Incident) {
    i.status.Queued? && i.qualified
  }

  /** The claimable incident seen first, among ids below `bound`. */
  function Oldest(incidents: map<nat, Incident>, bound: nat): (r: Option<nat>)
    ensures r.Some? ==> r.value in incidents && Claimable(incidents[r.value]) && r.value < bound
    ensures r.Some? ==> forall id | 0 <= id < bound && id in incidents && Claimable(incidents[id]) ::
              incidents[r.value].first <= incidents[id].first
    ensures r.None? ==> forall id | 0 <= id < bound && id in incidents :: !Claimable(incidents[id])
  {
    if bound == 0 then None
    else
      var rest := Oldest(incidents, bound - 1);
      if bound - 1 in incidents && Claimable(incidents[bound - 1]) &&
         (rest.None? || incidents[bound - 1].first < incidents[rest.value].first) then Some(bound - 1)
      else rest
  }

  function Claim(s: State, now: int): State {
    var id := Oldest(s.incidents, s.next);
    if id.None? then s
    else s.(incidents := s.incidents[id.value := s.incidents[id.value].(status := Running, claimedAt := Some(now))])
  }

  function Finish(s: State, id: nat, error: bool): State {
    if id !in s.incidents then s
    else s.(incidents := s.incidents[id := s.incidents[id].(status := if error then Failed else Completed)])
  }

  // ---------------------------------------------------------------------------------------------
  // Runs: probes and diagnosis workers in any interleaving
  // ---------------------------------------------------------------------------------------------

  datatype Op =
    | OpRecord(place: Place, seen: Observation)
    | OpClaim
    | OpRecoverStale(age: int)
    | OpFinish(id: nat, error: bool)

  datatype Timed = Timed(op: Op, now: int)

  function Step(s: State, threshold: nat, e: Timed): State {
    match e.op
    case OpRecord(place, seen) => Record(s, threshold, place, seen, e.now)
    case OpClaim => Claim(s, e.now)
    case OpRecoverStale(age) => RecoverStale(s, age, e.now)
    case OpFinish(id, error) => Finish(s, id, error)
  }

  function Run(s: State, threshold: nat, events: seq<Timed>): State {
    if events == [] then s
    else Step(Run(s, threshold, events[..|events| - 1]), threshold, events[|events| - 1])
  }
}
