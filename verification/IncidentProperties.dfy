/** Streaks refine the plain probe history; incidents conserve their evidence; the queue cannot disturb either. */
module IncidentProperties {
  import opened Common
  import opened IncidentModel

  // ---------------------------------------------------------------------------------------------
  // Streaks against the history
  // ---------------------------------------------------------------------------------------------

  /** What was observed at one place, in order. */
  function History(events: seq<Timed>, place: Place): seq<Observation> {
    if events == [] then []
    else
      var rest := History(events[..|events| - 1], place);
      var op := events[|events| - 1].op;
      if op.OpRecord? && op.place == place then rest + [op.seen] else rest
  }

  /** How many observations at the end of the history are failures of the last one's kind and origin. */
  function TrailingRun(h: seq<Observation>): nat {
    if h == [] || h[|h| - 1].Success? then 0
    else if |h| > 1 && h[|h| - 2] == h[|h| - 1] then 1 + TrailingRun(h[..|h| - 1])
    else 1
  }

  /** At most the one streak row the history calls for, with the length the history gives it. */
  ghost predicate StreaksMatch(s: State, place: Place, h: seq<Observation>) {
    && (forall k | k in s.streaks && k.place == place ::
          h != [] && h[|h| - 1] == Failure(k.kind, k.origin) && s.streaks[k].occurrences == TrailingRun(h))
    && (h != [] && h[|h| - 1].Failure? ==> KeyOf(place, h[|h| - 1]) in s.streaks)
  }

  lemma RecordedStreaks(s: State, threshold: nat, place: Place, seen: Observation, now: int)
    ensures Record(s, threshold, place, seen, now).streaks == Streaks(s.streaks, place, seen, now)
  {}

  lemma StreakStepRefines(s: State, threshold: nat, place: Place, h: seq<Observation>, seen: Observation, now: int)
    requires StreaksMatch(s, place, h)
    ensures StreaksMatch(Record(s, threshold, place, seen, now), place, h + [seen])
  {
    RecordedStreaks(s, threshold, place, seen, now);
    assert (h + [seen])[..|h|] == h;
  }

  /** From an empty store the rows of every place are what its plain history says, whatever else happens in between. */
  lemma {:induction false} StreakRowsRefineHistory(threshold: nat, events: seq<Timed>, place: Place)
    ensures StreaksMatch(Run(EMPTY, threshold, events), place, History(events, place))
  {
    if events != [] {
      var init, e := events[..|events| - 1], events[|events| - 1];
      StreakRowsRefineHistory(threshold, init, place);
      var before := Run(EMPTY, threshold, init);
      if e.op.OpRecord? {
        RecordedStreaks(before, threshold, e.op.place, e.op.seen, e.now);
        if e.op.place == place {
          StreakStepRefines(before, threshold, place, History(init, place), e.op.seen, e.now);
        }
      }
    }
  }

  // ---------------------------------------------------------------------------------------------
  // Incidents
  // ---------------------------------------------------------------------------------------------

  ghost predicate HasOpen(s: State, place: Place, kind: Kind) {
    exists id :: id in s.incidents && IsOpen(s.incidents[id], place, kind)
  }

  ghost predicate IdsIssued(s: State) {
    && (forall id | id in s.incidents :: id < s.next)
    && (forall e | e in s.events :: e.incident in s.incidents)
  }

  ghost predicate OneStreakPerPlace(s: State) {
    forall k, l | k in s.streaks && l in s.streaks && k.place == l.place :: k == l
  }

  ghost predicate OneOpenPerKind(s: State) {
    forall i, j | i in s.incidents && j in s.incidents && s.incidents[i].recovered.None? &&
      IsOpen(s.incidents[j], s.incidents[i].place, s.incidents[i].kind) :: i == j
  }

  /** A streak that has reached the threshold is covered by an open incident. */
  ghost predicate LongStreaksCovered(s: State, threshold: nat) {
    forall k | k in s.streaks ::
      s.streaks[k].occurrences >= 1 && (s.streaks[k].occurrences >= threshold ==> HasOpen(s, k.place, k.kind))
  }

  /** Occurrences count the threshold's worth of failures and one more per later event; recovery is logged once. */
  ghost predicate Accounted(s: State, threshold: nat, id: nat)
    requires id in s.incidents
  {
    var i := s.incidents[id];
    && i.occurrences + 1 == threshold + s.events[Event(id, FailureSeen)]
    && s.events[Event(id, Recovery)] == (if i.recovered.Some? then 1 else 0)
    && i.qualified
  }

  ghost predicate Sound(s: State, threshold: nat) {
    && IdsIssued(s) && OneStreakPerPlace(s) && OneOpenPerKind(s) && LongStreaksCovered(s, threshold)
    && forall id | id in s.incidents :: Accounted(s, threshold, id)
  }

  lemma RecoveryEventCount(ids: set<nat>, id: nat)
    ensures RecoveryEvents(ids)[Event(id, Recovery)] == if id in ids then 1 else 0
    ensures RecoveryEvents(ids)[Event(id, FailureSeen)] == 0
  {
    assert Event(id, Recovery) in (set x | x in ids :: Event(x, Recovery)) <==> id in ids;
  }

  lemma RecoveryKeepsAccounts(s: State, threshold: nat, place: Place, seen: Observation, now: int, id: nat)
    requires id in s.incidents && Accounted(s, threshold, id)
    ensures Accounted(Recovered(s, place, seen, now), threshold, id)
  {
    RecoveryEventCount(RecoveredBy(s.incidents, place, seen), id);
  }

  lemma RecoveredIdsIssued(s: State, place: Place, seen: Observation, now: int)
    requires IdsIssued(s)
    ensures IdsIssued(Recovered(s, place, seen, now))
  {
    var ids := RecoveredBy(s.incidents, place, seen);
    forall e | e in s.events + RecoveryEvents(ids) ensures e.incident in s.incidents {
      assert e in s.events || e in RecoveryEvents(ids);
    }
  }

  lemma RecoveredOneOpen(s: State, place: Place, seen: Observation, now: int)
    requires OneOpenPerKind(s)
    ensures OneOpenPerKind(Recovered(s, place, seen, now))
  {}

  lemma RecoveredKeepsShape(s: State, threshold: nat, place: Place, seen: Observation, now: int)
    requires Sound(s, threshold)
    ensures var after := Recovered(s, place, seen, now);
            IdsIssued(after) && OneStreakPerPlace(after) && OneOpenPerKind(after)
  {
    RecoveredIdsIssued(s, place, seen, now);
    RecoveredOneOpen(s, place, seen, now);
  }

  /** After recovery only the streak that is being extended may still lack its incident. */
  lemma RecoveredCoverage(s: State, threshold: nat, place: Place, seen: Observation, now: int, k: StreakKey)
    requires Sound(s, threshold)
    requires k in Recovered(s, place, seen, now).streaks && (seen.Success? || k != KeyOf(place, seen))
    ensures var after := Recovered(s, place, seen, now);
            after.streaks[k].occurrences >= 1 &&
            (after.streaks[k].occurrences >= threshold ==> HasOpen(after, k.place, k.kind))
  {
    var after := Recovered(s, place, seen, now);
    assert k in s.streaks && k.place != place;
    if after.streaks[k].occurrences >= threshold {
      var id :| id in s.incidents && IsOpen(s.incidents[id], k.place, k.kind);
      assert IsOpen(after.incidents[id], k.place, k.kind);
    }
  }

  lemma SuccessKeeps(s: State, threshold: nat, place: Place, now: int)
    requires Sound(s, threshold)
    ensures Sound(Record(s, threshold, place, Success, now), threshold)
  {
    var after := Recovered(s, place, Success, now);
    RecoveredKeepsShape(s, threshold, place, Success, now);
    forall id | id in after.incidents ensures Accounted(after, threshold, id) {
      RecoveryKeepsAccounts(s, threshold, place, Success, now, id);
    }
    forall k | k in after.streaks
      ensures after.streaks[k].occurrences >= 1
      ensures after.streaks[k].occurrences >= threshold ==> HasOpen(after, k.place, k.kind)
    {
      RecoveredCoverage(s, threshold, place, Success, now, k);
    }
  }

  /** The streak just extended has length one more than before, and was covered if it had already reached the threshold. */
  lemma ExtendedStreak(s: State, threshold: nat, place: Place, seen: Observation, now: int)
    requires Sound(s, threshold) && seen.Failure? && threshold >= 1
    ensures var after := Recovered(s, place, seen, now);
            var streak := after.streaks[KeyOf(place, seen)];
            && streak.occurrences >= 1
            && (streak.occurrences > threshold ==> HasOpen(after, place, seen.kind))
            && (HasOpen(after, place, seen.kind) <==> HasOpen(s, place, seen.kind))
  {
    var after := Recovered(s, place, seen, now);
    var key := KeyOf(place, seen);
    if HasOpen(s, place, seen.kind) {
      var id :| id in s.incidents && IsOpen(s.incidents[id], place, seen.kind);
      assert IsOpen(after.incidents[id], place, seen.kind);
    }
    if HasOpen(after, place, seen.kind) {
      var id :| id in after.incidents && IsOpen(after.incidents[id], place, seen.kind);
      assert IsOpen(s.incidents[id], place, seen.kind);
    }
    if after.streaks[key].occurrences > threshold {
      assert key in s.streaks && s.streaks[key].occurrences >= threshold;
    }
  }

  lemma FoundIffOpen(s: State, place: Place, kind: Kind)
    requires IdsIssued(s)
    ensures FindOpen(s.incidents, place, kind, s.next).Some? <==> HasOpen(s, place, kind)
  {}

  lemma NotedOpensIff(s: State, threshold: nat, place: Place, seen: Observation, now: int)
    requires seen.Failure? && KeyOf(place, seen) in s.streaks && IdsIssued(s)
    ensures var after := NoteFailure(s, threshold, place, seen, now);
            var streak := s.streaks[KeyOf(place, seen)];
            && after.streaks == s.streaks
            && (if streak.occurrences >= threshold && !HasOpen(s, place, seen.kind)
                then s.next !in s.incidents
                     && after.incidents == s.incidents[s.next := Begin(place, seen, streak, now)]
                else after.incidents.Keys == s.incidents.Keys)
  {
    FoundIffOpen(s, place, seen.kind);
  }

  lemma BegunIsOpen(place: Place, seen: Observation, streak: Streak, now: int)
    requires seen.Failure?
    ensures var i := Begin(place, seen, streak, now);
            IsOpen(i, place, seen.kind) && i.occurrences == streak.occurrences && Claimable(i)
  {}

  /** The same, where only a streak of exactly the threshold's length may lack an incident. */
  lemma NotedOpensAtThreshold(s: State, threshold: nat, place: Place, seen: Observation, now: int)
    requires seen.Failure? && KeyOf(place, seen) in s.streaks && IdsIssued(s)
    requires s.streaks[KeyOf(place, seen)].occurrences > threshold ==> HasOpen(s, place, seen.kind)
    ensures var after, streak := NoteFailure(s, threshold, place, seen, now), s.streaks[KeyOf(place, seen)];
            var opens := streak.occurrences == threshold && !HasOpen(s, place, seen.kind);
            && after.streaks == s.streaks
            && after.incidents.Keys == s.incidents.Keys + (if opens then {s.next} else {})
            && (opens ==> s.next !in s.incidents && after.incidents[s.next] == Begin(place, seen, streak, now))
  {
    NotedOpensIff(s, threshold, place, seen, now);
  }

  /** With a positive threshold, an incident opens exactly when a run reaches it and none of its kind is open. */
  lemma OpensExactlyAtThreshold(s: State, threshold: nat, place: Place, seen: Observation, now: int)
    requires Sound(s, threshold) && seen.Failure? && threshold >= 1
    ensures var after := Record(s, threshold, place, seen, now);
            var opens := after.streaks[KeyOf(place, seen)].occurrences == threshold && !HasOpen(s, place, seen.kind);
            && after.incidents.Keys == s.incidents.Keys + (if opens then {s.next} else {})
            && (opens ==> && s.next !in s.incidents
                          && IsOpen(after.incidents[s.next], place, seen.kind)
                          && after.incidents[s.next].occurrences == threshold
                          && Claimable(after.incidents[s.next]))
  {
    var mid := Recovered(s, place, seen, now);
    ExtendedStreak(s, threshold, place, seen, now);
    SettledIdsIssued(s, threshold, place, seen, now);
    NotedOpensAtThreshold(mid, threshold, place, seen, now);
    BegunIsOpen(place, seen, mid.streaks[KeyOf(place, seen)], now);
  }

  lemma SettledIdsIssued(s: State, threshold: nat, place: Place, seen: Observation, now: int)
    requires Sound(s, threshold)
    ensures var mid := Recovered(s, place, seen, now);
            IdsIssued(mid) && mid.incidents.Keys == s.incidents.Keys && mid.next == s.next
  {
    RecoveredKeepsShape(s, threshold, place, seen, now);
  }

  lemma NotedAccounts(s: State, threshold: nat, place: Place, seen: Observation, now: int, id: nat)
    requires seen.Failure? && KeyOf(place, seen) in s.streaks && IdsIssued(s)
    requires forall x | x in s.incidents :: Accounted(s, threshold, x)
    requires s.streaks[KeyOf(place, seen)].occurrences > threshold ==> HasOpen(s, place, seen.kind)
    requires id in NoteFailure(s, threshold, place, seen, now).incidents
    ensures Accounted(NoteFailure(s, threshold, place, seen, now), threshold, id)
  {
    FoundIffOpen(s, place, seen.kind);
    if id !in s.incidents {
      assert id == s.next && Event(id, FailureSeen) !in s.events && Event(id, Recovery) !in s.events;
    } else {
      assert Accounted(s, threshold, id);
    }
  }

  lemma NotedIdsIssued(s: State, threshold: nat, place: Place, seen: Observation, now: int)
    requires seen.Failure? && KeyOf(place, seen) in s.streaks && IdsIssued(s)
    ensures IdsIssued(NoteFailure(s, threshold, place, seen, now))
  {
    var after := NoteFailure(s, threshold, place, seen, now);
    forall e | e in after.events ensures e.incident in after.incidents {
      assert e in s.events || e.incident in after.incidents;
    }
  }

  lemma NotedOneOpen(s: State, threshold: nat, place: Place, seen: Observation, now: int)
    requires seen.Failure? && KeyOf(place, seen) in s.streaks && IdsIssued(s) && OneOpenPerKind(s)
    ensures OneOpenPerKind(NoteFailure(s, threshold, place, seen, now))
  {
    FoundIffOpen(s, place, seen.kind);
  }

  lemma NotedShape(s: State, threshold: nat, place: Place, seen: Observation, now: int)
    requires seen.Failure? && KeyOf(place, seen) in s.streaks
    requires IdsIssued(s) && OneStreakPerPlace(s) && OneOpenPerKind(s)
    ensures var after := NoteFailure(s, threshold, place, seen, now);
            IdsIssued(after) && OneStreakPerPlace(after) && OneOpenPerKind(after) && after.streaks == s.streaks
  {
    NotedIdsIssued(s, threshold, place, seen, now);
    NotedOneOpen(s, threshold, place, seen, now);
  }

  lemma NotedCoverage(s: State, threshold: nat, place: Place, seen: Observation, now: int, k: StreakKey)
    requires seen.Failure? && KeyOf(place, seen) in s.streaks && IdsIssued(s)
    ensures var after := NoteFailure(s, threshold, place, seen, now);
            && (HasOpen(s, k.place, k.kind) ==> HasOpen(after, k.place, k.kind))
            && (s.streaks[KeyOf(place, seen)].occurrences >= threshold ==> HasOpen(after, place, seen.kind))
  {
    FoundIffOpen(s, place, seen.kind);
    var after := NoteFailure(s, threshold, place, seen, now);
    var current := FindOpen(s.incidents, place, seen.kind, s.next);
    if HasOpen(s, k.place, k.kind) {
      var id :| id in s.incidents && IsOpen(s.incidents[id], k.place, k.kind);
      assert IsOpen(after.incidents[id], k.place, k.kind);
    }
    if s.streaks[KeyOf(place, seen)].occurrences >= threshold {
      var id := if current.Some? then current.value else s.next;
      assert IsOpen(after.incidents[id], place, seen.kind);
    }
  }

  lemma FailureKeeps(s: State, threshold: nat, place: Place, seen: Observation, now: int)
    requires Sound(s, threshold) && seen.Failure? && threshold >= 1
    ensures Sound(Record(s, threshold, place, seen, now), threshold)
  {
    var mid := Recovered(s, place, seen, now);
    var after := NoteFailure(mid, threshold, place, seen, now);
    ExtendedStreak(s, threshold, place, seen, now);
    RecoveredKeepsShape(s, threshold, place, seen, now);
    NotedShape(mid, threshold, place, seen, now);
    forall id | id in mid.incidents ensures Accounted(mid, threshold, id) {
      RecoveryKeepsAccounts(s, threshold, place, seen, now, id);
    }
    forall id | id in after.incidents ensures Accounted(after, threshold, id) {
      NotedAccounts(mid, threshold, place, seen, now, id);
    }
    forall k | k in after.streaks
      ensures after.streaks[k].occurrences >= 1
      ensures after.streaks[k].occurrences >= threshold ==> HasOpen(after, k.place, k.kind)
    {
      NotedCoverage(mid, threshold, place, seen, now, k);
      if k != KeyOf(place, seen) { RecoveredCoverage(s, threshold, place, seen, now, k); }
    }
  }

  /** Queue operations change nothing but queue status. */
  ghost predicate QueueMoveOnly(s: State, after: State) {
    && after == s.(incidents := after.incidents)
    && after.incidents.Keys == s.incidents.Keys
    && forall id | id in s.incidents ::
         after.incidents[id] == s.incidents[id].(status := after.incidents[id].status, claimedAt := after.incidents[id].claimedAt)
  }

  lemma QueueMoveKeeps(s: State, after: State, threshold: nat)
    requires Sound(s, threshold) && QueueMoveOnly(s, after)
    ensures Sound(after, threshold)
  {
    forall k | k in after.streaks && after.streaks[k].occurrences >= threshold
      ensures HasOpen(after, k.place, k.kind)
    {
      var id :| id in s.incidents && IsOpen(s.incidents[id], k.place, k.kind);
      assert IsOpen(after.incidents[id], k.place, k.kind);
    }
    forall id | id in after.incidents ensures Accounted(after, threshold, id) { assert Accounted(s, threshold, id); }
  }

  lemma QueueOperationsMoveOnly(s: State, threshold: nat, e: Timed)
    requires !e.op.OpRecord?
    ensures QueueMoveOnly(s, Step(s, threshold, e))
  {}

  /** From an empty store, any interleaving of probes and workers keeps every incident accounted for. */
  lemma {:induction false} EveryRunSound(threshold: nat, events: seq<Timed>)
    requires threshold >= 1
    ensures Sound(Run(EMPTY, threshold, events), threshold)
  {
    if events != [] {
      var init, e := events[..|events| - 1], events[|events| - 1];
      EveryRunSound(threshold, init);
      var s := Run(EMPTY, threshold, init);
      if !e.op.OpRecord? {
        QueueOperationsMoveOnly(s, threshold, e);
        QueueMoveKeeps(s, Step(s, threshold, e), threshold);
      } else if e.op.seen.Success? {
        SuccessKeeps(s, threshold, e.op.place, e.now);
      } else {
        FailureKeeps(s, threshold, e.op.place, e.op.seen, e.now);
      }
    }
  }

  // ---------------------------------------------------------------------------------------------
  // Independence and the lease
  // ---------------------------------------------------------------------------------------------

  /** The store as the probe side sees it: queue status blanked out. */
  function Blank(i: Incident): Incident {
    i.(status := Queued, claimedAt := None)
  }

  function Blanked(incidents: map<nat, Incident>): map<nat, Incident> {
    map id | id in incidents :: Blank(incidents[id])
  }

  function ProbeSide(s: State): State {
    s.(incidents := Blanked(s.incidents))
  }

  lemma BlankedUpdate(incidents: map<nat, Incident>, id: nat, i: Incident)
    ensures Blanked(incidents[id := i]) == Blanked(incidents)[id := Blank(i)]
  {}

  function ProbesOnly(events: seq<Timed>): seq<Timed> {
    if events == [] then []
    else
      var rest := ProbesOnly(events[..|events| - 1]);
      if events[|events| - 1].op.OpRecord? then rest + [events[|events| - 1]] else rest
  }

  lemma {:induction false} FindOpenBlank(s: State, place: Place, kind: Kind, bound: nat)
    ensures FindOpen(ProbeSide(s).incidents, place, kind, bound) == FindOpen(s.incidents, place, kind, bound)
  {
    if bound > 0 { FindOpenBlank(s, place, kind, bound - 1); }
  }

  lemma RecoveredBlank(s: State, place: Place, seen: Observation, now: int)
    ensures ProbeSide(Recovered(s, place, seen, now)) == Recovered(ProbeSide(s), place, seen, now)
  {
    var a, b := ProbeSide(Recovered(s, place, seen, now)), Recovered(ProbeSide(s), place, seen, now);
    assert RecoveredBy(ProbeSide(s).incidents, place, seen) == RecoveredBy(s.incidents, place, seen);
    assert a.incidents == b.incidents;
  }

  lemma NotedBlank(s: State, threshold: nat, place: Place, seen: Observation, now: int)
    requires seen.Failure? && KeyOf(place, seen) in s.streaks
    ensures ProbeSide(NoteFailure(s, threshold, place, seen, now)) == NoteFailure(ProbeSide(s), threshold, place, seen, now)
  {
    FindOpenBlank(s, place, seen.kind, s.next);
    var streak, current := s.streaks[KeyOf(place, seen)], FindOpen(s.incidents, place, seen.kind, s.next);
    if current.Some? {
      var id := current.value;
      BlankedUpdate(s.incidents, id, Continue(s.incidents[id], seen, streak.occurrences >= threshold, now));
    } else {
      BlankedUpdate(s.incidents, s.next, Begin(place, seen, streak, now));
    }
  }

  lemma RecordBlank(s: State, threshold: nat, place: Place, seen: Observation, now: int)
    ensures ProbeSide(Record(s, threshold, place, seen, now)) == Record(ProbeSide(s), threshold, place, seen, now)
  {
    RecoveredBlank(s, place, seen, now);
    if seen.Failure? {
      NotedBlank(Recovered(s, place, seen, now), threshold, place, seen, now);
    }
  }

  /** Under any interleaving the probe side is what the probes alone would have produced. */
  lemma {:induction false} WorkersCannotDisturbProbes(s: State, threshold: nat, events: seq<Timed>)
    ensures ProbeSide(Run(s, threshold, events)) == Run(ProbeSide(s), threshold, ProbesOnly(events))
  {
    if events != [] {
      var init, e := events[..|events| - 1], events[|events| - 1];
      WorkersCannotDisturbProbes(s, threshold, init);
      var before := Run(s, threshold, init);
      if e.op.OpRecord? {
        RecordBlank(before, threshold, e.op.place, e.op.seen, e.now);
        assert (ProbesOnly(init) + [e])[..|ProbesOnly(init)|] == ProbesOnly(init);
      } else {
        QueueOperationsMoveOnly(before, threshold, e);
        assert ProbeSide(Step(before, threshold, e)).incidents == ProbeSide(before).incidents;
      }
    }
  }

  predicate Finished(i: Incident) {
    i.status.Completed? || i.status.Failed?
  }

  /** The incident a step hands to a worker, if any. */
  function ClaimedBy(s: State, e: Timed): Option<nat> {
    if e.op.OpClaim? then Oldest(s.incidents, s.next) else None
  }

  /** Recording a probe leaves the queue status of existing incidents alone. */
  lemma RecordKeepsQueue(s: State, threshold: nat, place: Place, seen: Observation, now: int, id: nat)
    requires IdsIssued(s) && id in s.incidents
    ensures var after := Record(s, threshold, place, seen, now);
            && id in after.incidents
            && after.incidents[id].status == s.incidents[id].status
            && after.incidents[id].claimedAt == s.incidents[id].claimedAt
  {
    var mid := Recovered(s, place, seen, now);
    assert id in mid.incidents && id < mid.next;
  }

  lemma StepKeepsFinished(s: State, threshold: nat, e: Timed, id: nat)
    requires IdsIssued(s) && id in s.incidents && Finished(s.incidents[id])
    ensures id in Step(s, threshold, e).incidents && Finished(Step(s, threshold, e).incidents[id])
    ensures ClaimedBy(s, e) != Some(id)
  {
    if e.op.OpRecord? { RecordKeepsQueue(s, threshold, e.op.place, e.op.seen, e.now, id); }
  }

  lemma IdsStayIssued(s: State, threshold: nat, e: Timed)
    requires IdsIssued(s)
    ensures IdsIssued(Step(s, threshold, e))
  {
    if e.op.OpRecord? {
      RecoveredIdsIssued(s, e.op.place, e.op.seen, e.now);
      if e.op.seen.Failure? {
        NotedIdsIssued(Recovered(s, e.op.place, e.op.seen, e.now), threshold, e.op.place, e.op.seen, e.now);
      }
    } else {
      QueueOperationsMoveOnly(s, threshold, e);
    }
  }

  /** Held by a claim made at `since`: still running under it, finished, or the lease has passed. */
  predicate Held(s: State, id: nat, since: int, lease: int, now: int) {
    && id in s.incidents
    && (|| Finished(s.incidents[id])
        || (s.incidents[id].status.Running? && s.incidents[id].claimedAt == Some(since))
        || now >= since + lease)
  }

  /** Workers give up on a claim no sooner than the lease. */
  predicate RespectsLease(e: Timed, lease: int) {
    e.op.OpRecoverStale? ==> e.op.age >= lease
  }

  lemma StepKeepsHeld(s: State, threshold: nat, e: Timed, id: nat, since: int, lease: int, now: int)
    requires IdsIssued(s) && Held(s, id, since, lease, now) && now <= e.now && RespectsLease(e, lease)
    ensures Held(Step(s, threshold, e), id, since, lease, e.now)
    ensures ClaimedBy(s, e) == Some(id) ==> e.now >= since + lease
  {
    if e.op.OpRecord? { RecordKeepsQueue(s, threshold, e.op.place, e.op.seen, e.now, id); }
  }

  ghost predicate InOrder(events: seq<Timed>) {
    forall i, j | 0 <= i < j < |events| :: events[i].now <= events[j].now
  }

  lemma {:induction false} HeldThroughRun(s: State, threshold: nat, events: seq<Timed>, id: nat, since: int, lease: int, now: int)
    requires IdsIssued(s) && Held(s, id, since, lease, now) && InOrder(events)
    requires forall e | e in events :: now <= e.now && RespectsLease(e, lease)
    ensures IdsIssued(Run(s, threshold, events))
    ensures Held(Run(s, threshold, events), id, since, lease, if events == [] then now else events[|events| - 1].now)
  {
    if events != [] {
      var init, e := events[..|events| - 1], events[|events| - 1];
      assert forall x | x in init :: x in events;
      HeldThroughRun(s, threshold, init, id, since, lease, now);
      IdsStayIssued(Run(s, threshold, init), threshold, e);
      assert e in events;
      StepKeepsHeld(Run(s, threshold, init), threshold, e, id, since, lease,
                    if init == [] then now else init[|init| - 1].now);
    }
  }

  lemma OrderOfParts(first: Timed, between: seq<Timed>, second: Timed)
    requires InOrder([first] + between + [second])
    ensures first.now <= second.now && InOrder(between)
    ensures forall e | e in between :: first.now <= e.now <= second.now
  {
    var all := [first] + between + [second];
    assert all[0] == first && all[|all| - 1] == second;
    forall i | 0 <= i < |between| ensures first.now <= between[i].now <= second.now { assert all[i + 1] == between[i]; }
    forall i, j | 0 <= i < j < |between| ensures between[i].now <= between[j].now {
      assert all[i + 1] == between[i] && all[j + 1] == between[j];
    }
  }

  lemma ClaimIsHeld(s: State, threshold: nat, e: Timed, id: nat, lease: int)
    requires ClaimedBy(s, e) == Some(id)
    ensures Held(Step(s, threshold, e), id, e.now, lease, e.now)
  {}

  /** Two claims of one incident are at least the lease apart, whatever happens in between. */
  lemma ClaimsAreALeaseApart(s: State, threshold: nat, first: Timed, between: seq<Timed>, second: Timed, id: nat, lease: int)
    requires IdsIssued(s) && ClaimedBy(s, first) == Some(id)
    requires InOrder([first] + between + [second])
    requires forall e | e in between :: RespectsLease(e, lease)
    requires ClaimedBy(Run(Step(s, threshold, first), threshold, between), second) == Some(id)
    ensures second.now - first.now >= lease
  {
    var claimed := Step(s, threshold, first);
    OrderOfParts(first, between, second);
    IdsStayIssued(s, threshold, first);
    ClaimIsHeld(s, threshold, first, id, lease);
    HeldThroughRun(claimed, threshold, between, id, first.now, lease, first.now);
    StepKeepsHeld(Run(claimed, threshold, between), threshold, second, id, first.now, lease,
                  if between == [] then first.now else between[|between| - 1].now);
  }

  /** Once a diagnosis is recorded the incident is never handed out again. */
  lemma {:induction false} FinishedIsFinal(s: State, threshold: nat, events: seq<Timed>, id: nat, e: Timed)
    requires IdsIssued(s) && id in s.incidents && Finished(s.incidents[id])
    ensures var after := Run(s, threshold, events);
            IdsIssued(after) && id in after.incidents && Finished(after.incidents[id]) && ClaimedBy(after, e) != Some(id)
  {
    if events != [] {
      var init, last := events[..|events| - 1], events[|events| - 1];
      FinishedIsFinal(s, threshold, init, id, last);
      StepKeepsFinished(Run(s, threshold, init), threshold, last, id);
      IdsStayIssued(Run(s, threshold, init), threshold, last);
    }
    StepKeepsFinished(Run(s, threshold, events), threshold, e, id);
  }
}
