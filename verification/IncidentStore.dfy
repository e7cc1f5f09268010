/** The incident tables as mutable state, and the worker that drains the queue. */
module IncidentStore {
  import opened Common
  import opened IncidentModel

  class Store {
    const threshold: nat
    var streaks: map<StreakKey, Streak>
    var incidents: map<nat, Incident>
    var events: multiset<Event>
    var next: nat

    constructor (failureThreshold: nat)
      requires failureThreshold >= 1
      ensures Snapshot() == EMPTY && threshold == failureThreshold
    {
      threshold := failureThreshold;
      streaks, incidents, events, next := map[], map[], multiset{}, 0;
    }

    function Snapshot(): State
      reads this
    {
      State(streaks, incidents, events, next)
    }

    method ExtendStreak(place: Place, seen: Observation, now: int)
      modifies this`streaks
      ensures streaks == Streaks(old(streaks), place, seen, now)
    {
      if seen.Success? {
        streaks := map k | k in streaks && k.place != place :: streaks[k];
        return;
      }
      var key := KeyOf(place, seen);
      streaks := map k | k in streaks && !(k.place == place && (k.kind != seen.kind || k.origin != seen.origin)) :: streaks[k];
      if key in streaks {
        streaks := streaks[key := streaks[key].(occurrences := streaks[key].occurrences + 1)];
      } else {
        streaks := streaks[key := Streak(now, 1)];
      }
      assert streaks == Streaks(old(streaks), place, seen, now);
    }

    /** Close what the observation recovers, one row and one event at a time. */
    method CloseRecovered(place: Place, seen: Observation, now: int)
      modifies this`incidents, this`events
      ensures incidents == Close(old(incidents), RecoveredBy(old(incidents), place, seen), now)
      ensures events == old(events) + RecoveryEvents(RecoveredBy(old(incidents), place, seen))
    {
      ghost var ids := RecoveredBy(incidents, place, seen);
      var open := RecoveredBy(incidents, place, seen);
      NothingClosed(incidents, now);
      assert ids - open == {};
      while open != {}
        invariant open <= ids <= old(incidents).Keys
        invariant incidents == Close(old(incidents), ids - open, now)
        invariant events == old(events) + RecoveryEvents(ids - open)
        decreases |open|
      {
        var id :| id in open;
        OneMoreClosed(ids, open, id);
        CloseAdd(old(incidents), ids - open, id, now);
        RecoveryEventsAdd(ids - open, id);
        CloseOne(id, now);
        open := open - {id};
      }
      assert ids - open == ids;
    }

    method CloseOne(id: nat, now: int)
      requires id in incidents
      modifies this`incidents, this`events
      ensures incidents == old(incidents)[id := old(incidents)[id].(recovered := Some(now), last := now)]
      ensures events == old(events) + multiset{Event(id, Recovery)}
    {
      incidents := incidents[id := incidents[id].(recovered := Some(now), last := now)];
      events := events + multiset{Event(id, Recovery)};
    }

    method RecordProbe(place: Place, seen: Observation, now: int)
      modifies this
      ensures Snapshot() == Record(old(Snapshot()), threshold, place, seen, now)
    {
      ExtendStreak(place, seen, now);
      CloseRecovered(place, seen, now);
      if seen.Failure? {
        CountFailure(place, seen, now);
      }
    }

    method CountFailure(place: Place, seen: Observation, now: int)
      requires seen.Failure? && KeyOf(place, seen) in streaks
      modifies this`incidents, this`events, this`next
      ensures Snapshot() == NoteFailure(old(Snapshot()), threshold, place, seen, now)
    {
      var streak := streaks[KeyOf(place, seen)];
      var current := OpenIncident(place, seen.kind);
      var id := next;
      if current.Some? {
        id := current.value;
        incidents := incidents[id := Continue(incidents[id], seen, streak.occurrences >= threshold, now)];
      } else {
        if streak.occurrences < threshold {
          return;
        }
        incidents := incidents[id := Begin(place, seen, streak, now)];
        next := next + 1;
      }
      events := events + multiset{Event(id, FailureSeen)};
    }

    method OpenIncident(place: Place, kind: Kind) returns (id: Option<nat>)
      ensures id == FindOpen(incidents, place, kind, next)
    {
      var bound: nat := next;
      while bound > 0 && !(bound - 1 in incidents && IsOpen(incidents[bound - 1], place, kind))
        invariant bound <= next
        invariant FindOpen(incidents, place, kind, bound) == FindOpen(incidents, place, kind, next)
        decreases bound
      {
        bound := bound - 1;
      }
      return if bound == 0 then None else Some(bound - 1);
    }

    method RequeueStale(age: int, now: int)
      modifies this`incidents
      ensures Snapshot() == RecoverStale(old(Snapshot()), age, now)
    {
      incidents := map id | id in incidents ::
        if Stale(incidents[id], age, now) then incidents[id].(status := Queued, claimedAt := None) else incidents[id];
    }

    method ClaimNext(now: int) returns (id: Option<nat>)
      modifies this`incidents
      ensures id == Oldest(old(incidents), next)
      ensures Snapshot() == Claim(old(Snapshot()), now)
    {
      id := None;
      for bound := 0 to next
        invariant id == Oldest(incidents, bound)
        invariant incidents == old(incidents)
      {
        if bound in incidents && Claimable(incidents[bound]) &&
           (id.None? || incidents[bound].first < incidents[id.value].first) {
          id := Some(bound);
        }
      }
      if id.Some? {
        incidents := incidents[id.value := incidents[id.value].(status := Running, claimedAt := Some(now))];
      }
    }

    method FinishIncident(id: nat, error: bool)
      modifies this`incidents
      ensures Snapshot() == Finish(old(Snapshot()), id, error)
    {
      if id in incidents {
        incidents := incidents[id := incidents[id].(status := if error then Failed else Completed)];
      }
    }

    /** One turn of the worker; `diagnosed` and `stored` say whether the runner and each write of a report succeed. */
    method ProcessOne(now: int, diagnosed: bool, storedFirst: bool, storedSecond: bool) returns (worked: bool)
      modifies this`incidents
      ensures worked <==> Oldest(old(incidents), next).Some? && ((diagnosed && storedFirst) || storedSecond)
      ensures var id := Oldest(old(incidents), next);
              Snapshot() == if id.None? then old(Snapshot())
                            else if diagnosed && storedFirst then Finish(Claim(old(Snapshot()), now), id.value, false)
                            else if storedSecond then Finish(Claim(old(Snapshot()), now), id.value, true)
                            else Claim(old(Snapshot()), now)
    {
      var id := ClaimNext(now);
      if id.None? {
        return false;
      }
      if diagnosed && storedFirst {
        FinishIncident(id.value, false);
        return true;
      }
      if storedSecond {
        FinishIncident(id.value, true);
        return true;
      }
      return false;
    }
  }

  lemma NothingClosed(incidents: map<nat, Incident>, now: int)
    ensures Close(incidents, {}, now) == incidents && RecoveryEvents({}) == multiset{}
  {
    assert (set id | id in {} :: Event(id, Recovery)) == {};
  }

  lemma OneMoreClosed(ids: set<nat>, open: set<nat>, id: nat)
    requires open <= ids && id in open
    ensures id !in ids - open && ids - (open - {id}) == (ids - open) + {id}
  {}

  lemma CloseAdd(incidents: map<nat, Incident>, done: set<nat>, id: nat, now: int)
    requires id in incidents && id !in done
    ensures Close(incidents, done + {id}, now)
         == Close(incidents, done, now)[id := Close(incidents, done, now)[id].(recovered := Some(now), last := now)]
  {}

  lemma RecoveryEventsAdd(done: set<nat>, id: nat)
    requires id !in done
    ensures RecoveryEvents(done + {id}) == RecoveryEvents(done) + multiset{Event(id, Recovery)}
  {
    assert (set x | x in done + {id} :: Event(x, Recovery)) == (set x | x in done :: Event(x, Recovery)) + {Event(id, Recovery)};
  }
}
