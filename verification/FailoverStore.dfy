/** The failover service as the source runs it: one state row, updated in place and in commits of its own. */
module FailoverStore {
  import opened Common
  import opened FailoverModel

  class Service {
    const thresholds: Thresholds
    const enabled: bool
    var target: Target
    var content: string
    var failures: nat
    var successes: nat
    var history: seq<Event>

    constructor (th: Thresholds, enabled: bool)
      ensures thresholds == th && this.enabled == enabled && Row() == State(Primary, "", 0, 0, [])
    {
      thresholds, this.enabled, target, content, failures, successes, history := th, enabled, Primary, "", 0, 0, [];
    }

    function Row(): State
      reads this
    {
      State(target, content, failures, successes, history)
    }

    method WriteHistory(e: Event)
      modifies this`history
      ensures Row() == Log(old(Row()), e)
    {
      history := history + [e];
    }

    /** `between` is a switch by hand that gets the lock between the two commits. */
    method RunCheck(contents: Contents, probe: Probe, preferred: Target, between: Option<Order>, api: Api) returns (raised: bool)
      modifies this
      ensures Row() == if enabled then CheckOnce(thresholds, old(Row()), contents, probe, preferred, between, api) else old(Row())
      ensures raised && between.None? ==> target == old(target) && content == old(content)
    {
      raised := false;
      if !enabled {
        return;
      }
      if contents.Broken? {
        WriteHistory(Probed(Skipped));
        return;
      }
      if probe.ExecutorError? {
        WriteHistory(Probed(Failed));
        return;
      }
      var ok := probe.Healthy?;
      CountProbe(ok);
      var transition := Evaluate(thresholds, target, failures, successes, ok, preferred);
      SwitchedByHand(contents, between);
      if transition.Some? {
        raised := SwitchTarget(contents, transition.value, api);
      }
    }

    method CountProbe(ok: bool)
      modifies this`failures, this`successes, this`history
      ensures Row() == Count(old(Row()), ok)
    {
      if ok {
        successes := successes + 1;
        failures := 0;
      } else {
        failures := failures + 1;
        successes := 0;
      }
      WriteHistory(Probed(if ok then Done else Failed));
    }

    method SwitchedByHand(contents: Contents, between: Option<Order>)
      requires enabled && contents.Ready?
      modifies this`target, this`content, this`history
      ensures Row() == Between(old(Row()), contents, between)
    {
      if between.Some? {
        var _ := SwitchTarget(contents, between.value.target, between.value.api);
      }
    }

    /** `raised` reports the validation error the caller sees. */
    method SwitchTarget(contents: Contents, wanted: Target, api: Api) returns (raised: bool)
      modifies this`target, this`content, this`history
      ensures !enabled || contents.Broken? ==> Row() == old(Row())
      ensures enabled && contents.Ready? ==> Row() == SwitchTo(old(Row()), contents, wanted, api)
      ensures raised ==> target == old(target) && content == old(content)
      ensures raised <==> !enabled || contents.Broken? || history[|old(history)|..] == [Switched(Failed, wanted)]
    {
      if !enabled || contents.Broken? {
        return true;
      }
      if api.read.None? {
        WriteHistory(Switched(Failed, wanted));
        return true;
      }
      var found := Recognise(contents, api.read.value);
      if found == Some(wanted) {
        target, content := wanted, api.read.value;
        WriteHistory(Switched(Noop, wanted));
        return false;
      }
      if api.write.None? {
        WriteHistory(Switched(Failed, wanted));
        return true;
      }
      var updated := Recognise(contents, api.write.value);
      target, content := if updated.Some? then updated.value else wanted, api.write.value;
      WriteHistory(Switched(Done, wanted));
      return false;
    }

    method RefreshSnapshot(contents: Contents, read: Option<string>)
      modifies this`target, this`content
      ensures Row() == if enabled then Reread(old(Row()), contents, read) else old(Row())
    {
      if enabled && contents.Ready? && read.Some? {
        var seen := Recognise(contents, read.value);
        target, content := if seen.Some? then seen.value else Primary, read.value;
      }
    }
  }
}
