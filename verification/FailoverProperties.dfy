/** Hysteresis of the failover controller over whole probe traces, and the exactness of the peak-window clock. */
module FailoverProperties {
  import opened Common
  import opened FailoverModel

  // ---------------------------------------------------------------------------------------------
  // Counters are the trailing run
  // ---------------------------------------------------------------------------------------------

  /** The probe results that say something about the node, oldest first. */
  function Outcomes(ops: seq<Op>): seq<bool> {
    if ops == [] then []
    else
      var before, last := Outcomes(ops[..|ops| - 1]), ops[|ops| - 1];
      if Counts(last) then before + [last.probe.Healthy?] else before
  }

  predicate Counts(op: Op) {
    op.Check? && op.contents.Ready? && !op.probe.ExecutorError?
  }

  function Trailing(s: seq<bool>, b: bool): nat {
    if s == [] || s[|s| - 1] != b then 0 else 1 + Trailing(s[..|s| - 1], b)
  }

  lemma TrailingAppend(s: seq<bool>, o: bool, b: bool)
    ensures Trailing(s + [o], b) == if o == b then 1 + Trailing(s, b) else 0
  {
    assert (s + [o])[..|s|] == s;
  }

  lemma OutcomesOfLast(ops: seq<Op>)
    requires ops != []
    ensures var before, op := Outcomes(ops[..|ops| - 1]), ops[|ops| - 1];
            forall b :: Trailing(Outcomes(ops), b) ==
                        if !Counts(op) then Trailing(before, b)
                        else if op.probe.Healthy? == b then 1 + Trailing(before, b) else 0
  {
    if Counts(ops[|ops| - 1]) {
      var healthy := ops[|ops| - 1].probe.Healthy?;
      TrailingAppend(Outcomes(ops[..|ops| - 1]), healthy, true);
      TrailingAppend(Outcomes(ops[..|ops| - 1]), healthy, false);
    }
  }

  lemma CountersOfStep(th: Thresholds, s: State, op: Op)
    ensures !Counts(op) ==> Step(th, s, op).failures == s.failures && Step(th, s, op).successes == s.successes
    ensures Counts(op) ==>
              && Step(th, s, op).failures == (if op.probe.Healthy? then 0 else 1 + s.failures)
              && Step(th, s, op).successes == (if op.probe.Healthy? then 1 + s.successes else 0)
  {}

  /** Whatever switches, rereads and executor errors come between, the counters are the trailing equal results. */
  lemma {:induction false} CountersAreTrailingRuns(th: Thresholds, s: State, ops: seq<Op>)
    requires s.failures == 0 && s.successes == 0
    ensures Run(th, s, ops).failures == Trailing(Outcomes(ops), false)
    ensures Run(th, s, ops).successes == Trailing(Outcomes(ops), true)
  {
    if ops != [] {
      var init, op := ops[..|ops| - 1], ops[|ops| - 1];
      CountersAreTrailingRuns(th, s, init);
      CountersOfStep(th, Run(th, s, init), op);
      OutcomesOfLast(ops);
    }
  }

  // ---------------------------------------------------------------------------------------------
  // Executor errors are invisible
  // ---------------------------------------------------------------------------------------------

  function WithoutErrors(ops: seq<Op>): seq<Op> {
    if ops == [] then []
    else
      var before, last := WithoutErrors(ops[..|ops| - 1]), ops[|ops| - 1];
      if last.Check? && last.probe.ExecutorError? then before else before + [last]
  }

  function Switches(history: seq<Event>): seq<Event> {
    if history == [] then []
    else if history[|history| - 1].Switched? then Switches(history[..|history| - 1]) + [history[|history| - 1]]
    else Switches(history[..|history| - 1])
  }

  /** The row without the log entries about probes. */
  function Core(s: State): State {
    s.(history := Switches(s.history))
  }

  lemma CoreOfLog(s: State, e: Event)
    ensures Core(Log(s, e)) == if e.Switched? then Log(Core(s), e) else Core(s)
  {
    assert (s.history + [e])[..|s.history|] == s.history;
  }

  lemma CoreOfSwitch(s: State, t: State, contents: Contents, target: Target, api: Api)
    requires contents.Ready? && Core(s) == Core(t)
    ensures Core(SwitchTo(s, contents, target, api)) == Core(SwitchTo(t, contents, target, api))
  {
    CoreOfLog(s, Switched(Failed, target));
    CoreOfLog(t, Switched(Failed, target));
    if api.read.Some? {
      CoreOfLog(s.(target := target, content := api.read.value), Switched(Noop, target));
      CoreOfLog(t.(target := target, content := api.read.value), Switched(Noop, target));
    }
    if api.write.Some? {
      var updated := Recognise(contents, api.write.value);
      var landed := if updated.Some? then updated.value else target;
      CoreOfLog(s.(target := landed, content := api.write.value), Switched(Done, target));
      CoreOfLog(t.(target := landed, content := api.write.value), Switched(Done, target));
    }
  }

  lemma CoreOfCount(s: State, t: State, ok: bool)
    requires Core(s) == Core(t)
    ensures Core(Count(s, ok)) == Core(Count(t, ok))
  {
    var e := Probed(if ok then Done else Failed);
    CoreOfLog(s.(failures := if ok then 0 else s.failures + 1, successes := if ok then s.successes + 1 else 0), e);
    CoreOfLog(t.(failures := if ok then 0 else t.failures + 1, successes := if ok then t.successes + 1 else 0), e);
  }

  lemma CoreOfSwitches(a: State, b: State, contents: Contents, between: Option<Order>, wanted: Option<Target>, api: Api)
    requires contents.Ready? && Core(a) == Core(b)
    ensures var f, g := Between(a, contents, between), Between(b, contents, between);
            && Core(f) == Core(g)
            && (wanted.Some? ==> Core(SwitchTo(f, contents, wanted.value, api)) == Core(SwitchTo(g, contents, wanted.value, api)))
  {
    var f, g := Between(a, contents, between), Between(b, contents, between);
    if between.Some? { CoreOfSwitch(a, b, contents, between.value.target, between.value.api); }
    if wanted.Some? { CoreOfSwitch(f, g, contents, wanted.value, api); }
  }

  lemma CoreOfStep(th: Thresholds, s: State, t: State, op: Op)
    requires Core(s) == Core(t)
    ensures Core(Step(th, s, op)) == Core(Step(th, t, op))
    ensures op.Check? && op.probe.ExecutorError? ==> Core(Step(th, s, op)) == Core(s)
  {
    match op
    case Check(contents, probe, preferred, between, api) =>
      if contents.Broken? {
        CoreOfLog(s, Probed(Skipped));
        CoreOfLog(t, Probed(Skipped));
      } else if probe.ExecutorError? {
        CoreOfLog(s, Probed(Failed));
        CoreOfLog(t, Probed(Failed));
      } else {
        var ok := probe.Healthy?;
        var a, b := Count(s, ok), Count(t, ok);
        CoreOfCount(s, t, ok);
        assert a.failures == b.failures && a.successes == b.successes;
        var wanted := Evaluate(th, s.target, a.failures, a.successes, ok, preferred);
        CoreOfSwitches(a, b, contents, between, wanted, api);
      }
    case Manual(contents, target, api) =>
      if contents.Ready? { CoreOfSwitch(s, t, contents, target, api); }
    case Refresh(contents, read) =>
  }

  /** Inserting probes that could not be carried out changes no counter, no target, no record and no switch. */
  lemma {:induction false} ExecutorErrorsAreInvisible(th: Thresholds, s: State, ops: seq<Op>)
    ensures Core(Run(th, s, ops)) == Core(Run(th, s, WithoutErrors(ops)))
  {
    if ops != [] {
      var init, last := ops[..|ops| - 1], ops[|ops| - 1];
      ExecutorErrorsAreInvisible(th, s, init);
      CoreOfStep(th, Run(th, s, init), Run(th, s, WithoutErrors(init)), last);
      var kept := WithoutErrors(init) + [last];
      assert kept[..|kept| - 1] == WithoutErrors(init);
    }
  }

  // ---------------------------------------------------------------------------------------------
  // Hysteresis
  // ---------------------------------------------------------------------------------------------

  /** The record's target is moved by something else than a check with this preference: by hand, perhaps in the middle of a
      check, by a reread that found another content, or by a check that prefers the other target. */
  predicate Disturbs(th: Thresholds, s: State, op: Op, preferred: Target) {
    Step(th, s, op).target != s.target && !(op.Check? && op.preferred == preferred && op.between.None?)
  }

  predicate Undisturbed(th: Thresholds, s: State, ops: seq<Op>, preferred: Target) {
    if ops == [] then true
    else
      var init := ops[..|ops| - 1];
      Undisturbed(th, s, init, preferred) && !Disturbs(th, Run(th, s, init), ops[|ops| - 1], preferred)
  }

  /** How often the record's target changed during the run. */
  function Changes(th: Thresholds, s: State, ops: seq<Op>): nat {
    if ops == [] then 0
    else
      var init := ops[..|ops| - 1];
      Changes(th, s, init) + if Run(th, s, init).target != Run(th, s, ops).target then 1 else 0
  }

  /** Probes that `k` changes ending at `at` take: failures to leave the preferred target, successes to return. */
  function Cost(th: Thresholds, preferred: Target, k: nat, at: Target): nat {
    if k == 0 then 0
    else (if at == preferred then th.recovery else th.failure) + Cost(th, preferred, k - 1, Other(at))
  }

  function Progress(s: State, preferred: Target): nat {
    if s.target == preferred then s.failures else s.successes
  }

  /** One step either keeps the target, or moves it because the counter that guards it has filled. */
  lemma UndisturbedStep(th: Thresholds, s: State, op: Op, preferred: Target)
    requires !Disturbs(th, s, op, preferred)
    ensures var t, counted := Step(th, s, op), Counts(op);
            && (t.target == s.target ==> Progress(t, preferred) <= Progress(s, preferred) + if counted then 1 else 0)
            && (t.target != s.target ==>
                  && counted
                  && Progress(t, preferred) == 0
                  && Progress(s, preferred) + 1 >= if s.target == preferred then th.failure else th.recovery)
  {}

  /** What `k` changes and the counters after them say about the number of probes. */
  predicate PaidFor(th: Thresholds, s: State, t: State, preferred: Target, k: nat, probes: nat) {
    && (k == 0 ==> t.target == s.target && Progress(t, preferred) <= Progress(s, preferred) + probes)
    && (k > 0 ==> probes >= Cost(th, preferred, k - 1, t.target) + Progress(t, preferred))
    && (Progress(s, preferred) == 0 ==> probes >= Cost(th, preferred, k, t.target) + Progress(t, preferred))
  }

  lemma PaidForStep(th: Thresholds, s: State, t: State, op: Op, preferred: Target, k: nat, probes: nat)
    requires !Disturbs(th, t, op, preferred) && PaidFor(th, s, t, preferred, k, probes)
    ensures var u := Step(th, t, op);
            PaidFor(th, s, u, preferred, if u.target != t.target then k + 1 else k, if Counts(op) then probes + 1 else probes)
  {
    UndisturbedStep(th, t, op, preferred);
  }

  lemma {:induction false} ChangesCostProbes(th: Thresholds, s: State, ops: seq<Op>, preferred: Target)
    requires Undisturbed(th, s, ops, preferred)
    ensures PaidFor(th, s, Run(th, s, ops), preferred, Changes(th, s, ops), |Outcomes(ops)|)
  {
    if ops != [] {
      var init, op := ops[..|ops| - 1], ops[|ops| - 1];
      ChangesCostProbes(th, s, init, preferred);
      PaidForStep(th, s, Run(th, s, init), op, preferred, Changes(th, s, init), |Outcomes(init)|);
    }
  }

  lemma OneMoreRound(n: nat, round: nat)
    ensures (n + 1) * round == n * round + round
  {}

  lemma {:induction false} CostOfRounds(th: Thresholds, preferred: Target, k: nat, at: Target)
    ensures Cost(th, preferred, k, at) >= k / 2 * (th.failure + th.recovery)
  {
    var round := th.failure + th.recovery;
    if k < 2 {
      assert k / 2 == 0;
    } else {
      CostOfRounds(th, preferred, k - 2, at);
      assert Cost(th, preferred, k, at) == round + Cost(th, preferred, k - 2, at);
      var n := (k - 2) / 2;
      assert k / 2 == n + 1;
      OneMoreRound(n, round);
    }
  }

  lemma PaidRounds(th: Thresholds, s: State, t: State, preferred: Target, k: nat, probes: nat)
    requires PaidFor(th, s, t, preferred, k, probes)
    ensures k > 0 ==> probes >= (k - 1) / 2 * (th.failure + th.recovery)
    ensures s.failures == 0 && s.successes == 0 ==> probes >= k / 2 * (th.failure + th.recovery)
  {
    CostOfRounds(th, preferred, k, t.target);
    if k > 0 { CostOfRounds(th, preferred, k - 1, t.target); }
  }

  lemma RoundsOfRun(th: Thresholds, s: State, ops: seq<Op>, preferred: Target, k: nat, probes: nat)
    requires Undisturbed(th, s, ops, preferred) && k == Changes(th, s, ops) && probes == |Outcomes(ops)|
    ensures k > 0 ==> probes >= (k - 1) / 2 * (th.failure + th.recovery)
    ensures s.failures == 0 && s.successes == 0 ==> probes >= k / 2 * (th.failure + th.recovery)
  {
    ChangesCostProbes(th, s, ops, preferred);
    PaidRounds(th, s, Run(th, s, ops), preferred, k, probes);
  }

  /** From any state, `k` undisturbed changes take `(k - 1) / 2` full rounds of probes; from zero counters, `k / 2`. */
  lemma HysteresisBound(th: Thresholds, s: State, ops: seq<Op>, preferred: Target)
    requires Undisturbed(th, s, ops, preferred)
    ensures var k := Changes(th, s, ops);
            && (k > 0 ==> |Outcomes(ops)| >= (k - 1) / 2 * (th.failure + th.recovery))
            && (s.failures == 0 && s.successes == 0 ==> |Outcomes(ops)| >= k / 2 * (th.failure + th.recovery))
  {
    RoundsOfRun(th, s, ops, preferred, Changes(th, s, ops), |Outcomes(ops)|);
  }

  // ---------------------------------------------------------------------------------------------
  // Runs with disturbances
  // ---------------------------------------------------------------------------------------------

  function Disturbances(th: Thresholds, s: State, ops: seq<Op>, preferred: Target): nat {
    if ops == [] then 0
    else
      var init := ops[..|ops| - 1];
      Disturbances(th, s, init, preferred) + if Disturbs(th, Run(th, s, init), ops[|ops| - 1], preferred) then 1 else 0
  }

  lemma {:induction false} RunConcat(th: Thresholds, s: State, a: seq<Op>, b: seq<Op>)
    ensures Run(th, s, a + b) == Run(th, Run(th, s, a), b)
    ensures Changes(th, s, a + b) == Changes(th, s, a) + Changes(th, Run(th, s, a), b)
    ensures |Outcomes(a + b)| == |Outcomes(a)| + |Outcomes(b)|
  {
    if b == [] {
      assert a + b == a;
    } else {
      assert (a + b)[..|a + b| - 1] == a + b[..|b| - 1];
      RunConcat(th, s, a, b[..|b| - 1]);
    }
  }

  lemma {:induction false} UndisturbedCons(th: Thresholds, s: State, op: Op, ops: seq<Op>, preferred: Target)
    requires !Disturbs(th, s, op, preferred) && Undisturbed(th, Run(th, s, [op]), ops, preferred)
    ensures Undisturbed(th, s, [op] + ops, preferred)
  {
    if ops == [] {
      assert [op] + ops == [op] && [op][..0] == [];
      assert Undisturbed(th, s, [], preferred);
    } else {
      var init := ops[..|ops| - 1];
      assert ([op] + ops)[..|ops|] == [op] + init;
      UndisturbedCons(th, s, op, init, preferred);
      RunConcat(th, s, [op], init);
    }
  }

  lemma RunOne(th: Thresholds, s: State, op: Op)
    ensures Run(th, s, [op]) == Step(th, s, op)
    ensures Changes(th, s, [op]) == if Step(th, s, op).target != s.target then 1 else 0
  {
    assert [op][..0] == [];
  }

  function Rounds(n: nat, round: nat): nat {
    if n == 0 then 0 else round + Rounds(n - 1, round)
  }

  lemma {:induction false} RoundsAdd(a: nat, b: nat, round: nat)
    ensures Rounds(a + b, round) == Rounds(a, round) + Rounds(b, round)
  {
    if a > 0 { RoundsAdd(a - 1, b, round); }
  }

  lemma {:induction false} RoundsTimes(n: nat, round: nat)
    ensures Rounds(n, round) == n * round
  {
    if n > 0 {
      RoundsTimes(n - 1, round);
      OneMoreRound(n - 1, round);
    }
  }

  /** Twice the probes, and three rounds per disturbance, make up for a round per change, two aside. */
  predicate Damped(probes: nat, k: nat, d: nat, round: nat) {
    2 * probes + Rounds(3 * d + 2, round) >= Rounds(k, round)
  }

  lemma TwiceTheRounds(probes: nat, k: nat, round: nat)
    requires k > 0 ==> probes >= (k - 1) / 2 * round
    ensures Damped(probes, k, 0, round)
  {
    if k > 2 {
      var n := (k - 1) / 2;
      RoundsTimes(n, round);
      RoundsAdd(n, n, round);
      RoundsAdd(2 * n + 2 - k, k, round);
      RoundsAdd(2 * n, 2, round);
    } else {
      RoundsAdd(2 - k, k, round);
    }
  }

  lemma DampedAgain(probes: nat, k: nat, d: nat, more: nat, j: nat, round: nat, total: nat)
    requires Damped(probes, k, d, round) && Damped(more, j, 0, round) && total >= probes + more
    ensures Damped(total, k + 1 + j, d + 1, round)
  {
    RoundsAdd(k + 1, j, round);
    RoundsAdd(k, 1, round);
    RoundsAdd(3 * d + 2, 3, round);
    RoundsAdd(2, 1, round);
  }

  lemma UndisturbedIsDamped(th: Thresholds, s: State, ops: seq<Op>, preferred: Target)
    requires Undisturbed(th, s, ops, preferred)
    ensures Damped(|Outcomes(ops)|, Changes(th, s, ops), 0, th.failure + th.recovery)
  {
    HysteresisBound(th, s, ops, preferred);
    TwiceTheRounds(|Outcomes(ops)|, Changes(th, s, ops), th.failure + th.recovery);
  }

  /** The two parts of a run around a disturbance. */
  lemma AroundDisturbance(th: Thresholds, s: State, init: seq<Op>, op: Op, tail: seq<Op>, preferred: Target)
    requires Disturbs(th, Run(th, s, init), op, preferred)
    ensures var middle := Run(th, s, init + [op]);
            && Changes(th, s, init + [op] + tail) == Changes(th, s, init) + 1 + Changes(th, middle, tail)
            && |Outcomes(init + [op] + tail)| >= |Outcomes(init)| + |Outcomes(tail)|
  {
    OneMoreOp(th, s, init, op);
    RunConcat(th, s, init + [op], tail);
  }

  /** From the `n`-th operation on, nothing disturbs the run. */
  predicate UndisturbedFrom(th: Thresholds, s: State, ops: seq<Op>, n: nat, preferred: Target)
    requires n <= |ops|
  {
    Undisturbed(th, Run(th, s, ops[..n]), ops[n..], preferred)
  }

  lemma UndisturbedEarlier(th: Thresholds, s: State, ops: seq<Op>, n: nat, preferred: Target)
    requires 0 < n <= |ops| && UndisturbedFrom(th, s, ops, n, preferred)
    requires !Disturbs(th, Run(th, s, ops[..n - 1]), ops[n - 1], preferred)
    ensures UndisturbedFrom(th, s, ops, n - 1, preferred)
  {
    var init, op := ops[..n - 1], ops[n - 1];
    assert ops[..n] == init + [op] && ops[n - 1..] == [op] + ops[n..];
    RunConcat(th, s, init, [op]);
    UndisturbedCons(th, Run(th, s, init), op, ops[n..], preferred);
  }

  lemma CountsAround(th: Thresholds, s: State, ops: seq<Op>, n: nat, preferred: Target)
    requires 0 < n <= |ops| && Disturbances(th, s, ops[..n - 1], preferred) != Disturbances(th, s, ops[..n], preferred)
    ensures Disturbances(th, s, ops[..n], preferred) == Disturbances(th, s, ops[..n - 1], preferred) + 1
    ensures Changes(th, s, ops) == Changes(th, s, ops[..n - 1]) + 1 + Changes(th, Run(th, s, ops[..n]), ops[n..])
    ensures |Outcomes(ops)| >= |Outcomes(ops[..n - 1])| + |Outcomes(ops[n..])|
  {
    assert ops[..n][..n - 1] == ops[..n - 1];
    assert ops[..n] == ops[..n - 1] + [ops[n - 1]] && ops == ops[..n] + ops[n..];
    AroundDisturbance(th, s, ops[..n - 1], ops[n - 1], ops[n..], preferred);
  }

  lemma DampedByTail(th: Thresholds, middle: State, tail: seq<Op>, preferred: Target, probes: nat, k: nat, d: nat,
                     total: nat, all: nat)
    requires Damped(probes, k, d, th.failure + th.recovery) && Undisturbed(th, middle, tail, preferred)
    requires all == k + 1 + Changes(th, middle, tail) && total >= probes + |Outcomes(tail)|
    ensures Damped(total, all, d + 1, th.failure + th.recovery)
  {
    UndisturbedIsDamped(th, middle, tail, preferred);
    DampedAgain(probes, k, d, |Outcomes(tail)|, Changes(th, middle, tail), th.failure + th.recovery, total);
  }

  /** One operation back, which was no disturbance. */
  lemma BackWithin(th: Thresholds, s: State, ops: seq<Op>, n: nat, preferred: Target)
    requires 0 < n <= |ops| && UndisturbedFrom(th, s, ops, n, preferred)
    requires Disturbances(th, s, ops[..n], preferred) == Disturbances(th, s, ops[..n - 1], preferred)
    ensures UndisturbedFrom(th, s, ops, n - 1, preferred)
  {
    assert ops[..n][..n - 1] == ops[..n - 1];
    UndisturbedEarlier(th, s, ops, n, preferred);
  }

  /** One operation back over a disturbance: the run before it accounts for one less. */
  lemma BackOver(th: Thresholds, s: State, ops: seq<Op>, n: nat, d: nat, preferred: Target)
    requires 0 < n <= |ops| && UndisturbedFrom(th, s, ops, n, preferred)
    requires d == Disturbances(th, s, ops[..n - 1], preferred) != Disturbances(th, s, ops[..n], preferred)
    requires Damped(|Outcomes(ops[..n - 1])|, Changes(th, s, ops[..n - 1]), d, th.failure + th.recovery)
    ensures Disturbances(th, s, ops[..n], preferred) == d + 1
    ensures Damped(|Outcomes(ops)|, Changes(th, s, ops), d + 1, th.failure + th.recovery)
  {
    CountsAround(th, s, ops, n, preferred);
    DampedByTail(th, Run(th, s, ops[..n]), ops[n..], preferred, |Outcomes(ops[..n - 1])|, Changes(th, s, ops[..n - 1]), d,
                 |Outcomes(ops)|, Changes(th, s, ops));
  }

  lemma BackAtTheStart(th: Thresholds, s: State, ops: seq<Op>, preferred: Target)
    requires UndisturbedFrom(th, s, ops, 0, preferred)
    ensures Disturbances(th, s, ops[..0], preferred) == 0
    ensures Damped(|Outcomes(ops)|, Changes(th, s, ops), 0, th.failure + th.recovery)
  {
    assert ops[..0] == [] && ops[0..] == ops;
    UndisturbedIsDamped(th, s, ops, preferred);
  }

  lemma UndisturbedFromEnd(th: Thresholds, s: State, ops: seq<Op>, preferred: Target)
    ensures UndisturbedFrom(th, s, ops, |ops|, preferred)
  {
    assert ops[|ops|..] == [];
  }

  /** Runs whose last part is undisturbed, taken apart from the back. */
  lemma {:induction false} DisturbedRun(th: Thresholds, s: State, ops: seq<Op>, n: nat, preferred: Target)
    requires n <= |ops| && UndisturbedFrom(th, s, ops, n, preferred)
    ensures Damped(|Outcomes(ops)|, Changes(th, s, ops), Disturbances(th, s, ops[..n], preferred), th.failure + th.recovery)
    decreases n, 0
  {
    if n == 0 {
      BackAtTheStart(th, s, ops, preferred);
    } else {
      var init := ops[..n - 1];
      var d := Disturbances(th, s, init, preferred);
      if Disturbances(th, s, ops[..n], preferred) == d {
        BackWithin(th, s, ops, n, preferred);
        DisturbedRun(th, s, ops, n - 1, preferred);
      } else {
        RunIsDamped(th, s, init, preferred);
        BackOver(th, s, ops, n, d, preferred);
      }
    }
  }

  lemma {:induction false} RunIsDamped(th: Thresholds, s: State, ops: seq<Op>, preferred: Target)
    ensures Damped(|Outcomes(ops)|, Changes(th, s, ops), Disturbances(th, s, ops, preferred), th.failure + th.recovery)
    decreases |ops|, 1
  {
    UndisturbedFromEnd(th, s, ops, preferred);
    assert ops[..|ops|] == ops;
    DisturbedRun(th, s, ops, |ops|, preferred);
  }

  lemma DampedMeans(probes: nat, k: nat, d: nat, round: nat)
    requires Damped(probes, k, d, round)
    ensures 2 * probes >= (k - 3 * d - 2) * round
  {
    RoundsTimes(k, round);
    RoundsTimes(3 * d + 2, round);
    assert (k - 3 * d - 2) * round == k * round - (3 * d + 2) * round;
  }

  /** Every run whatever, from any state: `k` changes, `d` of them not the controller's, take `(k - 3d - 2) / 2` rounds of
      probes. A disturbance costs the controller's damping at most itself, one change it makes for free, and one half round. */
  lemma EveryRunIsDamped(th: Thresholds, s: State, ops: seq<Op>, preferred: Target)
    ensures 2 * |Outcomes(ops)| >=
            (Changes(th, s, ops) - 3 * Disturbances(th, s, ops, preferred) - 2) * (th.failure + th.recovery)
  {
    RunIsDamped(th, s, ops, preferred);
    DampedMeans(|Outcomes(ops)|, Changes(th, s, ops), Disturbances(th, s, ops, preferred), th.failure + th.recovery);
  }

  /** Without counting disturbances the bound is false: a reread that finds the backup, and one healthy probe to return. */
  lemma RereadIsNotPaidFor()
    ensures var th, s, ready := Thresholds(1, 1), State(Primary, "p", 0, 0, []), Ready("p", "b");
            var ops := [Refresh(ready, Some("b")), Check(ready, Healthy, Primary, None, Api(Some("b"), Some("p")))];
            Changes(th, s, ops) == 2 && |Outcomes(ops)| == 1 < Changes(th, s, ops) / 2 * (th.failure + th.recovery)
  {
    var th, s, ready := Thresholds(1, 1), State(Primary, "p", 0, 0, []), Ready("p", "b");
    var reread, check := Refresh(ready, Some("b")), Check(ready, Healthy, Primary, None, Api(Some("b"), Some("p")));
    assert [reread, check] == [reread] + [check];
    RunOne(th, s, reread);
    OneMoreOp(th, s, [reread], check);
    assert [reread][..0] == [] && Outcomes([reread]) == [];
  }

  // ---------------------------------------------------------------------------------------------
  // The controller's decision, read off the probe results alone
  // ---------------------------------------------------------------------------------------------

  /** The DNS API answers, and what it then holds is what it was asked to hold. */
  predicate Honest(op: Op) {
    && op.Check? && op.between.None? && op.contents.Ready? && op.contents.primary != op.contents.backup
    && op.api.read.Some?
    && op.api.write == Some(if Evaluated(op) == Primary then op.contents.primary else op.contents.backup)
  }

  /** The target a check would move to, were a threshold reached. */
  function Evaluated(op: Op): Target
    requires op.Check?
  {
    if op.probe.Healthy? then op.preferred else Other(op.preferred)
  }

  /** The last result that completed a run of its threshold's length decides; before any did, `start` stands. */
  function Decided(th: Thresholds, results: seq<bool>, preferred: Target, start: Target): Target {
    if results == [] then start
    else
      var ok := results[|results| - 1];
      if Trailing(results, ok) >= (if ok then th.recovery else th.failure)
      then if ok then preferred else Other(preferred)
      else Decided(th, results[..|results| - 1], preferred, start)
  }

  /** Only checks, all with the same preference. */
  predicate Automatic(ops: seq<Op>, preferred: Target) {
    forall i | 0 <= i < |ops| :: ops[i].Check? && ops[i].preferred == preferred
  }

  lemma {:induction false} LastDecisiveRunWins(th: Thresholds, s: State, ops: seq<Op>, preferred: Target)
    requires s.failures == 0 && s.successes == 0
    requires Automatic(ops, preferred) && forall i | 0 <= i < |ops| :: Honest(ops[i])
    ensures Run(th, s, ops).target == Decided(th, Outcomes(ops), preferred, s.target)
  {
    if ops != [] {
      var init, op := ops[..|ops| - 1], ops[|ops| - 1];
      var before := Run(th, s, init);
      LastDecisiveRunWins(th, s, init, preferred);
      CountersAreTrailingRuns(th, s, init);
      CountersAreTrailingRuns(th, s, ops);
      HonestStep(th, before, op);
      if !op.probe.ExecutorError? {
        assert Outcomes(ops)[..|Outcomes(ops)| - 1] == Outcomes(init);
      }
    }
  }

  lemma HonestStep(th: Thresholds, s: State, op: Op)
    requires Honest(op)
    ensures Step(th, s, op).target ==
            if op.probe.Healthy? && s.successes + 1 >= th.recovery then op.preferred
            else if op.probe.Unhealthy? && s.failures + 1 >= th.failure then Other(op.preferred)
            else s.target
  {}

  /** A switch by hand in the middle of a check that has decided to switch is overruled, if the DNS API works. */
  lemma CheckOverrulesHand(th: Thresholds, s: State, op: Op)
    requires op.Check? && Honest(op.(between := None)) && op.between.Some?
    requires Step(th, s, op.(between := None)).target != s.target
    ensures Step(th, s, op).target == Step(th, s, op.(between := None)).target
  {}

  // ---------------------------------------------------------------------------------------------
  // The bound is met
  // ---------------------------------------------------------------------------------------------

  /** A check of a healthy or unhealthy node whose DNS API works. */
  function GoodCheck(ok: bool, preferred: Target): Op {
    var wanted := if ok then preferred else Other(preferred);
    Check(Ready("p", "b"), if ok then Healthy else Unhealthy, preferred, None,
          Api(Some(""), Some(if wanted == Primary then "p" else "b")))
  }

  function Repeat(ok: bool, preferred: Target, n: nat): seq<Op> {
    seq(n, i => GoodCheck(ok, preferred))
  }

  /** `k` changes with not one probe to spare: thresholds filled in turn, failures first. */
  function Alternating(th: Thresholds, preferred: Target, k: nat): seq<Op> {
    if k == 0 then []
    else Alternating(th, preferred, k - 1) + Repeat(k % 2 == 0, preferred, Needed(th, k % 2 == 0))
  }

  lemma OneMoreOp(th: Thresholds, s: State, init: seq<Op>, op: Op)
    ensures Run(th, s, init + [op]) == Step(th, Run(th, s, init), op)
    ensures Changes(th, s, init + [op])
         == Changes(th, s, init) + if Run(th, s, init).target != Step(th, Run(th, s, init), op).target then 1 else 0
    ensures |Outcomes(init + [op])|
         == |Outcomes(init)| + if Counts(op) then 1 else 0
  {
    assert (init + [op])[..|init|] == init;
  }

  function Needed(th: Thresholds, ok: bool): nat {
    if ok then th.recovery else th.failure
  }

  lemma GoodStep(th: Thresholds, t: State, ok: bool, preferred: Target)
    requires t.target == if ok then Other(preferred) else preferred
    ensures var u, filled := Step(th, t, GoodCheck(ok, preferred)), Progress(t, preferred) + 1 >= Needed(th, ok);
            && u.target == (if filled then Other(t.target) else t.target)
            && Progress(u, preferred) == if filled then 0 else Progress(t, preferred) + 1
  {}

  lemma RepeatOneMore(ops: seq<Op>, ok: bool, preferred: Target, n: nat)
    ensures ops + Repeat(ok, preferred, n + 1) == ops + Repeat(ok, preferred, n) + [GoodCheck(ok, preferred)]
  {}

  lemma {:induction false} FillThreshold(th: Thresholds, s: State, ops: seq<Op>, ok: bool, preferred: Target, n: nat)
    requires 0 < Needed(th, ok) && n <= Needed(th, ok)
    requires var t := Run(th, s, ops); t.target == (if ok then Other(preferred) else preferred) && Progress(t, preferred) == 0
    ensures var t, u := Run(th, s, ops), Run(th, s, ops + Repeat(ok, preferred, n));
            var filled := n == Needed(th, ok);
            && |Outcomes(ops + Repeat(ok, preferred, n))| == |Outcomes(ops)| + n
            && Changes(th, s, ops + Repeat(ok, preferred, n)) == Changes(th, s, ops) + (if filled then 1 else 0)
            && u.target == (if filled then Other(t.target) else t.target)
            && Progress(u, preferred) == if filled then 0 else n
  {
    if n == 0 {
      assert ops + Repeat(ok, preferred, 0) == ops;
    } else {
      FillThreshold(th, s, ops, ok, preferred, n - 1);
      var init, op := ops + Repeat(ok, preferred, n - 1), GoodCheck(ok, preferred);
      RepeatOneMore(ops, ok, preferred, n - 1);
      OneMoreOp(th, s, init, op);
      GoodStep(th, Run(th, s, init), ok, preferred);
    }
  }

  lemma {:induction false} AlternatingIsAutomatic(th: Thresholds, preferred: Target, k: nat)
    ensures Automatic(Alternating(th, preferred, k), preferred)
  {
    if k > 0 { AlternatingIsAutomatic(th, preferred, k - 1); }
  }

  /** Where `k` alternations leave the record. */
  function Landing(preferred: Target, k: nat): Target {
    if k % 2 == 0 then preferred else Other(preferred)
  }

  /** `ops` changed the target `k` times, at exactly the cost of `k` changes. */
  predicate ChangedAtCost(th: Thresholds, s: State, ops: seq<Op>, preferred: Target, k: nat) {
    && Run(th, s, ops).target == Landing(preferred, k)
    && Progress(Run(th, s, ops), preferred) == 0
    && Changes(th, s, ops) == k
    && |Outcomes(ops)| == Cost(th, preferred, k, Landing(preferred, k))
  }

  lemma CostOfLanding(th: Thresholds, preferred: Target, k: nat)
    requires k > 0
    ensures var ok := k % 2 == 0;
            && Landing(preferred, k - 1) == (if ok then Other(preferred) else preferred)
            && Landing(preferred, k) == Other(Landing(preferred, k - 1))
            && Cost(th, preferred, k, Landing(preferred, k))
               == Needed(th, ok) + Cost(th, preferred, k - 1, Landing(preferred, k - 1))
  {}

  lemma OneMoreChange(th: Thresholds, s: State, ops: seq<Op>, preferred: Target, k: nat)
    requires th.failure > 0 && th.recovery > 0 && k > 0 && ChangedAtCost(th, s, ops, preferred, k - 1)
    ensures ChangedAtCost(th, s, ops + Repeat(k % 2 == 0, preferred, Needed(th, k % 2 == 0)), preferred, k)
  {
    CostOfLanding(th, preferred, k);
    FillThreshold(th, s, ops, k % 2 == 0, preferred, Needed(th, k % 2 == 0));
  }

  /** The cost is exact: some trace of `Cost` probes changes the target `k` times. */
  lemma {:induction false} HysteresisBoundIsMet(th: Thresholds, s: State, preferred: Target, k: nat)
    requires th.failure > 0 && th.recovery > 0
    requires s.target == preferred && s.failures == 0 && s.successes == 0
    ensures ChangedAtCost(th, s, Alternating(th, preferred, k), preferred, k)
  {
    if k > 0 {
      HysteresisBoundIsMet(th, s, preferred, k - 1);
      OneMoreChange(th, s, Alternating(th, preferred, k - 1), preferred, k);
    }
  }

  // ---------------------------------------------------------------------------------------------
  // The two rules
  // ---------------------------------------------------------------------------------------------

  function Swap(t: Option<Target>): Option<Target> {
    if t.Some? then Some(Other(t.value)) else None
  }

  /** With the primary preferred the service follows the manager's rule; with the backup preferred, its mirror image. */
  lemma ServiceRuleRefinesManager(th: Thresholds, current: Target, failures: nat, successes: nat, ok: bool)
    ensures Evaluate(th, current, failures, successes, ok, Primary) == ManagerRule(th, current, failures, successes, ok)
    ensures Evaluate(th, current, failures, successes, ok, Backup) ==
            Swap(ManagerRule(th, Other(current), failures, successes, ok))
  {}

  // ---------------------------------------------------------------------------------------------
  // The clock
  // ---------------------------------------------------------------------------------------------

  /** The window's flag on seconds of the day. */
  predicate ActiveSecond(second: int, start: int, end: int) {
    if start < end then start <= second < end else second >= start || second < end
  }

  lemma ActiveBySeconds(t: nat, start: nat, end: nat)
    ensures PeakActive(MinuteAt(t), start, end) == ActiveSecond(t % DAY, start * 60, end * 60)
  {
    MinuteBounds(t % DAY, start);
    MinuteBounds(t % DAY, end);
  }

  lemma MinuteBounds(second: nat, boundary: nat)
    ensures second / 60 < boundary <==> second < boundary * 60
  {}

  lemma WrapOnce(x: int)
    requires -DAY < x < 2 * DAY
    ensures x % DAY == if x < 0 then x + DAY else if x < DAY then x else x - DAY
  {}

  /** On the circle of a day: `later` seconds after `now` the flag differs exactly at the boundary ahead. */
  lemma FlipsAtTheBoundary(now: int, later: int, start: int, end: int)
    requires 0 <= now < DAY && 0 <= start < DAY && 0 <= end < DAY && start != end
    requires var boundary := if ActiveSecond(now, start, end) then end else start;
             0 <= later <= if boundary < now then boundary - now + DAY else boundary - now
    ensures var boundary := if ActiveSecond(now, start, end) then end else start;
            var second := if now + later < DAY then now + later else now + later - DAY;
            boundary != now
            && (ActiveSecond(second, start, end) != ActiveSecond(now, start, end) <==>
                later == if boundary < now then boundary - now + DAY else boundary - now)
  {}

  /** The window's flag holds until the computed second and flips at it, across midnight or not. */
  lemma NextTransitionIsExact(now: nat, start: nat, end: nat)
    requires now < DAY && start < 1440 && end < 1440 && start != end
    ensures 0 < SecondsToTransition(now, start, end) < DAY
    ensures forall t | now <= t < now + SecondsToTransition(now, start, end) ::
              PeakActive(MinuteAt(t), start, end) == PeakActive(MinuteAt(now), start, end)
    ensures PeakActive(MinuteAt(now + SecondsToTransition(now, start, end)), start, end) !=
            PeakActive(MinuteAt(now), start, end)
  {
    WrapOnce(now);
    ActiveBySeconds(now, start, end);
    var boundary := 60 * if PeakActive(MinuteAt(now), start, end) then end else start;
    WrapOnce(boundary - now);
    FlipsAtTheBoundary(now, 0, start * 60, end * 60);
    var delta := SecondsToTransition(now, start, end);
    assert delta == if boundary < now then boundary - now + DAY else boundary - now;
    forall t | now <= t <= now + delta
      ensures (PeakActive(MinuteAt(t), start, end) != PeakActive(MinuteAt(now), start, end)) <==> t == now + delta
    {
      WrapOnce(t);
      ActiveBySeconds(t, start, end);
      FlipsAtTheBoundary(now, t - now, start * 60, end * 60);
    }
  }
}
