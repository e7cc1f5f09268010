/** Counter evidence that an account's traffic passes its queues, kept across inspections of the limiter. */
module LimiterObservation {
  import opened Common

  type Account = nat

  /** Byte counters of an account's upload and download class. */
  datatype Counters = Counters(up: nat, down: nat)

  /** One inspection: boot, daemon and policy hash together, and the counters of every limited account. */
  datatype Reading = Reading(key: string, stats: map<Account, Counters>)

  datatype Proof = Proof(key: string, baseline: map<Account, Counters>, verified: set<Account>)

  predicate Below(now: Counters, base: Counters) {
    now.up < base.up || now.down < base.down
  }

  predicate Above(now: Counters, base: Counters) {
    now.up > base.up && now.down > base.down
  }

  function BaselineOf(p: Proof, a: Account): Counters {
    if a in p.baseline then p.baseline[a] else Counters(0, 0)
  }

  /** One account's part of an inspection. */
  function JudgeOne(p: Proof, a: Account, now: Counters): Proof {
    var base := BaselineOf(p, a);
    if Below(now, base) then Proof(p.key, p.baseline[a := now], p.verified - {a})
    else Proof(p.key, p.baseline[a := base], if Above(now, base) then p.verified + {a} else p.verified)
  }

  /** Evidence of another boot, daemon or policy is dropped. */
  function Started(p: Option<Proof>, r: Reading): Proof {
    if p.Some? && p.value.key == r.key then p.value else Proof(r.key, r.stats, {})
  }

  /** What the proof says about one account after a reading. */
  function Judged(p: Option<Proof>, r: Reading, a: Account): (Counters, bool)
    requires a in r.stats
  {
    var q := JudgeOne(Started(p, r), a, r.stats[a]);
    (q.baseline[a], a in q.verified)
  }

  /** `after` judges every account of the reading by itself, and leaves the others alone. */
  ghost predicate IsJudgement(p: Option<Proof>, r: Reading, after: Proof) {
    && after.key == r.key
    && (forall a | a in r.stats :: a in after.baseline && (after.baseline[a], a in after.verified) == Judged(p, r, a))
    && (forall a | a !in r.stats :: (a in after.verified <==> a in Started(p, r).verified)
                                    && BaselineOf(after, a) == BaselineOf(Started(p, r), a))
  }

  /** The loop over the limited accounts. */
  function JudgeAll(p: Proof, r: Reading, limited: seq<Account>): Proof
    requires forall a | a in limited :: a in r.stats
  {
    if limited == [] then p
    else
      var a := limited[|limited| - 1];
      JudgeOne(JudgeAll(p, r, limited[..|limited| - 1]), a, r.stats[a])
  }

  predicate Distinct(s: seq<Account>) {
    forall i, j | 0 <= i < j < |s| :: s[i] != s[j]
  }

  class Limiter {
    var observation: Option<Proof>
    /** Whether the state file carries this tool's mark; without it nothing is saved. */
    var owned: bool

    constructor (owned: bool)
      ensures observation == None && this.owned == owned
    {
      observation, this.owned := None, owned;
    }

    method Inspect(r: Reading, limited: seq<Account>) returns (observed: seq<Account>, ghost after: Proof)
      requires (forall a | a in limited :: a in r.stats) && Distinct(limited)
      modifies this`observation
      ensures after == JudgeAll(Started(old(observation), r), r, limited)
      ensures forall a :: a in observed <==> a in limited && a in after.verified
      ensures observation == if owned then Some(after) else old(observation)
    {
      var proof := Started(observation, r);
      observed := [];
      for i := 0 to |limited|
        invariant proof == JudgeAll(Started(old(observation), r), r, limited[..i])
        invariant forall a :: a in observed <==> a in limited[..i] && a in proof.verified
      {
        var a := limited[i];
        assert limited[..i + 1][..i] == limited[..i];
        assert a !in limited[..i];
        proof := JudgeOne(proof, a, r.stats[a]);
        if a in proof.verified {
          observed := observed + [a];
        }
      }
      assert limited[..|limited|] == limited;
      after := proof;
      if owned {
        observation := Some(proof);
      }
    }
  }

  /** Judging `b` depends on what is known of `b` alone, and tells nothing of another account. */
  lemma JudgeOneAt(p: Proof, q: Proof, a: Account, b: Account, now: Counters)
    ensures var one := JudgeOne(q, b, now);
            && one.key == q.key
            && (a != b ==> (a in one.verified <==> a in q.verified) && BaselineOf(one, a) == BaselineOf(q, a)
                           && (a in q.baseline ==> a in one.baseline))
            && (a == b && (b in q.verified <==> b in p.verified) && BaselineOf(q, b) == BaselineOf(p, b) ==>
                  b in one.baseline && one.baseline[b] == JudgeOne(p, b, now).baseline[b]
                  && (b in one.verified <==> b in JudgeOne(p, b, now).verified))
  {}

  lemma {:induction false} JudgeAllAt(p: Proof, r: Reading, limited: seq<Account>, a: Account)
    requires (forall b | b in limited :: b in r.stats) && Distinct(limited)
    ensures var q := JudgeAll(p, r, limited);
            && q.key == p.key
            && (a !in limited ==> (a in q.verified <==> a in p.verified) && BaselineOf(q, a) == BaselineOf(p, a))
            && (a in limited ==>
                  var one := JudgeOne(p, a, r.stats[a]);
                  a in q.baseline && q.baseline[a] == one.baseline[a] && (a in q.verified <==> a in one.verified))
  {
    if limited != [] {
      var init, last := limited[..|limited| - 1], limited[|limited| - 1];
      assert limited == init + [last];
      JudgeAllAt(p, r, init, a);
      if a == last { assert a !in init; }
      JudgeOneAt(p, JudgeAll(p, r, init), a, last, r.stats[last]);
    }
  }

  /** Whatever the order of the accounts, each is judged by its own counters alone. */
  lemma InspectionJudgesEachAccount(p: Option<Proof>, r: Reading, limited: seq<Account>)
    requires (forall a :: a in limited <==> a in r.stats) && Distinct(limited)
    ensures IsJudgement(p, r, JudgeAll(Started(p, r), r, limited))
  {
    forall a ensures var q := JudgeAll(Started(p, r), r, limited);
                     if a in r.stats then a in q.baseline && (q.baseline[a], a in q.verified) == Judged(p, r, a)
                     else (a in q.verified <==> a in Started(p, r).verified) && BaselineOf(q, a) == BaselineOf(Started(p, r), a)
    {
      JudgeAllAt(Started(p, r), r, limited, a);
    }
    JudgeAllAt(Started(p, r), r, limited, 0);
  }

  // ---------------------------------------------------------------------------------------------
  // Histories
  // ---------------------------------------------------------------------------------------------

  function Of(r: Reading, a: Account): Counters {
    if a in r.stats then r.stats[a] else Counters(0, 0)
  }

  /** What a history of saved inspections leaves about one account: its baseline and whether it is verified. */
  function After(h: seq<Reading>, a: Account): (Counters, bool)
    requires h != []
  {
    var now := Of(h[|h| - 1], a);
    if |h| == 1 || h[|h| - 2].key != h[|h| - 1].key then (now, false)
    else
      var (base, verified) := After(h[..|h| - 1], a);
      if Below(now, base) then (now, false) else (base, verified || Above(now, base))
  }

  /** Readings of one key report the same accounts: the key holds the policy's hash. */
  predicate KeyFixesAccounts(h: seq<Reading>) {
    forall i, j | 0 <= i < |h| && 0 <= j < |h| && h[i].key == h[j].key :: h[i].stats.Keys == h[j].stats.Keys
  }

  function LastOf(proofs: seq<Proof>): Option<Proof> {
    if proofs == [] then None else Some(proofs[|proofs| - 1])
  }

  /** The proofs a limiter that owns its state file saves, one inspection after the other. */
  ghost predicate IsRun(h: seq<Reading>, proofs: seq<Proof>) {
    && |proofs| == |h|
    && (h != [] ==>
          && IsRun(h[..|h| - 1], proofs[..|h| - 1])
          && IsJudgement(LastOf(proofs[..|h| - 1]), h[|h| - 1], proofs[|h| - 1]))
  }

  lemma KeyFixesEarlier(h: seq<Reading>)
    requires h != [] && KeyFixesAccounts(h)
    ensures KeyFixesAccounts(h[..|h| - 1])
  {}

  /** One judgement of one account, from what the proof before it said. */
  lemma JudgementOf(p: Option<Proof>, r: Reading, after: Proof, a: Account)
    requires IsJudgement(p, r, after) && a in r.stats
    ensures a in after.baseline && after.key == r.key
    ensures p.None? || p.value.key != r.key ==> (after.baseline[a], a in after.verified) == (r.stats[a], false)
    ensures p.Some? && p.value.key == r.key && a in p.value.baseline ==>
              var base, verified := p.value.baseline[a], a in p.value.verified;
              (after.baseline[a], a in after.verified) ==
              if Below(r.stats[a], base) then (r.stats[a], false) else (base, verified || Above(r.stats[a], base))
  {
    assert (after.baseline[a], a in after.verified) == Judged(p, r, a);
  }

  lemma RunKeys(h: seq<Reading>, proofs: seq<Proof>)
    requires h != [] && IsRun(h, proofs)
    ensures LastOf(proofs).Some? && LastOf(proofs).value.key == h[|h| - 1].key
  {}

  /** The proof says of the account what its history does. */
  ghost predicate Tracks(p: Proof, h: seq<Reading>, a: Account)
    requires h != []
  {
    a in p.baseline && p.key == h[|h| - 1].key && (p.baseline[a], a in p.verified) == After(h, a)
  }

  lemma TracksFirst(h: seq<Reading>, p: Option<Proof>, after: Proof, a: Account)
    requires h != [] && IsJudgement(p, h[|h| - 1], after) && a in h[|h| - 1].stats
    requires |h| == 1 || h[|h| - 2].key != h[|h| - 1].key
    requires p.None? || p.value.key != h[|h| - 1].key
    ensures Tracks(after, h, a)
  {
    JudgementOf(p, h[|h| - 1], after, a);
  }

  lemma TracksNext(h: seq<Reading>, p: Proof, after: Proof, a: Account)
    requires |h| > 1 && h[|h| - 2].key == h[|h| - 1].key && a in h[|h| - 1].stats
    requires IsJudgement(Some(p), h[|h| - 1], after) && Tracks(p, h[..|h| - 1], a)
    ensures Tracks(after, h, a)
  {
    assert h[..|h| - 1][|h| - 2] == h[|h| - 2];
    JudgementOf(Some(p), h[|h| - 1], after, a);
  }

  lemma {:induction false} RunFollowsHistory(h: seq<Reading>, proofs: seq<Proof>, a: Account)
    requires h != [] && IsRun(h, proofs) && KeyFixesAccounts(h) && a in h[|h| - 1].stats
    ensures Tracks(proofs[|h| - 1], h, a)
  {
    var n := |h| - 1;
    if n > 0 { RunKeys(h[..n], proofs[..n]); }
    if n > 0 && h[n - 1].key == h[n].key {
      assert a in h[n].stats.Keys && h[n - 1].stats.Keys == h[n].stats.Keys;
      KeyFixesEarlier(h);
      RunFollowsHistory(h[..n], proofs[..n], a);
      TracksNext(h, proofs[n - 1], proofs[n], a);
    } else {
      TracksFirst(h, LastOf(proofs[..n]), proofs[n], a);
    }
  }

  // ---------------------------------------------------------------------------------------------
  // What verified means
  // ---------------------------------------------------------------------------------------------

  /** From reading `j` on the key is the last one's, and no reading lies below reading `j` in either counter. */
  predicate NeverUndercut(h: seq<Reading>, a: Account, j: nat) {
    j < |h| && forall i | j <= i < |h| :: h[i].key == h[|h| - 1].key && !Below(Of(h[i], a), Of(h[j], a))
  }

  predicate Exceeded(h: seq<Reading>, a: Account, j: nat) {
    j < |h| && exists k | j < k < |h| :: Above(Of(h[k], a), Of(h[j], a))
  }

  /** The reading the baseline was taken from. */
  function BaseIndex(h: seq<Reading>, a: Account): (b: nat)
    requires h != []
    ensures b < |h|
  {
    var n := |h| - 1;
    if n == 0 || h[n - 1].key != h[n].key || Below(Of(h[n], a), After(h[..n], a).0) then n else BaseIndex(h[..n], a)
  }

  lemma UndercutLast(init: seq<Reading>, last: Reading, a: Account, j: nat)
    requires j < |init|
    ensures NeverUndercut(init + [last], a, j) <==>
            NeverUndercut(init, a, j) && init[|init| - 1].key == last.key && !Below(Of(last, a), Of(init[j], a))
  {
    var h := init + [last];
    assert h[|init|] == last && forall i | 0 <= i < |init| :: h[i] == init[i];
    if NeverUndercut(h, a, j) {
      assert h[|init| - 1].key == last.key;
      forall i | j <= i < |init| ensures init[i].key == init[|init| - 1].key && !Below(Of(init[i], a), Of(init[j], a)) {
        assert h[i] == init[i];
      }
    }
  }

  lemma ExceededLast(init: seq<Reading>, last: Reading, a: Account, j: nat)
    requires j < |init|
    ensures Exceeded(init + [last], a, j) <==> Exceeded(init, a, j) || Above(Of(last, a), Of(init[j], a))
  {
    var h := init + [last];
    assert h[|init|] == last && forall i | 0 <= i < |init| :: h[i] == init[i];
    if k :| j < k < |init| && Above(Of(init[k], a), Of(init[j], a)) {
      assert Above(Of(h[k], a), Of(h[j], a));
    }
    if Above(Of(last, a), Of(init[j], a)) { assert Above(Of(h[|init|], a), Of(h[j], a)); }
  }

  lemma {:induction false} BaselineIsAReading(h: seq<Reading>, a: Account)
    requires h != []
    ensures var b := BaseIndex(h, a);
            After(h, a).0 == Of(h[b], a) && NeverUndercut(h, a, b) && (After(h, a).1 <==> Exceeded(h, a, b))
  {
    var n := |h| - 1;
    if BaseIndex(h, a) < n {
      BaselineIsAReading(h[..n], a);
      assert h == h[..n] + [h[n]];
      UndercutLast(h[..n], h[n], a, BaseIndex(h, a));
      ExceededLast(h[..n], h[n], a, BaseIndex(h, a));
    }
  }

  /** A reading that is never undercut bounds the baseline from above, from then on. */
  lemma {:induction false} BaselineStaysUnder(h: seq<Reading>, a: Account, j: nat)
    requires NeverUndercut(h, a, j)
    ensures !Below(Of(h[j], a), After(h, a).0)
    ensures Exceeded(h, a, j) ==> After(h, a).1
  {
    var n := |h| - 1;
    if j < n {
      assert h == h[..n] + [h[n]];
      UndercutLast(h[..n], h[n], a, j);
      ExceededLast(h[..n], h[n], a, j);
      BaselineStaysUnder(h[..n], a, j);
    }
  }

  lemma VerifiedIffEvidence(h: seq<Reading>, a: Account)
    requires h != []
    ensures After(h, a).1 <==> exists j :: NeverUndercut(h, a, j) && Exceeded(h, a, j)
  {
    BaselineIsAReading(h, a);
    if j :| NeverUndercut(h, a, j) && Exceeded(h, a, j) { BaselineStaysUnder(h, a, j); }
  }

  /** Over every run of inspections: an account is verified iff, since the last change of boot, daemon or policy, some
      reading was later strictly exceeded in both counters and has not been undercut in either since. */
  lemma ObservationIsExact(h: seq<Reading>, proofs: seq<Proof>, a: Account)
    requires h != [] && IsRun(h, proofs) && KeyFixesAccounts(h) && a in h[|h| - 1].stats
    ensures a in proofs[|h| - 1].verified <==> exists j :: NeverUndercut(h, a, j) && Exceeded(h, a, j)
  {
    RunFollowsHistory(h, proofs, a);
    VerifiedIffEvidence(h, a);
  }

  /** Without the tool's mark on the state file nothing is remembered, and no account is ever reported. */
  lemma UnownedNeverObserves(r: Reading, limited: seq<Account>)
    requires (forall a :: a in limited <==> a in r.stats) && Distinct(limited)
    ensures forall a | a in limited :: a !in JudgeAll(Started(None, r), r, limited).verified
  {
    forall a | a in limited ensures a !in JudgeAll(Started(None, r), r, limited).verified {
      JudgeAllAt(Started(None, r), r, limited, a);
    }
  }
}
