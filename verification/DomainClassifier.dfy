/** Batch classification of observed domains: providers may fail at any batch, and nothing is lost. */
module DomainClassifier {
  import opened Common

  type Domain = string

  datatype Decision = Decision(classification: string, reason: string, source: string, model: string)

  type Decisions = map<Domain, Decision>

  function Elements(s: seq<Domain>): set<Domain> {
    set d | d in s
  }

  predicate Distinct(s: seq<Domain>) {
    forall i, j | 0 <= i < j < |s| :: s[i] != s[j]
  }

  // ---------------------------------------------------------------------------------------------
  // Reading a provider's answer
  // ---------------------------------------------------------------------------------------------

  /** One entry of a provider's list; `Malformed` is anything without exactly the expected fields. */
  datatype Item = Item(domain: Domain, classification: string, reason: string) | Malformed

  predicate IsVerdict(classification: string) {
    classification == "ai" || classification == "not_ai"
  }

  function Verdict(i: Item): (string, string)
    requires i.Item?
  {
    (i.classification, i.reason)
  }

  /** The strict reading accepts a list with exactly one valid entry for each domain asked about, and nothing else. */
  predicate ExactlyOneEach(domains: seq<Domain>, items: seq<Item>) {
    && (forall i | 0 <= i < |items| :: items[i].Item? && items[i].domain in domains && IsVerdict(items[i].classification))
    && (forall i, j | 0 <= i < j < |items| && items[i].Item? && items[j].Item? :: items[i].domain != items[j].domain)
    && (forall d | d in domains :: exists i | 0 <= i < |items| :: items[i].Item? && items[i].domain == d)
  }

  method ValidateStrictly(domains: seq<Domain>, items: seq<Item>) returns (r: Result<map<Domain, (string, string)>>)
    ensures r.Ok? <==> ExactlyOneEach(domains, items)
    ensures r.Ok? ==> r.value.Keys == Elements(domains)
                      && forall i | 0 <= i < |items| :: items[i].Item? && r.value[items[i].domain] == Verdict(items[i])
  {
    var results: map<Domain, (string, string)> := map[];
    for i := 0 to |items|
      invariant forall k | 0 <= k < i ::
                  && items[k].Item? && items[k].domain in domains && IsVerdict(items[k].classification)
                  && items[k].domain in results && results[items[k].domain] == Verdict(items[k])
      invariant forall j, k | 0 <= j < k < i :: items[j].domain != items[k].domain
      invariant forall d | d in results :: exists k | 0 <= k < i :: items[k].domain == d
    {
      var item := items[i];
      if item.Item? && item.domain in results {
        ghost var k :| 0 <= k < i && items[k].domain == item.domain;
        assert items[k].Item? && items[i].Item? && items[k].domain == items[i].domain;
      }
      if item.Malformed? || item.domain !in domains || item.domain in results || !IsVerdict(item.classification) {
        return Err("invalid classification");
      }
      results := results[item.domain := Verdict(item)];
      assert items[i].domain == item.domain;
    }
    if results.Keys != Elements(domains) {
      ghost var d :| d in domains && d !in results;
      assert forall k | 0 <= k < |items| :: items[k].domain != d;
      return Err("incomplete domain coverage");
    }
    forall d | d in domains ensures exists i | 0 <= i < |items| :: items[i].Item? && items[i].domain == d {
      assert d in Elements(domains);
      ghost var k :| 0 <= k < |items| && items[k].domain == d;
    }
    return Ok(results);
  }

  /** `normalize_classification` of a trimmed lower-case word. */
  function Normalised(word: string): (c: string)
    ensures IsVerdict(c) || c == "unknown"
  {
    if word == "ai" || word == "yes" || word == "true" || word == "related" || word == "ai_related" then "ai"
    else if word == "not_ai" || word == "no" || word == "false" || word == "unrelated" || word == "non_ai" then "not_ai"
    else "unknown"
  }

  function NormalisedVerdict(i: Item): (string, string)
    requires i.Item?
  {
    (Normalised(i.classification), i.reason)
  }

  /** The entry the lenient reading keeps for a domain: the last well-formed one. */
  function LastFor(items: seq<Item>, d: Domain): Option<(string, string)> {
    if items == [] then None
    else
      var last := items[|items| - 1];
      if last.Item? && last.domain == d then Some(NormalisedVerdict(last)) else LastFor(items[..|items| - 1], d)
  }

  /** The older providers' reading: unknown entries are skipped, but every domain asked about must be answered. */
  method ValidateLeniently(domains: seq<Domain>, items: seq<Item>) returns (r: Result<map<Domain, (string, string)>>)
    ensures r.Ok? <==> forall d | d in domains :: LastFor(items, d).Some?
    ensures r.Ok? ==> r.value.Keys == Elements(domains) && forall d | d in domains :: LastFor(items, d) == Some(r.value[d])
  {
    var results: map<Domain, (string, string)> := map[];
    for i := 0 to |items|
      invariant results.Keys <= Elements(domains)
      invariant forall d | d in domains :: LastFor(items[..i], d) == if d in results then Some(results[d]) else None
    {
      assert items[..i + 1][..i] == items[..i];
      var item := items[i];
      if item.Item? && item.domain in domains {
        results := results[item.domain := NormalisedVerdict(item)];
      }
    }
    assert items[..|items|] == items;
    if exists d | d in domains :: d !in results {
      return Err("classifier output missing domains");
    }
    return Ok(results);
  }

  // ---------------------------------------------------------------------------------------------
  // One provider over all batches
  // ---------------------------------------------------------------------------------------------

  /** A provider's validated answer to a batch; `None` is any failure. Each batch is asked once. */
  type Ask = seq<Domain> -> Option<Decisions>

  /** Every accepted answer covers its batch and nothing else, as both readings above guarantee. */
  ghost predicate Covers(ask: Ask) {
    forall batch :: ask(batch).Some? ==> ask(batch).value.Keys == Elements(batch)
  }

  function Cut(size: nat, todo: seq<Domain>): nat {
    if size <= |todo| then size else |todo|
  }

  /** What one provider makes of the decisions `d`, and what it leaves: everything from the first failing batch on. */
  function Pass(size: nat, ask: Ask, d: Decisions, todo: seq<Domain>): (Decisions, seq<Domain>)
    requires size > 0
    decreases |todo|
  {
    if todo == [] then (d, [])
    else
      var n := Cut(size, todo);
      var answer := ask(todo[..n]);
      if answer.None? then (d, todo) else Pass(size, ask, d + answer.value, todo[n..])
  }

  /** The batch a position falls into. */
  function BatchOf(size: nat, todo: seq<Domain>, i: nat): seq<Domain>
    requires size > 0 && i < |todo|
    decreases |todo|
  {
    var n := Cut(size, todo);
    if i < n then todo[..n] else BatchOf(size, todo[n..], i - n)
  }

  predicate IsMultiple(n: nat, size: nat)
    requires size > 0
  {
    n == 0 || (n >= size && IsMultiple(n - size, size))
  }

  lemma DistinctParts(todo: seq<Domain>, n: nat)
    requires Distinct(todo) && n <= |todo|
    ensures Distinct(todo[n..]) && Elements(todo[..n]) !! Elements(todo[n..])
    ensures Elements(todo) == Elements(todo[..n]) + Elements(todo[n..])
  {
    ElementsOfParts(todo, n);
    forall d | d in Elements(todo[..n]) ensures d !in Elements(todo[n..]) {
      var i :| 0 <= i < n && todo[i] == d;
      assert forall j | 0 <= j < |todo| - n :: todo[n..][j] == todo[n + j] && todo[n + j] != d;
    }
  }

  lemma TailOfTail(todo: seq<Domain>, n: nat, k: nat)
    requires n <= |todo| && k <= |todo| - n
    ensures todo[n..][|todo[n..]| - k..] == todo[|todo| - k..]
    ensures todo[..|todo| - k] == todo[..n] + todo[n..][..|todo[n..]| - k]
  {}

  /** What is left is a tail of the input, cut between two batches. */
  lemma {:induction false} PassLeavesATail(size: nat, ask: Ask, d: Decisions, todo: seq<Domain>)
    requires size > 0
    ensures var left := Pass(size, ask, d, todo).1;
            && |left| <= |todo| && left == todo[|todo| - |left|..]
            && (left == [] || IsMultiple(|todo| - |left|, size))
    decreases |todo|
  {
    if todo != [] {
      var n := Cut(size, todo);
      var answer := ask(todo[..n]);
      if answer.Some? {
        PassLeavesATail(size, ask, d + answer.value, todo[n..]);
        TailOfTail(todo, n, |Pass(size, ask, d + answer.value, todo[n..]).1|);
      }
    }
  }

  lemma ElementsOfParts(todo: seq<Domain>, n: nat)
    requires n <= |todo|
    ensures Elements(todo) == Elements(todo[..n]) + Elements(todo[n..])
  {
    assert todo == todo[..n] + todo[n..];
  }

  /** `d` became `after` by deciding all of `todo` but `left`, without touching what stood. */
  ghost predicate Splits(d: Decisions, todo: set<Domain>, after: Decisions, left: set<Domain>) {
    && after.Keys + left == d.Keys + todo && after.Keys !! left
    && forall k | k in d :: k in after && after[k] == d[k]
  }

  lemma AnswerSplits(d: Decisions, batch: set<Domain>, rest: set<Domain>, answer: Decisions)
    requires d.Keys !! batch + rest && batch !! rest && answer.Keys == batch
    ensures Splits(d, batch + rest, d + answer, rest)
  {}

  lemma SplitTwice(d: Decisions, todo: set<Domain>, first: Decisions, left: set<Domain>, second: Decisions, still: set<Domain>)
    requires Splits(d, todo, first, left) && Splits(first, left, second, still)
    ensures Splits(d, todo, second, still)
  {}

  /** Decided and left make up the input without overlap, and earlier decisions stand. */
  lemma {:induction false} PassPartitions(size: nat, ask: Ask, d: Decisions, todo: seq<Domain>)
    requires size > 0 && Covers(ask) && Distinct(todo) && d.Keys !! Elements(todo)
    ensures Splits(d, Elements(todo), Pass(size, ask, d, todo).0, Elements(Pass(size, ask, d, todo).1))
    decreases |todo|
  {
    if todo != [] {
      var n := Cut(size, todo);
      var answer := ask(todo[..n]);
      if answer.Some? {
        var rest := todo[n..];
        DistinctParts(todo, n);
        AnswerSplits(d, Elements(todo[..n]), Elements(rest), answer.value);
        PassPartitions(size, ask, d + answer.value, rest);
        SplitTwice(d, Elements(todo), d + answer.value, Elements(rest),
                   Pass(size, ask, d, todo).0, Elements(Pass(size, ask, d, todo).1));
      }
    }
  }

  /** A decided domain carries the answer its own batch got. */
  lemma {:induction false} PassAnswers(size: nat, ask: Ask, d: Decisions, todo: seq<Domain>, i: nat)
    requires size > 0 && Covers(ask) && Distinct(todo) && d.Keys !! Elements(todo)
    requires i < |todo| - |Pass(size, ask, d, todo).1|
    ensures var answer, after := ask(BatchOf(size, todo, i)), Pass(size, ask, d, todo).0;
            && answer.Some? && todo[i] in answer.value && todo[i] in after && after[todo[i]] == answer.value[todo[i]]
    decreases |todo|
  {
    var n := Cut(size, todo);
    var answer, rest := ask(todo[..n]), todo[n..];
    DistinctParts(todo, n);
    AnswerSplits(d, Elements(todo[..n]), Elements(rest), answer.value);
    if i < n {
      assert todo[..n][i] == todo[i];
      PassPartitions(size, ask, d + answer.value, rest);
    } else {
      assert rest[i - n] == todo[i];
      PassAnswers(size, ask, d + answer.value, rest, i - n);
    }
  }

  // ---------------------------------------------------------------------------------------------
  // All providers
  // ---------------------------------------------------------------------------------------------

  datatype Providers = OpenRouter(ask: Ask) | Legacy(codex: Option<Ask>, openai: Option<Ask>)

  ghost predicate AllCover(p: Providers) {
    match p
    case OpenRouter(ask) => Covers(ask)
    case Legacy(codex, openai) => (codex.Some? ==> Covers(codex.value)) && (openai.Some? ==> Covers(openai.value))
  }

  /** What the providers together make of the decisions `d`, and what they leave. */
  function Consult(size: nat, p: Providers, d: Decisions, todo: seq<Domain>): (Decisions, seq<Domain>)
    requires size > 0
  {
    match p
    case OpenRouter(ask) => Pass(size, ask, d, todo)
    case Legacy(codex, openai) =>
      var (first, left) := if codex.Some? then Pass(size, codex.value, d, todo) else (d, todo);
      if openai.None? then (first, left) else Pass(size, openai.value, first, left)
  }

  lemma ConsultPartitions(size: nat, p: Providers, d: Decisions, todo: seq<Domain>)
    requires size > 0 && AllCover(p) && Distinct(todo) && d.Keys !! Elements(todo)
    ensures Splits(d, Elements(todo), Consult(size, p, d, todo).0, Elements(Consult(size, p, d, todo).1))
  {
    match p
    case OpenRouter(ask) => PassPartitions(size, ask, d, todo);
    case Legacy(codex, openai) =>
      var (first, left) := if codex.Some? then Pass(size, codex.value, d, todo) else (d, todo);
      if codex.Some? {
        PassPartitions(size, codex.value, d, todo);
        PassLeavesATail(size, codex.value, d, todo);
        DistinctParts(todo, |todo| - |left|);
      }
      if openai.Some? {
        PassPartitions(size, openai.value, first, left);
        var (second, still) := Pass(size, openai.value, first, left);
        SplitTwice(d, Elements(todo), first, Elements(left), second, Elements(still));
      }
  }

  function Builtin(): Decision {
    Decision("ai", "matched_known_ai_domain", "builtin", "builtin-known-ai-domains")
  }

  /** The observed domains without a decision, in order. */
  function Pending(decisions: Decisions, observed: seq<Domain>): seq<Domain> {
    if observed == [] then []
    else Pending(decisions, observed[..|observed| - 1])
         + if observed[|observed| - 1] in decisions then [] else [observed[|observed| - 1]]
  }

  function Unknown(known: Domain -> bool, pending: seq<Domain>): seq<Domain> {
    if pending == [] then []
    else Unknown(known, pending[..|pending| - 1])
         + if known(pending[|pending| - 1]) then [] else [pending[|pending| - 1]]
  }

  function KnownOnes(known: Domain -> bool, pending: seq<Domain>): Decisions {
    map d | d in pending && known(d) :: Builtin()
  }

  lemma LayOne(d: Decisions, more: Decisions, x: Domain, v: Decision)
    ensures (d + more)[x := v] == d + more[x := v]
  {}

  lemma KnownOneMore(known: Domain -> bool, pending: seq<Domain>, i: nat)
    requires i < |pending|
    ensures Unknown(known, pending[..i + 1]) == Unknown(known, pending[..i]) + if known(pending[i]) then [] else [pending[i]]
    ensures var before := KnownOnes(known, pending[..i]);
            KnownOnes(known, pending[..i + 1]) == if known(pending[i]) then before[pending[i] := Builtin()] else before
  {
    assert pending[..i + 1][..i] == pending[..i];
    assert forall d :: d in pending[..i + 1] <==> d in pending[..i] || d == pending[i];
  }

  /** The whole round: known suffixes first, then the providers. */
  function Classified(d: Decisions, observed: seq<Domain>, known: Domain -> bool, size: nat, p: Providers): (Decisions, seq<Domain>)
    requires size > 0
  {
    var pending := Pending(d, observed);
    Consult(size, p, d + KnownOnes(known, pending), Unknown(known, pending))
  }

  // ---------------------------------------------------------------------------------------------
  // Saves that fail
  // ---------------------------------------------------------------------------------------------

  /** A pass whose save failed behind the `k`-th domain: one batch is in memory and not in the file, and asking again from
      the file decides what the whole pass would have. */
  ghost predicate CutShort(size: nat, ask: Ask, d: Decisions, todo: seq<Domain>, saved: Decisions, memory: Decisions, k: nat)
    requires size > 0
  {
    && k < |todo|
    && Pass(size, ask, saved, todo[k..]) == Pass(size, ask, d, todo)
    && (Distinct(todo) && d.Keys !! Elements(todo) ==> Splits(d, Elements(todo), saved, Elements(todo[k..])))
    && var batch := todo[k..][..Cut(size, todo[k..])];
       ask(batch).Some? && memory == saved + ask(batch).value
  }

  ghost predicate PassInterrupted(size: nat, ask: Ask, d: Decisions, todo: seq<Domain>, saved: Decisions, memory: Decisions)
    requires size > 0
  {
    exists k: nat :: CutShort(size, ask, d, todo, saved, memory, k)
  }

  /** The save fails in the pass of one of the providers consulted. */
  ghost predicate Interrupted(size: nat, p: Providers, d: Decisions, todo: seq<Domain>, saved: Decisions, memory: Decisions)
    requires size > 0
  {
    match p
    case OpenRouter(ask) => PassInterrupted(size, ask, d, todo, saved, memory)
    case Legacy(codex, openai) =>
      var (first, left) := if codex.Some? then Pass(size, codex.value, d, todo) else (d, todo);
      || (codex.Some? && PassInterrupted(size, codex.value, d, todo, saved, memory))
      || (openai.Some? && PassInterrupted(size, openai.value, first, left, saved, memory))
  }

  /** The round stopped at a save that failed, the first one or one of a provider's. */
  ghost predicate StoppedAtSave(d: Decisions, observed: seq<Domain>, known: Domain -> bool, size: nat, p: Providers,
                                saved: Decisions, memory: Decisions)
    requires size > 0
  {
    var pending := Pending(d, observed);
    var builtin := d + KnownOnes(known, pending);
    || (saved == d && memory == builtin)
    || Interrupted(size, p, builtin, Unknown(known, pending), saved, memory)
  }

  class Manager {
    var decisions: Decisions
    var saved: Decisions
    var saves: nat
    /** Whether the n-th save reaches the file. */
    const disk: nat -> bool

    constructor (loaded: Decisions, disk: nat -> bool)
      ensures decisions == saved == loaded && this.disk == disk
    {
      decisions, saved, saves, this.disk := loaded, loaded, 0, disk;
    }

    method Save() returns (raised: bool)
      modifies this`saved, this`saves
      ensures saved == if raised then old(saved) else decisions
      ensures (forall n :: disk(n)) ==> !raised
    {
      raised := !disk(saves);
      saves := saves + 1;
      if !raised {
        saved := decisions;
      }
    }

    /** Record a whole batch, then save. */
    method AcceptBatch(batch: seq<Domain>, results: Decisions) returns (raised: bool)
      requires results.Keys == Elements(batch)
      modifies this
      ensures decisions == old(decisions) + results && saved == if raised then old(saved) else decisions
      ensures (forall n :: disk(n)) ==> !raised
    {
      for i := 0 to |batch|
        invariant decisions == old(decisions) + (map d | d in batch[..i] :: results[d]) && saved == old(saved)
      {
        assert forall d :: d in batch[..i + 1] <==> d in batch[..i] || d == batch[i];
        decisions := decisions[batch[i] := results[batch[i]]];
      }
      assert (map d | d in batch[..|batch|] :: results[d]) == results by { assert batch[..|batch|] == batch; }
      raised := Save();
    }

    /** The batch loop all three providers share. */
    method RunProvider(size: nat, ask: Ask, todo: seq<Domain>) returns (raised: bool, left: seq<Domain>)
      requires size > 0 && Covers(ask) && saved == decisions
      modifies this
      ensures !raised ==> (decisions, left) == Pass(size, ask, old(decisions), todo) && saved == decisions
      ensures raised ==> PassInterrupted(size, ask, old(decisions), todo, saved, decisions)
      ensures (forall n :: disk(n)) ==> !raised
    {
      var start := 0;
      assert todo[0..] == todo;
      while start < |todo|
        invariant start <= |todo| && saved == decisions
        invariant Pass(size, ask, decisions, todo[start..]) == Pass(size, ask, old(decisions), todo)
        invariant SoFar(old(decisions), todo, decisions, start)
      {
        var rest := todo[start..];
        var n := Cut(size, rest);
        var answer := ask(rest[..n]);
        if answer.None? {
          return false, rest;
        }
        assert rest[n..] == todo[start + n..];
        SoFarGrows(old(decisions), todo, decisions, start, n, answer.value);
        raised := AcceptBatch(rest[..n], answer.value);
        if raised {
          assert CutShort(size, ask, old(decisions), todo, saved, decisions, start);
          return true, [];
        }
        start := start + n;
      }
      return false, [];
    }

    method ConsultAll(size: nat, providers: Providers, todo: seq<Domain>) returns (raised: bool, left: seq<Domain>)
      requires size > 0 && AllCover(providers) && saved == decisions
      modifies this
      ensures !raised ==> (decisions, left) == Consult(size, providers, old(decisions), todo) && saved == decisions
      ensures raised ==> Interrupted(size, providers, old(decisions), todo, saved, decisions)
      ensures (forall n :: disk(n)) ==> !raised
    {
      raised, left := false, todo;
      match providers
      case OpenRouter(ask) =>
        raised, left := RunProvider(size, ask, todo);
      case Legacy(codex, openai) =>
        if codex.Some? {
          raised, left := RunProvider(size, codex.value, todo);
        }
        if !raised && openai.Some? {
          raised, left := RunProvider(size, openai.value, left);
        }
    }

    method ListPending(observed: seq<Domain>) returns (pending: seq<Domain>)
      ensures pending == Pending(decisions, observed)
    {
      pending := [];
      for i := 0 to |observed|
        invariant pending == Pending(decisions, observed[..i])
      {
        assert observed[..i + 1][..i] == observed[..i];
        if observed[i] !in decisions {
          pending := pending + [observed[i]];
        }
      }
      assert observed[..|observed|] == observed;
    }

    /** `observed` comes sorted; the known suffixes decide without asking anyone. */
    method ClassifyPending(observed: seq<Domain>, known: Domain -> bool, size: nat, providers: Providers)
      returns (raised: bool, left: seq<Domain>)
      requires size > 0 && AllCover(providers) && saved == decisions
      modifies this
      ensures !raised ==> saved == decisions && (decisions, left) == Classified(old(decisions), observed, known, size, providers)
      ensures raised ==> StoppedAtSave(old(decisions), observed, known, size, providers, saved, decisions)
      ensures (forall n :: disk(n)) ==> !raised
    {
      var pending := ListPending(observed);
      var remaining;
      raised, remaining := TakeKnown(pending, known);
      if raised {
        return true, [];
      }
      raised, left := ConsultAll(size, providers, remaining);
    }

    method TakeKnown(pending: seq<Domain>, known: Domain -> bool) returns (raised: bool, remaining: seq<Domain>)
      requires saved == decisions
      modifies this
      ensures decisions == old(decisions) + KnownOnes(known, pending)
      ensures saved == if raised then old(decisions) else decisions
      ensures remaining == Unknown(known, pending)
      ensures (forall n :: disk(n)) ==> !raised
    {
      remaining := [];
      for i := 0 to |pending|
        invariant decisions == old(decisions) + KnownOnes(known, pending[..i]) && saved == old(decisions)
        invariant remaining == Unknown(known, pending[..i])
        invariant |remaining| <= i && (|remaining| == i ==> decisions == old(decisions))
      {
        KnownOneMore(known, pending, i);
        if known(pending[i]) {
          LayOne(old(decisions), KnownOnes(known, pending[..i]), pending[i], Builtin());
          decisions := decisions[pending[i] := Builtin()];
        } else {
          remaining := remaining + [pending[i]];
        }
      }
      assert pending[..|pending|] == pending;
      raised := false;
      if |remaining| != |pending| {
        raised := Save();
      }
    }
  }

  /** What a pass has decided of the first `k` domains, where that says something. */
  ghost predicate SoFar(d: Decisions, todo: seq<Domain>, after: Decisions, k: nat)
    requires k <= |todo|
  {
    Distinct(todo) && d.Keys !! Elements(todo) ==> Splits(d, Elements(todo), after, Elements(todo[k..]))
  }

  lemma SoFarGrows(d: Decisions, todo: seq<Domain>, after: Decisions, k: nat, n: nat, answer: Decisions)
    requires k + n <= |todo| && SoFar(d, todo, after, k) && answer.Keys == Elements(todo[k..][..n])
    ensures SoFar(d, todo, after + answer, k + n)
  {
    if Distinct(todo) && d.Keys !! Elements(todo) {
      var rest := todo[k..];
      DistinctParts(todo, k);
      DistinctParts(rest, n);
      assert rest[n..] == todo[k + n..];
      AnswerSplits(after, Elements(rest[..n]), Elements(rest[n..]), answer);
      SplitTwice(d, Elements(todo), after, Elements(rest), after + answer, Elements(rest[n..]));
    }
  }

  // ---------------------------------------------------------------------------------------------
  // Nothing is lost
  // ---------------------------------------------------------------------------------------------

  lemma {:induction false} PendingMeans(decisions: Decisions, observed: seq<Domain>)
    requires Distinct(observed)
    ensures var p := Pending(decisions, observed);
            Distinct(p) && forall d :: d in p <==> d in observed && d !in decisions
  {
    if observed != [] {
      var init, last := observed[..|observed| - 1], observed[|observed| - 1];
      PendingMeans(decisions, init);
      assert observed == init + [last];
      assert last !in init;
    }
  }

  lemma {:induction false} UnknownMeans(known: Domain -> bool, pending: seq<Domain>)
    requires Distinct(pending)
    ensures var u := Unknown(known, pending);
            Distinct(u) && forall d :: d in u <==> d in pending && !known(d)
  {
    if pending != [] {
      var init, last := pending[..|pending| - 1], pending[|pending| - 1];
      UnknownMeans(known, init);
      assert pending == init + [last];
      assert last !in init;
    }
  }

  /** Whatever fails: earlier decisions stand, and the new decisions and the returned domains split what was pending. */
  lemma ClassificationLosesNothing(d: Decisions, observed: seq<Domain>, known: Domain -> bool, size: nat, p: Providers)
    requires size > 0 && AllCover(p) && Distinct(observed)
    ensures var (after, left) := Classified(d, observed, known, size, p);
            && (forall k | k in d :: k in after && after[k] == d[k])
            && (after.Keys - d.Keys) !! Elements(left)
            && (after.Keys - d.Keys) + Elements(left) == set k | k in observed && k !in d
  {
    var pending := Pending(d, observed);
    var todo, builtin := Unknown(known, pending), KnownOnes(known, pending);
    PendingMeans(d, observed);
    UnknownMeans(known, pending);
    assert builtin.Keys + Elements(todo) == Elements(pending);
    AnswerSplits(d, builtin.Keys, Elements(todo), builtin);
    ConsultPartitions(size, p, d + builtin, todo);
    var (after, left) := Consult(size, p, d + builtin, todo);
    SplitTwice(d, Elements(pending), d + builtin, Elements(todo), after, Elements(left));
  }

  /** `larger` has all that `smaller` has, and of the rest only what is in `more`. */
  predicate Extends(smaller: Decisions, larger: Decisions, more: set<Domain>) {
    && (forall k | k in smaller :: k in larger && larger[k] == smaller[k])
    && larger.Keys <= smaller.Keys + more
  }

  lemma InterruptedPassKeeps(size: nat, ask: Ask, d: Decisions, todo: seq<Domain>, saved: Decisions, memory: Decisions)
    requires size > 0 && Covers(ask) && Distinct(todo) && d.Keys !! Elements(todo)
    requires PassInterrupted(size, ask, d, todo, saved, memory)
    ensures Extends(d, saved, Elements(todo)) && Extends(saved, memory, Elements(todo))
  {
    var k: nat :| CutShort(size, ask, d, todo, saved, memory, k);
    var rest := todo[k..];
    DistinctParts(todo, k);
    DistinctParts(rest, Cut(size, rest));
  }

  lemma InterruptedKeeps(size: nat, p: Providers, d: Decisions, todo: seq<Domain>, saved: Decisions, memory: Decisions)
    requires size > 0 && AllCover(p) && Distinct(todo) && d.Keys !! Elements(todo)
    requires Interrupted(size, p, d, todo, saved, memory)
    ensures Extends(d, saved, Elements(todo)) && Extends(saved, memory, Elements(todo))
  {
    match p
    case OpenRouter(ask) => InterruptedPassKeeps(size, ask, d, todo, saved, memory);
    case Legacy(codex, openai) =>
      var (first, left) := if codex.Some? then Pass(size, codex.value, d, todo) else (d, todo);
      if codex.Some? && PassInterrupted(size, codex.value, d, todo, saved, memory) {
        InterruptedPassKeeps(size, codex.value, d, todo, saved, memory);
      } else {
        if codex.Some? {
          PassPartitions(size, codex.value, d, todo);
          PassLeavesATail(size, codex.value, d, todo);
          DistinctParts(todo, |todo| - |left|);
        }
        InterruptedPassKeeps(size, openai.value, first, left, saved, memory);
      }
  }

  /** A save that fails loses nothing that was saved: the file keeps every earlier decision and decides observed domains
      only, and memory is the file and what was decided since. */
  lemma FailedSaveLosesNothing(d: Decisions, observed: seq<Domain>, known: Domain -> bool, size: nat, p: Providers,
                               saved: Decisions, memory: Decisions)
    requires size > 0 && AllCover(p) && Distinct(observed)
    requires StoppedAtSave(d, observed, known, size, p, saved, memory)
    ensures Extends(d, saved, Elements(observed)) && Extends(saved, memory, Elements(observed))
  {
    var pending := Pending(d, observed);
    var todo, builtin := Unknown(known, pending), KnownOnes(known, pending);
    PendingMeans(d, observed);
    UnknownMeans(known, pending);
    if Interrupted(size, p, d + builtin, todo, saved, memory) {
      InterruptedKeeps(size, p, d + builtin, todo, saved, memory);
    }
  }
}
