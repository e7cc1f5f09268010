/** Whole files: after rendering, updated keys read as their new values, all else reads as before, and rendering again is the identity. */
module DotenvFiles {
  import opened Common
  import opened DotenvModel
  import opened DotenvValues
  import opened DotenvLines

  lemma {:induction false} EachLine(lines: seq<string>, updates: Values, i: nat)
    requires RenderLines(lines, updates).Ok? && i < |lines|
    ensures var out := RenderLines(lines, updates).value;
            |out| == |lines| && RenderLine(lines[i], updates) == Ok(out[i])
  {
    RenderLinesLength(lines, updates);
    if i < |lines| - 1 { EachLine(lines[..|lines| - 1], updates, i); }
  }

  lemma {:induction false} RenderLinesLength(lines: seq<string>, updates: Values)
    requires RenderLines(lines, updates).Ok?
    ensures |RenderLines(lines, updates).value| == |lines|
  {
    if lines != [] { RenderLinesLength(lines[..|lines| - 1], updates); }
  }

  lemma {:induction false} ParsedKeys(lines: seq<string>, managed: set<string>)
    requires ParseLines(lines, managed).Ok?
    ensures ParseLines(lines, managed).value.Keys == AssignedKeys(lines)
  {
    if lines != [] { ParsedKeys(lines[..|lines| - 1], managed); }
  }

  /** The values of `old` with the updated ones in their place. */
  function Overridden(vals: Values, updates: Values): Values {
    map k | k in vals :: if k in updates then updates[k] else vals[k]
  }

  lemma ParseSnoc(lines: seq<string>, line: string, managed: set<string>)
    requires ParseLines(lines, managed).Ok? && ParseLine(line, managed).Ok?
    ensures var before, said := ParseLines(lines, managed).value, ParseLine(line, managed).value;
            ParseLines(lines + [line], managed) == Ok(if said.None? then before else before[said.value.0 := said.value.1])
  {
    assert (lines + [line])[..|lines|] == lines;
  }

  lemma OverriddenStep(vals: Values, updates: Values, k: string, v: string)
    ensures Overridden(vals[k := v], updates) == Overridden(vals, updates)[k := if k in updates then updates[k] else v]
  {}

  /** What a line says once it is rendered. */
  lemma SaidAfterRendering(line: string, managed: set<string>, updates: Values)
    requires ParseLine(line, managed).Ok? && RenderLine(line, updates).Ok?
    ensures var said := ParseLine(line, managed).value;
            ParseLine(RenderLine(line, updates).value, managed) ==
            if said.None? then Ok(None)
            else Ok(Some((said.value.0, if said.value.0 in updates then updates[said.value.0] else said.value.1)))
  {
    RenderedLineParses(line, managed, updates);
  }

  lemma ParseLast(lines: seq<string>, managed: set<string>)
    requires lines != [] && ParseLines(lines, managed).Ok?
    ensures ParseLines(lines[..|lines| - 1], managed).Ok? && ParseLine(lines[|lines| - 1], managed).Ok?
    ensures var before, said := ParseLines(lines[..|lines| - 1], managed).value, ParseLine(lines[|lines| - 1], managed).value;
            ParseLines(lines, managed) == Ok(if said.None? then before else before[said.value.0 := said.value.1])
  {}

  lemma RenderLast(lines: seq<string>, updates: Values)
    requires lines != [] && RenderLines(lines, updates).Ok?
    ensures RenderLines(lines[..|lines| - 1], updates).Ok? && RenderLine(lines[|lines| - 1], updates).Ok?
    ensures RenderLines(lines, updates).value
         == RenderLines(lines[..|lines| - 1], updates).value + [RenderLine(lines[|lines| - 1], updates).value]
  {}

  lemma {:induction false} RenderedLinesParse(lines: seq<string>, managed: set<string>, updates: Values)
    requires ParseLines(lines, managed).Ok? && RenderLines(lines, updates).Ok?
    ensures ParseLines(RenderLines(lines, updates).value, managed) == Ok(Overridden(ParseLines(lines, managed).value, updates))
  {
    if lines != [] {
      var init, last := lines[..|lines| - 1], lines[|lines| - 1];
      ParseLast(lines, managed);
      RenderLast(lines, updates);
      RenderedLinesParse(init, managed, updates);
      SaidAfterRendering(last, managed, updates);
      ParseSnoc(RenderLines(init, updates).value, RenderLine(last, updates).value, managed);
      var said := ParseLine(last, managed).value;
      if said.Some? { OverriddenStep(ParseLines(init, managed).value, updates, said.value.0, said.value.1); }
    }
  }

  // ---------------------------------------------------------------------------------------------
  // Appended lines and the last ending
  // ---------------------------------------------------------------------------------------------

  lemma SameBodySameLine(line: string, other: string, managed: set<string>)
    requires Body(line) == Body(other)
    ensures ParseLine(line, managed) == ParseLine(other, managed) && KeyOf(line) == KeyOf(other)
    ensures forall k, v :: AlreadyHolds(line, k, v) == AlreadyHolds(other, k, v)
  {}

  lemma {:induction false} DefaultEndingIsNewline(lines: seq<string>)
    ensures DefaultEnding(lines) != "" && AllNewlines(DefaultEnding(lines))
  {
    if lines != [] { DefaultEndingIsNewline(lines[1..]); }
  }

  lemma TerminatedParses(lines: seq<string>, ending: string, managed: set<string>)
    requires ending != "" && AllNewlines(ending)
    ensures ParseLines(Terminated(lines, ending), managed) == ParseLines(lines, managed)
    ensures lines != [] ==> EndsInNewline(Terminated(lines, ending)[|lines| - 1])
  {
    if lines != [] && !EndsInNewline(lines[|lines| - 1]) {
      var init, last := lines[..|lines| - 1], lines[|lines| - 1];
      BodyDropsEnding(last, ending);
      SameBodySameLine(last + ending, last, managed);
      assert (init + [last + ending])[..|init|] == init;
    }
  }

  lemma AppendedLine(key: string, v: string, ending: string, managed: set<string>)
    requires IsKey(key) && ending != "" && AllNewlines(ending) && Quote(v).Ok?
    ensures var line := key + "=" + Quote(v).value + ending;
            && ParseLine(line, managed) == Ok(Some((key, v)))
            && KeyOf(line) == {key} && AlreadyHolds(line, key, v)
            && EndsInNewline(line)
  {
    var m := Assignment("", false, key, 0);
    var line := key + "=" + Quote(v).value + ending;
    assert line == Printed(m, v, "", ending) by {
      assert Prefix(m) == "";
      assert Prefix(m) + key == key;
      AppendNothing(key + "=" + Quoted(v));
    }
    PrintedLine(m, v, "", ending);
    PrintedLineParses(line, managed, m, v, "");
    BodyDropsEnding(key + "=" + Quote(v).value, ending);
  }

  /** The updates that `order` lists and `present` lacks. */
  function Missing(order: seq<string>, updates: Values, present: set<string>): Values {
    map k | k in updates && k in order && k !in present :: updates[k]
  }

  lemma MissingStep(init: seq<string>, key: string, updates: Values, present: set<string>)
    requires key in updates
    ensures Missing(init + [key], updates, present)
         == if key in present then Missing(init, updates, present) else Missing(init, updates, present)[key := updates[key]]
  {
    assert forall k :: k in init + [key] <==> k in init || k == key;
  }

  lemma AppendLast(init: seq<string>, key: string, updates: Values, present: set<string>, ending: string)
    requires forall k | k in init + [key] :: k in updates
    requires Appended(init + [key], updates, present, ending).Ok?
    ensures key in updates && (forall k | k in init :: k in updates) && Appended(init, updates, present, ending).Ok?
    ensures key !in present ==> Quote(updates[key]).Ok?
    ensures var before := Appended(init, updates, present, ending).value;
            Appended(init + [key], updates, present, ending).value ==
            if key in present then before else before + [key + "=" + Quote(updates[key]).value + ending]
  {
    assert (init + [key])[..|init|] == init;
    assert forall k | k in init :: k in init + [key];
    assert (init + [key])[|init|] == key;
  }

  lemma {:induction false} AppendedParses(base: seq<string>, order: seq<string>, updates: Values, present: set<string>,
                                          ending: string, managed: set<string>)
    requires (forall k | k in order :: k in updates && IsKey(k)) && ending != "" && AllNewlines(ending)
    requires ParseLines(base, managed).Ok? && Appended(order, updates, present, ending).Ok?
    ensures ParseLines(base + Appended(order, updates, present, ending).value, managed)
         == Ok(ParseLines(base, managed).value + Missing(order, updates, present))
  {
    if order == [] {
      NoLines(base);
      assert Missing([], updates, present) == map[];
      assert ParseLines(base, managed).value + map[] == ParseLines(base, managed).value;
    } else {
      var init, key := order[..|order| - 1], order[|order| - 1];
      assert order == init + [key];
      AppendLast(init, key, updates, present, ending);
      AppendedParses(base, init, updates, present, ending, managed);
      MissingStep(init, key, updates, present);
      if key !in present {
        OneMoreAppended(base, Appended(init, updates, present, ending).value, Missing(init, updates, present),
                        key, updates[key], ending, managed);
      }
    }
  }

  lemma NoLines(a: seq<string>)
    ensures a + [] == a
  {}

  lemma RegroupLines(a: seq<string>, b: seq<string>, c: seq<string>)
    ensures a + (b + c) == a + b + c
  {}

  lemma LayOver(vals: Values, added: Values, key: string, v: string)
    ensures (vals + added)[key := v] == vals + added[key := v]
  {}

  lemma OneMoreAppended(base: seq<string>, before: seq<string>, added: Values, key: string, v: string,
                        ending: string, managed: set<string>)
    requires IsKey(key) && ending != "" && AllNewlines(ending) && Quote(v).Ok? && ParseLines(base, managed).Ok?
    requires ParseLines(base + before, managed) == Ok(ParseLines(base, managed).value + added)
    ensures ParseLines(base + (before + [key + "=" + Quote(v).value + ending]), managed)
         == Ok(ParseLines(base, managed).value + added[key := v])
  {
    var line := key + "=" + Quote(v).value + ending;
    AppendedLine(key, v, ending, managed);
    ParseSnoc(base + before, line, managed);
    RegroupLines(base, before, [line]);
    LayOver(ParseLines(base, managed).value, added, key, v);
  }

  // ---------------------------------------------------------------------------------------------
  // The main theorems
  // ---------------------------------------------------------------------------------------------

  /** `order` lists exactly the updated keys, and each is a key the pattern can match. */
  predicate Lists(order: seq<string>, updates: Values) {
    && (forall k | k in order :: k in updates)
    && (forall k | k in updates :: k in order && IsKey(k))
  }

  lemma OverriddenAndMissing(vals: Values, order: seq<string>, updates: Values)
    requires forall k | k in updates :: k in order
    ensures Overridden(vals, updates) + Missing(order, updates, vals.Keys) == vals + updates
  {}

  /** Reading what was rendered gives the old values with the updates laid over them, and nothing else. */
  lemma RenderThenParse(lines: seq<string>, managed: set<string>, order: seq<string>, updates: Values)
    requires Lists(order, updates) && ParseLines(lines, managed).Ok? && Render(lines, order, updates).Ok?
    ensures ParseLines(Render(lines, order, updates).value, managed) == Ok(ParseLines(lines, managed).value + updates)
  {
    var ending, kept, vals := DefaultEnding(lines), RenderLines(lines, updates).value, ParseLines(lines, managed).value;
    DefaultEndingIsNewline(lines);
    RenderedLinesParse(lines, managed, updates);
    TerminatedParses(kept, ending, managed);
    AppendedParses(Terminated(kept, ending), order, updates, AssignedKeys(lines), ending, managed);
    ParsedKeys(lines, managed);
    OverriddenAndMissing(vals, order, updates);
  }

  lemma RenderParts(lines: seq<string>, order: seq<string>, updates: Values)
    requires Lists(order, updates) && Render(lines, order, updates).Ok?
    ensures RenderLines(lines, updates).Ok? && Appended(order, updates, AssignedKeys(lines), DefaultEnding(lines)).Ok?
    ensures Render(lines, order, updates).value ==
            Terminated(RenderLines(lines, updates).value, DefaultEnding(lines))
            + Appended(order, updates, AssignedKeys(lines), DefaultEnding(lines)).value
    ensures |Terminated(RenderLines(lines, updates).value, DefaultEnding(lines))| == |lines|
  {
    RenderLinesLength(lines, updates);
  }

  /** Lines without an updated key come out as they went in, in place; at most the last one gains an ending. */
  lemma OtherLinesAreUnchanged(lines: seq<string>, order: seq<string>, updates: Values, i: nat)
    requires Lists(order, updates) && Render(lines, order, updates).Ok? && i < |lines|
    ensures var out := Render(lines, order, updates).value;
            && i < |out|
            && SurroundingsOf(out[i]) == SurroundingsOf(lines[i])
            && (KeyOf(lines[i]) !! updates.Keys ==>
                  out[i] == if i < |lines| - 1 || EndsInNewline(lines[i]) then lines[i] else lines[i] + DefaultEnding(lines))
  {
    RenderParts(lines, order, updates);
    EachLine(lines, updates, i);
    SurroundingsSurvive(lines[i], updates);
    DefaultEndingIsNewline(lines);
    var line := RenderLine(lines[i], updates).value;
    BodyDropsEnding(line, DefaultEnding(lines));
    SameSurroundings(line + DefaultEnding(lines), line);
    if KeyOf(lines[i]) !! updates.Keys { UntouchedLine(lines[i], updates); }
  }

  lemma SameSurroundings(line: string, other: string)
    requires Body(line) == Body(other)
    ensures SurroundingsOf(line) == SurroundingsOf(other)
  {}

  lemma UntouchedLine(line: string, updates: Values)
    requires KeyOf(line) !! updates.Keys
    ensures RenderLine(line, updates) == Ok(line)
  {
    var m := MatchAssignment(Body(line));
    if m.Some? { assert m.value.key in KeyOf(line); }
  }

  // ---------------------------------------------------------------------------------------------
  // Rendering twice
  // ---------------------------------------------------------------------------------------------

  /** No assignment of an updated key holds another value. */
  predicate UpToDate(line: string, updates: Values) {
    forall k | k in KeyOf(line) && k in updates :: AlreadyHolds(line, k, updates[k])
  }

  predicate AllUpToDate(lines: seq<string>, updates: Values) {
    forall i | 0 <= i < |lines| :: UpToDate(lines[i], updates)
  }

  lemma {:induction false} UpToDateLinesAreKept(lines: seq<string>, updates: Values)
    requires AllUpToDate(lines, updates)
    ensures RenderLines(lines, updates) == Ok(lines)
  {
    if lines != [] {
      UpToDateLinesAreKept(lines[..|lines| - 1], updates);
      HeldLineIsKept(lines[|lines| - 1], updates);
      assert lines == lines[..|lines| - 1] + [lines[|lines| - 1]];
    }
  }

  lemma {:induction false} NothingToAppend(order: seq<string>, updates: Values, present: set<string>, ending: string)
    requires forall k | k in order :: k in updates && k in present
    ensures Appended(order, updates, present, ending) == Ok([])
  {
    if order != [] { NothingToAppend(order[..|order| - 1], updates, present, ending); }
  }

  lemma RenderedIsUpToDate(line: string, managed: set<string>, updates: Values)
    requires ParseLine(line, managed).Ok? && RenderLine(line, updates).Ok?
    ensures UpToDate(RenderLine(line, updates).value, updates)
  {
    RenderedLineParses(line, managed, updates);
  }

  lemma {:induction false} AppendedAreUpToDate(order: seq<string>, updates: Values, present: set<string>, ending: string, i: nat)
    requires (forall k | k in order :: k in updates && IsKey(k)) && ending != "" && AllNewlines(ending)
    requires Appended(order, updates, present, ending).Ok? && i < |Appended(order, updates, present, ending).value|
    ensures var line := Appended(order, updates, present, ending).value[i]; UpToDate(line, updates) && EndsInNewline(line)
  {
    var init, key := order[..|order| - 1], order[|order| - 1];
    var before := Appended(init, updates, present, ending).value;
    if i < |before| {
      AppendedAreUpToDate(init, updates, present, ending, i);
    } else {
      AppendedLine(key, updates[key], ending, {});
    }
  }

  lemma {:induction false} RenderedAreUpToDate(lines: seq<string>, managed: set<string>, updates: Values)
    requires ParseLines(lines, managed).Ok? && RenderLines(lines, updates).Ok?
    ensures AllUpToDate(RenderLines(lines, updates).value, updates)
  {
    if lines != [] {
      var init, last := lines[..|lines| - 1], lines[|lines| - 1];
      ParseLast(lines, managed);
      RenderLast(lines, updates);
      RenderedAreUpToDate(init, managed, updates);
      RenderedIsUpToDate(last, managed, updates);
      var line := RenderLine(last, updates).value;
      assert [line][0] == line;
      AllUpToDateConcat(RenderLines(init, updates).value, [line], updates);
    }
  }

  lemma TerminatedAreUpToDate(lines: seq<string>, ending: string, updates: Values)
    requires AllUpToDate(lines, updates) && ending != "" && AllNewlines(ending)
    ensures AllUpToDate(Terminated(lines, ending), updates)
  {
    if lines != [] && !EndsInNewline(lines[|lines| - 1]) {
      var last := lines[|lines| - 1];
      assert UpToDate(last, updates);
      BodyDropsEnding(last, ending);
      SameBodySameLine(last + ending, last, {});
      AllUpToDateConcat(lines[..|lines| - 1], [last + ending], updates);
    }
  }

  lemma AllUpToDateConcat(a: seq<string>, b: seq<string>, updates: Values)
    requires AllUpToDate(a, updates) && AllUpToDate(b, updates)
    ensures AllUpToDate(a + b, updates)
  {
    forall i | 0 <= i < |a + b| ensures UpToDate((a + b)[i], updates) {
      if i < |a| { assert UpToDate(a[i], updates); } else { assert UpToDate(b[i - |a|], updates); }
    }
  }

  lemma OutputIsUpToDate(lines: seq<string>, managed: set<string>, order: seq<string>, updates: Values)
    requires Lists(order, updates) && ParseLines(lines, managed).Ok? && Render(lines, order, updates).Ok?
    ensures AllUpToDate(Render(lines, order, updates).value, updates)
  {
    var ending := DefaultEnding(lines);
    DefaultEndingIsNewline(lines);
    RenderParts(lines, order, updates);
    var kept := Terminated(RenderLines(lines, updates).value, ending);
    var added := Appended(order, updates, AssignedKeys(lines), ending).value;
    RenderedAreUpToDate(lines, managed, updates);
    TerminatedAreUpToDate(RenderLines(lines, updates).value, ending, updates);
    forall i | 0 <= i < |added| ensures UpToDate(added[i], updates) {
      AppendedAreUpToDate(order, updates, AssignedKeys(lines), ending, i);
    }
    AllUpToDateConcat(kept, added, updates);
  }

  predicate LastIsTerminated(lines: seq<string>) {
    lines == [] || EndsInNewline(lines[|lines| - 1])
  }

  lemma LastOfConcat(a: seq<string>, b: seq<string>)
    requires LastIsTerminated(a) && LastIsTerminated(b)
    ensures LastIsTerminated(a + b)
  {
    if b == [] { NoLines(a); } else { assert (a + b)[|a + b| - 1] == b[|b| - 1]; }
  }

  lemma TerminatedIsTerminated(lines: seq<string>, ending: string)
    requires ending != "" && AllNewlines(ending)
    ensures LastIsTerminated(Terminated(lines, ending))
  {
    if lines != [] { BodyDropsEnding(lines[|lines| - 1], ending); }
  }

  lemma AppendedIsTerminated(order: seq<string>, updates: Values, present: set<string>, ending: string)
    requires (forall k | k in order :: k in updates && IsKey(k)) && ending != "" && AllNewlines(ending)
    requires Appended(order, updates, present, ending).Ok?
    ensures LastIsTerminated(Appended(order, updates, present, ending).value)
  {
    var added := Appended(order, updates, present, ending).value;
    if added != [] { AppendedAreUpToDate(order, updates, present, ending, |added| - 1); }
  }

  lemma OutputEndsInNewline(lines: seq<string>, order: seq<string>, updates: Values)
    requires Lists(order, updates) && Render(lines, order, updates).Ok?
    ensures LastIsTerminated(Render(lines, order, updates).value)
  {
    DefaultEndingIsNewline(lines);
    RenderParts(lines, order, updates);
    TerminatedIsTerminated(RenderLines(lines, updates).value, DefaultEnding(lines));
    AppendedIsTerminated(order, updates, AssignedKeys(lines), DefaultEnding(lines));
    LastOfConcat(Terminated(RenderLines(lines, updates).value, DefaultEnding(lines)),
                 Appended(order, updates, AssignedKeys(lines), DefaultEnding(lines)).value);
  }

  lemma UpToDateFileRenders(out: seq<string>, order: seq<string>, updates: Values)
    requires Lists(order, updates) && updates.Keys <= AssignedKeys(out)
    requires AllUpToDate(out, updates)
    requires LastIsTerminated(out)
    ensures Render(out, order, updates) == Ok(out)
  {
    UpToDateLinesAreKept(out, updates);
    NothingToAppend(order, updates, AssignedKeys(out), DefaultEnding(out));
    NoLines(out);
  }

  /** Rendering again with the same updates is the identity. */
  lemma RenderIsIdempotent(lines: seq<string>, managed: set<string>, order: seq<string>, updates: Values)
    requires Lists(order, updates) && ParseLines(lines, managed).Ok? && Render(lines, order, updates).Ok?
    ensures var out := Render(lines, order, updates).value; Render(out, order, updates) == Ok(out)
  {
    var out := Render(lines, order, updates).value;
    RenderThenParse(lines, managed, order, updates);
    ParsedKeys(out, managed);
    OutputIsUpToDate(lines, managed, order, updates);
    OutputEndsInNewline(lines, order, updates);
    UpToDateFileRenders(out, order, updates);
  }

  // ---------------------------------------------------------------------------------------------
  // When rendering succeeds
  // ---------------------------------------------------------------------------------------------

  /** The line can take the updates: a value with a line break must stand there already. */
  predicate Renderable(line: string, updates: Values) {
    forall k | k in KeyOf(line) && k in updates :: NewlineFree(updates[k]) || AlreadyHolds(line, k, updates[k])
  }

  lemma ManagedLineRenders(line: string, managed: set<string>, updates: Values)
    requires updates.Keys <= managed && ParseLine(line, managed).Ok?
    ensures RenderLine(line, updates).Ok? <==> Renderable(line, updates)
  {
    var m := MatchAssignment(Body(line));
    if m.Some? && m.value.key in updates {
      assert ParseValue(Body(line)[m.value.end..], true).Ok?;
    }
  }

  predicate AllRenderable(lines: seq<string>, updates: Values) {
    lines == [] || (AllRenderable(lines[..|lines| - 1], updates) && Renderable(lines[|lines| - 1], updates))
  }

  lemma {:induction false} ManagedLinesRender(lines: seq<string>, managed: set<string>, updates: Values)
    requires updates.Keys <= managed && ParseLines(lines, managed).Ok?
    ensures RenderLines(lines, updates).Ok? <==> AllRenderable(lines, updates)
  {
    if lines != [] {
      ManagedLinesRender(lines[..|lines| - 1], managed, updates);
      ManagedLineRenders(lines[|lines| - 1], managed, updates);
    }
  }

  lemma {:induction false} AppendedSucceeds(order: seq<string>, updates: Values, present: set<string>, ending: string)
    requires forall k | k in order :: k in updates
    ensures Appended(order, updates, present, ending).Ok? <==>
            forall k | k in order && k !in present :: NewlineFree(updates[k])
  {
    if order != [] {
      var init, key := order[..|order| - 1], order[|order| - 1];
      AppendedSucceeds(init, updates, present, ending);
      assert forall k :: k in order <==> k in init || k == key;
    }
  }

  /** Updating managed keys of a readable file fails only for a value with a line break that is not already there. */
  lemma RenderSucceedsIff(lines: seq<string>, managed: set<string>, order: seq<string>, updates: Values)
    requires Lists(order, updates) && updates.Keys <= managed && ParseLines(lines, managed).Ok?
    ensures Render(lines, order, updates).Ok? <==>
            && AllRenderable(lines, updates)
            && (forall k | k in updates && k !in ParseLines(lines, managed).value :: NewlineFree(updates[k]))
  {
    ManagedLinesRender(lines, managed, updates);
    AppendedSucceeds(order, updates, AssignedKeys(lines), DefaultEnding(lines));
    ParsedKeys(lines, managed);
  }
}
