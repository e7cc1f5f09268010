/** Rewriting an existing file: exactly which updates can be read back from the text on disk. */
module DotenvSurvival {
  import opened Common
  import opened DotenvModel
  import opened DotenvValues
  import opened DotenvLines
  import opened DotenvFiles
  import opened DotenvText
  import opened DotenvRewrite

  // ---------------------------------------------------------------------------------------------
  // What stands on disk
  // ---------------------------------------------------------------------------------------------

  lemma {:induction false} JoinConcat(a: seq<string>, b: seq<string>)
    ensures Join(a + b) == Join(a) + Join(b)
  {
    if a == [] {
      assert a + b == b;
    } else {
      assert (a + b)[1..] == a[1..] + b;
      JoinConcat(a[1..], b);
    }
  }

  lemma JoinOne(line: string)
    ensures Join([line]) == line
  {
    assert [line][1..] == [];
    AppendNothing(line);
  }

  /** What terminating the last line adds to the text. */
  function Closing(lines: seq<string>, ending: string): string {
    if LastIsTerminated(lines) then "" else ending
  }

  lemma JoinTerminated(lines: seq<string>, ending: string)
    ensures Join(Terminated(lines, ending)) == Join(lines) + Closing(lines, ending)
  {
    if !LastIsTerminated(lines) {
      var init, last := lines[..|lines| - 1], lines[|lines| - 1];
      assert lines == init + [last];
      JoinConcat(init, [last]);
      JoinConcat(init, [last + ending]);
      JoinOne(last);
      JoinOne(last + ending);
    }
  }

  /** The terminated lines as they are found again on disk: behind another boundary the added ending is a line of its own. */
  function Settled(lines: seq<string>, ending: string): seq<string> {
    if !LastIsTerminated(lines) && EndsAtBoundary(lines[|lines| - 1]) then lines + [ending] else Terminated(lines, ending)
  }

  lemma JoinSettled(lines: seq<string>, ending: string)
    ensures Join(Settled(lines, ending)) == Join(lines) + Closing(lines, ending)
  {
    JoinTerminated(lines, ending);
    JoinConcat(lines, [ending]);
    JoinOne(ending);
  }

  lemma SettledIsWellEnded(lines: seq<string>, ending: string)
    requires WellSplit(lines) && IsEnding(ending)
    ensures WellEnded(Settled(lines, ending)) && LastIsTerminated(Settled(lines, ending))
  {
    TerminatedIsTerminated(lines, ending);
    if !LastIsTerminated(lines) {
      if EndsAtBoundary(lines[|lines| - 1]) {
        OneLineWithEnding("", ending);
        assert "" + ending == ending;
        WellSplitSnoc(lines, ending);
      } else {
        ClosedIsWellEnded(lines, ending);
      }
    }
  }

  lemma SettledParses(lines: seq<string>, ending: string, managed: set<string>)
    requires IsEnding(ending)
    ensures ParseLines(Settled(lines, ending), managed) == ParseLines(lines, managed)
  {
    TerminatedParses(lines, ending, managed);
    EndingSaysNothing(ending, managed);
    assert (lines + [ending])[..|lines|] == lines;
  }

  lemma EndingSaysNothing(ending: string, managed: set<string>)
    requires IsEnding(ending)
    ensures ParseLine(ending, managed) == Ok(None) && KeyOf(ending) == {}
  {
    BodyDropsEnding("", ending);
    assert "" + ending == ending;
  }

  lemma SettledAreUpToDate(lines: seq<string>, ending: string, updates: Values)
    requires IsEnding(ending) && AllUpToDate(lines, updates)
    ensures AllUpToDate(Settled(lines, ending), updates)
  {
    TerminatedAreUpToDate(lines, ending, updates);
    EndingSaysNothing(ending, {});
    assert UpToDate([ending][0], updates);
    AllUpToDateConcat(lines, [ending], updates);
  }

  // ---------------------------------------------------------------------------------------------
  // When every value fits
  // ---------------------------------------------------------------------------------------------

  /** No updated value breaks a line: those with a boundary stand already wherever their key is assigned. */
  predicate Survives(lines: seq<string>, updates: Values) {
    AllWritable(lines, updates) && forall k | k in updates && k !in AssignedKeys(lines) :: BoundaryFree(updates[k])
  }

  /** The lines found on disk after a rewrite. */
  function OnDisk(lines: seq<string>, order: seq<string>, updates: Values): seq<string>
    requires (forall k | k in order :: k in updates) && RenderLines(lines, updates).Ok?
    requires Appended(order, updates, AssignedKeys(lines), DefaultEnding(lines)).Ok?
  {
    Settled(RenderLines(lines, updates).value, DefaultEnding(lines))
    + Appended(order, updates, AssignedKeys(lines), DefaultEnding(lines)).value
  }

  lemma WrittenText(lines: seq<string>, order: seq<string>, updates: Values)
    requires Lists(order, updates) && Render(lines, order, updates).Ok?
    ensures RenderLines(lines, updates).Ok? && Appended(order, updates, AssignedKeys(lines), DefaultEnding(lines)).Ok?
    ensures Join(Render(lines, order, updates).value) == Join(OnDisk(lines, order, updates))
    ensures Join(Render(lines, order, updates).value) ==
            Join(RenderLines(lines, updates).value) + Closing(RenderLines(lines, updates).value, DefaultEnding(lines))
            + Join(Appended(order, updates, AssignedKeys(lines), DefaultEnding(lines)).value)
  {
    RenderParts(lines, order, updates);
    var ending, kept := DefaultEnding(lines), RenderLines(lines, updates).value;
    var added := Appended(order, updates, AssignedKeys(lines), ending).value;
    JoinConcat(Terminated(kept, ending), added);
    JoinConcat(Settled(kept, ending), added);
    JoinTerminated(kept, ending);
    JoinSettled(kept, ending);
  }

  lemma OnDiskIsWellEnded(lines: seq<string>, order: seq<string>, updates: Values)
    requires WellSplit(lines) && Lists(order, updates) && Render(lines, order, updates).Ok? && Survives(lines, updates)
    ensures RenderLines(lines, updates).Ok? && Appended(order, updates, AssignedKeys(lines), DefaultEnding(lines)).Ok?
    ensures WellEnded(OnDisk(lines, order, updates)) && LastIsTerminated(OnDisk(lines, order, updates))
  {
    var ending, kept := DefaultEnding(lines), RenderLines(lines, updates).value;
    DefaultEndingIsOne(lines);
    RenderedIsWellSplit(lines, updates);
    SettledIsWellEnded(kept, ending);
    AppendedIsWellSplit(Settled(kept, ending), order, updates, AssignedKeys(lines), ending);
    AppendedIsTerminated(order, updates, AssignedKeys(lines), ending);
    LastOfConcat(Settled(kept, ending), Appended(order, updates, AssignedKeys(lines), ending).value);
  }

  lemma OnDiskParses(lines: seq<string>, managed: set<string>, order: seq<string>, updates: Values)
    requires Lists(order, updates) && ParseLines(lines, managed).Ok? && Render(lines, order, updates).Ok?
    ensures RenderLines(lines, updates).Ok? && Appended(order, updates, AssignedKeys(lines), DefaultEnding(lines)).Ok?
    ensures ParseLines(OnDisk(lines, order, updates), managed) == Ok(ParseLines(lines, managed).value + updates)
  {
    var ending, kept := DefaultEnding(lines), RenderLines(lines, updates).value;
    DefaultEndingIsOne(lines);
    RenderedLinesParse(lines, managed, updates);
    SettledParses(kept, ending, managed);
    AppendedParses(Settled(kept, ending), order, updates, AssignedKeys(lines), ending, managed);
    ParsedKeys(lines, managed);
    OverriddenAndMissing(ParseLines(lines, managed).value, order, updates);
  }

  lemma OnDiskIsUpToDate(lines: seq<string>, managed: set<string>, order: seq<string>, updates: Values)
    requires Lists(order, updates) && ParseLines(lines, managed).Ok? && Render(lines, order, updates).Ok?
    ensures RenderLines(lines, updates).Ok? && Appended(order, updates, AssignedKeys(lines), DefaultEnding(lines)).Ok?
    ensures AllUpToDate(OnDisk(lines, order, updates), updates)
  {
    var ending, kept := DefaultEnding(lines), RenderLines(lines, updates).value;
    DefaultEndingIsOne(lines);
    RenderedAreUpToDate(lines, managed, updates);
    SettledAreUpToDate(kept, ending, updates);
    var added := Appended(order, updates, AssignedKeys(lines), ending).value;
    forall i | 0 <= i < |added| ensures UpToDate(added[i], updates) {
      AppendedAreUpToDate(order, updates, AssignedKeys(lines), ending, i);
    }
    AllUpToDateConcat(Settled(kept, ending), added, updates);
  }

  /** Where every value fits, the file reads as the merged values, and rewriting it changes no character. */
  lemma SurvivingFileReadsBack(text: string, managed: set<string>, order: seq<string>, updates: Values)
    requires Lists(order, updates) && ParseLines(SplitLines(text), managed).Ok? && Survives(SplitLines(text), updates)
    requires Render(SplitLines(text), order, updates).Ok?
    ensures var written := Join(Render(SplitLines(text), order, updates).value);
            && ParseLines(SplitLines(written), managed) == Ok(ParseLines(SplitLines(text), managed).value + updates)
            && Render(SplitLines(written), order, updates).Ok?
            && Join(Render(SplitLines(written), order, updates).value) == written
  {
    var lines := SplitLines(text);
    SplitIsWellSplit(text);
    WrittenText(lines, order, updates);
    var disk := OnDisk(lines, order, updates);
    OnDiskIsWellEnded(lines, order, updates);
    JoinSplits(disk);
    OnDiskParses(lines, managed, order, updates);
    OnDiskIsUpToDate(lines, managed, order, updates);
    ParsedKeys(disk, managed);
    UpToDateFileRenders(disk, order, updates);
  }

  // ---------------------------------------------------------------------------------------------
  // When a value breaks its line
  // ---------------------------------------------------------------------------------------------

  lemma WellSplitConcat(a: seq<string>, b: seq<string>)
    requires WellEnded(a) && WellSplit(b) && (b == [] || !BeginsWith(b[0], '\n'))
    ensures WellSplit(a + b)
  {
    var all := a + b;
    forall i | 0 <= i < |all| ensures OneLine(all[i]) {
      if i < |a| { assert OneLine(a[i]); } else { assert OneLine(b[i - |a|]); }
    }
    forall i | 0 <= i < |all| - 1 ensures Adjacent(all[i], all[i + 1]) {
      if i < |a| - 1 {
        assert Adjacent(a[i], a[i + 1]);
      } else if i >= |a| {
        assert Adjacent(b[i - |a|], b[i - |a| + 1]);
      }
    }
  }

  /** Lines that end at a boundary are split off a text that goes on with anything but a line feed. */
  lemma SplitAppend(a: seq<string>, rest: string)
    requires WellEnded(a) && rest != "" && rest[0] != '\n'
    ensures SplitLines(Join(a) + rest) == a + SplitLines(rest)
  {
    var b := SplitLines(rest);
    SplitIsWellSplit(rest);
    assert b[0] == rest[..LineLength(rest)];
    WellSplitConcat(a, b);
    JoinConcat(a, b);
    JoinSplits(a + b);
  }

  lemma {:induction false} FailsAt(lines: seq<string>, managed: set<string>, i: nat)
    requires i < |lines| && ParseLine(lines[i], managed).Err?
    ensures ParseLines(lines, managed).Err?
  {
    if i < |lines| - 1 { FailsAt(lines[..|lines| - 1], managed, i); }
  }

  /** `v` would be printed behind `m` and cut there. */
  predicate Breaks(m: Assignment, v: string) {
    AllSpace(m.indent) && IsKey(m.key) && BoundaryFree(Prefix(m)) && NewlineFree(v) && !BoundaryFree(v)
  }

  function Head(m: Assignment): string {
    Prefix(m) + m.key + "="
  }

  lemma HeadBoundaryFree(m: Assignment)
    requires IsKey(m.key) && BoundaryFree(Prefix(m))
    ensures BoundaryFree(Head(m)) && Head(m)[0] != '\n'
  {
    KeyBoundaryFree(m.key);
    BoundaryFreeConcat(Prefix(m), m.key);
    BoundaryFreeConcat(Prefix(m) + m.key, "=");
    assert !IsBoundary(Head(m)[0]);
  }

  /** What is left of the line after the cut does not parse. */
  lemma OpenLineFails(m: Assignment, u: string, managed: set<string>)
    requires AllSpace(m.indent) && IsKey(m.key) && !EndsInNewline("\"" + Escape(u))
    ensures ParseLine(Head(m) + ("\"" + Escape(u)), managed).Err?
  {
    var raw := "\"" + Escape(u);
    var line := Head(m) + raw;
    assert line[|line| - 1] == raw[|raw| - 1];
    BodyDropsEnding(line, "");
    AppendNothing(line);
    PrintedAssignmentMatches(line, m, raw);
    CutValueIsOpen(u);
    SkipSpacesIs(raw, 0, 0);
  }

  lemma TextAroundCut(head: string, u: string, c: char, w: string, after: string)
    requires IsBoundary(c)
    ensures head + Quoted(u + [c] + w) + after == (head + ("\"" + Escape(u))) + ([c] + (Escape(w) + "\"" + after))
    ensures Escape(u + [c]) == Escape(u) + [c]
  {
    EscapeConcat(u + [c], w);
    EscapeConcat(u, [c]);
    EscapeOne(c);
    RegroupCut(head, Escape(u), [c], Escape(w), after);
  }

  lemma RegroupCut(head: string, u: string, c: string, w: string, after: string)
    ensures head + ("\"" + (u + c + w) + "\"") + after == (head + ("\"" + u)) + (c + (w + "\"" + after))
  {
    Regroup("\"" + u, c, w);
    Regroup("\"" + u, c + w, "\"");
    Regroup(head, "\"" + u, c + w + "\"");
    Regroup(head + ("\"" + u), c + w + "\"", after);
  }

  lemma FirstPiece(head: string, u: string, c: char, rest: string)
    requires BoundaryFree(head) && BoundaryFree(u) && IsBoundary(c) && c != '\r'
    ensures var text := (head + ("\"" + Escape(u))) + ([c] + rest);
            text[..LineLength(text)] == head + ("\"" + (Escape(u) + [c]))
  {
    var before := head + ("\"" + Escape(u));
    EscapeBoundaryFree(u);
    BoundaryFreeConcat("\"", Escape(u));
    BoundaryFreeConcat(head, "\"" + Escape(u));
    LineLengthIs(before, [c] + rest);
    assert (before + ([c] + rest))[..|before| + 1] == before + [c];
  }

  lemma BrokenLineFails(m: Assignment, v: string, after: string, managed: set<string>)
    requires Breaks(m, v)
    ensures var rest := Head(m) + Quoted(v) + after;
            rest != "" && rest[0] != '\n' && ParseLine(rest[..LineLength(rest)], managed).Err?
  {
    var u, w := FirstBoundary(v);
    var c := w[0];
    assert v[|u|] == c && v == u + [c] + w[1..];
    HeadBoundaryFree(m);
    TextAroundCut(Head(m), u, c, w[1..], after);
    FirstPiece(Head(m), u, c, Escape(w[1..]) + "\"" + after);
    assert ("\"" + Escape(u + [c]))[|Escape(u)| + 1] == c;
    OpenLineFails(m, u + [c], managed);
  }

  /** Whatever stands before and behind it, a broken line makes the file unreadable. */
  lemma BrokenFileFails(good: seq<string>, m: Assignment, v: string, after: string, managed: set<string>)
    requires WellEnded(good) && Breaks(m, v)
    ensures ParseLines(SplitLines(Join(good) + (Head(m) + Quoted(v) + after)), managed).Err?
  {
    var rest := Head(m) + Quoted(v) + after;
    BrokenLineFails(m, v, after, managed);
    SplitAppend(good, rest);
    var all := good + SplitLines(rest);
    assert all[|good|] == rest[..LineLength(rest)];
    FailsAt(all, managed, |good|);
  }

  /** A line that cannot take the updates is printed broken. */
  lemma UnwritableLineBreaks(line: string, updates: Values) returns (m: Assignment, v: string, after: string)
    requires OneLine(line) && RenderLine(line, updates).Ok? && !Writable(line, updates)
    ensures Breaks(m, v) && RenderLine(line, updates).value == Head(m) + Quoted(v) + after
  {
    m := MatchAssignment(Body(line)).value;
    v := updates[m.key];
    after := Comment(Body(line)[m.end..]) + Ending(line);
    MatchedParts(Body(line));
    RewriteShape(line, m, v);
    PrefixBoundaryFree(line, m);
    Regroup(Head(m) + Quoted(v), Comment(Body(line)[m.end..]), Ending(line));
  }

  lemma {:induction false} UnwritableLinesFail(lines: seq<string>, updates: Values, after: string, managed: set<string>)
    requires WellSplit(lines) && RenderLines(lines, updates).Ok? && !AllWritable(lines, updates)
    ensures ParseLines(SplitLines(Join(RenderLines(lines, updates).value) + after), managed).Err?
  {
    var init, last := lines[..|lines| - 1], lines[|lines| - 1];
    RenderLast(lines, updates);
    var kept, line := RenderLines(init, updates).value, RenderLine(last, updates).value;
    JoinConcat(kept, [line]);
    JoinOne(line);
    WellSplitInit(lines);
    Regroup(Join(kept), line, after);
    if AllWritable(init, updates) {
      assert OneLine(last);
      var m, v, behind := UnwritableLineBreaks(last, updates);
      RenderedIsWellSplit(init, updates);
      Regroup(Head(m) + Quoted(v), behind, after);
      BrokenFileFails(kept, m, v, behind + after, managed);
    } else {
      UnwritableLinesFail(init, updates, line + after, managed);
    }
  }

  /** Behind lines that split as they were printed, an appended line that is cut fails. */
  lemma UnfitKeyFails(good: seq<string>, key: string, v: string, ending: string, after: string, managed: set<string>)
    requires WellEnded(good) && IsKey(key) && NewlineFree(v) && !BoundaryFree(v)
    ensures ParseLines(SplitLines(Join(good) + (key + "=" + Quoted(v) + ending + after)), managed).Err?
  {
    var m := Assignment("", false, key, 0);
    assert Prefix(m) == "" && Prefix(m) + key == key && Head(m) == key + "=";
    BrokenFileFails(good, m, v, ending + after, managed);
    Regroup(Head(m) + Quoted(v), ending, after);
  }

  lemma JoinOneMore(lines: seq<string>, line: string, before: string, after: string)
    ensures before + Join(lines + [line]) + after == before + Join(lines) + (line + after)
  {
    JoinConcat(lines, [line]);
    JoinOne(line);
    Regroup(before, Join(lines), line);
    Regroup(before + Join(lines), line, after);
  }

  predicate AllFit(order: seq<string>, updates: Values, present: set<string>)
    requires forall k | k in order :: k in updates
  {
    forall k | k in order && k !in present :: BoundaryFree(updates[k])
  }

  lemma AllFitSnoc(init: seq<string>, key: string, updates: Values, present: set<string>)
    requires key in updates && forall k | k in init :: k in updates
    requires AllFit(init, updates, present) && (key in present || BoundaryFree(updates[key]))
    ensures AllFit(init + [key], updates, present)
  {}

  lemma {:induction false} UnfitKeysFail(base: seq<string>, order: seq<string>, updates: Values, present: set<string>,
                                         ending: string, after: string, managed: set<string>)
    requires (forall k | k in order :: k in updates && IsKey(k)) && IsEnding(ending) && WellEnded(base)
    requires Appended(order, updates, present, ending).Ok? && !AllFit(order, updates, present)
    ensures ParseLines(SplitLines(Join(base) + Join(Appended(order, updates, present, ending).value) + after), managed).Err?
  {
    var init, key := order[..|order| - 1], order[|order| - 1];
    assert order == init + [key];
    AppendLast(init, key, updates, present, ending);
    var before := Appended(init, updates, present, ending).value;
    var line := key + "=" + Quoted(updates[key]) + ending;
    JoinOneMore(before, line, Join(base), after);
    if !AllFit(init, updates, present) {
      UnfitKeysFail(base, init, updates, present, ending, if key in present then after else line + after, managed);
    } else {
      if key in present || BoundaryFree(updates[key]) { AllFitSnoc(init, key, updates, present); }
      AppendedIsWellSplit(base, init, updates, present, ending);
      JoinConcat(base, before);
      UnfitKeyFails(base + before, key, updates[key], ending, after, managed);
    }
  }

  lemma BrokenFileIsUnreadable(lines: seq<string>, managed: set<string>, order: seq<string>, updates: Values)
    requires WellSplit(lines) && Lists(order, updates) && Render(lines, order, updates).Ok? && !Survives(lines, updates)
    ensures ParseLines(SplitLines(Join(Render(lines, order, updates).value)), managed).Err?
  {
    var ending := DefaultEnding(lines);
    WrittenText(lines, order, updates);
    var kept, added := RenderLines(lines, updates).value, Appended(order, updates, AssignedKeys(lines), ending).value;
    if AllWritable(lines, updates) {
      DefaultEndingIsOne(lines);
      RenderedIsWellSplit(lines, updates);
      SettledIsWellEnded(kept, ending);
      UnfitKeysFail(Settled(kept, ending), order, updates, AssignedKeys(lines), ending, "", managed);
      JoinConcat(Settled(kept, ending), added);
      AppendNothing(Join(Settled(kept, ending)) + Join(added));
    } else {
      UnwritableLinesFail(lines, updates, Closing(kept, ending) + Join(added), managed);
      Regroup(Join(kept), Closing(kept, ending), Join(added));
    }
  }

  /** End to end, for every text and every update that renders: the written file reads as the merged values iff each line
      that assigns an updated key, and each key that is appended, can take its value without being cut. Otherwise the file
      cannot be read any more. Where it reads, writing the same updates again changes no character. */
  lemma WrittenFileReadsBackIff(text: string, managed: set<string>, order: seq<string>, updates: Values)
    requires Lists(order, updates) && ParseLines(SplitLines(text), managed).Ok?
    requires Render(SplitLines(text), order, updates).Ok?
    ensures var written := Join(Render(SplitLines(text), order, updates).value);
            && (ParseLines(SplitLines(written), managed) == Ok(ParseLines(SplitLines(text), managed).value + updates)
                <==> Survives(SplitLines(text), updates))
            && (ParseLines(SplitLines(written), managed).Ok? <==> Survives(SplitLines(text), updates))
            && (Survives(SplitLines(text), updates) ==>
                  && Render(SplitLines(written), order, updates).Ok?
                  && Join(Render(SplitLines(written), order, updates).value) == written)
  {
    if Survives(SplitLines(text), updates) {
      SurvivingFileReadsBack(text, managed, order, updates);
    } else {
      SplitIsWellSplit(text);
      BrokenFileIsUnreadable(SplitLines(text), managed, order, updates);
    }
  }

  /** Writing one accepted value into a new file and reading the file back succeeds iff the value holds no line boundary.
      `Quote` turns away only line feeds and carriage returns, so the other eight boundaries slip through. */
  lemma NewFileRoundTrip(key: string, v: string, managed: set<string>)
    requires IsKey(key) && NewlineFree(v)
    ensures Render([], [key], map[key := v]).Ok?
    ensures ParseLines(SplitLines(Join(Render([], [key], map[key := v]).value)), managed) == Ok(map[key := v]) <==> BoundaryFree(v)
  {
    var updates := map[key := v];
    AppendedSucceeds([key], updates, {}, "\n");
    assert updates.Keys == {key};
    WrittenFileReadsBackIff("", managed, [key], updates);
    assert map[] + updates == updates;
    assert Survives([], updates) <==> BoundaryFree(updates[key]);
  }

  /** One such value: a next-line character is printed into the file, and the file is refused when it is read. */
  lemma NextLineIsRefused(key: string, managed: set<string>)
    requires IsKey(key)
    ensures Render([], [key], map[key := "a\U{85}b"]).Ok?
    ensures ParseLines(SplitLines(Join(Render([], [key], map[key := "a\U{85}b"]).value)), managed).Err?
  {
    var v := "a\U{85}b";
    assert IsBoundary(v[1]) && NewlineFree(v);
    AppendedSucceeds([key], map[key := v], {}, "\n");
    WrittenFileReadsBackIff("", managed, [key], map[key := v]);
    assert key in map[key := v] && !Survives([], map[key := v]);
  }
}
