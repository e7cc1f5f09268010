/** Rewriting a file in place: the printed text splits back into the printed lines. */
module DotenvRewrite {
  import opened Common
  import opened DotenvModel
  import opened DotenvValues
  import opened DotenvLines
  import opened DotenvFiles
  import opened DotenvText

  predicate OneLine(s: string) {
    s != "" && LineLength(s) == |s|
  }

  predicate EndsAtBoundary(s: string) {
    s != "" && IsBoundary(s[|s| - 1])
  }

  predicate EndsWith(s: string, c: char) {
    s != "" && s[|s| - 1] == c
  }

  predicate BeginsWith(s: string, c: char) {
    s != "" && s[0] == c
  }

  /** `b` may follow `a` in a split text. */
  predicate Adjacent(a: string, b: string) {
    EndsAtBoundary(a) && !(EndsWith(a, '\r') && BeginsWith(b, '\n'))
  }

  predicate WellSplit(lines: seq<string>) {
    && (forall i | 0 <= i < |lines| :: OneLine(lines[i]))
    && (forall i | 0 <= i < |lines| - 1 :: Adjacent(lines[i], lines[i + 1]))
  }

  // ---------------------------------------------------------------------------------------------
  // Splitting and joining
  // ---------------------------------------------------------------------------------------------

  lemma {:induction false} FirstLine(s: string)
    requires s != ""
    ensures var n := LineLength(s); OneLine(s[..n]) && (n < |s| ==> EndsAtBoundary(s[..n]) && !(s[n - 1] == '\r' && s[n] == '\n'))
  {
    var n := LineLength(s);
    if !IsBoundary(s[0]) && |s| > 1 {
      FirstLine(s[1..]);
      assert s[..n][1..] == s[1..][..n - 1];
    }
  }

  lemma {:induction false} SplitFits(s: string)
    ensures WellSplit(SplitLines(s))
    decreases |s|
  {
    if s != "" {
      var n := LineLength(s);
      SplitFits(s[n..]);
      FirstLineFits(s);
      WellSplitCons(s[..n], SplitLines(s[n..]));
    }
  }

  lemma {:induction false} SplitLosesNothing(s: string)
    ensures Join(SplitLines(s)) == s
    decreases |s|
  {
    if s != "" {
      var n := LineLength(s);
      SplitLosesNothing(s[n..]);
      JoinCons(s[..n], SplitLines(s[n..]));
    }
  }

  lemma SplitIsWellSplit(s: string)
    ensures WellSplit(SplitLines(s)) && Join(SplitLines(s)) == s
  {
    SplitFits(s);
    SplitLosesNothing(s);
  }

  lemma JoinCons(line: string, rest: seq<string>)
    ensures Join([line] + rest) == line + Join(rest)
  {
    assert ([line] + rest)[1..] == rest;
  }

  /** The first line of a text stands alone and fits what follows. */
  lemma FirstLineFits(s: string)
    requires s != ""
    ensures var n := LineLength(s);
            && OneLine(s[..n])
            && (SplitLines(s[n..]) == [] || Adjacent(s[..n], SplitLines(s[n..])[0]))
  {
    var n := LineLength(s);
    var rest := s[n..];
    FirstLine(s);
    if rest != "" {
      assert SplitLines(rest)[0] == rest[..LineLength(rest)];
      assert SplitLines(rest)[0][0] == s[n] && s[..n][n - 1] == s[n - 1];
    }
  }

  lemma WellSplitCons(line: string, rest: seq<string>)
    requires OneLine(line) && WellSplit(rest) && (rest == [] || Adjacent(line, rest[0]))
    ensures WellSplit([line] + rest)
  {
    var lines := [line] + rest;
    forall i | 0 <= i < |lines| ensures OneLine(lines[i]) {
      if i > 0 { assert OneLine(rest[i - 1]); }
    }
    forall i | 0 <= i < |lines| - 1 ensures Adjacent(lines[i], lines[i + 1]) {
      if i > 0 { assert Adjacent(rest[i - 1], rest[i - 1 + 1]); }
    }
  }

  lemma {:induction false} LineLengthOfAdjacent(line: string, rest: string)
    requires OneLine(line) && (rest == "" || Adjacent(line, rest))
    ensures LineLength(line + rest) == |line|
  {
    if rest == "" {
      AppendNothing(line);
    } else if !IsBoundary(line[0]) {
      assert (line + rest)[1..] == line[1..] + rest;
      LineLengthOfAdjacent(line[1..], rest);
    }
  }

  lemma {:induction false} JoinSplits(lines: seq<string>)
    requires WellSplit(lines)
    ensures SplitLines(Join(lines)) == lines
  {
    if lines != [] {
      var line, rest := lines[0], lines[1..];
      assert OneLine(line);
      forall i | 0 <= i < |rest| ensures OneLine(rest[i]) { assert OneLine(lines[i + 1]); }
      forall i | 0 <= i < |rest| - 1 ensures Adjacent(rest[i], rest[i + 1]) { assert Adjacent(lines[i + 1], lines[i + 1 + 1]); }
      JoinSplits(rest);
      if rest != [] {
        assert Adjacent(lines[0], lines[0 + 1]) && OneLine(rest[0]);
        assert Join(rest)[0] == rest[0][0];
      }
      LineLengthOfAdjacent(line, Join(rest));
      assert (line + Join(rest))[..|line|] == line && (line + Join(rest))[|line|..] == Join(rest);
      assert lines == [line] + rest;
    }
  }

  // ---------------------------------------------------------------------------------------------
  // A rewritten line is one line
  // ---------------------------------------------------------------------------------------------

  predicate IsEnding(e: string) {
    e == "\n" || e == "\r" || e == "\r\n"
  }

  lemma OneLineWithEnding(b: string, e: string)
    requires BoundaryFree(b) && IsEnding(e)
    ensures OneLine(b + e) && EndsAtBoundary(b + e) && (EndsWith(b + e, '\r') ==> e == "\r")
    ensures BeginsWith(b + e, '\n') ==> b == ""
  {
    LineLengthIs(b, e);
  }

  lemma {:induction false} OneLineInterior(line: string, i: nat)
    requires OneLine(line) && i < |line| - 1
    ensures IsBoundary(line[i]) ==> i == |line| - 2 && line[i] == '\r' && line[i + 1] == '\n'
  {
    if !IsBoundary(line[0]) && i > 0 { OneLineInterior(line[1..], i - 1); }
  }

  lemma {:induction false} BodyPrefix(line: string)
    ensures Body(line) <= line && (forall i | |Body(line)| <= i < |line| :: IsNewline(line[i]))
    ensures !EndsInNewline(Body(line))
  {
    if EndsInNewline(line) { BodyPrefix(line[..|line| - 1]); }
  }

  /** Before its last character, the body of a line holds no boundary. */
  lemma BodyInterior(line: string, i: nat)
    requires OneLine(line) && i < |Body(line)| - 1
    ensures !IsBoundary(Body(line)[i])
  {
    var body := Body(line);
    BodyPrefix(line);
    assert body[i] == line[i] && body[i + 1] == line[i + 1];
    OneLineInterior(line, i);
    if |body| == |line| && i == |line| - 2 { assert body[|body| - 1] == line[i + 1]; }
  }

  lemma BoundariesAreSpaces(c: char)
    requires IsBoundary(c)
    ensures IsSpace(c) && !IsKeyChar(c)
  {}

  lemma CommentBoundaryFree(line: string, end: nat)
    requires OneLine(line) && end <= |Body(line)|
    ensures BoundaryFree(Comment(Body(line)[end..]))
  {
    var body := Body(line);
    var suffix := body[end..];
    var comment := Comment(suffix);
    if comment != "" {
      var c := CommentStart(suffix).value;
      RStripIs(suffix[c..]);
      StandsAt(body, end, c, comment);
      PlainStretch(line, end + c, comment);
    }
  }

  lemma StandsAt(body: string, end: nat, c: nat, t: string)
    requires end + c <= |body| && t <= body[end..][c..]
    ensures Holds(body, end + c, t)
  {
    forall k | 0 <= k < |t| ensures body[end + c + k] == t[k] {
      assert t[k] == body[end..][c..][k];
    }
  }

  /** A stretch of a line's body that does not end in a space holds no boundary. */
  lemma PlainStretch(line: string, start: nat, t: string)
    requires OneLine(line) && Holds(Body(line), start, t) && t != "" && !IsSpace(t[|t| - 1])
    ensures BoundaryFree(t)
  {
    forall i | 0 <= i < |t| ensures !IsBoundary(t[i]) {
      assert Body(line)[start + i] == t[i];
      if start + i < |Body(line)| - 1 {
        BodyInterior(line, start + i);
      } else if IsBoundary(t[i]) {
        BoundariesAreSpaces(t[i]);
      }
    }
  }

  lemma PrefixBoundaryFree(line: string, m: Assignment)
    requires OneLine(line) && MatchAssignment(Body(line)) == Some(m)
    ensures BoundaryFree(Prefix(m)) && BoundaryFree(m.key)
  {
    var body := Body(line);
    MatchedParts(body);
    KeyBoundaryFree(m.key);
    forall i | 0 <= i < |m.indent| ensures !IsBoundary(m.indent[i]) {
      assert m.indent[i] == body[i];
      BodyInterior(line, i);
    }
    BoundaryFreeConcat(m.indent, Word(m.exported));
  }

  lemma PrintedIsOneLine(m: Assignment, v: string, comment: string, ending: string)
    requires BoundaryFree(Prefix(m)) && BoundaryFree(m.key) && BoundaryFree(v) && BoundaryFree(comment) && IsEnding(ending)
    requires IsKey(m.key)
    ensures var out := Printed(m, v, comment, ending);
            OneLine(out) && EndsAtBoundary(out) && (EndsWith(out, '\r') ==> ending == "\r") && !BeginsWith(out, '\n')
  {
    EscapeBoundaryFree(v);
    BoundaryFreeConcat(Prefix(m), m.key);
    BoundaryFreeConcat(Prefix(m) + m.key, "=");
    BoundaryFreeConcat("\"", Escape(v));
    BoundaryFreeConcat("\"" + Escape(v), "\"");
    BoundaryFreeConcat(Prefix(m) + m.key + "=", Quoted(v));
    BoundaryFreeConcat(Prefix(m) + m.key + "=" + Quoted(v), comment);
    OneLineWithEnding(Prefix(m) + m.key + "=" + Quoted(v) + comment, ending);
  }

  lemma EndingIsOne(line: string)
    ensures IsEnding(Ending(line)) && (Ending(line) == "\r" ==> EndsWith(line, '\r'))
  {}

  /** What the neighbours of a line need to know of its rendering. */
  predicate FitsInPlaceOf(out: string, line: string) {
    && OneLine(out)
    && (EndsAtBoundary(line) ==> EndsAtBoundary(out))
    && (EndsWith(out, '\r') ==> EndsWith(line, '\r'))
    && (BeginsWith(out, '\n') ==> BeginsWith(line, '\n'))
  }

  /** The line can take the updates and stay one line: a value with a line boundary must stand there already. */
  predicate Writable(line: string, updates: Values) {
    forall k | k in KeyOf(line) && k in updates :: BoundaryFree(updates[k]) || AlreadyHolds(line, k, updates[k])
  }

  predicate AllWritable(lines: seq<string>, updates: Values) {
    lines == [] || (AllWritable(lines[..|lines| - 1], updates) && Writable(lines[|lines| - 1], updates))
  }

  lemma {:induction false} EachWritable(lines: seq<string>, updates: Values, i: nat)
    requires AllWritable(lines, updates) && i < |lines|
    ensures Writable(lines[i], updates)
  {
    if i < |lines| - 1 { EachWritable(lines[..|lines| - 1], updates, i); }
  }

  lemma RenderedLineFits(line: string, updates: Values)
    requires OneLine(line) && RenderLine(line, updates).Ok? && Writable(line, updates)
    ensures FitsInPlaceOf(RenderLine(line, updates).value, line)
  {
    var m := MatchAssignment(Body(line));
    if m.Some? && m.value.key in updates {
      var v := updates[m.value.key];
      assert m.value.key in KeyOf(line);
      MatchedParts(Body(line));
      RewriteShape(line, m.value, v);
      if ParseValue(Body(line)[m.value.end..], true) != Ok(v) {
        PrefixBoundaryFree(line, m.value);
        CommentBoundaryFree(line, m.value.end);
        EndingIsOne(line);
        PrintedIsOneLine(m.value, v, Comment(Body(line)[m.value.end..]), Ending(line));
      }
    }
  }

  // ---------------------------------------------------------------------------------------------
  // The whole output
  // ---------------------------------------------------------------------------------------------

  lemma FittingIsWellSplit(lines: seq<string>, out: seq<string>)
    requires WellSplit(lines) && |out| == |lines| && forall i | 0 <= i < |lines| :: FitsInPlaceOf(out[i], lines[i])
    ensures WellSplit(out)
  {
    forall i | 0 <= i < |out| - 1 ensures Adjacent(out[i], out[i + 1]) {
      assert Adjacent(lines[i], lines[i + 1]);
      assert FitsInPlaceOf(out[i], lines[i]) && FitsInPlaceOf(out[i + 1], lines[i + 1]);
    }
  }

  lemma RenderedIsWellSplit(lines: seq<string>, updates: Values)
    requires WellSplit(lines) && RenderLines(lines, updates).Ok? && AllWritable(lines, updates)
    ensures WellSplit(RenderLines(lines, updates).value)
    ensures WellEnded(lines) ==> WellEnded(RenderLines(lines, updates).value)
  {
    var out := RenderLines(lines, updates).value;
    RenderLinesLength(lines, updates);
    forall i | 0 <= i < |lines| ensures FitsInPlaceOf(out[i], lines[i]) {
      EachLine(lines, updates, i);
      EachWritable(lines, updates, i);
      RenderedLineFits(lines[i], updates);
    }
    FittingIsWellSplit(lines, out);
  }

  lemma {:induction false} DefaultEndingIsOne(lines: seq<string>)
    ensures IsEnding(DefaultEnding(lines))
  {
    if lines != [] {
      EndingIsOne(lines[0]);
      DefaultEndingIsOne(lines[1..]);
    }
  }

  lemma WellSplitSnoc(lines: seq<string>, line: string)
    requires WellSplit(lines) && OneLine(line) && (lines == [] || Adjacent(lines[|lines| - 1], line))
    ensures WellSplit(lines + [line])
  {
    var all := lines + [line];
    forall i | 0 <= i < |all| ensures OneLine(all[i]) {
      if i < |lines| { assert OneLine(lines[i]); }
    }
    forall i | 0 <= i < |all| - 1 ensures Adjacent(all[i], all[i + 1]) {
      if i < |lines| - 1 { assert Adjacent(lines[i], lines[i + 1]); }
    }
  }

  predicate WellEnded(lines: seq<string>) {
    WellSplit(lines) && (lines == [] || EndsAtBoundary(lines[|lines| - 1]))
  }

  /** A last line without any boundary is closed by `ending`. */
  lemma ClosedIsWellEnded(lines: seq<string>, ending: string)
    requires WellSplit(lines) && IsEnding(ending) && lines != [] && !EndsAtBoundary(lines[|lines| - 1])
    ensures WellEnded(lines[..|lines| - 1] + [lines[|lines| - 1] + ending])
  {
    var init, last := lines[..|lines| - 1], lines[|lines| - 1];
    assert OneLine(last);
    forall i | 0 <= i < |last| ensures !IsBoundary(last[i]) {
      if i < |last| - 1 { OneLineInterior(last, i); }
    }
    OneLineWithEnding(last, ending);
    WellSplitInit(lines);
    if init != [] { assert Adjacent(lines[|init| - 1], lines[|init| - 1 + 1]); }
    WellSplitSnoc(init, last + ending);
  }

  lemma WellSplitInit(lines: seq<string>)
    requires WellSplit(lines) && lines != []
    ensures WellSplit(lines[..|lines| - 1])
    ensures |lines| > 1 ==> EndsAtBoundary(lines[|lines| - 2])
  {
    var init := lines[..|lines| - 1];
    forall i | 0 <= i < |init| ensures OneLine(init[i]) { assert OneLine(lines[i]); }
    forall i | 0 <= i < |init| - 1 ensures Adjacent(init[i], init[i + 1]) { assert Adjacent(lines[i], lines[i + 1]); }
    if |lines| > 1 { assert Adjacent(lines[|lines| - 2], lines[|lines| - 2 + 1]); }
  }

  lemma AppendedLineFits(key: string, v: string, ending: string)
    requires IsKey(key) && BoundaryFree(v) && IsEnding(ending)
    ensures var line := key + "=" + Quoted(v) + ending; OneLine(line) && EndsAtBoundary(line) && !BeginsWith(line, '\n')
  {
    var m := Assignment("", false, key, 0);
    KeyBoundaryFree(key);
    assert Prefix(m) == "" && Prefix(m) + key == key;
    AppendNothing(key + "=" + Quoted(v));
    PrintedIsOneLine(m, v, "", ending);
  }

  lemma WellEndedSnoc(lines: seq<string>, line: string)
    requires WellEnded(lines) && OneLine(line) && EndsAtBoundary(line) && !BeginsWith(line, '\n')
    ensures WellEnded(lines + [line])
  {
    WellSplitSnoc(lines, line);
  }

  lemma OneMoreFits(base: seq<string>, before: seq<string>, key: string, v: string, ending: string)
    requires IsKey(key) && BoundaryFree(v) && IsEnding(ending) && WellEnded(base + before)
    ensures WellEnded(base + (before + [key + "=" + Quoted(v) + ending]))
  {
    var line := key + "=" + Quoted(v) + ending;
    AppendedLineFits(key, v, ending);
    WellEndedSnoc(base + before, line);
    RegroupLines(base, before, [line]);
  }

  lemma {:induction false} AppendedIsWellSplit(base: seq<string>, order: seq<string>, updates: Values, present: set<string>, ending: string)
    requires (forall k | k in order :: k in updates && IsKey(k) && (k in present || BoundaryFree(updates[k])))
    requires IsEnding(ending) && WellEnded(base) && Appended(order, updates, present, ending).Ok?
    ensures WellEnded(base + Appended(order, updates, present, ending).value)
  {
    if order == [] {
      NoLines(base);
    } else {
      var init, key := order[..|order| - 1], order[|order| - 1];
      assert order == init + [key];
      AppendLast(init, key, updates, present, ending);
      AppendedIsWellSplit(base, init, updates, present, ending);
      if key !in present {
        OneMoreFits(base, Appended(init, updates, present, ending).value, key, updates[key], ending);
      }
    }
  }
}
