/** One line: a rewritten assignment matches again, holds the new value and keeps everything around it. */
module DotenvLines {
  import opened Common
  import opened DotenvModel
  import opened DotenvValues

  lemma {:induction false} SkipKeyCharsIs(s: string, i: nat, j: nat)
    requires i <= j <= |s| && (forall k | i <= k < j :: IsKeyChar(s[k])) && (j == |s| || !IsKeyChar(s[j]))
    ensures SkipKeyChars(s, i) == j
    decreases j - i
  {
    if i < j { SkipKeyCharsIs(s, i + 1, j); }
  }

  lemma {:induction false} SkipKeyCharsSkips(s: string, i: nat)
    requires i <= |s|
    ensures forall k | i <= k < SkipKeyChars(s, i) :: IsKeyChar(s[k])
    decreases |s| - i
  {
    if i < |s| && IsKeyChar(s[i]) { SkipKeyCharsSkips(s, i + 1); }
  }

  lemma MatchedKey(s: string, i: nat)
    requires i <= |s| && MatchKey(s, i).Some?
    ensures IsKey(MatchKey(s, i).value.0)
  {
    var j := SkipKeyChars(s, i);
    SkipKeyCharsSkips(s, i);
    forall k | 0 <= k < j - i ensures IsKeyChar(s[i..j][k]) { assert s[i..j][k] == s[i + k]; }
  }

  lemma MatchedParts(s: string)
    requires MatchAssignment(s).Some?
    ensures AllSpace(MatchAssignment(s).value.indent) && IsKey(MatchAssignment(s).value.key)
  {
    var i := SkipSpaces(s, 0);
    SkipSpacesSkips(s, 0);
    if MatchExported(s, i).Some? { MatchedKey(s, SkipSpaces(s, i + 6)); } else { MatchedKey(s, i); }
  }

  lemma EndingsAreNewlines(line: string)
    ensures AllNewlines(Ending(line)) && Ending(line) != ""
  {}

  lemma MatchKeyAt(s: string, i: nat, key: string)
    requires IsKey(key) && Holds(s, i, key) && i + |key| < |s| && s[i + |key|] == '='
    ensures MatchKey(s, i) == Some((key, i + |key| + 1))
  {
    var j := i + |key|;
    assert s[i] == key[0];
    forall k | i <= k < j ensures IsKeyChar(s[k]) { assert s[i + (k - i)] == key[k - i]; }
    SkipKeyCharsIs(s, i, j);
    assert s[i..j] == key;
  }

  lemma KeyStartsNoSpace(key: string)
    requires IsKey(key)
    ensures !IsSpace(key[0])
  {}

  lemma NotPrefix(t: string, u: string, k: nat)
    requires k < |t| && k < |u| && t[k] != u[k]
    ensures !(t <= u)
  {}

  /** A key right after the indent is no `export` group, even when it begins with that word. */
  lemma PlainIsNotExported(s: string, i: nat, key: string)
    requires IsKey(key) && Holds(s, i, key) && i + |key| < |s| && s[i + |key|] == '='
    ensures MatchExported(s, i).None?
  {
    if |key| < 6 {
      NotPrefix(EXPORT, s[i..], |key|);
    } else if |key| > 6 {
      assert s[i + 6] == key[6];
    }
  }

  lemma ExportedMatches(s: string, i: nat, key: string)
    requires IsKey(key) && Holds(s, i, "export ") && Holds(s, i + 7, key) && i + 7 + |key| < |s| && s[i + 7 + |key|] == '='
    ensures MatchExported(s, i) == Some((key, i + 7 + |key| + 1))
  {
    assert s[i..][..6] == EXPORT by {
      forall k | 0 <= k < 6 ensures s[i..][k] == EXPORT[k] {
        assert s[i + k] == "export "[k];
      }
    }
    assert s[i + 6] == "export "[6];
    KeyStartsNoSpace(key);
    assert s[i + 7] == key[0];
    SkipSpacesIs(s, i + 6, i + 7);
    MatchKeyAt(s, i + 7, key);
  }

  function Word(exported: bool): string {
    if exported then "export " else ""
  }

  lemma AssignmentMatches(s: string, i: nat, exported: bool, key: string)
    requires IsKey(key) && i <= |s| && AllSpace(s[..i])
    requires Holds(s, i, Word(exported)) && Holds(s, i + |Word(exported)|, key)
    requires i + |Word(exported)| + |key| < |s| && s[i + |Word(exported)| + |key|] == '='
    ensures MatchAssignment(s) == Some(Assignment(s[..i], exported, key, i + |Word(exported)| + |key| + 1))
  {
    KeyStartsNoSpace(key);
    assert s[i + |Word(exported)|] == key[0];
    forall k | 0 <= k < i ensures IsSpace(s[k]) { assert s[..i][k] == s[k]; }
    if exported {
      assert s[i] == Word(true)[0];
      SkipSpacesIs(s, 0, i);
      ExportedMatches(s, i, key);
    } else {
      SkipSpacesIs(s, 0, i);
      PlainIsNotExported(s, i, key);
      MatchKeyAt(s, i, key);
    }
  }

  lemma HoldsInMiddle(before: string, t: string, after: string)
    ensures Holds(before + t + after, |before|, t)
  {}

  lemma PrintedLayoutOfKey(s: string, m: Assignment, rest: string)
    requires s == Prefix(m) + m.key + "=" + rest
    ensures var i, word := |m.indent|, Word(m.exported);
            && |s| == i + |word| + |m.key| + 1 + |rest|
            && s[..i] == m.indent && Holds(s, i, word) && Holds(s, i + |word|, m.key)
            && s[i + |word| + |m.key|] == '='
            && s[i + |word| + |m.key| + 1..] == rest
  {
    assert s == m.indent + Word(m.exported) + (m.key + "=" + rest);
    HoldsInMiddle(m.indent, Word(m.exported), m.key + "=" + rest);
    assert s == Prefix(m) + m.key + ("=" + rest);
    HoldsInMiddle(Prefix(m), m.key, "=" + rest);
  }

  lemma PrintedAssignmentMatches(s: string, m: Assignment, rest: string)
    requires AllSpace(m.indent) && IsKey(m.key)
    requires s == Prefix(m) + m.key + "=" + rest
    ensures MatchAssignment(s) == Some(m.(end := |s| - |rest|)) && |rest| <= |s|
    ensures s[|s| - |rest|..] == rest
  {
    PrintedLayoutOfKey(s, m, rest);
    AssignmentMatches(s, |m.indent|, m.exported, m.key);
  }

  lemma {:induction false} BodyDropsEnding(t: string, ending: string)
    requires AllNewlines(ending)
    ensures Body(t + ending) == Body(t)
    ensures !EndsInNewline(t) ==> Body(t) == t
    ensures ending != "" ==> EndsInNewline(t + ending)
  {
    if ending == "" {
      assert t + ending == t;
    } else {
      var init := ending[..|ending| - 1];
      assert (t + ending)[..|t + ending| - 1] == t + init;
      BodyDropsEnding(t, init);
    }
  }

  /** The shape of a line as the renderer writes it. */
  function Printed(m: Assignment, v: string, comment: string, ending: string): string {
    Prefix(m) + m.key + "=" + Quoted(v) + comment + ending
  }

  /** `line` matches as the assignment `m` with the value text `raw` behind it. */
  predicate Assigns(line: string, m: Assignment, raw: string) {
    var body := Body(line);
    && |raw| <= |body| && body[|body| - |raw|..] == raw
    && MatchAssignment(body) == Some(m.(end := |body| - |raw|))
  }

  lemma PrintedTextEnds(before: string, v: string, comment: string)
    requires IsComment(comment)
    ensures !EndsInNewline(before + Quoted(v) + comment)
  {
    var t := before + Quoted(v) + comment;
    if comment == "" {
      assert t[|t| - 1] == '"';
    } else {
      assert t[|t| - 1] == comment[|comment| - 1];
    }
  }

  lemma PrintedLine(m: Assignment, v: string, comment: string, ending: string)
    requires AllSpace(m.indent) && IsKey(m.key) && IsComment(comment) && AllNewlines(ending)
    ensures Assigns(Printed(m, v, comment, ending), m, Quoted(v) + comment)
  {
    var head := Prefix(m) + m.key + "=";
    PrintedTextEnds(head, v, comment);
    BodyDropsEnding(head + Quoted(v) + comment, ending);
    Regroup(head, Quoted(v), comment);
    PrintedAssignmentMatches(head + Quoted(v) + comment, m, Quoted(v) + comment);
  }

  lemma Regroup(a: string, b: string, c: string)
    ensures a + b + c == a + (b + c)
  {}

  lemma AssigningLineSays(line: string, managed: set<string>, m: Assignment, raw: string, v: string)
    requires Assigns(line, m, raw) && LineValue(raw, m.key in managed) == Ok(v)
    ensures ParseLine(line, managed) == Ok(Some((m.key, v)))
  {}

  /** The line assigns `key`, and to this value. */
  predicate AlreadyHolds(line: string, key: string, v: string) {
    var m := MatchAssignment(Body(line));
    m.Some? && m.value.key == key && ParseValue(Body(line)[m.value.end..], true) == Ok(v)
  }

  lemma AssigningLineHolds(line: string, m: Assignment, raw: string, v: string)
    requires Assigns(line, m, raw) && ParseValue(raw, true) == Ok(v)
    ensures KeyOf(line) == {m.key} && AlreadyHolds(line, m.key, v)
  {}

  /** Reading a printed line gives its key and value; printing that value again changes nothing. */
  lemma PrintedLineParses(line: string, managed: set<string>, m: Assignment, v: string, comment: string)
    requires Assigns(line, m, Quoted(v) + comment) && IsComment(comment)
    ensures ParseLine(line, managed) == Ok(Some((m.key, v)))
    ensures KeyOf(line) == {m.key} && AlreadyHolds(line, m.key, v)
  {
    PrintedValueIsRead(v, comment, m.key in managed);
    AssigningLineSays(line, managed, m, Quoted(v) + comment, v);
    PrintedValueParses(v, comment, true);
    AssigningLineHolds(line, m, Quoted(v) + comment, v);
  }

  lemma StrictParseIsLenientParse(raw: string)
    requires ParseValue(raw, true).Ok?
    ensures ParseValue(raw, false) == ParseValue(raw, true)
  {}

  lemma HeldValueParses(line: string, managed: set<string>, key: string, v: string)
    requires AlreadyHolds(line, key, v) && ParseLine(line, managed).Ok?
    ensures ParseLine(line, managed) == Ok(Some((key, v)))
  {
    StrictParseIsLenientParse(Body(line)[MatchAssignment(Body(line)).value.end..]);
  }

  lemma RewriteShape(line: string, m: Assignment, v: string)
    requires m.end <= |Body(line)| && Rewrite(line, m, v).Ok?
    ensures var suffix, out := Body(line)[m.end..], Rewrite(line, m, v).value;
            if ParseValue(suffix, true) == Ok(v) then out == line
            else out == Printed(m, v, Comment(suffix), Ending(line)) && IsComment(Comment(suffix)) && AllNewlines(Ending(line))
  {
    CommentShape(Body(line)[m.end..]);
    EndingsAreNewlines(line);
  }

  /** What the renderer does to one line, told by what the reader then sees. */
  lemma RenderedLineParses(line: string, managed: set<string>, updates: Values)
    requires ParseLine(line, managed).Ok? && RenderLine(line, updates).Ok?
    ensures var out, said := RenderLine(line, updates).value, ParseLine(line, managed).value;
            && KeyOf(out) == KeyOf(line)
            && (said.None? || said.value.0 !in updates ==> out == line)
            && (said.Some? && said.value.0 in updates ==> ParseLine(out, managed) == Ok(Some((said.value.0, updates[said.value.0]))))
            && (forall k | k in KeyOf(out) && k in updates :: AlreadyHolds(out, k, updates[k]))
  {
    var m := MatchAssignment(Body(line));
    if m.Some? && m.value.key in updates {
      var key := m.value.key;
      MatchedParts(Body(line));
      RewriteShape(line, m.value, updates[key]);
      if ParseValue(Body(line)[m.value.end..], true) == Ok(updates[key]) {
        HeldValueParses(line, managed, key, updates[key]);
      } else {
        var comment := Comment(Body(line)[m.value.end..]);
        PrintedLine(m.value, updates[key], comment, Ending(line));
        PrintedLineParses(RenderLine(line, updates).value, managed, m.value, updates[key], comment);
      }
    }
  }

  /** What stands around the value of a line: indent, `export`, key and inline comment. */
  datatype Surroundings = Surroundings(indent: string, exported: bool, key: string, comment: string)

  function SurroundingsOf(line: string): Option<Surroundings> {
    var m := MatchAssignment(Body(line));
    if m.None? then None
    else Some(Surroundings(m.value.indent, m.value.exported, m.value.key, Comment(Body(line)[m.value.end..])))
  }

  lemma SurroundingsOfAssigning(line: string, m: Assignment, raw: string)
    requires Assigns(line, m, raw)
    ensures SurroundingsOf(line) == Some(Surroundings(m.indent, m.exported, m.key, Comment(raw)))
  {}

  lemma SurroundingsSurvive(line: string, updates: Values)
    requires RenderLine(line, updates).Ok?
    ensures SurroundingsOf(RenderLine(line, updates).value) == SurroundingsOf(line)
  {
    var m := MatchAssignment(Body(line));
    if m.Some? && m.value.key in updates {
      var v := updates[m.value.key];
      MatchedParts(Body(line));
      RewriteShape(line, m.value, v);
      if ParseValue(Body(line)[m.value.end..], true) != Ok(v) {
        var comment := Comment(Body(line)[m.value.end..]);
        PrintedLine(m.value, v, comment, Ending(line));
        SurroundingsOfAssigning(RenderLine(line, updates).value, m.value, Quoted(v) + comment);
        CommentSurvives(v, comment);
      }
    }
  }

  /** A line whose updated key already holds the value is left alone. */
  lemma HeldLineIsKept(line: string, updates: Values)
    requires forall k | k in KeyOf(line) && k in updates :: AlreadyHolds(line, k, updates[k])
    ensures RenderLine(line, updates) == Ok(line)
  {
    var m := MatchAssignment(Body(line));
    if m.Some? && m.value.key in updates { assert m.value.key in KeyOf(line); }
  }
}
