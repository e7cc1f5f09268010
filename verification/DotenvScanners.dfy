/** The dotenv scanners and the renderer as the loops they are, each tied to its description in `DotenvModel`. */
module DotenvScanners {
  import opened Common
  import opened DotenvModel

  method ScanQuotedEnd(value: string, quote: char) returns (end: Option<nat>)
    ensures end == QuotedEnd(value, quote)
  {
    var escaped := false;
    var index := 1;
    while index < |value|
      invariant CloseFrom(value, index, quote, escaped) == QuotedEnd(value, quote)
    {
      if escaped {
        escaped := false;
      } else if quote == '"' && value[index] == '\\' {
        escaped := true;
      } else if value[index] == quote {
        return Some(index);
      }
      index := index + 1;
    }
    return None;
  }

  lemma DecodeAt(value: string, i: nat)
    requires i < |value|
    ensures Decode(value[i..]) ==
            if value[i] == '\\' && i + 1 < |value| then Unescape(value[i + 1]) + Decode(value[i + 2..])
            else if value[i] == '$' && i + 1 < |value| && value[i + 1] == '$' then "$" + Decode(value[i + 2..])
            else [value[i]] + Decode(value[i + 1..])
  {
    var rest := value[i..];
    assert rest[1..] == value[i + 1..];
    if i + 1 < |value| { assert rest[2..] == value[i + 2..]; }
  }

  lemma Regroup(a: string, b: string, c: string)
    ensures a + (b + c) == (a + b) + c
  {}

  method DecodeDoubleQuoted(value: string) returns (decoded: string)
    ensures decoded == Decode(value)
  {
    decoded := "";
    var index := 0;
    while index < |value|
      invariant index <= |value|
      invariant decoded + Decode(value[index..]) == Decode(value)
    {
      DecodeAt(value, index);
      var piece, width := [value[index]], 1;
      if value[index] == '\\' && index + 1 < |value| {
        piece, width := Unescape(value[index + 1]), 2;
      } else if value[index] == '$' && index + 1 < |value| && value[index + 1] == '$' {
        piece, width := "$", 2;
      }
      Regroup(decoded, piece, Decode(value[index + width..]));
      decoded, index := decoded + piece, index + width;
    }
    assert value[index..] == "";
  }

  method FindInterpolation(value: string) returns (found: bool)
    ensures found == HasUnescapedInterpolation(value)
  {
    for start := 0 to |value|
      invariant forall i | 0 <= i < start :: !UnescapedAt(value, i)
    {
      if ReferenceAt(value, start) && !(start > 0 && value[start - 1] == '$') {
        var backslashes, index := 0, start;
        while index > 0 && value[index - 1] == '\\'
          invariant 0 <= index <= start && backslashes + Backslashes(value, index) == Backslashes(value, start)
        {
          backslashes, index := backslashes + 1, index - 1;
        }
        if backslashes % 2 == 0 {
          assert UnescapedAt(value, start);
          return true;
        }
      }
    }
    return false;
  }

  method InlineCommentStart(value: string) returns (start: Option<nat>)
    ensures start == CommentStart(value)
  {
    var quote: Option<char> := None;
    var escaped := false;
    for index := 0 to |value|
      invariant CommentFrom(value, index, quote, escaped) == CommentStart(value)
    {
      var character := value[index];
      if quote.Some? {
        if escaped {
          escaped := false;
        } else if character == '\\' && quote.value == '"' {
          escaped := true;
        } else if character == quote.value {
          quote := None;
        }
      } else if character == '\'' || character == '"' {
        quote := Some(character);
      } else if character == '#' && index > 0 && IsSpace(value[index - 1]) {
        return Some(index - 1);
      }
    }
    return None;
  }

  method ParseEnvValue(raw: string, reject: bool) returns (r: Result<string>)
    ensures r == ParseValue(raw, reject)
  {
    var value := Strip(raw);
    if value == "" {
      return Ok("");
    }
    if IsQuote(value[0]) {
      r := ParseQuotedValue(value, reject);
    } else {
      r := ParsePlainValue(value, reject);
    }
  }

  method ParseQuotedValue(value: string, reject: bool) returns (r: Result<string>)
    requires value != ""
    ensures r == ParseQuoted(value, reject)
  {
    var end := ScanQuotedEnd(value, value[0]);
    if end.None? {
      return Err("unclosed quote");
    }
    var trailing := Strip(value[end.value + 1..]);
    if trailing != "" && trailing[0] != '#' {
      return Err("text after the closing quote");
    }
    var quoted := value[1..end.value];
    if value[0] != '"' {
      return Ok(quoted);
    }
    var found := FindInterpolation(quoted);
    if reject && found {
      return Err("unescaped variable reference");
    }
    var decoded := DecodeDoubleQuoted(quoted);
    return Ok(decoded);
  }

  method ParsePlainValue(value: string, reject: bool) returns (r: Result<string>)
    ensures r == ParsePlain(value, reject)
  {
    var start := InlineCommentStart(value);
    var text := value;
    if start.Some? {
      text := RStrip(value[..start.value]);
    }
    var found := FindInterpolation(text);
    if reject && found {
      return Err("unescaped variable reference");
    }
    return Ok(text);
  }

  method ParseLineValue(raw: string, strict: bool) returns (r: Result<string>)
    ensures r == LineValue(raw, strict)
  {
    var stripped := LStrip(raw);
    if stripped != "" && IsQuote(stripped[0]) {
      var end := ScanQuotedEnd(stripped, stripped[0]);
      if end.None? {
        return Err("quote spans lines");
      }
    }
    r := ParseEnvValue(raw, strict);
    if r.Err? && !strict {
      return Ok(Strip(raw));
    }
  }

  method ParseEnvLines(lines: seq<string>, managed: set<string>) returns (r: Result<Values>)
    ensures r == ParseLines(lines, managed)
  {
    var values: Values := map[];
    for i := 0 to |lines|
      invariant ParseLines(lines[..i], managed) == Ok(values)
    {
      assert lines[..i + 1][..i] == lines[..i];
      var body := Body(lines[i]);
      var m := MatchAssignment(body);
      if m.Some? {
        var value := ParseLineValue(body[m.value.end..], m.value.key in managed);
        if value.Err? {
          FailsWithPrefix(lines, managed, i + 1);
          return Err(value.reason);
        }
        values := values[m.value.key := value.value];
      }
    }
    assert lines[..|lines|] == lines;
    return Ok(values);
  }

  lemma {:induction false} FailsWithPrefix(lines: seq<string>, managed: set<string>, n: nat)
    requires n <= |lines| && ParseLines(lines[..n], managed).Err?
    ensures ParseLines(lines, managed) == ParseLines(lines[..n], managed)
  {
    if n == |lines| {
      assert lines[..n] == lines;
    } else {
      assert lines[..|lines| - 1][..n] == lines[..n];
      FailsWithPrefix(lines[..|lines| - 1], managed, n);
    }
  }

  lemma {:induction false} RenderFailsWithPrefix(lines: seq<string>, updates: Values, n: nat)
    requires n <= |lines| && RenderLines(lines[..n], updates).Err?
    ensures RenderLines(lines, updates) == RenderLines(lines[..n], updates)
  {
    if n == |lines| {
      assert lines[..n] == lines;
    } else {
      assert lines[..|lines| - 1][..n] == lines[..n];
      RenderFailsWithPrefix(lines[..|lines| - 1], updates, n);
    }
  }

  lemma {:induction false} AppendFailsWithPrefix(order: seq<string>, updates: Values, present: set<string>, ending: string, n: nat)
    requires (forall k | k in order :: k in updates) && n <= |order|
    requires (forall k | k in order[..n] :: k in updates) && Appended(order[..n], updates, present, ending).Err?
    ensures Appended(order, updates, present, ending) == Appended(order[..n], updates, present, ending)
  {
    if n == |order| {
      assert order[..n] == order;
    } else {
      assert order[..|order| - 1][..n] == order[..n];
      AppendFailsWithPrefix(order[..|order| - 1], updates, present, ending, n);
    }
  }

  /** The line that replaces one assignment. */
  method RenderAssignment(line: string, body: string, m: Assignment, value: string) returns (r: Result<string>)
    requires body == Body(line) && m.end <= |body|
    ensures r == Rewrite(line, m, value)
  {
    var suffix := body[m.end..];
    var current := ParseEnvValue(suffix, true);
    if current.Err? {
      return current;
    }
    if current.value == value {
      return Ok(line);
    }
    var start := InlineCommentStart(suffix);
    var comment := if start.Some? then RStrip(suffix[start.value..]) else "";
    var quoted := Quote(value);
    if quoted.Err? {
      return quoted;
    }
    var prefix := m.indent;
    if m.exported {
      prefix := prefix + "export ";
    }
    assert prefix == Prefix(m);
    return Ok(prefix + m.key + "=" + quoted.value + comment + Ending(line));
  }

  /** One line of the output, and the updated key it now carries. */
  method RenderOne(line: string, updates: Values) returns (r: Result<string>, key: set<string>)
    ensures r == RenderLine(line, updates)
    ensures key == KeyOf(line) * updates.Keys
  {
    var body := Body(line);
    var m := MatchAssignment(body);
    if m.None? || m.value.key !in updates {
      return Ok(line), {};
    }
    r := RenderAssignment(line, body, m.value, updates[m.value.key]);
    key := {m.value.key};
  }

  lemma RenderLinesUpTo(lines: seq<string>, updates: Values, i: nat)
    requires i < |lines| && RenderLines(lines[..i], updates).Ok?
    ensures var before, line := RenderLines(lines[..i], updates).value, RenderLine(lines[i], updates);
            RenderLines(lines[..i + 1], updates) == if line.Ok? then Ok(before + [line.value]) else Err(line.reason)
    ensures AssignedKeys(lines[..i + 1]) == AssignedKeys(lines[..i]) + KeyOf(lines[i])
  {
    assert lines[..i + 1][..i] == lines[..i];
  }

  /** Rewrites the assignments of updated keys, and says which keys it met. */
  method ReplaceAssignments(lines: seq<string>, updates: Values) returns (r: Result<seq<string>>, replaced: set<string>)
    ensures r == RenderLines(lines, updates)
    ensures r.Ok? ==> replaced == AssignedKeys(lines) * updates.Keys
  {
    var rendered: seq<string> := [];
    replaced := {};
    for i := 0 to |lines|
      invariant RenderLines(lines[..i], updates) == Ok(rendered)
      invariant replaced == AssignedKeys(lines[..i]) * updates.Keys
    {
      RenderLinesUpTo(lines, updates, i);
      var line, key := RenderOne(lines[i], updates);
      if line.Err? {
        RenderFailsWithPrefix(lines, updates, i + 1);
        return Err(line.reason), replaced;
      }
      rendered, replaced := rendered + [line.value], replaced + key;
    }
    assert lines[..|lines|] == lines;
    return Ok(rendered), replaced;
  }

  method RenderEnv(lines: seq<string>, order: seq<string>, updates: Values) returns (r: Result<seq<string>>)
    requires forall k | k in order :: k in updates
    ensures r == Render(lines, order, updates)
  {
    var ending := DefaultEnding(lines);
    var kept, replaced := ReplaceAssignments(lines, updates);
    if kept.Err? {
      return kept;
    }
    var rendered := kept.value;
    if rendered != [] && !EndsInNewline(rendered[|rendered| - 1]) {
      rendered := rendered[|rendered| - 1 := rendered[|rendered| - 1] + ending];
    }
    assert rendered == Terminated(kept.value, ending);
    var added := AppendMissing(order, updates, replaced, AssignedKeys(lines), ending);
    if added.Err? {
      return added;
    }
    return Ok(rendered + added.value);
  }

  method AppendMissing(order: seq<string>, updates: Values, replaced: set<string>, ghost present: set<string>, ending: string)
    returns (r: Result<seq<string>>)
    requires (forall k | k in order :: k in updates) && replaced == present * updates.Keys
    ensures r == Appended(order, updates, present, ending)
  {
    var added: seq<string> := [];
    for j := 0 to |order|
      invariant forall k | k in order[..j] :: k in updates
      invariant Appended(order[..j], updates, present, ending) == Ok(added)
    {
      assert order[..j + 1][..j] == order[..j] && order[..j + 1][j] == order[j];
      if order[j] !in replaced {
        var quoted := Quote(updates[order[j]]);
        if quoted.Err? {
          AppendFailsWithPrefix(order, updates, present, ending, j + 1);
          return Err(quoted.reason);
        }
        added := added + [order[j] + "=" + quoted.value + ending];
      }
    }
    assert order[..|order|] == order;
    return Ok(added);
  }
}
