/** One value: printing and reading undo each other. */
module DotenvValues {
  import opened Common
  import opened DotenvModel

  // ---------------------------------------------------------------------------------------------
  // Escaping character by character
  // ---------------------------------------------------------------------------------------------

  function EscapeChar(c: char): string {
    if c == '\\' then "\\\\" else if c == '"' then "\\\"" else if c == '$' then "$$" else [c]
  }

  lemma {:induction false} ReplaceConcat(a: string, b: string, c: char, image: string)
    ensures Replace(a + b, c, image) == Replace(a, c, image) + Replace(b, c, image)
  {
    if a == "" {
      assert a + b == b;
    } else {
      assert (a + b)[1..] == a[1..] + b;
      ReplaceConcat(a[1..], b, c, image);
    }
  }

  lemma ReplaceOne(x: char, c: char, image: string)
    ensures Replace([x], c, image) == if x == c then image else [x]
  {
    assert [x][1..] == "";
  }

  lemma ReplaceTwo(x: char, y: char, c: char, image: string)
    ensures Replace([x, y], c, image) == (if x == c then image else [x]) + (if y == c then image else [y])
  {
    assert [x, y] == [x] + [y];
    ReplaceConcat([x], [y], c, image);
    ReplaceOne(x, c, image);
    ReplaceOne(y, c, image);
  }

  /** The three passes act on each character alone. */
  lemma EscapeOne(x: char)
    ensures Escape([x]) == EscapeChar(x)
  {
    ReplaceOne(x, '\\', "\\\\");
    ReplaceOne(x, '"', "\\\"");
    ReplaceOne(x, '$', "$$");
    ReplaceTwo('\\', '\\', '"', "\\\"");
    ReplaceTwo('\\', '\\', '$', "$$");
    ReplaceTwo('\\', '"', '$', "$$");
  }

  lemma EscapeConcat(a: string, b: string)
    ensures Escape(a + b) == Escape(a) + Escape(b)
  {
    var a1, b1 := Replace(a, '\\', "\\\\"), Replace(b, '\\', "\\\\");
    ReplaceConcat(a, b, '\\', "\\\\");
    ReplaceConcat(a1, b1, '"', "\\\"");
    ReplaceConcat(Replace(a1, '"', "\\\""), Replace(b1, '"', "\\\""), '$', "$$");
  }

  lemma EscapeHead(v: string)
    requires v != ""
    ensures Escape(v) == EscapeChar(v[0]) + Escape(v[1..])
  {
    assert v == [v[0]] + v[1..];
    EscapeConcat([v[0]], v[1..]);
    EscapeOne(v[0]);
  }

  // ---------------------------------------------------------------------------------------------
  // Reading an escaped value
  // ---------------------------------------------------------------------------------------------

  lemma DecodePlain(c: char, rest: string)
    requires c != '\\' && c != '$'
    ensures Decode([c] + rest) == [c] + Decode(rest)
  {
    assert ([c] + rest)[1..] == rest;
  }

  lemma DecodePair(c: char, d: char, rest: string)
    requires c == '\\' || (c == '$' && d == '$')
    ensures Decode([c, d] + rest) == (if c == '\\' then Unescape(d) else "$") + Decode(rest)
  {
    assert ([c, d] + rest)[2..] == rest;
  }

  lemma {:induction false} DecodeEscape(v: string)
    ensures Decode(Escape(v)) == v
  {
    if v != "" {
      var c := v[0];
      EscapeHead(v);
      DecodeEscape(v[1..]);
      if c == '\\' || c == '"' {
        DecodePair('\\', c, Escape(v[1..]));
      } else if c == '$' {
        DecodePair('$', '$', Escape(v[1..]));
      } else {
        DecodePlain(c, Escape(v[1..]));
      }
      assert v == [c] + v[1..];
    }
  }

  /** `t` stands in `s` at `i`. */
  predicate Holds(s: string, i: nat, t: string) {
    i + |t| <= |s| && forall k | 0 <= k < |t| :: s[i + k] == t[k]
  }

  lemma HoldsParts(s: string, i: nat, t: string, u: string)
    requires Holds(s, i, t + u)
    ensures Holds(s, i, t) && Holds(s, i + |t|, u)
  {
    forall k | 0 <= k < |t| ensures s[i + k] == t[k] {
      assert (t + u)[k] == t[k];
    }
    forall k | 0 <= k < |u| ensures s[i + |t| + k] == u[k] {
      assert (t + u)[|t| + k] == u[k];
    }
  }

  lemma ScanPiece(s: string, i: nat, c: char)
    requires Holds(s, i, EscapeChar(c))
    ensures CloseFrom(s, i, '"', false) == CloseFrom(s, i + |EscapeChar(c)|, '"', false)
    ensures CommentFrom(s, i, Some('"'), false) == CommentFrom(s, i + |EscapeChar(c)|, Some('"'), false)
  {
    var piece := EscapeChar(c);
    assert s[i] == piece[0];
    if |piece| == 2 { assert s[i + 1] == piece[1]; }
  }

  /** Scanning an escaped value inside double quotes never stops and ends unescaped. */
  lemma {:induction false} ScanEscaped(s: string, i: nat, v: string)
    requires Holds(s, i, Escape(v))
    ensures CloseFrom(s, i, '"', false) == CloseFrom(s, i + |Escape(v)|, '"', false)
    ensures CommentFrom(s, i, Some('"'), false) == CommentFrom(s, i + |Escape(v)|, Some('"'), false)
    decreases |v|
  {
    if v != "" {
      EscapeHead(v);
      HoldsParts(s, i, EscapeChar(v[0]), Escape(v[1..]));
      ScanPiece(s, i, v[0]);
      ScanEscaped(s, i + |EscapeChar(v[0])|, v[1..]);
    }
  }

  /** In an escaped value every dollar stands beside another. */
  predicate DollarPaired(s: string, i: nat)
    requires i < |s|
  {
    s[i] == '$' ==> (i > 0 && s[i - 1] == '$') || (i + 1 < |s| && s[i + 1] == '$')
  }

  lemma {:induction false} DollarsComeInPairs(v: string)
    ensures forall i | 0 <= i < |Escape(v)| :: DollarPaired(Escape(v), i)
  {
    if v != "" {
      EscapeHead(v);
      DollarsComeInPairs(v[1..]);
      var piece, rest := EscapeChar(v[0]), Escape(v[1..]);
      forall i | 0 <= i < |piece + rest| ensures DollarPaired(piece + rest, i) {
        if i >= |piece| {
          assert DollarPaired(rest, i - |piece|);
        }
      }
    }
  }

  lemma EscapedHasNoInterpolation(v: string)
    ensures !HasUnescapedInterpolation(Escape(v))
  {
    DollarsComeInPairs(v);
    forall i | 0 <= i < |Escape(v)| ensures !UnescapedAt(Escape(v), i) {
      assert DollarPaired(Escape(v), i);
    }
  }

  // ---------------------------------------------------------------------------------------------
  // Quoted values
  // ---------------------------------------------------------------------------------------------

  /** What may follow a printed value: nothing, or a space, a hash sign and a text that ends in no space. */
  predicate IsComment(s: string) {
    s == "" || (|s| >= 2 && IsSpace(s[0]) && s[1] == '#' && !IsSpace(s[|s| - 1]))
  }

  lemma {:induction false} SkipSpacesIs(s: string, i: nat, j: nat)
    requires i <= j <= |s| && (forall k | i <= k < j :: IsSpace(s[k])) && (j == |s| || !IsSpace(s[j]))
    ensures SkipSpaces(s, i) == j
    decreases j - i
  {
    if i < j { SkipSpacesIs(s, i + 1, j); }
  }

  lemma {:induction false} SkipSpacesSkips(s: string, i: nat)
    requires i <= |s|
    ensures var j := SkipSpaces(s, i); (j < |s| ==> !IsSpace(s[j])) && forall k | i <= k < j :: IsSpace(s[k])
    decreases |s| - i
  {
    if i < |s| && IsSpace(s[i]) { SkipSpacesSkips(s, i + 1); }
  }

  lemma {:induction false} RStripIs(s: string)
    ensures RStrip(s) <= s && (RStrip(s) == "" || !IsSpace(RStrip(s)[|RStrip(s)| - 1]))
  {
    if s != "" && IsSpace(s[|s| - 1]) { RStripIs(s[..|s| - 1]); }
  }

  lemma {:induction false} RStripStopsAt(s: string, i: nat)
    requires i < |s| && !IsSpace(s[i])
    ensures |RStrip(s)| > i
  {
    if IsSpace(s[|s| - 1]) { RStripStopsAt(s[..|s| - 1], i); }
  }

  lemma StripKeeps(s: string)
    requires s != "" && !IsSpace(s[0]) && !IsSpace(s[|s| - 1])
    ensures Strip(s) == s && LStrip(s) == s
  {}

  lemma StripComment(s: string)
    requires IsComment(s) && s != ""
    ensures Strip(s) == s[1..]
  {
    assert RStrip(s) == s;
    SkipSpacesIs(s, 0, 1);
  }

  function Quoted(v: string): string {
    "\"" + Escape(v) + "\""
  }

  lemma PrintedLayout(v: string, comment: string)
    ensures var raw, n := Quoted(v) + comment, |Escape(v)|;
            && |raw| == n + 2 + |comment|
            && raw[0] == '"' && raw[n + 1] == '"'
            && Holds(raw, 1, Escape(v)) && raw[1..n + 1] == Escape(v)
            && raw[n + 2..] == comment
  {
    var raw, n := Quoted(v) + comment, |Escape(v)|;
    assert raw[1..n + 1] == Escape(v);
    forall k | 0 <= k < n ensures raw[1 + k] == Escape(v)[k] {
      assert raw[1..n + 1][k] == raw[1 + k];
    }
  }

  lemma QuotedEndOfPrinted(raw: string, v: string)
    requires Holds(raw, 1, Escape(v)) && |Escape(v)| + 1 < |raw| && raw[|Escape(v)| + 1] == '"'
    ensures QuotedEnd(raw, '"') == Some(|Escape(v)| + 1)
  {
    ScanEscaped(raw, 1, v);
  }

  /** Whatever the value, its printed form reads back as that value and reports no variable reference. */
  lemma PrintedValueParses(v: string, comment: string, reject: bool)
    requires IsComment(comment)
    ensures ParseValue(Quoted(v) + comment, reject) == Ok(v)
    ensures LStrip(Quoted(v) + comment) == Quoted(v) + comment
    ensures QuotedEnd(Quoted(v) + comment, '"').Some?
  {
    PrintedLayout(v, comment);
    QuotedEndOfPrinted(Quoted(v) + comment, v);
    LayoutParses(Quoted(v) + comment, v, comment, reject);
  }

  lemma PrintedValueIsRead(v: string, comment: string, strict: bool)
    requires IsComment(comment)
    ensures LineValue(Quoted(v) + comment, strict) == Ok(v)
  {
    PrintedValueParses(v, comment, strict);
  }

  lemma LayoutParses(raw: string, v: string, comment: string, reject: bool)
    requires IsComment(comment)
    requires |raw| == |Escape(v)| + 2 + |comment| && raw[0] == '"' && raw[|Escape(v)| + 1] == '"'
    requires raw[1..|Escape(v)| + 1] == Escape(v) && raw[|Escape(v)| + 2..] == comment
    requires QuotedEnd(raw, '"') == Some(|Escape(v)| + 1)
    ensures ParseValue(raw, reject) == Ok(v) && LStrip(raw) == raw
  {
    if comment != "" {
      assert raw[|Escape(v)| + 2..][|comment| - 1] == raw[|raw| - 1];
      StripComment(comment);
    }
    StripKeeps(raw);
    EscapedHasNoInterpolation(v);
    DecodeEscape(v);
  }

  /** `Quote` and `ParseValue` undo each other on every value `Quote` accepts, and it accepts all but line breaks. */
  lemma QuoteRoundTrip(v: string, reject: bool)
    ensures Quote(v).Ok? <==> NewlineFree(v)
    ensures Quote(v).Ok? ==> ParseValue(Quote(v).value, reject) == Ok(v)
  {
    PrintedValueParses(v, "", reject);
    AppendNothing(Quoted(v));
  }

  lemma AppendNothing(s: string)
    ensures s + "" == s
  {}

  // ---------------------------------------------------------------------------------------------
  // Comments
  // ---------------------------------------------------------------------------------------------

  lemma {:induction false} CommentFromShape(s: string, i: nat, quote: Option<char>, escaped: bool)
    requires CommentFrom(s, i, quote, escaped).Some?
    ensures var c := CommentFrom(s, i, quote, escaped).value; c + 1 < |s| && IsSpace(s[c]) && s[c + 1] == '#'
    decreases |s| - i
  {
    if quote.Some? {
      if escaped { CommentFromShape(s, i + 1, quote, false); }
      else if s[i] == '\\' && quote.value == '"' { CommentFromShape(s, i + 1, quote, true); }
      else if s[i] == quote.value { CommentFromShape(s, i + 1, None, escaped); }
      else { CommentFromShape(s, i + 1, quote, escaped); }
    } else if IsQuote(s[i]) {
      CommentFromShape(s, i + 1, Some(s[i]), escaped);
    } else if !(s[i] == '#' && i > 0 && IsSpace(s[i - 1])) {
      CommentFromShape(s, i + 1, None, escaped);
    }
  }

  lemma CommentShape(suffix: string)
    ensures IsComment(Comment(suffix))
  {
    var start := CommentStart(suffix);
    if start.Some? {
      var tail := suffix[start.value..];
      CommentFromShape(suffix, 0, None, false);
      RStripStopsAt(tail, 1);
      RStripIs(tail);
    }
  }

  /** The comment behind a printed value is found again, and nothing inside the value is taken for one. */
  lemma CommentSurvives(v: string, comment: string)
    requires IsComment(comment)
    ensures Comment(Quoted(v) + comment) == comment
  {
    var raw, n := Quoted(v) + comment, |Escape(v)| + 1;
    PrintedLayout(v, comment);
    ScanEscaped(raw, 1, v);
    assert CommentStart(raw) == CommentFrom(raw, n + 1, None, false);
    if comment != "" {
      assert raw[n + 1..][0] == raw[n + 1] && raw[n + 1..][1] == raw[n + 2];
      SpacesAreNoMarks(comment[0]);
    }
  }

  lemma SpacesAreNoMarks(c: char)
    requires IsSpace(c)
    ensures !IsQuote(c) && c != '#' && !IsKeyChar(c) && c != '='
  {}
}
