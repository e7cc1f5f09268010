/** Where a text is split into lines, and what that does to printed values. */
module DotenvText {
  import opened Common
  import opened DotenvModel
  import opened DotenvValues

  /** The characters `str.splitlines` ends a line at. */
  predicate IsBoundary(c: char) {
    '\n' <= c <= '\r' || '\U{1C}' <= c <= '\U{1E}' || c == '\U{85}' || c == '\U{2028}' || c == '\U{2029}'
  }

  predicate BoundaryFree(s: string) {
    forall i | 0 <= i < |s| :: !IsBoundary(s[i])
  }

  /** The length of the first line of a text, its ending included. */
  function LineLength(s: string): (n: nat)
    requires s != ""
    ensures 0 < n <= |s|
  {
    if IsBoundary(s[0]) then if s[0] == '\r' && |s| > 1 && s[1] == '\n' then 2 else 1
    else if |s| == 1 then 1
    else 1 + LineLength(s[1..])
  }

  /** `splitlines(keepends=True)`. */
  function SplitLines(s: string): seq<string>
    decreases |s|
  {
    if s == "" then [] else [s[..LineLength(s)]] + SplitLines(s[LineLength(s)..])
  }

  function Join(lines: seq<string>): string {
    if lines == [] then "" else lines[0] + Join(lines[1..])
  }

  // ---------------------------------------------------------------------------------------------
  // Boundaries in printed values
  // ---------------------------------------------------------------------------------------------

  lemma {:induction false} LineLengthIs(before: string, after: string)
    requires BoundaryFree(before) && after != "" && IsBoundary(after[0])
    ensures LineLength(before + after) == |before| + LineLength(after)
  {
    if before == "" {
      assert before + after == after;
    } else {
      assert (before + after)[1..] == before[1..] + after;
      LineLengthIs(before[1..], after);
    }
  }

  lemma BoundaryFreeConcat(a: string, b: string)
    ensures BoundaryFree(a + b) <==> BoundaryFree(a) && BoundaryFree(b)
  {
    assert forall i | 0 <= i < |a| :: (a + b)[i] == a[i];
    assert forall i | 0 <= i < |b| :: (a + b)[|a| + i] == b[i];
  }

  lemma BoundaryFreeHead(v: string)
    requires v != ""
    ensures BoundaryFree(v) <==> !IsBoundary(v[0]) && BoundaryFree(v[1..])
  {
    assert forall i | 0 <= i < |v| - 1 :: v[1..][i] == v[i + 1];
  }

  lemma EscapeCharBoundaryFree(c: char)
    ensures BoundaryFree(EscapeChar(c)) <==> !IsBoundary(c)
  {
    assert EscapeChar(c)[0] == c || !IsBoundary(c);
  }

  lemma {:induction false} EscapeBoundaryFree(v: string)
    ensures BoundaryFree(Escape(v)) <==> BoundaryFree(v)
  {
    if v != "" {
      EscapeHead(v);
      EscapeBoundaryFree(v[1..]);
      BoundaryFreeConcat(EscapeChar(v[0]), Escape(v[1..]));
      EscapeCharBoundaryFree(v[0]);
      BoundaryFreeHead(v);
    }
  }

  lemma KeyBoundaryFree(key: string)
    requires IsKey(key)
    ensures BoundaryFree(key)
  {}

  /** The first line boundary of a value. */
  lemma {:induction false} FirstBoundary(v: string) returns (u: string, w: string)
    requires !BoundaryFree(v)
    ensures BoundaryFree(u) && w != "" && IsBoundary(w[0]) && v == u + w
  {
    if IsBoundary(v[0]) {
      u, w := "", v;
    } else {
      BoundaryFreeConcat([v[0]], v[1..]);
      assert v == [v[0]] + v[1..];
      assert BoundaryFree([v[0]]);
      u, w := FirstBoundary(v[1..]);
      BoundaryFreeConcat([v[0]], u);
      u := [v[0]] + u;
    }
  }

  /** A value cut inside its quotes has no closing quote. */
  lemma CutValueIsOpen(u: string)
    ensures QuotedEnd("\"" + Escape(u), '"') == None
  {
    var raw := "\"" + Escape(u);
    assert Holds(raw, 1, Escape(u));
    ScanEscaped(raw, 1, u);
  }
}
