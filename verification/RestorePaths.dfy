/** Restore paths: which relative paths are accepted, and why they stay below the output directory. */
module RestorePaths {
  import opened Common

  type Path = seq<string>

  function Slashed(s: string): string {
    if s == "" then "" else [if s[0] == '\\' then '/' else s[0]] + Slashed(s[1..])
  }

  /** `s.split("/")`. */
  function Split(s: string): (parts: seq<string>)
    ensures |parts| > 0
  {
    if s == "" then [""]
    else
      var rest := Split(s[1..]);
      if s[0] == '/' then [""] + rest else [[s[0]] + rest[0]] + rest[1..]
  }

  function Join(parts: Path): string {
    if parts == [] then "" else if |parts| == 1 then parts[0] else parts[0] + "/" + Join(parts[1..])
  }

  /** `PurePosixPath(...).parts` of a relative path. */
  function Parts(components: seq<string>): Path {
    if components == [] then []
    else if components[0] == "" || components[0] == "." then Parts(components[1..])
    else [components[0]] + Parts(components[1..])
  }

  function SafeRelative(value: string): Result<Path> {
    var raw := Slashed(value);
    var parts := Parts(Split(raw));
    if raw == "" || '\0' in raw || parts == [] || raw[0] == '/' || ".." in parts then Err("unsafe path") else Ok(parts)
  }

  // ---------------------------------------------------------------------------------------------
  // Walking
  // ---------------------------------------------------------------------------------------------

  /** The directories an operating system passes through, component by component, starting in `at`. */
  function Walk(at: Path, components: seq<string>): seq<Path>
    decreases components
  {
    if components == [] then [at]
    else if components[0] == "" || components[0] == "." then [at] + Walk(at, components[1..])
    else if components[0] == ".." then [at] + Walk(if at == [] then [] else at[..|at| - 1], components[1..])
    else [at] + Walk(at + [components[0]], components[1..])
  }

  lemma PartsHead(components: seq<string>)
    requires components != [] && components[0] != "" && components[0] != "."
    ensures Parts(components) == [components[0]] + Parts(components[1..])
  {}

  lemma StepDown(at: Path, name: string, rest: Path)
    ensures at + [name] + rest == at + ([name] + rest)
    ensures ".." in rest || ".." == name ==> ".." in [name] + rest
  {}

  lemma {:induction false} WalkStaysBelow(root: Path, at: Path, components: seq<string>)
    requires ".." !in Parts(components) && root <= at
    ensures var w := Walk(at, components);
            && |w| > 0 && w[|w| - 1] == at + Parts(components)
            && forall i | 0 <= i < |w| :: root <= w[i]
    decreases components
  {
    if components == [] {
      assert at + [] == at;
    } else if components[0] == "" || components[0] == "." {
      WalkStaysBelow(root, at, components[1..]);
    } else {
      PartsHead(components);
      StepDown(at, components[0], Parts(components[1..]));
      WalkStaysBelow(root, at + [components[0]], components[1..]);
    }
  }

  /** Whoever opens an accepted path below `root` ends at `root` plus its parts and is never outside on the way. */
  lemma AcceptedPathsStayBelow(root: Path, value: string)
    requires SafeRelative(value).Ok?
    ensures var w := Walk(root, Split(Slashed(value)));
            && w[|w| - 1] == root + SafeRelative(value).value
            && forall i | 0 <= i < |w| :: root <= w[i]
  {
    WalkStaysBelow(root, root, Split(Slashed(value)));
  }

  // ---------------------------------------------------------------------------------------------
  // Accepting twice
  // ---------------------------------------------------------------------------------------------

  /** A part as it comes out of an accepted path. */
  predicate IsPart(p: string) {
    p != "" && p != "." && p != ".." && '/' !in p && '\\' !in p && '\0' !in p
  }

  lemma {:induction false} SplitPieces(s: string)
    ensures forall p | p in Split(s) :: '/' !in p && forall c | c in p :: c in s
  {
    if s != "" {
      SplitPieces(s[1..]);
      var rest := Split(s[1..]);
      assert forall c | c in s[1..] :: c in s;
      forall p | p in Split(s) ensures '/' !in p && forall c | c in p :: c in s {
        if s[0] == '/' {
          assert p == "" || p in rest;
        } else if p != [s[0]] + rest[0] {
          assert p in rest[1..];
        } else {
          assert rest[0] in rest;
        }
      }
    }
  }

  lemma {:induction false} PartsAreComponents(components: seq<string>)
    ensures forall p | p in Parts(components) :: p in components && p != "" && p != "."
  {
    if components != [] { PartsAreComponents(components[1..]); }
  }

  lemma {:induction false} SlashedHasNoBackslash(s: string)
    ensures '\\' !in Slashed(s)
  {
    if s != "" { SlashedHasNoBackslash(s[1..]); }
  }

  lemma AcceptedParts(value: string)
    requires SafeRelative(value).Ok?
    ensures SafeRelative(value).value != [] && forall p | p in SafeRelative(value).value :: IsPart(p)
  {
    var raw := Slashed(value);
    SplitPieces(raw);
    PartsAreComponents(Split(raw));
    SlashedHasNoBackslash(value);
  }

  lemma {:induction false} SlashedKeeps(s: string)
    requires '\\' !in s
    ensures Slashed(s) == s
  {
    if s != "" {
      assert s[0] in s && forall c | c in s[1..] :: c in s;
      SlashedKeeps(s[1..]);
    }
  }

  lemma {:induction false} SplitOne(p: string, rest: string)
    requires '/' !in p
    ensures Split(p) == [p]
    ensures Split(p + "/" + rest) == [p] + Split(rest)
  {
    if p == "" {
      assert "" + "/" + rest == "/" + rest;
      assert ("/" + rest)[1..] == rest;
    } else {
      assert p[0] in p && forall c | c in p[1..] :: c in p;
      SplitOne(p[1..], rest);
      assert (p + "/" + rest)[1..] == p[1..] + "/" + rest;
      assert [p[0]] + p[1..] == p;
    }
  }

  lemma {:induction false} SplitJoin(parts: Path)
    requires parts != [] && forall p | p in parts :: IsPart(p)
    ensures Split(Join(parts)) == parts && Parts(parts) == parts
  {
    var head, rest := parts[0], parts[1..];
    assert parts == [head] + rest && IsPart(head);
    SplitOne(head, Join(rest));
    PartsCons(head, rest);
    if rest == [] {
      assert parts == [head];
    } else {
      assert forall p | p in rest :: p in parts;
      SplitJoin(rest);
    }
  }

  lemma PartsCons(head: string, rest: Path)
    requires IsPart(head)
    ensures Parts([head] + rest) == [head] + Parts(rest)
  {
    assert ([head] + rest)[1..] == rest;
  }

  lemma {:induction false} JoinChars(parts: Path)
    requires forall p | p in parts :: IsPart(p)
    ensures '\\' !in Join(parts) && '\0' !in Join(parts)
    ensures parts != [] ==> Join(parts) != "" && Join(parts)[0] != '/'
  {
    if parts != [] {
      assert parts[0] in parts && IsPart(parts[0]) && parts[0][0] in parts[0];
      assert forall p | p in parts[1..] :: p in parts;
      JoinChars(parts[1..]);
    }
  }

  /** The printed form of an accepted path is accepted again, with the same parts. */
  lemma SafeRelativeIsStable(value: string)
    requires SafeRelative(value).Ok?
    ensures SafeRelative(Join(SafeRelative(value).value)) == SafeRelative(value)
  {
    var parts := SafeRelative(value).value;
    AcceptedParts(value);
    JoinChars(parts);
    SlashedKeeps(Join(parts));
    SplitJoin(parts);
    assert !IsPart("..");
  }
}
