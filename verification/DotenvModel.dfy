/** Reading and printing dotenv assignments, character by character. */
module DotenvModel {
  import opened Common

  /** Python's `str.isspace`, which `strip` and `\s` share. */
  predicate IsSpace(c: char) {
    || '\t' <= c <= '\r' || '\U{1C}' <= c <= ' '
    || c == '\U{85}' || c == '\U{A0}' || c == '\U{1680}' || '\U{2000}' <= c <= '\U{200A}'
    || c == '\U{2028}' || c == '\U{2029}' || c == '\U{202F}' || c == '\U{205F}' || c == '\U{3000}'
  }

  predicate AllSpace(s: string) {
    forall i | 0 <= i < |s| :: IsSpace(s[i])
  }

  predicate IsNewline(c: char) {
    c == '\n' || c == '\r'
  }

  predicate AllNewlines(s: string) {
    forall i | 0 <= i < |s| :: IsNewline(s[i])
  }

  predicate NewlineFree(s: string) {
    forall i | 0 <= i < |s| :: !IsNewline(s[i])
  }

  /** The first index from `i` on that does not hold a space. */
  function SkipSpaces(s: string, i: nat): (j: nat)
    requires i <= |s|
    ensures i <= j <= |s|
    decreases |s| - i
  {
    if i < |s| && IsSpace(s[i]) then SkipSpaces(s, i + 1) else i
  }

  function LStrip(s: string): string {
    s[SkipSpaces(s, 0)..]
  }

  function Strip(s: string): string {
    LStrip(RStrip(s))
  }

  function RStrip(s: string): string {
    if s != "" && IsSpace(s[|s| - 1]) then RStrip(s[..|s| - 1]) else s
  }

  /** `rstrip("\r\n")`. */
  function Body(line: string): string {
    if line != "" && IsNewline(line[|line| - 1]) then Body(line[..|line| - 1]) else line
  }

  // ---------------------------------------------------------------------------------------------
  // Assignments
  // ---------------------------------------------------------------------------------------------

  predicate IsKeyStart(c: char) {
    'A' <= c <= 'Z' || 'a' <= c <= 'z' || c == '_'
  }

  predicate IsKeyChar(c: char) {
    IsKeyStart(c) || '0' <= c <= '9'
  }

  predicate IsKey(s: string) {
    s != "" && IsKeyStart(s[0]) && forall i | 0 <= i < |s| :: IsKeyChar(s[i])
  }

  function SkipKeyChars(s: string, i: nat): (j: nat)
    requires i <= |s|
    ensures i <= j <= |s|
    decreases |s| - i
  {
    if i < |s| && IsKeyChar(s[i]) then SkipKeyChars(s, i + 1) else i
  }

  datatype Assignment = Assignment(indent: string, exported: bool, key: string, end: nat)

  /** `KEY\s*=` at `i`: the key, and where the value starts. */
  function MatchKey(s: string, i: nat): (m: Option<(string, nat)>)
    requires i <= |s|
    ensures m.Some? ==> i < m.value.1 <= |s|
  {
    if i == |s| || !IsKeyStart(s[i]) then None
    else
      var j := SkipKeyChars(s, i);
      var k := SkipSpaces(s, j);
      if k < |s| && s[k] == '=' then
        Some((s[i..j], k + 1))
      else None
  }

  const EXPORT := "export"

  /** The assignment pattern. The optional `export` group is given up when no key follows it. */
  function MatchAssignment(s: string): (m: Option<Assignment>)
    ensures m.Some? ==> m.value.end <= |s|
  {
    var i := SkipSpaces(s, 0);
    var grouped := MatchExported(s, i);
    var plain := MatchKey(s, i);
    if grouped.Some? then Some(Assignment(s[..i], true, grouped.value.0, grouped.value.1))
    else if plain.Some? then Some(Assignment(s[..i], false, plain.value.0, plain.value.1))
    else None
  }

  function MatchExported(s: string, i: nat): (m: Option<(string, nat)>)
    requires i <= |s|
    ensures m.Some? ==> i < m.value.1 <= |s|
  {
    if EXPORT <= s[i..] && i + 6 < |s| && IsSpace(s[i + 6]) then MatchKey(s, SkipSpaces(s, i + 6)) else None
  }

  // ---------------------------------------------------------------------------------------------
  // Values
  // ---------------------------------------------------------------------------------------------

  /** The index of the quote that closes a quoted value; in single quotes nothing escapes. */
  function CloseFrom(s: string, i: nat, quote: char, escaped: bool): (r: Option<nat>)
    ensures r.Some? ==> i <= r.value < |s|
    decreases |s| - i
  {
    if i >= |s| then None
    else if escaped then CloseFrom(s, i + 1, quote, false)
    else if quote == '"' && s[i] == '\\' then CloseFrom(s, i + 1, quote, true)
    else if s[i] == quote then Some(i)
    else CloseFrom(s, i + 1, quote, false)
  }

  function QuotedEnd(s: string, quote: char): Option<nat> {
    CloseFrom(s, 1, quote, false)
  }

  function Unescape(c: char): string {
    if c == 'n' then "\n" else if c == 'r' then "\r" else if c == 't' then "\t"
    else if c == '\\' then "\\" else if c == '"' then "\"" else if c == '$' then "$"
    else ['\\', c]
  }

  function Decode(s: string): string {
    if s == "" then ""
    else if s[0] == '\\' && |s| > 1 then Unescape(s[1]) + Decode(s[2..])
    else if s[0] == '$' && |s| > 1 && s[1] == '$' then "$" + Decode(s[2..])
    else [s[0]] + Decode(s[1..])
  }

  /** A variable reference `$NAME` or `${NAME}` starts at `i`. */
  predicate ReferenceAt(s: string, i: nat) {
    && i + 1 < |s| && s[i] == '$'
    && (|| IsKeyStart(s[i + 1])
        || (s[i + 1] == '{' && i + 2 < |s| && IsKeyStart(s[i + 2])
            && var j := SkipKeyChars(s, i + 2); j < |s| && s[j] == '}'))
  }

  /** How many backslashes stand right before `i`. */
  function Backslashes(s: string, i: nat): nat
    requires i <= |s|
  {
    if i == 0 || s[i - 1] != '\\' then 0 else 1 + Backslashes(s, i - 1)
  }

  predicate UnescapedAt(s: string, i: nat) {
    i < |s| && ReferenceAt(s, i) && !(i > 0 && s[i - 1] == '$') && Backslashes(s, i) % 2 == 0
  }

  predicate HasUnescapedInterpolation(s: string) {
    exists i | 0 <= i < |s| :: UnescapedAt(s, i)
  }

  /** Where an inline comment starts: at the space before a `#` that no quote encloses. */
  function CommentFrom(s: string, i: nat, quote: Option<char>, escaped: bool): (r: Option<nat>)
    ensures r.Some? ==> r.value < |s|
    decreases |s| - i
  {
    if i >= |s| then None
    else if quote.Some? then
      if escaped then CommentFrom(s, i + 1, quote, false)
      else if s[i] == '\\' && quote.value == '"' then CommentFrom(s, i + 1, quote, true)
      else if s[i] == quote.value then CommentFrom(s, i + 1, None, escaped)
      else CommentFrom(s, i + 1, quote, escaped)
    else if s[i] == '\'' || s[i] == '"' then CommentFrom(s, i + 1, Some(s[i]), escaped)
    else if s[i] == '#' && i > 0 && IsSpace(s[i - 1]) then Some(i - 1)
    else CommentFrom(s, i + 1, None, escaped)
  }

  function CommentStart(s: string): Option<nat> {
    CommentFrom(s, 0, None, false)
  }

  predicate IsQuote(c: char) {
    c == '\'' || c == '"'
  }

  function ParseQuoted(value: string, reject: bool): Result<string>
    requires value != ""
  {
    var end := QuotedEnd(value, value[0]);
    if end.None? then Err("unclosed quote")
    else
      var trailing := Strip(value[end.value + 1..]);
      var quoted := value[1..end.value];
      if trailing != "" && trailing[0] != '#' then Err("text after the closing quote")
      else if value[0] == '"' && reject && HasUnescapedInterpolation(quoted) then Err("unescaped variable reference")
      else Ok(if value[0] == '"' then Decode(quoted) else quoted)
  }

  function ParsePlain(value: string, reject: bool): Result<string> {
    var start := CommentStart(value);
    var text := if start.Some? then RStrip(value[..start.value]) else value;
    if reject && HasUnescapedInterpolation(text) then Err("unescaped variable reference") else Ok(text)
  }

  function ParseValue(raw: string, reject: bool): Result<string> {
    var value := Strip(raw);
    if value == "" then Ok("")
    else if IsQuote(value[0]) then ParseQuoted(value, reject)
    else ParsePlain(value, reject)
  }

  type Values = map<string, string>

  /** The value text of a line. When not `strict`, text the parser rejects is taken as it stands. */
  function LineValue(raw: string, strict: bool): Result<string> {
    var stripped := LStrip(raw);
    if stripped != "" && IsQuote(stripped[0]) && QuotedEnd(stripped, stripped[0]).None? then Err("quote spans lines")
    else
      var parsed := ParseValue(raw, strict);
      if parsed.Err? && !strict then Ok(Strip(raw)) else parsed
  }

  /** What one line says: nothing, or a key with a value. Only `managed` keys are read strictly. */
  function ParseLine(line: string, managed: set<string>): Result<Option<(string, string)>> {
    var body := Body(line);
    var m := MatchAssignment(body);
    if m.None? then Ok(None)
    else
      var value := LineValue(body[m.value.end..], m.value.key in managed);
      if value.Err? then Err(value.reason) else Ok(Some((m.value.key, value.value)))
  }

  /** Later lines override earlier ones; the first bad line fails the whole file. */
  function ParseLines(lines: seq<string>, managed: set<string>): Result<Values> {
    if lines == [] then Ok(map[])
    else
      var before, last := ParseLines(lines[..|lines| - 1], managed), ParseLine(lines[|lines| - 1], managed);
      if before.Err? then before
      else if last.Err? then Err(last.reason)
      else if last.value.None? then before
      else Ok(before.value[last.value.value.0 := last.value.value.1])
  }

  // ---------------------------------------------------------------------------------------------
  // Printing
  // ---------------------------------------------------------------------------------------------

  /** Python's `replace` of one character. */
  function Replace(s: string, c: char, image: string): string {
    if s == "" then "" else (if s[0] == c then image else [s[0]]) + Replace(s[1..], c, image)
  }

  function Escape(s: string): string {
    Replace(Replace(Replace(s, '\\', "\\\\"), '"', "\\\""), '$', "$$")
  }

  function Quote(value: string): Result<string> {
    if NewlineFree(value) then Ok("\"" + Escape(value) + "\"") else Err("line break in a value")
  }

  predicate EndsInNewline(line: string) {
    line != "" && IsNewline(line[|line| - 1])
  }

  /** The line ending of `line`, or a line feed when it has none. */
  function Ending(line: string): string {
    if |line| >= 2 && line[|line| - 2..] == "\r\n" then "\r\n"
    else if line != "" && line[|line| - 1] == '\r' then "\r"
    else "\n"
  }

  function DefaultEnding(lines: seq<string>): string {
    if lines == [] then "\n"
    else if EndsInNewline(lines[0]) then Ending(lines[0])
    else DefaultEnding(lines[1..])
  }

  function Prefix(m: Assignment): string {
    m.indent + if m.exported then "export " else ""
  }

  /** The line for an assignment `m` whose value becomes `value`, keeping the text around it. */
  function Rewrite(line: string, m: Assignment, value: string): Result<string>
    requires m.end <= |Body(line)|
  {
    var suffix := Body(line)[m.end..];
    var current := ParseValue(suffix, true);
    if current.Err? then current
    else if current.value == value then Ok(line)
    else
      var quoted := Quote(value);
      if quoted.Err? then quoted
      else Ok(Prefix(m) + m.key + "=" + quoted.value + Comment(suffix) + Ending(line))
  }

  function Comment(suffix: string): string {
    var start := CommentStart(suffix);
    if start.Some? then RStrip(suffix[start.value..]) else ""
  }

  function RenderLine(line: string, updates: Values): Result<string> {
    var m := MatchAssignment(Body(line));
    if m.None? || m.value.key !in updates then Ok(line) else Rewrite(line, m.value, updates[m.value.key])
  }

  function RenderLines(lines: seq<string>, updates: Values): Result<seq<string>> {
    if lines == [] then Ok([])
    else
      var before, last := RenderLines(lines[..|lines| - 1], updates), RenderLine(lines[|lines| - 1], updates);
      if before.Err? then before
      else if last.Err? then Err(last.reason)
      else Ok(before.value + [last.value])
  }

  /** The key a line assigns, as a set of at most one. */
  function KeyOf(line: string): set<string> {
    var m := MatchAssignment(Body(line));
    if m.Some? then {m.value.key} else {}
  }

  function AssignedKeys(lines: seq<string>): set<string> {
    if lines == [] then {} else AssignedKeys(lines[..|lines| - 1]) + KeyOf(lines[|lines| - 1])
  }

  /** One new line for each key of `order` that is not in `present`. */
  function Appended(order: seq<string>, updates: Values, present: set<string>, ending: string): Result<seq<string>>
    requires forall k | k in order :: k in updates
  {
    if order == [] then Ok([])
    else
      var key := order[|order| - 1];
      var before := Appended(order[..|order| - 1], updates, present, ending);
      var quoted := Quote(updates[key]);
      if before.Err? || key in present then before
      else if quoted.Err? then Err(quoted.reason)
      else Ok(before.value + [key + "=" + quoted.value + ending])
  }

  /** The last line is given an ending when it has none. */
  function Terminated(lines: seq<string>, ending: string): seq<string> {
    if lines == [] || EndsInNewline(lines[|lines| - 1]) then lines
    else lines[..|lines| - 1] + [lines[|lines| - 1] + ending]
  }

  /** `order` lists the keys of `updates` as the caller's dictionary does. */
  function Render(lines: seq<string>, order: seq<string>, updates: Values): Result<seq<string>>
    requires forall k | k in order :: k in updates
  {
    var ending, kept := DefaultEnding(lines), RenderLines(lines, updates);
    if kept.Err? then kept
    else
      var added := Appended(order, updates, AssignedKeys(lines), ending);
      if added.Err? then added else Ok(Terminated(kept.value, ending) + added.value)
  }
}
