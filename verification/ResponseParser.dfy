/**
 Splitting a response into its explanation and the JSON of a tool call, by the first place that looks like a
 tool call and a brace scanner that knows strings and escapes. JSON texts follow RFC 8259, sections 2 to 7.
 */
module ResponseParser {
  import opened Text

  const PATTERNS: seq<string> := ["{\"tool\"", "{ \"tool\"", "{\"tool\":", "{ \"tool\":", "{\"id\"", "{ \"id\""]

  // ---------------------------------------------------------------- the scanner

  datatype Scan = Scan(depth: int, inString: bool, escaped: bool)

  const START := Scan(0, false, false)

  function Read(s: Scan, c: char): Scan {
    if s.escaped then s.(escaped := false)
    else if c == '\\' then s.(escaped := true)
    else if c == '"' then s.(inString := !s.inString)
    else if s.inString then s
    else if c == '{' then s.(depth := s.depth + 1)
    else if c == '}' then s.(depth := s.depth - 1)
    else s
  }

  /** The object ends with this character. */
  predicate Closes(s: Scan, c: char) {
    !s.escaped && !s.inString && c == '}' && s.depth == 1
  }

  /** The scanner after `t`; none when an object ends within `t`. */
  function Run(s: Scan, t: string): Option<Scan>
    decreases t
  {
    if t == "" then Some(s)
    else if Closes(s, t[0]) then None
    else Run(Read(s, t[0]), t[1..])
  }

  /** Just after the end of the object that is open at `i` in state `s`; the whole text when there is none. */
  function ObjectEnd(t: string, i: nat, s: Scan): (end: nat)
    requires i <= |t|
    ensures i <= end <= |t|
    decreases |t| - i
  {
    if i == |t| then i
    else if Closes(s, t[i]) then i + 1
    else ObjectEnd(t, i + 1, Read(s, t[i]))
  }

  /** First occurrence of any of the patterns; -1 when there is none. */
  function FirstOf(t: string, patterns: seq<string>): (r: int)
    ensures r >= 0 ==> exists p | 0 <= p < |patterns| :: OccursAt(t, patterns[p], r)
    ensures forall p, k | 0 <= p < |patterns| && 0 <= k && (k < r || r < 0) :: !OccursAt(t, patterns[p], k)
    ensures -1 <= r
  {
    if patterns == [] then -1
    else
      var n := |patterns| - 1;
      Earlier(FirstOf(t, patterns[..n]), Index(t, patterns[n]))
  }

  function Earlier(a: int, b: int): int {
    if b != -1 && (a == -1 || b < a) then b else a
  }

  function Extract(response: string): (string, string) {
    var start := FirstOf(response, PATTERNS);
    if start < 0 then (response, "")
    else (Trim(response[..start]), response[start..ObjectEnd(response, start, START)])
  }

  method FirstPattern(response: string, patterns: seq<string>) returns (start: int)
    ensures start == FirstOf(response, patterns)
  {
    hide Index;
    start := -1;
    for p := 0 to |patterns|
      invariant start == FirstOf(response, patterns[..p])
    {
      assert patterns[..p + 1][..p] == patterns[..p];
      var idx := Index(response, patterns[p]);
      if idx != -1 && (start == -1 || idx < start) { start := idx; }
    }
    assert patterns[..|patterns|] == patterns;
  }

  method ExtractExplanationAndTool(response: string) returns (explanation: string, toolJSON: string)
    ensures (explanation, toolJSON) == Extract(response)
  {
    FirstInRange(response);
    hide PATTERNS;
    var start := FirstPattern(response, PATTERNS);
    if start == -1 { return response, ""; }
    explanation := Trim(response[..start]);
    var depth, inString, escaped := 0, false, false;
    for i := start to |response|
      invariant ObjectEnd(response, i, Scan(depth, inString, escaped)) == ObjectEnd(response, start, START)
    {
      var ch := response[i];
      if escaped {
        escaped := false;
        continue;
      }
      if ch == '\\' {
        escaped := true;
        continue;
      }
      if ch == '"' {
        inString := !inString;
        continue;
      }
      if inString { continue; }
      if ch == '{' {
        depth := depth + 1;
      } else if ch == '}' {
        depth := depth - 1;
        if depth == 0 { return explanation, response[start..i + 1]; }
      }
    }
    toolJSON := response[start..];
    assert toolJSON == response[start..|response|];
  }

  lemma FirstInRange(response: string)
    ensures FirstOf(response, PATTERNS) <= |response|
  {
    hide PATTERNS;
  }

  lemma {:induction false} RunAppend(s: Scan, a: string, b: string)
    ensures Run(s, a + b) == if Run(s, a).None? then None else Run(Run(s, a).value, b)
    decreases a
  {
    if a == "" {
      assert a + b == b;
    } else {
      assert (a + b)[1..] == a[1..] + b && (a + b)[0] == a[0];
      if !Closes(s, a[0]) { RunAppend(Read(s, a[0]), a[1..], b); }
    }
  }

  lemma RunOne(s: Scan, c: char)
    ensures Run(s, [c]) == if Closes(s, c) then None else Some(Read(s, c))
  {
    assert [c][1..] == "";
  }

  /** While no object ends, looking for the end from the start is looking for it from further on. */
  lemma {:induction false} EndFurtherOn(t: string, i: nat, j: nat, s: Scan)
    requires i <= j <= |t| && Run(s, t[i..j]).Some?
    ensures ObjectEnd(t, i, s) == ObjectEnd(t, j, Run(s, t[i..j]).value)
    decreases j - i
  {
    if i < j {
      assert t[i..j][1..] == t[i + 1..j];
      EndFurtherOn(t, i + 1, j, Read(s, t[i]));
    }
  }

  // ---------------------------------------------------------------- JSON texts

  datatype Char = Plain(c: char) | Escape(c: char) | Unicode(hex: string)

  /** Values as they are written, white space included. */
  datatype Value =
    | Literal(text: string)
    | Number(text: string)
    | Str(chars: seq<Char>)
    | EmptyArray(gap: string)
    | Array(elements: Elements)
    | EmptyObject(gap: string)
    | Object(members: Members)

  datatype Elements =
    | LastElement(before: string, value: Value, after: string)
    | ElementThen(before: string, value: Value, after: string, more: Elements)

  datatype Members =
    | LastMember(before: string, name: seq<Char>, gap: string, space: string, value: Value, after: string)
    | MemberThen(before: string, name: seq<Char>, gap: string, space: string, value: Value, after: string, more: Members)

  predicate ValidChar(c: Char) {
    match c
    case Plain(x) => x >= ' ' && x != '"' && x != '\\'
    case Escape(x) => x in {'"', '\\', '/', 'b', 'f', 'n', 'r', 't'}
    case Unicode(hex) => |hex| == 4 && forall i | 0 <= i < 4 :: '0' <= hex[i] <= '9' || 'a' <= hex[i] <= 'f' || 'A' <= hex[i] <= 'F'
  }

  predicate ValidChars(chars: seq<Char>) { forall i | 0 <= i < |chars| :: ValidChar(chars[i]) }

  predicate Gap(s: string) { forall i | 0 <= i < |s| :: s[i] in {' ', '\t', '\n', '\r'} }

  /** Digits, sign, fraction and exponent; their order does not matter to what follows. */
  predicate NumberText(s: string) {
    s != "" && forall i | 0 <= i < |s| :: '0' <= s[i] <= '9' || s[i] in {'-', '+', '.', 'e', 'E'}
  }

  predicate Valid(v: Value) {
    match v
    case Literal(t) => t == "true" || t == "false" || t == "null"
    case Number(t) => NumberText(t)
    case Str(chars) => ValidChars(chars)
    case EmptyArray(gap) => Gap(gap)
    case Array(e) => ValidElements(e)
    case EmptyObject(gap) => Gap(gap)
    case Object(m) => ValidMembers(m)
  }

  predicate ValidElements(e: Elements) {
    Gap(e.before) && Valid(e.value) && Gap(e.after) && (e.ElementThen? ==> ValidElements(e.more))
  }

  predicate ValidMembers(m: Members) {
    && Gap(m.before) && ValidChars(m.name) && Gap(m.gap) && Gap(m.space) && Valid(m.value) && Gap(m.after)
    && (m.MemberThen? ==> ValidMembers(m.more))
  }

  function CharText(c: Char): string {
    match c
    case Plain(x) => [x]
    case Escape(x) => ['\\', x]
    case Unicode(hex) => "\\u" + hex
  }

  function CharsText(chars: seq<Char>): string {
    if chars == [] then "" else CharText(chars[0]) + CharsText(chars[1..])
  }

  function Quoted(chars: seq<Char>): string { "\"" + CharsText(chars) + "\"" }

  function ValueText(v: Value): string {
    match v
    case Literal(t) => t
    case Number(t) => t
    case Str(chars) => Quoted(chars)
    case EmptyArray(gap) => "[" + gap + "]"
    case Array(e) => "[" + ElementsText(e) + "]"
    case EmptyObject(gap) => "{" + gap + "}"
    case Object(m) => "{" + MembersText(m) + "}"
  }

  function ElementsText(e: Elements): string {
    e.before + ValueText(e.value) + e.after + (if e.ElementThen? then "," + ElementsText(e.more) else "")
  }

  function MembersText(m: Members): string {
    m.before + Quoted(m.name) + m.gap + ":" + m.space + ValueText(m.value) + m.after
    + (if m.MemberThen? then "," + MembersText(m.more) else "")
  }

  // ---------------------------------------------------------------- the scanner passes over values

  /** Text that leaves the scanner as it was, without ending anything. */
  ghost predicate Passes(s: Scan, t: string) { Run(s, t) == Some(s) }

  ghost predicate Inside(s: Scan) { s.depth >= 1 && !s.inString && !s.escaped }

  lemma PassesAppend(s: Scan, a: string, b: string)
    requires Passes(s, a) && Passes(s, b)
    ensures Passes(s, a + b)
  {
    RunAppend(s, a, b);
  }

  /** No character of `t` means anything to the scanner outside a string. */
  predicate Inert(t: string) { forall i | 0 <= i < |t| :: t[i] !in {'"', '\\', '{', '}'} }

  lemma {:induction false} InertPasses(s: Scan, t: string)
    requires Inside(s) && Inert(t)
    ensures Passes(s, t)
  {
    if t != "" { InertPasses(s, t[1..]); }
  }

  lemma CharPasses(s: Scan, c: Char)
    requires s.inString && !s.escaped && ValidChar(c)
    ensures Passes(s, CharText(c))
  {
    if c.Unicode? {
      var t := "\\u" + c.hex;
      assert t[1..] == "u" + c.hex && t[1..][1..] == c.hex;
      HexPasses(s, c.hex);
    } else if c.Escape? {
      assert ['\\', c.c][1..] == [c.c];
      RunOne(s.(escaped := true), c.c);
    }
  }

  lemma {:induction false} HexPasses(s: Scan, t: string)
    requires s.inString && !s.escaped && forall i | 0 <= i < |t| :: t[i] != '"' && t[i] != '\\'
    ensures Passes(s, t)
  {
    if t != "" { HexPasses(s, t[1..]); }
  }

  lemma {:induction false} CharsPass(s: Scan, chars: seq<Char>)
    requires s.inString && !s.escaped && ValidChars(chars)
    ensures Passes(s, CharsText(chars))
  {
    if chars != [] {
      CharPasses(s, chars[0]);
      CharsPass(s, chars[1..]);
      PassesAppend(s, CharText(chars[0]), CharsText(chars[1..]));
    }
  }

  lemma StringPasses(s: Scan, chars: seq<Char>)
    requires Inside(s) && ValidChars(chars)
    ensures Passes(s, Quoted(chars))
  {
    var q := s.(inString := true);
    CharsPass(q, chars);
    RunOne(s, '"');
    RunOne(q, '"');
    RunAppend(s, "\"", CharsText(chars));
    RunAppend(s, "\"" + CharsText(chars), "\"");
  }

  /** Braces around text that passes one level deeper. */
  lemma BracedPasses(s: Scan, t: string)
    requires Inside(s) && Passes(s.(depth := s.depth + 1), t)
    ensures Passes(s, "{" + t + "}")
  {
    var q := s.(depth := s.depth + 1);
    RunOne(s, '{');
    RunOne(q, '}');
    RunAppend(s, "{", t);
    RunAppend(s, "{" + t, "}");
  }

  lemma {:induction false} ValuePasses(s: Scan, v: Value)
    requires Inside(s) && Valid(v)
    ensures Passes(s, ValueText(v))
    decreases v
  {
    hide Passes;
    match v {
      case Literal(t) => InertPasses(s, t);
      case Number(t) => InertPasses(s, t);
      case Str(chars) => StringPasses(s, chars);
      case EmptyArray(gap) => InertPasses(s, "[" + gap + "]");
      case Array(e) =>
        ElementsPass(s, e);
        InertPasses(s, "[");
        InertPasses(s, "]");
        PassesAppend(s, "[", ElementsText(e));
        PassesAppend(s, "[" + ElementsText(e), "]");
      case EmptyObject(gap) =>
        InertPasses(s.(depth := s.depth + 1), gap);
        BracedPasses(s, gap);
      case Object(m) =>
        MembersPass(s.(depth := s.depth + 1), m);
        BracedPasses(s, MembersText(m));
    }
  }

  lemma {:induction false} ElementsPass(s: Scan, e: Elements)
    requires Inside(s) && ValidElements(e)
    ensures Passes(s, ElementsText(e))
    decreases e
  {
    hide Passes, Run;
    InertPasses(s, e.before);
    ValuePasses(s, e.value);
    InertPasses(s, e.after);
    PassesAppend(s, e.before, ValueText(e.value));
    PassesAppend(s, e.before + ValueText(e.value), e.after);
    var t := e.before + ValueText(e.value) + e.after;
    if e.ElementThen? {
      ElementsPass(s, e.more);
      InertPasses(s, ",");
      PassesAppend(s, ",", ElementsText(e.more));
      PassesAppend(s, t, "," + ElementsText(e.more));
    } else {
      assert t + "" == t;
    }
  }

  lemma {:induction false} MembersPass(s: Scan, m: Members)
    requires Inside(s) && ValidMembers(m)
    ensures Passes(s, MembersText(m))
    decreases m
  {
    hide Passes, Run;
    InertPasses(s, m.before);
    StringPasses(s, m.name);
    InertPasses(s, m.gap);
    InertPasses(s, ":");
    InertPasses(s, m.space);
    ValuePasses(s, m.value);
    InertPasses(s, m.after);
    var a := m.before + Quoted(m.name);
    var b := a + m.gap;
    var c := b + ":";
    var d := c + m.space;
    var e := d + ValueText(m.value);
    var t := e + m.after;
    PassesAppend(s, m.before, Quoted(m.name));
    PassesAppend(s, a, m.gap);
    PassesAppend(s, b, ":");
    PassesAppend(s, c, m.space);
    PassesAppend(s, d, ValueText(m.value));
    PassesAppend(s, e, m.after);
    if m.MemberThen? {
      MembersPass(s, m.more);
      InertPasses(s, ",");
      PassesAppend(s, ",", MembersText(m.more));
      PassesAppend(s, t, "," + MembersText(m.more));
    } else {
      assert t + "" == t;
    }
  }

  // ---------------------------------------------------------------- extraction

  predicate IsObject(v: Value) { v.EmptyObject? || v.Object? }

  /** Up to its last character nothing ends, and that character ends the object. */
  lemma ObjectRuns(v: Value)
    requires Valid(v) && IsObject(v)
    ensures var t := ValueText(v);
            && t != "" && t[|t| - 1] == '}'
            && Run(START, t[..|t| - 1]) == Some(Scan(1, false, false))
  {
    var one := Scan(1, false, false);
    var inner := if v.EmptyObject? then v.gap else MembersText(v.members);
    if v.EmptyObject? { InertPasses(one, inner); } else { MembersPass(one, v.members); }
    RunOne(START, '{');
    RunAppend(START, "{", inner);
    assert ValueText(v)[..|ValueText(v)| - 1] == "{" + inner;
  }

  predicate PatternFree(t: string) {
    forall p | 0 <= p < |PATTERNS| :: !Contains(t, PATTERNS[p])
  }

  predicate StartsTool(t: string) {
    exists p | 0 <= p < |PATTERNS| :: HasPrefix(t, PATTERNS[p])
  }

  lemma PatternShape(p: nat)
    requires p < |PATTERNS|
    ensures |PATTERNS[p]| > 0 && PATTERNS[p][0] == '{'
    ensures forall k | 1 <= k < |PATTERNS[p]| :: PATTERNS[p][k] != '{'
  {
  }

  /** A pattern begins with its only brace, so it cannot begin before text that begins with a brace and end in it. */
  lemma NoStraddling(before: string, t: string, p: nat, k: nat)
    requires p < |PATTERNS| && !Contains(before, PATTERNS[p]) && t != "" && t[0] == '{' && k < |before|
    ensures !OccursAt(before + t, PATTERNS[p], k)
  {
    var pattern := PATTERNS[p];
    PatternShape(p);
    hide PATTERNS;
    var all := before + t;
    if k + |pattern| <= |before| {
      SliceOfSlice(all, 0, |before|, k, k + |pattern|);
      assert all[0..|before|] == before;
      assert !OccursAt(before, pattern, k);
    } else if k + |pattern| <= |all| {
      assert all[k..k + |pattern|][|before| - k] == all[|before|] == '{' != pattern[|before| - k];
    }
  }

  lemma FirstAt(before: string, t: string)
    requires PatternFree(before) && StartsTool(t)
    ensures FirstOf(before + t, PATTERNS) == |before|
  {
    var p :| 0 <= p < |PATTERNS| && HasPrefix(t, PATTERNS[p]);
    PatternShape(p);
    hide PATTERNS;
    var all := before + t;
    assert t[..|PATTERNS[p]|] == PATTERNS[p];
    assert all[|before|..|before| + |PATTERNS[p]|] == t[..|PATTERNS[p]|];
    assert OccursAt(all, PATTERNS[p], |before|);
    var r := FirstOf(all, PATTERNS);
    if 0 <= r < |before| {
      var q :| 0 <= q < |PATTERNS| && OccursAt(all, PATTERNS[q], r);
      NoStraddling(before, t, q, r);
    }
  }

  lemma ExtractedAt(response: string, before: string, t: string)
    requires FirstOf(response, PATTERNS) == |before| && |before| + |t| <= |response|
    requires response[..|before|] == before && response[|before|..|before| + |t|] == t
    requires ObjectEnd(response, |before|, START) == |before| + |t|
    ensures Extract(response) == (Trim(before), t)
  {
    hide PATTERNS, Trim, FirstOf, ObjectEnd;
  }

  /** The object whose all but last character passes ends with that character. */
  lemma EndsThere(response: string, before: string, t: string, after: string)
    requires response == before + t + after && t != "" && t[|t| - 1] == '}'
    requires Run(START, t[..|t| - 1]) == Some(Scan(1, false, false))
    ensures ObjectEnd(response, |before|, START) == |before| + |t|
    ensures response[..|before|] == before && response[|before|..|before| + |t|] == t
  {
    var start, last := |before|, |before| + |t| - 1;
    assert response[start..last] == t[..|t| - 1];
    assert response[last] == t[|t| - 1];
    hide Run;
    EndFurtherOn(response, start, last, START);
  }

  /** A tool call's object is found exactly, whatever is written after it, if and only if no pattern occurs in
      what is written before it. */
  lemma ExtractsTheObject(before: string, v: Value, after: string)
    requires Valid(v) && IsObject(v) && StartsTool(ValueText(v))
    ensures Extract(before + ValueText(v) + after) == (Trim(before), ValueText(v)) <==> PatternFree(before)
  {
    var t := ValueText(v);
    var response := before + t + after;
    ObjectRuns(v);
    StartsLonger(t, after);
    assert response == before + (t + after);
    if PatternFree(before) { FirstAt(before, t + after); } else { PatternBeforeWins(before, t + after); }
    hide ValueText, StartsTool, FirstOf, Valid, PatternFree, Run, ObjectEnd, Extract, PATTERNS, Trim;
    if PatternFree(before) {
      EndsThere(response, before, t, after);
      ExtractedAt(response, before, t);
    }
  }

  /** Cutting text before a character that is not blank shortens what trimming leaves. */
  lemma TrimCut(s: string, r: nat)
    requires r < |s| && !IsSpace(s[r])
    ensures |Trim(s[..r])| < |Trim(s)|
  {
    var a := s[..r];
    hide Trim, IsSpace;
    var i, j := TrimBounds(s);
    var k, l := TrimBounds(a);
    assert i <= r < j;
    if k < l {
      assert a[k] == s[k];
      assert i <= k;
    }
  }

  /** With a pattern before it the object is not what is found. */
  lemma PatternBeforeWins(before: string, t: string)
    requires !PatternFree(before)
    ensures Extract(before + t).0 != Trim(before)
  {
    var p :| 0 <= p < |PATTERNS| && Contains(before, PATTERNS[p]);
    PatternShape(p);
    hide PATTERNS;
    var k :| 0 <= k <= |before| && OccursAt(before, PATTERNS[p], k);
    var all := before + t;
    assert all[k..k + |PATTERNS[p]|] == before[k..k + |PATTERNS[p]|];
    assert OccursAt(all, PATTERNS[p], k);
    var r := FirstOf(all, PATTERNS);
    var q :| 0 <= q < |PATTERNS| && OccursAt(all, PATTERNS[q], r);
    PatternShape(q);
    assert all[r] == all[r..r + |PATTERNS[q]|][0] == '{';
    hide Trim;
    TrimCut(before, r);
    assert all[..r] == before[..r];
  }

  lemma StartsLonger(t: string, after: string)
    requires StartsTool(t)
    ensures StartsTool(t + after)
  {
    var p :| 0 <= p < |PATTERNS| && HasPrefix(t, PATTERNS[p]);
    assert HasPrefix(t + after, PATTERNS[p]);
  }

  lemma PrefixRuns(t: string, n: nat)
    requires n <= |t| && Run(START, t).Some?
    ensures Run(START, t[..n]).Some?
  {
    assert t == t[..n] + t[n..];
    RunAppend(START, t[..n], t[n..]);
  }

  lemma CutRuns(v: Value, n: nat)
    requires Valid(v) && IsObject(v) && n < |ValueText(v)|
    ensures Run(START, ValueText(v)[..n]).Some?
  {
    hide ValueText, Valid, IsObject, Run;
    var t := ValueText(v);
    ObjectRuns(v);
    PrefixRuns(t[..|t| - 1], n);
    assert t[..|t| - 1][..n] == t[..n];
  }

  lemma NeverEnds(response: string, before: string, t: string)
    requires response == before + t && Run(START, t).Some?
    ensures ObjectEnd(response, |before|, START) == |response|
    ensures response[..|before|] == before && response[|before|..|before| + |t|] == t
  {
    assert response[|before|..|response|] == t;
    hide Run;
    EndFurtherOn(response, |before|, |response|, START);
  }

  /** An object cut off anywhere is returned as far as it goes. */
  lemma ExtractsTheRest(before: string, v: Value, n: nat)
    requires Valid(v) && IsObject(v) && n < |ValueText(v)| && StartsTool(ValueText(v)[..n]) && PatternFree(before)
    ensures Extract(before + ValueText(v)[..n]) == (Trim(before), ValueText(v)[..n])
  {
    var t := ValueText(v);
    CutRuns(v, n);
    FirstAt(before, t[..n]);
    hide ValueText, StartsTool, FirstOf, Valid, IsObject, PatternFree, Run, ObjectEnd, Extract, PATTERNS, Trim;
    NeverEnds(before + t[..n], before, t[..n]);
    ExtractedAt(before + t[..n], before, t[..n]);
  }

  /** A response without a tool call is all explanation. */
  lemma NoToolNoJSON(response: string)
    ensures PatternFree(response) ==> Extract(response) == (response, "")
    ensures !PatternFree(response) ==> Extract(response).1 != ""
  {
    var r := FirstOf(response, PATTERNS);
    if r >= 0 {
      var p :| 0 <= p < |PATTERNS| && OccursAt(response, PATTERNS[p], r);
      PatternShape(p);
      hide PATTERNS;
      assert Contains(response, PATTERNS[p]);
      assert ObjectEnd(response, r, START) > r;
    } else {
      hide PATTERNS;
      forall p | 0 <= p < |PATTERNS| ensures !Contains(response, PATTERNS[p]) {}
    }
  }
}
