/**
 The matched raw-output excerpt: how it is printed, read back and shrunk to a token budget.
 `est` is the token estimator; nothing is assumed about it.
 */
module Excerpt {
  import opened Text

  type Estimator = string -> nat

  const LINE_RADIUS := 4
  const MAX_INT := 0x7fff_ffff_ffff_ffff

  // ---------------------------------------------------------------- decimal numbers

  function Digit(d: nat): char
    requires d < 10
  {
    ('0' as int + d) as char
  }

  predicate IsDigit(c: char) { '0' <= c <= '9' }

  function Decimal(n: nat): (s: string)
    ensures s != "" && forall i | 0 <= i < |s| :: IsDigit(s[i])
  {
    if n < 10 then [Digit(n)] else Decimal(n / 10) + [Digit(n % 10)]
  }

  function DigitsValue(s: string): Option<nat> {
    if s == "" || !IsDigit(s[|s| - 1]) then None
    else
      var last := s[|s| - 1] as int - '0' as int;
      if |s| == 1 then Some(last)
      else match DigitsValue(s[..|s| - 1])
           case None => None
           case Some(v) => Some(v * 10 + last)
  }

  /** Signed decimal of at most 64 bits; anything else is an error. */
  function Atoi(s: string): Option<int> {
    var negative := s != "" && s[0] == '-';
    var digits := if s != "" && (s[0] == '-' || s[0] == '+') then s[1..] else s;
    match DigitsValue(digits)
    case None => None
    case Some(v) =>
      var value: int := if negative then -(v as int) else v;
      if -MAX_INT - 1 <= value <= MAX_INT then Some(value) else None
  }

  lemma {:induction false} DecimalValue(n: nat)
    ensures DigitsValue(Decimal(n)) == Some(n)
  {
    if n >= 10 {
      DecimalValue(n / 10);
      assert Decimal(n)[..|Decimal(n)| - 1] == Decimal(n / 10);
    }
  }

  lemma AtoiDecimal(n: nat)
    requires n <= MAX_INT
    ensures Atoi(Decimal(n)) == Some(n)
    ensures Trim(Decimal(n)) == Decimal(n)
  {
    var s := Decimal(n);
    assert IsDigit(s[0]) && IsDigit(s[|s| - 1]);
    assert DigitsValue(s) == Some(n) by { DecimalValue(n); }
    assert Trim(s) == s by { TrimFixed(s); }
  }

  // ---------------------------------------------------------------- quoting

  function HexDigit(d: nat): char
    requires d < 16
  {
    if d < 10 then ('0' as int + d) as char else ('a' as int + d - 10) as char
  }

  function HexValue(c: char): Option<nat> {
    if IsDigit(c) then Some(c as int - '0' as int)
    else if 'a' <= c <= 'f' then Some(c as int - 'a' as int + 10)
    else if 'A' <= c <= 'F' then Some(c as int - 'A' as int + 10)
    else None
  }

  function QuoteChar(c: char): (s: string)
    ensures s != ""
  {
    match c
    case '\U{0007}' => "\\a"
    case '\U{0008}' => "\\b"
    case '\U{000C}' => "\\f"
    case '\n' => "\\n"
    case '\r' => "\\r"
    case '\t' => "\\t"
    case '\U{000B}' => "\\v"
    case '\\' => "\\\\"
    case '"' => "\\\""
    case _ =>
      if c as int < 0x20 || 0x7f <= c as int < 0x100
      then ['\\', 'x', HexDigit(c as int / 16), HexDigit(c as int % 16)]
      else [c]
  }

  function QuoteBody(s: string): string
  {
    if s == "" then "" else QuoteChar(s[0]) + QuoteBody(s[1..])
  }

  function Quote(s: string): string
  {
    "\"" + QuoteBody(s) + "\""
  }

  /** One escape sequence after its backslash: the character and how much text it took. */
  function UnescapeChar(s: string): Option<(char, nat)> {
    if s == "" then None
    else match s[0]
      case 'a' => Some(('\U{0007}', 1))
      case 'b' => Some(('\U{0008}', 1))
      case 'f' => Some(('\U{000C}', 1))
      case 'n' => Some(('\n', 1))
      case 'r' => Some(('\r', 1))
      case 't' => Some(('\t', 1))
      case 'v' => Some(('\U{000B}', 1))
      case '\\' => Some(('\\', 1))
      case '"' => Some(('"', 1))
      case 'x' =>
        if |s| < 3 then None
        else (match (HexValue(s[1]), HexValue(s[2]))
              case (Some(hi), Some(lo)) => Some(((hi * 16 + lo) as char, 3))
              case _ => None)
      case _ => None
  }

  /** The value of the quoted text that starts just after its opening quote. */
  function UnquoteBody(s: string): Option<string> {
    if s == "" || s[0] == '\n' then None
    else if s[0] == '"' then Some("")
    else if s[0] == '\\' then
      match UnescapeChar(s[1..])
      case None => None
      case Some((c, used)) =>
        if 1 + used > |s| then None
        else (match UnquoteBody(s[1 + used..])
              case None => None
              case Some(v) => Some([c] + v))
    else
      match UnquoteBody(s[1..])
      case None => None
      case Some(v) => Some([s[0]] + v)
  }

  function UnquotePrefix(s: string): Option<string> {
    if s != "" && s[0] == '"' then UnquoteBody(s[1..]) else None
  }

  lemma UnquoteQuotedChar(c: char, rest: string, v: string)
    requires UnquoteBody(rest) == Some(v)
    ensures UnquoteBody(QuoteChar(c) + rest) == Some([c] + v)
  {
    var q := QuoteChar(c);
    var s := q + rest;
    assert s[|q|..] == rest;
    if q[0] == '\\' {
      assert s[1..] == q[1..] + rest;
      assert UnescapeChar(s[1..]) == Some((c, |q| - 1));
    }
  }

  /** Quoted text is read back as the text, whatever follows it. */
  lemma {:induction false} UnquoteQuote(s: string, rest: string)
    ensures UnquoteBody(QuoteBody(s) + "\"" + rest) == Some(s)
  {
    if s == "" {
      assert QuoteBody(s) + "\"" + rest == "\"" + rest;
      assert ("\"" + rest)[0] == '"';
    } else {
      var tail := QuoteBody(s[1..]) + "\"" + rest;
      UnquoteQuote(s[1..], rest);
      UnquoteQuotedChar(s[0], tail, s[1..]);
      assert QuoteBody(s) + "\"" + rest == QuoteChar(s[0]) + tail;
      assert [s[0]] + s[1..] == s;
    }
  }

  // ---------------------------------------------------------------- rendering

  const HEADER_PREFIX := "[matched raw output excerpt;"
  const TERM_MARKER := "matched_term="
  const LINE_MARKER := "line="
  const HEADER_START := "[matched raw output excerpt; matched_term="
  const HEADER_MIDDLE := "; line="

  function Header(term: string, lineIndex: nat, total: nat): string
  {
    HEADER_START + Quote(term) + HEADER_MIDDLE + (Decimal(lineIndex + 1) + "/" + Decimal(total)) + "]"
  }

  function Omitted(count: nat, direction: string): string {
    "[omitted " + Decimal(count) + " lines " + direction + " match]"
  }

  function RenderParts(lines: seq<string>, term: string, lineIndex: nat, total: nat, start: nat, end: nat): seq<string>
  {
    [Header(term, lineIndex, total)]
    + (if start > 0 then [Omitted(start, "before")] else [])
    + lines
    + (if end < total then [Omitted(total - end, "after")] else [])
  }

  function Render(lines: seq<string>, term: string, lineIndex: nat, total: nat, start: nat, end: nat): string
  {
    JoinLines(RenderParts(lines, term, lineIndex, total, start, end))
  }

  // ---------------------------------------------------------------- parsing

  datatype MatchedExcerpt = MatchedExcerpt(term: string, lineIndex: int, total: nat, start: nat, lines: seq<string>)

  function TrimQuotes(s: string): string
    decreases |s|
  {
    if s != "" && s[0] == '"' then TrimQuotes(s[1..])
    else if s != "" && s[|s| - 1] == '"' then TrimQuotes(s[..|s| - 1])
    else s
  }

  function ParseTerm(header: string): string {
    var at := Index(header, TERM_MARKER);
    if at < 0 then ""
    else
      var rest := Trim(header[at + |TERM_MARKER|..]);
      match UnquotePrefix(rest)
      case Some(term) => term
      case None =>
        var end := IndexChar(rest, ';');
        if end < 0 then "" else TrimQuotes(Trim(rest[..end]))
  }

  function TrimSuffix(s: string, suffix: string): string {
    if HasSuffix(s, suffix) then s[..|s| - |suffix|] else s
  }

  /** `line/total`, both positive; the line comes back counted from 0. */
  function ParseFraction(s: string): Option<(nat, nat)> {
    var slash := IndexChar(s, '/');
    if slash < 0 then None
    else
      var line := Atoi(Trim(s[..slash]));
      var total := Atoi(Trim(s[slash + 1..]));
      if line.Some? && total.Some? && line.value > 0 && total.value > 0
      then Some((line.value - 1, total.value)) else None
  }

  function ParseLine(header: string): Option<(nat, nat)> {
    var at := Index(header, LINE_MARKER);
    if at < 0 then None
    else
      ParseFraction(TrimSuffix(Trim(header[at + |LINE_MARKER|..]), "]"))
  }

  function ParseOmitted(line: string, direction: string): Option<nat> {
    var prefix := "[omitted ";
    var suffix := " lines " + direction + " match]";
    if !HasPrefix(line, prefix) || !HasSuffix(line, suffix) then None
    else
      match Atoi(Trim(TrimSuffix(line[|prefix|..], suffix)))
      case None => None
      case Some(count) => if count < 0 then None else Some(count)
  }

  function DropBefore(content: seq<string>): (nat, seq<string>) {
    if content == [] then (0, content)
    else match ParseOmitted(content[0], "before")
         case Some(omitted) => (omitted, content[1..])
         case None => (0, content)
  }

  function DropAfter(content: seq<string>): seq<string> {
    if content != [] && ParseOmitted(content[|content| - 1], "after").Some? then content[..|content| - 1] else content
  }

  function Parse(body: string): Option<MatchedExcerpt> {
    var lines := SplitLines(Trim(body));
    if !HasPrefix(lines[0], HEADER_PREFIX) then None
    else
      var (start, content) := DropBefore(lines[1..]);
      var kept := DropAfter(content);
      var position := ParseLine(lines[0]);
      var lineIndex: int := if position.Some? then position.value.0 else -1;
      var total := if position.Some? then position.value.1 else start + |kept|;
      Some(MatchedExcerpt(ParseTerm(lines[0]), lineIndex, total, start, kept))
  }

  // ---------------------------------------------------------------- round trip

  /** The quoted term does not itself look like the header's line field. */
  predicate PrintableTerm(term: string) {
    !Contains(Quote(term), LINE_MARKER)
  }

  lemma TermMarkerAt(tail: string)
    ensures Index(HEADER_START + tail, TERM_MARKER) == |HEADER_PREFIX| + 1
  {
    var h := HEADER_START + tail;
    var at := |HEADER_PREFIX| + 1;
    assert h[at..at + |TERM_MARKER|] == TERM_MARKER;
    forall k | 0 <= k < at ensures !OccursAt(h, TERM_MARKER, k) {
      var w := h[k..k + |TERM_MARKER|];
      assert w[7] == h[k + 7] && w[12] == h[k + 12];
      assert TERM_MARKER[7] == '_' && TERM_MARKER[12] == '=';
    }
    OccursIsIndex(h, TERM_MARKER, at);
  }

  lemma ParseTermFrom(term: string, rest: string)
    requires rest != "" && !IsSpace(rest[|rest| - 1])
    ensures ParseTerm(HEADER_START + (Quote(term) + rest)) == term
  {
    hide QuoteBody, UnquoteBody, Trim, Index;
    var tail := Quote(term) + rest;
    TermMarkerAt(tail);
    assert (HEADER_START + tail)[|HEADER_START|..] == tail;
    assert tail[0] == '"' && tail[|tail| - 1] == rest[|rest| - 1];
    assert Trim(tail) == tail by { TrimFixed(tail); }
    assert tail[1..] == QuoteBody(term) + "\"" + rest;
    UnquoteQuote(term, rest);
  }

  lemma ParseTermHeader(term: string, lineIndex: nat, total: nat)
    ensures ParseTerm(Header(term, lineIndex, total)) == term
  {
    var fraction := Decimal(lineIndex + 1) + "/" + Decimal(total);
    var rest := HEADER_MIDDLE + fraction + "]";
    ParseTermFrom(term, rest);
    assert Header(term, lineIndex, total) == HEADER_START + (Quote(term) + rest);
  }

  lemma ParseFractionDecimal(line: nat, total: nat)
    requires 0 < line <= MAX_INT && 0 < total <= MAX_INT
    ensures ParseFraction(Decimal(line) + "/" + Decimal(total)) == Some((line - 1, total))
  {
    hide Decimal, Trim, Atoi, IndexChar;
    SlashAfterDigits(Decimal(line), Decimal(total));
    AtoiDecimal(line);
    AtoiDecimal(total);
  }

  lemma SlashAfterDigits(a: string, b: string)
    requires forall k | 0 <= k < |a| :: IsDigit(a[k])
    ensures var s := a + "/" + b; IndexChar(s, '/') == |a| && s[..|a|] == a && s[|a| + 1..] == b
  {
    hide IndexChar;
    var s := a + "/" + b;
    assert s[|a|] == '/' && forall k | 0 <= k < |a| :: s[k] == a[k];
  }

  lemma NotLineMarker(h: string, k: nat)
    requires k + 5 <= |h|
    requires h[k..k + 5] == LINE_MARKER
    ensures h[k] == 'l' && h[k + 1] == 'i' && h[k + 2] == 'n' && h[k + 3] == 'e' && h[k + 4] == '='
  {
    var w := h[k..k + 5];
    assert w[0] == h[k] && w[1] == h[k + 1] && w[2] == h[k + 2] && w[3] == h[k + 3] && w[4] == h[k + 4];
  }

  /** No line marker starts before the one that follows the quoted part `q`. */
  lemma LineMarkerAfter(p: string, q: string, tail: string)
    requires forall j | 0 < j < |p| :: p[j] == '=' ==> p[j - 1] != 'e'
    requires |q| >= 2 && q[0] == '"' && q[|q| - 1] == '"' && !Contains(q, LINE_MARKER)
    ensures Index(p + q + HEADER_MIDDLE + tail, LINE_MARKER) == |p| + |q| + 2
  {
    var h := p + q + HEADER_MIDDLE + tail;
    var at := |p| + |q| + 2;
    assert h[at..at + 5] == LINE_MARKER;
    assert h[|p|] == '"' && h[|p| + |q| - 1] == '"' && h[|p| + |q|] == ';' && h[|p| + |q| + 1] == ' ';
    forall k | 0 <= k < at ensures !OccursAt(h, LINE_MARKER, k) {
      if h[k..k + 5] == LINE_MARKER {
        NotLineMarker(h, k);
        if |p| <= k && k + 5 <= |p| + |q| {
          assert q[k - |p|..k - |p| + 5] == h[k..k + 5];
          assert OccursAt(q, LINE_MARKER, k - |p|);
        }
        assert false;
      }
    }
    OccursIsIndex(h, LINE_MARKER, at);
  }

  lemma ParseLineFrom(p: string, q: string, fraction: string)
    requires forall j | 0 < j < |p| :: p[j] == '=' ==> p[j - 1] != 'e'
    requires |q| >= 2 && q[0] == '"' && q[|q| - 1] == '"' && !Contains(q, LINE_MARKER)
    requires fraction != "" && IsDigit(fraction[0])
    ensures ParseLine(p + q + HEADER_MIDDLE + fraction + "]") == ParseFraction(fraction)
  {
    hide Trim, ParseFraction, Contains, Index;
    var tail := fraction + "]";
    var h := p + q + HEADER_MIDDLE + tail;
    assert h == p + q + HEADER_MIDDLE + fraction + "]";
    LineMarkerAfter(p, q, tail);
    assert h[Index(h, LINE_MARKER) + 5..] == tail;
    assert Trim(tail) == tail by { TrimFixed(tail); }
    assert tail[..|tail| - 1] == fraction && tail[|tail| - 1..] == "]";
  }

  lemma ParseLineHeader(term: string, lineIndex: nat, total: nat)
    requires PrintableTerm(term)
    requires lineIndex < total <= MAX_INT
    ensures ParseLine(Header(term, lineIndex, total)) == Some((lineIndex, total))
  {
    hide ParseLine, ParseFraction, Decimal, QuoteBody, Contains;
    var fraction := Decimal(lineIndex + 1) + "/" + Decimal(total);
    ParseLineFrom(HEADER_START, Quote(term), fraction);
    ParseFractionDecimal(lineIndex + 1, total);
  }

  lemma ParseOmittedRendered(count: nat, direction: string)
    requires count <= MAX_INT
    ensures ParseOmitted(Omitted(count, direction), direction) == Some(count)
  {
    var prefix, suffix := "[omitted ", " lines " + direction + " match]";
    var line := Omitted(count, direction);
    assert line == prefix + Decimal(count) + suffix;
    assert line[|prefix|..] == Decimal(count) + suffix;
    assert line[|line| - |suffix|..] == suffix;
    assert (Decimal(count) + suffix)[|Decimal(count)|..] == suffix;
    assert (Decimal(count) + suffix)[..|Decimal(count)|] == Decimal(count);
    AtoiDecimal(count);
  }

  /** What a window must satisfy to survive printing: positions fit a 64-bit integer, a line where a
      marker could stand is not shaped like one, and trimming the whole text takes nothing off its end. */
  ghost predicate Recoverable(lines: seq<string>, term: string, lineIndex: nat, total: nat, start: nat, end: nat) {
    && PrintableTerm(term)
    && lineIndex < total <= MAX_INT && start <= MAX_INT
    && (forall i | 0 <= i < |lines| :: NoNewline(lines[i]))
    && (start == 0 && lines != [] ==> ParseOmitted(lines[0], "before").None?)
    && (end >= total && lines != [] ==>
          && ParseOmitted(lines[|lines| - 1], "after").None?
          && lines[|lines| - 1] != "" && !IsSpace(lines[|lines| - 1][|lines[|lines| - 1]| - 1]))
  }

  lemma QuoteNoNewline(term: string)
    ensures NoNewline(QuoteBody(term))
  {
    if term != "" { QuoteNoNewline(term[1..]); }
  }

  lemma OneLine(a: string, b: string, c: string, d: string, e: string)
    requires NoNewline(a) && NoNewline(b) && NoNewline(c) && NoNewline(d) && NoNewline(e)
    ensures NoNewline(a + b + c + d + e)
  {
  }

  lemma HeaderLiteral(rest: string)
    ensures HEADER_PREFIX <= HEADER_START + rest && (HEADER_START + rest)[0] == '[' && NoNewline(HEADER_START)
  {
    assert HEADER_START == HEADER_PREFIX + " matched_term=";
  }

  /** A header and an omission marker are one line each, closed by a bracket. */
  lemma HeaderLine(term: string, lineIndex: nat, total: nat)
    ensures var h := Header(term, lineIndex, total);
            NoNewline(h) && h != "" && h[0] == '[' && h[|h| - 1] == ']' && HasPrefix(h, HEADER_PREFIX)
  {
    hide Decimal, QuoteBody;
    QuoteNoNewline(term);
    var fraction := Decimal(lineIndex + 1) + "/" + Decimal(total);
    var rest := Quote(term) + HEADER_MIDDLE + fraction + "]";
    HeaderLiteral(rest);
    OneLine(HEADER_START, Quote(term), HEADER_MIDDLE, fraction, "]");
    assert Header(term, lineIndex, total) == HEADER_START + rest;
  }

  lemma OmittedLine(count: nat, direction: string)
    requires NoNewline(direction)
    ensures var m := Omitted(count, direction); NoNewline(m) && m != "" && m[|m| - 1] == ']'
  {
  }

  lemma JoinLast(lines: seq<string>)
    requires lines != [] && lines[|lines| - 1] != ""
    ensures var s := JoinLines(lines); var last := lines[|lines| - 1];
            s != "" && s[|s| - 1] == last[|last| - 1]
  {
    if |lines| > 1 { JoinLast(lines[1..]); }
  }

  lemma PartsShape(lines: seq<string>, term: string, lineIndex: nat, total: nat, start: nat, end: nat)
    requires Recoverable(lines, term, lineIndex, total, start, end)
    ensures var parts := RenderParts(lines, term, lineIndex, total, start, end);
            && (forall i | 0 <= i < |parts| :: NoNewline(parts[i]))
            && var last := parts[|parts| - 1]; last != "" && !IsSpace(last[|last| - 1])
  {
    HeaderLine(term, lineIndex, total);
    OmittedLine(start, "before");
    if end < total { OmittedLine(total - end, "after"); }
  }

  lemma RenderedSplit(lines: seq<string>, term: string, lineIndex: nat, total: nat, start: nat, end: nat)
    requires Recoverable(lines, term, lineIndex, total, start, end)
    ensures SplitLines(Trim(Render(lines, term, lineIndex, total, start, end)))
         == RenderParts(lines, term, lineIndex, total, start, end)
  {
    hide Recoverable, Header, Omitted, NoNewline, SplitLines, Trim;
    var parts := RenderParts(lines, term, lineIndex, total, start, end);
    PartsShape(lines, term, lineIndex, total, start, end);
    SplitJoin(parts);
    HeaderLine(term, lineIndex, total);
    JoinLast(parts);
    assert parts[0] == Header(term, lineIndex, total);
    assert JoinLines(parts)[0] == '[';
    TrimFixed(JoinLines(parts));
  }

  lemma OppositeMarker(count: nat)
    ensures ParseOmitted(Omitted(count, "after"), "before") == None
  {
    var line := Omitted(count, "after");
    var want := " lines before match]";
    assert line[|line| - 8] == 'r' && want[|want| - 8] == 'e';
    if |want| <= |line| { assert line[|line| - |want|..][|want| - 8] == line[|line| - 8]; }
  }

  lemma DropFirst(lines: seq<string>, start: nat, tail: seq<string>)
    requires start <= MAX_INT && |tail| <= 1 && (tail != [] ==> ParseOmitted(tail[0], "before").None?)
    requires start == 0 && lines != [] ==> ParseOmitted(lines[0], "before").None?
    ensures DropBefore((if start > 0 then [Omitted(start, "before")] else []) + lines + tail) == (start, lines + tail)
  {
    hide ParseOmitted, Omitted;
    if start > 0 {
      ParseOmittedRendered(start, "before");
      assert ([Omitted(start, "before")] + lines + tail)[1..] == lines + tail;
    } else {
      assert [] + lines + tail == lines + tail;
    }
  }

  lemma DropLast(lines: seq<string>, count: nat)
    requires count <= MAX_INT
    ensures DropAfter(lines + [Omitted(count, "after")]) == lines
  {
    hide ParseOmitted, Omitted;
    ParseOmittedRendered(count, "after");
  }

  /** The two omission markers are taken off, and only they. */
  lemma DropMarkers(lines: seq<string>, start: nat, end: nat, total: nat)
    requires start <= MAX_INT && total <= MAX_INT
    requires start == 0 && lines != [] ==> ParseOmitted(lines[0], "before").None?
    requires end >= total && lines != [] ==> ParseOmitted(lines[|lines| - 1], "after").None?
    ensures var tail := if end < total then [Omitted(total - end, "after")] else [];
            var content := (if start > 0 then [Omitted(start, "before")] else []) + lines + tail;
            DropBefore(content) == (start, lines + tail) && DropAfter(lines + tail) == lines
  {
    hide ParseOmitted, Omitted;
    if end < total {
      OppositeMarker(total - end);
      DropFirst(lines, start, [Omitted(total - end, "after")]);
      DropLast(lines, total - end);
    } else {
      DropFirst(lines, start, []);
      assert lines + [] == lines;
    }
  }

  lemma ParseFrom(body: string, header: string, content: seq<string>, position: (nat, nat))
    requires SplitLines(Trim(body)) == [header] + content
    requires HasPrefix(header, HEADER_PREFIX) && ParseLine(header) == Some(position)
    ensures var d := DropBefore(content);
            Parse(body) == Some(MatchedExcerpt(ParseTerm(header), position.0, position.1, d.0, DropAfter(d.1)))
  {
  }

  /** Reading a printed excerpt gives back exactly what was printed. */
  lemma RoundTrip(lines: seq<string>, term: string, lineIndex: nat, total: nat, start: nat, end: nat)
    requires Recoverable(lines, term, lineIndex, total, start, end)
    ensures Parse(Render(lines, term, lineIndex, total, start, end))
         == Some(MatchedExcerpt(term, lineIndex, total, start, lines))
  {
    hide Parse, ParseTerm, ParseLine, Header, Omitted, DropBefore, DropAfter, SplitLines, Trim, ParseOmitted, JoinLines;
    var header := Header(term, lineIndex, total);
    var tail := if end < total then [Omitted(total - end, "after")] else [];
    var content := (if start > 0 then [Omitted(start, "before")] else []) + lines + tail;
    var body := Render(lines, term, lineIndex, total, start, end);
    assert SplitLines(Trim(body)) == [header] + content by {
      RenderedSplit(lines, term, lineIndex, total, start, end);
    }
    assert HasPrefix(header, HEADER_PREFIX) by { HeaderLine(term, lineIndex, total); }
    assert ParseLine(header) == Some((lineIndex, total)) by { ParseLineHeader(term, lineIndex, total); }
    ParseFrom(body, header, content, (lineIndex, total));
    ParseTermHeader(term, lineIndex, total);
    DropMarkers(lines, start, end, total);
  }

  predicate IsHintChar(c: char) {
    'a' <= c <= 'z' || IsDigit(c) || c in {'_', '-', '.', '/', ':'}
  }

  /** A search hint as the hint extractor builds it: a word over a fixed alphabet. */
  predicate IsHint(s: string) {
    s != "" && forall i | 0 <= i < |s| :: IsHintChar(s[i])
  }

  lemma HintPrints(term: string)
    requires IsHint(term)
    ensures PrintableTerm(term)
  {
    HintQuotesItself(term);
    var q := Quote(term);
    forall k | 0 <= k <= |q| ensures !OccursAt(q, LINE_MARKER, k) {
      if k + 5 <= |q| {
        assert q[k..k + 5][4] == q[k + 4] && LINE_MARKER[4] == '=';
      }
    }
  }

  lemma HintCharQuotesItself(c: char)
    requires IsHintChar(c)
    ensures QuoteChar(c) == [c]
  {
  }

  lemma {:induction false} HintQuotesItself(term: string)
    requires forall i | 0 <= i < |term| :: IsHintChar(term[i])
    ensures QuoteBody(term) == term
  {
    if term != "" {
      var rest := term[1..];
      HintQuotesItself(rest);
      HintCharQuotesItself(term[0]);
      assert term == [term[0]] + rest;
    }
  }

  // ---------------------------------------------------------------- one line around its match

  function BodyExcerpt(est: Estimator, text: string, budget: int): string {
    var body := Trim(text);
    if body == "" || budget <= 0 then ""
    else if est(body) <= budget then body
    else
      var maxChars := Max(budget * 2, 256);
      if |body| <= maxChars then body
      else
        var head := maxChars / 2;
        var tail := maxChars - head;
        Trim(body[..head]) + "\n...\n" + Trim(body[|body| - tail..])
  }

  /** The `[start, end)` window of `width` characters centred on `at`, pushed inside a text of `length`. */
  function Around(at: nat, width: nat, length: nat): (w: (nat, nat))
    requires at <= length && width <= length
    ensures w.0 <= w.1 <= length && w.1 - w.0 == width
    ensures w.0 <= at && (at + width / 2 <= w.1 || w.1 == length)
  {
    var start := Max(at - width / 2, 0);
    var end := start + width;
    if end > length then (length - width, length) else (start, end)
  }

  /** The line is too long for the budget, and is cut. */
  predicate CutDown(est: Estimator, text: string, budget: int) {
    var line := Trim(text);
    line != "" && budget > 0 && est(line) > budget && |line| > Max(budget * 2, 256)
  }

  function TrimMatchedLine(est: Estimator, text: string, term: string, budget: int): string {
    var line := Trim(text);
    var maxChars := Max(budget * 2, 256);
    if line == "" || budget <= 0 || est(line) <= budget || |line| <= maxChars then line
    else
      var index := Index(ToLower(line), ToLower(term));
      if index < 0 then BodyExcerpt(est, line, budget)
      else
        var (start, end) := Around(index, maxChars, |line|);
        (if start > 0 then "..." else "") + Trim(line[start..end]) + (if end < |line| then "..." else "")
  }

  lemma ContainsIn(prefix: string, s: string, suffix: string, t: string)
    requires Contains(s, t)
    ensures Contains(prefix + s + suffix, t)
  {
    var k :| 0 <= k <= |s| && OccursAt(s, t, k);
    var whole := prefix + s + suffix;
    assert whole[|prefix|..|prefix| + |s|] == s;
    ContainsSlice(whole, t, |prefix|, |prefix| + |s|);
  }

  lemma OccursInside(s: string, t: string, i: nat, j: nat, k: nat)
    requires i <= j <= |s| && IsBlank(s[..i]) && IsBlank(s[j..])
    requires t != "" && !IsSpace(t[0]) && !IsSpace(t[|t| - 1])
    requires OccursAt(s, t, k)
    ensures i <= k && k + |t| <= j
  {
    assert t[0] == s[k] && t[|t| - 1] == s[k + |t| - 1];
  }

  /** Trimming never cuts into an occurrence of text that has no blank end. */
  lemma TrimKeeps(s: string, t: string)
    requires t != "" && !IsSpace(t[0]) && !IsSpace(t[|t| - 1])
    requires Contains(s, t)
    ensures Contains(Trim(s), t)
  {
    hide Trim, IsBlank, IsSpace;
    TrimShape(s);
    var i, j :| 0 <= i <= j <= |s| && Trim(s) == s[i..j] && IsBlank(s[..i]) && IsBlank(s[j..]);
    var k: nat :| 0 <= k <= |s| && OccursAt(s, t, k);
    OccursInside(s, t, i, j, k);
    OccursWithin(s, t, k, i, j);
  }

  lemma LowerTrim(s: string)
    ensures ToLower(Trim(s)) == Trim(ToLower(s))
  {
    LowerTrimLeft(s);
    LowerTrimRight(TrimLeft(s));
  }

  lemma LowerTrimLeft(s: string)
    ensures ToLower(TrimLeft(s)) == TrimLeft(ToLower(s))
  {
    if s != "" && IsSpace(s[0]) { LowerTrimLeft(s[1..]); assert ToLower(s)[1..] == ToLower(s[1..]); }
  }

  lemma LowerTrimRight(s: string)
    ensures ToLower(TrimRight(s)) == TrimRight(ToLower(s))
  {
    if s != "" && IsSpace(s[|s| - 1]) {
      LowerTrimRight(s[..|s| - 1]);
      assert ToLower(s)[..|s| - 1] == ToLower(s[..|s| - 1]);
    }
  }

  lemma CutKeepsTerm(line: string, term: string, width: nat)
    requires term != "" && !IsSpace(ToLower(term)[0]) && !IsSpace(ToLower(term)[|term| - 1])
    requires |term| <= width / 2 && width <= |line| && Contains(ToLower(line), ToLower(term))
    ensures var at := Index(ToLower(line), ToLower(term)); var w := Around(at, width, |line|);
            Contains(ToLower(Trim(line[w.0..w.1])), ToLower(term))
  {
    var at := Index(ToLower(line), ToLower(term));
    var w := Around(at, width, |line|);
    var cut := line[w.0..w.1];
    ToLowerSlice(line, w.0, w.1);
    OccursWithin(ToLower(line), ToLower(term), at, w.0, w.1);
    LowerTrim(cut);
    TrimKeeps(ToLower(cut), ToLower(term));
  }

  /** The term stays visible in what is shown of its line, uncut or cut to at least twice the term's length. */
  lemma TrimMatchedLineKeepsTerm(est: Estimator, text: string, term: string, budget: int)
    requires term != "" && !IsSpace(ToLower(term)[0]) && !IsSpace(ToLower(term)[|term| - 1])
    requires CutDown(est, text, budget) ==> |term| <= Max(budget, 128)
    requires Contains(ToLower(text), ToLower(term))
    ensures Contains(ToLower(TrimMatchedLine(est, text, term, budget)), ToLower(term))
  {
    var line := Trim(text);
    LowerTrim(text);
    TrimKeeps(ToLower(text), ToLower(term));
    var maxChars := Max(budget * 2, 256);
    hide ToLower, Contains, Trim, IsSpace;
    if CutDown(est, text, budget) {
      CutKeepsTerm(line, term, maxChars);
      var (start, end) := Around(Index(ToLower(line), ToLower(term)), maxChars, |line|);
      DotsKeep(if start > 0 then "..." else "", Trim(line[start..end]), if end < |line| then "..." else "", ToLower(term));
    }
  }

  lemma DotsKeep(pre: string, cut: string, post: string, t: string)
    requires Contains(ToLower(cut), t)
    ensures Contains(ToLower(pre + cut + post), t)
  {
    hide Contains;
    ToLowerAppend(pre, cut);
    ToLowerAppend(pre + cut, post);
    ContainsIn(ToLower(pre), ToLower(cut), ToLower(post), t);
  }

  // ---------------------------------------------------------------- widest window that fits

  /** The text of the largest radius, at most `radius`, whose estimate fits the budget. */
  function WidestFit(text: nat -> string, est: Estimator, radius: nat, budget: int): (r: Option<string>)
    ensures r.Some? ==> exists k: nat :: && k <= radius && r.value == text(k) && est(text(k)) <= budget
                                         && forall j: nat | k < j <= radius :: est(text(j)) > budget
    ensures r.None? ==> forall j: nat | j <= radius :: est(text(j)) > budget
  {
    if est(text(radius)) <= budget then Some(text(radius))
    else if radius == 0 then None
    else WidestFit(text, est, radius - 1, budget)
  }

  /** A run of lines of a text with the one that matched: `lines[offset]` is line `base + offset` of `total`. */
  datatype RawWindow = Window(lines: seq<string>, offset: nat, base: nat, total: nat, term: string)

  type Window = w: RawWindow | w.offset < |w.lines| witness RawWindow.Window([""], 0, 0, 1, "")

  function MaxRadius(w: Window): nat {
    Min(LINE_RADIUS, Max(w.offset, |w.lines| - w.offset - 1))
  }

  function From(w: Window, radius: nat): nat { Max(0, w.offset - radius) }

  function To(w: Window, radius: nat): nat { Min(|w.lines|, w.offset + radius + 1) }

  function Shown(est: Estimator, w: Window, budget: int, radius: nat): seq<string> {
    if radius == 0 then [TrimMatchedLine(est, w.lines[w.offset], w.term, budget)]
    else w.lines[From(w, radius)..To(w, radius)]
  }

  /** `shown` printed as lines `[from, to)` of the window, between the markers for what is omitted. */
  function Printed(w: Window, from: nat, to: nat, shown: seq<string>): string {
    Render(shown, w.term, w.base + w.offset, w.total, w.base + from, w.base + to)
  }

  function ExcerptAt(est: Estimator, w: Window, budget: int, radius: nat): string {
    Printed(w, From(w, radius), To(w, radius), Shown(est, w, budget, radius))
  }

  function Excerpts(est: Estimator, w: Window, budget: int): nat -> string {
    (radius: nat) => ExcerptAt(est, w, budget, radius)
  }

  function WidestExcerpt(est: Estimator, w: Window, budget: int): Option<string> {
    WidestFit(Excerpts(est, w, budget), est, MaxRadius(w), budget)
  }

  /** The radius loop the excerpt producers share; `text(radius)` is the excerpt of one iteration. */
  method FitRadius(text: nat -> string, est: Estimator, maxRadius: nat, budget: int) returns (r: Option<string>)
    ensures r == WidestFit(text, est, maxRadius, budget)
  {
    var radius: int := maxRadius;
    while radius >= 0
      invariant -1 <= radius <= maxRadius
      invariant radius >= 0 ==> WidestFit(text, est, maxRadius, budget) == WidestFit(text, est, radius, budget)
      invariant radius < 0 ==> WidestFit(text, est, maxRadius, budget) == None
    {
      var excerpt := text(radius);
      if est(excerpt) <= budget { return Some(excerpt); }
      radius := radius - 1;
    }
    return None;
  }

  /** The last resort: the matched line alone, cut to half the budget. */
  function HalfBudgetExcerpt(est: Estimator, w: Window, budget: int): string {
    Printed(w, w.offset, w.offset + 1, [TrimMatchedLine(est, w.lines[w.offset], w.term, budget / 2)])
  }

  // ---------------------------------------------------------------- the three excerpt producers

  function FirstHint(lower: string, hints: seq<string>): (term: string)
    ensures term != "" ==> term in hints && Contains(lower, term)
    ensures term == "" ==> forall h | h in hints && h != "" :: !Contains(lower, h)
  {
    if hints == [] then ""
    else if hints[0] != "" && Contains(lower, hints[0]) then hints[0]
    else FirstHint(lower, hints[1..])
  }

  /** First line holding a hint, and the first hint it holds; |lines| when there is none. */
  function MatchedLine(lines: seq<string>, hints: seq<string>): (m: nat)
    ensures m <= |lines|
    ensures m < |lines| ==> FirstHint(ToLower(lines[m]), hints) != ""
    ensures forall i | 0 <= i < m :: FirstHint(ToLower(lines[i]), hints) == ""
  {
    if lines == [] || FirstHint(ToLower(lines[0]), hints) != "" then 0 else 1 + MatchedLine(lines[1..], hints)
  }

  /** The window of a whole body: all its lines, around the first one that holds a hint. */
  function BodyWindow(body: string, hints: seq<string>): Option<Window> {
    var lines := SplitLines(Trim(body));
    var m := MatchedLine(lines, hints);
    if m == |lines| then None
    else Some(RawWindow.Window(lines, m, 0, |lines|, FirstHint(ToLower(lines[m]), hints)))
  }

  method MatchedBodyExcerpt(est: Estimator, body: string, hints: seq<string>, budget: int) returns (r: Option<string>)
    ensures r == if budget <= 0 || BodyWindow(body, hints).None? then None
                 else WidestExcerpt(est, BodyWindow(body, hints).value, budget)
  {
    if budget <= 0 || hints == [] { return None; }
    var lines := SplitLines(Trim(body));
    var lineIndex := MatchedLine(lines, hints);
    if lineIndex == |lines| { return None; }
    var term := FirstHint(ToLower(lines[lineIndex]), hints);
    var w: Window := RawWindow.Window(lines, lineIndex, 0, |lines|, term);
    r := FitRadius(Excerpts(est, w, budget), est, MaxRadius(w), budget);
  }

  /** The window a printed excerpt stands for: its stated match, or the first line holding its term or a hint. */
  function LocatedWindow(p: MatchedExcerpt, hints: seq<string>): Option<Window> {
    var offset := p.lineIndex - p.start;
    if 0 <= offset < |p.lines| then
      if p.term == "" then None else Some(RawWindow.Window(p.lines, offset, p.start, p.total, p.term))
    else
      var m := MatchedLine(p.lines, (if p.term != "" then [p.term] else []) + hints);
      if m == |p.lines| then None
      else
        var term := if p.term != "" then p.term else FirstHint(ToLower(p.lines[m]), hints);
        Some(RawWindow.Window(p.lines, m, p.start, p.total, term))
  }

  /** The excerpt `w` shrinks to: its widest fitting window, else the half-budget line if that fits. */
  function ShrunkWindow(est: Estimator, w: Window, budget: int): Option<string> {
    match WidestExcerpt(est, w, budget)
    case Some(e) => Some(e)
    case None =>
      var last := HalfBudgetExcerpt(est, w, budget);
      if est(last) <= budget then Some(last) else None
  }

  function Shrunk(est: Estimator, body: string, hints: seq<string>, budget: int): Option<string> {
    if budget <= 0 || Parse(body).None? then None
    else match LocatedWindow(Parse(body).value, hints)
         case None => None
         case Some(w) => ShrunkWindow(est, w, budget)
  }

  method LocateMatch(parsed: MatchedExcerpt, hints: seq<string>) returns (w: Option<Window>)
    ensures w == LocatedWindow(parsed, hints)
  {
    var term := parsed.term;
    var offset := parsed.lineIndex - parsed.start;
    if offset < 0 || offset >= |parsed.lines| {
      var searchHints := (if term != "" then [term] else []) + hints;
      var m := MatchedLine(parsed.lines, searchHints);
      if m == |parsed.lines| { return None; }
      offset := m;
      if term == "" {
        assert searchHints == hints;
        term := FirstHint(ToLower(parsed.lines[m]), searchHints);
      }
    }
    if term == "" { return None; }
    return Some(RawWindow.Window(parsed.lines, offset, parsed.start, parsed.total, term));
  }

  method ShrinkMatchedExcerpt(est: Estimator, body: string, hints: seq<string>, budget: int) returns (r: Option<string>)
    ensures r == Shrunk(est, body, hints, budget)
  {
    if budget <= 0 { return None; }
    var parsed := Parse(body);
    if parsed.None? { return None; }
    var located := LocateMatch(parsed.value, hints);
    if located.None? { return None; }
    var w := located.value;
    r := FitRadius(Excerpts(est, w, budget), est, MaxRadius(w), budget);
    if r.Some? { return; }
    var last := HalfBudgetExcerpt(est, w, budget);
    if est(last) <= budget { return Some(last); }
  }
}
