/**
 Shortening the tool results a later assistant message has already read: failed calls that were tried again
 become one line, errors keep their first line, long results keep their head and their tail.
 */
module HistoryCompact {
  import opened Text
  import opened History
  import Excerpt

  const ERROR := "Error:"
  const READ_ERROR := "Error reading file:"
  const PATTERN_ERROR := "Error: pattern not found"
  const OLD_STR_ERROR := "Error: old_str not found"
  const NO_MATCHES := "No matches found"
  const FAILED := "[Failed:"

  datatype Limits = Limits(maxLines: int, head: nat, tail: nat)

  datatype Metrics = Metrics(errors: nat, failedPairs: nat)

  // ---------------------------------------------------------------- one tool result

  function FirstLine(s: string): (r: string)
    ensures r <= s && NoNewline(r)
    ensures r == s <==> NoNewline(s)
    ensures r != s ==> s[|r|] == '\n'
  {
    var i := IndexChar(s, '\n');
    if i >= 0 then s[..i] else s
  }

  /** The error rules, most special first; each keeps the first line of the trimmed text. */
  function CompressedError(content: string): Option<string> {
    var trimmed := Trim(content);
    if trimmed == NO_MATCHES then Some(trimmed)
    else if HasPrefix(trimmed, PATTERN_ERROR) || HasPrefix(trimmed, OLD_STR_ERROR) then Some(FirstLine(trimmed))
    else if HasPrefix(trimmed, READ_ERROR) then Some(FirstLine(trimmed))
    else if HasPrefix(trimmed, ERROR) then Some(FirstLine(trimmed))
    else None
  }

  predicate IsCompacted(content: string) {
    var trimmed := Trim(content);
    HasPrefix(trimmed, "[Cleared ") || HasPrefix(trimmed, "[Old ") || HasPrefix(trimmed, FAILED)
  }

  function TrimRightNewlines(s: string): (r: string)
    ensures r <= s && (r != "" ==> r[|r| - 1] != '\n')
    ensures forall i | |r| <= i < |s| :: s[i] == '\n'
  {
    if s == "" || s[|s| - 1] != '\n' then s else TrimRightNewlines(s[..|s| - 1])
  }

  function LinesOf(content: string): (r: seq<string>)
    ensures |r| >= 1 && forall i | 0 <= i < |r| :: NoNewline(r[i])
  {
    SplitLines(TrimRightNewlines(content))
  }

  function Notice(lines: nat, tokens: nat): string {
    "... (truncated: was " + Excerpt.Decimal(lines) + " lines, ~" + Excerpt.Decimal(tokens) + " tokens)"
  }

  function Cut(lines: seq<string>, head: nat, tail: nat, tokens: nat): string
    requires head + tail < |lines|
  {
    JoinLines(lines[..head]) + ("\n" + Notice(|lines|, tokens) + "\n") + JoinLines(lines[|lines| - tail..])
  }

  function Truncated(content: string, l: Limits): string {
    var lines := LinesOf(content);
    if |lines| <= l.maxLines || l.head + l.tail >= |lines| then content
    else Cut(lines, l.head, l.tail, |content| / 4)
  }

  /** A result that was read, when its call was not tried again. */
  function Shortened(content: string, l: Limits): string {
    if IsCompacted(content) then content
    else if CompressedError(content).Some? then CompressedError(content).value
    else Truncated(content, l)
  }

  function FailedText(tool: string, content: string): string {
    FAILED + " " + tool + " \U{2014} " + FirstLine(Trim(content)) + "]"
  }

  // ---------------------------------------------------------------- the history

  function LastAssistant(h: seq<Message>): (r: int)
    ensures -1 <= r < |h|
    ensures r >= 0 ==> h[r].role == Assistant
    ensures forall i | r < i < |h| :: h[i].role != Assistant
  {
    if h == [] then -1
    else if h[|h| - 1].role == Assistant then |h| - 1
    else LastAssistant(h[..|h| - 1])
  }

  predicate Calls(m: Message, tool: string) { exists c | 0 <= c < |m.toolCalls| :: m.toolCalls[c].name == tool }

  /** The next assistant message, with no user message before it, calls the same tool again. */
  predicate Retried(h: seq<Message>, tool: string, j: nat)
    requires j <= |h|
    decreases |h| - j
  {
    if j == |h| then false
    else if h[j].role == Assistant then Calls(h[j], tool)
    else if h[j].role == User then false
    else Retried(h, tool, j + 1)
  }

  predicate FailedPair(h: seq<Message>, i: nat)
    requires i < |h|
  {
    HasPrefix(Trim(h[i].content), ERROR) && h[i].toolName != "" && Retried(h, h[i].toolName, i + 1)
  }

  /** Only results that some assistant message comes after are touched. */
  predicate IsRead(h: seq<Message>, i: nat)
    requires i < |h|
  {
    i < LastAssistant(h) && h[i].role == Tool
  }

  function CompactedContent(h: seq<Message>, l: Limits, i: nat): string
    requires i < |h|
  {
    if !IsRead(h, i) then h[i].content
    else if FailedPair(h, i) then FailedText(h[i].toolName, h[i].content)
    else Shortened(h[i].content, l)
  }

  function Compacted(h: seq<Message>, l: Limits): (r: seq<Message>)
    ensures |r| == |h|
    ensures forall i | 0 <= i < |h| :: r[i] == h[i].(content := CompactedContent(h, l, i))
  {
    seq(|h|, i requires 0 <= i < |h| => h[i].(content := CompactedContent(h, l, i)))
  }

  function Counted(h: seq<Message>, n: nat): Metrics
    requires n <= |h|
  {
    if n == 0 then Metrics(0, 0)
    else
      var m := Counted(h, n - 1);
      if !IsRead(h, n - 1) then m
      else if FailedPair(h, n - 1) then m.(failedPairs := m.failedPairs + 1)
      else if !IsCompacted(h[n - 1].content) && CompressedError(h[n - 1].content).Some? then m.(errors := m.errors + 1)
      else m
  }

  // ---------------------------------------------------------------- the pass, in place

  method CompressFailedPair(h: seq<Message>, i: nat) returns (m: Option<Message>)
    requires i < |h|
    ensures m == if FailedPair(h, i) then Some(h[i].(content := FailedText(h[i].toolName, h[i].content))) else None
  {
    var content := Trim(h[i].content);
    if !HasPrefix(content, ERROR) { return None; }
    hide Trim;
    var assistant := -1;
    var j := i + 1;
    while j < |h|
      invariant i < j <= |h| && Retried(h, h[i].toolName, i + 1) == Retried(h, h[i].toolName, j)
    {
      if h[j].role == Assistant {
        assistant := j;
        break;
      }
      if h[j].role == User { return None; }
      j := j + 1;
    }
    if assistant < 0 { return None; }
    var tool := h[i].toolName;
    if tool == "" { return None; }
    var retried := false;
    for c := 0 to |h[assistant].toolCalls|
      invariant !retried && forall d | 0 <= d < c :: h[assistant].toolCalls[d].name != tool
    {
      if h[assistant].toolCalls[c].name == tool {
        retried := true;
        break;
      }
    }
    if !retried { return None; }
    var firstLine := content;
    var idx := IndexChar(content, '\n');
    if idx >= 0 { firstLine := content[..idx]; }
    m := Some(h[i].(content := FAILED + " " + tool + " \U{2014} " + firstLine + "]"));
  }

  method TruncateToolResult(m: Message, l: Limits) returns (r: Message, errors: nat)
    ensures r == m.(content := Shortened(m.content, l))
    ensures errors == if !IsCompacted(m.content) && CompressedError(m.content).Some? then 1 else 0
  {
    hide CompressedError, LinesOf, Cut;
    if IsCompacted(m.content) { return m, 0; }
    hide IsCompacted;
    var compressed := CompressedError(m.content);
    if compressed.Some? {
      if compressed.value != m.content { return m.(content := compressed.value), 1; }
      return m, 1;
    }
    var lines := LinesOf(m.content);
    if |lines| <= l.maxLines || l.head + l.tail >= |lines| { return m, 0; }
    return m.(content := Cut(lines, l.head, l.tail, |m.content| / 4)), 0;
  }

  method CompactOldToolResults(h: seq<Message>, l: Limits) returns (result: seq<Message>, metrics: Metrics)
    ensures result == Compacted(h, l)
    ensures metrics == Counted(h, |h|)
  {
    hide FailedText, Shortened, CompressedError, IsCompacted, Trim, FailedPair, LastAssistant;
    metrics := Metrics(0, 0);
    result := h;
    var last := |h| - 1;
    while last >= 0 && h[last].role != Assistant
      invariant -1 <= last < |h| && forall j | last < j < |h| :: h[j].role != Assistant
    {
      last := last - 1;
    }
    if last < 0 {
      NothingRead(h, |h|);
      return;
    }
    for i := 0 to last
      invariant |result| == |h| && metrics == Counted(h, i)
      invariant forall k | 0 <= k < i :: result[k] == h[k].(content := CompactedContent(h, l, k))
      invariant forall k | i <= k < |h| :: result[k] == h[k]
    {
      if result[i].role == Tool {
        SamePair(h, result, i);
        var compressed := CompressFailedPair(result, i);
        if compressed.Some? {
          metrics := metrics.(failedPairs := metrics.failedPairs + 1);
          result := result[i := compressed.value];
          continue;
        }
        var shortened, errors := TruncateToolResult(result[i], l);
        result := result[i := shortened];
        metrics := metrics.(errors := metrics.errors + errors);
      }
    }
    CountedRest(h, last);
  }

  /** Whether a pair failed depends on nothing before it and on no later content. */
  lemma SamePair(h: seq<Message>, g: seq<Message>, i: nat)
    requires |g| == |h| && i < |h| && g[i].content == h[i].content && g[i].toolName == h[i].toolName
    requires forall k | i < k < |h| :: g[k].role == h[k].role && g[k].toolCalls == h[k].toolCalls
    ensures FailedPair(g, i) == FailedPair(h, i)
  {
    SameRetry(h, g, h[i].toolName, i + 1);
  }

  lemma {:induction false} SameRetry(h: seq<Message>, g: seq<Message>, tool: string, j: nat)
    requires |g| == |h| && j <= |h|
    requires forall k | j <= k < |h| :: g[k].role == h[k].role && g[k].toolCalls == h[k].toolCalls
    ensures Retried(g, tool, j) == Retried(h, tool, j)
    decreases |h| - j
  {
    if j < |h| { SameRetry(h, g, tool, j + 1); }
  }

  lemma {:induction false} NothingRead(h: seq<Message>, n: nat)
    requires n <= |h| && LastAssistant(h) < 0
    ensures Counted(h, n) == Metrics(0, 0)
  {
    if n > 0 { NothingRead(h, n - 1); }
  }

  lemma {:induction false} CountedUpTo(h: seq<Message>, last: nat, n: nat)
    requires last <= n <= |h| && last >= LastAssistant(h)
    ensures Counted(h, n) == Counted(h, last)
    decreases n
  {
    if n > last { CountedUpTo(h, last, n - 1); }
  }

  lemma CountedRest(h: seq<Message>, last: nat)
    requires last < |h| && h[last].role == Assistant && forall j | last < j < |h| :: h[j].role != Assistant
    ensures Counted(h, |h|) == Counted(h, last)
  {
    CountedUpTo(h, last, |h|);
  }

  // ---------------------------------------------------------------- what a pass keeps

  /** Length, roles, calls and IDs are kept, and so is everything from the last assistant message on. */
  lemma KeepsTheRest(h: seq<Message>, l: Limits)
    ensures var r := Compacted(h, l);
            && |r| == |h|
            && (forall i | 0 <= i < |h| :: r[i] == h[i].(content := r[i].content))
            && (forall i | 0 <= i < |h| && (i >= LastAssistant(h) || h[i].role != Tool) :: r[i] == h[i])
            && LastAssistant(r) == LastAssistant(h)
            && (forall i | 0 <= i < |h| :: IsRead(r, i) == IsRead(h, i))
            && (WellFormed(h) ==> WellFormed(r))
  {
    hide FailedText, Shortened, FailedPair;
  }

  // ---------------------------------------------------------------- a second pass

  /** Trimmed text starts with `p` exactly when `p` occurs after nothing but blanks. */
  lemma TrimStartsWith(s: string, p: string)
    requires p != "" && !IsSpace(p[0]) && !IsSpace(p[|p| - 1])
    ensures HasPrefix(Trim(s), p) <==> exists k: nat :: BlankTo(s, k) && OccursAt(s, p, k)
  {
    var i, j := TrimBounds(s);
    hide Trim;
    if HasPrefix(Trim(s), p) {
      SliceOfSlice(s, i, j, 0, |p|);
      assert BlankTo(s, i) && OccursAt(s, p, i);
    }
    if k: nat :| BlankTo(s, k) && OccursAt(s, p, k) {
      StartsAt(s, p, i, j, k);
    }
  }

  lemma StartsAt(s: string, p: string, i: nat, j: nat, k: nat)
    requires p != "" && !IsSpace(p[0]) && !IsSpace(p[|p| - 1])
    requires i <= j <= |s| && BlankTo(s, i) && (i < j ==> !IsSpace(s[i])) && forall x | j <= x < |s| :: IsSpace(s[x])
    requires BlankTo(s, k) && OccursAt(s, p, k)
    ensures HasPrefix(s[i..j], p)
  {
    assert s[k..k + |p|][0] == s[k] && s[k..k + |p|][|p| - 1] == s[k + |p| - 1];
    assert k == i && k + |p| <= j;
    SliceOfSlice(s, i, j, 0, |p|);
    assert s[i..j][0..|p|] == p;
  }

  lemma FailedIsCompacted(tool: string, content: string)
    ensures IsCompacted(FailedText(tool, content)) && !HasPrefix(Trim(FailedText(tool, content)), ERROR)
  {
    var t := FailedText(tool, content);
    assert t[0] == '[' && t[|t| - 1] == ']';
    TrimFixed(t);
    assert t[..|FAILED|] == FAILED;
    assert HasPrefix(t, FAILED);
  }

  predicate IsError(content: string) {
    HasPrefix(Trim(content), ERROR) || HasPrefix(Trim(content), READ_ERROR)
  }

  lemma ErrorCases(content: string)
    ensures CompressedError(content) ==
              if Trim(content) == NO_MATCHES then Some(NO_MATCHES)
              else if IsError(content) then Some(FirstLine(Trim(content)))
              else None
    ensures IsError(content) || Trim(content) == NO_MATCHES ==> !IsCompacted(content)
    ensures Trim(content) == NO_MATCHES ==> !IsError(content)
  {
    var t := Trim(content);
    hide Trim;
    assert PATTERN_ERROR[..|ERROR|] == ERROR && OLD_STR_ERROR[..|ERROR|] == ERROR;
    assert HasPrefix(t, PATTERN_ERROR) || HasPrefix(t, OLD_STR_ERROR) ==> HasPrefix(t, ERROR);
    if IsError(content) { assert t[0] == 'E'; }
    if IsCompacted(content) { assert t[0] == '['; }
  }

  lemma FirstLineKeeps(t: string, p: string)
    requires p <= t && NoNewline(p)
    ensures p <= FirstLine(t)
  {
    assert forall i | 0 <= i < |p| :: t[i] == p[i];
    assert |p| <= |FirstLine(t)|;
  }

  lemma TrimKeepsStart(e: string, p: string)
    requires p != "" && p <= e && !IsSpace(p[0]) && !IsSpace(p[|p| - 1])
    ensures p <= Trim(e) <= e
  {
    var i, j := TrimBounds(e);
    hide Trim;
    assert e[0] == p[0] && e[|p| - 1] == p[|p| - 1];
    assert i == 0 && |p| <= j;
  }

  /** The first line of a trimmed error is an error again; its own trimming is one line. */
  lemma ErrorLine(content: string)
    requires IsError(content)
    ensures var e := FirstLine(Trim(content));
            && IsError(e) && Trim(e) <= e && FirstLine(Trim(e)) == Trim(e)
            && (HasPrefix(Trim(content), ERROR) <==> HasPrefix(Trim(e), ERROR))
            && IsError(Trim(e)) && Trim(Trim(e)) == Trim(e)
  {
    var t := Trim(content);
    var e := FirstLine(t);
    var p := if HasPrefix(t, ERROR) then ERROR else READ_ERROR;
    TrimIdempotent(e);
    hide Trim, FirstLine;
    FirstLineKeeps(t, p);
    TrimKeepsStart(e, p);
    assert READ_ERROR[5] == ' ' && ERROR[5] == ':';
    assert t[5] == Trim(e)[5] == p[5];
  }

  /** An error line is kept as it is by the next pass exactly when it has no trailing blanks; after that pass it has none. */
  lemma ErrorAgain(content: string, l: Limits)
    requires IsError(content)
    ensures var e := FirstLine(Trim(content));
            && Shortened(content, l) == e && Shortened(e, l) == Trim(e) && Shortened(Trim(e), l) == Trim(e)
  {
    ErrorCases(content);
    ErrorLine(content);
    var e := FirstLine(Trim(content));
    ErrorCases(e);
    ErrorCases(Trim(e));
    hide Trim, CompressedError, IsCompacted, IsError, Truncated;
  }

  // ---------------------------------------------------------------- a truncated result

  /** Without newlines at its end text has no empty last line, unless it is empty. */
  lemma LastLine(content: string)
    ensures var lines := LinesOf(content); |lines| > 1 ==> lines[|lines| - 1] != ""
  {
    var s := TrimRightNewlines(content);
    if s != "" {
      var n := |s| - 1;
      assert s == s[..n] + [s[n]];
      SplitAppend(s[..n], [s[n]]);
      SplitNoNewline([s[n]]);
    }
  }

  lemma NoticeLine(lines: nat, tokens: nat)
    ensures var n := Notice(lines, tokens); NoNewline(n) && n != "" && n[0] == '.' && n[|n| - 1] == ')'
  {
  }

  lemma TrimmedAlready(s: string, rest: string)
    requires s != "" && s[|s| - 1] != '\n' && forall i | 0 <= i < |rest| :: rest[i] == '\n'
    ensures TrimRightNewlines(s + rest) == s
  {
    hide TrimRightNewlines;
    var r := TrimRightNewlines(s + rest);
    assert (s + rest)[|s| - 1] == s[|s| - 1];
    assert |r| >= |s|;
    assert forall x | 0 <= x < |rest| :: (s + rest)[|s| + x] == rest[x];
  }

  lemma LinesBack(lines: seq<string>)
    requires forall i | 0 <= i < |lines| :: NoNewline(lines[i])
    ensures SplitLines(JoinLines(lines)) == OneLineAtLeast(lines)
  {
    if lines != [] { SplitJoin(lines); }
  }

  /** A truncated text, taken apart. */
  lemma CutParts(lines: seq<string>, head: nat, tail: nat, tokens: nat) returns (notice: string)
    requires head + tail < |lines|
    ensures notice == Notice(|lines|, tokens)
    ensures NoNewline(notice) && notice != "" && notice[0] == '.' && notice[|notice| - 1] == ')'
    ensures Cut(lines, head, tail, tokens)
         == JoinLines(lines[..head]) + "\n" + notice + ("\n" + JoinLines(lines[|lines| - tail..]))
  {
    notice := Notice(|lines|, tokens);
    NoticeLine(|lines|, tokens);
    hide Notice, JoinLines;
  }

  lemma LinesThenNothing(x: string, notice: string)
    requires NoNewline(notice) && notice != "" && notice[|notice| - 1] == ')'
    ensures LinesOf(x + "\n" + notice + "\n") == SplitLines(x) + [notice]
  {
    hide SplitLines;
    SplitAtNewline(x, notice);
    SplitNoNewline(notice);
    TrimmedAlready(x + "\n" + notice, "\n");
  }

  lemma LinesThenMore(x: string, notice: string, y: string)
    requires NoNewline(notice) && y != "" && y[|y| - 1] != '\n'
    ensures LinesOf(x + "\n" + notice + ("\n" + y)) == SplitLines(x) + [notice] + SplitLines(y)
  {
    hide SplitLines, TrimRightNewlines;
    SplitAtNewline(x, notice);
    SplitNoNewline(notice);
    var first := x + "\n" + notice;
    SplitAtNewline(first, y);
    NotTrimmed(first, y);
  }

  lemma NotTrimmed(first: string, y: string)
    requires y != "" && y[|y| - 1] != '\n'
    ensures first + ("\n" + y) == first + "\n" + y
    ensures TrimRightNewlines(first + ("\n" + y)) == first + "\n" + y
  {
    hide TrimRightNewlines;
    var all := first + ("\n" + y);
    assert all + "" == all && all[|all| - 1] == y[|y| - 1];
    TrimmedAlready(all, "");
  }

  function OneLineAtLeast(lines: seq<string>): seq<string> { if lines == [] then [""] else lines }

  /** The lines of a truncated result: its head, the notice and its tail; an empty head still leaves an empty line. */
  lemma CutLines(lines: seq<string>, head: nat, tail: nat, tokens: nat)
    requires head + tail < |lines| && forall i | 0 <= i < |lines| :: NoNewline(lines[i])
    requires |lines| > 1 ==> lines[|lines| - 1] != ""
    ensures LinesOf(Cut(lines, head, tail, tokens))
         == OneLineAtLeast(lines[..head]) + [Notice(|lines|, tokens)] + lines[|lines| - tail..]
  {
    var a, z := lines[..head], lines[|lines| - tail..];
    var notice := CutParts(lines, head, tail, tokens);
    LinesBack(a);
    LinesBack(z);
    hide Cut, SplitLines, LinesOf, Notice;
    if tail == 0 {
      assert JoinLines(z) == "" && "\n" + "" == "\n";
      LinesThenNothing(JoinLines(a), notice);
      assert OneLineAtLeast(a) + [notice] + z == OneLineAtLeast(a) + [notice];
    } else {
      Excerpt.JoinLast(z);
      assert NoNewline(z[|z| - 1]);
      hide JoinLines;
      LinesThenMore(JoinLines(a), notice, JoinLines(z));
    }
  }

  /** The head of a truncated result is the beginning of the text it was cut from. */
  lemma HeadIsPrefix(content: string, head: nat)
    requires head < |LinesOf(content)|
    ensures JoinLines(LinesOf(content)[..head]) <= content
  {
    var lines := LinesOf(content);
    JoinSplit(TrimRightNewlines(content));
    if head > 0 { JoinAt(lines, head); }
  }

  /** What follows blanks before the notice is on a line of the head. */
  lemma OccursInHead(u: string, rest: string, p: string, k: nat)
    requires rest != "" && rest[0] == '.' && p != "" && NoNewline(p) && p[0] != '.' && !IsSpace(p[0])
    requires BlankTo(u + "\n" + rest, k) && OccursAt(u + "\n" + rest, p, k)
    ensures BlankTo(u, k) && OccursAt(u, p, k)
  {
    var t := u + "\n" + rest;
    assert t[|u|] == '\n' && t[|u| + 1] == '.';
    assert forall x | k <= x < k + |p| :: t[x] == t[k..k + |p|][x - k] == p[x - k];
    assert k <= |u| + 1 && t[k] == p[0];
    assert k + |p| <= |u|;
    assert forall x | 0 <= x < |u| :: u[x] == t[x];
    assert u[k..k + |p|] == t[k..k + |p|];
  }

  lemma OccursInLonger(u: string, content: string, p: string, k: nat)
    requires u <= content && BlankTo(u, k) && OccursAt(u, p, k)
    ensures BlankTo(content, k) && OccursAt(content, p, k)
  {
    assert forall x | 0 <= x < |u| :: content[x] == u[x];
    assert content[k..k + |p|] == u[k..k + |p|];
  }

  lemma CutStart(content: string, u: string, rest: string, p: string)
    requires u <= content && rest != "" && rest[0] == '.'
    requires p == ERROR || p == READ_ERROR
    ensures HasPrefix(Trim(u + "\n" + rest), p) ==> HasPrefix(Trim(content), p)
  {
    var t := u + "\n" + rest;
    assert p[0] == 'E' && p[|p| - 1] == ':' && NoNewline(p);
    hide Trim, HasPrefix, BlankTo, OccursAt;
    TrimStartsWith(t, p);
    TrimStartsWith(content, p);
    if k: nat :| BlankTo(t, k) && OccursAt(t, p, k) {
      OccursInHead(u, rest, p, k);
      OccursInLonger(u, content, p, k);
    }
  }

  lemma CutDot(u: string, rest: string)
    requires rest != "" && rest[0] == '.'
    ensures Trim(u + "\n" + rest) != NO_MATCHES
  {
    var t := u + "\n" + rest;
    var i, j := TrimBounds(t);
    hide Trim;
    assert t[|u| + 1] == '.';
    assert t[i..j][|u| + 1 - i] == '.';
    assert '.' !in NO_MATCHES;
  }

  /** Within the limits a truncated result is neither an error nor long: the next pass leaves it alone. */
  lemma TruncatedAgain(content: string, l: Limits)
    requires Max(l.head, 1) + l.tail + 1 <= l.maxLines
    requires !IsError(content) && Trim(content) != NO_MATCHES
    ensures var t := Truncated(content, l); Shortened(t, l) == t && !IsError(t)
  {
    var lines := LinesOf(content);
    var t := Truncated(content, l);
    ErrorCases(t);
    ErrorCases(content);
    if |lines| > l.maxLines && l.head + l.tail < |lines| {
      LastLine(content);
      CutLines(lines, l.head, l.tail, |content| / 4);
      CutIsNoError(content, l.head, l.tail);
      hide Cut, LinesOf, Trim, IsError, CompressedError, IsCompacted;
    }
  }

  lemma CutIsNoError(content: string, head: nat, tail: nat)
    requires head + tail < |LinesOf(content)| && !IsError(content)
    ensures var t := Cut(LinesOf(content), head, tail, |content| / 4); !IsError(t) && Trim(t) != NO_MATCHES
  {
    var lines := LinesOf(content);
    var notice := CutParts(lines, head, tail, |content| / 4);
    HeadIsPrefix(content, head);
    hide Cut, LinesOf, JoinLines, Trim, HasPrefix;
    var u, rest := JoinLines(lines[..head]), notice + ("\n" + JoinLines(lines[|lines| - tail..]));
    assert Cut(lines, head, tail, |content| / 4) == u + "\n" + rest;
    CutStart(content, u, rest, ERROR);
    CutStart(content, u, rest, READ_ERROR);
    CutDot(u, rest);
  }

  // ---------------------------------------------------------------- passes over a history

  /** An error line that the first pass keeps with blanks at its end. */
  predicate Untidy(h: seq<Message>, i: nat)
    requires i < |h|
  {
    && IsRead(h, i) && !FailedPair(h, i) && IsError(h[i].content)
    && Trim(FirstLine(Trim(h[i].content))) != FirstLine(Trim(h[i].content))
  }

  lemma CompactedPair(h: seq<Message>, l: Limits, i: nat)
    requires i < |h|
    ensures FailedPair(Compacted(h, l), i) <==>
              HasPrefix(Trim(CompactedContent(h, l, i)), ERROR) && h[i].toolName != "" && Retried(h, h[i].toolName, i + 1)
  {
    var r := Compacted(h, l);
    hide CompactedContent;
    SameRetry(h, r, h[i].toolName, i + 1);
  }

  lemma SecondPass(h: seq<Message>, l: Limits, i: nat)
    requires i < |h| && Max(l.head, 1) + l.tail + 1 <= l.maxLines
    ensures CompactedContent(Compacted(h, l), l, i)
         == if Untidy(h, i) then Trim(CompactedContent(h, l, i)) else CompactedContent(h, l, i)
    ensures !Untidy(Compacted(h, l), i)
  {
    var c := h[i].content;
    var r := Compacted(h, l);
    KeepsTheRest(h, l);
    if IsRead(h, i) {
      CompactedPair(h, l, i);
      if FailedPair(h, i) {
        FailedIsCompacted(h[i].toolName, c);
        ErrorCases(r[i].content);
        hide FailedText, IsCompacted, CompressedError, Trim, Truncated;
      } else {
        SecondPassUnpaired(h, l, i);
      }
    }
  }

  lemma SecondPassUnpaired(h: seq<Message>, l: Limits, i: nat)
    requires i < |h| && Max(l.head, 1) + l.tail + 1 <= l.maxLines && IsRead(h, i) && !FailedPair(h, i)
    ensures CompactedContent(Compacted(h, l), l, i)
         == if Untidy(h, i) then Trim(CompactedContent(h, l, i)) else CompactedContent(h, l, i)
    ensures !Untidy(Compacted(h, l), i)
  {
    var c := h[i].content;
    var r := Compacted(h, l);
    KeepsTheRest(h, l);
    CompactedPair(h, l, i);
    if IsError(c) {
      ErrorAgain(c, l);
      ErrorLine(c);
    }
    ShortenedOnce(c, l);
    hide FailedText, IsCompacted, CompressedError, Trim, Truncated, Shortened, FirstLine;
  }

  lemma ShortenedOnce(c: string, l: Limits)
    requires Max(l.head, 1) + l.tail + 1 <= l.maxLines
    ensures IsError(c) ==> Shortened(c, l) == FirstLine(Trim(c)) && IsError(Shortened(c, l))
    ensures !IsError(c) ==> !IsError(Shortened(c, l)) && Shortened(Shortened(c, l), l) == Shortened(c, l)
  {
    ErrorCases(c);
    if IsError(c) {
      ErrorLine(c);
    } else if Trim(c) == NO_MATCHES {
      assert NO_MATCHES[0] == 'N' && NO_MATCHES[|NO_MATCHES| - 1] == 'd';
      TrimFixed(NO_MATCHES);
      ErrorCases(NO_MATCHES);
    } else if !IsCompacted(c) {
      TruncatedAgain(c, l);
    }
    hide FailedText, IsCompacted, CompressedError, Trim, Truncated, FirstLine, IsError;
  }

  /** The third pass changes nothing, and neither does the second exactly when no kept error line ends in blanks. */
  lemma PassesSettle(h: seq<Message>, l: Limits)
    requires Max(l.head, 1) + l.tail + 1 <= l.maxLines
    ensures var once := Compacted(h, l); var twice := Compacted(once, l);
            && Compacted(twice, l) == twice
            && (twice == once <==> forall i | 0 <= i < |h| :: !Untidy(h, i))
  {
    var once := Compacted(h, l);
    var twice := Compacted(once, l);
    forall i | 0 <= i < |h|
      ensures Compacted(twice, l)[i] == twice[i] && (twice[i] == once[i] <==> !Untidy(h, i))
    {
      SecondPass(h, l, i);
      SecondPass(once, l, i);
      if Untidy(h, i) { UntidyChanges(h, l, i); }
      hide CompactedContent, Untidy;
    }
  }

  lemma UntidyChanges(h: seq<Message>, l: Limits, i: nat)
    requires i < |h| && Untidy(h, i)
    ensures Trim(CompactedContent(h, l, i)) != CompactedContent(h, l, i)
  {
    ErrorCases(h[i].content);
  }

  // ---------------------------------------------------------------- without head lines

  lemma {:induction false} DecimalGrows(a: nat, b: nat)
    requires a <= b
    ensures |Excerpt.Decimal(a)| <= |Excerpt.Decimal(b)|
  {
    if a >= 10 { DecimalGrows(a / 10, b / 10); }
  }

  lemma {:induction false} DecimalShort(n: nat)
    ensures |Excerpt.Decimal(n)| <= 1 + n / 10
  {
    if n >= 10 { DecimalShort(n / 10); }
  }

  lemma DecimalTens(n: nat)
    requires n > 0
    ensures |Excerpt.Decimal(10 * n)| == |Excerpt.Decimal(n)| + 1
  {
    assert (10 * n) / 10 == n;
  }

  /** Notices that differ in the tokens they name are different texts. */
  lemma NoticeTokens(lines: nat, a: nat, b: nat)
    ensures Notice(lines, a) == Notice(lines, b) <==> a == b
  {
    Excerpt.DecimalValue(a);
    Excerpt.DecimalValue(b);
    hide Excerpt.Decimal;
    var start := "... (truncated: was " + Excerpt.Decimal(lines) + " lines, ~";
    var x, y := Excerpt.Decimal(a), Excerpt.Decimal(b);
    if Notice(lines, a) == Notice(lines, b) {
      assert |x| == |y|;
      assert Notice(lines, a)[|start|..|start| + |x|] == x && Notice(lines, b)[|start|..|start| + |y|] == y;
    }
  }

  /** What is left of a long text without head lines. */
  function Headless(lines: nat, tokens: nat, kept: seq<string>): string {
    "\n" + Notice(lines, tokens) + "\n" + JoinLines(kept)
  }

  lemma HeadlessLength(lines: nat, tokens: nat, kept: seq<string>)
    ensures |Headless(lines, tokens, kept)|
         == 39 + |Excerpt.Decimal(lines)| + |Excerpt.Decimal(tokens)| + |JoinLines(kept)|
  {
    hide Excerpt.Decimal, JoinLines;
  }

  lemma HeadlessTokens(lines: nat, a: nat, b: nat, kept: seq<string>)
    ensures Headless(lines, a, kept) == Headless(lines, b, kept) <==> a == b
  {
    NoticeTokens(lines, a, b);
    hide Notice, JoinLines;
    var x, y, z := Notice(lines, a), Notice(lines, b), JoinLines(kept);
    var s, t := Headless(lines, a, kept), Headless(lines, b, kept);
    if s == t {
      assert |x| == |y|;
      assert s[1..1 + |x|] == x && t[1..1 + |y|] == y;
    }
  }

  lemma HeadlessCut(lines: seq<string>, tail: nat, tokens: nat)
    requires tail < |lines|
    ensures Cut(lines, 0, tail, tokens) == Headless(|lines|, tokens, lines[|lines| - tail..])
  {
    hide Notice;
    assert lines[..0] == [];
    assert "" + ("\n" + Notice(|lines|, tokens) + "\n") == "\n" + Notice(|lines|, tokens) + "\n";
  }

  /** The limits that leave a line too many: no head, and room for the notice and the tail only. */
  predicate Tight(l: Limits) { l.head == 0 && l.maxLines == l.tail + 1 }

  /** `content` has `n` lines, too many for the limits, and ends in the lines `kept`. */
  ghost predicate Long(content: string, n: nat, kept: seq<string>, l: Limits) {
    && |LinesOf(content)| == n > l.maxLines && l.tail <= n
    && LinesOf(content)[n - l.tail..] == kept
  }

  /** Under tight limits what was truncated is too long again, since its empty head is a line. */
  lemma HeadlessAgain(content: string, n: nat, kept: seq<string>, l: Limits)
    requires Tight(l) && Long(content, n, kept, l)
    ensures Truncated(content, l) == Headless(n, |content| / 4, kept)
    ensures Long(Truncated(content, l), l.tail + 2, kept, l)
  {
    LastLine(content);
    CutLines(LinesOf(content), 0, l.tail, |content| / 4);
    HeadlessCut(LinesOf(content), l.tail, |content| / 4);
    hide Cut, LinesOf, Headless, Notice;
    TwoThenKept("", Notice(n, |content| / 4), kept);
  }

  lemma TwoThenKept(a: string, b: string, kept: seq<string>)
    ensures ([a] + [b] + kept)[2..] == kept && |[a] + [b] + kept| == |kept| + 2
  {
  }

  /** Under tight limits the text truncated twice is left alone exactly when it names the tokens it has now. */
  lemma TightSettles(content: string, n: nat, kept: seq<string>, l: Limits)
    requires Tight(l) && Long(content, n, kept, l)
    ensures var once := Truncated(content, l); var twice := Truncated(once, l);
            Truncated(twice, l) == twice <==> |twice| / 4 == |once| / 4
  {
    hide Long, Truncated, Headless;
    HeadlessAgain(content, n, kept, l);
    var once := Truncated(content, l);
    HeadlessAgain(once, l.tail + 2, kept, l);
    var twice := Truncated(once, l);
    HeadlessAgain(twice, l.tail + 2, kept, l);
    HeadlessTokens(l.tail + 2, |twice| / 4, |once| / 4, kept);
  }

  /** Text whose first visible character is a dot is no rule's business but the truncation's. */
  lemma DotIsLong(rest: string, l: Limits)
    requires rest != "" && rest[0] == '.'
    ensures var t := "\n" + rest; Shortened(t, l) == Truncated(t, l) && !IsError(t)
  {
    var t := "\n" + rest;
    var i, j := TrimBounds(t);
    assert i == 1 && Trim(t)[0] == '.' by { hide Trim; assert t[1] == '.'; }
    ErrorCases(t);
    hide Trim, Truncated;
    assert NO_MATCHES[0] == 'N' && ERROR[0] == 'E' && READ_ERROR[0] == 'E' && FAILED[0] == '[';
    assert "[Cleared "[0] == '[' && "[Old "[0] == '[';
  }

  lemma HeadlessIsLong(lines: nat, tokens: nat, kept: seq<string>, l: Limits)
    ensures var t := Headless(lines, tokens, kept); Shortened(t, l) == Truncated(t, l) && !IsError(t)
  {
    NoticeLine(lines, tokens);
    hide Notice, Shortened, Truncated, JoinLines, IsError;
    var rest := Notice(lines, tokens) + "\n" + JoinLines(kept);
    assert Headless(lines, tokens, kept) == "\n" + rest;
    DotIsLong(rest, l);
  }

  function Column(n: nat): (r: seq<string>)
    ensures |r| == n && forall i | 0 <= i < n :: r[i] == "a"
  {
    seq(n, _ => "a")
  }

  lemma {:induction false} ColumnText(n: nat)
    requires n > 0
    ensures var s := JoinLines(Column(n)); |s| == 2 * n - 1 && s[0] == s[|s| - 1] == 'a'
  {
    if n > 1 {
      ColumnText(n - 1);
      assert Column(n)[1..] == Column(n - 1);
    }
  }

  lemma ColumnIsLong(n: nat, l: Limits)
    requires n > 0
    ensures var s := JoinLines(Column(n));
            LinesOf(s) == Column(n) && Shortened(s, l) == Truncated(s, l) && !IsError(s)
  {
    ColumnText(n);
    var s := JoinLines(Column(n));
    SplitJoin(Column(n));
    assert TrimRightNewlines(s) == s;
    TrimFixed(s);
    ErrorCases(s);
    hide Trim, Truncated, JoinLines;
    assert NO_MATCHES[0] == 'N' && ERROR[0] == 'E' && READ_ERROR[0] == 'E' && FAILED[0] == '[';
    assert "[Cleared "[0] == '[' && "[Old "[0] == '[';
  }

  /** A column long enough that its line count has four more digits than what is left of it. */
  function LongColumn(l: Limits): nat { 10000 * (l.tail + 2) }

  lemma ManyDigits(n: nat)
    requires n > 0
    ensures |Excerpt.Decimal(10000 * n)| == |Excerpt.Decimal(n)| + 4
  {
    DecimalTens(n);
    DecimalTens(10 * n);
    DecimalTens(100 * n);
    DecimalTens(1000 * n);
    assert 10 * (10 * n) == 100 * n && 10 * (100 * n) == 1000 * n && 10 * (1000 * n) == 10000 * n;
  }

  lemma ColumnLong(l: Limits) returns (content: string)
    requires Tight(l)
    ensures content == JoinLines(Column(LongColumn(l))) && |content| == 2 * LongColumn(l) - 1
    ensures Long(content, LongColumn(l), Column(l.tail), l)
    ensures Shortened(content, l) == Truncated(content, l)
  {
    var n := LongColumn(l);
    content := JoinLines(Column(n));
    ColumnIsLong(n, l);
    ColumnText(n);
    assert Column(n)[n - l.tail..] == Column(l.tail);
    hide JoinLines, LinesOf, Shortened, Truncated;
  }

  /** The second truncation of the column is so much shorter than the first that it names other tokens. */
  lemma ColumnShrinks(l: Limits)
    ensures var n := LongColumn(l); var kept := Column(l.tail);
            var once := |Headless(n, (2 * n - 1) / 4, kept)|; var twice := |Headless(l.tail + 2, once / 4, kept)|;
            once - twice >= 4
  {
    hide Excerpt.Decimal, Headless, JoinLines, Column;
    var n := LongColumn(l);
    var kept := Column(l.tail);
    var once := |Headless(n, (2 * n - 1) / 4, kept)|;
    HeadlessLength(n, (2 * n - 1) / 4, kept);
    HeadlessLength(l.tail + 2, once / 4, kept);
    KeptLength(l.tail);
    ManyDigits(l.tail + 2);
    DecimalShort(n);
    DecimalShort((2 * n - 1) / 4);
    DecimalGrows(once / 4, (2 * n - 1) / 4);
  }

  lemma KeptLength(n: nat)
    ensures |JoinLines(Column(n))| <= 2 * n
  {
    if n > 0 { ColumnText(n); }
  }

  /** One call, its long result and the answer that read it. */
  function ColumnHistory(l: Limits): seq<Message> {
    [UserMessage(""),
     Message(Assistant, "", [ToolCall("", "")], "", "", 0),
     Message(Tool, JoinLines(Column(LongColumn(l))), [], "", "", 0),
     Message(Assistant, "", [], "", "", 0)]
  }

  ghost predicate Settles(h: seq<Message>, l: Limits) {
    var twice := Compacted(Compacted(h, l), l);
    Compacted(twice, l) == twice
  }

  lemma ResultOf(h: seq<Message>, l: Limits)
    requires |h| == 4 && h[3].role == Assistant && h[2].role == Tool && h[2].toolName == ""
    ensures Compacted(h, l)[2] == h[2].(content := Shortened(h[2].content, l)) && Compacted(h, l)[3] == h[3]
  {
    hide Shortened;
  }

  lemma ThirdPass(h: seq<Message>, l: Limits)
    requires |h| == 4 && h[3].role == Assistant && h[2].role == Tool && h[2].toolName == ""
    ensures Compacted(Compacted(Compacted(h, l), l), l)[2].content
         == Shortened(Shortened(Shortened(h[2].content, l), l), l)
    ensures Compacted(Compacted(h, l), l)[2].content == Shortened(Shortened(h[2].content, l), l)
  {
    hide Shortened, CompactedContent, LastAssistant;
    ResultOf(h, l);
    ResultOf(Compacted(h, l), l);
    ResultOf(Compacted(Compacted(h, l), l), l);
  }

  lemma ColumnChanges(l: Limits)
    requires Tight(l)
    ensures var twice := Shortened(Shortened(JoinLines(Column(LongColumn(l))), l), l); Shortened(twice, l) != twice
  {
    hide Long, Truncated, Shortened, Headless, JoinLines, Column, LongColumn;
    var n, kept := LongColumn(l), Column(l.tail);
    var content := ColumnLong(l);
    var once := Truncated(content, l);
    var twice := Truncated(once, l);
    HeadlessAgain(content, n, kept, l);
    HeadlessAgain(once, l.tail + 2, kept, l);
    ColumnShrinks(l);
    HeadlessIsLong(n, |content| / 4, kept, l);
    HeadlessIsLong(l.tail + 2, |once| / 4, kept, l);
    TightSettles(content, n, kept, l);
  }

  /** Under tight limits a well-formed history is not left alone by the third pass. */
  lemma TightNeverSettles(l: Limits)
    requires Tight(l)
    ensures WellFormed(ColumnHistory(l)) && !Settles(ColumnHistory(l), l)
  {
    hide Shortened, JoinLines, Column, LongColumn, CompactedContent;
    ColumnChanges(l);
    ThirdPass(ColumnHistory(l), l);
  }

  /** Where the limits leave room for head, notice and tail, every history settles after two passes exactly when
      an empty head is counted as the line it leaves. */
  lemma SettlesExactly(l: Limits)
    requires l.head + l.tail + 1 <= l.maxLines
    ensures (forall h: seq<Message> :: Settles(h, l)) <==> Max(l.head, 1) + l.tail + 1 <= l.maxLines
  {
    if Max(l.head, 1) + l.tail + 1 <= l.maxLines {
      forall h: seq<Message> ensures Settles(h, l) {
        PassesSettle(h, l);
      }
    } else {
      TightNeverSettles(l);
    }
  }
}
