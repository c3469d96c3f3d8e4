/**
 The streaming scanner over a stored raw output. Bytes arrive in chunks; the scanner keeps a bounded
 buffer, the tail of the line that is still open, and a window of lines around the first line that
 holds a hint. `done` and `open` are the complete lines and the open line of everything scanned.
 */
module Scanner {
  import opened Text
  import opened Excerpt

  const MIN_BUFFER := 32 * 1024
  const MAX_BUFFER := 256 * 1024
  const MAX_LINE := 32 * 1024

  function Tail(s: string, n: int): string {
    if n <= 0 || |s| <= n then s else s[|s| - n..]
  }

  function LineTail(s: string): string { Tail(s, MAX_LINE) }

  function LineMatchedTerm(line: string, hints: seq<string>): string {
    if hints == [] || Trim(line) == "" then "" else FirstHint(ToLower(line), hints)
  }

  function LineAroundTerm(line: string, term: string, maxChars: int): string {
    if maxChars <= 0 || |line| <= maxChars then line
    else
      var index := Index(ToLower(line), ToLower(term));
      if index < 0 then Tail(line, maxChars)
      else var (start, end) := Around(index, maxChars, |line|); line[start..end]
  }

  // ---------------------------------------------------------------- matching across chunk borders

  /** Every hint that is not empty has a visible character and fits the longest kept line. */
  ghost predicate UsableHints(hints: seq<string>) {
    forall h | h in hints && h != "" :: |h| <= MAX_LINE && !IsBlank(h)
  }

  ghost predicate Holds(line: string, hints: seq<string>) {
    FirstHint(ToLower(line), hints) != ""
  }

  lemma HoldsBy(line: string, hints: seq<string>, h: string)
    requires h in hints && h != "" && Contains(ToLower(line), h)
    ensures Holds(line, hints)
  {
  }

  lemma BlankHoldsNothing(line: string, hints: seq<string>)
    requires UsableHints(hints)
    ensures LineMatchedTerm(line, hints) == FirstHint(ToLower(line), hints)
    ensures LineMatchedTerm(line, hints) != "" <==> Holds(line, hints)
  {
    TrimShape(line);
    var h := FirstHint(ToLower(line), hints);
    if h != "" {
      var k :| 0 <= k <= |line| && OccursAt(ToLower(line), h, k);
      VisibleInside(line, h, k);
    }
  }

  lemma VisibleInside(line: string, h: string, k: nat)
    requires OccursAt(ToLower(line), h, k) && !IsBlank(h)
    ensures !IsBlank(line)
  {
    var i :| 0 <= i < |h| && !IsSpace(h[i]);
    assert h[i] == ToLower(line)[k..k + |h|][i] == LowerChar(line[k + i]);
    assert !IsSpace(line[k + i]);
  }

  lemma HoldsInside(line: string, i: nat, j: nat, hints: seq<string>)
    requires i <= j <= |line| && Holds(line[i..j], hints)
    ensures Holds(line, hints)
  {
    var h := FirstHint(ToLower(line[i..j]), hints);
    ToLowerSlice(line, i, j);
    ContainsSlice(ToLower(line), h, i, j);
    HoldsBy(line, hints, h);
  }

  lemma HoldsPrefix(p: string, q: string, hints: seq<string>)
    requires Holds(p, hints)
    ensures Holds(p + q, hints)
  {
    assert (p + q)[0..|p|] == p;
    HoldsInside(p + q, 0, |p|, hints);
  }

  lemma TailAppend(p: string, q: string)
    ensures LineTail(LineTail(p) + q) == LineTail(p + q)
    ensures |LineTail(p) + q| > MAX_LINE ==> |p + q| > MAX_LINE
    ensures |LineTail(p) + q| <= MAX_LINE ==> LineTail(p + q) == LineTail(p) + q && (q == "" || |p + q| <= MAX_LINE)
    ensures LineTail(p) + q == (p + q)[|p| - |LineTail(p)|..]
  {
    var t, s := LineTail(p), p + q;
    var d := |p| - |t|;
    assert t == p[d..];
    KeptEndOf(p, q, d);
    if |t + q| > MAX_LINE {
      LastOfLast(s, d, MAX_LINE);
    } else if q != "" {
      assert d == 0;
    } else {
      assert t + q == t && s == p;
    }
  }

  lemma KeptEndOf(p: string, q: string, d: nat)
    requires d <= |p|
    ensures p[d..] + q == (p + q)[d..]
  {
  }

  lemma LastOfLast(s: string, d: nat, n: nat)
    requires d + n <= |s|
    ensures s[d..][|s| - d - n..] == s[|s| - n..]
  {
  }

  lemma ContainsAcross(a: string, b: string, h: string, d: nat)
    requires d <= |a| && |h| <= |a| - d
    requires Contains(a + b, h)
    ensures Contains(a, h) || Contains((a + b)[d..], h)
  {
    var s := a + b;
    var k :| 0 <= k <= |s| && OccursAt(s, h, k);
    if k < d {
      assert s[0..|a|] == a;
      SliceOfSlice(s, 0, |a|, k, k + |h|);
      assert OccursAt(a, h, k);
    } else {
      SliceOfSlice(s, d, |s|, k - d, k - d + |h|);
      assert s[d..|s|] == s[d..];
      assert OccursAt(s[d..], h, k - d);
    }
  }

  /** No hint can hide in what was dropped: one that ends in the new bytes starts in the kept tail. */
  lemma HoldsAcross(p: string, q: string, hints: seq<string>)
    requires UsableHints(hints)
    requires |p| > MAX_LINE ==> !Holds(p, hints)
    ensures Holds(p + q, hints) <==> Holds(LineTail(p) + q, hints)
  {
    var d := |p| - |LineTail(p)|;
    var t := LineTail(p) + q;
    assert t == (p + q)[d..] == (p + q)[d..|p + q|];
    if Holds(t, hints) { HoldsInside(p + q, d, |p + q|, hints); }
    if Holds(p + q, hints) && d > 0 {
      var h := FirstHint(ToLower(p + q), hints);
      ToLowerAppend(p, q);
      ToLowerSlice(p + q, d, |p + q|);
      assert ToLower(t) == (ToLower(p) + ToLower(q))[d..];
      ContainsAcross(ToLower(p), ToLower(q), h, d);
      if Contains(ToLower(p), h) { HoldsBy(p, hints, h); } else { HoldsBy(t, hints, h); }
    }
  }

  /** What is kept of the matched line: the line itself when short, else a piece of it around the term. */
  ghost predicate FragmentOf(fragment: string, term: string, line: string, hints: seq<string>) {
    && term in hints && term != "" && |fragment| <= MAX_LINE
    && (|line| <= MAX_LINE ==> fragment == line && term == FirstHint(ToLower(line), hints))
    && Contains(line, fragment)
    && (|term| <= MAX_LINE / 2 ==> Contains(ToLower(fragment), term))
  }

  lemma LowerFixed(s: string, t: string)
    requires Contains(ToLower(s), t)
    ensures ToLower(t) == t
  {
    var k :| 0 <= k <= |s| && OccursAt(ToLower(s), t, k);
    forall i | 0 <= i < |t| ensures LowerChar(t[i]) == t[i] {
      assert t[i] == ToLower(s)[k..k + |t|][i] == LowerChar(s[k + i]);
    }
  }

  lemma AroundTermSlice(line: string, term: string) returns (start: nat)
    requires |line| > MAX_LINE && Contains(ToLower(line), term)
    ensures start + MAX_LINE <= |line| && LineAroundTerm(line, term, MAX_LINE) == line[start..start + MAX_LINE]
    ensures |term| <= MAX_LINE / 2 ==> Contains(ToLower(LineAroundTerm(line, term, MAX_LINE)), term)
  {
    LowerFixed(line, term);
    var lower := ToLower(line);
    var index := Index(lower, term);
    var w := Around(index, MAX_LINE, |line|);
    start := w.0;
    assert LineAroundTerm(line, term, MAX_LINE) == line[w.0..w.1];
    if |term| <= MAX_LINE / 2 {
      assert ToLower(line[w.0..w.1]) == lower[w.0..w.1] by { ToLowerSlice(line, w.0, w.1); }
      OccursWithin(lower, term, index, w.0, w.1);
    }
  }

  /** What is kept of a long line depends on how much of it has arrived when its term is found: whatever follows
      in the same chunk is kept too, and whatever arrives later is not. */
  lemma FragmentFollowsArrival(before: string, term: string, more: string)
    requires |before| >= MAX_LINE && 0 < |term| < MAX_LINE / 2 && more != ""
    requires ToLower(term) == term && Index(ToLower(before + term), term) == |before|
    requires term[|term| - 1] !in more
    ensures LineAroundTerm(before + term, term, MAX_LINE) != LineAroundTerm(before + term + more, term, MAX_LINE)
  {
    hide Index, ToLower, OccursAt;
    var short, long := before + term, before + term + more;
    ToLowerAppend(short, more);
    FirstStays(ToLower(short), ToLower(more), term, |before|);
    KeptEnd(short, |before|);
    KeptEnd(long, |before|);
    var a, b := Around(|before|, MAX_LINE, |short|), Around(|before|, MAX_LINE, |long|);
    assert short[a.1 - 1] == term[|term| - 1] && long[b.1 - 1] == more[b.1 - 1 - |short|];
  }

  lemma FirstStays(a: string, b: string, t: string, at: nat)
    requires Index(a, t) == at
    ensures Index(a + b, t) == at
  {
    forall k | 0 <= k <= at ensures OccursAt(a + b, t, k) <==> OccursAt(a, t, k) {
      SliceOfSlice(a + b, 0, |a|, k, k + |t|);
      assert (a + b)[0..|a|] == a;
    }
    hide OccursAt;
    OccursIsIndex(a + b, t, at);
  }

  lemma KeptEnd(line: string, at: nat)
    requires MAX_LINE <= at < |line|
    ensures var (start, end) := Around(at, MAX_LINE, |line|);
            && end == Min(|line|, at + MAX_LINE / 2) && line[start..end][MAX_LINE - 1] == line[end - 1]
  {
  }

  lemma AroundTermFragment(full: string, line: string, i: nat, term: string, hints: seq<string>)
    requires i <= |full| && line == full[i..] && |line| > MAX_LINE
    requires term == FirstHint(ToLower(line), hints) && term != ""
    ensures FragmentOf(LineAroundTerm(line, term, MAX_LINE), term, full, hints)
  {
    hide LineAroundTerm, ToLower;
    var start := AroundTermSlice(line, term);
    SliceOfSlice(full, i, |full|, start, start + MAX_LINE);
    assert full[i..] == full[i..|full|];
    assert OccursAt(full, line[start..start + MAX_LINE], i + start);
  }

  lemma FragmentGrows(fragment: string, term: string, line: string, more: string, hints: seq<string>)
    requires FragmentOf(fragment, term, line, hints) && |line| > MAX_LINE
    ensures FragmentOf(fragment, term, line + more, hints)
  {
    assert (line + more)[0..|line|] == line;
    ContainsSlice(line + more, fragment, 0, |line|);
  }

  // ---------------------------------------------------------------- what the fields stand for

  function Tails(lines: seq<string>): (r: seq<string>)
    ensures |r| == |lines|
  {
    seq(|lines|, i requires 0 <= i < |lines| => LineTail(lines[i]))
  }

  ghost predicate NoneHold(lines: seq<string>, hints: seq<string>) {
    forall i | 0 <= i < |lines| :: !Holds(lines[i], hints)
  }

  datatype Progress = Progress(openMatch: bool, prevLines: seq<string>, matched: bool, matchTerm: string,
                               matchLine: int, matchStart: int, matchLines: seq<string>, afterLines: int, totalLines: int)

  const UNSEEN := Progress(false, [], false, "", 0, 0, [], 0, 0)

  /** Size limits that hold whatever the hints are. */
  ghost predicate Bounded(p: Progress) {
    && |p.prevLines| <= LINE_RADIUS && (forall i | 0 <= i < |p.prevLines| :: |p.prevLines[i]| <= MAX_LINE)
    && 0 <= p.totalLines
    && (!p.matched ==> |p.prevLines| <= p.totalLines && p.matchLine == p.matchStart == 0)
    && (p.openMatch ==> p.matched)
    && (p.matched ==>
          && 0 <= p.matchStart <= p.matchLine <= p.matchStart + LINE_RADIUS
          && 0 <= p.afterLines <= LINE_RADIUS
          && |p.matchLines| == p.matchLine - p.matchStart + 1 + (LINE_RADIUS - p.afterLines)
          && forall i | 0 <= i < |p.matchLines| :: |p.matchLines[i]| <= MAX_LINE)
  }

  ghost predicate TracksUnmatched(p: Progress, hints: seq<string>, done: seq<string>, open: string) {
    && !p.openMatch && NoneHold(done, hints) && (|open| > MAX_LINE ==> !Holds(open, hints))
    && p.prevLines == Tails(done[Max(0, |done| - LINE_RADIUS)..])
  }

  ghost predicate TracksMatched(p: Progress, hints: seq<string>, done: seq<string>, open: string) {
    && 0 <= p.matchLine <= |done| && NoneHold(done[..p.matchLine], hints)
    && p.matchStart == Max(0, p.matchLine - LINE_RADIUS)
    && p.openMatch == (p.matchLine == |done|) && (p.openMatch ==> |open| > MAX_LINE)
    && var line := if p.openMatch then open else done[p.matchLine];
       var offset := p.matchLine - p.matchStart;
       var from, to := Min(|done|, p.matchLine + 1), Min(|done|, p.matchLine + 1 + LINE_RADIUS);
       && Holds(line, hints)
       && offset < |p.matchLines|
       && FragmentOf(p.matchLines[offset], p.matchTerm, line, hints)
       && p.matchLines[..offset] == Tails(done[p.matchStart..p.matchLine])
       && p.matchLines[offset + 1..] == Tails(done[from..to])
       && p.afterLines == LINE_RADIUS - (to - from)
  }

  /** The fields are a function of the lines seen, but for the fragment and term of a long matched line. */
  ghost predicate Tracks(p: Progress, hints: seq<string>, done: seq<string>, open: string) {
    if p.matched then TracksMatched(p, hints, done, open) else TracksUnmatched(p, hints, done, open)
  }

  // ---------------------------------------------------------------- one step of the fields

  function Recorded(p: Progress, index: int, fragment: string, term: string): Progress {
    p.(matched := true, matchTerm := term, matchLine := index, matchStart := index - |p.prevLines|,
       matchLines := p.prevLines + [fragment], afterLines := LINE_RADIUS)
  }

  /** The fields once the open line that matched is complete. */
  function Closed(p: Progress): Progress { p.(openMatch := false, totalLines := p.totalLines + 1) }

  /** The fields once an open line too long to keep was searched. */
  function Searched(p: Progress, line: string, hints: seq<string>): Progress {
    var term := LineMatchedTerm(line, hints);
    if p.matched || term == "" then p
    else Recorded(p, p.totalLines, LineAroundTerm(line, term, MAX_LINE), term).(openMatch := true)
  }

  /** The fields once an open line grew to `line`, as much of it as was kept. */
  function Grown(p: Progress, line: string, hints: seq<string>): Progress {
    if |line| <= MAX_LINE then p else Searched(p, line, hints)
  }

  function LastLines(lines: seq<string>): seq<string> {
    lines[Max(0, |lines| - LINE_RADIUS)..]
  }

  lemma StepMiss(p: Progress, hints: seq<string>, done: seq<string>, open: string, full: string)
    requires Tracks(p, hints, done, open) && !p.matched && !Holds(full, hints)
    ensures Tracks(p.(prevLines := LastLines(p.prevLines + [LineTail(full)]), totalLines := p.totalLines + 1),
                   hints, done + [full], "")
  {
    var more := done + [full];
    var kept := more[Max(0, |more| - LINE_RADIUS)..];
    assert LastLines(p.prevLines + [LineTail(full)]) == Tails(kept);
  }

  lemma StepMatch(p: Progress, hints: seq<string>, done: seq<string>, open: string, full: string, fragment: string, term: string)
    requires Tracks(p, hints, done, open) && !p.matched
    requires Holds(full, hints) && FragmentOf(fragment, term, full, hints)
    ensures Tracks(Recorded(p, |done|, fragment, term).(totalLines := p.totalLines + 1), hints, done + [full], "")
    ensures |full| > MAX_LINE ==> Tracks(Recorded(p, |done|, fragment, term).(openMatch := true), hints, done, full)
  {
    hide Holds, FragmentOf, Tails, NoneHold;
    var start: nat := Max(0, |done| - LINE_RADIUS);
    LinesBefore(done, full, start);
    LinesBefore(p.prevLines, fragment, 0);
    NoneAfter(done);
    NoneAfter(done + [full]);
  }

  lemma LinesBefore(lines: seq<string>, line: string, from: nat)
    requires from <= |lines|
    ensures var more := lines + [line];
            && more[..|lines|] == lines == lines[..|lines|] && more[from..|lines|] == lines[from..] == lines[from..|lines|]
            && more[|lines| + 1..] == [] && more[|lines|] == line
  {
  }

  lemma NoneAfter(lines: seq<string>)
    ensures Tails(lines[|lines|..|lines|]) == []
  {
  }

  /** One more line after the match: the window takes it while there is room. */
  lemma StepAfter(p: Progress, hints: seq<string>, done: seq<string>, open: string, full: string)
    requires Tracks(p, hints, done, open) && p.matched && !p.openMatch
    ensures Tracks((if p.afterLines > 0 then p.(matchLines := p.matchLines + [LineTail(full)], afterLines := p.afterLines - 1) else p)
                   .(totalLines := p.totalLines + 1), hints, done + [full], "")
  {
    hide Holds, FragmentOf, LineTail, Tails, NoneHold, TracksUnmatched;
    var more := done + [full];
    var m, offset := p.matchLine, p.matchLine - p.matchStart;
    assert more[..m] == done[..m] && more[p.matchStart..m] == done[p.matchStart..m];
    assert more[m] == done[m];
    AfterWindow(done, full, m + 1);
    if p.afterLines > 0 { GrownWindow(p.matchLines, LineTail(full), offset); }
  }

  lemma GrownWindow(window: seq<string>, line: string, offset: nat)
    requires offset < |window|
    ensures (window + [line])[offset + 1..] == window[offset + 1..] + [line]
    ensures (window + [line])[..offset] == window[..offset] && (window + [line])[offset] == window[offset]
  {
  }

  lemma AfterWindow(done: seq<string>, full: string, from: nat)
    requires from <= |done|
    ensures var more := done + [full];
            var to, to' := Min(|done|, from + LINE_RADIUS), Min(|more|, from + LINE_RADIUS);
            Tails(more[from..to']) == Tails(done[from..to]) + if to' > to then [LineTail(full)] else []
  {
    hide LineTail;
    var more := done + [full];
    var to, to' := Min(|done|, from + LINE_RADIUS), Min(|more|, from + LINE_RADIUS);
    assert more[from..to'] == done[from..to] + if to' > to then [full] else [];
  }

  lemma StepClose(p: Progress, hints: seq<string>, done: seq<string>, open: string, more: string)
    requires Tracks(p, hints, done, open) && p.openMatch
    ensures Tracks(p.(openMatch := false, totalLines := p.totalLines + 1), hints, done + [open + more], "")
  {
    var all := done + [open + more];
    var offset := p.matchLine - p.matchStart;
    HoldsPrefix(open, more, hints);
    FragmentGrows(p.matchLines[offset], p.matchTerm, open, more, hints);
    assert all[..|done|] == done == done[..|done|];
    assert all[p.matchStart..|done|] == done[p.matchStart..|done|];
    assert Tails(all[|all|..|all|]) == [] == Tails(done[|done|..|done|]);
  }

  lemma StepOpen(p: Progress, hints: seq<string>, done: seq<string>, open: string, more: string)
    requires Tracks(p, hints, done, open)
    requires !p.matched && |open + more| > MAX_LINE ==> !Holds(open + more, hints)
    ensures Tracks(p, hints, done, open + more)
  {
    if p.openMatch {
      HoldsPrefix(open, more, hints);
      FragmentGrows(p.matchLines[p.matchLine - p.matchStart], p.matchTerm, open, more, hints);
    }
  }

  /** A kept tail holds a hint exactly when the whole line does, if a long line is known not to. */
  lemma LineTermFound(line: string, full: string, hints: seq<string>)
    requires UsableHints(hints) && line == LineTail(full)
    requires |full| > MAX_LINE ==> !Holds(full, hints)
    ensures LineMatchedTerm(line, hints) != "" <==> Holds(full, hints)
    ensures LineMatchedTerm(line, hints) != "" ==> line == full && LineMatchedTerm(line, hints) == FirstHint(ToLower(full), hints)
  {
    BlankHoldsNothing(line, hints);
    if |full| > MAX_LINE && Holds(line, hints) {
      assert line == full[|full| - MAX_LINE..|full|];
      HoldsInside(full, |full| - MAX_LINE, |full|, hints);
    }
  }

  lemma OwnFragment(line: string, hints: seq<string>)
    requires |line| <= MAX_LINE && Holds(line, hints)
    ensures FragmentOf(line, FirstHint(ToLower(line), hints), line, hints)
  {
    assert OccursAt(line, line, 0);
  }

  /** A matched term of at most half a line is in the fragment kept of its line. */
  ghost predicate Visible(p: Progress) {
    p.matched && |p.matchTerm| <= MAX_LINE / 2 && 0 <= p.matchLine - p.matchStart < |p.matchLines| ==>
      Contains(ToLower(p.matchLines[p.matchLine - p.matchStart]), p.matchTerm)
  }

  /** The invariant of the fields: size limits always, and what they stand for when the hints are usable. */
  ghost predicate Good(p: Progress, hints: seq<string>, done: seq<string>, open: string) {
    Bounded(p) && Visible(p) && p.totalLines == |done| && (UsableHints(hints) ==> Tracks(p, hints, done, open))
  }

  lemma GoodAfter(p: Progress, hints: seq<string>, done: seq<string>, open: string, full: string)
    requires Good(p, hints, done, open) && p.matched && !p.openMatch
    ensures Good((if p.afterLines > 0 then p.(matchLines := p.matchLines + [LineTail(full)], afterLines := p.afterLines - 1) else p)
                 .(totalLines := p.totalLines + 1), hints, done + [full], "")
  {
    hide Tracks, Contains, ToLower;
    if UsableHints(hints) { StepAfter(p, hints, done, open, full); }
  }

  lemma GoodLine(p: Progress, hints: seq<string>, done: seq<string>, open: string, full: string)
    requires Good(p, hints, done, open) && !p.matched
    requires UsableHints(hints) && |full| > MAX_LINE ==> !Holds(full, hints)
    ensures var line := LineTail(full); var term := LineMatchedTerm(line, hints);
            var p' := if term != "" then Recorded(p, p.totalLines, line, term)
                      else p.(prevLines := LastLines(p.prevLines + [line]));
            Good(p'.(totalLines := p.totalLines + 1), hints, done + [full], "")
  {
    hide Holds, FragmentOf, LineMatchedTerm, TracksMatched, TracksUnmatched, Contains, ToLower;
    var line := LineTail(full);
    var term := LineMatchedTerm(line, hints);
    if term != "" { LineTermContained(line, hints); }
    if UsableHints(hints) {
      LineTermFound(line, full, hints);
      if term != "" {
        OwnFragment(full, hints);
        StepMatch(p, hints, done, open, full, line, term);
      } else {
        StepMiss(p, hints, done, open, full);
      }
    }
  }

  lemma GoodClose(p: Progress, hints: seq<string>, done: seq<string>, open: string, more: string)
    requires Good(p, hints, done, open) && p.openMatch
    ensures Good(p.(openMatch := false, totalLines := p.totalLines + 1), hints, done + [open + more], "")
  {
    hide Tracks, Contains, ToLower;
    if UsableHints(hints) { StepClose(p, hints, done, open, more); }
  }

  /** The open line grows while its match is settled, or by nothing, or stays short enough to be kept whole. */
  lemma GoodOpen(p: Progress, hints: seq<string>, done: seq<string>, open: string, more: string)
    requires Good(p, hints, done, open)
    requires p.matched || more == "" || |open + more| <= MAX_LINE
    ensures Good(p, hints, done, open + more)
  {
    hide Holds, TracksMatched, TracksUnmatched, Bounded, Visible, FragmentOf;
    if UsableHints(hints) {
      if more == "" { assert open + more == open; }
      if !p.matched && |open + more| > MAX_LINE { GoodMissed(p, hints, done, open); }
      StepOpen(p, hints, done, open, more);
    }
  }

  lemma GoodFragment(p: Progress, hints: seq<string>, done: seq<string>, open: string, more: string)
    requires Good(p, hints, done, open) && !p.matched
    requires |LineTail(open) + more| > MAX_LINE
    ensures var line := LineTail(open) + more; var term := LineMatchedTerm(line, hints);
            var p' := if term != "" then Recorded(p, p.totalLines, LineAroundTerm(line, term, MAX_LINE), term).(openMatch := true)
                      else p;
            Good(p', hints, done, open + more)
  {
    hide Holds, FragmentOf, LineMatchedTerm, LineAroundTerm, TracksMatched, Contains, ToLower;
    var line := LineTail(open) + more;
    var full := open + more;
    var term := LineMatchedTerm(line, hints);
    TailAppend(open, more);
    if term != "" {
      LineTermContained(line, hints);
      var _ := AroundTermSlice(line, term);
    }
    if UsableHints(hints) {
      BlankHoldsNothing(line, hints);
      HoldsAcross(open, more, hints);
      if term != "" {
        assert line == full[|full| - |line|..];
        AroundTermFragment(full, line, |full| - |line|, term, hints);
        StepMatch(p, hints, done, open, full, LineAroundTerm(line, term, MAX_LINE), term);
      } else {
        StepOpen(p, hints, done, open, more);
      }
    }
  }

  lemma LineTermContained(line: string, hints: seq<string>)
    requires LineMatchedTerm(line, hints) != ""
    ensures Contains(ToLower(line), LineMatchedTerm(line, hints))
  {
  }

  /** A line found long and without a hint stays known to have none. */
  lemma GoodMissed(p: Progress, hints: seq<string>, done: seq<string>, open: string)
    requires Good(p, hints, done, open) && !p.matched && UsableHints(hints) && |open| > MAX_LINE
    ensures !Holds(open, hints)
  {
    hide Holds, TracksMatched, Bounded, Visible;
  }

  function BufferCap(bodyBudget: int): (r: int)
    ensures r >= 0
  {
    Min(Max(bodyBudget * 8, MIN_BUFFER), MAX_BUFFER)
  }

  lemma NothingSeen(hints: seq<string>)
    ensures Good(UNSEEN, hints, [], "")
    ensures LineTail("") == "" && SplitLines("") == [""] && NoNewline("")
  {
  }

  class ContextScanner {
    const hints: seq<string>
    const bodyBudget: int
    const bufferCap: int
    var buffer: string
    var overflow: bool
    var remainder: string
    var openMatch: bool
    var prevLines: seq<string>
    var matched: bool
    var matchTerm: string
    var matchLine: int
    var matchStart: int
    var matchLines: seq<string>
    var afterLines: int
    var totalLines: int
    var finalized: bool
    ghost var data: string
    ghost var done: seq<string>
    ghost var open: string

    ghost function State(): Progress
      reads `openMatch, `prevLines, `matched, `matchTerm, `matchLine, `matchStart, `matchLines, `afterLines, `totalLines
    {
      Progress(openMatch, prevLines, matched, matchTerm, matchLine, matchStart, matchLines, afterLines, totalLines)
    }

    ghost predicate TracksLines()
      reads `openMatch, `prevLines, `matched, `matchTerm, `matchLine, `matchStart, `matchLines, `afterLines, `totalLines,
            `done, `open
    {
      Good(State(), hints, done, open) && NoNewline(open)
    }

    ghost predicate Valid()
      reads this
    {
      && TracksLines()
      && remainder == LineTail(open)
      && bufferCap == BufferCap(bodyBudget)
      && (overflow <==> |data| > bufferCap) && (!overflow ==> buffer == data) && (overflow ==> buffer == "")
      && (!finalized ==> SplitLines(data) == done + [open])
    }

    constructor (hints: seq<string>, bodyBudgetTokens: int)
      ensures Valid() && this.hints == hints && bodyBudget == bodyBudgetTokens
      ensures data == "" && !finalized && State() == UNSEEN && remainder == ""
    {
      this.hints := hints;
      bodyBudget := bodyBudgetTokens;
      bufferCap := BufferCap(bodyBudgetTokens);
      buffer, overflow, remainder, openMatch, prevLines := "", false, "", false, [];
      matched, matchTerm, matchLine, matchStart, matchLines, afterLines := false, "", 0, 0, [], 0;
      totalLines, finalized := 0, false;
      data, done, open := "", [], "";
      new;
      hide Good, LineTail, SplitLines, BufferCap;
      NothingSeen(hints);
    }

    method Scan(chunk: string)
      requires Valid()
      modifies this
      ensures Valid() && finalized == old(finalized)
      ensures data == old(data) + chunk
      ensures NoNewline(chunk) ==> State() == if chunk == "" then old(State()) else Grown(old(State()), old(remainder) + chunk, hints)
    {
      hide TracksLines, LineTail, SplitLines, Glue, BufferCap, Grown;
      if |chunk| == 0 { assert old(data) + chunk == data; return; }
      if !overflow {
        if |buffer| + |chunk| <= bufferCap {
          buffer := buffer + chunk;
        } else {
          overflow := true;
          buffer := "";
        }
      }
      ScanLines(chunk);
      SplitAppend(data, chunk);
      data := data + chunk;
    }

    /** Splits the chunk, glued to what is kept of the open line, into lines. */
    method ScanLines(chunk: string)
      requires TracksLines() && remainder == LineTail(open)
      modifies `remainder, `openMatch, `prevLines, `matched, `matchTerm, `matchLine, `matchStart, `matchLines,
               `afterLines, `totalLines, `done, `open
      ensures TracksLines() && remainder == LineTail(open)
      ensures done + [open] == Glue(old(done + [open]), SplitLines(chunk))
      ensures NoNewline(chunk) && chunk != "" ==> State() == Grown(old(State()), old(remainder) + chunk, hints)
    {
      hide TracksLines, LineTail, Grown;
      ghost var lines0 := done + [open];
      if chunk == "" { assert open + "" == open; return; }
      var combined := remainder + chunk;
      ghost var rest := chunk;
      while true
        invariant TracksLines() && combined == LineTail(open) + rest
        invariant Glue(done + [open], SplitLines(rest)) == Glue(lines0, SplitLines(chunk))
        invariant NoNewline(chunk) ==> State() == old(State()) && rest == chunk && combined == old(remainder) + chunk
        decreases |rest|
      {
        assert NoNewline(LineTail(open)) by { OpenIsOneLine(); }
        ghost var line := CutLine(LineTail(open), rest);
        var idx := IndexChar(combined, '\n');
        if idx < 0 {
          LastLine(done, open, rest);
          StoreLineRemainder(combined, rest);
          return;
        }
        NextLine(done, open, rest, line, combined[idx + 1..]);
        ScanCompleteLine(combined[..idx], line);
        combined := combined[idx + 1..];
        rest := combined;
        assert LineTail(open) + rest == rest by { EmptyTail(rest); }
      }
    }

    lemma OpenIsOneLine()
      requires TracksLines()
      ensures NoNewline(LineTail(open))
    {
    }

    method StoreLineRemainder(line: string, ghost more: string)
      requires TracksLines() && line == LineTail(open) + more && NoNewline(more)
      modifies `remainder, `openMatch, `matched, `matchTerm, `matchLine, `matchStart, `matchLines, `afterLines, `open
      ensures TracksLines() && remainder == LineTail(open)
      ensures open == old(open) + more
      ensures State() == Grown(old(State()), line, hints)
    {
      hide Good, LineTail, Searched;
      TailAppend(open, more);
      if |line| <= MAX_LINE {
        remainder := line;
        GoodOpen(State(), hints, done, open, more);
        open := open + more;
        return;
      }
      ScanOpenLineFragment(line, more);
      remainder := LineTail(line);
    }

    /** Looks for a hint in a line too long to keep; `more` is what the line grew by. */
    method ScanOpenLineFragment(line: string, ghost more: string)
      requires TracksLines() && line == LineTail(open) + more && NoNewline(more) && |line| > MAX_LINE
      modifies `openMatch, `matched, `matchTerm, `matchLine, `matchStart, `matchLines, `afterLines, `open
      ensures TracksLines() && open == old(open) + more
      ensures State() == Searched(old(State()), line, hints)
    {
      hide Good, LineMatchedTerm, LineAroundTerm;
      ghost var open0 := open;
      open := open + more;
      if matched {
        GoodOpen(State(), hints, done, open0, more);
        return;
      }
      GoodFragment(State(), hints, done, open0, more);
      var term := LineMatchedTerm(line, hints);
      if term != "" {
        var fragment := LineAroundTerm(line, term, MAX_LINE);
        RecordMatchedLine(totalLines, fragment, term);
        openMatch := true;
      }
    }

    method ScanCompleteLine(line: string, ghost more: string)
      requires TracksLines() && line == LineTail(open) + more && NoNewline(more)
      modifies `openMatch, `prevLines, `matched, `matchTerm, `matchLine, `matchStart, `matchLines, `afterLines,
               `totalLines, `done, `open
      ensures TracksLines() && !openMatch
      ensures done == old(done) + [old(open) + more] && open == ""
      ensures old(openMatch) ==> State() == Closed(old(State()))
    {
      hide Good, LineTail, Holds, UsableHints, Searched, LineMatchedTerm, LineAroundTerm, Recorded;
      ghost var full := open + more;
      TailAppend(open, more);
      if openMatch {
        GoodClose(State(), hints, done, open, more);
        totalLines := totalLines + 1;
        openMatch := false;
        done, open := done + [full], "";
        return;
      }
      var kept := line;
      if |line| > MAX_LINE {
        ScanOpenLineFragment(line, more);
        kept := LineTail(line);
        if openMatch {
          assert open + "" == open;
          GoodClose(State(), hints, done, open, "");
          totalLines := totalLines + 1;
          openMatch := false;
          done, open := done + [full], "";
          return;
        }
      }
      if UsableHints(hints) && !matched && |full| > MAX_LINE {
        assert open == full;
        GoodMissed(State(), hints, done, open);
      }
      ScanLine(kept, full);
    }

    /** Takes one complete line, already cut to its kept tail. */
    method ScanLine(line: string, ghost full: string)
      requires TracksLines() && !openMatch && line == LineTail(full)
      requires UsableHints(hints) && !matched && |full| > MAX_LINE ==> !Holds(full, hints)
      modifies `prevLines, `matched, `matchTerm, `matchLine, `matchStart, `matchLines, `afterLines, `totalLines, `done, `open
      ensures TracksLines() && !openMatch
      ensures done == old(done) + [full] && open == ""
    {
      hide Good, LineMatchedTerm, Holds;
      if matched {
        GoodAfter(State(), hints, done, open, full);
      } else {
        GoodLine(State(), hints, done, open, full);
      }
      done, open := done + [full], "";
      var lineIndex := totalLines;
      totalLines := totalLines + 1;
      if matched {
        if afterLines > 0 {
          matchLines := matchLines + [line];
          afterLines := afterLines - 1;
        }
        return;
      }
      var term := LineMatchedTerm(line, hints);
      if term != "" {
        RecordMatchedLine(lineIndex, line, term);
        return;
      }
      prevLines := prevLines + [line];
      if |prevLines| > LINE_RADIUS {
        prevLines := prevLines[|prevLines| - LINE_RADIUS..];
      }
    }

    /** After every scan, whatever the bytes and the hints: bounded memory, and a match offset that indexes
        the window. A hint of at most half a line is still visible in what was kept of its line. */
    lemma MemoryBounds()
      requires Valid()
      ensures |buffer| <= bufferCap <= MAX_BUFFER && |remainder| <= MAX_LINE
      ensures |prevLines| <= LINE_RADIUS && forall l | l in prevLines :: |l| <= MAX_LINE
      ensures matched ==>
                && 0 <= matchLine - matchStart < |matchLines| <= 2 * LINE_RADIUS + 1
                && (forall l | l in matchLines :: |l| <= MAX_LINE)
                && (|matchTerm| <= MAX_LINE / 2 ==>
                      Contains(ToLower(matchLines[matchLine - matchStart]), matchTerm))
    {
      hide Contains, Holds;
    }

    /** The window the fields hold once a line has matched. */
    function FieldWindow(): RawWindow
      reads this
      requires matchStart >= 0 && matchLine >= matchStart && totalLines >= 0
    {
      RawWindow.Window(matchLines, matchLine - matchStart, matchStart, totalLines, matchTerm)
    }

    lemma FieldsPlaced()
      requires Valid()
      ensures overflow <==> |data| > BufferCap(bodyBudget)
      ensures totalLines == |done| && 0 <= matchStart && 0 <= matchLine
      ensures matched ==> matchStart <= matchLine < matchStart + |matchLines|
    {
    }

    /** Bytes without a newline are all on the open line. */
    lemma OneLine()
      requires Valid() && !finalized && NoNewline(data)
      ensures done == [] && open == data
    {
      SplitNoNewline(data);
      assert (done + [open])[|done|] == open;
    }

    lemma FieldsDetermined()
      requires Valid() && UsableHints(hints) && open == ""
      ensures matched <==> MatchedLine(done, hints) < |done|
      ensures matched ==>
                && matchLine == MatchedLine(done, hints) && matchStart == Max(0, matchLine - LINE_RADIUS)
                && WindowOf(matchLines, matchTerm, done, hints, matchLine)
                && (|done[matchLine]| <= MAX_LINE ==> StreamWindow(done, hints) == Some(FieldWindow()))
    {
      hide Tracks, Bounded, Visible, UsableHints, MatchedLine, StreamWindow, SplitLines, WindowOf;
      TracksDetermines(State(), hints, done);
    }

    method Body(est: Estimator) returns (body: string, reason: Reason)
      requires Valid()
      modifies this
      ensures Valid() && finalized && data == old(data)
      ensures !old(finalized) ==> done == ScannedLines(data) && open == ""
      ensures old(openMatch) && !old(finalized) && old(open) != "" ==> State() == Closed(old(State()))
      ensures !overflow ==> body == Trim(data) && reason == if body == "" then RefsMissing else Complete
      ensures overflow && !matched ==> body == "" && reason == CoverageInsufficient
      ensures overflow && matched ==>
                && body == StreamExcerpt(est, FieldWindow(), BodyBudget(bodyBudget)) && body != ""
                && reason == Complete
    {
      Finalize();
      if !overflow {
        body := Trim(buffer);
        return body, if body == "" then RefsMissing else Complete;
      }
      if !matched { return "", CoverageInsufficient; }
      body := RenderMatchedExcerpt(est);
      StreamExcerptShows(est, FieldWindow(), BodyBudget(bodyBudget));
      if Trim(body) == "" { return "", CoverageInsufficient; }
      return body, Complete;
    }

    method RenderMatchedExcerpt(est: Estimator) returns (body: string)
      requires TracksLines() && matched
      ensures body == StreamExcerpt(est, FieldWindow(), BodyBudget(bodyBudget))
    {
      var budget := BodyBudget(bodyBudget);
      var offset := matchLine - matchStart;
      if |matchLines| == 0 || offset < 0 || offset >= |matchLines| { return ""; }
      var w: Window := FieldWindow();
      var r := FitRadius(Excerpts(est, w, budget), est, MaxRadius(w), budget);
      if r.Some? { return r.value; }
      return HalfBudgetExcerpt(est, w, budget);
    }

    method Finalize()
      requires Valid()
      modifies this
      ensures Valid() && finalized && data == old(data)
      ensures done == if old(finalized) || old(open) == "" then old(done) else old(done) + [old(open)]
      ensures open == if old(finalized) then old(open) else ""
      ensures old(openMatch) && !old(finalized) && old(open) != "" ==> State() == Closed(old(State()))
    {
      hide Good, LineTail, SplitLines, NoNewline;
      OpenTail(open);
      if finalized { return; }
      finalized := true;
      if remainder != "" {
        ScanCompleteLine(remainder, "");
        remainder := "";
      }
    }

    method RecordMatchedLine(lineIndex: int, line: string, term: string)
      modifies `matched, `matchTerm, `matchLine, `matchStart, `matchLines, `afterLines
      ensures State() == Recorded(old(State()), lineIndex, line, term)
    {
      matched := true;
      matchTerm := term;
      matchLine := lineIndex;
      matchStart := lineIndex - |prevLines|;
      matchLines := prevLines + [line];
      afterLines := LINE_RADIUS;
    }
  }

  lemma OpenTail(s: string)
    ensures LineTail(s) + "" == LineTail(s) && s + "" == s && NoNewline("")
    ensures LineTail(s) == "" <==> s == ""
    ensures LineTail("") == ""
  {
  }

  lemma EmptyTail(s: string)
    ensures LineTail("") + s == s
  {
  }

  /** The first line of `rest`, when `kept` before it has no newline. */
  lemma CutLine(kept: string, rest: string) returns (line: string)
    requires NoNewline(kept)
    ensures NoNewline(line)
    ensures var combined := kept + rest; var idx := IndexChar(combined, '\n');
            if idx < 0 then line == rest
            else && combined[..idx] == kept + line
                 && rest == line + "\n" + combined[idx + 1..] && |combined[idx + 1..]| < |rest|
  {
    hide IndexChar;
    var combined := kept + rest;
    var idx := IndexChar(combined, '\n');
    forall i | 0 <= i < |rest| ensures rest[i] == combined[|kept| + i] {}
    if idx < 0 {
      line := rest;
    } else {
      assert forall i | 0 <= i < |kept| :: combined[i] == kept[i];
      line := rest[..idx - |kept|];
      CutHere(kept, rest, idx - |kept|);
    }
  }

  lemma CutHere(kept: string, rest: string, at: nat)
    requires at < |rest| && rest[at] == '\n'
    ensures var combined := kept + rest;
            && combined[..|kept| + at] == kept + rest[..at]
            && rest == rest[..at] + "\n" + combined[|kept| + at + 1..]
  {
    assert (kept + rest)[|kept| + at + 1..] == rest[at + 1..];
  }

  lemma LastLine(done: seq<string>, open: string, rest: string)
    requires NoNewline(rest)
    ensures Glue(done + [open], SplitLines(rest)) == done + [open + rest]
  {
    SplitNoNewline(rest);
    assert (done + [open])[..|done|] == done;
  }

  lemma FirstLineSplit(line: string, tail: string)
    requires NoNewline(line)
    ensures SplitLines(line + "\n" + tail) == [line] + SplitLines(tail)
  {
    SplitNoNewline(line);
    SplitAtNewline(line, tail);
  }

  lemma GlueFirstLine(done: seq<string>, open: string, line: string, more: seq<string>)
    requires more != []
    ensures Glue(done + [open], [line] + more) == Glue(done + [open + line] + [""], more)
  {
    assert "" + more[0] == more[0];
    assert (done + [open])[..|done|] == done;
    assert (done + [open + line] + [""])[..|done| + 1] == done + [open + line];
  }

  lemma NextLine(done: seq<string>, open: string, rest: string, line: string, tail: string)
    requires rest == line + "\n" + tail && NoNewline(line)
    ensures Glue(done + [open], SplitLines(rest)) == Glue(done + [open + line] + [""], SplitLines(tail))
  {
    FirstLineSplit(line, tail);
    GlueFirstLine(done, open, line, SplitLines(tail));
  }

  // ---------------------------------------------------------------- the body, as a function of the bytes

  datatype Reason = Complete | RefsMissing | CoverageInsufficient

  /** The lines of a text; a newline at the very end does not open another line. */
  function ScannedLines(data: string): seq<string> {
    var lines := SplitLines(data);
    if lines[|lines| - 1] == "" then lines[..|lines| - 1] else lines
  }

  function BodyBudget(bodyBudget: int): int { if bodyBudget <= 0 then 128 else bodyBudget }

  /** The lines within the radius of the first one that holds a hint. */
  function StreamWindow(lines: seq<string>, hints: seq<string>): Option<Window> {
    var m := MatchedLine(lines, hints);
    if m == |lines| then None
    else
      var from, to := Max(0, m - LINE_RADIUS), Min(|lines|, m + 1 + LINE_RADIUS);
      Some(RawWindow.Window(Tails(lines[from..to]), m - from, from, |lines|, FirstHint(ToLower(lines[m]), hints)))
  }

  /** What a window may hold: the kept tails of the lines around the match and, at the match, what was kept of
      its line. Only the latter is not settled by the lines, and only when that line is too long to keep. */
  ghost predicate WindowOf(window: seq<string>, term: string, lines: seq<string>, hints: seq<string>, m: nat) {
    m < |lines| &&
    var start, to := Max(0, m - LINE_RADIUS), Min(|lines|, m + 1 + LINE_RADIUS);
    && |window| == to - start
    && window[..m - start] == Tails(lines[start..m])
    && window[m - start + 1..] == Tails(lines[m + 1..to])
    && FragmentOf(window[m - start], term, lines[m], hints)
  }

  /** The excerpt a scanner prints for a window: the widest that fits, else the half-budget line as it is. */
  function StreamExcerpt(est: Estimator, w: Window, budget: int): string {
    match WidestExcerpt(est, w, budget)
    case Some(e) => e
    case None => HalfBudgetExcerpt(est, w, budget)
  }

  lemma PrintedShows(w: Window, from: nat, to: nat, shown: seq<string>)
    ensures Trim(Printed(w, from, to, shown)) != "" && Printed(w, from, to, shown) != ""
  {
    hide Header, JoinLines, Trim;
    HeaderLine(w.term, w.base + w.offset, w.total);
    var parts := RenderParts(shown, w.term, w.base + w.offset, w.total, w.base + from, w.base + to);
    JoinStarts(parts);
    TrimShape(JoinLines(parts));
  }

  lemma JoinStarts(parts: seq<string>)
    requires parts != [] && parts[0] != ""
    ensures JoinLines(parts) != "" && JoinLines(parts)[0] == parts[0][0]
  {
  }

  /** A printed excerpt is never blank. */
  lemma StreamExcerptShows(est: Estimator, w: Window, budget: int)
    ensures StreamExcerpt(est, w, budget) != "" && Trim(StreamExcerpt(est, w, budget)) != ""
  {
    hide Printed, TrimMatchedLine;
    var text := Excerpts(est, w, budget);
    var wide := WidestFit(text, est, MaxRadius(w), budget);
    if wide.Some? {
      var k: nat :| k <= MaxRadius(w) && wide.value == text(k) && est(text(k)) <= budget;
      PrintedShows(w, From(w, k), To(w, k), Shown(est, w, budget, k));
    } else {
      PrintedShows(w, w.offset, w.offset + 1, [TrimMatchedLine(est, w.lines[w.offset], w.term, budget / 2)]);
    }
  }

  lemma FirstMatchIs(lines: seq<string>, hints: seq<string>, m: nat)
    requires m <= |lines| && NoneHold(lines[..m], hints)
    requires m < |lines| ==> Holds(lines[m], hints)
    ensures MatchedLine(lines, hints) == m
  {
    var k := MatchedLine(lines, hints);
    forall i | 0 <= i < m ensures !Holds(lines[i], hints) { assert lines[..m][i] == lines[i]; }
  }

  lemma ThreeParts<T>(s: seq<T>, at: nat, a: seq<T>, x: T, b: seq<T>)
    requires at < |s| && s[..at] == a && s[at] == x && s[at + 1..] == b
    ensures s == a + [x] + b
  {
    assert s == s[..at] + [s[at]] + s[at + 1..];
  }

  /** Around a line that was kept whole a window is the one the lines determine. */
  lemma WindowIs(window: seq<string>, term: string, hints: seq<string>, lines: seq<string>, m: nat)
    requires WindowOf(window, term, lines, hints, m) && |lines[m]| <= MAX_LINE
    ensures var start, to := Max(0, m - LINE_RADIUS), Min(|lines|, m + 1 + LINE_RADIUS);
            window == Tails(lines[start..to]) && term == FirstHint(ToLower(lines[m]), hints)
  {
    hide FirstHint, ToLower, NoneHold, Holds, Contains, LineTail;
    var start, to := Max(0, m - LINE_RADIUS), Min(|lines|, m + 1 + LINE_RADIUS);
    ThreeParts(window, m - start, Tails(lines[start..m]), lines[m], Tails(lines[m + 1..to]));
    ThreeParts(lines[start..to], m - start, lines[start..m], lines[m], lines[m + 1..to]);
    TailsParts(lines[start..m], lines[m], lines[m + 1..to]);
  }

  lemma TailsParts(a: seq<string>, x: string, b: seq<string>)
    ensures Tails(a + [x] + b) == Tails(a) + [LineTail(x)] + Tails(b)
    ensures |x| <= MAX_LINE ==> LineTail(x) == x
  {
  }

  /** Once no line is open, the fields say exactly where the first match is and, when that line is short
      enough to be kept whole, exactly which window of which text it stands in. */
  lemma TracksDetermines(p: Progress, hints: seq<string>, lines: seq<string>)
    requires Bounded(p) && p.totalLines == |lines| && Tracks(p, hints, lines, "")
    ensures p.matched <==> MatchedLine(lines, hints) < |lines|
    ensures p.matched ==>
              && p.matchLine == MatchedLine(lines, hints)
              && p.matchStart == Max(0, p.matchLine - LINE_RADIUS)
              && WindowOf(p.matchLines, p.matchTerm, lines, hints, p.matchLine)
              && (|lines[p.matchLine]| <= MAX_LINE ==>
                    StreamWindow(lines, hints)
                    == Some(RawWindow.Window(p.matchLines, p.matchLine - p.matchStart, p.matchStart, p.totalLines, p.matchTerm)))
  {
    hide FragmentOf, Tails, Holds, StreamWindow, Bounded, WindowOf;
    if p.matched {
      TrackedWindow(p, hints, lines);
      FirstMatchIs(lines, hints, p.matchLine);
      if |lines[p.matchLine]| <= MAX_LINE { WindowStreams(p, hints, lines); }
    } else {
      assert lines[..|lines|] == lines;
      FirstMatchIs(lines, hints, |lines|);
    }
  }

  lemma TrackedWindow(p: Progress, hints: seq<string>, lines: seq<string>)
    requires Bounded(p) && TracksMatched(p, hints, lines, "")
    ensures !p.openMatch && WindowOf(p.matchLines, p.matchTerm, lines, hints, p.matchLine)
  {
    hide FragmentOf, Tails, NoneHold, Holds;
  }

  lemma WindowStreams(p: Progress, hints: seq<string>, lines: seq<string>)
    requires Bounded(p) && p.matched && p.totalLines == |lines| && p.matchLine == MatchedLine(lines, hints)
    requires p.matchStart == Max(0, p.matchLine - LINE_RADIUS)
    requires WindowOf(p.matchLines, p.matchTerm, lines, hints, p.matchLine) && |lines[p.matchLine]| <= MAX_LINE
    ensures StreamWindow(lines, hints)
         == Some(RawWindow.Window(p.matchLines, p.matchLine - p.matchStart, p.matchStart, p.totalLines, p.matchTerm))
  {
    hide Tails, FirstHint, ToLower, FragmentOf, MatchedLine;
    WindowIs(p.matchLines, p.matchTerm, hints, lines, p.matchLine);
  }

  // ---------------------------------------------------------------- whole scans

  function Concat(chunks: seq<string>): string {
    if chunks == [] then "" else Concat(chunks[..|chunks| - 1]) + chunks[|chunks| - 1]
  }

  /** Everything a finished scan tells its caller. */
  datatype Outcome = Outcome(body: string, reason: Reason, overflow: bool, total: nat,
                             matched: bool, matchLine: nat, matchStart: nat, window: seq<string>, term: string)
  {
    predicate Placed() { matched ==> matchStart <= matchLine < matchStart + |window| }

    function Window(): RawWindow
      requires matched && Placed()
    {
      RawWindow.Window(window, matchLine - matchStart, matchStart, total, term)
    }
  }

  /** What any scan of `data` reports, whatever the hints: the trimmed bytes when they fitted, else the excerpt
      of its window, if it has one. */
  ghost predicate Renders(est: Estimator, budget: int, data: string, o: Outcome) {
    && o.overflow == (|data| > BufferCap(budget))
    && o.total == |ScannedLines(data)|
    && o.Placed()
    && (!o.overflow ==> o.body == Trim(data) && o.reason == if o.body == "" then RefsMissing else Complete)
    && (o.overflow && !o.matched ==> o.body == "" && o.reason == CoverageInsufficient)
    && (o.overflow && o.matched ==>
          o.reason == Complete && o.body != "" && o.body == StreamExcerpt(est, o.Window(), BodyBudget(budget)))
  }

  /** What a scan of `data` for usable hints must report, however the bytes were cut; nothing here mentions
      chunks. */
  ghost predicate Reports(est: Estimator, hints: seq<string>, budget: int, data: string, o: Outcome) {
    var lines := ScannedLines(data);
    var m := MatchedLine(lines, hints);
    && Renders(est, budget, data, o)
    && o.matched == (m < |lines|)
    && (o.matched ==>
          && o.matchLine == m && o.matchStart == Max(0, m - LINE_RADIUS)
          && WindowOf(o.window, o.term, lines, hints, m)
          && (|lines[m]| <= MAX_LINE ==> StreamWindow(lines, hints) == Some(o.Window())))
  }

  lemma ConcatSnoc(chunks: seq<string>, i: nat)
    requires i < |chunks|
    ensures Concat(chunks[..i + 1]) == Concat(chunks[..i]) + chunks[i]
  {
    assert chunks[..i + 1][..i] == chunks[..i];
  }

  /** One scan from start to finish, over any cutting of the bytes into chunks. */
  method ScanAll(est: Estimator, hints: seq<string>, budget: int, chunks: seq<string>) returns (o: Outcome)
    ensures Renders(est, budget, Concat(chunks), o)
    ensures UsableHints(hints) ==> Reports(est, hints, budget, Concat(chunks), o)
  {
    hide StreamExcerpt, StreamWindow, MatchedLine, ScannedLines, Trim, BufferCap, Tails, UsableHints, SplitLines, WindowOf;
    hide ContextScanner.Valid, ContextScanner.TracksLines;
    var scanner := new ContextScanner(hints, budget);
    for i := 0 to |chunks|
      invariant scanner.Valid() && !scanner.finalized && fresh(scanner)
      invariant scanner.data == Concat(chunks[..i])
      invariant scanner.hints == hints && scanner.bodyBudget == budget
    {
      scanner.Scan(chunks[i]);
      ConcatSnoc(chunks, i);
    }
    assert chunks[..|chunks|] == chunks;
    var body, reason := scanner.Body(est);
    scanner.FieldsPlaced();
    if UsableHints(hints) { scanner.FieldsDetermined(); }
    o := Outcome(body, reason, scanner.overflow, scanner.totalLines, scanner.matched, scanner.matchLine, scanner.matchStart,
                 scanner.matchLines, scanner.matchTerm);
  }

  /** A scan of one line that arrives in two chunks, the first long and holding a hint: what is kept of it is cut
      out of the first chunk. */
  method ScanLongLine(est: Estimator, hints: seq<string>, budget: int, first: string, second: string) returns (o: Outcome)
    requires NoNewline(first + second) && |first| > MAX_LINE && LineMatchedTerm(first, hints) != ""
    ensures Renders(est, budget, first + second, o)
    ensures o.total == 1 && o.matched && o.matchLine == 0 && o.term == LineMatchedTerm(first, hints)
    ensures o.window == [LineAroundTerm(first, o.term, MAX_LINE)]
  {
    hide StreamExcerpt, ScannedLines, Trim, BufferCap, SplitLines, LineMatchedTerm, LineAroundTerm, LineTail;
    hide ContextScanner.Valid, ContextScanner.TracksLines;
    var scanner := new ContextScanner(hints, budget);
    TwoPieces(first, second);
    ghost var found := FoundAtOnce(first, hints);
    scanner.Scan(first);
    assert scanner.State() == found;
    scanner.Scan(second);
    assert scanner.State() == found;
    scanner.OneLine();
    var body, reason := scanner.Body(est);
    assert scanner.State() == Closed(found);
    scanner.FieldsPlaced();
    o := Outcome(body, reason, scanner.overflow, scanner.totalLines, scanner.matched, scanner.matchLine, scanner.matchStart,
                 scanner.matchLines, scanner.matchTerm);
  }

  lemma FoundAtOnce(first: string, hints: seq<string>) returns (p: Progress)
    requires |first| > MAX_LINE && LineMatchedTerm(first, hints) != ""
    ensures p == Grown(UNSEEN, first, hints)
         == Progress(true, [], true, LineMatchedTerm(first, hints), 0, 0,
                     [LineAroundTerm(first, LineMatchedTerm(first, hints), MAX_LINE)], LINE_RADIUS, 0)
    ensures forall line :: Grown(p, line, hints) == p
  {
    hide LineMatchedTerm, LineAroundTerm;
    p := Grown(UNSEEN, first, hints);
  }

  lemma TwoPieces(a: string, b: string)
    requires NoNewline(a + b)
    ensures NoNewline(a) && NoNewline(b) && "" + a == a && "" + a + b == a + b
  {
    assert forall i | 0 <= i < |a| :: (a + b)[i] == a[i];
    assert forall i | 0 <= i < |b| :: (a + b)[|a| + i] == b[i];
  }

  /** Two scans of the very same bytes that keep different fragments of the matched line. */
  method DifferentFragments(est: Estimator, budget: int, before: string, term: string, more: string) returns (a: Outcome, b: Outcome)
    requires |before| >= MAX_LINE && 0 < |term| < MAX_LINE / 2 && more != "" && !IsBlank(term)
    requires ToLower(term) == term && Index(ToLower(before + term), term) == |before|
    requires term[|term| - 1] !in more && NoNewline(before + term + more)
    ensures Renders(est, budget, before + term + more, a) && Renders(est, budget, before + term + more, b)
    ensures a.matched && b.matched && a.term == b.term == term && a.window != b.window
  {
    OneHint(before, term, "");
    OneHint(before, term, more);
    FragmentFollowsArrival(before, term, more);
    hide *;
    var short, long := before + term, before + term + more;
    NothingAdded(short);
    NothingAdded(long);
    a := ScanLongLine(est, [term], budget, short, more);
    b := ScanLongLine(est, [term], budget, long, "");
    assert a.window[0] != b.window[0];
  }

  lemma NothingAdded(s: string)
    ensures s + "" == s
  {
  }

  lemma OneHint(before: string, term: string, more: string)
    requires term != "" && !IsBlank(term) && ToLower(term) == term && Index(ToLower(before + term), term) >= 0
    ensures LineMatchedTerm(before + term + more, [term]) == term
  {
    hide ToLower, IsBlank, IsSpace, Trim;
    var line := before + term + more;
    TermBetween(before, term, more);
    VisibleInside(line, term, |before|);
    TrimShape(line);
  }

  lemma TermBetween(before: string, term: string, more: string)
    requires ToLower(term) == term
    ensures OccursAt(ToLower(before + term + more), term, |before|)
  {
    ToLowerAppend(before + term, more);
    ToLowerAppend(before, term);
    hide ToLower;
  }

  /** When what is kept is the same whether the rest arrives with the term or later: the cut is at the same place
      exactly when nothing more arrives or half a fragment was there behind the term; elsewhere the two pieces of the
      line would have to be equal. */
  lemma FragmentsAgreeExactly(first: string, more: string, term: string)
    requires |first| > MAX_LINE && ToLower(term) == term && Index(ToLower(first), term) >= 0
    ensures var at: nat := Index(ToLower(first), term); var line := first + more;
            var w, v := Around(at, MAX_LINE, |first|), Around(at, MAX_LINE, |line|);
            && (LineAroundTerm(first, term, MAX_LINE) == LineAroundTerm(line, term, MAX_LINE)
                <==> line[w.0..w.1] == line[v.0..v.1])
            && (w == v <==> more == "" || Max(at - MAX_LINE / 2, 0) + MAX_LINE <= |first|)
  {
    hide Index, ToLower, OccursAt;
    var at: nat := Index(ToLower(first), term);
    ToLowerAppend(first, more);
    FirstStays(ToLower(first), ToLower(more), term, at);
    var w := Around(at, MAX_LINE, |first|);
    assert (first + more)[w.0..w.1] == first[w.0..w.1];
  }

  /** Two scans of the same bytes agree on everything but what they keep of a matched line that is too long. */
  lemma ChunkIndependence(est: Estimator, hints: seq<string>, budget: int, data: string, a: Outcome, b: Outcome)
    requires Reports(est, hints, budget, data, a) && Reports(est, hints, budget, data, b)
    ensures a.overflow == b.overflow && a.total == b.total && a.matched == b.matched && a.reason == b.reason
    ensures a.matched ==>
              && a.matchLine == b.matchLine && a.matchStart == b.matchStart && |a.window| == |b.window|
              && forall i | 0 <= i < |a.window| && i != a.matchLine - a.matchStart :: a.window[i] == b.window[i]
    ensures a.matched && |ScannedLines(data)[a.matchLine]| <= MAX_LINE ==> a.window == b.window && a.term == b.term
    ensures (a.overflow && a.matched ==> |ScannedLines(data)[a.matchLine]| <= MAX_LINE) ==> a.body == b.body
  {
    hide FragmentOf, Tails, ScannedLines, StreamExcerpt, MatchedLine, Trim, StreamWindow;
    if a.matched {
      SameBut(a.window, b.window, a.matchLine - a.matchStart);
    }
  }

  lemma SameBut<T>(a: seq<T>, b: seq<T>, at: nat)
    requires at < |a| == |b| && a[..at] == b[..at] && a[at + 1..] == b[at + 1..]
    ensures forall i | 0 <= i < |a| && i != at :: a[i] == b[i]
  {
    forall i | 0 <= i < |a| && i != at ensures a[i] == b[i] {
      if i < at { assert a[..at][i] == b[..at][i]; } else { assert a[at + 1..][i - at - 1] == b[at + 1..][i - at - 1]; }
    }
  }

  // ---------------------------------------------------------------- streaming against batch

  lemma WidestFitCongruent(a: nat -> string, b: nat -> string, est: Estimator, radius: nat, budget: int)
    requires forall k: nat | k <= radius :: a(k) == b(k)
    ensures WidestFit(a, est, radius, budget) == WidestFit(b, est, radius, budget)
  {
  }

  /** `cut` holds the lines of `full` within the radius of the match, at their places. */
  ghost predicate CutOf(full: Window, cut: Window) {
    && full.base == 0 && cut.total == full.total && cut.term == full.term
    && cut.base == Max(0, full.offset - LINE_RADIUS) && cut.offset == full.offset - cut.base
    && cut.lines == full.lines[cut.base..Min(|full.lines|, full.offset + 1 + LINE_RADIUS)]
  }

  lemma CutPlaces(full: Window, cut: Window, radius: nat)
    requires CutOf(full, cut) && radius <= LINE_RADIUS
    ensures full.base + From(full, radius) == cut.base + From(cut, radius)
    ensures full.base + To(full, radius) == cut.base + To(cut, radius)
    ensures From(cut, radius) <= To(cut, radius) <= |cut.lines|
    ensures cut.base <= Min(|full.lines|, full.offset + 1 + LINE_RADIUS)
  {
  }

  lemma CutLines(est: Estimator, full: Window, cut: Window, budget: int, radius: nat)
    requires CutOf(full, cut) && radius <= LINE_RADIUS
    ensures Shown(est, full, budget, radius) == Shown(est, cut, budget, radius)
  {
    CutPlaces(full, cut, radius);
    var to: nat := Min(|full.lines|, full.offset + 1 + LINE_RADIUS);
    var a, b := From(cut, radius), To(cut, radius);
    assert to <= |full.lines| && cut.lines == full.lines[cut.base..to];
    hide TrimMatchedLine, From, To, Min, Max, CutOf;
    SliceOfSlice(full.lines, cut.base, to, a, b);
    assert cut.lines[cut.offset] == full.lines[full.offset];
  }

  lemma CutShows(est: Estimator, full: Window, cut: Window, budget: int, radius: nat)
    requires CutOf(full, cut) && radius <= LINE_RADIUS
    ensures ExcerptAt(est, full, budget, radius) == ExcerptAt(est, cut, budget, radius)
  {
    hide Render, Shown, From, To;
    CutLines(est, full, cut, budget, radius);
    CutPlaces(full, cut, radius);
  }

  lemma CutWidest(est: Estimator, full: Window, cut: Window, budget: int)
    requires CutOf(full, cut)
    ensures WidestExcerpt(est, full, budget) == WidestExcerpt(est, cut, budget)
  {
    hide ExcerptAt;
    assert MaxRadius(full) == MaxRadius(cut) <= LINE_RADIUS;
    forall k: nat | k <= MaxRadius(full) ensures Excerpts(est, full, budget)(k) == Excerpts(est, cut, budget)(k) {
      CutShows(est, full, cut, budget, k);
    }
    WidestFitCongruent(Excerpts(est, full, budget), Excerpts(est, cut, budget), est, MaxRadius(full), budget);
  }

  lemma {:induction false} LastLineEnds(data: string)
    requires data != "" && data[|data| - 1] != '\n'
    ensures var lines := SplitLines(data); lines[|lines| - 1] != ""
  {
    if |data| > 1 { LastLineEnds(data[1..]); }
  }

  lemma TrimmedLines(data: string)
    requires Trim(data) == data && data != ""
    ensures ScannedLines(data) == SplitLines(data)
  {
    TrimShape(data);
    LastLineEnds(data);
  }

  /** Streaming refines batch: for a body with nothing to trim and no line too long to keep, whatever the
      batch search finds within a positive budget, an overflowed scan of it prints, character for character. */
  lemma StreamingRefinesBatch(est: Estimator, hints: seq<string>, budget: int, data: string, o: Outcome)
    requires Reports(est, hints, budget, data, o) && o.overflow && budget > 0
    requires Trim(data) == data
    requires forall i | 0 <= i < |SplitLines(data)| :: |SplitLines(data)[i]| <= MAX_LINE
    requires BodyWindow(data, hints).Some? && WidestExcerpt(est, BodyWindow(data, hints).value, budget).Some?
    ensures o.body == WidestExcerpt(est, BodyWindow(data, hints).value, budget).value && o.reason == Complete
  {
    hide WidestExcerpt, HalfBudgetExcerpt, FirstHint, ToLower, SplitLines, WindowOf, MatchedLine, CutOf, Trim, BufferCap;
    TrimmedLines(data);
    StreamWindowCuts(data, hints);
    CutWidest(est, BodyWindow(data, hints).value, StreamWindow(SplitLines(data), hints).value, budget);
  }

  /** The window a scanner keeps of lines short enough is cut out of the window of the whole body. */
  lemma StreamWindowCuts(data: string, hints: seq<string>)
    requires Trim(data) == data && forall i | 0 <= i < |SplitLines(data)| :: |SplitLines(data)[i]| <= MAX_LINE
    ensures var lines := SplitLines(data); var m := MatchedLine(lines, hints);
            && (BodyWindow(data, hints).Some? <==> m < |lines|)
            && (m < |lines| ==>
                  && |lines[m]| <= MAX_LINE && StreamWindow(lines, hints).Some?
                  && CutOf(BodyWindow(data, hints).value, StreamWindow(lines, hints).value))
  {
    hide FirstHint, ToLower, SplitLines, Trim;
    var lines := SplitLines(data);
    var m := MatchedLine(lines, hints);
    if m < |lines| {
      var from, to := Max(0, m - LINE_RADIUS), Min(|lines|, m + 1 + LINE_RADIUS);
      assert Tails(lines[from..to]) == lines[from..to];
    }
  }
}
