/**
 Shrinking a printed excerpt to a smaller budget, and when what is left still says how many lines there were.
 */
module Shrink {
  import opened Text
  import opened Excerpt
  import Tokens

  /** `shown` stands for lines `[from, to)` of the window, a run that holds the matched line: the lines
      themselves, or the matched line alone, trimmed for budget `b`. */
  ghost predicate ShowsRun(est: Estimator, w: Window, from: nat, to: nat, shown: seq<string>, b: int) {
    && from <= w.offset < to <= |w.lines|
    && (|| shown == w.lines[from..to]
        || (from == w.offset && to == from + 1 && shown == [TrimMatchedLine(est, w.lines[w.offset], w.term, b)]))
  }

  lemma ShrunkWindowShows(est: Estimator, w: Window, budget: int)
    returns (from: nat, to: nat, shown: seq<string>, b: int)
    requires ShrunkWindow(est, w, budget).Some?
    ensures ShowsRun(est, w, from, to, shown, b) && (b == budget || b == budget / 2)
    ensures ShrunkWindow(est, w, budget) == Some(Printed(w, from, to, shown))
    ensures est(Printed(w, from, to, shown)) <= budget
  {
    var text := Excerpts(est, w, budget);
    var wide := WidestFit(text, est, MaxRadius(w), budget);
    hide TrimMatchedLine, Printed, WidestFit;
    if wide.Some? {
      var k: nat :| k <= MaxRadius(w) && wide.value == text(k) && est(text(k)) <= budget;
      from, to, shown, b := From(w, k), To(w, k), Shown(est, w, budget, k), budget;
    } else {
      from, to, b := w.offset, w.offset + 1, budget / 2;
      shown := [TrimMatchedLine(est, w.lines[w.offset], w.term, b)];
    }
  }

  lemma ParsedLocates(body: string, w: Window, hints: seq<string>)
    requires w.term != ""
    requires Parse(body) == Some(MatchedExcerpt(w.term, w.base + w.offset, w.total, w.base, w.lines))
    ensures LocatedWindow(Parse(body).value, hints) == Some(w)
  {
    hide Parse;
  }

  lemma PrintedParses(w: Window)
    requires Recoverable(w.lines, w.term, w.base + w.offset, w.total, w.base, w.base + |w.lines|)
    ensures Parse(Printed(w, 0, |w.lines|, w.lines))
         == Some(MatchedExcerpt(w.term, w.base + w.offset, w.total, w.base, w.lines))
  {
    hide Parse, Render;
    RoundTrip(w.lines, w.term, w.base + w.offset, w.total, w.base, w.base + |w.lines|);
  }

  // ---------------------------------------------------------------- reading a shrunk excerpt

  /** What the marker after the shown lines says is left out there; 0 without one. */
  function OmittedAfter(body: string): nat {
    var (_, content) := DropBefore(SplitLines(Trim(body))[1..]);
    if content == [] then 0
    else match ParseOmitted(content[|content| - 1], "after")
         case Some(count) => count
         case None => 0
  }

  /** Reading the text gives back the printed run: its term, line and total, where it starts, and its lines. */
  ghost predicate ReadsBack(w: Window, from: nat, shown: seq<string>, text: string) {
    Parse(text) == Some(MatchedExcerpt(w.term, w.base + w.offset, w.total, w.base + from, shown))
  }

  /** Lines left out before, lines shown and lines left out after are all the lines there are. */
  ghost predicate AddsUp(text: string) {
    Parse(text).Some? && Parse(text).value.start + |Parse(text).value.lines| + OmittedAfter(text) == Parse(text).value.total
  }

  /** Each shown line is one line, none is shaped like a marker where a marker could stand, and the last one
      does not end in blanks where the text ends with it. */
  ghost predicate Legible(w: Window, from: nat, to: nat, shown: seq<string>) {
    && shown != [] && (forall i | 0 <= i < |shown| :: NoNewline(shown[i]))
    && (w.base + from == 0 ==> ParseOmitted(shown[0], "before").None?)
    && (w.base + to >= w.total ==>
          var last := shown[|shown| - 1];
          ParseOmitted(last, "after").None? && last != "" && !IsSpace(last[|last| - 1]))
  }

  ghost predicate Placed(w: Window) {
    PrintableTerm(w.term) && w.base + |w.lines| <= w.total <= MAX_INT
  }

  lemma LegibleReads(w: Window, from: nat, to: nat, shown: seq<string>)
    requires Placed(w) && from <= w.offset < to <= |w.lines| && Legible(w, from, to, shown)
    ensures ReadsBack(w, from, shown, Printed(w, from, to, shown))
    ensures OmittedAfter(Printed(w, from, to, shown)) == w.total - (w.base + to)
  {
    hide *;
    LegibleRecoverable(w, from, to, shown);
    PrintedIs(w, from, to, shown);
    RoundTrip(shown, w.term, w.base + w.offset, w.total, w.base + from, w.base + to);
    ReadsMeans(w, from, shown, Printed(w, from, to, shown));
    AfterReads(shown, w.term, w.base + w.offset, w.total, w.base + from, w.base + to);
  }

  lemma PrintedIs(w: Window, from: nat, to: nat, shown: seq<string>)
    ensures Printed(w, from, to, shown) == Render(shown, w.term, w.base + w.offset, w.total, w.base + from, w.base + to)
  {
    hide Render;
  }

  lemma ReadsMeans(w: Window, from: nat, shown: seq<string>, text: string)
    ensures ReadsBack(w, from, shown, text) <==>
              Parse(text) == Some(MatchedExcerpt(w.term, w.base + w.offset, w.total, w.base + from, shown))
  {
    hide Parse;
  }

  lemma LegibleRecoverable(w: Window, from: nat, to: nat, shown: seq<string>)
    requires Placed(w) && from <= w.offset < to <= |w.lines| && Legible(w, from, to, shown)
    ensures Recoverable(shown, w.term, w.base + w.offset, w.total, w.base + from, w.base + to) && shown != []
    ensures w.base + to <= w.total
  {
    hide ParseOmitted, PrintableTerm, NoNewline, IsSpace;
  }

  lemma AfterReads(lines: seq<string>, term: string, lineIndex: nat, total: nat, start: nat, end: nat)
    requires Recoverable(lines, term, lineIndex, total, start, end) && lines != []
    ensures OmittedAfter(Render(lines, term, lineIndex, total, start, end)) == if end < total then total - end else 0
  {
    hide Parse, Render, RenderParts, Header, Omitted, ParseOmitted, SplitLines, Trim, DropBefore, PrintableTerm;
    RenderedSplit(lines, term, lineIndex, total, start, end);
    PartsTail(lines, term, lineIndex, total, start, end);
    DropMarkers(lines, start, end, total);
    if end < total { ParseOmittedRendered(total - end, "after"); }
  }

  lemma PartsTail(lines: seq<string>, term: string, lineIndex: nat, total: nat, start: nat, end: nat)
    ensures RenderParts(lines, term, lineIndex, total, start, end) != []
    ensures RenderParts(lines, term, lineIndex, total, start, end)[1..]
         == (if start > 0 then [Omitted(start, "before")] else []) + lines
            + (if end < total then [Omitted(total - end, "after")] else [])
  {
    hide Header, Omitted;
  }

  /** The header is read whatever stands below it. */
  lemma FirstLineStays(h: string, rest: seq<string>)
    requires NoNewline(h) && h != "" && !IsSpace(h[0]) && !IsSpace(h[|h| - 1])
    ensures SplitLines(Trim(JoinLines([h] + rest)))[0] == h
  {
    var s := JoinLines([h] + rest);
    var i, j := TrimBounds(s);
    hide Trim;
    if rest == [] {
      assert s == h;
      SplitNoNewline(h);
      assert i == 0 && j == |h| && s[i..j] == h;
    } else {
      var below := JoinLines(rest);
      assert ([h] + rest)[1..] == rest;
      assert s == h + "\n" + below;
      assert s[0] == h[0] && s[|h| - 1] == h[|h| - 1];
      assert i == 0 && |h| <= j;
      SplitNoNewline(h);
      hide JoinLines, SplitLines;
      if j == |h| {
        assert s[..j] == h;
      } else {
        assert s[..j] == h + "\n" + below[..j - |h| - 1];
        SplitAtNewline(h, below[..j - |h| - 1]);
      }
    }
  }

  lemma HeaderReads(w: Window, from: nat, to: nat, shown: seq<string>)
    requires Placed(w)
    ensures var p := Parse(Printed(w, from, to, shown));
            p.Some? && p.value.term == w.term && p.value.lineIndex == w.base + w.offset && p.value.total == w.total
  {
    hide *;
    var h := Header(w.term, w.base + w.offset, w.total);
    assert PrintableTerm(w.term) && w.base + w.offset < w.total <= MAX_INT by { PlacedMeans(w); }
    HeaderLine(w.term, w.base + w.offset, w.total);
    ParseLineHeader(w.term, w.base + w.offset, w.total);
    ParseTermHeader(w.term, w.base + w.offset, w.total);
    PrintedBelow(w, from, to, shown);
    BracketsNotBlank();
    var rest := RenderParts(shown, w.term, w.base + w.offset, w.total, w.base + from, w.base + to)[1..];
    FirstLineStays(h, rest);
    ParseFirstLine(Printed(w, from, to, shown), h, (w.base + w.offset, w.total));
  }

  lemma PlacedMeans(w: Window)
    requires Placed(w)
    ensures PrintableTerm(w.term) && w.base + w.offset < w.total <= MAX_INT
  {
    hide PrintableTerm;
  }

  lemma BracketsNotBlank()
    ensures !IsSpace('[') && !IsSpace(']')
  {
  }

  lemma PrintedBelow(w: Window, from: nat, to: nat, shown: seq<string>)
    ensures var parts := RenderParts(shown, w.term, w.base + w.offset, w.total, w.base + from, w.base + to);
            parts != [] && Printed(w, from, to, shown) == JoinLines([Header(w.term, w.base + w.offset, w.total)] + parts[1..])
  {
    hide Header, Omitted, JoinLines;
    var parts := RenderParts(shown, w.term, w.base + w.offset, w.total, w.base + from, w.base + to);
    assert parts == [Header(w.term, w.base + w.offset, w.total)] + parts[1..];
  }

  lemma ParseFirstLine(text: string, h: string, position: (nat, nat))
    requires SplitLines(Trim(text))[0] == h && HasPrefix(h, HEADER_PREFIX) && ParseLine(h) == Some(position)
    ensures var p := Parse(text);
            p.Some? && p.value.term == ParseTerm(h) && p.value.lineIndex == position.0 && p.value.total == position.1
  {
    hide Trim, SplitLines, ParseLine, ParseTerm, DropBefore, DropAfter, HasPrefix;
  }

  /** The markers around a matched line that is shown alone. */
  function MarkersBefore(w: Window): seq<string> {
    if w.base + w.offset > 0 then [Omitted(w.base + w.offset, "before")] else []
  }

  function MarkersAfter(w: Window): seq<string> {
    if w.base + w.offset + 1 < w.total then [Omitted(w.total - (w.base + w.offset + 1), "after")] else []
  }

  /** A line that is shown alone, on one line, and would be taken for a marker or for nothing, does not read back. */
  lemma IllegibleDoesNotRead(w: Window, x: string)
    requires Placed(w) && NoNewline(x) && (x != "" ==> !IsSpace(x[|x| - 1]))
    requires !Legible(w, w.offset, w.offset + 1, [x])
    ensures !ReadsBack(w, w.offset, [x], Printed(w, w.offset, w.offset + 1, [x]))
  {
    hide *;
    var before, after := MarkersBefore(w), MarkersAfter(w);
    var header := Header(w.term, w.base + w.offset, w.total);
    var text := Printed(w, w.offset, w.offset + 1, [x]);
    var kept := if x == "" && after == [] then before else before + [x] + after;
    NothingLeft(w, x);
    MarkersRead(w);
    SingleText(w, x);
    if x == "" && after == [] {
      EmptyLineLost(w, before);
    } else {
      SingleSplit(w, before, x, after);
    }
    PlacedMeans(w);
    HeaderLine(w.term, w.base + w.offset, w.total);
    ParseLineHeader(w.term, w.base + w.offset, w.total);
    ParseFrom(text, header, kept, (w.base + w.offset, w.total));
    DoesNotReadBack(w, x, text);
  }

  lemma DoesNotReadBack(w: Window, x: string, text: string)
    requires Parse(text).Some? && Parse(text).value.lines == []
    ensures !ReadsBack(w, w.offset, [x], text)
  {
    hide Parse;
  }

  lemma SingleText(w: Window, x: string)
    ensures Printed(w, w.offset, w.offset + 1, [x])
         == JoinLines([Header(w.term, w.base + w.offset, w.total)] + (MarkersBefore(w) + [x] + MarkersAfter(w)))
  {
    hide Header, Omitted, JoinLines;
    PrintedBelow(w, w.offset, w.offset + 1, [x]);
    PartsTail([x], w.term, w.base + w.offset, w.total, w.base + w.offset, w.base + w.offset + 1);
  }

  /** One marker is read as one, and is one line that does not end in blanks. */
  lemma MarkerReads(count: nat, direction: string)
    requires count <= MAX_INT && (direction == "before" || direction == "after")
    ensures var m := Omitted(count, direction);
            ParseOmitted(m, direction).Some? && NoNewline(m) && m != "" && !IsSpace(m[|m| - 1])
  {
    assert NoNewline(direction);
    hide Omitted, ParseOmitted, NoNewline, IsSpace;
    BracketsNotBlank();
    OmittedLine(count, direction);
    ParseOmittedRendered(count, direction);
  }

  /** At most one marker, read as one, and one line that does not end in blanks. */
  ghost predicate IsMarker(markers: seq<string>, direction: string) {
    && |markers| <= 1
    && (markers != [] ==>
          var m := markers[0]; ParseOmitted(m, direction).Some? && NoNewline(m) && m != "" && !IsSpace(m[|m| - 1]))
  }

  lemma MarkersRead(w: Window)
    requires Placed(w)
    ensures IsMarker(MarkersBefore(w), "before") && IsMarker(MarkersAfter(w), "after")
  {
    PlacedMeans(w);
    hide Omitted, ParseOmitted, NoNewline, IsSpace, PrintableTerm, Placed;
    MarkerReads(w.base + w.offset, "before");
    if w.base + w.offset + 1 < w.total { MarkerReads(w.total - (w.base + w.offset + 1), "after"); }
  }

  /** What is left of the content once the markers, and what is taken for one, are off. */
  lemma NothingLeft(w: Window, x: string)
    requires Placed(w) && NoNewline(x) && (x != "" ==> !IsSpace(x[|x| - 1]))
    requires !Legible(w, w.offset, w.offset + 1, [x])
    ensures var kept := if x == "" && MarkersAfter(w) == [] then MarkersBefore(w)
                        else MarkersBefore(w) + [x] + MarkersAfter(w);
            DropAfter(DropBefore(kept).1) == []
  {
    IllegibleWhy(w, x);
    MarkersRead(w);
    hide *;
    if x == "" && MarkersAfter(w) == [] {
      OnlyMarkers(MarkersBefore(w));
    } else {
      MarkerTaken(x, MarkersBefore(w), MarkersAfter(w));
    }
  }

  lemma IllegibleWhy(w: Window, x: string)
    requires NoNewline(x) && (x != "" ==> !IsSpace(x[|x| - 1])) && w.offset < |w.lines|
    requires !Legible(w, w.offset, w.offset + 1, [x])
    ensures || (x == "" && MarkersAfter(w) == [])
            || (MarkersBefore(w) == [] && ParseOmitted(x, "before").Some?)
            || (MarkersAfter(w) == [] && ParseOmitted(x, "after").Some?)
  {
    hide Omitted, ParseOmitted, NoNewline, IsSpace;
  }

  lemma MarkerLines(markers: seq<string>, direction: string)
    requires IsMarker(markers, direction)
    ensures forall m | m in markers :: NoNewline(m) && m != "" && !IsSpace(m[|m| - 1])
  {
    hide ParseOmitted, NoNewline, IsSpace;
  }

  lemma OnlyMarkers(before: seq<string>)
    requires IsMarker(before, "before")
    ensures DropAfter(DropBefore(before).1) == []
  {
    hide ParseOmitted;
  }

  /** A shown line in the place of a marker and shaped like one is taken off. */
  lemma MarkerTaken(x: string, before: seq<string>, after: seq<string>)
    requires IsMarker(before, "before") && IsMarker(after, "after")
    requires (before == [] && ParseOmitted(x, "before").Some?) || (after == [] && ParseOmitted(x, "after").Some?)
    ensures DropAfter(DropBefore(before + [x] + after).1) == []
  {
    hide ParseOmitted, NoNewline, IsSpace;
    var content := before + [x] + after;
    if before == [] {
      assert content == [x] + after && content[1..] == after;
    } else {
      assert content[0] == before[0] && content[1..] == [x] + after;
    }
  }

  lemma SingleSplit(w: Window, before: seq<string>, x: string, after: seq<string>)
    requires NoNewline(x) && IsMarker(before, "before") && IsMarker(after, "after")
    requires after == [] ==> x != "" && !IsSpace(x[|x| - 1])
    ensures var header := Header(w.term, w.base + w.offset, w.total);
            SplitLines(Trim(JoinLines([header] + (before + [x] + after)))) == [header] + (before + [x] + after)
  {
    hide *;
    MarkerLines(before, "before");
    MarkerLines(after, "after");
    var header := Header(w.term, w.base + w.offset, w.total);
    HeaderLine(w.term, w.base + w.offset, w.total);
    BracketsNotBlank();
    var rest := before + [x] + after;
    var last := rest[|rest| - 1];
    assert last == if after == [] then x else after[|after| - 1];
    SplitTrimmed(header, rest);
  }

  /** Lines that neither begin nor end in blanks are read back from their join. */
  lemma SplitTrimmed(h: string, rest: seq<string>)
    requires NoNewline(h) && h != "" && !IsSpace(h[0]) && !IsSpace(h[|h| - 1])
    requires forall m | m in rest :: NoNewline(m)
    requires rest != [] ==> var last := rest[|rest| - 1]; last != "" && !IsSpace(last[|last| - 1])
    ensures SplitLines(Trim(JoinLines([h] + rest))) == [h] + rest
    ensures Trim(JoinLines([h] + rest)) == JoinLines([h] + rest)
  {
    var parts := [h] + rest;
    hide NoNewline, IsSpace, SplitLines, Trim;
    SplitJoin(parts);
    JoinLast(parts);
    assert JoinLines(parts)[0] == h[0];
    TrimFixed(JoinLines(parts));
  }

  lemma EmptyLineLost(w: Window, before: seq<string>)
    requires IsMarker(before, "before")
    ensures var header := Header(w.term, w.base + w.offset, w.total);
            SplitLines(Trim(JoinLines([header] + (before + [""] + [])))) == [header] + before
  {
    hide *;
    MarkerLines(before, "before");
    var header := Header(w.term, w.base + w.offset, w.total);
    HeaderLine(w.term, w.base + w.offset, w.total);
    BracketsNotBlank();
    SplitTrimmed(header, before);
    var parts := [header] + before;
    assert [header] + (before + [""] + []) == parts + [""];
    var last := parts[|parts| - 1];
    assert last != "" && !IsSpace(last[|last| - 1]);
    JoinedEnds(parts);
    JoinedEmpty(parts);
    NewlineTrimmed(JoinLines(parts));
  }

  lemma JoinedEnds(parts: seq<string>)
    requires parts != [] && parts[0] != "" && var last := parts[|parts| - 1]; last != "" && !IsSpace(last[|last| - 1])
    requires !IsSpace(parts[0][0])
    ensures var s := JoinLines(parts); s != "" && !IsSpace(s[0]) && !IsSpace(s[|s| - 1])
  {
    hide IsSpace;
    JoinLast(parts);
    assert JoinLines(parts)[0] == parts[0][0];
  }

  lemma JoinedEmpty(parts: seq<string>)
    requires parts != []
    ensures JoinLines(parts + [""]) == JoinLines(parts) + "\n"
  {
    JoinAt(parts + [""], |parts|);
    assert (parts + [""])[..|parts|] == parts && (parts + [""])[|parts|..] == [""];
    assert JoinLines([""]) == "";
  }

  lemma NewlineTrimmed(s: string)
    requires s != "" && !IsSpace(s[0]) && !IsSpace(s[|s| - 1])
    ensures Trim(s + "\n") == s
  {
    var t := s + "\n";
    assert TrimLeft(t) == t && t[..|t| - 1] == s && IsSpace(t[|t| - 1]);
    assert TrimRight(t) == TrimRight(s) == s;
  }

  // ---------------------------------------------------------------- what becomes of the matched line

  lemma NoNewlineSlice(s: string, i: nat, j: nat)
    requires i <= j <= |s| && NoNewline(s)
    ensures NoNewline(s[i..j]) && NoNewline(Trim(s[i..j])) && NoNewline(Trim(s))
  {
    var a, b := TrimBounds(s[i..j]);
    var c, d := TrimBounds(s);
    hide Trim;
  }

  lemma TrimEnds(s: string)
    ensures Trim(s) != "" ==> !IsSpace(Trim(s)[|Trim(s)| - 1])
  {
    TrimShape(s);
  }

  /** Uncut, the line is trimmed; cut around its term it is one line that no marker looks like; cut without its
      term it is broken over three lines. */
  lemma TrimmedLineShape(est: Estimator, text: string, term: string, budget: int)
    requires NoNewline(text)
    ensures var x := TrimMatchedLine(est, text, term, budget);
            var holds := Contains(ToLower(Trim(text)), ToLower(term));
            && (!CutDown(est, text, budget) ==> x == Trim(text))
            && (CutDown(est, text, budget) && holds ==>
                  && NoNewline(x) && x != "" && !IsSpace(x[|x| - 1])
                  && ParseOmitted(x, "before").None? && ParseOmitted(x, "after").None?)
            && (CutDown(est, text, budget) && !holds ==> !NoNewline(x))
  {
    var line := Trim(text);
    NoNewlineSlice(text, 0, |text|);
    if CutDown(est, text, budget) {
      if Contains(ToLower(line), ToLower(term)) {
        CutAroundTerm(est, text, term, budget);
      } else {
        var _, _ := CutWithoutTerm(est, text, term, budget);
      }
    }
  }

  lemma CutWithoutTerm(est: Estimator, text: string, term: string, budget: int) returns (head: nat, tail: nat)
    requires CutDown(est, text, budget) && !Contains(ToLower(Trim(text)), ToLower(term))
    ensures var line := Trim(text);
            && 0 < head && 0 < tail && head + tail < |line|
            && TrimMatchedLine(est, text, term, budget) == Trim(line[..head]) + "\n...\n" + Trim(line[|line| - tail..])
    ensures !NoNewline(TrimMatchedLine(est, text, term, budget))
  {
    var line := Trim(text);
    TrimIdempotent(text);
    hide Trim, Contains;
    head := Max(budget * 2, 256) / 2;
    tail := Max(budget * 2, 256) - head;
    var a := Trim(line[..head]);
    assert TrimMatchedLine(est, text, term, budget)[|a|] == '\n';
  }

  lemma CutAroundTerm(est: Estimator, text: string, term: string, budget: int)
    requires NoNewline(text) && CutDown(est, text, budget) && Contains(ToLower(Trim(text)), ToLower(term))
    ensures var x := TrimMatchedLine(est, text, term, budget);
            && NoNewline(x) && x != "" && !IsSpace(x[|x| - 1])
            && ParseOmitted(x, "before").None? && ParseOmitted(x, "after").None?
  {
    var line := Trim(text);
    assert line != "" by { hide Trim; }
    hide *;
    var from, to, pre, post := CutText(est, text, term, budget);
    NoNewlineSlice(text, 0, |text|);
    TrimEnds(text);
    CutPieces(line, from, to, pre, post);
    var x := TrimMatchedLine(est, text, term, budget);
    assert x != "";
    DotsAreNoMarker(x, Trim(line[from..to]), pre, post, "before");
    DotsAreNoMarker(x, Trim(line[from..to]), pre, post, "after");
  }

  lemma CutText(est: Estimator, text: string, term: string, budget: int) returns (from: nat, to: nat, pre: string, post: string)
    requires CutDown(est, text, budget) && Contains(ToLower(Trim(text)), ToLower(term))
    ensures var line := Trim(text);
            && from < to <= |line| && to - from < |line|
            && pre == (if from > 0 then "..." else "") && post == (if to < |line| then "..." else "")
            && TrimMatchedLine(est, text, term, budget) == pre + Trim(line[from..to]) + post
  {
    hide Trim, Contains;
    var line := Trim(text);
    var w := Around(Index(ToLower(line), ToLower(term)), Max(budget * 2, 256), |line|);
    from, to := w.0, w.1;
    pre, post := if from > 0 then "..." else "", if to < |line| then "..." else "";
  }

  /** A piece of a line between dots is one line and does not end in blanks. */
  lemma CutPieces(line: string, from: nat, to: nat, pre: string, post: string)
    requires from < to <= |line| && NoNewline(line) && !IsSpace(line[|line| - 1])
    requires pre == (if from > 0 then "..." else "") && post == (if to < |line| then "..." else "")
    ensures var x := pre + Trim(line[from..to]) + post;
            NoNewline(x) && (x != "" ==> !IsSpace(x[|x| - 1]))
    ensures to == |line| ==> Trim(line[from..to]) != ""
  {
    NoNewlineSlice(line, from, to);
    if to == |line| {
      assert line[from..to][to - from - 1] == line[|line| - 1];
      LastKept(line[from..to]);
      TrimEnds(line[from..to]);
    }
    hide Trim;
  }

  lemma LastKept(s: string)
    requires s != "" && !IsSpace(s[|s| - 1])
    ensures Trim(s) != ""
  {
    TrimShape(s);
  }

  lemma DotsAreNoMarker(x: string, cut: string, pre: string, post: string, direction: string)
    requires x == pre + cut + post && (pre == "" || pre == "...") && (post == "" || post == "...")
    requires pre == "..." || post == "..."
    ensures ParseOmitted(x, direction).None?
  {
    var suffix := " lines " + direction + " match]";
    assert suffix[|suffix| - 1] == ']';
    if pre == "..." { assert x[0] == '.'; } else { assert x[|x| - 1] == '.'; }
    if |suffix| <= |x| { assert x[|x| - |suffix|..][|suffix| - 1] == x[|x| - 1]; }
  }

  /** The matched line can be shown alone, trimmed for budget `b`: cut, it must hold the term; uncut, its trimming
      must not be taken for a marker or for nothing. */
  ghost predicate LineReads(est: Estimator, w: Window, b: int) {
    var line := w.lines[w.offset];
    if CutDown(est, line, b) then Contains(ToLower(Trim(line)), ToLower(w.term))
    else Legible(w, w.offset, w.offset + 1, [Trim(line)])
  }

  lemma TrimmedEnds(est: Estimator, line: string, term: string, b: int)
    requires NoNewline(line)
    ensures var x := TrimMatchedLine(est, line, term, b); NoNewline(x) && x != "" ==> !IsSpace(x[|x| - 1])
  {
    TrimmedLineShape(est, line, term, b);
    TrimShape(line);
    hide TrimMatchedLine, CutDown, Trim, IsSpace, Contains, ToLower, ParseOmitted, NoNewline;
  }

  lemma BrokenIsIllegible(w: Window, x: string)
    ensures !NoNewline(x) ==> !Legible(w, w.offset, w.offset + 1, [x])
  {
    hide NoNewline, ParseOmitted;
    assert [x][0] == x;
  }

  lemma TrimmedReadsExactly(est: Estimator, w: Window, b: int)
    requires Placed(w) && NoNewline(w.lines[w.offset])
    ensures var shown := [TrimMatchedLine(est, w.lines[w.offset], w.term, b)];
            ReadsBack(w, w.offset, shown, Printed(w, w.offset, w.offset + 1, shown)) <==> LineReads(est, w, b)
  {
    var line := w.lines[w.offset];
    var x := TrimMatchedLine(est, line, w.term, b);
    hide *;
    LegibleAsReads(est, w, b);
    TrimmedEnds(est, line, w.term, b);
    BrokenIsIllegible(w, x);
    if !NoNewline(x) {
      BrokenDoesNotRead(w, x);
    } else if Legible(w, w.offset, w.offset + 1, [x]) {
      LegibleReads(w, w.offset, w.offset + 1, [x]);
    } else {
      IllegibleDoesNotRead(w, x);
    }
  }

  lemma LegibleAsReads(est: Estimator, w: Window, b: int)
    requires NoNewline(w.lines[w.offset])
    ensures Legible(w, w.offset, w.offset + 1, [TrimMatchedLine(est, w.lines[w.offset], w.term, b)]) <==> LineReads(est, w, b)
  {
    var line := w.lines[w.offset];
    TrimmedLineShape(est, line, w.term, b);
    hide TrimMatchedLine, CutDown, ParseOmitted, Contains, NoNewline, Trim;
  }

  lemma BrokenDoesNotRead(w: Window, x: string)
    requires !NoNewline(x)
    ensures !ReadsBack(w, w.offset, [x], Printed(w, w.offset, w.offset + 1, [x]))
  {
    hide NoNewline, Parse, Printed;
    var p := Parse(Printed(w, w.offset, w.offset + 1, [x]));
    if p.Some? && p.value.lines != [] {
      ParsedLinesAreLines(Printed(w, w.offset, w.offset + 1, [x]));
      assert NoNewline(p.value.lines[0]);
    }
  }

  lemma ParsedLinesAreLines(text: string)
    requires Parse(text).Some?
    ensures forall i | 0 <= i < |Parse(text).value.lines| :: NoNewline(Parse(text).value.lines[i])
  {
    hide Trim, ParseOmitted, ParseTerm, ParseLine;
  }

  /** A run of the window's own lines reads back as soon as the whole window does. */
  lemma RunReads(w: Window, from: nat, to: nat)
    requires from <= w.offset < to <= |w.lines| && w.base + |w.lines| <= w.total
    requires Recoverable(w.lines, w.term, w.base + w.offset, w.total, w.base, w.base + |w.lines|)
    ensures ReadsBack(w, from, w.lines[from..to], Printed(w, from, to, w.lines[from..to]))
    ensures OmittedAfter(Printed(w, from, to, w.lines[from..to])) == w.total - (w.base + to)
  {
    hide ParseOmitted, PrintableTerm;
    LegibleReads(w, from, to, w.lines[from..to]);
  }

  /** Shrinking a printed excerpt, when it succeeds: within budget; the same term, line and total; and a run of
      the same lines around the match. It reads back as that run, with the lines left out before and after it and
      the lines shown adding up to the total, if and only if the run is the window's own lines, or the matched
      line alone and either cut around its term or left whole and not taken for a marker or for nothing. */
  lemma ShrinkOfPrinted(est: Estimator, w: Window, hints: seq<string>, budget: int)
    returns (from: nat, to: nat, shown: seq<string>, b: int)
    requires w.term != "" && w.base + |w.lines| <= w.total
    requires Recoverable(w.lines, w.term, w.base + w.offset, w.total, w.base, w.base + |w.lines|)
    ensures var r := Shrunk(est, Printed(w, 0, |w.lines|, w.lines), hints, budget);
            r.Some? ==>
              && ShowsRun(est, w, from, to, shown, b) && (b == budget || b == budget / 2)
              && r.value == Printed(w, from, to, shown) && est(r.value) <= budget
              && var p := Parse(r.value);
                 && p.Some? && p.value.term == w.term && p.value.lineIndex == w.base + w.offset && p.value.total == w.total
                 && (ReadsBack(w, from, shown, r.value) <==> shown == w.lines[from..to] || LineReads(est, w, b))
                 && (ReadsBack(w, from, shown, r.value) ==> AddsUp(r.value))
  {
    var body := Printed(w, 0, |w.lines|, w.lines);
    PrintedParses(w);
    ParsedLocates(body, w, hints);
    var r := Shrunk(est, body, hints, budget);
    assert budget > 0 ==> r == ShrunkWindow(est, w, budget);
    hide Printed, ShrunkWindow, LineReads;
    if r.Some? {
      from, to, shown, b := ShrunkWindowShows(est, w, budget);
      HeaderReads(w, from, to, shown);
      ShownReads(est, w, from, to, shown, b);
    } else {
      from, to, shown, b := 0, 0, [], 0;
    }
  }

  /** What a caller can check beforehand: when the matched line holds the term, and its trimming is one line that is
      not taken for a marker, every excerpt it shrinks to reads back as the run it stands for and adds up. */
  lemma ShrinkAddsUp(est: Estimator, w: Window, hints: seq<string>, budget: int)
    returns (from: nat, to: nat, shown: seq<string>)
    requires w.term != "" && w.base + |w.lines| <= w.total
    requires Recoverable(w.lines, w.term, w.base + w.offset, w.total, w.base, w.base + |w.lines|)
    requires Contains(ToLower(Trim(w.lines[w.offset])), ToLower(w.term))
    requires Legible(w, w.offset, w.offset + 1, [Trim(w.lines[w.offset])])
    ensures var r := Shrunk(est, Printed(w, 0, |w.lines|, w.lines), hints, budget);
            r.Some? ==>
              && from <= w.offset < to <= |w.lines| && r.value == Printed(w, from, to, shown)
              && ReadsBack(w, from, shown, r.value) && AddsUp(r.value)
  {
    var b;
    from, to, shown, b := ShrinkOfPrinted(est, w, hints, budget);
    hide Shrunk, Printed, ReadsBack, AddsUp, Recoverable, Contains, Legible, Trim, CutDown, TrimMatchedLine, ToLower, Parse;
    assert LineReads(est, w, b);
  }

  lemma ShownReads(est: Estimator, w: Window, from: nat, to: nat, shown: seq<string>, b: int)
    requires ShowsRun(est, w, from, to, shown, b) && w.base + |w.lines| <= w.total
    requires Recoverable(w.lines, w.term, w.base + w.offset, w.total, w.base, w.base + |w.lines|)
    ensures var text := Printed(w, from, to, shown);
            && (ReadsBack(w, from, shown, text) <==> shown == w.lines[from..to] || LineReads(est, w, b))
            && (ReadsBack(w, from, shown, text) ==> AddsUp(text))
  {
    hide Parse, Printed, OmittedAfter, ParseOmitted, PrintableTerm, TrimMatchedLine;
    if shown == w.lines[from..to] {
      RunReads(w, from, to);
    } else {
      TrimmedReadsExactly(est, w, b);
      LegibleAsReads(est, w, b);
      if LineReads(est, w, b) { LegibleReads(w, from, to, shown); }
    }
  }

  /** A line that is cut without holding its term is shown as three, of a total of one. */
  lemma ShrinkMiscounts(est: Estimator, line: string, term: string, hints: seq<string>, budget: int)
    returns (r: Option<string>)
    requires PrintableTerm(term) && term != "" && NoNewline(line) && Trim(line) == line
    requires '[' !in line
    requires CutDown(est, line, budget) && !Contains(ToLower(line), ToLower(term))
    requires est(Printed(RawWindow.Window([line], 0, 0, 1, term), 0, 1, [TrimMatchedLine(est, line, term, budget)])) <= budget
    ensures r == Shrunk(est, Printed(RawWindow.Window([line], 0, 0, 1, term), 0, 1, [line]), hints, budget)
    ensures r.Some? && Parse(r.value).Some? && |Parse(r.value).value.lines| == 3 && Parse(r.value).value.total == 1
    ensures !AddsUp(r.value)
  {
    var w: Window := RawWindow.Window([line], 0, 0, 1, term);
    assert budget > 0 && line != "" by { hide Trim; }
    hide *;
    var x := TrimMatchedLine(est, line, term, budget);
    var body := Printed(w, 0, 1, [line]);
    var h, t := BrokenPieces(est, line, term, budget);
    TrimEnds(line);
    PlainRecoverable([line], term);
    ThreeRecoverable(h, t, term);
    PrintedParses(w);
    ParsedLocates(body, w, hints);
    r := Shrunk(est, body, hints, budget);
    LocatedShrinks(est, w, body, hints, budget);
    OneLineShrinks(est, w, budget);
    ThreeLines(w, x, h, t);
    PrintedIs(w, 0, 1, [h, "...", t]);
    RoundTrip([h, "...", t], term, 0, 1, 0, 1);
    ThreeOfOne(r.value);
  }

  lemma ThreeRecoverable(h: string, t: string, term: string)
    requires PrintableTerm(term)
    requires NoNewline(h) && '[' !in h && NoNewline(t) && '[' !in t && t != "" && !IsSpace(t[|t| - 1])
    ensures Recoverable([h, "...", t], term, 0, 1, 0, 1)
  {
    assert NoNewline("...") && '[' !in "...";
    hide *;
    PlainRecoverable([h, "...", t], term);
  }

  lemma ThreeOfOne(text: string)
    requires Parse(text).Some? && |Parse(text).value.lines| == 3 && Parse(text).value.total == 1
    ensures !AddsUp(text)
  {
    hide Parse, OmittedAfter;
  }

  lemma LocatedShrinks(est: Estimator, w: Window, body: string, hints: seq<string>, budget: int)
    requires budget > 0 && Parse(body).Some? && LocatedWindow(Parse(body).value, hints) == Some(w)
    ensures Shrunk(est, body, hints, budget) == ShrunkWindow(est, w, budget)
  {
    hide Parse, LocatedWindow, ShrunkWindow;
  }

  /** Lines without brackets, the last not ending in blanks, survive printing as a whole text. */
  lemma PlainRecoverable(lines: seq<string>, term: string)
    requires PrintableTerm(term) && lines != [] && forall i | 0 <= i < |lines| :: NoNewline(lines[i]) && '[' !in lines[i]
    requires var last := lines[|lines| - 1]; last != "" && !IsSpace(last[|last| - 1])
    ensures Recoverable(lines, term, 0, 1, 0, 1)
  {
    hide PrintableTerm;
    NoBracket(lines[0], "before");
    NoBracket(lines[|lines| - 1], "after");
    hide ParseOmitted;
  }

  lemma BrokenPieces(est: Estimator, line: string, term: string, budget: int) returns (h: string, t: string)
    requires NoNewline(line) && Trim(line) == line && '[' !in line
    requires CutDown(est, line, budget) && !Contains(ToLower(line), ToLower(term))
    ensures TrimMatchedLine(est, line, term, budget) == h + "\n...\n" + t
    ensures NoNewline(h) && '[' !in h && NoNewline(t) && '[' !in t && t != "" && !IsSpace(t[|t| - 1])
  {
    hide *;
    var head, tail := CutWithoutTerm(est, line, term, budget);
    TrimEnds(line);
    h, t := Trim(line[..head]), Trim(line[|line| - tail..]);
    assert line[..head] == line[0..head] && line[|line| - tail..] == line[|line| - tail..|line|];
    PieceShape(line, 0, head);
    PieceShape(line, |line| - tail, |line|);
  }

  lemma OneLineShrinks(est: Estimator, w: Window, budget: int)
    requires |w.lines| == 1
    requires est(Printed(w, 0, 1, [TrimMatchedLine(est, w.lines[0], w.term, budget)])) <= budget
    ensures ShrunkWindow(est, w, budget) == Some(Printed(w, 0, 1, [TrimMatchedLine(est, w.lines[0], w.term, budget)]))
  {
    hide Printed, TrimMatchedLine;
    assert MaxRadius(w) == 0 && From(w, 0) == 0 && To(w, 0) == 1;
  }

  lemma NoBracket(s: string, direction: string)
    requires '[' !in s
    ensures ParseOmitted(s, direction).None?
  {
    var prefix := "[omitted ";
    assert prefix[0] == '[';
    assert !HasPrefix(s, prefix);
  }

  lemma PieceShape(line: string, i: nat, j: nat)
    requires i <= j <= |line| && NoNewline(line) && '[' !in line
    ensures var p := Trim(line[i..j]);
            && NoNewline(p) && '[' !in p
            && (i < j && !IsSpace(line[j - 1]) ==> p != "" && !IsSpace(p[|p| - 1]))
  {
    var a, b := TrimBounds(line[i..j]);
    if i < j && !IsSpace(line[j - 1]) {
      assert line[i..j][j - i - 1] == line[j - 1];
      LastKept(line[i..j]);
      TrimEnds(line[i..j]);
    }
    var p := Trim(line[i..j]);
    hide Trim;
    SliceOfSlice(line, i, j, a, b);
    assert forall k | 0 <= k < |p| :: p[k] == line[i + a + k];
  }

  /** What is printed above and below the one line of a window. */
  function Above(w: Window): seq<string> {
    [Header(w.term, w.base + w.offset, w.total)] + (if w.base > 0 then [Omitted(w.base, "before")] else [])
  }

  function Below(w: Window): seq<string> {
    if w.base + 1 < w.total then [Omitted(w.total - (w.base + 1), "after")] else []
  }

  lemma PrintedAround(w: Window, shown: seq<string>)
    ensures Printed(w, 0, 1, shown) == JoinLines(Above(w) + shown + Below(w)) && Above(w) != []
  {
    hide Header, Omitted, JoinLines;
    assert RenderParts(shown, w.term, w.base + w.offset, w.total, w.base, w.base + 1) == Above(w) + shown + Below(w);
  }

  lemma ThreeLines(w: Window, x: string, h: string, t: string)
    requires x == h + "\n...\n" + t
    ensures Printed(w, 0, 1, [x]) == Printed(w, 0, 1, [h, "...", t])
  {
    JoinThree(h, t);
    JoinOne(x);
    hide *;
    PrintedAround(w, [x]);
    PrintedAround(w, [h, "...", t]);
    SameJoin(Above(w), [x], [h, "...", t], Below(w));
  }

  lemma JoinThree(h: string, t: string)
    ensures JoinLines([h, "...", t]) == h + "\n...\n" + t
  {
    assert [h, "...", t][1..] == ["...", t] && ["...", t][1..] == [t];
    assert JoinLines([t]) == t;
    assert JoinLines(["...", t]) == "..." + "\n" + t;
    assert JoinLines([h, "...", t]) == h + "\n" + ("..." + "\n" + t);
  }

  /** Joining sees no difference between lines and their own join. */
  lemma SameJoin(a: seq<string>, x: seq<string>, y: seq<string>, b: seq<string>)
    requires a != [] && x != [] && y != [] && JoinLines(x) == JoinLines(y)
    ensures JoinLines(a + x + b) == JoinLines(a + y + b)
  {
    JoinParts(a, x, b);
    JoinParts(a, y, b);
  }

  lemma JoinParts(a: seq<string>, x: seq<string>, b: seq<string>)
    requires a != [] && x != []
    ensures JoinLines(a + x + b)
         == if b == [] then JoinLines(a) + "\n" + JoinLines(x)
            else JoinLines(a) + "\n" + JoinLines(x) + "\n" + JoinLines(b)
  {
    hide JoinLines;
    JoinAt(a + x, |a|);
    assert (a + x)[..|a|] == a && (a + x)[|a|..] == x;
    if b == [] {
      assert a + x + b == a + x;
    } else {
      JoinAt(a + x + b, |a + x|);
      assert (a + x + b)[..|a + x|] == a + x && (a + x + b)[|a + x|..] == b;
    }
  }

  const PADDED_LINE := "a" + seq(6000, _ => ' ') + "a"

  /** Such an input, with the program's own estimate of tokens: two letters six thousand blanks apart, searched for
      a third one. */
  lemma MiscountInput() returns (w: Window, r: Option<string>)
    ensures w == RawWindow.Window([PADDED_LINE], 0, 0, 1, "b")
    ensures r == Shrunk(Tokens.Estimate, Printed(w, 0, 1, w.lines), [], 512)
    ensures r.Some? && Parse(r.value).Some? && |Parse(r.value).value.lines| == 3 && !AddsUp(r.value)
  {
    var line := PADDED_LINE;
    w := RawWindow.Window([line], 0, 0, 1, "b");
    TrimFixed(line);
    PaddedWithoutTerm();
    HintPrints("b");
    Tokens.BlanksCost("a", 6000, "a");
    assert CutDown(Tokens.Estimate, line, 512);
    PaddedCut();
    PaddedFits();
    hide TrimMatchedLine, Printed, Contains, Trim, CutDown, Tokens.Estimate;
    r := ShrinkMiscounts(Tokens.Estimate, line, "b", [], 512);
  }

  lemma PaddedWithoutTerm()
    ensures !Contains(ToLower(PADDED_LINE), ToLower("b")) && NoNewline(PADDED_LINE) && '[' !in PADDED_LINE
  {
    var lower := ToLower(PADDED_LINE);
    assert ToLower("b")[0] == 'b';
    forall k ensures !OccursAt(lower, ToLower("b"), k) {
      if 0 <= k && k + 1 <= |lower| { assert lower[k..k + 1][0] == lower[k] != 'b'; }
    }
  }

  lemma PaddedCut()
    requires CutDown(Tokens.Estimate, PADDED_LINE, 512) && Trim(PADDED_LINE) == PADDED_LINE
    requires !Contains(ToLower(PADDED_LINE), ToLower("b"))
    ensures TrimMatchedLine(Tokens.Estimate, PADDED_LINE, "b", 512) == "a" + "\n...\n" + "a"
  {
    hide Tokens.Estimate, Trim, CutDown;
    var head, tail := CutWithoutTerm(Tokens.Estimate, PADDED_LINE, "b", 512);
    OneVisible(PADDED_LINE[..head], 0);
    OneVisible(PADDED_LINE[|PADDED_LINE| - tail..], tail - 1);
  }

  lemma OneVisible(s: string, at: nat)
    requires at < |s| && s[at] == 'a' && forall i | 0 <= i < |s| && i != at :: IsSpace(s[i])
    ensures Trim(s) == "a"
  {
    TrimShape(s);
    var i, j := TrimBounds(s);
    hide Trim;
    assert i <= at < j;
    assert s[i..j][0] == s[i] && s[i..j][j - i - 1] == s[j - 1];
  }

  lemma PaddedFits()
    requires TrimMatchedLine(Tokens.Estimate, PADDED_LINE, "b", 512) == "a" + "\n...\n" + "a"
    ensures Tokens.Estimate(Printed(RawWindow.Window([PADDED_LINE], 0, 0, 1, "b"), 0, 1,
                                    [TrimMatchedLine(Tokens.Estimate, PADDED_LINE, "b", 512)])) <= 512
  {
    hide *;
    var x := "a" + "\n...\n" + "a";
    var w: Window := RawWindow.Window([PADDED_LINE], 0, 0, 1, "b");
    OneShown(w, x);
    ShortHeader();
    Tokens.EstimateAtMost(Printed(w, 0, 1, [x]));
  }

  lemma OneShown(w: Window, x: string)
    requires w.base == 0 && w.total == 1
    ensures Printed(w, 0, 1, [x]) == Header(w.term, w.offset, 1) + "\n" + x
  {
    hide Header, JoinLines;
    var h := Header(w.term, w.offset, 1);
    assert RenderParts([x], w.term, w.offset, 1, 0, 1) == [h, x];
    assert [h, x][..1] == [h] && [h, x][1..] == [x];
    JoinAt([h, x], 1);
    JoinOne(h);
    JoinOne(x);
  }

  lemma JoinOne(line: string)
    ensures JoinLines([line]) == line
  {
  }

  lemma ShortHeader()
    ensures |Header("b", 0, 1)| <= 100
  {
    assert |Decimal(1)| == 1;
    hide Decimal;
    assert |Quote("b")| == 3;
    hide Quote;
  }
}
