/**
 The canonical form of a system prompt, which is what a response is fingerprinted by: line endings, trailing
 blanks and the number of blank lines do not matter.
 */
module Prompt {
  import opened Text

  function WithoutCRLF(s: string): string {
    if |s| < 2 then s
    else if s[0] == '\r' && s[1] == '\n' then "\n" + WithoutCRLF(s[2..])
    else [s[0]] + WithoutCRLF(s[1..])
  }

  function WithoutCR(s: string): (r: string)
    ensures |r| == |s| && forall i | 0 <= i < |s| :: r[i] == if s[i] == '\r' then '\n' else s[i]
  {
    seq(|s|, i requires 0 <= i < |s| => if s[i] == '\r' then '\n' else s[i])
  }

  function TrimRightBlanks(s: string): (r: string)
    ensures r <= s && (r != "" ==> r[|r| - 1] !in {' ', '\t'})
    ensures r == s <==> s == "" || s[|s| - 1] !in {' ', '\t'}
  {
    if s == "" || s[|s| - 1] !in {' ', '\t'} then s else TrimRightBlanks(s[..|s| - 1])
  }

  predicate AtParagraphEnd(kept: seq<string>) { kept == [] || kept[|kept| - 1] == "" }

  function Extended(kept: seq<string>, line: string): seq<string> {
    if !IsBlank(line) then kept + [TrimRightBlanks(line)]
    else if AtParagraphEnd(kept) then kept
    else kept + [""]
  }

  /** Lines without trailing blanks, runs of blank lines made one, none at the start. */
  function Kept(lines: seq<string>): seq<string> {
    if lines == [] then [] else Extended(Kept(lines[..|lines| - 1]), lines[|lines| - 1])
  }

  function WithoutLastEmpty(lines: seq<string>): seq<string> {
    if lines != [] && lines[|lines| - 1] == "" then WithoutLastEmpty(lines[..|lines| - 1]) else lines
  }

  function Canonical(prompt: string): string {
    JoinLines(WithoutLastEmpty(Kept(SplitLines(WithoutCR(WithoutCRLF(prompt))))))
  }

  method CanonicalPrompt(prompt: string) returns (canonical: string)
    ensures canonical == Canonical(prompt)
  {
    var text := WithoutCR(WithoutCRLF(prompt));
    var lines := SplitLines(text);
    var out: seq<string> := [];
    var prevEmpty := true;
    for i := 0 to |lines|
      invariant out == Kept(lines[..i]) && prevEmpty == AtParagraphEnd(out)
    {
      assert lines[..i + 1][..i] == lines[..i];
      var line := TrimRightBlanks(lines[i]);
      TrimKeepsBlank(lines[i]);
      if IsBlank(line) {
        if prevEmpty { continue; }
        out := out + [""];
        prevEmpty := true;
        continue;
      }
      out := out + [line];
      prevEmpty := false;
    }
    assert lines[..|lines|] == lines;
    ghost var kept := out;
    while |out| > 0 && out[|out| - 1] == ""
      invariant WithoutLastEmpty(out) == WithoutLastEmpty(kept)
    {
      out := out[..|out| - 1];
    }
    canonical := JoinLines(out);
  }

  lemma {:induction false} TrimKeepsBlank(s: string)
    ensures IsBlank(TrimRightBlanks(s)) <==> IsBlank(s)
  {
    if s != "" && s[|s| - 1] in {' ', '\t'} {
      TrimKeepsBlank(s[..|s| - 1]);
      assert forall i | 0 <= i < |s| :: i < |s| - 1 ==> s[i] == s[..|s| - 1][i];
    }
  }

  // ---------------------------------------------------------------- what a canonical prompt looks like

  predicate TidyLine(line: string) {
    NoNewline(line) && '\r' !in line && (line == "" || (!IsBlank(line) && line[|line| - 1] !in {' ', '\t'}))
  }

  /** No blank line at the start and never two in a row. */
  predicate Tidy(lines: seq<string>) {
    && (forall i | 0 <= i < |lines| :: TidyLine(lines[i]))
    && (lines != [] ==> lines[0] != "")
    && (forall i | 0 < i < |lines| :: lines[i - 1] != "" || lines[i] != "")
  }

  predicate IsCanonical(s: string) {
    s == "" || (Tidy(SplitLines(s)) && SplitLines(s)[|SplitLines(s)| - 1] != "")
  }

  lemma {:induction false} SplitHasNoOther(s: string, c: char)
    requires c !in s
    ensures forall i | 0 <= i < |SplitLines(s)| :: c !in SplitLines(s)[i]
  {
    if s != "" { SplitHasNoOther(s[1..], c); }
  }

  lemma {:induction false} SplitHasEvery(s: string, c: char)
    requires c != '\n' && forall i | 0 <= i < |SplitLines(s)| :: c !in SplitLines(s)[i]
    ensures c !in s
  {
    if s != "" {
      var rest := SplitLines(s[1..]);
      var all := SplitLines(s);
      forall i | 0 <= i < |rest| ensures c !in rest[i] {
        if s[0] == '\n' { assert all[i + 1] == rest[i]; }
        else if i == 0 { assert all[0] == [s[0]] + rest[0]; }
        else { assert all[i] == rest[i]; }
      }
      SplitHasEvery(s[1..], c);
      assert s[0] != c by { if s[0] != '\n' { assert all[0][0] == s[0]; } }
      assert s == [s[0]] + s[1..];
    }
  }

  lemma {:induction false} KeptIsTidy(lines: seq<string>)
    requires forall i | 0 <= i < |lines| :: NoNewline(lines[i]) && '\r' !in lines[i]
    ensures Tidy(Kept(lines))
  {
    if lines != [] {
      KeptIsTidy(lines[..|lines| - 1]);
      var line := lines[|lines| - 1];
      TrimKeepsBlank(line);
      assert TidyLine(TrimRightBlanks(line)) || IsBlank(line);
    }
  }

  lemma {:induction false} StripIsTidy(lines: seq<string>)
    requires Tidy(lines)
    ensures var r := WithoutLastEmpty(lines); Tidy(r) && (r != [] ==> r[|r| - 1] != "")
  {
    if lines != [] && lines[|lines| - 1] == "" { StripIsTidy(lines[..|lines| - 1]); }
  }

  lemma CanonicalIsCanonical(prompt: string)
    ensures IsCanonical(Canonical(prompt))
  {
    var text := WithoutCR(WithoutCRLF(prompt));
    assert '\r' !in text;
    SplitHasNoOther(text, '\r');
    KeptIsTidy(SplitLines(text));
    var kept := Kept(SplitLines(text));
    StripIsTidy(kept);
    var r := WithoutLastEmpty(kept);
    if r != [] { SplitJoin(r); }
  }

  lemma {:induction false} TidyIsKept(lines: seq<string>)
    requires Tidy(lines)
    ensures Kept(lines) == lines
  {
    if lines != [] {
      var n := |lines| - 1;
      TidyIsKept(lines[..n]);
      assert lines == lines[..n] + [lines[n]];
      assert TidyLine(lines[n]);
    }
  }

  lemma {:induction false} NoCRUnchanged(s: string)
    requires '\r' !in s
    ensures WithoutCRLF(s) == s && WithoutCR(s) == s
  {
    if |s| >= 2 {
      NoCRUnchanged(s[1..]);
      assert s == [s[0]] + s[1..];
    }
  }

  /** Exactly the canonical texts are left alone, so making canonical twice is making canonical once. */
  lemma CanonicalFixed(s: string)
    ensures Canonical(s) == s <==> IsCanonical(s)
    ensures Canonical(Canonical(s)) == Canonical(s)
  {
    CanonicalIsCanonical(s);
    if IsCanonical(s) { CanonicalUnchanged(s); }
    CanonicalUnchanged(Canonical(s));
  }

  lemma CanonicalUnchanged(s: string)
    requires IsCanonical(s)
    ensures Canonical(s) == s
  {
    var lines := SplitLines(s);
    if s == "" {
      assert Kept([""]) == [];
    } else {
      forall i | 0 <= i < |lines| ensures '\r' !in lines[i] { assert TidyLine(lines[i]); }
      SplitHasEvery(s, '\r');
      NoCRUnchanged(s);
      TidyIsKept(lines);
      JoinSplit(s);
    }
  }

  // ---------------------------------------------------------------- what does not matter

  function WithEnding(s: string, ending: string): string {
    if s == "" then "" else (if s[0] == '\n' then ending else [s[0]]) + WithEnding(s[1..], ending)
  }

  lemma {:induction false} CRLFUndone(s: string)
    requires '\r' !in s
    ensures WithoutCRLF(WithEnding(s, "\r\n")) == s
  {
    if s != "" {
      CRLFUndone(s[1..]);
      var w := WithEnding(s[1..], "\r\n");
      assert WithEnding(s, "\r\n") == (if s[0] == '\n' then "\r\n" else [s[0]]) + w;
      if s[0] == '\n' {
        assert ("\r\n" + w)[2..] == w;
      } else {
        assert ([s[0]] + w)[1..] == w;
        assert w == "" ==> s[1..] == "";
      }
      assert s == [s[0]] + s[1..];
    }
  }

  lemma {:induction false} CRUndone(s: string)
    requires '\r' !in s
    ensures var w := WithEnding(s, "\r"); '\n' !in w && WithoutCRLF(w) == w && WithoutCR(w) == s
  {
    if s != "" {
      CRUndone(s[1..]);
      var v := WithEnding(s[1..], "\r");
      var c := if s[0] == '\n' then '\r' else s[0];
      assert WithEnding(s, "\r") == [c] + v;
      hide WithEnding;
      NoCRLFAfter(c, v);
      WithoutCRAfter(c, v);
      assert s == [s[0]] + s[1..];
    }
  }

  lemma NoCRLFAfter(c: char, v: string)
    requires c != '\n' && '\n' !in v && WithoutCRLF(v) == v
    ensures '\n' !in [c] + v && WithoutCRLF([c] + v) == [c] + v
  {
    assert ([c] + v)[1..] == v;
    assert v != "" ==> v[0] in v;
  }

  lemma WithoutCRAfter(c: char, v: string)
    ensures WithoutCR([c] + v) == [if c == '\r' then '\n' else c] + WithoutCR(v)
  {
    hide WithoutCR;
  }

  /** The line ending a prompt is written with does not matter. */
  lemma EndingsDoNotMatter(s: string)
    requires '\r' !in s
    ensures Canonical(WithEnding(s, "\r\n")) == Canonical(s) && Canonical(WithEnding(s, "\r")) == Canonical(s)
  {
    CRLFUndone(s);
    CRUndone(s);
    NoCRUnchanged(s);
  }

  /** Nor do blanks at the end of a line, or further blank lines next to a blank line. */
  lemma BlanksDoNotMatter(before: seq<string>, line: string, padding: string, after: seq<string>)
    requires forall i | 0 <= i < |padding| :: padding[i] in {' ', '\t'}
    ensures Kept(before + [line + padding] + after) == Kept(before + [line] + after)
    ensures IsBlank(line) ==> Kept(before + [line, padding] + after) == Kept(before + [line] + after)
    decreases |after|
  {
    if after == [] {
      PaddingTrimmed(line, padding);
      assert before + [line + padding] + after == before + [line + padding];
      assert before + [line] + after == before + [line];
      assert before + [line, padding] + after == before + [line] + [padding];
      KeptAppend(before, line);
      KeptAppend(before, line + padding);
      KeptAppend(before + [line], padding);
    } else {
      var n := |after| - 1;
      BlanksDoNotMatter(before, line, padding, after[..n]);
      assert before + [line + padding] + after == before + [line + padding] + after[..n] + [after[n]];
      assert before + [line] + after == before + [line] + after[..n] + [after[n]];
      assert before + [line, padding] + after == before + [line, padding] + after[..n] + [after[n]];
      KeptAppend(before + [line + padding] + after[..n], after[n]);
      KeptAppend(before + [line] + after[..n], after[n]);
      KeptAppend(before + [line, padding] + after[..n], after[n]);
    }
  }

  lemma KeptAppend(lines: seq<string>, line: string)
    ensures Kept(lines + [line]) == Extended(Kept(lines), line)
  {
    assert (lines + [line])[..|lines|] == lines;
  }

  lemma {:induction false} PaddingTrimmed(line: string, padding: string)
    requires forall i | 0 <= i < |padding| :: padding[i] in {' ', '\t'}
    ensures TrimRightBlanks(line + padding) == TrimRightBlanks(line)
    ensures IsBlank(line + padding) <==> IsBlank(line)
    decreases |padding|
  {
    if padding == "" {
      assert line + padding == line;
    } else {
      var n := |padding| - 1;
      PaddingTrimmed(line, padding[..n]);
      assert line + padding == line + padding[..n] + [padding[n]];
      assert (line + padding)[..|line| + n] == line + padding[..n];
      assert forall i | 0 <= i < |line| + n :: (line + padding)[i] == (line + padding[..n])[i];
    }
  }
}
