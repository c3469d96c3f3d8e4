/**
 The estimate of how many tokens a text costs. Words, punctuation, blanks and characters beyond ASCII are counted
 apart; line breaks and code signs cost a little more.
 */
module Tokens {
  import opened Text

  const ASCII_CHARS_PER_TOKEN := 4

  function CeilDiv(n: int, d: nat): nat
    requires d > 0
  {
    if n <= 0 then 0 else (n + d - 1) / d
  }

  lemma CeilDivBounds(n: nat, d: nat)
    requires d == 2 || d == 3 || d == 4 || d == 8
    ensures CeilDiv(n, d) <= n && CeilDiv(n, d) * d >= n
  {
    if d == 2 {} else if d == 3 {} else if d == 4 {}
  }

  /** Longer runs of letters and digits are less likely to be words a tokenizer knows. */
  function WordTokens(run: nat): nat {
    if run == 0 then 0
    else if run <= ASCII_CHARS_PER_TOKEN then 1
    else if run <= 32 then CeilDiv(run, ASCII_CHARS_PER_TOKEN)
    else if run <= 128 then CeilDiv(run, ASCII_CHARS_PER_TOKEN - 1)
    else CeilDiv(run, 2)
  }

  predicate IsWordChar(c: char) { 'a' <= c <= 'z' || 'A' <= c <= 'Z' || '0' <= c <= '9' }

  /** What is counted of a prefix; `run` is the length of the word it ends in. */
  datatype Counts = Counts(words: nat, run: nat, punct: nat, space: nat, nonASCII: nat, newlines: nat)
  {
    function Flushed(): Counts { this.(words := words + WordTokens(run), run := 0) }

    function With(c: char): Counts {
      if c == '\n' then var f := Flushed(); f.(newlines := f.newlines + 1, space := f.space + 1)
      else if c > '\U{007F}' then var f := Flushed(); f.(nonASCII := f.nonASCII + 1)
      else if IsWordChar(c) then this.(run := run + 1)
      else if IsSpace(c) then var f := Flushed(); f.(space := f.space + 1)
      else var f := Flushed(); f.(punct := f.punct + 1)
    }
  }

  function Tallied(text: string): Counts {
    if text == "" then Counts(0, 0, 0, 0, 0, 0) else Tallied(text[..|text| - 1]).With(text[|text| - 1])
  }

  /** Occurrences that do not overlap, from the left. */
  function Occurrences(text: string, sign: string): (n: nat)
    requires sign != ""
    ensures n <= |text|
    decreases |text|
  {
    var at := Index(text, sign);
    if at < 0 then 0 else 1 + Occurrences(text[at + |sign|..], sign)
  }

  function CodeSigns(text: string): nat {
    Occurrences(text, "{") + Occurrences(text, "}") + Occurrences(text, "(") + Occurrences(text, ")")
    + Occurrences(text, "[") + Occurrences(text, "]") + Occurrences(text, "=>") + Occurrences(text, "::")
  }

  function Estimate(text: string): nat {
    if text == "" then 0
    else
      var t := Tallied(text).Flushed();
      Max(1, t.words + CeilDiv(t.punct, 2) + CeilDiv(t.space, 8) + t.nonASCII + CeilDiv(t.newlines, 3)
             + CeilDiv(CodeSigns(text), 4))
  }

  method EstimateTokenCount(text: string) returns (total: nat)
    ensures total == Estimate(text)
  {
    hide CodeSigns, WordTokens;
    if |text| == 0 { return 0; }
    var words: nat, run: nat, punct: nat, space: nat, nonASCII: nat, newlines: nat := 0, 0, 0, 0, 0, 0;
    for i := 0 to |text|
      invariant Counts(words, run, punct, space, nonASCII, newlines) == Tallied(text[..i])
    {
      assert text[..i + 1][..i] == text[..i];
      var c := text[i];
      if c <= '\U{007F}' && IsWordChar(c) {
        run := run + 1;
        continue;
      }
      words, run := words + WordTokens(run), 0;
      if c == '\n' {
        newlines, space := newlines + 1, space + 1;
      } else if c > '\U{007F}' {
        nonASCII := nonASCII + 1;
      } else if IsSpace(c) {
        space := space + 1;
      } else {
        punct := punct + 1;
      }
    }
    assert text[..|text|] == text;
    words := words + WordTokens(run);
    total := words + CeilDiv(punct, 2) + CeilDiv(space, 8) + nonASCII + CeilDiv(newlines, 3) + CeilDiv(CodeSigns(text), 4);
    if total < 1 { return 1; }
  }

  lemma {:induction false} TalliedAtMost(text: string)
    ensures var t := Tallied(text); t.words + t.run + t.punct + t.space + t.nonASCII <= |text| && t.newlines <= t.space
  {
    hide WordTokens;
    if text != "" {
      TalliedAtMost(text[..|text| - 1]);
      WordAtMost(Tallied(text[..|text| - 1]).run);
    }
  }

  lemma WordAtMost(run: nat)
    ensures WordTokens(run) <= run
  {
    CeilDivBounds(run, 2);
    CeilDivBounds(run, 3);
    CeilDivBounds(run, 4);
    hide CeilDiv;
  }

  /** A text costs no more than four tokens a character. */
  lemma EstimateAtMost(text: string)
    ensures Estimate(text) <= 4 * |text|
  {
    TalliedAtMost(text);
    WordAtMost(Tallied(text).run);
    var t := Tallied(text).Flushed();
    CeilDivBounds(t.punct, 2);
    CeilDivBounds(t.space, 8);
    CeilDivBounds(t.newlines, 3);
    SignsAtMost(text);
    hide WordTokens, CodeSigns, Tallied, CeilDiv;
  }

  lemma SignsAtMost(text: string)
    ensures CeilDiv(CodeSigns(text), 4) <= 2 * |text|
  {
    hide Occurrences;
  }

  lemma {:induction false} TalliedBlanks(text: string, n: nat)
    requires n <= |text| && forall i | |text| - n <= i < |text| :: text[i] == ' '
    ensures Tallied(text).space >= n
    decreases n
  {
    if n > 0 { TalliedBlanks(text[..|text| - 1], n - 1); }
  }

  /** Blanks are cheap, but a long stretch of them is not free. */
  lemma BlanksCost(before: string, n: nat, after: string)
    requires |after| == 1
    ensures Estimate(before + seq(n, _ => ' ') + after) * 8 >= n
  {
    var text := before + seq(n, _ => ' ') + after;
    var kept := text[..|text| - 1];
    assert kept == before + seq(n, _ => ' ');
    TalliedBlanks(kept, n);
    CeilDivBounds(Tallied(text).Flushed().space, 8);
    hide WordTokens, CodeSigns, CeilDiv;
    assert Tallied(text).Flushed().space >= n;
  }
}
