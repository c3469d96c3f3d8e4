/**
 Text helpers shared by the modules. Text is ASCII, one character per byte, so the source's
 byte lengths are sequence lengths.
 */
module Text {

  datatype Option<+T> = None | Some(value: T)

  function Min(a: int, b: int): int { if a < b then a else b }

  function Max(a: int, b: int): int { if a > b then a else b }

  predicate IsSpace(c: char) {
    c in {' ', '\t', '\n', '\U{000B}', '\U{000C}', '\r'}
  }

  predicate IsBlank(s: string) {
    forall i | 0 <= i < |s| :: IsSpace(s[i])
  }

  function TrimLeft(s: string): string {
    if s == "" || !IsSpace(s[0]) then s else TrimLeft(s[1..])
  }

  function TrimRight(s: string): string {
    if s == "" || !IsSpace(s[|s| - 1]) then s else TrimRight(s[..|s| - 1])
  }

  function Trim(s: string): string { TrimRight(TrimLeft(s)) }

  lemma {:induction false} TrimLeftShape(s: string)
    ensures var r := TrimLeft(s);
            && |r| <= |s| && r == s[|s| - |r|..] && IsBlank(s[..|s| - |r|])
            && (r != "" ==> !IsSpace(r[0]))
  {
    if s != "" && IsSpace(s[0]) {
      TrimLeftShape(s[1..]);
      var r := TrimLeft(s);
      forall k | 0 <= k < |s| - |r| ensures IsSpace(s[k]) {
        if k > 0 { assert s[k] == s[1..][..|s| - 1 - |r|][k - 1]; }
      }
    }
  }

  lemma {:induction false} TrimRightShape(s: string)
    ensures var r := TrimRight(s);
            && r <= s && IsBlank(s[|r|..])
            && (r != "" ==> !IsSpace(r[|r| - 1]))
  {
    if s != "" && IsSpace(s[|s| - 1]) {
      var u := s[..|s| - 1];
      TrimRightShape(u);
      var r := TrimRight(s);
      forall k | |r| <= k < |s| ensures IsSpace(s[k]) {
        if k < |s| - 1 { assert s[k] == u[|r|..][k - |r|]; }
      }
      assert IsBlank(s[|r|..]);
    }
  }

  /** Trimming removes blank characters at both ends and nothing else. */
  lemma TrimShape(s: string)
    ensures exists i, j ::
              && 0 <= i <= j <= |s| && Trim(s) == s[i..j]
              && IsBlank(s[..i]) && IsBlank(s[j..])
    ensures Trim(s) == "" <==> IsBlank(s)
    ensures Trim(s) != "" ==> !IsSpace(Trim(s)[0]) && !IsSpace(Trim(s)[|Trim(s)| - 1])
  {
    TrimLeftShape(s);
    var l := TrimLeft(s);
    TrimRightShape(l);
    var t := TrimRight(l);
    var i := |s| - |l|;
    var j := i + |t|;
    assert t == s[i..j];
    assert l == s[i..];
    assert s[j..] == l[|t|..];
    if t == "" {
      assert l == "";
      assert s[..i] == s;
    } else {
      assert t[0] == l[0] == s[i];
    }
  }

  /** Text whose first and last characters are not blank is its own trimming. */
  lemma TrimFixed(s: string)
    requires s != "" ==> !IsSpace(s[0]) && !IsSpace(s[|s| - 1])
    ensures Trim(s) == s
  {
  }

  lemma TrimIdempotent(s: string)
    ensures Trim(Trim(s)) == Trim(s)
  {
    TrimShape(s);
    TrimFixed(Trim(s));
  }

  ghost predicate BlankTo(s: string, n: nat) { n <= |s| && forall x | 0 <= x < n :: IsSpace(s[x]) }

  lemma TrimBounds(s: string) returns (i: nat, j: nat)
    ensures i <= j <= |s| && Trim(s) == s[i..j] && BlankTo(s, i)
    ensures forall x | j <= x < |s| :: IsSpace(s[x])
    ensures i < j ==> !IsSpace(s[i])
  {
    TrimShape(s);
    i, j :| 0 <= i <= j <= |s| && Trim(s) == s[i..j] && IsBlank(s[..i]) && IsBlank(s[j..]);
    hide Trim;
    assert forall x | 0 <= x < i :: s[..i][x] == s[x];
    assert forall x | j <= x < |s| :: s[j..][x - j] == s[x];
    if i < j { assert s[i..j][0] == s[i]; }
  }

  function LowerChar(c: char): char {
    if 'A' <= c <= 'Z' then (c as int + 32) as char else c
  }

  function ToLower(s: string): (r: string)
    ensures |r| == |s|
    ensures forall i | 0 <= i < |s| :: r[i] == LowerChar(s[i])
  {
    seq(|s|, i requires 0 <= i < |s| => LowerChar(s[i]))
  }

  lemma ToLowerAppend(a: string, b: string)
    ensures ToLower(a + b) == ToLower(a) + ToLower(b)
  {
  }

  lemma ToLowerSlice(s: string, i: nat, j: nat)
    requires i <= j <= |s|
    ensures ToLower(s[i..j]) == ToLower(s)[i..j]
  {
  }

  predicate OccursAt(s: string, t: string, i: int) {
    0 <= i && i + |t| <= |s| && s[i..i + |t|] == t
  }

  predicate Contains(s: string, t: string) {
    exists i | 0 <= i <= |s| :: OccursAt(s, t, i)
  }

  /** First index of `t` in `s` at or after `from`; -1 when there is none. */
  function IndexFrom(s: string, t: string, from: nat): (r: int)
    ensures r >= 0 ==> from <= r && OccursAt(s, t, r) && forall k | from <= k < r :: !OccursAt(s, t, k)
    ensures r < 0 ==> r == -1 && forall k | from <= k :: !OccursAt(s, t, k)
    decreases |s| - from
  {
    if from + |t| > |s| then -1
    else if s[from..from + |t|] == t then from
    else IndexFrom(s, t, from + 1)
  }

  function Index(s: string, t: string): (r: int)
    ensures r >= 0 ==> OccursAt(s, t, r) && forall k | 0 <= k < r :: !OccursAt(s, t, k)
    ensures r < 0 ==> r == -1 && !Contains(s, t)
    ensures r >= 0 <==> Contains(s, t)
  {
    IndexFrom(s, t, 0)
  }

  /** First index of character `c` in `s`; -1 when there is none. */
  function IndexChar(s: string, c: char): (r: int)
    ensures -1 <= r < |s|
    ensures r >= 0 ==> s[r] == c && forall k | 0 <= k < r :: s[k] != c
    ensures r < 0 ==> forall k | 0 <= k < |s| :: s[k] != c
  {
    if s == "" then -1
    else if s[0] == c then 0
    else
      var rest := IndexChar(s[1..], c);
      if rest < 0 then -1 else rest + 1
  }

  lemma OccursIsIndex(s: string, t: string, i: int)
    requires OccursAt(s, t, i)
    requires forall k | 0 <= k < i :: !OccursAt(s, t, k)
    ensures Index(s, t) == i
  {
  }

  predicate HasPrefix(s: string, p: string) { p <= s }

  predicate HasSuffix(s: string, p: string) {
    |p| <= |s| && s[|s| - |p|..] == p
  }

  lemma SliceOfSlice<T>(s: seq<T>, i: nat, j: nat, p: nat, q: nat)
    requires i <= j <= |s| && p <= q <= j - i
    ensures s[i..j][p..q] == s[i + p..i + q]
  {
    var u, v := s[i..j], s[i + p..i + q];
    forall k | 0 <= k < q - p ensures u[p..q][k] == v[k] {
      assert u[p..q][k] == u[p + k] == s[i + (p + k)];
    }
  }

  lemma ContainsSlice(s: string, t: string, i: nat, j: nat)
    requires i <= j <= |s|
    requires Contains(s[i..j], t)
    ensures Contains(s, t)
  {
    var k :| 0 <= k <= |s[i..j]| && OccursAt(s[i..j], t, k);
    SliceOfSlice(s, i, j, k, k + |t|);
    assert OccursAt(s, t, i + k);
  }

  lemma OccursWithin(s: string, t: string, at: nat, from: nat, to: nat)
    requires OccursAt(s, t, at) && from <= at && at + |t| <= to <= |s|
    ensures Contains(s[from..to], t)
  {
    SliceOfSlice(s, from, to, at - from, at - from + |t|);
    assert OccursAt(s[from..to], t, at - from);
  }

  // ---------------------------------------------------------------- lines

  predicate NoNewline(s: string) {
    forall i | 0 <= i < |s| :: s[i] != '\n'
  }

  function SplitLines(s: string): (r: seq<string>)
    ensures |r| >= 1
    ensures forall i | 0 <= i < |r| :: NoNewline(r[i])
  {
    if s == "" then [""]
    else
      var rest := SplitLines(s[1..]);
      if s[0] == '\n' then [""] + rest else [[s[0]] + rest[0]] + rest[1..]
  }

  function JoinLines(lines: seq<string>): string {
    if lines == [] then ""
    else if |lines| == 1 then lines[0]
    else lines[0] + "\n" + JoinLines(lines[1..])
  }

  /** `x` followed by `y` on the same line: the last line of `x` runs on into the first of `y`. */
  function Glue(x: seq<string>, y: seq<string>): seq<string>
    requires x != [] && y != []
  {
    x[..|x| - 1] + [x[|x| - 1] + y[0]] + y[1..]
  }

  lemma GlueTail(c: char, r: seq<string>, y: seq<string>)
    requires r != [] && y != []
    ensures Glue([""] + r, y) == [""] + Glue(r, y)
    ensures Glue([[c] + r[0]] + r[1..], y) == [[c] + Glue(r, y)[0]] + Glue(r, y)[1..]
  {
    if |r| == 1 {
      assert ([c] + r[0]) + y[0] == [c] + (r[0] + y[0]);
    } else {
      assert ([[c] + r[0]] + r[1..])[..|r| - 1] == [[c] + r[0]] + r[1..|r| - 1];
      assert Glue(r, y)[1..] == r[1..|r| - 1] + [r[|r| - 1] + y[0]] + y[1..];
    }
  }

  /** Splitting a concatenation glues the last line of the one to the first line of the other. */
  lemma {:induction false} SplitAppend(a: string, b: string)
    ensures SplitLines(a + b) == Glue(SplitLines(a), SplitLines(b))
  {
    var y := SplitLines(b);
    if a == "" {
      assert a + b == b;
      assert "" + y[0] == y[0];
    } else {
      assert (a + b)[1..] == a[1..] + b && (a + b)[0] == a[0];
      SplitAppend(a[1..], b);
      GlueTail(a[0], SplitLines(a[1..]), y);
    }
  }

  lemma SplitNoNewline(s: string)
    requires NoNewline(s)
    ensures SplitLines(s) == [s]
  {
    if s != "" { SplitNoNewline(s[1..]); assert s == [s[0]] + s[1..]; }
  }

  /** `lines` is what splitting its own join gives, and joining a split gives the text back. */
  lemma {:induction false} SplitJoin(lines: seq<string>)
    requires lines != []
    requires forall i | 0 <= i < |lines| :: NoNewline(lines[i])
    ensures SplitLines(JoinLines(lines)) == lines
  {
    SplitNoNewline(lines[0]);
    if |lines| > 1 {
      var rest := JoinLines(lines[1..]);
      SplitJoin(lines[1..]);
      SplitAppend(lines[0], "\n" + rest);
      assert ("\n" + rest)[1..] == rest;
      assert lines[0] + ("\n" + rest) == lines[0] + "\n" + rest;
      assert SplitLines("\n" + rest) == [""] + lines[1..];
      assert lines[0] + "" == lines[0];
    }
  }

  lemma JoinLongerFirst(c: char, lines: seq<string>)
    requires lines != []
    ensures JoinLines([[c] + lines[0]] + lines[1..]) == [c] + JoinLines(lines)
  {
    var t := [[c] + lines[0]] + lines[1..];
    assert t[1..] == lines[1..];
    if |lines| > 1 {
      assert [c] + lines[0] + "\n" + JoinLines(lines[1..]) == [c] + (lines[0] + "\n" + JoinLines(lines[1..]));
    }
  }

  lemma {:induction false} JoinSplit(s: string)
    ensures JoinLines(SplitLines(s)) == s
  {
    if s != "" {
      JoinSplit(s[1..]);
      var r := SplitLines(s[1..]);
      if s[0] == '\n' {
        assert ([""] + r)[1..] == r;
        assert s == "" + "\n" + s[1..];
      } else {
        JoinLongerFirst(s[0], r);
        assert s == [s[0]] + s[1..];
      }
    }
  }

  lemma SplitAtNewline(x: string, y: string)
    ensures SplitLines(x + "\n" + y) == SplitLines(x) + SplitLines(y)
  {
    assert ("\n" + y)[1..] == y;
    assert SplitLines("\n" + y) == [""] + SplitLines(y);
    hide SplitLines;
    assert x + "\n" + y == x + ("\n" + y);
    SplitAppend(x, "\n" + y);
    GlueEmpty(SplitLines(x), SplitLines(y));
  }

  lemma GlueEmpty(a: seq<string>, b: seq<string>)
    requires a != []
    ensures Glue(a, [""] + b) == a + b
  {
    assert a[|a| - 1] + "" == a[|a| - 1];
    assert a == a[..|a| - 1] + [a[|a| - 1]];
  }

  lemma {:induction false} JoinAt(lines: seq<string>, k: nat)
    requires 0 < k < |lines|
    ensures JoinLines(lines) == JoinLines(lines[..k]) + "\n" + JoinLines(lines[k..])
  {
    if k == 1 {
    } else {
      JoinAt(lines[1..], k - 1);
      assert lines[1..][..k - 1] == lines[..k][1..];
      assert lines[1..][k - 1..] == lines[k..];
      var a, b := JoinLines(lines[..k][1..]), JoinLines(lines[k..]);
      assert JoinLines(lines) == lines[0] + "\n" + (a + "\n" + b);
      assert JoinLines(lines[..k]) == lines[0] + "\n" + a;
      assert lines[0] + "\n" + (a + "\n" + b) == (lines[0] + "\n" + a) + "\n" + b;
    }
  }
}
