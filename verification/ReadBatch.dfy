/**
 Merging the read_file calls of one turn into batch reads: which calls may be merged, how a merged read is
 cut to the path budget, and how its sections are handed back to the calls.
 */
module ReadBatch {
  import opened Chunks
  import opened ParallelPhase

  /** A tool call as the executor sees it; `paths` are those a read_file call asks for. */
  datatype Call = Call(id: string, tool: string, paths: seq<string>, batchable: bool, parallelSafe: bool)

  datatype Status = Execute | Skip(msg: string) | LoopAbort | Batched

  /** What the executor keeps for each call. */
  datatype Slots = Slots(entries: seq<Status>, results: seq<Result>)

  predicate Sized(calls: seq<Call>, s: Slots) { |s.entries| == |calls| && |s.results| == |calls| }

  // ---------------------------------------------------------------- segments

  /** A read_file call that may be merged with others. */
  predicate Joins(calls: seq<Call>, exec: seq<bool>, i: nat)
    requires i < |calls| && |exec| == |calls|
  {
    exec[i] && calls[i].parallelSafe && calls[i].batchable && calls[i].paths != []
  }

  /** A call that may change files ends the segment before it. */
  predicate Breaks(calls: seq<Call>, exec: seq<bool>, i: nat)
    requires i < |calls| && |exec| == |calls|
  {
    exec[i] && !calls[i].parallelSafe
  }

  function Closed(segments: seq<seq<nat>>, current: seq<nat>): seq<seq<nat>> {
    if |current| >= 2 then segments + [current] else segments
  }

  method SegmentReadFileBatches(calls: seq<Call>, exec: seq<bool>) returns (segments: seq<seq<nat>>)
    requires |exec| == |calls|
    ensures SegmentsRight(calls, exec, segments)
  {
    segments := [];
    var current: seq<nat> := [];
    StartCollecting(calls, exec);
    hide Collected, SegmentsRight, Together, SegmentOk, SegmentsOk, InOrder, Paired, Closed;
    for i := 0 to |calls|
      invariant Collected(calls, exec, segments, current, i)
    {
      ghost var s, c := segments, current;
      if exec[i] {
        if !calls[i].parallelSafe {
          segments, current := Closed(segments, current), [];
        } else if calls[i].batchable && calls[i].paths != [] {
          current := current + [i];
        }
      }
      CollectedStep(calls, exec, s, c, i);
    }
    FinishCollecting(calls, exec, segments, current);
    segments := Closed(segments, current);
  }

  /** No executed call that may change files lies between `i` and `j`. */
  ghost predicate Together(calls: seq<Call>, exec: seq<bool>, i: int, j: int)
    requires |exec| == |calls|
  {
    forall k: nat | i < k < j && k < |calls| :: !Breaks(calls, exec, k)
  }

  /** A segment is an ascending list of calls that may be merged, with no change of files among them. */
  ghost predicate SegmentOk(calls: seq<Call>, exec: seq<bool>, seg: seq<nat>)
    requires |exec| == |calls|
  {
    && (forall a | 0 <= a < |seg| :: seg[a] < |calls| && Joins(calls, exec, seg[a]))
    && (forall a, b | 0 <= a < b < |seg| :: seg[a] < seg[b])
    && (seg != [] ==> Together(calls, exec, seg[0], seg[|seg| - 1]))
  }

  ghost predicate SegmentsOk(calls: seq<Call>, exec: seq<bool>, segments: seq<seq<nat>>)
    requires |exec| == |calls|
  {
    forall s | 0 <= s < |segments| :: |segments[s]| >= 2 && SegmentOk(calls, exec, segments[s])
  }

  ghost predicate InOrder(segments: seq<seq<nat>>) {
    forall s, t, x, y | 0 <= s < t < |segments| && x in segments[s] && y in segments[t] :: x < y
  }

  ghost predicate Below(segments: seq<seq<nat>>, n: nat) {
    forall s, x | 0 <= s < |segments| && x in segments[s] :: x < n
  }

  /** Two calls below `n` that could be merged are together in a segment or in the current one. */
  ghost predicate Paired(calls: seq<Call>, exec: seq<bool>, segments: seq<seq<nat>>, current: seq<nat>, n: nat)
    requires |exec| == |calls| && n <= |calls|
  {
    forall i, j | 0 <= i < j < n && Joins(calls, exec, i) && Joins(calls, exec, j) && Together(calls, exec, i, j) ::
      (i in current && j in current) || exists s :: 0 <= s < |segments| && i in segments[s] && j in segments[s]
  }

  /** Sound, disjoint and complete: every call that could be merged with another one is in a segment with it. */
  ghost predicate SegmentsRight(calls: seq<Call>, exec: seq<bool>, segments: seq<seq<nat>>)
    requires |exec| == |calls|
  {
    && SegmentsOk(calls, exec, segments) && InOrder(segments) && Below(segments, |calls|)
    && Paired(calls, exec, segments, [], |calls|)
  }

  ghost predicate Collected(calls: seq<Call>, exec: seq<bool>, segments: seq<seq<nat>>, current: seq<nat>, n: nat)
    requires |exec| == |calls|
  {
    && n <= |calls|
    && SegmentsOk(calls, exec, segments) && InOrder(segments) && Below(segments, n)
    && SegmentOk(calls, exec, current) && Below([current], n)
    && (forall s, x, y | 0 <= s < |segments| && x in segments[s] && y in current :: x < y)
    && (forall i | 0 <= i < |calls| :: i in current <==> i < n && Joins(calls, exec, i) && Together(calls, exec, i, n))
    && Paired(calls, exec, segments, current, n)
  }

  lemma TogetherGrows(calls: seq<Call>, exec: seq<bool>, n: nat)
    requires |exec| == |calls| && n < |calls|
    ensures forall i | 0 <= i < n :: Together(calls, exec, i, n + 1) <==> Together(calls, exec, i, n) && !Breaks(calls, exec, n)
    ensures Together(calls, exec, n, n + 1)
  {
    forall i | 0 <= i < n
      ensures Together(calls, exec, i, n + 1) <==> Together(calls, exec, i, n) && !Breaks(calls, exec, n)
    {
      if Together(calls, exec, i, n + 1) {
        forall k: nat | i < k < n && k < |calls| ensures !Breaks(calls, exec, k) {}
      }
    }
  }

  lemma StartCollecting(calls: seq<Call>, exec: seq<bool>)
    requires |exec| == |calls|
    ensures Collected(calls, exec, [], [], 0)
  {
  }

  lemma FinishCollecting(calls: seq<Call>, exec: seq<bool>, segments: seq<seq<nat>>, current: seq<nat>)
    requires |exec| == |calls| && Collected(calls, exec, segments, current, |calls|)
    ensures SegmentsRight(calls, exec, Closed(segments, current))
  {
    CollectedRight(calls, exec, segments, current, |calls|);
    hide Joins, Together, SegmentOk, SegmentsOk, InOrder, Paired, Closed, Collected;
  }

  lemma CollectedStep(calls: seq<Call>, exec: seq<bool>, segments: seq<seq<nat>>, current: seq<nat>, n: nat)
    requires |exec| == |calls| && n < |calls| && Collected(calls, exec, segments, current, n)
    ensures if Breaks(calls, exec, n) then Collected(calls, exec, Closed(segments, current), [], n + 1)
            else if Joins(calls, exec, n) then Collected(calls, exec, segments, current + [n], n + 1)
            else Collected(calls, exec, segments, current, n + 1)
  {
    hide Collected;
    if Breaks(calls, exec, n) {
      BreakStep(calls, exec, segments, current, n);
    } else if Joins(calls, exec, n) {
      JoinStep(calls, exec, segments, current, n);
    } else {
      SkipStep(calls, exec, segments, current, n);
    }
  }

  lemma SkipStep(calls: seq<Call>, exec: seq<bool>, segments: seq<seq<nat>>, current: seq<nat>, n: nat)
    requires |exec| == |calls| && n < |calls| && Collected(calls, exec, segments, current, n)
    requires !Joins(calls, exec, n) && !Breaks(calls, exec, n)
    ensures Collected(calls, exec, segments, current, n + 1)
  {
    TogetherGrows(calls, exec, n);
    PairedSkip(calls, exec, segments, current, n);
    hide Joins, Breaks, Together, SegmentOk, SegmentsOk, InOrder, Paired;
  }

  lemma PairedSkip(calls: seq<Call>, exec: seq<bool>, segments: seq<seq<nat>>, current: seq<nat>, n: nat)
    requires |exec| == |calls| && n < |calls| && Paired(calls, exec, segments, current, n) && !Joins(calls, exec, n)
    ensures Paired(calls, exec, segments, current, n + 1)
  {
    hide Joins, Together;
    forall i, j | 0 <= i < j < n + 1 && Joins(calls, exec, i) && Joins(calls, exec, j) && Together(calls, exec, i, j)
      ensures (i in current && j in current) || exists s :: 0 <= s < |segments| && i in segments[s] && j in segments[s]
    {
      assert j < n;
    }
  }

  lemma PairedJoin(calls: seq<Call>, exec: seq<bool>, segments: seq<seq<nat>>, current: seq<nat>, n: nat)
    requires |exec| == |calls| && n < |calls| && Paired(calls, exec, segments, current, n)
    requires forall i | 0 <= i < n && Joins(calls, exec, i) && Together(calls, exec, i, n) :: i in current
    ensures Paired(calls, exec, segments, current + [n], n + 1)
  {
    hide Joins, Together;
    var c := current + [n];
    forall i, j | 0 <= i < j < n + 1 && Joins(calls, exec, i) && Joins(calls, exec, j) && Together(calls, exec, i, j)
      ensures (i in c && j in c) || exists s :: 0 <= s < |segments| && i in segments[s] && j in segments[s]
    {
      if j == n { assert i in current; }
    }
  }

  lemma SegmentGrows(calls: seq<Call>, exec: seq<bool>, current: seq<nat>, n: nat)
    requires |exec| == |calls| && n < |calls| && SegmentOk(calls, exec, current) && Joins(calls, exec, n)
    requires forall x | x in current :: x < n && Together(calls, exec, x, n)
    ensures SegmentOk(calls, exec, current + [n])
  {
    hide Joins, Together;
    TogetherSelf(calls, exec, n);
    var c := current + [n];
    forall a, b | 0 <= a < b < |c| ensures c[a] < c[b] { assert c[a] in current; }
    if current != [] { assert current[0] in current; }
  }

  lemma TogetherSelf(calls: seq<Call>, exec: seq<bool>, n: nat)
    requires |exec| == |calls|
    ensures Together(calls, exec, n, n)
  {
  }

  lemma JoinStep(calls: seq<Call>, exec: seq<bool>, segments: seq<seq<nat>>, current: seq<nat>, n: nat)
    requires |exec| == |calls| && n < |calls| && Collected(calls, exec, segments, current, n)
    requires Joins(calls, exec, n) && !Breaks(calls, exec, n)
    ensures Collected(calls, exec, segments, current + [n], n + 1)
  {
    TogetherGrows(calls, exec, n);
    hide Joins, Breaks, Together;
    forall x | x in current ensures x < n && Together(calls, exec, x, n) { assert x in [current][0]; }
    SegmentGrows(calls, exec, current, n);
    PairedJoin(calls, exec, segments, current, n);
    hide SegmentOk, SegmentsOk, InOrder, Paired;
  }

  lemma BreakStep(calls: seq<Call>, exec: seq<bool>, segments: seq<seq<nat>>, current: seq<nat>, n: nat)
    requires |exec| == |calls| && n < |calls| && Collected(calls, exec, segments, current, n)
    requires Breaks(calls, exec, n)
    ensures Collected(calls, exec, Closed(segments, current), [], n + 1)
  {
    TogetherGrows(calls, exec, n);
    CollectedRight(calls, exec, segments, current, n);
    EmptySegment(calls, exec);
    PairedSkip(calls, exec, Closed(segments, current), [], n);
    hide Joins, Breaks, Together, SegmentOk, SegmentsOk, Closed, InOrder, Paired, Collected;
    forall i | 0 <= i < |calls| ensures !(i < n + 1 && Joins(calls, exec, i) && Together(calls, exec, i, n + 1)) {
      assert i == n ==> !Joins(calls, exec, n);
    }
    CollectedEmpty(calls, exec, Closed(segments, current), n + 1);
  }

  lemma CollectedEmpty(calls: seq<Call>, exec: seq<bool>, segments: seq<seq<nat>>, n: nat)
    requires |exec| == |calls| && n <= |calls|
    requires SegmentsOk(calls, exec, segments) && InOrder(segments) && Below(segments, n)
    requires SegmentOk(calls, exec, []) && Paired(calls, exec, segments, [], n)
    requires forall i | 0 <= i < n :: !(Joins(calls, exec, i) && Together(calls, exec, i, n))
    ensures Collected(calls, exec, segments, [], n)
  {
    hide Joins, Together, SegmentOk, SegmentsOk, InOrder, Paired;
  }

  lemma EmptySegment(calls: seq<Call>, exec: seq<bool>)
    requires |exec| == |calls|
    ensures SegmentOk(calls, exec, [])
  {
  }

  lemma CollectedRight(calls: seq<Call>, exec: seq<bool>, segments: seq<seq<nat>>, current: seq<nat>, n: nat)
    requires |exec| == |calls| && Collected(calls, exec, segments, current, n)
    ensures var all := Closed(segments, current);
            SegmentsOk(calls, exec, all) && InOrder(all) && Below(all, n) && Paired(calls, exec, all, [], n)
  {
    hide Joins, Together, SegmentOk;
    var all := Closed(segments, current);
    assert forall x | x in current :: x in [current][0];
    forall i, j | 0 <= i < j < n && Joins(calls, exec, i) && Joins(calls, exec, j) && Together(calls, exec, i, j)
      ensures exists s :: 0 <= s < |all| && i in all[s] && j in all[s]
    {
      if i in current && j in current {
        assert |current| >= 2;
        assert all[|segments|] == current;
      } else {
        var s :| 0 <= s < |segments| && i in segments[s] && j in segments[s];
        assert all[s] == segments[s];
      }
    }
  }

  // ---------------------------------------------------------------- merged reads

  const MAX_READ_FILE_BATCH_PATHS: nat := 10

  datatype Section = Section(text: string, payload: nat)

  datatype Batch = Batch(sections: seq<Section>, merged: Result)

  /** Reading: one path alone, a list of paths at once, and the rendering of sections to a result. */
  datatype Reader = Reader(read: string -> Section, batch: seq<string> -> Batch, render: seq<Section> -> Result)

  function Each(reader: Reader, paths: seq<string>): (r: seq<Section>)
    ensures |r| == |paths| && forall i | 0 <= i < |paths| :: r[i] == reader.read(paths[i])
  {
    seq(|paths|, i requires 0 <= i < |paths| => reader.read(paths[i]))
  }

  /** Reading a list of paths is reading each of them. */
  ghost predicate Pointwise(reader: Reader) {
    forall paths :: |reader.batch(paths).sections| == |paths| ==> reader.batch(paths).sections == Each(reader, paths)
  }

  /** What a call's read gives when it is run by itself. */
  function Alone(reader: Reader, call: Call): Result { reader.render(Each(reader, call.paths)) }

  ghost predicate Indexes(calls: seq<Call>, seg: seq<nat>) { forall a | 0 <= a < |seg| :: seg[a] < |calls| }

  function PathsOf(calls: seq<Call>, seg: seq<nat>): seq<string>
    requires Indexes(calls, seg)
  {
    if seg == [] then [] else PathsOf(calls, seg[..|seg| - 1]) + calls[seg[|seg| - 1]].paths
  }

  function Counts(calls: seq<Call>, seg: seq<nat>): (r: seq<nat>)
    requires Indexes(calls, seg)
    ensures |r| == |seg| && forall a | 0 <= a < |seg| :: r[a] == |calls[seg[a]].paths|
  {
    seq(|seg|, a requires 0 <= a < |seg| => |calls[seg[a]].paths|)
  }

  function CallSections(sections: seq<Section>, offset: int, count: int): seq<Section> {
    if count <= 0 || offset < 0 || offset + count > |sections| then [] else sections[offset..offset + count]
  }

  function CallResult(reader: Reader, batch: Batch, offset: nat, count: nat): Result {
    var own := CallSections(batch.sections, offset, count);
    if |own| == count then reader.render(own) else batch.merged
  }

  /** Handing the sections of one merged read back to its calls, in order. */
  function Shared(calls: seq<Call>, reader: Reader, batch: Batch, s: Slots, chunk: seq<nat>): (r: Slots)
    requires Sized(calls, s) && Indexes(calls, chunk)
    ensures Sized(calls, r)
  {
    if chunk == [] then s
    else
      var n := |chunk| - 1;
      var t := Shared(calls, reader, batch, s, chunk[..n]);
      var result := CallResult(reader, batch, |PathsOf(calls, chunk[..n])|, |calls[chunk[n]].paths|);
      Slots(t.entries[chunk[n] := Batched], t.results[chunk[n] := result])
  }

  function ChunkMerged(calls: seq<Call>, reader: Reader, s: Slots, chunk: seq<nat>): (r: Slots)
    requires Sized(calls, s) && Indexes(calls, chunk)
    ensures Sized(calls, r)
  {
    var paths := PathsOf(calls, chunk);
    if |chunk| < 2 || |reader.batch(paths).sections| != |paths| then s
    else Shared(calls, reader, reader.batch(paths), s, chunk)
  }

  function SegmentMerged(calls: seq<Call>, reader: Reader, s: Slots, seg: seq<nat>, start: nat): (r: Slots)
    requires Sized(calls, s) && Indexes(calls, seg) && start <= |seg|
    ensures Sized(calls, r)
    decreases |seg| - start
  {
    if start == |seg| then s
    else
      var end := GreedyEnd(Counts(calls, seg), start, MAX_READ_FILE_BATCH_PATHS);
      SegmentMerged(calls, reader, ChunkMerged(calls, reader, s, seg[start..end]), seg, end)
  }

  function AllMerged(calls: seq<Call>, reader: Reader, s: Slots, segments: seq<seq<nat>>): (r: Slots)
    requires Sized(calls, s) && forall i | 0 <= i < |segments| :: Indexes(calls, segments[i])
    ensures Sized(calls, r)
  {
    if segments == [] then s
    else SegmentMerged(calls, reader, AllMerged(calls, reader, s, segments[..|segments| - 1]), segments[|segments| - 1], 0)
  }

  lemma {:induction false} PathsOfLength(calls: seq<Call>, seg: seq<nat>, n: nat)
    requires Indexes(calls, seg) && n <= |seg|
    ensures |PathsOf(calls, seg[..n])| == Sum(Counts(calls, seg), 0, n)
  {
    if n > 0 {
      PathsOfLength(calls, seg, n - 1);
      assert seg[..n][..n - 1] == seg[..n - 1];
    }
  }

  /** The paths of a chunk are a slice of the paths of its segment. */
  lemma {:induction false} PathsOfSlice(calls: seq<Call>, seg: seq<nat>, a: nat, b: nat)
    requires Indexes(calls, seg) && a <= b <= |seg|
    ensures PathsOf(calls, seg[..b]) == PathsOf(calls, seg[..a]) + PathsOf(calls, seg[a..b])
  {
    if a == b {
      assert seg[a..b] == [];
    } else {
      PathsOfSlice(calls, seg, a, b - 1);
      assert seg[..b][..b - 1] == seg[..b - 1];
      assert seg[a..b][..b - 1 - a] == seg[a..b - 1];
    }
  }

  // ---------------------------------------------------------------- what merging means

  /** A slot is as it was, or it belongs to a call of `members`, is batched and holds what the call gets alone. */
  ghost predicate SlotKept(calls: seq<Call>, reader: Reader, before: Slots, after: Slots, members: seq<nat>, i: nat)
    requires Sized(calls, before) && Sized(calls, after) && i < |calls|
  {
    || (after.entries[i] == before.entries[i] && after.results[i] == before.results[i])
    || (i in members && after.entries[i] == Batched && after.results[i] == Alone(reader, calls[i]))
  }

  ghost predicate MeaningKept(calls: seq<Call>, reader: Reader, before: Slots, after: Slots, members: seq<nat>) {
    && Sized(calls, before) && Sized(calls, after)
    && forall i | 0 <= i < |calls| :: SlotKept(calls, reader, before, after, members, i)
  }

  lemma KeptTwice(calls: seq<Call>, reader: Reader, a: Slots, b: Slots, c: Slots, m: seq<nat>, k: seq<nat>, all: seq<nat>)
    requires MeaningKept(calls, reader, a, b, m) && MeaningKept(calls, reader, b, c, k)
    requires forall x | x in m || x in k :: x in all
    ensures MeaningKept(calls, reader, a, c, all)
  {
    hide Alone;
    forall i | 0 <= i < |calls| ensures SlotKept(calls, reader, a, c, all, i) {
      assert SlotKept(calls, reader, a, b, m, i) && SlotKept(calls, reader, b, c, k, i);
    }
  }

  lemma KeptSame(calls: seq<Call>, reader: Reader, s: Slots, m: seq<nat>)
    requires Sized(calls, s)
    ensures MeaningKept(calls, reader, s, s, m)
  {
  }

  /** The slice of the merged sections that call `chunk[n]` gets is the sections of its own paths. */
  lemma SliceIsOwn(calls: seq<Call>, reader: Reader, chunk: seq<nat>, n: nat, sections: seq<Section>)
    requires Indexes(calls, chunk) && n < |chunk|
    requires sections == Each(reader, PathsOf(calls, chunk))
    ensures var own := calls[chunk[n]].paths;
            CallSections(sections, |PathsOf(calls, chunk[..n])|, |own|) == Each(reader, own)
  {
    hide PathsOf, Each;
    PathsAround(calls, chunk, n);
    EachMiddle(reader, PathsOf(calls, chunk[..n]), calls[chunk[n]].paths, PathsOf(calls, chunk[n + 1..]));
  }

  lemma EachMiddle(reader: Reader, a: seq<string>, b: seq<string>, c: seq<string>)
    ensures CallSections(Each(reader, a + b + c), |a|, |b|) == Each(reader, b)
  {
  }

  /** The paths of a chunk are those before a call, its own and those after it. */
  lemma PathsAround(calls: seq<Call>, chunk: seq<nat>, n: nat)
    requires Indexes(calls, chunk) && n < |chunk|
    ensures PathsOf(calls, chunk)
         == PathsOf(calls, chunk[..n]) + calls[chunk[n]].paths + PathsOf(calls, chunk[n + 1..])
  {
    PathsOfSlice(calls, chunk, n + 1, |chunk|);
    assert chunk[..|chunk|] == chunk && chunk[n + 1..|chunk|] == chunk[n + 1..];
    assert chunk[..n + 1][..n] == chunk[..n];
  }

  lemma SharedNext(calls: seq<Call>, reader: Reader, s: Slots, chunk: seq<nat>, n: nat, batch: Batch)
    requires Sized(calls, s) && Indexes(calls, chunk) && n < |chunk|
    requires batch.sections == Each(reader, PathsOf(calls, chunk))
    ensures Shared(calls, reader, batch, s, chunk[..n + 1])
         == Slots(Shared(calls, reader, batch, s, chunk[..n]).entries[chunk[n] := Batched],
                  Shared(calls, reader, batch, s, chunk[..n]).results[chunk[n] := Alone(reader, calls[chunk[n]])])
  {
    SliceIsOwn(calls, reader, chunk, n, batch.sections);
    assert chunk[..n + 1][..n] == chunk[..n];
    hide CallSections, PathsOf;
  }

  lemma SlotWritten(calls: seq<Call>, reader: Reader, s: Slots, t: Slots, chunk: seq<nat>, idx: nat)
    requires MeaningKept(calls, reader, s, t, chunk) && idx in chunk && idx < |calls|
    ensures MeaningKept(calls, reader, s,
                        Slots(t.entries[idx := Batched], t.results[idx := Alone(reader, calls[idx])]), chunk)
  {
    hide Alone;
    var r := Slots(t.entries[idx := Batched], t.results[idx := Alone(reader, calls[idx])]);
    forall i | 0 <= i < |calls| ensures SlotKept(calls, reader, s, r, chunk, i) {
      assert SlotKept(calls, reader, s, t, chunk, i);
    }
  }

  lemma {:induction false} SharedKeeps(calls: seq<Call>, reader: Reader, s: Slots, chunk: seq<nat>, n: nat, batch: Batch)
    requires Sized(calls, s) && Indexes(calls, chunk) && n <= |chunk|
    requires batch.sections == Each(reader, PathsOf(calls, chunk))
    ensures MeaningKept(calls, reader, s, Shared(calls, reader, batch, s, chunk[..n]), chunk)
  {
    hide Alone, MeaningKept, PathsOf, Each;
    if n == 0 {
      assert chunk[..0] == [];
      KeptSame(calls, reader, s, chunk);
    } else {
      hide Shared;
      SharedKeeps(calls, reader, s, chunk, n - 1, batch);
      SharedNext(calls, reader, s, chunk, n - 1, batch);
      SlotWritten(calls, reader, s, Shared(calls, reader, batch, s, chunk[..n - 1]), chunk, chunk[n - 1]);
    }
  }

  lemma {:induction false} AllShared(calls: seq<Call>, reader: Reader, s: Slots, chunk: seq<nat>, n: nat, batch: Batch)
    requires Sized(calls, s) && Indexes(calls, chunk) && n <= |chunk|
    ensures forall a | 0 <= a < n :: Shared(calls, reader, batch, s, chunk[..n]).entries[chunk[a]] == Batched
  {
    hide CallResult, PathsOf;
    if n > 0 {
      AllShared(calls, reader, s, chunk, n - 1, batch);
      assert chunk[..n][..n - 1] == chunk[..n - 1];
    }
  }

  lemma ChunkKeeps(calls: seq<Call>, reader: Reader, s: Slots, chunk: seq<nat>)
    requires Sized(calls, s) && Indexes(calls, chunk) && Pointwise(reader)
    ensures MeaningKept(calls, reader, s, ChunkMerged(calls, reader, s, chunk), chunk)
    ensures |chunk| >= 2 && |reader.batch(PathsOf(calls, chunk)).sections| == |PathsOf(calls, chunk)| ==>
              forall a | 0 <= a < |chunk| :: ChunkMerged(calls, reader, s, chunk).entries[chunk[a]] == Batched
  {
    var paths := PathsOf(calls, chunk);
    KeptSame(calls, reader, s, chunk);
    if |chunk| >= 2 && |reader.batch(paths).sections| == |paths| {
      SharedKeeps(calls, reader, s, chunk, |chunk|, reader.batch(paths));
      AllShared(calls, reader, s, chunk, |chunk|, reader.batch(paths));
      assert chunk[..|chunk|] == chunk;
    }
  }

  lemma {:induction false} SegmentKeeps(calls: seq<Call>, reader: Reader, s: Slots, seg: seq<nat>, start: nat)
    requires Sized(calls, s) && Indexes(calls, seg) && start <= |seg| && Pointwise(reader)
    ensures MeaningKept(calls, reader, s, SegmentMerged(calls, reader, s, seg, start), seg)
    decreases |seg| - start
  {
    if start == |seg| {
      KeptSame(calls, reader, s, seg);
    } else {
      var end := GreedyEnd(Counts(calls, seg), start, MAX_READ_FILE_BATCH_PATHS);
      var t := ChunkMerged(calls, reader, s, seg[start..end]);
      ChunkKeeps(calls, reader, s, seg[start..end]);
      SegmentKeeps(calls, reader, t, seg, end);
      hide MeaningKept, ChunkMerged;
      KeptTwice(calls, reader, s, t, SegmentMerged(calls, reader, t, seg, end), seg[start..end], seg, seg);
    }
  }

  /** All the calls of `segments`. */
  function Members(segments: seq<seq<nat>>): seq<nat> {
    if segments == [] then [] else Members(segments[..|segments| - 1]) + segments[|segments| - 1]
  }

  /** If reading a list of paths is reading each of them, then whatever was merged, every call that became batched
      holds exactly the result it would get run alone, and every other call keeps its status and its result. */
  lemma {:induction false} MergingPreservesMeaning(calls: seq<Call>, reader: Reader, s: Slots, segments: seq<seq<nat>>)
    requires Sized(calls, s) && Pointwise(reader) && forall i | 0 <= i < |segments| :: Indexes(calls, segments[i])
    ensures MeaningKept(calls, reader, s, AllMerged(calls, reader, s, segments), Members(segments))
  {
    if segments == [] {
      KeptSame(calls, reader, s, []);
    } else {
      var n := |segments| - 1;
      MergingPreservesMeaning(calls, reader, s, segments[..n]);
      var t := AllMerged(calls, reader, s, segments[..n]);
      SegmentKeeps(calls, reader, t, segments[n], 0);
      hide MeaningKept, SegmentMerged;
      KeptTwice(calls, reader, s, t, SegmentMerged(calls, reader, t, segments[n], 0),
                Members(segments[..n]), segments[n], Members(segments));
    }
  }

  /** The slices the first `n` calls of a chunk get, one after the other. */
  function HandedOut(calls: seq<Call>, chunk: seq<nat>, sections: seq<Section>, n: nat): seq<Section>
    requires Indexes(calls, chunk) && n <= |chunk|
  {
    if n == 0 then []
    else
      HandedOut(calls, chunk, sections, n - 1)
      + CallSections(sections, |PathsOf(calls, chunk[..n - 1])|, |calls[chunk[n - 1]].paths|)
  }

  lemma PathsOfNext(calls: seq<Call>, chunk: seq<nat>, n: nat)
    requires Indexes(calls, chunk) && n < |chunk|
    ensures PathsOf(calls, chunk[..n + 1]) == PathsOf(calls, chunk[..n]) + calls[chunk[n]].paths
    ensures |PathsOf(calls, chunk[..n + 1])| <= |PathsOf(calls, chunk)|
  {
    assert chunk[..n + 1][..n] == chunk[..n];
    PathsOfSlice(calls, chunk, n + 1, |chunk|);
    assert chunk[..|chunk|] == chunk;
  }

  lemma {:induction false} SlicesUpTo(calls: seq<Call>, chunk: seq<nat>, sections: seq<Section>, n: nat)
    requires Indexes(calls, chunk) && n <= |chunk| && |sections| == |PathsOf(calls, chunk)|
    ensures |PathsOf(calls, chunk[..n])| <= |sections|
    ensures HandedOut(calls, chunk, sections, n) == sections[..|PathsOf(calls, chunk[..n])|]
  {
    hide PathsOf, CallSections;
    if n == 0 {
      assert |PathsOf(calls, chunk[..0])| == 0 by { PathsOfLength(calls, chunk, 0); }
    } else {
      SlicesUpTo(calls, chunk, sections, n - 1);
      PathsOfNext(calls, chunk, n - 1);
      SliceJoins(sections, |PathsOf(calls, chunk[..n - 1])|, |calls[chunk[n - 1]].paths|);
    }
  }

  lemma SliceJoins(sections: seq<Section>, offset: nat, count: nat)
    requires offset + count <= |sections|
    ensures sections[..offset] + CallSections(sections, offset, count) == sections[..offset + count]
  {
  }

  /** The slices handed out are the sections of the merged read, in order, none lost and none twice. */
  lemma SlicesAreAll(calls: seq<Call>, chunk: seq<nat>, sections: seq<Section>)
    requires Indexes(calls, chunk) && |sections| == |PathsOf(calls, chunk)|
    ensures HandedOut(calls, chunk, sections, |chunk|) == sections
  {
    SlicesUpTo(calls, chunk, sections, |chunk|);
    assert chunk[..|chunk|] == chunk;
  }

  // ---------------------------------------------------------------- merging in place

  method ExecuteReadFileBatchMerge(calls: seq<Call>, reader: Reader, entries: array<Status>, results: array<Result>)
    returns (ghost segments: seq<seq<nat>>)
    requires entries.Length == results.Length == |calls|
    modifies entries, results
    ensures SegmentsRight(calls, ExecFlags(old(entries[..])), segments)
    ensures forall i | 0 <= i < |segments| :: Indexes(calls, segments[i])
    ensures Slots(entries[..], results[..]) == AllMerged(calls, reader, old(Slots(entries[..], results[..])), segments)
  {
    var exec := ExecFlags(entries[..]);
    var segs := SegmentReadFileBatches(calls, exec);
    segments := segs;
    AllIndexes(calls, exec, segs);
    hide SegmentsRight, SegmentMerged, Pointwise, AllMerged, Indexes, ExecFlags;
    ghost var start := Slots(entries[..], results[..]);
    NoneMerged(calls, reader, start);
    for s := 0 to |segs|
      invariant Slots(entries[..], results[..]) == AllMerged(calls, reader, start, segs[..s])
    {
      MergeSegment(calls, reader, segs[s], entries, results);
      NextMerged(calls, reader, start, segs, s);
    }
    assert segs[..|segs|] == segs;
  }

  lemma NoneMerged(calls: seq<Call>, reader: Reader, s: Slots)
    requires Sized(calls, s)
    ensures AllMerged(calls, reader, s, []) == s
  {
  }

  lemma NextMerged(calls: seq<Call>, reader: Reader, s: Slots, segments: seq<seq<nat>>, n: nat)
    requires Sized(calls, s) && n < |segments| && forall i | 0 <= i < |segments| :: Indexes(calls, segments[i])
    ensures AllMerged(calls, reader, s, segments[..n + 1])
         == SegmentMerged(calls, reader, AllMerged(calls, reader, s, segments[..n]), segments[n], 0)
  {
    assert segments[..n + 1][..n] == segments[..n];
    hide SegmentMerged, Indexes;
  }

  function ExecFlags(entries: seq<Status>): (r: seq<bool>)
    ensures |r| == |entries| && forall i | 0 <= i < |entries| :: r[i] == (entries[i] == Execute)
  {
    seq(|entries|, i requires 0 <= i < |entries| => entries[i] == Execute)
  }

  lemma AllIndexes(calls: seq<Call>, exec: seq<bool>, segments: seq<seq<nat>>)
    requires |exec| == |calls| && SegmentsRight(calls, exec, segments)
    ensures forall i | 0 <= i < |segments| :: Indexes(calls, segments[i])
  {
    forall i | 0 <= i < |segments| ensures Indexes(calls, segments[i]) {
      assert SegmentOk(calls, exec, segments[i]);
    }
  }

  method MergeSegment(calls: seq<Call>, reader: Reader, seg: seq<nat>, entries: array<Status>, results: array<Result>)
    requires entries.Length == results.Length == |calls| && Indexes(calls, seg)
    modifies entries, results
    ensures Slots(entries[..], results[..]) == SegmentMerged(calls, reader, old(Slots(entries[..], results[..])), seg, 0)
  {
    hide PathsOf, ChunkMerged, SegmentMerged, IsGreedyEnd, Sum;
    var paths, counts := PathsOf(calls, seg), Counts(calls, seg);
    SegmentEnds(calls, reader, seg);
    assert seg[..|seg|] == seg;
    PathsOfLength(calls, seg, |seg|);
    var callStart, pathStart := 0, 0;
    while callStart < |seg|
      invariant callStart <= |seg| && pathStart == Sum(counts, 0, callStart)
      invariant SegmentMerged(calls, reader, Slots(entries[..], results[..]), seg, callStart)
             == SegmentMerged(calls, reader, old(Slots(entries[..], results[..])), seg, 0)
    {
      var end, chunkPathCount := NextPathBudgetChunk(counts, callStart, MAX_READ_FILE_BATCH_PATHS);
      GreedyEndUnique(counts, callStart, end, GreedyEnd(counts, callStart, MAX_READ_FILE_BATCH_PATHS), MAX_READ_FILE_BATCH_PATHS);
      ChunkPaths(calls, seg, callStart, end);
      SegmentUnfolds(calls, reader, Slots(entries[..], results[..]), seg, callStart);
      MergeChunk(calls, reader, seg[callStart..end], paths[pathStart..pathStart + chunkPathCount], entries, results);
      callStart, pathStart := end, pathStart + chunkPathCount;
    }
  }

  lemma SegmentUnfolds(calls: seq<Call>, reader: Reader, s: Slots, seg: seq<nat>, start: nat)
    requires Sized(calls, s) && Indexes(calls, seg) && start < |seg|
    ensures var end := GreedyEnd(Counts(calls, seg), start, MAX_READ_FILE_BATCH_PATHS);
            && start < end <= |seg|
            && SegmentMerged(calls, reader, s, seg, start)
            == SegmentMerged(calls, reader, ChunkMerged(calls, reader, s, seg[start..end]), seg, end)
  {
    hide ChunkMerged;
  }

  lemma SegmentEnds(calls: seq<Call>, reader: Reader, seg: seq<nat>)
    requires Indexes(calls, seg)
    ensures Sum(Counts(calls, seg), 0, 0) == 0
    ensures forall s: Slots | Sized(calls, s) :: SegmentMerged(calls, reader, s, seg, |seg|) == s
  {
  }

  lemma ChunkPaths(calls: seq<Call>, seg: seq<nat>, a: nat, b: nat)
    requires Indexes(calls, seg) && a <= b <= |seg|
    ensures var counts, paths := Counts(calls, seg), PathsOf(calls, seg);
            && Sum(counts, 0, b) == Sum(counts, 0, a) + Sum(counts, a, b) && Sum(counts, 0, b) <= |paths|
            && PathsOf(calls, seg[a..b]) == paths[Sum(counts, 0, a)..Sum(counts, 0, b)]
  {
    SumSplits(Counts(calls, seg), 0, a, b);
    PathsOfLength(calls, seg, a);
    PathsOfLength(calls, seg, b);
    PathsOfSlice(calls, seg, a, b);
    PathsOfSlice(calls, seg, b, |seg|);
    assert seg[..|seg|] == seg;
  }

  method MergeChunk(calls: seq<Call>, reader: Reader, chunk: seq<nat>, paths: seq<string>,
                    entries: array<Status>, results: array<Result>)
    requires entries.Length == results.Length == |calls| && Indexes(calls, chunk) && paths == PathsOf(calls, chunk)
    modifies entries, results
    ensures Slots(entries[..], results[..]) == ChunkMerged(calls, reader, old(Slots(entries[..], results[..])), chunk)
  {
    if |chunk| < 2 { return; }
    var batch := reader.batch(paths);
    if |batch.sections| != |paths| { return; }
    ghost var before := Slots(entries[..], results[..]);
    hide CallResult;
    var offset := 0;
    for j := 0 to |chunk|
      invariant offset == |PathsOf(calls, chunk[..j])|
      invariant Slots(entries[..], results[..]) == Shared(calls, reader, batch, before, chunk[..j])
    {
      assert chunk[..j + 1][..j] == chunk[..j];
      var idx := chunk[j];
      var count := |calls[idx].paths|;
      results[idx] := CallResult(reader, batch, offset, count);
      entries[idx] := Batched;
      offset := offset + count;
    }
    assert chunk[..|chunk|] == chunk;
  }
}
