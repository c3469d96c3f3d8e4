/**
 Cutting a list of tool calls into chunks within a budget of paths.
 */
module Chunks {

  /** Sum of `counts[from..to]`. */
  function Sum(counts: seq<nat>, from: nat, to: nat): nat
    requires from <= to <= |counts|
  {
    if from == to then 0 else Sum(counts, from, to - 1) + counts[to - 1]
  }

  lemma {:induction false} SumSplits(counts: seq<nat>, a: nat, b: nat, c: nat)
    requires a <= b <= c <= |counts|
    ensures Sum(counts, a, c) == Sum(counts, a, b) + Sum(counts, b, c)
    decreases c
  {
    if b < c { SumSplits(counts, a, b, c - 1); }
  }

  /** A chunk that starts at `start` and already reaches `k` takes call `k` too. */
  predicate Takes(counts: seq<nat>, start: nat, k: nat, limit: nat)
    requires start <= k < |counts|
  {
    Sum(counts, start, k) == 0 || Sum(counts, start, k + 1) <= limit
  }

  /** The chunk takes calls as long as it can and stops at the first it cannot take. */
  predicate IsGreedyEnd(counts: seq<nat>, start: nat, end: nat, limit: nat)
    requires start < |counts|
  {
    && start < end <= |counts|
    && (forall k | start <= k < end :: Takes(counts, start, k, limit))
    && (end < |counts| ==> !Takes(counts, start, end, limit))
  }

  method NextPathBudgetChunk(counts: seq<nat>, start: nat, limit: int) returns (end: nat, total: nat)
    ensures start >= |counts| || limit <= 0 ==> end == start && total == 0
    ensures start < |counts| && limit > 0 ==> IsGreedyEnd(counts, start, end, limit) && total == Sum(counts, start, end)
  {
    if start >= |counts| || limit <= 0 { return start, 0; }
    end, total := start, 0;
    while end < |counts|
      invariant start <= end <= |counts| && total == Sum(counts, start, end)
      invariant forall k | start <= k < end :: Takes(counts, start, k, limit)
    {
      var next := counts[end];
      if total > 0 && total + next > limit { break; }
      total := total + next;
      end := end + 1;
    }
  }

  /** The same end as a function, for chunking a whole list. */
  function GreedyEnd(counts: seq<nat>, start: nat, limit: nat): (end: nat)
    requires start < |counts| && limit > 0
    ensures IsGreedyEnd(counts, start, end, limit)
  {
    GreedyFrom(counts, start, start + 1, limit)
  }

  function GreedyFrom(counts: seq<nat>, start: nat, end: nat, limit: nat): (r: nat)
    requires start < end <= |counts|
    requires forall k | start <= k < end :: Takes(counts, start, k, limit)
    ensures IsGreedyEnd(counts, start, r, limit)
    decreases |counts| - end
  {
    if end < |counts| && Takes(counts, start, end, limit) then GreedyFrom(counts, start, end + 1, limit) else end
  }

  lemma GreedyEndUnique(counts: seq<nat>, start: nat, end: nat, other: nat, limit: nat)
    requires start < |counts| && IsGreedyEnd(counts, start, end, limit) && IsGreedyEnd(counts, start, other, limit)
    ensures end == other
  {
  }

  /** Where the chunks of `counts[start..]` end. */
  function GreedyCuts(counts: seq<nat>, start: nat, limit: nat): seq<nat>
    requires start <= |counts| && limit > 0
    decreases |counts| - start
  {
    if start == |counts| then []
    else
      var end := GreedyEnd(counts, start, limit);
      [end] + GreedyCuts(counts, end, limit)
  }

  /** `cuts` are the ends of consecutive non-empty chunks of everything from `start` on. */
  predicate Covers(counts: seq<nat>, start: nat, cuts: seq<nat>)
    decreases |cuts|
  {
    if cuts == [] then start == |counts| else start < cuts[0] <= |counts| && Covers(counts, cuts[0], cuts[1..])
  }

  /** Every chunk is within the limit, or is a single call that exceeds it alone. */
  predicate Within(counts: seq<nat>, start: nat, cuts: seq<nat>, limit: nat)
    requires Covers(counts, start, cuts)
    decreases |cuts|
  {
    cuts != [] ==>
      && (Sum(counts, start, cuts[0]) <= limit || cuts[0] == start + 1)
      && Within(counts, cuts[0], cuts[1..], limit)
  }

  predicate StrictlyWithin(counts: seq<nat>, start: nat, cuts: seq<nat>, limit: nat)
    requires Covers(counts, start, cuts)
    decreases |cuts|
  {
    cuts != [] ==> Sum(counts, start, cuts[0]) <= limit && StrictlyWithin(counts, cuts[0], cuts[1..], limit)
  }

  /** Greedy chunks cover every call once, in order; they keep to the limit when every call asks for something,
      and exceed it nowhere when no single call does. */
  lemma {:induction false} GreedyCovers(counts: seq<nat>, start: nat, limit: nat)
    requires start <= |counts| && limit > 0
    ensures Covers(counts, start, GreedyCuts(counts, start, limit))
    ensures (forall i | 0 <= i < |counts| :: counts[i] >= 1) ==>
              Within(counts, start, GreedyCuts(counts, start, limit), limit)
    ensures (forall i | 0 <= i < |counts| :: counts[i] <= limit) ==>
              StrictlyWithin(counts, start, GreedyCuts(counts, start, limit), limit)
    decreases |counts| - start
  {
    if start < |counts| {
      var end := GreedyEnd(counts, start, limit);
      GreedyCovers(counts, end, limit);
      assert Takes(counts, start, end - 1, limit);
      if end > start + 1 { SumSplits(counts, start, start + 1, end - 1); }
    }
  }

  /** A chunk that starts no earlier than another ends no earlier. */
  lemma GreedyReaches(counts: seq<nat>, p: nat, g: nat, cut: nat, limit: nat)
    requires p <= g < cut <= |counts| && limit > 0
    requires Sum(counts, p, cut) <= limit || cut == p + 1
    ensures cut <= GreedyEnd(counts, g, limit)
  {
    SumSplits(counts, p, g, cut);
    forall k | g <= k < cut ensures Takes(counts, g, k, limit) { SumSplits(counts, g, k + 1, cut); }
  }

  lemma {:induction false} GreedyStaysAhead(counts: seq<nat>, p: nat, g: nat, cuts: seq<nat>, limit: nat)
    requires p <= g <= |counts| && limit > 0
    requires Covers(counts, p, cuts) && Within(counts, p, cuts, limit)
    ensures |GreedyCuts(counts, g, limit)| <= |cuts|
    decreases |cuts|
  {
    if g < |counts| {
      var end := GreedyEnd(counts, g, limit);
      if g < cuts[0] {
        GreedyReaches(counts, p, g, cuts[0], limit);
        GreedyStaysAhead(counts, cuts[0], end, cuts[1..], limit);
      } else {
        GreedyStaysAhead(counts, cuts[0], g, cuts[1..], limit);
      }
    }
  }

  /** No way of cutting the calls in order, within the limit, uses fewer chunks. */
  lemma GreedyIsOptimal(counts: seq<nat>, cuts: seq<nat>, limit: nat)
    requires limit > 0 && Covers(counts, 0, cuts) && Within(counts, 0, cuts, limit)
    ensures |GreedyCuts(counts, 0, limit)| <= |cuts|
  {
    GreedyStaysAhead(counts, 0, 0, cuts, limit);
  }
}
