/**
 The worker phase of the tool executor: a dispatcher that starts one worker per call, in order, behind a
 semaphore; workers that run, write their slot, release the semaphore and finish; and a request context
 that may be cancelled at any moment and stays cancelled. Every interleaving is a sequence of events.
 */
module ParallelPhase {

  /** `payload` stands for the file change and the observation a result carries. */
  datatype Result = Result(text: string, payload: nat, error: bool)

  const CANCELLED := Result("Error: context cancelled", 0, true)

  const MAX_PARALLEL_TOOLS: nat := 4

  /** What running call `i` returns: `own(i)` undisturbed, or `cut(i)` when it notices the cancellation. */
  datatype Tools = Tools(own: nat -> Result, cut: nat -> Result)

  /** Where the worker of one entry is. */
  datatype Stage = Waiting | Executing | Written | Released | Done | Refused

  /** `next` entries have been handled by the dispatcher, `started` of them by starting a worker; `acquiring`
      says the dispatcher has seen the context alive and waits for the semaphore. `writes` counts the writes
      to each result slot. */
  datatype Phase = Phase(next: nat, acquiring: bool, started: nat, sem: nat, stage: seq<Stage>, cancelled: bool,
                         results: seq<Result>, writes: seq<nat>)

  datatype Event =
    | Cancel
    | SeeAlive
    | SeeCancelled
    | Acquire
    | Write(at: nat, noticed: bool)
    | Release(at: nat)
    | Finish(at: nat)

  predicate Finished(s: Phase) {
    s.next == |s.stage| && forall k | 0 <= k < |s.stage| :: s.stage[k] in {Done, Refused}
  }

  predicate Enabled(s: Phase, e: Event) {
    match e
    case Cancel => !s.cancelled
    case SeeAlive => !s.acquiring && s.next < |s.stage| && !s.cancelled
    case SeeCancelled => !s.acquiring && s.next < |s.stage| && s.cancelled
    case Acquire => s.acquiring && s.next < |s.stage| && s.sem < MAX_PARALLEL_TOOLS
    case Write(k, noticed) => k < |s.stage| && s.stage[k] == Executing && (noticed ==> s.cancelled)
    case Release(k) => k < |s.stage| && s.stage[k] == Written && s.sem > 0
    case Finish(k) => k < |s.stage| && s.stage[k] == Released
  }

  predicate Fits(s: Phase, entries: seq<nat>) {
    |s.stage| == |entries| && |s.writes| == |s.results| && forall k | 0 <= k < |entries| :: entries[k] < |s.results|
  }

  function Wrote(s: Phase, entries: seq<nat>, k: nat, r: Result): Phase
    requires Fits(s, entries) && k < |entries|
  {
    s.(results := s.results[entries[k] := r], writes := s.writes[entries[k] := s.writes[entries[k]] + 1])
  }

  function Next(s: Phase, entries: seq<nat>, tools: Tools, e: Event): Phase
    requires Fits(s, entries) && Enabled(s, e)
  {
    match e
    case Cancel => s.(cancelled := true)
    case SeeAlive => s.(acquiring := true)
    case SeeCancelled => Wrote(s, entries, s.next, CANCELLED).(next := s.next + 1, stage := s.stage[s.next := Refused])
    case Acquire => s.(acquiring := false, next := s.next + 1, started := s.started + 1, sem := s.sem + 1,
                       stage := s.stage[s.next := Executing])
    case Write(k, noticed) =>
      Wrote(s, entries, k, if noticed then tools.cut(entries[k]) else tools.own(entries[k])).(stage := s.stage[k := Written])
    case Release(k) => s.(sem := s.sem - 1, stage := s.stage[k := Released])
    case Finish(k) => s.(stage := s.stage[k := Done])
  }

  function Start(entries: seq<nat>, results: seq<Result>, cancelled: bool): Phase {
    Phase(0, false, 0, 0, seq(|entries|, _ => Waiting), cancelled, results, seq(|results|, _ => 0))
  }

  // ---------------------------------------------------------------- the invariant

  function Holds(g: Stage): nat { if g == Executing || g == Written then 1 else 0 }

  function Work(g: Stage): nat {
    match g
    case Waiting => 6
    case Executing => 3
    case Written => 2
    case Released => 1
    case _ => 0
  }

  function Total(stage: seq<Stage>, w: Stage -> nat): nat {
    if stage == [] then 0 else Total(stage[..|stage| - 1], w) + w(stage[|stage| - 1])
  }

  lemma {:induction false} TotalUpdate(stage: seq<Stage>, w: Stage -> nat, k: nat, g: Stage)
    requires k < |stage|
    ensures Total(stage[k := g], w) == Total(stage, w) - w(stage[k]) + w(g)
    ensures Total(stage, w) >= w(stage[k])
  {
    var n := |stage| - 1;
    if k == n {
      assert stage[k := g][..n] == stage[..n];
    } else {
      TotalUpdate(stage[..n], w, k, g);
      assert stage[k := g][..n] == stage[..n][k := g];
    }
  }

  lemma {:induction false} TotalWitness(stage: seq<Stage>, w: Stage -> nat) returns (k: nat)
    requires Total(stage, w) > 0
    ensures k < |stage| && w(stage[k]) > 0
  {
    var n := |stage| - 1;
    if w(stage[n]) > 0 { k := n; } else { k := TotalWitness(stage[..n], w); }
  }

  lemma {:induction false} TotalOfWaiting(n: nat, w: Stage -> nat)
    ensures Total(seq(n, _ => Waiting), w) == n * w(Waiting)
  {
    if n > 0 {
      TotalOfWaiting(n - 1, w);
      assert seq(n, _ => Waiting)[..n - 1] == seq(n - 1, _ => Waiting);
    }
  }

  /** The dispatcher goes in order; once it has refused an entry it refuses all the rest. */
  ghost predicate DispatchInv(s: Phase) {
    && s.started <= s.next <= |s.stage|
    && (s.acquiring ==> s.next < |s.stage| && s.started == s.next)
    && (s.started < s.next ==> s.cancelled)
    && (forall k | 0 <= k < |s.stage| :: s.stage[k] == Waiting <==> s.next <= k)
    && (forall k | 0 <= k < |s.stage| :: s.stage[k] == Refused <==> s.started <= k < s.next)
  }

  ghost predicate SemaphoreInv(s: Phase) {
    s.sem == Total(s.stage, Holds) && s.sem <= MAX_PARALLEL_TOOLS
  }

  /** The slot of entry `k`: untouched until its one write, and then a result of its own. */
  ghost predicate SlotOk(s: Phase, entries: seq<nat>, tools: Tools, before: seq<Result>, k: nat)
    requires Fits(s, entries) && k < |entries| && |before| == |s.results|
  {
    var i := entries[k];
    match s.stage[k]
    case Waiting => s.writes[i] == 0 && s.results[i] == before[i]
    case Executing => s.writes[i] == 0 && s.results[i] == before[i]
    case Refused => s.writes[i] == 1 && s.results[i] == CANCELLED
    case _ => s.writes[i] == 1 && (s.results[i] == tools.own(i) || (s.cancelled && s.results[i] == tools.cut(i)))
  }

  ghost predicate ResultsInv(s: Phase, entries: seq<nat>, tools: Tools, before: seq<Result>) {
    && Fits(s, entries) && |before| == |s.results|
    && (forall k | 0 <= k < |entries| :: SlotOk(s, entries, tools, before, k))
    && (forall i | 0 <= i < |before| && i !in entries :: s.writes[i] == 0 && s.results[i] == before[i])
  }

  ghost predicate Inv(s: Phase, entries: seq<nat>, tools: Tools, before: seq<Result>) {
    DispatchInv(s) && SemaphoreInv(s) && ResultsInv(s, entries, tools, before)
  }

  /** The entries are distinct slots of the results. */
  ghost predicate ValidEntries(entries: seq<nat>, n: nat) {
    && (forall k | 0 <= k < |entries| :: entries[k] < n)
    && (forall j, k | 0 <= j < k < |entries| :: entries[j] != entries[k])
  }

  lemma StartInv(entries: seq<nat>, tools: Tools, before: seq<Result>, cancelled: bool)
    requires ValidEntries(entries, |before|)
    ensures Inv(Start(entries, before, cancelled), entries, tools, before)
  {
    TotalOfWaiting(|entries|, Holds);
  }

  lemma SemaphoreKept(s: Phase, entries: seq<nat>, tools: Tools, e: Event)
    requires DispatchInv(s) && SemaphoreInv(s) && Fits(s, entries) && Enabled(s, e)
    ensures SemaphoreInv(Next(s, entries, tools, e))
  {
    match e {
      case SeeCancelled => TotalUpdate(s.stage, Holds, s.next, Refused);
      case Acquire => TotalUpdate(s.stage, Holds, s.next, Executing);
      case Write(k, _) => TotalUpdate(s.stage, Holds, k, Written);
      case Release(k) => TotalUpdate(s.stage, Holds, k, Released);
      case Finish(k) => TotalUpdate(s.stage, Holds, k, Done);
      case _ =>
    }
  }

  lemma DispatchKept(s: Phase, entries: seq<nat>, tools: Tools, e: Event)
    requires DispatchInv(s) && Fits(s, entries) && Enabled(s, e)
    ensures DispatchInv(Next(s, entries, tools, e))
  {
  }

  lemma ResultsKept(s: Phase, entries: seq<nat>, tools: Tools, before: seq<Result>, e: Event)
    requires DispatchInv(s) && ResultsInv(s, entries, tools, before) && Enabled(s, e)
    requires ValidEntries(entries, |before|)
    ensures ResultsInv(Next(s, entries, tools, e), entries, tools, before)
  {
    var t := Next(s, entries, tools, e);
    forall k | 0 <= k < |entries| ensures SlotOk(t, entries, tools, before, k) {
      assert SlotOk(s, entries, tools, before, k);
    }
    forall i | 0 <= i < |before| && i !in entries ensures t.writes[i] == 0 && t.results[i] == before[i] {
      assert s.writes[i] == 0;
    }
  }

  lemma StepKeeps(s: Phase, entries: seq<nat>, tools: Tools, before: seq<Result>, e: Event)
    requires Inv(s, entries, tools, before) && Enabled(s, e) && ValidEntries(entries, |before|)
    ensures Inv(Next(s, entries, tools, e), entries, tools, before)
  {
    SemaphoreKept(s, entries, tools, e);
    DispatchKept(s, entries, tools, e);
    ResultsKept(s, entries, tools, before, e);
  }

  // ---------------------------------------------------------------- it ends, and never gets stuck

  /** What is left to do. */
  function Remaining(s: Phase): int {
    Total(s.stage, Work) - (if s.acquiring then 1 else 0) + (if s.cancelled then 0 else 1)
  }

  lemma StepShrinks(s: Phase, entries: seq<nat>, tools: Tools, e: Event)
    requires DispatchInv(s) && Fits(s, entries) && Enabled(s, e)
    ensures 0 <= Remaining(Next(s, entries, tools, e)) < Remaining(s)
  {
    match e {
      case SeeCancelled => TotalUpdate(s.stage, Work, s.next, Refused);
      case Acquire => TotalUpdate(s.stage, Work, s.next, Executing);
      case Write(k, _) => TotalUpdate(s.stage, Work, k, Written);
      case Release(k) => TotalUpdate(s.stage, Work, k, Released);
      case Finish(k) => TotalUpdate(s.stage, Work, k, Done);
      case _ =>
    }
    DispatchKept(s, entries, tools, e);
    RemainingNonnegative(Next(s, entries, tools, e));
  }

  lemma RemainingNonnegative(s: Phase)
    requires DispatchInv(s)
    ensures Remaining(s) >= 0
  {
    if s.acquiring { TotalUpdate(s.stage, Work, s.next, Waiting); }
  }

  /** One event: the invariant is kept and less is left to do. */
  lemma Moved(s: Phase, entries: seq<nat>, tools: Tools, before: seq<Result>, e: Event) returns (t: Phase)
    requires Inv(s, entries, tools, before) && Enabled(s, e) && ValidEntries(entries, |before|)
    ensures Fits(s, entries) && t == Next(s, entries, tools, e)
    ensures Inv(t, entries, tools, before) && 0 <= Remaining(t) < Remaining(s)
  {
    StepKeeps(s, entries, tools, before, e);
    StepShrinks(s, entries, tools, e);
    t := Next(s, entries, tools, e);
  }

  /** While the phase is not over, someone other than the outside world can move. */
  lemma NeverStuck(s: Phase, entries: seq<nat>, tools: Tools, before: seq<Result>) returns (e: Event)
    requires Inv(s, entries, tools, before) && !Finished(s)
    ensures Enabled(s, e) && e != Cancel
  {
    if s.acquiring && s.sem == MAX_PARALLEL_TOOLS {
      var k := TotalWitness(s.stage, Holds);
      e := if s.stage[k] == Executing then Write(k, false) else Release(k);
    } else if s.acquiring {
      e := Acquire;
    } else if s.next < |s.stage| {
      e := if s.cancelled then SeeCancelled else SeeAlive;
    } else {
      var k :| 0 <= k < |s.stage| && s.stage[k] !in {Done, Refused};
      if s.stage[k] == Written { TotalUpdate(s.stage, Holds, k, Released); }
      e := if s.stage[k] == Executing then Write(k, false) else if s.stage[k] == Written then Release(k) else Finish(k);
    }
  }

  // ---------------------------------------------------------------- every interleaving

  ghost predicate Interleaving(s: Phase, entries: seq<nat>, tools: Tools, events: seq<Event>)
    decreases |events|
  {
    events != [] ==>
      && Fits(s, entries) && Enabled(s, events[0])
      && Interleaving(Next(s, entries, tools, events[0]), entries, tools, events[1..])
  }

  ghost function After(s: Phase, entries: seq<nat>, tools: Tools, events: seq<Event>): Phase
    requires Interleaving(s, entries, tools, events)
    decreases |events|
  {
    if events == [] then s else After(Next(s, entries, tools, events[0]), entries, tools, events[1..])
  }

  lemma {:induction false} RunKeeps(s: Phase, entries: seq<nat>, tools: Tools, before: seq<Result>, events: seq<Event>)
    requires Inv(s, entries, tools, before) && ValidEntries(entries, |before|) && Interleaving(s, entries, tools, events)
    ensures Inv(After(s, entries, tools, events), entries, tools, before)
    ensures |events| <= Remaining(s) - Remaining(After(s, entries, tools, events))
    decreases |events|
  {
    if events != [] {
      StepKeeps(s, entries, tools, before, events[0]);
      StepShrinks(s, entries, tools, events[0]);
      RunKeeps(Next(s, entries, tools, events[0]), entries, tools, before, events[1..]);
    }
  }

  /** What the results look like when the phase is over, `started` workers having been started. */
  ghost predicate Outcome(entries: seq<nat>, tools: Tools, before: seq<Result>, after: seq<Result>, started: nat, cancelled: bool) {
    && |after| == |before| && started <= |entries| && (!cancelled ==> started == |entries|)
    && (forall k | 0 <= k < |entries| :: entries[k] < |before|)
    && (forall k | 0 <= k < started ::
          after[entries[k]] == tools.own(entries[k]) || (cancelled && after[entries[k]] == tools.cut(entries[k])))
    && (forall k | started <= k < |entries| :: after[entries[k]] == CANCELLED)
    && (forall i | 0 <= i < |before| && i !in entries :: after[i] == before[i])
  }

  lemma FinishedOutcome(s: Phase, entries: seq<nat>, tools: Tools, before: seq<Result>)
    requires Inv(s, entries, tools, before) && Finished(s)
    ensures Outcome(entries, tools, before, s.results, s.started, s.cancelled)
    ensures |s.writes| == |before| && forall i | 0 <= i < |before| :: s.writes[i] == if i in entries then 1 else 0
  {
    forall k | 0 <= k < |entries|
      ensures s.writes[entries[k]] == 1
      ensures if s.started <= k then s.results[entries[k]] == CANCELLED
              else s.results[entries[k]] == tools.own(entries[k]) ||
                   (s.cancelled && s.results[entries[k]] == tools.cut(entries[k]))
    {
      assert SlotOk(s, entries, tools, before, k);
      assert s.stage[k] in {Done, Refused};
    }
  }

  lemma InvMeans(s: Phase, entries: seq<nat>, tools: Tools, before: seq<Result>)
    requires Inv(s, entries, tools, before)
    ensures Total(s.stage, Holds) <= MAX_PARALLEL_TOOLS && Remaining(s) >= 0
    ensures !Finished(s) ==> exists e :: Enabled(s, e) && e != Cancel
    ensures Finished(s) ==>
              && Outcome(entries, tools, before, s.results, s.started, s.cancelled) && |s.writes| == |before|
              && forall i | 0 <= i < |before| :: s.writes[i] == if i in entries then 1 else 0
  {
    RemainingNonnegative(s);
    hide DispatchInv, ResultsInv, Finished, Enabled, Outcome;
    if Finished(s) {
      FinishedOutcome(s, entries, tools, before);
    } else {
      var e := NeverStuck(s, entries, tools, before);
    }
  }

  /** For every interleaving, from the start or any moment before it: at most four workers hold the semaphore,
      the run is no longer than six events a call and one cancellation, and it can always go on until it is
      finished; then every parallel slot was written exactly once, with its own result, or refused as part of a
      suffix because the context was cancelled, and no other slot was touched. */
  lemma EveryInterleaving(entries: seq<nat>, tools: Tools, before: seq<Result>, cancelled: bool, events: seq<Event>)
    requires ValidEntries(entries, |before|)
    requires Interleaving(Start(entries, before, cancelled), entries, tools, events)
    ensures var s := After(Start(entries, before, cancelled), entries, tools, events);
            && Total(s.stage, Holds) <= MAX_PARALLEL_TOOLS
            && |events| <= 6 * |entries| + 1
            && (!Finished(s) ==> exists e :: Enabled(s, e) && e != Cancel)
            && (Finished(s) ==>
                  && Outcome(entries, tools, before, s.results, s.started, s.cancelled) && |s.writes| == |before|
                  && forall i | 0 <= i < |before| :: s.writes[i] == if i in entries then 1 else 0)
  {
    hide After, Interleaving, Inv, Outcome, Finished, Enabled;
    var s0 := Start(entries, before, cancelled);
    StartInv(entries, tools, before, cancelled);
    TotalOfWaiting(|entries|, Work);
    RunKeeps(s0, entries, tools, before, events);
    InvMeans(After(s0, entries, tools, events), entries, tools, before);
  }

  /** Without a cancellation there is one outcome, whatever the schedule. */
  lemma OutcomeUnique(entries: seq<nat>, tools: Tools, before: seq<Result>, after: seq<Result>, other: seq<Result>,
                      started: nat, also: nat)
    requires Outcome(entries, tools, before, after, started, false) && Outcome(entries, tools, before, other, also, false)
    ensures after == other
  {
    forall i | 0 <= i < |before| ensures after[i] == other[i] {
      if i in entries {
        var k :| 0 <= k < |entries| && entries[k] == i;
        assert after[entries[k]] == tools.own(entries[k]) == other[entries[k]];
      }
    }
  }

  /** The phase on the result array itself, its schedule left open: each round lets anyone move who can. */
  method ExecuteParallelSafeTools(entries: seq<nat>, tools: Tools, results: array<Result>, alreadyCancelled: bool)
    returns (started: nat, cancelled: bool)
    requires ValidEntries(entries, results.Length)
    modifies results
    ensures alreadyCancelled ==> cancelled
    ensures Outcome(entries, tools, old(results[..]), results[..], started, cancelled)
  {
    hide Inv, Remaining, Outcome, Fits;
    var n := |entries|;
    var next, acquiring, sem := 0, false, 0;
    var stage := seq(n, _ => Waiting);
    started, cancelled := 0, alreadyCancelled;
    ghost var before := results[..];
    ghost var s := Start(entries, before, alreadyCancelled);
    StartInv(entries, tools, before, alreadyCancelled);
    while next < n || exists k :: 0 <= k < n && stage[k] !in {Done, Refused}
      invariant |stage| == n && next <= n && s.next == next && s.acquiring == acquiring && s.started == started && s.sem == sem
      invariant s.stage == stage && s.cancelled == cancelled && s.results == results[..]
      invariant Inv(s, entries, tools, before) && (alreadyCancelled ==> cancelled)
      decreases Remaining(s)
    {
      ghost var move := NeverStuck(s, entries, tools, before);
      ghost var e: Event;
      if {
      case !cancelled =>
        e := Cancel;
        cancelled := true;
      case !acquiring && next < n && !cancelled =>
        e := SeeAlive;
        acquiring := true;
      case !acquiring && next < n && cancelled =>
        e := SeeCancelled;
        results[entries[next]] := CANCELLED;
        stage, next := stage[next := Refused], next + 1;
      case acquiring && next < n && sem < MAX_PARALLEL_TOOLS =>
        e := Acquire;
        stage := stage[next := Executing];
        acquiring, next, started, sem := false, next + 1, started + 1, sem + 1;
      case k: nat :| k < n && stage[k] == Executing =>
        var noticed: bool := *;
        noticed := noticed && cancelled;
        e := Write(k, noticed);
        results[entries[k]] := if noticed then tools.cut(entries[k]) else tools.own(entries[k]);
        stage := stage[k := Written];
      case k: nat :| k < n && stage[k] == Written && sem > 0 =>
        e := Release(k);
        stage, sem := stage[k := Released], sem - 1;
      case k: nat :| k < n && stage[k] == Released =>
        e := Finish(k);
        stage := stage[k := Done];
      }
      s := Moved(s, entries, tools, before, e);
    }
    FinishedOutcome(s, entries, tools, before);
  }
}
