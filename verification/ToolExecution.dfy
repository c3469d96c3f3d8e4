/**
 One turn of tool calls: plan, merge reads, run the parallel-safe calls, run the others in order, then deliver
 every result in the order of the calls.
 */
module ToolExecution {
  import opened Text
  import History
  import opened ParallelPhase
  import opened ReadBatch

  // ---------------------------------------------------------------- the plan

  /** What the callbacks say of each call if they are asked. */
  datatype Policy = Policy(loops: seq<bool>, skips: seq<Option<string>>)

  predicate Covers(p: Policy, calls: seq<Call>) { |p.loops| == |calls| && |p.skips| == |calls| }

  /** Calls before the first loop are executed or skipped; that one and all after it are given up. */
  ghost predicate Planned(p: Policy, calls: seq<Call>, entries: seq<Status>, trigger: int)
    requires Covers(p, calls)
  {
    && |entries| == |calls| && -1 <= trigger < |calls|
    && (trigger == -1 ==> forall i | 0 <= i < |calls| :: !p.loops[i])
    && (trigger >= 0 ==> p.loops[trigger] && forall i | 0 <= i < trigger :: !p.loops[i])
    && (forall i | 0 <= i < |calls| :: entries[i] == PlannedStatus(p, calls, trigger, i))
  }

  function PlannedStatus(p: Policy, calls: seq<Call>, trigger: int, i: nat): Status
    requires Covers(p, calls) && i < |calls|
  {
    if 0 <= trigger <= i then LoopAbort
    else if p.skips[i].Some? then Skip(p.skips[i].value)
    else Execute
  }

  // ---------------------------------------------------------------- delivery

  datatype Delivery = Appended(message: History.Message) | Called(idx: nat, result: Result)

  function ToolMessage(call: Call, content: string): History.Message {
    History.Message(History.Tool, content, [], call.id, call.tool, 0)
  }

  function SkipMessage(call: Call, msg: string): History.Message {
    if call.id != "" then ToolMessage(call, msg) else History.UserMessage("[Tool Result for " + call.tool + "]\n" + msg)
  }

  /** The wording of the messages for given-up calls: of a stopped call by its tool, of a repeated call, of a later call. */
  datatype Texts = Texts(stopped: string -> string, repeated: string, later: string)

  function LoopMessage(call: Call, trigger: bool, texts: Texts): Option<History.Message> {
    if trigger && call.id != "" then Some(ToolMessage(call, texts.stopped(call.tool)))
    else if trigger then Some(History.UserMessage(texts.repeated))
    else if call.id == "" then None
    else Some(ToolMessage(call, texts.later))
  }

  function DeliveryAt(call: Call, status: Status, result: Result, i: nat, trigger: int, texts: Texts): seq<Delivery> {
    match status
    case Skip(msg) => [Appended(SkipMessage(call, msg))]
    case LoopAbort =>
      var m := LoopMessage(call, i == trigger, texts);
      if m.Some? then [Appended(m.value)] else []
    case _ => [Called(i, result)]
  }

  function Deliveries(calls: seq<Call>, s: Slots, trigger: int, texts: Texts, n: nat): seq<Delivery>
    requires Sized(calls, s) && n <= |calls|
  {
    if n == 0 then []
    else
      Deliveries(calls, s, trigger, texts, n - 1)
      + DeliveryAt(calls[n - 1], s.entries[n - 1], s.results[n - 1], n - 1, trigger, texts)
  }

  /** How often a call is answered: by a tool message with its ID, or by its callback. */
  function Answers(log: seq<Delivery>, calls: seq<Call>, i: nat): nat
    requires i < |calls|
  {
    if log == [] then 0
    else
      Answers(log[..|log| - 1], calls, i)
      + (if Answer(log[|log| - 1], calls[i].id, i) then 1 else 0)
  }

  predicate Answer(d: Delivery, id: string, i: nat) {
    match d
    case Called(idx, _) => idx == i
    case Appended(m) => m.role == History.Tool && m.toolCallID == id
  }

  lemma AnswersAppend(log: seq<Delivery>, d: seq<Delivery>, calls: seq<Call>, i: nat)
    requires i < |calls| && |d| <= 1
    ensures Answers(log + d, calls, i) == Answers(log, calls, i) + (if d != [] && Answer(d[0], calls[i].id, i) then 1 else 0)
  {
    if d == [] {
      assert log + d == log;
    } else {
      assert (log + d)[..|log|] == log;
    }
  }

  /** At most one thing is delivered for a call, and it answers that call or, without an ID, may answer none. */
  lemma DeliveryShape(call: Call, status: Status, result: Result, j: nat, trigger: int, texts: Texts, id: string, i: nat)
    ensures var d := DeliveryAt(call, status, result, j, trigger, texts);
            && |d| <= 1
            && (status in {Execute, Batched} ==> d == [Called(j, result)])
            && (status !in {Execute, Batched} ==> d == [] || d[0].Appended?)
            && (id != "" ==> (d != [] && Answer(d[0], id, i) <==> if status in {Execute, Batched} then i == j else call.id == id))
  {
  }

  /** Every function call, by its ID, is answered exactly once, and in the order of the calls. */
  lemma {:induction false} AnsweredOnce(calls: seq<Call>, s: Slots, trigger: int, texts: Texts, n: nat, i: nat)
    requires Sized(calls, s) && i < |calls| && n <= |calls| && calls[i].id != ""
    requires forall j | 0 <= j < |calls| && j != i :: calls[j].id != calls[i].id
    ensures Answers(Deliveries(calls, s, trigger, texts, n), calls, i) == if i < n then 1 else 0
  {
    hide DeliveryAt, Answer;
    if n > 0 {
      AnsweredOnce(calls, s, trigger, texts, n - 1, i);
      DeliveryShape(calls[n - 1], s.entries[n - 1], s.results[n - 1], n - 1, trigger, texts, calls[i].id, i);
      AnswersAppend(Deliveries(calls, s, trigger, texts, n - 1),
                    DeliveryAt(calls[n - 1], s.entries[n - 1], s.results[n - 1], n - 1, trigger, texts), calls, i);
    }
  }

  /** The indices the callback is called with. */
  function CallbackOrder(log: seq<Delivery>): seq<nat> {
    if log == [] then []
    else
      CallbackOrder(log[..|log| - 1]) + (if log[|log| - 1].Called? then [log[|log| - 1].idx] else [])
  }

  function ExecutedBelow(entries: seq<Status>, n: nat): seq<nat>
    requires n <= |entries|
  {
    if n == 0 then []
    else ExecutedBelow(entries, n - 1) + (if entries[n - 1] in {Execute, Batched} then [n - 1] else [])
  }

  /** The callback sees exactly the executed and batched calls, each once, in their original order. */
  lemma {:induction false} CallbacksInOrder(calls: seq<Call>, s: Slots, trigger: int, texts: Texts, n: nat)
    requires Sized(calls, s) && n <= |calls|
    ensures CallbackOrder(Deliveries(calls, s, trigger, texts, n)) == ExecutedBelow(s.entries, n)
  {
    hide DeliveryAt;
    if n > 0 {
      DeliveryShape(calls[n - 1], s.entries[n - 1], s.results[n - 1], n - 1, trigger, texts, "", 0);
      CallbacksInOrder(calls, s, trigger, texts, n - 1);
      var log := Deliveries(calls, s, trigger, texts, n - 1);
      var d := DeliveryAt(calls[n - 1], s.entries[n - 1], s.results[n - 1], n - 1, trigger, texts);
      if d == [] {
        assert log + d == log;
      } else {
        assert (log + d)[..|log|] == log;
      }
    }
  }

  predicate SameDelivery(a: Slots, b: Slots, i: nat)
    requires i < |a.entries| && i < |b.entries| && i < |a.results| && i < |b.results|
  {
    || (a.entries[i] == b.entries[i] && (a.entries[i] == Execute ==> a.results[i] == b.results[i]))
    || (a.entries[i] in {Execute, Batched} && b.entries[i] in {Execute, Batched} && a.results[i] == b.results[i])
  }

  /** Whether a call was batched makes no difference to what is delivered. */
  lemma {:induction false} DeliveriesAgree(calls: seq<Call>, a: Slots, b: Slots, trigger: int, texts: Texts, n: nat)
    requires Sized(calls, a) && Sized(calls, b) && n <= |calls|
    requires forall i | 0 <= i < |calls| :: SameDelivery(a, b, i) && a.entries[i] != Batched
    ensures Deliveries(calls, a, trigger, texts, n) == Deliveries(calls, b, trigger, texts, n)
  {
    hide LoopMessage, SkipMessage;
    if n > 0 {
      DeliveriesAgree(calls, a, b, trigger, texts, n - 1);
      assert SameDelivery(a, b, n - 1);
    }
  }

  // ---------------------------------------------------------------- which calls run

  /** The indices below `n` that are to be executed and are, or are not, parallel-safe. */
  function Chosen(calls: seq<Call>, entries: seq<Status>, safe: bool, n: nat): (r: seq<nat>)
    requires |entries| == |calls| && n <= |calls|
    ensures forall k | 0 <= k < |r| :: r[k] < n && entries[r[k]] == Execute && calls[r[k]].parallelSafe == safe
    ensures forall j, k | 0 <= j < k < |r| :: r[j] < r[k]
    ensures forall i | 0 <= i < n && entries[i] == Execute && calls[i].parallelSafe == safe :: i in r
  {
    if n == 0 then []
    else
      var r := Chosen(calls, entries, safe, n - 1);
      if entries[n - 1] == Execute && calls[n - 1].parallelSafe == safe then r + [n - 1] else r
  }

  lemma ChosenNone(calls: seq<Call>, entries: seq<Status>, safe: bool)
    requires |entries| == |calls|
    ensures Chosen(calls, entries, safe, 0) == []
  {
  }

  lemma ChosenNext(calls: seq<Call>, entries: seq<Status>, safe: bool, i: nat)
    requires |entries| == |calls| && i < |calls|
    ensures Chosen(calls, entries, safe, i + 1)
         == if entries[i] == Execute && calls[i].parallelSafe == safe then Chosen(calls, entries, safe, i) + [i]
            else Chosen(calls, entries, safe, i)
  {
  }

  // ---------------------------------------------------------------- one call after the other

  lemma NoneYet(tools: Tools, before: seq<Result>, cancelled: bool)
    ensures Outcome([], tools, before, before, 0, cancelled)
  {
  }

  /** A cancellation that comes now finds the same results. */
  lemma NoLater(entries: seq<nat>, tools: Tools, before: seq<Result>, after: seq<Result>, started: nat, cancelled: bool)
    requires Outcome(entries, tools, before, after, started, cancelled)
    ensures Outcome(entries, tools, before, after, started, true) && |after| == |before|
    ensures !cancelled ==> started == |entries|
  {
  }

  lemma OneRefused(entries: seq<nat>, tools: Tools, before: seq<Result>, after: seq<Result>, started: nat, k: nat)
    requires ValidEntries(entries, |before|) && k < |entries|
    requires Outcome(entries[..k], tools, before, after, started, true)
    ensures entries[k] < |after|
    ensures Outcome(entries[..k + 1], tools, before, after[entries[k] := CANCELLED], started, true)
  {
  }

  lemma OneRun(entries: seq<nat>, tools: Tools, before: seq<Result>, after: seq<Result>, started: nat, k: nat,
               result: Result, cancelled: bool)
    requires ValidEntries(entries, |before|) && k < |entries| && started == k
    requires Outcome(entries[..k], tools, before, after, started, false)
    requires result == tools.own(entries[k]) || (cancelled && result == tools.cut(entries[k]))
    ensures entries[k] < |after|
    ensures Outcome(entries[..k + 1], tools, before, after[entries[k] := result], started + 1, cancelled)
  {
  }

  // ---------------------------------------------------------------- the executor

  class CallState {
    const calls: seq<Call>
    const entries: array<Status>
    const results: array<Result>
    var parallelEntries: seq<nat>
    var sequentialEntries: seq<nat>
    var loopTrigger: int
    var loopDetected: bool

    ghost predicate Valid() {
      entries.Length == |calls| && results.Length == |calls|
    }

    ghost function View(): Slots
      reads entries, results
    {
      Slots(entries[..], results[..])
    }

    constructor (calls: seq<Call>)
      ensures Valid() && this.calls == calls && fresh(entries) && fresh(results)
      ensures loopTrigger == -1 && !loopDetected
    {
      this.calls := calls;
      entries := new Status[|calls|](_ => Execute);
      results := new Result[|calls|](_ => Result("", 0, false));
      parallelEntries, sequentialEntries, loopTrigger, loopDetected := [], [], -1, false;
    }

    method PlanCalls(p: Policy)
      requires Valid() && Covers(p, calls) && loopTrigger == -1 && !loopDetected
      modifies this`loopTrigger, this`loopDetected, entries
      ensures Planned(p, calls, entries[..], loopTrigger) && loopDetected == (loopTrigger >= 0)
    {
      var aborted := false;
      for i := 0 to |calls|
        invariant aborted == loopDetected == (loopTrigger >= 0) && -1 <= loopTrigger < i
        invariant loopTrigger == -1 ==> forall j | 0 <= j < i :: !p.loops[j]
        invariant loopTrigger >= 0 ==> p.loops[loopTrigger] && forall j | 0 <= j < loopTrigger :: !p.loops[j]
        invariant forall j | 0 <= j < i :: entries[j] == PlannedStatus(p, calls, loopTrigger, j)
      {
        if aborted {
          entries[i] := LoopAbort;
          continue;
        }
        if p.loops[i] {
          entries[i] := LoopAbort;
          loopDetected, loopTrigger, aborted := true, i, true;
          continue;
        }
        if p.skips[i].Some? {
          entries[i] := Skip(p.skips[i].value);
          continue;
        }
        entries[i] := Execute;
      }
    }

    method Partition()
      requires Valid()
      modifies this`parallelEntries, this`sequentialEntries
      ensures parallelEntries == Chosen(calls, entries[..], true, |calls|)
      ensures sequentialEntries == Chosen(calls, entries[..], false, |calls|)
    {
      hide Chosen;
      ghost var planned := entries[..];
      ChosenNone(calls, planned, true);
      ChosenNone(calls, planned, false);
      parallelEntries, sequentialEntries := [], [];
      for i := 0 to |calls|
        invariant parallelEntries == Chosen(calls, planned, true, i)
        invariant sequentialEntries == Chosen(calls, planned, false, i)
      {
        ChosenNext(calls, planned, true, i);
        ChosenNext(calls, planned, false, i);
        if entries[i] != Execute { continue; }
        if calls[i].parallelSafe {
          parallelEntries := parallelEntries + [i];
        } else {
          sequentialEntries := sequentialEntries + [i];
        }
      }
    }

    /** The remaining calls one by one; the context may be cancelled before or during any of them. */
    method ExecuteSequentialTools(tools: Tools, alreadyCancelled: bool) returns (started: nat, cancelled: bool)
      requires Valid() && ValidEntries(sequentialEntries, |calls|)
      modifies results
      ensures alreadyCancelled ==> cancelled
      ensures Outcome(sequentialEntries, tools, old(results[..]), results[..], started, cancelled)
    {
      started, cancelled := 0, alreadyCancelled;
      NoneYet(tools, results[..], cancelled);
      hide Outcome;
      ghost var before := results[..];
      for k := 0 to |sequentialEntries|
        invariant alreadyCancelled ==> cancelled
        invariant Outcome(sequentialEntries[..k], tools, before, results[..], started, cancelled)
      {
        var idx := sequentialEntries[k];
        ghost var done := results[..];
        NoLater(sequentialEntries[..k], tools, before, done, started, cancelled);
        if !cancelled { cancelled := *; }
        if cancelled {
          results[idx] := CANCELLED;
          assert results[..] == done[idx := CANCELLED];
          OneRefused(sequentialEntries, tools, before, done, started, k);
          continue;
        }
        cancelled := *;
        var noticed: bool := *;
        var result := if cancelled && noticed then tools.cut(idx) else tools.own(idx);
        results[idx] := result;
        assert results[..] == done[idx := result];
        OneRun(sequentialEntries, tools, before, done, started, k, result, cancelled);
        started := started + 1;
      }
      assert sequentialEntries[..|sequentialEntries|] == sequentialEntries;
    }

    method DeliverAll(texts: Texts) returns (log: seq<Delivery>)
      requires Valid()
      ensures log == Deliveries(calls, View(), loopTrigger, texts, |calls|)
    {
      log := [];
      for i := 0 to |calls|
        invariant log == Deliveries(calls, View(), loopTrigger, texts, i)
      {
        var delivered := DeliverAt(i, texts);
        log := log + delivered;
      }
    }

    method DeliverAt(i: nat, texts: Texts) returns (delivered: seq<Delivery>)
      requires Valid() && i < |calls|
      ensures delivered == DeliveryAt(calls[i], entries[i], results[i], i, loopTrigger, texts)
    {
      match entries[i] {
        case Skip(msg) => return [Appended(SkipMessage(calls[i], msg))];
        case LoopAbort =>
          var m := LoopMessage(calls[i], i == loopTrigger, texts);
          return if m.Some? then [Appended(m.value)] else [];
        case Execute => return [Called(i, results[i])];
        case Batched => return [Called(i, results[i])];
      }
    }

    /** The whole turn. The search_code batches, which only ever turn calls into batched ones, are not modelled. */
    method ExecuteToolCalls(p: Policy, reader: Reader, tools: Tools, texts: Texts, alreadyCancelled: bool)
      returns (log: seq<Delivery>, cancelled: bool, ghost plan: seq<Status>)
      requires Valid() && Covers(p, calls) && loopTrigger == -1 && !loopDetected
      modifies this`parallelEntries, this`sequentialEntries, this`loopTrigger, this`loopDetected, entries, results
      ensures Planned(p, calls, plan, loopTrigger) && loopDetected == (loopTrigger >= 0)
      ensures log == Deliveries(calls, View(), loopTrigger, texts, |calls|)
      ensures ReadsAgree(calls, plan, reader, tools) ==> RunTo(calls, plan, View(), tools, cancelled)
      ensures ReadsAgree(calls, plan, reader, tools) && !cancelled ==>
                log == Deliveries(calls, Slots(plan, Owned(calls, tools)), loopTrigger, texts, |calls|)
    {
      hide SegmentsRight, Outcome, ReadsAgree, Deliveries, RunTo, Owned, Covers, AllMerged, Chosen;
      PlanCalls(p);
      plan := entries[..];
      ghost var s0 := View();
      ghost var segments := ExecuteReadFileBatchMerge(calls, reader, entries, results);
      ghost var s1 := View();
      Partition();
      ghost var par, sequ := parallelEntries, sequentialEntries;
      var started, c := ExecuteParallelSafeTools(parallelEntries, tools, results, alreadyCancelled);
      ghost var r2 := results[..];
      var startedToo;
      startedToo, cancelled := ExecuteSequentialTools(tools, c);
      if ReadsAgree(calls, plan, reader, tools) {
        TurnRuns(calls, plan, reader, tools, s0, s1, segments, r2, results[..], started, c, startedToo, cancelled);
        if !cancelled { RunIsOwned(calls, plan, View(), tools, loopTrigger, texts); }
      }
      log := DeliverAll(texts);
    }
  }

  /** Batch reads are pointwise, and reading alone is what running a read call gives. */
  ghost predicate ReadsAgree(calls: seq<Call>, plan: seq<Status>, reader: Reader, tools: Tools) {
    && |plan| == |calls| && Pointwise(reader)
    && forall i | 0 <= i < |calls| && Joins(calls, ExecFlags(plan), i) :: tools.own(i) == Alone(reader, calls[i])
  }

  function Owned(calls: seq<Call>, tools: Tools): (r: seq<Result>)
    ensures |r| == |calls| && forall i | 0 <= i < |calls| :: r[i] == tools.own(i)
  {
    seq(|calls|, i requires 0 <= i < |calls| => tools.own(i))
  }

  /** Every call planned for execution has its own result; a cancellation may cut it short or refuse it. */
  ghost predicate RunTo(calls: seq<Call>, plan: seq<Status>, s: Slots, tools: Tools, cancelled: bool) {
    && Sized(calls, s) && |plan| == |calls|
    && forall i | 0 <= i < |calls| ::
         if plan[i] == Execute
         then s.entries[i] in {Execute, Batched} &&
              (s.results[i] == tools.own(i) || (cancelled && s.results[i] in {tools.cut(i), CANCELLED}))
         else s.entries[i] == plan[i]
  }

  lemma {:induction false} MembersJoin(calls: seq<Call>, exec: seq<bool>, segments: seq<seq<nat>>, x: nat)
    requires |exec| == |calls| && SegmentsOk(calls, exec, segments) && x in Members(segments)
    ensures x < |calls| && Joins(calls, exec, x)
  {
    var n := |segments| - 1;
    if x in segments[n] {
      assert SegmentOk(calls, exec, segments[n]);
    } else {
      forall s | 0 <= s < n ensures |segments[..n][s]| >= 2 && SegmentOk(calls, exec, segments[..n][s]) {
        assert segments[..n][s] == segments[s];
      }
      MembersJoin(calls, exec, segments[..n], x);
    }
  }

  /** After merging, a call planned for execution is still to be run, or batched with its own result. */
  lemma {:induction false} MergedOwn(calls: seq<Call>, plan: seq<Status>, reader: Reader, tools: Tools, s0: Slots, s1: Slots, segments: seq<seq<nat>>)
    requires Sized(calls, s0) && s0.entries == plan && ReadsAgree(calls, plan, reader, tools)
    requires forall i | 0 <= i < |plan| :: plan[i] != Batched
    requires SegmentsRight(calls, ExecFlags(plan), segments)
    requires forall i | 0 <= i < |segments| :: Indexes(calls, segments[i])
    requires s1 == AllMerged(calls, reader, s0, segments)
    ensures Sized(calls, s1)
    ensures forall i | 0 <= i < |calls| ::
              if s1.entries[i] == Batched then plan[i] == Execute && s1.results[i] == tools.own(i) else s1.entries[i] == plan[i]
  {
    MergingPreservesMeaning(calls, reader, s0, segments);
    hide AllMerged;
    forall i | 0 <= i < |calls|
      ensures if s1.entries[i] == Batched then plan[i] == Execute && s1.results[i] == tools.own(i) else s1.entries[i] == plan[i]
    {
      assert SlotKept(calls, reader, s0, s1, Members(segments), i);
      if i in Members(segments) { MembersJoin(calls, ExecFlags(plan), segments, i); }
      hide Joins, Alone, Pointwise;
    }
  }

  /** The two phases on what is left to run. */
  lemma {:induction false} PhasesOwn(calls: seq<Call>, entries: seq<Status>, tools: Tools, r1: seq<Result>, r2: seq<Result>, r3: seq<Result>,
                  started: nat, c: bool, startedToo: nat, cancelled: bool, i: nat)
    requires |entries| == |calls| == |r1| && i < |calls| && (c ==> cancelled)
    requires Outcome(Chosen(calls, entries, true, |calls|), tools, r1, r2, started, c)
    requires Outcome(Chosen(calls, entries, false, |calls|), tools, r2, r3, startedToo, cancelled)
    ensures |r3| == |calls|
    ensures entries[i] != Execute ==> r3[i] == r1[i]
    ensures entries[i] == Execute ==> r3[i] == tools.own(i) || (cancelled && r3[i] in {tools.cut(i), CANCELLED})
  {
    var par, sequ := Chosen(calls, entries, true, |calls|), Chosen(calls, entries, false, |calls|);
    assert entries[i] != Execute ==> i !in par && i !in sequ;
    if entries[i] == Execute {
      if calls[i].parallelSafe {
        assert i in par && i !in sequ;
        var k :| 0 <= k < |par| && par[k] == i;
      } else {
        assert i in sequ && i !in par;
        var k :| 0 <= k < |sequ| && sequ[k] == i;
      }
    }
  }

  lemma {:induction false} TurnRuns(calls: seq<Call>, plan: seq<Status>, reader: Reader, tools: Tools, s0: Slots, s1: Slots,
                 segments: seq<seq<nat>>, r2: seq<Result>, r3: seq<Result>, started: nat, c: bool, startedToo: nat, cancelled: bool)
    requires Sized(calls, s0) && s0.entries == plan && ReadsAgree(calls, plan, reader, tools)
    requires forall i | 0 <= i < |plan| :: plan[i] != Batched
    requires SegmentsRight(calls, ExecFlags(plan), segments)
    requires forall i | 0 <= i < |segments| :: Indexes(calls, segments[i])
    requires s1 == AllMerged(calls, reader, s0, segments) && (c ==> cancelled)
    requires Outcome(Chosen(calls, s1.entries, true, |calls|), tools, s1.results, r2, started, c)
    requires Outcome(Chosen(calls, s1.entries, false, |calls|), tools, r2, r3, startedToo, cancelled)
    ensures RunTo(calls, plan, Slots(s1.entries, r3), tools, cancelled)
  {
    MergedOwn(calls, plan, reader, tools, s0, s1, segments);
    assert |r3| == |r2| == |s1.results|;
    hide AllMerged, ReadsAgree, SegmentsRight, Outcome, Chosen;
    forall i | 0 <= i < |calls|
      ensures if plan[i] == Execute
              then s1.entries[i] in {Execute, Batched} &&
                   (r3[i] == tools.own(i) || (cancelled && r3[i] in {tools.cut(i), CANCELLED}))
              else s1.entries[i] == plan[i]
    {
      PhasesOwn(calls, s1.entries, tools, s1.results, r2, r3, started, c, startedToo, cancelled, i);
    }
  }

  lemma {:induction false} RunIsOwned(calls: seq<Call>, plan: seq<Status>, s: Slots, tools: Tools, trigger: int, texts: Texts)
    requires RunTo(calls, plan, s, tools, false) && forall i | 0 <= i < |plan| :: plan[i] != Batched
    ensures Deliveries(calls, s, trigger, texts, |calls|)
         == Deliveries(calls, Slots(plan, Owned(calls, tools)), trigger, texts, |calls|)
  {
    var own := Slots(plan, Owned(calls, tools));
    forall i | 0 <= i < |calls| ensures SameDelivery(own, s, i) {}
    hide RunTo, SameDelivery;
    DeliveriesAgree(calls, own, s, trigger, texts, |calls|);
  }
}
