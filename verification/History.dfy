/**
 Conversation messages and the places where a history may be cut for compression.
 A tool-call turn is an assistant message with tool calls and the run of tool messages after it.
 */
module History {

  datatype Role = User | Assistant | Tool | System

  datatype ToolCall = ToolCall(id: string, name: string)

  /** `providerState` stands for everything a message carries that is not compared or cut here. */
  datatype Message = Message(role: Role, content: string, toolCalls: seq<ToolCall>,
                             toolCallID: string, toolName: string, providerState: nat)

  function UserMessage(content: string): Message { Message(User, content, [], "", "", 0) }

  predicate HasCalls(m: Message) { m.toolCalls != [] }

  /** Only assistants call tools, and a tool message follows a call or another tool message. */
  ghost predicate WellFormed(h: seq<Message>) {
    && (forall i | 0 <= i < |h| :: HasCalls(h[i]) ==> h[i].role == Assistant)
    && (forall i | 0 <= i < |h| :: h[i].role == Tool ==> i > 0 && (h[i - 1].role == Tool || HasCalls(h[i - 1])))
  }

  /** Message `r` is a result of the tool-call turn that starts at `a`. */
  ghost predicate IsResultOf(h: seq<Message>, a: int, r: int) {
    0 <= a < r < |h| && HasCalls(h[a]) && forall j | a < j <= r :: h[j].role == Tool
  }

  /** Cutting before `k` puts a tool call on one side and one of its results on the other. */
  ghost predicate Separates(h: seq<Message>, k: int) {
    exists a, r :: IsResultOf(h, a, r) && a < k <= r
  }

  // ---------------------------------------------------------------- adjusting a split index

  /** The message the tool run through `i` hangs on: `i` itself when it is not a tool message. */
  function TurnStart(h: seq<Message>, i: nat): (s: nat)
    requires i < |h|
    ensures s <= i && (s > 0 ==> h[s].role != Tool)
    ensures forall j | s < j <= i :: h[j].role == Tool
  {
    if i > 0 && h[i].role == Tool then TurnStart(h, i - 1) else i
  }

  /** First message at or after `i` that is not a tool message. */
  function ToolRunEnd(h: seq<Message>, i: nat): (e: nat)
    requires i <= |h|
    ensures i <= e <= |h| && (e < |h| ==> h[e].role != Tool)
    ensures forall j | i <= j < e :: h[j].role == Tool
    decreases |h| - i
  {
    if i < |h| && h[i].role == Tool then ToolRunEnd(h, i + 1) else i
  }

  /** Nothing may stay before the cut: the first turn goes to the compressed side, unless it is everything. */
  function FirstTurnEnd(h: seq<Message>): nat
    requires h != []
  {
    if !HasCalls(h[0]) then 1
    else
      var e := ToolRunEnd(h, 1);
      if e >= |h| then 0 else e
  }

  function OnePast(h: seq<Message>, i: nat): nat
    requires i < |h|
  {
    if i > 0 && HasCalls(h[i - 1]) then i - 1 else i
  }

  /** Where the adjustment moves a cut. Its second step goes back once more from a tool-call turn's own start. */
  function AdjustedSplit(h: seq<Message>, splitIdx: int): (k: int) {
    if splitIdx <= 0 || splitIdx >= |h| then splitIdx
    else
      var s := TurnStart(h, splitIdx);
      var t := if s > 0 && HasCalls(h[s]) then s - 1 else s;
      var u := OnePast(h, t);
      if u <= 0 then FirstTurnEnd(h) else u
  }

  method AdjustSplitForFCPairs(history: seq<Message>, splitIdx: int) returns (r: int)
    ensures r == AdjustedSplit(history, splitIdx)
  {
    r := splitIdx;
    if r <= 0 || r >= |history| { return; }
    while r > 0 && history[r].role == Tool
      invariant 0 <= r <= splitIdx
      invariant TurnStart(history, r) == TurnStart(history, splitIdx)
    {
      r := r - 1;
    }
    if r > 0 && HasCalls(history[r]) { r := r - 1; }
    if r > 0 && HasCalls(history[r - 1]) { r := r - 1; }
    if r <= 0 {
      if |history| > 0 && HasCalls(history[0]) {
        var i := 1;
        while i < |history| && history[i].role == Tool
          invariant 1 <= i <= |history|
          invariant ToolRunEnd(history, i) == ToolRunEnd(history, 1)
        {
          i := i + 1;
        }
        if i >= |history| { return 0; }
        return i;
      }
      return 1;
    }
  }

  lemma SeparatesAtTool(h: seq<Message>, k: nat)
    requires WellFormed(h) && 0 < k < |h|
    ensures Separates(h, k) <==> h[k].role == Tool
  {
    if h[k].role == Tool {
      var a := TurnStart(h, k);
      assert h[a + 1].role == Tool;
      assert IsResultOf(h, a, k);
    }
  }

  /** The whole history is one tool-call turn. */
  ghost predicate OneTurn(h: seq<Message>) {
    h != [] && HasCalls(h[0]) && forall j | 0 < j < |h| :: h[j].role == Tool
  }

  /** A cut strictly inside stays strictly inside, but for a history that cannot be cut at all. */
  lemma StaysInside(h: seq<Message>, i: nat)
    requires 0 < i < |h|
    ensures var k := AdjustedSplit(h, i);
            && 0 <= k < |h|
            && (k == 0 <==> OneTurn(h))
  {
    if OneTurn(h) { assert h[i].role == Tool; }
  }

  /** The start of the cut turn is a tool call, right after a turn with two results or more. */
  ghost predicate FollowsManyResults(h: seq<Message>, i: nat)
    requires i < |h|
  {
    var s := TurnStart(h, i);
    s >= 2 && HasCalls(h[s]) && h[s - 1].role == Tool && h[s - 2].role == Tool
  }

  /** Exactly when the adjustment tears a tool-call turn apart. */
  lemma TornExactly(h: seq<Message>, i: nat)
    requires WellFormed(h) && 0 < i < |h|
    ensures Separates(h, AdjustedSplit(h, i)) <==> FollowsManyResults(h, i)
  {
    StaysInside(h, i);
    var k := AdjustedSplit(h, i);
    if k > 0 { SeparatesAtTool(h, k); }
  }

  /** No tool-call turn that is directly followed by another has more than one result. */
  ghost predicate BackToBackTurnsAreSingle(h: seq<Message>) {
    forall j | 2 <= j < |h| && HasCalls(h[j]) && h[j - 1].role == Tool :: h[j - 2].role != Tool
  }

  lemma NeverTornWhenSingle(h: seq<Message>, i: int)
    requires WellFormed(h) && BackToBackTurnsAreSingle(h)
    ensures !Separates(h, AdjustedSplit(h, i))
  {
    if 0 < i < |h| { TornExactly(h, i); }
  }

  function Plain(role: Role): Message { Message(role, "", [], "", "", 0) }

  function Calling(calls: seq<ToolCall>): Message { Message(Assistant, "", calls, "", "", 0) }

  /** A well-formed history the adjustment tears: two parallel results, then another call. */
  lemma TearsParallelResults()
    ensures exists h: seq<Message>, i: nat :: && WellFormed(h) && i < |h| && !Separates(h, i)
                                              && Separates(h, AdjustedSplit(h, i))
  {
    var call := ToolCall("a", "read_file");
    var h := [Plain(User), Calling([call, call]), Plain(Tool), Plain(Tool), Calling([call]), Plain(Tool)];
    assert TurnStart(h, 4) == 4;
    TornExactly(h, 4);
    SeparatesAtTool(h, 4);
  }

  /** The adjustment without its second step back. */
  function CorrectedSplit(h: seq<Message>, splitIdx: int): int {
    if splitIdx <= 0 || splitIdx >= |h| then splitIdx
    else
      var u := OnePast(h, TurnStart(h, splitIdx));
      if u <= 0 then FirstTurnEnd(h) else u
  }

  lemma CorrectedNeverTears(h: seq<Message>, i: int)
    requires WellFormed(h)
    ensures !Separates(h, CorrectedSplit(h, i))
    ensures 0 < i < |h| ==> 0 <= CorrectedSplit(h, i) < |h| && (CorrectedSplit(h, i) == 0 <==> OneTurn(h))
  {
    if 0 < i < |h| {
      if OneTurn(h) { assert h[i].role == Tool; }
      var k := CorrectedSplit(h, i);
      if k > 0 { SeparatesAtTool(h, k); }
    }
  }
}
