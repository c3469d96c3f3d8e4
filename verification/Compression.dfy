/**
 Splitting a history for compression, the copy of it that may be persisted, and where the current turn
 starts once the prefix has been replaced by a summary.
 */
module Compression {
  import opened Text
  import opened History

  datatype Split = Split(toCompress: seq<Message>, toKeep: seq<Message>, toKeepPersist: seq<Message>)

  function SplitAt(h: seq<Message>, persist: seq<Message>, k: nat): Split
    requires k <= |h| == |persist|
  {
    Split(persist[..k], h[k..], persist[k..])
  }

  function Clamp(i: int, n: nat): nat { if i < 0 then 0 else if i > n then n else i }

  /** The index a requested split is made at. */
  function CutIndex(h: seq<Message>, splitIdx: int): (k: nat)
    ensures k <= |h|
  {
    var c := Clamp(splitIdx, |h|);
    if 0 < c < |h| then (StaysInside(h, c); AdjustedSplit(h, c)) else c
  }

  function InTurnCutIndex(h: seq<Message>, currentTurnStart: int, keepRecent: int): (k: nat)
    ensures k <= |h|
  {
    if currentTurnStart <= 0 then 0 else CutIndex(h, Min(|h| - keepRecent, currentTurnStart))
  }

  method SplitHistoryBeforeIndex(history: seq<Message>, persistHistory: seq<Message>, splitIdx: int) returns (s: Split)
    requires |persistHistory| == |history|
    ensures s == SplitAt(history, persistHistory, CutIndex(history, splitIdx))
  {
    var at := Clamp(splitIdx, |history|);
    var adjusted := AdjustSplitForFCPairs(history, at);
    if 0 < at < |history| { StaysInside(history, at); }
    var k := Clamp(adjusted, |history|);
    s := Split(persistHistory[..k], history[k..], persistHistory[k..]);
  }

  method SplitHistoryForInTurnCompression(history: seq<Message>, persistHistory: seq<Message>,
                                          currentTurnStart: int, keepRecent: int) returns (s: Split)
    requires |persistHistory| == |history|
    ensures s == SplitAt(history, persistHistory, InTurnCutIndex(history, currentTurnStart, keepRecent))
  {
    if currentTurnStart <= 0 { return Split([], history, persistHistory); }
    var splitIdx := |history| - keepRecent;
    if splitIdx > currentTurnStart { splitIdx := currentTurnStart; }
    s := SplitHistoryBeforeIndex(history, persistHistory, splitIdx);
  }

  function CompressedCurrentTurnStart(h: seq<Message>, split: Split, currentTurnStart: int): nat {
    var tail := |h| - Clamp(currentTurnStart, |h|);
    1 + Max(0, |split.toKeep| - tail)
  }

  /** The history after compression. */
  function Replaced(summary: Message, split: Split): seq<Message> { [summary] + split.toKeep }

  /** A turn that starts at a message other than a tool result is never cut into. */
  lemma CutBeforeTurn(h: seq<Message>, currentTurnStart: nat, keepRecent: int)
    requires currentTurnStart < |h| ==> h[currentTurnStart].role != Tool
    ensures currentTurnStart <= |h| ==> InTurnCutIndex(h, currentTurnStart, keepRecent) <= currentTurnStart
  {
    var i := Clamp(Min(|h| - keepRecent, currentTurnStart), |h|);
    if 0 < i < |h| && currentTurnStart < |h| {
      assert forall j | TurnStart(h, i) < j <= i :: h[j].role == Tool;
    }
  }

  /** The computed start index points at the old current turn exactly when the cut is not past it. */
  lemma RebasedExactly(h: seq<Message>, persist: seq<Message>, currentTurnStart: nat, keepRecent: int, summary: Message)
    requires |persist| == |h| && currentTurnStart <= |h|
    ensures var k := InTurnCutIndex(h, currentTurnStart, keepRecent);
            var split := SplitAt(h, persist, k);
            var start := CompressedCurrentTurnStart(h, split, currentTurnStart);
            && start <= |Replaced(summary, split)|
            && (Replaced(summary, split)[start..] == h[currentTurnStart..] <==> k <= currentTurnStart)
            && (k <= currentTurnStart ==>
                  start == 1 + currentTurnStart - k
                  && Replaced(summary, split)[..start] == [summary] + h[k..currentTurnStart])
  {
    var k := InTurnCutIndex(h, currentTurnStart, keepRecent);
    var split := SplitAt(h, persist, k);
    var start := CompressedCurrentTurnStart(h, split, currentTurnStart);
    var r := Replaced(summary, split);
    if k <= currentTurnStart {
      assert r[start..] == h[currentTurnStart..];
      assert r[..start] == [summary] + h[k..currentTurnStart];
    } else {
      assert |r[start..]| == |h| - k;
    }
  }

  // ---------------------------------------------------------------- the copy that may be persisted

  /** A session keeps conversation messages and, between them, audit entries of tool executions. */
  datatype Entry = Conversation(message: Message) | ToolExecution(name: string)

  function ToAPIMessages(entries: seq<Entry>): seq<Message> {
    if entries == [] then []
    else (if entries[0].Conversation? then [entries[0].message] else []) + ToAPIMessages(entries[1..])
  }

  function FromAPIMessages(messages: seq<Message>): (r: seq<Entry>)
    ensures |r| == |messages|
  {
    seq(|messages|, i requires 0 <= i < |messages| => Conversation(messages[i]))
  }

  function StripMessage(m: Message, suffix: string): Message {
    if m.role == User && HasSuffix(m.content, suffix) then m.(content := m.content[..|m.content| - |suffix|]) else m
  }

  function Stripped(h: seq<Message>, suffix: string): (r: seq<Message>)
    ensures |r| == |h|
  {
    seq(|h|, i requires 0 <= i < |h| => StripMessage(h[i], suffix))
  }

  method StripNormalModePrompt(history: seq<Message>, suffix: string) returns (out: seq<Message>)
    ensures out == Stripped(history, suffix)
  {
    out := history;
    for i := 0 to |out|
      invariant |out| == |history|
      invariant forall j | 0 <= j < |history| :: out[j] == if j < i then StripMessage(history[j], suffix) else history[j]
    {
      if out[i].role == User && HasSuffix(out[i].content, suffix) {
        out := out[i := out[i].(content := out[i].content[..|out[i].content| - |suffix|])];
      }
    }
  }

  predicate MessagesMatch(a: Message, b: Message) {
    a.role == b.role && a.content == b.content && a.toolCallID == b.toolCallID && a.toolName == b.toolName
    && a.toolCalls == b.toolCalls
  }

  predicate HistoriesMatch(a: seq<Message>, b: seq<Message>) {
    |a| == |b| && forall i | 0 <= i < |a| :: MessagesMatch(a[i], b[i])
  }

  /** The stripped history, in the session's own words when the session holds the same messages. */
  function Persistable(h: seq<Message>, session: Option<seq<Entry>>, suffix: string): (r: seq<Message>)
    ensures HistoriesMatch(r, Stripped(h, suffix))
  {
    var runtime := Stripped(h, suffix);
    if session.Some? && HistoriesMatch(runtime, ToAPIMessages(session.value)) then ToAPIMessages(session.value) else runtime
  }

  /** What a planning turn persists: its long prompt at `turn` stands for the user's own request. */
  function PlanPersistable(h: seq<Message>, session: Option<seq<Entry>>, suffix: string, turn: int, request: string): (r: seq<Message>)
    ensures |r| == |h|
    ensures forall i | 0 <= i < |h| && i != turn :: MessagesMatch(r[i], StripMessage(h[i], suffix))
    ensures 0 <= turn < |h| && h[turn].role == User ==>
              || MessagesMatch(r[turn], StripMessage(h[turn], suffix))
              || (r[turn].role == User && Trim(r[turn].content) == Trim(request))
  {
    var runtime := Stripped(h, suffix);
    var stored := if session.Some? then ToAPIMessages(session.value) else [];
    if session.Some? && |stored| == |runtime|
       && forall i | 0 <= i < |runtime| :: || (i == turn && stored[i].role == User && Trim(stored[i].content) == Trim(request))
                                           || MessagesMatch(runtime[i], stored[i])
    then stored
    else if 0 <= turn < |h| && h[turn].role == User then runtime[turn := runtime[turn].(content := request)]
    else runtime
  }

  /** Whatever copy the caller offers, the one that is cut has the length of the history. */
  function PersistHistoryForPlan(h: seq<Message>, offered: seq<Message>, session: Option<seq<Entry>>, suffix: string): (r: seq<Message>)
    ensures |r| == |h|
    ensures |offered| == |h| ==> r == offered
  {
    if |offered| == |h| then offered else Persistable(h, session, suffix)
  }
}
