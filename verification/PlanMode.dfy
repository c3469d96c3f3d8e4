/**
 One Plan Mode request: capture a checkpoint, investigate, review, and leave by one of several exits.
 Feedback at the review starts the request again inside the first one. What the provider, the tools and
 the user do is a script; everything the agent does with it is the model.
 */
module PlanMode {
  import opened Text
  import opened History
  import opened Compression

  // ---------------------------------------------------------------- what happens around the agent

  /** One step of an investigation. `cancelled` is the request context at the end of the attempt. */
  datatype Step =
    | Exchange(messages: seq<Message>, entries: seq<Entry>)
    | CompressionSucceeds(summary: string, cancelled: bool)
    | CompressionFails(cancelled: bool)

  datatype Ending =
    | Fails
    | WithoutPlan
    | WithoutSteps
    | Approved
    | Cancelled
    | Feedback(text: string, next: Run)
    | FeedbackNotSaved(text: string)

  datatype Run = Run(steps: seq<Step>, ending: Ending)

  /** The prompt builders and settings a run depends on. */
  datatype Env = Env(planning: string -> string, investigation: string -> string, suffix: string, keepRecent: int)

  // ---------------------------------------------------------------- the agent's part, on values

  datatype Talk = Talk(history: seq<Message>, session: Option<seq<Entry>>, prompt: string, planMode: bool, attempted: bool)

  datatype Checkpoint = Checkpoint(historyLen: int, sessionCount: int, prompt: string, restored: bool)

  function SummaryMessage(content: string): Message { Message(Assistant, content, [], "", "", 0) }

  predicate IsRequest(e: Entry, request: string) {
    e.Conversation? && e.message.role == User && Trim(e.message.content) == Trim(request)
  }

  /** The session already ends with this request. */
  predicate EndsWithRequest(entries: seq<Entry>, request: string) {
    entries != [] && IsRequest(entries[|entries| - 1], request)
  }

  function SessionCount(session: Option<seq<Entry>>, request: string): nat {
    if session.None? then 0
    else if Trim(request) != "" && EndsWithRequest(session.value, request) then |session.value| - 1
    else |session.value|
  }

  function Capture(t: Talk, request: string): Checkpoint {
    Checkpoint(|t.history|, SessionCount(t.session, request), t.prompt, false)
  }

  function Truncated<T>(s: seq<T>, count: int): seq<T> {
    if count < 0 then [] else if count < |s| then s[..count] else s
  }

  function Restore(t: Talk, cp: Checkpoint): Talk {
    if cp.restored then t
    else
      t.(history := if 0 <= cp.historyLen <= |t.history| then t.history[..cp.historyLen] else t.history,
         session := if t.session.None? then None else Some(Truncated(t.session.value, cp.sessionCount)),
         prompt := cp.prompt)
  }

  /** How an investigation stopped: at its own end, on an error, or cancelled just after a compression. */
  datatype Stop = Finished | Failed | CutShort

  datatype Progress = Progress(talk: Talk, cp: Checkpoint, stop: Stop)

  function CompressionCut(env: Env, p: Progress): nat {
    InTurnCutIndex(p.talk.history, p.cp.historyLen, env.keepRecent)
  }

  /** A compression attempt happens once a turn, after earlier history, and only if something can go. */
  predicate CanCompress(env: Env, p: Progress) {
    !p.talk.attempted && p.cp.historyLen > 0 && CompressionCut(env, p) > 0
  }

  function Compressed(env: Env, request: string, p: Progress, summary: string): Talk {
    var t := p.talk;
    var offered := PlanPersistable(t.history, t.session, env.suffix, p.cp.historyLen, request);
    var persist := PersistHistoryForPlan(t.history, offered, t.session, env.suffix);
    var split := SplitAt(t.history, persist, CompressionCut(env, p));
    var message := SummaryMessage(summary);
    t.(history := Replaced(message, split),
       session := if t.session.None? then None else Some(FromAPIMessages([message] + split.toKeepPersist)),
       attempted := true)
  }

  function Rebased(p: Progress, t: Talk, start: nat): Checkpoint {
    p.cp.(historyLen := Clamp(start, |t.history|),
          sessionCount := if t.session.Some? then Clamp(start, |t.history|) else p.cp.sessionCount)
  }

  function RebasedStart(env: Env, p: Progress): nat {
    var split := SplitAt(p.talk.history, p.talk.history, CompressionCut(env, p));
    CompressedCurrentTurnStart(p.talk.history, split, p.cp.historyLen)
  }

  function Took(env: Env, request: string, p: Progress, step: Step): Progress {
    match step
    case Exchange(messages, entries) =>
      p.(talk := p.talk.(history := p.talk.history + messages,
                         session := if p.talk.session.None? then None else Some(p.talk.session.value + entries)))
    case CompressionFails(cancelled) =>
      if !CanCompress(env, p) then p
      else p.(talk := p.talk.(attempted := true), stop := if cancelled then Failed else Finished)
    case CompressionSucceeds(summary, cancelled) =>
      if !CanCompress(env, p) then p
      else
        var t := Compressed(env, request, p, summary);
        if cancelled then Progress(t, p.cp, CutShort)
        else Progress(t, Rebased(p, t, RebasedStart(env, p)), Finished)
  }

  function Investigated(env: Env, request: string, p: Progress, steps: seq<Step>): Progress
    decreases |steps|
  {
    if steps == [] || p.stop != Finished then p
    else Investigated(env, request, Took(env, request, p, steps[0]), steps[1..])
  }

  function Started(env: Env, t: Talk, request: string): Progress {
    Progress(t.(prompt := env.planning(t.prompt), history := t.history + [UserMessage(env.investigation(request))]),
             Capture(t, request), Finished)
  }

  function FeedbackRequest(request: string, feedback: string): string {
    if Trim(request) == "" then "Previous plan feedback: " + feedback
    else Trim(request) + " (Previous plan feedback: " + feedback + ")"
  }

  function RequestRecorded(t: Talk, request: string): Talk {
    if t.session.None? || Trim(request) == "" || EndsWithRequest(t.session.value, request) then t
    else t.(session := Some(t.session.value + [Conversation(UserMessage(Trim(request)))]))
  }

  /** How a whole run, its reruns included, was left. */
  datatype Exit = Restored | Kept | Torn

  datatype Left = Left(talk: Talk, exit: Exit, approvedRequest: Option<string>)

  function Finish(env: Env, t: Talk, request: string, run: Run): Left
    decreases run
  {
    var p := Investigated(env, request, Started(env, t, request), run.steps);
    var back := Restore(p.talk, p.cp);
    match p.stop
    case CutShort => Left(back, Torn, None)
    case Failed => Left(back, Restored, None)
    case Finished =>
      match run.ending
      case Fails => Left(back, Restored, None)
      case WithoutPlan => Left(p.talk.(prompt := p.cp.prompt), Kept, None)
      case WithoutSteps => Left(p.talk.(prompt := p.cp.prompt), Kept, None)
      case Approved => Left(back.(planMode := false), Restored, Some(request))
      case Cancelled => Left(back.(planMode := false), Restored, None)
      case FeedbackNotSaved(_) => Left(back, Restored, None)
      case Feedback(text, next) =>
        var again := FeedbackRequest(request, text);
        Finish(env, RequestRecorded(back, again), again, next)
  }

  // ---------------------------------------------------------------- one investigation

  function Transcript(steps: seq<Step>): seq<Message> {
    if steps == [] then []
    else (if steps[0].Exchange? then steps[0].messages else []) + Transcript(steps[1..])
  }

  /** The history is `base`, the planning prompt, then what was `spoken`; the checkpoint marks the end of
      `base` and, in the session, of `kept`. */
  ghost predicate Holding(p: Progress, base: seq<Message>, kept: seq<Entry>, prompt: Message, spoken: seq<Message>) {
    && prompt.role == User && !p.cp.restored
    && p.talk.history == base + [prompt] + spoken && p.cp.historyLen == |base|
    && (p.talk.session.Some? ==>
          && p.cp.sessionCount == |kept| <= |p.talk.session.value|
          && p.talk.session.value[..|kept|] == kept)
  }

  lemma HoldingRestores(p: Progress, base: seq<Message>, kept: seq<Entry>, prompt: Message, spoken: seq<Message>)
    requires Holding(p, base, kept, prompt, spoken)
    ensures var back := Restore(p.talk, p.cp);
            && back.history == base && back.prompt == p.cp.prompt
            && back.session == (if p.talk.session.Some? then Some(kept) else None)
            && back.attempted == p.talk.attempted
    ensures p.talk.history == base + [prompt] + spoken
  {
    assert (base + [prompt] + spoken)[..|base|] == base;
    if p.talk.session.Some? && |kept| == |p.talk.session.value| { assert p.talk.session.value[..|kept|] == p.talk.session.value; }
  }

  /** A compression: its summary and how many messages the summary replaced. */
  datatype Cut = Cut(summary: string, at: nat)

  /** The cut a step makes, if it makes one. */
  function StepCut(env: Env, p: Progress, step: Step): Option<Cut> {
    if step.CompressionSucceeds? && CanCompress(env, p) then Some(Cut(step.summary, CompressionCut(env, p))) else None
  }

  /** The first cut the steps make before they stop; there is never a second. */
  function Shortening(env: Env, request: string, p: Progress, steps: seq<Step>): Option<Cut>
    decreases |steps|
  {
    if steps == [] || p.stop != Finished then None
    else if StepCut(env, p, steps[0]).Some? then StepCut(env, p, steps[0])
    else Shortening(env, request, Took(env, request, p, steps[0]), steps[1..])
  }

  /** A step is reached that compresses and finds its context cancelled. */
  predicate InterruptedIn(env: Env, request: string, p: Progress, steps: seq<Step>)
    decreases |steps|
  {
    && steps != [] && p.stop == Finished
    && (|| (steps[0].CompressionSucceeds? && steps[0].cancelled && CanCompress(env, p))
        || InterruptedIn(env, request, Took(env, request, p, steps[0]), steps[1..]))
  }

  /** The base with the summary of a cut in place of what it replaced. */
  function Shorter(base: seq<Message>, cut: Option<Cut>): seq<Message> {
    if cut.None? then base else [SummaryMessage(cut.value.summary)] + base[Min(cut.value.at, |base|)..]
  }

  /** The session tells the same conversation, without the suffix user messages once carried. */
  ghost predicate Aligned(kept: seq<Entry>, base: seq<Message>, suffix: string) {
    && |kept| == |base|
    && forall i | 0 <= i < |kept| :: kept[i].Conversation? && MessagesMatch(kept[i].message, StripMessage(base[i], suffix))
  }

  lemma CutsTheBase(env: Env, p: Progress, base: seq<Message>, kept: seq<Entry>, prompt: Message, spoken: seq<Message>)
    requires Holding(p, base, kept, prompt, spoken) && CanCompress(env, p)
    ensures var k := CompressionCut(env, p);
            && 0 < k <= |base| && RebasedStart(env, p) == 1 + |base| - k
            && p.talk.history[k..] == base[k..] + [prompt] + spoken
  {
    var h := p.talk.history;
    assert h[|base|] == prompt;
    CutBeforeTurn(h, |base|, env.keepRecent);
    hide InTurnCutIndex;
    var k := CompressionCut(env, p);
    RebasedExactly(h, h, |base|, env.keepRecent, prompt);
    assert h[k..] == base[k..] + [prompt] + spoken;
  }

  lemma AlignedCopy(message: Message, h: seq<Message>, persist: seq<Message>, base: seq<Message>, k: nat, suffix: string)
    requires message.role == Assistant && |persist| == |h| && base <= h && 0 < k <= |base|
    requires forall i | 0 <= i < |base| :: MessagesMatch(persist[i], StripMessage(h[i], suffix))
    ensures var base' := [message] + base[k..];
            Aligned(FromAPIMessages([message] + persist[k..])[..|base'|], base', suffix)
  {
    hide MessagesMatch, StripMessage;
    var base' := [message] + base[k..];
    var copy := [message] + persist[k..];
    forall i | 0 <= i < |base'| ensures MessagesMatch(copy[i], StripMessage(base'[i], suffix)) {
      if i == 0 {
        MatchesItself(message, suffix);
      } else {
        assert copy[i] == persist[k + i - 1] && base'[i] == base[k + i - 1] == h[k + i - 1];
      }
    }
  }

  lemma MatchesItself(message: Message, suffix: string)
    requires message.role == Assistant
    ensures MessagesMatch(message, StripMessage(message, suffix))
  {
  }

  lemma CompressionKeeps(env: Env, request: string, p: Progress, base: seq<Message>, kept: seq<Entry>, prompt: Message,
                         spoken: seq<Message>, summary: string)
    returns (k: nat, base': seq<Message>, kept': seq<Entry>)
    requires Holding(p, base, kept, prompt, spoken) && CanCompress(env, p)
    ensures k == CompressionCut(env, p) && 0 < k <= |base|
    ensures base' == [SummaryMessage(summary)] + base[k..]
    ensures var t := Compressed(env, request, p, summary);
            && t.history == base' + [prompt] + spoken && t.attempted && (t.session.Some? <==> p.talk.session.Some?)
            && (t.session.Some? ==> |t.session.value| == |t.history| && kept' == t.session.value[..|base'|])
            && Holding(Progress(t, Rebased(p, t, RebasedStart(env, p)), Finished), base', kept', prompt, spoken)
    ensures Aligned(kept', base', env.suffix)
  {
    CutsTheBase(env, p, base, kept, prompt, spoken);
    var h := p.talk.history;
    k := CompressionCut(env, p);
    var message := SummaryMessage(summary);
    base' := [message] + base[k..];
    var offered := PlanPersistable(h, p.talk.session, env.suffix, |base|, request);
    var persist := PersistHistoryForPlan(h, offered, p.talk.session, env.suffix);
    assert persist == offered;
    assert base <= h && forall i | 0 <= i < |base| :: h[i] == base[i];
    hide PlanPersistable, PersistHistoryForPlan, CompressionCut, RebasedStart, Aligned, MessagesMatch, StripMessage,
      CanCompress, FromAPIMessages;
    AlignedCopy(message, h, persist, base, k, env.suffix);
    var entries := FromAPIMessages([message] + persist[k..]);
    kept' := entries[..|base'|];
    var t := Compressed(env, request, p, summary);
    ReplacedHistory(message, h[k..], base[k..], prompt, spoken);
    assert t.session == if p.talk.session.None? then None else Some(entries);
    RebasedHolds(p, t, base', entries, prompt, spoken);
  }

  lemma ReplacedHistory(message: Message, tail: seq<Message>, base: seq<Message>, prompt: Message, spoken: seq<Message>)
    requires tail == base + [prompt] + spoken
    ensures [message] + tail == [message] + base + [prompt] + spoken
  {
  }

  lemma RebasedHolds(p: Progress, t: Talk, base': seq<Message>, entries: seq<Entry>, prompt: Message, spoken: seq<Message>)
    requires !p.cp.restored && prompt.role == User && |entries| == |t.history|
    requires t.history == base' + [prompt] + spoken && (t.session.Some? ==> t.session.value == entries)
    ensures Holding(Progress(t, Rebased(p, t, |base'|), Finished), base', entries[..|base'|], prompt, spoken)
  {
  }

  /** What truncating to `count` entries leaves of a session whose first entries, `kept`, tell the shortened base:
      too few of them, or more than them. */
  ghost predicate StaleSession(count: nat, kept: seq<Entry>, session: seq<Entry>) {
    if count <= |kept| then |session| == count && session <= kept else kept < session
  }

  /** Restoring a checkpoint that was not rebased after a compression gives back the shortened history exactly when
      a single message was summarized, the session that tells it exactly when the old count is its length, and both
      exactly when a single message was summarized of as many as there were entries. */
  lemma StaleRestoreExactly(base: seq<Message>, base': seq<Message>, turn: seq<Message>, summary: Message, k: nat, t: Talk, cp: Checkpoint)
    requires 0 < k <= |base| && turn != [] && !cp.restored && base' == [summary] + base[k..]
    requires |t.history| == |base'| + |turn| && base' <= t.history && cp.historyLen == |base|
    requires t.session.Some? ==> |t.session.value| == |t.history| && cp.sessionCount >= 0
    ensures var back := Restore(t, cp);
            && (back.history == base' <==> k == 1)
            && (t.session.Some? ==>
                  && back.session.Some?
                  && StaleSession(cp.sessionCount, t.session.value[..|base'|], back.session.value)
                  && (back.session.value == t.session.value[..|base'|] <==> cp.sessionCount + k == |base| + 1)
                  && (back.history == base' && back.session.value == t.session.value[..|base'|]
                      <==> k == 1 && cp.sessionCount == |base|))
  {
    var back := Restore(t, cp).history;
    assert |base'| == 1 + |base| - k;
    if |base| <= |t.history| { assert back == t.history[..|base|]; } else { assert back == t.history; }
    if t.session.Some? { StaleCount(cp.sessionCount, |base'|, t.session.value); }
  }

  lemma StaleCount(count: nat, n: nat, session: seq<Entry>)
    requires n < |session|
    ensures StaleSession(count, session[..n], Truncated(session, count))
    ensures Truncated(session, count) == session[..n] <==> count == n
  {
    var r := Truncated(session, count);
    if count <= n { assert r == session[..n][..count]; } else { assert r[..n] == session[..n]; }
  }

  /** After a token-limit error the whole history is compressed, wherever the cut falls, and truncated with the old
      index: of the planning turn as many messages survive as the summary is shorter than what it replaced of the
      base, and with no history before the turn the summary itself is lost. */
  lemma TokenLimitLeaves(base: seq<Message>, turn: seq<Message>, cut: nat, skip: nat, summary: Message, t: Talk, cp: Checkpoint)
    requires cut <= |base| && skip <= |turn| && 0 < cut + skip && (skip > 0 ==> cut == |base|)
    requires !cp.restored && cp.historyLen == |base|
    requires t.history == [summary] + (base[cut..] + turn[skip..])
    ensures var survive := Min(cut - 1, |turn| - skip);
            Restore(t, cp).history == if base == [] then [] else [summary] + base[cut..] + turn[skip..skip + survive]
  {
    RestoredHistory(t, cp);
    hide Restore;
    if base != [] {
      var b, c := base[cut..], turn[skip..];
      var survive := Min(cut - 1, |turn| - skip);
      TakeOfRest(turn, skip, survive);
      TakeThird([summary], b, c, survive);
      if cut - 1 >= |c| { TakeAll([summary] + (b + c)); }
    }
  }

  lemma RestoredHistory(t: Talk, cp: Checkpoint)
    requires !cp.restored && cp.historyLen >= 0
    ensures Restore(t, cp).history == if cp.historyLen <= |t.history| then t.history[..cp.historyLen] else t.history
  {
  }

  lemma TakeOfRest<T>(s: seq<T>, skip: nat, n: nat)
    requires skip + n <= |s|
    ensures s[skip..][..n] == s[skip..skip + n]
  {
  }

  lemma TakeAll<T>(s: seq<T>)
    ensures s[..|s|] == s
  {
  }

  lemma TakeThird<T>(a: seq<T>, b: seq<T>, c: seq<T>, n: nat)
    requires n <= |c|
    ensures (a + (b + c))[..|a| + |b| + n] == a + b + c[..n]
  {
  }

  /** The session after a cut tells the shortened base; without one it is as it was. */
  ghost predicate Follows(env: Env, cut: Option<Cut>, base: seq<Message>, kept: seq<Entry>, kept': seq<Entry>) {
    if cut.Some? then Aligned(kept', Shorter(base, cut), env.suffix) else kept' == kept
  }

  /** The part of an outcome that one step and a whole investigation promise alike: the base is the one before,
      with the summary of the cut that was made, and the checkpoint holds it. Cut short, the restore gives that
      base back exactly when the cut replaced one message, and of the session what the old count leaves. */
  ghost predicate Keeps(env: Env, p: Progress, q: Progress, cut: Option<Cut>, base: seq<Message>, kept: seq<Entry>,
                        kept': seq<Entry>, prompt: Message, spoken': seq<Message>) {
    && q.cp.prompt == p.cp.prompt && !q.cp.restored && (q.talk.session.Some? <==> p.talk.session.Some?)
    && (p.talk.attempted ==> q.talk.attempted && cut.None?)
    && (cut.Some? ==> q.talk.attempted && 0 < cut.value.at <= |base|)
    && (q.stop != CutShort ==> Holding(q, Shorter(base, cut), kept', prompt, spoken'))
    && (q.stop == CutShort ==>
          && cut.Some? && (Restore(q.talk, q.cp).history == Shorter(base, cut) <==> cut.value.at == 1)
          && (q.talk.session.Some? ==> StaleSession(|kept|, kept', Restore(q.talk, q.cp).session.value)))
    && Follows(env, cut, base, kept, kept')
  }

  lemma ExchangeKeeps(env: Env, request: string, p: Progress, step: Step,
                      base: seq<Message>, kept: seq<Entry>, prompt: Message, spoken: seq<Message>)
    requires Holding(p, base, kept, prompt, spoken) && p.stop == Finished && step.Exchange?
    ensures Keeps(env, p, Took(env, request, p, step), None, base, kept, kept, prompt, spoken + step.messages)
  {
    var q := Took(env, request, p, step);
    assert q.talk.history == base + [prompt] + (spoken + step.messages);
    if p.talk.session.Some? { assert q.talk.session.value[..|kept|] == p.talk.session.value[..|kept|]; }
  }

  lemma CompressionStepKeeps(env: Env, request: string, p: Progress, step: Step,
                             base: seq<Message>, kept: seq<Entry>, prompt: Message, spoken: seq<Message>)
    returns (kept': seq<Entry>)
    requires Holding(p, base, kept, prompt, spoken) && p.stop == Finished
    requires step.CompressionSucceeds? && CanCompress(env, p)
    ensures Keeps(env, p, Took(env, request, p, step), StepCut(env, p, step), base, kept, kept', prompt, spoken)
    ensures Took(env, request, p, step).stop == CutShort <==> step.cancelled
  {
    hide Compressed, CompressionCut, Aligned, RebasedStart, Restore, SummaryMessage;
    CanCompressMeans(env, p);
    var message := SummaryMessage(step.summary);
    var k, base';
    k, base', kept' := CompressionKeeps(env, request, p, base, kept, prompt, spoken, step.summary);
    var t := Compressed(env, request, p, step.summary);
    assert base' == Shorter(base, StepCut(env, p, step));
    if step.cancelled {
      assert base' <= base' + [prompt] + spoken;
      StaleRestoreExactly(base, base', [prompt] + spoken, message, k, t, p.cp);
      HoldingCounts(p, base, kept, prompt, spoken);
    }
    hide Compressed, CanCompress, CompressionCut, Aligned, RebasedStart, Restore, Holding, Shorter;
    assert Took(env, request, p, step)
        == if step.cancelled then Progress(t, p.cp, CutShort) else Progress(t, Rebased(p, t, RebasedStart(env, p)), Finished);
  }

  lemma HoldingCounts(p: Progress, base: seq<Message>, kept: seq<Entry>, prompt: Message, spoken: seq<Message>)
    requires Holding(p, base, kept, prompt, spoken)
    ensures p.talk.session.Some? ==> p.cp.sessionCount == |kept|
  {
  }

  lemma CanCompressMeans(env: Env, p: Progress)
    requires CanCompress(env, p)
    ensures !p.talk.attempted
  {
  }

  lemma StepKeeps(env: Env, request: string, p: Progress, step: Step,
                  base: seq<Message>, kept: seq<Entry>, prompt: Message, spoken: seq<Message>)
    returns (kept': seq<Entry>, spoken': seq<Message>)
    requires Holding(p, base, kept, prompt, spoken) && p.stop == Finished
    ensures Keeps(env, p, Took(env, request, p, step), StepCut(env, p, step), base, kept, kept', prompt, spoken')
    ensures Took(env, request, p, step).stop == CutShort <==> step.CompressionSucceeds? && step.cancelled && CanCompress(env, p)
    ensures spoken' == spoken + if step.Exchange? then step.messages else []
  {
    hide Compressed, CanCompress;
    kept', spoken' := kept, spoken;
    if step.Exchange? {
      ExchangeKeeps(env, request, p, step, base, kept, prompt, spoken);
      spoken' := spoken + step.messages;
    } else if step.CompressionSucceeds? && CanCompress(env, p) {
      kept' := CompressionStepKeeps(env, request, p, step, base, kept, prompt, spoken);
    }
  }

  lemma KeepsCompose(env: Env, p: Progress, q: Progress, r: Progress, prompt: Message,
                     cut0: Option<Cut>, base: seq<Message>, kept: seq<Entry>, kept0: seq<Entry>, spoken0: seq<Message>,
                     cut1: Option<Cut>, kept1: seq<Entry>, spoken1: seq<Message>)
    requires Keeps(env, p, q, cut0, base, kept, kept0, prompt, spoken0) && q.stop == Finished
    requires Keeps(env, q, r, cut1, Shorter(base, cut0), kept0, kept1, prompt, spoken1)
    ensures Keeps(env, p, r, if cut0.Some? then cut0 else cut1, base, kept, kept1, prompt, spoken1)
    ensures cut0.Some? ==> cut1.None?
  {
    hide Holding, Aligned, Restore;
  }

  /** What an investigation leaves: the base it started from, with the one cut its steps make, and everything it
      said behind it; it is cut short exactly when a compressing step is reached whose context is cancelled. */
  lemma {:induction false} InvestigationKeeps(env: Env, request: string, p: Progress, steps: seq<Step>,
                                              base: seq<Message>, kept: seq<Entry>, prompt: Message, spoken: seq<Message>)
    returns (kept': seq<Entry>, spoken': seq<Message>)
    requires Holding(p, base, kept, prompt, spoken) && p.stop == Finished
    ensures var q := Investigated(env, request, p, steps);
            && Keeps(env, p, q, Shortening(env, request, p, steps), base, kept, kept', prompt, spoken')
            && (q.stop == Finished ==> spoken' == spoken + Transcript(steps))
            && (q.stop == CutShort <==> InterruptedIn(env, request, p, steps))
    decreases |steps|
  {
    hide *;
    InvestigatedUnfolds(env, request, p, steps);
    if steps == [] {
      kept', spoken' := kept, spoken;
      KeepsNothing(env, p, base, kept, prompt, spoken);
      return;
    }
    var q := Took(env, request, p, steps[0]);
    var cut0 := StepCut(env, p, steps[0]);
    var kept0, spoken0 := StepKeeps(env, request, p, steps[0], base, kept, prompt, spoken);
    StoppedStays(env, request, q, steps[1..]);
    if q.stop == Finished {
      KeepsHolds(env, p, q, cut0, base, kept, kept0, prompt, spoken0);
      kept', spoken' := InvestigationKeeps(env, request, q, steps[1..], Shorter(base, cut0), kept0, prompt, spoken0);
      var r := Investigated(env, request, q, steps[1..]);
      var cut1 := Shortening(env, request, q, steps[1..]);
      KeepsCompose(env, p, q, r, prompt, cut0, base, kept, kept0, spoken0, cut1, kept', spoken');
      TranscriptUnfolds(spoken, steps);
    } else {
      kept', spoken' := kept0, spoken0;
    }
  }

  lemma InvestigatedUnfolds(env: Env, request: string, p: Progress, steps: seq<Step>)
    requires p.stop == Finished
    ensures steps == [] ==>
              && Investigated(env, request, p, steps) == p && Transcript(steps) == []
              && Shortening(env, request, p, steps) == None && !InterruptedIn(env, request, p, steps)
    ensures steps != [] ==>
              var q := Took(env, request, p, steps[0]);
              var cut := StepCut(env, p, steps[0]);
              && Investigated(env, request, p, steps) == (if q.stop == Finished then Investigated(env, request, q, steps[1..]) else q)
              && Shortening(env, request, p, steps) == (if cut.Some? then cut else Shortening(env, request, q, steps[1..]))
              && (InterruptedIn(env, request, p, steps) <==>
                    || (steps[0].CompressionSucceeds? && steps[0].cancelled && CanCompress(env, p))
                    || InterruptedIn(env, request, q, steps[1..]))
  {
    hide Took, CanCompress, StepCut;
  }

  lemma StoppedStays(env: Env, request: string, q: Progress, steps: seq<Step>)
    ensures q.stop != Finished ==> Shortening(env, request, q, steps) == None && !InterruptedIn(env, request, q, steps)
  {
  }

  lemma TranscriptUnfolds(spoken: seq<Message>, steps: seq<Step>)
    requires steps != []
    ensures spoken + (if steps[0].Exchange? then steps[0].messages else []) + Transcript(steps[1..]) == spoken + Transcript(steps)
  {
    Associative(spoken, if steps[0].Exchange? then steps[0].messages else [], Transcript(steps[1..]));
  }

  lemma Associative<T>(a: seq<T>, b: seq<T>, c: seq<T>)
    ensures (a + b) + c == a + (b + c)
  {
  }

  lemma KeepsNothing(env: Env, p: Progress, base: seq<Message>, kept: seq<Entry>, prompt: Message, spoken: seq<Message>)
    requires Holding(p, base, kept, prompt, spoken) && p.stop == Finished
    ensures Keeps(env, p, p, None, base, kept, kept, prompt, spoken)
  {
  }

  lemma KeepsHolds(env: Env, p: Progress, q: Progress, cut: Option<Cut>, base: seq<Message>, kept: seq<Entry>,
                   kept': seq<Entry>, prompt: Message, spoken': seq<Message>)
    requires Keeps(env, p, q, cut, base, kept, kept', prompt, spoken') && q.stop != CutShort
    ensures Holding(q, Shorter(base, cut), kept', prompt, spoken')
  {
    hide Holding, Aligned, Restore;
  }

  // ---------------------------------------------------------------- what an investigation leaves in the session

  /** The entries the steps log themselves. */
  function Logged(steps: seq<Step>): seq<Entry> {
    if steps == [] then [] else (if steps[0].Exchange? then steps[0].entries else []) + Logged(steps[1..])
  }

  /** The step that compresses; the number of steps when none is reached that does. */
  function CutStep(env: Env, request: string, p: Progress, steps: seq<Step>): (c: nat)
    ensures c <= |steps|
    decreases |steps|
  {
    if steps == [] then 0
    else if p.stop != Finished then |steps|
    else if StepCut(env, p, steps[0]).Some? then 0
    else 1 + CutStep(env, request, Took(env, request, p, steps[0]), steps[1..])
  }

  /** The entries tell a turn: its prompt or the request in its place, what was said, and then what was logged. */
  ghost predicate TurnTold(entries: seq<Entry>, prompt: Message, spoken: seq<Message>, logged: seq<Entry>,
                           request: string, suffix: string) {
    var n := 1 + |spoken|;
    && n <= |entries| && entries[n..] == logged
    && (IsRequest(entries[0], request)
        || (entries[0].Conversation? && MessagesMatch(entries[0].message, StripMessage(prompt, suffix))))
    && Aligned(entries[1..n], spoken, suffix)
  }

  /** After the one attempt of a turn the session only grows, by what is logged. */
  lemma {:induction false} AttemptedLogs(env: Env, request: string, p: Progress, steps: seq<Step>)
    requires p.talk.attempted && p.stop == Finished && p.talk.session.Some?
    ensures var q := Investigated(env, request, p, steps);
            && q.stop == Finished && q.cp == p.cp
            && q.talk.session == Some(p.talk.session.value + Logged(steps))
    decreases |steps|
  {
    hide Compressed, CompressionCut;
    if steps != [] {
      var q := Took(env, request, p, steps[0]);
      AttemptedLogs(env, request, q, steps[1..]);
      LoggedUnfolds(p.talk.session.value, steps);
    } else {
      assert p.talk.session.value + [] == p.talk.session.value;
    }
  }

  lemma LoggedUnfolds(session: seq<Entry>, steps: seq<Step>)
    requires steps != []
    ensures session + (if steps[0].Exchange? then steps[0].entries else []) + Logged(steps[1..]) == session + Logged(steps)
    ensures session + [] == session
  {
    Associative(session, if steps[0].Exchange? then steps[0].entries else [], Logged(steps[1..]));
  }

  /** The copy that may be persisted tells the turn: the request or the prompt, and then what was said. */
  lemma OfferedTells(p: Progress, suffix: string, base: seq<Message>, kept: seq<Entry>, prompt: Message,
                     spoken: seq<Message>, request: string)
    requires Holding(p, base, kept, prompt, spoken)
    ensures p.cp.historyLen == |base|
    ensures var copy := PlanPersistable(p.talk.history, p.talk.session, suffix, |base|, request);
            && |copy| == |base| + 1 + |spoken|
            && (forall i | 0 <= i < |spoken| :: MessagesMatch(copy[|base| + 1 + i], StripMessage(spoken[i], suffix)))
            && (|| MessagesMatch(copy[|base|], StripMessage(prompt, suffix))
                || (copy[|base|].role == User && Trim(copy[|base|].content) == Trim(request)))
  {
    hide PlanPersistable, MessagesMatch, StripMessage, Trim;
    var h := p.talk.history;
    assert h[|base|] == prompt && forall i | 0 <= i < |spoken| :: h[|base| + 1 + i] == spoken[i];
  }

  lemma CompressedSession(env: Env, request: string, p: Progress, summary: string)
    requires p.talk.session.Some?
    ensures var copy := PlanPersistable(p.talk.history, p.talk.session, env.suffix, p.cp.historyLen, request);
            Compressed(env, request, p, summary).session
            == Some(FromAPIMessages([SummaryMessage(summary)] + copy[CompressionCut(env, p)..]))
  {
    hide PlanPersistable, PersistHistoryForPlan, InTurnCutIndex, FromAPIMessages, SummaryMessage;
    var offered := PlanPersistable(p.talk.history, p.talk.session, env.suffix, p.cp.historyLen, request);
    assert PersistHistoryForPlan(p.talk.history, offered, p.talk.session, env.suffix) == offered;
  }

  lemma CutBounds(env: Env, p: Progress, base: seq<Message>, kept: seq<Entry>, prompt: Message, spoken: seq<Message>)
    requires Holding(p, base, kept, prompt, spoken) && CanCompress(env, p)
    ensures CompressionCut(env, p) <= |base| && RebasedStart(env, p) == 1 + |base| - CompressionCut(env, p)
  {
    CutsTheBase(env, p, base, kept, prompt, spoken);
  }

  /** What a compression leaves in the session behind the shortened base: a copy of the turn. */
  lemma CompressionTells(env: Env, request: string, p: Progress, base: seq<Message>, kept: seq<Entry>, prompt: Message,
                         spoken: seq<Message>, summary: string)
    requires Holding(p, base, kept, prompt, spoken) && CanCompress(env, p) && p.talk.session.Some?
    ensures var t := Compressed(env, request, p, summary); var n := RebasedStart(env, p);
            && t.session.Some? && n <= |t.session.value|
            && TurnTold(t.session.value[n..], prompt, spoken, [], request, env.suffix)
  {
    hide *;
    CutBounds(env, p, base, kept, prompt, spoken);
    CompressedSession(env, request, p, summary);
    OfferedTells(p, env.suffix, base, kept, prompt, spoken, request);
    var copy := PlanPersistable(p.talk.history, p.talk.session, env.suffix, |base|, request);
    CopyTells(SummaryMessage(summary), copy, CompressionCut(env, p), |base|, prompt, spoken, request, env.suffix);
  }

  lemma CopyTells(message: Message, copy: seq<Message>, k: nat, turn: nat, prompt: Message, spoken: seq<Message>,
                  request: string, suffix: string)
    requires k <= turn && |copy| == turn + 1 + |spoken|
    requires forall i | 0 <= i < |spoken| :: MessagesMatch(copy[turn + 1 + i], StripMessage(spoken[i], suffix))
    requires || MessagesMatch(copy[turn], StripMessage(prompt, suffix))
             || (copy[turn].role == User && Trim(copy[turn].content) == Trim(request))
    ensures TurnTold(FromAPIMessages([message] + copy[k..])[1 + turn - k..], prompt, spoken, [], request, suffix)
  {
    hide MessagesMatch, StripMessage, Trim;
    var entries := FromAPIMessages([message] + copy[k..])[1 + turn - k..];
    forall i | 0 <= i < |entries| ensures entries[i] == Conversation(copy[turn + i]) {
      assert ([message] + copy[k..])[1 + turn - k + i] == copy[k..][turn - k + i] == copy[turn + i];
    }
    assert entries[|entries|..] == [];
    var told := entries[1..1 + |spoken|];
    forall i | 0 <= i < |spoken| ensures told[i] == Conversation(copy[turn + 1 + i]) {
      assert told[i] == entries[1 + i];
    }
  }

  lemma MoreIsLogged(entries: seq<Entry>, more: seq<Entry>, prompt: Message, spoken: seq<Message>, request: string, suffix: string)
    requires TurnTold(entries, prompt, spoken, [], request, suffix)
    ensures TurnTold(entries + more, prompt, spoken, more, request, suffix)
  {
    hide Aligned, MessagesMatch, StripMessage, IsRequest;
    var n := 1 + |spoken|;
    assert |entries| == n by { assert |entries[n..]| == 0; }
    assert (entries + more)[n..] == more && (entries + more)[1..n] == entries[1..n];
  }

  /** A finished investigation without a compression has logged its entries behind what it found; with one, the
      session behind the shortened base is a copy of its turn up to there and what it logged since. */
  ghost predicate SessionTells(env: Env, request: string, p: Progress, steps: seq<Step>, prompt: Message, spoken: seq<Message>) {
    var q := Investigated(env, request, p, steps);
    var c := CutStep(env, request, p, steps);
    p.talk.session.Some? && q.stop == Finished ==>
      && q.talk.session.Some? && q.cp.sessionCount >= 0
      && if c == |steps| then q.talk.session.value == p.talk.session.value + Logged(steps) && q.cp == p.cp
         else
           && q.cp.sessionCount <= |q.talk.session.value|
           && TurnTold(q.talk.session.value[q.cp.sessionCount..], prompt, spoken + Transcript(steps[..c]), Logged(steps[c + 1..]),
                       request, env.suffix)
  }

  lemma CutStepUnfolds(env: Env, request: string, p: Progress, steps: seq<Step>)
    requires p.stop == Finished
    ensures CutStep(env, request, p, steps)
         == if steps == [] || StepCut(env, p, steps[0]).Some? then 0
            else 1 + CutStep(env, request, Took(env, request, p, steps[0]), steps[1..])
  {
    hide Took, StepCut;
  }

  lemma NothingTells(env: Env, request: string, p: Progress, base: seq<Message>, kept: seq<Entry>, prompt: Message,
                     spoken: seq<Message>)
    requires Holding(p, base, kept, prompt, spoken) && p.stop == Finished
    ensures SessionTells(env, request, p, [], prompt, spoken)
  {
  }

  /** A step without a compression leaves the checkpoint alone and adds its entries. */
  lemma UncutStep(env: Env, request: string, p: Progress, step: Step, base: seq<Message>, kept: seq<Entry>, prompt: Message,
                  spoken: seq<Message>)
    requires Holding(p, base, kept, prompt, spoken) && p.stop == Finished && p.talk.session.Some?
    requires StepCut(env, p, step).None?
    ensures var q := Took(env, request, p, step);
            && q.cp == p.cp && q.talk.session == Some(p.talk.session.value + if step.Exchange? then step.entries else [])
            && Holding(q, base, kept, prompt, spoken + if step.Exchange? then step.messages else [])
  {
    hide CanCompress, Compressed;
    if step.Exchange? {
      ExchangeKeeps(env, request, p, step, base, kept, prompt, spoken);
    } else {
      assert p.talk.session.value + [] == p.talk.session.value && spoken + [] == spoken;
    }
  }

  lemma StepTells(env: Env, request: string, p: Progress, steps: seq<Step>, prompt: Message, spoken: seq<Message>, spoken1: seq<Message>)
    requires steps != [] && p.stop == Finished && p.talk.session.Some?
    requires StepCut(env, p, steps[0]).None?
    requires var q := Took(env, request, p, steps[0]);
             && q.cp == p.cp && q.talk.session == Some(p.talk.session.value + if steps[0].Exchange? then steps[0].entries else [])
             && (q.stop == Finished ==> SessionTells(env, request, q, steps[1..], prompt, spoken1))
    requires spoken1 == spoken + if steps[0].Exchange? then steps[0].messages else []
    ensures SessionTells(env, request, p, steps, prompt, spoken)
  {
    InvestigatedUnfolds(env, request, p, steps);
    CutStepUnfolds(env, request, p, steps);
    hide Took, StepCut, Investigated, CutStep, TurnTold;
    var q := Took(env, request, p, steps[0]);
    if q.stop == Finished {
      var c := CutStep(env, request, q, steps[1..]);
      LoggedUnfolds(p.talk.session.value, steps);
      if c < |steps[1..]| { SpokenSoFar(spoken, steps, c); }
    }
  }

  lemma SpokenSoFar(spoken: seq<Message>, steps: seq<Step>, c: nat)
    requires steps != [] && c < |steps[1..]|
    ensures spoken + (if steps[0].Exchange? then steps[0].messages else []) + Transcript(steps[1..][..c])
         == spoken + Transcript(steps[..c + 1])
    ensures steps[1..][c + 1..] == steps[c + 2..]
  {
    assert steps[..c + 1][1..] == steps[1..][..c];
    TranscriptUnfolds(spoken, steps[..c + 1]);
  }

  lemma CutTells(env: Env, request: string, p: Progress, steps: seq<Step>, base: seq<Message>, kept: seq<Entry>, prompt: Message,
                 spoken: seq<Message>)
    requires Holding(p, base, kept, prompt, spoken) && p.stop == Finished && p.talk.session.Some?
    requires steps != [] && StepCut(env, p, steps[0]).Some?
    ensures SessionTells(env, request, p, steps, prompt, spoken)
  {
    hide *;
    InvestigatedUnfolds(env, request, p, steps);
    CutStepUnfolds(env, request, p, steps);
    var q, n := CutReached(env, request, p, steps[0], base, kept, prompt, spoken);
    if q.stop == Finished {
      AttemptedLogs(env, request, q, steps[1..]);
      MoreIsLogged(q.talk.session.value[n..], Logged(steps[1..]), prompt, spoken, request, env.suffix);
      assert (q.talk.session.value + Logged(steps[1..]))[n..] == q.talk.session.value[n..] + Logged(steps[1..]);
      assert steps[..0] == [] && spoken + [] == spoken;
    }
    CutTold(env, request, p, steps, prompt, spoken);
  }

  /** Where a step that compresses leaves the investigation: the session tells the turn from the checkpoint on. */
  lemma CutReached(env: Env, request: string, p: Progress, step: Step, base: seq<Message>, kept: seq<Entry>, prompt: Message,
                   spoken: seq<Message>)
    returns (q: Progress, n: nat)
    requires Holding(p, base, kept, prompt, spoken) && p.stop == Finished && p.talk.session.Some?
    requires StepCut(env, p, step).Some?
    ensures q == Took(env, request, p, step) && q.stop == if step.cancelled then CutShort else Finished
    ensures q.talk.attempted && q.talk.session.Some? && n <= |q.talk.session.value|
    ensures TurnTold(q.talk.session.value[n..], prompt, spoken, [], request, env.suffix)
    ensures !step.cancelled ==> q.cp.sessionCount == n
  {
    var _, base', kept' := CompressionKeeps(env, request, p, base, kept, prompt, spoken, step.summary);
    CutsTheBase(env, p, base, kept, prompt, spoken);
    CompressionTells(env, request, p, base, kept, prompt, spoken, step.summary);
    n := RebasedStart(env, p);
    hide Compressed, CompressionCut, RebasedStart, TurnTold, Aligned, CanCompress;
    q := Took(env, request, p, step);
  }

  lemma CutTold(env: Env, request: string, p: Progress, steps: seq<Step>, prompt: Message, spoken: seq<Message>)
    requires steps != [] && CutStep(env, request, p, steps) == 0
    requires var q := Investigated(env, request, p, steps);
             q.stop == Finished ==>
               && q.talk.session.Some? && 0 <= q.cp.sessionCount <= |q.talk.session.value|
               && TurnTold(q.talk.session.value[q.cp.sessionCount..], prompt, spoken, Logged(steps[1..]), request, env.suffix)
    ensures SessionTells(env, request, p, steps, prompt, spoken)
  {
    hide Investigated, CutStep, TurnTold, Logged;
    assert steps[..0] == [] && spoken + [] == spoken;
  }

  lemma {:induction false} InvestigationTells(env: Env, request: string, p: Progress, steps: seq<Step>,
                                              base: seq<Message>, kept: seq<Entry>, prompt: Message, spoken: seq<Message>)
    requires Holding(p, base, kept, prompt, spoken) && p.stop == Finished
    ensures SessionTells(env, request, p, steps, prompt, spoken)
    decreases |steps|
  {
    if p.talk.session.None? {
      return;
    }
    hide *;
    InvestigatedUnfolds(env, request, p, steps);
    CutStepUnfolds(env, request, p, steps);
    if steps == [] {
      NothingTells(env, request, p, base, kept, prompt, spoken);
    } else if StepCut(env, p, steps[0]).Some? {
      CutTells(env, request, p, steps, base, kept, prompt, spoken);
    } else {
      var q := Took(env, request, p, steps[0]);
      var spoken1 := spoken + if steps[0].Exchange? then steps[0].messages else [];
      UncutStep(env, request, p, steps[0], base, kept, prompt, spoken);
      if q.stop == Finished {
        InvestigationTells(env, request, q, steps[1..], base, kept, prompt, spoken1);
      }
      StepTells(env, request, p, steps, prompt, spoken, spoken1);
    }
  }

  // ---------------------------------------------------------------- whole runs

  /** The request and steps of the last investigation a run reaches. */
  function LastInvestigation(env: Env, t: Talk, request: string, run: Run): (string, seq<Step>)
    decreases run
  {
    var p := Investigated(env, request, Started(env, t, request), run.steps);
    if p.stop == Finished && run.ending.Feedback? then
      var again := FeedbackRequest(request, run.ending.text);
      LastInvestigation(env, RequestRecorded(Restore(p.talk, p.cp), again), again, run.ending.next)
    else (request, run.steps)
  }

  /** The conversation the last investigation of a run starts from. */
  function LastTalk(env: Env, t: Talk, request: string, run: Run): Talk
    decreases run
  {
    var p := Investigated(env, request, Started(env, t, request), run.steps);
    if p.stop == Finished && run.ending.Feedback? then
      var again := FeedbackRequest(request, run.ending.text);
      LastTalk(env, RequestRecorded(Restore(p.talk, p.cp), again), again, run.ending.next)
    else t
  }

  /** The one compression of a run: in its first investigation or, failing that, in a rerun. */
  function RunCut(env: Env, t: Talk, request: string, run: Run): Option<Cut>
    decreases run
  {
    var p0 := Started(env, t, request);
    var p := Investigated(env, request, p0, run.steps);
    var cut := Shortening(env, request, p0, run.steps);
    if cut.Some? then cut
    else if p.stop == Finished && run.ending.Feedback? then
      var again := FeedbackRequest(request, run.ending.text);
      RunCut(env, RequestRecorded(Restore(p.talk, p.cp), again), again, run.ending.next)
    else None
  }

  /** An investigation of the run reaches a compressing step whose context is cancelled. */
  predicate Interrupted(env: Env, t: Talk, request: string, run: Run)
    decreases run
  {
    var p0 := Started(env, t, request);
    var p := Investigated(env, request, p0, run.steps);
    || InterruptedIn(env, request, p0, run.steps)
    || (p.stop == Finished && run.ending.Feedback? &&
        var again := FeedbackRequest(request, run.ending.text);
        Interrupted(env, RequestRecorded(Restore(p.talk, p.cp), again), again, run.ending.next))
  }

  /** Since the compression, or since the start when there is none, no rerun finds its own request already
      standing at the end of the restored session. An echo before a compression does no harm: the session is
      then built anew from the history. */
  predicate NoEcho(env: Env, t: Talk, request: string, run: Run)
    decreases run
  {
    var p := Investigated(env, request, Started(env, t, request), run.steps);
    p.stop == Finished && run.ending.Feedback? ==>
      var again := FeedbackRequest(request, run.ending.text);
      var back := Restore(p.talk, p.cp);
      var next := RequestRecorded(back, again);
      && (|| RunCut(env, next, again, run.ending.next).Some?
          || (back.session.Some? ==> !EndsWithRequest(back.session.value, again)))
      && NoEcho(env, next, again, run.ending.next)
  }

  /** The session as captured: without the request that is being planned. */
  function CapturedSession(t: Talk, request: string): seq<Entry> {
    if t.session.None? then [] else t.session.value[..SessionCount(t.session, request)]
  }

  lemma StartedHolds(env: Env, t: Talk, request: string)
    ensures Holding(Started(env, t, request), t.history, CapturedSession(t, request), UserMessage(env.investigation(request)), [])
  {
    var prompt := UserMessage(env.investigation(request));
    assert t.history + [prompt] == t.history + [prompt] + [];
  }

  lemma FeedbackRequestShows(request: string, feedback: string)
    ensures Trim(FeedbackRequest(request, feedback)) != ""
  {
    var s := FeedbackRequest(request, feedback);
    TrimShape(request);
    TrimShape(s);
    assert !IsSpace(s[0]);
  }

  /** Recording the rerun's request hides nothing: the next capture leaves out just what was recorded. */
  lemma RecordedThenCaptured(t: Talk, again: string)
    requires t.session.Some? && Trim(again) != ""
    ensures var r := RequestRecorded(t, again); var s := t.session.value;
            CapturedSession(r, again) == if EndsWithRequest(s, again) then s[..|s| - 1] else s
    ensures RequestRecorded(t, again).history == t.history && RequestRecorded(t, again).prompt == t.prompt
  {
    TrimIdempotent(again);
  }

  /** How every run ends. The base is the pre-run history with the run's one cut, if it makes one; a run that
      fails, is cancelled or is approved is back at the base, a run that ends without steps has only its last
      investigation behind it, and the system prompt is always the pre-run one. A run is cut short exactly when
      a compression finds its context cancelled, and is then back at the base exactly when that cut replaced one
      message. */
  ghost predicate LeavesHistory(env: Env, t: Talk, request: string, run: Run) {
    var left := Finish(env, t, request, run);
    var cut := RunCut(env, t, request, run);
    var base := Shorter(t.history, cut);
    && left.talk.prompt == t.prompt
    && (t.attempted ==> cut.None?) && (cut.Some? ==> 0 < cut.value.at <= |t.history|)
    && (left.exit == Torn <==> Interrupted(env, t, request, run))
    && (left.exit == Restored ==> left.talk.history == base)
    && (left.exit == Torn ==> cut.Some? && (left.talk.history == base <==> cut.value.at == 1))
    && (left.exit == Kept ==>
          var last := LastInvestigation(env, t, request, run);
          left.talk.history == base + [UserMessage(env.investigation(last.0))] + Transcript(last.1))
  }

  /** The session of a run that ends without steps: what was kept, and behind it the last investigation and
      nothing else. Without a compression in it these are the entries it found and the ones it logged; with one, a
      copy of its turn up to there, and the entries logged since. */
  ghost predicate Tells(env: Env, t: Talk, request: string, steps: seq<Step>, kept: seq<Entry>, session: seq<Entry>) {
    var c := CutStep(env, request, Started(env, t, request), steps);
    if c == |steps| then
      t.session.Some? && kept == CapturedSession(t, request) && session == t.session.value + Logged(steps)
    else
      && kept <= session
      && TurnTold(session[|kept|..], UserMessage(env.investigation(request)), Transcript(steps[..c]),
                  Logged(steps[c + 1..]), request, env.suffix)
  }

  /** The session of a run cut short: what a count of `captured` entries leaves of a session that tells the base
      shortened by the cut, which is `kept` itself exactly when as many entries were captured as that base has
      messages. */
  ghost predicate TornSession(captured: seq<Entry>, cut: Cut, base: seq<Message>, kept: seq<Entry>, session: seq<Entry>) {
    && StaleSession(|captured|, kept, session)
    && (session == kept <==> |captured| + cut.at == |base| + 1)
  }

  /** The session a run leaves, its last investigation being `final` from conversation `u`; `last` is what that
      investigation held of what was kept. A restored run ends with that, a run without steps tells its last
      investigation behind it, and a run cut short is left what its last capture counted. */
  ghost predicate SessionLeft(env: Env, left: Left, u: Talk, final: (string, seq<Step>), cut: Option<Cut>, base: seq<Message>,
                              captured: seq<Entry>, kept: seq<Entry>, last: seq<Entry>) {
    && left.talk.session.Some? && last <= kept
    && (left.exit == Restored ==> left.talk.session.value == last)
    && (left.exit == Kept ==> Tells(env, u, final.0, final.1, last, left.talk.session.value))
    && (left.exit == Torn ==>
          && cut.Some? && CapturedSession(u, final.0) <= captured
          && TornSession(CapturedSession(u, final.0), cut.value, base, kept, left.talk.session.value))
  }

  /** What was kept of the session is the shortened base told by it or, without a cut, the session as captured; the
      last investigation held all of that exactly when no rerun echoed it since the cut. */
  ghost predicate LeavesSession(env: Env, t: Talk, request: string, run: Run, kept: seq<Entry>, last: seq<Entry>) {
    var cut := RunCut(env, t, request, run);
    && (t.session.Some? ==>
          && (last == kept <==> NoEcho(env, t, request, run))
          && SessionLeft(env, Finish(env, t, request, run), LastTalk(env, t, request, run), LastInvestigation(env, t, request, run),
                         cut, t.history, CapturedSession(t, request), kept, last))
    && Follows(env, cut, t.history, CapturedSession(t, request), kept)
  }

  ghost predicate Leaves(env: Env, t: Talk, request: string, run: Run, kept: seq<Entry>, last: seq<Entry>) {
    LeavesHistory(env, t, request, run) && LeavesSession(env, t, request, run, kept, last)
  }

  lemma RunTells(env: Env, t: Talk, request: string, steps: seq<Step>, kept: seq<Entry>, spoken: seq<Message>)
    requires var p := Investigated(env, request, Started(env, t, request), steps);
             Keeps(env, Started(env, t, request), p, Shortening(env, request, Started(env, t, request), steps), t.history,
                   CapturedSession(t, request), kept, UserMessage(env.investigation(request)), spoken)
    ensures var p := Investigated(env, request, Started(env, t, request), steps);
            p.stop == Finished && p.talk.session.Some? ==> Tells(env, t, request, steps, kept, p.talk.session.value)
  {
    var prompt := UserMessage(env.investigation(request));
    var p0 := Started(env, t, request);
    StartedHolds(env, t, request);
    StartedFinished(env, t, request);
    InvestigationTells(env, request, p0, steps, t.history, CapturedSession(t, request), prompt, []);
    var p := Investigated(env, request, p0, steps);
    var c := CutStep(env, request, p0, steps);
    hide Started, Investigated, CutStep, TurnTold, CapturedSession, Shortening, Transcript, Logged, Follows, Restore;
    if p.stop == Finished && p.talk.session.Some? {
      assert [] + Transcript(steps[..c]) == Transcript(steps[..c]);
      if c == |steps| { SamePrefix(CapturedSession(t, request), kept, t.session.value, Logged(steps)); }
    }
  }

  lemma SamePrefix<T>(a: seq<T>, b: seq<T>, s: seq<T>, more: seq<T>)
    requires a <= s && |b| == |a| && b <= s + more
    ensures a == b
  {
    assert (s + more)[..|a|] == s[..|a|];
  }

  lemma LeavesDirectly(env: Env, t: Talk, request: string, run: Run, p: Progress, kept: seq<Entry>, spoken: seq<Message>)
    requires p == Investigated(env, request, Started(env, t, request), run.steps)
    requires !(p.stop == Finished && run.ending.Feedback?)
    requires Keeps(env, Started(env, t, request), p, RunCut(env, t, request, run), t.history, CapturedSession(t, request), kept,
                   UserMessage(env.investigation(request)), spoken)
    requires p.stop == CutShort <==> Interrupted(env, t, request, run)
    requires p.stop == Finished ==> spoken == Transcript(run.steps)
    ensures LeavesHistory(env, t, request, run)
  {
    hide Investigated, Holding, CapturedSession, Transcript, Restore, Started, Shorter, Follows, RunCut, Interrupted, StaleSession;
    StartedFinished(env, t, request);
    RestoreKeepsPrompt(p.talk, p.cp);
    if p.stop != CutShort {
      HoldingRestores(p, Shorter(t.history, RunCut(env, t, request, run)), kept, UserMessage(env.investigation(request)), spoken);
    }
  }

  /** The last investigation is the only one: what it kept is what is left of the session, exit by exit. */
  lemma SessionDirectly(env: Env, t: Talk, request: string, run: Run, p: Progress, kept: seq<Entry>, spoken: seq<Message>)
    requires p == Investigated(env, request, Started(env, t, request), run.steps)
    requires !(p.stop == Finished && run.ending.Feedback?)
    requires Keeps(env, Started(env, t, request), p, RunCut(env, t, request, run), t.history, CapturedSession(t, request), kept,
                   UserMessage(env.investigation(request)), spoken)
    requires p.stop == Finished && p.talk.session.Some? ==> Tells(env, t, request, run.steps, kept, p.talk.session.value)
    requires NoEcho(env, t, request, run)
    ensures LeavesSession(env, t, request, run, kept, kept)
  {
    hide Investigated, Holding, CapturedSession, Transcript, Restore, Started, Follows, RunCut, NoEcho, StaleSession, Tells, Shorter;
    StartedFinished(env, t, request);
    var cut := RunCut(env, t, request, run);
    if p.stop != CutShort {
      HoldingRestores(p, Shorter(t.history, cut), kept, UserMessage(env.investigation(request)), spoken);
    } else if p.talk.session.Some? {
      RestoreKeepsSession(p.talk, p.cp);
      StaleIsKept(|CapturedSession(t, request)|, kept, Restore(p.talk, p.cp).session.value);
      FollowsLength(env, cut, t.history, CapturedSession(t, request), kept);
    }
  }

  lemma RestoreKeepsSession(t: Talk, cp: Checkpoint)
    ensures Restore(t, cp).session.Some? <==> t.session.Some?
  {
  }

  lemma StaleIsKept(count: nat, kept: seq<Entry>, session: seq<Entry>)
    requires StaleSession(count, kept, session)
    ensures session == kept <==> count == |kept|
  {
    if |session| == |kept| { assert session == session[..|kept|]; }
  }

  lemma FollowsLength(env: Env, cut: Option<Cut>, base: seq<Message>, kept: seq<Entry>, kept': seq<Entry>)
    requires Follows(env, cut, base, kept, kept')
    ensures cut.Some? && cut.value.at <= |base| ==> |kept'| == 1 + |base| - cut.value.at
  {
  }

  /** A run that reaches feedback ends as its rerun does, started from the restored conversation. */
  lemma FeedbackReruns(env: Env, t: Talk, request: string, run: Run)
    returns (p: Progress, again: string, next: Talk)
    requires run.ending.Feedback?
    ensures p == Investigated(env, request, Started(env, t, request), run.steps)
    ensures again == FeedbackRequest(request, run.ending.text) && next == RequestRecorded(Restore(p.talk, p.cp), again)
    ensures p.stop == Finished ==>
              && Finish(env, t, request, run) == Finish(env, next, again, run.ending.next)
              && LastInvestigation(env, t, request, run) == LastInvestigation(env, next, again, run.ending.next)
              && LastTalk(env, t, request, run) == LastTalk(env, next, again, run.ending.next)
  {
    p := Investigated(env, request, Started(env, t, request), run.steps);
    again := FeedbackRequest(request, run.ending.text);
    next := RequestRecorded(Restore(p.talk, p.cp), again);
    hide Investigated, Started, Restore, RequestRecorded, FeedbackRequest;
  }

  /** The cut, the interruption and the echoes of a run that reaches feedback are its own or its rerun's. */
  lemma FeedbackUnfolds(env: Env, t: Talk, request: string, run: Run, p: Progress, again: string, next: Talk)
    requires run.ending.Feedback? && p.stop == Finished
    requires p == Investigated(env, request, Started(env, t, request), run.steps)
    requires again == FeedbackRequest(request, run.ending.text) && next == RequestRecorded(Restore(p.talk, p.cp), again)
    ensures var own := Shortening(env, request, Started(env, t, request), run.steps);
            RunCut(env, t, request, run) == if own.Some? then own else RunCut(env, next, again, run.ending.next)
    ensures Interrupted(env, t, request, run) <==>
              InterruptedIn(env, request, Started(env, t, request), run.steps) || Interrupted(env, next, again, run.ending.next)
    ensures var back := Restore(p.talk, p.cp);
            NoEcho(env, t, request, run) <==>
              && (|| RunCut(env, next, again, run.ending.next).Some?
                  || (back.session.Some? ==> !EndsWithRequest(back.session.value, again)))
              && NoEcho(env, next, again, run.ending.next)
  {
    hide Investigated, Started, Restore, RequestRecorded, FeedbackRequest, Shortening, InterruptedIn, EndsWithRequest;
  }

  /** Without feedback the cut and the interruption are those of the one investigation. */
  lemma DirectUnfolds(env: Env, t: Talk, request: string, run: Run, p: Progress)
    requires p == Investigated(env, request, Started(env, t, request), run.steps)
    requires !(p.stop == Finished && run.ending.Feedback?)
    ensures RunCut(env, t, request, run) == Shortening(env, request, Started(env, t, request), run.steps)
    ensures Interrupted(env, t, request, run) <==> InterruptedIn(env, request, Started(env, t, request), run.steps)
    ensures NoEcho(env, t, request, run)
  {
    hide Investigated, Started, Shortening, InterruptedIn;
  }

  lemma HistoryAfterFeedback(env: Env, t: Talk, request: string, run: Run, p: Progress, again: string, next: Talk,
                             cut: Option<Cut>, kept0: seq<Entry>, spoken: seq<Message>)
    requires run.ending.Feedback? && p.stop == Finished
    requires p == Investigated(env, request, Started(env, t, request), run.steps)
    requires again == FeedbackRequest(request, run.ending.text) && next == RequestRecorded(Restore(p.talk, p.cp), again)
    requires cut == Shortening(env, request, Started(env, t, request), run.steps)
    requires !InterruptedIn(env, request, Started(env, t, request), run.steps)
    requires Keeps(env, Started(env, t, request), p, cut, t.history, CapturedSession(t, request), kept0,
                   UserMessage(env.investigation(request)), spoken)
    requires Trim(again) != "" && LeavesHistory(env, next, again, run.ending.next)
    ensures LeavesHistory(env, t, request, run)
  {
    hide *;
    NextTalk(env, t, request, p, next, again, cut, kept0, spoken);
    var _, _, _ := FeedbackReruns(env, t, request, run);
    FeedbackUnfolds(env, t, request, run, p, again, next);
    RerunHistory(env, t, request, run, again, next, cut);
  }

  lemma RerunHistory(env: Env, t: Talk, request: string, run: Run, again: string, next: Talk, cut: Option<Cut>)
    requires run.ending.Feedback? && LeavesHistory(env, next, again, run.ending.next)
    requires next.history == Shorter(t.history, cut) && next.prompt == t.prompt
    requires (t.attempted || cut.Some? ==> next.attempted) && (t.attempted ==> cut.None?)
    requires cut.Some? ==> 0 < cut.value.at <= |t.history|
    requires Finish(env, t, request, run) == Finish(env, next, again, run.ending.next)
    requires LastInvestigation(env, t, request, run) == LastInvestigation(env, next, again, run.ending.next)
    requires RunCut(env, t, request, run) == if cut.Some? then cut else RunCut(env, next, again, run.ending.next)
    requires Interrupted(env, t, request, run) <==> Interrupted(env, next, again, run.ending.next)
    ensures LeavesHistory(env, t, request, run)
  {
    hide Finish, LastInvestigation, RunCut, Interrupted, Transcript;
  }

  /** The conversation a rerun starts from: the shortened base and, in the session, what was kept of it. */
  lemma NextTalk(env: Env, t: Talk, request: string, p: Progress, next: Talk, again: string,
                 cut: Option<Cut>, kept0: seq<Entry>, spoken: seq<Message>)
    requires p.stop == Finished && next == RequestRecorded(Restore(p.talk, p.cp), again) && Trim(again) != ""
    requires Keeps(env, Started(env, t, request), p, cut, t.history, CapturedSession(t, request), kept0,
                   UserMessage(env.investigation(request)), spoken)
    ensures next.history == Shorter(t.history, cut) && next.prompt == t.prompt
    ensures (t.attempted || cut.Some? ==> next.attempted) && (t.attempted ==> cut.None?)
    ensures cut.Some? ==> 0 < cut.value.at <= |t.history|
    ensures next.session.Some? <==> t.session.Some?
    ensures Restore(p.talk, p.cp).session == if t.session.Some? then Some(kept0) else None
    ensures t.session.Some? ==>
              CapturedSession(next, again) == if EndsWithRequest(kept0, again) then kept0[..|kept0| - 1] else kept0
    ensures t.session.None? ==> CapturedSession(next, again) == [] == CapturedSession(t, request)
    ensures Follows(env, cut, t.history, CapturedSession(t, request), kept0)
  {
    var back := Restore(p.talk, p.cp);
    HoldingRestores(p, Shorter(t.history, cut), kept0, UserMessage(env.investigation(request)), spoken);
    StartedFinished(env, t, request);
    if back.session.Some? { RecordedThenCaptured(back, again); }
    NextSession(t, p, back, next, again, request);
    hide Holding, Aligned, CapturedSession, Restore, RequestRecorded, EndsWithRequest, Started, Shorter, Follows;
  }

  lemma SessionAfterFeedback(env: Env, t: Talk, request: string, run: Run, p: Progress, again: string, next: Talk,
                             cut: Option<Cut>, kept0: seq<Entry>, spoken: seq<Message>, kept1: seq<Entry>, last: seq<Entry>)
    returns (kept: seq<Entry>)
    requires run.ending.Feedback? && p.stop == Finished
    requires p == Investigated(env, request, Started(env, t, request), run.steps)
    requires again == FeedbackRequest(request, run.ending.text) && next == RequestRecorded(Restore(p.talk, p.cp), again)
    requires cut == Shortening(env, request, Started(env, t, request), run.steps)
    requires Keeps(env, Started(env, t, request), p, cut, t.history, CapturedSession(t, request), kept0,
                   UserMessage(env.investigation(request)), spoken)
    requires Trim(again) != "" && (next.attempted ==> RunCut(env, next, again, run.ending.next).None?)
    requires LeavesSession(env, next, again, run.ending.next, kept1, last)
    ensures LeavesSession(env, t, request, run, kept, last)
  {
    hide *;
    NextTalk(env, t, request, p, next, again, cut, kept0, spoken);
    var _, _, _ := FeedbackReruns(env, t, request, run);
    FeedbackUnfolds(env, t, request, run, p, again, next);
    kept := RerunSession(env, t, request, run, again, next, cut, kept0, kept1, last);
  }

  lemma RerunSession(env: Env, t: Talk, request: string, run: Run, again: string, next: Talk,
                     cut: Option<Cut>, kept0: seq<Entry>, kept1: seq<Entry>, last: seq<Entry>)
    returns (kept: seq<Entry>)
    requires run.ending.Feedback? && LeavesSession(env, next, again, run.ending.next, kept1, last)
    requires next.history == Shorter(t.history, cut) && (cut.Some? ==> next.attempted)
    requires next.attempted ==> RunCut(env, next, again, run.ending.next).None?
    requires next.session.Some? <==> t.session.Some?
    requires t.session.Some? ==>
               CapturedSession(next, again) == if EndsWithRequest(kept0, again) then kept0[..|kept0| - 1] else kept0
    requires t.session.None? ==> CapturedSession(next, again) == [] == CapturedSession(t, request)
    requires Follows(env, cut, t.history, CapturedSession(t, request), kept0)
    requires Finish(env, t, request, run) == Finish(env, next, again, run.ending.next)
    requires LastInvestigation(env, t, request, run) == LastInvestigation(env, next, again, run.ending.next)
    requires LastTalk(env, t, request, run) == LastTalk(env, next, again, run.ending.next)
    requires RunCut(env, t, request, run) == if cut.Some? then cut else RunCut(env, next, again, run.ending.next)
    requires NoEcho(env, t, request, run) <==>
               && (|| RunCut(env, next, again, run.ending.next).Some?
                   || (t.session.Some? ==> !EndsWithRequest(kept0, again)))
               && NoEcho(env, next, again, run.ending.next)
    ensures LeavesSession(env, t, request, run, kept, last)
  {
    var later := RunCut(env, next, again, run.ending.next);
    kept := if later.Some? then kept1 else kept0;
    hide Finish, RunCut, NoEcho, CapturedSession, Aligned, SessionLeft, LastInvestigation, LastTalk;
    if t.session.Some? {
      var left, u, final := Finish(env, t, request, run), LastTalk(env, t, request, run), LastInvestigation(env, t, request, run);
      var base, captured := t.history, CapturedSession(t, request);
      if later.Some? {
        CapturedLess(env, left, u, final, later, base, CapturedSession(next, again), captured, kept1, last);
      } else {
        EchoShortens(kept0, EndsWithRequest(kept0, again), kept1, last, NoEcho(env, next, again, run.ending.next));
        NoLaterCut(env, left, u, final, cut, next.history, base, CapturedSession(next, again), captured, kept1, kept0, last);
      }
    }
  }

  lemma CapturedLess(env: Env, left: Left, u: Talk, final: (string, seq<Step>), cut: Option<Cut>, base: seq<Message>,
                     captured': seq<Entry>, captured: seq<Entry>, kept: seq<Entry>, last: seq<Entry>)
    requires SessionLeft(env, left, u, final, cut, base, captured', kept, last) && captured' <= captured
    ensures SessionLeft(env, left, u, final, cut, base, captured, kept, last)
  {
    hide CapturedSession, Tells, TornSession;
  }

  /** A rerun without a cut is not cut short, so what it kept matters only through what it held last. */
  lemma NoLaterCut(env: Env, left: Left, u: Talk, final: (string, seq<Step>), cut: Option<Cut>,
                   base': seq<Message>, base: seq<Message>, captured': seq<Entry>, captured: seq<Entry>,
                   kept': seq<Entry>, kept: seq<Entry>, last: seq<Entry>)
    requires SessionLeft(env, left, u, final, None, base', captured', kept', last) && last <= kept
    ensures SessionLeft(env, left, u, final, cut, base, captured, kept, last)
  {
    hide CapturedSession, Tells, TornSession;
  }

  /** An echo leaves out the last message; without one the session can still be all of what was kept. */
  lemma EchoShortens(kept0: seq<Entry>, echo: bool, kept1: seq<Entry>, session: seq<Entry>, rest: bool)
    requires echo ==> kept0 != []
    requires kept1 == (if echo then kept0[..|kept0| - 1] else kept0)
    requires session <= kept1 && (session == kept1 <==> rest)
    ensures session <= kept0 && (session == kept0 <==> !echo && rest)
  {
    if echo { assert |session| < |kept0|; }
  }

  lemma NextSession(t: Talk, p: Progress, back: Talk, next: Talk, again: string, request: string)
    requires back == Restore(p.talk, p.cp) && next == RequestRecorded(back, again)
    ensures next.history == back.history && next.prompt == back.prompt && next.attempted == p.talk.attempted
    ensures next.session.Some? <==> p.talk.session.Some?
    ensures next.session.None? ==> CapturedSession(next, again) == []
    ensures t.session.None? ==> CapturedSession(t, request) == []
  {
  }

  lemma {:induction false} RunLeaves(env: Env, t: Talk, request: string, run: Run)
    returns (kept: seq<Entry>, last: seq<Entry>)
    ensures Leaves(env, t, request, run, kept, last)
    decreases run
  {
    hide *;
    var prompt := UserMessage(env.investigation(request));
    var p0 := Started(env, t, request);
    StartedHolds(env, t, request);
    StartedFinished(env, t, request);
    var spoken;
    kept, spoken := InvestigationKeeps(env, request, p0, run.steps, t.history, CapturedSession(t, request), prompt, []);
    var p := Investigated(env, request, p0, run.steps);
    if p.stop == Finished && run.ending.Feedback? {
      var q, again, next := FeedbackReruns(env, t, request, run);
      var kept1;
      kept1, last := RunLeaves(env, next, again, run.ending.next);
      FeedbackRequestShows(request, run.ending.text);
      LeavesBoth(env, next, again, run.ending.next, kept1, last);
      var cut := Shortening(env, request, p0, run.steps);
      HistoryAfterFeedback(env, t, request, run, p, again, next, cut, kept, spoken);
      kept := SessionAfterFeedback(env, t, request, run, p, again, next, cut, kept, spoken, kept1, last);
      LeavesWhole(env, t, request, run, kept, last);
    } else {
      assert [] + Transcript(run.steps) == Transcript(run.steps);
      DirectUnfolds(env, t, request, run, p);
      LeavesDirectly(env, t, request, run, p, kept, spoken);
      RunTells(env, t, request, run.steps, kept, spoken);
      SessionDirectly(env, t, request, run, p, kept, spoken);
      last := kept;
      LeavesWhole(env, t, request, run, kept, last);
    }
  }

  lemma LeavesBoth(env: Env, t: Talk, request: string, run: Run, kept: seq<Entry>, last: seq<Entry>)
    requires Leaves(env, t, request, run, kept, last)
    ensures LeavesHistory(env, t, request, run) && LeavesSession(env, t, request, run, kept, last)
    ensures t.attempted ==> RunCut(env, t, request, run).None?
  {
    hide Finish, RunCut, Interrupted, LastInvestigation, LeavesSession;
  }

  lemma LeavesWhole(env: Env, t: Talk, request: string, run: Run, kept: seq<Entry>, last: seq<Entry>)
    requires LeavesHistory(env, t, request, run) && LeavesSession(env, t, request, run, kept, last)
    ensures Leaves(env, t, request, run, kept, last)
  {
    hide LeavesHistory, LeavesSession;
  }

  lemma StartedFinished(env: Env, t: Talk, request: string)
    ensures Started(env, t, request).stop == Finished && Started(env, t, request).cp.prompt == t.prompt
    ensures Started(env, t, request).talk.attempted == t.attempted
    ensures Started(env, t, request).talk.session == t.session
  {
  }

  lemma RestoreKeepsPrompt(t: Talk, cp: Checkpoint)
    requires !cp.restored
    ensures Restore(t, cp).prompt == cp.prompt
  {
  }

  /** A restored run without a compression ends with the session it captured exactly when no rerun echoed it; an
      echo makes the next capture leave out a message that was there before. */
  lemma SessionExactly(env: Env, t: Talk, request: string, run: Run)
    requires t.session.Some? && RunCut(env, t, request, run).None? && Finish(env, t, request, run).exit == Restored
    ensures var session := Finish(env, t, request, run).talk.session; var captured := CapturedSession(t, request);
            && session.Some? && session.value <= captured
            && (session.value == captured <==> NoEcho(env, t, request, run))
  {
    hide Finish, RunCut, NoEcho, CapturedSession, LeavesHistory, LastInvestigation, LastTalk, Tells, TornSession;
    var kept, last := RunLeaves(env, t, request, run);
  }

  /** A run cut short is left exactly at the shortened history and the session that tells it when the cut replaced
      one message and, with a session, its last capture counted as many entries as there were messages. */
  lemma TornRunExactly(env: Env, t: Talk, request: string, run: Run) returns (kept: seq<Entry>)
    requires Finish(env, t, request, run).exit == Torn
    ensures var left := Finish(env, t, request, run).talk; var cut := RunCut(env, t, request, run);
            var captured := CapturedSession(LastTalk(env, t, request, run), LastInvestigation(env, t, request, run).0);
            && cut.Some? && cut.value.at <= |t.history|
            && Aligned(kept, Shorter(t.history, cut), env.suffix)
            && (left.history == Shorter(t.history, cut) && (t.session.Some? ==> left.session == Some(kept))
                <==> cut.value.at == 1 && (t.session.Some? ==> |captured| == |t.history|))
  {
    hide Finish, RunCut, NoEcho, CapturedSession, LastInvestigation, LastTalk, Tells, StaleSession, Aligned, Shorter, Interrupted, Transcript;
    var last;
    kept, last := RunLeaves(env, t, request, run);
  }

  lemma ApprovedAtOnce(env: Env, t: Talk, request: string)
    ensures var run := Run([], Approved);
            Finish(env, t, request, run).exit == Restored && RunCut(env, t, request, run).None? && NoEcho(env, t, request, run)
  {
    var p := Started(env, t, request);
    StartedFinished(env, t, request);
    InvestigatedUnfolds(env, request, p, []);
    hide Started, Investigated, Shortening, Restore;
  }

  /** A session that already ends with the rerun's request loses that message. */
  lemma EchoLosesMessage(env: Env)
    ensures exists t: Talk, request: string, run: Run ::
              && t.session.Some? && Finish(env, t, request, run).exit == Restored
              && Finish(env, t, request, run).talk.session != Some(CapturedSession(t, request))
  {
    var again := FeedbackRequest("", "narrower");
    var t := Talk([], Some([Conversation(UserMessage(again))]), "", true, false);
    var run := Run([], Feedback("narrower", Run([], Approved)));
    assert CapturedSession(t, "") == t.session.value;
    var p := Started(env, t, "");
    StartedFinished(env, t, "");
    InvestigatedUnfolds(env, "", p, []);
    assert Restore(p.talk, p.cp).session == t.session && EndsWithRequest(t.session.value, again);
    hide Started, Investigated, Shortening, Restore, Finish, RunCut, NoEcho, CapturedSession, EndsWithRequest, FeedbackRequest,
      InterruptedIn, Interrupted, LastInvestigation, RequestRecorded;
    var _, _, next := FeedbackReruns(env, t, "", run);
    ApprovedAtOnce(env, next, again);
    FeedbackUnfolds(env, t, "", run, p, again, next);
    SessionExactly(env, t, "", run);
  }

  /** A run that is cancelled right after its first step compressed. */
  function CancelledRun(summary: string): Run { Run([CompressionSucceeds(summary, true)], Fails) }

  lemma CancelledRunLeaves(env: Env, t: Talk, request: string, summary: string)
    requires CanCompress(env, Started(env, t, request))
    ensures var p := Started(env, t, request); var run := CancelledRun(summary);
            && Finish(env, t, request, run) == Left(Restore(Compressed(env, request, p, summary), p.cp), Torn, None)
            && RunCut(env, t, request, run) == Some(Cut(summary, CompressionCut(env, p)))
  {
    hide Started, CanCompress, Compressed, CompressionCut, Restore;
    StartedFinished(env, t, request);
    InvestigatedUnfolds(env, request, Started(env, t, request), CancelledRun(summary).steps);
  }

  /** Cancelled right after a compression of three messages, the run leaves its own planning prompt behind. */
  lemma CutShortLeavesPrompt(env: Env, request: string)
    requires env.keepRecent == 1
    ensures exists t: Talk, run: Run :: Finish(env, t, request, run).exit == Torn
                             && Finish(env, t, request, run).talk.history
                                == [SummaryMessage("s"), UserMessage(env.investigation(request))]
  {
    var u := UserMessage("");
    var t := Talk([u, u, u], None, "", true, false);
    var p := ThreeSummarized(env, u, t, request);
    hide Started, CanCompress, CompressionCut, Compressed, SummaryMessage, UserMessage;
    CancelledRunLeaves(env, t, request, "s");
  }

  lemma ThreeSummarized(env: Env, u: Message, t: Talk, request: string) returns (p: Progress)
    requires env.keepRecent == 1 && u == UserMessage("") && t == Talk([u, u, u], None, "", true, false)
    ensures p == Started(env, t, request) && CanCompress(env, p) && CompressionCut(env, p) == 3 && !p.cp.restored
    ensures p.cp.historyLen == 3
    ensures Compressed(env, request, p, "s").history == [SummaryMessage("s"), UserMessage(env.investigation(request))]
  {
    p := Started(env, t, request);
    var prompt := UserMessage(env.investigation(request));
    assert p.talk.history == [u, u, u, prompt];
    assert TurnStart(p.talk.history, 3) == 3;
    assert p.talk.history[3..] == [prompt];
    hide PlanPersistable, PersistHistoryForPlan;
  }

  /** One message summarized is not enough for the session: with an audit entry beside that message, the history is
      exact after such a run, but the cancelled request stays in the session. */
  lemma CutShortLeavesRequest(env: Env, request: string)
    requires env.keepRecent == 1
    ensures exists t: Talk, run: Run ::
              && Finish(env, t, request, run).exit == Torn
              && RunCut(env, t, request, run) == Some(Cut("s", 1))
              && Finish(env, t, request, run).talk.history == Shorter(t.history, Some(Cut("s", 1))) == [SummaryMessage("s")]
              && Finish(env, t, request, run).talk.session
                 == Some([Conversation(SummaryMessage("s")), Conversation(UserMessage(request))])
  {
    var u := UserMessage("");
    var t := Talk([u], Some([Conversation(u), ToolExecution("x")]), "", true, false);
    var p := Started(env, t, request);
    AuditedStarts(env, u, request);
    AuditedCompresses(env, request, p, u);
    assert Shorter(t.history, Some(Cut("s", 1))) == [SummaryMessage("s")];
    hide Compressed, CanCompress, CompressionCut, Started, SummaryMessage, Shorter;
    CancelledRunLeaves(env, t, request, "s");
    var c := Compressed(env, request, p, "s");
    assert c.history[..1] == [SummaryMessage("s")] && c.session.value[..2] == c.session.value;
  }

  lemma AuditedStarts(env: Env, u: Message, request: string)
    requires env.keepRecent == 1 && u == UserMessage("")
    ensures var p := Started(env, Talk([u], Some([Conversation(u), ToolExecution("x")]), "", true, false), request);
            && p.talk.history == [u, UserMessage(env.investigation(request))] && p.cp == Checkpoint(1, 2, "", false)
            && p.talk.session == Some([Conversation(u), ToolExecution("x")])
            && CanCompress(env, p) && CompressionCut(env, p) == 1
  {
    var p := Started(env, Talk([u], Some([Conversation(u), ToolExecution("x")]), "", true, false), request);
    assert p.talk.history == [u, UserMessage(env.investigation(request))];
    assert TurnStart(p.talk.history, 1) == 1;
  }

  lemma AuditedCompresses(env: Env, request: string, p: Progress, u: Message)
    requires p.talk.history == [u, UserMessage(env.investigation(request))] && p.cp.historyLen == 1
    requires p.talk.session == Some([Conversation(u), ToolExecution("x")]) && CompressionCut(env, p) == 1
    ensures var t := Compressed(env, request, p, "s");
            && t.history == [SummaryMessage("s"), UserMessage(env.investigation(request))]
            && t.session == Some([Conversation(SummaryMessage("s")), Conversation(UserMessage(request))])
  {
    var offered := PlanPersistable(p.talk.history, p.talk.session, env.suffix, 1, request);
    OneAudited(u, "x");
    AuditedCopy(u, UserMessage(env.investigation(request)), p.talk.session.value, env.suffix, request);
    assert PersistHistoryForPlan(p.talk.history, offered, p.talk.session, env.suffix) == offered;
    hide PlanPersistable, PersistHistoryForPlan, CompressionCut, SummaryMessage, UserMessage;
    assert offered[1..] == [UserMessage(request)];
    assert [SummaryMessage("s")] + offered[1..] == [SummaryMessage("s"), UserMessage(request)];
    assert p.talk.history[1..] == [UserMessage(env.investigation(request))];
    var t := Compressed(env, request, p, "s");
    assert t.history == [SummaryMessage("s")] + p.talk.history[1..];
    assert t.session == Some(FromAPIMessages([SummaryMessage("s")] + offered[1..]));
    TwoEntries(SummaryMessage("s"), UserMessage(request));
  }

  lemma TwoEntries(a: Message, b: Message)
    ensures FromAPIMessages([a, b]) == [Conversation(a), Conversation(b)]
  {
  }

  lemma OneAudited(u: Message, name: string)
    ensures ToAPIMessages([Conversation(u), ToolExecution(name)]) == [u]
  {
    assert [Conversation(u), ToolExecution(name)][1..] == [ToolExecution(name)];
    assert ToAPIMessages([ToolExecution(name)]) == [];
  }

  /** The session holds fewer messages than the history, so the copy has the request in place of the prompt. */
  lemma AuditedCopy(u: Message, prompt: Message, session: seq<Entry>, suffix: string, request: string)
    requires ToAPIMessages(session) == [u] && prompt == UserMessage(prompt.content)
    ensures PlanPersistable([u, prompt], Some(session), suffix, 1, request)[1] == UserMessage(request)
  {
    assert |Stripped([u, prompt], suffix)| == 2;
  }

  // ---------------------------------------------------------------- the agent and the request, in place

  class Agent {
    const env: Env
    var history: seq<Message>
    var session: Option<seq<Entry>>
    var systemPrompt: string
    var planMode: bool
    var attemptedThisTurn: bool

    constructor (env: Env)
      ensures this.env == env && View() == Talk([], None, "", false, false)
    {
      this.env := env;
      history, session, systemPrompt, planMode, attemptedThisTurn := [], None, "", false, false;
    }

    ghost function View(): Talk
      reads this
    {
      Talk(history, session, systemPrompt, planMode, attemptedThisTurn)
    }

    /** Replaces the prefix by the summary, in the history and in the session. */
    method CompressHistory(summary: string, split: Split)
      modifies this
      ensures var message := SummaryMessage(summary);
              View() == old(View()).(history := Replaced(message, split),
                                     session := if old(session).None? then None
                                                else Some(FromAPIMessages([message] + split.toKeepPersist)))
    {
      var message := SummaryMessage(summary);
      history := [message] + split.toKeep;
      if session.Some? { session := Some(FromAPIMessages([message] + split.toKeepPersist)); }
    }
  }

  datatype RestoreMode = RestoreConversation | RestorePromptOnly

  class PlanModeRequest {
    const agent: Agent
    const request: string
    var historyLen: int
    var sessionMessageCount: int
    var checkpointPrompt: string
    var restored: bool
    var handoff: Option<string>

    constructor (agent: Agent, request: string)
      ensures this.agent == agent && this.request == request && handoff == None
    {
      this.agent, this.request := agent, request;
      historyLen, sessionMessageCount, checkpointPrompt, restored, handoff := 0, 0, "", false, None;
    }

    ghost function Saved(): Checkpoint
      reads this
    {
      Checkpoint(historyLen, sessionMessageCount, checkpointPrompt, restored)
    }

    ghost function At(stop: Stop): Progress
      reads this, agent
    {
      Progress(agent.View(), Saved(), stop)
    }

    method CaptureCheckpoint()
      modifies this
      ensures Saved() == Capture(agent.View(), request) && handoff == old(handoff)
    {
      historyLen := |agent.history|;
      checkpointPrompt := agent.systemPrompt;
      sessionMessageCount, restored := 0, false;
      if agent.session.Some? {
        sessionMessageCount := |agent.session.value|;
        if Trim(request) != "" && EndsWithRequest(agent.session.value, request) {
          sessionMessageCount := sessionMessageCount - 1;
        }
      }
    }

    method RestoreConversationState()
      modifies this, agent
      ensures agent.View() == Restore(old(agent.View()), old(Saved()))
      ensures restored && handoff == old(handoff)
    {
      if restored { return; }
      restored := true;
      agent.systemPrompt := checkpointPrompt;
      if 0 <= historyLen <= |agent.history| { agent.history := agent.history[..historyLen]; }
      if agent.session.Some? {
        var count := if sessionMessageCount < 0 then 0 else sessionMessageCount;
        if count < |agent.session.value| { agent.session := Some(agent.session.value[..count]); }
      }
    }

    method RebaseAfterInTurnCompression(start: int)
      requires start >= 0
      modifies this
      ensures Saved() == old(Saved()).(historyLen := Clamp(start, |agent.history|),
                                       sessionCount := if agent.session.Some? then Clamp(start, |agent.history|)
                                                       else old(sessionMessageCount))
      ensures handoff == old(handoff)
    {
      var at := start;
      if at > |agent.history| { at := |agent.history|; }
      historyLen := at;
      if agent.session.Some? { sessionMessageCount := at; }
    }

    /** One in-turn attempt; a cancelled context is reported before the checkpoint is rebased. */
    method MaybeCompress(step: Step) returns (stop: Stop)
      requires !step.Exchange?
      modifies this, agent
      ensures At(stop) == Took(agent.env, request, old(At(Finished)), step)
      ensures handoff == old(handoff)
    {
      hide InTurnCutIndex, PlanPersistable, FromAPIMessages, Replaced;
      if agent.attemptedThisTurn || historyLen <= 0 { return Finished; }
      var h := agent.history;
      var offered := PlanPersistable(h, agent.session, agent.env.suffix, historyLen, request);
      var persist := PersistHistoryForPlan(h, offered, agent.session, agent.env.suffix);
      var split := SplitHistoryForInTurnCompression(h, persist, historyLen, agent.env.keepRecent);
      if |split.toCompress| == 0 { return Finished; }
      var start := CompressedCurrentTurnStart(h, split, historyLen);
      agent.attemptedThisTurn := true;
      if step.CompressionFails? { return if step.cancelled then Failed else Finished; }
      agent.CompressHistory(step.summary, split);
      if step.cancelled { return CutShort; }
      RebaseAfterInTurnCompression(start);
      return Finished;
    }

    method RunInvestigation(steps: seq<Step>) returns (stop: Stop)
      modifies this, agent
      ensures At(stop) == Investigated(agent.env, request, old(At(Finished)), steps)
      ensures handoff == old(handoff)
    {
      stop := Finished;
      var i := 0;
      while i < |steps|
        invariant 0 <= i <= |steps| && handoff == old(handoff)
        invariant stop == Finished
        invariant Investigated(agent.env, request, At(stop), steps[i..])
               == Investigated(agent.env, request, old(At(Finished)), steps)
      {
        ghost var rest := steps[i..];
        assert rest[0] == steps[i] && rest[1..] == steps[i + 1..];
        match steps[i] {
          case Exchange(messages, entries) =>
            agent.history := agent.history + messages;
            if agent.session.Some? { agent.session := Some(agent.session.value + entries); }
          case _ =>
            stop := MaybeCompress(steps[i]);
            if stop != Finished { return; }
        }
        i := i + 1;
      }
    }

    method RecordRerunRequest(again: string)
      modifies agent
      ensures agent.View() == RequestRecorded(old(agent.View()), again)
    {
      if agent.session.None? || Trim(again) == "" { return; }
      if EndsWithRequest(agent.session.value, again) { return; }
      agent.session := Some(agent.session.value + [Conversation(UserMessage(Trim(again)))]);
    }

    method ApplyExitPolicy(mode: RestoreMode)
      modifies this, agent
      ensures handoff == old(handoff)
      ensures agent.View() == match mode
                              case RestoreConversation => Restore(old(agent.View()), old(Saved()))
                              case RestorePromptOnly => old(agent.View()).(prompt := old(checkpointPrompt))
    {
      match mode {
        case RestoreConversation => RestoreConversationState();
        case RestorePromptOnly => agent.systemPrompt := checkpointPrompt;
      }
    }

    method Prepare()
      modifies this, agent
      ensures At(Finished) == Started(agent.env, old(agent.View()), request) && handoff == old(handoff)
    {
      CaptureCheckpoint();
      agent.systemPrompt := agent.env.planning(agent.systemPrompt);
      agent.history := agent.history + [UserMessage(agent.env.investigation(request))];
    }

    /** The review. A rerun is a new request on the same agent, started from the restored conversation. */
    method HandleInvestigationResult(ending: Ending) returns (failed: bool)
      requires !ending.Fails? && handoff == None
      modifies this, agent
      ensures match ending
              case Approved => agent.View() == old(agent.View()).(planMode := false) && Saved() == old(Saved()) && handoff == Some(request)
              case Cancelled => agent.View() == old(agent.View()).(planMode := false) && Saved() == old(Saved()) && handoff == None
              case FeedbackNotSaved(_) => agent.View() == Restore(old(agent.View()), old(Saved())) && restored && handoff == None
              case Feedback(text, next) =>
                var again := FeedbackRequest(request, text);
                var left := Finish(agent.env, RequestRecorded(Restore(old(agent.View()), old(Saved())), again), again, next);
                agent.View() == left.talk && restored && handoff == left.approvedRequest
              case _ => agent.View() == old(agent.View()) && Saved() == old(Saved()) && handoff == None
      decreases ending
    {
      hide Finish, Restore, RequestRecorded;
      failed := false;
      match ending {
        case Approved =>
          handoff := Some(request);
          agent.planMode := false;
        case Cancelled =>
          agent.planMode := false;
        case FeedbackNotSaved(_) =>
          RestoreConversationState();
          failed := true;
        case Feedback(text, next) =>
          RestoreConversationState();
          var again := FeedbackRequest(request, text);
          RecordRerunRequest(again);
          var rerun := new PlanModeRequest(agent, again);
          failed := rerun.Run(next);
          if rerun.handoff.Some? { handoff := rerun.handoff; }
        case _ =>
      }
    }

    /** Prepares, investigates, reviews and always leaves through the exit policy. After a rerun this request
        has restored already, so its own exit restores nothing more. */
    method Run(run: Run) returns (failed: bool)
      modifies this, agent
      ensures var left := Finish(agent.env, old(agent.View()), request, run);
              agent.View() == left.talk && handoff == left.approvedRequest
      decreases run
    {
      hide Investigated, Started;
      handoff := None;
      Prepare();
      var stop := RunInvestigation(run.steps);
      if stop != Finished || run.ending.Fails? {
        ApplyExitPolicy(RestoreConversation);
        return true;
      }
      failed := HandleInvestigationResult(run.ending);
      var mode := if run.ending.WithoutPlan? || run.ending.WithoutSteps? then RestorePromptOnly else RestoreConversation;
      ApplyExitPolicy(mode);
    }
  }
}
