/**
 When a provider-side response may be continued. A response ID lives in the provider, in the agent's
 response context, in the saved session and in checkpoints; many operations move it between them.
 `issued` records, for every ID the provider ever returned, what it was returned for.
 Identity values (model, provider, config key) are in their normalized form, and a prompt's fingerprint
 stands for its hash: equal fingerprints mean equal canonical prompts.
 */
module Continuation {
  import opened Text

  datatype Identity = Identity(model: string, provider: string, key: string)

  /** What is remembered of a response: its ID, the runtime it came from and the fingerprint of its prompt. */
  datatype Snapshot = Snapshot(id: string, model: string, provider: string, key: string, fingerprint: string)

  const NOTHING := Snapshot("", "", "", "", "")

  datatype Session = Session(name: string, model: string, provider: string, key: string, saved: Snapshot)

  datatype Config = Config(store: bool, persistID: bool)

  datatype Purpose = ForChat | ForCompression | ForReview

  datatype Issue = Issue(identity: Identity, fingerprint: string, purpose: Purpose)

  /** `live` is the provider's own ID; a provider that keeps none is not `capable`. */
  datatype State = State(runtime: Identity, capable: bool, live: string, context: Snapshot, session: Option<Session>,
                         config: Config, hasStorage: bool, stored: map<string, Session>, checkpoints: seq<Snapshot>,
                         issued: map<string, Issue>)

  predicate Persists(c: Config) { c.store && c.persistID }

  // ---------------------------------------------------------------- snapshots

  function OrElse(a: string, b: string): string { if a == "" then b else a }

  function SessionSnapshot(s: Session): Snapshot {
    s.saved.(model := OrElse(s.saved.model, s.model), provider := OrElse(s.saved.provider, s.provider),
             key := OrElse(s.saved.key, s.key))
  }

  function RuntimeSnapshot(r: Identity, id: string): Snapshot { Snapshot(id, r.model, r.provider, r.key, "") }

  predicate ShouldRestore(x: Snapshot, r: Identity) {
    && x.id != ""
    && x.model != "" && r.model != "" && x.model == r.model
    && !(x.provider == "" && x.key == "")
    && (x.provider != "" ==> x.provider == r.provider)
    && (x.key != "" && r.key != "" ==> x.key == r.key)
  }

  predicate ShouldReuse(x: Snapshot, r: Identity, fingerprint: string) {
    ShouldRestore(x, r) && fingerprint != "" && x.fingerprint == fingerprint
  }

  function Forgotten(s: Session): Session { s.(saved := NOTHING) }

  function Remembering(s: Session, x: Snapshot): Session {
    if x.id == "" then Forgotten(s)
    else s.(saved := x.(model := OrElse(x.model, s.model), provider := OrElse(x.provider, s.provider),
                        key := OrElse(x.key, s.key)))
  }

  /** What is known about the ID the provider holds now. */
  function CurrentSnapshot(s: State): Snapshot {
    if s.live == "" then NOTHING
    else if s.context.id == s.live then s.context
    else if s.session.Some? && s.session.value.saved.id == s.live then SessionSnapshot(s.session.value)
    else RuntimeSnapshot(s.runtime, s.live)
  }

  function SavedForgotten(s: Option<Session>): Option<Session> {
    if s.None? then None else Some(Forgotten(s.value))
  }

  // ---------------------------------------------------------------- the agent's operations, on values

  function IdentitySynced(s: State): State {
    if s.session.None? then s
    else s.(session := Some(s.session.value.(model := s.runtime.model, provider := s.runtime.provider, key := s.runtime.key)))
  }

  function SavedSynced(s: State): State {
    if s.session.None? then s
    else if !Persists(s.config) then s.(session := Some(Forgotten(s.session.value)))
    else if !s.capable || s.live == "" then s
    else s.(session := Some(Remembering(s.session.value, CurrentSnapshot(s))))
  }

  /** Saving brings the session up to date first; without storage nothing happens. */
  function Saved(s: State): State {
    if s.session.None? || !s.hasStorage then s
    else
      var t := SavedSynced(IdentitySynced(s));
      t.(stored := t.stored[t.session.value.name := t.session.value])
  }

  function ProviderIDRestored(s: State, id: string): State {
    var kept := if Persists(s.config) then id else "";
    s.(context := if kept == "" then NOTHING else s.context, live := if s.capable then kept else s.live)
  }

  function ContinuationCleared(s: State): State {
    var t := ProviderIDRestored(s, "");
    if t.session.None? then t else Saved(t.(session := Some(Forgotten(t.session.value))))
  }

  function ProviderAndSavedCleared(s: State): State {
    s.(live := if s.capable then "" else s.live, context := NOTHING,
       session := SavedForgotten(s.session))
  }

  function Invalidated(s: State): State {
    if s.session.None? then s
    else if !Persists(s.config) then s.(session := Some(Forgotten(s.session.value)))
    else
      var x := SessionSnapshot(s.session.value);
      if x.id != "" && !ShouldRestore(x, s.runtime)
      then s.(session := Some(Forgotten(s.session.value)), context := NOTHING) else s
  }

  function SessionIDRestored(s: State): State {
    if s.session.None? then s
    else if !Persists(s.config) then
      s.(live := if s.capable then "" else s.live, session := Some(Forgotten(s.session.value)), context := NOTHING)
    else if !s.capable then s
    else
      var x := SessionSnapshot(s.session.value);
      if !ShouldRestore(x, s.runtime) then s.(live := "", context := NOTHING) else s.(live := x.id, context := x)
  }

  function Reconciled(s: State): State {
    if s.session.None? then s else SessionIDRestored(IdentitySynced(s))
  }

  function ModelSelected(s: State, model: string, reset: bool): State {
    var t := IdentitySynced(s.(runtime := s.runtime.(model := model)));
    if reset then ContinuationCleared(t) else Reconciled(t)
  }

  predicate ResetsForModel(from: Identity, model: string) { from.model != "" && from.model != model }

  predicate ResetsForRuntime(from: Identity, next: Identity) {
    || ResetsForModel(from, next.model)
    || (from.provider != "" && from.provider != next.provider)
    || (from.key != "" && next.key != "" && from.key != next.key)
  }

  /** A provider switch installs a new provider object, which holds no ID. */
  function ProviderSwitched(s: State, next: Identity, capable: bool): State {
    ModelSelected(s.(runtime := Identity(s.runtime.model, next.provider, next.key), capable := capable, live := ""),
                  next.model, ResetsForRuntime(s.runtime, next))
  }

  // ---- one chat request

  /** Checks the live ID against the prompt before a request; the flag says the chain is disabled. */
  function Prepared(s: State, fingerprint: string): (State, bool) {
    if !s.capable || s.live == "" || ShouldReuse(CurrentSnapshot(s), s.runtime, fingerprint) then (s, false)
    else (s.(live := "", context := NOTHING, session := SavedForgotten(s.session)), true)
  }

  function Recorded(s: State, fingerprint: string): State {
    if !s.capable || s.live == "" || fingerprint == "" then s
    else s.(context := RuntimeSnapshot(s.runtime, s.live).(fingerprint := fingerprint))
  }

  /** What happens around one request: the projection may disable the chain, active context may ride along,
      the last message may carry an image, the model may not use response IDs at all, the provider may drop a
      previous ID it no longer knows, and it may fail or return an ID. */
  datatype Exchange = Exchange(fingerprint: string, projectionDisables: bool, activeContext: bool, image: bool,
                               usesResponses: bool, dropsPrevious: bool, ok: bool, id: string)

  function BeforeRequest(s: State, x: Exchange): (State, bool) {
    var (p, disabled) := Prepared(s, x.fingerprint);
    if x.projectionDisables then (if p.capable then ProviderAndSavedCleared(p) else p, true) else (p, disabled)
  }

  predicate Reuses(s: State, x: Exchange, disabled: bool) { s.config.store && !x.activeContext && !disabled }

  /** The previous ID the request carries. */
  function SentID(s: State, x: Exchange): string {
    var (p, disabled) := BeforeRequest(s, x);
    if p.capable && x.usesResponses && Reuses(p, x, disabled) && !x.image then p.live else ""
  }

  /** What the provider keeps once the request is over. */
  function ProviderKeeps(p: State, x: Exchange, disabled: bool): string {
    if !p.capable || !x.usesResponses then p.live
    else
      var held := if x.dropsPrevious then "" else p.live;
      var caches := p.config.store && !x.activeContext;
      if caches && x.ok && x.id != "" then x.id
      else if !caches || !Reuses(p, x, disabled) then ""
      else held
  }

  function Issued(s: State, id: string, fingerprint: string, purpose: Purpose): map<string, Issue> {
    if id == "" then s.issued else s.issued[id := Issue(s.runtime, fingerprint, purpose)]
  }

  function Sent(s: State, x: Exchange): State {
    var (p, disabled) := BeforeRequest(s, x);
    var t := p.(live := ProviderKeeps(p, x, disabled), issued := Issued(p, x.id, x.fingerprint, ForChat));
    if x.ok then Recorded(t, x.fingerprint) else t
  }

  // ---- compression, review, checkpoints, sessions

  /** A local compression suspends the live ID; its own ID never outlives it. */
  function Compressed(s: State, id: string, success: bool, persist: bool): State {
    var asked := s.(live := if s.capable then (if s.config.store then id else "") else s.live, issued := Issued(s, id, "", ForCompression));
    if !success then asked.(live := s.live)
    else
      var t := ProviderIDRestored(asked, "");
      if !persist || t.session.None? then t else Saved(t.(session := Some(Forgotten(t.session.value))))
  }

  function Reviewed(s: State, id: string): State { s.(issued := Issued(s, id, "", ForReview)) }

  function CaptureSnapshot(s: State): Snapshot {
    var base := RuntimeSnapshot(s.runtime, "");
    var fromSession := if Persists(s.config) && s.session.Some? && s.session.value.saved.id != ""
                       then SessionSnapshot(s.session.value) else base;
    if s.capable && s.config.store then
      if s.live != "" then CurrentSnapshot(s) else fromSession.(id := "")
    else fromSession
  }

  function CheckpointRestored(s: State, c: Snapshot, truncated: bool): State {
    var t := if !s.capable then s
             else if !s.config.store then s.(live := "", context := NOTHING)
             else s.(live := c.id, context := c);
    if t.session.None? then t
    else
      var x := if Persists(t.config) then Remembering(t.session.value, c) else Forgotten(t.session.value);
      var u := t.(session := Some(x));
      if !truncated then Saved(u)
      else if u.hasStorage then u.(stored := u.stored[x.name := x]) else u
  }

  function ConversationLoaded(s: State, x: Session): State {
    ProviderIDRestored(s.(session := Some(x), context := SessionSnapshot(x)), x.saved.id)
  }

  function SessionStarted(s: State, name: string): State {
    var t := Saved(s);
    var x := Session(name, t.runtime.model, t.runtime.provider, t.runtime.key, NOTHING);
    ConversationLoaded(if t.hasStorage then t.(stored := t.stored[name := x]) else t, x)
  }

  function Moved(s: State, switches: bool, next: Identity, capable: bool): State {
    if switches then ProviderSwitched(s, next, capable)
    else if next.model != s.runtime.model then ModelSelected(s, next.model, ResetsForModel(s.runtime, next.model))
    else s
  }

  /** Resuming saves the current session, moves the runtime to the loaded one's with no session attached,
      then loads it and reconciles. `next` is where the runtime lands, by a provider switch or without one. */
  function Resumed(s: State, name: string, switches: bool, next: Identity, capable: bool): State {
    var t := Saved(s);
    if name !in t.stored then t
    else
      var detached := t.(session := None);
      Reconciled(ConversationLoaded(Moved(detached, switches, next, capable), t.stored[name]))
  }

  function ConversationReset(s: State): State {
    var t := ProviderIDRestored(s.(context := NOTHING), "");
    if t.session.None? then t
    else
      var x := Forgotten(t.session.value);
      t.(session := Some(x), stored := if t.hasStorage then t.stored[x.name := x] else t.stored)
  }

  // ---------------------------------------------------------------- safety over all runs

  /** A remembered response with a fingerprint was a chat response to that prompt, on that very runtime. */
  ghost predicate SoundSnapshot(x: Snapshot, issued: map<string, Issue>) {
    x.id != "" && x.fingerprint != "" ==>
      && x.model != "" && x.provider != "" && x.key != ""
      && x.id in issued && issued[x.id] == Issue(Identity(x.model, x.provider, x.key), x.fingerprint, ForChat)
  }

  ghost predicate Named(r: Identity) { r.model != "" && r.provider != "" && r.key != "" }

  ghost predicate Sound(s: State) {
    && Named(s.runtime)
    && SoundSnapshot(s.context, s.issued)
    && (s.session.Some? ==> SoundSnapshot(s.session.value.saved, s.issued))
    && (forall n | n in s.stored :: SoundSnapshot(s.stored[n].saved, s.issued))
    && (forall i | 0 <= i < |s.checkpoints| :: SoundSnapshot(s.checkpoints[i], s.issued))
  }

  datatype Op =
    | Send(x: Exchange)
    | SelectModel(model: string, clearsCache: bool, reset: bool)
    | SwitchProvider(next: Identity, capable: bool)
    | SwitchConfigKey(key: string)
    | ClearForActiveContext
    | ClearContinuation
    | Compress(id: string, success: bool, persist: bool)
    | Review(id: string)
    | Capture
    | RestoreCheckpoint(at: nat, truncated: bool)
    | RebaseCheckpoint(at: nat)
    | SaveSession
    | ChangeSession
    | StartSession(name: string)
    | Resume(name: string, switches: bool, next: Identity, capable: bool)
    | ResetConversation
    | Configure(config: Config)

  /** A provider never returns an ID twice, and a runtime that is switched to has a name. */
  ghost predicate Legal(s: State, op: Op) {
    match op
    case Send(x) => x.id !in s.issued
    case Compress(id, _, _) => id !in s.issued
    case Review(id) => id !in s.issued
    case SelectModel(model, _, _) => model != ""
    case SwitchProvider(next, _) => Named(next)
    case SwitchConfigKey(key) => key != ""
    case Resume(_, _, next, _) => Named(next)
    case _ => true
  }

  function Step(s: State, op: Op): State {
    match op
    case Send(x) => Sent(s, x)
    case SelectModel(model, clearsCache, reset) =>
      ModelSelected(if clearsCache && s.capable then s.(live := "") else s, model, reset)
    case SwitchProvider(next, capable) => ProviderSwitched(s, next, capable)
    case SwitchConfigKey(key) => ContinuationCleared(s.(runtime := s.runtime.(key := key)))
    case ClearForActiveContext => ProviderAndSavedCleared(s)
    case ClearContinuation => ContinuationCleared(s)
    case Compress(id, success, persist) => Compressed(s, id, success, persist)
    case Review(id) => Reviewed(s, id)
    case Capture => s.(checkpoints := s.checkpoints + [CaptureSnapshot(s)])
    case RestoreCheckpoint(at, truncated) =>
      if at < |s.checkpoints| then CheckpointRestored(s, s.checkpoints[at], truncated) else s
    case RebaseCheckpoint(at) =>
      if at < |s.checkpoints| then s.(checkpoints := s.checkpoints[at := s.checkpoints[at].(id := "")]) else s
    case SaveSession => Saved(s)
    case ChangeSession => Saved(Invalidated(s))
    case StartSession(name) => SessionStarted(s, name)
    case Resume(name, switches, next, capable) => Resumed(s, name, switches, next, capable)
    case ResetConversation => ConversationReset(s)
    case Configure(config) => s.(config := config)
  }

  lemma IssuingKeepsAll(s: State, id: string, fingerprint: string, purpose: Purpose)
    requires Sound(s) && id !in s.issued
    ensures Sound(s.(issued := Issued(s, id, fingerprint, purpose)))
  {
  }

  lemma SnapshotsSound(issued: map<string, Issue>, r: Identity, id: string, x: Session, y: Snapshot)
    requires SoundSnapshot(x.saved, issued) && SoundSnapshot(y, issued)
    ensures SoundSnapshot(NOTHING, issued) && SoundSnapshot(RuntimeSnapshot(r, id), issued)
    ensures SoundSnapshot(SessionSnapshot(x), issued)
    ensures SoundSnapshot(Remembering(x, y).saved, issued) && SoundSnapshot(Forgotten(x).saved, issued)
  {
  }

  lemma CurrentSound(s: State)
    requires Sound(s)
    ensures SoundSnapshot(CurrentSnapshot(s), s.issued)
  {
    hide SoundSnapshot, SessionSnapshot, Remembering, Forgotten, RuntimeSnapshot;
    NothingSound(s);
    if s.session.Some? { SnapshotsSound(s.issued, s.runtime, s.live, s.session.value, NOTHING); }
  }

  lemma NothingSound(s: State)
    ensures SoundSnapshot(NOTHING, s.issued) && SoundSnapshot(RuntimeSnapshot(s.runtime, s.live), s.issued)
  {
  }

  lemma SyncKeeps(s: State)
    requires Sound(s)
    ensures Sound(IdentitySynced(s)) && Sound(SavedSynced(s))
  {
    hide SoundSnapshot, Remembering, Forgotten, CurrentSnapshot;
    CurrentSound(s);
    if s.session.Some? { SnapshotsSound(s.issued, s.runtime, "", s.session.value, CurrentSnapshot(s)); }
  }

  lemma SaveKeeps(s: State)
    requires Sound(s)
    ensures Sound(Saved(s))
  {
    hide SoundSnapshot, IdentitySynced, SavedSynced;
    SyncKeeps(s);
    SyncKeeps(IdentitySynced(s));
    SyncedSession(s);
    SyncedSession(IdentitySynced(s));
  }

  lemma SyncedSession(s: State)
    ensures IdentitySynced(s).session.Some? <==> s.session.Some?
    ensures SavedSynced(s).session.Some? <==> s.session.Some?
  {
  }

  lemma ClearKeeps(s: State, id: string)
    requires Sound(s)
    ensures Sound(ProviderIDRestored(s, id)) && Sound(ContinuationCleared(s)) && Sound(ProviderAndSavedCleared(s))
  {
    hide SoundSnapshot, Saved;
    NothingSound(s);
    if s.session.Some? {
      SnapshotsSound(s.issued, s.runtime, "", s.session.value, NOTHING);
      SaveKeeps(ProviderIDRestored(s, "").(session := Some(Forgotten(s.session.value))));
    }
  }

  lemma InvalidateKeeps(s: State)
    requires Sound(s)
    ensures Sound(Invalidated(s))
  {
    hide SoundSnapshot, Forgotten, SessionSnapshot, ShouldRestore;
    NothingSound(s);
    if s.session.Some? { SnapshotsSound(s.issued, s.runtime, "", s.session.value, NOTHING); }
  }

  lemma RestoreIDKeeps(s: State)
    requires Sound(s)
    ensures Sound(SessionIDRestored(s))
  {
    hide SoundSnapshot, Forgotten, SessionSnapshot, ShouldRestore;
    NothingSound(s);
    if s.session.Some? { SnapshotsSound(s.issued, s.runtime, "", s.session.value, NOTHING); }
  }

  lemma ReconcileKeeps(s: State)
    requires Sound(s)
    ensures Sound(Reconciled(s))
  {
    hide Sound, SessionIDRestored, IdentitySynced;
    SyncKeeps(s);
    RestoreIDKeeps(IdentitySynced(s));
  }

  lemma SelectKeeps(s: State, model: string, reset: bool)
    requires Sound(s) && model != ""
    ensures Sound(ModelSelected(s, model, reset)) && ModelSelected(s, model, reset).issued == s.issued
  {
    var t := s.(runtime := s.runtime.(model := model));
    hide SoundSnapshot, IdentitySynced, ContinuationCleared, Reconciled;
    SyncKeeps(t);
    ClearKeeps(IdentitySynced(t), "");
    ReconcileKeeps(IdentitySynced(t));
    NothingIssued(t);
    NothingIssued(IdentitySynced(t));
  }

  lemma NothingIssued(s: State)
    ensures IdentitySynced(s).issued == s.issued && ContinuationCleared(s).issued == s.issued && Reconciled(s).issued == s.issued
    ensures Saved(s).issued == s.issued
  {
  }

  lemma LoadKeeps(s: State, x: Session)
    requires Sound(s) && SoundSnapshot(x.saved, s.issued)
    ensures Sound(ConversationLoaded(s, x))
  {
    hide SoundSnapshot, ProviderIDRestored, SessionSnapshot;
    SnapshotsSound(s.issued, s.runtime, "", x, x.saved);
    ClearKeeps(s.(session := Some(x), context := SessionSnapshot(x)), x.saved.id);
  }

  lemma SwitchKeeps(s: State, next: Identity, capable: bool)
    requires Sound(s) && Named(next)
    ensures Sound(ProviderSwitched(s, next, capable)) && ProviderSwitched(s, next, capable).issued == s.issued
  {
    hide SoundSnapshot, ModelSelected;
    SelectKeeps(s.(runtime := Identity(s.runtime.model, next.provider, next.key), capable := capable, live := ""),
                next.model, ResetsForRuntime(s.runtime, next));
  }

  lemma ResumeKeeps(s: State, name: string, switches: bool, next: Identity, capable: bool)
    requires Sound(s) && Named(next)
    ensures Sound(Resumed(s, name, switches, next, capable))
  {
    hide SoundSnapshot, Saved, ModelSelected, ProviderSwitched, ConversationLoaded, Reconciled;
    SaveKeeps(s);
    NothingIssued(s);
    var t := Saved(s);
    if name in t.stored {
      var detached := t.(session := None);
      SelectKeeps(detached, next.model, ResetsForModel(t.runtime, next.model));
      SwitchKeeps(detached, next, capable);
      var moved := Moved(detached, switches, next, capable);
      LoadKeeps(moved, t.stored[name]);
      ReconcileKeeps(ConversationLoaded(moved, t.stored[name]));
    }
  }

  lemma CheckKeeps(s: State, fingerprint: string)
    requires Sound(s)
    ensures Sound(Prepared(s, fingerprint).0)
  {
    hide SoundSnapshot, ShouldReuse, CurrentSnapshot, Forgotten;
    NothingSound(s);
    if s.session.Some? { SnapshotsSound(s.issued, s.runtime, "", s.session.value, NOTHING); }
  }

  /** The gate: an ID that survives the check was issued to a chat request on this runtime, for this prompt. */
  lemma PreparedKeeps(s: State, x: Exchange)
    requires Sound(s)
    ensures var (p, disabled) := BeforeRequest(s, x);
            && Sound(p) && p.runtime == s.runtime && p.issued == s.issued && p.config == s.config && p.capable == s.capable
            && (p.capable && p.live != "" && !disabled ==>
                  p.live in p.issued && p.issued[p.live] == Issue(p.runtime, x.fingerprint, ForChat))
  {
    CurrentSound(s);
    ReusedWasIssued(CurrentSnapshot(s), s, x.fingerprint);
    CheckKeeps(s, x.fingerprint);
    hide Sound, SoundSnapshot, ShouldReuse, CurrentSnapshot, Forgotten;
    ClearKeeps(Prepared(s, x.fingerprint).0, "");
  }

  lemma ReusedWasIssued(x: Snapshot, s: State, fingerprint: string)
    requires SoundSnapshot(x, s.issued) && Named(s.runtime) && x == CurrentSnapshot(s)
    ensures ShouldReuse(x, s.runtime, fingerprint) ==>
              x.id == s.live && x.id in s.issued && s.issued[x.id] == Issue(s.runtime, fingerprint, ForChat)
  {
  }

  lemma SendKeeps(s: State, x: Exchange)
    requires Sound(s) && x.id !in s.issued
    ensures Sound(Sent(s, x))
  {
    PreparedKeeps(s, x);
    var (p, disabled) := BeforeRequest(s, x);
    hide BeforeRequest;
    IssuingKeepsAll(p, x.id, x.fingerprint, ForChat);
    var t := p.(live := ProviderKeeps(p, x, disabled), issued := Issued(p, x.id, x.fingerprint, ForChat));
    assert Sound(t) by { hide SoundSnapshot, Issued, ProviderKeeps; }
    assert t.capable && t.live != "" && x.ok ==> t.live in t.issued && t.issued[t.live] == Issue(t.runtime, x.fingerprint, ForChat);
    RecordKeeps(t, x.fingerprint);
  }

  lemma RecordKeeps(t: State, fingerprint: string)
    requires Sound(t)
    requires t.capable && t.live != "" && fingerprint != "" ==>
               t.live in t.issued && t.issued[t.live] == Issue(t.runtime, fingerprint, ForChat)
    ensures Sound(Recorded(t, fingerprint))
  {
  }

  lemma CheckpointKeeps(s: State, c: Snapshot, truncated: bool)
    requires Sound(s) && SoundSnapshot(c, s.issued)
    ensures Sound(CheckpointRestored(s, c, truncated))
  {
    var t := if !s.capable then s
             else if !s.config.store then s.(live := "", context := NOTHING)
             else s.(live := c.id, context := c);
    hide SoundSnapshot, Remembering, Forgotten, Saved;
    NothingSound(s);
    assert Sound(t);
    if t.session.Some? {
      SnapshotsSound(t.issued, t.runtime, "", t.session.value, c);
      var x := if Persists(t.config) then Remembering(t.session.value, c) else Forgotten(t.session.value);
      SaveKeeps(t.(session := Some(x)));
    }
  }

  lemma CaptureSound(s: State)
    requires Sound(s)
    ensures SoundSnapshot(CaptureSnapshot(s), s.issued)
  {
    CurrentSound(s);
    if s.session.Some? { SnapshotsSound(s.issued, s.runtime, "", s.session.value, NOTHING); }
    hide CurrentSnapshot, SessionSnapshot;
  }

  lemma CompressKeeps(s: State, id: string, success: bool, persist: bool)
    requires Sound(s) && id !in s.issued
    ensures Sound(Compressed(s, id, success, persist))
  {
    IssuingKeepsAll(s, id, "", ForCompression);
    var asked := s.(live := if s.capable then (if s.config.store then id else "") else s.live,
                    issued := Issued(s, id, "", ForCompression));
    hide SoundSnapshot, Issued, Saved, Forgotten;
    assert Sound(asked);
    ClearKeeps(asked, "");
    var t := ProviderIDRestored(asked, "");
    if t.session.Some? {
      SnapshotsSound(t.issued, t.runtime, "", t.session.value, NOTHING);
      SaveKeeps(t.(session := Some(Forgotten(t.session.value))));
    }
  }

  lemma StartKeeps(s: State, name: string)
    requires Sound(s)
    ensures Sound(SessionStarted(s, name))
  {
    hide SoundSnapshot, Saved, ConversationLoaded;
    SaveKeeps(s);
    var t := Saved(s);
    NothingSound(t);
    var x := Session(name, t.runtime.model, t.runtime.provider, t.runtime.key, NOTHING);
    LoadKeeps(if t.hasStorage then t.(stored := t.stored[name := x]) else t, x);
  }

  lemma ResetKeeps(s: State)
    requires Sound(s)
    ensures Sound(ConversationReset(s))
  {
    hide SoundSnapshot, Forgotten;
    NothingSound(s);
    ClearKeeps(s.(context := NOTHING), "");
    if s.session.Some? { SnapshotsSound(s.issued, s.runtime, "", s.session.value, NOTHING); }
  }

  lemma StepKeeps(s: State, op: Op)
    requires Sound(s) && Legal(s, op)
    ensures Sound(Step(s, op))
  {
    hide SoundSnapshot, Sent, ModelSelected, ProviderSwitched, ContinuationCleared, ProviderAndSavedCleared, Compressed,
      CaptureSnapshot, CheckpointRestored, Saved, Invalidated, SessionStarted, Resumed, ConversationReset, Issued;
    match op {
      case Send(x) => SendKeeps(s, x);
      case SelectModel(model, clearsCache, reset) =>
        SelectKeeps(if clearsCache && s.capable then s.(live := "") else s, model, reset);
      case SwitchProvider(next, capable) => SwitchKeeps(s, next, capable);
      case SwitchConfigKey(key) => ClearKeeps(s.(runtime := s.runtime.(key := key)), "");
      case ClearForActiveContext => ClearKeeps(s, "");
      case ClearContinuation => ClearKeeps(s, "");
      case Compress(id, success, persist) => CompressKeeps(s, id, success, persist);
      case Review(id) => IssuingKeepsAll(s, id, "", ForReview);
      case Capture => CaptureSound(s);
      case RestoreCheckpoint(at, truncated) =>
        if at < |s.checkpoints| { CheckpointKeeps(s, s.checkpoints[at], truncated); }
      case RebaseCheckpoint(at) =>
        if at < |s.checkpoints| { EmptySound(s.checkpoints[at], s.issued); }
      case SaveSession => SaveKeeps(s);
      case ChangeSession => InvalidateKeeps(s); SaveKeeps(Invalidated(s));
      case StartSession(name) => StartKeeps(s, name);
      case Resume(name, switches, next, capable) => ResumeKeeps(s, name, switches, next, capable);
      case ResetConversation => ResetKeeps(s);
      case Configure(config) =>
    }
  }

  lemma EmptySound(c: Snapshot, issued: map<string, Issue>)
    ensures SoundSnapshot(c.(id := ""), issued)
  {
  }

  // ---------------------------------------------------------------- runs

  function Initial(runtime: Identity, capable: bool, config: Config, hasStorage: bool): State {
    State(runtime, capable, "", NOTHING, None, config, hasStorage, map[], [], map[])
  }

  function After(s: State, ops: seq<Op>): State
    decreases |ops|
  {
    if ops == [] then s else Step(After(s, ops[..|ops| - 1]), ops[|ops| - 1])
  }

  ghost predicate LegalRun(s: State, ops: seq<Op>)
    decreases |ops|
  {
    ops != [] ==>
      LegalRun(s, ops[..|ops| - 1]) && Legal(After(s, ops[..|ops| - 1]), ops[|ops| - 1])
  }

  lemma {:induction false} RunKeeps(s: State, ops: seq<Op>)
    requires Sound(s) && LegalRun(s, ops)
    ensures Sound(After(s, ops))
    decreases |ops|
  {
    hide Sound, Step, Legal;
    if ops != [] {
      RunKeeps(s, ops[..|ops| - 1]);
      StepKeeps(After(s, ops[..|ops| - 1]), ops[|ops| - 1]);
    }
  }

  lemma RunStep(s: State, ops: seq<Op>, i: nat)
    requires i < |ops|
    ensures After(s, ops[..i + 1]) == Step(After(s, ops[..i]), ops[i])
    ensures LegalRun(s, ops[..i + 1]) <==> LegalRun(s, ops[..i]) && Legal(After(s, ops[..i]), ops[i])
  {
    hide Step, Legal;
    assert ops[..i + 1][..i] == ops[..i];
  }

  lemma {:induction false} RunPrefix(s: State, ops: seq<Op>, i: nat)
    requires i <= |ops| && LegalRun(s, ops)
    ensures LegalRun(s, ops[..i])
    decreases |ops|
  {
    if i < |ops| {
      RunPrefix(s, ops[..|ops| - 1], i);
      assert ops[..|ops| - 1][..i] == ops[..i];
    } else {
      assert ops[..i] == ops;
    }
  }

  /** The ID a request is sent with was issued to a chat request on the runtime it is sent on, for its prompt. */
  ghost predicate SafeSend(s: State, x: Exchange) {
    var id := SentID(s, x);
    id != "" ==> id in s.issued && s.issued[id] == Issue(s.runtime, x.fingerprint, ForChat)
  }

  lemma SafeInRun(s: State, ops: seq<Op>, i: nat, x: Exchange)
    requires Sound(s) && i <= |ops| && LegalRun(s, ops)
    ensures SafeSend(After(s, ops[..i]), x)
  {
    hide Sound, After, LegalRun;
    RunPrefix(s, ops, i);
    RunKeeps(s, ops[..i]);
    PreparedKeeps(After(s, ops[..i]), x);
  }

  /** In every reachable state, an ID a request is sent with was issued to a chat request of the very model,
      provider and config key, for a prompt with the very fingerprint: never by a compression or a review. */
  lemma ContinuationSafety(runtime: Identity, capable: bool, config: Config, hasStorage: bool, ops: seq<Op>, x: Exchange)
    requires Named(runtime) && LegalRun(Initial(runtime, capable, config, hasStorage), ops)
    ensures SafeSend(After(Initial(runtime, capable, config, hasStorage), ops), x)
  {
    NothingSound(Initial(runtime, capable, config, hasStorage));
    assert ops[..|ops|] == ops;
    SafeInRun(Initial(runtime, capable, config, hasStorage), ops, |ops|, x);
  }

  // ---------------------------------------------------------------- what continuing is for

  /** Nothing about this request stands in the way of continuing. */
  predicate Plain(x: Exchange) {
    x.fingerprint != "" && !x.projectionDisables && !x.activeContext && !x.image && x.usesResponses
  }

  predicate CanContinue(s: State) { s.capable && s.config.store }

  /** The ID a request returned is what the next request is sent with when it has the same prompt; with another
      prompt the next request continues nothing. */
  lemma NextRequestContinues(s: State, x: Exchange, y: Exchange)
    requires Named(s.runtime) && CanContinue(s) && Plain(x) && Plain(y) && x.ok && x.id != ""
    ensures SentID(Sent(s, x), y) == if y.fingerprint == x.fingerprint then x.id else ""
  {
    hide CurrentSnapshot;
    var t := Sent(s, x);
    assert t.live == x.id && t.context == RuntimeSnapshot(s.runtime, x.id).(fingerprint := x.fingerprint) && t.runtime == s.runtime;
    ContextIsCurrent(t);
  }

  lemma ContextIsCurrent(t: State)
    requires t.live != "" && t.context.id == t.live
    ensures CurrentSnapshot(t) == t.context
  {
  }

  predicate StillStored(s: State, t: State, name: string) {
    name in s.stored && name in t.stored && t.stored[name] == s.stored[name]
  }

  /** Resuming moves the runtime, with no session attached, to one that can continue on `r`. */
  predicate LandsOn(v: State, switches: bool, next: Identity, capable: bool, r: Identity) {
    var moved := Moved(Saved(v).(session := None), switches, next, capable);
    moved.runtime == r && moved.capable
  }

  /** A session that was saved after a request and is resumed later, from whatever state still has it stored,
      continues that request's response when the runtime lands where it was: by a provider switch or without. */
  lemma ResumedSessionContinues(s: State, x: Exchange, v: State, switches: bool, next: Identity, capable: bool, y: Exchange)
    requires Named(s.runtime) && CanContinue(s) && Persists(s.config) && s.hasStorage && s.session.Some?
    requires Plain(x) && Plain(y) && x.ok && x.id != "" && y.fingerprint == x.fingerprint
    requires Persists(v.config)
    requires StillStored(Saved(Sent(s, x)), Saved(v), s.session.value.name)
    requires LandsOn(v, switches, next, capable, s.runtime)
    ensures SentID(Resumed(v, s.session.value.name, switches, next, capable), y) == x.id
  {
    var t := SentFacts(s, x);
    var u := SavedAfterSend(t, x.id, x.fingerprint);
    hide Sent, Saved, Moved;
    SavingIsSilent(v);
    MovingKeepsConfig(Saved(v).(session := None), switches, next, capable);
    var moved := Moved(Saved(v).(session := None), switches, next, capable);
    var loaded := ConversationLoaded(moved, u.stored[s.session.value.name]);
    assert Resumed(v, s.session.value.name, switches, next, capable) == Reconciled(loaded) by {
      hide ConversationLoaded, Reconciled;
    }
    var r := Reconciled(loaded);
    assert r.live == x.id && r.context == t.context && r.runtime == s.runtime && r.config == v.config && r.capable;
    hide Reconciled, ConversationLoaded, CurrentSnapshot;
    ContextIsCurrent(r);
  }

  lemma MovingKeepsConfig(s: State, switches: bool, next: Identity, capable: bool)
    requires s.session.None?
    ensures Moved(s, switches, next, capable).config == s.config
  {
  }

  lemma SentFacts(s: State, x: Exchange) returns (t: State)
    requires CanContinue(s) && Plain(x) && x.ok && x.id != ""
    ensures t == Sent(s, x) && t.runtime == s.runtime && t.capable && t.config == s.config && t.hasStorage == s.hasStorage
    ensures t.session.Some? <==> s.session.Some?
    ensures s.session.Some? ==> t.session.value.name == s.session.value.name
    ensures x.id in t.issued && t.issued[x.id] == Issue(s.runtime, x.fingerprint, ForChat)
    ensures t.live == x.id && t.context == Snapshot(x.id, s.runtime.model, s.runtime.provider, s.runtime.key, x.fingerprint)
  {
    hide CurrentSnapshot, ShouldReuse;
    t := Sent(s, x);
  }

  lemma SavedAfterSend(t: State, id: string, fingerprint: string) returns (u: State)
    requires t.capable && Persists(t.config) && t.hasStorage && t.session.Some? && id != ""
    requires t.live == id && t.context == Snapshot(id, t.runtime.model, t.runtime.provider, t.runtime.key, fingerprint)
    ensures u == Saved(t) && u.runtime == t.runtime && u.capable && u.config == t.config
    ensures t.session.value.name in u.stored && u.stored[t.session.value.name].saved == t.context
    ensures u.session.Some? && u.session.value.saved == t.context && u.issued == t.issued
  {
    u := Saved(t);
  }

  /** A restored checkpoint sends exactly what would have been sent when it was captured, whatever happened since. */
  lemma CheckpointContinues(s: State, t: State, truncated: bool, y: Exchange)
    requires s.runtime == t.runtime && s.config == t.config && s.capable && t.capable && t.config.store
    ensures SentID(CheckpointRestored(t, CaptureSnapshot(s), truncated), y) == SentID(s, y)
  {
    var c := CaptureSnapshot(s);
    var r := CheckpointRestored(t, c, truncated);
    RestoredFacts(t, c, truncated);
    CapturedFacts(s);
    hide CaptureSnapshot, CheckpointRestored, CurrentSnapshot;
    if s.live != "" { ContextIsCurrent(r); }
  }

  lemma CapturedFacts(s: State)
    requires s.capable && s.config.store
    ensures CaptureSnapshot(s).id == s.live
    ensures s.live != "" ==> CaptureSnapshot(s) == CurrentSnapshot(s)
  {
  }

  lemma RestoredFacts(t: State, c: Snapshot, truncated: bool)
    requires t.capable && t.config.store
    ensures var r := CheckpointRestored(t, c, truncated);
            r.live == c.id && r.context == c && r.runtime == t.runtime && r.config == t.config && r.capable
  {
    hide Remembering, Forgotten, Saved;
    if t.session.Some? {
      var x := if Persists(t.config) then Remembering(t.session.value, c) else Forgotten(t.session.value);
      SavingIsSilent(t.(live := c.id, context := c, session := Some(x)));
    }
  }

  lemma SavingIsSilent(u: State)
    ensures Saved(u) == u.(session := Saved(u).session, stored := Saved(u).stored)
  {
    hide Remembering, CurrentSnapshot;
  }

  /** A failed compression leaves everything as it was; after a successful one the next request continues nothing,
      and neither does a later resume of the session when the success was persisted. */
  lemma CompressionContinuesNothing(s: State, id: string, persist: bool, y: Exchange)
    requires s.capable
    ensures Compressed(s, id, false, persist) == s.(issued := Issued(s, id, "", ForCompression))
    ensures SentID(Compressed(s, id, true, persist), y) == ""
    ensures persist && s.session.Some? ==> Compressed(s, id, true, persist).session.value.saved == NOTHING
  {
  }

  // ---------------------------------------------------------------- what the names are for

  /** A provider switch that continues what was recorded on `from`: an empty name stands for any. */
  predicate Continues(from: Identity, next: Identity) {
    && next.model != "" && !(next.provider == "" && from.key == "" && next.key == "")
    && !ResetsForRuntime(from, next)
  }

  /** Once a response was recorded and its session saved, a switch continues it exactly when `Continues` says so:
      the ID issued on the old runtime is then sent on the new one. */
  lemma SwitchContinuesExactly(s: State, x: Exchange, next: Identity)
    requires CanContinue(s) && Persists(s.config) && s.hasStorage && s.session.Some?
    requires Plain(x) && x.ok && x.id != ""
    ensures var u := ProviderSwitched(Saved(Sent(s, x)), next, true);
            && u.runtime == next && x.id in u.issued && u.issued[x.id].identity == s.runtime
            && SentID(u, x) == if Continues(s.runtime, next) then x.id else ""
  {
    var t := SentFacts(s, x);
    var saved := SavedAfterSend(t, x.id, x.fingerprint);
    hide Sent, Saved, ProviderSwitched, SentID, Plain;
    var u := ProviderSwitched(saved, next, true);
    SwitchFacts(saved, next, x.id);
    SentIsLive(u, x);
  }

  lemma SentIsLive(s: State, x: Exchange)
    requires CanContinue(s) && Plain(x)
    ensures s.live == "" || (s.context.id == s.live && ShouldReuse(s.context, s.runtime, x.fingerprint)) ==> SentID(s, x) == s.live
  {
    hide ShouldReuse;
  }

  /** Where a switch leaves a session that remembers a response of the runtime it leaves. */
  lemma SwitchFacts(s: State, next: Identity, id: string)
    requires Persists(s.config) && s.session.Some? && id != ""
    requires s.session.value.saved.id == id
    requires s.session.value.saved.model == s.runtime.model && s.session.value.saved.provider == s.runtime.provider
    requires s.session.value.saved.key == s.runtime.key
    ensures var u := ProviderSwitched(s, next, true); var r := s.runtime;
            && u.runtime == next && u.config == s.config && u.capable && u.issued == s.issued
            && if Continues(r, next) then
                 u.live == id && u.context == Snapshot(id, next.model, next.provider, OrElse(r.key, next.key),
                                                       s.session.value.saved.fingerprint)
               else u.live == ""
  {
    hide Saved;
    SavingIsSilent(ProviderIDRestored(IdentitySynced(s.(runtime := next, live := "", capable := true)), "")
                   .(session := Some(Forgotten(IdentitySynced(s.(runtime := next)).session.value))));
  }

  /** The names a runtime needs are all of them: exactly on a named runtime no switch to another named one
      continues what was recorded. */
  lemma NamesAreNeeded(from: Identity)
    ensures Named(from) <==> forall next | Named(next) && next != from :: !Continues(from, next)
  {
    if !Named(from) {
      var next := Identity(OrElse(from.model, "m"), OrElse(from.provider, "p"), OrElse(from.key, "k"));
      assert Named(next) && next != from && Continues(from, next);
    }
  }

  /** What safety says of one run and the request sent after it. */
  ghost predicate SafeRun(runtime: Identity, capable: bool, config: Config, hasStorage: bool, ops: seq<Op>, x: Exchange) {
    var s := Initial(runtime, capable, config, hasStorage);
    LegalRun(s, ops) ==> SafeSend(After(s, ops), x)
  }

  /** Starting a session, one request, saving, and a switch. */
  function LeakingRun(x: Exchange, next: Identity): seq<Op> {
    [StartSession("s"), Send(x), SaveSession, SwitchProvider(next, true)]
  }

  lemma RunOfFour(s: State, ops: seq<Op>)
    requires |ops| == 4
    ensures var s1 := Step(s, ops[0]); var s2 := Step(s1, ops[1]); var s3 := Step(s2, ops[2]);
            && After(s, ops) == Step(s3, ops[3])
            && (LegalRun(s, ops) <==> Legal(s, ops[0]) && Legal(s1, ops[1]) && Legal(s2, ops[2]) && Legal(s3, ops[3]))
  {
    assert ops[..0] == [] && ops[..4] == ops;
    assert After(s, []) == s && LegalRun(s, []);
    hide *;
    RunStep(s, ops, 0);
    RunStep(s, ops, 1);
    RunStep(s, ops, 2);
    RunStep(s, ops, 3);
  }

  lemma StartFacts(runtime: Identity)
    ensures var s := SessionStarted(Initial(runtime, true, Config(true, true), true), "s");
            && CanContinue(s) && Persists(s.config) && s.hasStorage && s.session.Some?
            && s.runtime == runtime && s.issued == map[]
  {
  }

  lemma LeakingRunEnds(s: State, x: Exchange, next: Identity)
    requires x.id !in s.issued && Named(next)
    ensures Step(s, Send(x)) == Sent(s, x) && Step(Sent(s, x), SaveSession) == Saved(Sent(s, x))
    ensures Step(Saved(Sent(s, x)), SwitchProvider(next, true)) == ProviderSwitched(Saved(Sent(s, x)), next, true)
    ensures Legal(s, Send(x)) && Legal(Sent(s, x), SaveSession) && Legal(Saved(Sent(s, x)), SwitchProvider(next, true))
  {
    hide Sent, Saved, ProviderSwitched;
  }

  lemma LeakingRunLeaks(runtime: Identity, next: Identity, x: Exchange)
    requires Named(next) && next != runtime && Continues(runtime, next) && Plain(x) && x.ok && x.id != ""
    ensures !SafeRun(runtime, true, Config(true, true), true, LeakingRun(x, next), x)
  {
    var s := Initial(runtime, true, Config(true, true), true);
    var t := SessionStarted(s, "s");
    hide After, LegalRun, SessionStarted, Sent, Saved, ProviderSwitched, SentID, Continues, Plain, Initial, CanContinue;
    assert Step(s, StartSession("s")) == t && Legal(s, StartSession("s"));
    hide Step, Legal;
    StartFacts(runtime);
    LeakingRunEnds(t, x, next);
    RunOfFour(s, LeakingRun(x, next));
    SwitchContinuesExactly(t, x, next);
  }

  /** Safety holds of every run exactly when it starts on a runtime with all three names. */
  lemma NamesAreExact(runtime: Identity)
    ensures Named(runtime) <==>
              forall capable: bool, config: Config, hasStorage: bool, ops: seq<Op>, x: Exchange ::
                SafeRun(runtime, capable, config, hasStorage, ops, x)
  {
    if Named(runtime) {
      forall capable, config, hasStorage, ops, x ensures SafeRun(runtime, capable, config, hasStorage, ops, x) {
        if LegalRun(Initial(runtime, capable, config, hasStorage), ops) {
          ContinuationSafety(runtime, capable, config, hasStorage, ops, x);
        }
      }
    } else {
      NamesAreNeeded(runtime);
      var next :| Named(next) && next != runtime && Continues(runtime, next);
      var x := Exchange("f", false, false, false, true, false, true, "r");
      hide SafeRun, Continues;
      LeakingRunLeaks(runtime, next, x);
    }
  }

  /** And from a named runtime a switch to one without a config key, alone of all others, does. */
  lemma LostKeyContinues(from: Identity, next: Identity)
    requires Named(from) && next != from
    ensures Continues(from, next) <==> next == from.(key := "")
  {
  }

  /** Safety needs the runtime's names: while the model has none, a recorded response takes on the name of the
      model selected next, and its ID is sent to that model. */
  lemma UnnamedModelLeaks(s: State, x: Exchange, model: string)
    requires s.runtime.model == "" && !(s.runtime.provider == "" && s.runtime.key == "") && model != ""
    requires CanContinue(s) && Persists(s.config) && s.hasStorage && s.session.Some?
    requires Plain(x) && x.ok && x.id != ""
    ensures var t := Saved(Sent(s, x));
            var u := ModelSelected(t, model, ResetsForModel(t.runtime, model));
            SentID(u, x) == x.id && x.id in u.issued && u.issued[x.id].identity == s.runtime && u.runtime != s.runtime
  {
    var t := SentFacts(s, x);
    var saved := SavedAfterSend(t, x.id, x.fingerprint);
    hide Sent, Saved;
    var u := ModelSelected(saved, model, false);
    assert u.live == x.id && u.runtime == s.runtime.(model := model) && u.config == s.config && u.capable
      && u.context == t.context.(model := model) && u.issued == t.issued;
    hide ModelSelected;
    ContextIsCurrent(u);
    hide CurrentSnapshot;
  }
}
