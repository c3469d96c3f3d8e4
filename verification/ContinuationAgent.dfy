/**
 The agent, its provider and its saved session as the objects they are, updated in place. Every method is
 proved to take the abstract state exactly where the operation of module Continuation takes it.
 */
module ContinuationAgent {
  import opened Text
  import opened Continuation

  class Provider {
    const capable: bool
    var responseID: string

    constructor (capable: bool)
      ensures this.capable == capable && responseID == ""
    {
      this.capable := capable;
      responseID := "";
    }

    /** One request: the previous ID goes out unless something forbids it, and the returned one is kept if it may be. */
    method Chat(store: bool, disabled: bool, x: Exchange) returns (sent: string)
      modifies this
      ensures sent == if capable && x.usesResponses && store && !x.activeContext && !disabled && !x.image
                      then old(responseID) else ""
      ensures responseID ==
                if !capable || !x.usesResponses then old(responseID)
                else if store && !x.activeContext && x.ok && x.id != "" then x.id
                else if !store || x.activeContext || disabled || x.dropsPrevious then ""
                else old(responseID)
    {
      sent := "";
      if capable && x.usesResponses {
        var reuse := store && !x.activeContext && !disabled;
        if reuse && !x.image { sent := responseID; }
        if x.dropsPrevious { responseID := ""; }
        if store && !x.activeContext && x.ok && x.id != "" {
          responseID := x.id;
        } else if !reuse {
          responseID := "";
        }
      }
    }
  }

  class SavedSession {
    const name: string
    var model: string
    var provider: string
    var key: string
    var saved: Snapshot

    constructor (x: Session)
      ensures Value() == x
    {
      name, model, provider, key, saved := x.name, x.model, x.provider, x.key, x.saved;
    }

    function Value(): Session
      reads this
    {
      Session(name, model, provider, key, saved)
    }

    method ClearResponseContext()
      modifies this
      ensures Value() == Forgotten(old(Value()))
    {
      saved := NOTHING;
    }

    method ApplyResponseContext(x: Snapshot)
      modifies this
      ensures Value() == Remembering(old(Value()), x)
    {
      if x.id == "" {
        ClearResponseContext();
      } else {
        saved := Snapshot(x.id, OrElse(x.model, model), OrElse(x.provider, provider), OrElse(x.key, key), x.fingerprint);
      }
    }
  }

  class Agent {
    var runtime: Identity
    var provider: Provider
    var context: Snapshot
    var session: SavedSession?
    var config: Config
    var hasStorage: bool
    var stored: map<string, Session>
    var checkpoints: seq<Snapshot>
    ghost var issued: map<string, Issue>

    ghost function View(): State
      reads this, provider, session
    {
      State(runtime, provider.capable, provider.responseID, context,
            if session == null then None else Some(session.Value()),
            config, hasStorage, stored, checkpoints, issued)
    }

    constructor (runtime: Identity, capable: bool, config: Config, hasStorage: bool)
      ensures View() == Initial(runtime, capable, config, hasStorage)
      ensures fresh(provider)
    {
      provider := new Provider(capable);
      this.runtime, context, session := runtime, NOTHING, null;
      this.config, this.hasStorage, stored, checkpoints, issued := config, hasStorage, map[], [], map[];
    }

    // -------------------------------------------------------------- moving an ID between its places

    method Current() returns (x: Snapshot)
      ensures x == CurrentSnapshot(View())
    {
      if provider.responseID == "" { return NOTHING; }
      if context.id == provider.responseID { return context; }
      if session != null && session.saved.id == provider.responseID { return SessionSnapshot(session.Value()); }
      return RuntimeSnapshot(runtime, provider.responseID);
    }

    method SyncSessionRuntimeIdentity()
      modifies session
      ensures View() == IdentitySynced(old(View()))
    {
      if session != null {
        session.model, session.provider, session.key := runtime.model, runtime.provider, runtime.key;
      }
    }

    method SyncSavedResponseContext()
      modifies session
      ensures View() == SavedSynced(old(View()))
    {
      hide CurrentSnapshot, Remembering, Forgotten;
      if session == null { return; }
      if !Persists(config) {
        session.ClearResponseContext();
      } else if provider.capable && provider.responseID != "" {
        var x := Current();
        session.ApplyResponseContext(x);
      }
    }

    method PersistSession()
      modifies this`stored, session
      ensures View() == Saved(old(View()))
    {
      hide IdentitySynced, SavedSynced;
      SyncedSession(View());
      SyncedSession(IdentitySynced(View()));
      SyncedRest(View());
      SyncedRest(IdentitySynced(View()));
      if session == null || !hasStorage { return; }
      SyncSessionRuntimeIdentity();
      SyncSavedResponseContext();
      stored := stored[session.name := session.Value()];
    }

    method RestoreProviderResponseID(id: string)
      modifies this`context, provider
      ensures View() == ProviderIDRestored(old(View()), id)
    {
      var kept := if Persists(config) then id else "";
      if kept == "" { context := NOTHING; }
      if provider.capable { provider.responseID := kept; }
    }

    method ClearResponseContinuationContext()
      modifies this`context, this`stored, provider, session
      ensures View() == ContinuationCleared(old(View()))
    {
      hide ProviderIDRestored, Saved, Forgotten;
      RestoredRest(View(), "");
      RestoreProviderResponseID("");
      if session != null {
        session.ClearResponseContext();
        PersistSession();
      }
    }

    method ClearProviderAndSavedResponseContext()
      modifies this`context, provider, session
      ensures View() == ProviderAndSavedCleared(old(View()))
    {
      if provider.capable { provider.responseID := ""; }
      context := NOTHING;
      if session != null { session.ClearResponseContext(); }
    }

    method InvalidateSavedResponseContext()
      modifies this`context, session
      ensures View() == Invalidated(old(View()))
    {
      hide SessionSnapshot, ShouldRestore;
      if session == null { return; }
      if !Persists(config) {
        session.ClearResponseContext();
        return;
      }
      var x := SessionSnapshot(session.Value());
      if x.id != "" && !ShouldRestore(x, runtime) {
        session.ClearResponseContext();
        context := NOTHING;
      }
    }

    method RestoreSessionResponseID()
      modifies this`context, provider, session
      ensures View() == SessionIDRestored(old(View()))
    {
      hide SessionSnapshot, ShouldRestore;
      if session == null { return; }
      if !Persists(config) {
        if provider.capable { provider.responseID := ""; }
        session.ClearResponseContext();
        context := NOTHING;
        return;
      }
      if !provider.capable { return; }
      var x := SessionSnapshot(session.Value());
      if !ShouldRestore(x, runtime) {
        provider.responseID := "";
        context := NOTHING;
      } else {
        provider.responseID := x.id;
        context := x;
      }
    }

    method Reconcile()
      modifies this`context, provider, session
      ensures View() == Reconciled(old(View()))
    {
      hide SessionIDRestored;
      if session == null { return; }
      SyncSessionRuntimeIdentity();
      RestoreSessionResponseID();
    }

    // -------------------------------------------------------------- changing the runtime

    method SelectModel(model: string, reset: bool)
      modifies this`runtime, this`context, this`stored, provider, session
      ensures View() == ModelSelected(old(View()), model, reset)
    {
      hide IdentitySynced, ContinuationCleared, Reconciled;
      runtime := runtime.(model := model);
      SyncSessionRuntimeIdentity();
      if reset { ClearResponseContinuationContext(); } else { Reconcile(); }
    }

    method SwitchProvider(next: Identity, capable: bool)
      modifies this`runtime, this`provider, this`context, this`stored, session
      ensures fresh(provider)
      ensures View() == ProviderSwitched(old(View()), next, capable)
    {
      hide ModelSelected, ResetsForRuntime;
      var reset := ResetsForRuntime(runtime, next);
      runtime := Identity(runtime.model, next.provider, next.key);
      provider := new Provider(capable);
      SelectModel(next.model, reset);
    }

    // -------------------------------------------------------------- one request

    method PrepareForPrompt(fingerprint: string) returns (disabled: bool)
      modifies this`context, provider, session
      ensures (View(), disabled) == Prepared(old(View()), fingerprint)
    {
      hide CurrentSnapshot, ShouldReuse;
      disabled := false;
      if !provider.capable || provider.responseID == "" { return; }
      var x := Current();
      if ShouldReuse(x, runtime, fingerprint) { return; }
      provider.responseID := "";
      context := NOTHING;
      if session != null { session.ClearResponseContext(); }
      disabled := true;
    }

    method RecordForPrompt(fingerprint: string)
      modifies this`context
      ensures View() == Recorded(old(View()), fingerprint)
    {
      if !provider.capable || provider.responseID == "" || fingerprint == "" { return; }
      context := RuntimeSnapshot(runtime, provider.responseID).(fingerprint := fingerprint);
    }

    /** The check against the prompt, and the projection's own reason to disable the chain. */
    method PrepareRequest(x: Exchange) returns (disabled: bool)
      modifies this`context, provider, session
      ensures (View(), disabled) == BeforeRequest(old(View()), x)
    {
      hide Prepared, ProviderAndSavedCleared;
      disabled := PrepareForPrompt(x.fingerprint);
      if x.projectionDisables {
        if provider.capable { ClearProviderAndSavedResponseContext(); }
        disabled := true;
      }
    }

    method Request(x: Exchange) returns (sent: string)
      modifies this`context, this`issued, provider, session
      ensures View() == Sent(old(View()), x) && sent == SentID(old(View()), x)
    {
      hide BeforeRequest, Recorded, Issued;
      var disabled := PrepareRequest(x);
      issued := Issued(View(), x.id, x.fingerprint, ForChat);
      sent := provider.Chat(config.store, disabled, x);
      if x.ok { RecordForPrompt(x.fingerprint); }
    }

    // -------------------------------------------------------------- compression

    method SuspendForCompression() returns (previous: string)
      modifies provider
      ensures previous == old(provider.responseID)
      ensures View() == old(View()).(live := if provider.capable then "" else old(provider.responseID))
    {
      previous := provider.responseID;
      if provider.capable { provider.responseID := ""; }
    }

    method FinishCompression(previous: string, success: bool, persist: bool)
      modifies this`context, this`stored, provider, session
      ensures View() ==
                var s := old(View());
                var t := ProviderIDRestored(s, "");
                if !success then (if s.capable then s.(live := previous) else s)
                else if !persist || t.session.None? then t
                else Saved(t.(session := Some(Forgotten(t.session.value))))
    {
      hide ProviderIDRestored, Saved, Forgotten;
      RestoredRest(View(), "");
      if !success {
        if provider.capable { provider.responseID := previous; }
        return;
      }
      RestoreProviderResponseID("");
      if persist && session != null {
        session.ClearResponseContext();
        PersistSession();
      }
    }

    method CompressLocally(id: string, success: bool, persist: bool)
      modifies this`context, this`stored, this`issued, provider, session
      ensures View() == Compressed(old(View()), id, success, persist)
    {
      hide ProviderIDRestored, Saved, Forgotten, Issued;
      var previous := SuspendForCompression();
      if provider.capable && config.store { provider.responseID := id; }
      issued := Issued(old(View()), id, "", ForCompression);
      FinishCompression(previous, success, persist);
    }

    // -------------------------------------------------------------- checkpoints

    method CaptureCheckpoint()
      modifies this`checkpoints
      ensures View() == Step(old(View()), Capture)
    {
      hide CurrentSnapshot, SessionSnapshot;
      var c := RuntimeSnapshot(runtime, "");
      if Persists(config) && session != null && session.saved.id != "" { c := SessionSnapshot(session.Value()); }
      if provider.capable && config.store {
        c := c.(id := provider.responseID);
        if c.id != "" { c := Current(); }
      }
      checkpoints := checkpoints + [c];
    }

    method RestoreCheckpoint(c: Snapshot, truncated: bool)
      modifies this`context, this`stored, provider, session
      ensures View() == CheckpointRestored(old(View()), c, truncated)
    {
      hide Saved, Remembering, Forgotten;
      if provider.capable {
        if !config.store {
          provider.responseID, context := "", NOTHING;
        } else {
          provider.responseID, context := c.id, c;
        }
      }
      if session == null { return; }
      if Persists(config) { session.ApplyResponseContext(c); } else { session.ClearResponseContext(); }
      if !truncated {
        PersistSession();
      } else if hasStorage {
        NamesKept(old(session.Value()), c);
        stored := stored[session.name := session.Value()];
      }
    }

    // -------------------------------------------------------------- sessions

    method LoadConversation(loaded: SavedSession)
      modifies this`session, this`context, provider
      ensures session == loaded && View() == ConversationLoaded(old(View()), old(loaded.Value()))
    {
      hide ProviderIDRestored, SessionSnapshot;
      session := loaded;
      context := SessionSnapshot(loaded.Value());
      RestoreProviderResponseID(loaded.saved.id);
    }

    method StartNewSession(name: string)
      modifies this`session, this`context, this`stored, provider, session
      ensures session != null && fresh(session)
      ensures View() == SessionStarted(old(View()), name)
    {
      hide Saved, ConversationLoaded;
      SavedRest(View());
      PersistSession();
      var loaded := new SavedSession(Session(name, runtime.model, runtime.provider, runtime.key, NOTHING));
      if hasStorage { stored := stored[name := loaded.Value()]; }
      LoadConversation(loaded);
    }

    method MoveRuntime(switches: bool, next: Identity, capable: bool)
      modifies this`runtime, this`provider, this`context, this`stored, provider, session
      ensures provider == old(provider) || fresh(provider)
      ensures View() == Moved(old(View()), switches, next, capable)
    {
      hide ProviderSwitched, ModelSelected, ResetsForModel;
      if switches {
        SwitchProvider(next, capable);
      } else if next.model != runtime.model {
        SelectModel(next.model, ResetsForModel(runtime, next.model));
      }
    }

    method ResumeSession(name: string, switches: bool, next: Identity, capable: bool)
      modifies this`runtime, this`provider, this`session, this`context, this`stored, provider, session
      ensures provider == old(provider) || fresh(provider)
      ensures session == old(session) || (session != null && fresh(session))
      ensures View() == Resumed(old(View()), name, switches, next, capable)
    {
      hide Saved, Moved, ConversationLoaded, Reconciled;
      PersistSession();
      if name !in stored { return; }
      var loaded := new SavedSession(stored[name]);
      session := null;
      MoveRuntime(switches, next, capable);
      LoadConversation(loaded);
      Reconcile();
    }

    method ResetConversation()
      modifies this`context, this`stored, provider, session
      ensures View() == ConversationReset(old(View()))
    {
      hide Forgotten;
      context := NOTHING;
      RestoreProviderResponseID("");
      if session == null { return; }
      session.ClearResponseContext();
      if hasStorage { stored := stored[session.name := session.Value()]; }
    }

    // -------------------------------------------------------------- whole runs

    /** An operation on the runtime, or one that only forgets. */
    method ChangeRuntime(op: Op)
      requires op.SelectModel? || op.SwitchProvider? || op.SwitchConfigKey? || op.ClearForActiveContext? || op.ClearContinuation?
      modifies this, provider, session
      ensures provider == old(provider) || fresh(provider)
      ensures session == old(session)
      ensures View() == Step(old(View()), op)
    {
      hide ModelSelected, ContinuationCleared, ProviderAndSavedCleared, ProviderSwitched;
      match op {
        case SelectModel(model, clearsCache, reset) =>
          if clearsCache && provider.capable { provider.responseID := ""; }
          SelectModel(model, reset);
        case SwitchProvider(next, capable) => SwitchProvider(next, capable);
        case SwitchConfigKey(key) =>
          runtime := runtime.(key := key);
          ClearResponseContinuationContext();
        case ClearForActiveContext => ClearProviderAndSavedResponseContext();
        case ClearContinuation => ClearResponseContinuationContext();
      }
    }

    /** An operation on checkpoints. */
    method ChangeCheckpoints(op: Op)
      requires op.Capture? || op.RestoreCheckpoint? || op.RebaseCheckpoint?
      modifies this, provider, session
      ensures provider == old(provider) && session == old(session)
      ensures View() == Step(old(View()), op)
    {
      hide CaptureSnapshot, CheckpointRestored;
      match op {
        case Capture => CaptureCheckpoint();
        case RestoreCheckpoint(at, truncated) =>
          if at < |checkpoints| { RestoreCheckpoint(checkpoints[at], truncated); }
        case RebaseCheckpoint(at) =>
          if at < |checkpoints| { checkpoints := checkpoints[at := checkpoints[at].(id := "")]; }
      }
    }

    /** An operation on the session at hand. */
    method ChangeSession(op: Op)
      requires op.SaveSession? || op.ChangeSession? || op.ResetConversation?
      modifies this, provider, session
      ensures provider == old(provider) && session == old(session)
      ensures View() == Step(old(View()), op)
    {
      hide Saved, Invalidated, ConversationReset;
      match op {
        case SaveSession => PersistSession();
        case ChangeSession =>
          InvalidateSavedResponseContext();
          PersistSession();
        case ResetConversation => ResetConversation();
      }
    }

    /** An operation that puts another session in place. */
    method ReplaceSession(op: Op)
      requires op.StartSession? || op.Resume?
      modifies this, provider, session
      ensures provider == old(provider) || fresh(provider)
      ensures session == old(session) || (session != null && fresh(session))
      ensures View() == Step(old(View()), op)
    {
      hide SessionStarted, Resumed;
      match op {
        case StartSession(name) => StartNewSession(name);
        case Resume(name, switches, next, capable) => ResumeSession(name, switches, next, capable);
      }
    }

    /** Any operation; a request tells the ID it was sent with. */
    method Perform(op: Op) returns (sent: string)
      modifies this, provider, session
      ensures provider == old(provider) || fresh(provider)
      ensures session == old(session) || (session != null && fresh(session))
      ensures View() == Step(old(View()), op)
      ensures sent == if op.Send? then SentID(old(View()), op.x) else ""
    {
      hide Sent, SentID, Compressed, Issued, ModelSelected, ProviderSwitched, ContinuationCleared, ProviderAndSavedCleared,
        CaptureSnapshot, CheckpointRestored, Saved, Invalidated, SessionStarted, Resumed, ConversationReset;
      sent := "";
      match op {
        case Send(x) => sent := Request(x);
        case Compress(id, success, persist) => CompressLocally(id, success, persist);
        case Review(id) => issued := Issued(View(), id, "", ForReview);
        case Configure(config) => this.config := config;
        case SelectModel(_, _, _) => ChangeRuntime(op);
        case SwitchProvider(_, _) => ChangeRuntime(op);
        case SwitchConfigKey(_) => ChangeRuntime(op);
        case ClearForActiveContext => ChangeRuntime(op);
        case ClearContinuation => ChangeRuntime(op);
        case Capture => ChangeCheckpoints(op);
        case RestoreCheckpoint(_, _) => ChangeCheckpoints(op);
        case RebaseCheckpoint(_) => ChangeCheckpoints(op);
        case SaveSession => ChangeSession(op);
        case ChangeSession => ChangeSession(op);
        case ResetConversation => ChangeSession(op);
        case StartSession(_) => ReplaceSession(op);
        case Resume(_, _, _, _) => ReplaceSession(op);
      }
    }

    /** Any legal run of the agent: every ID a request is really sent with was issued to a chat request on the
        runtime it is sent on, for the prompt it is sent with. */
    method RunAll(ops: seq<Op>) returns (sent: seq<string>)
      requires Sound(View()) && LegalRun(View(), ops)
      modifies this, provider, session
      ensures View() == After(old(View()), ops) && Sound(View())
      ensures |sent| == |ops|
      ensures forall i | 0 <= i < |ops| ::
                var s := After(old(View()), ops[..i]);
                if ops[i].Send? then sent[i] == SentID(s, ops[i].x) && SafeSend(s, ops[i].x) else sent[i] == ""
    {
      hide Sound, LegalRun, After, Step, SentID, SafeSend;
      ghost var s := View();
      sent := [];
      RunSnocs(s, ops);
      for i := 0 to |ops|
        invariant provider == old(provider) || fresh(provider)
        invariant session == old(session) || (session != null && fresh(session))
        invariant View() == After(s, ops[..i]) && |sent| == i
        invariant forall k | 0 <= k < i ::
                    sent[k] == if ops[k].Send? then SentID(After(s, ops[..k]), ops[k].x) else ""
      {
        var id := Perform(ops[i]);
        sent := sent + [id];
      }
      assert ops[..|ops|] == ops;
      RunKeeps(s, ops);
      forall i | 0 <= i < |ops| && ops[i].Send? ensures SafeSend(After(s, ops[..i]), ops[i].x) {
        SafeInRun(s, ops, i, ops[i].x);
      }
    }
  }

  lemma RunSnocs(s: State, ops: seq<Op>)
    ensures After(s, ops[..0]) == s
    ensures forall i | 0 <= i < |ops| :: After(s, ops[..i + 1]) == Step(After(s, ops[..i]), ops[i])
  {
    forall i | 0 <= i < |ops| ensures After(s, ops[..i + 1]) == Step(After(s, ops[..i]), ops[i]) {
      hide Step;
      RunStep(s, ops, i);
    }
  }

  lemma SyncedRest(s: State)
    ensures IdentitySynced(s) == s.(session := IdentitySynced(s).session)
    ensures SavedSynced(s) == s.(session := SavedSynced(s).session)
    ensures s.session.Some? ==> IdentitySynced(s).session.value.name == s.session.value.name
    ensures s.session.Some? ==> SavedSynced(s).session.value.name == s.session.value.name
  {
    hide CurrentSnapshot;
  }

  lemma RestoredRest(s: State, id: string)
    ensures ProviderIDRestored(s, id) == s.(context := ProviderIDRestored(s, id).context, live := ProviderIDRestored(s, id).live)
  {
  }

  lemma SavedRest(s: State)
    ensures Saved(s) == s.(session := Saved(s).session, stored := Saved(s).stored)
  {
    SavingIsSilent(s);
    hide Saved;
  }

  lemma NamesKept(x: Session, c: Snapshot)
    ensures Remembering(x, c).name == x.name && Forgotten(x).name == x.name
  {
  }
}
