/**
 The stored outputs a request must carry: which are required, what is injected of each within a token budget,
 and the ledger of those that could not be.
 */
module ActiveContext {
  import opened Text
  import opened Excerpt
  import opened Scanner

  /** A stored output: its ID, whether it may never be shown, and the rendered fields that head its entry. */
  datatype Ref = Ref(id: string, sensitive: bool, metadata: string)

  // ---------------------------------------------------------------- which refs are required

  predicate DistinctIDs(refs: seq<Ref>) {
    && (forall i | 0 <= i < |refs| :: refs[i].id != "")
    && (forall i, j | 0 <= i < j < |refs| :: refs[i].id != refs[j].id)
  }

  /** The first ref of every ID, in order; refs without an ID are dropped. */
  function Required(refs: seq<Ref>): (r: seq<Ref>)
    ensures forall x | x in r :: x in refs
  {
    if refs == [] then []
    else
      var n := |refs| - 1;
      var r := Required(refs[..n]);
      if refs[n].id == "" || HasID(r, refs[n].id) then r else r + [refs[n]]
  }

  predicate HasID(refs: seq<Ref>, id: string) { exists i | 0 <= i < |refs| :: refs[i].id == id }

  lemma {:induction false} RequiredIsFirsts(refs: seq<Ref>)
    ensures DistinctIDs(Required(refs))
    ensures forall id | id != "" :: HasID(Required(refs), id) <==> HasID(refs, id)
  {
    if refs != [] {
      var n := |refs| - 1;
      RequiredIsFirsts(refs[..n]);
      var r := Required(refs[..n]);
      assert refs == refs[..n] + [refs[n]];
      forall id | id != "" ensures HasID(Required(refs), id) <==> HasID(refs, id) {
        HasIDAppend(refs[..n], refs[n], id);
        HasIDAppend(r, refs[n], id);
      }
    }
  }

  lemma HasIDAppend(refs: seq<Ref>, ref: Ref, id: string)
    ensures HasID(refs + [ref], id) <==> HasID(refs, id) || ref.id == id
  {
    var all := refs + [ref];
    assert all[|refs|] == ref;
    if i :| 0 <= i < |refs| && refs[i].id == id { assert all[i].id == id; }
    if i :| 0 <= i < |all| && all[i].id == id { assert i < |refs| ==> refs[i].id == id; }
  }

  method AppendRequiredRefs(first: seq<Ref>, second: seq<Ref>) returns (refs: seq<Ref>)
    ensures refs == Required(first + second)
  {
    var all := first + second;
    refs := [];
    var seen: set<string> := {};
    for i := 0 to |all|
      invariant refs == Required(all[..i])
      invariant forall id :: id in seen <==> HasID(refs, id)
    {
      assert all[..i + 1][..i] == all[..i];
      var ref := all[i];
      if ref.id == "" || ref.id in seen { continue; }
      forall id ensures HasID(refs + [ref], id) <==> HasID(refs, id) || ref.id == id { HasIDAppend(refs, ref, id); }
      seen := seen + {ref.id};
      refs := refs + [ref];
    }
    assert all[..|all|] == all;
  }

  /** IDs of refs; the source leaves out empty ones. */
  function RefIDs(refs: seq<Ref>): seq<string> {
    if refs == [] then []
    else RefIDs(refs[..|refs| - 1]) + (if refs[|refs| - 1].id == "" then [] else [refs[|refs| - 1].id])
  }

  lemma {:induction false} RefIDsAll(refs: seq<Ref>)
    requires forall i | 0 <= i < |refs| :: refs[i].id != ""
    ensures |RefIDs(refs)| == |refs| && forall i | 0 <= i < |refs| :: RefIDs(refs)[i] == refs[i].id
  {
    if refs != [] { RefIDsAll(refs[..|refs| - 1]); }
  }

  // ---------------------------------------------------------------- one entry

  /** What of a body fits a budget without losing its match: all of it, a smaller excerpt of an excerpt, or an
      excerpt around the first line that holds a hint. */
  function Coverage(est: Estimator, text: string, budget: int, hints: seq<string>): (string, Reason) {
    var body := Trim(text);
    if body == "" || budget <= 0 then ("", RefsMissing)
    else if est(body) <= budget then (body, Complete)
    else if HasPrefix(body, HEADER_PREFIX) then OrInsufficient(Shrunk(est, body, hints, budget))
    else if BodyWindow(body, hints).None? then ("", CoverageInsufficient)
    else OrInsufficient(WidestExcerpt(est, BodyWindow(body, hints).value, budget))
  }

  function OrInsufficient(r: Option<string>): (string, Reason) {
    match r
    case Some(excerpt) => (excerpt, Complete)
    case None => ("", CoverageInsufficient)
  }

  method BodyCoverageExcerpt(est: Estimator, text: string, budget: int, hints: seq<string>)
    returns (excerpt: string, reason: Reason)
    ensures (excerpt, reason) == Coverage(est, text, budget, hints)
  {
    var body := Trim(text);
    if body == "" || budget <= 0 { return "", RefsMissing; }
    hide Trim, Shrunk, BodyWindow, WidestExcerpt;
    if HasPrefix(body, HEADER_PREFIX) {
      if est(body) <= budget { return body, Complete; }
      var shrunk := ShrinkMatchedExcerpt(est, body, hints, budget);
      if shrunk.Some? { return shrunk.value, Complete; }
      return "", CoverageInsufficient;
    }
    if est(body) <= budget { return body, Complete; }
    var matched := MatchedBodyExcerpt(est, body, hints, budget);
    if matched.Some? { return matched.value, Complete; }
    return "", CoverageInsufficient;
  }

  /** Whatever is excerpted fits the budget it was excerpted for. */
  lemma CoverageFits(est: Estimator, text: string, budget: int, hints: seq<string>)
    ensures var (excerpt, reason) := Coverage(est, text, budget, hints);
            && (reason == Complete ==> est(excerpt) <= budget)
            && (reason != Complete ==> excerpt == "")
  {
    hide Trim, Parse, LocatedWindow, BodyWindow, HalfBudgetExcerpt, Excerpts;
  }

  function IndentAll(lines: seq<string>): (r: seq<string>)
    ensures |r| == |lines| && forall i | 0 <= i < |lines| :: r[i] == "    " + lines[i]
  {
    seq(|lines|, i requires 0 <= i < |lines| => "    " + lines[i])
  }

  function Indented(body: string): string { JoinLines(IndentAll(SplitLines(Trim(body)))) }

  method IndentBody(body: string) returns (r: string)
    ensures r == Indented(body)
  {
    var lines := SplitLines(Trim(body));
    hide Trim, SplitLines;
    var out: seq<string> := [];
    for i := 0 to |lines|
      invariant |out| == i && forall j | 0 <= j < i :: out[j] == "    " + lines[j]
    {
      out := out + ["    " + lines[i]];
    }
    assert out == IndentAll(lines);
    r := JoinLines(out);
  }

  /** The entry with the body budget as given or, while the entry is too long, three quarters of it. */
  function Entry(est: Estimator, metadata: string, body: string, available: int, budget: int, hints: seq<string>): (string, Reason)
    decreases budget
  {
    if budget <= 0 then ("", RefsMissing)
    else
      var (excerpt, reason) := Coverage(est, body, budget, hints);
      if IsBlank(excerpt) then ("", reason)
      else
        var entry := metadata + Indented(excerpt);
        if est(entry) <= available then (entry, Complete)
        else if reason == CoverageInsufficient then ("", reason)
        else Entry(est, metadata, body, available, budget * 3 / 4, hints)
  }

  function Rendered(est: Estimator, metadata: string, body: string, available: int, hints: seq<string>): (string, Reason) {
    if available <= 0 then ("", RefsMissing)
    else Entry(est, metadata, body, available, available - est(metadata), hints)
  }

  method RenderContextEntry(est: Estimator, ref: Ref, body: string, available: int, hints: seq<string>)
    returns (entry: string, reason: Reason)
    ensures (entry, reason) == Rendered(est, ref.metadata, body, available, hints)
  {
    hide Coverage, Indented;
    if available <= 0 { return "", RefsMissing; }
    var bodyBudget := available - est(ref.metadata);
    while bodyBudget > 0
      invariant Entry(est, ref.metadata, body, available, bodyBudget, hints)
             == Rendered(est, ref.metadata, body, available, hints)
    {
      var excerpt, why := BodyCoverageExcerpt(est, body, bodyBudget, hints);
      TrimShape(excerpt);
      if Trim(excerpt) == "" { return "", why; }
      var indented := IndentBody(excerpt);
      entry := ref.metadata + indented;
      if est(entry) <= available { return entry, Complete; }
      if why == CoverageInsufficient { return "", why; }
      bodyBudget := bodyBudget * 3 / 4;
    }
    return "", RefsMissing;
  }

  /** The entry is the ref's fields and a coverage excerpt of the body for budget `b`, indented. */
  ghost predicate ShownAs(est: Estimator, metadata: string, body: string, b: int, hints: seq<string>, entry: string) {
    var (excerpt, reason) := Coverage(est, body, b, hints);
    reason == Complete && !IsBlank(excerpt) && est(excerpt) <= b && entry == metadata + Indented(excerpt)
  }

  lemma TryShows(est: Estimator, metadata: string, body: string, budget: int, hints: seq<string>)
    ensures var (excerpt, reason) := Coverage(est, body, budget, hints);
            && (IsBlank(excerpt) <==> reason != Complete)
            && (reason == Complete ==> ShownAs(est, metadata, body, budget, hints, metadata + Indented(excerpt)))
  {
    CoverageFits(est, body, budget, hints);
    CoverageNotBlank(est, body, budget, hints);
    hide Coverage, Indented;
  }

  /** An entry that is produced fits, and is its fields followed by a coverage excerpt of the body, indented;
      otherwise there is a reason. */
  lemma {:induction false} EntryFits(est: Estimator, metadata: string, body: string, available: int, budget: int, hints: seq<string>)
    ensures var (entry, reason) := Entry(est, metadata, body, available, budget, hints);
            && (reason == Complete ==>
                  && est(entry) <= available
                  && (exists b :: 0 < b <= budget && ShownAs(est, metadata, body, b, hints, entry)))
            && (reason != Complete ==> entry == "")
    decreases budget
  {
    if budget > 0 {
      TryShows(est, metadata, body, budget, hints);
      hide Coverage, Indented, ShownAs, IsBlank;
      EntryFits(est, metadata, body, available, budget * 3 / 4, hints);
    }
  }

  lemma WidestNotBlank(est: Estimator, w: Window, budget: int)
    ensures WidestExcerpt(est, w, budget).Some? ==> !IsBlank(WidestExcerpt(est, w, budget).value)
    ensures !IsBlank(HalfBudgetExcerpt(est, w, budget))
  {
    hide Printed, Shown, TrimMatchedLine, From, To;
    var half := TrimMatchedLine(est, w.lines[w.offset], w.term, budget / 2);
    PrintedShows(w, w.offset, w.offset + 1, [half]);
    TrimShape(Printed(w, w.offset, w.offset + 1, [half]));
    hide Trim;
    if WidestExcerpt(est, w, budget).Some? {
      var k: nat :| WidestExcerpt(est, w, budget).value == Excerpts(est, w, budget)(k);
      PrintedShows(w, From(w, k), To(w, k), Shown(est, w, budget, k));
      TrimShape(ExcerptAt(est, w, budget, k));
    }
  }

  lemma ShrunkNotBlank(est: Estimator, body: string, hints: seq<string>, budget: int)
    ensures Shrunk(est, body, hints, budget).Some? ==> !IsBlank(Shrunk(est, body, hints, budget).value)
  {
    hide Parse, LocatedWindow, WidestExcerpt, HalfBudgetExcerpt, IsBlank;
    if Parse(body).Some? && LocatedWindow(Parse(body).value, hints).Some? {
      WidestNotBlank(est, LocatedWindow(Parse(body).value, hints).value, budget);
    }
  }

  lemma TrimmedNotBlank(text: string)
    ensures Trim(text) != "" ==> !IsBlank(Trim(text))
  {
    TrimIdempotent(text);
    TrimShape(Trim(text));
  }

  /** An excerpt that was found is not blank. */
  lemma CoverageNotBlank(est: Estimator, text: string, budget: int, hints: seq<string>)
    ensures Coverage(est, text, budget, hints).1 == Complete ==> !IsBlank(Coverage(est, text, budget, hints).0)
  {
    var body := Trim(text);
    TrimmedNotBlank(text);
    hide Trim, Shrunk, BodyWindow, WidestExcerpt, IsBlank, HasPrefix;
    ShrunkNotBlank(est, body, hints, budget);
    if BodyWindow(body, hints).Some? { WidestNotBlank(est, BodyWindow(body, hints).value, budget); }
  }

  // ---------------------------------------------------------------- what becomes of each required ref

  const CONTEXT_HEADER := "Provider History Raw Output Context"

  datatype Fate = Injected(entry: string) | Missing | Insufficient

  /** Chunks of a stored output by ref ID; none when it cannot be read. */
  type Store = string -> Option<seq<string>>

  function FateOf(est: Estimator, ref: Ref, scanned: Outcome, available: int, hints: seq<string>): Fate {
    if scanned.body == "" then
      if scanned.reason == CoverageInsufficient then Insufficient else Missing
    else
      var (entry, reason) := Rendered(est, ref.metadata, scanned.body, available, hints);
      if entry == "" || est(entry) == 0 || est(entry) > available then
        if reason == CoverageInsufficient then Insufficient else Missing
      else Injected(entry)
  }

  /** A scan reports what its bytes determine or, for hints no scanner can be trusted to find, at least renders
      what it holds. */
  ghost predicate ScanOf(est: Estimator, hints: seq<string>, available: int, data: string, scanned: Outcome) {
    && Renders(est, available, data, scanned)
    && (UsableHints(hints) ==> Reports(est, hints, available, data, scanned))
  }

  /** What must become of a ref when `available` tokens are left. */
  ghost predicate FateRight(est: Estimator, store: Store, hints: seq<string>, ref: Ref, available: int, fate: Fate) {
    if ref.sensitive || store(ref.id).None? then fate == Missing
    else
      exists scanned :: ScanOf(est, hints, available, Concat(store(ref.id).value), scanned)
                        && fate == FateOf(est, ref, scanned, available, hints)
  }

  function Entries(fates: seq<Fate>): seq<string> {
    if fates == [] then []
    else
      Entries(fates[..|fates| - 1]) + (if fates[|fates| - 1].Injected? then [fates[|fates| - 1].entry] else [])
  }

  function IDsWith(refs: seq<Ref>, fates: seq<Fate>, fate: Fate): seq<string>
    requires |fates| == |refs|
  {
    if fates == [] then []
    else
      var n := |fates| - 1;
      IDsWith(refs[..n], fates[..n], fate) + (if fates[n] == fate then [refs[n].id] else [])
  }

  /** Tokens counted for the header and the entries. */
  function Spent(est: Estimator, entries: seq<string>): nat {
    if entries == [] then est(CONTEXT_HEADER)
    else Spent(est, entries[..|entries| - 1]) + est(entries[|entries| - 1])
  }

  function Content(entries: seq<string>): string {
    if entries == [] then CONTEXT_HEADER
    else Content(entries[..|entries| - 1]) + "\n" + entries[|entries| - 1]
  }

  /** Every ref in turn, with the tokens the earlier ones left. */
  ghost predicate AllRight(est: Estimator, store: Store, hints: seq<string>, budget: int, refs: seq<Ref>, fates: seq<Fate>) {
    fates != [] ==>
      var n := |fates| - 1;
      && n < |refs| && AllRight(est, store, hints, budget, refs, fates[..n])
      && FateRight(est, store, hints, refs[n], budget - Spent(est, Entries(fates[..n])), fates[n])
  }

  /** What the caller gets. */
  datatype Build = Build(content: Option<string>, required: nat, injected: nat, missing: seq<string>, insufficient: seq<string>)

  ghost predicate LedgerOf(b: Build, refs: seq<Ref>, missing: seq<string>, fates: seq<Fate>) {
    && |fates| == |refs|
    && b.required == |refs| + |missing|
    && b.injected == |Entries(fates)|
    && b.missing == missing + IDsWith(refs, fates, Missing)
    && b.insufficient == IDsWith(refs, fates, Insufficient)
    && b.content == if Entries(fates) == [] then None else Some(Content(Entries(fates)))
  }

  predicate MissingRequiredRefs(b: Build) { b.required > b.injected || |b.missing| > 0 || |b.insufficient| > 0 }

  method Consider(est: Estimator, store: Store, hints: seq<string>, ref: Ref, available: int) returns (fate: Fate)
    ensures FateRight(est, store, hints, ref, available, fate)
  {
    hide Rendered, Renders, Reports, UsableHints;
    if ref.sensitive || store(ref.id).None? { return Missing; }
    var scanned := ScanAll(est, hints, available, store(ref.id).value);
    assert ScanOf(est, hints, available, Concat(store(ref.id).value), scanned);
    if scanned.body == "" {
      return if scanned.reason == CoverageInsufficient then Insufficient else Missing;
    }
    var entry, reason := RenderContextEntry(est, ref, scanned.body, available, hints);
    var tokens := est(entry);
    if entry == "" || tokens <= 0 || tokens > available {
      return if reason == CoverageInsufficient then Insufficient else Missing;
    }
    return Injected(entry);
  }

  method BuildActiveContext(est: Estimator, applied: seq<Ref>, wanted: seq<Ref>, missing: seq<string>, enabled: bool,
                            hasStore: bool, store: Store, budget: int, hints: seq<string>)
    returns (b: Build, ghost fates: seq<Fate>)
    ensures LedgerOf(b, Required(applied + wanted), missing, fates)
    ensures if enabled && hasStore then AllRight(est, store, hints, budget, Required(applied + wanted), fates)
            else forall i | 0 <= i < |fates| :: fates[i] == Missing
    ensures b.injected > 0 ==> Spent(est, Entries(fates)) <= budget
    ensures b.required == |Required(applied + wanted)| + |missing| == b.injected + |b.missing| + |b.insufficient|
    ensures missing <= b.missing && (b.content.Some? <==> b.injected > 0)
  {
    hide FateRight, Required;
    var refs := AppendRequiredRefs(applied, wanted);
    RequiredIsFirsts(applied + wanted);
    b := Build(None, |refs| + |missing|, 0, missing, []);
    if |refs| == 0 {
      fates := [];
      return;
    }
    if !enabled || !hasStore {
      fates := seq(|refs|, _ => Missing);
      AllMissing(refs, fates);
      EachOnce(refs, fates);
      return b.(missing := missing + RefIDs(refs)), fates;
    }
    b, fates := InjectRefs(est, refs, missing, store, budget, hints);
    EachOnce(refs, fates);
  }

  method InjectRefs(est: Estimator, refs: seq<Ref>, missing: seq<string>, store: Store, budget: int, hints: seq<string>)
    returns (b: Build, ghost fates: seq<Fate>)
    ensures LedgerOf(b, refs, missing, fates) && AllRight(est, store, hints, budget, refs, fates)
    ensures b.injected > 0 ==> Spent(est, Entries(fates)) <= budget
  {
    Nothing(est, store, hints, budget, refs);
    hide FateRight, AllRight, Entries, Spent, Content, IDsWith;
    b := Build(None, |refs| + |missing|, 0, missing, []);
    var content, usedTokens, injected := CONTEXT_HEADER, est(CONTEXT_HEADER), 0;
    fates := [];
    for i := 0 to |refs|
      invariant |fates| == i && AllRight(est, store, hints, budget, refs, fates)
      invariant b.required == |refs| + |missing| && b.injected == 0 && b.content == None
      invariant injected == |Entries(fates)| && content == Content(Entries(fates))
      invariant usedTokens == Spent(est, Entries(fates)) && (injected > 0 ==> usedTokens <= budget)
      invariant b.missing == missing + IDsWith(refs[..i], fates, Missing)
      invariant b.insufficient == IDsWith(refs[..i], fates, Insufficient)
    {
      var fate := Consider(est, store, hints, refs[i], budget - usedTokens);
      FateWithin(est, store, hints, refs[i], budget - usedTokens, fate);
      RightExtends(est, store, hints, budget, refs, fates, fate);
      IDsExtend(refs, fates, fate, Missing);
      IDsExtend(refs, fates, fate, Insufficient);
      EntriesExtend(est, fates, fate);
      fates := fates + [fate];
      match fate {
        case Injected(entry) =>
          content := content + "\n" + entry;
          usedTokens := usedTokens + est(entry);
          injected := injected + 1;
        case Missing => b := b.(missing := b.missing + [refs[i].id]);
        case Insufficient => b := b.(insufficient := b.insufficient + [refs[i].id]);
      }
    }
    assert refs[..|refs|] == refs;
    b := b.(injected := injected);
    if injected == 0 { return; }
    b := b.(content := Some(content));
  }

  lemma Nothing(est: Estimator, store: Store, hints: seq<string>, budget: int, refs: seq<Ref>)
    ensures AllRight(est, store, hints, budget, refs, []) && Entries([]) == []
    ensures Content([]) == CONTEXT_HEADER && Spent(est, []) == est(CONTEXT_HEADER)
    ensures IDsWith(refs[..0], [], Missing) == [] && IDsWith(refs[..0], [], Insufficient) == []
  {
  }

  lemma FateWithin(est: Estimator, store: Store, hints: seq<string>, ref: Ref, available: int, fate: Fate)
    requires FateRight(est, store, hints, ref, available, fate)
    ensures fate.Injected? ==> 0 < est(fate.entry) <= available
  {
    hide ScanOf, Rendered;
  }

  lemma {:induction false} RightExtends(est: Estimator, store: Store, hints: seq<string>, budget: int,
                                        refs: seq<Ref>, fates: seq<Fate>, fate: Fate)
    requires AllRight(est, store, hints, budget, refs, fates) && |fates| < |refs|
    requires FateRight(est, store, hints, refs[|fates|], budget - Spent(est, Entries(fates)), fate)
    ensures AllRight(est, store, hints, budget, refs, fates + [fate])
  {
    hide FateRight, Spent, Entries;
    assert (fates + [fate])[..|fates|] == fates;
  }

  lemma IDsExtend(refs: seq<Ref>, fates: seq<Fate>, fate: Fate, which: Fate)
    requires |fates| < |refs|
    ensures IDsWith(refs[..|fates| + 1], fates + [fate], which)
         == IDsWith(refs[..|fates|], fates, which) + (if fate == which then [refs[|fates|].id] else [])
  {
    assert (fates + [fate])[..|fates|] == fates;
    assert refs[..|fates| + 1][..|fates|] == refs[..|fates|];
  }

  lemma EntriesExtend(est: Estimator, fates: seq<Fate>, fate: Fate)
    ensures var e, f := Entries(fates + [fate]), Entries(fates);
            if fate.Injected? then
              && |e| == |f| + 1 && Spent(est, e) == Spent(est, f) + est(fate.entry)
              && Content(e) == Content(f) + "\n" + fate.entry
            else e == f
  {
    assert (fates + [fate])[..|fates|] == fates;
    if fate.Injected? { assert (Entries(fates) + [fate.entry])[..|Entries(fates)|] == Entries(fates); }
  }

  lemma {:induction false} AllMissing(refs: seq<Ref>, fates: seq<Fate>)
    requires |fates| == |refs| && (forall i | 0 <= i < |refs| :: refs[i].id != "" && fates[i] == Missing)
    ensures IDsWith(refs, fates, Missing) == RefIDs(refs)
    ensures IDsWith(refs, fates, Insufficient) == [] && Entries(fates) == []
  {
    if refs != [] { AllMissing(refs[..|refs| - 1], fates[..|fates| - 1]); }
  }

  // ---------------------------------------------------------------- the ledger

  lemma {:induction false} EachOnce(refs: seq<Ref>, fates: seq<Fate>)
    requires |fates| == |refs|
    ensures |Entries(fates)| + |IDsWith(refs, fates, Missing)| + |IDsWith(refs, fates, Insufficient)| == |refs|
  {
    if refs != [] { EachOnce(refs[..|refs| - 1], fates[..|fates| - 1]); }
  }

  /** Required is injected plus missing plus insufficient, so the caller's three tests are one: something is
      required that was not injected, exactly when something is on a list. */
  lemma LedgerBalances(b: Build, refs: seq<Ref>, missing: seq<string>, fates: seq<Fate>)
    requires LedgerOf(b, refs, missing, fates)
    ensures b.required == b.injected + |b.missing| + |b.insufficient|
    ensures MissingRequiredRefs(b) <==> b.required > b.injected
    ensures MissingRequiredRefs(b) <==> |b.missing| > 0 || |b.insufficient| > 0
    ensures !MissingRequiredRefs(b) <==> missing == [] && forall i | 0 <= i < |fates| :: fates[i].Injected?
  {
    EachOnce(refs, fates);
    AllInjected(fates);
  }

  lemma {:induction false} AllInjected(fates: seq<Fate>)
    ensures |Entries(fates)| <= |fates|
    ensures |Entries(fates)| == |fates| <==> forall i | 0 <= i < |fates| :: fates[i].Injected?
  {
    if fates != [] { AllInjected(fates[..|fates| - 1]); }
  }

  /** What becomes of any ref is settled by its own scan and by the entries injected before it. */
  lemma {:induction false} EachFateRight(est: Estimator, store: Store, hints: seq<string>, budget: int,
                                         refs: seq<Ref>, fates: seq<Fate>, i: nat)
    requires AllRight(est, store, hints, budget, refs, fates) && i < |fates|
    ensures i < |refs| && FateRight(est, store, hints, refs[i], budget - Spent(est, Entries(fates[..i])), fates[i])
  {
    hide FateRight, Spent, Entries;
    var n := |fates| - 1;
    if i < n {
      EachFateRight(est, store, hints, budget, refs, fates[..n], i);
      assert fates[..n][..i] == fates[..i];
    }
  }

  lemma RenderedShows(est: Estimator, metadata: string, body: string, available: int, hints: seq<string>) returns (b: int)
    requires Rendered(est, metadata, body, available, hints).0 != ""
    ensures 0 < b <= available && ShownAs(est, metadata, body, b, hints, Rendered(est, metadata, body, available, hints).0)
  {
    EntryFits(est, metadata, body, available, available - est(metadata), hints);
    hide Entry, ShownAs;
    b :| 0 < b <= available - est(metadata)
         && ShownAs(est, metadata, body, b, hints, Rendered(est, metadata, body, available, hints).0);
  }

  /** A ref that is injected may be shown, was read, and its entry is its fields with a coverage excerpt of what
      was scanned, within what was left of the budget. */
  lemma InjectedShowsItsBody(est: Estimator, store: Store, hints: seq<string>, ref: Ref, available: int, entry: string)
    returns (scanned: Outcome, b: int)
    requires FateRight(est, store, hints, ref, available, Injected(entry))
    ensures !ref.sensitive && store(ref.id).Some? && est(entry) <= available
    ensures Renders(est, available, Concat(store(ref.id).value), scanned)
    ensures UsableHints(hints) ==> Reports(est, hints, available, Concat(store(ref.id).value), scanned)
    ensures 0 < b <= available && ShownAs(est, ref.metadata, scanned.body, b, hints, entry)
  {
    hide Renders, Reports, UsableHints, Rendered, ShownAs;
    scanned :| ScanOf(est, hints, available, Concat(store(ref.id).value), scanned)
               && Injected(entry) == FateOf(est, ref, scanned, available, hints);
    b := RenderedShows(est, ref.metadata, scanned.body, available, hints);
  }
}
