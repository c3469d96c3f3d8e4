/**
 The queue of runtime directives and the requests that deliver them.
 */
module Directives {
  import opened Text

  predicate Clean(d: string) { d != "" && Trim(d) == d }

  predicate AllClean(q: seq<string>) { forall i | 0 <= i < |q| :: Clean(q[i]) }

  /** Index of the first pending directive that is `directive` up to blanks; the length when there is none. */
  function FirstMatch(pending: seq<string>, directive: string): (i: nat)
    ensures i <= |pending|
    ensures i < |pending| ==> Trim(pending[i]) == directive
    ensures forall j | 0 <= j < i :: Trim(pending[j]) != directive
  {
    if pending == [] || Trim(pending[0]) == directive then 0 else FirstMatch(pending[1..], directive) + 1
  }

  function Without(pending: seq<string>, directive: string): seq<string> {
    var d := Trim(directive);
    var i := FirstMatch(pending, d);
    if d == "" || i == |pending| then pending else pending[..i] + pending[i + 1..]
  }

  /** What is left once `delivered` are taken off, each at most once. */
  function Marked(pending: seq<string>, delivered: seq<string>): seq<string>
    decreases |delivered|
  {
    if delivered == [] then pending else Marked(Without(pending, delivered[0]), delivered[1..])
  }

  class Agent {
    var runtimeDirectives: seq<string>

    constructor ()
      ensures runtimeDirectives == []
    {
      runtimeDirectives := [];
    }

    method Queue(directive: string)
      modifies this
      ensures runtimeDirectives == Queued(old(runtimeDirectives), directive)
    {
      var trimmed := Trim(directive);
      if trimmed == "" { return; }
      runtimeDirectives := runtimeDirectives + [trimmed];
    }

    method Pending() returns (snapshot: seq<string>)
      ensures snapshot == runtimeDirectives
    {
      snapshot := runtimeDirectives;
    }

    method MarkDelivered(delivered: seq<string>)
      modifies this
      ensures runtimeDirectives == Marked(old(runtimeDirectives), delivered)
    {
      hide Without;
      if |delivered| == 0 || |runtimeDirectives| == 0 {
        NothingPending(delivered);
        assert delivered == [] || runtimeDirectives == [];
        return;
      }
      var remaining := runtimeDirectives;
      assert delivered[0..] == delivered;
      for k := 0 to |delivered|
        invariant Marked(remaining, delivered[k..]) == Marked(old(runtimeDirectives), delivered)
      {
        assert delivered[k..][1..] == delivered[k + 1..];
        remaining := TakeOff(remaining, delivered[k]);
      }
      assert delivered[|delivered|..] == [];
      runtimeDirectives := remaining;
    }

    static method TakeOff(pending: seq<string>, delivered: string) returns (remaining: seq<string>)
      ensures remaining == Without(pending, delivered)
    {
      hide Trim, FirstMatch;
      var directive := Trim(delivered);
      if directive == "" { return pending; }
      for i := 0 to |pending|
        invariant forall j | 0 <= j < i :: Trim(pending[j]) != directive
      {
        if Trim(pending[i]) != directive { continue; }
        FirstMatchIs(pending, directive, i);
        return pending[..i] + pending[i + 1..];
      }
      FirstMatchIs(pending, directive, |pending|);
      return pending;
    }

    /** One request: the directives pending now go with it and are taken off when it succeeds. `during` are
        queued while it is under way; a sub-agent's request carries none. */
    method Request(subAgent: bool, during: seq<string>, ok: bool) returns (sent: seq<string>)
      modifies this
      ensures sent == if subAgent then [] else old(runtimeDirectives)
      ensures runtimeDirectives == Requested(old(runtimeDirectives), subAgent, during, ok)
    {
      sent := [];
      if !subAgent { sent := Pending(); }
      for k := 0 to |during|
        invariant runtimeDirectives == QueuedAll(old(runtimeDirectives), during[..k])
      {
        assert during[..k + 1][..k] == during[..k];
        Queue(during[k]);
      }
      assert during[..|during|] == during;
      if ok { MarkDelivered(sent); }
    }
  }

  function Queued(pending: seq<string>, directive: string): seq<string> {
    if Trim(directive) == "" then pending else pending + [Trim(directive)]
  }

  function QueuedAll(pending: seq<string>, directives: seq<string>): seq<string> {
    if directives == [] then pending
    else Queued(QueuedAll(pending, directives[..|directives| - 1]), directives[|directives| - 1])
  }

  function Requested(pending: seq<string>, subAgent: bool, during: seq<string>, ok: bool): seq<string> {
    var sent := if subAgent then [] else pending;
    var now := QueuedAll(pending, during);
    if ok then Marked(now, sent) else now
  }

  lemma FirstMatchIs(pending: seq<string>, directive: string, i: nat)
    requires i <= |pending| && forall j | 0 <= j < i :: Trim(pending[j]) != directive
    requires i < |pending| ==> Trim(pending[i]) == directive
    ensures FirstMatch(pending, directive) == i
  {
    hide Trim, FirstMatch;
  }

  lemma {:induction false} NothingPending(delivered: seq<string>)
    ensures Marked([], delivered) == []
    decreases |delivered|
  {
    if delivered != [] { NothingPending(delivered[1..]); }
  }

  // ---------------------------------------------------------------- what marking removes

  lemma RemovedAt<T>(s: seq<T>, i: nat)
    requires i < |s|
    ensures multiset(s[..i] + s[i + 1..]) == multiset(s) - multiset{s[i]}
  {
    assert s == s[..i] + [s[i]] + s[i + 1..];
  }

  lemma WithoutOne(pending: seq<string>, d: string)
    requires AllClean(pending) && Clean(d)
    ensures AllClean(Without(pending, d))
    ensures multiset(Without(pending, d)) == multiset(pending) - multiset{d}
  {
    hide Trim, FirstMatch;
    var i := FirstMatch(pending, d);
    assert forall j | 0 <= j < |pending| :: Trim(pending[j]) == pending[j];
    if i < |pending| {
      assert Without(pending, d) == pending[..i] + pending[i + 1..];
      assert AllClean(Without(pending, d));
      hide Without, Clean;
      RemovedAt(pending, i);
    } else {
      assert d !in pending;
    }
  }

  /** Each delivered directive removes exactly one pending directive that is equal to it, if there is one. */
  lemma {:induction false} MarkRemovesOnce(pending: seq<string>, delivered: seq<string>)
    requires AllClean(pending) && AllClean(delivered)
    ensures AllClean(Marked(pending, delivered))
    ensures multiset(Marked(pending, delivered)) == multiset(pending) - multiset(delivered)
    decreases |delivered|
  {
    hide Without, Clean;
    if delivered != [] {
      FirstAndRest(delivered);
      WithoutOne(pending, delivered[0]);
      MarkRemovesOnce(Without(pending, delivered[0]), delivered[1..]);
    }
  }

  lemma FirstAndRest(q: seq<string>)
    requires AllClean(q) && q != []
    ensures Clean(q[0]) && AllClean(q[1..]) && multiset(q) == multiset{q[0]} + multiset(q[1..])
  {
    hide Clean;
    assert q == [q[0]] + q[1..];
  }

  lemma FirstIsOff(first: string, rest: seq<string>)
    requires Clean(first)
    ensures Without([first] + rest, first) == rest
  {
    hide Trim;
    FirstMatchIs([first] + rest, first, 0);
    hide FirstMatch;
  }

  /** Delivering a snapshot leaves exactly what was queued after it, in order. */
  lemma {:induction false} SnapshotRemoved(snapshot: seq<string>, later: seq<string>)
    requires AllClean(snapshot)
    ensures Marked(snapshot + later, snapshot) == later
    decreases |snapshot|
  {
    hide Without;
    if snapshot == [] {
      assert snapshot + later == later;
    } else {
      assert Clean(snapshot[0]);
      hide Clean;
      assert snapshot + later == [snapshot[0]] + (snapshot[1..] + later);
      FirstIsOff(snapshot[0], snapshot[1..] + later);
      SnapshotRemoved(snapshot[1..], later);
    }
  }

  // ---------------------------------------------------------------- over whole runs

  datatype Op = Enqueue(directive: string) | Send(subAgent: bool, during: seq<string>, ok: bool)

  function Step(pending: seq<string>, op: Op): seq<string> {
    match op
    case Enqueue(d) => Queued(pending, d)
    case Send(subAgent, during, ok) => Requested(pending, subAgent, during, ok)
  }

  function PendingAfter(ops: seq<Op>): seq<string> {
    if ops == [] then [] else Step(PendingAfter(ops[..|ops| - 1]), ops[|ops| - 1])
  }

  /** Everything ever queued, in order. */
  function QueuedBy(ops: seq<Op>): seq<string> {
    if ops == [] then []
    else
      var before := QueuedBy(ops[..|ops| - 1]);
      match ops[|ops| - 1]
      case Enqueue(d) => Queued(before, d)
      case Send(_, during, _) => QueuedAll(before, during)
  }

  /** How many had been queued when the last request that delivered and succeeded took its snapshot. */
  function DeliveredBy(ops: seq<Op>): nat {
    if ops == [] then 0
    else
      var op := ops[|ops| - 1];
      if op.Send? && op.ok && !op.subAgent then |QueuedBy(ops[..|ops| - 1])| else DeliveredBy(ops[..|ops| - 1])
  }

  lemma {:induction false} QueuedAppends(pending: seq<string>, directives: seq<string>) returns (added: seq<string>)
    ensures AllClean(added) && forall p :: QueuedAll(p, directives) == p + added
  {
    if directives == [] {
      added := [];
    } else {
      var n := |directives| - 1;
      added := QueuedAppends(pending, directives[..n]);
      var d := Trim(directives[n]);
      TrimIdempotent(directives[n]);
      if d != "" {
        assert forall p: seq<string> :: p + (added + [d]) == p + added + [d];
        added := added + [d];
      }
    }
  }

  /** In every run, what is pending is everything queued since the snapshot of the last successful delivery: so a
      directive goes with every request up to and including the first that succeeds, and with none after it, and
      equal directives count separately. */
  lemma {:induction false} PendingIsUndelivered(ops: seq<Op>)
    ensures DeliveredBy(ops) <= |QueuedBy(ops)|
    ensures AllClean(QueuedBy(ops))
    ensures PendingAfter(ops) == QueuedBy(ops)[DeliveredBy(ops)..]
  {
    if ops != [] {
      var n := |ops| - 1;
      PendingIsUndelivered(ops[..n]);
      var log, k := QueuedBy(ops[..n]), DeliveredBy(ops[..n]);
      match ops[n] {
        case Enqueue(d) =>
          TrimIdempotent(d);
        case Send(subAgent, during, ok) =>
          var added := QueuedAppends([], during);
          assert QueuedBy(ops) == log + added;
          SendLeaves(log, k, added, subAgent, during, ok);
      }
    }
  }

  lemma SendLeaves(log: seq<string>, k: nat, added: seq<string>, subAgent: bool, during: seq<string>, ok: bool)
    requires k <= |log| && AllClean(log) && AllClean(added) && forall p :: QueuedAll(p, during) == p + added
    ensures Requested(log[k..], subAgent, during, ok)
         == (log + added)[if ok && !subAgent then |log| else k..]
  {
    var pending := log[k..];
    assert QueuedAll(pending, during) == pending + added;
    if ok && !subAgent {
      SnapshotRemoved(pending, added);
    }
  }
}
