/** The order of port calls: one lease at a time, leaves executed under the lease that covers them, no lease
    held across a backoff wait. */
module PortCalls {
  import opened Options
  import opened Claims
  import opened TaskModel
  import opened Parallel
  import opened SchedulerSteps

  /** Leases granted and not yet released. */
  function Held(calls: seq<PortCall>): int {
    if calls == [] then 0
    else
      var before := Held(calls[..|calls| - 1]);
      match calls[|calls| - 1]
      case LeaseGranted(_, _) => before + 1
      case LeaseReleased => before - 1
      case _ => before
  }

  /** One lease at a time, each released once, and none held across a backoff wait. */
  predicate Disciplined(calls: seq<PortCall>) {
    if calls == [] then true
    else
      var init := calls[..|calls| - 1];
      && Disciplined(init)
      && match calls[|calls| - 1]
         case LeaseGranted(_, _) => Held(init) == 0
         case LeaseReleased => Held(init) == 1
         case RetryWait(_) => Held(init) == 0
         case _ => true
  }

  lemma CallsAppend(calls: seq<PortCall>, c: PortCall)
    ensures Held(calls + [c]) == Held(calls) + (if c.LeaseGranted? then 1 else if c.LeaseReleased? then -1 else 0)
    ensures Disciplined(calls + [c]) <==>
            Disciplined(calls)
            && (c.LeaseGranted? || c.RetryWait? ==> Held(calls) == 0)
            && (c.LeaseReleased? ==> Held(calls) == 1)
  {
    assert (calls + [c])[..|calls|] == calls;
  }

  // ---- Executing under a lease -------------------------------------------------------------------

  /** The last grant, unless it was released. */
  function OpenLease(calls: seq<PortCall>): Option<PortCall> {
    if calls == [] then None
    else
      match calls[|calls| - 1]
      case LeaseGranted(nodes, claims) => Some(LeaseGranted(nodes, claims))
      case LeaseReleased => None
      case _ => OpenLease(calls[..|calls| - 1])
  }

  lemma {:induction false} OpenIsHeld(calls: seq<PortCall>)
    requires Disciplined(calls)
    ensures 0 <= Held(calls) <= 1
    ensures OpenLease(calls).Some? <==> Held(calls) == 1
  {
    if calls == [] {
    } else {
      OpenIsHeld(calls[..|calls| - 1]);
    }
  }

  lemma {:induction false} DisciplinedPrefix(calls: seq<PortCall>, i: nat)
    requires Disciplined(calls) && i <= |calls|
    ensures Disciplined(calls[..i])
    decreases |calls|
  {
    if i == |calls| {
      assert calls[..i] == calls;
    } else {
      assert calls[..|calls| - 1][..i] == calls[..i];
      DisciplinedPrefix(calls[..|calls| - 1], i);
    }
  }

  predicate NeedsLease(col: Collaborators, id: Id) {
    col.leaseManager && col.policy.ClaimsFor(id) != []
  }

  /** A grant for a batch with `id` in it, claiming whatever `id` claims at least as strongly. */
  predicate Secures(col: Collaborators, grant: Option<PortCall>, id: Id) {
    && grant.Some? && grant.value.LeaseGranted? && id in grant.value.nodes
    && forall c | c in col.policy.ClaimsFor(id) ::
         Claim(c.resource, Write) in grant.value.claims || c in grant.value.claims
  }

  /** If call `i` executes a leaf that claims resources, a lease that secures it is open. */
  ghost predicate UnderLease(col: Collaborators, calls: seq<PortCall>, i: nat)
    requires i < |calls|
  {
    calls[i].ExecuteCall? && NeedsLease(col, calls[i].node) ==> Secures(col, OpenLease(calls[..i]), calls[i].node)
  }

  /** A world in which the executor may have been asked for call `i`: the leaf is running, and since then only
      leaves of the same batch were executed. */
  ghost predicate AskedIn(u: World, calls: seq<PortCall>, i: nat)
    requires i < |calls| && calls[i].ExecuteCall?
  {
    && calls[i].node in u.graph.nodes && u.graph.nodes[calls[i].node].status.Running?
    && u.calls <= calls[..i] && forall k :: |u.calls| <= k < i ==> calls[k].ExecuteCall?
  }

  /** If call `i` executes a leaf, it carries what the executor answers for that leaf. */
  ghost predicate ByExecutor(col: Collaborators, calls: seq<PortCall>, i: nat)
    requires i < |calls|
  {
    calls[i].ExecuteCall? ==>
      exists t: nat, u: World :: AskedIn(u, calls, i) && calls[i].result == col.execute(t, u, calls[i].node)
  }

  /** Whatever call `i` executes runs under its lease and answers for itself. */
  ghost predicate Proper(col: Collaborators, calls: seq<PortCall>, i: nat)
    requires i < |calls|
  {
    UnderLease(col, calls, i) && ByExecutor(col, calls, i)
  }

  lemma ProperLater(col: Collaborators, b: seq<PortCall>, c: seq<PortCall>, i: nat)
    requires i < |b| && b <= c && Proper(col, b, i)
    ensures Proper(col, c, i)
  {
    hide OpenLease, Secures, NeedsLease;
    assert c[i] == b[i] && c[..i] == b[..i];
    if b[i].ExecuteCall? {
      var t: nat, u: World :| AskedIn(u, b, i) && b[i].result == col.execute(t, u, b[i].node);
      assert AskedIn(u, c, i);
    }
  }

  /** The new calls assess nothing, and execute leaves only properly. */
  ghost predicate Extends(col: Collaborators, a: seq<PortCall>, b: seq<PortCall>) {
    && |a| <= |b| && a == b[..|a|]
    && forall i {:trigger b[i]} :: |a| <= i < |b| ==> !b[i].AssessCall? && Proper(col, b, i)
  }

  lemma ExtendsChain(col: Collaborators, a: seq<PortCall>, b: seq<PortCall>, c: seq<PortCall>)
    requires Extends(col, a, b) && Extends(col, b, c)
    ensures Extends(col, a, c)
  {
    hide Proper;
    forall i | |a| <= i < |c| ensures !c[i].AssessCall? && Proper(col, c, i) {
      if i < |b| {
        assert c[i] == b[i];
        ProperLater(col, b, c, i);
      }
    }
    assert c[..|a|] == b[..|a|];
  }

  lemma ExtendsByOne(col: Collaborators, a: seq<PortCall>, c: PortCall)
    requires !c.AssessCall? && (c.ExecuteCall? ==> Proper(col, a + [c], |a|))
    ensures Extends(col, a, a + [c])
  {
    var b := a + [c];
    assert b[..|a|] == a;
    forall i | |a| <= i < |b| ensures !b[i].AssessCall? && Proper(col, b, i) {
      assert i == |a|;
    }
  }

  /** One execution more in the batch started in `w`. */
  lemma ExecutionIsProper(col: Collaborators, t: nat, w: World, a: seq<PortCall>, id: Id)
    requires id in w.graph.nodes && w.graph.nodes[id].status.Running?
    requires w.calls <= a && forall k :: |w.calls| <= k < |a| ==> a[k].ExecuteCall?
    requires NeedsLease(col, id) ==> Secures(col, OpenLease(a), id)
    ensures Proper(col, a + [ExecuteCall(id, col.execute(t, w, id))], |a|)
  {
    hide OpenLease, Secures, NeedsLease;
    var b := a + [ExecuteCall(id, col.execute(t, w, id))];
    assert b[..|a|] == a;
    assert AskedIn(w, b, |a|);
  }

  /** Only backoff waits were added. */
  ghost predicate OnlyWaits(a: seq<PortCall>, b: seq<PortCall>) {
    |a| <= |b| && a == b[..|a|] && forall i :: |a| <= i < |b| ==> b[i].RetryWait?
  }

  lemma WaitsExtend(col: Collaborators, a: seq<PortCall>, b: seq<PortCall>)
    requires OnlyWaits(a, b)
    ensures Extends(col, a, b)
  {
    forall i | |a| <= i < |b| ensures !b[i].AssessCall? && Proper(col, b, i) {
      assert b[i].RetryWait?;
    }
  }

  lemma {:induction false} WaitsKeepDiscipline(a: seq<PortCall>, b: seq<PortCall>)
    requires OnlyWaits(a, b) && Disciplined(a) && Held(a) == 0
    ensures Disciplined(b) && Held(b) == 0
    decreases |b|
  {
    if |a| == |b| {
      assert a == b;
    } else {
      var init := b[..|b| - 1];
      assert a == init[..|a|];
      WaitsKeepDiscipline(a, init);
    }
  }

  /** Every leaf of the list may be executed now. */
  ghost predicate Executable(col: Collaborators, calls: seq<PortCall>, ids: seq<Id>) {
    forall id :: id in ids && NeedsLease(col, id) ==> Secures(col, OpenLease(calls), id)
  }

  /** The results are the executor's, for leaves that are running. */
  ghost predicate Executed(col: Collaborators, t: nat, w: World, ids: seq<Id>, results: map<Id, LeafResult>) {
    forall id :: id in ids ==>
      && id in w.graph.nodes && w.graph.nodes[id].status.Running?
      && id in results && results[id] == col.execute(t, w, id)
  }

  /** The logged executions: one for each leaf, in order, with its result. */
  lemma {:induction false} ExecutionsListed(w: World, ids: seq<Id>, results: map<Id, LeafResult>)
    requires forall id :: id in ids ==> id in results
    ensures var calls := CallAll(w, ids, results).calls;
            && |calls| == |w.calls| + |ids| && w.calls <= calls
            && forall k :: |w.calls| <= k < |calls| ==>
                calls[k] == ExecuteCall(ids[k - |w.calls|], results[ids[k - |w.calls|]])
  {
    if ids == [] {
    } else {
      ExecutionsListed(w, ids[..|ids| - 1], results);
    }
  }

  lemma {:induction false} ExecutionsExtend(col: Collaborators, t: nat, w: World, ids: seq<Id>,
                                            results: map<Id, LeafResult>)
    requires Executable(col, w.calls, ids) && Executed(col, t, w, ids, results)
    ensures var calls := CallAll(w, ids, results).calls;
            && Extends(col, w.calls, calls) && OpenLease(calls) == OpenLease(w.calls)
            && (Disciplined(w.calls) ==> Disciplined(calls) && Held(calls) == Held(w.calls))
  {
    hide Secures, NeedsLease, Proper;
    if ids == [] {
    } else {
      var init, id := ids[..|ids| - 1], ids[|ids| - 1];
      ExecutionsExtend(col, t, w, init, results);
      ExecutionsListed(w, init, results);
      var before, c := CallAll(w, init, results).calls, ExecuteCall(id, results[id]);
      CallsAppend(before, c);
      ExecutionIsProper(col, t, w, before, id);
      ExtendsByOne(col, before, c);
      ExtendsChain(col, w.calls, before, before + [c]);
      assert (before + [c])[..|before|] == before;
    }
  }

  /** What is claimed for a batch secures every node of it. */
  lemma BatchClaimsSecure(col: Collaborators, ids: seq<Id>, id: Id)
    requires id in ids
    ensures Secures(col, Some(LeaseGranted(ids, Merge(ClaimsOf(col.policy, ids)))), id)
  {
    var all := ClaimsOf(col.policy, ids);
    var i :| 0 <= i < |ids| && ids[i] == id;
    ClaimsOfMember(col.policy, ids, i);
    MergeContents(all);
    forall c | c in col.policy.ClaimsFor(id) ensures Claim(c.resource, Write) in Merge(all) || c in Merge(all) {
      assert c in all && c.resource in Resources(all);
      var mode := MergedMode(all, c.resource);
      assert c == Claim(c.resource, c.mode);
      assert Claim(c.resource, mode) in Merge(all);
    }
  }

  /** A batch whose merged claims are empty needs no lease. */
  lemma NothingClaimed(col: Collaborators, ids: seq<Id>)
    requires !col.leaseManager || Merge(ClaimsOf(col.policy, ids)) == []
    ensures forall id :: id in ids ==> !NeedsLease(col, id)
  {
    forall id | id in ids ensures !NeedsLease(col, id) {
      BatchClaimsSecure(col, ids, id);
      var own := col.policy.ClaimsFor(id);
      assert own != [] ==> own[0] in own;
    }
  }

  // ---- A whole batch -----------------------------------------------------------------------------

  /** A batch leaves its ports as it found them: every lease released, every leaf executed under its lease,
      nothing assessed. */
  ghost predicate BatchCalls(col: Collaborators, a: seq<PortCall>, b: seq<PortCall>) {
    && Extends(col, a, b)
    && (Disciplined(a) && Held(a) == 0 ==> Disciplined(b) && Held(b) == 0)
  }

  lemma PlainCalls(col: Collaborators, a: seq<PortCall>, b: seq<PortCall>, c: seq<PortCall>)
    requires Extends(col, a, b) && (Disciplined(a) ==> Disciplined(b) && Held(b) == Held(a)) && OnlyWaits(b, c)
    ensures BatchCalls(col, a, c)
  {
    hide Extends;
    WaitsExtend(col, b, c);
    ExtendsChain(col, a, b, c);
    if Disciplined(a) && Held(a) == 0 {
      WaitsKeepDiscipline(b, c);
    }
  }

  /** Granted, executed, released, and only then waits. */
  lemma LeasedCalls(col: Collaborators, a: seq<PortCall>, grant: PortCall, b: seq<PortCall>, c: seq<PortCall>)
    requires grant.LeaseGranted? && Extends(col, a + [grant], b)
    requires Disciplined(a + [grant]) ==> Disciplined(b) && Held(b) == Held(a + [grant])
    requires OnlyWaits(b + [LeaseReleased], c)
    ensures BatchCalls(col, a, c)
  {
    hide Extends;
    CallsAppend(a, grant);
    CallsAppend(b, LeaseReleased);
    ExtendsByOne(col, a, grant);
    ExtendsByOne(col, b, LeaseReleased);
    ExtendsChain(col, a, a + [grant], b);
    ExtendsChain(col, a, b, b + [LeaseReleased]);
    WaitsExtend(col, b + [LeaseReleased], c);
    ExtendsChain(col, a, b + [LeaseReleased], c);
    if Disciplined(a) && Held(a) == 0 {
      WaitsKeepDiscipline(b + [LeaseReleased], c);
    }
  }
}
