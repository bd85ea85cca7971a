/** Whose answers become the results of leaves: within one batch, and over whole runs. */
module LeafAnswers {
  import opened Options
  import opened Order
  import opened Strings
  import opened Claims
  import opened TaskModel
  import opened DecompositionGraph
  import opened GraphInvariant
  import opened Propagation
  import opened Parallel
  import opened Retry
  import opened SchedulerSteps
  import opened PortCalls
  import opened SchedulerSafety
  import opened Scheduler
  import opened SchedulerCalls
  import opened SchedulerTheorems

  // ---- Which leaves are started ------------------------------------------------------------------

  /** Leaves are started in order for as long as the execution budget lasts. */
  lemma {:induction false} StartsWhileBudgetLasts(w: World, ids: seq<Id>)
    requires forall id :: id in ids ==> id in w.graph.nodes
    ensures var r := StartAll(w, ids);
            var k := Min(|ids|, Max(0, w.graph.budget.maxLeafExecutions - w.graph.leafExecutions));
            r.1 == ids[..k] && r.0.graph.leafExecutions == w.graph.leafExecutions + k
            && r.0.graph.budget == w.graph.budget
  {
    hide StartLeaf;
    if ids == [] {
    } else {
      var init, id := ids[..|ids| - 1], ids[|ids| - 1];
      StartsWhileBudgetLasts(w, init);
      var before := StartAll(w, init);
      var k := |before.1|;
      OneMoreStart(before.0, id);
      assert ids[..k] == init[..k] && ids == init + [id] && ids[..|ids|] == ids;
    }
  }

  lemma OneMoreStart(w: World, id: Id)
    requires id in w.graph.nodes
    ensures var r := StartLeaf(w, id);
            && (r.1 <==> w.graph.leafExecutions < w.graph.budget.maxLeafExecutions)
            && r.0.graph.leafExecutions == w.graph.leafExecutions + (if r.1 then 1 else 0)
            && r.0.graph.budget == w.graph.budget
  {
  }

  // ---- What becomes of the results ---------------------------------------------------------------

  /** The node carries the result, and it is completed exactly when the result is a success. */
  ghost predicate Reports(m: Node, r: LeafResult) {
    m.result == Some(r) && (m.status.Completed? <==> r.status.Succeeded?)
  }

  lemma ResultIsReported(col: Collaborators, t: nat, u: World, id: Id, r: LeafResult)
    requires WorldOk(u) && Workable(u.graph, id) && RetryPolicyOk(col.retryPolicy)
    ensures var v := ApplyLeafResult(col, t, u, id, r, true);
            && id in v.graph.nodes && Reports(v.graph.nodes[id], r)
            && v.graph.nodes.Keys == u.graph.nodes.Keys
            && forall x :: x in u.graph.nodes && x != id ==> v.graph.nodes[x] == u.graph.nodes[x]
  {
    hide ApplyLeafResult, WorldOk, Follows, SameShape, RetryGoesAhead;
    LeafDecides(col, t, u, id, r, true);
    LeafResultResolves(col, t, u, id, r, true);
    ResolvedMoves(col, u, ApplyLeafResult(col, t, u, id, r, true), id);
    MovesFrame(col, u, ApplyLeafResult(col, t, u, id, r, true), [id]);
  }

  lemma {:induction false} ResultsAreReported(col: Collaborators, t: nat, w: World, ids: seq<Id>,
                                              results: map<Id, LeafResult>)
    requires WorldOk(w) && Distinct(ids) && RetryPolicyOk(col.retryPolicy)
    requires forall id :: id in ids ==> id in results && id in w.graph.nodes && Workable(w.graph, id)
    ensures var v := ApplyAll(col, t, w, ids, results);
            forall id :: id in ids ==> id in v.graph.nodes && Reports(v.graph.nodes[id], results[id])
  {
    hide ApplyLeafResult, WorldOk, Moves, Reports;
    if ids == [] {
    } else {
      DistinctInit(ids);
      var init, id := ids[..|ids| - 1], ids[|ids| - 1];
      ResultsAreReported(col, t, w, init, results);
      ApplyAllEffect(col, t, w, init, results);
      var u := ApplyAll(col, t, w, init, results);
      MovesSound(col, w, u, init);
      MovesFrame(col, w, u, init);
      ResultIsReported(col, t, u, id, results[id]);
    }
  }

  lemma RefusedIsNotCompleted(col: Collaborators, t: nat, w: World, id: Id, reason: Reason, contention: bool)
    requires id in w.graph.nodes
    ensures var v := RefuseLeaf(col, t, w, id, reason, contention);
            id in v.graph.nodes && !v.graph.nodes[id].status.Completed?
  {
    hide ApplyLeafResult, RetryGoesAhead;
    if contention && col.retryPolicy.Some? && id in col.retryPolicy.value.keys {
      LeafDecides(col, t, w, id, Contention(col.retryPolicy.value.keys[id]), false);
    }
  }

  lemma {:induction false} RefusedAreNotCompleted(col: Collaborators, t: nat, w: World, ids: seq<Id>, reason: Reason,
                                                  contention: bool)
    requires WorldOk(w) && AllReady(w, ids) && RetryPolicyOk(col.retryPolicy)
    ensures var v := RefuseAll(col, t, w, ids, reason, contention);
            forall id :: id in ids ==> id in v.graph.nodes && !v.graph.nodes[id].status.Completed?
  {
    hide RefuseLeaf, WorldOk, Moves;
    if ids == [] {
    } else {
      DistinctInit(ids);
      var init, id := ids[..|ids| - 1], ids[|ids| - 1];
      RefusedAreNotCompleted(col, t, w, init, reason, contention);
      RefuseAllEffect(col, t, w, init, reason, contention);
      var u := RefuseAll(col, t, w, init, reason, contention);
      MovesSound(col, w, u, init);
      MovesFrame(col, w, u, init);
      RefuseLeafResolves(col, t, u, id, reason, contention);
      var v := RefuseLeaf(col, t, u, id, reason, contention);
      ResolvedMoves(col, u, v, id);
      MovesFrame(col, u, v, [id]);
      RefusedIsNotCompleted(col, t, u, id, reason, contention);
    }
  }

  // ---- The calls of one batch --------------------------------------------------------------------

  /** The calls a batch adds: its lease if it got one, one execution for each started leaf, the release, waits. */
  ghost predicate BatchTrace(a: seq<PortCall>, b: seq<PortCall>, grant: Option<PortCall>, started: seq<Id>) {
    var lease := if grant.Some? then 1 else 0;
    var from := |a| + lease;
    var to := from + |started|;
    && a <= b && to + lease <= |b|
    && (grant.Some? ==> b[|a|] == grant.value && b[to] == LeaseReleased)
    && (forall i :: from <= i < to ==> b[i].ExecuteCall? && b[i].node == started[i - from])
    && (forall i :: to + lease <= i < |b| ==> b[i].RetryWait?)
  }

  /** Every started leaf took the result it was executed with, unless the lease failed; nothing else completed. */
  ghost predicate Answered(a: seq<PortCall>, v: World, ids: seq<Id>, started: seq<Id>, fault: Option<string>) {
    && (forall i :: |a| <= i < |v.calls| && v.calls[i].ExecuteCall? ==>
          && v.calls[i].node in v.graph.nodes
          && Reports(v.graph.nodes[v.calls[i].node],
                     if fault.None? then v.calls[i].result
                     else LeafResult(Broken, "resource lease lifecycle failed", fault, None)))
    && (forall id :: id in ids && id !in started ==> id in v.graph.nodes && !v.graph.nodes[id].status.Completed?)
  }

  /** The leaves of a batch that the execution budget still lets start. */
  function Startable(g: Graph, ids: seq<Id>): (r: seq<Id>) {
    ids[..Min(|ids|, Max(0, g.budget.maxLeafExecutions - g.leafExecutions))]
  }

  /** After `from` the leaves were executed, each with its result. */
  ghost predicate Logged(from: seq<PortCall>, b: seq<PortCall>, started: seq<Id>, results: map<Id, LeafResult>) {
    && from <= b && |b| == |from| + |started|
    && (forall id :: id in results <==> id in started)
    && forall i {:trigger b[i]} :: |from| <= i < |b| ==>
         started[i - |from|] in results && b[i] == ExecuteCall(started[i - |from|], results[started[i - |from|]])
  }

  lemma OperateLogs(col: Collaborators, t: nat, w: World, ids: seq<Id>)
    requires forall id :: id in ids ==> id in w.graph.nodes
    ensures var r := Operate(col, t, w, ids);
            Logged(w.calls, r.0.calls, Startable(w.graph, ids), r.1)
  {
    hide StartLeaf, StartAll, CallAll;
    StartsWhileBudgetLasts(w, ids);
    var started := StartAll(w, ids);
    StartCallsNothing(w, ids);
    ExecutionsListed(started.0, started.1, Operate(col, t, w, ids).1);
  }

  lemma {:induction false} StartCallsNothing(w: World, ids: seq<Id>)
    requires forall id :: id in ids ==> id in w.graph.nodes
    ensures StartAll(w, ids).0.calls == w.calls
  {
    if ids == [] {
    } else {
      StartCallsNothing(w, ids[..|ids| - 1]);
    }
  }

  /** The results of a batch, applied in id order, all reach their nodes. */
  lemma RanIsReported(col: Collaborators, t: nat, w: World, x: World, ids: seq<Id>, results: map<Id, LeafResult>)
    requires RetryPolicyOk(col.retryPolicy) && Ran(col, w, x, ids, results)
    ensures forall id :: id in SortStrings(results.Keys) ==> id in x.graph.nodes && id in results
    ensures var v := ApplyAll(col, t, x, SortStrings(results.Keys), results);
            && OnlyWaits(x.calls, v.calls)
            && forall id :: id in ids ==>
                 && id in v.graph.nodes
                 && if id in results then Reports(v.graph.nodes[id], results[id])
                    else !v.graph.nodes[id].status.Completed?
  {
    hide WorldOk, Follows, SameShape, Reports, Moves;
    SortedKeys(results);
    SortedIsDistinct(results);
    MovesSound(col, w, x, ids);
    MovesFrame(col, w, x, ids);
    var sorted := SortStrings(results.Keys);
    forall id | id in sorted ensures id in x.graph.nodes && Workable(x.graph, id) {
      assert id in ids && Launched(w.graph.nodes[id], x.graph.nodes[id]);
    }
    ResultsAreReported(col, t, x, sorted, results);
    ApplyAllEffect(col, t, x, sorted, results);
    MovesFrame(col, x, ApplyAll(col, t, x, sorted, results), sorted);
  }

  /** Executed, and then only waits. */
  lemma PlainTrace(a: seq<PortCall>, b: seq<PortCall>, c: seq<PortCall>, started: seq<Id>, results: map<Id, LeafResult>)
    requires Logged(a, b, started, results) && OnlyWaits(b, c)
    ensures BatchTrace(a, c, None, started)
    ensures forall i :: |a| <= i < |c| && c[i].ExecuteCall? ==> c[i].node in results && c[i].result == results[c[i].node]
  {
    forall i | 0 <= i < |b| ensures c[i] == b[i] {
      assert c[..|b|][i] == b[i];
    }
  }

  /** Granted, executed, released, and then only waits. */
  lemma LeasedTrace(a: seq<PortCall>, grant: PortCall, b: seq<PortCall>, c: seq<PortCall>, started: seq<Id>,
                    results: map<Id, LeafResult>)
    requires grant.LeaseGranted? && Logged(a + [grant], b, started, results) && OnlyWaits(b + [LeaseReleased], c)
    ensures BatchTrace(a, c, Some(grant), started)
    ensures forall i :: |a| <= i < |c| && c[i].ExecuteCall? ==> c[i].node in results && c[i].result == results[c[i].node]
  {
    var done := b + [LeaseReleased];
    forall i | 0 <= i < |done| ensures c[i] == done[i] {
      assert c[..|done|][i] == done[i];
    }
    assert forall i :: 0 <= i <= |a| ==> b[i] == (a + [grant])[i];
    assert c[|a|] == grant && c[|b|] == LeaseReleased;
  }

  /** What the applied results say about the executions in the log. */
  lemma LoggedAnswers(a: seq<PortCall>, v: World, ids: seq<Id>, started: seq<Id>, ran: map<Id, LeafResult>,
                      applied: map<Id, LeafResult>, fault: Option<string>)
    requires forall i :: |a| <= i < |v.calls| && v.calls[i].ExecuteCall? ==>
               v.calls[i].node in ran && v.calls[i].result == ran[v.calls[i].node]
    requires applied.Keys == ran.Keys && (forall id :: id in ran <==> id in started)
    requires forall id :: id in started ==> id in ids
    requires forall id :: id in ran ==>
               applied[id] == if fault.None? then ran[id]
                              else LeafResult(Broken, "resource lease lifecycle failed", fault, None)
    requires forall id :: id in ids ==>
               && id in v.graph.nodes
               && if id in applied then Reports(v.graph.nodes[id], applied[id]) else !v.graph.nodes[id].status.Completed?
    ensures Answered(a, v, ids, started, fault)
  {
    hide Reports;
  }

  lemma UnleasedAnswers(col: Collaborators, t: nat, u: World, ids: seq<Id>)
    requires WorldOk(u) && AllReady(u, ids) && RetryPolicyOk(col.retryPolicy)
    requires !col.leaseManager || Merge(ClaimsOf(col.policy, ids)) == []
    ensures var ran := Operate(col, t, u, ids);
            && (forall id :: id in SortStrings(ran.1.Keys) ==> id in ran.0.graph.nodes && id in ran.1)
            && var v := ApplyAll(col, t, ran.0, SortStrings(ran.1.Keys), ran.1);
               BatchTrace(u.calls, v.calls, None, Startable(u.graph, ids))
               && Answered(u.calls, v, ids, Startable(u.graph, ids), None)
  {
    hide WorldOk, Merge, ClaimsOf, Operate, ApplyAll, NeedsLease, Secures, Reports, BatchTrace, Answered, Ran, Extends;
    NothingClaimed(col, ids);
    OperateRuns(col, t, u, ids);
    OperateLogs(col, t, u, ids);
    var ran := Operate(col, t, u, ids);
    RanIsReported(col, t, u, ran.0, ids, ran.1);
    var v := ApplyAll(col, t, ran.0, SortStrings(ran.1.Keys), ran.1);
    PlainTrace(u.calls, ran.0.calls, v.calls, Startable(u.graph, ids), ran.1);
    LoggedAnswers(u.calls, v, ids, Startable(u.graph, ids), ran.1, ran.1, None);
  }

  lemma HeldAnswers(col: Collaborators, t: nat, w: World, ids: seq<Id>, claims: seq<Claim>, answer: LeaseAnswer)
    requires WorldOk(w) && AllReady(w, ids) && RetryPolicyOk(col.retryPolicy)
    requires claims == Merge(ClaimsOf(col.policy, ids)) && answer.Granted? && answer.heartbeatStarts
    ensures var v := WithLease(col, t, w, ids, claims, answer);
            var fault := if answer.heartbeatError.Some? then answer.heartbeatError else answer.releaseError;
            && BatchTrace(w.calls, v.calls, Some(LeaseGranted(ids, claims)), Startable(w.graph, ids))
            && Answered(w.calls, v, ids, Startable(w.graph, ids), fault)
  {
    hide WorldOk, Follows, SameShape, Operate, ApplyAll, Executable, Merge, ClaimsOf, Reports, BatchTrace, Answered,
         Extends, Logged;
    HoldingMoves(col, w, ids, claims);
    GrantSecures(col, w, ids);
    var held, started := Holding(w, ids, claims), Startable(w.graph, ids);
    OperateRuns(col, t, held, ids);
    OperateLogs(col, t, held, ids);
    var ran := Operate(col, t, held, ids);
    var freed := Call(ran.0, LeaseReleased);
    var applied := Lifecycle(ran.1, answer.heartbeatError, answer.releaseError);
    var fault := if answer.heartbeatError.Some? then answer.heartbeatError else answer.releaseError;
    MovesSameGraph(col, held, ran.0, freed, ids);
    assert Ran(col, held, freed, ids, applied);
    RanIsReported(col, t, held, freed, ids, applied);
    var v := WithLease(col, t, w, ids, claims, answer);
    LeasedTrace(w.calls, LeaseGranted(ids, claims), ran.0.calls, v.calls, started, ran.1);
    LoggedKeys(held.calls, ran.0.calls, started, ran.1);
    LoggedAnswers(w.calls, v, ids, started, ran.1, applied, fault);
  }

  lemma LoggedKeys(from: seq<PortCall>, b: seq<PortCall>, started: seq<Id>, results: map<Id, LeafResult>)
    requires Logged(from, b, started, results)
    ensures forall id :: id in results <==> id in started
  {
  }

  /** Without a lease, or without its heartbeat, nothing is executed and nothing completed. */
  lemma RefusedAnswers(col: Collaborators, t: nat, w: World, ids: seq<Id>, claims: seq<Claim>, answer: LeaseAnswer)
    requires WorldOk(w) && AllReady(w, ids) && RetryPolicyOk(col.retryPolicy)
    requires !(answer.Granted? && answer.heartbeatStarts)
    ensures var v := WithLease(col, t, w, ids, claims, answer);
            var grant := if answer.Granted? then Some(LeaseGranted(ids, claims)) else None;
            BatchTrace(w.calls, v.calls, grant, []) && forall fault :: Answered(w.calls, v, ids, [], fault)
  {
    hide WorldOk, Follows, SameShape, BatchDone, RefuseAll;
    match answer
    case AcquireRaised(text) =>
      RefusalEffect(col, t, w, ids, LeaseBroken(text), false);
      RefusedAreNotCompleted(col, t, w, ids, LeaseBroken(text), false);
    case Denied(conflicts) =>
      RefusalEffect(col, t, w, ids, LeaseRefused(conflicts), conflicts != []);
      RefusedAreNotCompleted(col, t, w, ids, LeaseRefused(conflicts), conflicts != []);
    case Granted(_, _, _) =>
      HoldingMoves(col, w, ids, claims);
      var held := Holding(w, ids, claims);
      var freed := Call(held, LeaseReleased);
      MovesSameGraph(col, w, held, freed, ids);
      MovesSound(col, w, freed, ids);
      RefusalEffect(col, t, freed, ids, LeaseBroken("heartbeat"), false);
      RefusedAreNotCompleted(col, t, freed, ids, LeaseBroken("heartbeat"), false);
      var v := WithLease(col, t, w, ids, claims, answer);
      assert v.calls[..|freed.calls|] == freed.calls;
  }

  // ---- The whole batch ---------------------------------------------------------------------------

  /** A lease is asked for exactly when some leaf of the batch claims something. */
  lemma {:induction false} SomethingClaimed(policy: SchedulerPolicy, ids: seq<Id>)
    ensures ClaimsOf(policy, ids) != [] ==> exists id :: id in ids && policy.ClaimsFor(id) != []
  {
    if ids == [] {
    } else {
      var id := ids[|ids| - 1];
      SomethingClaimed(policy, ids[..|ids| - 1]);
      assert id in ids;
    }
  }

  lemma LeaseIsNeeded(col: Collaborators, ids: seq<Id>)
    ensures col.leaseManager && Merge(ClaimsOf(col.policy, ids)) != [] <==> exists id :: id in ids && NeedsLease(col, id)
  {
    hide Merge, ClaimsOf;
    var claims := ClaimsOf(col.policy, ids);
    if col.leaseManager && Merge(claims) != [] {
      MergeContents(claims);
      assert Merge(claims)[0] in Merge(claims);
      assert claims != [];
      SomethingClaimed(col.policy, ids);
      var id :| id in ids && col.policy.ClaimsFor(id) != [];
      assert NeedsLease(col, id);
    } else {
      NothingClaimed(col, ids);
    }
  }

  lemma {:induction false} AcquiringExecutesNothing(col: Collaborators, t: nat, w: World, id: Id, missing: seq<string>)
    ensures var v := AcquireAll(col, t, w, id, missing);
            v.graph.leafExecutions == w.graph.leafExecutions && v.graph.budget == w.graph.budget
  {
    if missing == [] {
    } else {
      AcquiringExecutesNothing(col, t, w, id, missing[..|missing| - 1]);
    }
  }

  lemma {:induction false} AdmissionExecutesNothing(col: Collaborators, t: nat, w: World, ids: seq<Id>)
    requires forall id :: id in ids ==> id in w.graph.nodes
    ensures var v := AdmitAll(col, t, w, ids).0;
            v.graph.leafExecutions == w.graph.leafExecutions && v.graph.budget == w.graph.budget
  {
    if ids == [] {
    } else {
      var init, id := ids[..|ids| - 1], ids[|ids| - 1];
      AdmissionExecutesNothing(col, t, w, init);
      var u := AdmitAll(col, t, w, init).0;
      if col.resolve(t, u, id, false).Missing? {
        AcquiringExecutesNothing(col, t, u, id, col.resolve(t, u, id, false).names);
      }
    }
  }

  /** A leaf that was not admitted stays as it was blocked. */
  lemma NotAdmitted(col: Collaborators, w: World, u: World, v: World, selected: seq<Id>, ids: seq<Id>)
    requires Moves(col, w, u, selected) && BatchDone(col, u, v, ids)
    requires forall id :: id in selected ==> id in w.graph.nodes
    requires forall id :: id in selected && id !in ids ==> Dropped(w.graph.nodes[id], u.graph.nodes[id])
    ensures forall id :: id in selected && id !in ids ==> id in v.graph.nodes && !v.graph.nodes[id].status.Completed?
  {
    hide WorldOk, Follows, Tried;
  }

  lemma AnsweredByAll(a: seq<PortCall>, v: World, ids: seq<Id>, selected: seq<Id>, started: seq<Id>,
                      fault: Option<string>)
    requires Answered(a, v, ids, started, fault)
    requires forall id :: id in selected && id !in ids ==> id in v.graph.nodes && !v.graph.nodes[id].status.Completed?
    ensures Answered(a, v, selected, started, fault)
  {
    hide Reports;
  }

  /** The lease a batch holds if it was granted one: for all its leaves and all they claim. */
  function LeaseFor(col: Collaborators, ids: seq<Id>, granted: bool): Option<PortCall> {
    if granted then Some(LeaseGranted(ids, Merge(ClaimsOf(col.policy, ids)))) else None
  }

  /** What a batch executes and what its leaves report. The admitted leaves are executed in order, as far as the
      execution budget lasts, unless a lease is needed and is not granted or its heartbeat does not start. A leaf
      takes the result of its execution, unless the heartbeat or the release of the lease failed: then it takes a
      failure with that error, the heartbeat's first. It is completed exactly when the result it took is a
      success; no other leaf of the batch is completed. */
  lemma BatchAnswers(col: Collaborators, t: nat, w: World, selected: seq<Id>)
    requires WorldOk(w) && AllReady(w, selected) && RetryPolicyOk(col.retryPolicy)
    ensures var admitted := AdmitAll(col, t, w, selected);
            var v, answer := ExecuteBatch(col, t, w, selected), col.lease(t, admitted.0, admitted.1);
            var leased := exists id :: id in admitted.1 && NeedsLease(col, id);
            var runs := leased ==> answer.Granted? && answer.heartbeatStarts;
            var room := Max(0, w.graph.budget.maxLeafExecutions - w.graph.leafExecutions);
            var started := if runs then admitted.1[..Min(|admitted.1|, room)] else [];
            var grant := LeaseFor(col, admitted.1, leased && answer.Granted?);
            var fault := if !leased || !answer.Granted? then None
                         else if answer.heartbeatError.Some? then answer.heartbeatError else answer.releaseError;
            && BatchTrace(w.calls, v.calls, grant, started)
            && Answered(w.calls, v, selected, started, fault)
  {
    hide WorldOk, Follows, SameShape, Operate, ApplyAll, Merge, ClaimsOf, WithLease, AdmitAll, Reports, BatchTrace,
         NeedsLease, Answered, BatchDone, Moves;
    AdmitAllEffect(col, t, w, selected);
    AdmissionExecutesNothing(col, t, w, selected);
    var u, ids := AdmitAll(col, t, w, selected).0, AdmitAll(col, t, w, selected).1;
    MovesSound(col, w, u, selected);
    assert AllReady(u, ids);
    LeaseIsNeeded(col, ids);
    var v, answer, claims := ExecuteBatch(col, t, w, selected), col.lease(t, u, ids), Merge(ClaimsOf(col.policy, ids));
    if !col.leaseManager || claims == [] {
      UnleasedAnswers(col, t, u, ids);
      UnleasedEffect(col, t, u, ids);
      NotAdmitted(col, w, u, v, selected, ids);
      AnsweredByAll(w.calls, v, ids, selected, Startable(u.graph, ids), None);
    } else {
      WithLeaseEffect(col, t, u, ids, claims, answer);
      NotAdmitted(col, w, u, v, selected, ids);
      if answer.Granted? && answer.heartbeatStarts {
        HeldAnswers(col, t, u, ids, claims, answer);
        var fault := if answer.heartbeatError.Some? then answer.heartbeatError else answer.releaseError;
        AnsweredByAll(w.calls, v, ids, selected, Startable(u.graph, ids), fault);
      } else {
        RefusedAnswers(col, t, u, ids, claims, answer);
        forall fault ensures Answered(w.calls, v, selected, [], fault) {
          AnsweredByAll(w.calls, v, ids, selected, [], fault);
        }
      }
    }
  }

  // ---- Whole runs --------------------------------------------------------------------------------

  predicate Executes(c: PortCall, id: Id) {
    c.ExecuteCall? && c.node == id
  }

  /** What the last execution of a leaf among the calls from `from` on returned. */
  function LastAnswer(calls: seq<PortCall>, from: nat, id: Id): Option<LeafResult> {
    if |calls| <= from then None
    else if Executes(calls[|calls| - 1], id) then Some(calls[|calls| - 1].result)
    else LastAnswer(calls[..|calls| - 1], from, id)
  }

  lemma {:induction false} LastAnswerFound(calls: seq<PortCall>, from: nat, id: Id)
    requires LastAnswer(calls, from, id).Some?
    ensures exists i :: from <= i < |calls| && calls[i] == ExecuteCall(id, LastAnswer(calls, from, id).value)
                        && forall j :: i < j < |calls| ==> !Executes(calls[j], id)
  {
    var init, c := calls[..|calls| - 1], calls[|calls| - 1];
    if Executes(c, id) {
      assert c == ExecuteCall(id, c.result);
    } else {
      LastAnswerFound(init, from, id);
      var i :| from <= i < |init| && init[i] == ExecuteCall(id, LastAnswer(init, from, id).value)
               && forall j :: i < j < |init| ==> !Executes(init[j], id);
      assert calls[i] == init[i];
    }
  }

  lemma {:induction false} LastAnswerAt(calls: seq<PortCall>, from: nat, id: Id, i: nat)
    requires from <= i < |calls| && Executes(calls[i], id) && forall j :: i < j < |calls| ==> !Executes(calls[j], id)
    ensures LastAnswer(calls, from, id) == Some(calls[i].result)
    decreases |calls|
  {
    if i == |calls| - 1 {
    } else {
      LastAnswerAt(calls[..|calls| - 1], from, id, i);
    }
  }

  lemma {:induction false} LastAnswerKept(a: seq<PortCall>, b: seq<PortCall>, from: nat, id: Id)
    requires from <= |a| && a <= b && forall i :: |a| <= i < |b| ==> !Executes(b[i], id)
    ensures LastAnswer(b, from, id) == LastAnswer(a, from, id)
    decreases |b|
  {
    if |a| == |b| {
      assert a == b;
    } else {
      LastAnswerKept(a, b[..|b| - 1], from, id);
    }
  }

  /** Every task completed since `base` has a successful result, and a leaf has it from its last execution. */
  ghost predicate Earned(base: World, w: World) {
    && base.calls <= w.calls
    && forall id :: id in w.graph.nodes && !(id in base.graph.nodes && base.graph.nodes[id].status.Completed?) ==>
         EarnedBy(w, |base.calls|, id)
  }

  ghost predicate EarnedBy(w: World, from: nat, id: Id)
    requires id in w.graph.nodes
  {
    var n := w.graph.nodes[id];
    n.status.Completed? ==>
      && n.result.Some? && n.result.value.status.Succeeded?
      && (n.children == [] ==> LastAnswer(w.calls, from, id) == n.result)
  }

  /** What is completed was completed before or is a parent with a successful verdict. */
  ghost predicate OnlyParents(g: Graph, h: Graph) {
    forall id :: id in h.nodes && h.nodes[id].status.Completed? ==>
      && id in g.nodes
      && var m := h.nodes[id];
         m == g.nodes[id] || (m.children != [] && m.result.Some? && m.result.value.status.Succeeded?)
  }

  lemma {:induction false} PassOnlyParents(col: Collaborators, t: nat, w: World, order: seq<Id>)
    requires WorldOk(w) && forall id :: id in order ==> id in w.graph.nodes
    ensures OnlyParents(w.graph, VisitAll(col, t, w, order).graph)
  {
    hide Visit, WorldOk, Follows;
    if order == [] {
    } else {
      PassOnlyParents(col, t, w, order[..|order| - 1]);
      PassEffect(col, t, w, order[..|order| - 1]);
      VisitOnlyParents(col, t, VisitAll(col, t, w, order[..|order| - 1]), order[|order| - 1]);
    }
  }

  lemma VisitOnlyParents(col: Collaborators, t: nat, w: World, id: Id)
    requires WorldOk(w) && id in w.graph.nodes
    ensures OnlyParents(w.graph, Visit(col, t, w, id).graph)
  {
    if !Terminal(w.graph.nodes[id].status) {
      VisitDecides(col, t, w, id);
      VisitKeepsWorldOk(col, t, w, id);
    }
  }

  lemma PassEarns(base: World, w: World, u: World)
    requires Earned(base, w) && u.calls == w.calls && OnlyParents(w.graph, u.graph)
    ensures Earned(base, u)
  {
    forall id | id in u.graph.nodes && !(id in base.graph.nodes && base.graph.nodes[id].status.Completed?)
      ensures EarnedBy(u, |base.calls|, id)
    {
      if u.graph.nodes[id].status.Completed? {
        assert EarnedBy(w, |base.calls|, id);
      }
    }
  }

  /** An assessment completes nothing. */
  lemma AssessmentEarns(col: Collaborators, t: nat, base: World, w: World, id: Id)
    requires Earned(base, w) && WorldOk(w) && PortsOk(w) && DotFreeAnswers(col)
    requires IsCandidate(w.graph, id) && w.graph.nodes[id].status.Pending?
    ensures Earned(base, AssessNode(col, t, w, id))
  {
    hide WorldOk, PortsOk, DotFreeAnswers, Follows, AssessNode;
    AssessNodeEffect(col, t, w, id);
    var v := AssessNode(col, t, w, id);
    AssessedIsNotCompleted(col, t, w, id);
    forall x | x in v.graph.nodes && !(x in base.graph.nodes && base.graph.nodes[x].status.Completed?)
      ensures EarnedBy(v, |base.calls|, x)
    {
      if v.graph.nodes[x].status.Completed? {
        assert x in w.graph.nodes && EarnedBy(w, |base.calls|, x);
        UntouchedEarns(w, v, |base.calls|, x);
      }
    }
  }

  lemma AssessedIsNotCompleted(col: Collaborators, t: nat, w: World, id: Id)
    requires id in w.graph.nodes && w.graph.nodes[id].status.Pending?
    ensures id in AssessNode(col, t, w, id).graph.nodes && !AssessNode(col, t, w, id).graph.nodes[id].status.Completed?
  {
    hide SpecsOk, AddChildren;
  }

  /** The lease, the started leaves and the fault behind a batch. */
  lemma BatchAnswered(col: Collaborators, t: nat, w: World, selected: seq<Id>)
    returns (grant: Option<PortCall>, started: seq<Id>, fault: Option<string>)
    requires WorldOk(w) && AllReady(w, selected) && RetryPolicyOk(col.retryPolicy)
    ensures Distinct(started) && (forall id :: id in started ==> id in selected)
    ensures grant.Some? ==> grant.value.LeaseGranted?
    ensures var v := ExecuteBatch(col, t, w, selected);
            BatchTrace(w.calls, v.calls, grant, started) && Answered(w.calls, v, selected, started, fault)
  {
    hide WorldOk, Moves, AdmitAll, Merge, ClaimsOf, NeedsLease, ExecuteBatch, BatchTrace, Answered;
    var admitted := AdmitAll(col, t, w, selected);
    var answer := col.lease(t, admitted.0, admitted.1);
    BatchAnswers(col, t, w, selected);
    AdmitAllEffect(col, t, w, selected);
    var leased := exists id :: id in admitted.1 && NeedsLease(col, id);
    var room := Max(0, w.graph.budget.maxLeafExecutions - w.graph.leafExecutions);
    started := if leased ==> answer.Granted? && answer.heartbeatStarts then admitted.1[..Min(|admitted.1|, room)] else [];
    grant := LeaseFor(col, admitted.1, leased && answer.Granted?);
    fault := if !leased || !answer.Granted? then None
             else if answer.heartbeatError.Some? then answer.heartbeatError else answer.releaseError;
  }

  lemma BatchEarns(col: Collaborators, t: nat, base: World, w: World, selected: seq<Id>)
    requires Earned(base, w) && WorldOk(w) && AllReady(w, selected) && RetryPolicyOk(col.retryPolicy)
    ensures Earned(base, ExecuteBatch(col, t, w, selected))
  {
    hide WorldOk, Moves, ExecuteBatch, BatchTrace, Answered, Tried, Proper, AllReady, Distinct, EarnedBy;
    var grant, started, fault := BatchAnswered(col, t, w, selected);
    ExecuteBatchEffect(col, t, w, selected);
    var v := ExecuteBatch(col, t, w, selected);
    MovesFrame(col, w, v, selected);
    forall id | id in v.graph.nodes && !(id in base.graph.nodes && base.graph.nodes[id].status.Completed?)
      ensures EarnedBy(v, |base.calls|, id)
    {
      if id in selected {
        StartedEarns(w.calls, v, selected, grant, started, fault, |base.calls|, id);
      } else {
        NotExecuted(w.calls, v.calls, grant, started, id);
        UntouchedEarns(w, v, |base.calls|, id);
      }
    }
  }

  lemma UntouchedEarns(w: World, v: World, from: nat, id: Id)
    requires id in w.graph.nodes && EarnedBy(w, from, id) && from <= |w.calls| && w.calls <= v.calls
    requires id in v.graph.nodes && (v.graph.nodes[id].status.Completed? ==> v.graph.nodes[id] == w.graph.nodes[id])
    requires forall i :: |w.calls| <= i < |v.calls| ==> !Executes(v.calls[i], id)
    ensures EarnedBy(v, from, id)
  {
    LastAnswerKept(w.calls, v.calls, from, id);
  }

  lemma NotExecuted(a: seq<PortCall>, b: seq<PortCall>, grant: Option<PortCall>, started: seq<Id>, id: Id)
    requires BatchTrace(a, b, grant, started) && id !in started && (grant.Some? ==> grant.value.LeaseGranted?)
    ensures forall i :: |a| <= i < |b| ==> !Executes(b[i], id)
  {
  }

  lemma StartedEarns(a: seq<PortCall>, v: World, ids: seq<Id>, grant: Option<PortCall>, started: seq<Id>,
                     fault: Option<string>, from: nat, id: Id)
    requires BatchTrace(a, v.calls, grant, started) && Answered(a, v, ids, started, fault) && Distinct(started)
    requires id in ids && id in v.graph.nodes && from <= |a| && (grant.Some? ==> grant.value.LeaseGranted?)
    ensures EarnedBy(v, from, id)
  {
    if id in started {
      var k :| 0 <= k < |started| && started[k] == id;
      var i := |a| + (if grant.Some? then 1 else 0) + k;
      LastOfBatch(a, v.calls, grant, started, k);
      LastAnswerAt(v.calls, from, id, i);
    }
  }

  lemma LastOfBatch(a: seq<PortCall>, b: seq<PortCall>, grant: Option<PortCall>, started: seq<Id>, k: nat)
    requires BatchTrace(a, b, grant, started) && Distinct(started) && k < |started|
    ensures var i := |a| + (if grant.Some? then 1 else 0) + k;
            && i < |b| && Executes(b[i], started[k]) && b[i] == ExecuteCall(started[k], b[i].result)
            && forall j :: i < j < |b| ==> !Executes(b[j], started[k])
  {
    var i := |a| + (if grant.Some? then 1 else 0) + k;
    assert b[i] == ExecuteCall(started[k], b[i].result);
  }

  lemma ProceedEarns(col: Collaborators, t: nat, base: World, u: World, changed: bool)
    requires ColOk(col) && Safe(u) && !RootEnded(u.graph) && AllSettled(u.graph) && Earned(base, u)
    ensures u.graph.rootId in u.graph.nodes
    ensures Earned(base, Proceed(col, t, u, changed))
  {
    hide CandidateNodes, PortsOk, Inv, AssessNode, ExecuteBatch, ReadyOf, GreedyBatch, SelectPending, AllReady, Earned,
         AllSettled;
    WorkExists(u.graph);
    TreeOf(u);
    var candidates := CandidateNodes(u.graph);
    NoPendingMeansReady(col.policy, u.graph, candidates);
    match SelectPending(col.policy, u.graph, candidates)
    case Some(id) => AssessmentEarns(col, t, base, u, id);
    case None =>
      SelectedAreReady(col, u);
      BatchEarns(col, t, base, u, GreedyBatch(col.policy, u.graph, ReadyOf(u.graph, candidates)));
  }

  lemma IterateEarns(col: Collaborators, t: nat, base: World, w: World)
    requires ColOk(col) && Safe(w) && !RootEnded(w.graph) && Earned(base, w)
    ensures Tree(w.graph) && Earned(base, Iterate(col, t, w))
  {
    hide Inv, Follows, OnlyEnds, AllSettled, Proceed, Earned, VisitAll, OnlyParents, PortsOk, NoRunning;
    PassAdvances(col, t, w);
    TreeOf(w);
    OrderOfPass(col, t, w.graph);
    PassOnlyParents(col, t, w, col.order(t, w.graph));
    var u := Passed(col, t, w);
    PassEarns(base, w, u);
    if !RootEnded(u.graph) {
      ProceedEarns(col, t, base, u, |u.graph.events| > |w.graph.events|);
    }
  }

  lemma {:induction false} RunFromEarns(col: Collaborators, t: nat, base: World, w: World)
    requires ColOk(col) && Safe(w) && Earned(base, w)
    ensures Earned(base, RunFrom(col, t, w))
    decreases Room(w.graph), PendingIds(w.graph), OpenRetries(col, w.graph), ReadyIds(w.graph), LiveIds(w.graph)
  {
    hide Inv, PortsOk, NoRunning, Iterate, Follows, Earned;
    if RootEnded(w.graph) {
    } else {
      IterateAdvances(col, t, w);
      RoomIsBounded(w);
      IterateEarns(col, t, base, w);
      RunFromEarns(col, t + 1, base, Iterate(col, t, w));
    }
  }

  lemma RunEarns(col: Collaborators, w: World)
    requires ColOk(col) && Safe(w)
    ensures Earned(w, Run(col, w))
  {
    hide Inv, PortsOk, NoRunning, Follows, RunFrom, LastAnswer;
    LogIsSafe(w, if w.graph.events == [] then GraphStarted else GraphResumed);
    RunFromEffect(col, 0, Begin(w));
    RunFromEarns(col, 0, w, Begin(w));
    var u := RunFrom(col, 0, Begin(w));
    assert Earned(w, u);
  }

  /** Every execution a run logs carries the executor's own answer about that leaf, given while the leaf was
      running and after all that was logged before its batch. */
  lemma ExecutionsAreAnswered(col: Collaborators, w: World, i: nat)
    requires ColOk(col) && Safe(w) && |w.calls| <= i < |Run(col, w).calls| && Run(col, w).calls[i].ExecuteCall?
    ensures var calls := Run(col, w).calls;
            exists t: nat, u: World ::
              && calls[i].result == col.execute(t, u, calls[i].node)
              && calls[i].node in u.graph.nodes && u.graph.nodes[calls[i].node].status.Running?
              && u.calls <= calls[..i] && forall k :: |u.calls| <= k < i ==> calls[k].ExecuteCall?
  {
    hide Inv, PortsOk, NoRunning, Follows, Run, UnderLease, ByDecomposer;
    RunCalls(col, w);
    var calls := Run(col, w).calls;
    assert Proper(col, calls, i);
    var t: nat, u: World :| AskedIn(u, calls, i) && calls[i].result == col.execute(t, u, calls[i].node);
  }

  /** At every stage of a run, a task that was completed in it has a successful result; and a leaf among them has
      that result from the last time the run executed it, as the executor answered. */
  lemma CompletionsAreEarned(col: Collaborators, w: World, k: nat, id: Id)
    requires ColOk(col) && Safe(w) && k < |Stages(col, w)| && id in Stages(col, w)[k].nodes
    requires Stages(col, w)[k].nodes[id].status.Completed?
    requires id in w.graph.nodes ==> !w.graph.nodes[id].status.Completed?
    ensures var n, calls := Stages(col, w)[k].nodes[id], Run(col, w).calls;
            && n.result.Some? && n.result.value.status.Succeeded?
            && (n.children == [] ==>
                  exists i :: |w.calls| <= i < |calls| && calls[i] == ExecuteCall(id, n.result.value)
                      && ByExecutor(col, calls, i)
                              && forall j :: i < j < |calls| ==> !Executes(calls[j], id))
  {
    hide Inv, PortsOk, NoRunning, Follows, Run, Stages, LastAnswer, ByExecutor, UnderLease, ByDecomposer;
    RunIsSafe(col, w);
    RunEarns(col, w);
    LastStage(col, w);
    TasksMoveOnward(col, w, k, |Stages(col, w)| - 1, id);
    var n, v := Stages(col, w)[k].nodes[id], Run(col, w);
    assert EarnedBy(v, |w.calls|, id);
    if n.children == [] {
      LastAnswerFound(v.calls, |w.calls|, id);
      RunCalls(col, w);
    }
  }

  lemma LastStage(col: Collaborators, w: World)
    requires ColOk(col) && Safe(w)
    ensures |Stages(col, w)| > 0 && Stages(col, w)[|Stages(col, w)| - 1] == Run(col, w).graph
  {
    hide Run;
  }
}
