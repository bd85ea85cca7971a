/** Every step of the scheduler keeps the graph invariant, moves nodes only onward, and keeps its port
    calls in order. */
module SchedulerSafety {
  import opened Options
  import opened Strings
  import opened Claims
  import opened TaskModel
  import opened DecompositionGraph
  import opened GraphInvariant
  import opened GraphGrowth
  import opened Propagation
  import opened Parallel
  import opened Retry
  import opened SchedulerSteps
  import opened PortCalls

  // ---- Assessments -------------------------------------------------------------------------------

  predicate Past(g: Graph, id: Id) {
    id in g.nodes && !g.nodes[id].status.Pending?
  }

  /** No task is assessed twice, and an assessed task is never pending again. */
  ghost predicate AssessedOk(w: World) {
    && (forall i, j :: 0 <= i < j < |w.calls| && w.calls[i].AssessCall? && w.calls[j].AssessCall? ==>
                         w.calls[i].node != w.calls[j].node)
    && (forall i :: 0 <= i < |w.calls| && w.calls[i].AssessCall? ==> Past(w.graph, w.calls[i].node))
  }

  ghost predicate PortsOk(w: World) {
    Disciplined(w.calls) && Held(w.calls) == 0 && AssessedOk(w)
  }

  lemma AssessedKept(col: Collaborators, w: World, v: World)
    requires AssessedOk(w) && Extends(col, w.calls, v.calls) && Follows(col, w, v)
    ensures AssessedOk(v)
  {
    forall i | 0 <= i < |v.calls| && v.calls[i].AssessCall? ensures Past(v.graph, v.calls[i].node) {
      assert w.calls[i] == v.calls[i];
      assert Past(w.graph, w.calls[i].node);
    }
    forall i, j | 0 <= i < j < |v.calls| && v.calls[i].AssessCall? && v.calls[j].AssessCall?
      ensures v.calls[i].node != v.calls[j].node
    {
      assert w.calls[i] == v.calls[i] && w.calls[j] == v.calls[j];
    }
  }

  // ---- Folding steps over a batch ----------------------------------------------------------------

  ghost predicate Distinct(ids: seq<Id>) {
    forall i, j :: 0 <= i < j < |ids| ==> ids[i] != ids[j]
  }

  lemma DistinctInit(ids: seq<Id>)
    requires Distinct(ids) && ids != []
    ensures Distinct(ids[..|ids| - 1]) && ids[|ids| - 1] !in ids[..|ids| - 1]
    ensures forall id :: id in ids <==> id in ids[..|ids| - 1] || id == ids[|ids| - 1]
  {
    assert ids == ids[..|ids| - 1] + [ids[|ids| - 1]];
  }

  /** Only the listed nodes changed, and the world is sound. */
  ghost predicate Moves(col: Collaborators, w: World, v: World, ids: seq<Id>) {
    && WorldOk(v) && Follows(col, w, v) && SameShape(w.graph, v.graph)
    && forall x :: x in w.graph.nodes && x !in ids ==> v.graph.nodes[x] == w.graph.nodes[x]
  }

  lemma MovesNothing(col: Collaborators, w: World, ids: seq<Id>)
    requires WorldOk(w)
    ensures Moves(col, w, w, ids)
  {
    FollowsSame(col, w);
  }

  lemma MovesThen(col: Collaborators, u: World, w: World, v: World, a: seq<Id>, b: seq<Id>, c: seq<Id>)
    requires Moves(col, u, w, a) && Moves(col, w, v, b)
    requires forall id :: id in a || id in b ==> id in c
    ensures Moves(col, u, v, c)
  {
    FollowsTrans(col, u, w, v);
  }

  lemma MovesSound(col: Collaborators, w: World, v: World, ids: seq<Id>)
    requires Moves(col, w, v, ids)
    ensures WorldOk(v)
  {
    hide WorldOk, Follows, SameShape;
  }

  lemma TouchMoves(col: Collaborators, w: World, v: World, id: Id)
    requires WorldOk(w) && Touches(w.graph, v.graph, id) && Allowed(w.graph, id, v.graph.nodes[id].status)
    requires v.saves == w.saves || v.saves == w.saves + [v.graph]
    ensures Moves(col, w, v, [id])
  {
    TouchKeepsInv(w.graph, v.graph, id);
    TouchFollows(col, w, v, id);
  }

  lemma NotedMoves(col: Collaborators, w: World, v: World, id: Id)
    requires WorldOk(w) && WorldOk(v) && Noted(w, v, id) && v.saves == w.saves
    ensures Moves(col, w, v, [id])
  {
    TouchFollows(col, w, v, id);
  }

  // ---- Admission ---------------------------------------------------------------------------------

  lemma {:induction false} AcquireAllNoted(col: Collaborators, t: nat, w: World, id: Id, missing: seq<string>)
    requires WorldOk(w) && id in w.graph.nodes
    ensures var v := AcquireAll(col, t, w, id, missing);
            WorldOk(v) && Noted(w, v, id) && v.calls == w.calls && v.saves == w.saves
  {
    if missing == [] {
      assert w.graph.nodes == w.graph.nodes[id := w.graph.nodes[id]];
    } else {
      var capability := missing[|missing| - 1];
      AcquireAllNoted(col, t, w, id, missing[..|missing| - 1]);
      var u := AcquireAll(col, t, w, id, missing[..|missing| - 1]);
      var asked := Log(u, CapabilityRequested(id, capability));
      LogNoted(u, CapabilityRequested(id, capability), id);
      LogKeeps(u, CapabilityRequested(id, capability));
      NotedTwice(w, u, asked, id);
      LogNoted(asked, CapabilityRefused(id, capability), id);
      LogKeeps(asked, CapabilityRefused(id, capability));
      NotedTwice(w, asked, Log(asked, CapabilityRefused(id, capability)), id);
    }
  }

  /** Defeated without a retry or an attempt. */
  ghost predicate Dropped(n: Node, m: Node) {
    Defeated(m.status) && m.retries == n.retries && m.attempts == n.attempts
  }

  lemma BlockMoves(col: Collaborators, w: World, id: Id, reason: Reason)
    requires WorldOk(w) && id in w.graph.nodes && !Terminal(w.graph.nodes[id].status)
    ensures var v := BlockNode(w, id, reason);
            Moves(col, w, v, [id]) && v.calls == w.calls && Dropped(w.graph.nodes[id], v.graph.nodes[id])
  {
    BlockEnds(w, id, reason);
    TouchMoves(col, w, BlockNode(w, id, reason), id);
  }

  lemma EndMoves(col: Collaborators, w: World, id: Id, status: Status, reason: Reason)
    requires WorldOk(w) && id in w.graph.nodes && !Terminal(w.graph.nodes[id].status) && Defeated(status)
    ensures var v := EndWith(w, id, status, reason);
            Moves(col, w, v, [id]) && v.calls == w.calls && Dropped(w.graph.nodes[id], v.graph.nodes[id])
  {
    TouchMoves(col, w, EndWith(w, id, status, reason), id);
  }

  lemma AfterAcquire(col: Collaborators, w: World, u: World, v: World, id: Id)
    requires WorldOk(w) && WorldOk(u) && Noted(w, u, id) && u.saves == w.saves && u.graph.nodes == w.graph.nodes
    requires Moves(col, u, v, [id])
    ensures Moves(col, w, v, [id])
  {
    NotedMoves(col, w, u, id);
    MovesThen(col, w, u, v, [id], [id], [id]);
  }

  lemma AdmitLeafEffect(col: Collaborators, t: nat, w: World, id: Id)
    requires WorldOk(w) && id in w.graph.nodes && w.graph.nodes[id].status.Ready?
    ensures var r := AdmitLeaf(col, t, w, id);
            && Moves(col, w, r.0, [id]) && r.0.calls == w.calls
            && (if r.1 then r.0.graph.nodes[id] == w.graph.nodes[id]
                else Dropped(w.graph.nodes[id], r.0.graph.nodes[id]))
  {
    hide Evolves, Follows, SameShape, WorldOk, Noted, Moves;
    match col.resolve(t, w, id, false)
    case ResolveRaised => BlockMoves(col, w, id, ResolverRaised);
    case Missing(missing) =>
      if missing == [] {
        MovesNothing(col, w, [id]);
      } else if !col.acquirer {
        BlockMoves(col, w, id, CapabilitiesMissing(missing));
      } else {
        var u := AcquireAll(col, t, w, id, missing);
        AcquireAllNoted(col, t, w, id, missing);
        match col.resolve(t, u, id, true)
        case ResolveRaised =>
          EndMoves(col, u, id, Blocked, ResolverRaised);
          AfterAcquire(col, w, u, EndWith(u, id, Blocked, ResolverRaised), id);
        case Missing(still) =>
          BlockMoves(col, u, id, CapabilitiesMissing(still));
          AfterAcquire(col, w, u, BlockNode(u, id, CapabilitiesMissing(still)), id);
          NotedMoves(col, w, u, id);
      }
  }

  lemma {:induction false} AdmitAllEffect(col: Collaborators, t: nat, w: World, ids: seq<Id>)
    requires WorldOk(w) && Distinct(ids)
    requires forall id :: id in ids ==> id in w.graph.nodes && w.graph.nodes[id].status.Ready?
    ensures var r := AdmitAll(col, t, w, ids);
            && Moves(col, w, r.0, ids) && r.0.calls == w.calls && Distinct(r.1)
            && (forall id :: id in r.1 ==> r.0.graph.nodes[id] == w.graph.nodes[id])
            && (forall id :: id in ids && id !in r.1 ==> Dropped(w.graph.nodes[id], r.0.graph.nodes[id]))
  {
    hide Follows, SameShape, WorldOk, Moves, AdmitLeaf;
    if ids == [] {
      MovesNothing(col, w, ids);
    } else {
      DistinctInit(ids);
      var init, id := ids[..|ids| - 1], ids[|ids| - 1];
      AdmitAllEffect(col, t, w, init);
      var u := AdmitAll(col, t, w, init);
      MovesSound(col, w, u.0, init);
      MovesFrame(col, w, u.0, init);
      AdmitLeafEffect(col, t, u.0, id);
      var r := AdmitLeaf(col, t, u.0, id);
      MovesThen(col, w, u.0, r.0, init, [id], ids);
      MovesFrame(col, u.0, r.0, [id]);
    }
  }

  // ---- Starting ----------------------------------------------------------------------------------

  ghost predicate Launched(n: Node, m: Node) {
    m == n.(status := Running, attempts := n.attempts + 1)
  }

  lemma StartLeafEffect(col: Collaborators, w: World, id: Id)
    requires WorldOk(w) && id in w.graph.nodes && w.graph.nodes[id].status.Ready?
    ensures var r := StartLeaf(w, id);
            && Moves(col, w, r.0, [id]) && r.0.calls == w.calls
            && (if r.1 then Launched(w.graph.nodes[id], r.0.graph.nodes[id])
                else Dropped(w.graph.nodes[id], r.0.graph.nodes[id]))
  {
    hide Inv;
    if w.graph.leafExecutions >= w.graph.budget.maxLeafExecutions {
      EndMoves(col, w, id, Blocked, ExecutionsExhausted);
    } else {
      var v := StartLeaf(w, id).0;
      StartKeepsInv(w.graph, v.graph, id);
      StartEvolves(col, w, id);
      FollowsStep(col, w, v);
    }
  }

  lemma StartEvolves(col: Collaborators, w: World, id: Id)
    requires id in w.graph.nodes && w.graph.nodes[id].status.Ready?
    requires w.graph.leafExecutions < w.graph.budget.maxLeafExecutions
    ensures Evolves(col, w.graph, StartLeaf(w, id).0.graph)
  {
    var h := StartLeaf(w, id).0.graph;
    assert h.events[..|w.graph.events|] == w.graph.events;
  }

  lemma {:induction false} StartAllEffect(col: Collaborators, w: World, ids: seq<Id>)
    requires WorldOk(w) && Distinct(ids)
    requires forall id :: id in ids ==> id in w.graph.nodes && w.graph.nodes[id].status.Ready?
    ensures var r := StartAll(w, ids);
            && Moves(col, w, r.0, ids) && r.0.calls == w.calls && Distinct(r.1)
            && (forall id :: id in r.1 ==> Launched(w.graph.nodes[id], r.0.graph.nodes[id]))
            && (forall id :: id in ids && id !in r.1 ==> Dropped(w.graph.nodes[id], r.0.graph.nodes[id]))
  {
    hide Follows, SameShape, WorldOk, Moves, StartLeaf;
    if ids == [] {
      MovesNothing(col, w, ids);
    } else {
      DistinctInit(ids);
      var init, id := ids[..|ids| - 1], ids[|ids| - 1];
      StartAllEffect(col, w, init);
      var u := StartAll(w, init);
      MovesSound(col, w, u.0, init);
      MovesFrame(col, w, u.0, init);
      StartLeafEffect(col, u.0, id);
      var r := StartLeaf(u.0, id);
      MovesThen(col, w, u.0, r.0, init, [id], ids);
      MovesFrame(col, u.0, r.0, [id]);
    }
  }

  // ---- Results -----------------------------------------------------------------------------------

  /** Ended, or ready again at the price of one of finitely many retries. */
  ghost predicate Done(col: Collaborators, n: Node, m: Node) {
    && m.attempts == n.attempts
    && (|| (Terminal(m.status) && m.retries == n.retries)
        || (m.status.Ready? && m.retries == n.retries + 1 && m.retries <= RetryCap(col.retryPolicy)))
  }

  /** A batch of nodes is done; apart from backoff waits no port was used. */
  ghost predicate Finishes(col: Collaborators, w: World, v: World, ids: seq<Id>) {
    && Moves(col, w, v, ids) && OnlyWaits(w.calls, v.calls)
    && forall id :: id in ids ==> id in w.graph.nodes && Done(col, w.graph.nodes[id], v.graph.nodes[id])
  }

  lemma FinishesOneMore(col: Collaborators, w: World, u: World, v: World, init: seq<Id>, id: Id, ids: seq<Id>)
    requires Finishes(col, w, u, init) && Resolves(col, u, v, id)
    requires id in w.graph.nodes && id !in init
    requires forall x :: x in ids <==> x in init || x == id
    ensures Finishes(col, w, v, ids)
  {
    hide WorldOk, Follows, SameShape, Moves;
    ResolvedMoves(col, u, v, id);
    MovesThen(col, w, u, v, init, [id], ids);
    MovesFrame(col, w, u, init);
    MovesFrame(col, u, v, [id]);
    ResolvedIsDone(col, w, u, v, init, id);
  }

  lemma ResolvedMoves(col: Collaborators, u: World, v: World, id: Id)
    requires Resolves(col, u, v, id)
    ensures Moves(col, u, v, [id])
  {
    hide WorldOk, Follows, SameShape;
  }

  lemma MovesFrame(col: Collaborators, w: World, v: World, ids: seq<Id>)
    requires Moves(col, w, v, ids)
    ensures w.graph.nodes.Keys == v.graph.nodes.Keys
    ensures forall x :: x in w.graph.nodes && x !in ids ==> v.graph.nodes[x] == w.graph.nodes[x]
  {
    hide WorldOk, Follows;
  }

  lemma ResolvedIsDone(col: Collaborators, w: World, u: World, v: World, init: seq<Id>, id: Id)
    requires Resolves(col, u, v, id) && id in w.graph.nodes && id in u.graph.nodes
    requires u.graph.nodes[id] == w.graph.nodes[id]
    ensures id in v.graph.nodes && Done(col, w.graph.nodes[id], v.graph.nodes[id])
    ensures OnlyWaits(w.calls, u.calls) ==> OnlyWaits(w.calls, v.calls)
  {
    hide WorldOk, Follows, SameShape;
  }

  lemma {:induction false} ApplyAllEffect(col: Collaborators, t: nat, w: World, ids: seq<Id>,
                                          results: map<Id, LeafResult>)
    requires WorldOk(w) && Distinct(ids) && RetryPolicyOk(col.retryPolicy)
    requires forall id :: id in ids ==> id in results && id in w.graph.nodes && Workable(w.graph, id)
    ensures Finishes(col, w, ApplyAll(col, t, w, ids, results), ids)
  {
    if ids == [] {
      MovesNothing(col, w, ids);
    } else {
      DistinctInit(ids);
      var init, id := ids[..|ids| - 1], ids[|ids| - 1];
      ApplyAllEffect(col, t, w, init, results);
      var u := ApplyAll(col, t, w, init, results);
      assert u.graph.nodes[id] == w.graph.nodes[id];
      LeafResultResolves(col, t, u, id, results[id], true);
      FinishesOneMore(col, w, u, ApplyAll(col, t, w, ids, results), init, id, ids);
    }
  }

  lemma RefuseLeafResolves(col: Collaborators, t: nat, w: World, id: Id, reason: Reason, contention: bool)
    requires WorldOk(w) && Workable(w.graph, id) && RetryPolicyOk(col.retryPolicy)
    ensures Resolves(col, w, RefuseLeaf(col, t, w, id, reason, contention), id)
  {
    hide WorldOk, Resolves, ApplyLeafResult, Touches;
    if contention && col.retryPolicy.Some? && id in col.retryPolicy.value.keys {
      LeafResultResolves(col, t, w, id, Contention(col.retryPolicy.value.keys[id]), false);
    } else {
      BlockEnds(w, id, reason);
      EndingResolves(col, w, RefuseLeaf(col, t, w, id, reason, contention), id);
    }
  }

  lemma {:induction false} RefuseAllEffect(col: Collaborators, t: nat, w: World, ids: seq<Id>, reason: Reason,
                                           contention: bool)
    requires WorldOk(w) && Distinct(ids) && RetryPolicyOk(col.retryPolicy)
    requires forall id :: id in ids ==> id in w.graph.nodes && Workable(w.graph, id)
    ensures Finishes(col, w, RefuseAll(col, t, w, ids, reason, contention), ids)
  {
    if ids == [] {
      MovesNothing(col, w, ids);
    } else {
      DistinctInit(ids);
      var init, id := ids[..|ids| - 1], ids[|ids| - 1];
      RefuseAllEffect(col, t, w, init, reason, contention);
      var u := RefuseAll(col, t, w, init, reason, contention);
      assert u.graph.nodes[id] == w.graph.nodes[id];
      RefuseLeafResolves(col, t, u, id, reason, contention);
      FinishesOneMore(col, w, u, RefuseAll(col, t, w, ids, reason, contention), init, id, ids);
    }
  }

  // ---- A whole batch -----------------------------------------------------------------------------

  /** Done, after at most one attempt. */
  ghost predicate Tried(col: Collaborators, n: Node, m: Node) {
    && m.attempts <= n.attempts + 1
    && (|| (Terminal(m.status) && m.retries == n.retries)
        || (m.status.Ready? && m.retries == n.retries + 1 && m.retries <= RetryCap(col.retryPolicy)))
  }

  /** Every node of the batch is done and no other node changed. */
  ghost predicate BatchDone(col: Collaborators, w: World, v: World, ids: seq<Id>) {
    && Moves(col, w, v, ids)
    && forall id :: id in ids ==> id in w.graph.nodes && Tried(col, w.graph.nodes[id], v.graph.nodes[id])
  }

  ghost predicate AllReady(w: World, ids: seq<Id>) {
    Distinct(ids) && forall id :: id in ids ==> id in w.graph.nodes && w.graph.nodes[id].status.Ready?
  }

  /** After the leaves ran: the started ones are running, the rest of the batch was dropped. */
  ghost predicate Ran(col: Collaborators, w: World, x: World, ids: seq<Id>, results: map<Id, LeafResult>) {
    && Moves(col, w, x, ids)
    && (forall id :: id in results ==> id in ids)
    && (forall id :: id in ids ==> id in w.graph.nodes &&
                                   if id in results then Launched(w.graph.nodes[id], x.graph.nodes[id])
                                   else Dropped(w.graph.nodes[id], x.graph.nodes[id]))
  }

  lemma OperateRuns(col: Collaborators, t: nat, w: World, ids: seq<Id>)
    requires WorldOk(w) && AllReady(w, ids) && Executable(col, w.calls, ids)
    ensures var r := Operate(col, t, w, ids);
            && Ran(col, w, r.0, ids, r.1) && Extends(col, w.calls, r.0.calls)
            && (Disciplined(w.calls) ==> Disciplined(r.0.calls) && Held(r.0.calls) == Held(w.calls))
  {
    hide WorldOk, Follows, SameShape, Extends, Disciplined, Held, Secures, NeedsLease;
    StartAllEffect(col, w, ids);
    var started := StartAll(w, ids);
    var ran := Operate(col, t, w, ids);
    MovesSameGraph(col, w, started.0, ran.0, ids);
    assert Executable(col, started.0.calls, started.1);
    assert Executed(col, t, started.0, started.1, ran.1);
    ExecutionsExtend(col, t, started.0, started.1, ran.1);
  }

  lemma MovesSameGraph(col: Collaborators, w: World, x: World, y: World, ids: seq<Id>)
    requires Moves(col, w, x, ids) && y.graph == x.graph && y.saves == x.saves
    ensures Moves(col, w, y, ids)
  {
    hide Inv, Evolves, SameShape;
  }

  lemma MovesFromSame(col: Collaborators, w: World, x: World, y: World, ids: seq<Id>)
    requires Moves(col, x, y, ids) && w.graph == x.graph && w.saves == x.saves
    ensures Moves(col, w, y, ids)
  {
    hide Inv, Evolves, SameShape;
  }

  lemma SavedMoves(col: Collaborators, w: World, v: World, ids: seq<Id>)
    requires Moves(col, w, v, ids)
    ensures Moves(col, w, Save(v), ids)
  {
    hide Inv, Evolves, Follows, SameShape;
    EvolvesSame(col, v.graph);
    FollowsStep(col, v, Save(v));
    FollowsTrans(col, w, v, Save(v));
  }

  lemma SortedIsDistinct(results: map<Id, LeafResult>)
    ensures Distinct(SortStrings(results.Keys))
  {
  }

  lemma ApplyRan(col: Collaborators, t: nat, w: World, x: World, ids: seq<Id>, results: map<Id, LeafResult>)
    requires RetryPolicyOk(col.retryPolicy) && Ran(col, w, x, ids, results)
    ensures (forall id :: id in SortStrings(results.Keys) ==> id in x.graph.nodes && id in results)
    ensures var v := ApplyAll(col, t, x, SortStrings(results.Keys), results);
            BatchDone(col, w, v, ids) && OnlyWaits(x.calls, v.calls)
  {
    hide Inv, Evolves, Follows, SameShape;
    SortedKeys(results);
    SortedIsDistinct(results);
    var sorted := SortStrings(results.Keys);
    MovesKeys(col, w, x, ids);
    forall id | id in sorted ensures id in x.graph.nodes && Workable(x.graph, id) {
      assert id in ids && Launched(w.graph.nodes[id], x.graph.nodes[id]);
    }
    ApplyAllEffect(col, t, x, sorted, results);
    DoneAfterRan(col, w, x, ApplyAll(col, t, x, sorted, results), ids, results, sorted);
  }

  lemma MovesKeys(col: Collaborators, w: World, x: World, ids: seq<Id>)
    requires Moves(col, w, x, ids)
    ensures w.graph.nodes.Keys == x.graph.nodes.Keys
  {
    hide Inv, Evolves, Follows;
  }

  lemma DoneAfterRan(col: Collaborators, w: World, x: World, v: World, ids: seq<Id>,
                     results: map<Id, LeafResult>, sorted: seq<Id>)
    requires Ran(col, w, x, ids, results) && Finishes(col, x, v, sorted)
    requires forall id :: id in sorted <==> id in results
    ensures BatchDone(col, w, v, ids)
  {
    hide WorldOk, Evolves, Follows;
    MovesThen(col, w, x, v, ids, sorted, ids);
    forall id | id in ids ensures id in w.graph.nodes && Tried(col, w.graph.nodes[id], v.graph.nodes[id]) {
      if id in results {
        assert id in sorted;
      } else {
        assert v.graph.nodes[id] == x.graph.nodes[id];
      }
    }
  }

  lemma LogMoves(col: Collaborators, w: World, e: Event, ids: seq<Id>)
    requires WorldOk(w) && Quiet(e)
    ensures Moves(col, w, Log(w, e), ids) && Moves(col, w, Save(Log(w, e)), ids)
  {
    LogNoted(w, e, w.graph.rootId);
    LogKeeps(w, e);
    TouchFollows(col, w, Log(w, e), w.graph.rootId);
    TouchFollows(col, w, Save(Log(w, e)), w.graph.rootId);
  }

  lemma RefusalEffect(col: Collaborators, t: nat, w: World, ids: seq<Id>, reason: Reason, contention: bool)
    requires WorldOk(w) && AllReady(w, ids) && RetryPolicyOk(col.retryPolicy)
    ensures var v := BlockForLease(col, t, w, ids, reason, contention);
            BatchDone(col, w, v, ids) && OnlyWaits(w.calls, v.calls)
  {
    hide WorldOk, Follows, SameShape;
    assert forall id :: id in ids ==> id in w.graph.nodes && Workable(w.graph, id);
    RefuseAllEffect(col, t, w, ids, reason, contention);
    SavedMoves(col, w, RefuseAll(col, t, w, ids, reason, contention), ids);
  }

  lemma BatchAfter(col: Collaborators, w: World, u: World, v: World, ids: seq<Id>)
    requires Moves(col, w, u, ids) && u.graph.nodes == w.graph.nodes && BatchDone(col, u, v, ids)
    ensures BatchDone(col, w, v, ids)
  {
    hide WorldOk, Follows, SameShape;
    MovesThen(col, w, u, v, ids, ids, ids);
  }

  /** The lease is held and logged, the batch not yet started. */
  function Holding(w: World, ids: seq<Id>, claims: seq<Claim>): World {
    Save(Log(Call(w, LeaseGranted(ids, claims)), LeaseAcquired(ids)))
  }

  lemma HoldingMoves(col: Collaborators, w: World, ids: seq<Id>, claims: seq<Claim>)
    requires WorldOk(w)
    ensures var held := Holding(w, ids, claims);
            && Moves(col, w, held, ids) && held.graph.nodes == w.graph.nodes
            && held.calls == w.calls + [LeaseGranted(ids, claims)]
  {
    hide Inv, Follows, SameShape;
    var called := Call(w, LeaseGranted(ids, claims));
    LogMoves(col, called, LeaseAcquired(ids), ids);
    MovesFromSame(col, w, called, Holding(w, ids, claims), ids);
  }

  /** The heartbeat did not start: the lease goes back and nothing runs. */
  lemma BrokenLeaseEffect(col: Collaborators, t: nat, w: World, ids: seq<Id>, claims: seq<Claim>, answer: LeaseAnswer)
    requires WorldOk(w) && AllReady(w, ids) && RetryPolicyOk(col.retryPolicy)
    requires answer.Granted? && !answer.heartbeatStarts
    ensures var v := WithLease(col, t, w, ids, claims, answer);
            BatchDone(col, w, v, ids) && BatchCalls(col, w.calls, v.calls)
  {
    hide WorldOk, Follows, SameShape, BatchCalls, BatchDone, Extends, BlockForLease;
    HoldingMoves(col, w, ids, claims);
    var held := Holding(w, ids, claims);
    var freed := Call(held, LeaseReleased);
    var v := WithLease(col, t, w, ids, claims, answer);
    MovesSameGraph(col, w, held, freed, ids);
    RefusalEffect(col, t, freed, ids, LeaseBroken("heartbeat"), false);
    BatchAfter(col, w, freed, v, ids);
    NothingExtends(col, held.calls);
    LeasedCalls(col, w.calls, LeaseGranted(ids, claims), held.calls, v.calls);
  }

  lemma NothingExtends(col: Collaborators, calls: seq<PortCall>)
    ensures Extends(col, calls, calls)
  {
  }

  lemma GrantSecures(col: Collaborators, w: World, ids: seq<Id>)
    ensures Executable(col, Holding(w, ids, Merge(ClaimsOf(col.policy, ids))).calls, ids)
  {
    hide Secures, Merge, ClaimsOf;
    forall id | id in ids ensures Secures(col, Some(LeaseGranted(ids, Merge(ClaimsOf(col.policy, ids)))), id) {
      BatchClaimsSecure(col, ids, id);
    }
  }

  /** The batch runs under its lease, and the lease goes back before results are applied. */
  lemma HeldLeaseEffect(col: Collaborators, t: nat, w: World, ids: seq<Id>, claims: seq<Claim>, answer: LeaseAnswer)
    requires WorldOk(w) && AllReady(w, ids) && RetryPolicyOk(col.retryPolicy)
    requires claims == Merge(ClaimsOf(col.policy, ids)) && answer.Granted? && answer.heartbeatStarts
    ensures var v := WithLease(col, t, w, ids, claims, answer);
            BatchDone(col, w, v, ids) && BatchCalls(col, w.calls, v.calls)
  {
    hide WorldOk, Follows, SameShape, BatchCalls, BatchDone, Extends, Operate, ApplyAll, Executable, Merge, ClaimsOf;
    HoldingMoves(col, w, ids, claims);
    GrantSecures(col, w, ids);
    var held := Holding(w, ids, claims);
    var v := WithLease(col, t, w, ids, claims, answer);
    var ran := Operate(col, t, held, ids);
    OperateRuns(col, t, held, ids);
    var freed := Call(ran.0, LeaseReleased);
    var results := Lifecycle(ran.1, answer.heartbeatError, answer.releaseError);
    MovesSameGraph(col, held, ran.0, freed, ids);
    assert Ran(col, held, freed, ids, results);
    ApplyRan(col, t, held, freed, ids, results);
    BatchAfter(col, w, held, v, ids);
    LeasedCalls(col, w.calls, LeaseGranted(ids, claims), ran.0.calls, v.calls);
  }

  lemma WithLeaseEffect(col: Collaborators, t: nat, w: World, ids: seq<Id>, claims: seq<Claim>, answer: LeaseAnswer)
    requires WorldOk(w) && AllReady(w, ids) && RetryPolicyOk(col.retryPolicy)
        && claims == Merge(ClaimsOf(col.policy, ids))
    ensures var v := WithLease(col, t, w, ids, claims, answer);
            BatchDone(col, w, v, ids) && BatchCalls(col, w.calls, v.calls)
  {
    hide WorldOk, BatchDone, BatchCalls, BlockForLease, Merge;
    NothingExtends(col, w.calls);
    match answer
    case AcquireRaised(text) =>
      RefusalEffect(col, t, w, ids, LeaseBroken(text), false);
      PlainCalls(col, w.calls, w.calls, WithLease(col, t, w, ids, claims, answer).calls);
    case Denied(conflicts) =>
      RefusalEffect(col, t, w, ids, LeaseRefused(conflicts), conflicts != []);
      PlainCalls(col, w.calls, w.calls, WithLease(col, t, w, ids, claims, answer).calls);
    case Granted(starts, _, _) =>
      if starts {
        HeldLeaseEffect(col, t, w, ids, claims, answer);
      } else {
        BrokenLeaseEffect(col, t, w, ids, claims, answer);
      }
  }

  lemma AdmittedThenDone(col: Collaborators, w: World, u: World, v: World, selected: seq<Id>, admitted: seq<Id>)
    requires Moves(col, w, u, selected) && BatchDone(col, u, v, admitted)
    requires forall id :: id in selected ==> id in w.graph.nodes
    requires forall id :: id in admitted ==> id in selected && u.graph.nodes[id] == w.graph.nodes[id]
    requires forall id :: id in selected && id !in admitted ==> Dropped(w.graph.nodes[id], u.graph.nodes[id])
    ensures BatchDone(col, w, v, selected)
  {
    hide WorldOk, Evolves, Follows;
    MovesThen(col, w, u, v, selected, admitted, selected);
  }

  /** A batch that claims nothing runs without a lease. */
  lemma UnleasedEffect(col: Collaborators, t: nat, u: World, ids: seq<Id>)
    requires WorldOk(u) && AllReady(u, ids) && RetryPolicyOk(col.retryPolicy)
    requires !col.leaseManager || Merge(ClaimsOf(col.policy, ids)) == []
    ensures var ran := Operate(col, t, u, ids);
            && (forall id :: id in SortStrings(ran.1.Keys) ==> id in ran.0.graph.nodes && id in ran.1)
            && var v := ApplyAll(col, t, ran.0, SortStrings(ran.1.Keys), ran.1);
               BatchDone(col, u, v, ids) && BatchCalls(col, u.calls, v.calls)
  {
    hide WorldOk, Follows, SameShape, Extends, Merge, ClaimsOf, Operate, ApplyAll, NeedsLease, Secures;
    NothingClaimed(col, ids);
    var ran := Operate(col, t, u, ids);
    OperateRuns(col, t, u, ids);
    ApplyRan(col, t, u, ran.0, ids, ran.1);
    PlainCalls(col, u.calls, ran.0.calls, ApplyAll(col, t, ran.0, SortStrings(ran.1.Keys), ran.1).calls);
  }

  /** Executing a batch of ready leaves: each one ends, or is ready again with one more retry, and it runs
      under the lease for its claims. */
  lemma ExecuteBatchEffect(col: Collaborators, t: nat, w: World, selected: seq<Id>)
    requires WorldOk(w) && AllReady(w, selected) && RetryPolicyOk(col.retryPolicy)
    ensures var v := ExecuteBatch(col, t, w, selected);
            BatchDone(col, w, v, selected) && BatchCalls(col, w.calls, v.calls)
  {
    hide WorldOk, Follows, SameShape, BatchCalls, Operate, ApplyAll, Merge, ClaimsOf, WithLease, AdmitAll, Tried;
    AdmitAllEffect(col, t, w, selected);
    var admitted := AdmitAll(col, t, w, selected);
    var u, ids := admitted.0, admitted.1;
    var v := ExecuteBatch(col, t, w, selected);
    assert AllReady(u, ids);
    var claims := Merge(ClaimsOf(col.policy, ids));
    if !col.leaseManager || claims == [] {
      UnleasedEffect(col, t, u, ids);
    } else {
      WithLeaseEffect(col, t, u, ids, claims, col.lease(t, u, ids));
    }
    AdmittedThenDone(col, w, u, v, selected, ids);
  }

  // ---- Assessing ---------------------------------------------------------------------------------

  /** Proposed children use keys without dots, as the decomposition validator enforces. */
  ghost predicate DotFreeAnswers(col: Collaborators) {
    forall t, w, id ::
      var a := col.assess(t, w, id);
      a.Decided? ==> forall s :: s in a.decision.children ==> DotFree(s.key)
  }

  /** The assessed task is no longer pending; only it and brand-new children differ. */
  ghost predicate AssessedOnly(w: World, v: World, id: Id)
    requires id in w.graph.nodes
  {
    && id in v.graph.nodes && !v.graph.nodes[id].status.Pending? && !v.graph.nodes[id].status.Running?
    && v.graph.nodes[id].retries == w.graph.nodes[id].retries
    && v.graph.nodes[id].attempts == w.graph.nodes[id].attempts
    && (forall x :: x in w.graph.nodes && x != id ==> x in v.graph.nodes && v.graph.nodes[x] == w.graph.nodes[x])
    && (v.graph.nodes.Keys == w.graph.nodes.Keys
        || (|v.graph.nodes| > |w.graph.nodes|
            && forall x :: x in v.graph.nodes && x !in w.graph.nodes ==>
                 v.graph.nodes[x].status.Pending? && v.graph.nodes[x].attempts == 0))
  }

  ghost predicate AssessStep(col: Collaborators, w: World, v: World, id: Id)
    requires id in w.graph.nodes
  {
    WorldOk(v) && Follows(col, w, v) && v.calls == w.calls && AssessedOnly(w, v, id)
  }

  lemma EndingAssessStep(col: Collaborators, w: World, v: World, id: Id)
    requires WorldOk(w) && id in w.graph.nodes && Touches(w.graph, v.graph, id)
    requires Allowed(w.graph, id, v.graph.nodes[id].status)
    requires Terminal(v.graph.nodes[id].status) || v.graph.nodes[id].status.Ready?
    requires v.saves == w.saves + [v.graph] && v.calls == w.calls
    ensures AssessStep(col, w, v, id)
  {
    hide Inv, Evolves, Follows, Allowed;
    TouchMoves(col, w, v, id);
  }

  lemma FailTouches(w: World, id: Id, status: Status, reason: Reason)
    requires id in w.graph.nodes && w.graph.nodes[id].status.Pending? && Defeated(status)
    ensures Touches(w.graph, EndWith(w, id, status, reason).graph, id)
    ensures Touches(w.graph, FailTask(w, id, reason).graph, id)
  {
    assert FailTask(w, id, reason).graph.events[..|w.graph.events|] == w.graph.events;
  }

  lemma EndAssessStep(col: Collaborators, w: World, id: Id, status: Status, reason: Reason)
    requires WorldOk(w) && id in w.graph.nodes && w.graph.nodes[id].status.Pending? && Defeated(status)
    ensures AssessStep(col, w, EndWith(w, id, status, reason), id)
    ensures AssessStep(col, w, FailTask(w, id, reason), id)
  {
    hide Inv, Touches;
    FailTouches(w, id, status, reason);
    EndingAssessStep(col, w, EndWith(w, id, status, reason), id);
    EndingAssessStep(col, w, FailTask(w, id, reason), id);
  }

  lemma ReadyAssessStep(col: Collaborators, w: World, id: Id, leaf: Option<Contract>)
    requires WorldOk(w) && id in w.graph.nodes && w.graph.nodes[id].status.Pending?
    requires AllCompleted(w.graph, w.graph.nodes[id].deps)
    ensures AssessStep(col, w, AcceptLeaf(w, id, leaf), id)
  {
    hide Inv;
    var v := AcceptLeaf(w, id, leaf);
    assert v.graph.nodes == w.graph.nodes[id := v.graph.nodes[id]];
    assert v.graph.events[..|w.graph.events|] == w.graph.events;
    EndingAssessStep(col, w, v, id);
  }

  lemma GrowthEvolves(col: Collaborators, g: Graph, h: Graph, id: Id, e: Event)
    requires id in g.nodes && g.nodes[id].status.Pending? && g.nodes[id].children == []
    requires id in h.nodes && h.nodes[id] == g.nodes[id].(children := h.nodes[id].children, status := Waiting)
    requires forall x :: x in g.nodes && x != id ==> x in h.nodes && h.nodes[x] == g.nodes[x]
    requires forall x :: x in h.nodes && x !in g.nodes ==> NodeAppears(col.retryPolicy, h.nodes[x])
    requires h == g.(nodes := h.nodes, events := g.events + [e]) && Quiet(e)
    ensures Evolves(col, g, h)
  {
    assert h.events[..|g.events|] == g.events;
  }

  lemma ExpandAssessedOnly(w: World, id: Id, specs: seq<ChildSpec>)
    requires Decomposable(w.graph, id, specs)
    requires Grown(w.graph, Decompose(w.graph, id, specs), id, specs)
    requires |Decompose(w.graph, id, specs).nodes| > |w.graph.nodes|
    ensures AssessedOnly(w, Expand(w, id, specs), id)
  {
    hide Decompose, SpecsOk, HoldsChild;
    var g := Decompose(w.graph, id, specs);
    forall x | x in g.nodes && x !in w.graph.nodes ensures g.nodes[x].status.Pending? && g.nodes[x].attempts == 0 {
      NewNode(w.graph, g, id, specs, x);
    }
  }

  lemma ExpandAssessStep(col: Collaborators, w: World, id: Id, specs: seq<ChildSpec>)
    requires WorldOk(w) && Decomposable(w.graph, id, specs)
    ensures AssessStep(col, w, Expand(w, id, specs), id)
  {
    hide Evolves, Follows, Decompose, SpecsOk, HoldsChild, Inv, AssessedOnly;
    DecomposeKeepsInv(w.graph, id, specs);
    PendingIsChildless(w.graph, id);
    var g := Decompose(w.graph, id, specs);
    var e := Decomposed(id, g.nodes[id].children);
    forall x | x in g.nodes && x !in w.graph.nodes ensures NodeAppears(col.retryPolicy, g.nodes[x]) {
      NewNode(w.graph, g, id, specs, x);
    }
    GrowthEvolves(col, w.graph, Log(w.(graph := g), e).graph, id, e);
    FollowsStep(col, w, Expand(w, id, specs));
    LogKeeps(World(g, w.calls, w.saves), e);
    ExpandAssessedOnly(w, id, specs);
  }

  lemma PendingIsChildless(g: Graph, id: Id)
    requires Inv(g) && id in g.nodes && g.nodes[id].status.Pending?
    ensures g.nodes[id].children == []
  {
    assert StatusOk(g, id);
  }

  lemma ActOnStep(col: Collaborators, w: World, id: Id, d: Decision)
    requires WorldOk(w) && IsCandidate(w.graph, id) && w.graph.nodes[id].status.Pending?
    requires forall s :: s in d.children ==> DotFree(s.key)
    ensures AssessStep(col, w, ActOn(w, id, d), id)
  {
    hide WorldOk, AssessStep, SpecsOk;
    if d.isAtomic {
      if d.children == [] {
        ReadyAssessStep(col, w, id, d.leaf);
      } else {
        EndAssessStep(col, w, id, Failed, AtomicHasChildren);
      }
    } else if d.leaf.Some? {
      EndAssessStep(col, w, id, Failed, LeafContractOnParent);
    } else if d.children == [] {
      EndAssessStep(col, w, id, Blocked, NoChildren);
    } else if w.graph.nodes[id].depth >= w.graph.budget.maxDepth {
      EndAssessStep(col, w, id, Blocked, DepthExhausted);
    } else if |w.graph.nodes| + |d.children| > w.graph.budget.maxNodes {
      EndAssessStep(col, w, id, Blocked, NodesExhausted);
    } else if !SpecsOk(d.children) {
      EndAssessStep(col, w, id, Failed, ContractViolated);
    } else {
      ExpandAssessStep(col, w, id, d.children);
    }
  }

  lemma AssessStepAfterLog(col: Collaborators, w: World, u: World, v: World, id: Id)
    requires id in w.graph.nodes && u.graph.nodes == w.graph.nodes
    requires WorldOk(w) && Moves(col, w, u, []) && AssessStep(col, u, v, id)
    ensures WorldOk(v) && Follows(col, w, v) && v.calls == u.calls && AssessedOnly(w, v, id)
  {
    FollowsTrans(col, w, u, v);
  }

  lemma AssessedAdds(col: Collaborators, w: World, v: World, id: Id, answer: AssessAnswer)
    requires PortsOk(w) && id in w.graph.nodes && w.graph.nodes[id].status.Pending?
    requires Follows(col, w, v) && v.calls == w.calls + [AssessCall(id, w.graph, answer)] && AssessedOnly(w, v, id)
    ensures PortsOk(v)
  {
    CallsAppend(w.calls, AssessCall(id, w.graph, answer));
    forall i | 0 <= i < |w.calls| && w.calls[i].AssessCall?
      ensures w.calls[i].node != id && Past(v.graph, w.calls[i].node)
    {
      assert Past(w.graph, w.calls[i].node);
    }
  }

  /** Assessing a pending candidate keeps the world sound, uses one assessment, and moves on. */
  lemma AssessNodeEffect(col: Collaborators, t: nat, w: World, id: Id)
    requires WorldOk(w) && PortsOk(w) && DotFreeAnswers(col)
    requires IsCandidate(w.graph, id) && w.graph.nodes[id].status.Pending?
    ensures var v := AssessNode(col, t, w, id);
            && WorldOk(v) && PortsOk(v) && Follows(col, w, v) && AssessedOnly(w, v, id)
            && v.calls == w.calls + [AssessCall(id, w.graph, col.assess(t, w, id))]
  {
    hide WorldOk, Evolves, Follows, PortsOk, AssessedOnly;
    var asked := Call(w, AssessCall(id, w.graph, col.assess(t, w, id)));
    var v := AssessNode(col, t, w, id);
    SameWorldOk(w, asked);
    match col.assess(t, w, id) {
      case AssessRaised =>
        EndAssessStep(col, asked, id, Failed, DecomposerRaised);
        MovesNothing(col, asked, []);
        AssessStepAfterLog(col, asked, asked, v, id);
      case Decided(d) =>
        var u := Log(asked, Assessed(id, d.isAtomic));
        LogMoves(col, asked, Assessed(id, d.isAtomic), []);
        LogKeeps(asked, Assessed(id, d.isAtomic));
        ActOnStep(col, u, id, d);
        AssessStepAfterLog(col, asked, u, v, id);
    }
    SameAssessed(w, asked, v, id);
    FollowsFromSame(col, w, asked, v);
    AssessedAdds(col, w, v, id, col.assess(t, w, id));
  }

  lemma SameWorldOk(w: World, v: World)
    requires WorldOk(w) && v.graph == w.graph && v.saves == w.saves
    ensures WorldOk(v)
  {
  }

  lemma FollowsFromSame(col: Collaborators, w: World, x: World, v: World)
    requires Follows(col, x, v) && w.graph == x.graph && w.saves == x.saves
    ensures Follows(col, w, v)
  {
    hide Evolves;
  }

  lemma SameAssessed(w: World, u: World, v: World, id: Id)
    requires id in w.graph.nodes && u.graph == w.graph && AssessedOnly(u, v, id)
    ensures AssessedOnly(w, v, id)
  {
  }
}
