/** What each step of the scheduler decides, case by case: which task it takes up, what an assessment makes of it, who
    is admitted, started or refused, and how a run begins and ends. */
module StepOutcomes {
  import opened Options
  import opened Order
  import opened Strings
  import opened Claims
  import opened TaskModel
  import opened DecompositionGraph
  import opened GraphInvariant
  import opened GraphGrowth
  import opened Propagation
  import opened Parallel
  import opened Retry
  import opened SchedulerSteps
  import opened SchedulerSafety
  import opened Scheduler

  // ---- Which task is taken up --------------------------------------------------------------------

  /** Candidates come shallow first, and in the order of their ids within one depth; none comes twice. */
  lemma CandidatesAreOrdered(g: Graph, i: nat, j: nat)
    requires i < j < |CandidateNodes(g)|
    ensures var a, b := CandidateNodes(g)[i], CandidateNodes(g)[j];
            && a in g.nodes && b in g.nodes && a != b
            && (g.nodes[a].depth < g.nodes[b].depth || (g.nodes[a].depth == g.nodes[b].depth && LexLe(a, b)))
  {
    var c := CandidateNodes(g);
    assert c[i] in c && c[j] in c;
    assert NodeOrder(g)(c[i], c[j]);
  }

  /** The first pending candidate is assessed, if there is one; with a single slot only the very first candidate is
      looked at. */
  lemma {:induction false} FirstPendingDecides(g: Graph, candidates: seq<Id>)
    requires forall id :: id in candidates ==> id in g.nodes
    ensures var task := FirstPending(g, candidates);
            && (task.None? <==> forall k :: 0 <= k < |candidates| ==> !g.nodes[candidates[k]].status.Pending?)
            && (task.Some? ==> exists k :: 0 <= k < |candidates| && task.value == candidates[k]
                                           && g.nodes[candidates[k]].status.Pending?
                                           && forall j :: 0 <= j < k ==> !g.nodes[candidates[j]].status.Pending?)
  {
    if candidates == [] {
    } else {
      var rest := candidates[1..];
      FirstPendingDecides(g, rest);
      assert forall k :: 0 < k < |candidates| ==> candidates[k] == rest[k - 1];
      assert forall k :: 0 <= k < |rest| ==> rest[k] == candidates[k + 1];
      if !g.nodes[candidates[0]].status.Pending? && FirstPending(g, rest).Some? {
        var k :| 0 <= k < |rest| && FirstPending(g, rest).value == rest[k] && g.nodes[rest[k]].status.Pending?
                 && forall j :: 0 <= j < k ==> !g.nodes[rest[j]].status.Pending?;
        assert candidates[k + 1] == rest[k];
      }
    }
  }

  /** A leaf may run beside others exactly when the policy has more than one slot, all its capabilities are known to be
      safe, it names at least one, and it claims something to write if any of them mutates. */
  lemma ParallelMeans(policy: SchedulerPolicy, g: Graph, id: Id)
    requires id in g.nodes
    ensures var capabilities := g.nodes[id].contract.capabilities;
            AllowsParallel(policy, g, id) <==>
            && policy.maxParallel > 1 && capabilities != []
            && (forall c :: c in capabilities ==> c in policy.safe)
            && ((exists c :: c in capabilities && c in policy.mutating) ==>
                  exists r :: Claim(r, Write) in policy.ClaimsFor(id))
  {
    var capabilities := g.nodes[id].contract.capabilities;
    var set_ := Elements(capabilities);
    assert capabilities != [] ==> capabilities[0] in set_;
    assert forall c :: c in capabilities && c in policy.mutating <==> c in set_ * policy.mutating;
    if c :| c in policy.ClaimsFor(id) && c.mode == Write {
      assert c == Claim(c.resource, Write);
    }
  }

  /** The ready candidates keep their order. */
  lemma {:induction false} ReadyInOrder(g: Graph, candidates: seq<Id>)
    ensures IsSubsequence(ReadyOf(g, candidates), candidates)
    ensures candidates != [] && candidates[0] in g.nodes && g.nodes[candidates[0]].status.Ready? ==>
              ReadyOf(g, candidates) != [] && ReadyOf(g, candidates)[0] == candidates[0]
  {
    if candidates == [] {
    } else {
      var init, id := candidates[..|candidates| - 1], candidates[|candidates| - 1];
      ReadyInOrder(g, init);
      var r := ReadyOf(g, init);
      assert (r + [id])[..|r|] == r && r + [] == r;
    }
  }

  /** With one slot the first candidate is assessed if it is pending, and executed alone if it is ready. With more, the
      first pending candidate is assessed; only when none is pending the ready ones are executed, as the batch chosen
      from them. */
  ghost predicate TakesUp(col: Collaborators, t: nat, u: World, v: World, c: seq<Id>)
    requires c != [] && forall id :: id in c ==> id in u.graph.nodes
  {
    var nodes := u.graph.nodes;
    if col.policy.maxParallel == 1 then
      v == if nodes[c[0]].status.Pending? then AssessNode(col, t, u, c[0]) else ExecuteBatch(col, t, u, [c[0]])
    else if exists k :: 0 <= k < |c| && nodes[c[k]].status.Pending? then
      exists k :: 0 <= k < |c| && nodes[c[k]].status.Pending?
                  && (forall j :: 0 <= j < k ==> !nodes[c[j]].status.Pending?)
                  && v == AssessNode(col, t, u, c[k])
    else
      ReadyOf(u.graph, c) != [] && v == ExecuteBatch(col, t, u, GreedyBatch(col.policy, u.graph, ReadyOf(u.graph, c)))
  }

  lemma FirstOfOne(g: Graph, id: Id)
    requires id in g.nodes
    ensures FirstPending(g, [id]) == if g.nodes[id].status.Pending? then Some(id) else None
  {
    assert [id][1..] == [];
  }

  lemma OneSlotTakesUp(col: Collaborators, t: nat, u: World, changed: bool, c: seq<Id>)
    requires u.graph.rootId in u.graph.nodes && c == CandidateNodes(u.graph) != [] && col.policy.maxParallel == 1
    requires forall id :: id in c ==>
               id in u.graph.nodes && (u.graph.nodes[id].status.Pending? || u.graph.nodes[id].status.Ready?)
    ensures TakesUp(col, t, u, Proceed(col, t, u, changed), c)
  {
    hide AssessNode, ExecuteBatch, CandidateNodes, FirstPending, GreedyBatch;
    assert c[0] in c;
    FirstOfOne(u.graph, c[0]);
    NoPendingMeansReady(col.policy, u.graph, c);
    ReadyInOrder(u.graph, c);
    if !u.graph.nodes[c[0]].status.Pending? {
      OneSlotTakesOne(col.policy, u.graph, ReadyOf(u.graph, c));
    }
  }

  lemma MoreSlotsTakeUp(col: Collaborators, t: nat, u: World, changed: bool, c: seq<Id>)
    requires u.graph.rootId in u.graph.nodes && c == CandidateNodes(u.graph) != [] && col.policy.maxParallel != 1
    requires forall id :: id in c ==>
               id in u.graph.nodes && (u.graph.nodes[id].status.Pending? || u.graph.nodes[id].status.Ready?)
    ensures TakesUp(col, t, u, Proceed(col, t, u, changed), c)
  {
    hide AssessNode, ExecuteBatch, CandidateNodes, FirstPending, GreedyBatch, ReadyOf;
    NoPendingMeansReady(col.policy, u.graph, c);
    FirstPendingDecides(u.graph, c);
  }

  lemma ProceedTakesUp(col: Collaborators, t: nat, u: World, changed: bool)
    requires u.graph.rootId in u.graph.nodes && CandidateNodes(u.graph) != []
    ensures forall id :: id in CandidateNodes(u.graph) ==> id in u.graph.nodes
    ensures TakesUp(col, t, u, Proceed(col, t, u, changed), CandidateNodes(u.graph))
  {
    hide CandidateNodes, Proceed, TakesUp;
    CandidatesAreNodes(u.graph);
    if col.policy.maxParallel == 1 {
      OneSlotTakesUp(col, t, u, changed, CandidateNodes(u.graph));
    } else {
      MoreSlotsTakeUp(col, t, u, changed, CandidateNodes(u.graph));
    }
  }

  /** An iteration whose pass ends the root does nothing more; otherwise there are candidates, and one or more of them
      are taken up. */
  lemma IterationDecides(col: Collaborators, t: nat, w: World)
    requires ColOk(col) && Safe(w) && !RootEnded(w.graph)
    ensures Tree(w.graph)
    ensures var u, v := Passed(col, t, w), Iterate(col, t, w);
            var c := CandidateNodes(u.graph);
            if RootEnded(u.graph) then v == u
            else c != [] && (forall id :: id in c ==> id in u.graph.nodes) && TakesUp(col, t, u, v, c)
  {
    hide Inv, PortsOk, NoRunning, Follows, VisitAll, Advances, CandidateNodes, TakesUp, Proceed, OnlyEnds;
    TreeOf(w);
    IterateAdvances(col, t, w);
    PassAdvances(col, t, w);
    var u := Passed(col, t, w);
    OrderOfPass(col, t, w.graph);
    PassKeepsRoot(col, t, w, col.order(t, w.graph));
    if !RootEnded(u.graph) {
      RootIsNode(u);
      ProceedTakesUp(col, t, u, |u.graph.events| > |w.graph.events|);
    }
  }

  lemma RootIsNode(w: World)
    requires Safe(w)
    ensures w.graph.rootId in w.graph.nodes
  {
  }

  lemma CandidatesAreNodes(g: Graph)
    ensures forall id :: id in CandidateNodes(g) ==>
              id in g.nodes && (g.nodes[id].status.Pending? || g.nodes[id].status.Ready?)
  {
  }

  lemma OneSlotTakesOne(policy: SchedulerPolicy, g: Graph, ready: seq<Id>)
    requires policy.maxParallel == 1 && ready != [] && forall id :: id in ready ==> id in g.nodes
    ensures GreedyBatch(policy, g, ready) == [ready[0]]
  {
  }

  // ---- Assessing ---------------------------------------------------------------------------------

  /** Decomposing a task gives each proposed child its id below the task, the contract proposed for it, its dependencies
      among its siblings, and nothing done so far; the task waits for exactly these children, in order. No other task is
      touched, and none of the ids was taken. */
  lemma ChildrenAreInserted(w: World, id: Id, specs: seq<ChildSpec>)
    requires WorldOk(w) && Decomposable(w.graph, id, specs)
    ensures var g, h := w.graph.nodes, Expand(w, id, specs).graph.nodes;
            && id in h && h[id] == g[id].(status := Waiting, children := h[id].children) && |h[id].children| == |specs|
            && (forall x :: x in g && x != id ==> x in h && h[x] == g[x])
            && (forall x :: x in h ==> x in g || x in h[id].children)
            && forall i :: 0 <= i < |specs| ==>
                 var c := id + "." + specs[i].key;
                 && h[id].children[i] == c && c !in g && c in h
                 && |h[c].deps| == |specs[i].dependsOn|
                 && (forall k :: 0 <= k < |h[c].deps| ==> h[c].deps[k] == id + "." + specs[i].dependsOn[k])
                 && h[c] == Node(Some(id), specs[i].contract, h[c].deps, [], Pending, g[id].depth + 1, 0, 0, None,
                                 None, None)
  {
    hide Decompose, SpecsOk, Inv;
    InvParts(w.graph);
    DecomposeGrows(w.graph, id, specs);
    var h := Decompose(w.graph, id, specs);
    forall i | 0 <= i < |specs|
      ensures var c := id + "." + specs[i].key;
              && c in h.nodes && c !in w.graph.nodes && h.nodes[id].children[i] == c
              && h.nodes[c] == ChildNode(id, w.graph.nodes[id].depth + 1, specs[i])
    {
      assert HoldsChild(w.graph, h, id, specs[i]);
      assert ChildIds(id, Keys(specs))[i] in ChildIds(id, Keys(specs));
    }
  }

  lemma InvParts(g: Graph)
    requires Inv(g)
    ensures Tree(g) && Named(g) && Statuses(g)
  {
  }

  /** What an assessment decides about a pending task, and the error it leaves. An accepted leaf takes the contract
      proposed for it, with the metadata of the task where the proposal says nothing. */
  lemma AssessmentDecides(col: Collaborators, t: nat, w: World, id: Id)
    requires id in w.graph.nodes && w.graph.nodes[id].status.Pending?
    ensures id in AssessNode(col, t, w, id).graph.nodes
    ensures var n, v, answer := w.graph.nodes[id], AssessNode(col, t, w, id), col.assess(t, w, id);
            var m := v.graph.nodes[id];
            && |v.saves| == |w.saves| + 1 && v.saves[|w.saves|] == v.graph
            && (!m.status.Waiting? ==> v.graph.nodes == w.graph.nodes[id := m])
            && if answer.AssessRaised? then m == n.(status := Failed, error := Some(DecomposerRaised))
               else
                 var d := answer.decision;
                 if d.isAtomic then
                   if d.children != [] then m == n.(status := Failed, error := Some(AtomicHasChildren))
                   else
                     m == n.(status := Ready,
                             contract := if d.leaf.None? then n.contract
                                         else Contract(d.leaf.value.goal, d.leaf.value.criteria,
                                                       d.leaf.value.capabilities,
                                                       n.contract.metadata + d.leaf.value.metadata))
                 else if d.leaf.Some? then m == n.(status := Failed, error := Some(LeafContractOnParent))
                 else if d.children == [] then m == n.(status := Blocked, error := Some(NoChildren))
                 else if n.depth >= w.graph.budget.maxDepth then m == n.(status := Blocked, error := Some(DepthExhausted))
                 else if |w.graph.nodes| + |d.children| > w.graph.budget.maxNodes then
                   m == n.(status := Blocked, error := Some(NodesExhausted))
                 else if !SpecsOk(d.children) then m == n.(status := Failed, error := Some(ContractViolated))
                 else m.status.Waiting? && v.graph.nodes == Expand(w, id, d.children).graph.nodes
  {
    hide SpecsOk, AddChildren;
    var answer := col.assess(t, w, id);
    if answer.Decided? && !answer.decision.isAtomic {
      SameInsertion(w, Log(Call(w, AssessCall(id, w.graph, answer)), Assessed(id, false)), id, answer.decision.children);
    }
  }

  /** What an assessment adds to the log, from what the task was and has become. */
  function AssessmentLog(answer: AssessAnswer, id: Id, m: Node): seq<Event> {
    if answer.AssessRaised? then [TaskFailed(id)]
    else
      [Assessed(id, answer.decision.isAtomic)] +
      if m.status.Ready? && answer.decision.leaf.Some? then [LeafContractApplied(id)]
      else if m.status.Waiting? then [Decomposed(id, m.children)]
      else if m.status.Failed? && m.error == Some(ContractViolated) then [TaskFailed(id)]
      else []
  }

  lemma AssessmentIsLogged(col: Collaborators, t: nat, w: World, id: Id)
    requires id in w.graph.nodes && w.graph.nodes[id].status.Pending?
    ensures var v := AssessNode(col, t, w, id);
            && id in v.graph.nodes
            && v.graph.events == w.graph.events + AssessmentLog(col.assess(t, w, id), id, v.graph.nodes[id])
  {
    hide SpecsOk, AddChildren;
    var answer, v := col.assess(t, w, id), AssessNode(col, t, w, id);
    if answer.Decided? {
      var e := Assessed(id, answer.decision.isAtomic);
      var u := Log(Call(w, AssessCall(id, w.graph, answer)), e);
      SameInsertion(w, u, id, answer.decision.children);
      if v.graph.events == u.graph.events {
        assert [e] + [] == [e];
      } else {
        var f := v.graph.events[|v.graph.events| - 1];
        assert u.graph.events + [f] == w.graph.events + ([e] + [f]);
      }
    }
  }

  /** The events in the log play no part in what is inserted. */
  lemma SameInsertion(w: World, u: World, id: Id, specs: seq<ChildSpec>)
    requires id in w.graph.nodes && u.graph.nodes == w.graph.nodes
    ensures Expand(w, id, specs).graph.nodes == Expand(u, id, specs).graph.nodes
    ensures var v := Expand(u, id, specs);
            v.graph.events == u.graph.events + [Decomposed(id, v.graph.nodes[id].children)]
  {
    SameChildren(w.graph, u.graph, id, specs);
  }

  lemma {:induction false} SameChildren(g: Graph, h: Graph, id: Id, specs: seq<ChildSpec>)
    requires id in g.nodes && g.nodes == h.nodes
    ensures AddChildren(g, id, specs).nodes == AddChildren(h, id, specs).nodes
    ensures AddChildren(h, id, specs).events == h.events
  {
    if specs == [] {
    } else {
      SameChildren(g, h, id, specs[..|specs| - 1]);
    }
  }

  // ---- Starting and refusing leaves --------------------------------------------------------------

  /** A leaf is started while the execution budget lasts: one attempt and one execution are counted, logged and saved.
      Otherwise it is blocked, and nothing is counted. */
  lemma StartDecides(w: World, id: Id)
    requires id in w.graph.nodes
    ensures var g, n, r := w.graph, w.graph.nodes[id], StartLeaf(w, id);
            var h := r.0.graph;
            && (r.1 <==> g.leafExecutions < g.budget.maxLeafExecutions)
            && r.0.calls == w.calls && r.0.saves == w.saves + [h]
            && h == g.(nodes := g.nodes[id := h.nodes[id]], leafExecutions := h.leafExecutions, events := h.events)
            && (r.1 ==>
                  && h.nodes[id] == n.(status := Running, attempts := n.attempts + 1)
                  && h.leafExecutions == g.leafExecutions + 1 && h.events == g.events + [LeafStarted(id)])
            && (!r.1 ==>
                  && h.nodes[id] == n.(status := Blocked, error := Some(ExecutionsExhausted))
                  && h.leafExecutions == g.leafExecutions && h.events == g.events)
  {
  }

  /** Contention for a lease counts as a result that asks for a retry, if the policy has a key for the leaf; any other
      refusal, and any leaf without a key, is blocked with the reason given. */
  ghost predicate Refused(col: Collaborators, n: Node, m: Node, id: Id, reason: Reason, contention: bool) {
    if contention && col.retryPolicy.Some? && id in col.retryPolicy.value.keys then
      && m.attempts == n.attempts && (m.status.Ready? || m.status.Blocked?)
      && m.result == Some(LeafResult(Stuck, "resource_lease_unavailable", Some("resource_lease_unavailable"),
                                     Some(RetryRequest("resource_lease_contention", col.retryPolicy.value.keys[id]))))
      && (m.status.Blocked? ==> m.error == Some(Reported("resource_lease_unavailable")))
    else
      m == n.(status := Blocked, error := Some(reason))
  }

  lemma RefusalDecides(col: Collaborators, t: nat, w: World, id: Id, reason: Reason, contention: bool)
    requires id in w.graph.nodes
    ensures var v := RefuseLeaf(col, t, w, id, reason, contention);
            id in v.graph.nodes && Refused(col, w.graph.nodes[id], v.graph.nodes[id], id, reason, contention)
  {
    hide ApplyLeafResult, RetryGoesAhead, NoteResult;
    if contention && col.retryPolicy.Some? && id in col.retryPolicy.value.keys {
      LeafDecides(col, t, w, id, Contention(col.retryPolicy.value.keys[id]), false);
    }
  }

  lemma {:induction false} RefusalsDecide(col: Collaborators, t: nat, w: World, ids: seq<Id>, reason: Reason,
                                          contention: bool)
    requires WorldOk(w) && AllReady(w, ids) && RetryPolicyOk(col.retryPolicy)
    ensures var v := RefuseAll(col, t, w, ids, reason, contention);
            forall id :: id in ids ==>
              id in v.graph.nodes && Refused(col, w.graph.nodes[id], v.graph.nodes[id], id, reason, contention)
  {
    hide RefuseLeaf, WorldOk, Moves, Refused;
    if ids == [] {
    } else {
      DistinctInit(ids);
      var init, id := ids[..|ids| - 1], ids[|ids| - 1];
      RefusalsDecide(col, t, w, init, reason, contention);
      RefuseAllEffect(col, t, w, init, reason, contention);
      var u := RefuseAll(col, t, w, init, reason, contention);
      MovesSound(col, w, u, init);
      MovesFrame(col, w, u, init);
      RefuseLeafResolves(col, t, u, id, reason, contention);
      var v := RefuseLeaf(col, t, u, id, reason, contention);
      ResolvedMoves(col, u, v, id);
      MovesFrame(col, u, v, [id]);
      RefusalDecides(col, t, u, id, reason, contention);
    }
  }

  /** A batch that gets no lease, or whose heartbeat does not start, refuses every leaf: on contention with a retry for
      those that may have one, otherwise with what went wrong. The outcome is saved. */
  lemma RefusedBatchDecides(col: Collaborators, t: nat, w: World, ids: seq<Id>, claims: seq<Claim>, answer: LeaseAnswer)
    requires WorldOk(w) && AllReady(w, ids) && RetryPolicyOk(col.retryPolicy)
    requires !(answer.Granted? && answer.heartbeatStarts)
    ensures var v := WithLease(col, t, w, ids, claims, answer);
            var reason := match answer
              case AcquireRaised(text) => LeaseBroken(text)
              case Denied(conflicts) => LeaseRefused(conflicts)
              case Granted(_, _, _) => LeaseBroken("heartbeat");
            && (forall id :: id in ids ==>
                  id in v.graph.nodes
                  && Refused(col, w.graph.nodes[id], v.graph.nodes[id], id, reason,
                             answer.Denied? && answer.conflicts != []))
            && |v.saves| > 0 && v.saves[|v.saves| - 1] == v.graph
  {
    hide WorldOk, RefuseAll, Refused, Moves;
    match answer
    case AcquireRaised(text) => RefusalsDecide(col, t, w, ids, LeaseBroken(text), false);
    case Denied(conflicts) => RefusalsDecide(col, t, w, ids, LeaseRefused(conflicts), conflicts != []);
    case Granted(_, _, _) =>
      HoldingMoves(col, w, ids, claims);
      var held := Holding(w, ids, claims);
      var freed := Call(held, LeaseReleased);
      MovesSameGraph(col, w, held, freed, ids);
      MovesSound(col, w, freed, ids);
      RefusalsDecide(col, t, freed, ids, LeaseBroken("heartbeat"), false);
  }

  // ---- How a run begins and ends -----------------------------------------------------------------

  /** A run first logs and saves whether it starts or resumes, and last logs and saves its outcome. The reason it gives
      is the root's error, or failing that the summary of its result. */
  lemma RunReports(col: Collaborators, w: World)
    requires ColOk(col) && Safe(w)
    ensures RootEnded(Run(col, w).graph)
    ensures var v := Run(col, w);
            var root, events, saves := v.graph.nodes[v.graph.rootId], v.graph.events, v.saves;
            && |events| > |w.graph.events| && |saves| > |w.saves|
            && events[|w.graph.events|] == (if w.graph.events == [] then GraphStarted else GraphResumed)
            && saves[|w.saves|] == w.graph.(events := w.graph.events + [events[|w.graph.events|]])
            && events[|events| - 1] == GraphFinished(root.status, v.graph.stopReason)
            && saves[|saves| - 1] == v.graph
            && (root.error.Some? ==> v.graph.stopReason == root.error)
            && (root.error.None? && root.result.Some? ==> v.graph.stopReason == Some(Reported(root.result.value.summary)))
  {
    hide Inv, PortsOk, NoRunning, RunFrom, Evolves;
    RunIsSafe(col, w);
    LogIsSafe(w, if w.graph.events == [] then GraphStarted else GraphResumed);
    RunFromEffect(col, 0, Begin(w));
    var b, u := Begin(w), RunFrom(col, 0, Begin(w));
    FollowsEvolves(col, b, u);
    EventsKept(col, b.graph, u.graph);
    assert u.saves[..|b.saves|][|w.saves|] == b.saves[|w.saves|];
  }

  lemma EventsKept(col: Collaborators, g: Graph, h: Graph)
    requires Evolves(col, g, h)
    ensures |g.events| <= |h.events| && forall i :: 0 <= i < |g.events| ==> h.events[i] == g.events[i]
  {
    hide RetryTimed, Authorised;
    forall i | 0 <= i < |g.events| ensures h.events[i] == g.events[i] {
      assert h.events[..|g.events|][i] == h.events[i];
    }
  }

  // ---- Everything is saved -----------------------------------------------------------------------

  /** What was saved last is the graph as it stands. */
  predicate Stored(w: World) {
    w.saves != [] && w.saves[|w.saves| - 1] == w.graph
  }

  lemma {:induction false} PassStores(col: Collaborators, t: nat, w: World, order: seq<Id>)
    requires Stored(w) && forall id :: id in order ==> id in w.graph.nodes
    ensures Stored(VisitAll(col, t, w, order))
  {
    if order == [] {
    } else {
      PassStores(col, t, w, order[..|order| - 1]);
    }
  }

  lemma AssessmentStores(col: Collaborators, t: nat, w: World, id: Id)
    requires id in w.graph.nodes
    ensures Stored(AssessNode(col, t, w, id))
  {
    hide SpecsOk, AddChildren;
  }

  /** Admission may leave requests in the log unsaved, but only if some leaf is about to be started. */
  lemma {:induction false} AdmissionStores(col: Collaborators, t: nat, w: World, ids: seq<Id>)
    requires Stored(w) && forall id :: id in ids ==> id in w.graph.nodes
    ensures var r := AdmitAll(col, t, w, ids);
            Stored(r.0) || r.1 != []
  {
    hide AdmitLeaf;
    if ids == [] {
    } else {
      AdmissionStores(col, t, w, ids[..|ids| - 1]);
      AdmitDecides(col, t, AdmitAll(col, t, w, ids[..|ids| - 1]).0, ids[|ids| - 1]);
    }
  }

  lemma OperateStores(col: Collaborators, t: nat, w: World, ids: seq<Id>)
    requires (Stored(w) || ids != []) && forall id :: id in ids ==> id in w.graph.nodes
    ensures Stored(Operate(col, t, w, ids).0)
  {
  }

  lemma {:induction false} ResultsStore(col: Collaborators, t: nat, w: World, ids: seq<Id>, results: map<Id, LeafResult>)
    requires Stored(w) && forall id :: id in ids ==> id in w.graph.nodes && id in results
    ensures Stored(ApplyAll(col, t, w, ids, results))
  {
    hide LeafOutcome;
    if ids == [] {
    } else {
      ResultsStore(col, t, w, ids[..|ids| - 1], results);
    }
  }

  lemma LeaseStores(col: Collaborators, t: nat, w: World, ids: seq<Id>, claims: seq<Claim>, answer: LeaseAnswer)
    requires forall id :: id in ids ==> id in w.graph.nodes
    ensures Stored(WithLease(col, t, w, ids, claims, answer))
  {
    hide RefuseAll, Operate, ApplyAll;
    if answer.Granted? && answer.heartbeatStarts {
      var held := Holding(w, ids, claims);
      var ran := Operate(col, t, held, ids);
      OperateStores(col, t, held, ids);
      SortedKeys(ran.1);
      ResultsStore(col, t, Call(ran.0, LeaseReleased), SortStrings(ran.1.Keys),
                   Lifecycle(ran.1, answer.heartbeatError, answer.releaseError));
    }
  }

  lemma BatchStores(col: Collaborators, t: nat, w: World, selected: seq<Id>)
    requires Stored(w) && forall id :: id in selected ==> id in w.graph.nodes
    ensures Stored(ExecuteBatch(col, t, w, selected))
  {
    hide AdmitAll, WithLease, Operate, ApplyAll, Merge, ClaimsOf;
    AdmissionStores(col, t, w, selected);
    var admitted := AdmitAll(col, t, w, selected);
    var u, ids := admitted.0, admitted.1;
    LeaseStores(col, t, u, ids, Merge(ClaimsOf(col.policy, ids)), col.lease(t, u, ids));
    var ran := Operate(col, t, u, ids);
    OperateStores(col, t, u, ids);
    SortedKeys(ran.1);
    ResultsStore(col, t, ran.0, SortStrings(ran.1.Keys), ran.1);
  }

  lemma ProceedStores(col: Collaborators, t: nat, u: World, changed: bool)
    requires Stored(u) && u.graph.rootId in u.graph.nodes
    ensures Stored(Proceed(col, t, u, changed))
  {
    hide CandidateNodes, SelectPending, ReadyOf, GreedyBatch, AssessNode, ExecuteBatch;
    var c := CandidateNodes(u.graph);
    if c != [] {
      CandidatesAreNodes(u.graph);
      NoPendingMeansReady(col.policy, u.graph, c);
      match SelectPending(col.policy, u.graph, c)
      case Some(id) => AssessmentStores(col, t, u, id);
      case None => BatchStores(col, t, u, GreedyBatch(col.policy, u.graph, ReadyOf(u.graph, c)));
    }
  }

  lemma IterationStores(col: Collaborators, t: nat, w: World)
    requires ColOk(col) && Safe(w) && Stored(w)
    ensures Tree(w.graph) && Stored(Iterate(col, t, w))
  {
    hide VisitAll, Proceed, ColOk, PortsOk, NoRunning, Inv;
    TreeOf(w);
    OrderOfPass(col, t, w.graph);
    PassStores(col, t, w, col.order(t, w.graph));
    PassKeepsRoot(col, t, w, col.order(t, w.graph));
    RootIsNode(w);
    var u := Passed(col, t, w);
    if !RootEnded(u.graph) {
      ProceedStores(col, t, u, |u.graph.events| > |w.graph.events|);
    }
  }

  lemma {:induction false} ReachedIsStored(col: Collaborators, t: nat, w: World, k: nat)
    requires ColOk(col) && Safe(w) && Stored(w)
    ensures Stored(Reached(col, t, w, k))
    decreases k
  {
    hide Iterate, Stored, ColOk, Inv, PortsOk, NoRunning, Follows, Descends;
    if k == 0 || RootEnded(w.graph) {
    } else {
      IterateAdvances(col, t, w);
      IterationStores(col, t, w);
      ReachedIsStored(col, t + 1, Iterate(col, t, w), k - 1);
    }
  }

  /** Wherever a run has got to, the graph it last saved is the graph as it stands: who resumes a run that was cut off
      at the head of the loop has lost nothing. */
  lemma NothingIsLost(col: Collaborators, w: World, k: nat)
    requires ColOk(col) && Safe(w)
    ensures Safe(Begin(w))
    ensures var u := Reached(col, 0, Begin(w), k);
            |u.saves| > |w.saves| && u.saves[|u.saves| - 1] == u.graph
  {
    hide ColOk, Inv, PortsOk, NoRunning, Iterate;
    LogIsSafe(w, if w.graph.events == [] then GraphStarted else GraphResumed);
    ReachedIsStored(col, 0, Begin(w), k);
    ReachedSaves(col, 0, Begin(w), k);
  }

  lemma {:induction false} ReachedSaves(col: Collaborators, t: nat, w: World, k: nat)
    requires ColOk(col) && Safe(w)
    ensures |Reached(col, t, w, k).saves| >= |w.saves|
    decreases k
  {
    hide Iterate, ColOk, Inv, PortsOk, NoRunning, Evolves, Descends;
    if k == 0 || RootEnded(w.graph) {
    } else {
      IterateAdvances(col, t, w);
      TreeOf(w);
      ReachedSaves(col, t + 1, Iterate(col, t, w), k - 1);
    }
  }
}
