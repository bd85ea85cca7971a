/** What goes through the ports over a whole run: which questions the decomposer is asked, and that leaves run
    under the lease for their claims. */
module SchedulerCalls {
  import opened Options
  import opened TaskModel
  import opened GraphInvariant
  import opened Propagation
  import opened Parallel
  import opened SchedulerSteps
  import opened PortCalls
  import opened SchedulerSafety
  import opened Scheduler

  // ---- What one iteration asks --------------------------------------------------------------------

  /** The task the next iteration assesses. */
  ghost function NextTask(col: Collaborators, t: nat, w: World): Option<Id>
    requires ColOk(col) && Tree(w.graph)
  {
    var u := Passed(col, t, w);
    var candidates := CandidateNodes(u.graph);
    if RootEnded(u.graph) || candidates == [] then None else SelectPending(col.policy, u.graph, candidates)
  }

  /** An assessment logged with the answer the decomposer gives to that question. */
  ghost predicate ByDecomposer(col: Collaborators, c: PortCall) {
    c.AssessCall? ==>
      exists t: nat, w: World :: w.graph == c.graph && c.node in w.graph.nodes && c.answer == col.assess(t, w, c.node)
  }

  /** The new calls are assessments answered by the decomposer, and executions under a lease answered by the
      executor. */
  ghost predicate CallsOk(col: Collaborators, a: seq<PortCall>, b: seq<PortCall>) {
    a <= b && forall i {:trigger b[i]} :: |a| <= i < |b| ==> ByDecomposer(col, b[i]) && Proper(col, b, i)
  }

  lemma CallsOkChain(col: Collaborators, a: seq<PortCall>, b: seq<PortCall>, c: seq<PortCall>)
    requires CallsOk(col, a, b) && CallsOk(col, b, c)
    ensures CallsOk(col, a, c)
  {
    hide ByDecomposer, Proper;
    forall i | |a| <= i < |c| ensures ByDecomposer(col, c[i]) && Proper(col, c, i) {
      if i < |b| {
        assert c[i] == b[i];
        ProperLater(col, b, c, i);
      }
    }
  }

  lemma ExtendsIsOk(col: Collaborators, a: seq<PortCall>, b: seq<PortCall>)
    requires Extends(col, a, b)
    ensures CallsOk(col, a, b)
  {
    hide Proper;
    forall i | |a| <= i < |b| ensures ByDecomposer(col, b[i]) && Proper(col, b, i) {
      assert !b[i].AssessCall?;
    }
  }

  lemma NothingAssessed(col: Collaborators, a: seq<PortCall>, b: seq<PortCall>)
    requires Extends(col, a, b)
    ensures forall i :: |a| <= i < |b| ==> !b[i].AssessCall?
  {
    hide Proper;
  }

  lemma AssessmentIsOk(col: Collaborators, t: nat, w: World, id: Id)
    requires id in w.graph.nodes
    ensures CallsOk(col, w.calls, w.calls + [AssessCall(id, w.graph, col.assess(t, w, id))])
  {
    assert ByDecomposer(col, AssessCall(id, w.graph, col.assess(t, w, id)));
  }

  lemma CallsOkSame(col: Collaborators, a: seq<PortCall>)
    ensures CallsOk(col, a, a)
  {
  }

  lemma ProceedCalls(col: Collaborators, t: nat, u: World, changed: bool)
    requires ColOk(col) && Safe(u) && !RootEnded(u.graph) && AllSettled(u.graph)
    ensures u.graph.rootId in u.graph.nodes && CandidateNodes(u.graph) != []
    ensures var v, task := Proceed(col, t, u, changed), SelectPending(col.policy, u.graph, CandidateNodes(u.graph));
            && CallsOk(col, u.calls, v.calls)
            && (task.Some? ==> IsCandidate(u.graph, task.value) && u.graph.nodes[task.value].status.Pending?
                               && v.calls == u.calls + [AssessCall(task.value, u.graph, col.assess(t, u, task.value))])
            && (task.None? ==> forall i :: |u.calls| <= i < |v.calls| ==> !v.calls[i].AssessCall?)
  {
    hide CandidateNodes, PortsOk, Inv, AssessNode, ExecuteBatch, ReadyOf, GreedyBatch, SelectPending, AllReady, Moves,
         AssessedOnly, AllSettled, Follows, CallsOk, Extends;
    WorkExists(u.graph);
    TreeOf(u);
    var candidates := CandidateNodes(u.graph);
    NoPendingMeansReady(col.policy, u.graph, candidates);
    match SelectPending(col.policy, u.graph, candidates)
    case Some(id) =>
      AssessNodeEffect(col, t, u, id);
      AssessmentIsOk(col, t, u, id);
    case None =>
      SelectedAreReady(col, u);
      var ids := GreedyBatch(col.policy, u.graph, ReadyOf(u.graph, candidates));
      ExecuteBatchEffect(col, t, u, ids);
      ExtendsIsOk(col, u.calls, ExecuteBatch(col, t, u, ids).calls);
      NothingAssessed(col, u.calls, ExecuteBatch(col, t, u, ids).calls);
  }

  lemma IterateCalls(col: Collaborators, t: nat, w: World)
    requires ColOk(col) && Safe(w) && !RootEnded(w.graph)
    ensures var u, v, task := Passed(col, t, w), Iterate(col, t, w), NextTask(col, t, w);
            && CallsOk(col, w.calls, v.calls)
            && (task.Some? ==> Safe(u) && u.calls == w.calls && IsCandidate(u.graph, task.value)
                               && u.graph.nodes[task.value].status.Pending?
                               && v.calls == w.calls + [AssessCall(task.value, u.graph, col.assess(t, u, task.value))])
            && (task.None? ==> forall i :: |w.calls| <= i < |v.calls| ==> !v.calls[i].AssessCall?)
  {
    hide Follows, OnlyEnds, AllSettled, CandidateNodes, Safe, Proceed, SelectPending, CallsOk, IsCandidate;
    PassAdvances(col, t, w);
    TreeOfSafe(w);
    var u := Passed(col, t, w);
    CallsOkSame(col, w.calls);
    if !RootEnded(u.graph) {
      ProceedCalls(col, t, u, |u.graph.events| > |w.graph.events|);
    }
  }

  lemma {:induction false} RunFromCalls(col: Collaborators, t: nat, w: World)
    requires ColOk(col) && Safe(w)
    ensures CallsOk(col, w.calls, RunFrom(col, t, w).calls)
    decreases Room(w.graph), PendingIds(w.graph), OpenRetries(col, w.graph), ReadyIds(w.graph), LiveIds(w.graph)
  {
    hide Inv, PortsOk, NoRunning, Iterate, Follows, CallsOk;
    if RootEnded(w.graph) {
      CallsOkSame(col, w.calls);
    } else {
      IterateAdvances(col, t, w);
      RoomIsBounded(w);
      TreeOf(w);
      IterateCalls(col, t, w);
      var v := Iterate(col, t, w);
      RunFromCalls(col, t + 1, v);
      CallsOkChain(col, w.calls, v.calls, RunFrom(col, t + 1, v).calls);
    }
  }

  lemma TreeOfSafe(w: World)
    requires Safe(w)
    ensures Tree(w.graph)
  {
  }

  /** Each assessment in the calls is about another task. */
  ghost predicate AssessedOnce(calls: seq<PortCall>) {
    forall i, j :: 0 <= i < j < |calls| && calls[i].AssessCall? && calls[j].AssessCall? ==> calls[i].node != calls[j].node
  }

  lemma RunCalls(col: Collaborators, w: World)
    requires ColOk(col) && Safe(w)
    ensures CallsOk(col, w.calls, Run(col, w).calls) && AssessedOnce(Run(col, w).calls)
    ensures Safe(Begin(w)) && Run(col, w).calls == RunFrom(col, 0, Begin(w)).calls
  {
    hide Inv, NoRunning, Follows, ColOk, CallsOk;
    LogIsSafe(w, if w.graph.events == [] then GraphStarted else GraphResumed);
    RunIsSafe(col, w);
    RunFromCalls(col, 0, Begin(w));
    RunFromEffect(col, 0, Begin(w));
  }
}
