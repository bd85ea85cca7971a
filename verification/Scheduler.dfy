/** The scheduler loop: it never deadlocks, always ends, and what holds at the end of every run. */
module Scheduler {
  import opened Options
  import opened Order
  import opened TaskModel
  import opened GraphInvariant
  import opened Propagation
  import opened Parallel
  import opened Retry
  import opened SchedulerSteps
  import opened PortCalls
  import opened SchedulerSafety

  /** Policies within the bounds their constructors enforce, dot-free child keys, and visiting orders
      that put deeper nodes first. The answers are otherwise arbitrary. */
  ghost predicate ColOk(col: Collaborators) {
    && PolicyOk(col.policy) && RetryPolicyOk(col.retryPolicy) && DotFreeAnswers(col)
    && forall t, g {:trigger col.order(t, g)} :: Tree(g) ==> IsVisitOrder(g, col.order(t, g))
  }

  predicate RootEnded(g: Graph) {
    g.rootId in g.nodes && Terminal(g.nodes[g.rootId].status)
  }

  ghost predicate NoRunning(g: Graph) {
    forall id :: id in g.nodes ==> !g.nodes[id].status.Running?
  }

  /** What holds at the head of every loop iteration. */
  ghost predicate Safe(w: World) {
    WorldOk(w) && PortsOk(w) && NoRunning(w.graph)
  }

  // ---- One iteration -----------------------------------------------------------------------------

  function Deadlock(w: World): World
    requires w.graph.rootId in w.graph.nodes
  {
    var v := Conclude(w, w.graph.rootId, Blocked, Some(Deadlocked));
    Save(Log(v.(graph := v.graph.(stopReason := Some(Deadlocked))), GraphBlocked))
  }

  /** What follows a propagation pass that left the root waiting. */
  ghost function Proceed(col: Collaborators, t: nat, w: World, changed: bool): World
    requires w.graph.rootId in w.graph.nodes
  {
    var candidates := CandidateNodes(w.graph);
    if candidates == [] then
      if changed then w else Deadlock(w)
    else
      NoPendingMeansReady(col.policy, w.graph, candidates);
      match SelectPending(col.policy, w.graph, candidates)
      case Some(id) => AssessNode(col, t, w, id)
      case None =>
        ExecuteBatch(col, t, w, GreedyBatch(col.policy, w.graph, ReadyOf(w.graph, candidates)))
  }

  ghost function Passed(col: Collaborators, t: nat, w: World): (v: World)
    requires ColOk(col) && Tree(w.graph)
    ensures v.graph.nodes.Keys == w.graph.nodes.Keys
  {
    VisitAll(col, t, w, col.order(t, w.graph))
  }

  lemma {:induction false} PassKeepsRoot(col: Collaborators, t: nat, w: World, order: seq<Id>)
    requires forall id :: id in order ==> id in w.graph.nodes
    ensures VisitAll(col, t, w, order).graph.rootId == w.graph.rootId
  {
    if order == [] {
    } else {
      PassKeepsRoot(col, t, w, order[..|order| - 1]);
    }
  }

  ghost function Iterate(col: Collaborators, t: nat, w: World): World
    requires ColOk(col) && Tree(w.graph)
  {
    var v := Passed(col, t, w);
    PassKeepsRoot(col, t, w, col.order(t, w.graph));
    if RootEnded(v.graph) then v else Proceed(col, t, v, |v.graph.events| > |w.graph.events|)
  }

  method Continue(scheduler: TaskScheduler, graph: TaskGraph, t: nat, changed: bool)
    requires graph.rootId in graph.nodes && PolicyOk(scheduler.col.policy)
    modifies scheduler, graph
    ensures scheduler.Here(graph) == Proceed(scheduler.col, t, old(scheduler.Here(graph)), changed)
  {
    var candidates := FindCandidates(graph);
    if candidates == [] {
      if !changed {
        scheduler.Finish(graph, graph.rootId, Blocked, Some(Deadlocked));
        graph.stopReason := Some(Deadlocked);
        scheduler.Record(graph, GraphBlocked);
        scheduler.Store(graph);
      }
      return;
    }
    NoPendingMeansReady(scheduler.col.policy, graph.Value(), candidates);
    match SelectPending(scheduler.col.policy, graph.Value(), candidates) {
      case Some(id) => AssessTask(scheduler, graph, t, id);
      case None => ExecuteReadyLeaves(scheduler, graph, t, candidates);
    }
  }

  method Iteration(scheduler: TaskScheduler, graph: TaskGraph, t: nat)
    requires ColOk(scheduler.col) && Tree(graph.Value())
    modifies scheduler, graph
    ensures scheduler.Here(graph) == Iterate(scheduler.col, t, old(scheduler.Here(graph)))
  {
    var order := scheduler.col.order(t, graph.Value());
    PassKeepsRoot(scheduler.col, t, scheduler.Here(graph), order);
    var changed := Propagate(scheduler, graph, t, order);
    if !RootEnded(graph.Value()) {
      Continue(scheduler, graph, t, changed);
    }
  }

  // ---- There is always work ----------------------------------------------------------------------

  /** Below a waiting node of a settled graph without defeats there is a child whose dependencies are
      all completed and which is not completed itself. */
  lemma NextChild(g: Graph, id: Id) returns (x: Id)
    requires Inv(g) && AllSettled(g) && id in g.nodes && g.nodes[id].status.Waiting?
    ensures x in g.nodes[id].children && x in g.nodes && !g.nodes[x].status.Completed?
    ensures EveryCompleted(g, g.nodes[x].deps) && g.nodes[x].depth == g.nodes[id].depth + 1
  {
    hide Named, Counted, Statuses;
    assert Settled(g, id);
    assert Linked(g, id);
    var open := set c | c in g.nodes[id].children && !g.nodes[c].status.Completed?;
    var c :| c in g.nodes[id].children && !(c in g.nodes && g.nodes[c].status.Completed?);
    assert c in open && HasSource(g, open);
    x :| x in open && forall d :: d in g.nodes[x].deps ==> d !in open;
    NotOwnChild(g, id, x);
    DepsAreSiblings(g, id, x);
  }

  lemma DepsAreSiblings(g: Graph, id: Id, x: Id)
    requires Tree(g) && id in g.nodes && x in g.nodes[id].children
    ensures x in g.nodes && forall d :: d in g.nodes[x].deps ==> d in g.nodes && d in g.nodes[id].children
  {
    assert Linked(g, id);
    assert Linked(g, x);
    forall d | d in g.nodes[x].deps ensures d in g.nodes && d in g.nodes[id].children {
      assert Linked(g, d);
    }
  }

  ghost predicate NoDefeat(g: Graph) {
    forall id :: id in g.nodes ==> !Defeated(g.nodes[id].status)
  }

  lemma {:induction false} FindWork(g: Graph, id: Id) returns (c: Id)
    requires Inv(g) && AllSettled(g) && NoDefeat(g) && NoRunning(g)
    requires id in g.nodes && !g.nodes[id].status.Completed? && EveryCompleted(g, g.nodes[id].deps)
    ensures IsCandidate(g, c)
    decreases Max(0, g.budget.maxDepth) + 1 - g.nodes[id].depth
  {
    if g.nodes[id].status.Waiting? {
      var x := NextChild(g, id);
      DepthBound(g, x);
      c := FindWork(g, x);
    } else {
      c := id;
    }
  }

  lemma DepthBound(g: Graph, id: Id)
    requires WithinBudget(g) && id in g.nodes
    ensures g.nodes[id].depth <= Max(0, g.budget.maxDepth)
  {
  }

  /** Deadlock freedom: after a pass either the root has ended or some task can be assessed or executed. */
  lemma WorkExists(g: Graph)
    requires Inv(g) && AllSettled(g) && NoRunning(g) && !RootEnded(g)
    ensures NoDefeat(g) && CandidateNodes(g) != []
  {
    forall id | id in g.nodes ensures !Defeated(g.nodes[id].status) {
      if Defeated(g.nodes[id].status) {
        DefeatReachesRoot(g, id);
      }
    }
    assert Linked(g, g.rootId);
    var c := FindWork(g, g.rootId);
    assert c in CandidateNodes(g);
  }

  // ---- Progress ----------------------------------------------------------------------------------

  ghost function Room(g: Graph): int {
    Max(1, g.budget.maxNodes) - |g.nodes|
  }

  ghost function PendingIds(g: Graph): set<Id> {
    set id | id in g.nodes && g.nodes[id].status.Pending?
  }

  /** The retries still open, one pair for each. */
  ghost function OpenRetries(col: Collaborators, g: Graph): set<(Id, int)> {
    set id, k | id in g.nodes.Keys && 0 <= k < RetryCap(col.retryPolicy) && g.nodes[id].retries <= k :: (id, k)
  }

  ghost function ReadyIds(g: Graph): set<Id> {
    set id | id in g.nodes && g.nodes[id].status.Ready?
  }

  ghost function LiveIds(g: Graph): set<Id> {
    set id | id in g.nodes && !Terminal(g.nodes[id].status)
  }

  /** The lexicographic measure goes down. */
  ghost predicate Descends(col: Collaborators, g: Graph, h: Graph) {
    Room(h) < Room(g) || (Room(h) == Room(g) && DescendsPending(col, g, h))
  }

  ghost predicate DescendsPending(col: Collaborators, g: Graph, h: Graph) {
    PendingIds(h) < PendingIds(g) || (PendingIds(h) == PendingIds(g) && DescendsRetries(col, g, h))
  }

  ghost predicate DescendsRetries(col: Collaborators, g: Graph, h: Graph) {
    || OpenRetries(col, h) < OpenRetries(col, g)
    || (OpenRetries(col, h) == OpenRetries(col, g)
        && (ReadyIds(h) < ReadyIds(g) || (ReadyIds(h) == ReadyIds(g) && LiveIds(h) < LiveIds(g))))
  }

  /** A pass ends nodes and does nothing else. */
  ghost predicate OnlyEnds(g: Graph, h: Graph) {
    && g.rootId == h.rootId && g.budget == h.budget && g.nodes.Keys == h.nodes.Keys
    && forall id :: id in g.nodes ==>
         && h.nodes[id].retries == g.nodes[id].retries && h.nodes[id].attempts == g.nodes[id].attempts
         && (h.nodes[id].status == g.nodes[id].status
             || (!Terminal(g.nodes[id].status) && Terminal(h.nodes[id].status)))
  }

  lemma {:induction false} PassEffect(col: Collaborators, t: nat, w: World, order: seq<Id>)
    requires WorldOk(w) && forall id :: id in order ==> id in w.graph.nodes
    ensures var v := VisitAll(col, t, w, order);
            OnlyEnds(w.graph, v.graph) && Follows(col, w, v) && WorldOk(v)
  {
    hide Visit, Inv;
    if order == [] {
      FollowsSame(col, w);
    } else {
      PassEffect(col, t, w, order[..|order| - 1]);
      var u := VisitAll(col, t, w, order[..|order| - 1]);
      var id := order[|order| - 1];
      VisitKeepsWorldOk(col, t, u, id);
      VisitOnlyEnds(col, t, u, id);
      FollowsTrans(col, w, u, Visit(col, t, u, id));
    }
  }

  lemma VisitOnlyEnds(col: Collaborators, t: nat, w: World, id: Id)
    requires WorldOk(w) && id in w.graph.nodes
    ensures var v := Visit(col, t, w, id);
            OnlyEnds(w.graph, v.graph) && Follows(col, w, v)
  {
    hide Visit, Follows, Allowed;
    VisitEffect(col, t, w, id);
    var v := Visit(col, t, w, id);
    if v == w {
      FollowsSame(col, w);
    } else {
      TouchFollows(col, w, v, id);
    }
  }

  lemma EndsShrink(col: Collaborators, g: Graph, h: Graph)
    requires OnlyEnds(g, h)
    ensures Room(h) == Room(g) && PendingIds(h) <= PendingIds(g) && ReadyIds(h) <= ReadyIds(g)
    ensures LiveIds(h) <= LiveIds(g) && OpenRetries(col, h) == OpenRetries(col, g)
    ensures NoRunning(g) ==> NoRunning(h)
  {
    assert |g.nodes| == |g.nodes.Keys| && |h.nodes| == |h.nodes.Keys|;
  }

  lemma EndedRootDescends(col: Collaborators, g: Graph, h: Graph)
    requires OnlyEnds(g, h) && g.rootId in g.nodes && !RootEnded(g) && RootEnded(h)
    ensures Descends(col, g, h)
  {
    EndsShrink(col, g, h);
    assert g.rootId in LiveIds(g) && g.rootId !in LiveIds(h);
  }

  lemma AssessDescends(col: Collaborators, w: World, u: World, v: World, id: Id)
    requires OnlyEnds(w.graph, u.graph)
    requires id in u.graph.nodes && u.graph.nodes[id].status.Pending? && AssessedOnly(u, v, id)
    requires v.graph.budget == u.graph.budget
    ensures Descends(col, w.graph, v.graph)
  {
    EndsShrink(col, w.graph, u.graph);
    if v.graph.nodes.Keys == u.graph.nodes.Keys {
      assert |v.graph.nodes| == |v.graph.nodes.Keys| && |u.graph.nodes| == |u.graph.nodes.Keys|;
      assert id in PendingIds(u.graph) && id !in PendingIds(v.graph);
      assert PendingIds(v.graph) <= PendingIds(u.graph);
    }
  }

  lemma AssessNoRunning(u: World, v: World, id: Id)
    requires NoRunning(u.graph) && id in u.graph.nodes && AssessedOnly(u, v, id)
    ensures NoRunning(v.graph)
  {
    forall x | x in v.graph.nodes ensures !v.graph.nodes[x].status.Running? {
      if x in u.graph.nodes && x != id {
        assert v.graph.nodes[x] == u.graph.nodes[x];
      }
    }
  }

  /** What a batch does to the parts of the measure. */
  lemma BatchShrinks(col: Collaborators, u: World, v: World, ids: seq<Id>)
    requires BatchDone(col, u, v, ids) && AllReady(u, ids) && NoRunning(u.graph)
    ensures u.graph.nodes.Keys == v.graph.nodes.Keys && NoRunning(v.graph) && v.graph.budget == u.graph.budget
    ensures PendingIds(v.graph) == PendingIds(u.graph)
    ensures OpenRetries(col, v.graph) <= OpenRetries(col, u.graph)
    ensures ReadyIds(v.graph) <= ReadyIds(u.graph)
  {
    hide WorldOk, Follows;
    forall x | x in u.graph.nodes
      ensures v.graph.nodes[x] == u.graph.nodes[x] || Tried(col, u.graph.nodes[x], v.graph.nodes[x])
    {
    }
  }

  lemma BatchStrict(col: Collaborators, u: World, v: World, ids: seq<Id>)
    requires BatchDone(col, u, v, ids) && AllReady(u, ids) && ids != []
    ensures OpenRetries(col, v.graph) != OpenRetries(col, u.graph) || ReadyIds(v.graph) != ReadyIds(u.graph)
  {
    hide WorldOk, Follows;
    var id := ids[0];
    assert id in ids && Tried(col, u.graph.nodes[id], v.graph.nodes[id]);
    assert id in ReadyIds(u.graph);
    var slot := (id, u.graph.nodes[id].retries);
    if v.graph.nodes[id].status.Ready? {
      assert slot in OpenRetries(col, u.graph) && slot !in OpenRetries(col, v.graph);
    }
  }

  lemma BatchDescends(col: Collaborators, w: World, u: World, v: World, ids: seq<Id>)
    requires OnlyEnds(w.graph, u.graph)
    requires BatchDone(col, u, v, ids) && AllReady(u, ids) && ids != [] && NoRunning(u.graph)
    ensures Descends(col, w.graph, v.graph) && NoRunning(v.graph)
  {
    hide BatchDone, AllReady, OnlyEnds, NoRunning;
    EndsShrink(col, w.graph, u.graph);
    BatchShrinks(col, u, v, ids);
    BatchStrict(col, u, v, ids);
    assert |u.graph.nodes| == |u.graph.nodes.Keys| && |v.graph.nodes| == |v.graph.nodes.Keys|;
  }

  // ---- The effect of one iteration ---------------------------------------------------------------

  lemma {:induction false} ReadyDistinct(g: Graph, candidates: seq<Id>)
    requires Distinct(candidates)
    ensures Distinct(ReadyOf(g, candidates))
  {
    if candidates == [] {
    } else {
      DistinctInit(candidates);
      ReadyDistinct(g, candidates[..|candidates| - 1]);
    }
  }

  lemma {:induction false} BatchDistinct(policy: SchedulerPolicy, g: Graph, ready: seq<Id>)
    requires ready != [] && Distinct(ready) && forall id :: id in ready ==> id in g.nodes
    ensures Distinct(GreedyBatch(policy, g, ready))
  {
    if |ready| == 1 || !AllowsParallel(policy, g, ready[0]) {
    } else {
      DistinctInit(ready);
      BatchDistinct(policy, g, ready[..|ready| - 1]);
    }
  }

  lemma SelectedAreReady(col: Collaborators, w: World)
    requires ReadyOf(w.graph, CandidateNodes(w.graph)) != []
    ensures var b := GreedyBatch(col.policy, w.graph, ReadyOf(w.graph, CandidateNodes(w.graph)));
            AllReady(w, b) && b != []
  {
    var candidates := CandidateNodes(w.graph);
    ReadyDistinct(w.graph, candidates);
    BatchDistinct(col.policy, w.graph, ReadyOf(w.graph, candidates));
  }

  ghost predicate Advances(col: Collaborators, w: World, v: World) {
    Safe(v) && Follows(col, w, v) && Descends(col, w.graph, v.graph)
  }

  lemma BatchAdvances(col: Collaborators, t: nat, w: World, u: World)
    requires ColOk(col) && Safe(u) && OnlyEnds(w.graph, u.graph) && Follows(col, w, u)
    requires ReadyOf(u.graph, CandidateNodes(u.graph)) != []
    ensures var v := ExecuteBatch(col, t, u, GreedyBatch(col.policy, u.graph, ReadyOf(u.graph, CandidateNodes(u.graph))));
            Advances(col, w, v)
  {
    hide Inv, OnlyEnds, Follows, Tried, Descends, GreedyBatch, ExecuteBatch, CandidateNodes, AllReady, AssessedOk,
         Disciplined, Held;
    SelectedAreReady(col, u);
    var ids := GreedyBatch(col.policy, u.graph, ReadyOf(u.graph, CandidateNodes(u.graph)));
    ExecuteBatchEffect(col, t, u, ids);
    var v := ExecuteBatch(col, t, u, ids);
    BatchDescends(col, w, u, v, ids);
    FollowsTrans(col, w, u, v);
    AssessedKept(col, u, v);
  }

  lemma AssessAdvances(col: Collaborators, t: nat, w: World, u: World, id: Id)
    requires ColOk(col) && Safe(u) && OnlyEnds(w.graph, u.graph) && Follows(col, w, u)
    requires IsCandidate(u.graph, id) && u.graph.nodes[id].status.Pending?
    ensures Advances(col, w, AssessNode(col, t, u, id))
  {
    hide Inv, OnlyEnds, Descends, AssessNode, AssessedOk, Disciplined, Held, AssessedOnly, NoRunning;
    AssessNodeEffect(col, t, u, id);
    var v := AssessNode(col, t, u, id);
    FollowsTrans(col, w, u, v);
    SameBudget(col, u, v);
    AssessDescends(col, w, u, v, id);
    AssessNoRunning(u, v, id);
  }

  lemma SameBudget(col: Collaborators, w: World, v: World)
    requires Follows(col, w, v)
    ensures v.graph.budget == w.graph.budget && v.graph.rootId == w.graph.rootId
  {
  }

  lemma OrderOfPass(col: Collaborators, t: nat, g: Graph)
    requires ColOk(col) && Tree(g)
    ensures IsVisitOrder(g, col.order(t, g)) && forall id :: id in col.order(t, g) ==> id in g.nodes
  {
    hide PolicyOk, RetryPolicyOk, DotFreeAnswers, Tree;
    assert IsVisitOrder(g, col.order(t, g));
  }

  lemma PassAdvances(col: Collaborators, t: nat, w: World)
    requires ColOk(col) && Safe(w)
    ensures var u := Passed(col, t, w);
            && Safe(u) && OnlyEnds(w.graph, u.graph) && Follows(col, w, u)
            && AllSettled(u.graph) && u.calls == w.calls
  {
    hide Follows, OnlyEnds, AllSettled, AssessedOk, Disciplined, Held, WorldOk, VisitAll, IsVisitOrder, ColOk;
    TreeOf(w);
    var order := col.order(t, w.graph);
    OrderOfPass(col, t, w.graph);
    PassEffect(col, t, w, order);
    PassSettles(col, t, w, order);
    var u := Passed(col, t, w);
    EndsShrink(col, w.graph, u.graph);
    AssessedKept(col, w, u);
  }

  /** Every iteration that does not find the root ended finds work, keeps the world safe, moves every
      node only onward and brings the run closer to its end. */
  lemma IterateAdvances(col: Collaborators, t: nat, w: World)
    requires ColOk(col) && Safe(w) && !RootEnded(w.graph)
    ensures Advances(col, w, Iterate(col, t, w))
    ensures var u := Passed(col, t, w);
            RootEnded(u.graph) || CandidateNodes(u.graph) != []
  {
    hide Follows, OnlyEnds, AllSettled, Descends, CandidateNodes, PortsOk;
    PassAdvances(col, t, w);
    var u := Passed(col, t, w);
    PassKeepsRoot(col, t, w, col.order(t, w.graph));
    if RootEnded(u.graph) {
      EndedRootDescends(col, w.graph, u.graph);
    } else {
      WorkExists(u.graph);
      ProceedAdvances(col, t, w, u, |u.graph.events| > |w.graph.events|);
    }
  }

  lemma ProceedAdvances(col: Collaborators, t: nat, w: World, u: World, changed: bool)
    requires ColOk(col) && Safe(u) && OnlyEnds(w.graph, u.graph) && Follows(col, w, u)
    requires CandidateNodes(u.graph) != [] && u.graph.rootId in u.graph.nodes
    ensures Advances(col, w, Proceed(col, t, u, changed))
  {
    hide Follows, OnlyEnds, Safe, Advances, SelectPending, ReadyOf, GreedyBatch, AssessNode, ExecuteBatch;
    var candidates := CandidateNodes(u.graph);
    NoPendingMeansReady(col.policy, u.graph, candidates);
    match SelectPending(col.policy, u.graph, candidates)
    case Some(id) => AssessAdvances(col, t, w, u, id);
    case None => BatchAdvances(col, t, w, u);
  }

  // ---- Whole runs --------------------------------------------------------------------------------

  /** The loop, run to its end. That this function is total is the termination of every run: the
      measure is the room for new nodes, the pending tasks, the open retries, the ready leaves and the
      live nodes, in this order. */
  ghost function RunFrom(col: Collaborators, t: nat, w: World): World
    requires ColOk(col) && Safe(w)
    decreases Room(w.graph), PendingIds(w.graph), OpenRetries(col, w.graph), ReadyIds(w.graph), LiveIds(w.graph)
  {
    if RootEnded(w.graph) then w
    else
      IterateAdvances(col, t, w);
      RoomIsBounded(w);
      RunFrom(col, t + 1, Iterate(col, t, w))
  }

  lemma RoomIsBounded(w: World)
    requires WorldOk(w)
    ensures Room(w.graph) >= 0
  {
  }

  lemma {:induction false} RunFromEffect(col: Collaborators, t: nat, w: World)
    requires ColOk(col) && Safe(w)
    ensures var v := RunFrom(col, t, w);
            Safe(v) && RootEnded(v.graph) && Follows(col, w, v)
    decreases Room(w.graph), PendingIds(w.graph), OpenRetries(col, w.graph), ReadyIds(w.graph), LiveIds(w.graph)
  {
    hide Inv, Follows, PortsOk, NoRunning, Iterate;
    if RootEnded(w.graph) {
      FollowsSame(col, w);
    } else {
      IterateAdvances(col, t, w);
      RoomIsBounded(w);
      TreeOf(w);
      var u := Iterate(col, t, w);
      RunFromEffect(col, t + 1, u);
      FollowsTrans(col, w, u, RunFrom(col, t + 1, u));
    }
  }

  /** The world at the head of the loop after at most `k` iterations. */
  ghost function Reached(col: Collaborators, t: nat, w: World, k: nat): (v: World)
    requires ColOk(col) && Safe(w)
    ensures Safe(v)
    decreases k
  {
    if k == 0 || RootEnded(w.graph) then w
    else
      IterateAdvances(col, t, w);
      Reached(col, t + 1, Iterate(col, t, w), k - 1)
  }

  /** Wherever a run has got to, its next pass either ends the root or leaves a task to work on: the
      deadlock branch is never taken. */
  lemma NeverDeadlocks(col: Collaborators, t: nat, w: World, k: nat, next: nat)
    requires ColOk(col) && Safe(w) && !RootEnded(Reached(col, t, w, k).graph)
    ensures var u := Passed(col, next, Reached(col, t, w, k));
            RootEnded(u.graph) || CandidateNodes(u.graph) != []
  {
    hide Inv, PortsOk, NoRunning, Advances, CandidateNodes;
    TreeOf(Reached(col, t, w, k));
    IterateAdvances(col, next, Reached(col, t, w, k));
  }

  /** The checks made before a graph is scheduled. */
  predicate ValidTaskGraph(g: Graph) {
    && g.rootId in g.nodes
    && g.budget.maxNodes > 0 && g.budget.maxDepth >= 0 && g.budget.maxLeafExecutions > 0
    && |g.nodes| <= g.budget.maxNodes
    && forall id | id in g.nodes :: forall x | x in g.nodes[id].deps + g.nodes[id].children :: x in g.nodes
  }

  /** A sound graph is refused only for its budget. */
  lemma SoundGraphIsValid(g: Graph)
    requires Inv(g)
    ensures ValidTaskGraph(g) <==>
            g.budget.maxNodes > 0 && g.budget.maxDepth >= 0 && g.budget.maxLeafExecutions > 0
  {
    forall id, x | id in g.nodes && x in g.nodes[id].deps + g.nodes[id].children ensures x in g.nodes {
      assert Linked(g, id);
    }
  }

  function Begin(w: World): World {
    Save(Log(w, if w.graph.events == [] then GraphStarted else GraphResumed))
  }

  function FinalReason(g: Graph): Option<Reason>
    requires g.rootId in g.nodes
  {
    var root := g.nodes[g.rootId];
    if root.error.Some? then root.error
    else if root.result.Some? then Some(Reported(root.result.value.summary))
    else g.stopReason
  }

  function End(w: World): World
    requires w.graph.rootId in w.graph.nodes
  {
    var g := w.graph.(stopReason := FinalReason(w.graph));
    Save(Log(w.(graph := g), GraphFinished(g.nodes[g.rootId].status, g.stopReason)))
  }

  lemma LogIsSafe(w: World, e: Event)
    requires Safe(w) && Quiet(e)
    ensures Safe(Save(Log(w, e)))
  {
    hide Inv, Disciplined, Held;
    LogKeeps(w, e);
  }

  lemma ReasonIsSafe(w: World, reason: Option<Reason>)
    requires Safe(w)
    ensures Safe(w.(graph := w.graph.(stopReason := reason)))
  {
    hide Disciplined, Held;
    var g, h := w.graph, w.graph.(stopReason := reason);
    TreeKept(g, h);
    GroundedKept(g, h);
    SameStatuses(g, h);
    QuietKeepsCounted(g, h);
  }

  /** The result of a whole run. */
  ghost function Run(col: Collaborators, w: World): World
    requires ColOk(col) && Safe(w)
  {
    LogIsSafe(w, if w.graph.events == [] then GraphStarted else GraphResumed);
    RunFromEffect(col, 0, Begin(w));
    End(RunFrom(col, 0, Begin(w)))
  }

  /** Every run, for any collaborators, ends with the root completed, failed or blocked; the graph and
      every graph it saved are sound, leases are all released, and no task was assessed twice. */
  lemma RunIsSafe(col: Collaborators, w: World)
    requires ColOk(col) && Safe(w)
    ensures var v := Run(col, w);
            && RootEnded(v.graph) && Safe(v)
            && Follows(col, w, v)
  {
    hide Inv, Follows, PortsOk, NoRunning;
    var e := if w.graph.events == [] then GraphStarted else GraphResumed;
    LogIsSafe(w, e);
    LogMoves(col, w, e, []);
    RunFromEffect(col, 0, Begin(w));
    var u := RunFrom(col, 0, Begin(w));
    FollowsTrans(col, w, Begin(w), u);
    var reason := FinalReason(u.graph);
    var x := u.(graph := u.graph.(stopReason := reason));
    ReasonIsSafe(u, reason);
    ReasonFollows(col, u, reason);
    var f := GraphFinished(x.graph.nodes[x.graph.rootId].status, reason);
    LogIsSafe(x, f);
    LogMoves(col, x, f, []);
    FollowsTrans(col, w, u, x);
    FollowsTrans(col, w, x, Run(col, w));
  }

  lemma ReasonFollows(col: Collaborators, w: World, reason: Option<Reason>)
    ensures Follows(col, w, w.(graph := w.graph.(stopReason := reason)))
  {
  }

  /** The mutating loop. False stands for the error raised on an invalid graph. */
  method RunScheduler(scheduler: TaskScheduler, graph: TaskGraph) returns (accepted: bool)
    requires ColOk(scheduler.col) && Safe(scheduler.Here(graph))
    modifies scheduler, graph
    ensures accepted <==> ValidTaskGraph(old(graph.Value()))
    ensures !accepted ==> scheduler.Here(graph) == old(scheduler.Here(graph))
    ensures accepted ==> scheduler.Here(graph) == Run(scheduler.col, old(scheduler.Here(graph)))
    ensures accepted ==> RootEnded(graph.Value()) && Safe(scheduler.Here(graph))
  {
    hide WorldOk, PortsOk, NoRunning, Follows, Iterate;
    if !ValidTaskGraph(graph.Value()) {
      return false;
    }
    ghost var initial := scheduler.Here(graph);
    RunIsSafe(scheduler.col, initial);
    LogIsSafe(initial, if initial.graph.events == [] then GraphStarted else GraphResumed);
    scheduler.Record(graph, if graph.events == [] then GraphStarted else GraphResumed);
    scheduler.Store(graph);
    RunLoop(scheduler, graph);
    graph.stopReason := FinalReason(graph.Value());
    scheduler.Record(graph, GraphFinished(graph.nodes[graph.rootId].status, graph.stopReason));
    scheduler.Store(graph);
    return true;
  }

  method RunLoop(scheduler: TaskScheduler, graph: TaskGraph)
    requires ColOk(scheduler.col) && Safe(scheduler.Here(graph))
    modifies scheduler, graph
    ensures scheduler.Here(graph) == RunFrom(scheduler.col, 0, old(scheduler.Here(graph)))
    ensures RootEnded(graph.Value())
  {
    hide Inv, PortsOk, NoRunning, Follows, Iterate;
    var t: nat := 0;
    ghost var start := scheduler.Here(graph);
    while !RootEnded(graph.Value())
      invariant Safe(scheduler.Here(graph))
      invariant RunFrom(scheduler.col, t, scheduler.Here(graph)) == RunFrom(scheduler.col, 0, start)
      decreases Room(graph.Value()), PendingIds(graph.Value()),
                OpenRetries(scheduler.col, graph.Value()), ReadyIds(graph.Value()), LiveIds(graph.Value())
    {
      ghost var before := scheduler.Here(graph);
      IterateAdvances(scheduler.col, t, before);
      RoomIsBounded(before);
      TreeOf(before);
      Iteration(scheduler, graph, t);
      t := t + 1;
    }
  }

  lemma TreeOf(w: World)
    requires WorldOk(w)
    ensures Tree(w.graph)
  {
  }
}
