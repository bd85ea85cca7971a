/** What every scheduler run promises about its tasks, counters and saved graphs. */
module SchedulerTheorems {
  import opened Options
  import opened Order
  import opened Strings
  import opened Claims
  import opened TaskModel
  import opened DecompositionGraph
  import opened GraphInvariant
  import opened GraphGrowth
  import opened Propagation
  import opened Retry
  import opened SchedulerSteps
  import opened PortCalls
  import opened SchedulerSafety
  import opened Scheduler
  import opened SchedulerCalls

  // ---- Starting and resuming ---------------------------------------------------------------------

  /** A fresh graph can be scheduled. */
  lemma FreshIsSafe(goal: string, criteria: seq<string>, capabilities: seq<string>, budget: Budget)
    ensures Safe(World(Create(goal, criteria, capabilities, budget), [], []))
  {
    CreateInv(goal, criteria, capabilities, budget);
  }

  /** Loading a saved graph makes interrupted leaves ready again. */
  function Recover(g: Graph): Graph {
    g.(nodes := map id | id in g.nodes :: RecoverNode(g.nodes[id]))
  }

  function RecoverNode(n: Node): Node {
    if n.status.Running? then n.(status := Ready, error := Some(Recovered)) else n
  }

  method LoadGraph(saved: Graph) returns (graph: TaskGraph)
    ensures fresh(graph) && graph.Value() == Recover(saved)
    ensures graph.Value() == saved.(nodes := graph.nodes) && graph.nodes.Keys == saved.nodes.Keys
    ensures forall id :: id in saved.nodes ==>
              var n := saved.nodes[id];
              graph.nodes[id] == if n.status.Running? then n.(status := Ready, error := Some(Recovered)) else n
  {
    graph := new TaskGraph(saved);
    var remaining := saved.nodes.Keys;
    while remaining != {}
      invariant remaining <= saved.nodes.Keys && graph.nodes.Keys == saved.nodes.Keys
      invariant graph.Value() == saved.(nodes := graph.nodes)
      invariant forall id :: id in saved.nodes ==>
                  graph.nodes[id] == if id in remaining then saved.nodes[id] else RecoverNode(saved.nodes[id])
    {
      var id :| id in remaining;
      remaining := remaining - {id};
      if graph.nodes[id].status.Running? {
        graph.nodes := graph.nodes[id := graph.nodes[id].(status := Ready, error := Some(Recovered))];
      }
    }
    assert graph.nodes == Recover(saved).nodes;
  }

  lemma RecoverStatuses(g: Graph)
    requires Statuses(g)
    ensures Statuses(Recover(g))
  {
    var h := Recover(g);
    forall id | id in h.nodes ensures StatusOk(h, id) {
      assert StatusOk(g, id);
    }
  }

  lemma RecoverIsSafe(g: Graph)
    requires Inv(g)
    ensures Safe(World(Recover(g), [], []))
  {
    var h := Recover(g);
    ShapeKept(g, h);
    RecoverStatuses(g);
    QuietKeepsCounted(g, h);
  }

  /** A run may be cut off after any save and resumed, with other collaborators, from what was saved:
      the resumed run again ends and is again safe. */
  lemma ResumeFromAnySave(col: Collaborators, w: World, saved: Graph, col': Collaborators)
    requires ColOk(col) && ColOk(col') && Safe(w) && saved in Run(col, w).saves
    ensures var again := World(Recover(saved), [], []);
            && Safe(again) && RootEnded(Run(col', again).graph) && Safe(Run(col', again))
  {
    hide Inv, PortsOk, NoRunning, Run, Follows;
    RunIsSafe(col, w);
    RecoverIsSafe(saved);
    RunIsSafe(col', World(Recover(saved), [], []));
  }

  // ---- The stages of a run -----------------------------------------------------------------------

  /** The graph a run starts from, every graph it saves, and its result. */
  ghost function Stages(col: Collaborators, w: World): seq<Graph>
    requires ColOk(col) && Safe(w)
  {
    RunIsSafe(col, w);
    var v := Run(col, w);
    [w.graph] + v.saves[|w.saves|..] + [v.graph]
  }

  /** Stages only move onward. */
  lemma StagesEvolve(col: Collaborators, w: World, i: nat, j: nat)
    requires ColOk(col) && Safe(w) && i <= j < |Stages(col, w)|
    ensures Evolves(col, Stages(col, w)[i], Stages(col, w)[j])
  {
    hide Inv, PortsOk, NoRunning, Run, Evolves;
    RunIsSafe(col, w);
    var v, n := Run(col, w), |w.saves|;
    EvolvesSame(col, Stages(col, w)[i]);
    if 0 < i < j < |Stages(col, w)| - 1 {
      assert Evolves(col, v.saves[n + i - 1], v.saves[n + j - 1]);
    } else if 0 < i < |Stages(col, w)| - 1 {
      assert Between(col, w.graph, v.saves[n + i - 1], v.graph);
    } else if 0 < j < |Stages(col, w)| - 1 {
      assert Between(col, w.graph, v.saves[n + j - 1], v.graph);
    }
  }

  lemma StageIsSound(col: Collaborators, w: World, i: nat)
    requires ColOk(col) && Safe(w) && i < |Stages(col, w)|
    ensures Inv(Stages(col, w)[i])
  {
    hide Inv, PortsOk, NoRunning, Run, Evolves;
    RunIsSafe(col, w);
    var v := Run(col, w);
    if 0 < i < |Stages(col, w)| - 1 {
      assert v.saves[|w.saves| + i - 1] in v.saves;
    }
  }

  /** What holds for a task at one stage and a later one: an ended task never changes again, the retry clock
      is started once and for all, counters do not go back, and retries stop at the cap. */
  lemma TasksMoveOnward(col: Collaborators, w: World, i: nat, j: nat, id: Id)
    requires ColOk(col) && Safe(w) && i <= j < |Stages(col, w)| && id in Stages(col, w)[i].nodes
    ensures id in Stages(col, w)[j].nodes
    ensures var n, m := Stages(col, w)[i].nodes[id], Stages(col, w)[j].nodes[id];
            && (Terminal(n.status) ==> m == n)
            && (n.retryStartedAt.Some? ==> m.retryStartedAt == n.retryStartedAt)
            && n.attempts <= m.attempts && n.retries <= m.retries
            && (m.retries > n.retries ==> m.retries <= RetryCap(col.retryPolicy))
  {
    hide Stages;
    StagesEvolve(col, w, i, j);
  }

  // ---- Order and soundness of outcomes -----------------------------------------------------------

  /** `a` is `id` or one of its ancestors. */
  ghost predicate IsAncestor(g: Graph, a: Id, id: Id)
    requires Tree(g) && id in g.nodes
    decreases g.nodes[id].depth
  {
    a == id || (id != g.rootId && AncestorOfParent(g, a, id))
  }

  ghost predicate AncestorOfParent(g: Graph, a: Id, id: Id)
    requires Tree(g) && id in g.nodes && id != g.rootId
    decreases g.nodes[id].depth, 0
  {
    assert Linked(g, id);
    IsAncestor(g, a, g.nodes[id].parent.value)
  }

  lemma {:induction false} EngagedIsCleared(g: Graph, a: Id, id: Id)
    requires Tree(g) && Statuses(g) && id in g.nodes && Engaged(g.nodes[id]) && IsAncestor(g, a, id)
    ensures a in g.nodes && AllCompleted(g, g.nodes[a].deps)
    decreases g.nodes[id].depth
  {
    assert StatusOk(g, id);
    if a == id {
    } else {
      assert Linked(g, id);
      EngagedIsCleared(g, a, g.nodes[id].parent.value);
    }
  }

  /** Hierarchical order: in every graph a run saves, and in its result, a leaf that was ever started
      has its own dependencies and those of all its ancestors completed. */
  lemma StartedLeavesAreCleared(col: Collaborators, w: World, g: Graph, a: Id, id: Id)
    requires ColOk(col) && Safe(w)
    requires g in Run(col, w).saves || g == Run(col, w).graph
    requires Tree(g) && id in g.nodes && g.nodes[id].attempts > 0 && IsAncestor(g, a, id)
    ensures a in g.nodes && AllCompleted(g, g.nodes[a].deps)
  {
    RunIsSafe(col, w);
    EngagedIsCleared(g, a, id);
  }

  lemma {:induction false} CompletedBelow(g: Graph, id: Id)
    requires Tree(g) && Statuses(g) && id in g.nodes && g.nodes[g.rootId].status.Completed?
    ensures g.nodes[id].status.Completed?
    decreases g.nodes[id].depth
  {
    if id == g.rootId {
    } else {
      assert Linked(g, id);
      var p := g.nodes[id].parent.value;
      CompletedBelow(g, p);
      assert StatusOk(g, p);
    }
  }

  /** At every stage of a run the root is completed if and only if every task is, and whatever was completed
      at an earlier stage still is, unchanged. */
  lemma CompletedRunIsComplete(col: Collaborators, w: World, i: nat, j: nat)
    requires ColOk(col) && Safe(w) && i <= j < |Stages(col, w)|
    ensures var g, h := Stages(col, w)[i], Stages(col, w)[j];
            && h.rootId in h.nodes
            && (h.nodes[h.rootId].status.Completed? <==> forall id :: id in h.nodes ==> h.nodes[id].status.Completed?)
            && forall id :: id in g.nodes && g.nodes[id].status.Completed? ==> id in h.nodes && h.nodes[id] == g.nodes[id]
  {
    hide Stages;
    var g, h := Stages(col, w)[i], Stages(col, w)[j];
    StageIsSound(col, w, j);
    if h.nodes[h.rootId].status.Completed? {
      forall id | id in h.nodes ensures h.nodes[id].status.Completed? {
        CompletedBelow(h, id);
      }
    }
    forall id | id in g.nodes && g.nodes[id].status.Completed? ensures id in h.nodes && h.nodes[id] == g.nodes[id] {
      TasksMoveOnward(col, w, i, j, id);
    }
  }

  // ---- Conservation ------------------------------------------------------------------------------

  ghost function Sum(m: map<Id, nat>, ids: set<Id>): nat
    requires ids <= m.Keys
    decreases ids
  {
    if ids == {} then 0 else
      var x :| x in ids;
      m[x] + Sum(m, ids - {x})
  }

  lemma {:induction false} SumSame(m: map<Id, nat>, k: map<Id, nat>, ids: set<Id>)
    requires ids <= m.Keys && ids <= k.Keys && forall x :: x in ids ==> m[x] == k[x]
    ensures Sum(m, ids) == Sum(k, ids)
    decreases ids
  {
    if ids == {} {
    } else {
      var x :| x in ids && Sum(m, ids) == m[x] + Sum(m, ids - {x});
      SumPick(k, ids, x);
      SumSame(m, k, ids - {x});
    }
  }

  /** Any element may be taken out first. */
  lemma {:induction false} SumPick(m: map<Id, nat>, ids: set<Id>, x: Id)
    requires ids <= m.Keys && x in ids
    ensures Sum(m, ids) == m[x] + Sum(m, ids - {x})
    decreases ids
  {
    var y :| y in ids && Sum(m, ids) == m[y] + Sum(m, ids - {y});
    if y == x {
    } else {
      SumPick(m, ids - {y}, x);
      SumPick(m, ids - {x}, y);
      assert ids - {y} - {x} == ids - {x} - {y};
    }
  }

  ghost function StartCounts(events: seq<Event>, ids: set<Id>): map<Id, nat> {
    map id | id in ids :: Starts(events, id)
  }

  ghost function RetryCounts(events: seq<Event>, ids: set<Id>): map<Id, nat> {
    map id | id in ids :: Scheduled(events, id)
  }

  lemma {:induction false} SumZero(m: map<Id, nat>, ids: set<Id>)
    requires ids <= m.Keys && forall x :: x in ids ==> m[x] == 0
    ensures Sum(m, ids) == 0
    decreases ids
  {
    if ids == {} {
    } else {
      var x :| x in ids;
      SumPick(m, ids, x);
      SumZero(m, ids - {x});
    }
  }

  lemma SumOneMore(m: map<Id, nat>, k: map<Id, nat>, ids: set<Id>, x: Id)
    requires ids <= m.Keys && ids <= k.Keys && x in ids && k[x] == m[x] + 1
    requires forall y :: y in ids && y != x ==> k[y] == m[y]
    ensures Sum(k, ids) == Sum(m, ids) + 1
  {
    SumPick(m, ids, x);
    SumPick(k, ids, x);
    SumSame(m, k, ids - {x});
  }

  lemma {:induction false} StartsAddUp(events: seq<Event>, ids: set<Id>)
    requires forall e :: e in events && e.LeafStarted? ==> e.node in ids
    ensures Sum(StartCounts(events, ids), ids) == AllStarts(events)
  {
    if events == [] {
      SumZero(StartCounts(events, ids), ids);
    } else {
      var init, e := events[..|events| - 1], events[|events| - 1];
      StartsAddUp(init, ids);
      if e.LeafStarted? {
        assert e in events;
        SumOneMore(StartCounts(init, ids), StartCounts(events, ids), ids, e.node);
      } else {
        SumSame(StartCounts(init, ids), StartCounts(events, ids), ids);
      }
    }
  }

  lemma {:induction false} RetriesAddUp(events: seq<Event>, ids: set<Id>)
    requires forall e :: e in events && e.RetryScheduled? ==> e.node in ids
    ensures Sum(RetryCounts(events, ids), ids) == AllScheduled(events)
  {
    if events == [] {
      SumZero(RetryCounts(events, ids), ids);
    } else {
      var init, e := events[..|events| - 1], events[|events| - 1];
      RetriesAddUp(init, ids);
      if e.RetryScheduled? {
        assert e in events;
        SumOneMore(RetryCounts(init, ids), RetryCounts(events, ids), ids, e.node);
      } else {
        SumSame(RetryCounts(init, ids), RetryCounts(events, ids), ids);
      }
    }
  }

  ghost function Attempts(g: Graph): map<Id, nat> {
    map id | id in g.nodes :: g.nodes[id].attempts
  }

  ghost function Retries(g: Graph): map<Id, nat> {
    map id | id in g.nodes :: g.nodes[id].retries
  }

  /** Nothing is executed, retried or created off the books, in any sound graph: the execution counter
      is the sum of all attempts, the retries add up to the scheduled retry events, and every budget holds. */
  lemma Conservation(g: Graph)
    requires Inv(g)
    ensures g.leafExecutions == Sum(Attempts(g), g.nodes.Keys) <= Max(0, g.budget.maxLeafExecutions)
    ensures Sum(Retries(g), g.nodes.Keys) == AllScheduled(g.events)
    ensures forall id :: id in g.nodes ==>
                           && g.nodes[id].retries == Scheduled(g.events, id)
                           && g.nodes[id].depth <= Max(0, g.budget.maxDepth)
    ensures |g.nodes| <= Max(1, g.budget.maxNodes)
  {
    hide Tree, Named, Grounded, Statuses;
    var ids := g.nodes.Keys;
    StartsAddUp(g.events, ids);
    RetriesAddUp(g.events, ids);
    SumSame(Attempts(g), StartCounts(g.events, ids), ids);
    SumSame(Retries(g), RetryCounts(g.events, ids), ids);
  }

  lemma SameAttemptsSameExecutions(g: Graph, h: Graph)
    requires Inv(g) && Inv(h) && g.nodes.Keys == h.nodes.Keys
    requires forall id :: id in g.nodes ==> h.nodes[id].attempts == g.nodes[id].attempts
    ensures h.leafExecutions == g.leafExecutions
  {
    hide Inv;
    Conservation(g);
    Conservation(h);
    SumSame(Attempts(g), Attempts(h), g.nodes.Keys);
  }

  /** A batch that gets no lease starts nothing: no attempt and no execution is counted, even for the
      nodes that ask for a retry because of contention. */
  lemma RefusalStartsNothing(col: Collaborators, t: nat, w: World, ids: seq<Id>, claims: seq<Claim>,
                             answer: LeaseAnswer)
    requires WorldOk(w) && AllReady(w, ids) && RetryPolicyOk(col.retryPolicy) && !answer.Granted?
    ensures var v := WithLease(col, t, w, ids, claims, answer);
            && v.graph.nodes.Keys == w.graph.nodes.Keys && v.graph.leafExecutions == w.graph.leafExecutions
            && forall id :: id in w.graph.nodes ==> v.graph.nodes[id].attempts == w.graph.nodes[id].attempts
  {
    hide Inv, Follows, RefuseAll;
    assert forall id :: id in ids ==> id in w.graph.nodes && Workable(w.graph, id);
    var v := WithLease(col, t, w, ids, claims, answer);
    match answer {
      case AcquireRaised(text) => RefuseAllEffect(col, t, w, ids, LeaseBroken(text), false);
      case Denied(conflicts) => RefuseAllEffect(col, t, w, ids, LeaseRefused(conflicts), conflicts != []);
    }
    SameAttemptsSameExecutions(w.graph, v.graph);
  }

  // ---- Attempts and retries ----------------------------------------------------------------------

  function FreshWorld(goal: string, criteria: seq<string>, capabilities: seq<string>, budget: Budget): World {
    World(Create(goal, criteria, capabilities, budget), [], [])
  }

  /** The stages of a run on a newly created graph. */
  ghost function FreshStages(col: Collaborators, goal: string, criteria: seq<string>, capabilities: seq<string>,
                             budget: Budget): seq<Graph>
    requires ColOk(col)
  {
    FreshIsSafe(goal, criteria, capabilities, budget);
    Stages(col, FreshWorld(goal, criteria, capabilities, budget))
  }

  /** In a run that was never interrupted, at every stage and for every task of that stage: at most one attempt
      beyond its retries, none while it waits to be started, and no more retries than the policy allows. */
  lemma AttemptsAreRetriesPlusOne(col: Collaborators, goal: string, criteria: seq<string>, capabilities: seq<string>,
                                  budget: Budget, i: nat, id: Id)
    requires ColOk(col) && i < |FreshStages(col, goal, criteria, capabilities, budget)|
    requires id in FreshStages(col, goal, criteria, capabilities, budget)[i].nodes
    ensures var n := FreshStages(col, goal, criteria, capabilities, budget)[i].nodes[id];
            && n.attempts <= n.retries + (if Terminal(n.status) || n.status.Running? then 1 else 0)
            && n.retries <= Max(0, RetryCap(col.retryPolicy))
  {
    hide Stages, Evolves, Safe, Bounded, ColOk;
    FreshIsSafe(goal, criteria, capabilities, budget);
    var w := FreshWorld(goal, criteria, capabilities, budget);
    FirstStage(col, w);
    StagesEvolve(col, w, 0, i);
    FromNew(col, w.graph, Stages(col, w)[i], goal, criteria, capabilities, budget, id);
  }

  lemma FromNew(col: Collaborators, g: Graph, h: Graph, goal: string, criteria: seq<string>, capabilities: seq<string>,
                budget: Budget, id: Id)
    requires g == Create(goal, criteria, capabilities, budget) && Evolves(col, g, h) && id in h.nodes
    ensures var n := h.nodes[id];
            && n.attempts <= n.retries + (if Terminal(n.status) || n.status.Running? then 1 else 0)
            && n.retries <= Max(0, RetryCap(col.retryPolicy))
  {
    hide RetryTimed, Authorised;
    if id !in g.nodes {
      assert NodeAppears(col.retryPolicy, h.nodes[id]);
    } else {
      assert NodeEvolves(col.retryPolicy, g.nodes[id], h.nodes[id]);
    }
  }

  lemma FirstStage(col: Collaborators, w: World)
    requires ColOk(col) && Safe(w)
    ensures |Stages(col, w)| > 0 && Stages(col, w)[0] == w.graph
  {
    hide Run;
  }

  /** Every retry a run adds to the log was authorised, at a clock reading taken for it, inside the window that
      opened with the first retry of its node; the whole delay fits into that window too. */
  lemma RetriesAreAuthorised(col: Collaborators, w: World, i: nat)
    requires ColOk(col) && Safe(w) && |w.graph.events| <= i < |Run(col, w).graph.events|
    requires Run(col, w).graph.events[i].RetryScheduled?
    ensures var g := Run(col, w).graph;
            var e := g.events[i];
            && Authorised(col.retryPolicy, e)
            && e.node in g.nodes && g.nodes[e.node].retryStartedAt.Some?
            && var start := g.nodes[e.node].retryStartedAt.value;
               exists t: nat, u: World ::
                 && |u.graph.events| <= i && u.graph.events == g.events[..|u.graph.events|]
                 && (forall k :: |u.graph.events| <= k < i ==> IsWait(g.events[k], e.node))
                 && col.clock(t, u, e.node).Reading?
                 && var now := col.clock(t, u, e.node).at;
                    && start <= now && e.decision.elapsed == now - start
                    && (col.retryPolicy.value.window.Some? ==>
                          && now < start + col.retryPolicy.value.window.value
                          && now + e.decision.delay <= start + col.retryPolicy.value.window.value)
  {
    hide Inv, PortsOk, NoRunning, Run;
    RunIsSafe(col, w);
    var g := Run(col, w).graph;
    assert RetryTimed(col, g, i);
    var t, u :| ReadFor(col, g, i, t, u);
  }

  /** Over a whole run every granted lease is released exactly once, before any backoff wait. */
  lemma LeasesAreReleased(col: Collaborators, w: World)
    requires ColOk(col) && Safe(w)
    ensures var calls := Run(col, w).calls;
            && Held(calls) == 0
            && forall i :: 0 <= i < |calls| ==>
                 && 0 <= Held(calls[..i]) <= 1
                 && (calls[i].RetryWait? || calls[i].LeaseGranted? ==> Held(calls[..i]) == 0)
                 && (calls[i].LeaseReleased? ==> Held(calls[..i]) == 1)
  {
    hide Inv, Run, Follows, NoRunning;
    RunIsSafe(col, w);
    var calls := Run(col, w).calls;
    forall i | 0 <= i < |calls|
      ensures 0 <= Held(calls[..i]) <= 1
      ensures calls[i].RetryWait? || calls[i].LeaseGranted? ==> Held(calls[..i]) == 0
      ensures calls[i].LeaseReleased? ==> Held(calls[..i]) == 1
    {
      DisciplinedPrefix(calls, i + 1);
      assert calls[..i + 1][..i] == calls[..i];
      DisciplinedPrefix(calls, i);
      OpenIsHeld(calls[..i]);
    }
  }

  /** A leaf that claims resources is executed only while the one lease held is the one that was granted for
      its batch, and that lease claims whatever the leaf claims. */
  lemma LeavesRunUnderLease(col: Collaborators, w: World, i: nat)
    requires ColOk(col) && Safe(w) && |w.calls| <= i < |Run(col, w).calls|
    requires Run(col, w).calls[i].ExecuteCall? && NeedsLease(col, Run(col, w).calls[i].node)
    ensures var calls := Run(col, w).calls;
            && Held(calls[..i]) == 1
            && Secures(col, OpenLease(calls[..i]), calls[i].node)
  {
    hide Inv, Run, Follows, NoRunning, Secures, NeedsLease;
    RunIsSafe(col, w);
    RunCalls(col, w);
    var calls := Run(col, w).calls;
    assert Proper(col, calls, i);
    DisciplinedPrefix(calls, i);
    OpenIsHeld(calls[..i]);
    SecuringIsOpen(col, OpenLease(calls[..i]), calls[i].node);
  }

  lemma SecuringIsOpen(col: Collaborators, grant: Option<PortCall>, id: Id)
    requires Secures(col, grant, id)
    ensures grant.Some?
  {
  }

  // ---- Why keys must not contain dots ------------------------------------------------------------

  /** Inserting children under a childless node of any tree keeps every other node exactly when no child
      id is already taken. */
  lemma InsertionOverwritesIffTaken(g: Graph, p: Id, specs: seq<ChildSpec>)
    requires Tree(g) && p in g.nodes && g.nodes[p].children == [] && DistinctKeys(specs)
    ensures (forall id :: id in g.nodes && id != p ==>
                            id in AddChildren(g, p, specs).nodes && AddChildren(g, p, specs).nodes[id] == g.nodes[id])
            <==> (forall s :: s in specs ==> ChildId(p, s.key) !in g.nodes)
  {
    AddChildrenContents(g, p, specs);
    var h := AddChildren(g, p, specs);
    if s :| s in specs && ChildId(p, s.key) in g.nodes {
      TakenIdIsOverwritten(g, h, p, specs, s);
    }
    if forall s :: s in specs ==> ChildId(p, s.key) !in g.nodes {
      forall id | id in g.nodes && id != p ensures h.nodes[id] == g.nodes[id] {
        if id in ChildIds(p, Keys(specs)) {
          ChildIdMember(p, specs, id);
        }
      }
    }
  }

  lemma TakenIdIsOverwritten(g: Graph, h: Graph, p: Id, specs: seq<ChildSpec>, s: ChildSpec)
    requires Tree(g) && p in g.nodes && g.nodes[p].children == [] && Inserted(g, h, p, specs)
    requires s in specs && ChildId(p, s.key) in g.nodes
    ensures var id := ChildId(p, s.key); id != p && id in h.nodes && h.nodes[id] != g.nodes[id]
  {
    var id := ChildId(p, s.key);
    OtherKeyOtherId(p, s.key, s.key);
    assert HoldsChild(g, h, p, s);
    assert Linked(g, id);
  }

  function WorkItem(key: string): ChildSpec {
    ChildSpec(key, Contract("work", [], [], map[]), [])
  }

  /** Inserting children gives each of them its id and its parent. */
  lemma InsertedChild(g: Graph, p: Id, specs: seq<ChildSpec>, s: ChildSpec)
    requires p in g.nodes && DistinctKeys(specs) && s in specs
    ensures var h, id := AddChildren(g, p, specs), ChildId(p, s.key);
            id in h.nodes && h.nodes[id].parent == Some(p)
  {
    hide AddChildren;
    AddChildrenContents(g, p, specs);
    assert HoldsChild(g, AddChildren(g, p, specs), p, s);
  }

  /** With a dotted key the ids "root.a" + "." + "b" and "root" + "." + "a.b" coincide, and decomposing
      the first replaces the second. */
  lemma DottedKeysCollide(budget: Budget)
    ensures var g := AddChildren(Create("goal", [], [], budget), "root", [WorkItem("a"), WorkItem("a.b")]);
            && "root.a" in g.nodes && "root.a.b" in g.nodes && g.nodes["root.a.b"].parent == Some("root")
            && var h := AddChildren(g, "root.a", [WorkItem("b")]);
               "root.a.b" in h.nodes && h.nodes["root.a.b"].parent == Some("root.a")
  {
    hide AddChildren;
    var g0 := Create("goal", [], [], budget);
    var specs, more := [WorkItem("a"), WorkItem("a.b")], [WorkItem("b")];
    assert specs[0] in specs && specs[1] in specs && more[0] in more;
    InsertedChild(g0, "root", specs, specs[0]);
    InsertedChild(g0, "root", specs, specs[1]);
    assert ChildId("root", "a") == "root.a" && ChildId("root", "a.b") == "root.a.b";
    InsertedChild(AddChildren(g0, "root", specs), "root.a", more, more[0]);
    assert ChildId("root.a", "b") == "root.a.b";
  }
}
