/** One iteration of the scheduler loop: pass outcomes up, then assess one task or execute one batch. */
module SchedulerSteps {
  import opened Options
  import opened Order
  import opened Strings
  import opened Claims
  import opened TaskModel
  import opened DecompositionGraph
  import opened GraphGrowth
  import opened Propagation
  import opened Parallel
  import opened Retry

  // ---- Candidates --------------------------------------------------------------------------------

  predicate IsCandidate(g: Graph, id: Id) {
    && id in g.nodes
    && (g.nodes[id].status.Pending? || g.nodes[id].status.Ready?)
    && EveryCompleted(g, g.nodes[id].deps)
  }

  function DepthOf(g: Graph, id: Id): nat {
    if id in g.nodes then g.nodes[id].depth else 0
  }

  predicate NodeLe(g: Graph, a: Id, b: Id) {
    DepthOf(g, a) < DepthOf(g, b) || (DepthOf(g, a) == DepthOf(g, b) && LexLe(a, b))
  }

  function NodeOrder(g: Graph): (Id, Id) -> bool {
    (a, b) => NodeLe(g, a, b)
  }

  lemma NodeOrderIsTotal(g: Graph)
    ensures TotalOrder(NodeOrder(g))
  {
    LexicographicIsTotal();
    var lex := Lexicographic();
    forall a: Id, b: Id
      ensures NodeLe(g, a, b) || NodeLe(g, b, a)
      ensures NodeLe(g, a, b) && NodeLe(g, b, a) ==> a == b
    {
      assert lex(a, b) || lex(b, a);
    }
    forall a: Id, b: Id, c: Id | NodeLe(g, a, b) && NodeLe(g, b, c)
      ensures NodeLe(g, a, c)
    {
      assert lex(a, b) && lex(b, c) ==> lex(a, c);
    }
  }

  /** The candidates, shallow first and by id within one depth. */
  function CandidateNodes(g: Graph): (r: seq<Id>)
    ensures forall id :: id in r <==> IsCandidate(g, id)
    ensures Ascending(NodeOrder(g), r)
  {
    NodeOrderIsTotal(g);
    var r := SortBy(NodeOrder(g), set id | id in g.nodes && IsCandidate(g, id));
    assert forall id :: id in r <==> id in Elements(r);
    r
  }

  method FindCandidates(graph: TaskGraph) returns (candidates: seq<Id>)
    ensures candidates == CandidateNodes(graph.Value())
  {
    NodeOrderIsTotal(graph.Value());
    var remaining := graph.nodes.Keys;
    var found: set<Id> := {};
    while remaining != {}
      invariant remaining <= graph.nodes.Keys
      invariant found == set id | id in graph.nodes && id !in remaining && IsCandidate(graph.Value(), id)
    {
      var id :| id in remaining;
      remaining := remaining - {id};
      if IsCandidate(graph.Value(), id) {
        found := found + {id};
      }
    }
    assert found == set id | id in graph.nodes && IsCandidate(graph.Value(), id);
    candidates := SortBy(NodeOrder(graph.Value()), found);
  }

  // ---- Assessing one task ------------------------------------------------------------------------

  function ApplyContract(w: World, id: Id, leaf: Contract): World
    requires id in w.graph.nodes
  {
    var n := w.graph.nodes[id];
    var contract := leaf.(metadata := n.contract.metadata + leaf.metadata);
    Log(Put(w, id, n.(contract := contract)), LeafContractApplied(id))
  }

  function BecomeReady(w: World, id: Id): World
    requires id in w.graph.nodes
  {
    Save(Put(w, id, w.graph.nodes[id].(status := Ready)))
  }

  function EndWith(w: World, id: Id, status: Status, reason: Reason): World
    requires id in w.graph.nodes
  {
    Save(Conclude(w, id, status, Some(reason)))
  }

  function FailTask(w: World, id: Id, reason: Reason): World
    requires id in w.graph.nodes
  {
    Save(Log(Conclude(w, id, Failed, Some(reason)), TaskFailed(id)))
  }

  function AcceptLeaf(w: World, id: Id, leaf: Option<Contract>): World
    requires id in w.graph.nodes
  {
    BecomeReady(if leaf.Some? then ApplyContract(w, id, leaf.value) else w, id)
  }

  function Expand(w: World, id: Id, specs: seq<ChildSpec>): World
    requires id in w.graph.nodes
  {
    var g := Decompose(w.graph, id, specs);
    Save(Log(w.(graph := g), Decomposed(id, g.nodes[id].children)))
  }

  ghost function ActOn(w: World, id: Id, d: Decision): World
    requires id in w.graph.nodes
  {
    if d.isAtomic then
      if d.children != [] then EndWith(w, id, Failed, AtomicHasChildren)
      else AcceptLeaf(w, id, d.leaf)
    else if d.leaf.Some? then EndWith(w, id, Failed, LeafContractOnParent)
    else if d.children == [] then EndWith(w, id, Blocked, NoChildren)
    else if w.graph.nodes[id].depth >= w.graph.budget.maxDepth then EndWith(w, id, Blocked, DepthExhausted)
    else if |w.graph.nodes| + |d.children| > w.graph.budget.maxNodes then EndWith(w, id, Blocked, NodesExhausted)
    else if !SpecsOk(d.children) then FailTask(w, id, ContractViolated)
    else Expand(w, id, d.children)
  }

  ghost function AssessNode(col: Collaborators, t: nat, w: World, id: Id): World
    requires id in w.graph.nodes
  {
    var asked := Call(w, AssessCall(id, w.graph, col.assess(t, w, id)));
    match col.assess(t, w, id)
    case AssessRaised => FailTask(asked, id, DecomposerRaised)
    case Decided(d) => ActOn(Log(asked, Assessed(id, d.isAtomic)), id, d)
  }

  method AssessTask(scheduler: TaskScheduler, graph: TaskGraph, t: nat, id: Id)
    requires id in graph.nodes
    modifies scheduler, graph
    ensures scheduler.Here(graph) == AssessNode(scheduler.col, t, old(scheduler.Here(graph)), id)
  {
    var answer := scheduler.col.assess(t, scheduler.Here(graph), id);
    scheduler.Through(graph, AssessCall(id, graph.Value(), answer));
    match answer {
      case AssessRaised =>
        scheduler.Finish(graph, id, Failed, Some(DecomposerRaised));
        scheduler.Record(graph, TaskFailed(id));
        scheduler.Store(graph);
      case Decided(d) =>
        scheduler.Record(graph, Assessed(id, d.isAtomic));
        ActOnDecision(scheduler, graph, id, d);
    }
  }

  method ActOnDecision(scheduler: TaskScheduler, graph: TaskGraph, id: Id, d: Decision)
    requires id in graph.nodes
    modifies scheduler, graph
    ensures scheduler.Here(graph) == ActOn(old(scheduler.Here(graph)), id, d)
  {
    if d.isAtomic {
      if d.children != [] {
        scheduler.Finish(graph, id, Failed, Some(AtomicHasChildren));
        scheduler.Store(graph);
        return;
      }
      AcceptLeafContract(scheduler, graph, id, d.leaf);
      return;
    }
    if d.leaf.Some? {
      scheduler.Finish(graph, id, Failed, Some(LeafContractOnParent));
      scheduler.Store(graph);
      return;
    }
    if d.children == [] {
      scheduler.Finish(graph, id, Blocked, Some(NoChildren));
      scheduler.Store(graph);
      return;
    }
    if graph.nodes[id].depth >= graph.budget.maxDepth {
      scheduler.Finish(graph, id, Blocked, Some(DepthExhausted));
      scheduler.Store(graph);
      return;
    }
    if |graph.nodes| + |d.children| > graph.budget.maxNodes {
      scheduler.Finish(graph, id, Blocked, Some(NodesExhausted));
      scheduler.Store(graph);
      return;
    }
    ExpandTask(scheduler, graph, id, d.children);
  }

  method AcceptLeafContract(scheduler: TaskScheduler, graph: TaskGraph, id: Id, leaf: Option<Contract>)
    requires id in graph.nodes
    modifies scheduler, graph
    ensures scheduler.Here(graph) == AcceptLeaf(old(scheduler.Here(graph)), id, leaf)
  {
    if leaf.Some? {
      var n := graph.nodes[id];
      var contract := leaf.value.(metadata := n.contract.metadata + leaf.value.metadata);
      graph.nodes := graph.nodes[id := n.(contract := contract)];
      scheduler.Record(graph, LeafContractApplied(id));
    }
    graph.nodes := graph.nodes[id := graph.nodes[id].(status := Ready)];
    scheduler.Store(graph);
  }

  method ExpandTask(scheduler: TaskScheduler, graph: TaskGraph, id: Id, specs: seq<ChildSpec>)
    requires id in graph.nodes
    modifies scheduler, graph
    ensures scheduler.Here(graph) ==
            if SpecsOk(specs) then Expand(old(scheduler.Here(graph)), id, specs)
            else FailTask(old(scheduler.Here(graph)), id, ContractViolated)
  {
    var outcome := AddChildTasks(graph, id, specs);
    if !outcome.Added? {
      scheduler.Finish(graph, id, Failed, Some(ContractViolated));
      scheduler.Record(graph, TaskFailed(id));
      scheduler.Store(graph);
      return;
    }
    graph.nodes := graph.nodes[id := graph.nodes[id].(status := Waiting)];
    scheduler.Record(graph, Decomposed(id, graph.nodes[id].children));
    scheduler.Store(graph);
  }

  // ---- Admitting and starting leaves -------------------------------------------------------------

  function AcquireCapability(col: Collaborators, t: nat, w: World, id: Id, capability: string): World {
    var asked := Log(w, CapabilityRequested(id, capability));
    if col.acquire(t, asked, id, capability) then asked else Log(asked, CapabilityRefused(id, capability))
  }

  function AcquireAll(col: Collaborators, t: nat, w: World, id: Id, missing: seq<string>): (v: World)
    ensures v.graph.nodes == w.graph.nodes
  {
    if missing == [] then w
    else AcquireCapability(col, t, AcquireAll(col, t, w, id, missing[..|missing| - 1]), id, missing[|missing| - 1])
  }

  function LackCapabilities(w: World, id: Id, missing: seq<string>): World
    requires id in w.graph.nodes
  {
    BlockNode(w, id, CapabilitiesMissing(missing))
  }

  function AdmitLeaf(col: Collaborators, t: nat, w: World, id: Id): (World, bool)
    requires id in w.graph.nodes
  {
    match col.resolve(t, w, id, false)
    case ResolveRaised => (BlockNode(w, id, ResolverRaised), false)
    case Missing(missing) =>
      if missing == [] then (w, true)
      else if !col.acquirer then (LackCapabilities(w, id, missing), false)
      else
        var v := AcquireAll(col, t, w, id, missing);
        match col.resolve(t, v, id, true)
        case ResolveRaised => (EndWith(v, id, Blocked, ResolverRaised), false)
        case Missing(still) =>
          if still == [] then (v, true) else (LackCapabilities(v, id, still), false)
  }

  /** A leaf is admitted if and only if its capabilities resolve: at once, or after an acquirer was asked for whatever
      was missing. Asking changes no node; a leaf that is not admitted is blocked, with the last answer as its error,
      and saved. */
  lemma AdmitDecides(col: Collaborators, t: nat, w: World, id: Id)
    requires id in w.graph.nodes
    ensures var first := col.resolve(t, w, id, false);
            var asks := first.Missing? && first.names != [] && col.acquirer;
            var last := if asks then col.resolve(t, AcquireAll(col, t, w, id, first.names), id, true) else first;
            var r := AdmitLeaf(col, t, w, id);
            && (r.1 <==> last == Missing([]))
            && (r.1 ==> r.0 == if asks then AcquireAll(col, t, w, id, first.names) else w)
            && (!r.1 ==>
                  && r.0.graph.nodes == w.graph.nodes[id := w.graph.nodes[id].(
                       status := Blocked,
                       error := Some(if last.ResolveRaised? then ResolverRaised else CapabilitiesMissing(last.names)))]
                  && r.0.graph.events == (if asks then AcquireAll(col, t, w, id, first.names) else w).graph.events
                                         + (if asks && last.ResolveRaised? then [] else [TaskBlocked(id)])
                  && r.0.saves == (if asks then AcquireAll(col, t, w, id, first.names) else w).saves + [r.0.graph])
  {
  }

  /** The capabilities requested in a log, in order. */
  function Requested(events: seq<Event>): seq<string> {
    if events == [] then []
    else
      var e := events[|events| - 1];
      Requested(events[..|events| - 1]) + if e.CapabilityRequested? then [e.capability] else []
  }

  /** The world when the log was this long. */
  function LogUpTo(w: World, events: seq<Event>): World {
    w.(graph := w.graph.(events := events))
  }

  /** Event `i` is a request, or the refusal of the request before it. */
  ghost predicate Acquisition(col: Collaborators, t: nat, w: World, id: Id, events: seq<Event>, i: nat)
    requires i < |events|
  {
    var e := events[i];
    || (e.CapabilityRequested? && e.node == id
        && (col.acquire(t, LogUpTo(w, events[..i + 1]), id, e.capability) <==>
            !(i + 1 < |events| && events[i + 1] == CapabilityRefused(id, e.capability))))
    || (e.CapabilityRefused? && i > |w.graph.events| && events[i - 1] == CapabilityRequested(id, e.capability))
  }

  /** The acquirer is asked for every missing capability, once each and in order, and a request is followed by a refusal
      exactly when the acquirer refuses it. Nothing else happens. */
  lemma {:induction false} AcquisitionAsksForAll(col: Collaborators, t: nat, w: World, id: Id, missing: seq<string>)
    ensures var events, n := AcquireAll(col, t, w, id, missing).graph.events, |w.graph.events|;
            && AcquireAll(col, t, w, id, missing) == LogUpTo(w, events)
            && w.graph.events <= events && Requested(events[n..]) == missing
            && forall i :: n <= i < |events| ==> Acquisition(col, t, w, id, events, i)
  {
    hide Acquisition;
    if missing == [] {
      assert w.graph.events[|w.graph.events|..] == [];
    } else {
      var init, capability := missing[..|missing| - 1], missing[|missing| - 1];
      AcquisitionAsksForAll(col, t, w, id, init);
      var before := AcquireAll(col, t, w, id, init).graph.events;
      RequestAppended(col, t, w, id, before, capability);
      RequestedAppended(col, t, w, id, before, capability);
      assert missing == init + [capability];
    }
  }

  lemma RequestedAppended(col: Collaborators, t: nat, w: World, id: Id, before: seq<Event>, capability: string)
    requires w.graph.events <= before
    ensures var u, n := LogUpTo(w, before), |w.graph.events|;
            var events := AcquireCapability(col, t, u, id, capability).graph.events;
            && AcquireCapability(col, t, u, id, capability) == LogUpTo(w, events)
            && w.graph.events <= events && Requested(events[n..]) == Requested(before[n..]) + [capability]
  {
    var n := |w.graph.events|;
    var asked := before + [CapabilityRequested(id, capability)];
    var events := AcquireCapability(col, t, LogUpTo(w, before), id, capability).graph.events;
    assert asked[n..][..|asked[n..]| - 1] == before[n..];
    if events != asked {
      assert events[n..][..|events[n..]| - 1] == asked[n..];
    }
  }

  /** One more request keeps the earlier ones as they are. */
  lemma RequestAppended(col: Collaborators, t: nat, w: World, id: Id, before: seq<Event>, capability: string)
    requires w.graph.events <= before
    requires forall i :: |w.graph.events| <= i < |before| ==> Acquisition(col, t, w, id, before, i)
    ensures var events := AcquireCapability(col, t, LogUpTo(w, before), id, capability).graph.events;
            forall i :: |w.graph.events| <= i < |events| ==> Acquisition(col, t, w, id, events, i)
  {
    var events := AcquireCapability(col, t, LogUpTo(w, before), id, capability).graph.events;
    assert events[..|before| + 1] == before + [CapabilityRequested(id, capability)];
    forall i | |w.graph.events| <= i < |events| ensures Acquisition(col, t, w, id, events, i) {
      if i < |before| {
        assert Acquisition(col, t, w, id, before, i);
        assert events[..i + 1] == before[..i + 1] && events[i] == before[i];
        assert i > |w.graph.events| ==> events[i - 1] == before[i - 1];
        assert i + 1 < |before| ==> events[i + 1] == before[i + 1];
      }
    }
  }

  function AdmitAll(col: Collaborators, t: nat, w: World, ids: seq<Id>): (r: (World, seq<Id>))
    requires forall id :: id in ids ==> id in w.graph.nodes
    ensures r.0.graph.nodes.Keys == w.graph.nodes.Keys
    ensures forall id :: id in r.1 ==> id in ids
  {
    if ids == [] then (w, [])
    else
      var before := AdmitAll(col, t, w, ids[..|ids| - 1]);
      var id := ids[|ids| - 1];
      var now := AdmitLeaf(col, t, before.0, id);
      (now.0, if now.1 then before.1 + [id] else before.1)
  }

  /** A node of a batch without repetitions is admitted if and only if it is admitted when its turn comes. */
  lemma {:induction false} BatchAdmits(col: Collaborators, t: nat, w: World, ids: seq<Id>, i: nat)
    requires i < |ids| && (forall id :: id in ids ==> id in w.graph.nodes)
    requires forall j, k :: 0 <= j < k < |ids| ==> ids[j] != ids[k]
    ensures ids[i] in AdmitAll(col, t, w, ids).1 <==> AdmitLeaf(col, t, AdmitAll(col, t, w, ids[..i]).0, ids[i]).1
  {
    hide AdmitLeaf;
    var n := |ids| - 1;
    var init := ids[..n];
    assert ids[i] in init ==> i < n;
    if i == n {
    } else {
      BatchAdmits(col, t, w, init, i);
      assert init[..i] == ids[..i] && init[i] == ids[i];
    }
  }

  function StartLeaf(w: World, id: Id): (World, bool)
    requires id in w.graph.nodes
  {
    var g := w.graph;
    if g.leafExecutions >= g.budget.maxLeafExecutions then (EndWith(w, id, Blocked, ExecutionsExhausted), false)
    else
      var n := g.nodes[id];
      var h := PutGraph(g, id, n.(status := Running, attempts := n.attempts + 1))
               .(leafExecutions := g.leafExecutions + 1);
      (Save(Log(w.(graph := h), LeafStarted(id))), true)
  }

  function StartAll(w: World, ids: seq<Id>): (r: (World, seq<Id>))
    requires forall id :: id in ids ==> id in w.graph.nodes
    ensures r.0.graph.nodes.Keys == w.graph.nodes.Keys
    ensures forall id :: id in r.1 ==> id in ids
  {
    if ids == [] then (w, [])
    else
      var before := StartAll(w, ids[..|ids| - 1]);
      var id := ids[|ids| - 1];
      var now := StartLeaf(before.0, id);
      (now.0, if now.1 then before.1 + [id] else before.1)
  }

  // ---- Executing one batch -----------------------------------------------------------------------

  /** Logs the executions of a batch with their results. */
  function CallAll(w: World, ids: seq<Id>, results: map<Id, LeafResult>): (v: World)
    requires forall id :: id in ids ==> id in results
    ensures v.graph == w.graph && v.saves == w.saves
  {
    if ids == [] then w
    else
      var id := ids[|ids| - 1];
      Call(CallAll(w, ids[..|ids| - 1], results), ExecuteCall(id, results[id]))
  }

  function LeaseFailure(text: string): LeafResult {
    LeafResult(Broken, "resource lease lifecycle failed", Some(text), None)
  }

  /** Applies the results of the started leaves in id order. */
  function ApplyAll(col: Collaborators, t: nat, w: World, ids: seq<Id>, results: map<Id, LeafResult>): (v: World)
    requires forall id :: id in ids ==> id in w.graph.nodes && id in results
    ensures v.graph.nodes.Keys == w.graph.nodes.Keys
  {
    if ids == [] then w
    else
      var id := ids[|ids| - 1];
      ApplyLeafResult(col, t, ApplyAll(col, t, w, ids[..|ids| - 1], results), id, results[id], true)
  }

  /** Starts the admitted leaves and runs them; the results come back keyed by node. */
  function Operate(col: Collaborators, t: nat, w: World, admitted: seq<Id>): (r: (World, map<Id, LeafResult>))
    requires forall id :: id in admitted ==> id in w.graph.nodes
    ensures r.0.graph.nodes.Keys == w.graph.nodes.Keys
    ensures forall id :: id in r.1 ==> id in admitted
  {
    var started := StartAll(w, admitted);
    var results := map id | id in started.1 :: col.execute(t, started.0, id);
    (CallAll(started.0, started.1, results), results)
  }

  function Contention(key: string): LeafResult {
    LeafResult(Stuck, "resource_lease_unavailable", Some("resource_lease_unavailable"),
               Some(RetryRequest("resource_lease_contention", key)))
  }

  function RefuseLeaf(col: Collaborators, t: nat, w: World, id: Id, reason: Reason, contention: bool): World
    requires id in w.graph.nodes
  {
    if contention && col.retryPolicy.Some? && id in col.retryPolicy.value.keys then
      ApplyLeafResult(col, t, w, id, Contention(col.retryPolicy.value.keys[id]), false)
    else
      Log(Conclude(w, id, Blocked, Some(reason)), TaskBlocked(id))
  }

  function RefuseAll(col: Collaborators, t: nat, w: World, ids: seq<Id>, reason: Reason, contention: bool): (v: World)
    requires forall id :: id in ids ==> id in w.graph.nodes
    ensures v.graph.nodes.Keys == w.graph.nodes.Keys
  {
    if ids == [] then w
    else
      var before := RefuseAll(col, t, w, ids[..|ids| - 1], reason, contention);
      RefuseLeaf(col, t, before, ids[|ids| - 1], reason, contention)
  }

  /** The batch did not run: every admitted node is blocked or, on contention, asks for a retry. */
  function BlockForLease(col: Collaborators, t: nat, w: World, ids: seq<Id>, reason: Reason, contention: bool): World
    requires forall id :: id in ids ==> id in w.graph.nodes
  {
    Save(RefuseAll(col, t, w, ids, reason, contention))
  }

  function AllFail(results: map<Id, LeafResult>, text: string): map<Id, LeafResult> {
    map id | id in results :: LeaseFailure(text)
  }

  function Lifecycle(results: map<Id, LeafResult>, heartbeat: Option<string>, release: Option<string>):
    (r: map<Id, LeafResult>)
    ensures r.Keys == results.Keys
  {
    if heartbeat.Some? then AllFail(results, heartbeat.value)
    else if release.Some? then AllFail(results, release.value)
    else results
  }

  function WithLease(col: Collaborators, t: nat, w: World, admitted: seq<Id>, claims: seq<Claim>,
                     answer: LeaseAnswer): World
    requires forall id :: id in admitted ==> id in w.graph.nodes
  {
    match answer
    case AcquireRaised(text) => BlockForLease(col, t, w, admitted, LeaseBroken(text), false)
    case Denied(conflicts) => BlockForLease(col, t, w, admitted, LeaseRefused(conflicts), conflicts != [])
    case Granted(starts, heartbeat, release) =>
      var held := Save(Log(Call(w, LeaseGranted(admitted, claims)), LeaseAcquired(admitted)));
      if !starts then
        BlockForLease(col, t, Call(held, LeaseReleased), admitted, LeaseBroken("heartbeat"), false)
      else
        var ran := Operate(col, t, held, admitted);
        ApplyAll(col, t, Call(ran.0, LeaseReleased), SortStrings(ran.1.Keys), Lifecycle(ran.1, heartbeat, release))
  }

  lemma SortedKeys(results: map<Id, LeafResult>)
    ensures forall id :: id in SortStrings(results.Keys) <==> id in results
  {
    assert forall id :: id in SortStrings(results.Keys) <==> id in Elements(SortStrings(results.Keys));
  }

  function ExecuteBatch(col: Collaborators, t: nat, w: World, selected: seq<Id>): World
    requires forall id :: id in selected ==> id in w.graph.nodes
  {
    var admitted := AdmitAll(col, t, w, selected);
    var claims := Merge(ClaimsOf(col.policy, admitted.1));
    if !col.leaseManager || claims == [] then
      var ran := Operate(col, t, admitted.0, admitted.1);
      SortedKeys(ran.1);
      ApplyAll(col, t, ran.0, SortStrings(ran.1.Keys), ran.1)
    else
      WithLease(col, t, admitted.0, admitted.1, claims, col.lease(t, admitted.0, admitted.1))
  }

  // ---- The mutating form of a batch --------------------------------------------------------------

  method AcquireMissing(scheduler: TaskScheduler, graph: TaskGraph, t: nat, id: Id, missing: seq<string>)
    modifies graph
    ensures scheduler.Here(graph) == AcquireAll(scheduler.col, t, old(scheduler.Here(graph)), id, missing)
  {
    ghost var start := scheduler.Here(graph);
    for i := 0 to |missing|
      invariant scheduler.Here(graph) == AcquireAll(scheduler.col, t, start, id, missing[..i])
    {
      assert missing[..i + 1][..i] == missing[..i];
      scheduler.Record(graph, CapabilityRequested(id, missing[i]));
      var acquired := scheduler.col.acquire(t, scheduler.Here(graph), id, missing[i]);
      if !acquired {
        scheduler.Record(graph, CapabilityRefused(id, missing[i]));
      }
    }
    assert missing[..|missing|] == missing;
  }

  method BlockOn(scheduler: TaskScheduler, graph: TaskGraph, id: Id, reason: Reason)
    requires id in graph.nodes
    modifies scheduler, graph
    ensures scheduler.Here(graph) == BlockNode(old(scheduler.Here(graph)), id, reason)
  {
    scheduler.Finish(graph, id, Blocked, Some(reason));
    scheduler.Record(graph, TaskBlocked(id));
    scheduler.Store(graph);
  }

  method Admit(scheduler: TaskScheduler, graph: TaskGraph, t: nat, id: Id) returns (admitted: bool)
    requires id in graph.nodes
    modifies scheduler, graph
    ensures (scheduler.Here(graph), admitted) == AdmitLeaf(scheduler.col, t, old(scheduler.Here(graph)), id)
  {
    var resolution := scheduler.col.resolve(t, scheduler.Here(graph), id, false);
    if resolution.ResolveRaised? {
      BlockOn(scheduler, graph, id, ResolverRaised);
      return false;
    }
    var missing := resolution.names;
    if missing != [] && scheduler.col.acquirer {
      AcquireMissing(scheduler, graph, t, id, missing);
      resolution := scheduler.col.resolve(t, scheduler.Here(graph), id, true);
      if resolution.ResolveRaised? {
        scheduler.Finish(graph, id, Blocked, Some(ResolverRaised));
        scheduler.Store(graph);
        return false;
      }
      missing := resolution.names;
    }
    if missing != [] {
      BlockOn(scheduler, graph, id, CapabilitiesMissing(missing));
      return false;
    }
    return true;
  }

  method AdmitBatch(scheduler: TaskScheduler, graph: TaskGraph, t: nat, selected: seq<Id>) returns (admitted: seq<Id>)
    requires forall id :: id in selected ==> id in graph.nodes
    modifies scheduler, graph
    ensures (scheduler.Here(graph), admitted) == AdmitAll(scheduler.col, t, old(scheduler.Here(graph)), selected)
  {
    ghost var start := scheduler.Here(graph);
    admitted := [];
    for i := 0 to |selected|
      invariant (scheduler.Here(graph), admitted) == AdmitAll(scheduler.col, t, start, selected[..i])
    {
      assert selected[..i + 1][..i] == selected[..i];
      var ok := Admit(scheduler, graph, t, selected[i]);
      if ok {
        admitted := admitted + [selected[i]];
      }
    }
    assert selected[..|selected|] == selected;
  }

  method Start(scheduler: TaskScheduler, graph: TaskGraph, id: Id) returns (started: bool)
    requires id in graph.nodes
    modifies scheduler, graph
    ensures (scheduler.Here(graph), started) == StartLeaf(old(scheduler.Here(graph)), id)
  {
    if graph.leafExecutions >= graph.budget.maxLeafExecutions {
      scheduler.Finish(graph, id, Blocked, Some(ExecutionsExhausted));
      scheduler.Store(graph);
      return false;
    }
    var n := graph.nodes[id];
    graph.nodes := graph.nodes[id := n.(status := Running, attempts := n.attempts + 1)];
    graph.leafExecutions := graph.leafExecutions + 1;
    scheduler.Record(graph, LeafStarted(id));
    scheduler.Store(graph);
    return true;
  }

  method StartBatch(scheduler: TaskScheduler, graph: TaskGraph, admitted: seq<Id>) returns (prepared: seq<Id>)
    requires forall id :: id in admitted ==> id in graph.nodes
    modifies scheduler, graph
    ensures (scheduler.Here(graph), prepared) == StartAll(old(scheduler.Here(graph)), admitted)
  {
    ghost var start := scheduler.Here(graph);
    prepared := [];
    for i := 0 to |admitted|
      invariant (scheduler.Here(graph), prepared) == StartAll(start, admitted[..i])
    {
      assert admitted[..i + 1][..i] == admitted[..i];
      var ok := Start(scheduler, graph, admitted[i]);
      if ok {
        prepared := prepared + [admitted[i]];
      }
    }
    assert admitted[..|admitted|] == admitted;
  }

  method RunBatch(scheduler: TaskScheduler, graph: TaskGraph, t: nat, admitted: seq<Id>)
    returns (results: map<Id, LeafResult>)
    requires forall id :: id in admitted ==> id in graph.nodes
    modifies scheduler, graph
    ensures (scheduler.Here(graph), results) == Operate(scheduler.col, t, old(scheduler.Here(graph)), admitted)
  {
    var prepared := StartBatch(scheduler, graph, admitted);
    var here := scheduler.Here(graph);
    results := map id | id in prepared :: scheduler.col.execute(t, here, id);
    for i := 0 to |prepared|
      invariant scheduler.Here(graph) == CallAll(here, prepared[..i], results)
    {
      assert prepared[..i + 1][..i] == prepared[..i];
      scheduler.Through(graph, ExecuteCall(prepared[i], results[prepared[i]]));
    }
    assert prepared[..|prepared|] == prepared;
  }

  method ApplyResults(scheduler: TaskScheduler, graph: TaskGraph, t: nat, ids: seq<Id>, results: map<Id, LeafResult>)
    requires forall id :: id in ids ==> id in graph.nodes && id in results
    modifies scheduler, graph
    ensures scheduler.Here(graph) == ApplyAll(scheduler.col, t, old(scheduler.Here(graph)), ids, results)
  {
    ghost var start := scheduler.Here(graph);
    for i := 0 to |ids|
      invariant scheduler.Here(graph) == ApplyAll(scheduler.col, t, start, ids[..i], results)
    {
      assert ids[..i + 1][..i] == ids[..i];
      HandleLeafResult(scheduler, graph, t, ids[i], results[ids[i]], true);
    }
    assert ids[..|ids|] == ids;
  }

  method RefuseNode(scheduler: TaskScheduler, graph: TaskGraph, t: nat, id: Id, reason: Reason, contention: bool)
    requires id in graph.nodes
    modifies scheduler, graph
    ensures scheduler.Here(graph) == RefuseLeaf(scheduler.col, t, old(scheduler.Here(graph)), id, reason, contention)
  {
    if contention && scheduler.col.retryPolicy.Some? && id in scheduler.col.retryPolicy.value.keys {
      var key := scheduler.col.retryPolicy.value.keys[id];
      HandleLeafResult(scheduler, graph, t, id, Contention(key), false);
    } else {
      scheduler.Finish(graph, id, Blocked, Some(reason));
      scheduler.Record(graph, TaskBlocked(id));
    }
  }

  method BlockForResourceLease(scheduler: TaskScheduler, graph: TaskGraph, t: nat, ids: seq<Id>, reason: Reason,
                               contention: bool)
    requires forall id :: id in ids ==> id in graph.nodes
    modifies scheduler, graph
    ensures scheduler.Here(graph) == BlockForLease(scheduler.col, t, old(scheduler.Here(graph)), ids, reason, contention)
  {
    ghost var start := scheduler.Here(graph);
    for i := 0 to |ids|
      invariant scheduler.Here(graph) == RefuseAll(scheduler.col, t, start, ids[..i], reason, contention)
    {
      assert ids[..i + 1][..i] == ids[..i];
      RefuseNode(scheduler, graph, t, ids[i], reason, contention);
    }
    assert ids[..|ids|] == ids;
    scheduler.Store(graph);
  }

  /** The operation between acquisition and release; the lease is released on every path. */
  method RunLeasedOperation(scheduler: TaskScheduler, graph: TaskGraph, t: nat, admitted: seq<Id>, claims: seq<Claim>,
                            answer: LeaseAnswer)
    requires forall id :: id in admitted ==> id in graph.nodes
    modifies scheduler, graph
    ensures scheduler.Here(graph) == WithLease(scheduler.col, t, old(scheduler.Here(graph)), admitted, claims, answer)
  {
    match answer {
      case AcquireRaised(text) =>
        BlockForResourceLease(scheduler, graph, t, admitted, LeaseBroken(text), false);
      case Denied(conflicts) =>
        BlockForResourceLease(scheduler, graph, t, admitted, LeaseRefused(conflicts), conflicts != []);
      case Granted(starts, heartbeat, release) =>
        scheduler.Through(graph, LeaseGranted(admitted, claims));
        scheduler.Record(graph, LeaseAcquired(admitted));
        scheduler.Store(graph);
        if !starts {
          scheduler.Through(graph, LeaseReleased);
          BlockForResourceLease(scheduler, graph, t, admitted, LeaseBroken("heartbeat"), false);
        } else {
          var results := RunBatch(scheduler, graph, t, admitted);
          scheduler.Through(graph, LeaseReleased);
          var ids := SortStrings(results.Keys);
          SortedKeys(results);
          ApplyResults(scheduler, graph, t, ids, Lifecycle(results, heartbeat, release));
        }
    }
  }

  method ExecuteSelected(scheduler: TaskScheduler, graph: TaskGraph, t: nat, selected: seq<Id>)
    requires forall id :: id in selected ==> id in graph.nodes
    modifies scheduler, graph
    ensures scheduler.Here(graph) == ExecuteBatch(scheduler.col, t, old(scheduler.Here(graph)), selected)
  {
    var admitted := AdmitBatch(scheduler, graph, t, selected);
    var claims := BatchClaims(scheduler.col.policy, admitted);
    if !scheduler.col.leaseManager || claims == [] {
      var results := RunBatch(scheduler, graph, t, admitted);
      SortedKeys(results);
      ApplyResults(scheduler, graph, t, SortStrings(results.Keys), results);
    } else {
      var answer := scheduler.col.lease(t, scheduler.Here(graph), admitted);
      RunLeasedOperation(scheduler, graph, t, admitted, claims, answer);
    }
  }

  method ExecuteReadyLeaves(scheduler: TaskScheduler, graph: TaskGraph, t: nat, candidates: seq<Id>)
    requires ReadyOf(graph.Value(), candidates) != [] && PolicyOk(scheduler.col.policy)
    modifies scheduler, graph
    ensures scheduler.Here(graph) ==
            var w := old(scheduler.Here(graph));
            var batch := GreedyBatch(scheduler.col.policy, w.graph, ReadyOf(w.graph, candidates));
            ExecuteBatch(scheduler.col, t, w, batch)
  {
    var selected := SelectLeafBatch(scheduler.col.policy, graph.Value(), candidates);
    ExecuteSelected(scheduler, graph, t, selected);
  }
}
