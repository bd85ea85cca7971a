/** Recording the decisions of a decomposer and playing them back. */
module Replay {
  import opened Options
  import opened Strings
  import opened Claims
  import opened TaskModel
  import opened GraphInvariant
  import opened Propagation
  import opened Parallel
  import opened Retry
  import opened SchedulerSteps
  import opened SchedulerSafety
  import opened Scheduler
  import opened SchedulerCalls

  // ---- Contexts and traces -----------------------------------------------------------------------

  /** What a context digest covers. The digest is taken to be injective, so it is this value. */
  datatype Context = Context(id: Id, parent: Option<Id>, contract: Contract, deps: seq<Id>, depth: nat,
                             ancestors: seq<(Id, string)>, budget: Budget, nodeCount: nat, leafExecutions: nat)

  datatype Entry = Entry(id: Id, context: Context, decision: Decision)

  /** The strict ancestors of a node with their goals, root first. */
  function Ancestors(g: Graph, id: Id): (r: seq<(Id, string)>)
    requires id in g.nodes
    decreases g.nodes[id].depth
  {
    var parent := g.nodes[id].parent;
    if parent.Some? && parent.value in g.nodes && g.nodes[parent.value].depth < g.nodes[id].depth then
      Ancestors(g, parent.value) + [(parent.value, g.nodes[parent.value].contract.goal)]
    else []
  }

  method AncestorContext(graph: TaskGraph, id: Id) returns (ancestors: seq<(Id, string)>)
    requires Tree(graph.Value()) && id in graph.nodes
    ensures ancestors == Ancestors(graph.Value(), id)
  {
    ghost var g := graph.Value();
    assert Linked(g, id);
    ancestors := [];
    var parent := graph.nodes[id].parent;
    ghost var at := id;
    while parent.Some?
      invariant at in g.nodes && parent == g.nodes[at].parent && Linked(g, at)
      invariant Ancestors(g, id) == Ancestors(g, at) + ancestors
      decreases g.nodes[at].depth
    {
      var p := graph.nodes[parent.value];
      ancestors := [(parent.value, p.contract.goal)] + ancestors;
      at := parent.value;
      assert Linked(g, at);
      parent := p.parent;
    }
  }

  function ContextOf(g: Graph, id: Id): Context
    requires id in g.nodes
  {
    var n := g.nodes[id];
    Context(id, n.parent, n.contract, n.deps, n.depth, Ancestors(g, id), g.budget, |g.nodes|, g.leafExecutions)
  }

  /** What decoding a recorded decision checks. */
  predicate WellFormed(d: Decision) {
    if d.isAtomic then d.children == [] else d.children != [] && d.leaf.None?
  }

  // ---- Recording ---------------------------------------------------------------------------------

  function TraceIds(trace: seq<Entry>): set<Id> {
    set e | e in trace :: e.id
  }

  /** The answer of a recorder around `answer`: a task may be recorded once only. */
  function RecorderAnswer(trace: seq<Entry>, id: Id, answer: AssessAnswer): AssessAnswer {
    if answer.Decided? && id in TraceIds(trace) then AssessRaised else answer
  }

  function Extended(trace: seq<Entry>, g: Graph, id: Id, answer: AssessAnswer): seq<Entry>
  {
    if answer.Decided? && id in g.nodes then trace + [Entry(id, ContextOf(g, id), answer.decision)] else trace
  }

  /** The trace a recorder holds after the given port calls. */
  function TraceOf(calls: seq<PortCall>): seq<Entry> {
    if calls == [] then []
    else
      var before := TraceOf(calls[..|calls| - 1]);
      match calls[|calls| - 1]
      case AssessCall(id, g, answer) => Extended(before, g, id, answer)
      case _ => before
  }

  class RecordingTaskDecomposer {
    const delegate: (nat, World, Id) -> AssessAnswer
    var entries: seq<Entry>

    constructor (delegate: (nat, World, Id) -> AssessAnswer)
      ensures this.delegate == delegate && entries == []
    {
      this.delegate, entries := delegate, [];
    }

    /** Answers what the delegate answers and extends the trace, unless the task was recorded before. */
    method Assess(t: nat, w: World, id: Id) returns (answer: AssessAnswer)
      requires id in w.graph.nodes
      modifies this
      ensures answer == RecorderAnswer(old(entries), id, delegate(t, w, id))
      ensures entries == Extended(old(entries), w.graph, id, answer)
      ensures answer.Decided? ==> answer == delegate(t, w, id) && forall e :: e in old(entries) ==> e.id != id
      ensures answer.AssessRaised? <==> delegate(t, w, id).AssessRaised? || exists e :: e in old(entries) && e.id == id
      ensures entries == if answer.Decided? then old(entries) + [Entry(id, ContextOf(w.graph, id), answer.decision)]
                         else old(entries)
    {
      answer := delegate(t, w, id);
      if answer.AssessRaised? {
        return;
      }
      for i := 0 to |entries|
        invariant entries == old(entries)
        invariant forall j :: 0 <= j < i ==> entries[j].id != id
      {
        if entries[i].id == id {
          return AssessRaised;
        }
      }
      entries := entries + [Entry(id, ContextOf(w.graph, id), answer.decision)];
    }
  }

  /** The collaborators with a recorder in front of the decomposer. */
  function Recording(col: Collaborators): Collaborators {
    col.(assess := (t: nat, w: World, id: Id) => RecorderAnswer(TraceOf(w.calls), id, col.assess(t, w, id)))
  }

  // ---- Replaying ---------------------------------------------------------------------------------

  /** Entries keyed by task. */
  function Keyed(trace: seq<Entry>): map<Id, Entry> {
    if trace == [] then map[]
    else Keyed(trace[..|trace| - 1])[trace[|trace| - 1].id := trace[|trace| - 1]]
  }

  /** The entry a question matches, if it was not used before. */
  predicate Matches(entries: map<Id, Entry>, used: set<Id>, g: Graph, id: Id) {
    id in entries && id in g.nodes && ContextOf(g, id) == entries[id].context && id !in used
  }

  function ReplayAnswer(entries: map<Id, Entry>, used: set<Id>, g: Graph, id: Id): AssessAnswer {
    if Matches(entries, used, g, id) && WellFormed(entries[id].decision) then Decided(entries[id].decision)
    else AssessRaised
  }

  function Consumed(entries: map<Id, Entry>, used: set<Id>, g: Graph, id: Id): set<Id> {
    if Matches(entries, used, g, id) then used + {id} else used
  }

  /** The tasks a replayer has used up after the given port calls. */
  function UsedBy(entries: map<Id, Entry>, calls: seq<PortCall>): set<Id> {
    if calls == [] then {}
    else
      var before := UsedBy(entries, calls[..|calls| - 1]);
      match calls[|calls| - 1]
      case AssessCall(id, g, _) => Consumed(entries, before, g, id)
      case _ => before
  }

  class RecordedTaskDecomposer {
    const entries: map<Id, Entry>
    var used: set<Id>

    constructor (trace: seq<Entry>)
      ensures entries == Keyed(trace) && used == {}
    {
      entries, used := Keyed(trace), {};
    }

    method Assess(g: Graph, id: Id) returns (answer: AssessAnswer)
      requires id in g.nodes
      modifies this
      ensures answer == ReplayAnswer(entries, old(used), g, id)
      ensures used == Consumed(entries, old(used), g, id)
      ensures answer.Decided? ==>
                && id in entries && id !in old(used) && entries[id].context == ContextOf(g, id)
                && answer.decision == entries[id].decision
      ensures answer.AssessRaised? <==>
              || id !in entries || id in old(used) || entries[id].context != ContextOf(g, id)
              || (if entries[id].decision.isAtomic then entries[id].decision.children != []
                  else entries[id].decision.children == [] || entries[id].decision.leaf.Some?)
      ensures used == if id in entries && entries[id].context == ContextOf(g, id) then old(used) + {id} else old(used)
    {
      if id !in entries {
        return AssessRaised;
      }
      var entry := entries[id];
      if ContextOf(g, id) != entry.context || id in used {
        return AssessRaised;
      }
      used := used + {id};
      if entry.decision.isAtomic && entry.decision.children != [] {
        return AssessRaised;
      }
      if !entry.decision.isAtomic && (entry.decision.children == [] || entry.decision.leaf.Some?) {
        return AssessRaised;
      }
      return Decided(entry.decision);
    }

    method UnusedNodeIds() returns (ids: seq<Id>)
      ensures ids == SortStrings(entries.Keys - used)
    {
      ids := SortStrings(entries.Keys - used);
    }
  }

  /** The collaborators with a trace in place of the decomposer. */
  function Replaying(col: Collaborators, trace: seq<Entry>): Collaborators {
    col.(assess := (t: nat, w: World, id: Id) => ReplayAnswer(Keyed(trace), UsedBy(Keyed(trace), w.calls), w.graph, id))
  }

  // ---- Only assessments ask the decomposer -------------------------------------------------------

  ghost predicate SameButAssess(a: Collaborators, b: Collaborators) {
    b == a.(assess := b.assess)
  }

  lemma {:induction false} SamePass(a: Collaborators, b: Collaborators, t: nat, w: World, order: seq<Id>)
    requires SameButAssess(a, b) && forall id :: id in order ==> id in w.graph.nodes
    ensures VisitAll(a, t, w, order) == VisitAll(b, t, w, order)
  {
    if order == [] {
    } else {
      SamePass(a, b, t, w, order[..|order| - 1]);
    }
  }

  lemma {:induction false} SameAcquire(a: Collaborators, b: Collaborators, t: nat, w: World, id: Id, missing: seq<string>)
    requires SameButAssess(a, b)
    ensures AcquireAll(a, t, w, id, missing) == AcquireAll(b, t, w, id, missing)
  {
    if missing == [] {
    } else {
      SameAcquire(a, b, t, w, id, missing[..|missing| - 1]);
    }
  }

  lemma SameAdmit(a: Collaborators, b: Collaborators, t: nat, w: World, id: Id)
    requires SameButAssess(a, b) && id in w.graph.nodes
    ensures AdmitLeaf(a, t, w, id) == AdmitLeaf(b, t, w, id)
  {
    if a.resolve(t, w, id, false).Missing? {
      SameAcquire(a, b, t, w, id, a.resolve(t, w, id, false).names);
    }
  }

  lemma {:induction false} SameAdmitAll(a: Collaborators, b: Collaborators, t: nat, w: World, ids: seq<Id>)
    requires SameButAssess(a, b) && forall id :: id in ids ==> id in w.graph.nodes
    ensures AdmitAll(a, t, w, ids) == AdmitAll(b, t, w, ids)
  {
    hide AdmitLeaf;
    if ids == [] {
    } else {
      SameAdmitAll(a, b, t, w, ids[..|ids| - 1]);
      SameAdmit(a, b, t, AdmitAll(a, t, w, ids[..|ids| - 1]).0, ids[|ids| - 1]);
    }
  }

  lemma SameResult(a: Collaborators, b: Collaborators, t: nat, w: World, id: Id, r: LeafResult, save: bool)
    requires SameButAssess(a, b) && id in w.graph.nodes
    ensures ApplyLeafResult(a, t, w, id, r, save) == ApplyLeafResult(b, t, w, id, r, save)
  {
    hide EvaluateRetry, FinishLeaf, CompleteLeaf;
  }

  lemma {:induction false} SameApplyAll(a: Collaborators, b: Collaborators, t: nat, w: World, ids: seq<Id>,
                                        results: map<Id, LeafResult>)
    requires SameButAssess(a, b) && forall id :: id in ids ==> id in w.graph.nodes && id in results
    ensures ApplyAll(a, t, w, ids, results) == ApplyAll(b, t, w, ids, results)
  {
    hide ApplyLeafResult;
    if ids == [] {
    } else {
      var init, id := ids[..|ids| - 1], ids[|ids| - 1];
      SameApplyAll(a, b, t, w, init, results);
      SameResult(a, b, t, ApplyAll(a, t, w, init, results), id, results[id], true);
    }
  }

  lemma {:induction false} SameRefuseAll(a: Collaborators, b: Collaborators, t: nat, w: World, ids: seq<Id>,
                                         reason: Reason, contention: bool)
    requires SameButAssess(a, b) && forall id :: id in ids ==> id in w.graph.nodes
    ensures RefuseAll(a, t, w, ids, reason, contention) == RefuseAll(b, t, w, ids, reason, contention)
  {
    hide ApplyLeafResult;
    if ids == [] {
    } else {
      var init, id := ids[..|ids| - 1], ids[|ids| - 1];
      SameRefuseAll(a, b, t, w, init, reason, contention);
      if a.retryPolicy.Some? && id in a.retryPolicy.value.keys {
        var u := RefuseAll(a, t, w, init, reason, contention);
        SameResult(a, b, t, u, id, Contention(a.retryPolicy.value.keys[id]), false);
      }
    }
  }

  lemma SameOperate(a: Collaborators, b: Collaborators, t: nat, w: World, ids: seq<Id>)
    requires SameButAssess(a, b) && forall id :: id in ids ==> id in w.graph.nodes
    ensures Operate(a, t, w, ids) == Operate(b, t, w, ids)
  {
  }

  lemma SameWithLease(a: Collaborators, b: Collaborators, t: nat, w: World, ids: seq<Id>, claims: seq<Claim>,
                      answer: LeaseAnswer)
    requires SameButAssess(a, b) && forall id :: id in ids ==> id in w.graph.nodes
    ensures WithLease(a, t, w, ids, claims, answer) == WithLease(b, t, w, ids, claims, answer)
  {
    hide RefuseAll, ApplyAll, Operate;
    match answer
    case AcquireRaised(text) => SameRefuseAll(a, b, t, w, ids, LeaseBroken(text), false);
    case Denied(conflicts) => SameRefuseAll(a, b, t, w, ids, LeaseRefused(conflicts), conflicts != []);
    case Granted(starts, heartbeat, release) =>
      var held := Save(Log(Call(w, LeaseGranted(ids, claims)), LeaseAcquired(ids)));
      SameRefuseAll(a, b, t, Call(held, LeaseReleased), ids, LeaseBroken("heartbeat"), false);
      SameOperate(a, b, t, held, ids);
      var ran := Operate(a, t, held, ids);
      SortedKeys(ran.1);
      SameApplyAll(a, b, t, Call(ran.0, LeaseReleased), SortStrings(ran.1.Keys), Lifecycle(ran.1, heartbeat, release));
  }

  lemma SameBatch(a: Collaborators, b: Collaborators, t: nat, w: World, ids: seq<Id>)
    requires SameButAssess(a, b) && forall id :: id in ids ==> id in w.graph.nodes
    ensures ExecuteBatch(a, t, w, ids) == ExecuteBatch(b, t, w, ids)
  {
    hide AdmitAll, WithLease, ApplyAll, Operate;
    SameAdmitAll(a, b, t, w, ids);
    var admitted := AdmitAll(a, t, w, ids);
    var claims := Merge(ClaimsOf(a.policy, admitted.1));
    SameWithLease(a, b, t, admitted.0, admitted.1, claims, a.lease(t, admitted.0, admitted.1));
    SameOperate(a, b, t, admitted.0, admitted.1);
    var ran := Operate(a, t, admitted.0, admitted.1);
    SortedKeys(ran.1);
    SameApplyAll(a, b, t, ran.0, SortStrings(ran.1.Keys), ran.1);
  }

  // ---- Runs that ask the same --------------------------------------------------------------------

  /** Two sets of collaborators that differ only in the decomposer do the same iteration when they give
      the same answer about the task it assesses. */
  lemma SameIterate(a: Collaborators, b: Collaborators, t: nat, w: World)
    requires ColOk(a) && ColOk(b) && SameButAssess(a, b) && Safe(w) && !RootEnded(w.graph)
    requires var task := NextTask(a, t, w);
             task.Some? ==> a.assess(t, Passed(a, t, w), task.value) == b.assess(t, Passed(a, t, w), task.value)
    ensures Iterate(a, t, w) == Iterate(b, t, w)
  {
    hide Follows, OnlyEnds, AllSettled, CandidateNodes, Safe, SelectPending, ByDecomposer, ColOk, Inv, VisitAll,
         ReadyOf, GreedyBatch, ExecuteBatch;
    PassAdvances(a, t, w);
    TreeOfSafe(w);
    SameVisits(a, b, t, w);
    var u := Passed(a, t, w);
    if !RootEnded(u.graph) {
      ProceedCalls(a, t, u, true);
      var candidates := CandidateNodes(u.graph);
      NoPendingMeansReady(a.policy, u.graph, candidates);
      if SelectPending(a.policy, u.graph, candidates).None? {
        SameBatch(a, b, t, u, GreedyBatch(a.policy, u.graph, ReadyOf(u.graph, candidates)));
      }
    }
  }

  lemma SameVisits(a: Collaborators, b: Collaborators, t: nat, w: World)
    requires ColOk(a) && ColOk(b) && SameButAssess(a, b) && Tree(w.graph)
    ensures Passed(a, t, w) == Passed(b, t, w)
  {
    assert IsVisitOrder(w.graph, a.order(t, w.graph));
    SamePass(a, b, t, w, a.order(t, w.graph));
  }

  // ---- Recording changes nothing -----------------------------------------------------------------

  ghost predicate WasAssessed(calls: seq<PortCall>, id: Id) {
    exists i :: 0 <= i < |calls| && calls[i].AssessCall? && calls[i].node == id
  }

  lemma {:induction false} TraceWasAssessed(calls: seq<PortCall>, id: Id)
    requires id in TraceIds(TraceOf(calls))
    ensures WasAssessed(calls, id)
  {
    var init, c := calls[..|calls| - 1], calls[|calls| - 1];
    if id !in TraceIds(TraceOf(init)) {
    } else {
      TraceWasAssessed(init, id);
      var i :| 0 <= i < |init| && init[i].AssessCall? && init[i].node == id;
      assert calls[i] == init[i];
    }
  }

  lemma PendingWasNotAssessed(w: World, id: Id)
    requires PortsOk(w) && id in w.graph.nodes && w.graph.nodes[id].status.Pending?
    ensures !WasAssessed(w.calls, id)
  {
    forall i | 0 <= i < |w.calls| && w.calls[i].AssessCall? ensures w.calls[i].node != id {
      assert Past(w.graph, w.calls[i].node);
    }
  }

  lemma RecordingOk(col: Collaborators)
    requires ColOk(col)
    ensures ColOk(Recording(col))
  {
    var rec := Recording(col);
    forall t, w, id ensures rec.assess(t, w, id) == col.assess(t, w, id) || rec.assess(t, w, id).AssessRaised? {
    }
    forall t, g {:trigger rec.order(t, g)} | Tree(g) ensures IsVisitOrder(g, rec.order(t, g)) {
      assert IsVisitOrder(g, col.order(t, g));
    }
  }

  lemma {:induction false} RecordedRunFrom(col: Collaborators, t: nat, w: World)
    requires ColOk(col) && ColOk(Recording(col)) && Safe(w)
    ensures RunFrom(Recording(col), t, w) == RunFrom(col, t, w)
    decreases Room(w.graph), PendingIds(w.graph), OpenRetries(col, w.graph), ReadyIds(w.graph), LiveIds(w.graph)
  {
    hide Inv, PortsOk, NoRunning, Iterate, Follows, ColOk, NextTask, Passed;
    var rec := Recording(col);
    if RootEnded(w.graph) {
    } else {
      IterateAdvances(col, t, w);
      RoomIsBounded(w);
      TreeOf(w);
      IterateCalls(col, t, w);
      if NextTask(col, t, w).Some? {
        var u, id := Passed(col, t, w), NextTask(col, t, w).value;
        PendingWasNotAssessed(u, id);
        if id in TraceIds(TraceOf(u.calls)) {
          TraceWasAssessed(u.calls, id);
        }
      }
      SameIterate(col, rec, t, w);
      RecordedRunFrom(col, t + 1, Iterate(col, t, w));
    }
  }

  // ---- Replaying a trace -------------------------------------------------------------------------

  /** An entry for every answered assessment, and for no other task. */
  ghost predicate Faithful(entries: map<Id, Entry>, calls: seq<PortCall>) {
    && (forall i :: 0 <= i < |calls| && calls[i].AssessCall? ==> Answers(entries, calls[i]))
    && (forall id :: id in entries ==> WasAssessed(calls, id))
  }

  ghost predicate Answers(entries: map<Id, Entry>, c: PortCall)
    requires c.AssessCall?
  {
    if c.answer.Decided? && c.node in c.graph.nodes then
      c.node in entries && entries[c.node] == Entry(c.node, ContextOf(c.graph, c.node), c.answer.decision)
    else
      c.node !in entries
  }

  lemma WasAssessedSnoc(init: seq<PortCall>, c: PortCall, id: Id)
    ensures WasAssessed(init + [c], id) <==> WasAssessed(init, id) || (c.AssessCall? && c.node == id)
  {
    var calls := init + [c];
    if i :| 0 <= i < |init| && init[i].AssessCall? && init[i].node == id {
      assert calls[i] == init[i];
    }
    if c.AssessCall? && c.node == id {
      assert calls[|init|] == c;
    }
  }

  lemma FaithfulSnoc(entries: map<Id, Entry>, after: map<Id, Entry>, init: seq<PortCall>, c: PortCall)
    requires Faithful(entries, init) && AssessedOnce(init + [c])
    requires after == if c.AssessCall? && c.answer.Decided? && c.node in c.graph.nodes then
                        entries[c.node := Entry(c.node, ContextOf(c.graph, c.node), c.answer.decision)]
                      else entries
    ensures Faithful(after, init + [c])
  {
    hide ContextOf, WasAssessed;
    var calls := init + [c];
    forall id | id in after ensures WasAssessed(calls, id) {
      WasAssessedSnoc(init, c, id);
    }
    forall i | 0 <= i < |calls| && calls[i].AssessCall? ensures Answers(after, calls[i]) {
      if i < |init| {
        assert calls[i] == init[i] && Answers(entries, init[i]);
        assert calls[|init|] == c;
      } else if c.node in entries {
        NotTwice(init, c);
        assert false;
      }
    }
  }

  lemma NotTwice(init: seq<PortCall>, c: PortCall)
    requires AssessedOnce(init + [c]) && c.AssessCall?
    ensures !WasAssessed(init, c.node)
  {
    var calls := init + [c];
    forall i | 0 <= i < |init| && init[i].AssessCall? ensures init[i].node != c.node {
      assert calls[i] == init[i] && calls[|init|] == c;
    }
  }

  lemma {:induction false} TraceIsFaithful(calls: seq<PortCall>)
    requires AssessedOnce(calls)
    ensures Faithful(Keyed(TraceOf(calls)), calls)
  {
    hide ContextOf;
    if calls == [] {
    } else {
      var init, c := calls[..|calls| - 1], calls[|calls| - 1];
      assert calls == init + [c];
      TraceIsFaithful(init);
      var trace := TraceOf(calls);
      if trace != TraceOf(init) {
        assert trace[..|trace| - 1] == TraceOf(init);
      }
      FaithfulSnoc(Keyed(TraceOf(init)), Keyed(trace), init, c);
    }
  }

  lemma {:induction false} UsedWasAssessed(entries: map<Id, Entry>, calls: seq<PortCall>, id: Id)
    requires id in UsedBy(entries, calls)
    ensures WasAssessed(calls, id)
  {
    var init, c := calls[..|calls| - 1], calls[|calls| - 1];
    if id !in UsedBy(entries, init) {
    } else {
      UsedWasAssessed(entries, init, id);
      var i :| 0 <= i < |init| && init[i].AssessCall? && init[i].node == id;
      assert calls[i] == init[i];
    }
  }

  lemma {:induction false} AnsweredAreUsed(entries: map<Id, Entry>, calls: seq<PortCall>, i: nat)
    requires i < |calls| && calls[i].AssessCall? && calls[i].answer.Decided? && calls[i].node in calls[i].graph.nodes
    requires Answers(entries, calls[i])
    ensures calls[i].node in UsedBy(entries, calls)
  {
    if i == |calls| - 1 {
    } else {
      AnsweredAreUsed(entries, calls[..|calls| - 1], i);
    }
  }

  /** A replay that has followed the run so far gets the recorded answer again. */
  lemma SameAnswer(entries: map<Id, Entry>, calls: seq<PortCall>, u: World, id: Id, answer: AssessAnswer)
    requires Faithful(entries, calls) && u.calls + [AssessCall(id, u.graph, answer)] <= calls
    requires PortsOk(u) && id in u.graph.nodes && u.graph.nodes[id].status.Pending?
    requires id in entries ==> WellFormed(entries[id].decision)
    ensures ReplayAnswer(entries, UsedBy(entries, u.calls), u.graph, id) == answer
  {
    hide ContextOf, WellFormed;
    assert calls[|u.calls|] == AssessCall(id, u.graph, answer);
    assert Answers(entries, calls[|u.calls|]);
    PendingWasNotAssessed(u, id);
    if id in UsedBy(entries, u.calls) {
      UsedWasAssessed(entries, u.calls, id);
    }
  }

  lemma {:induction false} ReplayedRunFrom(col: Collaborators, trace: seq<Entry>, calls: seq<PortCall>, t: nat, w: World)
    requires ColOk(col) && ColOk(Replaying(col, trace)) && Safe(w)
    requires RunFrom(col, t, w).calls <= calls && Faithful(Keyed(trace), calls)
    requires forall k :: k in Keyed(trace) ==> WellFormed(Keyed(trace)[k].decision)
    ensures RunFrom(Replaying(col, trace), t, w) == RunFrom(col, t, w)
    decreases Room(w.graph), PendingIds(w.graph), OpenRetries(col, w.graph), ReadyIds(w.graph), LiveIds(w.graph)
  {
    hide Inv, PortsOk, NoRunning, Iterate, Follows, ColOk, NextTask, Passed, Faithful, WellFormed, ReplayAnswer;
    var rep := Replaying(col, trace);
    if RootEnded(w.graph) {
    } else {
      IterateAdvances(col, t, w);
      RoomIsBounded(w);
      TreeOf(w);
      IterateCalls(col, t, w);
      var v := Iterate(col, t, w);
      RunFromCalls(col, t + 1, v);
      if NextTask(col, t, w).Some? {
        var u, id := Passed(col, t, w), NextTask(col, t, w).value;
        SameAnswer(Keyed(trace), calls, u, id, col.assess(t, u, id));
      }
      SameIterate(col, rep, t, w);
      ReplayedRunFrom(col, trace, calls, t + 1, v);
    }
  }

  lemma {:induction false} TraceFromCalls(calls: seq<PortCall>, e: Entry)
    requires e in TraceOf(calls)
    ensures exists i :: 0 <= i < |calls| && calls[i].AssessCall? && calls[i].answer == Decided(e.decision)
  {
    var init := calls[..|calls| - 1];
    if e in TraceOf(init) {
      TraceFromCalls(init, e);
      var i :| 0 <= i < |init| && init[i].AssessCall? && init[i].answer == Decided(e.decision);
      assert calls[i] == init[i];
    } else {
      assert calls[|calls| - 1].answer == Decided(e.decision);
    }
  }

  /** What was recorded with some collaborators may be replayed with others. */
  lemma ReplayingOk(col: Collaborators, calls: seq<PortCall>, other: Collaborators)
    requires ColOk(col) && ColOk(other) && AssessedOnce(calls) && CallsOk(col, [], calls)
    ensures ColOk(Replaying(other, TraceOf(calls)))
  {
    hide ContextOf;
    var trace := TraceOf(calls);
    var rep := Replaying(other, trace);
    TraceIsFaithful(calls);
    forall t, w, id, s | rep.assess(t, w, id).Decided? && s in rep.assess(t, w, id).decision.children
      ensures DotFree(s.key)
    {
      var e := Keyed(trace)[id];
      KeyedInTrace(trace, id);
      TraceFromCalls(calls, e);
      var i :| 0 <= i < |calls| && calls[i].AssessCall? && calls[i].answer == Decided(e.decision);
      assert ByDecomposer(col, calls[i]);
    }
    forall t, g {:trigger rep.order(t, g)} | Tree(g) ensures IsVisitOrder(g, rep.order(t, g)) {
      assert IsVisitOrder(g, other.order(t, g));
    }
  }

  lemma {:induction false} KeyedInTrace(trace: seq<Entry>, id: Id)
    requires id in Keyed(trace)
    ensures Keyed(trace)[id] in trace && Keyed(trace)[id].id == id
  {
    if id == trace[|trace| - 1].id {
    } else {
      KeyedInTrace(trace[..|trace| - 1], id);
    }
  }

  // ---- Lockstep ----------------------------------------------------------------------------------

  /** Every entry of the trace is used up by the calls it was recorded from. */
  lemma NothingUnused(col: Collaborators, calls: seq<PortCall>)
    requires AssessedOnce(calls) && CallsOk(col, [], calls)
    ensures UsedBy(Keyed(TraceOf(calls)), calls) == Keyed(TraceOf(calls)).Keys
  {
    hide ContextOf;
    var entries := Keyed(TraceOf(calls));
    TraceIsFaithful(calls);
    UsedAreEntries(entries, calls);
    forall id | id in entries ensures id in UsedBy(entries, calls) {
      var i :| 0 <= i < |calls| && calls[i].AssessCall? && calls[i].node == id;
      assert Answers(entries, calls[i]);
      AnsweredAreUsed(entries, calls, i);
    }
  }

  lemma {:induction false} UsedAreEntries(entries: map<Id, Entry>, calls: seq<PortCall>)
    ensures UsedBy(entries, calls) <= entries.Keys
  {
    if calls == [] {
    } else {
      UsedAreEntries(entries, calls[..|calls| - 1]);
    }
  }

  /** A decomposer is asked at most once about each task, so recording a run changes nothing about it. */
  lemma RecordingIsTransparent(col: Collaborators, w: World)
    requires ColOk(col) && Safe(w) && w.calls == []
    ensures ColOk(Recording(col)) && Run(Recording(col), w) == Run(col, w)
    ensures AssessedOnce(Run(col, w).calls)
  {
    hide RunFrom, ColOk, Inv, PortsOk, NoRunning, Follows;
    RecordingOk(col);
    RunCalls(col, w);
    RecordedRunFrom(col, 0, Begin(w));
  }

  lemma ReplayOfWellFormed(col: Collaborators, w: World)
    requires ColOk(col) && Safe(w) && w.calls == []
    requires forall e :: e in TraceOf(Run(col, w).calls) ==> WellFormed(e.decision)
    requires ColOk(Replaying(col, TraceOf(Run(col, w).calls)))
    ensures Run(Replaying(col, TraceOf(Run(col, w).calls)), w) == Run(col, w)
  {
    hide RunFrom, ColOk, Inv, PortsOk, NoRunning, Follows, WellFormed, Faithful, AssessedOnce;
    RunCalls(col, w);
    var calls := Run(col, w).calls;
    TraceIsFaithful(calls);
    forall k | k in Keyed(TraceOf(calls)) ensures WellFormed(Keyed(TraceOf(calls))[k].decision) {
      KeyedInTrace(TraceOf(calls), k);
    }
    ReplayedRunFrom(col, TraceOf(calls), calls, 0, Begin(w));
  }

  // ---- An ill-formed decision shows --------------------------------------------------------------

  /** The run ends a task with an ill-formed decision for another reason than a decomposer that raised. */
  lemma IllFormedEnds(col: Collaborators, t: nat, u: World, id: Id)
    requires id in u.graph.nodes
    requires col.assess(t, u, id).Decided? ==> !WellFormed(col.assess(t, u, id).decision)
    ensures var m := AssessNode(col, t, u, id).graph.nodes;
            && id in m && Terminal(m[id].status) && m[id].error.Some?
            && (m[id].error.value.DecomposerRaised? <==> col.assess(t, u, id).AssessRaised?)
  {
  }

  /** Tasks that have ended differently stay different. */
  lemma EndedDiffer(a: Collaborators, b: Collaborators, t: nat, v: World, x: World, id: Id)
    requires ColOk(a) && ColOk(b) && Safe(v) && Safe(x) && id in v.graph.nodes && id in x.graph.nodes
    requires Terminal(v.graph.nodes[id].status) && Terminal(x.graph.nodes[id].status)
    requires v.graph.nodes[id] != x.graph.nodes[id]
    ensures RunFrom(a, t, v).graph.nodes != RunFrom(b, t, x).graph.nodes
  {
    hide ColOk, Safe, RunFrom;
    RunFromEffect(a, t, v);
    RunFromEffect(b, t, x);
    EndedStays(a, v, RunFrom(a, t, v), id);
    EndedStays(b, x, RunFrom(b, t, x), id);
  }

  lemma EndedStays(col: Collaborators, v: World, f: World, id: Id)
    requires Follows(col, v, f) && id in v.graph.nodes && Terminal(v.graph.nodes[id].status)
    ensures id in f.graph.nodes && f.graph.nodes[id] == v.graph.nodes[id]
  {
  }

  lemma IterateIsAssessment(col: Collaborators, t: nat, w: World)
    requires ColOk(col) && Safe(w) && Tree(w.graph) && NextTask(col, t, w).Some?
    requires NextTask(col, t, w).value in Passed(col, t, w).graph.nodes
    ensures Iterate(col, t, w) == AssessNode(col, t, Passed(col, t, w), NextTask(col, t, w).value)
  {
    hide ColOk, Safe, AssessNode, CandidateNodes, SelectPending, Passed;
    PassKeepsRootIn(col, t, w);
  }

  lemma PassKeepsRootIn(col: Collaborators, t: nat, w: World)
    requires ColOk(col) && Tree(w.graph)
    ensures Passed(col, t, w).graph.rootId == w.graph.rootId
  {
    assert IsVisitOrder(w.graph, col.order(t, w.graph));
    PassKeepsRoot(col, t, w, col.order(t, w.graph));
  }

  /** The replay raises where the recorded decision is ill formed. */
  lemma DivergesHere(col: Collaborators, trace: seq<Entry>, calls: seq<PortCall>, t: nat, w: World)
    requires ColOk(col) && ColOk(Replaying(col, trace)) && Safe(w) && Tree(w.graph) && !RootEnded(w.graph)
    requires RunFrom(col, t, w).calls <= calls && Faithful(Keyed(trace), calls)
    requires NextTask(col, t, w).Some?
    requires var a := col.assess(t, Passed(col, t, w), NextTask(col, t, w).value);
             a.Decided? && !WellFormed(a.decision)
    ensures RunFrom(Replaying(col, trace), t, w).graph.nodes != RunFrom(col, t, w).graph.nodes
  {
    hide Inv, PortsOk, NoRunning, Iterate, Follows, ColOk, NextTask, Passed, WellFormed, AssessNode, IsCandidate, Keyed;
    var rep := Replaying(col, trace);
    var u, id := Passed(col, t, w), NextTask(col, t, w).value;
    IterateAdvances(col, t, w);
    IterateAdvances(rep, t, w);
    RoomIsBounded(w);
    IterateCalls(col, t, w);
    RunFromCalls(col, t + 1, Iterate(col, t, w));
    SameNextTask(col, rep, t, w);
    CandidateIsNode(u.graph, id);
    assert Answers(Keyed(trace), calls[|w.calls|]);
    IterateIsAssessment(col, t, w);
    IterateIsAssessment(rep, t, w);
    IllFormedEnds(col, t, u, id);
    IllFormedEnds(rep, t, u, id);
    EndedDiffer(col, rep, t + 1, Iterate(col, t, w), Iterate(rep, t, w), id);
  }

  lemma CandidateIsNode(g: Graph, id: Id)
    requires IsCandidate(g, id)
    ensures id in g.nodes
  {
  }

  lemma SameNextTask(a: Collaborators, b: Collaborators, t: nat, w: World)
    requires ColOk(a) && ColOk(b) && SameButAssess(a, b) && Tree(w.graph)
    ensures Passed(a, t, w) == Passed(b, t, w) && NextTask(a, t, w) == NextTask(b, t, w)
  {
    hide ColOk;
    SameVisits(a, b, t, w);
  }

  /** Call `j` of the run records an ill-formed decision. */
  predicate IllFormedAt(calls: seq<PortCall>, j: nat) {
    j < |calls| && calls[j].AssessCall? && calls[j].answer.Decided? && !WellFormed(calls[j].answer.decision)
  }

  lemma {:induction false} Diverges(col: Collaborators, trace: seq<Entry>, calls: seq<PortCall>, t: nat, w: World, j: nat)
    requires ColOk(col) && ColOk(Replaying(col, trace)) && Safe(w)
    requires RunFrom(col, t, w).calls <= calls && Faithful(Keyed(trace), calls)
    requires j >= |w.calls| && IllFormedAt(RunFrom(col, t, w).calls, j)
    ensures RunFrom(Replaying(col, trace), t, w).graph.nodes != RunFrom(col, t, w).graph.nodes
    decreases Room(w.graph), PendingIds(w.graph), OpenRetries(col, w.graph), ReadyIds(w.graph), LiveIds(w.graph)
  {
    hide Inv, PortsOk, NoRunning, Iterate, Follows, ColOk, NextTask, Passed, WellFormed, ReplayAnswer, IsCandidate, Keyed,
         ContextOf;
    if RootEnded(w.graph) {
    } else {
      var rep := Replaying(col, trace);
      IterateAdvances(col, t, w);
      RoomIsBounded(w);
      TreeOf(w);
      IterateCalls(col, t, w);
      var v := Iterate(col, t, w);
      RunFromCalls(col, t + 1, v);
      if NextTask(col, t, w).Some? {
        var u, id := Passed(col, t, w), NextTask(col, t, w).value;
        var a := col.assess(t, u, id);
        if a.Decided? && !WellFormed(a.decision) {
          DivergesHere(col, trace, calls, t, w);
          return;
        }
        CandidateIsNode(u.graph, id);
        assert Answers(Keyed(trace), calls[|w.calls|]);
        SameAnswer(Keyed(trace), calls, u, id, a);
      }
      SameIterate(col, rep, t, w);
      Diverges(col, trace, calls, t + 1, v, j);
    }
  }

  lemma ReplayedIsWellFormed(col: Collaborators, w: World, e: Entry)
    requires ColOk(col) && Safe(w) && w.calls == [] && e in TraceOf(Run(col, w).calls)
    requires ColOk(Replaying(col, TraceOf(Run(col, w).calls)))
    requires Run(Replaying(col, TraceOf(Run(col, w).calls)), w).graph.nodes == Run(col, w).graph.nodes
    ensures WellFormed(e.decision)
  {
    hide RunFrom, ColOk, Inv, PortsOk, NoRunning, Follows, WellFormed, AssessedOnce, ContextOf, TraceOf, Keyed, UsedBy,
         Faithful;
    var calls := Run(col, w).calls;
    RunCalls(col, w);
    TraceIsFaithful(calls);
    TraceFromCalls(calls, e);
    var j :| 0 <= j < |calls| && calls[j].AssessCall? && calls[j].answer == Decided(e.decision);
    if !WellFormed(e.decision) {
      Diverges(col, TraceOf(calls), calls, 0, Begin(w), j);
      assert false;
    }
  }

  // ---- The theorem -------------------------------------------------------------------------------

  /** Replay lockstep: if every recorded decision is well formed, playing a recorded run back on an equal graph
      repeats it exactly, with no mismatch, no reuse and no entry left over. If one is ill formed, the tasks
      come out differently. */
  lemma ReplayLockstep(col: Collaborators, w: World)
    requires ColOk(col) && Safe(w) && w.calls == []
    ensures ColOk(Recording(col))
    ensures var recorded := Run(Recording(col), w);
            var trace := TraceOf(recorded.calls);
            && ColOk(Replaying(col, trace))
            && var replayed := Run(Replaying(col, trace), w);
               && (replayed.graph.nodes == recorded.graph.nodes <==> forall e :: e in trace ==> WellFormed(e.decision))
               && (replayed.graph.nodes == recorded.graph.nodes ==>
                     replayed == recorded && UsedBy(Keyed(trace), replayed.calls) == Keyed(trace).Keys)
  {
    hide Run, ColOk, Safe, WellFormed, AssessedOnce, TraceOf, Keyed, UsedBy;
    RecordingIsTransparent(col, w);
    var calls := Run(col, w).calls;
    RunCalls(col, w);
    ReplayingOk(col, calls, col);
    NothingUnused(col, calls);
    if forall e :: e in TraceOf(calls) ==> WellFormed(e.decision) {
      ReplayOfWellFormed(col, w);
    }
    if Run(Replaying(col, TraceOf(calls)), w).graph.nodes == Run(col, w).graph.nodes {
      forall e | e in TraceOf(calls) ensures WellFormed(e.decision) {
        ReplayedIsWellFormed(col, w, e);
      }
    }
  }

  // ---- A run that cannot be replayed -------------------------------------------------------------

  lemma EmptyOrNot(ids: seq<Id>)
    ensures ids == [] || exists id :: id in ids
  {
    if ids != [] {
      assert ids[0] in ids;
    }
  }

  /** The first thing a fresh run does is to assess the root. */
  lemma RootIsFirst(col: Collaborators, w: World)
    requires ColOk(col) && Safe(w) && w.graph.nodes.Keys == {w.graph.rootId} && Tree(w.graph)
    requires w.graph.nodes[w.graph.rootId].status.Pending? && w.graph.nodes[w.graph.rootId].children == []
    ensures Passed(col, 0, w) == w && NextTask(col, 0, w) == Some(w.graph.rootId)
  {
    hide Inv, PortsOk, VisitAll, SelectPending, ReadyOf, CandidateNodes;
    var g := w.graph;
    assert Linked(g, g.rootId);
    assert AllSettled(g);
    assert IsVisitOrder(g, col.order(0, g));
    PassOfSettled(col, 0, w, col.order(0, g));
    assert IsCandidate(g, g.rootId);
    var candidates := CandidateNodes(g);
    assert g.rootId in candidates;
    NoPendingMeansReady(col.policy, g, candidates);
    EmptyOrNot(ReadyOf(g, candidates));
  }

  /** Whatever ill-formed decision the root of a new graph gets, for instance an atomic one with children, the
      run is recorded and its replay ends the root differently. */
  lemma IllFormedRootIsNotReplayed(col: Collaborators, goal: string, budget: Budget, d: Decision)
    requires ColOk(col) && !WellFormed(d) && forall t, u :: col.assess(t, u, "root") == Decided(d)
    ensures var w := World(Create(goal, [], [], budget), [], []);
            && Safe(w) && ColOk(Recording(col))
            && var recorded := Run(Recording(col), w);
               && ColOk(Replaying(col, TraceOf(recorded.calls)))
               && Run(Replaying(col, TraceOf(recorded.calls)), w).graph.nodes != recorded.graph.nodes
  {
    hide Inv, WellFormed, RunFrom, Iterate, ColOk, TraceOf, Keyed, UsedBy, ContextOf, AssessedOnce, PortsOk, Faithful;
    CreateInv(goal, [], [], budget);
    var w := World(Create(goal, [], [], budget), [], []);
    FreshPortsOk(w);
    ReplayLockstep(col, w);
    RecordingIsTransparent(col, w);
    RunCalls(col, w);
    var b := Begin(w);
    TreeOf(b);
    RootIsFirst(col, b);
    IterateCalls(col, 0, b);
    RunFromUnfolds(col, 0, b);
    RunFromCalls(col, 1, Iterate(col, 0, b));
    var calls := Run(col, w).calls;
    assert calls[0] == AssessCall("root", b.graph, Decided(d));
    TraceIsFaithful(calls);
    FirstIsRecorded(calls, d);
  }

  lemma FreshPortsOk(w: World)
    requires w.calls == []
    ensures PortsOk(w)
  {
  }

  lemma RunFromUnfolds(col: Collaborators, t: nat, w: World)
    requires ColOk(col) && Safe(w) && !RootEnded(w.graph)
    ensures Tree(w.graph) && Safe(Iterate(col, t, w)) && RunFrom(col, t, w) == RunFrom(col, t + 1, Iterate(col, t, w))
  {
    hide Inv, PortsOk, NoRunning, Follows, ColOk, Iterate;
    IterateAdvances(col, t, w);
    TreeOf(w);
    RoomIsBounded(w);
  }

  lemma FirstIsRecorded(calls: seq<PortCall>, d: Decision)
    requires Faithful(Keyed(TraceOf(calls)), calls) && |calls| > 0
    requires calls[0].AssessCall? && calls[0].answer == Decided(d) && calls[0].node in calls[0].graph.nodes
    ensures exists e :: e in TraceOf(calls) && e.decision == d
  {
    hide ContextOf, TraceOf;
    assert Answers(Keyed(TraceOf(calls)), calls[0]);
    KeyedInTrace(TraceOf(calls), calls[0].node);
  }
}
