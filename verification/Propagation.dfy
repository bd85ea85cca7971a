/** One bottom-up pass that turns completed or defeated children and dependencies into the state of
    the nodes that wait for them. */
module Propagation {
  import opened Options
  import opened TaskModel
  import opened GraphInvariant

  predicate AnyDefeated(g: Graph, ids: seq<Id>) {
    exists d | d in ids :: d in g.nodes && Defeated(g.nodes[d].status)
  }

  predicate EveryCompleted(g: Graph, ids: seq<Id>) {
    forall d | d in ids :: d in g.nodes && g.nodes[d].status.Completed?
  }

  /** Deeper nodes first; nodes of equal depth in any order. */
  ghost predicate IsVisitOrder(g: Graph, order: seq<Id>) {
    && (forall i, j :: 0 <= i < j < |order| ==> order[i] != order[j])
    && (forall id :: id in order <==> id in g.nodes)
    && (forall i, j :: 0 <= i < j < |order| ==> order[i] in g.nodes && order[j] in g.nodes
                                                && g.nodes[order[i]].depth >= g.nodes[order[j]].depth)
  }

  function BlockNode(w: World, id: Id, reason: Reason): World
    requires id in w.graph.nodes
  {
    Save(Log(Conclude(w, id, Blocked, Some(reason)), TaskBlocked(id)))
  }

  /** The parent takes the verdict of the integration verifier. */
  function Integrate(w: World, id: Id, r: LeafResult): World
    requires id in w.graph.nodes
  {
    var n := w.graph.nodes[id].(result := Some(r));
    if r.status.Succeeded? then
      Save(Log(Put(w, id, n.(status := Completed)), IntegrationCompleted(id)))
    else
      Save(Log(Put(w, id, n.(status := if r.status.Stuck? then Blocked else Failed, error := Some(Reported(r.Text())))),
               IntegrationFailed(id)))
  }

  function VisitParent(col: Collaborators, t: nat, w: World, id: Id): World
    requires id in w.graph.nodes
  {
    var children := w.graph.nodes[id].children;
    if AnyDefeated(w.graph, children) then BlockNode(w, id, ChildDefeated)
    else if !EveryCompleted(w.graph, children) then w
    else Integrate(w, id, col.verify(t, w, id))
  }

  function Visit(col: Collaborators, t: nat, w: World, id: Id): (r: World)
    requires id in w.graph.nodes
    ensures r.graph.nodes.Keys == w.graph.nodes.Keys
  {
    var n := w.graph.nodes[id];
    if Terminal(n.status) then w
    else if AnyDefeated(w.graph, n.deps) then BlockNode(w, id, DependencyDefeated)
    else if n.children != [] then VisitParent(col, t, w, id)
    else w
  }

  function VisitAll(col: Collaborators, t: nat, w: World, order: seq<Id>): (r: World)
    requires forall id :: id in order ==> id in w.graph.nodes
    ensures r.graph.nodes.Keys == w.graph.nodes.Keys
  {
    if order == [] then w
    else Visit(col, t, VisitAll(col, t, w, order[..|order| - 1]), order[|order| - 1])
  }

  method PropagateParent(scheduler: TaskScheduler, graph: TaskGraph, t: nat, id: Id) returns (changed: bool)
    requires id in graph.nodes
    modifies scheduler, graph
    ensures scheduler.Here(graph) == VisitParent(scheduler.col, t, old(scheduler.Here(graph)), id)
    ensures |graph.events| >= |old(graph.events)|
    ensures changed <==> |graph.events| > |old(graph.events)|
    ensures !changed ==> scheduler.Here(graph) == old(scheduler.Here(graph))
  {
    var children := graph.nodes[id].children;
    if AnyDefeated(graph.Value(), children) {
      scheduler.Finish(graph, id, Blocked, Some(ChildDefeated));
      scheduler.Record(graph, TaskBlocked(id));
      scheduler.Store(graph);
      return true;
    }
    if !EveryCompleted(graph.Value(), children) {
      return false;
    }
    var result := scheduler.col.verify(t, scheduler.Here(graph), id);
    graph.nodes := graph.nodes[id := graph.nodes[id].(result := Some(result))];
    if result.status.Succeeded? {
      graph.nodes := graph.nodes[id := graph.nodes[id].(status := Completed)];
      scheduler.Record(graph, IntegrationCompleted(id));
    } else {
      scheduler.Finish(graph, id, if result.status.Stuck? then Blocked else Failed, Some(Reported(result.Text())));
      scheduler.Record(graph, IntegrationFailed(id));
    }
    assert graph.nodes == old(graph.nodes)[id := graph.nodes[id]];
    scheduler.Store(graph);
    return true;
  }

  method PropagateNode(scheduler: TaskScheduler, graph: TaskGraph, t: nat, id: Id) returns (changed: bool)
    requires id in graph.nodes
    modifies scheduler, graph
    ensures scheduler.Here(graph) == Visit(scheduler.col, t, old(scheduler.Here(graph)), id)
    ensures |graph.events| >= |old(graph.events)|
    ensures changed <==> |graph.events| > |old(graph.events)|
    ensures !changed ==> scheduler.Here(graph) == old(scheduler.Here(graph))
  {
    hide AnyDefeated, EveryCompleted, VisitParent;
    changed := false;
    if !Terminal(graph.nodes[id].status) {
      if AnyDefeated(graph.Value(), graph.nodes[id].deps) {
        scheduler.Finish(graph, id, Blocked, Some(DependencyDefeated));
        scheduler.Record(graph, TaskBlocked(id));
        scheduler.Store(graph);
        changed := true;
      } else if graph.nodes[id].children != [] {
        changed := PropagateParent(scheduler, graph, t, id);
      }
    }
  }

  method Propagate(scheduler: TaskScheduler, graph: TaskGraph, t: nat, order: seq<Id>) returns (changed: bool)
    requires IsVisitOrder(graph.Value(), order)
    modifies scheduler, graph
    ensures scheduler.Here(graph) == VisitAll(scheduler.col, t, old(scheduler.Here(graph)), order)
    ensures changed <==> |graph.events| > |old(graph.events)|
    ensures !changed ==> scheduler.Here(graph) == old(scheduler.Here(graph))
  {
    hide Visit;
    changed := false;
    ghost var start := scheduler.Here(graph);
    for i := 0 to |order|
      invariant graph.nodes.Keys == start.graph.nodes.Keys
      invariant scheduler.Here(graph) == VisitAll(scheduler.col, t, start, order[..i])
      invariant |graph.events| >= |start.graph.events|
      invariant changed <==> |graph.events| > |start.graph.events|
      invariant !changed ==> scheduler.Here(graph) == start
    {
      assert order[..i + 1][..i] == order[..i];
      var moved := PropagateNode(scheduler, graph, t, order[i]);
      changed := moved || changed;
    }
    assert order[..|order|] == order;
  }

  /** The graph and everything handed to the store satisfy the invariant. */
  ghost predicate WorldOk(w: World) {
    Inv(w.graph) && forall s :: s in w.saves ==> Inv(s)
  }

  /** Node `id` becomes terminal, the graph is saved, and nothing else changes. */
  ghost predicate Ends(w: World, v: World, id: Id)
    requires id in w.graph.nodes
  {
    && v.calls == w.calls && v.saves == w.saves + [v.graph]
    && Touches(w.graph, v.graph, id)
    && Terminal(v.graph.nodes[id].status)
    && Allowed(w.graph, id, v.graph.nodes[id].status)
  }

  lemma BlockEnds(w: World, id: Id, reason: Reason)
    requires id in w.graph.nodes && !Terminal(w.graph.nodes[id].status)
    ensures Ends(w, BlockNode(w, id, reason), id)
  {
    assert (w.graph.events + [TaskBlocked(id)])[..|w.graph.events|] == w.graph.events;
  }

  lemma IntegrateEnds(w: World, id: Id, r: LeafResult)
    requires id in w.graph.nodes && !Terminal(w.graph.nodes[id].status)
    requires AllCompleted(w.graph, w.graph.nodes[id].children) && AllCompleted(w.graph, w.graph.nodes[id].deps)
    ensures Ends(w, Integrate(w, id, r), id)
  {
    var v := Integrate(w, id, r);
    assert v.graph.events[..|w.graph.events|] == w.graph.events;
  }

  /** A visit leaves the world alone, or ends the visited node. */
  lemma VisitEffect(col: Collaborators, t: nat, w: World, id: Id)
    requires Statuses(w.graph) && id in w.graph.nodes
    ensures var v := Visit(col, t, w, id);
            v == w || Ends(w, v, id)
  {
    var n := w.graph.nodes[id];
    assert StatusOk(w.graph, id);
    if !Terminal(n.status) {
      if AnyDefeated(w.graph, n.deps) {
        BlockEnds(w, id, DependencyDefeated);
      } else if n.children != [] {
        if AnyDefeated(w.graph, n.children) {
          BlockEnds(w, id, ChildDefeated);
        } else if EveryCompleted(w.graph, n.children) {
          IntegrateEnds(w, id, col.verify(t, w, id));
        }
      }
    }
  }

  lemma BlockDecides(w: World, id: Id, reason: Reason)
    requires id in w.graph.nodes
    ensures var n, v := w.graph.nodes[id], BlockNode(w, id, reason);
            && v.graph.nodes == w.graph.nodes[id := n.(status := Blocked, error := Some(reason))]
            && v.graph.events == w.graph.events + [TaskBlocked(id)] && v.saves == w.saves + [v.graph]
  {
  }

  lemma IntegrateDecides(w: World, id: Id, r: LeafResult)
    requires id in w.graph.nodes
    ensures var n, v := w.graph.nodes[id], Integrate(w, id, r);
            && v.graph.nodes == w.graph.nodes[id := v.graph.nodes[id]] && v.saves == w.saves + [v.graph]
            && v.graph.events ==
               w.graph.events + [if r.status.Succeeded? then IntegrationCompleted(id) else IntegrationFailed(id)]
            && v.graph.nodes[id] ==
               n.(result := Some(r),
                  status := (match r.status case Succeeded => Completed case Stuck => Blocked case Broken => Failed),
                  error := if r.status.Succeeded? then n.error else Some(Reported(r.Text())))
  {
  }

  /** What a visit decides about a node that has not ended: a failed or blocked dependency blocks it, failing that a
      failed or blocked child does, and once all its children are completed the verifier's verdict is its own. Otherwise
      nothing happens, and no other node ever changes. */
  lemma VisitDecides(col: Collaborators, t: nat, w: World, id: Id)
    requires id in w.graph.nodes && !Terminal(w.graph.nodes[id].status)
    ensures var g, n, v, verdict := w.graph.nodes, w.graph.nodes[id], Visit(col, t, w, id), col.verify(t, w, id);
            var m := v.graph.nodes[id];
            && (forall x :: x in g && x != id ==> v.graph.nodes[x] == g[x])
            && (v != w ==> v.saves == w.saves + [v.graph])
            && if exists d :: d in n.deps && d in g && (g[d].status.Failed? || g[d].status.Blocked?) then
                 m == n.(status := Blocked, error := Some(DependencyDefeated))
                 && v.graph.events == w.graph.events + [TaskBlocked(id)]
               else if exists c :: c in n.children && c in g && (g[c].status.Failed? || g[c].status.Blocked?) then
                 m == n.(status := Blocked, error := Some(ChildDefeated))
                 && v.graph.events == w.graph.events + [TaskBlocked(id)]
               else if n.children != [] && forall c :: c in n.children ==> c in g && g[c].status.Completed? then
                 && v.graph.events ==
                    w.graph.events + [if verdict.status.Succeeded? then IntegrationCompleted(id)
                                      else IntegrationFailed(id)]
                 && m == n.(result := Some(verdict),
                            status := (match verdict.status
                                       case Succeeded => Completed case Stuck => Blocked case Broken => Failed),
                            error := if verdict.status.Succeeded? then n.error
                                     else if verdict.error.Some? && verdict.error.value != "" then
                                       Some(Reported(verdict.error.value))
                                     else Some(Reported(verdict.summary)))
               else v == w
  {
    hide BlockNode, Integrate;
    BlockDecides(w, id, DependencyDefeated);
    BlockDecides(w, id, ChildDefeated);
    IntegrateDecides(w, id, col.verify(t, w, id));
  }

  lemma VisitKeepsWorldOk(col: Collaborators, t: nat, w: World, id: Id)
    requires WorldOk(w) && id in w.graph.nodes
    ensures WorldOk(Visit(col, t, w, id)) && SameShape(w.graph, Visit(col, t, w, id).graph)
  {
    VisitEffect(col, t, w, id);
    var v := Visit(col, t, w, id);
    if v != w {
      TouchKeepsInv(w.graph, v.graph, id);
    }
  }

  /** Nothing is left to pass on to `id`: a defeated child has defeated it, and it does not wait for
      children that are all completed. */
  ghost predicate Settled(g: Graph, id: Id)
    requires id in g.nodes
  {
    && (AnyDefeated(g, g.nodes[id].children) ==> Defeated(g.nodes[id].status))
    && (g.nodes[id].status.Waiting? ==> !EveryCompleted(g, g.nodes[id].children))
  }

  ghost predicate AllSettled(g: Graph) {
    forall id {:trigger Settled(g, id)} :: id in g.nodes ==> Settled(g, id)
  }

  lemma NotOwnChild(g: Graph, id: Id, c: Id)
    requires Tree(g) && id in g.nodes && c in g.nodes[id].children
    ensures c in g.nodes && g.nodes[c].depth == g.nodes[id].depth + 1 && c != id
  {
    assert Linked(g, id);
    assert Linked(g, c);
  }

  lemma VisitSettles(col: Collaborators, t: nat, w: World, id: Id)
    requires WorldOk(w) && id in w.graph.nodes
    ensures Settled(Visit(col, t, w, id).graph, id)
  {
    VisitEffect(col, t, w, id);
    var g, h := w.graph, Visit(col, t, w, id).graph;
    assert StatusOk(g, id);
    forall c | c in g.nodes[id].children ensures c in g.nodes && h.nodes[c] == g.nodes[c] {
      NotOwnChild(g, id, c);
    }
  }

  lemma VisitKeepsSettled(col: Collaborators, t: nat, w: World, x: Id, y: Id)
    requires WorldOk(w) && x in w.graph.nodes && y in w.graph.nodes && x != y
    requires x !in w.graph.nodes[y].children && Settled(w.graph, y)
    ensures Settled(Visit(col, t, w, x).graph, y)
  {
    VisitEffect(col, t, w, x);
    assert Linked(w.graph, y);
  }

  lemma VisitKeepsAllSettled(col: Collaborators, t: nat, w: World, order: seq<Id>, k: nat)
    requires WorldOk(w) && k < |order| && IsVisitOrder(w.graph, order)
    requires forall i {:trigger order[i]} :: 0 <= i < k ==> Settled(w.graph, order[i])
    ensures forall i {:trigger order[i]} :: 0 <= i <= k ==> Settled(Visit(col, t, w, order[k]).graph, order[i])
  {
    hide Visit, Settled;
    var x := order[k];
    VisitSettles(col, t, w, x);
    forall i | 0 <= i < k ensures Settled(Visit(col, t, w, x).graph, order[i]) {
      if x in w.graph.nodes[order[i]].children {
        NotOwnChild(w.graph, order[i], x);
      } else {
        VisitKeepsSettled(col, t, w, x, order[i]);
      }
    }
  }

  lemma VisitCalls(col: Collaborators, t: nat, w: World, id: Id)
    requires id in w.graph.nodes
    ensures Visit(col, t, w, id).calls == w.calls
  {
  }

  lemma ShapeTrans(a: Graph, b: Graph, c: Graph)
    requires SameShape(a, b) && SameShape(b, c)
    ensures SameShape(a, c)
  {
  }

  lemma ShapeSame(g: Graph)
    ensures SameShape(g, g)
  {
  }

  lemma ShapeKeepsOrder(g: Graph, h: Graph, order: seq<Id>)
    requires SameShape(g, h) && IsVisitOrder(g, order)
    ensures IsVisitOrder(h, order)
  {
  }

  /** Sweeping a prefix of the order settles it for the rest of the pass. */
  lemma {:induction false} Sweep(col: Collaborators, t: nat, w: World, order: seq<Id>, k: nat)
    requires WorldOk(w) && IsVisitOrder(w.graph, order) && k <= |order|
    ensures var v := VisitAll(col, t, w, order[..k]);
            && WorldOk(v) && SameShape(w.graph, v.graph) && v.calls == w.calls
            && forall i {:trigger order[i]} :: 0 <= i < k ==> Settled(v.graph, order[i])
  {
    hide Visit, Settled, WorldOk, SameShape;
    if k == 0 {
      ShapeSame(w.graph);
    } else {
      Sweep(col, t, w, order, k - 1);
      assert order[..k][..k - 1] == order[..k - 1];
      var u := VisitAll(col, t, w, order[..k - 1]);
      ShapeKeepsOrder(w.graph, u.graph, order);
      VisitKeepsWorldOk(col, t, u, order[k - 1]);
      VisitCalls(col, t, u, order[k - 1]);
      VisitKeepsAllSettled(col, t, u, order, k - 1);
      ShapeTrans(w.graph, u.graph, Visit(col, t, u, order[k - 1]).graph);
    }
  }

  /** A whole pass settles the graph. */
  lemma PassSettles(col: Collaborators, t: nat, w: World, order: seq<Id>)
    requires WorldOk(w) && IsVisitOrder(w.graph, order)
    ensures var v := VisitAll(col, t, w, order);
            WorldOk(v) && SameShape(w.graph, v.graph) && v.calls == w.calls && AllSettled(v.graph)
  {
    hide Settled, Visit, VisitAll, WorldOk;
    Sweep(col, t, w, order, |order|);
    assert order[..|order|] == order;
    var v := VisitAll(col, t, w, order);
    forall id | id in v.graph.nodes ensures Settled(v.graph, id) {
      var i :| 0 <= i < |order| && order[i] == id;
    }
  }

  /** In a settled graph a defeat anywhere has reached the root. */
  lemma {:induction false} DefeatReachesRoot(g: Graph, id: Id)
    requires Tree(g) && AllSettled(g) && id in g.nodes && Defeated(g.nodes[id].status)
    ensures Defeated(g.nodes[g.rootId].status)
    decreases g.nodes[id].depth
  {
    if id == g.rootId {
    } else {
      assert Linked(g, id);
      var p := g.nodes[id].parent.value;
      assert Settled(g, p);
      DefeatReachesRoot(g, p);
    }
  }

  /** A visit of any node of a settled graph without defeats changes nothing. */
  lemma VisitOfSettled(col: Collaborators, t: nat, w: World, id: Id)
    requires Inv(w.graph) && AllSettled(w.graph) && !Terminal(w.graph.nodes[w.graph.rootId].status)
    requires id in w.graph.nodes
    ensures Visit(col, t, w, id) == w
  {
    forall x | x in w.graph.nodes ensures !Defeated(w.graph.nodes[x].status) {
      if Defeated(w.graph.nodes[x].status) {
        DefeatReachesRoot(w.graph, x);
      }
    }
    assert Settled(w.graph, id) && StatusOk(w.graph, id);
  }

  lemma {:induction false} PassOfSettled(col: Collaborators, t: nat, w: World, order: seq<Id>)
    requires Inv(w.graph) && AllSettled(w.graph) && !Terminal(w.graph.nodes[w.graph.rootId].status)
    requires forall id :: id in order ==> id in w.graph.nodes
    ensures VisitAll(col, t, w, order) == w
  {
    if order == [] {
    } else {
      PassOfSettled(col, t, w, order[..|order| - 1]);
      VisitOfSettled(col, t, w, order[|order| - 1]);
    }
  }

  /** One pass suffices: any defeat reaches the root within the pass, and unless the root is then
      terminal another pass, in any order and with any verdicts, changes nothing. */
  lemma OnePassSuffices(col: Collaborators, t: nat, w: World, order: seq<Id>)
    requires WorldOk(w) && IsVisitOrder(w.graph, order)
    ensures var v := VisitAll(col, t, w, order);
            && v.graph.rootId in v.graph.nodes
            && ((exists id :: id in v.graph.nodes && Defeated(v.graph.nodes[id].status)) <==>
                Defeated(v.graph.nodes[v.graph.rootId].status))
            && (Terminal(v.graph.nodes[v.graph.rootId].status) ||
                forall col', t', order' ::
                  IsVisitOrder(v.graph, order') ==> VisitAll(col', t', v, order') == v)
  {
    PassSettles(col, t, w, order);
    var v := VisitAll(col, t, w, order);
    if id :| id in v.graph.nodes && Defeated(v.graph.nodes[id].status) {
      DefeatReachesRoot(v.graph, id);
    }
    if !Terminal(v.graph.nodes[v.graph.rootId].status) {
      forall col', t', order' | IsVisitOrder(v.graph, order')
        ensures VisitAll(col', t', v, order') == v
      {
        PassOfSettled(col', t', v, order');
      }
    }
  }
}
