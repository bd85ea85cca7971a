/** Decomposing one task keeps the graph invariant, because dot-free keys name only new nodes. */
module GraphGrowth {
  import opened Options
  import opened Order
  import opened Strings
  import opened TaskModel
  import opened DecompositionGraph
  import opened GraphInvariant

  ghost predicate StepAt(deps: Dependencies, p: seq<string>, i: int)
    requires 0 <= i < |p| - 1
  {
    p[i] in deps && p[i + 1] in deps[p[i]]
  }

  /** A walk along dependencies inside `s`. */
  ghost predicate IsWalk(deps: Dependencies, s: set<string>, p: seq<string>) {
    && (forall i :: 0 <= i < |p| ==> p[i] in s)
    && forall i {:trigger StepAt(deps, p, i)} :: 0 <= i < |p| - 1 ==> StepAt(deps, p, i)
  }

  ghost predicate DependsInside(deps: Dependencies, s: set<string>, k: string) {
    k in deps && exists d :: d in deps[k] && d in s
  }

  lemma {:induction false} Walk(deps: Dependencies, s: set<string>, x: string, n: nat) returns (p: seq<string>)
    requires x in s && forall k {:trigger DependsInside(deps, s, k)} :: k in s ==> DependsInside(deps, s, k)
    ensures |p| == n + 1 && p[0] == x && IsWalk(deps, s, p)
    decreases n
  {
    if n == 0 {
      p := [x];
    } else {
      assert DependsInside(deps, s, x);
      var d :| d in deps[x] && d in s;
      var rest := Walk(deps, s, d, n - 1);
      p := [x] + rest;
      forall i | 0 <= i < |p| - 1 ensures StepAt(deps, p, i) {
        if i > 0 { assert StepAt(deps, rest, i - 1); }
      }
    }
  }

  lemma {:induction false} Pigeonhole(p: seq<string>, s: set<string>)
    requires forall i :: 0 <= i < |p| ==> p[i] in s
    requires |p| > |s|
    ensures exists i, j :: 0 <= i < j < |p| && p[i] == p[j]
    decreases |p|
  {
    var n := |p| - 1;
    var last := p[n];
    if i :| 0 <= i < n && p[i] == last {
    } else {
      var init := p[..n];
      assert forall i :: 0 <= i < |init| ==> init[i] == p[i] && init[i] in s - {last};
      Pigeonhole(init, s - {last});
      var i, j :| 0 <= i < j < |init| && init[i] == init[j];
      assert p[i] == p[j];
    }
  }

  lemma RepeatIsCycle(deps: Dependencies, s: set<string>, p: seq<string>, i: nat, j: nat)
    requires s <= deps.Keys && IsWalk(deps, s, p)
    requires i < j < |p| && p[i] == p[j]
    ensures IsCycle(deps, p[i..j])
  {
    var c := p[i..j];
    forall k | 0 <= k < |c| - 1 ensures c[k + 1] in deps[c[k]] {
      assert StepAt(deps, p, i + k);
    }
    assert StepAt(deps, p, j - 1);
  }

  lemma SourcelessHasCycle(deps: Dependencies, s: set<string>)
    requires s <= deps.Keys && s != {}
    requires forall k {:trigger DependsInside(deps, s, k)} :: k in s ==> DependsInside(deps, s, k)
    ensures !Acyclic(deps)
  {
    var x :| x in s;
    var p := Walk(deps, s, x, |s|);
    Pigeonhole(p, s);
    var i, j :| 0 <= i < j < |p| && p[i] == p[j];
    RepeatIsCycle(deps, s, p, i, j);
  }

  /** Without a cycle every nonempty set of keys has a member with no dependency inside the set. */
  lemma AcyclicHasSource(deps: Dependencies, s: set<string>)
    requires s <= deps.Keys && s != {} && Acyclic(deps)
    ensures exists x :: x in s && forall d :: d in deps[x] ==> d !in s
  {
    if forall k {:trigger DependsInside(deps, s, k)} :: k in s ==> DependsInside(deps, s, k) {
      SourcelessHasCycle(deps, s);
    }
  }

  /** `h` is `g` with `specs` inserted under `p`. */
  ghost predicate Inserted(g: Graph, h: Graph, p: Id, specs: seq<ChildSpec>)
    requires p in g.nodes
  {
    && h == g.(nodes := h.nodes)
    && h.nodes.Keys == g.nodes.Keys + Elements(ChildIds(p, Keys(specs)))
    && h.nodes[p] == g.nodes[p].(children := g.nodes[p].children + ChildIds(p, Keys(specs)))
    && (forall s :: s in specs ==> HoldsChild(g, h, p, s))
    && (forall id :: id in g.nodes && id != p && id !in ChildIds(p, Keys(specs)) ==> h.nodes[id] == g.nodes[id])
  }

  ghost predicate HoldsChild(g: Graph, h: Graph, p: Id, s: ChildSpec)
    requires p in g.nodes
  {
    var id := ChildId(p, s.key);
    id in h.nodes && h.nodes[id] == ChildNode(p, g.nodes[p].depth + 1, s)
  }

  lemma InsertLast(g: Graph, m: Graph, p: Id, init: seq<ChildSpec>, last: ChildSpec)
    requires p in g.nodes && Inserted(g, m, p, init) && DistinctKeys(init + [last])
    ensures Inserted(g, AddChild(m, p, last), p, init + [last])
  {
    var specs := init + [last];
    var h := AddChild(m, p, last);
    var ids, id := ChildIds(p, Keys(init)), ChildId(p, last.key);
    assert ChildIds(p, Keys(specs)) == ids + [id];
    assert Elements(ids + [id]) == Elements(ids) + {id};
    forall s | s in specs ensures HoldsChild(g, h, p, s) {
      var i :| 0 <= i < |specs| && specs[i] == s;
      if i < |init| {
        assert HoldsChild(g, m, p, init[i]);
        assert specs[|init|] == last && s.key != last.key;
        OtherKeyOtherId(p, s.key, last.key);
      }
    }
  }

  lemma OtherKeyOtherId(p: Id, a: string, b: string)
    ensures ChildId(p, a) != p
    ensures a != b ==> ChildId(p, a) != ChildId(p, b)
  {
    assert |ChildId(p, a)| > |p|;
    if ChildId(p, a) == ChildId(p, b) {
      ChildIdKey(p, a, b);
    }
  }

  lemma {:induction false} AddChildrenContents(g: Graph, p: Id, specs: seq<ChildSpec>)
    requires p in g.nodes && DistinctKeys(specs)
    ensures Inserted(g, AddChildren(g, p, specs), p, specs)
  {
    if specs == [] {
      assert ChildIds(p, Keys(specs)) == [];
    } else {
      var init, last := specs[..|specs| - 1], specs[|specs| - 1];
      AddChildrenContents(g, p, init);
      assert init + [last] == specs;
      InsertLast(g, AddChildren(g, p, init), p, init, last);
    }
  }

  lemma ChildIdMember(p: Id, specs: seq<ChildSpec>, id: Id)
    requires id in ChildIds(p, Keys(specs))
    ensures exists s :: s in specs && id == ChildId(p, s.key)
  {
    var i :| 0 <= i < |specs| && ChildIds(p, Keys(specs))[i] == id;
    assert specs[i] in specs && id == ChildId(p, specs[i].key);
  }

  /** In a well-named tree a node named like a child of `p` is a child of `p`. */
  lemma NamesFindParents(g: Graph, p: Id, id: Id)
    requires Tree(g) && Named(g) && p in g.nodes && id in g.nodes && IsChildId(p, id)
    ensures id in g.nodes[p].children
  {
    assert Linked(g, id);
    assert id != g.rootId;
    ChildIdInjective(p, g.nodes[id].parent.value, id);
  }

  /** Dot-free keys under a childless node of a well-named tree name no existing node. */
  lemma ChildIdsAreFresh(g: Graph, p: Id, specs: seq<ChildSpec>)
    requires Tree(g) && Named(g)
    requires p in g.nodes && g.nodes[p].children == []
    requires forall s :: s in specs ==> DotFree(s.key)
    ensures forall id :: id in ChildIds(p, Keys(specs)) ==> id !in g.nodes
  {
    forall id | id in ChildIds(p, Keys(specs)) ensures id !in g.nodes {
      ChildIdMember(p, specs, id);
      if id in g.nodes {
        NamesFindParents(g, p, id);
      }
    }
  }

  /** The graph after a task is decomposed: its children are new and it waits for them. */
  function Decompose(g: Graph, p: Id, specs: seq<ChildSpec>): Graph
    requires p in g.nodes
  {
    var h := AddChildren(g, p, specs);
    PutGraph(h, p, h.nodes[p].(status := Waiting))
  }

  ghost predicate Decomposable(g: Graph, p: Id, specs: seq<ChildSpec>) {
    && p in g.nodes && g.nodes[p].status.Pending? && AllCompleted(g, g.nodes[p].deps)
    && specs != [] && SpecsOk(specs)
    && (forall s :: s in specs ==> DotFree(s.key))
    && g.nodes[p].depth < g.budget.maxDepth
    && |g.nodes| + |specs| <= g.budget.maxNodes
  }

  /** Old nodes other than the parent are untouched; the new ones are pending children. */
  ghost predicate Grown(g: Graph, h: Graph, p: Id, specs: seq<ChildSpec>)
    requires p in g.nodes
  {
    var ids := ChildIds(p, Keys(specs));
    && h == g.(nodes := h.nodes)
    && h.nodes.Keys == g.nodes.Keys + Elements(ids)
    && (forall id :: id in ids ==> id !in g.nodes)
    && h.nodes[p] == g.nodes[p].(children := ids, status := Waiting)
    && (forall s :: s in specs ==> HoldsChild(g, h, p, s))
    && (forall id :: id in g.nodes && id != p ==> h.nodes[id] == g.nodes[id])
  }

  lemma DecomposeGrows(g: Graph, p: Id, specs: seq<ChildSpec>)
    requires Tree(g) && Named(g) && Statuses(g) && Decomposable(g, p, specs)
    ensures Grown(g, Decompose(g, p, specs), p, specs)
  {
    hide Inserted, Grown, AddChildren, Acyclic, DependencyMap, DistinctKeys, Tree, Named;
    assert StatusOk(g, p);
    ChildIdsAreFresh(g, p, specs);
    AddChildrenContents(g, p, specs);
    InsertedGrows(g, AddChildren(g, p, specs), p, specs);
  }

  lemma InsertedGrows(g: Graph, m: Graph, p: Id, specs: seq<ChildSpec>)
    requires p in g.nodes && p in m.nodes && Inserted(g, m, p, specs) && g.nodes[p].children == []
    requires forall id :: id in ChildIds(p, Keys(specs)) ==> id !in g.nodes
    ensures Grown(g, PutGraph(m, p, m.nodes[p].(status := Waiting)), p, specs)
  {
    hide HoldsChild, ChildIds, Keys;
    var ids := ChildIds(p, Keys(specs));
    var h := PutGraph(m, p, m.nodes[p].(status := Waiting));
    assert forall id :: id in ids <==> id in Elements(ids);
    forall s | s in specs ensures HoldsChild(g, h, p, s) {
      HoldsAfterWaiting(g, m, p, s);
    }
  }

  lemma HoldsAfterWaiting(g: Graph, m: Graph, p: Id, s: ChildSpec)
    requires p in g.nodes && p in m.nodes && HoldsChild(g, m, p, s)
    ensures HoldsChild(g, PutGraph(m, p, m.nodes[p].(status := Waiting)), p, s)
  {
    OtherKeyOtherId(p, s.key, s.key);
  }

  lemma NewNode(g: Graph, h: Graph, p: Id, specs: seq<ChildSpec>, id: Id)
    requires p in g.nodes && Grown(g, h, p, specs) && id in h.nodes && id !in g.nodes
    ensures exists s :: s in specs && id == ChildId(p, s.key) && h.nodes[id] == ChildNode(p, g.nodes[p].depth + 1, s)
    ensures id in h.nodes[p].children
  {
    assert id in Elements(ChildIds(p, Keys(specs)));
    ChildIdMember(p, specs, id);
    var s :| s in specs && id == ChildId(p, s.key);
    assert HoldsChild(g, h, p, s);
  }

  lemma GrownTree(g: Graph, h: Graph, p: Id, specs: seq<ChildSpec>)
    requires Tree(g) && p in g.nodes && g.nodes[p].children == []
    requires Grown(g, h, p, specs) && KnownDependencies(specs)
    ensures Tree(h)
  {
    forall id | id in h.nodes ensures Linked(h, id) {
      if id in g.nodes {
        assert Linked(g, id);
        if id == p {
          ParentLinked(g, h, p, specs);
        }
      } else {
        NewLinked(g, h, p, specs, id);
      }
    }
  }

  lemma ParentLinked(g: Graph, h: Graph, p: Id, specs: seq<ChildSpec>)
    requires p in g.nodes && Linked(g, p) && g.nodes[p].children == []
    requires Grown(g, h, p, specs)
    ensures Linked(h, p)
  {
    forall c | c in h.nodes[p].children ensures c in h.nodes && h.nodes[c].parent == Some(p) {
      assert c in Elements(ChildIds(p, Keys(specs)));
      NewNode(g, h, p, specs, c);
    }
  }

  lemma NewLinked(g: Graph, h: Graph, p: Id, specs: seq<ChildSpec>, id: Id)
    requires p in g.nodes && g.rootId in g.nodes && Grown(g, h, p, specs) && KnownDependencies(specs)
    requires id in h.nodes && id !in g.nodes
    ensures Linked(h, id)
  {
    NewNode(g, h, p, specs, id);
    var s :| s in specs && id == ChildId(p, s.key) && h.nodes[id] == ChildNode(p, g.nodes[p].depth + 1, s);
    forall d | d in h.nodes[id].deps ensures d in h.nodes && h.nodes[d].parent == Some(p) {
      DependencyIsNew(p, specs, s, d);
      assert d in Elements(ChildIds(p, Keys(specs)));
      NewNode(g, h, p, specs, d);
    }
  }

  lemma DependencyIsNew(p: Id, specs: seq<ChildSpec>, s: ChildSpec, d: Id)
    requires KnownDependencies(specs) && s in specs && d in ChildIds(p, s.dependsOn)
    ensures d in ChildIds(p, Keys(specs))
  {
    var i :| 0 <= i < |s.dependsOn| && ChildIds(p, s.dependsOn)[i] == d;
    assert s.dependsOn[i] in Keys(specs);
    var j :| 0 <= j < |specs| && Keys(specs)[j] == s.dependsOn[i];
    assert ChildIds(p, Keys(specs))[j] == d;
  }

  lemma GrownGrounded(g: Graph, h: Graph, p: Id, specs: seq<ChildSpec>)
    requires Grounded(g) && p in g.nodes && Grown(g, h, p, specs)
    requires DistinctKeys(specs) && KnownDependencies(specs) && Acyclic(DependencyMap(specs))
    ensures Grounded(h)
  {
    forall s: set<Id> | s <= h.nodes.Keys && s != {} ensures HasSource(h, s) {
      if s <= g.nodes.Keys {
        OldSource(g, h, p, specs, s);
      } else {
        var id :| id in s && id !in g.nodes;
        NewSource(g, h, p, specs, s, id);
      }
    }
  }

  lemma OldSource(g: Graph, h: Graph, p: Id, specs: seq<ChildSpec>, s: set<Id>)
    requires p in g.nodes && Grown(g, h, p, specs) && s <= g.nodes.Keys && HasSource(g, s)
    ensures s <= h.nodes.Keys && HasSource(h, s)
  {
    var x :| x in s && forall d :: d in g.nodes[x].deps ==> d !in s;
    assert h.nodes[x].deps == g.nodes[x].deps;
  }

  /** A set reaching into the new children has its source among them. */
  lemma NewSource(g: Graph, h: Graph, p: Id, specs: seq<ChildSpec>, s: set<Id>, id: Id)
    requires p in g.nodes && Grown(g, h, p, specs) && s <= h.nodes.Keys && id in s && id !in g.nodes
    requires DistinctKeys(specs) && KnownDependencies(specs) && Acyclic(DependencyMap(specs))
    ensures HasSource(h, s)
  {
    DependencyMapContents(specs);
    var keys := set k | k in DependencyMap(specs) && ChildId(p, k) in s;
    NewNode(g, h, p, specs, id);
    var spec :| spec in specs && id == ChildId(p, spec.key);
    assert spec.key in keys;
    AcyclicHasSource(DependencyMap(specs), keys);
    var k :| k in keys && forall d :: d in DependencyMap(specs)[k] ==> d !in keys;
    SourceOfKeys(g, h, p, specs, s, keys, k);
  }

  lemma SourceOfKeys(g: Graph, h: Graph, p: Id, specs: seq<ChildSpec>, s: set<Id>, keys: set<string>, k: string)
    requires p in g.nodes && Grown(g, h, p, specs) && s <= h.nodes.Keys
    requires DistinctKeys(specs) && KnownDependencies(specs)
    requires keys == set k | k in DependencyMap(specs) && ChildId(p, k) in s
    requires k in keys && forall d :: d in DependencyMap(specs)[k] ==> d !in keys
    ensures HasSource(h, s)
  {
    DependencyMapContents(specs);
    DependencyMapClosed(specs);
    assert k in Elements(Keys(specs));
    var i :| 0 <= i < |specs| && Keys(specs)[i] == k;
    var spec := specs[i];
    assert HoldsChild(g, h, p, spec);
    var x := ChildId(p, k);
    forall d | d in h.nodes[x].deps ensures d !in s {
      var j :| 0 <= j < |spec.dependsOn| && ChildIds(p, spec.dependsOn)[j] == d;
      assert spec.dependsOn[j] in DependencyMap(specs)[k];
    }
  }

  lemma GrownStatuses(g: Graph, h: Graph, p: Id, specs: seq<ChildSpec>)
    requires Statuses(g) && Decomposable(g, p, specs) && Grown(g, h, p, specs)
    ensures Statuses(h)
  {
    forall id | id in h.nodes ensures StatusOk(h, id) {
      if id in g.nodes {
        OldStatus(g, h, p, specs, id);
      } else {
        NewNode(g, h, p, specs, id);
      }
    }
  }

  lemma OldStatus(g: Graph, h: Graph, p: Id, specs: seq<ChildSpec>, id: Id)
    requires id in g.nodes && StatusOk(g, id) && Decomposable(g, p, specs) && Grown(g, h, p, specs)
    ensures StatusOk(h, id)
  {
    hide SpecsOk, HoldsChild, AllCompleted;
    CompletedKept(g, h, p, specs, g.nodes[id].children);
    CompletedKept(g, h, p, specs, g.nodes[id].deps);
  }

  lemma CompletedKept(g: Graph, h: Graph, p: Id, specs: seq<ChildSpec>, ids: seq<Id>)
    requires Decomposable(g, p, specs) && Grown(g, h, p, specs)
    ensures AllCompleted(g, ids) ==> AllCompleted(h, ids)
  {
    hide SpecsOk, HoldsChild;
  }

  lemma GrownCounted(g: Graph, h: Graph, p: Id, specs: seq<ChildSpec>)
    requires Counted(g) && p in g.nodes && Grown(g, h, p, specs)
    ensures Counted(h)
  {
    forall id | id in h.nodes
      ensures h.nodes[id].attempts == Starts(h.events, id) && h.nodes[id].retries == Scheduled(h.events, id)
    {
      if id !in g.nodes {
        NewNode(g, h, p, specs, id);
        UnknownNodeUncounted(g.events, id);
      }
    }
  }

  lemma {:induction false} UnknownNodeUncounted(events: seq<Event>, id: Id)
    requires forall e :: e in events && !Quiet(e) ==> e.node != id
    ensures Starts(events, id) == 0 && Scheduled(events, id) == 0
  {
    if events == [] {
    } else {
      UnknownNodeUncounted(events[..|events| - 1], id);
      assert events[|events| - 1] in events;
    }
  }

  lemma GrownBudget(g: Graph, h: Graph, p: Id, specs: seq<ChildSpec>)
    requires WithinBudget(g) && Decomposable(g, p, specs) && Grown(g, h, p, specs)
    ensures WithinBudget(h) && |h.nodes| > |g.nodes|
  {
    var ids := ChildIds(p, Keys(specs));
    assert |h.nodes| == |h.nodes.Keys| && |g.nodes| == |g.nodes.Keys|;
    ElementsSize(ids);
    assert h.nodes.Keys == g.nodes.Keys + Elements(ids) && g.nodes.Keys !! Elements(ids);
    assert ids[0] in Elements(ids);
    forall id | id in h.nodes ensures h.nodes[id].depth <= Max(0, h.budget.maxDepth) {
      if id !in g.nodes {
        NewNode(g, h, p, specs, id);
      }
    }
  }

  lemma {:induction false} ElementsSize<T>(s: seq<T>)
    ensures |Elements(s)| <= |s|
  {
    if s == [] {
    } else {
      var init := s[..|s| - 1];
      ElementsSize(init);
      assert Elements(s) == Elements(init) + {s[|s| - 1]};
    }
  }

  lemma GrownNamed(g: Graph, h: Graph, p: Id, specs: seq<ChildSpec>)
    requires Named(g) && p in g.nodes && Grown(g, h, p, specs)
    requires forall s :: s in specs ==> DotFree(s.key)
    ensures Named(h)
  {
    forall id | id in h.nodes && h.nodes[id].parent.Some? ensures IsChildId(h.nodes[id].parent.value, id) {
      if id !in g.nodes {
        NewNode(g, h, p, specs, id);
      }
    }
  }

  /** Decomposing a pending task keeps the invariant and overwrites nothing. */
  lemma DecomposeKeepsInv(g: Graph, p: Id, specs: seq<ChildSpec>)
    requires Inv(g) && Decomposable(g, p, specs)
    ensures Inv(Decompose(g, p, specs)) && Grown(g, Decompose(g, p, specs), p, specs)
    ensures |Decompose(g, p, specs).nodes| > |g.nodes|
  {
    assert StatusOk(g, p);
    DecomposeGrows(g, p, specs);
    var h := Decompose(g, p, specs);
    GrownTree(g, h, p, specs);
    GrownNamed(g, h, p, specs);
    GrownGrounded(g, h, p, specs);
    GrownStatuses(g, h, p, specs);
    GrownCounted(g, h, p, specs);
    GrownBudget(g, h, p, specs);
  }
}
