/** Checking and inserting the children of one decomposed task. */
module DecompositionGraph {
  import opened Options
  import opened Order
  import opened Strings
  import opened TaskModel

  type Dependencies = map<string, seq<string>>

  ghost predicate Closed(deps: Dependencies) {
    forall k, d :: k in deps && d in deps[k] ==> d in deps
  }

  /** A nonempty round trip along dependencies. */
  ghost predicate IsCycle(deps: Dependencies, p: seq<string>) {
    && |p| > 0
    && (forall i :: 0 <= i < |p| ==> p[i] in deps)
    && (forall i :: 0 <= i < |p| - 1 ==> p[i + 1] in deps[p[i]])
    && p[0] in deps[p[|p| - 1]]
  }

  ghost predicate Acyclic(deps: Dependencies) {
    forall p :: !IsCycle(deps, p)
  }

  /** Every key's dependencies come before it, and no key comes twice. */
  ghost predicate Topological(deps: Dependencies, order: seq<string>) {
    && (forall i, j :: 0 <= i < j < |order| ==> order[i] != order[j])
    && (forall i :: 0 <= i < |order| ==> order[i] in deps)
    && (forall i, d :: 0 <= i < |order| && d in deps[order[i]] ==> d in order[..i])
  }

  lemma {:induction false} CycleDescends(deps: Dependencies, order: seq<string>, p: seq<string>, i: nat, at: nat)
    requires Topological(deps, order) && IsCycle(deps, p)
    requires i < |p| && at < |order| && order[at] == p[0]
    ensures exists k :: 0 <= k < |order| && order[k] == p[i] && k <= at - i
  {
    if i == 0 {
    } else {
      CycleDescends(deps, order, p, i - 1, at);
      var k :| 0 <= k < |order| && order[k] == p[i - 1] && k <= at - (i - 1);
      assert p[i] in deps[order[k]];
      assert p[i] in order[..k];
      var j :| 0 <= j < k && order[..k][j] == p[i];
      assert order[j] == p[i];
    }
  }

  /** A topological order of all keys rules out every cycle. */
  lemma TopologicalIsAcyclic(deps: Dependencies, order: seq<string>)
    requires Topological(deps, order) && Elements(order) == deps.Keys
    ensures Acyclic(deps)
  {
    forall p ensures !IsCycle(deps, p) {
      if IsCycle(deps, p) {
        assert p[0] in Elements(order);
        var at :| 0 <= at < |order| && order[at] == p[0];
        CycleDescends(deps, order, p, |p| - 1, at);
      }
    }
  }

  lemma TopologicalExtends(deps: Dependencies, order: seq<string>, key: string)
    requires Topological(deps, order) && key in deps && key !in order
    requires forall d :: d in deps[key] ==> d in order
    ensures Topological(deps, order + [key])
    ensures Elements(order + [key]) == Elements(order) + {key}
  {
    var longer := order + [key];
    forall i, d | 0 <= i < |longer| && d in deps[longer[i]] ensures d in longer[..i] {
      assert longer[..i] == order[..i];
    }
  }

  /** A search under way: `path` leads to the key being visited, `order` lists what is finished. */
  ghost predicate SearchOk(deps: Dependencies, visiting: set<string>, visited: set<string>, path: seq<string>,
                           order: seq<string>)
  {
    && Closed(deps)
    && visiting == Elements(path)
    && visited == Elements(order)
    && (forall i :: 0 <= i < |path| ==> path[i] in deps && path[i] !in visited)
    && (forall i :: 0 <= i < |path| - 1 ==> path[i + 1] in deps[path[i]])
    && Topological(deps, order)
  }

  /** `key` may be visited next. */
  ghost predicate MayFollow(deps: Dependencies, path: seq<string>, key: string) {
    key in deps && (path != [] ==> path[|path| - 1] in deps && key in deps[path[|path| - 1]])
  }

  lemma EnterKey(deps: Dependencies, visiting: set<string>, visited: set<string>, path: seq<string>,
                 order: seq<string>, key: string)
    requires SearchOk(deps, visiting, visited, path, order) && MayFollow(deps, path, key) && key !in visited
    ensures SearchOk(deps, visiting + {key}, visited, path + [key], order)
    ensures forall d :: d in deps[key] ==> MayFollow(deps, path + [key], d)
  {
    hide Topological;
    assert Elements(path + [key]) == Elements(path) + {key};
  }

  lemma LeaveKey(deps: Dependencies, visiting: set<string>, visited: set<string>, path: seq<string>,
                 order: seq<string>, key: string)
    requires SearchOk(deps, visiting + {key}, visited, path + [key], order) && visiting == Elements(path)
    requires key !in visiting && forall d :: d in deps[key] ==> d in visited
    ensures SearchOk(deps, visiting, visited + {key}, path, order + [key])
  {
    hide Topological;
    var longer := path + [key];
    assert longer[|path|] == key;
    assert forall i :: 0 <= i < |path| ==> longer[i] == path[i] && path[i] in Elements(path);
    TopologicalExtends(deps, order, key);
  }

  /** A key met again while it is still on the path closes a cycle. */
  lemma CloseCycle(deps: Dependencies, visiting: set<string>, visited: set<string>, path: seq<string>,
                   order: seq<string>, key: string)
    requires SearchOk(deps, visiting, visited, path, order) && MayFollow(deps, path, key) && key in visiting
    ensures !Acyclic(deps)
  {
    hide Topological;
    var i :| 0 <= i < |path| && path[i] == key;
    assert IsCycle(deps, path[i..]);
  }

  lemma PathIsVisiting(deps: Dependencies, visiting: set<string>, visited: set<string>, path: seq<string>,
                       order: seq<string>)
    requires SearchOk(deps, visiting, visited, path, order)
    ensures visiting == Elements(path) && visited == Elements(order)
    ensures path == [] <==> visiting == {}
  {
    if path != [] {
      assert path[0] in Elements(path);
    }
  }

  /** The depth-first search: `visiting` is the current path, `visited` what is finished. */
  class DependencyCheck {
    const dependencies: Dependencies
    var visiting: set<string>
    var visited: set<string>
    ghost var path: seq<string>
    ghost var order: seq<string>

    ghost predicate Valid()
      reads this
    {
      SearchOk(dependencies, visiting, visited, path, order)
    }

    constructor (deps: Dependencies)
      requires Closed(deps)
      ensures Valid() && dependencies == deps && path == [] && order == [] && visiting == {}
    {
      dependencies := deps;
      visiting, visited, path, order := {}, {}, [], [];
    }

    /** False stands for the raised error; the search then stops altogether. */
    method Visit(key: string) returns (ok: bool)
      requires Valid() && MayFollow(dependencies, path, key)
      modifies this
      ensures ok ==> Valid() && visiting == old(visiting) && path == old(path)
      ensures ok ==> key in visited && old(visited) <= visited
      ensures !ok ==> !Acyclic(dependencies)
      decreases dependencies.Keys - visiting
    {
      hide SearchOk, Acyclic;
      if key in visiting {
        CloseCycle(dependencies, visiting, visited, path, order, key);
        return false;
      }
      if key in visited {
        return true;
      }
      PathIsVisiting(dependencies, visiting, visited, path, order);
      EnterKey(dependencies, visiting, visited, path, order, key);
      visiting := visiting + {key};
      path := path + [key];
      label entered:
      for i := 0 to |dependencies[key]|
        invariant Valid() && visiting == old@entered(visiting) && path == old@entered(path)
        invariant old(visited) <= visited
        invariant forall j :: 0 <= j < i ==> dependencies[key][j] in visited
      {
        var found := Visit(dependencies[key][i]);
        if !found {
          return false;
        }
      }
      LeaveKey(dependencies, old(visiting), visited, old(path), order, key);
      visiting := visiting - {key};
      visited := visited + {key};
      path := path[..|path| - 1];
      order := order + [key];
      return true;
    }

    method VisitAll(keys: seq<string>) returns (ok: bool)
      requires Valid() && path == [] && order == [] && visiting == {}
      requires Elements(keys) == dependencies.Keys
      modifies this
      ensures ok <==> Acyclic(dependencies)
      ensures ok ==> Topological(dependencies, order) && Elements(order) == dependencies.Keys
    {
      for i := 0 to |keys|
        invariant Valid() && path == [] && visiting == {}
        invariant forall j :: 0 <= j < i ==> keys[j] in visited
      {
        assert keys[i] in Elements(keys);
        ok := Visit(keys[i]);
        if !ok {
          return;
        }
      }
      TopologicalIsAcyclic(dependencies, order);
      return true;
    }
  }

  function Keys(specs: seq<ChildSpec>): (r: seq<string>)
    ensures |r| == |specs|
  {
    seq(|specs|, i requires 0 <= i < |specs| => specs[i].key)
  }

  predicate DistinctKeys(specs: seq<ChildSpec>) {
    forall i, j | 0 <= i < j < |specs| :: specs[i].key != specs[j].key
  }

  predicate KnownDependencies(specs: seq<ChildSpec>) {
    forall s | s in specs :: forall d | d in s.dependsOn :: d in Keys(specs)
  }

  /** The dictionary from each key to its declared dependencies; a later entry replaces an earlier one. */
  function DependencyMap(specs: seq<ChildSpec>): Dependencies {
    if specs == [] then map[]
    else DependencyMap(specs[..|specs| - 1])[specs[|specs| - 1].key := specs[|specs| - 1].dependsOn]
  }

  lemma KeysSnoc(init: seq<ChildSpec>, last: ChildSpec)
    ensures Elements(Keys(init + [last])) == Elements(Keys(init)) + {last.key}
    ensures DistinctKeys(init + [last]) ==> DistinctKeys(init) && forall s :: s in init ==> s.key != last.key
  {
    var specs := init + [last];
    assert Keys(specs) == Keys(init) + [last.key];
    if DistinctKeys(specs) {
      forall i, j | 0 <= i < j < |init| ensures init[i].key != init[j].key {
        assert specs[i] == init[i] && specs[j] == init[j];
      }
      forall s | s in init ensures s.key != last.key {
        var i :| 0 <= i < |init| && init[i] == s;
        assert specs[i] == s && specs[|init|] == last;
      }
    }
  }

  lemma {:induction false} DependencyMapContents(specs: seq<ChildSpec>)
    requires DistinctKeys(specs)
    ensures DependencyMap(specs).Keys == Elements(Keys(specs))
    ensures forall s :: s in specs ==> s.key in DependencyMap(specs) && DependencyMap(specs)[s.key] == s.dependsOn
  {
    hide DistinctKeys, Keys;
    if specs == [] {
      assert Keys(specs) == [];
    } else {
      var init, last := specs[..|specs| - 1], specs[|specs| - 1];
      assert specs == init + [last];
      KeysSnoc(init, last);
      DependencyMapContents(init);
    }
  }

  /** What a decomposition must look like to be inserted. */
  ghost predicate SpecsOk(specs: seq<ChildSpec>) {
    && DistinctKeys(specs)
    && (forall s :: s in specs ==> !Blank(s.key))
    && KnownDependencies(specs)
    && Acyclic(DependencyMap(specs))
  }

  function ChildIds(parent: Id, keys: seq<string>): (r: seq<Id>)
    ensures |r| == |keys|
  {
    seq(|keys|, i requires 0 <= i < |keys| => ChildId(parent, keys[i]))
  }

  function ChildNode(parent: Id, depth: nat, spec: ChildSpec): Node {
    Node(Some(parent), spec.contract, ChildIds(parent, spec.dependsOn), [], Pending, depth, 0, 0, None, None, None)
  }

  function AddChild(g: Graph, parent: Id, spec: ChildSpec): (r: Graph)
    requires parent in g.nodes
    ensures parent in r.nodes
  {
    var id := ChildId(parent, spec.key);
    var nodes := g.nodes[id := ChildNode(parent, g.nodes[parent].depth + 1, spec)];
    g.(nodes := nodes[parent := nodes[parent].(children := nodes[parent].children + [id])])
  }

  function AddChildren(g: Graph, parent: Id, specs: seq<ChildSpec>): (r: Graph)
    requires parent in g.nodes
    ensures parent in r.nodes
  {
    if specs == [] then g
    else AddChild(AddChildren(g, parent, specs[..|specs| - 1]), parent, specs[|specs| - 1])
  }

  datatype AddOutcome = Added | BadKeys | UnknownDependency(key: string) | DependencyCycle

  method AddChildTasks(graph: TaskGraph, parent: Id, specs: seq<ChildSpec>) returns (outcome: AddOutcome)
    requires parent in graph.nodes
    modifies graph
    ensures outcome.Added? <==> SpecsOk(specs)
    ensures outcome.Added? ==> graph.Value() == AddChildren(old(graph.Value()), parent, specs)
    ensures !outcome.Added? ==> graph.Value() == old(graph.Value())
    ensures outcome.DependencyCycle? ==> !Acyclic(DependencyMap(specs))
  {
    outcome := CheckSpecs(specs);
    if outcome.Added? {
      InsertChildren(graph, parent, specs);
    }
  }

  /** The checks made before the graph is touched. */
  method CheckSpecs(specs: seq<ChildSpec>) returns (outcome: AddOutcome)
    ensures outcome.Added? <==> SpecsOk(specs)
    ensures outcome.DependencyCycle? ==> !Acyclic(DependencyMap(specs))
  {
    if !DistinctKeys(specs) || exists s | s in specs :: Blank(s.key) {
      return BadKeys;
    }
    for i := 0 to |specs|
      invariant forall j :: 0 <= j < i ==> forall d :: d in specs[j].dependsOn ==> d in Keys(specs)
    {
      if exists d | d in specs[i].dependsOn :: d !in Keys(specs) {
        assert specs[i] in specs;
        return UnknownDependency(specs[i].key);
      }
    }
    var acyclic := ValidateDependencyGraph(specs);
    return if acyclic then Added else DependencyCycle;
  }

  method InsertChildren(graph: TaskGraph, parent: Id, specs: seq<ChildSpec>)
    requires parent in graph.nodes
    modifies graph
    ensures graph.Value() == AddChildren(old(graph.Value()), parent, specs)
  {
    ghost var before := graph.Value();
    for i := 0 to |specs|
      invariant graph.Value() == AddChildren(before, parent, specs[..i])
    {
      assert specs[..i + 1][..i] == specs[..i];
      var id := ChildId(parent, specs[i].key);
      graph.nodes := graph.nodes[id := ChildNode(parent, graph.nodes[parent].depth + 1, specs[i])];
      graph.nodes := graph.nodes[parent :=
        graph.nodes[parent].(children := graph.nodes[parent].children + [id])];
    }
    assert specs[..|specs|] == specs;
  }

  method ValidateDependencyGraph(specs: seq<ChildSpec>) returns (acyclic: bool)
    requires DistinctKeys(specs) && KnownDependencies(specs)
    ensures acyclic <==> Acyclic(DependencyMap(specs))
  {
    DependencyMapContents(specs);
    DependencyMapClosed(specs);
    var check := new DependencyCheck(DependencyMap(specs));
    acyclic := check.VisitAll(Keys(specs));
  }

  lemma DependencyMapClosed(specs: seq<ChildSpec>)
    requires DistinctKeys(specs) && KnownDependencies(specs)
    ensures Closed(DependencyMap(specs))
  {
    DependencyMapContents(specs);
    var deps := DependencyMap(specs);
    forall k, d | k in deps && d in deps[k] ensures d in deps {
      assert k in Elements(Keys(specs));
      var i :| 0 <= i < |specs| && Keys(specs)[i] == k;
      assert specs[i] in specs;
      assert d in Elements(Keys(specs));
    }
  }

  datatype ValidationOutcome = Valid | RepeatedKey | UnknownKey(key: string) | SelfDependency(key: string) | Cyclic

  /** The validator for proposed decompositions repeats the search after an explicit self-dependency
      check; it accepts exactly what insertion accepts, apart from blank keys. */
  method ValidateDependencies(children: seq<ChildSpec>) returns (outcome: ValidationOutcome)
    ensures outcome.Valid? <==>
            DistinctKeys(children) && KnownDependencies(children) && Acyclic(DependencyMap(children))
  {
    if !DistinctKeys(children) {
      return RepeatedKey;
    }
    for i := 0 to |children|
      invariant forall j :: 0 <= j < i ==> forall d :: d in children[j].dependsOn ==> d in Keys(children)
    {
      if exists d | d in children[i].dependsOn :: d !in Keys(children) {
        assert children[i] in children;
        return UnknownKey(children[i].key);
      }
      if children[i].key in children[i].dependsOn {
        SelfDependencyIsCycle(children, i);
        return SelfDependency(children[i].key);
      }
    }
    DependencyMapContents(children);
    DependencyMapClosed(children);
    var check := new DependencyCheck(DependencyMap(children));
    var acyclic := check.VisitAll(Keys(children));
    return if acyclic then Valid else Cyclic;
  }

  lemma SelfDependencyIsCycle(specs: seq<ChildSpec>, i: nat)
    requires DistinctKeys(specs) && i < |specs| && specs[i].key in specs[i].dependsOn
    ensures !Acyclic(DependencyMap(specs))
  {
    DependencyMapContents(specs);
    assert specs[i] in specs;
    assert IsCycle(DependencyMap(specs), [specs[i].key]);
  }
}
