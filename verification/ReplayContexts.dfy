/** What a recorded context pins down, and that a trace does not answer for another root. */
module ReplayContexts {
  import opened Options
  import opened TaskModel
  import opened GraphInvariant
  import opened SchedulerSteps
  import opened SchedulerSafety
  import opened Scheduler
  import opened SchedulerCalls
  import opened Replay

  // ---- Equal contexts ----------------------------------------------------------------------------

  /** Up the parents of `id` both graphs have the same tasks with the same goals. */
  ghost predicate SameLine(g: Graph, h: Graph, id: Id)
    requires Tree(g) && Tree(h) && id in g.nodes && id in h.nodes
    decreases g.nodes[id].depth
  {
    && g.nodes[id].parent == h.nodes[id].parent
    && (g.nodes[id].parent.Some? ==> SameLineAbove(g, h, id))
  }

  ghost predicate SameLineAbove(g: Graph, h: Graph, id: Id)
    requires Tree(g) && Tree(h) && id in g.nodes && id in h.nodes
    requires g.nodes[id].parent == h.nodes[id].parent && g.nodes[id].parent.Some?
    decreases g.nodes[id].depth, 0
  {
    assert Linked(g, id) && Linked(h, id);
    var p := g.nodes[id].parent.value;
    g.nodes[p].contract.goal == h.nodes[p].contract.goal && SameLine(g, h, p)
  }

  /** Two questions have one context exactly when they are about the same task with the same contract, dependencies and
      depth, under the same line of parents and goals, with the same budget, number of tasks and executions. */
  lemma {:induction false} ContextPins(g: Graph, h: Graph, id: Id)
    requires Tree(g) && Tree(h) && id in g.nodes && id in h.nodes
    ensures ContextOf(g, id) == ContextOf(h, id) <==>
            && g.nodes[id].contract == h.nodes[id].contract && g.nodes[id].deps == h.nodes[id].deps
            && g.nodes[id].depth == h.nodes[id].depth && SameLine(g, h, id)
            && g.budget == h.budget && |g.nodes| == |h.nodes| && g.leafExecutions == h.leafExecutions
  {
    if g.nodes[id].parent == h.nodes[id].parent {
      LinePins(g, h, id);
    }
  }

  lemma {:induction false} LinePins(g: Graph, h: Graph, id: Id)
    requires Tree(g) && Tree(h) && id in g.nodes && id in h.nodes && g.nodes[id].parent == h.nodes[id].parent
    ensures Ancestors(g, id) == Ancestors(h, id) <==> SameLine(g, h, id)
    decreases g.nodes[id].depth
  {
    assert Linked(g, id) && Linked(h, id);
    if g.nodes[id].parent.Some? {
      var p := g.nodes[id].parent.value;
      assert Linked(g, p) && Linked(h, p);
      SplitLast(Ancestors(g, p), Ancestors(h, p), (p, g.nodes[p].contract.goal), (p, h.nodes[p].contract.goal));
      if g.nodes[p].parent == h.nodes[p].parent {
        LinePins(g, h, p);
      } else {
        DifferentParents(g, h, p);
        assert !SameLine(g, h, p);
      }
      assert SameLine(g, h, id) <==> SameLineAbove(g, h, id);
    }
  }

  lemma SplitLast<T>(a: seq<T>, b: seq<T>, x: T, y: T)
    ensures a + [x] == b + [y] <==> a == b && x == y
  {
    if a + [x] == b + [y] {
      assert (a + [x])[..|a|] == a && (b + [y])[..|b|] == b;
      assert (a + [x])[|a|] == x && (b + [y])[|b|] == y;
    }
  }

  lemma DifferentParents(g: Graph, h: Graph, p: Id)
    requires Tree(g) && Tree(h) && p in g.nodes && p in h.nodes && g.nodes[p].parent != h.nodes[p].parent
    ensures Ancestors(g, p) != Ancestors(h, p)
  {
    assert Linked(g, p) && Linked(h, p);
    assert g.nodes[p].parent.Some? ==> Ancestors(g, p)[|Ancestors(g, p)| - 1].0 == g.nodes[p].parent.value;
    assert h.nodes[p].parent.Some? ==> Ancestors(h, p)[|Ancestors(h, p)| - 1].0 == h.nodes[p].parent.value;
  }

  // ---- Another root ------------------------------------------------------------------------------

  function NewWorld(goal: string, criteria: seq<string>, capabilities: seq<string>, budget: Budget): World {
    World(Create(goal, criteria, capabilities, budget), [], [])
  }

  lemma NewIsSafe(goal: string, criteria: seq<string>, capabilities: seq<string>, budget: Budget)
    ensures Safe(NewWorld(goal, criteria, capabilities, budget))
  {
    CreateInv(goal, criteria, capabilities, budget);
  }

  /** A run on a new graph asks about the root first, before anything else happened. */
  lemma RootIsAskedFirst(col: Collaborators, w: World, goal: string, criteria: seq<string>, capabilities: seq<string>,
                         budget: Budget)
    requires ColOk(col) && w == NewWorld(goal, criteria, capabilities, budget)
    ensures Safe(w) && Safe(Begin(w)) && Tree(Begin(w).graph)
    ensures Iterate(col, 0, Begin(w)) == AssessNode(col, 0, Begin(w), "root")
    ensures var calls := Run(col, w).calls;
            && CallsOk(col, [], calls) && AssessedOnce(calls) && |calls| > 0
            && calls[0] == AssessCall("root", Begin(w).graph, col.assess(0, Begin(w), "root"))
  {
    hide Inv, RunFrom, Iterate, ColOk, AssessedOnce, PortsOk, AssessNode, CallsOk;
    NewIsSafe(goal, criteria, capabilities, budget);
    RunCalls(col, w);
    var b := Begin(w);
    TreeOf(b);
    RootIsFirst(col, b);
    IterateIsAssessment(col, 0, b);
    IterateCalls(col, 0, b);
    RunFromUnfolds(col, 0, b);
    RunFromCalls(col, 1, Iterate(col, 0, b));
    FirstOf(b.calls + [AssessCall("root", b.graph, col.assess(0, b, "root"))], Run(col, w).calls, col);
  }

  lemma FirstOf(a: seq<PortCall>, b: seq<PortCall>, col: Collaborators)
    requires |a| == 1 && CallsOk(col, a, b)
    ensures |b| > 0 && b[0] == a[0]
  {
  }

  /** A decomposer that raises about the root ends the run: the root is failed with that error. */
  lemma RaisingEndsTheRun(col: Collaborators, w: World, goal: string, criteria: seq<string>, capabilities: seq<string>,
                          budget: Budget)
    requires ColOk(col) && w == NewWorld(goal, criteria, capabilities, budget)
    requires col.assess(0, Begin(w), "root").AssessRaised?
    ensures Safe(w)
    ensures var v := Run(col, w);
            && v.graph.nodes.Keys == {"root"} && v.graph.nodes["root"].status.Failed?
            && v.graph.nodes["root"].error == Some(DecomposerRaised)
            && v.calls == [AssessCall("root", Begin(w).graph, AssessRaised)]
  {
    hide Inv, Iterate, ColOk, PortsOk, RunFrom, NoRunning;
    NewIsSafe(goal, criteria, capabilities, budget);
    RootIsAskedFirst(col, w, goal, criteria, capabilities, budget);
    var b := Begin(w);
    RunFromUnfolds(col, 0, b);
    EndedRunStays(col, 1, Iterate(col, 0, b));
  }

  lemma EndedRunStays(col: Collaborators, t: nat, w: World)
    requires ColOk(col) && Safe(w) && RootEnded(w.graph)
    ensures RunFrom(col, t, w) == w
  {
  }

  /** A trace answers only for the root it was recorded from: played back on a new graph whose root contract or budget
      differs in anything, by whatever collaborators, it fails the root as a decomposer that raises would, and its
      entry for the root is left over. */
  lemma AnotherRootIsNotReplayed(col: Collaborators, other: Collaborators,
                                 goal: string, criteria: seq<string>, capabilities: seq<string>, budget: Budget,
                                 goal': string, criteria': seq<string>, capabilities': seq<string>, budget': Budget)
    requires ColOk(col) && ColOk(other)
    requires goal != goal' || criteria != criteria' || capabilities != capabilities' || budget != budget'
    ensures var w := NewWorld(goal, criteria, capabilities, budget);
            var w' := NewWorld(goal', criteria', capabilities', budget');
            && Safe(w) && Safe(w') && ColOk(Recording(col))
            && var trace := TraceOf(Run(Recording(col), w).calls);
               && ColOk(Replaying(other, trace))
               && var replayed := Run(Replaying(other, trace), w');
                  && replayed.graph.nodes.Keys == {"root"} && replayed.graph.nodes["root"].status.Failed?
                  && replayed.graph.nodes["root"].error == Some(DecomposerRaised)
                  && UsedBy(Keyed(trace), replayed.calls) == {}
  {
    hide Inv, ColOk, PortsOk, NoRunning, Run, Iterate, AssessNode, TraceOf, Keyed, AssessedOnce, CallsOk, RunFrom,
         Follows;
    var w, w' := NewWorld(goal, criteria, capabilities, budget), NewWorld(goal', criteria', capabilities', budget');
    NewIsSafe(goal, criteria, capabilities, budget);
    RecordingIsTransparent(col, w);
    RootIsAskedFirst(col, w, goal, criteria, capabilities, budget);
    var calls := Run(col, w).calls;
    var entries := Keyed(TraceOf(calls));
    ReplayingOk(col, calls, other);
    var rep := Replaying(other, TraceOf(calls));
    TraceIsFaithful(calls);
    RootIsAskedFirst(rep, w', goal', criteria', capabilities', budget');
    FirstContext(entries, calls);
    ContextPins(Begin(w).graph, Begin(w').graph, "root");
    RaisingEndsTheRun(rep, w', goal', criteria', capabilities', budget');
    NotConsumed(entries, Begin(w').graph);
  }

  lemma FirstContext(entries: map<Id, Entry>, calls: seq<PortCall>)
    requires Faithful(entries, calls) && |calls| > 0 && calls[0].AssessCall? && calls[0].node in calls[0].graph.nodes
    ensures calls[0].node in entries ==> entries[calls[0].node].context == ContextOf(calls[0].graph, calls[0].node)
  {
    hide ContextOf;
    assert Answers(entries, calls[0]);
  }

  lemma NotConsumed(entries: map<Id, Entry>, g: Graph)
    requires "root" in g.nodes && ("root" in entries ==> ContextOf(g, "root") != entries["root"].context)
    ensures UsedBy(entries, [AssessCall("root", g, AssessRaised)]) == {}
  {
    hide ContextOf;
    var calls := [AssessCall("root", g, AssessRaised)];
    assert calls[..0] == [];
  }
}
