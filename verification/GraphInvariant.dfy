/** What holds of a task graph at every moment of every run, saved points included. */
module GraphInvariant {
  import opened Options
  import opened Order
  import opened Strings
  import opened TaskModel

  /** Parent, child and dependency links form one tree whose dependencies join siblings. */
  ghost predicate Tree(g: Graph) {
    && g.rootId in g.nodes
    && forall id {:trigger Linked(g, id)} :: id in g.nodes ==> Linked(g, id)
  }

  ghost predicate Linked(g: Graph, id: Id)
    requires id in g.nodes
  {
    var n := g.nodes[id];
    && (if id == g.rootId then n.parent == None && n.depth == 0 && n.deps == [] else HasParent(g, id))
    && (forall c :: c in n.children ==> c in g.nodes && g.nodes[c].parent == Some(id))
    && (forall d :: d in n.deps ==> d in g.nodes && g.nodes[d].parent == n.parent)
  }

  ghost predicate HasParent(g: Graph, id: Id)
    requires id in g.nodes
  {
    && g.nodes[id].parent.Some?
    && var p := g.nodes[id].parent.value;
    && p in g.nodes && id in g.nodes[p].children && g.nodes[id].depth == g.nodes[p].depth + 1
  }

  /** Every id spells the path from the root, one dot-free key for each step. */
  ghost predicate Named(g: Graph) {
    && DotFree(g.rootId)
    && forall id :: id in g.nodes && g.nodes[id].parent.Some? ==> IsChildId(g.nodes[id].parent.value, id)
  }

  /** Some member of `s` depends on no member of `s`. */
  ghost predicate HasSource(g: Graph, s: set<Id>)
    requires s <= g.nodes.Keys
  {
    exists x :: x in s && forall d :: d in g.nodes[x].deps ==> d !in s
  }

  /** Dependencies are well founded. */
  ghost predicate Grounded(g: Graph) {
    forall s: set<Id> {:trigger HasSource(g, s)} :: s <= g.nodes.Keys && s != {} ==> HasSource(g, s)
  }

  ghost predicate AllCompleted(g: Graph, ids: seq<Id>) {
    forall d :: d in ids ==> d in g.nodes && g.nodes[d].status.Completed?
  }

  /** A node that was found workable, has children or was ever started: its dependencies are completed. */
  predicate Engaged(n: Node) {
    n.attempts > 0 || n.children != [] || n.status.Ready? || n.status.Running? || n.status.Waiting? || n.status.Completed?
  }

  ghost predicate StatusOk(g: Graph, id: Id)
    requires id in g.nodes
  {
    var n := g.nodes[id];
    && (n.status.Pending? || n.status.Ready? || n.status.Running? ==> n.children == [])
    && (n.status.Waiting? ==> n.children != [])
    && (n.status.Completed? ==> AllCompleted(g, n.children))
    && (Engaged(n) ==> AllCompleted(g, n.deps))
  }

  ghost predicate Statuses(g: Graph) {
    forall id {:trigger StatusOk(g, id)} :: id in g.nodes ==> StatusOk(g, id)
  }

  function Starts(events: seq<Event>, id: Id): nat {
    if events == [] then 0
    else Starts(events[..|events| - 1], id) + if events[|events| - 1] == LeafStarted(id) then 1 else 0
  }

  function AllStarts(events: seq<Event>): nat {
    if events == [] then 0
    else AllStarts(events[..|events| - 1]) + if events[|events| - 1].LeafStarted? then 1 else 0
  }

  predicate Schedules(e: Event, id: Id) {
    e.RetryScheduled? && e.node == id
  }

  function Scheduled(events: seq<Event>, id: Id): nat {
    if events == [] then 0
    else Scheduled(events[..|events| - 1], id) + if Schedules(events[|events| - 1], id) then 1 else 0
  }

  function AllScheduled(events: seq<Event>): nat {
    if events == [] then 0
    else AllScheduled(events[..|events| - 1]) + if events[|events| - 1].RetryScheduled? then 1 else 0
  }

  predicate Quiet(e: Event) {
    !e.LeafStarted? && !e.RetryScheduled?
  }

  /** The counters are exactly what the event log says. */
  ghost predicate Counted(g: Graph) {
    && g.leafExecutions == AllStarts(g.events)
    && (forall id :: id in g.nodes ==> g.nodes[id].attempts == Starts(g.events, id))
    && (forall id :: id in g.nodes ==> g.nodes[id].retries == Scheduled(g.events, id))
    && (forall e :: e in g.events && !Quiet(e) ==> e.node in g.nodes)
  }

  ghost predicate WithinBudget(g: Graph) {
    && |g.nodes| <= Max(1, g.budget.maxNodes)
    && g.leafExecutions <= Max(0, g.budget.maxLeafExecutions)
    && (forall id :: id in g.nodes ==> g.nodes[id].depth <= Max(0, g.budget.maxDepth))
  }

  ghost predicate Inv(g: Graph) {
    Tree(g) && Named(g) && Grounded(g) && Statuses(g) && Counted(g) && WithinBudget(g)
  }

  /** Links and ids are untouched. */
  ghost predicate SameLinks(n: Node, m: Node) {
    n.parent == m.parent && n.deps == m.deps && n.children == m.children && n.depth == m.depth
  }

  ghost predicate SameShape(g: Graph, h: Graph) {
    && g.rootId == h.rootId && g.budget == h.budget && g.nodes.Keys == h.nodes.Keys
    && forall id :: id in g.nodes ==> SameLinks(g.nodes[id], h.nodes[id])
  }

  lemma TreeKept(g: Graph, h: Graph)
    requires SameShape(g, h) && Tree(g)
    ensures Tree(h)
  {
    forall id | id in h.nodes ensures Linked(h, id) {
      assert Linked(g, id);
    }
  }

  lemma GroundedKept(g: Graph, h: Graph)
    requires SameShape(g, h) && Grounded(g)
    ensures Grounded(h)
  {
    forall s: set<Id> | s <= h.nodes.Keys && s != {} ensures HasSource(h, s) {
      assert HasSource(g, s);
      var x :| x in s && forall d :: d in g.nodes[x].deps ==> d !in s;
      assert h.nodes[x].deps == g.nodes[x].deps;
    }
  }

  lemma ShapeKept(g: Graph, h: Graph)
    requires SameShape(g, h) && Tree(g) && Named(g) && Grounded(g) && WithinBudget(g)
    requires h.leafExecutions <= Max(0, h.budget.maxLeafExecutions)
    ensures Tree(h) && Named(h) && Grounded(h) && WithinBudget(h)
  {
    TreeKept(g, h);
    GroundedKept(g, h);
    SameSize(g, h);
  }

  /** `h` differs from `g` in at most the status, error, result and retry clock of `id`,
      and in events that count neither a start nor a retry. */
  ghost predicate Touches(g: Graph, h: Graph, id: Id) {
    && id in g.nodes && id in h.nodes
    && h.rootId == g.rootId && h.budget == g.budget && h.leafExecutions == g.leafExecutions
    && h.nodes == g.nodes[id := h.nodes[id]]
    && SameLinks(g.nodes[id], h.nodes[id])
    && h.nodes[id].attempts == g.nodes[id].attempts && h.nodes[id].retries == g.nodes[id].retries
    && Onward(g.nodes[id], h.nodes[id]) && (Bounded(g.nodes[id]) ==> Bounded(h.nodes[id]))
    && QuietGrowth(g.events, h.events)
  }

  /** What has ended never changes again, assessed stays assessed, and the retry clock starts once. */
  ghost predicate Onward(n: Node, m: Node) {
    && (Terminal(n.status) ==> m == n)
    && (m.status.Pending? ==> n.status.Pending?)
    && (n.retryStartedAt.Some? ==> m.retryStartedAt == n.retryStartedAt)
  }

  ghost predicate QuietGrowth(a: seq<Event>, b: seq<Event>) {
    |a| <= |b| && a == b[..|a|] && forall i :: |a| <= i < |b| ==> Quiet(b[i])
  }

  lemma {:induction false} QuietCounts(a: seq<Event>, b: seq<Event>, id: Id)
    requires QuietGrowth(a, b)
    ensures Starts(a, id) == Starts(b, id) && Scheduled(a, id) == Scheduled(b, id)
    ensures AllStarts(a) == AllStarts(b) && AllScheduled(a) == AllScheduled(b)
    decreases |b|
  {
    if |a| == |b| {
      assert a == b;
    } else {
      var init := b[..|b| - 1];
      assert a == init[..|a|];
      QuietCounts(a, init, id);
    }
  }

  lemma QuietKeepsCounted(g: Graph, h: Graph)
    requires Counted(g) && QuietGrowth(g.events, h.events) && h.leafExecutions == g.leafExecutions
    requires g.nodes.Keys == h.nodes.Keys
    requires forall id :: id in g.nodes ==>
                            h.nodes[id].attempts == g.nodes[id].attempts && h.nodes[id].retries == g.nodes[id].retries
    ensures Counted(h)
  {
    QuietCounts(g.events, h.events, g.rootId);
    forall id | id in h.nodes
      ensures h.nodes[id].attempts == Starts(h.events, id) && h.nodes[id].retries == Scheduled(h.events, id)
    {
      QuietCounts(g.events, h.events, id);
    }
    forall e | e in h.events && !Quiet(e) ensures e.node in h.nodes {
      var i :| 0 <= i < |h.events| && h.events[i] == e;
      assert g.events[i] == e;
    }
  }

  /** The status changes the scheduler makes. */
  ghost predicate Allowed(g: Graph, id: Id, s: Status)
    requires id in g.nodes
  {
    var n := g.nodes[id];
    match s
    case Pending => n.status.Pending?
    case Waiting => n.status.Waiting?
    case Failed => !n.status.Completed?
    case Blocked => !n.status.Completed?
    case Ready => (n.status.Pending? || n.status.Ready? || n.status.Running?) && AllCompleted(g, n.deps)
    case Running => n.status.Ready? || n.status.Running?
    case Completed => AllCompleted(g, n.children) && AllCompleted(g, n.deps)
  }

  /** Node `id` keeps its links, and if it has attempts it was engaged before. No other node changes. */
  ghost predicate Edits(g: Graph, h: Graph, id: Id) {
    && id in g.nodes && id in h.nodes && h.nodes == g.nodes[id := h.nodes[id]]
    && SameLinks(g.nodes[id], h.nodes[id])
    && (h.nodes[id].attempts > 0 ==> Engaged(g.nodes[id]))
  }

  lemma AllowedKeepsStatuses(g: Graph, h: Graph, id: Id)
    requires Statuses(g) && Edits(g, h, id) && Allowed(g, id, h.nodes[id].status)
    ensures Statuses(h)
  {
    CompletedStays(g, h, id);
    forall x | x in h.nodes ensures StatusOk(h, x) {
      assert StatusOk(g, x) && StatusOk(g, id);
    }
  }

  lemma CompletedStays(g: Graph, h: Graph, id: Id)
    requires Edits(g, h, id) && Allowed(g, id, h.nodes[id].status)
    ensures forall ids :: AllCompleted(g, ids) ==> AllCompleted(h, ids)
  {
  }

  lemma EditKeepsShape(g: Graph, h: Graph, id: Id)
    requires Edits(g, h, id) && h.rootId == g.rootId && h.budget == g.budget
    ensures SameShape(g, h)
  {
    assert h.nodes.Keys == g.nodes.Keys;
  }

  /** One status change keeps the invariant. */
  lemma TouchKeepsInv(g: Graph, h: Graph, id: Id)
    requires Inv(g) && Touches(g, h, id) && Allowed(g, id, h.nodes[id].status)
    ensures Inv(h) && SameShape(g, h)
  {
    hide Tree, Named, Grounded, Statuses, Allowed, Counted;
    assert Edits(g, h, id);
    EditKeepsShape(g, h, id);
    ShapeKept(g, h);
    AllowedKeepsStatuses(g, h, id);
    QuietKeepsCounted(g, h);
  }

  lemma SameSize(g: Graph, h: Graph)
    requires g.nodes.Keys == h.nodes.Keys
    ensures |g.nodes| == |h.nodes|
  {
    assert |g.nodes| == |g.nodes.Keys| && |h.nodes| == |h.nodes.Keys|;
  }

  lemma SameStatuses(g: Graph, h: Graph)
    requires Statuses(g) && SameShape(g, h)
    requires forall id :: id in g.nodes ==> g.nodes[id].status == h.nodes[id].status
                                            && (h.nodes[id].attempts > 0 ==> Engaged(g.nodes[id]))
    ensures Statuses(h)
  {
    forall id | id in h.nodes ensures StatusOk(h, id) {
      assert StatusOk(g, id);
    }
  }

  /** One more counted event, and the counter it moves. */
  lemma CountedStep(g: Graph, h: Graph, id: Id, e: Event)
    requires Counted(g) && id in g.nodes && g.nodes.Keys == h.nodes.Keys
    requires h.events == g.events + [e] && (e == LeafStarted(id) || Schedules(e, id))
    requires h.leafExecutions == g.leafExecutions + if e.LeafStarted? then 1 else 0
    requires forall x :: x in g.nodes ==>
               && h.nodes[x].attempts == g.nodes[x].attempts + (if e == LeafStarted(x) then 1 else 0)
               && h.nodes[x].retries == g.nodes[x].retries + (if Schedules(e, x) then 1 else 0)
    ensures Counted(h)
  {
    assert h.events[..|g.events|] == g.events;
  }

  /** Starting a leaf counts one attempt of the node and one execution of the graph. */
  lemma StartKeepsInv(g: Graph, h: Graph, id: Id)
    requires Inv(g) && id in g.nodes && g.nodes[id].status.Ready?
    requires g.leafExecutions < g.budget.maxLeafExecutions
    requires h == g.(nodes := g.nodes[id := g.nodes[id].(status := Running, attempts := g.nodes[id].attempts + 1)],
                     leafExecutions := g.leafExecutions + 1,
                     events := g.events + [LeafStarted(id)])
    ensures Inv(h) && SameShape(g, h)
  {
    hide Tree, Named, Grounded, Statuses, Counted;
    assert Edits(g, h, id);
    EditKeepsShape(g, h, id);
    ShapeKept(g, h);
    AllowedKeepsStatuses(g, h, id);
    CountedStep(g, h, id, LeafStarted(id));
  }

  /** Scheduling a retry counts one retry of the node. */
  lemma RetryKeepsInv(g: Graph, h: Graph, id: Id, e: Event)
    requires Inv(g) && id in g.nodes && Allowed(g, id, Ready) && Schedules(e, id)
    requires h.rootId == g.rootId && h.budget == g.budget && h.leafExecutions == g.leafExecutions
    requires id in h.nodes && h.nodes == g.nodes[id := h.nodes[id]] && SameLinks(g.nodes[id], h.nodes[id])
    requires h.nodes[id].status.Ready?
    requires h.nodes[id].attempts == g.nodes[id].attempts && h.nodes[id].retries == g.nodes[id].retries + 1
    requires h.events == g.events + [e]
    ensures Inv(h) && SameShape(g, h)
  {
    hide Tree, Named, Grounded, Statuses, Counted, Allowed;
    WorkableIsEngaged(g, h, id);
    EditKeepsShape(g, h, id);
    ShapeKept(g, h);
    AllowedKeepsStatuses(g, h, id);
    CountedStep(g, h, id, e);
  }

  lemma WorkableIsEngaged(g: Graph, h: Graph, id: Id)
    requires Statuses(g) && id in g.nodes && Allowed(g, id, Ready) && id in h.nodes
    requires h.nodes == g.nodes[id := h.nodes[id]] && SameLinks(g.nodes[id], h.nodes[id])
    requires h.nodes[id].attempts == g.nodes[id].attempts
    ensures Edits(g, h, id)
  {
  }

  /** A fresh graph satisfies the invariant whatever its budget says. */
  lemma CreateInv(goal: string, criteria: seq<string>, capabilities: seq<string>, budget: Budget)
    ensures Inv(Create(goal, criteria, capabilities, budget))
  {
    var g := Create(goal, criteria, capabilities, budget);
    forall s: set<Id> | s <= g.nodes.Keys && s != {} ensures HasSource(g, s) {
      var x :| x in s;
      assert g.nodes[x].deps == [];
    }
  }

  /** What an authorised retry looks like in the log. */
  ghost predicate Authorised(policy: Option<RetryPolicy>, e: Event) {
    e.RetryScheduled? ==>
      && policy.Some?
      && e.code in policy.value.codes && e.node in policy.value.keys
      && e.decision.retry && e.decision.delay >= 0.0
  }

  /** A decision taken at `now` about a node first retried at `start`: the clock has not gone back, and with
      a window both the reading and the end of the delay lie inside it. */
  predicate InWindow(policy: Option<RetryPolicy>, start: real, now: real, d: RetryDecision) {
    && start <= now && d.elapsed == now - start
    && (policy.Some? && policy.value.window.Some? ==>
          now < start + policy.value.window.value && now + d.delay <= start + policy.value.window.value)
  }

  predicate IsWait(e: Event, id: Id) {
    e == WaitStarted(id) || (e.WaitCompleted? && e.node == id)
  }

  /** `w` is a world in which the clock was read for the decision behind event `i`: its log is the log up to
      that event, apart from the wait in between. */
  ghost predicate ReadFor(col: Collaborators, g: Graph, i: nat, t: nat, w: World)
    requires i < |g.events| && g.events[i].RetryScheduled? && RetryClockRuns(g, g.events[i].node)
  {
    var id, log := g.events[i].node, w.graph.events;
    && |log| <= i && log == g.events[..|log|]
    && (forall k :: |log| <= k < i ==> IsWait(g.events[k], id))
    && col.clock(t, w, id).Reading?
    && InWindow(col.retryPolicy, g.nodes[id].retryStartedAt.value, col.clock(t, w, id).at, g.events[i].decision)
  }

  ghost predicate RetryClockRuns(g: Graph, id: Id) {
    id in g.nodes && g.nodes[id].retryStartedAt.Some?
  }

  /** The retry behind event `i` was authorised at a clock reading inside the window that opened when its
      node was first retried. */
  ghost predicate RetryTimed(col: Collaborators, g: Graph, i: nat) {
    i < |g.events| && g.events[i].RetryScheduled? ==>
      && RetryClockRuns(g, g.events[i].node)
      && exists t, w :: ReadFor(col, g, i, t, w)
  }

  /** How many retries a policy ever allows one node. */
  function RetryCap(policy: Option<RetryPolicy>): int {
    if policy.Some? then policy.value.maxAttempts - 1 else 0
  }

  /** At most one attempt beyond the retries, and none while the node waits to be started. */
  predicate Bounded(n: Node) {
    n.attempts <= n.retries + if Terminal(n.status) || n.status.Running? then 1 else 0
  }

  ghost predicate NodeEvolves(policy: Option<RetryPolicy>, n: Node, m: Node) {
    && n.parent == m.parent && n.deps == m.deps && n.depth == m.depth
    && (n.children == m.children || (n.status.Pending? && n.children == []))
    && Onward(n, m)
    && n.attempts <= m.attempts && n.retries <= m.retries
    && (m.retries > n.retries ==> m.retries <= RetryCap(policy))
    && (Bounded(n) ==> Bounded(m))
  }

  /** A node that appeared on the way. */
  ghost predicate NodeAppears(policy: Option<RetryPolicy>, m: Node) {
    m.retries <= Max(0, RetryCap(policy)) && Bounded(m)
  }

  /** How the graph may change over any number of steps. */
  ghost predicate Evolves(col: Collaborators, g: Graph, h: Graph) {
    && g.rootId == h.rootId && g.budget == h.budget
    && |g.events| <= |h.events| && h.events[..|g.events|] == g.events
    && (forall i :: |g.events| <= i < |h.events| ==> Authorised(col.retryPolicy, h.events[i]) && RetryTimed(col, h, i))
    && (forall id {:trigger id in h.nodes} {:trigger id in g.nodes} ::
          id in g.nodes ==> id in h.nodes && NodeEvolves(col.retryPolicy, g.nodes[id], h.nodes[id]))
    && (forall id :: id in h.nodes && id !in g.nodes ==> NodeAppears(col.retryPolicy, h.nodes[id]))
  }

  lemma EvolvesSame(col: Collaborators, g: Graph)
    ensures Evolves(col, g, g)
  {
  }

  /** The start of a retry clock is kept, so is what was timed by it. */
  lemma TimedKept(col: Collaborators, b: Graph, c: Graph, i: nat)
    requires i < |b.events| <= |c.events| && c.events[..|b.events|] == b.events && RetryTimed(col, b, i)
    requires forall id :: RetryClockRuns(b, id) ==>
        RetryClockRuns(c, id) && c.nodes[id].retryStartedAt == b.nodes[id].retryStartedAt
    ensures RetryTimed(col, c, i)
  {
    assert forall k :: 0 <= k <= i ==> c.events[k] == b.events[k];
    if b.events[i].RetryScheduled? {
      var t, w :| ReadFor(col, b, i, t, w);
      assert c.events[..|w.graph.events|] == b.events[..|w.graph.events|];
      assert ReadFor(col, c, i, t, w);
    }
  }

  lemma EvolvesTrans(col: Collaborators, a: Graph, b: Graph, c: Graph)
    requires Evolves(col, a, b) && Evolves(col, b, c)
    ensures Evolves(col, a, c)
  {
    hide RetryTimed, Authorised, Bounded;
    forall i | |a.events| <= i < |c.events|
      ensures Authorised(col.retryPolicy, c.events[i]) && RetryTimed(col, c, i)
    {
      if i < |b.events| {
        assert c.events[i] == b.events[i];
        TimedKept(col, b, c, i);
      }
    }
    forall i | 0 <= i < |a.events| ensures c.events[i] == a.events[i] {
      assert c.events[i] == b.events[i];
    }
    forall id | id in a.nodes ensures id in c.nodes && NodeEvolves(col.retryPolicy, a.nodes[id], c.nodes[id]) {
      assert id in b.nodes;
    }
    forall id | id in c.nodes && id !in a.nodes ensures NodeAppears(col.retryPolicy, c.nodes[id]) {
      assert id in b.nodes ==> NodeAppears(col.retryPolicy, b.nodes[id]);
    }
  }

  lemma TouchEvolves(col: Collaborators, g: Graph, h: Graph, id: Id)
    requires Touches(g, h, id)
    ensures Evolves(col, g, h)
  {
    assert forall i :: |g.events| <= i < |h.events| ==> Quiet(h.events[i]);
  }

  // ---- Worlds and the graphs they save -----------------------------------------------------------

  /** `v` is reached from `w`: its graph, and every graph saved on the way, only move onward, in the order in
      which they were saved. */
  ghost predicate Follows(col: Collaborators, w: World, v: World) {
    && Evolves(col, w.graph, v.graph)
    && |w.saves| <= |v.saves| && v.saves[..|w.saves|] == w.saves
    && (forall i :: |w.saves| <= i < |v.saves| ==> Between(col, w.graph, v.saves[i], v.graph))
    && (forall i, j :: |w.saves| <= i < j < |v.saves| ==> Evolves(col, v.saves[i], v.saves[j]))
  }

  ghost predicate Between(col: Collaborators, g: Graph, s: Graph, h: Graph) {
    Evolves(col, g, s) && Evolves(col, s, h)
  }

  lemma FollowsStep(col: Collaborators, w: World, v: World)
    requires Evolves(col, w.graph, v.graph) && (v.saves == w.saves || v.saves == w.saves + [v.graph])
    ensures Follows(col, w, v)
  {
    hide Evolves;
    EvolvesSame(col, v.graph);
  }

  lemma FollowsSame(col: Collaborators, w: World)
    ensures Follows(col, w, w)
  {
    hide Evolves;
    EvolvesSame(col, w.graph);
  }

  lemma FollowsTrans(col: Collaborators, a: World, b: World, c: World)
    requires Follows(col, a, b) && Follows(col, b, c)
    ensures Follows(col, a, c)
  {
    hide Evolves;
    EvolvesTrans(col, a.graph, b.graph, c.graph);
    forall i | 0 <= i < |b.saves| ensures c.saves[i] == b.saves[i] {
      assert c.saves[..|b.saves|][i] == c.saves[i];
    }
    assert c.saves[..|a.saves|] == b.saves[..|a.saves|];
    forall i | |a.saves| <= i < |c.saves| ensures Between(col, a.graph, c.saves[i], c.graph) {
      if i < |b.saves| {
        assert Between(col, a.graph, b.saves[i], b.graph);
        EvolvesTrans(col, b.saves[i], b.graph, c.graph);
      } else {
        assert Between(col, b.graph, c.saves[i], c.graph);
        EvolvesTrans(col, a.graph, b.graph, c.saves[i]);
      }
    }
    forall i, j | |a.saves| <= i < j < |c.saves| ensures Evolves(col, c.saves[i], c.saves[j]) {
      if i < |b.saves| <= j {
        assert Between(col, a.graph, b.saves[i], b.graph) && Between(col, b.graph, c.saves[j], c.graph);
        EvolvesTrans(col, b.saves[i], b.graph, c.saves[j]);
      } else if j < |b.saves| {
        assert Evolves(col, b.saves[i], b.saves[j]);
      }
    }
  }

  lemma FollowsEvolves(col: Collaborators, w: World, v: World)
    requires Follows(col, w, v)
    ensures Evolves(col, w.graph, v.graph)
  {
  }

  lemma TouchFollows(col: Collaborators, w: World, v: World, id: Id)
    requires Touches(w.graph, v.graph, id) && (v.saves == w.saves || v.saves == w.saves + [v.graph])
    ensures Follows(col, w, v)
  {
    hide Touches, Evolves;
    TouchEvolves(col, w.graph, v.graph, id);
    FollowsStep(col, w, v);
  }
}
