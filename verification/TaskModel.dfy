/** Atomic task graphs, the answers collaborators may give, and the state of one scheduler run. */
module TaskModel {
  import opened Options
  import opened Claims

  type Id = string

  datatype Status = Pending | Ready | Running | Waiting | Completed | Failed | Blocked

  predicate Terminal(s: Status) {
    s.Completed? || s.Failed? || s.Blocked?
  }

  predicate Defeated(s: Status) {
    s.Failed? || s.Blocked?
  }

  /** Why a node, and in the end the graph, stopped. */
  datatype Reason =
    | DecomposerRaised
    | AtomicHasChildren
    | LeafContractOnParent
    | NoChildren
    | DepthExhausted
    | NodesExhausted
    | ContractViolated
    | ResolverRaised
    | CapabilitiesMissing(names: seq<string>)
    | ExecutionsExhausted
    | LeaseRefused(conflicts: seq<string>)
    | LeaseBroken(text: string)
    | DependencyDefeated
    | ChildDefeated
    | Reported(text: string)
    | Deadlocked
    | Recovered

  datatype Contract = Contract(goal: string, criteria: seq<string>, capabilities: seq<string>,
                               metadata: map<string, string>)

  datatype ResultStatus = Succeeded | Stuck | Broken

  datatype RetryRequest = RetryRequest(code: string, key: string)

  /** A leaf or integration result; it asks for a retry by carrying a request. */
  datatype LeafResult = LeafResult(status: ResultStatus, summary: string, error: Option<string>,
                                   retry: Option<RetryRequest>)
  {
    /** `error or summary` */
    function Text(): string {
      if error.Some? && error.value != "" then error.value else summary
    }
  }

  datatype Node = Node(parent: Option<Id>, contract: Contract, deps: seq<Id>, children: seq<Id>,
                       status: Status, depth: nat, attempts: nat, retries: nat,
                       retryStartedAt: Option<real>, result: Option<LeafResult>, error: Option<Reason>)

  datatype Budget = Budget(maxNodes: int, maxDepth: int, maxLeafExecutions: int)

  datatype RetryReason =
    | RetryAuthorized
    | PolicyMissing
    | NotRequested
    | CodeNotAllowed
    | NodeNotAuthorized
    | KeyMismatch
    | AttemptsExhausted
    | ClockRaised
    | ClockRegressed
    | ElapsedExhausted
    | DelayExceedsDeadline
    | WaitCancelled

  datatype RetryDecision = RetryDecision(retry: bool, reason: RetryReason, delay: real, jitter: real,
                                         elapsed: real, remaining: Option<real>)

  datatype Event =
    | GraphStarted
    | GraphResumed
    | GraphBlocked
    | GraphFinished(status: Status, reason: Option<Reason>)
    | Assessed(node: Id, atomic: bool)
    | LeafContractApplied(node: Id)
    | Decomposed(node: Id, children: seq<Id>)
    | TaskFailed(node: Id)
    | TaskBlocked(node: Id)
    | IntegrationCompleted(node: Id)
    | IntegrationFailed(node: Id)
    | CapabilityRequested(node: Id, capability: string)
    | CapabilityRefused(node: Id, capability: string)
    | LeaseAcquired(nodes: seq<Id>)
    | LeafStarted(node: Id)
    | LeafCompleted(node: Id)
    | LeafBlocked(node: Id)
    | LeafFailed(node: Id)
    | RetryScheduled(node: Id, code: string, decision: RetryDecision)
    | RetryRejected(node: Id, code: string, why: RetryReason)
    | WaitStarted(node: Id)
    | WaitCompleted(node: Id, completed: bool)

  datatype Graph = Graph(rootId: Id, nodes: map<Id, Node>, budget: Budget, leafExecutions: nat,
                         events: seq<Event>, stopReason: Option<Reason>)

  function Create(goal: string, criteria: seq<string>, capabilities: seq<string>, budget: Budget): Graph {
    var root := Node(None, Contract(goal, criteria, capabilities, map[]), [], [], Pending, 0, 0, 0, None, None, None);
    Graph("root", map["root" := root], budget, 0, [], None)
  }

  /** What went through the ports of the scheduler, in order; assessments and executions with their answers,
      granted leases with the nodes they were asked for. */
  datatype PortCall =
    | AssessCall(node: Id, graph: Graph, answer: AssessAnswer)
    | ExecuteCall(node: Id, result: LeafResult)
    | LeaseGranted(nodes: seq<Id>, claims: seq<Claim>)
    | LeaseReleased
    | RetryWait(node: Id)

  /** One scheduler run: the graph, the port calls made so far and the graphs handed to the store. */
  datatype World = World(graph: Graph, calls: seq<PortCall>, saves: seq<Graph>)

  datatype ChildSpec = ChildSpec(key: string, contract: Contract, dependsOn: seq<string>)

  datatype Decision = Decision(isAtomic: bool, reason: string, children: seq<ChildSpec>, leaf: Option<Contract>)

  datatype AssessAnswer = AssessRaised | Decided(decision: Decision)

  datatype ResolveAnswer = ResolveRaised | Missing(names: seq<string>)

  /** How the lease manager and the heartbeat behave around one batch. */
  datatype LeaseAnswer =
    | AcquireRaised(text: string)
    | Denied(conflicts: seq<string>)
    | Granted(heartbeatStarts: bool, heartbeatError: Option<string>, releaseError: Option<string>)

  datatype ClockAnswer = ClockError | Reading(at: real)

  datatype RetryPolicy = RetryPolicy(maxAttempts: int, codes: set<string>, keys: map<Id, string>,
                                     backoff: seq<real>, window: Option<real>, maxJitter: real,
                                     jitter: (Id, nat) -> real)

  datatype SchedulerPolicy = SchedulerPolicy(maxParallel: int, safe: set<string>, mutating: set<string>,
                                             claims: map<Id, seq<Claim>>)
  {
    function ClaimsFor(id: Id): seq<Claim> {
      if id in claims then claims[id] else []
    }
  }

  /** Everything outside the scheduler. Collaborators may keep state of their own and may look at the
      world; the number of the scheduler's loop iteration stands in for their state, so every run of
      every set of collaborators is a run of some value of this type. `order` is the order in which
      one propagation pass meets nodes of equal depth. */
  datatype Collaborators = Collaborators(
    policy: SchedulerPolicy,
    retryPolicy: Option<RetryPolicy>,
    leaseManager: bool,
    waiter: bool,
    acquirer: bool,
    order: (nat, Graph) -> seq<Id>,
    assess: (nat, World, Id) -> AssessAnswer,
    resolve: (nat, World, Id, bool) -> ResolveAnswer,
    acquire: (nat, World, Id, string) -> bool,
    lease: (nat, World, seq<Id>) -> LeaseAnswer,
    execute: (nat, World, Id) -> LeafResult,
    verify: (nat, World, Id) -> LeafResult,
    clock: (nat, World, Id) -> ClockAnswer,
    wait: (nat, World, Id) -> bool)

  function Log(w: World, e: Event): World {
    w.(graph := w.graph.(events := w.graph.events + [e]))
  }

  function Call(w: World, c: PortCall): World {
    w.(calls := w.calls + [c])
  }

  function Save(w: World): World {
    w.(saves := w.saves + [w.graph])
  }

  function PutGraph(g: Graph, id: Id, n: Node): Graph {
    g.(nodes := g.nodes[id := n])
  }

  function Put(w: World, id: Id, n: Node): World {
    w.(graph := PutGraph(w.graph, id, n))
  }

  /** Sets a node's status and error. */
  function Conclude(w: World, id: Id, status: Status, error: Option<Reason>): World
    requires id in w.graph.nodes
  {
    Put(w, id, w.graph.nodes[id].(status := status, error := error))
  }

  /** The mutable graph the scheduler works on. The budget and the root never change. */
  class TaskGraph {
    const rootId: Id
    const budget: Budget
    var nodes: map<Id, Node>
    var leafExecutions: nat
    var events: seq<Event>
    var stopReason: Option<Reason>

    function Value(): (g: Graph)
      reads this
      ensures g == Graph(rootId, nodes, budget, leafExecutions, events, stopReason)
    {
      Graph(rootId, nodes, budget, leafExecutions, events, stopReason)
    }

    constructor (value: Graph)
      ensures Value() == value
    {
      rootId, budget := value.rootId, value.budget;
      nodes, leafExecutions, events, stopReason :=
        value.nodes, value.leafExecutions, value.events, value.stopReason;
    }
  }

  /** The scheduler: its collaborators, and what it has sent through its ports. */
  class TaskScheduler {
    const col: Collaborators
    var calls: seq<PortCall>
    var saves: seq<Graph>

    constructor (col: Collaborators)
      ensures this.col == col && calls == [] && saves == []
    {
      this.col := col;
      calls, saves := [], [];
    }

    /** The scheduler and its graph as one value. */
    function Here(graph: TaskGraph): (w: World)
      reads this, graph
    {
      World(graph.Value(), calls, saves)
    }

    method Record(graph: TaskGraph, e: Event)
      modifies graph
      ensures Here(graph) == Log(old(Here(graph)), e)
    {
      graph.events := graph.events + [e];
    }

    method Store(graph: TaskGraph)
      modifies this
      ensures Here(graph) == Save(old(Here(graph)))
    {
      saves := saves + [graph.Value()];
    }

    method Through(graph: TaskGraph, c: PortCall)
      modifies this
      ensures Here(graph) == Call(old(Here(graph)), c)
    {
      calls := calls + [c];
    }

    method Finish(graph: TaskGraph, id: Id, status: Status, error: Option<Reason>)
      requires id in graph.nodes
      modifies graph
      ensures Here(graph) == Conclude(old(Here(graph)), id, status, error)
    {
      graph.nodes := graph.nodes[id := graph.nodes[id].(status := status, error := error)];
    }
  }
}
