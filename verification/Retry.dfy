/** Bounded retry of leaves under an external authority, and what a leaf result does to its node. */
module Retry {
  import opened Options
  import opened TaskModel
  import opened GraphInvariant
  import opened Propagation

  /** Bounds the policy constructor enforces. */
  ghost predicate RetryPolicyOk(policy: Option<RetryPolicy>) {
    policy.Some? ==>
      var p := policy.value;
      && 2 <= p.maxAttempts <= 10
      && |p.backoff| <= p.maxAttempts - 1
      && (forall i :: 0 <= i < |p.backoff| ==> 0.0 <= p.backoff[i] <= 3600.0)
      && (p.window.Some? ==> 0.0 < p.window.value <= 86400.0)
      && 0.0 <= p.maxJitter <= 3600.0
      && (forall id, k :: 0.0 <= p.jitter(id, k) <= p.maxJitter)
  }

  function Refuse(reason: RetryReason): RetryDecision {
    RetryDecision(false, reason, 0.0, 0.0, 0.0, None)
  }

  function BaseDelay(p: RetryPolicy, retries: nat): real {
    if retries < |p.backoff| then p.backoff[retries] else 0.0
  }

  function JitterFor(p: RetryPolicy, id: Id, retries: nat): real {
    if p.maxJitter <= 0.0 then 0.0 else p.jitter(id, retries)
  }

  /** Fits the delay into what is left of the retry window. */
  function DecideWindow(p: RetryPolicy, delay: real, jitter: real, elapsed: real): RetryDecision {
    var remaining := if p.window.Some? then Some(p.window.value - elapsed) else None;
    if remaining.Some? && remaining.value <= 0.0 then
      RetryDecision(false, ElapsedExhausted, 0.0, 0.0, elapsed, Some(0.0))
    else if remaining.Some? && delay > remaining.value then
      RetryDecision(false, DelayExceedsDeadline, delay, jitter, elapsed, remaining)
    else
      RetryDecision(true, RetryAuthorized, delay, jitter, elapsed, remaining)
  }

  function Decide(p: RetryPolicy, id: Id, n: Node, r: LeafResult, now: real): RetryDecision {
    if r.retry.None? then Refuse(NotRequested)
    else if r.retry.value.code !in p.codes then Refuse(CodeNotAllowed)
    else if id !in p.keys then Refuse(NodeNotAuthorized)
    else if r.retry.value.key != p.keys[id] then Refuse(KeyMismatch)
    else if n.retries >= p.maxAttempts - 1 then Refuse(AttemptsExhausted)
    else
      var jitter := JitterFor(p, id, n.retries);
      var delay := BaseDelay(p, n.retries) + jitter;
      if n.retryStartedAt.Some? && now < n.retryStartedAt.value then Refuse(ClockRegressed)
      else
        var elapsed := if n.retryStartedAt.Some? then now - n.retryStartedAt.value else 0.0;
        DecideWindow(p, delay, jitter, elapsed)
  }

  function EvaluateRetry(policy: Option<RetryPolicy>, id: Id, n: Node, r: LeafResult, now: real): RetryDecision {
    if policy.None? then Refuse(PolicyMissing) else Decide(policy.value, id, n, r, now)
  }

  /** A retry is authorised exactly when the policy names the code, the node and its key, attempts are left, the clock
      has not gone back, and the whole delay fits into the window: the backoff listed for this retry, or none past the
      end of the list, and the jitter, if the policy has any. */
  lemma DecideExactly(p: RetryPolicy, id: Id, n: Node, r: LeafResult, now: real)
    requires RetryPolicyOk(Some(p))
    ensures var d := Decide(p, id, n, r, now);
            var start := if n.retryStartedAt.Some? then n.retryStartedAt.value else now;
            var jitter := if p.maxJitter > 0.0 then p.jitter(id, n.retries) else 0.0;
            var delay := jitter + if n.retries < |p.backoff| then p.backoff[n.retries] else 0.0;
            && (d.retry <==>
                  && r.retry.Some? && r.retry.value.code in p.codes
                  && id in p.keys && p.keys[id] == r.retry.value.key
                  && n.retries < p.maxAttempts - 1
                  && start <= now
                  && (p.window.Some? ==> now < start + p.window.value && now + delay <= start + p.window.value))
            && (d.retry ==>
                  d == RetryDecision(true, RetryAuthorized, delay, jitter, now - start,
                                     if p.window.Some? then Some(p.window.value - (now - start)) else None)
                  && delay >= 0.0)
  {
  }

  /** Why a retry is refused: the first of the checks that fails, in this order. */
  lemma RefusalSaysWhy(p: RetryPolicy, id: Id, n: Node, r: LeafResult, now: real)
    requires !Decide(p, id, n, r, now).retry
    ensures var reason := Decide(p, id, n, r, now).reason;
            var start := if n.retryStartedAt.Some? then n.retryStartedAt.value else now;
            && (reason == NotRequested <==> r.retry.None?)
            && (reason == CodeNotAllowed <==> r.retry.Some? && r.retry.value.code !in p.codes)
            && (r.retry.Some? && r.retry.value.code in p.codes ==>
                  && (reason == NodeNotAuthorized <==> id !in p.keys)
                  && (reason == KeyMismatch <==> id in p.keys && p.keys[id] != r.retry.value.key)
                  && (id in p.keys && p.keys[id] == r.retry.value.key ==>
                        && (reason == AttemptsExhausted <==> n.retries >= p.maxAttempts - 1)
                        && (n.retries < p.maxAttempts - 1 ==>
                              && (reason == ClockRegressed <==> now < start)
                              && (reason == ElapsedExhausted <==>
                                    start <= now && p.window.Some? && now >= start + p.window.value)
                              && (reason == DelayExceedsDeadline <==>
                                    start <= now && p.window.Some? && now < start + p.window.value))))
  {
  }

  function DeadlineRejection(col: Collaborators, t: nat, w: World, id: Id): Option<RetryReason>
    requires id in w.graph.nodes
  {
    if col.retryPolicy.None? || col.retryPolicy.value.window.None? then None
    else if w.graph.nodes[id].retryStartedAt.None? then None
    else match col.clock(t, w, id)
      case ClockError => Some(ClockRaised)
      case Reading(now) =>
        var elapsed := now - w.graph.nodes[id].retryStartedAt.value;
        if elapsed < 0.0 then Some(ClockRegressed)
        else if elapsed > col.retryPolicy.value.window.value then Some(ElapsedExhausted)
        else None
  }

  /** Waits out the delay; the second component is why the retry is off after all. */
  function WaitForRetry(col: Collaborators, t: nat, w: World, id: Id, d: RetryDecision): (r: (World, Option<RetryReason>))
    requires id in w.graph.nodes
    ensures r.0.graph.nodes == w.graph.nodes
  {
    if d.delay <= 0.0 then (w, None)
    else if !col.waiter then (w, Some(WaitCancelled))
    else
      var waiting := Call(Save(Log(w, WaitStarted(id))), RetryWait(id));
      var waited := col.wait(t, waiting, id);
      var rejection := if waited then DeadlineRejection(col, t, waiting, id) else None;
      var completed := waited && rejection.None?;
      (Log(waiting, WaitCompleted(id, completed)),
       if completed then None else if rejection.Some? then rejection else Some(WaitCancelled))
  }

  function FinishLeaf(w: World, id: Id, r: LeafResult): (v: World)
    requires id in w.graph.nodes
    ensures v.graph.nodes.Keys == w.graph.nodes.Keys
  {
    if r.status.Stuck? then
      Log(Conclude(w, id, Blocked, Some(Reported(r.Text()))), LeafBlocked(id))
    else
      Log(Conclude(w, id, Failed, Some(Reported(r.Text()))), LeafFailed(id))
  }

  function RejectRetry(w: World, id: Id, r: LeafResult, code: string, why: RetryReason): (v: World)
    requires id in w.graph.nodes
    ensures v.graph.nodes.Keys == w.graph.nodes.Keys
  {
    FinishLeaf(Log(w, RetryRejected(id, code, why)), id, r)
  }

  function ScheduleRetry(w: World, id: Id, code: string, d: RetryDecision): (v: World)
    requires id in w.graph.nodes
    ensures v.graph.nodes.Keys == w.graph.nodes.Keys
  {
    var n := w.graph.nodes[id];
    Log(Put(w, id, n.(retries := n.retries + 1, status := Ready, error := None)), RetryScheduled(id, code, d))
  }

  function StartRetryClock(w: World, id: Id, now: real): (v: World)
    requires id in w.graph.nodes
    ensures v.graph.nodes.Keys == w.graph.nodes.Keys
  {
    var n := w.graph.nodes[id];
    if n.retryStartedAt.Some? then w else Put(w, id, n.(retryStartedAt := Some(now)))
  }

  function ApplyRetryResult(col: Collaborators, t: nat, w: World, id: Id, r: LeafResult): (v: World)
    requires id in w.graph.nodes && r.retry.Some?
    ensures v.graph.nodes.Keys == w.graph.nodes.Keys
  {
    var code := r.retry.value.code;
    match col.clock(t, w, id)
    case ClockError => RejectRetry(w, id, r, code, ClockRaised)
    case Reading(now) =>
      var d := EvaluateRetry(col.retryPolicy, id, w.graph.nodes[id], r, now);
      if !d.retry then RejectRetry(w, id, r, code, d.reason)
      else
        var wait := WaitForRetry(col, t, StartRetryClock(w, id, now), id, d);
        if wait.1.Some? then RejectRetry(wait.0, id, r, code, wait.1.value)
        else ScheduleRetry(wait.0, id, code, d)
  }

  function CompleteLeaf(w: World, id: Id): (v: World)
    requires id in w.graph.nodes
    ensures v.graph.nodes.Keys == w.graph.nodes.Keys
  {
    Log(Put(w, id, w.graph.nodes[id].(status := Completed)), LeafCompleted(id))
  }

  function LeafOutcome(col: Collaborators, t: nat, w: World, id: Id, r: LeafResult): (v: World)
    requires id in w.graph.nodes
    ensures v.graph.nodes.Keys == w.graph.nodes.Keys
  {
    if r.status.Succeeded? then CompleteLeaf(w, id)
    else if r.retry.Some? then ApplyRetryResult(col, t, w, id, r)
    else FinishLeaf(w, id, r)
  }

  function NoteResult(w: World, id: Id, r: LeafResult): (v: World)
    requires id in w.graph.nodes
    ensures v.graph.nodes.Keys == w.graph.nodes.Keys
  {
    Put(w, id, w.graph.nodes[id].(result := Some(r)))
  }

  function ApplyLeafResult(col: Collaborators, t: nat, w: World, id: Id, r: LeafResult, save: bool): (v: World)
    requires id in w.graph.nodes
    ensures v.graph.nodes.Keys == w.graph.nodes.Keys
  {
    var u := LeafOutcome(col, t, NoteResult(w, id, r), id, r);
    if save then Save(u) else u
  }

  // ---- The mutating form -------------------------------------------------------------------------

  method FinishLeafNode(scheduler: TaskScheduler, graph: TaskGraph, id: Id, r: LeafResult)
    requires id in graph.nodes
    modifies graph
    ensures scheduler.Here(graph) == FinishLeaf(old(scheduler.Here(graph)), id, r)
  {
    if r.status.Stuck? {
      scheduler.Finish(graph, id, Blocked, Some(Reported(r.Text())));
      scheduler.Record(graph, LeafBlocked(id));
    } else {
      scheduler.Finish(graph, id, Failed, Some(Reported(r.Text())));
      scheduler.Record(graph, LeafFailed(id));
    }
  }

  method WaitBeforeRetry(scheduler: TaskScheduler, graph: TaskGraph, t: nat, id: Id, d: RetryDecision)
    returns (rejection: Option<RetryReason>)
    requires id in graph.nodes
    modifies scheduler, graph
    ensures (scheduler.Here(graph), rejection) == WaitForRetry(scheduler.col, t, old(scheduler.Here(graph)), id, d)
  {
    if d.delay <= 0.0 {
      return None;
    }
    if !scheduler.col.waiter {
      return Some(WaitCancelled);
    }
    scheduler.Record(graph, WaitStarted(id));
    scheduler.Store(graph);
    scheduler.Through(graph, RetryWait(id));
    var completed := scheduler.col.wait(t, scheduler.Here(graph), id);
    rejection := None;
    if completed {
      rejection := DeadlineRejection(scheduler.col, t, scheduler.Here(graph), id);
      if rejection.Some? {
        completed := false;
      }
    }
    scheduler.Record(graph, WaitCompleted(id, completed));
    if completed {
      return None;
    }
    if rejection.None? {
      rejection := Some(WaitCancelled);
    }
  }

  method HandleRetryResult(scheduler: TaskScheduler, graph: TaskGraph, t: nat, id: Id, r: LeafResult)
    requires id in graph.nodes && r.retry.Some?
    modifies scheduler, graph
    ensures scheduler.Here(graph) == ApplyRetryResult(scheduler.col, t, old(scheduler.Here(graph)), id, r)
  {
    hide EvaluateRetry, WaitForRetry, FinishLeaf;
    var decision := Refuse(ClockRaised);
    match scheduler.col.clock(t, scheduler.Here(graph), id) {
      case ClockError =>
      case Reading(now) =>
        decision := EvaluateRetry(scheduler.col.retryPolicy, id, graph.nodes[id], r, now);
        if decision.retry && graph.nodes[id].retryStartedAt.None? {
          graph.nodes := graph.nodes[id := graph.nodes[id].(retryStartedAt := Some(now))];
        }
    }
    if decision.retry {
      var rejection := WaitBeforeRetry(scheduler, graph, t, id, decision);
      if rejection.Some? {
        decision := Refuse(rejection.value);
      }
    }
    if decision.retry {
      var n := graph.nodes[id];
      graph.nodes := graph.nodes[id := n.(retries := n.retries + 1, status := Ready, error := None)];
      scheduler.Record(graph, RetryScheduled(id, r.retry.value.code, decision));
      return;
    }
    scheduler.Record(graph, RetryRejected(id, r.retry.value.code, decision.reason));
    FinishLeafNode(scheduler, graph, id, r);
  }

  method HandleLeafResult(scheduler: TaskScheduler, graph: TaskGraph, t: nat, id: Id, r: LeafResult, save: bool)
    requires id in graph.nodes
    modifies scheduler, graph
    ensures scheduler.Here(graph) == ApplyLeafResult(scheduler.col, t, old(scheduler.Here(graph)), id, r, save)
  {
    graph.nodes := graph.nodes[id := graph.nodes[id].(result := Some(r))];
    if r.status.Succeeded? {
      graph.nodes := graph.nodes[id := graph.nodes[id].(status := Completed)];
      scheduler.Record(graph, LeafCompleted(id));
    } else if r.retry.Some? {
      HandleRetryResult(scheduler, graph, t, id, r);
    } else {
      FinishLeafNode(scheduler, graph, id, r);
    }
    if save {
      scheduler.Store(graph);
    }
  }

  // ---- What one leaf result does -----------------------------------------------------------------

  /** Nothing but `id` moved: it ended, or it is ready again with one more retry. */
  ghost predicate Resolved(col: Collaborators, g: Graph, h: Graph, id: Id) {
    && SameShape(g, h) && h.leafExecutions == g.leafExecutions
    && (forall x :: x in g.nodes && x != id ==> h.nodes[x] == g.nodes[x])
    && id in h.nodes && id in g.nodes && h.nodes[id].attempts == g.nodes[id].attempts
    && ((Terminal(h.nodes[id].status) && h.nodes[id].retries == g.nodes[id].retries)
        || (h.nodes[id].status.Ready? && h.nodes[id].retries == g.nodes[id].retries + 1
            && h.nodes[id].retries <= RetryCap(col.retryPolicy)))
  }

  /** Some other event-only or bookkeeping change of `id`. */
  ghost predicate Noted(w: World, v: World, id: Id) {
    Touches(w.graph, v.graph, id) && v.graph.nodes[id].status == w.graph.nodes[id].status
  }

  lemma NotedKeeps(w: World, v: World, id: Id)
    requires WorldOk(w) && Noted(w, v, id)
    requires forall s :: s in v.saves ==> s in w.saves || s == v.graph
    ensures WorldOk(v) && SameShape(w.graph, v.graph)
  {
    assert StatusOk(w.graph, id);
    NotedKeepsStatuses(w.graph, v.graph, id);
    ShapeKept(w.graph, v.graph);
    QuietKeepsCounted(w.graph, v.graph);
  }

  lemma NotedKeepsStatuses(g: Graph, h: Graph, id: Id)
    requires Statuses(g) && Touches(g, h, id) && h.nodes[id].status == g.nodes[id].status
    ensures Statuses(h)
  {
    forall x | x in h.nodes ensures StatusOk(h, x) {
      assert StatusOk(g, x);
    }
  }

  ghost predicate Workable(g: Graph, id: Id) {
    id in g.nodes && (g.nodes[id].status.Ready? || g.nodes[id].status.Running?)
  }

  lemma LogNoted(w: World, e: Event, id: Id)
    requires id in w.graph.nodes && Quiet(e)
    ensures Noted(w, Log(w, e), id)
  {
    assert (w.graph.events + [e])[..|w.graph.events|] == w.graph.events;
    assert w.graph.nodes == w.graph.nodes[id := w.graph.nodes[id]];
  }

  lemma LogKeeps(w: World, e: Event)
    requires WorldOk(w) && Quiet(e)
    ensures WorldOk(Log(w, e)) && WorldOk(Save(Log(w, e)))
  {
    LogNoted(w, e, w.graph.rootId);
    NotedKeeps(w, Log(w, e), w.graph.rootId);
  }

  lemma NotedTwice(u: World, v: World, w: World, id: Id)
    requires Noted(u, v, id) && Noted(v, w, id)
    ensures Noted(u, w, id)
  {
  }

  /** Noted, and reached by noted steps that save what they note. */
  ghost predicate NotedBy(col: Collaborators, w: World, v: World, id: Id) {
    Noted(w, v, id) && Follows(col, w, v)
  }

  lemma NotedOnce(col: Collaborators, w: World, v: World, id: Id)
    requires Noted(w, v, id) && (v.saves == w.saves || v.saves == w.saves + [v.graph])
    ensures NotedBy(col, w, v, id)
  {
    TouchFollows(col, w, v, id);
  }

  lemma NotedByTwice(col: Collaborators, u: World, v: World, w: World, id: Id)
    requires NotedBy(col, u, v, id) && NotedBy(col, v, w, id)
    ensures NotedBy(col, u, w, id)
  {
    hide Noted, Follows;
    NotedTwice(u, v, w, id);
    FollowsTrans(col, u, v, w);
  }

  /** A wait adds to the log, and it adds only the wait. */
  lemma WaitEffect(col: Collaborators, t: nat, w: World, id: Id, d: RetryDecision)
    requires WorldOk(w) && id in w.graph.nodes
    ensures var v := WaitForRetry(col, t, w, id, d).0;
            && WorldOk(v) && NotedBy(col, w, v, id) && OnlyWaited(w.graph.events, v.graph.events, id)
            && (v.calls == w.calls || v.calls == w.calls + [RetryWait(id)])
  {
    hide Noted, Follows, WorldOk;
    if d.delay > 0.0 && col.waiter {
      var waiting := Call(Save(Log(w, WaitStarted(id))), RetryWait(id));
      LogNoted(w, WaitStarted(id), id);
      LogKeeps(w, WaitStarted(id));
      SameNoted(w, Save(Log(w, WaitStarted(id))), waiting, id);
      NotedOnce(col, w, waiting, id);
      var v := WaitForRetry(col, t, w, id, d).0;
      var e := v.graph.events[|v.graph.events| - 1];
      LogNoted(waiting, e, id);
      LogKeeps(waiting, e);
      NotedOnce(col, waiting, v, id);
      NotedByTwice(col, w, waiting, v, id);
    } else {
      NothingNoted(w, id);
      NotedOnce(col, w, w, id);
    }
  }

  ghost predicate OnlyWaited(a: seq<Event>, b: seq<Event>, id: Id) {
    |a| <= |b| && a == b[..|a|] && forall k :: |a| <= k < |b| ==> IsWait(b[k], id)
  }

  lemma SameNoted(w: World, x: World, v: World, id: Id)
    requires v.graph == x.graph && v.saves == x.saves
    ensures Noted(w, x, id) ==> Noted(w, v, id)
    ensures WorldOk(x) ==> WorldOk(v)
  {
  }

  lemma NothingNoted(w: World, id: Id)
    requires id in w.graph.nodes
    ensures Noted(w, w, id)
  {
    assert w.graph.nodes == w.graph.nodes[id := w.graph.nodes[id]];
  }

  /** What a step does to one workable node: the world stays sound, the graph moves on, and the node
      is resolved. */
  ghost predicate Resolves(col: Collaborators, w: World, v: World, id: Id) {
    && WorldOk(v) && Resolved(col, w.graph, v.graph, id) && Follows(col, w, v)
    && (v.calls == w.calls || v.calls == w.calls + [RetryWait(id)])
  }

  lemma EndingResolves(col: Collaborators, w: World, v: World, id: Id)
    requires WorldOk(w) && Workable(w.graph, id) && Touches(w.graph, v.graph, id)
    requires Terminal(v.graph.nodes[id].status)
    requires v.calls == w.calls && (v.saves == w.saves || v.saves == w.saves + [v.graph])
    ensures Resolves(col, w, v, id)
  {
    hide Follows;
    assert StatusOk(w.graph, id);
    TouchKeepsInv(w.graph, v.graph, id);
    TouchFollows(col, w, v, id);
  }

  lemma FinishTouches(w: World, id: Id, r: LeafResult)
    requires Workable(w.graph, id)
    ensures var v := FinishLeaf(w, id, r);
            Touches(w.graph, v.graph, id) && Terminal(v.graph.nodes[id].status)
            && v.calls == w.calls && v.saves == w.saves
  {
    var v := FinishLeaf(w, id, r);
    assert v.graph.events[..|w.graph.events|] == w.graph.events;
  }

  lemma ResolvedAfterNoted(col: Collaborators, u: World, w: World, v: World, id: Id)
    requires Noted(u, w, id) && Resolved(col, w.graph, v.graph, id)
    ensures Resolved(col, u.graph, v.graph, id)
  {
  }

  lemma AfterNoted(col: Collaborators, u: World, w: World, v: World, id: Id)
    requires NotedBy(col, u, w, id) && Resolves(col, w, v, id)
    requires w.calls == u.calls || (w.calls == u.calls + [RetryWait(id)] && v.calls == w.calls)
    ensures Resolves(col, u, v, id)
  {
    hide WorldOk, Resolved, Noted, Follows;
    FollowsTrans(col, u, w, v);
    ResolvedAfterNoted(col, u, w, v, id);
  }

  lemma RejectResolves(col: Collaborators, w: World, id: Id, r: LeafResult, code: string, why: RetryReason)
    requires WorldOk(w) && Workable(w.graph, id)
    ensures Resolves(col, w, RejectRetry(w, id, r, code, why), id)
    ensures RejectRetry(w, id, r, code, why).calls == w.calls
  {
    hide WorldOk, Resolves, Touches, Follows;
    var logged := Log(w, RetryRejected(id, code, why));
    LogNoted(w, RetryRejected(id, code, why), id);
    LogKeeps(w, RetryRejected(id, code, why));
    NotedOnce(col, w, logged, id);
    FinishTouches(logged, id, r);
    EndingResolves(col, logged, FinishLeaf(logged, id, r), id);
    AfterNoted(col, w, logged, FinishLeaf(logged, id, r), id);
  }

  /** The clock reading behind a retry that is about to be logged. */
  ghost predicate ReadBefore(col: Collaborators, w: World, id: Id, d: RetryDecision, t: nat, u: World)
    requires RetryClockRuns(w.graph, id)
  {
    && OnlyWaited(u.graph.events, w.graph.events, id)
    && col.clock(t, u, id).Reading?
    && InWindow(col.retryPolicy, w.graph.nodes[id].retryStartedAt.value, col.clock(t, u, id).at, d)
  }

  lemma ScheduleEvolves(col: Collaborators, w: World, id: Id, code: string, d: RetryDecision, t: nat, u: World)
    requires Workable(w.graph, id) && RetryClockRuns(w.graph, id) && ReadBefore(col, w, id, d, t, u)
    requires w.graph.nodes[id].retries + 1 <= RetryCap(col.retryPolicy)
    requires Authorised(col.retryPolicy, RetryScheduled(id, code, d))
    ensures Evolves(col, w.graph, ScheduleRetry(w, id, code, d).graph)
  {
    hide InWindow, Authorised;
    var h := ScheduleRetry(w, id, code, d).graph;
    var last := |w.graph.events|;
    assert h.events[..last] == w.graph.events;
    assert u.graph.events == h.events[..|u.graph.events|];
    assert ReadFor(col, h, last, t, u);
    assert RetryTimed(col, h, last);
  }

  lemma ScheduleResolves(col: Collaborators, w: World, id: Id, code: string, d: RetryDecision, t: nat, u: World)
    requires WorldOk(w) && Workable(w.graph, id)
    requires RetryClockRuns(w.graph, id) && ReadBefore(col, w, id, d, t, u)
    requires w.graph.nodes[id].retries + 1 <= RetryCap(col.retryPolicy)
    requires Authorised(col.retryPolicy, RetryScheduled(id, code, d))
    ensures Resolves(col, w, ScheduleRetry(w, id, code, d), id)
    ensures ScheduleRetry(w, id, code, d).calls == w.calls
  {
    hide Inv, Evolves, Follows, Authorised, ReadBefore;
    var v := ScheduleRetry(w, id, code, d);
    WorkableAllowed(w.graph, id);
    RetryKeepsInv(w.graph, v.graph, id, RetryScheduled(id, code, d));
    ScheduleEvolves(col, w, id, code, d, t, u);
    FollowsStep(col, w, v);
  }

  lemma WorkableAllowed(g: Graph, id: Id)
    requires Inv(g) && Workable(g, id)
    ensures Allowed(g, id, Ready)
  {
    assert StatusOk(g, id);
  }

  lemma ClockNoted(col: Collaborators, w: World, id: Id, now: real)
    requires WorldOk(w) && Workable(w.graph, id)
    ensures var v := StartRetryClock(w, id, now);
            && NotedBy(col, w, v, id) && WorldOk(v) && v.calls == w.calls && RetryClockRuns(v.graph, id)
            && v.graph.events == w.graph.events
  {
    hide Follows;
    var v := StartRetryClock(w, id, now);
    assert v.graph.nodes == w.graph.nodes[id := v.graph.nodes[id]];
    NotedKeeps(w, v, id);
    NotedOnce(col, w, v, id);
  }

  lemma DecisionAuthorised(policy: Option<RetryPolicy>, id: Id, n: Node, r: LeafResult, now: real)
    requires RetryPolicyOk(policy) && EvaluateRetry(policy, id, n, r, now).retry
    ensures r.retry.Some?
        && Authorised(policy, RetryScheduled(id, r.retry.value.code, EvaluateRetry(policy, id, n, r, now)))
    ensures n.retries + 1 <= RetryCap(policy)
    ensures var start := if n.retryStartedAt.Some? then n.retryStartedAt.value else now;
            InWindow(policy, start, now, EvaluateRetry(policy, id, n, r, now))
  {
    DecideExactly(policy.value, id, n, r, now);
  }

  /** An authorised retry, from the reading of the clock to the end of the wait. */
  lemma AuthorisedResolves(col: Collaborators, t: nat, w: World, id: Id, r: LeafResult, now: real)
    requires WorldOk(w) && Workable(w.graph, id) && RetryPolicyOk(col.retryPolicy)
    requires col.clock(t, w, id) == Reading(now)
    requires EvaluateRetry(col.retryPolicy, id, w.graph.nodes[id], r, now).retry && r.retry.Some?
    ensures Resolves(col, w, ApplyRetryResult(col, t, w, id, r), id)
  {
    hide WorldOk, Resolves, Follows, Touches, EvaluateRetry, RejectRetry, ScheduleRetry, WaitForRetry, Authorised,
         InWindow;
    var d := EvaluateRetry(col.retryPolicy, id, w.graph.nodes[id], r, now);
    var code := r.retry.value.code;
    DecisionAuthorised(col.retryPolicy, id, w.graph.nodes[id], r, now);
    var started := StartRetryClock(w, id, now);
    ClockNoted(col, w, id, now);
    WaitEffect(col, t, started, id, d);
    var wait := WaitForRetry(col, t, started, id, d);
    NotedByTwice(col, w, started, wait.0, id);
    if wait.1.Some? {
      RejectResolves(col, wait.0, id, r, code, wait.1.value);
      AfterNoted(col, w, wait.0, RejectRetry(wait.0, id, r, code, wait.1.value), id);
    } else {
      assert ReadBefore(col, wait.0, id, d, t, w);
      ScheduleResolves(col, wait.0, id, code, d, t, w);
      AfterNoted(col, w, wait.0, ScheduleRetry(wait.0, id, code, d), id);
    }
  }

  lemma ApplyRetryResolves(col: Collaborators, t: nat, w: World, id: Id, r: LeafResult)
    requires WorldOk(w) && Workable(w.graph, id) && r.retry.Some? && RetryPolicyOk(col.retryPolicy)
    ensures Resolves(col, w, ApplyRetryResult(col, t, w, id, r), id)
  {
    hide WorldOk, Resolves, EvaluateRetry, WaitForRetry, RejectRetry, ScheduleRetry;
    var code := r.retry.value.code;
    match col.clock(t, w, id)
    case ClockError =>
      RejectResolves(col, w, id, r, code, ClockRaised);
    case Reading(now) =>
      var d := EvaluateRetry(col.retryPolicy, id, w.graph.nodes[id], r, now);
      if d.retry {
        AuthorisedResolves(col, t, w, id, r, now);
      } else {
        RejectResolves(col, w, id, r, code, d.reason);
      }
  }

  lemma CompleteResolves(col: Collaborators, w: World, id: Id)
    requires WorldOk(w) && Workable(w.graph, id)
    ensures Resolves(col, w, CompleteLeaf(w, id), id)
  {
    var v := CompleteLeaf(w, id);
    assert v.graph.events[..|w.graph.events|] == w.graph.events;
    assert StatusOk(w.graph, id);
    EndingResolves(col, w, v, id);
  }

  lemma FinishResolves(col: Collaborators, w: World, id: Id, r: LeafResult)
    requires WorldOk(w) && Workable(w.graph, id)
    ensures Resolves(col, w, FinishLeaf(w, id, r), id)
  {
    FinishTouches(w, id, r);
    EndingResolves(col, w, FinishLeaf(w, id, r), id);
  }

  lemma OutcomeResolves(col: Collaborators, t: nat, w: World, id: Id, r: LeafResult)
    requires WorldOk(w) && Workable(w.graph, id) && RetryPolicyOk(col.retryPolicy)
    ensures Resolves(col, w, LeafOutcome(col, t, w, id, r), id)
  {
    if r.status.Succeeded? {
      CompleteResolves(col, w, id);
    } else if r.retry.Some? {
      ApplyRetryResolves(col, t, w, id, r);
    } else {
      FinishResolves(col, w, id, r);
    }
  }

  lemma ResultNoted(col: Collaborators, w: World, id: Id, r: LeafResult)
    requires WorldOk(w) && Workable(w.graph, id)
    ensures var v := NoteResult(w, id, r);
            WorldOk(v) && NotedBy(col, w, v, id) && v.calls == w.calls && Workable(v.graph, id)
  {
    hide Follows;
    var v := NoteResult(w, id, r);
    assert v.graph.nodes == w.graph.nodes[id := v.graph.nodes[id]];
    NotedKeeps(w, v, id);
    NotedOnce(col, w, v, id);
  }

  /** Applying a result to a ready or running leaf ends it, or makes it ready with one retry more. */
  lemma LeafResultResolves(col: Collaborators, t: nat, w: World, id: Id, r: LeafResult, save: bool)
    requires WorldOk(w) && Workable(w.graph, id) && RetryPolicyOk(col.retryPolicy)
    ensures Resolves(col, w, ApplyLeafResult(col, t, w, id, r, save), id)
  {
    hide WorldOk, Follows, Resolved, Touches, LeafOutcome;
    ResultNoted(col, w, id, r);
    var v := NoteResult(w, id, r);
    var u := LeafOutcome(col, t, v, id, r);
    OutcomeResolves(col, t, v, id, r);
    AfterNoted(col, w, v, u, id);
    SaveResolves(col, w, u, id);
  }

  lemma SaveResolves(col: Collaborators, w: World, v: World, id: Id)
    requires Resolves(col, w, v, id)
    ensures Resolves(col, w, Save(v), id)
  {
    hide Inv, Evolves, Follows, Resolved;
    EvolvesSame(col, v.graph);
    FollowsStep(col, v, Save(v));
    FollowsTrans(col, w, v, Save(v));
  }

  /** The policy authorises the retry and the wait before it is not cut short. */
  predicate RetryGoesAhead(col: Collaborators, t: nat, w: World, id: Id, r: LeafResult)
    requires id in w.graph.nodes
  {
    && r.retry.Some? && col.clock(t, w, id).Reading?
    && var now := col.clock(t, w, id).at;
       var d := EvaluateRetry(col.retryPolicy, id, w.graph.nodes[id], r, now);
       d.retry && WaitForRetry(col, t, StartRetryClock(w, id, now), id, d).1.None?
  }

  /** Why a retry that was asked for does not go ahead: the clock raised, the policy refused it, or its wait was cut
      short. */
  function WhyNot(col: Collaborators, t: nat, w: World, id: Id, r: LeafResult): RetryReason
    requires id in w.graph.nodes && r.retry.Some?
  {
    match col.clock(t, w, id)
    case ClockError => ClockRaised
    case Reading(now) =>
      var d := EvaluateRetry(col.retryPolicy, id, w.graph.nodes[id], r, now);
      if !d.retry then d.reason
      else
        var rejection := WaitForRetry(col, t, StartRetryClock(w, id, now), id, d).1;
        if rejection.Some? then rejection.value else RetryAuthorized
  }

  lemma RejectDecides(w: World, id: Id, r: LeafResult, code: string, why: RetryReason)
    requires id in w.graph.nodes
    ensures var n, v := w.graph.nodes[id], RejectRetry(w, id, r, code, why);
            && v.graph.nodes[id] == n.(status := if r.status.Stuck? then Blocked else Failed, error := Some(Reported(r.Text())))
            && v.graph.events == w.graph.events + [RetryRejected(id, code, why),
                                                   if r.status.Stuck? then LeafBlocked(id) else LeafFailed(id)]
  {
  }

  lemma RetryDecides(col: Collaborators, t: nat, w: World, id: Id, r: LeafResult)
    requires id in w.graph.nodes && r.retry.Some? && !r.status.Succeeded?
    ensures var n, v := w.graph.nodes[id], ApplyRetryResult(col, t, w, id, r);
            var m, events := v.graph.nodes[id], v.graph.events;
            && m.result == n.result && m.attempts == n.attempts
            && (if RetryGoesAhead(col, t, w, id, r) then
                  && m.status.Ready? && m.retries == n.retries + 1 && m.error == None
                  && |events| > 0
                  && events[|events| - 1] ==
                     RetryScheduled(id, r.retry.value.code,
                                    EvaluateRetry(col.retryPolicy, id, n, r, col.clock(t, w, id).at))
                else
                  && m.status == (if r.status.Stuck? then Blocked else Failed) && m.retries == n.retries
                  && m.error == Some(Reported(r.Text()))
                  && |events| > 1
                  && events[|events| - 1] == (if r.status.Stuck? then LeafBlocked(id) else LeafFailed(id))
                  && events[|events| - 2] == RetryRejected(id, r.retry.value.code, WhyNot(col, t, w, id, r)))
  {
    hide EvaluateRetry, WaitForRetry, RejectRetry;
    var code := r.retry.value.code;
    match col.clock(t, w, id)
    case ClockError => RejectDecides(w, id, r, code, ClockRaised);
    case Reading(now) =>
      var d := EvaluateRetry(col.retryPolicy, id, w.graph.nodes[id], r, now);
      if d.retry {
        var wait := WaitForRetry(col, t, StartRetryClock(w, id, now), id, d);
        if wait.1.Some? {
          RejectDecides(wait.0, id, r, code, wait.1.value);
        }
      } else {
        RejectDecides(w, id, r, code, d.reason);
      }
  }

  /** What a leaf result decides: a success completes the leaf, a retry that goes ahead makes it ready again, and
      anything else blocks or fails it with the error, or failing that the summary, of the result. */
  lemma LeafDecides(col: Collaborators, t: nat, w: World, id: Id, r: LeafResult, save: bool)
    requires id in w.graph.nodes
    ensures var n, v := w.graph.nodes[id], ApplyLeafResult(col, t, w, id, r, save);
            var m := v.graph.nodes[id];
            var again := !r.status.Succeeded? && RetryGoesAhead(col, t, NoteResult(w, id, r), id, r);
            && (m.status.Completed? <==> r.status.Succeeded?)
            && (m.status.Ready? <==> again)
            && (m.status.Blocked? <==> r.status.Stuck? && !again)
            && (m.status.Failed? <==> r.status.Broken? && !again)
            && m.retries == n.retries + (if again then 1 else 0)
            && m.result == Some(r) && m.attempts == n.attempts
            && (r.status.Succeeded? ==> m.error == n.error)
            && (again ==> m.error == None)
            && (Defeated(m.status) ==>
                  m.error == Some(Reported(if r.error.Some? && r.error.value != "" then r.error.value else r.summary)))
            && (save ==> |v.saves| > 0 && v.saves[|v.saves| - 1] == v.graph)
  {
    hide ApplyRetryResult, RetryGoesAhead, WhyNot, EvaluateRetry;
    if !r.status.Succeeded? {
      if r.retry.Some? {
        RetryDecides(col, t, NoteResult(w, id, r), id, r);
      } else {
        NoRequestNoRetry(col, t, NoteResult(w, id, r), id, r);
      }
    }
  }

  /** What a leaf result leaves in the log: the outcome last, a scheduled retry with the decision it rests on, and
      before the end of a leaf whose retry was refused the reason. */
  lemma LeafIsLogged(col: Collaborators, t: nat, w: World, id: Id, r: LeafResult, save: bool)
    requires id in w.graph.nodes
    ensures var v, noted := ApplyLeafResult(col, t, w, id, r, save), NoteResult(w, id, r);
            var m, events := v.graph.nodes[id], v.graph.events;
            && |events| > 0
            && (m.status.Completed? ==> events[|events| - 1] == LeafCompleted(id))
            && (m.status.Blocked? ==> events[|events| - 1] == LeafBlocked(id))
            && (m.status.Failed? ==> events[|events| - 1] == LeafFailed(id))
            && (r.retry.Some? && m.status.Ready? ==>
                  events[|events| - 1] ==
                  RetryScheduled(id, r.retry.value.code,
                                 EvaluateRetry(col.retryPolicy, id, noted.graph.nodes[id], r, col.clock(t, noted, id).at)))
            && (r.retry.Some? && Defeated(m.status) ==>
                  |events| > 1
                  && events[|events| - 2] == RetryRejected(id, r.retry.value.code, WhyNot(col, t, noted, id, r)))
  {
    hide ApplyRetryResult, RetryGoesAhead, WhyNot, EvaluateRetry;
    if !r.status.Succeeded? && r.retry.Some? {
      RetryDecides(col, t, NoteResult(w, id, r), id, r);
    }
  }

  lemma NoRequestNoRetry(col: Collaborators, t: nat, w: World, id: Id, r: LeafResult)
    requires id in w.graph.nodes && r.retry.None?
    ensures !RetryGoesAhead(col, t, w, id, r)
  {
  }

  /** What a wait does. Without a delay nothing happens; without a waiter the retry is off. Otherwise the start of the
      wait is logged and saved, its end is logged, and the retry is off when the wait was cut short or when, with a
      window, a new reading of the clock fails, lies before the first retry, or lies past the window. */
  lemma WaitDecides(col: Collaborators, t: nat, w: World, id: Id, d: RetryDecision)
    requires id in w.graph.nodes
    ensures var (v, rejection) := WaitForRetry(col, t, w, id, d);
            var waiting := Call(Save(Log(w, WaitStarted(id))), RetryWait(id));
            var start := w.graph.nodes[id].retryStartedAt;
            var timed := col.retryPolicy.Some? && col.retryPolicy.value.window.Some? && start.Some?;
            var reading := col.clock(t, waiting, id);
            if d.delay <= 0.0 then v == w && rejection == None
            else if !col.waiter then v == w && rejection == Some(WaitCancelled)
            else
              && v == Log(waiting, WaitCompleted(id, rejection.None?))
              && (rejection == Some(WaitCancelled) <==> !col.wait(t, waiting, id))
              && (rejection == Some(ClockRaised) <==> col.wait(t, waiting, id) && timed && reading.ClockError?)
              && (rejection == Some(ClockRegressed) <==>
                    col.wait(t, waiting, id) && timed && reading.Reading? && reading.at < start.value)
              && (rejection == Some(ElapsedExhausted) <==>
                    col.wait(t, waiting, id) && timed && reading.Reading?
                    && reading.at > start.value + col.retryPolicy.value.window.value && reading.at >= start.value)
              && (rejection == None <==>
                    && col.wait(t, waiting, id)
                    && (timed ==> reading.Reading?
                                  && start.value <= reading.at <= start.value + col.retryPolicy.value.window.value))
  {
  }
}
