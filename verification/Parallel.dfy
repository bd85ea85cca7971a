/** Which candidates the scheduler takes next: one pending task, or a batch of ready leaves whose
    claims do not conflict. */
module Parallel {
  import opened Options
  import opened Order
  import opened Claims
  import opened TaskModel

  predicate AllowsParallel(policy: SchedulerPolicy, g: Graph, id: Id)
    requires id in g.nodes
  {
    var capabilities := Elements(g.nodes[id].contract.capabilities);
    && policy.maxParallel > 1
    && capabilities != {} && capabilities <= policy.safe
    && (capabilities * policy.mutating != {} ==> exists c | c in policy.ClaimsFor(id) :: c.mode == Write)
  }

  /** A policy admits at least one leaf at a time and claims each resource once for each node. */
  ghost predicate PolicyOk(policy: SchedulerPolicy) {
    && policy.maxParallel > 0
    && forall id :: id in policy.claims ==> OnePerResource(policy.claims[id])
  }

  function LastModes(claims: seq<Claim>): map<string, Mode> {
    if claims == [] then map[]
    else LastModes(claims[..|claims| - 1])[claims[|claims| - 1].resource := claims[|claims| - 1].mode]
  }

  /** The conflict test as written: only the last mode of each selected resource is kept. */
  predicate ClaimsConflict(left: seq<Claim>, right: seq<Claim>) {
    var modes := LastModes(left);
    exists c | c in right :: c.resource in modes && (c.mode == Write || modes[c.resource] == Write)
  }

  /** Claims on one resource all have one mode. */
  ghost predicate Uniform(claims: seq<Claim>) {
    forall a, b :: a in claims && b in claims && a.resource == b.resource ==> a == b
  }

  lemma {:induction false} LastModesOfUniform(claims: seq<Claim>)
    requires Uniform(claims)
    ensures forall c :: c in claims ==> c.resource in LastModes(claims)
    ensures forall n :: n in LastModes(claims) ==> Claim(n, LastModes(claims)[n]) in claims
  {
    if claims == [] {
    } else {
      var init, last := claims[..|claims| - 1], claims[|claims| - 1];
      assert Uniform(init);
      LastModesOfUniform(init);
      assert claims == init + [last] && last == Claim(last.resource, last.mode);
    }
  }

  /** Keeping the last mode loses nothing as long as the selected claims agree. */
  lemma ConflictIsCollision(left: seq<Claim>, right: seq<Claim>)
    requires Uniform(left)
    ensures ClaimsConflict(left, right) <==> ClaimsCollide(left, right)
  {
    LastModesOfUniform(left);
    var modes := LastModes(left);
    if ClaimsConflict(left, right) {
      var c :| c in right && c.resource in modes && (c.mode == Write || modes[c.resource] == Write);
      assert Collide(Claim(c.resource, modes[c.resource]), c);
    }
    if ClaimsCollide(left, right) {
      var a, b :| a in left && b in right && Collide(a, b);
      assert Claim(b.resource, modes[b.resource]) in left;
    }
  }

  lemma UniformGrows(left: seq<Claim>, right: seq<Claim>)
    requires Uniform(left) && OnePerResource(right) && !ClaimsCollide(left, right)
    ensures Uniform(left + right)
  {
    var all := left + right;
    forall a, b | a in all && b in all && a.resource == b.resource ensures a == b {
      if a in left && b in right {
        assert !Collide(a, b);
      } else if a in right && b in left {
        assert !Collide(b, a);
      } else if a in right && b in right {
        var i :| 0 <= i < |right| && right[i] == a;
        var j :| 0 <= j < |right| && right[j] == b;
      }
    }
  }

  function ClaimsOf(policy: SchedulerPolicy, batch: seq<Id>): seq<Claim> {
    if batch == [] then []
    else ClaimsOf(policy, batch[..|batch| - 1]) + policy.ClaimsFor(batch[|batch| - 1])
  }

  /** The claims one lease must cover for a whole batch. */
  method BatchClaims(policy: SchedulerPolicy, batch: seq<Id>) returns (claims: seq<Claim>)
    ensures claims == Merge(ClaimsOf(policy, batch))
  {
    var all: seq<Claim> := [];
    for i := 0 to |batch|
      invariant all == ClaimsOf(policy, batch[..i])
    {
      assert batch[..i + 1][..i] == batch[..i];
      all := all + policy.ClaimsFor(batch[i]);
    }
    assert batch[..|batch|] == batch;
    claims := NormalizeClaims(all);
  }

  function ReadyOf(g: Graph, candidates: seq<Id>): (r: seq<Id>)
    ensures forall id :: id in r <==> id in candidates && id in g.nodes && g.nodes[id].status.Ready?
  {
    if candidates == [] then []
    else
      var id := candidates[|candidates| - 1];
      ReadyOf(g, candidates[..|candidates| - 1]) +
      if id in g.nodes && g.nodes[id].status.Ready? then [id] else []
  }

  /** The greedy choice over a nonempty list of ready nodes. */
  function GreedyBatch(policy: SchedulerPolicy, g: Graph, ready: seq<Id>): (r: seq<Id>)
    requires ready != [] && forall id :: id in ready ==> id in g.nodes
    ensures r != [] && r[0] == ready[0]
    ensures forall id :: id in r ==> id in ready
  {
    if |ready| == 1 || !AllowsParallel(policy, g, ready[0]) then [ready[0]]
    else
      var chosen := GreedyBatch(policy, g, ready[..|ready| - 1]);
      var id := ready[|ready| - 1];
      if |chosen| < policy.maxParallel && AllowsParallel(policy, g, id)
         && !ClaimsConflict(ClaimsOf(policy, chosen), policy.ClaimsFor(id))
      then chosen + [id] else chosen
  }

  method SelectLeafBatch(policy: SchedulerPolicy, g: Graph, candidates: seq<Id>) returns (batch: seq<Id>)
    requires ReadyOf(g, candidates) != [] && PolicyOk(policy)
    ensures batch == GreedyBatch(policy, g, ReadyOf(g, candidates))
  {
    var ready := ReadyOf(g, candidates);
    if !AllowsParallel(policy, g, ready[0]) {
      return [ready[0]];
    }
    batch := FillBatch(policy, g, ready);
  }

  method FillBatch(policy: SchedulerPolicy, g: Graph, ready: seq<Id>) returns (batch: seq<Id>)
    requires ready != [] && forall id :: id in ready ==> id in g.nodes
    requires AllowsParallel(policy, g, ready[0]) && PolicyOk(policy)
    ensures batch == GreedyBatch(policy, g, ready)
  {
    hide AllowsParallel, ClaimsConflict, GreedyBatch, ClaimsOf;
    batch := [ready[0]];
    var claims := policy.ClaimsFor(ready[0]);
    GreedyFirst(policy, g, ready);
    ClaimsOfLast(policy, [], ready[0]);
    var i := 1;
    while i < |ready| && |batch| < policy.maxParallel
      invariant 1 <= i <= |ready|
      invariant batch == GreedyBatch(policy, g, ready[..i]) && claims == ClaimsOf(policy, batch)
    {
      var id := ready[i];
      GreedyStep(policy, g, ready, i);
      if AllowsParallel(policy, g, id) && !ClaimsConflict(claims, policy.ClaimsFor(id)) {
        ClaimsOfLast(policy, batch, id);
        batch := batch + [id];
        claims := claims + policy.ClaimsFor(id);
      }
      i := i + 1;
    }
    GreedyEnd(policy, g, ready, i);
  }

  lemma ClaimsOfLast(policy: SchedulerPolicy, batch: seq<Id>, id: Id)
    ensures ClaimsOf(policy, batch + [id]) == ClaimsOf(policy, batch) + policy.ClaimsFor(id)
    ensures batch == [] ==> batch + [id] == [id] && ClaimsOf(policy, [id]) == policy.ClaimsFor(id)
  {
    assert (batch + [id])[..|batch|] == batch;
    if batch == [] {
      assert batch + [id] == [id];
      assert ClaimsOf(policy, batch) + policy.ClaimsFor(id) == policy.ClaimsFor(id);
    }
  }

  lemma GreedyFirst(policy: SchedulerPolicy, g: Graph, ready: seq<Id>)
    requires ready != [] && forall id :: id in ready ==> id in g.nodes
    ensures GreedyBatch(policy, g, ready[..1]) == [ready[0]]
  {
  }

  lemma GreedyStep(policy: SchedulerPolicy, g: Graph, ready: seq<Id>, i: nat)
    requires 1 <= i < |ready| && forall id :: id in ready ==> id in g.nodes
    requires AllowsParallel(policy, g, ready[0])
    ensures var chosen := GreedyBatch(policy, g, ready[..i]);
            GreedyBatch(policy, g, ready[..i + 1]) ==
            if |chosen| < policy.maxParallel && AllowsParallel(policy, g, ready[i])
               && !ClaimsConflict(ClaimsOf(policy, chosen), policy.ClaimsFor(ready[i]))
            then chosen + [ready[i]] else chosen
  {
    assert ready[..i + 1][..i] == ready[..i];
  }

  lemma GreedyEnd(policy: SchedulerPolicy, g: Graph, ready: seq<Id>, i: nat)
    requires 1 <= i <= |ready| && forall id :: id in ready ==> id in g.nodes
    requires AllowsParallel(policy, g, ready[0])
    requires i == |ready| || |GreedyBatch(policy, g, ready[..i])| >= policy.maxParallel
    ensures GreedyBatch(policy, g, ready) == GreedyBatch(policy, g, ready[..i])
  {
    if i == |ready| {
      assert ready[..i] == ready;
    } else {
      FullStaysFull(policy, g, ready, i);
    }
  }

  lemma {:induction false} FullStaysFull(policy: SchedulerPolicy, g: Graph, ready: seq<Id>, i: nat)
    requires 1 <= i <= |ready| && forall id :: id in ready ==> id in g.nodes
    requires AllowsParallel(policy, g, ready[0])
    requires |GreedyBatch(policy, g, ready[..i])| >= policy.maxParallel
    ensures GreedyBatch(policy, g, ready) == GreedyBatch(policy, g, ready[..i])
    decreases |ready|
  {
    if i == |ready| {
      assert ready[..i] == ready;
    } else {
      var init := ready[..|ready| - 1];
      assert init[..i] == ready[..i];
      FullStaysFull(policy, g, init, i);
    }
  }

  predicate IsSubsequence(s: seq<Id>, of: seq<Id>) {
    if s == [] then true
    else if of == [] then false
    else (s[|s| - 1] == of[|of| - 1] && IsSubsequence(s[..|s| - 1], of[..|of| - 1]))
         || IsSubsequence(s, of[..|of| - 1])
  }

  /** No two different members of the batch collide. */
  ghost predicate ConflictFree(policy: SchedulerPolicy, batch: seq<Id>) {
    forall i, j :: 0 <= i < j < |batch| ==> !ClaimsCollide(policy.ClaimsFor(batch[i]), policy.ClaimsFor(batch[j]))
  }

  /** `id` could not have been added to the batch. */
  ghost predicate Excluded(policy: SchedulerPolicy, g: Graph, batch: seq<Id>, id: Id)
    requires batch != [] && batch[0] in g.nodes && id in g.nodes
  {
    || |batch| >= policy.maxParallel
    || !AllowsParallel(policy, g, id)
    || !AllowsParallel(policy, g, batch[0])
    || ClaimsCollide(ClaimsOf(policy, batch), policy.ClaimsFor(id))
  }

  lemma {:induction false} ClaimsOfMember(policy: SchedulerPolicy, batch: seq<Id>, i: nat)
    requires i < |batch|
    ensures forall c :: c in policy.ClaimsFor(batch[i]) ==> c in ClaimsOf(policy, batch)
  {
    if i == |batch| - 1 {
    } else {
      ClaimsOfMember(policy, batch[..|batch| - 1], i);
    }
  }

  lemma {:induction false} Singleton(policy: SchedulerPolicy, ready: seq<Id>)
    requires PolicyOk(policy) && ready != []
    ensures IsSubsequence([ready[0]], ready)
    ensures Uniform(ClaimsOf(policy, [ready[0]]))
  {
    assert [ready[0]][..0] == [];
    assert ClaimsOf(policy, [ready[0]]) == policy.ClaimsFor(ready[0]);
    UniformGrows([], policy.ClaimsFor(ready[0]));
    assert [] + policy.ClaimsFor(ready[0]) == policy.ClaimsFor(ready[0]);
    if |ready| > 1 {
      Singleton(policy, ready[..|ready| - 1]);
    } else {
      assert IsSubsequence([], ready[..0]);
    }
  }

  lemma AddMember(policy: SchedulerPolicy, batch: seq<Id>, id: Id)
    requires PolicyOk(policy) && ConflictFree(policy, batch) && Uniform(ClaimsOf(policy, batch))
    requires !ClaimsConflict(ClaimsOf(policy, batch), policy.ClaimsFor(id))
    ensures ConflictFree(policy, batch + [id]) && Uniform(ClaimsOf(policy, batch + [id]))
  {
    assert (batch + [id])[..|batch|] == batch;
    ConflictIsCollision(ClaimsOf(policy, batch), policy.ClaimsFor(id));
    UniformGrows(ClaimsOf(policy, batch), policy.ClaimsFor(id));
    forall i | 0 <= i < |batch| ensures !ClaimsCollide(policy.ClaimsFor(batch[i]), policy.ClaimsFor(id)) {
      ClaimsOfMember(policy, batch, i);
    }
  }

  /** The batch starts with the first ready node, keeps their order, stays within the limit, is free
      of conflicts, and leaves out only nodes that could not be added. */
  lemma {:induction false} BatchIsMaximal(policy: SchedulerPolicy, g: Graph, ready: seq<Id>)
    requires PolicyOk(policy) && ready != [] && forall id :: id in ready ==> id in g.nodes
    ensures var b := GreedyBatch(policy, g, ready);
            && b[0] == ready[0] && IsSubsequence(b, ready) && |b| <= policy.maxParallel
            && ConflictFree(policy, b) && Uniform(ClaimsOf(policy, b))
            && (forall id :: id in ready && id !in b ==> Excluded(policy, g, b, id))
  {
    Singleton(policy, ready);
    if |ready| == 1 || !AllowsParallel(policy, g, ready[0]) {
    } else {
      var init, id := ready[..|ready| - 1], ready[|ready| - 1];
      BatchIsMaximal(policy, g, init);
      var chosen := GreedyBatch(policy, g, init);
      var b := GreedyBatch(policy, g, ready);
      ConflictIsCollision(ClaimsOf(policy, chosen), policy.ClaimsFor(id));
      if b != chosen {
        assert b == chosen + [id] && b[..|chosen|] == chosen;
        AddMember(policy, chosen, id);
      }
      forall x | x in ready && x !in b ensures Excluded(policy, g, b, x) {
        if x in init {
          assert Excluded(policy, g, chosen, x);
        }
      }
    }
  }

  function FirstPending(g: Graph, candidates: seq<Id>): Option<Id> {
    if candidates == [] then None
    else if candidates[0] in g.nodes && g.nodes[candidates[0]].status.Pending? then Some(candidates[0])
    else FirstPending(g, candidates[1..])
  }

  /** With one slot the first candidate decides; otherwise pending tasks go before any batch. */
  function SelectPending(policy: SchedulerPolicy, g: Graph, candidates: seq<Id>): Option<Id>
    requires candidates != []
  {
    if policy.maxParallel == 1 then FirstPending(g, [candidates[0]]) else FirstPending(g, candidates)
  }

  /** When no pending task is chosen there is a ready leaf to execute. */
  lemma NoPendingMeansReady(policy: SchedulerPolicy, g: Graph, candidates: seq<Id>)
    requires candidates != []
    requires forall id :: id in candidates ==>
                            id in g.nodes && (g.nodes[id].status.Pending? || g.nodes[id].status.Ready?)
    ensures match SelectPending(policy, g, candidates)
            case Some(id) => id in candidates && g.nodes[id].status.Pending?
            case None => ReadyOf(g, candidates) != []
  {
    FirstPendingIn(g, [candidates[0]]);
    FirstPendingIn(g, candidates);
    assert candidates[0] in candidates;
    assert candidates[0] in [candidates[0]];
  }

  lemma {:induction false} FirstPendingIn(g: Graph, candidates: seq<Id>)
    ensures match FirstPending(g, candidates)
            case Some(id) => id in candidates && id in g.nodes && g.nodes[id].status.Pending?
            case None => forall id :: id in candidates && id in g.nodes ==> !g.nodes[id].status.Pending?
  {
    if candidates == [] {
    } else {
      FirstPendingIn(g, candidates[1..]);
      assert candidates == [candidates[0]] + candidates[1..];
    }
  }
}
