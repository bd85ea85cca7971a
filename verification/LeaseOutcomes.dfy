/** What each step of the lease protocol decides: who gets a lease, who may renew or release it, and which fenced
    operation is let through. */
module LeaseOutcomes {
  import opened Order
  import opened Strings
  import opened Claims
  import opened Leases
  import opened LeaseManager
  import opened LeaseProtocol

  // ---- Renewing and releasing --------------------------------------------------------------------

  /** The row is the one this lease was granted, to this very process. */
  ghost predicate Carries(q: Record, owner: Owner, lease: Lease) {
    && q.id == lease.id && q.owner == lease.owner && q.pid == owner.pid && q.identity == owner.identity
    && q.claims == lease.claims && q.tokens == lease.tokens
  }

  lemma UniqueRow(rows: seq<Record>, p: Record, q: Record)
    requires UniqueIds(rows) && p in rows && q in rows && p.id == q.id
    ensures p == q
  {
    var i :| 0 <= i < |rows| && rows[i] == p;
    var j :| 0 <= j < |rows| && rows[j] == q;
  }

  lemma RowProlonged(rows: seq<Record>, id: string, until: real, row: Record)
    requires row in rows && row.id == id
    ensures row.(expiresAt := until) in Prolonged(rows, id, until)
  {
    var i :| 0 <= i < |rows| && rows[i] == row;
    assert Prolonged(rows, id, until)[i] == row.(expiresAt := until);
  }

  lemma ProlongedRows(rows: seq<Record>, id: string, until: real)
    ensures forall q :: q in Prolonged(rows, id, until) <==>
                          exists p :: p in rows && q == if p.id == id then p.(expiresAt := until) else p
  {
    var after := Prolonged(rows, id, until);
    forall q | q in after ensures exists p :: p in rows && q == if p.id == id then p.(expiresAt := until) else p {
      var i :| 0 <= i < |after| && after[i] == q;
      assert rows[i] in rows;
    }
    forall p | p in rows ensures (if p.id == id then p.(expiresAt := until) else p) in after {
      var i :| 0 <= i < |rows| && rows[i] == p;
      assert after[i] in after;
    }
  }

  lemma RenewOutcome(s: System, owner: Owner, lease: Lease, now: real)
    requires Sound(s)
    ensures var (file, outcome) := Renew(owner, s.file, lease, now);
            && (outcome.Renewed? <==> exists q :: q in Rows(s.file) && Carries(q, owner, lease) && q.expiresAt > now)
            && (outcome.RenewExpired? <==>
                  exists q :: q in Rows(s.file) && Carries(q, owner, lease) && q.expiresAt <= now)
            && (outcome.RenewGone? <==> forall q :: q in Rows(s.file) ==> q.id != lease.id)
            && (outcome.RenewNotOwned? <==>
                  exists q :: q in Rows(s.file) && q.id == lease.id && !Carries(q, owner, lease))
            && (outcome.Renewed? ==>
                  && outcome.lease == lease.(expiresAt := now + owner.ttl)
                  && file == Save(Prolonged(Rows(s.file), lease.id, now + owner.ttl), Counters(s.file)))
            && (!outcome.Renewed? ==> file == s.file)
  {
    hide Save, Load, Recorded, GrantsOk, OpsOk, Prolonged, RecordOk, ClaimsCollide;
    FileLoads(s.file);
    FileCounters(s.file);
    var found := FindRecord(Rows(s.file), lease.id);
    if found.Some? {
      forall q | q in Rows(s.file) && q.id == lease.id ensures q == found.value {
        UniqueRow(Rows(s.file), q, found.value);
      }
    }
  }

  /** A lease is renewed exactly when the file has its row, owned by the very process that asks, and that row has not
      expired. Then only the expiry of that row moves; otherwise the file stays as it is, and the error says why. */
  lemma RenewDecides(s: System, owner: Owner, lease: Lease, now: real)
    requires Sound(s)
    ensures var (file, outcome) := Renew(owner, s.file, lease, now);
            && (outcome.Renewed? <==> exists q :: q in Rows(s.file) && Carries(q, owner, lease) && q.expiresAt > now)
            && (outcome.RenewExpired? <==>
                  exists q :: q in Rows(s.file) && Carries(q, owner, lease) && q.expiresAt <= now)
            && (outcome.RenewGone? <==> forall q :: q in Rows(s.file) ==> q.id != lease.id)
            && (outcome.RenewNotOwned? <==>
                  exists q :: q in Rows(s.file) && q.id == lease.id && !Carries(q, owner, lease))
            && (!outcome.Renewed? ==> file == s.file)
            && (outcome.Renewed? ==>
                  && outcome.lease == lease.(expiresAt := now + owner.ttl) && Counters(file) == Counters(s.file)
                  && forall q :: q in Rows(file) <==>
                       exists p :: p in Rows(s.file)
                                   && q == if p.id == lease.id then p.(expiresAt := now + owner.ttl) else p)
  {
    hide Renew, Save, Carries, Prolonged, Recorded, GrantsOk, OpsOk;
    RenewOutcome(s, owner, lease, now);
    ProlongedFile(s.file, lease.id, now + owner.ttl);
    ProlongedRows(Rows(s.file), lease.id, now + owner.ttl);
  }

  /** A release removes the row of the lease exactly when the process that asks owns it; a lease without a row is
      taken as released, and nobody else's row is touched. */
  lemma ReleaseDecides(s: System, owner: Owner, lease: Lease)
    requires Sound(s)
    ensures var (file, outcome) := ReleaseLease(owner, s.file, lease);
            && (outcome.Released? <==> exists q :: q in Rows(s.file) && Carries(q, owner, lease))
            && (outcome.AlreadyGone? <==> forall q :: q in Rows(s.file) ==> q.id != lease.id)
            && (outcome.ReleaseNotOwned? <==>
                  exists q :: q in Rows(s.file) && q.id == lease.id && !Carries(q, owner, lease))
            && (!outcome.Released? ==> file == s.file)
            && (outcome.Released? ==>
                  && Counters(file) == Counters(s.file)
                  && forall q :: q in Rows(file) <==> q in Rows(s.file) && q.id != lease.id)
  {
    hide SortById, Load, Recorded, GrantsOk, OpsOk, RecordOk, ClaimsCollide;
    FileLoads(s.file);
    FileCounters(s.file);
    var found := FindRecord(Rows(s.file), lease.id);
    if found.Some? {
      forall q | q in Rows(s.file) && q.id == lease.id ensures q == found.value {
        UniqueRow(Rows(s.file), q, found.value);
      }
    }
    SortContents(Without(Rows(s.file), lease.id));
  }

  // ---- The life of a grant, in every interleaving ------------------------------------------------

  ghost function Reached(clock: real, actions: seq<Action>): (s: System)
    requires Legal(Idle(clock), actions)
    ensures Sound(s)
  {
    IdleIsSound(clock);
    RunIsSound(Idle(clock), actions);
    RunAll(Idle(clock), actions)
  }

  /** The only row with the id of a grant is its own. */
  lemma RowOfGrant(s: System, g: Grant, q: Record)
    requires Sound(s) && g in s.grants && q in Rows(s.file) && q.id == g.lease.id
    ensures q == RecordFor(g.owner, g.lease) && g.lease.id !in s.released
  {
    assert Backed(s, q);
    var h :| h in s.grants && RecordOf(h, q);
    var i :| 0 <= i < |s.grants| && s.grants[i] == g;
    var j :| 0 <= j < |s.grants| && s.grants[j] == h;
    assert i == j;
  }

  /** The owner of an active lease that claims something can always renew it before it expires. The lease then lasts
      from the renewal for as long as a new one, and no other grant changes. */
  lemma OwnerRenews(clock: real, actions: seq<Action>, i: nat, now: real)
    requires Legal(Idle(clock), actions)
    requires var s := Reached(clock, actions);
             i < |s.grants| && Active(s, s.grants[i]) && s.grants[i].lease.claims != []
             && s.clock <= now < s.grants[i].lease.expiresAt
    ensures var s := Reached(clock, actions);
            var g := s.grants[i];
            var a := RenewStep(g.owner, g.lease, now);
            && Enabled(s, a)
            && var v := Do(s, a);
               && v.grants == s.grants[i := Grant(g.owner, g.lease.(expiresAt := now + g.owner.ttl))]
               && RecordFor(g.owner, v.grants[i].lease) in Rows(v.file)
               && (g.owner.ttl > 0.0 ==> Active(v, v.grants[i]))
  {
    hide OpsOk, TokensGrow, Renew, GrantOk, Reached, Legal, RunAll, Prolonged, Save, ClaimsCollide, RecordOk;
    var s := Reached(clock, actions);
    var g := s.grants[i];
    RenewOutcome(s, g.owner, g.lease, now);
    var row := RecordFor(g.owner, g.lease);
    assert row in Rows(s.file) && Carries(row, g.owner, g.lease);
    var v := Do(s, RenewStep(g.owner, g.lease, now));
    ProlongedFile(s.file, g.lease.id, now + g.owner.ttl);
    RowProlonged(Rows(s.file), g.lease.id, now + g.owner.ttl, row);
    assert v.grants[i] in v.grants;
  }

  /** Once a lease has expired nobody ever renews it, under whatever lease value of that id. */
  lemma ExpiredStaysExpired(clock: real, actions: seq<Action>, i: nat, owner: Owner, lease: Lease, now: real)
    requires Legal(Idle(clock), actions)
    requires var s := Reached(clock, actions);
             i < |s.grants| && s.grants[i].lease.id == lease.id && s.grants[i].lease.expiresAt <= now
             && Enabled(s, RenewStep(owner, lease, now))
    ensures var s := Reached(clock, actions);
            Do(s, RenewStep(owner, lease, now)) == s.(clock := now)
  {
    hide Sound, Renew, Reached, Legal, RunAll;
    var s := Reached(clock, actions);
    RenewOutcome(s, owner, lease, now);
    if q :| q in Rows(s.file) && Carries(q, owner, lease) && q.expiresAt > now {
      RowOfGrant(s, s.grants[i], q);
    }
  }

  /** A process other than the owner, even one that got the owner's pid, can neither renew nor release a lease. */
  lemma StrangersChangeNothing(clock: real, actions: seq<Action>, i: nat, owner: Owner, lease: Lease, now: real)
    requires Legal(Idle(clock), actions)
    requires var s := Reached(clock, actions);
             i < |s.grants| && s.grants[i].lease.id == lease.id
             && (owner.pid != s.grants[i].owner.pid || owner.identity != s.grants[i].owner.identity)
             && Enabled(s, RenewStep(owner, lease, now))
    ensures var s := Reached(clock, actions);
            && Do(s, RenewStep(owner, lease, now)) == s.(clock := now)
            && Enabled(s, ReleaseStep(owner, lease)) && Do(s, ReleaseStep(owner, lease)) == s
  {
    hide Sound, Renew, ReleaseLease, Reached, Legal, RunAll;
    var s := Reached(clock, actions);
    RenewOutcome(s, owner, lease, now);
    ReleaseDecides(s, owner, lease);
    forall q | q in Rows(s.file) && q.id == lease.id ensures !Carries(q, owner, lease) {
      RowOfGrant(s, s.grants[i], q);
    }
  }

  /** The owner of a recorded lease can always release it: its row goes, every other row and all grants and counters
      stay, and a second release changes nothing. */
  lemma OwnerReleases(clock: real, actions: seq<Action>, i: nat)
    requires Legal(Idle(clock), actions)
    requires var s := Reached(clock, actions);
             i < |s.grants| && RecordFor(s.grants[i].owner, s.grants[i].lease) in Rows(s.file)
             && ProcessAlive(s.grants[i].owner.pid, s.grants[i].owner.identity, s.alive)
    ensures var s := Reached(clock, actions);
            var g := s.grants[i];
            var a := ReleaseStep(g.owner, g.lease);
            && Enabled(s, a)
            && var v := Do(s, a);
               && v == s.(file := v.file, released := s.released + {g.lease.id}) && Counters(v.file) == Counters(s.file)
               && (forall q :: q in Rows(v.file) <==> q in Rows(s.file) && q.id != g.lease.id)
               && Enabled(v, a) && Do(v, a) == v
  {
    hide Sound, ReleaseLease, ProcessAlive, Reached, Legal, RunAll;
    var s := Reached(clock, actions);
    var g := s.grants[i];
    var a := ReleaseStep(g.owner, g.lease);
    ReleaseDecides(s, g.owner, g.lease);
    assert Carries(RecordFor(g.owner, g.lease), g.owner, g.lease);
    var v := Do(s, a);
    StepIsSound(s, a);
    ReleaseDecides(v, g.owner, g.lease);
  }

  // ---- Fenced operations -------------------------------------------------------------------------

  /** In every interleaving an operation on a resource is let through exactly when its lease wrote the resource and no
      lease granted later has acted on it. */
  lemma OperationDecides(clock: real, actions: seq<Action>, grant: nat, resource: string)
    requires Legal(Idle(clock), actions) && grant < |Reached(clock, actions).grants|
    ensures var s := Reached(clock, actions);
            var v, tokens := Do(s, Operate(grant, resource)), s.grants[grant].lease.tokens;
            var through := resource in tokens && forall k :: 0 <= k < |s.ops| && s.ops[k].resource == resource ==>
                s.ops[k].grant <= grant;
            && v.file == s.file && v.grants == s.grants
            && v.ops == if through then s.ops + [FencedOp(grant, resource, tokens[resource])] else s.ops
  {
    hide FileOk, Compatible, Recorded, Reached, Legal, RunAll;
    var s := Reached(clock, actions);
    var tokens := s.grants[grant].lease.tokens;
    assert GrantOk(s.grants[grant], Counters(s.file), s.past);
    forall k | 0 <= k < |s.ops| && s.ops[k].resource == resource && resource in tokens
      ensures s.ops[k].grant <= grant <==> s.ops[k].token <= tokens[resource]
      ensures s.ops[k].token <= CounterOf(s.highest, resource)
    {
      assert OpOk(s, s.ops[k]);
    }
    if resource in s.highest {
      assert Acted(s.ops, resource, s.highest[resource]);
    }
  }

  // ---- Acquiring ---------------------------------------------------------------------------------

  /** The lease an attempt grants when nothing is in its way. */
  function Grantable(s: System, a: Action): Lease
    requires a.AcquireStep?
  {
    var requested := Merge(a.claims);
    Lease(a.id, Strip(a.name), requested, a.later + a.owner.ttl, NextTokens(requested, Counters(s.file)))
  }

  lemma GrantedContents(s: System, a: Action)
    requires Sound(s) && a.AcquireStep? && ClaimsOk(a.claims)
    ensures var lease, counters := Grantable(s, a), Counters(s.file);
            && Resources(lease.claims) == Resources(a.claims)
            && OnePerResource(lease.claims)
            && (forall n :: Claim(n, Write) in lease.claims <==> Claim(n, Write) in a.claims)
            && lease.tokens.Keys == WriteResources(a.claims)
            && forall n :: n in lease.tokens ==>
                 lease.tokens[n] == CounterOf(counters, n) + 1 == CounterOf(counters + lease.tokens, n)
  {
    hide Sound, Merge;
    SoundFile(s);
    FileCounters(s.file);
    MergeContents(a.claims);
    MergeWrites(a.claims);
    forall n ensures Claim(n, Write) in Merge(a.claims) <==> Claim(n, Write) in a.claims {
      assert Writes(Merge(a.claims), n) <==> Writes(a.claims, n);
    }
    MergedClaimsOk(a.claims);
    CountersGrow(Counters(s.file), Merge(a.claims));
  }

  /** The two outcomes of an attempt that asks for something. */
  lemma AttemptOutcome(s: System, a: Action)
    requires Sound(s) && a.AcquireStep? && Enabled(s, a) && !Blank(a.name) && a.claims != []
    ensures var r := TryAcquire(a.owner, s.file, a.name, a.claims, a.now, a.later, s.alive, a.id);
            var live, lease := LiveRecords(Rows(s.file), a.now, s.alive), Grantable(s, a);
            if Conflicts(Merge(a.claims), live) == [] then
              r == (Save(live + [RecordFor(a.owner, lease)], Counters(s.file) + lease.tokens), Acquired(lease))
            else
              r == (if live != Rows(s.file) then Save(live, Counters(s.file)) else s.file,
                    Conflicted(Conflicts(Merge(a.claims), live)))
  {
    hide Sound, Merge, Load, LiveRecords, NextTokens, Save, ClaimsOk;
    SoundFile(s);
    FileLoads(s.file);
    MergeContents(a.claims);
    assert a.claims[0] in a.claims && a.claims[0].resource in Resources(Merge(a.claims));
  }

  /** The row has not expired and the process that wrote it still runs. */
  ghost predicate InForce(q: Record, now: real, alive: map<int, string>) {
    q.expiresAt > now && q.pid in alive && alive[q.pid] == q.identity
  }

  /** All or nothing: an attempt succeeds exactly when no row in force collides with what it asks for; an expired row
      and one whose owner is gone block nobody. Then the lease holds every resource asked for and a new token for each
      it writes, and its row joins the rows in force; otherwise no counter moves and the conflicts named are exactly
      the resources on which a row in force is in the way. Rows no longer in force are gone in either case. */
  lemma AcquireAllOrNothing(s: System, a: Action)
    requires Sound(s) && a.AcquireStep? && Enabled(s, a) && !Blank(a.name) && a.claims != []
    ensures var attempt := TryAcquire(a.owner, s.file, a.name, a.claims, a.now, a.later, s.alive, a.id).1;
            var v := Do(s, a);
            && (attempt.Acquired? <==>
                  forall q :: q in Rows(s.file) && InForce(q, a.now, s.alive) ==> !ClaimsCollide(a.claims, q.claims))
            && (if attempt.Acquired? then
                  && v.grants == s.grants + [Grant(a.owner, attempt.lease)]
                  && attempt.lease.id == a.id && attempt.lease.owner == Strip(a.name)
                  && attempt.lease.expiresAt == a.later + a.owner.ttl
                  && OnePerResource(attempt.lease.claims) && Resources(attempt.lease.claims) == Resources(a.claims)
                  && (forall n :: Claim(n, Write) in attempt.lease.claims <==> Claim(n, Write) in a.claims)
                  && attempt.lease.tokens.Keys == WriteResources(a.claims)
                  && (forall n :: n in attempt.lease.tokens ==>
                        attempt.lease.tokens[n] == CounterOf(Counters(s.file), n) + 1 == CounterOf(Counters(v.file), n))
                  && (forall n :: n !in attempt.lease.tokens ==>
                      CounterOf(Counters(v.file), n) == CounterOf(Counters(s.file), n))
                  && forall q :: q in Rows(v.file) <==>
                       || (q in Rows(s.file) && InForce(q, a.now, s.alive))
                       || q == Record(a.id, Strip(a.name), a.owner.pid, a.owner.identity, attempt.lease.claims,
                                      a.later + a.owner.ttl, attempt.lease.tokens)
                else
                  && attempt.Conflicted? && v.grants == s.grants && Counters(v.file) == Counters(s.file)
                  && (forall q :: q in Rows(v.file) <==> q in Rows(s.file) && InForce(q, a.now, s.alive))
                  && Ascending(Lexicographic(), attempt.resources)
                  && forall n :: n in attempt.resources <==>
                       exists c, q :: c in a.claims && c.resource == n && q in Rows(s.file) && InForce(q, a.now, s.alive)
                                      && ClaimsCollide([c], q.claims))
  {
    hide Sound, Merge, TryAcquire, LiveRecords, ClaimsCollide, Occupied, NextTokens, SortById, Load, ClaimsOk,
         WriteResources, OnePerResource;
    var live := LiveRecords(Rows(s.file), a.now, s.alive);
    AttemptOutcome(s, a);
    CollisionsByRecord(a.claims, live);
    assert forall q :: q in live <==> q in Rows(s.file) && InForce(q, a.now, s.alive);
    if Conflicts(Merge(a.claims), live) == [] {
      GrantedContents(s, a);
      SortContents(live + [RecordFor(a.owner, Grantable(s, a))]);
    } else {
      SortContents(live);
      ConflictsAsked(a.claims, live);
      MergedInOrder(a.claims);
      ConflictsInOrder(Merge(a.claims), live);
    }
  }

  /** The conflicts named are the resources for which some claim asked for collides. */
  lemma ConflictsAsked(claims: seq<Claim>, records: seq<Record>)
    ensures forall n :: n in Conflicts(Merge(claims), records) <==>
                          exists c, q :: c in claims && c.resource == n && q in records && ClaimsCollide([c], q.claims)
  {
    forall n ensures n in Conflicts(Merge(claims), records) <==>
                     exists c, q :: c in claims && c.resource == n && q in records && ClaimsCollide([c], q.claims)
    {
      ConflictAsked(claims, records, n);
    }
  }

  /** Claims in the order of their resources, each resource once. */
  ghost predicate InOrder(claims: seq<Claim>) {
    forall i, j :: 0 <= i < j < |claims| ==>
      claims[i].resource != claims[j].resource && LexLe(claims[i].resource, claims[j].resource)
  }

  lemma MergedInOrder(claims: seq<Claim>)
    ensures InOrder(Merge(claims))
  {
    var names := SortStrings(Resources(claims));
    forall i, j | 0 <= i < j < |names| ensures names[i] != names[j] && LexLe(names[i], names[j]) {
      assert Lexicographic()(names[i], names[j]);
    }
  }

  lemma {:induction false} ConflictsInOrder(requested: seq<Claim>, records: seq<Record>)
    requires InOrder(requested)
    ensures Ascending(Lexicographic(), Conflicts(requested, records))
  {
    hide Occupied;
    if requested == [] {
    } else {
      var init, last := requested[..|requested| - 1], requested[|requested| - 1];
      assert InOrder(init);
      ConflictsInOrder(init, records);
      var names := Conflicts(init, records);
      forall i | 0 <= i < |names| ensures names[i] != last.resource && LexLe(names[i], last.resource) {
        assert names[i] in names;
        var c :| c in init && c.resource == names[i];
        var k :| 0 <= k < |init| && init[k] == c;
        assert requested[k] == c;
      }
    }
  }

  lemma ConflictAsked(claims: seq<Claim>, records: seq<Record>, n: string)
    ensures n in Conflicts(Merge(claims), records) <==>
            exists c, q :: c in claims && c.resource == n && q in records && ClaimsCollide([c], q.claims)
  {
    hide Merge, Collide;
    MergeContents(claims);
    if m :| m in Merge(claims) && m.resource == n && Occupied(m, records) {
      var q, d :| q in records && d in q.claims && Collide(m, d);
      StrongestAsked(claims, m, d);
      var c :| c in claims && c.resource == n && Collide(c, d);
      assert c in [c];
      assert ClaimsCollide([c], q.claims);
    }
    if c, q :| c in claims && c.resource == n && q in records && ClaimsCollide([c], q.claims) {
      var d :| d in q.claims && Collide(c, d);
      var m := Claim(n, MergedMode(claims, n));
      assert m in Merge(claims);
      MergedCollides(claims, c, d);
      assert Occupied(m, records);
    }
  }

  /** What a merged claim collides with, one of the claims behind it collides with too. */
  lemma StrongestAsked(claims: seq<Claim>, m: Claim, d: Claim)
    requires m.resource in Resources(claims) && m.mode == MergedMode(claims, m.resource) && Collide(m, d)
    ensures exists c :: c in claims && c.resource == m.resource && Collide(c, d)
  {
    if m.mode == Write {
      assert Claim(m.resource, Write) in claims && Collide(Claim(m.resource, Write), d);
    } else {
      var c :| c in claims && c.resource == m.resource;
      assert Collide(c, d);
    }
  }

  lemma MergedCollides(claims: seq<Claim>, c: Claim, d: Claim)
    requires c in claims && Collide(c, d)
    ensures Collide(Claim(c.resource, MergedMode(claims, c.resource)), d)
  {
    assert c == Claim(c.resource, c.mode);
  }

  /** A blank owner name is refused, and a lease that claims nothing is granted; neither touches the file. */
  lemma TrivialAttempts(m: Owner, file: RegistryFile, name: string, claims: seq<Claim>, now: real, later: real,
                        alive: map<int, string>, id: string)
    requires Blank(name) || claims == []
    ensures TryAcquire(m, file, name, claims, now, later, alive, id) ==
            (file, if Blank(name) then BlankOwner else Acquired(Lease(id, Strip(name), [], now + m.ttl, map[])))
  {
    hide Load, LiveRecords, Conflicts;
  }

  lemma CollisionsByRecord(claims: seq<Claim>, records: seq<Record>)
    ensures Conflicts(Merge(claims), records) == [] <==> forall r :: r in records ==> !ClaimsCollide(claims, r.claims)
  {
    hide Merge, Collide;
    var requested := Merge(claims);
    forall r: Record ensures ClaimsCollide(requested, r.claims) <==> ClaimsCollide(claims, r.claims) {
      MergeKeepsCollisions(claims, r.claims);
    }
    if Conflicts(requested, records) == [] {
      NoConflictMeansCompatible(requested, records);
    }
    if forall r :: r in records ==> !ClaimsCollide(claims, r.claims) {
      forall c | c in requested ensures !Occupied(c, records) {
        forall r, d | r in records && d in r.claims ensures !Collide(c, d) {
          assert !ClaimsCollide(requested, r.claims);
        }
      }
    }
  }
}
