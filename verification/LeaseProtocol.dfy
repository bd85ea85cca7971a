/** Many managers, one registry file, a clock, processes that die and pids that are reused, and adapters
    that check fencing tokens: what holds in every interleaving. */
module LeaseProtocol {
  import opened Strings
  import opened Claims
  import opened Leases
  import opened LeaseManager

  /** A lease that was granted, with its latest expiry. */
  datatype Grant = Grant(owner: Owner, lease: Lease)

  /** An operation an adapter let through: for which grant, on which resource, under which token. */
  datatype FencedOp = FencedOp(grant: nat, resource: string, token: int)

  datatype System = System(file: RegistryFile, clock: real, alive: map<int, string>, past: set<(int, string)>,
                           grants: seq<Grant>, released: set<string>, highest: map<string, int>, ops: seq<FencedOp>)

  /** Nothing leased, nobody running. */
  function Idle(clock: real): System {
    System(Missing, clock, map[], {}, [], {}, map[], [])
  }

  /** One atomic step. A fenced operation may be tried by the holder of any lease ever granted, however
      stale. */
  datatype Action =
    | AcquireStep(owner: Owner, name: string, claims: seq<Claim>, now: real, later: real, id: string)
    | RenewStep(owner: Owner, lease: Lease, now: real)
    | ReleaseStep(owner: Owner, lease: Lease)
    | Tick(now: real)
    | Death(pid: int)
    | Spawn(pid: int, identity: string)
    | Operate(grant: nat, resource: string)

  /** Clocks do not go back, lease ids are new, a pid with its identity is never seen again after the
      process died, and only running processes run managers. */
  ghost predicate Enabled(s: System, a: Action) {
    match a
    case AcquireStep(owner, name, claims, now, later, id) =>
      && s.clock <= now <= later && ClaimsOk(claims) && ProcessAlive(owner.pid, owner.identity, s.alive)
      && id !in s.released && forall g :: g in s.grants ==> g.lease.id != id
    case RenewStep(owner, lease, now) => s.clock <= now && ProcessAlive(owner.pid, owner.identity, s.alive)
    case ReleaseStep(owner, lease) => ProcessAlive(owner.pid, owner.identity, s.alive)
    case Tick(now) => s.clock <= now
    case Death(pid) => pid in s.alive
    case Spawn(pid, identity) => pid !in s.alive && (pid, identity) !in s.past
    case Operate(grant, _) => grant < |s.grants|
  }

  function Extended(grants: seq<Grant>, id: string, until: real): seq<Grant> {
    seq(|grants|, i requires 0 <= i < |grants| =>
          if grants[i].lease.id == id then grants[i].(lease := grants[i].lease.(expiresAt := until)) else grants[i])
  }

  /** The adapter refuses a token below the highest it has seen. */
  predicate Accepts(highest: map<string, int>, resource: string, token: int) {
    CounterOf(highest, resource) <= token
  }

  function RunOperation(s: System, grant: nat, resource: string): System
    requires grant < |s.grants|
  {
    var tokens := s.grants[grant].lease.tokens;
    if resource !in tokens || !Accepts(s.highest, resource, tokens[resource]) then s
    else s.(highest := s.highest[resource := tokens[resource]],
            ops := s.ops + [FencedOp(grant, resource, tokens[resource])])
  }

  ghost function Do(s: System, a: Action): System
    requires Enabled(s, a)
  {
    match a
    case AcquireStep(owner, name, claims, now, later, id) =>
      var r := TryAcquire(owner, s.file, name, claims, now, later, s.alive, id);
      s.(file := r.0, clock := later,
         grants := if r.1.Acquired? then s.grants + [Grant(owner, r.1.lease)] else s.grants)
    case RenewStep(owner, lease, now) =>
      var r := Renew(owner, s.file, lease, now);
      s.(file := r.0, clock := now,
         grants := if r.1.Renewed? then Extended(s.grants, lease.id, r.1.lease.expiresAt) else s.grants)
    case ReleaseStep(owner, lease) =>
      var r := ReleaseLease(owner, s.file, lease);
      s.(file := r.0, released := if r.1.Released? then s.released + {lease.id} else s.released)
    case Tick(now) => s.(clock := now)
    case Death(pid) => s.(alive := s.alive - {pid})
    case Spawn(pid, identity) => s.(alive := s.alive[pid := identity], past := s.past + {(pid, identity)})
    case Operate(grant, resource) => RunOperation(s, grant, resource)
  }

  // ---- The fenced adapter as an object -----------------------------------------------------------

  datatype Fenced = NoToken | Stale | Executed

  class FencedAdapter {
    var highest: map<string, int>

    constructor ()
      ensures highest == map[]
    {
      highest := map[];
    }

    method ExecuteFenced(resource: string, token: int) returns (accepted: bool)
      modifies this
      ensures accepted <==> token >= if resource in old(highest) then old(highest)[resource] else 0
      ensures highest == if accepted then old(highest)[resource := token] else old(highest)
    {
      var seen := if resource in highest then highest[resource] else 0;
      if token < seen {
        return false;
      }
      highest := highest[resource := token];
      return true;
    }

    method RunFencedOperation(lease: Lease, resource: string) returns (outcome: Fenced)
      modifies this
      ensures outcome.NoToken? <==> resource !in lease.tokens
      ensures outcome.Executed? <==>
              resource in lease.tokens
              && lease.tokens[resource] >= if resource in old(highest) then old(highest)[resource] else 0
      ensures highest == if outcome.Executed? then old(highest)[resource := lease.tokens[resource]] else old(highest)
    {
      if resource !in lease.tokens {
        return NoToken;
      }
      var accepted := ExecuteFenced(resource, lease.tokens[resource]);
      return if accepted then Executed else Stale;
    }
  }

  // ---- The invariant -----------------------------------------------------------------------------

  function Rows(f: RegistryFile): seq<Record> {
    if f.Missing? then [] else f.rows
  }

  function Counters(f: RegistryFile): map<string, int> {
    if f.Missing? then map[] else f.counters
  }

  /** The file is one the loader accepts and reads back as it stands. */
  ghost predicate FileOk(f: RegistryFile) {
    f.Stored? ==>
      && f.version == SCHEMA_VERSION && CountersOk(f.counters)
      && UniqueIds(f.rows) && SortedIds(f.rows)
      && forall r :: r in f.rows ==> RecordOk(r, f.counters)
  }

  ghost predicate Compatible(rows: seq<Record>) {
    forall r, q :: r in rows && q in rows && r.id != q.id ==> !ClaimsCollide(r.claims, q.claims)
  }

  ghost predicate RecordOf(g: Grant, r: Record) {
    r == RecordFor(g.owner, g.lease)
  }

  /** Every record belongs to a grant that was not released. */
  ghost predicate Backed(s: System, r: Record) {
    r.id !in s.released && exists g :: g in s.grants && RecordOf(g, r)
  }

  /** Unreleased, unexpired, and its owner still runs. */
  ghost predicate Active(s: System, g: Grant) {
    && g in s.grants && g.lease.id !in s.released
    && g.lease.expiresAt > s.clock && ProcessAlive(g.owner.pid, g.owner.identity, s.alive)
  }

  ghost predicate Recorded(s: System) {
    && (forall r :: r in Rows(s.file) ==> Backed(s, r))
    && forall g {:trigger Active(s, g)} :: Active(s, g) && g.lease.claims != [] ==>
                                              RecordFor(g.owner, g.lease) in Rows(s.file)
  }

  ghost predicate GrantOk(g: Grant, counters: map<string, int>, past: set<(int, string)>) {
    && g.lease.tokens.Keys == WriteResources(g.lease.claims)
    && (forall n :: n in g.lease.tokens ==> 0 < g.lease.tokens[n] <= CounterOf(counters, n))
    && (g.owner.pid, g.owner.identity) in past
  }

  /** Tokens of one resource grow in the order the leases were granted. */
  ghost predicate TokensGrow(grants: seq<Grant>) {
    forall i, j, n :: 0 <= i < j < |grants| && n in grants[i].lease.tokens && n in grants[j].lease.tokens ==>
                        grants[i].lease.tokens[n] < grants[j].lease.tokens[n]
  }

  ghost predicate DistinctGrants(grants: seq<Grant>) {
    forall i, j :: 0 <= i < j < |grants| ==> grants[i].lease.id != grants[j].lease.id
  }

  ghost predicate GrantsOk(s: System) {
    && DistinctGrants(s.grants) && TokensGrow(s.grants)
    && (forall g :: g in s.grants ==> GrantOk(g, Counters(s.file), s.past))
    && (forall pid :: pid in s.alive ==> (pid, s.alive[pid]) in s.past)
  }

  ghost predicate OpOk(s: System, op: FencedOp) {
    && op.grant < |s.grants| && op.resource in s.grants[op.grant].lease.tokens
    && op.token == s.grants[op.grant].lease.tokens[op.resource]
    && op.token <= CounterOf(s.highest, op.resource)
  }

  /** Some operation was let through under this token. */
  ghost predicate Acted(ops: seq<FencedOp>, resource: string, token: int) {
    exists k :: 0 <= k < |ops| && ops[k].resource == resource && ops[k].token == token
  }

  ghost predicate OpsOk(s: System) {
    && (forall op :: op in s.ops ==> OpOk(s, op))
    && (forall n :: n in s.highest ==> Acted(s.ops, n, s.highest[n]))
    && forall a, b :: 0 <= a < b < |s.ops| && s.ops[a].resource == s.ops[b].resource ==> s.ops[a].token <= s.ops[b].token
  }

  ghost predicate Sound(s: System) {
    FileOk(s.file) && Compatible(Rows(s.file)) && Recorded(s) && GrantsOk(s) && OpsOk(s)
  }

  lemma IdleIsSound(clock: real)
    ensures Sound(Idle(clock))
  {
  }

  // ---- Files -------------------------------------------------------------------------------------

  lemma FileLoads(f: RegistryFile)
    requires FileOk(f)
    ensures Load(f) == Ok(Registry(Rows(f), Counters(f)))
  {
    if f.Stored? {
      forall k | 0 <= k < |f.rows| ensures RowError(f.rows[k], f.counters).None? && Decode(f.rows[k]) == f.rows[k] {
        assert f.rows[k] in f.rows;
        RecordLoads(f.rows[k], f.counters);
      }
      LoadRowsExactly(f.rows, f.counters);
    }
  }

  lemma SaveIsOk(records: seq<Record>, counters: map<string, int>)
    requires UniqueIds(records) && CountersOk(counters) && forall r :: r in records ==> RecordOk(r, counters)
    ensures FileOk(Save(records, counters)) && Counters(Save(records, counters)) == counters
    ensures forall r :: r in Rows(Save(records, counters)) <==> r in records
    ensures Compatible(records) ==> Compatible(Rows(Save(records, counters)))
  {
    hide RecordOk, ClaimsCollide;
    SortContents(records);
    SortUnique(records);
  }

  lemma {:induction false} LiveUnique(records: seq<Record>, now: real, alive: map<int, string>)
    requires UniqueIds(records)
    ensures UniqueIds(LiveRecords(records, now, alive))
  {
    if records == [] {
    } else {
      var init, last := records[..|records| - 1], records[|records| - 1];
      LiveUnique(init, now, alive);
      forall r | r in init ensures r.id != last.id {
        var k :| 0 <= k < |init| && init[k] == r;
        assert records[k].id == r.id;
      }
      var live := LiveRecords(init, now, alive);
      assert forall k :: 0 <= k < |live| ==> live[k] in init;
    }
  }

  lemma {:induction false} WithoutUnique(records: seq<Record>, id: string)
    requires UniqueIds(records)
    ensures UniqueIds(Without(records, id))
  {
    if records == [] {
    } else {
      var init, last := records[..|records| - 1], records[|records| - 1];
      WithoutUnique(init, id);
      forall r | r in init ensures r.id != last.id {
        var k :| 0 <= k < |init| && init[k] == r;
        assert records[k].id == r.id;
      }
      var rest := Without(init, id);
      assert forall k :: 0 <= k < |rest| ==> rest[k] in init;
    }
  }

  lemma SnocUnique(records: seq<Record>, r: Record)
    requires UniqueIds(records) && forall q :: q in records ==> q.id != r.id
    ensures UniqueIds(records + [r])
  {
    assert forall k :: 0 <= k < |records| ==> records[k] in records;
  }

  // ---- Every step keeps the invariant ------------------------------------------------------------

  lemma OpsKept(s: System, v: System)
    requires OpsOk(s) && v.ops == s.ops && v.highest == s.highest && |s.grants| <= |v.grants|
    requires forall i :: 0 <= i < |s.grants| ==> v.grants[i].lease.tokens == s.grants[i].lease.tokens
    ensures OpsOk(v)
  {
    forall op | op in v.ops ensures OpOk(v, op) {
      assert OpOk(s, op);
    }
  }

  /** Fewer records, in a file written from some of the old ones. */
  lemma Narrowed(s: System, v: System, some: seq<Record>)
    requires Sound(s) && s.clock <= v.clock && s.released <= v.released
    requires v == s.(file := Save(some, Counters(s.file)), clock := v.clock, released := v.released)
    requires UniqueIds(some) && forall r :: r in some ==> r in Rows(s.file) && r.id !in v.released
    requires forall g {:trigger Active(v, g)} :: Active(v, g) && RecordFor(g.owner, g.lease) in Rows(s.file) ==>
                                                    RecordFor(g.owner, g.lease) in some
    ensures Sound(v)
  {
    hide RecordOk, UniqueIds, SortedIds, ClaimsCollide, TokensGrow, DistinctGrants, Save, RecordFor, GrantOk;
    FileCounters(s.file);
    SaveIsOk(some, Counters(s.file));
    forall r | r in Rows(v.file) ensures Backed(v, r) {
      assert Backed(s, r);
    }
    forall g | Active(v, g) && g.lease.claims != [] ensures RecordFor(g.owner, g.lease) in Rows(v.file) {
      assert Active(s, g);
    }
    OpsKept(s, v);
  }

  lemma FileCounters(f: RegistryFile)
    requires FileOk(f)
    ensures CountersOk(Counters(f)) && UniqueIds(Rows(f)) && forall r :: r in Rows(f) ==> RecordOk(r, Counters(f))
  {
  }

  /** Expired and orphaned records may be dropped. */
  lemma ReclaimIsSound(s: System, v: System, now: real)
    requires Sound(s) && s.clock <= now <= v.clock
    requires v == s.(file := Save(LiveRecords(Rows(s.file), now, s.alive), Counters(s.file)), clock := v.clock)
    ensures Sound(v)
  {
    hide RecordOk, UniqueIds, SortedIds, ClaimsCollide, GrantsOk, OpsOk, Save;
    var live := LiveRecords(Rows(s.file), now, s.alive);
    FileCounters(s.file);
    LiveUnique(Rows(s.file), now, s.alive);
    forall r | r in live ensures r in Rows(s.file) && r.id !in v.released {
      assert Backed(s, r);
    }
    Narrowed(s, v, live);
  }

  lemma TimeIsSound(s: System, v: System)
    requires Sound(s) && s.clock <= v.clock && v == s.(clock := v.clock)
    ensures Sound(v)
  {
    hide RecordOk, UniqueIds, SortedIds, ClaimsCollide, TokensGrow, DistinctGrants, GrantOk, RecordFor;
    forall r | r in Rows(v.file) ensures Backed(v, r) {
      assert Backed(s, r);
    }
    forall g | Active(v, g) && g.lease.claims != [] ensures RecordFor(g.owner, g.lease) in Rows(v.file) {
      assert Active(s, g);
    }
    OpsKept(s, v);
  }

  // ---- Acquiring ---------------------------------------------------------------------------------

  /** A new lease with its record, next to records it does not collide with. */
  ghost predicate GrantedNext(s: System, v: System, live: seq<Record>, g: Grant) {
    && g.lease.tokens == NextTokens(g.lease.claims, Counters(s.file))
    && v == s.(file := Save(live + [RecordFor(g.owner, g.lease)], Counters(s.file) + g.lease.tokens),
               clock := v.clock, grants := s.grants + [g])
    && ClaimsOk(g.lease.claims) && g.lease.id !in s.released
    && (g.owner.pid, g.owner.identity) in s.past
    && (forall h :: h in s.grants ==> h.lease.id != g.lease.id)
    && forall r :: r in live ==> !ClaimsCollide(g.lease.claims, r.claims)
  }

  lemma CountersGrow(counters: map<string, int>, claims: seq<Claim>)
    requires CountersOk(counters) && ClaimsOk(claims)
    ensures var tokens := NextTokens(claims, counters);
            && CountersOk(counters + tokens)
            && (forall n :: CounterOf(counters, n) <= CounterOf(counters + tokens, n))
            && (forall n :: n in tokens ==> 0 < tokens[n] == CounterOf(counters + tokens, n)
                                            && tokens[n] == CounterOf(counters, n) + 1)
  {
    var tokens := NextTokens(claims, counters);
    forall n | n in tokens ensures n != "" {
      var c :| c in claims && c.mode == Write && c.resource == n;
    }
  }

  lemma RecordsStayOk(records: seq<Record>, counters: map<string, int>, more: map<string, int>)
    requires forall r :: r in records ==> RecordOk(r, counters)
    requires forall n :: CounterOf(counters, n) <= CounterOf(more, n)
    ensures forall r :: r in records ==> RecordOk(r, more)
  {
    forall r | r in records ensures RecordOk(r, more) {
      assert RecordOk(r, counters);
    }
  }

  lemma CollideSymmetric(a: seq<Claim>, b: seq<Claim>)
    ensures ClaimsCollide(a, b) <==> ClaimsCollide(b, a)
  {
    if ClaimsCollide(a, b) {
      var x, y :| x in a && y in b && Collide(x, y);
      assert Collide(y, x);
    }
    if ClaimsCollide(b, a) {
      var x, y :| x in b && y in a && Collide(x, y);
      assert Collide(y, x);
    }
  }

  lemma GrantedFile(s: System, v: System, live: seq<Record>, g: Grant)
    requires Sound(s) && GrantedNext(s, v, live, g)
    requires UniqueIds(live) && forall r :: r in live ==> r in Rows(s.file)
    ensures FileOk(v.file) && Compatible(Rows(v.file))
    ensures forall r :: r in Rows(v.file) <==> r in live || r == RecordFor(g.owner, g.lease)
  {
    hide UniqueIds, SortedIds, ClaimsCollide, GrantsOk, OpsOk, Save, NextTokens, CountersOk;
    var counters, tokens := Counters(s.file), NextTokens(g.lease.claims, Counters(s.file));
    var record := RecordFor(g.owner, g.lease);
    FileCounters(s.file);
    CountersGrow(counters, g.lease.claims);
    RecordsStayOk(live, counters, counters + tokens);
    NewRecordOk(record, counters);
    forall r | r in live ensures r.id != record.id {
      assert Backed(s, r);
    }
    SnocUnique(live, record);
    SaveIsOk(live + [record], counters + tokens);
    forall r, q | r in live + [record] && q in live + [record] && r.id != q.id
      ensures !ClaimsCollide(r.claims, q.claims)
    {
      CollideSymmetric(r.claims, q.claims);
    }
  }

  lemma NewRecordOk(r: Record, counters: map<string, int>)
    requires CountersOk(counters) && ClaimsOk(r.claims) && r.tokens == NextTokens(r.claims, counters)
    ensures RecordOk(r, counters + NextTokens(r.claims, counters))
  {
    CountersGrow(counters, r.claims);
  }

  lemma GrantedGrants(s: System, v: System, live: seq<Record>, g: Grant)
    requires Sound(s) && GrantedNext(s, v, live, g)
    ensures GrantsOk(v)
  {
    hide UniqueIds, SortedIds, ClaimsCollide, Compatible, Recorded, OpsOk, SortById, RecordOk;
    var counters, tokens := Counters(s.file), g.lease.tokens;
    FileCounters(s.file);
    CountersGrow(counters, g.lease.claims);
    forall h | h in v.grants ensures GrantOk(h, Counters(v.file), v.past) {
      if h != g {
        assert GrantOk(h, counters, s.past);
      }
    }
    forall i, j, n | 0 <= i < j < |v.grants| && n in v.grants[i].lease.tokens && n in v.grants[j].lease.tokens
      ensures v.grants[i].lease.tokens[n] < v.grants[j].lease.tokens[n]
    {
      assert GrantOk(s.grants[i], counters, s.past);
    }
  }

  lemma GrantIsSound(s: System, v: System, now: real, g: Grant)
    requires Sound(s) && s.clock <= now <= v.clock
    requires GrantedNext(s, v, LiveRecords(Rows(s.file), now, s.alive), g)
    ensures Sound(v)
  {
    hide UniqueIds, SortedIds, ClaimsCollide, Compatible, GrantsOk, FileOk, NextTokens, Save, ClaimsOk;
    var live := LiveRecords(Rows(s.file), now, s.alive);
    assert UniqueIds(live) by {
      FileCounters(s.file);
      LiveUnique(Rows(s.file), now, s.alive);
    }
    GrantedFile(s, v, live, g);
    GrantedGrants(s, v, live, g);
    forall r | r in Rows(v.file) ensures Backed(v, r) {
      if r in live {
        assert Backed(s, r);
        var h :| h in s.grants && RecordOf(h, r);
        assert h in v.grants;
      } else {
        assert g in v.grants && RecordOf(g, r);
      }
    }
    forall h | Active(v, h) && h.lease.claims != [] ensures RecordFor(h.owner, h.lease) in Rows(v.file) {
      if h != g {
        assert Active(s, h);
      }
    }
    OpsKept(s, v);
  }

  lemma EmptyGrantRecorded(s: System, v: System, g: Grant)
    requires Recorded(s) && s.clock <= v.clock && v == s.(clock := v.clock, grants := s.grants + [g])
    requires g.lease.claims == []
    ensures Recorded(v)
  {
    forall r | r in Rows(v.file) ensures Backed(v, r) {
      assert Backed(s, r);
      var h :| h in s.grants && RecordOf(h, r);
      assert h in v.grants;
    }
    forall h | Active(v, h) && h.lease.claims != [] ensures RecordFor(h.owner, h.lease) in Rows(v.file) {
      assert Active(s, h);
    }
  }

  lemma TokenlessOk(g: Grant, counters: map<string, int>, past: set<(int, string)>)
    requires g.lease.claims == [] && g.lease.tokens == map[] && (g.owner.pid, g.owner.identity) in past
    ensures GrantOk(g, counters, past)
  {
  }

  /** A lease that claims nothing needs no record. */
  lemma EmptyGrantIsSound(s: System, v: System, g: Grant)
    requires Sound(s) && s.clock <= v.clock && v == s.(clock := v.clock, grants := s.grants + [g])
    requires g.lease.claims == [] && g.lease.tokens == map[] && (g.owner.pid, g.owner.identity) in s.past
    requires forall h :: h in s.grants ==> h.lease.id != g.lease.id
    ensures Sound(v)
  {
    hide Compatible, FileOk, Recorded, OpsOk, GrantOk;
    EmptyGrantRecorded(s, v, g);
    assert GrantOk(g, Counters(v.file), v.past) by { TokenlessOk(g, Counters(v.file), v.past); }
    forall h | h in v.grants ensures GrantOk(h, Counters(v.file), v.past) {
      if h != g {
        assert h in s.grants;
      }
    }
    OpsKept(s, v);
  }

  lemma MergedClaimsOk(claims: seq<Claim>)
    requires ClaimsOk(claims)
    ensures ClaimsOk(Merge(claims))
  {
    MergeContents(claims);
    forall c | c in Merge(claims) ensures Trimmed(c.resource) {
      var d :| d in claims && d.resource == c.resource;
    }
  }

  lemma NoConflictMeansCompatible(requested: seq<Claim>, records: seq<Record>)
    requires Conflicts(requested, records) == []
    ensures forall r :: r in records ==> !ClaimsCollide(requested, r.claims)
  {
    forall r, c, d | r in records && c in requested && d in r.claims ensures !Collide(c, d) {
      assert !Occupied(c, records);
    }
  }

  lemma AcquireIsSound(s: System, a: Action)
    requires Sound(s) && a.AcquireStep? && Enabled(s, a)
    ensures Sound(Do(s, a))
  {
    hide Sound, Save, Load, NextTokens, ClaimsOk, Conflicts, LiveRecords, Merge, ClaimsCollide;
    var v := Do(s, a);
    SoundFile(s);
    FileLoads(s.file);
    var requested := Merge(a.claims);
    var live := LiveRecords(Rows(s.file), a.now, s.alive);
    AlivePast(s, a.owner);
    if Blank(a.name) {
      TimeIsSound(s, v);
    } else if requested == [] {
      EmptyGrantIsSound(s, v, v.grants[|s.grants|]);
    } else if Conflicts(requested, live) == [] {
      MergedClaimsOk(a.claims);
      NoConflictMeansCompatible(requested, live);
      GrantIsSound(s, v, a.now, v.grants[|s.grants|]);
    } else if live != Rows(s.file) {
      ReclaimIsSound(s, v, a.now);
    } else {
      TimeIsSound(s, v);
    }
  }

  lemma SoundFile(s: System)
    requires Sound(s)
    ensures FileOk(s.file)
  {
  }

  lemma AlivePast(s: System, owner: Owner)
    requires Sound(s) && ProcessAlive(owner.pid, owner.identity, s.alive)
    ensures (owner.pid, owner.identity) in s.past
  {
  }

  // ---- Renewing and releasing --------------------------------------------------------------------

  lemma ExtendedTokens(grants: seq<Grant>, id: string, until: real)
    ensures var e := Extended(grants, id, until);
            |e| == |grants| && forall i :: 0 <= i < |e| ==>
              && e[i].lease.tokens == grants[i].lease.tokens && e[i].lease.claims == grants[i].lease.claims
              && e[i].lease.id == grants[i].lease.id && e[i].owner == grants[i].owner
  {
  }

  lemma ExtendedGrantsOk(s: System, v: System, id: string, until: real)
    requires GrantsOk(s) && Counters(v.file) == Counters(s.file)
    requires v == s.(file := v.file, clock := v.clock, grants := Extended(s.grants, id, until))
    ensures GrantsOk(v)
  {
    hide Extended;
    ExtendedTokens(s.grants, id, until);
    forall g | g in v.grants ensures GrantOk(g, Counters(v.file), v.past) {
      var i :| 0 <= i < |v.grants| && v.grants[i] == g;
      assert GrantOk(s.grants[i], Counters(s.file), s.past);
    }
  }

  lemma ProlongedFile(f: RegistryFile, id: string, until: real)
    requires FileOk(f) && Compatible(Rows(f))
    ensures var p := Prolonged(Rows(f), id, until);
            && FileOk(Save(p, Counters(f))) && Compatible(Rows(Save(p, Counters(f))))
            && Counters(Save(p, Counters(f))) == Counters(f)
            && forall r :: r in Rows(Save(p, Counters(f))) <==> r in p
  {
    hide ClaimsCollide, Save, ClaimsOk;
    FileCounters(f);
    var p := Prolonged(Rows(f), id, until);
    forall r | r in p ensures RecordOk(r, Counters(f)) {
      var i :| 0 <= i < |p| && p[i] == r;
      assert RecordOk(Rows(f)[i], Counters(f));
    }
    forall r, q | r in p && q in p && r.id != q.id ensures !ClaimsCollide(r.claims, q.claims) {
      var i :| 0 <= i < |p| && p[i] == r;
      var j :| 0 <= j < |p| && p[j] == q;
      assert Rows(f)[i] in Rows(f) && Rows(f)[j] in Rows(f);
    }
    SaveIsOk(p, Counters(f));
  }

  lemma ProlongedRecorded(s: System, v: System, id: string, until: real)
    requires Sound(s) && s.clock <= v.clock
    requires v == s.(file := v.file, clock := v.clock, grants := Extended(s.grants, id, until))
    requires forall r :: r in Rows(v.file) <==> r in Prolonged(Rows(s.file), id, until)
    requires exists r :: r in Rows(s.file) && r.id == id
    ensures Recorded(v)
  {
    hide FileOk, Compatible, OpsOk, TokensGrow, GrantOk;
    var rows, p := Rows(s.file), Prolonged(Rows(s.file), id, until);
    forall r | r in Rows(v.file) ensures Backed(v, r) {
      var i :| 0 <= i < |p| && p[i] == r;
      assert Backed(s, rows[i]);
      var g :| g in s.grants && RecordOf(g, rows[i]);
      var k :| 0 <= k < |s.grants| && s.grants[k] == g;
      assert v.grants[k] in v.grants && RecordOf(v.grants[k], r);
    }
    forall g | Active(v, g) && g.lease.claims != [] ensures RecordFor(g.owner, g.lease) in Rows(v.file) {
      var k :| 0 <= k < |v.grants| && v.grants[k] == g;
      var h := s.grants[k];
      if h.lease.id == id {
        HasOwnRecord(s, k, id);
      } else {
        assert Active(s, h);
      }
      var i :| 0 <= i < |rows| && rows[i] == RecordFor(h.owner, h.lease);
      assert p[i] == RecordFor(g.owner, g.lease);
    }
  }

  /** The grant whose id a record carries is the grant of that record. */
  lemma HasOwnRecord(s: System, k: nat, id: string)
    requires Recorded(s) && DistinctGrants(s.grants) && k < |s.grants| && s.grants[k].lease.id == id
    requires exists r :: r in Rows(s.file) && r.id == id
    ensures RecordFor(s.grants[k].owner, s.grants[k].lease) in Rows(s.file)
  {
    var r :| r in Rows(s.file) && r.id == id;
    assert Backed(s, r);
    var g :| g in s.grants && RecordOf(g, r);
    var j :| 0 <= j < |s.grants| && s.grants[j] == g;
    assert j == k;
  }

  lemma RenewIsSound(s: System, a: Action)
    requires Sound(s) && a.RenewStep? && Enabled(s, a)
    ensures Sound(Do(s, a))
  {
    hide Recorded, Compatible, FileOk, GrantsOk, OpsOk, Save, Load, Prolonged, Extended;
    var v := Do(s, a);
    FileLoads(s.file);
    if Renew(a.owner, s.file, a.lease, a.now).1.Renewed? {
      var until := a.now + a.owner.ttl;
      ProlongedFile(s.file, a.lease.id, until);
      ExtendedTokens(s.grants, a.lease.id, until);
      ExtendedGrantsOk(s, v, a.lease.id, until);
      ProlongedRecorded(s, v, a.lease.id, until);
      OpsKept(s, v);
    } else {
      TimeIsSound(s, v);
    }
  }

  lemma ReleaseIsSound(s: System, a: Action)
    requires Sound(s) && a.ReleaseStep? && Enabled(s, a)
    ensures Sound(Do(s, a))
  {
    hide Compatible, FileOk, GrantsOk, OpsOk, Save, Load;
    var v := Do(s, a);
    FileLoads(s.file);
    if ReleaseLease(a.owner, s.file, a.lease).1.Released? {
      FileCounters(s.file);
      WithoutUnique(Rows(s.file), a.lease.id);
      forall r | r in Without(Rows(s.file), a.lease.id) ensures r.id !in v.released {
        assert Backed(s, r);
      }
      Narrowed(s, v, Without(Rows(s.file), a.lease.id));
    } else {
      TimeIsSound(s, v);
    }
  }

  // ---- Time, processes and fenced operations -----------------------------------------------------

  lemma DeathIsSound(s: System, pid: int)
    requires Sound(s)
    ensures Sound(s.(alive := s.alive - {pid}))
  {
    hide FileOk, Compatible, TokensGrow, DistinctGrants, GrantOk, RecordFor;
    var v := s.(alive := s.alive - {pid});
    forall r | r in Rows(v.file) ensures Backed(v, r) {
      assert Backed(s, r);
    }
    forall g | Active(v, g) && g.lease.claims != [] ensures RecordFor(g.owner, g.lease) in Rows(v.file) {
      assert Active(s, g);
    }
    OpsKept(s, v);
  }

  lemma SpawnIsSound(s: System, pid: int, identity: string)
    requires Sound(s) && pid !in s.alive && (pid, identity) !in s.past
    ensures Sound(s.(alive := s.alive[pid := identity], past := s.past + {(pid, identity)}))
  {
    hide FileOk, Compatible, TokensGrow, DistinctGrants, RecordFor;
    var v := s.(alive := s.alive[pid := identity], past := s.past + {(pid, identity)});
    forall r | r in Rows(v.file) ensures Backed(v, r) {
      assert Backed(s, r);
    }
    forall g | g in v.grants ensures GrantOk(g, Counters(v.file), v.past) {
      assert GrantOk(g, Counters(s.file), s.past);
    }
    forall g | Active(v, g) && g.lease.claims != [] ensures RecordFor(g.owner, g.lease) in Rows(v.file) {
      assert GrantOk(g, Counters(s.file), s.past);
      assert Active(s, g);
    }
    OpsKept(s, v);
  }

  lemma OperateIsSound(s: System, grant: nat, resource: string)
    requires Sound(s) && grant < |s.grants|
    ensures Sound(RunOperation(s, grant, resource))
  {
    hide FileOk, Compatible, TokensGrow, DistinctGrants, GrantOk, RecordFor;
    var v := RunOperation(s, grant, resource);
    forall r | r in Rows(v.file) ensures Backed(v, r) {
      assert Backed(s, r);
    }
    forall g | Active(v, g) && g.lease.claims != [] ensures RecordFor(g.owner, g.lease) in Rows(v.file) {
      assert Active(s, g);
    }
    forall op | op in v.ops ensures OpOk(v, op) {
      if op in s.ops {
        assert OpOk(s, op);
      }
    }
    forall x, y | 0 <= x < y < |v.ops| && v.ops[x].resource == v.ops[y].resource
      ensures v.ops[x].token <= v.ops[y].token
    {
      if x < |s.ops| {
        assert OpOk(s, s.ops[x]);
      }
    }
    forall n | n in v.highest ensures Acted(v.ops, n, v.highest[n]) {
      if v.ops != s.ops && n == resource {
        assert v.ops[|s.ops|].resource == n;
      } else {
        assert Acted(s.ops, n, s.highest[n]);
        var k :| 0 <= k < |s.ops| && s.ops[k].resource == n && s.ops[k].token == s.highest[n];
        assert v.ops[k] == s.ops[k];
      }
    }
  }

  /** Every step of every party keeps the invariant. */
  lemma StepIsSound(s: System, a: Action)
    requires Sound(s) && Enabled(s, a)
    ensures Sound(Do(s, a))
  {
    hide Sound;
    match a
    case AcquireStep(_, _, _, _, _, _) => AcquireIsSound(s, a);
    case RenewStep(_, _, _) => RenewIsSound(s, a);
    case ReleaseStep(_, _) => ReleaseIsSound(s, a);
    case Tick(now) => TimeIsSound(s, Do(s, a));
    case Death(pid) => DeathIsSound(s, pid);
    case Spawn(pid, identity) => SpawnIsSound(s, pid, identity);
    case Operate(grant, resource) => OperateIsSound(s, grant, resource);
  }

  // ---- Whole runs --------------------------------------------------------------------------------

  ghost predicate Legal(s: System, actions: seq<Action>)
    decreases |actions|
  {
    actions == [] || (Enabled(s, actions[0]) && Legal(Do(s, actions[0]), actions[1..]))
  }

  ghost function RunAll(s: System, actions: seq<Action>): System
    requires Legal(s, actions)
    decreases |actions|
  {
    if actions == [] then s else RunAll(Do(s, actions[0]), actions[1..])
  }

  lemma {:induction false} RunIsSound(s: System, actions: seq<Action>)
    requires Sound(s) && Legal(s, actions)
    ensures Sound(RunAll(s, actions))
    decreases |actions|
  {
    hide Sound, Do, Enabled;
    if actions == [] {
    } else {
      StepIsSound(s, actions[0]);
      RunIsSound(Do(s, actions[0]), actions[1..]);
    }
  }

  /** Exclusion: after any interleaving, two leases that are neither released nor expired and whose owners
      run never claim one resource in a way that lets one of them write it. */
  lemma LeasesExclude(clock: real, actions: seq<Action>, i: nat, j: nat)
    requires Legal(Idle(clock), actions)
    ensures var s := RunAll(Idle(clock), actions);
            i < j < |s.grants| && Active(s, s.grants[i]) && Active(s, s.grants[j]) ==>
              !ClaimsCollide(s.grants[i].lease.claims, s.grants[j].lease.claims)
  {
    hide FileOk, OpsOk, ClaimsCollide, Collide, GrantOk, TokensGrow, Do, Enabled, Legal;
    IdleIsSound(clock);
    RunIsSound(Idle(clock), actions);
    var s := RunAll(Idle(clock), actions);
    if i < j < |s.grants| && Active(s, s.grants[i]) && Active(s, s.grants[j]) {
      ActiveExclude(s, s.grants[i], s.grants[j]);
    }
  }

  lemma ActiveExclude(s: System, g: Grant, h: Grant)
    requires Compatible(Rows(s.file)) && Recorded(s) && Active(s, g) && Active(s, h) && g.lease.id != h.lease.id
    ensures !ClaimsCollide(g.lease.claims, h.lease.claims)
  {
    hide Backed;
    if g.lease.claims != [] && h.lease.claims != [] {
      var r, q := RecordFor(g.owner, g.lease), RecordFor(h.owner, h.lease);
      assert r in Rows(s.file) && q in Rows(s.file);
    }
  }

  /** Fencing, end to end: over any run the tokens of a resource grow with every grant, across release,
      expiry, takeover and renewal; and the operations adapters let through on one resource follow the
      order in which their leases were granted. So once a later holder has acted, no operation of an
      earlier one runs, even while the earlier owner is still alive. */
  lemma FencingHolds(clock: real, actions: seq<Action>)
    requires Legal(Idle(clock), actions)
    ensures var s := RunAll(Idle(clock), actions);
            && TokensGrow(s.grants)
            && (forall a :: 0 <= a < |s.ops| ==> s.ops[a].grant < |s.grants|)
            && forall a, b :: 0 <= a < b < |s.ops| && s.ops[a].resource == s.ops[b].resource ==>
                                s.ops[a].grant <= s.ops[b].grant
  {
    hide FileOk, Compatible, Recorded, GrantOk, DistinctGrants, Do, Enabled, Legal;
    IdleIsSound(clock);
    RunIsSound(Idle(clock), actions);
    var s := RunAll(Idle(clock), actions);
    forall a | 0 <= a < |s.ops| ensures OpOk(s, s.ops[a]) {
    }
    forall a, b | 0 <= a < b < |s.ops| && s.ops[a].resource == s.ops[b].resource
      ensures s.ops[a].grant <= s.ops[b].grant
    {
      assert OpOk(s, s.ops[a]) && OpOk(s, s.ops[b]);
    }
  }

  /** Writer and loader agree along every run: whatever managers have written is accepted and read back
      record for record, writing that again gives the same file, ids are distinct, tokens stand exactly on
      the write claims, and no token exceeds its counter. */
  lemma RegistryAlwaysLoads(clock: real, actions: seq<Action>)
    requires Legal(Idle(clock), actions)
    ensures var f := RunAll(Idle(clock), actions).file;
            && Load(f) == Ok(Registry(Rows(f), Counters(f)))
            && (f.Stored? ==> Save(Rows(f), Counters(f)) == f)
            && UniqueIds(Rows(f)) && SortedIds(Rows(f)) && CountersOk(Counters(f))
            && forall r :: r in Rows(f) ==> RecordOk(r, Counters(f))
  {
    hide Compatible, Recorded, GrantsOk, OpsOk, Do, Enabled, Legal;
    IdleIsSound(clock);
    RunIsSound(Idle(clock), actions);
    FileLoads(RunAll(Idle(clock), actions).file);
    SortSorted(Rows(RunAll(Idle(clock), actions).file));
  }
}
