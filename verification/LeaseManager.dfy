/** The critical sections of the lease manager: one attempt to acquire, renew, release. Each runs under
    the registry lock, reads the file once and writes it at most once. */
module LeaseManager {
  import opened Options
  import opened Strings
  import opened Claims
  import opened Leases

  /** A manager process: its pid, the identity that tells it from an earlier holder of that pid, and its
      lease duration. */
  datatype Owner = Owner(pid: int, identity: string, ttl: real)

  datatype Attempt =
    | Acquired(lease: Lease)
    | Conflicted(resources: seq<string>)
    | BlankOwner
    | AcquireUnreadable(error: LoadError)

  datatype Renewal =
    | Renewed(lease: Lease)
    | RenewGone
    | RenewNotOwned
    | RenewExpired
    | RenewUnreadable(error: LoadError)

  datatype Release =
    | Released
    | AlreadyGone
    | ReleaseNotOwned
    | ReleaseUnreadable(error: LoadError)

  // ---- Live records, conflicts and tokens --------------------------------------------------------

  predicate ProcessAlive(pid: int, identity: string, alive: map<int, string>) {
    pid in alive && alive[pid] == identity
  }

  predicate Live(r: Record, now: real, alive: map<int, string>) {
    r.expiresAt > now && ProcessAlive(r.pid, r.identity, alive)
  }

  function LiveRecords(records: seq<Record>, now: real, alive: map<int, string>): (live: seq<Record>)
    ensures forall r :: r in live <==> r in records && Live(r, now, alive)
  {
    if records == [] then []
    else
      var before := LiveRecords(records[..|records| - 1], now, alive);
      if Live(records[|records| - 1], now, alive) then before + [records[|records| - 1]] else before
  }

  /** Some record claims the resource in a way that collides with the request. */
  predicate Occupied(c: Claim, records: seq<Record>) {
    exists r, d | r in records && d in r.claims :: Collide(c, d)
  }

  function Conflicts(requested: seq<Claim>, records: seq<Record>): (r: seq<string>)
    ensures r == [] <==> forall c :: c in requested ==> !Occupied(c, records)
    ensures forall n :: n in r <==> exists c :: c in requested && c.resource == n && Occupied(c, records)
  {
    if requested == [] then []
    else
      var c := requested[|requested| - 1];
      var before := Conflicts(requested[..|requested| - 1], records);
      if Occupied(c, records) then before + [c.resource] else before
  }

  /** The modes each resource is occupied in. */
  ghost predicate Tabulates(occupied: map<string, set<Mode>>, claims: seq<Claim>) {
    && (forall n :: n in occupied <==> n in Resources(claims))
    && forall n, m :: n in occupied ==> (m in occupied[n] <==> Claim(n, m) in claims)
  }

  ghost function AllClaims(records: seq<Record>): seq<Claim> {
    if records == [] then [] else AllClaims(records[..|records| - 1]) + records[|records| - 1].claims
  }

  lemma {:induction false} AllClaimsMember(records: seq<Record>, d: Claim)
    ensures d in AllClaims(records) <==> exists r :: r in records && d in r.claims
  {
    if records == [] {
    } else {
      var init, last := records[..|records| - 1], records[|records| - 1];
      AllClaimsMember(init, d);
      assert records == init + [last];
      assert d in AllClaims(records) <==> d in AllClaims(init) || d in last.claims;
    }
  }

  method ConflictingResources(requested: seq<Claim>, records: seq<Record>) returns (names: seq<string>)
    ensures names == Conflicts(requested, records)
  {
    var occupied: map<string, set<Mode>> := map[];
    for i := 0 to |records|
      invariant Tabulates(occupied, AllClaims(records[..i]))
    {
      var claims := records[i].claims;
      ghost var before := AllClaims(records[..i]);
      assert records[..i + 1][..i] == records[..i];
      assert before + claims[..0] == before;
      for j := 0 to |claims|
        invariant Tabulates(occupied, before + claims[..j])
      {
        var c := claims[j];
        ghost var seen := before + claims[..j];
        assert before + claims[..j + 1] == seen + [c];
        occupied := occupied[c.resource := (if c.resource in occupied then occupied[c.resource] else {}) + {c.mode}];
        TabulateOne(seen, c);
      }
      assert claims[..|claims|] == claims;
    }
    assert records[..|records|] == records;
    names := [];
    for i := 0 to |requested|
      invariant names == Conflicts(requested[..i], records)
    {
      var c := requested[i];
      assert requested[..i + 1][..i] == requested[..i];
      OccupiedByTable(occupied, records, c);
      if c.resource in occupied && (c.mode == Write || Write in occupied[c.resource]) {
        names := names + [c.resource];
      }
    }
    assert requested[..|requested|] == requested;
  }

  lemma TabulateOne(seen: seq<Claim>, c: Claim)
    ensures Resources(seen + [c]) == Resources(seen) + {c.resource}
    ensures forall d :: d in seen + [c] <==> d in seen || d == c
    ensures forall m :: c.resource !in Resources(seen) ==> Claim(c.resource, m) !in seen
  {
  }

  lemma OccupiedByTable(occupied: map<string, set<Mode>>, records: seq<Record>, c: Claim)
    requires Tabulates(occupied, AllClaims(records))
    ensures Occupied(c, records) <==> c.resource in occupied && (c.mode == Write || Write in occupied[c.resource])
  {
    var all := AllClaims(records);
    if Occupied(c, records) {
      var r, d :| r in records && d in r.claims && Collide(c, d);
      AllClaimsMember(records, d);
      assert d in all && d == Claim(c.resource, d.mode);
    }
    if c.resource in occupied && (c.mode == Write || Write in occupied[c.resource]) {
      var d := if Write in occupied[c.resource] then Claim(c.resource, Write) else
                 var e :| e in all && e.resource == c.resource; e;
      AllClaimsMember(records, d);
      assert Collide(c, d);
    }
  }

  /** Each written resource gets the number after its counter. */
  function NextTokens(claims: seq<Claim>, counters: map<string, int>): map<string, int> {
    map n | n in WriteResources(claims) :: CounterOf(counters, n) + 1
  }

  lemma OneMoreToken(claims: seq<Claim>, i: nat, counters: map<string, int>)
    requires OnePerResource(claims) && i < |claims|
    ensures var c, tokens := claims[i], NextTokens(claims[..i], counters);
            && c.resource !in tokens
            && NextTokens(claims[..i + 1], counters) ==
               if c.mode == Write then tokens[c.resource := CounterOf(counters, c.resource) + 1] else tokens
  {
    var c := claims[i];
    assert claims[..i + 1] == claims[..i] + [c];
    forall n ensures n in WriteResources(claims[..i + 1]) <==>
                     n in WriteResources(claims[..i]) || (c.mode == Write && n == c.resource)
    {
      WritesMembership(claims[..i + 1], n);
      WritesMembership(claims[..i], n);
    }
    forall d | d in claims[..i] ensures d.resource != c.resource {
      var k :| 0 <= k < i && claims[k] == d;
    }
  }

  method NextFencingTokens(claims: seq<Claim>, counters: map<string, int>)
    returns (tokens: map<string, int>, updated: map<string, int>)
    requires OnePerResource(claims)
    ensures tokens == NextTokens(claims, counters) && updated == counters + tokens
  {
    hide OnePerResource, NextTokens;
    tokens, updated := map[], counters;
    NoTokens(counters);
    for i := 0 to |claims|
      invariant tokens == NextTokens(claims[..i], counters) && updated == counters + tokens
    {
      var c := claims[i];
      OneMoreToken(claims, i, counters);
      if c.mode == Write {
        var token := CounterOf(updated, c.resource) + 1;
        updated := updated[c.resource := token];
        tokens := tokens[c.resource := token];
      }
    }
    assert claims[..|claims|] == claims;
  }

  lemma NoTokens(counters: map<string, int>)
    ensures NextTokens([], counters) == map[]
  {
    assert WriteResources([]) == {};
  }

  // ---- The three critical sections as functions of the file --------------------------------------

  function RecordFor(m: Owner, lease: Lease): Record {
    Record(lease.id, lease.owner, m.pid, m.identity, lease.claims, lease.expiresAt, lease.tokens)
  }

  function TryAcquire(m: Owner, file: RegistryFile, name: string, claims: seq<Claim>, now: real, later: real,
                      alive: map<int, string>, id: string): (RegistryFile, Attempt)
  {
    var requested := Merge(claims);
    if Blank(name) then (file, BlankOwner)
    else if requested == [] then (file, Acquired(Lease(id, Strip(name), [], now + m.ttl, map[])))
    else
      match Load(file)
      case Failed(e) => (file, AcquireUnreadable(e))
      case Ok(registry) =>
        var live := LiveRecords(registry.records, now, alive);
        var conflicts := Conflicts(requested, live);
        if conflicts == [] then
          var tokens := NextTokens(requested, registry.counters);
          var lease := Lease(id, Strip(name), requested, later + m.ttl, tokens);
          (Save(live + [RecordFor(m, lease)], registry.counters + tokens), Acquired(lease))
        else
          (if live != registry.records then Save(live, registry.counters) else file, Conflicted(conflicts))
  }

  /** The first record with the id of the lease. */
  function FindRecord(records: seq<Record>, id: string): (r: Option<Record>)
    ensures r.Some? ==> r.value in records && r.value.id == id
    ensures r.None? ==> forall x :: x in records ==> x.id != id
  {
    if records == [] then None
    else if records[0].id == id then Some(records[0])
    else FindRecord(records[1..], id)
  }

  predicate Owns(m: Owner, r: Record, lease: Lease) {
    && r.owner == lease.owner && r.pid == m.pid && r.identity == m.identity
    && r.claims == lease.claims && r.tokens == lease.tokens
  }

  function Prolonged(records: seq<Record>, id: string, until: real): seq<Record> {
    seq(|records|, i requires 0 <= i < |records| =>
          if records[i].id == id then records[i].(expiresAt := until) else records[i])
  }

  function Renew(m: Owner, file: RegistryFile, lease: Lease, now: real): (RegistryFile, Renewal) {
    match Load(file)
    case Failed(e) => (file, RenewUnreadable(e))
    case Ok(registry) =>
      match FindRecord(registry.records, lease.id)
      case None => (file, RenewGone)
      case Some(r) =>
        if !Owns(m, r, lease) then (file, RenewNotOwned)
        else if r.expiresAt <= now then (file, RenewExpired)
        else (Save(Prolonged(registry.records, lease.id, now + m.ttl), registry.counters),
              Renewed(lease.(expiresAt := now + m.ttl)))
  }

  function Without(records: seq<Record>, id: string): (r: seq<Record>)
    ensures forall x :: x in r <==> x in records && x.id != id
  {
    if records == [] then []
    else
      var before := Without(records[..|records| - 1], id);
      if records[|records| - 1].id != id then before + [records[|records| - 1]] else before
  }

  function ReleaseLease(m: Owner, file: RegistryFile, lease: Lease): (RegistryFile, Release) {
    match Load(file)
    case Failed(e) => (file, ReleaseUnreadable(e))
    case Ok(registry) =>
      match FindRecord(registry.records, lease.id)
      case None => (file, AlreadyGone)
      case Some(r) =>
        if !Owns(m, r, lease) then (file, ReleaseNotOwned)
        else (Save(Without(registry.records, lease.id), registry.counters), Released)
  }

  // ---- The mutating manager ----------------------------------------------------------------------

  /** The registry file shared by all managers. */
  class RegistryStore {
    var file: RegistryFile

    constructor ()
      ensures file == Missing
    {
      file := Missing;
    }
  }

  class FileResourceLeaseManager {
    const store: RegistryStore
    const owner: Owner

    constructor (store: RegistryStore, owner: Owner)
      ensures this.store == store && this.owner == owner
    {
      this.store, this.owner := store, owner;
    }

    /** One turn of the acquire loop. `now` and `later` are the clock when live records are chosen and
        when the lease is written, `alive` answers the identity lookups, `id` is a new lease id. */
    method AcquireOnce(name: string, claims: seq<Claim>, now: real, later: real, alive: map<int, string>, id: string)
      returns (attempt: Attempt)
      modifies store
      ensures (store.file, attempt) == TryAcquire(owner, old(store.file), name, claims, now, later, alive, id)
    {
      hide Merge, LiveRecords, Conflicts, NextTokens, Save, Load, Blank, Strip;
      if Blank(name) {
        return BlankOwner;
      }
      var requested := NormalizeClaims(claims);
      if requested == [] {
        return Acquired(Lease(id, Strip(name), [], now + owner.ttl, map[]));
      }
      var loaded := LoadRegistry(store.file);
      if loaded.Failed? {
        return AcquireUnreadable(loaded.error);
      }
      var live := LiveRecords(loaded.registry.records, now, alive);
      var conflicts := ConflictingResources(requested, live);
      if conflicts == [] {
        MergeContents(claims);
        var tokens, counters := NextFencingTokens(requested, loaded.registry.counters);
        var lease := Lease(id, Strip(name), requested, later + owner.ttl, tokens);
        store.file := Save(live + [RecordFor(owner, lease)], counters);
        return Acquired(lease);
      }
      if live != loaded.registry.records {
        store.file := Save(live, loaded.registry.counters);
      }
      return Conflicted(conflicts);
    }

    method RenewOnce(lease: Lease, now: real) returns (outcome: Renewal)
      modifies store
      ensures (store.file, outcome) == Renew(owner, old(store.file), lease, now)
    {
      var loaded := LoadRegistry(store.file);
      if loaded.Failed? {
        return RenewUnreadable(loaded.error);
      }
      var found := FindRecord(loaded.registry.records, lease.id);
      if found.None? {
        return RenewGone;
      }
      if !Owns(owner, found.value, lease) {
        return RenewNotOwned;
      }
      if found.value.expiresAt <= now {
        return RenewExpired;
      }
      store.file := Save(Prolonged(loaded.registry.records, lease.id, now + owner.ttl), loaded.registry.counters);
      return Renewed(lease.(expiresAt := now + owner.ttl));
    }

    method ReleaseOnce(lease: Lease) returns (outcome: Release)
      modifies store
      ensures (store.file, outcome) == ReleaseLease(owner, old(store.file), lease)
    {
      var loaded := LoadRegistry(store.file);
      if loaded.Failed? {
        return ReleaseUnreadable(loaded.error);
      }
      var found := FindRecord(loaded.registry.records, lease.id);
      if found.None? {
        return AlreadyGone;
      }
      if !Owns(owner, found.value, lease) {
        return ReleaseNotOwned;
      }
      store.file := Save(Without(loaded.registry.records, lease.id), loaded.registry.counters);
      return Released;
    }
  }
}
