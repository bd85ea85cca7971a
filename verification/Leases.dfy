/** Resource leases kept in one registry file: loading, saving, and the critical sections in which a
    manager acquires, renews and releases. */
module Leases {
  import opened Options
  import opened Strings
  import opened Claims

  datatype Lease = Lease(id: string, owner: string, claims: seq<Claim>, expiresAt: real, tokens: map<string, int>)

  datatype Record = Record(id: string, owner: string, pid: int, identity: string, claims: seq<Claim>,
                           expiresAt: real, tokens: map<string, int>)

  datatype Registry = Registry(records: seq<Record>, counters: map<string, int>)

  /** The bounds the claim constructor enforces: a name without surrounding blanks. */
  predicate ClaimsOk(claims: seq<Claim>) {
    forall c | c in claims :: Trimmed(c.resource)
  }

  function CounterOf(counters: map<string, int>, n: string): int {
    if n in counters then counters[n] else 0
  }

  // ---- The registry file -------------------------------------------------------------------------

  datatype RegistryFile = Missing | Stored(version: int, counters: map<string, int>, rows: seq<Record>)

  const SCHEMA_VERSION := 3

  datatype LoadError = BadVersion | BadCounters | BadClaim | TokensMismatch | BadToken | TokenAboveCounter | DuplicateId

  datatype Loaded = Ok(registry: Registry) | Failed(error: LoadError)

  datatype LoadedRows = RowsOk(records: seq<Record>) | RowsFailed(error: LoadError)

  predicate CountersOk(counters: map<string, int>) {
    forall n | n in counters :: n != "" && counters[n] > 0
  }

  /** The claim constructor strips the names it reads. */
  function Decode(row: Record): Record {
    row.(claims := seq(|row.claims|, i requires 0 <= i < |row.claims| =>
                         Claim(Strip(row.claims[i].resource), row.claims[i].mode)))
  }

  function RowError(row: Record, counters: map<string, int>): Option<LoadError> {
    if exists c | c in row.claims :: Blank(c.resource) then Some(BadClaim)
    else if row.tokens.Keys != WriteResources(Decode(row).claims) then Some(TokensMismatch)
    else if exists n | n in row.tokens :: row.tokens[n] <= 0 then Some(BadToken)
    else if exists n | n in row.tokens :: CounterOf(counters, n) < row.tokens[n] then Some(TokenAboveCounter)
    else None
  }

  function Ids(records: seq<Record>): set<string> {
    set r | r in records :: r.id
  }

  /** The rows decoded in order, or the first error. */
  function LoadRows(rows: seq<Record>, counters: map<string, int>): LoadedRows {
    if rows == [] then RowsOk([])
    else
      var row := rows[|rows| - 1];
      match LoadRows(rows[..|rows| - 1], counters)
      case RowsFailed(e) => RowsFailed(e)
      case RowsOk(records) =>
        if RowError(row, counters).Some? then RowsFailed(RowError(row, counters).value)
        else if row.id in Ids(records) then RowsFailed(DuplicateId)
        else RowsOk(records + [Decode(row)])
  }

  function Load(file: RegistryFile): Loaded {
    match file
    case Missing => Ok(Registry([], map[]))
    case Stored(version, counters, rows) =>
      if version != SCHEMA_VERSION then Failed(BadVersion)
      else if !CountersOk(counters) then Failed(BadCounters)
      else match LoadRows(rows, counters)
        case RowsFailed(e) => Failed(e)
        case RowsOk(records) => Ok(Registry(records, counters))
  }

  lemma {:induction false} FirstErrorWins(rows: seq<Record>, counters: map<string, int>, i: nat)
    requires i <= |rows| && LoadRows(rows[..i], counters).RowsFailed?
    ensures LoadRows(rows, counters) == LoadRows(rows[..i], counters)
    decreases |rows|
  {
    if i == |rows| {
      assert rows[..i] == rows;
    } else {
      assert rows[..|rows| - 1][..i] == rows[..i];
      FirstErrorWins(rows[..|rows| - 1], counters, i);
    }
  }

  lemma NoRows(rows: seq<Record>, counters: map<string, int>)
    ensures LoadRows(rows[..0], counters) == RowsOk([])
  {
  }

  lemma OneMoreRow(rows: seq<Record>, counters: map<string, int>, i: nat, records: seq<Record>)
    requires i < |rows| && LoadRows(rows[..i], counters) == RowsOk(records)
    ensures LoadRows(rows[..i + 1], counters) ==
            if RowError(rows[i], counters).Some? then RowsFailed(RowError(rows[i], counters).value)
            else if rows[i].id in Ids(records) then RowsFailed(DuplicateId)
            else RowsOk(records + [Decode(rows[i])])
    ensures Ids(records + [Decode(rows[i])]) == Ids(records) + {rows[i].id}
  {
    hide RowError;
    assert rows[..i + 1][..i] == rows[..i];
  }

  method LoadRegistry(file: RegistryFile) returns (r: Loaded)
    ensures r == Load(file)
  {
    hide RowError, Decode, LoadRows;
    if file.Missing? {
      return Ok(Registry([], map[]));
    }
    if file.version != SCHEMA_VERSION {
      return Failed(BadVersion);
    }
    if !CountersOk(file.counters) {
      return Failed(BadCounters);
    }
    var records: seq<Record> := [];
    var seen: set<string> := {};
    NoRows(file.rows, file.counters);
    for i := 0 to |file.rows|
      invariant LoadRows(file.rows[..i], file.counters) == RowsOk(records)
      invariant seen == Ids(records)
    {
      var row := file.rows[i];
      OneMoreRow(file.rows, file.counters, i, records);
      var error := RowError(row, file.counters);
      if error.Some? {
        FirstErrorWins(file.rows, file.counters, i + 1);
        return Failed(error.value);
      }
      if row.id in seen {
        FirstErrorWins(file.rows, file.counters, i + 1);
        return Failed(DuplicateId);
      }
      seen := seen + {row.id};
      records := records + [Decode(row)];
    }
    assert file.rows[..|file.rows|] == file.rows;
    return Ok(Registry(records, file.counters));
  }

  // ---- Writing -----------------------------------------------------------------------------------

  function Insert(r: Record, s: seq<Record>): seq<Record> {
    if s == [] || LexLe(r.id, s[0].id) then [r] + s else [s[0]] + Insert(r, s[1..])
  }

  /** A stable sort by lease id. */
  function SortById(s: seq<Record>): seq<Record> {
    if s == [] then [] else Insert(s[0], SortById(s[1..]))
  }

  function Save(records: seq<Record>, counters: map<string, int>): RegistryFile {
    Stored(SCHEMA_VERSION, counters, SortById(records))
  }

  ghost predicate UniqueIds(s: seq<Record>) {
    forall i, j :: 0 <= i < j < |s| ==> s[i].id != s[j].id
  }

  ghost predicate SortedIds(s: seq<Record>) {
    forall i, j :: 0 <= i < j < |s| ==> LexLe(s[i].id, s[j].id)
  }

  lemma {:induction false} InsertContents(r: Record, s: seq<Record>)
    ensures multiset(Insert(r, s)) == multiset(s) + multiset{r}
    ensures |Insert(r, s)| == |s| + 1
    ensures forall x :: x in Insert(r, s) <==> x in s || x == r
  {
    if s == [] || LexLe(r.id, s[0].id) {
    } else {
      InsertContents(r, s[1..]);
      assert s == [s[0]] + s[1..];
    }
    assert forall x :: x in Insert(r, s) <==> x in multiset(Insert(r, s));
    assert forall x :: x in s <==> x in multiset(s);
  }

  lemma {:induction false} InsertSorted(r: Record, s: seq<Record>)
    requires SortedIds(s)
    ensures SortedIds(Insert(r, s))
  {
    if s == [] {
    } else if LexLe(r.id, s[0].id) {
      SortedCons(r, s);
    } else {
      var t := Insert(r, s[1..]);
      InsertSorted(r, s[1..]);
      InsertContents(r, s[1..]);
      LexTotal(r.id, s[0].id);
      forall k | 0 <= k < |t| ensures LexLe(s[0].id, t[k].id) {
        assert t[k] in t;
      }
    }
  }

  lemma SortedCons(r: Record, s: seq<Record>)
    requires s != [] && LexLe(r.id, s[0].id) && SortedIds(s)
    ensures SortedIds([r] + s)
  {
    forall k | 0 <= k < |s| ensures LexLe(r.id, s[k].id) {
      if k > 0 {
        LexTransitive(r.id, s[0].id, s[k].id);
      }
    }
  }

  lemma NothingSorted()
    ensures SortedIds([])
  {
  }

  lemma {:induction false} SortContents(s: seq<Record>)
    ensures multiset(SortById(s)) == multiset(s) && SortedIds(SortById(s)) && |SortById(s)| == |s|
    ensures forall r :: r in SortById(s) <==> r in s
  {
    hide Insert, SortedIds;
    if s == [] {
      NothingSorted();
    } else {
      SortContents(s[1..]);
      InsertContents(s[0], SortById(s[1..]));
      InsertSorted(s[0], SortById(s[1..]));
      assert s == [s[0]] + s[1..];
    }
  }

  lemma {:induction false} InsertUnique(r: Record, s: seq<Record>)
    requires UniqueIds(s) && r.id !in Ids(s)
    ensures UniqueIds(Insert(r, s))
  {
    if s != [] && !LexLe(r.id, s[0].id) {
      var t := Insert(r, s[1..]);
      assert Ids(s[1..]) <= Ids(s);
      InsertUnique(r, s[1..]);
      InsertContents(r, s[1..]);
      forall k | 0 <= k < |t| ensures t[k].id != s[0].id {
        assert t[k] in multiset(t);
        if t[k] != r {
          assert t[k] in s[1..];
        }
      }
    } else {
      assert forall k :: 0 <= k < |s| ==> s[k].id in Ids(s);
    }
  }

  lemma {:induction false} SortUnique(s: seq<Record>)
    requires UniqueIds(s)
    ensures UniqueIds(SortById(s))
  {
    if s == [] {
    } else {
      SortUnique(s[1..]);
      SortContents(s[1..]);
      assert Ids(SortById(s[1..])) == Ids(s[1..]);
      forall x | x in s[1..] ensures x.id != s[0].id {
        var k :| 0 <= k < |s[1..]| && s[1..][k] == x;
        assert s[k + 1] == x;
      }
      InsertUnique(s[0], SortById(s[1..]));
    }
  }

  /** Sorting what is sorted changes nothing. */
  lemma {:induction false} SortSorted(s: seq<Record>)
    requires SortedIds(s)
    ensures SortById(s) == s
  {
    if s == [] {
    } else {
      SortSorted(s[1..]);
      assert s == [s[0]] + s[1..];
    }
  }

  // ---- What the loader accepts -------------------------------------------------------------------

  /** A record as the manager writes it. */
  ghost predicate RecordOk(r: Record, counters: map<string, int>) {
    && ClaimsOk(r.claims)
    && r.tokens.Keys == WriteResources(r.claims)
    && forall n :: n in r.tokens ==> 0 < r.tokens[n] <= CounterOf(counters, n)
  }

  ghost predicate Acceptable(rows: seq<Record>, counters: map<string, int>) {
    UniqueIds(rows) && forall k :: 0 <= k < |rows| ==> RowError(rows[k], counters).None?
  }

  lemma AcceptableSnoc(init: seq<Record>, row: Record, counters: map<string, int>)
    ensures Acceptable(init + [row], counters) <==>
            Acceptable(init, counters) && RowError(row, counters).None? && forall k :: 0 <= k < |init| ==>
                init[k].id != row.id
  {
    hide RowError;
    var rows := init + [row];
    if Acceptable(rows, counters) {
      forall k | 0 <= k < |init| ensures RowError(init[k], counters).None? && init[k].id != row.id {
        assert rows[k] == init[k] && rows[|init|] == row;
      }
      forall i, j | 0 <= i < j < |init| ensures init[i].id != init[j].id {
        assert rows[i] == init[i] && rows[j] == init[j];
      }
      assert rows[|init|] == row;
    }
  }

  /** The loader accepts exactly the rows that are each acceptable and carry distinct ids. */
  lemma {:induction false} LoadRowsExactly(rows: seq<Record>, counters: map<string, int>)
    ensures LoadRows(rows, counters).RowsOk? <==> Acceptable(rows, counters)
    ensures LoadRows(rows, counters).RowsOk? ==>
              LoadRows(rows, counters).records == seq(|rows|, i requires 0 <= i < |rows| => Decode(rows[i]))
  {
    hide RowError, Decode;
    if rows == [] {
    } else {
      var init, row := rows[..|rows| - 1], rows[|rows| - 1];
      assert rows == init + [row];
      LoadRowsExactly(init, counters);
      AcceptableSnoc(init, row, counters);
      if LoadRows(init, counters).RowsOk? {
        DecodedIds(init, LoadRows(init, counters).records);
      }
    }
  }

  lemma DecodedIds(rows: seq<Record>, records: seq<Record>)
    requires records == seq(|rows|, i requires 0 <= i < |rows| => Decode(rows[i]))
    ensures forall id :: id in Ids(records) <==> exists k :: 0 <= k < |rows| && rows[k].id == id
  {
    forall id | id in Ids(records) ensures exists k :: 0 <= k < |rows| && rows[k].id == id {
      var r :| r in records && r.id == id;
      var k :| 0 <= k < |records| && records[k] == r;
      assert rows[k].id == id;
    }
    forall k | 0 <= k < |rows| ensures rows[k].id in Ids(records) {
      assert records[k] in records;
    }
  }

  lemma RecordLoads(r: Record, counters: map<string, int>)
    requires RecordOk(r, counters)
    ensures Decode(r) == r && RowError(r, counters).None?
  {
    forall c | c in r.claims ensures Strip(c.resource) == c.resource && !Blank(c.resource) {
      StripTrims(c.resource);
    }
    assert Decode(r).claims == r.claims;
  }

  /** What one row must look like: no claim without a name, a token for exactly the resources it claims to write, and
      every token positive and not above the counter of its resource. Names count as they are after stripping. */
  ghost predicate RowOk(row: Record, counters: map<string, int>) {
    && (forall c :: c in row.claims ==> !Blank(c.resource))
    && (forall n :: n in row.tokens <==> exists c :: c in row.claims && c.mode == Write && Strip(c.resource) == n)
    && forall n :: n in row.tokens ==> 0 < row.tokens[n] && n in counters && row.tokens[n] <= counters[n]
  }

  lemma RowOkMeans(row: Record, counters: map<string, int>)
    ensures RowError(row, counters).None? <==> RowOk(row, counters)
  {
    hide Strip, Blank, Decode, WriteResources;
    forall n ensures n in WriteResources(Decode(row).claims) <==>
                     exists c :: c in row.claims && c.mode == Write && Strip(c.resource) == n
    {
      DecodedWrites(row, n);
    }
  }

  lemma DecodedWrites(row: Record, n: string)
    ensures n in WriteResources(Decode(row).claims) <==>
            exists c :: c in row.claims && c.mode == Write && Strip(c.resource) == n
  {
    hide Strip;
    var decoded := Decode(row).claims;
    if n in WriteResources(decoded) {
      var d :| d in decoded && d.mode == Write && d.resource == n;
      var i :| 0 <= i < |decoded| && decoded[i] == d;
      assert row.claims[i] in row.claims;
    }
    if c :| c in row.claims && c.mode == Write && Strip(c.resource) == n {
      var i :| 0 <= i < |row.claims| && row.claims[i] == c;
      assert decoded[i] in decoded;
    }
  }

  /** A registry file is loaded exactly when it is missing, or has the current version, named and positive counters,
      distinct row ids and rows that are each in order. The rows are then read back in order, with the names of their
      claims stripped and otherwise as they stand. */
  lemma LoadAcceptsExactly(file: RegistryFile)
    ensures Load(file).Ok? <==>
            file.Missing?
            || (&& file.version == 3 && (forall n :: n in file.counters ==> n != "" && file.counters[n] > 0)
                && (forall i, j :: 0 <= i < j < |file.rows| ==> file.rows[i].id != file.rows[j].id)
                && forall i :: 0 <= i < |file.rows| ==> RowOk(file.rows[i], file.counters))
    ensures Load(file).Ok? && file.Missing? ==> Load(file).registry == Registry([], map[])
    ensures Load(file).Ok? && file.Stored? ==>
              var r := Load(file).registry;
              && r.counters == file.counters && |r.records| == |file.rows|
              && forall i :: 0 <= i < |r.records| ==>
                   && r.records[i] == file.rows[i].(claims := r.records[i].claims)
                   && |r.records[i].claims| == |file.rows[i].claims|
                   && forall k :: 0 <= k < |file.rows[i].claims| ==>
                        r.records[i].claims[k] == Claim(Strip(file.rows[i].claims[k].resource),
                            file.rows[i].claims[k].mode)
  {
    hide RowOk, RowError, Strip;
    if file.Stored? {
      LoadRowsExactly(file.rows, file.counters);
      forall i | 0 <= i < |file.rows| ensures RowError(file.rows[i], file.counters).None? <==>
          RowOk(file.rows[i], file.counters) {
        RowOkMeans(file.rows[i], file.counters);
      }
    }
  }

  /** Writer and loader agree: a registry of well-formed records with distinct ids is accepted and read
      back unchanged, sorted by id. */
  lemma SavedLoads(records: seq<Record>, counters: map<string, int>)
    requires UniqueIds(records) && CountersOk(counters) && forall r :: r in records ==> RecordOk(r, counters)
    ensures Load(Save(records, counters)) == Ok(Registry(SortById(records), counters))
    ensures multiset(SortById(records)) == multiset(records)
  {
    hide RowError, Decode, RecordOk, SortById, SortedIds;
    var rows := SortById(records);
    SortContents(records);
    SortUnique(records);
    forall k | 0 <= k < |rows| ensures RowError(rows[k], counters).None? && Decode(rows[k]) == rows[k] {
      assert rows[k] in rows;
      RecordLoads(rows[k], counters);
    }
    LoadRowsExactly(rows, counters);
  }
}
