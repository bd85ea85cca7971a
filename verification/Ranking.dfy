/** Ranking measured strategies by ordered objectives. */
module Ranking {
  import opened Options
  import opened Order
  import opened Strings

  datatype Objective = Objective(metric: string, minimize: bool)

  datatype Policy = Policy(statuses: set<string>, objectives: seq<Objective>)

  /** One measured run. A metric that is not a key was not measured. */
  datatype Metrics = Metrics(strategy: string, task: string, rootStatus: string, measured: map<string, int>,
                             costBasis: Option<string>)

  datatype Comparison = Comparison(task: string, runs: seq<Metrics>)

  datatype Entry = Entry(strategy: string, rank: Option<nat>, rootStatus: string, values: seq<int>)

  datatype RankError =
    | NoRuns
    | DuplicateNames
    | BlankName
    | CaseMismatch
    | CostNotMeasured
    | CostNotComparable
    | NotMeasured(metric: string, strategy: string)

  datatype Outcome = Ranked(entries: seq<Entry>) | Rejected(error: RankError)

  // ---- Keys --------------------------------------------------------------------------------------

  predicate IntLess(a: int, b: int) {
    a < b
  }

  /** Tuples compared element by element. */
  predicate KeyLe(a: seq<int>, b: seq<int>) {
    LexBy(IntLess, a, b)
  }

  predicate KeyLt(a: seq<int>, b: seq<int>) {
    KeyLe(a, b) && a != b
  }

  lemma KeyTotal(a: seq<int>, b: seq<int>)
    ensures KeyLe(a, b) || KeyLe(b, a)
    ensures KeyLe(a, b) && KeyLe(b, a) ==> a == b
  {
    LexByTotal(IntLess, a, b);
  }

  lemma KeyTransitive(a: seq<int>, b: seq<int>, c: seq<int>)
    requires KeyLe(a, b) && KeyLe(b, c)
    ensures KeyLe(a, c)
  {
    LexByTransitive(IntLess, a, b, c);
  }

  predicate Measures(run: Metrics, objectives: seq<Objective>) {
    forall o | o in objectives :: o.metric in run.measured
  }

  function Values(run: Metrics, objectives: seq<Objective>): seq<int>
    requires Measures(run, objectives)
  {
    seq(|objectives|, i requires 0 <= i < |objectives| => run.measured[objectives[i].metric])
  }

  /** Smaller is better: values to be maximised are negated. */
  function SortKey(values: seq<int>, objectives: seq<Objective>): seq<int>
    requires |values| == |objectives|
  {
    seq(|values|, i requires 0 <= i < |values| => if objectives[i].minimize then values[i] else -values[i])
  }

  function KeyOf(run: Metrics, objectives: seq<Objective>): seq<int> {
    if Measures(run, objectives) then SortKey(Values(run, objectives), objectives) else []
  }

  // ---- What ranking must produce -----------------------------------------------------------------

  type Runs = map<string, Metrics>

  function ByName(runs: seq<Metrics>): Runs {
    if runs == [] then map[]
    else ByName(runs[..|runs| - 1])[runs[|runs| - 1].strategy := runs[|runs| - 1]]
  }

  predicate Eligible(policy: Policy, runs: Runs, name: string) {
    name in runs && runs[name].rootStatus in policy.statuses
  }

  function EligibleNames(policy: Policy, runs: Runs): set<string> {
    set n | n in runs && Eligible(policy, runs, n)
  }

  function NameKey(policy: Policy, runs: Runs, name: string): seq<int> {
    if name in runs then KeyOf(runs[name], policy.objectives) else []
  }

  /** The eligible runs with a strictly smaller key. */
  function Better(policy: Policy, runs: Runs, name: string): set<string> {
    set n | n in runs && Eligible(policy, runs, n) && KeyLt(NameKey(policy, runs, n), NameKey(policy, runs, name))
  }

  /** By key, and by name among equal keys. */
  predicate NameLe(policy: Policy, runs: Runs, a: string, b: string) {
    var x, y := NameKey(policy, runs, a), NameKey(policy, runs, b);
    KeyLt(x, y) || (x == y && LexLe(a, b))
  }

  function ByKey(policy: Policy, runs: Runs): (string, string) -> bool {
    (a, b) => NameLe(policy, runs, a, b)
  }

  lemma ByKeyIsTotal(policy: Policy, runs: Runs)
    ensures TotalOrder(ByKey(policy, runs))
  {
    forall a: string, b: string
      ensures NameLe(policy, runs, a, b) || NameLe(policy, runs, b, a)
      ensures NameLe(policy, runs, a, b) && NameLe(policy, runs, b, a) ==> a == b
    {
      KeyTotal(NameKey(policy, runs, a), NameKey(policy, runs, b));
      LexTotal(a, b);
    }
    forall a: string, b: string, c: string | NameLe(policy, runs, a, b) && NameLe(policy, runs, b, c)
      ensures NameLe(policy, runs, a, c)
    {
      var x, y, z := NameKey(policy, runs, a), NameKey(policy, runs, b), NameKey(policy, runs, c);
      KeyTotal(x, y);
      KeyTotal(y, z);
      KeyTransitive(x, y, z);
      if x == y && y == z {
        LexTransitive(a, b, c);
      }
    }
  }

  function SortNames(policy: Policy, runs: Runs): (r: seq<string>)
    ensures Ascending(ByKey(policy, runs), r) && Elements(r) == EligibleNames(policy, runs)
  {
    ByKeyIsTotal(policy, runs);
    SortBy(ByKey(policy, runs), EligibleNames(policy, runs))
  }

  predicate AllMeasured(policy: Policy, runs: Runs) {
    forall n | n in runs :: Measures(runs[n], policy.objectives)
  }

  function EligibleEntry(policy: Policy, runs: Runs, name: string): Entry
    requires AllMeasured(policy, runs) && name in runs
  {
    Entry(name, Some(1 + |Better(policy, runs, name)|), runs[name].rootStatus, Values(runs[name], policy.objectives))
  }

  function IneligibleEntry(policy: Policy, runs: Runs, name: string): Entry
    requires AllMeasured(policy, runs) && name in runs
  {
    Entry(name, None, runs[name].rootStatus, Values(runs[name], policy.objectives))
  }

  function EligibleEntries(policy: Policy, runs: Runs): seq<Entry>
    requires AllMeasured(policy, runs)
  {
    var good := SortNames(policy, runs);
    assert forall i :: 0 <= i < |good| ==> good[i] in Elements(good);
    seq(|good|, i requires 0 <= i < |good| => EligibleEntry(policy, runs, good[i]))
  }

  function IneligibleEntries(policy: Policy, runs: Runs): seq<Entry>
    requires AllMeasured(policy, runs)
  {
    var rest := SortStrings(runs.Keys - EligibleNames(policy, runs));
    assert forall i :: 0 <= i < |rest| ==> rest[i] in Elements(rest);
    seq(|rest|, i requires 0 <= i < |rest| => IneligibleEntry(policy, runs, rest[i]))
  }

  /** First the eligible runs, best first, then the others by name. */
  function Entries(policy: Policy, runs: Runs): seq<Entry>
    requires AllMeasured(policy, runs)
  {
    EligibleEntries(policy, runs) + IneligibleEntries(policy, runs)
  }

  // ---- Refusals ----------------------------------------------------------------------------------

  function Names(runs: seq<Metrics>): set<string> {
    set r | r in runs :: r.strategy
  }

  predicate DistinctNames(runs: seq<Metrics>) {
    |Names(runs)| == |runs|
  }

  lemma {:induction false} NamesAtMost(runs: seq<Metrics>)
    ensures |Names(runs)| <= |runs|
  {
    if runs == [] {
    } else {
      NamesAtMost(runs[..|runs| - 1]);
      NamesSnoc(runs);
    }
  }

  lemma NamesSnoc(runs: seq<Metrics>)
    requires runs != []
    ensures Names(runs) == Names(runs[..|runs| - 1]) + {runs[|runs| - 1].strategy}
  {
    assert runs == runs[..|runs| - 1] + [runs[|runs| - 1]];
  }

  lemma DistinctSnoc(runs: seq<Metrics>)
    requires runs != [] && DistinctNames(runs)
    ensures DistinctNames(runs[..|runs| - 1]) && runs[|runs| - 1].strategy !in Names(runs[..|runs| - 1])
  {
    NamesSnoc(runs);
    NamesAtMost(runs[..|runs| - 1]);
    var names, last := Names(runs[..|runs| - 1]), runs[|runs| - 1].strategy;
    assert last in names ==> names + {last} == names;
  }

  function CostBases(policy: Policy, runs: seq<Metrics>): set<Option<string>> {
    set r | r in runs && r.rootStatus in policy.statuses :: r.costBasis
  }

  function CostError(policy: Policy, runs: seq<Metrics>): Option<RankError> {
    if forall o | o in policy.objectives :: o.metric != "cost_microunits" then None
    else if None in CostBases(policy, runs) then Some(CostNotMeasured)
    else if |CostBases(policy, runs)| > 1 then Some(CostNotComparable)
    else None
  }

  function FirstMissing(run: Metrics, objectives: seq<Objective>): (m: Option<string>)
    ensures m.None? <==> Measures(run, objectives)
  {
    if objectives == [] then None
    else if objectives[0].metric !in run.measured then Some(objectives[0].metric)
    else
      assert forall o :: o in objectives <==> o == objectives[0] || o in objectives[1..];
      FirstMissing(run, objectives[1..])
  }

  function MeasureError(policy: Policy, runs: seq<Metrics>): (e: Option<RankError>)
    ensures e.None? <==> forall r :: r in runs ==> Measures(r, policy.objectives)
  {
    if runs == [] then None
    else
      var m := FirstMissing(runs[0], policy.objectives);
      assert forall r :: r in runs <==> r == runs[0] || r in runs[1..];
      if m.Some? then Some(NotMeasured(m.value, runs[0].strategy)) else MeasureError(policy, runs[1..])
  }

  function ShapeError(c: Comparison): Option<RankError> {
    if c.runs == [] then Some(NoRuns)
    else if !DistinctNames(c.runs) then Some(DuplicateNames)
    else if exists r | r in c.runs :: Blank(r.strategy) then Some(BlankName)
    else if exists r | r in c.runs :: r.task != c.task then Some(CaseMismatch)
    else None
  }

  function RankSpec(policy: Policy, c: Comparison): Outcome {
    if ShapeError(c).Some? then Rejected(ShapeError(c).value)
    else if CostError(policy, c.runs).Some? then Rejected(CostError(policy, c.runs).value)
    else if MeasureError(policy, c.runs).Some? then Rejected(MeasureError(policy, c.runs).value)
    else
      ByNameContents(c.runs);
      Ranked(Entries(policy, ByName(c.runs)))
  }

  lemma {:induction false} ByNameContents(runs: seq<Metrics>)
    ensures forall n :: n in ByName(runs) ==> ByName(runs)[n] in runs && ByName(runs)[n].strategy == n
    ensures forall r :: r in runs ==> r.strategy in ByName(runs)
    ensures DistinctNames(runs) ==> forall r :: r in runs ==> ByName(runs)[r.strategy] == r
  {
    if runs == [] {
    } else {
      var init, last := runs[..|runs| - 1], runs[|runs| - 1];
      ByNameContents(init);
      assert runs == init + [last];
      if DistinctNames(runs) {
        DistinctSnoc(runs);
        assert forall r :: r in init ==> r.strategy in Names(init);
      }
    }
  }

  // ---- The loop ----------------------------------------------------------------------------------

  /** Equal keys have the same better runs; a new key has all earlier names, and no others. */
  lemma BetterAt(policy: Policy, runs: Runs, i: nat)
    requires i < |SortNames(policy, runs)|
    ensures var names := SortNames(policy, runs);
            if i > 0 && NameKey(policy, runs, names[i]) == NameKey(policy, runs, names[i - 1]) then
              Better(policy, runs, names[i]) == Better(policy, runs, names[i - 1])
            else
              |Better(policy, runs, names[i])| == i
  {
    hide NameKey, KeyLe, SortNames;
    var names, le := SortNames(policy, runs), ByKey(policy, runs);
    var key := NameKey(policy, runs, names[i]);
    if i == 0 || key != NameKey(policy, runs, names[i - 1]) {
      forall n ensures n in Better(policy, runs, names[i]) <==> n in Elements(names[..i]) {
        BetterIsEarlier(policy, runs, i, n);
      }
      assert Better(policy, runs, names[i]) == Elements(names[..i]);
      assert Ascending(le, names[..i]);
      AscendingLength(le, names[..i]);
    }
  }

  lemma BetterIsEarlier(policy: Policy, runs: Runs, i: nat, n: string)
    requires i < |SortNames(policy, runs)|
    requires var names := SortNames(policy, runs);
             i == 0 || NameKey(policy, runs, names[i]) != NameKey(policy, runs, names[i - 1])
    ensures n in Better(policy, runs, SortNames(policy, runs)[i]) <==> n in Elements(SortNames(policy, runs)[..i])
  {
    hide NameKey, SortNames, KeyLe;
    var names := SortNames(policy, runs);
    var key := NameKey(policy, runs, names[i]);
    if n in Elements(names[..i]) {
      var k :| 0 <= k < i && names[k] == n;
      assert n in Elements(names);
      assert NameLe(policy, runs, names[k], names[i]);
      assert k < i - 1 ==> NameLe(policy, runs, names[k], names[i - 1]);
      assert NameLe(policy, runs, names[i - 1], names[i]);
      KeyTotal(NameKey(policy, runs, n), key);
      KeyTotal(NameKey(policy, runs, names[i - 1]), key);
    }
    if n in Better(policy, runs, names[i]) {
      assert n in Elements(names);
      var k :| 0 <= k < |names| && names[k] == n;
      KeyTotal(NameKey(policy, runs, n), key);
      assert k > i ==> NameLe(policy, runs, names[i], names[k]);
    }
  }

  method Rank(policy: Policy, c: Comparison) returns (outcome: Outcome)
    ensures outcome == RankSpec(policy, c)
  {
    hide ShapeError, CostError, EligibleEntries, IneligibleEntries;
    var error := ShapeError(c);
    if error.None? {
      error := CostError(policy, c.runs);
    }
    if error.None? {
      error := MeasureError(policy, c.runs);
    }
    if error.Some? {
      return Rejected(error.value);
    }
    ByNameContents(c.runs);
    var runs := ByName(c.runs);
    var ranked := RankEligible(policy, runs);
    return Ranked(ranked + IneligibleEntries(policy, runs));
  }

  /** Walks the sorted runs; the rank moves to the position whenever the key changes. */
  method RankEligible(policy: Policy, runs: Runs) returns (ranked: seq<Entry>)
    requires AllMeasured(policy, runs)
    ensures ranked == EligibleEntries(policy, runs)
  {
    hide SortNames, Better, NameKey;
    var names := SortNames(policy, runs);
    assert forall i :: 0 <= i < |names| ==> names[i] in Elements(names);
    ranked := [];
    var previous: Option<seq<int>> := None;
    var current := 0;
    for i := 0 to |names|
      invariant |ranked| == i
      invariant forall k :: 0 <= k < i ==> ranked[k] == EligibleEntry(policy, runs, names[k])
      invariant previous == if i == 0 then None else Some(NameKey(policy, runs, names[i - 1]))
      invariant i > 0 ==> current == 1 + |Better(policy, runs, names[i - 1])|
    {
      var key := NameKey(policy, runs, names[i]);
      BetterAt(policy, runs, i);
      if previous != Some(key) {
        current := i + 1;
        previous := Some(key);
      }
      var run := runs[names[i]];
      ranked := ranked + [Entry(names[i], Some(current), run.rootStatus, Values(run, policy.objectives))];
    }
  }
}
