/** What a ranking says in terms of the measured values, and when there is none. */
module RankOutcomes {
  import opened Options
  import opened Order
  import opened Strings
  import opened Ranking

  // ---- What the ranking means --------------------------------------------------------------------

  function Winners(entries: seq<Entry>): set<string> {
    set e | e in entries && e.rank == Some(1) :: e.strategy
  }

  lemma EligibleByName(policy: Policy, runs: Runs, e: Entry)
    requires AllMeasured(policy, runs)
    ensures e in EligibleEntries(policy, runs) <==>
            Eligible(policy, runs, e.strategy) && e == EligibleEntry(policy, runs, e.strategy)
  {
    hide EligibleEntry, SortNames;
    var names, entries := SortNames(policy, runs), EligibleEntries(policy, runs);
    EntryNames(policy, runs);
    if e in entries {
      var i :| 0 <= i < |entries| && entries[i] == e;
      assert names[i] in Elements(names);
    }
    if Eligible(policy, runs, e.strategy) && e == EligibleEntry(policy, runs, e.strategy) {
      assert e.strategy in Elements(names);
      var i :| 0 <= i < |names| && names[i] == e.strategy;
      assert entries[i] == e;
    }
  }

  lemma IneligibleByName(policy: Policy, runs: Runs, e: Entry)
    requires AllMeasured(policy, runs)
    ensures e in IneligibleEntries(policy, runs) <==>
            e.strategy in runs && !Eligible(policy, runs, e.strategy) && e == IneligibleEntry(policy, runs, e.strategy)
  {
    hide IneligibleEntry;
    var names, entries := SortStrings(runs.Keys - EligibleNames(policy, runs)), IneligibleEntries(policy, runs);
    EntryNames(policy, runs);
    if e in entries {
      var i :| 0 <= i < |entries| && entries[i] == e;
      assert names[i] in Elements(names);
    }
    if e.strategy in runs && !Eligible(policy, runs, e.strategy) && e == IneligibleEntry(policy, runs, e.strategy) {
      assert e.strategy in Elements(names);
      var i :| 0 <= i < |names| && names[i] == e.strategy;
      assert entries[i] == e;
    }
  }

  lemma EntryNames(policy: Policy, runs: Runs)
    requires AllMeasured(policy, runs)
    ensures forall n :: n in runs ==> EligibleEntry(policy, runs, n).strategy == n
    ensures forall n :: n in runs ==> IneligibleEntry(policy, runs, n).strategy == n
  {
  }

  lemma EntriesByName(policy: Policy, runs: Runs, e: Entry)
    requires AllMeasured(policy, runs)
    ensures e in Entries(policy, runs) <==>
            && e.strategy in runs
            && e == if Eligible(policy, runs, e.strategy) then EligibleEntry(policy, runs, e.strategy)
                    else IneligibleEntry(policy, runs, e.strategy)
  {
    hide EligibleEntry, IneligibleEntry, EligibleEntries, IneligibleEntries;
    EligibleByName(policy, runs, e);
    IneligibleByName(policy, runs, e);
  }

  // ---- Preference --------------------------------------------------------------------------------

  /** The first run does better on this objective: it measures less where less is wanted, and more where more is. */
  ghost predicate Outdoes(a: Metrics, b: Metrics, o: Objective) {
    && o.metric in a.measured && o.metric in b.measured
    && if o.minimize then a.measured[o.metric] < b.measured[o.metric] else a.measured[o.metric] > b.measured[o.metric]
  }

  /** The first run does better on the first objective on which the two differ. */
  ghost predicate Preferred(a: Metrics, b: Metrics, objectives: seq<Objective>) {
    exists i :: 0 <= i < |objectives| && Outdoes(a, b, objectives[i]) && EqualBefore(a, b, objectives, i)
  }

  ghost predicate EqualBefore(a: Metrics, b: Metrics, objectives: seq<Objective>, i: nat)
    requires i <= |objectives|
  {
    forall j :: 0 <= j < i ==>
      var m := objectives[j].metric;
      m in a.measured && m in b.measured && a.measured[m] == b.measured[m]
  }

  lemma SmallerKeyIsPreferred(a: Metrics, b: Metrics, objectives: seq<Objective>)
    requires Measures(a, objectives) && Measures(b, objectives)
    ensures KeyLt(KeyOf(a, objectives), KeyOf(b, objectives)) <==> Preferred(a, b, objectives)
  {
    var x, y := KeyOf(a, objectives), KeyOf(b, objectives);
    FirstDifferenceDecides(IntLess, x, y);
    forall i | 0 <= i < |objectives| ensures IntLess(x[i], y[i]) <==> Outdoes(a, b, objectives[i]) {
      assert objectives[i] in objectives;
    }
    forall i | 0 <= i <= |objectives| ensures x[..i] == y[..i] <==> EqualBefore(a, b, objectives, i) {
      if x[..i] == y[..i] {
        forall j | 0 <= j < i ensures objectives[j] in objectives && x[j] == y[j] {
          assert x[..i][j] == y[..i][j];
        }
      }
    }
    if i :| 0 <= i < |x| && IntLess(x[i], y[i]) && x[..i] == y[..i] {
      assert Outdoes(a, b, objectives[i]) && EqualBefore(a, b, objectives, i);
    }
    if i :| 0 <= i < |objectives| && Outdoes(a, b, objectives[i]) && EqualBefore(a, b, objectives, i) {
      assert IntLess(x[i], y[i]) && x[..i] == y[..i];
    }
  }

  // ---- What a ranking says -----------------------------------------------------------------------

  /** The run may be ranked. */
  ghost predicate Qualifies(policy: Policy, c: Comparison, run: Metrics) {
    run in c.runs && run.rootStatus in policy.statuses
  }

  /** The strategies whose runs may be ranked and are preferred to this one. */
  ghost function Betters(policy: Policy, c: Comparison, run: Metrics): set<string> {
    set r | r in c.runs && r.rootStatus in policy.statuses && Preferred(r, run, policy.objectives) :: r.strategy
  }

  lemma RankedRuns(policy: Policy, c: Comparison)
    requires RankSpec(policy, c).Ranked?
    ensures var runs := ByName(c.runs);
            && AllMeasured(policy, runs) && RankSpec(policy, c) == Ranked(Entries(policy, runs))
            && (forall r :: r in c.runs ==> r.strategy in runs && runs[r.strategy] == r && Measures(r, policy.objectives))
            && (forall n :: n in runs ==> runs[n] in c.runs && runs[n].strategy == n)
  {
    ByNameContents(c.runs);
  }

  lemma BettersAreBetter(policy: Policy, c: Comparison, run: Metrics)
    requires RankSpec(policy, c).Ranked? && run in c.runs
    ensures Better(policy, ByName(c.runs), run.strategy) == Betters(policy, c, run)
  {
    hide RankSpec, ByName, KeyLt, KeyOf, Preferred, Measures;
    RankedRuns(policy, c);
    var runs := ByName(c.runs);
    forall n ensures n in Better(policy, runs, run.strategy) <==> n in Betters(policy, c, run) {
      if n in runs {
        SmallerKeyIsPreferred(runs[n], run, policy.objectives);
      }
      if n in Betters(policy, c, run) {
        var r :| r in c.runs && r.rootStatus in policy.statuses && Preferred(r, run, policy.objectives)
            && r.strategy == n;
        SmallerKeyIsPreferred(r, run, policy.objectives);
      }
    }
  }

  /** The entry a run gets: its own name, status and measured values, and a rank exactly when it may be ranked, which is
      one more than the number of runs preferred to it. */
  ghost predicate EntryFor(policy: Policy, c: Comparison, run: Metrics, e: Entry) {
    && e.strategy == run.strategy && e.rootStatus == run.rootStatus
    && |e.values| == |policy.objectives|
    && (forall i :: 0 <= i < |e.values| ==>
          policy.objectives[i].metric in run.measured && e.values[i] == run.measured[policy.objectives[i].metric])
    && e.rank == if run.rootStatus in policy.statuses then Some(1 + |Betters(policy, c, run)|) else None
  }

  /** A ranking has one entry for each run, and no others. */
  lemma EntriesAreRuns(policy: Policy, c: Comparison, e: Entry)
    requires RankSpec(policy, c).Ranked?
    ensures e in RankSpec(policy, c).entries <==> exists run :: run in c.runs && EntryFor(policy, c, run, e)
  {
    hide RankSpec, ByName, Better, Betters, Entries, Measures;
    RankedRuns(policy, c);
    var runs := ByName(c.runs);
    EntriesByName(policy, runs, e);
    if e in Entries(policy, runs) {
      BettersAreBetter(policy, c, runs[e.strategy]);
      ValuesMeasured(policy, runs[e.strategy]);
      assert EntryFor(policy, c, runs[e.strategy], e);
    }
    if run :| run in c.runs && EntryFor(policy, c, run, e) {
      BettersAreBetter(policy, c, run);
      assert e.values == Values(run, policy.objectives);
    }
  }

  lemma ValuesMeasured(policy: Policy, run: Metrics)
    requires Measures(run, policy.objectives)
    ensures forall i :: 0 <= i < |policy.objectives| ==>
              policy.objectives[i].metric in run.measured
              && Values(run, policy.objectives)[i] == run.measured[policy.objectives[i].metric]
  {
    forall i | 0 <= i < |policy.objectives| ensures policy.objectives[i].metric in run.measured {
      assert policy.objectives[i] in policy.objectives;
    }
  }

  lemma PreferenceIsStrict(a: Metrics, b: Metrics, d: Metrics, objectives: seq<Objective>)
    requires Measures(a, objectives) && Measures(b, objectives) && Measures(d, objectives)
    ensures !Preferred(a, a, objectives)
    ensures Preferred(d, a, objectives) && Preferred(a, b, objectives) ==> Preferred(d, b, objectives)
    ensures Preferred(d, b, objectives) && !Preferred(a, b, objectives) ==> Preferred(d, a, objectives)
  {
    hide KeyOf, Preferred, KeyLe;
    SmallerKeyIsPreferred(a, a, objectives);
    SmallerKeyIsPreferred(d, a, objectives);
    SmallerKeyIsPreferred(a, b, objectives);
    SmallerKeyIsPreferred(d, b, objectives);
    var x, y, z := KeyOf(a, objectives), KeyOf(b, objectives), KeyOf(d, objectives);
    KeyTotal(x, y);
    KeyTotal(z, x);
    KeyTotal(z, y);
    if KeyLe(z, x) && KeyLe(x, y) {
      KeyTransitive(z, x, y);
    }
    if KeyLe(z, y) && KeyLe(y, x) {
      KeyTransitive(z, y, x);
    }
  }

  lemma SmallerSet<T>(a: set<T>, b: set<T>)
    requires a < b
    ensures |a| < |b|
  {
    assert b == a + (b - a);
    assert b - a != {};
  }

  lemma AtMost<T>(a: set<T>, b: set<T>)
    requires a <= b
    ensures |a| <= |b|
  {
    assert b == a + (b - a);
  }

  /** Of two runs that may be ranked the first has the smaller rank exactly when it is preferred: at the first
      objective on which they differ it measures less if less is wanted, and more if more is. */
  lemma RankMeansPreferred(policy: Policy, c: Comparison, a: Metrics, b: Metrics, x: Entry, y: Entry)
    requires RankSpec(policy, c).Ranked? && Qualifies(policy, c, a) && Qualifies(policy, c, b)
    requires x in RankSpec(policy, c).entries && x.strategy == a.strategy
    requires y in RankSpec(policy, c).entries && y.strategy == b.strategy
    ensures x.rank.Some? && y.rank.Some?
    ensures x.rank.value < y.rank.value <==>
            exists i :: 0 <= i < |policy.objectives| && Outdoes(a, b, policy.objectives[i])
                        && EqualBefore(a, b, policy.objectives, i)
  {
    hide RankSpec, Betters, Preferred, Measures;
    EntryOf(policy, c, a, x);
    EntryOf(policy, c, b, y);
    RankedRuns(policy, c);
    RanksFollow(policy, c, a, b);
    PreferredMeans(a, b, policy.objectives);
  }

  lemma PreferredMeans(a: Metrics, b: Metrics, objectives: seq<Objective>)
    ensures Preferred(a, b, objectives) <==>
            exists i :: 0 <= i < |objectives| && Outdoes(a, b, objectives[i]) && EqualBefore(a, b, objectives, i)
  {
  }

  lemma EntryOf(policy: Policy, c: Comparison, run: Metrics, e: Entry)
    requires RankSpec(policy, c).Ranked? && run in c.runs && e in RankSpec(policy, c).entries
        && e.strategy == run.strategy
    ensures EntryFor(policy, c, run, e)
  {
    hide RankSpec, Betters, EntryFor, Measures;
    EntriesAreRuns(policy, c, e);
    RankedRuns(policy, c);
    var r :| r in c.runs && EntryFor(policy, c, r, e);
    EntryName(policy, c, r, e);
  }

  lemma EntryName(policy: Policy, c: Comparison, run: Metrics, e: Entry)
    requires EntryFor(policy, c, run, e)
    ensures e.strategy == run.strategy
  {
  }

  lemma RanksFollow(policy: Policy, c: Comparison, a: Metrics, b: Metrics)
    requires RankSpec(policy, c).Ranked? && Qualifies(policy, c, a) && Qualifies(policy, c, b)
    ensures |Betters(policy, c, a)| < |Betters(policy, c, b)| <==> Preferred(a, b, policy.objectives)
  {
    hide RankSpec, Preferred, Measures;
    RankedRuns(policy, c);
    forall d | d in c.runs
      ensures !Preferred(a, a, policy.objectives)
      ensures Preferred(d, a, policy.objectives) && Preferred(a, b, policy.objectives) ==>
          Preferred(d, b, policy.objectives)
      ensures Preferred(d, b, policy.objectives) && !Preferred(a, b, policy.objectives) ==>
          Preferred(d, a, policy.objectives)
    {
      PreferenceIsStrict(a, b, d, policy.objectives);
    }
    if Preferred(a, b, policy.objectives) {
      assert a.strategy in Betters(policy, c, b) && a.strategy !in Betters(policy, c, a);
      SmallerSet(Betters(policy, c, a), Betters(policy, c, b));
    } else {
      AtMost(Betters(policy, c, b), Betters(policy, c, a));
    }
  }

  /** No run that may be ranked is preferred to this one. */
  ghost predicate Unbeaten(policy: Policy, c: Comparison, run: Metrics) {
    forall r :: Qualifies(policy, c, r) ==> !Preferred(r, run, policy.objectives)
  }

  lemma UnbeatenIsFirst(policy: Policy, c: Comparison, run: Metrics)
    ensures Unbeaten(policy, c, run) <==> |Betters(policy, c, run)| == 0
  {
    hide Preferred;
    if Unbeaten(policy, c, run) {
      forall r | r in c.runs && r.rootStatus in policy.statuses ensures !Preferred(r, run, policy.objectives) {
        assert Qualifies(policy, c, r);
      }
      assert Betters(policy, c, run) == {};
    } else {
      var r :| Qualifies(policy, c, r) && Preferred(r, run, policy.objectives);
      assert r.strategy in Betters(policy, c, run);
    }
  }

  lemma RankOfEntry(policy: Policy, c: Comparison, run: Metrics, e: Entry)
    requires run in c.runs && EntryFor(policy, c, run, e)
    ensures e.strategy == run.strategy
    ensures e.rank == Some(1) <==> Qualifies(policy, c, run) && Unbeaten(policy, c, run)
  {
    hide Unbeaten, Betters;
    UnbeatenIsFirst(policy, c, run);
  }

  lemma HasEntry(policy: Policy, c: Comparison, run: Metrics) returns (e: Entry)
    requires RankSpec(policy, c).Ranked? && run in c.runs
    ensures e in RankSpec(policy, c).entries && EntryFor(policy, c, run, e)
  {
    hide RankSpec, Betters, Measures;
    RankedRuns(policy, c);
    var rank := if run.rootStatus in policy.statuses then Some(1 + |Betters(policy, c, run)|) else None;
    e := Entry(run.strategy, rank, run.rootStatus, Values(run, policy.objectives));
    ValuesMeasured(policy, run);
    EntriesAreRuns(policy, c, e);
  }

  /** The winners are the runs that may be ranked and to which no other of them is preferred. */
  lemma WinnersAreUnbeaten(policy: Policy, c: Comparison, name: string)
    requires RankSpec(policy, c).Ranked?
    ensures name in Winners(RankSpec(policy, c).entries) <==>
            exists run :: Qualifies(policy, c, run) && run.strategy == name && Unbeaten(policy, c, run)
  {
    hide RankSpec, Unbeaten, EntryFor;
    if e :| e in RankSpec(policy, c).entries && e.rank == Some(1) && e.strategy == name {
      EntriesAreRuns(policy, c, e);
      var run :| run in c.runs && EntryFor(policy, c, run, e);
      RankOfEntry(policy, c, run, e);
    }
    if run :| Qualifies(policy, c, run) && run.strategy == name && Unbeaten(policy, c, run) {
      var e := HasEntry(policy, c, run);
      RankOfEntry(policy, c, run, e);
    }
  }

  // ---- The order of the entries ------------------------------------------------------------------

  /** Ranked entries come first, by rank and by name within one rank, then the others by name; no strategy twice. */
  lemma EntriesAreOrdered(policy: Policy, c: Comparison, i: nat, j: nat)
    requires RankSpec(policy, c).Ranked? && i < j < |RankSpec(policy, c).entries|
    ensures var x, y := RankSpec(policy, c).entries[i], RankSpec(policy, c).entries[j];
            && x.strategy != y.strategy && (y.rank.Some? ==> x.rank.Some?)
            && (y.rank.Some? ==> x.rank.value <= y.rank.value)
            && (x.rank == y.rank ==> LexLe(x.strategy, y.strategy))
  {
    hide RankSpec, ByName, EligibleEntries, IneligibleEntries;
    RankedRuns(policy, c);
    var runs := ByName(c.runs);
    var n := |EligibleEntries(policy, runs)|;
    if j < n {
      RankedInOrder(policy, runs, i, j);
    } else if i >= n {
      UnrankedInOrder(policy, runs, i - n, j - n);
    } else {
      RankedApart(policy, runs, i, j - n);
    }
  }

  lemma RankedInOrder(policy: Policy, runs: Runs, i: nat, j: nat)
    requires AllMeasured(policy, runs) && i < j < |EligibleEntries(policy, runs)|
    ensures var x, y := EligibleEntries(policy, runs)[i], EligibleEntries(policy, runs)[j];
            && x.strategy != y.strategy && x.rank.Some? && y.rank.Some? && x.rank.value <= y.rank.value
            && (x.rank == y.rank ==> LexLe(x.strategy, y.strategy))
  {
    hide Better, Values, SortNames;
    var good := SortNames(policy, runs);
    assert forall k :: 0 <= k < |good| ==> good[k] in Elements(good);
    NamesInOrder(policy, runs, good, i, j);
  }

  lemma UnrankedInOrder(policy: Policy, runs: Runs, i: nat, j: nat)
    requires AllMeasured(policy, runs) && i < j < |IneligibleEntries(policy, runs)|
    ensures var x, y := IneligibleEntries(policy, runs)[i], IneligibleEntries(policy, runs)[j];
            x.strategy != y.strategy && x.rank.None? && y.rank.None? && LexLe(x.strategy, y.strategy)
  {
    hide Values, SortStrings;
    var rest := SortStrings(runs.Keys - EligibleNames(policy, runs));
    assert Lexicographic()(rest[i], rest[j]);
  }

  lemma RankedApart(policy: Policy, runs: Runs, i: nat, j: nat)
    requires AllMeasured(policy, runs) && i < |EligibleEntries(policy, runs)| && j < |IneligibleEntries(policy, runs)|
    ensures var x, y := EligibleEntries(policy, runs)[i], IneligibleEntries(policy, runs)[j];
            x.strategy != y.strategy && x.rank.Some? && y.rank.None?
  {
    hide Better, Values, SortNames, SortStrings;
    var good, rest := SortNames(policy, runs), SortStrings(runs.Keys - EligibleNames(policy, runs));
    assert good[i] in Elements(good) && rest[j] in Elements(rest);
  }

  lemma NamesInOrder(policy: Policy, runs: Runs, good: seq<string>, i: nat, j: nat)
    requires Ascending(ByKey(policy, runs), good) && i < j < |good|
    ensures good[i] != good[j] && |Better(policy, runs, good[i])| <= |Better(policy, runs, good[j])|
    ensures Eligible(policy, runs, good[i]) && |Better(policy, runs, good[i])| == |Better(policy, runs, good[j])| ==>
              LexLe(good[i], good[j])
  {
    hide NameKey, KeyLe;
    assert NameLe(policy, runs, good[i], good[j]);
    var x, y := NameKey(policy, runs, good[i]), NameKey(policy, runs, good[j]);
    if x == y {
      assert Better(policy, runs, good[i]) == Better(policy, runs, good[j]);
    } else {
      forall n | n in Better(policy, runs, good[i]) ensures n in Better(policy, runs, good[j]) {
        KeyTransitive(NameKey(policy, runs, n), x, y);
        KeyTotal(NameKey(policy, runs, n), y);
        KeyTotal(x, y);
        KeyTotal(NameKey(policy, runs, n), x);
      }
      if Eligible(policy, runs, good[i]) {
        assert good[i] in Better(policy, runs, good[j]) && good[i] !in Better(policy, runs, good[i]);
        SmallerSet(Better(policy, runs, good[i]), Better(policy, runs, good[j]));
      } else {
        AtMost(Better(policy, runs, good[i]), Better(policy, runs, good[j]));
      }
    }
  }

  // ---- When there is a ranking -------------------------------------------------------------------

  /** Two eligible runs measured their costs differently, or one did not measure them at all. */
  ghost predicate CostsDiffer(policy: Policy, c: Comparison) {
    exists r, q :: Qualifies(policy, c, r) && Qualifies(policy, c, q) && (r.costBasis.None? || r.costBasis != q.costBasis)
  }

  lemma DistinctMeans(runs: seq<Metrics>)
    ensures DistinctNames(runs) <==> forall i, j :: 0 <= i < j < |runs| ==> runs[i].strategy != runs[j].strategy
  {
    if runs == [] {
    } else {
      var init, last := runs[..|runs| - 1], runs[|runs| - 1];
      DistinctMeans(init);
      NamesSnoc(runs);
      NamesAtMost(init);
      if last.strategy in Names(init) {
        var r :| r in init && r.strategy == last.strategy;
        var i :| 0 <= i < |init| && init[i] == r;
        assert runs[i].strategy == runs[|runs| - 1].strategy;
        assert Names(init) + {last.strategy} == Names(init);
      } else {
        forall i | 0 <= i < |init| ensures init[i].strategy in Names(init) {
        }
      }
    }
  }

  lemma CostMeans(policy: Policy, c: Comparison)
    ensures CostError(policy, c.runs).Some? <==>
            (exists o :: o in policy.objectives && o.metric == "cost_microunits") && CostsDiffer(policy, c)
  {
    var bases := CostBases(policy, c.runs);
    UncomparableCosts(policy, c);
    if r, q :| Qualifies(policy, c, r) && Qualifies(policy, c, q) && (r.costBasis.None? || r.costBasis != q.costBasis) {
      assert r.costBasis in bases && q.costBasis in bases;
      if r.costBasis != q.costBasis {
        AtMost({r.costBasis, q.costBasis}, bases);
      }
    }
  }

  lemma TwoOf<T>(s: set<T>)
    requires |s| > 1
    ensures exists x, y :: x in s && y in s && x != y
  {
    var x :| x in s;
    assert s - {x} != {} by {
      assert s == (s - {x}) + {x};
    }
    var y :| y in s - {x};
  }

  /** A comparison is ranked exactly when it has runs, all of the task compared, with distinct names that are not
      blank, when every run measured every objective, and when costs, if they count, were measured on one basis. */
  lemma RankAcceptsExactly(policy: Policy, c: Comparison)
    ensures RankSpec(policy, c).Ranked? <==>
            && c.runs != []
            && (forall i, j :: 0 <= i < j < |c.runs| ==> c.runs[i].strategy != c.runs[j].strategy)
            && (forall r :: r in c.runs ==> !Blank(r.strategy) && r.task == c.task)
            && (forall r, o :: r in c.runs && o in policy.objectives ==> o.metric in r.measured)
            && ((exists o :: o in policy.objectives && o.metric == "cost_microunits") ==> !CostsDiffer(policy, c))
  {
    hide CostError, CostsDiffer, DistinctNames, Blank, Entries;
    DistinctMeans(c.runs);
    CostMeans(policy, c);
  }

  lemma {:induction false} MissingIsMissing(run: Metrics, objectives: seq<Objective>)
    ensures var m := FirstMissing(run, objectives);
            m.Some? ==> m.value !in run.measured && exists o :: o in objectives && o.metric == m.value
  {
    if objectives == [] {
    } else {
      MissingIsMissing(run, objectives[1..]);
      assert forall o :: o in objectives <==> o == objectives[0] || o in objectives[1..];
    }
  }

  lemma {:induction false} UnmeasuredIsUnmeasured(policy: Policy, runs: seq<Metrics>)
    ensures var e := MeasureError(policy, runs);
            e.Some? ==>
              && e.value.NotMeasured?
              && exists r, o :: r in runs && o in policy.objectives && r.strategy == e.value.strategy
                                && o.metric == e.value.metric && o.metric !in r.measured
  {
    if runs == [] {
    } else {
      UnmeasuredIsUnmeasured(policy, runs[1..]);
      MissingIsMissing(runs[0], policy.objectives);
      assert forall r :: r in runs <==> r == runs[0] || r in runs[1..];
    }
  }

  /** The error of a refused comparison names what is wrong with it. */
  lemma RefusalSaysWhy(policy: Policy, c: Comparison)
    requires RankSpec(policy, c).Rejected?
    ensures match RankSpec(policy, c).error
            case NoRuns => c.runs == []
            case DuplicateNames => exists i, j :: 0 <= i < j < |c.runs| && c.runs[i].strategy == c.runs[j].strategy
            case BlankName => exists r :: r in c.runs && Blank(r.strategy)
            case CaseMismatch => exists r :: r in c.runs && r.task != c.task
            case CostNotMeasured => exists r :: Qualifies(policy, c, r) && r.costBasis == None
            case CostNotComparable =>
              exists r, q :: Qualifies(policy, c, r) && Qualifies(policy, c, q) && r.costBasis != q.costBasis
            case NotMeasured(metric, strategy) =>
              exists r, o :: r in c.runs && o in policy.objectives && r.strategy == strategy && o.metric == metric
                             && metric !in r.measured
  {
    hide DistinctNames, Blank, Entries, MeasureError, CostBases;
    DistinctMeans(c.runs);
    UnmeasuredIsUnmeasured(policy, c.runs);
    UncomparableCosts(policy, c);
  }

  lemma UncomparableCosts(policy: Policy, c: Comparison)
    ensures None in CostBases(policy, c.runs) ==> exists r :: Qualifies(policy, c, r) && r.costBasis == None
    ensures |CostBases(policy, c.runs)| > 1 ==>
              exists r, q :: Qualifies(policy, c, r) && Qualifies(policy, c, q) && r.costBasis != q.costBasis
  {
    var bases := CostBases(policy, c.runs);
    if None in bases {
      var r :| r in c.runs && r.rootStatus in policy.statuses && r.costBasis == None;
      assert Qualifies(policy, c, r);
    }
    if |bases| > 1 {
      TwoOf(bases);
      var x, y :| x in bases && y in bases && x != y;
      var r :| r in c.runs && r.rootStatus in policy.statuses && r.costBasis == x;
      var q :| q in c.runs && q.rootStatus in policy.statuses && q.costBasis == y;
      assert Qualifies(policy, c, r) && Qualifies(policy, c, q);
    }
  }

  /** The order of the runs plays no part: any permutation is ranked alike or likewise refused. */
  lemma OrderPlaysNoPart(policy: Policy, c: Comparison, d: Comparison)
    requires d.task == c.task && multiset(d.runs) == multiset(c.runs)
    ensures RankSpec(policy, c).Ranked? <==> RankSpec(policy, d).Ranked?
    ensures RankSpec(policy, c).Ranked? ==> RankSpec(policy, c) == RankSpec(policy, d)
  {
    hide Entries, Measures, ShapeError, CostError, ByName, DistinctNames;
    SameMembers(c.runs, d.runs);
    SameRefusals(policy, c, d);
    if ShapeError(c).None? {
      ShapelyNames(c);
      SameByName(c.runs, d.runs);
    }
  }

  lemma ShapelyNames(c: Comparison)
    requires ShapeError(c).None?
    ensures DistinctNames(c.runs)
  {
  }

  /** The checks before ranking look at the members only. */
  lemma SameRefusals(policy: Policy, c: Comparison, d: Comparison)
    requires d.task == c.task && multiset(d.runs) == multiset(c.runs)
    ensures ShapeError(c) == ShapeError(d) && CostError(policy, c.runs) == CostError(policy, d.runs)
  {
    SameMembers(c.runs, d.runs);
    assert |c.runs| == |multiset(c.runs)| && |d.runs| == |multiset(d.runs)|;
    assert Names(c.runs) == Names(d.runs);
    assert CostBases(policy, c.runs) == CostBases(policy, d.runs);
  }

  lemma SameByName(a: seq<Metrics>, b: seq<Metrics>)
    requires multiset(a) == multiset(b) && DistinctNames(a)
    ensures ByName(a) == ByName(b)
  {
    hide ByName;
    SameMembers(a, b);
    assert |a| == |multiset(a)| && |b| == |multiset(b)|;
    assert Names(a) == Names(b);
    ByNameContents(a);
    ByNameContents(b);
  }

  lemma SameMembers(a: seq<Metrics>, b: seq<Metrics>)
    requires multiset(a) == multiset(b)
    ensures forall r :: r in a <==> r in b
    ensures a == [] <==> b == []
  {
    assert forall r :: r in a <==> r in multiset(a);
    assert forall r :: r in b <==> r in multiset(b);
    if a != [] {
      assert a[0] in b;
    }
    if b != [] {
      assert b[0] in a;
    }
  }
}
