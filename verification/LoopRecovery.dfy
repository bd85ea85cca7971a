/** What every run of the loop engine keeps, and what a crash and a resume change. */
module LoopRecovery {
  import opened Order
  import opened LoopEngine

  // ---- The invariant of every checkpoint ---------------------------------------------------------

  predicate EqualFrom(signatures: seq<Signature>, i: nat, limit: nat) {
    i + limit <= |signatures| && AllEqual(signatures[i..i + limit])
  }

  /** No `limit` equal signatures in a row, anywhere. */
  ghost predicate NeverStagnant(signatures: seq<Signature>, limit: nat) {
    forall i: nat :: !EqualFrom(signatures, i, limit)
  }

  ghost predicate CountsOk(s: State) {
    && s.actionCount == |s.results| <= Max(1, s.budget.maxActions)
    && s.iteration <= Max(1, s.budget.maxIterations)
    && IsTail(s.iterationResults, s.results, s.next)
  }

  /** `part` is the last `n` of `whole`. */
  ghost predicate IsTail(part: seq<ActionResult>, whole: seq<ActionResult>, n: int) {
    0 <= n == |part| <= |whole| && part == whole[|whole| - n..]
  }

  lemma EmptyTail(whole: seq<ActionResult>)
    ensures IsTail([], whole, 0)
  {
  }

  lemma TailGrows(part: seq<ActionResult>, whole: seq<ActionResult>, n: int, r: ActionResult)
    requires IsTail(part, whole, n)
    ensures IsTail(part + [r], whole + [r], n + 1)
  {
  }

  ghost predicate PhaseOk(s: State) {
    match s.phase
    case Planning => !Spent(s) && s.next == 0
    case Executing => s.plan.Some? && s.next <= |s.plan.value.actions|
    case Verifying => s.plan.Some? && s.next == |s.plan.value.actions|
    case Judging => s.plan.Some? && s.next == |s.plan.value.actions| && s.verification.Some?
    case _ => true
  }

  ghost predicate Good(s: State) {
    && CountsOk(s) && PhaseOk(s)
    && (s.status.Running? ==> s.startedAt.Some?)
    && (!Over(s) ==> !s.phase.Terminal? && NeverStagnant(s.signatures, RepeatLimit(s.budget)))
  }

  lemma NoSignatures(limit: nat)
    requires limit > 0
    ensures NeverStagnant([], limit)
  {
  }

  lemma CreatedIsGood(goal: string, budget: Budget)
    ensures Good(CreateState(goal, budget)) && !Over(CreateState(goal, budget))
  {
    hide NeverStagnant;
    NoSignatures(RepeatLimit(budget));
    EmptyTail([]);
  }

  /** A signature that does not complete a run of equal ones keeps the sequence free of them. */
  lemma AppendSignature(s: State, signature: Signature)
    requires NeverStagnant(s.signatures, RepeatLimit(s.budget)) && !Stagnates(s, signature)
    ensures NeverStagnant(s.signatures + [signature], RepeatLimit(s.budget))
  {
    var limit, all := RepeatLimit(s.budget), s.signatures + [signature];
    forall i: nat ensures !EqualFrom(all, i, limit) {
      if i + limit <= |s.signatures| {
        assert all[i..i + limit] == s.signatures[i..i + limit];
        assert !EqualFrom(s.signatures, i, limit);
      } else if i + limit == |all| {
        assert all[i..i + limit] == all[|all| - limit..];
      }
    }
  }

  lemma VerifyKeepsGood(env: Environment, u: Run)
    requires Good(u.state) && u.state.status.Running? && u.state.phase.Verifying?
    ensures Good(VerifyStep(env, u).state)
  {
    hide Stagnates, NeverStagnant, IsTail;
    match env.verify(u.state, u.state.iterationResults)
    case Raised(_) =>
    case Gave(v) =>
      if !Stagnates(u.state, SignatureOf(v)) {
        AppendSignature(u.state, SignatureOf(v));
      }
  }

  lemma ActKeepsGood(env: Environment, u: Run)
    requires Good(u.state) && u.state.status.Running? && u.state.phase.Executing?
    requires 0 <= u.state.next < |u.state.plan.value.actions|
    ensures Good(ActStep(env, u).state)
  {
    hide NeverStagnant, IsTail;
    var s := u.state;
    TailGrows(s.iterationResults, s.results, s.next, env.execute(s.plan.value.actions[s.next], s));
  }

  lemma ReadyKeepsGood(env: Environment, u: Run)
    requires Good(u.state) && u.state.status.Running? && u.state.phase.Ready?
    ensures Good(Step(env, u).state)
  {
    hide NeverStagnant, IsTail, PlanStep, ExecuteStep, VerifyStep, JudgeStep;
    EmptyTail(u.state.results);
  }

  lemma PlanKeepsGood(env: Environment, u: Run)
    requires Good(u.state) && u.state.status.Running? && u.state.phase.Planning?
    ensures Good(PlanStep(env, u).state)
  {
    hide NeverStagnant, IsTail;
    EmptyTail(u.state.results);
  }

  lemma ExecuteKeepsGood(env: Environment, u: Run)
    requires Good(u.state) && u.state.status.Running? && u.state.phase.Executing?
    ensures Good(ExecuteStep(env, u).state)
  {
    hide NeverStagnant, ActStep;
    assert IsTail(u.state.iterationResults, u.state.results, u.state.next);
    if u.state.next < |u.state.plan.value.actions| {
      ActKeepsGood(env, u);
    }
  }

  lemma JudgeKeepsGood(env: Environment, u: Run)
    requires Good(u.state) && u.state.status.Running? && u.state.phase.Judging?
    ensures Good(JudgeStep(env, u).state)
  {
    hide NeverStagnant, IsTail;
  }

  lemma StepKeepsGood(env: Environment, u: Run)
    requires Good(u.state) && u.state.status.Running?
    ensures Good(Step(env, u).state)
    ensures Step(env, u).state.budget == u.state.budget && Step(env, u).state.startedAt == u.state.startedAt
  {
    hide NeverStagnant, PlanStep, ExecuteStep, VerifyStep, JudgeStep;
    StepKeepsStart(env, u);
    match u.state.phase
    case Planning => PlanKeepsGood(env, u);
    case Executing => ExecuteKeepsGood(env, u);
    case Verifying => VerifyKeepsGood(env, u);
    case Judging => JudgeKeepsGood(env, u);
    case _ => ReadyKeepsGood(env, u);
  }

  /** A step writes its resulting state, and nothing else, to the store. */
  lemma StepSaves(env: Environment, u: Run)
    requires u.state.status.Running? && Coherent(u.state)
    ensures var v := Step(env, u);
            && |v.saves| > |u.saves| && v.saves[..|u.saves|] == u.saves
            && forall i :: |u.saves| <= i < |v.saves| ==> v.saves[i] == v.state
  {
  }

  lemma {:induction false} FinishKeepsGood(env: Environment, u: Run)
    requires Good(u.state) && forall s :: s in u.saves ==> Good(s)
    ensures Good(Finish(env, u).state) && !Finish(env, u).state.status.Running?
    ensures forall s :: s in Finish(env, u).saves ==> Good(s)
    decreases IterationsLeft(u.state), Rank(u.state.phase), ActionsLeft(u.state)
  {
    hide Step, CountsOk, PhaseOk, NeverStagnant;
    if !u.state.status.Running? {
    } else {
      StepKeepsGood(env, u);
      StepDescends(env, u);
      StepSaves(env, u);
      var v := Step(env, u);
      forall s | s in v.saves ensures Good(s) {
        var i :| 0 <= i < |v.saves| && v.saves[i] == s;
        if i < |u.saves| {
          assert s == v.saves[..|u.saves|][i];
        }
      }
      if v.state.status.Running? {
        FinishKeepsGood(env, v);
      }
    }
  }

  /** Started or resumed from any sound state, with any collaborators and any clock, a run ends, and its
      result and every checkpoint are sound: actions, iterations and repetitions stay within budget, and
      the results of the iteration are the last ones recorded. */
  lemma ResumeKeepsGood(env: Environment, u: Run)
    requires Good(u.state) && forall s :: s in u.saves ==> Good(s)
    ensures Over(u.state) || !u.state.phase.Terminal?
    ensures Good(Resume(env, u).state) && !Resume(env, u).state.status.Running?
    ensures forall s :: s in Resume(env, u).saves ==> Good(s)
  {
    hide NeverStagnant, Finish;
    if !Over(u.state) {
      var b := Begin(env, u);
      FinishKeepsGood(env, b);
      FinishKeepsGood(env, Read(b));
    }
  }

  // ---- Crashing after a checkpoint ---------------------------------------------------------------

  /** The run after at most `k` transitions. */
  function After(env: Environment, u: Run, k: nat): Run
    requires Coherent(u.state)
    decreases k
  {
    if k == 0 || !u.state.status.Running? then u
    else
      StepDescends(env, u);
      After(env, Step(env, u), k - 1)
  }

  lemma {:induction false} AfterIsOnTheWay(env: Environment, u: Run, k: nat)
    requires Good(u.state)
    ensures Good(After(env, u, k).state) && Finish(env, After(env, u, k)) == Finish(env, u)
    ensures After(env, u, k).state.budget == u.state.budget && After(env, u, k).state.startedAt == u.state.startedAt
    decreases k
  {
    hide Step, Finish, Good;
    GoodIsCoherent(u.state);
    if k == 0 || !u.state.status.Running? {
    } else {
      FinishUnfolds(env, u);
      StepKeepsGood(env, u);
      AfterIsOnTheWay(env, Step(env, u), k - 1);
    }
  }

  lemma GoodIsCoherent(s: State)
    requires Good(s)
    ensures Coherent(s) && (Over(s) || !s.phase.Terminal?)
  {
  }

  /** Every checkpoint a run writes is the state after some number of transitions. */
  lemma {:induction false} CheckpointsAreOnTheWay(env: Environment, u: Run, c: State) returns (k: nat)
    requires Coherent(u.state) && c in Finish(env, u).saves && (c in u.saves ==> c == u.state)
    ensures After(env, u, k).state == c
    decreases IterationsLeft(u.state), Rank(u.state.phase), ActionsLeft(u.state)
  {
    hide Step;
    if c in u.saves || !u.state.status.Running? {
      k := 0;
    } else {
      StepDescends(env, u);
      FinishUnfolds(env, u);
      var v := Step(env, u);
      NewSavesAreTheState(env, u, c);
      if c == v.state {
        k := 1;
        assert After(env, v, 0).state == c;
      } else {
        k := CheckpointsAreOnTheWay(env, v, c);
        k := k + 1;
      }
    }
  }

  lemma NewSavesAreTheState(env: Environment, u: Run, c: State)
    requires u.state.status.Running? && Coherent(u.state) && c !in u.saves
    ensures c in Step(env, u).saves ==> c == Step(env, u).state
  {
    hide Step;
    StepSaves(env, u);
    var v := Step(env, u);
    forall i | 0 <= i < |u.saves| ensures v.saves[i] != c {
      assert v.saves[i] == v.saves[..|u.saves|][i];
    }
  }

  // ---- The clock aside ---------------------------------------------------------------------------

  /** The time budget never runs out. */
  ghost predicate Timeless(env: Environment, s: State) {
    forall r: nat :: !TimedOut(s, env.clock(r))
  }

  lemma StepIgnoresReadings(env: Environment, u: Run, v: Run)
    requires u.state == v.state && u.state.status.Running? && Coherent(u.state) && Timeless(env, u.state)
    ensures Step(env, u).state == Step(env, v).state
  {
    assert !TimedOut(u.state, env.clock(u.readings)) && !TimedOut(u.state, env.clock(v.readings));
  }

  lemma StepKeepsStart(env: Environment, u: Run)
    requires u.state.status.Running? && Coherent(u.state)
    ensures Step(env, u).state.startedAt == u.state.startedAt && Step(env, u).state.budget == u.state.budget
  {
  }

  lemma TimelessKept(env: Environment, s: State, t: State)
    requires Timeless(env, s) && t.startedAt == s.startedAt && t.budget == s.budget
    ensures Timeless(env, t)
  {
    forall r: nat ensures !TimedOut(t, env.clock(r)) {
      assert !TimedOut(s, env.clock(r));
    }
  }

  lemma {:induction false} FinishIgnoresReadings(env: Environment, u: Run, v: Run)
    requires u.state == v.state && Coherent(u.state) && Timeless(env, u.state)
    ensures Finish(env, u).state == Finish(env, v).state
    decreases IterationsLeft(u.state), Rank(u.state.phase), ActionsLeft(u.state)
  {
    hide Step, Timeless;
    if !u.state.status.Running? {
    } else {
      StepDescends(env, u);
      StepIgnoresReadings(env, u, v);
      StepKeepsStart(env, u);
      TimelessKept(env, u.state, Step(env, u).state);
      if Step(env, u).state.status.Running? {
        FinishIgnoresReadings(env, Step(env, u), Step(env, v));
      }
    }
  }

  // ---- Resuming ----------------------------------------------------------------------------------

  /** What a caller sees of a finished run. */
  function Outcome(s: State): (Status, seq<ActionResult>, seq<Signature>) {
    (s.status, s.results, s.signatures)
  }

  /** The action budget is used up and no action is left to execute before the verdict. */
  predicate AwaitsVerdict(s: State) {
    && s.status.Running? && Spent(s)
    && (s.phase.Verifying? || s.phase.Judging? || (s.phase.Executing? && s.plan.Some?
        && s.next == |s.plan.value.actions|))
  }

  /** The judge, asked about a checkpoint in the judging phase, neither completes the run nor raises. */
  predicate JudgeWouldNotComplete(env: Environment, s: State) {
    && s.phase.Judging? && s.verification.Some?
    && env.judge(s, s.verification.value).Gave? && !env.judge(s, s.verification.value).value.decision.Complete?
  }

  function Crashed(c: State, r: nat): Run {
    Run(c, r, [], [])
  }

  /** With the budget used up and an action left, the uninterrupted run stops at that action. */
  lemma SpentExecutionStops(env: Environment, u: Run)
    requires Good(u.state) && u.state.status.Running? && Spent(u.state)
    requires u.state.phase.Executing? && u.state.next < |u.state.plan.value.actions|
    ensures Finish(env, u).state == Ended(u.state, Stopped, ActionBudgetExhausted)
  {
    hide Finish, NeverStagnant;
    FinishUnfolds(env, u);
    EndIsFinal(env, Step(env, u));
  }

  /** Away from the boundary the resumed run ends in the very state of the uninterrupted one. */
  lemma ResumedIsUninterrupted(env: Environment, u: Run, r: nat)
    requires Good(u.state) && !u.state.status.Fresh? && Timeless(env, u.state) && !AwaitsVerdict(u.state)
    ensures Over(u.state) || !u.state.phase.Terminal?
    ensures Resume(env, Crashed(u.state, r)).state == Finish(env, u).state
  {
    hide Timeless, CountsOk, NeverStagnant, Finish, TimedOut;
    var s := u.state;
    if Over(s) {
      EndIsFinal(env, u);
    } else {
      var b := Begin(env, Crashed(s, r));
      assert b.state == s;
      NotTimedOut(env, s, b.readings);
      if s.phase.Ready? {
        FinishIgnoresReadings(env, u, b);
      } else if Spent(s) {
        SpentExecutionStops(env, u);
      } else {
        FinishIgnoresReadings(env, u, Read(b));
      }
    }
  }

  lemma NotTimedOut(env: Environment, s: State, r: nat)
    requires Timeless(env, s)
    ensures !TimedOut(s, env.clock(r))
  {
  }

  lemma {:induction false} SignaturesGrow(env: Environment, u: Run)
    requires Coherent(u.state)
    ensures |Finish(env, u).state.signatures| >= |u.state.signatures|
    decreases IterationsLeft(u.state), Rank(u.state.phase), ActionsLeft(u.state)
  {
    hide Step;
    if !u.state.status.Running? {
    } else {
      StepDescends(env, u);
      StepGrows(env, u);
      if Step(env, u).state.status.Running? {
        SignaturesGrow(env, Step(env, u));
      }
    }
  }

  lemma StepGrows(env: Environment, u: Run)
    requires u.state.status.Running? && Coherent(u.state)
    ensures |Step(env, u).state.signatures| >= |u.state.signatures|
  {
  }

  /** From a verifying state the run fails or records another signature. */
  lemma VerifyingMovesOn(env: Environment, u: Run)
    requires u.state.status.Running? && u.state.phase.Verifying?
    ensures var f := Finish(env, u).state;
            f.status.Failed? || |f.signatures| > |u.state.signatures|
  {
    hide Finish;
    FinishUnfolds(env, u);
    var v := Step(env, u);
    SignaturesGrow(env, v);
    if env.verify(u.state, u.state.iterationResults).Raised? {
      EndIsFinal(env, v);
    }
  }

  lemma JudgingSpent(env: Environment, u: Run)
    requires u.state.status.Running? && u.state.phase.Judging? && u.state.verification.Some? && Spent(u.state)
    ensures var f := Finish(env, u).state;
            && f.results == u.state.results && f.signatures == u.state.signatures
            && (f.status.Stopped? <==> JudgeWouldNotComplete(env, u.state))
  {
    hide Finish;
    FinishUnfolds(env, u);
    var v := Step(env, u);
    if v.state.status.Running? {
      FinishUnfolds(env, v);
      EndIsFinal(env, Step(env, v));
    } else {
      EndIsFinal(env, v);
    }
  }

  /** Resuming a state that awaits its verdict stops at once; the uninterrupted run does not. */
  lemma BoundaryDiffers(env: Environment, u: Run, r: nat)
    requires Good(u.state) && Timeless(env, u.state) && AwaitsVerdict(u.state)
    ensures Outcome(Resume(env, Crashed(u.state, r)).state) == Outcome(Finish(env, u).state)
            <==> JudgeWouldNotComplete(env, u.state)
  {
    hide Timeless, NeverStagnant, Finish;
    var s := u.state;
    var resumed := Resume(env, Crashed(s, r)).state;
    assert Outcome(resumed) == (Stopped, s.results, s.signatures);
    match s.phase {
      case Executing =>
        FinishUnfolds(env, u);
        VerifyingMovesOn(env, Step(env, u));
      case Verifying => VerifyingMovesOn(env, u);
      case Judging => JudgingSpent(env, u);
    }
  }

  function FreshRun(env: Environment, goal: string, budget: Budget): Run {
    Resume(env, Run(CreateState(goal, budget), 0, [], []))
  }

  lemma FreshRunIsFinish(env: Environment, goal: string, budget: Budget)
    ensures var u := Begin(env, Run(CreateState(goal, budget), 0, [], []));
            && Good(u.state) && FreshRun(env, goal, budget) == Finish(env, u)
            && u.saves == [u.state] && u.state.status.Running?
  {
    hide Finish;
    CreatedIsGood(goal, budget);
  }

  /** Crash and resume: from any checkpoint of a run whose time budget never runs out, resuming gives the
      same status, results and signatures as the uninterrupted run if and only if the checkpoint does not
      await its verdict with the action budget used up, or the judge would not have completed it anyway.
      Away from that boundary the whole final state is the same. */
  lemma CrashResume(env: Environment, goal: string, budget: Budget, c: State, r: nat)
    requires c in FreshRun(env, goal, budget).saves
    requires forall k: nat :: env.clock(k) - env.clock(0) < if budget.timeout < 0.1 then 0.1 else budget.timeout
    ensures Over(c) || !c.phase.Terminal?
    ensures var resumed, whole := Resume(env, Crashed(c, r)).state, FreshRun(env, goal, budget).state;
            && (!AwaitsVerdict(c) ==> resumed == whole)
            && (Outcome(resumed) == Outcome(whole) <==> !AwaitsVerdict(c) || JudgeWouldNotComplete(env, c))
  {
    hide Finish, Good, Resume, Begin;
    FreshRunIsFinish(env, goal, budget);
    var u := Begin(env, Run(CreateState(goal, budget), 0, [], []));
    BeginsTimeless(env, goal, budget);
    GoodIsCoherent(u.state);
    var k := CheckpointsAreOnTheWay(env, u, c);
    AfterIsOnTheWay(env, u, k);
    var v := After(env, u, k);
    TimelessKept(env, u.state, c);
    GoodIsCoherent(c);
    AfterIsNotFresh(env, u, k);
    if AwaitsVerdict(c) {
      BoundaryDiffers(env, v, r);
    } else {
      ResumedIsUninterrupted(env, v, r);
    }
  }

  lemma BeginsTimeless(env: Environment, goal: string, budget: Budget)
    requires forall k: nat :: env.clock(k) - env.clock(0) < if budget.timeout < 0.1 then 0.1 else budget.timeout
    ensures Timeless(env, Begin(env, Run(CreateState(goal, budget), 0, [], [])).state)
  {
    var s := Begin(env, Run(CreateState(goal, budget), 0, [], [])).state;
    forall k: nat ensures !TimedOut(s, env.clock(k)) {
    }
  }

  lemma {:induction false} AfterIsNotFresh(env: Environment, u: Run, k: nat)
    requires Coherent(u.state) && !u.state.status.Fresh?
    ensures !After(env, u, k).state.status.Fresh?
    decreases k
  {
    if k == 0 || !u.state.status.Running? {
    } else {
      StepDescends(env, u);
      AfterIsNotFresh(env, Step(env, u), k - 1);
    }
  }

  // ---- No action twice ---------------------------------------------------------------------------

  /** The position is earlier in the run than index `index` of iteration `iteration`. */
  ghost predicate Before(a: Execution, iteration: nat, index: int) {
    a.iteration < iteration || (a.iteration == iteration && a.index < index)
  }

  /** Actions were executed in order of iteration and index, each once, and all of them before the position
      the state has reached. */
  ghost predicate ExecutedOnce(u: Run) {
    && (forall i, j :: 0 <= i < j < |u.executed| ==> Before(u.executed[i], u.executed[j].iteration, u.executed[j].index))
    && forall i :: 0 <= i < |u.executed| ==> Before(u.executed[i], u.state.iteration, u.state.next)
  }

  lemma StepExecutesOnce(env: Environment, u: Run)
    requires Good(u.state) && u.state.status.Running? && ExecutedOnce(u)
    ensures ExecutedOnce(Step(env, u))
  {
    hide NeverStagnant, Stagnates, CountsOk;
  }

  lemma {:induction false} FinishExecutesOnce(env: Environment, u: Run)
    requires Good(u.state) && ExecutedOnce(u)
    ensures ExecutedOnce(Finish(env, u))
    decreases IterationsLeft(u.state), Rank(u.state.phase), ActionsLeft(u.state)
  {
    hide Step, Good, ExecutedOnce;
    GoodIsCoherent(u.state);
    if !u.state.status.Running? {
    } else {
      StepDescends(env, u);
      StepKeepsGood(env, u);
      StepExecutesOnce(env, u);
      if Step(env, u).state.status.Running? {
        FinishExecutesOnce(env, Step(env, u));
      }
    }
  }

  lemma {:induction false} AfterExecutesOnce(env: Environment, u: Run, k: nat)
    requires Good(u.state) && ExecutedOnce(u)
    ensures ExecutedOnce(After(env, u, k))
    decreases k
  {
    hide Step, Good, ExecutedOnce;
    GoodIsCoherent(u.state);
    if k == 0 || !u.state.status.Running? {
    } else {
      StepKeepsGood(env, u);
      StepExecutesOnce(env, u);
      AfterExecutesOnce(env, Step(env, u), k - 1);
    }
  }

  /** A run cut off after any checkpoint and resumed, with any other collaborators and any clock, never
      executes a checkpointed action again. */
  lemma NoActionTwice(env: Environment, env': Environment, goal: string, budget: Budget, k: nat, r: nat)
    ensures var u := Begin(env, Run(CreateState(goal, budget), 0, [], []));
            && Coherent(u.state)
            && var crashed := After(env, u, k);
               && (Over(crashed.state) || !crashed.state.phase.Terminal?)
               && ExecutedOnce(Resume(env', crashed.(readings := r)))
  {
    hide Good, After, Before, Finish;
    FreshRunIsFinish(env, goal, budget);
    var u := Begin(env, Run(CreateState(goal, budget), 0, [], []));
    GoodIsCoherent(u.state);
    NothingExecuted(u);
    AfterIsOnTheWay(env, u, k);
    AfterExecutesOnce(env, u, k);
    var v := After(env, u, k).(readings := r);
    GoodIsCoherent(v.state);
    ResumeExecutesOnce(env', v);
  }

  lemma NothingExecuted(u: Run)
    requires u.executed == []
    ensures ExecutedOnce(u)
  {
  }

  lemma ResumeExecutesOnce(env: Environment, v: Run)
    requires Good(v.state) && ExecutedOnce(v)
    ensures Over(v.state) || !v.state.phase.Terminal?
    ensures ExecutedOnce(Resume(env, v))
  {
    hide Finish, NeverStagnant, Before;
    if !Over(v.state) {
      var b := Begin(env, v);
      FinishExecutesOnce(env, b);
      FinishExecutesOnce(env, Read(b));
    }
  }
}
