/** What each transition of the loop engine decides, and what the end of a run says about how it got there. */
module LoopOutcomes {
  import opened Options
  import opened Order
  import opened LoopEngine
  import opened LoopRecovery

  // ---- What one transition decides ---------------------------------------------------------------

  /** Seconds a run may take. */
  function TimeLimit(b: Budget): (limit: real)
    ensures limit >= 0.1 && limit >= b.timeout && (limit == 0.1 || limit == b.timeout)
  {
    if b.timeout < 0.1 then 0.1 else b.timeout
  }

  /** Why the budget does not let the run go on: the first limit that is reached, of those that are checked. */
  ghost predicate Exhausts(s: State, now: real, turn: bool, reason: StopReason) {
    var turns := turn && s.iteration >= Max(1, s.budget.maxIterations);
    var actions := s.actionCount >= Max(1, s.budget.maxActions);
    var time := s.startedAt.Some? && now - s.startedAt.value >= TimeLimit(s.budget);
    match reason
    case IterationBudgetExhausted => turns
    case ActionBudgetExhausted => !turns && actions
    case WallClockBudgetExhausted => !turns && !actions && time
    case _ => false
  }

  lemma BudgetMeans(s: State, now: real, turn: bool)
    ensures forall reason :: BudgetStopReason(s, now, turn) == Some(reason) <==> Exhausts(s, now, turn, reason)
    ensures BudgetStopReason(s, now, turn).Some? <==> exists reason :: Exhausts(s, now, turn, reason)
  {
    var r := BudgetStopReason(s, now, turn);
    if r.Some? {
      assert Exhausts(s, now, turn, r.value);
    }
  }

  /** A new iteration starts unless a budget is used up. */
  lemma ReadyDecides(env: Environment, u: Run)
    requires u.state.status.Running? && u.state.phase.Ready?
    ensures var s, v, now := u.state, Step(env, u).state, env.clock(u.readings);
            && (v.status.Stopped? <==> exists reason :: Exhausts(s, now, true, reason))
            && (v.status.Stopped? ==>
                  v.stopReason.Some? && Exhausts(s, now, true, v.stopReason.value)
                  && v == s.(status := Stopped, phase := Terminal, stopReason := v.stopReason))
            && (!v.status.Stopped? ==>
                  v == s.(iteration := s.iteration + 1, phase := Planning, plan := None, next := 0,
                      iterationResults := []))
  {
    hide Exhausts, BudgetStopReason;
    BudgetMeans(u.state, env.clock(u.readings), true);
  }

  /** A plan with actions is executed, an empty one stops the run, and a planner that raises fails it. */
  lemma PlanDecides(env: Environment, u: Run)
    requires u.state.status.Running? && u.state.phase.Planning?
    ensures var s, v, a := u.state, Step(env, u).state, env.plan(u.state);
            && (v.status.Failed? <==> a.Raised?)
            && (v.status.Stopped? <==> a.Gave? && a.value.actions == [])
            && (a.Raised? ==> v == s.(status := Failed, phase := Terminal, stopReason := Some(PlannerError(a.text))))
            && (a.Gave? ==> v.plan == Some(a.value) && v.next == 0 && v.iterationResults == [])
            && (v.status.Stopped? ==> v.stopReason == Some(PlannerReturnedNoActions) && v.phase.Terminal?)
            && (!v.status.Failed? && !v.status.Stopped? ==> v.status.Running? && v.phase.Executing?)
  {
  }

  /** The next action of the plan is executed on the current state unless the action or the time budget is used
      up; after the last one the run is verified. */
  lemma ExecuteDecides(env: Environment, u: Run)
    requires u.state.status.Running? && u.state.phase.Executing?
    ensures var s, w := u.state, Step(env, u);
            if s.plan.None? then
              w.state == s.(status := Failed, phase := Terminal, stopReason := Some(ExecutingWithoutPlan))
              && w.executed == u.executed
            else if s.next < 0 || s.next > |s.plan.value.actions| then
              w.state == s.(status := Failed, phase := Terminal, stopReason := Some(ActionIndexOutOfRange))
              && w.executed == u.executed
            else if s.next == |s.plan.value.actions| then
              w.state == s.(phase := Verifying) && w.executed == u.executed
            else if exists reason :: Exhausts(s, env.clock(u.readings), false, reason) then
              && w.executed == u.executed && w.state.stopReason.Some?
              && Exhausts(s, env.clock(u.readings), false, w.state.stopReason.value)
              && w.state == s.(status := Stopped, phase := Terminal, stopReason := w.state.stopReason)
            else
              var action := s.plan.value.actions[s.next];
              var result := env.execute(action, s);
              && w.executed == u.executed + [Execution(s.iteration, s.next, action)]
              && w.state == s.(actionCount := s.actionCount + 1, next := s.next + 1, results := s.results + [result],
                               iterationResults := s.iterationResults + [result])
  {
    hide Exhausts, BudgetStopReason;
    BudgetMeans(u.state, env.clock(u.readings), false);
  }

  /** The last signatures of the run, as many as the budget lets repeat, all say the same as this verification. */
  ghost predicate Repeats(s: State, v: Verification) {
    var limit := Max(2, s.budget.maxRepeated);
    && |s.signatures| + 1 >= limit
    && forall i :: |s.signatures| + 1 - limit <= i < |s.signatures| ==> s.signatures[i] == SignatureOf(v)
  }

  /** Two verifications have one signature exactly when they report the same status and evidence and pass and fail
      the same checks, in whatever order. */
  lemma SignatureMeans(v: Verification, w: Verification)
    ensures SignatureOf(v) == SignatureOf(w) <==>
            && v.status == w.status && v.evidence == w.evidence
            && multiset(v.passed) == multiset(w.passed) && multiset(v.failed) == multiset(w.failed)
  {
  }

  lemma StagnationMeansRepeats(s: State, v: Verification)
    ensures Stagnates(s, SignatureOf(v)) <==> Repeats(s, v)
  {
    var signature, limit := SignatureOf(v), RepeatLimit(s.budget);
    var all := s.signatures + [signature];
    if |all| >= limit {
      var tail := all[|all| - limit..];
      assert tail[|tail| - 1] == signature;
      assert forall i :: 0 <= i < |tail| ==> tail[i] == all[|all| - limit + i];
      if Repeats(s, v) {
        assert forall i :: 0 <= i < |tail| - 1 ==> tail[i] == s.signatures[|all| - limit + i];
      } else if AllEqual(tail) {
        forall i | |all| - limit <= i < |s.signatures| ensures s.signatures[i] == signature {
          assert s.signatures[i] == tail[i - (|all| - limit)];
        }
      }
    }
  }

  /** A verification is recorded and judged, unless it only repeats what was observed before; a verifier that raises
      fails the run. */
  lemma VerifyDecides(env: Environment, u: Run)
    requires u.state.status.Running? && u.state.phase.Verifying?
    ensures var s, v, a := u.state, Step(env, u).state, env.verify(u.state, u.state.iterationResults);
            && (v.status.Failed? <==> a.Raised?)
            && (v.status.Stopped? <==> a.Gave? && Repeats(s, a.value))
            && (a.Raised? ==> v == s.(status := Failed, phase := Terminal, stopReason := Some(VerifierError(a.text))))
            && (a.Gave? ==> v.verification == Some(a.value) && v.signatures == s.signatures + [SignatureOf(a.value)])
            && (v.status.Stopped? ==> v.stopReason == Some(RepeatedObservationStagnation) && v.phase.Terminal?)
            && (!v.status.Failed? && !v.status.Stopped? ==> v.status.Running? && v.phase.Judging?)
  {
    hide Stagnates, Repeats;
    if env.verify(u.state, u.state.iterationResults).Gave? {
      StagnationMeansRepeats(u.state, env.verify(u.state, u.state.iterationResults).value);
    }
  }

  /** The judge's verdict: complete completes the run, stop stops it, anything else starts another iteration with
      the focus the judge names, and a judge that raises fails it. */
  lemma JudgeDecides(env: Environment, u: Run)
    requires u.state.status.Running? && u.state.phase.Judging? && u.state.verification.Some?
    ensures var s, v, a := u.state, Step(env, u).state, env.judge(u.state, u.state.verification.value);
            && (v.status.Completed? <==> a.Gave? && a.value.decision.Complete?)
            && (v.status.Stopped? <==> a.Gave? && a.value.decision.Stop?)
            && (v.status.Failed? <==> a.Raised?)
            && (a.Raised? ==> v == s.(status := Failed, phase := Terminal, stopReason := Some(JudgeError(a.text))))
            && (v.status.Completed? ==>
                  v == s.(judgement := Some(a.value), status := Completed, phase := Terminal,
                          stopReason := Some(Judged(a.value.reason))))
            && (v.status.Stopped? ==>
                  v == s.(judgement := Some(a.value), status := Stopped, phase := Terminal,
                          stopReason := Some(if a.value.reason == "" then JudgeRequestedStop
                                             else Judged(a.value.reason))))
            && (a.Gave? && (a.value.decision.Continue? || a.value.decision.Replan?) ==>
                  v == s.(judgement := Some(a.value), phase := Ready,
                          focus := if a.value.nextFocus.None? || a.value.nextFocus.value == "" then s.focus
                                   else a.value.nextFocus.value))
  {
  }

  // ---- What the end of a run says ----------------------------------------------------------------

  /** How the state after the last transition follows from the state before it. */
  ghost predicate Explains(env: Environment, s: State, f: State) {
    && s.status.Running? && f.stopReason.Some?
    && match f.stopReason.value
       case IterationBudgetExhausted => f.status.Stopped? && s.phase.Ready?
           && s.iteration == Max(1, s.budget.maxIterations)
       case ActionBudgetExhausted => f.status.Stopped? && s.actionCount == Max(1, s.budget.maxActions)
                                     && (s.phase.Ready? || (s.phase.Executing? && s.next < |Actions(s)|))
       case WallClockBudgetExhausted =>
         f.status.Stopped? && (s.phase.Ready? || (s.phase.Executing? && s.next < |Actions(s)|))
         && s.startedAt.Some? && exists r: nat :: env.clock(r) - s.startedAt.value >= TimeLimit(s.budget)
       case PlannerReturnedNoActions =>
         f.status.Stopped? && s.phase.Planning? && env.plan(s).Gave? && env.plan(s).value.actions == []
       case PlannerError(text) => f.status.Failed? && s.phase.Planning? && env.plan(s) == Raised(text)
       case VerifierError(text) => f.status.Failed? && s.phase.Verifying?
           && env.verify(s, s.iterationResults) == Raised(text)
       case RepeatedObservationStagnation =>
         f.status.Stopped? && s.phase.Verifying? && env.verify(s, s.iterationResults).Gave?
         && Repeats(s, env.verify(s, s.iterationResults).value)
       case JudgeError(text) =>
         f.status.Failed? && s.phase.Judging? && s.verification.Some?
             && env.judge(s, s.verification.value) == Raised(text)
       case JudgeRequestedStop => f.status.Stopped? && Ruled(env, s, f, Stop) && f.judgement.value.reason == ""
       case Judged(reason) =>
         && (f.status.Completed? || f.status.Stopped?)
         && Ruled(env, s, f, if f.status.Completed? then Complete else Stop) && f.judgement.value.reason == reason
       case _ => false
  }

  function Actions(s: State): seq<Action> {
    if s.plan.Some? then s.plan.value.actions else []
  }

  /** The judge gave this verdict about `s`, and it is the one on record in `f`. */
  ghost predicate Ruled(env: Environment, s: State, f: State, verdict: Verdict) {
    && s.phase.Judging? && s.verification.Some? && f.judgement.Some?
    && env.judge(s, s.verification.value) == Gave(f.judgement.value) && f.judgement.value.decision == verdict
  }

  lemma StepExplains(env: Environment, u: Run)
    requires Good(u.state) && u.state.status.Running? && !Step(env, u).state.status.Running?
    ensures Explains(env, u.state, Step(env, u).state)
  {
    hide NeverStagnant, Stagnates, Repeats, Step;
    match u.state.phase
    case Ready => ReadyDecides(env, u);
    case Planning => PlanDecides(env, u);
    case Executing => ExecuteDecides(env, u);
    case Verifying => VerifyDecides(env, u);
    case Judging => JudgeDecides(env, u);
  }

  lemma {:induction false} FinishIsExplained(env: Environment, u: Run)
    requires Good(u.state) && u.state.status.Running? && u.state in u.saves
    ensures exists s :: s in Finish(env, u).saves && Explains(env, s, Finish(env, u).state)
    decreases IterationsLeft(u.state), Rank(u.state.phase), ActionsLeft(u.state)
  {
    hide Step, Good, Explains;
    StepKeepsGood(env, u);
    GoodIsCoherent(u.state);
    StepDescends(env, u);
    StepSaves(env, u);
    FinishUnfolds(env, u);
    var v := Step(env, u);
    assert v.state in v.saves by {
      assert v.saves[|v.saves| - 1] == v.state;
    }
    if v.state.status.Running? {
      FinishIsExplained(env, v);
    } else {
      StepExplains(env, u);
      SavesKept(u.saves, v.saves, u.state);
      EndIsFinal(env, v);
    }
  }

  lemma SavesKept(a: seq<State>, b: seq<State>, s: State)
    requires |a| <= |b| && b[..|a|] == a && s in a
    ensures s in b
  {
    var i :| 0 <= i < |a| && a[i] == s;
    assert b[..|a|][i] == s;
  }

  /** The stop reason of every new run tells the truth: there is a checkpoint at which what it names happened. In
      particular a run is completed only after the judge, asked about a checkpoint in the judging phase, said so. */
  lemma OutcomeIsExplained(env: Environment, goal: string, budget: Budget)
    ensures var f := FreshRun(env, goal, budget);
            exists s :: s in f.saves && Explains(env, s, f.state)
  {
    hide Finish, Good, Explains, Begin;
    FreshRunIsFinish(env, goal, budget);
    FinishIsExplained(env, Begin(env, Run(CreateState(goal, budget), 0, [], [])));
  }

  // ---- What was executed -------------------------------------------------------------------------

  /** Result `j` is what the executor returned for the action the plan of some checkpoint had next. */
  ghost predicate Performed(env: Environment, u: Run, j: nat)
    requires j < |u.executed| && j < |u.state.results|
  {
    exists s :: s in u.saves && PerformedAt(env, u, j, s)
  }

  ghost predicate PerformedAt(env: Environment, u: Run, j: nat, s: State)
    requires j < |u.executed| && j < |u.state.results|
  {
    && s.phase.Executing? && s.plan.Some? && 0 <= s.next < |s.plan.value.actions|
    && s.results == u.state.results[..j] && s.actionCount == j < Max(1, s.budget.maxActions)
    && u.executed[j] == Execution(s.iteration, s.next, s.plan.value.actions[s.next])
    && u.state.results[j] == env.execute(s.plan.value.actions[s.next], s)
  }

  ghost predicate AllPerformed(env: Environment, u: Run) {
    |u.executed| == |u.state.results| && forall j :: 0 <= j < |u.executed| ==> Performed(env, u, j)
  }

  lemma StepPerforms(env: Environment, u: Run)
    requires Good(u.state) && u.state.status.Running? && AllPerformed(env, u) && u.state in u.saves
    ensures AllPerformed(env, Step(env, u))
  {
    hide NeverStagnant, IsTail, Step, PerformedAt;
    StepSaves(env, u);
    StepRecords(env, u);
    var v := Step(env, u);
    forall j | 0 <= j < |v.executed| ensures Performed(env, v, j) {
      if j < |u.executed| {
        assert Performed(env, u, j);
        var s :| s in u.saves && PerformedAt(env, u, j, s);
        SavesKept(u.saves, v.saves, s);
        PerformedLater(env, u, v, j, s);
      } else {
        SavesKept(u.saves, v.saves, u.state);
      }
    }
  }

  lemma PerformedLater(env: Environment, u: Run, v: Run, j: nat, s: State)
    requires j < |u.executed| <= |v.executed| && j < |u.state.results| <= |v.state.results|
    requires u.executed[j] == v.executed[j] && v.state.results[..|u.state.results|] == u.state.results
    requires PerformedAt(env, u, j, s)
    ensures PerformedAt(env, v, j, s)
  {
    assert v.state.results[..j] == v.state.results[..|u.state.results|][..j];
    assert v.state.results[j] == v.state.results[..|u.state.results|][j];
  }

  /** A step executes nothing, or one action that it records with its result. */
  lemma StepRecords(env: Environment, u: Run)
    requires Good(u.state) && u.state.status.Running? && |u.executed| == |u.state.results|
    ensures var v := Step(env, u);
            || (v.executed == u.executed && v.state.results == u.state.results)
            || (|v.executed| == |u.executed| + 1 == |v.state.results| && v.executed[..|u.executed|] == u.executed
                && v.state.results[..|u.state.results|] == u.state.results && PerformedAt(env, v, |u.executed|, u.state))
  {
    hide NeverStagnant, IsTail, Step, Stagnates, Repeats;
    match u.state.phase
    case Executing =>
      ExecuteDecides(env, u);
      var s, v := u.state, Step(env, u);
      if v.executed != u.executed {
        assert s.plan.Some? && 0 <= s.next < |s.plan.value.actions|;
        assert !Exhausts(s, env.clock(u.readings), false, ActionBudgetExhausted);
        assert v.state.results[..|u.executed|] == s.results;
      }
    case _ => OthersRecordNothing(env, u);
  }

  lemma OthersRecordNothing(env: Environment, u: Run)
    requires u.state.status.Running? && Coherent(u.state) && !u.state.phase.Executing?
    ensures Step(env, u).executed == u.executed && Step(env, u).state.results == u.state.results
  {
    hide Stagnates;
  }

  lemma {:induction false} FinishPerforms(env: Environment, u: Run)
    requires Good(u.state) && AllPerformed(env, u) && u.state in u.saves
    ensures AllPerformed(env, Finish(env, u))
    decreases IterationsLeft(u.state), Rank(u.state.phase), ActionsLeft(u.state)
  {
    hide Step, Good, AllPerformed;
    GoodIsCoherent(u.state);
    if !u.state.status.Running? {
    } else {
      StepKeepsGood(env, u);
      StepDescends(env, u);
      StepSaves(env, u);
      StepPerforms(env, u);
      var v := Step(env, u);
      assert v.saves[|v.saves| - 1] == v.state;
      if v.state.status.Running? {
        FinishPerforms(env, v);
      }
    }
  }

  /** Every new run executes exactly the actions its results are about: each was the next action of the plan at some
      checkpoint with the action budget not yet used up, and its result is what the executor returned for it there. */
  lemma ResultsArePerformed(env: Environment, goal: string, budget: Budget)
    ensures var f := FreshRun(env, goal, budget);
            AllPerformed(env, f)
  {
    hide Finish, Good, Begin;
    FreshRunIsFinish(env, goal, budget);
    var u := Begin(env, Run(CreateState(goal, budget), 0, [], []));
    BeginsEmpty(env, goal, budget);
    FinishPerforms(env, u);
  }

  lemma BeginsEmpty(env: Environment, goal: string, budget: Budget)
    ensures var u := Begin(env, Run(CreateState(goal, budget), 0, [], []));
            u.executed == [] && u.state.results == []
  {
  }

  lemma {:induction false} FinishKeepsSaves(env: Environment, u: Run)
    requires Coherent(u.state)
    ensures u.saves <= Finish(env, u).saves
    decreases IterationsLeft(u.state), Rank(u.state.phase), ActionsLeft(u.state)
  {
    hide Step;
    if !u.state.status.Running? {
    } else {
      StepDescends(env, u);
      StepSaves(env, u);
      FinishUnfolds(env, u);
      if Step(env, u).state.status.Running? {
        FinishKeepsSaves(env, Step(env, u));
      } else {
        EndIsFinal(env, Step(env, u));
      }
    }
  }

  /** The first thing a new run saves is that it is running, from now on, with its goal as its focus and nothing done. */
  lemma FirstCheckpoint(env: Environment, goal: string, budget: Budget)
    ensures var f := FreshRun(env, goal, budget);
            && |f.saves| > 0
            && f.saves[0] == State(goal, budget, Status.Running, Ready, 0, 0, Some(env.clock(0)), goal, None, 0, [],
                                   [], None, None, [], None)
  {
    hide Finish;
    FreshRunIsFinish(env, goal, budget);
    FinishKeepsSaves(env, Begin(env, Run(CreateState(goal, budget), 0, [], [])));
  }
}
