/** The loop engine: plan, execute, verify, judge, with a checkpoint after each transition. */
module LoopEngine {
  import opened Options
  import opened Order

  datatype Status = Fresh | Running | Completed | Stopped | Failed

  datatype Phase = Ready | Planning | Executing | Verifying | Judging | Terminal

  datatype Budget = Budget(maxIterations: int, maxActions: int, timeout: real, maxRepeated: int)

  datatype Action = Action(tool: string, arguments: map<string, string>, reason: string)

  datatype Plan = Plan(actions: seq<Action>, rationale: string)

  datatype ActionResult = ActionResult(action: Action, status: string, output: map<string, string>,
                                       error: Option<string>)

  datatype Verification = Verification(status: string, passed: seq<string>, failed: seq<string>,
                                       evidence: map<string, string>)

  /** What a signature covers, without the order of the two lists. The digest is taken to be injective. */
  datatype Signature = Signature(status: string, passed: multiset<string>, failed: multiset<string>,
                                 evidence: map<string, string>)

  datatype Verdict = Continue | Complete | Stop | Replan

  datatype Judgement = Judgement(decision: Verdict, reason: string, nextFocus: Option<string>)

  datatype StopReason =
    | IterationBudgetExhausted
    | ActionBudgetExhausted
    | WallClockBudgetExhausted
    | PlannerReturnedNoActions
    | RepeatedObservationStagnation
    | PlannerError(text: string)
    | VerifierError(text: string)
    | JudgeError(text: string)
    | ExecutingWithoutPlan
    | ActionIndexOutOfRange
    | JudgingWithoutVerification
    | JudgeRequestedStop
    | Judged(reason: string)

  datatype State = State(goal: string, budget: Budget, status: Status, phase: Phase, iteration: nat, actionCount: nat,
                         startedAt: Option<real>, focus: string, plan: Option<Plan>, next: int,
                         iterationResults: seq<ActionResult>, results: seq<ActionResult>,
                         verification: Option<Verification>, judgement: Option<Judgement>,
                         signatures: seq<Signature>, stopReason: Option<StopReason>)

  datatype Answer<T> = Raised(text: string) | Gave(value: T)

  /** Deterministic collaborators. An executor that raises yields an error result, so it always answers;
      `clock` gives the successive readings of the wall clock. */
  datatype Environment = Environment(plan: State -> Answer<Plan>,
                                     execute: (Action, State) -> ActionResult,
                                     verify: (State, seq<ActionResult>) -> Answer<Verification>,
                                     judge: (State, Verification) -> Answer<Judgement>,
                                     clock: nat -> real)

  /** An action handed to the executor, with its iteration and its index in the plan. */
  datatype Execution = Execution(iteration: nat, index: int, action: Action)

  /** A run: the state, the clock readings used, the checkpoints written, and the actions executed. */
  datatype Run = Run(state: State, readings: nat, saves: seq<State>, executed: seq<Execution>)

  function CreateState(goal: string, budget: Budget): State {
    State(goal, budget, Fresh, Ready, 0, 0, None, goal, None, 0, [], [], None, None, [], None)
  }

  // ---- Policies ----------------------------------------------------------------------------------

  predicate Spent(s: State) {
    s.actionCount >= Max(1, s.budget.maxActions)
  }

  predicate TimedOut(s: State, now: real) {
    s.startedAt.Some? && now - s.startedAt.value >= if s.budget.timeout < 0.1 then 0.1 else s.budget.timeout
  }

  function BudgetStopReason(s: State, now: real, checkIteration: bool): Option<StopReason> {
    if checkIteration && s.iteration >= Max(1, s.budget.maxIterations) then Some(IterationBudgetExhausted)
    else if Spent(s) then Some(ActionBudgetExhausted)
    else if TimedOut(s, now) then Some(WallClockBudgetExhausted)
    else None
  }

  function SignatureOf(v: Verification): Signature {
    Signature(v.status, multiset(v.passed), multiset(v.failed), v.evidence)
  }

  function RepeatLimit(b: Budget): nat {
    Max(2, b.maxRepeated)
  }

  predicate AllEqual<T(==)>(s: seq<T>) {
    forall i | 0 <= i < |s| :: s[i] == s[0]
  }

  /** The last `limit` signatures, including the new one, are there and all equal. */
  predicate Stagnates(s: State, signature: Signature) {
    var all, limit := s.signatures + [signature], RepeatLimit(s.budget);
    |all| >= limit && AllEqual(all[|all| - limit..])
  }

  // ---- One transition, up to its checkpoint ------------------------------------------------------

  function Saved(u: Run, s: State): Run {
    u.(state := s, saves := u.saves + [s])
  }

  function Read(u: Run): Run {
    u.(readings := u.readings + 1)
  }

  function Ended(s: State, status: Status, reason: StopReason): State {
    s.(status := status, phase := Terminal, stopReason := Some(reason))
  }

  function StopRun(u: Run, reason: StopReason): Run {
    Saved(u, Ended(u.state, Stopped, reason))
  }

  function FailRun(u: Run, reason: StopReason): Run {
    Saved(u, Ended(u.state, Failed, reason))
  }

  function StartIteration(s: State): State {
    s.(iteration := s.iteration + 1, phase := Planning, plan := None, next := 0, iterationResults := [])
  }

  function PlanStep(env: Environment, u: Run): Run {
    match env.plan(u.state)
    case Raised(text) => FailRun(u, PlannerError(text))
    case Gave(plan) =>
      var s := u.state.(plan := Some(plan), next := 0, iterationResults := []);
      if plan.actions == [] then StopRun(u.(state := s), PlannerReturnedNoActions)
      else Saved(u, s.(phase := Executing))
  }

  function AfterAction(s: State, r: ActionResult): State {
    s.(actionCount := s.actionCount + 1, results := s.results + [r], iterationResults := s.iterationResults + [r],
       next := s.next + 1)
  }

  function ActStep(env: Environment, u: Run): Run
    requires u.state.plan.Some? && 0 <= u.state.next < |u.state.plan.value.actions|
  {
    var s := u.state;
    var reason := BudgetStopReason(s, env.clock(u.readings), false);
    if reason.Some? then StopRun(Read(u), reason.value)
    else
      var action := s.plan.value.actions[s.next];
      var r := env.execute(action, s);
      Saved(Read(u).(executed := u.executed + [Execution(s.iteration, s.next, action)]), AfterAction(s, r))
  }

  function ExecuteStep(env: Environment, u: Run): Run {
    var s := u.state;
    if s.plan.None? then FailRun(u, ExecutingWithoutPlan)
    else if s.next < 0 || s.next > |s.plan.value.actions| then FailRun(u, ActionIndexOutOfRange)
    else if s.next < |s.plan.value.actions| then ActStep(env, u)
    else Saved(u, s.(phase := Verifying))
  }

  function VerifyStep(env: Environment, u: Run): Run {
    match env.verify(u.state, u.state.iterationResults)
    case Raised(text) => FailRun(u, VerifierError(text))
    case Gave(v) =>
      var signature := SignatureOf(v);
      var s := u.state.(verification := Some(v), signatures := u.state.signatures + [signature]);
      if Stagnates(u.state, signature) then StopRun(u.(state := s), RepeatedObservationStagnation)
      else Saved(u, s.(phase := Judging))
  }

  function NonEmpty(text: string, otherwise: string): string {
    if text != "" then text else otherwise
  }

  function StopVerdict(j: Judgement): StopReason {
    if j.reason != "" then Judged(j.reason) else JudgeRequestedStop
  }

  function JudgeStep(env: Environment, u: Run): Run {
    if u.state.verification.None? then FailRun(u, JudgingWithoutVerification)
    else
      match env.judge(u.state, u.state.verification.value)
      case Raised(text) => FailRun(u, JudgeError(text))
      case Gave(j) =>
        var s := u.state.(judgement := Some(j));
        match j.decision
        case Complete => Saved(u, Ended(s, Completed, Judged(j.reason)))
        case Stop =>
          var stopped := StopRun(u.(state := s), StopVerdict(j));
          Saved(stopped, stopped.state)
        case _ =>
          var focus := if j.nextFocus.Some? then NonEmpty(j.nextFocus.value, s.focus) else s.focus;
          Saved(u, s.(focus := focus, phase := Ready))
  }

  /** The transition out of the current phase. Out of READY it is preceded by the check at the head of
      the loop. */
  function Step(env: Environment, u: Run): Run
    requires u.state.status.Running? && !u.state.phase.Terminal?
  {
    match u.state.phase
    case Ready =>
      var reason := BudgetStopReason(u.state, env.clock(u.readings), true);
      if reason.Some? then StopRun(Read(u), reason.value) else Saved(Read(u), StartIteration(u.state))
    case Planning => PlanStep(env, u)
    case Executing => ExecuteStep(env, u)
    case Verifying => VerifyStep(env, u)
    case Judging => JudgeStep(env, u)
  }

  /** A running state is in a phase that has work to do. */
  predicate Coherent(s: State) {
    s.status.Running? ==> !s.phase.Terminal?
  }

  function Rank(p: Phase): nat {
    match p
    case Planning => 4
    case Executing => 3
    case Verifying => 2
    case Judging => 1
    case _ => 0
  }

  function ActionsLeft(s: State): int {
    if s.plan.Some? then Max(0, |s.plan.value.actions| - s.next) else 0
  }

  function IterationsLeft(s: State): int {
    Max(0, Max(1, s.budget.maxIterations) - s.iteration)
  }

  lemma StepDescends(env: Environment, u: Run)
    requires u.state.status.Running? && Coherent(u.state)
    ensures var s, v := u.state, Step(env, u).state;
            && Coherent(v)
            && (v.status.Running? ==>
                  || IterationsLeft(v) < IterationsLeft(s)
                  || (IterationsLeft(v) == IterationsLeft(s)
                      && (Rank(v.phase) < Rank(s.phase)
                          || (Rank(v.phase) == Rank(s.phase) && ActionsLeft(v) < ActionsLeft(s)))))
  {
  }

  /** The uninterrupted run from here on. That it is total is the termination of every run. */
  function Finish(env: Environment, u: Run): Run
    requires Coherent(u.state)
    decreases IterationsLeft(u.state), Rank(u.state.phase), ActionsLeft(u.state)
  {
    if !u.state.status.Running? then u
    else
      hide Step;
      StepDescends(env, u);
      var v := Step(env, u);
      if v.state.status.Running? then Finish(env, v) else v
  }

  predicate Over(s: State) {
    s.status.Completed? || s.status.Stopped? || s.status.Failed?
  }

  /** Starting or resuming: the state is running, has a start time, and is checkpointed. */
  function Begin(env: Environment, u: Run): Run {
    var s := u.state;
    var started := if s.startedAt.None? then s.(startedAt := Some(env.clock(u.readings))) else s;
    Saved(if s.startedAt.None? then Read(u) else u, started.(status := Running))
  }

  /** The loop entered at its head: unlike an uninterrupted run it checks the budget in every phase. */
  function Enter(env: Environment, u: Run): Run
    requires Coherent(u.state)
  {
    if !u.state.status.Running? || u.state.phase.Ready? then Finish(env, u)
    else
      var reason := BudgetStopReason(u.state, env.clock(u.readings), false);
      if reason.Some? then StopRun(Read(u), reason.value) else Finish(env, Read(u))
  }

  function Resume(env: Environment, u: Run): Run
    requires Over(u.state) || !u.state.phase.Terminal?
  {
    if Over(u.state) then u else Enter(env, Begin(env, u))
  }

  lemma FinishUnfolds(env: Environment, u: Run)
    requires u.state.status.Running? && Coherent(u.state)
    ensures Coherent(Step(env, u).state) && Finish(env, u) == Finish(env, Step(env, u))
  {
    hide Step;
    StepDescends(env, u);
  }

  // ---- The mutating engine -----------------------------------------------------------------------

  class LoopState {
    const goal: string
    const budget: Budget
    var status: Status
    var phase: Phase
    var iteration: nat
    var actionCount: nat
    var startedAt: Option<real>
    var focus: string
    var plan: Option<Plan>
    var next: int
    var iterationResults: seq<ActionResult>
    var results: seq<ActionResult>
    var verification: Option<Verification>
    var judgement: Option<Judgement>
    var signatures: seq<Signature>
    var stopReason: Option<StopReason>

    function Value(): State
      reads this
    {
      State(goal, budget, status, phase, iteration, actionCount, startedAt, focus, plan, next, iterationResults,
            results, verification, judgement, signatures, stopReason)
    }

    constructor (s: State)
      ensures Value() == s
    {
      goal, budget, status, phase, iteration := s.goal, s.budget, s.status, s.phase, s.iteration;
      actionCount, startedAt, focus, plan, next := s.actionCount, s.startedAt, s.focus, s.plan, s.next;
      iterationResults, results := s.iterationResults, s.results;
      verification, judgement, signatures, stopReason := s.verification, s.judgement, s.signatures, s.stopReason;
    }
  }

  class LoopEngine {
    const env: Environment
    var readings: nat
    var saves: seq<State>
    var executed: seq<Execution>

    function Here(state: LoopState): Run
      reads this, state
    {
      Run(state.Value(), readings, saves, executed)
    }

    constructor (env: Environment)
      ensures this.env == env && readings == 0 && saves == [] && executed == []
    {
      this.env, readings, saves, executed := env, 0, [], [];
    }

    method Checkpoint(state: LoopState)
      modifies this
      ensures Here(state) == Saved(old(Here(state)), state.Value())
    {
      saves := saves + [state.Value()];
    }

    method StopLoop(state: LoopState, reason: StopReason)
      modifies this, state
      ensures Here(state) == StopRun(old(Here(state)), reason)
    {
      state.status, state.phase, state.stopReason := Stopped, Terminal, Some(reason);
      Checkpoint(state);
    }

    method FailLoop(state: LoopState, reason: StopReason)
      modifies this, state
      ensures Here(state) == FailRun(old(Here(state)), reason)
    {
      state.status, state.phase, state.stopReason := Failed, Terminal, Some(reason);
      Checkpoint(state);
    }

    method CheckBudget(state: LoopState, checkIteration: bool) returns (reason: Option<StopReason>)
      modifies this
      ensures Here(state) == Read(old(Here(state)))
      ensures reason == BudgetStopReason(state.Value(), env.clock(old(readings)), checkIteration)
    {
      reason := BudgetStopReason(state.Value(), env.clock(readings), checkIteration);
      readings := readings + 1;
    }

    method PlanPhase(state: LoopState)
      modifies this, state
      ensures Here(state) == PlanStep(env, old(Here(state)))
    {
      match env.plan(state.Value()) {
        case Raised(text) =>
          FailLoop(state, PlannerError(text));
        case Gave(plan) =>
          state.plan, state.next, state.iterationResults := Some(plan), 0, [];
          if plan.actions == [] {
            StopLoop(state, PlannerReturnedNoActions);
            return;
          }
          state.phase := Executing;
          Checkpoint(state);
      }
    }

    method ExecuteAction(state: LoopState)
      requires state.plan.Some? && 0 <= state.next < |state.plan.value.actions|
      modifies this, state
      ensures Here(state) == ActStep(env, old(Here(state)))
    {
      var reason := CheckBudget(state, false);
      if reason.Some? {
        StopLoop(state, reason.value);
        return;
      }
      var action := state.plan.value.actions[state.next];
      executed := executed + [Execution(state.iteration, state.next, action)];
      var result := env.execute(action, state.Value());
      state.actionCount := state.actionCount + 1;
      state.results := state.results + [result];
      state.iterationResults := state.iterationResults + [result];
      state.next := state.next + 1;
      Checkpoint(state);
    }

    method ExecutePhase(state: LoopState)
      requires state.status.Running? && state.phase.Executing?
      modifies this, state
      ensures Coherent(state.Value()) && Finish(env, Here(state)) == Finish(env, old(Here(state)))
      ensures state.status.Running? ==> state.phase.Verifying? && state.iteration == old(state.iteration)
      ensures state.status.Running? || Over(state.Value())
    {
      hide Finish, ActStep;
      ghost var start := Here(state);
      FinishUnfolds(env, start);
      if state.plan.None? {
        FailLoop(state, ExecutingWithoutPlan);
        return;
      }
      var actions := state.plan.value.actions;
      if state.next < 0 || state.next > |actions| {
        FailLoop(state, ActionIndexOutOfRange);
        return;
      }
      while state.status.Running? && state.next < |actions|
        invariant state.status.Running? || Over(state.Value())
        invariant state.status.Running? ==>
                    && state.phase.Executing? && state.plan.Some? && state.plan.value.actions == actions
                    && 0 <= state.next <= |actions| && state.iteration == start.state.iteration
        invariant Coherent(state.Value()) && Finish(env, Here(state)) == Finish(env, start)
        decreases state.status.Running?, |actions| - state.next
      {
        FinishUnfolds(env, Here(state));
        ActEffect(env, Here(state));
        ExecuteAction(state);
      }
      if state.status.Running? {
        FinishUnfolds(env, Here(state));
        state.phase := Verifying;
        Checkpoint(state);
      }
    }

    method VerifyPhase(state: LoopState)
      modifies this, state
      ensures Here(state) == VerifyStep(env, old(Here(state)))
    {
      match env.verify(state.Value(), state.iterationResults) {
        case Raised(text) =>
          FailLoop(state, VerifierError(text));
        case Gave(v) =>
          var stagnant := Stagnates(state.Value(), SignatureOf(v));
          state.verification := Some(v);
          state.signatures := state.signatures + [SignatureOf(v)];
          if stagnant {
            StopLoop(state, RepeatedObservationStagnation);
            return;
          }
          state.phase := Judging;
          Checkpoint(state);
      }
    }

    method JudgePhase(state: LoopState)
      modifies this, state
      ensures Here(state) == JudgeStep(env, old(Here(state)))
    {
      hide StopVerdict, NonEmpty;
      if state.verification.None? {
        FailLoop(state, JudgingWithoutVerification);
        return;
      }
      match env.judge(state.Value(), state.verification.value) {
        case Raised(text) =>
          FailLoop(state, JudgeError(text));
        case Gave(j) =>
          state.judgement := Some(j);
          match j.decision {
            case Complete =>
              state.status, state.phase, state.stopReason := Completed, Terminal, Some(Judged(j.reason));
            case Stop =>
              StopLoop(state, StopVerdict(j));
            case _ =>
              if j.nextFocus.Some? {
                state.focus := NonEmpty(j.nextFocus.value, state.focus);
              }
              state.phase := Ready;
          }
          Checkpoint(state);
      }
    }

    /** One turn of the loop, after the check at its head: every phase from the current one on. */
    method RunPhases(state: LoopState)
      requires state.status.Running? && !state.phase.Terminal? && !state.phase.Ready?
      modifies this, state
      ensures Coherent(state.Value()) && Finish(env, Here(state)) == Finish(env, old(Here(state)))
      ensures state.status.Running? ==> state.phase.Ready? && state.iteration == old(state.iteration)
      ensures state.status.Running? || Over(state.Value())
    {
      hide Finish, PlanStep, VerifyStep, JudgeStep;
      if state.phase.Planning? {
        FinishUnfolds(env, Here(state));
        PlanEffect(env, Here(state));
        PlanPhase(state);
        if !state.status.Running? {
          return;
        }
      }
      if state.phase.Executing? {
        ExecutePhase(state);
        if !state.status.Running? {
          return;
        }
      }
      if state.phase.Verifying? {
        FinishUnfolds(env, Here(state));
        VerifyEffect(env, Here(state));
        VerifyPhase(state);
        if !state.status.Running? {
          return;
        }
      }
      FinishUnfolds(env, Here(state));
      JudgeEffect(env, Here(state));
      JudgePhase(state);
    }

    /** The check at the head of the loop, and the start of a new iteration. */
    method EnterTurn(state: LoopState)
      requires state.status.Running? && !state.phase.Terminal?
      modifies this, state
      ensures Coherent(state.Value()) && Finish(env, Here(state)) == Enter(env, old(Here(state)))
      ensures state.status.Running? ==> !state.phase.Ready?
      ensures state.status.Running? ==>
                if old(state.phase).Ready? then IterationsLeft(state.Value()) < old(IterationsLeft(state.Value()))
                else IterationsLeft(state.Value()) == old(IterationsLeft(state.Value()))
      ensures state.status.Running? || Over(state.Value())
    {
      hide Finish;
      ghost var before := Here(state);
      var reason := CheckBudget(state, state.phase.Ready?);
      if state.phase.Ready? {
        FinishUnfolds(env, before);
      }
      if reason.Some? {
        StopLoop(state, reason.value);
        EndIsFinal(env, Here(state));
        return;
      }
      if state.phase.Ready? {
        state.iteration := state.iteration + 1;
        state.phase, state.plan, state.next, state.iterationResults := Planning, None, 0, [];
        Checkpoint(state);
      }
    }

    method ResumeRun(state: LoopState)
      requires Over(state.Value()) || !state.phase.Terminal?
      modifies this, state
      ensures Here(state) == Resume(env, old(Here(state)))
      ensures Over(state.Value())
    {
      hide Finish, Enter;
      if Over(state.Value()) {
        return;
      }
      if state.startedAt.None? {
        state.startedAt := Some(env.clock(readings));
        readings := readings + 1;
      }
      state.status := Running;
      Checkpoint(state);
      ghost var begun := Here(state);
      while state.status.Running?
        invariant Coherent(state.Value()) && Enter(env, Here(state)) == Enter(env, begun)
        invariant state.status.Running? || Over(state.Value())
        decreases state.status.Running?, IterationsLeft(state.Value()), Rank(state.phase)
      {
        EnterTurn(state);
        if state.status.Running? {
          RunPhases(state);
        }
        TurnEnds(env, Here(state));
      }
      EndIsFinal(env, Here(state));
    }
  }

  lemma ActEffect(env: Environment, u: Run)
    requires u.state.status.Running? && u.state.phase.Executing? && u.state.plan.Some?
    requires 0 <= u.state.next < |u.state.plan.value.actions|
    ensures Step(env, u) == ActStep(env, u)
    ensures var v := Step(env, u).state;
            (v.status.Running? ==> v.phase.Executing? && v.iteration == u.state.iteration && v.plan == u.state.plan
                                   && v.next == u.state.next + 1)
            && (v.status.Running? || Over(v))
  {
  }

  lemma PlanEffect(env: Environment, u: Run)
    requires u.state.status.Running?
    ensures var v := PlanStep(env, u).state;
            (v.status.Running? ==> v.phase.Executing? && v.iteration == u.state.iteration)
            && (v.status.Running? || Over(v))
  {
  }

  lemma VerifyEffect(env: Environment, u: Run)
    requires u.state.status.Running?
    ensures var v := VerifyStep(env, u).state;
            (v.status.Running? ==> v.phase.Judging? && v.iteration == u.state.iteration)
            && (v.status.Running? || Over(v))
  {
  }

  lemma JudgeEffect(env: Environment, u: Run)
    requires u.state.status.Running?
    ensures var v := JudgeStep(env, u).state;
            (v.status.Running? ==> v.phase.Ready? && v.iteration == u.state.iteration)
            && (v.status.Running? || Over(v))
  {
  }

  /** Nothing follows the end. */
  lemma EndIsFinal(env: Environment, u: Run)
    requires !u.state.status.Running?
    ensures Coherent(u.state) && Finish(env, u) == u && Enter(env, u) == u
  {
  }

  lemma TurnEnds(env: Environment, u: Run)
    requires Coherent(u.state) && (u.state.status.Running? ==> u.state.phase.Ready?)
    ensures Enter(env, u) == Finish(env, u)
  {
  }
}
