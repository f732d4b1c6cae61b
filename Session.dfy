/** The per-participant session of the study: which step of which scenario
    is on screen, in which flow, and the per-scenario answers that are
    cleared between scenarios. The navigation fields are specified by pure
    functions on `Nav` values; the class `Session` holds the fields the
    app updates in place and its methods are proved against those
    functions. */
module Session {
  import opened Wrappers

  /** Scenarios 1 to 5 run the steps in order; scenarios 6 to 10 run them
      in the order of `ReorderFlow`. */
  datatype Flow = Original | Reordered

  const ReorderFlow: seq<int> := [2, 5, 6, 3, 4, 7, 8, 9]
  const FirstStep: int := 1
  const LastStep: int := 9
  /** Where every scenario after the first one starts. */
  const ScenarioStartStep: int := 2
  /** The decision step, the one with the countdown. */
  const DecisionStep: int := 4
  const OriginalScenarios: int := 5
  const StudyScenarios: int := 10
  const TimerSeconds: int := 300

  /** The navigation fields: step, flow, scenario_count, new_step_index. */
  datatype Nav = Nav(step: int, flow: Flow, count: int, index: int)

  /** The flow scenario number `count` runs in. */
  function FlowFor(count: int): (f: Flow)
    ensures f == Original <==> count <= OriginalScenarios
  {
    if count <= OriginalScenarios then Original else Reordered
  }

  /** What navigation keeps true: the step is one of 1..9, the index points
      into the reordered flow, and in the reordered flow the step is the
      one the index names. */
  predicate ValidNav(n: Nav) {
    && FirstStep <= n.step <= LastStep
    && 0 <= n.index < |ReorderFlow|
    && n.count >= 1
    && n.flow == FlowFor(n.count)
    && (n.flow == Reordered ==> n.step == ReorderFlow[n.index])
    && (n.flow == Original ==> n.index == 0)
  }

  /** The state a new session starts in. */
  const InitialNav: Nav := Nav(FirstStep, FlowFor(1), 1, 0)

  /** The outcome of a navigation action: the new navigation fields,
      whether the current scenario was completed, and whether the study
      stopped (after the tenth scenario). */
  datatype Move = Move(nav: Nav, completed: bool, stopped: bool)

  /** next_step. */
  function NextNav(n: Nav): (m: Move)
    requires 0 <= n.index < |ReorderFlow|
    ensures m.stopped ==> m.completed
    ensures m.nav.count == if m.completed then n.count + 1 else n.count
  {
    if n.flow == Original then
      if n.step < LastStep then Move(n.(step := n.step + 1), false, false)
      else
        var count := n.count + 1;
        if count > OriginalScenarios then Move(Nav(ScenarioStartStep, Reordered, count, 0), true, false)
        else Move(n.(step := ScenarioStartStep, count := count), true, false)
    else if n.index < |ReorderFlow| - 1 then
      Move(n.(index := n.index + 1, step := ReorderFlow[n.index + 1]), false, false)
    else
      var count := n.count + 1;
      if count > StudyScenarios then Move(n.(count := count), true, true)
      else Move(n.(index := 0, step := ReorderFlow[0], count := count), true, false)
  }

  /** prev_step: one step back, and nothing at the first step of a flow. */
  function PrevNav(n: Nav): (p: Nav)
    requires 0 <= n.index < |ReorderFlow|
    ensures p.flow == n.flow && p.count == n.count
  {
    if n.flow == Original then
      if n.step > FirstStep then n.(step := n.step - 1) else n
    else if n.index > 0 then n.(index := n.index - 1, step := ReorderFlow[n.index - 1])
    else n
  }

  /** prev_step resets the countdown only when it moves back in the
      original flow. */
  predicate PrevResetsTimer(n: Nav) {
    n.flow == Original && n.step > FirstStep
  }

  /** The "Start New Scenario" button of the last step. */
  function StartNewNav(n: Nav): (m: Move)
    ensures m.completed && m.nav.count == n.count + 1
    ensures m.stopped <==> n.count + 1 > StudyScenarios
    ensures !m.stopped ==> m.nav.step == ScenarioStartStep && m.nav.flow == FlowFor(m.nav.count)
  {
    var count := n.count + 1;
    if count > StudyScenarios then Move(n.(count := count), true, true)
    else if count <= OriginalScenarios then Move(n.(count := count, flow := Original, step := ScenarioStartStep), true, false)
    else Move(n.(count := count, flow := Reordered, index := 0, step := ScenarioStartStep), true, false)
  }

  /** The reordered flow visits each of the steps 2..9 exactly once: its
      eight entries are distinct and are exactly those steps. */
  lemma ReorderFlowIsPermutation()
    ensures |ReorderFlow| == LastStep - ScenarioStartStep + 1
    ensures forall s :: s in ReorderFlow <==> ScenarioStartStep <= s <= LastStep
    ensures forall i, j :: 0 <= i < j < |ReorderFlow| ==> ReorderFlow[i] != ReorderFlow[j]
    ensures ReorderFlow[0] == ScenarioStartStep && ReorderFlow[|ReorderFlow| - 1] == LastStep
  {
    ReorderFlowSteps();
    forall i, j | 0 <= i < j < |ReorderFlow|
      ensures ReorderFlow[i] != ReorderFlow[j]
    {
      ReorderFlowDistinctAt(i, j);
    }
  }

  lemma ReorderFlowSteps()
    ensures forall s :: s in ReorderFlow <==> ScenarioStartStep <= s <= LastStep
  {
    forall s
      ensures s in ReorderFlow <==> ScenarioStartStep <= s <= LastStep
    {
      ReorderFlowHas(s);
    }
  }

  lemma ReorderFlowHas(s: int)
    ensures s in ReorderFlow <==> s == 2 || s == 3 || s == 4 || s == 5 || s == 6 || s == 7 || s == 8 || s == 9
  {
    if s in ReorderFlow {
      var i :| 0 <= i < |ReorderFlow| && ReorderFlow[i] == s;
      ReorderFlowAt(i);
    } else {
      assert ReorderFlow[0] == 2 && ReorderFlow[1] == 5 && ReorderFlow[2] == 6 && ReorderFlow[3] == 3;
      assert ReorderFlow[4] == 4 && ReorderFlow[5] == 7 && ReorderFlow[6] == 8 && ReorderFlow[7] == 9;
    }
  }

  /** The entry at each index of the reordered flow. */
  lemma ReorderFlowAt(i: int)
    requires 0 <= i < |ReorderFlow|
    ensures ReorderFlow[i] == (if i == 0 then 2 else if i <= 2 then i + 4 else if i <= 4 then i
                               else i + 2)
  {
  }

  lemma ReorderFlowDistinctAt(i: int, j: int)
    requires 0 <= i < j < |ReorderFlow|
    ensures ReorderFlow[i] != ReorderFlow[j]
  {
    ReorderFlowAt(i);
    ReorderFlowAt(j);
  }

  /** In the reordered flow the last step is reached exactly at the last
      index. */
  lemma LastStepIsLastIndex(n: Nav)
    requires ValidNav(n) && n.flow == Reordered
    ensures n.step == LastStep <==> n.index == |ReorderFlow| - 1
  {
    ReorderFlowAt(n.index);
  }

  /** A new session starts valid, at step 1 of scenario 1 in the original
      flow. */
  lemma InitialNavValid()
    ensures ValidNav(InitialNav)
    ensures InitialNav.step == FirstStep && InitialNav.count == 1 && InitialNav.flow == Original
  {
  }

  /** next_step keeps the navigation invariant, also when it stops the
      study. */
  lemma NextNavValid(n: Nav)
    requires ValidNav(n)
    ensures ValidNav(NextNav(n).nav)
  {
  }

  /** next_step completes the scenario exactly at the last step; the
      scenario count then grows by one, the study stops exactly when the
      count passes ten, and otherwise the next scenario starts at step 2 in
      the flow its number calls for. */
  lemma NextNavCompletesAtLastStep(n: Nav)
    requires ValidNav(n)
    ensures NextNav(n).completed <==> n.step == LastStep
    ensures NextNav(n).nav.count == n.count + (if n.step == LastStep then 1 else 0)
    ensures NextNav(n).stopped <==> n.step == LastStep && n.count + 1 > StudyScenarios
    ensures NextNav(n).completed && !NextNav(n).stopped ==>
              NextNav(n).nav.step == ScenarioStartStep && NextNav(n).nav.flow == FlowFor(n.count + 1)
    ensures NextNav(n).stopped ==> NextNav(n).nav == n.(count := n.count + 1)
  {
    if n.flow == Reordered {
      LastStepIsLastIndex(n);
    }
  }

  /** Within a scenario, the original flow moves to the next step number
      and the reordered flow to the next entry of `ReorderFlow`. */
  lemma NextNavWithinScenario(n: Nav)
    requires ValidNav(n) && n.step != LastStep
    ensures n.flow == Original ==> NextNav(n).nav.step == n.step + 1
    ensures n.flow == Reordered ==> NextNav(n).nav.index == n.index + 1
                                    && NextNav(n).nav.step == ReorderFlow[n.index + 1]
  {
    if n.flow == Reordered {
      LastStepIsLastIndex(n);
    }
  }

  /** prev_step keeps the navigation invariant. */
  lemma PrevNavValid(n: Nav)
    requires ValidNav(n)
    ensures ValidNav(PrevNav(n))
  {
  }

  /** prev_step undoes a next_step that stayed within the scenario. */
  lemma PrevUndoesNext(n: Nav)
    requires ValidNav(n) && !NextNav(n).completed
    ensures PrevNav(NextNav(n).nav) == n
  {
  }

  /** next_step undoes a prev_step that moved. */
  lemma NextUndoesPrev(n: Nav)
    requires ValidNav(n) && PrevNav(n) != n
    ensures !NextNav(PrevNav(n)).completed && NextNav(PrevNav(n)).nav == n
  {
  }

  /** At the last step, "Start New Scenario" and next_step move the same
      way, although each has its own code. */
  lemma StartNewAgreesWithNext(n: Nav)
    requires ValidNav(n) && n.step == LastStep
    ensures StartNewNav(n) == NextNav(n)
  {
    if n.flow == Reordered {
      LastStepIsLastIndex(n);
    }
  }

  /** "Start New Scenario" keeps the navigation invariant. */
  lemma StartNewNavValid(n: Nav)
    requires ValidNav(n)
    ensures ValidNav(StartNewNav(n).nav)
  {
  }

  /** When the decision countdown reaches zero the source moves to the
      step numbered one higher, whatever the flow. */
  function ExpiryNavAsWritten(n: Nav): (e: Nav)
    ensures e.step == n.step + 1 && e.index == n.index && e.flow == n.flow && e.count == n.count
  {
    n.(step := n.step + 1)
  }

  /** In the reordered flow the decision step 4 is followed by step 7, but
      the expiry moves to step 5 and leaves the index at 4: the step and
      the index no longer agree, and the next "Next" shows step 7 after a
      second visit to step 5. */
  lemma ExpiryAsWrittenBreaksReorderedFlow()
    ensures ValidNav(Nav(DecisionStep, Reordered, 6, 4))
    ensures !ValidNav(ExpiryNavAsWritten(Nav(DecisionStep, Reordered, 6, 4)))
    ensures NextNav(Nav(DecisionStep, Reordered, 6, 4)).nav.step == 7
  {
  }

  /** The expiry moved with next_step instead: it stays valid, goes to the
      step after the decision step in either flow, and in the original
      flow it is exactly the expiry as written. */
  lemma ExpiryFollowsFlow(n: Nav)
    requires ValidNav(n) && n.step == DecisionStep
    ensures ValidNav(NextNav(n).nav) && !NextNav(n).completed
    ensures NextNav(n).nav.step == (if n.flow == Original then 5 else 7)
    ensures n.flow == Original ==> NextNav(n).nav == ExpiryNavAsWritten(n)
  {
    if n.flow == Reordered {
      ReorderFlowAt(n.index);
    }
  }

  /** The answers and flags of one scenario, cleared by
      reset_scenario_states. */
  datatype ScenarioData = ScenarioData(
    scenario: Option<map<string, string>>,
    userDecision: Option<string>,
    modelPredictionLabel: Option<string>,
    overrideReason: Option<string>,
    confirmationFeedback: Option<string>,
    feedbackShared: bool,
    startTime: Option<real>,
    decisionTime: Option<real>,
    submittedDecision: bool,
    submittedFeedback: bool,
    scenarioGenerated: bool,
    modelGenerated: bool,
    revealedReasoning: bool,
    rawModelPrediction: Option<int>)

  const Cleared: ScenarioData :=
    ScenarioData(None, None, None, None, None, false, None, None, false, false, false, false, false, None)

  const TimeoutDecision: string := "No Decision - Time Expired"

  /** st.session_state, restricted to the fields navigation reads or
      writes. */
  class Session {
    var step: int
    var flow: Flow
    var scenarioCount: int
    var newStepIndex: int
    var data: ScenarioData
    var timeRemaining: int
    var timerActive: bool
    /** When the countdown was started (time.time()), None after a reset. */
    var start: Option<real>

    function NavState(): Nav
      reads this
    {
      Nav(step, flow, scenarioCount, newStepIndex)
    }

    predicate Valid()
      reads this
    {
      ValidNav(NavState())
    }

    /** The first run of the script; `now` is time.time(). */
    constructor (now: real)
      ensures Valid()
      ensures NavState() == InitialNav
      ensures data == Cleared
      ensures timeRemaining == TimerSeconds && !timerActive && start == Some(now)
    {
      step := FirstStep;
      data := Cleared;
      var count := 1;
      scenarioCount := count;
      if count <= OriginalScenarios {
        flow := Original;
      } else {
        flow := Reordered;
      }
      newStepIndex := 0;
      timeRemaining := TimerSeconds;
      timerActive := false;
      start := Some(now);
    }

    /** reset_scenario_states: clears the scenario's answers and the
        countdown, and leaves the navigation alone. */
    method ResetScenarioStates()
      modifies this
      ensures NavState() == old(NavState())
      ensures data == Cleared
      ensures timeRemaining == TimerSeconds && !timerActive && start == None
    {
      data := Cleared;
      timeRemaining := TimerSeconds;
      timerActive := false;
      start := None;
    }

    /** next_step. `stopped` is the st.stop() after the tenth scenario:
        the count has grown and nothing else changed. A completed scenario
        that does not stop clears the scenario state. */
    method NextStep() returns (stopped: bool)
      requires Valid()
      modifies this
      ensures Valid()
      ensures NavState() == NextNav(old(NavState())).nav
      ensures stopped == NextNav(old(NavState())).stopped
      ensures NextNav(old(NavState())).completed && !stopped ==>
                data == Cleared && timeRemaining == TimerSeconds && !timerActive && start == None
      ensures !NextNav(old(NavState())).completed || stopped ==>
                data == old(data) && timeRemaining == old(timeRemaining)
                && timerActive == old(timerActive) && start == old(start)
    {
      NextNavValid(NavState());
      stopped := false;
      if flow == Original {
        if step < LastStep {
          step := step + 1;
        } else {
          scenarioCount := scenarioCount + 1;
          if scenarioCount > OriginalScenarios {
            flow := Reordered;
            newStepIndex := 0;
            step := ScenarioStartStep;
          } else {
            step := ScenarioStartStep;
          }
          ResetScenarioStates();
        }
      } else {
        var reorderFlow := ReorderFlow;
        if newStepIndex < |reorderFlow| - 1 {
          newStepIndex := newStepIndex + 1;
          step := reorderFlow[newStepIndex];
        } else {
          scenarioCount := scenarioCount + 1;
          if scenarioCount > StudyScenarios {
            stopped := true;
            return;
          }
          newStepIndex := 0;
          step := reorderFlow[0];
          ResetScenarioStates();
        }
      }
    }

    /** prev_step: in the original flow a step back also resets the
        countdown; in the reordered flow it does not. */
    method PrevStep()
      requires Valid()
      modifies this
      ensures Valid()
      ensures NavState() == PrevNav(old(NavState()))
      ensures data == old(data) && start == old(start)
      ensures PrevResetsTimer(old(NavState())) ==> timeRemaining == TimerSeconds && !timerActive
      ensures !PrevResetsTimer(old(NavState())) ==>
                timeRemaining == old(timeRemaining) && timerActive == old(timerActive)
    {
      PrevNavValid(NavState());
      if flow == Original {
        if step > FirstStep {
          step := step - 1;
          timerActive := false;
          timeRemaining := TimerSeconds;
        }
      } else {
        var reorderFlow := ReorderFlow;
        if newStepIndex > 0 {
          newStepIndex := newStepIndex - 1;
          step := reorderFlow[newStepIndex];
        }
      }
    }

    /** The "Start New Scenario" button on the last step. */
    method StartNewScenario() returns (stopped: bool)
      requires Valid()
      modifies this
      ensures Valid()
      ensures NavState() == StartNewNav(old(NavState())).nav
      ensures stopped == StartNewNav(old(NavState())).stopped
      ensures !stopped ==> data == Cleared && timeRemaining == TimerSeconds && !timerActive && start == None
      ensures stopped ==> data == old(data) && timeRemaining == old(timeRemaining)
                          && timerActive == old(timerActive) && start == old(start)
    {
      StartNewNavValid(NavState());
      scenarioCount := scenarioCount + 1;
      if scenarioCount > StudyScenarios {
        stopped := true;
        return;
      }
      stopped := false;
      if scenarioCount <= OriginalScenarios {
        flow := Original;
      } else {
        flow := Reordered;
        newStepIndex := 0;
      }
      step := ScenarioStartStep;
      ResetScenarioStates();
    }

    /** Rendering the decision step: an idle countdown is armed with the
        full five minutes and stamped with `now` (time.time()); a running
        one is left as it is. */
    method EnterDecisionStep(now: real)
      requires Valid() && step == DecisionStep
      modifies this
      ensures Valid() && timerActive
      ensures NavState() == old(NavState()) && data == old(data)
      ensures !old(timerActive) ==> timeRemaining == TimerSeconds && start == Some(now)
      ensures old(timerActive) ==> timeRemaining == old(timeRemaining) && start == old(start)
    {
      if !timerActive {
        timeRemaining := TimerSeconds;
        timerActive := true;
        start := Some(now);
      }
    }

    /** The "Submit Decision" button, shown while time remains: records the
        chosen decision and the seconds left on the countdown (the full five
        minutes when no start time is known, which then becomes `now`), and
        stops the countdown. */
    method SubmitDecision(choice: string, now: real)
      requires Valid() && step == DecisionStep && timeRemaining > 0
      modifies this
      ensures Valid() && !timerActive && timeRemaining == old(timeRemaining)
      ensures NavState() == old(NavState())
      ensures data == old(data).(userDecision := Some(choice), submittedDecision := true,
                                 decisionTime := data.decisionTime)
      ensures old(start).Some? ==>
                start == old(start) && data.decisionTime == Some(TimerSeconds as real - (now - old(start).value))
      ensures old(start).None? ==> start == Some(now) && data.decisionTime == Some(TimerSeconds as real)
      ensures old(start).Some? && old(start).value <= now ==> data.decisionTime.value <= TimerSeconds as real
    {
      data := data.(userDecision := Some(choice));
      if start.Some? {
        data := data.(decisionTime := Some(TimerSeconds as real - (now - start.value)));
      } else {
        start := Some(now);
        data := data.(decisionTime := Some(TimerSeconds as real));
      }
      data := data.(submittedDecision := true);
      timerActive := false;
    }

    /** One second of the decision step's countdown. When it reaches zero
        an unanswered decision is recorded as expired, and the session
        moves on along its flow (the source adds one to the step number
        instead; see `ExpiryNavAsWritten`). */
    method TickDecisionTimer()
      requires Valid() && step == DecisionStep
      modifies this
      ensures Valid()
      ensures old(timerActive) && old(timeRemaining) > 0 ==> timeRemaining == old(timeRemaining) - 1
      ensures old(timerActive) && old(timeRemaining) == 1 ==>
                NavState() == NextNav(old(NavState())).nav && data.submittedDecision
      ensures old(timerActive) && old(timeRemaining) == 1 && !old(data).submittedDecision ==>
                !timerActive && data == old(data).(userDecision := Some(TimeoutDecision),
                                                   decisionTime := Some(TimerSeconds as real),
                                                   submittedDecision := true)
      ensures !(old(timerActive) && old(timeRemaining) == 1) ==> NavState() == old(NavState())
      ensures !(old(timerActive) && old(timeRemaining) > 0) ==>
                timeRemaining == old(timeRemaining) && data == old(data) && timerActive == old(timerActive)
      ensures old(timerActive) && old(timeRemaining) > 1 ==> data == old(data) && timerActive
      ensures old(timerActive) && old(timeRemaining) == 1 && old(data).submittedDecision ==>
                data == old(data) && timerActive
      ensures start == old(start)
    {
      if timerActive && timeRemaining > 0 {
        timeRemaining := timeRemaining - 1;
        if timeRemaining == 0 {
          if !data.submittedDecision {
            data := data.(userDecision := Some(TimeoutDecision), decisionTime := Some(TimerSeconds as real));
            data := data.(submittedDecision := true);
            timerActive := false;
          }
          ExpiryFollowsFlow(NavState());
          var stopped := NextStep();
        }
      }
    }
  }
}
