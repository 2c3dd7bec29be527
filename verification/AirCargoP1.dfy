/** Scenario P1 as a concrete fixture: two cargos, two planes, two airports
    (JFK and SFO); C1 and P1 start at SFO, C2 and P2 at JFK; the goal is C1 at
    JFK and C2 at SFO. */
module AirCargoP1 {
  import opened Fluents
  import opened StateCodec
  import opened SchemaGrounder
  import opened AirCargo
  import opened TransitionModel
  import opened HeuristicBank

  function P1(): AirCargoProblem
  {
    AirCargoProblem(
      ["C1", "C2"], ["P1", "P2"], ["JFK", "SFO"],
      FluentState(
        [At("C1", "SFO"), At("C2", "JFK"), At("P1", "SFO"), At("P2", "JFK")],
        [At("C1", "JFK"), At("C2", "SFO"), At("P1", "JFK"), At("P2", "SFO"),
         In("C1", "P1"), In("C1", "P2"), In("C2", "P1"), In("C2", "P2")]),
      [At("C1", "JFK"), At("C2", "SFO")])
  }

  /** The six-step plan: carry C1 to JFK with P1, then C2 to SFO with P2. */
  function Plan(): seq<Action>
  {
    [LoadAction("C1", "P1", "SFO"), FlyAction("P1", "SFO", "JFK"), UnloadAction("C1", "P1", "JFK"),
     LoadAction("C2", "P2", "JFK"), FlyAction("P2", "JFK", "SFO"), UnloadAction("C2", "P2", "SFO")]
  }

  // The states the plan passes through. Vocabulary order:
  // At(C1,SFO) At(C2,JFK) At(P1,SFO) At(P2,JFK) At(C1,JFK) At(C2,SFO)
  // At(P1,JFK) At(P2,SFO) In(C1,P1) In(C1,P2) In(C2,P1) In(C2,P2)
  const S0: State := [true, true, true, true, false, false, false, false, false, false, false, false]
  const S1: State := [false, true, true, true, false, false, false, false, true, false, false, false]
  const S2: State := [false, true, false, true, false, false, true, false, true, false, false, false]
  const S3: State := [false, true, false, true, true, false, true, false, false, false, false, false]
  const S4: State := [false, false, false, true, true, false, true, false, false, false, false, true]
  const S5: State := [false, false, false, false, true, false, true, true, false, false, false, true]
  const S6: State := [false, false, false, false, true, true, true, true, false, false, false, false]

  /** The states the plan passes through, in order. */
  function Trace(): seq<State>
  {
    [S0, S1, S2, S3, S4, S5, S6]
  }

  /** P1's initial positive and negative lists share no fluent. */
  lemma InitialDisjoint()
    ensures Elems(P1().initial.pos) !! Elems(P1().initial.neg)
  {
  }

  /** The twelve tracked fluents are pairwise distinct. */
  lemma VocabularyNoDup()
    ensures NoDup(StateMap(P1()))
  {
    InitialDisjoint();
    NoDupAppend(P1().initial.pos, P1().initial.neg);
  }

  /** P1 grounds 8 loads, 8 unloads and 4 flights. */
  lemma P1GroundingSize()
    ensures |ActionsList(P1())| == 20
  {
    ActionsListSize(P1());
  }

  /** A six-step plan whose every step is accepted runs to its last state. */
  lemma RunSix(prob: AirCargoProblem, plan: seq<Action>,
               s0: State, s1: State, s2: State, s3: State, s4: State, s5: State, s6: State)
    requires |plan| == 6
    requires IsState(prob, s0) && IsState(prob, s1) && IsState(prob, s2) && IsState(prob, s3)
    requires IsState(prob, s4) && IsState(prob, s5) && IsState(prob, s6)
    requires Result(prob, s0, plan[0]) == Ok(s1) && Result(prob, s1, plan[1]) == Ok(s2)
    requires Result(prob, s2, plan[2]) == Ok(s3) && Result(prob, s3, plan[3]) == Ok(s4)
    requires Result(prob, s4, plan[4]) == Ok(s5) && Result(prob, s5, plan[5]) == Ok(s6)
    ensures Run(prob, s0, plan) == Ok(s6)
  {
    RunStep(prob, s5, plan[5..], s6);
    RunStep(prob, s4, plan[4..], s5);
    RunStep(prob, s3, plan[3..], s4);
    RunStep(prob, s2, plan[2..], s3);
    RunStep(prob, s1, plan[1..], s2);
    RunStep(prob, s0, plan, s1);
  }
}

/** Concrete facts about scenario P1: its grounding size, initial state and
    heuristic values, and a six-step plan that solves it. */
module AirCargoP1Facts {
  import opened Fluents
  import opened StateCodec
  import opened SchemaGrounder
  import opened AirCargo
  import opened TransitionModel
  import opened HeuristicBank
  import opened AirCargoP1

  /** P1's initial state is a block of four trues followed by a block of eight falses. */
  lemma InitialBlocks()
    ensures InitialState(P1()) == seq(4, _ => true) + seq(8, _ => false)
  {
    InitialDisjoint();
    InitialStateShape(P1());
  }

  /** Those two blocks spell out `S0`. */
  lemma BlocksAreS0()
    ensures seq(4, _ => true) + seq(8, _ => false) == S0
  {
  }

  /** The initial state marks the four initial positives true. */
  lemma P1InitialState()
    ensures InitialState(P1()) == S0
  {
    InitialBlocks();
    BlocksAreS0();
  }

  /** The initial state decodes to the initial world description. */
  lemma P1InitialDecodes()
    ensures Decode(S0, StateMap(P1())) == P1().initial
  {
    P1InitialState();
    InitialDisjoint();
    InitialStateShape(P1());
  }

  /** Both goal fluents start out false, so the unmet-goal count is 2. */
  lemma P1InitialUnmetGoals()
    ensures HIgnorePreconditions(P1(), InitialState(P1())) == 2
  {
    P1InitialState();
    UnmetGoalsOnS0();
  }

  /** The unmet-goal count on `S0` is 2. */
  lemma UnmetGoalsOnS0()
    ensures HIgnorePreconditions(P1(), S0) == 2
  {
    P1InitialDecodes();
    InitialUnmetSet();
    GoalFluentsDistinct();
  }

  /** P1's two goal fluents are different. */
  lemma GoalFluentsDistinct()
    ensures |{At("C1", "JFK"), At("C2", "SFO")}| == 2
  {
  }

  /** The goal fluents P1 initially lists as negative are exactly its two goal fluents. */
  lemma InitialUnmetSet()
    ensures Elems(P1().initial.neg) * Elems(P1().goal) == {At("C1", "JFK"), At("C2", "SFO")}
  {
  }

  /** Every state the plan passes through before its last step leaves C2 away
      from SFO, so none of them is a goal state. */
  lemma NotGoalBeforeLastStep(k: int)
    requires 0 <= k < 6
    ensures !GoalTest(P1(), Trace()[k])
  {
    VocabularyNoDup();
    NotGoalIfUnset(P1(), Trace()[k], 5);
  }

  /** The goal test fails on the initial state. */
  lemma P1InitialNotGoal()
    ensures !GoalTest(P1(), InitialState(P1()))
  {
    P1InitialState();
    NotGoalBeforeLastStep(0);
  }

  /** The position-by-position successor of `S0` under step 0 of the plan is `S1`. */
  lemma Successor0()
    ensures Successor(StateMap(P1()), S0, Plan()[0]) == S1
  {
  }

  /** Step 0 of the plan is accepted in `S0` and leads to `S1`. */
  lemma Step0()
    ensures Result(P1(), S0, Plan()[0]) == Ok(S1)
  {
    VocabularyNoDup();
    PermissibleIfSet(P1(), Plan()[0], S0, 0, 2);
    Successor0();
    ResultOfInstance(P1(), S0, Load, "C1", "P1", "SFO");
  }

  /** The position-by-position successor of `S1` under step 1 of the plan is `S2`. */
  lemma Successor1()
    ensures Successor(StateMap(P1()), S1, Plan()[1]) == S2
  {
  }

  /** Step 1 of the plan is accepted in `S1` and leads to `S2`. */
  lemma Step1()
    ensures Result(P1(), S1, Plan()[1]) == Ok(S2)
  {
    VocabularyNoDup();
    PermissibleIfSet(P1(), Plan()[1], S1, 2, 2);
    Successor1();
    ResultOfInstance(P1(), S1, Fly, "P1", "SFO", "JFK");
  }

  /** The position-by-position successor of `S2` under step 2 of the plan is `S3`. */
  lemma Successor2()
    ensures Successor(StateMap(P1()), S2, Plan()[2]) == S3
  {
  }

  /** Step 2 of the plan is accepted in `S2` and leads to `S3`. */
  lemma Step2()
    ensures Result(P1(), S2, Plan()[2]) == Ok(S3)
  {
    VocabularyNoDup();
    PermissibleIfSet(P1(), Plan()[2], S2, 6, 8);
    Successor2();
    ResultOfInstance(P1(), S2, Unload, "C1", "P1", "JFK");
  }

  /** The position-by-position successor of `S3` under step 3 of the plan is `S4`. */
  lemma Successor3()
    ensures Successor(StateMap(P1()), S3, Plan()[3]) == S4
  {
  }

  /** Step 3 of the plan is accepted in `S3` and leads to `S4`. */
  lemma Step3()
    ensures Result(P1(), S3, Plan()[3]) == Ok(S4)
  {
    VocabularyNoDup();
    PermissibleIfSet(P1(), Plan()[3], S3, 1, 3);
    Successor3();
    ResultOfInstance(P1(), S3, Load, "C2", "P2", "JFK");
  }

  /** The position-by-position successor of `S4` under step 4 of the plan is `S5`. */
  lemma Successor4()
    ensures Successor(StateMap(P1()), S4, Plan()[4]) == S5
  {
  }

  /** Step 4 of the plan is accepted in `S4` and leads to `S5`. */
  lemma Step4()
    ensures Result(P1(), S4, Plan()[4]) == Ok(S5)
  {
    VocabularyNoDup();
    PermissibleIfSet(P1(), Plan()[4], S4, 3, 3);
    Successor4();
    ResultOfInstance(P1(), S4, Fly, "P2", "JFK", "SFO");
  }

  /** The position-by-position successor of `S5` under step 5 of the plan is `S6`. */
  lemma Successor5()
    ensures Successor(StateMap(P1()), S5, Plan()[5]) == S6
  {
  }

  /** The last step of the plan is permissible in `S5`. */
  lemma Permissible5()
    ensures Permissible(P1(), Plan()[5], S5)
  {
    PermissibleIfSet(P1(), Plan()[5], S5, 7, 11);
  }

  /** Step 5 of the plan is accepted in `S5` and leads to `S6`. */
  lemma Step5()
    ensures Result(P1(), S5, Plan()[5]) == Ok(S6)
  {
    VocabularyNoDup();
    Permissible5();
    Successor5();
    ResultOfInstance(P1(), S5, Unload, "C2", "P2", "SFO");
  }

  /** The six-step plan drives P1's initial state to S6. */
  lemma P1PlanRuns()
    ensures Run(P1(), InitialState(P1()), Plan()) == Ok(S6)
  {
    P1InitialState();
    Step0(); Step1(); Step2(); Step3(); Step4(); Step5();
    RunSix(P1(), Plan(), S0, S1, S2, S3, S4, S5, S6);
  }

  /** C1 and C2 are at their destinations in the state the plan reaches. */
  lemma S6IsGoal()
    ensures GoalTest(P1(), S6)
  {
    GoalIfSet(P1(), S6, 4, 5);
  }

  /** The state the plan reaches is a goal state. */
  lemma P1PlanReachesGoal()
    ensures Run(P1(), InitialState(P1()), Plan()) == Ok(S6)
    ensures GoalTest(P1(), S6)
  {
    P1PlanRuns();
    S6IsGoal();
  }

  /** The unmet-goal count is 0 on the state the plan reaches. */
  lemma S6NoUnmetGoals()
    ensures HIgnorePreconditions(P1(), S6) == 0
  {
    S6IsGoal();
    VocabularyNoDup();
    GoalNoUnmet(P1(), S6);
  }

  /** The constant heuristic is not admissible: it charges one step on the goal
      state the plan reaches, where no step is needed. */
  lemma H1OverestimatesAtGoal()
    ensures GoalTest(P1(), S6) && H1(S6) > HIgnorePreconditions(P1(), S6)
  {
    S6IsGoal();
    S6NoUnmetGoals();
  }
}
