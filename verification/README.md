# Air-cargo planning problem, modelled in Dafny

This project models the air-cargo STRIPS problem of `my_air_cargo_problems.py`
as a deterministic state machine over boolean vectors, and proves properties of
that machine.

A scenario lists its cargos, planes and airports. It also gives an initial world
description, made of the fluents that hold and the fluents that do not, and a
list of goal fluents. A fluent is `At(thing, airport)` or `In(cargo, plane)`.

The model covers:

- **Vocabulary and initial state** (`AirCargo.StateMap`, `AirCargo.InitialState`).
  The vocabulary is the initial positive list followed by the initial negative
  list. A state is one truth value per vocabulary entry.
- **Encoding and decoding** (`StateCodec`). Encoding marks a vocabulary position
  true exactly when its fluent is in the positive list. Decoding splits the
  vocabulary into the fluents whose position is true and those whose position is
  false.
- **Schema grounding** (`SchemaGrounder`). Load and Unload are expanded over
  airports, then planes, then cargos. Fly is expanded over origin, destination
  and plane, skipping equal origin and destination. The result is one list:
  loads, then unloads, then flights.
- **Transitions** (`AirCargo.Actions`, `AirCargo.Result`). `Actions` keeps the
  grounded actions whose positive preconditions are all decoded-positive and
  whose negative preconditions are all decoded-negative. `Result` accepts an
  action when its name and arguments match those of an enabled action. It then
  removes the action's deleted fluents from the positive list and appends its
  added ones. Symmetrically, it removes the added fluents from the negative list
  and appends the deleted ones. Finally it re-encodes. Any other action is
  rejected.
- **Goal test and heuristics** (`AirCargo.GoalTest`, `AirCargo.H1`,
  `AirCargo.HIgnorePreconditions`). The goal test asks that every goal fluent be
  decoded-positive. `H1` is the constant 1. `HIgnorePreconditions` counts the
  distinct goal fluents that are decoded-negative.
- **Scenario P1** (`AirCargoP1`, `AirCargoP1Facts`). This is a concrete fixture
  with facts about its grounding, its initial state, its heuristic values and a
  six-step plan that solves it.

The first four modules follow the parts of the program. The others collect
properties and the fixture:

| module | role |
|---|---|
| `Fluents` | fluents and list helpers |
| `StateCodec` | the vector encoding that the problem class relies on |
| `SchemaGrounder` | `get_actions` |
| `AirCargo` | the problem class: vocabulary, `actions`, `result`, `goal_test`, heuristics |
| `TransitionModel` | lemmas about the initial state and `result` |
| `HeuristicBank` | lemmas about `goal_test` and the heuristics |
| `AirCargoP1` / `AirCargoP1Facts` | the `air_cargo_p1` scenario and facts about it |

Two places where the program's stated intent and its code differ; the model
follows the code:

- **Acceptance in `result`.** The docstring of `result`
  (my_air_cargo_problems.py:139-141) says the action must be one of
  `self.actions(state)`. The code instead compares the action's name and
  arguments, as strings, with those of the enabled actions
  (my_air_cargo_problems.py:147-151). It then applies the effects of the action
  it was given (my_air_cargo_problems.py:152-153). `AirCargo.Result` does the
  same. `TransitionModel.ResultIffPermissible` shows that, for grounded actions,
  this is the same as asking for an enabled action.
- **Unchecked initial description.** Encoding does no coverage check: a
  vocabulary position whose fluent is in neither list is encoded false. The
  constructor (my_air_cargo_problems.py:30-31) does not check that the initial
  positive and negative lists are disjoint. Disjointness appears as a
  precondition of the lemmas that need it (`TransitionModel.InitialStateShape`),
  not as an error outcome.

## Model

| member | source | states |
|---|---|---|
| `StateCodec.Encode` | my_air_cargo_problems.py:31 | The vector has one entry per vocabulary fluent, and entry i is true exactly when fluent i is in the positive list. |
| `StateCodec.Decode` | my_air_cargo_problems.py:149 | The two lists together are as long as the vocabulary. A fluent is decoded-positive exactly when some position holding it is set, and decoded-negative exactly when some position holding it is clear. |
| `StateCodec.DecodePartitions` | my_air_cargo_problems.py:149 | On a duplicate-free vocabulary, decoding yields a disjoint partition that covers the vocabulary. |
| `StateCodec.EncodeDecode` | my_air_cargo_problems.py:149-161 | Re-encoding a decoded state gives back the same vector. |
| `StateCodec.DecodeEncode` | my_air_cargo_problems.py:30-31 | When the positive and negative lists partition the vocabulary, decoding the encoding gives back the same two fluent sets. |
| `StateCodec.DecodeEncodeLists` | my_air_cargo_problems.py:30-31 | Decoding an encoding gives exactly the vocabulary entries in the positive list, and exactly those outside it, each in vocabulary order. |
| `StateCodec.InitialEncoding` | my_air_cargo_problems.py:30-31 | For disjoint initial lists, the initial vector is a block of trues followed by a block of falses, and it decodes to the initial description itself. |
| `StateCodec.HoldsCons` | my_air_cargo_problems.py:149 | Whether a fluent holds or fails splits into the first position and the rest of the vector. |
| `StateCodec.HoldsAt` | my_air_cargo_problems.py:149 | On a duplicate-free vocabulary, fluent i holds exactly when bit i is set and fails exactly when it is clear. |
| `StateCodec.DecodeAt` | my_air_cargo_problems.py:149 | On a duplicate-free vocabulary, fluent i is decoded-positive exactly when bit i is set and decoded-negative exactly when it is clear. |
| `SchemaGrounder.LoadAction` | my_air_cargo_problems.py:66-72 | Definition, no contract: Load(c, p, a) needs At(p, a) and At(c, a), adds In(c, p) and removes At(c, a). |
| `SchemaGrounder.UnloadAction` | my_air_cargo_problems.py:85-91 | Definition, no contract: Unload(c, p, a) needs At(p, a) and In(c, p), adds At(c, a) and removes In(c, p). |
| `SchemaGrounder.FlyAction` | my_air_cargo_problems.py:105-112 | Definition, no contract: Fly(p, fr, to) needs At(p, fr), adds At(p, to) and removes At(p, fr). |
| `SchemaGrounder.OverCargos` | my_air_cargo_problems.py:65-72 | The innermost loop yields one action per cargo, and exactly the schema instances for those cargos. |
| `SchemaGrounder.OverPlanes` | my_air_cargo_problems.py:64-72 | The plane loop yields planes × cargos actions, and exactly the instances over those planes and cargos. |
| `SchemaGrounder.OverAirports` | my_air_cargo_problems.py:57-93 | Load and Unload grounding yields airports × planes × cargos actions, and exactly the schema instances over the scenario's objects. |
| `SchemaGrounder.FlyOverPlanes` | my_air_cargo_problems.py:104-113 | One flight per plane on a fixed leg, and exactly those flights. |
| `SchemaGrounder.FlyOverDestinations` | my_air_cargo_problems.py:102-113 | For a fixed origin, the count is planes × (destinations other than the origin), and the result is exactly the flights to a different airport. |
| `SchemaGrounder.FlyOverOrigins` | my_air_cargo_problems.py:95-114 | Fly grounding yields exactly the flights of a listed plane between two different listed airports. It never yields a flight whose origin equals its destination. |
| `SchemaGrounder.LoadActions` | my_air_cargo_problems.py:57-74 | Definition, no contract: the Load grounding loop. Its size is stated by `SchemaGrounder.GroundingCount`. |
| `SchemaGrounder.UnloadActions` | my_air_cargo_problems.py:76-93 | Definition, no contract: the Unload grounding loop. Its size is stated by `SchemaGrounder.GroundingCount`. |
| `SchemaGrounder.FlyActions` | my_air_cargo_problems.py:95-114 | Definition, no contract: the Fly grounding loop, every airport as origin. Its size is stated by `SchemaGrounder.GroundingCount`. |
| `SchemaGrounder.GetActions` | my_air_cargo_problems.py:38-116 | The grounded list holds exactly the Load, Unload and Fly instances over the scenario's objects. Every entry matches its schema, adds one fluent, has no negative precondition and adds nothing it removes. Every flight has distinct endpoints. |
| `SchemaGrounder.InstanceGrounded` | my_air_cargo_problems.py:57-116 | Completeness: every schema instance whose arguments come from the scenario's lists is in the grounded list. |
| `SchemaGrounder.KeyDeterminesAction` | my_air_cargo_problems.py:147-148 | Two schema instances with the same name and arguments are the same action. So comparing name and argument strings amounts to comparing actions. |
| `SchemaGrounder.FlyOverOriginsCount` | my_air_cargo_problems.py:95-114 | Over duplicate-free airports, each origin is flown to each of the other airports by every plane. |
| `SchemaGrounder.GroundingCount` | my_air_cargo_problems.py:57-116 | There are A·P·C loads and A·P·C unloads, and P·A·(A−1) flights for distinct airports. The total is 2·C·P·A + P·A·(A−1). |
| `AirCargo.StateMap` | my_air_cargo_problems.py:30 | Definition, no contract: the initial positive list followed by the initial negative list. |
| `AirCargo.InitialState` | my_air_cargo_problems.py:30-31 | The initial state has one entry per vocabulary fluent. |
| `AirCargo.ActionsList` | my_air_cargo_problems.py:36 | Definition, no contract: the scenario's grounded actions. Its size is stated by `TransitionModel.ActionsListSize`. |
| `AirCargo.Permissible` | my_air_cargo_problems.py:119-126 | Definition, no contract: every positive precondition is decoded-positive and every negative precondition decoded-negative. Characterised by `TransitionModel.PermissibleIffPositions`. |
| `AirCargo.Enabled` | my_air_cargo_problems.py:119-135 | The filter result is an order-preserving subsequence of its input. It contains exactly the input actions that are permissible, each as many times as the input does. |
| `AirCargo.Actions` | my_air_cargo_problems.py:118-136 | The executable actions are an order-preserving subsequence of the grounded list. They are exactly its permissible entries, each as many times as the grounded list holds it. |
| `AirCargo.Keys` | my_air_cargo_problems.py:147 | One (name, arguments) key per action, at the same position. |
| `AirCargo.ApplyEffects` | my_air_cargo_problems.py:152-153 | The new positives are the old positives not removed, plus the added fluents. The new negatives are the old negatives not added, plus the removed fluents. |
| `AirCargo.Result` | my_air_cargo_problems.py:138-161 | A rejection reports the attempted action's name and arguments. A success is a state of the scenario. |
| `AirCargo.ResultAccepts` | my_air_cargo_problems.py:147-160 | `result` succeeds exactly when some permissible grounded action has the given action's name and arguments. Otherwise it fails. |
| `AirCargo.ResultPointwise` | my_air_cargo_problems.py:149-161 | On success, position i of the new state is set exactly when its fluent is added, or when it held before and is not removed. |
| `AirCargo.GoalTest` | my_air_cargo_problems.py:163-174 | The goal test passes exactly when every goal fluent holds in the state. |
| `AirCargo.H1` | my_air_cargo_problems.py:176-179 | Definition, no contract: the constant 1. `AirCargoP1Facts.H1OverestimatesAtGoal` shows it is not admissible. |
| `AirCargo.HIgnorePreconditions` | my_air_cargo_problems.py:193-204 | The unmet-goal count is at most the number of distinct goal fluents, which is at most the goal list's length. |
| `AirCargo.Run` | my_air_cargo_problems.py:138-161 | Applying a plan step by step yields a state of the scenario. A plan whose first action is rejected stops with that rejection. The empty plan leaves the state unchanged. |
| `Fluents.AllIn` | my_air_cargo_problems.py:171-174 | The early-exit membership loop is true exactly when every element of the first list occurs in the second. |
| `TransitionModel.ActionsListSize` | my_air_cargo_problems.py:36 | Over distinct airports, the scenario's action list has 2·C·P·A + P·A·(A−1) entries. |
| `TransitionModel.InitialStateShape` | my_air_cargo_problems.py:30-31 | For disjoint initial lists, the initial state is trues for the positive block and falses for the negative block, and it decodes to the initial description. |
| `TransitionModel.ResultIffPermissible` | my_air_cargo_problems.py:118-160 | For a grounded action, `result` succeeds exactly when the action is permissible, and exactly when it is among `actions(state)`. Applicability and rejection are dual. |
| `TransitionModel.ResultEffects` | my_air_cargo_problems.py:152-161 | After a grounded action succeeds, every added fluent holds and every removed fluent does not. The new state has one entry per vocabulary fluent. |
| `TransitionModel.ResultFrame` | my_air_cargo_problems.py:152-153 | Frame condition: a vocabulary fluent that the action neither adds nor removes keeps its truth value. |
| `TransitionModel.ResultTransition` | my_air_cargo_problems.py:149-161 | The decoded successor is the symmetric update of the decoded state. It is again a disjoint partition covering the vocabulary. |
| `TransitionModel.DecodeUpdate` | my_air_cargo_problems.py:152-153 | When a vector changes position by position by an add and a remove list, its decoded sets change by the same set update. |
| `TransitionModel.ResultAt` | my_air_cargo_problems.py:149-161 | On a duplicate-free vocabulary, bit i after success is set exactly when fluent i is added, or was set and is not removed. |
| `TransitionModel.ApplyEffectsPartitions` | my_air_cargo_problems.py:152-153 | The symmetric effect update keeps a partition of the vocabulary a partition, when the effects are tracked and disjoint. |
| `TransitionModel.ResultIsSuccessor` | my_air_cargo_problems.py:138-161 | A permissible grounded action takes the state to the position-by-position successor vector. |
| `TransitionModel.ResultOfInstance` | my_air_cargo_problems.py:57-161 | A permissible schema instance over the scenario's objects is accepted, and it yields the position-by-position successor. |
| `TransitionModel.PermissibleIffPositions` | my_air_cargo_problems.py:119-126 | An action is permissible exactly when every positive precondition is the fluent at some set position and every negative precondition the fluent at some clear position. |
| `TransitionModel.PermissibleIfSet` | my_air_cargo_problems.py:119-126 | The two-position case: an action without negative preconditions, each of whose positive preconditions is the fluent at one of two given set positions, is permissible. |
| `TransitionModel.RunStep` | my_air_cargo_problems.py:138-161 | Running a plan whose first action is accepted is running the rest of the plan from the successor. |
| `TransitionModel.RunChain` | my_air_cargo_problems.py:138-161 | If each step takes state k to state k+1, the whole plan runs from the first state to the last. |
| `HeuristicBank.GoalIffPositions` | my_air_cargo_problems.py:169-174 | The goal test passes exactly when every goal fluent is the fluent at some set position. |
| `HeuristicBank.GoalIfSet` | my_air_cargo_problems.py:169-174 | The two-position case: the goal test passes when each goal fluent is the fluent at one of two given set positions. |
| `HeuristicBank.NotGoalIfUnset` | my_air_cargo_problems.py:169-174 | On a duplicate-free vocabulary, a goal fluent at a clear position makes the goal test fail. |
| `HeuristicBank.HoldsNotFails` | my_air_cargo_problems.py:200 | On a duplicate-free vocabulary, a fluent that holds is not decoded-negative. |
| `HeuristicBank.GoalNoUnmet` | my_air_cargo_problems.py:169-204 | On a duplicate-free vocabulary, the unmet-goal count is 0 in every state that passes the goal test. |
| `HeuristicBank.HIgnoreZeroIffGoal` | my_air_cargo_problems.py:169-204 | When the vocabulary is duplicate-free and tracks every goal fluent, the unmet-goal count is 0 exactly when the goal test passes. |
| `HeuristicBank.HIgnoreStep` | my_air_cargo_problems.py:200-203 | One accepted grounded action lowers the unmet-goal count by at most one. |
| `HeuristicBank.HIgnoreAdmissible` | my_air_cargo_problems.py:194-204 | Admissibility: every plan of grounded actions that reaches a goal state has at least as many steps as the unmet-goal count. |
| `AirCargoP1.VocabularyNoDup` | my_air_cargo_problems.py:211-224 | P1's twelve tracked fluents are pairwise distinct. |
| `AirCargoP1.P1GroundingSize` | my_air_cargo_problems.py:207-229 | P1 grounds 20 actions: 8 loads, 8 unloads and 4 flights. |
| `AirCargoP1Facts.P1InitialState` | my_air_cargo_problems.py:207-229 | P1's initial state sets the four initial positives and clears the other eight. |
| `AirCargoP1Facts.P1InitialDecodes` | my_air_cargo_problems.py:207-229 | P1's initial state decodes to P1's initial description. |
| `AirCargoP1Facts.P1InitialUnmetGoals` | my_air_cargo_problems.py:193-229 | Both goal fluents of P1 start negative, so the unmet-goal count is 2 initially. |
| `AirCargoP1Facts.NotGoalBeforeLastStep` | my_air_cargo_problems.py:163-229 | No state before the last step of the plan is a goal state. |
| `AirCargoP1Facts.P1InitialNotGoal` | my_air_cargo_problems.py:163-229 | P1's initial state is not a goal state. |
| `AirCargoP1Facts.Step0` | my_air_cargo_problems.py:138-229 | Load(C1, P1, SFO) is accepted in the initial state and puts C1 in P1. |
| `AirCargoP1Facts.Step1` | my_air_cargo_problems.py:138-229 | Fly(P1, SFO, JFK) is then accepted and moves P1 to JFK. |
| `AirCargoP1Facts.Step2` | my_air_cargo_problems.py:138-229 | Unload(C1, P1, JFK) is then accepted and puts C1 at JFK. |
| `AirCargoP1Facts.Step3` | my_air_cargo_problems.py:138-229 | Load(C2, P2, JFK) is then accepted and puts C2 in P2. |
| `AirCargoP1Facts.Step4` | my_air_cargo_problems.py:138-229 | Fly(P2, JFK, SFO) is then accepted and moves P2 to SFO. |
| `AirCargoP1Facts.Step5` | my_air_cargo_problems.py:138-229 | Unload(C2, P2, SFO) is then accepted and puts C2 at SFO. |
| `AirCargoP1Facts.P1PlanRuns` | my_air_cargo_problems.py:138-229 | The six-step plan runs from P1's initial state to the final state without a rejection. |
| `AirCargoP1Facts.S6IsGoal` | my_air_cargo_problems.py:163-229 | The final state passes the goal test. |
| `AirCargoP1Facts.P1PlanReachesGoal` | my_air_cargo_problems.py:138-229 | The six-step plan takes P1's initial state to a goal state. |
| `AirCargoP1Facts.S6NoUnmetGoals` | my_air_cargo_problems.py:193-229 | The unmet-goal count is 0 at the final state. |
| `AirCargoP1Facts.H1OverestimatesAtGoal` | my_air_cargo_problems.py:176-179 | The constant heuristic is not admissible: it charges one step at a goal state, where the unmet-goal count is 0. |

## Left out

- `h_pg_levelsum` (my_air_cargo_problems.py:181-191) delegates to a planning graph. `my_planning_graph` is not part of this model.
- The `lru_cache` memoisation of the heuristics is not modelled. The heuristics are pure functions of the state.
- The search driver `run_search.py` is not modelled: command-line handling, timing, output and search algorithms. The `Problem`/`Node` base classes are external consumers and are not modelled either. `AirCargo.Run` stands in for a search applying `result` along a plan.
- The propositional knowledge base and `expr` parsing are replaced. Fluents form a datatype, and the goal test is plain membership of each goal fluent among the decoded positives. The differing string formats used for the same fluent parse to equal structures, so string comparisons of names and arguments become structural equality.
- `lp_utils` is not part of this model. Encoding and decoding are defined as described above: encoding marks a position true when its fluent is in the positive list, and decoding splits the vocabulary by the vector's values.
- The exception message text of `result` (my_air_cargo_problems.py:155-160) is not modelled. A rejection is the `InvalidAction` outcome carrying the attempted name and arguments.
- The scenario builders `air_cargo_p2` to `air_cargo_p4` are not modelled. They are data only, and too large for concrete lemmas.
- AirCargo.Result: requires a vector as long as the vocabulary, which any state the problem produces satisfies. What the code does on a vector of another length depends on `lp_utils`, which is not part of this model.
- AirCargo.H1: carries no contract of its own, because it is the constant 1. `AirCargoP1Facts.H1OverestimatesAtGoal` states what that constant means.
- StateCodec.Decode: requires a vector as long as the vocabulary, for the same reason as `AirCargo.Result`.
- Fluents.Without and Fluents.Keep: their contracts state membership only, not that the original order is kept. Order matters only for the vector positions, and those are stated by `StateCodec.DecodeEncodeLists` and the transition lemmas.
- Conditions the code never checks, namely coverage of the vocabulary by encoding and disjointness of the initial lists, are preconditions of the lemmas that need them rather than error outcomes.
