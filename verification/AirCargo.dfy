/** The air-cargo planning problem as a deterministic state machine: the tracked
    vocabulary and initial state, the enabled actions of a state, the successor
    state, the goal test and the two local heuristics. */
module AirCargo {
  import opened Fluents
  import opened StateCodec
  import opened SchemaGrounder

  /** A scenario: its objects, the initial world description and the goal fluents. */
  datatype AirCargoProblem = AirCargoProblem(
    cargos: seq<Name>,
    planes: seq<Name>,
    airports: seq<Name>,
    initial: FluentState,
    goal: seq<Fluent>)

  /** The outcome of applying an action: the successor state, or the rejection of an
      action whose name and arguments match no enabled action. */
  datatype Outcome = Ok(state: State) | InvalidAction(name: Op, args: seq<Name>)

  /** The tracked vocabulary: the initial positive fluents followed by the initial
      negative ones. */
  function StateMap(prob: AirCargoProblem): seq<Fluent>
  {
    prob.initial.pos + prob.initial.neg
  }

  /** The initial state: the initial world description encoded against the vocabulary. */
  function InitialState(prob: AirCargoProblem): (s: State)
    ensures |s| == |StateMap(prob)|
  {
    Encode(prob.initial, StateMap(prob))
  }

  /** The scenario's grounded actions, computed once at construction. */
  function ActionsList(prob: AirCargoProblem): seq<Action>
  {
    GetActions(prob.cargos, prob.planes, prob.airports)
  }

  /** A state of this scenario: one truth value per vocabulary entry. */
  predicate IsState(prob: AirCargoProblem, s: State)
  {
    |s| == |StateMap(prob)|
  }

  /** `a` may be executed in `s`: every positive precondition is among the decoded
      positive fluents and every negative precondition among the decoded negative
      ones (a fluent outside the vocabulary satisfies neither). */
  predicate Permissible(prob: AirCargoProblem, a: Action, s: State)
    requires IsState(prob, s)
  {
    var fs := Decode(s, StateMap(prob));
    (forall f :: f in a.precondPos ==> f in fs.pos) &&
    (forall f :: f in a.precondNeg ==> f in fs.neg)
  }

  /** The entries of `xs` permissible in `s`, in their original order. */
  function Enabled(prob: AirCargoProblem, s: State, xs: seq<Action>): (r: seq<Action>)
    requires IsState(prob, s)
    ensures IsSubsequence(r, xs)
    ensures forall a :: a in r <==> a in xs && Permissible(prob, a, s)
    ensures forall a :: multiset(r)[a] == if Permissible(prob, a, s) then multiset(xs)[a] else 0
  {
    if xs == [] then []
    else
      assert xs == [xs[0]] + xs[1..];
      if Permissible(prob, xs[0], s) then [xs[0]] + Enabled(prob, s, xs[1..])
      else Enabled(prob, s, xs[1..])
  }

  /** The actions executable in `s`: the grounded list filtered by permissibility. */
  function Actions(prob: AirCargoProblem, s: State): (r: seq<Action>)
    requires IsState(prob, s)
    ensures IsSubsequence(r, ActionsList(prob))
    ensures forall a :: a in r <==> a in ActionsList(prob) && Permissible(prob, a, s)
    ensures forall a :: multiset(r)[a] == if Permissible(prob, a, s) then multiset(ActionsList(prob))[a] else 0
  {
    Enabled(prob, s, ActionsList(prob))
  }

  /** The (name, arguments) key of each action in `xs`, in order. */
  function Keys(xs: seq<Action>): (r: seq<(Op, seq<Name>)>)
    ensures |r| == |xs|
    ensures forall i :: 0 <= i < |xs| ==> r[i] == (xs[i].name, xs[i].args)
  {
    if xs == [] then [] else [(xs[0].name, xs[0].args)] + Keys(xs[1..])
  }

  /** Applies `a`'s effects to both lists of a world description: removed fluents
      leave the positive list and join the negative one, added fluents leave the
      negative list and join the positive one. */
  function ApplyEffects(fs: FluentState, a: Action): (r: FluentState)
    ensures forall f :: f in r.pos <==> (f in fs.pos && f !in a.effectRem) || f in a.effectAdd
    ensures forall f :: f in r.neg <==> (f in fs.neg && f !in a.effectAdd) || f in a.effectRem
  {
    FluentState(Without(fs.pos, a.effectRem) + a.effectAdd, Without(fs.neg, a.effectAdd) + a.effectRem)
  }

  /** The successor of `s` under `a`. The action is accepted when its name and
      arguments are those of some enabled action; the effects applied are then
      those of `a` itself. Otherwise the action is rejected. */
  function Result(prob: AirCargoProblem, s: State, a: Action): (r: Outcome)
    requires IsState(prob, s)
    ensures r.InvalidAction? ==> r.name == a.name && r.args == a.args
    ensures r.Ok? ==> IsState(prob, r.state)
  {
    var enabled := Actions(prob, s);
    if (a.name, a.args) in Keys(enabled) then
      Ok(Encode(ApplyEffects(Decode(s, StateMap(prob)), a), StateMap(prob)))
    else
      InvalidAction(a.name, a.args)
  }

  /** `Result` accepts `a` exactly when some grounded action with `a`'s name and
      arguments is permissible in `s`. */
  lemma ResultAccepts(prob: AirCargoProblem, s: State, a: Action)
    requires IsState(prob, s)
    ensures Result(prob, s, a).Ok? <==>
      exists e :: e in ActionsList(prob) && Permissible(prob, e, s) && e.name == a.name && e.args == a.args
  {
    var enabled := Actions(prob, s);
    if (a.name, a.args) in Keys(enabled) {
      var i :| 0 <= i < |enabled| && Keys(enabled)[i] == (a.name, a.args);
      assert enabled[i] in enabled;
    } else {
      forall e | e in ActionsList(prob) && Permissible(prob, e, s)
        ensures (e.name, e.args) != (a.name, a.args)
      {
        var i :| 0 <= i < |enabled| && enabled[i] == e;
        assert Keys(enabled)[i] == (e.name, e.args);
      }
    }
  }

  /** An accepted action sets, position by position, the fluents it adds, clears
      the fluents it removes and does not add, and leaves every other fluent as
      it was decoded from `s`. */
  lemma ResultPointwise(prob: AirCargoProblem, s: State, a: Action)
    requires IsState(prob, s)
    requires Result(prob, s, a).Ok?
    ensures forall i :: 0 <= i < |StateMap(prob)| ==>
      (Result(prob, s, a).state[i] <==>
        StateMap(prob)[i] in a.effectAdd ||
        (Holds(s, StateMap(prob), StateMap(prob)[i]) && StateMap(prob)[i] !in a.effectRem))
  {
  }

  /** Every goal fluent is among the decoded positive fluents of `s`. */
  function GoalTest(prob: AirCargoProblem, s: State): (b: bool)
    requires IsState(prob, s)
    ensures b <==> forall g :: g in prob.goal ==> Holds(s, StateMap(prob), g)
  {
    AllIn(prob.goal, Decode(s, StateMap(prob)).pos)
  }

  /** The constant heuristic. */
  function H1(s: State): nat
  {
    1
  }

  /** The number of distinct goal fluents that are decoded-negative in `s`. */
  function HIgnorePreconditions(prob: AirCargoProblem, s: State): (h: nat)
    requires IsState(prob, s)
    ensures h <= |Elems(prob.goal)| <= |prob.goal|
  {
    var unmet := Elems(Decode(s, StateMap(prob)).neg) * Elems(prob.goal);
    ElemsCard(prob.goal);
    SubsetCard(unmet, Elems(prob.goal));
    |unmet|
  }

  /** Applies a plan action by action, stopping at the first rejected action. */
  function Run(prob: AirCargoProblem, s: State, plan: seq<Action>): (r: Outcome)
    requires IsState(prob, s)
    ensures r.Ok? ==> IsState(prob, r.state)
    ensures plan == [] ==> r == Ok(s)
    ensures plan != [] && Result(prob, s, plan[0]).InvalidAction? ==> r == Result(prob, s, plan[0])
    decreases |plan|
  {
    if plan == [] then Ok(s)
    else
      var step := Result(prob, s, plan[0]);
      if step.InvalidAction? then step else Run(prob, step.state, plan[1..])
  }
}
