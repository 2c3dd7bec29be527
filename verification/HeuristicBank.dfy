/** Properties of the goal test and of the two local heuristics: the constant
    heuristic, and the count of unmet goal fluents that ignores preconditions. */
module HeuristicBank {
  import opened Fluents
  import opened StateCodec
  import opened SchemaGrounder
  import opened AirCargo

  /** A set is at most the part outside `b` plus all of `b`. */
  lemma DiffCard<T>(a: set<T>, b: set<T>)
    ensures |a| <= |a - b| + |b|
  {
    assert a == (a - b) + (a * b);
    SubsetCard(a * b, b);
  }

  /** On a duplicate-free vocabulary a goal fluent that holds is not decoded-negative. */
  lemma HoldsNotFails(s: State, vocab: seq<Fluent>, f: Fluent)
    requires |s| == |vocab|
    requires NoDup(vocab)
    requires Holds(s, vocab, f)
    ensures !Fails(s, vocab, f)
  {
    var i :| 0 <= i < |vocab| && vocab[i] == f && s[i];
    HoldsAt(s, vocab, i);
  }

  /** The goal test read off the vector: it passes exactly when every goal
      fluent is the fluent at some set position. */
  lemma GoalIffPositions(prob: AirCargoProblem, s: State)
    requires IsState(prob, s)
    ensures GoalTest(prob, s) <==>
      forall g :: g in prob.goal ==> exists k :: 0 <= k < |s| && s[k] && StateMap(prob)[k] == g
  {
  }

  /** The two-position case of `GoalIffPositions`: the goal test passes when each
      goal fluent is the fluent at one of two set positions `i`, `j`. */
  lemma GoalIfSet(prob: AirCargoProblem, s: State, i: int, j: int)
    requires IsState(prob, s)
    requires 0 <= i < |s| && 0 <= j < |s| && s[i] && s[j]
    requires forall g :: g in prob.goal ==> g == StateMap(prob)[i] || g == StateMap(prob)[j]
    ensures GoalTest(prob, s)
  {
    assert Holds(s, StateMap(prob), StateMap(prob)[i]);
    assert Holds(s, StateMap(prob), StateMap(prob)[j]);
  }

  /** A state that leaves the goal fluent at position `i` unset fails the goal
      test, on a duplicate-free vocabulary. */
  lemma NotGoalIfUnset(prob: AirCargoProblem, s: State, i: int)
    requires IsState(prob, s)
    requires NoDup(StateMap(prob))
    requires 0 <= i < |s| && !s[i]
    requires StateMap(prob)[i] in prob.goal
    ensures !GoalTest(prob, s)
  {
    HoldsAt(s, StateMap(prob), i);
  }

  /** On a duplicate-free vocabulary a goal state has no unmet goal fluent. */
  lemma GoalNoUnmet(prob: AirCargoProblem, s: State)
    requires IsState(prob, s)
    requires NoDup(StateMap(prob))
    requires GoalTest(prob, s)
    ensures HIgnorePreconditions(prob, s) == 0
  {
    var vocab := StateMap(prob);
    var unmet := Elems(Decode(s, vocab).neg) * Elems(prob.goal);
    forall g | g in unmet
      ensures false
    {
      HoldsNotFails(s, vocab, g);
    }
    assert unmet == {};
  }

  /** The goal test and the heuristic agree: on a duplicate-free vocabulary that
      tracks every goal fluent, the count of unmet goal fluents is zero exactly
      when the goal test passes. */
  lemma HIgnoreZeroIffGoal(prob: AirCargoProblem, s: State)
    requires IsState(prob, s)
    requires NoDup(StateMap(prob))
    requires Elems(prob.goal) <= Elems(StateMap(prob))
    ensures HIgnorePreconditions(prob, s) == 0 <==> GoalTest(prob, s)
  {
    var vocab := StateMap(prob);
    var unmet := Elems(Decode(s, vocab).neg) * Elems(prob.goal);
    if GoalTest(prob, s) {
      GoalNoUnmet(prob, s);
    } else {
      var g :| g in prob.goal && !Holds(s, vocab, g);
      assert g in Elems(vocab);
      var i :| 0 <= i < |vocab| && vocab[i] == g;
      assert Fails(s, vocab, g);
      assert g in unmet;
    }
  }

  /** A grounded action adds one fluent, so it lowers the count of unmet goal
      fluents by at most one. */
  lemma HIgnoreStep(prob: AirCargoProblem, s: State, a: Action)
    requires IsState(prob, s)
    requires NoDup(StateMap(prob))
    requires a in ActionsList(prob)
    requires Result(prob, s, a).Ok?
    ensures HIgnorePreconditions(prob, s) <= HIgnorePreconditions(prob, Result(prob, s, a).state) + 1
  {
    var vocab := StateMap(prob);
    var t := Result(prob, s, a).state;
    var goals := Elems(prob.goal);
    var unmet := Elems(Decode(s, vocab).neg) * goals;
    var unmet' := Elems(Decode(t, vocab).neg) * goals;
    var added := Elems(a.effectAdd);
    forall f | f in unmet - added
      ensures f in unmet'
    {
      var i :| 0 <= i < |vocab| && vocab[i] == f && !s[i];
      HoldsAt(s, vocab, i);
      assert !t[i];
    }
    SubsetCard(unmet - added, unmet');
    DiffCard(unmet, added);
    ElemsCard(a.effectAdd);
  }

  /** Admissibility: on a duplicate-free vocabulary, any plan of grounded actions
      that takes `s` to a goal state has at least as many steps as the count of
      unmet goal fluents in `s`. */
  lemma {:induction false} HIgnoreAdmissible(prob: AirCargoProblem, s: State, plan: seq<Action>)
    requires IsState(prob, s)
    requires NoDup(StateMap(prob))
    requires forall a :: a in plan ==> a in ActionsList(prob)
    requires Run(prob, s, plan).Ok?
    requires GoalTest(prob, Run(prob, s, plan).state)
    ensures HIgnorePreconditions(prob, s) <= |plan|
    decreases |plan|
  {
    if plan == [] {
      GoalNoUnmet(prob, s);
    } else {
      var t := Result(prob, s, plan[0]).state;
      HIgnoreStep(prob, s, plan[0]);
      HIgnoreAdmissible(prob, t, plan[1..]);
    }
  }
}
