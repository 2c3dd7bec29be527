/** Properties of the air-cargo state machine: the initial state, the duality
    between applicability and rejection, the effects and frame of a transition,
    and the partition invariant. */
module TransitionModel {
  import opened Fluents
  import opened StateCodec
  import opened SchemaGrounder
  import opened AirCargo

  /** Every effect fluent of every grounded action is tracked by the vocabulary. */
  predicate EffectsTracked(prob: AirCargoProblem)
  {
    forall a :: a in ActionsList(prob) ==>
      Elems(a.effectAdd) <= Elems(StateMap(prob)) && Elems(a.effectRem) <= Elems(StateMap(prob))
  }

  /** A scenario with distinct airports grounds two actions per cargo, plane and
      airport (a load and an unload) and one flight per plane and ordered pair of
      distinct airports. */
  lemma ActionsListSize(prob: AirCargoProblem)
    requires NoDup(prob.airports)
    ensures |ActionsList(prob)|
         == 2 * |prob.cargos| * |prob.planes| * |prob.airports| + |prob.planes| * |prob.airports| * (|prob.airports| - 1)
  {
    GroundingCount(prob.cargos, prob.planes, prob.airports);
  }

  /** When the initial positive and negative lists share no fluent, the initial
      state marks the positive block true and the negative block false, and
      decodes to exactly the initial world description. */
  lemma InitialStateShape(prob: AirCargoProblem)
    requires Elems(prob.initial.pos) !! Elems(prob.initial.neg)
    ensures InitialState(prob) == seq(|prob.initial.pos|, _ => true) + seq(|prob.initial.neg|, _ => false)
    ensures Decode(InitialState(prob), StateMap(prob)) == prob.initial
  {
    InitialEncoding(prob.initial);
  }

  /** For a grounded action, `Result` succeeds exactly when the action is permissible:
      it fails for every grounded action that `Actions` leaves out. */
  lemma ResultIffPermissible(prob: AirCargoProblem, s: State, a: Action)
    requires IsState(prob, s)
    requires a in ActionsList(prob)
    ensures Result(prob, s, a).Ok? <==> Permissible(prob, a, s)
    ensures Result(prob, s, a).Ok? <==> a in Actions(prob, s)
  {
    ResultAccepts(prob, s, a);
    if Result(prob, s, a).Ok? {
      var e :| e in ActionsList(prob) && Permissible(prob, e, s) && e.name == a.name && e.args == a.args;
      KeyDeterminesAction(e, a);
    }
  }

  /** After a grounded action succeeds, its added fluents hold and its removed
      fluents do not, and the state still has one entry per vocabulary fluent. */
  lemma ResultEffects(prob: AirCargoProblem, s: State, a: Action)
    requires IsState(prob, s)
    requires a in ActionsList(prob)
    requires Result(prob, s, a).Ok?
    ensures |Result(prob, s, a).state| == |StateMap(prob)|
    ensures forall i :: 0 <= i < |StateMap(prob)| && StateMap(prob)[i] in a.effectAdd ==>
      Result(prob, s, a).state[i]
    ensures forall i :: 0 <= i < |StateMap(prob)| && StateMap(prob)[i] in a.effectRem ==>
      !Result(prob, s, a).state[i]
  {
    var t := Result(prob, s, a).state;
    forall i | 0 <= i < |StateMap(prob)| && StateMap(prob)[i] in a.effectRem
      ensures !t[i]
    {
      assert StateMap(prob)[i] in Elems(a.effectRem);
    }
  }

  /** Frame condition: on a duplicate-free vocabulary, a fluent that the action
      neither adds nor removes keeps its truth value. */
  lemma ResultFrame(prob: AirCargoProblem, s: State, a: Action)
    requires IsState(prob, s)
    requires NoDup(StateMap(prob))
    requires Result(prob, s, a).Ok?
    ensures forall i ::
      (0 <= i < |StateMap(prob)| && StateMap(prob)[i] !in a.effectAdd && StateMap(prob)[i] !in a.effectRem) ==>
      Result(prob, s, a).state[i] == s[i]
  {
    var t := Result(prob, s, a).state;
    forall i | 0 <= i < |StateMap(prob)| && StateMap(prob)[i] !in a.effectAdd && StateMap(prob)[i] !in a.effectRem
      ensures t[i] == s[i]
    {
      HoldsAt(s, StateMap(prob), i);
    }
  }

  /** On a duplicate-free vocabulary the decoded successor is the symmetric update
      of the decoded state: positives lose the removed fluents and gain the added
      ones, negatives lose the added fluents and gain the removed ones; it is again
      a disjoint, exhaustive partition of the vocabulary. */
  lemma ResultTransition(prob: AirCargoProblem, s: State, a: Action)
    requires IsState(prob, s)
    requires NoDup(StateMap(prob))
    requires EffectsTracked(prob)
    requires a in ActionsList(prob)
    requires Result(prob, s, a).Ok?
    ensures Elems(Decode(Result(prob, s, a).state, StateMap(prob)).pos)
         == (Elems(Decode(s, StateMap(prob)).pos) - Elems(a.effectRem)) + Elems(a.effectAdd)
    ensures Elems(Decode(Result(prob, s, a).state, StateMap(prob)).neg)
         == (Elems(Decode(s, StateMap(prob)).neg) - Elems(a.effectAdd)) + Elems(a.effectRem)
    ensures Partitions(Decode(Result(prob, s, a).state, StateMap(prob)), StateMap(prob))
  {
    var vocab := StateMap(prob);
    var t := Result(prob, s, a).state;
    forall i | 0 <= i < |vocab|
      ensures t[i] <==> vocab[i] in a.effectAdd || (s[i] && vocab[i] !in a.effectRem)
    {
      ResultAt(prob, s, a, i);
    }
    DecodeUpdate(s, t, vocab, a.effectAdd, a.effectRem);
    DecodePartitions(t, vocab);
  }

  /** Decoding commutes with a position-by-position update: when every position of
      `t` is set for an added fluent and otherwise copied from `s` unless removed,
      the decoded lists of `t` are those of `s` updated symmetrically. */
  lemma DecodeUpdate(s: State, t: State, vocab: seq<Fluent>, add: seq<Fluent>, rem: seq<Fluent>)
    requires |s| == |vocab| && |t| == |vocab|
    requires NoDup(vocab)
    requires Elems(add) <= Elems(vocab) && Elems(rem) <= Elems(vocab)
    requires Elems(add) !! Elems(rem)
    requires forall i :: 0 <= i < |vocab| ==> (t[i] <==> vocab[i] in add || (s[i] && vocab[i] !in rem))
    ensures Elems(Decode(t, vocab).pos) == (Elems(Decode(s, vocab).pos) - Elems(rem)) + Elems(add)
    ensures Elems(Decode(t, vocab).neg) == (Elems(Decode(s, vocab).neg) - Elems(add)) + Elems(rem)
  {
    var before := Decode(s, vocab);
    var after := Decode(t, vocab);
    forall f
      ensures f in Elems(after.pos) <==> f in (Elems(before.pos) - Elems(rem)) + Elems(add)
      ensures f in Elems(after.neg) <==> f in (Elems(before.neg) - Elems(add)) + Elems(rem)
    {
      if f in vocab {
        var i :| 0 <= i < |vocab| && vocab[i] == f;
        DecodeAt(s, vocab, i);
        DecodeAt(t, vocab, i);
      } else {
        DecodeOutside(s, vocab, f);
        DecodeOutside(t, vocab, f);
        assert f !in Elems(add) && f !in Elems(rem);
      }
    }
  }

  /** On a duplicate-free vocabulary, position `i` of an accepted successor is set
      when its fluent is added, and otherwise keeps its value unless removed. */
  lemma ResultAt(prob: AirCargoProblem, s: State, a: Action, i: int)
    requires IsState(prob, s)
    requires NoDup(StateMap(prob))
    requires Result(prob, s, a).Ok?
    requires 0 <= i < |StateMap(prob)|
    ensures Result(prob, s, a).state[i] <==>
      StateMap(prob)[i] in a.effectAdd || (s[i] && StateMap(prob)[i] !in a.effectRem)
  {
    ResultPointwise(prob, s, a);
    HoldsAt(s, StateMap(prob), i);
  }

  /** Applying a grounded action's effects to a partition of the vocabulary, as
      `Result` does before re-encoding, gives a partition of the vocabulary again. */
  lemma ApplyEffectsPartitions(fs: FluentState, a: Action, vocab: seq<Fluent>)
    requires Partitions(fs, vocab)
    requires Elems(a.effectAdd) <= Elems(vocab) && Elems(a.effectRem) <= Elems(vocab)
    requires Elems(a.effectAdd) !! Elems(a.effectRem)
    ensures Partitions(ApplyEffects(fs, a), vocab)
  {
    var r := ApplyEffects(fs, a);
    forall f | f in Elems(r.pos)
      ensures f !in Elems(r.neg)
    {
      assert f in Elems(a.effectAdd) ==> f !in Elems(a.effectRem);
      assert f in Elems(fs.pos) ==> f !in Elems(fs.neg);
    }
    forall f | f in Elems(vocab)
      ensures f in Elems(r.pos) + Elems(r.neg)
    {
      assert f in Elems(fs.pos) + Elems(fs.neg);
    }
  }

  /** The successor vector computed position by position: a position becomes true
      when its fluent is added, false when it is removed, and otherwise keeps its value. */
  function Successor(vocab: seq<Fluent>, s: State, a: Action): (t: State)
    requires |s| == |vocab|
  {
    seq(|vocab|, i requires 0 <= i < |vocab| => vocab[i] in a.effectAdd || (s[i] && vocab[i] !in a.effectRem))
  }

  /** On a duplicate-free vocabulary, a permissible grounded action takes `s` to
      the position-by-position successor. */
  lemma ResultIsSuccessor(prob: AirCargoProblem, s: State, a: Action)
    requires IsState(prob, s)
    requires NoDup(StateMap(prob))
    requires a in ActionsList(prob)
    requires Permissible(prob, a, s)
    ensures Result(prob, s, a) == Ok(Successor(StateMap(prob), s, a))
  {
    ResultIffPermissible(prob, s, a);
    var t := Result(prob, s, a).state;
    var u := Successor(StateMap(prob), s, a);
    forall i | 0 <= i < |StateMap(prob)|
      ensures t[i] == u[i]
    {
      ResultAt(prob, s, a, i);
    }
    assert t == u;
  }

  /** On a duplicate-free vocabulary, a permissible instance of a schema over the
      scenario's own objects takes `s` to the position-by-position successor. */
  lemma ResultOfInstance(prob: AirCargoProblem, s: State, op: Op, x: Name, y: Name, z: Name)
    requires IsState(prob, s)
    requires NoDup(StateMap(prob))
    requires GroundedArgs(prob.cargos, prob.planes, prob.airports, op, x, y, z)
    requires Permissible(prob, Instantiate(op, x, y, z), s)
    ensures Result(prob, s, Instantiate(op, x, y, z)) == Ok(Successor(StateMap(prob), s, Instantiate(op, x, y, z)))
  {
    InstanceGrounded(prob.cargos, prob.planes, prob.airports, op, x, y, z);
    ResultIsSuccessor(prob, s, Instantiate(op, x, y, z));
  }

  /** Applicability read off the vector: `a` is permissible in `s` exactly when
      each positive precondition is the fluent at some set position and each
      negative precondition the fluent at some clear position. */
  lemma PermissibleIffPositions(prob: AirCargoProblem, a: Action, s: State)
    requires IsState(prob, s)
    ensures Permissible(prob, a, s) <==>
      (forall f :: f in a.precondPos ==> exists k :: 0 <= k < |s| && s[k] && StateMap(prob)[k] == f) &&
      (forall f :: f in a.precondNeg ==> exists k :: 0 <= k < |s| && !s[k] && StateMap(prob)[k] == f)
  {
  }

  /** The two-position case of `PermissibleIffPositions`: an action without
      negative preconditions is permissible when each of its positive
      preconditions is the fluent at one of two set positions `i`, `j`. */
  lemma PermissibleIfSet(prob: AirCargoProblem, a: Action, s: State, i: int, j: int)
    requires IsState(prob, s)
    requires a.precondNeg == []
    requires 0 <= i < |s| && 0 <= j < |s| && s[i] && s[j]
    requires forall f :: f in a.precondPos ==> f == StateMap(prob)[i] || f == StateMap(prob)[j]
    ensures Permissible(prob, a, s)
  {
    assert Holds(s, StateMap(prob), StateMap(prob)[i]);
    assert Holds(s, StateMap(prob), StateMap(prob)[j]);
  }

  /** Running a plan whose first action is accepted is running the rest of it
      from the successor. */
  lemma RunStep(prob: AirCargoProblem, s: State, plan: seq<Action>, t: State)
    requires IsState(prob, s)
    requires plan != []
    requires Result(prob, s, plan[0]) == Ok(t)
    ensures Run(prob, s, plan) == Run(prob, t, plan[1..])
  {
  }

  /** A plan whose every step is accepted, taking `states[k]` to `states[k + 1]`,
      runs from the first of those states to the last. */
  lemma {:induction false} RunChain(prob: AirCargoProblem, plan: seq<Action>, states: seq<State>)
    requires |states| == |plan| + 1
    requires forall k :: 0 <= k < |states| ==> IsState(prob, states[k])
    requires forall k :: 0 <= k < |plan| ==> Result(prob, states[k], plan[k]) == Ok(states[k + 1])
    ensures Run(prob, states[0], plan) == Ok(states[|plan|])
    decreases |plan|
  {
    if plan != [] {
      var rest, later := plan[1..], states[1..];
      forall k | 0 <= k < |later|
        ensures IsState(prob, later[k])
      {
        assert later[k] == states[k + 1];
      }
      forall k | 0 <= k < |rest|
        ensures Result(prob, later[k], rest[k]) == Ok(later[k + 1])
      {
        assert rest[k] == plan[k + 1] && later[k] == states[k + 1] && later[k + 1] == states[k + 2];
      }
      RunChain(prob, rest, later);
      assert Result(prob, states[0], plan[0]) == Ok(states[1]);
    }
  }
}
