/** Grounding of the three air-cargo action schemas (Load, Unload, Fly) over a
    scenario's cargo, plane and airport lists into concrete actions. */
module SchemaGrounder {
  import opened Fluents

  /** The schema an action was grounded from. */
  datatype Op = Load | Unload | Fly

  /** A concrete action: its schema name and arguments, the fluents that must hold
      and must not hold before it, and the fluents it adds and removes. */
  datatype Action = Action(
    name: Op,
    args: seq<Name>,
    precondPos: seq<Fluent>,
    precondNeg: seq<Fluent>,
    effectAdd: seq<Fluent>,
    effectRem: seq<Fluent>)

  /** Load(c, p, a): cargo `c` and plane `p` both at `a`; afterwards `c` is in `p`
      and no longer at `a`. */
  function LoadAction(c: Name, p: Name, a: Name): Action
  {
    Action(Load, [c, p, a], [At(p, a), At(c, a)], [], [In(c, p)], [At(c, a)])
  }

  /** Unload(c, p, a): plane `p` at `a` carrying `c`; afterwards `c` is at `a` and
      no longer in `p`. */
  function UnloadAction(c: Name, p: Name, a: Name): Action
  {
    Action(Unload, [c, p, a], [At(p, a), In(c, p)], [], [At(c, a)], [In(c, p)])
  }

  /** Fly(p, fr, to): plane `p` at `fr`; afterwards it is at `to` and no longer at `fr`. */
  function FlyAction(p: Name, fr: Name, to: Name): Action
  {
    Action(Fly, [p, fr, to], [At(p, fr)], [], [At(p, to)], [At(p, fr)])
  }

  /** The action the schema `op` yields for three arguments, in the schema's own order. */
  function Instantiate(op: Op, x: Name, y: Name, z: Name): Action
  {
    match op
    case Load => LoadAction(x, y, z)
    case Unload => UnloadAction(x, y, z)
    case Fly => FlyAction(x, y, z)
  }

  /** `a` is what its own schema yields for its own three arguments, so its name
      and arguments determine it. */
  predicate IsInstance(a: Action)
  {
    |a.args| == 3 && a == Instantiate(a.name, a.args[0], a.args[1], a.args[2])
  }

  /** `a` is one of the actions `Instantiate(op, ...)` yields with a cargo from
      `cargos`, a plane from `planes` and an airport from `airports`. */
  predicate IsCargoInstance(a: Action, op: Op, cargos: seq<Name>, planes: seq<Name>, airports: seq<Name>)
  {
    exists c, p, ap :: c in cargos && p in planes && ap in airports && a == Instantiate(op, c, p, ap)
  }

  /** `a` is a flight of a plane from `planes` between two different airports of `airports`. */
  predicate IsFlight(a: Action, planes: seq<Name>, airports: seq<Name>)
  {
    exists p, fr, to :: p in planes && fr in airports && to in airports && fr != to && a == FlyAction(p, fr, to)
  }

  /** The innermost loop of Load/Unload grounding: one action per cargo, for a
      fixed plane and airport. */
  function OverCargos(op: Op, cargos: seq<Name>, plane: Name, airport: Name): (r: seq<Action>)
    ensures |r| == |cargos|
    ensures forall a :: a in r <==> exists c :: c in cargos && a == Instantiate(op, c, plane, airport)
  {
    if cargos == [] then []
    else [Instantiate(op, cargos[0], plane, airport)] + OverCargos(op, cargos[1..], plane, airport)
  }

  /** The middle loop: all cargos for each plane in turn, at a fixed airport. */
  function OverPlanes(op: Op, cargos: seq<Name>, planes: seq<Name>, airport: Name): (r: seq<Action>)
    ensures |r| == |planes| * |cargos|
    ensures forall a :: a in r <==>
      exists c, p :: c in cargos && p in planes && a == Instantiate(op, c, p, airport)
  {
    if planes == [] then []
    else
      var r := OverCargos(op, cargos, planes[0], airport) + OverPlanes(op, cargos, planes[1..], airport);
      MulPred(|planes|, |cargos|);
      r
  }

  /** The outer loop: all planes and cargos for each airport in turn. Load and
      Unload are both grounded this way. */
  function OverAirports(op: Op, cargos: seq<Name>, planes: seq<Name>, airports: seq<Name>): (r: seq<Action>)
    ensures |r| == |airports| * (|planes| * |cargos|)
    ensures forall a :: a in r <==> IsCargoInstance(a, op, cargos, planes, airports)
  {
    if airports == [] then []
    else
      var r := OverPlanes(op, cargos, planes, airports[0]) + OverAirports(op, cargos, planes, airports[1..]);
      MulPred(|airports|, |planes| * |cargos|);
      r
  }

  /** The innermost loop of Fly grounding: one flight per plane on a fixed leg. */
  function FlyOverPlanes(planes: seq<Name>, fr: Name, to: Name): (r: seq<Action>)
    ensures |r| == |planes|
    ensures forall a :: a in r <==> exists p :: p in planes && a == FlyAction(p, fr, to)
  {
    if planes == [] then []
    else [FlyAction(planes[0], fr, to)] + FlyOverPlanes(planes[1..], fr, to)
  }

  /** The middle loop: every destination in `tos` that differs from `fr`; a
      destination equal to the origin yields nothing. */
  function FlyOverDestinations(planes: seq<Name>, fr: Name, tos: seq<Name>): (r: seq<Action>)
    ensures |r| == |planes| * |Without(tos, [fr])|
    ensures forall a :: a in r <==>
      exists p, to :: p in planes && to in tos && to != fr && a == FlyAction(p, fr, to)
  {
    if tos == [] then []
    else
      var here := if fr != tos[0] then FlyOverPlanes(planes, fr, tos[0]) else [];
      var r := here + FlyOverDestinations(planes, fr, tos[1..]);
      var others := |Without(tos[1..], [fr])|;
      assert |Without(tos, [fr])| == (if fr != tos[0] then 1 else 0) + others;
      MulSucc(|planes|, others);
      r
  }

  /** The outer loop: every origin in `froms`, each flown to every other airport
      of `airports`. */
  function FlyOverOrigins(planes: seq<Name>, froms: seq<Name>, airports: seq<Name>): (r: seq<Action>)
    ensures forall a :: a in r <==>
      exists p, fr, to :: p in planes && fr in froms && to in airports && fr != to && a == FlyAction(p, fr, to)
  {
    if froms == [] then []
    else FlyOverDestinations(planes, froms[0], airports) + FlyOverOrigins(planes, froms[1..], airports)
  }

  /** `n * k` counted as one more `k` than `(n - 1) * k`. */
  lemma MulPred(n: int, k: int)
    ensures n * k == k + (n - 1) * k
  {
  }

  /** `p * (1 + k)` is `p` more than `p * k`. */
  lemma MulSucc(p: int, k: int)
    ensures p * (1 + k) == p + p * k
  {
  }

  function LoadActions(cargos: seq<Name>, planes: seq<Name>, airports: seq<Name>): seq<Action>
  {
    OverAirports(Load, cargos, planes, airports)
  }

  function UnloadActions(cargos: seq<Name>, planes: seq<Name>, airports: seq<Name>): seq<Action>
  {
    OverAirports(Unload, cargos, planes, airports)
  }

  function FlyActions(planes: seq<Name>, airports: seq<Name>): seq<Action>
  {
    FlyOverOrigins(planes, airports, airports)
  }

  /** The complete grounded action list: all loads, then all unloads, then all
      flights. Every entry is an instance of its schema, adds exactly one fluent,
      has no negative precondition, and never adds a fluent it also removes. */
  function GetActions(cargos: seq<Name>, planes: seq<Name>, airports: seq<Name>): (r: seq<Action>)
    ensures forall a :: a in r <==>
      IsCargoInstance(a, Load, cargos, planes, airports) ||
      IsCargoInstance(a, Unload, cargos, planes, airports) ||
      IsFlight(a, planes, airports)
    ensures forall a :: a in r ==> IsInstance(a)
    ensures forall a :: a in r ==> |a.effectAdd| == 1 && a.precondNeg == []
    ensures forall a :: a in r ==> Elems(a.effectAdd) !! Elems(a.effectRem)
    ensures forall a :: a in r && a.name == Fly ==> |a.args| == 3 && a.args[1] != a.args[2]
  {
    LoadActions(cargos, planes, airports) + UnloadActions(cargos, planes, airports) + FlyActions(planes, airports)
  }

  /** The arguments `x`, `y`, `z` are ones the grounding loops pair with schema
      `op`: a cargo, a plane and an airport for Load and Unload; a plane and two
      different airports for Fly. */
  predicate GroundedArgs(cargos: seq<Name>, planes: seq<Name>, airports: seq<Name>, op: Op, x: Name, y: Name, z: Name)
  {
    match op
    case Load => x in cargos && y in planes && z in airports
    case Unload => x in cargos && y in planes && z in airports
    case Fly => x in planes && y in airports && z in airports && y != z
  }

  /** Completeness of grounding: every instance of a schema whose arguments are
      taken from the scenario's lists is in the grounded action list. */
  lemma InstanceGrounded(cargos: seq<Name>, planes: seq<Name>, airports: seq<Name>, op: Op, x: Name, y: Name, z: Name)
    requires GroundedArgs(cargos, planes, airports, op, x, y, z)
    ensures Instantiate(op, x, y, z) in GetActions(cargos, planes, airports)
  {
    match op
    case Load =>
      assert IsCargoInstance(Instantiate(op, x, y, z), Load, cargos, planes, airports);
    case Unload =>
      assert IsCargoInstance(Instantiate(op, x, y, z), Unload, cargos, planes, airports);
    case Fly =>
      assert IsFlight(Instantiate(op, x, y, z), planes, airports);
  }

  /** Two grounded actions with the same name and arguments are the same action. */
  lemma KeyDeterminesAction(a: Action, b: Action)
    requires IsInstance(a) && IsInstance(b)
    requires a.name == b.name && a.args == b.args
    ensures a == b
  {
  }

  /** Flights over a duplicate-free airport list: each origin goes to every other airport. */
  lemma {:induction false} FlyOverOriginsCount(planes: seq<Name>, froms: seq<Name>, airports: seq<Name>)
    requires NoDup(airports)
    requires forall fr :: fr in froms ==> fr in airports
    ensures |FlyOverOrigins(planes, froms, airports)| == |froms| * (|planes| * (|airports| - 1))
  {
    if froms != [] {
      WithoutOneLength(airports, froms[0]);
      FlyOverOriginsCount(planes, froms[1..], airports);
      MulPred(|froms|, |planes| * (|airports| - 1));
    }
  }

  /** Grounding cardinality: Load and Unload each yield one action per airport,
      plane and cargo; Fly yields one per plane and ordered pair of distinct
      airports. */
  lemma GroundingCount(cargos: seq<Name>, planes: seq<Name>, airports: seq<Name>)
    requires NoDup(airports)
    ensures |LoadActions(cargos, planes, airports)| == |airports| * |planes| * |cargos|
    ensures |UnloadActions(cargos, planes, airports)| == |airports| * |planes| * |cargos|
    ensures |FlyActions(planes, airports)| == |planes| * |airports| * (|airports| - 1)
    ensures |GetActions(cargos, planes, airports)|
         == 2 * |cargos| * |planes| * |airports| + |planes| * |airports| * (|airports| - 1)
  {
    FlyOverOriginsCount(planes, airports, airports);
    ProductForms(|cargos|, |planes|, |airports|);
  }

  /** The regroupings of the count products that `GroundingCount` needs. */
  lemma ProductForms(c: int, p: int, a: int)
    ensures a * (p * c) == a * p * c
    ensures a * (p * (a - 1)) == p * a * (a - 1)
    ensures 2 * c * p * a == a * p * c + a * p * c
  {
    assert 2 * c * p * a == 2 * (a * p * c);
  }
}
