/**
 * Shipyard <-> world conversion for a Valkyrien Skies ship
 * (VsShipTransforms.java). The ship class is scanned once for matrix-valued
 * getters, two candidates are picked by name, and on first use a round-trip
 * test decides which of the two is ship->world. Matrices, their application
 * and their inversion are the host's (MatrixOps).
 */
module VsShipTransforms {
  import opened Wrappers
  import opened Text
  import opened Reflect
  import opened Geometry
  import opened Selection

  const MATRIX4DC := "org.joml.Matrix4dc"

  const BANNED_TOKENS: seq<string> :=
    ["shipify", "create", "construct", "assemble", "spawn", "build",
     "generate", "convert", "init", "load", "save"]

  /** Name tokens of accessors that create or mutate ships; such accessors are never called. */
  function IsBannedName(lower: string): (r: bool)
    ensures r ==> exists t :: t in BANNED_TOKENS && Contains(lower, t)
    ensures (exists t :: t in BANNED_TOKENS && Contains(lower, t)) ==> r
  {
    || Contains(lower, "shipify")
    || Contains(lower, "create")
    || Contains(lower, "construct")
    || Contains(lower, "assemble")
    || Contains(lower, "spawn")
    || Contains(lower, "build")
    || Contains(lower, "generate")
    || Contains(lower, "convert")
    || Contains(lower, "init")
    || Contains(lower, "load")
    || Contains(lower, "save")
  }

  // ---------------- name scoring ----------------

  predicate HasShipToWorldToken(n: string)
  {
    Contains(n, "shiptoworld") || Contains(n, "ship_to_world") || Contains(n, "ship2world")
  }

  predicate HasWorldToShipToken(n: string)
  {
    Contains(n, "worldtoship") || Contains(n, "world_to_ship") || Contains(n, "world2ship")
  }

  /** The direction token the caller asks for, and the opposite one. */
  predicate HasPreferredToken(n: string, shipToWorld: bool)
  {
    if shipToWorld then HasShipToWorldToken(n) else HasWorldToShipToken(n)
  }

  predicate HasOppositeToken(n: string, shipToWorld: bool)
  {
    if shipToWorld then HasWorldToShipToken(n) else HasShipToWorldToken(n)
  }

  /** The weak signals: matrix, transform, get, ship-and-world. */
  function WeakSignals(n: string): (w: int)
    ensures 0 <= w <= 95
    ensures Contains(n, "matrix") ==> w >= 50
  {
    (if Contains(n, "matrix") then 50 else 0)
    + (if Contains(n, "transform") then 20 else 0)
    + (if Contains(n, "get") then 10 else 0)
    + (if Contains(n, "ship") && Contains(n, "world") then 15 else 0)
  }

  /** Score of a lower-cased matrix getter name for one direction. */
  function ScoreMatrixName(n: string, shipToWorld: bool): (s: int)
    ensures -400 <= s <= 1095
    ensures HasPreferredToken(n, shipToWorld) && !HasOppositeToken(n, shipToWorld) ==> s >= 1000
    ensures !HasPreferredToken(n, shipToWorld) && !HasOppositeToken(n, shipToWorld) ==> 0 <= s <= 95
    ensures !HasPreferredToken(n, shipToWorld) && HasOppositeToken(n, shipToWorld) ==> s < 0
  {
    var hasStw := HasShipToWorldToken(n);
    var hasWts := HasWorldToShipToken(n);
    var strong :=
      if shipToWorld then (if hasStw then 1000 else 0) - (if hasWts then 400 else 0)
      else (if hasWts then 1000 else 0) - (if hasStw then 400 else 0);
    strong + WeakSignals(n)
  }

  /** The +1000 direction bonus dominates every combination of weak signals. */
  lemma PreferredOutscoresNeutral(a: string, b: string, shipToWorld: bool)
    requires HasPreferredToken(a, shipToWorld) && !HasOppositeToken(a, shipToWorld)
    requires !HasPreferredToken(b, shipToWorld) && !HasOppositeToken(b, shipToWorld)
    ensures ScoreMatrixName(a, shipToWorld) > ScoreMatrixName(b, shipToWorld)
  {
  }

  function MatrixScore(m: MethodDesc, shipToWorld: bool): int
  {
    ScoreMatrixName(LowerName(m), shipToWorld)
  }

  /** The scoring pickBest uses for one preferred direction. */
  function ScoreFor(shipToWorld: bool): MethodDesc -> int
  {
    m => MatrixScore(m, shipToWorld)
  }

  predicate Any<T>(x: T) { true }

  /** pickBest: the first getter of maximal score, or None for an empty list. */
  method PickBest(mats: seq<MethodDesc>, preferShipToWorld: bool) returns (best: Option<MethodDesc>)
    ensures best.None? <==> mats == []
    ensures best.Some? ==> exists k :: IsFirstMax(mats, Any, ScoreFor(preferShipToWorld), k)
                                       && mats[k] == best.value
    ensures best == FirstMaxOf(mats, Any, ScoreFor(preferShipToWorld))
  {
    var k := FirstMax(mats, Any, ScoreFor(preferShipToWorld));
    assert mats != [] ==> Any(mats[0]);
    if k.Some? {
      FirstMaxOfIs(mats, Any, ScoreFor(preferShipToWorld), k.value);
      best := Some(mats[k.value]);
    } else {
      best := None;
    }
  }

  // ---------------- getter discovery ----------------

  /** A public, zero-argument, Matrix4dc-returning getter whose name is not banned. */
  predicate IsMatrixGetter(m: MethodDesc)
  {
    m.isPublic && |m.params| == 0 && AssignableTo(m.returnType, MATRIX4DC) && !IsBannedName(LowerName(m))
  }

  /** The matrix getters of `ms`, in their order. */
  function MatrixGetters(ms: seq<MethodDesc>): (r: seq<MethodDesc>)
    ensures |r| <= |ms|
    ensures forall m :: m in r <==> m in ms && IsMatrixGetter(m)
  {
    if ms == [] then []
    else
      var last := ms[|ms| - 1];
      assert ms == ms[..|ms| - 1] + [last];
      MatrixGetters(ms[..|ms| - 1]) + (if IsMatrixGetter(last) then [last] else [])
  }

  /** One more method appends it to the getters exactly when it is one. */
  lemma MatrixGettersSnoc(ms: seq<MethodDesc>, m: MethodDesc)
    ensures MatrixGetters(ms + [m]) == MatrixGetters(ms) + (if IsMatrixGetter(m) then [m] else [])
  {
    assert (ms + [m])[..|ms|] == ms;
  }

  /**
   * The filter keeps order: the getters of a concatenation are those of
   * the first part followed by those of the second.
   */
  lemma {:induction false} MatrixGettersAppend(xs: seq<MethodDesc>, ys: seq<MethodDesc>)
    ensures MatrixGetters(xs + ys) == MatrixGetters(xs) + MatrixGetters(ys)
    decreases |ys|
  {
    if ys == [] {
      assert xs + ys == xs;
    } else {
      var init, last := ys[..|ys| - 1], ys[|ys| - 1];
      assert ys == init + [last];
      assert xs + ys == (xs + init) + [last];
      var tail := if IsMatrixGetter(last) then [last] else [];
      calc {
        MatrixGetters(xs + ys);
        { MatrixGettersSnoc(xs + init, last); }
        MatrixGetters(xs + init) + tail;
        { MatrixGettersAppend(xs, init); }
        (MatrixGetters(xs) + MatrixGetters(init)) + tail;
        MatrixGetters(xs) + (MatrixGetters(init) + tail);
        { MatrixGettersSnoc(init, last); }
        MatrixGetters(xs) + MatrixGetters(ys);
      }
    }
  }

  method FindAllMatrixGetters(methods: seq<MethodDesc>) returns (out: seq<MethodDesc>)
    ensures out == MatrixGetters(methods)
  {
    out := [];
    for i := 0 to |methods|
      invariant out == MatrixGetters(methods[..i])
    {
      assert methods[..i + 1][..i] == methods[..i];
      if IsMatrixGetter(methods[i]) {
        out := out + [methods[i]];
      }
    }
    assert methods[..|methods|] == methods;
  }

  /** A public zero-argument get- or is-accessor mentioning "transform", returning an object. */
  predicate IsTransformGetter(m: MethodDesc)
  {
    var n := LowerName(m);
    && m.isPublic
    && |m.params| == 0
    && (StartsWith(n, "get") || StartsWith(n, "is"))
    && Contains(n, "transform")
    && !IsBannedName(n)
    && !m.returnType.primitive
  }

  function TransformScore(m: MethodDesc): (s: int)
    ensures 50 <= s <= 400
    ensures LowerName(m) == "gettransform" ==> s >= 200
  {
    var n := LowerName(m);
    (if Contains(n, "shiptransform") then 200 else 0) + (if n == "gettransform" then 150 else 0) + 50
  }

  method FindTransformGetter(methods: seq<MethodDesc>) returns (best: Option<MethodDesc>)
    ensures best.None? <==> forall m :: m in methods ==> !IsTransformGetter(m)
    ensures best.Some? ==> exists k :: IsFirstMax(methods, IsTransformGetter, TransformScore, k)
                                       && methods[k] == best.value
    ensures best == FirstMaxOf(methods, IsTransformGetter, TransformScore)
  {
    var k := FirstMax(methods, IsTransformGetter, TransformScore);
    if k.Some? {
      FirstMaxOfIs(methods, IsTransformGetter, TransformScore, k.value);
      best := Some(methods[k.value]);
    } else {
      best := None;
    }
  }

  /** What `resolve` finds for one ship class. */
  datatype Resolution = Resolution(
    getTransform: Option<MethodDesc>,
    matricesLiveOnTransform: bool,
    candA: Option<MethodDesc>,
    candB: Option<MethodDesc>)

  /** The transform getter resolve settles on: the first of maximal TransformScore. */
  ghost function TransformGetterOf(shipMethods: seq<MethodDesc>): Option<MethodDesc>
  {
    FirstMaxOf(shipMethods, IsTransformGetter, TransformScore)
  }

  /**
   * The getters the candidates are drawn from: the ship's own matrix
   * getters or, only when it has none and a transform getter exists, those
   * of the type that getter returns.
   */
  ghost function CandidateMats(shipMethods: seq<MethodDesc>, methodsOf: JType -> seq<MethodDesc>): seq<MethodDesc>
  {
    var t := TransformGetterOf(shipMethods);
    if MatrixGetters(shipMethods) == [] && t.Some? then MatrixGetters(methodsOf(t.value.returnType))
    else MatrixGetters(shipMethods)
  }

  /**
   * What resolve answers, as a specification: nothing without candidate
   * getters; otherwise candidate A is the first getter of best
   * ship->world score, and candidate B the first of best world->ship
   * score unless that is A itself.
   */
  ghost function ResolutionOf(shipMethods: seq<MethodDesc>, methodsOf: JType -> seq<MethodDesc>): Option<Resolution>
  {
    var mats := CandidateMats(shipMethods, methodsOf);
    if mats == [] then None
    else
      var t := TransformGetterOf(shipMethods);
      var candA := FirstMaxOf(mats, Any, ScoreFor(true));
      var candB := FirstMaxOf(mats, Any, ScoreFor(false));
      Some(Resolution(t, MatrixGetters(shipMethods) == [] && t.Some?, candA, if candB == candA then None else candB))
  }

  /**
   * A ship with no matrix getter of its own but with a transform getter
   * resolves exactly when the transform type offers a matrix getter, and
   * then reads its matrices from the transform object.
   */
  lemma TransformPathResolves(shipMethods: seq<MethodDesc>, methodsOf: JType -> seq<MethodDesc>)
    requires MatrixGetters(shipMethods) == [] && TransformGetterOf(shipMethods).Some?
    ensures var r := ResolutionOf(shipMethods, methodsOf);
            && (r.Some? <==> MatrixGetters(methodsOf(TransformGetterOf(shipMethods).value.returnType)) != [])
            && (r.Some? ==> r.value.matricesLiveOnTransform && r.value.getTransform == TransformGetterOf(shipMethods))
  {
  }

  /**
   * The candidates are the best-scored getters: A has the highest
   * ship->world score, B (when kept) the highest world->ship score and
   * differs from A; B is dropped only when the world->ship choice is A.
   */
  lemma {:induction false} CandidatesScoreBest(shipMethods: seq<MethodDesc>, methodsOf: JType -> seq<MethodDesc>)
    requires ResolutionOf(shipMethods, methodsOf).Some?
    ensures var r := ResolutionOf(shipMethods, methodsOf).value;
            var mats := CandidateMats(shipMethods, methodsOf);
            && r.candA.Some? && r.candA.value in mats
            && (forall m :: m in mats ==> MatrixScore(m, true) <= MatrixScore(r.candA.value, true))
            && (r.candB.Some? ==> r.candB != r.candA && r.candB.value in mats
                                  && forall m :: m in mats ==> MatrixScore(m, false) <= MatrixScore(r.candB.value, false))
            && (r.candB.None? ==> forall m :: m in mats ==> MatrixScore(m, false) <= MatrixScore(r.candA.value, false))
  {
    var mats := CandidateMats(shipMethods, methodsOf);
    assert Any(mats[0]);
    FirstMaxOfBounds(mats, Any, ScoreFor(true), 0);
    FirstMaxOfBounds(mats, Any, ScoreFor(false), 0);
  }

  /**
   * resolve(shipClass): the ship's own matrix getters, or, only when it has
   * none, those of the type its transform getter returns. None when neither
   * offers a matrix getter.
   */
  method Resolve(shipMethods: seq<MethodDesc>, methodsOf: JType -> seq<MethodDesc>) returns (r: Option<Resolution>)
    ensures MatrixGetters(shipMethods) != [] ==> r.Some? && !r.value.matricesLiveOnTransform
    ensures MatrixGetters(shipMethods) == [] && (forall g :: g in shipMethods ==> !IsTransformGetter(g)) ==> r.None?
    ensures r.Some? ==> r.value.candA.Some? && r.value.candA != r.value.candB
    ensures r.Some? && r.value.getTransform.Some? ==>
      r.value.getTransform.value in shipMethods && IsTransformGetter(r.value.getTransform.value)
    ensures r.Some? ==>
      var mats := if r.value.matricesLiveOnTransform && r.value.getTransform.Some?
                  then MatrixGetters(methodsOf(r.value.getTransform.value.returnType))
                  else MatrixGetters(shipMethods);
      && (r.value.matricesLiveOnTransform ==> r.value.getTransform.Some?)
      && r.value.candA.value in mats
      && (r.value.candB.Some? ==> r.value.candB.value in mats)
    ensures r == ResolutionOf(shipMethods, methodsOf)
  {
    var shipMats := FindAllMatrixGetters(shipMethods);
    var getTransform := FindTransformGetter(shipMethods);
    var transformMats: seq<MethodDesc> := [];
    var onTransform := false;
    if |shipMats| == 0 && getTransform.Some? {
      onTransform := true;
      transformMats := FindAllMatrixGetters(methodsOf(getTransform.value.returnType));
    }
    var mats := if onTransform then transformMats else shipMats;
    if |mats| == 0 {
      return None;
    }
    var candA := PickBest(mats, true);
    var candB := PickBest(mats, false);
    if candA.Some? && candA == candB {
      candB := None;
    }
    r := Some(Resolution(getTransform, onTransform, candA, candB));
  }

  // ---------------- matrices and the direction decision ----------------

  /** A JOML Matrix4d; only the host's operations look inside it. */
  datatype Matrix4 = Matrix4(cells: seq<real>)

  /** Matrix4d.transformPosition, Matrix4d.invert and the square root behind Vector3d.distance. */
  datatype MatrixOps = MatrixOps(
    transformPosition: (Matrix4, Vec3) -> Vec3,
    invert: Matrix4 -> Matrix4,
    sqrt: real -> real)

  /** roundTripError: send the sample through `shipToWorld` then `worldToShip` and measure how far it lands. */
  function RoundTripError(ops: MatrixOps, shipToWorld: Matrix4, worldToShip: Matrix4, p: Vec3): real
  {
    var back := ops.transformPosition(worldToShip, ops.transformPosition(shipToWorld, p));
    var d := Sub(back, p);
    ops.sqrt(d.x * d.x + d.y * d.y + d.z * d.z)
  }

  /** When A then B is an exact round trip, the test never swaps: A stays ship->world. */
  lemma ExactRoundTripKeepsOrder(ops: MatrixOps, mA: Matrix4, mB: Matrix4, p: Vec3)
    requires IsSqrt(ops.sqrt)
    requires ops.transformPosition(mB, ops.transformPosition(mA, p)) == p
    ensures RoundTripError(ops, mA, mB, p) == 0.0
    ensures !(RoundTripError(ops, mB, mA, p) < RoundTripError(ops, mA, mB, p))
  {
    SqrtOfSquare(ops.sqrt, 0.0);
    var z := ops.sqrt(0.0);
    var d0 := Sub(ops.transformPosition(mB, ops.transformPosition(mA, p)), p);
    assert d0 == ZERO;
    assert d0.x * d0.x + d0.y * d0.y + d0.z * d0.z == 0.0;
    assert RoundTripError(ops, mA, mB, p) == z;
    var back := ops.transformPosition(mA, ops.transformPosition(mB, p));
    var d := Sub(back, p);
    var q := d.x * d.x + d.y * d.y + d.z * d.z;
    assert q >= 0.0;
    assert ops.sqrt(q) >= 0.0;
  }

  /** getMatrix: no getter, or a getter that yields no matrix, reads as None. */
  function Read(matrixOf: MethodDesc -> Option<Matrix4>, getter: Option<MethodDesc>): (m: Option<Matrix4>)
    ensures getter.None? ==> m.None?
  {
    if getter.None? then None else matrixOf(getter.value)
  }

  /**
   * The conversion with a preferred getter: apply its matrix when there is
   * one, else the inverse of the other getter's matrix, else nothing.
   */
  function PreferDirect(direct: Option<Matrix4>, other: Option<Matrix4>, ops: MatrixOps, p: Vec3): (r: Option<Vec3>)
    ensures r.None? <==> direct.None? && other.None?
    ensures direct.Some? ==> r == Some(ops.transformPosition(direct.value, p))
    ensures direct.None? && other.Some? ==> r == Some(ops.transformPosition(ops.invert(other.value), p))
  {
    if direct.Some? then Some(ops.transformPosition(direct.value, p))
    else if other.Some? then Some(ops.transformPosition(ops.invert(other.value), p))
    else None
  }

  /** The two matrix getters of a resolution once its direction is known. */
  datatype Direction = Direction(shipToWorld: Option<MethodDesc>, worldToShip: Option<MethodDesc>)

  /**
   * The direction decideDirectionIfNeeded settles on for a resolution that
   * was not decided yet, whose getters are `current`: a lone candidate is
   * ship->world; otherwise the readable matrix is, or, when both are
   * readable, the order with the smaller round-trip error (A first on a
   * tie); when neither is readable the getters stay as they were.
   */
  ghost function Decision(info: Resolution, matrixOf: MethodDesc -> Option<Matrix4>, ops: MatrixOps,
                          sample: Vec3, current: Direction): Direction
  {
    if info.candB.None? then Direction(info.candA, None)
    else
      var mA := Read(matrixOf, info.candA);
      var mB := Read(matrixOf, info.candB);
      if mA.None? && mB.None? then current
      else if mB.None? then Direction(info.candA, None)
      else if mA.None? then Direction(info.candB, None)
      else if RoundTripError(ops, mB.value, mA.value, sample) < RoundTripError(ops, mA.value, mB.value, sample)
      then Direction(info.candB, info.candA)
      else Direction(info.candA, info.candB)
  }

  /**
   * Every getter the decision sets is one of the two candidates, and when
   * both matrices are readable the two directions use different candidates.
   */
  lemma DecisionUsesCandidates(info: Resolution, matrixOf: MethodDesc -> Option<Matrix4>, ops: MatrixOps,
                               sample: Vec3, current: Direction)
    requires info.candB != info.candA
    ensures var d := Decision(info, matrixOf, ops, sample, current);
      && (d != current ==> d.shipToWorld == info.candA || d.shipToWorld == info.candB)
      && (d.worldToShip != current.worldToShip ==>
            d.worldToShip.None? || d.worldToShip == info.candA || d.worldToShip == info.candB)
      && (info.candB.Some? && Read(matrixOf, info.candA).Some? && Read(matrixOf, info.candB).Some? ==>
            d.shipToWorld.Some? && d.worldToShip.Some? && d.shipToWorld != d.worldToShip)
  {
  }

  /**
   * When both matrices are readable and A then B is an exact round trip,
   * the decision keeps A as ship->world and B as world->ship.
   */
  lemma ExactRoundTripDecidesA(info: Resolution, matrixOf: MethodDesc -> Option<Matrix4>, ops: MatrixOps,
                               sample: Vec3, current: Direction)
    requires IsSqrt(ops.sqrt)
    requires info.candB.Some?
    requires Read(matrixOf, info.candA).Some? && Read(matrixOf, info.candB).Some?
    requires var mA := Read(matrixOf, info.candA).value;
             var mB := Read(matrixOf, info.candB).value;
             ops.transformPosition(mB, ops.transformPosition(mA, sample)) == sample
    ensures Decision(info, matrixOf, ops, sample, current) == Direction(info.candA, info.candB)
  {
    ExactRoundTripKeepsOrder(ops, Read(matrixOf, info.candA).value, Read(matrixOf, info.candB).value, sample);
  }

  /** The per-class resolution, whose direction is decided once, on first use. */
  class Resolved {
    const info: Resolution
    var decided: bool
    var shipToWorldGetter: Option<MethodDesc>
    var worldToShipGetter: Option<MethodDesc>

    constructor (info: Resolution)
      ensures this.info == info && !decided
      ensures shipToWorldGetter.None? && worldToShipGetter.None?
    {
      this.info := info;
      decided := false;
      shipToWorldGetter := None;
      worldToShipGetter := None;
    }

    /** The getters as a pair. */
    function Getters(): Direction
      reads this
    {
      Direction(shipToWorldGetter, worldToShipGetter)
    }

    /**
     * decideDirectionIfNeeded: with one candidate, or one readable matrix,
     * that getter is ship->world; with two readable matrices the pair with
     * the smaller round-trip error wins, A first on a tie.
     */
    method DecideDirectionIfNeeded(matrixOf: MethodDesc -> Option<Matrix4>, ops: MatrixOps, sample: Vec3)
      modifies this
      ensures decided
      ensures !old(decided) ==> Getters() == Decision(info, matrixOf, ops, sample, old(Getters()))
      ensures old(decided) ==> shipToWorldGetter == old(shipToWorldGetter) && worldToShipGetter == old(worldToShipGetter)
      ensures !old(decided) && info.candB.None? ==>
        shipToWorldGetter == info.candA && worldToShipGetter.None?
      ensures !old(decided) && info.candB.Some? ==>
        var mA := Read(matrixOf, info.candA);
        var mB := Read(matrixOf, info.candB);
        && (mA.None? && mB.None? ==>
              shipToWorldGetter == old(shipToWorldGetter) && worldToShipGetter == old(worldToShipGetter))
        && (mA.Some? && mB.None? ==> shipToWorldGetter == info.candA && worldToShipGetter.None?)
        && (mA.None? && mB.Some? ==> shipToWorldGetter == info.candB && worldToShipGetter.None?)
        && (mA.Some? && mB.Some? ==>
              var e1 := RoundTripError(ops, mA.value, mB.value, sample);
              var e2 := RoundTripError(ops, mB.value, mA.value, sample);
              if e2 < e1 then shipToWorldGetter == info.candB && worldToShipGetter == info.candA
              else shipToWorldGetter == info.candA && worldToShipGetter == info.candB)
    {
      if decided {
        return;
      }
      var a := info.candA;
      var b := info.candB;
      if b.None? {
        shipToWorldGetter := a;
        worldToShipGetter := None;
        decided := true;
        return;
      }
      var mA := Read(matrixOf, a);
      var mB := Read(matrixOf, b);
      if mA.None? && mB.None? {
        decided := true;
        return;
      }
      if mA.Some? && mB.None? {
        shipToWorldGetter := a;
        worldToShipGetter := None;
        decided := true;
        return;
      }
      if mA.None? {
        shipToWorldGetter := b;
        worldToShipGetter := None;
        decided := true;
        return;
      }
      var e1 := RoundTripError(ops, mA.value, mB.value, sample);
      var e2 := RoundTripError(ops, mB.value, mA.value, sample);
      if e2 < e1 {
        shipToWorldGetter := b;
        worldToShipGetter := a;
      } else {
        shipToWorldGetter := a;
        worldToShipGetter := b;
      }
      decided := true;
    }
  }

  // ---------------- the per-class cache and the conversions ----------------

  /** The object whose getters yield the matrices: the ship itself or its transform object. */
  datatype Holder = ShipItself | TransformObject(id: int)

  /** What reflection sees of one ship instance. */
  datatype ShipView = ShipView(
    className: string,
    methods: seq<MethodDesc>,
    methodsOf: JType -> seq<MethodDesc>,
    transformObject: Option<int>,
    matrixOf: (Holder, MethodDesc) -> Option<Matrix4>)

  /** The holder the matrix getters are invoked on; None when the transform getter yields nothing. */
  function HolderOf(info: Resolution, view: ShipView): (h: Option<Holder>)
    ensures !info.matricesLiveOnTransform ==> h == Some(ShipItself)
    ensures h.Some? && info.matricesLiveOnTransform ==> h.value.TransformObject?
  {
    if !info.matricesLiveOnTransform then Some(ShipItself)
    else if info.getTransform.None? || view.transformObject.None? then None
    else Some(TransformObject(view.transformObject.value))
  }

  /** The getter reader on one holder: getMatrix(getter, holder). */
  function MatrixReader(view: ShipView, h: Holder): MethodDesc -> Option<Matrix4>
  {
    g => view.matrixOf(h, g)
  }

  class TransformCache {
    var cache: map<string, Resolved>

    constructor ()
      ensures cache == map[]
    {
      cache := map[];
    }

    /**
     * clearCacheFor: drop the resolution of one ship class so it is
     * recomputed. The tether controller calls it; its definition is not
     * part of VsShipTransforms.java, and this is the evident meaning.
     */
    method ClearCacheFor(className: string)
      modifies this
      ensures cache == old(cache) - {className}
    {
      cache := cache - {className};
    }

    /**
     * CACHE.computeIfAbsent(class, resolve): a failed resolve is not
     * stored, so the next call tries again.
     */
    method ResolvedFor(view: ShipView) returns (r: Option<Resolved>)
      modifies this
      ensures view.className in old(cache) ==> r == Some(old(cache)[view.className]) && cache == old(cache)
      ensures view.className !in old(cache) && r.None? ==> cache == old(cache)
      ensures view.className !in old(cache) && r.Some? ==>
        fresh(r.value) && !r.value.decided && r.value.Getters() == Direction(None, None)
        && cache == old(cache)[view.className := r.value]
      ensures view.className !in old(cache) ==>
        && (r.Some? <==> ResolutionOf(view.methods, view.methodsOf).Some?)
        && (r.Some? ==> r.value.info == ResolutionOf(view.methods, view.methodsOf).value)
    {
      if view.className in cache {
        return Some(cache[view.className]);
      }
      var res := Resolve(view.methods, view.methodsOf);
      if res.None? {
        return None;
      }
      var created := new Resolved(res.value);
      cache := cache[view.className := created];
      r := Some(created);
    }

    /** shipyardToWorld: prefer the ship->world matrix, else invert world->ship. */
    method ShipyardToWorld(ship: Option<ShipView>, pos: Option<Vec3>, ops: MatrixOps) returns (res: Option<Vec3>)
      modifies this, if ship.Some? && ship.value.className in cache then {cache[ship.value.className]} else {}
      ensures ship.None? || pos.None? ==> res.None? && cache == old(cache)
      ensures res.Some? ==>
        var cls := ship.value.className;
        && cls in cache && cache[cls].decided
        && HolderOf(cache[cls].info, ship.value).Some?
        && var r := cache[cls];
           var h := HolderOf(r.info, ship.value).value;
           res == PreferDirect(Read(MatrixReader(ship.value, h), r.shipToWorldGetter),
                               Read(MatrixReader(ship.value, h), r.worldToShipGetter), ops, pos.value)
      ensures ship.Some? && pos.Some? ==>
        var cls := ship.value.className;
        var resolution := ResolutionOf(ship.value.methods, ship.value.methodsOf);
        && (cls in cache <==> cls in old(cache) || resolution.Some?)
        && (cls in old(cache) ==> cache == old(cache))
        && (cls !in old(cache) && cls in cache ==>
              fresh(cache[cls]) && cache[cls].info == resolution.value && cache == old(cache)[cls := cache[cls]])
        && (cls !in cache ==> cache == old(cache) && res.None?)
        && (cls in cache && HolderOf(cache[cls].info, ship.value).None? ==> res.None?)
        && (cls in cache && HolderOf(cache[cls].info, ship.value).Some? ==>
              var r := cache[cls];
              var h := HolderOf(r.info, ship.value).value;
              && r.decided
              && (cls !in old(cache) || !old(cache[cls].decided) ==>
                    r.Getters() == Decision(r.info, MatrixReader(ship.value, h), ops, pos.value,
                                            if cls in old(cache) then old(cache[cls].Getters()) else Direction(None, None)))
              && res == PreferDirect(Read(MatrixReader(ship.value, h), r.shipToWorldGetter),
                                     Read(MatrixReader(ship.value, h), r.worldToShipGetter), ops, pos.value))
      ensures ship.Some? && pos.Some? && ship.value.className in old(cache) && old(cache[ship.value.className].decided) ==>
        var r := cache[ship.value.className];
        r.shipToWorldGetter == old(r.shipToWorldGetter) && r.worldToShipGetter == old(r.worldToShipGetter)
    {
      if ship.None? || pos.None? {
        return None;
      }
      var view := ship.value;
      var r := ResolvedFor(view);
      if r.None? {
        return None;
      }
      var holder := HolderOf(r.value.info, view);
      if holder.None? {
        return None;
      }
      var h := holder.value;
      var matrixOf := MatrixReader(view, h);
      r.value.DecideDirectionIfNeeded(matrixOf, ops, pos.value);
      res := PreferDirect(Read(matrixOf, r.value.shipToWorldGetter), Read(matrixOf, r.value.worldToShipGetter), ops, pos.value);
    }

    /** worldToShipyard: the mirror image, preferring world->ship. */
    method WorldToShipyard(ship: Option<ShipView>, pos: Option<Vec3>, ops: MatrixOps) returns (res: Option<Vec3>)
      modifies this, if ship.Some? && ship.value.className in cache then {cache[ship.value.className]} else {}
      ensures ship.None? || pos.None? ==> res.None? && cache == old(cache)
      ensures res.Some? ==>
        var cls := ship.value.className;
        && cls in cache && cache[cls].decided
        && HolderOf(cache[cls].info, ship.value).Some?
        && var r := cache[cls];
           var h := HolderOf(r.info, ship.value).value;
           res == PreferDirect(Read(MatrixReader(ship.value, h), r.worldToShipGetter),
                               Read(MatrixReader(ship.value, h), r.shipToWorldGetter), ops, pos.value)
      ensures ship.Some? && pos.Some? ==>
        var cls := ship.value.className;
        var resolution := ResolutionOf(ship.value.methods, ship.value.methodsOf);
        && (cls in cache <==> cls in old(cache) || resolution.Some?)
        && (cls in old(cache) ==> cache == old(cache))
        && (cls !in old(cache) && cls in cache ==>
              fresh(cache[cls]) && cache[cls].info == resolution.value && cache == old(cache)[cls := cache[cls]])
        && (cls !in cache ==> cache == old(cache) && res.None?)
        && (cls in cache && HolderOf(cache[cls].info, ship.value).None? ==> res.None?)
        && (cls in cache && HolderOf(cache[cls].info, ship.value).Some? ==>
              var r := cache[cls];
              var h := HolderOf(r.info, ship.value).value;
              && r.decided
              && (cls !in old(cache) || !old(cache[cls].decided) ==>
                    r.Getters() == Decision(r.info, MatrixReader(ship.value, h), ops, pos.value,
                                            if cls in old(cache) then old(cache[cls].Getters()) else Direction(None, None)))
              && res == PreferDirect(Read(MatrixReader(ship.value, h), r.worldToShipGetter),
                                     Read(MatrixReader(ship.value, h), r.shipToWorldGetter), ops, pos.value))
      ensures ship.Some? && pos.Some? && ship.value.className in old(cache) && old(cache[ship.value.className].decided) ==>
        var r := cache[ship.value.className];
        r.shipToWorldGetter == old(r.shipToWorldGetter) && r.worldToShipGetter == old(r.worldToShipGetter)
    {
      if ship.None? || pos.None? {
        return None;
      }
      var view := ship.value;
      var r := ResolvedFor(view);
      if r.None? {
        return None;
      }
      var holder := HolderOf(r.value.info, view);
      if holder.None? {
        return None;
      }
      var h := holder.value;
      var matrixOf := MatrixReader(view, h);
      r.value.DecideDirectionIfNeeded(matrixOf, ops, pos.value);
      res := PreferDirect(Read(matrixOf, r.value.worldToShipGetter), Read(matrixOf, r.value.shipToWorldGetter), ops, pos.value);
    }
  }
}
