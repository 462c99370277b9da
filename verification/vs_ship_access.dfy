/**
 * Finding the ship that manages a world position (VsShipAccess.java). The
 * lookup entry point of Valkyrien Skies is not linked against: a handful of
 * utility classes are scanned for a static "get ship managing pos" method,
 * the best one is cached together with the kind of position it takes, and
 * its result is normalised to an optional ship.
 */
module VsShipAccess {
  import opened Wrappers
  import opened Text
  import opened Reflect
  import opened Geometry
  import opened Selection

  /** The three position parameter types a lookup method may take. */
  datatype PosKind = BlockPosArg | Vec3Arg | JomlVectorArg

  const BLOCK_POS := "net.minecraft.core.BlockPos"
  const MC_VEC3 := "net.minecraft.world.phys.Vec3"
  const SERVER_LEVEL := "net.minecraft.server.level.ServerLevel"
  const OPTIONAL := "java.util.Optional"
  const EXACT_NAME := "getshipmanagingpos"

  /** The utility classes tried, in this order. */
  const VS_UTIL_CANDIDATES: seq<string> :=
    ["org.valkyrienskies.mod.common.VSGameUtilsKt",
     "org.valkyrienskies.mod.common.util.VSGameUtilsKt",
     "org.valkyrienskies.mod.common.ship_handling.VSGameUtilsKt",
     "org.valkyrienskies.api.ValkyrienSkies"]

  const LOOKUP_BANNED_TOKENS: seq<string> :=
    ["shipify", "create", "construct", "assemble", "spawn", "build", "generate", "convert"]

  /** classifyPosParam: which position kind a parameter type is, if any. */
  function ClassifyPosParam(c: JType): (k: Option<PosKind>)
    ensures k == Some(BlockPosArg) <==> c.name == BLOCK_POS
    ensures k == Some(Vec3Arg) <==> c.name == MC_VEC3
    ensures k == Some(JomlVectorArg) <==> c.name == "org.joml.Vector3d" || c.name == "org.joml.Vector3dc"
  {
    if c.name == BLOCK_POS then Some(BlockPosArg)
    else if c.name == MC_VEC3 then Some(Vec3Arg)
    else if c.name == "org.joml.Vector3d" || c.name == "org.joml.Vector3dc" then Some(JomlVectorArg)
    else None
  }

  /** Name tokens of side-effecting helpers; a lookup method never carries one. */
  function IsLookupBannedName(lower: string): (r: bool)
    ensures r ==> exists t :: t in LOOKUP_BANNED_TOKENS && Contains(lower, t)
    ensures (exists t :: t in LOOKUP_BANNED_TOKENS && Contains(lower, t)) ==> r
  {
    || Contains(lower, "shipify")
    || Contains(lower, "create")
    || Contains(lower, "construct")
    || Contains(lower, "assemble")
    || Contains(lower, "spawn")
    || Contains(lower, "build")
    || Contains(lower, "generate")
    || Contains(lower, "convert")
  }

  /** The position kind of a two-parameter method, read off its second parameter. */
  function KindOf(m: MethodDesc): Option<PosKind>
  {
    if |m.params| == 2 then ClassifyPosParam(m.params[1]) else None
  }

  /**
   * The hard filter: static; a name with get, ship and managing and no banned
   * token; (ServerLevel, position) parameters; a non-void result. The methods
   * scanned are those `getMethods` lists, so all of them are public.
   */
  predicate IsLookupCandidate(m: MethodDesc)
  {
    var name := LowerName(m);
    && m.isStatic
    && !IsLookupBannedName(name)
    && Contains(name, "get") && Contains(name, "ship") && Contains(name, "managing")
    && |m.params| == 2
    && AssignableTo(m.params[0], SERVER_LEVEL)
    && KindOf(m).Some?
    && m.returnType.name != VOID.name
  }

  /** The score of a lookup candidate: the exact name dominates, then "managingpos", then the kind and an Optional result. */
  function LookupScore(m: MethodDesc): (s: int)
    ensures 0 <= s <= 335
    ensures LowerName(m) == EXACT_NAME ==> s >= 300
    ensures LowerName(m) != EXACT_NAME ==> s <= 135
    ensures LowerName(m) != EXACT_NAME && !Contains(LowerName(m), "managingpos") ==> s <= 35
  {
    var name := LowerName(m);
    assert name == EXACT_NAME ==> Contains(name, "managingpos") by {
      if name == EXACT_NAME {
        assert OccursAt(name, "managingpos", 7);
        ContainsIff(name, "managingpos");
      }
    }
    (if Contains(name, "managingpos") then 100 else 0)
    + (if name == EXACT_NAME then 200 else 0)
    + (if KindOf(m) == Some(Vec3Arg) then 10 else 0)
    + (if KindOf(m) == Some(JomlVectorArg) then 8 else 0)
    + (if AssignableTo(m.returnType, OPTIONAL) then 25 else 0)
  }

  /** A found lookup method and the position kind it takes (the record Lookup). */
  datatype Lookup = Lookup(getter: MethodDesc, kind: PosKind)

  function LookupOf(m: MethodDesc): (l: Lookup)
    requires IsLookupCandidate(m)
    ensures l.getter == m && Some(l.kind) == KindOf(m)
  {
    Lookup(m, KindOf(m).value)
  }

  /**
   * What Class.forName and getMethods give for one utility class: the class
   * is not found, loading or inspecting it throws something else (a linkage
   * or security error, which escapes the search), or its public methods.
   */
  datatype ClassLoad = ClassNotFound | LoadThrew | Loaded(methods: seq<MethodDesc>)

  /** The outcome of findShipLookupMethod: a lookup, null, or a throwable that escapes it. */
  datatype Search = Found(lookup: Lookup) | NoLookup | SearchThrew

  /** The class named `cn` loads and declares at least one lookup candidate. */
  predicate ClassHasMatch(loadClass: string -> ClassLoad, cn: string)
  {
    loadClass(cn).Loaded? && exists i :: 0 <= i < |loadClass(cn).methods| && IsLookupCandidate(loadClass(cn).methods[i])
  }

  /** The search moves past the class named `cn`: it is not found, or it has no candidate. */
  predicate PassedOver(loadClass: string -> ClassLoad, cn: string)
  {
    loadClass(cn).ClassNotFound? || (loadClass(cn).Loaded? && !ClassHasMatch(loadClass, cn))
  }

  /** The search moves past every class before number `c`. */
  predicate AllPassedBefore(loadClass: string -> ClassLoad, c: int)
  {
    forall d :: 0 <= d < c && d < |VS_UTIL_CANDIDATES| ==> PassedOver(loadClass, VS_UTIL_CANDIDATES[d])
  }

  /** `l` is the first-maximum candidate of class number `c`, and the search moved past every earlier class. */
  ghost predicate ChosenFrom(loadClass: string -> ClassLoad, c: int, l: Lookup)
  {
    && 0 <= c < |VS_UTIL_CANDIDATES|
    && AllPassedBefore(loadClass, c)
    && loadClass(VS_UTIL_CANDIDATES[c]).Loaded?
    && var ms := loadClass(VS_UTIL_CANDIDATES[c]).methods;
       exists k :: IsFirstMax(ms, IsLookupCandidate, LookupScore, k) && l == LookupOf(ms[k])
  }

  /** Class number `c` throws, and the search moved past every earlier class. */
  predicate ThrewAt(loadClass: string -> ClassLoad, c: int)
  {
    0 <= c < |VS_UTIL_CANDIDATES| && AllPassedBefore(loadClass, c) && loadClass(VS_UTIL_CANDIDATES[c]).LoadThrew?
  }

  /** What findShipLookupMethod must produce for the given class loader. */
  ghost predicate IsLookupChoice(loadClass: string -> ClassLoad, s: Search)
  {
    match s
    case NoLookup => AllPassedBefore(loadClass, |VS_UTIL_CANDIDATES|)
    case SearchThrew => exists c :: ThrewAt(loadClass, c)
    case Found(l) => exists c :: ChosenFrom(loadClass, c, l)
  }

  /** The class a lookup was chosen from has a match, so the search does not move past it. */
  lemma ChosenHasMatch(loadClass: string -> ClassLoad, c: int, l: Lookup)
    requires ChosenFrom(loadClass, c, l)
    ensures ClassHasMatch(loadClass, VS_UTIL_CANDIDATES[c])
    ensures !PassedOver(loadClass, VS_UTIL_CANDIDATES[c])
  {
    var ms := loadClass(VS_UTIL_CANDIDATES[c]).methods;
    var k :| IsFirstMax(ms, IsLookupCandidate, LookupScore, k) && l == LookupOf(ms[k]);
    assert IsLookupCandidate(ms[k]);
  }

  /**
   * The search stops at the first class it does not move past: the outcome
   * is a function of the loaded classes, and a class that throws hides every
   * later class, matching or not.
   */
  lemma {:induction false} LookupChoiceUnique(loadClass: string -> ClassLoad, s1: Search, s2: Search)
    requires IsLookupChoice(loadClass, s1) && IsLookupChoice(loadClass, s2)
    ensures s1 == s2
  {
    // the class each outcome stops at, |VS_UTIL_CANDIDATES| when it runs off the end
    var c1 := StopOf(loadClass, s1);
    var c2 := StopOf(loadClass, s2);
    // neither stop lies before the other: the search moves past every class before a stop
    assert c1 == c2;
    if c1 < |VS_UTIL_CANDIDATES| {
      if loadClass(VS_UTIL_CANDIDATES[c1]).LoadThrew? {
        assert loadClass(VS_UTIL_CANDIDATES[c2]).LoadThrew?;
      } else {
        ChosenFromUnique(loadClass, c1, s1.lookup, s2.lookup);
      }
    }
  }

  /** Within one class the chosen lookup is the first maximum, so there is only one. */
  lemma ChosenFromUnique(loadClass: string -> ClassLoad, c: int, l1: Lookup, l2: Lookup)
    requires ChosenFrom(loadClass, c, l1) && ChosenFrom(loadClass, c, l2)
    ensures l1 == l2
  {
    var ms := loadClass(VS_UTIL_CANDIDATES[c]).methods;
    var k1 :| IsFirstMax(ms, IsLookupCandidate, LookupScore, k1) && l1 == LookupOf(ms[k1]);
    var k2 :| IsFirstMax(ms, IsLookupCandidate, LookupScore, k2) && l2 == LookupOf(ms[k2]);
    FirstMaxUnique(ms, IsLookupCandidate, LookupScore, k1, k2);
  }

  /** A search that finds a lookup neither comes up empty nor throws. */
  lemma FoundExcludesOthers(loadClass: string -> ClassLoad, l: Lookup)
    requires IsLookupChoice(loadClass, Found(l))
    ensures !IsLookupChoice(loadClass, NoLookup) && !IsLookupChoice(loadClass, SearchThrew)
  {
    if IsLookupChoice(loadClass, NoLookup) {
      LookupChoiceUnique(loadClass, Found(l), NoLookup);
    }
    if IsLookupChoice(loadClass, SearchThrew) {
      LookupChoiceUnique(loadClass, Found(l), SearchThrew);
    }
  }

  /** A class index at which a search outcome stops, with what that index says about the classes. */
  lemma StopOf(loadClass: string -> ClassLoad, s: Search) returns (c: int)
    requires IsLookupChoice(loadClass, s)
    ensures 0 <= c <= |VS_UTIL_CANDIDATES| && AllPassedBefore(loadClass, c)
    ensures c == |VS_UTIL_CANDIDATES| <==> s.NoLookup?
    ensures c < |VS_UTIL_CANDIDATES| ==> !PassedOver(loadClass, VS_UTIL_CANDIDATES[c])
    ensures s.SearchThrew? <==> c < |VS_UTIL_CANDIDATES| && loadClass(VS_UTIL_CANDIDATES[c]).LoadThrew?
    ensures s.Found? ==> ChosenFrom(loadClass, c, s.lookup)
  {
    match s
    case NoLookup =>
      c := |VS_UTIL_CANDIDATES|;
    case SearchThrew =>
      c :| ThrewAt(loadClass, c);
    case Found(l) =>
      c :| ChosenFrom(loadClass, c, l);
      ChosenHasMatch(loadClass, c, l);
  }

  /**
   * findShipLookupMethod: try the utility classes in order, skipping those
   * that are not found; any other failure to load one escapes the search;
   * the first class with any candidate decides, and within it the first
   * candidate of maximal score wins.
   */
  method FindShipLookupMethod(loadClass: string -> ClassLoad) returns (found: Search)
    ensures IsLookupChoice(loadClass, found)
    ensures found.Found? ==> IsLookupCandidate(found.lookup.getter) && Some(found.lookup.kind) == KindOf(found.lookup.getter)
  {
    for c := 0 to |VS_UTIL_CANDIDATES|
      invariant AllPassedBefore(loadClass, c)
    {
      var util := loadClass(VS_UTIL_CANDIDATES[c]);
      if util.ClassNotFound? {
        continue;
      }
      if util.LoadThrew? {
        assert ThrewAt(loadClass, c);
        return SearchThrew;
      }
      var ms := util.methods;
      var best := FirstMax(ms, IsLookupCandidate, LookupScore);
      if best.Some? {
        found := Found(LookupOf(ms[best.value]));
        assert ChosenFrom(loadClass, c, found.lookup);
        return;
      }
    }
    found := NoLookup;
  }

  // ---------------- invoking the lookup ----------------

  /** The position argument handed to the lookup method. */
  datatype LookupArg = Vec3Value(v: Vec3) | JomlVector(v: Vec3) | BlockCoords(x: int, y: int, z: int)

  /** BlockPos.containing: the block whose unit cube holds the point. */
  function Containing(p: Vec3): (b: LookupArg)
    ensures b.BlockCoords?
    ensures b.x as real <= p.x < b.x as real + 1.0
    ensures b.y as real <= p.y < b.y as real + 1.0
    ensures b.z as real <= p.z < b.z as real + 1.0
  {
    BlockCoords(p.x.Floor, p.y.Floor, p.z.Floor)
  }

  /** Vec3.atCenterOf: the centre of a block. */
  function AtCenterOf(x: int, y: int, z: int): (p: Vec3)
    ensures Containing(p) == BlockCoords(x, y, z)
  {
    Vec3(x as real + 0.5, y as real + 0.5, z as real + 0.5)
  }

  /** The argument built for each position kind. */
  function ArgumentFor(kind: PosKind, worldPos: Vec3): (a: LookupArg)
    ensures kind == Vec3Arg ==> a == Vec3Value(worldPos)
    ensures kind == JomlVectorArg ==> a == JomlVector(worldPos)
    ensures kind == BlockPosArg ==> a == Containing(worldPos)
  {
    match kind
    case Vec3Arg => Vec3Value(worldPos)
    case JomlVectorArg => JomlVector(worldPos)
    case BlockPosArg => Containing(worldPos)
  }

  /** What `Method.invoke` produced: a throwable, null, an Optional, or a plain object. */
  datatype InvokeResult<T> = Threw | NullResult | OptionalOf(opt: Option<T>) | Plain(obj: T)

  /** Result normalisation: null and throwables become empty, an Optional passes through, anything else is wrapped. */
  function Normalise<T>(r: InvokeResult<T>): (s: Option<T>)
    ensures s.Some? <==> r.Plain? || (r.OptionalOf? && r.opt.Some?)
    ensures r.Plain? ==> s == Some(r.obj)
    ensures r.OptionalOf? ==> s == r.opt
  {
    match r
    case Threw => None
    case NullResult => None
    case OptionalOf(o) => o
    case Plain(obj) => Some(obj)
  }

  /** The static SHIP_LOOKUP / LOOKUP_KIND pair. */
  class ShipAccess {
    var shipLookup: Option<MethodDesc>
    var lookupKind: Option<PosKind>

    constructor ()
      ensures shipLookup.None? && lookupKind.None?
    {
      shipLookup := None;
      lookupKind := None;
    }

    predicate Ready()
      reads this
    {
      shipLookup.Some? && lookupKind.Some?
    }

    /**
     * getShipManagingPos(level, Vec3): find and cache the lookup on first
     * use (a search that finds nothing or throws caches nothing and answers
     * empty), call it with the argument its kind needs, and normalise the
     * result.
     */
    method GetShipManagingPos<T>(loadClass: string -> ClassLoad,
                                 invoke: (MethodDesc, LookupArg) -> InvokeResult<T>,
                                 worldPos: Vec3) returns (r: Option<T>)
      modifies this
      ensures old(Ready()) ==>
        && shipLookup == old(shipLookup) && lookupKind == old(lookupKind)
        && r == Normalise(invoke(shipLookup.value, ArgumentFor(lookupKind.value, worldPos)))
      ensures !old(Ready()) && !IsLookupChoice(loadClass, NoLookup) && !IsLookupChoice(loadClass, SearchThrew) ==>
        && Ready()
        && IsLookupChoice(loadClass, Found(Lookup(shipLookup.value, lookupKind.value)))
        && r == Normalise(invoke(shipLookup.value, ArgumentFor(lookupKind.value, worldPos)))
      ensures !old(Ready()) && (IsLookupChoice(loadClass, NoLookup) || IsLookupChoice(loadClass, SearchThrew)) ==>
        r.None? && shipLookup == old(shipLookup) && lookupKind == old(lookupKind)
    {
      if !Ready() {
        var found := FindShipLookupMethod(loadClass);
        if !found.Found? {
          return None;
        }
        FoundExcludesOthers(loadClass, found.lookup);
        shipLookup := Some(found.lookup.getter);
        lookupKind := Some(found.lookup.kind);
      }
      r := Normalise(invoke(shipLookup.value, ArgumentFor(lookupKind.value, worldPos)));
    }

    /** getShipManagingPos(level, BlockPos): the lookup at the block's centre. */
    method GetShipManagingBlock<T>(loadClass: string -> ClassLoad,
                                   invoke: (MethodDesc, LookupArg) -> InvokeResult<T>,
                                   x: int, y: int, z: int) returns (r: Option<T>)
      modifies this
      ensures old(Ready()) ==>
        && shipLookup == old(shipLookup) && lookupKind == old(lookupKind)
        && r == Normalise(invoke(shipLookup.value, ArgumentFor(lookupKind.value, AtCenterOf(x, y, z))))
      ensures old(Ready()) && lookupKind.value == BlockPosArg ==>
        r == Normalise(invoke(shipLookup.value, BlockCoords(x, y, z)))
      ensures !old(Ready()) && (IsLookupChoice(loadClass, NoLookup) || IsLookupChoice(loadClass, SearchThrew)) ==> r.None?
    {
      r := GetShipManagingPos(loadClass, invoke, AtCenterOf(x, y, z));
    }
  }
}
