/**
 * The ritual core block entity: it scans the socles around it for a ritual
 * configuration, starts a ritual, and then drives it one server tick at a
 * time, activating one socle every fifth tick until the ritual's length has
 * passed.
 *
 * The world, the subclass hooks and the random shuffle are parameters: the
 * block entities of the world are a function from positions, `onRitualStart`
 * is a function of the configuration, the value `onRitualCompleted` returns
 * is a boolean, and the shuffle is any function that permutes its argument.
 * The calls a tick makes to code outside this class are returned, in order,
 * as a sequence of `Call`s.
 */
module RitualCore {
  import opened Wrappers
  import opened Minecraft
  import opened Sequences

  /** A block entity as far as the ritual core can tell: a ritual socle holding an item, or anything else. */
  datatype BlockEntity = RitualSocle(item: ItemStack) | OtherBlockEntity

  /** World.getBlockEntity: None where there is no block entity. */
  type World = BlockPos -> Option<BlockEntity>

  /** MathUtil.distance between two positions. */
  type Distance = (BlockPos, BlockPos) -> real

  /**
   * RitualConfiguration without its stability score. Each RitualSocleEntry
   * is reduced to its position: the three distance doubles it also holds
   * are not modelled.
   */
  datatype RitualConfiguration = RitualConfiguration(length: int, socles: seq<BlockPos>)
  {
    /** A configuration without socles; for a scanned one that is the one of minimal length. */
    predicate IsEmpty()
      ensures WellFormed() ==> (IsEmpty() <==> length == 40)
    {
      |socles| == 0
    }

    /** The length a scan gives: five ticks per socle and forty more. */
    ghost predicate WellFormed() {
      length == 5 * |socles| + 40
    }
  }

  // ---------------------------------------------------------------------------
  // examineConfiguration, structural part
  // ---------------------------------------------------------------------------

  /** The stream filter of the POI query: only POIs on the centre's level. */
  function OnLevelOf(center: BlockPos): BlockPos -> bool {
    (p: BlockPos) => p.y == center.y
  }

  /** The block entity at `p` is a ritual socle holding a non-empty item. */
  predicate HoldsFilledSocle(world: World, p: BlockPos) {
    match world(p)
    case Some(RitualSocle(item)) => !item.IsEmpty()
    case _ => false
  }

  /** Whether the scan keeps a socle POI. */
  function Retained(world: World, includeEmptySocles: bool): BlockPos -> bool {
    (p: BlockPos) => includeEmptySocles || HoldsFilledSocle(world, p)
  }

  /** The socle POIs the scan iterates over. */
  function SoclePOIs(pois: seq<BlockPos>, center: BlockPos): seq<BlockPos> {
    Filter(pois, OnLevelOf(center))
  }

  /** The socle entries a scan returns. */
  function ExaminedSocles(pois: seq<BlockPos>, center: BlockPos, includeEmptySocles: bool, world: World): seq<BlockPos> {
    Filter(SoclePOIs(pois, center), Retained(world, includeEmptySocles))
  }

  /** The configuration a scan returns (stability left out). */
  function Examined(pois: seq<BlockPos>, center: BlockPos, includeEmptySocles: bool, world: World): RitualConfiguration {
    var socles := ExaminedSocles(pois, center, includeEmptySocles, world);
    RitualConfiguration(|socles| * 5 + 40, socles)
  }

  /** Distances from ps[i] to every other ps[j] with j < m, in order of j. */
  function DistancesFrom(ps: seq<BlockPos>, i: nat, m: nat, distance: Distance): seq<real>
    requires i < |ps| && m <= |ps|
  {
    if m == 0 then []
    else DistancesFrom(ps, i, m - 1, distance) + (if m - 1 == i then [] else [distance(ps[i], ps[m - 1])])
  }

  /** The flat distance list built by the first m iterations of the scan loop. */
  function PairDistances(ps: seq<BlockPos>, keep: BlockPos -> bool, m: nat, distance: Distance): seq<real>
    requires m <= |ps|
  {
    if m == 0 then []
    else PairDistances(ps, keep, m - 1, distance) + (if keep(ps[m - 1]) then DistancesFrom(ps, m - 1, |ps|, distance) else [])
  }

  /** The distance sample the stability score is computed from, seeded with 0 when empty. */
  function DistanceSample(pois: seq<BlockPos>, center: BlockPos, includeEmptySocles: bool, world: World, distance: Distance): seq<real> {
    var ps := SoclePOIs(pois, center);
    var all := PairDistances(ps, Retained(world, includeEmptySocles), |ps|, distance);
    if all == [] then [0.0] else all
  }

  /**
   * examineConfiguration without the stability score: keeps the socle POIs on
   * the centre's level (and, unless `includeEmptySocles`, only those backed by
   * a socle with an item), collects the distances from every kept socle to
   * every other socle POI, and sets the length from the socle count.
   */
  method ExamineConfiguration(pois: seq<BlockPos>, center: BlockPos, includeEmptySocles: bool, world: World, distance: Distance)
    returns (configuration: RitualConfiguration, allDistances: seq<real>)
    ensures configuration == Examined(pois, center, includeEmptySocles, world)
    ensures allDistances == DistanceSample(pois, center, includeEmptySocles, world, distance)
  {
    var soclePOIs := SoclePOIs(pois, center);
    ghost var keep := Retained(world, includeEmptySocles);
    allDistances := [];
    var socles: seq<BlockPos> := [];
    for i := 0 to |soclePOIs|
      invariant socles == Filter(soclePOIs[..i], keep)
      invariant allDistances == PairDistances(soclePOIs, keep, i, distance)
    {
      var soclePos := soclePOIs[i];
      ScanStep(soclePOIs, i, keep, distance);
      assert keep(soclePos) == (includeEmptySocles || HoldsFilledSocle(world, soclePos));
      if !includeEmptySocles {
        var entity := world(soclePos);
        if !(entity.Some? && entity.value.RitualSocle?) {
          continue;
        }
        if entity.value.item.IsEmpty() {
          continue;
        }
      }
      allDistances := AddDistancesFrom(allDistances, soclePOIs, i, distance);
      socles := socles + [soclePos];
    }
    assert soclePOIs[..|soclePOIs|] == soclePOIs;
    if allDistances == [] {
      allDistances := [0.0];
    }
    configuration := RitualConfiguration(|socles| * 5 + 40, socles);
  }

  /** One iteration of the scan extends the kept socles and the distance list by socle i exactly when it is kept. */
  lemma ScanStep(ps: seq<BlockPos>, i: nat, keep: BlockPos -> bool, distance: Distance)
    requires i < |ps|
    ensures keep(ps[i]) ==> Filter(ps[..i + 1], keep) == Filter(ps[..i], keep) + [ps[i]]
    ensures !keep(ps[i]) ==> Filter(ps[..i + 1], keep) == Filter(ps[..i], keep)
    ensures PairDistances(ps, keep, i + 1, distance) ==
      PairDistances(ps, keep, i, distance) + (if keep(ps[i]) then DistancesFrom(ps, i, |ps|, distance) else [])
  {
    assert ps[..i + 1] == ps[..i] + [ps[i]];
    FilterSnoc(ps[..i], ps[i], keep);
  }

  /** The inner loop of the scan: appends the distance from socle i to every other socle POI. */
  method AddDistancesFrom(allDistances: seq<real>, soclePOIs: seq<BlockPos>, i: nat, distance: Distance) returns (r: seq<real>)
    requires i < |soclePOIs|
    ensures r == allDistances + DistancesFrom(soclePOIs, i, |soclePOIs|, distance)
  {
    r := allDistances;
    for j := 0 to |soclePOIs|
      invariant r == allDistances + DistancesFrom(soclePOIs, i, j, distance)
    {
      if j == i {
        continue;
      }
      r := r + [distance(soclePOIs[i], soclePOIs[j])];
    }
  }

  /** A scanned configuration is well formed, and empty exactly when no same-level POI qualifies. */
  lemma ExaminedWellFormed(pois: seq<BlockPos>, center: BlockPos, includeEmptySocles: bool, world: World)
    ensures Examined(pois, center, includeEmptySocles, world).WellFormed()
    ensures Examined(pois, center, includeEmptySocles, world).IsEmpty() <==>
      forall p :: p in pois && p.y == center.y ==> !includeEmptySocles && !HoldsFilledSocle(world, p)
  {
    var socles := ExaminedSocles(pois, center, includeEmptySocles, world);
    if socles != [] {
      ExaminedSoclesMembership(pois, center, includeEmptySocles, world, socles[0]);
    }
    forall p | p in pois && p.y == center.y && (includeEmptySocles || HoldsFilledSocle(world, p))
      ensures socles != []
    {
      ExaminedSoclesMembership(pois, center, includeEmptySocles, world, p);
    }
  }

  /** A position is among the scanned socles exactly when it is a same-level POI the scan retains. */
  lemma ExaminedSoclesMembership(pois: seq<BlockPos>, center: BlockPos, includeEmptySocles: bool, world: World, p: BlockPos)
    ensures p in ExaminedSocles(pois, center, includeEmptySocles, world) <==>
      p in pois && p.y == center.y && (includeEmptySocles || HoldsFilledSocle(world, p))
  {
    var ps := SoclePOIs(pois, center);
    var keep := Retained(world, includeEmptySocles);
    if p in Filter(ps, keep) {
      FilterSound(ps, keep, p);
      FilterSound(pois, OnLevelOf(center), p);
      var k :| 0 <= k < |Filter(ps, keep)| && Filter(ps, keep)[k] == p;
      FilterKept(ps, keep);
      var j :| 0 <= j < |ps| && ps[j] == p;
      FilterKept(pois, OnLevelOf(center));
    }
    if p in pois && p.y == center.y && (includeEmptySocles || HoldsFilledSocle(world, p)) {
      FilterComplete(pois, OnLevelOf(center), p);
      FilterComplete(ps, keep, p);
    }
  }

  /** Scanning two POI lists in a row gives the two scans in a row: the scan keeps the POI order. */
  lemma ExaminedSoclesKeepOrder(pois1: seq<BlockPos>, pois2: seq<BlockPos>, center: BlockPos, includeEmptySocles: bool, world: World)
    ensures ExaminedSocles(pois1 + pois2, center, includeEmptySocles, world) ==
      ExaminedSocles(pois1, center, includeEmptySocles, world) + ExaminedSocles(pois2, center, includeEmptySocles, world)
  {
    FilterAppend(pois1, pois2, OnLevelOf(center));
    FilterAppend(SoclePOIs(pois1, center), SoclePOIs(pois2, center), Retained(world, includeEmptySocles));
  }

  /** With `includeEmptySocles`, every same-level POI becomes a socle entry, in POI order. */
  lemma IncludeEmptySoclesKeepsAll(pois: seq<BlockPos>, center: BlockPos, world: World)
    ensures ExaminedSocles(pois, center, true, world) == SoclePOIs(pois, center)
  {
    FilterKeepsAll(SoclePOIs(pois, center), Retained(world, true));
  }

  lemma {:induction false} DistancesFromLength(ps: seq<BlockPos>, i: nat, m: nat, distance: Distance)
    requires i < |ps| && m <= |ps|
    ensures |DistancesFrom(ps, i, m, distance)| == if i < m then m - 1 else m
  {
    if m > 0 {
      DistancesFromLength(ps, i, m - 1, distance);
    }
  }

  lemma MulSucc(a: int, c: int)
    ensures (a + 1) * c == a * c + c
  {
  }

  lemma {:induction false} PairDistancesLength(ps: seq<BlockPos>, keep: BlockPos -> bool, m: nat, distance: Distance)
    requires m <= |ps|
    ensures |PairDistances(ps, keep, m, distance)| == |Filter(ps[..m], keep)| * (|ps| - 1)
  {
    if m == 0 {
      assert ps[..0] == [];
    } else {
      PairDistancesLength(ps, keep, m - 1, distance);
      PairDistancesStep(ps, keep, m, distance);
      MulSucc(|Filter(ps[..m - 1], keep)|, |ps| - 1);
    }
  }

  /** Iteration m - 1 of the scan adds |ps| - 1 distances and one socle if it keeps socle m - 1, and nothing otherwise. */
  lemma PairDistancesStep(ps: seq<BlockPos>, keep: BlockPos -> bool, m: nat, distance: Distance)
    requires 0 < m <= |ps|
    ensures keep(ps[m - 1]) ==>
      && |PairDistances(ps, keep, m, distance)| == |PairDistances(ps, keep, m - 1, distance)| + (|ps| - 1)
      && |Filter(ps[..m], keep)| == |Filter(ps[..m - 1], keep)| + 1
    ensures !keep(ps[m - 1]) ==>
      && |PairDistances(ps, keep, m, distance)| == |PairDistances(ps, keep, m - 1, distance)|
      && |Filter(ps[..m], keep)| == |Filter(ps[..m - 1], keep)|
  {
    assert ps[..m] == ps[..m - 1] + [ps[m - 1]];
    FilterSnoc(ps[..m - 1], ps[m - 1], keep);
    DistancesFromLength(ps, m - 1, |ps|, distance);
  }

  /**
   * The distance sample holds |ps| - 1 distances for every kept socle, where
   * ps counts every same-level socle POI, including those the scan dropped;
   * it is never empty.
   */
  lemma DistanceSampleSize(pois: seq<BlockPos>, center: BlockPos, includeEmptySocles: bool, world: World, distance: Distance)
    ensures var n := |SoclePOIs(pois, center)|;
      var kept := |ExaminedSocles(pois, center, includeEmptySocles, world)|;
      |DistanceSample(pois, center, includeEmptySocles, world, distance)| == if kept * (n - 1) == 0 then 1 else kept * (n - 1)
  {
    var ps := SoclePOIs(pois, center);
    PairDistancesLength(ps, Retained(world, includeEmptySocles), |ps|, distance);
    assert ps[..|ps|] == ps;
  }

  // ---------------------------------------------------------------------------
  // resolveSocles and SocleInventory
  // ---------------------------------------------------------------------------

  /** The block entity at `p` is a ritual socle, whatever it holds. */
  predicate SocleAt(world: World, p: BlockPos) {
    world(p).Some? && world(p).value.RitualSocle?
  }

  /**
   * RitualConfiguration.resolveSocles: the block entity at each socle position,
   * in socle order, None where there is none. The cast to a socle throws for
   * any other block entity; the result is then None.
   */
  method ResolveSocles(configuration: RitualConfiguration, world: World) returns (r: Option<seq<Option<BlockEntity>>>)
    ensures r.None? <==> exists i :: 0 <= i < |configuration.socles| && world(configuration.socles[i]) == Some(OtherBlockEntity)
    ensures r.Some? ==> |r.value| == |configuration.socles|
    ensures r.Some? ==> forall i :: 0 <= i < |r.value| ==> r.value[i] == world(configuration.socles[i])
  {
    var socleEntities: seq<Option<BlockEntity>> := [];
    for i := 0 to |configuration.socles|
      invariant |socleEntities| == i
      invariant forall k :: 0 <= k < i ==> socleEntities[k] == world(configuration.socles[k])
      invariant forall k :: 0 <= k < i ==> world(configuration.socles[k]) != Some(OtherBlockEntity)
    {
      var entity := world(configuration.socles[i]);
      if entity == Some(OtherBlockEntity) {
        return None;
      }
      socleEntities := socleEntities + [entity];
    }
    return Some(socleEntities);
  }

  /** SocleInventory: a read-only inventory holding each socle's item, in socle order. */
  class SocleInventory {
    const items: array<ItemStack>

    /** Every entry must be a socle: a null entry makes the source throw. */
    constructor (socles: seq<Option<BlockEntity>>)
      requires forall i :: 0 <= i < |socles| ==> socles[i].Some? && socles[i].value.RitualSocle?
      ensures fresh(items)
      ensures items.Length == |socles|
      ensures forall i :: 0 <= i < |socles| ==> items[i] == socles[i].value.item
    {
      var list := new ItemStack[|socles|](_ => Empty);
      for i := 0 to |socles|
        invariant forall k :: 0 <= k < i ==> list[k] == socles[k].value.item
      {
        list[i] := socles[i].value.item;
      }
      items := list;
    }
  }

  // ---------------------------------------------------------------------------
  // The ritual scheduler
  // ---------------------------------------------------------------------------

  /** A call this class makes to code outside it during one tick. */
  datatype Call =
    | BeginExtraction(socle: BlockPos, core: BlockPos)  // socle.beginExtraction(this.pos)
    | DoRitualTick                                      // the per-tick hook
    | OnRitualCompleted                                 // the completion hook
    | MarkDirty                                         // markDirty()

  /** The three fields of the core that describe a ritual run. */
  datatype RunState = RunState(configuration: Option<RitualConfiguration>, ritualTick: int, lastActivatedSocle: int)

  /** The state of a core with no ritual running. */
  const Idle := RunState(None, -1, -1)

  /**
   * The run state invariant: idle means all three fields cleared; a running
   * ritual has a scanned configuration and has not passed its length.
   */
  ghost predicate Consistent(s: RunState) {
    if s.ritualTick < 0 then s == Idle
    else
      && s.configuration.Some?
      && s.configuration.value.WellFormed()
      && s.ritualTick <= s.configuration.value.length
      && s.lastActivatedSocle >= -1
  }

  /**
   * The state right after a successful start that stored configuration `c`
   * while the socle index was `index`: -1 from an idle core, and whatever
   * the running ritual had reached on a restart.
   */
  function Started(c: RitualConfiguration, index: int): RunState {
    RunState(Some(c), 0, index)
  }

  /** Whether this tick is one on which the socle index moves on. */
  predicate ActivationTick(s: RunState) {
    s.ritualTick >= 0 && s.ritualTick % 5 == 0
  }

  /** Whether this tick ends the ritual: the tick before incrementing has reached the length. */
  predicate CompletingTick(s: RunState)
    requires Consistent(s)
  {
    s.ritualTick >= 0 && s.ritualTick >= s.configuration.value.length
  }

  /** The run state after one call of tickServer. */
  function Next(s: RunState): (r: RunState)
    requires Consistent(s)
    ensures Consistent(r)
    ensures s.ritualTick < 0 ==> r == s
    ensures s.ritualTick >= 0 && !CompletingTick(s) ==>
      && r.configuration == s.configuration
      && r.ritualTick == s.ritualTick + 1
      && r.lastActivatedSocle == s.lastActivatedSocle + (if ActivationTick(s) then 1 else 0)
    ensures CompletingTick(s) ==> r == Idle
  {
    if s.ritualTick < 0 then s
    else
      var last := if s.ritualTick % 5 == 0 then s.lastActivatedSocle + 1 else s.lastActivatedSocle;
      if s.ritualTick >= s.configuration.value.length then Idle
      else RunState(s.configuration, s.ritualTick + 1, last)
  }

  /**
   * The socle signal of one tick: on an activation tick, the socle at the
   * incremented index is signalled if the index is below the socle count and
   * a socle block entity is still at its position; otherwise nothing.
   */
  function Activation(s: RunState, core: BlockPos, world: World): seq<Call>
    requires Consistent(s)
  {
    if s.ritualTick >= 0 && s.ritualTick % 5 == 0 && s.lastActivatedSocle + 1 < |s.configuration.value.socles| then
      SignalOf(s.configuration.value.socles[s.lastActivatedSocle + 1], core, world)
    else []
  }

  /**
   * A tick signals at most one socle: the one at the incremented index, on an
   * activation tick, when the index is below the socle count and a socle
   * block entity is still at its position.
   */
  lemma ActivationSignal(s: RunState, core: BlockPos, world: World)
    requires Consistent(s)
    ensures |Activation(s, core, world)| <= 1
    ensures |Activation(s, core, world)| == 1 <==>
      && ActivationTick(s)
      && s.lastActivatedSocle + 1 < |s.configuration.value.socles|
      && SocleAt(world, s.configuration.value.socles[s.lastActivatedSocle + 1])
    ensures |Activation(s, core, world)| == 1 ==>
      Activation(s, core, world)[0] == BeginExtraction(s.configuration.value.socles[s.lastActivatedSocle + 1], core)
  {
  }

  /** The hook calls that end a ritual: onRitualCompleted, then markDirty if it reported changes. */
  function Ending(completedChanges: bool): seq<Call> {
    [OnRitualCompleted] + (if completedChanges then [MarkDirty] else [])
  }

  /** The hook calls that end a ritual, on the completing tick only. */
  function Completion(s: RunState, completedChanges: bool): seq<Call>
    requires Consistent(s)
  {
    if CompletingTick(s) then Ending(completedChanges) else []
  }

  /**
   * The calls one tickServer makes, in order; `completedChanges` is what
   * onRitualCompleted returns if it is called.
   */
  function Calls(s: RunState, core: BlockPos, world: World, completedChanges: bool): seq<Call>
    requires Consistent(s)
  {
    if s.ritualTick < 0 then [] else Activation(s, core, world) + [DoRitualTick] + Completion(s, completedChanges)
  }

  predicate IsSignal(c: Call) {
    c.BeginExtraction?
  }

  predicate IsHookCall(c: Call) {
    !c.BeginExtraction?
  }

  lemma FilterSingleton<T>(x: T, keep: T -> bool)
    ensures Filter([x], keep) == if keep(x) then [x] else []
  {
    FilterSnoc([], x, keep);
  }

  /** Splitting the calls of a running tick into its signals and its hook calls. */
  lemma SplitTick(a: seq<Call>, fin: seq<Call>)
    requires forall i :: 0 <= i < |a| ==> IsSignal(a[i])
    requires forall i :: 0 <= i < |fin| ==> IsHookCall(fin[i])
    ensures Filter(a + [DoRitualTick] + fin, IsSignal) == a
    ensures Filter(a + [DoRitualTick] + fin, IsHookCall) == [DoRitualTick] + fin
  {
    var d: seq<Call> := [DoRitualTick];
    FilterAppend(a + d, fin, IsSignal);
    FilterAppend(a + d, fin, IsHookCall);
    FilterAppend(a, d, IsSignal);
    FilterAppend(a, d, IsHookCall);
    FilterSingleton(DoRitualTick, IsSignal);
    FilterSingleton(DoRitualTick, IsHookCall);
    FilterKeepsAll(a, IsSignal);
    FilterDropsAll(a, IsHookCall);
    FilterDropsAll(fin, IsSignal);
    FilterKeepsAll(fin, IsHookCall);
  }

  /**
   * One tickServer call signals at most the socle of Activation, and nothing
   * when idle; that signal comes before all of the call's hook calls.
   */
  lemma SignalsOfOneTick(s: RunState, core: BlockPos, world: World, completedChanges: bool)
    requires Consistent(s)
    ensures Filter(Calls(s, core, world, completedChanges), IsSignal) == Activation(s, core, world)
    ensures Calls(s, core, world, completedChanges) == Activation(s, core, world) + TickHooks(s, completedChanges)
  {
    if s.ritualTick >= 0 {
      ActivationSignal(s, core, world);
      SplitTick(Activation(s, core, world), Completion(s, completedChanges));
    }
  }

  /**
   * The hook calls of one tickServer call: none when idle; otherwise
   * doRitualTick once, followed on the completing call only by
   * onRitualCompleted and, when that returned true, markDirty.
   */
  function TickHooks(s: RunState, completedChanges: bool): seq<Call>
    requires Consistent(s)
  {
    if s.ritualTick < 0 then [] else [DoRitualTick] + Completion(s, completedChanges)
  }

  /** The hook calls among the calls of one tickServer call are TickHooks, in order. */
  lemma HooksOfOneTick(s: RunState, core: BlockPos, world: World, completedChanges: bool)
    requires Consistent(s)
    ensures Filter(Calls(s, core, world, completedChanges), IsHookCall) == TickHooks(s, completedChanges)
  {
    if s.ritualTick >= 0 {
      ActivationSignal(s, core, world);
      SplitTick(Activation(s, core, world), Completion(s, completedChanges));
    }
  }

  /** The run state after k calls of tickServer. */
  function Run(s: RunState, k: nat): (r: RunState)
    requires Consistent(s)
    ensures Consistent(r)
  {
    if k == 0 then s else Next(Run(s, k - 1))
  }

  /** The world each call of tickServer sees: call j, counting from 0, looks block entities up in worlds(j). */
  type Worlds = nat -> World

  /**
   * The world call j sees, worlds(j). Naming the lookup as a function of its
   * own lets the run lemmas match it as a plain term, which keeps their
   * proofs cheap for the verifier; it adds nothing to the model.
   */
  function WorldAt(worlds: Worlds, j: nat): World {
    worlds(j)
  }

  /** All calls made by k calls of tickServer, with the completion result fixed. */
  function RunCalls(s: RunState, k: nat, core: BlockPos, worlds: Worlds, completedChanges: bool): seq<Call>
    requires Consistent(s)
  {
    if k == 0 then [] else RunCalls(s, k - 1, core, worlds, completedChanges) + Calls(Run(s, k - 1), core, WorldAt(worlds, k - 1), completedChanges)
  }

  /** The hook calls of k tickServer calls: those of each call in turn. */
  function RunHooks(s: RunState, k: nat, completedChanges: bool): seq<Call>
    requires Consistent(s)
  {
    if k == 0 then [] else RunHooks(s, k - 1, completedChanges) + TickHooks(Run(s, k - 1), completedChanges)
  }

  /** The socle signals of k tickServer calls: those of each call in turn. */
  function RunSignals(s: RunState, k: nat, core: BlockPos, worlds: Worlds): seq<Call>
    requires Consistent(s)
  {
    if k == 0 then [] else RunSignals(s, k - 1, core, worlds) + Activation(Run(s, k - 1), core, WorldAt(worlds, k - 1))
  }

  /** One more tickServer call appends its own hook calls to those of the run so far. */
  lemma HooksStep(s: RunState, k: nat, core: BlockPos, worlds: Worlds, completedChanges: bool)
    requires Consistent(s) && k > 0
    ensures Filter(RunCalls(s, k, core, worlds, completedChanges), IsHookCall) ==
      Filter(RunCalls(s, k - 1, core, worlds, completedChanges), IsHookCall) + TickHooks(Run(s, k - 1), completedChanges)
    ensures RunHooks(s, k, completedChanges) == RunHooks(s, k - 1, completedChanges) + TickHooks(Run(s, k - 1), completedChanges)
  {
    var st := Run(s, k - 1);
    HooksOfOneTick(st, core, WorldAt(worlds, k - 1), completedChanges);
    FilterAppend(RunCalls(s, k - 1, core, worlds, completedChanges), Calls(st, core, WorldAt(worlds, k - 1), completedChanges), IsHookCall);
  }

  /** The hook calls among all calls of k tickServer calls are RunHooks, in order. */
  lemma {:induction false} HooksFiltered(s: RunState, k: nat, core: BlockPos, worlds: Worlds, completedChanges: bool)
    requires Consistent(s)
    ensures Filter(RunCalls(s, k, core, worlds, completedChanges), IsHookCall) == RunHooks(s, k, completedChanges)
  {
    if k > 0 {
      HooksFiltered(s, k - 1, core, worlds, completedChanges);
      HooksStep(s, k, core, worlds, completedChanges);
    }
  }

  /** One more tickServer call appends its own socle signal, if any, to those of the run so far. */
  lemma SignalsStep(s: RunState, k: nat, core: BlockPos, worlds: Worlds, completedChanges: bool)
    requires Consistent(s) && k > 0
    ensures Filter(RunCalls(s, k, core, worlds, completedChanges), IsSignal) ==
      Filter(RunCalls(s, k - 1, core, worlds, completedChanges), IsSignal) + Activation(Run(s, k - 1), core, WorldAt(worlds, k - 1))
    ensures RunSignals(s, k, core, worlds) == RunSignals(s, k - 1, core, worlds) + Activation(Run(s, k - 1), core, WorldAt(worlds, k - 1))
  {
    var st := Run(s, k - 1);
    SignalsOfOneTick(st, core, WorldAt(worlds, k - 1), completedChanges);
    FilterAppend(RunCalls(s, k - 1, core, worlds, completedChanges), Calls(st, core, WorldAt(worlds, k - 1), completedChanges), IsSignal);
  }

  /** The socle signals among all calls of k tickServer calls are RunSignals, in order. */
  lemma {:induction false} SignalsFiltered(s: RunState, k: nat, core: BlockPos, worlds: Worlds, completedChanges: bool)
    requires Consistent(s)
    ensures Filter(RunCalls(s, k, core, worlds, completedChanges), IsSignal) == RunSignals(s, k, core, worlds)
  {
    if k > 0 {
      SignalsFiltered(s, k - 1, core, worlds, completedChanges);
      SignalsStep(s, k, core, worlds, completedChanges);
    }
  }

  /** k calls of doRitualTick. */
  function Ticks(k: nat): seq<Call> {
    seq(k, _ => DoRitualTick)
  }

  lemma TicksSnoc(k: nat, j: nat)
    requires k == j + 1
    ensures Ticks(k) == Ticks(j) + [DoRitualTick]
  {
  }

  /** How many of the ticks t, t+1, ..., t+k-1 are multiples of five. */
  function Activations(t: nat, k: nat): nat {
    if k == 0 then 0 else Activations(t, k - 1) + (if (t + k - 1) % 5 == 0 then 1 else 0)
  }

  lemma FifthStep(m: nat)
    ensures (m + 5) / 5 == (m + 4) / 5 + (if m % 5 == 0 then 1 else 0)
  {
    assert m == 5 * (m / 5) + m % 5;
  }

  /** From tick 0, k ticks contain ceiling(k / 5) activation ticks. */
  lemma {:induction false} ActivationsFromZero(k: nat)
    ensures Activations(0, k) == (k + 4) / 5
  {
    if k > 0 {
      ActivationsFromZero(k - 1);
      FifthStep(k - 1);
    }
  }

  /** Activation tick t, a multiple of five, is the one that moves the index on for the (t / 5 + 1)-th time. */
  lemma ActivationTickNumber(t: nat)
    requires t % 5 == 0
    ensures 5 * Activations(0, t) == t
  {
    ActivationsFromZero(t);
    var q := t / 5;
    assert t == 5 * q;
    assert (t + 4) / 5 == q;
  }

  /**
   * While the length has not been passed, each call adds one to the tick and
   * one to the socle index on every fifth tick, and keeps the configuration.
   */
  lemma {:induction false} RunWhileRunning(s: RunState, k: nat)
    requires Consistent(s) && s.ritualTick >= 0
    requires s.ritualTick + k <= s.configuration.value.length
    ensures Run(s, k) == RunState(s.configuration, s.ritualTick + k, s.lastActivatedSocle + Activations(s.ritualTick, k))
  {
    if k > 0 {
      RunWhileRunning(s, k - 1);
    }
  }

  /** While the length has not been passed, the only hook call of each tick is doRitualTick. */
  lemma {:induction false} HooksWhileRunning(s: RunState, k: nat, completedChanges: bool)
    requires Consistent(s) && s.ritualTick >= 0
    requires s.ritualTick + k <= s.configuration.value.length
    ensures RunHooks(s, k, completedChanges) == Ticks(k)
  {
    if k > 0 {
      var st := Run(s, k - 1);
      assert st.ritualTick >= 0 && !CompletingTick(st) by {
        RunWhileRunning(s, k - 1);
      }
      HooksWhileRunning(s, k - 1, completedChanges);
      assert TickHooks(st, completedChanges) == [DoRitualTick];
      TicksSnoc(k, k - 1);
    }
  }

  /**
   * A ritual started with a scanned configuration of length L runs for L + 1
   * calls: after L calls it is still running at tick L, with the socle index
   * moved on by |socles| + 8, past the last socle; call L + 1 ends it.
   */
  lemma FullRun(c: RitualConfiguration, index: int)
    requires c.WellFormed() && index >= -1
    ensures Run(Started(c, index), c.length) == RunState(Some(c), c.length, index + |c.socles| + 8)
    ensures Run(Started(c, index), c.length + 1) == Idle
  {
    RunWhileRunning(Started(c, index), c.length);
    ActivationsFromZero(c.length);
  }

  /**
   * Over the L + 1 calls of a whole run the hooks are called in this order:
   * doRitualTick once per call, then onRitualCompleted once, then markDirty
   * exactly when onRitualCompleted returned true.
   */
  lemma FullRunHooks(c: RitualConfiguration, index: int, completedChanges: bool)
    requires c.WellFormed() && index >= -1
    ensures RunHooks(Started(c, index), c.length + 1, completedChanges) == Ticks(c.length + 1) + Ending(completedChanges)
  {
    var s := Started(c, index);
    var st := Run(s, c.length);
    assert st == RunState(Some(c), c.length, index + |c.socles| + 8) by {
      FullRun(c, index);
    }
    assert RunHooks(s, c.length, completedChanges) == Ticks(c.length) by {
      HooksWhileRunning(s, c.length, completedChanges);
    }
    assert TickHooks(st, completedChanges) == [DoRitualTick] + Ending(completedChanges);
    TicksSnoc(c.length + 1, c.length);
    assert Ticks(c.length) + ([DoRitualTick] + Ending(completedChanges)) ==
      Ticks(c.length) + [DoRitualTick] + Ending(completedChanges);
  }

  /** Once a ritual has ended, further calls change nothing and call nothing: it completes only once. */
  lemma NoSecondCompletion(c: RitualConfiguration, index: int, k: nat, core: BlockPos, worlds: Worlds, completedChanges: bool)
    requires c.WellFormed() && index >= -1 && k >= c.length + 1
    ensures Run(Started(c, index), k) == Idle
    ensures RunCalls(Started(c, index), k, core, worlds, completedChanges) ==
      RunCalls(Started(c, index), c.length + 1, core, worlds, completedChanges)
  {
    FullRun(c, index);
    StaysIdle(Started(c, index), c.length + 1, k, core, worlds, completedChanges);
  }

  /** A core that has gone idle stays idle and makes no further calls. */
  lemma {:induction false} StaysIdle(s: RunState, a: nat, k: nat, core: BlockPos, worlds: Worlds, completedChanges: bool)
    requires Consistent(s) && a <= k && Run(s, a) == Idle
    ensures Run(s, k) == Idle
    ensures RunCalls(s, k, core, worlds, completedChanges) == RunCalls(s, a, core, worlds, completedChanges)
  {
    if k > a {
      StaysIdle(s, a, k - 1, core, worlds, completedChanges);
      IdleTick(s, k, k - 1, core, worlds, completedChanges);
    }
  }

  /** A call on an idle core leaves it idle and makes no call. */
  lemma IdleTick(s: RunState, k: nat, j: nat, core: BlockPos, worlds: Worlds, completedChanges: bool)
    requires Consistent(s) && k == j + 1 && Run(s, j) == Idle
    ensures Run(s, k) == Idle
    ensures RunCalls(s, k, core, worlds, completedChanges) == RunCalls(s, j, core, worlds, completedChanges)
  {
    var before := RunCalls(s, j, core, worlds, completedChanges);
    assert Calls(Run(s, j), core, WorldAt(worlds, j), completedChanges) == [];
    assert RunCalls(s, k, core, worlds, completedChanges) == before + [];
    assert before + [] == before;
  }

  /** The extraction signal activating the socle at `p` sends: none if no socle block entity is there. */
  function SignalOf(p: BlockPos, core: BlockPos, world: World): seq<Call> {
    if SocleAt(world, p) then [BeginExtraction(p, core)] else []
  }

  /**
   * The extraction signals that activating the m socles from, from + 1, ...,
   * from + m - 1 of the list sends, in list order. The j-th of them (counting
   * from 0) is activated on call 5j of the run and looked up in its world.
   */
  function Signalled(socles: seq<BlockPos>, from: nat, m: nat, core: BlockPos, worlds: Worlds): seq<Call>
    requires m == 0 || from + m <= |socles|
  {
    if m == 0 then []
    else Signalled(socles, from, m - 1, core, worlds) + SignalOf(socles[from + m - 1], core, WorldAt(worlds, 5 * (m - 1)))
  }

  /** Every signal of Signalled names one of the socles from, ..., from + m - 1, and tells it the core's position. */
  lemma {:induction false} SignalledSocles(socles: seq<BlockPos>, from: nat, m: nat, core: BlockPos, worlds: Worlds)
    requires m == 0 || from + m <= |socles|
    ensures |Signalled(socles, from, m, core, worlds)| <= m
    ensures forall x :: x in Signalled(socles, from, m, core, worlds) ==>
      exists i :: from <= i < from + m && x == BeginExtraction(socles[i], core)
  {
    if m > 0 {
      SignalledSocles(socles, from, m - 1, core, worlds);
      forall x | x in Signalled(socles, from, m, core, worlds)
        ensures exists i :: from <= i < from + m && x == BeginExtraction(socles[i], core)
      {
        if x !in Signalled(socles, from, m - 1, core, worlds) {
          assert x == BeginExtraction(socles[from + m - 1], core);
        }
      }
    }
  }

  function Min(a: int, b: int): int {
    if a < b then a else b
  }

  /** How many socles of a list of n lie at or after index `from`. */
  function Remaining(n: nat, from: nat): nat {
    if from < n then n - from else 0
  }

  /**
   * After k calls of a run started with socle index `index`, the socles
   * activated so far are the first min(ceiling(k/5), remaining) socles
   * after that index.
   */
  lemma {:induction false} SignalsSoFar(c: RitualConfiguration, index: int, k: nat, m: nat, core: BlockPos, worlds: Worlds)
    requires c.WellFormed() && index >= -1 && k <= c.length + 1
    requires m == Min(Activations(0, k), Remaining(|c.socles|, index + 1))
    ensures RunSignals(Started(c, index), k, core, worlds) == Signalled(c.socles, index + 1, m, core, worlds)
  {
    var s := Started(c, index);
    if k > 0 {
      var a: int := Activations(0, k - 1);
      var st := Run(s, k - 1);
      assert st == RunState(Some(c), k - 1, index + a) by {
        RunWhileRunning(s, k - 1);
      }
      SignalsSoFar(c, index, k - 1, Min(a, Remaining(|c.socles|, index + 1)), core, worlds);
      ActivationExtendsSignalled(c, index, k, core, worlds);
    }
  }

  /** The socle signal of call k extends the signals of the first k - 1 calls to those of the first k. */
  lemma ActivationExtendsSignalled(c: RitualConfiguration, index: int, k: nat, core: BlockPos, worlds: Worlds)
    requires c.WellFormed() && index >= -1 && 1 <= k <= c.length + 1
    ensures var a := Activations(0, k - 1);
      var r := Remaining(|c.socles|, index + 1);
      Signalled(c.socles, index + 1, Min(a, r), core, worlds) + Activation(RunState(Some(c), k - 1, index + a), core, WorldAt(worlds, k - 1)) ==
      Signalled(c.socles, index + 1, Min(Activations(0, k), r), core, worlds)
  {
    var a := Activations(0, k - 1);
    if (k - 1) % 5 == 0 && index + a + 1 < |c.socles| {
      NextSocleSignalled(c, index, k, a, core, worlds);
    } else {
      NoSocleSignalled(c, index, k, a, core, worlds);
    }
  }

  /** On an activation tick with a socle left, the call signals the next socle, the (a + 1)-th after the start index. */
  lemma NextSocleSignalled(c: RitualConfiguration, index: int, k: nat, a: nat, core: BlockPos, worlds: Worlds)
    requires c.WellFormed() && index >= -1 && 1 <= k <= c.length + 1
    requires a == Activations(0, k - 1) && (k - 1) % 5 == 0 && index + a + 1 < |c.socles|
    ensures Min(Activations(0, k), Remaining(|c.socles|, index + 1)) == a + 1
    ensures Min(a, Remaining(|c.socles|, index + 1)) == a
    ensures Activation(RunState(Some(c), k - 1, index + a), core, WorldAt(worlds, k - 1)) ==
      SignalOf(c.socles[index + 1 + a], core, WorldAt(worlds, 5 * a))
  {
    ActivationTickNumber(k - 1);
  }

  /** Otherwise the call signals nothing and the number of socles activated so far stays the same. */
  lemma NoSocleSignalled(c: RitualConfiguration, index: int, k: nat, a: nat, core: BlockPos, worlds: Worlds)
    requires c.WellFormed() && index >= -1 && 1 <= k <= c.length + 1
    requires a == Activations(0, k - 1) && !((k - 1) % 5 == 0 && index + a + 1 < |c.socles|)
    ensures Activation(RunState(Some(c), k - 1, index + a), core, WorldAt(worlds, k - 1)) == []
    ensures Min(Activations(0, k), Remaining(|c.socles|, index + 1)) == Min(a, Remaining(|c.socles|, index + 1))
  {
  }

  /**
   * Over a whole run every socle after the start index is signalled exactly
   * once, in the stored (shuffled) order, unless no socle block entity is at
   * its position in the world of its call, in which case it is skipped
   * silently. From an idle core (index -1) that is every socle; a restart
   * keeps the old index and never signals the socles up to it.
   */
  lemma RunSignalsEachSocleOnce(c: RitualConfiguration, index: int, core: BlockPos, worlds: Worlds)
    requires c.WellFormed() && index >= -1
    ensures RunSignals(Started(c, index), c.length + 1, core, worlds) ==
      Signalled(c.socles, index + 1, Remaining(|c.socles|, index + 1), core, worlds)
  {
    RunActivations(c, index);
    SignalsSoFar(c, index, c.length + 1, Remaining(|c.socles|, index + 1), core, worlds);
  }

  /** A whole run has |socles| + 9 activation ticks, more than there are socles left to activate. */
  lemma RunActivations(c: RitualConfiguration, index: int)
    requires c.WellFormed() && index >= -1
    ensures Activations(0, c.length + 1) == |c.socles| + 9
    ensures Min(Activations(0, c.length + 1), Remaining(|c.socles|, index + 1)) == Remaining(|c.socles|, index + 1)
  {
    var k := c.length + 1;
    ActivationsFromZero(k);
    assert k + 4 == 5 * (|c.socles| + 9);
    assert Activations(0, k) == |c.socles| + 9;
  }

  /** The socle signals among the calls of a whole run are each socle after the start index once, in the stored order. */
  lemma WholeRunSignals(c: RitualConfiguration, index: int, core: BlockPos, worlds: Worlds, completedChanges: bool)
    requires c.WellFormed() && index >= -1
    ensures Filter(RunCalls(Started(c, index), c.length + 1, core, worlds, completedChanges), IsSignal) ==
      Signalled(c.socles, index + 1, Remaining(|c.socles|, index + 1), core, worlds)
  {
    var s := Started(c, index);
    assert Consistent(s);
    SignalsFiltered(s, c.length + 1, core, worlds, completedChanges);
    RunSignalsEachSocleOnce(c, index, core, worlds);
  }

  /** The hook calls among the calls of a whole run are doRitualTick on each call, then the ending. */
  lemma WholeRunHooks(c: RitualConfiguration, index: int, core: BlockPos, worlds: Worlds, completedChanges: bool)
    requires c.WellFormed() && index >= -1
    ensures Filter(RunCalls(Started(c, index), c.length + 1, core, worlds, completedChanges), IsHookCall) ==
      Ticks(c.length + 1) + Ending(completedChanges)
  {
    var s := Started(c, index);
    assert Consistent(s);
    HooksFiltered(s, c.length + 1, core, worlds, completedChanges);
    FullRunHooks(c, index, completedChanges);
  }

  /**
   * The calls of a whole run, split: the socle signals are each socle after
   * the start index once, in the stored order, and the hook calls are
   * doRitualTick on every one of the L + 1 calls followed by
   * onRitualCompleted once and markDirty when it reported changes.
   */
  lemma WholeRunCalls(c: RitualConfiguration, index: int, core: BlockPos, worlds: Worlds, completedChanges: bool)
    requires c.WellFormed() && index >= -1
    ensures Filter(RunCalls(Started(c, index), c.length + 1, core, worlds, completedChanges), IsSignal) ==
      Signalled(c.socles, index + 1, Remaining(|c.socles|, index + 1), core, worlds)
    ensures Filter(RunCalls(Started(c, index), c.length + 1, core, worlds, completedChanges), IsHookCall) ==
      Ticks(c.length + 1) + Ending(completedChanges)
  {
    WholeRunSignals(c, index, core, worlds, completedChanges);
    WholeRunHooks(c, index, core, worlds, completedChanges);
  }

  /** The host's shuffle: it returns a permutation of its argument. */
  ghost predicate IsShuffle(shuffle: seq<BlockPos> -> seq<BlockPos>) {
    forall socles :: multiset(shuffle(socles)) == multiset(socles)
  }

  /** RitualCoreBlockEntity: the run state fields of a ritual core at position `pos`. */
  class RitualCoreBlockEntity {
    const pos: BlockPos
    var cachedConfiguration: Option<RitualConfiguration>
    var ritualTick: int
    var lastActivatedSocle: int

    function State(): RunState
      reads this
    {
      RunState(cachedConfiguration, ritualTick, lastActivatedSocle)
    }

    ghost predicate Valid()
      reads this
    {
      Consistent(State())
    }

    constructor (pos: BlockPos)
      ensures Valid() && State() == Idle && this.pos == pos
    {
      this.pos := pos;
      cachedConfiguration := None;
      ritualTick := -1;
      lastActivatedSocle := -1;
    }

    /**
     * tryStartRitual. On the client it only reports success. On the server it
     * scans around `pos` (leaving out empty socles); an empty scan or a
     * refusing onRitualStart leaves everything as it was and passes.
     * Otherwise it stores the scanned configuration with its socles shuffled
     * and sets the tick to 0, whether or not a ritual was already running,
     * and keeps lastActivatedSocle as it was.
     */
    method TryStartRitual(isClient: bool, pois: seq<BlockPos>, world: World, distance: Distance,
                          onRitualStart: RitualConfiguration -> bool,
                          shuffle: seq<BlockPos> -> seq<BlockPos>)
      returns (result: ActionResult)
      requires Valid() && IsShuffle(shuffle)
      modifies this
      ensures Valid()
      ensures var c := Examined(pois, pos, false, world);
        if isClient then result == Success && State() == old(State())
        else if c.IsEmpty() || !onRitualStart(c) then result == Pass && State() == old(State())
        else
          && result == Success
          && State() == Started(RitualConfiguration(c.length, shuffle(c.socles)), old(lastActivatedSocle))
    {
      if isClient {
        return Success;
      }
      var configuration, _ := ExamineConfiguration(pois, pos, false, world, distance);
      if configuration.IsEmpty() {
        return Pass;
      }
      if !onRitualStart(configuration) {
        return Pass;
      }
      ExaminedWellFormed(pois, pos, false, world);
      var shuffled := shuffle(configuration.socles);
      assert |shuffled| == |multiset(shuffled)| == |configuration.socles|;
      cachedConfiguration := Some(RitualConfiguration(configuration.length, shuffled));
      ritualTick := 0;
      return Success;
    }

    /**
     * tickServer: one server tick of the ritual; `completedChanges` is what
     * onRitualCompleted returns if this tick completes the ritual.
     */
    method TickServer(world: World, completedChanges: bool) returns (calls: seq<Call>)
      requires Valid()
      modifies this
      ensures Valid()
      ensures State() == Next(old(State()))
      ensures calls == Calls(old(State()), pos, world, completedChanges)
    {
      if ritualTick < 0 {
        return [];
      }
      calls := [];
      var socles := cachedConfiguration.value.socles;
      if ritualTick % 5 == 0 {
        lastActivatedSocle := lastActivatedSocle + 1;
        if lastActivatedSocle < |socles| {
          var entity := world(socles[lastActivatedSocle]);
          if entity.Some? && entity.value.RitualSocle? {
            calls := calls + [BeginExtraction(socles[lastActivatedSocle], pos)];
          }
        }
      }

      calls := calls + [DoRitualTick];

      var tick := ritualTick;
      ritualTick := ritualTick + 1;
      if tick >= cachedConfiguration.value.length {
        ritualTick := -1;
        lastActivatedSocle := -1;
        cachedConfiguration := None;

        calls := calls + [OnRitualCompleted];
        if completedChanges {
          calls := calls + [MarkDirty];
        }
      }
    }
  }
}
