# Ritual core and brewing cauldron block entities

This project models two tick-driven Minecraft block entities and proves what
they do.

**The ritual core** (`RitualCoreBlockEntity`):

- It scans the ritual socles on its own level for a ritual configuration.
- It starts a ritual when the configuration is non-empty and the subclass's
  `onRitualStart` accepts it, storing the socles in shuffled order.
- It then runs the ritual one server tick at a time:
  - on every fifth tick it activates the next socle, whose block entity is sent
    `beginExtraction`;
  - on every tick it calls the `doRitualTick` hook;
  - on the tick after the ritual's length it calls `onRitualCompleted`, then
    `markDirty` if that hook reports changes, and clears its three run fields.

**The brewing cauldron** (`BrewingCauldronBlockEntity`):

- It keeps a five-slot item buffer, a bottle count (0 to 3) and a brewing
  counter.
- The counter starts when a recipe matches the potion and the items. It
  climbs to 100.
- At 100 the brew completes. Each ingredient of the recipe clears the first
  slot it accepts, and the potion becomes the recipe's output.

The files:

- `ritual_core.dfy` (module `RitualCore`):
  - The scan is a method, `ExamineConfiguration`, proved equal to a functional
    description: a filter of the POI list, plus a flat distance list.
  - The run state is the datatype `RunState`, with `Next` for one
    `tickServer` call and `Calls` for the calls that call makes to code outside
    the class, in order.
  - The class `RitualCoreBlockEntity` holds the three fields. Its methods
    `TryStartRitual` and `TickServer` are proved to change them as the
    functions say.
  - Whole-run lemmas follow a ritual from start to end.
- `brewing_cauldron.dfy` (module `BrewingCauldron`):
  - The cauldron's fields are the datatype `Cauldron`, with one function per
    operation.
  - The class `BrewingCauldronBlockEntity` keeps the item buffer as a
    five-element array. Its methods update the fields in place and are proved
    to match those functions.
- `minecraft.dfy`: block positions, item stacks and action results.
- `sequences.dfy`: an order-preserving `Filter` and its lemmas.
- `wrappers.dfy`: `Option`.

Foreign code is passed in as function parameters:

- the world's block entities (`World`) and `MathUtil.distance`; `tickServer`
  looks the world up on every call, so the run lemmas take one world per
  call (`Worlds`, call j seeing `worlds(j)`);
- `Collections.shuffle`, taken as any function that returns a permutation of
  its argument (`IsShuffle`);
- `onRitualStart`, and the boolean that `onRitualCompleted` returns;
- `PotionMixingRecipe.getMatching`, `Ingredient.test`, `PotionMixture.mix`
  and `PotionMixture.toStack`.

The POI query is the list of POIs it returned, `pois`. Its stream filter to
the centre's level is modelled.

Where the code differs from the documented intent of the ritual scheduler, the
model follows the code:

- A ritual of length L ends on call L + 1, not L. The
  pre-increment tick is compared with the length. `doRitualTick` is also called
  on that completing call (`FullRun`, `FullRunHooks`).
- `tryStartRitual` has no guard against a ritual already running. A second
  start replaces the configuration and resets the tick to 0. It keeps
  `lastActivatedSocle` as it was (`TryStartRitual`). The run then starts from
  `Started(c, index)` with that old index, so it never signals the first
  index + 1 socles of its new list, and none at all when the old index is
  already at or past the last socle (`RunSignalsEachSocleOnce`).
- The result of `tryStartRitual` is SUCCESS or PASS. PASS stands both for an
  empty configuration and for a refusing `onRitualStart`.
- `lastActivatedSocle` is incremented on every fifth tick, also past the last
  socle. A whole run adds |socles| + 8 to it before the completing call, so in
  a run from idle that call begins with it at |socles| + 7, not at
  |socles| - 1 (`FullRun`). The completing call raises it once more and then
  resets it to -1.
- The distance list counts the distances from each kept socle to every
  same-level socle POI, including the POIs the empty-socle filter dropped
  (`DistanceSampleSize`).

In the cauldron, `canAddItem` asks whether the list contains the `EMPTY` stack
object itself. `addItem` instead fills the first slot whose stack `isEmpty()`,
which also holds for a zero count or the air item. `CanAddItem` is modelled
as membership of `Empty`, and `CanAddItemMissesEmptiedStacks` shows a buffer
that `addItem` can still fill while `canAddItem` says no.

## Model

| member | source | states |
|---|---|---|
| RitualCore.RitualConfiguration.IsEmpty | src/main/java/io/wispforest/affinity/blockentity/template/RitualCoreBlockEntity.java:174-176 | For a configuration of scanned shape (length 5·\|socles\| + 40), it is empty exactly when its length is the minimum of 40. |
| RitualCore.ExamineConfiguration | src/main/java/io/wispforest/affinity/blockentity/template/RitualCoreBlockEntity.java:112-146 | The scan loop returns the configuration `Examined`: the same-level POIs, filtered, with length 5·\|socles\| + 40. It also returns `DistanceSample`: the flat distance list, seeded with 0 when empty. |
| RitualCore.ScanStep | src/main/java/io/wispforest/affinity/blockentity/template/RitualCoreBlockEntity.java:121-144 | One loop iteration appends socle i to the socles, and its distances to the distance list, exactly when the scan keeps it. Otherwise it appends nothing. |
| RitualCore.AddDistancesFrom | src/main/java/io/wispforest/affinity/blockentity/template/RitualCoreBlockEntity.java:132-140 | The inner loop appends the distance from socle i to every other POI, in POI order, and skips the socle itself. |
| RitualCore.ExaminedWellFormed | src/main/java/io/wispforest/affinity/blockentity/template/RitualCoreBlockEntity.java:121-126 | A scanned configuration has length 5·\|socles\| + 40. It is empty exactly when no same-level POI is retained: with includeEmptySocles false, none holds a filled socle. |
| RitualCore.ExaminedSoclesMembership | src/main/java/io/wispforest/affinity/blockentity/template/RitualCoreBlockEntity.java:113-126 | A position is a socle of the scan if and only if it is a POI on the centre's level and either includeEmptySocles holds or a socle with a non-empty item is there. |
| RitualCore.ExaminedSoclesKeepOrder | src/main/java/io/wispforest/affinity/blockentity/template/RitualCoreBlockEntity.java:113-143 | The scan keeps POI order: scanning two POI lists one after the other gives the two scans concatenated. |
| RitualCore.IncludeEmptySoclesKeepsAll | src/main/java/io/wispforest/affinity/blockentity/template/RitualCoreBlockEntity.java:123-126 | With includeEmptySocles, every same-level POI becomes a socle, in POI order. |
| RitualCore.DistancesFromLength | src/main/java/io/wispforest/affinity/blockentity/template/RitualCoreBlockEntity.java:132-140 | One socle contributes \|POIs\| - 1 distances. |
| RitualCore.PairDistancesStep | src/main/java/io/wispforest/affinity/blockentity/template/RitualCoreBlockEntity.java:121-144 | An iteration that keeps its socle adds \|POIs\| - 1 distances and one socle. An iteration that drops it adds neither. |
| RitualCore.PairDistancesLength | src/main/java/io/wispforest/affinity/blockentity/template/RitualCoreBlockEntity.java:118-144 | After m iterations the list holds (socles kept so far) · (\|POIs\| - 1) distances. |
| RitualCore.DistanceSampleSize | src/main/java/io/wispforest/affinity/blockentity/template/RitualCoreBlockEntity.java:118-146 | The distance sample has kept·(n - 1) entries, or the single seeded 0. Here n counts every same-level POI, dropped ones included, so the sample is never empty. |
| RitualCore.ResolveSocles | src/main/java/io/wispforest/affinity/blockentity/template/RitualCoreBlockEntity.java:178-184 | resolveSocles fails (the cast throws) exactly when some socle position holds another kind of block entity. Otherwise the result has the socles' length and order, and entry i is the block entity at socle i (None where there is none). |
| RitualCore.SocleInventory.constructor | src/main/java/io/wispforest/affinity/blockentity/template/RitualCoreBlockEntity.java:193-199 | The inventory has one slot per socle, and slot i holds socle i's item. |
| RitualCore.Next | src/main/java/io/wispforest/affinity/blockentity/template/RitualCoreBlockEntity.java:86-105 | A tickServer call keeps the run invariant and changes nothing when idle. Before the length is reached, it adds one to the tick, adds one to the socle index on every fifth tick and keeps the configuration. On the completing call it clears all three fields. |
| RitualCore.ActivationSignal | src/main/java/io/wispforest/affinity/blockentity/template/RitualCoreBlockEntity.java:89-91 | A call signals at most one socle. It signals one exactly on a fifth tick whose incremented index is below the socle count and whose position still holds a socle, and then it is that socle, told the core's position. |
| RitualCore.SignalsOfOneTick | src/main/java/io/wispforest/affinity/blockentity/template/RitualCoreBlockEntity.java:87-94 | The only socle signal among a call's outside calls is the activation's, and the call's outside calls are that signal followed by its hook calls. |
| RitualCore.HooksOfOneTick | src/main/java/io/wispforest/affinity/blockentity/template/RitualCoreBlockEntity.java:87-103 | A call's hook calls are: none when idle; otherwise doRitualTick, then, on the completing call only, onRitualCompleted and markDirty exactly when it returned true. |
| RitualCore.Run | src/main/java/io/wispforest/affinity/blockentity/template/RitualCoreBlockEntity.java:86-105 | Any number of tickServer calls keeps the run invariant: idle means all three fields cleared, and a running ritual has a scanned configuration and a tick no greater than its length. |
| RitualCore.HooksStep | src/main/java/io/wispforest/affinity/blockentity/template/RitualCoreBlockEntity.java:94-103 | One more call appends exactly its own hook calls to the hook calls of the run so far. |
| RitualCore.HooksFiltered | src/main/java/io/wispforest/affinity/blockentity/template/RitualCoreBlockEntity.java:86-105 | The hook calls among all the calls of k tickServer calls are those of each call, in call order. |
| RitualCore.SignalsStep | src/main/java/io/wispforest/affinity/blockentity/template/RitualCoreBlockEntity.java:89-91 | One more call appends exactly its own socle signal, if any, to the signals of the run so far. |
| RitualCore.SignalsFiltered | src/main/java/io/wispforest/affinity/blockentity/template/RitualCoreBlockEntity.java:86-105 | The socle signals among all the calls of k tickServer calls are those of each call, in call order. |
| RitualCore.ActivationsFromZero | src/main/java/io/wispforest/affinity/blockentity/template/RitualCoreBlockEntity.java:89 | The first k ticks of a run contain ceiling(k/5) activation ticks. |
| RitualCore.ActivationTickNumber | src/main/java/io/wispforest/affinity/blockentity/template/RitualCoreBlockEntity.java:89 | Activation tick t of a run, a multiple of five, is preceded by exactly t/5 activation ticks. |
| RitualCore.RunWhileRunning | src/main/java/io/wispforest/affinity/blockentity/template/RitualCoreBlockEntity.java:89-96 | Before the length is reached, k calls add k to the tick and keep the configuration. They add to the socle index the number of multiples of five among the ticks passed. |
| RitualCore.HooksWhileRunning | src/main/java/io/wispforest/affinity/blockentity/template/RitualCoreBlockEntity.java:94-96 | Before the length is reached, the hook calls of k calls are exactly k doRitualTick calls. |
| RitualCore.FullRun | src/main/java/io/wispforest/affinity/blockentity/template/RitualCoreBlockEntity.java:89-99 | A ritual of length L started with socle index i (-1 from idle) is still running after L calls, at tick L with socle index i + \|socles\| + 8. Call L + 1 leaves the core idle. |
| RitualCore.FullRunHooks | src/main/java/io/wispforest/affinity/blockentity/template/RitualCoreBlockEntity.java:94-103 | Over a whole run, from idle or after a restart, the hook calls are doRitualTick once on each of the L + 1 calls, then onRitualCompleted once, then markDirty exactly when it returned true. |
| RitualCore.StaysIdle | src/main/java/io/wispforest/affinity/blockentity/template/RitualCoreBlockEntity.java:87 | A core that has become idle stays idle and makes no further calls. |
| RitualCore.IdleTick | src/main/java/io/wispforest/affinity/blockentity/template/RitualCoreBlockEntity.java:87 | A call on an idle core keeps it idle and makes no call. |
| RitualCore.NoSecondCompletion | src/main/java/io/wispforest/affinity/blockentity/template/RitualCoreBlockEntity.java:87-103 | After its completing call a run is idle for good, and no later call adds any call: onRitualCompleted runs once per run. |
| RitualCore.ActivationExtendsSignalled | src/main/java/io/wispforest/affinity/blockentity/template/RitualCoreBlockEntity.java:89-91 | A running call's signal extends the signals of the first min(a, r) socles after the start index to those of the first min(a', r). Here a and a' are the activation counts before and after the call, and r is the number of socles after the start index. |
| RitualCore.NextSocleSignalled | src/main/java/io/wispforest/affinity/blockentity/template/RitualCoreBlockEntity.java:89-91 | On an activation tick with a socle left after the index, the call signals the next socle in the stored list, and the count of socles activated so far goes up by one. |
| RitualCore.NoSocleSignalled | src/main/java/io/wispforest/affinity/blockentity/template/RitualCoreBlockEntity.java:89-91 | On any other running tick the call signals nothing and the count of socles activated so far stays the same. |
| RitualCore.SignalledSocles | src/main/java/io/wispforest/affinity/blockentity/template/RitualCoreBlockEntity.java:89-91 | The signals of m activations are at most m, and each one is a beginExtraction of one of those m socles, told the core's position. |
| RitualCore.SignalsSoFar | src/main/java/io/wispforest/affinity/blockentity/template/RitualCoreBlockEntity.java:89-91 | The first k calls of a run started with socle index i signal the first min(ceiling(k/5), r) socles after i, in stored order, each looked up in the world of its own call and skipped if its block entity is gone. |
| RitualCore.RunActivations | src/main/java/io/wispforest/affinity/blockentity/template/RitualCoreBlockEntity.java:89-96 | A whole run has \|socles\| + 9 activation ticks, enough to reach every socle after the start index. |
| RitualCore.RunSignalsEachSocleOnce | src/main/java/io/wispforest/affinity/blockentity/template/RitualCoreBlockEntity.java:89-91 | A whole run started with socle index i signals every socle after i of the stored (shuffled) list exactly once, in that order, unless its block entity is gone in the world of its call. From idle that is every socle; after a restart the socles up to i are never signalled. |
| RitualCore.WholeRunSignals | src/main/java/io/wispforest/affinity/blockentity/template/RitualCoreBlockEntity.java:86-105 | The socle signals among all the calls of a whole run are each socle after the start index once, in stored order. |
| RitualCore.WholeRunHooks | src/main/java/io/wispforest/affinity/blockentity/template/RitualCoreBlockEntity.java:86-105 | The hook calls among all the calls of a whole run are doRitualTick on each of the L + 1 calls, then onRitualCompleted, then markDirty exactly when it returned true. |
| RitualCore.WholeRunCalls | src/main/java/io/wispforest/affinity/blockentity/template/RitualCoreBlockEntity.java:86-105 | Splits the whole run's outside calls. The socle signals are each socle after the start index once, in stored order. The hook calls are L + 1 doRitualTick calls, then onRitualCompleted, then markDirty exactly when it returned true. |
| RitualCore.RitualCoreBlockEntity.constructor | src/main/java/io/wispforest/affinity/blockentity/template/RitualCoreBlockEntity.java:28-30 | A new core is idle: no configuration, tick -1 and socle index -1. |
| RitualCore.RitualCoreBlockEntity.TryStartRitual | src/main/java/io/wispforest/affinity/blockentity/template/RitualCoreBlockEntity.java:70-83 | On the client: SUCCESS, with no change. An empty scan or a refusing onRitualStart: PASS, with no change. Otherwise: SUCCESS, and the run state becomes `Started` with the scanned configuration's socles stored permuted, the tick set to 0 whatever ran before, and the old socle index kept. |
| RitualCore.RitualCoreBlockEntity.TickServer | src/main/java/io/wispforest/affinity/blockentity/template/RitualCoreBlockEntity.java:86-105 | The fields become `Next` of the old fields. The outside calls made are `Calls` of the old fields, in order. |
| BrewingCauldron.FirstWhere | src/main/java/com/glisco/nidween/block/BrewingCauldronBlockEntity.java:204-207 | The forward slot search finds the lowest slot that matches, or reports that none does. |
| BrewingCauldron.LastWhere | src/main/java/com/glisco/nidween/block/BrewingCauldronBlockEntity.java:217-224 | The backward slot search finds the highest slot that matches, or reports that none does. |
| BrewingCauldron.WithItemAdded | src/main/java/com/glisco/nidween/block/BrewingCauldronBlockEntity.java:203-210 | The stack goes into the lowest-index empty slot and every other slot is unchanged. With no empty slot, nothing changes. |
| BrewingCauldron.RemovedLast | src/main/java/com/glisco/nidween/block/BrewingCauldronBlockEntity.java:216-226 | The highest-index non-empty slot is emptied and its content returned. With every slot empty, the result is EMPTY and nothing changes. |
| BrewingCauldron.ConsumeOne | src/main/java/com/glisco/nidween/block/BrewingCauldronBlockEntity.java:123-127 | An ingredient clears the first slot it accepts and nothing else. If it accepts none, nothing changes. |
| BrewingCauldron.Consumed | src/main/java/com/glisco/nidween/block/BrewingCauldronBlockEntity.java:122-128 | Consuming all inputs keeps five slots and only ever empties a slot. |
| BrewingCauldron.ConsumedChangesAtMost | src/main/java/com/glisco/nidween/block/BrewingCauldronBlockEntity.java:122-128 | Consuming a recipe's inputs changes at most one slot per ingredient. |
| BrewingCauldron.AddKeepsPacked | src/main/java/com/glisco/nidween/block/BrewingCauldronBlockEntity.java:203-210 | Adding a non-empty stack keeps a front-filled buffer front-filled. |
| BrewingCauldron.RemoveKeepsPacked | src/main/java/com/glisco/nidween/block/BrewingCauldronBlockEntity.java:216-226 | Removing the last stack keeps a front-filled buffer front-filled. |
| BrewingCauldron.AddThenRemove | src/main/java/com/glisco/nidween/block/BrewingCauldronBlockEntity.java:203-226 | On a front-filled buffer with room, getAndRemoveLast returns the stack addItem just stored and restores the buffer. |
| BrewingCauldron.RemoveThenAdd | src/main/java/com/glisco/nidween/block/BrewingCauldronBlockEntity.java:203-226 | On a front-filled buffer holding a stack, addItem puts back what getAndRemoveLast took. |
| BrewingCauldron.CanAddItemMissesEmptiedStacks | src/main/java/com/glisco/nidween/block/BrewingCauldronBlockEntity.java:199-210 | Shows a buffer with no EMPTY object but with a zero-count stack: canAddItem is false while addItem still fills a slot. |
| BrewingCauldron.BottleAdded | src/main/java/com/glisco/nidween/block/BrewingCauldronBlockEntity.java:169-184 | At three bottles nothing changes. Below three the level goes up by one and the cauldron is marked dirty; the first bottle sets the potion and a later one mixes into it. Slots, counter and recipe are untouched, and the bottle bound is kept. |
| BrewingCauldron.BottleExtracted | src/main/java/com/glisco/nidween/block/BrewingCauldronBlockEntity.java:153-167 | With no bottle the result is EMPTY and nothing changes. Otherwise it returns the stack of the potion held before, takes one bottle and marks dirty; the potion becomes EMPTY exactly when no bottle is left. |
| BrewingCauldron.BottleRoundTrip | src/main/java/com/glisco/nidween/block/BrewingCauldronBlockEntity.java:157-184 | Pouring a first bottle into an empty cauldron and taking it out gives that potion's stack back, and the cauldron is empty again. |
| BrewingCauldron.RecipeVerified | src/main/java/com/glisco/nidween/block/BrewingCauldronBlockEntity.java:144-151 | Only the recipe and the counter change. The cached recipe becomes the current match. With no match the counter becomes 0; with a match a stopped counter starts at 1 and a running one is kept. Under the invariant, a recipe is cached exactly when the counter runs. |
| BrewingCauldron.Ticked | src/main/java/com/glisco/nidween/block/BrewingCauldronBlockEntity.java:97-141 | A server tick keeps the invariant (five slots, 0 to 3 bottles, counter 0 to 100), the bottle count and the slot count. |
| BrewingCauldron.TickWithoutRecipe | src/main/java/com/glisco/nidween/block/BrewingCauldronBlockEntity.java:97-99 | With no matching recipe, a tick clears the recipe, stops the counter and changes nothing else. |
| BrewingCauldron.TickAdvances | src/main/java/com/glisco/nidween/block/BrewingCauldronBlockEntity.java:99-115 | With a matching recipe, a counter between 1 and 99 goes up by exactly one and nothing else changes. |
| BrewingCauldron.TickedTimes | src/main/java/com/glisco/nidween/block/BrewingCauldronBlockEntity.java:97-141 | Any number of ticks keeps the invariant. |
| BrewingCauldron.BrewingInProgress | src/main/java/com/glisco/nidween/block/BrewingCauldronBlockEntity.java:99-115 | From a stopped counter with a matching recipe, the counter reads k + 1 after k ticks, for k below 100. |
| BrewingCauldron.TickCompletes | src/main/java/com/glisco/nidween/block/BrewingCauldronBlockEntity.java:116-138 | With a matching recipe and the counter at 100, one tick consumes the recipe's inputs from the slots, makes the potion the pure output, marks the cauldron dirty and clears the counter and the recipe. |
| BrewingCauldron.BrewCompletes | src/main/java/com/glisco/nidween/block/BrewingCauldronBlockEntity.java:116-138 | On the 100th tick the inputs are consumed from the slots and the potion becomes the pure output. The cauldron is marked dirty, and the counter and the recipe are cleared. |
| BrewingCauldron.BrewingCauldronBlockEntity.constructor | src/main/java/com/glisco/nidween/block/BrewingCauldronBlockEntity.java:30-36 | A new cauldron has five EMPTY slots, no bottle, no potion, a stopped counter and no recipe. |
| BrewingCauldron.BrewingCauldronBlockEntity.CanAddItem | src/main/java/com/glisco/nidween/block/BrewingCauldronBlockEntity.java:199-201 | When canAddItem holds, addItem has a slot to fill. |
| BrewingCauldron.BrewingCauldronBlockEntity.ItemAvailable | src/main/java/com/glisco/nidween/block/BrewingCauldronBlockEntity.java:212-214 | itemAvailable holds exactly when getAndRemoveLast has a stack to return. |
| BrewingCauldron.BrewingCauldronBlockEntity.CanPotionBeExtracted | src/main/java/com/glisco/nidween/block/BrewingCauldronBlockEntity.java:153-155 | Within the invariant, extraction is refused exactly when there is no bottle. |
| BrewingCauldron.BrewingCauldronBlockEntity.CanPotionBeAdded | src/main/java/com/glisco/nidween/block/BrewingCauldronBlockEntity.java:169-171 | Within the invariant, adding is refused exactly at three bottles. |
| BrewingCauldron.BrewingCauldronBlockEntity.AddItem | src/main/java/com/glisco/nidween/block/BrewingCauldronBlockEntity.java:203-210 | The slot array becomes `WithItemAdded` of the old slots, the cauldron is marked dirty, and the invariant is kept. |
| BrewingCauldron.BrewingCauldronBlockEntity.GetAndRemoveLast | src/main/java/com/glisco/nidween/block/BrewingCauldronBlockEntity.java:216-226 | The result and the new slots are `RemovedLast` of the old slots. The cauldron is marked dirty exactly when a stack was taken. |
| BrewingCauldron.BrewingCauldronBlockEntity.AddOneBottle | src/main/java/com/glisco/nidween/block/BrewingCauldronBlockEntity.java:173-184 | The fields become `BottleAdded` of the old fields. |
| BrewingCauldron.BrewingCauldronBlockEntity.ExtractOneBottle | src/main/java/com/glisco/nidween/block/BrewingCauldronBlockEntity.java:157-167 | The result and the new fields are `BottleExtracted` of the old fields. |
| BrewingCauldron.BrewingCauldronBlockEntity.VerifyRecipe | src/main/java/com/glisco/nidween/block/BrewingCauldronBlockEntity.java:144-151 | The fields become `RecipeVerified` of the old fields. |
| BrewingCauldron.BrewingCauldronBlockEntity.ClearFirstMatch | src/main/java/com/glisco/nidween/block/BrewingCauldronBlockEntity.java:123-127 | The inner slot loop leaves the slots as `ConsumeOne` of the old slots. |
| BrewingCauldron.BrewingCauldronBlockEntity.ConsumeInputs | src/main/java/com/glisco/nidween/block/BrewingCauldronBlockEntity.java:122-128 | The ingredient loop leaves the slots as `Consumed` of the old slots. |
| BrewingCauldron.BrewingCauldronBlockEntity.Tick | src/main/java/com/glisco/nidween/block/BrewingCauldronBlockEntity.java:97-141 | The fields become `Ticked` of the old fields. |

## Left out

- The stability score of examineConfiguration (RitualCoreBlockEntity.java:116, 128-129, 137, 139, 142-143, 148-163: the `stability`, `meanDistance` and `minDistance` doubles) is left out. It is double arithmetic over `MathUtil.mean` and `standardDeviation`, which are not part of this model, and it divides by zero for a single socle POI. For the same reason each `RitualSocleEntry` keeps only its position.
- The POI query (RitualCoreBlockEntity.java:113-114) enters as the list of POIs it returned. The ten-block radius and the POI type test are not modelled.
- `world.getBlockEntity` enters as the `World` function, `MathUtil.distance` as `Distance`, and `Collections.shuffle` with `world.random` as any permutation. Which permutation the random source picks is not modelled.
- The subclass hooks are parameters: `onRitualStart` as a function of the configuration, and `onRitualCompleted` as the boolean it returns. `doRitualTick`, `beginExtraction`, `onRitualCompleted` and `markDirty` are recorded as `Call`s, in order; their effects are not modelled.
- The `examineConfiguration(core, includeEmptySocles)` overload, `ritualCenterPos`, `onUse` and `handleNormalUse` (RitualCoreBlockEntity.java:57-68, 107-109, 169-171) are left out. They only forward to the modelled code, and the model scans around the core's own position.
- RitualCore.SocleInventory.constructor: requires every entry to be a socle. For a missing entry the source throws a NullPointerException, and that exception is not modelled.
- RitualCore.RitualCoreBlockEntity.TryStartRitual: the `world.isClient()` test enters as the `isClient` parameter.
- RitualCore.RunCalls and the run lemmas: `onRitualCompleted` returns one fixed boolean per run. It is called at most once per run (`NoSecondCompletion`), so nothing is lost.
- Integers are unbounded, and Java's 32-bit wrap-around is not modelled. The tick is at most the length, 5·\|socles\| + 40. A completion resets the socle index to -1, but a restart keeps it, so a chain of restarts makes it grow without bound. Each run in the chain adds at most \|socles\| + 8, so it would pass 2^31 only after about 2^31 / (\|socles\| + 8) restarts in a row.
- The entity pickup loop of the cauldron's tick (BrewingCauldronBlockEntity.java:87-95) is left out. It queries item entities in the world, and each picked-up stack goes through the modelled `canAddItem` and `addItem`.
- The client side of the cauldron's tick, its particles and sounds (BrewingCauldronBlockEntity.java:101-114, 120, 132-135), and `getFluidHeight` (a float, :82-84) are left out.
- NBT reading and writing and client sync (BrewingCauldronBlockEntity.java:42-80) are left out. `markDirty` is the `dirty` flag.
- The accessors `setCurrentPotion`, `getCurrentPotion` and `getItems` (BrewingCauldronBlockEntity.java:186-197) are not modelled.
- `PotionMixture.mix`, `toStack`, `PotionMixingRecipe.getMatching` and `Ingredient.test` are parameters. `PotionMixture` is reduced to a base potion, an effect list and a purity flag.
- BrewingCauldron.BrewingCauldronBlockEntity.Tick: the `cachedRecipe == null` return at :117 cannot be reached after `verifyRecipe`, so it is not modelled as a branch.
- BrewingCauldron.BrewingCauldronBlockEntity.CanAddItem: states one direction only (room for canAddItem implies room for addItem). The converse fails, as `CanAddItemMissesEmptiedStacks` shows.
- CollectionStaffItem.java is not part of this model. It is world queries, transfer transactions, delayed tasks and packets.
- AffinityRecipesProvider.java is not part of this model. It is recipe data generation.
