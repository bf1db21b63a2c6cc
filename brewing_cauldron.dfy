/*
 * The brewing cauldron block entity: a five-slot ingredient buffer, a bottle
 * counter and a brewing counter.
 *
 * The cauldron's whole state is described as a value (`Cauldron`) with one
 * function per operation; the class `BrewingCauldronBlockEntity` holds the
 * same fields and its methods are proved to change them exactly as those
 * functions say. The potion mixing, the recipe lookup and the ingredient
 * test are foreign code and enter as function parameters.
 */
module BrewingCauldron {
  import opened Wrappers
  import opened Minecraft

  /** Size of the ingredient buffer. */
  const SLOTS := 5
  /** Most bottles the cauldron holds. */
  const MAX_FILL_LEVEL := 3
  /** The processTick value at which a brew completes. */
  const BREW_TICKS := 100

  type PotionType = nat
  type StatusEffect = nat

  /** PotionMixture, with PotionMixture.EMPTY as its own constructor. */
  datatype PotionMixture =
    | EmptyMixture
    | Mixture(basePotion: PotionType, effects: seq<StatusEffect>, pure: bool)

  /** An ingredient of a recipe, tested against a stack by foreign code. */
  type Ingredient = nat

  datatype PotionMixingRecipe = PotionMixingRecipe(itemInputs: seq<Ingredient>, potionOutput: PotionType)

  /** Ingredient.test. */
  type IngredientTest = (Ingredient, ItemStack) -> bool
  /** PotionMixingRecipe.getMatching over the recipe manager, `None` for no match. */
  type RecipeLookup = (PotionMixture, seq<ItemStack>) -> Option<PotionMixingRecipe>
  /** PotionMixture.mix. */
  type Mix = (PotionMixture, PotionMixture) -> PotionMixture
  /** PotionMixture.toStack. */
  type ToStack = PotionMixture -> ItemStack

  // ---------------------------------------------------------------------------
  // Slot searches
  // ---------------------------------------------------------------------------

  predicate IsEmptyStack(x: ItemStack) {
    x.IsEmpty()
  }

  predicate IsFilled(x: ItemStack) {
    !x.IsEmpty()
  }

  /** The slots an ingredient accepts. */
  function Matches(ingredient: Ingredient, test: IngredientTest): ItemStack -> bool {
    (x: ItemStack) => test(ingredient, x)
  }

  /** The lowest index whose slot satisfies `p`, if any. */
  function FirstWhere(s: seq<ItemStack>, p: ItemStack -> bool): (r: Option<nat>)
    ensures r.Some? ==> r.value < |s| && p(s[r.value]) && forall j :: 0 <= j < r.value ==> !p(s[j])
    ensures r.None? ==> forall j :: 0 <= j < |s| ==> !p(s[j])
  {
    if s == [] then None
    else if p(s[0]) then Some(0)
    else match FirstWhere(s[1..], p)
      case None => None
      case Some(i) => Some(i + 1)
  }

  /** The highest index whose slot satisfies `p`, if any. */
  function LastWhere(s: seq<ItemStack>, p: ItemStack -> bool): (r: Option<nat>)
    ensures r.Some? ==> r.value < |s| && p(s[r.value]) && forall j :: r.value < j < |s| ==> !p(s[j])
    ensures r.None? ==> forall j :: 0 <= j < |s| ==> !p(s[j])
  {
    if s == [] then None
    else if p(s[|s| - 1]) then Some(|s| - 1)
    else LastWhere(s[..|s| - 1], p)
  }

  // ---------------------------------------------------------------------------
  // The ingredient buffer
  // ---------------------------------------------------------------------------

  /**
   * The slots after addItem: the stack goes into the lowest-index empty slot
   * and every other slot keeps its content; with no empty slot nothing changes.
   */
  function WithItemAdded(s: seq<ItemStack>, stack: ItemStack): (r: seq<ItemStack>)
    ensures |r| == |s|
    ensures (forall j :: 0 <= j < |s| ==> !s[j].IsEmpty()) ==> r == s
    ensures forall i :: 0 <= i < |s| && s[i].IsEmpty() && (forall j :: 0 <= j < i ==> !s[j].IsEmpty()) ==>
      r == s[i := stack]
  {
    match FirstWhere(s, IsEmptyStack)
    case None => s
    case Some(i) => s[i := stack]
  }

  /**
   * getAndRemoveLast on the slots: the content of the highest-index non-empty
   * slot and the slots with that one set to EMPTY; EMPTY and the slots
   * unchanged when every slot is empty.
   */
  function RemovedLast(s: seq<ItemStack>): (r: (ItemStack, seq<ItemStack>))
    ensures |r.1| == |s|
    ensures (forall j :: 0 <= j < |s| ==> s[j].IsEmpty()) ==> r == (Empty, s)
    ensures forall i :: 0 <= i < |s| && !s[i].IsEmpty() && (forall j :: i < j < |s| ==> s[j].IsEmpty()) ==>
      r == (s[i], s[i := Empty])
  {
    match LastWhere(s, IsFilled)
    case None => (Empty, s)
    case Some(i) => (s[i], s[i := Empty])
  }

  /**
   * One ingredient consumed: the first slot it accepts is set to EMPTY and
   * every other slot keeps its content; if it accepts no slot nothing changes.
   */
  function ConsumeOne(s: seq<ItemStack>, ingredient: Ingredient, test: IngredientTest): (r: seq<ItemStack>)
    ensures |r| == |s|
    ensures forall j :: 0 <= j < |s| ==> r[j] == s[j] || r[j] == Empty
    ensures (forall j :: 0 <= j < |s| ==> !test(ingredient, s[j])) ==> r == s
    ensures forall i :: 0 <= i < |s| && test(ingredient, s[i]) && (forall j :: 0 <= j < i ==> !test(ingredient, s[j])) ==>
      r == s[i := Empty]
  {
    match FirstWhere(s, Matches(ingredient, test))
    case None => s
    case Some(i) => s[i := Empty]
  }

  /** The slots after every ingredient of the list has been consumed, in list order. */
  function Consumed(s: seq<ItemStack>, inputs: seq<Ingredient>, test: IngredientTest): (r: seq<ItemStack>)
    ensures |r| == |s|
    ensures forall j :: 0 <= j < |s| ==> r[j] == s[j] || r[j] == Empty
  {
    if inputs == [] then s
    else ConsumeOne(Consumed(s, inputs[..|inputs| - 1], test), inputs[|inputs| - 1], test)
  }

  /** The number of slots in which two buffers differ. */
  function Changed(a: seq<ItemStack>, b: seq<ItemStack>): nat
    requires |a| == |b|
  {
    if a == [] then 0
    else Changed(a[..|a| - 1], b[..|b| - 1]) + (if a[|a| - 1] != b[|b| - 1] then 1 else 0)
  }

  lemma {:induction false} ChangedSelf(a: seq<ItemStack>)
    ensures Changed(a, a) == 0
  {
    if a != [] {
      ChangedSelf(a[..|a| - 1]);
    }
  }

  /** Writing one slot changes at most one slot. */
  lemma {:induction false} ChangedUpdate(a: seq<ItemStack>, i: nat, x: ItemStack)
    requires i < |a|
    ensures Changed(a, a[i := x]) <= 1
  {
    var n := |a| - 1;
    if i == n {
      assert a[i := x][..n] == a[..n];
      ChangedSelf(a[..n]);
    } else {
      assert a[i := x][..n] == a[..n][i := x];
      ChangedUpdate(a[..n], i, x);
    }
  }

  lemma {:induction false} ChangedTriangle(a: seq<ItemStack>, b: seq<ItemStack>, c: seq<ItemStack>)
    requires |a| == |b| == |c|
    ensures Changed(a, c) <= Changed(a, b) + Changed(b, c)
  {
    if a != [] {
      ChangedTriangle(a[..|a| - 1], b[..|b| - 1], c[..|c| - 1]);
    }
  }

  /** Consuming the inputs of a recipe clears at most one slot per ingredient. */
  lemma {:induction false} ConsumedChangesAtMost(s: seq<ItemStack>, inputs: seq<Ingredient>, test: IngredientTest)
    ensures Changed(s, Consumed(s, inputs, test)) <= |inputs|
  {
    if inputs == [] {
      ChangedSelf(s);
    } else {
      var before := Consumed(s, inputs[..|inputs| - 1], test);
      var ingredient := inputs[|inputs| - 1];
      ConsumedChangesAtMost(s, inputs[..|inputs| - 1], test);
      match FirstWhere(before, Matches(ingredient, test)) {
        case None =>
          ChangedSelf(before);
        case Some(i) =>
          ChangedUpdate(before, i, Empty);
      }
      ChangedTriangle(s, before, Consumed(s, inputs, test));
    }
  }

  /**
   * A buffer filled from the front: every empty slot is followed only by
   * EMPTY slots. addItem and getAndRemoveLast keep a buffer packed and then
   * work as a stack. A completed brew does not keep it packed: consuming a
   * recipe's inputs can clear a slot in the middle, so the stack laws below
   * hold from the empty buffer only up to the first completed brew.
   */
  ghost predicate Packed(s: seq<ItemStack>) {
    forall i, j :: 0 <= i <= j < |s| && s[i].IsEmpty() ==> s[j] == Empty
  }

  lemma AddKeepsPacked(s: seq<ItemStack>, stack: ItemStack)
    requires Packed(s) && !stack.IsEmpty()
    ensures Packed(WithItemAdded(s, stack))
  {
  }

  lemma RemoveKeepsPacked(s: seq<ItemStack>)
    requires Packed(s)
    ensures Packed(RemovedLast(s).1)
  {
    match LastWhere(s, IsFilled) {
      case None =>
      case Some(i) =>
        var r := s[i := Empty];
        forall a, b | 0 <= a <= b < |r| && r[a].IsEmpty()
          ensures r[b] == Empty
        {
          if b != i && a != i {
            assert s[a].IsEmpty();
          }
        }
    }
  }

  /**
   * On a packed buffer with a free slot, getAndRemoveLast returns what addItem
   * just stored and restores the buffer (packed: not after a brew has
   * consumed a middle slot).
   */
  lemma AddThenRemove(s: seq<ItemStack>, stack: ItemStack)
    requires Packed(s) && !stack.IsEmpty()
    requires exists j :: 0 <= j < |s| && s[j].IsEmpty()
    ensures RemovedLast(WithItemAdded(s, stack)) == (stack, s)
  {
    var i := FirstWhere(s, IsEmptyStack).value;
    var t := s[i := stack];
    assert WithItemAdded(s, stack) == t;
    forall j | i < j < |t|
      ensures t[j].IsEmpty()
    {
      assert t[j] == s[j];
    }
    assert !t[i].IsEmpty();
    assert RemovedLast(t) == (stack, t[i := Empty]);
    assert t[i := Empty] == s;
  }

  /**
   * On a packed buffer holding an item, addItem puts back what
   * getAndRemoveLast took (packed: not after a brew has consumed a middle
   * slot).
   */
  lemma RemoveThenAdd(s: seq<ItemStack>)
    requires Packed(s)
    requires exists j :: 0 <= j < |s| && !s[j].IsEmpty()
    ensures WithItemAdded(RemovedLast(s).1, RemovedLast(s).0) == s
  {
    var i := LastWhere(s, IsFilled).value;
    var x := s[i];
    var t := s[i := Empty];
    assert RemovedLast(s) == (x, t);
    forall j | 0 <= j < i
      ensures !t[j].IsEmpty()
    {
      assert t[j] == s[j];
    }
    assert t[i].IsEmpty();
    assert WithItemAdded(t, x) == t[i := x];
    assert t[i := x] == s;
  }

  /**
   * canAddItem looks for the EMPTY stack itself, while addItem accepts any
   * empty stack (a zero count or the air item): a buffer can have room for
   * addItem while canAddItem reports none.
   */
  lemma CanAddItemMissesEmptiedStacks()
    ensures var s := [Stack(1, 1), Stack(1, 1), Stack(1, 1), Stack(1, 1), Stack(2, 0)];
      Empty !in s && WithItemAdded(s, Stack(3, 1)) == s[4 := Stack(3, 1)]
  {
    var s := [Stack(1, 1), Stack(1, 1), Stack(1, 1), Stack(1, 1), Stack(2, 0)];
    assert s[4].IsEmpty();
    assert forall j :: 0 <= j < 4 ==> !s[j].IsEmpty();
  }

  // ---------------------------------------------------------------------------
  // The cauldron state
  // ---------------------------------------------------------------------------

  /** The fields of the cauldron; `dirty` records that markDirty has been called. */
  datatype Cauldron = Cauldron(
    currentPotion: PotionMixture,
    fillLevel: int,
    processTick: int,
    cachedRecipe: Option<PotionMixingRecipe>,
    items: seq<ItemStack>,
    dirty: bool)

  /** The state of a newly placed cauldron. */
  const Initial := Cauldron(EmptyMixture, 0, 0, None, [Empty, Empty, Empty, Empty, Empty], false)

  /** What the cauldron's operations keep: five slots, 0..3 bottles, 0..100 brewing ticks. */
  ghost predicate Inv(c: Cauldron) {
    && |c.items| == SLOTS
    && 0 <= c.fillLevel <= MAX_FILL_LEVEL
    && 0 <= c.processTick <= BREW_TICKS
  }

  /**
   * addOneBottle: below three bottles, the first bottle sets the potion and a
   * further one mixes into it, and the level goes up by one; at three bottles
   * nothing happens.
   */
  function BottleAdded(c: Cauldron, potion: PotionMixture, mix: Mix): (r: Cauldron)
    ensures Inv(c) ==> Inv(r)
    ensures c.fillLevel >= MAX_FILL_LEVEL ==> r == c
    ensures c.fillLevel < MAX_FILL_LEVEL ==> r.fillLevel == c.fillLevel + 1 && r.dirty
    ensures c.fillLevel < MAX_FILL_LEVEL ==>
      r.currentPotion == (if c.fillLevel == 0 then potion else mix(c.currentPotion, potion))
    ensures r.items == c.items && r.processTick == c.processTick && r.cachedRecipe == c.cachedRecipe
  {
    if c.fillLevel >= MAX_FILL_LEVEL then c
    else
      var potion' := if c.fillLevel == 0 then potion else mix(c.currentPotion, potion);
      c.(currentPotion := potion', fillLevel := c.fillLevel + 1, dirty := true)
  }

  /**
   * extractOneBottle: with no bottle it returns EMPTY and changes nothing;
   * otherwise it returns the stack of the potion held before the call and
   * takes one bottle, the potion becoming EMPTY exactly when none is left.
   */
  function BottleExtracted(c: Cauldron, toStack: ToStack): (r: (ItemStack, Cauldron))
    ensures Inv(c) ==> Inv(r.1)
    ensures c.fillLevel <= 0 ==> r == (Empty, c)
    ensures c.fillLevel > 0 ==>
      && r.0 == toStack(c.currentPotion)
      && r.1.fillLevel == c.fillLevel - 1
      && r.1.currentPotion == (if r.1.fillLevel == 0 then EmptyMixture else c.currentPotion)
      && r.1.dirty
    ensures r.1.items == c.items && r.1.processTick == c.processTick && r.1.cachedRecipe == c.cachedRecipe
  {
    if c.fillLevel <= 0 then (Empty, c)
    else
      var level := c.fillLevel - 1;
      (toStack(c.currentPotion), c.(fillLevel := level, currentPotion := if level == 0 then EmptyMixture else c.currentPotion, dirty := true))
  }

  /** Pouring a first bottle in and taking it out again gives its stack back and leaves an empty cauldron. */
  lemma BottleRoundTrip(c: Cauldron, potion: PotionMixture, mix: Mix, toStack: ToStack)
    requires c.fillLevel == 0
    ensures BottleExtracted(BottleAdded(c, potion, mix), toStack) ==
      (toStack(potion), c.(currentPotion := EmptyMixture, dirty := true))
  {
  }

  /**
   * verifyRecipe: the cached recipe is looked up afresh; without a match the
   * brewing counter drops to 0, with a match a stopped counter starts at 1
   * and a running one is left alone.
   */
  function RecipeVerified(c: Cauldron, getMatching: RecipeLookup): (r: Cauldron)
    ensures Inv(c) ==> Inv(r)
    ensures r.cachedRecipe == getMatching(c.currentPotion, c.items)
    ensures r.cachedRecipe.None? ==> r.processTick == 0
    ensures r.cachedRecipe.Some? ==> r.processTick == (if c.processTick == 0 then 1 else c.processTick)
    ensures Inv(c) ==> (r.cachedRecipe.Some? <==> r.processTick > 0)
    ensures r.(cachedRecipe := c.cachedRecipe, processTick := c.processTick) == c
  {
    var recipe := getMatching(c.currentPotion, c.items);
    if recipe.None? then c.(cachedRecipe := recipe, processTick := 0)
    else if c.processTick == 0 then c.(cachedRecipe := recipe, processTick := 1)
    else c.(cachedRecipe := recipe)
  }

  /**
   * The server side of tick after the item pickup: verifyRecipe, then a
   * running counter below 100 goes up by one, and at 100 the brew completes:
   * each input of the cached recipe clears the first slot it accepts, the
   * potion becomes the pure output potion, and the counter and the cached
   * recipe are reset.
   */
  function Ticked(c: Cauldron, getMatching: RecipeLookup, test: IngredientTest): (r: Cauldron)
    ensures Inv(c) ==> Inv(r)
    ensures r.fillLevel == c.fillLevel && |r.items| == |c.items|
  {
    var v := RecipeVerified(c, getMatching);
    if v.processTick > 0 then
      if v.processTick < BREW_TICKS then v.(processTick := v.processTick + 1)
      else
        var recipe := v.cachedRecipe.value;
        v.(items := Consumed(v.items, recipe.itemInputs, test),
           currentPotion := Mixture(recipe.potionOutput, [], true),
           dirty := true,
           processTick := 0,
           cachedRecipe := None)
    else v
  }

  /** Without a matching recipe a tick stops brewing and changes nothing else. */
  lemma TickWithoutRecipe(c: Cauldron, getMatching: RecipeLookup, test: IngredientTest)
    requires getMatching(c.currentPotion, c.items).None?
    ensures Ticked(c, getMatching, test) == c.(cachedRecipe := None, processTick := 0)
  {
  }

  /** With a matching recipe, a counter between 1 and 99 goes up by exactly one and nothing else changes. */
  lemma TickAdvances(c: Cauldron, getMatching: RecipeLookup, test: IngredientTest)
    requires getMatching(c.currentPotion, c.items).Some?
    requires 0 < c.processTick < BREW_TICKS
    ensures Ticked(c, getMatching, test) ==
      c.(cachedRecipe := getMatching(c.currentPotion, c.items), processTick := c.processTick + 1)
  {
  }

  /**
   * With a matching recipe and the counter at 100, a tick completes the brew:
   * the recipe's inputs are consumed from the slots, the potion becomes the
   * pure output potion, and the counter and cached recipe are cleared.
   */
  lemma TickCompletes(c: Cauldron, recipe: PotionMixingRecipe, getMatching: RecipeLookup, test: IngredientTest)
    requires getMatching(c.currentPotion, c.items) == Some(recipe)
    requires c.processTick == BREW_TICKS
    ensures Ticked(c, getMatching, test) ==
      c.(items := Consumed(c.items, recipe.itemInputs, test),
         currentPotion := Mixture(recipe.potionOutput, [], true),
         dirty := true,
         processTick := 0,
         cachedRecipe := None)
  {
  }

  /** The cauldron after k server ticks. */
  function TickedTimes(c: Cauldron, k: nat, getMatching: RecipeLookup, test: IngredientTest): (r: Cauldron)
    ensures Inv(c) ==> Inv(r)
  {
    if k == 0 then c else Ticked(TickedTimes(c, k - 1, getMatching, test), getMatching, test)
  }

  /** From a stopped counter and a matching recipe, the counter reads k + 1 after k ticks, for k up to 99. */
  lemma {:induction false} BrewingInProgress(c: Cauldron, recipe: PotionMixingRecipe, k: nat, getMatching: RecipeLookup, test: IngredientTest)
    requires c.processTick == 0 && getMatching(c.currentPotion, c.items) == Some(recipe)
    requires 1 <= k < BREW_TICKS
    ensures TickedTimes(c, k, getMatching, test) == c.(cachedRecipe := Some(recipe), processTick := k + 1)
  {
    if k > 1 {
      BrewingInProgress(c, recipe, k - 1, getMatching, test);
    }
  }

  /**
   * A brew completes on the 100th tick after it starts: the inputs are
   * consumed from the slots, the potion becomes the pure output, and the
   * counter and cached recipe are cleared.
   */
  lemma BrewCompletes(c: Cauldron, recipe: PotionMixingRecipe, getMatching: RecipeLookup, test: IngredientTest)
    requires c.processTick == 0 && getMatching(c.currentPotion, c.items) == Some(recipe)
    ensures TickedTimes(c, BREW_TICKS, getMatching, test) ==
      c.(items := Consumed(c.items, recipe.itemInputs, test),
         currentPotion := Mixture(recipe.potionOutput, [], true),
         dirty := true,
         processTick := 0,
         cachedRecipe := None)
  {
    BrewingInProgress(c, recipe, BREW_TICKS - 1, getMatching, test);
    TickCompletes(TickedTimes(c, BREW_TICKS - 1, getMatching, test), recipe, getMatching, test);
  }

  // ---------------------------------------------------------------------------
  // The block entity
  // ---------------------------------------------------------------------------

  class BrewingCauldronBlockEntity {
    var currentPotion: PotionMixture
    var fillLevel: int
    var processTick: int
    var cachedRecipe: Option<PotionMixingRecipe>
    const items: array<ItemStack>
    var dirty: bool

    function State(): Cauldron
      reads this, items
    {
      Cauldron(currentPotion, fillLevel, processTick, cachedRecipe, items[..], dirty)
    }

    ghost predicate Valid()
      reads this, items
    {
      Inv(State())
    }

    constructor ()
      ensures Valid() && State() == Initial && fresh(items)
    {
      currentPotion := EmptyMixture;
      fillLevel := 0;
      processTick := 0;
      cachedRecipe := None;
      var slots := new ItemStack[SLOTS](_ => Empty);
      assert slots[..] == [Empty, Empty, Empty, Empty, Empty];
      items := slots;
      dirty := false;
    }

    /** canAddItem: some slot holds the EMPTY stack itself, and then addItem has a slot to fill. */
    predicate CanAddItem()
      reads this, items
      ensures CanAddItem() ==> FirstWhere(items[..], IsEmptyStack).Some?
    {
      Empty in items[..]
    }

    /** itemAvailable: some slot is non-empty, which is when getAndRemoveLast has a stack to return. */
    predicate ItemAvailable()
      reads this, items
      ensures ItemAvailable() <==> LastWhere(items[..], IsFilled).Some?
    {
      exists i :: 0 <= i < items.Length && !items[i].IsEmpty()
    }

    /** canPotionBeExtracted: a cauldron in its invariant refuses only when it holds no bottle. */
    predicate CanPotionBeExtracted()
      reads this, items
      ensures Valid() ==> (!CanPotionBeExtracted() <==> fillLevel == 0)
    {
      fillLevel > 0
    }

    /** canPotionBeAdded: a cauldron in its invariant refuses only when it holds all three bottles. */
    predicate CanPotionBeAdded()
      reads this, items
      ensures Valid() ==> (!CanPotionBeAdded() <==> fillLevel == MAX_FILL_LEVEL)
    {
      fillLevel < MAX_FILL_LEVEL
    }

    /** addItem: stores the stack in the first empty slot, then marks the cauldron dirty. */
    method AddItem(stack: ItemStack)
      requires Valid()
      modifies this, items
      ensures Valid()
      ensures State() == old(State()).(items := WithItemAdded(old(items[..]), stack), dirty := true)
    {
      for i := 0 to items.Length
        invariant items[..] == old(items[..])
        invariant forall j :: 0 <= j < i ==> !items[j].IsEmpty()
      {
        if !items[i].IsEmpty() {
          continue;
        }
        items[i] := stack;
        break;
      }
      dirty := true;
    }

    /** getAndRemoveLast: empties the last non-empty slot and returns what it held. */
    method GetAndRemoveLast() returns (stack: ItemStack)
      requires Valid()
      modifies this, items
      ensures Valid()
      ensures (stack, items[..]) == RemovedLast(old(items[..]))
      ensures State() == old(State()).(items := items[..], dirty := old(dirty) || !stack.IsEmpty())
    {
      for i := items.Length downto 0
        invariant items[..] == old(items[..])
        invariant forall j :: i <= j < items.Length ==> items[j].IsEmpty()
      {
        if items[i].IsEmpty() {
          continue;
        }
        stack := items[i];
        items[i] := Empty;
        dirty := true;
        return;
      }
      return Empty;
    }

    /** addOneBottle. */
    method AddOneBottle(potion: PotionMixture, mix: Mix)
      requires Valid()
      modifies this
      ensures Valid()
      ensures State() == BottleAdded(old(State()), potion, mix)
    {
      if !CanPotionBeAdded() {
        return;
      }
      if fillLevel == 0 {
        currentPotion := potion;
      } else {
        currentPotion := mix(currentPotion, potion);
      }
      fillLevel := fillLevel + 1;
      dirty := true;
    }

    /** extractOneBottle. */
    method ExtractOneBottle(toStack: ToStack) returns (stack: ItemStack)
      requires Valid()
      modifies this
      ensures Valid()
      ensures (stack, State()) == BottleExtracted(old(State()), toStack)
    {
      if !CanPotionBeExtracted() {
        return Empty;
      }
      var currentPotionBackup := currentPotion;
      fillLevel := fillLevel - 1;
      if fillLevel == 0 {
        currentPotion := EmptyMixture;
      }
      dirty := true;
      return toStack(currentPotionBackup);
    }

    /** verifyRecipe. */
    method VerifyRecipe(getMatching: RecipeLookup)
      requires Valid()
      modifies this
      ensures Valid()
      ensures State() == RecipeVerified(old(State()), getMatching)
    {
      cachedRecipe := getMatching(currentPotion, items[..]);
      if cachedRecipe.None? {
        processTick := 0;
      } else if processTick == 0 {
        processTick := 1;
      }
    }

    /** The inner loop of the brew: clears the first slot the ingredient accepts. */
    method ClearFirstMatch(ingredient: Ingredient, test: IngredientTest)
      modifies items
      ensures items[..] == ConsumeOne(old(items[..]), ingredient, test)
    {
      for i := 0 to items.Length
        invariant items[..] == old(items[..])
        invariant forall j :: 0 <= j < i ==> !Matches(ingredient, test)(items[j])
      {
        if !test(ingredient, items[i]) {
          continue;
        }
        items[i] := Empty;
        break;
      }
    }

    /** The consumption loop of the brew: each input of the recipe in turn. */
    method ConsumeInputs(recipe: PotionMixingRecipe, test: IngredientTest)
      modifies items
      ensures items[..] == Consumed(old(items[..]), recipe.itemInputs, test)
    {
      var inputs := recipe.itemInputs;
      for k := 0 to |inputs|
        invariant items[..] == Consumed(old(items[..]), inputs[..k], test)
      {
        assert inputs[..k + 1][..k] == inputs[..k];
        ClearFirstMatch(inputs[k], test);
      }
      assert inputs[..|inputs|] == inputs;
    }

    /** The server side of tick, after the item pickup. */
    method Tick(getMatching: RecipeLookup, test: IngredientTest)
      requires Valid()
      modifies this, items
      ensures Valid()
      ensures State() == Ticked(old(State()), getMatching, test)
    {
      VerifyRecipe(getMatching);
      if processTick > 0 {
        if processTick < BREW_TICKS {
          processTick := processTick + 1;
        } else {
          var recipe := cachedRecipe.value;
          ConsumeInputs(recipe, test);
          currentPotion := Mixture(recipe.potionOutput, [], true);
          dirty := true;
          processTick := 0;
          cachedRecipe := None;
        }
      }
    }
  }
}
