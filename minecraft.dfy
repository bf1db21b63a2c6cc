/**
 * The few game values both block entities work with. Only the parts of
 * Minecraft's own classes that the two block entities depend on are modelled;
 * the game library itself is not part of this model.
 */
module Minecraft {

  /** A block position; only equality and the vertical coordinate matter here. */
  datatype BlockPos = BlockPos(x: int, y: int, z: int)

  /** An item, identified by its registry id. */
  type Item = nat

  /** The registry id of the air item. */
  const AIR: Item := 0

  /**
   * An item stack. `Empty` is the shared ItemStack.EMPTY constant; a
   * `Stack` is any other stack object, which may still be empty in the
   * sense of IsEmpty (air, or a count of zero or less).
   */
  datatype ItemStack = Empty | Stack(item: Item, count: int)
  {
    /** ItemStack.isEmpty: the EMPTY constant, an air stack or a non-positive count. */
    predicate IsEmpty() {
      Empty? || item == AIR || count <= 0
    }
  }

  /** The two ActionResult values the ritual core returns. */
  datatype ActionResult = Success | Pass
}
