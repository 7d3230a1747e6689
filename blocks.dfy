/** Block values and the optional capabilities a falling payload may have.
    In the source each capability is an interface that a block type may or
    may not implement; here each is a field that is present or absent. */
module Blocks {
  import opened Options

  /** The damager capability: damage per block fallen and its cap. */
  datatype Damage = Damage(perBlock: real, max: real)

  /** The replaceable capability of a block standing in the world: absent,
      replaceable by any payload, or by the payloads of the named kinds. */
  datatype Replacement = NotReplaceable | ReplaceableByAny | ReplaceableByNames(names: set<string>)

  /** A block. `damage` is the damager capability, `broken` the result of the
      breakable capability's Break, `landable` whether it wants the Landed
      notification, `solidifiable` whether it has the Solidifies probe,
      `replacement` its replaceable capability and `item` whether the block
      also has an item form. */
  datatype Block = Block(
    name: string,
    damage: Option<Damage>,
    broken: Option<Block>,
    landable: bool,
    solidifiable: bool,
    replacement: Replacement,
    item: bool)

  /** What the world reports at a position that holds no block. */
  const Air: Block := Block("minecraft:air", None, None, false, false, ReplaceableByAny, false)

  /** Whether the block `existing` has the replaceable capability and it
      accepts `payload`. */
  predicate ReplaceableBy(existing: Block, payload: Block) {
    match existing.replacement
    case NotReplaceable => false
    case ReplaceableByAny => true
    case ReplaceableByNames(names) => payload.name in names
  }
}
