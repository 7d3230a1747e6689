/** The world as the falling block sees it: a block map, a list of entities,
    the log of Hurt calls and Landed notifications it has delivered, and the
    lower bound of its vertical range. */
module Worlds {
  import opened Geometry
  import opened Blocks

  type EntityId = nat

  /** A stack of items, as dropped into the world. */
  datatype ItemStack = ItemStack(item: Block, count: nat)

  /** An entity in the world: an actor (a mob, a player, another falling
      block), which may be living, or an item entity holding a stack. */
  datatype Entity =
    | Actor(id: EntityId, living: bool, pos: Vec3)
    | DroppedItem(stack: ItemStack, pos: Vec3)

  predicate IsLiving(e: Entity) {
    e.Actor? && e.living
  }

  /** The damage source handed to Hurt: the block that fell. */
  datatype DamageSource = BlockDamage(block: Block)

  /** One call of Hurt on a living entity. */
  datatype HurtEvent = HurtEvent(target: Entity, force: real, source: DamageSource)

  /** One Landed notification: the block and the position it landed at. */
  datatype Landing = Landing(block: Block, pos: BlockPos)

  /** The world's state as a value. */
  datatype WorldState = WorldState(
    blocks: map<BlockPos, Block>,
    entities: seq<Entity>,
    hurts: seq<HurtEvent>,
    landings: seq<Landing>,
    minY: int)

  /** The block at pos; a position that holds none reads as air. */
  function BlockAt(blocks: map<BlockPos, Block>, pos: BlockPos): Block {
    if pos in blocks then blocks[pos] else Air
  }

  /** The entities, in list order, that `ignored` does not reject and whose
      position lies inside box. Each one kept appears as often as in es. */
  function EntitiesWithin(es: seq<Entity>, box: BBox, ignored: Entity -> bool): (r: seq<Entity>)
    ensures |r| <= |es|
    ensures forall e :: e in r <==> e in es && !ignored(e) && box.Vec3Within(e.pos)
    ensures forall e :: multiset(r)[e] == if !ignored(e) && box.Vec3Within(e.pos) then multiset(es)[e] else 0
  {
    if es == [] then []
    else
      assert es == [es[0]] + es[1..];
      var rest := EntitiesWithin(es[1..], box, ignored);
      if !ignored(es[0]) && box.Vec3Within(es[0].pos) then [es[0]] + rest else rest
  }

  /** The world, updated in place by SetBlock, AddEntity, Hurt and Landed. */
  class World {
    var blocks: map<BlockPos, Block>
    var entities: seq<Entity>
    var hurts: seq<HurtEvent>
    var landings: seq<Landing>
    const minY: int

    function State(): WorldState
      reads this
    {
      WorldState(blocks, entities, hurts, landings, minY)
    }

    constructor (blocks: map<BlockPos, Block>, entities: seq<Entity>, minY: int)
      ensures State() == WorldState(blocks, entities, [], [], minY)
    {
      this.blocks := blocks;
      this.entities := entities;
      this.hurts := [];
      this.landings := [];
      this.minY := minY;
    }

    function Block(pos: BlockPos): (b: Blocks.Block)
      reads this
    {
      BlockAt(blocks, pos)
    }

    method SetBlock(pos: BlockPos, b: Blocks.Block)
      modifies this
      ensures State() == old(State()).(blocks := old(blocks)[pos := b])
    {
      blocks := blocks[pos := b];
    }

    method AddEntity(e: Entity)
      modifies this
      ensures State() == old(State()).(entities := old(entities) + [e])
    {
      entities := entities + [e];
    }

    /** Hurt called on the living entity e; what it does to e belongs to e,
        so the world only logs the call. */
    method Hurt(e: Entity, force: real, source: DamageSource)
      modifies this
      ensures State() == old(State()).(hurts := old(hurts) + [HurtEvent(e, force, source)])
    {
      hurts := hurts + [HurtEvent(e, force, source)];
    }

    /** The Landed notification of a landable block, logged. */
    method Landed(b: Blocks.Block, pos: BlockPos)
      modifies this
      ensures State() == old(State()).(landings := old(landings) + [Landing(b, pos)])
    {
      landings := landings + [Landing(b, pos)];
    }
  }
}
