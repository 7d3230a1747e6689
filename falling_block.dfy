/** The falling block entity: the form a gravity-affected block takes once
    it loses its support. Each tick it takes the result of its movement
    step, accounts the distance fallen, and on landing damages the living
    entities under it, may break, notifies the block, places it or drops
    it as an item, and closes. The module also holds the entity's type:
    its wire name, its box and its record codec. */
module FallingBlocks {
  import opened Options
  import opened Geometry
  import opened Blocks
  import opened Worlds
  import opened Nbt

  /** The movement integrator's configuration. */
  datatype MovementComputer = MovementComputer(gravity: real, drag: real, dragBeforeGravity: bool)

  /** The result of one movement step: new position, new velocity and
      whether downward movement was blocked. */
  datatype Movement = Movement(pos: Vec3, vel: Vec3, onGround: bool)

  /** The falling block's own state as a value. */
  datatype FallState = FallState(pos: Vec3, vel: Vec3, block: Block, fallDistance: real, closed: bool)

  // ---------------------------------------------------------------------
  // The steps of a tick, as functions of the state before it.
  // ---------------------------------------------------------------------

  /** The fall distance after a tick whose vertical velocity is
      distThisTick: moving down adds the distance moved; moving up or
      standing still consumes it, never below zero. */
  function NextFallDistance(fd: real, distThisTick: real): (r: real)
    ensures fd >= 0.0 ==> r >= 0.0
    ensures fd >= 0.0 && distThisTick <= 0.0 ==> r == fd - distThisTick
    ensures fd >= 0.0 && distThisTick >= 0.0 ==> r <= fd
  {
    if distThisTick < fd then fd - distThisTick else 0.0
  }

  /** The smallest integer not below x. */
  function Ceil(x: real): (r: int)
    ensures x <= r as real < x + 1.0
  {
    -((-x).Floor)
  }

  /** The number of whole blocks fallen beyond the first, rounded up. */
  function ExcessFall(fd: real): (r: int)
    ensures r > 0 <==> fd > 1.0
    ensures (r - 1) as real < fd - 1.0 <= r as real
  {
    Ceil(fd - 1.0)
  }

  function Min(a: real, b: real): real {
    if a <= b then a else b
  }

  /** The force of the fall: the damage per block times the blocks fallen,
      rounded down, capped at the damager's maximum. */
  function Force(dist: int, d: Damage): (r: real)
    ensures r <= d.max
    ensures r <= dist as real * d.perBlock
    ensures r == d.max || dist as real * d.perBlock - 1.0 < r
  {
    Min((dist as real * d.perBlock).Floor as real, d.max)
  }

  /** The chance that a damaging landing breaks the payload. */
  function BreakChance(dist: int): real {
    0.05 + dist as real * 0.05
  }

  /** Whether the landing effects run this tick. */
  predicate Lands(b: Block, solidifies: bool, onGround: bool) {
    (b.solidifiable && solidifies) || onGround
  }

  /** Whether the falling block entity self leaves e alone: e is not
      living, or e is the falling block itself. */
  predicate Ignores(self: EntityId, e: Entity) {
    !IsLiving(e) || e.id == self
  }

  /** The box of every falling block, relative to its position. */
  const Box: BBox := BBox(Vec3(-0.49, 0.0, -0.49), Vec3(0.49, 0.98, 0.49))

  /** The region whose living entities a landing hurts. */
  function DamageBox(at: Vec3): BBox {
    Box.Translate(at).Grow(0.05)
  }

  /** The entities a landing at `at` hurts: each living entity other than
      the falling block inside the damage box, as often as it is listed. */
  function Victims(es: seq<Entity>, self: EntityId, at: Vec3): (r: seq<Entity>)
    ensures forall e :: e in r <==> e in es && IsLiving(e) && e.id != self && DamageBox(at).Vec3Within(e.pos)
    ensures forall e ::
              multiset(r)[e] == if IsLiving(e) && e.id != self && DamageBox(at).Vec3Within(e.pos) then multiset(es)[e] else 0
  {
    EntitiesWithin(es, DamageBox(at), e => Ignores(self, e))
  }

  /** The filter the query is given decides the victims: an entity in the
      damage box is hurt exactly when the falling block does not ignore it. */
  lemma IgnoredAreSpared(es: seq<Entity>, self: EntityId, at: Vec3)
    ensures forall e :: e in Victims(es, self, at) <==> e in es && !Ignores(self, e) && DamageBox(at).Vec3Within(e.pos)
  {
  }

  /** The Hurt calls of the loop over targets, in the order it makes them. */
  function HurtAll(targets: seq<Entity>, force: real, source: DamageSource): seq<HurtEvent>
    decreases |targets|
  {
    if targets == [] then []
    else HurtAll(targets[..|targets| - 1], force, source) + [HurtEvent(targets[|targets| - 1], force, source)]
  }

  /** One Hurt call per target entry, each with the same force and source:
      a call is made as often as its target is listed. */
  lemma {:induction false} HurtAllCounts(targets: seq<Entity>, force: real, source: DamageSource)
    ensures |HurtAll(targets, force, source)| == |targets|
    ensures forall h ::
              multiset(HurtAll(targets, force, source))[h] == if h.force == force && h.source == source then multiset(targets)[h.target] else 0
    decreases |targets|
  {
    if targets != [] {
      var init := targets[..|targets| - 1];
      HurtAllCounts(init, force, source);
      assert targets == init + [targets[|targets| - 1]];
    }
  }

  /** What the damage step leaves: the payload, possibly broken, and the
      Hurt calls made. */
  datatype Impact = Impact(block: Block, hurts: seq<HurtEvent>)

  /** The damage and break step of a landing with fall distance fd. Only
      a damager that fell more than one block hurts anything or breaks, and
      then it hurts each victim once per listing. */
  function ImpactOf(b: Block, fd: real, es: seq<Entity>, self: EntityId, at: Vec3, draw: real): (r: Impact)
    ensures r.block == b || (b.broken.Some? && r.block == b.broken.value)
    ensures r.block != b || r.hurts != [] ==> b.damage.Some? && ExcessFall(fd) > 0
    ensures b.damage.Some? && ExcessFall(fd) > 0 ==> |r.hurts| == |Victims(es, self, at)|
  {
    HurtAllCounts(Victims(es, self, at), if b.damage.Some? then Force(ExcessFall(fd), b.damage.value) else 0.0, BlockDamage(b));
    if b.damage.None? || ExcessFall(fd) <= 0 then Impact(b, [])
    else
      var dist := ExcessFall(fd);
      var force := Force(dist, b.damage.value);
      var hurts := HurtAll(Victims(es, self, at), force, BlockDamage(b));
      if b.broken.Some? && force > 0.0 && draw < BreakChance(dist)
      then Impact(b.broken.value, hurts)
      else Impact(b, hurts)
  }

  /** The placement step: the block is set at pos if the block there is
      replaceable by it, otherwise an item of it is dropped at the centre of
      pos if it has an item form, otherwise nothing happens. */
  function Place(ws: WorldState, pos: BlockPos, b: Block): (r: WorldState)
    ensures r.hurts == ws.hurts && r.landings == ws.landings && r.minY == ws.minY
    ensures ReplaceableBy(BlockAt(ws.blocks, pos), b) ==> r.blocks == ws.blocks[pos := b] && r.entities == ws.entities
    ensures !ReplaceableBy(BlockAt(ws.blocks, pos), b) ==> r.blocks == ws.blocks
    ensures r.entities == ws.entities || (b.item && r.entities == ws.entities + [DroppedItem(ItemStack(b, 1), pos.Vec3Middle())])
    ensures r.entities != ws.entities ==> !ReplaceableBy(BlockAt(ws.blocks, pos), b)
  {
    if ReplaceableBy(BlockAt(ws.blocks, pos), b) then ws.(blocks := ws.blocks[pos := b])
    else if b.item then ws.(entities := ws.entities + [DroppedItem(ItemStack(b, 1), pos.Vec3Middle())])
    else ws
  }

  /** The landing of the falling block self whose state, after its
      movement, is s: damage and break, the Landed notification, placement
      or drop, then closing. */
  function LandOutcome(s: FallState, ws: WorldState, self: EntityId, draw: real): (r: (FallState, WorldState))
    ensures r.0 == s.(block := r.0.block, closed := true)
    ensures r.1.minY == ws.minY
    ensures |ws.hurts| <= |r.1.hurts| && r.1.hurts[..|ws.hurts|] == ws.hurts
    ensures r.1.landings == ws.landings + (if r.0.block.landable then [Landing(r.0.block, PosFromVec3(s.pos))] else [])
  {
    var pos := PosFromVec3(s.pos);
    var impact := ImpactOf(s.block, s.fallDistance, ws.entities, self, s.pos, draw);
    var b := impact.block;
    var landings := if b.landable then ws.landings + [Landing(b, pos)] else ws.landings;
    var hurt := ws.(hurts := ws.hurts + impact.hurts, landings := landings);
    (s.(block := b, closed := true), Place(hurt, pos, b))
  }

  /** The state of the falling block self and of the world after one tick
      with movement result m. `solidifies` is what the payload's Solidifies
      probe reports at the new position and `draw` is the random draw. */
  function TickOutcome(s: FallState, ws: WorldState, self: EntityId, m: Movement, solidifies: bool, draw: real)
    : (r: (FallState, WorldState))
    ensures r.0.pos == m.pos && r.0.vel == m.vel
    ensures r.0.fallDistance == NextFallDistance(s.fallDistance, m.vel.y)
    ensures r.0.closed <==> s.closed || PosFromVec3(m.pos).y < ws.minY || Lands(s.block, solidifies, m.onGround)
    ensures r.1.minY == ws.minY
  {
    var fd := NextFallDistance(s.fallDistance, m.vel.y);
    // Leaving the world's range closes the entity but does not end the tick.
    var closed := s.closed || PosFromVec3(m.pos).y < ws.minY;
    var moved := FallState(m.pos, m.vel, s.block, fd, closed);
    if Lands(s.block, solidifies, m.onGround) then LandOutcome(moved, ws, self, draw) else (moved, ws)
  }

  /** Calls Hurt on every target in turn. */
  method HurtEach(w: World, targets: seq<Entity>, force: real, source: DamageSource)
    modifies w
    ensures w.State() == old(w.State()).(hurts := old(w.hurts) + HurtAll(targets, force, source))
  {
    var i := 0;
    while i < |targets|
      invariant 0 <= i <= |targets|
      invariant w.State() == old(w.State()).(hurts := old(w.hurts) + HurtAll(targets[..i], force, source))
    {
      w.Hurt(targets[i], force, source);
      i := i + 1;
      assert targets[..i][..i - 1] == targets[..i - 1];
    }
    assert targets[..i] == targets;
  }

  // ---------------------------------------------------------------------
  // The entity.
  // ---------------------------------------------------------------------

  class FallingBlock {
    /** The entity's identity, which the source compares by reference. */
    const id: EntityId
    const c: MovementComputer
    var pos: Vec3
    var vel: Vec3
    var block: Block
    var fallDistance: real
    var closed: bool

    function State(): FallState
      reads this
    {
      FallState(pos, vel, block, fallDistance, closed)
    }

    /** A new falling block holding block at pos, at rest, with no fall
        distance, driven by gravity 0.04 and drag 0.02 applied first. */
    constructor (block: Block, pos: Vec3, id: EntityId)
      ensures State() == FallState(pos, Zero, block, 0.0, false)
      ensures c == MovementComputer(0.04, 0.02, true) && this.id == id
    {
      this.id := id;
      this.c := MovementComputer(0.04, 0.02, true);
      this.pos := pos;
      this.vel := Zero;
      this.block := block;
      this.fallDistance := 0.0;
      this.closed := false;
    }

    method SetVelocity(v: Vec3)
      modifies this
      ensures State() == old(State()).(vel := v)
    {
      vel := v;
    }

    /** Closing is idempotent: a closed entity stays as it is. */
    method Close()
      modifies this
      ensures State() == old(State()).(closed := true)
    {
      closed := true;
    }

    /** An explosion closes the entity and does nothing else. */
    method Explode(explosionPos: Vec3, impact: real)
      modifies this
      ensures State() == old(State()).(closed := true)
    {
      Close();
    }

    /** One tick, given the movement step's result m, the result of the
        payload's Solidifies probe and the random draw. */
    method Tick(w: World, m: Movement, solidifies: bool, draw: real)
      requires 0.0 <= draw < 1.0
      modifies this, w
      ensures (State(), w.State()) == TickOutcome(old(State()), old(w.State()), id, m, solidifies, draw)
    {
      pos, vel := m.pos, m.vel;

      var distThisTick := vel.y;
      if distThisTick < fallDistance {
        fallDistance := fallDistance - distThisTick;
      } else {
        fallDistance := 0.0;
      }

      var bpos := PosFromVec3(m.pos);
      if bpos.y < w.minY {
        Close();
      }

      if (block.solidifiable && solidifies) || m.onGround {
        Land(w, draw);
      }
    }

    /** The landing branch of a tick, run after the movement is applied. */
    method Land(w: World, draw: real)
      requires 0.0 <= draw < 1.0
      modifies this, w
      ensures (State(), w.State()) == LandOutcome(old(State()), old(w.State()), id, draw)
    {
      var bpos := PosFromVec3(pos);
      ghost var impact := ImpactOf(block, fallDistance, w.entities, id, pos, draw);
      ghost var ws0 := w.State();
      if block.damage.Some? {
        var dist := ExcessFall(fallDistance);
        if dist > 0 {
          var force := Force(dist, block.damage.value);
          HurtEach(w, Victims(w.entities, id, pos), force, BlockDamage(block));
          if block.broken.Some? && force > 0.0 && draw < BreakChance(dist) {
            block := block.broken.value;
          }
        }
      }
      assert block == impact.block && w.State() == ws0.(hurts := ws0.hurts + impact.hurts);
      if block.landable {
        w.Landed(block, bpos);
      }
      if ReplaceableBy(w.Block(bpos), block) {
        w.SetBlock(bpos, block);
      } else if block.item {
        w.AddEntity(DroppedItem(ItemStack(block, 1), bpos.Vec3Middle()));
      }
      Close();
    }
  }

  // ---------------------------------------------------------------------
  // The entity type: wire name, box and record codec.
  // ---------------------------------------------------------------------

  /** The exclusive upper bound of the random identifier draw. */
  const MaxInt63: int := 0x8000_0000_0000_0000

  /** The wire name falling blocks are saved and spawned under. */
  function EncodeEntity(): (r: string)
    ensures |r| > 10 && r[..10] == "minecraft:"
  {
    "minecraft:falling_block"
  }

  /** The box of a falling block, whatever the entity: a 0.98 cube
      standing on its position. */
  function TypeBBox(e: FallingBlock): (r: BBox)
    ensures r.Valid() && r.min.y == 0.0 && r.max.y == 0.98
    ensures r.min.x == -r.max.x && r.max.x - r.min.x == 0.98
    ensures r.min.z == -r.max.z && r.max.z - r.min.z == 0.98
  {
    Box
  }

  /** The record a falling block is saved as; uid is the random draw from
      which the record's fresh identifier is made. */
  function EncodeNBT(f: FallingBlock, uid: int, c: Conv): (r: Record)
    requires 0 <= uid < MaxInt63
    reads f
    ensures r.Keys == {"UniqueID", "FallDistance", "Pos", "Motion", "FallingBlock"}
    ensures r["UniqueID"].Long? && -MaxInt63 < r["UniqueID"].i <= 0
  {
    map[
      "UniqueID" := Long(-uid),
      "FallDistance" := Double(f.fallDistance),
      "Pos" := Vec3ToFloat32Slice(c, f.pos),
      "Motion" := Vec3ToFloat32Slice(c, f.vel),
      "FallingBlock" := c.writeBlock(f.block)]
  }

  /** The state a record loads as: None when its block descriptor does not
      resolve, otherwise a new falling block at the stored position with the
      stored velocity and fall distance. */
  function Decoded(c: Conv, data: Record): (r: Option<FallState>)
    ensures r.None? <==> MapBlock(c, data, "FallingBlock").None?
    ensures r.Some? ==> !r.value.closed && r.value.block == MapBlock(c, data, "FallingBlock").value
  {
    match MapBlock(c, data, "FallingBlock")
    case None => None
    case Some(b) =>
      Some(FallState(MapVec3(data, "Pos"), MapVec3(data, "Motion"), b, MapFloat64(data, "FallDistance"), false))
  }

  /** Loads a falling block from a record; null when the record's block
      descriptor does not resolve. */
  method DecodeNBT(c: Conv, data: Record, id: EntityId) returns (e: FallingBlock?)
    ensures e == null <==> Decoded(c, data).None?
    ensures e != null ==> fresh(e) && e.State() == Decoded(c, data).value
    ensures e != null ==> e.c == MovementComputer(0.04, 0.02, true) && e.id == id
  {
    var b := MapBlock(c, data, "FallingBlock");
    if b.None? {
      return null;
    }
    e := new FallingBlock(b.value, MapVec3(data, "Pos"), id);
    e.SetVelocity(MapVec3(data, "Motion"));
    e.fallDistance := MapFloat64(data, "FallDistance");
  }

  // ---------------------------------------------------------------------
  // Properties.
  // ---------------------------------------------------------------------

  /** The fall distance after a run of ticks with the given vertical
      velocities. */
  function FallDistanceAfter(fd: real, dys: seq<real>): real
    decreases |dys|
  {
    if dys == [] then fd else FallDistanceAfter(NextFallDistance(fd, dys[0]), dys[1..])
  }

  function Sum(dys: seq<real>): real {
    if dys == [] then 0.0 else dys[0] + Sum(dys[1..])
  }

  /** While the block only moves down, the fall distance is the distance
      it started with plus every distance moved since. */
  lemma {:induction false} FallingAccumulates(fd: real, dys: seq<real>)
    requires fd >= 0.0
    requires forall k :: 0 <= k < |dys| ==> dys[k] <= 0.0
    ensures FallDistanceAfter(fd, dys) == fd - Sum(dys)
    decreases |dys|
  {
    if dys != [] {
      FallingAccumulates(NextFallDistance(fd, dys[0]), dys[1..]);
    }
  }

  /** A tick without landing changes nothing in the world: the entity only
      takes its new position, velocity and fall distance, and closes if it
      left the world's range. */
  lemma AirborneTickLeavesWorld(s: FallState, ws: WorldState, self: EntityId, m: Movement, solidifies: bool, draw: real)
    requires !Lands(s.block, solidifies, m.onGround)
    ensures var (s', ws') := TickOutcome(s, ws, self, m, solidifies, draw);
      && ws' == ws
      && s' == FallState(m.pos, m.vel, s.block, NextFallDistance(s.fallDistance, m.vel.y), s'.closed)
      && (s'.closed <==> s.closed || PosFromVec3(m.pos).y < ws.minY)
  {
  }

  /** Falling below the world's range closes the entity. */
  lemma OutOfRangeCloses(s: FallState, ws: WorldState, self: EntityId, m: Movement, solidifies: bool, draw: real)
    requires PosFromVec3(m.pos).y < ws.minY
    ensures TickOutcome(s, ws, self, m, solidifies, draw).0.closed
  {
  }

  /** Closing for leaving the range does not end the tick: a landing
      has the same effects wherever the world's lower bound lies. */
  lemma RangeDoesNotGateLanding(s: FallState, ws: WorldState, self: EntityId, m: Movement, solidifies: bool, draw: real, minY: int)
    requires Lands(s.block, solidifies, m.onGround)
    ensures var (a, wa) := TickOutcome(s, ws, self, m, solidifies, draw);
      var (b, wb) := TickOutcome(s, ws.(minY := minY), self, m, solidifies, draw);
      a == b && wa == wb.(minY := ws.minY)
  {
  }

  /** A payload that can solidify and does lands exactly as one that
      reached the ground. */
  lemma SolidifyingActsAsGround(s: FallState, ws: WorldState, self: EntityId, m: Movement, draw: real)
    requires s.block.solidifiable
    ensures TickOutcome(s, ws, self, m.(onGround := false), true, draw)
         == TickOutcome(s, ws, self, m.(onGround := true), false, draw)
  {
  }

  /** A landing closes the entity, notifies a landable payload, and then
      either sets the block, or drops it as an item, or does neither: the
      block is set exactly when the block in its way is replaceable by it,
      and dropped exactly when it is not but the payload has an item form.
      The block placed, dropped or notified is the payload after a possible
      break. */
  lemma LandingPlacesOrDrops(s: FallState, ws: WorldState, self: EntityId, m: Movement, solidifies: bool, draw: real)
    requires Lands(s.block, solidifies, m.onGround)
    ensures var (s', ws') := TickOutcome(s, ws, self, m, solidifies, draw);
      var pos := PosFromVec3(m.pos);
      var placed := ReplaceableBy(BlockAt(ws.blocks, pos), s'.block);
      && s'.closed
      && ws'.landings == ws.landings + (if s'.block.landable then [Landing(s'.block, pos)] else [])
      && (placed ==> ws'.blocks == ws.blocks[pos := s'.block] && ws'.entities == ws.entities)
      && (!placed && s'.block.item ==>
            ws'.blocks == ws.blocks && ws'.entities == ws.entities + [DroppedItem(ItemStack(s'.block, 1), pos.Vec3Middle())])
      && (!placed && !s'.block.item ==> ws'.blocks == ws.blocks && ws'.entities == ws.entities)
  {
  }

  /** Every Hurt call a tick makes goes to a living entity of the world
      other than the falling block, inside the damage box, with the force
      of the fall and the payload as it was before any break as source. */
  lemma HurtsOnlyLivingOthers(s: FallState, ws: WorldState, self: EntityId, m: Movement, solidifies: bool, draw: real)
    ensures var (s', ws') := TickOutcome(s, ws, self, m, solidifies, draw);
      && |ws.hurts| <= |ws'.hurts| && ws'.hurts[..|ws.hurts|] == ws.hurts
      && forall h :: h in ws'.hurts[|ws.hurts|..] ==>
           && h.target in ws.entities && IsLiving(h.target) && h.target.id != self
           && DamageBox(m.pos).Vec3Within(h.target.pos)
           && s.block.damage.Some?
           && h.force == Force(ExcessFall(s'.fallDistance), s.block.damage.value)
           && h.source == BlockDamage(s.block)
  {
    var (s', ws') := TickOutcome(s, ws, self, m, solidifies, draw);
    if Lands(s.block, solidifies, m.onGround) && s.block.damage.Some? && ExcessFall(s'.fallDistance) > 0 {
      var force := Force(ExcessFall(s'.fallDistance), s.block.damage.value);
      HurtAllCounts(Victims(ws.entities, self, m.pos), force, BlockDamage(s.block));
    }
  }

  /** When a damaging payload lands after falling more than one block, each
      living entity of the world other than the falling block inside the
      damage box gets one Hurt call with the force of the fall per time it
      is listed in the world, and no other entity gets such a call. */
  lemma HurtsEveryLivingOther(s: FallState, ws: WorldState, self: EntityId, m: Movement, solidifies: bool, draw: real)
    requires Lands(s.block, solidifies, m.onGround) && s.block.damage.Some?
    requires NextFallDistance(s.fallDistance, m.vel.y) > 1.0
    ensures var (s', ws') := TickOutcome(s, ws, self, m, solidifies, draw);
      var force := Force(ExcessFall(s'.fallDistance), s.block.damage.value);
      var added := ws'.hurts[|ws.hurts|..];
      forall e :: multiset(added)[HurtEvent(e, force, BlockDamage(s.block))] ==
        if IsLiving(e) && e.id != self && DamageBox(m.pos).Vec3Within(e.pos) then multiset(ws.entities)[e] else 0
  {
    var (s', ws') := TickOutcome(s, ws, self, m, solidifies, draw);
    var force := Force(ExcessFall(s'.fallDistance), s.block.damage.value);
    HurtAllCounts(Victims(ws.entities, self, m.pos), force, BlockDamage(s.block));
  }

  /** A fall of at most one block hurts nobody and breaks nothing. */
  lemma ShortFallIsHarmless(s: FallState, ws: WorldState, self: EntityId, m: Movement, solidifies: bool, draw: real)
    requires NextFallDistance(s.fallDistance, m.vel.y) <= 1.0
    ensures var (s', ws') := TickOutcome(s, ws, self, m, solidifies, draw);
      ws'.hurts == ws.hurts && s'.block == s.block
  {
  }

  /** The payload is replaced by its broken form exactly when it landed,
      is a damager, fell more than one block, is breakable, the force is
      positive and the draw falls under the break chance. */
  lemma BreaksExactlyWhen(s: FallState, ws: WorldState, self: EntityId, m: Movement, solidifies: bool, draw: real)
    ensures var (s', ws') := TickOutcome(s, ws, self, m, solidifies, draw);
      var dist := ExcessFall(s'.fallDistance);
      var breaks := Lands(s.block, solidifies, m.onGround) && s.block.damage.Some? && dist > 0
        && s.block.broken.Some? && Force(dist, s.block.damage.value) > 0.0 && draw < BreakChance(dist);
      && (breaks ==> s'.block == s.block.broken.value)
      && (!breaks ==> s'.block == s.block)
  {
  }

  /** The worked example of the damage rule: a fall of six blocks with two
      damage per block capped at twenty deals ten. */
  lemma DamageExample()
    ensures ExcessFall(6.0) == 5
    ensures Force(ExcessFall(6.0), Damage(2.0, 20.0)) == 10.0
  {
  }

  /** Loading a saved falling block gives back its block and fall distance
      exactly, and its position and velocity narrowed to 32-bit floats. */
  lemma RoundTrip(f: FallingBlock, uid: int, c: Conv)
    requires 0 <= uid < MaxInt63
    requires BlockCodecInverse(c)
    ensures Decoded(c, EncodeNBT(f, uid, c))
         == Some(FallState(NarrowVec3(c, f.pos), NarrowVec3(c, f.vel), f.block, f.fallDistance, false))
  {
  }
}
