# Falling blocks and entity records, modelled in Dafny

This project models the falling block entity of a voxel game server: the
entity a gravity-affected block becomes once the block under it is removed.
Every tick the entity takes the result of its movement step, keeps a running
fall distance, and once it comes to rest it runs its landing effects in a
fixed order. First it hurts the living entities under it. Then it may break
into another block. A landable payload is told it landed. The block is then
set in the world or dropped as an item, and the entity closes. The model also
covers the entity types of the falling block and of the bat. Each type has a
wire name, a bounding box and a codec to and from a schemaless record.

Files:

- `option.dfy`: `Options.Option`.
- `geometry.dfy`: vectors, boxes and block positions (`Geometry`).
- `blocks.dfy`: the payload `Block`. Each optional capability of the source is a field here: damager, breakable, landable, solidifiable, replaceable and item form.
- `worlds.dfy`: the world as the falling block uses it (`Worlds`). It holds the block map and the entity list, a log of the Hurt calls and Landed notifications it delivered, and the lower bound of its range. It has a value form, `WorldState`, and a class, `World`, whose methods update it in place.
- `nbt.dfy`: the record value type and the typed lookups the codecs use (`Nbt`).
- `falling_block.dfy`: the entity (`FallingBlocks`). Its class, `FallingBlock`, has a `Tick` method. `Tick` is proved equal to the pure function `TickOutcome`, and the landing properties are lemmas about `TickOutcome`. The module also holds the entity type and its codec.
- `bat.dfy`: the bat and its entity type (`Bats`).

The movement step is an input to `Tick`: the new position, the new velocity
and the on-ground flag. The payload's `Solidifies` probe is an input too. So
is the random draw, a real in `[0, 1)`. Fall distance and damage are exact
reals, and `Floor`/`Ceil` are written out on them.

The source does not return after it closes an entity that fell below the
world's range. The landing branch is still evaluated on that tick, and the
model keeps this. `RangeDoesNotGateLanding` states that the landing effects do not
depend on the world's lower bound.

## Model

| member | source | states |
|---|---|---|
| `FallingBlocks.FallingBlock.constructor` | server/entity/falling_block.go:27-38 | a new falling block holds the given block and position, is at rest, has fall distance 0, and is driven by gravity 0.04 and drag 0.02 with drag applied before gravity |
| `FallingBlocks.NextFallDistance` | server/entity/falling_block.go:79-84 | the fall distance never goes negative; a downward step adds exactly the distance moved; an upward or zero step never increases it |
| `FallingBlocks.FallingAccumulates` | server/entity/falling_block.go:79-84 | over a run of downward ticks the fall distance is the starting distance plus the sum of all distances moved |
| `FallingBlocks.Ceil` | server/entity/falling_block.go:94 | the result is the least integer not below its argument |
| `FallingBlocks.ExcessFall` | server/entity/falling_block.go:94 | the blocks fallen beyond the first, rounded up; positive exactly when the fall distance exceeds 1 |
| `FallingBlocks.Force` | server/entity/falling_block.go:95 | the force never exceeds the damager's cap or the unrounded damage, and is either the cap or within 1 below the unrounded damage |
| `FallingBlocks.DamageExample` | server/entity/falling_block.go:92-95 | a fall of 6 with 2 damage per block and a cap of 20 counts 5 blocks and deals 10 |
| `FallingBlocks.IgnoredAreSpared` | server/entity/falling_block.go:133-137 | the ignore filter (not living, or the falling block itself) is exactly what keeps an entity in the damage box from being hurt |
| `FallingBlocks.Victims` | server/entity/falling_block.go:96 | the entities a landing hurts are exactly the world's living entities, other than the falling block itself, whose position lies in the damage box; each appears as often as it is listed in the world |
| `Worlds.EntitiesWithin` | server/entity/falling_block.go:96 | the query returns exactly the listed entities that the filter does not reject and that lie inside the box, each as often as it is listed |
| `FallingBlocks.HurtAllCounts` | server/entity/falling_block.go:96-98 | the loop's Hurt calls number one per target entry; every call has the same force and source, and a call reaches a target as often as the target is listed |
| `FallingBlocks.HurtEach` | server/entity/falling_block.go:96-98 | the loop over the targets appends one Hurt call per target, in order, to the world's log and changes nothing else |
| `FallingBlocks.ImpactOf` | server/entity/falling_block.go:92-103 | the damage step keeps the payload or replaces it by its broken form; it hurts or breaks only for a damager that fell more than one block, and then makes one Hurt call per victim listing |
| `FallingBlocks.Place` | server/entity/falling_block.go:109-116 | the block is set at the position exactly when the block there is replaceable by it; otherwise the blocks stay as they were and, at most, one item of the payload is dropped at the block's centre, and only if it has an item form; Hurt and Landed logs are untouched |
| `FallingBlocks.LandOutcome` | server/entity/falling_block.go:91-119 | a landing closes the entity and changes only its payload; the world keeps its range and its earlier Hurt calls, and gets a Landed notification for the final payload exactly when that payload is landable |
| `FallingBlocks.TickOutcome` | server/entity/falling_block.go:71-120 | after a tick the entity has the movement's position and velocity and the updated fall distance, and is closed exactly when it already was, fell below the world's range, or landed |
| `FallingBlocks.HurtsOnlyLivingOthers` | server/entity/falling_block.go:92-98 | a tick keeps the earlier Hurt calls. Every new Hurt call goes to a living entity of the world, not the falling block, inside the damage box. Its force is the fall's force and its source is the payload before any break |
| `FallingBlocks.HurtsEveryLivingOther` | server/entity/falling_block.go:91-98 | when a damager lands after falling more than one block, every living entity other than itself inside the damage box gets exactly one Hurt call with the fall's force per time it is listed in the world, and no other entity gets one |
| `FallingBlocks.ShortFallIsHarmless` | server/entity/falling_block.go:94 | a fall of at most one block hurts nobody and leaves the payload unbroken |
| `FallingBlocks.BreaksExactlyWhen` | server/entity/falling_block.go:99-101 | the payload becomes its broken form exactly when it lands as a breakable damager, has fallen more than one block, has a positive force, and the draw is below 0.05 + 0.05 per block; otherwise it is unchanged |
| `FallingBlocks.SolidifyingActsAsGround` | server/entity/falling_block.go:91 | a solidifiable payload whose probe reports true lands exactly as if it had reached the ground |
| `FallingBlocks.LandingPlacesOrDrops` | server/entity/falling_block.go:105-118 | a landing notifies a landable payload and closes the entity. It then does exactly one of three things. If the block in the way is replaceable by the payload, it sets one block and adds no entity. Otherwise, if the payload has an item form, it drops one item at the block's centre and leaves the blocks alone. Otherwise it does neither. The payload used is the one after any break |
| `FallingBlocks.AirborneTickLeavesWorld` | server/entity/falling_block.go:91-119 | a tick that does not land leaves the world unchanged and keeps the payload; the entity takes its new position, velocity and fall distance, and is closed exactly when it already was or is below the world's range |
| `FallingBlocks.OutOfRangeCloses` | server/entity/falling_block.go:86-89 | an entity whose new block position is below the world's lower bound is closed |
| `FallingBlocks.RangeDoesNotGateLanding` | server/entity/falling_block.go:86-91 | the close for leaving the range does not return: a landing has the same effects whatever the world's lower bound |
| `FallingBlocks.FallingBlock.Tick` | server/entity/falling_block.go:71-120 | the entity's new state and the world's new state are those `TickOutcome` gives for the movement result, probe and draw |
| `FallingBlocks.FallingBlock.Land` | server/entity/falling_block.go:91-119 | the landing branch leaves the entity and world as `LandOutcome` gives |
| `FallingBlocks.FallingBlock.Explode` | server/entity/falling_block.go:128-131 | an explosion closes the entity and changes nothing else |
| `FallingBlocks.FallingBlock.SetVelocity` | server/entity/falling_block.go:165 | only the velocity changes |
| `FallingBlocks.EncodeEntity` | server/entity/falling_block.go:154 | the wire name lies in the `minecraft:` namespace; it is the constant "minecraft:falling_block" |
| `FallingBlocks.TypeBBox` | server/entity/falling_block.go:155-157 | a falling block's box is a 0.98 cube centred horizontally on its position and standing on it, whatever the entity |
| `FallingBlocks.EncodeNBT` | server/entity/falling_block.go:170-179 | the record has exactly the keys UniqueID, FallDistance, Pos, Motion and FallingBlock; its UniqueID is at most 0 and above -2^63 |
| `FallingBlocks.Decoded` | server/entity/falling_block.go:159-168 | a record loads as nothing exactly when its FallingBlock descriptor does not resolve; otherwise as an open entity holding the resolved block |
| `FallingBlocks.DecodeNBT` | server/entity/falling_block.go:159-168 | the method returns null exactly when the descriptor does not resolve; otherwise a fresh falling block in the state `Decoded` gives, configured as a new one |
| `FallingBlocks.RoundTrip` | server/entity/falling_block.go:159-179 | if the block codec is inverse, loading a saved falling block gives the same block and exactly the same fall distance, with position and velocity narrowed to 32-bit floats |
| `Nbt.MapVec3OfSlice` | server/entity/falling_block.go:164-165 | a vector written as three 32-bit floats reads back as the narrowed vector |
| `Geometry.PosFromVec3` | server/entity/falling_block.go:86 | the block position is the block containing the point on every axis |
| `Geometry.BlockPos.Vec3Middle` | server/entity/falling_block.go:114 | the centre of a block lies in that block |
| `Worlds.World.SetBlock` | server/entity/falling_block.go:111 | only the block at the position changes |
| `Worlds.World.AddEntity` | server/entity/falling_block.go:114 | only the entity list changes, by the one entity appended |
| `Worlds.World.Hurt` | server/entity/falling_block.go:97 | only the Hurt log changes, by the one call appended |
| `Worlds.World.Landed` | server/entity/falling_block.go:106 | only the Landed log changes, by the one notification appended |
| `FallingBlocks.FallingBlock.Close` | server/entity/falling_block.go:88 | closing sets the closed flag and nothing else, so closing twice is the same as closing once |
| `Bats.NewBat` | estral/entities/passive/bat.go:15-20 | a new bat carries the given name tag, position and AI flag, and is at rest |
| `Bats.EncodeEntity` | estral/entities/passive/bat.go:28 | the wire name lies in the `minecraft:` namespace; it is the constant "minecraft:bat" |
| `Bats.TypeBBox` | estral/entities/passive/bat.go:29-31 | a bat's box is 0.98 wide, 2 high, centred horizontally on its position and standing on it, whatever the bat |
| `Bats.DecodeNBT` | estral/entities/passive/bat.go:33-36 | every record loads as a bat, never nothing. The bat is at rest, and a missing field reads as its zero value |
| `Bats.EncodeNBT` | estral/entities/passive/bat.go:38-45 | the record has exactly the keys Nametag, Pos and HasAI, so no Motion |
| `Bats.RoundTrip` | estral/entities/passive/bat.go:33-45 | loading a saved bat gives the same name tag and AI flag exactly, its position narrowed to 32-bit floats, and zero velocity |
| `Bats.RoundTripExactIff` | estral/entities/passive/bat.go:38-45 | a bat survives saving and loading unchanged exactly when it is at rest and its position is already a 32-bit vector |

## Left out

- The movement integrator (`MovementComputer.TickMovement`) is not part of this model. Its result is an input to `Tick`. So is the network notification `Send`.
- The entity's mutex and the atomic fall-distance cell are concurrency mechanics. The model updates plain fields in sequence.
- Random numbers are inputs. `rand.Float64` is `draw` in `[0, 1)` and `rand.Int63` is `uid` in `[0, 2^63)`. A new identifier is drawn on every save, so identity is not stable across save and load. The model keeps that.
- The `Solidifies` probe is a block type's own code. The model takes its answer at the new position as an input. It is consulted only for a solidifiable payload.
- Floating point is not modelled. Positions, velocities, fall distance and damage are exact reals. Narrowing to 32-bit floats is a function `Conv.toFloat32` that the codecs take as a parameter.
- The block descriptor codec of `nbtconv` is not part of this model. Its writer and reader are parameters (`Conv.writeBlock`, `Conv.readBlock`), and the round trip assumes they are inverse.
- The typed record lookups of the two `nbtconv` packages are written as "value under the key if it has the right kind, else the zero value". That is the behaviour their callers rely on; their code is not part of this model.
- The world's internals are not part of this model. The model assumes `EntitiesWithin` keeps the entities whose position lies strictly inside the box. A position that holds no block reads as air, which any block may replace. `Hurt` and `Landed` are logged, not carried out. Closing sets a flag, and removing the entity from the world is not modelled.
- Entity identity is compared by reference in the source. The model uses an `id` fixed at construction.
- The bat's `MobBase` is not part of this model. A bat is modelled by the fields its record carries, plus its velocity.
- The trivial accessors `Type`, `Block`, `FallDistance` and `New` are not modelled separately. `New` only calls the constructor.
- `server/block/container.go` only declares interfaces. `server/item/apple.go` only returns constants and calls code not shown. Neither is modelled.
