/** The bat: a passive mob whose entity type saves its name tag, position
    and AI flag. */
module Bats {
  import opened Geometry
  import opened Nbt

  /** A bat's state: what its record carries, and its velocity. */
  datatype Bat = Bat(nameTag: string, pos: Vec3, vel: Vec3, hasAI: bool)

  /** A new bat with the given name tag, position and AI flag, at rest. */
  function NewBat(nameTag: string, pos: Vec3, hasAI: bool): (b: Bat)
    ensures b.nameTag == nameTag && b.pos == pos && b.hasAI == hasAI
    ensures b.vel == Zero
  {
    Bat(nameTag, pos, Zero, hasAI)
  }

  /** The wire name bats are saved and spawned under. */
  function EncodeEntity(): (r: string)
    ensures |r| > 10 && r[..10] == "minecraft:"
  {
    "minecraft:bat"
  }

  /** The box of a bat, whatever the bat: 0.98 wide and 2 high, standing
      on its position. */
  function TypeBBox(b: Bat): (r: BBox)
    ensures r.Valid() && r.min.y == 0.0 && r.max.y == 2.0
    ensures r.min.x == -r.max.x && r.max.x - r.min.x == 0.98
    ensures r.min.z == -r.max.z && r.max.z - r.min.z == 0.98
  {
    BBox(Vec3(-0.49, 0.0, -0.49), Vec3(0.49, 2.0, 0.49))
  }

  /** The bat a record loads as. Every record loads: a missing field reads
      as its zero value, and the bat starts at rest. */
  function DecodeNBT(data: Record): (r: Bat)
    ensures r.vel == Zero
    ensures "Nametag" !in data ==> r.nameTag == ""
    ensures "Pos" !in data ==> r.pos == Zero
    ensures "HasAI" !in data ==> !r.hasAI
  {
    NewBat(MapString(data, "Nametag"), MapVec3(data, "Pos"), MapBool(data, "HasAI"))
  }

  /** The record a bat is saved as: its name tag, its position narrowed to
      32-bit floats and its AI flag, and nothing else. */
  function EncodeNBT(c: Conv, b: Bat): (r: Record)
    ensures r.Keys == {"Nametag", "Pos", "HasAI"}
    ensures "Motion" !in r
  {
    map[
      "Nametag" := Str(b.nameTag),
      "Pos" := Vec3ToFloat32Slice(c, b.pos),
      "HasAI" := Bool(b.hasAI)]
  }

  /** Loading a saved bat gives back its name tag and AI flag exactly and its
      position narrowed to 32-bit floats; its velocity is not saved, so the
      loaded bat is at rest. */
  lemma RoundTrip(c: Conv, b: Bat)
    ensures DecodeNBT(EncodeNBT(c, b)) == Bat(b.nameTag, NarrowVec3(c, b.pos), Zero, b.hasAI)
  {
  }

  /** A bat survives saving and loading unchanged exactly when it is at rest
      and its position is already a 32-bit vector. */
  lemma RoundTripExactIff(c: Conv, b: Bat)
    ensures DecodeNBT(EncodeNBT(c, b)) == b <==> b.vel == Zero && NarrowVec3(c, b.pos) == b.pos
  {
  }
}
