/** The schemaless record entities are saved to, and the typed lookups the
    entity codecs use on it. */
module Nbt {
  import opened Options
  import opened Geometry
  import opened Blocks

  /** One value of a record: a tagged union of the kinds the codecs write. */
  datatype Value =
    | Str(s: string)
    | Bool(b: bool)
    | Long(i: int)
    | Double(d: real)
    | Float32s(xs: seq<real>)
    | Compound(fields: map<string, Value>)

  type Record = map<string, Value>

  /** The conversions the codecs rely on but do not define: narrowing a
      64-bit float to the nearest 32-bit float, and the block descriptor
      writer and reader. */
  datatype Conv = Conv(
    toFloat32: real -> real,
    writeBlock: Block -> Value,
    readBlock: Value -> Option<Block>)

  /** The block descriptor reader undoes the writer. */
  ghost predicate BlockCodecInverse(c: Conv) {
    forall b :: c.readBlock(c.writeBlock(b)) == Some(b)
  }

  /** The vector narrowed component by component to 32-bit floats. */
  function NarrowVec3(c: Conv, v: Vec3): Vec3 {
    Vec3(c.toFloat32(v.x), c.toFloat32(v.y), c.toFloat32(v.z))
  }

  /** A vector written as a list of three 32-bit floats. */
  function Vec3ToFloat32Slice(c: Conv, v: Vec3): (r: Value)
    ensures r.Float32s? && |r.xs| == 3
  {
    Float32s([c.toFloat32(v.x), c.toFloat32(v.y), c.toFloat32(v.z)])
  }

  /** The vector stored under key; the zero vector when the key is missing
      or does not hold three floats. */
  function MapVec3(data: Record, key: string): (r: Vec3)
    ensures key !in data ==> r == Zero
  {
    if key in data && data[key].Float32s? && |data[key].xs| == 3
    then Vec3(data[key].xs[0], data[key].xs[1], data[key].xs[2])
    else Zero
  }

  /** The string under key, or "" when it is missing or not a string. */
  function MapString(data: Record, key: string): (r: string)
    ensures key !in data ==> r == ""
  {
    if key in data && data[key].Str? then data[key].s else ""
  }

  /** The boolean under key, or false when it is missing or not a boolean. */
  function MapBool(data: Record, key: string): (r: bool)
    ensures key !in data ==> !r
  {
    if key in data && data[key].Bool? then data[key].b else false
  }

  /** The 64-bit float under key, or 0 when it is missing or not a float. */
  function MapFloat64(data: Record, key: string): (r: real)
    ensures key !in data ==> r == 0.0
  {
    if key in data && data[key].Double? then data[key].d else 0.0
  }

  /** The block whose descriptor is stored under key; None when the key is
      missing or the descriptor does not resolve to a block. */
  function MapBlock(c: Conv, data: Record, key: string): (r: Option<Block>)
    ensures key !in data ==> r == None
  {
    if key in data then c.readBlock(data[key]) else None
  }

  /** Reading back a written vector gives the narrowed vector. */
  lemma MapVec3OfSlice(c: Conv, data: Record, key: string, v: Vec3)
    requires key in data && data[key] == Vec3ToFloat32Slice(c, v)
    ensures MapVec3(data, key) == NarrowVec3(c, v)
  {
  }
}
