/** Vectors, axis-aligned boxes and integer block positions. Coordinates are
    exact reals: the source's 64-bit floats are not rounded in this model. */
module Geometry {

  /** A point or a displacement in the world. */
  datatype Vec3 = Vec3(x: real, y: real, z: real) {

    function Add(o: Vec3): Vec3 {
      Vec3(x + o.x, y + o.y, z + o.z)
    }
  }

  /** The zero vector: the velocity a new entity starts with. */
  const Zero: Vec3 := Vec3(0.0, 0.0, 0.0)

  /** An axis-aligned bounding box given by its lower and upper corner. */
  datatype BBox = BBox(min: Vec3, max: Vec3) {

    predicate Valid() {
      min.x <= max.x && min.y <= max.y && min.z <= max.z
    }

    /** The box moved by the vector v. */
    function Translate(v: Vec3): (r: BBox)
      ensures Valid() ==> r.Valid()
    {
      BBox(min.Add(v), max.Add(v))
    }

    /** The box extended by d on every side. */
    function Grow(d: real): (r: BBox)
      requires d >= 0.0
      ensures Valid() ==> r.Valid()
    {
      BBox(Vec3(min.x - d, min.y - d, min.z - d), Vec3(max.x + d, max.y + d, max.z + d))
    }

    /** Whether the point v lies strictly inside the box. */
    predicate Vec3Within(v: Vec3) {
      min.x < v.x < max.x && min.y < v.y < max.y && min.z < v.z < max.z
    }
  }

  /** The position of one block: integer coordinates. */
  datatype BlockPos = BlockPos(x: int, y: int, z: int) {

    /** The centre of the block. */
    function Vec3Middle(): (r: Vec3)
      ensures PosFromVec3(r) == this
    {
      Vec3(x as real + 0.5, y as real + 0.5, z as real + 0.5)
    }
  }

  /** The block that contains the point v: every coordinate rounded down. */
  function PosFromVec3(v: Vec3): (r: BlockPos)
    ensures r.x as real <= v.x < r.x as real + 1.0
    ensures r.y as real <= v.y < r.y as real + 1.0
    ensures r.z as real <= v.z < r.z as real + 1.0
  {
    BlockPos(v.x.Floor, v.y.Floor, v.z.Floor)
  }
}
