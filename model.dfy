/** The per-circle instance record the conveyor builds, and its baked form
    (`bake`), the layout the vertex shader reads. */
module Model {
  import opened Vectors
  import opened Colors

  /** `TaikoHitObjectModel`. */
  datatype HitObjectModel = HitObjectModel(time: real, size: Vector2, color: Color, finisher: bool, velocity: real)

  /** `BakedTaikoHitObjectModel`; `finisher` is a `u32`. */
  datatype Baked = Baked(sizeOffset: Vector3, velocity: real, color: Vector4, finisher: nat)

  /** `Instance::bake`. */
  function Bake(m: HitObjectModel): (b: Baked)
    ensures b.sizeOffset.x == m.size.x && b.sizeOffset.y == m.size.y && b.sizeOffset.z == m.time
    ensures b.velocity == m.velocity
    ensures b.color.x == m.color.r && b.color.y == m.color.g && b.color.z == m.color.b && b.color.w == m.color.a
    ensures b.finisher == 1 <==> m.finisher
    ensures b.finisher <= 1
  {
    Baked(Vector3(m.size.x, m.size.y, m.time), m.velocity, ToVector4(m.color), if m.finisher then 1 else 0)
  }

  /** Reads an instance record back out of its baked form. */
  function Unbake(b: Baked): HitObjectModel {
    HitObjectModel(b.sizeOffset.z, Vector2(b.sizeOffset.x, b.sizeOffset.y),
                   Color(b.color.x, b.color.y, b.color.z, b.color.w), b.finisher == 1, b.velocity)
  }

  /** Baking loses nothing: the record can be read back. */
  lemma BakeUnbake(m: HitObjectModel)
    ensures Unbake(Bake(m)) == m
  {
  }

  /** `instance_data`: every instance baked, in order. */
  function BakeAll(ms: seq<HitObjectModel>): (bs: seq<Baked>)
    ensures |bs| == |ms|
    ensures forall i :: 0 <= i < |ms| ==> bs[i] == Bake(ms[i])
  {
    seq(|ms|, i requires 0 <= i < |ms| => Bake(ms[i]))
  }
}
