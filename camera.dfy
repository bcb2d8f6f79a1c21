/** wcore's 2D camera and orthographic projection: plain records of
    transformation parameters whose setters overwrite one field in place.
    The matrices they produce (`apply`) are not part of this model. */
module Camera {
  import opened Wrappers
  import opened Vectors

  class Camera2D {
    var position: Vector3
    var scale: Vector3
    var rotation: Quaternion

    /** `Camera2D::new(position, rotation, scale)`. */
    constructor (position: Vector3, rotation: Quaternion, scale: Vector3)
      ensures GetPosition() == position && GetRotation() == rotation && GetScale() == scale
    {
      this.position := position;
      this.scale := scale;
      this.rotation := rotation;
    }

    function GetPosition(): Vector3
      reads this
    {
      position
    }

    function GetScale(): Vector3
      reads this
    {
      scale
    }

    function GetRotation(): Quaternion
      reads this
    {
      rotation
    }

    function GetX(): real
      reads this
    {
      position.x
    }

    function GetY(): real
      reads this
    {
      position.y
    }

    function GetZ(): real
      reads this
    {
      position.z
    }

    method SetPosition(value: Vector3)
      modifies this
      ensures GetPosition() == value
      ensures scale == old(scale) && rotation == old(rotation)
    {
      position := value;
    }

    method SetScale(value: Vector3)
      modifies this
      ensures GetScale() == value
      ensures position == old(position) && rotation == old(rotation)
    {
      scale := value;
    }

    method SetRotation(value: Quaternion)
      modifies this
      ensures GetRotation() == value
      ensures position == old(position) && scale == old(scale)
    {
      rotation := value;
    }

    method SetX(value: real)
      modifies this
      ensures GetX() == value && GetY() == old(GetY()) && GetZ() == old(GetZ())
      ensures scale == old(scale) && rotation == old(rotation)
    {
      position := position.(x := value);
    }

    method SetY(value: real)
      modifies this
      ensures GetY() == value && GetX() == old(GetX()) && GetZ() == old(GetZ())
      ensures scale == old(scale) && rotation == old(rotation)
    {
      position := position.(y := value);
    }

    method SetZ(value: real)
      modifies this
      ensures GetZ() == value && GetX() == old(GetX()) && GetY() == old(GetY())
      ensures scale == old(scale) && rotation == old(rotation)
    {
      position := position.(z := value);
    }
  }

  class ProjectionOrthographic {
    var width: real
    var height: real
    var znear: real
    var zfar: real

    /** `ProjectionOrthographic::new(width, height, znear, zfar)`. */
    constructor (width: U32, height: U32, znear: real, zfar: real)
      ensures this.width == width as real && this.height == height as real
      ensures this.znear == znear && this.zfar == zfar
    {
      this.width := width as real;
      this.height := height as real;
      this.znear := znear;
      this.zfar := zfar;
    }

    /** `Projection::resize`: only the viewport size changes. */
    method Resize(width: U32, height: U32)
      modifies this
      ensures this.width == width as real && this.height == height as real
      ensures znear == old(znear) && zfar == old(zfar)
    {
      this.width := width as real;
      this.height := height as real;
    }
  }
}
