/** `TaikoState`: the player's settings the taiko layer and the conveyor read,
    and the `rebuild_pending` flag through which settings edits ask for the
    instance list to be rebuilt. */
module Settings {
  import opened Vectors
  import opened Colors

  class TaikoState {
    var scale: real
    /** Milliseconds added to every circle's time before culling (`i64`). */
    var audioOffset: int
    var hitPosition: Vector2
    var zoom: real
    var donColor: Color
    var katColor: Color
    var forceRebuild: bool
    var hitCircles: bool
    var rebuildPending: bool

    /** `TaikoState::new`. */
    constructor ()
      ensures scale == 0.8 && audioOffset == 45 && hitPosition == Vector2(256.0, 256.0) && zoom == 1.0
      ensures donColor == Color(0.973, 0.596, 0.651, 1.0) && katColor == Color(0.741, 0.698, 0.827, 1.0)
      ensures !forceRebuild && hitCircles && !rebuildPending
    {
      scale := 0.8;
      audioOffset := 45;
      hitPosition := Vector2(256.0, 256.0);
      zoom := 1.0;
      donColor := New(0.973, 0.596, 0.651, 1.0);
      katColor := New(0.741, 0.698, 0.827, 1.0);
      forceRebuild := false;
      hitCircles := true;
      rebuildPending := false;
    }

    /** The settings window's zoom field: a change asks for a rebuild. */
    method EditZoom(value: real)
      modifies this
      ensures zoom == value && rebuildPending
      ensures scale == old(scale) && audioOffset == old(audioOffset) && hitPosition == old(hitPosition)
      ensures donColor == old(donColor) && katColor == old(katColor)
      ensures forceRebuild == old(forceRebuild) && hitCircles == old(hitCircles)
    {
      zoom := value;
      rebuildPending := true;
    }

    /** The DON colour picker, which edits 8-bit RGB: a change asks for a
        rebuild. */
    method EditDonColor(r: Byte, g: Byte, b: Byte)
      modifies this
      ensures donColor == FromRgb(r, g, b) && rebuildPending
      ensures scale == old(scale) && audioOffset == old(audioOffset) && hitPosition == old(hitPosition)
      ensures zoom == old(zoom) && katColor == old(katColor)
      ensures forceRebuild == old(forceRebuild) && hitCircles == old(hitCircles)
    {
      donColor := FromRgb(r, g, b);
      rebuildPending := true;
    }

    /** The KAT colour picker: a change asks for a rebuild. */
    method EditKatColor(r: Byte, g: Byte, b: Byte)
      modifies this
      ensures katColor == FromRgb(r, g, b) && rebuildPending
      ensures scale == old(scale) && audioOffset == old(audioOffset) && hitPosition == old(hitPosition)
      ensures zoom == old(zoom) && donColor == old(donColor)
      ensures forceRebuild == old(forceRebuild) && hitCircles == old(hitCircles)
    {
      katColor := FromRgb(r, g, b);
      rebuildPending := true;
    }
  }
}
