/** A taiko hit circle: when it is hit, whether it is a big (finisher)
    circle, and which drum face it asks for. */
module TaikoCircle {
  import opened Times

  /** `TaikoColor`: a centre hit (DON) or a rim hit (KAT). */
  datatype TaikoColor = KAT | DON

  /** `#[default] KAT`. */
  const DefaultColor: TaikoColor := KAT

  /** `TaikoColor::toggle`. It assigns `*self` in place; the enum is `Copy`,
      so the model returns the new value for the caller to store. */
  function Toggle(c: TaikoColor): (t: TaikoColor)
    ensures t != c
  {
    match c
    case KAT => DON
    case DON => KAT
  }

  datatype Circle = Circle(time: Time, big: bool, color: TaikoColor)

  /** `TaikoCircle::default()`, derived field by field. */
  const DefaultCircle: Circle := Circle(Zero(), false, DefaultColor)

  /** Toggling twice gives back the colour toggled. */
  lemma ToggleInvolution(c: TaikoColor)
    ensures Toggle(Toggle(c)) == c
  {
  }

  /** Toggle swaps exactly KAT and DON. */
  lemma ToggleSwaps()
    ensures Toggle(KAT) == DON && Toggle(DON) == KAT
  {
  }
}
