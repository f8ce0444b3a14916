/**
 * The final colour rule of the keyboard view's fragment shader: given the
 * blended SDF value `r` (color.r after the channel loop), a pressed key is
 * cyan with alpha 1 up to the 0.5 iso-level and fading linearly to 0 at
 * r = 1; a released key is a flat slate fill up to 0.5 and transparent above.
 */
module KeyShader {

  datatype Rgba = Rgba(r: real, g: real, b: real, a: real)

  const TRANSPARENT: Rgba := Rgba(0.0, 0.0, 0.0, 0.0)
  const SLATE: Rgba := Rgba(0.4, 0.4, 0.6, 1.0)

  /** The iso-level that separates the two branches. */
  const THRESHOLD: real := 0.5

  /** Alpha of a pressed key's fragment. */
  function PressedAlpha(value: real): (alpha: real)
    ensures value <= THRESHOLD ==> alpha == 1.0
    ensures value > THRESHOLD ==> alpha < 1.0 && alpha == 2.0 * (1.0 - value)
    ensures THRESHOLD <= value <= 1.0 ==> 0.0 <= alpha <= 1.0
  {
    if value > THRESHOLD then 2.0 - 2.0 * value else 1.0
  }

  /** `gl_FragColor` for blended value `value` and the `key_down` flag. */
  function KeyColor(value: real, keyDown: bool): (c: Rgba)
    ensures keyDown ==> (c.a == 1.0 <==> value <= THRESHOLD)
    ensures keyDown && value <= 1.0 ==> 0.0 <= c.a <= 1.0
    ensures !keyDown ==> (c.a == 1.0 <==> value <= THRESHOLD) && (c.a == 0.0 <==> value > THRESHOLD)
    ensures keyDown ==> c.a == PressedAlpha(value) && c.r == 0.0 && c.g == c.a && c.b == c.a
    ensures !keyDown ==> (c == SLATE <==> value <= THRESHOLD) && (c == TRANSPARENT <==> value > THRESHOLD)
  {
    if keyDown then
      var alpha := PressedAlpha(value);
      Rgba(0.0, alpha, alpha, alpha)
    else if value > THRESHOLD then
      TRANSPARENT
    else
      SLATE
  }

  /**
   * A pressed key's alpha changes by at most twice the change in the blended
   * value: the fade meets the opaque branch at the threshold with no jump.
   */
  lemma PressedFadeContinuous(v: real, w: real)
    requires v <= w
    ensures 0.0 <= PressedAlpha(v) - PressedAlpha(w) <= 2.0 * (w - v)
  {
  }

  /**
   * A pressed key gets more transparent as the blended value grows: the lower
   * half of PressedFadeContinuous.
   */
  lemma PressedAlphaMonotone(v: real, w: real)
    requires v <= w
    ensures PressedAlpha(w) <= PressedAlpha(v)
  {
    PressedFadeContinuous(v, w);
  }

  /**
   * The drawn colour of a pressed key fades without a jump: its alpha never
   * rises and changes by at most twice the change of the blended value.
   */
  lemma PressedColorFades(v: real, w: real)
    requires v <= w
    ensures 0.0 <= KeyColor(v, true).a - KeyColor(w, true).a <= 2.0 * (w - v)
  {
    PressedFadeContinuous(v, w);
  }

  /**
   * Pressed and released keys split the fragments at the same level: a
   * fragment is fully opaque when pressed exactly when it is opaque slate
   * when released.
   */
  lemma SameThreshold(value: real)
    ensures KeyColor(value, true).a == 1.0 <==> KeyColor(value, false) == SLATE
    ensures KeyColor(value, false).a == 0.0 <==> value > THRESHOLD
  {
  }
}
