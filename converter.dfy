/** Conversions between the physics engine's metres and the renderer's pixels.
    Box2D's y axis points up, SFML's points down; the flip is taken against a
    reference screen height of 900 pixels. */
module Converter {

  /** Pixels per metre. */
  const PPM: real := 32.0

  /** The screen height, in pixels, that both vertical flips are taken against. */
  const ReferenceHeight: real := 900.0

  function PixelToMeter(pixel: real): (meter: real)
    ensures meter * PPM == pixel
  {
    pixel / PPM
  }

  function MeterToPixel(meter: real): (pixel: real)
    ensures pixel / PPM == meter
  {
    meter * PPM
  }

  /** Screen y (pixels converted to metres, downwards) to physics y (upwards). */
  function SfmlToBox2dY(y: real): (r: real)
    ensures r + y == 28.125
  {
    PixelToMeter(ReferenceHeight) - y
  }

  /** Physics y (upwards) to screen y (downwards, in metres). */
  function Box2dToSfmlY(y: real): (r: real)
    ensures r + y == 28.125
  {
    PixelToMeter(ReferenceHeight) - y
  }

  lemma ReferenceHeightInMeters()
    ensures PixelToMeter(ReferenceHeight) == 28.125
  {
  }

  /** Metres to pixels and back, in either order, is the identity (exact over the reals). */
  lemma PixelMeterRoundTrip(x: real)
    ensures MeterToPixel(PixelToMeter(x)) == x
    ensures PixelToMeter(MeterToPixel(x)) == x
  {
  }

  /** Both conversions preserve order. */
  lemma ConversionsMonotonic(a: real, b: real)
    requires a <= b
    ensures PixelToMeter(a) <= PixelToMeter(b)
    ensures MeterToPixel(a) <= MeterToPixel(b)
  {
  }

  /** The two vertical flips are the same function, each is its own inverse,
      and so each undoes the other. */
  lemma VerticalFlipsInvert(y: real)
    ensures SfmlToBox2dY(y) == Box2dToSfmlY(y)
    ensures Box2dToSfmlY(SfmlToBox2dY(y)) == y
    ensures SfmlToBox2dY(Box2dToSfmlY(y)) == y
  {
  }

  /** The flip reverses vertical order: higher in the world is lower on screen. */
  lemma VerticalFlipReversesOrder(a: real, b: real)
    requires a < b
    ensures Box2dToSfmlY(b) < Box2dToSfmlY(a)
  {
  }
}
