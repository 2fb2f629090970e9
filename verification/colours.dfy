/**
 Colours as OpenCV triples in blue-green-red order, one channel per byte.
 Every colour the program builds is a literal with channels in 0..255.
 */
module Colours {

  type Channel = x: int | 0 <= x <= 255

  /** A colour tuple `(b, g, r)`; index 0 is blue and index 2 is red. */
  datatype Colour = Bgr(b: Channel, g: Channel, r: Channel)

  /** `(0, 255, 0)`: the colour of a correct pose. */
  const Green := Bgr(0, 255, 0)

  /** `(0, 0, 255)`: the colour of a pose that needs correcting. */
  const Red := Bgr(0, 0, 255)
}
