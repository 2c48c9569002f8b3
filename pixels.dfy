/** The values that move through the pixel pipeline. */
module Pixels {
  import opened Bits

  /** The four stages both fetchers go through. */
  datatype FetchState = FetchNo | FetchDataLow | FetchDataHigh | Push

  datatype Palette = Obp0 | Obp1 | Bgp

  /** A pixel: a 2-bit colour index, the palette it is looked up in, and priority flags. */
  datatype Pixel = Pixel(color: byte, palette: Palette, priority: bool, bgPriority: bool)
}
