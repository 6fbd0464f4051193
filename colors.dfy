/** The colour vocabulary the theme model is built on.
    The host engine's colour type is only ever stored, compared and returned
    here, so it is modelled as a plain sRGBA record with the one value the
    theme code names: opaque white. */
module Colors {

  /** A colour as the host engine stores it (channels in 0..1). */
  datatype Color = Rgba(red: real, green: real, blue: real, alpha: real)

  /** The engine's `WHITE`: the fallback every guarded lookup returns. */
  const WHITE: Color := Rgba(1.0, 1.0, 1.0, 1.0)

  /** The engine's default colour, which is white. */
  function DefaultColor(): Color { WHITE }

  /** The largest value of Rust's `usize` on a 64-bit target. */
  const USIZE_MAX: nat := 0xFFFF_FFFF_FFFF_FFFF

  /** Rust's `usize`: an index argument of the source. */
  type Usize = i: nat | i <= USIZE_MAX
}
