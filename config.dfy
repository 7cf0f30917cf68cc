/** The renderer's fixed settings (class `Config` of the program). */
module Config {
  /** Colours are opaque colour strings handed to the image object. */
  type Color = string

  /** A screen coordinate (column, row). */
  type Point = (int, int)

  const Width: nat := 900
  const Height: nat := 600
  const BgColor: Color := "#000000"
  const LineColor: Color := "#00FF00"
  const VertexColor: Color := "#0055FF"
  /** FOCAL_LENGTH and CAMERA_DIST are integers in the program; they only
      ever meet floats, so they are reals here. */
  const FocalLength: real := 400.0
  const CameraDist: real := 500.0
}
