/** Frames and rectangles as the detection code sees them. */
module Image {

  /**
   * A captured frame. Only its shape (`frame.shape` is height, width,
   * channels) enters the control logic; `pixels` stands for the image
   * content, which the model never inspects.
   */
  datatype Frame = Frame(height: nat, width: nat, channels: nat, pixels: seq<int>)

  /** An axis-aligned rectangle `(x, y, w, h)` in pixel coordinates. */
  datatype Rect = Rect(x: int, y: int, w: int, h: int)
}
