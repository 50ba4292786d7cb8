/**
 * The canvas calls a frame issues, recorded as abstract events in the
 * order the script makes them.
 */
module Canvas {
  import opened Wrappers
  import opened Palette

  /** A loaded image; only its size matters for placement. */
  datatype Image = Image(width: real, height: real)

  /** The images the script loads at start-up; each may be missing. */
  datatype Assets = Assets(background: Option<Image>, logo: Option<Image>, mascot: Option<Image>)

  /** The window size reported by the host. */
  datatype Screen = Screen(width: real, height: real)

  /** The text written: a boot message (missing for an out-of-range stage) or the percentage. */
  datatype Label = Message(text: Option<string>) | Percent(value: int)

  datatype Event =
    | Clear                                                      // Window.Clear
    | SetSource(color: Rgba)                                     // Window.SetSourceRGBA
    | FillRect(x: real, y: real, w: real, h: real)               // Window.FillRectangle
    | OutlineRect(x: real, y: real, w: real, h: real, lineWidth: real)  // Window.DrawRectangle
    | Line(x1: real, y1: real, x2: real, y2: real, lineWidth: real)     // Window.DrawLine
    | Text(content: Label, x: real, y: real)                       // Window.WriteText
    | Blit(image: Image, x: real, y: real)                       // image.Draw
}
