/** The settings record that drives one render of a banner. */
module Banner {

  datatype Option<+T> = None | Some(value: T)

  /** Horizontal text alignment; its name is what the canvas `textAlign` property receives. */
  datatype HAlign = Left | Center | Right {
    function Name(): string {
      match this
      case Left => "left"
      case Center => "center"
      case Right => "right"
    }
  }

  /** Vertical placement of the text block. */
  datatype VAlign = Top | Middle | Bottom

  /** The two themes; anything other than the OS window is drawn as the default banner. */
  datatype Theme = Default | OsWindow

  /** Dimensions, sizes and thicknesses are integer pixel counts; colours are CSS colour strings. */
  datatype BannerSettings = BannerSettings(
    width: int,
    height: int,
    backgroundColor: string,
    cornerRadius: int,
    outlineColor: string,
    outlineThickness: int,
    fontFamily: string,
    fontSize: int,
    fontColor: string,
    text: string,
    textAlign: HAlign,
    verticalAlign: VAlign,
    icon: string,
    uploadedIconSvg: Option<string>,
    theme: Theme,
    windowTitle: string
  )
}
