/** The editor's option lists, the built-in icon table and the initial settings. */
module Constants {
  import opened Banner

  /** One entry of an alignment drop-down: the value stored in the settings and its caption. */
  datatype AlignOption<T> = AlignOption(value: T, caption: string)

  const HorizontalAlignOptions: seq<AlignOption<HAlign>> := [
    AlignOption(Left, "Left"),
    AlignOption(Center, "Center"),
    AlignOption(Right, "Right")
  ]

  const VerticalAlignOptions: seq<AlignOption<VAlign>> := [
    AlignOption(Top, "Top"),
    AlignOption(Middle, "Middle"),
    AlignOption(Bottom, "Bottom")
  ]

  /** Every built-in icon is an SVG document that opens with this start tag and namespace. */
  const SvgTag := "<svg"
  const SvgOpen := SvgTag + " xmlns=\"http://www.w3.org/2000/svg\" "

  /** What follows the start tag and namespace in each built-in icon. */
  const StarBody := "viewBox=\"0 0 24 24\" fill=\"currentColor\"><path d=\"M12 17.27L18.18 21l-1.64-7.03L22 9.24l-7.19-.61L12 2 9.19 8.63 2 9.24l5.46 4.73L5.82 21z\"/></svg>"
  const HeartBody := "viewBox=\"0 0 24 24\" fill=\"currentColor\"><path d=\"M12 21.35l-1.45-1.32C5.4 15.36 2 12.28 2 8.5 2 5.42 4.42 3 7.5 3c1.74 0 3.41.81 4.5 2.09C13.09 3.81 14.76 3 16.5 3 19.58 3 22 5.42 22 8.5c0 3.78-3.4 6.86-8.55 11.54L12 21.35z\"/></svg>"
  const CircleBody := "viewBox=\"0 0 24 24\" fill=\"currentColor\"><path d=\"M12 2C6.47 2 2 6.47 2 12s4.47 10 10 10 10-4.47 10-10S17.53 2 12 2z\"/></svg>"
  const ReactBody := "viewBox=\"-11.5 -10.23174 23 20.46348\" fill=\"currentColor\"><circle cx=\"0\" cy=\"0\" r=\"2.05\" fill=\"#61dafb\"/><g stroke=\"#61dafb\" stroke-width=\"1\" fill=\"none\"><ellipse rx=\"11\" ry=\"4.2\"/><ellipse rx=\"11\" ry=\"4.2\" transform=\"rotate(60)\"/><ellipse rx=\"11\" ry=\"4.2\" transform=\"rotate(120)\"/></g></svg>"

  /** Built-in icons by key; "none" stands for "no icon" and maps to empty markup. */
  const PredefinedIcons: map<string, string> := map[
    "none" := "",
    "star" := SvgOpen + StarBody,
    "heart" := SvgOpen + HeartBody,
    "circle" := SvgOpen + CircleBody,
    "react" := SvgOpen + ReactBody
  ]

  /** The two lines of the initial text. */
  const DefaultFirstLine := "Hello World!"
  const DefaultSecondLine := "Welcome to the Banner Creator."

  const DefaultBannerSettings: BannerSettings := BannerSettings(
    width := 1200,
    height := 630,
    backgroundColor := "#161b22",
    cornerRadius := 12,
    outlineColor := "#58a6ff",
    outlineThickness := 8,
    fontFamily := "Roboto",
    fontSize := 72,
    fontColor := "#e6edf3",
    text := DefaultFirstLine + "\n" + DefaultSecondLine,
    textAlign := Center,
    verticalAlign := Middle,
    icon := "none",
    uploadedIconSvg := None,
    theme := Default,
    windowTitle := "bash"
  )

  /** The icon table has exactly the five keys the icon picker lists. */
  lemma IconTableKeys()
    ensures PredefinedIcons.Keys == {"none", "star", "heart", "circle", "react"}
  {
  }

  /** "none" is the only key without markup; every other entry is an SVG document. */
  lemma IconMarkup(key: string)
    requires key in PredefinedIcons
    ensures key == "none" <==> PredefinedIcons[key] == ""
    ensures key != "none" ==> |PredefinedIcons[key]| > 4 && PredefinedIcons[key][..4] == "<svg"
  {
    if key == "star" {
      OpensWithSvgTag(StarBody);
    } else if key == "heart" {
      OpensWithSvgTag(HeartBody);
    } else if key == "circle" {
      OpensWithSvgTag(CircleBody);
    } else if key == "react" {
      OpensWithSvgTag(ReactBody);
    }
  }

  /** The values an option list offers, in order. */
  function Values<T>(options: seq<AlignOption<T>>): (vs: seq<T>)
    ensures |vs| == |options|
  {
    seq(|options|, i requires 0 <= i < |options| => options[i].value)
  }

  lemma OpensWithSvgTag(body: string)
    ensures |SvgOpen + body| > 4 && (SvgOpen + body)[..4] == SvgTag
  {
    assert SvgOpen + body == SvgTag + (SvgOpen[4..] + body);
  }

  /** Each horizontal alignment is offered exactly once, and nothing else is. */
  lemma HorizontalOptionsExact()
    ensures multiset(Values(HorizontalAlignOptions)) == multiset{Left, Center, Right}
  {
    assert Values(HorizontalAlignOptions) == [Left, Center, Right];
  }

  /** Each vertical alignment is offered exactly once, and nothing else is. */
  lemma VerticalOptionsExact()
    ensures multiset(Values(VerticalAlignOptions)) == multiset{Top, Middle, Bottom}
  {
    assert Values(VerticalAlignOptions) == [Top, Middle, Bottom];
  }

  /** The initial settings lie inside the ranges the editor's number inputs allow. */
  lemma DefaultsInEditorRanges()
    ensures 100 <= DefaultBannerSettings.width <= 2000
    ensures 100 <= DefaultBannerSettings.height <= 2000
    ensures 0 <= DefaultBannerSettings.cornerRadius <= 200
    ensures 0 <= DefaultBannerSettings.outlineThickness <= 50
    ensures DefaultBannerSettings.fontSize >= 1
  {
  }
}
