/** The default banner theme: the framed background, an optional centred icon, and the
    aligned multi-line text, painted in that order. */
module DefaultTheme {
  import opened Banner
  import opened Constants
  import opened Strings
  import opened Canvas

  /** Distance kept between the text and the inside of the outline. */
  const Padding: real := 40.0

  function Min(a: int, b: int): int {
    if a <= b then a else b
  }

  lemma AppendAssoc<T>(a: seq<T>, b: seq<T>, c: seq<T>)
    ensures a + b + c == a + (b + c)
  {
  }

  /** Texts of the `fillText` calls in a run of draw calls, in order. */
  function DrawnTexts(ops: seq<DrawOp>): seq<string> {
    if ops == [] then []
    else (if ops[0].FillText? then [ops[0].text] else []) + DrawnTexts(ops[1..])
  }

  lemma {:induction false} DrawnTextsAppend(a: seq<DrawOp>, b: seq<DrawOp>)
    ensures DrawnTexts(a + b) == DrawnTexts(a) + DrawnTexts(b)
  {
    if a != [] {
      DrawnTextsAppend(a[1..], b);
      assert (a + b)[0] == a[0];
      assert (a + b)[1..] == a[1..] + b;
    } else {
      assert a + b == b;
    }
  }

  lemma {:induction false} NoTextDrawn(ops: seq<DrawOp>)
    requires forall i :: 0 <= i < |ops| ==> !ops[i].FillText?
    ensures DrawnTexts(ops) == []
  {
    if ops != [] {
      NoTextDrawn(ops[1..]);
    }
  }

  // ---------------------------------------------------------------- frame

  /** The frame: a rounded rectangle covering the whole canvas. */
  function FramePath(s: BannerSettings): seq<Shape> {
    [RoundRect(0.0, 0.0, s.width as real, s.height as real, [s.cornerRadius])]
  }

  /** The background fill, then, for a positive thickness, a stroke of double width clipped
      to the frame so that only its inner half shows, inside a save/restore bracket. */
  function FrameOps(s: BannerSettings): seq<DrawOp> {
    [FillPath(FramePath(s), s.backgroundColor)]
    + if s.outlineThickness > 0 then
        [Save, Clip(FramePath(s)), StrokePath(FramePath(s), s.outlineColor, s.outlineThickness * 2), Restore]
      else []
  }

  /** The frame step; `ok` is false when `roundRect` throws on a negative corner radius,
      which abandons the theme before anything is painted. */
  method DrawFrame(ctx: Context, s: BannerSettings) returns (ok: bool)
    modifies ctx
    ensures ok <==> s.cornerRadius >= 0
    ensures ctx.ops == old(ctx.ops) + if ok then FrameOps(s) else []
    ensures ctx.clip == old(ctx.clip) && ctx.stack == old(ctx.stack) && ctx.font == old(ctx.font)
    ensures ctx.fillStyle == s.backgroundColor && ctx.strokeStyle == s.outlineColor
    ensures ctx.lineWidth == if s.outlineThickness > 0 then s.outlineThickness else old(ctx.lineWidth)
  {
    ctx.fillStyle := s.backgroundColor;
    ctx.strokeStyle := s.outlineColor;
    ctx.SetLineWidth(s.outlineThickness);
    ctx.BeginPath();
    ok := ctx.AddRoundRect(0.0, 0.0, s.width as real, s.height as real, [s.cornerRadius]);
    assert [s.cornerRadius][0] == s.cornerRadius;
    if !ok {
      return;
    }
    ctx.Fill();
    assert ctx.path == FramePath(s);
    if s.outlineThickness > 0 {
      ghost var filled := ctx.ops;
      assert filled == old(ctx.ops) + [FillPath(FramePath(s), s.backgroundColor)];
      StrokeOutline(ctx, s);
    }
  }

  /** `save(); clip(); lineWidth = 2 * thickness; stroke(); restore()` on the frame path: only
      the inner half of the doubled stroke shows, and every style is back afterwards. */
  method StrokeOutline(ctx: Context, s: BannerSettings)
    requires s.outlineThickness > 0 && ctx.path == FramePath(s) && ctx.strokeStyle == s.outlineColor
    modifies ctx
    ensures ctx.ops == old(ctx.ops) + [Save, Clip(FramePath(s)), StrokePath(FramePath(s), s.outlineColor, s.outlineThickness * 2), Restore]
    ensures ctx.stack == old(ctx.stack) && ctx.Current() == old(ctx.Current())
  {
    ctx.SaveState();
    ctx.ClipToPath();
    ctx.SetLineWidth(s.outlineThickness * 2);
    ctx.Stroke();
    assert ctx.ops == old(ctx.ops) + [Save, Clip(FramePath(s)), StrokePath(FramePath(s), s.outlineColor, s.outlineThickness * 2)];
    ctx.RestoreState();
  }

  /** The background comes first; a stroke happens exactly when the thickness is positive,
      always at twice the thickness along the frame, right after clipping to that same
      frame and right before the restore that drops the clip. */
  lemma FrameRule(s: BannerSettings)
    ensures FrameOps(s)[0] == FillPath(FramePath(s), s.backgroundColor)
    ensures (exists i :: 0 <= i < |FrameOps(s)| && FrameOps(s)[i].StrokePath?) <==> s.outlineThickness > 0
    ensures forall i :: 0 <= i < |FrameOps(s)| && FrameOps(s)[i].StrokePath? ==>
      0 < i < |FrameOps(s)| - 1 && FrameOps(s)[i - 1] == Clip(FrameOps(s)[i].path)
      && FrameOps(s)[i + 1] == Restore && FrameOps(s)[i - 2] == Save
      && FrameOps(s)[i] == StrokePath(FramePath(s), s.outlineColor, 2 * s.outlineThickness)
  {
    if s.outlineThickness > 0 {
      assert FrameOps(s)[3].StrokePath?;
    }
  }

  // ---------------------------------------------------------------- icon

  /** The guard deciding whether the icon step runs before the text. */
  predicate HasIcon(s: BannerSettings) {
    (s.uploadedIconSvg.Some? && s.uploadedIconSvg.value != "") || (s.icon != "" && s.icon != "none")
  }

  /** `uploadedIconSvg || PREDEFINED_ICONS[icon]`: the markup to decode, if any. */
  function IconSource(s: BannerSettings): Option<string> {
    if s.uploadedIconSvg.Some? && s.uploadedIconSvg.value != "" then s.uploadedIconSvg
    else if s.icon in PredefinedIcons && PredefinedIcons[s.icon] != "" then Some(PredefinedIcons[s.icon])
    else None
  }

  /** An uploaded icon beats the predefined key; there is no icon exactly when nothing was
      uploaded and the key is "none" or unknown; and whenever the guard is off there is no
      icon, so the guard only short-cuts a path that would draw nothing. */
  lemma IconChoice(s: BannerSettings)
    ensures IconSource(s).Some? ==> IconSource(s).value != ""
    ensures s.uploadedIconSvg.Some? && s.uploadedIconSvg.value != "" ==> IconSource(s) == s.uploadedIconSvg
    ensures IconSource(s).None? <==>
      (s.uploadedIconSvg.None? || s.uploadedIconSvg.value == "")
      && (s.icon == "none" || s.icon !in PredefinedIcons)
    ensures !HasIcon(s) ==> IconSource(s).None?
  {
    if s.icon in PredefinedIcons {
      IconMarkup(s.icon);
    }
    IconTableKeys();
  }

  /** Where the icon image goes: a square a fifth of the shorter side. */
  datatype Square = Square(x: real, y: real, side: real)

  function IconSquare(width: int, height: int): Square {
    var side := Min(width, height) as real / 5.0;
    Square((width as real - side) / 2.0, (height as real - side) / 2.0, side)
  }

  /** The icon square is centred on the canvas and, for a non-empty canvas, lies inside it. */
  lemma IconGeometry(width: int, height: int)
    ensures IconSquare(width, height).side == Min(width, height) as real / 5.0
    ensures IconSquare(width, height).x + IconSquare(width, height).side / 2.0 == width as real / 2.0
    ensures IconSquare(width, height).y + IconSquare(width, height).side / 2.0 == height as real / 2.0
    ensures width > 0 && height > 0 ==>
      var sq := IconSquare(width, height);
      0.0 < sq.side && 0.0 <= sq.x && sq.x + sq.side <= width as real
      && 0.0 <= sq.y && sq.y + sq.side <= height as real
  {
  }

  /** The icon step: the image when there is markup and it decodes, otherwise nothing. */
  function IconOps(s: BannerSettings, decoded: bool): seq<DrawOp> {
    match IconSource(s)
    case None => []
    case Some(svg) =>
      var sq := IconSquare(s.width, s.height);
      if decoded then [DrawImage(svg, sq.x, sq.y, sq.side, sq.side)] else []
  }

  // ---------------------------------------------------------------- text

  function LineHeight(s: BannerSettings): real {
    s.fontSize as real * 1.2
  }

  /** The x every line is drawn at, measured as `textAlign` anchors it. */
  function AnchorX(s: BannerSettings): real {
    match s.textAlign
    case Left => Padding + s.outlineThickness as real
    case Right => s.width as real - Padding - s.outlineThickness as real
    case Center => s.width as real / 2.0
  }

  /** The vertical centre of the first of `count` lines. */
  function StartY(s: BannerSettings, count: nat): real {
    var lineHeight := LineHeight(s);
    var total := count as real * lineHeight;
    match s.verticalAlign
    case Top => Padding + s.outlineThickness as real + lineHeight / 2.0
    case Bottom => s.height as real - Padding - s.outlineThickness as real - total + lineHeight / 2.0
    case Middle => s.height as real / 2.0 - total / 2.0 + lineHeight / 2.0
  }

  function TextStyleOf(s: BannerSettings): TextStyle {
    TextStyle(s.fontColor, AssignedFont(s.fontSize, s.fontFamily, DefaultFont), s.textAlign.Name(), "middle")
  }

  /** Line `i` at `(x, y0 + i * step)`, as the source's `startY + index * lineHeight`. */
  function LineOps(lines: seq<string>, x: real, y0: real, step: real, style: TextStyle): (ops: seq<DrawOp>)
    ensures |ops| == |lines|
  {
    seq(|lines|, i requires 0 <= i < |lines| => FillText(lines[i], x, y0 + i as real * step, style))
  }

  /** Drawing line `i` after the first `i` appends its call. */
  lemma LineOpsExtend(lines: seq<string>, i: nat, x: real, y0: real, step: real, style: TextStyle)
    requires i < |lines|
    ensures LineOps(lines[..i + 1], x, y0, step, style)
      == LineOps(lines[..i], x, y0, step, style) + [FillText(lines[i], x, y0 + i as real * step, style)]
  {
    var a, b := LineOps(lines[..i + 1], x, y0, step, style), LineOps(lines[..i], x, y0, step, style);
    assert forall j :: 0 <= j < i ==> a[j] == b[j];
  }

  function TextOps(s: BannerSettings): seq<DrawOp> {
    if s.text == "" then []
    else
      var lines := Split(s.text);
      LineOps(lines, AnchorX(s), StartY(s, |lines|), LineHeight(s), TextStyleOf(s))
  }

  lemma {:induction false} DrawnLineTexts(lines: seq<string>, x: real, y0: real, step: real, style: TextStyle)
    ensures DrawnTexts(LineOps(lines, x, y0, step, style)) == lines
    decreases |lines|
  {
    if lines != [] {
      var ops := LineOps(lines, x, y0, step, style);
      DrawnLineTexts(lines[1..], x, y0 + step, step, style);
      assert ops[1..] == LineOps(lines[1..], x, y0 + step, step, style) by {
        forall i | 0 <= i < |lines| - 1
          ensures ops[1..][i] == LineOps(lines[1..], x, y0 + step, step, style)[i]
        {
          NextLineY(y0, step, i);
        }
      }
    }
  }

  lemma NextLineY(y0: real, step: real, i: nat)
    ensures y0 + (i + 1) as real * step == (y0 + step) + i as real * step
  {
    assert (i + 1) as real * step == i as real * step + step;
  }

  /** Empty text draws nothing; otherwise one call per line, whose texts are the lines:
      as many as there are line feeds plus one, and re-joined with line feeds they give the
      text back. */
  lemma TextLines(s: BannerSettings)
    ensures s.text == "" ==> TextOps(s) == []
    ensures s.text != "" ==> |TextOps(s)| == multiset(s.text)['\n'] + 1
    ensures s.text != "" ==> Join(DrawnTexts(TextOps(s))) == s.text
  {
    if s.text != "" {
      var lines := Split(s.text);
      DrawnLineTexts(lines, AnchorX(s), StartY(s, |lines|), LineHeight(s), TextStyleOf(s));
      SplitCount(s.text);
      JoinSplit(s.text);
    }
  }

  /** Line `i` of a block is drawn at `y0 + i * step`, so consecutive lines are exactly one
      step apart. */
  lemma LineOpsSpacing(lines: seq<string>, x: real, y0: real, step: real, style: TextStyle)
    ensures var ops := LineOps(lines, x, y0, step, style);
      forall i :: 0 <= i < |ops| ==>
        ops[i].FillText? && ops[i].text == lines[i] && ops[i].x == x && ops[i].style == style
        && ops[i].y == y0 + i as real * step
    ensures var ops := LineOps(lines, x, y0, step, style);
      forall i :: 0 < i < |ops| ==> ops[i].y - ops[i - 1].y == step
  {
    var ops := LineOps(lines, x, y0, step, style);
    forall i | 0 < i < |ops|
      ensures ops[i].y - ops[i - 1].y == step
    {
      NextLineY(y0, step, i - 1);
    }
  }

  /** Every line is drawn at the same x in the text style, the first at `startY` and each
      next one exactly one line height lower, with a line height of 1.2 times the font size:
      line i is at `startY + i * lineHeight`, as `LineOpsSpacing` states for any block. */
  lemma LineSpacing(s: BannerSettings)
    ensures LineHeight(s) == s.fontSize as real * 6.0 / 5.0
    ensures var ops := TextOps(s);
      forall i :: 0 <= i < |ops| ==>
        ops[i].FillText? && ops[i].x == AnchorX(s) && ops[i].style == TextStyleOf(s)
    ensures var ops := TextOps(s);
      |ops| > 0 ==> ops[0].y == StartY(s, |ops|)
    ensures var ops := TextOps(s);
      forall i :: 0 < i < |ops| ==> ops[i].y - ops[i - 1].y == LineHeight(s)
  {
    TextPositions(s);
    TextGaps(s);
  }

  /** Every line is drawn at the anchor x in the text style, and the first at `startY`. */
  lemma TextPositions(s: BannerSettings)
    ensures var ops := TextOps(s);
      forall i :: 0 <= i < |ops| ==>
        ops[i].FillText? && ops[i].x == AnchorX(s) && ops[i].style == TextStyleOf(s)
    ensures var ops := TextOps(s);
      |ops| > 0 ==> ops[0].y == StartY(s, |ops|)
  {
    if s.text != "" {
      TextIsLines(s);
      LineOpsSpacing(Split(s.text), AnchorX(s), StartY(s, |TextOps(s)|), LineHeight(s), TextStyleOf(s));
    }
  }

  lemma TextIsLines(s: BannerSettings)
    requires s.text != ""
    ensures TextOps(s) == LineOps(Split(s.text), AnchorX(s), StartY(s, |TextOps(s)|), LineHeight(s), TextStyleOf(s))
  {
  }

  /** Consecutive lines are exactly one line height apart. */
  lemma TextGaps(s: BannerSettings)
    ensures var ops := TextOps(s);
      forall i :: 0 < i < |ops| ==> ops[i].y - ops[i - 1].y == LineHeight(s)
  {
    if s.text != "" {
      var lines := Split(s.text);
      var lineHeight := LineHeight(s);
      assert TextOps(s) == LineOps(lines, AnchorX(s), StartY(s, |lines|), lineHeight, TextStyleOf(s));
      LineOpsSpacing(lines, AnchorX(s), StartY(s, |lines|), lineHeight, TextStyleOf(s));
    }
  }

  /** Horizontal anchors: left and right mirror each other about the centre, centre is the
      midpoint. */
  lemma HorizontalAnchors(s: BannerSettings)
    ensures AnchorX(s.(textAlign := Left)) == Padding + s.outlineThickness as real
    ensures AnchorX(s.(textAlign := Left)) + AnchorX(s.(textAlign := Right)) == s.width as real
    ensures AnchorX(s.(textAlign := Center)) == s.width as real / 2.0
  {
  }

  /** Vertical anchors for a block of `count` lines: `top` puts the block's top edge at the
      padding inside the outline, `bottom` puts the last line's bottom edge there, and
      `middle` puts the midpoint of the first and last line centres at half the height. */
  lemma VerticalAnchors(s: BannerSettings, count: nat)
    requires count >= 1
    ensures var t := s.(verticalAlign := Top);
      StartY(t, count) - LineHeight(t) / 2.0 == Padding + s.outlineThickness as real
    ensures var b := s.(verticalAlign := Bottom);
      StartY(b, count) + (count - 1) as real * LineHeight(b) + LineHeight(b) / 2.0
      == s.height as real - Padding - s.outlineThickness as real
    ensures var m := s.(verticalAlign := Middle);
      (StartY(m, count) + (StartY(m, count) + (count - 1) as real * LineHeight(m))) / 2.0
      == s.height as real / 2.0
  {
  }

  /** A single centred, middle-aligned line is drawn at the centre of the canvas. */
  lemma CentredSingleLine(s: BannerSettings)
    requires s.textAlign == Center && s.verticalAlign == Middle
    requires s.text != "" && '\n' !in s.text
    ensures TextOps(s) == [FillText(s.text, s.width as real / 2.0, s.height as real / 2.0, TextStyleOf(s))]
  {
    SplitNoBreak(s.text);
  }

  method DrawText(ctx: Context, s: BannerSettings)
    requires ctx.font == DefaultFont
    modifies ctx
    ensures ctx.ops == old(ctx.ops) + TextOps(s)
    ensures ctx.clip == old(ctx.clip) && ctx.stack == old(ctx.stack)
  {
    if s.text == "" {
      return;
    }
    ctx.fillStyle := s.fontColor;
    ctx.SetFont(s.fontSize, s.fontFamily);
    ctx.textAlign := s.textAlign.Name();
    ctx.textBaseline := "middle";
    assert ctx.CurrentTextStyle() == TextStyleOf(s);
    var lines := Split(s.text);
    PaintLines(ctx, lines, AnchorX(s), StartY(s, |lines|), LineHeight(s));
  }

  /** `lines.forEach((line, index) => ctx.fillText(line, x, startY + index * lineHeight))`. */
  method PaintLines(ctx: Context, lines: seq<string>, x: real, startY: real, lineHeight: real)
    modifies ctx`ops
    ensures ctx.ops == old(ctx.ops) + LineOps(lines, x, startY, lineHeight, ctx.CurrentTextStyle())
  {
    for i := 0 to |lines|
      invariant ctx.ops == old(ctx.ops) + LineOps(lines[..i], x, startY, lineHeight, ctx.CurrentTextStyle())
    {
      ctx.PaintText(lines[i], x, startY + i as real * lineHeight);
      LineOpsExtend(lines, i, x, startY, lineHeight, ctx.CurrentTextStyle());
    }
    assert lines[..|lines|] == lines;
  }

  // ---------------------------------------------------------------- composition

  /** `drawIcon(drawText)`: on every path (no markup, decoded, failed) the text step runs
      exactly once, after the image if there is one. */
  method DrawIcon(ctx: Context, s: BannerSettings, decoded: bool)
    requires ctx.font == DefaultFont
    modifies ctx
    ensures ctx.ops == old(ctx.ops) + IconOps(s, decoded) + TextOps(s)
    ensures ctx.clip == old(ctx.clip) && ctx.stack == old(ctx.stack)
  {
    var source := IconSource(s);
    if source.None? {
      DrawText(ctx, s);
      return;
    }
    if decoded {
      var sq := IconSquare(s.width, s.height);
      ctx.PaintImage(source.value, sq.x, sq.y, sq.side, sq.side);
      DrawText(ctx, s);
    } else {
      DrawText(ctx, s);
    }
  }

  /** The icon step as the default theme runs it: only behind the `hasIcon` guard. */
  function IconPart(s: BannerSettings, decoded: bool): seq<DrawOp> {
    if HasIcon(s) then IconOps(s, decoded) else []
  }

  /** What follows the frame: the guarded icon step, then the text. */
  function ContentOps(s: BannerSettings, decoded: bool): seq<DrawOp> {
    IconPart(s, decoded) + TextOps(s)
  }

  /** The whole default theme, for a given outcome of the icon decode: nothing at all when
      the frame's `roundRect` throws on a negative corner radius. */
  function DefaultOps(s: BannerSettings, decoded: bool): seq<DrawOp> {
    if s.cornerRadius < 0 then [] else FrameOps(s) + ContentOps(s, decoded)
  }

  /** `drawDefaultBanner` on a context just reset by the resize. */
  method DrawDefaultBanner(ctx: Context, s: BannerSettings, decoded: bool)
    requires ctx.font == DefaultFont
    modifies ctx
    ensures ctx.ops == old(ctx.ops) + DefaultOps(s, decoded)
    ensures ctx.clip == old(ctx.clip) && ctx.stack == old(ctx.stack)
  {
    var ok := DrawFrame(ctx, s);
    if !ok {
      return;
    }
    DrawContent(ctx, s, decoded);
    AppendAssoc(old(ctx.ops), FrameOps(s), ContentOps(s, decoded));
  }

  /** `hasIcon ? drawIcon(drawText) : drawText()`. */
  method DrawContent(ctx: Context, s: BannerSettings, decoded: bool)
    requires ctx.font == DefaultFont
    modifies ctx
    ensures ctx.ops == old(ctx.ops) + ContentOps(s, decoded)
    ensures ctx.clip == old(ctx.clip) && ctx.stack == old(ctx.stack)
  {
    if HasIcon(s) {
      DrawIcon(ctx, s, decoded);
      AppendAssoc(old(ctx.ops), IconOps(s, decoded), TextOps(s));
    } else {
      DrawText(ctx, s);
      assert [] + TextOps(s) == TextOps(s);
    }
  }

  /** Paint order of the default theme: nothing at all for a negative corner radius;
      otherwise the background first; a stroke exactly when the outline is positive; an
      image exactly when there is icon markup and it decoded; every image before every line
      of text; and the texts drawn are exactly the lines of the text, each once, whatever
      happened to the icon. */
  lemma DrawOrder(s: BannerSettings, decoded: bool)
    ensures DefaultOps(s, decoded) == [] <==> s.cornerRadius < 0
    ensures s.cornerRadius >= 0 ==> DefaultOps(s, decoded)[0] == FillPath(FramePath(s), s.backgroundColor)
    ensures (exists i :: 0 <= i < |DefaultOps(s, decoded)| && DefaultOps(s, decoded)[i].StrokePath?)
      <==> s.cornerRadius >= 0 && s.outlineThickness > 0
    ensures (exists i :: 0 <= i < |DefaultOps(s, decoded)| && DefaultOps(s, decoded)[i].DrawImage?)
      <==> s.cornerRadius >= 0 && IconSource(s).Some? && decoded
    ensures forall i, j ::
      (0 <= i < |DefaultOps(s, decoded)| && 0 <= j < |DefaultOps(s, decoded)|
       && DefaultOps(s, decoded)[i].DrawImage? && DefaultOps(s, decoded)[j].FillText?) ==> i < j
    ensures DrawnTexts(DefaultOps(s, decoded)) == if s.cornerRadius < 0 || s.text == "" then [] else Split(s.text)
  {
    DrawOrderFrame(s, decoded);
    DrawOrderImages(s, decoded);
    DrawOrderTexts(s, decoded);
  }

  /** The three parts of the default theme, and what each is made of; with a negative
      corner radius there are none. */
  lemma DefaultParts(s: BannerSettings, decoded: bool)
    ensures s.cornerRadius < 0 ==> DefaultOps(s, decoded) == []
    ensures s.cornerRadius >= 0 ==> DefaultOps(s, decoded) == FrameOps(s) + IconPart(s, decoded) + TextOps(s)
    ensures forall i :: 0 <= i < |FrameOps(s)| ==> !FrameOps(s)[i].DrawImage? && !FrameOps(s)[i].FillText?
    ensures forall i :: 0 <= i < |IconPart(s, decoded)| ==> IconPart(s, decoded)[i].DrawImage?
    ensures forall i :: 0 <= i < |TextOps(s)| ==> TextOps(s)[i].FillText?
  {
    AppendAssoc(FrameOps(s), IconPart(s, decoded), TextOps(s));
    TextPositions(s);
  }

  /** Something is painted exactly when the corner radius is not negative; then the
      background comes first, and a stroke appears exactly when the outline is positive. */
  lemma DrawOrderFrame(s: BannerSettings, decoded: bool)
    ensures DefaultOps(s, decoded) == [] <==> s.cornerRadius < 0
    ensures s.cornerRadius >= 0 ==> DefaultOps(s, decoded)[0] == FillPath(FramePath(s), s.backgroundColor)
    ensures (exists i :: 0 <= i < |DefaultOps(s, decoded)| && DefaultOps(s, decoded)[i].StrokePath?)
      <==> s.cornerRadius >= 0 && s.outlineThickness > 0
  {
    DefaultParts(s, decoded);
    if s.cornerRadius >= 0 {
      FrameRule(s);
      SegmentStroke(FrameOps(s), IconPart(s, decoded), TextOps(s));
    }
  }

  /** An image appears exactly when the frame was accepted and there is icon markup and it
      decoded, and before any text. */
  lemma DrawOrderImages(s: BannerSettings, decoded: bool)
    ensures (exists i :: 0 <= i < |DefaultOps(s, decoded)| && DefaultOps(s, decoded)[i].DrawImage?)
      <==> s.cornerRadius >= 0 && IconSource(s).Some? && decoded
    ensures forall i, j ::
      (0 <= i < |DefaultOps(s, decoded)| && 0 <= j < |DefaultOps(s, decoded)|
       && DefaultOps(s, decoded)[i].DrawImage? && DefaultOps(s, decoded)[j].FillText?) ==> i < j
  {
    DefaultParts(s, decoded);
    if s.cornerRadius >= 0 {
      IconChoice(s);
      SegmentImages(FrameOps(s), IconPart(s, decoded), TextOps(s));
    }
  }

  /** Once the frame is accepted, the texts drawn are exactly the lines of the text,
      whatever happened to the icon. */
  lemma DrawOrderTexts(s: BannerSettings, decoded: bool)
    ensures DrawnTexts(DefaultOps(s, decoded)) == if s.cornerRadius < 0 || s.text == "" then [] else Split(s.text)
  {
    DefaultParts(s, decoded);
    if s.cornerRadius >= 0 {
      SegmentTexts(FrameOps(s), IconPart(s, decoded), TextOps(s));
      if s.text != "" {
        DrawnLineTexts(Split(s.text), AnchorX(s), StartY(s, |Split(s.text)|), LineHeight(s), TextStyleOf(s));
      }
    }
  }

  /** In a run whose middle and last parts are images and texts, strokes are only those of
      the first part. */
  lemma SegmentStroke(frame: seq<DrawOp>, icon: seq<DrawOp>, text: seq<DrawOp>)
    requires forall i :: 0 <= i < |icon| ==> icon[i].DrawImage?
    requires forall i :: 0 <= i < |text| ==> text[i].FillText?
    ensures (exists i :: 0 <= i < |frame + icon + text| && (frame + icon + text)[i].StrokePath?)
      <==> (exists i :: 0 <= i < |frame| && frame[i].StrokePath?)
  {
    var ops := frame + icon + text;
    if i :| 0 <= i < |frame| && frame[i].StrokePath? {
      assert ops[i] == frame[i];
    }
  }

  /** A run made of a part with neither images nor text, a part of images and a part of text
      has an image exactly when the middle part is non-empty, and its images before its text. */
  lemma SegmentImages(frame: seq<DrawOp>, icon: seq<DrawOp>, text: seq<DrawOp>)
    requires forall i :: 0 <= i < |frame| ==> !frame[i].DrawImage? && !frame[i].FillText?
    requires forall i :: 0 <= i < |icon| ==> icon[i].DrawImage?
    requires forall i :: 0 <= i < |text| ==> text[i].FillText?
    ensures (exists i :: 0 <= i < |frame + icon + text| && (frame + icon + text)[i].DrawImage?) <==> |icon| > 0
    ensures forall i, j ::
      (0 <= i < |frame + icon + text| && 0 <= j < |frame + icon + text|
       && (frame + icon + text)[i].DrawImage? && (frame + icon + text)[j].FillText?) ==> i < j
  {
    var ops := frame + icon + text;
    if |icon| > 0 {
      assert ops[|frame|] == icon[0];
    }
  }

  /** A run whose first two parts draw no text draws exactly the texts of its last part. */
  lemma SegmentTexts(frame: seq<DrawOp>, icon: seq<DrawOp>, text: seq<DrawOp>)
    requires forall i :: 0 <= i < |frame| ==> !frame[i].FillText?
    requires forall i :: 0 <= i < |icon| ==> !icon[i].FillText?
    ensures DrawnTexts(frame + icon + text) == DrawnTexts(text)
  {
    NoTextDrawn(frame);
    NoTextDrawn(icon);
    DrawnTextsAppend(frame + icon, text);
    DrawnTextsAppend(frame, icon);
  }

  /** With the initial settings no icon is drawn, whatever the decode would do. */
  lemma DefaultsDrawNoIcon(decoded: bool)
    ensures IconSource(DefaultBannerSettings).None?
    ensures IconOps(DefaultBannerSettings, decoded) == []
  {
    IconChoice(DefaultBannerSettings);
  }

  /** A text made of two line-feed-free lines is drawn as exactly those two lines. */
  lemma TwoLineText(s: BannerSettings, first: string, second: string)
    requires s.text == first + "\n" + second
    requires '\n' !in first && '\n' !in second
    ensures |TextOps(s)| == 2
    ensures DrawnTexts(TextOps(s)) == [first, second]
  {
    SplitTwoLines(first, second);
    TextOpsCount(s);
    TextLines(s);
    DrawnLineTexts(Split(s.text), AnchorX(s), StartY(s, 2), LineHeight(s), TextStyleOf(s));
  }

  /** The text layout does not depend on which icon is chosen or uploaded. */
  lemma TextIgnoresIcon(s: BannerSettings, uploaded: Option<string>, icon: string)
    ensures TextOps(s.(uploadedIconSvg := uploaded, icon := icon)) == TextOps(s)
  {
    var t := s.(uploadedIconSvg := uploaded, icon := icon);
    if s.text != "" {
      var lines := Split(s.text);
      var n := |lines|;
      assert AnchorX(t) == AnchorX(s) by { assert t.textAlign == s.textAlign; }
      assert LineHeight(t) == LineHeight(s) by { assert t.fontSize == s.fontSize; }
      assert TextStyleOf(t) == TextStyleOf(s) by { assert t.fontColor == s.fontColor; }
      StartYSame(s, t, n);
      assert TextOps(t) == LineOps(lines, AnchorX(s), StartY(s, n), LineHeight(s), TextStyleOf(s));
    }
  }

  lemma StartYSame(s: BannerSettings, t: BannerSettings, n: nat)
    requires t.verticalAlign == s.verticalAlign && t.height == s.height
    requires t.outlineThickness == s.outlineThickness && t.fontSize == s.fontSize
    ensures StartY(t, n) == StartY(s, n)
  {
  }

  /** With the initial settings the text is drawn as its two lines. */
  lemma DefaultsDrawTwoLines()
    ensures DrawnTexts(TextOps(DefaultBannerSettings)) == [DefaultFirstLine, DefaultSecondLine]
  {
    TwoLineText(DefaultBannerSettings, DefaultFirstLine, DefaultSecondLine);
  }

  lemma TextOpsCount(s: BannerSettings)
    ensures |TextOps(s)| == if s.text == "" then 0 else |Split(s.text)|
  {
  }

  // ---------------------------------------------------------------- the icon encoding fault

  /** Characters `btoa` accepts: code points up to U+00FF. */
  predicate Latin1(svg: string) {
    forall i :: 0 <= i < |svg| ==> svg[i] as int < 256
  }

  /** The default theme as the source runs it: building the data URL with `btoa` throws on
      markup with a character above U+00FF, which abandons the render after the frame, so
      the text step never runs. It is always a beginning of the intended theme: the fault
      only cuts the render short. */
  function DefaultOpsAsWritten(s: BannerSettings, decoded: bool): (ops: seq<DrawOp>)
    ensures ops <= DefaultOps(s, decoded)
  {
    if s.cornerRadius >= 0 && HasIcon(s) && IconSource(s).Some? && !Latin1(IconSource(s).value) then
      assert DefaultOps(s, decoded) == FrameOps(s) + ContentOps(s, decoded);
      FrameOps(s)
    else DefaultOps(s, decoded)
  }

  const ArrowIconSettings: BannerSettings :=
    DefaultBannerSettings.(uploadedIconSvg := Some("<svg><text>\U{2192}</text></svg>"))

  /** Whenever the chosen markup has a character `btoa` rejects, the source draws no text at
      all, while the intended behaviour draws every line of a non-empty text. */
  lemma NonLatin1IconDropsText(s: BannerSettings, decoded: bool)
    requires HasIcon(s) && IconSource(s).Some? && !Latin1(IconSource(s).value)
    ensures DrawnTexts(DefaultOpsAsWritten(s, decoded)) == []
    ensures s.cornerRadius >= 0 ==> DrawnTexts(DefaultOps(s, decoded)) == DrawnTexts(TextOps(s))
    ensures s.cornerRadius >= 0 && s.text != "" ==> DrawnTexts(DefaultOps(s, decoded)) == Split(s.text) != []
  {
    FrameRule(s);
    NoTextDrawn(FrameOps(s));
    DrawOrder(s, decoded);
    if s.cornerRadius >= 0 && s.text != "" {
      var lines := Split(s.text);
      DrawnLineTexts(lines, AnchorX(s), StartY(s, |lines|), LineHeight(s), TextStyleOf(s));
    }
  }

  /** The initial settings with an uploaded SVG containing an arrow character: as written no
      text is drawn; as intended both lines are. */
  lemma ArrowIconExample(decoded: bool)
    ensures DrawnTexts(DefaultOpsAsWritten(ArrowIconSettings, decoded)) == []
    ensures DrawnTexts(DefaultOps(ArrowIconSettings, decoded)) == [DefaultFirstLine, DefaultSecondLine]
  {
    var s := ArrowIconSettings;
    ArrowIconRejected();
    DefaultsInEditorRanges();
    NonLatin1IconDropsText(s, decoded);
    ArrowIconText();
  }

  lemma ArrowIconText()
    ensures DrawnTexts(TextOps(ArrowIconSettings)) == [DefaultFirstLine, DefaultSecondLine]
  {
    TextIgnoresIcon(DefaultBannerSettings, ArrowIconSettings.uploadedIconSvg, ArrowIconSettings.icon);
    DefaultsDrawTwoLines();
  }

  /** The arrow icon is the one chosen, and `btoa` rejects it. */
  lemma ArrowIconRejected()
    ensures HasIcon(ArrowIconSettings) && IconSource(ArrowIconSettings).Some?
    ensures !Latin1(IconSource(ArrowIconSettings).value)
  {
    assert IconSource(ArrowIconSettings).value[11] == '\U{2192}';
  }

  /** The two definitions differ only on markup `btoa` rejects. */
  lemma AsWrittenAgreesOnLatin1(s: BannerSettings, decoded: bool)
    requires IconSource(s).None? || Latin1(IconSource(s).value)
    ensures DefaultOpsAsWritten(s, decoded) == DefaultOps(s, decoded)
  {
  }
}
