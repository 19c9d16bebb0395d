/** The "os-window" theme: a terminal-style window with a header bar, three traffic-light
    dots and a centred title, and a body in which each line of text is drawn as a shell
    command (prefixed with `$ `) or a comment, top to bottom, until the bottom margin. */
module OSWindow {
  import opened Banner
  import opened Strings
  import opened Canvas

  const HeaderHeight: real := 40.0
  const HeaderColor := "#30363d"
  const BodyColor := "rgb(30, 30, 46)"
  const TitleColor := "rgb(205, 214, 244)"
  const BodyTextColor := "rgb(205, 214, 244)"
  const CommentColor := "rgb(108, 112, 134)"
  const LocalPadding: real := 15.0
  const DotRadius: real := 6.0
  const RedDot := "rgb(255, 95, 86)"
  const AmberDot := "rgb(255, 189, 46)"
  const GreenDot := "rgb(39, 201, 63)"
  const TitleFont := "bold 14px monospace"
  const Prompt := "$ "

  /** The vertical centre of the header, shared by the dots and the title. */
  const HeaderMid: real := HeaderHeight / 2.0

  /** The top of the first body line. */
  const FirstLineY: real := HeaderHeight + LocalPadding

  /** Dot `k` (0, 1, 2) sits one diameter plus 5 further right than the previous one. */
  function DotX(k: nat): real {
    LocalPadding + k as real * (DotRadius * 2.0 + 5.0)
  }

  function HeaderPath(s: BannerSettings): seq<Shape> {
    [RoundRect(0.0, 0.0, s.width as real, s.height as real, [s.cornerRadius])]
  }

  /** The body keeps square top corners and the window's rounding at the bottom. */
  function BodyPath(s: BannerSettings): seq<Shape> {
    [RoundRect(0.0, HeaderHeight, s.width as real, s.height as real - HeaderHeight, [0, 0, s.cornerRadius, s.cornerRadius])]
  }

  function TitleStyle(): TextStyle {
    TextStyle(TitleColor, TitleFont, "center", "middle")
  }

  /** Everything drawn before the body text: window, body, the three dots, the title. */
  function ChromeOps(s: BannerSettings): seq<DrawOp> {
    [ FillPath(HeaderPath(s), HeaderColor),
      FillPath(BodyPath(s), BodyColor),
      FillPath([Circle(DotX(0), HeaderMid, DotRadius)], RedDot),
      FillPath([Circle(DotX(1), HeaderMid, DotRadius)], AmberDot),
      FillPath([Circle(DotX(2), HeaderMid, DotRadius)], GreenDot),
      FillText(s.windowTitle, s.width as real / 2.0, HeaderMid, TitleStyle()) ]
  }

  /** The fixed window layout: the header band [0, 40) and the body from 40 down to the
      bottom together cover the height; the body's top corners are square; the dots sit at
      x = 15, 32, 49 on the header's centre line with radius 6, inside the header and apart
      from each other; the title is centred on the header. */
  lemma ChromeGeometry(s: BannerSettings)
    ensures ChromeOps(s)[0] == FillPath([RoundRect(0.0, 0.0, s.width as real, s.height as real, [s.cornerRadius])], HeaderColor)
    ensures var body := ChromeOps(s)[1].path[0];
      body.y == 40.0 && body.y + body.h == s.height as real && body.radii[..2] == [0, 0]
      && body.x == 0.0 && body.w == s.width as real
    ensures ChromeOps(s)[2].path == [Circle(15.0, 20.0, 6.0)]
    ensures ChromeOps(s)[3].path == [Circle(32.0, 20.0, 6.0)]
    ensures ChromeOps(s)[4].path == [Circle(49.0, 20.0, 6.0)]
    ensures forall k :: 2 <= k <= 4 ==>
      0.0 <= ChromeOps(s)[k].path[0].cy - ChromeOps(s)[k].path[0].r
      && ChromeOps(s)[k].path[0].cy + ChromeOps(s)[k].path[0].r <= HeaderHeight
    ensures forall k :: 2 <= k < 4 ==>
      ChromeOps(s)[k].path[0].cx + ChromeOps(s)[k].path[0].r < ChromeOps(s)[k + 1].path[0].cx - ChromeOps(s)[k + 1].path[0].r
    ensures ChromeOps(s)[5] == FillText(s.windowTitle, s.width as real / 2.0, HeaderHeight / 2.0, TitleStyle())
  {
  }

  /** `$ ` goes in front of a line with visible content that is not a `#` comment. */
  function Prompted(line: string): string {
    if |Trim(line)| > 0 && !StartsWithHash(line) then Prompt + line else line
  }

  /** `#` lines are drawn in the comment colour, all others in the body text colour. */
  function LineColor(line: string): string {
    if StartsWithHash(line) then CommentColor else BodyTextColor
  }

  /** The prompt rule: the prompt is added exactly when the line has a character other than
      white space and does not start with `#`; otherwise the line is drawn as it is. Comment
      lines, and only they, take the comment colour. */
  lemma PromptRule(line: string)
    ensures Prompted(line) == Prompt + line <==>
      (exists i :: 0 <= i < |line| && !IsWhitespace(line[i])) && !StartsWithHash(line)
    ensures Prompted(line) != Prompt + line ==> Prompted(line) == line
    ensures StartsWithHash(line) ==> Prompted(line) == line && LineColor(line) == CommentColor
    ensures !StartsWithHash(line) ==> LineColor(line) == BodyTextColor
  {
    TrimEmptyIffBlank(line);
    if Prompted(line) == Prompt + line {
      assert |Prompted(line)| == |line| + 2;
    }
  }

  /** The body font: the settings' font, or, when a negative size makes that string
      unparsable, the title font the context still holds. */
  function BodyFont(s: BannerSettings): string {
    AssignedFont(s.fontSize, s.fontFamily, TitleFont)
  }

  function BodyStyle(s: BannerSettings, line: string): TextStyle {
    TextStyle(LineColor(line), BodyFont(s), "left", "top")
  }

  function BodyLine(s: BannerSettings, line: string, y: real): DrawOp {
    FillText(Prompted(line), LocalPadding, y, BodyStyle(s, line))
  }

  function LineStep(s: BannerSettings): real {
    s.fontSize as real * 1.5
  }

  function Limit(s: BannerSettings): real {
    s.height as real - LocalPadding
  }

  /** The body lines the `forEach` draws for `lines` from a running y: a line is drawn at y
      unless y is already past `limit`, and y only advances, by `step`, after a drawn line. */
  function BodyOps(s: BannerSettings, lines: seq<string>, y: real, step: real, limit: real): seq<DrawOp>
    decreases |lines|
  {
    if lines == [] then []
    else if y > limit then BodyOps(s, lines[1..], y, step, limit)
    else [BodyLine(s, lines[0], y)] + BodyOps(s, lines[1..], y + step, step, limit)
  }

  /** Once the running y is past the limit nothing more is drawn. */
  lemma {:induction false} PastLimitDrawsNothing(s: BannerSettings, lines: seq<string>, y: real, step: real, limit: real)
    requires y > limit
    ensures BodyOps(s, lines, y, step, limit) == []
    decreases |lines|
  {
    if lines != [] {
      PastLimitDrawsNothing(s, lines[1..], y, step, limit);
    }
  }

  /** The y of the i-th drawn line: `y` advanced by `step` i times. */
  function Row(y: real, step: real, i: nat): real {
    if i == 0 then y else Row(y, step, i - 1) + step
  }

  /** Row i is `y + i * step`. */
  lemma {:induction false} RowLinear(y: real, step: real, i: nat)
    ensures Row(y, step, i) == y + i as real * step
  {
    if i > 0 {
      RowLinear(y, step, i - 1);
      assert (i - 1) as real * step + step == i as real * step;
    }
  }

  /** Starting one step lower is the same as counting one more row. */
  lemma {:induction false} RowShift(y: real, step: real, i: nat)
    ensures Row(y + step, step, i) == Row(y, step, i + 1)
  {
    if i > 0 {
      RowShift(y, step, i - 1);
    }
  }

  /** With a positive step, later rows are lower. */
  lemma {:induction false} RowGrows(y: real, step: real, j: nat, i: nat)
    requires step > 0.0 && j <= i
    ensures Row(y, step, j) <= Row(y, step, i)
  {
    if j < i {
      RowGrows(y, step, j, i - 1);
    }
  }

  /** The lines drawn are a prefix of the text's lines: the i-th is drawn at row i, not below
      the limit, and the first line left out would have been below it. This holds for every
      step, so a zero or negative font size draws either every line or none. */
  lemma BodyPrefix(s: BannerSettings, lines: seq<string>, y: real, step: real, limit: real)
    ensures var ops := BodyOps(s, lines, y, step, limit);
      |ops| <= |lines|
      && (forall i :: 0 <= i < |ops| ==> ops[i] == BodyLine(s, lines[i], Row(y, step, i)) && Row(y, step, i) <= limit)
      && (|ops| < |lines| ==> Row(y, step, |ops|) > limit)
  {
    var ops := BodyOps(s, lines, y, step, limit);
    BodyLength(s, lines, y, step, limit);
    BodyStop(s, lines, y, step, limit);
    forall i | 0 <= i < |ops|
      ensures ops[i] == BodyLine(s, lines[i], Row(y, step, i)) && Row(y, step, i) <= limit
    {
      BodyAt(s, lines, y, step, limit, i);
    }
  }

  /** No more lines are drawn than there are. */
  lemma {:induction false} BodyLength(s: BannerSettings, lines: seq<string>, y: real, step: real, limit: real)
    ensures |BodyOps(s, lines, y, step, limit)| <= |lines|
    decreases |lines|
  {
    if lines != [] {
      BodyLength(s, lines[1..], y, step, limit);
      BodyLength(s, lines[1..], y + step, step, limit);
    }
  }

  /** The i-th line drawn is the i-th line of the text, at row i, not below the limit. */
  lemma {:induction false} BodyAt(s: BannerSettings, lines: seq<string>, y: real, step: real, limit: real, i: nat)
    requires i < |BodyOps(s, lines, y, step, limit)|
    ensures i < |lines|
    ensures BodyOps(s, lines, y, step, limit)[i] == BodyLine(s, lines[i], Row(y, step, i))
    ensures Row(y, step, i) <= limit
    decreases |lines|
  {
    BodyLength(s, lines, y, step, limit);
    if y > limit {
      PastLimitDrawsNothing(s, lines, y, step, limit);
      assert false;
    }
    var rest := BodyOps(s, lines[1..], y + step, step, limit);
    assert BodyOps(s, lines, y, step, limit) == [BodyLine(s, lines[0], y)] + rest;
    if i > 0 {
      BodyAt(s, lines[1..], y + step, step, limit, i - 1);
      RowShift(y, step, i - 1);
    }
  }

  /** When some lines are left out, the row of the first one left out is below the limit. */
  lemma {:induction false} BodyStop(s: BannerSettings, lines: seq<string>, y: real, step: real, limit: real)
    ensures var ops := BodyOps(s, lines, y, step, limit);
      |ops| < |lines| ==> Row(y, step, |ops|) > limit
    decreases |lines|
  {
    if lines == [] {
    } else if y > limit {
      PastLimitDrawsNothing(s, lines, y, step, limit);
    } else {
      var rest := BodyOps(s, lines[1..], y + step, step, limit);
      BodyStop(s, lines[1..], y + step, step, limit);
      assert |BodyOps(s, lines, y, step, limit)| == |rest| + 1;
      RowShift(y, step, |rest|);
    }
  }

  /** With a positive step the cutoff is exactly the margin: line i is drawn if and only if
      its row is not below the limit. */
  lemma BodyCutoff(s: BannerSettings, lines: seq<string>, y: real, step: real, limit: real, i: nat)
    requires step > 0.0 && i < |lines|
    ensures i < |BodyOps(s, lines, y, step, limit)| <==> Row(y, step, i) <= limit
  {
    var ops := BodyOps(s, lines, y, step, limit);
    BodyPrefix(s, lines, y, step, limit);
    if i >= |ops| {
      RowGrows(y, step, |ops|, i);
    }
  }

  /** The body text of the window. */
  function TextOps(s: BannerSettings): seq<DrawOp> {
    if s.text == "" then [] else BodyOps(s, Split(s.text), FirstLineY, LineStep(s), Limit(s))
  }

  /** The whole window theme: nothing at all when the window's `roundRect` throws on a
      negative corner radius. */
  function OSWindowOps(s: BannerSettings): seq<DrawOp> {
    if s.cornerRadius < 0 then [] else ChromeOps(s) + TextOps(s)
  }

  /** The top of body line i when every line before it was drawn: 55 + i * 1.5 * fontSize. */
  function BodyY(s: BannerSettings, i: nat): real {
    FirstLineY + i as real * LineStep(s)
  }

  /** The body text: nothing for an empty text; otherwise a prefix of the lines, each drawn at
      x = 15, the i-th at `BodyY(s, i)` and not below height - 15, with the prompt rule
      applied, and the first line left out would have started below height - 15. */
  lemma TextRule(s: BannerSettings)
    ensures s.text == "" ==> TextOps(s) == []
    ensures var ops := TextOps(s);
      s.text != "" ==>
        |ops| <= |Split(s.text)|
        && (forall i :: 0 <= i < |ops| ==>
              ops[i] == FillText(Prompted(Split(s.text)[i]), 15.0, BodyY(s, i), BodyStyle(s, Split(s.text)[i]))
              && BodyY(s, i) <= s.height as real - 15.0)
        && (|ops| < |Split(s.text)| ==> BodyY(s, |ops|) > s.height as real - 15.0)
  {
    if s.text != "" {
      BodyLayout(s, Split(s.text));
    }
  }

  lemma BodyLayout(s: BannerSettings, lines: seq<string>)
    ensures var ops := BodyOps(s, lines, FirstLineY, LineStep(s), Limit(s));
      |ops| <= |lines|
      && (forall i :: 0 <= i < |ops| ==>
            ops[i] == FillText(Prompted(lines[i]), 15.0, BodyY(s, i), BodyStyle(s, lines[i]))
            && BodyY(s, i) <= s.height as real - 15.0)
      && (|ops| < |lines| ==> BodyY(s, |ops|) > s.height as real - 15.0)
  {
    var ops := BodyOps(s, lines, FirstLineY, LineStep(s), Limit(s));
    BodyPrefix(s, lines, FirstLineY, LineStep(s), Limit(s));
    forall i | 0 <= i <= |ops|
      ensures Row(FirstLineY, LineStep(s), i) == BodyY(s, i)
    {
      BodyRow(s, i);
    }
  }

  lemma BodyRow(s: BannerSettings, i: nat)
    ensures Row(FirstLineY, LineStep(s), i) == BodyY(s, i)
  {
    RowLinear(FirstLineY, LineStep(s), i);
  }

  method DrawOSWindow(ctx: Context, s: BannerSettings)
    modifies ctx
    ensures ctx.ops == old(ctx.ops) + OSWindowOps(s)
    ensures ctx.clip == old(ctx.clip) && ctx.stack == old(ctx.stack)
  {
    var ok := DrawChrome(ctx, s);
    if !ok {
      return;
    }
    if s.text != "" {
      DrawBody(ctx, s);
    }
  }

  /** The window, body, dots and title; `ok` is false when the window's `roundRect` throws
      on a negative corner radius, which abandons the theme before anything is painted. */
  method DrawChrome(ctx: Context, s: BannerSettings) returns (ok: bool)
    modifies ctx
    ensures ok <==> s.cornerRadius >= 0
    ensures ctx.ops == old(ctx.ops) + if ok then ChromeOps(s) else []
    ensures ctx.clip == old(ctx.clip) && ctx.stack == old(ctx.stack)
    ensures ok ==> ctx.font == TitleFont
  {
    ok := FillRoundRect(ctx, 0.0, 0.0, s.width as real, s.height as real, [s.cornerRadius], HeaderColor);
    assert [s.cornerRadius][0] == s.cornerRadius;
    if !ok {
      return;
    }
    var bodyOk := FillRoundRect(ctx, 0.0, HeaderHeight, s.width as real, s.height as real - HeaderHeight,
                                [0, 0, s.cornerRadius, s.cornerRadius], BodyColor);
    assert bodyOk;
    FillCircle(ctx, LocalPadding, HeaderMid, DotRadius, RedDot);
    FillCircle(ctx, LocalPadding + DotRadius * 2.0 + 5.0, HeaderMid, DotRadius, AmberDot);
    FillCircle(ctx, LocalPadding + DotRadius * 4.0 + 10.0, HeaderMid, DotRadius, GreenDot);
    ctx.fillStyle := TitleColor;
    ctx.font := TitleFont;
    ctx.textAlign := "center";
    ctx.textBaseline := "middle";
    ctx.PaintText(s.windowTitle, s.width as real / 2.0, HeaderMid);
  }

  /** `fillStyle = color; beginPath(); roundRect(...); fill()`, abandoned when `roundRect` throws. */
  method FillRoundRect(ctx: Context, x: real, y: real, w: real, h: real, radii: seq<int>, color: string)
    returns (ok: bool)
    modifies ctx
    ensures ok <==> RadiiAccepted(radii)
    ensures ctx.ops == old(ctx.ops) + if ok then [FillPath([RoundRect(x, y, w, h, radii)], color)] else []
    ensures ctx.clip == old(ctx.clip) && ctx.stack == old(ctx.stack)
  {
    ctx.fillStyle := color;
    ctx.BeginPath();
    ok := ctx.AddRoundRect(x, y, w, h, radii);
    if ok {
      assert ctx.path == [RoundRect(x, y, w, h, radii)];
      ctx.Fill();
    }
  }

  /** `fillStyle = color; beginPath(); arc(cx, cy, r, 0, 2 * Math.PI); fill()`. */
  method FillCircle(ctx: Context, cx: real, cy: real, r: real, color: string)
    requires r >= 0.0
    modifies ctx
    ensures ctx.ops == old(ctx.ops) + [FillPath([Circle(cx, cy, r)], color)]
    ensures ctx.clip == old(ctx.clip) && ctx.stack == old(ctx.stack)
  {
    ctx.fillStyle := color;
    ctx.BeginPath();
    ctx.AddCircle(cx, cy, r);
    assert ctx.path == [Circle(cx, cy, r)];
    ctx.Fill();
  }

  /** The `forEach` over the lines with its running `currentY`, after the title has set the
      title font. */
  method DrawBody(ctx: Context, s: BannerSettings)
    requires s.text != "" && ctx.font == TitleFont
    modifies ctx
    ensures ctx.ops == old(ctx.ops) + TextOps(s)
    ensures ctx.clip == old(ctx.clip) && ctx.stack == old(ctx.stack)
  {
    ctx.SetFont(s.fontSize, s.fontFamily);
    ctx.textAlign := "left";
    ctx.textBaseline := "top";
    var lines := Split(s.text);
    var currentY := HeaderHeight + LocalPadding;
    ghost var drawn: seq<DrawOp> := [];
    for i := 0 to |lines|
      invariant ctx.ops == old(ctx.ops) + drawn
      invariant drawn + BodyOps(s, lines[i..], currentY, LineStep(s), Limit(s)) == TextOps(s)
      invariant ctx.font == BodyFont(s) && ctx.textAlign == "left" && ctx.textBaseline == "top"
      invariant ctx.clip == old(ctx.clip) && ctx.stack == old(ctx.stack)
    {
      assert lines[i..][1..] == lines[i + 1..];
      if currentY > s.height as real - LocalPadding {
        continue;
      }
      var line := lines[i];
      var fullLine := line;
      if |Trim(line)| > 0 && !StartsWithHash(line) {
        fullLine := Prompt + line;
      }
      ctx.fillStyle := BodyTextColor;
      if StartsWithHash(line) {
        ctx.fillStyle := CommentColor;
      }
      ctx.PaintText(fullLine, LocalPadding, currentY);
      drawn := drawn + [BodyLine(s, line, currentY)];
      currentY := currentY + s.fontSize as real * 1.5;
    }
  }
}
