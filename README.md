# Banner Creator Pro: the canvas renderer

Banner Creator Pro draws a social-media banner on an HTML canvas from a settings record
(size, colours, corner radius, outline, font, text and alignment, an icon, a theme and a
window title). This project models the renderer that turns those settings into canvas
calls, and the constants it draws on:

- `Banner` — the settings record and its alignment and theme enumerations.
- `Constants` — the alignment option lists, the built-in icon table and the initial
  settings.
- `Strings` — the string operations the renderer relies on: `split('\n')` and its inverse,
  `trim()`, `startsWith('#')`, and the decimal text of a number inside a CSS font string.
- `Canvas` — the canvas element (its size) and a 2D context as a class whose drawing state
  (fill and stroke style, line width, font, text alignment and baseline, current path,
  clip, saved-state stack) changes call by call. Pixels are not modelled: every painting
  call is appended, with the style in force at that moment, to the field `ops`, so the
  order and the coordinates of what is painted can be stated.
- `Fonts` — the web-font loader: when a stylesheet fetch is needed, the URL it uses, and the
  module-wide set of families that finished loading, as a class whose methods update it.
- `DefaultTheme` — the framed background with its clipped outline, the optional centred
  icon and the aligned multi-line text, drawn in that order through the icon-then-text
  callback.
- `OSWindow` — the terminal-window theme: header, body, three traffic-light dots, the
  centred title, and the loop that draws the text as shell lines with a running `y` until
  the bottom margin.
- `Render` — one render: load the font (failure is only logged), clear the canvas, resize
  it to the settings' size and dispatch on the theme.

Each drawing method is proved against a function that lists the calls it makes
(`ensures ctx.ops == old(ctx.ops) + DefaultOps(s, decoded)`), and the properties of the
rendering are proved as lemmas about those functions. Coordinates are real numbers, so
`1.2 * fontSize` and `1.5 * fontSize` are exact. The outcomes of the asynchronous steps —
whether a fetched font stylesheet loads and whether the icon image decodes — are
parameters, so every lemma holds for both outcomes.

Colours are plain CSS colour strings, the window theme draws only its chrome and the
text lines, and every settings change starts a new render with no check for stale ones.

Values the editor lets through are modelled as the browser treats them: a negative corner
radius makes the first `roundRect` throw, so the render ends with a cleared canvas; a
width or height is wrapped modulo 2^32, and a wrapped value above 2^31 − 1 (from a negative
value down to −2^31, or one in [2^31, 2^32)) gives the canvas its default size; a zero or
negative outline thickness leaves `lineWidth` as it was; a negative font size makes the
font string unparsable, so the text keeps the font the context already had.

## Model

| member | source | states |
|---|---|---|
| Constants.IconTableKeys | constants.ts:15-21 | the built-in icon table has exactly the keys none, star, heart, circle and react |
| Constants.IconMarkup | constants.ts:16-20 | "none" is the only key with empty markup; every other entry is an SVG document starting with `<svg` |
| Constants.OpensWithSvgTag | constants.ts:17-20 | markup built as the SVG start tag with its namespace followed by a body starts with `<svg` |
| Constants.HorizontalOptionsExact | constants.ts:3-7 | the horizontal option list offers left, center and right, each exactly once, and nothing else |
| Constants.VerticalOptionsExact | constants.ts:9-13 | the vertical option list offers top, middle and bottom, each exactly once, and nothing else |
| Constants.DefaultsInEditorRanges | constants.ts:23-40 | the initial settings lie in the editor's ranges: width and height in [100, 2000], radius in [0, 200], outline in [0, 50], font size at least 1 |
| Strings.Split | hooks/useBannerCanvas.ts:87 | `split('\n')` always yields at least one piece |
| Strings.SplitCount | hooks/useBannerCanvas.ts:87 | there is exactly one more piece than there are line feeds |
| Strings.SplitPieces | hooks/useBannerCanvas.ts:87 | no piece contains a line feed |
| Strings.JoinSplit | hooks/useBannerCanvas.ts:87 | re-joining the pieces of a text with line feeds gives the text back |
| Strings.SplitJoin | hooks/useBannerCanvas.ts:87 | splitting a join of line-feed-free lines gives the same lines back |
| Strings.SplitNoBreak | hooks/useBannerCanvas.ts:87 | a text without line feeds splits into itself alone |
| Strings.SplitAfterLine | hooks/useBannerCanvas.ts:87 | splitting `a + "\n" + b` gives `a` followed by the pieces of `b` |
| Strings.SplitTwoLines | hooks/useBannerCanvas.ts:87 | two line-feed-free texts joined by a line feed split into exactly those two |
| Strings.TrimEmptyIffBlank | hooks/useBannerCanvas.ts:199 | `trim()` gives the empty string exactly when every character is white space |
| Strings.DigitString | hooks/useBannerCanvas.ts:83 | the decimal text of the font size is never empty |
| Strings.DigitStringValue | hooks/useBannerCanvas.ts:83 | the text of a non-negative number is made of decimal digits, has no leading zero, and reads back (as `parseInt` reads it) as the number |
| Strings.IntToStringValue | hooks/useBannerCanvas.ts:83 | the text of a negative number is a minus sign followed by the digits of its magnitude; a non-negative number is its digits alone; the digits read back as the number's magnitude |
| Fonts.ReplaceSpaces | hooks/useBannerCanvas.ts:13 | the family with every space replaced by `+` and every other character kept, position by position |
| Fonts.FontUrlEncodesFamily | hooks/useBannerCanvas.ts:13-14 | the stylesheet URL is the fixed prefix, the family with spaces as `+`, and the fixed suffix, and contains no space |
| Fonts.FontUrlSharedIff | hooks/useBannerCanvas.ts:13-16 | two families share a URL (and so one link) exactly when they agree once spaces become `+` |
| Fonts.PlainFamilyUrl | hooks/useBannerCanvas.ts:13-16 | for a family without quote, backslash, line break, form feed or NUL, every character of the URL is likewise none of these, so nothing in it can end or escape the selector's quoted string |
| Fonts.Decide | hooks/useBannerCanvas.ts:9-18 | nothing to do exactly when the family is empty, one of the four generic families or already loaded; otherwise the link selector either makes `querySelector` throw (and that selector is reported), or finds an existing link, or a fetch follows exactly when no link with the URL exists, and then with that URL |
| Fonts.CacheAfter | hooks/useBannerCanvas.ts:25-31 | a settled link never removes a family, and a failed one adds nothing |
| Fonts.CacheAfterAllSpec | hooks/useBannerCanvas.ts:6-31 | after any run of settled links a family is loaded exactly when it was before or one of the links loaded it: the set only grows, and only on success |
| Fonts.FontLoader.constructor | hooks/useBannerCanvas.ts:6 | the loader starts with no loaded family and no link |
| Fonts.FontLoader.Request | hooks/useBannerCanvas.ts:8-33 | the request takes the decision above and appends the stylesheet link only when it fetches (never when the selector throws), keeping every loaded family's link present; a plain family's selector is always accepted |
| Fonts.FontLoader.OnLoad | hooks/useBannerCanvas.ts:25-28 | a loaded link adds its family to the loaded set |
| Fonts.FontLoader.OnError | hooks/useBannerCanvas.ts:29-31 | a failed link rejects with "Failed to load font: " and the family, and the loaded set stays as it was |
| Fonts.NoRefetchAfterLink | hooks/useBannerCanvas.ts:16-18 | once a family's link exists, asking again never fetches, whether the first load succeeded or not and whatever the selector does |
| Canvas.Context.constructor | hooks/useBannerCanvas.ts:224 | a new context has the canvas defaults and nothing saved, clipped or painted |
| Canvas.Context.SaveState | hooks/useBannerCanvas.ts:51 | `save()` pushes the current drawing state |
| Canvas.Context.RestoreState | hooks/useBannerCanvas.ts:55 | `restore()` pops and reinstates the last saved state, or changes nothing when none is saved |
| Canvas.Context.BeginPath | hooks/useBannerCanvas.ts:43 | `beginPath()` empties the current path and changes nothing else |
| Canvas.Context.ClipToPath | hooks/useBannerCanvas.ts:52 | `clip()` adds the current path to the clip |
| Canvas.Context.Fill | hooks/useBannerCanvas.ts:49 | `fill()` paints the current path in the current fill style |
| Canvas.Context.Stroke | hooks/useBannerCanvas.ts:54 | `stroke()` paints the current path's outline in the current stroke style and width |
| Canvas.Context.PaintText | hooks/useBannerCanvas.ts:121 | `fillText` paints at the given point in the current text style |
| Canvas.Context.PaintImage | hooks/useBannerCanvas.ts:70 | `drawImage` paints the image in the given square |
| Canvas.Context.Clear | hooks/useBannerCanvas.ts:235 | `clearRect` is recorded with its rectangle |
| Canvas.Context.Reset | hooks/useBannerCanvas.ts:238-239 | resizing the canvas returns every piece of drawing state to its default and empties the saved states and the clip |
| Canvas.ReflectedSize | hooks/useBannerCanvas.ts:238-239 | assigning a canvas dimension keeps any value in [0, 2^31 − 1], turns a negative value down to −2^31 into the default (300 wide, 150 high), and never yields anything but a value in that range or the default |
| Canvas.Element.SetWidth | hooks/useBannerCanvas.ts:238 | `canvas.width = v` sets the width to the reflected value of v and leaves the height |
| Canvas.Element.SetHeight | hooks/useBannerCanvas.ts:239 | `canvas.height = v` sets the height to the reflected value of v and leaves the width |
| Canvas.Context.AddRoundRect | hooks/useBannerCanvas.ts:45 | `roundRect` adds the rectangle to the path exactly when it has one to four radii, none negative; otherwise it throws and the path is unchanged |
| Canvas.Context.AddCircle | hooks/useBannerCanvas.ts:166 | `arc(cx, cy, r, 0, 2π)` adds a full circle to the path |
| Canvas.Context.SetLineWidth | hooks/useBannerCanvas.ts:41 | assigning `lineWidth` takes a positive width and ignores zero or a negative one |
| Canvas.Context.SetFont | hooks/useBannerCanvas.ts:83 | assigning the `<size>px "<family>"` font takes it when the size is not negative, and otherwise keeps the previous font |
| DefaultTheme.DrawFrame | hooks/useBannerCanvas.ts:39-56 | with a negative corner radius `roundRect` throws and nothing is painted; otherwise the frame is painted as the frame rule says; the line width is the outline thickness only when that is positive; the font, clip and saved states are left as they were |
| DefaultTheme.FrameRule | hooks/useBannerCanvas.ts:43-56 | the background fill comes first; a stroke happens exactly when the thickness is positive, at twice the thickness along the frame, right after a save and a clip to that frame and right before the restore |
| DefaultTheme.StrokeOutline | hooks/useBannerCanvas.ts:50-56 | save, clip to the frame, stroke it at twice the thickness, restore: every style and the stack are back as they were |
| DefaultTheme.IconChoice | hooks/useBannerCanvas.ts:59-62 | a non-empty upload beats the predefined key; there is no icon exactly when nothing was uploaded and the key is "none" or unknown; when the `hasIcon` guard is off there is no icon either |
| DefaultTheme.IconGeometry | hooks/useBannerCanvas.ts:67-69 | the icon side is a fifth of the shorter side, the square is centred, and it lies inside a non-empty canvas |
| DefaultTheme.DrawIcon | hooks/useBannerCanvas.ts:58-77 | the corrected icon step (see Findings; `DefaultOpsAsWritten` is the theme as written): on the no-markup, decoded and failed-decode paths the text step runs exactly once, after the image when there is one |
| DefaultTheme.TextLines | hooks/useBannerCanvas.ts:80-89 | empty text draws nothing; otherwise one call per line, as many as line feeds plus one, whose texts re-joined give the text back |
| DefaultTheme.DrawnLineTexts | hooks/useBannerCanvas.ts:119-122 | the texts painted by the line loop are exactly the lines, in order |
| DefaultTheme.LineOpsSpacing | hooks/useBannerCanvas.ts:119-122 | line i is painted at `startY + i * step`, so consecutive lines are one step apart |
| DefaultTheme.LineSpacing | hooks/useBannerCanvas.ts:84-122 | the line height is 1.2 times the font size; every line is painted at the anchor x in the text style, the first at `startY`, and each next one exactly one line height lower |
| DefaultTheme.TextPositions | hooks/useBannerCanvas.ts:89-121 | every text call is a `fillText` at the anchor x in the text style, and the first is at `startY` for the number of lines |
| DefaultTheme.TextGaps | hooks/useBannerCanvas.ts:119-122 | consecutive lines are exactly one line height apart |
| DefaultTheme.HorizontalAnchors | hooks/useBannerCanvas.ts:91-103 | left is at 40 + outline, left and right add up to the width, centre is half the width |
| DefaultTheme.VerticalAnchors | hooks/useBannerCanvas.ts:105-117 | top puts the block's top edge at 40 + outline, bottom puts the last line's bottom edge at height − 40 − outline, middle puts the midpoint of the first and last line centres at half the height |
| DefaultTheme.CentredSingleLine | hooks/useBannerCanvas.ts:91-121 | one centred, middle-aligned line is painted at the centre of the canvas |
| DefaultTheme.TextIgnoresIcon | hooks/useBannerCanvas.ts:79-123 | the text layout does not depend on the chosen or uploaded icon |
| DefaultTheme.TextOpsCount | hooks/useBannerCanvas.ts:80-87 | the number of text calls is zero for empty text and the number of lines otherwise |
| DefaultTheme.TwoLineText | hooks/useBannerCanvas.ts:87-122 | a text of two lines is painted as exactly those two lines |
| DefaultTheme.DrawText | hooks/useBannerCanvas.ts:79-123 | on a freshly reset context, the text step paints exactly the text layout, in the settings' font, or in the default font when a negative size makes the font string unparsable, leaving the clip and saved states as they were |
| DefaultTheme.PaintLines | hooks/useBannerCanvas.ts:119-122 | the `forEach` paints line i at `startY + i * lineHeight` in the current text style, appending exactly one call per line, in order |
| DefaultTheme.DrawContent | hooks/useBannerCanvas.ts:125-130 | `hasIcon ? drawIcon(drawText) : drawText()`: the icon step only behind the guard, then the text, with the corrected icon step |
| DefaultTheme.DrawDefaultBanner | hooks/useBannerCanvas.ts:37-131 | with the corrected icon step: nothing at all when a negative corner radius makes the frame's `roundRect` throw; otherwise frame, then icon (when the guard holds), then text |
| DefaultTheme.DrawOrder | hooks/useBannerCanvas.ts:43-130 | nothing is painted exactly when the corner radius is negative; otherwise background first; a stroke exactly when the outline is positive; an image exactly when there is markup and it decodes; every image before every line; the texts painted are exactly the lines of the text, whatever happened to the icon |
| DefaultTheme.DefaultParts | hooks/useBannerCanvas.ts:43-130 | with a negative corner radius the theme is empty; otherwise it is the frame, the guarded icon step and the text, in that order; the frame has no image or text, the icon step only images, the text step only texts |
| DefaultTheme.DrawOrderFrame | hooks/useBannerCanvas.ts:43-56 | the theme paints something exactly when the corner radius is not negative, then the background fill first, and a stroke exactly when in addition the outline is positive |
| DefaultTheme.DrawOrderImages | hooks/useBannerCanvas.ts:58-77 | the theme paints an image exactly when the radius is not negative and there is markup and it decodes, and every image before every line of text |
| DefaultTheme.DrawOrderTexts | hooks/useBannerCanvas.ts:79-123 | the texts the theme paints are exactly the lines of the text, whatever happened to the icon, and none when the radius is negative |
| DefaultTheme.DefaultsDrawNoIcon | constants.ts:36-37 | with the initial settings no icon is drawn |
| DefaultTheme.DefaultsDrawTwoLines | constants.ts:33 | with the initial settings the text is painted as its two lines |
| DefaultTheme.DefaultOpsAsWritten | hooks/useBannerCanvas.ts:58-77 | the theme as written (a `btoa` failure abandons the render after the frame) is always a beginning of the corrected theme: the fault only cuts it short |
| DefaultTheme.NonLatin1IconDropsText | hooks/useBannerCanvas.ts:76 | when the chosen markup has a character above U+00FF, as written no text is painted, while the corrected theme paints every line (for a radius that is not negative) |
| DefaultTheme.ArrowIconExample | hooks/useBannerCanvas.ts:76 | the initial settings with an uploaded SVG containing an arrow: as written nothing of the text is painted, corrected both lines are |
| DefaultTheme.ArrowIconRejected | hooks/useBannerCanvas.ts:76 | that uploaded SVG is the icon chosen and contains a character `btoa` rejects |
| DefaultTheme.AsWrittenAgreesOnLatin1 | hooks/useBannerCanvas.ts:76 | the as-written and corrected themes agree whenever the markup is within U+0000–U+00FF |
| OSWindow.ChromeGeometry | hooks/useBannerCanvas.ts:136-183 | the header fills the whole frame, the body starts at y = 40 with height − 40 and square top corners, the dots are at x = 15, 32, 49 on y = 20 with radius 6, inside the header and apart, and the title is centred at (width / 2, 20) |
| OSWindow.DrawChrome | hooks/useBannerCanvas.ts:143-183 | with a negative corner radius the window's `roundRect` throws and nothing is painted; otherwise window, body, the three dots and the title are painted in that order, as listed, and the title font is left set |
| OSWindow.FillRoundRect | hooks/useBannerCanvas.ts:143-160 | setting the fill, starting a path and adding a rounded rectangle paints it in that colour, or, when a radius is negative, throws and paints nothing |
| OSWindow.FillCircle | hooks/useBannerCanvas.ts:164-177 | setting the fill, starting a path and adding a full circle paints it in that colour |
| OSWindow.PromptRule | hooks/useBannerCanvas.ts:199-206 | `$ ` is prepended exactly when the line has a non-white-space character and does not start with `#`, otherwise the line is kept; `#` lines, and only they, take the comment colour |
| OSWindow.PastLimitDrawsNothing | hooks/useBannerCanvas.ts:196 | once the running y is past the limit no further line is painted |
| OSWindow.RowLinear | hooks/useBannerCanvas.ts:209 | advancing by a step i times from y reaches `y + i * step` |
| OSWindow.BodyPrefix | hooks/useBannerCanvas.ts:192-210 | the lines painted are a prefix: the i-th at row i, not below the limit, and the first left out would start below it, for any step |
| OSWindow.BodyLength | hooks/useBannerCanvas.ts:192-210 | the loop never paints more lines than the text has |
| OSWindow.BodyAt | hooks/useBannerCanvas.ts:192-210 | the i-th line painted is the i-th line of the text, at row i, not below the limit |
| OSWindow.BodyStop | hooks/useBannerCanvas.ts:196 | when lines are left out, the first one left out would have started below the limit |
| OSWindow.BodyCutoff | hooks/useBannerCanvas.ts:196 | with a positive step, line i is painted exactly when its row is not below the limit |
| OSWindow.BodyLayout | hooks/useBannerCanvas.ts:191-210 | each painted line is at x = 15 and y = 55 + i · 1.5 · fontSize, prompted and coloured by the prompt rule, and not below height − 15; the first left out would start below it |
| OSWindow.BodyRow | hooks/useBannerCanvas.ts:192-209 | row i of the body is 55 + i · 1.5 · fontSize |
| OSWindow.TextRule | hooks/useBannerCanvas.ts:186-210 | empty text paints nothing; otherwise the body layout above applied to the lines of the text |
| OSWindow.DrawBody | hooks/useBannerCanvas.ts:186-210 | after the title, the `forEach` with its running `currentY` paints exactly the body lines, in the settings' font or, when a negative size makes it unparsable, the title font |
| OSWindow.DrawOSWindow | hooks/useBannerCanvas.ts:133-212 | nothing at all when a negative corner radius makes the window's `roundRect` throw; otherwise the chrome and then the body text, leaving the clip and saved states as they were |
| Render.ThemeRule | hooks/useBannerCanvas.ts:241-245 | either theme paints something exactly when the corner radius is not negative, and then begins by filling the full width × height frame; the window never paints an image and ignores the decode; the default theme paints the icon exactly when the radius is accepted and there is markup and it decodes |
| Render.LoadFont | hooks/useBannerCanvas.ts:227-232 | the font step takes the loader's decision, appends a link exactly when it fetches and adds the family exactly when that link loads; a selector the browser rejects and a failed link are caught and only logged, with the selector or the font message, and nothing else from `loadGoogleFont` is logged |
| Render.DrawCanvas | hooks/useBannerCanvas.ts:219-246 | without a canvas or context nothing changes and nothing is logged; otherwise the loader's families and links change and the error is logged exactly as the font step says, and, whatever the font outcome, the canvas is cleared at its old size, resized to the reflected width and height, and the theme the settings select is painted (with the corrected icon step), with no saved state or clip left over |
| Render.RepeatedFontStep | hooks/useBannerCanvas.ts:9-32 | across renders the loaded families and links only grow; a second render with the same family fetches nothing and changes nothing, so a failed font is logged once while a rejected selector is logged again |
| Render.Repaint | hooks/useBannerCanvas.ts:234-245 | the canvas is cleared at its old size, resized to the reflected width and height with the context state reset, and the selected theme (with the corrected icon step) is painted on an empty clip and stack |

## Left out

- React plumbing: the effect, its dependency list and `canvasRef` are not modelled; a render is one call of `Render.DrawCanvas`, and a missing element or context is a null argument.
- Overlapping renders: when the settings change while an earlier render still awaits its font, both renders go on to draw; likewise an earlier render's icon `onload` or `onerror` can paint its icon and text after a newer render has cleared and resized the canvas. The model covers one render at a time, with the image handler running before the next render.
- Browser capability detection: the `rect` fallback for contexts without `roundRect` is not modelled; the frame, window and body are always rounded rectangles.
- Pixels, glyphs and arcs: painting is recorded as calls with their coordinates and styles; a full circle drawn with `arc(…, 0, 2π)` is a circle shape.
- Image decoding and the data URL: the image is recorded with the markup it shows; whether it decodes is the `decoded` parameter.
- Render.LoadFont: the `document.fonts.load` that follows the stylesheet is not modelled; its outcome, like the stylesheet's, is caught and does not affect drawing, but its rejection of an unparsable font string (such as a negative size) is also logged, and that message is not among the ones the model returns.
- Fonts.FontLoader.Request: the document's stylesheet links are the set `links` of hrefs appended by the loader; links added by anything else are not modelled, and a link that never settles is not modelled either.
- Fonts.Decide: whether the browser parses the link selector is the parameter `selectorParses`, not computed; it is true for every plain family, while for a family with a quote or backslash it depends on CSS parsing (usually the selector is rejected, but some such families form a valid selector), and for those the model takes a parsed selector to match exactly the links with the URL.
- Canvas.Context.SetFont: only a negative size is treated as unparsable; a family containing a quote or backslash can also make the font string unparsable (or name a different family), and the model then records the string as given.
- Colour strings: `fillStyle` and `strokeStyle` ignore a colour they cannot parse (the colour fields accept typed text); the model records every colour as given.
- Canvas.ReflectedSize: a canvas too large for the browser to allocate is not modelled.
- Floating point: coordinates are exact reals; IEEE rounding is ignored. Sizes are integers, as the editor's number inputs produce them.
- Logging: `console.error` is the message `Render.LoadFont` returns, which `Render.DrawCanvas` passes on.

## Findings

| source | as written | input that shows it | evidently intended | confidence | as-written member | corrected member |
|---|---|---|---|---|---|---|
| hooks/useBannerCanvas.ts:76 | `btoa` throws on markup with a character above U+00FF; the exception leaves `drawIcon` before the image source is set, so neither `onload` nor `onerror` runs and the text is never drawn | the initial settings with an uploaded icon `<svg><text>→</text></svg>` (uploads are read as text, so any Unicode character can occur) | the text is drawn whatever happens to the icon, as the `onerror` handler does for an image that fails to decode | not executed | DefaultTheme.NonLatin1IconDropsText | DefaultTheme.DrawOrder |
