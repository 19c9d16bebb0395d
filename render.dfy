/** One render of the banner: load the font (a failure is only logged), clear and resize
    the canvas, then draw the theme the settings name. */
module Render {
  import opened Banner
  import opened Canvas
  import opened Fonts
  import DefaultTheme
  import OSWindow

  /** The draw calls of the theme the settings select: the terminal window for "os-window",
      the default banner otherwise. */
  function ThemeOps(s: BannerSettings, decoded: bool): seq<DrawOp> {
    match s.theme
    case OsWindow => OSWindow.OSWindowOps(s)
    case Default => DefaultTheme.DefaultOps(s, decoded)
  }

  /** Either theme paints nothing at all when the corner radius is negative, since its first
      `roundRect` throws. Otherwise both begin by filling the whole width-by-height frame with
      its corner radius: in the background colour for the default theme, in the header
      colour for the window. The window never draws an image, so the icon decode does not
      affect it; the default theme draws the icon exactly when there is markup and it
      decodes. */
  lemma ThemeRule(s: BannerSettings, decoded: bool)
    ensures |ThemeOps(s, decoded)| > 0 <==> s.cornerRadius >= 0
    ensures s.cornerRadius >= 0 ==>
      ThemeOps(s, decoded)[0] ==
        FillPath([RoundRect(0.0, 0.0, s.width as real, s.height as real, [s.cornerRadius])],
                 if s.theme == OsWindow then OSWindow.HeaderColor else s.backgroundColor)
    ensures s.theme == OsWindow ==>
      ThemeOps(s, decoded) == ThemeOps(s, !decoded)
      && forall i :: 0 <= i < |ThemeOps(s, decoded)| ==> !ThemeOps(s, decoded)[i].DrawImage?
    ensures s.theme == Default ==>
      ((exists i :: 0 <= i < |ThemeOps(s, decoded)| && ThemeOps(s, decoded)[i].DrawImage?)
       <==> s.cornerRadius >= 0 && DefaultTheme.IconSource(s).Some? && decoded)
  {
    if s.theme == OsWindow {
      var ops := OSWindow.OSWindowOps(s);
      forall i | 0 <= i < |ops|
        ensures !ops[i].DrawImage?
      {
        if s.cornerRadius >= 0 && i >= 6 {
          OSWindow.TextRule(s);
          assert ops[i] == OSWindow.TextOps(s)[i - 6];
        }
      }
    } else {
      DefaultTheme.DrawOrder(s, decoded);
    }
  }

  /** What the `catch` logs. */
  datatype LoggedError =
    | FontFailed(message: string)    // the rejection of a stylesheet link that failed
    | BadSelector(selector: string)  // the `SyntaxError` of a link selector the browser rejects

  /** What the font step does: the loader's decision on the state before it; a link appended
      exactly when it fetches; the family loaded exactly when that link loads; and the
      failed link's message or the rejected selector logged, nothing else. */
  predicate FontStep(family: string, selectorParses: bool, linkLoads: bool,
                     loaded0: set<string>, links0: set<string>,
                     loaded: set<string>, links: set<string>, logged: Option<LoggedError>)
  {
    var step := Decide(family, loaded0, links0, selectorParses);
    links == (if step.Fetch? then links0 + {step.url} else links0)
    && loaded == (if step.Fetch? && linkLoads then loaded0 + {family} else loaded0)
    && logged == (if step.Fetch? && !linkLoads then Some(FontFailed("Failed to load font: " + family))
                  else if step.InvalidSelector? then Some(BadSelector(step.selector))
                  else None)
  }

  /** The `try` block: `loadGoogleFont`, whose exception or rejection is caught and only
      logged. Whether the browser parses the link selector is `selectorParses` (it always
      does for a plain family); the outcome of a fetched stylesheet link is `linkLoads`. */
  method LoadFont(loader: FontLoader, family: string, selectorParses: bool, linkLoads: bool)
    returns (logged: Option<LoggedError>)
    requires loader.Valid()
    requires PlainFamily(family) ==> selectorParses
    modifies loader
    ensures loader.Valid()
    ensures FontStep(family, selectorParses, linkLoads, old(loader.loaded), old(loader.links),
                     loader.loaded, loader.links, logged)
  {
    var step := loader.Request(family, selectorParses);
    logged := None;
    if step.InvalidSelector? {
      logged := Some(BadSelector(step.selector));
    } else if step.Fetch? {
      if linkLoads {
        loader.OnLoad(family);
      } else {
        var message := loader.OnError(family);
        logged := Some(FontFailed(message));
      }
    }
  }

  /** `drawCanvas`: nothing happens without a canvas element or a 2D context. Otherwise the
      font is loaded, whatever its outcome the canvas is cleared at its old size, resized to
      the width and height (as the element reflects them), and the selected theme is drawn
      on a context whose saved states and clip are left empty. */
  method DrawCanvas(canvas: Element?, ctx: Context?, loader: FontLoader, s: BannerSettings,
                    selectorParses: bool, linkLoads: bool, decoded: bool)
    returns (drawn: bool, logged: Option<LoggedError>)
    requires loader.Valid()
    requires PlainFamily(s.fontFamily) ==> selectorParses
    modifies canvas, ctx, loader
    ensures loader.Valid()
    ensures drawn <==> canvas != null && ctx != null
    ensures !drawn ==>
      unchanged(loader) && logged.None?
      && (canvas != null ==> unchanged(canvas)) && (ctx != null ==> unchanged(ctx))
    ensures drawn ==>
      FontStep(s.fontFamily, selectorParses, linkLoads, old(loader.loaded), old(loader.links),
               loader.loaded, loader.links, logged)
    ensures drawn ==>
      canvas.width == ReflectedSize(s.width, DefaultWidth)
      && canvas.height == ReflectedSize(s.height, DefaultHeight)
      && ctx.ops == old(ctx.ops) + [ClearRect(0.0, 0.0, old(canvas.width) as real, old(canvas.height) as real)]
                    + ThemeOps(s, decoded)
      && ctx.stack == [] && ctx.clip == []
  {
    if canvas == null || ctx == null {
      return false, None;
    }
    logged := LoadFont(loader, s.fontFamily, selectorParses, linkLoads);
    Repaint(canvas, ctx, s, decoded);
    drawn := true;
  }

  /** Clear the canvas at its current size, resize it (each assignment resets the context's
      state), then draw the selected theme. */
  method Repaint(canvas: Element, ctx: Context, s: BannerSettings, decoded: bool)
    modifies canvas, ctx
    ensures canvas.width == ReflectedSize(s.width, DefaultWidth)
    ensures canvas.height == ReflectedSize(s.height, DefaultHeight)
    ensures ctx.ops == old(ctx.ops) + [ClearRect(0.0, 0.0, old(canvas.width) as real, old(canvas.height) as real)]
                       + ThemeOps(s, decoded)
    ensures ctx.stack == [] && ctx.clip == []
  {
    ctx.Clear(0.0, 0.0, canvas.width as real, canvas.height as real);
    canvas.SetWidth(s.width);
    ctx.Reset();
    canvas.SetHeight(s.height);
    ctx.Reset();
    if s.theme == OsWindow {
      OSWindow.DrawOSWindow(ctx, s);
    } else {
      DefaultTheme.DrawDefaultBanner(ctx, s, decoded);
    }
  }

  /** Across renders the font step only grows the loaded families and the links. A second
      render with the same family (and a browser that parses its selector as before) fetches
      nothing and changes nothing: a failed font is logged once, while a rejected selector is
      logged again on every render. */
  lemma RepeatedFontStep(family: string, selectorParses: bool, linkLoads1: bool, linkLoads2: bool,
                         loaded0: set<string>, links0: set<string>,
                         loaded1: set<string>, links1: set<string>, logged1: Option<LoggedError>,
                         loaded2: set<string>, links2: set<string>, logged2: Option<LoggedError>)
    requires FontStep(family, selectorParses, linkLoads1, loaded0, links0, loaded1, links1, logged1)
    requires FontStep(family, selectorParses, linkLoads2, loaded1, links1, loaded2, links2, logged2)
    ensures loaded0 <= loaded1 && links0 <= links1
    ensures !Decide(family, loaded1, links1, selectorParses).Fetch?
    ensures loaded2 == loaded1 && links2 == links1
    ensures logged2 == if logged1.Some? && logged1.value.BadSelector? then logged1 else None
  {
  }
}
