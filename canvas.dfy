/** The part of the HTML canvas the renderer uses: the canvas element's size and a 2D
    context whose drawing state changes step by step. Pixels are not modelled; every
    painting call is recorded, with the style in force at that moment, in `ops`. */
module Canvas {
  import opened Strings

  /** The font a fresh or resized context holds. */
  const DefaultFont := "10px sans-serif"

  /** The size a canvas takes when its `width` or `height` is set to a value it cannot hold. */
  const DefaultWidth: nat := 300
  const DefaultHeight: nat := 150

  /** The largest value a reflected `unsigned long` attribute keeps. */
  const MaxReflected: nat := 0x7FFF_FFFF

  /** The size a canvas dimension takes when a number is assigned to it: the number is first
      reduced modulo 2^32, as an `unsigned long`, and a result above 2^31 - 1 is replaced by
      the dimension's default. */
  function ReflectedSize(v: int, default: nat): (n: nat)
    ensures 0 <= v <= MaxReflected ==> n == v
    ensures -0x8000_0000 <= v < 0 ==> n == default
    ensures n <= MaxReflected || n == default
  {
    var u := v % 0x1_0000_0000;
    if u <= MaxReflected then u else default
  }

  /** `roundRect` accepts one to four radii, none of them negative; otherwise it throws a
      `RangeError` and adds nothing to the path. */
  predicate RadiiAccepted(radii: seq<int>) {
    1 <= |radii| <= 4 && forall i :: 0 <= i < |radii| ==> radii[i] >= 0
  }

  /** The font a context holds after `font = "<size>px \"<family>\""`: a negative size makes
      the string unparsable, and the context then keeps its previous font. */
  function AssignedFont(size: int, family: string, previous: string): string {
    if size >= 0 then FontCss(size, family) else previous
  }

  /** A sub-path: a rounded rectangle (one radius, or four radii from top-left clockwise)
      or a full circle drawn with `arc`. */
  datatype Shape =
    | RoundRect(x: real, y: real, w: real, h: real, radii: seq<int>)
    | Circle(cx: real, cy: real, r: real)

  /** The text-related state `fillText` paints with. */
  datatype TextStyle = TextStyle(fill: string, font: string, align: string, baseline: string)

  /** One call that changes what is (or may later be) painted. */
  datatype DrawOp =
    | ClearRect(x: real, y: real, w: real, h: real)
    | FillPath(path: seq<Shape>, fill: string)
    | StrokePath(path: seq<Shape>, stroke: string, lineWidth: int)
    | Save
    | Clip(region: seq<Shape>)
    | Restore
    | DrawImage(src: string, x: real, y: real, w: real, h: real)
    | FillText(text: string, x: real, y: real, style: TextStyle)

  /** What `save()` pushes and `restore()` pops. */
  datatype SavedState = SavedState(
    fillStyle: string, strokeStyle: string, lineWidth: int,
    font: string, textAlign: string, textBaseline: string,
    clip: seq<seq<Shape>>)

  /** The `<canvas>` element; assigning its size resizes the drawing surface. */
  class Element {
    var width: int
    var height: int

    constructor (width: int, height: int)
      ensures this.width == width && this.height == height
    {
      this.width := width;
      this.height := height;
    }

    /** `canvas.width = v`. */
    method SetWidth(v: int)
      modifies this
      ensures width == ReflectedSize(v, DefaultWidth) && height == old(height)
    {
      width := ReflectedSize(v, DefaultWidth);
    }

    /** `canvas.height = v`. */
    method SetHeight(v: int)
      modifies this
      ensures height == ReflectedSize(v, DefaultHeight) && width == old(width)
    {
      height := ReflectedSize(v, DefaultHeight);
    }
  }

  /** A `CanvasRenderingContext2D`. */
  class Context {
    var fillStyle: string
    var strokeStyle: string
    var lineWidth: int
    var font: string
    var textAlign: string
    var textBaseline: string
    var path: seq<Shape>
    var clip: seq<seq<Shape>>
    var stack: seq<SavedState>
    var ops: seq<DrawOp>

    /** A fresh context with the HTML canvas defaults. */
    constructor ()
      ensures fillStyle == "#000000" && strokeStyle == "#000000" && lineWidth == 1
      ensures font == DefaultFont && textAlign == "start" && textBaseline == "alphabetic"
      ensures path == [] && clip == [] && stack == [] && ops == []
    {
      fillStyle, strokeStyle, lineWidth := "#000000", "#000000", 1;
      font, textAlign, textBaseline := DefaultFont, "start", "alphabetic";
      path, clip, stack, ops := [], [], [], [];
    }

    /** The state `save()` would push now. */
    function Current(): SavedState
      reads this
    {
      SavedState(fillStyle, strokeStyle, lineWidth, font, textAlign, textBaseline, clip)
    }

    /** The style a `fillText` issued now would paint with. */
    function CurrentTextStyle(): TextStyle
      reads this
    {
      TextStyle(fillStyle, font, textAlign, textBaseline)
    }

    method SaveState()
      modifies this`stack, this`ops
      ensures stack == old(stack) + [Current()]
      ensures ops == old(ops) + [DrawOp.Save]
    {
      stack := stack + [Current()];
      ops := ops + [DrawOp.Save];
    }

    /** `restore()`: pops the last saved state; with nothing saved it changes no state. */
    method RestoreState()
      modifies this
      ensures old(stack) == [] ==> stack == [] && Current() == old(Current())
      ensures old(stack) != [] ==>
        stack == old(stack)[..|old(stack)| - 1] && Current() == old(stack)[|old(stack)| - 1]
      ensures path == old(path)
      ensures ops == old(ops) + [DrawOp.Restore]
    {
      if stack != [] {
        var top := stack[|stack| - 1];
        fillStyle, strokeStyle, lineWidth := top.fillStyle, top.strokeStyle, top.lineWidth;
        font, textAlign, textBaseline := top.font, top.textAlign, top.textBaseline;
        clip := top.clip;
        stack := stack[..|stack| - 1];
      }
      ops := ops + [DrawOp.Restore];
    }

    method BeginPath()
      modifies this`path
      ensures path == []
    {
      path := [];
    }

    /** `roundRect(x, y, w, h, radii)`: adds the rounded rectangle to the current path, or,
        when a radius is negative, throws (`ok` is false) and leaves the path as it was. */
    method AddRoundRect(x: real, y: real, w: real, h: real, radii: seq<int>) returns (ok: bool)
      modifies this`path
      ensures ok <==> RadiiAccepted(radii)
      ensures path == if ok then old(path) + [RoundRect(x, y, w, h, radii)] else old(path)
    {
      ok := RadiiAccepted(radii);
      if ok {
        path := path + [RoundRect(x, y, w, h, radii)];
      }
    }

    /** `arc(cx, cy, r, 0, 2 * Math.PI)`: adds a full circle to the current path. */
    method AddCircle(cx: real, cy: real, r: real)
      requires r >= 0.0
      modifies this`path
      ensures path == old(path) + [Circle(cx, cy, r)]
    {
      path := path + [Circle(cx, cy, r)];
    }

    /** `lineWidth = w`: zero and negative widths are ignored. */
    method SetLineWidth(w: int)
      modifies this`lineWidth
      ensures lineWidth == if w > 0 then w else old(lineWidth)
    {
      if w > 0 {
        lineWidth := w;
      }
    }

    /** `font = "<size>px \"<family>\""`: ignored when the string does not parse. */
    method SetFont(size: int, family: string)
      modifies this`font
      ensures font == AssignedFont(size, family, old(font))
    {
      if size >= 0 {
        font := FontCss(size, family);
      }
    }

    method Fill()
      modifies this`ops
      ensures ops == old(ops) + [FillPath(path, fillStyle)]
    {
      ops := ops + [FillPath(path, fillStyle)];
    }

    method Stroke()
      modifies this`ops
      ensures ops == old(ops) + [StrokePath(path, strokeStyle, lineWidth)]
    {
      ops := ops + [StrokePath(path, strokeStyle, lineWidth)];
    }

    /** `clip()`: intersects the clipping region with the current path. */
    method ClipToPath()
      modifies this`clip, this`ops
      ensures clip == old(clip) + [path]
      ensures ops == old(ops) + [Clip(path)]
    {
      clip := clip + [path];
      ops := ops + [Clip(path)];
    }

    method PaintImage(src: string, x: real, y: real, w: real, h: real)
      modifies this`ops
      ensures ops == old(ops) + [DrawImage(src, x, y, w, h)]
    {
      ops := ops + [DrawImage(src, x, y, w, h)];
    }

    method PaintText(text: string, x: real, y: real)
      modifies this`ops
      ensures ops == old(ops) + [FillText(text, x, y, CurrentTextStyle())]
    {
      ops := ops + [FillText(text, x, y, CurrentTextStyle())];
    }

    /** Assigning the element's width or height: the bitmap is cleared and the context's
        drawing state, saved states and clip return to their defaults. */
    method Reset()
      modifies this
      ensures fillStyle == "#000000" && strokeStyle == "#000000" && lineWidth == 1
      ensures font == DefaultFont && textAlign == "start" && textBaseline == "alphabetic"
      ensures path == [] && clip == [] && stack == []
      ensures ops == old(ops)
    {
      fillStyle, strokeStyle, lineWidth := "#000000", "#000000", 1;
      font, textAlign, textBaseline := DefaultFont, "start", "alphabetic";
      path, clip, stack := [], [], [];
    }

    method Clear(x: real, y: real, w: real, h: real)
      modifies this`ops
      ensures ops == old(ops) + [ClearRect(x, y, w, h)]
    {
      ops := ops + [ClearRect(x, y, w, h)];
    }
  }
}
