/**
 * AndroidCanvas: the drawing context that layers paint into. It wraps a
 * platform canvas, modelled as the log of commands it receives, and keeps
 * one bitmap paint whose colour filter is switched on around filtered
 * bitmap draws. Colour matrices, paints, paths and bitmaps are opaque.
 */
module AndroidGraphics {
  import opened Wrappers
  import opened JavaInt

  /** The filters a bitmap may be drawn with (the core library's Filter enum). */
  datatype Filter = NoFilter | Grayscale | GrayscaleInvert | Invert

  /** The three colour filters the canvas builds once, as distinct tokens. */
  datatype ColorFilter = GrayscaleFilter | GrayscaleInvertFilter | InvertFilter

  /** The colour filter applyFilter installs for each Filter; none for NoFilter. */
  function FilterFor(f: Filter): (r: Option<ColorFilter>)
    ensures r.None? <==> f == NoFilter
  {
    match f
    case NoFilter => None
    case Grayscale => Some(GrayscaleFilter)
    case GrayscaleInvert => Some(GrayscaleInvertFilter)
    case Invert => Some(InvertFilter)
  }

  /** The three real filters get three different colour filters. */
  lemma FiltersDistinct(f: Filter, g: Filter)
    requires f != g && f != NoFilter && g != NoFilter
    ensures FilterFor(f) != FilterFor(g)
  {
  }

  /** The bitmap paint's colour filter after applyFilter(f). */
  function Applied(current: Option<ColorFilter>, f: Filter): (r: Option<ColorFilter>)
    ensures f == NoFilter ==> r == current
    ensures f != NoFilter ==> r.Some? && r == FilterFor(f)
  {
    if f == NoFilter then current else FilterFor(f)
  }

  /**
   * A filtered bitmap draw: the colour filter in effect while drawing and
   * the one left on the paint afterwards. A real filter is in effect for the
   * draw only; with NoFilter the paint is not touched.
   */
  function FilteredDraw(current: Option<ColorFilter>, f: Filter): (r: (Option<ColorFilter>, Option<ColorFilter>))
    ensures f != NoFilter ==> r.0 == FilterFor(f) && r.0.Some? && r.1 == None
    ensures f == NoFilter ==> r.0 == current && r.1 == current
  {
    var inEffect := Applied(current, f);
    (inEffect, if f != NoFilter then None else inEffect)
  }

  datatype RegionOp = Replace | Difference

  /** drawColor(color) blends in the default mode; fillColor(Color) asks for CLEAR. */
  datatype ColorMode = DefaultMode | ClearMode

  datatype Bitmap = Bitmap(id: nat, width: Int32, height: Int32)
  datatype MatrixRef = MatrixRef(id: nat)
  datatype PathRef = PathRef(id: nat)

  /** A paint; `transparent` is what Paint.isTransparent() answers for it. */
  datatype Paint = Paint(id: nat, transparent: bool)

  /** The path of a rotated text: one segment, moveTo then lineTo. */
  datatype Segment = Segment(x1: Int32, y1: Int32, x2: Int32, y2: Int32)

  /** The calls the wrapper makes on the platform canvas. */
  datatype Command =
    | BitmapAt(bitmap: Bitmap, left: Int32, top: Int32, colorFilter: Option<ColorFilter>)
    | BitmapWithMatrix(bitmap: Bitmap, matrix: MatrixRef, colorFilter: Option<ColorFilter>)
    | Circle(x: Int32, y: Int32, radius: Int32, paint: Paint)
    | Line(x1: Int32, y1: Int32, x2: Int32, y2: Int32, paint: Paint)
    | PathShape(path: PathRef, paint: Paint)
    | Text(text: string, x: Int32, y: Int32, paint: Paint)
    | TextOnPath(text: string, segment: Segment, hOffset: int, vOffset: int, paint: Paint)
    | ColorFill(color: int, mode: ColorMode)
    | ClipRect(left: Int32, top: Int32, right: Int32, bottom: Int32, op: RegionOp)
    | TargetBitmap(bitmap: Bitmap)

  /** Java's String.trim(): drops leading and trailing characters up to U+0020. */
  function TrimStart(s: string): string {
    if |s| > 0 && s[0] <= ' ' then TrimStart(s[1..]) else s
  }

  function TrimEnd(s: string): string {
    if |s| > 0 && s[|s| - 1] <= ' ' then TrimEnd(s[..|s| - 1]) else s
  }

  function Trim(s: string): string {
    TrimEnd(TrimStart(s))
  }

  predicate AllWhitespace(s: string) {
    forall i :: 0 <= i < |s| ==> s[i] <= ' '
  }

  lemma {:induction false} TrimStartFacts(s: string)
    ensures TrimStart(s) == [] <==> AllWhitespace(s)
    ensures TrimStart(s) != [] ==> TrimStart(s)[0] > ' '
  {
    if |s| > 0 && s[0] <= ' ' {
      TrimStartFacts(s[1..]);
      assert AllWhitespace(s) <==> AllWhitespace(s[1..]) by {
        assert forall i :: 1 <= i < |s| ==> s[i] == s[1..][i - 1];
      }
    }
  }

  lemma {:induction false} TrimEndKeepsVisibleHead(s: string)
    requires |s| > 0 && s[0] > ' '
    ensures TrimEnd(s) != []
  {
    if s[|s| - 1] <= ' ' {
      TrimEndKeepsVisibleHead(s[..|s| - 1]);
    }
  }

  /** A string is empty after trim() exactly when every character is at most U+0020. */
  lemma TrimEmptyIffWhitespace(s: string)
    ensures Trim(s) == [] <==> AllWhitespace(s)
  {
    TrimStartFacts(s);
    if TrimStart(s) != [] {
      TrimEndKeepsVisibleHead(TrimStart(s));
    }
  }

  /** The guard of drawText and drawTextRotated: `text == null || text.trim().isEmpty()`. */
  predicate IsBlank(text: Option<string>): (r: bool)
    ensures r <==> text.None? || AllWhitespace(text.value)
  {
    text.None? || (TrimEmptyIffWhitespace(text.value); Trim(text.value) == [])
  }

  /** drawCircle, drawLine and drawPath draw only with a paint that is not transparent. */
  predicate DrawsShape(paint: Paint) {
    !paint.transparent
  }

  /** The two text calls draw only non-blank text with a paint that is not transparent. */
  predicate DrawsText(text: Option<string>, paint: Paint): (r: bool)
    ensures r ==> text.Some? && |text.value| > 0 && DrawsShape(paint)
  {
    !IsBlank(text) && DrawsShape(paint)
  }

  /** Text is drawn exactly when it exists, has a character above U+0020, and the paint shows. */
  lemma DrawsTextIff(text: Option<string>, paint: Paint)
    ensures DrawsText(text, paint) <==>
      text.Some? && (exists i :: 0 <= i < |text.value| && text.value[i] > ' ') && !paint.transparent
  {
    if text.Some? {
      TrimEmptyIffWhitespace(text.value);
    }
  }

  /** setClipInternal: (left, top, width, height) becomes a rectangle, in Java `int` arithmetic. */
  function ClipCommand(left: Int32, top: Int32, width: Int32, height: Int32, op: RegionOp): (c: Command)
    ensures c.ClipRect? && c.left == left && c.top == top && c.op == op
    ensures Sub(c.right, c.left) == width && Sub(c.bottom, c.top) == height
    ensures InRange(left + width) ==> c.right == left + width
    ensures InRange(top + height) ==> c.bottom == top + height
  {
    AddThenSub(left, width);
    AddThenSub(top, height);
    ClipRect(left, top, Add(left, width), Add(top, height), op)
  }

  /** The text-on-path call of drawTextRotated: along (x1, y1) to (x2, y2), offsets 0 and 3. */
  function RotatedTextCommand(text: string, x1: Int32, y1: Int32, x2: Int32, y2: Int32, paint: Paint): (c: Command)
    ensures c.TextOnPath? && c.text == text && c.paint == paint
    ensures c.segment.x1 == x1 && c.segment.y1 == y1 && c.segment.x2 == x2 && c.segment.y2 == y2
    ensures c.hOffset == 0 && c.vOffset == 3
  {
    TextOnPath(text, Segment(x1, y1, x2, y2), 0, 3, paint)
  }

  /** The platform canvas: the commands it has received, and its size. */
  class PlatformCanvas {
    var commands: seq<Command>
    var width: Int32
    var height: Int32

    constructor (width: Int32, height: Int32)
      ensures this.commands == [] && this.width == width && this.height == height
    {
      commands := [];
      this.width := width;
      this.height := height;
    }

    method Emit(c: Command)
      modifies this`commands
      ensures commands == old(commands) + [c]
    {
      commands := commands + [c];
    }
  }

  /** How a call ends: normally, or with a NullPointerException on a destroyed canvas. */
  datatype Outcome = Completed | NullCanvas

  class AndroidCanvas {
    /** The wrapped platform canvas; null after destroy(). */
    var canvas: PlatformCanvas?
    /** The colour filter set on the bitmap paint. */
    var colorFilter: Option<ColorFilter>

    /** AndroidCanvas(): wraps a fresh platform canvas without a bitmap. */
    constructor ()
      ensures fresh(canvas) && canvas != null
      ensures canvas.commands == [] && canvas.width == 0 && canvas.height == 0
      ensures colorFilter == None
    {
      canvas := new PlatformCanvas(0, 0);
      colorFilter := None;
    }

    /** AndroidCanvas(android.graphics.Canvas). */
    constructor Wrap(c: PlatformCanvas?)
      ensures canvas == c && colorFilter == None
    {
      canvas := c;
      colorFilter := None;
    }

    /** destroy(): drops the platform canvas. */
    method Destroy()
      modifies this`canvas
      ensures canvas == null
    {
      canvas := null;
    }

    /** applyFilter: installs the filter's colour filter; NoFilter leaves the paint alone. */
    method ApplyFilter(f: Filter)
      modifies this`colorFilter
      ensures colorFilter == Applied(old(colorFilter), f)
    {
      if f == NoFilter {
        return;
      }
      match f {
        case Grayscale => colorFilter := Some(GrayscaleFilter);
        case GrayscaleInvert => colorFilter := Some(GrayscaleInvertFilter);
        case Invert => colorFilter := Some(InvertFilter);
        case NoFilter =>
      }
    }

    /** Sends one command to the platform canvas, if there still is one. */
    method Emit(c: Command) returns (o: Outcome)
      modifies canvas
      ensures o == (if canvas == null then NullCanvas else Completed)
      ensures canvas != null ==> canvas.commands == old(canvas.commands) + [c]
      ensures canvas != null ==> canvas.width == old(canvas.width) && canvas.height == old(canvas.height)
    {
      if canvas == null {
        return NullCanvas;
      }
      canvas.Emit(c);
      return Completed;
    }

    /** drawBitmap(bitmap, left, top): draws with whatever colour filter the paint holds. */
    method DrawBitmap(bitmap: Bitmap, left: Int32, top: Int32) returns (o: Outcome)
      modifies canvas
      ensures o == (if canvas == null then NullCanvas else Completed)
      ensures canvas != null ==> canvas.commands == old(canvas.commands) + [BitmapAt(bitmap, left, top, colorFilter)]
      ensures canvas != null ==> canvas.width == old(canvas.width) && canvas.height == old(canvas.height)
    {
      o := Emit(BitmapAt(bitmap, left, top, colorFilter));
    }

    /**
     * drawBitmap(bitmap, left, top, filter): applies the filter, draws, and
     * clears the colour filter unless the filter was NoFilter. On a destroyed
     * canvas the draw throws and the applied filter stays set.
     */
    method DrawBitmapFiltered(bitmap: Bitmap, left: Int32, top: Int32, f: Filter) returns (o: Outcome)
      modifies this`colorFilter, canvas
      ensures o == (if canvas == null then NullCanvas else Completed)
      ensures canvas != null ==>
        canvas.commands == old(canvas.commands) + [BitmapAt(bitmap, left, top, FilteredDraw(old(colorFilter), f).0)]
      ensures canvas != null ==> canvas.width == old(canvas.width) && canvas.height == old(canvas.height)
      ensures colorFilter == if o == Completed then FilteredDraw(old(colorFilter), f).1 else Applied(old(colorFilter), f)
    {
      ApplyFilter(f);
      o := Emit(BitmapAt(bitmap, left, top, colorFilter));
      if o == NullCanvas {
        return;
      }
      if f != NoFilter {
        colorFilter := None;
      }
    }

    /** drawBitmap(bitmap, matrix): draws with whatever colour filter the paint holds. */
    method DrawBitmapMatrix(bitmap: Bitmap, matrix: MatrixRef) returns (o: Outcome)
      modifies canvas
      ensures o == (if canvas == null then NullCanvas else Completed)
      ensures canvas != null ==> canvas.commands == old(canvas.commands) + [BitmapWithMatrix(bitmap, matrix, colorFilter)]
      ensures canvas != null ==> canvas.width == old(canvas.width) && canvas.height == old(canvas.height)
    {
      o := Emit(BitmapWithMatrix(bitmap, matrix, colorFilter));
    }

    /** drawBitmap(bitmap, matrix, filter): as the positioned filtered draw. */
    method DrawBitmapMatrixFiltered(bitmap: Bitmap, matrix: MatrixRef, f: Filter) returns (o: Outcome)
      modifies this`colorFilter, canvas
      ensures o == (if canvas == null then NullCanvas else Completed)
      ensures canvas != null ==>
        canvas.commands == old(canvas.commands) + [BitmapWithMatrix(bitmap, matrix, FilteredDraw(old(colorFilter), f).0)]
      ensures canvas != null ==> canvas.width == old(canvas.width) && canvas.height == old(canvas.height)
      ensures colorFilter == if o == Completed then FilteredDraw(old(colorFilter), f).1 else Applied(old(colorFilter), f)
    {
      ApplyFilter(f);
      o := Emit(BitmapWithMatrix(bitmap, matrix, colorFilter));
      if o == NullCanvas {
        return;
      }
      if f != NoFilter {
        colorFilter := None;
      }
    }

    /** drawCircle: nothing for a transparent paint. */
    method DrawCircle(x: Int32, y: Int32, radius: Int32, paint: Paint) returns (o: Outcome)
      modifies canvas
      ensures o == (if canvas == null && DrawsShape(paint) then NullCanvas else Completed)
      ensures canvas != null ==>
        canvas.commands == old(canvas.commands) + (if DrawsShape(paint) then [Circle(x, y, radius, paint)] else [])
      ensures canvas != null ==> canvas.width == old(canvas.width) && canvas.height == old(canvas.height)
    {
      if paint.transparent {
        return Completed;
      }
      o := Emit(Circle(x, y, radius, paint));
    }

    /** drawLine: nothing for a transparent paint. */
    method DrawLine(x1: Int32, y1: Int32, x2: Int32, y2: Int32, paint: Paint) returns (o: Outcome)
      modifies canvas
      ensures o == (if canvas == null && DrawsShape(paint) then NullCanvas else Completed)
      ensures canvas != null ==>
        canvas.commands == old(canvas.commands) + (if DrawsShape(paint) then [Line(x1, y1, x2, y2, paint)] else [])
      ensures canvas != null ==> canvas.width == old(canvas.width) && canvas.height == old(canvas.height)
    {
      if paint.transparent {
        return Completed;
      }
      o := Emit(Line(x1, y1, x2, y2, paint));
    }

    /** drawPath: nothing for a transparent paint. */
    method DrawPath(path: PathRef, paint: Paint) returns (o: Outcome)
      modifies canvas
      ensures o == (if canvas == null && DrawsShape(paint) then NullCanvas else Completed)
      ensures canvas != null ==>
        canvas.commands == old(canvas.commands) + (if DrawsShape(paint) then [PathShape(path, paint)] else [])
      ensures canvas != null ==> canvas.width == old(canvas.width) && canvas.height == old(canvas.height)
    {
      if paint.transparent {
        return Completed;
      }
      o := Emit(PathShape(path, paint));
    }

    /** drawText: nothing for null or blank text or a transparent paint; the text is drawn untrimmed. */
    method DrawText(text: Option<string>, x: Int32, y: Int32, paint: Paint) returns (o: Outcome)
      modifies canvas
      ensures o == (if canvas == null && DrawsText(text, paint) then NullCanvas else Completed)
      ensures canvas != null ==>
        canvas.commands == old(canvas.commands) + (if DrawsText(text, paint) then [Text(text.value, x, y, paint)] else [])
      ensures canvas != null ==> canvas.width == old(canvas.width) && canvas.height == old(canvas.height)
    {
      if text.None? || Trim(text.value) == [] {
        return Completed;
      }
      if paint.transparent {
        return Completed;
      }
      o := Emit(Text(text.value, x, y, paint));
    }

    /** drawTextRotated: the same guards, then text along the segment from (x1, y1) to (x2, y2). */
    method DrawTextRotated(text: Option<string>, x1: Int32, y1: Int32, x2: Int32, y2: Int32, paint: Paint) returns (o: Outcome)
      modifies canvas
      ensures o == (if canvas == null && DrawsText(text, paint) then NullCanvas else Completed)
      ensures canvas != null ==>
        canvas.commands == old(canvas.commands)
          + (if DrawsText(text, paint) then [RotatedTextCommand(text.value, x1, y1, x2, y2, paint)] else [])
      ensures canvas != null ==> canvas.width == old(canvas.width) && canvas.height == old(canvas.height)
    {
      if text.None? || Trim(text.value) == [] {
        return Completed;
      }
      if paint.transparent {
        return Completed;
      }
      var path := Segment(x1, y1, x2, y2);
      o := Emit(TextOnPath(text.value, path, 0, 3, paint));
    }

    /**
     * fillColor(Color): clears with the colour in CLEAR mode. The argument is
     * the integer AndroidGraphicFactory.getColor gives for the Color.
     */
    method FillColorClear(color: int) returns (o: Outcome)
      modifies canvas
      ensures o == (if canvas == null then NullCanvas else Completed)
      ensures canvas != null ==> canvas.commands == old(canvas.commands) + [ColorFill(color, ClearMode)]
      ensures canvas != null ==> canvas.width == old(canvas.width) && canvas.height == old(canvas.height)
    {
      o := Emit(ColorFill(color, ClearMode));
    }

    /** fillColor(int): fills with the colour in the platform's default mode. */
    method FillColor(color: int) returns (o: Outcome)
      modifies canvas
      ensures o == (if canvas == null then NullCanvas else Completed)
      ensures canvas != null ==> canvas.commands == old(canvas.commands) + [ColorFill(color, DefaultMode)]
      ensures canvas != null ==> canvas.width == old(canvas.width) && canvas.height == old(canvas.height)
    {
      o := Emit(ColorFill(color, DefaultMode));
    }

    /** resetClip: replaces the clip by the whole canvas. */
    method ResetClip() returns (o: Outcome)
      modifies canvas
      ensures o == (if canvas == null then NullCanvas else Completed)
      ensures canvas != null ==>
        canvas.commands == old(canvas.commands) + [ClipRect(0, 0, old(canvas.width), old(canvas.height), Replace)]
      ensures canvas != null ==> canvas.width == old(canvas.width) && canvas.height == old(canvas.height)
    {
      if canvas == null {
        return NullCanvas;
      }
      o := Emit(ClipRect(0, 0, canvas.width, canvas.height, Replace));
    }

    /** setBitmap: the platform canvas now draws into the bitmap and takes its size. */
    method SetBitmap(bitmap: Bitmap) returns (o: Outcome)
      modifies canvas
      ensures o == (if canvas == null then NullCanvas else Completed)
      ensures canvas != null ==> canvas.commands == old(canvas.commands) + [TargetBitmap(bitmap)]
      ensures canvas != null ==> canvas.width == bitmap.width && canvas.height == bitmap.height
    {
      if canvas == null {
        return NullCanvas;
      }
      canvas.Emit(TargetBitmap(bitmap));
      canvas.width, canvas.height := bitmap.width, bitmap.height;
      return Completed;
    }

    /** setClip: replaces the clip by the rectangle. */
    method SetClip(left: Int32, top: Int32, width: Int32, height: Int32) returns (o: Outcome)
      modifies canvas
      ensures o == (if canvas == null then NullCanvas else Completed)
      ensures canvas != null ==> canvas.commands == old(canvas.commands) + [ClipCommand(left, top, width, height, Replace)]
      ensures canvas != null ==> canvas.width == old(canvas.width) && canvas.height == old(canvas.height)
    {
      o := SetClipInternal(left, top, width, height, Replace);
    }

    /** setClipDifference: removes the rectangle from the clip. */
    method SetClipDifference(left: Int32, top: Int32, width: Int32, height: Int32) returns (o: Outcome)
      modifies canvas
      ensures o == (if canvas == null then NullCanvas else Completed)
      ensures canvas != null ==> canvas.commands == old(canvas.commands) + [ClipCommand(left, top, width, height, Difference)]
      ensures canvas != null ==> canvas.width == old(canvas.width) && canvas.height == old(canvas.height)
    {
      o := SetClipInternal(left, top, width, height, Difference);
    }

    method SetClipInternal(left: Int32, top: Int32, width: Int32, height: Int32, op: RegionOp) returns (o: Outcome)
      modifies canvas
      ensures o == (if canvas == null then NullCanvas else Completed)
      ensures canvas != null ==> canvas.commands == old(canvas.commands) + [ClipCommand(left, top, width, height, op)]
      ensures canvas != null ==> canvas.width == old(canvas.width) && canvas.height == old(canvas.height)
    {
      o := Emit(ClipRect(left, top, Add(left, width), Add(top, height), op));
    }
  }
}
