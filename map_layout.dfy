/**
 * Geo-anchored layout of MapView's child views: the layout parameters a child
 * carries (a geographic position and one of nine alignments) and the layout
 * pass that turns the projected position into the child's pixel rectangle.
 */
module MapLayout {
  import opened Wrappers
  import opened JavaInt

  /** The nine alignments a child may request relative to its anchor point. */
  datatype Alignment =
    | TopLeft | TopCenter | TopRight
    | CenterLeft | Center | CenterRight
    | BottomLeft | BottomCenter | BottomRight

  /** The column and the row of the 3x3 alignment grid. */
  datatype Column = Left | Middle | Right
  datatype Row = Top | Centre | Bottom

  function ColumnOf(a: Alignment): Column {
    match a
    case TopLeft | CenterLeft | BottomLeft => Left
    case TopCenter | Center | BottomCenter => Middle
    case TopRight | CenterRight | BottomRight => Right
  }

  function RowOf(a: Alignment): Row {
    match a
    case TopLeft | TopCenter | TopRight => Top
    case CenterLeft | Center | CenterRight => Centre
    case BottomLeft | BottomCenter | BottomRight => Bottom
  }

  /** How far left of the anchor the child's left edge lies, by column. */
  function ColumnOffset(c: Column, width: Size32): Size32 {
    match c
    case Left => 0
    case Middle => width / 2
    case Right => width
  }

  /** How far above the anchor the child's top edge lies, by row. */
  function RowOffset(r: Row, height: Size32): Size32 {
    match r
    case Top => 0
    case Centre => height / 2
    case Bottom => height
  }

  /** A geographic position; the projection that maps it to pixels is a parameter. */
  datatype LatLong = LatLong(latitude: real, longitude: real)

  /** A projected pixel position, already rounded to Java `int`s. */
  datatype Pixel = Pixel(x: Int32, y: Int32)

  /**
   * The layout parameters of a child: MapView.LayoutParams (width and height
   * specs, a nullable position, a nullable alignment) or the parameters of
   * some other container.
   */
  datatype Params =
    | MapParams(width: int, height: int, latLong: Option<LatLong>, alignment: Option<Alignment>)
    | OtherParams(width: int, height: int)

  /** ViewGroup.LayoutParams.WRAP_CONTENT. */
  const WRAP_CONTENT: int := -2

  /** LayoutParams(Context, AttributeSet): the sizes come from the XML attributes. */
  function InflatedParams(width: int, height: int): (p: Params)
    ensures p.MapParams? && p.width == width && p.height == height
    ensures p.alignment == Some(BottomCenter) && p.latLong == None
  {
    MapParams(width, height, None, Some(BottomCenter))
  }

  /** LayoutParams(int, int, LatLong, Alignment). */
  function NewParams(width: int, height: int, latLong: Option<LatLong>, alignment: Option<Alignment>): (p: Params)
    ensures p.MapParams? && p.width == width && p.height == height
    ensures p.latLong == latLong && p.alignment == alignment
  {
    MapParams(width, height, latLong, alignment)
  }

  /** LayoutParams(ViewGroup.LayoutParams): copies the sizes and sets neither position nor alignment. */
  function ConvertedParams(source: Params): (p: Params)
    ensures p.MapParams? && p.width == source.width && p.height == source.height
    ensures p.latLong == None && p.alignment == None
  {
    MapParams(source.width, source.height, None, None)
  }

  /** generateDefaultLayoutParams(): wrap-content sizes, no position, bottom-center. */
  function DefaultParams(): (p: Params)
    ensures p.MapParams? && p.width == WRAP_CONTENT && p.height == WRAP_CONTENT
    ensures p.latLong == None && p.alignment == Some(BottomCenter)
  {
    NewParams(WRAP_CONTENT, WRAP_CONTENT, None, Some(BottomCenter))
  }

  /** checkLayoutParams: only MapView.LayoutParams are accepted. */
  predicate CheckLayoutParams(p: Params) {
    p.MapParams?
  }

  datatype Visibility = Visible | Invisible | Gone

  /** A child view as the layout pass sees it. */
  datatype Child = Child(visibility: Visibility, params: Params, measuredWidth: Size32, measuredHeight: Size32)

  /** The rectangle passed to `child.layout(l, t, r, b)`. */
  datatype Rect = Rect(left: Int32, top: Int32, right: Int32, bottom: Int32)

  /** One `child.layout` call: which child, and where. */
  datatype LayoutCall = LayoutCall(index: nat, rect: Rect)

  /**
   * The alignment switch: the top-left corner for an anchor at (x, y). Each
   * case subtracts exactly what the source subtracts, in Java arithmetic.
   */
  function AlignedCorner(a: Alignment, x: Int32, y: Int32, w: Size32, h: Size32): (corner: (Int32, Int32))
    ensures corner.0 == Sub(x, ColumnOffset(ColumnOf(a), w))
    ensures corner.1 == Sub(y, RowOffset(RowOf(a), h))
  {
    match a
    case TopLeft => (x, y)
    case TopCenter => (Sub(x, w / 2), y)
    case TopRight => (Sub(x, w), y)
    case CenterLeft => (x, Sub(y, h / 2))
    case Center => (Sub(x, w / 2), Sub(y, h / 2))
    case CenterRight => (Sub(x, w), Sub(y, h / 2))
    case BottomLeft => (x, Sub(y, h))
    case BottomCenter => (Sub(x, w / 2), Sub(y, h))
    case BottomRight => (Sub(x, w), Sub(y, h))
  }

  /** The anchor: the projected point shifted by the view's left and top padding. */
  function Anchor(p: Pixel, paddingLeft: Int32, paddingTop: Int32): (anchor: Pixel)
    ensures Sub(anchor.x, paddingLeft) == p.x && Sub(anchor.y, paddingTop) == p.y
    ensures InRange(paddingLeft + p.x) ==> anchor.x == paddingLeft + p.x
    ensures InRange(paddingTop + p.y) ==> anchor.y == paddingTop + p.y
  {
    AddThenSub(paddingLeft, p.x);
    AddThenSub(paddingTop, p.y);
    Pixel(Add(paddingLeft, p.x), Add(paddingTop, p.y))
  }

  /**
   * The rectangle of a laid-out child. In Java arithmetic it is exactly
   * `w` wide and `h` tall, and the anchor sits at the alignment's column and
   * row offset from its top-left corner.
   */
  function ChildRect(p: Pixel, paddingLeft: Int32, paddingTop: Int32, a: Alignment, w: Size32, h: Size32): (r: Rect)
    ensures Sub(r.right, r.left) == w && Sub(r.bottom, r.top) == h
    ensures Add(r.left, ColumnOffset(ColumnOf(a), w)) == Add(paddingLeft, p.x)
    ensures Add(r.top, RowOffset(RowOf(a), h)) == Add(paddingTop, p.y)
  {
    var anchor := Anchor(p, paddingLeft, paddingTop);
    var (left, top) := AlignedCorner(a, anchor.x, anchor.y, w, h);
    AddThenSub(left, w);
    AddThenSub(top, h);
    SubThenAdd(anchor.x, ColumnOffset(ColumnOf(a), w));
    SubThenAdd(anchor.y, RowOffset(RowOf(a), h));
    Rect(left, top, Add(left, w), Add(top, h))
  }

  /** When nothing overflows, the rectangle is given by exact integer arithmetic. */
  lemma ChildRectExact(p: Pixel, paddingLeft: Int32, paddingTop: Int32, a: Alignment, w: Size32, h: Size32)
    requires InRange(paddingLeft + p.x) && InRange(paddingTop + p.y)
    requires InRange(paddingLeft + p.x - ColumnOffset(ColumnOf(a), w))
    requires InRange(paddingTop + p.y - RowOffset(RowOf(a), h))
    requires InRange(paddingLeft + p.x - ColumnOffset(ColumnOf(a), w) + w)
    requires InRange(paddingTop + p.y - RowOffset(RowOf(a), h) + h)
    ensures var r := ChildRect(p, paddingLeft, paddingTop, a, w, h);
      && r.left == paddingLeft + p.x - ColumnOffset(ColumnOf(a), w)
      && r.top == paddingTop + p.y - RowOffset(RowOf(a), h)
      && r.right == r.left + w && r.bottom == r.top + h
  {
  }

  /** Bottom-center (the default): the anchor is the midpoint of the bottom edge. */
  lemma BottomCenterAnchorsBottomMidpoint(p: Pixel, paddingLeft: Int32, paddingTop: Int32, w: Size32, h: Size32)
    requires InRange(paddingLeft + p.x) && InRange(paddingTop + p.y)
    requires InRange(paddingLeft + p.x - w / 2) && InRange(paddingTop + p.y - h)
    requires InRange(paddingLeft + p.x - w / 2 + w)
    ensures var r := ChildRect(p, paddingLeft, paddingTop, BottomCenter, w, h);
      && r.bottom == paddingTop + p.y
      && r.left + w / 2 == paddingLeft + p.x
      && r.right - r.left == w && r.bottom - r.top == h
  {
    ChildRectExact(p, paddingLeft, paddingTop, BottomCenter, w, h);
  }

  /** Top-left: the anchor is the top-left corner. */
  lemma TopLeftAnchorsCorner(p: Pixel, paddingLeft: Int32, paddingTop: Int32, w: Size32, h: Size32)
    ensures var r := ChildRect(p, paddingLeft, paddingTop, TopLeft, w, h);
      r.left == Add(paddingLeft, p.x) && r.top == Add(paddingTop, p.y)
  {
    var r := ChildRect(p, paddingLeft, paddingTop, TopLeft, w, h);
    assert Add(r.left, 0) == r.left;
    assert Add(r.top, 0) == r.top;
  }

  /** What the layout pass does with one child. */
  datatype StepOutcome =
    | Skipped
    | Placed(call: LayoutCall)
      /** `switch (params.alignment)` on a null alignment: NullPointerException. */
    | AlignmentMissing

  /** The view's padding and the projection the layout pass uses. */
  datatype Env = Env(paddingLeft: Int32, paddingTop: Int32, toPixels: Option<LatLong> -> Option<Pixel>)

  /** One iteration of onLayout's loop, for the child at index `i`. */
  function Step(c: Child, i: nat, env: Env): (o: StepOutcome)
    ensures !o.Skipped? <==>
      c.visibility != Gone && CheckLayoutParams(c.params) && env.toPixels(c.params.latLong).Some?
    ensures o.AlignmentMissing? ==> c.params.alignment.None?
    ensures o.Placed? ==>
      && o.call.index == i && c.params.alignment.Some?
      && Sub(o.call.rect.right, o.call.rect.left) == c.measuredWidth
      && Sub(o.call.rect.bottom, o.call.rect.top) == c.measuredHeight
  {
    if c.visibility == Gone || !CheckLayoutParams(c.params) then Skipped
    else match env.toPixels(c.params.latLong)
      case None => Skipped
      case Some(p) =>
        match c.params.alignment
        case None => AlignmentMissing
        case Some(a) => Placed(LayoutCall(i, ChildRect(p, env.paddingLeft, env.paddingTop, a, c.measuredWidth, c.measuredHeight)))
  }

  /** Every call a step asks for names the position of that step. */
  predicate WellIndexed(steps: seq<StepOutcome>) {
    forall i :: 0 <= i < |steps| && steps[i].Placed? ==> steps[i].call.index == i
  }

  /** The outcome of every child's step, in child order. */
  function Steps(cs: seq<Child>, env: Env): (s: seq<StepOutcome>)
    ensures |s| == |cs| && forall i :: 0 <= i < |cs| ==> s[i] == Step(cs[i], i, env)
    ensures WellIndexed(s)
  {
    seq(|cs|, i requires 0 <= i < |cs| => Step(cs[i], i, env))
  }

  /**
   * The calls issued by a layout pass and, when a child's missing alignment
   * aborted the pass, that child's index.
   */
  datatype Pass = Pass(calls: seq<LayoutCall>, aborted: Option<nat>)

  /** The pass over the first `n` step outcomes. */
  function Run(steps: seq<StepOutcome>, n: nat): (p: Pass)
    requires n <= |steps|
    ensures |p.calls| <= Reached(p, n) <= n
  {
    if n == 0 then Pass([], None)
    else
      var p := Run(steps, n - 1);
      if p.aborted.Some? then p
      else match steps[n - 1]
        case Skipped => p
        case Placed(call) => Pass(p.calls + [call], None)
        case AlignmentMissing => Pass(p.calls, Some(n - 1))
  }

  /** One more step of a pass that has not aborted. */
  lemma RunExtend(steps: seq<StepOutcome>, n: nat)
    requires n < |steps| && Run(steps, n).aborted.None?
    ensures Run(steps, n + 1) == match steps[n]
      case Skipped => Run(steps, n)
      case Placed(call) => Pass(Run(steps, n).calls + [call], None)
      case AlignmentMissing => Pass(Run(steps, n).calls, Some(n))
  {
  }

  /** The layout pass over all children. */
  function LayoutPass(cs: seq<Child>, env: Env): (p: Pass)
    ensures |p.calls| <= Reached(p, |cs|) <= |cs|
  {
    Run(Steps(cs, env), |cs|)
  }

  /** The children the pass reached: all of them, or those before the aborting one. */
  function Reached(p: Pass, n: nat): nat {
    if p.aborted.Some? then p.aborted.value else n
  }

  /**
   * The calls of a pass come in strictly increasing step order, each is the
   * call its step asks for, and none comes from beyond the aborting step.
   */
  lemma {:induction false} RunOrdered(steps: seq<StepOutcome>, n: nat)
    requires n <= |steps| && WellIndexed(steps)
    ensures var p := Run(steps, n);
      && Reached(p, n) <= n
      && (forall j, k :: 0 <= j < k < |p.calls| ==> p.calls[j].index < p.calls[k].index)
      && (forall j :: 0 <= j < |p.calls| ==>
            p.calls[j].index < Reached(p, n) && steps[p.calls[j].index] == Placed(p.calls[j]))
  {
    if n > 0 {
      RunOrdered(steps, n - 1);
    }
  }

  /** Every reached step that places its child has a call in the pass. */
  lemma {:induction false} RunComplete(steps: seq<StepOutcome>, n: nat)
    requires n <= |steps|
    ensures var p := Run(steps, n);
      Reached(p, n) <= n &&
      forall i :: 0 <= i < Reached(p, n) && steps[i].Placed? ==>
        exists j :: 0 <= j < |p.calls| && p.calls[j].index == steps[i].call.index
  {
    if n > 0 {
      RunComplete(steps, n - 1);
      var q := Run(steps, n - 1);
      var p := Run(steps, n);
      if q.aborted.None? && steps[n - 1].Placed? {
        assert p.calls == q.calls + [steps[n - 1].call];
        forall i | 0 <= i < n && steps[i].Placed?
          ensures exists j :: 0 <= j < |p.calls| && p.calls[j].index == steps[i].call.index
        {
          if i == n - 1 {
            assert p.calls[|q.calls|] == steps[i].call;
          } else {
            var j :| 0 <= j < |q.calls| && q.calls[j].index == steps[i].call.index;
            assert p.calls[j] == q.calls[j];
          }
        }
      }
    }
  }

  /** A pass aborts at the first step with a missing alignment, and only there. */
  lemma {:induction false} RunAborts(steps: seq<StepOutcome>, n: nat)
    requires n <= |steps|
    ensures var p := Run(steps, n);
      && (p.aborted.Some? ==> p.aborted.value < n && steps[p.aborted.value].AlignmentMissing?)
      && (forall i :: 0 <= i < Reached(p, n) ==> !steps[i].AlignmentMissing?)
  {
    if n > 0 {
      RunAborts(steps, n - 1);
    }
  }

  /** Once the pass has aborted, later steps change nothing. */
  lemma {:induction false} AbortedRunIsFinal(steps: seq<StepOutcome>, k: nat, n: nat)
    requires k <= n <= |steps|
    requires Run(steps, k).aborted.Some?
    ensures Run(steps, n) == Run(steps, k)
  {
    if n > k {
      AbortedRunIsFinal(steps, k, n - 1);
    }
  }

  /** A gone child, a child with foreign parameters, or one without projection is never laid out. */
  lemma SkippedChildNotLaidOut(cs: seq<Child>, i: nat, env: Env)
    requires i < |cs|
    requires cs[i].visibility == Gone || !CheckLayoutParams(cs[i].params) || env.toPixels(cs[i].params.latLong).None?
    ensures forall call :: call in LayoutPass(cs, env).calls ==> call.index != i
  {
    var steps := Steps(cs, env);
    RunOrdered(steps, |cs|);
    forall call | call in LayoutPass(cs, env).calls
      ensures call.index != i
    {
      var calls := LayoutPass(cs, env).calls;
      var j :| 0 <= j < |calls| && calls[j] == call;
      assert steps[call.index] == Placed(call);
      assert steps[i] == Skipped;
    }
  }

  /**
   * A child that is not gone, with map parameters, an alignment and a
   * projected position, is laid out exactly once, at its ChildRect, unless
   * the pass aborted.
   */
  lemma PlacedChildLaidOutOnce(cs: seq<Child>, i: nat, env: Env, p: Pixel, a: Alignment)
    requires i < |cs|
    requires cs[i].visibility != Gone && cs[i].params.MapParams?
    requires env.toPixels(cs[i].params.latLong) == Some(p) && cs[i].params.alignment == Some(a)
    requires LayoutPass(cs, env).aborted.None?
    ensures var calls := LayoutPass(cs, env).calls;
      exists j :: 0 <= j < |calls|
        && calls[j] == LayoutCall(i, ChildRect(p, env.paddingLeft, env.paddingTop, a, cs[i].measuredWidth, cs[i].measuredHeight))
        && forall k :: 0 <= k < |calls| && k != j ==> calls[k].index != i
  {
    var steps := Steps(cs, env);
    RunOrdered(steps, |cs|);
    RunComplete(steps, |cs|);
    var calls := LayoutPass(cs, env).calls;
    assert steps[i].Placed? && steps[i].call.index == i;
    var j :| 0 <= j < |calls| && calls[j].index == i;
    assert steps[i] == Placed(calls[j]);
    forall k | 0 <= k < |calls| && k != j
      ensures calls[k].index != i
    {
      if k < j {
        assert calls[k].index < calls[j].index;
      } else {
        assert calls[j].index < calls[k].index;
      }
    }
  }

  /**
   * Parameters converted from another container's carry no alignment: once
   * a position is set on them and it projects, the pass stops at that child,
   * unless an earlier child stopped it.
   */
  lemma ConvertedParamsAbortPass(cs: seq<Child>, i: nat, env: Env, source: Params, ll: LatLong)
    requires i < |cs| && cs[i].visibility != Gone
    requires cs[i].params.MapParams? && cs[i].params.(latLong := None) == ConvertedParams(source)
    requires cs[i].params.latLong == Some(ll) && env.toPixels(Some(ll)).Some?
    ensures var p := LayoutPass(cs, env);
      p.aborted.Some? && p.aborted.value <= i
  {
    var steps := Steps(cs, env);
    RunAborts(steps, |cs|);
    assert steps[i] == AlignmentMissing;
  }

  /**
   * A child with default or inflated parameters, once it is given a position
   * that projects, is placed with its bottom-center at the anchor.
   */
  lemma DefaultAlignmentIsBottomCenter(c: Child, i: nat, env: Env, ll: LatLong, p: Pixel, w: int, h: int)
    requires c.visibility != Gone && env.toPixels(Some(ll)) == Some(p)
    requires c.params.MapParams? && c.params.latLong == Some(ll)
    requires c.params.(latLong := None) == DefaultParams() || c.params.(latLong := None) == InflatedParams(w, h)
    ensures Step(c, i, env)
      == Placed(LayoutCall(i, ChildRect(p, env.paddingLeft, env.paddingTop, BottomCenter, c.measuredWidth, c.measuredHeight)))
  {
  }

  /**
   * The body of onLayout's loop for the child at index `i`: skips it, or
   * computes its rectangle from its projected position and alignment.
   */
  method LayoutChild(child: Child, i: nat, env: Env) returns (outcome: StepOutcome)
    ensures outcome == Step(child, i, env)
  {
    outcome := Skipped;
    if child.visibility != Gone && CheckLayoutParams(child.params) {
      var params := child.params;
      var childWidth := child.measuredWidth;
      var childHeight := child.measuredHeight;
      var point := env.toPixels(params.latLong);
      if point.Some? {
        var childLeft := Add(env.paddingLeft, point.value.x);
        var childTop := Add(env.paddingTop, point.value.y);
        match params.alignment {
          case None =>
            outcome := AlignmentMissing;
          case Some(TopLeft) =>
          case Some(TopCenter) =>
            childLeft := Sub(childLeft, childWidth / 2);
          case Some(TopRight) =>
            childLeft := Sub(childLeft, childWidth);
          case Some(CenterLeft) =>
            childTop := Sub(childTop, childHeight / 2);
          case Some(Center) =>
            childLeft := Sub(childLeft, childWidth / 2);
            childTop := Sub(childTop, childHeight / 2);
          case Some(CenterRight) =>
            childLeft := Sub(childLeft, childWidth);
            childTop := Sub(childTop, childHeight / 2);
          case Some(BottomLeft) =>
            childTop := Sub(childTop, childHeight);
          case Some(BottomCenter) =>
            childLeft := Sub(childLeft, childWidth / 2);
            childTop := Sub(childTop, childHeight);
          case Some(BottomRight) =>
            childLeft := Sub(childLeft, childWidth);
            childTop := Sub(childTop, childHeight);
        }
        if params.alignment.Some? {
          outcome := Placed(LayoutCall(i, Rect(childLeft, childTop, Add(childLeft, childWidth), Add(childTop, childHeight))));
        }
      }
    }
  }

  /** Adds one child's outcome to the calls issued so far. */
  method Record(calls: seq<LayoutCall>, outcome: StepOutcome, i: nat) returns (calls': seq<LayoutCall>, aborted: Option<nat>)
    ensures Pass(calls', aborted) == match outcome
      case Skipped => Pass(calls, None)
      case Placed(call) => Pass(calls + [call], None)
      case AlignmentMissing => Pass(calls, Some(i))
  {
    calls', aborted := calls, None;
    match outcome {
      case Skipped =>
      case Placed(call) =>
        calls' := calls + [call];
      case AlignmentMissing =>
        aborted := Some(i);
    }
  }

  /**
   * onLayout: walks the children in index order and issues one layout call
   * per child that is not gone, carries MapView.LayoutParams and has a
   * projected position. A null alignment stops the pass, as the exception
   * the switch throws would.
   */
  method OnLayout(children: seq<Child>, env: Env) returns (calls: seq<LayoutCall>, aborted: Option<nat>)
    ensures Pass(calls, aborted) == LayoutPass(children, env)
  {
    calls, aborted := [], None;
    var count := |children|;
    ghost var steps := Steps(children, env);
    assert |steps| == count;
    var i := 0;
    while i < count && aborted.None?
      invariant 0 <= i <= count
      invariant Pass(calls, aborted) == Run(steps, i)
    {
      var outcome := LayoutChild(children[i], i, env);
      assert outcome == steps[i];
      calls, aborted := Record(calls, outcome, i);
      RunExtend(steps, i);
      i := i + 1;
    }
    if aborted.Some? {
      AbortedRunIsFinal(steps, i, count);
    }
  }
}
