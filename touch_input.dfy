/**
 * MapView's touch input path: the inverse-rotation correction applied in
 * dispatchTouchEvent, and the routing of an event to the gesture
 * recognizers in onTouchEvent. Recognizers are abstract: what they answer,
 * and whether a scale gesture is in progress, are inputs.
 */
module TouchInput {
  import opened Wrappers
  import opened JavaInt

  /**
   * The state of the view's reusable rotation matrix, without its numbers:
   * the identity, or a rotation by `degrees` about a pivot.
   */
  datatype Matrix = Identity | Rotation(degrees: real, pivotX: int, pivotY: int)

  /** A motion event, with the matrices applied to its coordinates so far. */
  datatype MotionEvent = MotionEvent(id: nat, transforms: seq<Matrix>)

  /** Matrix.reset(). */
  function Reset(m: Matrix): Matrix {
    Identity
  }

  /** Matrix.setRotate(degrees, px, py): replaces the whole matrix. */
  function SetRotate(m: Matrix, degrees: real, px: int, py: int): Matrix {
    Rotation(degrees, px, py)
  }

  /** MotionEvent.transform(m). */
  function Transform(e: MotionEvent, m: Matrix): MotionEvent {
    e.(transforms := e.transforms + [m])
  }

  /** The matrix field after the call and the event handed to the superclass. */
  datatype Dispatch = Dispatch(matrix: Matrix, forwarded: MotionEvent)

  /**
   * dispatchTouchEvent: with a non-zero map rotation, the matrix is reset,
   * set to rotate by the negated rotation about the view's centre (Java
   * `int` halves of width and height), and applied to the event once.
   */
  function DispatchTouchEvent(rotation: real, width: Int32, height: Int32, matrix: Matrix, e: MotionEvent): (d: Dispatch)
    ensures rotation == 0.0 ==> d.forwarded == e && d.matrix == matrix
    ensures rotation != 0.0 ==>
      && d.matrix == Rotation(-rotation, Half(width), Half(height))
      && d.forwarded.id == e.id
      && d.forwarded.transforms == e.transforms + [d.matrix]
  {
    if rotation != 0.0 then
      var m := SetRotate(Reset(matrix), -rotation, Half(width), Half(height));
      Dispatch(m, Transform(e, m))
    else
      Dispatch(matrix, e)
  }

  /**
   * The rotation never accumulates: what is forwarded does not depend on the
   * matrix left behind by earlier events, and each dispatch adds at most one
   * transform to the event.
   */
  lemma DispatchIsStateless(rotation: real, width: Int32, height: Int32, m1: Matrix, m2: Matrix, e: MotionEvent)
    ensures DispatchTouchEvent(rotation, width, height, m1, e).forwarded
         == DispatchTouchEvent(rotation, width, height, m2, e).forwarded
    ensures |DispatchTouchEvent(rotation, width, height, m1, e).forwarded.transforms|
         == |e.transforms| + (if rotation == 0.0 then 0 else 1)
  {
  }

  /**
   * Undoing a map rotation: the pivot is the view's centre, rounded toward
   * zero as Java does, so for a view of even size it is the exact centre.
   */
  lemma PivotIsCentre(rotation: real, width: Size32, height: Size32, matrix: Matrix, e: MotionEvent)
    requires rotation != 0.0
    requires width % 2 == 0 && height % 2 == 0
    ensures var d := DispatchTouchEvent(rotation, width, height, matrix, e);
      d.matrix.Rotation? && 2 * d.matrix.pivotX == width && 2 * d.matrix.pivotY == height
      && d.matrix.degrees + rotation == 0.0
  {
  }

  /** The recognizers an event can reach. */
  datatype Recognizer = ExternalDetector | ScaleDetector | GestureDetector

  /**
   * What the collaborators do with this event: whether the view is
   * clickable, the answer of the external gesture detector if one is set,
   * the answers of the scale and gesture detectors, and whether a scale
   * gesture is in progress once the scale detector has seen the event.
   */
  datatype Detectors = Detectors(
    clickable: bool,
    external: Option<bool>,
    scaleAnswer: bool,
    scaleInProgress: bool,
    gestureAnswer: bool)

  function Answer(d: Detectors, r: Recognizer): bool {
    match r
    case ExternalDetector => d.external == Some(true)
    case ScaleDetector => d.scaleAnswer
    case GestureDetector => d.gestureAnswer
  }

  /** The result of onTouchEvent and the recognizers that saw the event, in order. */
  datatype Routing = Routing(handled: bool, seenBy: seq<Recognizer>)

  function Rank(r: Recognizer): nat {
    match r
    case ExternalDetector => 0
    case ScaleDetector => 1
    case GestureDetector => 2
  }

  /**
   * onTouchEvent. The returned value is the answer of the last recognizer
   * that saw the event (false if none did); recognizers are consulted in the
   * order external, scale, gesture, each at most once.
   */
  function OnTouchEvent(d: Detectors): (r: Routing)
    ensures r.handled == (r.seenBy != [] && Answer(d, r.seenBy[|r.seenBy| - 1]))
    ensures forall i, j :: 0 <= i < j < |r.seenBy| ==> Rank(r.seenBy[i]) < Rank(r.seenBy[j])
    ensures !d.clickable ==> r.seenBy == []
    ensures (ExternalDetector in r.seenBy) == (d.clickable && d.external.Some?)
    ensures (ScaleDetector in r.seenBy) == (d.clickable && d.external != Some(true))
    ensures (GestureDetector in r.seenBy) == (ScaleDetector in r.seenBy && !d.scaleInProgress)
  {
    if !d.clickable then Routing(false, [])
    else
      var external := if d.external.Some? then [ExternalDetector] else [];
      if d.external == Some(true) then Routing(true, external)
      else
        if !d.scaleInProgress then Routing(d.gestureAnswer, external + [ScaleDetector, GestureDetector])
        else Routing(d.scaleAnswer, external + [ScaleDetector])
  }

  /** A consuming external detector decides alone; otherwise the internal detectors decide. */
  lemma ExternalDetectorShortCircuits(d: Detectors)
    requires d.clickable
    ensures d.external == Some(true) ==> OnTouchEvent(d) == Routing(true, [ExternalDetector])
    ensures d.external != Some(true) ==>
      OnTouchEvent(d).handled == (if d.scaleInProgress then d.scaleAnswer else d.gestureAnswer)
  {
  }
}
