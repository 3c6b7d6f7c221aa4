# mapsforge MapView and AndroidCanvas, modelled in Dafny

This project models two classes of the mapsforge Android map view:

- **MapView**, a `ViewGroup` that shows the map. The model covers:
  - the layout parameters of its child views: a geographic position and one of nine alignments;
  - the `onLayout` pass that places each child relative to the projected position;
  - the rotation correction that `dispatchTouchEvent` applies to touch events;
  - the routing of events to the gesture detectors in `onTouchEvent`;
  - teardown in `destroy` and `destroyAll`.
- **AndroidCanvas**, the drawing context that layers paint into. The model covers:
  - the colour filter switched on and off around filtered bitmap draws;
  - the guards that skip transparent paints and blank text;
  - the clip calls;
  - the fills;
  - what happens once `destroy` has dropped the platform canvas.

Modules:

- `JavaInt` (`java_int.dfy`) writes out Java's 32-bit `int` arithmetic. `+` and `-` wrap around modulo 2^32, and `/` truncates toward zero. The layout and clip arithmetic use it, so a position near `Integer.MAX_VALUE` behaves as it does in Java. It also proves that `(a - b) + b == a` and `(a + b) - a == b` hold in that arithmetic.
- `MapLayout` (`map_layout.dfy`) covers `MapView.LayoutParams`, `checkLayoutParams`, the `generate*LayoutParams` factories and `onLayout`.
  - The child views, their measured sizes, the padding and the projection are inputs.
  - `OnLayout` returns the list of `child.layout(...)` calls, in the order they are made.
  - A child whose alignment is null makes the `switch` throw a `NullPointerException`. This stops the pass, so `OnLayout` also returns the index of that child.
- `TouchInput` (`touch_input.dfy`) covers `dispatchTouchEvent` and `onTouchEvent`.
  - A matrix is modelled by its rotation and pivot, not by its numbers.
  - The detectors' answers, and whether a scale gesture is in progress, are inputs.
- `Lifecycle` (`lifecycle.dfy`) is a `MapView` class holding a layer list and a trace of the calls the view makes on its collaborators while tearing down.
- `AndroidGraphics` (`android_canvas.dfy`) is an `AndroidCanvas` class.
  - It holds a nullable platform canvas, modelled as the log of commands it has received plus its size.
  - It holds the colour filter set on the bitmap paint.
  - Each call returns `Completed`, or `NullCanvas` when it would dereference a destroyed canvas.

### Teardown order and calls after destroy

- `destroyAll` tears down every layer before `destroy()` interrupts the layer manager's thread (MapView.java:177-190). `Lifecycle.LayersCleanedBeforeInterrupt` proves this order.
- After `AndroidCanvas.destroy`, every call that reaches the platform canvas throws a `NullPointerException`. Calls that an early guard returns from do not throw. In the model the throwing calls return `NullCanvas`.

## Model

| member | source | states |
|---|---|---|
| MapLayout.InflatedParams | mapsforge-map-android/src/main/java/org/mapsforge/map/android/view/MapView.java:80-83 | parameters inflated from XML are MapView parameters with no position and the BOTTOM_CENTER alignment |
| MapLayout.NewParams | mapsforge-map-android/src/main/java/org/mapsforge/map/android/view/MapView.java:93-97 | the four-argument constructor keeps the given sizes, position and alignment, nulls included |
| MapLayout.ConvertedParams | mapsforge-map-android/src/main/java/org/mapsforge/map/android/view/MapView.java:99-101 | parameters converted from another container keep its sizes and have neither a position nor an alignment |
| MapLayout.DefaultParams | mapsforge-map-android/src/main/java/org/mapsforge/map/android/view/MapView.java:195-198 | the default parameters are WRAP_CONTENT by WRAP_CONTENT, with no position and the BOTTOM_CENTER alignment |
| MapLayout.CheckLayoutParams | mapsforge-map-android/src/main/java/org/mapsforge/map/android/view/MapView.java:154-156 | only MapView.LayoutParams are accepted |
| MapLayout.AlignedCorner | mapsforge-map-android/src/main/java/org/mapsforge/map/android/view/MapView.java:288-319 | each of the nine cases moves the anchor left by 0, half or all of the width, according to its column, and up by 0, half or all of the height, according to its row, in Java `int` arithmetic |
| MapLayout.Anchor | mapsforge-map-android/src/main/java/org/mapsforge/map/android/view/MapView.java:286-287 | the anchor is the projected point shifted by the padding; subtracting the padding in Java arithmetic gives the point back, and without overflow the sums are exact |
| MapLayout.ChildRect | mapsforge-map-android/src/main/java/org/mapsforge/map/android/view/MapView.java:286-320 | the rectangle is exactly the measured width and height in Java arithmetic; the padded anchor lies at the alignment's column and row offset from its top-left corner |
| MapLayout.ChildRectExact | mapsforge-map-android/src/main/java/org/mapsforge/map/android/view/MapView.java:286-320 | when no sum overflows, the rectangle's edges are the padded anchor minus the alignment offset, plus the size |
| MapLayout.BottomCenterAnchorsBottomMidpoint | mapsforge-map-android/src/main/java/org/mapsforge/map/android/view/MapView.java:311-314 | with BOTTOM_CENTER and no overflow, the anchor is the midpoint of the child's bottom edge |
| MapLayout.TopLeftAnchorsCorner | mapsforge-map-android/src/main/java/org/mapsforge/map/android/view/MapView.java:289-290 | with TOP_LEFT, the anchor is the child's top-left corner, for every input |
| MapLayout.DefaultAlignmentIsBottomCenter | mapsforge-map-android/src/main/java/org/mapsforge/map/android/view/MapView.java:80-83 | a child with default or inflated parameters and a position that projects is placed with BOTTOM_CENTER |
| MapLayout.Steps | mapsforge-map-android/src/main/java/org/mapsforge/map/android/view/MapView.java:277-323 | there is one outcome per child, in child order, and every call a step asks for names that step's child |
| MapLayout.Step | mapsforge-map-android/src/main/java/org/mapsforge/map/android/view/MapView.java:279-321 | a child is skipped exactly when it is GONE, has foreign parameters or does not project; otherwise a null alignment aborts, and any other alignment places it under its own index with its measured width and height |
| MapLayout.Run | mapsforge-map-android/src/main/java/org/mapsforge/map/android/view/MapView.java:277-323 | a pass makes at most one call per child it reached, and reaches at most all children |
| MapLayout.LayoutPass | mapsforge-map-android/src/main/java/org/mapsforge/map/android/view/MapView.java:277-323 | the pass over all children makes at most one call per child reached |
| MapLayout.RunOrdered | mapsforge-map-android/src/main/java/org/mapsforge/map/android/view/MapView.java:278-323 | layout calls come in strictly increasing child order; each is the call its child's step asks for; none comes from a child at or after the one that aborted the pass |
| MapLayout.RunComplete | mapsforge-map-android/src/main/java/org/mapsforge/map/android/view/MapView.java:278-323 | every child reached before an abort whose step places it gets a layout call |
| MapLayout.RunAborts | mapsforge-map-android/src/main/java/org/mapsforge/map/android/view/MapView.java:288 | the pass aborts exactly at the first child that would be placed but has a null alignment, and nowhere else |
| MapLayout.AbortedRunIsFinal | mapsforge-map-android/src/main/java/org/mapsforge/map/android/view/MapView.java:278-323 | once the pass has aborted, later children change nothing |
| MapLayout.SkippedChildNotLaidOut | mapsforge-map-android/src/main/java/org/mapsforge/map/android/view/MapView.java:280-285 | a GONE child, a child with foreign parameters, or a child whose position does not project gets no layout call |
| MapLayout.PlacedChildLaidOutOnce | mapsforge-map-android/src/main/java/org/mapsforge/map/android/view/MapView.java:278-323 | in a pass that does not abort, a child that is not GONE, with MapView parameters, an alignment and a projected position is laid out exactly once, at its ChildRect |
| MapLayout.ConvertedParamsAbortPass | mapsforge-map-android/src/main/java/org/mapsforge/map/android/view/MapView.java:99-101 | a child with converted parameters whose position projects stops the pass at or before its index, because its alignment is null |
| MapLayout.LayoutChild | mapsforge-map-android/src/main/java/org/mapsforge/map/android/view/MapView.java:279-321 | the loop body for one child yields that child's step outcome |
| MapLayout.OnLayout | mapsforge-map-android/src/main/java/org/mapsforge/map/android/view/MapView.java:274-324 | the calls made, and the aborting child if there is one, are those of the layout pass over all children |
| TouchInput.DispatchTouchEvent | mapsforge-map-android/src/main/java/org/mapsforge/map/android/view/MapView.java:338-345 | a zero rotation forwards the event untouched; otherwise the matrix becomes a rotation by minus the map rotation about (width / 2, height / 2), truncated as in Java, and the event gets exactly that one transform |
| TouchInput.DispatchIsStateless | mapsforge-map-android/src/main/java/org/mapsforge/map/android/view/MapView.java:340-342 | the forwarded event does not depend on the matrix left behind by earlier events, and each dispatch adds at most one transform |
| TouchInput.PivotIsCentre | mapsforge-map-android/src/main/java/org/mapsforge/map/android/view/MapView.java:341 | for a view of even size, the pivot is the exact centre and the rotation undoes the map rotation |
| TouchInput.OnTouchEvent | mapsforge-map-android/src/main/java/org/mapsforge/map/android/view/MapView.java:348-362 | a non-clickable view consults nobody and returns false; the external detector is consulted iff it is set; the scale detector iff the external one did not consume the event; the gesture detector iff the scale detector was consulted and no scale is in progress; detectors come in that order; the result is the last consulted detector's answer |
| TouchInput.ExternalDetectorShortCircuits | mapsforge-map-android/src/main/java/org/mapsforge/map/android/view/MapView.java:353-361 | an external detector that consumes the event decides alone; otherwise the scale or gesture detector decides, by whether a scale is in progress |
| Lifecycle.LayerTeardown | mapsforge-map-android/src/main/java/org/mapsforge/map/android/view/MapView.java:178-188 | one layer's clean-up removes it, then destroys it, then destroys its tile cache iff it is a tile layer, then clears its label store iff it is a tile renderer layer that has one; each step happens once |
| Lifecycle.LayerTeardownShape | mapsforge-map-android/src/main/java/org/mapsforge/map/android/view/MapView.java:178-188 | every step of one layer's clean-up concerns that layer, and only the first two remove or destroy it |
| Lifecycle.LayersTeardown | mapsforge-map-android/src/main/java/org/mapsforge/map/android/view/MapView.java:177-189 | the loop of destroyAll makes between two and four calls per layer |
| Lifecycle.DestroySequence | mapsforge-map-android/src/main/java/org/mapsforge/map/android/view/MapView.java:162-169 | destroy makes six calls, none of them on a layer; the layer manager is interrupted third and the frame buffer destroyed fifth |
| Lifecycle.DestroyAllSequence | mapsforge-map-android/src/main/java/org/mapsforge/map/android/view/MapView.java:176-192 | destroyAll's calls are the layer clean-up, then destroy's six calls, then the resource-cache clear, last |
| Lifecycle.RemoveFirstRemovesOne | mapsforge-map-android/src/main/java/org/mapsforge/map/android/view/MapView.java:178 | removing a layer from the list takes away one occurrence of it and keeps all others |
| Lifecycle.LayersTeardownOnlyLayerSteps | mapsforge-map-android/src/main/java/org/mapsforge/map/android/view/MapView.java:177-189 | the loop of destroyAll makes only per-layer calls, each on a layer of the list |
| Lifecycle.LayerTeardownCounts | mapsforge-map-android/src/main/java/org/mapsforge/map/android/view/MapView.java:178-179 | one layer's clean-up removes and destroys that layer once, and no other layer |
| Lifecycle.EachLayerDestroyedOnce | mapsforge-map-android/src/main/java/org/mapsforge/map/android/view/MapView.java:177-189 | onDestroy and the removal are called once for each occurrence of a layer in the list |
| Lifecycle.LayersCleanedBeforeInterrupt | mapsforge-map-android/src/main/java/org/mapsforge/map/android/view/MapView.java:176-192 | every layer call comes before the layer manager is interrupted and the frame buffer destroyed; clearing the resource cache comes last |
| Lifecycle.MapView.constructor | mapsforge-map-android/src/main/java/org/mapsforge/map/android/view/MapView.java:122-146 | a new view has no layers and has made no teardown calls |
| Lifecycle.MapView.AddLayer | mapsforge-map-android/src/main/java/org/mapsforge/map/android/view/MapView.java:148-151 | the layer is appended to the list |
| Lifecycle.MapView.Destroy | mapsforge-map-android/src/main/java/org/mapsforge/map/android/view/MapView.java:162-169 | destroy makes its six calls in source order and leaves the layer list alone |
| Lifecycle.MapView.DestroyAll | mapsforge-map-android/src/main/java/org/mapsforge/map/android/view/MapView.java:176-192 | the list ends empty; the trace gains each layer's clean-up in list order, then destroy's calls, then the resource-cache clear |
| Lifecycle.MapView.TearDownLayer | mapsforge-map-android/src/main/java/org/mapsforge/map/android/view/MapView.java:178-188 | the loop body removes the first occurrence of the layer from the list and appends that layer's clean-up to the trace |
| AndroidGraphics.FilterFor | mapsforge-map-android/src/main/java/org/mapsforge/map/android/graphics/AndroidCanvas.java:59-76 | applyFilter installs a colour filter exactly when the filter is not NONE |
| AndroidGraphics.FiltersDistinct | mapsforge-map-android/src/main/java/org/mapsforge/map/android/graphics/AndroidCanvas.java:63-72 | the three real filters install three different colour filters |
| AndroidGraphics.FilteredDraw | mapsforge-map-android/src/main/java/org/mapsforge/map/android/graphics/AndroidCanvas.java:101-122 | a real filter is in effect for the draw only and the paint is left without a colour filter; with NONE the paint's filter is used and kept |
| AndroidGraphics.Applied | mapsforge-map-android/src/main/java/org/mapsforge/map/android/graphics/AndroidCanvas.java:59-76 | after applyFilter, NONE leaves the paint's colour filter as it was; any other filter installs its own colour filter |
| AndroidGraphics.TrimEmptyIffWhitespace | mapsforge-map-android/src/main/java/org/mapsforge/map/android/graphics/AndroidCanvas.java:151 | Java trim() leaves an empty string exactly when every character is at most U+0020 |
| AndroidGraphics.DrawsTextIff | mapsforge-map-android/src/main/java/org/mapsforge/map/android/graphics/AndroidCanvas.java:150-167 | text is drawn exactly when it is not null, has a character above U+0020, and the paint is not transparent |
| AndroidGraphics.IsBlank | mapsforge-map-android/src/main/java/org/mapsforge/map/android/graphics/AndroidCanvas.java:151 | text is blank exactly when it is null or every character is at most U+0020 |
| AndroidGraphics.DrawsShape | mapsforge-map-android/src/main/java/org/mapsforge/map/android/graphics/AndroidCanvas.java:126-128 | a shape is drawn exactly when the paint is not transparent |
| AndroidGraphics.DrawsText | mapsforge-map-android/src/main/java/org/mapsforge/map/android/graphics/AndroidCanvas.java:150-156 | text that is drawn is not null, not empty, and has a paint that is not transparent |
| AndroidGraphics.ClipCommand | mapsforge-map-android/src/main/java/org/mapsforge/map/android/graphics/AndroidCanvas.java:220-222 | the clip rectangle keeps left and top; in Java arithmetic its width and height are the given ones; without overflow, its right and bottom are the exact sums |
| AndroidGraphics.RotatedTextCommand | mapsforge-map-android/src/main/java/org/mapsforge/map/android/graphics/AndroidCanvas.java:169-172 | rotated text runs along the one segment from (x1, y1) to (x2, y2), with offsets 0 and 3 |
| AndroidGraphics.AndroidCanvas.constructor | mapsforge-map-android/src/main/java/org/mapsforge/map/android/graphics/AndroidCanvas.java:48-51 | a new canvas wraps a fresh, empty platform canvas and the paint has no colour filter |
| AndroidGraphics.AndroidCanvas.Wrap | mapsforge-map-android/src/main/java/org/mapsforge/map/android/graphics/AndroidCanvas.java:53-57 | wraps the given platform canvas; the paint has no colour filter |
| AndroidGraphics.AndroidCanvas.Destroy | mapsforge-map-android/src/main/java/org/mapsforge/map/android/graphics/AndroidCanvas.java:92-94 | the platform canvas is dropped |
| AndroidGraphics.AndroidCanvas.ApplyFilter | mapsforge-map-android/src/main/java/org/mapsforge/map/android/graphics/AndroidCanvas.java:59-76 | NONE leaves the paint's colour filter alone; any other filter replaces it by its own |
| AndroidGraphics.AndroidCanvas.DrawBitmap | mapsforge-map-android/src/main/java/org/mapsforge/map/android/graphics/AndroidCanvas.java:97-99 | one positioned bitmap draw with the paint's current colour filter; on a destroyed canvas, NullCanvas |
| AndroidGraphics.AndroidCanvas.Emit | mapsforge-map-android/src/main/java/org/mapsforge/map/android/graphics/AndroidCanvas.java:98 | a call on the platform canvas appends one command and keeps its size; on a destroyed canvas it throws (NullCanvas) |
| AndroidGraphics.AndroidCanvas.DrawBitmapFiltered | mapsforge-map-android/src/main/java/org/mapsforge/map/android/graphics/AndroidCanvas.java:102-108 | one positioned draw under FilteredDraw's filter, then FilteredDraw's filter is left on the paint; if the draw throws, the applied filter stays set |
| AndroidGraphics.AndroidCanvas.DrawBitmapMatrix | mapsforge-map-android/src/main/java/org/mapsforge/map/android/graphics/AndroidCanvas.java:111-113 | one matrix bitmap draw with the paint's current colour filter |
| AndroidGraphics.AndroidCanvas.DrawBitmapMatrixFiltered | mapsforge-map-android/src/main/java/org/mapsforge/map/android/graphics/AndroidCanvas.java:116-122 | as the positioned filtered draw, with a matrix |
| AndroidGraphics.AndroidCanvas.DrawCircle | mapsforge-map-android/src/main/java/org/mapsforge/map/android/graphics/AndroidCanvas.java:125-130 | a transparent paint draws nothing and cannot throw; otherwise one circle command |
| AndroidGraphics.AndroidCanvas.DrawLine | mapsforge-map-android/src/main/java/org/mapsforge/map/android/graphics/AndroidCanvas.java:133-139 | a transparent paint draws nothing and cannot throw; otherwise one line command |
| AndroidGraphics.AndroidCanvas.DrawPath | mapsforge-map-android/src/main/java/org/mapsforge/map/android/graphics/AndroidCanvas.java:142-147 | a transparent paint draws nothing and cannot throw; otherwise one path command |
| AndroidGraphics.AndroidCanvas.DrawText | mapsforge-map-android/src/main/java/org/mapsforge/map/android/graphics/AndroidCanvas.java:150-158 | null or blank text, or a transparent paint, draws nothing and cannot throw; otherwise the untrimmed text is drawn |
| AndroidGraphics.AndroidCanvas.DrawTextRotated | mapsforge-map-android/src/main/java/org/mapsforge/map/android/graphics/AndroidCanvas.java:161-173 | the same guards as drawText, then one text-on-path command along the segment |
| AndroidGraphics.AndroidCanvas.FillColorClear | mapsforge-map-android/src/main/java/org/mapsforge/map/android/graphics/AndroidCanvas.java:176-178 | fillColor(Color) issues one colour fill in CLEAR mode |
| AndroidGraphics.AndroidCanvas.FillColor | mapsforge-map-android/src/main/java/org/mapsforge/map/android/graphics/AndroidCanvas.java:181-183 | fillColor(int) issues one colour fill in the default mode |
| AndroidGraphics.AndroidCanvas.ResetClip | mapsforge-map-android/src/main/java/org/mapsforge/map/android/graphics/AndroidCanvas.java:201-203 | the clip is replaced by the whole canvas, (0, 0, width, height) |
| AndroidGraphics.AndroidCanvas.SetBitmap | mapsforge-map-android/src/main/java/org/mapsforge/map/android/graphics/AndroidCanvas.java:206-208 | the platform canvas now targets the bitmap and takes its size |
| AndroidGraphics.AndroidCanvas.SetClip | mapsforge-map-android/src/main/java/org/mapsforge/map/android/graphics/AndroidCanvas.java:211-213 | the clip is replaced by the rectangle (REPLACE) |
| AndroidGraphics.AndroidCanvas.SetClipDifference | mapsforge-map-android/src/main/java/org/mapsforge/map/android/graphics/AndroidCanvas.java:216-218 | the rectangle is removed from the clip (DIFFERENCE) |
| AndroidGraphics.AndroidCanvas.SetClipInternal | mapsforge-map-android/src/main/java/org/mapsforge/map/android/graphics/AndroidCanvas.java:220-222 | one clip command with ClipCommand's rectangle and the given operation |

## Left out

- The colour matrices behind the three filters (`INVERT_MATRIX`, `createFilters`) are left out. They are floating-point pixel maths; each filter is an opaque token.
- Rounding the projected point (`(int) Math.round(point.x)`) is left out. It is floating point: the projection parameter already returns Java `int`s.
- The projection itself (`MapViewProjection.toPixels`) is left out: it is a collaborator, passed in as a function.
- The rotation angle is modelled as a `real`, and the matrix by its rotation and pivot. The trigonometry and float rounding inside `Matrix` and `MotionEvent.transform` are left out.
- The internals of the gesture detectors, the touch gesture handler, the frame buffer and its controller, the layer manager and its thread, the map view position and the resource cache are left out. They are collaborators: the detectors' answers are inputs, and the other calls are entries in a trace.
- `Lifecycle.MapView.DestroyAll` walks a snapshot of the layer list. What the source's iterator does while the loop body removes entries depends on the `Layers` class, which is not part of this model.
- `onChange` (posting a layout request to the UI thread's handler) and `repaint` are left out. They are thread scheduling with no state of their own.
- `onDraw`, `onMeasure` and `onSizeChanged` are left out. They only forward to the frame buffer, to measureChildren and to the model's dimension.
- The MapView constructor's wiring of controllers and observers is left out. The model's `MapView` starts with an empty layer list.
- The getters (`getDimension`, `getWidth`, `getHeight`, `getBoundingBox` and the MapView accessors) and the setters that only delegate or store (`setCenter`, `setGestureDetector`, `setMapScaleBar`, the zoom-level setters) are left out. They return or forward a field.
- `AndroidGraphicFactory.getBitmap`, `getPaint`, `getPath`, `getMatrix` and `getColor` are left out. They are conversions to platform objects, so bitmaps, paints, paths and matrices are opaque tokens and colours are integers.
- `AndroidGraphics.AndroidCanvas.FillColorClear` takes the integer colour that `getColor` would produce, not a `Color`.
- Null arguments other than text are not modelled: a null `Filter` throws at `switch (filter)` (AndroidCanvas.java:63), and a null `Paint` throws at `paint.isTransparent()` (AndroidCanvas.java:126, 134, 143, 154). Filters and paints in the model are never null.
