/**
 * MapView's layer list and teardown: addLayer, destroy and destroyAll. The
 * collaborators' own clean-up is not modelled; each call the view makes on
 * them is recorded, in order, in a trace.
 */
module Lifecycle {

  /** The layer classes whose clean-up destroyAll treats specially. */
  datatype LayerKind =
    | PlainLayer
    | TileLayer
      /** A TileRendererLayer is also a TileLayer; its label store may be null. */
    | TileRendererLayer(hasLabelStore: bool)

  /** A layer; `id` stands for the object's identity. */
  datatype Layer = Layer(id: nat, kind: LayerKind)

  predicate IsTileLayer(l: Layer) {
    l.kind.TileLayer? || l.kind.TileRendererLayer?
  }

  /** The calls the view makes on its collaborators while tearing down. */
  datatype Step =
    | RemovedFromLayers(layer: Layer)
    | LayerDestroyed(layer: Layer)
    | TileCacheDestroyed(layer: Layer)
    | LabelStoreCleared(layer: Layer)
    | TouchGestureHandlerDestroyed
    | LayoutCallbacksRemoved
    | LayerManagerInterrupted
    | FrameBufferControllerDestroyed
    | FrameBufferDestroyed
    | MapViewPositionDestroyed
    | ResourceMemoryCacheCleared

  predicate IsLayerStep(s: Step) {
    s.RemovedFromLayers? || s.LayerDestroyed? || s.TileCacheDestroyed? || s.LabelStoreCleared?
  }

  /**
   * The clean-up of one layer in destroyAll: removal from the list, then
   * onDestroy, then the tile cache for a tile layer, then the label store
   * for a tile renderer layer that has one.
   */
  function LayerTeardown(l: Layer): (s: seq<Step>)
    ensures |s| >= 2 && s[0] == RemovedFromLayers(l) && s[1] == LayerDestroyed(l)
    ensures (TileCacheDestroyed(l) in s) == IsTileLayer(l)
    ensures (LabelStoreCleared(l) in s) == (l.kind == TileRendererLayer(true))
    ensures |s| == 2 + (if IsTileLayer(l) then 1 else 0) + (if l.kind == TileRendererLayer(true) then 1 else 0)
    ensures IsTileLayer(l) ==> s[2] == TileCacheDestroyed(l)
    ensures l.kind == TileRendererLayer(true) ==> s[|s| - 1] == LabelStoreCleared(l)
  {
    [RemovedFromLayers(l), LayerDestroyed(l)]
    + (if IsTileLayer(l) then [TileCacheDestroyed(l)] else [])
    + (if l.kind == TileRendererLayer(true) then [LabelStoreCleared(l)] else [])
  }

  /** Every step of one layer's clean-up concerns that layer, and only the first two remove or destroy it. */
  lemma LayerTeardownShape(l: Layer)
    ensures var s := LayerTeardown(l);
      && (forall i :: 0 <= i < |s| ==> IsLayerStep(s[i]) && s[i].layer == l)
      && (forall i :: 2 <= i < |s| ==> !s[i].RemovedFromLayers? && !s[i].LayerDestroyed?)
  {
  }

  /** The clean-up of every layer of a snapshot, in list order. */
  function LayersTeardown(ls: seq<Layer>): (s: seq<Step>)
    ensures 2 * |ls| <= |s| <= 4 * |ls|
  {
    if ls == [] then [] else LayersTeardown(ls[..|ls| - 1]) + LayerTeardown(ls[|ls| - 1])
  }

  /** What destroy() does, in order. */
  function DestroySequence(): (s: seq<Step>)
    ensures |s| == 6 && s[2] == LayerManagerInterrupted && s[4] == FrameBufferDestroyed
    ensures forall i :: 0 <= i < |s| ==> !IsLayerStep(s[i])
  {
    [TouchGestureHandlerDestroyed, LayoutCallbacksRemoved, LayerManagerInterrupted,
     FrameBufferControllerDestroyed, FrameBufferDestroyed, MapViewPositionDestroyed]
  }

  /** What destroyAll() does for a layer list, in order. */
  function DestroyAllSequence(ls: seq<Layer>): (s: seq<Step>)
    ensures |s| == |LayersTeardown(ls)| + 7 && s[|s| - 1] == ResourceMemoryCacheCleared
    ensures s[..|LayersTeardown(ls)|] == LayersTeardown(ls)
  {
    LayersTeardown(ls) + DestroySequence() + [ResourceMemoryCacheCleared]
  }

  /** Java List.remove(Object): drops the first equal element, if any. */
  function RemoveFirst(ls: seq<Layer>, l: Layer): seq<Layer> {
    if ls == [] then []
    else if ls[0] == l then ls[1..]
    else [ls[0]] + RemoveFirst(ls[1..], l)
  }

  /** RemoveFirst takes away one occurrence of the element, if it has one, and keeps the rest. */
  lemma {:induction false} RemoveFirstRemovesOne(ls: seq<Layer>, l: Layer)
    ensures multiset(RemoveFirst(ls, l)) == multiset(ls) - multiset{l}
    ensures l !in ls ==> RemoveFirst(ls, l) == ls
  {
    if ls != [] {
      var head, tail := ls[0], ls[1..];
      assert ls == [head] + tail;
      assert multiset(ls) == multiset{head} + multiset(tail);
      if head != l {
        RemoveFirstRemovesOne(tail, l);
        assert RemoveFirst(ls, l) == [head] + RemoveFirst(tail, l);
        assert multiset(RemoveFirst(ls, l)) == multiset{head} + (multiset(tail) - multiset{l});
      }
    }
  }

  /** Walking one more entry of the snapshot appends that layer's clean-up. */
  lemma TeardownOfLongerPrefix(s: seq<Layer>, i: nat)
    requires i < |s|
    ensures LayersTeardown(s[..i + 1]) == LayersTeardown(s[..i]) + LayerTeardown(s[i])
    ensures RemoveFirst(s[i..], s[i]) == s[i + 1..]
  {
    assert s[..i + 1][..i] == s[..i];
  }

  /** Every step of a snapshot's clean-up concerns a layer. */
  lemma {:induction false} LayersTeardownOnlyLayerSteps(ls: seq<Layer>)
    ensures forall i :: 0 <= i < |LayersTeardown(ls)| ==>
      IsLayerStep(LayersTeardown(ls)[i]) && LayersTeardown(ls)[i].layer in ls
  {
    if ls != [] {
      var init := ls[..|ls| - 1];
      LayersTeardownOnlyLayerSteps(init);
      var t := LayersTeardown(ls);
      forall i | 0 <= i < |t| ensures IsLayerStep(t[i]) && t[i].layer in ls {
        if i < |LayersTeardown(init)| {
          assert t[i] == LayersTeardown(init)[i];
          assert t[i].layer in init;
        } else {
          LayerTeardownShape(ls[|ls| - 1]);
          assert t[i] == LayerTeardown(ls[|ls| - 1])[i - |LayersTeardown(init)|];
        }
      }
    }
  }

  /** The number of occurrences of an element in a sequence. */
  function Count<T(==)>(s: seq<T>, x: T): nat {
    multiset(s)[x]
  }

  lemma MultisetOfSplit<T>(s: seq<T>)
    requires s != []
    ensures multiset(s) == multiset(s[..|s| - 1]) + multiset{s[|s| - 1]}
  {
    assert s == s[..|s| - 1] + [s[|s| - 1]];
  }

  lemma MultisetOfConcat<T>(s: seq<T>, t: seq<T>)
    ensures multiset(s + t) == multiset(s) + multiset(t)
  {
  }

  /** One layer's clean-up removes and destroys that layer once, and no other. */
  lemma LayerTeardownCounts(m: Layer, l: Layer)
    ensures Count(LayerTeardown(m), LayerDestroyed(l)) == (if m == l then 1 else 0)
    ensures Count(LayerTeardown(m), RemovedFromLayers(l)) == (if m == l then 1 else 0)
  {
    var t := LayerTeardown(m);
    LayerTeardownShape(m);
    var rest := t[2..];
    assert t == [RemovedFromLayers(m), LayerDestroyed(m)] + rest;
    assert LayerDestroyed(l) !in rest && RemovedFromLayers(l) !in rest;
  }

  /** onDestroy is called once for each occurrence of a layer in the snapshot. */
  lemma {:induction false} EachLayerDestroyedOnce(ls: seq<Layer>, l: Layer)
    ensures Count(LayersTeardown(ls), LayerDestroyed(l)) == Count(ls, l)
    ensures Count(LayersTeardown(ls), RemovedFromLayers(l)) == Count(ls, l)
  {
    if ls != [] {
      var init, last := ls[..|ls| - 1], ls[|ls| - 1];
      MultisetOfSplit(ls);
      EachLayerDestroyedOnce(init, l);
      LayerTeardownCounts(last, l);
      MultisetOfConcat(LayersTeardown(init), LayerTeardown(last));
    }
  }

  /**
   * destroyAll cleans up every layer before it stops the layer manager's
   * thread, destroys the frame buffer, and finally clears the resource cache.
   */
  lemma LayersCleanedBeforeInterrupt(ls: seq<Layer>)
    ensures var t := DestroyAllSequence(ls);
      && t[|t| - 1] == ResourceMemoryCacheCleared
      && (forall i :: 0 <= i < |t| && IsLayerStep(t[i]) ==> i < |LayersTeardown(ls)|)
      && (forall i :: 0 <= i < |t| && (t[i].LayerManagerInterrupted? || t[i].FrameBufferDestroyed?) ==>
            i >= |LayersTeardown(ls)|)
  {
    LayersTeardownOnlyLayerSteps(ls);
  }

  /** The view's layer list and the trace of its teardown calls. */
  class MapView {
    var layers: seq<Layer>
    var trace: seq<Step>

    constructor ()
      ensures layers == [] && trace == []
    {
      layers := [];
      trace := [];
    }

    /** addLayer: appends to the layer manager's list. */
    method AddLayer(l: Layer)
      modifies this`layers
      ensures layers == old(layers) + [l]
    {
      layers := layers + [l];
    }

    /** destroy(): tears down the collaborators; the layer list is left as it is. */
    method Destroy()
      modifies this`trace
      ensures trace == old(trace) + DestroySequence()
    {
      trace := trace + [TouchGestureHandlerDestroyed];
      trace := trace + [LayoutCallbacksRemoved];
      trace := trace + [LayerManagerInterrupted];
      trace := trace + [FrameBufferControllerDestroyed];
      trace := trace + [FrameBufferDestroyed];
      trace := trace + [MapViewPositionDestroyed];
    }

    /** The body of destroyAll's loop for one layer. */
    method TearDownLayer(layer: Layer)
      modifies this
      ensures layers == RemoveFirst(old(layers), layer)
      ensures trace == old(trace) + LayerTeardown(layer)
    {
      layers := RemoveFirst(layers, layer);
      trace := trace + [RemovedFromLayers(layer)];
      trace := trace + [LayerDestroyed(layer)];
      if IsTileLayer(layer) {
        trace := trace + [TileCacheDestroyed(layer)];
      }
      if layer.kind.TileRendererLayer? {
        if layer.kind.hasLabelStore {
          trace := trace + [LabelStoreCleared(layer)];
        }
      }
    }

    /**
     * destroyAll(): walks a snapshot of the layer list, removing and
     * cleaning up each layer, then calls destroy() and clears the resource
     * cache. The list ends up empty.
     */
    method DestroyAll()
      modifies this
      ensures layers == []
      ensures trace == old(trace) + DestroyAllSequence(old(layers))
    {
      var snapshot := layers;
      var i := 0;
      while i < |snapshot|
        invariant 0 <= i <= |snapshot|
        invariant layers == snapshot[i..]
        invariant trace == old(trace) + LayersTeardown(snapshot[..i])
      {
        var layer := snapshot[i];
        TeardownOfLongerPrefix(snapshot, i);
        TearDownLayer(layer);
        i := i + 1;
      }
      assert snapshot[..i] == snapshot;
      Destroy();
      trace := trace + [ResourceMemoryCacheCleared];
    }
  }
}
