/**
 * The toolbar's transport and add-geometry buttons. The toolbar keeps its
 * own `playing` flag and pushes it to every video layer through the store.
 */
module ToolbarActions {
  import opened Types
  import opened ProjectStore
  import opened Sweep

  function IsVideoLayer(): Layer -> bool {
    (l: Layer) => l.IsVideo()
  }

  /** `{ playing }` */
  function PlayPatch(playing: bool): LayerPatch {
    EmptyLayerPatch.(playing := Some(playing))
  }

  /** `{ playing: false, currentTime: 0 }` */
  const StopPatch := EmptyLayerPatch.(playing := Some(false), currentTime := Some(0.0))

  /** Play/pause on a store with unique layer ids: every video layer's
      `playing` becomes `playing` and nothing else about it changes; every
      other layer is untouched; the number and order of layers are kept. */
  lemma PlayPauseEffect(s: StoreState, playing: bool, now: string)
    requires UniqueLayerIds(s.project.layers)
    ensures var ls := s.project.layers;
            var t := PatchEach(s, ls, IsVideoLayer(), PlayPatch(playing), now).project.layers;
            |t| == |ls| &&
            forall k :: 0 <= k < |ls| ==>
              t[k] == if ls[k].IsVideo() then ls[k].(content := ls[k].content.(playing := playing)) else ls[k]
  {
    var ls := s.project.layers;
    PatchEachEffect(s, IsVideoLayer(), PlayPatch(playing), now);
    var t := PatchEach(s, ls, IsVideoLayer(), PlayPatch(playing), now).project.layers;
    assert forall k :: 0 <= k < |ls| ==> t[k] == Patched(ls, IsVideoLayer(), PlayPatch(playing))[k];
  }

  /** Stop on a store with unique layer ids: every video layer is paused and
      rewound to 0; every other layer is untouched. */
  lemma StopEffect(s: StoreState, now: string)
    requires UniqueLayerIds(s.project.layers)
    ensures var ls := s.project.layers;
            var t := PatchEach(s, ls, IsVideoLayer(), StopPatch, now).project.layers;
            |t| == |ls| &&
            forall k :: 0 <= k < |ls| ==>
              t[k] == if ls[k].IsVideo() then ls[k].(content := ls[k].content.(playing := false, currentTime := 0.0)) else ls[k]
  {
    var ls := s.project.layers;
    PatchEachEffect(s, IsVideoLayer(), StopPatch, now);
    var t := PatchEach(s, ls, IsVideoLayer(), StopPatch, now).project.layers;
    assert forall k :: 0 <= k < |ls| ==> t[k] == Patched(ls, IsVideoLayer(), StopPatch)[k];
  }

  /** `handleAddGeometry`: one geometry is added, then one colour layer on
      it; that layer is the last one, and both become selected. */
  lemma AddGeometryAddsColorLayer(s: StoreState, geometryId: string, pointIds: PointIds, layerId: string, now: string)
    ensures var g := AddGeometryStep(s, None, geometryId, pointIds, now);
            var t := AddLayerStep(g, ColorType, geometryId, layerId, now);
            var n, m := |s.project.geometries|, |s.project.layers|;
            |t.project.geometries| == n + 1 && t.project.geometries[n].id == geometryId &&
            t.project.geometries[..n] == s.project.geometries &&
            |t.project.layers| == m + 1 && t.project.layers[..m] == s.project.layers &&
            t.project.layers[m].id == layerId && t.project.layers[m].geometryId == geometryId &&
            t.project.layers[m].content.Solid? &&
            t.selectedGeometryId == Some(geometryId) && t.selectedLayerId == Some(layerId)
  {
    var g := AddGeometryStep(s, None, geometryId, pointIds, now);
    var t := AddLayerStep(g, ColorType, geometryId, layerId, now);
    assert g.project.layers == s.project.layers;
    assert t.project.geometries == g.project.geometries;
  }

  class Toolbar {
    var playing: bool

    constructor()
      ensures !playing
    {
      playing := false;
    }

    /** `handlePlayPause`: flips the flag and sends the flipped value to every
        video layer of the store's list as read at the click. */
    method PlayPause(store: Store, now: string)
      modifies this, store
      ensures playing == !old(playing)
      ensures store.State() == PatchEach(old(store.State()), old(store.project.layers), IsVideoLayer(), PlayPatch(!old(playing)), now)
    {
      var wasPlaying := playing;
      playing := !wasPlaying;
      PatchEachLayer(store, store.project.layers, IsVideoLayer(), PlayPatch(!wasPlaying), now);
    }

    /** `handleStop` */
    method Stop(store: Store, now: string)
      modifies this, store
      ensures !playing
      ensures store.State() == PatchEach(old(store.State()), old(store.project.layers), IsVideoLayer(), StopPatch, now)
    {
      playing := false;
      PatchEachLayer(store, store.project.layers, IsVideoLayer(), StopPatch, now);
    }

    /** `handleAddGeometry` */
    method AddGeometry(store: Store, geometryId: string, pointIds: PointIds, layerId: string, now: string)
      modifies store
      ensures store.State() == AddLayerStep(AddGeometryStep(old(store.State()), None, geometryId, pointIds, now),
                                            ColorType, geometryId, layerId, now)
    {
      var newId := store.AddGeometry(None, geometryId, pointIds, now);
      var _ := store.AddLayer(ColorType, newId, layerId, now);
    }
  }
}
