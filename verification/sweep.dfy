/**
 * The pattern the panels use to change many layers at once: walk a list of
 * layers and, for each one a condition picks, call the store's
 * `updateLayer(layer.id, patch)`. `PatchEach` is the store state after the
 * walk; `Patched` is what the walk means when layer ids are unique and the
 * list walked is the store's own layer list.
 */
module Sweep {
  import opened Types
  import opened ProjectStore

  /** The store after `updateLayer(l.id, p)` for each picked `l` of `seen`, in order. */
  function PatchEach(s: StoreState, seen: seq<Layer>, pick: Layer -> bool, p: LayerPatch, now: string): StoreState {
    if seen == [] then s
    else
      var prev := PatchEach(s, seen[..|seen| - 1], pick, p, now);
      var l := seen[|seen| - 1];
      if pick(l) then UpdateLayerStep(prev, l.id, p, now) else prev
  }

  /** Every picked layer with `p` merged in, every other layer as it was. */
  function Patched(ls: seq<Layer>, pick: Layer -> bool, p: LayerPatch): (r: seq<Layer>)
    ensures |r| == |ls|
    ensures forall k :: 0 <= k < |ls| ==> r[k] == if pick(ls[k]) then ApplyLayerPatch(ls[k], p) else ls[k]
  {
    seq(|ls|, k requires 0 <= k < |ls| => if pick(ls[k]) then ApplyLayerPatch(ls[k], p) else ls[k])
  }

  predicate AnyPicked(ls: seq<Layer>, pick: Layer -> bool) {
    exists k :: 0 <= k < |ls| && pick(ls[k])
  }

  /** Walking the first `n` layers of the store's own list. */
  lemma {:induction false} PatchPrefix(s: StoreState, pick: Layer -> bool, p: LayerPatch, now: string, n: nat)
    requires UniqueLayerIds(s.project.layers) && p.id.None?
    requires n <= |s.project.layers|
    ensures var ls := s.project.layers;
            var t := PatchEach(s, ls[..n], pick, p, now);
            var any := AnyPicked(ls[..n], pick);
            |t.project.layers| == |ls| &&
            (forall k :: 0 <= k < |ls| ==>
               t.project.layers[k] == if k < n && pick(ls[k]) then ApplyLayerPatch(ls[k], p) else ls[k]) &&
            t.project.(layers := s.project.layers, modified := s.project.modified) == s.project &&
            t.project.modified == (if any then now else s.project.modified) &&
            t.isDirty == (s.isDirty || any) &&
            t.(project := s.project, isDirty := s.isDirty) == s
  {
    var ls := s.project.layers;
    if n > 0 {
      PatchPrefix(s, pick, p, now, n - 1);
      assert ls[..n][..n - 1] == ls[..n - 1];
      var prev := PatchEach(s, ls[..n - 1], pick, p, now);
      var l := ls[n - 1];
      AnyPickedSnoc(ls, n, pick);
      if pick(l) {
        PatchOneMore(prev.project.layers, ls, n, pick, p);
      }
    }
  }

  /** The walk's step at position n-1 of the store's own list: with unique
      ids, `updateLayer` on that layer's id patches that position only. */
  lemma PatchOneMore(ps: seq<Layer>, ls: seq<Layer>, n: nat, pick: Layer -> bool, p: LayerPatch)
    requires UniqueLayerIds(ls) && p.id.None? && 0 < n <= |ls| && |ps| == |ls|
    requires forall k :: 0 <= k < |ls| ==>
               ps[k] == if k < n - 1 && pick(ls[k]) then ApplyLayerPatch(ls[k], p) else ls[k]
    requires pick(ls[n - 1])
    ensures forall k :: 0 <= k < |ls| ==>
              var l := ps[k];
              (if l.id == ls[n - 1].id then ApplyLayerPatch(l, p) else l) ==
              (if k < n && pick(ls[k]) then ApplyLayerPatch(ls[k], p) else ls[k])
  {
    forall k | 0 <= k < |ls|
      ensures (ps[k].id == ls[n - 1].id) <==> k == n - 1
    {
      assert ps[k].id == ls[k].id;
    }
  }

  lemma AnyPickedSnoc(ls: seq<Layer>, n: nat, pick: Layer -> bool)
    requires 0 < n <= |ls|
    ensures AnyPicked(ls[..n], pick) <==> AnyPicked(ls[..n - 1], pick) || pick(ls[n - 1])
  {
    if pick(ls[n - 1]) {
      assert ls[..n][n - 1] == ls[n - 1];
    }
    if AnyPicked(ls[..n - 1], pick) {
      var k :| 0 <= k < n - 1 && pick(ls[..n - 1][k]);
      assert ls[..n][k] == ls[..n - 1][k];
    }
    if AnyPicked(ls[..n], pick) {
      var k :| 0 <= k < n && pick(ls[..n][k]);
      if k < n - 1 { assert ls[..n - 1][k] == ls[k]; }
    }
  }

  /** Walking the store's own layer list with unique ids patches exactly the
      picked layers, in place; the project is marked modified and dirty
      exactly when some layer was picked, and nothing else changes. */
  lemma PatchEachEffect(s: StoreState, pick: Layer -> bool, p: LayerPatch, now: string)
    requires UniqueLayerIds(s.project.layers) && p.id.None?
    ensures var ls := s.project.layers;
            var any := AnyPicked(ls, pick);
            PatchEach(s, ls, pick, p, now) ==
              s.(project := s.project.(layers := Patched(ls, pick, p),
                                       modified := if any then now else s.project.modified),
                 isDirty := s.isDirty || any)
  {
    var ls := s.project.layers;
    PatchPrefix(s, pick, p, now, |ls|);
    assert ls[..|ls|] == ls;
  }

  /** `layers.forEach(l => { if (pick(l)) updateLayer(l.id, p) })` over a list
      read before the walk. */
  method PatchEachLayer(store: Store, seen: seq<Layer>, pick: Layer -> bool, p: LayerPatch, now: string)
    modifies store
    ensures store.State() == PatchEach(old(store.State()), seen, pick, p, now)
  {
    ghost var s0 := store.State();
    for i := 0 to |seen|
      invariant store.State() == PatchEach(s0, seen[..i], pick, p, now)
    {
      assert seen[..i + 1][..i] == seen[..i];
      if pick(seen[i]) {
        store.UpdateLayer(seen[i].id, p, now);
      }
    }
    assert seen[..|seen|] == seen;
  }
}
