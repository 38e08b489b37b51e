/**
 * The editing window's top-level handlers, each driving the project store:
 * dropping a dragged layer onto another one in the layer list, messages
 * relayed from the remote-control server, and resetting every quad to its
 * default corners.
 *
 * The message handler and the calibration reset are installed once, when the
 * window first mounts, so the project they read (`seen` below) is the one the
 * store held at that moment, while the store actions they call act on the
 * current project. The models keep the two apart.
 */
module App {
  import opened Types
  import opened ProjectStore

  // ------------------------------------------------------------ drag reorder

  /** `layers.findIndex(l => l.id === id)`: the first position holding that
      id, or -1 when there is none. */
  function FindIndex(ls: seq<Layer>, id: string): (r: int)
    ensures -1 <= r < |ls|
    ensures r == -1 <==> forall k :: 0 <= k < |ls| ==> ls[k].id != id
    ensures r >= 0 ==> ls[r].id == id && forall k :: 0 <= k < r ==> ls[k].id != id
  {
    if ls == [] then -1
    else if ls[0].id == id then 0
    else
      var r := FindIndex(ls[1..], id);
      assert forall k :: 0 < k < |ls| ==> ls[k] == ls[1..][k - 1];
      if r == -1 then -1 else r + 1
  }

  /** Where `Array.prototype.splice` starts: a negative start counts from the
      end, and the result is clamped to `0..len`. */
  function SpliceStart(start: int, len: nat): (r: nat)
    ensures r <= len
    ensures 0 <= start <= len ==> r == start
    ensures start < 0 && len + start >= 0 ==> r == len + start
  {
    if start < 0 then (if len + start < 0 then 0 else len + start)
    else if start > len then len
    else start
  }

  /** `s.splice(start, deleteCount, ...items)`: the array afterwards and the
      removed elements. */
  function Splice<T>(s: seq<T>, start: int, deleteCount: nat, items: seq<T>): (r: (seq<T>, seq<T>))
    ensures var from := SpliceStart(start, |s|);
            var n := if deleteCount <= |s| - from then deleteCount else |s| - from;
            r.1 == s[from..from + n] && r.0 == s[..from] + items + s[from + n..]
    ensures multiset(r.0) + multiset(r.1) == multiset(s) + multiset(items)
  {
    var from := SpliceStart(start, |s|);
    var n := if deleteCount <= |s| - from then deleteCount else |s| - from;
    assert s == s[..from] + s[from..from + n] + s[from + n..];
    (s[..from] + items + s[from + n..], s[from..from + n])
  }

  /** Splicing out the element at a valid index. */
  lemma SpliceOut<T>(s: seq<T>, i: nat)
    requires i < |s|
    ensures Splice(s, i, 1, []) == (s[..i] + s[i + 1..], [s[i]])
  {
    assert s[i..i + 1] == [s[i]];
    assert s[..i] + [] + s[i + 1..] == s[..i] + s[i + 1..];
  }

  /** Splicing one element in at a valid index. */
  lemma SpliceIn<T>(s: seq<T>, i: nat, x: T)
    requires i <= |s|
    ensures Splice(s, i, 0, [x]).0 == s[..i] + [x] + s[i..]
  {
  }

  /** The layer list after moving the layer named `activeId` to the position
      of the layer named `overId`: the dragged layer is spliced out, then
      spliced back in at the target's original index. `None` when the list
      is empty: nothing is removed, and reading the id of the missing layer
      throws. An id that is not found counts as index -1, the last element. */
  function Moved(ls: seq<Layer>, activeId: string, overId: string): (r: Option<seq<Layer>>)
    ensures r.None? <==> ls == []
  {
    var (rest, removed) := Splice(ls, FindIndex(ls, activeId), 1, []);
    if removed == [] then None
    else Some(Splice(rest, FindIndex(ls, overId), 0, [removed[0]]).0)
  }

  /** A drag never loses or duplicates a layer. */
  lemma MovedIsPermutation(ls: seq<Layer>, activeId: string, overId: string)
    requires ls != []
    ensures multiset(Moved(ls, activeId, overId).value) == multiset(ls)
    ensures multiset(LayerIds(Moved(ls, activeId, overId).value)) == multiset(LayerIds(ls))
  {
    var (rest, removed) := Splice(ls, FindIndex(ls, activeId), 1, []);
    var r := Moved(ls, activeId, overId).value;
    assert removed == [removed[0]];
    assert multiset(r) == multiset(rest) + multiset(removed);
    PermutedIds(r, ls);
  }

  /** Layer lists that are permutations of each other have permuted ids. */
  lemma {:induction false} PermutedIds(a: seq<Layer>, b: seq<Layer>)
    requires multiset(a) == multiset(b)
    ensures multiset(LayerIds(a)) == multiset(LayerIds(b))
    decreases |a|
  {
    if a != [] {
      var x, tail := a[0], a[1..];
      assert a == [x] + tail;
      assert x in multiset(b);
      var i :| 0 <= i < |b| && b[i] == x;
      var b' := b[..i] + b[i + 1..];
      WithoutOne(b, i);
      WithoutOne(a, 0);
      assert a[..0] + a[1..] == tail;
      PermutedIds(tail, b');
      IdsWithoutOne(b, i);
      IdsWithoutOne(a, 0);
    }
  }

  /** Taking out the element at position i takes one copy of it out of
      the multiset. */
  lemma WithoutOne<T>(b: seq<T>, i: nat)
    requires i < |b|
    ensures multiset(b[..i] + b[i + 1..]) == multiset(b) - multiset{b[i]}
  {
    assert b == b[..i] + [b[i]] + b[i + 1..];
  }

  /** Taking out the layer at position i takes one copy of its id out of
      the multiset of ids. */
  lemma IdsWithoutOne(b: seq<Layer>, i: nat)
    requires i < |b|
    ensures multiset(LayerIds(b)) == multiset(LayerIds(b[..i] + b[i + 1..])) + multiset{b[i].id}
  {
    var ids := LayerIds(b);
    IdsDropOne(b, i);
    WithoutOne(ids, i);
    assert ids[i] == b[i].id;
  }

  /** The ids of `b` without position i are `b`'s ids without position i. */
  lemma IdsDropOne(b: seq<Layer>, i: nat)
    requires i < |b|
    ensures LayerIds(b[..i] + b[i + 1..]) == LayerIds(b)[..i] + LayerIds(b)[i + 1..]
  {
    IdsOfConcat(b[..i], b[i + 1..]);
    IdsOfSlice(b, 0, i);
    IdsOfSlice(b, i + 1, |b|);
  }

  lemma IdsOfSlice(b: seq<Layer>, lo: nat, hi: nat)
    requires lo <= hi <= |b|
    ensures LayerIds(b[lo..hi]) == LayerIds(b)[lo..hi]
  {
    assert forall k :: 0 <= k < hi - lo ==> LayerIds(b[lo..hi])[k] == b[lo + k].id;
  }

  lemma {:induction false} IdsOfConcat(a: seq<Layer>, b: seq<Layer>)
    ensures LayerIds(a + b) == LayerIds(a) + LayerIds(b)
  {
    assert |LayerIds(a + b)| == |a| + |b|;
    forall k | 0 <= k < |a| + |b| ensures LayerIds(a + b)[k] == (LayerIds(a) + LayerIds(b))[k] {
      if k >= |a| { assert (a + b)[k] == b[k - |a|]; }
    }
  }

  /** When both ids are found, the dragged layer ends at the target's index
      and the other layers keep their relative order. */
  lemma MovedPlacesDragged(ls: seq<Layer>, activeId: string, overId: string)
    requires FindIndex(ls, activeId) >= 0 && FindIndex(ls, overId) >= 0
    ensures var r, i, j := Moved(ls, activeId, overId).value, FindIndex(ls, activeId), FindIndex(ls, overId);
            |r| == |ls| && r[j] == ls[i] && r[..j] + r[j + 1..] == ls[..i] + ls[i + 1..]
  {
    var i, j := FindIndex(ls, activeId), FindIndex(ls, overId);
    var rest := ls[..i] + ls[i + 1..];
    MovedFound(ls, activeId, overId);
    PlacedAt(rest, j, ls[i]);
  }

  /** With both ids found, the move splices the dragged layer out and back
      in at the target's index. */
  lemma MovedFound(ls: seq<Layer>, activeId: string, overId: string)
    requires FindIndex(ls, activeId) >= 0 && FindIndex(ls, overId) >= 0
    ensures var i, j := FindIndex(ls, activeId), FindIndex(ls, overId);
            Moved(ls, activeId, overId) == Some((ls[..i] + ls[i + 1..])[..j] + [ls[i]] + (ls[..i] + ls[i + 1..])[j..])
  {
    var i, j := FindIndex(ls, activeId), FindIndex(ls, overId);
    SpliceOut(ls, i);
    SpliceIn(ls[..i] + ls[i + 1..], j, ls[i]);
  }

  /** An element inserted at index j sits at j, and taking it out again
      gives back the list it was inserted into. */
  lemma PlacedAt<T>(rest: seq<T>, j: nat, x: T)
    requires j <= |rest|
    ensures var r := rest[..j] + [x] + rest[j..];
            |r| == |rest| + 1 && r[j] == x && r[..j] + r[j + 1..] == rest
  {
    var r := rest[..j] + [x] + rest[j..];
    assert r[..j] == rest[..j];
    assert r[j + 1..] == rest[j..];
  }

  /** `ls` with each layer's `order` set to its position. */
  function Renumbered(ls: seq<Layer>): (r: seq<Layer>)
    ensures |r| == |ls| && OrdersMatchIndices(r)
    ensures forall k :: 0 <= k < |ls| ==> r[k] == ls[k].(order := k)
  {
    seq(|ls|, k requires 0 <= k < |ls| => ls[k].(order := k))
  }

  /** `handleLayerReorder`: when the drop lands on a different layer, the
      moved list's ids go to `reorderLayers`; otherwise nothing happens. */
  function DropStep(s: StoreState, activeId: string, over: Option<string>, now: string): (t: StoreState)
    ensures over.None? || over.value == activeId || s.project.layers == [] ==> t == s
  {
    if over.Some? && activeId != over.value then
      match Moved(s.project.layers, activeId, over.value)
      case None => s
      case Some(r) => ReorderLayersStep(s, LayerIds(r), now)
    else s
  }

  /** With uniquely named layers a drop onto another layer yields exactly the
      moved list, renumbered 0, 1, 2, ...: no layer is lost. */
  lemma DropKeepsEveryLayer(s: StoreState, activeId: string, overId: string, now: string)
    requires UniqueLayerIds(s.project.layers) && s.project.layers != [] && activeId != overId
    ensures DropStep(s, activeId, Some(overId), now).project.layers
              == Renumbered(Moved(s.project.layers, activeId, overId).value)
  {
    var ls := s.project.layers;
    var r := Moved(ls, activeId, overId).value;
    MovedIsPermutation(ls, activeId, overId);
    ReorderByOwnIds(ls, r);
  }

  /** Reordering uniquely named layers by the ids of a permutation of them
      gives that permutation, renumbered. */
  lemma ReorderByOwnIds(ls: seq<Layer>, r: seq<Layer>)
    requires UniqueLayerIds(ls) && multiset(r) == multiset(ls)
    ensures ReorderLayers(ls, LayerIds(r)) == Renumbered(r)
  {
    var ids := LayerIds(r);
    var m := LayerIndex(ls);
    forall j | 0 <= j < |ids| ensures ids[j] in m {
      assert r[j] in multiset(ls);
      assert r[j] in ls;
    }
    ReorderedAllKnown(m, ids, 0);
    LayerIndexOfUnique(ls);
    var t := ReorderLayers(ls, ids);
    forall k | 0 <= k < |r| ensures t[k] == r[k].(order := k) {
      assert r[k] in multiset(ls);
      var i :| 0 <= i < |ls| && ls[i] == r[k];
      assert m[ids[k]] == ls[i];
    }
  }

  method HandleLayerReorder(store: Store, activeId: string, over: Option<string>, now: string)
    modifies store
    ensures store.State() == DropStep(old(store.State()), activeId, over, now)
  {
    if over.Some? && activeId != over.value {
      var layers := store.project.layers;
      var oldIndex := FindIndex(layers, activeId);
      var newIndex := FindIndex(layers, over.value);
      var (newOrder, removed) := Splice(layers, oldIndex, 1, []);
      if removed == [] {
        return;
      }
      newOrder := Splice(newOrder, newIndex, 0, [removed[0]]).0;
      store.ReorderLayers(LayerIds(newOrder), now);
    }
  }

  // ------------------------------------------------------- remote messages

  /** A message from the remote-control server, by its `type`. */
  datatype WSMessage =
    | ProjectLoad(path: string)
    | LayerUpdate(id: string, updates: LayerPatch)
    | GlobalUpdate(settings: GlobalPatch)
    | TimelineSeek(layerId: string, time: real)
    | Unhandled(messageType: string)

  /** `loadProjectFile`: `file` is what reading the file produced. A project
      read is installed with its path and a clean flag; a failure only alerts. */
  function LoadFileStep(s: StoreState, path: string, file: Result<Project>): (t: StoreState)
    ensures file.Failure? ==> t == s
    ensures file.Success? ==>
              t.project == file.value && t.currentProjectPath == Some(path) && !t.isDirty &&
              t.selectedLayerId == None && t.selectedGeometryId == None &&
              t.displays == s.displays && t.outputDisplay == s.outputDisplay
  {
    match file
    case Failure(_) => s
    case Success(p) => LoadProjectStep(s, p).(currentProjectPath := Some(path)).(isDirty := false)
  }

  function SeekPatch(time: real): LayerPatch {
    EmptyLayerPatch.(currentTime := Some(time))
  }

  /** `handleWSMessage`, where `seen` is the layer list the handler reads. */
  function WSStep(s: StoreState, seen: seq<Layer>, msg: WSMessage, file: Result<Project>, now: string): (t: StoreState)
    ensures msg.Unhandled? ==> t == s
  {
    match msg
    case ProjectLoad(path) => LoadFileStep(s, path, file)
    case LayerUpdate(id, updates) => UpdateLayerStep(s, id, updates, now)
    case GlobalUpdate(settings) => UpdateGlobalSettingsStep(s, settings, now)
    case TimelineSeek(layerId, time) =>
      var found := FindLayer(seen, layerId);
      if found.Some? && found.value.IsVideo() then UpdateLayerStep(s, found.value.id, SeekPatch(time), now) else s
    case Unhandled(_) => s
  }

  /** A seek that reads the current, uniquely named layers moves the play
      head of the named layer if it is a video, and changes nothing else in
      any layer. */
  lemma SeekSetsCurrentTime(s: StoreState, layerId: string, time: real, file: Result<Project>, now: string)
    requires UniqueLayerIds(s.project.layers)
    ensures var t := WSStep(s, s.project.layers, TimelineSeek(layerId, time), file, now);
            |t.project.layers| == |s.project.layers| &&
            forall k :: 0 <= k < |s.project.layers| ==>
              var l := s.project.layers[k];
              t.project.layers[k] ==
                if l.id == layerId && l.IsVideo() then l.(content := l.content.(currentTime := time)) else l
  {
    var ls := s.project.layers;
    var t := WSStep(s, ls, TimelineSeek(layerId, time), file, now);
    var f := FindLayer(ls, layerId);
    if f.Some? {
      var i :| 0 <= i < |ls| && ls[i] == f.value && f.value.id == layerId;
      forall k | 0 <= k < |ls|
        ensures t.project.layers[k] ==
                  if ls[k].id == layerId && ls[k].IsVideo() then ls[k].(content := ls[k].content.(currentTime := time)) else ls[k]
      {
        if ls[k].id == layerId {
          assert k == i;
        }
      }
    }
  }

  /** A seek for a layer that is missing from `seen`, or is not a video
      there, changes nothing. */
  lemma SeekNeedsSeenVideo(s: StoreState, seen: seq<Layer>, layerId: string, time: real, file: Result<Project>, now: string)
    requires forall k :: 0 <= k < |seen| && seen[k].id == layerId ==> !seen[k].IsVideo()
    ensures WSStep(s, seen, TimelineSeek(layerId, time), file, now) == s
  {
    var f := FindLayer(seen, layerId);
    if f.Some? {
      var i :| 0 <= i < |seen| && seen[i] == f.value && f.value.id == layerId;
    }
  }

  method LoadProjectFile(store: Store, path: string, file: Result<Project>)
    modifies store
    ensures store.State() == LoadFileStep(old(store.State()), path, file)
  {
    if file.Success? {
      store.LoadProject(file.value);
      store.SetProjectPath(path);
      store.MarkClean();
    }
  }

  method HandleWSMessage(store: Store, seen: seq<Layer>, msg: WSMessage, file: Result<Project>, now: string)
    modifies store
    ensures store.State() == WSStep(old(store.State()), seen, msg, file, now)
  {
    match msg
    case ProjectLoad(path) => LoadProjectFile(store, path, file);
    case LayerUpdate(id, updates) => store.UpdateLayer(id, updates, now);
    case GlobalUpdate(settings) => store.UpdateGlobalSettings(settings, now);
    case TimelineSeek(layerId, time) =>
      var layer := FindLayer(seen, layerId);
      if layer.Some? && layer.value.IsVideo() {
        store.UpdateLayer(layer.value.id, SeekPatch(time), now);
      }
    case Unhandled(_) =>
  }

  /** The handler as installed: the layers it reads are those of the project
      the store starts with. */
  method HandleWSMessageAsInstalled(store: Store, initialProjectId: string, startedAt: string,
                                    msg: WSMessage, file: Result<Project>, now: string)
    modifies store
    ensures store.State() == WSStep(old(store.State()), DefaultProject(initialProjectId, startedAt).layers, msg, file, now)
  {
    HandleWSMessage(store, DefaultProject(initialProjectId, startedAt).layers, msg, file, now);
  }

  /** As installed, a seek never reaches any layer. */
  lemma InstalledSeekIgnored(s: StoreState, initialProjectId: string, startedAt: string,
                             layerId: string, time: real, file: Result<Project>, now: string)
    ensures WSStep(s, DefaultProject(initialProjectId, startedAt).layers, TimelineSeek(layerId, time), file, now) == s
  {
    SeekNeedsSeenVideo(s, DefaultProject(initialProjectId, startedAt).layers, layerId, time, file, now);
  }

  /** The seek as intended: the handler reads the store's current layers. */
  method HandleWSMessageCurrent(store: Store, msg: WSMessage, file: Result<Project>, now: string)
    modifies store
    ensures store.State() == WSStep(old(store.State()), old(store.project.layers), msg, file, now)
  {
    HandleWSMessage(store, store.project.layers, msg, file, now);
  }

  // ------------------------------------------------------ calibration reset

  /** The first `n` points of `points` moved to the default corners; ids and
      the remaining points are kept. */
  function CornersReset(points: seq<QuadPoint>, n: nat): (r: seq<QuadPoint>)
    requires n <= 4
    ensures |r| == |points|
    ensures forall i :: 0 <= i < |points| ==>
              r[i] == if i < n then points[i].(position := DefaultCorners[i]) else points[i]
  {
    seq(|points|, i requires 0 <= i < |points| =>
          if i < n then points[i].(position := DefaultCorners[i]) else points[i])
  }

  /** The store after `updateGeometryPoint(geometryId, i, corner i)` for
      i = 0 .. n-1, in that order. */
  function ResetPoints(s: StoreState, geometryId: string, n: nat, now: string): StoreState
    requires n <= 4
  {
    if n == 0 then s
    else UpdateGeometryPointStep(ResetPoints(s, geometryId, n - 1, now), geometryId, n - 1, DefaultCorners[n - 1], now)
  }

  /** `resetCalibration`, where `seen` is the geometry list the handler
      reads: every geometry in it has its four corners reset, one after
      the other. */
  function ResetStep(s: StoreState, seen: seq<Geometry>, now: string): StoreState {
    if seen == [] then s
    else ResetPoints(ResetStep(s, seen[..|seen| - 1], now), seen[|seen| - 1].id, 4, now)
  }

  /** `t` is `s` with the first n corners of every geometry named
      `geometryId` reset: nothing else in the geometries, the project or
      the store differs, except the modification time and the dirty flag. */
  predicate CornersResetOnly(s: StoreState, t: StoreState, geometryId: string, n: nat)
    requires n <= 4
  {
    |t.project.geometries| == |s.project.geometries| &&
    (forall k :: 0 <= k < |s.project.geometries| ==>
       var g := s.project.geometries[k];
       t.project.geometries[k] == if g.id == geometryId then g.(points := CornersReset(g.points, n)) else g) &&
    t.project.(geometries := s.project.geometries, modified := s.project.modified) == s.project &&
    t.(project := s.project, isDirty := s.isDirty) == s
  }

  /** Resetting the first n corners of one geometry changes only the
      geometries with that id, and those only in their points. */
  lemma {:induction false} ResetPointsEffect(s: StoreState, geometryId: string, n: nat, now: string)
    requires n <= 4
    ensures CornersResetOnly(s, ResetPoints(s, geometryId, n, now), geometryId, n)
  {
    if n > 0 {
      ResetPointsEffect(s, geometryId, n - 1, now);
      NextCornerReset(s, ResetPoints(s, geometryId, n - 1, now), geometryId, n, now);
    }
  }

  /** Moving corner n-1 of a store whose first n-1 corners are reset
      resets the first n. */
  lemma NextCornerReset(s: StoreState, u: StoreState, geometryId: string, n: nat, now: string)
    requires 0 < n <= 4 && CornersResetOnly(s, u, geometryId, n - 1)
    ensures CornersResetOnly(s, UpdateGeometryPointStep(u, geometryId, n - 1, DefaultCorners[n - 1], now), geometryId, n)
  {
    forall k | 0 <= k < |s.project.geometries|
      ensures var g := s.project.geometries[k];
              UpdateGeometryPointStep(u, geometryId, n - 1, DefaultCorners[n - 1], now).project.geometries[k] ==
              if g.id == geometryId then g.(points := CornersReset(g.points, n)) else g
    {
      CornerOfStep(u, geometryId, n, now, k, s.project.geometries[k]);
    }
  }

  /** One more `updateGeometryPoint` call takes geometry k from n-1 reset
      corners to n. */
  lemma CornerOfStep(u: StoreState, geometryId: string, n: nat, now: string, k: nat, g: Geometry)
    requires 0 < n <= 4 && k < |u.project.geometries|
    requires u.project.geometries[k] == if g.id == geometryId then g.(points := CornersReset(g.points, n - 1)) else g
    ensures UpdateGeometryPointStep(u, geometryId, n - 1, DefaultCorners[n - 1], now).project.geometries[k] ==
            if g.id == geometryId then g.(points := CornersReset(g.points, n)) else g
  {
    if g.id == geometryId {
      CornerStep(g.points, n);
    }
  }

  /** Setting corner n-1 after the first n-1 resets the first n. */
  lemma CornerStep(points: seq<QuadPoint>, n: nat)
    requires 0 < n <= 4
    ensures SetPointPosition(CornersReset(points, n - 1), n - 1, DefaultCorners[n - 1]) == CornersReset(points, n)
  {
  }

  /** Some geometry of `seen` has that id. */
  predicate Names(seen: seq<Geometry>, id: string) {
    exists j :: 0 <= j < |seen| && seen[j].id == id
  }

  /** After a reset, exactly the geometries whose id appears in `seen` have
      their four corners back at the defaults, point ids kept; the others,
      and everything else in the project, are untouched. */
  lemma {:induction false} ResetStepEffect(s: StoreState, seen: seq<Geometry>, now: string)
    ensures var t := ResetStep(s, seen, now);
            |t.project.geometries| == |s.project.geometries| &&
            (forall k :: 0 <= k < |s.project.geometries| ==>
               var g := s.project.geometries[k];
               t.project.geometries[k] == if Names(seen, g.id) then g.(points := CornersReset(g.points, 4)) else g) &&
            t.project.(geometries := s.project.geometries, modified := s.project.modified) == s.project &&
            t.(project := s.project, isDirty := s.isDirty) == s
  {
    if seen != [] {
      var front := seen[..|seen| - 1];
      var last := seen[|seen| - 1].id;
      ResetStepEffect(s, front, now);
      var u := ResetStep(s, front, now);
      ResetPointsEffect(u, last, 4, now);
      var t := ResetStep(s, seen, now);
      assert t == ResetPoints(u, last, 4, now);
      forall k | 0 <= k < |s.project.geometries|
        ensures var g := s.project.geometries[k];
                t.project.geometries[k] == if Names(seen, g.id) then g.(points := CornersReset(g.points, 4)) else g
      {
        var g := s.project.geometries[k];
        NamesOfSnoc(seen, g.id);
        ResetTwice(g, u.project.geometries[k], t.project.geometries[k], Names(front, g.id), last);
      }
    }
  }

  lemma NamesOfSnoc(seen: seq<Geometry>, id: string)
    requires seen != []
    ensures Names(seen, id) <==> Names(seen[..|seen| - 1], id) || seen[|seen| - 1].id == id
  {
    var front := seen[..|seen| - 1];
    assert forall j :: 0 <= j < |front| ==> front[j] == seen[j];
    if seen[|seen| - 1].id == id {
      assert seen[|seen| - 1].id == id;
    }
  }

  /** One geometry through two successive resets: resetting again changes
      nothing. */
  lemma ResetTwice(g: Geometry, once: Geometry, twice: Geometry, first: bool, last: string)
    requires once == if first then g.(points := CornersReset(g.points, 4)) else g
    requires twice == if once.id == last then once.(points := CornersReset(once.points, 4)) else once
    ensures twice == if first || g.id == last then g.(points := CornersReset(g.points, 4)) else g
  {
    assert CornersReset(CornersReset(g.points, 4), 4) == CornersReset(g.points, 4);
  }

  /** Reading the current geometries, a reset puts every quad back at its
      default corners. */
  lemma ResetCurrentResetsAll(s: StoreState, now: string)
    ensures var t := ResetStep(s, s.project.geometries, now);
            |t.project.geometries| == |s.project.geometries| &&
            forall k :: 0 <= k < |s.project.geometries| ==>
              var g := s.project.geometries[k];
              t.project.geometries[k] == g.(points := CornersReset(g.points, 4))
  {
    ResetStepEffect(s, s.project.geometries, now);
    forall k | 0 <= k < |s.project.geometries| ensures Names(s.project.geometries, s.project.geometries[k].id) {
    }
  }

  method ResetCalibration(store: Store, seen: seq<Geometry>, now: string)
    modifies store
    ensures store.State() == ResetStep(old(store.State()), seen, now)
  {
    for i := 0 to |seen|
      invariant store.State() == ResetStep(old(store.State()), seen[..i], now)
    {
      var defaultPoints := DefaultCorners;
      for index := 0 to |defaultPoints|
        invariant store.State() == ResetPoints(ResetStep(old(store.State()), seen[..i], now), seen[i].id, index, now)
      {
        store.UpdateGeometryPoint(seen[i].id, index, defaultPoints[index], now);
      }
      assert seen[..i + 1][..i] == seen[..i];
    }
    assert seen[..|seen|] == seen;
  }

  /** The reset as installed behind the menu: the geometries it reads are
      those of the project the store starts with, and there are none. */
  method ResetCalibrationAsInstalled(store: Store, initialProjectId: string, startedAt: string, now: string)
    modifies store
    ensures store.State() == old(store.State())
  {
    ResetCalibration(store, DefaultProject(initialProjectId, startedAt).geometries, now);
  }

  /** The reset as intended: it reads the store's current geometries. */
  method ResetCalibrationCurrent(store: Store, now: string)
    modifies store
    ensures store.State() == ResetStep(old(store.State()), old(store.project.geometries), now)
  {
    ResetCalibration(store, store.project.geometries, now);
  }
}
