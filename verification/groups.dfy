/**
 * The layer-groups panel. The panel keeps its own list of groups (not part
 * of the saved project); a layer belongs to a group through its `groupId`
 * field in the store. Creating and updating groups rebuild the panel's list;
 * deleting a group first clears `groupId` on its layers through the store.
 */
module LayerGroups {
  import opened Types
  import opened Seqs
  import opened Text
  import opened ProjectStore
  import opened Sweep

  /** The colour values offered for groups, used in turn for new groups. */
  const GroupColors: seq<string> :=
    ["#ff4444", "#ff8844", "#ffcc44", "#44ff44", "#4444ff", "#ff44ff", "#44ffff", "#ffffff"]

  /** `Partial<LayerGroup>` */
  datatype GroupPatch = GroupPatch(
    id: Option<string>,
    name: Option<string>,
    expanded: Option<bool>,
    visible: Option<bool>,
    locked: Option<bool>,
    opacity: Option<real>,
    color: Option<string>)

  /** `{ ...g, ...updates }` */
  function ApplyGroupPatch(g: LayerGroup, p: GroupPatch): LayerGroup {
    LayerGroup(p.id.GetOr(g.id), p.name.GetOr(g.name), p.expanded.GetOr(g.expanded),
               p.visible.GetOr(g.visible), p.locked.GetOr(g.locked), p.opacity.GetOr(g.opacity),
               if p.color.Some? then p.color else g.color)
  }

  /** The group `handleCreateGroup` appends to `groups` at time `nowMillis`. */
  function NewGroup(groups: seq<LayerGroup>, nowMillis: nat): LayerGroup {
    LayerGroup("group-" + NatToString(nowMillis), "Group " + NatToString(|groups| + 1),
               true, true, false, 1.0, Some(GroupColors[|groups| % |GroupColors|]))
  }

  /** Groups created at different list lengths get different names, and the
      colour repeats exactly every eight groups. */
  lemma NewGroupNamesAndColors(a: seq<LayerGroup>, b: seq<LayerGroup>, t1: nat, t2: nat)
    ensures NewGroup(a, t1).name == NewGroup(b, t2).name <==> |a| == |b|
    ensures NewGroup(a, t1).color == NewGroup(b, t2).color <==> |a| % 8 == |b| % 8
  {
    var na, nb := NatToString(|a| + 1), NatToString(|b| + 1);
    if NewGroup(a, t1).name == NewGroup(b, t2).name {
      assert ("Group " + na)[6..] == na && ("Group " + nb)[6..] == nb;
      NatToStringInjective(|a| + 1, |b| + 1);
    }
  }

  /** `groups.map(g => g.id === id ? { ...g, ...updates } : g)` */
  function UpdateGroups(gs: seq<LayerGroup>, id: string, p: GroupPatch): (r: seq<LayerGroup>)
    ensures |r| == |gs|
    ensures forall k :: 0 <= k < |gs| ==> r[k] == if gs[k].id == id then ApplyGroupPatch(gs[k], p) else gs[k]
  {
    seq(|gs|, k requires 0 <= k < |gs| => if gs[k].id == id then ApplyGroupPatch(gs[k], p) else gs[k])
  }

  function NotGroup(id: string): LayerGroup -> bool {
    (g: LayerGroup) => g.id != id
  }

  /** Layers whose `groupId` is `gid`: the members shown under that group. */
  function InGroup(gid: string): Layer -> bool {
    (l: Layer) => l.groupId == Some(gid)
  }

  /** `{ groupId: undefined }` */
  const ClearGroup := EmptyLayerPatch.(groupId := Some(None))

  /** `{ groupId }` */
  function JoinGroup(gid: string): LayerPatch {
    EmptyLayerPatch.(groupId := Some(Some(gid)))
  }

  /** `layers.filter(l => l.groupId === group.id)` */
  function GroupLayers(ls: seq<Layer>, gid: string): (r: seq<Layer>)
    ensures forall l :: l in r <==> l in ls && l.groupId == Some(gid)
    ensures IsSubsequence(r, ls)
  {
    FilterIsSubsequence(ls, InGroup(gid));
    Filter(ls, InGroup(gid))
  }

  /** `layers.filter(l => !l.groupId)`: no group, or the empty group id. */
  function UngroupedLayers(ls: seq<Layer>): (r: seq<Layer>)
    ensures forall l :: l in r <==> l in ls && (l.groupId == None || l.groupId == Some(""))
    ensures IsSubsequence(r, ls)
  {
    var keep := (l: Layer) => !Truthy(l.groupId);
    FilterIsSubsequence(ls, keep);
    Filter(ls, keep)
  }

  /** A layer with a non-empty group id is listed under that group and not
      among the ungrouped; a layer without one is listed under no group. */
  lemma MembershipPartition(ls: seq<Layer>, l: Layer, gid: string)
    requires l in ls
    ensures Truthy(l.groupId) ==> l in GroupLayers(ls, l.groupId.value) && l !in UngroupedLayers(ls)
    ensures l in GroupLayers(ls, gid) && gid != "" ==> l !in UngroupedLayers(ls)
    ensures !Truthy(l.groupId) ==> l in UngroupedLayers(ls) && (gid != "" ==> l !in GroupLayers(ls, gid))
  {
  }

  /** `handleAddLayerToGroup`: with unique ids, the layer moves into the
      group's member list (and out of the ungrouped list when the group id is
      non-empty); no other layer changes. */
  lemma AddLayerToGroupJoins(s: StoreState, k: nat, gid: string, now: string)
    requires UniqueLayerIds(s.project.layers) && k < |s.project.layers|
    ensures var ls := s.project.layers;
            var t := UpdateLayerStep(s, ls[k].id, JoinGroup(gid), now).project.layers;
            t[k] == ls[k].(groupId := Some(gid)) &&
            t[k] in GroupLayers(t, gid) &&
            (gid != "" ==> t[k] !in UngroupedLayers(t)) &&
            forall j :: 0 <= j < |ls| && j != k ==> t[j] == ls[j]
  {
    var ls := s.project.layers;
    var t := UpdateLayerStep(s, ls[k].id, JoinGroup(gid), now).project.layers;
    assert t[k] == ApplyLayerPatch(ls[k], JoinGroup(gid));
  }

  /** `handleRemoveLayerFromGroup`: with unique ids, the layer becomes
      ungrouped and is listed under no group; no other layer changes. */
  lemma RemoveLayerFromGroupLeaves(s: StoreState, k: nat, gid: string, now: string)
    requires UniqueLayerIds(s.project.layers) && k < |s.project.layers|
    ensures var ls := s.project.layers;
            var t := UpdateLayerStep(s, ls[k].id, ClearGroup, now).project.layers;
            t[k] == ls[k].(groupId := None) &&
            t[k] in UngroupedLayers(t) && t[k] !in GroupLayers(t, gid) &&
            forall j :: 0 <= j < |ls| && j != k ==> t[j] == ls[j]
  {
    var ls := s.project.layers;
    var t := UpdateLayerStep(s, ls[k].id, ClearGroup, now).project.layers;
    assert t[k] == ApplyLayerPatch(ls[k], ClearGroup);
  }

  /** `handleDeleteGroup` on the store: every member of the group loses its
      group id and nothing else about it, the other layers stay as they were
      and in place, and afterwards no layer lists the group. */
  lemma DeleteGroupClearsMembers(s: StoreState, gid: string, now: string)
    requires UniqueLayerIds(s.project.layers)
    ensures var ls := s.project.layers;
            var t := PatchEach(s, ls, InGroup(gid), ClearGroup, now).project.layers;
            |t| == |ls| &&
            (forall k :: 0 <= k < |ls| ==>
               t[k] == if ls[k].groupId == Some(gid) then ls[k].(groupId := None) else ls[k]) &&
            GroupLayers(t, gid) == []
  {
    var ls := s.project.layers;
    PatchEachEffect(s, InGroup(gid), ClearGroup, now);
    var t := PatchEach(s, ls, InGroup(gid), ClearGroup, now).project.layers;
    forall k | 0 <= k < |ls|
      ensures t[k] == if ls[k].groupId == Some(gid) then ls[k].(groupId := None) else ls[k]
    {
      assert t[k] == Patched(ls, InGroup(gid), ClearGroup)[k];
      ClearGroupOnly(ls[k]);
    }
    NoneInGroup(t, gid);
  }

  /** `{ groupId: undefined }` changes the group id and nothing else. */
  lemma ClearGroupOnly(l: Layer)
    ensures ApplyLayerPatch(l, ClearGroup) == l.(groupId := None)
  {
  }

  /** A list none of whose layers carries the group id has no members. */
  lemma NoneInGroup(t: seq<Layer>, gid: string)
    requires forall k :: 0 <= k < |t| ==> t[k].groupId != Some(gid)
    ensures GroupLayers(t, gid) == []
  {
    assert forall l :: l in t ==> l.groupId != Some(gid);
  }

  /** Deleting a group removes it, and only it, from the panel's list,
      keeping the order of the rest. */
  lemma DeleteGroupKeepsOthers(gs: seq<LayerGroup>, gid: string)
    ensures var r := Filter(gs, NotGroup(gid));
            IsSubsequence(r, gs) && forall g :: g in r <==> g in gs && g.id != gid
  {
    FilterIsSubsequence(gs, NotGroup(gid));
  }

  /** `updateLayer(layerId, { groupId })` */
  method AddLayerToGroup(store: Store, layerId: string, gid: string, now: string)
    modifies store
    ensures store.State() == UpdateLayerStep(old(store.State()), layerId, JoinGroup(gid), now)
  {
    store.UpdateLayer(layerId, JoinGroup(gid), now);
  }

  /** `updateLayer(layerId, { groupId: undefined })` */
  method RemoveLayerFromGroup(store: Store, layerId: string, now: string)
    modifies store
    ensures store.State() == UpdateLayerStep(old(store.State()), layerId, ClearGroup, now)
  {
    store.UpdateLayer(layerId, ClearGroup, now);
  }

  /** The panel's own list of groups. */
  class GroupPanel {
    var groups: seq<LayerGroup>

    constructor()
      ensures groups == []
    {
      groups := [];
    }

    /** `handleCreateGroup` */
    method CreateGroup(nowMillis: nat)
      modifies this
      ensures groups == old(groups) + [NewGroup(old(groups), nowMillis)]
    {
      groups := groups + [NewGroup(groups, nowMillis)];
    }

    /** `handleUpdateGroup` */
    method UpdateGroup(id: string, p: GroupPatch)
      modifies this
      ensures groups == UpdateGroups(old(groups), id, p)
    {
      groups := UpdateGroups(groups, id, p);
    }

    /** `handleDeleteGroup`: clears the group id of the layers in the store's
        list as read when the handler starts, then drops the group. */
    method DeleteGroup(store: Store, id: string, now: string)
      modifies this, store
      ensures store.State() == PatchEach(old(store.State()), old(store.project.layers), InGroup(id), ClearGroup, now)
      ensures groups == Filter(old(groups), NotGroup(id))
    {
      var seen := store.project.layers;
      PatchEachLayer(store, seen, InGroup(id), ClearGroup, now);
      groups := Filter(groups, NotGroup(id));
    }

    /** The ungrouped chip's action: put the layer into the first group, and
        do nothing while there are no groups. */
    method AssignToFirstGroup(store: Store, layerId: string, now: string)
      modifies store
      ensures store.State() == if old(groups) == [] then old(store.State())
                               else UpdateLayerStep(old(store.State()), layerId, JoinGroup(groups[0].id), now)
    {
      if |groups| > 0 {
        AddLayerToGroup(store, layerId, groups[0].id, now);
      }
    }
  }
}
