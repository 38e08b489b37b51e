/**
 * The editing window's keyboard shortcuts. A key press that does not come
 * from a text field is run through a fixed chain of tests, block after
 * block; each block that matches contributes effects: notifying one of the
 * window's handlers (save, open, play, ...) or acting on the project store.
 * `Classify` is that chain as a list of effects, `Perform` the meaning of one
 * effect on the store, and `HandleKeyDown` the handler itself.
 */
module Keyboard {
  import opened Types
  import opened Text
  import opened ProjectStore

  /** A key press: `key` as the browser reports it, the modifier keys, and
      whether its target is an input or text area. */
  datatype KeyEvent = KeyEvent(key: string, meta: bool, ctrl: bool, shift: bool, alt: bool, inTextField: bool)

  /** The callbacks the window registers for shortcuts it does not handle itself. */
  datatype Handler =
    | OnSaveProject | OnOpenProject | OnNewProject | OnDuplicateSelected
    | OnTogglePlayback | OnToggleCalibration | OnToggleFullscreen | OnToggleVisibility
    | OnResetCalibration

  /** One effect of a key press. The selection is the one the handler saw
      when the key went down. */
  datatype Action =
    | Notify(handler: Handler)
    | Toggle(layerId: Option<string>, geometryId: Option<string>)
    | Delete(layerId: Option<string>, geometryId: Option<string>)
    | SetOpacity(layerId: Option<string>, opacity: real)
    | Nudge(layerId: Option<string>, dx: real, dy: real)
    | AddLayerOn(layerType: LayerType, target: string)
    | AddNewGeometry

  /** The ids the store's `uuidv4` would produce for a new layer or geometry. */
  datatype Fresh = Fresh(layerId: string, geometryId: string, pointIds: PointIds)

  // ------------------------------------------------------------ key strings

  function LowerChar(c: char): char {
    if 'A' <= c <= 'Z' then (c as int + 32) as char else c
  }

  /** `toLowerCase()` on the ASCII letters. */
  function ToLower(s: string): (r: string)
    ensures |r| == |s| && forall i :: 0 <= i < |s| ==> r[i] == LowerChar(s[i])
  {
    seq(|s|, i requires 0 <= i < |s| => LowerChar(s[i]))
  }

  /** JavaScript's `a < b` on strings: lexicographic by character code. */
  predicate StrLess(a: string, b: string) {
    if b == [] then false
    else if a == [] then true
    else if a[0] != b[0] then a[0] < b[0]
    else StrLess(a[1..], b[1..])
  }

  /** `key >= '0' && key <= '9'` */
  predicate InDigitRange(key: string) {
    !StrLess(key, "0") && !StrLess("9", key)
  }

  /** A key in the digit range starts with a digit; a one-character key is in
      the range exactly when it is a digit. */
  lemma DigitRangeShape(key: string)
    ensures InDigitRange(key) ==> key != [] && IsDigit(key[0])
    ensures |key| == 1 ==> (InDigitRange(key) <==> IsDigit(key[0]))
  {
    if |key| == 1 {
      assert StrLess(key, "0") <==> key[0] < '0' by {
        assert key[1..] == [] && "0"[1..] == [];
      }
      assert StrLess("9", key) <==> '9' < key[0] by {
        assert key[1..] == [] && "9"[1..] == [];
      }
    }
  }

  /** The longest prefix of decimal digits. */
  function LeadingDigits(s: string): (r: string)
    ensures AllDigits(r) && |r| <= |s| && r == s[..|r|]
    ensures |r| < |s| ==> !IsDigit(s[|r|])
  {
    if s == [] || !IsDigit(s[0]) then []
    else [s[0]] + LeadingDigits(s[1..])
  }

  /** The opacity a key in the digit range sets: 1 for "0", otherwise
      `parseInt(key) * 0.1`. */
  function DigitOpacity(key: string): real
    requires InDigitRange(key)
  {
    if key == "0" then 1.0 else (DigitsValue(LeadingDigits(key)) as real) * 0.1
  }

  /** The digit keys set opacity 1 for '0' and d/10 for '1' to '9'. */
  lemma DigitOpacityValues(d: nat)
    requires d < 10
    ensures InDigitRange([DigitChar(d)])
    ensures DigitOpacity([DigitChar(d)]) == if d == 0 then 1.0 else d as real / 10.0
  {
    var key := [DigitChar(d)];
    DigitRangeShape(key);
    assert LeadingDigits(key) == key by {
      assert LeadingDigits(key[1..]) == [];
    }
    assert DigitsValue(key) == d by {
      assert key[..0] == [];
    }
  }

  /** The nudge an arrow key asks for: 0.01 with Shift, 0.001 without;
      up is +y, down -y, left -x, right +x. Any other key asks for none. */
  function ArrowDelta(key: string, shift: bool): (r: (real, real))
    ensures key !in {"ArrowUp", "ArrowDown", "ArrowLeft", "ArrowRight"} ==> r == (0.0, 0.0)
  {
    var amount := if shift then 0.01 else 0.001;
    if key == "ArrowUp" then (0.0, amount)
    else if key == "ArrowDown" then (0.0, -amount)
    else if key == "ArrowLeft" then (-amount, 0.0)
    else if key == "ArrowRight" then (amount, 0.0)
    else (0.0, 0.0)
  }

  // --------------------------------------------------------- classification

  /** Cmd (or Ctrl) without Shift: the file shortcuts. */
  function FileBlock(isCmd: bool, shift: bool, k: string): seq<Action> {
    if isCmd && !shift then
      if k == "s" then [Notify(OnSaveProject)]
      else if k == "o" then [Notify(OnOpenProject)]
      else if k == "n" then [Notify(OnNewProject)]
      else if k == "d" then [Notify(OnDuplicateSelected)]
      else []
    else []
  }

  /** Cmd (or Ctrl) with Shift: "save as", which calls the same handler. */
  function ShiftFileBlock(isCmd: bool, shift: bool, k: string): seq<Action> {
    if isCmd && shift && k == "s" then [Notify(OnSaveProject)] else []
  }

  /** No modifier: playback, calibration, visibility and deletion. The reset
      case asks for Cmd inside a block that excludes it. */
  function PlaybackBlock(isCmd: bool, shift: bool, alt: bool, k: string,
                         layerId: Option<string>, geometryId: Option<string>): seq<Action> {
    if !isCmd && !shift && !alt then
      if k == " " then [Notify(OnTogglePlayback)]
      else if k == "c" then [Notify(OnToggleCalibration)]
      else if k == "f" then [Notify(OnToggleFullscreen)]
      else if k == "h" then [Notify(OnToggleVisibility), Toggle(layerId, geometryId)]
      else if k == "delete" || k == "backspace" then [Delete(layerId, geometryId)]
      else if k == "r" then (if isCmd then [Notify(OnResetCalibration)] else [])
      else []
    else []
  }

  /** No modifier, a key in the digit range: set the selected layer's opacity. */
  function OpacityBlock(isCmd: bool, shift: bool, alt: bool, key: string, layerId: Option<string>): seq<Action> {
    if !isCmd && !shift && !alt && InDigitRange(key) then [SetOpacity(layerId, DigitOpacity(key))] else []
  }

  /** Something selected, an arrow key: nudge the selected layer. */
  function NudgeBlock(key: string, shift: bool, layerId: Option<string>, geometryId: Option<string>): seq<Action> {
    if Truthy(geometryId) || Truthy(layerId) then
      var (dx, dy) := ArrowDelta(key, shift);
      if dx != 0.0 || dy != 0.0 then [Nudge(layerId, dx, dy)] else []
    else []
  }

  /** Cmd with a geometry selected: add an image, video or colour layer on it. */
  function LayerBlock(isCmd: bool, k: string, geometryId: Option<string>): seq<Action> {
    if isCmd && Truthy(geometryId) then
      if k == "i" then [AddLayerOn(ImageType, geometryId.value)]
      else if k == "v" then [AddLayerOn(VideoType, geometryId.value)]
      else if k == "k" then [AddLayerOn(ColorType, geometryId.value)]
      else []
    else []
  }

  /** Cmd and exactly "g": add a geometry. */
  function GeometryBlock(isCmd: bool, key: string): seq<Action> {
    if isCmd && key == "g" then [AddNewGeometry] else []
  }

  /** Effects that act on the store (everything but notifications). */
  predicate ChangesStore(a: Action) { !a.Notify? }

  /** No effect of `r` changes the store. */
  predicate Quiet(r: seq<Action>) {
    forall i :: 0 <= i < |r| ==> !ChangesStore(r[i])
  }

  /** No effect that changes the store is followed by another one. */
  predicate ChangesOnce(r: seq<Action>) {
    forall i, j :: 0 <= i < j < |r| && ChangesStore(r[i]) ==> !ChangesStore(r[j])
  }

  lemma ConcatChangesOnce(a: seq<Action>, b: seq<Action>)
    requires ChangesOnce(a) && ChangesOnce(b) && (Quiet(a) || Quiet(b))
    ensures ChangesOnce(a + b)
    ensures Quiet(a + b) <==> Quiet(a) && Quiet(b)
  {
    if !Quiet(a) {
      var i :| 0 <= i < |a| && ChangesStore(a[i]);
      assert (a + b)[i] == a[i];
    }
    if !Quiet(b) {
      var i :| 0 <= i < |b| && ChangesStore(b[i]);
      assert (a + b)[|a| + i] == b[i];
    }
  }

  /** Each block changes the store at most once, the file blocks never do,
      and the keys that make one of the other blocks change the store make
      every later block quiet. */
  lemma ExclusiveBlocks(e: KeyEvent, layerId: Option<string>, geometryId: Option<string>)
    ensures var isCmd, k := e.meta || e.ctrl, ToLower(e.key);
            var fb, sb := FileBlock(isCmd, e.shift, k), ShiftFileBlock(isCmd, e.shift, k);
            var pb := PlaybackBlock(isCmd, e.shift, e.alt, k, layerId, geometryId);
            var ob, nb := OpacityBlock(isCmd, e.shift, e.alt, e.key, layerId), NudgeBlock(e.key, e.shift, layerId, geometryId);
            var lb, gb := LayerBlock(isCmd, k, geometryId), GeometryBlock(isCmd, e.key);
            Quiet(fb) && Quiet(sb) && ChangesOnce(fb) && ChangesOnce(sb) &&
            ChangesOnce(pb) && ChangesOnce(ob) && ChangesOnce(nb) && ChangesOnce(lb) && ChangesOnce(gb) &&
            (!Quiet(pb) ==> Quiet(ob) && Quiet(nb) && Quiet(lb) && Quiet(gb)) &&
            (!Quiet(ob) ==> Quiet(nb) && Quiet(lb) && Quiet(gb)) &&
            (!Quiet(nb) ==> Quiet(lb) && Quiet(gb)) &&
            (!Quiet(lb) ==> Quiet(gb))
  {
    var isCmd, k := e.meta || e.ctrl, ToLower(e.key);
    var fb, sb := FileBlock(isCmd, e.shift, k), ShiftFileBlock(isCmd, e.shift, k);
    var pb := PlaybackBlock(isCmd, e.shift, e.alt, k, layerId, geometryId);
    var ob, nb := OpacityBlock(isCmd, e.shift, e.alt, e.key, layerId), NudgeBlock(e.key, e.shift, layerId, geometryId);
    var lb, gb := LayerBlock(isCmd, k, geometryId), GeometryBlock(isCmd, e.key);
    var arrow := e.key in {"ArrowUp", "ArrowDown", "ArrowLeft", "ArrowRight"};
    assert Quiet(fb) && Quiet(sb) && ChangesOnce(fb) && ChangesOnce(sb);
    assert ChangesOnce(pb) && ChangesOnce(ob) && ChangesOnce(nb) && ChangesOnce(lb) && ChangesOnce(gb);
    assert !Quiet(pb) ==> !isCmd && (k == "h" || k == "delete" || k == "backspace");
    assert !Quiet(nb) ==> arrow;
    assert !Quiet(lb) ==> isCmd && (k == "i" || k == "v" || k == "k");
    assert !Quiet(gb) ==> isCmd && e.key == "g";
    if !Quiet(ob) {
      DigitRangeShape(e.key);
      assert !isCmd && IsDigit(k[0]);
    }
    if arrow {
      assert e.key[0] == 'A' && k[0] == LowerChar('A') == 'a';
      assert Quiet(pb) && Quiet(lb) && Quiet(gb);
      assert !IsDigit(e.key[0]);
      DigitRangeShape(e.key);
      assert Quiet(ob);
    }
    if e.key == "g" {
      assert k == "g";
    }
  }

  /** At most one block changes the store, and that one at most once. */
  lemma BlocksChangeOnce(e: KeyEvent, layerId: Option<string>, geometryId: Option<string>)
    ensures var isCmd, k := e.meta || e.ctrl, ToLower(e.key);
            ChangesOnce(FileBlock(isCmd, e.shift, k) + ShiftFileBlock(isCmd, e.shift, k)
                        + PlaybackBlock(isCmd, e.shift, e.alt, k, layerId, geometryId)
                        + OpacityBlock(isCmd, e.shift, e.alt, e.key, layerId)
                        + NudgeBlock(e.key, e.shift, layerId, geometryId)
                        + LayerBlock(isCmd, k, geometryId)
                        + GeometryBlock(isCmd, e.key))
  {
    var isCmd, k := e.meta || e.ctrl, ToLower(e.key);
    var fb, sb := FileBlock(isCmd, e.shift, k), ShiftFileBlock(isCmd, e.shift, k);
    var pb := PlaybackBlock(isCmd, e.shift, e.alt, k, layerId, geometryId);
    var ob, nb := OpacityBlock(isCmd, e.shift, e.alt, e.key, layerId), NudgeBlock(e.key, e.shift, layerId, geometryId);
    var lb, gb := LayerBlock(isCmd, k, geometryId), GeometryBlock(isCmd, e.key);
    ExclusiveBlocks(e, layerId, geometryId);
    ConcatChangesOnce(fb, sb);
    ConcatChangesOnce(fb + sb, pb);
    ConcatChangesOnce(fb + sb + pb, ob);
    ConcatChangesOnce(fb + sb + pb + ob, nb);
    ConcatChangesOnce(fb + sb + pb + ob + nb, lb);
    ConcatChangesOnce(fb + sb + pb + ob + nb + lb, gb);
  }

  /** The effects of a key press, in the order the handler performs them,
      given the selection it sees. */
  function Classify(e: KeyEvent, layerId: Option<string>, geometryId: Option<string>): (r: seq<Action>)
    ensures e.inTextField ==> r == []
    ensures Notify(OnResetCalibration) !in r
  {
    if e.inTextField then []
    else
      var isCmd := e.meta || e.ctrl;
      var k := ToLower(e.key);
      FileBlock(isCmd, e.shift, k) + ShiftFileBlock(isCmd, e.shift, k)
      + PlaybackBlock(isCmd, e.shift, e.alt, k, layerId, geometryId)
      + OpacityBlock(isCmd, e.shift, e.alt, e.key, layerId)
      + NudgeBlock(e.key, e.shift, layerId, geometryId)
      + LayerBlock(isCmd, k, geometryId)
      + GeometryBlock(isCmd, e.key)
  }

  /** A key press changes the store at most once. */
  lemma ClassifyChangesOnce(e: KeyEvent, layerId: Option<string>, geometryId: Option<string>)
    ensures ChangesOnce(Classify(e, layerId, geometryId))
  {
    if !e.inTextField {
      BlocksChangeOnce(e, layerId, geometryId);
    }
  }

  // ---------------------------------------------------------------- effects

  /** The transform with its position moved by (dx, dy); z, rotation and
      scale are kept. */
  function Nudged(t: Transform, dx: real, dy: real): (r: Transform)
    ensures r.position == Vec3(t.position.x + dx, t.position.y + dy, t.position.z)
    ensures r.rotation == t.rotation && r.scale == t.scale
  {
    t.(position := Vec3(t.position.x + dx, t.position.y + dy, t.position.z))
  }

  /** What one effect does to the store; notifications leave it alone. */
  function Perform(s: StoreState, a: Action, ids: Fresh, now: string): StoreState {
    match a
    case Notify(_) => s
    case Toggle(layerId, geometryId) =>
      if Truthy(layerId) then
        var l := FindLayer(s.project.layers, layerId.value);
        if l.Some? then UpdateLayerStep(s, layerId.value, EmptyLayerPatch.(visible := Some(!l.value.visible)), now) else s
      else if Truthy(geometryId) then
        var g := FindGeometry(s.project.geometries, geometryId.value);
        if g.Some? then UpdateGeometryStep(s, geometryId.value, EmptyGeometryPatch.(visible := Some(!g.value.visible)), now) else s
      else s
    case Delete(layerId, geometryId) =>
      if Truthy(layerId) then DeleteLayerStep(s, layerId.value, now)
      else if Truthy(geometryId) then DeleteGeometryStep(s, geometryId.value, now)
      else s
    case SetOpacity(layerId, opacity) =>
      if Truthy(layerId) then UpdateLayerStep(s, layerId.value, EmptyLayerPatch.(opacity := Some(opacity)), now) else s
    case Nudge(layerId, dx, dy) =>
      if Truthy(layerId) then
        var l := FindLayer(s.project.layers, layerId.value);
        if l.Some? then UpdateLayerStep(s, layerId.value, EmptyLayerPatch.(transform := Some(Nudged(l.value.transform, dx, dy))), now)
        else s
      else s
    case AddLayerOn(layerType, geometryId) => AddLayerStep(s, layerType, geometryId, ids.layerId, now)
    case AddNewGeometry => AddGeometryStep(s, None, ids.geometryId, ids.pointIds, now)
  }

  /** The effects performed one after the other. */
  function Run(s: StoreState, acts: seq<Action>, ids: Fresh, now: string): StoreState {
    if acts == [] then s
    else Perform(Run(s, acts[..|acts| - 1], ids, now), acts[|acts| - 1], ids, now)
  }

  /** The handlers notified, in order. */
  function Notified(acts: seq<Action>): seq<Handler> {
    if acts == [] then []
    else Notified(acts[..|acts| - 1]) + (if acts[|acts| - 1].Notify? then [acts[|acts| - 1].handler] else [])
  }

  /** A key press on the store, with the selection the store holds. */
  function KeyDownStep(s: StoreState, e: KeyEvent, ids: Fresh, now: string): StoreState {
    Run(s, Classify(e, s.selectedLayerId, s.selectedGeometryId), ids, now)
  }

  function KeyDownNotified(s: StoreState, e: KeyEvent): seq<Handler> {
    Notified(Classify(e, s.selectedLayerId, s.selectedGeometryId))
  }

  /** A key press whose effects are known. */
  lemma KeyDownOf(s: StoreState, e: KeyEvent, ids: Fresh, now: string, acts: seq<Action>)
    requires Classify(e, s.selectedLayerId, s.selectedGeometryId) == acts
    ensures KeyDownStep(s, e, ids, now) == Run(s, acts, ids, now)
    ensures KeyDownNotified(s, e) == Notified(acts)
  {
  }

  /** A key press with a single known effect. */
  lemma KeyDownOne(s: StoreState, e: KeyEvent, ids: Fresh, now: string, a: Action)
    requires Classify(e, s.selectedLayerId, s.selectedGeometryId) == [a]
    ensures KeyDownStep(s, e, ids, now) == Perform(s, a, ids, now)
    ensures KeyDownNotified(s, e) == if a.Notify? then [a.handler] else []
  {
    KeyDownOf(s, e, ids, now, [a]);
    RunOne(s, a, ids, now);
  }

  lemma RunOne(s: StoreState, a: Action, ids: Fresh, now: string)
    ensures Run(s, [a], ids, now) == Perform(s, a, ids, now)
    ensures Notified([a]) == if a.Notify? then [a.handler] else []
  {
    assert [a][..0] == [];
  }

  lemma RunNotifyFirst(s: StoreState, h: Handler, a: Action, ids: Fresh, now: string)
    ensures Run(s, [Notify(h), a], ids, now) == Perform(s, a, ids, now)
    ensures Notified([Notify(h), a]) == [h] + if a.Notify? then [a.handler] else []
  {
    assert [Notify(h), a][..1] == [Notify(h)];
    RunOne(s, Notify(h), ids, now);
  }

  // ------------------------------------------------------- what keys do

  /** An unmodified digit key sets the selected layer's opacity to 1 for '0'
      and to d/10 for '1'..'9', and does nothing without a selected layer. */
  lemma DigitKeySetsOpacity(s: StoreState, d: nat, inTextField: bool, ids: Fresh, now: string)
    requires d < 10 && !inTextField
    ensures var e := KeyEvent([DigitChar(d)], false, false, false, false, inTextField);
            var opacity := if d == 0 then 1.0 else d as real / 10.0;
            KeyDownStep(s, e, ids, now) ==
              (if Truthy(s.selectedLayerId)
               then UpdateLayerStep(s, s.selectedLayerId.value, EmptyLayerPatch.(opacity := Some(opacity)), now)
               else s) &&
            KeyDownNotified(s, e) == []
  {
    var e := KeyEvent([DigitChar(d)], false, false, false, false, inTextField);
    DigitOpacityValues(d);
    DigitEffects(e, s.selectedLayerId, s.selectedGeometryId);
    KeyDownOne(s, e, ids, now, SetOpacity(s.selectedLayerId, DigitOpacity(e.key)));
  }

  lemma DigitEffects(e: KeyEvent, layerId: Option<string>, geometryId: Option<string>)
    requires !e.inTextField && !e.meta && !e.ctrl && !e.shift && !e.alt
    requires |e.key| == 1 && IsDigit(e.key[0])
    ensures InDigitRange(e.key)
    ensures Classify(e, layerId, geometryId) == [SetOpacity(layerId, DigitOpacity(e.key))]
  {
    DigitRangeShape(e.key);
    var k := ToLower(e.key);
    assert k == e.key;
  }

  /** With something selected, an arrow key moves the selected layer by the
      arrow's delta (0.01 with Shift, 0.001 without) and keeps the rest of
      its transform; with only a geometry selected nothing moves. */
  lemma ArrowKeyNudges(s: StoreState, e: KeyEvent, ids: Fresh, now: string)
    requires !e.inTextField && e.key in {"ArrowUp", "ArrowDown", "ArrowLeft", "ArrowRight"}
    requires Truthy(s.selectedLayerId) || Truthy(s.selectedGeometryId)
    ensures var (dx, dy) := ArrowDelta(e.key, e.shift);
            var l := if Truthy(s.selectedLayerId) then FindLayer(s.project.layers, s.selectedLayerId.value) else None;
            KeyDownStep(s, e, ids, now) ==
              (if l.Some?
               then UpdateLayerStep(s, s.selectedLayerId.value, EmptyLayerPatch.(transform := Some(Nudged(l.value.transform, dx, dy))), now)
               else s) &&
            KeyDownNotified(s, e) == []
  {
    var (dx, dy) := ArrowDelta(e.key, e.shift);
    ArrowEffects(e, s.selectedLayerId, s.selectedGeometryId);
    KeyDownOne(s, e, ids, now, Nudge(s.selectedLayerId, dx, dy));
    PerformNudge(s, s.selectedLayerId, dx, dy, ids, now);
  }

  lemma ArrowEffects(e: KeyEvent, layerId: Option<string>, geometryId: Option<string>)
    requires !e.inTextField && e.key in {"ArrowUp", "ArrowDown", "ArrowLeft", "ArrowRight"}
    requires Truthy(layerId) || Truthy(geometryId)
    ensures var (dx, dy) := ArrowDelta(e.key, e.shift);
            Classify(e, layerId, geometryId) == [Nudge(layerId, dx, dy)]
  {
    var k := ToLower(e.key);
    assert k[0] == 'a';
    assert !InDigitRange(e.key);
    var (dx, dy) := ArrowDelta(e.key, e.shift);
    assert dx != 0.0 || dy != 0.0;
  }

  /** Without a selection the arrow keys do nothing. */
  lemma ArrowKeyNeedsSelection(s: StoreState, e: KeyEvent, ids: Fresh, now: string)
    requires e.key in {"ArrowUp", "ArrowDown", "ArrowLeft", "ArrowRight"}
    requires !Truthy(s.selectedLayerId) && !Truthy(s.selectedGeometryId)
    ensures KeyDownStep(s, e, ids, now) == s && KeyDownNotified(s, e) == []
  {
    ArrowIdleEffects(e, s.selectedLayerId, s.selectedGeometryId);
    KeyDownOf(s, e, ids, now, []);
  }

  lemma ArrowIdleEffects(e: KeyEvent, layerId: Option<string>, geometryId: Option<string>)
    requires e.key in {"ArrowUp", "ArrowDown", "ArrowLeft", "ArrowRight"}
    requires !Truthy(layerId) && !Truthy(geometryId)
    ensures Classify(e, layerId, geometryId) == []
  {
    var k := ToLower(e.key);
    assert k[0] == 'a';
    assert !InDigitRange(e.key);
  }

  /** Delete or Backspace, unmodified, deletes the selected layer if there is
      one, otherwise the selected geometry. */
  lemma DeleteKeyDeletes(s: StoreState, e: KeyEvent, ids: Fresh, now: string)
    requires !e.inTextField && !e.meta && !e.ctrl && !e.shift && !e.alt
    requires ToLower(e.key) in {"delete", "backspace"}
    ensures KeyDownStep(s, e, ids, now) ==
              (if Truthy(s.selectedLayerId) then DeleteLayerStep(s, s.selectedLayerId.value, now)
               else if Truthy(s.selectedGeometryId) then DeleteGeometryStep(s, s.selectedGeometryId.value, now)
               else s)
    ensures KeyDownNotified(s, e) == []
  {
    DeleteEffects(e, s.selectedLayerId, s.selectedGeometryId);
    KeyDownOne(s, e, ids, now, Delete(s.selectedLayerId, s.selectedGeometryId));
  }

  lemma DeleteEffects(e: KeyEvent, layerId: Option<string>, geometryId: Option<string>)
    requires !e.inTextField && !e.meta && !e.ctrl && !e.shift && !e.alt
    requires ToLower(e.key) in {"delete", "backspace"}
    ensures Classify(e, layerId, geometryId) == [Delete(layerId, geometryId)]
  {
    assert e.key != [] && !IsDigit(e.key[0]) by {
      assert ToLower(e.key)[0] in {'d', 'b'};
    }
    DigitRangeShape(e.key);
    assert e.key !in {"ArrowUp", "ArrowDown", "ArrowLeft", "ArrowRight"} by {
      assert |ToLower(e.key)| in {6, 9};
    }
  }

  /** 'h', unmodified, notifies the visibility handler and flips `visible` on
      the selected layer if there is one, otherwise on the selected geometry. */
  lemma HKeyTogglesVisibility(s: StoreState, e: KeyEvent, ids: Fresh, now: string)
    requires !e.inTextField && !e.meta && !e.ctrl && !e.shift && !e.alt && e.key == "h"
    ensures KeyDownNotified(s, e) == [OnToggleVisibility]
    ensures var t := KeyDownStep(s, e, ids, now);
            if Truthy(s.selectedLayerId) then
              var l := FindLayer(s.project.layers, s.selectedLayerId.value);
              t == if l.Some? then UpdateLayerStep(s, s.selectedLayerId.value, EmptyLayerPatch.(visible := Some(!l.value.visible)), now) else s
            else if Truthy(s.selectedGeometryId) then
              var g := FindGeometry(s.project.geometries, s.selectedGeometryId.value);
              t == if g.Some? then UpdateGeometryStep(s, s.selectedGeometryId.value, EmptyGeometryPatch.(visible := Some(!g.value.visible)), now) else s
            else t == s
  {
    HEffects(e, s.selectedLayerId, s.selectedGeometryId);
    KeyDownOf(s, e, ids, now, [Notify(OnToggleVisibility), Toggle(s.selectedLayerId, s.selectedGeometryId)]);
    RunNotifyFirst(s, OnToggleVisibility, Toggle(s.selectedLayerId, s.selectedGeometryId), ids, now);
  }

  lemma HEffects(e: KeyEvent, layerId: Option<string>, geometryId: Option<string>)
    requires !e.inTextField && !e.meta && !e.ctrl && !e.shift && !e.alt && e.key == "h"
    ensures Classify(e, layerId, geometryId) == [Notify(OnToggleVisibility), Toggle(layerId, geometryId)]
  {
    assert ToLower(e.key) == "h";
    DigitRangeShape(e.key);
  }

  /** Cmd+I, Cmd+V and Cmd+K add an image, video or colour layer on the
      selected geometry, and do nothing when no geometry is selected. */
  lemma CmdKeyAddsLayer(s: StoreState, e: KeyEvent, ids: Fresh, now: string)
    requires !e.inTextField && (e.meta || e.ctrl) && ToLower(e.key) in {"i", "v", "k"}
    ensures var ty := if ToLower(e.key) == "i" then ImageType else if ToLower(e.key) == "v" then VideoType else ColorType;
            KeyDownStep(s, e, ids, now) ==
              if Truthy(s.selectedGeometryId) then AddLayerStep(s, ty, s.selectedGeometryId.value, ids.layerId, now) else s
    ensures KeyDownNotified(s, e) == []
  {
    var ty := if ToLower(e.key) == "i" then ImageType else if ToLower(e.key) == "v" then VideoType else ColorType;
    CmdLetterEffects(e, s.selectedLayerId, s.selectedGeometryId);
    if Truthy(s.selectedGeometryId) {
      KeyDownOne(s, e, ids, now, AddLayerOn(ty, s.selectedGeometryId.value));
      PerformAddLayer(s, ty, s.selectedGeometryId.value, ids, now);
    } else {
      KeyDownOf(s, e, ids, now, []);
    }
  }

  /** The effects of Cmd+I, Cmd+V and Cmd+K: one layer added on the selected
      geometry, or none. */
  lemma CmdLetterEffects(e: KeyEvent, layerId: Option<string>, geometryId: Option<string>)
    requires !e.inTextField && (e.meta || e.ctrl) && ToLower(e.key) in {"i", "v", "k"}
    ensures var ty := if ToLower(e.key) == "i" then ImageType else if ToLower(e.key) == "v" then VideoType else ColorType;
            Classify(e, layerId, geometryId) == if Truthy(geometryId) then [AddLayerOn(ty, geometryId.value)] else []
  {
    assert |e.key| == 1;
    assert e.key[0] != 'g' by { assert ToLower(e.key)[0] != 'g'; }
    assert e.key !in {"ArrowUp", "ArrowDown", "ArrowLeft", "ArrowRight"};
    DigitRangeShape(e.key);
  }

  /** Cmd+'g' adds a geometry whatever is selected. */
  lemma CmdGAddsGeometry(s: StoreState, e: KeyEvent, ids: Fresh, now: string)
    requires !e.inTextField && (e.meta || e.ctrl) && e.key == "g"
    ensures KeyDownStep(s, e, ids, now) == AddGeometryStep(s, None, ids.geometryId, ids.pointIds, now)
    ensures KeyDownNotified(s, e) == []
  {
    CmdGEffects(e, s.selectedLayerId, s.selectedGeometryId);
    KeyDownOne(s, e, ids, now, AddNewGeometry);
    PerformAddGeometry(s, ids, now);
  }

  lemma PerformNudge(s: StoreState, layerId: Option<string>, dx: real, dy: real, ids: Fresh, now: string)
    ensures var l := if Truthy(layerId) then FindLayer(s.project.layers, layerId.value) else None;
            Perform(s, Nudge(layerId, dx, dy), ids, now) ==
              if l.Some? then UpdateLayerStep(s, layerId.value, EmptyLayerPatch.(transform := Some(Nudged(l.value.transform, dx, dy))), now)
              else s
  {
  }

  lemma PerformAddLayer(s: StoreState, ty: LayerType, target: string, ids: Fresh, now: string)
    ensures Perform(s, AddLayerOn(ty, target), ids, now) == AddLayerStep(s, ty, target, ids.layerId, now)
  {
  }

  lemma PerformAddGeometry(s: StoreState, ids: Fresh, now: string)
    ensures Perform(s, AddNewGeometry, ids, now) == AddGeometryStep(s, None, ids.geometryId, ids.pointIds, now)
  {
  }

  lemma CmdGEffects(e: KeyEvent, layerId: Option<string>, geometryId: Option<string>)
    requires !e.inTextField && (e.meta || e.ctrl) && e.key == "g"
    ensures Classify(e, layerId, geometryId) == [AddNewGeometry]
  {
    assert ToLower(e.key) == "g";
  }

  /** Cmd+S saves, with or without Shift, and changes nothing in the store. */
  lemma CmdSSaves(s: StoreState, e: KeyEvent, ids: Fresh, now: string)
    requires !e.inTextField && (e.meta || e.ctrl) && ToLower(e.key) == "s"
    ensures KeyDownStep(s, e, ids, now) == s
    ensures KeyDownNotified(s, e) == [OnSaveProject]
  {
    CmdSEffects(e, s.selectedLayerId, s.selectedGeometryId);
    KeyDownOne(s, e, ids, now, Notify(OnSaveProject));
  }

  lemma CmdSEffects(e: KeyEvent, layerId: Option<string>, geometryId: Option<string>)
    requires !e.inTextField && (e.meta || e.ctrl) && ToLower(e.key) == "s"
    ensures Classify(e, layerId, geometryId) == [Notify(OnSaveProject)]
  {
    assert |e.key| == 1;
    assert e.key[0] != 'g' by { assert ToLower(e.key)[0] != 'g'; }
    assert e.key !in {"ArrowUp", "ArrowDown", "ArrowLeft", "ArrowRight"};
  }

  // ------------------------------------------------------ the reset shortcut

  /** As written: the R key, with or without Cmd, neither resets the
      calibration nor does anything else, although the shortcut list
      advertises R for "Reset Calibration". */
  lemma ResetKeyIgnored(s: StoreState, e: KeyEvent, ids: Fresh, now: string)
    requires !e.inTextField && !e.shift && !e.alt && e.key in {"r", "R"}
    ensures KeyDownStep(s, e, ids, now) == s
    ensures KeyDownNotified(s, e) == []
  {
    ResetKeyEffects(e, s.selectedLayerId, s.selectedGeometryId);
    KeyDownOf(s, e, ids, now, []);
  }

  lemma ResetKeyEffects(e: KeyEvent, layerId: Option<string>, geometryId: Option<string>)
    requires !e.inTextField && !e.shift && !e.alt && e.key in {"r", "R"}
    ensures Classify(e, layerId, geometryId) == []
  {
    assert ToLower(e.key) == "r";
    assert !InDigitRange(e.key) by {
      DigitRangeShape(e.key);
    }
    assert e.key !in {"ArrowUp", "ArrowDown", "ArrowLeft", "ArrowRight"};
  }

  /** The no-modifier block as evidently intended: R (without Cmd, as the
      shortcut list shows it) asks for the calibration reset; every other key
      is treated as before. */
  function PlaybackBlockIntended(isCmd: bool, shift: bool, alt: bool, k: string,
                                 layerId: Option<string>, geometryId: Option<string>): seq<Action> {
    if !isCmd && !shift && !alt && k == "r" then [Notify(OnResetCalibration)]
    else PlaybackBlock(isCmd, shift, alt, k, layerId, geometryId)
  }

  /** With the intended block, R and only R notifies the reset handler, and
      the block changes nothing else. */
  lemma ResetKeyIntended(isCmd: bool, shift: bool, alt: bool, k: string,
                         layerId: Option<string>, geometryId: Option<string>)
    ensures Notify(OnResetCalibration) in PlaybackBlockIntended(isCmd, shift, alt, k, layerId, geometryId)
            <==> !isCmd && !shift && !alt && k == "r"
    ensures !(!isCmd && !shift && !alt && k == "r") ==>
              PlaybackBlockIntended(isCmd, shift, alt, k, layerId, geometryId)
                == PlaybackBlock(isCmd, shift, alt, k, layerId, geometryId)
  {
  }

  // ------------------------------------------------------------ the handler

  /** Running two lists of effects one after the other. */
  lemma {:induction false} RunAppend(s: StoreState, a: seq<Action>, b: seq<Action>, ids: Fresh, now: string)
    ensures Run(s, a + b, ids, now) == Run(Run(s, a, ids, now), b, ids, now)
    ensures Notified(a + b) == Notified(a) + Notified(b)
    decreases |b|
  {
    if b == [] {
      assert a + b == a;
    } else {
      var front := b[..|b| - 1];
      RunAppend(s, a, front, ids, now);
      assert (a + b)[..|a + b| - 1] == a + front;
      assert (a + b)[|a + b| - 1] == b[|b| - 1];
    }
  }

  method ToggleVisibility(store: Store, layerId: Option<string>, geometryId: Option<string>, ids: Fresh, now: string)
    modifies store
    ensures store.State() == Perform(old(store.State()), Toggle(layerId, geometryId), ids, now)
  {
    if Truthy(layerId) {
      var layer := FindLayer(store.project.layers, layerId.value);
      if layer.Some? {
        store.UpdateLayer(layerId.value, EmptyLayerPatch.(visible := Some(!layer.value.visible)), now);
      }
    } else if Truthy(geometryId) {
      var geometry := FindGeometry(store.project.geometries, geometryId.value);
      if geometry.Some? {
        store.UpdateGeometry(geometryId.value, EmptyGeometryPatch.(visible := Some(!geometry.value.visible)), now);
      }
    }
  }

  method DeleteSelected(store: Store, layerId: Option<string>, geometryId: Option<string>, ids: Fresh, now: string)
    modifies store
    ensures store.State() == Perform(old(store.State()), Delete(layerId, geometryId), ids, now)
  {
    if Truthy(layerId) {
      store.DeleteLayer(layerId.value, now);
    } else if Truthy(geometryId) {
      store.DeleteGeometry(geometryId.value, now);
    }
  }

  method SetSelectedOpacity(store: Store, layerId: Option<string>, opacity: real, ids: Fresh, now: string)
    modifies store
    ensures store.State() == Perform(old(store.State()), SetOpacity(layerId, opacity), ids, now)
  {
    if Truthy(layerId) {
      store.UpdateLayer(layerId.value, EmptyLayerPatch.(opacity := Some(opacity)), now);
    }
  }

  method NudgeSelected(store: Store, layerId: Option<string>, dx: real, dy: real, ids: Fresh, now: string)
    modifies store
    ensures store.State() == Perform(old(store.State()), Nudge(layerId, dx, dy), ids, now)
  {
    PerformNudge(store.State(), layerId, dx, dy, ids, now);
    if Truthy(layerId) {
      var layer := FindLayer(store.project.layers, layerId.value);
      if layer.Some? {
        store.UpdateLayer(layerId.value, EmptyLayerPatch.(transform := Some(Nudged(layer.value.transform, dx, dy))), now);
      }
    }
  }

  method FileShortcuts(isCmd: bool, isShift: bool, k: string) returns (notified: seq<Handler>)
    ensures notified == Notified(FileBlock(isCmd, isShift, k))
  {
    notified := [];
    if isCmd && !isShift {
      if k == "s" { notified := [OnSaveProject]; }
      else if k == "o" { notified := [OnOpenProject]; }
      else if k == "n" { notified := [OnNewProject]; }
      else if k == "d" { notified := [OnDuplicateSelected]; }
    }
    var acts := FileBlock(isCmd, isShift, k);
    if acts != [] { assert acts[..0] == []; }
  }

  method SaveAsShortcut(isCmd: bool, isShift: bool, k: string) returns (notified: seq<Handler>)
    ensures notified == Notified(ShiftFileBlock(isCmd, isShift, k))
  {
    notified := [];
    if isCmd && isShift && k == "s" {
      notified := [OnSaveProject];
      assert [Notify(OnSaveProject)][..0] == [];
    }
  }

  method PlaybackShortcuts(store: Store, isCmd: bool, isShift: bool, isAlt: bool, k: string,
                           layerId: Option<string>, geometryId: Option<string>, ids: Fresh, now: string)
    returns (notified: seq<Handler>)
    modifies store
    ensures notified == Notified(PlaybackBlock(isCmd, isShift, isAlt, k, layerId, geometryId))
    ensures store.State() == Run(old(store.State()), PlaybackBlock(isCmd, isShift, isAlt, k, layerId, geometryId), ids, now)
  {
    notified := [];
    ghost var s := store.State();
    if !isCmd && !isShift && !isAlt {
      if k == " " {
        notified := [OnTogglePlayback];
        RunOne(s, Notify(OnTogglePlayback), ids, now);
      } else if k == "c" {
        notified := [OnToggleCalibration];
        RunOne(s, Notify(OnToggleCalibration), ids, now);
      } else if k == "f" {
        notified := [OnToggleFullscreen];
        RunOne(s, Notify(OnToggleFullscreen), ids, now);
      } else if k == "h" {
        notified := [OnToggleVisibility];
        RunNotifyFirst(s, OnToggleVisibility, Toggle(layerId, geometryId), ids, now);
        ToggleVisibility(store, layerId, geometryId, ids, now);
      } else if k == "delete" || k == "backspace" {
        RunOne(s, Delete(layerId, geometryId), ids, now);
        DeleteSelected(store, layerId, geometryId, ids, now);
      } else if k == "r" {
        if isCmd {
          notified := [OnResetCalibration];
        }
      }
    }
  }

  method OpacityShortcut(store: Store, isCmd: bool, isShift: bool, isAlt: bool, key: string,
                         layerId: Option<string>, ids: Fresh, now: string)
    modifies store
    ensures store.State() == Run(old(store.State()), OpacityBlock(isCmd, isShift, isAlt, key, layerId), ids, now)
  {
    if !isCmd && !isShift && !isAlt {
      if InDigitRange(key) {
        var opacity := if key == "0" then 1.0 else (DigitsValue(LeadingDigits(key)) as real) * 0.1;
        RunOne(store.State(), SetOpacity(layerId, opacity), ids, now);
        SetSelectedOpacity(store, layerId, opacity, ids, now);
      }
    }
  }

  method NudgeShortcut(store: Store, key: string, isShift: bool,
                       layerId: Option<string>, geometryId: Option<string>, ids: Fresh, now: string)
    modifies store
    ensures store.State() == Run(old(store.State()), NudgeBlock(key, isShift, layerId, geometryId), ids, now)
  {
    if Truthy(geometryId) || Truthy(layerId) {
      var nudgeAmount := if isShift then 0.01 else 0.001;
      var dx, dy := 0.0, 0.0;
      if key == "ArrowUp" { dy := nudgeAmount; }
      else if key == "ArrowDown" { dy := -nudgeAmount; }
      else if key == "ArrowLeft" { dx := -nudgeAmount; }
      else if key == "ArrowRight" { dx := nudgeAmount; }
      assert (dx, dy) == ArrowDelta(key, isShift);
      if dx != 0.0 || dy != 0.0 {
        RunOne(store.State(), Nudge(layerId, dx, dy), ids, now);
        NudgeSelected(store, layerId, dx, dy, ids, now);
      }
    }
  }

  method LayerShortcuts(store: Store, isCmd: bool, k: string, geometryId: Option<string>, ids: Fresh, now: string)
    modifies store
    ensures store.State() == Run(old(store.State()), LayerBlock(isCmd, k, geometryId), ids, now)
  {
    if isCmd && Truthy(geometryId) {
      var ty: Option<LayerType> :=
        if k == "i" then Some(ImageType) else if k == "v" then Some(VideoType)
        else if k == "k" then Some(ColorType) else None;
      if ty.Some? {
        RunOne(store.State(), AddLayerOn(ty.value, geometryId.value), ids, now);
        PerformAddLayer(store.State(), ty.value, geometryId.value, ids, now);
        var _ := store.AddLayer(ty.value, geometryId.value, ids.layerId, now);
      }
    }
  }

  method GeometryShortcut(store: Store, isCmd: bool, key: string, ids: Fresh, now: string)
    modifies store
    ensures store.State() == Run(old(store.State()), GeometryBlock(isCmd, key), ids, now)
  {
    if isCmd && key == "g" {
      RunOne(store.State(), AddNewGeometry, ids, now);
      var _ := store.AddGeometry(None, ids.geometryId, ids.pointIds, now);
    }
  }

  /** The handler's seven blocks run one after the other. */
  lemma RunBlocks(s: StoreState, b1: seq<Action>, b2: seq<Action>, b3: seq<Action>, b4: seq<Action>,
                  b5: seq<Action>, b6: seq<Action>, b7: seq<Action>, ids: Fresh, now: string)
    ensures Run(s, b1 + b2 + b3 + b4 + b5 + b6 + b7, ids, now) ==
            Run(Run(Run(Run(Run(Run(Run(s, b1, ids, now), b2, ids, now), b3, ids, now), b4, ids, now), b5, ids, now), b6, ids, now), b7, ids, now)
    ensures Notified(b1 + b2 + b3 + b4 + b5 + b6 + b7) ==
            Notified(b1) + Notified(b2) + Notified(b3) + Notified(b4) + Notified(b5) + Notified(b6) + Notified(b7)
  {
    RunAppend(s, b1, b2, ids, now);
    RunAppend(s, b1 + b2, b3, ids, now);
    RunAppend(s, b1 + b2 + b3, b4, ids, now);
    RunAppend(s, b1 + b2 + b3 + b4, b5, ids, now);
    RunAppend(s, b1 + b2 + b3 + b4 + b5, b6, ids, now);
    RunAppend(s, b1 + b2 + b3 + b4 + b5 + b6, b7, ids, now);
  }

  /** A block of at most one store effect notifies nobody. */
  lemma QuietBlock(b: seq<Action>)
    requires |b| <= 1 && forall i :: 0 <= i < |b| ==> !b[i].Notify?
    ensures Notified(b) == []
  {
    if b != [] { assert b[..0] == []; }
  }

  /** A block of at most one notification leaves the store alone. */
  lemma NotifyBlock(s: StoreState, b: seq<Action>, ids: Fresh, now: string)
    requires |b| <= 1 && forall i :: 0 <= i < |b| ==> b[i].Notify?
    ensures Run(s, b, ids, now) == s
  {
    if b != [] { assert b[..0] == []; }
  }

  lemma ClassifyBlocks(e: KeyEvent, layerId: Option<string>, geometryId: Option<string>)
    requires !e.inTextField
    ensures var isCmd, k := e.meta || e.ctrl, ToLower(e.key);
            Classify(e, layerId, geometryId) ==
              FileBlock(isCmd, e.shift, k) + ShiftFileBlock(isCmd, e.shift, k)
              + PlaybackBlock(isCmd, e.shift, e.alt, k, layerId, geometryId)
              + OpacityBlock(isCmd, e.shift, e.alt, e.key, layerId)
              + NudgeBlock(e.key, e.shift, layerId, geometryId)
              + LayerBlock(isCmd, k, geometryId)
              + GeometryBlock(isCmd, e.key)
  {
  }

  /** The file blocks hold at most one notification each; the opacity,
      nudge, layer and geometry blocks at most one store effect each. */
  lemma BlockShapes(isCmd: bool, shift: bool, alt: bool, k: string, key: string,
                    layerId: Option<string>, geometryId: Option<string>)
    ensures var b1, b2 := FileBlock(isCmd, shift, k), ShiftFileBlock(isCmd, shift, k);
            |b1| <= 1 && (forall i :: 0 <= i < |b1| ==> b1[i].Notify?) &&
            |b2| <= 1 && (forall i :: 0 <= i < |b2| ==> b2[i].Notify?)
    ensures var b4, b5 := OpacityBlock(isCmd, shift, alt, key, layerId), NudgeBlock(key, shift, layerId, geometryId);
            |b4| <= 1 && (forall i :: 0 <= i < |b4| ==> !b4[i].Notify?) &&
            |b5| <= 1 && (forall i :: 0 <= i < |b5| ==> !b5[i].Notify?)
    ensures var b6, b7 := LayerBlock(isCmd, k, geometryId), GeometryBlock(isCmd, key);
            |b6| <= 1 && (forall i :: 0 <= i < |b6| ==> !b6[i].Notify?) &&
            |b7| <= 1 && (forall i :: 0 <= i < |b7| ==> !b7[i].Notify?)
  {
  }

  /** The handler's blocks composed: the file blocks only notify, the
      opacity, nudge, layer and geometry blocks only change the store. */
  lemma ComposeBlocks(s0: StoreState, s3: StoreState, s4: StoreState, s5: StoreState, s6: StoreState, s7: StoreState,
                      b1: seq<Action>, b2: seq<Action>, b3: seq<Action>, b4: seq<Action>,
                      b5: seq<Action>, b6: seq<Action>, b7: seq<Action>, ids: Fresh, now: string)
    requires |b1| <= 1 && forall i :: 0 <= i < |b1| ==> b1[i].Notify?
    requires |b2| <= 1 && forall i :: 0 <= i < |b2| ==> b2[i].Notify?
    requires |b4| <= 1 && forall i :: 0 <= i < |b4| ==> !b4[i].Notify?
    requires |b5| <= 1 && forall i :: 0 <= i < |b5| ==> !b5[i].Notify?
    requires |b6| <= 1 && forall i :: 0 <= i < |b6| ==> !b6[i].Notify?
    requires |b7| <= 1 && forall i :: 0 <= i < |b7| ==> !b7[i].Notify?
    requires s3 == Run(s0, b3, ids, now) && s4 == Run(s3, b4, ids, now) && s5 == Run(s4, b5, ids, now)
    requires s6 == Run(s5, b6, ids, now) && s7 == Run(s6, b7, ids, now)
    ensures s7 == Run(s0, b1 + b2 + b3 + b4 + b5 + b6 + b7, ids, now)
    ensures Notified(b1 + b2 + b3 + b4 + b5 + b6 + b7) == Notified(b1) + Notified(b2) + Notified(b3)
  {
    RunBlocks(s0, b1, b2, b3, b4, b5, b6, b7, ids, now);
    NotifyBlock(s0, b1, ids, now);
    NotifyBlock(s0, b2, ids, now);
    QuietBlock(b4);
    QuietBlock(b5);
    QuietBlock(b6);
    QuietBlock(b7);
  }

  /** `handleKeyDown`: returns the handlers it notified, in order. */
  method HandleKeyDown(store: Store, e: KeyEvent, ids: Fresh, now: string) returns (notified: seq<Handler>)
    modifies store
    ensures store.State() == KeyDownStep(old(store.State()), e, ids, now)
    ensures notified == KeyDownNotified(old(store.State()), e)
  {
    notified := [];
    if e.inTextField {
      return;
    }
    ghost var s0 := store.State();
    var layerId, geometryId := store.selectedLayerId, store.selectedGeometryId;
    var isCmd := e.meta || e.ctrl;
    var isShift := e.shift;
    var isAlt := e.alt;
    var k := ToLower(e.key);
    ClassifyBlocks(e, layerId, geometryId);
    BlockShapes(isCmd, isShift, isAlt, k, e.key, layerId, geometryId);

    var file := FileShortcuts(isCmd, isShift, k);
    var saveAs := SaveAsShortcut(isCmd, isShift, k);
    var playback := PlaybackShortcuts(store, isCmd, isShift, isAlt, k, layerId, geometryId, ids, now);
    ghost var s3 := store.State();
    OpacityShortcut(store, isCmd, isShift, isAlt, e.key, layerId, ids, now);
    ghost var s4 := store.State();
    NudgeShortcut(store, e.key, isShift, layerId, geometryId, ids, now);
    ghost var s5 := store.State();
    LayerShortcuts(store, isCmd, k, geometryId, ids, now);
    ghost var s6 := store.State();
    GeometryShortcut(store, isCmd, e.key, ids, now);
    notified := file + saveAs + playback;
    ComposeBlocks(s0, s3, s4, s5, s6, store.State(),
                  FileBlock(isCmd, isShift, k), ShiftFileBlock(isCmd, isShift, k),
                  PlaybackBlock(isCmd, isShift, isAlt, k, layerId, geometryId),
                  OpacityBlock(isCmd, isShift, isAlt, e.key, layerId),
                  NudgeBlock(e.key, isShift, layerId, geometryId),
                  LayerBlock(isCmd, k, geometryId), GeometryBlock(isCmd, e.key), ids, now);
  }
}
