/**
 * The main process's view of the screens: the display list it hands to the
 * editing window, and the bookkeeping of the single fullscreen output
 * window. Windows are named by handles; closing a window is asynchronous:
 * `close()` only asks, and the window's `closed` event arrives later.
 */
module Displays {
  import opened Types
  import opened Text

  /** A screen as the operating system reports it. */
  datatype ScreenDisplay = ScreenDisplay(id: nat, bounds: Bounds, internal: Option<bool>)

  /** A JavaScript number that holds an integer, printed in decimal. */
  function IntToString(i: int): (s: string)
    ensures i >= 0 ==> s == NatToString(i)
    ensures i < 0 ==> s == "-" + NatToString(-i)
  {
    if i < 0 then "-" + NatToString(-i) else NatToString(i)
  }

  /** The name before the resolution suffix. */
  function DisplayLabel(isPrimary: bool, isInternal: bool, index: nat): string {
    if isPrimary && isInternal then "Built-in Display"
    else if isInternal then "Internal Display " + NatToString(index + 1)
    else if isPrimary then "Primary External Display"
    else "External Display " + NatToString(index + 1)
  }

  /** ` (WxH)` */
  function ResolutionSuffix(b: Bounds): string {
    " (" + IntToString(b.width) + "x" + IntToString(b.height) + ")"
  }

  function DisplayEntry(d: ScreenDisplay, index: nat, primaryId: nat): Display {
    var isPrimary, isInternal := d.id == primaryId, d.internal == Some(true);
    Display(NatToString(d.id), DisplayLabel(isPrimary, isInternal, index) + ResolutionSuffix(d.bounds),
            d.bounds, isPrimary, isInternal)
  }

  /** `app:getDisplays`: one entry per screen, in the same order. */
  function DisplayEntries(ds: seq<ScreenDisplay>, primaryId: nat): (r: seq<Display>)
    ensures |r| == |ds|
    ensures forall k :: 0 <= k < |ds| ==>
              r[k].id == NatToString(ds[k].id) && r[k].bounds == ds[k].bounds &&
              (r[k].isPrimary <==> ds[k].id == primaryId) &&
              (r[k].isInternal <==> ds[k].internal == Some(true))
  {
    seq(|ds|, k requires 0 <= k < |ds| => DisplayEntry(ds[k], k, primaryId))
  }

  /** Every entry's name ends with the screen's resolution, and starts with
      the label its primary and internal flags and position choose. */
  lemma DisplayNameShape(ds: seq<ScreenDisplay>, primaryId: nat, k: nat)
    requires k < |ds|
    ensures var e := DisplayEntries(ds, primaryId)[k];
            var suffix := ResolutionSuffix(ds[k].bounds);
            var head := DisplayLabel(e.isPrimary, e.isInternal, k);
            |e.name| == |head| + |suffix| &&
            e.name[..|head|] == head && e.name[|head|..] == suffix
  {
    var e := DisplayEntries(ds, primaryId)[k];
    assert e == DisplayEntry(ds[k], k, primaryId);
  }

  /** Two external, non-primary screens at different positions get different
      names even when their resolutions agree. */
  lemma ExternalNamesDistinct(ds: seq<ScreenDisplay>, primaryId: nat, i: nat, j: nat)
    requires i < j < |ds|
    requires ds[i].id != primaryId && ds[j].id != primaryId
    requires ds[i].internal != Some(true) && ds[j].internal != Some(true)
    ensures DisplayEntries(ds, primaryId)[i].name != DisplayEntries(ds, primaryId)[j].name
  {
    var r := DisplayEntries(ds, primaryId);
    var ni, nj := NatToString(i + 1), NatToString(j + 1);
    var si, sj := ResolutionSuffix(ds[i].bounds), ResolutionSuffix(ds[j].bounds);
    assert r[i] == DisplayEntry(ds[i], i, primaryId) && r[j] == DisplayEntry(ds[j], j, primaryId);
    if r[i].name == r[j].name {
      SuffixFree(ni, nj, si, sj);
      NatToStringInjective(i + 1, j + 1);
    }
  }

  /** "External Display " + digits + " (" ... can be split back into its digits. */
  lemma SuffixFree(a: string, b: string, sa: string, sb: string)
    requires AllDigits(a) && AllDigits(b) && sa != [] && sb != [] && sa[0] == ' ' && sb[0] == ' '
    requires "External Display " + a + sa == "External Display " + b + sb
    ensures a == b
  {
    var x, y := a + sa, b + sb;
    assert ("External Display " + a + sa)[17..] == x;
    assert ("External Display " + b + sb)[17..] == y;
    assert x == y;
    assert |a| == |b| by {
      assert x[|a|] == ' ' && y[|b|] == ' ';
    }
    assert a == x[..|a|] && b == y[..|b|];
  }

  /** Entry ids are as distinct as the screens' ids. */
  lemma EntryIdsDistinct(ds: seq<ScreenDisplay>, primaryId: nat, i: nat, j: nat)
    requires i < |ds| && j < |ds|
    ensures DisplayEntries(ds, primaryId)[i].id == DisplayEntries(ds, primaryId)[j].id <==> ds[i].id == ds[j].id
  {
    if NatToString(ds[i].id) == NatToString(ds[j].id) {
      NatToStringInjective(ds[i].id, ds[j].id);
    }
  }

  /** `displays.find(d => d.id.toString() === displayId)` */
  function FindScreen(ds: seq<ScreenDisplay>, displayId: string): (r: Option<ScreenDisplay>)
    ensures r.None? <==> forall k :: 0 <= k < |ds| ==> NatToString(ds[k].id) != displayId
    ensures r.Some? ==> r.value in ds && NatToString(r.value.id) == displayId
  {
    if ds == [] then None
    else if NatToString(ds[0].id) == displayId then Some(ds[0])
    else FindScreen(ds[1..], displayId)
  }

  // ------------------------------------------------------- the output window

  /** `outputWindow`, the windows not yet closed, the ones asked to close
      whose `closed` event is still to come, and the next fresh handle; each
      open window shows the screen it was placed on. */
  datatype Windows = Windows(outputWindow: Option<nat>, open: map<nat, Bounds>, closing: set<nat>, next: nat)

  const NoWindows := Windows(None, map[], {}, 0)

  /** Every open window has a handle below `next`, only open windows can be
      closing, and `outputWindow`, when set, is open. */
  predicate WellFormed(w: Windows) {
    (forall h :: h in w.open ==> h < w.next) && w.closing <= w.open.Keys &&
    (w.outputWindow.Some? ==> w.outputWindow.value in w.open)
  }

  /** The output window is tracked: every open window that is not closing
      is the one `outputWindow` refers to, so the application can always
      reach (and close) what it is showing. */
  predicate Tracked(w: Windows) {
    WellFormed(w) &&
    (w.outputWindow.Some? ==> w.outputWindow.value in w.open && w.outputWindow.value !in w.closing) &&
    forall h :: h in w.open && h !in w.closing ==> w.outputWindow == Some(h)
  }

  /** `createOutputWindow(displayId)`: an unknown id changes nothing;
      otherwise the current output window is asked to close and a new one is
      opened on the screen's bounds. */
  function CreateStep(w: Windows, ds: seq<ScreenDisplay>, displayId: string): (t: Windows)
    requires WellFormed(w)
    ensures WellFormed(t)
    ensures FindScreen(ds, displayId).None? ==> t == w
    ensures FindScreen(ds, displayId).Some? ==>
              t.outputWindow == Some(w.next) && w.next !in w.open &&
              t.open == w.open[w.next := FindScreen(ds, displayId).value.bounds] &&
              t.closing == w.closing + (if w.outputWindow.Some? then {w.outputWindow.value} else {})
  {
    match FindScreen(ds, displayId)
    case None => w
    case Some(d) =>
      var closing := if w.outputWindow.Some? then w.closing + {w.outputWindow.value} else w.closing;
      Windows(Some(w.next), w.open[w.next := d.bounds], closing, w.next + 1)
  }

  /** A `closed` event for window `h`, handled as the main process does:
      `outputWindow` is cleared whichever window closed. */
  function ClosedStepAsWritten(w: Windows, h: nat): Windows {
    Windows(None, w.open - {h}, w.closing - {h}, w.next)
  }

  /** The `closed` handler as evidently intended: `outputWindow` is cleared
      only when it is the window that closed. */
  function ClosedStep(w: Windows, h: nat): Windows {
    Windows(if w.outputWindow == Some(h) then None else w.outputWindow, w.open - {h}, w.closing - {h}, w.next)
  }

  lemma CreateKeepsTracked(w: Windows, ds: seq<ScreenDisplay>, displayId: string)
    requires Tracked(w)
    ensures Tracked(CreateStep(w, ds, displayId))
  {
  }

  /** With the guarded handler, creating windows and delivering `closed`
      events in any order keeps the output window tracked. */
  lemma ClosedKeepsTracked(w: Windows, h: nat)
    requires Tracked(w) && h in w.open
    ensures Tracked(ClosedStep(w, h))
  {
    var t := ClosedStep(w, h);
    forall g | g in t.open && g !in t.closing
      ensures t.outputWindow == Some(g)
    {
      assert g in w.open && g !in w.closing && g != h;
    }
  }

  /** As written: choosing a second output screen while the first window is
      open, then the first window's `closed` event arriving, leaves the new
      window open and showing but no longer referenced, so a later choice of
      screen or quitting the editor cannot close it. */
  lemma OrphanedOutputWindow(b1: Bounds, b2: Bounds)
    ensures var ds := [ScreenDisplay(1, b1, Some(true)), ScreenDisplay(2, b2, None)];
            var w1 := CreateStep(NoWindows, ds, "1");
            var w2 := CreateStep(w1, ds, "2");
            var w3 := ClosedStepAsWritten(w2, 0);
            Tracked(w1) && Tracked(w2) && !Tracked(w3) &&
            1 in w3.open && 1 !in w3.closing && w3.outputWindow.None? &&
            Tracked(ClosedStep(w2, 0)) && ClosedStep(w2, 0).outputWindow == Some(1)
  {
    var ds := [ScreenDisplay(1, b1, Some(true)), ScreenDisplay(2, b2, None)];
    assert NatToString(1) == "1" && NatToString(2) == "2";
    assert FindScreen(ds, "1") == Some(ds[0]);
    assert FindScreen(ds, "2") == Some(ds[1]);
  }

  /** The main process's window variables. */
  class WindowManager {
    var outputWindow: Option<nat>
    var open: map<nat, Bounds>
    var closing: set<nat>
    var next: nat

    function State(): Windows
      reads this
    {
      Windows(outputWindow, open, closing, next)
    }

    constructor()
      ensures State() == NoWindows
    {
      outputWindow, open, closing, next := None, map[], {}, 0;
    }

    /** `createOutputWindow`; the screens are those the system reports. */
    method CreateOutputWindow(ds: seq<ScreenDisplay>, displayId: string)
      requires WellFormed(State())
      modifies this
      ensures State() == CreateStep(old(State()), ds, displayId)
    {
      var target := FindScreen(ds, displayId);
      if target.None? {
        return;
      }
      if outputWindow.Some? {
        closing := closing + {outputWindow.value};
      }
      open := open[next := target.value.bounds];
      outputWindow := Some(next);
      next := next + 1;
    }

    /** The `closed` handler as the main process installs it. */
    method OutputWindowClosedAsWritten(h: nat)
      modifies this
      ensures State() == ClosedStepAsWritten(old(State()), h)
    {
      open := open - {h};
      closing := closing - {h};
      outputWindow := None;
    }

    /** The `closed` handler, guarded. */
    method OutputWindowClosed(h: nat)
      modifies this
      ensures State() == ClosedStep(old(State()), h)
    {
      open := open - {h};
      closing := closing - {h};
      if outputWindow == Some(h) {
        outputWindow := None;
      }
    }
  }
}
