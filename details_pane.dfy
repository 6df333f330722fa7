/** The details pane of the `src/` crate: a floating window beside the
    completion menu showing details about the selected item. The host's new
    window handle is an input. */
module Details {
  import opened Wrappers
  import opened Seqs
  import opened Text
  import opened Host

  /** Where the completion menu sits; below the cursor, of the given width. */
  datatype MenuPosition = Below(width: nat)

  const MaxPaneWidth: nat := 79

  /** `cmp::min(n, 79)`. */
  function Capped(n: nat): nat
  {
    if n < MaxPaneWidth then n else MaxPaneWidth
  }

  /** The UTF-8 length of each line (`len()`). */
  function ByteLens(lines: seq<string>): (lens: seq<nat>)
    ensures |lens| == |lines|
    ensures forall i :: 0 <= i < |lines| ==> lens[i] == ByteLen(lines[i])
  {
    if lines == [] then [] else [ByteLen(lines[0])] + ByteLens(lines[1..])
  }

  /** The pane is as wide as its longest line in bytes, capped at 79
      columns; with no lines it has no width. */
  function PaneWidth(lines: seq<string>): (w: nat)
    ensures w <= MaxPaneWidth
    ensures lines == [] ==> w == 0
    ensures forall i :: 0 <= i < |lines| ==> Capped(ByteLen(lines[i])) <= w
    ensures lines != [] ==> exists i :: 0 <= i < |lines| && w == Capped(ByteLen(lines[i]))
  {
    var lens := ByteLens(lines);
    var m := MaxNat(lens);
    assert lens != [] ==> exists i :: 0 <= i < |lens| && lens[i] == m;
    if m < MaxPaneWidth then m else MaxPaneWidth
  }

  /** On ASCII text bytes and code points agree, so the pane is as wide as
      the completion menu would be for the same lines, up to the cap. */
  lemma PaneWidthAscii(lines: seq<string>)
    requires forall i, j :: 0 <= i < |lines| && 0 <= j < |lines[i]| ==> lines[i][j] as int < 0x80
    ensures var m := MaxNat(CharCounts(lines));
      PaneWidth(lines) == Capped(m)
  {
    assert ByteLens(lines) == CharCounts(lines) by {
      forall i | 0 <= i < |lines|
        ensures ByteLen(lines[i]) == |lines[i]|
      {
        assert forall j :: 0 <= j < |lines[i]| ==> lines[i][j] as int < 0x80;
      }
    }
  }

  class DetailsPane {
    var bufnr: nat
    var winid: Option<nat>

    /** `DetailsPane::new`, given the scratch buffer the host created. */
    constructor (bufnr: nat)
      ensures this.bufnr == bufnr && winid == None
    {
      this.bufnr := bufnr;
      winid := None;
    }

    predicate IsVisible()
      reads this`winid
    {
      winid.Some?
    }

    /** `hide`: hides the window, if there is one. */
    method Hide(host: Host)
      modifies this`winid, host
      ensures !IsVisible()
      ensures old(winid).None? ==> host.calls == old(host.calls)
      ensures old(winid).Some? ==> host.calls == old(host.calls) + [WinHide(old(winid).value)]
    {
      if winid.Some? {
        host.calls := host.calls + [WinHide(winid.value)];
        winid := None;
      }
    }

    /** `show`: hides any window first, fills the buffer with `lines` and
        opens a window as tall as the lines, to the right of the menu. */
    method Show(host: Host, lines: seq<string>, position: MenuPosition, newWin: nat)
      modifies this`winid, host
      ensures IsVisible() && winid == Some(newWin)
      ensures host.calls == old(host.calls)
        + (if old(winid).Some? then [WinHide(old(winid).value)] else [])
        + [SetLines(bufnr, 0, -1, lines),
           OpenWin(bufnr, FloatConfig("cursor", 1, position.width, PaneWidth(lines), |lines|)),
           WinSetOption(newWin, "winhl", Str("Normal:CompleetDetails")),
           WinSetOption(newWin, "scrolloff", Int(0))]
    {
      Hide(host);
      var width := PaneWidth(lines);
      var height := |lines|;
      var col := match position case Below(w) => w;
      host.calls := host.calls +
        [SetLines(bufnr, 0, -1, lines),
         OpenWin(bufnr, FloatConfig("cursor", 1, col, width, height)),
         WinSetOption(newWin, "winhl", Str("Normal:CompleetDetails")),
         WinSetOption(newWin, "scrolloff", Int(0))];
      winid := Some(newWin);
    }
  }
}
