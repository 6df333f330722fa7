/** The completion menu of the `completion-core` crate: a scratch buffer
    shown in a floating window below the cursor. Only the window handle is
    state the modelled operations change; the host's new handles are
    inputs. */
module Menu {
  import opened Wrappers
  import opened Seqs
  import opened Text
  import opened Host

  /** The menu is as tall as the completions, but no taller than the
      configured maximum. */
  function MenuHeight(maxHeight: nat, count: nat): (h: nat)
    ensures h <= maxHeight && h <= count
    ensures h == maxHeight || h == count
  {
    if maxHeight <= count then maxHeight else count
  }

  /** The menu is as wide as its widest line, counted in code points. */
  function MenuWidth(lines: seq<string>): (w: nat)
    ensures forall i :: 0 <= i < |lines| ==> |lines[i]| <= w
    ensures lines != [] ==> exists i :: 0 <= i < |lines| && |lines[i]| == w
  {
    var counts := CharCounts(lines);
    var w := MaxNat(counts);
    assert counts != [] ==> exists i :: 0 <= i < |counts| && counts[i] == w;
    w
  }

  class CompletionMenu {
    /** `config.max_height`. */
    var maxHeight: nat
    var buf: nat
    var win: Option<nat>

    /** `CompletionMenu::default`: buffer 0, no window. */
    constructor (maxHeight: nat)
      ensures this.maxHeight == maxHeight && buf == 0 && win == None
    {
      this.maxHeight := maxHeight;
      buf := 0;
      win := None;
    }

    /** `init`: takes the configuration and a new scratch buffer. */
    method Init(maxHeight: nat, newBuf: nat)
      modifies this`maxHeight, this`buf
      ensures this.maxHeight == maxHeight && buf == newBuf
    {
      this.maxHeight := maxHeight;
      buf := newBuf;
    }

    predicate IsOpen()
      reads this`win
    {
      win.Some?
    }

    /** `open`: `lines` are the one-line displays of the completions and
        `newWin` the handle the host gives the new window. The menu must be
        closed, and there must be a completion, or taking the width panics. */
    method Open(host: Host, lines: seq<string>, newWin: nat)
      requires !IsOpen()
      requires lines != []
      modifies this`win, host
      ensures IsOpen() && win == Some(newWin)
      ensures host.calls == old(host.calls) +
        [SetLines(buf, 0, 10, lines),
         OpenWin(buf, FloatConfig("cursor", 1, 0, MenuWidth(lines), MenuHeight(maxHeight, |lines|)))]
    {
      host.calls := host.calls + [SetLines(buf, 0, 10, lines)];
      var height := MenuHeight(maxHeight, |lines|);
      var width := MenuWidth(lines);
      host.calls := host.calls + [OpenWin(buf, FloatConfig("cursor", 1, 0, width, height))];
      win := Some(newWin);
    }

    /** `close`: hides the window if there is one. */
    method Close(host: Host)
      modifies this`win, host
      ensures !IsOpen()
      ensures old(win).None? ==> host.calls == old(host.calls)
      ensures old(win).Some? ==> host.calls == old(host.calls) + [WinHide(old(win).value)]
    {
      if win.Some? {
        var w := win.value;
        win := None;
        host.calls := host.calls + [WinHide(w)];
      }
    }
  }
}
