/** `on_buf_enter`: run on every `BufEnter` and by `:CompleetStart`. It
    attaches to the current buffer unless the buffer is already attached,
    is not modifiable, or the server has no source for it. The host's
    answers are inputs: `modifiable` (the buffer option), `shouldAttach` (the
    server's reply to `ShouldAttach`) and `attachOk` (whether
    `nvim_buf_attach` succeeded). */
module OnBufEnter {
  import opened Wrappers
  import opened Seqs
  import opened Host
  import ClientState

  const AttachEvents: seq<string> := ["CursorMovedI", "InsertLeave"]

  const AttachErrorMsg: seq<Chunk> := [Chunk("Couldn't attach to buffer", None)]

  method OnBufEnter(state: ClientState.State, host: Host, buffer: nat,
                    modifiable: bool, shouldAttach: bool, attachOk: bool)
    requires state.Valid()
    modifies state`attachedBuffers, host
    ensures state.Valid()
    // already attached: nothing is asked and nothing changes
    ensures buffer in old(state.attachedBuffers) ==>
      host.calls == old(host.calls) && state.attachedBuffers == old(state.attachedBuffers)
    // not modifiable: the server is not asked
    ensures buffer !in old(state.attachedBuffers) && !modifiable ==>
      host.calls == old(host.calls) + [GetOption(buffer, "modifiable")] &&
      state.attachedBuffers == old(state.attachedBuffers)
    // no source for the buffer
    ensures buffer !in old(state.attachedBuffers) && modifiable && !shouldAttach ==>
      host.calls == old(host.calls) + [GetOption(buffer, "modifiable"), RequestShouldAttach(buffer)] &&
      state.attachedBuffers == old(state.attachedBuffers)
    // the host refused the attach: one error, nothing recorded
    ensures buffer !in old(state.attachedBuffers) && modifiable && shouldAttach && !attachOk ==>
      host.calls == old(host.calls) + [GetOption(buffer, "modifiable"), RequestShouldAttach(buffer),
                                       BufAttach(buffer), EchoErr(AttachErrorMsg)] &&
      state.attachedBuffers == old(state.attachedBuffers)
    // attached: two buffer-local autocmds, the buffer appended once at the end
    ensures buffer !in old(state.attachedBuffers) && modifiable && shouldAttach && attachOk ==>
      host.calls == old(host.calls) + [GetOption(buffer, "modifiable"), RequestShouldAttach(buffer),
                                       BufAttach(buffer), AddAutocmds(buffer, AttachEvents)] &&
      state.attachedBuffers == old(state.attachedBuffers) + [buffer]
  {
    if buffer in state.attachedBuffers {
      return;
    }
    host.calls := host.calls + [GetOption(buffer, "modifiable")];
    if !modifiable {
      return;
    }
    host.calls := host.calls + [RequestShouldAttach(buffer)];
    if !shouldAttach {
      return;
    }
    host.calls := host.calls + [BufAttach(buffer)];
    if !attachOk {
      host.calls := host.calls + [EchoErr(AttachErrorMsg)];
    } else {
      host.calls := host.calls + [AddAutocmds(buffer, AttachEvents)];
      AppendFreshKeepsNoDuplicates(state.attachedBuffers, buffer);
      state.attachedBuffers := state.attachedBuffers + [buffer];
    }
  }
}
