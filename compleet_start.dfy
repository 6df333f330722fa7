/** The `:CompleetStart` user command: with a bang it turns completion on in
    every buffer, without one in the current buffer only. The host's answers
    are inputs: the current buffer and the id of a newly created augroup. */
module CompleetStart {
  import opened Wrappers
  import opened Seqs
  import opened Text
  import opened Host
  import PluginState

  const AugroupName: string := "Compleet"

  const AlreadyOnMsg: string := "[nvim-compleet] Completion is already on"
  const StartedAllMsg: string := "[nvim-compleet] Started completion in all buffers"
  const AlreadyOnInBufferMsg: string := "[nvim-compleet] Completion is already on in this buffer"

  function StartedInBufferMsg(bufnr: nat): string
  {
    "[nvim-compleet] Started completion in buffer " + NatToString(bufnr)
  }

  /** The message names the buffer it was started in. */
  lemma StartedInBufferNamesBuffer(bufnr: nat)
    ensures var prefix := "[nvim-compleet] Started completion in buffer ";
      StartedInBufferMsg(bufnr)[..|prefix|] == prefix &&
      ParseDecimal(StartedInBufferMsg(bufnr)[|prefix|..]) == Some(bufnr)
  {
    DecimalRoundTrip(bufnr);
    var prefix := "[nvim-compleet] Started completion in buffer ";
    assert StartedInBufferMsg(bufnr)[|prefix|..] == NatToString(bufnr);
  }

  /** The effect of `attach_all_buffers`. */
  twostate predicate AttachedAll(state: PluginState.State, host: Host, newAugroup: nat)
    reads state, host
  {
    if old(state.augroupId).Some? then
      // already on: one error, state untouched
      host.calls == old(host.calls) + [Notify(AlreadyOnMsg, Error)] &&
      state.buffersToBeDetached == old(state.buffersToBeDetached) &&
      state.augroupId == old(state.augroupId) &&
      state.tryBufAttach == old(state.tryBufAttach)
    else
      old(state.tryBufAttach).Some? &&
      var callback := old(state.tryBufAttach).value;
      state.buffersToBeDetached == [] &&
      state.tryBufAttach == None &&
      state.augroupId == Some(newAugroup) &&
      host.calls == old(host.calls) + [CreateAugroup(AugroupName),
                                       CreateAutocmd(["BufEnter"], newAugroup, callback),
                                       Schedule(callback),
                                       Notify(StartedAllMsg, Info)]
  }

  /** The effect of `attach_current_buffer` on buffer `bufnr`. */
  twostate predicate AttachedCurrent(state: PluginState.State, host: Host, bufnr: nat, newAugroup: nat)
    reads state, host
  {
    if bufnr in old(state.attachedBuffers) then
      host.calls == old(host.calls) + [Notify(AlreadyOnInBufferMsg, Error)] &&
      state.buffersToBeDetached == old(state.buffersToBeDetached) &&
      state.augroupId == old(state.augroupId) &&
      state.tryBufAttach == old(state.tryBufAttach)
    else
      old(state.tryBufAttach).Some? &&
      var callback := old(state.tryBufAttach).value;
      state.buffersToBeDetached == RemoveAll(old(state.buffersToBeDetached), bufnr) &&
      state.augroupId == (if old(state.augroupId).None? then Some(newAugroup) else old(state.augroupId)) &&
      state.tryBufAttach == None &&
      host.calls == old(host.calls)
                    + (if old(state.augroupId).None? then [CreateAugroup(AugroupName)] else [])
                    + [Schedule(callback), Notify(StartedInBufferMsg(bufnr), Info)]
  }

  /** `compleet_start`: `bang` picks all buffers, otherwise the current one.
      Both paths `expect` the `try_buf_attach` callback to be there once past
      their early return. */
  method CompleetStart(state: PluginState.State, host: Host, bang: bool, currentBuf: nat, newAugroup: nat)
    requires bang ==> state.augroupId.Some? || state.tryBufAttach.Some?
    requires !bang ==> currentBuf in state.attachedBuffers || state.tryBufAttach.Some?
    modifies state`buffersToBeDetached, state`augroupId, state`tryBufAttach, host
    ensures bang ==> AttachedAll(state, host, newAugroup)
    ensures !bang ==> AttachedCurrent(state, host, currentBuf, newAugroup)
  {
    if bang {
      AttachAllBuffers(state, host, newAugroup);
    } else {
      AttachCurrentBuffer(state, host, currentBuf, newAugroup);
    }
  }

  method AttachAllBuffers(state: PluginState.State, host: Host, newAugroup: nat)
    requires state.augroupId.Some? || state.tryBufAttach.Some?
    modifies state`buffersToBeDetached, state`augroupId, state`tryBufAttach, host
    ensures AttachedAll(state, host, newAugroup)
  {
    if state.augroupId.Some? {
      host.calls := host.calls + [Notify(AlreadyOnMsg, Error)];
      return;
    }
    state.buffersToBeDetached := [];
    var callback := state.tryBufAttach.value;
    state.tryBufAttach := None;
    host.calls := host.calls + [CreateAugroup(AugroupName)];
    host.calls := host.calls + [CreateAutocmd(["BufEnter"], newAugroup, callback)];
    host.calls := host.calls + [Schedule(callback)];
    state.augroupId := Some(newAugroup);
    host.calls := host.calls + [Notify(StartedAllMsg, Info)];
  }

  method AttachCurrentBuffer(state: PluginState.State, host: Host, bufnr: nat, newAugroup: nat)
    requires bufnr in state.attachedBuffers || state.tryBufAttach.Some?
    modifies state`buffersToBeDetached, state`augroupId, state`tryBufAttach, host
    ensures AttachedCurrent(state, host, bufnr, newAugroup)
  {
    if bufnr in state.attachedBuffers {
      host.calls := host.calls + [Notify(AlreadyOnInBufferMsg, Error)];
      return;
    }
    if bufnr in state.buffersToBeDetached {
      state.buffersToBeDetached := RemoveAll(state.buffersToBeDetached, bufnr);
    } else {
      RemoveAllAbsent(state.buffersToBeDetached, bufnr);
    }
    if state.augroupId.None? {
      host.calls := host.calls + [CreateAugroup(AugroupName)];
      state.augroupId := Some(newAugroup);
    }
    var callback := state.tryBufAttach.value;
    state.tryBufAttach := None;
    host.calls := host.calls + [Schedule(callback)];
    host.calls := host.calls + [Notify(StartedInBufferMsg(bufnr), Info)];
  }
}
