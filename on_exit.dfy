/** `on_exit`: called when the RPC channel to the server closes. Exit code
    143 (SIGTERM, sent when the user quits Neovim) is not an error; any other
    code tears down the UI and the autocmds and tells the user the code. */
module OnExit {
  import opened Wrappers
  import opened Text
  import opened Host
  import ClientState

  newtype u32 = x: int | 0 <= x < 0x1_0000_0000

  /** The exit code the server gets from SIGTERM. */
  const SigtermExit: u32 := 143

  /** The error message for an unexpected exit. */
  function ExitMessage(code: u32): seq<Chunk>
  {
    [Chunk("The server just quit with exit code ", None), Chunk(NatToString(code as nat), Some("Visual"))]
  }

  /** The message names the exit code: its highlighted part reads back as
      the code, and the message is the fixed prefix followed by it. */
  lemma ExitMessageNamesCode(code: u32)
    ensures |ExitMessage(code)| == 2
    ensures ParseDecimal(ExitMessage(code)[1].text) == Some(code as nat)
    ensures Texts(ExitMessage(code)) == "The server just quit with exit code " + ExitMessage(code)[1].text
  {
    DecimalRoundTrip(code as nat);
    var m := ExitMessage(code);
    assert Texts(m[1..]) == m[1].text + Texts(m[2..]);
    assert m[2..] == [];
  }

  /** Distinct exit codes give distinct messages. */
  lemma ExitMessageInjective(a: u32, b: u32)
    requires a != b
    ensures ExitMessage(a) != ExitMessage(b)
  {
    DecimalRoundTrip(a as nat);
    DecimalRoundTrip(b as nat);
  }

  method OnExit(state: ClientState.State, host: Host, exitCode: u32)
    requires exitCode != SigtermExit ==> state.ui.Some?
    modifies host
    ensures exitCode == SigtermExit ==> host.calls == old(host.calls)
    ensures exitCode != SigtermExit ==>
      host.calls == old(host.calls) + [UiCleanup]
                    + (if state.augroupId.Some? then [DelAugroup(state.augroupId.value)] else [])
                    + [EchoErr(ExitMessage(exitCode))]
  {
    if exitCode == SigtermExit {
      return;
    }
    host.calls := host.calls + [UiCleanup];
    if state.augroupId.Some? {
      host.calls := host.calls + [DelAugroup(state.augroupId.value)];
    }
    host.calls := host.calls + [EchoErr(ExitMessage(exitCode))];
  }
}
