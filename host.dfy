/** The editor host seen from the plugin: highlighted message chunks and the
    log of calls the plugin makes into Neovim. Host answers (option values,
    new handles, whether an attach succeeded) are passed to the operations as
    inputs; host side effects are appended to `Host.calls` in the order the
    plugin issues them. */
module Host {
  import opened Wrappers

  /** One `(text, highlight group)` pair of an echoed message. */
  datatype Chunk = Chunk(text: string, hl: Option<string>)

  /** The text a message shows, highlight groups dropped. */
  function Texts(chunks: seq<Chunk>): string
  {
    if chunks == [] then [] else chunks[0].text + Texts(chunks[1..])
  }

  datatype LogLevel = Info | Error

  datatype OptionValue = Str(s: string) | Int(i: int)

  /** The floating-window options the plugin passes to `nvim_open_win`. */
  datatype FloatConfig = FloatConfig(relative: string, row: int, col: int, width: nat, height: nat)

  datatype HostCall =
    | EchoErr(chunks: seq<Chunk>)                   // utils::echoerr
    | Echo(chunks: seq<Chunk>, history: bool)       // nvim_echo
    | Notify(msg: string, level: LogLevel)          // vim.notify
    | GetOption(buf: nat, name: string)             // nvim_buf_get_option
    | RequestShouldAttach(buf: nat)                 // RPC request to the server
    | BufAttach(buf: nat)                           // nvim_buf_attach with on_bytes
    | AddAutocmds(buf: nat, events: seq<string>)    // buffer-local autocmds
    | CreateAugroup(name: string)
    | CreateAutocmd(events: seq<string>, group: nat, callback: nat)
    | DelAugroup(id: nat)
    | Schedule(callback: nat)                       // vim.schedule
    | UiCleanup                                     // ui::cleanup
    | SetLines(buf: nat, start: int, end: int, lines: seq<string>)
    | OpenWin(buf: nat, config: FloatConfig)
    | WinSetOption(win: nat, name: string, value: OptionValue)
    | WinHide(win: nat)
    | SetKeymap(mode: string, lhs: string, expr: bool)
    | InsertCompletion(index: nat)
    // registration steps recorded as one entry each
    | SetupErrorMsgHlgroups
    | SetupAutocmds
    | SetupCommands
    | SetupHlgroups
    | SetupMappings
    | SpawnChannel
    | SetupAugroups

  class Host {
    var calls: seq<HostCall>

    constructor ()
      ensures calls == []
    {
      calls := [];
    }
  }
}
