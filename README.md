# nvim-compleet control-thread bookkeeping, in Dafny

nvim-compleet is an autocompletion plugin for Neovim written in Rust. This
project models the sequential bookkeeping at its centre and proves
properties of it:

- **Main-thread drain.** `main_cb` empties the queue that the worker threads fill. It attaches
  buffers in queue order and hands the collected completion bundles to
  `on_completions_arrival` at most once.
- **Buffer attachment.** `on_buf_enter` attaches to a buffer only after a chain of guards.
  `:CompleetStart` / `:CompleetStart!` read the attached list and update the
  to-be-detached list, the augroup id and the one-shot `try_buf_attach`
  callback in place.
- **Server exit.** `on_exit` ignores exit code 143 (SIGTERM) and tears the plugin down
  for any other exit code.
- **Setup.**
  - Both crates' `setup` functions are modelled: the `compleet-client` ladder of version, preference kind, empty sources, and first-time-only initialisation; and the `src/` crate's dispatch on settings errors.
  - The backtick splitter `to_chunks` that highlights field names in error messages.
  - The `<Tab>`, `<S-Tab>` and `<CR>` key decisions.
- **UI geometry.** The completion menu and the details pane: window height and
  width, and opening, closing and hiding them as an optional window handle.
- **Completion items and the LSP source.** The completion item builder and the stub LSP
  completion source.

Host effects are modelled as a log. The plugin's calls that change editor
state are appended to `Host.calls`, in the order they are issued. So are the
`modifiable` read and the `ShouldAttach` request of `on_buf_enter`, and the
Lua calls to the server. Other host queries are not logged (see "## Left
out"). Every answer the host gives comes in as a method input:

- whether a buffer is `modifiable`;
- the server's reply to `ShouldAttach`;
- whether `nvim_buf_attach` succeeded;
- new augroup, window and buffer handles;
- the result of parsing the user's preferences.

Modules:

| module | models |
|---|---|
| `Wrappers` | `Option`, `Result` and `Outcome` (the `Result<()>` of a Rust function). |
| `Seqs` | `Vec::retain`, `Iterator::max`, and freedom from duplicates. |
| `Text` | Rust's `to_string` and `format!` of integers, `str::split`, `str::len`, and `chars().count()`. |
| `Host` | Highlighted message chunks and the log of host calls. |
| `ThreadMain` | `compleet-core/src/threads/thread_main.rs` |
| `ClientState`, `OnBufEnter`, `OnExit`, `ClientSetup` | The `compleet-client` crate. |
| `PluginState`, `CompleetStart`, `ApiSetup`, `Details` | The `src/` crate. |
| `Menu` | `completion-core/src/ui/completion_menu.rs` |
| `CompletionItems`, `CompleetLsp` | The completion item and the LSP source. |

Two behaviours of the code worth knowing when reading the model:

- `on_buf_enter` sends one `ShouldAttach` request to the server and attaches
  only if the server answers true.
- In `main_cb` the first failing `attach_buffer` ends the whole drain: later
  messages stay queued and the bundles collected so far are dropped
  (`ThreadMain.DrainAttachFailure`).

## Model

| member | source | states |
|---|---|---|
| ThreadMain.Receiver.TryRecv | compleet-core/src/threads/thread_main.rs:23 | `try_recv` returns the oldest message and removes it from the queue. On an empty queue it returns nothing and the queue stays empty. |
| ThreadMain.Client.AttachBuffer | compleet-core/src/threads/thread_main.rs:25 | One `attach_buffer` call is recorded. Its success is the client's answer for that buffer. |
| ThreadMain.Client.OnCompletionsArrival | compleet-core/src/threads/thread_main.rs:31 | One `on_completions_arrival` call is recorded, with exactly the given bundles. |
| ThreadMain.MainCb | compleet-core/src/threads/thread_main.rs:17-35 | The loop leaves exactly the messages `MainCbSpec` leaves in the queue. It makes exactly the client calls `MainCbSpec` makes, and returns its result. |
| ThreadMain.MainCbSpec | compleet-core/src/threads/thread_main.rs:17-35 | One call of `main_cb` on a queue: a drain that starts with no bundles collected. Its properties are the drain lemmas below. |
| ThreadMain.DrainFrom | compleet-core/src/threads/thread_main.rs:21-34 | The rest of a drain after some bundles were collected. A successful attach continues, a failing one stops with the rest queued, and a bundle is collected. On an empty queue the collected bundles are forwarded in one call, if there are any. |
| ThreadMain.EmptyDrainIsNoOp | compleet-core/src/threads/thread_main.rs:21-34 | Draining an empty queue calls nothing and returns Ok. |
| ThreadMain.DrainAllAttached | compleet-core/src/threads/thread_main.rs:21-34 | When every attach succeeds, the queue ends empty. The calls are one `attach_buffer` per `AttachBuf` message, in queue order. These are followed by one arrival call carrying exactly the `HandleCompletions` payloads in arrival order, made only if there is at least one. The result is Ok unless that call fails. |
| ThreadMain.DrainAttachFailure | compleet-core/src/threads/thread_main.rs:23-25 | The first failing attach ends the drain with its error. Every message after it stays queued. The calls made are the attaches up to and including it, and no arrival call is made. |
| ThreadMain.DrainFromAllAttached | compleet-core/src/threads/thread_main.rs:21-34 | Generalises `DrainAllAttached` to a drain that starts with bundles already collected: those bundles come first in the single arrival call. |
| ThreadMain.DrainFromAttachFailure | compleet-core/src/threads/thread_main.rs:23-25 | Generalises `DrainAttachFailure` to a drain that starts with bundles already collected: they are dropped. |
| ThreadMain.OkDrainEmptiesQueue | compleet-core/src/threads/thread_main.rs:23-34 | A drain that returns Ok has consumed every queued message. |
| ThreadMain.ArrivalAtMostOnce | compleet-core/src/threads/thread_main.rs:30-32 | `on_completions_arrival` is called at most once per drain. When it is called, it is the last call and carries at least one bundle. |
| ThreadMain.AttachCalls | compleet-core/src/threads/thread_main.rs:25 | One attach call per buffer, in the same order. |
| ClientState.State.constructor | compleet-client/src/setup.rs:88-105 | A starting state, not `State::new` itself (which is not part of this model): it has nothing attached, no augroup, no callback, no channel and `did_setup` false. |
| OnBufEnter.OnBufEnter | compleet-client/src/autocmds/on_buf_enter.rs:10-55 | An already attached buffer causes no host query and no change. A buffer that is not modifiable is never attached, and the server is not asked about it. A `false` from the server changes nothing. A failed host attach echoes exactly one error and records nothing. On success, two buffer-local autocmds (`CursorMovedI`, `InsertLeave`) are added and the buffer is appended once at the end. The attached list stays free of duplicates. |
| OnExit.OnExit | compleet-client/src/channel/on_exit.rs:9-37 | Exit code 143 makes no host call. Any other code cleans up the UI, requiring the UI to exist. It deletes the augroup if and only if there is one, then echoes exactly one error. The augroup id is left as it is. |
| OnExit.ExitMessageNamesCode | compleet-client/src/channel/on_exit.rs:26-32 | The error message is the fixed prefix followed by the exit code's decimal digits, and the highlighted part parses back to the code. |
| OnExit.ExitMessageInjective | compleet-client/src/channel/on_exit.rs:26-32 | Distinct exit codes give distinct messages. |
| ClientSetup.Decide | compleet-client/src/setup.rs:25-85 | Before 0.7 the outcome is the version error. With 0.7, `nil` preferences give the defaults and a parsed table gives its settings. Either is applied if and only if it names at least one source, and otherwise gives the no-sources error. A deserialize error gives the message with its field path. Preferences that are neither `nil` nor a table give the not-a-table message. A Lua error is propagated exactly when deserialization fails with something other than a deserialize error, and it is that error. |
| ClientSetup.DeserializeErrorReported | compleet-client/src/setup.rs:40-55 | A deserialize error is reported, not propagated. Its message's first highlighted chunk is the field path. |
| ClientSetup.Setup | compleet-client/src/setup.rs:15-108 | The error-message highlight groups are always set up first. An aborted setup echoes one error and leaves the state untouched. A propagated error leaves it untouched too. An applied setup replaces the settings. Only the first one registers autocmds, commands, highlight groups and mappings, spawns the channel, stores the augroup id and callback, and sets `did_setup`. |
| ClientSetup.ChunksFromLength | compleet-client/src/setup.rs:110-122 | Each segment yields one chunk at an even index and three at an odd index. |
| ClientSetup.ChunksFromAt | compleet-client/src/setup.rs:110-122 | Segment `j` sits at position `2j` of the output. An even one is a single plain chunk. An odd one is a backtick, the segment highlighted as `CompleetErrorMsgField`, and a backtick. |
| ClientSetup.ToChunksLayout | compleet-client/src/setup.rs:110-122 | `to_chunks` gives `2n - n%2` chunks for `n` backtick-separated segments. Even segments are plain and odd segments are highlighted between backticks, each at position `2i`. |
| ClientSetup.ChunksFromTexts | compleet-client/src/setup.rs:111-119 | The chunk texts of segments from index `k` on are the segments joined by backticks, with an opening backtick when `k` is odd and a closing one when the last index is odd. |
| ClientSetup.ToChunksTexts | compleet-client/src/setup.rs:111-119 | The chunk texts of `to_chunks(msg)` are `msg`, followed by one extra backtick when `msg` has an odd number of backticks. |
| ClientSetup.ToChunksReconstructs | compleet-client/src/setup.rs:111-119 | With an even number of backticks, the chunk texts rebuild `msg` exactly. |
| ClientSetup.PieceChunks | compleet-client/src/setup.rs:113-120 | An odd piece becomes three chunks: a backtick, the highlighted piece, and a backtick. An even piece becomes itself, unhighlighted. |
| ClientSetup.ToChunks | compleet-client/src/setup.rs:110-122 | `to_chunks`: the backtick-split pieces mapped through `PieceChunks` and flattened. Its layout and text are pinned down by `ToChunksLayout`, `ToChunksTexts` and `ToChunksReconstructs`. |
| CompleetStart.StartedInBufferNamesBuffer | src/commands/compleet_start.rs:111-114 | The start message is the fixed text followed by the buffer number, which parses back to the number. |
| CompleetStart.CompleetStart | src/commands/compleet_start.rs:7-18 | With the bang, the effect is `attach_all_buffers`; without it, `attach_current_buffer`. |
| CompleetStart.AttachAllBuffers | src/commands/compleet_start.rs:21-69 | With an augroup already present, it emits exactly one Error notification and changes nothing. Otherwise it empties the to-be-detached list and takes the callback, leaving none. It creates the augroup, registers `BufEnter` with the callback, schedules the callback, stores the new augroup id, and emits one Info notification. The callback must exist past the early return. |
| CompleetStart.AttachCurrentBuffer | src/commands/compleet_start.rs:71-117 | An attached buffer gets exactly one Error notification and no change. Otherwise every occurrence of the buffer is removed from the to-be-detached list. An augroup is created only when there is none, and an existing id is kept. The callback is taken and scheduled, and one Info notification naming the buffer is emitted. |
| ApiSetup.Setup | src/api/setup.rs:10-86 | A parsed configuration is stored, and the menu's maximum height becomes its `max_menu_height`. Augroups, highlight groups and the five `<Plug>` mappings are registered, then the three default mappings if they are enabled. A Lua error is returned and nothing changes. Any other settings error echoes one message, returns Ok, and leaves the settings and the height as they were. |
| ApiSetup.ErrorChunks | src/api/setup.rs:23-66 | A settings error message has four chunks: the `[nvim-compleet]: ` prefix, a plain lead-in, the option name highlighted as `Statement`, and a plain tail. |
| ApiSetup.ErrorChunksInjective | src/api/setup.rs:23-66 | Distinct settings errors give distinct messages. |
| ApiSetup.PlugsInstalled | src/api/setup.rs:168-248 | All five `<Plug>` mappings are installed, in non-expression form, whatever the settings. |
| ApiSetup.DefaultMappingsIff | src/api/setup.rs:81-83 | An expression mapping is installed on a key if and only if the default mappings are enabled and the key is `<Tab>`, `<S-Tab>` or `<CR>`. |
| ApiSetup.Keymaps | src/api/setup.rs:212-245 | One insert-mode keymap per name, in order. |
| ApiSetup.TabKey | src/api/setup.rs:258-267 | `<Tab>` gives the next-completion plug when the menu is visible. Otherwise it gives the show-completions plug if there are completions, and `<Tab>` if there are none. An error from `has_completions` is propagated. |
| ApiSetup.STabKey | src/api/setup.rs:272-278 | `<S-Tab>` gives the prev-completion plug if and only if the menu is visible, and `<S-Tab>` otherwise. |
| ApiSetup.CrKey | src/api/setup.rs:283-289 | `<CR>` gives the insert-selected plug if and only if an item is selected, and `<CR>` otherwise. |
| ApiSetup.TabLandsOnInstalledPlug | src/api/setup.rs:258-267 | Whatever `<Tab>` returns is `<Tab>` itself or a `<Plug>` mapping that setup installs. |
| ApiSetup.STabLandsOnInstalledPlug | src/api/setup.rs:272-278 | The same, for `<S-Tab>`. |
| ApiSetup.CrLandsOnInstalledPlug | src/api/setup.rs:283-289 | The same, for `<CR>`. |
| ApiSetup.InsertHinted | src/api/setup.rs:171-177 | Inserts the hinted completion if there is one, and does nothing otherwise. |
| ApiSetup.InsertSelected | src/api/setup.rs:181-187 | Inserts the selected completion if there is one, and does nothing otherwise. |
| Menu.MenuHeight | completion-core/src/ui/completion_menu.rs:93 | The height is the smaller of the configured maximum and the number of completions. |
| Menu.MenuWidth | completion-core/src/ui/completion_menu.rs:104 | The width is the largest code-point count of the lines: no line is wider, and some line is exactly that wide. |
| Menu.CompletionMenu.constructor | completion-core/src/ui/completion_menu.rs:37-56 | The default menu uses buffer 0 and has no window. |
| Menu.CompletionMenu.Init | completion-core/src/ui/completion_menu.rs:60-65 | Stores the configuration and the new scratch buffer. |
| Menu.CompletionMenu.IsOpen | completion-core/src/ui/completion_menu.rs:68-70 | The menu is open exactly when it has a window; `Open` and `Close` state their effect through it. |
| Menu.CompletionMenu.Open | completion-core/src/ui/completion_menu.rs:73-124 | Requires the menu to be closed and at least one completion. It writes the lines into buffer range [0, 10), then opens a window at cursor row 1, column 0, with the width and height above. Afterwards the menu is open. |
| Menu.CompletionMenu.Close | completion-core/src/ui/completion_menu.rs:171-177 | Leaves the menu closed. It hides the window if there was one, and otherwise does nothing, so a second close is a no-op. |
| Details.PaneWidth | src/ui/details_pane.rs:86-93 | The width is `min(max byte length, 79)`: no line's capped byte length exceeds it, and for some line it is exactly that line's capped byte length. It is 0 when there are no lines. |
| Details.PaneWidthAscii | src/ui/details_pane.rs:86-93 | On ASCII lines, the byte width equals the code-point width, capped at 79. |
| Details.ByteLens | src/ui/details_pane.rs:89 | Gives each line's UTF-8 length. |
| Details.DetailsPane.constructor | src/ui/details_pane.rs:18-23 | A new pane has no window. |
| Details.DetailsPane.IsVisible | src/ui/details_pane.rs:66-68 | The pane is visible exactly when it has a window; `Hide` and `Show` state their effect through it. |
| Details.DetailsPane.Hide | src/ui/details_pane.rs:57-63 | Leaves the pane invisible. It hides the window only if there was one, so hiding twice is a no-op. |
| Details.DetailsPane.Show | src/ui/details_pane.rs:77-109 | Hides any existing window first and sets the buffer's lines. It opens a window at row 1, in the menu's width column, with `PaneWidth` columns and one row per line. It sets `winhl` and `scrolloff` on it, and the pane is then visible. |
| CompletionItems.NewItem | compleet-core/src/completion_item.rs:9-11 | The item's text is the given text. |
| CompletionItems.NewBuilder | compleet-core/src/completion_item.rs:23-25 | A new builder always holds the text. |
| CompletionItems.Build | compleet-core/src/completion_item.rs:29-31 | The item takes the builder's text; a builder with none is a precondition violation. |
| CompletionItems.BuildNewBuilder | compleet-core/src/completion_item.rs:9-31 | Building a new builder never panics and equals `CompletionItem::new` of the same text. |
| CompleetLsp.Api | compleet-sources/compleet-lsp/src/compleet_lsp.rs:26-32 | The source exposes exactly one function, `client_capabilities`. |
| CompleetLsp.ShouldAttach | compleet-sources/compleet-lsp/src/compleet_lsp.rs:34-40 | Returns Ok(true) for every buffer and configuration. |
| CompleetLsp.Complete | compleet-sources/compleet-lsp/src/compleet_lsp.rs:42-56 | Never fails. Returns exactly one item: the source name `lsp`, then ` received `, then the context's character. |
| Seqs.RemoveAll | src/commands/compleet_start.rs:89 | `retain(\|b\| b != x)`: `x` is not left, and nothing is added. |
| Seqs.RemoveAllKeepsOthers | src/commands/compleet_start.rs:89 | Every other element keeps its number of occurrences. |
| Seqs.RemoveAllInOrder | src/commands/compleet_start.rs:89 | The result is a subsequence of the input, so the kept elements stay in order. |
| Seqs.RemoveAllAbsent | src/commands/compleet_start.rs:88-90 | Removing an element that is not there changes nothing. This is why the `contains` guard does not alter the result. |
| Seqs.MaxNat | src/ui/details_pane.rs:86-91 | Bounds every element from above, is attained by one of them, and is 0 for an empty list (`unwrap_or(0)`). |
| Text.NatToString | compleet-client/src/channel/on_exit.rs:30 | A number's decimal form: digits only, at least one, with no leading zero. |
| Text.DecimalRoundTrip | compleet-client/src/channel/on_exit.rs:30 | Parsing a number's decimal form gives the number back. |
| Text.ByteLen | src/ui/details_pane.rs:89 | The UTF-8 length lies between the code-point count and four times it, and equals the count exactly on ASCII text. |
| Text.Split | compleet-client/src/setup.rs:111 | `str::split` always gives at least one piece, and no piece contains the separator. |
| Text.SplitCount | compleet-client/src/setup.rs:111 | There is one more piece than there are separators. |
| Text.JoinSplit | compleet-client/src/setup.rs:111 | Joining the pieces with the separator gives back the string. |
| Text.SplitJoin | compleet-client/src/setup.rs:111 | Splitting separator-free pieces joined by the separator gives back the pieces. |
| Text.CharCounts | completion-core/src/ui/completion_menu.rs:104 | Gives each line's code-point count. |

## Left out

- **Errors from host calls.** Any Neovim API call or Lua call can fail with `?`. The model treats every host call as successful, except the ones whose answer decides a branch: attaching a buffer, `attach_buffer`, `on_completions_arrival`, parsing the settings, and `has_completions`.
- **Unlogged host queries.** These queries make no log entry; only their answers enter the model, as inputs: `has("nvim-0.7")` in the client `setup`, `Buffer::get_current` in `on_buf_enter`, `get_current_buf` in `attach_current_buffer`, `create_buf` in the completion menu's `init` and the details pane's `new`, `create_namespace` for the menu, and `has_completions` in the `<Tab>` mapping. The log therefore does not show that these calls were made, or in what order relative to the logged ones.
- **Concurrency.** The tokio channel, the `Arc<Mutex<..>>`/`parking_lot` locking and `vim.schedule` deferral are not modelled. The queue is a plain sequence, and holding the lock is exclusive access.
- **Host callbacks in the drain.** Whether `attach_buffer` and `on_completions_arrival` succeed is a function fixed per client: the same buffer always gets the same answer within a drain. Their own bodies, and the revision and staleness logic behind them, are not part of this model.
- **Settings deserialization.** serde / `serde_path_to_error` parsing is not modelled; its result is an input to both `setup` functions. The `Debug` rendering of a non-table preference is an input string too.
- **Registration internals.** `utils::echoerr`, `ui::cleanup` and the registration steps are single log entries; their internals are not modelled. These steps are `hlgroups::setup_error_msg`, `autocmds::setup`, `commands::setup`, `hlgroups::setup`, `mappings::setup`, `Channel::new`, `setup_augroups` and `setup_hlgroups`. `SetupHlgroups` stands for each crate's own highlight-group registration. In the `src/` crate `setup_mappings` is logged as its five `<Plug>` keymaps and no separate entry.
- **The five `<Plug>` callbacks.** They are logged by name. The three autocmds of `setup_augroups` are logged as one entry, because their callbacks (`cleanup_ui`, `maybe_show_hint`, `text_changed`) are not part of this model.
- **`select_completion` and `show_completions`.** Not part of this model; `insert_completion` is logged with its index.
- **Hidden menu internals.** The `src/` crate's `is_visible` and `is_item_selected` are not part of this model. They are the flags `menuVisible` and "`selectedCompletion` is set".
- **Menu display and stubs.** `single_line_display` is not part of this model: the menu's display lines are an input. The empty `insert` stub and the `todo!()` bodies of `remove` and `scroll` have no behaviour to model.
- **Window options.** The menu's `namespace_id`, its `win_config` field and its never-updated `height`/`width` fields are not modelled. Neither are the constant window options `noautocmd`, `zindex`, `focusable` and `style`.
- Menu.MenuHeight: `completions.len() as _` is a cast to the window builder's integer type. The model takes the unbounded minimum, so more than 2^32 completions would truncate in the source but not here.
- Menu.MenuWidth: the `width as u32` cast is not modelled, so a display line of more than 2^32 code points would truncate in the source but not here.
- **Timing output.** The `nvim::print!` perf-timing messages in `open` are not modelled.
- OnExit.OnExit: the source unwraps `state.ui` and panics when it is missing; the model makes its presence a precondition for codes other than 143.
- CompleetStart.AttachAllBuffers: the source panics through `expect` when the `try_buf_attach` callback is gone; the model makes its presence a precondition once past the early return. The same holds for CompleetStart.AttachCurrentBuffer.
- Menu.CompletionMenu.Open: the `debug_assert!(!self.is_open())` and the panicking `unwrap` on an empty completion list are preconditions.
