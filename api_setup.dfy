/** `require("compleet").setup({..})` of the `src/` crate: the dispatch on
    the settings error, the propagation of the menu height, and the
    decisions taken by the `<Tab>`, `<S-Tab>` and `<CR>` expression
    mappings and the two insert mappings it installs. Parsing the settings
    is not part of this model: its result is an input. */
module ApiSetup {
  import opened Wrappers
  import opened Host
  import PluginState

  /** The errors settings parsing reports. */
  datatype SettingsError =
    | OptionDoesntExist(option: string)
    | FailedConversion(option: string, expected: string)
    | InvalidValue(option: string, reason: string)
    | Lua(luaError: string)

  const Prefix: Chunk := Chunk("[nvim-compleet]: ", Some("ErrorMsg"))

  /** The message echoed for a settings error that is not a Lua error: the
      prefix, a lead-in, the option highlighted as a statement, a tail. */
  function ErrorChunks(e: SettingsError): (chunks: seq<Chunk>)
    requires !e.Lua?
    ensures |chunks| == 4 && chunks[0] == Prefix
    ensures chunks[2] == Chunk(e.option, Some("Statement"))
    ensures chunks[1].hl == None && chunks[3].hl == None
  {
    match e
    case OptionDoesntExist(option) =>
      [Prefix, Chunk("Config option '", None), Chunk(option, Some("Statement")),
       Chunk("' doesn't exist!", None)]
    case FailedConversion(option, expected) =>
      [Prefix, Chunk("Error parsing config option '", None), Chunk(option, Some("Statement")),
       Chunk("': expected a " + expected + ".", None)]
    case InvalidValue(option, reason) =>
      [Prefix, Chunk("Invalid value for config option '", None), Chunk(option, Some("Statement")),
       Chunk("': " + reason + ".", None)]
  }

  /** Different error kinds, or the same kind about different options or
      with different details, never produce the same message. */
  lemma ErrorChunksInjective(e1: SettingsError, e2: SettingsError)
    requires !e1.Lua? && !e2.Lua?
    requires ErrorChunks(e1) == ErrorChunks(e2)
    ensures e1 == e2
  {
    var c1, c2 := ErrorChunks(e1), ErrorChunks(e2);
    assert c1[1] == c2[1] && c1[3] == c2[3];
    match e1
    case OptionDoesntExist(_) =>
      assert c1[1].text[0] == 'C';
    case FailedConversion(_, x1) =>
      assert c1[1].text[0] == 'E';
      if e2.FailedConversion? {
        var pre := "': expected a ";
        assert c1[3].text[|pre|..|c1[3].text| - 1] == x1;
        assert c2[3].text[|pre|..|c2[3].text| - 1] == e2.expected;
      }
    case InvalidValue(_, r1) =>
      assert c1[1].text[0] == 'I';
      if e2.InvalidValue? {
        assert c1[3].text[3..|c1[3].text| - 1] == r1;
        assert c2[3].text[3..|c2[3].text| - 1] == e2.reason;
      }
  }

  const AugroupName: string := "Compleet"

  /** The `<Plug>` mappings installed by `setup_mappings`, in order. */
  const InsertHintedPlug: string := "<Plug>(compleet-insert-hinted-completion)"
  const InsertSelectedPlug: string := "<Plug>(compleet-insert-selected-completion)"
  const NextPlug: string := "<Plug>(compleet-next-completion)"
  const PrevPlug: string := "<Plug>(compleet-prev-completion)"
  const ShowPlug: string := "<Plug>(compleet-show-completions)"
  const Plugs: seq<string> := [InsertHintedPlug, InsertSelectedPlug, NextPlug, PrevPlug, ShowPlug]

  /** The keys `enable_default_mappings` maps. */
  const DefaultKeys: seq<string> := ["<Tab>", "<S-Tab>", "<CR>"]

  /** One insert-mode keymap per name; `expr` tells expression mappings. */
  function Keymaps(lhss: seq<string>, expr: bool): (calls: seq<HostCall>)
    ensures |calls| == |lhss|
    ensures forall i :: 0 <= i < |lhss| ==> calls[i] == SetKeymap("i", lhss[i], expr)
  {
    if lhss == [] then [] else [SetKeymap("i", lhss[0], expr)] + Keymaps(lhss[1..], expr)
  }

  /** The host calls of a setup whose settings parsed: augroup with its three
      autocommands, the highlight groups, the five `<Plug>` mappings, and the
      three default mappings when enabled. */
  function SetupCalls(settings: PluginState.Settings): seq<HostCall>
  {
    [SetupAugroups, SetupHlgroups] + Keymaps(Plugs, false)
    + (if settings.enableDefaultMappings then Keymaps(DefaultKeys, true) else [])
  }

  /** Every `<Plug>` mapping is installed, whatever the settings. */
  lemma PlugsInstalled(settings: PluginState.Settings, plug: string)
    requires plug in Plugs
    ensures SetKeymap("i", plug, false) in SetupCalls(settings)
  {
    var i :| 0 <= i < |Plugs| && Plugs[i] == plug;
    assert SetupCalls(settings)[2 + i] == Keymaps(Plugs, false)[i];
  }

  /** An expression mapping is installed on a key exactly when the default
      mappings are enabled and the key is one of `<Tab>`, `<S-Tab>`, `<CR>`. */
  lemma DefaultMappingsIff(settings: PluginState.Settings, key: string)
    ensures SetKeymap("i", key, true) in SetupCalls(settings)
            <==> settings.enableDefaultMappings && key in DefaultKeys
  {
    var calls := SetupCalls(settings);
    var head := [SetupAugroups, SetupHlgroups] + Keymaps(Plugs, false);
    assert forall j :: 0 <= j < |head| ==> !head[j].SetKeymap? || !head[j].expr;
    if SetKeymap("i", key, true) in calls {
      var j :| 0 <= j < |calls| && calls[j] == SetKeymap("i", key, true);
      assert j >= |head|;
      var tail := Keymaps(DefaultKeys, true);
      assert settings.enableDefaultMappings && calls[j] == tail[j - |head|];
    }
    if settings.enableDefaultMappings && key in DefaultKeys {
      var i :| 0 <= i < |DefaultKeys| && DefaultKeys[i] == key;
      assert calls[|head| + i] == Keymaps(DefaultKeys, true)[i];
    }
  }

  /** `setup`: `parsed` is the result of parsing the user preferences. */
  method Setup(state: PluginState.State, host: Host, parsed: Result<PluginState.Settings, SettingsError>)
    returns (r: Outcome<string>)
    modifies state`settings, state`menuMaxHeight, host
    ensures parsed.Ok? ==>
      r == Pass &&
      state.settings == parsed.value &&
      state.menuMaxHeight == parsed.value.maxMenuHeight &&
      host.calls == old(host.calls) + SetupCalls(parsed.value)
    ensures parsed.Err? && parsed.error.Lua? ==>
      r == Fail(parsed.error.luaError) &&
      state.settings == old(state.settings) &&
      state.menuMaxHeight == old(state.menuMaxHeight) &&
      host.calls == old(host.calls)
    ensures parsed.Err? && !parsed.error.Lua? ==>
      r == Pass &&
      state.settings == old(state.settings) &&
      state.menuMaxHeight == old(state.menuMaxHeight) &&
      host.calls == old(host.calls) + [Echo(ErrorChunks(parsed.error), true)]
  {
    if parsed.Err? {
      var e := parsed.error;
      if e.Lua? {
        return Fail(e.luaError);
      }
      host.calls := host.calls + [Echo(ErrorChunks(e), true)];
      return Pass;
    }
    state.settings := parsed.value;
    state.menuMaxHeight := state.settings.maxMenuHeight;
    var registered := [SetupAugroups, SetupHlgroups] + Keymaps(Plugs, false);
    if state.settings.enableDefaultMappings {
      registered := registered + Keymaps(DefaultKeys, true);
    }
    host.calls := host.calls + registered;
    return Pass;
  }

  /** The `<Tab>` expression mapping. `hasCompletions` is the answer of
      `has_completions`, asked only when the menu is hidden; its error is
      propagated. */
  function TabKey(menuVisible: bool, hasCompletions: Result<bool, string>): (r: Result<string, string>)
    ensures menuVisible ==> r == Ok(NextPlug)
    ensures !menuVisible && hasCompletions.Err? ==> r == Err(hasCompletions.error)
    ensures !menuVisible && hasCompletions == Ok(true) ==> r == Ok(ShowPlug)
    ensures !menuVisible && hasCompletions == Ok(false) ==> r == Ok("<Tab>")
  {
    if menuVisible then Ok(NextPlug)
    else match hasCompletions
      case Err(e) => Err(e)
      case Ok(has) => if has then Ok(ShowPlug) else Ok("<Tab>")
  }

  /** The `<S-Tab>` expression mapping. */
  function STabKey(menuVisible: bool): (r: string)
    ensures r == PrevPlug <==> menuVisible
    ensures r == "<S-Tab>" <==> !menuVisible
  {
    if menuVisible then PrevPlug else "<S-Tab>"
  }

  /** The `<CR>` expression mapping: an item is selected when the menu's
      `selected_completion` is set. */
  function CrKey(selectedCompletion: Option<nat>): (r: string)
    ensures r == InsertSelectedPlug <==> selectedCompletion.Some?
    ensures r == "<CR>" <==> selectedCompletion.None?
  {
    if selectedCompletion.Some? then InsertSelectedPlug else "<CR>"
  }

  /** `<Tab>` never leads anywhere but a `<Plug>` mapping that `setup`
      installs, or back to `<Tab>` itself. */
  lemma TabLandsOnInstalledPlug(settings: PluginState.Settings, menuVisible: bool,
                                hasCompletions: Result<bool, string>)
    ensures TabKey(menuVisible, hasCompletions).Ok? ==>
      var t := TabKey(menuVisible, hasCompletions).value;
      t == "<Tab>" || SetKeymap("i", t, false) in SetupCalls(settings)
  {
    if menuVisible {
      PlugsInstalled(settings, NextPlug);
    } else if hasCompletions == Ok(true) {
      PlugsInstalled(settings, ShowPlug);
    }
  }

  /** Likewise for `<S-Tab>`. */
  lemma STabLandsOnInstalledPlug(settings: PluginState.Settings, menuVisible: bool)
    ensures STabKey(menuVisible) == "<S-Tab>" || SetKeymap("i", STabKey(menuVisible), false) in SetupCalls(settings)
  {
    if menuVisible {
      PlugsInstalled(settings, PrevPlug);
    }
  }

  /** Likewise for `<CR>`. */
  lemma CrLandsOnInstalledPlug(settings: PluginState.Settings, selected: Option<nat>)
    ensures CrKey(selected) == "<CR>" || SetKeymap("i", CrKey(selected), false) in SetupCalls(settings)
  {
    if selected.Some? {
      PlugsInstalled(settings, InsertSelectedPlug);
    }
  }

  /** The `<Plug>(compleet-insert-hinted-completion)` callback. */
  method InsertHinted(state: PluginState.State, host: Host)
    modifies host
    ensures state.hintedIndex.None? ==> host.calls == old(host.calls)
    ensures state.hintedIndex.Some? ==>
      host.calls == old(host.calls) + [InsertCompletion(state.hintedIndex.value)]
  {
    if state.hintedIndex.Some? {
      host.calls := host.calls + [InsertCompletion(state.hintedIndex.value)];
    }
  }

  /** The `<Plug>(compleet-insert-selected-completion)` callback. */
  method InsertSelected(state: PluginState.State, host: Host)
    modifies host
    ensures state.selectedCompletion.None? ==> host.calls == old(host.calls)
    ensures state.selectedCompletion.Some? ==>
      host.calls == old(host.calls) + [InsertCompletion(state.selectedCompletion.value)]
  {
    if state.selectedCompletion.Some? {
      host.calls := host.calls + [InsertCompletion(state.selectedCompletion.value)];
    }
  }
}
