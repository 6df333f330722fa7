/** The state of the `src/` crate of the plugin (its `State` struct, of which
    only the fields the modelled operations read or write are kept). */
module PluginState {
  import opened Wrappers

  /** The user settings; only the two fields `setup` reads are kept. */
  datatype Settings = Settings(maxMenuHeight: nat, enableDefaultMappings: bool)

  class State {
    /** Buffers completion is on in. */
    var attachedBuffers: seq<nat>
    /** Buffers queued to be detached from buffer-update events. */
    var buffersToBeDetached: seq<nat>
    var augroupId: Option<nat>
    /** Handle of the `try_buf_attach` callback, a one-shot resource. */
    var tryBufAttach: Option<nat>
    var settings: Settings
    /** `ui.completion_menu.max_height`. */
    var menuMaxHeight: nat
    /** `ui.completion_menu.is_visible()`. */
    var menuVisible: bool
    /** `ui.completion_menu.selected_completion`. */
    var selectedCompletion: Option<nat>
    /** `ui.completion_hint.hinted_index`. */
    var hintedIndex: Option<nat>

    /** A starting state for the operations; `State::new` is not part of
        this model. */
    constructor (settings: Settings, tryBufAttach: Option<nat>)
      ensures attachedBuffers == [] && buffersToBeDetached == [] && augroupId == None
      ensures this.tryBufAttach == tryBufAttach && this.settings == settings
      ensures menuMaxHeight == settings.maxMenuHeight && !menuVisible
      ensures selectedCompletion == None && hintedIndex == None
    {
      attachedBuffers := [];
      buffersToBeDetached := [];
      augroupId := None;
      this.tryBufAttach := tryBufAttach;
      this.settings := settings;
      menuMaxHeight := settings.maxMenuHeight;
      menuVisible := false;
      selectedCompletion := None;
      hintedIndex := None;
    }
  }
}
