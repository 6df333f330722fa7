/** The state shared by the compleet-client callbacks (the `State` struct of
    that crate, of which only the fields the modelled callbacks read or
    write are kept). Buffers, augroups, registry keys, the channel and the
    UI are host handles. */
module ClientState {
  import opened Wrappers
  import opened Seqs

  /** The user settings; only the list of enabled sources is read. */
  datatype Settings = Settings(sources: seq<string>)

  class State {
    /** Buffers the plugin is attached to, without duplicates. */
    var attachedBuffers: seq<nat>
    var augroupId: Option<nat>
    /** Registry key of the `try_buf_attach` callback. */
    var tryBufAttach: Option<nat>
    var didSetup: bool
    var settings: Settings
    var channel: Option<nat>
    var ui: Option<nat>

    ghost predicate Valid()
      reads this
    {
      NoDuplicates(attachedBuffers)
    }

    /** A starting state for the client, before `setup` runs; how `State::new`
        fills it in is not part of this model. */
    constructor (settings: Settings, ui: Option<nat>)
      ensures Valid()
      ensures attachedBuffers == [] && augroupId == None && tryBufAttach == None
      ensures !didSetup && this.settings == settings && channel == None && this.ui == ui
    {
      attachedBuffers := [];
      augroupId := None;
      tryBufAttach := None;
      didSetup := false;
      this.settings := settings;
      channel := None;
      this.ui := ui;
    }
  }
}
