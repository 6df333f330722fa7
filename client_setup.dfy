/** `setup` of the compleet-client crate, run by `require("compleet").setup`,
    and the `to_chunks` helper that highlights the back-quoted field names of
    a deserialization error. The host's answers are inputs: whether Neovim is
    0.7 or newer, the preferences as Lua handed them over (a table arrives
    already deserialized, successfully or with a field path and an error),
    the default settings, and the handles the first-time initialisation
    creates. */
module ClientSetup {
  import opened Wrappers
  import opened Text
  import opened Host
  import ClientState

  /** The Lua errors `setup` tells apart. */
  datatype LuaError = DeserializeError(msg: string) | OtherLuaError(description: string)

  /** A deserialization failure and the path of the field it happened at. */
  datatype PathError = PathError(path: string, inner: LuaError)

  /** The `preferences` value: `nil`, a table (with the outcome of
      deserializing it), or any other Lua value (with its debug rendering). */
  datatype Preferences =
    | Nil
    | Table(parsed: Result<ClientState.Settings, PathError>)
    | NotATable(debug: string)

  const FieldHl: string := "CompleetErrorMsgField"

  // to_chunks

  /** The chunks for the piece with index `index` of the split message:
      even pieces plain, odd ones highlighted between back quotes. */
  function PieceChunks(piece: string, index: nat): (cs: seq<Chunk>)
  {
    if index % 2 == 1 then [Chunk("`", None), Chunk(piece, Some(FieldHl)), Chunk("`", None)]
    else [Chunk(piece, None)]
  }

  /** The chunks for the pieces `segments`, the first of which has index `k`. */
  function ChunksFrom(segments: seq<string>, k: nat): seq<Chunk>
  {
    if segments == [] then [] else PieceChunks(segments[0], k) + ChunksFrom(segments[1..], k + 1)
  }

  /** `to_chunks(msg)`. */
  function ToChunks(msg: string): seq<Chunk>
  {
    ChunksFrom(Split(msg, '`'), 0)
  }

  lemma {:induction false} ChunksFromLength(segments: seq<string>, k: nat)
    ensures |ChunksFrom(segments, k)| == 2 * |segments| + k % 2 - (k + |segments|) % 2
    decreases |segments|
  {
    if segments != [] {
      ChunksFromLength(segments[1..], k + 1);
    }
  }

  const Backtick: Chunk := Chunk("`", None)

  /** `c` holds the piece `piece` at position `at`: plain, or highlighted
      as a field between two back-quote chunks when `odd` holds. */
  ghost predicate PieceAt(c: seq<Chunk>, at: nat, piece: string, odd: bool)
  {
    at + (if odd then 1 else 0) < |c| &&
    c[at] == Chunk(piece, if odd then Some(FieldHl) else None) &&
    (odd ==> at >= 1 && c[at - 1] == Backtick && c[at + 1] == Backtick)
  }

  lemma PieceAtShift(head: seq<Chunk>, tail: seq<Chunk>, at: nat, piece: string, odd: bool)
    requires PieceAt(tail, at, piece, odd)
    ensures PieceAt(head + tail, |head| + at, piece, odd)
  {
    var c := head + tail;
    assert c[|head| + at] == tail[at];
    if odd {
      assert c[|head| + at - 1] == tail[at - 1];
      assert c[|head| + at + 1] == tail[at + 1];
    }
  }

  /** Where the piece `j` lands in `ChunksFrom(segments, k)`. */
  lemma {:induction false} ChunksFromAt(segments: seq<string>, k: nat, j: nat)
    requires j < |segments|
    ensures PieceAt(ChunksFrom(segments, k), 2 * j + k % 2, segments[j], (k + j) % 2 == 1)
    decreases j
  {
    var head := PieceChunks(segments[0], k);
    var tail := ChunksFrom(segments[1..], k + 1);
    assert ChunksFrom(segments, k) == head + tail;
    if j == 0 {
      assert (head + tail)[k % 2] == head[k % 2];
      if k % 2 == 1 {
        assert (head + tail)[0] == head[0] && (head + tail)[2] == head[2];
      }
    } else {
      ChunksFromAt(segments[1..], k + 1, j - 1);
      assert segments[1..][j - 1] == segments[j];
      assert (k + 1 + (j - 1)) % 2 == (k + j) % 2;
      PieceAtShift(head, tail, 2 * (j - 1) + (k + 1) % 2, segments[j], (k + j) % 2 == 1);
      assert |head| == 1 + 2 * (k % 2);
      assert (k + 1) % 2 == 1 - k % 2;
    }
  }

  /** `to_chunks` puts the i-th back-quote separated piece of `msg` at
      position 2i: plain when i is even, highlighted as a field and enclosed
      in back-quote chunks when i is odd. */
  lemma ToChunksLayout(msg: string)
    ensures var segments := Split(msg, '`');
      |ToChunks(msg)| == 2 * |segments| - |segments| % 2 &&
      forall i :: 0 <= i < |segments| ==> PieceAt(ToChunks(msg), 2 * i, segments[i], i % 2 == 1)
  {
    var segments := Split(msg, '`');
    ChunksFromLength(segments, 0);
    forall i | 0 <= i < |segments|
      ensures PieceAt(ToChunks(msg), 2 * i, segments[i], i % 2 == 1)
    {
      ChunksFromAt(segments, 0, i);
    }
  }

  lemma {:induction false} TextsAppend(a: seq<Chunk>, b: seq<Chunk>)
    ensures Texts(a + b) == Texts(a) + Texts(b)
    decreases |a|
  {
    if a == [] {
      assert a + b == b;
    } else {
      TextsAppend(a[1..], b);
      assert (a + b)[0] == a[0];
      assert (a + b)[1..] == a[1..] + b;
    }
  }

  lemma PieceChunksTexts(piece: string, index: nat)
    ensures Texts(PieceChunks(piece, index)) == if index % 2 == 1 then "`" + piece + "`" else piece
  {
    var cs := PieceChunks(piece, index);
    if index % 2 == 1 {
      assert cs[1..][1..][1..] == [];
      assert Texts(cs[1..][1..]) == "`";
    } else {
      assert cs[1..] == [];
    }
  }

  /** A back quote when `b` holds, nothing otherwise. */
  function Backquote(b: bool): string
  {
    if b then "`" else ""
  }

  lemma RegroupOdd(s0: string, rest: string, close: string)
    ensures ("`" + s0 + "`") + ([] + rest + close) == "`" + (s0 + "`" + rest) + close
  {
  }

  lemma RegroupEven(s0: string, rest: string, close: string)
    ensures s0 + ("`" + rest + close) == [] + (s0 + "`" + rest) + close
  {
  }

  /** The texts of the chunks for one last piece. */
  lemma ChunksFromTextsLast(s0: string, k: nat)
    ensures Texts(ChunksFrom([s0], k)) == Backquote(k % 2 == 1) + Join([s0], '`') + Backquote((k + 1) % 2 == 0)
  {
    var head := PieceChunks(s0, k);
    assert ChunksFrom([s0], k) == head + [];
    assert head + [] == head;
    PieceChunksTexts(s0, k);
  }

  lemma ChunksFromTextsStep(segments: seq<string>, k: nat)
    requires |segments| >= 2
    requires Texts(ChunksFrom(segments[1..], k + 1))
             == Backquote((k + 1) % 2 == 1) + Join(segments[1..], '`') + Backquote((k + |segments|) % 2 == 0)
    ensures Texts(ChunksFrom(segments, k))
            == Backquote(k % 2 == 1) + Join(segments, '`') + Backquote((k + |segments|) % 2 == 0)
  {
    var s0 := segments[0];
    var head := PieceChunks(s0, k);
    var tail := ChunksFrom(segments[1..], k + 1);
    var rest := Join(segments[1..], '`');
    var close := Backquote((k + |segments|) % 2 == 0);
    assert ChunksFrom(segments, k) == head + tail;
    TextsAppend(head, tail);
    PieceChunksTexts(s0, k);
    assert Join(segments, '`') == s0 + "`" + rest;
    if k % 2 == 1 {
      RegroupOdd(s0, rest, close);
    } else {
      RegroupEven(s0, rest, close);
    }
  }

  lemma {:induction false} ChunksFromTexts(segments: seq<string>, k: nat)
    requires |segments| >= 1
    ensures Texts(ChunksFrom(segments, k))
            == Backquote(k % 2 == 1) + Join(segments, '`') + Backquote((k + |segments|) % 2 == 0)
    decreases |segments|
  {
    if |segments| == 1 {
      assert segments == [segments[0]];
      ChunksFromTextsLast(segments[0], k);
    } else {
      ChunksFromTexts(segments[1..], k + 1);
      assert k + 1 + |segments[1..]| == k + |segments|;
      ChunksFromTextsStep(segments, k);
    }
  }

  /** Joining the chunk texts gives back the message when it has an even
      number of back quotes; with an odd number the last piece is closed by
      one extra back quote. */
  lemma ToChunksTexts(msg: string)
    ensures Texts(ToChunks(msg)) == msg + Backquote(|Split(msg, '`')| % 2 == 0)
  {
    var segments := Split(msg, '`');
    ChunksFromTexts(segments, 0);
    JoinSplit(msg, '`');
    assert Backquote(0 % 2 == 1) == [];
    assert [] + msg == msg;
  }

  lemma ToChunksReconstructs(msg: string)
    requires multiset(msg)['`'] % 2 == 0
    ensures Texts(ToChunks(msg)) == msg
  {
    ToChunksTexts(msg);
    SplitCount(msg, '`');
    assert msg + Backquote(false) == msg;
  }

  // setup

  const VersionMsg: seq<Chunk> := [Chunk("Neovim v0.7+ is required", None)]

  const NoSourcesMsg: seq<Chunk> :=
    [Chunk("No sources have been enabled. I'm feeling more useless than nipples on a man :(", None)]

  /** The message for a deserialization error: the field path, then the
      error text through `to_chunks`. */
  function DeserializeErrorMsg(path: string, msg: string): (chunks: seq<Chunk>)
  {
    [Chunk("Error for `", None), Chunk(path, Some("CompleetErrorMsgOptionPath")), Chunk("`: ", None)] + ToChunks(msg)
  }

  function NotATableMsg(debug: string): seq<Chunk>
  {
    [Chunk("Invalid value '", None), Chunk(debug, Some("Statement")),
     Chunk("'. Please pass either a table or `", None), Chunk("nil", Some("Statement")),
     Chunk("` to the setup function", None)]
  }

  /** Where the checks of `setup` lead: give up with an error message,
      propagate a Lua error, or apply the settings. */
  datatype Decision = Abort(msg: seq<Chunk>) | Propagate(err: LuaError) | Apply(settings: ClientState.Settings)

  /** The checks of `setup`, in order: Neovim version, kind of preferences,
      deserialization, at least one source. */
  function Decide(hasNvim07: bool, prefs: Preferences, defaults: ClientState.Settings): (d: Decision)
    ensures !hasNvim07 ==> d == Abort(VersionMsg)
    ensures d.Apply? ==> hasNvim07 && d.settings.sources != []
    ensures d.Apply? ==> (prefs.Nil? && d.settings == defaults) || (prefs.Table? && prefs.parsed == Ok(d.settings))
    ensures d.Propagate? <==> hasNvim07 && prefs.Table? && prefs.parsed.Err? && !prefs.parsed.error.inner.DeserializeError?
    ensures d.Propagate? ==> d.err == prefs.parsed.error.inner
    ensures hasNvim07 && prefs.Nil? ==>
      d == if defaults.sources == [] then Abort(NoSourcesMsg) else Apply(defaults)
    ensures hasNvim07 && prefs.Table? && prefs.parsed.Ok? ==>
      d == if prefs.parsed.value.sources == [] then Abort(NoSourcesMsg) else Apply(prefs.parsed.value)
    ensures hasNvim07 && prefs.NotATable? ==> d == Abort(NotATableMsg(prefs.debug))
    ensures hasNvim07 && prefs.Table? && prefs.parsed.Err? && prefs.parsed.error.inner.DeserializeError? ==>
      d == Abort(DeserializeErrorMsg(prefs.parsed.error.path, prefs.parsed.error.inner.msg))
  {
    if !hasNvim07 then Abort(VersionMsg)
    else
      match prefs
      case Nil => CheckSources(defaults)
      case Table(Ok(settings)) => CheckSources(settings)
      case Table(Err(PathError(path, DeserializeError(msg)))) => Abort(DeserializeErrorMsg(path, msg))
      case Table(Err(PathError(_, err))) => Propagate(err)
      case NotATable(debug) => Abort(NotATableMsg(debug))
  }

  function CheckSources(settings: ClientState.Settings): Decision
  {
    if settings.sources == [] then Abort(NoSourcesMsg) else Apply(settings)
  }

  /** A deserialization error is reported, not propagated, and its message
      starts with the field path. */
  lemma DeserializeErrorReported(prefs: Preferences, defaults: ClientState.Settings)
    requires prefs.Table? && prefs.parsed.Err? && prefs.parsed.error.inner.DeserializeError?
    ensures Decide(true, prefs, defaults).Abort?
    ensures var m := Decide(true, prefs, defaults).msg;
      |m| >= 3 && m[1] == Chunk(prefs.parsed.error.path, Some("CompleetErrorMsgOptionPath"))
  {
  }

  /** `setup`. The registration steps of the first successful call are
      logged; later successful calls only replace the settings. */
  method Setup(state: ClientState.State, host: Host, hasNvim07: bool, prefs: Preferences,
               defaults: ClientState.Settings, newAugroup: nat, newRegistryKey: nat, newChannel: nat)
    returns (r: Outcome<LuaError>)
    modifies state`settings, state`augroupId, state`tryBufAttach, state`channel, state`didSetup, host
    ensures var d := Decide(hasNvim07, prefs, defaults);
      (d.Abort? ==> r == Pass && host.calls == old(host.calls) + [SetupErrorMsgHlgroups, EchoErr(d.msg)]) &&
      (d.Propagate? ==> r == Fail(d.err) && host.calls == old(host.calls) + [SetupErrorMsgHlgroups]) &&
      (!d.Apply? ==> state.settings == old(state.settings) && state.augroupId == old(state.augroupId) &&
                     state.tryBufAttach == old(state.tryBufAttach) && state.channel == old(state.channel) &&
                     state.didSetup == old(state.didSetup)) &&
      (d.Apply? ==> r == Pass && state.settings == d.settings && state.didSetup) &&
      (d.Apply? && old(state.didSetup) ==>
         host.calls == old(host.calls) + [SetupErrorMsgHlgroups] &&
         state.augroupId == old(state.augroupId) && state.tryBufAttach == old(state.tryBufAttach) &&
         state.channel == old(state.channel)) &&
      (d.Apply? && !old(state.didSetup) ==>
         host.calls == old(host.calls) + [SetupErrorMsgHlgroups, SetupAutocmds, SetupCommands,
                                          SetupHlgroups, SetupMappings, SpawnChannel] &&
         state.augroupId == Some(newAugroup) && state.tryBufAttach == Some(newRegistryKey) &&
         state.channel == Some(newChannel))
  {
    host.calls := host.calls + [SetupErrorMsgHlgroups];
    var d := Decide(hasNvim07, prefs, defaults);
    match d
    case Abort(msg) =>
      host.calls := host.calls + [EchoErr(msg)];
      return Pass;
    case Propagate(err) =>
      return Fail(err);
    case Apply(settings) =>
      state.settings := settings;
      if !state.didSetup {
        host.calls := host.calls + [SetupAutocmds];
        state.augroupId := Some(newAugroup);
        state.tryBufAttach := Some(newRegistryKey);
        host.calls := host.calls + [SetupCommands, SetupHlgroups, SetupMappings, SpawnChannel];
        state.channel := Some(newChannel);
        state.didSetup := true;
      }
      return Pass;
  }
}
