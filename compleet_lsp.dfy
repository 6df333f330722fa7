/** The LSP completion source: a stub that attaches everywhere and answers
    every request with one item naming the character it was asked about. */
module CompleetLsp {
  import opened Wrappers
  import opened CompletionItems

  /** `CompleetLsp::NAME`. */
  const Name: string := "lsp"

  /** The source's (empty) configuration. */
  datatype Config = Config

  /** The request context; only the character `ctx.ch()` is read here. */
  datatype CompletionContext = CompletionContext(ch: char)

  /** The errors a source may return; this source returns none. */
  datatype SourceError = SourceError(msg: string)

  /** The functions a source exposes to Lua. */
  datatype ApiFunction = ClientCapabilities

  /** `api()`: the dictionary of functions exposed to Lua. */
  function Api(): (api: map<string, ApiFunction>)
    ensures api.Keys == {"client_capabilities"}
    ensures api["client_capabilities"] == ClientCapabilities
  {
    map["client_capabilities" := ClientCapabilities]
  }

  /** `should_attach`: the source wants every buffer. */
  function ShouldAttach(buf: nat, config: Config): (r: Result<bool, SourceError>)
    ensures r == Ok(true)
  {
    Ok(true)
  }

  /** `complete`: one item, "lsp received " followed by the context's
      character; never an error. */
  function Complete(buf: nat, ctx: CompletionContext, config: Config): (r: Result<seq<CompletionItem>, SourceError>)
    ensures r.Ok? && |r.value| == 1
    ensures r.value[0].text == Name + " received " + [ctx.ch]
  {
    BuildNewBuilder(Name + " received " + [ctx.ch]);
    Ok([Build(NewBuilder(Name + " received " + [ctx.ch]))])
  }
}
