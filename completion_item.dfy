/** Completion candidates and their builder. An item carries its display
    text; the builder holds the text until `build` moves it into an item. */
module CompletionItems {
  import opened Wrappers

  datatype CompletionItem = CompletionItem(text: string)

  datatype CompletionItemBuilder = CompletionItemBuilder(text: Option<string>)

  /** `CompletionItem::new`. */
  function NewItem(text: string): (item: CompletionItem)
    ensures item.text == text
  {
    CompletionItem(text)
  }

  /** `CompletionItemBuilder::new`: a builder that holds the text. */
  function NewBuilder(text: string): (b: CompletionItemBuilder)
    ensures b.text == Some(text)
  {
    CompletionItemBuilder(Some(text))
  }

  /** `CompletionItemBuilder::build`: takes the text out of the builder; the
      `unwrap` panics on a builder that holds none. */
  function Build(b: CompletionItemBuilder): (item: CompletionItem)
    requires b.text.Some?
    ensures Some(item.text) == b.text
  {
    CompletionItem(b.text.value)
  }

  /** Building a fresh builder never panics and gives the item `new` gives. */
  lemma BuildNewBuilder(text: string)
    ensures NewBuilder(text).text.Some?
    ensures Build(NewBuilder(text)) == NewItem(text)
  {
  }
}
