/** LangChain's `Document` as the assistant uses it: page text plus a metadata dict
    whose values are strings (file name, file path) or integers (page number). */
module Documents {
  import opened Text

  datatype MetaValue = MStr(s: string) | MInt(n: int)

  type Metadata = map<string, MetaValue>

  datatype Document = Document(pageContent: string, metadata: Metadata)

  /** The text an f-string produces for a metadata value. */
  function Render(v: MetaValue): string
  {
    match v
    case MStr(s) => s
    case MInt(n) => IntToString(n)
  }

  /** `f"{doc.metadata.get(key, 'N/A')}"`. */
  function MetaOr(md: Metadata, key: string): string
  {
    if key in md then Render(md[key]) else "N/A"
  }
}
