/** The JSON records the ingestion scripts read. A key that may be absent is an `Option`;
    `record.get(key, default)` is `GetOr(default)` on it and `record[key]` raises `KeyError`
    on `None`. */
module Records {
  import opened Common

  /** A help-centre article as exported from Zendesk. */
  datatype Article = Article(
    id: Option<nat>,
    draft: Option<bool>,
    body: Option<string>,
    title: Option<string>,
    htmlUrl: Option<string>,
    labelNames: Option<seq<string>>,
    createdAt: Option<string>,
    updatedAt: Option<string>)

  /** A support ticket. */
  datatype Ticket = Ticket(
    id: Option<nat>,
    subject: Option<string>,
    kind: Option<string>,
    description: Option<string>)

  /** A document of the internal or drafts export read by `add_collections.py`. */
  datatype Doc = Doc(
    id: Option<nat>,
    title: Option<string>,
    body: Option<string>,
    content: Option<string>)

  /** A JSON export file: unreadable (missing, or not JSON), or an object that may or may
      not carry the list of records under the expected key. */
  datatype ExportFile<R> = Unreadable | Parsed(items: Option<seq<R>>)

  /** `data.get(key, [])` of a file that could be read. */
  function Items<R>(f: ExportFile<R>): (rs: seq<R>)
    requires f.Parsed?
    ensures f.items.Some? ==> rs == f.items.value
    ensures f.items.None? ==> rs == []
  {
    f.items.GetOr([])
  }

  /** `article.get('label_names', [])`. */
  function Labels(a: Article): (ls: seq<string>)
    ensures a.labelNames.Some? ==> ls == a.labelNames.value
    ensures a.labelNames.None? ==> ls == []
  {
    a.labelNames.GetOr([])
  }
}
