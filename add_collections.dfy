/** `add_collections.py`: reset `support_internal` and `support_drafts` and load the
    documents of each export into them, naming them by a running counter. */
module AddCollections {
  import opened Common
  import opened Text
  import opened Store
  import opened Records
  import opened Chunking
  import opened Ingestion
  import opened AddZendeskCollections

  /** What `load_json_file` returns: `None` when the file cannot be read, a list of
      documents, or a single document object. `otherKeys` records whether the object
      holds keys besides those of a `Doc` (such as the `articles` of a Zendesk export);
      their values are not read. */
  datatype Data = Unreadable | DocList(docs: seq<Doc>) | DocObject(doc: Doc, otherKeys: bool)

  /** A document object with none of the keys of a `Doc`. */
  predicate NoDocKeys(d: Doc) {
    d.id.None? && d.title.None? && d.body.None? && d.content.None?
  }

  /** Python truthiness of the loaded data, the guard `if internal_data:` of `main`. */
  function Truthy(data: Data): (t: bool)
    ensures data.Unreadable? ==> !t
    ensures data.DocList? ==> (t <==> data.docs != [])
    // a dict is truthy exactly when it holds some key, of a `Doc` or any other
    ensures data.DocObject? ==> (t <==> data.otherKeys || !NoDocKeys(data.doc))
  {
    match data
    case Unreadable => false
    case DocList(ds) => ds != []
    case DocObject(d, other) => other || !NoDocKeys(d)
  }

  /** `data if isinstance(data, list) else [data]`. `None` becomes `[None]`, whose one
      entry raises `AttributeError` in the loop and is skipped, so it contributes nothing. */
  function AsList(data: Data): (ds: seq<Doc>)
    ensures data.DocList? ==> ds == data.docs
    ensures data.DocObject? ==> ds == [data.doc]
    ensures data.Unreadable? ==> ds == []
  {
    match data
    case Unreadable => []
    case DocList(ds) => ds
    case DocObject(d, _) => [d]
  }

  /** `doc.get('body', '') or doc.get('content', '')`. */
  function Content(d: Doc): (c: string)
    ensures d.body.Some? && d.body.value != "" ==> c == d.body.value
    ensures (d.body.None? || d.body.value == "") ==> c == d.content.GetOr("")
  {
    if d.body.GetOr("") != "" then d.body.GetOr("") else d.content.GetOr("")
  }

  /** The document text, with 12 spaces of indentation. */
  function DocText(d: Doc, docType: string, content: string): (t: string)
    ensures "\n" + Spaces(12) + "Title: " + d.title.GetOr("No Title") + "\n" <= t
    ensures EndsWith(t, "Content: " + content + "\n" + Spaces(12))
  {
    var ind := Spaces(12);
    "\n" + ind + "Title: " + d.title.GetOr("No Title")
    + "\n" + ind + "Type: " + docType
    + "\n" + ind + "Content: " + content
    + "\n" + ind
  }

  /** The sink id of the `k`th stored document, `f"{doc_type}_{count}"`. */
  function CounterId(docType: string, k: nat): (id: string)
    // the type, an underscore and the decimal digits of `k`
    ensures |id| > |docType| + 1 && id[..|docType|] == docType && id[|docType|] == '_'
    ensures forall i :: |docType| < i < |id| ==> '0' <= id[i] <= '9'
  {
    docType + "_" + NatToString(k)
  }

  /** The metadata of the `k`th stored document: its own id when it has one, else its sink id. */
  function DocMeta(d: Doc, docType: string, k: nat): (m: Metadata)
    ensures m.Keys == {"type", "id", "title"}
    ensures m["type"] == Str(docType)
    ensures m["id"] == Str(if d.id.Some? then NatToString(d.id.value) else CounterId(docType, k))
    ensures m["title"] == Str(d.title.GetOr("No Title"))
  {
    map["type" := Str(docType),
        "id" := Str(if d.id.Some? then NatToString(d.id.value) else CounterId(docType, k)),
        "title" := Str(d.title.GetOr("No Title"))]
  }

  /** A document survives when its cleaned content is not blank. */
  predicate DocPasses(d: Doc, clean: string -> string) {
    !IsBlank(clean(Content(d)))
  }

  /** The body of the `for doc in documents` loop of `add_documents`, given the number `k`
      of documents stored before it. */
  function DocOutcome(d: Doc, docType: string, clean: string -> string, k: nat): (o: Outcome)
    ensures o.Skip? <==> IsBlank(clean(Content(d)))
    ensures !o.Orphan?
    ensures o.Keep? ==> o.id == CounterId(docType, k) && o.doc == DocText(d, docType, clean(Content(d)))
    ensures o.Keep? ==> o.meta == DocMeta(d, docType, k)
  {
    var content := clean(Content(d));
    if Strip(content) == [] then Skip
    else Keep(DocText(d, docType, content), DocMeta(d, docType, k), CounterId(docType, k))
  }

  /** The outcomes of the loop of `add_documents`: the counter is the number of documents
      stored before each one. */
  function DocOutcomes(ds: seq<Doc>, docType: string, clean: string -> string): seq<Outcome> {
    Numbered(ds, (d, k) => DocOutcome(d, docType, clean, k), d => DocPasses(d, clean))
  }

  /** The `k`th id is `<doc_type>_<k>`. */
  predicate Counted(ids: seq<string>, docType: string) {
    forall k :: 0 <= k < |ids| ==> ids[k] == CounterId(docType, k)
  }

  /** The ids are `<doc_type>_0`, `<doc_type>_1`, ... in order, one per surviving document,
      and no record is orphaned. */
  lemma DocIdsCounted(ds: seq<Doc>, docType: string, clean: string -> string)
    ensures NoOrphans(DocOutcomes(ds, docType, clean))
    ensures Counted(Ids(DocOutcomes(ds, docType, clean)), docType)
    ensures |Ids(DocOutcomes(ds, docType, clean))| == CountOf(ds, d => DocPasses(d, clean))
  {
    NumberedIds(ds, (d, k) => DocOutcome(d, docType, clean, k), d => DocPasses(d, clean), (k: nat) => CounterId(docType, k));
  }

  /** A document is skipped exactly when its cleaned content is blank; the metadata id of a
      stored document is its own id, or failing that its sink id; and the `k`th document
      is named after the number of survivors before it. */
  lemma DocOutcomesPointwise(ds: seq<Doc>, docType: string, clean: string -> string)
    ensures var os := DocOutcomes(ds, docType, clean);
      && (forall k :: 0 <= k < |ds| ==> (os[k].Skip? <==> IsBlank(clean(Content(ds[k])))))
      && (forall k :: 0 <= k < |ds| && os[k].Keep? ==>
            && os[k].id == CounterId(docType, CountOf(ds[..k], d => DocPasses(d, clean)))
            && os[k].doc == DocText(ds[k], docType, clean(Content(ds[k])))
            && "id" in os[k].meta
            && os[k].meta["id"] == Str(if ds[k].id.Some? then NatToString(ds[k].id.value) else os[k].id))
  {
    forall k | 0 <= k < |ds| {
      NumberedAt(ds, (d, k) => DocOutcome(d, docType, clean, k), d => DocPasses(d, clean), k);
    }
  }

  /** The sink ids of one call are pairwise distinct. */
  lemma CounterIdsDistinct(ds: seq<Doc>, docType: string, clean: string -> string)
    ensures Distinct(Ids(DocOutcomes(ds, docType, clean)))
  {
    var ids := Ids(DocOutcomes(ds, docType, clean));
    DocIdsCounted(ds, docType, clean);
    forall i, j | 0 <= i < j < |ids| ensures ids[i] != ids[j] {
      if ids[i] == ids[j] {
        PrefixedNatInjective(docType + "_", i, j);
      }
    }
  }

  /** `add_documents(collection, data, doc_type)`: a final flush that raises propagates;
      otherwise the number of stored documents is returned. */
  method AddDocuments(sink: Sink, data: Data, docType: string, clean: string -> string)
    returns (r: Result<nat>, ghost sent: seq<Batch>)
    modifies sink
    ensures sink.batches == old(sink.batches) + sent
    ensures var os := DocOutcomes(AsList(data), docType, clean);
      IngestedAs(sink.accepts, os, |Ids(os)|, r.Ok?, sent)
    ensures r.Ok? ==> r.value == |Ids(DocOutcomes(AsList(data), docType, clean))|
  {
    var count, flushed;
    count, flushed, sent := Ingest(sink, DocOutcomes(AsList(data), docType, clean));
    r := if flushed then Ok(count) else Err("final add failed");
  }

  /** On success, the documents handed to the collection are exactly the sink ids
      `<doc_type>_0` to `<doc_type>_<count - 1>`, in order, one document each. */
  lemma AddedAsCounted(accepts: Batch -> bool, ds: seq<Doc>, docType: string, clean: string -> string,
                       count: nat, sent: seq<Batch>)
    requires IngestedAs(accepts, DocOutcomes(ds, docType, clean), count, true, sent)
    ensures |Flatten(IdsOf(sent))| == |Flatten(DocumentsOf(sent))| == count
    ensures Counted(Flatten(IdsOf(sent)), docType)
  {
    DocIdsCounted(ds, docType, clean);
    CountIsSent(accepts, DocOutcomes(ds, docType, clean), count, true, sent);
  }

  /** One step of `main`: a fresh collection `support_<doc_type>` replaces any old one and
      receives the documents; `sent` is what it accepted. */
  method LoadOne(client: Client, data: Data, docType: string, clean: string -> string)
    returns (r: Result<nat>, sink: Sink, ghost sent: seq<Batch>)
    requires client.Valid()
    modifies client
    ensures client.Valid()
    ensures fresh(sink) && client.collections == old(client.collections)[CollectionName(docType) := sink]
    ensures sink.accepts == client.accepts && Holds(sink, data, docType, clean, r.Ok?, sent)
    ensures r.Ok? ==> r.value == |Ids(DocOutcomes(AsList(data), docType, clean))|
  {
    sink := SetupCollection(client, docType);
    assert client.collections[CollectionName(docType)] == sink;
    assert sink.accepts == client.accepts;
    r, sent := AddDocuments(sink, data, docType, clean);
    assert Holds(sink, data, docType, clean, r.Ok?, sent);
  }

  /** The counts after one `if <type>_data:` block: truthy data records the number of
      stored documents under its type, and falsy data leaves the counts as they are. */
  function Tally(results: map<string, nat>, data: Data, docType: string, clean: string -> string): (m: map<string, nat>)
    ensures m.Keys == results.Keys + (if Truthy(data) then {docType} else {})
    ensures forall t :: t in results && t != docType ==> m[t] == results[t]
    ensures Truthy(data) ==> m[docType] == |Ids(DocOutcomes(AsList(data), docType, clean))|
    ensures !Truthy(data) ==> m == results
  {
    if Truthy(data) then results[docType := |Ids(DocOutcomes(AsList(data), docType, clean))|] else results
  }

  /** An export object holding only keys a `Doc` does not have, such as the
      `{"articles": [...]}` of a Zendesk export, is truthy: its block recreates the
      collection and, as its one document has blank content, records a count of 0. */
  lemma ForeignObjectCountsZero(results: map<string, nat>, docType: string, clean: string -> string)
    requires Strip(clean("")) == []
    ensures Truthy(DocObject(Doc(None, None, None, None), true))
    ensures Tally(results, DocObject(Doc(None, None, None, None), true), docType, clean) == results[docType := 0]
  {
    var data := DocObject(Doc(None, None, None, None), true);
    DocIdsCounted(AsList(data), docType, clean);
  }

  /** After both blocks of `main` the counts hold exactly the truthy types, each with its
      number of stored documents. */
  lemma TallyBoth(internal: Data, drafts: Data, clean: string -> string)
    ensures var m := Tally(Tally(map[], internal, "internal", clean), drafts, "drafts", clean);
      && m.Keys == (if Truthy(internal) then {"internal"} else {}) + (if Truthy(drafts) then {"drafts"} else {})
      && (Truthy(internal) ==> m["internal"] == |Ids(DocOutcomes(AsList(internal), "internal", clean))|)
      && (Truthy(drafts) ==> m["drafts"] == |Ids(DocOutcomes(AsList(drafts), "drafts", clean))|)
  {
    assert "internal" != "drafts";
    var m1 := Tally(map[], internal, "internal", clean);
    assert m1.Keys == if Truthy(internal) then {"internal"} else {};
    var m := Tally(m1, drafts, "drafts", clean);
    assert m.Keys == m1.Keys + (if Truthy(drafts) then {"drafts"} else {});
  }

  /** What a collection loaded with an export holds: exactly the batches `sent`, which the
      ingestion description relates to the export's documents; `ok` says whether
      `add_documents` returned. */
  ghost predicate Holds(c: Sink, data: Data, docType: string, clean: string -> string, ok: bool, sent: seq<Batch>)
    reads c
  {
    && c.batches == sent
    && var os := DocOutcomes(AsList(data), docType, clean);
      IngestedAs(c.accepts, os, |Ids(os)|, ok, sent)
  }

  /** One `if <type>_data:` block of `main`: data that loads to something truthy gets a
      fresh collection, is added to it and its count is recorded under its type; falsy data
      changes nothing. */
  method LoadIf(client: Client, data: Data, docType: string, clean: string -> string, results: map<string, nat>)
    returns (r: Result<map<string, nat>>, ghost sent: seq<Batch>)
    requires client.Valid()
    modifies client
    ensures client.Valid()
    ensures !Truthy(data) ==> client.collections == old(client.collections) && r == Ok(results) && sent == []
    ensures Truthy(data) ==> Replaced(old(client.collections), client.collections, CollectionName(docType))
    ensures Truthy(data) ==>
      var c := client.collections[CollectionName(docType)];
      fresh(c) && Holds(c, data, docType, clean, r.Ok?, sent)
    ensures r.Ok? ==> r.value == Tally(results, data, docType, clean)
  {
    if !Truthy(data) {
      return Ok(results), [];
    }
    var c, sink;
    c, sink, sent := LoadOne(client, data, docType, clean);
    if c.Err? {
      return Err(c.message), sent;
    }
    r := Ok(results[docType := c.value]);
  }

  /** `main`: each export that loads to something truthy gets a fresh collection and is
      added to it; the counts are collected by document type. An error from
      `add_documents` ends the run. */
  method LoadDocuments(client: Client, internal: Data, drafts: Data, clean: string -> string)
    returns (r: Result<map<string, nat>>, ghost internalOk: bool, ghost mid: map<string, Sink>,
             ghost sentInternal: seq<Batch>, ghost sentDrafts: seq<Batch>)
    requires client.Valid()
    modifies client
    ensures client.Valid()
    ensures !Truthy(internal) && !Truthy(drafts) ==> client.collections == old(client.collections) && r == Ok(map[])
    // the counts
    ensures r.Ok? ==> r.value == Tally(Tally(map[], internal, "internal", clean), drafts, "drafts", clean)
    ensures r.Ok? ==> r.value.Keys == (if Truthy(internal) then {"internal"} else {}) + (if Truthy(drafts) then {"drafts"} else {})
    ensures r.Ok? && Truthy(internal) ==> r.value["internal"] == |Ids(DocOutcomes(AsList(internal), "internal", clean))|
    ensures r.Ok? && Truthy(drafts) ==> r.value["drafts"] == |Ids(DocOutcomes(AsList(drafts), "drafts", clean))|
    // the internal block runs first, and an error in it ends the run
    ensures !Truthy(internal) ==> internalOk && sentInternal == []
    ensures !internalOk ==> r.Err?
    ensures internalOk && !Truthy(drafts) ==> r.Ok? && sentDrafts == []
    // the collections: `mid` is the store after the first block
    ensures Truthy(internal) ==> Replaced(old(client.collections), mid, CollectionName("internal"))
    ensures !Truthy(internal) ==> mid == old(client.collections)
    ensures internalOk && Truthy(drafts) ==> Replaced(mid, client.collections, CollectionName("drafts"))
    ensures !internalOk || !Truthy(drafts) ==> client.collections == mid
    ensures Truthy(internal) ==>
      var c := client.collections[CollectionName("internal")];
      fresh(c) && Holds(c, internal, "internal", clean, internalOk, sentInternal)
    ensures internalOk && Truthy(drafts) ==>
      var c := client.collections[CollectionName("drafts")];
      fresh(c) && Holds(c, drafts, "drafts", clean, r.Ok?, sentDrafts)
  {
    TallyBoth(internal, drafts, clean);
    assert CollectionName("internal")[8..] != CollectionName("drafts")[8..];
    sentDrafts := [];
    r, sentInternal := LoadIf(client, internal, "internal", clean, map[]);
    internalOk := r.Ok?;
    mid := client.collections;
    if r.Err? {
      return;
    }
    r, sentDrafts := LoadIf(client, drafts, "drafts", clean, r.value);
    if Truthy(internal) {
      var c := mid[CollectionName("internal")];
      assert client.collections[CollectionName("internal")] == c;
      assert Holds(c, internal, "internal", clean, internalOk, sentInternal);
    }
  }
}
