/** `add_zendesk_collections.py`: reset the `support_internal` and `support_drafts`
    collections and load the internal and the draft Zendesk articles into them. */
module AddZendeskCollections {
  import opened Common
  import opened Text
  import opened Store
  import opened Records
  import opened Ingestion
  import opened AddToChroma

  /** The collection a document type is stored in. */
  function CollectionName(name: string): (n: string)
    ensures |n| == 8 + |name| && n[..8] == "support_" && n[8..] == name
  {
    "support_" + name
  }

  /** `setup_collection(client, name)`: delete `support_<name>` if it exists, then create
      it afresh. */
  method SetupCollection(client: Client, name: string) returns (s: Sink)
    requires client.Valid()
    modifies client
    ensures client.Valid()
    ensures fresh(s) && s.batches == [] && s.name == CollectionName(name)
    ensures client.collections == old(client.collections)[CollectionName(name) := s]
  {
    var _ := client.Delete(CollectionName(name));
    var created := client.Create(CollectionName(name));
    s := created.value;
    assert client.collections[CollectionName(name)] == s;
  }

  /** `load_zendesk_articles(file_path)`: the articles of a readable file, and none when it
      cannot be read. */
  function LoadZendeskArticles(file: ExportFile<Article>): (arts: seq<Article>)
    ensures file.Unreadable? ==> arts == []
    ensures file.Parsed? && file.items.Some? ==> arts == file.items.value
    ensures file.Parsed? && file.items.None? ==> arts == []
  {
    if file.Unreadable? then [] else Items(file)
  }

  /** The metadata stored with an article that has an id: the labels stay a list. */
  function ListMeta(docType: string, a: Article): (m: Metadata)
    requires a.id.Some?
    ensures m.Keys == {"type", "id", "title", "url", "labels"}
    ensures m["type"] == Str(docType) && m["id"] == Str(NatToString(a.id.value))
    ensures m["title"] == Str(a.title.GetOr("No Title")) && m["url"] == Str(a.htmlUrl.GetOr(""))
    ensures m["labels"] == List(Labels(a))
  {
    map["type" := Str(docType), "id" := Str(NatToString(a.id.value)),
        "title" := Str(a.title.GetOr("No Title")), "url" := Str(a.htmlUrl.GetOr("")),
        "labels" := List(Labels(a))]
  }

  /** The body of the `for article in articles` loop of `process_articles`: the draft
      filter of `add_zendesk_articles`, a 12-space indented text and list-valued labels. */
  function ListOutcome(docType: string, a: Article, clean: string -> string): (o: Outcome)
    ensures o.Skip? <==> !TypeFilter(docType, a) || IsBlank(clean(a.body.GetOr("")))
    ensures o.Orphan? <==> ZendeskPasses(docType, a, clean) && a.id.None?
    ensures !o.Skip? ==> o.doc == ZendeskText(12, a, clean(a.body.GetOr("")))
    ensures o.Keep? ==> a.id.Some? && o.id == docType + "_" + NatToString(a.id.value)
    ensures o.Keep? ==> o.meta == ListMeta(docType, a)
  {
    if !TypeFilter(docType, a) then Skip
    else
      var content := clean(a.body.GetOr(""));
      if Strip(content) == [] then Skip
      else if a.id.None? then Orphan(ZendeskText(12, a, content))
      else Keep(ZendeskText(12, a, content), ListMeta(docType, a), docType + "_" + NatToString(a.id.value))
  }

  function ListOutcomes(docType: string, arts: seq<Article>, clean: string -> string): seq<Outcome> {
    MapSeq(arts, a => ListOutcome(docType, a, clean))
  }

  /** The two Zendesk scripts skip, keep and name exactly the same articles; they differ
      only in the text's indentation and in how the labels are stored. */
  lemma SameFilterAsAddToChroma(docType: string, arts: seq<Article>, clean: string -> string)
    ensures Ids(ListOutcomes(docType, arts, clean)) == Ids(ZendeskOutcomes(docType, arts, clean))
    ensures forall k :: 0 <= k < |arts| ==>
      (ListOutcomes(docType, arts, clean)[k].Skip? <==> ZendeskOutcomes(docType, arts, clean)[k].Skip?)
  {
    SameIds(arts, ListOutcomes(docType, arts, clean), ZendeskOutcomes(docType, arts, clean));
  }

  /** Two runs whose outcomes agree on kind and id, record by record, store the same ids. */
  lemma {:induction false} SameIds<R>(rs: seq<R>, os: seq<Outcome>, ps: seq<Outcome>)
    requires |os| == |ps|
    requires forall k :: 0 <= k < |os| ==> os[k].Skip? == ps[k].Skip? && os[k].Keep? == ps[k].Keep?
    requires forall k :: 0 <= k < |os| && os[k].Keep? ==> os[k].id == ps[k].id
    ensures Ids(os) == Ids(ps)
  {
    if os != [] {
      var n := |os| - 1;
      assert forall k :: 0 <= k < n ==> os[..n][k] == os[k] && ps[..n][k] == ps[k];
      SameIds(rs, os[..n], ps[..n]);
    }
  }

  /** Articles with distinct ids are stored under distinct ids. */
  lemma ListIdsDistinct(docType: string, arts: seq<Article>, clean: string -> string)
    requires DistinctKeys(arts, (a: Article) => a.id)
    ensures Distinct(Ids(ListOutcomes(docType, arts, clean)))
  {
    SameFilterAsAddToChroma(docType, arts, clean);
    ZendeskIdsDistinct(docType, arts, clean);
  }

  /** An unreadable file yields no articles, and processing no articles stores nothing. */
  lemma UnreadableAddsNothing(docType: string, clean: string -> string, accepts: Batch -> bool,
                              count: nat, flushed: bool, sent: seq<Batch>)
    requires IngestedAs(accepts, ListOutcomes(docType, LoadZendeskArticles(Unreadable), clean), count, flushed, sent)
    ensures count == 0 && flushed && sent == []
  {
    assert ListOutcomes(docType, LoadZendeskArticles(Unreadable), clean) == [];
    EmptyRun(accepts, count, flushed, sent);
  }

  /** `process_articles(collection, articles, doc_type)`: a final flush that raises
      propagates; otherwise the number of stored articles is returned. */
  method ProcessArticles(sink: Sink, arts: seq<Article>, docType: string, clean: string -> string)
    returns (r: Result<nat>, ghost sent: seq<Batch>)
    modifies sink
    ensures sink.batches == old(sink.batches) + sent
    ensures var os := ListOutcomes(docType, arts, clean);
      IngestedAs(sink.accepts, os, |Ids(os)|, r.Ok?, sent)
    ensures r.Ok? ==> r.value == |Ids(ListOutcomes(docType, arts, clean))|
  {
    var count, flushed;
    count, flushed, sent := Ingest(sink, ListOutcomes(docType, arts, clean));
    r := if flushed then Ok(count) else Err("final add failed");
  }

  /** What a collection loaded from an export file holds: exactly the batches `sent`, which
      the ingestion description relates to the file's articles; `ok` says whether
      `process_articles` returned. */
  ghost predicate HoldsArticles(c: Sink, file: ExportFile<Article>, docType: string, clean: string -> string,
                                ok: bool, sent: seq<Batch>)
    reads c
  {
    && c.batches == sent
    && var os := ListOutcomes(docType, LoadZendeskArticles(file), clean);
      IngestedAs(c.accepts, os, |Ids(os)|, ok, sent)
  }

  /** `main`: for each of `internal` and `drafts`, reset its collection, load its file and
      process the articles; an error from `process_articles` ends the run. */
  method LoadCollections(client: Client, internal: ExportFile<Article>, drafts: ExportFile<Article>,
                         clean: string -> string)
    returns (r: Result<(nat, nat)>, ghost internalOk: bool, ghost mid: map<string, Sink>,
             ghost sentInternal: seq<Batch>, ghost sentDrafts: seq<Batch>)
    requires client.Valid()
    modifies client
    ensures client.Valid()
    ensures CollectionName("internal") in client.collections
    ensures r.Ok? ==> client.collections.Keys == old(client.collections.Keys) + {CollectionName("internal"), CollectionName("drafts")}
    // the counts
    ensures internal.Unreadable? && r.Ok? ==> r.value.0 == 0
    ensures drafts.Unreadable? && r.Ok? ==> r.value.1 == 0
    ensures r.Ok? ==>
      && r.value.0 == |Ids(ListOutcomes("internal", LoadZendeskArticles(internal), clean))|
      && r.value.1 == |Ids(ListOutcomes("drafts", LoadZendeskArticles(drafts), clean))|
    // the collections: `mid` is the store after the internal block, and an error in it ends the run
    ensures Replaced(old(client.collections), mid, CollectionName("internal"))
    ensures internalOk ==> Replaced(mid, client.collections, CollectionName("drafts"))
    ensures !internalOk ==> client.collections == mid && r.Err?
    ensures var c := client.collections[CollectionName("internal")];
      fresh(c) && HoldsArticles(c, internal, "internal", clean, internalOk, sentInternal)
    ensures internalOk ==>
      var c := client.collections[CollectionName("drafts")];
      fresh(c) && HoldsArticles(c, drafts, "drafts", clean, r.Ok?, sentDrafts)
  {
    ghost var keys := client.collections.Keys;
    var internalSink := SetupCollection(client, "internal");
    assert client.collections.Keys == keys + {CollectionName("internal")};
    var ri;
    ri, sentInternal := ProcessArticles(internalSink, LoadZendeskArticles(internal), "internal", clean);
    internalOk := ri.Ok?;
    mid := client.collections;
    sentDrafts := [];
    if ri.Err? {
      return Err(ri.message), internalOk, mid, sentInternal, sentDrafts;
    }
    ghost var keys' := client.collections.Keys;
    var draftsSink := SetupCollection(client, "drafts");
    assert client.collections.Keys == keys' + {CollectionName("drafts")};
    assert CollectionName("internal")[8..] != CollectionName("drafts")[8..];
    var rd;
    rd, sentDrafts := ProcessArticles(draftsSink, LoadZendeskArticles(drafts), "drafts", clean);
    if rd.Err? {
      return Err(rd.message), internalOk, mid, sentInternal, sentDrafts;
    }
    r := Ok((ri.value, rd.value));
  }
}
