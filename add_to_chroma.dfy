/** `add_to_chroma.py`: add the internal and the draft Zendesk articles to the
    `support_internal` and `support_drafts` collections, creating them when missing. */
module AddToChroma {
  import opened Common
  import opened Text
  import opened Store
  import opened Records
  import opened Ingestion

  const InternalCollection := "support_internal"
  const DraftsCollection := "support_drafts"

  /** The draft filter both Zendesk scripts apply: an `internal` run keeps the articles
      that say they are not drafts, a `drafts` run those that say they are, and any other
      document type keeps every article. */
  function TypeFilter(docType: string, a: Article): (keep: bool)
    // an article without `draft` is taken for a draft by one and for no draft by the other
    ensures docType == "internal" ==> (keep <==> a.draft == Some(false))
    ensures docType == "drafts" ==> (keep <==> a.draft == Some(true))
    ensures docType != "internal" && docType != "drafts" ==> keep
  {
    if docType == "internal" then !a.draft.GetOr(true)
    else if docType == "drafts" then a.draft.GetOr(false)
    else true
  }

  /** No article passes both the internal and the drafts filter. */
  lemma TypeFilterExclusive(a: Article)
    ensures !(TypeFilter("internal", a) && TypeFilter("drafts", a))
  {
    assert "internal" != "drafts";
  }

  /** The document text of a Zendesk article with `width` spaces of indentation. */
  function ZendeskText(width: nat, a: Article, content: string): (t: string)
    ensures "\n" + Spaces(width) + "Title: " + a.title.GetOr("No Title") + "\n" <= t
    ensures EndsWith(t, "\n" + Spaces(width) + content + "\n" + Spaces(width))
  {
    var ind := Spaces(width);
    "\n" + ind + "Title: " + a.title.GetOr("No Title")
    + "\n" + ind + "URL: " + a.htmlUrl.GetOr("No URL")
    + "\n" + ind + "Labels: " + Join(", ", Labels(a))
    + "\n" + ind
    + "\n" + ind + "Content:"
    + "\n" + ind + content
    + "\n" + ind
  }

  /** The label names as one metadata string, `;`-separated: empty when there are no
      labels, and giving the labels back when split at `;`, provided there is at least one
      and none contains a `;`. */
  function LabelsString(a: Article): (s: string)
    ensures Labels(a) == [] ==> s == ""
    ensures Labels(a) != [] && (forall k :: 0 <= k < |Labels(a)| ==> ';' !in Labels(a)[k]) ==>
      Split(s, ';') == Labels(a)
  {
    if Labels(a) != [] && (forall k :: 0 <= k < |Labels(a)| ==> ';' !in Labels(a)[k]) then
      SplitJoin(Labels(a), ';');
      Join(";", Labels(a))
    else
      Join(";", Labels(a))
  }

  /** The metadata stored with an article that has an id. */
  function ZendeskMeta(docType: string, a: Article): (m: Metadata)
    requires a.id.Some?
    ensures m.Keys == {"type", "id", "title", "url", "labels", "created_at", "updated_at"}
    ensures m["type"] == Str(docType) && m["id"] == Str(NatToString(a.id.value))
    ensures m["title"] == Str(a.title.GetOr("No Title")) && m["url"] == Str(a.htmlUrl.GetOr(""))
    ensures m["labels"] == Str(Join(";", Labels(a)))
    ensures m["created_at"] == Str(a.createdAt.GetOr("")) && m["updated_at"] == Str(a.updatedAt.GetOr(""))
  {
    map["type" := Str(docType), "id" := Str(NatToString(a.id.value)),
        "title" := Str(a.title.GetOr("No Title")), "url" := Str(a.htmlUrl.GetOr("")),
        "labels" := Str(LabelsString(a)),
        "created_at" := Str(a.createdAt.GetOr("")), "updated_at" := Str(a.updatedAt.GetOr(""))]
  }

  /** An article survives when the draft filter keeps it and its cleaned body is not blank. */
  predicate ZendeskPasses(docType: string, a: Article, clean: string -> string) {
    TypeFilter(docType, a) && !IsBlank(clean(a.body.GetOr("")))
  }

  /** The body of the `for article in articles` loop of `add_zendesk_articles`. */
  function ZendeskOutcome(docType: string, a: Article, clean: string -> string): (o: Outcome)
    ensures o.Skip? <==> !TypeFilter(docType, a) || IsBlank(clean(a.body.GetOr("")))
    ensures o.Orphan? <==> ZendeskPasses(docType, a, clean) && a.id.None?
    ensures !o.Skip? ==> o.doc == ZendeskText(16, a, clean(a.body.GetOr("")))
    ensures o.Keep? ==> a.id.Some? && o.id == docType + "_" + NatToString(a.id.value)
    ensures o.Keep? ==> o.meta == ZendeskMeta(docType, a)
  {
    if !TypeFilter(docType, a) then Skip
    else
      var content := clean(a.body.GetOr(""));
      if Strip(content) == [] then Skip
      else if a.id.None? then Orphan(ZendeskText(16, a, content))
      else Keep(ZendeskText(16, a, content), ZendeskMeta(docType, a), docType + "_" + NatToString(a.id.value))
  }

  function ZendeskOutcomes(docType: string, arts: seq<Article>, clean: string -> string): seq<Outcome> {
    MapSeq(arts, a => ZendeskOutcome(docType, a, clean))
  }

  /** When every surviving article has an id, the ids handed to the collection are
      `<doc_type>_<id>` of the survivors in input order, and nothing is misaligned. */
  lemma ZendeskIdsInOrder(docType: string, arts: seq<Article>, clean: string -> string)
    requires forall k :: 0 <= k < |arts| && ZendeskPasses(docType, arts[k], clean) ==> arts[k].id.Some?
    ensures Ids(ZendeskOutcomes(docType, arts, clean))
         == MapSeq(Select(arts, a => ZendeskPasses(docType, a, clean)),
                   (a: Article) => docType + "_" + NatToString(a.id.GetOr(0)))
    ensures NoOrphans(ZendeskOutcomes(docType, arts, clean))
  {
    var os := ZendeskOutcomes(docType, arts, clean);
    var keep := a => ZendeskPasses(docType, a, clean);
    var id := (a: Article) => docType + "_" + NatToString(a.id.GetOr(0));
    forall k | 0 <= k < |arts|
      ensures os[k].Skip? <==> !keep(arts[k])
      ensures keep(arts[k]) ==> os[k].Keep? && os[k].id == id(arts[k])
    {
      assert os[k] == ZendeskOutcome(docType, arts[k], clean);
    }
    IdsInOrder(arts, os, keep, id);
  }

  /** Articles with distinct ids are stored under distinct ids. */
  lemma ZendeskIdsDistinct(docType: string, arts: seq<Article>, clean: string -> string)
    requires DistinctKeys(arts, (a: Article) => a.id)
    ensures Distinct(Ids(ZendeskOutcomes(docType, arts, clean)))
  {
    IdsDistinct(arts, a => ZendeskOutcome(docType, a, clean), (a: Article) => a.id, docType + "_");
  }

  /** `add_zendesk_articles(collection, file_path, doc_type)`: an unreadable file, or a
      final flush that raises, makes it return 0, even when batches were already added;
      otherwise it returns the number of stored articles. */
  method AddZendeskArticles(sink: Sink, file: ExportFile<Article>, docType: string, clean: string -> string)
    returns (r: nat, ghost flushed: bool, ghost sent: seq<Batch>)
    modifies sink
    ensures sink.batches == old(sink.batches) + sent
    ensures file.Unreadable? ==> r == 0 && !flushed && sent == []
    ensures file.Parsed? ==>
      var os := ZendeskOutcomes(docType, Items(file), clean);
      && IngestedAs(sink.accepts, os, |Ids(os)|, flushed, sent)
      && r == (if flushed then |Ids(os)| else 0)
  {
    if file.Unreadable? {
      return 0, false, [];
    }
    var count, ok;
    count, ok, sent := Ingest(sink, ZendeskOutcomes(docType, Items(file), clean));
    flushed := ok;
    r := if ok then count else 0;
  }

  /** One step of `main`: get or create the collection `name` and add the articles of
      `file` to it. */
  method AddTo(client: Client, name: string, file: ExportFile<Article>, docType: string, clean: string -> string)
    returns (count: nat, ghost flushed: bool, ghost sent: seq<Batch>)
    requires client.Valid()
    modifies client, if name in client.collections then {client.collections[name]} else {}
    ensures client.Valid()
    // the collection `name` is the existing one, or a new one when there is none
    ensures Replaced(old(client.collections), client.collections, name)
    ensures name in old(client.collections) ==> client.collections[name] == old(client.collections[name])
    ensures name !in old(client.collections) ==> fresh(client.collections[name])
    ensures count == 0 || (file.Parsed? && count == |Ids(ZendeskOutcomes(docType, Items(file), clean))|)
    // the collection `name` gains the accepted batches, and no other collection changes
    ensures client.collections[name].batches
         == (if name in old(client.collections) then old(client.collections[name].batches) else []) + sent
    ensures forall n :: n in old(client.collections) && n != name ==>
      client.collections[n].batches == old(client.collections[n].batches)
    ensures file.Unreadable? ==> count == 0 && !flushed && sent == []
    ensures file.Parsed? ==>
      var os := ZendeskOutcomes(docType, Items(file), clean);
      && IngestedAs(client.accepts, os, |Ids(os)|, flushed, sent)
      && count == (if flushed then |Ids(os)| else 0)
  {
    var sink := client.GetOrCreate(name);
    assert sink.accepts == client.accepts;
    count, flushed, sent := AddZendeskArticles(sink, file, docType, clean);
  }

  /** `main`: get or create each collection, then add its articles to it. */
  method AddToStore(client: Client, internal: ExportFile<Article>, drafts: ExportFile<Article>,
                    clean: string -> string)
    returns (internalCount: nat, draftsCount: nat, ghost internalFlushed: bool, ghost draftsFlushed: bool,
             ghost sentInternal: seq<Batch>, ghost sentDrafts: seq<Batch>)
    requires client.Valid()
    modifies client, client.collections.Values
    ensures client.Valid()
    // the two collections are the existing ones, or new ones where there were none
    ensures InternalCollection in client.collections && DraftsCollection in client.collections
    ensures client.collections == old(client.collections)[InternalCollection := client.collections[InternalCollection]]
                                                         [DraftsCollection := client.collections[DraftsCollection]]
    ensures InternalCollection in old(client.collections) ==>
      client.collections[InternalCollection] == old(client.collections[InternalCollection])
    ensures DraftsCollection in old(client.collections) ==>
      client.collections[DraftsCollection] == old(client.collections[DraftsCollection])
    ensures internalCount == 0
         || (internal.Parsed? && internalCount == |Ids(ZendeskOutcomes("internal", Items(internal), clean))|)
    ensures draftsCount == 0
         || (drafts.Parsed? && draftsCount == |Ids(ZendeskOutcomes("drafts", Items(drafts), clean))|)
    // each of the two collections gains its accepted batches, and no other collection changes
    ensures client.collections[InternalCollection].batches
         == (if InternalCollection in old(client.collections) then old(client.collections[InternalCollection].batches) else [])
            + sentInternal
    ensures client.collections[DraftsCollection].batches
         == (if DraftsCollection in old(client.collections) then old(client.collections[DraftsCollection].batches) else [])
            + sentDrafts
    ensures forall n :: n in old(client.collections) && n != InternalCollection && n != DraftsCollection ==>
      client.collections[n].batches == old(client.collections[n].batches)
    ensures internal.Unreadable? ==> internalCount == 0 && !internalFlushed && sentInternal == []
    ensures internal.Parsed? ==>
      var os := ZendeskOutcomes("internal", Items(internal), clean);
      && IngestedAs(client.accepts, os, |Ids(os)|, internalFlushed, sentInternal)
      && internalCount == (if internalFlushed then |Ids(os)| else 0)
    ensures drafts.Unreadable? ==> draftsCount == 0 && !draftsFlushed && sentDrafts == []
    ensures drafts.Parsed? ==>
      var os := ZendeskOutcomes("drafts", Items(drafts), clean);
      && IngestedAs(client.accepts, os, |Ids(os)|, draftsFlushed, sentDrafts)
      && draftsCount == (if draftsFlushed then |Ids(os)| else 0)
  {
    assert InternalCollection != DraftsCollection;
    internalCount, internalFlushed, sentInternal := AddTo(client, InternalCollection, internal, "internal", clean);
    ghost var batches := client.collections[InternalCollection].batches;
    draftsCount, draftsFlushed, sentDrafts := AddTo(client, DraftsCollection, drafts, "drafts", clean);
    assert client.collections[InternalCollection].batches == batches;
  }
}
