/** `setup_chroma.py`: (re)create the `support_articles` and `support_tickets` collections
    and load published articles and described tickets into them. */
module SetupChroma {
  import opened Common
  import opened Text
  import opened Store
  import opened Records
  import opened Ingestion

  const ArticlesCollection := "support_articles"
  const TicketsCollection := "support_tickets"

  /** The indentation the triple-quoted f-strings of this script keep on each line. */
  function Indent(): string {
    Spaces(16)
  }

  /** The document text of a published article, given its cleaned body. */
  function ArticleText(a: Article, content: string): (t: string)
    ensures "\n" + Indent() + "Title: " + a.title.GetOr("No Title") + "\n" <= t
    ensures EndsWith(t, "Content: " + content + "\n" + Indent())
  {
    "\n" + Indent() + "Title: " + a.title.GetOr("No Title")
    + "\n" + Indent() + "URL: " + a.htmlUrl.GetOr("No URL")
    + "\n" + Indent() + "Labels: " + Join(", ", Labels(a))
    + "\n" + Indent() + "Content: " + content
    + "\n" + Indent()
  }

  /** The metadata stored with an article that has an id. */
  function ArticleMeta(a: Article): (m: Metadata)
    requires a.id.Some?
    ensures m.Keys == {"type", "id", "title", "url"}
    ensures m["type"] == Str("article") && m["id"] == Str(NatToString(a.id.value))
    ensures m["title"] == Str(a.title.GetOr("No Title")) && m["url"] == Str(a.htmlUrl.GetOr(""))
  {
    map["type" := Str("article"), "id" := Str(NatToString(a.id.value)),
        "title" := Str(a.title.GetOr("No Title")), "url" := Str(a.htmlUrl.GetOr(""))]
  }

  /** An article survives the filter when it is explicitly not a draft and its cleaned body
      is not blank. */
  predicate ArticlePasses(a: Article, clean: string -> string) {
    !a.draft.GetOr(true) && !IsBlank(clean(a.body.GetOr("")))
  }

  /** The body of the `for article in articles` loop of `load_articles`. */
  function ArticleOutcome(a: Article, clean: string -> string): (o: Outcome)
    // a missing `draft` counts as a draft; a blank cleaned body is skipped too
    ensures o.Skip? <==> a.draft.GetOr(true) || IsBlank(clean(a.body.GetOr("")))
    // a survivor without an id has its text appended but nothing else
    ensures o.Orphan? <==> ArticlePasses(a, clean) && a.id.None?
    ensures !o.Skip? ==> o.doc == ArticleText(a, clean(a.body.GetOr("")))
    ensures o.Keep? ==> a.id.Some? && o.id == "article_" + NatToString(a.id.value)
    ensures o.Keep? ==> o.meta == ArticleMeta(a)
  {
    if a.draft.GetOr(true) then Skip
    else
      var content := clean(a.body.GetOr(""));
      if Strip(content) == [] then Skip
      else if a.id.None? then Orphan(ArticleText(a, content))
      else Keep(ArticleText(a, content), ArticleMeta(a), "article_" + NatToString(a.id.value))
  }

  function ArticleOutcomes(arts: seq<Article>, clean: string -> string): seq<Outcome> {
    MapSeq(arts, a => ArticleOutcome(a, clean))
  }

  /** The texts handed to the collection are those of the surviving articles, in input order. */
  lemma ArticleDocsInOrder(arts: seq<Article>, clean: string -> string)
    ensures Docs(ArticleOutcomes(arts, clean))
         == MapSeq(Select(arts, a => ArticlePasses(a, clean)), (a: Article) => ArticleText(a, clean(a.body.GetOr(""))))
  {
    DocsInOrder(arts, ArticleOutcomes(arts, clean), a => ArticlePasses(a, clean),
                (a: Article) => ArticleText(a, clean(a.body.GetOr(""))));
  }

  /** When every surviving article has an id, the ids handed to the collection are
      `article_<id>` of the survivors, in input order, and nothing is misaligned. */
  lemma ArticleIdsInOrder(arts: seq<Article>, clean: string -> string)
    requires forall k :: 0 <= k < |arts| && ArticlePasses(arts[k], clean) ==> arts[k].id.Some?
    ensures Ids(ArticleOutcomes(arts, clean))
         == MapSeq(Select(arts, a => ArticlePasses(a, clean)), (a: Article) => "article_" + NatToString(a.id.GetOr(0)))
    ensures NoOrphans(ArticleOutcomes(arts, clean))
  {
    var os := ArticleOutcomes(arts, clean);
    var keep := a => ArticlePasses(a, clean);
    var id := (a: Article) => "article_" + NatToString(a.id.GetOr(0));
    forall k | 0 <= k < |arts|
      ensures os[k].Skip? <==> !keep(arts[k])
      ensures keep(arts[k]) ==> os[k].Keep? && os[k].id == id(arts[k])
    {
      assert os[k] == ArticleOutcome(arts[k], clean);
    }
    IdsInOrder(arts, os, keep, id);
  }

  /** Articles with distinct ids are stored under distinct ids. */
  lemma ArticleIdsDistinct(arts: seq<Article>, clean: string -> string)
    requires DistinctKeys(arts, (a: Article) => a.id)
    ensures Distinct(Ids(ArticleOutcomes(arts, clean)))
  {
    IdsDistinct(arts, a => ArticleOutcome(a, clean), (a: Article) => a.id, "article_");
  }

  /** `load_articles(collection)`: an unreadable file, or a final flush that raises, is
      re-raised; otherwise the number of stored articles is returned. */
  method LoadArticles(sink: Sink, file: ExportFile<Article>, clean: string -> string)
    returns (r: Result<nat>, ghost sent: seq<Batch>)
    modifies sink
    ensures sink.batches == old(sink.batches) + sent
    ensures file.Unreadable? ==> r.Err? && sent == []
    ensures file.Parsed? ==>
      var os := ArticleOutcomes(Items(file), clean);
      IngestedAs(sink.accepts, os, |Ids(os)|, r.Ok?, sent)
    ensures r.Ok? ==> file.Parsed? && r.value == |Ids(ArticleOutcomes(Items(file), clean))|
  {
    if file.Unreadable? {
      return Err("articles file could not be read"), [];
    }
    var count, flushed;
    count, flushed, sent := Ingest(sink, ArticleOutcomes(Items(file), clean));
    r := if flushed then Ok(count) else Err("final add failed");
  }

  /** The document text of a ticket. */
  function TicketText(t: Ticket): (text: string)
    ensures "\n" + Indent() + "Subject: " + t.subject.GetOr("No Subject") + "\n" <= text
    ensures EndsWith(text, "Description: " + t.description.GetOr("") + "\n" + Indent())
  {
    var subject := "\n" + Indent() + "Subject: " + t.subject.GetOr("No Subject") + "\n";
    var description := "Description: " + t.description.GetOr("") + "\n" + Indent();
    subject + Indent() + "Type: " + t.kind.GetOr("No Type") + "\n" + Indent() + description
  }

  /** The metadata stored with a ticket that has an id. */
  function TicketMeta(t: Ticket): (m: Metadata)
    requires t.id.Some?
    ensures m.Keys == {"type", "id", "subject"}
    ensures m["type"] == Str("ticket") && m["id"] == Str(NatToString(t.id.value))
    ensures m["subject"] == Str(t.subject.GetOr("No Subject"))
  {
    map["type" := Str("ticket"), "id" := Str(NatToString(t.id.value)),
        "subject" := Str(t.subject.GetOr("No Subject"))]
  }

  /** A ticket survives when its description is present and not empty. */
  predicate TicketPasses(t: Ticket) {
    t.description.Some? && t.description.value != ""
  }

  /** The body of the `for ticket in tickets` loop of `load_tickets`. */
  function TicketOutcome(t: Ticket): (o: Outcome)
    ensures o.Skip? <==> t.description.None? || t.description.value == ""
    ensures o.Orphan? <==> TicketPasses(t) && t.id.None?
    ensures !o.Skip? ==> o.doc == TicketText(t)
    ensures o.Keep? ==> t.id.Some? && o.id == "ticket_" + NatToString(t.id.value)
    ensures o.Keep? ==> o.meta == TicketMeta(t)
  {
    if t.description.GetOr("") == "" then Skip
    else if t.id.None? then Orphan(TicketText(t))
    else Keep(TicketText(t), TicketMeta(t), "ticket_" + NatToString(t.id.value))
  }

  function TicketOutcomes(ts: seq<Ticket>): seq<Outcome> {
    MapSeq(ts, TicketOutcome)
  }

  /** The texts handed to the collection are those of the described tickets, in input order. */
  lemma TicketDocsInOrder(ts: seq<Ticket>)
    ensures Docs(TicketOutcomes(ts)) == MapSeq(Select(ts, TicketPasses), TicketText)
  {
    DocsInOrder(ts, TicketOutcomes(ts), TicketPasses, TicketText);
  }

  /** When every described ticket has an id, the ids handed to the collection are
      `ticket_<id>` of those tickets, in input order, and nothing is misaligned. */
  lemma TicketIdsInOrder(ts: seq<Ticket>)
    requires forall k :: 0 <= k < |ts| && TicketPasses(ts[k]) ==> ts[k].id.Some?
    ensures Ids(TicketOutcomes(ts)) == MapSeq(Select(ts, TicketPasses), (t: Ticket) => "ticket_" + NatToString(t.id.GetOr(0)))
    ensures NoOrphans(TicketOutcomes(ts))
  {
    var os := TicketOutcomes(ts);
    var id := (t: Ticket) => "ticket_" + NatToString(t.id.GetOr(0));
    forall k | 0 <= k < |ts|
      ensures os[k].Skip? <==> !TicketPasses(ts[k])
      ensures TicketPasses(ts[k]) ==> os[k].Keep? && os[k].id == id(ts[k])
    {
      assert os[k] == TicketOutcome(ts[k]);
    }
    IdsInOrder(ts, os, TicketPasses, id);
  }

  /** Tickets with distinct ids are stored under distinct ids. */
  lemma TicketIdsDistinct(ts: seq<Ticket>)
    requires DistinctKeys(ts, (t: Ticket) => t.id)
    ensures Distinct(Ids(TicketOutcomes(ts)))
  {
    IdsDistinct(ts, TicketOutcome, (t: Ticket) => t.id, "ticket_");
  }

  /** `load_tickets(collection)`, with the same error policy as `LoadArticles`. */
  method LoadTickets(sink: Sink, file: ExportFile<Ticket>)
    returns (r: Result<nat>, ghost sent: seq<Batch>)
    modifies sink
    ensures sink.batches == old(sink.batches) + sent
    ensures file.Unreadable? ==> r.Err? && sent == []
    ensures file.Parsed? ==>
      var os := TicketOutcomes(Items(file));
      IngestedAs(sink.accepts, os, |Ids(os)|, r.Ok?, sent)
    ensures r.Ok? ==> file.Parsed? && r.value == |Ids(TicketOutcomes(Items(file)))|
  {
    if file.Unreadable? {
      return Err("tickets file could not be read"), [];
    }
    var count, flushed;
    count, flushed, sent := Ingest(sink, TicketOutcomes(Items(file)));
    r := if flushed then Ok(count) else Err("final add failed");
  }

  /** The collection names left by `main`'s `try: delete articles; delete tickets` as
      written: when the first delete raises, the second is never attempted. */
  function AfterResetAsWritten(names: set<string>): set<string> {
    if ArticlesCollection in names then names - {ArticlesCollection, TicketsCollection} else names
  }

  /** The reset `main` evidently intends: both collections are gone, whichever existed. */
  function AfterReset(names: set<string>): (left: set<string>)
    ensures ArticlesCollection !in left && TicketsCollection !in left
    ensures forall n :: n in names && n != ArticlesCollection && n != TicketsCollection ==> n in left
    ensures left <= names
  {
    names - {ArticlesCollection, TicketsCollection}
  }

  /** A store that holds `support_tickets` but not `support_articles` keeps
      `support_tickets` through the reset as written, so the following
      `create_collection("support_tickets")` raises and `main` exits with status 1. */
  lemma ResetAsWrittenKeepsTickets()
    ensures TicketsCollection in AfterResetAsWritten({TicketsCollection})
    ensures AfterResetAsWritten({TicketsCollection}) != AfterReset({TicketsCollection})
  {
    assert ArticlesCollection != TicketsCollection;
  }

  /** The reset as written, on the store: `delete_collection("support_tickets")` runs only
      when `delete_collection("support_articles")` did not raise. */
  method ResetAsWritten(client: Client)
    requires client.Valid()
    modifies client
    ensures client.Valid()
    ensures client.collections.Keys == AfterResetAsWritten(old(client.collections.Keys))
    ensures client.collections == if ArticlesCollection in old(client.collections)
      then old(client.collections) - {ArticlesCollection, TicketsCollection} else old(client.collections)
  {
    var ok := client.Delete(ArticlesCollection);
    if ok {
      ok := client.Delete(TicketsCollection);
    }
  }

  /** The corrected reset: each delete is attempted on its own. */
  method Reset(client: Client)
    requires client.Valid()
    modifies client
    ensures client.Valid()
    ensures client.collections.Keys == AfterReset(old(client.collections.Keys))
    ensures client.collections == old(client.collections) - {ArticlesCollection, TicketsCollection}
  {
    var _ := client.Delete(ArticlesCollection);
    var _ := client.Delete(TicketsCollection);
  }

  /** `main`, with the corrected reset: both collections are created afresh and loaded; an
      error from either load ends the run. On success the two counts are returned and each
      new collection holds exactly the batches its load handed over. */
  method SetupStore(client: Client, articles: ExportFile<Article>, tickets: ExportFile<Ticket>,
                    clean: string -> string)
    returns (r: Result<(nat, nat)>, ghost sentArticles: seq<Batch>, ghost sentTickets: seq<Batch>)
    requires client.Valid()
    modifies client
    ensures client.Valid()
    ensures client.collections.Keys == old(client.collections.Keys) + {ArticlesCollection, TicketsCollection}
    // both collections are new and every other collection is as it was
    ensures client.collections == old(client.collections)[ArticlesCollection := client.collections[ArticlesCollection]]
                                                         [TicketsCollection := client.collections[TicketsCollection]]
    ensures fresh(client.collections[ArticlesCollection]) && fresh(client.collections[TicketsCollection])
    ensures articles.Unreadable? ==> r.Err?
    ensures r.Ok? ==>
      && articles.Parsed? && tickets.Parsed?
      && r.value.0 == |Ids(ArticleOutcomes(Items(articles), clean))|
      && r.value.1 == |Ids(TicketOutcomes(Items(tickets)))|
      && client.collections[ArticlesCollection].batches == sentArticles
      && client.collections[TicketsCollection].batches == sentTickets
      && IngestedAs(client.accepts, ArticleOutcomes(Items(articles), clean), r.value.0, true, sentArticles)
      && IngestedAs(client.accepts, TicketOutcomes(Items(tickets)), r.value.1, true, sentTickets)
  {
    sentArticles, sentTickets := [], [];
    Reset(client);
    var a := client.Create(ArticlesCollection);
    var t := client.Create(TicketsCollection);
    var sa, st := a.value, t.value;
    assert client.collections == old(client.collections)[ArticlesCollection := sa][TicketsCollection := st];
    var ra;
    ra, sentArticles := LoadArticles(sa, articles, clean);
    if ra.Err? {
      return Err(ra.message), sentArticles, sentTickets;
    }
    var rt;
    rt, sentTickets := LoadTickets(st, tickets);
    if rt.Err? {
      return Err(rt.message), sentArticles, sentTickets;
    }
    r := Ok((ra.value, rt.value));
  }
}
