# Support assistant: ingestion scripts, migration and answer endpoint

This project models the parts of a retrieval-augmented support assistant that the repository's
own code pins down, and proves properties about them:

- **The four ingestion scripts.** `setup_chroma.py`, `add_to_chroma.py`,
  `add_zendesk_collections.py` and `add_collections.py` fill the vector store's collections
  from JSON exports. Each script:
  - walks its records and drops drafts, blank bodies or missing descriptions;
  - turns each survivor into a document text, a metadata dictionary and an id;
  - buffers these and hands the buffers to `collection.add` whenever they hold 10 documents;
  - hands over what is left at the end, and counts what it stored.

  All four share one loop, `Ingestion.Ingest`. It is an imperative method over a `Store.Sink`,
  the collection. What a record becomes is decided by each script's own pure classifier
  (`ArticleOutcome`, `TicketOutcome`, `ZendeskOutcome`, `ListOutcome`, `DocOutcome`), as an
  `Outcome`:
  - `Skip`: the record is dropped;
  - `Orphan`: the text is appended, but reading `id` raises, so nothing else is;
  - `Keep`: the record is stored.

  Each script's wrapper method then applies that script's error policy. `setup_chroma.py`
  re-raises. `add_to_chroma.py` returns 0. The other two let the error propagate.
- **The migration in `src/migrate_data.py`.** It copies the four support collections into a
  fresh store, 100 entries per `add` call. A missing source collection is skipped, and a
  failing `add` abandons the rest of that collection.
- **The `POST /answer` handler `get_answer` in `app.py`.**
  - A request without a question is rejected with 400.
  - Otherwise the handler calls the answering system and shapes its result: the answer is
    whitespace-stripped, and the references are split by `type` into articles (with a url,
    default `''`) and tickets.
  - Any exception becomes a 500 that carries the exception's message.

Several external pieces are parameters of the model rather than parts of it:
- the vector store's `add` is a fixed predicate `accepts: Batch -> bool` saying whether a call
  goes through;
- `html2text`'s `handle` is a function `clean: string -> string`;
- the answering system is a function `Q -> Result<Answer>`.

The Python idioms are written out in the model:
- `dict.get(key, default)` is `Option.GetOr`;
- a `KeyError` is a `Result.Err` carrying the message `'key'`;
- `str.strip` and `str.isspace` are `Text.Strip` and `Text.IsSpace`;
- slicing is `MigrateData.PySlice`, with Python's clamping;
- `str(int)` is `Text.NatToString`, proved injective.

## Model

| member | source | states |
|---|---|---|
| Common.SelectCons | app.py:111-120 | Filtering a list with a new first element keeps that element exactly when the filter accepts it, followed by the filtered rest: the comprehension order the reference lists rely on |
| Text.Strip | app.py:109 | The stripped string is a contiguous slice whose removed prefix and suffix are all whitespace and whose ends are not whitespace; it is empty exactly when the input is blank |
| Text.StripIdempotent | setup_chroma.py:73 | Stripping twice gives what stripping once gives |
| Text.Join | add_to_chroma.py:67 | `sep.join(parts)`: empty for no parts, opening with the first part followed by the separator when there are two or more, and ending with the last part |
| Text.SplitJoin | add_to_chroma.py:67 | Splitting a `;`-joined list of at least one label, none containing `;`, gives the list back |
| Text.JoinSplit | add_to_chroma.py:67 | Joining the pieces of a split with the same separator gives the original string |
| Text.NatToStringInjective | setup_chroma.py:90 | Different record ids have different decimal strings |
| Text.NatToString | setup_chroma.py:90 | `str(n)` of a natural is a non-empty string of decimal digits, at least two for n >= 10, that starts with `0` exactly when n is 0 |
| Text.PrefixedNatInjective | add_collections.py:65 | `<prefix><n>` ids with different counters are different |
| Chunking.CeilDivBounds | src/migrate_data.py:50 | The number of `range(0, total, n)` steps covers `total` and no step starts at or past it |
| Chunking.ChunksShape | setup_chroma.py:94-121 | Cutting a list into chunks of `n` gives ceil(len/n) chunks of 1 to `n` elements, all but the last full, concatenating back to the list |
| Chunking.ChunkAt | src/migrate_data.py:51-57 | The `k`th chunk is the slice from `k*n` to `min(k*n + n, len)` |
| Chunking.ChunksUnique | setup_chroma.py:94-121 | A list of non-empty pieces of at most `n`, all but the last full, is the chunking of its concatenation: full batches plus one final partial batch are exactly the chunking |
| Chunking.FlattenSnoc | setup_chroma.py:99-103 | Handing over one more batch appends its entries to everything handed over |
| Records.Items | add_to_chroma.py:32 | `data.get('articles', [])` of a readable file: the record list when present, else none |
| Records.Labels | add_to_chroma.py:67 | `article.get('label_names', [])`: the labels when present, else none |
| Store.FlattenBatchesSnoc | setup_chroma.py:99-103 | One more accepted batch appends its documents, metadata and ids to what the collection holds |
| Store.Sink.Add | setup_chroma.py:99-103 | `collection.add` goes through exactly when the store accepts the batch, and only then is the batch recorded |
| Store.Client.GetOrCreate | add_to_chroma.py:11-19 | An existing collection is returned with the store unchanged; a missing one is created empty and fresh, with no other collection touched |
| Store.Client.Delete | add_collections.py:13-16 | Deleting removes exactly the named collection; the call fails (raises) exactly when it did not exist |
| Store.Client.Create | add_collections.py:17 | Creating fails exactly when the name exists; otherwise a fresh empty collection is added under that name and nothing else changes |
| Ingestion.AppendOutcome | setup_chroma.py:83-91 | Processing one more record extends the appended documents, metadata and ids by that record's contribution |
| Ingestion.AlignedUnlessOrphan | setup_chroma.py:83-91 | The metadata and id lists always have equal length, never more than the document list; the three line up exactly when no record lost its id after its text was appended |
| Ingestion.Ingest | setup_chroma.py:60-121 | After the loop and the final flush: the count is the number of stored records; everything the collection received is a prefix of what was appended, in input order; the final flush went through exactly when every appended document reached the collection; when every `add` goes through and no id is missing, the batches are 10 documents each plus one final remainder |
| Ingestion.Finish | setup_chroma.py:114-121 | Given the loop's invariant at the end of the records, the final flush leaves the collection holding what it held plus the batches the run describes, and establishes the end-of-run description |
| Ingestion.AddRest | setup_chroma.py:114-121 | Non-empty leftover buffers are handed over in one call, recorded exactly when it goes through; empty buffers cause no call and count as flushed |
| Ingestion.Take | setup_chroma.py:66-112 | One loop iteration keeps the invariant: accepted batches followed by the buffers are exactly what was appended so far. A skipped record changes nothing; an orphan appends its text only; a stored record appends its triple and is counted. When the buffer reaches 10, a flush that goes through appends the batch and empties the buffers, and one that raises leaves the extended buffers in place |
| Ingestion.SkipStep | setup_chroma.py:67-74 | A skipped record changes nothing |
| Ingestion.OrphanStep | setup_chroma.py:83-86 | A record without an id appends its text only, and is not counted |
| Ingestion.KeepStep | setup_chroma.py:83-94 | A stored record appends its triple and bumps the count; the invariant holds again unless, in a run where every `add` goes through, the buffer has just reached 10 and must be flushed |
| Ingestion.FlushStep | setup_chroma.py:94-107 | A flush that goes through moves the full buffers into one batch of the collection and empties them |
| Ingestion.FinalFlush | setup_chroma.py:114-121 | Handing over the leftover buffers, or nothing when they are empty, establishes the end-of-run description |
| Ingestion.GoodFlush | setup_chroma.py:94-121 | When every `add` goes through and every stored record has an id, the final flush goes through and the batches are the chunkings into 10s |
| Ingestion.RegularFromSizes | setup_chroma.py:94-121 | Batches of 10, then one of 1 to 10, that together hold the appended lists are exactly the chunkings of those lists into 10s |
| Ingestion.IdsDistinct | setup_chroma.py:90 | Records with pairwise distinct ids are stored under pairwise distinct collection ids |
| Ingestion.IdsNamedByKeys | setup_chroma.py:90 | Every stored id is the prefix followed by the id of some input record |
| Ingestion.DistinctSnoc | setup_chroma.py:90 | Appending an id not yet present keeps the ids distinct |
| Ingestion.DocsInOrder | setup_chroma.py:66-83 | The appended texts are the texts of exactly the surviving records, in input order |
| Ingestion.IdsInOrder | setup_chroma.py:66-90 | When every survivor is stored, the ids are those of exactly the survivors, in input order, and no record is orphaned |
| Ingestion.CountIsSent | setup_chroma.py:91-130 | After a successful run the returned count equals the number of ids and of metadata the collection received; it equals the number of documents received exactly when no id was missing |
| Ingestion.EmptyRun | setup_chroma.py:114-121 | No records means no `add` call and a count of 0 |
| Ingestion.Numbered | add_collections.py:46-66 | The counter-aware loop body yields one outcome per document |
| Ingestion.NumberedAt | add_collections.py:46-66 | The outcome of the `k`th document is computed with the number of earlier survivors |
| Ingestion.NumberedIds | add_collections.py:62-66 | With a counter-named id per survivor, the `j`th stored id is the `j`th name and there are as many as survivors |
| SetupChroma.ArticleOutcome | setup_chroma.py:66-91 | An article is skipped exactly when it is not explicitly a non-draft or its cleaned body is blank; a survivor without an id is appended without metadata; a stored article gets id `article_<id>` and the metadata of `ArticleMeta` |
| SetupChroma.ArticleMeta | setup_chroma.py:84-89 | The metadata of a stored article has exactly the keys type, id, title and url: type "article", the decimal id, the title (default "No Title") and the url (default "") |
| SetupChroma.ArticleDocsInOrder | setup_chroma.py:66-83 | The texts handed over are the texts of exactly the published, non-blank articles, in input order |
| SetupChroma.ArticleIdsInOrder | setup_chroma.py:66-90 | When every survivor has an id, the ids handed over are `article_<id>` of exactly the survivors, in input order, and nothing is misaligned |
| SetupChroma.ArticleIdsDistinct | setup_chroma.py:90 | Articles with distinct ids are stored under distinct ids |
| SetupChroma.LoadArticles | setup_chroma.py:36-130 | An unreadable file raises before anything is added; a failing final flush raises; otherwise the returned count is the number of stored articles, with the ingestion description of what reached the collection |
| SetupChroma.TicketOutcome | setup_chroma.py:157-175 | A ticket is skipped exactly when its description is missing or empty; a stored ticket gets id `ticket_<id>` and the metadata of `TicketMeta` |
| SetupChroma.TicketMeta | setup_chroma.py:169-173 | The metadata of a stored ticket has exactly the keys type, id and subject: type "ticket", the decimal id and the subject (default "No Subject") |
| SetupChroma.TicketDocsInOrder | setup_chroma.py:157-168 | The texts handed over are exactly those of the described tickets, in input order |
| SetupChroma.TicketIdsInOrder | setup_chroma.py:157-174 | When every described ticket has an id, the ids are `ticket_<id>` of exactly those tickets, in order |
| SetupChroma.TicketIdsDistinct | setup_chroma.py:174 | Tickets with distinct ids are stored under distinct ids |
| SetupChroma.LoadTickets | setup_chroma.py:132-214 | As for articles: errors re-raise, and the count is that of the stored tickets |
| SetupChroma.AfterResetAsWritten | setup_chroma.py:226-230 | The collections left by the reset as written: both removed when the articles collection existed, none otherwise |
| SetupChroma.ResetAsWrittenKeepsTickets | setup_chroma.py:226-233 | A store with only `support_tickets` keeps it through the reset as written, unlike the intended reset |
| SetupChroma.ResetAsWritten | setup_chroma.py:226-230 | Deleting the tickets collection is attempted only when deleting the articles collection did not raise: when `support_articles` exists both collections are removed, otherwise the store is unchanged; every other collection is kept |
| SetupChroma.AfterReset | setup_chroma.py:226-230 | After the intended reset neither collection exists and every other collection is kept |
| SetupChroma.Reset | setup_chroma.py:226-230 | The intended reset on the store: each delete is attempted on its own, so the store afterwards is the old one without the two collections, every other collection kept |
| SetupChroma.SetupStore | setup_chroma.py:216-250 | Both collections end up present and new, every other collection is kept; an unreadable articles file is an error; on success the two counts are those of the stored articles and tickets and each collection holds exactly what its load handed over |
| SetupChroma.ArticleText | setup_chroma.py:76-81 | An article's document text opens with its title line (default "No Title") and ends with the cleaned content followed by a newline and the 16-space indentation |
| SetupChroma.TicketText | setup_chroma.py:162-166 | A ticket's document text opens with its subject line (default "No Subject") and ends with the description (default "") followed by a newline and the indentation |
| AddToChroma.TypeFilter | add_to_chroma.py:46-49 | An internal run keeps exactly the articles with `draft` present and false, a drafts run exactly those with `draft` present and true, and any other document type keeps every article |
| AddToChroma.TypeFilterExclusive | add_to_chroma.py:46-49 | No article passes both the internal and the drafts filter |
| AddToChroma.LabelsString | add_to_chroma.py:67 | The `;`-joined labels are empty for no labels and split back into the labels when there is at least one and none contains `;` |
| AddToChroma.ZendeskText | add_to_chroma.py:56-64 | A Zendesk document text opens with the title line (default "No Title") and ends with the content on its own indented line followed by a newline and the indentation; the width is 16 here and 12 in `add_zendesk_collections.py` |
| AddToChroma.ZendeskOutcome | add_to_chroma.py:43-80 | An article is skipped exactly when the type filter drops it or its cleaned body is blank; a survivor without an id is appended without metadata; a stored one gets id `<doc_type>_<id>` and the metadata of `ZendeskMeta` |
| AddToChroma.ZendeskMeta | add_to_chroma.py:66-78 | The metadata of a stored Zendesk article has exactly the keys type, id, title, url, labels, created_at and updated_at: the title defaults to "No Title", the url and the timestamps to "", and the labels are `;`-joined |
| AddToChroma.ZendeskIdsInOrder | add_to_chroma.py:43-79 | When every survivor has an id, the ids are `<doc_type>_<id>` of exactly the survivors, in input order |
| AddToChroma.ZendeskIdsDistinct | add_to_chroma.py:79 | Articles with distinct ids are stored under distinct ids |
| AddToChroma.AddZendeskArticles | add_to_chroma.py:21-102 | An unreadable file, or a final flush that raises, returns 0 even when batches were already added; otherwise the number of stored articles |
| AddToChroma.AddTo | add_to_chroma.py:128-133 | The collection `name` is the existing one, or a new one when missing, and no other collection is replaced. It gains exactly the accepted batches, which the ingestion description relates to the articles, and no other collection's contents change. An unreadable file adds nothing; the count is the number of stored articles when the final flush went through and 0 otherwise |
| AddToChroma.AddToStore | add_to_chroma.py:122-133 | Both collections exist afterwards, existing ones are kept as they were and no other collection is replaced. Each gains exactly its accepted batches, with the ingestion description of its file, and no other collection's contents change; each count is the number of stored articles when its final flush went through and 0 otherwise |
| AddZendeskCollections.CollectionName | add_zendesk_collections.py:14-17 | The collection name is `support_` followed by the name |
| AddZendeskCollections.SetupCollection | add_zendesk_collections.py:11-19 | The collection is removed if present and created afresh and empty; every other collection is untouched |
| AddZendeskCollections.LoadZendeskArticles | add_zendesk_collections.py:21-32 | An unreadable file yields no articles; a readable one its `articles` list, or none without the key |
| AddZendeskCollections.ListOutcome | add_zendesk_collections.py:48-80 | The same filter as `add_to_chroma.py`, with a 12-space text and the metadata of `ListMeta` |
| AddZendeskCollections.ListMeta | add_zendesk_collections.py:72-78 | The metadata has exactly the keys type, id, title, url and labels: the title defaults to "No Title", the url to "", and the labels stay a list rather than being joined |
| AddZendeskCollections.SameFilterAsAddToChroma | add_zendesk_collections.py:51-79 | The two Zendesk scripts skip exactly the same articles and store them under the same ids, in the same order |
| AddZendeskCollections.SameIds | add_zendesk_collections.py:79 | Runs that agree record by record on what is skipped, kept and its id store the same ids |
| AddZendeskCollections.ListIdsDistinct | add_zendesk_collections.py:79 | Articles with distinct ids are stored under distinct ids |
| AddZendeskCollections.UnreadableAddsNothing | add_zendesk_collections.py:30-32 | An unreadable file causes no `add` call and a count of 0 |
| AddZendeskCollections.ProcessArticles | add_zendesk_collections.py:34-97 | A failing final flush propagates; otherwise the number of stored articles, with the ingestion description |
| AddZendeskCollections.LoadCollections | add_zendesk_collections.py:99-113 | The internal collection is replaced by a new one holding exactly its accepted batches, with the ingestion description of its file; when that load returns, the drafts collection is then replaced likewise, and otherwise the run ends with an error. Every other collection is kept; an unreadable file counts 0; the counts are those of the stored articles |
| AddCollections.AsList | add_collections.py:38 | A list is processed as is, a single object as a one-element list |
| AddCollections.Truthy | add_collections.py:104 | Python truthiness of the loaded export: an unreadable file is falsy, a list is truthy exactly when non-empty, and an object exactly when it holds some key, whether a document's or another |
| AddCollections.ForeignObjectCountsZero | add_collections.py:38-51 | An export object holding only keys that are not a document's, such as a Zendesk export's `articles`, is truthy, so its block recreates the collection, and its count is 0 (given that converting empty content gives blank text) |
| AddCollections.DocText | add_collections.py:53-57 | A document text opens with its title line (default "No Title") and ends with the content followed by a newline and the 12-space indentation |
| AddCollections.CounterId | add_collections.py:65 | The sink id is the document type, an underscore and the decimal digits of the counter |
| AddCollections.Content | add_collections.py:49 | The body when it is non-empty, the content (default "") otherwise |
| AddCollections.DocOutcome | add_collections.py:46-66 | A document is skipped exactly when its cleaned content is blank and is never orphaned; a stored one gets id `<doc_type>_<count>`, its text and the metadata of `DocMeta` for that count |
| AddCollections.DocMeta | add_collections.py:60-64 | The metadata has exactly the keys type, id and title; its id is the document's own id when it has one and the sink id `<doc_type>_<count>` otherwise |
| AddCollections.DocIdsCounted | add_collections.py:62-66 | The stored ids are `<doc_type>_0`, `<doc_type>_1`, ... in order, one per surviving document |
| AddCollections.DocOutcomesPointwise | add_collections.py:46-66 | The `k`th document is skipped exactly when its content is blank, and is otherwise named after the number of survivors before it |
| AddCollections.CounterIdsDistinct | add_collections.py:65 | The ids of one call are pairwise distinct |
| AddCollections.AddDocuments | add_collections.py:31-93 | A failing final flush propagates; otherwise the returned count is the number of stored documents |
| AddCollections.AddedAsCounted | add_collections.py:65-93 | After a successful call the collection received the ids `<doc_type>_0` to `<doc_type>_<count-1>` in order, one document each |
| AddCollections.LoadOne | add_collections.py:105-107 | A new `support_<doc_type>` collection replaces any old one, every other collection is kept; it holds exactly the accepted batches, with the ingestion description of the documents; the count is that of the stored ones |
| AddCollections.Tally | add_collections.py:104-107 | Truthy data records its number of stored documents under its type and leaves every other type's count as it was; falsy data changes nothing |
| AddCollections.LoadIf | add_collections.py:103-107 | Falsy data leaves the store and the counts unchanged. Truthy data replaces `support_<doc_type>` by a new collection, keeping every other one, that holds exactly the accepted batches with the ingestion description; on success the counts are those of `Tally` |
| AddCollections.TallyBoth | add_collections.py:99-115 | After both blocks the counts have a key for exactly the truthy exports, each holding its number of stored documents |
| AddCollections.LoadDocuments | add_collections.py:95-115 | Falsy data creates nothing. Each truthy export replaces its collection by a new one, in order internal then drafts, keeping every other collection; each holds exactly its accepted batches with the ingestion description; an error in the internal block ends the run before the drafts block. On success the result map has a key for exactly the truthy exports and their counts as values |
| MigrateData.PySlice | src/migrate_data.py:55-57 | `s[lo:hi]` is the plain slice when within bounds and empty from the end on |
| MigrateData.Bounds | src/migrate_data.py:50-51 | There are ceil(total/100) `(i, end_idx)` pairs |
| MigrateData.BoundsShape | src/migrate_data.py:50-51 | Every pair starts at a multiple of 100 and holds 1 to 100 entries; each ends where the next starts, the first starts at 0 and the last ends at the total, so they cover the entries in order without overlap |
| MigrateData.BoundsCover | src/migrate_data.py:50-51 | Every entry lies in exactly one pair, the one numbered `j / 100` |
| MigrateData.Slice | src/migrate_data.py:55-57 | `[i:end_idx]` of the documents, metadatas and ids: the plain slices when within bounds, never longer than the lists, and aligned when the lists are |
| MigrateData.SliceBatches | src/migrate_data.py:54-58 | One `add` call per pair |
| MigrateData.SliceIdsAreChunks | src/migrate_data.py:50-58 | The ids of the calls are the chunking of the ids into 100s, so together they are all the ids, in order |
| MigrateData.SliceBatchesAligned | src/migrate_data.py:54-58 | When the stored lists line up, every call's lists line up, and documents and metadata are chunked like the ids |
| MigrateData.SliceIsChunk | src/migrate_data.py:55-57 | Each slice is the corresponding chunk of 100 |
| MigrateData.Accepted | src/migrate_data.py:54-65 | The number of calls before the first one that raises: all before it went through, the one at it did not |
| MigrateData.AcceptedAt | src/migrate_data.py:54-65 | The first rejected call is at the position where the accepted run ends |
| MigrateData.CopyStep | src/migrate_data.py:50-51 | Step `k` of the loop makes the `k`th call, and the loop continues exactly while calls remain |
| MigrateData.CopyOne | src/migrate_data.py:50-58 | Pass `k` of the loop adds the `k`th slice, recorded exactly when the call goes through, and the loop continues exactly while slices remain |
| MigrateData.CopyBatches | src/migrate_data.py:47-58 | The destination receives the calls up to the first that raises, and the loop completes exactly when every call went through |
| MigrateData.Present | src/migrate_data.py:27-36 | The names the source holds, in the fixed order |
| MigrateData.PresentSnoc | src/migrate_data.py:27 | One more name adds it exactly when the source holds it |
| MigrateData.NamesDistinct | src/migrate_data.py:25 | The four collection names are distinct |
| MigrateData.MigrateOne | src/migrate_data.py:29-65 | A name the source lacks creates nothing; otherwise a new collection holds the copies, and existing ones are kept |
| MigrateData.Fill | src/migrate_data.py:45-58 | A new collection receives nothing for an empty source, otherwise the copies up to the first failing `add` |
| MigrateData.Migrated | src/migrate_data.py:45-65 | A migrated collection holds nothing for an empty source, otherwise a prefix of the slices in which every call went through and which stops at the first call that raised |
| MigrateData.Migrate | src/migrate_data.py:6-68 | The fresh destination holds exactly the collections the source has, among the four, visited in order; each holds nothing for an empty source, or the copies up to the first failing `add` |
| App.ArticleView | app.py:112-117 | An article entry exists exactly when `id`, `title` and `relevance` are present, with the first missing one's `KeyError` otherwise; its url is the reference's or "" |
| App.TicketView | app.py:122-126 | A ticket entry exists exactly when `id`, `title` and `relevance` are present, and it has no url |
| App.Comprehension | app.py:111-129 | A successful comprehension has at most one entry per reference; a failing one fails with the `KeyError` of a missing `type` or the error of some reference's entry |
| App.ComprehensionOk | app.py:111-129 | A comprehension succeeds exactly when every reference has a `type` and every reference of the selected type has its entry |
| App.ComprehensionExact | app.py:111-129 | A successful comprehension lists the entries of exactly the references of the selected type, in input order |
| App.ComprehensionSkips | app.py:119 | Removing a reference of another type leaves the comprehension unchanged |
| App.Truthy | app.py:94 | `not data`: `None`, `False`, zero, `""`, `[]` and `{}` are falsy and every other value truthy |
| App.GetAnswer | app.py:89-140 | 400 with "No question provided" exactly when there is no body, the body is falsy, or it is a value that does not contain "question" (for an object: has no `question` key). A truthy number or boolean raises in the guard, and a string or list containing "question" raises at `data['question']`; both become a 500 with Python's message. Only an object reaches the answering system; otherwise 200 echoing the question, and carrying exactly the result of `Shape` on the answering system's result, or 500 with the message of the exception, including one raised by the answering system |
| App.Contains | app.py:94 | `'question' in data`: a key test on an object, a substring test on a string, an element test on a list, and a `TypeError` "argument of type ... is not iterable" on anything else |
| App.Subscript | app.py:99 | `data['question']`: the field of an object, its `KeyError` when missing, and a `TypeError` on a string or a list |
| App.StringBodyFails | app.py:94-99 | The body `"question"` passes the guard and is answered with a 500 from indexing the string |
| App.SucceedsIff | app.py:94-133 | 200 exactly when there is a question, the answering system returns an `answer` and `references`, every reference has a `type`, and every article or ticket reference has `id`, `title` and `relevance` |
| App.SuccessShape | app.py:104-133 | A success carries the stripped answer, whose ends are not whitespace, and the entries of exactly the article and of exactly the ticket references, in order |
| App.Shape | app.py:104-133 | A result is answered with 200 or a 500 failure; a missing `answer` is reported before a missing `references`; a success echoes the question and carries the stripped answer |
| App.OtherTypesIgnored | app.py:119-128 | A reference of any type other than article or ticket appears in neither list: removing it leaves the response unchanged |

## Left out

- File reading and JSON parsing are inputs of the model. An export is `Unreadable`, or parsed with or without its list of records.
- Record fields are `Option`s of fixed types: ids are naturals, and `draft` is a boolean. JSON values of other types, and list entries that are not objects, are not modelled.
- The ingestion records model only the keys the scripts read. For a document object of `add_collections.py` the model also records whether it holds any other key, which is what its truthiness needs; the values of those keys are not modelled.
- `html2text` conversion, logging, timing, `gc.collect()`, `count_json_items` and the progress output are left out. Conversion is the parameter `clean`; the rest do not affect what is stored.
- `verify_collection` in `add_to_chroma.py`, and the verification loop at the end of `add_collections.py`'s `main` (lines 124-135), are left out. They only query and print.
- Only whether the vector store's `add` raises is modelled, as a fixed predicate on the batch. Why it raises (duplicate ids, embedding failures) and the stored vectors are not.
- `Store.Sink.batches` is a ghost log of the accepted calls. It is not the store's content or its ordering.
- `SetupChroma.SetupStore` uses the corrected reset. The reset as written is modelled separately; see Findings.
- `create_collection` on a fresh destination in `migrate_data.py` cannot fail in the model. Exceptions from `get()` are also not modelled.
- The paths, `shutil.rmtree` and `os.makedirs` of `migrate_data.py` are left out. The destination is a fresh empty store.
- The Flask routing, `home`, `health_check`, `SupportSystem.__init__` and the server start-up of `app.py` are left out.
- The answering system: `answer_question` and the retrieval pipeline are not in this repository; `app.py:67` holds only a placeholder, so the answering system is a function parameter.
- App.GetAnswer: an empty question string is accepted and handed to the answering system. The code checks only that the `question` key is present (app.py:94). The model follows the code.
- App.GetAnswer: a request body that is not JSON is modelled as "no body" (400). Newer Flask versions raise instead, which the handler turns into a 500.
- App.GetAnswer: the field values of a JSON object body are abstract (the question's type), so a nested object inside a list body is not distinguished further. The `TypeError` messages are those of CPython 3.11.
- App.GetAnswer: a non-string `answer`, whose `.strip()` would raise, is not modelled. Neither is a failure of `jsonify`.
- Metadata order: the metadata handed over is described by prefix and length lemmas, not by an order lemma like the one proved for documents and ids.

## Findings

| source | as written | input that shows it | evidently intended | confidence | as-written member | corrected member |
|---|---|---|---|---|---|---|
| setup_chroma.py:226-230 | Both deletes share one `try`. When `support_articles` is missing, its delete raises and the delete of `support_tickets` is skipped. | A store holding `support_tickets` but not `support_articles`: the tickets collection survives, `create_collection("support_tickets")` at line 233 raises, and `main` exits with status 1. | Each collection is deleted if it exists, independently, so that both can be created afresh. | medium, not executed | SetupChroma.ResetAsWrittenKeepsTickets | SetupChroma.AfterReset |
