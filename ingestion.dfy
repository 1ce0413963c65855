/** The filter-and-batch loop the four ingestion scripts share: walk the records, turn
    each survivor into a (document text, metadata, id) triple, buffer the triples, hand the
    buffers to the collection whenever they hold 10 documents, hand over what is left at
    the end, and count the records stored.

    What a record becomes is decided by each script's own classifier, as an `Outcome`. */
module Ingestion {
  import opened Common
  import opened Chunking
  import opened Text
  import opened Store

  /** The scripts flush their buffers when they hold this many documents. */
  const BatchSize: nat := 10

  /** What the loop body does with one record:
      - `Skip`: a `continue` before anything is appended;
      - `Orphan(doc)`: the document text is appended, then reading `record['id']` raises
        `KeyError`, the per-record `except` continues, and neither metadata nor id is
        appended nor the count bumped;
      - `Keep(doc, meta, id)`: the triple is appended and counted. */
  datatype Outcome = Skip | Orphan(doc: string) | Keep(doc: string, meta: Metadata, id: string)

  /** The document texts the loop appends, in order. */
  function Docs(os: seq<Outcome>): seq<string> {
    if os == [] then []
    else
      var last := os[|os| - 1];
      Docs(os[..|os| - 1]) + (if last.Skip? then [] else [last.doc])
  }

  /** The metadata dictionaries the loop appends, in order. */
  function Metas(os: seq<Outcome>): seq<Metadata> {
    if os == [] then []
    else
      var last := os[|os| - 1];
      Metas(os[..|os| - 1]) + (if last.Keep? then [last.meta] else [])
  }

  /** The ids the loop appends, in order. */
  function Ids(os: seq<Outcome>): seq<string> {
    if os == [] then []
    else
      var last := os[|os| - 1];
      Ids(os[..|os| - 1]) + (if last.Keep? then [last.id] else [])
  }

  /** Appending one more record's outcome appends its contribution to each list. */
  lemma AppendOutcome(os: seq<Outcome>, i: nat)
    requires i < |os|
    ensures Docs(os[..i + 1]) == Docs(os[..i]) + (if os[i].Skip? then [] else [os[i].doc])
    ensures Metas(os[..i + 1]) == Metas(os[..i]) + (if os[i].Keep? then [os[i].meta] else [])
    ensures Ids(os[..i + 1]) == Ids(os[..i]) + (if os[i].Keep? then [os[i].id] else [])
  {
    assert os[..i + 1][..i] == os[..i];
  }

  /** No record lost its metadata to a missing `id`. */
  predicate NoOrphans(os: seq<Outcome>) {
    forall k :: 0 <= k < |os| ==> !os[k].Orphan?
  }

  /** Without orphans the three appended lists line up; with one they do not. */
  lemma {:induction false} AlignedUnlessOrphan(os: seq<Outcome>)
    ensures |Metas(os)| == |Ids(os)| <= |Docs(os)|
    ensures NoOrphans(os) <==> |Docs(os)| == |Ids(os)|
  {
    if os != [] {
      var init := os[..|os| - 1];
      AlignedUnlessOrphan(init);
      assert forall k :: 0 <= k < |init| ==> init[k] == os[k];
      if !NoOrphans(init) {
        var k :| 0 <= k < |init| && init[k].Orphan?;
        assert os[k].Orphan?;
      }
    }
  }

  /** Every flush holds 10 documents, metadata and ids, and the last holds the 1 to 10
      that remain: the batches are the chunkings of the three appended lists. */
  ghost predicate RegularBatches(sent: seq<Batch>, os: seq<Outcome>) {
    && DocumentsOf(sent) == Chunks(Docs(os), BatchSize)
    && MetadatasOf(sent) == Chunks(Metas(os), BatchSize)
    && IdsOf(sent) == Chunks(Ids(os), BatchSize)
    && |sent| == CeilDiv(|Ids(os)|, BatchSize)
  }

  /** What one run of the loop did, given the outcomes of its records:
      `count` is the number of records stored, `sent` the batches the collection accepted
      and `flushed` whether the final flush (if any) went through. */
  ghost predicate IngestedAs(accepts: Batch -> bool, os: seq<Outcome>, count: nat, flushed: bool, sent: seq<Batch>) {
    && count == |Ids(os)|
    // the accepted batches are the calls that did not raise; none of them is empty
    && (forall k :: 0 <= k < |sent| ==> accepts(sent[k]) && sent[k].documents != [])
    // what reached the collection is a prefix of what was appended, in input order
    && Flatten(DocumentsOf(sent)) <= Docs(os)
    && Flatten(MetadatasOf(sent)) <= Metas(os)
    && Flatten(IdsOf(sent)) <= Ids(os)
    // the final flush went through exactly when every appended document reached it
    && (flushed <==> Flatten(DocumentsOf(sent)) == Docs(os))
    && (flushed ==> Flatten(MetadatasOf(sent)) == Metas(os) && Flatten(IdsOf(sent)) == Ids(os))
    // a collection that accepts everything, and records that all have ids, give regular batches
    && ((forall b :: accepts(b)) && NoOrphans(os) ==> flushed && RegularBatches(sent, os))
  }

  /** The collection accepts every batch and every stored record has an id. */
  ghost predicate Good(accepts: Batch -> bool, os: seq<Outcome>) {
    (forall b :: accepts(b)) && NoOrphans(os)
  }

  /** The loop's invariant after `i` records: the accepted batches followed by the buffers
      hold exactly what was appended so far, the count is the number of stored records, and
      in a `Good` run the buffers hold fewer than 10 entries and every batch exactly 10. */
  ghost predicate Buffered(accepts: Batch -> bool, os: seq<Outcome>, i: nat, sent: seq<Batch>,
                           documents: seq<string>, metadatas: seq<Metadata>, ids: seq<string>, count: nat) {
    && i <= |os|
    && Flatten(DocumentsOf(sent)) + documents == Docs(os[..i])
    && Flatten(MetadatasOf(sent)) + metadatas == Metas(os[..i])
    && Flatten(IdsOf(sent)) + ids == Ids(os[..i])
    && count == |Ids(os[..i])|
    && |metadatas| == |ids| <= |documents|
    && (forall k :: 0 <= k < |sent| ==> accepts(sent[k]) && sent[k].documents != [])
    && (Good(accepts, os) ==> |documents| < BatchSize && |metadatas| == |documents|)
    && (Good(accepts, os) ==> forall k :: 0 <= k < |sent| ==>
          |sent[k].documents| == |sent[k].metadatas| == |sent[k].ids| == BatchSize)
  }

  /** The loop of `load_articles`, `load_tickets`, `add_zendesk_articles`, `process_articles`
      and `add_documents`. A flush whose `add` raises is caught by the per-record `except`
      and leaves the buffers as they are, so the next stored record flushes them again. */
  method Ingest(sink: Sink, os: seq<Outcome>) returns (count: nat, flushed: bool, ghost sent: seq<Batch>)
    modifies sink
    ensures sink.batches == old(sink.batches) + sent
    ensures IngestedAs(sink.accepts, os, count, flushed, sent)
  {
    var documents: seq<string>, metadatas: seq<Metadata>, ids: seq<string> := [], [], [];
    count, sent := 0, [];
    var i := 0;
    while i < |os|
      invariant sink.batches == old(sink.batches) + sent
      invariant Buffered(sink.accepts, os, i, sent, documents, metadatas, ids, count)
    {
      sent, documents, metadatas, ids, count :=
        Take(sink, os, i, old(sink.batches), sent, documents, metadatas, ids, count);
      i := i + 1;
    }
    flushed, sent := Finish(sink, os, old(sink.batches), sent, documents, metadatas, ids, count);
  }

  /** After the loop: the final flush, and what the whole run then amounts to. */
  method Finish(sink: Sink, os: seq<Outcome>, ghost base: seq<Batch>, ghost before: seq<Batch>,
                documents: seq<string>, metadatas: seq<Metadata>, ids: seq<string>, count: nat)
    returns (flushed: bool, ghost sent: seq<Batch>)
    requires sink.batches == base + before
    requires Buffered(sink.accepts, os, |os|, before, documents, metadatas, ids, count)
    modifies sink
    ensures sink.batches == base + sent
    ensures IngestedAs(sink.accepts, os, count, flushed, sent)
  {
    ghost var last;
    flushed, last := AddRest(sink, documents, metadatas, ids);
    sent := before + last;
    FinalFlush(sink.accepts, os, count, before, documents, metadatas, ids, flushed, last);
  }

  /** The final `if documents: collection.add(...)`: `last` is the batch it added, if any. */
  method AddRest(sink: Sink, documents: seq<string>, metadatas: seq<Metadata>, ids: seq<string>)
    returns (flushed: bool, ghost last: seq<Batch>)
    modifies sink
    ensures sink.batches == old(sink.batches) + last
    ensures documents == [] ==> flushed && last == []
    ensures documents != [] ==> flushed == sink.accepts(Batch(documents, metadatas, ids))
    ensures last == if documents != [] && flushed then [Batch(documents, metadatas, ids)] else []
  {
    flushed, last := true, [];
    if documents != [] {
      var b := Batch(documents, metadatas, ids);
      flushed := sink.Add(b);
      if flushed {
        last := [b];
      }
    }
  }

  /** One pass of the loop: appends record `i` to the buffers and flushes them once a
      stored record brings them to 10 entries. */
  method Take(sink: Sink, os: seq<Outcome>, i: nat, ghost base: seq<Batch>, ghost sent: seq<Batch>,
              documents: seq<string>, metadatas: seq<Metadata>, ids: seq<string>, count: nat)
    returns (ghost sent': seq<Batch>, documents': seq<string>, metadatas': seq<Metadata>,
             ids': seq<string>, count': nat)
    requires i < |os| && sink.batches == base + sent
    requires Buffered(sink.accepts, os, i, sent, documents, metadatas, ids, count)
    modifies sink
    ensures sink.batches == base + sent'
    ensures Buffered(sink.accepts, os, i + 1, sent', documents', metadatas', ids', count')
    // a skipped record changes nothing; an orphan appends its text only
    ensures os[i].Skip? ==>
      sent' == sent && documents' == documents && metadatas' == metadatas && ids' == ids && count' == count
    ensures os[i].Orphan? ==>
      sent' == sent && documents' == documents + [os[i].doc] && metadatas' == metadatas && ids' == ids && count' == count
    // a stored record is counted and appended; once the buffers reach 10 a flush is made,
    // which empties them when it goes through and leaves them as they are when it raises
    ensures os[i].Keep? ==> count' == count + 1
    ensures os[i].Keep? && |documents| + 1 < BatchSize ==>
      && sent' == sent && documents' == documents + [os[i].doc]
      && metadatas' == metadatas + [os[i].meta] && ids' == ids + [os[i].id]
    ensures os[i].Keep? && |documents| + 1 >= BatchSize ==>
      var b := Batch(documents + [os[i].doc], metadatas + [os[i].meta], ids + [os[i].id]);
      if sink.accepts(b) then sent' == sent + [b] && documents' == [] && metadatas' == [] && ids' == []
      else sent' == sent && documents' == b.documents && metadatas' == b.metadatas && ids' == b.ids
  {
    sent', documents', metadatas', ids', count' := sent, documents, metadatas, ids, count;
    match os[i] {
      case Skip =>
        SkipStep(sink.accepts, os, i, sent, documents, metadatas, ids, count);
      case Orphan(doc) =>
        OrphanStep(sink.accepts, os, i, sent, documents, metadatas, ids, count);
        documents' := documents + [doc];
      case Keep(doc, meta, id) =>
        KeepStep(sink.accepts, os, i, sent, documents, metadatas, ids, count);
        documents', metadatas', ids' := documents + [doc], metadatas + [meta], ids + [id];
        count' := count + 1;
        if |documents'| >= BatchSize {
          var b := Batch(documents', metadatas', ids');
          var ok := sink.Add(b);
          if ok {
            FlushStep(sink.accepts, os, i + 1, sent, documents', metadatas', ids', count');
            sent' := sent + [b];
            documents', metadatas', ids' := [], [], [];
          }
        }
    }
  }

  lemma SkipStep(accepts: Batch -> bool, os: seq<Outcome>, i: nat, sent: seq<Batch>,
                 documents: seq<string>, metadatas: seq<Metadata>, ids: seq<string>, count: nat)
    requires i < |os| && os[i].Skip?
    requires Buffered(accepts, os, i, sent, documents, metadatas, ids, count)
    ensures Buffered(accepts, os, i + 1, sent, documents, metadatas, ids, count)
  {
    AppendOutcome(os, i);
  }

  lemma OrphanStep(accepts: Batch -> bool, os: seq<Outcome>, i: nat, sent: seq<Batch>,
                   documents: seq<string>, metadatas: seq<Metadata>, ids: seq<string>, count: nat)
    requires i < |os| && os[i].Orphan?
    requires Buffered(accepts, os, i, sent, documents, metadatas, ids, count)
    ensures Buffered(accepts, os, i + 1, sent, documents + [os[i].doc], metadatas, ids, count)
  {
    AppendOutcome(os, i);
  }

  /** Appending a stored record keeps the invariant, except that in a `Good` run the buffers
      may now hold 10 entries, which the flush then empties. */
  lemma KeepStep(accepts: Batch -> bool, os: seq<Outcome>, i: nat, sent: seq<Batch>,
                 documents: seq<string>, metadatas: seq<Metadata>, ids: seq<string>, count: nat)
    requires i < |os| && os[i].Keep?
    requires Buffered(accepts, os, i, sent, documents, metadatas, ids, count)
    ensures var o := os[i];
      Buffered(accepts, os, i + 1, sent, documents + [o.doc], metadatas + [o.meta], ids + [o.id], count + 1)
      || (Good(accepts, os) && |documents| + 1 == BatchSize
          && Flatten(DocumentsOf(sent)) + (documents + [o.doc]) == Docs(os[..i + 1])
          && Flatten(MetadatasOf(sent)) + (metadatas + [o.meta]) == Metas(os[..i + 1])
          && Flatten(IdsOf(sent)) + (ids + [o.id]) == Ids(os[..i + 1])
          && count + 1 == |Ids(os[..i + 1])|
          && |metadatas| + 1 == |ids| + 1 == |documents| + 1)
  {
    var o := os[i];
    AppendOutcome(os, i);
    assert Flatten(DocumentsOf(sent)) + (documents + [o.doc]) == Docs(os[..i + 1]);
    assert Flatten(MetadatasOf(sent)) + (metadatas + [o.meta]) == Metas(os[..i + 1]);
    assert Flatten(IdsOf(sent)) + (ids + [o.id]) == Ids(os[..i + 1]);
    if !(Good(accepts, os) && |documents| + 1 == BatchSize) {
      assert Buffered(accepts, os, i + 1, sent, documents + [o.doc], metadatas + [o.meta], ids + [o.id], count + 1);
    }
  }

  /** A flush that went through moves the full buffers into the collection. */
  lemma FlushStep(accepts: Batch -> bool, os: seq<Outcome>, i: nat, sent: seq<Batch>,
                  documents: seq<string>, metadatas: seq<Metadata>, ids: seq<string>, count: nat)
    requires 0 < i <= |os| && |documents| >= BatchSize && accepts(Batch(documents, metadatas, ids))
    requires Flatten(DocumentsOf(sent)) + documents == Docs(os[..i])
    requires Flatten(MetadatasOf(sent)) + metadatas == Metas(os[..i])
    requires Flatten(IdsOf(sent)) + ids == Ids(os[..i])
    requires count == |Ids(os[..i])|
    requires |metadatas| == |ids| <= |documents|
    requires forall k :: 0 <= k < |sent| ==> accepts(sent[k]) && sent[k].documents != []
    requires Good(accepts, os) ==> |documents| == |metadatas| == BatchSize
    requires Good(accepts, os) ==> forall k :: 0 <= k < |sent| ==>
      |sent[k].documents| == |sent[k].metadatas| == |sent[k].ids| == BatchSize
    ensures Buffered(accepts, os, i, sent + [Batch(documents, metadatas, ids)], [], [], [], count)
  {
    FlattenBatchesSnoc(sent, Batch(documents, metadatas, ids));
  }

  /** What the final `if documents: collection.add(...)` leaves, given the loop's invariant. */
  lemma FinalFlush(accepts: Batch -> bool, os: seq<Outcome>, count: nat, before: seq<Batch>,
                   documents: seq<string>, metadatas: seq<Metadata>, ids: seq<string>,
                   flushed: bool, last: seq<Batch>)
    requires Buffered(accepts, os, |os|, before, documents, metadatas, ids, count)
    requires documents == [] ==> flushed && last == []
    requires documents != [] ==> flushed == accepts(Batch(documents, metadatas, ids))
    requires last == if documents != [] && flushed then [Batch(documents, metadatas, ids)] else []
    ensures IngestedAs(accepts, os, count, flushed, before + last)
  {
    assert os[..|os|] == os;
    var b := Batch(documents, metadatas, ids);
    var sent := before + last;
    if documents != [] && flushed {
      FlattenBatchesSnoc(before, b);
    } else {
      assert sent == before;
    }
    if Good(accepts, os) {
      GoodFlush(accepts, os, count, before, documents, metadatas, ids, flushed, last);
    }
  }

  /** In a `Good` run the final flush goes through, and the batches are regular. */
  lemma GoodFlush(accepts: Batch -> bool, os: seq<Outcome>, count: nat, before: seq<Batch>,
                  documents: seq<string>, metadatas: seq<Metadata>, ids: seq<string>,
                  flushed: bool, last: seq<Batch>)
    requires Good(accepts, os)
    requires Buffered(accepts, os, |os|, before, documents, metadatas, ids, count)
    requires documents == [] ==> flushed && last == []
    requires documents != [] ==> flushed == accepts(Batch(documents, metadatas, ids))
    requires last == if documents != [] && flushed then [Batch(documents, metadatas, ids)] else []
    ensures flushed && RegularBatches(before + last, os)
  {
    assert os[..|os|] == os;
    var sent := before + last;
    if documents != [] {
      FlattenBatchesSnoc(before, Batch(documents, metadatas, ids));
    } else {
      assert sent == before;
    }
    RegularFromSizes(sent, os);
  }

  /** Batches of exactly `BatchSize` except a shorter, non-empty last one, that together
      hold every appended document, metadata and id, are `RegularBatches`. */
  lemma RegularFromSizes(sent: seq<Batch>, os: seq<Outcome>)
    requires forall k :: 0 <= k < |sent| ==> 0 < |sent[k].documents| <= BatchSize && Aligned(sent[k])
    requires forall k :: 0 <= k < |sent| - 1 ==> |sent[k].documents| == BatchSize
    requires Flatten(DocumentsOf(sent)) == Docs(os)
    requires Flatten(MetadatasOf(sent)) == Metas(os)
    requires Flatten(IdsOf(sent)) == Ids(os)
    ensures RegularBatches(sent, os)
  {
    ChunksUnique(DocumentsOf(sent), BatchSize);
    ChunksUnique(MetadatasOf(sent), BatchSize);
    ChunksUnique(IdsOf(sent), BatchSize);
    ChunksShape(Ids(os), BatchSize);
  }

  /** A classifier that names every stored record `prefix + str(key)` gives distinct ids
      to records with distinct keys. */
  ghost predicate IdsFromKeys<R(!new)>(classify: R -> Outcome, key: R -> Option<nat>, prefix: string) {
    forall r :: classify(r).Keep? ==> key(r).Some? && classify(r).id == prefix + NatToString(key(r).value)
  }

  /** No two records carry the same key. */
  ghost predicate DistinctKeys<R>(rs: seq<R>, key: R -> Option<nat>) {
    forall i, j :: 0 <= i < j < |rs| && key(rs[i]).Some? ==> key(rs[i]) != key(rs[j])
  }

  /** No id occurs twice. */
  predicate Distinct(xs: seq<string>) {
    forall i, j :: 0 <= i < j < |xs| ==> xs[i] != xs[j]
  }

  lemma DistinctSnoc(xs: seq<string>, x: string)
    requires Distinct(xs) && x !in xs
    ensures Distinct(xs + [x])
  {
  }

  /** Records with distinct ids are stored under distinct sink ids. */
  lemma {:induction false} IdsDistinct<R(!new)>(rs: seq<R>, classify: R -> Outcome, key: R -> Option<nat>, prefix: string)
    requires IdsFromKeys(classify, key, prefix)
    requires DistinctKeys(rs, key)
    ensures Distinct(Ids(MapSeq(rs, classify)))
  {
    if rs != [] {
      var n := |rs| - 1;
      var os := MapSeq(rs, classify);
      var init := rs[..n];
      assert MapSeq(init, classify) == os[..n];
      assert DistinctKeys(init, key);
      IdsDistinct(init, classify, key, prefix);
      if os[n].Keep? {
        var x := os[n].id;
        assert Ids(os) == Ids(os[..n]) + [x];
        forall y | y in Ids(os[..n]) ensures y != x {
          IdsNamedByKeys(init, classify, key, prefix, y);
          var j :| 0 <= j < n && key(rs[j]).Some? && y == prefix + NatToString(key(rs[j]).value);
          if y == x {
            PrefixedNatInjective(prefix, key(rs[j]).value, key(rs[n]).value);
          }
        }
        DistinctSnoc(Ids(os[..n]), x);
      } else {
        assert Ids(os) == Ids(os[..n]);
      }
    }
  }

  /** Each stored id names the record it came from. */
  lemma {:induction false} IdsNamedByKeys<R(!new)>(rs: seq<R>, classify: R -> Outcome, key: R -> Option<nat>, prefix: string, y: string)
    requires IdsFromKeys(classify, key, prefix)
    requires y in Ids(MapSeq(rs, classify))
    ensures exists j :: 0 <= j < |rs| && key(rs[j]).Some? && y == prefix + NatToString(key(rs[j]).value)
  {
    var n := |rs| - 1;
    var os := MapSeq(rs, classify);
    assert MapSeq(rs[..n], classify) == os[..n];
    if y in Ids(os[..n]) {
      IdsNamedByKeys(rs[..n], classify, key, prefix, y);
      var j :| 0 <= j < n && key(rs[..n][j]).Some? && y == prefix + NatToString(key(rs[..n][j]).value);
      assert rs[..n][j] == rs[j];
    } else {
      assert os[n].Keep? && y == os[n].id;
    }
  }

  /** The document texts the loop appends are those of the records that pass the filter,
      in input order. */
  lemma {:induction false} DocsInOrder<R>(rs: seq<R>, os: seq<Outcome>, keep: R -> bool, doc: R -> string)
    requires |os| == |rs|
    requires forall k :: 0 <= k < |rs| ==> (os[k].Skip? <==> !keep(rs[k]))
    requires forall k :: 0 <= k < |rs| && keep(rs[k]) ==> os[k].doc == doc(rs[k])
    ensures Docs(os) == MapSeq(Select(rs, keep), doc)
  {
    if rs != [] {
      var n := |rs| - 1;
      assert forall k :: 0 <= k < n ==> rs[..n][k] == rs[k] && os[..n][k] == os[k];
      DocsInOrder(rs[..n], os[..n], keep, doc);
      var last := if keep(rs[n]) then [rs[n]] else [];
      assert Select(rs, keep) == Select(rs[..n], keep) + last;
      MapSeqAppend(Select(rs[..n], keep), last, doc);
      assert Docs(os) == Docs(os[..n]) + (if os[n].Skip? then [] else [os[n].doc]);
    }
  }

  /** When every record that passes the filter is stored, the ids are those of the passing
      records, in input order, and none is orphaned. */
  lemma {:induction false} IdsInOrder<R>(rs: seq<R>, os: seq<Outcome>, keep: R -> bool, id: R -> string)
    requires |os| == |rs|
    requires forall k :: 0 <= k < |rs| ==> (os[k].Skip? <==> !keep(rs[k]))
    requires forall k :: 0 <= k < |rs| && keep(rs[k]) ==> os[k].Keep? && os[k].id == id(rs[k])
    ensures Ids(os) == MapSeq(Select(rs, keep), id)
    ensures NoOrphans(os)
  {
    if rs != [] {
      var n := |rs| - 1;
      assert forall k :: 0 <= k < n ==> rs[..n][k] == rs[k] && os[..n][k] == os[k];
      IdsInOrder(rs[..n], os[..n], keep, id);
      var last := if keep(rs[n]) then [rs[n]] else [];
      assert Select(rs, keep) == Select(rs[..n], keep) + last;
      MapSeqAppend(Select(rs[..n], keep), last, id);
      assert Ids(os) == Ids(os[..n]) + (if os[n].Keep? then [os[n].id] else []);
      assert !os[n].Orphan?;
    }
  }

  /** After a run whose final flush went through, the returned count is the number of ids,
      and of metadata dictionaries, handed to the collection; without orphans it is also the
      number of documents. */
  lemma CountIsSent(accepts: Batch -> bool, os: seq<Outcome>, count: nat, flushed: bool, sent: seq<Batch>)
    requires IngestedAs(accepts, os, count, flushed, sent) && flushed
    ensures count == |Flatten(IdsOf(sent))| == |Flatten(MetadatasOf(sent))|
    ensures NoOrphans(os) <==> count == |Flatten(DocumentsOf(sent))|
  {
    AlignedUnlessOrphan(os);
  }

  /** A run over no records counts nothing and hands nothing to the collection. */
  lemma EmptyRun(accepts: Batch -> bool, count: nat, flushed: bool, sent: seq<Batch>)
    requires IngestedAs(accepts, [], count, flushed, sent)
    ensures count == 0 && flushed && sent == []
  {
  }

  /** The number of records `pass` accepts. */
  function CountOf<R>(rs: seq<R>, pass: R -> bool): nat {
    if rs == [] then 0
    else CountOf(rs[..|rs| - 1], pass) + (if pass(rs[|rs| - 1]) then 1 else 0)
  }

  /** The outcomes of a loop whose body also sees the running count of stored records, as
      `add_documents` does when it names a document by `count`. */
  function Numbered<R>(rs: seq<R>, step: (R, nat) -> Outcome, pass: R -> bool): (os: seq<Outcome>)
    ensures |os| == |rs|
  {
    if rs == [] then []
    else
      var n := |rs| - 1;
      Numbered(rs[..n], step, pass) + [step(rs[n], CountOf(rs[..n], pass))]
  }

  /** Outcome `k` is the step on record `k`, given the count of the records before it. */
  lemma {:induction false} NumberedAt<R>(rs: seq<R>, step: (R, nat) -> Outcome, pass: R -> bool, k: nat)
    requires k < |rs|
    ensures Numbered(rs, step, pass)[k] == step(rs[k], CountOf(rs[..k], pass))
  {
    var n := |rs| - 1;
    if k < n {
      NumberedAt(rs[..n], step, pass, k);
      assert rs[..n][..k] == rs[..k] && rs[..n][k] == rs[k];
    } else {
      assert rs[..n] == rs[..k];
    }
  }

  /** When the step stores exactly the records `pass` accepts, never orphans one and names
      the `k`th stored record `name(k)`, the ids are `name(0)`, `name(1)`, ... in order. */
  lemma {:induction false} NumberedIds<R(!new)>(rs: seq<R>, step: (R, nat) -> Outcome, pass: R -> bool, name: nat -> string)
    requires forall r, k :: !step(r, k).Orphan? && (step(r, k).Keep? <==> pass(r))
    requires forall r, k :: step(r, k).Keep? ==> step(r, k).id == name(k)
    ensures NoOrphans(Numbered(rs, step, pass))
    ensures |Ids(Numbered(rs, step, pass))| == CountOf(rs, pass)
    ensures forall j :: 0 <= j < |Ids(Numbered(rs, step, pass))| ==> Ids(Numbered(rs, step, pass))[j] == name(j)
  {
    if rs != [] {
      var n := |rs| - 1;
      var init := Numbered(rs[..n], step, pass);
      NumberedIds(rs[..n], step, pass, name);
      var o := step(rs[n], CountOf(rs[..n], pass));
      var os := Numbered(rs, step, pass);
      assert os[..n] == init;
      forall k | 0 <= k < |os| ensures !os[k].Orphan? {
        if k < n { assert os[k] == init[k]; }
      }
      assert Ids(os) == Ids(init) + (if o.Keep? then [o.id] else []);
    }
  }
}
