/** `src/migrate_data.py`: copy the four support collections from one store into a fresh
    one, 100 stored entries per `add` call. */
module MigrateData {
  import opened Common
  import opened Chunking
  import opened Store

  /** The migration copies this many entries per `add` call. */
  const CopyBatchSize: nat := 100

  /** The collections the migration copies, in the order it copies them. */
  const CollectionNames: seq<string> := ["support_articles", "support_tickets", "support_internal", "support_drafts"]

  /** Python's `s[lo:hi]` for non-negative bounds: both are clamped to the length, and an
      empty slice results when `lo` is not below `hi`. */
  function PySlice<T>(s: seq<T>, lo: nat, hi: nat): (r: seq<T>)
    ensures lo <= hi <= |s| ==> r == s[lo..hi]
    ensures |s| <= lo ==> r == []
  {
    var a := Min(lo, |s|);
    var b := Min(hi, |s|);
    if a < b then s[a..b] else []
  }

  /** The `(i, end_idx)` pairs of `for i in range(0, total, 100)` with
      `end_idx = min(i + 100, total)`. */
  function Bounds(total: nat): (bs: seq<(nat, nat)>)
    ensures |bs| == CeilDiv(total, CopyBatchSize)
  {
    seq(CeilDiv(total, CopyBatchSize), k requires 0 <= k => (k * CopyBatchSize, Min(k * CopyBatchSize + CopyBatchSize, total)))
  }

  /** Each slice starts at a multiple of 100, holds between 1 and 100 entries and ends
      where the next begins; the first starts at 0 and the last ends at `total`. So the
      slices are pairwise disjoint and cover `0..total` in order. */
  lemma BoundsShape(total: nat)
    ensures forall k :: 0 <= k < |Bounds(total)| ==>
      var (lo, hi) := Bounds(total)[k];
      lo == k * CopyBatchSize && lo < hi <= total && hi - lo <= CopyBatchSize
    ensures forall k :: 0 <= k < |Bounds(total)| - 1 ==> Bounds(total)[k].1 == Bounds(total)[k + 1].0
    ensures total > 0 ==> Bounds(total)[0].0 == 0 && Bounds(total)[|Bounds(total)| - 1].1 == total
    ensures total == 0 <==> Bounds(total) == []
  {
    var n := CeilDiv(total, CopyBatchSize);
    CeilDivBounds(total, CopyBatchSize);
    forall k | 0 <= k < n ensures k * CopyBatchSize < total {
      assert k * CopyBatchSize <= (n - 1) * CopyBatchSize;
    }
    if total > 0 {
      assert n * CopyBatchSize == (n - 1) * CopyBatchSize + CopyBatchSize;
    }
  }

  /** Every index below `total` lies in exactly one slice, the one numbered `j / 100`. */
  lemma BoundsCover(total: nat, j: nat)
    requires j < total
    ensures j / CopyBatchSize < |Bounds(total)|
    ensures Bounds(total)[j / CopyBatchSize].0 <= j < Bounds(total)[j / CopyBatchSize].1
    ensures forall k :: 0 <= k < |Bounds(total)| && Bounds(total)[k].0 <= j < Bounds(total)[k].1 ==> k == j / CopyBatchSize
  {
    BoundsShape(total);
    CeilDivBounds(total, CopyBatchSize);
    var n := CeilDiv(total, CopyBatchSize);
    var q := j / CopyBatchSize;
    assert q * CopyBatchSize <= j < q * CopyBatchSize + CopyBatchSize;
  }

  /** The `add` calls for the stored entries `b` (what `source_collection.get()` returned):
      the three lists are cut with the same bounds. */
  function SliceBatches(b: Batch): (bs: seq<Batch>)
    ensures |bs| == |Bounds(|b.ids|)|
  {
    var bounds := Bounds(|b.ids|);
    seq(|bounds|, k requires 0 <= k < |bounds| => Slice(b, bounds[k].0, bounds[k].1))
  }

  /** `documents[lo:hi]`, `metadatas[lo:hi]` and `ids[lo:hi]` of the stored entries. */
  function Slice(b: Batch, lo: nat, hi: nat): (c: Batch)
    ensures lo <= hi <= |b.documents| ==> c.documents == b.documents[lo..hi]
    ensures lo <= hi <= |b.metadatas| ==> c.metadatas == b.metadatas[lo..hi]
    ensures lo <= hi <= |b.ids| ==> c.ids == b.ids[lo..hi]
    ensures |c.ids| <= |b.ids| && |c.documents| <= |b.documents| && |c.metadatas| <= |b.metadatas|
    // aligned entries give aligned slices
    ensures |b.documents| == |b.ids| && |b.metadatas| == |b.ids| ==>
      |c.documents| == |c.ids| && |c.metadatas| == |c.ids|
  {
    Batch(PySlice(b.documents, lo, hi), PySlice(b.metadatas, lo, hi), PySlice(b.ids, lo, hi))
  }

  /** The id lists of the calls are the chunking of the ids into 100s, so together they are
      the ids again, in order. */
  lemma SliceIdsAreChunks(b: Batch)
    ensures IdsOf(SliceBatches(b)) == Chunks(b.ids, CopyBatchSize)
    ensures Flatten(IdsOf(SliceBatches(b))) == b.ids
  {
    var bs := SliceBatches(b);
    ChunksShape(b.ids, CopyBatchSize);
    forall k | 0 <= k < |bs| ensures IdsOf(bs)[k] == Chunks(b.ids, CopyBatchSize)[k] {
      SliceIsChunk(b.ids, |b.ids|, k);
    }
  }

  /** When the three stored lists line up, so do those of every call, and the documents
      and the metadata are chunked into 100s like the ids. */
  lemma SliceBatchesAligned(b: Batch)
    requires Aligned(b)
    ensures forall k :: 0 <= k < |SliceBatches(b)| ==> Aligned(SliceBatches(b)[k])
    ensures DocumentsOf(SliceBatches(b)) == Chunks(b.documents, CopyBatchSize)
    ensures MetadatasOf(SliceBatches(b)) == Chunks(b.metadatas, CopyBatchSize)
  {
    var bs := SliceBatches(b);
    ChunksShape(b.documents, CopyBatchSize);
    ChunksShape(b.metadatas, CopyBatchSize);
    forall k | 0 <= k < |bs|
      ensures DocumentsOf(bs)[k] == Chunks(b.documents, CopyBatchSize)[k]
      ensures MetadatasOf(bs)[k] == Chunks(b.metadatas, CopyBatchSize)[k]
      ensures Aligned(bs[k])
    {
      SliceIsChunk(b.documents, |b.ids|, k);
      SliceIsChunk(b.metadatas, |b.ids|, k);
      SliceIsChunk(b.ids, |b.ids|, k);
    }
  }

  /** The `k`th slice of any list of `total` entries is its `k`th chunk of 100. */
  lemma SliceIsChunk<T>(s: seq<T>, total: nat, k: nat)
    requires |s| == total && k < |Bounds(total)|
    ensures k < |Chunks(s, CopyBatchSize)|
    ensures PySlice(s, Bounds(total)[k].0, Bounds(total)[k].1) == Chunks(s, CopyBatchSize)[k]
  {
    ChunksShape(s, CopyBatchSize);
    ChunkAt(s, CopyBatchSize, k);
    var lo, hi := k * CopyBatchSize, Min(k * CopyBatchSize + CopyBatchSize, total);
    assert Bounds(total)[k] == (lo, hi);
    assert lo <= hi <= |s|;
  }

  /** The number of copies before the first `add` that raises (all of them when none does). */
  function Accepted(bs: seq<Batch>, accepts: Batch -> bool): (n: nat)
    ensures n <= |bs|
    ensures forall k :: 0 <= k < n ==> accepts(bs[k])
    ensures n < |bs| ==> !accepts(bs[n])
  {
    if bs == [] || !accepts(bs[0]) then 0 else 1 + Accepted(bs[1..], accepts)
  }

  /** The batch loop of `migrate_data`: each slice is added in turn, and the first `add`
      that raises abandons the rest of the collection. */
  method CopyBatches(dest: Sink, results: Batch) returns (ok: bool)
    modifies dest
    ensures var bs := SliceBatches(results);
      && dest.batches == old(dest.batches) + bs[..Accepted(bs, dest.accepts)]
      && (ok <==> Accepted(bs, dest.accepts) == |bs|)
  {
    ghost var bs := SliceBatches(results);
    var total := |results.ids|;
    var i: nat := 0;
    ghost var k: nat := 0;
    ok := true;
    while i < total
      invariant i == k * CopyBatchSize && k <= |bs|
      invariant forall j :: 0 <= j < k ==> dest.accepts(bs[j])
      invariant i < total <==> k < |bs|
      invariant dest.batches == old(dest.batches) + bs[..k]
      decreases total - i
    {
      ok := CopyOne(dest, results, i, k);
      if !ok {
        AcceptedAt(bs, dest.accepts, k);
        return;
      }
      assert bs[..k + 1] == bs[..k] + [bs[k]];
      i, k := i + CopyBatchSize, k + 1;
    }
    AcceptedAt(bs, dest.accepts, k);
  }

  /** One pass of the batch loop at `i == 100 * k`: the `k`th slice is added, and the
      loop goes on exactly while there are slices left. */
  method CopyOne(dest: Sink, results: Batch, i: nat, ghost k: nat) returns (ok: bool)
    requires i == k * CopyBatchSize < |results.ids|
    modifies dest
    ensures k < |SliceBatches(results)|
    ensures ok == dest.accepts(SliceBatches(results)[k])
    ensures dest.batches == old(dest.batches) + (if ok then [SliceBatches(results)[k]] else [])
    ensures i + CopyBatchSize < |results.ids| <==> k + 1 < |SliceBatches(results)|
  {
    var end := Min(i + CopyBatchSize, |results.ids|);
    var b := Slice(results, i, end);
    CopyStep(results, k);
    ok := dest.Add(b);
  }

  /** `Accepted` is the position of the first rejected call. */
  lemma {:induction false} AcceptedAt(bs: seq<Batch>, accepts: Batch -> bool, k: nat)
    requires k <= |bs|
    requires forall j :: 0 <= j < k ==> accepts(bs[j])
    requires k < |bs| ==> !accepts(bs[k])
    ensures Accepted(bs, accepts) == k
  {
    if k > 0 {
      assert accepts(bs[0]);
      assert forall j :: 0 <= j < k - 1 ==> bs[1..][j] == bs[j + 1];
      AcceptedAt(bs[1..], accepts, k - 1);
    }
  }

  /** Iteration `k` of the batch loop, where `i == 100 * k`, makes the `k`th call, and the
      loop goes on exactly while there are calls left. */
  lemma CopyStep(results: Batch, k: nat)
    requires k * CopyBatchSize < |results.ids|
    ensures k < |SliceBatches(results)|
    ensures var i, total := k * CopyBatchSize, |results.ids|;
      var end := Min(i + CopyBatchSize, total);
      && Slice(results, i, end) == SliceBatches(results)[k]
      && (i + CopyBatchSize < total <==> k + 1 < |SliceBatches(results)|)
  {
    var total := |results.ids|;
    var n := CeilDiv(total, CopyBatchSize);
    CeilDivBounds(total, CopyBatchSize);
  }

  /** What a migrated collection ends up holding: nothing when the source is empty,
      otherwise the copies up to the first `add` that raised. */
  function Migrated(b: Batch, accepts: Batch -> bool): (bs: seq<Batch>)
    ensures b.ids == [] ==> bs == []
    ensures b.ids != [] ==> bs <= SliceBatches(b)
    ensures forall k :: 0 <= k < |bs| ==> accepts(bs[k])
    ensures b.ids != [] && |bs| < |SliceBatches(b)| ==> !accepts(SliceBatches(b)[|bs|])
  {
    if b.ids == [] then []
    else
      var bs := SliceBatches(b);
      bs[..Accepted(bs, accepts)]
  }

  /** The names of `CollectionNames` that the source holds, in order. */
  function Present(names: seq<string>, source: map<string, Batch>): (ps: seq<string>)
    ensures forall n :: n in ps <==> n in names && n in source
  {
    if names == [] then []
    else (if names[0] in source then [names[0]] else []) + Present(names[1..], source)
  }

  /** One pass of the `for coll_name in collections` loop: a name the source lacks is
      skipped; otherwise a new collection of that name is created in the destination and
      receives the copies. */
  method MigrateOne(dest: Client, source: map<string, Batch>, name: string)
    requires dest.Valid() && name !in dest.collections
    modifies dest
    ensures dest.Valid()
    ensures dest.collections.Keys == old(dest.collections.Keys) + (if name in source then {name} else {})
    ensures forall n :: n in old(dest.collections) ==> dest.collections[n] == old(dest.collections[n])
    ensures name in source ==> dest.collections[name].batches == Migrated(source[name], dest.accepts)
  {
    if name !in source {
      return;
    }
    var created := dest.Create(name);
    if created.None? {
      return;
    }
    Fill(created.value, source[name]);
  }

  /** `if results['ids']:` followed by the batch loop, on a new collection. */
  method Fill(coll: Sink, results: Batch)
    modifies coll
    ensures coll.batches == old(coll.batches) + Migrated(results, coll.accepts)
  {
    if results.ids != [] {
      var _ := CopyBatches(coll, results);
    }
  }

  /** Appending a name appends it to the present names exactly when the source holds it. */
  lemma {:induction false} PresentSnoc(names: seq<string>, name: string, source: map<string, Batch>)
    ensures Present(names + [name], source) == Present(names, source) + (if name in source then [name] else [])
  {
    if names != [] {
      assert (names + [name])[1..] == names[1..] + [name];
      PresentSnoc(names[1..], name, source);
    }
  }

  /** The four collection names are distinct. */
  lemma NamesDistinct()
    ensures forall a, b :: 0 <= a < b < |CollectionNames| ==> CollectionNames[a] != CollectionNames[b]
  {
    assert "support_articles"[8] != "support_tickets"[8];
    assert "support_articles"[8] != "support_internal"[8];
    assert "support_articles"[8] != "support_drafts"[8];
    assert "support_tickets"[8] != "support_internal"[8];
    assert "support_tickets"[8] != "support_drafts"[8];
    assert "support_internal"[8] != "support_drafts"[8];
  }

  /** `migrate_data()`: a fresh destination store receives, for each name in order that the
      source holds, a new collection with that collection's entries copied in 100s. A name
      the source lacks is skipped without creating anything. */
  method Migrate(source: map<string, Batch>, accepts: Batch -> bool)
    returns (dest: Client, ghost copied: seq<string>)
    ensures fresh(dest) && dest.Valid() && dest.accepts == accepts
    ensures copied == Present(CollectionNames, source)
    ensures forall n :: n in dest.collections <==> n in CollectionNames && n in source
    ensures forall n :: n in dest.collections ==> dest.collections[n].batches == Migrated(source[n], accepts)
  {
    dest := new Client(accepts);
    copied := [];
    NamesDistinct();
    for j := 0 to |CollectionNames|
      invariant dest.Valid() && dest.accepts == accepts
      invariant copied == Present(CollectionNames[..j], source)
      invariant forall n :: n in dest.collections <==> n in copied
      invariant forall n :: n in dest.collections ==> dest.collections[n].batches == Migrated(source[n], accepts)
    {
      var name := CollectionNames[j];
      assert CollectionNames[..j + 1] == CollectionNames[..j] + [name];
      PresentSnoc(CollectionNames[..j], name, source);
      MigrateOne(dest, source, name);
      if name in source {
        copied := copied + [name];
      }
    }
    assert CollectionNames[..|CollectionNames|] == CollectionNames;
  }
}
