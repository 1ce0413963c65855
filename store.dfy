/** The vector store as the scripts see it: named collections, each of which accepts
    `add(documents, metadatas, ids)` calls. The store itself is a foreign library; here a
    collection is a log of the batches it accepted, and whether a given `add` call raises
    is a fixed function of the batch supplied when the store is opened. */
module Store {
  import opened Common
  import opened Chunking

  /** A metadata value: the scripts store strings, and one of them a list of label names. */
  datatype MetaValue = Str(s: string) | List(items: seq<string>)

  /** The metadata dictionary attached to one stored document. */
  type Metadata = map<string, MetaValue>

  /** The arguments of one `collection.add(documents=..., metadatas=..., ids=...)` call. */
  datatype Batch = Batch(documents: seq<string>, metadatas: seq<Metadata>, ids: seq<string>)

  /** The three lists of a batch have one entry per document. */
  predicate Aligned(b: Batch) {
    |b.documents| == |b.metadatas| == |b.ids|
  }

  /** The document lists of a run of batches, one per batch. */
  function DocumentsOf(bs: seq<Batch>): (r: seq<seq<string>>)
    ensures |r| == |bs| && forall k :: 0 <= k < |bs| ==> r[k] == bs[k].documents
  {
    seq(|bs|, k requires 0 <= k < |bs| => bs[k].documents)
  }

  /** The metadata lists of a run of batches, one per batch. */
  function MetadatasOf(bs: seq<Batch>): (r: seq<seq<Metadata>>)
    ensures |r| == |bs| && forall k :: 0 <= k < |bs| ==> r[k] == bs[k].metadatas
  {
    seq(|bs|, k requires 0 <= k < |bs| => bs[k].metadatas)
  }

  /** The id lists of a run of batches, one per batch. */
  function IdsOf(bs: seq<Batch>): (r: seq<seq<string>>)
    ensures |r| == |bs| && forall k :: 0 <= k < |bs| ==> r[k] == bs[k].ids
  {
    seq(|bs|, k requires 0 <= k < |bs| => bs[k].ids)
  }

  /** Appending a batch appends its lists to the flattened document, metadata and id lists. */
  lemma FlattenBatchesSnoc(bs: seq<Batch>, b: Batch)
    ensures Flatten(DocumentsOf(bs + [b])) == Flatten(DocumentsOf(bs)) + b.documents
    ensures Flatten(MetadatasOf(bs + [b])) == Flatten(MetadatasOf(bs)) + b.metadatas
    ensures Flatten(IdsOf(bs + [b])) == Flatten(IdsOf(bs)) + b.ids
  {
    assert DocumentsOf(bs + [b]) == DocumentsOf(bs) + [b.documents];
    assert MetadatasOf(bs + [b]) == MetadatasOf(bs) + [b.metadatas];
    assert IdsOf(bs + [b]) == IdsOf(bs) + [b.ids];
    FlattenSnoc(DocumentsOf(bs), b.documents);
    FlattenSnoc(MetadatasOf(bs), b.metadatas);
    FlattenSnoc(IdsOf(bs), b.ids);
  }

  /** One collection. */
  class Sink {
    /** The collection's name. */
    const name: string
    /** Whether `add` succeeds for a batch; when it is false the call raises. */
    const accepts: Batch -> bool
    /** The batches the collection has accepted, oldest first. */
    ghost var batches: seq<Batch>

    /** A new, empty collection. */
    constructor (name: string, accepts: Batch -> bool)
      ensures this.name == name && this.accepts == accepts && batches == []
    {
      this.name := name;
      this.accepts := accepts;
      batches := [];
    }

    /** Every `add` call succeeds. */
    ghost predicate AcceptsAll() {
      forall b :: accepts(b)
    }

    /** `collection.add(documents=..., metadatas=..., ids=...)`; `ok` is false when it raised. */
    method Add(b: Batch) returns (ok: bool)
      modifies this
      ensures ok == accepts(b)
      ensures batches == if ok then old(batches) + [b] else old(batches)
    {
      ok := accepts(b);
      if ok {
        batches := batches + [b];
      }
    }
  }

  /** A store client (`chromadb.PersistentClient`): the collections by name. */
  class Client {
    /** Whether `add` succeeds, for every collection of this store. */
    const accepts: Batch -> bool
    var collections: map<string, Sink>

    /** Each collection is its own object and carries the name it is filed under. */
    ghost predicate Valid()
      reads this
    {
      && (forall n :: n in collections ==> collections[n].name == n && collections[n].accepts == accepts)
      && (forall n, m :: n in collections && m in collections && n != m ==> collections[n] != collections[m])
    }

    /** A store with no collections. */
    constructor (accepts: Batch -> bool)
      ensures Valid() && this.accepts == accepts && collections == map[]
    {
      this.accepts := accepts;
      collections := map[];
    }

    /** `client.get_collection(name)`, falling back to `client.create_collection(name)`
        when the get raises because the collection does not exist. */
    method GetOrCreate(name: string) returns (s: Sink)
      requires Valid()
      modifies this
      ensures Valid() && name in collections && s == collections[name]
      ensures name in old(collections) ==> collections == old(collections)
      ensures name !in old(collections) ==>
        fresh(s) && s.batches == [] && collections == old(collections)[name := s]
    {
      if name in collections {
        s := collections[name];
      } else {
        s := new Sink(name, accepts);
        collections := collections[name := s];
      }
    }

    /** `client.delete_collection(name)`; `ok` is false when it raised because there was
        no such collection. */
    method Delete(name: string) returns (ok: bool)
      requires Valid()
      modifies this
      ensures Valid()
      ensures ok == (name in old(collections))
      ensures collections == old(collections) - {name}
    {
      ok := name in collections;
      collections := collections - {name};
    }

    /** `client.create_collection(name)`: a new empty collection, or `None` when it raised
        because the name is taken. */
    method Create(name: string) returns (r: Option<Sink>)
      requires Valid()
      modifies this
      ensures Valid()
      ensures r.None? <==> name in old(collections)
      ensures r.None? ==> collections == old(collections)
      ensures r.Some? ==>
        fresh(r.value) && r.value.batches == [] && collections == old(collections)[name := r.value]
    {
      if name in collections {
        r := None;
      } else {
        var s := new Sink(name, accepts);
        collections := collections[name := s];
        r := Some(s);
      }
    }
  }

  /** The collections `after` are those `before` with the one called `name` set (added or
      replaced) and all others as they were. */
  ghost predicate Replaced(before: map<string, Sink>, after: map<string, Sink>, name: string) {
    name in after && after == before[name := after[name]]
  }
}
