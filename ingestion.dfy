/**
 * `ChromaDBVectorDatabase.store_data`: the rows of the dataset's `test`
 * split become three parallel lists (documents, metadata, ids), which are
 * handed to the collection's `add` in slices of at most 100 entries.
 *
 * The collection is represented by the sequence of `add` calls it received.
 */
module Ingestion {
  import opened Wrappers
  import opened Text

  const BatchSize := 100
  const Author := "ayan das"
  /** The message of the `KeyError` raised when the dataset has no `test` split. */
  const MissingSplit := "'test'"

  /** One dataset row: `entry['question']`, `entry['answer']`, `entry['id']`. */
  datatype Row = Row(question: string, answer: string, id: int)

  /** `{"author": "ayan das", "question": q}` */
  datatype Metadata = Metadata(author: string, question: string)

  /** The arguments of one `collection.add` call. */
  datatype Batch = Batch(documents: seq<string>, metadatas: seq<Metadata>, ids: seq<string>)

  function Document(r: Row): string {
    "Question: " + r.question + " Answer: " + r.answer
  }

  function RowMetadata(r: Row): Metadata {
    Metadata(Author, r.question)
  }

  /** `str(entry['id'])` */
  function RowId(r: Row): string {
    IntToString(r.id)
  }

  function Documents(rows: seq<Row>): (ds: seq<string>)
    ensures |ds| == |rows|
  {
    seq(|rows|, k requires 0 <= k < |rows| => Document(rows[k]))
  }

  function Metadatas(rows: seq<Row>): (ms: seq<Metadata>)
    ensures |ms| == |rows|
  {
    seq(|rows|, k requires 0 <= k < |rows| => RowMetadata(rows[k]))
  }

  function Ids(rows: seq<Row>): (ids: seq<string>)
    ensures |ids| == |rows|
  {
    seq(|rows|, k requires 0 <= k < |rows| => RowId(rows[k]))
  }

  function Min(a: int, b: int): int {
    if a <= b then a else b
  }

  /** The `add` calls of `for i in range(start, len(documents), 100)`, in order. */
  function Batches(ds: seq<string>, ms: seq<Metadata>, ids: seq<string>, start: nat): seq<Batch>
    requires |ms| == |ds| && |ids| == |ds|
    decreases |ds| - start
  {
    if start >= |ds| then []
    else
      var end := Min(start + BatchSize, |ds|);
      [Batch(ds[start..end], ms[start..end], ids[start..end])] + Batches(ds, ms, ids, start + BatchSize)
  }

  /** The `add` calls `store_data` makes for the given rows. */
  function RowBatches(rows: seq<Row>): seq<Batch> {
    Batches(Documents(rows), Metadatas(rows), Ids(rows), 0)
  }

  /** ⌈n / 100⌉ */
  function NumBatches(n: nat): nat {
    (n + BatchSize - 1) / BatchSize
  }

  /** The documents of the batches, one after the other. */
  function AllDocuments(bs: seq<Batch>): seq<string> {
    if bs == [] then [] else bs[0].documents + AllDocuments(bs[1..])
  }

  function AllMetadatas(bs: seq<Batch>): seq<Metadata> {
    if bs == [] then [] else bs[0].metadatas + AllMetadatas(bs[1..])
  }

  function AllIds(bs: seq<Batch>): seq<string> {
    if bs == [] then [] else bs[0].ids + AllIds(bs[1..])
  }

  /** Row `k` gives document `k`, metadata `k` and id `k`: the three lists stay parallel and in row order. */
  lemma RowEntries(rows: seq<Row>, k: nat)
    requires k < |rows|
    ensures Documents(rows)[k] == "Question: " + rows[k].question + " Answer: " + rows[k].answer
    ensures Metadatas(rows)[k] == Metadata("ayan das", rows[k].question)
    ensures Ids(rows)[k] == IntToString(rows[k].id)
  {
  }

  /** Rows with distinct ids get distinct string ids. */
  lemma IdsDistinct(rows: seq<Row>, j: nat, k: nat)
    requires j < |rows| && k < |rows| && rows[j].id != rows[k].id
    ensures Ids(rows)[j] != Ids(rows)[k]
  {
    if Ids(rows)[j] == Ids(rows)[k] {
      IntToStringInjective(rows[j].id, rows[k].id);
    }
  }

  /** There are ⌈(n - start) / 100⌉ batches; none at all for an empty list. */
  lemma {:induction false} BatchesCount(ds: seq<string>, ms: seq<Metadata>, ids: seq<string>, start: nat)
    requires |ms| == |ds| && |ids| == |ds| && start <= |ds|
    ensures |Batches(ds, ms, ids, start)| == NumBatches(|ds| - start)
    decreases |ds| - start
  {
    if start < |ds| {
      if start + BatchSize <= |ds| {
        BatchesCount(ds, ms, ids, start + BatchSize);
        assert NumBatches(|ds| - start) == NumBatches(|ds| - start - BatchSize) + 1;
      } else {
        assert Batches(ds, ms, ids, start + BatchSize) == [];
      }
    }
  }

  /**
   * Batch `j` holds entries `[start + 100 j, min(start + 100 j + 100, n))` of
   * each list: the same range in all three, non-empty and at most 100 long.
   */
  lemma {:induction false} BatchAt(ds: seq<string>, ms: seq<Metadata>, ids: seq<string>, start: nat, j: nat)
    requires |ms| == |ds| && |ids| == |ds|
    requires j < |Batches(ds, ms, ids, start)|
    ensures var lo := start + BatchSize * j; var hi := Min(lo + BatchSize, |ds|);
      && lo < hi <= |ds| && hi - lo <= BatchSize
      && Batches(ds, ms, ids, start)[j] == Batch(ds[lo..hi], ms[lo..hi], ids[lo..hi])
    decreases |ds| - start
  {
    if j > 0 {
      BatchAt(ds, ms, ids, start + BatchSize, j - 1);
      assert start + BatchSize + BatchSize * (j - 1) == start + BatchSize * j;
    }
  }

  /** Read in order, the batches give back each list from `start` on: every entry is added exactly once. */
  lemma {:induction false} BatchesCover(ds: seq<string>, ms: seq<Metadata>, ids: seq<string>, start: nat)
    requires |ms| == |ds| && |ids| == |ds| && start <= |ds|
    ensures AllDocuments(Batches(ds, ms, ids, start)) == ds[start..]
    ensures AllMetadatas(Batches(ds, ms, ids, start)) == ms[start..]
    ensures AllIds(Batches(ds, ms, ids, start)) == ids[start..]
    decreases |ds| - start
  {
    if start < |ds| {
      var bs := Batches(ds, ms, ids, start);
      var end := Min(start + BatchSize, |ds|);
      if start + BatchSize <= |ds| {
        BatchesCover(ds, ms, ids, start + BatchSize);
      } else {
        assert Batches(ds, ms, ids, start + BatchSize) == [];
      }
      assert bs[1..] == Batches(ds, ms, ids, start + BatchSize);
      assert ds[start..] == ds[start..end] + ds[end..];
      assert ms[start..] == ms[start..end] + ms[end..];
      assert ids[start..] == ids[start..end] + ids[end..];
    }
  }

  /** Two index ranges of a list without repeats, the first ending before the second starts, hold no entry in common. */
  lemma SlicesShareNoEntry(ids: seq<string>, lo: nat, hi: nat, lo': nat, hi': nat)
    requires forall a, b :: 0 <= a < b < |ids| ==> ids[a] != ids[b]
    requires lo <= hi <= lo' <= hi' <= |ids|
    ensures forall x :: x in ids[lo..hi] ==> x !in ids[lo'..hi']
  {
    forall x | x in ids[lo..hi]
      ensures x !in ids[lo'..hi']
    {
      var p :| 0 <= p < hi - lo && ids[lo..hi][p] == x;
      assert x == ids[lo + p];
      forall q | 0 <= q < hi' - lo'
        ensures ids[lo'..hi'][q] != x
      {
        assert ids[lo'..hi'][q] == ids[lo' + q];
      }
    }
  }

  /** When the rows' ids are distinct, no id is added by two different `add` calls. */
  lemma BatchesShareNoId(rows: seq<Row>, j: nat, j': nat)
    requires forall a, b :: 0 <= a < b < |rows| ==> rows[a].id != rows[b].id
    requires j < j' < |RowBatches(rows)|
    ensures forall x :: x in RowBatches(rows)[j].ids ==> x !in RowBatches(rows)[j'].ids
  {
    var ds, ms, ids := Documents(rows), Metadatas(rows), Ids(rows);
    forall a, b | 0 <= a < b < |ids|
      ensures ids[a] != ids[b]
    {
      IdsDistinct(rows, a, b);
    }
    BatchAt(ds, ms, ids, 0, j);
    BatchAt(ds, ms, ids, 0, j');
    var lo, lo' := BatchSize * j, BatchSize * j';
    SlicesShareNoEntry(ids, lo, Min(lo + BatchSize, |ds|), lo', Min(lo' + BatchSize, |ds|));
  }

  /**
   * For the rows of a `test` split: ⌈n / 100⌉ `add` calls, none for no rows,
   * which together add each row's document, metadata and id once, in row order.
   */
  lemma RowBatchesAddEachRowOnce(rows: seq<Row>)
    ensures |RowBatches(rows)| == NumBatches(|rows|)
    ensures rows == [] ==> RowBatches(rows) == []
    ensures AllDocuments(RowBatches(rows)) == Documents(rows)
    ensures AllMetadatas(RowBatches(rows)) == Metadatas(rows)
    ensures AllIds(RowBatches(rows)) == Ids(rows)
  {
    var ds, ms, ids := Documents(rows), Metadatas(rows), Ids(rows);
    BatchesCount(ds, ms, ids, 0);
    BatchesCover(ds, ms, ids, 0);
    assert ds[0..] == ds && ms[0..] == ms && ids[0..] == ids;
  }

  /** The collection `store_data` writes to, seen as the list of `add` calls it received. */
  class VectorDatabase {
    var collectionName: string
    var added: seq<Batch>

    constructor (name: string)
      ensures collectionName == name && added == []
    {
      collectionName := name;
      added := [];
    }

    /**
     * `store_data(data)`: a dataset without a `test` split raises `KeyError`
     * before anything is added; otherwise the rows' batches are added in order.
     */
    method StoreData(data: map<string, seq<Row>>) returns (r: Result<(), string>)
      modifies this`added
      ensures "test" !in data ==> r == Failure(MissingSplit) && added == old(added)
      ensures "test" in data ==> r == Success(()) && added == old(added) + RowBatches(data["test"])
    {
      if "test" !in data {
        return Failure(MissingSplit);
      }
      var rows := data["test"];
      var documents, metadatas, ids := [], [], [];
      for k := 0 to |rows|
        invariant documents == Documents(rows[..k])
        invariant metadatas == Metadatas(rows[..k])
        invariant ids == Ids(rows[..k])
      {
        var entry := rows[k];
        documents := documents + [Document(entry)];
        metadatas := metadatas + [RowMetadata(entry)];
        ids := ids + [RowId(entry)];
      }
      assert rows[..|rows|] == rows;
      var i := 0;
      while i < |documents|
        invariant old(added) + Batches(documents, metadatas, ids, 0) == added + Batches(documents, metadatas, ids, i)
        decreases |documents| - i
      {
        var batchEnd := Min(i + BatchSize, |documents|);
        added := added + [Batch(documents[i..batchEnd], metadatas[i..batchEnd], ids[i..batchEnd])];
        i := i + BatchSize;
      }
      r := Success(());
    }
  }
}
