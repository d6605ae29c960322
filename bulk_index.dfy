/**
 * What the `nhl` index holds after a batch of bulk "index" operations: each
 * operation stores its document under its `_id`, replacing whatever was
 * stored there, in batch order. The index itself is an external store; this
 * module gives the meaning of one submitted batch.
 */
module BulkIndex {
  import opened Wrappers
  import opened Transform

  type Index = map<DocKey, PlayDoc>

  /** The index after applying `batch` in order to `index`. */
  function Upsert(index: Index, batch: seq<BulkEntry>): Index {
    if batch == [] then index
    else
      var last := batch[|batch| - 1];
      Upsert(index, batch[..|batch| - 1])[last.id := last.source]
  }

  /** The `_id`s a batch writes. */
  function KeySet(batch: seq<BulkEntry>): set<DocKey> {
    set i | 0 <= i < |batch| :: batch[i].id
  }

  /** The document of the last operation in `batch` with `_id` k, if any. */
  function LastWrite(batch: seq<BulkEntry>, k: DocKey): Option<PlayDoc> {
    if batch == [] then None
    else if batch[|batch| - 1].id == k then Some(batch[|batch| - 1].source)
    else LastWrite(batch[..|batch| - 1], k)
  }

  /** A key is written by the batch exactly when the batch holds an operation with that `_id`. */
  lemma {:induction false} LastWriteFound(batch: seq<BulkEntry>, k: DocKey)
    ensures LastWrite(batch, k).Some? <==> k in KeySet(batch)
    ensures LastWrite(batch, k).Some? ==> exists i | 0 <= i < |batch| :: batch[i].id == k && batch[i].source == LastWrite(batch, k).value
  {
    if batch != [] {
      var init := batch[..|batch| - 1];
      LastWriteFound(init, k);
      assert KeySet(batch) == KeySet(init) + {batch[|batch| - 1].id} by {
        forall x | x in KeySet(batch) ensures x in KeySet(init) + {batch[|batch| - 1].id} {
          var i :| 0 <= i < |batch| && batch[i].id == x;
          if i < |batch| - 1 { assert init[i] == batch[i]; }
        }
        forall x | x in KeySet(init) ensures x in KeySet(batch) {
          var i :| 0 <= i < |init| && init[i].id == x;
          assert batch[i] == init[i];
        }
      }
      if batch[|batch| - 1].id != k && LastWrite(init, k).Some? {
        var i :| 0 <= i < |init| && init[i].id == k && init[i].source == LastWrite(init, k).value;
        assert batch[i] == init[i];
      }
    }
  }

  /**
   * The stored document for a key is the one of the batch's last operation
   * with that `_id`; keys the batch does not write keep their old document.
   */
  lemma {:induction false} UpsertAt(index: Index, batch: seq<BulkEntry>, k: DocKey)
    ensures k in Upsert(index, batch) <==> k in index || LastWrite(batch, k).Some?
    ensures LastWrite(batch, k).Some? ==> Upsert(index, batch)[k] == LastWrite(batch, k).value
    ensures LastWrite(batch, k).None? && k in index ==> Upsert(index, batch)[k] == index[k]
  {
    if batch != [] {
      UpsertAt(index, batch[..|batch| - 1], k);
    }
  }

  /** After a batch the index holds exactly its old keys and the batch's `_id`s. */
  lemma UpsertKeys(index: Index, batch: seq<BulkEntry>)
    ensures Upsert(index, batch).Keys == index.Keys + KeySet(batch)
  {
    forall k ensures k in Upsert(index, batch) <==> k in index || k in KeySet(batch) {
      UpsertAt(index, batch, k);
      LastWriteFound(batch, k);
    }
  }

  /** Two batches with the same last write for every key leave any index in the same state. */
  lemma SameLastWrites(index: Index, a: seq<BulkEntry>, b: seq<BulkEntry>)
    requires forall k :: LastWrite(a, k) == LastWrite(b, k)
    ensures Upsert(index, a) == Upsert(index, b)
  {
    forall k ensures (k in Upsert(index, a) <==> k in Upsert(index, b))
                     && (k in Upsert(index, a) ==> Upsert(index, a)[k] == Upsert(index, b)[k]) {
      UpsertAt(index, a, k);
      UpsertAt(index, b, k);
    }
  }

  /** In a concatenation the later batch's write wins. */
  lemma {:induction false} LastWriteAppend(a: seq<BulkEntry>, b: seq<BulkEntry>, k: DocKey)
    ensures LastWrite(a + b, k) == if LastWrite(b, k).Some? then LastWrite(b, k) else LastWrite(a, k)
  {
    if b == [] {
      assert a + b == a;
    } else {
      var init := b[..|b| - 1];
      assert (a + b)[..|a + b| - 1] == a + init;
      LastWriteAppend(a, init, k);
    }
  }

  /** Submitting two batches one after the other is submitting their concatenation. */
  lemma {:induction false} UpsertSequential(index: Index, a: seq<BulkEntry>, b: seq<BulkEntry>)
    ensures Upsert(Upsert(index, a), b) == Upsert(index, a + b)
  {
    if b == [] {
      assert a + b == a;
    } else {
      var init := b[..|b| - 1];
      assert (a + b)[..|a + b| - 1] == a + init;
      UpsertSequential(index, a, init);
    }
  }

  /** Re-submitting a batch changes nothing: re-ingestion overwrites, it never duplicates. */
  lemma ReingestIdempotent(index: Index, batch: seq<BulkEntry>)
    ensures Upsert(Upsert(index, batch), batch) == Upsert(index, batch)
  {
    UpsertSequential(index, batch, batch);
    forall k ensures LastWrite(batch + batch, k) == LastWrite(batch, k) {
      LastWriteAppend(batch, batch, k);
    }
    SameLastWrites(index, batch + batch, batch);
  }

  /** Operations whose `_id`s are all written again later in the batch leave no trace. */
  lemma Overwritten(index: Index, a: seq<BulkEntry>, b: seq<BulkEntry>)
    requires KeySet(a) <= KeySet(b)
    ensures Upsert(index, a + b) == Upsert(index, b)
  {
    forall k ensures LastWrite(a + b, k) == LastWrite(b, k) {
      LastWriteAppend(a, b, k);
      LastWriteFound(a, k);
      LastWriteFound(b, k);
    }
    SameLastWrites(index, a + b, b);
  }

  /**
   * A run of operations that occurs twice in a batch stores the same index as
   * the batch with only its second occurrence kept.
   */
  lemma RepeatCollapses(index: Index, x: seq<BulkEntry>, r: seq<BulkEntry>, y: seq<BulkEntry>)
    ensures Upsert(index, x + r + y + r) == Upsert(index, x + y + r)
  {
    forall k ensures LastWrite(x + r + y + r, k) == LastWrite(x + y + r, k) {
      LastWriteAppend(x + r + y, r, k);
      LastWriteAppend(x + r, y, k);
      LastWriteAppend(x, r, k);
      LastWriteAppend(x + y, r, k);
      LastWriteAppend(x, y, k);
    }
    SameLastWrites(index, x + r + y + r, x + y + r);
  }
}
