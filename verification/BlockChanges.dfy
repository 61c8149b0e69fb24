/** What each operation of the block keeper changes: which blocks are staged afterwards, and where
    every transaction has gone. */
module BlockChanges {
  import opened Types
  import opened Blocks
  import opened BlockNames
  import opened BlockKeeping

  // -------------------------------------------------------------- admission

  lemma {:induction false} ByIdSize(pool: map<TxId, SignedTx>)
    ensures |ById(pool)| == |pool|
    decreases |pool|
  {
    if pool != map[] {
      var k := Least(pool.Keys);
      assert (pool - {k}).Keys == pool.Keys - {k};
      assert |(pool - {k}).Keys| == |pool.Keys| - 1;
      ByIdSize(pool - {k});
    }
  }

  /** A verified block on top of the last commit that lists exactly a pool. */
  ghost predicate BlockOf(hasher: Hasher, k: Keeper, pool: map<TxId, SignedTx>, b: BlockFile) {
    && VerifyBlock(hasher, b) && b.index == k.height + 1 && b.previousHash == k.lastHash && |b.transactions| == |pool|
    && forall t :: t in b.transactions <==> t.id in pool && pool[t.id] == t
  }

  /** Short of a full mempool an admission only pools the transaction.  At the size it stages one
      more block, which lists exactly the pool, and makes the pool pending. */
  lemma AddChanges(hasher: Hasher, k: Keeper, tx: SignedTx)
    requires Keyed(k.mempool)
    ensures var pool := k.mempool[tx.id := tx]; var k' := Add(hasher, k, tx);
      && k'.files == k.files && k'.height == k.height && k'.lastHash == k.lastHash
      && (|pool| < k.size ==> k' == k.(mempool := pool))
      && (|pool| >= k.size ==>
            && k'.mempool == map[] && k'.pending == k.pending + pool
            && exists b: BlockFile :: k'.staged == k.staged[b.hash := b] && BlockOf(hasher, k, pool, b))
  {
    var pool := k.mempool[tx.id := tx];
    if |pool| >= k.size {
      var b := CreatedOf(hasher, k, pool);
      assert Add(hasher, k, tx).staged == k.staged[b.hash := b];
    }
  }

  /** The block made of a pool. */
  lemma CreatedOf(hasher: Hasher, k: Keeper, pool: map<TxId, SignedTx>) returns (b: BlockFile)
    requires Keyed(pool)
    ensures b == CreateBlock(hasher, ById(pool), k.lastHash, k.height + 1) && BlockOf(hasher, k, pool, b)
  {
    b := CreateBlock(hasher, ById(pool), k.lastHash, k.height + 1);
    ByIdExact(pool);
    ByIdSize(pool);
  }

  // ----------------------------------------------------------------- staging

  /** The part of a pool with these ids. */
  function Picked(pool: map<TxId, SignedTx>, ids: set<TxId>): map<TxId, SignedTx> {
    map id | id in pool && id in ids :: pool[id]
  }

  lemma PickedOne(base: map<TxId, SignedTx>, pool: map<TxId, SignedTx>, ids: set<TxId>, id: TxId)
    requires id in pool
    ensures base + Picked(pool, ids + {id}) == (base + Picked(pool, ids))[id := pool[id]]
  {
  }

  lemma PickedNone(pool: map<TxId, SignedTx>, ids: set<TxId>, id: TxId)
    requires id !in pool || id in ids
    ensures Picked(pool, ids + {id}) == Picked(pool, ids)
  {
  }

  lemma LeftOne(pool: map<TxId, SignedTx>, ids: set<TxId>, id: TxId)
    ensures pool - (ids + {id}) == pool - ids - {id}
    ensures id !in pool - ids ==> pool - (ids + {id}) == pool - ids
  {
  }

  lemma IdsSnoc(txs: seq<SignedTx>)
    requires txs != []
    ensures Ids(txs) == Ids(txs[..|txs| - 1]) + {txs[|txs| - 1].id}
  {
  }

  lemma PickedNothing(base: map<TxId, SignedTx>, pool: map<TxId, SignedTx>)
    ensures base + Picked(pool, Ids([])) == base && pool - Ids([]) == pool
  {
  }

  lemma AbsorbStep(k: Keeper, m: Keeper, ids: set<TxId>, tx: SignedTx)
    requires Keyed(k.mempool)
    requires m == k.(mempool := k.mempool - ids, pending := k.pending + Picked(k.mempool, ids))
    ensures Absorb(m, tx) == k.(mempool := k.mempool - (ids + {tx.id}), pending := k.pending + Picked(k.mempool, ids + {tx.id}))
  {
    LeftOne(k.mempool, ids, tx.id);
    if tx.id in m.mempool {
      PickedOne(k.pending, k.mempool, ids, tx.id);
    } else {
      PickedNone(k.mempool, ids, tx.id);
    }
  }

  lemma {:induction false} AbsorbChanges(k: Keeper, txs: seq<SignedTx>)
    requires Keyed(k.mempool)
    ensures AbsorbAll(k, txs) == k.(mempool := k.mempool - Ids(txs), pending := k.pending + Picked(k.mempool, Ids(txs)))
  {
    if txs == [] {
      PickedNothing(k.pending, k.mempool);
    } else {
      var front := txs[..|txs| - 1];
      AbsorbChanges(k, front);
      IdsSnoc(txs);
      AbsorbStep(k, AbsorbAll(k, front), Ids(front), txs[|txs| - 1]);
    }
  }

  /** An external block is staged under its hash, and takes what it lists out of the mempool. */
  lemma StageChanges(hasher: Hasher, k: Keeper, b: BlockFile)
    requires Keyed(k.mempool)
    ensures Stage(hasher, k, b).Some? <==> hasher(b.transactions, b.previousHash) == b.hash
    ensures Stage(hasher, k, b).Some? ==> var k' := Stage(hasher, k, b).value;
      && k'.staged == k.staged[b.hash := b] && k'.mempool == k.mempool - Ids(b.transactions)
      && k'.pending == k.pending + Picked(k.mempool, Ids(b.transactions))
      && k'.files == k.files && k'.height == k.height && k'.lastHash == k.lastHash
  {
    AbsorbChanges(k, b.transactions);
  }

  // ------------------------------------------------------------------ commit

  /** A commit takes the block out of the stage and its transactions out of the pending ones, writes
      the next file and moves height and hash on. */
  lemma CommitChanges(k: Keeper, hash: BlockHash, writes: bool)
    ensures Commit(k, hash, writes).Some? <==> hash in k.staged && writes
    ensures Commit(k, hash, writes).Some? ==> var k' := Commit(k, hash, writes).value;
      && k'.height == k.height + 1 && k'.lastHash == hash && k'.mempool == k.mempool
      && k'.staged.Keys == k.staged.Keys - {hash} && (forall h :: h in k'.staged ==> k'.staged[h] == k.staged[h])
      && Name(k'.height) in k'.files && k'.files[Name(k'.height)] == Encoded(k.staged[hash])
      && (forall name :: name != Name(k'.height) ==> (name in k'.files <==> name in k.files) && (name in k.files ==> k'.files[name] == k.files[name]))
      && (forall id :: id in k'.pending <==> id in k.pending && !Lists(k.staged[hash], id))
  {
  }

  // ---------------------------------------------------------------- rollback

  /** A block that a full mempool turned into during a rollback. */
  ghost predicate Refilled(hasher: Hasher, k: Keeper, b: BlockFile) {
    && VerifyBlock(hasher, b) && b.index == k.height + 1 && b.previousHash == k.lastHash && |b.transactions| >= k.size
  }

  /** Staged afterwards: what was staged before, or a block made on the way. */
  ghost predicate OnlyRefilled(hasher: Hasher, k: Keeper, k': Keeper) {
    && k.staged.Keys <= k'.staged.Keys
    && k'.height == k.height && k'.lastHash == k.lastHash && k'.size == k.size && k'.files == k.files
    && forall h :: h in k'.staged ==> (h in k.staged && k'.staged[h] == k.staged[h]) || Refilled(hasher, k, k'.staged[h])
  }

  lemma {:induction false} ReadmitOnlyRefills(hasher: Hasher, k: Keeper, txs: seq<SignedTx>)
    ensures OnlyRefilled(hasher, k, ReadmitAll(hasher, k, txs))
  {
    if txs != [] {
      var front, last := txs[..|txs| - 1], txs[|txs| - 1];
      ReadmitOnlyRefills(hasher, k, front);
      var m := ReadmitAll(hasher, k, front);
      if last.id in m.pending {
        ByIdSize(m.mempool[m.pending[last.id].id := m.pending[last.id]]);
      }
    }
  }

  /** A rolled-back block is no longer staged: every block staged afterwards was staged before, under
      another hash, or is one of at least the mempool's size made while readmitting. */
  lemma RollbackStage(hasher: Hasher, k: Keeper, hash: BlockHash)
    requires hash in k.staged
    ensures var k' := Rollback(hasher, k, hash).value;
      && (forall h :: h in k.staged && h != hash ==> h in k'.staged)
      && (forall h :: h in k'.staged ==> (h != hash && h in k.staged && k'.staged[h] == k.staged[h]) || Refilled(hasher, k, k'.staged[h]))
  {
    var k1 := k.(staged := k.staged - {hash});
    ReadmitOnlyRefills(hasher, k1, k.staged[hash].transactions);
    var k' := Rollback(hasher, k, hash).value;
    forall h | h in k.staged && h != hash ensures h in k'.staged {
      assert h in k1.staged;
    }
  }

  function Returned(k: Keeper, ids: set<TxId>): Keeper {
    k.(mempool := k.mempool + Picked(k.pending, ids), pending := k.pending - ids)
  }

  lemma PoolGrows(pool: map<TxId, SignedTx>, tx: SignedTx)
    ensures |pool[tx.id := tx]| <= |pool| + 1
  {
    assert pool[tx.id := tx].Keys == pool.Keys + {tx.id};
    assert |pool.Keys + {tx.id}| <= |pool.Keys| + 1;
  }

  lemma AddShort(hasher: Hasher, k: Keeper, tx: SignedTx)
    requires |k.mempool| + 1 < k.size
    ensures Add(hasher, k, tx) == k.(mempool := k.mempool[tx.id := tx])
  {
    PoolGrows(k.mempool, tx);
  }

  lemma ReturnedStep(hasher: Hasher, k: Keeper, ids: set<TxId>, tx: SignedTx)
    requires Keyed(k.pending) && |Returned(k, ids).mempool| + 1 < k.size
    ensures Readmit(hasher, Returned(k, ids), tx) == Returned(k, ids + {tx.id})
  {
    var m := Returned(k, ids);
    LeftOne(k.pending, ids, tx.id);
    if tx.id in m.pending {
      PickedOne(k.mempool, k.pending, ids, tx.id);
      AddShort(hasher, m.(pending := m.pending - {tx.id}), m.pending[tx.id]);
    } else {
      PickedNone(k.pending, ids, tx.id);
    }
  }

  lemma ReturnedSize(hasher: Hasher, m: Keeper, tx: SignedTx)
    requires |m.mempool| + 1 < m.size
    ensures |Readmit(hasher, m, tx).mempool| <= |m.mempool| + 1
  {
    if tx.id in m.pending {
      AddShort(hasher, m.(pending := m.pending - {tx.id}), m.pending[tx.id]);
      PoolGrows(m.mempool, m.pending[tx.id]);
    }
  }

  lemma {:induction false} ReturnsAll(hasher: Hasher, k: Keeper, txs: seq<SignedTx>)
    requires Keyed(k.pending) && |k.mempool| + |txs| < k.size
    ensures ReadmitAll(hasher, k, txs) == Returned(k, Ids(txs)) && |ReadmitAll(hasher, k, txs).mempool| <= |k.mempool| + |txs|
  {
    if txs == [] {
      PickedNothing(k.mempool, k.pending);
    } else {
      var front, last := txs[..|txs| - 1], txs[|txs| - 1];
      ReturnsAll(hasher, k, front);
      IdsSnoc(txs);
      ReturnedStep(hasher, k, Ids(front), last);
      ReturnedSize(hasher, ReadmitAll(hasher, k, front), last);
    }
  }

  /** As long as the mempool cannot fill up, a rollback undoes the staging: the block is gone, its
      pending transactions are back in the mempool, nothing else changes, and it can no longer be
      committed. */
  lemma RollbackChanges(hasher: Hasher, k: Keeper, hash: BlockHash, writes: bool)
    requires hash in k.staged && Keyed(k.pending) && |k.mempool| + |k.staged[hash].transactions| < k.size
    ensures var k' := Rollback(hasher, k, hash).value; var ids := Ids(k.staged[hash].transactions);
      && k'.staged == k.staged - {hash}
      && k'.mempool == k.mempool + Picked(k.pending, ids)
      && k'.pending == k.pending - ids
      && k'.files == k.files && k'.height == k.height && k'.lastHash == k.lastHash
      && Commit(k', hash, writes) == None
  {
    ReturnsAll(hasher, k.(staged := k.staged - {hash}), k.staged[hash].transactions);
  }
}
