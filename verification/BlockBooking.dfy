/** The ledger's share in staging, rolling back and fetching blocks, by the ledger's own measures. */
module BlockBooking {
  import opened Types
  import opened Blocks
  import opened RaftLog
  import opened RaftNode
  import opened BlockKeeping
  import opened Ledger
  import opened LedgerReplay
  import opened BlockStaging
  import opened PeerEffects

  /** A ledger in which a list of transactions has been booked: each asset's total has grown by what
      they mint, less the overflows; and if none of them is refused, all are applied and the ledger is
      the one a replay reaches. */
  ghost predicate Booked(l: Ledger, txs: seq<SignedTx>, l': Ledger) {
    && (forall a :: Total(l'.accounts, a) + U32_RANGE * WrapCount(l, txs, a) == Total(l.accounts, a) + Minted(l, txs, a))
    && (Replay(l, txs).error == None ==> l'.applied == l.applied + Ids(txs) && l' == Replay(l, txs).state)
  }

  lemma ProcessAllBooks(l: Ledger, txs: seq<SignedTx>)
    ensures Booked(l, txs, ProcessAll(l, txs))
  {
    forall a ensures Total(ProcessAll(l, txs).accounts, a) + U32_RANGE * WrapCount(l, txs, a) == Total(l.accounts, a) + Minted(l, txs, a) {
      TotalAfter(l, txs, a);
    }
    ReplayProcesses(l, txs);
    ReplayIff(l, txs);
  }

  // ----------------------------------------------------------------- staging

  /** The block an entry adds to the stage. */
  predicate Adds(hasher: Hasher, s: Layer, e: Entry, prefer: BlockHash) {
    !e.IsNoop() && e.hash !in s.keeper.staged && e.hash in s.payloads && CanBeAdded(s.keeper, s.payloads[e.hash], prefer)
  }

  /** When an entry's block is staged its transactions are booked; otherwise the ledger is untouched. */
  lemma StageEntryBooks(hasher: Hasher, s: Layer, e: Entry, prefer: BlockHash)
    requires Verified(hasher, s.payloads)
    ensures var r := StageEntry(hasher, s, e, prefer);
      && (Adds(hasher, s, e, prefer) ==>
            && r.error == None && e.hash in r.layer.keeper.staged && r.layer.keeper.staged[e.hash] == s.payloads[e.hash]
            && r.layer.ledger == ProcessAll(s.ledger, s.payloads[e.hash].transactions)
            && Booked(s.ledger, s.payloads[e.hash].transactions, r.layer.ledger))
      && (!Adds(hasher, s, e, prefer) ==> r.layer.ledger == s.ledger && r.layer.keeper == s.keeper)
      && Verified(hasher, r.layer.payloads) && r.layer.lastCompleted == s.lastCompleted
      && r.layer.payloads == (if e.IsNoop() then s.payloads else s.payloads - {e.hash})
  {
    if Adds(hasher, s, e, prefer) {
      ProcessAllBooks(s.ledger, s.payloads[e.hash].transactions);
      AbsorbDisk(s.keeper, s.payloads[e.hash].transactions);
    }
  }

  /** The transactions of the blocks that a staging effect adds, from position k on. */
  function Added(hasher: Hasher, s: Layer, entries: seq<Entry>, prefer: nat -> BlockHash, k: nat): seq<SignedTx>
    requires k <= |entries|
    decreases |entries| - k
  {
    if k == |entries| then []
    else
      var r := StageEntry(hasher, s, entries[k], prefer(k));
      (if Adds(hasher, s, entries[k], prefer(k)) then s.payloads[entries[k].hash].transactions else [])
      + (if r.error.Some? then [] else Added(hasher, r.layer, entries, prefer, k + 1))
  }

  lemma {:induction false} StageEntriesBook(hasher: Hasher, s: Layer, entries: seq<Entry>, prefer: nat -> BlockHash, k: nat)
    requires k <= |entries| && Verified(hasher, s.payloads)
    ensures var r := StageEntries(hasher, s, entries, prefer, k);
      && r.layer.ledger == ProcessAll(s.ledger, Added(hasher, s, entries, prefer, k))
      && Verified(hasher, r.layer.payloads) && r.layer.lastCompleted == s.lastCompleted
    decreases |entries| - k
  {
    if k < |entries| {
      var e := entries[k];
      var r := StageEntry(hasher, s, e, prefer(k));
      StageEntryBooks(hasher, s, e, prefer(k));
      var mine := if Adds(hasher, s, e, prefer(k)) then s.payloads[e.hash].transactions else [];
      if r.error == None {
        StageEntriesBook(hasher, r.layer, entries, prefer, k + 1);
        ProcessAllConcat(s.ledger, mine, Added(hasher, r.layer, entries, prefer, k + 1));
      } else {
        assert mine + [] == mine;
      }
    }
  }

  // -------------------------------------------------------------- a receiver

  /** Effects of a peer that only receives blocks. */
  predicate Receiving(e: Effect) {
    e.StageRaftEntries? || e.CommitBlock? || e.Send? || e.Broadcast? || e.SendRaftAppendEntries?
  }

  /** The transactions of all blocks a trace has staged. */
  function AddedBy(hasher: Hasher, trace: seq<Attempt>, world: nat -> World): seq<SignedTx> {
    if trace == [] then []
    else
      var k := |trace| - 1;
      AddedBy(hasher, trace[..k], world)
      + (if trace[k].effect.StageRaftEntries? then Added(hasher, trace[k].before, trace[k].effect.staged, world(k).env.prefer, 0) else [])
  }

  lemma ChainedFront(hasher: Hasher, trace: seq<Attempt>, world: nat -> World, s: Layer, s': Layer)
    requires trace != [] && Chained(hasher, trace, world, s, s')
    ensures var k := |trace| - 1; Chained(hasher, trace[..k], world, s, trace[k].before) && Follows(hasher, trace, world, s, k) && s' == trace[k].after
  {
    var k := |trace| - 1;
    forall i | 0 <= i < k ensures Follows(hasher, trace[..k], world, s, i) {
      assert Follows(hasher, trace, world, s, i);
    }
    assert Follows(hasher, trace, world, s, k);
  }

  lemma AttemptBooks(hasher: Hasher, a: Attempt, w: World)
    requires Explains(hasher, w, a.effect, a.before, a.after, a.failed) && Receiving(a.effect) && Verified(hasher, a.before.payloads)
    ensures Verified(hasher, a.after.payloads)
    ensures a.after.ledger == if a.effect.StageRaftEntries?
      then ProcessAll(a.before.ledger, Added(hasher, a.before, a.effect.staged, w.env.prefer, 0)) else a.before.ledger
  {
    if a.effect.StageRaftEntries? {
      StageEntriesBook(hasher, a.before, a.effect.staged, w.env.prefer, 0);
    }
  }

  /** A peer that only receives blocks ends with the ledger in which the transactions of all blocks it
      staged are booked in order; if none is refused, with the one that replaying them reaches. */
  lemma {:induction false} ReceiverBooks(hasher: Hasher, trace: seq<Attempt>, world: nat -> World, s: Layer, s': Layer)
    requires Chained(hasher, trace, world, s, s') && Verified(hasher, s.payloads)
    requires forall i :: 0 <= i < |trace| ==> Receiving(trace[i].effect)
    ensures s'.ledger == ProcessAll(s.ledger, AddedBy(hasher, trace, world)) && Booked(s.ledger, AddedBy(hasher, trace, world), s'.ledger)
    ensures Verified(hasher, s'.payloads)
  {
    if trace != [] {
      var k := |trace| - 1;
      ChainedFront(hasher, trace, world, s, s');
      ReceiverBooks(hasher, trace[..k], world, s, trace[k].before);
      AttemptBooks(hasher, trace[k], world(k));
      var earlier := AddedBy(hasher, trace[..k], world);
      if trace[k].effect.StageRaftEntries? {
        ProcessAllConcat(s.ledger, earlier, Added(hasher, trace[k].before, trace[k].effect.staged, world(k).env.prefer, 0));
      } else {
        assert earlier + [] == earlier;
      }
    }
    ProcessAllBooks(s.ledger, AddedBy(hasher, trace, world));
  }

  // ---------------------------------------------------------------- rollback

  /** Rolling back a block right after it was staged restores the ledger: a receiver books a block in
      the order in which it is rolled back.  The block's transactions must be new and must not
      overflow, and nothing else is asked of the state. */
  lemma StageThenRollback(hasher: Hasher, s: Layer, e: Entry, prefer: BlockHash)
    requires Verified(hasher, s.payloads) && Adds(hasher, s, e, prefer)
    requires var txs := s.payloads[e.hash].transactions; Distinct(txs) && NoneApplied(s.ledger, txs) && NoWraps(s.ledger, txs)
    ensures var back := RollbackStaged(hasher, StageEntry(hasher, s, e, prefer).layer, e.hash);
      Restores(s.ledger, back.ledger) && back.lastCompleted == e.hash
  {
    StageEntryBooks(hasher, s, e, prefer);
    LastInFirstOut(s.ledger, s.payloads[e.hash].transactions);
  }

  /** A rollback of a block that is not staged touches neither ledger nor keeper. */
  lemma RollbackOfUnknown(hasher: Hasher, s: Layer, hash: BlockHash)
    requires hash !in s.keeper.staged
    ensures RollbackStaged(hasher, s, hash) == s.(lastCompleted := hash)
  {
  }

  // ---------------------------------------------------------- the last block

  /** The hash of the last block rolled back, or committed without failure. */
  function LastOf(trace: seq<Attempt>, start: BlockHash): BlockHash {
    if trace == [] then start
    else
      var a := trace[|trace| - 1];
      if a.effect.RollbackBlock? || (a.effect.CommitBlock? && !a.failed) then a.effect.hash
      else LastOf(trace[..|trace| - 1], start)
  }

  lemma AttemptLast(hasher: Hasher, a: Attempt, w: World)
    requires Explains(hasher, w, a.effect, a.before, a.after, a.failed) && Verified(hasher, a.before.payloads)
    ensures a.after.lastCompleted ==
      if a.effect.RollbackBlock? || (a.effect.CommitBlock? && !a.failed) then a.effect.hash else a.before.lastCompleted
    ensures Verified(hasher, a.after.payloads)
  {
    if a.effect.StageRaftEntries? {
      StageEntriesBook(hasher, a.before, a.effect.staged, w.env.prefer, 0);
    }
  }

  /** What a peer reports as its last completed block is the last one it rolled back or committed. */
  lemma {:induction false} LastCompleted(hasher: Hasher, trace: seq<Attempt>, world: nat -> World, s: Layer, s': Layer)
    requires Chained(hasher, trace, world, s, s') && Verified(hasher, s.payloads)
    ensures s'.lastCompleted == LastOf(trace, s.lastCompleted) && Verified(hasher, s'.payloads)
  {
    if trace != [] {
      var k := |trace| - 1;
      ChainedFront(hasher, trace, world, s, s');
      LastCompleted(hasher, trace[..k], world, s, trace[k].before);
      AttemptLast(hasher, trace[k], world(k));
    }
  }

  // ------------------------------------------------------------ other sources

  /** A client transaction is taken if and only if its signature holds and it passes the ledger's
      guards; then it is booked once, and pooled or in a new block. */
  lemma ClientBooks(hasher: Hasher, s: Layer, tx: SignedTx, signed: bool)
    ensures StageClient(hasher, s, tx, signed).Some? <==> signed && Passes(s.ledger, [], tx)
    ensures StageClient(hasher, s, tx, signed).Some? ==> var s' := StageClient(hasher, s, tx, signed).value;
      && s'.ledger.applied == s.ledger.applied + {tx.id} && s'.payloads == s.payloads && s'.lastCompleted == s.lastCompleted
      && (InPool(s'.keeper.mempool, tx) || InPool(s'.keeper.pending, tx))
      && forall a :: Total(s'.ledger.accounts, a) + (if Asset(tx) == a && Wraps(s.ledger, tx) then U32_RANGE else 0)
                  == Total(s.ledger.accounts, a) + Mints(s.ledger, tx, a)
  {
    PredictedStart(s.ledger);
    GuardsDecide(s.ledger, [], s.ledger, tx);
    forall a ensures Total(Process(s.ledger, tx).state.accounts, a) + (if Asset(tx) == a && Wraps(s.ledger, tx) then U32_RANGE else 0)
                  == Total(s.ledger.accounts, a) + Mints(s.ledger, tx, a) {
      ProcessTotal(s.ledger, tx, a);
    }
  }

  /** A fetched block is booked if and only if it passes the linkage check, even if it then fails. */
  lemma SyncedBooks(hasher: Hasher, s: Layer, b: BlockFile, env: Env)
    ensures var r := ApplySynced(hasher, s, b, env);
      && (CanBeAdded(s.keeper, b, env.prefer(0)) ==> Booked(s.ledger, b.transactions, r.layer.ledger))
      && (!CanBeAdded(s.keeper, b, env.prefer(0)) ==> r.layer == s)
      && (r.error == None ==> r.layer.lastCompleted == b.hash)
  {
    ProcessAllBooks(s.ledger, b.transactions);
  }
}
