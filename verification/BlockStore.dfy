/** The block keeper as the node holds it: mutable pools, staged blocks and a block directory. */
module BlockStore {
  import opened Types
  import opened Blocks
  import opened BlockNames
  import opened BlockKeeping
  import opened BlockRecovery

  datatype BlockStatus = AddedToMempool | NewBlockCreated(hash: BlockHash)

  ghost predicate Ascending(names: seq<string>) {
    forall i, j :: 0 <= i < j < |names| ==> AtMost(names[i], names[j])
  }

  function BlockNamesIn(entries: seq<string>): seq<string> {
    if entries == [] then []
    else
      var init := BlockNamesIn(entries[..|entries| - 1]);
      var last := entries[|entries| - 1];
      if IsBlockName(last) then init + [last] else init
  }

  lemma {:induction false} BlockNamesInExact(entries: seq<string>, name: string)
    ensures name in BlockNamesIn(entries) <==> name in entries && IsBlockName(name)
  {
    if entries != [] {
      BlockNamesInExact(entries[..|entries| - 1], name);
      assert entries == entries[..|entries| - 1] + [entries[|entries| - 1]];
    }
  }

  lemma AtMostTransitive(a: string, b: string, c: string)
    requires AtMost(a, b) && AtMost(b, c)
    ensures AtMost(a, c)
  {
    if a != b && b != c {
      BeforeTransitive(a, b, c);
    }
  }

  /** Insert a name behind the names not after it. */
  method PushSorted(sorted: seq<string>, name: string) returns (r: seq<string>)
    requires Ascending(sorted)
    ensures Ascending(r) && multiset(r) == multiset(sorted) + multiset{name}
  {
    var p := 0;
    while p < |sorted| && AtMost(sorted[p], name)
      invariant 0 <= p <= |sorted|
      invariant forall i :: 0 <= i < p ==> AtMost(sorted[i], name)
    {
      p := p + 1;
    }
    r := sorted[..p] + [name] + sorted[p..];
    forall j | p <= j < |sorted| ensures AtMost(name, sorted[j]) {
      BeforeTotal(name, sorted[p]);
      if p < j {
        AtMostTransitive(name, sorted[p], sorted[j]);
      }
    }
    assert sorted == sorted[..p] + sorted[p..];
  }

  /** The block names of a directory listing, in byte order. */
  method ListAllBlocks(entries: seq<string>) returns (sorted: seq<string>)
    ensures Ascending(sorted) && multiset(sorted) == multiset(BlockNamesIn(entries))
  {
    sorted := [];
    var i := 0;
    while i < |entries|
      invariant 0 <= i <= |entries|
      invariant Ascending(sorted) && multiset(sorted) == multiset(BlockNamesIn(entries[..i]))
    {
      assert entries[..i + 1][..i] == entries[..i];
      if IsBlockName(entries[i]) {
        sorted := PushSorted(sorted, entries[i]);
      }
      i := i + 1;
    }
    assert entries[..i] == entries;
  }

  lemma SameElements(a: seq<string>, b: seq<string>)
    requires multiset(a) == multiset(b)
    ensures forall x :: x in a <==> x in b
  {
    forall x ensures x in a <==> x in b {
      assert x in a <==> x in multiset(a);
      assert x in b <==> x in multiset(b);
    }
  }

  class BlockKeeper {
    const hasher: Hasher
    const mempoolSize: nat
    var mempool: map<TxId, SignedTx>
    var pending: map<TxId, SignedTx>
    var staged: map<BlockHash, BlockFile>
    var height: nat
    var lastHash: BlockHash
    var files: map<string, Payload>

    function State(): Keeper
      reads this
    {
      Keeper(mempoolSize, mempool, pending, staged, height, lastHash, files)
    }

    /** Open a directory: `entries` is its listing, in whatever order the system returns it. */
    constructor (hasher: Hasher, mempoolSize: nat, entries: seq<string>, files: map<string, Payload>)
      requires forall name :: name in files <==> name in entries
      ensures this.hasher == hasher
      ensures State() == Started(mempoolSize, height, lastHash, files)
      ensures RecoversTo(files, height, lastHash)
    {
      this.hasher, this.mempoolSize, this.files := hasher, mempoolSize, files;
      mempool, pending, staged := map[], map[], map[];
      var sorted := ListAllBlocks(entries);
      SameElements(sorted, BlockNamesIn(entries));
      forall name ensures name in sorted <==> name in files && IsBlockName(name) {
        BlockNamesInExact(entries, name);
      }
      if sorted == [] {
        height, lastHash := 0, EMPTY_HASH;
      } else {
        var last := sorted[|sorted| - 1];
        assert last in sorted;
        assert IsLatest(files, last);
        if files[last].Encoded? {
          height, lastHash := IndexOf(last), files[last].block.hash;
        } else {
          height, lastHash := 0, EMPTY_HASH;
        }
      }
    }

    method AddTransaction(tx: SignedTx) returns (status: BlockStatus)
      modifies this`mempool, this`pending, this`staged
      ensures State() == Add(hasher, old(State()), tx)
      ensures status.NewBlockCreated? <==> |old(mempool)[tx.id := tx]| >= mempoolSize
      ensures status.NewBlockCreated? ==> mempool == map[] && status.hash in staged && staged[status.hash].hash == status.hash
      ensures status.NewBlockCreated? ==> status.hash == hasher(ById(old(mempool)[tx.id := tx]), lastHash)
    {
      mempool := mempool[tx.id := tx];
      if |mempool| >= mempoolSize {
        var transactions := mempool;
        mempool := map[];
        var hash := CreateNewBlock(transactions);
        status := NewBlockCreated(hash);
      } else {
        status := AddedToMempool;
      }
    }

    method CreateNewBlock(pool: map<TxId, SignedTx>) returns (hash: BlockHash)
      modifies this`pending, this`staged
      ensures pending == old(pending) + pool
      ensures var b := CreateBlock(hasher, ById(pool), lastHash, height + 1);
        hash == b.hash && staged == old(staged)[hash := b]
    {
      var block := CreateBlock(hasher, ById(pool), lastHash, height + 1);
      hash := block.hash;
      staged := staged[hash := block];
      pending := pending + pool;
    }

    method AddExternalBlock(block: BlockFile) returns (ok: bool)
      modifies this`mempool, this`pending, this`staged
      ensures ok <==> VerifyBlock(hasher, block)
      ensures var r := Stage(hasher, old(State()), block); State() == if r.Some? then r.value else old(State())
    {
      if !VerifyBlock(hasher, block) {
        return false;
      }
      var txs := block.transactions;
      var i := 0;
      while i < |txs|
        invariant 0 <= i <= |txs|
        invariant State() == AbsorbAll(old(State()), txs[..i])
      {
        assert txs[..i + 1][..i] == txs[..i];
        if txs[i].id in mempool {
          var tx := mempool[txs[i].id];
          mempool := mempool - {txs[i].id};
          pending := pending[tx.id := tx];
        }
        i := i + 1;
      }
      assert txs[..i] == txs;
      staged := staged[block.hash := block];
      ok := true;
    }

    method CommitBlock(hash: BlockHash, writes: bool) returns (ok: bool)
      modifies this`pending, this`staged, this`height, this`lastHash, this`files
      ensures ok <==> hash in old(staged) && writes
      ensures var r := Commit(old(State()), hash, writes); State() == if r.Some? then r.value else old(State())
    {
      if hash !in staged || !writes {
        return false;
      }
      var block := staged[hash];
      files := files[Name(height + 1) := Encoded(block)];
      height := height + 1;
      lastHash := hash;
      var i := 0;
      while i < |block.transactions|
        invariant 0 <= i <= |block.transactions|
        invariant staged == old(staged) && height == old(height) + 1 && lastHash == hash
        invariant files == old(files)[Name(height) := Encoded(block)]
        invariant pending == old(pending) - Ids(block.transactions[..i])
      {
        pending := pending - {block.transactions[i].id};
        assert Ids(block.transactions[..i + 1]) == Ids(block.transactions[..i]) + {block.transactions[i].id};
        i := i + 1;
      }
      assert block.transactions[..i] == block.transactions;
      staged := staged - {hash};
      ok := true;
    }

    method RollbackBlock(hash: BlockHash) returns (ok: bool)
      modifies this`mempool, this`pending, this`staged
      ensures ok <==> hash in old(staged)
      ensures var r := Rollback(hasher, old(State()), hash); State() == if r.Some? then r.value else old(State())
    {
      if hash !in staged {
        return false;
      }
      var txs := staged[hash].transactions;
      staged := staged - {hash};
      ghost var start := State();
      var i := 0;
      while i < |txs|
        invariant 0 <= i <= |txs|
        invariant State() == ReadmitAll(hasher, start, txs[..i])
      {
        assert txs[..i + 1][..i] == txs[..i];
        if txs[i].id in pending {
          var tx := pending[txs[i].id];
          pending := pending - {txs[i].id};
          var _ := AddTransaction(tx);
        }
        i := i + 1;
      }
      assert txs[..i] == txs;
      ok := true;
    }

    /** `prefer` is the staged block a search by index would meet first. */
    method BlockCanBeAdded(block: BlockFile, prefer: BlockHash) returns (ok: bool)
      ensures ok <==> CanBeAdded(State(), block, prefer)
      ensures ok ==> Extends(State(), block)
    {
      if block.index == 0 {
        return false;
      }
      if block.hash in staged {
        return false;
      }
      if height == block.index - 1 {
        return block.previousHash == lastHash;
      }
      var found := FoundBelow(State(), block.index, prefer);
      ok := found.Some? && block.previousHash == found.value.hash;
    }
  }
}
