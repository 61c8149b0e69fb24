/** Where a transaction lives: the mempool, a staged block's pending set, or a block on disk.
    Each operation of the block keeper as a function on that state. */
module BlockKeeping {
  import opened Types
  import opened Blocks
  import opened BlockNames

  /** `files` is the block directory by file name; other files may share it. */
  datatype Keeper = Keeper(
    size: nat,
    mempool: map<TxId, SignedTx>,
    pending: map<TxId, SignedTx>,
    staged: map<BlockHash, BlockFile>,
    height: nat,
    lastHash: BlockHash,
    files: map<string, Payload>)

  // ------------------------------------------------------- transactions by id

  ghost predicate IsLeast(s: set<nat>, k: nat) {
    k in s && forall j :: j in s ==> k <= j
  }

  lemma {:induction false} LeastBelow(s: set<nat>, x: nat)
    requires x in s
    ensures exists k :: IsLeast(s, k)
    decreases x
  {
    if y :| y in s && y < x {
      LeastBelow(s, y);
    } else {
      assert IsLeast(s, x);
    }
  }

  function Least(s: set<nat>): (k: nat)
    requires s != {}
    ensures IsLeast(s, k)
  {
    assert exists k :: k in s && forall j :: j in s ==> k <= j by {
      var x :| x in s;
      LeastBelow(s, x);
      var k :| IsLeast(s, k);
    }
    var k :| k in s && forall j :: j in s ==> k <= j;
    k
  }

  /** The transactions of a pool, ordered by id. */
  function ById(pool: map<TxId, SignedTx>): seq<SignedTx> {
    if pool == map[] then []
    else
      var k := Least(pool.Keys);
      [pool[k]] + ById(pool - {k})
  }

  ghost predicate Keyed(pool: map<TxId, SignedTx>) {
    forall id :: id in pool ==> pool[id].id == id
  }

  lemma {:induction false} ByIdElements(pool: map<TxId, SignedTx>, tx: SignedTx)
    requires Keyed(pool)
    ensures tx in ById(pool) <==> tx.id in pool && pool[tx.id] == tx
    decreases |pool|
  {
    if pool != map[] {
      var k := Least(pool.Keys);
      ByIdElements(pool - {k}, tx);
    }
  }

  lemma {:induction false} ByIdSorted(pool: map<TxId, SignedTx>)
    requires Keyed(pool)
    ensures forall i, j :: 0 <= i < j < |ById(pool)| ==> ById(pool)[i].id < ById(pool)[j].id
    decreases |pool|
  {
    if pool != map[] {
      var k := Least(pool.Keys);
      ByIdSorted(pool - {k});
      var rest := ById(pool - {k});
      forall j | 0 <= j < |rest| ensures k < rest[j].id {
        ByIdElements(pool - {k}, rest[j]);
        assert rest[j].id in pool.Keys;
      }
    }
  }

  /** A new block lists every pooled transaction once, in increasing id order. */
  lemma ByIdExact(pool: map<TxId, SignedTx>)
    requires Keyed(pool)
    ensures forall tx :: tx in ById(pool) <==> tx.id in pool && pool[tx.id] == tx
    ensures forall i, j :: 0 <= i < j < |ById(pool)| ==> ById(pool)[i].id < ById(pool)[j].id
  {
    forall tx ensures tx in ById(pool) <==> tx.id in pool && pool[tx.id] == tx {
      ByIdElements(pool, tx);
    }
    ByIdSorted(pool);
  }

  // --------------------------------------------------------------- operations

  /** Turn the whole mempool into a staged block on top of the last committed one. */
  function NewBlock(hasher: Hasher, k: Keeper): Keeper {
    var b := CreateBlock(hasher, ById(k.mempool), k.lastHash, k.height + 1);
    k.(mempool := map[], pending := k.pending + k.mempool, staged := k.staged[b.hash := b])
  }

  function Add(hasher: Hasher, k: Keeper, tx: SignedTx): Keeper {
    var k1 := k.(mempool := k.mempool[tx.id := tx]);
    if |k1.mempool| >= k1.size then NewBlock(hasher, k1) else k1
  }

  /** A transaction that turns up in someone else's block leaves the mempool. */
  function Absorb(k: Keeper, tx: SignedTx): Keeper {
    if tx.id in k.mempool
    then k.(mempool := k.mempool - {tx.id}, pending := k.pending[k.mempool[tx.id].id := k.mempool[tx.id]])
    else k
  }

  function AbsorbAll(k: Keeper, txs: seq<SignedTx>): Keeper {
    if txs == [] then k else Absorb(AbsorbAll(k, txs[..|txs| - 1]), txs[|txs| - 1])
  }

  /** Only commits touch the disk. */
  ghost predicate SameDisk(k: Keeper, k': Keeper) {
    k'.files == k.files && k'.height == k.height && k'.lastHash == k.lastHash
  }

  lemma {:induction false} AbsorbDisk(k: Keeper, txs: seq<SignedTx>)
    ensures SameDisk(k, AbsorbAll(k, txs)) && AbsorbAll(k, txs).staged == k.staged
  {
    if txs != [] {
      AbsorbDisk(k, txs[..|txs| - 1]);
    }
  }

  function Stage(hasher: Hasher, k: Keeper, b: BlockFile): Option<Keeper> {
    if !VerifyBlock(hasher, b) then None
    else
      var k1 := AbsorbAll(k, b.transactions);
      Some(k1.(staged := k1.staged[b.hash := b]))
  }

  /** `writes` is whether the file system accepts the file. */
  function Commit(k: Keeper, hash: BlockHash, writes: bool): Option<Keeper> {
    if hash !in k.staged || !writes then None
    else
      Some(k.(files := k.files[Name(k.height + 1) := Encoded(k.staged[hash])],
              height := k.height + 1, lastHash := hash,
              pending := k.pending - Ids(k.staged[hash].transactions),
              staged := k.staged - {hash}))
  }

  function Below(k: Keeper, index: nat): (r: set<BlockHash>)
    ensures forall h :: h in r <==> h in k.staged && k.staged[h].index + 1 == index
  {
    set h | h in k.staged && k.staged[h].index + 1 == index
  }

  /** The staged block just below an index; when there are several, any may be met first in the
      hash map, and `prefer` says which. */
  function FoundBelow(k: Keeper, index: nat, prefer: BlockHash): Option<BlockFile> {
    var candidates := Below(k, index);
    if candidates == {} then None
    else if prefer in candidates then Some(k.staged[prefer])
    else Some(k.staged[Least(candidates)])
  }

  /** Whether a block extends the committed chain, or the staged block found below it. */
  predicate CanBeAdded(k: Keeper, b: BlockFile, prefer: BlockHash) {
    && b.index != 0 && b.hash !in k.staged
    && (if k.height == b.index - 1 then b.previousHash == k.lastHash
        else var below := FoundBelow(k, b.index, prefer); below.Some? && b.previousHash == below.value.hash)
  }

  /** Whether some order of the hash map lets the block through. */
  ghost predicate Extends(k: Keeper, b: BlockFile) {
    && b.index >= 1 && b.hash !in k.staged
    && (if k.height + 1 == b.index then b.previousHash == k.lastHash
        else exists h :: h in k.staged && k.staged[h].index + 1 == b.index && b.previousHash == k.staged[h].hash)
  }

  /** A block can be added in some order exactly when it extends the chain or some staged block
      below it, and in every order when that staged block is the only one. */
  lemma CanBeAddedMeaning(k: Keeper, b: BlockFile)
    ensures Extends(k, b) <==> exists prefer :: CanBeAdded(k, b, prefer)
    ensures Extends(k, b) && (forall h, g :: h in k.staged && g in k.staged && k.staged[h].index + 1 == b.index == k.staged[g].index + 1 ==> h == g)
      ==> forall prefer :: CanBeAdded(k, b, prefer)
  {
    if Extends(k, b) && k.height + 1 != b.index {
      var h :| h in k.staged && k.staged[h].index + 1 == b.index && b.previousHash == k.staged[h].hash;
      assert h in Below(k, b.index);
      assert CanBeAdded(k, b, h);
    } else if Extends(k, b) {
      assert CanBeAdded(k, b, 0);
    }
    forall prefer | CanBeAdded(k, b, prefer) ensures Extends(k, b) {
    }
  }

  /** A pending transaction goes back to the mempool, which may fill up and become a block. */
  function Readmit(hasher: Hasher, k: Keeper, tx: SignedTx): Keeper {
    if tx.id in k.pending then Add(hasher, k.(pending := k.pending - {tx.id}), k.pending[tx.id]) else k
  }

  function ReadmitAll(hasher: Hasher, k: Keeper, txs: seq<SignedTx>): Keeper {
    if txs == [] then k else Readmit(hasher, ReadmitAll(hasher, k, txs[..|txs| - 1]), txs[|txs| - 1])
  }

  function Rollback(hasher: Hasher, k: Keeper, hash: BlockHash): Option<Keeper> {
    if hash !in k.staged then None
    else Some(ReadmitAll(hasher, k.(staged := k.staged - {hash}), k.staged[hash].transactions))
  }

  datatype Op = AddTx(tx: SignedTx) | StageBlock(block: BlockFile) | CommitBlock(hash: BlockHash, writes: bool) | RollbackBlock(hash: BlockHash)

  /** A refused operation changes nothing. */
  function Step(hasher: Hasher, k: Keeper, op: Op): Keeper {
    var r := match op
      case AddTx(tx) => Some(Add(hasher, k, tx))
      case StageBlock(b) => Stage(hasher, k, b)
      case CommitBlock(h, writes) => Commit(k, h, writes)
      case RollbackBlock(h) => Rollback(hasher, k, h);
    if r.Some? then r.value else k
  }

  function Run(hasher: Hasher, k: Keeper, ops: seq<Op>): Keeper {
    if ops == [] then k else Step(hasher, Run(hasher, k, ops[..|ops| - 1]), ops[|ops| - 1])
  }

  /** A keeper that has just started, on any directory. */
  function Started(size: nat, height: nat, lastHash: BlockHash, files: map<string, Payload>): Keeper {
    Keeper(size, map[], map[], map[], height, lastHash, files)
  }

  // --------------------------------------------------------- nothing is lost

  ghost predicate InPool(pool: map<TxId, SignedTx>, tx: SignedTx) {
    tx.id in pool && pool[tx.id] == tx
  }

  ghost predicate OnDisk(k: Keeper, i: nat, tx: SignedTx) {
    && 1 <= i <= k.height && Name(i) in k.files
    && k.files[Name(i)].Encoded? && tx in k.files[Name(i)].block.transactions
  }

  ghost predicate Located(k: Keeper, tx: SignedTx) {
    InPool(k.mempool, tx) || InPool(k.pending, tx) || exists i :: OnDisk(k, i, tx)
  }

  /** Ids are signatures: `who` tells which transaction an id belongs to. */
  type Register = TxId -> SignedTx

  ghost predicate Genuine(who: Register, tx: SignedTx) {
    tx == who(tx.id)
  }

  ghost predicate GenuinePool(who: Register, pool: map<TxId, SignedTx>) {
    forall id :: id in pool ==> pool[id].id == id && Genuine(who, pool[id])
  }

  ghost predicate GenuineBlock(who: Register, b: BlockFile) {
    forall i :: 0 <= i < |b.transactions| ==> Genuine(who, b.transactions[i])
  }

  ghost predicate GenuineKeeper(who: Register, k: Keeper) {
    && GenuinePool(who, k.mempool) && GenuinePool(who, k.pending)
    && forall h :: h in k.staged ==> GenuineBlock(who, k.staged[h])
  }

  ghost predicate GenuineOp(who: Register, op: Op) {
    match op
    case AddTx(tx) => Genuine(who, tx)
    case StageBlock(b) => GenuineBlock(who, b)
    case _ => true
  }

  lemma NewBlockGenuine(who: Register, hasher: Hasher, k: Keeper)
    requires GenuineKeeper(who, k)
    ensures GenuineKeeper(who, NewBlock(hasher, k))
  {
    var b := CreateBlock(hasher, ById(k.mempool), k.lastHash, k.height + 1);
    forall i | 0 <= i < |b.transactions| ensures Genuine(who, b.transactions[i]) {
      ByIdElements(k.mempool, b.transactions[i]);
    }
    assert GenuineBlock(who, b);
  }

  lemma NewBlockLocates(who: Register, hasher: Hasher, k: Keeper, t: SignedTx)
    requires GenuineKeeper(who, k) && Genuine(who, t) && Located(k, t)
    ensures Located(NewBlock(hasher, k), t)
  {
    var k' := NewBlock(hasher, k);
    if InPool(k.mempool, t) || InPool(k.pending, t) {
      assert InPool(k'.pending, t);
    } else {
      var i :| OnDisk(k, i, t);
      assert OnDisk(k', i, t);
    }
  }

  lemma InsertLocates(who: Register, k: Keeper, tx: SignedTx, t: SignedTx)
    requires GenuineKeeper(who, k) && Genuine(who, tx) && Genuine(who, t) && (Located(k, t) || t == tx)
    ensures Located(k.(mempool := k.mempool[tx.id := tx]), t)
  {
    var k' := k.(mempool := k.mempool[tx.id := tx]);
    if t == tx || InPool(k.mempool, t) {
      assert InPool(k'.mempool, t);
    } else if !InPool(k.pending, t) {
      var i :| OnDisk(k, i, t);
      assert OnDisk(k', i, t);
    }
  }

  lemma InsertGenuine(who: Register, k: Keeper, tx: SignedTx)
    requires GenuineKeeper(who, k) && Genuine(who, tx)
    ensures GenuineKeeper(who, k.(mempool := k.mempool[tx.id := tx]))
  {
  }

  /** An admitted transaction is located afterwards, and whatever was located stays so. */
  lemma AddLocates(who: Register, hasher: Hasher, k: Keeper, tx: SignedTx, t: SignedTx)
    requires GenuineKeeper(who, k) && Genuine(who, tx)
    ensures GenuineKeeper(who, Add(hasher, k, tx))
    ensures Genuine(who, t) && (Located(k, t) || t == tx) ==> Located(Add(hasher, k, tx), t)
  {
    var k1 := k.(mempool := k.mempool[tx.id := tx]);
    InsertGenuine(who, k, tx);
    NewBlockGenuine(who, hasher, k1);
    if Genuine(who, t) && (Located(k, t) || t == tx) {
      InsertLocates(who, k, tx, t);
      NewBlockLocates(who, hasher, k1, t);
    }
  }

  lemma {:induction false} AbsorbLocates(who: Register, k: Keeper, txs: seq<SignedTx>, t: SignedTx)
    requires GenuineKeeper(who, k)
    ensures var k' := AbsorbAll(k, txs);
      && GenuineKeeper(who, k') && k'.staged == k.staged && k'.files == k.files && k'.height == k.height
      && (InPool(k.mempool, t) || InPool(k.pending, t) ==> InPool(k'.mempool, t) || InPool(k'.pending, t))
  {
    if txs != [] {
      AbsorbLocates(who, k, txs[..|txs| - 1], t);
    }
  }

  lemma CommitLocates(who: Register, k: Keeper, hash: BlockHash, t: SignedTx)
    requires GenuineKeeper(who, k) && hash in k.staged
    ensures var k' := Commit(k, hash, true).value;
      GenuineKeeper(who, k') && (Located(k, t) && Genuine(who, t) ==> Located(k', t))
  {
    var k' := Commit(k, hash, true).value;
    var b := k.staged[hash];
    if Located(k, t) && Genuine(who, t) && !InPool(k.mempool, t) {
      if InPool(k.pending, t) {
        if t.id in Ids(b.transactions) {
          var i :| 0 <= i < |b.transactions| && b.transactions[i].id == t.id;
          assert Genuine(who, b.transactions[i]);
          assert OnDisk(k', k'.height, t);
        } else {
          assert InPool(k'.pending, t);
        }
      } else {
        var i :| OnDisk(k, i, t);
        if Name(i) == Name(k.height + 1) {
          NameInjective(i, k.height + 1);
        }
        assert OnDisk(k', i, t);
      }
    }
  }

  lemma ReadmitLocates(who: Register, hasher: Hasher, k: Keeper, tx: SignedTx, t: SignedTx)
    requires GenuineKeeper(who, k)
    ensures GenuineKeeper(who, Readmit(hasher, k, tx))
    ensures Located(k, t) && Genuine(who, t) ==> Located(Readmit(hasher, k, tx), t)
  {
    if tx.id in k.pending {
      var k1 := k.(pending := k.pending - {tx.id});
      AddLocates(who, hasher, k1, k.pending[tx.id], t);
      if Located(k, t) && Genuine(who, t) && t.id != tx.id {
        if InPool(k.pending, t) {
          assert InPool(k1.pending, t);
        } else if !InPool(k.mempool, t) {
          var i :| OnDisk(k, i, t);
          assert OnDisk(k1, i, t);
        }
      }
    }
  }

  lemma {:induction false} ReadmitAllLocates(who: Register, hasher: Hasher, k: Keeper, txs: seq<SignedTx>, t: SignedTx)
    requires GenuineKeeper(who, k)
    ensures GenuineKeeper(who, ReadmitAll(hasher, k, txs))
    ensures Located(k, t) && Genuine(who, t) ==> Located(ReadmitAll(hasher, k, txs), t)
  {
    if txs != [] {
      ReadmitAllLocates(who, hasher, k, txs[..|txs| - 1], t);
      ReadmitLocates(who, hasher, ReadmitAll(hasher, k, txs[..|txs| - 1]), txs[|txs| - 1], t);
    }
  }

  lemma StageLocates(who: Register, hasher: Hasher, k: Keeper, b: BlockFile, t: SignedTx)
    requires GenuineKeeper(who, k) && GenuineBlock(who, b) && VerifyBlock(hasher, b)
    ensures var k' := Stage(hasher, k, b).value; GenuineKeeper(who, k') && (Located(k, t) ==> Located(k', t))
  {
    AbsorbLocates(who, k, b.transactions, t);
    var k' := Stage(hasher, k, b).value;
    if Located(k, t) && !InPool(k.mempool, t) && !InPool(k.pending, t) {
      var i :| OnDisk(k, i, t);
      assert OnDisk(k', i, t);
    }
  }

  lemma RollbackLocates(who: Register, hasher: Hasher, k: Keeper, hash: BlockHash, t: SignedTx)
    requires GenuineKeeper(who, k) && hash in k.staged
    ensures var k' := Rollback(hasher, k, hash).value; GenuineKeeper(who, k') && (Located(k, t) && Genuine(who, t) ==> Located(k', t))
  {
    var k1 := k.(staged := k.staged - {hash});
    if Located(k, t) && !InPool(k.mempool, t) && !InPool(k.pending, t) {
      var i :| OnDisk(k, i, t);
      assert OnDisk(k1, i, t);
    }
    ReadmitAllLocates(who, hasher, k1, k.staged[hash].transactions, t);
  }

  lemma StepLocates(who: Register, hasher: Hasher, k: Keeper, op: Op, t: SignedTx)
    requires GenuineKeeper(who, k) && GenuineOp(who, op)
    ensures GenuineKeeper(who, Step(hasher, k, op))
    ensures (Located(k, t) || op == AddTx(t)) && Genuine(who, t) ==> Located(Step(hasher, k, op), t)
  {
    match op
    case AddTx(tx) => AddLocates(who, hasher, k, tx, t);
    case StageBlock(b) => if VerifyBlock(hasher, b) { StageLocates(who, hasher, k, b, t); }
    case CommitBlock(h, writes) => if h in k.staged && writes { CommitLocates(who, k, h, t); }
    case RollbackBlock(h) => if h in k.staged { RollbackLocates(who, hasher, k, h, t); }
  }

  /** No accepted transaction is lost, over any interleaving of admissions, external blocks,
      commits (some failing to write) and rollbacks. */
  lemma {:induction false} NothingLost(who: Register, hasher: Hasher, size: nat, height: nat, lastHash: BlockHash, files: map<string, Payload>, ops: seq<Op>, t: SignedTx)
    requires forall i :: 0 <= i < |ops| ==> GenuineOp(who, ops[i])
    ensures var k := Run(hasher, Started(size, height, lastHash, files), ops);
      GenuineKeeper(who, k) && (AddTx(t) in ops ==> Located(k, t))
  {
    if ops != [] {
      var n := |ops| - 1;
      NothingLost(who, hasher, size, height, lastHash, files, ops[..n], t);
      var k := Run(hasher, Started(size, height, lastHash, files), ops[..n]);
      assert ops == ops[..n] + [ops[n]];
      assert AddTx(t) in ops ==> AddTx(t) in ops[..n] || ops[n] == AddTx(t);
      if AddTx(t) in ops {
        var i :| 0 <= i < |ops| && ops[i] == AddTx(t);
        assert GenuineOp(who, ops[i]);
      }
      StepLocates(who, hasher, k, ops[n], t);
    }
  }

  // ---------------------------------------------- pending means staged

  ghost predicate CollisionFree(hasher: Hasher) {
    forall txs, p, txs', p' :: hasher(txs, p) == hasher(txs', p') ==> txs == txs' && p == p'
  }

  ghost predicate Lists(b: BlockFile, id: TxId) {
    exists i :: 0 <= i < |b.transactions| && b.transactions[i].id == id
  }

  ghost predicate Staged(staged: map<BlockHash, BlockFile>, id: TxId) {
    exists h :: h in staged && Lists(staged[h], id)
  }

  ghost predicate VerifiedStage(hasher: Hasher, staged: map<BlockHash, BlockFile>) {
    forall h :: h in staged ==> staged[h].hash == h && VerifyBlock(hasher, staged[h])
  }

  /** Every pending transaction is in a staged block, apart from those still to be readmitted. */
  ghost predicate Covered(k: Keeper, except: set<TxId>) {
    Keyed(k.mempool) && forall id :: id in k.pending ==> id in except || Staged(k.staged, id)
  }

  lemma StagedInsert(hasher: Hasher, staged: map<BlockHash, BlockFile>, b: BlockFile, id: TxId)
    requires CollisionFree(hasher) && VerifiedStage(hasher, staged) && VerifyBlock(hasher, b)
    requires Staged(staged, id) || Lists(b, id)
    ensures Staged(staged[b.hash := b], id)
  {
    var staged' := staged[b.hash := b];
    if Lists(b, id) {
      assert Lists(staged'[b.hash], id);
    } else {
      var h :| h in staged && Lists(staged[h], id);
      assert staged'[h].transactions == staged[h].transactions;
      assert Lists(staged'[h], id);
    }
  }

  lemma NewBlockLists(hasher: Hasher, k: Keeper, b: BlockFile, id: TxId)
    requires Keyed(k.mempool) && b.transactions == ById(k.mempool) && id in k.mempool
    ensures Lists(b, id)
  {
    ByIdElements(k.mempool, k.mempool[id]);
  }

  lemma NewBlockCovers(hasher: Hasher, k: Keeper, except: set<TxId>)
    requires CollisionFree(hasher) && VerifiedStage(hasher, k.staged) && Covered(k, except)
    ensures VerifiedStage(hasher, NewBlock(hasher, k).staged) && Covered(NewBlock(hasher, k), except)
  {
    var k' := NewBlock(hasher, k);
    var b := CreateBlock(hasher, ById(k.mempool), k.lastHash, k.height + 1);
    forall id | id in k'.pending && id !in except ensures Staged(k'.staged, id) {
      if id in k.mempool {
        NewBlockLists(hasher, k, b, id);
      }
      StagedInsert(hasher, k.staged, b, id);
    }
  }

  lemma AddCovers(hasher: Hasher, k: Keeper, tx: SignedTx, except: set<TxId>)
    requires CollisionFree(hasher) && VerifiedStage(hasher, k.staged) && Covered(k, except)
    ensures VerifiedStage(hasher, Add(hasher, k, tx).staged) && Covered(Add(hasher, k, tx), except)
  {
    NewBlockCovers(hasher, k.(mempool := k.mempool[tx.id := tx]), except);
  }

  /** Readmitting one transaction settles it: it is no longer an exception. */
  lemma ReadmitCovers(hasher: Hasher, k: Keeper, tx: SignedTx, except: set<TxId>)
    requires CollisionFree(hasher) && VerifiedStage(hasher, k.staged) && Covered(k, except + {tx.id})
    ensures var k' := Readmit(hasher, k, tx); VerifiedStage(hasher, k'.staged) && Covered(k', except)
  {
    if tx.id in k.pending {
      AddCovers(hasher, k.(pending := k.pending - {tx.id}), k.pending[tx.id], except);
    }
  }

  lemma {:induction false} ReadmitAllCovers(hasher: Hasher, k: Keeper, txs: seq<SignedTx>, n: nat)
    requires CollisionFree(hasher) && VerifiedStage(hasher, k.staged) && Covered(k, Ids(txs)) && n <= |txs|
    ensures var k' := ReadmitAll(hasher, k, txs[..n]); VerifiedStage(hasher, k'.staged) && Covered(k', Ids(txs[n..]))
  {
    if n == 0 {
      assert txs[0..] == txs;
    } else {
      ReadmitAllCovers(hasher, k, txs, n - 1);
      assert txs[..n][..n - 1] == txs[..n - 1];
      assert Ids(txs[n - 1..]) == Ids(txs[n..]) + {txs[n - 1].id};
      ReadmitCovers(hasher, ReadmitAll(hasher, k, txs[..n - 1]), txs[n - 1], Ids(txs[n..]));
    }
  }

  lemma RollbackCovers(hasher: Hasher, k: Keeper, hash: BlockHash)
    requires CollisionFree(hasher) && VerifiedStage(hasher, k.staged) && Covered(k, {}) && hash in k.staged
    ensures var k' := Rollback(hasher, k, hash).value; VerifiedStage(hasher, k'.staged) && Covered(k', {})
  {
    var b := k.staged[hash];
    var k1 := k.(staged := k.staged - {hash});
    forall id | id in k1.pending && id !in Ids(b.transactions) ensures Staged(k1.staged, id) {
      var h :| h in k.staged && Lists(k.staged[h], id);
      assert Lists(k1.staged[h], id);
    }
    ReadmitAllCovers(hasher, k1, b.transactions, |b.transactions|);
    assert b.transactions[..|b.transactions|] == b.transactions;
    assert Ids(b.transactions[|b.transactions|..]) == {};
  }

  lemma CommitCovers(hasher: Hasher, k: Keeper, hash: BlockHash)
    requires VerifiedStage(hasher, k.staged) && Covered(k, {}) && hash in k.staged
    ensures var k' := Commit(k, hash, true).value; VerifiedStage(hasher, k'.staged) && Covered(k', {})
  {
    var k' := Commit(k, hash, true).value;
    forall id | id in k'.pending ensures Staged(k'.staged, id) {
      var h :| h in k.staged && Lists(k.staged[h], id);
      assert Lists(k'.staged[h], id);
    }
  }

  /** Whatever an external block draws out of the mempool, it lists. */
  lemma {:induction false} AbsorbCovers(k: Keeper, txs: seq<SignedTx>)
    requires Keyed(k.mempool)
    ensures var k' := AbsorbAll(k, txs);
      && k'.staged == k.staged && Keyed(k'.mempool)
      && (forall id :: id in k'.pending ==> id in k.pending || id in Ids(txs))
  {
    if txs != [] {
      AbsorbCovers(k, txs[..|txs| - 1]);
      assert forall id :: id in Ids(txs[..|txs| - 1]) ==> id in Ids(txs);
    }
  }

  lemma StageCovers(hasher: Hasher, k: Keeper, b: BlockFile)
    requires CollisionFree(hasher) && VerifiedStage(hasher, k.staged) && Covered(k, {}) && VerifyBlock(hasher, b)
    ensures var k' := Stage(hasher, k, b).value; VerifiedStage(hasher, k'.staged) && Covered(k', {})
  {
    AbsorbCovers(k, b.transactions);
    var k' := Stage(hasher, k, b).value;
    forall id | id in k'.pending ensures Staged(k'.staged, id) {
      assert id in Ids(b.transactions) ==> Lists(b, id);
      StagedInsert(hasher, k.staged, b, id);
    }
  }

  lemma StepCovers(hasher: Hasher, k: Keeper, op: Op)
    requires CollisionFree(hasher) && VerifiedStage(hasher, k.staged) && Covered(k, {})
    ensures var k' := Step(hasher, k, op); VerifiedStage(hasher, k'.staged) && Covered(k', {})
  {
    match op
    case AddTx(tx) => AddCovers(hasher, k, tx, {});
    case StageBlock(b) => if VerifyBlock(hasher, b) { StageCovers(hasher, k, b); }
    case CommitBlock(h, writes) => if h in k.staged && writes { CommitCovers(hasher, k, h); }
    case RollbackBlock(h) => if h in k.staged { RollbackCovers(hasher, k, h); }
  }

  /** With a collision-free hash, every pending transaction is listed by some staged block. */
  lemma {:induction false} PendingIsStaged(hasher: Hasher, size: nat, height: nat, lastHash: BlockHash, files: map<string, Payload>, ops: seq<Op>)
    requires CollisionFree(hasher)
    ensures var k := Run(hasher, Started(size, height, lastHash, files), ops);
      && VerifiedStage(hasher, k.staged) && Covered(k, {})
      && forall id :: id in k.pending ==> Staged(k.staged, id)
  {
    if ops != [] {
      var n := |ops| - 1;
      PendingIsStaged(hasher, size, height, lastHash, files, ops[..n]);
      StepCovers(hasher, Run(hasher, Started(size, height, lastHash, files), ops[..n]), ops[n]);
    }
  }

  // ----------------------------------------------------------- block creation

  /** A block created here verifies and can be added by every peer whose chain stands at the same
      point and has not staged it yet. */
  lemma NewBlockIsAddable(hasher: Hasher, k: Keeper, peer: Keeper, hash: BlockHash, prefer: BlockHash)
    requires peer.height == k.height && peer.lastHash == k.lastHash
    requires hash == hasher(ById(k.mempool), k.lastHash) && hash !in peer.staged
    ensures var k' := NewBlock(hasher, k);
      hash in k'.staged && VerifyBlock(hasher, k'.staged[hash]) && CanBeAdded(peer, k'.staged[hash], prefer)
  {
  }

  /** The mempool stays below its size. */
  ghost predicate Roomy(k: Keeper) {
    if k.size == 0 then k.mempool == map[] else |k.mempool| < k.size
  }

  lemma {:induction false} AbsorbRoomy(k: Keeper, txs: seq<SignedTx>)
    requires Roomy(k)
    ensures Roomy(AbsorbAll(k, txs)) && AbsorbAll(k, txs).size == k.size
  {
    if txs != [] {
      var k1 := AbsorbAll(k, txs[..|txs| - 1]);
      AbsorbRoomy(k, txs[..|txs| - 1]);
      var id := txs[|txs| - 1].id;
      if id in k1.mempool {
        assert (k1.mempool - {id}).Keys == k1.mempool.Keys - {id};
        assert |(k1.mempool - {id}).Keys| < |k1.mempool.Keys|;
      }
    }
  }

  lemma {:induction false} ReadmitRoomy(hasher: Hasher, k: Keeper, txs: seq<SignedTx>)
    requires Roomy(k)
    ensures Roomy(ReadmitAll(hasher, k, txs)) && ReadmitAll(hasher, k, txs).size == k.size
  {
    if txs != [] {
      ReadmitRoomy(hasher, k, txs[..|txs| - 1]);
    }
  }

  /** Over any run the mempool never holds a full block: filling up and becoming a block is one
      step, also inside a rollback. */
  lemma {:induction false} MempoolBounded(hasher: Hasher, size: nat, height: nat, lastHash: BlockHash, files: map<string, Payload>, ops: seq<Op>)
    ensures var k := Run(hasher, Started(size, height, lastHash, files), ops); Roomy(k) && k.size == size
  {
    if ops != [] {
      var n := |ops| - 1;
      MempoolBounded(hasher, size, height, lastHash, files, ops[..n]);
      var k := Run(hasher, Started(size, height, lastHash, files), ops[..n]);
      match ops[n]
      case AddTx(_) =>
      case StageBlock(b) => AbsorbRoomy(k, b.transactions);
      case CommitBlock(_, _) =>
      case RollbackBlock(h) =>
        if h in k.staged {
          ReadmitRoomy(hasher, k.(staged := k.staged - {h}), k.staged[h].transactions);
        }
    }
  }
}
