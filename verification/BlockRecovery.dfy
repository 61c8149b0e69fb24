/** What a restarted block keeper reads back from its directory. */
module BlockRecovery {
  import opened Types
  import opened Blocks
  import opened BlockNames
  import opened BlockKeeping

  /** The last block name of a directory in byte order. */
  ghost predicate IsLatest(files: map<string, Payload>, name: string) {
    && name in files && IsBlockName(name)
    && forall other :: other in files && IsBlockName(other) ==> AtMost(other, name)
  }

  /** Height and hash come from the last block name; an unreadable file counts as no history. */
  ghost predicate RecoversTo(files: map<string, Payload>, height: nat, hash: BlockHash) {
    if forall name :: name in files ==> !IsBlockName(name) then height == 0 && hash == EMPTY_HASH
    else exists name :: IsLatest(files, name) && ReadBack(name, files[name], height, hash)
  }

  ghost predicate ReadBack(name: string, content: Payload, height: nat, hash: BlockHash)
    requires IsBlockName(name)
  {
    if content.Encoded? then height == IndexOf(name) && hash == content.block.hash
    else height == 0 && hash == EMPTY_HASH
  }

  /** The directory determines what is recovered. */
  lemma RecoveryUnique(files: map<string, Payload>, h: nat, hash: BlockHash, h': nat, hash': BlockHash)
    requires RecoversTo(files, h, hash) && RecoversTo(files, h', hash')
    ensures h == h' && hash == hash'
  {
    if name :| name in files && IsBlockName(name) {
      forall a, b | IsLatest(files, a) && IsLatest(files, b) ensures a == b {
        if a != b {
          BeforeStrict(a, b);
        }
      }
    }
  }

  /** The block names present are exactly those of 1 to the height, and the last one carries
      the live hash. */
  ghost predicate Filed(k: Keeper) {
    && (forall name :: name in k.files && IsBlockName(name) ==> 1 <= IndexOf(name) <= k.height && name == Name(IndexOf(name)))
    && (forall i :: 1 <= i <= k.height ==> Name(i) in k.files && k.files[Name(i)].Encoded?)
    && k.lastHash == (if k.height == 0 then EMPTY_HASH else k.files[Name(k.height)].block.hash)
  }

  ghost predicate SelfKeyed(staged: map<BlockHash, BlockFile>) {
    forall h :: h in staged ==> staged[h].hash == h
  }

  lemma {:induction false} ReadmitDisk(hasher: Hasher, k: Keeper, txs: seq<SignedTx>)
    requires SelfKeyed(k.staged)
    ensures var k' := ReadmitAll(hasher, k, txs); SameDisk(k, k') && SelfKeyed(k'.staged)
  {
    if txs != [] {
      ReadmitDisk(hasher, k, txs[..|txs| - 1]);
    }
  }

  /** A commit fills the next index and leaves every earlier file alone. */
  lemma CommitFiles(k: Keeper, hash: BlockHash)
    requires Filed(k) && SelfKeyed(k.staged) && hash in k.staged
    ensures Filed(Commit(k, hash, true).value)
  {
    var k' := Commit(k, hash, true).value;
    NameRoundTrip(k'.height);
    forall i | 1 <= i <= k'.height ensures Name(i) in k'.files && k'.files[Name(i)].Encoded? {
    }
  }

  lemma StepFiles(hasher: Hasher, k: Keeper, op: Op)
    requires Filed(k) && SelfKeyed(k.staged)
    ensures Filed(Step(hasher, k, op)) && SelfKeyed(Step(hasher, k, op).staged)
  {
    match op
    case AddTx(_) =>
    case StageBlock(b) => AbsorbDisk(k, b.transactions);
    case CommitBlock(h, writes) => if h in k.staged && writes { CommitFiles(k, h); }
    case RollbackBlock(h) =>
      if h in k.staged {
        ReadmitDisk(hasher, k.(staged := k.staged - {h}), k.staged[h].transactions);
      }
  }

  /** A keeper started on a directory without block files. */
  function Empty(size: nat, files: map<string, Payload>): Keeper {
    Started(size, 0, EMPTY_HASH, files)
  }

  ghost predicate NoBlocks(files: map<string, Payload>) {
    forall name :: name in files ==> !IsBlockName(name)
  }

  lemma {:induction false} RunFiles(hasher: Hasher, size: nat, files: map<string, Payload>, ops: seq<Op>)
    requires NoBlocks(files)
    ensures var k := Run(hasher, Empty(size, files), ops); Filed(k) && SelfKeyed(k.staged)
  {
    if ops != [] {
      var n := |ops| - 1;
      RunFiles(hasher, size, files, ops[..n]);
      StepFiles(hasher, Run(hasher, Empty(size, files), ops[..n]), ops[n]);
    }
  }

  lemma FiledRecovery(k: Keeper)
    requires Filed(k)
    ensures RecoversTo(k.files, k.height, k.lastHash) <==> LastName(k.height)
  {
    if k.height == 0 {
      assert NoBlocks(k.files);
    } else {
      var top := Name(k.height);
      NameRoundTrip(k.height);
      if LastName(k.height) {
        assert IsLatest(k.files, top);
      }
      if RecoversTo(k.files, k.height, k.lastHash) {
        var name :| IsLatest(k.files, name) && k.files[name].Encoded? && k.height == IndexOf(name);
        assert name == top;
        forall m | 1 <= m <= k.height ensures AtMost(Name(m), top) {
          NameRoundTrip(m);
          assert Name(m) in k.files;
        }
      }
    }
  }

  /** Starting from a directory without blocks, after any run, a restart recovers the live
      height and hash exactly when the height is at most 99999 or every digit of it but the last
      is a nine. */
  lemma RecoveryIff(hasher: Hasher, size: nat, files: map<string, Payload>, ops: seq<Op>)
    requires NoBlocks(files)
    ensures var k := Run(hasher, Empty(size, files), ops);
      RecoversTo(k.files, k.height, k.lastHash) <==> k.height < 100000 || NinesButLast(k.height)
  {
    var k := Run(hasher, Empty(size, files), ops);
    RunFiles(hasher, size, files, ops);
    FiledRecovery(k);
    LastNameIff(k.height);
  }

  /** Every height is reached by some run. */
  lemma {:induction false} HeightReached(hasher: Hasher, size: nat, files: map<string, Payload>, n: nat) returns (ops: seq<Op>)
    ensures Run(hasher, Empty(size, files), ops).height == n
  {
    if n == 0 {
      ops := [];
    } else {
      var before := HeightReached(hasher, size, files, n - 1);
      var b := CreateBlock(hasher, [], EMPTY_HASH, n);
      var mid := before + [StageBlock(b)];
      ops := mid + [Op.CommitBlock(b.hash, true)];
      assert mid[..|mid| - 1] == before && ops[..|ops| - 1] == mid;
      AbsorbDisk(Run(hasher, Empty(size, files), before), []);
    }
  }

  /** At height 100000 the restarted keeper does not find its newest block. */
  lemma RecoveryFailsAt100000(hasher: Hasher, size: nat)
    ensures exists ops :: var k := Run(hasher, Empty(size, map[]), ops);
      k.height == 100000 && !RecoversTo(k.files, k.height, k.lastHash)
  {
    var ops := HeightReached(hasher, size, map[], 100000);
    RecoveryIff(hasher, size, map[], ops);
    DecimalShape(100000, WIDTH);
    FiveDigits(100000);
    Pow10Monotone(5, Length(100000) - 1);
    assert Pow10(5) == 100000;
    assert !NinesButLast(100000);
  }
}
