/** Fetching missing blocks from other peers, one index at a time. */
module Synchronization {
  import opened Types
  import opened Blocks
  import opened BlockNames
  import opened BlockKeeping
  import opened BlockStaging
  import PeerEffects

  datatype SyncState = Success | Fail

  const RETRIES: nat := 3

  // -------------------------------------------------------------------- chain

  function HashAt(files: map<string, Payload>, i: nat): BlockHash {
    if i == 0 then EMPTY_HASH
    else if Name(i) in files && files[Name(i)].Encoded? then files[Name(i)].block.hash
    else EMPTY_HASH
  }

  /** The i-th file holds a verified block of that index on top of the one before. */
  ghost predicate Link(hasher: Hasher, files: map<string, Payload>, i: nat) {
    && i >= 1 && Name(i) in files && files[Name(i)].Encoded?
    && var b := files[Name(i)].block;
       b.index == i && VerifyBlock(hasher, b) && b.previousHash == HashAt(files, i - 1)
  }

  ghost predicate Chain(hasher: Hasher, k: Keeper) {
    && (forall i :: 1 <= i <= k.height ==> Link(hasher, k.files, i))
    && k.lastHash == HashAt(k.files, k.height)
  }

  /** The block the chain can take next. */
  predicate Fits(hasher: Hasher, k: Keeper, b: BlockFile) {
    b.index == k.height + 1 && b.previousHash == k.lastHash && VerifyBlock(hasher, b)
  }

  lemma ChainGrows(hasher: Hasher, k: Keeper, k': Keeper, b: BlockFile)
    requires Chain(hasher, k) && Fits(hasher, k, b)
    requires k'.files == k.files[Name(k.height + 1) := Encoded(b)] && k'.height == k.height + 1 && k'.lastHash == b.hash
    ensures Chain(hasher, k')
  {
    forall i | 1 <= i <= k'.height ensures Link(hasher, k'.files, i) {
      if i <= k.height {
        assert Link(hasher, k.files, i);
        if Name(i) == Name(k'.height) {
          NameInjective(i, k'.height);
        }
      }
      if i >= 2 && Name(i - 1) == Name(k'.height) {
        NameInjective(i - 1, k'.height);
      }
    }
  }

  /** Whatever is staged and whether or not the disk works: applying a fetched block keeps the
      chain linked exactly when it fails or the block is for the next index; and it fails exactly
      on the linkage check, the hash or the disk. */
  lemma LinkedIff(hasher: Hasher, s: Layer, b: BlockFile, env: Env)
    requires Chain(hasher, s.keeper)
    ensures var r := ApplySynced(hasher, s, b, env);
      && (Chain(hasher, r.layer.keeper) <==> r.error != None || b.index == s.keeper.height + 1)
      && (r.error == None <==> CanBeAdded(s.keeper, b, env.prefer(0)) && VerifyBlock(hasher, b) && env.writes)
  {
    var r := ApplySynced(hasher, s, b, env);
    var k, k' := s.keeper, r.layer.keeper;
    AbsorbDisk(k, b.transactions);
    if r.error != None {
      assert SameDisk(k, k');
      forall i | 1 <= i <= k'.height ensures Link(hasher, k'.files, i) {
        assert Link(hasher, k.files, i);
      }
    } else if b.index == k.height + 1 {
      ChainGrows(hasher, k, k', b);
    } else {
      assert !Link(hasher, k'.files, k'.height);
    }
  }

  /** With nothing staged and a working disk, a fetched block is applied exactly when it is the
      next verified link; either way the chain stays linked and nothing stays staged. */
  lemma AppliedIffFits(hasher: Hasher, s: Layer, b: BlockFile, env: Env)
    requires Chain(hasher, s.keeper) && s.keeper.staged == map[] && env.writes
    ensures var r := ApplySynced(hasher, s, b, env);
      && (r.error == None <==> Fits(hasher, s.keeper, b))
      && Chain(hasher, r.layer.keeper) && r.layer.keeper.staged == map[]
      && r.layer.keeper.height == s.keeper.height + (if r.error == None then 1 else 0)
      && (r.error == None ==> r.layer.keeper.lastHash == b.hash)
  {
    assert Below(s.keeper, b.index) == {};
    AbsorbDisk(s.keeper, b.transactions);
    LinkedIff(hasher, s, b, env);
    if Fits(hasher, s.keeper, b) {
      assert ApplySynced(hasher, s, b, env).layer.keeper.staged == map[];
    }
  }

  // ------------------------------------------------------------ network height

  ghost predicate IsMaxHeight(reported: map<PeerId, nat>, m: nat) {
    && (forall p :: p in reported ==> reported[p] <= m)
    && (if reported == map[] then m == 0 else exists p :: p in reported && reported[p] == m)
  }

  method GetMaxIndex(reported: map<PeerId, nat>) returns (m: nat)
    ensures IsMaxHeight(reported, m)
  {
    m := 0;
    var rest := reported.Keys;
    while rest != {}
      invariant rest <= reported.Keys
      invariant forall p :: p in reported && p !in rest ==> reported[p] <= m
      invariant m == 0 || exists p :: p in reported && reported[p] == m
      decreases |rest|
    {
      var p :| p in rest;
      if reported[p] > m {
        m := reported[p];
      }
      rest := rest - {p};
    }
    if m == 0 && reported != map[] {
      var p :| p in reported;
      assert reported[p] == m;
    }
  }

  // -------------------------------------------------------------------- loop

  /** Ready to synchronize: a linked chain and nothing staged. */
  ghost predicate Ready(peer: PeerEffects.PeerEffects)
    reads peer.keeper
  {
    peer.keeper.staged == map[] && Chain(peer.keeper.hasher, peer.keeper.State())
  }

  /** One attempt: whatever was fetched, if anything. */
  method TryBlock(peer: PeerEffects.PeerEffects, engine: PeerEffects.Engine, block: Option<BlockFile>, env: Env) returns (ok: bool)
    requires peer.Valid(engine) && Ready(peer) && env.writes
    modifies peer, peer.processor, peer.keeper
    ensures peer.Valid(engine) && Ready(peer)
    ensures ok <==> block.Some? && Fits(peer.keeper.hasher, old(peer.keeper.State()), block.value)
    ensures peer.keeper.height == old(peer.keeper.height) + (if ok then 1 else 0)
  {
    if block.None? {
      return false;
    }
    AppliedIffFits(peer.keeper.hasher, peer.BlockLayer(engine), block.value, env);
    var error := peer.ApplySynchronizedBlock(engine, block.value, env);
    ok := error == None;
  }

  /** `reported` are the heights the other peers answered with, `network` their maximum; `fetch`
      is what the n-th attempt to obtain a block yields, from whichever peers it asked. */
  method CheckAndRetrieveMissingBlocks(
      peer: PeerEffects.PeerEffects, engine: PeerEffects.Engine, reported: map<PeerId, nat>,
      fetch: nat -> Option<BlockFile>, env: nat -> Env)
    returns (outcome: SyncState, network: nat, attempts: nat, errors: nat)
    requires peer.Valid(engine) && Ready(peer) && forall n :: env(n).writes
    modifies peer, peer.processor, peer.keeper
    ensures peer.Valid(engine) && Ready(peer) && IsMaxHeight(reported, network)
    ensures var start := old(peer.keeper.height); var goal := if network > start then network else start;
      && attempts == peer.keeper.height - start + errors
      && attempts <= goal - start + 3
      && (outcome == Success ==> peer.keeper.height == goal && errors < 3)
      && (outcome == Fail ==> peer.keeper.height < goal && errors == 3)
  {
    network := GetMaxIndex(reported);
    attempts, errors := 0, 0;
    if peer.keeper.height == network {
      outcome := Success;
      return;
    }
    var idx := peer.keeper.height + 1;
    while true
      invariant peer.Valid(engine) && Ready(peer)
      invariant idx == peer.keeper.height + 1 && old(peer.keeper.height) < idx
      invariant idx == old(peer.keeper.height) + 1 || idx <= network + 1
      invariant errors <= RETRIES && (errors == RETRIES ==> idx <= network)
      invariant attempts == idx - 1 - old(peer.keeper.height) + errors
      decreases network + 1 - idx + RETRIES - errors
    {
      if idx > network {
        outcome := Success;
        return;
      }
      if errors == RETRIES {
        outcome := Fail;
        return;
      }
      var ok := TryBlock(peer, engine, fetch(attempts), env(attempts));
      attempts := attempts + 1;
      if ok {
        idx := idx + 1;
      } else {
        errors := errors + 1;
      }
    }
  }

  // ----------------------------------------------------------- what is needed

  /** A fetched block that fits but cannot be written stays staged. */
  lemma FailedWriteStages(hasher: Hasher, s: Layer, b: BlockFile, env: Env)
    requires s.keeper.staged == map[] && Fits(hasher, s.keeper, b) && !env.writes
    ensures var r := ApplySynced(hasher, s, b, env); var k := r.layer.keeper;
      && r.error == Some(NotCommitted(b.hash)) && k.staged == map[b.hash := b]
      && k.files == s.keeper.files && k.height == s.keeper.height && k.lastHash == s.keeper.lastHash
  {
    AbsorbDisk(s.keeper, b.transactions);
  }

  /** The block after a staged one is applied, in the staged one's place. */
  lemma SkipsStaged(hasher: Hasher, s: Layer, b1: BlockFile, b2: BlockFile, env: Env)
    requires s.keeper.staged == map[b1.hash := b1] && b1.index == s.keeper.height + 1 && env.writes
    requires b2.index == b1.index + 1 && b2.previousHash == b1.hash && b2.hash != b1.hash && VerifyBlock(hasher, b2)
    ensures var r := ApplySynced(hasher, s, b2, env); var k := r.layer.keeper;
      r.error == None && k.height == s.keeper.height + 1 && k.files == s.keeper.files[Name(k.height) := Encoded(b2)]
  {
    AbsorbDisk(s.keeper, b2.transactions);
    assert b1.hash in Below(s.keeper, b2.index);
    assert FoundBelow(s.keeper, b2.index, env.prefer(0)) == Some(b1);
  }

  /** An instance: a staged block left behind by a failed write lets the block after it through,
      and the next index is then filled by a block that does not sit on the one below. */
  lemma FailedWriteBreaksChain(hasher: Hasher, s: Layer, env: Env)
    requires CollisionFree(hasher) && Chain(hasher, s.keeper) && s.keeper.staged == map[] && env.writes
    requires hasher([], s.keeper.lastHash) != s.keeper.lastHash
    ensures var b1 := CreateBlock(hasher, [], s.keeper.lastHash, s.keeper.height + 1);
      var b2 := CreateBlock(hasher, [], b1.hash, s.keeper.height + 2);
      var r1 := ApplySynced(hasher, s, b1, env.(writes := false));
      var r2 := ApplySynced(hasher, r1.layer, b2, env);
      r2.error == None && r2.layer.keeper.height == s.keeper.height + 1 && !Chain(hasher, r2.layer.keeper)
  {
    var b1 := CreateBlock(hasher, [], s.keeper.lastHash, s.keeper.height + 1);
    var b2 := CreateBlock(hasher, [], b1.hash, s.keeper.height + 2);
    var r1 := ApplySynced(hasher, s, b1, env.(writes := false));
    FailedWriteStages(hasher, s, b1, env.(writes := false));
    LinkedIff(hasher, s, b1, env.(writes := false));
    SkipsStaged(hasher, r1.layer, b1, b2, env);
    LinkedIff(hasher, r1.layer, b2, env);
  }
}
