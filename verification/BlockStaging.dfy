/** Staging the blocks of an accepted append: the payloads the engine kept, the chain-linkage
    check, the ledger and the block keeper together. */
module BlockStaging {
  import opened Types
  import opened Blocks
  import opened RaftLog
  import opened RaftNode
  import opened RaftEngine
  import opened BlockKeeping
  import opened Ledger
  import RaftNodeRuns

  /** What the local effects of a peer act on; `payloads` is the engine's table of validated
      blocks that have not been staged yet. */
  datatype Layer = Layer(ledger: Ledger, keeper: Keeper, payloads: map<BlockHash, BlockFile>, lastCompleted: BlockHash)

  datatype StageError =
    | NotFound(hash: BlockHash, index: nat)
    | Unlinked(hash: BlockHash, index: nat)
    | Unverified(hash: BlockHash, index: nat)
    | NotCommitted(hash: BlockHash)

  datatype Staging = Staging(layer: Layer, error: Option<StageError>)

  /** What the environment decides: whether a write succeeds, and which of several staged
      blocks at one index a hash-map search meets first. */
  datatype Env = Env(writes: bool, prefer: nat -> BlockHash)

  /** One entry of a staging effect. */
  function StageEntry(hasher: Hasher, s: Layer, e: Entry, prefer: BlockHash): Staging {
    if e.IsNoop() then Staging(s, None)
    else
      var s1 := s.(payloads := s.payloads - {e.hash});
      if e.hash in s.keeper.staged then Staging(s1, None)
      else if e.hash !in s.payloads then Staging(s1, Some(NotFound(e.hash, e.index)))
      else
        var b := s.payloads[e.hash];
        if !CanBeAdded(s.keeper, b, prefer) then Staging(s1, Some(Unlinked(e.hash, e.index)))
        else
          var s2 := s1.(ledger := ProcessAll(s.ledger, b.transactions));
          match Stage(hasher, s.keeper, b)
          case Some(keeper) => Staging(s2.(keeper := keeper), None)
          case None => Staging(s2, Some(Unverified(e.hash, e.index)))
  }

  /** Entries from position k on; the first error ends it. */
  function StageEntries(hasher: Hasher, s: Layer, entries: seq<Entry>, prefer: nat -> BlockHash, k: nat): Staging
    requires k <= |entries|
    decreases |entries| - k
  {
    if k == |entries| then Staging(s, None)
    else
      var r := StageEntry(hasher, s, entries[k], prefer(k));
      if r.error.Some? then r else StageEntries(hasher, r.layer, entries, prefer, k + 1)
  }

  function RollbackStaged(hasher: Hasher, s: Layer, hash: BlockHash): Layer {
    if hash in s.keeper.staged
    then s.(ledger := UndoAll(s.ledger, s.keeper.staged[hash].transactions),
            keeper := Rollback(hasher, s.keeper, hash).value, lastCompleted := hash)
    else s.(lastCompleted := hash)
  }

  function CommitStaged(s: Layer, hash: BlockHash, writes: bool): Staging {
    match Commit(s.keeper, hash, writes)
    case Some(keeper) => Staging(s.(keeper := keeper, lastCompleted := hash), None)
    case None => Staging(s, Some(NotCommitted(hash)))
  }

  /** A block fetched from another peer: checked against the chain, booked, staged and committed.
      A failure after the check leaves what was already done. */
  function ApplySynced(hasher: Hasher, s: Layer, b: BlockFile, env: Env): Staging {
    if !CanBeAdded(s.keeper, b, env.prefer(0)) then Staging(s, Some(Unlinked(b.hash, b.index)))
    else
      var s1 := s.(ledger := ProcessAll(s.ledger, b.transactions));
      match Stage(hasher, s.keeper, b)
      case None => Staging(s1, Some(Unverified(b.hash, b.index)))
      case Some(keeper) => CommitStaged(s1.(keeper := keeper), b.hash, env.writes)
  }

  /** One local effect of the Raft engine. */
  function Execute(hasher: Hasher, s: Layer, e: Effect, env: Env): Staging {
    match e
    case StageRaftEntries(entries) => StageEntries(hasher, s, entries, env.prefer, 0)
    case RollbackBlock(hash) => Staging(RollbackStaged(hasher, s, hash), None)
    case CommitBlock(hash) => CommitStaged(s, hash, env.writes)
    case _ => Staging(s, None)
  }

  /** All effects from position k on, going on past failures: the errors met. */
  function Errors(hasher: Hasher, s: Layer, effects: seq<Effect>, env: nat -> Env, k: nat): seq<StageError>
    requires k <= |effects|
    decreases |effects| - k
  {
    if k == |effects| then []
    else
      var r := Execute(hasher, s, effects[k], env(k));
      (if r.error.Some? then [r.error.value] else []) + Errors(hasher, r.layer, effects, env, k + 1)
  }

  // --------------------------------------------------------- payloads on hand

  ghost predicate Verified(hasher: Hasher, payloads: map<BlockHash, BlockFile>) {
    forall h :: h in payloads ==> payloads[h].hash == h && VerifyBlock(hasher, payloads[h])
  }

  ghost predicate OnHand(s: Layer, e: Entry) {
    e.IsNoop() || e.hash in s.payloads || e.hash in s.keeper.staged
  }

  /** One entry keeps every other entry's block at hand, and its own becomes or stays staged. */
  lemma StageEntryKeeps(hasher: Hasher, s: Layer, e: Entry, prefer: BlockHash, other: Entry)
    requires Verified(hasher, s.payloads) && OnHand(s, e)
    ensures var r := StageEntry(hasher, s, e, prefer);
      && Verified(hasher, r.layer.payloads)
      && (r.error.Some? ==> r.error.value.Unlinked?)
      && (r.error == None && OnHand(s, other) ==> OnHand(r.layer, other))
  {
    if !e.IsNoop() && e.hash !in s.keeper.staged {
      AbsorbDisk(s.keeper, s.payloads[e.hash].transactions);
    }
  }

  /** With every payload at hand, staging fails only on the chain-linkage check. */
  lemma {:induction false} StagesAll(hasher: Hasher, s: Layer, entries: seq<Entry>, prefer: nat -> BlockHash, k: nat)
    requires k <= |entries| && Verified(hasher, s.payloads)
    requires forall i :: k <= i < |entries| ==> OnHand(s, entries[i])
    ensures var r := StageEntries(hasher, s, entries, prefer, k);
      Verified(hasher, r.layer.payloads) && (r.error.Some? ==> r.error.value.Unlinked?)
    decreases |entries| - k
  {
    if k < |entries| {
      var r := StageEntry(hasher, s, entries[k], prefer(k));
      StageEntryKeeps(hasher, s, entries[k], prefer(k), entries[k]);
      if r.error == None {
        forall i | k + 1 <= i < |entries| ensures OnHand(r.layer, entries[i]) {
          StageEntryKeeps(hasher, s, entries[k], prefer(k), entries[i]);
        }
        StagesAll(hasher, r.layer, entries, prefer, k + 1);
      }
    }
  }

  /** A keeper that has taken in the blocks of the first i entries. */
  function Stocked(hasher: Hasher, k: Keeper, payloads: map<BlockHash, BlockFile>, entries: seq<Entry>, i: nat): Keeper
    requires i <= |entries|
  {
    if i == 0 then k
    else
      var before, e := Stocked(hasher, k, payloads, entries, i - 1), entries[i - 1];
      if e.IsNoop() || e.hash in before.staged || e.hash !in payloads then before
      else match Stage(hasher, before, payloads[e.hash]) case Some(after) => after case None => before
  }

  /** The i-th entry needs its block, and the block does not link to what is there by then. */
  predicate Unlinks(hasher: Hasher, k: Keeper, payloads: map<BlockHash, BlockFile>, entries: seq<Entry>, prefer: nat -> BlockHash, i: nat)
    requires i < |entries|
  {
    var at, e := Stocked(hasher, k, payloads, entries, i), entries[i];
    !e.IsNoop() && e.hash !in at.staged && e.hash in payloads && !CanBeAdded(at, payloads[e.hash], prefer(i))
  }

  /** A layer that has staged the first i entries of s. */
  ghost predicate Progressed(hasher: Hasher, s: Layer, s': Layer, entries: seq<Entry>, i: nat)
    requires i <= |entries|
  {
    && s'.keeper == Stocked(hasher, s.keeper, s.payloads, entries, i)
    && (forall h :: h in s'.payloads ==> h in s.payloads && s'.payloads[h] == s.payloads[h])
    && (forall h :: h in s.payloads ==> h in s'.payloads || h in s'.keeper.staged)
  }

  lemma ProgressedStep(hasher: Hasher, s: Layer, s': Layer, entries: seq<Entry>, prefer: nat -> BlockHash, i: nat)
    requires i < |entries| && Verified(hasher, s.payloads) && Progressed(hasher, s, s', entries, i) && OnHand(s', entries[i])
    ensures var r := StageEntry(hasher, s', entries[i], prefer(i));
      && (r.error.Some? <==> Unlinks(hasher, s.keeper, s.payloads, entries, prefer, i))
      && (r.error == None ==> Progressed(hasher, s, r.layer, entries, i + 1))
  {
    var e := entries[i];
    if !e.IsNoop() && e.hash !in s'.keeper.staged {
      AbsorbDisk(s'.keeper, s.payloads[e.hash].transactions);
    }
  }

  lemma {:induction false} StagingFailsFrom(hasher: Hasher, s: Layer, s': Layer, entries: seq<Entry>, prefer: nat -> BlockHash, k: nat)
    requires k <= |entries| && Verified(hasher, s.payloads) && Verified(hasher, s'.payloads) && Progressed(hasher, s, s', entries, k)
    requires forall i :: k <= i < |entries| ==> OnHand(s', entries[i])
    ensures StageEntries(hasher, s', entries, prefer, k).error.Some?
      <==> exists i :: k <= i < |entries| && Unlinks(hasher, s.keeper, s.payloads, entries, prefer, i)
    decreases |entries| - k
  {
    if k < |entries| {
      var r := StageEntry(hasher, s', entries[k], prefer(k));
      ProgressedStep(hasher, s, s', entries, prefer, k);
      if r.error == None {
        forall i | k + 1 <= i < |entries| ensures OnHand(r.layer, entries[i]) {
          StageEntryKeeps(hasher, s', entries[k], prefer(k), entries[i]);
        }
        StageEntryKeeps(hasher, s', entries[k], prefer(k), entries[k]);
        StagingFailsFrom(hasher, s, r.layer, entries, prefer, k + 1);
      }
    }
  }

  /** With every block at hand, staging fails exactly when some entry's block does not link to what
      the keeper holds once the blocks before it are in. */
  lemma StagingFailsIff(hasher: Hasher, s: Layer, entries: seq<Entry>, prefer: nat -> BlockHash)
    requires Verified(hasher, s.payloads) && forall i :: 0 <= i < |entries| ==> OnHand(s, entries[i])
    ensures StageEntries(hasher, s, entries, prefer, 0).error.Some?
      <==> exists i :: 0 <= i < |entries| && Unlinks(hasher, s.keeper, s.payloads, entries, prefer, i)
  {
    StagingFailsFrom(hasher, s, s, entries, prefer, 0);
  }

  ghost predicate NoneMissing(errors: seq<StageError>) {
    forall i :: 0 <= i < |errors| ==> !errors[i].NotFound? && !errors[i].Unverified?
  }

  ghost predicate Supplied(s: Layer, e: Effect) {
    e.StageRaftEntries? ==> forall i :: 0 <= i < |e.staged| ==> OnHand(s.(keeper := s.keeper.(staged := map[])), e.staged[i])
  }

  /** A list with at most one staging effect, whose payloads the engine holds, meets no missing
      block, whatever commits and rollbacks surround it. */
  lemma {:induction false} ErrorsNoneMissing(hasher: Hasher, s: Layer, effects: seq<Effect>, env: nat -> Env, k: nat)
    requires k <= |effects| && Verified(hasher, s.payloads)
    requires forall i :: k <= i < |effects| ==> Supplied(s, effects[i])
    requires forall i, j :: k <= i < j < |effects| ==> !effects[i].StageRaftEntries? || !effects[j].StageRaftEntries?
    ensures NoneMissing(Errors(hasher, s, effects, env, k))
    decreases |effects| - k
  {
    if k < |effects| {
      var r := Execute(hasher, s, effects[k], env(k));
      if effects[k].StageRaftEntries? {
        assert Supplied(s, effects[k]);
        forall i | 0 <= i < |effects[k].staged| ensures OnHand(s, effects[k].staged[i]) {
          assert OnHand(s.(keeper := s.keeper.(staged := map[])), effects[k].staged[i]);
        }
        StagesAll(hasher, s, effects[k].staged, env(k).prefer, 0);
      } else {
        assert r.layer.payloads == s.payloads;
      }
      forall i | k + 1 <= i < |effects| ensures Supplied(r.layer, effects[i]) {
        assert Supplied(s, effects[i]);
      }
      ErrorsNoneMissing(hasher, r.layer, effects, env, k + 1);
    }
  }

  // ------------------------------------------------------- an accepted append

  lemma StagedAtMostOnce(n: Node, prevIndex: nat, prevTerm: nat, entries: seq<Entry>, leaderCommit: nat, i: nat)
    requires Accepts(n, prevIndex, prevTerm, entries)
    requires i < |AppendedEffects(n, prevIndex, prevTerm, entries, leaderCommit)|
    ensures var e := AppendedEffects(n, prevIndex, prevTerm, entries, leaderCommit)[i];
      e.StageRaftEntries? ==> i == |BlockHashes(Discarded(n.log, prevIndex, entries))| && e.staged == ToStage(entries, n.commit)
  {
  }

  /** After an accepted append the table holds a verified block for everything it stages. */
  lemma AcceptedPayloads(hasher: Hasher, n: Node, r: AppendRequest, sent: seq<ReplicatedBlock>)
    requires Verified(hasher, n.pending) && Validate(hasher, sent).Ok?
    requires Accepts(n, r.prevIndex, r.prevTerm, Validate(hasher, sent).value.entries)
    ensures var v := Validate(hasher, sent).value; var n' := OnCheckedAppend(n, r, v).node;
      && Verified(hasher, n'.pending)
      && forall i :: 0 <= i < |ToStage(v.entries, n.commit)| ==> ToStage(v.entries, n.commit)[i].hash in n'.pending
  {
    var v := Validate(hasher, sent).value;
    var staged := ToStage(v.entries, n.commit);
    ValidateExact(hasher, sent);
    StagedNotNoop(v.entries, n.commit);
    RetainCovers(n.pending, v.blocks, staged);
    forall i | 0 <= i < |staged| ensures staged[i].hash in v.blocks {
      assert staged[i] in v.entries;
      var k :| 0 <= k < |v.entries| && v.entries[k] == staged[i];
      assert sent[k].entry == staged[i];
    }
  }

  /** Running the local effects of an accepted append never meets a missing or unverified block,
      whatever the keeper and the ledger hold, even when the append repeats a hash. */
  lemma AcceptedAppendStages(hasher: Hasher, n: Node, r: AppendRequest, sent: seq<ReplicatedBlock>, s: Layer, env: nat -> Env)
    requires Verified(hasher, n.pending) && Validate(hasher, sent).Ok?
    requires Accepts(n, r.prevIndex, r.prevTerm, Validate(hasher, sent).value.entries)
    ensures var o := OnCheckedAppend(n, r, Validate(hasher, sent).value);
      NoneMissing(Errors(hasher, s.(payloads := o.node.pending), o.local, env, 0))
  {
    var v := Validate(hasher, sent).value;
    var o := OnCheckedAppend(n, r, v);
    var s' := s.(payloads := o.node.pending);
    AcceptedPayloads(hasher, n, r, sent);
    forall i | 0 <= i < |o.local| ensures Supplied(s', o.local[i]) {
      StagedAtMostOnce(n, r.prevIndex, r.prevTerm, v.entries, r.leaderCommit, i);
    }
    forall i, j | 0 <= i < j < |o.local| ensures !o.local[i].StageRaftEntries? || !o.local[j].StageRaftEntries? {
      StagedAtMostOnce(n, r.prevIndex, r.prevTerm, v.entries, r.leaderCommit, i);
      StagedAtMostOnce(n, r.prevIndex, r.prevTerm, v.entries, r.leaderCommit, j);
    }
    ErrorsNoneMissing(hasher, s', o.local, env, 0);
  }

  // ------------------------------------------------------------- over a run

  /** The payloads of an append went through the engine's validation. */
  ghost predicate Checked(hasher: Hasher, i: RaftNodeRuns.Input) {
    i.Append? ==> exists sent :: i.checked == Validate(hasher, sent)
  }

  lemma AppendVerified(hasher: Hasher, n: Node, r: AppendRequest, sent: seq<ReplicatedBlock>, timedOut: bool)
    requires Verified(hasher, n.pending)
    ensures Verified(hasher, OnAppendEntries(n, r, Validate(hasher, sent), timedOut).node.pending)
  {
    var n1 := Follow(StepDownOnNewer(n, r.term), r.leader);
    if Validate(hasher, sent).Ok? && Accepts(n1, r.prevIndex, r.prevTerm, Validate(hasher, sent).value.entries) {
      AcceptedPayloads(hasher, n1, r, sent);
    }
  }

  lemma ReactVerified(hasher: Hasher, n: Node, i: RaftNodeRuns.Input)
    requires Verified(hasher, n.pending) && Checked(hasher, i)
    ensures Verified(hasher, RaftNodeRuns.React(n, i).node.pending)
  {
    match i
    case Append(r, checked, timedOut) =>
      var sent :| checked == Validate(hasher, sent);
      AppendVerified(hasher, n, r, sent, timedOut);
    case _ =>
  }

  /** Whatever a node was sent before, its table holds only verified blocks under their own
      hashes, so no accepted append of any run meets a missing block. */
  lemma {:induction false} RunVerified(hasher: Hasher, n: Node, inputs: seq<RaftNodeRuns.Input>)
    requires Verified(hasher, n.pending) && forall k :: 0 <= k < |inputs| ==> Checked(hasher, inputs[k])
    ensures Verified(hasher, RaftNodeRuns.RunNode(n, inputs).pending)
  {
    if inputs != [] {
      var k := |inputs| - 1;
      RunVerified(hasher, n, inputs[..k]);
      ReactVerified(hasher, RaftNodeRuns.RunNode(n, inputs[..k]), inputs[k]);
    }
  }
}
