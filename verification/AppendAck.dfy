/** The acknowledgement of an accepted append, against the fate of the blocks it stages. */
module AppendAck {
  import opened Types
  import opened Blocks
  import opened RaftLog
  import opened RaftNode
  import opened RaftEngine
  import opened BlockKeeping
  import opened BlockStaging
  import opened PeerEffects

  /** An accepted append and the effect list its handler returned. */
  ghost predicate Accepted(hasher: Hasher, n: Node, r: AppendRequest, sent: seq<ReplicatedBlock>, effects: seq<Effect>) {
    && Verified(hasher, n.pending) && Validate(hasher, sent).Ok?
    && Accepts(n, r.prevIndex, r.prevTerm, Validate(hasher, sent).value.entries)
    && RepliesLast(effects, OnCheckedAppend(n, r, Validate(hasher, sent).value))
  }

  /** The last index an append carries. */
  function LastSent(r: AppendRequest, entries: seq<Entry>): nat {
    if entries == [] then r.prevIndex else entries[|entries| - 1].index
  }

  /** The position of the staging effect: behind the rollbacks. */
  function StagePosition(n: Node, r: AppendRequest, entries: seq<Entry>): nat
    requires r.prevIndex <= |n.log|
  {
    |BlockHashes(Discarded(n.log, r.prevIndex, entries))|
  }

  lemma EffectsOfAppend(hasher: Hasher, n: Node, r: AppendRequest, sent: seq<ReplicatedBlock>, effects: seq<Effect>)
    requires Accepted(hasher, n, r, sent, effects)
    ensures var v := Validate(hasher, sent).value; var j := StagePosition(n, r, v.entries); var staged := ToStage(v.entries, n.commit);
      && effects != [] && effects[|effects| - 1] == Send(r.from, AppendEntriesResponse(n.term, true, LastSent(r, v.entries)))
      && (forall x :: x in effects ==> OnBlocks(x) || x.Send?)
      && j < |effects| && (forall i :: 0 <= i < j ==> effects[i].RollbackBlock?)
      && (staged != [] ==> j < |effects| - 1 && effects[j] == StageRaftEntries(staged))
  {
    var v := Validate(hasher, sent).value;
    var o := OnCheckedAppend(n, r, v);
    var reply :| o.wire == {reply} && effects == o.local + [reply];
    assert reply in o.wire;
    forall x | x in effects ensures OnBlocks(x) || x.Send? {
      if x != reply {
        assert x in o.local;
      }
    }
  }

  /** Rollbacks leave the table of payloads alone. */
  lemma {:induction false} PayloadsUntil(hasher: Hasher, trace: seq<Attempt>, world: nat -> World, s: Layer, s': Layer, j: nat)
    requires Chained(hasher, trace, world, s, s') && j < |trace|
    requires forall i :: 0 <= i < j ==> trace[i].effect.RollbackBlock?
    ensures trace[j].before.payloads == s.payloads
  {
    if j > 0 {
      PayloadsUntil(hasher, trace, world, s, s', j - 1);
      assert Follows(hasher, trace, world, s, j - 1) && Follows(hasher, trace, world, s, j);
    }
  }

  /** Whatever happens to the blocks, the success reply is the last thing attempted and goes out.
      The staging before it fails if and only if some entry's block does not link to what the keeper
      holds at its turn. */
  lemma AckRegardless(hasher: Hasher, n: Node, r: AppendRequest, sent: seq<ReplicatedBlock>, effects: seq<Effect>,
                      s: Layer, s': Layer, trace: seq<Attempt>, world: nat -> World)
    requires Accepted(hasher, n, r, sent, effects) && Serves(trace, effects)
    requires s.payloads == OnCheckedAppend(n, r, Validate(hasher, sent).value).node.pending && Chained(hasher, trace, world, s, s')
    ensures var v := Validate(hasher, sent).value; var j := StagePosition(n, r, v.entries); var staged := ToStage(v.entries, n.commit);
      && |trace| == |effects| >= 1
      && trace[|trace| - 1].effect == Send(r.from, AppendEntriesResponse(n.term, true, LastSent(r, v.entries)))
      && !trace[|trace| - 1].failed
      && (staged != [] ==> j < |trace| - 1 && trace[j].effect == StageRaftEntries(staged))
      && (staged != [] ==> (trace[j].failed <==>
            exists i :: 0 <= i < |staged| && Unlinks(hasher, trace[j].before.keeper, s.payloads, staged, world(j).env.prefer, i)))
  {
    var v := Validate(hasher, sent).value;
    EffectsOfAppend(hasher, n, r, sent, effects);
    ServedAsGiven(trace, effects);
    ReplyGoesOut(hasher, trace, world, s, s');
    if ToStage(v.entries, n.commit) != [] {
      StagingFate(hasher, n, r, sent, s, s', trace, world);
    }
  }

  lemma ReplyGoesOut(hasher: Hasher, trace: seq<Attempt>, world: nat -> World, s: Layer, s': Layer)
    requires Chained(hasher, trace, world, s, s') && trace != [] && trace[|trace| - 1].effect.Send?
    ensures !trace[|trace| - 1].failed
  {
    assert Follows(hasher, trace, world, s, |trace| - 1);
  }

  lemma StagingFate(hasher: Hasher, n: Node, r: AppendRequest, sent: seq<ReplicatedBlock>, s: Layer, s': Layer, trace: seq<Attempt>, world: nat -> World)
    requires Verified(hasher, n.pending) && Validate(hasher, sent).Ok?
    requires Accepts(n, r.prevIndex, r.prevTerm, Validate(hasher, sent).value.entries)
    requires s.payloads == OnCheckedAppend(n, r, Validate(hasher, sent).value).node.pending && Chained(hasher, trace, world, s, s')
    requires var v := Validate(hasher, sent).value; var j := StagePosition(n, r, v.entries);
      && j < |trace| && trace[j].effect == StageRaftEntries(ToStage(v.entries, n.commit))
      && forall i :: 0 <= i < j ==> trace[i].effect.RollbackBlock?
    ensures var v := Validate(hasher, sent).value; var j := StagePosition(n, r, v.entries); var staged := ToStage(v.entries, n.commit);
      trace[j].failed <==>
        exists i :: 0 <= i < |staged| && Unlinks(hasher, trace[j].before.keeper, s.payloads, staged, world(j).env.prefer, i)
  {
    var v := Validate(hasher, sent).value;
    var j, staged := StagePosition(n, r, v.entries), ToStage(v.entries, n.commit);
    var a := trace[j];
    PayloadsUntil(hasher, trace, world, s, s', j);
    AcceptedPayloads(hasher, n, r, sent);
    forall i | 0 <= i < |staged| ensures OnHand(a.before, staged[i]) {
      assert staged[i].hash in s.payloads;
    }
    StagingFailsIff(hasher, a.before, staged, world(j).env.prefer);
    assert Follows(hasher, trace, world, s, j);
  }

  // ------------------------------------------------------------ such an input

  /** A follower of peer 2 with an empty log. */
  const FOLLOWER: Node := Fresh(1, Store([], None), 0).(participants := {1, 2}, term := 1, leader := Some(2))

  const REQUEST: AppendRequest := AppendRequest(1, 2, 0, 0, 0, 2)

  /** A block that claims index 5, on top of nothing this peer knows. */
  function Astray(hasher: Hasher): BlockFile {
    CreateBlock(hasher, [], 7, 5)
  }

  function Logged(hasher: Hasher): Entry {
    Entry(1, 1, Astray(hasher).hash)
  }

  function Sent(hasher: Hasher): seq<ReplicatedBlock> {
    [ReplicatedBlock(Logged(hasher), Encoded(Astray(hasher)), true)]
  }

  function Valid1(hasher: Hasher): Validated {
    Validated([Logged(hasher)], map[Astray(hasher).hash := Astray(hasher)])
  }

  const REPLY: Effect := Send(2, AppendEntriesResponse(1, true, 1))

  lemma SentValidates(hasher: Hasher)
    requires Astray(hasher).hash != EMPTY_HASH
    ensures Validate(hasher, Sent(hasher)) == Ok(Valid1(hasher))
  {
    var sent, b, e := Sent(hasher), Astray(hasher), Logged(hasher);
    assert sent[..0] == [] && Validate(hasher, sent[..0]) == Ok(Validated([], map[]));
    assert [] + [e] == [e] && map[][b.hash := b] == map[b.hash := b];
    assert VerifyBlockVec(hasher, e.hash, Encoded(b), true) == Ok(b);
  }

  lemma LoggedAccepted(hasher: Hasher)
    requires Astray(hasher).hash != EMPTY_HASH
    ensures Accepts(FOLLOWER, 0, 0, [Logged(hasher)]) && ToStage([Logged(hasher)], 0) == [Logged(hasher)]
    ensures var o := OnCheckedAppend(FOLLOWER, REQUEST, Valid1(hasher));
      o.local == [StageRaftEntries([Logged(hasher)])] && o.wire == {REPLY} && o.node.pending == Valid1(hasher).blocks
  {
    var b, e := Astray(hasher), Logged(hasher);
    assert FirstNew([], 0, [e]) == 0 && Merge([], 0, [e]) == [e] && Discarded([], 0, [e]) == [];
    assert [e][1..] == [] && ToStage([e], 0) == [e];
    var blocks := map[b.hash := b];
    assert Retain(map[], blocks, [e]) == Retain(map[][b.hash := b], blocks - {b.hash}, [e][1..]) == blocks;
  }

  lemma AstrayUnlinks(hasher: Hasher, k: Keeper, prefer: nat -> BlockHash)
    requires Astray(hasher).hash != EMPTY_HASH && k.staged == map[] && k.height == 0
    ensures Unlinks(hasher, k, Valid1(hasher).blocks, [Logged(hasher)], prefer, 0)
  {
    assert Below(k, 5) == {};
  }

  /** One block that claims index 5, sent to a peer whose chain is empty: accepted into the log, not
      stageable, and acknowledged all the same. */
  lemma AckWithoutBlock(hasher: Hasher, s: Layer, s': Layer, trace: seq<Attempt>, world: nat -> World)
    requires Astray(hasher).hash != EMPTY_HASH && s.keeper.staged == map[] && s.keeper.height == 0 && s.payloads == Valid1(hasher).blocks
    requires Serves(trace, [StageRaftEntries([Logged(hasher)]), REPLY]) && Chained(hasher, trace, world, s, s')
    ensures Accepted(hasher, FOLLOWER, REQUEST, Sent(hasher), [StageRaftEntries([Logged(hasher)]), REPLY])
    ensures |trace| == 2 && trace[0].failed && trace[1].effect == REPLY && !trace[1].failed
  {
    SentValidates(hasher);
    LoggedAccepted(hasher);
    var effects := [StageRaftEntries([Logged(hasher)]), REPLY];
    assert effects == [StageRaftEntries([Logged(hasher)])] + [REPLY];
    assert RepliesLast(effects, OnCheckedAppend(FOLLOWER, REQUEST, Valid1(hasher)));
    AckRegardless(hasher, FOLLOWER, REQUEST, Sent(hasher), effects, s, s', trace, world);
    assert StagePosition(FOLLOWER, REQUEST, [Logged(hasher)]) == 0;
    assert Follows(hasher, trace, world, s, 0);
    AstrayUnlinks(hasher, s.keeper, world(0).env.prefer);
  }
}
