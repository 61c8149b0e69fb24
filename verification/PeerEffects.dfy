/** The queue of consensus effects: a peer works it off in order, each effect possibly adding
    others behind, and carries on past failures. */
module PeerEffects {
  import opened Types
  import opened Blocks
  import opened RaftLog
  import opened RaftNode
  import opened RaftEngine
  import opened BlockKeeping
  import opened BlockStore
  import opened Ledger
  import opened BlockStaging
  import Voting

  datatype Engine = VotingMode(voting: Voting.VotingConsensus) | RaftMode(raft: RaftConsensus)

  /** The world at one effect: peers known, whether a client signature holds, disk and hash maps. */
  datatype World = World(known: set<PeerId>, signed: bool, env: Env)

  // ----------------------------------------------------------------- ranking

  /** What an effect may queue: a staged transaction no further transactions, a proposal
      neither, anything else nothing. */
  ghost predicate Ranked(e: Effect, produced: seq<Effect>) {
    match e
    case StageClientTransaction(_) => forall x :: x in produced ==> !x.StageClientTransaction?
    case ProposeBlock(_) => forall x :: x in produced ==> !x.StageClientTransaction? && !x.ProposeBlock?
    case _ => produced == []
  }

  function Stagings(queue: seq<Effect>): nat {
    if queue == [] then 0 else Stagings(queue[1..]) + (if queue[0].StageClientTransaction? then 1 else 0)
  }

  function Proposals(queue: seq<Effect>): nat {
    if queue == [] then 0 else Proposals(queue[1..]) + (if queue[0].ProposeBlock? then 1 else 0)
  }

  lemma {:induction false} CountsConcat(a: seq<Effect>, b: seq<Effect>)
    ensures Stagings(a + b) == Stagings(a) + Stagings(b) && Proposals(a + b) == Proposals(a) + Proposals(b)
  {
    if a == [] {
      assert a + b == b;
    } else {
      assert (a + b)[1..] == a[1..] + b;
      CountsConcat(a[1..], b);
    }
  }

  lemma {:induction false} NoneCounted(a: seq<Effect>)
    ensures (forall x :: x in a ==> !x.StageClientTransaction?) ==> Stagings(a) == 0
    ensures (forall x :: x in a ==> !x.ProposeBlock?) ==> Proposals(a) == 0
  {
    if a != [] {
      NoneCounted(a[1..]);
      assert forall x :: x in a[1..] ==> x in a;
    }
  }

  /** Working off the head of the queue lowers the measure (stagings, proposals, length). */
  lemma QueueShrinks(queue: seq<Effect>, produced: seq<Effect>)
    requires queue != [] && Ranked(queue[0], produced)
    ensures var queue' := queue[1..] + produced;
      || Stagings(queue') < Stagings(queue)
      || (Stagings(queue') == Stagings(queue) && Proposals(queue') < Proposals(queue))
      || (Stagings(queue') == Stagings(queue) && Proposals(queue') == Proposals(queue) && |queue'| < |queue|)
  {
    CountsConcat(queue[1..], produced);
    NoneCounted(produced);
  }

  // ------------------------------------------------------------------- traces

  /** One effect as it was carried out: what it queued, whether it failed, and the block layer
      before and after. */
  datatype Attempt = Attempt(effect: Effect, produced: seq<Effect>, failed: bool, before: Layer, after: Layer)

  function Attempted(trace: seq<Attempt>): seq<Effect> {
    seq(|trace|, i requires 0 <= i < |trace| => trace[i].effect)
  }

  function Produced(trace: seq<Attempt>): seq<Effect> {
    if trace == [] then [] else Produced(trace[..|trace| - 1]) + trace[|trace| - 1].produced
  }

  function Failures(trace: seq<Attempt>): nat {
    if trace == [] then 0
    else Failures(trace[..|trace| - 1]) + (if trace[|trace| - 1].failed then 1 else 0)
  }

  /** The k-th attempt is the k-th effect queued by then. */
  ghost predicate Due(trace: seq<Attempt>, effects: seq<Effect>, k: nat)
    requires k < |trace|
  {
    var queued := effects + Produced(trace[..k]);
    k < |queued| && trace[k].effect == queued[k]
  }

  /** First in, first out, nothing skipped and nothing twice: the effects attempted are the ones
      handed in followed by everything the attempts themselves queued, in that order, and each was
      queued before it was attempted. */
  ghost predicate Serves(trace: seq<Attempt>, effects: seq<Effect>) {
    && Attempted(trace) == effects + Produced(trace)
    && (forall k :: 0 <= k < |trace| ==> Due(trace, effects, k))
    && forall i :: 0 <= i < |trace| ==> Ranked(trace[i].effect, trace[i].produced)
  }

  /** What one effect does to the block layer, and when it fails. */
  ghost predicate Explains(hasher: Hasher, w: World, e: Effect, s: Layer, s': Layer, failed: bool) {
    if e.StageClientTransaction? then
      var r := StageClient(hasher, s, e.tx, w.signed);
      s' == (if r.Some? then r.value else s) && (r == None ==> failed)
    else if OnBlocks(e) then
      var r := Execute(hasher, s, e, w.env);
      s' == r.layer && (failed <==> r.error.Some?)
    else if e.ProposeBlock? && w.known == {} then
      var r := Commit(s.keeper, e.hash, w.env.writes);
      s' == (if r.Some? then s.(keeper := r.value) else s) && (failed <==> r == None)
    else
      && s' == s
      && (failed <==> e.SendRaftAppendEntries? && exists k :: 0 <= k < |e.entries| && !e.entries[k].IsNoop() && !Findable(s.keeper, e.entries[k].hash))
  }

  /** The i-th attempt starts where the one before ended and does what its effect says. */
  ghost predicate Follows(hasher: Hasher, trace: seq<Attempt>, world: nat -> World, s: Layer, i: nat)
    requires i < |trace|
  {
    var a := trace[i];
    && a.before == (if i == 0 then s else trace[i - 1].after)
    && Explains(hasher, world(i), a.effect, a.before, a.after, a.failed)
  }

  ghost predicate Chained(hasher: Hasher, trace: seq<Attempt>, world: nat -> World, s: Layer, s': Layer) {
    && (forall i :: 0 <= i < |trace| ==> Follows(hasher, trace, world, s, i))
    && s' == if trace == [] then s else trace[|trace| - 1].after
  }

  lemma ChainedSnoc(hasher: Hasher, trace: seq<Attempt>, world: nat -> World, s: Layer, a: Attempt)
    requires Chained(hasher, trace, world, s, a.before)
    requires Explains(hasher, world(|trace|), a.effect, a.before, a.after, a.failed)
    ensures Chained(hasher, trace + [a], world, s, a.after)
  {
    var t := trace + [a];
    forall i | 0 <= i < |t| ensures Follows(hasher, t, world, s, i) {
      if i < |trace| {
        assert Follows(hasher, trace, world, s, i);
        assert t[i] == trace[i];
      }
    }
  }

  lemma DueSnoc(trace: seq<Attempt>, effects: seq<Effect>, queue: seq<Effect>, a: Attempt)
    requires forall k :: 0 <= k < |trace| ==> Due(trace, effects, k)
    requires queue != [] && a.effect == queue[0] && Attempted(trace) + queue == effects + Produced(trace)
    ensures forall k :: 0 <= k < |trace + [a]| ==> Due(trace + [a], effects, k)
  {
    var t := trace + [a];
    forall k | 0 <= k < |t| ensures Due(t, effects, k) {
      assert t[..k] == trace[..k];
      if k < |trace| {
        assert Due(trace, effects, k);
      } else {
        assert trace[..k] == trace;
        assert (Attempted(trace) + queue)[k] == queue[0];
      }
    }
  }

  /** The list in the middle of being worked off, with this queue left. */
  ghost predicate Working(trace: seq<Attempt>, queue: seq<Effect>, effects: seq<Effect>) {
    && Attempted(trace) + queue == effects + Produced(trace)
    && (forall k :: 0 <= k < |trace| ==> Due(trace, effects, k))
    && forall i :: 0 <= i < |trace| ==> Ranked(trace[i].effect, trace[i].produced)
  }

  ghost predicate Bounded(trace: seq<Attempt>) {
    forall i :: 0 <= i < |trace| ==> Cost(trace[i].effect) > TotalCost(trace[i].produced)
  }

  lemma WorkingSnoc(trace: seq<Attempt>, queue: seq<Effect>, effects: seq<Effect>, a: Attempt)
    requires Working(trace, queue, effects) && queue != [] && a.effect == queue[0] && Ranked(a.effect, a.produced)
    ensures Working(trace + [a], queue[1..] + a.produced, effects)
    ensures Failures(trace + [a]) == Failures(trace) + (if a.failed then 1 else 0)
    ensures Bounded(trace) && Cost(a.effect) > TotalCost(a.produced) ==> Bounded(trace + [a])
  {
    TraceSnoc(trace, a);
    DueSnoc(trace, effects, queue, a);
    Requeued(Attempted(trace), queue, effects, Produced(trace), a.produced);
  }

  /** A list in which nothing queues anything is worked off as it stands. */
  lemma {:induction false} NothingQueued(trace: seq<Attempt>, effects: seq<Effect>, k: nat)
    requires Serves(trace, effects) && k <= |trace|
    requires forall x :: x in effects ==> !x.StageClientTransaction? && !x.ProposeBlock?
    ensures k <= |effects| && Produced(trace[..k]) == []
  {
    if k > 0 {
      NothingQueued(trace, effects, k - 1);
      assert Due(trace, effects, k - 1);
      assert trace[k - 1].effect in effects;
      assert Ranked(trace[k - 1].effect, trace[k - 1].produced);
      assert trace[..k][..k - 1] == trace[..k - 1];
    }
  }

  lemma ServedAsGiven(trace: seq<Attempt>, effects: seq<Effect>)
    requires Serves(trace, effects) && forall x :: x in effects ==> !x.StageClientTransaction? && !x.ProposeBlock?
    ensures |trace| == |effects| && forall i :: 0 <= i < |trace| ==> trace[i].effect == effects[i]
  {
    NothingQueued(trace, effects, |trace|);
    assert trace[..|trace|] == trace;
    assert Attempted(trace) == effects;
    forall i | 0 <= i < |trace| ensures trace[i].effect == effects[i] {
      assert Attempted(trace)[i] == trace[i].effect;
    }
  }

  lemma TraceSnoc(trace: seq<Attempt>, a: Attempt)
    ensures var t := trace + [a];
      && Attempted(t) == Attempted(trace) + [a.effect] && Produced(t) == Produced(trace) + a.produced
      && Failures(t) == Failures(trace) + (if a.failed then 1 else 0)
  {
    var t := trace + [a];
    assert t[..|t| - 1] == trace;
    assert Attempted(t) == Attempted(trace) + [a.effect];
  }

  /** In voting mode: a staged transaction, its proposal, the decision and its announcement. */
  function Cost(e: Effect): nat {
    if e.StageClientTransaction? then 4 else if e.ProposeBlock? then 3 else 1
  }

  function TotalCost(queue: seq<Effect>): nat {
    if queue == [] then 0 else TotalCost(queue[..|queue| - 1]) + Cost(queue[|queue| - 1])
  }

  lemma {:induction false} CostConcat(a: seq<Effect>, b: seq<Effect>)
    ensures TotalCost(a + b) == TotalCost(a) + TotalCost(b)
  {
    if b == [] {
      assert a + b == a;
    } else {
      assert (a + b)[..|a + b| - 1] == a + b[..|b| - 1];
      CostConcat(a, b[..|b| - 1]);
    }
  }

  lemma {:induction false} CostOfTrace(trace: seq<Attempt>)
    requires Bounded(trace)
    ensures TotalCost(Attempted(trace)) >= |trace| + TotalCost(Produced(trace))
  {
    if trace != [] {
      var n := |trace| - 1;
      CostOfTrace(trace[..n]);
      assert trace == trace[..n] + [trace[n]];
      TraceSnoc(trace[..n], trace[n]);
      CostConcat(Attempted(trace[..n]), [trace[n].effect]);
      assert [trace[n].effect][..0] == [];
      CostConcat(Produced(trace[..n]), trace[n].produced);
    }
  }

  /** The work an effect list causes is bounded by its cost, however the queue grows meanwhile. */
  lemma AttemptsBounded(trace: seq<Attempt>, effects: seq<Effect>)
    requires Serves(trace, effects)
    requires Bounded(trace)
    ensures |trace| <= TotalCost(effects)
  {
    CostOfTrace(trace);
    CostConcat(effects, Produced(trace));
  }

  // ------------------------------------------------------------ engine answers

  lemma {:induction false} LocalMembers(effects: seq<Effect>, x: Effect)
    requires x in effects && !IsWire(x)
    ensures x in Local(effects)
  {
    if effects[0] != x {
      LocalMembers(effects[1..], x);
    }
  }

  /** A new block in Raft mode queues messages and commits only. */
  lemma RaftAnswers(n: Node, hash: BlockHash, effects: seq<Effect>, x: Effect)
    requires OnBlockCreated(n, hash).Some? && Realises(effects, OnBlockCreated(n, hash).value) && x in effects
    ensures IsWire(x) || x.CommitBlock?
  {
    if !IsWire(x) {
      LocalMembers(effects, x);
    }
  }

  lemma VotingAnswers(me: PeerId, ballots: Voting.Ballots, known: set<PeerId>, hash: BlockHash)
    ensures var effects := Voting.React(me, ballots, known, Voting.LocalProposal(hash)).effects;
      |effects| <= 2 && forall x :: x in effects ==> x.CommitBlock? || x.RollbackBlock? || x.Broadcast?
  {
  }

  /** A client transaction is refused for a bad signature or by the ledger, or is booked and pooled. */
  function StageClient(hasher: Hasher, s: Layer, tx: SignedTx, signed: bool): Option<Layer> {
    if !signed then None
    else
      var r := Process(s.ledger, tx);
      if r.error.Some? then None
      else Some(s.(ledger := r.state, keeper := Add(hasher, s.keeper, tx)))
  }

  predicate Findable(k: Keeper, hash: BlockHash) {
    hash in k.staged || exists name :: name in k.files && k.files[name].Encoded? && k.files[name].block.hash == hash
  }

  /** The block that a client transaction completes, if it is taken and fills the mempool. */
  function Completes(hasher: Hasher, s: Layer, tx: SignedTx, signed: bool): Option<BlockHash> {
    var pool := s.keeper.mempool[tx.id := tx];
    if StageClient(hasher, s, tx, signed) == None || |pool| < s.keeper.size then None
    else Some(hasher(ById(pool), s.keeper.lastHash))
  }

  /** The state of an engine. */
  datatype Mind = VotingMind(id: PeerId, ballots: Voting.Ballots) | RaftMind(node: Node)

  /** The engine's answer to a block created here: in voting mode to propose it, in Raft mode what the
      node model says, or the refusal to start a second one. */
  ghost predicate AnswersCreated(m: Mind, hash: BlockHash, m': Mind, produced: seq<Effect>, failed: bool) {
    match m
    case VotingMind(_, _) => m' == m && produced == [ProposeBlock(hash)] && !failed
    case RaftMind(n) =>
      match RaftNode.OnBlockCreated(n, hash)
      case None => m' == m && produced == [] && failed
      case Some(o) => m' == RaftMind(o.node) && Realises(produced, o) && !failed
  }

  /** The engine's answer to its own proposal: in voting mode the own vote counts, in Raft mode nothing. */
  ghost predicate AnswersProposed(m: Mind, known: set<PeerId>, hash: BlockHash, m': Mind, produced: seq<Effect>) {
    match m
    case VotingMind(id, ballots) =>
      var r := Voting.React(id, ballots, known, Voting.LocalProposal(hash));
      m' == VotingMind(id, r.ballots) && produced == r.effects
    case RaftMind(_) => m' == m && produced == []
  }

  /** Exactly what an effect adds to the queue. */
  ghost predicate Queues(hasher: Hasher, w: World, e: Effect, m: Mind, m': Mind, s: Layer, produced: seq<Effect>, failed: bool) {
    match e
    case StageClientTransaction(tx) =>
      (match Completes(hasher, s, tx, w.signed)
       case Some(hash) => AnswersCreated(m, hash, m', produced, failed)
       case None => m' == m && produced == [] && (failed <==> StageClient(hasher, s, tx, w.signed) == None))
    case ProposeBlock(hash) =>
      if w.known == {} then m' == m && produced == [] else AnswersProposed(m, w.known, hash, m', produced)
    case StageRaftEntries(_) => produced == []
    case _ => m' == m && produced == []
  }

  /** Effects on the block layer alone. */
  predicate OnBlocks(e: Effect) {
    e.StageRaftEntries? || e.RollbackBlock? || e.CommitBlock?
  }

  // -------------------------------------------------------------- the executor

  class PeerEffects {
    const processor: TransactionProcessor
    const keeper: BlockKeeper
    var lastCompleted: BlockHash

    constructor (processor: TransactionProcessor, keeper: BlockKeeper)
      ensures this.processor == processor && this.keeper == keeper && lastCompleted == EMPTY_HASH
    {
      this.processor, this.keeper, lastCompleted := processor, keeper, EMPTY_HASH;
    }

    static ghost function Objects(engine: Engine): set<object> {
      match engine case VotingMode(v) => {v} case RaftMode(r) => {r}
    }

    static ghost function MindOf(engine: Engine): Mind
      reads Objects(engine)
    {
      match engine case VotingMode(v) => VotingMind(v.id, v.ballots) case RaftMode(r) => RaftMind(r.State())
    }

    ghost predicate Valid(engine: Engine)
      reads Objects(engine)
    {
      match engine
      case VotingMode(v) => Voting.AllSound(v.ballots)
      case RaftMode(r) => r.Valid()
    }

    ghost function BlockLayer(engine: Engine): Layer
      reads this, processor, keeper, Objects(engine)
    {
      Layer(processor.State(), keeper.State(), match engine case VotingMode(_) => map[] case RaftMode(r) => r.pending, lastCompleted)
    }

    method ApplyBlockTransactions(block: BlockFile)
      modifies processor
      ensures processor.State() == ProcessAll(old(processor.State()), block.transactions)
    {
      var txs := block.transactions;
      var i := 0;
      while i < |txs|
        invariant 0 <= i <= |txs|
        invariant processor.State() == ProcessAll(old(processor.State()), txs[..i])
      {
        assert txs[..i + 1][..i] == txs[..i];
        var _ := processor.ProcessTransaction(txs[i]);
        i := i + 1;
      }
      assert txs[..i] == txs;
    }

    method TakePending(engine: Engine, hash: BlockHash) returns (b: Option<BlockFile>)
      requires Valid(engine)
      modifies Objects(engine)
      ensures Valid(engine)
      ensures var s := old(BlockLayer(engine));
        BlockLayer(engine) == s.(payloads := s.payloads - {hash}) && b == if hash in s.payloads then Some(s.payloads[hash]) else None
    {
      match engine {
        case VotingMode(_) => b := None;
        case RaftMode(r) => b := r.TakePendingBlock(hash);
      }
    }

    method StageRaftEntry(engine: Engine, entry: Entry, prefer: BlockHash) returns (error: Option<StageError>)
      requires Valid(engine)
      modifies processor, keeper, Objects(engine)
      ensures Valid(engine)
      ensures Staging(BlockLayer(engine), error) == StageEntry(keeper.hasher, old(BlockLayer(engine)), entry, prefer)
    {
      if entry.IsNoop() {
        return None;
      }
      var payload := TakePending(engine, entry.hash);
      if entry.hash in keeper.staged {
        return None;
      }
      if payload.None? {
        return Some(NotFound(entry.hash, entry.index));
      }
      var linked := keeper.BlockCanBeAdded(payload.value, prefer);
      if !linked {
        return Some(Unlinked(entry.hash, entry.index));
      }
      ApplyBlockTransactions(payload.value);
      var added := keeper.AddExternalBlock(payload.value);
      error := if added then None else Some(Unverified(entry.hash, entry.index));
    }

    method StageRaftEntries(engine: Engine, entries: seq<Entry>, prefer: nat -> BlockHash) returns (error: Option<StageError>)
      requires Valid(engine)
      modifies processor, keeper, Objects(engine)
      ensures Valid(engine)
      ensures Staging(BlockLayer(engine), error) == StageEntries(keeper.hasher, old(BlockLayer(engine)), entries, prefer, 0)
    {
      var k := 0;
      while k < |entries|
        invariant 0 <= k <= |entries| && Valid(engine)
        invariant StageEntries(keeper.hasher, BlockLayer(engine), entries, prefer, k)
               == StageEntries(keeper.hasher, old(BlockLayer(engine)), entries, prefer, 0)
      {
        error := StageRaftEntry(engine, entries[k], prefer(k));
        if error.Some? {
          return;
        }
        k := k + 1;
      }
      error := None;
    }

    method ApplySynchronizedBlock(engine: Engine, block: BlockFile, env: Env) returns (error: Option<StageError>)
      requires Valid(engine)
      modifies this, processor, keeper
      ensures Valid(engine)
      ensures Staging(BlockLayer(engine), error) == ApplySynced(keeper.hasher, old(BlockLayer(engine)), block, env)
    {
      var linked := keeper.BlockCanBeAdded(block, env.prefer(0));
      if !linked {
        return Some(Unlinked(block.hash, block.index));
      }
      ApplyBlockTransactions(block);
      var added := keeper.AddExternalBlock(block);
      if !added {
        return Some(Unverified(block.hash, block.index));
      }
      var committed := keeper.CommitBlock(block.hash, env.writes);
      if !committed {
        return Some(NotCommitted(block.hash));
      }
      lastCompleted := block.hash;
      error := None;
    }

    method StageClientTransaction(engine: Engine, tx: SignedTx, signed: bool) returns (status: Option<BlockStatus>)
      modifies processor, keeper
      ensures var r := StageClient(keeper.hasher, old(BlockLayer(engine)), tx, signed);
        (status.Some? <==> r.Some?) && BlockLayer(engine) == if r.Some? then r.value else old(BlockLayer(engine))
      ensures MindOf(engine) == old(MindOf(engine))
      ensures var hash := Completes(keeper.hasher, old(BlockLayer(engine)), tx, signed);
        if status.Some? && status.value.NewBlockCreated? then hash == Some(status.value.hash) else hash == None
    {
      if !signed {
        return None;
      }
      var refused := processor.ProcessTransaction(tx);
      if refused.Some? {
        return None;
      }
      var added := keeper.AddTransaction(tx);
      status := Some(added);
    }

    /** What the engine answers to a block created here; `None` is a refusal. */
    method OnBlockCreated(engine: Engine, hash: BlockHash) returns (answer: Option<seq<Effect>>)
      requires Valid(engine)
      modifies Objects(engine)
      ensures Valid(engine) && BlockLayer(engine) == old(BlockLayer(engine))
      ensures answer.Some? ==> forall x :: x in answer.value ==> !x.StageClientTransaction?
      ensures AnswersCreated(old(MindOf(engine)), hash, MindOf(engine), if answer.Some? then answer.value else [], answer == None)
    {
      match engine {
        case VotingMode(_) => answer := Some([ProposeBlock(hash)]);
        case RaftMode(r) =>
          ghost var n := r.State();
          var created := r.HandleBlockCreated(hash);
          if created.Ok? {
            answer := Some(created.value);
            forall x | x in created.value ensures !x.StageClientTransaction? {
              RaftAnswers(n, hash, created.value, x);
            }
          } else {
            answer := None;
          }
      }
    }

    method OnLocalBlockProposed(engine: Engine, known: set<PeerId>, hash: BlockHash) returns (produced: seq<Effect>)
      requires Valid(engine)
      modifies Objects(engine)
      ensures Valid(engine) && BlockLayer(engine) == old(BlockLayer(engine))
      ensures |produced| <= 2 && forall x :: x in produced ==> x.CommitBlock? || x.RollbackBlock? || x.Broadcast?
      ensures AnswersProposed(old(MindOf(engine)), known, hash, MindOf(engine), produced)
    {
      match engine {
        case VotingMode(v) =>
          VotingAnswers(v.id, v.ballots, known, hash);
          produced := v.OnLocalBlockProposed(known, hash);
        case RaftMode(_) => produced := [];
      }
    }

    /** One effect of the block layer. */
    method ExecuteOnBlocks(engine: Engine, e: Effect, env: Env) returns (failed: bool)
      requires Valid(engine) && OnBlocks(e)
      modifies this, processor, keeper, Objects(engine)
      ensures Valid(engine)
      ensures var r := Execute(keeper.hasher, old(BlockLayer(engine)), e, env);
        BlockLayer(engine) == r.layer && (failed <==> r.error.Some?)
      ensures !e.StageRaftEntries? ==> MindOf(engine) == old(MindOf(engine))
    {
      match e {
        case StageRaftEntries(entries) =>
          var error := StageRaftEntries(engine, entries, env.prefer);
          failed := error.Some?;
        case CommitBlock(hash) =>
          var ok := keeper.CommitBlock(hash, env.writes);
          if ok {
            lastCompleted := hash;
          }
          failed := !ok;
        case RollbackBlock(hash) =>
          if hash in keeper.staged {
            processor.RollbackTransactions(keeper.staged[hash].transactions);
            var _ := keeper.RollbackBlock(hash);
          }
          lastCompleted := hash;
          failed := false;
        case _ => assert false;
      }
    }

    /** One effect; what it adds to the queue, and whether it failed. */
    method ExecuteEffect(engine: Engine, e: Effect, w: World) returns (produced: seq<Effect>, failed: bool)
      requires Valid(engine)
      modifies this, processor, keeper, Objects(engine)
      ensures Valid(engine) && Ranked(e, produced) && (failed ==> produced == [])
      ensures engine.VotingMode? ==> Cost(e) > TotalCost(produced)
      ensures Explains(keeper.hasher, w, e, old(BlockLayer(engine)), BlockLayer(engine), failed)
      ensures Queues(keeper.hasher, w, e, old(MindOf(engine)), MindOf(engine), old(BlockLayer(engine)), produced, failed)
    {
      produced, failed := [], false;
      if OnBlocks(e) {
        failed := ExecuteOnBlocks(engine, e, w.env);
        return;
      }
      match e {
        case StageClientTransaction(tx) =>
          produced, failed := ExecuteStaging(engine, tx, w.signed);
        case ProposeBlock(hash) =>
          if w.known == {} {
            var ok := keeper.CommitBlock(hash, w.env.writes);
            failed := !ok;
          } else {
            produced := OnLocalBlockProposed(engine, w.known, hash);
            SmallCost(produced);
          }
        case SendRaftAppendEntries(_, _, _, _, entries, _) =>
          failed := exists k :: 0 <= k < |entries| && !entries[k].IsNoop() && !Findable(keeper.State(), entries[k].hash);
        case _ =>
      }
    }

    method ExecuteStaging(engine: Engine, tx: SignedTx, signed: bool) returns (produced: seq<Effect>, failed: bool)
      requires Valid(engine)
      modifies processor, keeper, Objects(engine)
      ensures Valid(engine) && (forall x :: x in produced ==> !x.StageClientTransaction?) && (failed ==> produced == [])
      ensures engine.VotingMode? ==> TotalCost(produced) <= 3
      ensures var r := StageClient(keeper.hasher, old(BlockLayer(engine)), tx, signed);
        BlockLayer(engine) == (if r.Some? then r.value else old(BlockLayer(engine))) && (r == None ==> failed)
      ensures match Completes(keeper.hasher, old(BlockLayer(engine)), tx, signed)
        case Some(hash) => AnswersCreated(old(MindOf(engine)), hash, MindOf(engine), produced, failed)
        case None =>
          MindOf(engine) == old(MindOf(engine)) && produced == [] && (failed <==> StageClient(keeper.hasher, old(BlockLayer(engine)), tx, signed) == None)
    {
      produced, failed := [], false;
      var status := StageClientTransaction(engine, tx, signed);
      if status.None? {
        failed := true;
      } else if status.value.NewBlockCreated? {
        var answer := OnBlockCreated(engine, status.value.hash);
        if answer.Some? {
          produced := answer.value;
          if engine.VotingMode? {
            assert produced[..0] == [];
          }
        } else {
          failed := true;
        }
      }
    }

    /** Runs every queued effect even if some fail; `world` is what each attempt finds. */
    method ExecuteAll(engine: Engine, effects: seq<Effect>, world: nat -> World) returns (errors: nat, ghost trace: seq<Attempt>)
      requires Valid(engine)
      modifies this, processor, keeper, Objects(engine)
      ensures Valid(engine)
      ensures Serves(trace, effects) && errors == Failures(trace)
      ensures Chained(keeper.hasher, trace, world, old(BlockLayer(engine)), BlockLayer(engine))
      ensures engine.VotingMode? ==> |trace| <= TotalCost(effects)
    {
      var queue := effects;
      errors, trace := 0, [];
      var step := 0;
      assert Attempted([]) == [];
      while queue != []
        invariant Valid(engine)
        invariant Working(trace, queue, effects) && (engine.VotingMode? ==> Bounded(trace))
        invariant Chained(keeper.hasher, trace, world, old(BlockLayer(engine)), BlockLayer(engine))
        invariant errors == Failures(trace) && step == |trace|
        decreases Stagings(queue), Proposals(queue), |queue|
      {
        var e := queue[0];
        ghost var before := BlockLayer(engine);
        var produced, failed := ExecuteEffect(engine, e, world(step));
        ghost var attempt := Attempt(e, produced, failed, before, BlockLayer(engine));
        QueueShrinks(queue, produced);
        WorkingSnoc(trace, queue, effects, attempt);
        ChainedSnoc(keeper.hasher, trace, world, old(BlockLayer(engine)), attempt);
        queue := queue[1..] + produced;
        trace := trace + [attempt];
        errors := errors + (if failed then 1 else 0);
        step := step + 1;
      }
      if engine.VotingMode? {
        AttemptsBounded(trace, effects);
      }
    }
  }

  lemma Requeued(done: seq<Effect>, queue: seq<Effect>, effects: seq<Effect>, before: seq<Effect>, produced: seq<Effect>)
    requires queue != [] && done + queue == effects + before
    ensures done + [queue[0]] + (queue[1..] + produced) == effects + (before + produced)
  {
    assert queue == [queue[0]] + queue[1..];
    assert done + [queue[0]] + (queue[1..] + produced) == (done + queue) + produced;
  }

  lemma SmallCost(produced: seq<Effect>)
    requires |produced| <= 2 && forall x :: x in produced ==> x.CommitBlock? || x.RollbackBlock? || x.Broadcast?
    ensures TotalCost(produced) <= 2
  {
    if |produced| == 2 {
      assert produced[1] in produced && produced[0] in produced;
      assert produced[..1][..0] == [] && produced[..1][0] == produced[0];
    } else if |produced| == 1 {
      assert produced[..0] == [] && produced[0] in produced;
    }
  }
}
