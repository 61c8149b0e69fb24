/** What one node guarantees by itself, over any sequence of inputs from a hostile or
    faulty environment. */
module RaftNodeRuns {
  import opened Types
  import opened RaftLog
  import opened RaftNode

  datatype Input =
    | Tick(known: set<PeerId>, electionDue: bool, heartbeatDue: bool)
    | VoteRequest(term: nat, candidate: PeerId, lastIndex: nat, lastTerm: nat, from: PeerId)
    | VoteReply(term: nat, voter: PeerId, granted: bool)
    | Append(request: AppendRequest, checked: Result<Validated>, timedOut: bool)
    | AppendReply(term: nat, from: PeerId, success: bool, matchIndex: nat)
    | BlockCreated(hash: BlockHash)
    | TakePending(hash: BlockHash)

  /** One handler call; a refused local block changes nothing. */
  function React(n: Node, i: Input): Outcome {
    match i
    case Tick(known, electionDue, heartbeatDue) => OnTick(n, known, electionDue, heartbeatDue)
    case VoteRequest(term, candidate, li, lt, from) => OnRequestVote(n, term, candidate, li, lt, from)
    case VoteReply(term, voter, granted) => OnRequestVoteResponse(n, term, voter, granted)
    case Append(request, checked, timedOut) => OnAppendEntries(n, request, checked, timedOut)
    case AppendReply(term, from, success, mi) => OnAppendEntriesResponse(n, term, from, success, mi)
    case BlockCreated(hash) =>
      (match OnBlockCreated(n, hash) case Some(o) => o case None => Outcome(n, [], {}))
    case TakePending(hash) => Outcome(n.(pending := n.pending - {hash}), [], {})
  }

  /** Node and local effects after a sequence of inputs. */
  function RunNode(n: Node, inputs: seq<Input>): Node {
    if inputs == [] then n else React(RunNode(n, inputs[..|inputs| - 1]), inputs[|inputs| - 1]).node
  }

  function RunEffects(n: Node, inputs: seq<Input>): seq<Effect> {
    if inputs == [] then []
    else RunEffects(n, inputs[..|inputs| - 1])
         + React(RunNode(n, inputs[..|inputs| - 1]), inputs[|inputs| - 1]).local
  }

  // ------------------------------------------------------------ effect streams

  function Commits(effects: seq<Effect>): seq<BlockHash> {
    if effects == [] then []
    else (if effects[0].CommitBlock? then [effects[0].hash] else []) + Commits(effects[1..])
  }

  function Rollbacks(effects: seq<Effect>): seq<BlockHash> {
    if effects == [] then []
    else (if effects[0].RollbackBlock? then [effects[0].hash] else []) + Rollbacks(effects[1..])
  }

  lemma {:induction false} CommitsConcat(a: seq<Effect>, b: seq<Effect>)
    ensures Commits(a + b) == Commits(a) + Commits(b)
  {
    if a == [] {
      assert a + b == b;
    } else {
      assert (a + b)[0] == a[0] && (a + b)[1..] == a[1..] + b;
      CommitsConcat(a[1..], b);
    }
  }

  lemma {:induction false} RollbacksConcat(a: seq<Effect>, b: seq<Effect>)
    ensures Rollbacks(a + b) == Rollbacks(a) + Rollbacks(b)
  {
    if a == [] {
      assert a + b == b;
    } else {
      assert (a + b)[0] == a[0] && (a + b)[1..] == a[1..] + b;
      RollbacksConcat(a[1..], b);
    }
  }

  lemma StreamsConcat(a: seq<Effect>, b: seq<Effect>)
    ensures Commits(a + b) == Commits(a) + Commits(b)
    ensures Rollbacks(a + b) == Rollbacks(a) + Rollbacks(b)
  {
    CommitsConcat(a, b);
    RollbacksConcat(a, b);
  }

  lemma {:induction false} CommitEffectsStream(hashes: seq<BlockHash>)
    ensures Commits(CommitEffects(hashes)) == hashes && Rollbacks(CommitEffects(hashes)) == []
  {
    if hashes != [] {
      assert CommitEffects(hashes)[1..] == CommitEffects(hashes[1..]);
      CommitEffectsStream(hashes[1..]);
    }
  }

  lemma {:induction false} RollbackEffectsStream(hashes: seq<BlockHash>)
    ensures Rollbacks(RollbackEffects(hashes)) == hashes && Commits(RollbackEffects(hashes)) == []
  {
    if hashes != [] {
      assert RollbackEffects(hashes)[1..] == RollbackEffects(hashes[1..]);
      RollbackEffectsStream(hashes[1..]);
    }
  }

  // ----------------------------------------------------------- commit advance

  lemma AdvanceCommitExact(n: Node)
    requires n.commit <= |n.log|
    ensures var c := AdvanceCommit(n).commit;
      && n.commit <= c <= |n.log|
      && (c > n.commit <==> exists j :: n.commit < j <= |n.log| && Committable(n, j))
      && (c > n.commit ==> Committable(n, c))
      && (forall j :: c < j <= |n.log| ==> !Committable(n, j))
  {
    ScanExact(n, |n.log|);
  }

  // ------------------------------------------------------------- one step each

  /** What every handler call keeps. */
  ghost predicate StepKeeps(n: Node, o: Outcome) {
    && Sound(o.node) && n.term <= o.node.term
    && n.commit <= o.node.commit && n.commit <= |n.log|
    && o.node.log[..n.commit] == n.log[..n.commit]
    && Commits(o.local) == BlockHashes(o.node.log[n.commit..o.node.commit])
    && (Durable(n) ==> Durable(o.node))
  }

  /** Reloading the store gives back the log and commit index in memory. */
  ghost predicate Durable(n: Node) {
    forall hint :: var r := Fresh(n.id, n.store, hint); r.log == n.log && r.commit == n.commit
  }

  lemma PersistDurable(n: Node)
    requires Sound(n)
    ensures Durable(Persist(n))
  {
  }

  lemma CommitsBetweenStream(log: seq<Entry>, from: nat, to: nat)
    requires from <= to <= |log|
    ensures Commits(CommitsBetween(log, from, to)) == BlockHashes(log[from..to])
    ensures Rollbacks(CommitsBetween(log, from, to)) == []
  {
    CommitEffectsStream(BlockHashes(log[from..to]));
  }

  /** Handlers that leave log, commit index and store alone. */
  lemma IdleKeeps(n: Node, o: Outcome)
    requires Sound(n) && o.local == [] && o.node.id == n.id && n.term <= o.node.term
    requires o.node.log == n.log && o.node.commit == n.commit && o.node.store == n.store
    ensures StepKeeps(n, o)
  {
    assert n.log[n.commit..n.commit] == [];
    if Durable(n) {
      forall hint ensures var r := Fresh(o.node.id, o.node.store, hint); r.log == n.log && r.commit == n.commit {
        assert Fresh(o.node.id, o.node.store, hint) == Fresh(n.id, n.store, hint);
      }
    }
  }

  lemma AppendOwnKeeps(n: Node, hash: BlockHash)
    requires Sound(n)
    ensures StepKeeps(n, AppendOwn(n, hash))
  {
    var e := Entry(n.term, LastIndex(n.log) + 1, hash);
    var n1 := n.(log := n.log + [e], matched := n.matched[n.id := e.index]);
    ScanExact(n1, |n1.log|);
    CommitsBetweenStream(n1.log, n1.commit, AdvanceCommit(n1).commit);
    PersistDurable(AdvanceCommit(n1));
  }

  lemma AppendReplyKeeps(n: Node, term: nat, from: PeerId, success: bool, matchIndex: nat)
    requires Sound(n)
    ensures StepKeeps(n, OnAppendEntriesResponse(n, term, from, success, matchIndex))
  {
    var o := OnAppendEntriesResponse(n, term, from, success, matchIndex);
    if term == n.term && n.role == Leader && from in n.participants && success {
      var previous := if from in n.matched then n.matched[from] else 0;
      var n1 := n.(matched := n.matched[from := Max(previous, matchIndex)]);
      ScanExact(n1, |n1.log|);
      CommitsBetweenStream(n.log, n.commit, AdvanceCommit(n1).commit);
      if o.node.commit != n.commit {
        PersistDurable(AdvanceCommit(n1));
      } else {
        assert n.log[n.commit..n.commit] == [];
        assert o.local == [];
        IdleKeeps(n, o);
      }
    } else {
      IdleKeeps(n, o);
    }
  }

  /** The committed prefix survives an accepted append, and the new log is well formed. */
  lemma AppendedKeeps(n: Node, prevIndex: nat, prevTerm: nat, entries: seq<Entry>, leaderCommit: nat)
    requires Sound(n) && Accepts(n, prevIndex, prevTerm, entries)
    ensures var n1 := Appended(n, prevIndex, prevTerm, entries, leaderCommit);
      Sound(n1) && n.commit <= n1.commit && n1.log[..n.commit] == n.log[..n.commit]
  {
    MergeWellFormed(n.log, prevIndex, entries);
    MergeKeepsPrefix(n.log, prevIndex, entries, n.commit);
  }

  /** The effects of an accepted append: rollbacks are exactly the discarded blocks, commits
      are exactly the newly covered ones. */
  lemma AppendedStreams(n: Node, prevIndex: nat, prevTerm: nat, entries: seq<Entry>, leaderCommit: nat)
    requires Sound(n) && Accepts(n, prevIndex, prevTerm, entries)
    ensures var n1 := Appended(n, prevIndex, prevTerm, entries, leaderCommit);
      var effects := AppendedEffects(n, prevIndex, prevTerm, entries, leaderCommit);
      && n.commit <= n1.commit <= |n1.log|
      && Commits(effects) == BlockHashes(n1.log[n.commit..n1.commit])
      && Rollbacks(effects) == BlockHashes(Discarded(n.log, prevIndex, entries))
  {
    AppendedKeeps(n, prevIndex, prevTerm, entries, leaderCommit);
    var n1 := Appended(n, prevIndex, prevTerm, entries, leaderCommit);
    var staged := ToStage(entries, n.commit);
    var back := RollbackEffects(BlockHashes(Discarded(n.log, prevIndex, entries)));
    var stage := if staged == [] then [] else [StageRaftEntries(staged)];
    RollbackEffectsStream(BlockHashes(Discarded(n.log, prevIndex, entries)));
    CommitsBetweenStream(n1.log, n.commit, n1.commit);
    StreamsOfThree(back, staged, CommitsBetween(n1.log, n.commit, n1.commit));
  }

  lemma StreamsOfThree(back: seq<Effect>, staged: seq<Entry>, commits: seq<Effect>)
    ensures var stage := if staged == [] then [] else [StageRaftEntries(staged)];
      && Commits(back + stage + commits) == Commits(back) + Commits(commits)
      && Rollbacks(back + stage + commits) == Rollbacks(back) + Rollbacks(commits)
  {
    var stage := if staged == [] then [] else [StageRaftEntries(staged)];
    StreamsConcat(back, stage);
    StreamsConcat(back + stage, commits);
    assert Commits(stage) == [] && Rollbacks(stage) == [];
  }

  lemma CheckedAppendKeeps(n: Node, r: AppendRequest, v: Validated)
    requires Sound(n)
    ensures StepKeeps(n, OnCheckedAppend(n, r, v))
  {
    var o := OnCheckedAppend(n, r, v);
    if Accepts(n, r.prevIndex, r.prevTerm, v.entries) {
      AppendedKeeps(n, r.prevIndex, r.prevTerm, v.entries, r.leaderCommit);
      AppendedStreams(n, r.prevIndex, r.prevTerm, v.entries, r.leaderCommit);
      var n1 := Appended(n, r.prevIndex, r.prevTerm, v.entries, r.leaderCommit);
      var n2 := n1.(pending := Retain(n.pending, v.blocks, ToStage(v.entries, n.commit)));
      if v.entries != [] || n2.commit != n.commit {
        PersistDurable(n2);
      } else {
        NoEntriesNoChange(n, r.prevIndex);
        assert forall hint :: Fresh(n2.id, n2.store, hint) == Fresh(n.id, n.store, hint);
      }
    } else {
      IdleKeeps(n, o);
    }
  }

  lemma NoEntriesNoChange(n: Node, prevIndex: nat)
    requires prevIndex <= |n.log|
    ensures Merge(n.log, prevIndex, []) == n.log
  {
  }

  lemma AppendKeeps(n: Node, r: AppendRequest, checked: Result<Validated>, timedOut: bool)
    requires Sound(n)
    ensures StepKeeps(n, OnAppendEntries(n, r, checked, timedOut))
  {
    var o := OnAppendEntries(n, r, checked, timedOut);
    if Admits(n, r.term, r.leader, r.from, timedOut) && checked.Ok? {
      var n1 := Follow(StepDownOnNewer(n, r.term), r.leader);
      CheckedAppendKeeps(n1, r, checked.value);
      assert forall hint :: Fresh(n1.id, n1.store, hint) == Fresh(n.id, n.store, hint);
    } else {
      IdleKeeps(n, o);
    }
  }

  /** A freshly crowned leader appends its no-op. */
  lemma OfficeKeeps(n: Node, n1: Node, wire: set<Effect>)
    requires Sound(n) && n1.id == n.id && n.term <= n1.term && n1.log == n.log && n1.commit == n.commit && n1.store == n.store
    ensures StepKeeps(n, AppendNoop(n1).(wire := wire))
  {
    AppendOwnKeeps(n1, EMPTY_HASH);
    assert forall hint :: Fresh(n1.id, n1.store, hint) == Fresh(n.id, n.store, hint);
  }

  lemma TickKeeps(n: Node, known: set<PeerId>, electionDue: bool, heartbeatDue: bool)
    requires Sound(n)
    ensures StepKeeps(n, OnTick(n, known, electionDue, heartbeatDue))
  {
    var o := OnTick(n, known, electionDue, heartbeatDue);
    var n0 := UpdateParticipants(n, known);
    var n1 := BecomeLeaderIfMajority(Candidacy(n0));
    if n0.role != Leader && electionDue && n1.role == Leader {
      OfficeKeeps(n, n1, o.wire);
    } else {
      IdleKeeps(n, o);
    }
  }

  lemma VoteReplyKeeps(n: Node, term: nat, voter: PeerId, granted: bool)
    requires Sound(n)
    ensures StepKeeps(n, OnRequestVoteResponse(n, term, voter, granted))
  {
    var o := OnRequestVoteResponse(n, term, voter, granted);
    if term == n.term && n.role == Candidate && granted && voter in n.participants {
      var n1 := BecomeLeaderIfMajority(n.(votes := n.votes + {voter}));
      if n1.role == Leader {
        OfficeKeeps(n, n1, o.wire);
      } else {
        IdleKeeps(n, o);
      }
    } else {
      IdleKeeps(n, o);
    }
  }

  lemma ReactKeeps(n: Node, i: Input)
    requires Sound(n)
    ensures StepKeeps(n, React(n, i))
  {
    match i
    case Tick(known, electionDue, heartbeatDue) => TickKeeps(n, known, electionDue, heartbeatDue);
    case VoteReply(term, voter, granted) => VoteReplyKeeps(n, term, voter, granted);
    case Append(request, checked, timedOut) => AppendKeeps(n, request, checked, timedOut);
    case AppendReply(term, from, success, mi) => AppendReplyKeeps(n, term, from, success, mi);
    case BlockCreated(hash) =>
      if n.role == Leader && !HasUncommittedBlock(n) {
        AppendOwnKeeps(n, hash);
      } else {
        IdleKeeps(n, React(n, i));
      }
    case _ => IdleKeeps(n, React(n, i));
  }

  // ------------------------------------------------ what a handler may claim

  /** The commit index moves only to an index the leader can justify by its own table. */
  ghost predicate AdvancesByMajority(n: Node, o: Outcome) {
    o.node.commit == n.commit
    || (o.node.role == Leader && 1 <= o.node.commit <= |o.node.log| && Committable(o.node, o.node.commit))
  }

  /** A leader's table holds zeros, its own log length, and what it held before. */
  ghost predicate KeepsTable(n: Node, o: Outcome) {
    o.node.role == Leader ==> forall q :: q in o.node.matched ==>
      || o.node.matched[q] == 0
      || (q == o.node.id && o.node.matched[q] <= |o.node.log|)
      || (n.role == Leader && n.term == o.node.term && q in n.matched && n.matched[q] == o.node.matched[q])
  }

  /** Append messages are sent by a leader, in its term, with the commit index it had. */
  ghost predicate OffersOldCommit(n: Node, o: Outcome) {
    forall e :: e in o.wire && e.SendRaftAppendEntries? ==>
      o.node.role == Leader && e.term == o.node.term && e.leaderCommit == n.commit
  }

  lemma AppendOwnClaims(n: Node, m: Node, hash: BlockHash)
    requires m.role == Leader && WellFormed(m.log) && m.commit == n.commit && m.commit <= |m.log|
    requires forall q :: q in m.matched ==>
      || m.matched[q] == 0 || (q == m.id && m.matched[q] <= |m.log|)
      || (n.role == Leader && n.term == m.term && q in n.matched && n.matched[q] == m.matched[q])
    ensures var o := AppendOwn(m, hash); AdvancesByMajority(n, o) && KeepsTable(n, o) && OffersOldCommit(n, o)
  {
    var e := Entry(m.term, LastIndex(m.log) + 1, hash);
    var n1 := m.(log := m.log + [e], matched := m.matched[m.id := e.index]);
    ScanExact(n1, |n1.log|);
    var o := AppendOwn(m, hash);
    assert o.node.commit > n.commit ==> Replicas(o.node, o.node.commit) == Replicas(n1, o.node.commit);
  }

  lemma TickClaims(n: Node, known: set<PeerId>, electionDue: bool, heartbeatDue: bool)
    requires Sound(n)
    ensures var o := OnTick(n, known, electionDue, heartbeatDue);
      AdvancesByMajority(n, o) && KeepsTable(n, o) && OffersOldCommit(n, o)
  {
    var n0 := UpdateParticipants(n, known);
    var n1 := BecomeLeaderIfMajority(Candidacy(n0));
    if n0.role != Leader && electionDue && n1.role == Leader {
      AppendOwnClaims(n, n1, EMPTY_HASH);
    }
  }

  lemma VoteReplyClaims(n: Node, term: nat, voter: PeerId, granted: bool)
    requires Sound(n)
    ensures var o := OnRequestVoteResponse(n, term, voter, granted);
      AdvancesByMajority(n, o) && KeepsTable(n, o) && OffersOldCommit(n, o)
  {
    var n1 := BecomeLeaderIfMajority(n.(votes := n.votes + {voter}));
    if term == n.term && n.role == Candidate && granted && voter in n.participants && n1.role == Leader {
      AppendOwnClaims(n, n1, EMPTY_HASH);
    }
  }

  lemma BlockCreatedClaims(n: Node, hash: BlockHash)
    requires Sound(n)
    ensures var o := React(n, BlockCreated(hash));
      AdvancesByMajority(n, o) && KeepsTable(n, o) && OffersOldCommit(n, o)
  {
    if n.role == Leader && !HasUncommittedBlock(n) {
      AppendOwnClaims(n, n, hash);
    }
  }

  /** A reply may also raise or lower the entry of its sender, never above what it claims. */
  ghost predicate TakesReply(n: Node, o: Outcome, from: PeerId, matchIndex: nat) {
    o.node.role == Leader ==> forall q :: q in o.node.matched ==>
      || (q in n.matched && n.matched[q] == o.node.matched[q])
      || (q == from && o.node.matched[q] <= matchIndex)
  }

  lemma AppendReplyClaims(n: Node, term: nat, from: PeerId, success: bool, matchIndex: nat)
    requires Sound(n)
    ensures var o := OnAppendEntriesResponse(n, term, from, success, matchIndex);
      && AdvancesByMajority(n, o) && OffersOldCommit(n, o) && TakesReply(n, o, from, matchIndex)
      && (o.node.role == Leader ==> n.role == Leader && n.term == o.node.term)
      && (o.node.matched != n.matched ==> n.role == Leader && n.term == term)
  {
    if term == n.term && n.role == Leader && from in n.participants && success {
      var previous := if from in n.matched then n.matched[from] else 0;
      var n1 := n.(matched := n.matched[from := Max(previous, matchIndex)]);
      ScanExact(n1, |n1.log|);
      var o := OnAppendEntriesResponse(n, term, from, success, matchIndex);
      assert o.node.commit > n.commit ==> Replicas(o.node, o.node.commit) == Replicas(n1, o.node.commit);
    }
  }

  /** Append messages travel only as their own kind of effect. */
  ghost predicate NoRawAppends(o: Outcome) {
    forall e :: e in o.wire ==> !(e.Send? && e.body.AppendEntries?) && !(e.Broadcast? && e.body.AppendEntries?)
  }

  /** Everything a handler other than the two append handlers promises. */
  ghost predicate Ordinary(n: Node, o: Outcome) {
    StepKeeps(n, o) && AdvancesByMajority(n, o) && KeepsTable(n, o) && OffersOldCommit(n, o) && NoRawAppends(o)
  }

  lemma TickOrdinary(n: Node, known: set<PeerId>, electionDue: bool, heartbeatDue: bool)
    requires Sound(n)
    ensures Ordinary(n, OnTick(n, known, electionDue, heartbeatDue))
  {
    TickKeeps(n, known, electionDue, heartbeatDue);
    TickClaims(n, known, electionDue, heartbeatDue);
    TickMessages(n, known, electionDue, heartbeatDue);
  }

  lemma TickMessages(n: Node, known: set<PeerId>, electionDue: bool, heartbeatDue: bool)
    ensures NoRawAppends(OnTick(n, known, electionDue, heartbeatDue))
  {
  }

  lemma VoteRequestOrdinary(n: Node, term: nat, candidate: PeerId, lastIndex: nat, lastTerm: nat, from: PeerId)
    requires Sound(n)
    ensures Ordinary(n, OnRequestVote(n, term, candidate, lastIndex, lastTerm, from))
  {
    IdleKeeps(n, OnRequestVote(n, term, candidate, lastIndex, lastTerm, from));
  }

  lemma VoteReplyOrdinary(n: Node, term: nat, voter: PeerId, granted: bool)
    requires Sound(n)
    ensures Ordinary(n, OnRequestVoteResponse(n, term, voter, granted))
  {
    VoteReplyKeeps(n, term, voter, granted);
    VoteReplyClaims(n, term, voter, granted);
  }

  lemma BlockCreatedOrdinary(n: Node, hash: BlockHash)
    requires Sound(n)
    ensures Ordinary(n, React(n, BlockCreated(hash)))
  {
    ReactKeeps(n, BlockCreated(hash));
    BlockCreatedClaims(n, hash);
  }

  lemma IdleOrdinary(n: Node)
    requires Sound(n)
    ensures Ordinary(n, Outcome(n, [], {}))
  {
    IdleKeeps(n, Outcome(n, [], {}));
  }

  // ---------------------------------------------------------------- whole runs

  /** Exactly-once, in-order commit stream: over any run the committed blocks are the
      non-no-op entries between the first and the last commit index, in log order; the commit
      index never falls or passes the log end, and the committed prefix never changes. */
  lemma {:induction false} CommitStream(n: Node, inputs: seq<Input>)
    requires Sound(n)
    ensures var n' := RunNode(n, inputs);
      && Sound(n') && n.term <= n'.term && n.commit <= n'.commit
      && n'.log[..n.commit] == n.log[..n.commit]
      && Commits(RunEffects(n, inputs)) == BlockHashes(n'.log[n.commit..n'.commit])
  {
    if inputs == [] {
      assert n.log[n.commit..n.commit] == [];
    } else {
      var front := inputs[..|inputs| - 1];
      var m := RunNode(n, front);
      var o := React(m, inputs[|inputs| - 1]);
      CommitStream(n, front);
      ReactKeeps(m, inputs[|inputs| - 1]);
      StreamsConcat(RunEffects(n, front), o.local);
      StreamStep(n.commit, m, o);
    }
  }

  lemma StreamStep(from: nat, m: Node, o: Outcome)
    requires from <= m.commit && StepKeeps(m, o)
    ensures o.node.log[..from] == m.log[..from]
    ensures BlockHashes(o.node.log[from..o.node.commit])
      == BlockHashes(m.log[from..m.commit]) + BlockHashes(o.node.log[m.commit..o.node.commit])
  {
    assert o.node.log[..from] == o.node.log[..m.commit][..from] == m.log[..m.commit][..from];
    assert o.node.log[from..m.commit] == o.node.log[..m.commit][from..] == m.log[..m.commit][from..] == m.log[from..m.commit];
    assert o.node.log[from..o.node.commit] == o.node.log[from..m.commit] + o.node.log[m.commit..o.node.commit];
    BlockHashesConcat(o.node.log[from..m.commit], o.node.log[m.commit..o.node.commit]);
  }

  /** Durability: a node started from a store can at any later point be rebuilt from its
      store with the same log and commit index. */
  lemma {:induction false} RestartRecovers(id: PeerId, store: Store, hint: nat, inputs: seq<Input>)
    requires WellFormed(store.log) && (store.commit == None ==> store.log == [])
    ensures var n := RunNode(Fresh(id, store, hint), inputs);
      forall h :: var r := Fresh(n.id, n.store, h); r.log == n.log && r.commit == n.commit
  {
    var n0 := Fresh(id, store, hint);
    RunDurable(n0, inputs);
  }

  lemma {:induction false} RunDurable(n: Node, inputs: seq<Input>)
    requires Sound(n) && Durable(n)
    ensures Sound(RunNode(n, inputs)) && Durable(RunNode(n, inputs))
  {
    if inputs != [] {
      var front := inputs[..|inputs| - 1];
      RunDurable(n, front);
      ReactKeeps(RunNode(n, front), inputs[|inputs| - 1]);
    }
  }
}
