/** The Raft engine as an object that updates its fields in place, each handler proved to
    compute the corresponding function of `RaftNode`. */
module RaftEngine {
  import opened Types
  import opened Blocks
  import opened RaftLog
  import opened RaftNode

  // ------------------------------------------------------- queries on the log

  function Find(log: seq<Entry>, index: nat): Option<Entry> {
    if log == [] then None
    else if log[0].index == index then Some(log[0])
    else Find(log[1..], index)
  }

  lemma {:induction false} FindExact(log: seq<Entry>, index: nat, skipped: nat)
    requires forall k :: 0 <= k < |log| ==> log[k].index == skipped + k + 1
    ensures Find(log, index) == if skipped < index <= skipped + |log| then Some(log[index - skipped - 1]) else None
  {
    if log != [] && log[0].index != index {
      FindExact(log[1..], index, skipped + 1);
    }
  }

  function FoundTerm(log: seq<Entry>, index: nat): Option<nat> {
    if index == 0 then Some(0)
    else match Find(log, index) case Some(e) => Some(e.term) case None => None
  }

  lemma FoundTermIsTermAt(log: seq<Entry>, index: nat)
    requires WellFormed(log)
    ensures FoundTerm(log, index) == TermAt(log, index)
  {
    FindExact(log, index, 0);
  }

  /** Hashes of block entries with from < index <= to, in log order. */
  function HashesBetween(log: seq<Entry>, from: nat, to: nat): seq<BlockHash> {
    if log == [] then []
    else (if from < log[0].index <= to && !log[0].IsNoop() then [log[0].hash] else []) + HashesBetween(log[1..], from, to)
  }

  lemma {:induction false} HashesBetweenExact(log: seq<Entry>, from: nat, to: nat, skipped: nat)
    requires forall k :: 0 <= k < |log| ==> log[k].index == skipped + k + 1
    requires from <= to <= skipped + |log|
    ensures var lo := if from <= skipped then 0 else from - skipped; var hi := if to <= skipped then 0 else to - skipped;
      lo <= hi <= |log| && HashesBetween(log, from, to) == BlockHashes(log[lo..hi])
  {
    var lo := if from <= skipped then 0 else from - skipped;
    var hi := if to <= skipped then 0 else to - skipped;
    if log != [] {
      HashesBetweenExact(log[1..], from, to, skipped + 1);
      if hi == 0 {
        assert log[lo..hi] == [] && log[1..][0..0] == [];
      } else if lo == 0 {
        HeadOfSlice(log, hi);
      } else {
        SliceOfTail(log, lo, hi);
      }
    }
  }

  lemma HeadOfSlice(log: seq<Entry>, hi: nat)
    requires 1 <= hi <= |log|
    ensures BlockHashes(log[0..hi]) == (if log[0].IsNoop() then [] else [log[0].hash]) + BlockHashes(log[1..][0..hi - 1])
  {
    assert log[0..hi][0] == log[0] && log[0..hi][1..] == log[1..][0..hi - 1];
  }

  lemma SliceOfTail(log: seq<Entry>, lo: nat, hi: nat)
    requires 1 <= lo <= hi <= |log|
    ensures log[lo..hi] == log[1..][lo - 1..hi - 1]
  {
    var a, b := log[lo..hi], log[1..][lo - 1..hi - 1];
    forall i | 0 <= i < hi - lo ensures a[i] == b[i] {
      assert b[i] == log[1..][lo - 1 + i];
    }
  }

  lemma CommitsFound(log: seq<Entry>, from: nat, to: nat)
    requires WellFormed(log) && from <= to <= |log|
    ensures CommitEffects(HashesBetween(log, from, to)) == CommitsBetween(log, from, to)
  {
    HashesBetweenExact(log, from, to, 0);
  }

  /** The entries a leader offers after index `prev`. */
  function EntriesAfter(log: seq<Entry>, prev: nat): seq<Entry> {
    if log == [] then []
    else (if log[0].index > prev then [log[0]] else []) + EntriesAfter(log[1..], prev)
  }

  lemma {:induction false} EntriesAfterExact(log: seq<Entry>, prev: nat, skipped: nat)
    requires forall k :: 0 <= k < |log| ==> log[k].index == skipped + k + 1
    ensures var lo := if prev <= skipped then 0 else Min(prev - skipped, |log|); EntriesAfter(log, prev) == log[lo..]
  {
    if log != [] {
      EntriesAfterExact(log[1..], prev, skipped + 1);
    }
  }

  // ------------------------------------------------------------------ effects

  predicate IsWire(e: Effect) {
    e.Send? || e.SendRaftAppendEntries? || e.Broadcast?
  }

  function Local(effects: seq<Effect>): seq<Effect> {
    if effects == [] then []
    else (if IsWire(effects[0]) then [] else [effects[0]]) + Local(effects[1..])
  }

  function Wire(effects: seq<Effect>): set<Effect> {
    set e | e in effects && IsWire(e)
  }

  /** The effect list realises the outcome's local effects in order and its messages. */
  ghost predicate Realises(effects: seq<Effect>, o: Outcome) {
    Local(effects) == o.local && Wire(effects) == o.wire
  }

  /** The local effects in order, then the one reply. */
  ghost predicate RepliesLast(effects: seq<Effect>, o: Outcome) {
    exists reply :: o.wire == {reply} && effects == o.local + [reply]
  }

  lemma {:induction false} LocalConcat(a: seq<Effect>, b: seq<Effect>)
    ensures Local(a + b) == Local(a) + Local(b)
    ensures Wire(a + b) == Wire(a) + Wire(b)
  {
    if a == [] {
      assert a + b == b;
    } else {
      assert (a + b)[1..] == a[1..] + b;
      LocalConcat(a[1..], b);
    }
  }

  lemma {:induction false} AllWire(effects: seq<Effect>)
    requires forall e :: e in effects ==> IsWire(e)
    ensures Local(effects) == []
  {
    if effects != [] {
      AllWire(effects[1..]);
    }
  }

  lemma {:induction false} NoneWire(effects: seq<Effect>)
    requires forall e :: e in effects ==> !IsWire(e)
    ensures Local(effects) == effects && Wire(effects) == {}
  {
    if effects != [] {
      NoneWire(effects[1..]);
    }
  }

  // ----------------------------------------------------------------- payloads

  /** The outcome of checking the payloads of an append, in order. */
  function Validate(hasher: Hasher, sent: seq<ReplicatedBlock>): Result<Validated> {
    if sent == [] then Ok(Validated([], map[]))
    else
      var b := sent[|sent| - 1];
      match Validate(hasher, sent[..|sent| - 1])
      case Err(e) => Err(e)
      case Ok(v) =>
        if b.entry.IsNoop() then
          if !b.payload.Empty? then Err("Raft no-op entry contains a block payload")
          else if !b.signed then Err("SignatureError")
          else Ok(Validated(v.entries + [b.entry], v.blocks))
        else
          match VerifyBlockVec(hasher, b.entry.hash, b.payload, b.signed)
          case Err(e) => Err(e)
          case Ok(file) => Ok(Validated(v.entries + [b.entry], v.blocks[b.entry.hash := file]))
  }

  /** A bad payload decides the outcome whatever follows it. */
  lemma {:induction false} ValidateStops(hasher: Hasher, sent: seq<ReplicatedBlock>, k: nat)
    requires k < |sent| && Validate(hasher, sent[..k + 1]).Err?
    ensures Validate(hasher, sent) == Validate(hasher, sent[..k + 1])
    decreases |sent|
  {
    if k + 1 == |sent| {
      assert sent[..k + 1] == sent;
    } else {
      assert sent[..|sent| - 1][..k + 1] == sent[..k + 1];
      ValidateStops(hasher, sent[..|sent| - 1], k);
    }
  }

  /** Payloads are accepted exactly when each is a signed empty no-op or a verified block, and
      then the table holds, under its own hash, a verified block for every block entry. */
  lemma {:induction false} ValidateExact(hasher: Hasher, sent: seq<ReplicatedBlock>)
    ensures var r := Validate(hasher, sent);
      && (r.Ok? <==> forall k :: 0 <= k < |sent| ==> Sendable(hasher, sent[k]))
      && (r.Ok? ==>
           && |r.value.entries| == |sent|
           && (forall k :: 0 <= k < |sent| ==> r.value.entries[k] == sent[k].entry)
           && (forall k :: 0 <= k < |sent| && !sent[k].entry.IsNoop() ==> sent[k].entry.hash in r.value.blocks)
           && (forall h :: h in r.value.blocks ==> r.value.blocks[h].hash == h && VerifyBlock(hasher, r.value.blocks[h])))
  {
    if sent != [] {
      var k := |sent| - 1;
      ValidateExact(hasher, sent[..k]);
      assert forall i :: 0 <= i < k ==> sent[..k][i] == sent[i];
    }
  }

  /** The entries an effect list stages. */
  function StagedIn(effects: seq<Effect>): seq<Entry> {
    if effects == [] then []
    else (if effects[0].StageRaftEntries? then effects[0].staged else []) + StagedIn(effects[1..])
  }

  lemma {:induction false} StagedNotNoop(entries: seq<Entry>, commit: nat)
    ensures forall k :: 0 <= k < |ToStage(entries, commit)| ==> !ToStage(entries, commit)[k].IsNoop()
    ensures forall k :: 0 <= k < |ToStage(entries, commit)| ==> ToStage(entries, commit)[k] in entries
  {
    if entries != [] {
      StagedNotNoop(entries[1..], commit);
    }
  }

  lemma {:induction false} StagedConcat(a: seq<Effect>, b: seq<Effect>)
    ensures StagedIn(a + b) == StagedIn(a) + StagedIn(b)
  {
    if a == [] {
      assert a + b == b;
    } else {
      assert (a + b)[1..] == a[1..] + b;
      StagedConcat(a[1..], b);
    }
  }

  lemma {:induction false} NothingStaged(effects: seq<Effect>)
    requires forall e :: e in effects ==> !e.StageRaftEntries?
    ensures StagedIn(effects) == []
  {
    if effects != [] {
      NothingStaged(effects[1..]);
    }
  }

  lemma FindStaged(n: Node, prevIndex: nat, prevTerm: nat, entries: seq<Entry>, leaderCommit: nat)
    requires Accepts(n, prevIndex, prevTerm, entries)
    ensures StagedIn(AppendedEffects(n, prevIndex, prevTerm, entries, leaderCommit)) == ToStage(entries, n.commit)
  {
    var n1 := Appended(n, prevIndex, prevTerm, entries, leaderCommit);
    var staged := ToStage(entries, n.commit);
    var back := RollbackEffects(BlockHashes(Discarded(n.log, prevIndex, entries)));
    var stage := if staged == [] then [] else [StageRaftEntries(staged)];
    var commits := CommitsBetween(n1.log, n.commit, n1.commit);
    NothingStaged(back);
    NothingStaged(commits);
    StagedConcat(back, stage);
    StagedConcat(back + stage, commits);
    assert StagedIn(stage) == staged;
  }

  /** Every staged entry finds its block in the pending table, even when hashes repeat. */
  lemma {:induction false} RetainCovers(pending: map<BlockHash, BlockFile>, blocks: map<BlockHash, BlockFile>, staged: seq<Entry>)
    ensures var kept := Retain(pending, blocks, staged);
      && (forall h :: h in pending ==> h in kept)
      && (forall k :: 0 <= k < |staged| && staged[k].hash in blocks ==> staged[k].hash in kept)
      && (forall h :: h in kept ==> (h in blocks && kept[h] == blocks[h]) || (h in pending && kept[h] == pending[h]))
    decreases |staged|
  {
    if staged != [] {
      var h := staged[0].hash;
      if h in blocks {
        RetainCovers(pending[h := blocks[h]], blocks - {h}, staged[1..]);
      } else {
        RetainCovers(pending, blocks, staged[1..]);
      }
    }
  }

  /** A new leader's table: its own log length, nothing known of the others. */
  function Table(peers: set<PeerId>, id: PeerId, last: nat): map<PeerId, nat> {
    map q | q in peers :: if q == id then last else 0
  }

  lemma TableGrows(all: set<PeerId>, rest: set<PeerId>, q: PeerId, id: PeerId, last: nat)
    requires q in rest && rest <= all
    ensures Table(all - (rest - {q}), id, last) == Table(all - rest, id, last)[q := if q == id then last else 0]
  {
  }

  /** Offers followed by commits realise the outcome of appending an own entry. */
  lemma OffersThenCommits(offers: seq<Effect>, commits: seq<Effect>, n: Node, hash: BlockHash)
    requires var o := AppendOwn(n, hash); Local(offers) == [] && Wire(offers) == o.wire && commits == o.local
    ensures Realises(offers + commits, AppendOwn(n, hash))
  {
    NoneWire(commits);
    LocalConcat(offers, commits);
  }

  // ------------------------------------------------------------------- engine

  class RaftConsensus {
    const id: PeerId
    var participants: set<PeerId>
    var term: nat
    var votedFor: Option<PeerId>
    var leader: Option<PeerId>
    var role: Role
    var votes: set<PeerId>
    var log: seq<Entry>
    var commit: nat
    var matched: map<PeerId, nat>
    var pending: map<BlockHash, BlockFile>
    var store: Store

    ghost function State(): Node
      reads this
    {
      Node(id, participants, term, votedFor, leader, role, votes, log, commit, matched, pending, store)
    }

    ghost predicate Valid()
      reads this
    {
      Sound(State())
    }

    /** Start-up from a store; the persisted commit index wins over the block height. */
    constructor (id: PeerId, store: Store, commitHint: nat)
      ensures State() == Fresh(id, store, commitHint)
      ensures WellFormed(store.log) ==> Valid()
    {
      this.id := id;
      participants := {id};
      term := 0;
      votedFor := None;
      leader := None;
      role := Follower;
      votes := {};
      log := store.log;
      var persisted := match store.commit case Some(c) => c case None => commitHint;
      commit := Min(persisted, LastIndex(store.log));
      matched := map[];
      pending := map[];
      this.store := store;
    }

    method PersistLog()
      modifies this`store
      ensures State() == Persist(old(State()))
    {
      store := Store(log, Some(commit));
    }

    // ---------------------------------------------------------------- election

    method RefreshParticipants(known: set<PeerId>)
      modifies this`participants, this`votes, this`matched
      ensures State() == UpdateParticipants(old(State()), known)
    {
      participants := known + {id};
      votes := set q | q in votes && q in participants;
      assert votes == old(votes) * participants;
      matched := map q | q in matched && q in participants :: matched[q];
    }

    method Resign(newTerm: nat)
      modifies this`term, this`role, this`votedFor, this`leader, this`votes
      ensures State() == StepDown(old(State()), newTerm)
    {
      term := newTerm;
      role := Follower;
      votedFor := None;
      leader := None;
      votes := {};
    }

    method ResignOnNewer(newTerm: nat)
      modifies this`term, this`role, this`votedFor, this`leader, this`votes
      ensures State() == StepDownOnNewer(old(State()), newTerm)
    {
      if newTerm > term {
        Resign(newTerm);
      }
    }

    method TakeOfficeIfMajority() returns (elected: bool)
      modifies this`role, this`leader, this`matched
      ensures State() == BecomeLeaderIfMajority(old(State()))
      ensures elected <==> |votes| >= Majority(old(State()))
    {
      elected := |votes| >= |participants| / 2 + 1;
      if elected {
        role := Leader;
        leader := Some(id);
        matched := map[];
        var rest := participants;
        while rest != {}
          invariant rest <= participants
          invariant matched == Table(participants - rest, id, LastIndex(log))
          invariant role == Leader && leader == Some(id)
          decreases rest
        {
          var q :| q in rest;
          TableGrows(participants, rest, q, id, LastIndex(log));
          matched := matched[q := if q == id then LastIndex(log) else 0];
          rest := rest - {q};
        }
      }
    }

    method StartElection() returns (elected: bool)
      modifies this`term, this`role, this`votedFor, this`leader, this`votes, this`matched
      ensures State() == BecomeLeaderIfMajority(Candidacy(old(State())))
      ensures elected <==> role == Leader
    {
      term := term + 1;
      role := Candidate;
      votedFor := Some(id);
      leader := None;
      votes := {id};
      elected := TakeOfficeIfMajority();
    }

    method CastVote(newTerm: nat, candidate: PeerId, lastIndex: nat, lastTerm: nat) returns (granted: bool)
      modifies this`term, this`role, this`votedFor, this`leader, this`votes
      ensures forall from :: var o := OnRequestVote(old(State()), newTerm, candidate, lastIndex, lastTerm, from);
        State() == o.node && o.wire == {Send(from, RequestVoteResponse(term, granted))}
    {
      granted := false;
      if newTerm < term {
        return;
      }
      if newTerm > term {
        Resign(newTerm);
      }
      if !UpToDate(lastIndex, lastTerm, log) {
        return;
      }
      if votedFor.Some? && votedFor.value != candidate {
        return;
      }
      votedFor := Some(candidate);
      granted := true;
    }

    method HandleRequestVote(newTerm: nat, candidate: PeerId, lastIndex: nat, lastTerm: nat, from: PeerId)
      returns (effects: seq<Effect>)
      modifies this
      ensures var o := OnRequestVote(old(State()), newTerm, candidate, lastIndex, lastTerm, from);
        State() == o.node && Realises(effects, o)
    {
      var granted := CastVote(newTerm, candidate, lastIndex, lastTerm);
      effects := [Send(from, RequestVoteResponse(term, granted))];
      var o := OnRequestVote(old(State()), newTerm, candidate, lastIndex, lastTerm, from);
      assert Local(effects) == [];
    }

    /** Whether an append is admitted; if so the node now follows its sender. */
    method AdmitAppend(newTerm: nat, newLeader: PeerId, from: PeerId, timedOut: bool) returns (ok: bool)
      modifies this`term, this`role, this`votedFor, this`leader, this`votes
      ensures ok <==> Admits(old(State()), newTerm, newLeader, from, timedOut)
      ensures State() == if ok then Follow(StepDownOnNewer(old(State()), newTerm), newLeader) else old(State())
    {
      ok := false;
      if from != newLeader || newLeader !in participants || newTerm < term {
        return;
      }
      if newTerm > term {
        Resign(newTerm);
      }
      if leader.Some? && leader.value != newLeader && !timedOut {
        return;
      }
      role := Follower;
      leader := Some(newLeader);
      votes := {};
      ok := true;
    }

    // ------------------------------------------------------------- leader side

    /** Reverse scan for the newest index that a majority holds in the current term. */
    method AdvanceCommitIndex() returns (effects: seq<Effect>)
      requires Valid()
      modifies this`commit
      ensures Valid() && State() == AdvanceCommit(old(State()))
      ensures effects == CommitsBetween(log, old(commit), commit)
    {
      var previous := commit;
      var i := |log|;
      ghost var n := State();
      while i > 0
        invariant i <= |log| && commit == previous && State() == n
        invariant i >= previous ==> ScanCommit(n, |log|) == ScanCommit(n, i)
        invariant i < previous ==> ScanCommit(n, |log|) == previous
      {
        var e := log[i - 1];
        if !(e.index <= commit || e.term != term) {
          var holders := set q | q in participants && q in matched && matched[q] >= e.index;
          assert holders == Replicas(n, i);
          if |holders| >= |participants| / 2 + 1 {
            commit := e.index;
            assert ScanCommit(n, |log|) == i;
            break;
          }
        }
        i := i - 1;
      }
      ScanExact(n, |log|);
      CommitsFound(log, previous, commit);
      effects := CommitEffects(HashesBetween(log, previous, commit));
    }

    method AppendFor(q: PeerId) returns (r: Option<Effect>)
      requires Valid()
      ensures r == Some(AppendEffect(State(), q))
    {
      var mine := if q in matched then matched[q] else 0;
      var prev := Min(mine, LastIndex(log));
      FoundTermIsTermAt(log, prev);
      EntriesAfterExact(log, prev, 0);
      match FoundTerm(log, prev)
      case None =>
        r := None;
      case Some(prevTerm) =>
        var after := EntriesAfter(log, prev);
        assert log[prev..][..Min(MAX_APPEND_ENTRIES, |after|)] == log[prev..Min(prev + MAX_APPEND_ENTRIES, |log|)];
        r := Some(SendRaftAppendEntries(q, term, prev, prevTerm, after[..Min(MAX_APPEND_ENTRIES, |after|)], commit));
    }

    /** One append message per other participant, in whatever order the set yields them. */
    method OfferToFollowers() returns (effects: seq<Effect>)
      requires Valid()
      ensures Wire(effects) == FollowerAppends(State()) && Local(effects) == []
      ensures forall e :: e in effects ==> e in FollowerAppends(State())
    {
      effects := [];
      var rest := set q | q in participants && q != id;
      ghost var all := rest;
      while rest != {}
        invariant rest <= all
        invariant forall e :: e in effects <==> exists q :: q in all && q !in rest && e == AppendEffect(State(), q)
        decreases rest
      {
        var q :| q in rest;
        var offer := AppendFor(q);
        if offer.Some? {
          effects := effects + [offer.value];
        }
        rest := rest - {q};
      }
      AllWire(effects);
    }

    method AppendOwnEntry(hash: BlockHash) returns (effects: seq<Effect>)
      requires Valid()
      modifies this`log, this`matched, this`commit, this`store
      ensures Valid() && State() == AppendOwn(old(State()), hash).node
      ensures Realises(effects, AppendOwn(old(State()), hash))
    {
      var e := Entry(term, LastIndex(log) + 1, hash);
      log := log + [e];
      matched := matched[id := e.index];
      effects := OfferToFollowers();
      var commits := AdvanceCommitIndex();
      OffersThenCommits(effects, commits, old(State()), hash);
      effects := effects + commits;
      PersistLog();
    }

    /** A block created locally: refused while another one is in flight. */
    method HandleBlockCreated(hash: BlockHash) returns (r: Result<seq<Effect>>)
      requires Valid()
      modifies this
      ensures Valid()
      ensures match OnBlockCreated(old(State()), hash)
        case None => r.Err? && State() == old(State())
        case Some(o) => r.Ok? && State() == o.node && Realises(r.value, o)
    {
      if role != Leader {
        return Ok([]);
      }
      if exists k :: 0 <= k < |log| && log[k].index > commit && !log[k].IsNoop() {
        return Err("Raft leader already has an uncommitted block");
      }
      var effects := AppendOwnEntry(hash);
      r := Ok(effects);
    }

    method HandleTick(known: set<PeerId>, electionDue: bool, heartbeatDue: bool) returns (effects: seq<Effect>)
      requires Valid()
      modifies this
      ensures Valid()
      ensures var o := OnTick(old(State()), known, electionDue, heartbeatDue);
        State() == o.node && Realises(effects, o)
    {
      RefreshParticipants(known);
      effects := [];
      if role == Leader {
        if heartbeatDue {
          effects := OfferToFollowers();
        }
        return;
      }
      if electionDue {
        var elected := StartElection();
        effects := [Broadcast(RequestVote(term, id, LastIndex(log), LastTerm(log)))];
        if elected {
          var more := AppendOwnEntry(EMPTY_HASH);
          LocalConcat(effects, more);
          effects := effects + more;
        }
      }
    }

    method HandleRequestVoteResponse(newTerm: nat, voter: PeerId, granted: bool) returns (effects: seq<Effect>)
      requires Valid()
      modifies this
      ensures Valid()
      ensures var o := OnRequestVoteResponse(old(State()), newTerm, voter, granted);
        State() == o.node && Realises(effects, o)
    {
      effects := [];
      if role == Candidate {
        if newTerm > term {
          Resign(newTerm);
          return;
        }
        if newTerm != term || !granted || voter !in participants {
          return;
        }
        votes := votes + {voter};
        var elected := TakeOfficeIfMajority();
        if elected {
          effects := AppendOwnEntry(EMPTY_HASH);
        }
      } else {
        ResignOnNewer(newTerm);
      }
    }

    method HandleAppendEntriesResponse(newTerm: nat, from: PeerId, success: bool, matchIndex: nat) returns (effects: seq<Effect>)
      requires Valid()
      modifies this
      ensures Valid()
      ensures var o := OnAppendEntriesResponse(old(State()), newTerm, from, success, matchIndex);
        State() == o.node && Realises(effects, o)
    {
      effects := [];
      if role != Leader {
        ResignOnNewer(newTerm);
        return;
      }
      if newTerm > term {
        Resign(newTerm);
        return;
      }
      if newTerm != term || from !in participants {
        return;
      }
      if success {
        matched := matched[from := Max(if from in matched then matched[from] else 0, matchIndex)];
        var previous := commit;
        effects := AdvanceCommitIndex();
        NoneWire(effects);
        if commit != previous {
          PersistLog();
        }
        return;
      }
      var m := Min(matchIndex, LastIndex(log));
      matched := matched[from := m];
      if m >= LastIndex(log) {
        return;
      }
      var offer := AppendFor(from);
      effects := if offer.Some? then [offer.value] else [];
    }

    // ----------------------------------------------------------- follower side

    method MatchingIndexFor(prevIndex: nat, prevTerm: nat, entries: seq<Entry>) returns (m: nat)
      requires Valid()
      ensures m == MatchingIndex(log, prevIndex, prevTerm, entries)
    {
      FoundTermIsTermAt(log, prevIndex);
      var previous := if FoundTerm(log, prevIndex) == Some(prevTerm) then prevIndex else 0;
      var best: Option<nat> := None;
      for k := 0 to |entries|
        invariant best == MaxMatch(log, entries[..k])
      {
        var e := entries[k];
        FoundTermIsTermAt(log, e.index);
        assert entries[..k + 1][..k] == entries[..k];
        if FoundTerm(log, e.index) == Some(e.term) {
          best := Some(if best.Some? then Max(best.value, e.index) else e.index);
        }
      }
      assert entries[..|entries|] == entries;
      m := match best case Some(i) => i case None => previous;
    }

    /** One sent entry: already there, in conflict, or next.  The hashes cut off, or a refusal. */
    method TakeEntry(entry: Entry) returns (cut: Option<seq<BlockHash>>)
      requires WellFormed(log) && 1 <= entry.index <= |log| + 1
      modifies this`log
      ensures Taken(cut, log) == OneEntry(old(log), entry, commit)
    {
      FindExact(log, entry.index, 0);
      var existing := Find(log, entry.index);
      assert LastIndex(log) == |log|;
      assert existing == if entry.index <= |log| then Some(log[entry.index - 1]) else None;
      cut := Some([]);
      if existing.Some? {
        if existing.value.term != entry.term {
          if entry.index <= commit {
            return None;
          }
          var i := entry.index - 1;
          cut := Some(BlockHashes(log[i..]));
          var kept := log[..i];
          log := kept + [entry];
        }
      } else if entry.index == LastIndex(log) + 1 {
        log := log + [entry];
      }
    }

    /** The loop over the sent entries: skip what is there, cut at a conflict, push the rest;
        stop without any change if the conflict is with a committed entry. */
    method TakeEntries(prevIndex: nat, entries: seq<Entry>) returns (ok: bool, discarded: seq<BlockHash>)
      requires Valid() && prevIndex <= |log| && ContiguousAfter(prevIndex, entries)
      modifies this`log
      ensures ok <==> !Clashes(old(log), prevIndex, entries, commit)
      ensures log == if ok then Merge(old(log), prevIndex, entries) else old(log)
      ensures ok ==> discarded == BlockHashes(Discarded(old(log), prevIndex, entries))
    {
      ghost var was := log;
      discarded := [];
      var k := 0;
      while k < |entries|
        invariant k <= |entries| && prevIndex <= |was| && Progress(was, prevIndex, entries, k, log, discarded, commit)
      {
        ProgressStep(was, prevIndex, entries, k, log, discarded, commit);
        var taken := TakeEntry(entries[k]);
        if taken.None? {
          return false, [];
        }
        discarded := discarded + taken.value;
        k := k + 1;
      }
      ProgressEnds(was, prevIndex, entries, log, discarded, commit);
      ok := true;
    }

    /** Takes the entries into the log, or refuses and leaves everything as it was.  Both the
        new log and the effects are those of the merge specification. */
    method AppendToLog(prevIndex: nat, prevTerm: nat, entries: seq<Entry>, leaderCommit: nat) returns (r: Option<seq<Effect>>)
      requires Valid()
      modifies this`log, this`commit
      ensures Valid()
      ensures r.Some? <==> Accepts(old(State()), prevIndex, prevTerm, entries)
      ensures r.None? ==> State() == old(State())
      ensures r.Some? ==>
        && State() == Appended(old(State()), prevIndex, prevTerm, entries, leaderCommit)
        && r.value == AppendedEffects(old(State()), prevIndex, prevTerm, entries, leaderCommit)
    {
      ghost var n := State();
      FoundTermIsTermAt(log, prevIndex);
      if FoundTerm(log, prevIndex) != Some(prevTerm) || !ContiguousAfter(prevIndex, entries) {
        return None;
      }
      var previousCommit := commit;
      var staged := ToStage(entries, previousCommit);
      var ok, discarded := TakeEntries(prevIndex, entries);
      if !ok {
        return None;
      }
      commit := Max(commit, Min(leaderCommit, LastIndex(log)));
      AppendedParts(n, prevIndex, prevTerm, entries, leaderCommit, log, commit);
      var effects := RollbackEffects(discarded);
      if staged != [] {
        effects := effects + [StageRaftEntries(staged)];
      }
      r := Some(effects + CommitEffects(HashesBetween(log, previousCommit, commit)));
    }

    /** Checks every payload in order and stops at the first bad one. */
    static method ValidateReplicatedEntries(hasher: Hasher, sent: seq<ReplicatedBlock>) returns (r: Result<Validated>)
      ensures r == Validate(hasher, sent)
    {
      var entries: seq<Entry> := [];
      var blocks: map<BlockHash, BlockFile> := map[];
      for k := 0 to |sent|
        invariant Validate(hasher, sent[..k]) == Ok(Validated(entries, blocks))
      {
        var b := sent[k];
        assert sent[..k + 1][..k] == sent[..k];
        if b.entry.IsNoop() {
          if !b.payload.Empty? {
            ValidateStops(hasher, sent, k);
            return Err("Raft no-op entry contains a block payload");
          }
          if !b.signed {
            ValidateStops(hasher, sent, k);
            return Err("SignatureError");
          }
        } else {
          match VerifyBlockVec(hasher, b.entry.hash, b.payload, b.signed)
          case Err(e) =>
            ValidateStops(hasher, sent, k);
            return Err(e);
          case Ok(file) =>
            blocks := blocks[b.entry.hash := file];
        }
        entries := entries + [b.entry];
      }
      assert sent[..|sent|] == sent;
      r := Ok(Validated(entries, blocks));
    }

    /** Moves the blocks of the entries to be staged into the pending table. */
    method RetainBlocks(staged: seq<Entry>, blocks: map<BlockHash, BlockFile>)
      requires forall k :: 0 <= k < |staged| ==> !staged[k].IsNoop()
      modifies this`pending
      ensures State() == old(State()).(pending := Retain(old(pending), blocks, staged))
    {
      var left: map<BlockHash, BlockFile> := blocks;
      ghost var goal := Retain(pending, blocks, staged);
      for k := 0 to |staged|
        invariant Retain(pending, left, staged[k..]) == goal
        invariant State() == old(State()).(pending := pending)
      {
        var e := staged[k];
        assert staged[k..][1..] == staged[k + 1..];
        if !e.IsNoop() && e.hash in left {
          pending := pending[e.hash := left[e.hash]];
          left := left - {e.hash};
        }
      }
    }

    /** The append handler.  The reply is the last effect, after every effect on blocks. */
    method HandleAppendEntries(hasher: Hasher, r: AppendRequest, sent: seq<ReplicatedBlock>, timedOut: bool)
      returns (effects: seq<Effect>)
      requires Valid()
      modifies this
      ensures Valid()
      ensures var o := OnAppendEntries(old(State()), r, Validate(hasher, sent), timedOut);
        State() == o.node && RepliesLast(effects, o)
    {
      var admitted := AdmitAppend(r.term, r.leader, r.from, timedOut);
      if !admitted {
        var m := MatchingIndexFor(r.prevIndex, r.prevTerm, []);
        return [Send(r.from, AppendEntriesResponse(term, false, m))];
      }
      var checked := ValidateReplicatedEntries(hasher, sent);
      if checked.Err? {
        var m := MatchingIndexFor(r.prevIndex, r.prevTerm, []);
        return [Send(r.from, AppendEntriesResponse(term, false, m))];
      }
      effects := HandleCheckedAppend(r, checked.value);
    }

    method HandleCheckedAppend(r: AppendRequest, v: Validated) returns (effects: seq<Effect>)
      requires Valid()
      modifies this`log, this`commit, this`pending, this`store
      ensures Valid()
      ensures var o := OnCheckedAppend(old(State()), r, v); State() == o.node && RepliesLast(effects, o)
    {
      var m := MatchingIndexFor(r.prevIndex, r.prevTerm, v.entries);
      var last := if v.entries == [] then r.prevIndex else v.entries[|v.entries| - 1].index;
      var previousCommit := commit;
      var appended := AppendToLog(r.prevIndex, r.prevTerm, v.entries, r.leaderCommit);
      if appended.None? {
        return [Send(r.from, AppendEntriesResponse(term, false, m))];
      }
      StagedNotNoop(v.entries, previousCommit);
      FindStaged(old(State()), r.prevIndex, r.prevTerm, v.entries, r.leaderCommit);
      RetainBlocks(StagedIn(appended.value), v.blocks);
      effects := appended.value + [Send(r.from, AppendEntriesResponse(term, true, last))];
      if last > r.prevIndex || commit != previousCommit {
        PersistLog();
      }
    }

    method TakePendingBlock(hash: BlockHash) returns (b: Option<BlockFile>)
      modifies this`pending
      ensures b == if hash in old(pending) then Some(old(pending)[hash]) else None
      ensures State() == old(State()).(pending := old(pending) - {hash})
    {
      b := if hash in pending then Some(pending[hash]) else None;
      pending := pending - {hash};
    }
  }

  /** The first entry that is not already there conflicts with a committed one. */
  predicate Clashes(log: seq<Entry>, prev: nat, entries: seq<Entry>, commit: nat) {
    var f := FirstNew(log, prev, entries);
    f < |entries| && prev + f < |log| && prev + f + 1 <= commit
  }

  /** What the loop over sent entries has done after k of them. */
  ghost predicate Progress(was: seq<Entry>, prev: nat, entries: seq<Entry>, k: nat, log: seq<Entry>, discarded: seq<BlockHash>, commit: nat)
    requires k <= |entries| && prev <= |was|
  {
    var f := FirstNew(was, prev, entries);
    && WellFormed(log)
    && (k > f ==> !Clashes(was, prev, entries, commit))
    && (if k <= f then log == was && discarded == []
        else log == was[..prev + f] + entries[f..k] && discarded == BlockHashes(was[prev + f..]))
  }

  datatype Taken = Taken(cut: Option<seq<BlockHash>>, log: seq<Entry>)

  /** What one sent entry does to a log: the hashes cut off (none when refused) and the new log. */
  function OneEntry(log: seq<Entry>, e: Entry, commit: nat): Taken
    requires 1 <= e.index <= |log| + 1
  {
    var i := e.index - 1;
    if i == |log| then Taken(Some([]), log + [e])
    else if log[i].term == e.term then Taken(Some([]), log)
    else if e.index <= commit then Taken(None, log)
    else Taken(Some(BlockHashes(log[i..])), log[..i] + [e])
  }

  lemma OneEntryWellFormed(log: seq<Entry>, e: Entry, commit: nat)
    requires WellFormed(log) && 1 <= e.index <= |log| + 1
    ensures WellFormed(OneEntry(log, e, commit).log)
  {
  }

  /** One round of that loop: the entry is within reach, and it is refused only on a clash. */
  lemma ProgressStep(was: seq<Entry>, prev: nat, entries: seq<Entry>, k: nat, log: seq<Entry>, discarded: seq<BlockHash>, commit: nat)
    requires prev <= |was| && k < |entries| && ContiguousAfter(prev, entries)
    requires Progress(was, prev, entries, k, log, discarded, commit)
    ensures 1 <= entries[k].index <= |log| + 1
    ensures var t := OneEntry(log, entries[k], commit);
      && (t.cut == None ==> log == was && Clashes(was, prev, entries, commit))
      && (t.cut.Some? ==> Progress(was, prev, entries, k + 1, t.log, discarded + t.cut.value, commit))
  {
    var f := FirstNew(was, prev, entries);
    FirstNewExact(was, prev, entries);
    OneEntryWellFormed(log, entries[k], commit);
    if k == f {
      assert entries[f..k + 1] == [entries[k]];
      if prev + f == |was| {
        assert was[..prev + f] == was && was[prev + f..] == [];
      }
    } else if k > f {
      assert entries[f..k + 1] == entries[f..k] + [entries[k]];
      assert |log| == prev + k;
    }
  }

  lemma ProgressEnds(was: seq<Entry>, prev: nat, entries: seq<Entry>, log: seq<Entry>, discarded: seq<BlockHash>, commit: nat)
    requires prev <= |was| && Progress(was, prev, entries, |entries|, log, discarded, commit)
    ensures !Clashes(was, prev, entries, commit)
    ensures log == Merge(was, prev, entries) && discarded == BlockHashes(Discarded(was, prev, entries))
  {
    var f := FirstNew(was, prev, entries);
    assert entries[f..|entries|] == entries[f..];
  }

  /** A merged log is sound. */
  lemma AcceptedLog(n: Node, prevIndex: nat, prevTerm: nat, entries: seq<Entry>)
    requires Sound(n) && Accepts(n, prevIndex, prevTerm, entries)
    ensures var log := Merge(n.log, prevIndex, entries); n.commit <= |log| && WellFormed(log) && LastIndex(log) == |log|
  {
    MergeWellFormed(n.log, prevIndex, entries);
    MergeKeepsPrefix(n.log, prevIndex, entries, n.commit);
  }

  /** The new state and the effect list, from the pieces the append computes. */
  lemma AppendedParts(n: Node, prevIndex: nat, prevTerm: nat, entries: seq<Entry>, leaderCommit: nat, log: seq<Entry>, commit: nat)
    requires Sound(n) && Accepts(n, prevIndex, prevTerm, entries)
    requires log == Merge(n.log, prevIndex, entries) && commit == Max(n.commit, Min(leaderCommit, LastIndex(log)))
    ensures var staged := ToStage(entries, n.commit);
      && n.(log := log, commit := commit) == Appended(n, prevIndex, prevTerm, entries, leaderCommit)
      && WellFormed(log) && commit <= |log|
      && AppendedEffects(n, prevIndex, prevTerm, entries, leaderCommit)
         == RollbackEffects(BlockHashes(Discarded(n.log, prevIndex, entries)))
            + (if staged == [] then [] else [StageRaftEntries(staged)])
            + CommitEffects(HashesBetween(log, n.commit, commit))
  {
    AcceptedLog(n, prevIndex, prevTerm, entries);
    CommitsFound(log, n.commit, commit);
  }
}
