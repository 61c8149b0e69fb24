/** What each Raft handler answers, in terms of the fields of the node and of the messages alone:
    the messages that must go out, not only those that may. */
module RaftAnswers {
  import opened Types
  import opened RaftLog
  import opened RaftNode
  import opened RaftNodeRuns
  import RaftEngine

  // ------------------------------------------------------------ block hashes

  /** How many entries in front of position k carry a block. */
  function Rank(entries: seq<Entry>, k: nat): nat
    requires k <= |entries|
  {
    if k == 0 then 0 else Rank(entries, k - 1) + (if entries[k - 1].hash == EMPTY_HASH then 0 else 1)
  }

  lemma {:induction false} RankPrefix(entries: seq<Entry>, more: seq<Entry>, k: nat)
    requires k <= |entries|
    ensures Rank(entries + more, k) == Rank(entries, k)
  {
    if k > 0 {
      RankPrefix(entries, more, k - 1);
    }
  }

  lemma {:induction false} RankMonotone(entries: seq<Entry>, j: nat, k: nat)
    requires j <= k <= |entries|
    ensures Rank(entries, j) <= Rank(entries, k)
  {
    if j < k {
      RankMonotone(entries, j, k - 1);
    }
  }

  /** The hashes of a stretch of the log: one per entry with a block, each at the place of its rank. */
  lemma {:induction false} BlockHashesExact(entries: seq<Entry>)
    ensures |BlockHashes(entries)| == Rank(entries, |entries|)
    ensures forall k :: 0 <= k < |entries| && entries[k].hash != EMPTY_HASH ==>
      Rank(entries, k) < |BlockHashes(entries)| && BlockHashes(entries)[Rank(entries, k)] == entries[k].hash
  {
    if entries != [] {
      var n := |entries| - 1;
      var front, last := entries[..n], [entries[n]];
      assert entries == front + last && last[1..] == [];
      BlockHashesExact(front);
      BlockHashesConcat(front, last);
      forall k | 0 <= k <= n ensures Rank(entries, k) == Rank(front, k) {
        RankPrefix(front, last, k);
      }
      forall k | 0 <= k < n && entries[k].hash != EMPTY_HASH
        ensures Rank(entries, k) < |BlockHashes(entries)| && BlockHashes(entries)[Rank(entries, k)] == entries[k].hash
      {
        assert front[k] == entries[k];
      }
    }
  }

  // ----------------------------------------------------------------- staging

  /** An entry of an append that must be staged: it carries a block and lies above the commit index. */
  predicate Needed(n: Node, e: Entry) {
    e.index > n.commit && !e.IsNoop()
  }

  lemma {:induction false} ToStageExact(entries: seq<Entry>, commit: nat)
    ensures forall e :: e in ToStage(entries, commit) <==> e in entries && e.index > commit && !e.IsNoop()
  {
    if entries != [] {
      ToStageExact(entries[1..], commit);
      assert entries == [entries[0]] + entries[1..];
    }
  }

  /** Indexes that increase from above a bound. */
  ghost predicate Rising(prev: nat, s: seq<Entry>) {
    && (forall i, j :: 0 <= i < j < |s| ==> s[i].index < s[j].index)
    && (forall i :: 0 <= i < |s| ==> s[i].index > prev)
  }

  lemma RisingFirst(e: Entry, s: seq<Entry>)
    requires e.index > 0 && Rising(e.index, s)
    ensures Rising(e.index - 1, [e] + s) && Rising(e.index - 1, s)
  {
  }

  lemma {:induction false} ToStageInOrder(entries: seq<Entry>, commit: nat, prev: nat)
    requires ContiguousAfter(prev, entries)
    ensures Rising(prev, ToStage(entries, commit))
  {
    if entries != [] {
      var tail := entries[1..];
      assert forall k :: 0 <= k < |tail| ==> tail[k] == entries[k + 1];
      ToStageInOrder(tail, commit, prev + 1);
      assert entries[0].index == prev + 1;
      RisingFirst(entries[0], ToStage(tail, commit));
      assert [] + ToStage(tail, commit) == ToStage(tail, commit);
    }
  }

  /** An accepted append stages exactly the entries with a block above the commit index, each once
      and in log order. */
  lemma AppendStagesAll(n: Node, r: AppendRequest, v: Validated)
    requires Accepts(n, r.prevIndex, r.prevTerm, v.entries)
    ensures var staged := RaftEngine.StagedIn(OnCheckedAppend(n, r, v).local);
      && (forall k :: 0 <= k < |v.entries| && Needed(n, v.entries[k]) ==> v.entries[k] in staged)
      && (forall e :: e in staged ==> e in v.entries && Needed(n, e))
      && (forall i, j :: 0 <= i < j < |staged| ==> staged[i].index < staged[j].index)
  {
    RaftEngine.FindStaged(n, r.prevIndex, r.prevTerm, v.entries, r.leaderCommit);
    ToStageExact(v.entries, n.commit);
    ToStageInOrder(v.entries, n.commit, r.prevIndex);
  }

  // ------------------------------------------------------------------ offers

  /** An append to q after index p: the term there, the next entries, at most five, and the commit index. */
  ghost predicate OffersAfter(n: Node, q: PeerId, p: nat, e: Effect) {
    && e.SendRaftAppendEntries? && e.to == q && e.term == n.term && e.leaderCommit == n.commit
    && p <= |n.log| && e.prevIndex == p && e.prevTerm == (if p == 0 then 0 else n.log[p - 1].term)
    && e.entries == n.log[p..(if p + 5 <= |n.log| then p + 5 else |n.log|)]
  }

  /** Where the leader believes q's log ends. */
  function Believed(n: Node, q: PeerId): nat {
    var m := if q in n.matched then n.matched[q] else 0;
    if m <= |n.log| then m else |n.log|
  }

  lemma OfferExact(n: Node, q: PeerId)
    ensures OffersAfter(n, q, Believed(n, q), AppendEffect(n, q))
  {
  }

  /** One offer per other participant, from where its log is believed to end, and nothing else. */
  ghost predicate OffersToAll(n: Node, wire: set<Effect>) {
    && (forall q :: q in n.participants && q != n.id ==> exists e :: e in wire && OffersAfter(n, q, Believed(n, q), e))
    && (forall e :: e in wire ==> exists q :: q in n.participants && q != n.id && OffersAfter(n, q, Believed(n, q), e))
  }

  lemma FollowerAppendsExact(n: Node)
    ensures OffersToAll(n, FollowerAppends(n))
  {
    forall q | q in n.participants && q != n.id ensures exists e :: e in FollowerAppends(n) && OffersAfter(n, q, Believed(n, q), e) {
      OfferExact(n, q);
      assert AppendEffect(n, q) in FollowerAppends(n);
    }
    forall e | e in FollowerAppends(n) ensures exists q :: q in n.participants && q != n.id && OffersAfter(n, q, Believed(n, q), e) {
      var q :| q in n.participants && q != n.id && e == AppendEffect(n, q);
      OfferExact(n, q);
    }
  }

  // ------------------------------------------------------------ append replies

  /** A refusal is answered at once: with a new offer from the index the follower vouched for, or
      with nothing if that is already the end of the log. */
  lemma RefusalRetried(n: Node, term: nat, from: PeerId, matchIndex: nat)
    requires WellFormed(n.log) && n.role == Leader && term == n.term && from in n.participants
    ensures var o := OnAppendEntriesResponse(n, term, from, false, matchIndex);
      var p := if matchIndex <= |n.log| then matchIndex else |n.log|;
      && from in o.node.matched && o.node.matched[from] == p && o.node.log == n.log && o.node.commit == n.commit
      && (p == |n.log| ==> o.wire == {})
      && (p < |n.log| ==> exists e :: o.wire == {e} && OffersAfter(n, from, p, e) && e.entries != [])
  {
    var o := OnAppendEntriesResponse(n, term, from, false, matchIndex);
    assert LastIndex(n.log) == |n.log|;
    OfferExact(o.node, from);
  }

  /** An acceptance raises the sender's entry to what it claims, keeps the others, and sends nothing. */
  lemma AcceptanceCredited(n: Node, term: nat, from: PeerId, matchIndex: nat)
    requires n.role == Leader && term == n.term && from in n.participants && n.commit <= |n.log|
    ensures var o := OnAppendEntriesResponse(n, term, from, true, matchIndex);
      && o.wire == {} && from in o.node.matched
      && o.node.matched[from] == (if from in n.matched && n.matched[from] > matchIndex then n.matched[from] else matchIndex)
      && (forall q :: q != from ==> (q in o.node.matched <==> q in n.matched) && (q in n.matched ==> o.node.matched[q] == n.matched[q]))
      && (forall j :: o.node.commit < j <= |n.log| ==> !Committable(o.node, j))
  {
    var o := OnAppendEntriesResponse(n, term, from, true, matchIndex);
    var previous := if from in n.matched then n.matched[from] else 0;
    var n1 := n.(matched := n.matched[from := Max(previous, matchIndex)]);
    ScanExact(n1, |n1.log|);
    assert o.node.log == n1.log && o.node.matched == n1.matched && o.node.commit == ScanCommit(n1, |n1.log|);
    forall j | o.node.commit < j <= |n.log| ensures !Committable(o.node, j) {
      assert !Committable(n1, j);
      assert Replicas(o.node, j) == Replicas(n1, j);
    }
  }

  // -------------------------------------------------------------------- ticks

  /** A leader whose heartbeat is due offers to everyone; a leader otherwise, and anyone whose
      election timeout has not elapsed, sends nothing. */
  lemma TickAnswers(n: Node, known: set<PeerId>, electionDue: bool, heartbeatDue: bool)
    ensures var o := OnTick(n, known, electionDue, heartbeatDue);
      && o.node.participants == known + {n.id}
      && (n.role == Leader ==> if heartbeatDue then OffersToAll(o.node, o.wire) else o.wire == {})
      && (n.role != Leader && !electionDue ==> o.wire == {})
      && (n.role == Leader || !electionDue ==>
            && o.node.votes == n.votes * (known + {n.id})
            && o.node.matched.Keys == n.matched.Keys * (known + {n.id})
            && (forall q :: q in o.node.matched ==> o.node.matched[q] == n.matched[q])
            && o.node.term == n.term && o.node.role == n.role && o.node.votedFor == n.votedFor && o.node.log == n.log)
  {
    FollowerAppendsExact(UpdateParticipants(n, known));
  }

  /** A timeout starts a candidacy for the next term and asks everyone, with the end of the own log. */
  lemma TimeoutAnswers(n: Node, known: set<PeerId>, heartbeatDue: bool)
    requires n.role != Leader
    ensures var o := OnTick(n, known, true, heartbeatDue);
      && o.node.term == n.term + 1 && o.node.votedFor == Some(n.id) && o.node.votes == {n.id}
      && Broadcast(RequestVote(n.term + 1, n.id, LastIndex(n.log), LastTerm(n.log))) in o.wire
      && (o.node.role == Leader <==> |known + {n.id}| <= 1)
      && (o.node.role != Leader ==> o.node.log == n.log && |o.wire| == 1)
  {
    var all := known + {n.id};
    assert |{n.id}| == 1;
    if |all| <= 1 {
      SingleMember(all, n.id);
    }
  }

  lemma SingleMember(s: set<PeerId>, x: PeerId)
    requires x in s && |s| <= 1
    ensures s == {x}
  {
    assert s == s - {x} + {x};
    assert |s| == |s - {x}| + 1;
  }

  // -------------------------------------------------------------------- votes

  /** Exactly one answer to a vote request, in the newer of the two terms, and granted if and only if
      the request is not older, its log is no shorter in the sense of terms first, and this node has
      not given its vote of that term to another. */
  lemma VoteAnswered(n: Node, term: nat, candidate: PeerId, lastIndex: nat, lastTerm: nat, from: PeerId)
    ensures var o := OnRequestVote(n, term, candidate, lastIndex, lastTerm, from);
      var t := if term > n.term then term else n.term;
      var granted := term >= n.term
        && (lastTerm > LastTerm(n.log) || (lastTerm == LastTerm(n.log) && lastIndex >= LastIndex(n.log)))
        && (term > n.term || n.votedFor == None || n.votedFor == Some(candidate));
      && o.wire == {Send(from, RequestVoteResponse(t, granted))} && o.node.term == t
      && (granted ==> o.node.votedFor == Some(candidate))
      && (!granted ==> o.node.votedFor == if term > n.term then None else n.votedFor)
  {
  }

  /** A counted vote makes a leader exactly when it completes a majority. */
  lemma VoteCounted(n: Node, voter: PeerId)
    requires n.role == Candidate && voter in n.participants
    ensures var o := OnRequestVoteResponse(n, n.term, voter, true);
      && o.node.votes == n.votes + {voter} && o.node.term == n.term
      && (2 * |n.votes + {voter}| > |n.participants| <==> o.node.role == Leader)
      && (o.node.role != Leader ==> o.wire == {} && o.node.log == n.log)
  {
  }

  /** An entry of the leader's own: appended behind the log, in its own column of the table, and
      offered to everyone with the commit index of before. */
  lemma OwnEntryOffered(n: Node, hash: BlockHash)
    ensures var o := AppendOwn(n, hash); var i := LastIndex(n.log) + 1;
      && o.node.log == n.log + [Entry(n.term, i, hash)] && o.node.matched == n.matched[n.id := i]
      && o.node.term == n.term && o.node.role == n.role && o.node.participants == n.participants && o.node.id == n.id
      && OffersToAll(o.node.(commit := n.commit), o.wire)
      && (forall j :: o.node.commit < j <= |o.node.log| ==> !Committable(o.node, j))
      && (o.node.commit > n.commit ==> o.node.commit <= |o.node.log| && Committable(o.node, o.node.commit))
  {
    var n1 := OwnEntry(n, hash);
    FollowerAppendsExact(n1);
    var o := AppendOwn(n, hash);
    OffersSame(n1, o.node.(commit := n.commit), o.wire);
    ScanExact(n1, |n1.log|);
    assert o.node.commit == ScanCommit(n1, |n1.log|);
    forall j | 1 <= j <= |n1.log| ensures Committable(o.node, j) == Committable(n1, j) {
      assert Replicas(o.node, j) == Replicas(n1, j);
    }
  }

  /** The state from which the offers are made: the entry is in, nothing more is committed. */
  lemma OwnEntry(n: Node, hash: BlockHash) returns (n1: Node)
    ensures n1 == n.(log := n.log + [Entry(n.term, LastIndex(n.log) + 1, hash)], matched := n.matched[n.id := LastIndex(n.log) + 1])
    ensures var o := AppendOwn(n, hash); o.wire == FollowerAppends(n1) && o.node == n1.(commit := o.node.commit, store := o.node.store)
  {
    n1 := n.(log := n.log + [Entry(n.term, LastIndex(n.log) + 1, hash)], matched := n.matched[n.id := LastIndex(n.log) + 1]);
  }

  /** A new leader appends one entry of its term without a block, knows of nobody else's log, and
      offers what it has to everyone. */
  lemma LeaderBegins(n: Node, voter: PeerId)
    requires n.role == Candidate && voter in n.participants && 2 * |n.votes + {voter}| > |n.participants|
    ensures var o := OnRequestVoteResponse(n, n.term, voter, true);
      && o.node.log == n.log + [Entry(n.term, LastIndex(n.log) + 1, EMPTY_HASH)]
      && n.id in o.node.matched && o.node.matched[n.id] == LastIndex(n.log) + 1
      && (forall q :: q in n.participants && q != n.id ==> q in o.node.matched && o.node.matched[q] == 0)
      && OffersToAll(o.node.(commit := n.commit), o.wire)
  {
    var m := Crown(n.(votes := n.votes + {voter}));
    OwnEntryOffered(m, EMPTY_HASH);
    assert OnRequestVoteResponse(n, n.term, voter, true) == AppendOwn(m, EMPTY_HASH);
  }

  /** Offers do not depend on the store. */
  lemma OffersSame(n: Node, n': Node, wire: set<Effect>)
    requires OffersToAll(n, wire)
    requires n'.id == n.id && n'.term == n.term && n'.log == n.log && n'.commit == n.commit && n'.matched == n.matched && n'.participants == n.participants
    ensures OffersToAll(n', wire)
  {
    forall q, e | OffersAfter(n, q, Believed(n, q), e) ensures OffersAfter(n', q, Believed(n', q), e) {
    }
    forall q | q in n'.participants && q != n'.id ensures exists e :: e in wire && OffersAfter(n', q, Believed(n', q), e) {
      var e :| e in wire && OffersAfter(n, q, Believed(n, q), e);
      assert OffersAfter(n', q, Believed(n', q), e);
    }
    forall e | e in wire ensures exists q :: q in n'.participants && q != n'.id && OffersAfter(n', q, Believed(n', q), e) {
      var q :| q in n.participants && q != n.id && OffersAfter(n, q, Believed(n, q), e);
      assert OffersAfter(n', q, Believed(n', q), e);
    }
  }

  // ------------------------------------------------------------------ appends

  /** Every reason for which an append succeeds, and no other. */
  ghost predicate Acceptable(n: Node, r: AppendRequest, checked: Result<Validated>, timedOut: bool) {
    && r.from == r.leader && r.leader in n.participants && r.term >= n.term
    && (r.term > n.term || n.leader == None || n.leader == Some(r.leader) || timedOut)
    && checked.Ok?
    && (r.prevIndex == 0 ==> r.prevTerm == 0)
    && (r.prevIndex > 0 ==> r.prevIndex <= |n.log| && n.log[r.prevIndex - 1].term == r.prevTerm)
    && (forall k :: 0 <= k < |checked.value.entries| ==> checked.value.entries[k].index == r.prevIndex + k + 1)
    && (forall k :: 0 <= k < |checked.value.entries| && r.prevIndex + k < n.commit && r.prevIndex + k < |n.log| ==>
          checked.value.entries[k].term == n.log[r.prevIndex + k].term)
  }

  lemma AcceptsIff(n: Node, prev: nat, prevTerm: nat, entries: seq<Entry>)
    requires n.commit <= |n.log|
    ensures Accepts(n, prev, prevTerm, entries) <==>
      && TermAt(n.log, prev) == Some(prevTerm) && ContiguousAfter(prev, entries)
      && forall k :: 0 <= k < |entries| && prev + k < n.commit ==> entries[k].term == n.log[prev + k].term
  {
    FirstNewExact(n.log, prev, entries);
    var f := FirstNew(n.log, prev, entries);
    if f < |entries| && prev + f < |n.log| && prev + f < n.commit {
      assert entries[f].term != n.log[prev + f].term;
    }
  }

  /** An append is answered by exactly one reply to its sender; it succeeds, naming the last index it
      carried, if and only if it is acceptable. */
  lemma AppendAnswered(n: Node, r: AppendRequest, checked: Result<Validated>, timedOut: bool) returns (m: nat)
    requires Sound(n)
    ensures var o := OnAppendEntries(n, r, checked, timedOut);
      o.wire == {Send(r.from, AppendEntriesResponse(o.node.term, Acceptable(n, r, checked, timedOut), m))}
    ensures Acceptable(n, r, checked, timedOut) ==> m == r.prevIndex + |checked.value.entries|
  {
    AcceptableIff(n, r, checked, timedOut);
    if !Admits(n, r.term, r.leader, r.from, timedOut) || checked.Err? {
      m := MatchingIndex(n.log, r.prevIndex, r.prevTerm, []);
    } else {
      m := CheckedAnswered(Follow(StepDownOnNewer(n, r.term), r.leader), r, checked.value);
    }
  }

  lemma AcceptableIff(n: Node, r: AppendRequest, checked: Result<Validated>, timedOut: bool)
    requires Sound(n)
    ensures Acceptable(n, r, checked, timedOut) <==>
      && Admits(n, r.term, r.leader, r.from, timedOut) && checked.Ok?
      && Accepts(Follow(StepDownOnNewer(n, r.term), r.leader), r.prevIndex, r.prevTerm, checked.value.entries)
  {
    if checked.Ok? {
      AcceptsIff(Follow(StepDownOnNewer(n, r.term), r.leader), r.prevIndex, r.prevTerm, checked.value.entries);
    }
  }

  lemma CheckedAnswered(n: Node, r: AppendRequest, v: Validated) returns (m: nat)
    ensures var o := OnCheckedAppend(n, r, v);
      o.node.term == n.term && o.wire == {Send(r.from, AppendEntriesResponse(n.term, Accepts(n, r.prevIndex, r.prevTerm, v.entries), m))}
    ensures Accepts(n, r.prevIndex, r.prevTerm, v.entries) ==> m == r.prevIndex + |v.entries|
  {
    m := if !Accepts(n, r.prevIndex, r.prevTerm, v.entries) then MatchingIndex(n.log, r.prevIndex, r.prevTerm, v.entries)
      else if v.entries == [] then r.prevIndex else v.entries[|v.entries| - 1].index;
  }

  /** The index a refusal vouches for: the largest sent one whose term agrees, else the previous one
      if its term agrees, else none. */
  lemma {:induction false} VouchedIndex(log: seq<Entry>, prev: nat, prevTerm: nat, entries: seq<Entry>)
    ensures var m := MatchingIndex(log, prev, prevTerm, entries);
      if exists e :: e in entries && TermAt(log, e.index) == Some(e.term) then
        && (exists e :: e in entries && TermAt(log, e.index) == Some(e.term) && e.index == m)
        && (forall e :: e in entries && TermAt(log, e.index) == Some(e.term) ==> e.index <= m)
      else m == if TermAt(log, prev) == Some(prevTerm) then prev else 0
  {
    MaxMatchExact(log, entries);
  }

  lemma {:induction false} MaxMatchExact(log: seq<Entry>, entries: seq<Entry>)
    ensures var m := MaxMatch(log, entries);
      && (m == None <==> forall e :: e in entries ==> TermAt(log, e.index) != Some(e.term))
      && (m.Some? ==> exists e :: e in entries && TermAt(log, e.index) == Some(e.term) && e.index == m.value)
      && (m.Some? ==> forall e :: e in entries && TermAt(log, e.index) == Some(e.term) ==> e.index <= m.value)
  {
    if entries != [] {
      var k := |entries| - 1;
      MaxMatchExact(log, entries[..k]);
      assert entries == entries[..k] + [entries[k]];
      assert entries[k] in entries;
    }
  }

  /** An acceptable append makes the node a follower of the sender in the request's term; its log has
      every sent entry's term in place and is unchanged or ends where the request does; and it commits
      what the sender has committed, as far as its log goes. */
  lemma AppendTaken(n: Node, r: AppendRequest, v: Validated, timedOut: bool)
    requires Sound(n) && Acceptable(n, r, Ok(v), timedOut)
    ensures var m := OnAppendEntries(n, r, Ok(v), timedOut).node; var last := r.prevIndex + |v.entries|;
      && m.term == r.term && m.role == Follower && m.leader == Some(r.leader) && m.votes == {} && m.id == n.id
      && last <= |m.log| && (m.log == n.log || |m.log| == last) && r.prevIndex <= |n.log| && m.log[..r.prevIndex] == n.log[..r.prevIndex]
      && (forall k :: 0 <= k < |v.entries| ==> m.log[r.prevIndex + k].term == v.entries[k].term)
      && m.commit == (var c := if r.leaderCommit <= |m.log| then r.leaderCommit else |m.log|; if n.commit >= c then n.commit else c)
  {
    TakenFields(n, r, v, timedOut);
    MergeShape(n.log, r.prevIndex, v.entries);
    MergeWellFormed(n.log, r.prevIndex, v.entries);
    assert LastIndex(Merge(n.log, r.prevIndex, v.entries)) == |Merge(n.log, r.prevIndex, v.entries)|;
  }

  lemma TakenFields(n: Node, r: AppendRequest, v: Validated, timedOut: bool)
    requires Sound(n) && Acceptable(n, r, Ok(v), timedOut)
    ensures var m := OnAppendEntries(n, r, Ok(v), timedOut).node;
      && r.prevIndex <= |n.log| && ContiguousAfter(r.prevIndex, v.entries)
      && m.term == r.term && m.role == Follower && m.leader == Some(r.leader) && m.votes == {} && m.id == n.id
      && m.log == Merge(n.log, r.prevIndex, v.entries)
      && m.commit == Max(n.commit, Min(r.leaderCommit, LastIndex(Merge(n.log, r.prevIndex, v.entries))))
  {
    AcceptableIff(n, r, Ok(v), timedOut);
  }

  /** Whoever hears of a newer term in a vote or in any answer follows it, and no one in particular. */
  lemma NewerTermObeyed(n: Node, i: Input)
    requires i.VoteReply? || i.AppendReply? || i.VoteRequest?
    requires i.term > n.term
    ensures var m := React(n, i).node;
      && m.term == i.term && m.role == Follower && m.leader == None && m.votes == {} && m.log == n.log && m.commit == n.commit
      && (!i.VoteRequest? ==> m.votedFor == None && React(n, i).wire == {})
  {
  }

  // ---------------------------------------------------- one block at a time

  /** Blocks in the log that are not committed. */
  function Backlog(n: Node): nat
    requires n.commit <= |n.log|
  {
    |BlockHashes(n.log[n.commit..])|
  }

  lemma {:induction false} NoHashes(entries: seq<Entry>)
    ensures BlockHashes(entries) == [] <==> forall k :: 0 <= k < |entries| ==> entries[k].IsNoop()
  {
    if entries != [] {
      NoHashes(entries[1..]);
      assert entries == [entries[0]] + entries[1..];
      if forall k :: 0 <= k < |entries[1..]| ==> entries[1..][k].IsNoop() {
        forall k | 1 <= k < |entries| ensures entries[k].IsNoop() {
          assert entries[1..][k - 1] == entries[k];
        }
      } else {
        var k :| 0 <= k < |entries[1..]| && !entries[1..][k].IsNoop();
        assert !entries[k + 1].IsNoop();
      }
    }
  }

  /** A leader takes a new block if and only if none of its log is uncommitted. */
  lemma BlockTakenIff(n: Node, hash: BlockHash)
    requires Sound(n) && n.role == Leader
    ensures OnBlockCreated(n, hash).Some? <==> Backlog(n) == 0
  {
    var rest := n.log[n.commit..];
    NoHashes(rest);
    if k :| 0 <= k < |n.log| && n.log[k].index > n.commit && !n.log[k].IsNoop() {
      assert rest[k - n.commit] == n.log[k];
    } else {
      forall k | 0 <= k < |rest| ensures rest[k].IsNoop() {
        assert rest[k] == n.log[n.commit + k];
      }
    }
  }

  lemma BacklogShrinks(n: Node, commit: nat)
    requires n.commit <= commit <= |n.log|
    ensures Backlog(n.(commit := commit)) <= Backlog(n)
  {
    assert n.log[n.commit..] == n.log[n.commit..commit] + n.log[commit..];
    BlockHashesConcat(n.log[n.commit..commit], n.log[commit..]);
  }

  lemma AppendOwnBacklog(n: Node, hash: BlockHash)
    requires Sound(n)
    ensures var m := AppendOwn(n, hash).node;
      m.commit <= |m.log| && Backlog(m) <= Backlog(n) + (if hash == EMPTY_HASH then 0 else 1)
  {
    var e := Entry(n.term, LastIndex(n.log) + 1, hash);
    var n1 := n.(log := n.log + [e], matched := n.matched[n.id := e.index]);
    var m := AppendOwn(n, hash).node;
    ScanExact(n1, |n1.log|);
    assert n1.log[n.commit..] == n.log[n.commit..] + [e];
    BlockHashesConcat(n.log[n.commit..], [e]);
    assert [e][1..] == [];
    BacklogShrinks(n1, m.commit);
    assert m.log == n1.log;
  }

  /** While a node stays leader its uncommitted blocks never become more, except from none to one by
      a block it has just created. */
  lemma LeaderBacklog(n: Node, i: Input)
    requires Sound(n) && n.role == Leader
    ensures var m := React(n, i).node;
      m.role == Leader ==> Sound(m) && (Backlog(m) <= Backlog(n) || (i.BlockCreated? && Backlog(n) == 0 && Backlog(m) == 1))
  {
    ReactKeeps(n, i);
    match i
    case BlockCreated(hash) =>
      BlockTakenIff(n, hash);
      AppendOwnBacklog(n, hash);
    case AppendReply(term, from, success, mi) => ReplyBacklog(n, term, from, success, mi);
    case Append(r, checked, timedOut) => AppendNotLeader(n, r, checked, timedOut);
    case _ =>
  }

  lemma ReplyBacklog(n: Node, term: nat, from: PeerId, success: bool, mi: nat)
    requires Sound(n)
    ensures var m := OnAppendEntriesResponse(n, term, from, success, mi).node;
      m.log == n.log && n.commit <= m.commit <= |m.log| && Backlog(m) <= Backlog(n)
  {
    var m := OnAppendEntriesResponse(n, term, from, success, mi).node;
    ReactKeeps(n, AppendReply(term, from, success, mi));
    BacklogShrinks(n, m.commit);
  }

  lemma AppendNotLeader(n: Node, r: AppendRequest, checked: Result<Validated>, timedOut: bool)
    requires Sound(n)
    ensures var m := OnAppendEntries(n, r, checked, timedOut).node; m.role == Leader ==> m == n
  {
  }
}
