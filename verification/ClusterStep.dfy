/** Every step of the cluster keeps the invariant, handler by handler. */
module ClusterStep {
  import opened Types
  import opened RaftLog
  import opened RaftNode
  import opened Cluster
  import opened ClusterInvariant
  import opened ClusterMoves
  import opened ClusterReigns

  // ---------------------------------------------------------------- plumbing

  lemma PutPut(s: State, p: PeerId, a: Node, b: Node)
    ensures Put(Put(s, p, a), p, b) == Put(s, p, b)
  {
  }

  function Emit(s: State, more: set<Packet>): State {
    s.(net := s.net + more)
  }

  lemma PacketsUnion(peers: set<PeerId>, id: PeerId, a: set<Effect>, b: set<Effect>, about: nat)
    ensures Packets(peers, id, a + b, about) == Packets(peers, id, a, about) + Packets(peers, id, b, about)
  {
  }

  // ------------------------------------------------- leader's append messages

  lemma AppendPacketOk(peers: set<PeerId>, h: History, p: PeerId, n: Node, q: PeerId, pk: Packet)
    requires NodeOk(peers, h, p, n) && n.role == Leader && q in peers && q != p
    requires pk.from == p && pk.to == q && pk.body == WireBody(AppendEffect(n, q), p)
    ensures PacketOk(peers, h, pk)
  {
  }

  lemma AppendsOk(peers: set<PeerId>, h: History, p: PeerId, n: Node, wire: set<Effect>, about: nat)
    requires NodeOk(peers, h, p, n) && n.role == Leader
    requires forall e :: e in wire ==> exists q :: q in peers && q != p && e == AppendEffect(n, q)
    ensures NetOk(peers, Packets(peers, p, wire, about), h)
    ensures TrueAcks(h, p, n, Packets(peers, p, wire, about))
  {
    forall pk | pk in Packets(peers, p, wire, about) ensures PacketOk(peers, h, pk) && pk.body.AppendEntries? {
      var e, q :| e in wire && q in peers && Addressed(e, p, q) && pk == Packet(p, q, WireBody(e, p), about);
      var r :| r in peers && r != p && e == AppendEffect(n, r);
      AppendPacketOk(peers, h, p, n, q, pk);
    }
  }

  lemma EmitAppends(peers: set<PeerId>, s: State, h: History, p: PeerId, wire: set<Effect>, about: nat)
    requires Inv(peers, s, h) && p in s.nodes && s.nodes[p].role == Leader
    requires forall e :: e in wire ==> exists q :: q in peers && q != p && e == AppendEffect(s.nodes[p], q)
    ensures Inv(peers, Emit(s, Packets(peers, p, wire, about)), h)
  {
    NodeFacts(peers, s, h, p);
    AppendsOk(peers, h, p, s.nodes[p], wire, about);
    EmitMove(peers, s, h, p, Packets(peers, p, wire, about));
  }

  lemma FollowerAppendsShape(peers: set<PeerId>, h: History, p: PeerId, n: Node)
    requires NodeOk(peers, h, p, n) && n.role == Leader
    ensures forall e :: e in FollowerAppends(n) ==> exists q :: q in peers && q != p && e == AppendEffect(n, q)
  {
  }

  lemma HeartbeatMove(peers: set<PeerId>, s: State, h: History, p: PeerId, about: nat)
    requires Inv(peers, s, h) && p in s.nodes && s.nodes[p].role == Leader
    ensures Inv(peers, Emit(s, Packets(peers, p, FollowerAppends(s.nodes[p]), about)), h)
  {
    NodeFacts(peers, s, h, p);
    FollowerAppendsShape(peers, h, p, s.nodes[p]);
    EmitAppends(peers, s, h, p, FollowerAppends(s.nodes[p]), about);
  }

  /** A leader appends an entry of its own term. */
  lemma AppendOwnMove(peers: set<PeerId>, s: State, h: History, p: PeerId, hash: BlockHash, about: nat) returns (h': History)
    requires Inv(peers, s, h) && p in s.nodes && s.nodes[p].role == Leader
    ensures Extends(h, h') && Inv(peers, Install(peers, s, p, AppendOwn(s.nodes[p], hash), about), h')
  {
    var n := s.nodes[p];
    var n1 := Pushed(n, hash);
    var o := AppendOwn(n, hash);
    h' := PushMove(peers, s, h, p, hash);
    var s1 := Put(s, p, n1);
    NodeFacts(peers, s1, h', p);
    HeartbeatMove(peers, s1, h', p, about);
    var s2 := Emit(s1, Packets(peers, p, o.wire, about));
    ScanExact(n1, |n1.log|);
    assert SameBut(n1, o.node);
    BookkeepingMove(peers, s2, h', p, o.node);
    PutPut(s, p, n1, o.node);
    assert Put(s2, p, o.node) == Install(peers, s, p, o, about);
  }

  // ------------------------------------------------------------------- votes

  lemma AskOk(peers: set<PeerId>, h: History, p: PeerId, n: Node, about: nat)
    requires NodeOk(peers, h, p, n) && n.role == Candidate
    ensures var more := Packets(peers, p, {Broadcast(RequestVote(n.term, p, LastIndex(n.log), LastTerm(n.log)))}, about);
      NetOk(peers, more, h) && TrueAcks(h, p, n, more)
  {
    LastIndexIsLength(n.log);
  }

  function Ask(n: Node): Effect {
    Broadcast(RequestVote(n.term, n.id, LastIndex(n.log), LastTerm(n.log)))
  }

  /** Standing for election and asking for votes. */
  lemma AskMove(peers: set<PeerId>, s: State, h: History, p: PeerId, about: nat) returns (h': History)
    requires Inv(peers, s, h) && p in s.nodes && s.nodes[p].role != Leader && s.nodes[p].participants == peers
    ensures var c := Candidacy(s.nodes[p]);
      && c.id == p && Extends(h, h')
      && Inv(peers, Emit(Put(s, p, c), Packets(peers, p, {Ask(c)}, about)), h')
  {
    var c := Candidacy(s.nodes[p]);
    h' := CandidacyMove(peers, s, h, p);
    var s1 := Put(s, p, c);
    NodeFacts(peers, s1, h', p);
    AskOk(peers, h', p, c, about);
    EmitMove(peers, s1, h', p, Packets(peers, p, {Ask(c)}, about));
  }

  /** Taking office: crowned, then the no-op of the new term. */
  lemma OfficeMove(peers: set<PeerId>, s: State, h: History, p: PeerId, about: nat) returns (h': History)
    requires Inv(peers, s, h) && p in s.nodes && s.nodes[p].role == Candidate
    requires |s.nodes[p].votes| >= Majority(s.nodes[p])
    ensures Extends(h, h') && Inv(peers, Install(peers, s, p, AppendNoop(Crown(s.nodes[p])), about), h')
  {
    var n := s.nodes[p];
    NodeFacts(peers, s, h, p);
    var h1 := CrownMove(peers, s, h, p);
    h' := AppendOwnMove(peers, Put(s, p, Crown(n)), h1, p, EMPTY_HASH, about);
    ExtendsTransitive(h, h1, h');
    InstallPut(peers, s, p, Crown(n), AppendNoop(Crown(n)), about);
  }

  lemma ElectionStep(peers: set<PeerId>, s: State, h: History, p: PeerId, about: nat) returns (h': History)
    requires Inv(peers, s, h) && p in s.nodes && s.nodes[p].role != Leader && s.nodes[p].participants == peers
    ensures var n1 := BecomeLeaderIfMajority(Candidacy(s.nodes[p]));
      var o := if n1.role == Leader then AppendNoop(n1).(wire := AppendNoop(n1).wire + {Ask(n1)}) else Outcome(n1, [], {Ask(n1)});
      Extends(h, h') && Inv(peers, Install(peers, s, p, o, about), h')
  {
    var c := Candidacy(s.nodes[p]);
    h' := AskMove(peers, s, h, p, about);
    var s1 := Emit(Put(s, p, c), Packets(peers, p, {Ask(c)}, about));
    if |c.votes| >= Majority(c) {
      var h1 := h';
      h' := OfficeMove(peers, s1, h1, p, about);
      ExtendsTransitive(h, h1, h');
      InstallBoth(peers, s, p, c, AppendNoop(Crown(c)), {Ask(c)}, about);
    } else {
      assert s1 == Install(peers, s, p, Outcome(c, [], {Ask(c)}), about);
    }
  }

  lemma InstallBoth(peers: set<PeerId>, s: State, p: PeerId, n: Node, o: Outcome, more: set<Effect>, about: nat)
    ensures Install(peers, Emit(Put(s, p, n), Packets(peers, p, more, about)), p, o, about)
      == Install(peers, s, p, o.(wire := o.wire + more), about)
  {
    PacketsUnion(peers, p, o.wire, more, about);
  }

  lemma TickStep(peers: set<PeerId>, s: State, h: History, p: PeerId, electionDue: bool, heartbeatDue: bool)
    returns (h': History)
    requires Inv(peers, s, h) && p in s.nodes
    ensures Extends(h, h')
    ensures Inv(peers, Install(peers, s, p, OnTick(s.nodes[p], peers - {p}, electionDue, heartbeatDue), 0), h')
  {
    var n0 := UpdateParticipants(s.nodes[p], peers - {p});
    NodeFacts(peers, s, h, p);
    ParticipantsNode(peers, h, p, s.nodes[p]);
    ParticipantsMove(peers, s, h, p);
    var s0 := Put(s, p, n0);
    ExtendsSelf(h);
    h' := h;
    if n0.role == Leader && heartbeatDue {
      HeartbeatMove(peers, s0, h, p, 0);
      assert Emit(s0, Packets(peers, p, FollowerAppends(n0), 0)) == Install(peers, s, p, Outcome(n0, [], FollowerAppends(n0)), 0);
    } else if n0.role != Leader && electionDue {
      h' := ElectionStep(peers, s0, h, p, 0);
      InstallPut(peers, s, p, n0, OnTick(s.nodes[p], peers - {p}, electionDue, heartbeatDue), 0);
    } else {
      InstallNothing(peers, s, p, Outcome(n0, [], {}), 0);
    }
  }

  lemma InstallPut(peers: set<PeerId>, s: State, p: PeerId, n: Node, o: Outcome, about: nat)
    ensures Install(peers, Put(s, p, n), p, o, about) == Install(peers, s, p, o, about)
  {
  }

  lemma InstallSame(peers: set<PeerId>, s: State, p: PeerId, o: Outcome, about: nat)
    requires p in s.nodes && o.node == s.nodes[p]
    ensures Install(peers, s, p, o, about) == Emit(s, Packets(peers, p, o.wire, about))
  {
    assert s.nodes[p := o.node] == s.nodes;
  }

  lemma InstallNothing(peers: set<PeerId>, s: State, p: PeerId, o: Outcome, about: nat)
    requires o.wire == {}
    ensures Install(peers, s, p, o, about) == Put(s, p, o.node)
  {
  }

  lemma VoteReplyOk(peers: set<PeerId>, h: History, p: PeerId, n: Node, to: PeerId, granted: bool, about: nat)
    requires NodeOk(peers, h, p, n)
    requires granted ==> (p, n.term) in h.votes && h.votes[(p, n.term)].candidate == to
    ensures var more := Packets(peers, p, {Send(to, RequestVoteResponse(n.term, granted))}, about);
      NetOk(peers, more, h) && TrueAcks(h, p, n, more)
  {
  }

  lemma GrantAsked(peers: set<PeerId>, s: State, h: History, pk: Packet) returns (h': History)
    requires Inv(peers, s, h) && pk in s.net && pk.to in s.nodes && pk.body.RequestVote?
    requires s.nodes[pk.to].term == pk.body.term
    requires GrantsVote(s.nodes[pk.to], pk.body.candidate, pk.body.lastIndex, pk.body.lastTerm)
    ensures Extends(h, h') && Inv(peers, Put(s, pk.to, s.nodes[pk.to].(votedFor := Some(pk.body.candidate))), h')
    ensures (pk.to, pk.body.term) in h'.votes && h'.votes[(pk.to, pk.body.term)].candidate == pk.from
  {
    PacketFacts(peers, s, h, pk);
    h' := GrantMove(peers, s, h, pk.to, pk.body.candidate);
  }

  /** The voter's new state, before its reply. */
  lemma BallotMove(peers: set<PeerId>, s: State, h: History, pk: Packet, o: Outcome) returns (h': History, granted: bool)
    requires Inv(peers, s, h) && pk in s.net && pk.to in s.nodes && pk.body.RequestVote?
    requires var b := pk.body; o == OnRequestVote(s.nodes[pk.to], b.term, b.candidate, b.lastIndex, b.lastTerm, pk.from)
    ensures Extends(h, h') && Inv(peers, Put(s, pk.to, o.node), h')
    ensures o.wire == {Send(pk.from, RequestVoteResponse(o.node.term, granted))}
    ensures granted ==> (pk.to, o.node.term) in h'.votes && h'.votes[(pk.to, o.node.term)].candidate == pk.from
  {
    var p := pk.to;
    var b := pk.body;
    var n := s.nodes[p];
    StepDownMove(peers, s, h, p, b.term);
    var n1 := StepDownOnNewer(n, b.term);
    granted := b.term >= n.term && GrantsVote(n1, b.candidate, b.lastIndex, b.lastTerm);
    if granted {
      h' := GrantAsked(peers, Put(s, p, n1), h, pk);
      PutPut(s, p, n1, o.node);
    } else {
      h' := h;
      ExtendsSelf(h);
    }
  }

  lemma RequestVoteStep(peers: set<PeerId>, s: State, h: History, pk: Packet) returns (h': History)
    requires Inv(peers, s, h) && pk in s.net && pk.to in s.nodes && pk.body.RequestVote?
    ensures var b := pk.body;
      var o := OnRequestVote(s.nodes[pk.to], b.term, b.candidate, b.lastIndex, b.lastTerm, pk.from);
      Extends(h, h') && Inv(peers, Install(peers, s, pk.to, o, 0), h')
  {
    var p := pk.to;
    var b := pk.body;
    var o := OnRequestVote(s.nodes[p], b.term, b.candidate, b.lastIndex, b.lastTerm, pk.from);
    var granted;
    h', granted := BallotMove(peers, s, h, pk, o);
    var s2 := Put(s, p, o.node);
    NodeFacts(peers, s2, h', p);
    VoteReplyOk(peers, h', p, o.node, pk.from, granted, 0);
    EmitMove(peers, s2, h', p, Packets(peers, p, o.wire, 0));
  }

  lemma VoteResponseStep(peers: set<PeerId>, s: State, h: History, pk: Packet) returns (h': History)
    requires Inv(peers, s, h) && pk in s.net && pk.to in s.nodes && pk.body.RequestVoteResponse?
    ensures var o := OnRequestVoteResponse(s.nodes[pk.to], pk.body.term, pk.from, pk.body.granted);
      Extends(h, h') && Inv(peers, Install(peers, s, pk.to, o, 0), h')
  {
    var p := pk.to;
    var b := pk.body;
    var n := s.nodes[p];
    var o := OnRequestVoteResponse(n, b.term, pk.from, b.granted);
    PacketFacts(peers, s, h, pk);
    NodeFacts(peers, s, h, p);
    h' := h;
    ExtendsSelf(h);
    if b.term > n.term {
      StepDownMove(peers, s, h, p, b.term);
      InstallNothing(peers, s, p, o, 0);
    } else if n.role == Candidate && b.term == n.term && b.granted && pk.from in n.participants {
      CountVoteMove(peers, s, h, p, pk.from);
      var n1 := WithVote(n, pk.from);
      var s1 := Put(s, p, n1);
      if |n1.votes| >= Majority(n1) {
        h' := OfficeMove(peers, s1, h, p, 0);
        InstallPut(peers, s, p, n1, o, 0);
      } else {
        InstallNothing(peers, s, p, o, 0);
      }
    } else {
      IdleStep(peers, s, h, p, o);
    }
  }

  // ------------------------------------------------------------------ appends

  /** Highest index the follower vouches for is one where it agrees with the leader. */
  lemma {:induction false} MaxMatchAgrees(h: History, log: seq<Entry>, lead: seq<Entry>, entries: seq<Entry>)
    requires LogOk(h, log) && LogOk(h, lead)
    requires forall k :: 0 <= k < |entries| ==> 1 <= entries[k].index <= |lead| && entries[k] == lead[entries[k].index - 1]
    ensures var m := MaxMatch(log, entries);
      m.Some? ==> m.value <= |lead| && lead[..m.value] <= log
  {
    if entries != [] {
      var e := entries[|entries| - 1];
      MaxMatchAgrees(h, log, lead, entries[..|entries| - 1]);
      if TermAt(log, e.index) == Some(e.term) {
        CommonPrefix(h, log, lead, e.index);
      }
    }
  }

  lemma MatchingIndexAgrees(h: History, log: seq<Entry>, lead: seq<Entry>, prev: nat, e: nat, entries: seq<Entry>)
    requires LogOk(h, log) && LogOk(h, lead) && prev <= e <= |lead|
    requires entries == [] || entries == lead[prev..e]
    ensures var m := MatchingIndex(log, prev, if prev == 0 then 0 else lead[prev - 1].term, entries);
      m <= |lead| && lead[..m] <= log
  {
    forall k | 0 <= k < |entries|
      ensures 1 <= entries[k].index <= |lead| && entries[k] == lead[entries[k].index - 1]
    {
      assert entries[k] == lead[prev + k];
    }
    MaxMatchAgrees(h, log, lead, entries);
    if prev <= |log| && (prev > 0 ==> log[prev - 1].term == lead[prev - 1].term) {
      CommonPrefix(h, log, lead, prev);
    }
  }

  /** The node's log holds the first m entries of its term's leader log. */
  ghost predicate AgreesTo(h: History, n: Node, m: nat) {
    n.term in h.reigns && m <= |h.reigns[n.term].log| && h.reigns[n.term].log[..m] <= n.log
  }

  /** A reply of a node to an append, with the highest index it vouches for. */
  lemma ReplyOk(peers: set<PeerId>, h: History, p: PeerId, n: Node, pk: Packet, success: bool, m: nat)
    requires NodeOk(peers, h, p, n) && pk.to == p && PacketOk(peers, h, pk) && pk.body.AppendEntries?
    requires success ==> n.term == pk.body.term
    requires n.term == pk.body.term ==> AgreesTo(h, n, m)
    ensures var more := Packets(peers, p, {Reply(n, pk.from, success, m)}, pk.body.term);
      NetOk(peers, more, h) && TrueAcks(h, p, n, more)
  {
  }

  lemma EmitReply(peers: set<PeerId>, s: State, h: History, p: PeerId, pk: Packet, success: bool, m: nat, o: Outcome)
    requires Inv(peers, s, h) && p in s.nodes && pk in s.net && pk.to == p && pk.body.AppendEntries?
    requires o.wire == {Reply(s.nodes[p], pk.from, success, m)} && o.node == s.nodes[p]
    requires success ==> s.nodes[p].term == pk.body.term
    requires s.nodes[p].term == pk.body.term ==> AgreesTo(h, s.nodes[p], m)
    ensures Inv(peers, Install(peers, s, p, o, pk.body.term), h)
  {
    NodeFacts(peers, s, h, p);
    PacketFacts(peers, s, h, pk);
    ReplyOk(peers, h, p, s.nodes[p], pk, success, m);
    EmitMove(peers, s, h, p, Packets(peers, p, o.wire, pk.body.term));
    InstallSame(peers, s, p, o, pk.body.term);
  }

  /** Refusals: the vouched index is computed from the request and the node's own log. */
  lemma RefuseStep(peers: set<PeerId>, s: State, h: History, pk: Packet, entries: seq<Entry>, o: Outcome)
    requires Inv(peers, s, h) && pk in s.net && pk.to in s.nodes && pk.body.AppendEntries?
    requires entries == [] || entries == pk.body.entries
    requires var n := s.nodes[pk.to];
      o == Outcome(n, [], {Reply(n, pk.from, false, MatchingIndex(n.log, pk.body.prevIndex, pk.body.prevTerm, entries))})
    ensures Inv(peers, Install(peers, s, pk.to, o, pk.body.term), h)
  {
    var p := pk.to;
    var b := pk.body;
    var n := s.nodes[p];
    AppendFacts(peers, s, h, p, pk);
    var m := MatchingIndex(n.log, b.prevIndex, b.prevTerm, entries);
    if n.term == b.term {
      RefusalAgrees(h, n.log, pk, entries);
    }
    EmitReply(peers, s, h, p, pk, false, m, o);
  }

  lemma RefusalAgrees(h: History, log: seq<Entry>, pk: Packet, entries: seq<Entry>)
    requires pk.body.AppendEntries? && AppendOk(h, pk) && LogOk(h, log) && LogOk(h, h.reigns[pk.body.term].log)
    requires entries == [] || entries == pk.body.entries
    ensures var m := MatchingIndex(log, pk.body.prevIndex, pk.body.prevTerm, entries); var lead := h.reigns[pk.body.term].log;
      m <= |lead| && lead[..m] <= log
  {
    var b := pk.body;
    MatchingIndexAgrees(h, log, h.reigns[b.term].log, b.prevIndex, b.prevIndex + |b.entries|, entries);
  }

  /** An admitted append: the node first adopts the term and the leader. */
  lemma AdmitMove(peers: set<PeerId>, s: State, h: History, pk: Packet)
    requires Inv(peers, s, h) && pk in s.net && pk.to in s.nodes && pk.body.AppendEntries?
    requires pk.body.term >= s.nodes[pk.to].term
    ensures Inv(peers, Put(s, pk.to, Follow(StepDownOnNewer(s.nodes[pk.to], pk.body.term), pk.body.leader)), h)
  {
    var p := pk.to;
    var n0 := StepDownOnNewer(s.nodes[p], pk.body.term);
    StepDownMove(peers, s, h, p, pk.body.term);
    AdoptMove(peers, Put(s, p, n0), h, pk);
    PutPut(s, p, n0, Follow(n0, pk.body.leader));
  }

  lemma AdoptMove(peers: set<PeerId>, s: State, h: History, pk: Packet)
    requires Inv(peers, s, h) && pk in s.net && pk.to in s.nodes && pk.body.AppendEntries?
    requires pk.body.term == s.nodes[pk.to].term
    ensures Inv(peers, Put(s, pk.to, Follow(s.nodes[pk.to], pk.body.leader)), h)
  {
    AppendFacts(peers, s, h, pk.to, pk);
    FollowMove(peers, s, h, pk.to, pk.body.leader);
  }

  lemma AcceptMove(peers: set<PeerId>, s: State, h: History, pk: Packet, n1: Node, n2: Node)
    requires Inv(peers, s, h) && pk in s.net && pk.to in s.nodes
    requires TakesIn(s.nodes[pk.to], pk.body, n1) && SameBut(n1, n2) && n2.commit == n1.commit
    ensures Inv(peers, Put(s, pk.to, n2), h)
    ensures AgreesTo(h, n2, pk.body.prevIndex + |pk.body.entries|) && n2.term == pk.body.term
  {
    var p := pk.to;
    AppendFacts(peers, s, h, p, pk);
    MergeEffect(peers, s.net, h, p, s.nodes[p], pk, n1);
    MergeMove(peers, s, h, p, pk, n1);
    BookkeepingMove(peers, Put(s, p, n1), h, p, n2);
    PutPut(s, p, n1, n2);
  }

  lemma AcceptStep(peers: set<PeerId>, s: State, h: History, pk: Packet, v: Validated, o: Outcome)
    requires Inv(peers, s, h) && pk in s.net && pk.to in s.nodes && pk.body.AppendEntries?
    requires v.entries == pk.body.entries && s.nodes[pk.to].term == pk.body.term && s.nodes[pk.to].role == Follower
    requires var n := s.nodes[pk.to]; var b := pk.body;
      && Accepts(n, b.prevIndex, b.prevTerm, b.entries)
      && o == OnCheckedAppend(n, AppendRequest(b.term, b.leader, b.prevIndex, b.prevTerm, b.leaderCommit, pk.from), v)
    ensures Inv(peers, Install(peers, s, pk.to, o, pk.body.term), h)
  {
    var b := pk.body;
    var n := s.nodes[pk.to];
    var n1 := Appended(n, b.prevIndex, b.prevTerm, b.entries, b.leaderCommit);
    AcceptOutcome(n, pk, v, n1, o);
    AcceptWith(peers, s, h, pk, n1, o);
  }

  /** What an accepted append does, without how. */
  ghost predicate AcceptedAs(n: Node, pk: Packet, n1: Node, o: Outcome)
    requires pk.body.AppendEntries?
  {
    && TakesIn(n, pk.body, n1) && SameBut(n1, o.node) && o.node.commit == n1.commit
    && o.wire == {Reply(o.node, pk.from, true, pk.body.prevIndex + |pk.body.entries|)}
  }

  lemma AcceptOutcome(n: Node, pk: Packet, v: Validated, n1: Node, o: Outcome)
    requires pk.body.AppendEntries? && v.entries == pk.body.entries && n.term == pk.body.term && n.role == Follower
    requires var b := pk.body;
      && Accepts(n, b.prevIndex, b.prevTerm, b.entries)
      && n1 == Appended(n, b.prevIndex, b.prevTerm, b.entries, b.leaderCommit)
      && o == OnCheckedAppend(n, AppendRequest(b.term, b.leader, b.prevIndex, b.prevTerm, b.leaderCommit, pk.from), v)
    ensures AcceptedAs(n, pk, n1, o)
  {
  }

  lemma AcceptWith(peers: set<PeerId>, s: State, h: History, pk: Packet, n1: Node, o: Outcome)
    requires Inv(peers, s, h) && pk in s.net && pk.to in s.nodes && pk.body.AppendEntries?
    requires AcceptedAs(s.nodes[pk.to], pk, n1, o)
    ensures Inv(peers, Install(peers, s, pk.to, o, pk.body.term), h)
  {
    var p := pk.to;
    AcceptMove(peers, s, h, pk, n1, o.node);
    EmitReply(peers, Put(s, p, o.node), h, p, pk, true, pk.body.prevIndex + |pk.body.entries|, o);
    InstallPut(peers, s, p, o.node, o, pk.body.term);
  }

  lemma AppendStep(peers: set<PeerId>, s: State, h: History, pk: Packet, timedOut: bool, payloads: Option<map<BlockHash, BlockFile>>)
    requires Inv(peers, s, h) && pk in s.net && pk.to in s.nodes && pk.body.AppendEntries?
    ensures Inv(peers, Install(peers, s, pk.to, Receive(s.nodes[pk.to], pk, timedOut, payloads), pk.body.term), h)
  {
    var p := pk.to;
    var b := pk.body;
    var n := s.nodes[p];
    var r := AppendRequest(b.term, b.leader, b.prevIndex, b.prevTerm, b.leaderCommit, pk.from);
    var o := Receive(n, pk, timedOut, payloads);
    if !Admits(n, b.term, b.leader, pk.from, timedOut) {
      RefuseStep(peers, s, h, pk, [], o);
    } else {
      var n1 := Follow(StepDownOnNewer(n, b.term), b.leader);
      AdmitMove(peers, s, h, pk);
      var s1 := Put(s, p, n1);
      InstallPut(peers, s, p, n1, o, b.term);
      match payloads
      case None =>
        RefuseStep(peers, s1, h, pk, [], o);
      case Some(blocks) =>
        if Accepts(n1, b.prevIndex, b.prevTerm, b.entries) {
          AcceptStep(peers, s1, h, pk, Validated(b.entries, blocks), o);
        } else {
          RefuseStep(peers, s1, h, pk, b.entries, o);
        }
    }
  }

  // ------------------------------------------------------------ append replies

  /** A refusal of the current term: the leader lowers its estimate and tries again. */
  lemma RetryStep(peers: set<PeerId>, s: State, h: History, p: PeerId, from: PeerId, n1: Node, o: Outcome)
    requires Inv(peers, s, h) && p in s.nodes && s.nodes[p].role == Leader && from in peers && from != p
    requires SameBut(s.nodes[p], n1) && n1.commit == s.nodes[p].commit
    requires o.node == n1 && (o.wire == {} || o.wire == {AppendEffect(n1, from)})
    ensures Inv(peers, Install(peers, s, p, o, 0), h)
  {
    NodeFacts(peers, s, h, p);
    BookkeepingMove(peers, s, h, p, n1);
    if o.wire == {} {
      InstallNothing(peers, s, p, o, 0);
    } else {
      ResendStep(peers, Put(s, p, n1), h, p, from, o);
      InstallPut(peers, s, p, n1, o, 0);
    }
  }

  lemma ResendStep(peers: set<PeerId>, s: State, h: History, p: PeerId, from: PeerId, o: Outcome)
    requires Inv(peers, s, h) && p in s.nodes && s.nodes[p].role == Leader && from in peers && from != p
    requires o.node == s.nodes[p] && o.wire == {AppendEffect(s.nodes[p], from)}
    ensures Inv(peers, Install(peers, s, p, o, 0), h)
  {
    NodeFacts(peers, s, h, p);
    AppendsOk(peers, h, p, s.nodes[p], o.wire, 0);
    EmitMove(peers, s, h, p, Packets(peers, p, o.wire, 0));
    InstallSame(peers, s, p, o, 0);
  }

  /** An acceptance of the current term: the leader raises its estimate and may commit. */
  lemma CreditStep(peers: set<PeerId>, s: State, h: History, p: PeerId, n1: Node, o: Outcome)
    requires Inv(peers, s, h) && p in s.nodes && o.wire == {}
    requires SameBut(s.nodes[p], n1) && n1.commit == s.nodes[p].commit
    requires SameBut(n1, o.node) && o.node.commit == ScanCommit(n1, |n1.log|)
    ensures Inv(peers, Install(peers, s, p, o, 0), h)
  {
    NodeFacts(peers, s, h, p);
    ScanExact(n1, |n1.log|);
    BookkeepingMove(peers, s, h, p, o.node);
    InstallNothing(peers, s, p, o, 0);
  }

  lemma ReplyFacts(peers: set<PeerId>, s: State, h: History, pk: Packet)
    requires Inv(peers, s, h) && pk in s.net && pk.body.AppendEntriesResponse?
    ensures pk.from in peers && pk.from != pk.to
  {
    PacketFacts(peers, s, h, pk);
  }

  lemma AcceptedReplyStep(peers: set<PeerId>, s: State, h: History, pk: Packet)
    requires Inv(peers, s, h) && pk in s.net && pk.to in s.nodes && pk.body.AppendEntriesResponse?
    requires var n := s.nodes[pk.to]; n.role == Leader && pk.body.term == n.term && pk.from in n.participants
    requires pk.body.success
    ensures var b := pk.body; var o := OnAppendEntriesResponse(s.nodes[pk.to], b.term, pk.from, b.success, b.matchIndex);
      Inv(peers, Install(peers, s, pk.to, o, 0), h)
  {
    var p := pk.to;
    var n := s.nodes[p];
    var o := OnAppendEntriesResponse(n, pk.body.term, pk.from, true, pk.body.matchIndex);
    var previous := if pk.from in n.matched then n.matched[pk.from] else 0;
    CreditStep(peers, s, h, p, n.(matched := n.matched[pk.from := Max(previous, pk.body.matchIndex)]), o);
  }

  lemma RefusedReplyStep(peers: set<PeerId>, s: State, h: History, pk: Packet)
    requires Inv(peers, s, h) && pk in s.net && pk.to in s.nodes && pk.body.AppendEntriesResponse?
    requires var n := s.nodes[pk.to]; n.role == Leader && pk.body.term == n.term && pk.from in n.participants
    requires !pk.body.success
    ensures var b := pk.body; var o := OnAppendEntriesResponse(s.nodes[pk.to], b.term, pk.from, b.success, b.matchIndex);
      Inv(peers, Install(peers, s, pk.to, o, 0), h)
  {
    var o := OnAppendEntriesResponse(s.nodes[pk.to], pk.body.term, pk.from, false, pk.body.matchIndex);
    ReplyFacts(peers, s, h, pk);
    RetryStep(peers, s, h, pk.to, pk.from, o.node, o);
  }

  lemma AppendResponseStep(peers: set<PeerId>, s: State, h: History, pk: Packet)
    requires Inv(peers, s, h) && pk in s.net && pk.to in s.nodes && pk.body.AppendEntriesResponse?
    ensures var b := pk.body; var o := OnAppendEntriesResponse(s.nodes[pk.to], b.term, pk.from, b.success, b.matchIndex);
      Inv(peers, Install(peers, s, pk.to, o, 0), h)
  {
    var p := pk.to;
    var b := pk.body;
    var n := s.nodes[p];
    var o := OnAppendEntriesResponse(n, b.term, pk.from, b.success, b.matchIndex);
    if b.term > n.term {
      StepDownMove(peers, s, h, p, b.term);
      InstallNothing(peers, s, p, o, 0);
    } else if n.role != Leader || b.term != n.term || pk.from !in n.participants {
      IdleStep(peers, s, h, p, o);
    } else if b.success {
      AcceptedReplyStep(peers, s, h, pk);
    } else {
      RefusedReplyStep(peers, s, h, pk);
    }
  }

  lemma IdleStep(peers: set<PeerId>, s: State, h: History, p: PeerId, o: Outcome)
    requires Inv(peers, s, h) && p in s.nodes && o.node == s.nodes[p] && o.wire == {}
    ensures Inv(peers, Install(peers, s, p, o, 0), h)
  {
    InstallSame(peers, s, p, o, 0);
    assert Packets(peers, p, o.wire, 0) == {};
    assert s.net + {} == s.net;
  }

  // ---------------------------------------------------------------- all steps

  /** The invariant is kept by every action, and the history only grows. */
  lemma NextKeepsInv(peers: set<PeerId>, s: State, h: History, a: Action) returns (h': History)
    requires Inv(peers, s, h) && Enabled(s, a)
    ensures Extends(h, h') && Inv(peers, Next(peers, s, a), h')
  {
    ExtendsSelf(h);
    h' := h;
    match a
    case Tick(p, electionDue, heartbeatDue) =>
      h' := TickStep(peers, s, h, p, electionDue, heartbeatDue);
    case CreateBlock(p, hash) =>
      h' := CreateBlockStep(peers, s, h, p, hash);
    case Deliver(pk, timedOut, payloads) =>
      h' := DeliverStep(peers, s, h, pk, timedOut, payloads);
  }

  lemma CreateBlockStep(peers: set<PeerId>, s: State, h: History, p: PeerId, hash: BlockHash) returns (h': History)
    requires Inv(peers, s, h) && p in s.nodes
    ensures Extends(h, h') && Inv(peers, Next(peers, s, CreateBlock(p, hash)), h')
  {
    ExtendsSelf(h);
    h' := h;
    match OnBlockCreated(s.nodes[p], hash)
    case None =>
    case Some(o) =>
      if s.nodes[p].role == Leader {
        h' := AppendOwnMove(peers, s, h, p, hash, 0);
      } else {
        IdleStep(peers, s, h, p, o);
      }
  }

  lemma DeliverVoteStep(peers: set<PeerId>, s: State, h: History, pk: Packet, timedOut: bool, payloads: Option<map<BlockHash, BlockFile>>)
    returns (h': History)
    requires Inv(peers, s, h) && pk in s.net && pk.to in s.nodes
    requires pk.body.RequestVote? || pk.body.RequestVoteResponse?
    ensures Extends(h, h') && Inv(peers, Next(peers, s, Deliver(pk, timedOut, payloads)), h')
  {
    if pk.body.RequestVote? {
      h' := RequestVoteStep(peers, s, h, pk);
    } else {
      h' := VoteResponseStep(peers, s, h, pk);
    }
  }

  lemma DeliverAppendStep(peers: set<PeerId>, s: State, h: History, pk: Packet, timedOut: bool, payloads: Option<map<BlockHash, BlockFile>>)
    requires Inv(peers, s, h) && pk in s.net && pk.to in s.nodes && pk.body.AppendEntries?
    ensures Inv(peers, Next(peers, s, Deliver(pk, timedOut, payloads)), h)
  {
    AppendStep(peers, s, h, pk, timedOut, payloads);
  }

  lemma DeliverReplyStep(peers: set<PeerId>, s: State, h: History, pk: Packet, timedOut: bool, payloads: Option<map<BlockHash, BlockFile>>)
    requires Inv(peers, s, h) && pk in s.net && pk.to in s.nodes && pk.body.AppendEntriesResponse?
    ensures Inv(peers, Next(peers, s, Deliver(pk, timedOut, payloads)), h)
  {
    AppendResponseStep(peers, s, h, pk);
  }

  lemma DeliverStep(peers: set<PeerId>, s: State, h: History, pk: Packet, timedOut: bool, payloads: Option<map<BlockHash, BlockFile>>)
    returns (h': History)
    requires Inv(peers, s, h) && pk in s.net && pk.to in s.nodes
    ensures Extends(h, h') && Inv(peers, Next(peers, s, Deliver(pk, timedOut, payloads)), h')
  {
    ExtendsSelf(h);
    h' := h;
    if pk.body.RequestVote? || pk.body.RequestVoteResponse? {
      h' := DeliverVoteStep(peers, s, h, pk, timedOut, payloads);
    } else if pk.body.AppendEntries? {
      DeliverAppendStep(peers, s, h, pk, timedOut, payloads);
    } else if pk.body.AppendEntriesResponse? {
      DeliverReplyStep(peers, s, h, pk, timedOut, payloads);
    } else {
      IdleStep(peers, s, h, pk.to, Outcome(s.nodes[pk.to], [], {}));
    }
  }

  lemma InitInv(peers: set<PeerId>)
    ensures Inv(peers, Init(peers), History(map[], map[], map[]))
  {
  }
}
