/** Agreement on committed entries over whole runs. */
module ClusterAgreement {
  import opened Types
  import opened RaftLog
  import opened RaftNode
  import opened Cluster
  import opened ClusterInvariant
  import opened ClusterMoves
  import opened ClusterReigns
  import opened ClusterStep
  import opened ClusterSafety
  import opened ClusterCommit
  import opened Prudence
  import RaftNodeRuns

  ghost predicate PrudentAt(peers: set<PeerId>, run: seq<State>, actions: seq<Action>, i: nat)
    requires |run| == |actions| + 1 && i < |actions|
  {
    Linked(peers, run, actions, i) && Prudent(run[i], actions[i])
  }

  ghost predicate PrudentRun(peers: set<PeerId>, run: seq<State>, actions: seq<Action>)
    requires IsRun(peers, run, actions)
  {
    forall i :: 0 <= i < |actions| ==> PrudentAt(peers, run, actions, i)
  }

  // ----------------------------------------------------------------- invariant

  /** The leader's table is backed by acknowledgements of its own term. */
  ghost predicate MatchOk(net: set<Packet>, h: History, n: Node) {
    n.role == Leader ==> forall q :: q in n.matched ==> n.matched[q] == 0 || Acked(net, h, q, n.term, n.matched[q])
  }

  ghost predicate CommitOk(peers: set<PeerId>, net: set<Packet>, h: History, n: Node) {
    n.commit <= |n.log| && Evidence(peers, net, h, n.log[..n.commit], n.term)
  }

  ghost predicate OfferOk(peers: set<PeerId>, net: set<Packet>, h: History, b: Body)
    requires b.AppendEntries?
  {
    && b.term in h.reigns && b.leaderCommit <= |h.reigns[b.term].log|
    && Evidence(peers, net, h, h.reigns[b.term].log[..b.leaderCommit], b.term)
  }

  ghost predicate CommitInv(peers: set<PeerId>, s: State, h: History) {
    && (forall p :: p in s.nodes ==> MatchOk(s.net, h, s.nodes[p]) && CommitOk(peers, s.net, h, s.nodes[p]))
    && (forall pk :: pk in s.net && pk.body.AppendEntries? ==> OfferOk(peers, s.net, h, pk.body))
  }

  lemma MatchOkKept(net: set<Packet>, h: History, net': set<Packet>, h': History, n: Node)
    requires MatchOk(net, h, n) && net <= net' && Extends(h, h')
    ensures MatchOk(net', h', n)
  {
    if n.role == Leader {
      forall q | q in n.matched && n.matched[q] != 0 ensures Acked(net', h', q, n.term, n.matched[q]) {
        AckedKept(net, net', h, h', q, n.term, n.matched[q]);
      }
    }
  }

  lemma OfferOkKept(peers: set<PeerId>, net: set<Packet>, h: History, net': set<Packet>, h': History, b: Body)
    requires b.AppendEntries? && OfferOk(peers, net, h, b) && net <= net' && Extends(h, h')
    ensures OfferOk(peers, net', h', b)
  {
    assert Kept(h.reigns[b.term], h'.reigns[b.term]);
    assert h'.reigns[b.term].log[..b.leaderCommit] == h.reigns[b.term].log[..b.leaderCommit];
    EvidenceKept(peers, net, h, net', h', h.reigns[b.term].log[..b.leaderCommit], b.term, b.term);
  }

  /** What a step owes for the acting node, given that the rest carries over. */
  lemma InstallKeepsCommit(peers: set<PeerId>, s: State, h: History, p: PeerId, o: Outcome, about: nat, h': History)
    requires CommitInv(peers, s, h) && p in s.nodes && Extends(h, h')
    requires var s' := Install(peers, s, p, o, about);
      && MatchOk(s'.net, h', o.node) && CommitOk(peers, s'.net, h', o.node)
      && NodeOk(peers, h', p, o.node)
    requires RaftNodeRuns.OffersOldCommit(s.nodes[p], o)
    requires RaftNodeRuns.StepKeeps(s.nodes[p], o) && RaftNodeRuns.NoRawAppends(o)
    ensures CommitInv(peers, Install(peers, s, p, o, about), h')
  {
    var s' := Install(peers, s, p, o, about);
    var n := s.nodes[p];
    forall q | q in s'.nodes ensures MatchOk(s'.net, h', s'.nodes[q]) && CommitOk(peers, s'.net, h', s'.nodes[q]) {
      if q != p {
        MatchOkKept(s.net, h, s'.net, h', s.nodes[q]);
        EvidenceKept(peers, s.net, h, s'.net, h', s.nodes[q].log[..s.nodes[q].commit], s.nodes[q].term, s.nodes[q].term);
      }
    }
    assert CommitOk(peers, s.net, h, n);
    EvidenceKept(peers, s.net, h, s'.net, h', n.log[..n.commit], n.term, o.node.term);
    forall pk | pk in s'.net && pk.body.AppendEntries? ensures OfferOk(peers, s'.net, h', pk.body) {
      if pk in s.net {
        OfferOkKept(peers, s.net, h, s'.net, h', pk.body);
      } else {
        NewOffer(peers, h', p, o, about, pk, n);
      }
    }
  }

  lemma NewOffer(peers: set<PeerId>, h': History, p: PeerId, o: Outcome, about: nat, pk: Packet, n: Node)
    requires pk in Packets(peers, p, o.wire, about) && pk.body.AppendEntries?
    requires RaftNodeRuns.OffersOldCommit(n, o) && NodeOk(peers, h', p, o.node)
    requires n.commit <= |n.log| && n.commit <= |o.node.log| && o.node.log[..n.commit] == n.log[..n.commit]
    requires RaftNodeRuns.NoRawAppends(o)
    ensures pk.body.term in h'.reigns && pk.body.term == o.node.term && pk.body.leaderCommit == n.commit <= |h'.reigns[pk.body.term].log|
    ensures h'.reigns[pk.body.term].log[..n.commit] == n.log[..n.commit]
  {
    var e, q :| e in o.wire && q in peers && Addressed(e, p, q) && pk == Packet(p, q, WireBody(e, p), about);
    assert e.SendRaftAppendEntries?;
  }

  // ------------------------------------------------------------ new commitments

  /** A majority in the leader's table is a quorum of acknowledgements. */
  lemma MajorityIsQuorum(peers: set<PeerId>, net: set<Packet>, h: History, p: PeerId, n: Node, i: nat)
    requires NodeOk(peers, h, p, n) && n.role == Leader && MatchOk(net, h, n)
    requires 1 <= i <= |n.log| && Committable(n, i)
    ensures Committed(peers, net, h, n.term, i) && n.log[..i] <= h.reigns[n.term].log
  {
    var q := Replicas(n, i);
    forall r | r in q ensures Acked(net, h, r, n.term, i) {
      AckedLess(net, h, r, n.term, n.matched[r], i);
    }
    assert AllAcked(net, h, q, n.term, i);
    assert Quorum(peers, q);
  }

  lemma AckedLess(net: set<Packet>, h: History, p: PeerId, t: nat, m: nat, i: nat)
    requires Acked(net, h, p, t, m) && i <= m
    ensures Acked(net, h, p, t, i)
  {
    if h.reigns[t].leader != p {
      var pk :| pk in net && AckBy(pk, p, t) && m <= pk.body.matchIndex;
      assert pk in net && AckBy(pk, p, t) && i <= pk.body.matchIndex;
    }
  }

  lemma AdvanceIsBacked(peers: set<PeerId>, s: State, h: History, p: PeerId, o: Outcome, net': set<Packet>, h': History)
    requires p in s.nodes && CommitOk(peers, s.net, h, s.nodes[p]) && s.net <= net' && Extends(h, h')
    requires NodeOk(peers, h', p, o.node) && MatchOk(net', h', o.node)
    requires RaftNodeRuns.StepKeeps(s.nodes[p], o) && RaftNodeRuns.AdvancesByMajority(s.nodes[p], o)
    ensures CommitOk(peers, net', h', o.node)
  {
    var n := s.nodes[p];
    if o.node.commit == n.commit {
      EvidenceKept(peers, s.net, h, net', h', n.log[..n.commit], n.term, o.node.term);
    } else {
      MajorityIsQuorum(peers, net', h', p, o.node, o.node.commit);
      assert Backed(peers, net', h', o.node.log[..o.node.commit], o.node.term, o.node.term, o.node.commit);
    }
  }

  /** Zeros, the leader's own log length and earlier values are all backed. */
  lemma TableIsBacked(peers: set<PeerId>, s: State, h: History, p: PeerId, o: Outcome, net': set<Packet>, h': History)
    requires p in s.nodes && MatchOk(s.net, h, s.nodes[p]) && s.net <= net' && Extends(h, h')
    requires NodeOk(peers, h', p, o.node) && RaftNodeRuns.KeepsTable(s.nodes[p], o)
    ensures MatchOk(net', h', o.node)
  {
    var n := s.nodes[p];
    if o.node.role == Leader {
      forall q | q in o.node.matched && o.node.matched[q] != 0 ensures Acked(net', h', q, o.node.term, o.node.matched[q]) {
        if !(q == p && o.node.matched[q] <= |o.node.log|) {
          AckedKept(s.net, net', h, h', q, n.term, n.matched[q]);
        }
      }
    }
  }

  // ------------------------------------------------------------------ each step

  lemma ActorFacts(peers: set<PeerId>, s: State, h: History, p: PeerId)
    requires Inv(peers, s, h) && p in s.nodes
    ensures NodeOk(peers, h, p, s.nodes[p]) && Sound(s.nodes[p])
  {
    NodeFacts(peers, s, h, p);
  }

  /** Steps whose handler claims nothing new: ticks, votes and local blocks. */
  lemma OrdinaryStep(peers: set<PeerId>, s: State, h: History, p: PeerId, o: Outcome, about: nat, h': History)
    requires CommitInv(peers, s, h) && p in s.nodes && Extends(h, h')
    requires NodeOk(peers, h', p, o.node) && RaftNodeRuns.Ordinary(s.nodes[p], o)
    ensures CommitInv(peers, Install(peers, s, p, o, about), h')
  {
    var net' := s.net + Packets(peers, p, o.wire, about);
    TableIsBacked(peers, s, h, p, o, net', h');
    AdvanceIsBacked(peers, s, h, p, o, net', h');
    InstallKeepsCommit(peers, s, h, p, o, about, h');
  }

  /** A reply credits the sender only with what it vouched for in this very term. */
  lemma ReplyIsBacked(peers: set<PeerId>, net: set<Packet>, h: History, n: Node, pk: Packet, o: Outcome, net': set<Packet>, h': History)
    requires MatchOk(net, h, n) && net <= net' && Extends(h, h') && pk in net && PacketOk(peers, h, pk)
    requires NodeOk(peers, h, pk.to, n) && pk.body.AppendEntriesResponse?
    requires o == OnAppendEntriesResponse(n, pk.body.term, pk.from, pk.body.success, pk.body.matchIndex)
    requires n.role == Leader && pk.body.term == n.term ==> pk.body.success || pk.about >= n.term
    ensures MatchOk(net', h', o.node)
  {
    RaftNodeRuns.AppendReplyClaims(n, pk.body.term, pk.from, pk.body.success, pk.body.matchIndex);
    if o.node.role == Leader {
      forall q | q in o.node.matched && o.node.matched[q] != 0 ensures Acked(net', h', q, o.node.term, o.node.matched[q]) {
        if !(q in n.matched && n.matched[q] == o.node.matched[q]) {
          assert AckBy(pk, q, n.term);
        }
        AckedKept(net, net', h, h', q, n.term, o.node.matched[q]);
      }
    }
  }

  lemma AppendReplyCommits(peers: set<PeerId>, s: State, h: History, pk: Packet, o: Outcome, h': History)
    requires CommitInv(peers, s, h) && pk in s.net && pk.to in s.nodes && Extends(h, h') && Sound(s.nodes[pk.to])
    requires NodeOk(peers, h, pk.to, s.nodes[pk.to]) && PacketOk(peers, h, pk) && pk.body.AppendEntriesResponse?
    requires o == OnAppendEntriesResponse(s.nodes[pk.to], pk.body.term, pk.from, pk.body.success, pk.body.matchIndex)
    requires s.nodes[pk.to].role == Leader && pk.body.term == s.nodes[pk.to].term ==> pk.body.success || pk.about >= s.nodes[pk.to].term
    requires NodeOk(peers, h', pk.to, o.node)
    ensures CommitInv(peers, Install(peers, s, pk.to, o, 0), h')
  {
    var p := pk.to;
    var n := s.nodes[p];
    var net' := s.net + Packets(peers, p, o.wire, 0);
    ReplyIsBacked(peers, s.net, h, n, pk, o, net', h');
    RaftNodeRuns.AppendReplyKeeps(n, pk.body.term, pk.from, pk.body.success, pk.body.matchIndex);
    RaftNodeRuns.AppendReplyClaims(n, pk.body.term, pk.from, pk.body.success, pk.body.matchIndex);
    AdvanceIsBacked(peers, s, h, p, o, net', h');
    InstallKeepsCommit(peers, s, h, p, o, 0, h');
  }

  /** A follower that commits no further than the entries it was sent commits only entries
      its leader had committed. */
  lemma FollowerIsBacked(peers: set<PeerId>, net: set<Packet>, h: History, n: Node, b: Body, n1: Node)
    requires CommitOk(peers, net, h, n) && b.AppendEntries? && OfferOk(peers, net, h, b) && b.term == n.term == n1.term
    requires n.commit <= n1.commit <= |n1.log| && n1.log[..n.commit] == n.log[..n.commit]
    requires b.prevIndex + |b.entries| <= |h.reigns[n.term].log|
    requires h.reigns[n.term].log[..b.prevIndex + |b.entries|] <= n1.log
    requires n1.commit > n.commit ==> n1.commit <= b.leaderCommit && n1.commit <= b.prevIndex + |b.entries|
    ensures CommitOk(peers, net, h, n1)
  {
    if n1.commit > n.commit {
      SharedFront(h.reigns[n.term].log, n1.log, b.prevIndex + |b.entries|, b.leaderCommit, n1.commit);
      EvidenceShorter(peers, net, h, h.reigns[n.term].log[..b.leaderCommit], n1.commit, b.term);
    }
  }

  lemma TakesInCommit(n: Node, b: Body, n1: Node)
    requires TakesIn(n, b, n1) && Sound(n)
    ensures n.commit <= n1.commit <= |n1.log| && n1.log[..n.commit] == n.log[..n.commit]
    ensures n1.commit > n.commit ==> n1.commit <= b.leaderCommit
  {
    RaftNodeRuns.AppendedKeeps(n, b.prevIndex, b.prevTerm, b.entries, b.leaderCommit);
  }

  /** An accepted append. */
  lemma AcceptedCommits(peers: set<PeerId>, net: set<Packet>, h: History, n: Node, pk: Packet, n1: Node)
    requires CommitOk(peers, net, h, n) && TakesIn(n, pk.body, n1) && Sound(n)
    requires AppendOk(h, pk) && OfferOk(peers, net, h, pk.body) && ReignOk(peers, h, n.term)
    requires NodeOk(peers, h, pk.to, n) && AckOk(net, h, pk.to, n)
    requires n1.commit <= Max(n.commit, pk.body.prevIndex + |pk.body.entries|)
    ensures CommitOk(peers, net, h, n1)
  {
    TakesInCommit(n, pk.body, n1);
    MergeEffect(peers, net, h, pk.to, n, pk, n1);
    FollowerIsBacked(peers, net, h, n, pk.body, n1);
  }

  lemma SharedFront(lead: seq<Entry>, log: seq<Entry>, e: nat, lc: nat, c: nat)
    requires e <= |lead| && lead[..e] <= log && c <= e && c <= lc <= |lead|
    ensures c <= |log| && log[..c] == lead[..lc][..c]
  {
    assert log[..c] == lead[..e][..c];
  }

  /** The state an admitted append is processed in. */
  function Admitted(n: Node, b: Body): Node
    requires b.AppendEntries?
  {
    Follow(StepDownOnNewer(n, b.term), b.leader)
  }

  /** What an append does to log, commit index and role. */
  lemma AppendCases(n: Node, pk: Packet, timedOut: bool, payloads: Option<map<BlockHash, BlockFile>>)
    requires pk.body.AppendEntries?
    ensures var o := Receive(n, pk, timedOut, payloads); var m := Admitted(n, pk.body); var b := pk.body;
      && (forall e :: e in o.wire ==> e.Send? && e.body.AppendEntriesResponse?)
      && ((o.node.log == n.log && o.node.commit == n.commit && n.term <= o.node.term && (o.node == n || o.node.role == Follower))
          || (b.term >= n.term && Accepts(m, b.prevIndex, b.prevTerm, b.entries) && o.node.role == Follower
              && o.node.term == m.term && o.node.log == Appended(m, b.prevIndex, b.prevTerm, b.entries, b.leaderCommit).log
              && o.node.commit == Appended(m, b.prevIndex, b.prevTerm, b.entries, b.leaderCommit).commit))
  {
  }

  lemma AdmittedCommits(peers: set<PeerId>, s: State, h: History, pk: Packet, n1: Node)
    requires Inv(peers, s, h) && CommitInv(peers, s, h) && pk in s.net && pk.to in s.nodes && pk.body.AppendEntries?
    requires pk.body.term >= s.nodes[pk.to].term && TakesIn(Admitted(s.nodes[pk.to], pk.body), pk.body, n1)
    requires n1.commit <= Max(s.nodes[pk.to].commit, pk.body.prevIndex + |pk.body.entries|)
    ensures CommitOk(peers, s.net, h, n1)
  {
    AdmitMove(peers, s, h, pk);
    AdmittedFacts(peers, s, h, pk);
    AcceptedCommits(peers, s.net, h, Admitted(s.nodes[pk.to], pk.body), pk, n1);
  }

  ghost predicate Idles(n: Node, n': Node) {
    n'.log == n.log && n'.commit == n.commit && n.term <= n'.term && (n' == n || n'.role == Follower)
  }

  ghost predicate TookIn(n: Node, b: Body, n1: Node, n': Node)
    requires b.AppendEntries?
  {
    && b.term >= n.term && TakesIn(Admitted(n, b), b, n1)
    && n'.log == n1.log && n'.commit == n1.commit && n'.term == n1.term && n'.role == Follower
  }

  lemma AppendSplit(n: Node, pk: Packet, timedOut: bool, payloads: Option<map<BlockHash, BlockFile>>) returns (n1: Node)
    requires pk.body.AppendEntries?
    ensures var n' := Receive(n, pk, timedOut, payloads).node; Idles(n, n') || TookIn(n, pk.body, n1, n')
  {
    AppendCases(n, pk, timedOut, payloads);
    var b := pk.body;
    var m := Admitted(n, b);
    n1 := if Accepts(m, b.prevIndex, b.prevTerm, b.entries) then Appended(m, b.prevIndex, b.prevTerm, b.entries, b.leaderCommit) else n;
  }

  lemma AppendSplitCommits(peers: set<PeerId>, s: State, h: History, pk: Packet, n1: Node, n': Node)
    requires Inv(peers, s, h) && CommitInv(peers, s, h) && pk in s.net && pk.to in s.nodes && pk.body.AppendEntries?
    requires Idles(s.nodes[pk.to], n') || TookIn(s.nodes[pk.to], pk.body, n1, n')
    requires n'.commit <= Max(s.nodes[pk.to].commit, pk.body.prevIndex + |pk.body.entries|)
    ensures CommitOk(peers, s.net, h, n') && MatchOk(s.net, h, n')
  {
    if Idles(s.nodes[pk.to], n') {
      OwnCommitLater(peers, s, h, pk.to, n');
    } else {
      AdmittedCommits(peers, s, h, pk, n1);
      CommitOkLike(peers, s.net, h, n1, n');
    }
  }

  lemma AppendCommits(peers: set<PeerId>, s: State, h: History, pk: Packet, timedOut: bool, payloads: Option<map<BlockHash, BlockFile>>)
    requires Inv(peers, s, h) && CommitInv(peers, s, h) && pk in s.net && pk.to in s.nodes && pk.body.AppendEntries?
    requires var n := s.nodes[pk.to];
      Receive(n, pk, timedOut, payloads).node.commit <= Max(n.commit, pk.body.prevIndex + |pk.body.entries|)
    ensures var o := Receive(s.nodes[pk.to], pk, timedOut, payloads);
      CommitOk(peers, s.net, h, o.node) && MatchOk(s.net, h, o.node)
  {
    var n1 := AppendSplit(s.nodes[pk.to], pk, timedOut, payloads);
    AppendSplitCommits(peers, s, h, pk, n1, Receive(s.nodes[pk.to], pk, timedOut, payloads).node);
  }

  lemma CommitOkLike(peers: set<PeerId>, net: set<Packet>, h: History, n: Node, n': Node)
    requires CommitOk(peers, net, h, n) && n'.log == n.log && n'.commit == n.commit && n'.term == n.term
    requires n'.role == Follower
    ensures CommitOk(peers, net, h, n') && MatchOk(net, h, n')
  {
  }

  lemma OwnCommit(peers: set<PeerId>, s: State, h: History, p: PeerId)
    requires CommitInv(peers, s, h) && p in s.nodes
    ensures MatchOk(s.net, h, s.nodes[p]) && CommitOk(peers, s.net, h, s.nodes[p])
  {
  }

  lemma OwnCommitLater(peers: set<PeerId>, s: State, h: History, p: PeerId, n: Node)
    requires CommitInv(peers, s, h) && p in s.nodes && n.log == s.nodes[p].log && n.commit == s.nodes[p].commit
    requires s.nodes[p].term <= n.term && (n == s.nodes[p] || n.role == Follower)
    ensures MatchOk(s.net, h, n) && CommitOk(peers, s.net, h, n)
  {
    OwnCommit(peers, s, h, p);
    ExtendsSelf(h);
    EvidenceKept(peers, s.net, h, s.net, h, n.log[..n.commit], s.nodes[p].term, n.term);
  }

  lemma AppendInstall(peers: set<PeerId>, s: State, h: History, pk: Packet, timedOut: bool, payloads: Option<map<BlockHash, BlockFile>>, h': History)
    requires CommitInv(peers, s, h) && pk.to in s.nodes && pk.body.AppendEntries? && Extends(h, h') && Sound(s.nodes[pk.to])
    requires var o := Receive(s.nodes[pk.to], pk, timedOut, payloads);
      CommitOk(peers, s.net, h, o.node) && MatchOk(s.net, h, o.node) && NodeOk(peers, h', pk.to, o.node)
    ensures CommitInv(peers, Install(peers, s, pk.to, Receive(s.nodes[pk.to], pk, timedOut, payloads), pk.body.term), h')
  {
    var n := s.nodes[pk.to];
    var b := pk.body;
    var o := Receive(n, pk, timedOut, payloads);
    var net' := s.net + Packets(peers, pk.to, o.wire, b.term);
    AppendCases(n, pk, timedOut, payloads);
    RaftNodeRuns.AppendKeeps(n, AppendRequest(b.term, b.leader, b.prevIndex, b.prevTerm, b.leaderCommit, pk.from), Check(b.entries, payloads), timedOut);
    MatchOkKept(s.net, h, net', h', o.node);
    EvidenceKept(peers, s.net, h, net', h', o.node.log[..o.node.commit], o.node.term, o.node.term);
    InstallKeepsCommit(peers, s, h, pk.to, o, b.term, h');
  }

  lemma AdmittedFacts(peers: set<PeerId>, s: State, h: History, pk: Packet)
    requires pk in s.net && pk.to in s.nodes && pk.body.AppendEntries? && pk.body.term >= s.nodes[pk.to].term
    requires Inv(peers, Put(s, pk.to, Admitted(s.nodes[pk.to], pk.body)), h) && CommitInv(peers, s, h)
    ensures var m := Admitted(s.nodes[pk.to], pk.body);
      && m.term == pk.body.term && m.role == Follower
      && NodeOk(peers, h, pk.to, m) && AckOk(s.net, h, pk.to, m) && Sound(m)
      && CommitOk(peers, s.net, h, m) && AppendOk(h, pk) && ReignOk(peers, h, m.term)
      && OfferOk(peers, s.net, h, pk.body)
  {
    var n := s.nodes[pk.to];
    var m := Admitted(n, pk.body);
    AppendFacts(peers, Put(s, pk.to, m), h, pk.to, pk);
    OwnCommit(peers, s, h, pk.to);
    ExtendsSelf(h);
    EvidenceKept(peers, s.net, h, s.net, h, n.log[..n.commit], n.term, m.term);
  }

  lemma OtherMessages(n: Node, pk: Packet, timedOut: bool, payloads: Option<map<BlockHash, BlockFile>>)
    requires Sound(n) && !pk.body.AppendEntries? && !pk.body.AppendEntriesResponse?
    ensures RaftNodeRuns.Ordinary(n, Receive(n, pk, timedOut, payloads))
  {
    match pk.body
    case RequestVote(t, c, li, lt) => RaftNodeRuns.VoteRequestOrdinary(n, t, c, li, lt, pk.from);
    case RequestVoteResponse(t, granted) => RaftNodeRuns.VoteReplyOrdinary(n, t, pk.from, granted);
    case _ => RaftNodeRuns.IdleOrdinary(n);
  }

  lemma DeliverAppendCommits(peers: set<PeerId>, s: State, h: History, pk: Packet, timedOut: bool, payloads: Option<map<BlockHash, BlockFile>>, h': History)
    requires Inv(peers, s, h) && CommitInv(peers, s, h) && pk in s.net && pk.to in s.nodes && Extends(h, h')
    requires NodeOk(peers, h', pk.to, Receive(s.nodes[pk.to], pk, timedOut, payloads).node)
    requires pk.body.AppendEntries?
    requires Receive(s.nodes[pk.to], pk, timedOut, payloads).node.commit <= Max(s.nodes[pk.to].commit, pk.body.prevIndex + |pk.body.entries|)
    ensures CommitInv(peers, Next(peers, s, Deliver(pk, timedOut, payloads)), h')
  {
    ActorFacts(peers, s, h, pk.to);
    AppendCommits(peers, s, h, pk, timedOut, payloads);
    AppendInstall(peers, s, h, pk, timedOut, payloads, h');
  }

  lemma PrudentReply(peers: set<PeerId>, s: State, pk: Packet, timedOut: bool, payloads: Option<map<BlockHash, BlockFile>>)
    requires pk in s.net && pk.to in s.nodes && pk.body.AppendEntriesResponse?
    requires Prudent(s, Deliver(pk, timedOut, payloads))
    ensures s.nodes[pk.to].role == Leader && pk.body.term == s.nodes[pk.to].term ==> pk.body.success || pk.about >= s.nodes[pk.to].term
  {
  }

  lemma ReplyInstall(peers: set<PeerId>, s: State, h: History, pk: Packet, timedOut: bool, payloads: Option<map<BlockHash, BlockFile>>, h': History)
    requires CommitInv(peers, s, h) && pk in s.net && pk.to in s.nodes && Extends(h, h') && Sound(s.nodes[pk.to])
    requires NodeOk(peers, h, pk.to, s.nodes[pk.to]) && PacketOk(peers, h, pk) && pk.body.AppendEntriesResponse?
    requires s.nodes[pk.to].role == Leader && pk.body.term == s.nodes[pk.to].term ==> pk.body.success || pk.about >= s.nodes[pk.to].term
    requires NodeOk(peers, h', pk.to, Receive(s.nodes[pk.to], pk, timedOut, payloads).node)
    ensures CommitInv(peers, Next(peers, s, Deliver(pk, timedOut, payloads)), h')
  {
    AppendReplyCommits(peers, s, h, pk, Receive(s.nodes[pk.to], pk, timedOut, payloads), h');
  }

  lemma DeliverReplyCommits(peers: set<PeerId>, s: State, h: History, pk: Packet, timedOut: bool, payloads: Option<map<BlockHash, BlockFile>>, h': History)
    requires Inv(peers, s, h) && CommitInv(peers, s, h) && pk in s.net && pk.to in s.nodes && Extends(h, h')
    requires Prudent(s, Deliver(pk, timedOut, payloads))
    requires NodeOk(peers, h', pk.to, Receive(s.nodes[pk.to], pk, timedOut, payloads).node)
    requires pk.body.AppendEntriesResponse?
    ensures CommitInv(peers, Next(peers, s, Deliver(pk, timedOut, payloads)), h')
  {
    ActorFacts(peers, s, h, pk.to);
    PacketFacts(peers, s, h, pk);
    PrudentReply(peers, s, pk, timedOut, payloads);
    ReplyInstall(peers, s, h, pk, timedOut, payloads, h');
  }

  lemma DeliverCommits(peers: set<PeerId>, s: State, h: History, pk: Packet, timedOut: bool, payloads: Option<map<BlockHash, BlockFile>>, h': History)
    requires Inv(peers, s, h) && CommitInv(peers, s, h) && pk in s.net && pk.to in s.nodes && Extends(h, h')
    requires Prudent(s, Deliver(pk, timedOut, payloads))
    requires NodeOk(peers, h', pk.to, Receive(s.nodes[pk.to], pk, timedOut, payloads).node)
    ensures CommitInv(peers, Next(peers, s, Deliver(pk, timedOut, payloads)), h')
  {
    if pk.body.AppendEntries? {
      ActorFacts(peers, s, h, pk.to);
      PrudentDelivery(s, pk, timedOut, payloads);
      DeliverAppendCommits(peers, s, h, pk, timedOut, payloads, h');
    } else if pk.body.AppendEntriesResponse? {
      DeliverReplyCommits(peers, s, h, pk, timedOut, payloads, h');
    } else {
      ActorFacts(peers, s, h, pk.to);
      OtherMessages(s.nodes[pk.to], pk, timedOut, payloads);
      OrdinaryStep(peers, s, h, pk.to, Receive(s.nodes[pk.to], pk, timedOut, payloads), 0, h');
    }
  }

  lemma NextKeepsCommit(peers: set<PeerId>, s: State, h: History, a: Action, h': History)
    requires Inv(peers, s, h) && CommitInv(peers, s, h) && Enabled(s, a) && Prudent(s, a)
    requires Extends(h, h') && Inv(peers, Next(peers, s, a), h')
    ensures CommitInv(peers, Next(peers, s, a), h')
  {
    match a
    case Tick(p, electionDue, heartbeatDue) =>
      ActorFacts(peers, s, h, p);
      ActorFacts(peers, Next(peers, s, a), h', p);
      RaftNodeRuns.TickOrdinary(s.nodes[p], peers - {p}, electionDue, heartbeatDue);
      OrdinaryStep(peers, s, h, p, OnTick(s.nodes[p], peers - {p}, electionDue, heartbeatDue), 0, h');
    case CreateBlock(p, hash) =>
      ActorFacts(peers, s, h, p);
      ActorFacts(peers, Next(peers, s, a), h', p);
      BlockCommits(peers, s, h, p, hash, h');
    case Deliver(pk, timedOut, payloads) =>
      ActorFacts(peers, Next(peers, s, a), h', pk.to);
      DeliverCommits(peers, s, h, pk, timedOut, payloads, h');
  }

  lemma BlockCommits(peers: set<PeerId>, s: State, h: History, p: PeerId, hash: BlockHash, h': History)
    requires CommitInv(peers, s, h) && p in s.nodes && Extends(h, h') && Sound(s.nodes[p])
    requires NodeOk(peers, h', p, Next(peers, s, CreateBlock(p, hash)).nodes[p])
    ensures CommitInv(peers, Next(peers, s, CreateBlock(p, hash)), h')
  {
    var n := s.nodes[p];
    RaftNodeRuns.BlockCreatedOrdinary(n, hash);
    var o := RaftNodeRuns.React(n, RaftNodeRuns.BlockCreated(hash));
    OrdinaryStep(peers, s, h, p, o, 0, h');
    if OnBlockCreated(n, hash).None? {
      InstallSame(peers, s, p, o, 0);
      assert Install(peers, s, p, o, 0) == s;
    }
  }

  lemma InitCommit(peers: set<PeerId>, h: History)
    ensures CommitInv(peers, Init(peers), h)
  {
  }

  // ----------------------------------------------------------------- whole runs

  lemma {:induction false} PrudentHistories(peers: set<PeerId>, run: seq<State>, actions: seq<Action>, hs: seq<History>, i: nat)
    requires IsRun(peers, run, actions) && PrudentRun(peers, run, actions) && Accompany(peers, run, hs) && i < |run|
    ensures CommitInv(peers, run[i], hs[i])
  {
    if i == 0 {
      StartCommits(peers, run, actions, hs[0]);
    } else {
      PrudentHistories(peers, run, actions, hs, i - 1);
      StepCommits(peers, run, actions, hs, i);
    }
  }

  lemma StepCommits(peers: set<PeerId>, run: seq<State>, actions: seq<Action>, hs: seq<History>, k: nat)
    requires IsRun(peers, run, actions) && PrudentRun(peers, run, actions) && Accompany(peers, run, hs) && 1 <= k < |run|
    requires CommitInv(peers, run[k - 1], hs[k - 1])
    ensures CommitInv(peers, run[k], hs[k])
  {
    assert PrudentAt(peers, run, actions, k - 1);
    assert Inv(peers, run[k - 1], hs[k - 1]) && Inv(peers, run[k], hs[k]) && Extends(hs[k - 1], hs[k]);
    NextKeepsCommit(peers, run[k - 1], hs[k - 1], actions[k - 1], hs[k]);
  }

  lemma StartCommits(peers: set<PeerId>, run: seq<State>, actions: seq<Action>, h: History)
    requires IsRun(peers, run, actions)
    ensures CommitInv(peers, run[0], h)
  {
    InitCommit(peers, h);
  }

  /** Evidence for what node a had committed at instant i, read at a later instant k. */
  lemma EvidenceAt(peers: set<PeerId>, run: seq<State>, actions: seq<Action>, hs: seq<History>, i: nat, a: PeerId, k: nat)
    requires IsRun(peers, run, actions) && PrudentRun(peers, run, actions) && Accompany(peers, run, hs)
    requires i <= k < |run| && a in run[i].nodes
    ensures run[i].nodes[a].commit <= |run[i].nodes[a].log|
    ensures Evidence(peers, run[k].net, hs[k], run[i].nodes[a].log[..run[i].nodes[a].commit], run[i].nodes[a].term)
  {
    PrudentHistories(peers, run, actions, hs, i);
    OwnCommit(peers, run[i], hs[i], a);
    NetGrows(peers, run, actions, i, k);
    EvidenceKept(peers, run[i].net, hs[i], run[k].net, hs[k], run[i].nodes[a].log[..run[i].nodes[a].commit], run[i].nodes[a].term, run[i].nodes[a].term);
  }

  lemma {:induction false} NetGrows(peers: set<PeerId>, run: seq<State>, actions: seq<Action>, i: nat, k: nat)
    requires IsRun(peers, run, actions) && i <= k < |run|
    ensures run[i].net <= run[k].net
    decreases k - i
  {
    if i < k {
      NetGrows(peers, run, actions, i, k - 1);
      assert Linked(peers, run, actions, k - 1);
      assert run[k] == Next(peers, run[k - 1], actions[k - 1]);
    }
  }

  /** State machine safety: whatever two nodes have committed, at any two instants of the run,
      one committed prefix extends the other. */
  lemma StateMachineSafety(peers: set<PeerId>, run: seq<State>, actions: seq<Action>, i: nat, a: PeerId, j: nat, b: PeerId)
    requires IsRun(peers, run, actions) && PrudentRun(peers, run, actions)
    requires i < |run| && j < |run| && a in run[i].nodes && b in run[j].nodes
    ensures var m := run[i].nodes[a]; var n := run[j].nodes[b];
      && m.commit <= |m.log| && n.commit <= |n.log|
      && forall k :: 0 <= k < m.commit && k < n.commit ==> m.log[k] == n.log[k]
  {
    var hs := RunHistories(peers, run, actions);
    CommitsComparable(peers, run, actions, hs, i, a, j, b);
    FrontsAgree(run[i].nodes[a].log, run[i].nodes[a].commit, run[j].nodes[b].log, run[j].nodes[b].commit);
  }

  lemma CommitsComparable(peers: set<PeerId>, run: seq<State>, actions: seq<Action>, hs: seq<History>, i: nat, a: PeerId, j: nat, b: PeerId)
    requires IsRun(peers, run, actions) && PrudentRun(peers, run, actions) && Accompany(peers, run, hs)
    requires i < |run| && j < |run| && a in run[i].nodes && b in run[j].nodes
    ensures var m := run[i].nodes[a]; var n := run[j].nodes[b];
      && m.commit <= |m.log| && n.commit <= |n.log|
      && (m.log[..m.commit] <= n.log[..n.commit] || n.log[..n.commit] <= m.log[..m.commit])
  {
    var k := if i <= j then j else i;
    EvidenceAt(peers, run, actions, hs, i, a, k);
    EvidenceAt(peers, run, actions, hs, j, b, k);
    var m, n := run[i].nodes[a], run[j].nodes[b];
    EvidenceComparable(peers, run[k], hs[k], m.log[..m.commit], m.term, n.log[..n.commit], n.term);
  }

  lemma EvidenceComparable(peers: set<PeerId>, s: State, h: History, a: seq<Entry>, v: nat, b: seq<Entry>, w: nat)
    requires Inv(peers, s, h) && Evidence(peers, s.net, h, a, v) && Evidence(peers, s.net, h, b, w)
    ensures a <= b || b <= a
  {
    if |a| <= |b| {
      EvidenceAgrees(peers, s.net, h, a, v, b, w);
    } else {
      EvidenceAgrees(peers, s.net, h, b, w, a, v);
    }
  }

  lemma FrontsAgree(a: seq<Entry>, c: nat, b: seq<Entry>, d: nat)
    requires c <= |a| && d <= |b| && (a[..c] <= b[..d] || b[..d] <= a[..c])
    ensures forall k :: 0 <= k < c && k < d ==> a[k] == b[k]
  {
    forall k | 0 <= k < c && k < d ensures a[k] == b[k] {
      assert a[..c][k] == b[..d][k];
    }
  }

  /** Leader completeness: whatever a node has committed is in the log of every leader of a
      later term, at every instant of that leader's reign, past or future; and in the log of
      the leader of the same term from that instant on. */
  lemma LeaderCompleteness(peers: set<PeerId>, run: seq<State>, actions: seq<Action>, i: nat, a: PeerId, j: nat, l: PeerId)
    requires IsRun(peers, run, actions) && PrudentRun(peers, run, actions)
    requires i < |run| && j < |run| && a in run[i].nodes && l in run[j].nodes && run[j].nodes[l].role == Leader
    requires run[j].nodes[l].term > run[i].nodes[a].term || (i <= j && run[j].nodes[l].term == run[i].nodes[a].term)
    ensures var m := run[i].nodes[a];
      m.commit <= |m.log| && m.log[..m.commit] <= run[j].nodes[l].log
  {
    var hs := RunHistories(peers, run, actions);
    var k := if i <= j then j else i;
    var m, n := run[i].nodes[a], run[j].nodes[l];
    EvidenceAt(peers, run, actions, hs, i, a, k);
    NodeFacts(peers, run[j], hs[j], l);
    ReignFacts(peers, run[j], hs[j], hs[k], n.term);
    EvidenceInLater(peers, run[k].net, hs[k], m.log[..m.commit], m.term, n.term);
    if j < k {
      BaseInLog(peers, run[j], hs[j], n.term);
    }
  }

  lemma BaseInLog(peers: set<PeerId>, s: State, h: History, t: nat)
    requires Inv(peers, s, h) && t in h.reigns
    ensures h.reigns[t].base <= h.reigns[t].log
  {
    assert ReignOk(peers, h, t);
  }
}
