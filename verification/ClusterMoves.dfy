/** The elementary moves every handler is made of, each shown to keep the invariant. */
module ClusterMoves {
  import opened Types
  import opened RaftLog
  import opened RaftNode
  import opened Cluster
  import opened ClusterInvariant

  function Put(s: State, p: PeerId, n: Node): State {
    s.(nodes := s.nodes[p := n])
  }

  // ------------------------------------------------------------ common parts

  lemma MoveKeeps(peers: set<PeerId>, s: State, h: History, p: PeerId, n: Node, h': History)
    requires Inv(peers, s, h) && p in s.nodes
    requires ExtendsBy(h, h', p) && HistoryOk(peers, h')
    requires NodeOk(peers, h', p, n) && AckOk(s.net, h', p, n) && VotesSafe(s.net, h')
    ensures Inv(peers, Put(s, p, n), h')
  {
    var s' := Put(s, p, n);
    ExtendsByExtends(h, h', p);
    NetOkKept(peers, h, h', s.net);
    forall q | q in s'.nodes ensures NodeOk(peers, h', q, s'.nodes[q]) && AckOk(s.net, h', q, s'.nodes[q]) {
      if q != p {
        NodeOkKept(peers, h, h', p, q, s.nodes[q]);
        AckOkKept(peers, s.net, h, h', p, q, s.nodes[q]);
      }
    }
  }

  lemma ReignOkKept(peers: set<PeerId>, h: History, h': History, t: nat)
    requires Extends(h, h') && t in h.reigns && ReignOk(peers, h, t) && h'.reigns[t] == h.reigns[t]
    ensures ReignOk(peers, h', t)
  {
    LogOkKept(h, h', h.reigns[t].log);
  }

  lemma VoteOkKept(peers: set<PeerId>, h: History, h': History, p: PeerId, u: nat)
    requires Extends(h, h') && (p, u) in h.votes && VoteOk(peers, h, p, u)
    ensures VoteOk(peers, h', p, u)
  {
    LogOkKept(h, h', h.votes[(p, u)].log);
  }

  lemma BidOkKept(h: History, h': History, p: PeerId, u: nat)
    requires Extends(h, h') && (p, u) in h.bids && BidOk(h, p, u)
    ensures BidOk(h', p, u)
  {
    LogOkKept(h, h', h.bids[(p, u)]);
  }

  /** Votes already recorded stay safe when p's history grows only at its current term. */
  lemma VoteSafeKept(peers: set<PeerId>, net: set<Packet>, h: History, h': History, p: PeerId, now: nat, q: PeerId, u: nat)
    requires ExtendsBy(h, h', p) && NetOk(peers, net, h)
    requires forall t :: t in h'.reigns && (t !in h.reigns || h'.reigns[t] != h.reigns[t]) ==> t == now
    requires q == p ==> u <= now
    requires (q, u) in h.votes && VoteSafe(net, h, q, u)
    ensures VoteSafe(net, h', q, u)
  {
    ExtendsByExtends(h, h', p);
    forall t: nat, i: nat | t < u && Acked(net, h', q, t, i) ensures Safe(h', t, i, h'.votes[(q, u)].log, u - 1) {
      if q != p {
        AckedBefore(peers, net, h, h', p, q, t, i);
      } else {
        AckedByPacketBefore(peers, net, h, h', p, t, i);
        assert t in h.reigns && h'.reigns[t] == h.reigns[t];
      }
      assert Acked(net, h, q, t, i);
      assert Safe(h, t, i, h.votes[(q, u)].log, u - 1);
      SafeKept(h, h', t, i, h.votes[(q, u)].log, u - 1, u - 1);
    }
  }

  lemma VotesSafeKept(peers: set<PeerId>, net: set<Packet>, h: History, h': History, p: PeerId, now: nat)
    requires ExtendsBy(h, h', p) && NetOk(peers, net, h) && VotesSafe(net, h)
    requires forall t :: t in h'.reigns && (t !in h.reigns || h'.reigns[t] != h.reigns[t]) ==> t == now
    requires forall u :: (p, u) in h.votes ==> u <= now
    requires forall q, u :: (q, u) in h'.votes && (q, u) !in h.votes && Counted(h', q, u) ==> VoteSafe(net, h', q, u)
    ensures VotesSafe(net, h')
  {
    forall q, u | (q, u) in h'.votes && Counted(h', q, u) ensures VoteSafe(net, h', q, u) {
      if (q, u) in h.votes {
        if u in h.reigns {
          assert Grown(h.reigns[u], h'.reigns[u], p);
        }
        VoteSafeKept(peers, net, h, h', p, now, q, u);
      }
    }
  }

  /** What the invariant says about one node. */
  lemma NodeFacts(peers: set<PeerId>, s: State, h: History, p: PeerId)
    requires Inv(peers, s, h) && p in s.nodes
    ensures NodeOk(peers, h, p, s.nodes[p]) && AckOk(s.net, h, p, s.nodes[p])
  {
  }

  lemma PacketFacts(peers: set<PeerId>, s: State, h: History, pk: Packet)
    requires Inv(peers, s, h) && pk in s.net
    ensures PacketOk(peers, h, pk)
  {
  }

  /** A move that changes only p's log and leaves the history alone. */
  lemma LogMove(peers: set<PeerId>, s: State, h: History, p: PeerId, n: Node)
    requires Inv(peers, s, h) && p in s.nodes && NodeOk(peers, h, p, n) && AckOk(s.net, h, p, n)
    ensures Inv(peers, Put(s, p, n), h)
  {
    assert forall t :: t in h.reigns ==> Grown(h.reigns[t], h.reigns[t], p);
    MoveKeeps(peers, s, h, p, n, h);
  }

  // ------------------------------------------------------------------- quiet

  /** A move that leaves the log alone keeps p's acknowledgements safe. */
  lemma AckAfterQuiet(net: set<Packet>, h: History, p: PeerId, m: Node, n: Node, h': History)
    requires AckOk(net, h, p, m) && n.log == m.log && n.term >= m.term && h'.reigns == h.reigns
    ensures AckOk(net, h', p, n)
  {
    forall t: nat, i: nat | Acked(net, h', p, t, i) ensures t <= n.term && Safe(h', t, i, n.log, n.term) {
      assert Acked(net, h, p, t, i);
      assert Safe(h, t, i, m.log, m.term);
      if Blocked(h, t, i, m.term) {
        var v :| v in h.reigns && t < v <= m.term && !(h.reigns[t].log[..i] <= h.reigns[v].base);
        assert v in h'.reigns && t < v <= n.term;
      }
    }
  }

  /** A move that touches neither log nor history, and never lowers the term. */
  lemma QuietMove(peers: set<PeerId>, s: State, h: History, p: PeerId, n: Node)
    requires Inv(peers, s, h) && p in s.nodes
    requires n.log == s.nodes[p].log && n.term >= s.nodes[p].term && NodeOk(peers, h, p, n)
    ensures Inv(peers, Put(s, p, n), h)
  {
    NodeFacts(peers, s, h, p);
    AckAfterQuiet(s.net, h, p, s.nodes[p], n, h);
    LogMove(peers, s, h, p, n);
  }

  lemma StepDownNode(peers: set<PeerId>, h: History, p: PeerId, n: Node, term: nat)
    requires NodeOk(peers, h, p, n)
    ensures NodeOk(peers, h, p, StepDownOnNewer(n, term))
  {
    assert term > n.term ==> (p, term) !in h.votes;
  }

  lemma StepDownMove(peers: set<PeerId>, s: State, h: History, p: PeerId, term: nat)
    requires Inv(peers, s, h) && p in s.nodes
    ensures Inv(peers, Put(s, p, StepDownOnNewer(s.nodes[p], term)), h)
  {
    NodeFacts(peers, s, h, p);
    StepDownNode(peers, h, p, s.nodes[p], term);
    QuietMove(peers, s, h, p, StepDownOnNewer(s.nodes[p], term));
  }

  lemma ParticipantsNode(peers: set<PeerId>, h: History, p: PeerId, n: Node)
    requires NodeOk(peers, h, p, n)
    ensures NodeOk(peers, h, p, UpdateParticipants(n, peers - {p}))
    ensures UpdateParticipants(n, peers - {p}).participants == peers
  {
    var n' := UpdateParticipants(n, peers - {p});
    assert n'.participants == peers && n'.votes == n.votes;
  }

  lemma ParticipantsMove(peers: set<PeerId>, s: State, h: History, p: PeerId)
    requires Inv(peers, s, h) && p in s.nodes
    ensures Inv(peers, Put(s, p, UpdateParticipants(s.nodes[p], peers - {p})), h)
  {
    NodeFacts(peers, s, h, p);
    ParticipantsNode(peers, h, p, s.nodes[p]);
    QuietMove(peers, s, h, p, UpdateParticipants(s.nodes[p], peers - {p}));
  }

  lemma FollowNode(peers: set<PeerId>, h: History, p: PeerId, n: Node, leader: PeerId)
    requires NodeOk(peers, h, p, n) && leader != p && n.term in h.reigns && h.reigns[n.term].leader == leader
    ensures NodeOk(peers, h, p, Follow(n, leader))
  {
  }

  /** Following the leader of the current term, which is someone else. */
  lemma FollowMove(peers: set<PeerId>, s: State, h: History, p: PeerId, leader: PeerId)
    requires Inv(peers, s, h) && p in s.nodes && leader != p
    requires s.nodes[p].term in h.reigns && h.reigns[s.nodes[p].term].leader == leader
    ensures Inv(peers, Put(s, p, Follow(s.nodes[p], leader)), h)
  {
    NodeFacts(peers, s, h, p);
    FollowNode(peers, h, p, s.nodes[p], leader);
    QuietMove(peers, s, h, p, Follow(s.nodes[p], leader));
  }

  function WithVote(n: Node, voter: PeerId): Node {
    n.(votes := n.votes + {voter})
  }

  lemma CountVoteNode(peers: set<PeerId>, h: History, p: PeerId, n: Node, voter: PeerId)
    requires NodeOk(peers, h, p, n) && n.role == Candidate && voter in peers
    requires (voter, n.term) in h.votes && h.votes[(voter, n.term)].candidate == p
    ensures NodeOk(peers, h, p, WithVote(n, voter))
  {
  }

  lemma CountVoteMove(peers: set<PeerId>, s: State, h: History, p: PeerId, voter: PeerId)
    requires Inv(peers, s, h) && p in s.nodes && s.nodes[p].role == Candidate && voter in peers
    requires (voter, s.nodes[p].term) in h.votes && h.votes[(voter, s.nodes[p].term)].candidate == p
    ensures Inv(peers, Put(s, p, WithVote(s.nodes[p], voter)), h)
  {
    NodeFacts(peers, s, h, p);
    CountVoteNode(peers, h, p, s.nodes[p], voter);
    QuietMove(peers, s, h, p, WithVote(s.nodes[p], voter));
  }

  /** Only match indexes, commit index, pending blocks and the store differ. */
  predicate SameBut(n: Node, n': Node) {
    n' == n.(commit := n'.commit, matched := n'.matched, pending := n'.pending, store := n'.store)
  }

  lemma BookkeepingNode(peers: set<PeerId>, h: History, p: PeerId, n: Node, n': Node)
    requires NodeOk(peers, h, p, n) && SameBut(n, n') && n'.commit <= |n'.log|
    ensures NodeOk(peers, h, p, n')
  {
  }

  lemma BookkeepingMove(peers: set<PeerId>, s: State, h: History, p: PeerId, n: Node)
    requires Inv(peers, s, h) && p in s.nodes && SameBut(s.nodes[p], n) && n.commit <= |n.log|
    ensures Inv(peers, Put(s, p, n), h)
  {
    NodeFacts(peers, s, h, p);
    BookkeepingNode(peers, h, p, s.nodes[p], n);
    QuietMove(peers, s, h, p, n);
  }

  // ------------------------------------------------------------------ voting

  lemma CandidacyMove(peers: set<PeerId>, s: State, h: History, p: PeerId) returns (h': History)
    requires Inv(peers, s, h) && p in s.nodes && s.nodes[p].role != Leader && s.nodes[p].participants == peers
    ensures Extends(h, h') && Inv(peers, Put(s, p, Candidacy(s.nodes[p])), h')
  {
    var n := s.nodes[p];
    var u := n.term + 1;
    h' := h.(votes := h.votes[(p, u) := Vote(p, n.log)], bids := h.bids[(p, u) := n.log]);
    NodeFacts(peers, s, h, p);
    CandidacyHistory(peers, s.net, h, p, n, h');
    AckAfterQuiet(s.net, h, p, n, Candidacy(n), h');
    CandidacyNode(peers, h, p, n, h');
    MoveKeeps(peers, s, h, p, Candidacy(n), h');
  }

  lemma CandidacyNode(peers: set<PeerId>, h: History, p: PeerId, n: Node, h': History)
    requires NodeOk(peers, h, p, n) && n.role != Leader && n.participants == peers
    requires var u := n.term + 1;
      h' == h.(votes := h.votes[(p, u) := Vote(p, n.log)], bids := h.bids[(p, u) := n.log])
    ensures NodeOk(peers, h', p, Candidacy(n))
  {
    LogOkSame(h, h', n.log);
  }

  lemma LogOkSame(h: History, h': History, log: seq<Entry>)
    requires LogOk(h, log) && h'.reigns == h.reigns
    ensures LogOk(h', log)
  {
    forall k | 0 <= k < |log| ensures EntryOk(h', log, k) {
      assert EntryOk(h, log, k);
    }
  }

  /** New votes and candidacies join the history. */
  lemma HistoryGrown(peers: set<PeerId>, h: History, h': History)
    requires HistoryOk(peers, h) && Extends(h, h') && h'.reigns == h.reigns
    requires forall q, w :: (q, w) in h'.votes && (q, w) !in h.votes ==> VoteOk(peers, h', q, w)
    requires forall q, w :: (q, w) in h'.bids && (q, w) !in h.bids ==> BidOk(h', q, w)
    ensures HistoryOk(peers, h')
  {
    forall q, w | (q, w) in h'.votes ensures VoteOk(peers, h', q, w) {
      if (q, w) in h.votes {
        VoteOkKept(peers, h, h', q, w);
      }
    }
    forall q, w | (q, w) in h'.bids ensures BidOk(h', q, w) {
      if (q, w) in h.bids {
        BidOkKept(h, h', q, w);
      }
    }
    forall t | t in h'.reigns ensures ReignOk(peers, h', t) {
      ReignOkKept(peers, h, h', t);
    }
  }

  lemma CandidacyHistory(peers: set<PeerId>, net: set<Packet>, h: History, p: PeerId, n: Node, h': History)
    requires HistoryOk(peers, h) && NetOk(peers, net, h) && VotesSafe(net, h)
    requires NodeOk(peers, h, p, n) && AckOk(net, h, p, n)
    requires var u := n.term + 1;
      h' == h.(votes := h.votes[(p, u) := Vote(p, n.log)], bids := h.bids[(p, u) := n.log])
    ensures ExtendsBy(h, h', p) && Extends(h, h') && HistoryOk(peers, h') && VotesSafe(net, h')
  {
    OneMoreBid(peers, h, p, n.term + 1, n.log, h');
    NewVoteHistory(peers, net, h, p, n, n.term + 1, h');
  }

  lemma OneMoreBid(peers: set<PeerId>, h: History, p: PeerId, u: nat, log: seq<Entry>, h': History)
    requires HistoryOk(peers, h) && p in peers && (p, u) !in h.votes && (p, u) !in h.bids
    requires u >= 1 && LogOk(h, log) && TermsUpTo(log, u - 1)
    requires h' == h.(votes := h.votes[(p, u) := Vote(p, log)], bids := h.bids[(p, u) := log])
    ensures ExtendsBy(h, h', p) && Extends(h, h') && HistoryOk(peers, h')
  {
    assert forall t :: t in h.reigns ==> Grown(h.reigns[t], h'.reigns[t], p);
    ExtendsByExtends(h, h', p);
    LogOkSame(h, h', log);
    assert VoteOk(peers, h', p, u) && BidOk(h', p, u);
    HistoryGrown(peers, h, h');
  }

  /** A vote that can still count is cast with a log that holds all the voter vouched for,
      unless an earlier leader already lacked it. */
  lemma NewVoteSafe(peers: set<PeerId>, net: set<Packet>, h: History, p: PeerId, n: Node, u: nat, h': History)
    requires HistoryOk(peers, h) && AckOk(net, h, p, n)
    requires (p, u) !in h.votes && n.term <= u
    requires h'.reigns == h.reigns && (p, u) in h'.votes && h'.votes[(p, u)].log == n.log
    requires Counted(h', p, u)
    ensures VoteSafe(net, h', p, u)
  {
    assert u in h.reigns ==> ReignOk(peers, h, u);
    VoteLogSafe(net, h, p, n, u, h');
  }

  lemma NewVoteHistory(peers: set<PeerId>, net: set<Packet>, h: History, p: PeerId, n: Node, u: nat, h': History)
    requires HistoryOk(peers, h) && NetOk(peers, net, h) && VotesSafe(net, h) && AckOk(net, h, p, n)
    requires ExtendsBy(h, h', p) && h'.reigns == h.reigns && n.term <= u
    requires (p, u) !in h.votes && (p, u) in h'.votes && h'.votes == h.votes[(p, u) := h'.votes[(p, u)]] && h'.votes[(p, u)].log == n.log
    requires forall w :: (p, w) in h.votes ==> w <= u
    ensures VotesSafe(net, h')
  {
    if Counted(h', p, u) {
      NewVoteSafe(peers, net, h, p, n, u, h');
    }
    VotesSafeKept(peers, net, h, h', p, u);
  }

  lemma VoteLogSafe(net: set<Packet>, h: History, p: PeerId, n: Node, u: nat, h': History)
    requires AckOk(net, h, p, n) && u !in h.reigns && n.term <= u
    requires h'.reigns == h.reigns && (p, u) in h'.votes && h'.votes[(p, u)].log == n.log
    ensures VoteSafe(net, h', p, u)
  {
    forall t: nat, i: nat | t < u && Acked(net, h', p, t, i) ensures Safe(h', t, i, n.log, u - 1) {
      assert Acked(net, h, p, t, i);
      assert Safe(h, t, i, n.log, n.term);
      if Blocked(h, t, i, n.term) {
        var v :| v in h.reigns && t < v <= n.term && !(h.reigns[t].log[..i] <= h.reigns[v].base);
        assert v in h'.reigns && t < v <= u - 1;
      }
    }
  }

  lemma GrantMove(peers: set<PeerId>, s: State, h: History, p: PeerId, candidate: PeerId) returns (h': History)
    requires Inv(peers, s, h) && p in s.nodes
    requires s.nodes[p].votedFor == None || s.nodes[p].votedFor == Some(candidate)
    requires (candidate, s.nodes[p].term) in h.bids
    requires var bid := h.bids[(candidate, s.nodes[p].term)]; UpToDate(|bid|, LastTerm(bid), s.nodes[p].log)
    ensures Extends(h, h') && Inv(peers, Put(s, p, s.nodes[p].(votedFor := Some(candidate))), h')
    ensures (p, s.nodes[p].term) in h'.votes && h'.votes[(p, s.nodes[p].term)].candidate == candidate
  {
    var n := s.nodes[p];
    var n' := n.(votedFor := Some(candidate));
    NodeFacts(peers, s, h, p);
    if n.votedFor == Some(candidate) {
      h' := h;
      ExtendsSelf(h);
      QuietMove(peers, s, h, p, n');
    } else {
      h' := h.(votes := h.votes[(p, n.term) := Vote(candidate, n.log)]);
      GrantHistory(peers, s.net, h, p, n, candidate, h');
      AckAfterQuiet(s.net, h, p, n, n', h');
      GrantNode(peers, h, p, n, candidate, h');
      MoveKeeps(peers, s, h, p, n', h');
    }
  }

  lemma ExtendsSelf(h: History)
    ensures Extends(h, h)
  {
  }

  lemma GrantNode(peers: set<PeerId>, h: History, p: PeerId, n: Node, candidate: PeerId, h': History)
    requires NodeOk(peers, h, p, n) && n.votedFor == None
    requires h' == h.(votes := h.votes[(p, n.term) := Vote(candidate, n.log)])
    ensures NodeOk(peers, h', p, n.(votedFor := Some(candidate)))
  {
    LogOkSame(h, h', n.log);
  }

  lemma GrantHistory(peers: set<PeerId>, net: set<Packet>, h: History, p: PeerId, n: Node, candidate: PeerId, h': History)
    requires HistoryOk(peers, h) && NetOk(peers, net, h) && VotesSafe(net, h)
    requires NodeOk(peers, h, p, n) && AckOk(net, h, p, n)
    requires n.votedFor == None && (candidate, n.term) in h.bids
    requires var bid := h.bids[(candidate, n.term)]; UpToDate(|bid|, LastTerm(bid), n.log)
    requires h' == h.(votes := h.votes[(p, n.term) := Vote(candidate, n.log)])
    ensures ExtendsBy(h, h', p) && Extends(h, h') && HistoryOk(peers, h') && VotesSafe(net, h')
  {
    OneMoreVote(peers, h, p, n.term, Vote(candidate, n.log), h');
    NewVoteHistory(peers, net, h, p, n, n.term, h');
  }

  lemma OneMoreVote(peers: set<PeerId>, h: History, p: PeerId, u: nat, v: Vote, h': History)
    requires HistoryOk(peers, h) && p in peers && (p, u) !in h.votes && LogOk(h, v.log)
    requires (v.candidate, u) in h.bids
    requires var bid := h.bids[(v.candidate, u)]; UpToDate(|bid|, LastTerm(bid), v.log)
    requires h' == h.(votes := h.votes[(p, u) := v])
    ensures ExtendsBy(h, h', p) && Extends(h, h') && HistoryOk(peers, h')
  {
    assert forall t :: t in h.reigns ==> Grown(h.reigns[t], h'.reigns[t], p);
    ExtendsByExtends(h, h', p);
    LogOkSame(h, h', v.log);
    assert VoteOk(peers, h', p, u);
    HistoryGrown(peers, h, h');
  }
}
