/** The inductive invariant of the cluster.  A history of votes, candidacies and reigns is
    carried alongside a run by the proofs; nothing in the cluster itself depends on it. */
module ClusterInvariant {
  import opened Types
  import opened RaftLog
  import opened RaftNode
  import opened Cluster

  /** A vote, with the voter's log when it was cast. */
  datatype Vote = Vote(candidate: PeerId, log: seq<Entry>)

  /** A leader's term: the log it was elected with, the log it has built, who elected it. */
  datatype Reign = Reign(leader: PeerId, base: seq<Entry>, log: seq<Entry>, voters: set<PeerId>)

  datatype History = History(
    votes: map<(PeerId, nat), Vote>,
    bids: map<(PeerId, nat), seq<Entry>>,
    reigns: map<nat, Reign>)

  predicate Quorum(peers: set<PeerId>, q: set<PeerId>) {
    q <= peers && |q| >= |peers| / 2 + 1
  }

  // ------------------------------------------------------------ history only

  /** Every entry was written by the leader of its term, on top of that leader's own log. */
  ghost predicate LogOk(h: History, log: seq<Entry>) {
    WellFormed(log) && forall k :: 0 <= k < |log| ==> EntryOk(h, log, k)
  }

  ghost predicate EntryOk(h: History, log: seq<Entry>, k: nat)
    requires k < |log|
  {
    log[k].term in h.reigns && log[..k + 1] <= h.reigns[log[k].term].log
  }

  ghost predicate TermsUpTo(log: seq<Entry>, t: nat) {
    forall k :: 0 <= k < |log| ==> log[k].term <= t
  }

  ghost predicate VoteOk(peers: set<PeerId>, h: History, p: PeerId, u: nat)
    requires (p, u) in h.votes
  {
    var v := h.votes[(p, u)];
    && p in peers && LogOk(h, v.log)
    && (v.candidate, u) in h.bids
    && UpToDate(|h.bids[(v.candidate, u)]|, LastTerm(h.bids[(v.candidate, u)]), v.log)
  }

  ghost predicate BidOk(h: History, p: PeerId, u: nat)
    requires (p, u) in h.bids
  {
    u >= 1 && LogOk(h, h.bids[(p, u)]) && TermsUpTo(h.bids[(p, u)], u - 1)
  }

  ghost predicate ReignOk(peers: set<PeerId>, h: History, t: nat)
    requires t in h.reigns
  {
    var r := h.reigns[t];
    && r.leader in peers && t >= 1
    && r.base <= r.log && LogOk(h, r.log) && TermsUpTo(r.base, t - 1)
    && (forall k :: |r.base| <= k < |r.log| ==> r.log[k].term == t)
    && (r.leader, t) in h.bids && h.bids[(r.leader, t)] == r.base
    && Quorum(peers, r.voters)
    && (forall q :: q in r.voters ==> (q, t) in h.votes && h.votes[(q, t)].candidate == r.leader)
  }

  ghost predicate HistoryOk(peers: set<PeerId>, h: History) {
    && (forall p, u :: (p, u) in h.votes ==> VoteOk(peers, h, p, u))
    && (forall p, u :: (p, u) in h.bids ==> BidOk(h, p, u))
    && (forall t :: t in h.reigns ==> ReignOk(peers, h, t))
  }

  // ------------------------------------------------------------------- nodes

  ghost predicate NodeOk(peers: set<PeerId>, h: History, p: PeerId, n: Node) {
    && n.id == p && p in peers
    && (n.participants == {p} || n.participants == peers)
    && (n.role != Follower ==> n.participants == peers && n.votedFor == Some(p))
    && n.votes <= n.participants
    && n.commit <= |n.log| && LogOk(h, n.log) && TermsUpTo(n.log, n.term)
    && (forall u :: (p, u) in h.votes || (p, u) in h.bids ==> u <= n.term)
    && (forall u :: u in h.reigns && h.reigns[u].leader == p ==> u <= n.term)
    && (n.votedFor == None ==> (p, n.term) !in h.votes)
    && (n.votedFor.Some? ==> (p, n.term) in h.votes && h.votes[(p, n.term)].candidate == n.votedFor.value)
    && (n.role == Candidate ==> CandidateOk(h, p, n))
    && (n.role == Leader <==> n.term in h.reigns && h.reigns[n.term].leader == p)
    && (n.role == Leader ==> n.log == h.reigns[n.term].log)
  }

  ghost predicate CandidateOk(h: History, p: PeerId, n: Node) {
    && (p, n.term) in h.bids && h.bids[(p, n.term)] == n.log
    && forall q :: q in n.votes ==> (q, n.term) in h.votes && h.votes[(q, n.term)].candidate == p
  }

  ghost predicate NodesOk(peers: set<PeerId>, s: State, h: History) {
    s.nodes.Keys == peers && forall p :: p in s.nodes ==> NodeOk(peers, h, p, s.nodes[p])
  }

  // ----------------------------------------------------------------- packets

  ghost predicate AppendOk(h: History, pk: Packet)
    requires pk.body.AppendEntries?
  {
    var b := pk.body;
    && b.term in h.reigns && b.leader == pk.from == h.reigns[b.term].leader && pk.to != pk.from
    && var log := h.reigns[b.term].log;
       && b.prevIndex + |b.entries| <= |log|
       && b.entries == log[b.prevIndex..b.prevIndex + |b.entries|]
       && b.prevTerm == (if b.prevIndex == 0 then 0 else log[b.prevIndex - 1].term)
       && b.leaderCommit <= |log|
  }

  ghost predicate PacketOk(peers: set<PeerId>, h: History, pk: Packet) {
    && pk.from in peers && pk.to in peers
    && match pk.body
       case RequestVote(t, c, li, lt) =>
         c == pk.from && (c, t) in h.bids && li == |h.bids[(c, t)]| && lt == LastTerm(h.bids[(c, t)])
       case RequestVoteResponse(t, granted) =>
         granted ==> (pk.from, t) in h.votes && h.votes[(pk.from, t)].candidate == pk.to
       case AppendEntries(_, _, _, _, _, _) => AppendOk(h, pk)
       case AppendEntriesResponse(t, success, i) =>
         && (success ==> pk.about == t) && pk.from != pk.to
         && pk.about in h.reigns && h.reigns[pk.about].leader == pk.to
         && (pk.about == t ==> i <= |h.reigns[t].log|)
       case _ => true
  }

  ghost predicate NetOk(peers: set<PeerId>, net: set<Packet>, h: History) {
    forall pk :: pk in net ==> PacketOk(peers, h, pk)
  }

  // -------------------------------------------------------- acknowledgements

  predicate AckBy(pk: Packet, p: PeerId, t: nat) {
    pk.from == p && pk.body.AppendEntriesResponse? && pk.body.term == t && pk.about == t
  }

  /** p has vouched, in term t, for the first i entries of that term's leader log. */
  ghost predicate Acked(net: set<Packet>, h: History, p: PeerId, t: nat, i: nat) {
    && t in h.reigns && i <= |h.reigns[t].log|
    && (h.reigns[t].leader == p || exists pk :: pk in net && AckBy(pk, p, t) && i <= pk.body.matchIndex)
  }

  /** Some later leader, of a term at most u, was elected without those entries. */
  ghost predicate Blocked(h: History, t: nat, i: nat, u: nat)
    requires t in h.reigns && i <= |h.reigns[t].log|
  {
    exists v :: v in h.reigns && t < v <= u && !(h.reigns[t].log[..i] <= h.reigns[v].base)
  }

  ghost predicate Safe(h: History, t: nat, i: nat, log: seq<Entry>, u: nat)
    requires t in h.reigns && i <= |h.reigns[t].log|
  {
    h.reigns[t].log[..i] <= log || Blocked(h, t, i, u)
  }

  ghost predicate AckOk(net: set<Packet>, h: History, p: PeerId, n: Node) {
    forall t: nat, i: nat :: Acked(net, h, p, t, i) ==> t <= n.term && Safe(h, t, i, n.log, n.term)
  }

  ghost predicate AcksOk(s: State, h: History) {
    forall p :: p in s.nodes ==> AckOk(s.net, h, p, s.nodes[p])
  }

  /** Whether p's vote in term u can still help, or helped, elect that term's leader. */
  predicate Counted(h: History, p: PeerId, u: nat) {
    u !in h.reigns || p in h.reigns[u].voters
  }

  ghost predicate VoteSafe(net: set<Packet>, h: History, p: PeerId, u: nat)
    requires (p, u) in h.votes
  {
    forall t: nat, i: nat :: t < u && Acked(net, h, p, t, i) ==> Safe(h, t, i, h.votes[(p, u)].log, u - 1)
  }

  ghost predicate VotesSafe(net: set<Packet>, h: History) {
    forall p, u :: (p, u) in h.votes && Counted(h, p, u) ==> VoteSafe(net, h, p, u)
  }

  ghost predicate Inv(peers: set<PeerId>, s: State, h: History) {
    && HistoryOk(peers, h) && NodesOk(peers, s, h) && NetOk(peers, s.net, h)
    && AcksOk(s, h) && VotesSafe(s.net, h)
  }

  // --------------------------------------------------------------- extension

  /** h' adds to h only facts about peer p. */
  ghost predicate ExtendsBy(h: History, h': History, p: PeerId) {
    && (forall k :: k in h.votes ==> k in h'.votes && h'.votes[k] == h.votes[k])
    && (forall k :: k in h'.votes && k !in h.votes ==> k.0 == p)
    && (forall k :: k in h.bids ==> k in h'.bids && h'.bids[k] == h.bids[k])
    && (forall k :: k in h'.bids && k !in h.bids ==> k.0 == p)
    && (forall t :: t in h.reigns ==> t in h'.reigns && Grown(h.reigns[t], h'.reigns[t], p))
    && (forall t :: t in h'.reigns && t !in h.reigns ==> h'.reigns[t].leader == p)
  }

  ghost predicate Grown(r: Reign, r': Reign, p: PeerId) {
    && r'.leader == r.leader && r'.base == r.base && r'.voters == r.voters
    && r.log <= r'.log && (r.log != r'.log ==> r.leader == p)
  }

  /** h' adds to h; nothing recorded is lost or rewritten. */
  ghost predicate Extends(h: History, h': History) {
    && (forall k :: k in h.votes ==> k in h'.votes && h'.votes[k] == h.votes[k])
    && (forall k :: k in h.bids ==> k in h'.bids && h'.bids[k] == h.bids[k])
    && (forall t :: t in h.reigns ==> t in h'.reigns && Kept(h.reigns[t], h'.reigns[t]))
  }

  ghost predicate Kept(r: Reign, r': Reign) {
    && r'.leader == r.leader && r'.base == r.base && r'.voters == r.voters && r.log <= r'.log
  }

  lemma ExtendsByExtends(h: History, h': History, p: PeerId)
    requires ExtendsBy(h, h', p)
    ensures Extends(h, h')
  {
  }

  lemma ExtendsTransitive(a: History, b: History, c: History)
    requires Extends(a, b) && Extends(b, c)
    ensures Extends(a, c)
  {
  }

  lemma LogOkKept(h: History, h': History, log: seq<Entry>)
    requires Extends(h, h') && LogOk(h, log)
    ensures LogOk(h', log)
  {
    forall k | 0 <= k < |log| ensures EntryOk(h', log, k) {
      assert EntryOk(h, log, k);
      assert Kept(h.reigns[log[k].term], h'.reigns[log[k].term]);
    }
  }

  lemma SafeKept(h: History, h': History, t: nat, i: nat, log: seq<Entry>, u: nat, u': nat)
    requires Extends(h, h') && t in h.reigns && i <= |h.reigns[t].log| && Safe(h, t, i, log, u) && u <= u'
    ensures t in h'.reigns && i <= |h'.reigns[t].log| && Safe(h', t, i, log, u')
  {
    assert Kept(h.reigns[t], h'.reigns[t]);
    assert h'.reigns[t].log[..i] == h.reigns[t].log[..i];
    if Blocked(h, t, i, u) {
      var v :| v in h.reigns && t < v <= u && !(h.reigns[t].log[..i] <= h.reigns[v].base);
      assert Kept(h.reigns[v], h'.reigns[v]);
    }
  }

  lemma PacketOkKept(peers: set<PeerId>, h: History, h': History, pk: Packet)
    requires Extends(h, h') && PacketOk(peers, h, pk)
    ensures PacketOk(peers, h', pk)
  {
    match pk.body
    case AppendEntries(t, _, pi, _, es, _) =>
      assert Kept(h.reigns[t], h'.reigns[t]);
      assert h'.reigns[t].log[pi..pi + |es|] == h.reigns[t].log[pi..pi + |es|];
    case AppendEntriesResponse(t, _, i) =>
      assert Kept(h.reigns[pk.about], h'.reigns[pk.about]);
    case _ =>
  }

  lemma NetOkKept(peers: set<PeerId>, h: History, h': History, net: set<Packet>)
    requires Extends(h, h') && NetOk(peers, net, h)
    ensures NetOk(peers, net, h')
  {
    forall pk | pk in net ensures PacketOk(peers, h', pk) {
      PacketOkKept(peers, h, h', pk);
    }
  }

  /** Facts about the other peers survive whatever p adds to the history. */
  lemma NodeOkKept(peers: set<PeerId>, h: History, h': History, p: PeerId, q: PeerId, n: Node)
    requires ExtendsBy(h, h', p) && q != p && NodeOk(peers, h, q, n)
    ensures NodeOk(peers, h', q, n)
  {
    LogOkKept(h, h', n.log);
    forall u | (q, u) in h'.votes || (q, u) in h'.bids ensures u <= n.term {
      assert (q, u) in h'.votes ==> (q, u) in h.votes;
      assert (q, u) in h'.bids ==> (q, u) in h.bids;
    }
    forall u | u in h'.reigns && h'.reigns[u].leader == q ensures u in h.reigns && h'.reigns[u] == h.reigns[u] && u <= n.term {
      if u in h.reigns {
        assert Grown(h.reigns[u], h'.reigns[u], p);
      }
    }
    if n.term in h.reigns {
      assert Grown(h.reigns[n.term], h'.reigns[n.term], p);
    }
  }

  /** The other peers vouch for nothing new. */
  lemma AckedBefore(peers: set<PeerId>, net: set<Packet>, h: History, h': History, p: PeerId, q: PeerId, t: nat, i: nat)
    requires ExtendsBy(h, h', p) && NetOk(peers, net, h) && q != p && Acked(net, h', q, t, i)
    ensures Acked(net, h, q, t, i)
  {
    if h'.reigns[t].leader == q {
      assert t in h.reigns;
      assert Grown(h.reigns[t], h'.reigns[t], p);
    } else {
      var pk :| pk in net && AckBy(pk, q, t) && i <= pk.body.matchIndex;
      assert PacketOk(peers, h, pk);
    }
  }

  /** Acknowledgements by packet are unaffected by what the history gains. */
  lemma AckedByPacketBefore(peers: set<PeerId>, net: set<Packet>, h: History, h': History, p: PeerId, t: nat, i: nat)
    requires Extends(h, h') && NetOk(peers, net, h) && Acked(net, h', p, t, i)
    ensures Acked(net, h, p, t, i) || h'.reigns[t].leader == p
  {
    if h'.reigns[t].leader != p {
      var pk :| pk in net && AckBy(pk, p, t) && i <= pk.body.matchIndex;
      assert PacketOk(peers, h, pk);
      assert Kept(h.reigns[t], h'.reigns[t]);
    }
  }

  lemma AckOkKept(peers: set<PeerId>, net: set<Packet>, h: History, h': History, p: PeerId, q: PeerId, n: Node)
    requires ExtendsBy(h, h', p) && NetOk(peers, net, h) && q != p && AckOk(net, h, q, n)
    ensures AckOk(net, h', q, n)
  {
    ExtendsByExtends(h, h', p);
    forall t: nat, i: nat | Acked(net, h', q, t, i) ensures t <= n.term && Safe(h', t, i, n.log, n.term) {
      AckedBefore(peers, net, h, h', p, q, t, i);
      SafeKept(h, h', t, i, n.log, n.term, n.term);
    }
  }

  lemma AckedKept(net: set<Packet>, net': set<Packet>, h: History, h': History, p: PeerId, t: nat, i: nat)
    requires Extends(h, h') && net <= net' && Acked(net, h, p, t, i)
    ensures Acked(net', h', p, t, i)
  {
    assert Kept(h.reigns[t], h'.reigns[t]);
    if h.reigns[t].leader != p {
      var pk :| pk in net && AckBy(pk, p, t) && i <= pk.body.matchIndex;
      assert pk in net' && AckBy(pk, p, t) && i <= pk.body.matchIndex;
    }
  }

  // ------------------------------------------------------------ consequences

  lemma QuorumsMeet(peers: set<PeerId>, a: set<PeerId>, b: set<PeerId>) returns (q: PeerId)
    requires Quorum(peers, a) && Quorum(peers, b)
    ensures q in a && q in b
  {
    SubsetSize(a + b, peers);
    assert |a + b| + |a * b| == |a| + |b|;
    q :| q in a * b;
  }

  lemma {:induction false} SubsetSize<T>(a: set<T>, b: set<T>)
    requires a <= b
    ensures |a| <= |b|
    decreases a
  {
    if a != {} {
      var x :| x in a;
      SubsetSize(a - {x}, b - {x});
    }
  }

  /** Log matching: two sound logs with equal terms at an index agree up to it. */
  lemma LogsMatch(h: History, a: seq<Entry>, b: seq<Entry>, k: nat)
    requires LogOk(h, a) && LogOk(h, b) && k < |a| && k < |b| && a[k].term == b[k].term
    ensures a[..k + 1] == b[..k + 1]
  {
    assert EntryOk(h, a, k) && EntryOk(h, b, k);
    var l := h.reigns[a[k].term].log;
    assert a[..k + 1] == l[..k + 1] == b[..k + 1];
  }

  lemma PrefixLogOk(h: History, log: seq<Entry>, e: nat)
    requires LogOk(h, log) && e <= |log|
    ensures LogOk(h, log[..e])
  {
    var p := log[..e];
    forall k | 0 <= k < |p| ensures EntryOk(h, p, k) {
      assert EntryOk(h, log, k);
      assert p[..k + 1] == log[..k + 1];
    }
  }
}
