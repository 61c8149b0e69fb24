/** Moves that create or change log entries, and the emission of packets. */
module ClusterReigns {
  import opened Types
  import opened RaftLog
  import opened RaftNode
  import opened Cluster
  import opened ClusterInvariant
  import opened ClusterMoves

  // ------------------------------------------------------------- coronation

  /** Election safety at the moment of election: the term has no leader yet. */
  lemma NoLeaderYet(peers: set<PeerId>, h: History, p: PeerId, n: Node)
    requires HistoryOk(peers, h) && NodeOk(peers, h, p, n)
    requires n.role == Candidate && Quorum(peers, n.votes)
    ensures n.term !in h.reigns
  {
    if n.term in h.reigns {
      assert ReignOk(peers, h, n.term);
      var q := QuorumsMeet(peers, n.votes, h.reigns[n.term].voters);
      assert false;
    }
  }

  lemma CrownMove(peers: set<PeerId>, s: State, h: History, p: PeerId) returns (h': History)
    requires Inv(peers, s, h) && p in s.nodes && s.nodes[p].role == Candidate && Quorum(peers, s.nodes[p].votes)
    ensures Extends(h, h') && Inv(peers, Put(s, p, Crown(s.nodes[p])), h')
  {
    var n := s.nodes[p];
    assert NodeOk(peers, h, p, n) && AckOk(s.net, h, p, n);
    NoLeaderYet(peers, h, p, n);
    h' := h.(reigns := h.reigns[n.term := Reign(p, n.log, n.log, n.votes)]);
    CrownHistory(peers, h, p, n, h');
    CrownAcks(peers, s.net, h, p, n, h');
    CrownVotes(peers, s.net, h, p, n, h');
    CrownNode(peers, h, p, n, h');
    MoveKeeps(peers, s, h, p, Crown(n), h');
  }

  lemma CrownHistory(peers: set<PeerId>, h: History, p: PeerId, n: Node, h': History)
    requires HistoryOk(peers, h) && NodeOk(peers, h, p, n) && n.role == Candidate && Quorum(peers, n.votes)
    requires n.term !in h.reigns && h' == h.(reigns := h.reigns[n.term := Reign(p, n.log, n.log, n.votes)])
    ensures ExtendsBy(h, h', p) && Extends(h, h') && HistoryOk(peers, h')
  {
    assert forall t :: t in h.reigns ==> Grown(h.reigns[t], h'.reigns[t], p);
    ExtendsByExtends(h, h', p);
    assert BidOk(h, p, n.term);
    LogOkKept(h, h', n.log);
    assert ReignOk(peers, h', n.term);
    HistoryReigns(peers, h, h', n.term);
  }

  /** One reign was added or changed; the rest of the history is untouched. */
  lemma HistoryReigns(peers: set<PeerId>, h: History, h': History, now: nat)
    requires HistoryOk(peers, h) && Extends(h, h') && h'.votes == h.votes && h'.bids == h.bids
    requires now in h'.reigns && ReignOk(peers, h', now)
    requires forall t :: t in h'.reigns && t != now ==> t in h.reigns && h'.reigns[t] == h.reigns[t]
    ensures HistoryOk(peers, h')
  {
    forall q, w | (q, w) in h'.votes ensures VoteOk(peers, h', q, w) {
      VoteOkKept(peers, h, h', q, w);
    }
    forall q, w | (q, w) in h'.bids ensures BidOk(h', q, w) {
      BidOkKept(h, h', q, w);
    }
    forall t | t in h'.reigns ensures ReignOk(peers, h', t) {
      if t != now {
        ReignOkKept(peers, h, h', t);
      }
    }
  }

  lemma CrownAcks(peers: set<PeerId>, net: set<Packet>, h: History, p: PeerId, n: Node, h': History)
    requires NetOk(peers, net, h) && AckOk(net, h, p, n) && ExtendsBy(h, h', p)
    requires n.term !in h.reigns && h' == h.(reigns := h.reigns[n.term := Reign(p, n.log, n.log, n.votes)])
    ensures AckOk(net, h', p, Crown(n))
  {
    ExtendsByExtends(h, h', p);
    forall t: nat, i: nat | Acked(net, h', p, t, i) ensures t <= n.term && Safe(h', t, i, n.log, n.term) {
      if t != n.term {
        AckedByPacketBefore(peers, net, h, h', p, t, i);
        assert Acked(net, h, p, t, i);
        SafeKept(h, h', t, i, n.log, n.term, n.term);
      }
    }
  }

  lemma CrownVotes(peers: set<PeerId>, net: set<Packet>, h: History, p: PeerId, n: Node, h': History)
    requires NetOk(peers, net, h) && VotesSafe(net, h) && ExtendsBy(h, h', p) && NodeOk(peers, h, p, n)
    requires n.term !in h.reigns && h' == h.(reigns := h.reigns[n.term := Reign(p, n.log, n.log, n.votes)])
    ensures VotesSafe(net, h')
  {
    VotesSafeKept(peers, net, h, h', p, n.term);
  }

  lemma CrownNode(peers: set<PeerId>, h: History, p: PeerId, n: Node, h': History)
    requires NodeOk(peers, h, p, n) && n.role == Candidate && Extends(h, h')
    requires n.term !in h.reigns && h' == h.(reigns := h.reigns[n.term := Reign(p, n.log, n.log, n.votes)])
    ensures NodeOk(peers, h', p, Crown(n))
  {
    LogOkKept(h, h', n.log);
  }

  // ---------------------------------------------------------- leader appends

  /** The leader's node and reign after it appends one entry of its own term. */
  function Pushed(n: Node, hash: BlockHash): Node {
    var e := Entry(n.term, LastIndex(n.log) + 1, hash);
    n.(log := n.log + [e], matched := n.matched[n.id := e.index])
  }

  lemma PushMove(peers: set<PeerId>, s: State, h: History, p: PeerId, hash: BlockHash) returns (h': History)
    requires Inv(peers, s, h) && p in s.nodes && s.nodes[p].role == Leader
    ensures Extends(h, h') && Inv(peers, Put(s, p, Pushed(s.nodes[p], hash)), h')
  {
    var n := s.nodes[p];
    var n' := Pushed(n, hash);
    assert NodeOk(peers, h, p, n) && AckOk(s.net, h, p, n);
    assert ReignOk(peers, h, n.term);
    h' := h.(reigns := h.reigns[n.term := h.reigns[n.term].(log := n'.log)]);
    PushHistory(peers, h, n.term, n'.log[|n.log|], h');
    PushAcks(peers, s.net, h, p, n, n', h');
    PushVotes(peers, s.net, h, p, n, h');
    PushNode(peers, h, p, n, n', h');
    MoveKeeps(peers, s, h, p, n', h');
  }

  lemma PushHistory(peers: set<PeerId>, h: History, t: nat, e: Entry, h': History)
    requires HistoryOk(peers, h) && t in h.reigns && e.term == t && e.index == LastIndex(h.reigns[t].log) + 1
    requires h' == h.(reigns := h.reigns[t := h.reigns[t].(log := h.reigns[t].log + [e])])
    ensures ExtendsBy(h, h', h.reigns[t].leader) && Extends(h, h') && HistoryOk(peers, h')
  {
    PushExtends(h, t, e, h');
    assert ReignOk(peers, h, t);
    PushReign(peers, h, t, e, h');
    HistoryReigns(peers, h, h', t);
  }

  lemma PushExtends(h: History, t: nat, e: Entry, h': History)
    requires t in h.reigns
    requires h' == h.(reigns := h.reigns[t := h.reigns[t].(log := h.reigns[t].log + [e])])
    ensures ExtendsBy(h, h', h.reigns[t].leader) && Extends(h, h')
  {
    assert forall u :: u in h.reigns ==> Grown(h.reigns[u], h'.reigns[u], h.reigns[t].leader);
    ExtendsByExtends(h, h', h.reigns[t].leader);
  }

  lemma PushReign(peers: set<PeerId>, h: History, t: nat, e: Entry, h': History)
    requires Extends(h, h') && t in h.reigns && ReignOk(peers, h, t)
    requires e.term == t && e.index == LastIndex(h.reigns[t].log) + 1
    requires h' == h.(reigns := h.reigns[t := h.reigns[t].(log := h.reigns[t].log + [e])])
    ensures ReignOk(peers, h', t)
  {
    PushedLogOk(h, h.reigns[t].log, h'.reigns[t].log, t, h');
  }

  lemma PushedLogOk(h: History, log: seq<Entry>, log': seq<Entry>, t: nat, h': History)
    requires LogOk(h, log) && Extends(h, h') && |log'| == |log| + 1 && log'[..|log|] == log
    requires log'[|log|].term == t && log'[|log|].index == LastIndex(log) + 1
    requires t in h'.reigns && h'.reigns[t].log == log'
    ensures LogOk(h', log')
  {
    LogOkKept(h, h', log);
    forall k | 0 <= k < |log'| ensures log'[k].index == k + 1 && EntryOk(h', log', k) {
      if k < |log| {
        assert EntryOk(h', log, k);
        assert log'[k] == log[k] && log'[..k + 1] == log[..k + 1];
      }
    }
  }

  lemma PushAcks(peers: set<PeerId>, net: set<Packet>, h: History, p: PeerId, n: Node, n': Node, h': History)
    requires NetOk(peers, net, h) && AckOk(net, h, p, n) && ExtendsBy(h, h', p) && n.term in h.reigns
    requires n.log <= n'.log && n'.term == n.term
    requires h' == h.(reigns := h.reigns[n.term := h.reigns[n.term].(log := n'.log)])
    ensures AckOk(net, h', p, n')
  {
    ExtendsByExtends(h, h', p);
    forall t: nat, i: nat | Acked(net, h', p, t, i) ensures t <= n'.term && Safe(h', t, i, n'.log, n'.term) {
      if t != n.term {
        AckedByPacketBefore(peers, net, h, h', p, t, i);
        assert Acked(net, h, p, t, i);
        SafeKept(h, h', t, i, n.log, n.term, n.term);
      }
    }
  }

  lemma PushVotes(peers: set<PeerId>, net: set<Packet>, h: History, p: PeerId, n: Node, h': History)
    requires NetOk(peers, net, h) && VotesSafe(net, h) && ExtendsBy(h, h', p) && NodeOk(peers, h, p, n)
    requires n.term in h.reigns && h'.votes == h.votes && h' == h.(reigns := h.reigns[n.term := h'.reigns[n.term]])
    ensures VotesSafe(net, h')
  {
    VotesSafeKept(peers, net, h, h', p, n.term);
  }

  lemma PushNode(peers: set<PeerId>, h: History, p: PeerId, n: Node, n': Node, h': History)
    requires NodeOk(peers, h, p, n) && n.role == Leader && HistoryOk(peers, h')
    requires exists hash :: n' == Pushed(n, hash)
    requires h' == h.(reigns := h.reigns[n.term := h.reigns[n.term].(log := n'.log)])
    ensures NodeOk(peers, h', p, n')
  {
    assert ReignOk(peers, h', n.term);
  }

  // ---------------------------------------------------------------- accepting

  /** What an accepted append leaves: the follower agrees with the leader's log through the
      last sent entry, and either nothing else changed or the log stops there. */
  lemma MergeWithReign(h: History, log: seq<Entry>, lead: seq<Entry>, prev: nat, e: nat)
    requires LogOk(h, log) && LogOk(h, lead) && prev <= e <= |lead| && prev <= |log|
    requires prev > 0 ==> log[prev - 1].term == lead[prev - 1].term
    ensures var m := Merge(log, prev, lead[prev..e]); var k := FirstNew(log, prev, lead[prev..e]);
      && log[..prev + k] == lead[..prev + k]
      && lead[..e] <= m
      && (if prev + k == e then m == log else m == lead[..e])
  {
    var k := FirstNew(log, prev, lead[prev..e]);
    LastCommonTerm(log, lead, prev, e);
    CommonPrefix(h, log, lead, prev + k);
    SpliceCommon(log, lead, prev, e, k, Merge(log, prev, lead[prev..e]));
  }

  lemma CommonPrefix(h: History, log: seq<Entry>, lead: seq<Entry>, at: nat)
    requires LogOk(h, log) && LogOk(h, lead) && at <= |log| && at <= |lead|
    requires at > 0 ==> log[at - 1].term == lead[at - 1].term
    ensures log[..at] == lead[..at]
  {
    if at > 0 {
      LogsMatch(h, log, lead, at - 1);
    }
  }

  lemma LastCommonTerm(log: seq<Entry>, lead: seq<Entry>, prev: nat, e: nat)
    requires prev <= e <= |lead| && prev <= |log|
    requires prev > 0 ==> log[prev - 1].term == lead[prev - 1].term
    ensures var k := FirstNew(log, prev, lead[prev..e]);
      && (prev + k > 0 ==> log[prev + k - 1].term == lead[prev + k - 1].term)
      && (prev + k < e && prev + k < |log| ==> log[prev + k].term != lead[prev + k].term)
  {
    FirstNewExact(log, prev, lead[prev..e]);
    var k := FirstNew(log, prev, lead[prev..e]);
    if k > 0 {
      assert lead[prev..e][k - 1] == lead[prev + k - 1];
    }
    if prev + k < e {
      assert lead[prev..e][k] == lead[prev + k];
    }
  }

  lemma SpliceCommon(log: seq<Entry>, lead: seq<Entry>, prev: nat, e: nat, k: nat, m: seq<Entry>)
    requires prev + k <= e <= |lead| && prev + k <= |log| && log[..prev + k] == lead[..prev + k]
    requires m == if k == |lead[prev..e]| then log else log[..prev + k] + lead[prev..e][k..]
    ensures lead[..e] <= m && (prev + k < e ==> m == lead[..e])
  {
    assert lead[prev..e][k..] == lead[prev + k..e];
    assert lead[..prev + k] + lead[prev + k..e] == lead[..e];
  }

  /** Entries on which follower and leader agree are never thrown away. */
  lemma MergeKeepsCommon(h: History, log: seq<Entry>, lead: seq<Entry>, prev: nat, e: nat, i: nat)
    requires LogOk(h, log) && LogOk(h, lead) && prev <= e <= |lead| && prev <= |log|
    requires prev > 0 ==> log[prev - 1].term == lead[prev - 1].term
    requires i <= |lead| && lead[..i] <= log
    ensures lead[..i] <= Merge(log, prev, lead[prev..e])
  {
    MergeWithReign(h, log, lead, prev, e);
    LastCommonTerm(log, lead, prev, e);
    var k := FirstNew(log, prev, lead[prev..e]);
    if prev + k < e {
      KeepsCommon(log, lead, i, prev + k);
    }
  }

  lemma KeepsCommon(log: seq<Entry>, lead: seq<Entry>, i: nat, at: nat)
    requires i <= |lead| && lead[..i] <= log && at <= |log| && at < |lead|
    requires at < |log| ==> log[at].term != lead[at].term
    ensures i <= at
  {
  }

  /** A safe acknowledged prefix survives an accepted append of a term that is not behind. */
  lemma MergeKeepsSafe(peers: set<PeerId>, h: History, t: nat, i: nat, log: seq<Entry>, u: nat, prev: nat, e: nat)
    requires t in h.reigns && i <= |h.reigns[t].log| && u in h.reigns && t <= u && ReignOk(peers, h, u)
    requires Safe(h, t, i, log, u) && LogOk(h, log) && prev <= e <= |h.reigns[u].log| && prev <= |log|
    requires prev > 0 ==> log[prev - 1].term == h.reigns[u].log[prev - 1].term
    ensures Safe(h, t, i, Merge(log, prev, h.reigns[u].log[prev..e]), u)
  {
    var lead := h.reigns[u].log;
    var front := h.reigns[t].log[..i];
    if !Blocked(h, t, i, u) {
      assert t < u ==> front <= h.reigns[u].base;
      assert front <= lead;
      assert lead[..i] == front;
      MergeKeepsCommon(h, log, lead, prev, e, i);
    }
  }

  /** The request a well-formed append packet makes of a log, in terms of the leader's log. */
  ghost predicate Fits(h: History, log: seq<Entry>, b: Body, t: nat)
    requires b.AppendEntries?
  {
    && t in h.reigns && b.term == t
    && b.prevIndex + |b.entries| <= |h.reigns[t].log| && b.prevIndex <= |log|
    && b.entries == h.reigns[t].log[b.prevIndex..b.prevIndex + |b.entries|]
    && (b.prevIndex > 0 ==> log[b.prevIndex - 1].term == h.reigns[t].log[b.prevIndex - 1].term)
  }

  lemma AcceptedFits(h: History, n: Node, pk: Packet)
    requires pk.body.AppendEntries? && AppendOk(h, pk) && pk.body.term == n.term
    requires TermAt(n.log, pk.body.prevIndex) == Some(pk.body.prevTerm)
    ensures Fits(h, n.log, pk.body, n.term)
  {
  }

  /** Follower p, in the term of the append, takes it into its log. */
  ghost predicate TakesIn(n: Node, b: Body, n': Node) {
    && b.AppendEntries? && b.term == n.term && n.role == Follower
    && Accepts(n, b.prevIndex, b.prevTerm, b.entries)
    && n' == Appended(n, b.prevIndex, b.prevTerm, b.entries, b.leaderCommit)
  }

  lemma MergeMove(peers: set<PeerId>, s: State, h: History, p: PeerId, pk: Packet, n': Node)
    requires Inv(peers, s, h) && p in s.nodes && pk in s.net && pk.to == p && TakesIn(s.nodes[p], pk.body, n')
    ensures Inv(peers, Put(s, p, n'), h)
  {
    AppendFacts(peers, s, h, p, pk);
    MergeEffect(peers, s.net, h, p, s.nodes[p], pk, n');
    LogMove(peers, s, h, p, n');
  }

  lemma MergeEffect(peers: set<PeerId>, net: set<Packet>, h: History, p: PeerId, n: Node, pk: Packet, n': Node)
    requires NodeOk(peers, h, p, n) && AckOk(net, h, p, n) && TakesIn(n, pk.body, n')
    requires AppendOk(h, pk) && ReignOk(peers, h, n.term)
    ensures NodeOk(peers, h, p, n') && AckOk(net, h, p, n') && n'.term == n.term
    ensures pk.body.prevIndex + |pk.body.entries| <= |h.reigns[n.term].log|
    ensures h.reigns[n.term].log[..pk.body.prevIndex + |pk.body.entries|] <= n'.log
  {
    AcceptedFits(h, n, pk);
    MergeNode(peers, h, p, n, pk.body, n');
    MergeAcks(peers, net, h, p, n, pk.body, n');
  }

  /** What the invariant says about a node and an append packet of its current term. */
  lemma AppendFacts(peers: set<PeerId>, s: State, h: History, p: PeerId, pk: Packet)
    requires Inv(peers, s, h) && p in s.nodes && pk in s.net
    requires pk.body.AppendEntries? && pk.to == p
    ensures NodeOk(peers, h, p, s.nodes[p]) && AckOk(s.net, h, p, s.nodes[p])
    ensures AppendOk(h, pk) && ReignOk(peers, h, pk.body.term)
  {
    assert PacketOk(peers, h, pk);
  }

  lemma MergeNode(peers: set<PeerId>, h: History, p: PeerId, n: Node, b: Body, n': Node)
    requires NodeOk(peers, h, p, n) && n.role == Follower && b.AppendEntries? && Fits(h, n.log, b, n.term)
    requires ReignOk(peers, h, n.term)
    requires Accepts(n, b.prevIndex, b.prevTerm, b.entries)
    requires n' == Appended(n, b.prevIndex, b.prevTerm, b.entries, b.leaderCommit)
    ensures NodeOk(peers, h, p, n')
    ensures h.reigns[n.term].log[..b.prevIndex + |b.entries|] <= n'.log
  {
    MergedLog(peers, h, n.log, n.term, b.prevIndex, b.prevIndex + |b.entries|);
    MergeShape(n.log, b.prevIndex, b.entries);
    assert n.commit <= |n'.log|;
    LastIndexIsLength(n'.log);
  }

  lemma MergedLog(peers: set<PeerId>, h: History, log: seq<Entry>, t: nat, prev: nat, e: nat)
    requires t in h.reigns && ReignOk(peers, h, t) && LogOk(h, log) && TermsUpTo(log, t)
    requires prev <= e <= |h.reigns[t].log| && prev <= |log|
    requires prev > 0 ==> log[prev - 1].term == h.reigns[t].log[prev - 1].term
    ensures var m := Merge(log, prev, h.reigns[t].log[prev..e]);
      LogOk(h, m) && TermsUpTo(m, t) && h.reigns[t].log[..e] <= m
  {
    var lead := h.reigns[t].log;
    MergeWithReign(h, log, lead, prev, e);
    PrefixLogOk(h, lead, e);
    ReignTerms(peers, h, t);
  }

  lemma ReignTerms(peers: set<PeerId>, h: History, t: nat)
    requires t in h.reigns && ReignOk(peers, h, t)
    ensures TermsUpTo(h.reigns[t].log, t)
  {
    var r := h.reigns[t];
    assert forall k :: 0 <= k < |r.base| ==> r.log[k] == r.base[k];
  }

  lemma LastIndexIsLength(log: seq<Entry>)
    requires WellFormed(log)
    ensures LastIndex(log) == |log|
  {
  }

  lemma MergeAcks(peers: set<PeerId>, net: set<Packet>, h: History, p: PeerId, n: Node, b: Body, n': Node)
    requires AckOk(net, h, p, n) && LogOk(h, n.log) && n'.term == n.term
    requires b.AppendEntries? && Fits(h, n.log, b, n.term) && ReignOk(peers, h, n.term)
    requires n'.log == Merge(n.log, b.prevIndex, b.entries)
    ensures AckOk(net, h, p, n')
  {
    var lead := h.reigns[n.term].log;
    assert n'.log == Merge(n.log, b.prevIndex, lead[b.prevIndex..b.prevIndex + |b.entries|]);
    forall t: nat, i: nat | Acked(net, h, p, t, i) ensures t <= n'.term && Safe(h, t, i, n'.log, n'.term) {
      assert Safe(h, t, i, n.log, n.term);
      MergeKeepsSafe(peers, h, t, i, n.log, n.term, b.prevIndex, b.prevIndex + |b.entries|);
    }
  }

  // ----------------------------------------------------------------- emitting

  /** Every acknowledgement among these packets is p's and true of its present log. */
  ghost predicate TrueAcks(h: History, p: PeerId, n: Node, more: set<Packet>) {
    forall pk :: pk in more ==>
      && pk.from == p
      && (AckBy(pk, p, pk.about) ==>
            && pk.about == n.term && pk.about in h.reigns && pk.body.matchIndex <= |h.reigns[pk.about].log|
            && h.reigns[pk.about].log[..pk.body.matchIndex] <= n.log)
  }

  lemma EmitMove(peers: set<PeerId>, s: State, h: History, p: PeerId, more: set<Packet>)
    requires Inv(peers, s, h) && p in s.nodes && NetOk(peers, more, h) && TrueAcks(h, p, s.nodes[p], more)
    ensures Inv(peers, s.(net := s.net + more), h)
  {
    var n := s.nodes[p];
    EmitAcks(s, h, p, n, more);
    assert NodeOk(peers, h, p, n);
    EmitVotes(s.net, h, p, n, more);
  }

  /** Any acknowledgement in the larger network is old, or is p's own and true. */
  lemma EmitAcked(net: set<Packet>, h: History, p: PeerId, n: Node, more: set<Packet>, q: PeerId, t: nat, i: nat)
    requires TrueAcks(h, p, n, more) && Acked(net + more, h, q, t, i)
    ensures Acked(net, h, q, t, i) || (q == p && t == n.term && h.reigns[t].log[..i] <= n.log)
  {
    if h.reigns[t].leader != q {
      var pk :| pk in net + more && AckBy(pk, q, t) && i <= pk.body.matchIndex;
      if pk !in net {
        assert AckBy(pk, p, pk.about);
        var l := h.reigns[t].log;
        assert l[..i] == l[..pk.body.matchIndex][..i];
      }
    }
  }

  lemma EmitAcks(s: State, h: History, p: PeerId, n: Node, more: set<Packet>)
    requires AcksOk(s, h) && p in s.nodes && n == s.nodes[p] && TrueAcks(h, p, n, more)
    ensures AcksOk(s.(net := s.net + more), h)
  {
    forall q | q in s.nodes ensures AckOk(s.net + more, h, q, s.nodes[q]) {
      var m := s.nodes[q];
      assert AckOk(s.net, h, q, m);
      forall t: nat, i: nat | Acked(s.net + more, h, q, t, i) ensures t <= m.term && Safe(h, t, i, m.log, m.term) {
        EmitAcked(s.net, h, p, n, more, q, t, i);
      }
    }
  }

  lemma EmitVotes(net: set<Packet>, h: History, p: PeerId, n: Node, more: set<Packet>)
    requires VotesSafe(net, h) && TrueAcks(h, p, n, more) && (forall u :: (p, u) in h.votes ==> u <= n.term)
    ensures VotesSafe(net + more, h)
  {
    forall q, u | (q, u) in h.votes && Counted(h, q, u) ensures VoteSafe(net + more, h, q, u) {
      assert VoteSafe(net, h, q, u);
      forall t: nat, i: nat | t < u && Acked(net + more, h, q, t, i) ensures Safe(h, t, i, h.votes[(q, u)].log, u - 1) {
        EmitAcked(net, h, p, n, more, q, t, i);
      }
    }
  }
}
