/** Leader completeness and agreement on committed entries. */
module ClusterCommit {
  import opened Types
  import opened RaftLog
  import opened RaftNode
  import opened Cluster
  import opened ClusterInvariant
  import opened ClusterMoves
  import opened ClusterReigns
  import opened ClusterStep
  import opened ClusterSafety

  // ------------------------------------------------------ leader completeness

  /** Every member of q vouched for index i of term t. */
  ghost predicate AllAcked(net: set<Packet>, h: History, q: set<PeerId>, t: nat, i: nat) {
    forall p :: p in q ==> Acked(net, h, p, t, i)
  }

  /** An entry of term t at index i that a quorum has vouched for in that term. */
  ghost predicate Committed(peers: set<PeerId>, net: set<Packet>, h: History, t: nat, i: nat) {
    && t in h.reigns && 1 <= i <= |h.reigns[t].log| && h.reigns[t].log[i - 1].term == t
    && exists q :: Quorum(peers, q) && AllAcked(net, h, q, t, i)
  }

  /** The last entry's leader wrote the whole log. */
  lemma LastReign(h: History, log: seq<Entry>)
    requires LogOk(h, log) && log != []
    ensures LastTerm(log) in h.reigns && log <= h.reigns[LastTerm(log)].log
  {
    assert EntryOk(h, log, |log| - 1);
    assert log[..|log|] == log;
  }

  /** Terms never fall along a log. */
  lemma LastTermIsLargest(peers: set<PeerId>, h: History, log: seq<Entry>, k: nat)
    requires HistoryOk(peers, h) && LogOk(h, log) && k < |log|
    ensures log[k].term <= LastTerm(log)
  {
    LastReign(h, log);
    ReignTerms(peers, h, LastTerm(log));
    assert h.reigns[LastTerm(log)].log[k] == log[k];
  }

  /** A log that ends in term u contains the whole log that term's leader started from. */
  lemma EndsPastBase(peers: set<PeerId>, h: History, log: seq<Entry>)
    requires HistoryOk(peers, h) && LogOk(h, log) && log != []
    ensures LastTerm(log) in h.reigns && h.reigns[LastTerm(log)].base <= log
  {
    LastReign(h, log);
    var u := LastTerm(log);
    var r := h.reigns[u];
    assert ReignOk(peers, h, u);
    assert r.log[..|log|] == log;
  }

  /** Of two logs ending in the same term the shorter is a prefix of the longer. */
  lemma SameTermLonger(h: History, a: seq<Entry>, b: seq<Entry>)
    requires LogOk(h, a) && LogOk(h, b) && a != [] && b != [] && LastTerm(a) == LastTerm(b) && |a| <= |b|
    ensures a <= b
  {
    LastReign(h, a);
    LastReign(h, b);
    var whole := h.reigns[LastTerm(a)].log;
    assert a == whole[..|a|] && b == whole[..|b|];
  }

  /** A voter that holds the entries only elects a candidate that holds them, given that the
      leaders in between hold them. */
  lemma ElectorateCarries(peers: set<PeerId>, h: History, t: nat, i: nat, voter: seq<Entry>, base: seq<Entry>)
    requires HistoryOk(peers, h) && t in h.reigns && 1 <= i <= |h.reigns[t].log| && h.reigns[t].log[i - 1].term == t
    requires LogOk(h, voter) && LogOk(h, base) && h.reigns[t].log[..i] <= voter
    requires UpToDate(|base|, LastTerm(base), voter)
    requires base != [] && LastTerm(base) in h.reigns && LastTerm(base) > t ==> h.reigns[t].log[..i] <= h.reigns[LastTerm(base)].base
    ensures h.reigns[t].log[..i] <= base
  {
    var front := h.reigns[t].log[..i];
    assert voter[i - 1] == front[i - 1];
    LastTermIsLargest(peers, h, voter, i - 1);
    assert ReignOk(peers, h, t);
    assert base != [];
    LastIndexIsLength(voter);
    if LastTerm(base) == LastTerm(voter) {
      SameTermLonger(h, voter, base);
    } else {
      EndsPastBase(peers, h, base);
    }
  }

  /** Leader completeness, in the history: every later leader was elected with the entries. */
  lemma {:induction false} Completeness(peers: set<PeerId>, net: set<Packet>, h: History, t: nat, i: nat, u: nat)
    requires HistoryOk(peers, h) && VotesSafe(net, h) && Committed(peers, net, h, t, i) && u in h.reigns && t < u
    ensures h.reigns[t].log[..i] <= h.reigns[u].base
    decreases u
  {
    var q :| Quorum(peers, q) && AllAcked(net, h, q, t, i);
    assert ReignOk(peers, h, u);
    var p := QuorumsMeet(peers, q, h.reigns[u].voters);
    assert VoteOk(peers, h, p, u) && VoteSafe(net, h, p, u);
    assert Acked(net, h, p, t, i);
    var voter := h.votes[(p, u)].log;
    assert Safe(h, t, i, voter, u - 1);
    if Blocked(h, t, i, u - 1) {
      var v :| v in h.reigns && t < v <= u - 1 && !(h.reigns[t].log[..i] <= h.reigns[v].base);
      Completeness(peers, net, h, t, i, v);
      assert false;
    }
    var base := h.reigns[u].base;
    assert BidOk(h, h.reigns[u].leader, u);
    if base != [] && LastTerm(base) in h.reigns && LastTerm(base) > t {
      Completeness(peers, net, h, t, i, LastTerm(base));
    }
    ElectorateCarries(peers, h, t, i, voter, base);
  }

  // ------------------------------------------------------------------ evidence

  /** The prefix is part of what term t committed, and t is at most u. */
  ghost predicate Backed(peers: set<PeerId>, net: set<Packet>, h: History, front: seq<Entry>, u: nat, t: nat, i: nat) {
    t <= u && Committed(peers, net, h, t, i) && |front| <= i && front <= h.reigns[t].log
  }

  /** A prefix known to be committed in some term up to u. */
  ghost predicate Evidence(peers: set<PeerId>, net: set<Packet>, h: History, front: seq<Entry>, u: nat) {
    |front| == 0 || exists t: nat, i: nat :: Backed(peers, net, h, front, u, t, i)
  }

  lemma CommittedKept(peers: set<PeerId>, net: set<Packet>, h: History, net': set<Packet>, h': History, t: nat, i: nat)
    requires Committed(peers, net, h, t, i) && net <= net' && Extends(h, h')
    ensures Committed(peers, net', h', t, i) && h.reigns[t].log <= h'.reigns[t].log
  {
    assert Kept(h.reigns[t], h'.reigns[t]);
    var q :| Quorum(peers, q) && AllAcked(net, h, q, t, i);
    forall p | p in q ensures Acked(net', h', p, t, i) {
      AckedKept(net, net', h, h', p, t, i);
    }
    assert AllAcked(net', h', q, t, i);
  }

  lemma EvidenceKept(peers: set<PeerId>, net: set<Packet>, h: History, net': set<Packet>, h': History, front: seq<Entry>, u: nat, u': nat)
    requires Evidence(peers, net, h, front, u) && net <= net' && Extends(h, h') && u <= u'
    ensures Evidence(peers, net', h', front, u')
  {
    if |front| != 0 {
      var t: nat, i: nat :| Backed(peers, net, h, front, u, t, i);
      CommittedKept(peers, net, h, net', h', t, i);
      assert Backed(peers, net', h', front, u', t, i);
    }
  }

  lemma EvidenceShorter(peers: set<PeerId>, net: set<Packet>, h: History, front: seq<Entry>, c: nat, u: nat)
    requires Evidence(peers, net, h, front, u) && c <= |front|
    ensures Evidence(peers, net, h, front[..c], u)
  {
    if c > 0 {
      var t: nat, i: nat :| Backed(peers, net, h, front, u, t, i);
      assert Backed(peers, net, h, front[..c], u, t, i);
    }
  }

  /** Any two committed prefixes are prefixes of one log. */
  lemma EvidenceAgrees(peers: set<PeerId>, net: set<Packet>, h: History, a: seq<Entry>, v: nat, b: seq<Entry>, w: nat)
    requires HistoryOk(peers, h) && VotesSafe(net, h)
    requires Evidence(peers, net, h, a, v) && Evidence(peers, net, h, b, w) && |a| <= |b|
    ensures a <= b
  {
    if |a| != 0 {
      var t: nat, i: nat :| Backed(peers, net, h, a, v, t, i);
      var u: nat, j: nat :| Backed(peers, net, h, b, w, u, j);
      BackedAgrees(peers, net, h, a, t, i, b, u, j);
    }
  }

  lemma BackedAgrees(peers: set<PeerId>, net: set<Packet>, h: History, a: seq<Entry>, t: nat, i: nat, b: seq<Entry>, u: nat, j: nat)
    requires HistoryOk(peers, h) && VotesSafe(net, h)
    requires Committed(peers, net, h, t, i) && Committed(peers, net, h, u, j)
    requires |a| <= i && a <= h.reigns[t].log && |b| <= j && b <= h.reigns[u].log && |a| <= |b|
    ensures a <= b
  {
    if t < u {
      PrefixInLater(peers, net, h, t, i, u, a);
    } else if u < t {
      PrefixInLater(peers, net, h, u, j, t, b);
    }
  }

  /** A committed prefix is in the log every later leader was elected with. */
  lemma EvidenceInLater(peers: set<PeerId>, net: set<Packet>, h: History, a: seq<Entry>, v: nat, u: nat)
    requires HistoryOk(peers, h) && VotesSafe(net, h) && Evidence(peers, net, h, a, v) && u in h.reigns && v <= u
    ensures a <= h.reigns[u].log
    ensures v < u ==> a <= h.reigns[u].base
  {
    if |a| != 0 {
      var t: nat, i: nat :| Backed(peers, net, h, a, v, t, i);
      if t < u {
        PrefixInLater(peers, net, h, t, i, u, a);
      }
    }
  }

  lemma PrefixInLater(peers: set<PeerId>, net: set<Packet>, h: History, t: nat, i: nat, u: nat, a: seq<Entry>)
    requires HistoryOk(peers, h) && VotesSafe(net, h) && Committed(peers, net, h, t, i) && u in h.reigns && t < u
    requires |a| <= i && a <= h.reigns[t].log
    ensures a <= h.reigns[u].base && a <= h.reigns[u].log
  {
    Completeness(peers, net, h, t, i, u);
    assert ReignOk(peers, h, u);
    assert a == h.reigns[t].log[..i][..|a|];
  }
}
