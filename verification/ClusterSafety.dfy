/** Safety of whole runs: election safety, log matching and truthful acknowledgements, which hold
    of every run. */
module ClusterSafety {
  import opened Types
  import opened RaftLog
  import opened RaftNode
  import opened Cluster
  import opened ClusterInvariant
  import opened ClusterMoves
  import opened ClusterReigns
  import opened ClusterStep

  // ------------------------------------------------------------ all runs

  /** Histories to accompany a run. */
  ghost predicate Accompany(peers: set<PeerId>, run: seq<State>, hs: seq<History>) {
    && |hs| == |run|
    && (forall i :: 0 <= i < |run| ==> Inv(peers, run[i], hs[i]))
    && (forall i, j :: 0 <= i <= j < |run| ==> Extends(hs[i], hs[j]))
  }

  lemma {:induction false} RunHistories(peers: set<PeerId>, run: seq<State>, actions: seq<Action>) returns (hs: seq<History>)
    requires IsRun(peers, run, actions)
    ensures Accompany(peers, run, hs)
    decreases |actions|
  {
    if actions == [] {
      hs := [History(map[], map[], map[])];
      InitInv(peers);
      assert run == [Init(peers)];
      AccompanyOne(peers, Init(peers), hs[0]);
    } else {
      var k := |actions| - 1;
      RunPrefix(peers, run, actions);
      var front := RunHistories(peers, run[..k + 1], actions[..k]);
      var h' := NextKeepsInv(peers, run[k], front[k], actions[k]);
      hs := front + [h'];
      AccompanyMore(peers, run[..k + 1], front, run[k + 1], h');
    }
  }

  lemma RunPrefix(peers: set<PeerId>, run: seq<State>, actions: seq<Action>)
    requires IsRun(peers, run, actions) && actions != []
    ensures var k := |actions| - 1;
      && IsRun(peers, run[..k + 1], actions[..k])
      && run == run[..k + 1] + [run[k + 1]] && run[..k + 1][k] == run[k]
      && Enabled(run[k], actions[k]) && run[k + 1] == Next(peers, run[k], actions[k])
  {
    var k := |actions| - 1;
    assert Linked(peers, run, actions, k);
    var run', actions' := run[..k + 1], actions[..k];
    forall i | 0 <= i < k ensures Linked(peers, run', actions', i) {
      assert Linked(peers, run, actions, i);
    }
  }

  lemma AccompanyOne(peers: set<PeerId>, s: State, h: History)
    requires Inv(peers, s, h)
    ensures Accompany(peers, [s], [h])
  {
    ExtendsSelf(h);
    forall i | 0 <= i < |[s]| ensures Inv(peers, [s][i], [h][i]) {
      assert [s][i] == s && [h][i] == h;
    }
  }

  lemma AccompanyMore(peers: set<PeerId>, run: seq<State>, hs: seq<History>, s: State, h: History)
    requires Accompany(peers, run, hs) && |run| > 0 && Inv(peers, s, h) && Extends(hs[|hs| - 1], h)
    ensures Accompany(peers, run + [s], hs + [h])
  {
    var run', hs' := run + [s], hs + [h];
    forall i, j | 0 <= i <= j < |run'| ensures Extends(hs'[i], hs'[j]) {
      if i < j == |run| {
        ExtendsTransitive(hs[i], hs[|hs| - 1], h);
      } else if i == j {
        ExtendsSelf(hs'[i]);
      }
    }
    forall i | 0 <= i < |run'| ensures Inv(peers, run'[i], hs'[i]) {
      if i < |run| {
        assert run'[i] == run[i] && hs'[i] == hs[i];
      }
    }
  }

  /** Two instants of a run, the later history covering both. */
  lemma AtBoth(peers: set<PeerId>, run: seq<State>, hs: seq<History>, i: nat, j: nat) returns (h: History)
    requires Accompany(peers, run, hs) && i < |run| && j < |run|
    ensures Extends(hs[i], h) && Extends(hs[j], h)
  {
    h := if i <= j then hs[j] else hs[i];
  }

  /** Election safety: over a whole run at most one node is ever leader of a given term. */
  lemma ElectionSafety(peers: set<PeerId>, run: seq<State>, actions: seq<Action>, i: nat, j: nat, a: PeerId, b: PeerId)
    requires IsRun(peers, run, actions) && i < |run| && j < |run|
    requires a in run[i].nodes && b in run[j].nodes
    requires run[i].nodes[a].role == Leader && run[j].nodes[b].role == Leader
    requires run[i].nodes[a].term == run[j].nodes[b].term
    ensures a == b
  {
    var hs := RunHistories(peers, run, actions);
    var h := AtBoth(peers, run, hs, i, j);
    NodeFacts(peers, run[i], hs[i], a);
    NodeFacts(peers, run[j], hs[j], b);
    var t := run[i].nodes[a].term;
    assert Kept(hs[i].reigns[t], h.reigns[t]) && Kept(hs[j].reigns[t], h.reigns[t]);
  }

  /** Log matching: logs of any two nodes, at any two instants, that hold entries with equal
      index and term are identical up to that index. */
  lemma LogMatching(peers: set<PeerId>, run: seq<State>, actions: seq<Action>, i: nat, j: nat, a: PeerId, b: PeerId, k: nat)
    requires IsRun(peers, run, actions) && i < |run| && j < |run|
    requires a in run[i].nodes && b in run[j].nodes
    requires k < |run[i].nodes[a].log| && k < |run[j].nodes[b].log|
    requires run[i].nodes[a].log[k].term == run[j].nodes[b].log[k].term
    ensures run[i].nodes[a].log[..k + 1] == run[j].nodes[b].log[..k + 1]
  {
    var hs := RunHistories(peers, run, actions);
    var h := AtBoth(peers, run, hs, i, j);
    NodeFacts(peers, run[i], hs[i], a);
    NodeFacts(peers, run[j], hs[j], b);
    LogOkKept(hs[i], h, run[i].nodes[a].log);
    LogOkKept(hs[j], h, run[j].nodes[b].log);
    LogsMatch(h, run[i].nodes[a].log, run[j].nodes[b].log, k);
  }

  /** Every append in flight is a slice of its term's leader log, preceded by the entry it
      names; the leader's log at any instant of that term agrees with it. */
  lemma AppendsAreSlices(peers: set<PeerId>, run: seq<State>, actions: seq<Action>, i: nat, j: nat, l: PeerId, pk: Packet)
    requires IsRun(peers, run, actions) && i < |run| && j < |run|
    requires pk in run[i].net && pk.body.AppendEntries?
    requires l in run[j].nodes && run[j].nodes[l].role == Leader && run[j].nodes[l].term == pk.body.term
    ensures pk.from == pk.body.leader == l && ContiguousAfter(pk.body.prevIndex, pk.body.entries)
    ensures var log := run[j].nodes[l].log; var b := pk.body;
      && (i <= j ==> b.prevIndex + |b.entries| <= |log| && b.leaderCommit <= |log|)
      && (1 <= b.prevIndex <= |log| ==> b.prevTerm == log[b.prevIndex - 1].term)
      && (forall k :: 0 <= k < |b.entries| && b.prevIndex + k < |log| ==> b.entries[k] == log[b.prevIndex + k])
  {
    var hs := RunHistories(peers, run, actions);
    var h := AtBoth(peers, run, hs, i, j);
    NodeFacts(peers, run[j], hs[j], l);
    PacketFacts(peers, run[i], hs[i], pk);
    ReignFacts(peers, run[i], hs[i], h, pk.body.term);
    ReignFacts(peers, run[j], hs[j], h, pk.body.term);
    if i <= j {
      ReignFacts(peers, run[i], hs[i], hs[j], pk.body.term);
    }
    SliceInHistory(peers, hs[i], hs[j], h, l, run[j].nodes[l], pk, i <= j);
  }

  lemma SliceInHistory(peers: set<PeerId>, sent: History, now: History, h: History, l: PeerId, n: Node, pk: Packet, later: bool)
    requires PacketOk(peers, sent, pk) && pk.body.AppendEntries?
    requires NodeOk(peers, now, l, n) && n.role == Leader && n.term == pk.body.term
    requires n.term in h.reigns && WellFormed(sent.reigns[n.term].log)
    requires Kept(sent.reigns[n.term], h.reigns[n.term]) && Kept(now.reigns[n.term], h.reigns[n.term])
    requires later ==> Kept(sent.reigns[n.term], now.reigns[n.term])
    ensures pk.from == pk.body.leader == l && ContiguousAfter(pk.body.prevIndex, pk.body.entries)
    ensures var log := n.log; var b := pk.body;
      && (later ==> b.prevIndex + |b.entries| <= |log| && b.leaderCommit <= |log|)
      && (1 <= b.prevIndex <= |log| ==> b.prevTerm == log[b.prevIndex - 1].term)
      && (forall k :: 0 <= k < |b.entries| && b.prevIndex + k < |log| ==> b.entries[k] == log[b.prevIndex + k])
  {
    SliceFacts(sent.reigns[n.term].log, n.log, h.reigns[n.term].log, pk.body);
  }

  lemma ReignFacts(peers: set<PeerId>, s: State, h: History, h': History, t: nat)
    requires Inv(peers, s, h) && Extends(h, h') && t in h.reigns
    ensures t in h'.reigns && Kept(h.reigns[t], h'.reigns[t]) && WellFormed(h.reigns[t].log)
  {
    assert ReignOk(peers, h, t);
  }

  lemma SliceFacts(sent: seq<Entry>, log: seq<Entry>, whole: seq<Entry>, b: Body)
    requires b.AppendEntries? && WellFormed(sent) && sent <= whole && log <= whole
    requires b.prevIndex + |b.entries| <= |sent| && b.entries == sent[b.prevIndex..b.prevIndex + |b.entries|]
    requires b.prevTerm == (if b.prevIndex == 0 then 0 else sent[b.prevIndex - 1].term)
    ensures ContiguousAfter(b.prevIndex, b.entries)
    ensures 1 <= b.prevIndex <= |log| ==> b.prevTerm == log[b.prevIndex - 1].term
    ensures forall k :: 0 <= k < |b.entries| && b.prevIndex + k < |log| ==> b.entries[k] == log[b.prevIndex + k]
  {
    forall k | 0 <= k < |b.entries| ensures b.entries[k] == whole[b.prevIndex + k] && b.entries[k].index == b.prevIndex + k + 1 {
      assert b.entries[k] == sent[b.prevIndex + k];
    }
  }

  /** Success acknowledgements are truthful, and stay so: once p has sent a success reply for
      term t and index m, then at every later instant at which p is still in term t its log
      agrees through m with the log the leader of t has then or at any other such instant. */
  lemma AcksAreTruthful(peers: set<PeerId>, run: seq<State>, actions: seq<Action>, i: nat, j: nat, l: PeerId, pk: Packet)
    requires IsRun(peers, run, actions) && i < |run| && j < |run|
    requires pk in run[i].net && pk in run[j].net && pk.body.AppendEntriesResponse? && pk.body.success
    requires l in run[i].nodes && run[i].nodes[l].role == Leader && run[i].nodes[l].term == pk.body.term
    requires pk.from in run[j].nodes && run[j].nodes[pk.from].term == pk.body.term
    ensures var mine := run[j].nodes[pk.from].log; var leads := run[i].nodes[l].log; var m := pk.body.matchIndex;
      && pk.to == l && m <= |mine| && m <= |leads| && mine[..m] == leads[..m]
  {
    var hs := RunHistories(peers, run, actions);
    var h := AtBoth(peers, run, hs, i, j);
    NodeFacts(peers, run[i], hs[i], l);
    NodeFacts(peers, run[j], hs[j], pk.from);
    PacketFacts(peers, run[i], hs[i], pk);
    PacketFacts(peers, run[j], hs[j], pk);
    AckInHistory(peers, run[j].net, hs[i], hs[j], h, l, run[i].nodes[l], run[j].nodes[pk.from], pk);
  }

  lemma AckInHistory(peers: set<PeerId>, net: set<Packet>, hi: History, hj: History, h: History, l: PeerId, lead: Node, n: Node, pk: Packet)
    requires pk in net && pk.body.AppendEntriesResponse? && pk.body.success
    requires PacketOk(peers, hi, pk) && PacketOk(peers, hj, pk) && Extends(hi, h) && Extends(hj, h)
    requires NodeOk(peers, hi, l, lead) && lead.role == Leader && lead.term == pk.body.term == n.term
    requires AckOk(net, hj, pk.from, n)
    ensures var m := pk.body.matchIndex;
      pk.to == l && m <= |n.log| && m <= |lead.log| && n.log[..m] == lead.log[..m]
  {
    var t := pk.body.term;
    var m := pk.body.matchIndex;
    assert Kept(hi.reigns[t], h.reigns[t]) && Kept(hj.reigns[t], h.reigns[t]);
    AckHolds(net, hj, pk, n);
    assert hi.reigns[t].log[..m] == h.reigns[t].log[..m] == hj.reigns[t].log[..m];
  }

  lemma AckHolds(net: set<Packet>, h: History, pk: Packet, n: Node)
    requires pk in net && AckBy(pk, pk.from, n.term) && AckOk(net, h, pk.from, n)
    requires n.term in h.reigns && pk.body.matchIndex <= |h.reigns[n.term].log|
    ensures h.reigns[n.term].log[..pk.body.matchIndex] <= n.log
  {
    assert Acked(net, h, pk.from, n.term, pk.body.matchIndex);
    assert Safe(h, n.term, pk.body.matchIndex, n.log, n.term);
  }
}
