/** The two things a step of the cluster must not do for agreement to hold, each stated by what can
    be seen before the step, and what each amounts to. */
module Prudence {
  import opened Types
  import opened RaftLog
  import opened RaftNode
  import opened Cluster

  // ------------------------------------------------------------- commit clamp

  /** What a receiver can tell before acting: the append is acceptable, brings nothing new,
      stops short of the log's end, and the sender's commit index lies beyond it. */
  ghost predicate Overreaches(n: Node, b: Body)
    requires b.AppendEntries?
  {
    var bound := Max(n.commit, b.prevIndex + |b.entries|);
    && Accepts(n, b.prevIndex, b.prevTerm, b.entries)
    && FirstNew(n.log, b.prevIndex, b.entries) == |b.entries|
    && bound < |n.log| && bound < b.leaderCommit
  }

  /** No append is delivered that is admitted, has valid payloads and overreaches. */
  ghost predicate WithinBatch(s: State, a: Action)
    requires Enabled(s, a)
  {
    a.Deliver? && a.packet.body.AppendEntries? ==>
      var n, b := s.nodes[a.packet.to], a.packet.body;
      !(Admits(n, b.term, b.leader, a.packet.from, a.timedOut) && a.payloads.Some? && Overreaches(n, b))
  }

  /** An accepted append keeps the commit index within what it verified, except exactly when
      the sender's commit index is higher, nothing in the batch is new, and the log goes on. */
  lemma CommitWithinBatch(n: Node, prev: nat, prevTerm: nat, entries: seq<Entry>, leaderCommit: nat)
    requires Sound(n) && Accepts(n, prev, prevTerm, entries)
    ensures var bound := Max(n.commit, prev + |entries|);
      Appended(n, prev, prevTerm, entries, leaderCommit).commit <= bound
      <==> (leaderCommit <= bound || |n.log| <= bound || FirstNew(n.log, prev, entries) < |entries|)
  {
    MergeShape(n.log, prev, entries);
    MergeWellFormed(n.log, prev, entries);
    var m := Merge(n.log, prev, entries);
    assert LastIndex(m) == |m|;
  }

  /** The commit index after a delivered append. */
  lemma DeliveredCommit(n: Node, pk: Packet, timedOut: bool, payloads: Option<map<BlockHash, BlockFile>>)
    requires pk.body.AppendEntries?
    ensures var b := pk.body;
      Receive(n, pk, timedOut, payloads).node.commit ==
      if Admits(n, b.term, b.leader, pk.from, timedOut) && payloads.Some? && Accepts(n, b.prevIndex, b.prevTerm, b.entries)
      then Appended(n, b.prevIndex, b.prevTerm, b.entries, b.leaderCommit).commit else n.commit
  {
    var n1 := Follow(StepDownOnNewer(n, pk.body.term), pk.body.leader);
    assert n1.log == n.log && n1.commit == n.commit;
  }

  /** The guard is exact: a delivered append raises the commit index past the entries it carried if
      and only if it is admitted, valid and overreaches. */
  lemma PrudentDelivery(s: State, pk: Packet, timedOut: bool, payloads: Option<map<BlockHash, BlockFile>>)
    requires Enabled(s, Deliver(pk, timedOut, payloads)) && pk.body.AppendEntries? && Sound(s.nodes[pk.to])
    ensures WithinBatch(s, Deliver(pk, timedOut, payloads))
      <==> Receive(s.nodes[pk.to], pk, timedOut, payloads).node.commit <= Max(s.nodes[pk.to].commit, pk.body.prevIndex + |pk.body.entries|)
  {
    var n, b := s.nodes[pk.to], pk.body;
    DeliveredCommit(n, pk, timedOut, payloads);
    if Accepts(n, b.prevIndex, b.prevTerm, b.entries) {
      CommitWithinBatch(n, b.prevIndex, b.prevTerm, b.entries, b.leaderCommit);
    }
  }

  // ----------------------------------------------------------- stale refusals

  /** A leader does not credit a follower for the refusal of an older term's request. */
  ghost predicate CurrentRefusal(s: State, a: Action)
    requires Enabled(s, a)
  {
    a.Deliver? && a.packet.body.AppendEntriesResponse? && !a.packet.body.success ==>
      var n := s.nodes[a.packet.to];
      n.role == Leader && a.packet.body.term == n.term ==> a.packet.about >= n.term
  }

  /** The refusals that violate it: addressed to the leader of the term they carry, and about a
      request of an earlier term.  Such a refusal sets the sender's entry to what it claims, cut to
      the leader's log, whatever the leader knew before. */
  lemma StaleRefusalIff(s: State, pk: Packet, timedOut: bool, payloads: Option<map<BlockHash, BlockFile>>)
    requires Enabled(s, Deliver(pk, timedOut, payloads)) && pk.body.AppendEntriesResponse? && !pk.body.success
    ensures var n := s.nodes[pk.to];
      && (CurrentRefusal(s, Deliver(pk, timedOut, payloads))
          <==> !(n.role == Leader && n.term == pk.body.term && pk.about < pk.body.term))
      && (n.role == Leader && n.term == pk.body.term && pk.from in n.participants ==>
            var n' := Receive(n, pk, timedOut, payloads).node;
            pk.from in n'.matched && n'.matched[pk.from] == Min(pk.body.matchIndex, LastIndex(n.log)))
  {
  }

  /** What the answer to an append tells: the term of the request is recorded, and it lies below
      the term of the answer exactly when it lay below the responder's term on arrival; then the
      answer is a refusal that vouches for the old request's previous entry. */
  ghost predicate Tells(n: Node, req: Packet, reply: Packet)
    requires req.body.AppendEntries?
  {
    && reply.body.AppendEntriesResponse? && reply.to == req.from && reply.about == req.body.term
    && (reply.about < reply.body.term <==> req.body.term < n.term)
    && (req.body.term < n.term ==>
          && !reply.body.success && reply.body.term == n.term
          && reply.body.matchIndex == MatchingIndex(n.log, req.body.prevIndex, req.body.prevTerm, []))
  }

  lemma ReplyTells(peers: set<PeerId>, p: PeerId, n: Node, req: Packet, timedOut: bool, payloads: Option<map<BlockHash, BlockFile>>, reply: Packet)
    requires req.body.AppendEntries?
    requires reply in Packets(peers, p, Receive(n, req, timedOut, payloads).wire, req.body.term)
    ensures reply.from == p && Tells(n, req, reply)
  {
  }

  /** Nothing else than a delivered append produces append replies. */
  lemma NoReplyOtherwise(n: Node, o: Outcome, known: set<PeerId>, electionDue: bool, heartbeatDue: bool, hash: BlockHash, pk: Packet, timedOut: bool, payloads: Option<map<BlockHash, BlockFile>>)
    requires || o == OnTick(n, known, electionDue, heartbeatDue)
             || OnBlockCreated(n, hash) == Some(o)
             || (!pk.body.AppendEntries? && o == Receive(n, pk, timedOut, payloads))
    ensures forall e :: e in o.wire ==> !(e.Send? && e.body.AppendEntriesResponse?) && !(e.Broadcast? && e.body.AppendEntriesResponse?)
  {
  }

  /** The answer an action put on the wire at step j. */
  ghost predicate Answered(run: seq<State>, actions: seq<Action>, j: nat, reply: Packet) {
    && j < |actions| && j < |run| && actions[j].Deliver? && actions[j].packet.body.AppendEntries?
    && actions[j].packet.to == reply.from && reply.from in run[j].nodes
    && Tells(run[j].nodes[reply.from], actions[j].packet, reply)
  }

  lemma NewReply(peers: set<PeerId>, run: seq<State>, actions: seq<Action>, j: nat, reply: Packet)
    requires IsRun(peers, run, actions) && j < |actions|
    requires reply in run[j + 1].net && reply !in run[j].net && reply.body.AppendEntriesResponse?
    ensures Answered(run, actions, j, reply)
  {
    assert Linked(peers, run, actions, j);
    var s := run[j];
    match actions[j]
    case Tick(p, e, h) =>
      NoReplyOtherwise(s.nodes[p], OnTick(s.nodes[p], peers - {p}, e, h), peers - {p}, e, h, 0, reply, false, None);
    case CreateBlock(p, hash) =>
      if OnBlockCreated(s.nodes[p], hash).Some? {
        NoReplyOtherwise(s.nodes[p], OnBlockCreated(s.nodes[p], hash).value, {}, false, false, hash, reply, false, None);
      }
    case Deliver(pk, timedOut, payloads) =>
      if pk.body.AppendEntries? {
        ReplyTells(peers, pk.to, s.nodes[pk.to], pk, timedOut, payloads, reply);
      } else {
        NoReplyOtherwise(s.nodes[pk.to], Receive(s.nodes[pk.to], pk, timedOut, payloads), {}, false, false, 0, pk, timedOut, payloads);
      }
  }

  /** Every append reply in flight comes from some earlier delivery of a request; so the refusals
      that can violate the hypothesis are exactly those whose request was of an earlier term than
      its receiver. */
  lemma {:induction false} ReplyOrigin(peers: set<PeerId>, run: seq<State>, actions: seq<Action>, i: nat, reply: Packet) returns (j: nat)
    requires IsRun(peers, run, actions) && i < |run| && reply in run[i].net && reply.body.AppendEntriesResponse?
    ensures j < i && Answered(run, actions, j, reply)
  {
    if i == 0 {
      assert false;
    } else if reply in run[i - 1].net {
      j := ReplyOrigin(peers, run, actions, i - 1, reply);
    } else {
      j := i - 1;
      NewReply(peers, run, actions, j, reply);
    }
  }

  // ------------------------------------------------------------------- both

  ghost predicate Prudent(s: State, a: Action)
    requires Enabled(s, a)
  {
    WithinBatch(s, a) && CurrentRefusal(s, a)
  }
}
