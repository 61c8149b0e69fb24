/** A cluster of Raft nodes with a fixed, common set of peers and no restarts.  The network
    is the set of every packet ever sent: delivery picks any of them at any time, so delay,
    reordering, duplication and loss are all included. */
module Cluster {
  import opened Types
  import opened RaftLog
  import opened RaftNode

  /** `about` is bookkeeping no handler reads: on a reply, the term of the request answered. */
  datatype Packet = Packet(from: PeerId, to: PeerId, body: Body, about: nat)

  datatype State = State(nodes: map<PeerId, Node>, net: set<Packet>)

  datatype Action =
    | Tick(node: PeerId, electionDue: bool, heartbeatDue: bool)
    | CreateBlock(node: PeerId, hash: BlockHash)
    | Deliver(packet: Packet, timedOut: bool, payloads: Option<map<BlockHash, BlockFile>>)

  function Init(peers: set<PeerId>): State {
    State(map p | p in peers :: Fresh(p, Store([], None), 0), {})
  }

  /** Whether an effect of peer `id` puts a message on the wire to q. */
  predicate Addressed(e: Effect, id: PeerId, q: PeerId) {
    match e
    case Send(to, _) => to == q
    case SendRaftAppendEntries(to, _, _, _, _, _) => to == q
    case Broadcast(_) => q != id
    case _ => false
  }

  function WireBody(e: Effect, id: PeerId): Body
    requires e.Send? || e.SendRaftAppendEntries? || e.Broadcast?
  {
    match e
    case Send(_, body) => body
    case Broadcast(body) => body
    case SendRaftAppendEntries(_, term, pi, pt, entries, lc) => AppendEntries(term, id, pi, pt, entries, lc)
  }

  function Packets(peers: set<PeerId>, id: PeerId, wire: set<Effect>, about: nat): set<Packet> {
    set e, q | e in wire && q in peers && Addressed(e, id, q) :: Packet(id, q, WireBody(e, id), about)
  }

  /** Replace one node by its outcome and put its messages on the wire. */
  function Install(peers: set<PeerId>, s: State, p: PeerId, o: Outcome, about: nat): State {
    State(s.nodes[p := o.node], s.net + Packets(peers, p, o.wire, about))
  }

  /** The reaction of a node to one delivered message. */
  function Receive(n: Node, pk: Packet, timedOut: bool, payloads: Option<map<BlockHash, BlockFile>>): Outcome {
    match pk.body
    case RequestVote(term, candidate, li, lt) => OnRequestVote(n, term, candidate, li, lt, pk.from)
    case RequestVoteResponse(term, granted) => OnRequestVoteResponse(n, term, pk.from, granted)
    case AppendEntries(term, leader, pi, pt, entries, lc) =>
      OnAppendEntries(n, AppendRequest(term, leader, pi, pt, lc, pk.from), Check(entries, payloads), timedOut)
    case AppendEntriesResponse(term, success, mi) => OnAppendEntriesResponse(n, term, pk.from, success, mi)
    case _ => Outcome(n, [], {})
  }

  /** Whether the block payloads of an append pass their checks is left to the environment. */
  function Check(entries: seq<Entry>, payloads: Option<map<BlockHash, BlockFile>>): Result<Validated> {
    match payloads
    case Some(blocks) => Ok(Validated(entries, blocks))
    case None => Err("invalid payload")
  }

  predicate Enabled(s: State, a: Action) {
    match a
    case Tick(p, _, _) => p in s.nodes
    case CreateBlock(p, _) => p in s.nodes
    case Deliver(pk, _, _) => pk in s.net && pk.to in s.nodes
  }

  function Next(peers: set<PeerId>, s: State, a: Action): State
    requires Enabled(s, a)
  {
    match a
    case Tick(p, electionDue, heartbeatDue) =>
      Install(peers, s, p, OnTick(s.nodes[p], peers - {p}, electionDue, heartbeatDue), 0)
    case CreateBlock(p, hash) =>
      (match OnBlockCreated(s.nodes[p], hash)
       case Some(o) => Install(peers, s, p, o, 0)
       case None => s)
    case Deliver(pk, timedOut, payloads) =>
      Install(peers, s, pk.to, Receive(s.nodes[pk.to], pk, timedOut, payloads),
              if pk.body.AppendEntries? then pk.body.term else 0)
  }

  ghost predicate Linked(peers: set<PeerId>, run: seq<State>, actions: seq<Action>, i: nat)
    requires |run| == |actions| + 1 && i < |actions|
  {
    Enabled(run[i], actions[i]) && run[i + 1] == Next(peers, run[i], actions[i])
  }

  /** A run: states linked by enabled actions, starting from a fresh cluster. */
  ghost predicate IsRun(peers: set<PeerId>, run: seq<State>, actions: seq<Action>) {
    && |run| == |actions| + 1
    && run[0] == Init(peers)
    && forall i :: 0 <= i < |actions| ==> Linked(peers, run, actions, i)
  }
}
