/** The follower's commit rule clamps the leader's commit index to the end of its own log
    rather than to the last entry the append carried.  Here is a run of three peers in which this
    alone makes two of them commit different entries at the same index. */
module CommitClamp {
  import opened Types
  import opened RaftLog
  import opened RaftNode
  import opened Cluster
  import opened ClusterScenario

  const TRIO: set<PeerId> := {1, 2, 3}

  function E(j: nat): Entry { Entry(1, j, if j == 1 then EMPTY_HASH else j) }

  function L(k: nat): (l: seq<Entry>)
    ensures |l| == k && forall i :: 0 <= i < k ==> l[i] == E(i + 1)
  {
    seq(k, i requires 0 <= i < k => E(i + 1))
  }

  /** The no-op that the leader of term 2 appends at index 6. */
  const OTHER: Entry := Entry(2, 6, EMPTY_HASH)

  function Nodes(a: Node, b: Node, c: Node): map<PeerId, Node> {
    map[1 := a, 2 := b, 3 := c]
  }

  function Peer(id: PeerId, term: nat, votedFor: Option<PeerId>, leader: Option<PeerId>, role: Role,
                votes: set<PeerId>, log: seq<Entry>, commit: nat, matched: map<PeerId, nat>): Node {
    Node(id, TRIO, term, votedFor, leader, role, votes, log, commit, matched, map[], Store([], None))
  }

  /** Peer 1 as leader of term 1 with k entries, peer 2 having acknowledged m of them. */
  function First(k: nat, commit: nat, m: nat): Node {
    Peer(1, 1, Some(1), Some(1), Leader, {1, 2}, L(k), commit, map[1 := k, 2 := m, 3 := 0])
  }

  /** Peer 2 following peer 1. */
  function Second(k: nat, commit: nat, leader: Option<PeerId>): Node {
    Peer(2, 1, Some(1), leader, Follower, {}, L(k), commit, map[])
  }

  const IDLE: Node := Peer(3, 0, None, None, Follower, {}, [], 0, map[])

  function Offer(k: nat): Packet {
    Packet(1, 2, AppendEntries(1, 1, k, if k == 0 then 0 else 1, [E(k + 1)], k), 0)
  }

  lemma TrioCount()
    ensures |TRIO| == 3 && |{1, 2}| == 2 && |{2, 3}| == 2
  {
  }

  /** The follower's copy grows by the offered entry. */
  lemma SecondAccepts(k: nat, commit: nat, leader: Option<PeerId>)
    requires commit <= k && (leader == None || leader == Some(1))
    ensures Answers(Second(k, commit, leader), Offer(k), Second(k + 1, k, Some(1)), Send(1, Ack(k + 1).body))
  {
    var n := Follow(Second(k, commit, leader), 1);
    assert FirstNew(n.log, k, [E(k + 1)]) == 0;
    assert Merge(n.log, k, [E(k + 1)]) == L(k + 1);
    assert Accepts(n, k, if k == 0 then 0 else 1, [E(k + 1)]);
    Follows(Second(k, commit, leader), Offer(k), n, L(k + 1));
  }

  /** The acknowledgement lets the leader commit. */
  lemma FirstCommits(k: nat)
    ensures var o := Receive(First(k + 1, k, k), Packet(2, 1, AppendEntriesResponse(1, true, k + 1), 1), false, Some(map[]));
      Core(o.node) == First(k + 1, k + 1, k + 1)
  {
    var n := First(k + 1, k, k + 1);
    assert Replicas(n, k + 1) == {1, 2};
    TrioCount();
    assert Committable(n, k + 1);
    assert First(k + 1, k, k).(matched := First(k + 1, k, k).matched[2 := k + 1]) == n;
  }

  // Moves: one action each, keeping track of at most one packet in flight.

  lemma TicksTo(cores: map<PeerId, Node>, pks: set<Packet>, m: Node, election: bool, heartbeat: bool, n: Node, e: Effect, pk: Packet)
    requires Reached(Refusals, TRIO, cores, pks) && m.id in TRIO && m.id in cores && cores[m.id] == m
    requires Beats(TRIO, m, election, heartbeat, n, e) && Carries(TRIO, m.id, e, 0, pk)
    ensures Reached(Refusals, TRIO, cores[m.id := n], {pk})
  {
    Ticks(Refusals, TRIO, cores, pks, m, election, heartbeat, n, e, pk);
    Forget(Refusals, TRIO, cores[m.id := n], pks + {pk}, {pk});
  }

  lemma CreatesTo(cores: map<PeerId, Node>, m: Node, hash: BlockHash, n: Node, e: Effect, pk: Packet)
    requires Reached(Refusals, TRIO, cores, {}) && m.id in TRIO && m.id in cores && cores[m.id] == m
    requires Proposes(m, hash, n, e) && Carries(TRIO, m.id, e, 0, pk)
    ensures Reached(Refusals, TRIO, cores[m.id := n], {pk})
  {
    Creates(Refusals, TRIO, cores, {}, m, hash, n, e, pk);
    Forget(Refusals, TRIO, cores[m.id := n], {} + {pk}, {pk});
  }

  lemma DeliversTo(cores: map<PeerId, Node>, pk: Packet, m: Node, n: Node, e: Effect, pk': Packet)
    requires Reached(Refusals, TRIO, cores, {pk}) && pk.to in TRIO && pk.to in cores && cores[pk.to] == m && Mild(Refusals, m, pk)
    requires Answers(m, pk, n, e) && Carries(TRIO, pk.to, e, About(pk), pk')
    ensures Reached(Refusals, TRIO, cores[pk.to := n], {pk'})
  {
    Delivers(Refusals, TRIO, cores, {pk}, pk, m, n, e, pk');
    Forget(Refusals, TRIO, cores[pk.to := n], {pk} + {pk'}, {pk'});
  }

  lemma DeliveredTo(cores: map<PeerId, Node>, pk: Packet, m: Node, n: Node)
    requires Reached(Refusals, TRIO, cores, {pk}) && pk.to in TRIO && pk.to in cores && cores[pk.to] == m && Mild(Refusals, m, pk)
    requires Core(Receive(m, pk, false, Some(map[])).node) == n
    ensures Reached(Refusals, TRIO, cores[pk.to := n], {})
  {
    Delivered(Refusals, TRIO, cores, {pk}, pk, m, n);
    Forget(Refusals, TRIO, cores[pk.to := n], {pk}, {});
  }

  lemma Swap1(a: Node, b: Node, c: Node, n: Node)
    ensures 1 in Nodes(a, b, c) && Nodes(a, b, c)[1] == a && Nodes(a, b, c)[1 := n] == Nodes(n, b, c)
  {
  }

  lemma Swap2(a: Node, b: Node, c: Node, n: Node)
    ensures 2 in Nodes(a, b, c) && Nodes(a, b, c)[2] == b && Nodes(a, b, c)[2 := n] == Nodes(a, n, c)
  {
  }

  lemma Swap3(a: Node, b: Node, c: Node, n: Node)
    ensures 3 in Nodes(a, b, c) && Nodes(a, b, c)[3] == c && Nodes(a, b, c)[3 := n] == Nodes(a, b, n)
  {
  }

  // Term 1: peer 1 is elected and replicates five entries to peer 2.

  lemma FirstOffers(k: nat)
    ensures Carries(TRIO, 1, AppendEffect(First(k + 1, k, k), 2), 0, Offer(k))
  {
    assert L(k + 1)[k..k + 1] == [E(k + 1)];
  }

  function Ack(k: nat): Packet {
    Packet(2, 1, AppendEntriesResponse(1, true, k), 1)
  }

  lemma SecondTakes(a: Node, k: nat, commit: nat, leader: Option<PeerId>)
    requires commit <= k && (leader == None || leader == Some(1))
    requires Reached(Refusals, TRIO, Nodes(a, Second(k, commit, leader), IDLE), {Offer(k)})
    ensures Reached(Refusals, TRIO, Nodes(a, Second(k + 1, k, Some(1)), IDLE), {Ack(k + 1)})
  {
    var b, b' := Second(k, commit, leader), Second(k + 1, k, Some(1));
    SecondAccepts(k, commit, leader);
    Swap2(a, b, IDLE, b');
    DeliversTo(Nodes(a, b, IDLE), Offer(k), b, b', Send(1, Ack(k + 1).body), Ack(k + 1));
  }

  lemma FirstHears(k: nat, b: Node)
    requires Reached(Refusals, TRIO, Nodes(First(k + 1, k, k), b, IDLE), {Ack(k + 1)})
    ensures Reached(Refusals, TRIO, Nodes(First(k + 1, k + 1, k + 1), b, IDLE), {})
  {
    var a, a' := First(k + 1, k, k), First(k + 1, k + 1, k + 1);
    FirstCommits(k);
    Swap1(a, b, IDLE, a');
    DeliveredTo(Nodes(a, b, IDLE), Ack(k + 1), a, a');
  }

  /** k entries held by both and committed by peer 1. */
  function Calm(k: nat): map<PeerId, Node>
    requires k >= 1
  {
    Nodes(First(k, k, k), Second(k, k - 1, Some(1)), IDLE)
  }

  /** The next entry offered. */
  function Busy(k: nat, commit: nat, leader: Option<PeerId>): map<PeerId, Node> {
    Nodes(First(k + 1, k, k), Second(k, commit, leader), IDLE)
  }

  /** Peer 2 takes the offered entry and its acknowledgement lets peer 1 commit it. */
  lemma HalfRound(k: nat, commit: nat, leader: Option<PeerId>)
    requires commit <= k && (leader == None || leader == Some(1))
    requires Reached(Refusals, TRIO, Busy(k, commit, leader), {Offer(k)})
    ensures Reached(Refusals, TRIO, Calm(k + 1), {})
  {
    SecondTakes(First(k + 1, k, k), k, commit, leader);
    FirstHears(k, Second(k + 1, k, Some(1)));
  }

  lemma FirstWaits(k: nat)
    ensures ScanCommit(First(k + 1, k, k), k + 1) == k
  {
    var n := First(k + 1, k, k);
    assert Replicas(n, k + 1) == {1};
    TrioCount();
    assert |{1}| == 1;
    assert !Committable(n, k + 1);
    assert ScanCommit(n, k) == k;
  }

  lemma FirstProposes(k: nat)
    requires k >= 1
    ensures Proposes(First(k, k, k), k + 1, First(k + 1, k, k), AppendEffect(First(k + 1, k, k), 2))
  {
    var n, n1 := First(k, k, k), First(k + 1, k, k);
    assert n.log[k - 1] == E(k);
    assert n.log + [E(k + 1)] == n1.log;
    assert n.matched[1 := k + 1] == n1.matched;
    var m := n.(log := n.log + [Entry(1, k + 1, k + 1)], matched := n.matched[1 := k + 1]);
    assert m == n1;
    FirstWaits(k);
  }

  lemma Proposed(k: nat)
    requires k >= 1 && Reached(Refusals, TRIO, Calm(k), {})
    ensures Reached(Refusals, TRIO, Busy(k, k - 1, Some(1)), {Offer(k)})
  {
    ProposedBeside(k, Second(k, k - 1, Some(1)));
  }

  /** Peer 1 proposes and its offer to peer 2 is `pk`. */
  ghost predicate Proposes1(a: Node, hash: BlockHash, a': Node, pk: Packet) {
    exists e :: Proposes(a, hash, a', e) && Carries(TRIO, 1, e, 0, pk) && a.id == 1
  }

  lemma FirstReady(k: nat)
    requires k >= 1
    ensures Proposes1(First(k, k, k), k + 1, First(k + 1, k, k), Offer(k))
  {
    FirstProposes(k);
    FirstOffers(k);
    assert Proposes(First(k, k, k), k + 1, First(k + 1, k, k), AppendEffect(First(k + 1, k, k), 2));
  }

  lemma ProposedBeside(k: nat, b: Node)
    requires k >= 1 && Reached(Refusals, TRIO, Nodes(First(k, k, k), b, IDLE), {})
    ensures Reached(Refusals, TRIO, Nodes(First(k + 1, k, k), b, IDLE), {Offer(k)})
  {
    FirstReady(k);
    Proposed1(First(k, k, k), b, k + 1, First(k + 1, k, k), Offer(k));
  }

  lemma Proposed1(a: Node, b: Node, hash: BlockHash, a': Node, pk: Packet)
    requires Reached(Refusals, TRIO, Nodes(a, b, IDLE), {}) && Proposes1(a, hash, a', pk)
    ensures Reached(Refusals, TRIO, Nodes(a', b, IDLE), {pk})
  {
    var e :| Proposes(a, hash, a', e) && Carries(TRIO, 1, e, 0, pk) && a.id == 1;
    Swap1(a, b, IDLE, a');
    CreatesTo(Nodes(a, b, IDLE), a, hash, a', e, pk);
  }

  lemma Accepted(k: nat)
    requires k >= 1 && Reached(Refusals, TRIO, Busy(k, k - 1, Some(1)), {Offer(k)})
    ensures Reached(Refusals, TRIO, Calm(k + 1), {})
  {
    HalfRound(k, k - 1, Some(1));
  }

  lemma Round(k: nat)
    requires k >= 1 && Reached(Refusals, TRIO, Calm(k), {})
    ensures Reached(Refusals, TRIO, Calm(k + 1), {})
  {
    Proposed(k);
    Accepted(k);
  }

  /** k rounds done. */
  ghost predicate Done(k: nat) {
    k >= 1 && Reached(Refusals, TRIO, Calm(k), {})
  }

  lemma NextRound(k: nat, k': nat)
    requires Done(k) && k' == k + 1
    ensures Done(k')
  {
    Round(k);
  }

  lemma AcceptedFirst(k: nat)
    requires Reached(Refusals, TRIO, Busy(k, k, None), {Offer(k)})
    ensures Done(k + 1)
  {
    HalfRound(k, k, None);
  }

  lemma FirstDone(k: nat)
    requires k == 1
    ensures Done(k)
  {
    Elected();
    AcceptedFirst(k - 1);
  }

  lemma {:induction false} Rounds(k: nat)
    requires k >= 1
    ensures Done(k)
  {
    if k == 1 {
      FirstDone(k);
    } else {
      Rounds(k - 1);
      NextRound(k - 1, k);
    }
  }

  /** A peer that has only learnt who the others are. */
  function Idle(id: PeerId): Node {
    Peer(id, 0, None, None, Follower, {}, [], 0, map[])
  }

  function Newborn(id: PeerId): Node {
    Fresh(id, Store([], None), 0)
  }

  const CANDIDATE: Node := Peer(1, 1, Some(1), None, Candidate, {1}, [], 0, map[])

  lemma NewbornTicks(id: PeerId)
    requires id in TRIO
    ensures var o := OnTick(Newborn(id), TRIO - {id}, false, false); Core(o.node) == Idle(id) && o.wire == {}
  {
    assert TRIO - {id} + {id} == TRIO;
  }

  const ASK1: Body := RequestVote(1, 1, 0, 0)
  const VOTE1: Body := RequestVoteResponse(1, true)

  lemma NewbornStands()
    ensures Beats(TRIO, Newborn(1), true, false, CANDIDATE, Broadcast(ASK1))
  {
    assert TRIO - {1} + {1} == TRIO;
    TrioCount();
    assert |{1}| == 1;
    assert Candidacy(UpdateParticipants(Newborn(1), TRIO - {1})) == CANDIDATE;
  }

  lemma Informed(cores: map<PeerId, Node>, p: PeerId)
    requires Reached(Refusals, TRIO, cores, {}) && p in TRIO && p in cores && cores[p] == Newborn(p)
    ensures Reached(Refusals, TRIO, cores[p := Idle(p)], {})
  {
    NewbornTicks(p);
    DoTick(Refusals, TRIO, cores, {}, p, false, false);
    Forget(Refusals, TRIO, cores[p := Idle(p)], {} + Packets(TRIO, p, {}, 0), {});
  }

  lemma Gathered()
    ensures Reached(Refusals, TRIO, Nodes(Newborn(1), Idle(2), IDLE), {})
  {
    ReachedStart(Refusals, TRIO);
    var a, b, c := Newborn(1), Newborn(2), Newborn(3);
    var cores := map p | p in TRIO :: Newborn(p);
    assert cores == Nodes(a, b, c);
    Swap2(a, b, c, Idle(2));
    Informed(Nodes(a, b, c), 2);
    Swap3(a, Idle(2), c, IDLE);
    Informed(Nodes(a, Idle(2), c), 3);
  }

  lemma SecondVotes()
    ensures Answers(Idle(2), Packet(1, 2, ASK1, 0), Second(0, 0, None), Send(1, VOTE1))
  {
  }

  lemma FirstWins()
    ensures Answers(CANDIDATE, Packet(2, 1, VOTE1, 0), First(1, 0, 0), AppendEffect(First(1, 0, 0), 2))
  {
    var n := CANDIDATE.(votes := CANDIDATE.votes + {2});
    assert n.votes == {1, 2};
    TrioCount();
    var m := Crown(n);
    var n1 := m.(log := m.log + [E(1)], matched := m.matched[1 := 1]);
    assert n1.matched == map[1 := 1, 2 := 0, 3 := 0];
    assert n1 == First(1, 0, 0);
    FirstWaits(0);
    Wins(CANDIDATE, 2, n1, 2);
  }

  lemma Stood()
    ensures Reached(Refusals, TRIO, Nodes(CANDIDATE, Idle(2), IDLE), {Packet(1, 2, ASK1, 0)})
  {
    Gathered();
    NewbornStands();
    Swap1(Newborn(1), Idle(2), IDLE, CANDIDATE);
    TicksTo(Nodes(Newborn(1), Idle(2), IDLE), {}, Newborn(1), true, false, CANDIDATE, Broadcast(ASK1), Packet(1, 2, ASK1, 0));
  }

  lemma Voted()
    ensures Reached(Refusals, TRIO, Nodes(CANDIDATE, Second(0, 0, None), IDLE), {Packet(2, 1, VOTE1, 0)})
  {
    Stood();
    SecondVotes();
    var b := Second(0, 0, None);
    Swap2(CANDIDATE, Idle(2), IDLE, b);
    DeliversTo(Nodes(CANDIDATE, Idle(2), IDLE), Packet(1, 2, ASK1, 0), Idle(2), b, Send(1, VOTE1), Packet(2, 1, VOTE1, 0));
  }

  lemma Elected()
    ensures Reached(Refusals, TRIO, Busy(0, 0, None), {Offer(0)})
  {
    Voted();
    FirstWins();
    FirstOffers(0);
    var a, b := First(1, 0, 0), Second(0, 0, None);
    Swap1(CANDIDATE, b, IDLE, a);
    DeliversTo(Nodes(CANDIDATE, b, IDLE), Packet(2, 1, VOTE1, 0), CANDIDATE, a, AppendEffect(a, 2), Offer(0));
  }

  // Term 2: peer 2 is elected by peer 3 while peer 1 holds an entry nobody else has.

  const STALE: Node := First(6, 5, 5)
  const STANDING: Node := Peer(2, 2, Some(2), None, Candidate, {2}, L(5), 4, map[])
  const ASK2: Packet := Packet(2, 3, RequestVote(2, 2, 5, 1), 0)
  const VOTE2: Packet := Packet(3, 2, RequestVoteResponse(2, true), 0)

  function Rival(commit: nat, m: nat): Node {
    Peer(2, 2, Some(2), Some(2), Leader, {2, 3}, L(5) + [OTHER], commit, map[1 := 0, 2 := 6, 3 := m])
  }

  function Third(log: seq<Entry>, commit: nat, leader: Option<PeerId>): Node {
    Peer(3, 2, Some(2), leader, Follower, {}, log, commit, map[])
  }

  lemma SecondStands()
    ensures Beats(TRIO, Second(5, 4, Some(1)), true, false, STANDING, Broadcast(ASK2.body))
  {
    assert TRIO - {2} + {2} == TRIO;
    TrioCount();
    assert |{2}| == 1;
    assert Candidacy(UpdateParticipants(Second(5, 4, Some(1)), TRIO - {2})) == STANDING;
    assert STANDING.log[4] == E(5);
  }

  lemma ThirdVotes()
    ensures Answers(IDLE, ASK2, Third([], 0, None), Send(2, VOTE2.body))
  {
  }

  lemma RivalScans(m: nat)
    requires m <= 5
    ensures ScanCommit(Rival(4, m), 6) == 4
  {
    var n := Rival(4, m);
    TrioCount();
    assert Replicas(n, 6) == {2};
    assert |{2}| == 1;
    assert !Committable(n, 6);
    assert n.log[4] == E(5);
    assert !Committable(n, 5);
    assert ScanCommit(n, 5) == ScanCommit(n, 4) == 4;
  }

  /** The first five entries, with the commit index of the time. */
  function Batch(to: PeerId, commit: nat): Packet {
    Packet(2, to, AppendEntries(2, 2, 0, 0, L(5), commit), 0)
  }

  lemma RivalOffers(commit: nat, m: nat, q: PeerId)
    requires q == 1 || (q == 3 && m == 0)
    ensures Carries(TRIO, 2, AppendEffect(Rival(commit, m), q), 0, Batch(q, commit))
  {
    assert (L(5) + [OTHER])[0..5] == L(5);
  }

  lemma RivalWins()
    ensures Answers(STANDING, VOTE2, Rival(4, 0), AppendEffect(Rival(4, 0), 3))
  {
    var n := STANDING.(votes := STANDING.votes + {3});
    assert n.votes == {2, 3};
    TrioCount();
    var m := Crown(n);
    assert LastIndex(m.log) == 5;
    var n1 := m.(log := m.log + [OTHER], matched := m.matched[2 := 6]);
    assert n1.matched == map[1 := 0, 2 := 6, 3 := 0];
    assert n1 == Rival(4, 0);
    RivalScans(0);
    Wins(STANDING, 3, n1, 3);
  }

  function Copy(k: nat): Packet {
    Packet(3, 2, AppendEntriesResponse(2, true, k), 2)
  }

  lemma ThirdCopies()
    ensures Answers(Third([], 0, None), Batch(3, 4), Third(L(5), 4, Some(2)), Send(2, Copy(5).body))
  {
    var n := Third([], 0, Some(2));
    assert FirstNew(n.log, 0, L(5)) == 0;
    assert Merge(n.log, 0, L(5)) == L(5);
    assert Accepts(n, 0, 0, L(5));
    assert L(5)[4] == E(5);
    Follows(Third([], 0, None), Batch(3, 4), n, L(5));
  }

  lemma RivalCounts()
    ensures Core(Receive(Rival(4, 0), Copy(5), false, Some(map[])).node) == Rival(4, 5)
  {
    assert Rival(4, 0).(matched := Rival(4, 0).matched[3 := 5]) == Rival(4, 5);
    RivalScans(5);
  }

  lemma RivalBeats(commit: nat, m: nat, q: PeerId)
    requires q == 1 || q == 3
    ensures Beats(TRIO, Rival(commit, m), false, true, Rival(commit, m), AppendEffect(Rival(commit, m), q))
  {
    assert TRIO - {2} + {2} == TRIO;
    assert {2, 3} * TRIO == {2, 3};
    var n := Rival(commit, m);
    assert UpdateParticipants(n, TRIO - {2}).matched == n.matched;
    assert UpdateParticipants(n, TRIO - {2}) == n;
  }

  const TAIL: Packet := Packet(2, 3, AppendEntries(2, 2, 5, 1, [OTHER], 4), 0)

  lemma RivalExtends()
    ensures Carries(TRIO, 2, AppendEffect(Rival(4, 5), 3), 0, TAIL)
  {
    assert (L(5) + [OTHER])[5..6] == [OTHER];
    assert L(5)[4] == E(5);
  }

  lemma ThirdExtends()
    ensures Answers(Third(L(5), 4, Some(2)), TAIL, Third(L(5) + [OTHER], 4, Some(2)), Send(2, Copy(6).body))
  {
    var n := Third(L(5), 4, Some(2));
    assert n.log[4] == E(5);
    assert FirstNew(n.log, 5, [OTHER]) == 0;
    assert Merge(n.log, 5, [OTHER]) == L(5) + [OTHER];
    assert Accepts(n, 5, 1, [OTHER]);
    Follows(n, TAIL, n, L(5) + [OTHER]);
  }

  lemma RivalCommits()
    ensures Core(Receive(Rival(4, 5), Copy(6), false, Some(map[])).node) == Rival(6, 6)
  {
    var n := Rival(4, 6);
    assert Rival(4, 5).(matched := Rival(4, 5).matched[3 := 6]) == n;
    assert Replicas(n, 6) == {2, 3};
    TrioCount();
    assert Committable(n, 6);
  }

  /** Nothing in the batch is new to a log that already holds it. */
  lemma {:induction false} KnownBatch(log: seq<Entry>, entries: seq<Entry>, k: nat)
    requires k <= |entries| && entries <= log
    ensures NewFrom(log, 0, entries, k) == |entries|
    decreases |entries| - k
  {
    if k < |entries| {
      assert log[k] == entries[k];
      KnownBatch(log, entries, k + 1);
    }
  }

  const MISLED: Node := Peer(1, 2, None, Some(2), Follower, {}, L(6), 6, map[1 := 6, 2 := 5, 3 := 0])

  lemma FirstMisled()
    ensures Core(Receive(STALE, Batch(1, 6), false, Some(map[])).node) == MISLED
  {
    var n := MISLED.(commit := 5);
    assert Follow(StepDownOnNewer(STALE, 2), 2) == n;
    assert L(5) <= L(6);
    KnownBatch(L(6), L(5), 0);
    assert Accepts(n, 0, 0, L(5));
    assert Merge(n.log, 0, L(5)) == L(6);
    assert L(6)[5] == E(6);
    Follows(STALE, Batch(1, 6), n, L(6));
  }

  lemma Stranded()
    ensures Reached(Refusals, TRIO, Nodes(STALE, Second(5, 4, Some(1)), IDLE), {Offer(5)})
  {
    Rounds(5);
    Proposed(5);
  }

  lemma StoodAgain()
    ensures Reached(Refusals, TRIO, Nodes(STALE, STANDING, IDLE), {ASK2})
  {
    Stranded();
    SecondStands();
    var b := Second(5, 4, Some(1));
    Swap2(STALE, b, IDLE, STANDING);
    TicksTo(Nodes(STALE, b, IDLE), {Offer(5)}, b, true, false, STANDING, Broadcast(ASK2.body), ASK2);
  }

  lemma VotedAgain()
    ensures Reached(Refusals, TRIO, Nodes(STALE, STANDING, Third([], 0, None)), {VOTE2})
  {
    StoodAgain();
    ThirdVotes();
    var c := Third([], 0, None);
    Swap3(STALE, STANDING, IDLE, c);
    DeliversTo(Nodes(STALE, STANDING, IDLE), ASK2, IDLE, c, Send(2, VOTE2.body), VOTE2);
  }

  lemma Overtaken()
    ensures Reached(Refusals, TRIO, Nodes(STALE, Rival(4, 0), Third([], 0, None)), {Batch(3, 4)})
  {
    VotedAgain();
    RivalWins();
    var b, c := Rival(4, 0), Third([], 0, None);
    RivalOffers(4, 0, 3);
    Swap2(STALE, STANDING, c, b);
    DeliversTo(Nodes(STALE, STANDING, c), VOTE2, STANDING, b, AppendEffect(b, 3), Batch(3, 4));
  }

  lemma Copied()
    ensures Reached(Refusals, TRIO, Nodes(STALE, Rival(4, 0), Third(L(5), 4, Some(2))), {Copy(5)})
  {
    Overtaken();
    ThirdCopies();
    var b, c, c' := Rival(4, 0), Third([], 0, None), Third(L(5), 4, Some(2));
    Swap3(STALE, b, c, c');
    DeliversTo(Nodes(STALE, b, c), Batch(3, 4), c, c', Send(2, Copy(5).body), Copy(5));
  }

  lemma Counted()
    ensures Reached(Refusals, TRIO, Nodes(STALE, Rival(4, 5), Third(L(5), 4, Some(2))), {})
  {
    Copied();
    RivalCounts();
    var b, b', c := Rival(4, 0), Rival(4, 5), Third(L(5), 4, Some(2));
    Swap2(STALE, b, c, b');
    DeliveredTo(Nodes(STALE, b, c), Copy(5), b, b');
  }

  lemma TailSent()
    ensures Reached(Refusals, TRIO, Nodes(STALE, Rival(4, 5), Third(L(5), 4, Some(2))), {TAIL})
  {
    Counted();
    var b, c := Rival(4, 5), Third(L(5), 4, Some(2));
    RivalBeats(4, 5, 3);
    RivalExtends();
    Swap2(STALE, b, c, b);
    TicksTo(Nodes(STALE, b, c), {}, b, false, true, b, AppendEffect(b, 3), TAIL);
  }

  lemma TailCopied()
    ensures Reached(Refusals, TRIO, Nodes(STALE, Rival(4, 5), Third(L(5) + [OTHER], 4, Some(2))), {Copy(6)})
  {
    TailSent();
    ThirdExtends();
    var b, c, c' := Rival(4, 5), Third(L(5), 4, Some(2)), Third(L(5) + [OTHER], 4, Some(2));
    Swap3(STALE, b, c, c');
    DeliversTo(Nodes(STALE, b, c), TAIL, c, c', Send(2, Copy(6).body), Copy(6));
  }

  lemma Decided()
    ensures Reached(Refusals, TRIO, Nodes(STALE, Rival(6, 6), Third(L(5) + [OTHER], 4, Some(2))), {})
  {
    TailCopied();
    RivalCommits();
    var b, b', c := Rival(4, 5), Rival(6, 6), Third(L(5) + [OTHER], 4, Some(2));
    Swap2(STALE, b, c, b');
    DeliveredTo(Nodes(STALE, b, c), Copy(6), b, b');
  }

  lemma StaleOffered()
    ensures Reached(Refusals, TRIO, Nodes(STALE, Rival(6, 6), Third(L(5) + [OTHER], 4, Some(2))), {Batch(1, 6)})
  {
    Decided();
    RivalBeats(6, 6, 1);
    RivalOffers(6, 6, 1);
    var b, c := Rival(6, 6), Third(L(5) + [OTHER], 4, Some(2));
    Swap2(STALE, b, c, b);
    TicksTo(Nodes(STALE, b, c), {}, b, false, true, b, AppendEffect(b, 1), Batch(1, 6));
  }

  lemma Diverged()
    ensures Reached(Refusals, TRIO, Nodes(MISLED, Rival(6, 6), Third(L(5) + [OTHER], 4, Some(2))), {})
  {
    StaleOffered();
    FirstMisled();
    var b, c := Rival(6, 6), Third(L(5) + [OTHER], 4, Some(2));
    Swap1(STALE, b, c, MISLED);
    DeliveredTo(Nodes(STALE, b, c), Batch(1, 6), STALE, MISLED);
  }

  /** Without a bound on the clamp agreement fails, even if no leader ever records a stale refusal:
      a run of three peers after which two of them have committed different entries at index 6. */
  lemma CommittedLogsCanDiverge()
    ensures exists run: seq<State>, actions: seq<Action> ::
      CarefulRun(Refusals, TRIO, run, actions) && Disagree(run[|actions|], 1, 2, 5)
  {
    Diverged();
    var cores := Nodes(MISLED, Rival(6, 6), Third(L(5) + [OTHER], 4, Some(2)));
    var run: seq<State>, actions: seq<Action> :| CarefulRun(Refusals, TRIO, run, actions) && Shows(TRIO, run[|actions|], cores, {});
    assert MISLED.log[5] == E(6) && Rival(6, 6).log[5] == OTHER;
    ShowsDisagreement(TRIO, run[|actions|], cores, {}, 1, 2, 5);
  }
}
