/** Machinery for exhibiting concrete runs of the cluster. */
module ClusterScenario {
  import opened Types
  import opened RaftLog
  import opened RaftNode
  import opened Cluster
  import opened Prudence

  /** A node without its payload table and store, which no decision depends on. */
  function Core(n: Node): Node {
    n.(pending := map[], store := Store([], None))
  }

  /** Same decisions, same messages. */
  ghost predicate Alike(o: Outcome, o': Outcome) {
    Core(o.node) == Core(o'.node) && o.wire == o'.wire
  }

  lemma CoreAppendOwn(n: Node, hash: BlockHash)
    ensures Alike(AppendOwn(n, hash), AppendOwn(Core(n), hash))
  {
    var e := Entry(n.term, LastIndex(n.log) + 1, hash);
    var n1 := n.(log := n.log + [e], matched := n.matched[n.id := e.index]);
    CoreScan(n1, |n1.log|);
    CoreFollowerAppends(n1);
  }

  lemma {:induction false} CoreScan(n: Node, i: nat)
    requires i <= |n.log|
    ensures ScanCommit(Core(n), i) == ScanCommit(n, i)
  {
    if i > n.commit {
      assert Replicas(Core(n), i) == Replicas(n, i);
      if !Committable(n, i) {
        CoreScan(n, i - 1);
      }
    }
  }

  lemma CoreFollowerAppends(n: Node)
    ensures FollowerAppends(Core(n)) == FollowerAppends(n)
  {
    assert forall q :: AppendEffect(Core(n), q) == AppendEffect(n, q);
  }

  lemma CoreUpdate(n: Node, known: set<PeerId>)
    ensures UpdateParticipants(Core(n), known) == Core(UpdateParticipants(n, known))
  {
  }

  lemma CoreCandidacy(n: Node)
    ensures BecomeLeaderIfMajority(Candidacy(Core(n))) == Core(BecomeLeaderIfMajority(Candidacy(n)))
  {
  }

  lemma CoreTick(n: Node, known: set<PeerId>, electionDue: bool, heartbeatDue: bool)
    ensures Alike(OnTick(n, known, electionDue, heartbeatDue), OnTick(Core(n), known, electionDue, heartbeatDue))
  {
    CoreUpdate(n, known);
    var n0 := UpdateParticipants(n, known);
    CoreCandidacy(n0);
    CoreFollowerAppends(n0);
    CoreAppendOwn(BecomeLeaderIfMajority(Candidacy(n0)), EMPTY_HASH);
  }

  lemma CoreBlocked(n: Node)
    ensures HasUncommittedBlock(n) == HasUncommittedBlock(Core(n))
  {
    if HasUncommittedBlock(n) {
      var k :| 0 <= k < |n.log| && n.log[k].index > n.commit && !n.log[k].IsNoop();
      assert !Core(n).log[k].IsNoop();
    }
  }

  lemma CoreVoteResponse(n: Node, term: nat, voter: PeerId, granted: bool)
    ensures Alike(OnRequestVoteResponse(n, term, voter, granted), OnRequestVoteResponse(Core(n), term, voter, granted))
  {
    CoreAppendOwn(BecomeLeaderIfMajority(n.(votes := n.votes + {voter})), EMPTY_HASH);
  }

  lemma CoreAppendResponse(n: Node, term: nat, from: PeerId, success: bool, matchIndex: nat)
    ensures Alike(OnAppendEntriesResponse(n, term, from, success, matchIndex), OnAppendEntriesResponse(Core(n), term, from, success, matchIndex))
  {
    var previous := if from in n.matched then n.matched[from] else 0;
    CoreScan(n.(matched := n.matched[from := Max(previous, matchIndex)]), |n.log|);
  }

  lemma CoreAppend(n: Node, r: AppendRequest, checked: Result<Validated>, timedOut: bool)
    ensures Alike(OnAppendEntries(n, r, checked, timedOut), OnAppendEntries(Core(n), r, checked, timedOut))
  {
    var n1 := Follow(StepDownOnNewer(n, r.term), r.leader);
    assert Follow(StepDownOnNewer(Core(n), r.term), r.leader) == Core(n1);
    if checked.Ok? {
      CoreCheckedAppend(n1, r, checked.value);
    }
  }

  lemma CoreCheckedAppend(n: Node, r: AppendRequest, v: Validated)
    ensures Alike(OnCheckedAppend(n, r, v), OnCheckedAppend(Core(n), r, v))
  {
    assert Accepts(Core(n), r.prevIndex, r.prevTerm, v.entries) == Accepts(n, r.prevIndex, r.prevTerm, v.entries);
    if Accepts(n, r.prevIndex, r.prevTerm, v.entries) {
      assert Appended(Core(n), r.prevIndex, r.prevTerm, v.entries, r.leaderCommit)
          == Core(Appended(n, r.prevIndex, r.prevTerm, v.entries, r.leaderCommit));
    }
  }

  lemma CoreReceive(n: Node, pk: Packet, timedOut: bool, payloads: Option<map<BlockHash, BlockFile>>)
    ensures Alike(Receive(n, pk, timedOut, payloads), Receive(Core(n), pk, timedOut, payloads))
  {
    match pk.body
    case RequestVoteResponse(term, granted) => CoreVoteResponse(n, term, pk.from, granted);
    case AppendEntries(term, leader, pi, pt, entries, lc) =>
      CoreAppend(n, AppendRequest(term, leader, pi, pt, lc, pk.from), Check(entries, payloads), timedOut);
    case AppendEntriesResponse(term, success, mi) => CoreAppendResponse(n, term, pk.from, success, mi);
    case _ =>
  }

  // ------------------------------------------------------------------- runs

  /** Which of the two agreement hypotheses a run observes. */
  datatype Care = Batches | Refusals

  ghost predicate Observes(care: Care, s: State, a: Action)
    requires Enabled(s, a)
  {
    match care
    case Batches => WithinBatch(s, a)
    case Refusals => CurrentRefusal(s, a)
  }

  ghost predicate ObservedAt(care: Care, peers: set<PeerId>, run: seq<State>, actions: seq<Action>, i: nat)
    requires |run| == |actions| + 1 && i < |actions|
  {
    Linked(peers, run, actions, i) && Observes(care, run[i], actions[i])
  }

  ghost predicate CarefulRun(care: Care, peers: set<PeerId>, run: seq<State>, actions: seq<Action>) {
    IsRun(peers, run, actions) && forall i :: 0 <= i < |actions| ==> ObservedAt(care, peers, run, actions, i)
  }

  /** Some careful run ends with these node cores and has put at least these packets on the wire. */
  ghost predicate Reached(care: Care, peers: set<PeerId>, cores: map<PeerId, Node>, pks: set<Packet>) {
    exists run: seq<State>, actions: seq<Action> :: CarefulRun(care, peers, run, actions) && Shows(peers, run[|actions|], cores, pks)
  }

  function Cores(s: State): map<PeerId, Node> {
    map p | p in s.nodes :: Core(s.nodes[p])
  }

  ghost predicate Shows(peers: set<PeerId>, s: State, cores: map<PeerId, Node>, pks: set<Packet>) {
    s.nodes.Keys == peers && Cores(s) == cores && pks <= s.net
  }

  lemma ReachedStart(care: Care, peers: set<PeerId>)
    ensures Reached(care, peers, map p | p in peers :: Fresh(p, Store([], None), 0), {})
  {
    var cores := map p | p in peers :: Fresh(p, Store([], None), 0);
    var run, actions: seq<Action> := [Init(peers)], [];
    assert CarefulRun(care, peers, run, actions);
    assert Shows(peers, run[|actions|], cores, {});
  }

  lemma ExtendRun(care: Care, peers: set<PeerId>, run: seq<State>, actions: seq<Action>, a: Action)
    requires CarefulRun(care, peers, run, actions) && Enabled(run[|actions|], a) && Observes(care, run[|actions|], a)
    ensures CarefulRun(care, peers, run + [Next(peers, run[|actions|], a)], actions + [a])
  {
    var run' := run + [Next(peers, run[|actions|], a)];
    var actions' := actions + [a];
    forall i | 0 <= i < |actions'| ensures Linked(peers, run', actions', i) && ObservedAt(care, peers, run', actions', i) {
      assert run'[i] == run[i];
      if i < |actions| {
        assert ObservedAt(care, peers, run, actions, i);
      }
    }
  }

  lemma ReachedNext(care: Care, peers: set<PeerId>, run: seq<State>, actions: seq<Action>, a: Action, cores: map<PeerId, Node>, pks: set<Packet>)
    requires CarefulRun(care, peers, run, actions) && Enabled(run[|actions|], a) && Observes(care, run[|actions|], a)
    requires Shows(peers, Next(peers, run[|actions|], a), cores, pks)
    ensures Reached(care, peers, cores, pks)
  {
    ExtendRun(care, peers, run, actions, a);
    var run' := run + [Next(peers, run[|actions|], a)];
    var actions' := actions + [a];
    assert run'[|actions'|] == Next(peers, run[|actions|], a);
  }

  lemma ShowsInstall(peers: set<PeerId>, s: State, cores: map<PeerId, Node>, pks: set<Packet>, p: PeerId, o: Outcome, o': Outcome, about: nat)
    requires Shows(peers, s, cores, pks) && p in peers && Alike(o, o')
    ensures Shows(peers, Install(peers, s, p, o, about), cores[p := Core(o'.node)], pks + Packets(peers, p, o'.wire, about))
  {
    assert Cores(Install(peers, s, p, o, about)) == cores[p := Core(o'.node)];
  }

  lemma DoTick(care: Care, peers: set<PeerId>, cores: map<PeerId, Node>, pks: set<Packet>, p: PeerId, electionDue: bool, heartbeatDue: bool)
    requires Reached(care, peers, cores, pks) && p in peers && p in cores
    ensures var o := OnTick(cores[p], peers - {p}, electionDue, heartbeatDue);
      Reached(care, peers, cores[p := Core(o.node)], pks + Packets(peers, p, o.wire, 0))
  {
    var run: seq<State>, actions: seq<Action> :| CarefulRun(care, peers, run, actions) && Shows(peers, run[|actions|], cores, pks);
    var s := run[|actions|];
    CoreTick(s.nodes[p], peers - {p}, electionDue, heartbeatDue);
    var o := OnTick(cores[p], peers - {p}, electionDue, heartbeatDue);
    ShowsInstall(peers, s, cores, pks, p, OnTick(s.nodes[p], peers - {p}, electionDue, heartbeatDue), o, 0);
    ReachedNext(care, peers, run, actions, Tick(p, electionDue, heartbeatDue), cores[p := Core(o.node)], pks + Packets(peers, p, o.wire, 0));
  }

  lemma NextCreateBlock(peers: set<PeerId>, s: State, p: PeerId, hash: BlockHash)
    requires p in s.nodes && s.nodes[p].role == Leader && !HasUncommittedBlock(s.nodes[p])
    ensures Next(peers, s, CreateBlock(p, hash)) == Install(peers, s, p, AppendOwn(s.nodes[p], hash), 0)
  {
    assert OnBlockCreated(s.nodes[p], hash) == Some(AppendOwn(s.nodes[p], hash));
  }

  lemma DoCreateBlock(care: Care, peers: set<PeerId>, cores: map<PeerId, Node>, pks: set<Packet>, p: PeerId, hash: BlockHash)
    requires Reached(care, peers, cores, pks) && p in peers && p in cores
    requires cores[p].role == Leader && !HasUncommittedBlock(cores[p])
    ensures var o := AppendOwn(cores[p], hash);
      Reached(care, peers, cores[p := Core(o.node)], pks + Packets(peers, p, o.wire, 0))
  {
    var run: seq<State>, actions: seq<Action> :| CarefulRun(care, peers, run, actions) && Shows(peers, run[|actions|], cores, pks);
    var s := run[|actions|];
    var n := s.nodes[p];
    CoreBlocked(n);
    NextCreateBlock(peers, s, p, hash);
    CoreAppendOwn(n, hash);
    var o := AppendOwn(cores[p], hash);
    ShowsInstall(peers, s, cores, pks, p, AppendOwn(n, hash), o, 0);
    ReachedNext(care, peers, run, actions, CreateBlock(p, hash), cores[p := Core(o.node)], pks + Packets(peers, p, o.wire, 0));
  }

  /** The hypothesis, as the receiver's core can tell it. */
  ghost predicate Mild(care: Care, m: Node, pk: Packet) {
    match care
    case Batches => pk.body.AppendEntries? ==> !(Admits(m, pk.body.term, pk.body.leader, pk.from, false) && Overreaches(m, pk.body))
    case Refusals => pk.body.AppendEntriesResponse? ==> pk.body.success
  }

  lemma MildObserves(care: Care, s: State, pk: Packet)
    requires pk in s.net && pk.to in s.nodes && Mild(care, Core(s.nodes[pk.to]), pk)
    ensures Observes(care, s, Deliver(pk, false, Some(map[])))
  {
  }

  function About(pk: Packet): nat {
    if pk.body.AppendEntries? then pk.body.term else 0
  }

  /** Delivery of a packet on the wire. */
  lemma DoDeliver(care: Care, peers: set<PeerId>, cores: map<PeerId, Node>, pks: set<Packet>, pk: Packet)
    requires Reached(care, peers, cores, pks) && pk in pks && pk.to in peers && pk.to in cores && Mild(care, cores[pk.to], pk)
    ensures var o := Receive(cores[pk.to], pk, false, Some(map[]));
      Reached(care, peers, cores[pk.to := Core(o.node)], pks + Packets(peers, pk.to, o.wire, About(pk)))
  {
    var run: seq<State>, actions: seq<Action> :| CarefulRun(care, peers, run, actions) && Shows(peers, run[|actions|], cores, pks);
    var s := run[|actions|];
    MildObserves(care, s, pk);
    CoreReceive(s.nodes[pk.to], pk, false, Some(map[]));
    var o := Receive(cores[pk.to], pk, false, Some(map[]));
    ShowsInstall(peers, s, cores, pks, pk.to, Receive(s.nodes[pk.to], pk, false, Some(map[])), o, About(pk));
    ReachedNext(care, peers, run, actions, Deliver(pk, false, Some(map[])), cores[pk.to := Core(o.node)], pks + Packets(peers, pk.to, o.wire, About(pk)));
  }

  /** Forgetting packets. */
  lemma Forget(care: Care, peers: set<PeerId>, cores: map<PeerId, Node>, pks: set<Packet>, fewer: set<Packet>)
    requires Reached(care, peers, cores, pks) && fewer <= pks
    ensures Reached(care, peers, cores, fewer)
  {
    var run: seq<State>, actions: seq<Action> :| CarefulRun(care, peers, run, actions) && Shows(peers, run[|actions|], cores, pks);
    assert Shows(peers, run[|actions|], cores, fewer);
  }

  // ------------------------------------------------------------------ moves

  /** What one delivery does to the receiver, and one of the messages it sends in return. */
  ghost predicate Answers(m: Node, pk: Packet, n: Node, e: Effect) {
    var o := Receive(m, pk, false, Some(map[]));
    Core(o.node) == n && e in o.wire
  }

  ghost predicate Beats(peers: set<PeerId>, m: Node, election: bool, heartbeat: bool, n: Node, e: Effect) {
    var o := OnTick(m, peers - {m.id}, election, heartbeat);
    Core(o.node) == n && e in o.wire
  }

  ghost predicate Proposes(m: Node, hash: BlockHash, n: Node, e: Effect) {
    && m.role == Leader && !HasUncommittedBlock(m)
    && var o := AppendOwn(m, hash); Core(o.node) == n && e in o.wire
  }

  ghost predicate Carries(peers: set<PeerId>, p: PeerId, e: Effect, about: nat, pk: Packet) {
    pk.to in peers && Addressed(e, p, pk.to) && pk == Packet(p, pk.to, WireBody(e, p), about)
  }

  lemma Wired(peers: set<PeerId>, id: PeerId, wire: set<Effect>, about: nat, e: Effect, q: PeerId)
    requires e in wire && q in peers && Addressed(e, id, q)
    ensures Packet(id, q, WireBody(e, id), about) in Packets(peers, id, wire, about)
  {
  }

  /** The actor's outcome takes effect; of what it sends only `pk` is kept track of. */
  lemma Emits(care: Care, peers: set<PeerId>, cores: map<PeerId, Node>, pks: set<Packet>, p: PeerId, o: Outcome, about: nat, e: Effect, pk: Packet)
    requires Reached(care, peers, cores[p := Core(o.node)], pks + Packets(peers, p, o.wire, about))
    requires e in o.wire && Carries(peers, p, e, about, pk)
    ensures Reached(care, peers, cores[p := Core(o.node)], pks + {pk})
  {
    Wired(peers, p, o.wire, about, e, pk.to);
    Forget(care, peers, cores[p := Core(o.node)], pks + Packets(peers, p, o.wire, about), pks + {pk});
  }

  lemma Ticks(care: Care, peers: set<PeerId>, cores: map<PeerId, Node>, pks: set<Packet>, m: Node, election: bool, heartbeat: bool, n: Node, e: Effect, pk: Packet)
    requires Reached(care, peers, cores, pks) && m.id in peers && m.id in cores && cores[m.id] == m
    requires Beats(peers, m, election, heartbeat, n, e) && Carries(peers, m.id, e, 0, pk)
    ensures Reached(care, peers, cores[m.id := n], pks + {pk})
  {
    var o := OnTick(m, peers - {m.id}, election, heartbeat);
    DoTick(care, peers, cores, pks, m.id, election, heartbeat);
    Emits(care, peers, cores, pks, m.id, o, 0, e, pk);
  }

  lemma Creates(care: Care, peers: set<PeerId>, cores: map<PeerId, Node>, pks: set<Packet>, m: Node, hash: BlockHash, n: Node, e: Effect, pk: Packet)
    requires Reached(care, peers, cores, pks) && m.id in peers && m.id in cores && cores[m.id] == m
    requires Proposes(m, hash, n, e) && Carries(peers, m.id, e, 0, pk)
    ensures Reached(care, peers, cores[m.id := n], pks + {pk})
  {
    var o := AppendOwn(m, hash);
    DoCreateBlock(care, peers, cores, pks, m.id, hash);
    Emits(care, peers, cores, pks, m.id, o, 0, e, pk);
  }

  lemma Delivers(care: Care, peers: set<PeerId>, cores: map<PeerId, Node>, pks: set<Packet>, pk: Packet, m: Node, n: Node, e: Effect, pk': Packet)
    requires Reached(care, peers, cores, pks) && pk in pks && pk.to in peers && pk.to in cores && cores[pk.to] == m && Mild(care, m, pk)
    requires Answers(m, pk, n, e) && Carries(peers, pk.to, e, About(pk), pk')
    ensures Reached(care, peers, cores[pk.to := n], pks + {pk'})
  {
    var o := Receive(m, pk, false, Some(map[]));
    DoDeliver(care, peers, cores, pks, pk);
    Emits(care, peers, cores, pks, pk.to, o, About(pk), e, pk');
  }

  /** The same when what the receiver sends does not matter. */
  lemma Delivered(care: Care, peers: set<PeerId>, cores: map<PeerId, Node>, pks: set<Packet>, pk: Packet, m: Node, n: Node)
    requires Reached(care, peers, cores, pks) && pk in pks && pk.to in peers && pk.to in cores && cores[pk.to] == m && Mild(care, m, pk)
    requires Core(Receive(m, pk, false, Some(map[])).node) == n
    ensures Reached(care, peers, cores[pk.to := n], pks)
  {
    var o := Receive(m, pk, false, Some(map[]));
    DoDeliver(care, peers, cores, pks, pk);
    Forget(care, peers, cores[pk.to := n], pks + Packets(peers, pk.to, o.wire, About(pk)), pks);
  }

  /** What an acceptable append does to a follower, as far as its core and its reply go. */
  lemma Follows(n: Node, pk: Packet, n1: Node, log: seq<Entry>)
    requires pk.body.AppendEntries? && n == Core(n)
    requires var b := pk.body;
      && Admits(n, b.term, b.leader, pk.from, false) && n1 == Follow(StepDownOnNewer(n, b.term), b.leader)
      && Accepts(n1, b.prevIndex, b.prevTerm, b.entries) && log == Merge(n1.log, b.prevIndex, b.entries)
    ensures var b := pk.body; var o := Receive(n, pk, false, Some(map[]));
      && Core(o.node) == n1.(log := log, commit := Max(n1.commit, Min(b.leaderCommit, LastIndex(log))))
      && o.wire == {Send(pk.from, AppendEntriesResponse(n1.term, true, if b.entries == [] then b.prevIndex else b.entries[|b.entries| - 1].index))}
  {
  }

  /** The deciding vote: the candidate takes office, appends its no-op and offers it. */
  lemma WinsOffice(n: Node, voter: PeerId, n1: Node)
    requires n == Core(n) && n.role == Candidate && voter in n.participants
    requires var c := Crown(n.(votes := n.votes + {voter})); var i := LastIndex(n.log) + 1;
      |c.votes| >= Majority(n) && n1 == c.(log := n.log + [Entry(n.term, i, EMPTY_HASH)], matched := c.matched[n.id := i])
    requires ScanCommit(n1, |n1.log|) == n1.commit
    ensures var o := Receive(n, Packet(voter, n.id, RequestVoteResponse(n.term, true), 0), false, Some(map[]));
      Core(o.node) == n1 && o.wire == FollowerAppends(n1)
  {
    var c := BecomeLeaderIfMajority(n.(votes := n.votes + {voter}));
    assert c == Crown(n.(votes := n.votes + {voter}));
    assert Core(AppendOwn(c, EMPTY_HASH).node) == n1;
  }

  lemma Wins(n: Node, voter: PeerId, n1: Node, q: PeerId)
    requires n == Core(n) && n.role == Candidate && voter in n.participants && q in n.participants && q != n.id
    requires var c := Crown(n.(votes := n.votes + {voter})); var i := LastIndex(n.log) + 1;
      |c.votes| >= Majority(n) && n1 == c.(log := n.log + [Entry(n.term, i, EMPTY_HASH)], matched := c.matched[n.id := i])
    requires ScanCommit(n1, |n1.log|) == n1.commit
    ensures Answers(n, Packet(voter, n.id, RequestVoteResponse(n.term, true), 0), n1, AppendEffect(n1, q))
  {
    WinsOffice(n, voter, n1);
    assert AppendEffect(n1, q) in FollowerAppends(n1);
  }

  /** Two committed prefixes that disagree. */
  ghost predicate Disagree(s: State, a: PeerId, b: PeerId, k: nat) {
    && a in s.nodes && b in s.nodes
    && k < s.nodes[a].commit <= |s.nodes[a].log| && k < s.nodes[b].commit <= |s.nodes[b].log|
    && s.nodes[a].log[k] != s.nodes[b].log[k]
  }

  lemma ShowsDisagreement(peers: set<PeerId>, s: State, cores: map<PeerId, Node>, pks: set<Packet>, a: PeerId, b: PeerId, k: nat)
    requires Shows(peers, s, cores, pks) && a in cores && b in cores
    requires k < cores[a].commit <= |cores[a].log| && k < cores[b].commit <= |cores[b].log| && cores[a].log[k] != cores[b].log[k]
    ensures Disagree(s, a, b, k)
  {
    assert Core(s.nodes[a]) == cores[a] && Core(s.nodes[b]) == cores[b];
  }
}
