/** A request of an old term is refused with the responder's current term, and with a match index
    that vouches for the old request.  A leader of that term records it.  Here is a run of five
    peers in which this alone, with every append staying within its batch, makes two of them
    commit different entries. */
module StaleRefusal {
  import opened Types
  import opened RaftLog
  import opened RaftNode
  import opened Cluster
  import opened ClusterScenario

  /** A node that knows the five peers and has nothing to tidy up. */
  ghost predicate Tidy(peers: set<PeerId>, n: Node, p: PeerId) {
    && n == Core(n) && n.id == p && n.participants == peers && |peers| == 5
    && n.votes <= peers && n.matched.Keys <= peers && WellFormed(n.log)
  }

  ghost predicate AllTidy(peers: set<PeerId>, cores: map<PeerId, Node>) {
    cores.Keys == peers && forall p {:trigger Tidy(peers, cores[p], p)} :: p in peers ==> Tidy(peers, cores[p], p)
  }

  /** Reached by a run in which every append stays within its batch. */
  ghost predicate At(peers: set<PeerId>, cores: map<PeerId, Node>, pks: set<Packet>) {
    Reached(Batches, peers, cores, pks) && AllTidy(peers, cores)
  }

  lemma TidyNext(peers: set<PeerId>, cores: map<PeerId, Node>, p: PeerId, n: Node)
    requires AllTidy(peers, cores) && p in peers && Tidy(peers, n, p)
    ensures AllTidy(peers, cores[p := n])
  {
    forall q | q in peers ensures Tidy(peers, cores[p := n][q], q) {
      if q != p {
        assert Tidy(peers, cores[q], q);
      }
    }
  }

  /** A delivery whose answer is tracked. */
  lemma Answered(peers: set<PeerId>, cores: map<PeerId, Node>, pks: set<Packet>, pk: Packet, n: Node, e: Effect, pk': Packet)
    requires At(peers, cores, pks) && pk in pks && pk.to in peers && Mild(Batches, cores[pk.to], pk)
    requires Answers(cores[pk.to], pk, n, e) && Carries(peers, pk.to, e, About(pk), pk') && Tidy(peers, n, pk.to)
    ensures At(peers, cores[pk.to := n], pks + {pk'})
  {
    Delivers(Batches, peers, cores, pks, pk, cores[pk.to], n, e, pk');
    TidyNext(peers, cores, pk.to, n);
  }

  /** A delivery whose answer does not matter. */
  lemma Absorbed(peers: set<PeerId>, cores: map<PeerId, Node>, pks: set<Packet>, pk: Packet, n: Node)
    requires At(peers, cores, pks) && pk in pks && pk.to in peers && Mild(Batches, cores[pk.to], pk)
    requires Core(Receive(cores[pk.to], pk, false, Some(map[])).node) == n && Tidy(peers, n, pk.to)
    ensures At(peers, cores[pk.to := n], pks)
  {
    Delivered(Batches, peers, cores, pks, pk, cores[pk.to], n);
    TidyNext(peers, cores, pk.to, n);
  }

  /** A tick with a given outcome, of whose messages `sent` is tracked. */
  lemma TickAs(peers: set<PeerId>, cores: map<PeerId, Node>, pks: set<Packet>, m: Node, election: bool, heartbeat: bool, n: Node, wire: set<Effect>, sent: set<Packet>)
    requires At(peers, cores, pks) && m.id in peers && cores[m.id] == m && Tidy(peers, n, m.id)
    requires var o := OnTick(m, peers - {m.id}, election, heartbeat); Core(o.node) == n && o.wire == wire
    requires sent <= Packets(peers, m.id, wire, 0)
    ensures At(peers, cores[m.id := n], pks + sent)
  {
    DoTick(Batches, peers, cores, pks, m.id, election, heartbeat);
    Forget(Batches, peers, cores[m.id := n], pks + Packets(peers, m.id, wire, 0), pks + sent);
    TidyNext(peers, cores, m.id, n);
  }

  /** A block created by a leader, of whose offers the one to q is tracked. */
  lemma CreateAs(peers: set<PeerId>, cores: map<PeerId, Node>, pks: set<Packet>, m: Node, hash: BlockHash, n: Node, q: PeerId)
    requires At(peers, cores, pks) && m.id in peers && cores[m.id] == m && Tidy(peers, n, m.id) && q in peers
    requires Proposes(m, hash, n, AppendEffect(n, q))
    ensures At(peers, cores[m.id := n], pks + {Offer(n, q)})
  {
    Creates(Batches, peers, cores, pks, m, hash, n, AppendEffect(n, q), Offer(n, q));
    TidyNext(peers, cores, m.id, n);
  }

  // --------------------------------------------------------------- one election

  function Ask(n: Node): Body {
    RequestVote(n.term + 1, n.id, LastIndex(n.log), LastTerm(n.log))
  }

  function Asked(n: Node, v: PeerId): Packet {
    Packet(n.id, v, Ask(n), 0)
  }

  function Voter(v: Node, t: nat, c: PeerId): Node {
    StepDown(v, t).(votedFor := Some(c))
  }

  function Ballot(t: nat, from: PeerId, to: PeerId): Packet {
    Packet(from, to, RequestVoteResponse(t, true), 0)
  }

  /** The candidate once v1 has voted for it. */
  function Hopeful(n: Node, v1: PeerId): Node {
    Candidacy(n).(votes := {n.id, v1})
  }

  /** The candidate after winning with two votes of others. */
  function Winner(n: Node, v1: PeerId, v2: PeerId): Node {
    var i := LastIndex(n.log) + 1;
    var c := Crown(Candidacy(n).(votes := {n.id, v1, v2}));
    c.(log := n.log + [Entry(n.term + 1, i, EMPTY_HASH)], matched := c.matched[n.id := i])
  }

  ghost predicate Supports(v: Node, n: Node) {
    v.term <= n.term && UpToDate(LastIndex(n.log), LastTerm(n.log), v.log)
  }

  lemma TidyTick(peers: set<PeerId>, n: Node, p: PeerId)
    requires Tidy(peers, n, p) && p in peers
    ensures UpdateParticipants(n, peers - {p}) == n
  {
    assert peers - {p} + {p} == peers;
    assert n.votes * peers == n.votes;
    assert (map q | q in n.matched && q in peers :: n.matched[q]) == n.matched;
  }

  lemma StandsAlone(peers: set<PeerId>, n: Node)
    requires Tidy(peers, n, n.id) && n.id in peers && n.role != Leader
    ensures var o := OnTick(n, peers - {n.id}, true, false);
      o.node == Candidacy(n) && o.wire == {Broadcast(Ask(n))} && Tidy(peers, Candidacy(n), n.id)
  {
    TidyTick(peers, n, n.id);
    assert |{n.id}| == 1;
  }

  lemma AskedSent(peers: set<PeerId>, n: Node, v1: PeerId, v2: PeerId)
    requires v1 in peers && v2 in peers && v1 != n.id && v2 != n.id
    ensures {Asked(n, v1), Asked(n, v2)} <= Packets(peers, n.id, {Broadcast(Ask(n))}, 0)
  {
    Wired(peers, n.id, {Broadcast(Ask(n))}, 0, Broadcast(Ask(n)), v1);
    Wired(peers, n.id, {Broadcast(Ask(n))}, 0, Broadcast(Ask(n)), v2);
  }

  lemma Stands(peers: set<PeerId>, cores: map<PeerId, Node>, pks: set<Packet>, n: Node, v1: PeerId, v2: PeerId)
    requires At(peers, cores, pks) && n.id in peers && cores[n.id] == n && n.role != Leader
    requires v1 in peers && v2 in peers && v1 != n.id && v2 != n.id
    ensures At(peers, cores[n.id := Candidacy(n)], pks + {Asked(n, v1), Asked(n, v2)})
  {
    assert Tidy(peers, cores[n.id], n.id);
    StandsAlone(peers, n);
    AskedSent(peers, n, v1, v2);
    TickAs(peers, cores, pks, n, true, false, Candidacy(n), {Broadcast(Ask(n))}, {Asked(n, v1), Asked(n, v2)});
  }

  lemma VoterAnswers(peers: set<PeerId>, m: Node, n: Node)
    requires Tidy(peers, m, m.id) && Supports(m, n)
    ensures var n' := Voter(m, n.term + 1, n.id);
      Answers(m, Asked(n, m.id), n', Send(n.id, RequestVoteResponse(n.term + 1, true))) && Tidy(peers, n', m.id)
  {
  }

  lemma Grants(peers: set<PeerId>, cores: map<PeerId, Node>, pks: set<Packet>, n: Node, v: PeerId)
    requires At(peers, cores, pks) && v in peers && n.id in peers && Supports(cores[v], n) && Asked(n, v) in pks
    ensures At(peers, cores[v := Voter(cores[v], n.term + 1, n.id)], pks + {Ballot(n.term + 1, v, n.id)})
  {
    assert Tidy(peers, cores[v], v);
    VoterAnswers(peers, cores[v], n);
    Answered(peers, cores, pks, Asked(n, v), Voter(cores[v], n.term + 1, n.id), Send(n.id, RequestVoteResponse(n.term + 1, true)), Ballot(n.term + 1, v, n.id));
  }

  lemma HopefulWaits(peers: set<PeerId>, n: Node, v: PeerId)
    requires Tidy(peers, n, n.id) && n.id in peers && v in peers && v != n.id
    ensures Core(Receive(Candidacy(n), Ballot(n.term + 1, v, n.id), false, Some(map[])).node) == Hopeful(n, v)
    ensures Tidy(peers, Hopeful(n, v), n.id)
  {
    assert Candidacy(n).votes + {v} == {n.id, v};
    assert |{n.id, v}| == 2;
  }

  /** The first vote is not enough. */
  lemma CountsFirst(peers: set<PeerId>, cores: map<PeerId, Node>, pks: set<Packet>, n: Node, v: PeerId)
    requires At(peers, cores, pks) && Tidy(peers, n, n.id) && n.id in peers && v in peers && v != n.id
    requires cores[n.id] == Candidacy(n) && Ballot(n.term + 1, v, n.id) in pks
    ensures At(peers, cores[n.id := Hopeful(n, v)], pks)
  {
    HopefulWaits(peers, n, v);
    Absorbed(peers, cores, pks, Ballot(n.term + 1, v, n.id), Hopeful(n, v));
  }

  function Offer(n: Node, q: PeerId): Packet {
    Packet(n.id, q, WireBody(AppendEffect(n, q), n.id), 0)
  }

  ghost predicate TermsWithin(log: seq<Entry>, t: nat) {
    forall i :: 0 <= i < |log| ==> log[i].term <= t
  }

  lemma {:induction false} NoOlderCommits(n: Node, i: nat)
    requires n.commit <= i <= |n.log| && forall j :: 0 <= j < i ==> n.log[j].term != n.term
    ensures ScanCommit(n, i) == n.commit
  {
    if i > n.commit {
      NoOlderCommits(n, i - 1);
    }
  }

  lemma WinnerWaits(peers: set<PeerId>, n: Node, v1: PeerId, v2: PeerId)
    requires Tidy(peers, n, n.id) && n.id in peers && TermsWithin(n.log, n.term) && n.commit <= |n.log|
    ensures var w := Winner(n, v1, v2); ScanCommit(w, |w.log|) == w.commit
  {
    var w := Winner(n, v1, v2);
    var i := |w.log|;
    assert LastIndex(n.log) == |n.log|;
    assert Replicas(w, i) == {n.id};
    assert |{n.id}| == 1;
    assert !Committable(w, i);
    NoOlderCommits(w, i - 1);
  }

  lemma WinnerTidy(peers: set<PeerId>, n: Node, v1: PeerId, v2: PeerId)
    requires Tidy(peers, n, n.id) && n.id in peers && v1 in peers && v2 in peers
    ensures Tidy(peers, Winner(n, v1, v2), n.id)
  {
  }

  lemma HopefulWins(peers: set<PeerId>, n: Node, v1: PeerId, v2: PeerId)
    requires Tidy(peers, n, n.id) && n.id in peers && v1 in peers && v2 in peers && n.id != v1 && n.id != v2 && v1 != v2
    requires TermsWithin(n.log, n.term) && n.commit <= |n.log|
    ensures var o := Receive(Hopeful(n, v1), Ballot(n.term + 1, v2, n.id), false, Some(map[]));
      Core(o.node) == Winner(n, v1, v2) && o.wire == FollowerAppends(Winner(n, v1, v2))
  {
    var m := Hopeful(n, v1);
    assert m.votes + {v2} == {n.id, v1, v2};
    assert |{n.id, v1, v2}| == 3;
    WinnerWaits(peers, n, v1, v2);
    WinsOffice(m, v2, Winner(n, v1, v2));
  }

  /** The second vote decides; the offers to all others go out. */
  lemma CountsSecond(peers: set<PeerId>, cores: map<PeerId, Node>, pks: set<Packet>, n: Node, v1: PeerId, v2: PeerId) returns (pks': set<Packet>)
    requires At(peers, cores, pks) && Tidy(peers, n, n.id) && n.id in peers
    requires v1 in peers && v2 in peers && n.id != v1 && n.id != v2 && v1 != v2
    requires TermsWithin(n.log, n.term) && n.commit <= |n.log|
    requires cores[n.id] == Hopeful(n, v1) && Ballot(n.term + 1, v2, n.id) in pks
    ensures At(peers, cores[n.id := Winner(n, v1, v2)], pks') && pks <= pks'
    ensures forall q :: q in peers && q != n.id ==> Offer(Winner(n, v1, v2), q) in pks'
  {
    var w := Winner(n, v1, v2);
    HopefulWins(peers, n, v1, v2);
    DoDeliver(Batches, peers, cores, pks, Ballot(n.term + 1, v2, n.id));
    pks' := pks + Packets(peers, n.id, FollowerAppends(w), 0);
    OffersSent(peers, w);
    WinnerTidy(peers, n, v1, v2);
    TidyNext(peers, cores, n.id, w);
  }

  lemma OffersSent(peers: set<PeerId>, n: Node)
    requires n.participants == peers
    ensures forall q :: q in peers && q != n.id ==> Offer(n, q) in Packets(peers, n.id, FollowerAppends(n), 0)
  {
    forall q | q in peers && q != n.id ensures Offer(n, q) in Packets(peers, n.id, FollowerAppends(n), 0) {
      Wired(peers, n.id, FollowerAppends(n), 0, AppendEffect(n, q), q);
    }
  }

  /** The campaign: both voters have voted. */
  lemma Campaign(peers: set<PeerId>, cores: map<PeerId, Node>, pks: set<Packet>, n: Node, v1: PeerId, v2: PeerId) returns (pks': set<Packet>)
    requires At(peers, cores, pks) && n.id in peers && cores[n.id] == n && n.role != Leader
    requires v1 in peers && v2 in peers && n.id != v1 && n.id != v2 && v1 != v2
    requires Supports(cores[v1], n) && Supports(cores[v2], n)
    ensures pks <= pks' && Ballot(n.term + 1, v1, n.id) in pks' && Ballot(n.term + 1, v2, n.id) in pks'
    ensures At(peers, cores[n.id := Candidacy(n)][v1 := Voter(cores[v1], n.term + 1, n.id)][v2 := Voter(cores[v2], n.term + 1, n.id)], pks')
  {
    var t := n.term + 1;
    Stands(peers, cores, pks, n, v1, v2);
    var cores1, pks1 := cores[n.id := Candidacy(n)], pks + {Asked(n, v1), Asked(n, v2)};
    Grants(peers, cores1, pks1, n, v1);
    var cores2, pks2 := cores1[v1 := Voter(cores[v1], t, n.id)], pks1 + {Ballot(t, v1, n.id)};
    Grants(peers, cores2, pks2, n, v2);
    pks' := pks2 + {Ballot(t, v2, n.id)};
  }

  lemma UpdateAgain(cores: map<PeerId, Node>, p: PeerId, a: Node, b: Node)
    ensures cores[p := a][p := b] == cores[p := b]
  {
  }

  /** The count: the candidate becomes leader. */
  lemma Tally(peers: set<PeerId>, cores: map<PeerId, Node>, pks: set<Packet>, n: Node, v1: PeerId, v2: PeerId) returns (pks': set<Packet>)
    requires At(peers, cores, pks) && Tidy(peers, n, n.id) && n.id in peers && cores[n.id] == Candidacy(n)
    requires v1 in peers && v2 in peers && n.id != v1 && n.id != v2 && v1 != v2
    requires TermsWithin(n.log, n.term) && n.commit <= |n.log|
    requires Ballot(n.term + 1, v1, n.id) in pks && Ballot(n.term + 1, v2, n.id) in pks
    ensures At(peers, cores[n.id := Winner(n, v1, v2)], pks') && pks <= pks'
    ensures forall q :: q in peers && q != n.id ==> Offer(Winner(n, v1, v2), q) in pks'
  {
    CountsFirst(peers, cores, pks, n, v1);
    var cores1 := cores[n.id := Hopeful(n, v1)];
    pks' := CountsSecond(peers, cores1, pks, n, v1, v2);
    UpdateAgain(cores, n.id, Hopeful(n, v1), Winner(n, v1, v2));
  }

  /** The nodes after n has won with the votes of v1 and v2. */
  function Installed(cores: map<PeerId, Node>, n: Node, v1: PeerId, v2: PeerId): map<PeerId, Node>
    requires v1 in cores && v2 in cores
  {
    cores[v1 := Voter(cores[v1], n.term + 1, n.id)][v2 := Voter(cores[v2], n.term + 1, n.id)][n.id := Winner(n, v1, v2)]
  }

  lemma InstalledLast(cores: map<PeerId, Node>, n: Node, v1: PeerId, v2: PeerId, c: Node)
    requires v1 in cores && v2 in cores && n.id != v1 && n.id != v2
    ensures cores[n.id := c][v1 := Voter(cores[v1], n.term + 1, n.id)][v2 := Voter(cores[v2], n.term + 1, n.id)][n.id := Winner(n, v1, v2)]
         == Installed(cores, n, v1, v2)
  {
  }

  /** A whole election: n wins the next term with the votes of v1 and v2. */
  lemma Elect(peers: set<PeerId>, cores: map<PeerId, Node>, pks: set<Packet>, n: Node, v1: PeerId, v2: PeerId) returns (pks': set<Packet>)
    requires At(peers, cores, pks) && n.id in peers && cores[n.id] == n && n.role != Leader
    requires v1 in peers && v2 in peers && n.id != v1 && n.id != v2 && v1 != v2
    requires Supports(cores[v1], n) && Supports(cores[v2], n) && TermsWithin(n.log, n.term) && n.commit <= |n.log|
    ensures At(peers, Installed(cores, n, v1, v2), pks') && pks <= pks'
    ensures forall q :: q in peers && q != n.id ==> Offer(Winner(n, v1, v2), q) in pks'
  {
    var t := n.term + 1;
    assert Tidy(peers, cores[n.id], n.id);
    var pks1 := Campaign(peers, cores, pks, n, v1, v2);
    var cores1 := cores[n.id := Candidacy(n)][v1 := Voter(cores[v1], t, n.id)][v2 := Voter(cores[v2], t, n.id)];
    pks' := Tally(peers, cores1, pks1, n, v1, v2);
    InstalledLast(cores, n, v1, v2, Candidacy(n));
  }

  // --------------------------------------------------------------- replication

  /** A follower that has taken over a leader's whole batch. */
  function Copied(f: Node, t: nat, l: PeerId, entries: seq<Entry>): Node {
    Follow(StepDownOnNewer(f, t), l).(log := entries)
  }

  function CopyAck(f: PeerId, l: PeerId, t: nat, k: nat): Packet {
    Packet(f, l, AppendEntriesResponse(t, true, k), t)
  }

  function Batch(l: PeerId, f: PeerId, t: nat, entries: seq<Entry>): Packet {
    Packet(l, f, AppendEntries(t, l, 0, 0, entries, 0), 0)
  }

  ghost predicate Welcomes(f: Node, t: nat, l: PeerId, entries: seq<Entry>) {
    && l in f.participants && f.commit == 0 && entries != [] && ContiguousAfter(0, entries)
    && (t > f.term || (t == f.term && f.leader == None)) && Merge(f.log, 0, entries) == entries
  }

  lemma CopiedAnswers(peers: set<PeerId>, f: Node, t: nat, l: PeerId, entries: seq<Entry>)
    requires Tidy(peers, f, f.id) && Welcomes(f, t, l, entries)
    ensures var n := Copied(f, t, l, entries); var pk := Batch(l, f.id, t, entries);
      && Answers(f, pk, n, Send(l, AppendEntriesResponse(t, true, |entries|))) && Mild(Batches, f, pk)
      && Tidy(peers, n, f.id)
  {
    WelcomesAccepts(f, t, l, entries);
    Follows(f, Batch(l, f.id, t, entries), Follow(StepDownOnNewer(f, t), l), entries);
    CopiedTidy(peers, f, t, l, entries);
  }

  lemma WelcomesAccepts(f: Node, t: nat, l: PeerId, entries: seq<Entry>)
    requires Welcomes(f, t, l, entries)
    ensures var n1 := Follow(StepDownOnNewer(f, t), l);
      && Accepts(n1, 0, 0, entries) && Admits(f, t, l, l, false) && n1.term == t && n1.commit == 0 && n1.log == f.log
      && entries[|entries| - 1].index == |entries|
  {
  }

  lemma CopiedTidy(peers: set<PeerId>, f: Node, t: nat, l: PeerId, entries: seq<Entry>)
    requires Tidy(peers, f, f.id) && ContiguousAfter(0, entries)
    ensures Tidy(peers, Copied(f, t, l, entries), f.id)
  {
  }

  lemma Copies(peers: set<PeerId>, cores: map<PeerId, Node>, pks: set<Packet>, l: PeerId, f: PeerId, t: nat, entries: seq<Entry>)
    requires At(peers, cores, pks) && f in peers && l in peers && Batch(l, f, t, entries) in pks && Welcomes(cores[f], t, l, entries)
    ensures At(peers, cores[f := Copied(cores[f], t, l, entries)], pks + {CopyAck(f, l, t, |entries|)})
  {
    assert Tidy(peers, cores[f], f);
    CopiedAnswers(peers, cores[f], t, l, entries);
    Answered(peers, cores, pks, Batch(l, f, t, entries), Copied(cores[f], t, l, entries),
      Send(l, AppendEntriesResponse(t, true, |entries|)), CopyAck(f, l, t, |entries|));
  }

  /** A leader credited with k entries on f. */
  function Credited(n: Node, f: PeerId, k: nat): Node {
    n.(matched := n.matched[f := k])
  }

  lemma CreditCounts(peers: set<PeerId>, n: Node, f: PeerId, k: nat, commit: nat)
    requires Tidy(peers, n, n.id) && n.role == Leader && f in peers && f in n.matched && n.matched[f] <= k
    requires ScanCommit(Credited(n, f, k), |n.log|) == commit
    ensures var n' := Credited(n, f, k).(commit := commit);
      Core(Receive(n, CopyAck(f, n.id, n.term, k), false, Some(map[])).node) == n' && Tidy(peers, n', n.id)
  {
  }

  lemma Credits(peers: set<PeerId>, cores: map<PeerId, Node>, pks: set<Packet>, n: Node, f: PeerId, k: nat, commit: nat)
    requires At(peers, cores, pks) && n.id in peers && f in peers && cores[n.id] == n && n.role == Leader
    requires CopyAck(f, n.id, n.term, k) in pks && f in n.matched && n.matched[f] <= k
    requires ScanCommit(Credited(n, f, k), |n.log|) == commit
    ensures At(peers, cores[n.id := Credited(n, f, k).(commit := commit)], pks)
  {
    assert Tidy(peers, cores[n.id], n.id);
    CreditCounts(peers, n, f, k, commit);
    Absorbed(peers, cores, pks, CopyAck(f, n.id, n.term, k), Credited(n, f, k).(commit := commit));
  }

  /** A follower copies the leader's batch and the leader hears of it. */
  function Synced(cores: map<PeerId, Node>, n: Node, f: PeerId, entries: seq<Entry>, commit: nat): map<PeerId, Node>
    requires f in cores
  {
    cores[f := Copied(cores[f], n.term, n.id, entries)][n.id := Credited(n, f, |entries|).(commit := commit)]
  }

  lemma Sync(peers: set<PeerId>, cores: map<PeerId, Node>, pks: set<Packet>, n: Node, f: PeerId, entries: seq<Entry>, commit: nat)
    requires At(peers, cores, pks) && n.id in peers && f in peers && f != n.id && cores[n.id] == n && n.role == Leader
    requires Batch(n.id, f, n.term, entries) in pks && Welcomes(cores[f], n.term, n.id, entries)
    requires f in n.matched && n.matched[f] <= |entries| && ScanCommit(Credited(n, f, |entries|), |n.log|) == commit
    ensures At(peers, Synced(cores, n, f, entries, commit), pks + {CopyAck(f, n.id, n.term, |entries|)})
  {
    Copies(peers, cores, pks, n.id, f, n.term, entries);
    var cores1 := cores[f := Copied(cores[f], n.term, n.id, entries)];
    Credits(peers, cores1, pks + {CopyAck(f, n.id, n.term, |entries|)}, n, f, |entries|, commit);
  }

  // ------------------------------------------------------- the stale refusal

  /** An empty append after entry k of term `pt`, sent in term t. */
  function Probe(l: PeerId, f: PeerId, t: nat, k: nat, pt: nat): Packet {
    Packet(l, f, AppendEntries(t, l, k, pt, [], 0), 0)
  }

  function Refusal(f: PeerId, l: PeerId, t: nat, k: nat, about: nat): Packet {
    Packet(f, l, AppendEntriesResponse(t, false, k), about)
  }

  lemma RefusalAnswers(f: Node, l: PeerId, t: nat, k: nat, pt: nat)
    requires f == Core(f) && t < f.term && TermAt(f.log, k) == Some(pt)
    ensures Answers(f, Probe(l, f.id, t, k, pt), f, Send(l, AppendEntriesResponse(f.term, false, k))) && Mild(Batches, f, Probe(l, f.id, t, k, pt))
  {
  }

  lemma Refuses(peers: set<PeerId>, cores: map<PeerId, Node>, pks: set<Packet>, l: PeerId, f: PeerId, t: nat, k: nat, pt: nat)
    requires At(peers, cores, pks) && f in peers && l in peers && Probe(l, f, t, k, pt) in pks
    requires t < cores[f].term && TermAt(cores[f].log, k) == Some(pt)
    ensures At(peers, cores, pks + {Refusal(f, l, cores[f].term, k, t)})
  {
    var n := cores[f];
    assert Tidy(peers, cores[f], f);
    RefusalAnswers(n, l, t, k, pt);
    Answered(peers, cores, pks, Probe(l, f, t, k, pt), n, Send(l, AppendEntriesResponse(n.term, false, k)), Refusal(f, l, n.term, k, t));
    UpdateSame(cores, f);
  }

  lemma UpdateSame(cores: map<PeerId, Node>, p: PeerId)
    requires p in cores
    ensures cores[p := cores[p]] == cores
  {
  }

  lemma RefusalRecorded(peers: set<PeerId>, n: Node, f: PeerId, k: nat, about: nat)
    requires Tidy(peers, n, n.id) && n.role == Leader && f in peers && k <= |n.log|
    ensures Core(Receive(n, Refusal(f, n.id, n.term, k, about), false, Some(map[])).node) == Credited(n, f, k)
    ensures Tidy(peers, Credited(n, f, k), n.id)
  {
    assert LastIndex(n.log) == |n.log|;
  }

  lemma Misleads(peers: set<PeerId>, cores: map<PeerId, Node>, pks: set<Packet>, n: Node, f: PeerId, k: nat, about: nat)
    requires At(peers, cores, pks) && n.id in peers && f in peers && cores[n.id] == n && n.role == Leader
    requires Refusal(f, n.id, n.term, k, about) in pks && k <= |n.log|
    ensures At(peers, cores[n.id := Credited(n, f, k)], pks)
  {
    assert Tidy(peers, cores[n.id], n.id);
    RefusalRecorded(peers, n, f, k, about);
    Absorbed(peers, cores, pks, Refusal(f, n.id, n.term, k, about), Credited(n, f, k));
  }

  // -------------------------------------------------------------------- start

  function Newborn(p: PeerId): Node {
    Fresh(p, Store([], None), 0)
  }

  function Rookie(peers: set<PeerId>, p: PeerId): Node {
    Newborn(p).(participants := peers)
  }

  function Crowd(peers: set<PeerId>, told: set<PeerId>): map<PeerId, Node> {
    map p | p in peers :: if p in told then Rookie(peers, p) else Newborn(p)
  }

  lemma NewbornTold(peers: set<PeerId>, p: PeerId)
    requires p in peers
    ensures var o := OnTick(Newborn(p), peers - {p}, false, false); o.node == Rookie(peers, p) && o.wire == {}
  {
    assert peers - {p} + {p} == peers;
    assert UpdateParticipants(Newborn(p), peers - {p}).matched == map[];
  }

  lemma {:induction false} Told(peers: set<PeerId>, told: set<PeerId>)
    requires told <= peers
    ensures Reached(Batches, peers, Crowd(peers, told), {})
  {
    if told == {} {
      ReachedStart(Batches, peers);
      assert Crowd(peers, told) == map p | p in peers :: Newborn(p);
    } else {
      var p :| p in told;
      Told(peers, told - {p});
      ToldOne(peers, told, p);
    }
  }

  lemma CrowdGrows(peers: set<PeerId>, told: set<PeerId>, p: PeerId)
    requires p in told && told <= peers
    ensures var crowd := Crowd(peers, told - {p});
      p in crowd && crowd[p] == Newborn(p) && crowd[p := Rookie(peers, p)] == Crowd(peers, told)
  {
  }

  lemma ToldOne(peers: set<PeerId>, told: set<PeerId>, p: PeerId)
    requires p in told && told <= peers && Reached(Batches, peers, Crowd(peers, told - {p}), {})
    ensures Reached(Batches, peers, Crowd(peers, told), {})
  {
    CrowdGrows(peers, told, p);
    NewbornTold(peers, p);
    DoTick(Batches, peers, Crowd(peers, told - {p}), {}, p, false, false);
    Forget(Batches, peers, Crowd(peers, told), {} + Packets(peers, p, {}, 0), {});
  }

  lemma Start(peers: set<PeerId>)
    requires |peers| == 5
    ensures At(peers, Crowd(peers, peers), {})
  {
    Told(peers, peers);
    RookiesTidy(peers);
  }

  lemma RookiesTidy(peers: set<PeerId>)
    requires |peers| == 5
    ensures AllTidy(peers, Crowd(peers, peers))
  {
  }

  // ------------------------------------------------------------------ the run

  const FIVE: set<PeerId> := {1, 2, 3, 4, 5}

  ghost predicate Quintet(peers: set<PeerId>) {
    |peers| == 5 && 1 in peers && 2 in peers && 3 in peers && 4 in peers && 5 in peers
  }

  // Entries: a of term 1, b of term 2, c of term 3, d of term 4.
  const A1: Entry := Entry(1, 1, EMPTY_HASH)
  const A2: Entry := Entry(1, 2, 9)
  const B1: Entry := Entry(2, 1, EMPTY_HASH)
  const C2: Entry := Entry(3, 2, EMPTY_HASH)
  const D3: Entry := Entry(4, 3, EMPTY_HASH)

  ghost predicate Looks(n: Node, term: nat, leader: Option<PeerId>, role: Role, log: seq<Entry>, commit: nat) {
    n.term == term && n.leader == leader && n.role == role && n.log == log && n.commit == commit
  }

  /** A peer that has at most voted and knows nothing else. */
  ghost predicate Blank(n: Node, term: nat) {
    Looks(n, term, None, Follower, [], 0)
  }

  ghost predicate Knows(n: Node, q: PeerId, k: nat) {
    q in n.matched && n.matched[q] == k
  }

  /** A leader that knows only its own log. */
  ghost predicate FreshTable(peers: set<PeerId>, n: Node) {
    n.matched.Keys == peers && forall q :: q in peers ==> n.matched[q] == if q == n.id then |n.log| else 0
  }

  lemma WinnerLooks(peers: set<PeerId>, n: Node, v1: PeerId, v2: PeerId)
    requires Tidy(peers, n, n.id) && n.id in peers
    ensures var w := Winner(n, v1, v2);
      && Looks(w, n.term + 1, Some(n.id), Leader, n.log + [Entry(n.term + 1, |n.log| + 1, EMPTY_HASH)], n.commit)
      && w.id == n.id && FreshTable(peers, w)
  {
    assert LastIndex(n.log) == |n.log|;
  }

  lemma InstalledLooks(cores: map<PeerId, Node>, n: Node, v1: PeerId, v2: PeerId)
    requires v1 in cores && v2 in cores && n.id in cores && n.id != v1 && n.id != v2 && v1 != v2
    ensures var c := Installed(cores, n, v1, v2);
      && c.Keys == cores.Keys && c[n.id] == Winner(n, v1, v2)
      && Looks(c[v1], n.term + 1, None, Follower, cores[v1].log, cores[v1].commit)
      && Looks(c[v2], n.term + 1, None, Follower, cores[v2].log, cores[v2].commit)
      && forall p :: p in cores && p != n.id && p != v1 && p != v2 ==> c[p] == cores[p]
  {
  }

  /** After the first election: peer 1 leads term 1. */
  ghost predicate Scene1(peers: set<PeerId>, cores: map<PeerId, Node>) {
    && 1 in cores && 2 in cores && 3 in cores && 4 in cores && 5 in cores
    && Looks(cores[1], 1, Some(1), Leader, [A1], 0) && FreshTable(peers, cores[1])
    && Blank(cores[2], 1) && Blank(cores[3], 1) && Blank(cores[4], 0) && Blank(cores[5], 0)
  }

  lemma Phase1(peers: set<PeerId>) returns (cores: map<PeerId, Node>, pks: set<Packet>)
    requires Quintet(peers)
    ensures At(peers, cores, pks) && Scene1(peers, cores)
  {
    Start(peers);
    var crowd := Crowd(peers, peers);
    pks := Elect(peers, crowd, {}, Rookie(peers, 1), 2, 3);
    cores := Installed(crowd, Rookie(peers, 1), 2, 3);
    Scene1Holds(peers);
  }

  lemma Scene1Holds(peers: set<PeerId>)
    requires Quintet(peers)
    ensures Scene1(peers, Installed(Crowd(peers, peers), Rookie(peers, 1), 2, 3))
  {
    InstalledLooks(Crowd(peers, peers), Rookie(peers, 1), 2, 3);
    WinnerLooks(peers, Rookie(peers, 1), 2, 3);
  }

  /** A leader heard by at most one other peer commits nothing. */
  lemma {:induction false} NoMajority(peers: set<PeerId>, n: Node, x: PeerId, y: PeerId, i: nat)
    requires n.participants == peers && |peers| == 5 && n.commit == 0 && i <= |n.log|
    requires forall q :: q in peers && q != x && q != y && q in n.matched ==> n.matched[q] == 0
    ensures ScanCommit(n, i) == 0
  {
    if i > 0 {
      assert Replicas(n, i) <= {x, y};
      AtMostTwo(Replicas(n, i), x, y);
      NoMajority(peers, n, x, y, i - 1);
    }
  }

  lemma AtMostTwo(s: set<PeerId>, x: PeerId, y: PeerId)
    requires s <= {x, y}
    ensures |s| <= 2
  {
    assert s == {} || s == {x} || s == {y} || s == {x, y};
  }

  lemma AtLeastThree(s: set<PeerId>, x: PeerId, y: PeerId, z: PeerId)
    requires {x, y, z} <= s && x != y && y != z && x != z
    ensures |s| >= 3
  {
    assert s == s - {x, y, z} + {x, y, z};
    assert |{x, y, z}| == 3;
    assert |s| == |s - {x, y, z}| + |{x, y, z}|;
  }

  /** A leader heard by two others about its last entry, of its own term, commits it. */
  lemma HasMajority(peers: set<PeerId>, n: Node, x: PeerId, y: PeerId, z: PeerId)
    requires n.participants == peers && |peers| == 5 && n.commit < |n.log| && n.log[|n.log| - 1].term == n.term
    requires x in peers && y in peers && z in peers && x != y && y != z && x != z
    requires x in n.matched && y in n.matched && z in n.matched
    requires n.matched[x] >= |n.log| && n.matched[y] >= |n.log| && n.matched[z] >= |n.log|
    ensures ScanCommit(n, |n.log|) == |n.log|
  {
    AtLeastThree(Replicas(n, |n.log|), x, y, z);
  }

  /** A leader that knows nothing of q offers its whole short log. */
  lemma OfferLooks(peers: set<PeerId>, n: Node, q: PeerId)
    requires FreshTable(peers, n) && q in peers && q != n.id && |n.log| <= 5 && n.commit == 0
    ensures Offer(n, q) == Batch(n.id, q, n.term, n.log)
  {
    assert n.log[0..|n.log|] == n.log;
  }

  // Peer 1 appends a block in term 1; only peer 2 gets it.

  function Grown(n: Node): Node {
    n.(log := [A1, A2], matched := n.matched[1 := 2])
  }

  ghost predicate Scene2(peers: set<PeerId>, cores: map<PeerId, Node>) {
    && 1 in cores && 2 in cores && 3 in cores && 4 in cores && 5 in cores
    && Looks(cores[1], 1, Some(1), Leader, [A1, A2], 0) && FreshTable(peers, cores[1])
    && Blank(cores[2], 1) && Blank(cores[3], 1) && Blank(cores[4], 0) && Blank(cores[5], 0)
  }

  lemma GrownProposes(peers: set<PeerId>, n: Node)
    requires Quintet(peers) && Tidy(peers, n, 1) && Looks(n, 1, Some(1), Leader, [A1], 0) && FreshTable(peers, n)
    ensures var n' := Grown(n);
      && Tidy(peers, n', 1) && Looks(n', 1, Some(1), Leader, [A1, A2], 0) && FreshTable(peers, n')
      && Proposes(n, 9, n', AppendEffect(n', 2)) && Offer(n', 2) == Batch(1, 2, 1, [A1, A2])
  {
    var n' := Grown(n);
    assert n.log + [A2] == [A1, A2];
    NoMajority(peers, n', 1, 1, 2);
    OfferLooks(peers, n', 2);
    assert n'.log == [A1, A2];
  }

  lemma Phase2(peers: set<PeerId>) returns (cores: map<PeerId, Node>, pks: set<Packet>)
    requires Quintet(peers)
    ensures At(peers, cores, pks) && Scene2(peers, cores) && Batch(1, 2, 1, [A1, A2]) in pks
  {
    var cores0, pks0 := Phase1(peers);
    cores, pks := Proposed(peers, cores0, pks0);
  }

  lemma Proposed(peers: set<PeerId>, cores0: map<PeerId, Node>, pks0: set<Packet>) returns (cores: map<PeerId, Node>, pks: set<Packet>)
    requires Quintet(peers) && At(peers, cores0, pks0) && Scene1(peers, cores0)
    ensures At(peers, cores, pks) && Scene2(peers, cores) && Batch(1, 2, 1, [A1, A2]) in pks
  {
    var n := cores0[1];
    assert Tidy(peers, cores0[1], 1);
    GrownProposes(peers, n);
    var n' := Grown(n);
    var pk := Batch(1, 2, 1, [A1, A2]);
    CreateAs(peers, cores0, pks0, n, 9, n', 2);
    cores, pks := cores0[1 := n'], pks0 + {pk};
  }

  lemma MergeFresh(log: seq<Entry>, entries: seq<Entry>)
    requires entries != [] && (log == [] || log[0].term != entries[0].term)
    ensures Merge(log, 0, entries) == entries
  {
    assert FirstNew(log, 0, entries) == 0;
  }

  /** Peer 1 keeps leading; peer 2 holds its two entries and has said so. */
  ghost predicate Scene3(cores: map<PeerId, Node>) {
    && 1 in cores && 2 in cores && 3 in cores && 4 in cores && 5 in cores
    && Looks(cores[1], 1, Some(1), Leader, [A1, A2], 0) && Knows(cores[1], 2, 2)
    && Looks(cores[2], 1, Some(1), Follower, [A1, A2], 0)
    && Blank(cores[3], 1) && Blank(cores[4], 0) && Blank(cores[5], 0)
  }

  lemma Phase3(peers: set<PeerId>) returns (cores: map<PeerId, Node>, pks: set<Packet>)
    requires Quintet(peers)
    ensures At(peers, cores, pks) && Scene3(cores)
  {
    var cores0, pks0 := Phase2(peers);
    cores, pks := SecondCopies(peers, cores0, pks0);
  }

  lemma SecondCopies(peers: set<PeerId>, cores0: map<PeerId, Node>, pks0: set<Packet>) returns (cores: map<PeerId, Node>, pks: set<Packet>)
    requires Quintet(peers) && At(peers, cores0, pks0) && Scene2(peers, cores0) && Batch(1, 2, 1, [A1, A2]) in pks0
    ensures At(peers, cores, pks) && Scene3(cores)
  {
    assert Tidy(peers, cores0[1], 1) && Tidy(peers, cores0[2], 2);
    SecondCopiesScene(peers, cores0);
    Sync(peers, cores0, pks0, cores0[1], 2, [A1, A2], 0);
    cores, pks := Synced(cores0, cores0[1], 2, [A1, A2], 0), pks0 + {CopyAck(2, 1, 1, 2)};
  }

  lemma SecondCopiesScene(peers: set<PeerId>, cores: map<PeerId, Node>)
    requires Quintet(peers) && Scene2(peers, cores) && Tidy(peers, cores[1], 1) && Tidy(peers, cores[2], 2)
    ensures Welcomes(cores[2], 1, 1, [A1, A2]) && ScanCommit(Credited(cores[1], 2, 2), 2) == 0
    ensures Scene3(Synced(cores, cores[1], 2, [A1, A2], 0))
  {
    MergeFresh([], [A1, A2]);
    NoMajority(peers, Credited(cores[1], 2, 2), 1, 2, 2);
    SyncedLooks(cores, cores[1], 2, [A1, A2], 0);
  }

  /** Who changes when a follower copies a batch, and how. */
  lemma SyncedLooks(cores: map<PeerId, Node>, n: Node, f: PeerId, entries: seq<Entry>, commit: nat)
    requires f in cores && n.id in cores && f != n.id
    ensures var c := Synced(cores, n, f, entries, commit); var m := Copied(cores[f], n.term, n.id, entries);
      && c.Keys == cores.Keys && c[f] == m && c[n.id] == Credited(n, f, |entries|).(commit := commit)
      && Looks(m, if n.term > cores[f].term then n.term else cores[f].term, Some(n.id), Follower, entries, cores[f].commit)
      && forall p :: p in cores && p != f && p != n.id ==> c[p] == cores[p]
  {
  }

  // The request that will arrive late.

  lemma ProbeSent(peers: set<PeerId>, n: Node)
    requires Quintet(peers) && Tidy(peers, n, 1) && Looks(n, 1, Some(1), Leader, [A1, A2], 0) && 2 in n.matched && n.matched[2] == 2
    ensures var o := OnTick(n, peers - {1}, false, true);
      o.node == n && o.wire == FollowerAppends(n) && Probe(1, 2, 1, 2, 1) in Packets(peers, 1, o.wire, 0)
  {
    TidyTick(peers, n, 1);
    assert n.log[2..2] == [];
    assert AppendEffect(n, 2) == SendRaftAppendEntries(2, 1, 2, 1, [], 0);
    Wired(peers, 1, FollowerAppends(n), 0, AppendEffect(n, 2), 2);
  }

  lemma Phase4(peers: set<PeerId>) returns (cores: map<PeerId, Node>, pks: set<Packet>)
    requires Quintet(peers)
    ensures At(peers, cores, pks) && Scene3(cores) && Probe(1, 2, 1, 2, 1) in pks
  {
    var cores0, pks0 := Phase3(peers);
    assert Tidy(peers, cores0[1], 1);
    ProbeSent(peers, cores0[1]);
    TickAs(peers, cores0, pks0, cores0[1], false, true, cores0[1], FollowerAppends(cores0[1]), {Probe(1, 2, 1, 2, 1)});
    UpdateSame(cores0, 1);
    cores, pks := cores0, pks0 + {Probe(1, 2, 1, 2, 1)};
  }

  // Peer 3 leads term 2 and overwrites peer 1.

  ghost predicate Scene5(cores: map<PeerId, Node>) {
    && 1 in cores && 2 in cores && 3 in cores && 4 in cores && 5 in cores
    && Looks(cores[1], 1, Some(1), Leader, [A1, A2], 0)
    && Looks(cores[2], 1, Some(1), Follower, [A1, A2], 0)
    && Looks(cores[3], 2, Some(3), Leader, [B1], 0)
    && Blank(cores[4], 2) && Blank(cores[5], 2)
  }

  lemma Phase5(peers: set<PeerId>) returns (cores: map<PeerId, Node>, pks: set<Packet>)
    requires Quintet(peers)
    ensures At(peers, cores, pks) && Scene5(cores) && Probe(1, 2, 1, 2, 1) in pks && Batch(3, 1, 2, [B1]) in pks
  {
    var cores0, pks0 := Phase4(peers);
    cores, pks := ThirdWins(peers, cores0, pks0);
  }

  lemma ThirdWins(peers: set<PeerId>, cores0: map<PeerId, Node>, pks0: set<Packet>) returns (cores: map<PeerId, Node>, pks: set<Packet>)
    requires Quintet(peers) && At(peers, cores0, pks0) && Scene3(cores0)
    ensures At(peers, cores, pks) && Scene5(cores) && pks0 <= pks && Batch(3, 1, 2, [B1]) in pks
  {
    assert Tidy(peers, cores0[3], 3);
    ThirdWinsScene(peers, cores0);
    pks := Elect(peers, cores0, pks0, cores0[3], 4, 5);
    cores := Installed(cores0, cores0[3], 4, 5);
  }

  lemma ThirdWinsScene(peers: set<PeerId>, cores: map<PeerId, Node>)
    requires Quintet(peers) && Scene3(cores) && Tidy(peers, cores[3], 3)
    ensures Supports(cores[4], cores[3]) && Supports(cores[5], cores[3]) && TermsWithin(cores[3].log, cores[3].term)
    ensures Scene5(Installed(cores, cores[3], 4, 5)) && Offer(Winner(cores[3], 4, 5), 1) == Batch(3, 1, 2, [B1])
  {
    var n := cores[3];
    InstalledLooks(cores, n, 4, 5);
    WinnerLooks(peers, n, 4, 5);
    assert n.log + [B1] == [B1];
    OfferLooks(peers, Winner(n, 4, 5), 1);
  }

  ghost predicate Scene6(cores: map<PeerId, Node>) {
    && 1 in cores && 2 in cores && 3 in cores && 4 in cores && 5 in cores
    && Looks(cores[1], 2, Some(3), Follower, [B1], 0)
    && Looks(cores[2], 1, Some(1), Follower, [A1, A2], 0)
    && Looks(cores[3], 2, Some(3), Leader, [B1], 0)
    && Blank(cores[4], 2) && Blank(cores[5], 2)
  }

  lemma Phase6(peers: set<PeerId>) returns (cores: map<PeerId, Node>, pks: set<Packet>)
    requires Quintet(peers)
    ensures At(peers, cores, pks) && Scene6(cores) && Probe(1, 2, 1, 2, 1) in pks
  {
    var cores0, pks0 := Phase5(peers);
    assert Tidy(peers, cores0[1], 1);
    MergeFresh([A1, A2], [B1]);
    Copies(peers, cores0, pks0, 3, 1, 2, [B1]);
    cores, pks := cores0[1 := Copied(cores0[1], 2, 3, [B1])], pks0 + {CopyAck(1, 3, 2, 1)};
  }

  // Peer 1 leads again, in term 3, with a different log than peer 2 still holds.

  ghost predicate Scene7(peers: set<PeerId>, cores: map<PeerId, Node>) {
    && 1 in cores && 2 in cores && 3 in cores && 4 in cores && 5 in cores
    && Looks(cores[1], 3, Some(1), Leader, [B1, C2], 0) && FreshTable(peers, cores[1])
    && Looks(cores[2], 3, None, Follower, [A1, A2], 0)
    && Looks(cores[3], 2, Some(3), Leader, [B1], 0)
    && Blank(cores[4], 3) && Blank(cores[5], 2)
  }

  lemma Phase7(peers: set<PeerId>) returns (cores: map<PeerId, Node>, pks: set<Packet>)
    requires Quintet(peers)
    ensures At(peers, cores, pks) && Scene7(peers, cores) && Probe(1, 2, 1, 2, 1) in pks && Batch(1, 3, 3, [B1, C2]) in pks
  {
    var cores0, pks0 := Phase6(peers);
    cores, pks := FirstReturns(peers, cores0, pks0);
  }

  lemma FirstReturns(peers: set<PeerId>, cores0: map<PeerId, Node>, pks0: set<Packet>) returns (cores: map<PeerId, Node>, pks: set<Packet>)
    requires Quintet(peers) && At(peers, cores0, pks0) && Scene6(cores0)
    ensures At(peers, cores, pks) && Scene7(peers, cores) && pks0 <= pks && Batch(1, 3, 3, [B1, C2]) in pks
  {
    assert Tidy(peers, cores0[1], 1);
    FirstReturnsScene(peers, cores0);
    pks := Elect(peers, cores0, pks0, cores0[1], 2, 4);
    cores := Installed(cores0, cores0[1], 2, 4);
  }

  lemma FirstReturnsScene(peers: set<PeerId>, cores: map<PeerId, Node>)
    requires Quintet(peers) && Scene6(cores) && Tidy(peers, cores[1], 1)
    ensures Supports(cores[2], cores[1]) && Supports(cores[4], cores[1]) && TermsWithin(cores[1].log, cores[1].term)
    ensures Scene7(peers, Installed(cores, cores[1], 2, 4)) && Offer(Winner(cores[1], 2, 4), 3) == Batch(1, 3, 3, [B1, C2])
  {
    var n := cores[1];
    InstalledLooks(cores, n, 2, 4);
    WinnerLooks(peers, n, 2, 4);
    assert n.log + [C2] == [B1, C2];
    OfferLooks(peers, Winner(n, 2, 4), 3);
  }

  // The late request is refused, and the refusal counts for entries peer 2 does not have.

  ghost predicate Scene8(cores: map<PeerId, Node>) {
    && 1 in cores && 2 in cores && 3 in cores && 4 in cores && 5 in cores
    && Looks(cores[1], 3, Some(1), Leader, [B1, C2], 0)
    && Knows(cores[1], 1, 2) && Knows(cores[1], 2, 2) && Knows(cores[1], 3, 0)
    && Looks(cores[2], 3, None, Follower, [A1, A2], 0)
    && Looks(cores[3], 2, Some(3), Leader, [B1], 0)
    && Blank(cores[4], 3) && Blank(cores[5], 2)
  }

  lemma Phase8(peers: set<PeerId>) returns (cores: map<PeerId, Node>, pks: set<Packet>)
    requires Quintet(peers)
    ensures At(peers, cores, pks) && Scene8(cores) && Batch(1, 3, 3, [B1, C2]) in pks
  {
    var cores0, pks0 := Phase7(peers);
    cores, pks := RefusalArrives(peers, cores0, pks0);
  }

  lemma RefusalArrives(peers: set<PeerId>, cores0: map<PeerId, Node>, pks0: set<Packet>) returns (cores: map<PeerId, Node>, pks: set<Packet>)
    requires Quintet(peers) && At(peers, cores0, pks0) && Scene7(peers, cores0) && Probe(1, 2, 1, 2, 1) in pks0
    ensures At(peers, cores, pks) && Scene8(cores) && pks0 <= pks
  {
    assert Tidy(peers, cores0[1], 1) && Tidy(peers, cores0[2], 2);
    Refuses(peers, cores0, pks0, 1, 2, 1, 2, 1);
    pks := pks0 + {Refusal(2, 1, 3, 2, 1)};
    Misleads(peers, cores0, pks, cores0[1], 2, 2, 1);
    cores := cores0[1 := Credited(cores0[1], 2, 2)];
    RefusalScene(peers, cores0);
  }

  lemma RefusalScene(peers: set<PeerId>, cores: map<PeerId, Node>)
    requires Quintet(peers) && Scene7(peers, cores) && cores[1].id == 1
    ensures Scene8(cores[1 := Credited(cores[1], 2, 2)])
  {
  }

  lemma MergeSecond(b: Entry, c: Entry)
    ensures Merge([b], 0, [b, c]) == [b, c]
  {
    assert NewFrom([b], 0, [b, c], 1) == 1;
    assert FirstNew([b], 0, [b, c]) == 1;
    assert [b][..1] + [b, c][1..] == [b, c];
  }

  ghost predicate Scene9(cores: map<PeerId, Node>) {
    && 1 in cores && 2 in cores && 3 in cores && 4 in cores && 5 in cores
    && Looks(cores[1], 3, Some(1), Leader, [B1, C2], 2)
    && Looks(cores[2], 3, None, Follower, [A1, A2], 0)
    && Blank(cores[4], 3) && Blank(cores[5], 2)
  }

  lemma Phase9(peers: set<PeerId>) returns (cores: map<PeerId, Node>, pks: set<Packet>)
    requires Quintet(peers)
    ensures At(peers, cores, pks) && Scene9(cores)
  {
    var cores0, pks0 := Phase8(peers);
    cores, pks := FirstCommits(peers, cores0, pks0);
  }

  lemma FirstCommits(peers: set<PeerId>, cores0: map<PeerId, Node>, pks0: set<Packet>) returns (cores: map<PeerId, Node>, pks: set<Packet>)
    requires Quintet(peers) && At(peers, cores0, pks0) && Scene8(cores0) && Batch(1, 3, 3, [B1, C2]) in pks0
    ensures At(peers, cores, pks) && Scene9(cores)
  {
    assert Tidy(peers, cores0[1], 1) && Tidy(peers, cores0[3], 3);
    FirstCommitsScene(peers, cores0);
    Sync(peers, cores0, pks0, cores0[1], 3, [B1, C2], 2);
    cores, pks := Synced(cores0, cores0[1], 3, [B1, C2], 2), pks0 + {CopyAck(3, 1, 3, 2)};
  }

  lemma FirstCommitsScene(peers: set<PeerId>, cores: map<PeerId, Node>)
    requires Quintet(peers) && Scene8(cores) && Tidy(peers, cores[1], 1) && Tidy(peers, cores[3], 3)
    ensures Welcomes(cores[3], 3, 1, [B1, C2]) && ScanCommit(Credited(cores[1], 3, 2), 2) == 2
    ensures Scene9(Synced(cores, cores[1], 3, [B1, C2], 2))
  {
    MergeSecond(B1, C2);
    HasMajority(peers, Credited(cores[1], 3, 2), 1, 2, 3);
  }

  // Peer 2 leads term 4 with the old entries and commits them.

  ghost predicate Scene10(peers: set<PeerId>, cores: map<PeerId, Node>) {
    && 1 in cores && 2 in cores && 4 in cores && 5 in cores
    && cores[1].log == [B1, C2] && cores[1].commit == 2
    && Looks(cores[2], 4, Some(2), Leader, [A1, A2, D3], 0) && FreshTable(peers, cores[2])
    && Blank(cores[4], 4) && Blank(cores[5], 4)
  }

  lemma Phase10(peers: set<PeerId>) returns (cores: map<PeerId, Node>, pks: set<Packet>)
    requires Quintet(peers)
    ensures At(peers, cores, pks) && Scene10(peers, cores)
    ensures Batch(2, 4, 4, [A1, A2, D3]) in pks && Batch(2, 5, 4, [A1, A2, D3]) in pks
  {
    var cores0, pks0 := Phase9(peers);
    cores, pks := SecondWins(peers, cores0, pks0);
  }

  lemma SecondWins(peers: set<PeerId>, cores0: map<PeerId, Node>, pks0: set<Packet>) returns (cores: map<PeerId, Node>, pks: set<Packet>)
    requires Quintet(peers) && At(peers, cores0, pks0) && Scene9(cores0)
    ensures At(peers, cores, pks) && Scene10(peers, cores)
    ensures Batch(2, 4, 4, [A1, A2, D3]) in pks && Batch(2, 5, 4, [A1, A2, D3]) in pks
  {
    assert Tidy(peers, cores0[2], 2);
    SecondWinsScene(peers, cores0);
    pks := Elect(peers, cores0, pks0, cores0[2], 4, 5);
    cores := Installed(cores0, cores0[2], 4, 5);
  }

  lemma SecondWinsScene(peers: set<PeerId>, cores: map<PeerId, Node>)
    requires Quintet(peers) && Scene9(cores) && Tidy(peers, cores[2], 2)
    ensures Supports(cores[4], cores[2]) && Supports(cores[5], cores[2]) && TermsWithin(cores[2].log, cores[2].term)
    ensures Scene10(peers, Installed(cores, cores[2], 4, 5))
    ensures Offer(Winner(cores[2], 4, 5), 4) == Batch(2, 4, 4, [A1, A2, D3]) && Offer(Winner(cores[2], 4, 5), 5) == Batch(2, 5, 4, [A1, A2, D3])
  {
    var n := cores[2];
    InstalledLooks(cores, n, 4, 5);
    WinnerLooks(peers, n, 4, 5);
    assert n.log + [D3] == [A1, A2, D3];
    OfferLooks(peers, Winner(n, 4, 5), 4);
    OfferLooks(peers, Winner(n, 4, 5), 5);
  }

  ghost predicate Scene11(cores: map<PeerId, Node>) {
    && 1 in cores && 2 in cores && 5 in cores
    && cores[1].log == [B1, C2] && cores[1].commit == 2
    && Looks(cores[2], 4, Some(2), Leader, [A1, A2, D3], 0)
    && Knows(cores[2], 2, 3) && Knows(cores[2], 4, 3) && Knows(cores[2], 5, 0)
    && Blank(cores[5], 4)
  }

  lemma FourthCopies(peers: set<PeerId>, cores0: map<PeerId, Node>, pks0: set<Packet>) returns (cores: map<PeerId, Node>, pks: set<Packet>)
    requires Quintet(peers) && At(peers, cores0, pks0) && Scene10(peers, cores0) && Batch(2, 4, 4, [A1, A2, D3]) in pks0
    ensures At(peers, cores, pks) && Scene11(cores) && pks0 <= pks
  {
    assert Tidy(peers, cores0[2], 2) && Tidy(peers, cores0[4], 4);
    FourthCopiesScene(peers, cores0);
    Sync(peers, cores0, pks0, cores0[2], 4, [A1, A2, D3], 0);
    cores, pks := Synced(cores0, cores0[2], 4, [A1, A2, D3], 0), pks0 + {CopyAck(4, 2, 4, 3)};
  }

  lemma FourthCopiesScene(peers: set<PeerId>, cores: map<PeerId, Node>)
    requires Quintet(peers) && Scene10(peers, cores) && Tidy(peers, cores[2], 2) && Tidy(peers, cores[4], 4)
    ensures Welcomes(cores[4], 4, 2, [A1, A2, D3]) && ScanCommit(Credited(cores[2], 4, 3), 3) == 0
    ensures Scene11(Synced(cores, cores[2], 4, [A1, A2, D3], 0))
  {
    MergeFresh([], [A1, A2, D3]);
    NoMajority(peers, Credited(cores[2], 4, 3), 2, 4, 3);
  }

  ghost predicate Scene12(cores: map<PeerId, Node>) {
    && 1 in cores && 2 in cores
    && cores[1].log == [B1, C2] && cores[1].commit == 2
    && cores[2].log == [A1, A2, D3] && cores[2].commit == 3
  }

  lemma FifthCopies(peers: set<PeerId>, cores0: map<PeerId, Node>, pks0: set<Packet>) returns (cores: map<PeerId, Node>, pks: set<Packet>)
    requires Quintet(peers) && At(peers, cores0, pks0) && Scene11(cores0) && Batch(2, 5, 4, [A1, A2, D3]) in pks0
    ensures At(peers, cores, pks) && Scene12(cores)
  {
    assert Tidy(peers, cores0[2], 2) && Tidy(peers, cores0[5], 5);
    FifthCopiesScene(peers, cores0);
    Sync(peers, cores0, pks0, cores0[2], 5, [A1, A2, D3], 3);
    cores, pks := Synced(cores0, cores0[2], 5, [A1, A2, D3], 3), pks0 + {CopyAck(5, 2, 4, 3)};
  }

  lemma FifthCopiesScene(peers: set<PeerId>, cores: map<PeerId, Node>)
    requires Quintet(peers) && Scene11(cores) && Tidy(peers, cores[2], 2) && Tidy(peers, cores[5], 5)
    ensures Welcomes(cores[5], 4, 2, [A1, A2, D3]) && ScanCommit(Credited(cores[2], 5, 3), 3) == 3
    ensures Scene12(Synced(cores, cores[2], 5, [A1, A2, D3], 3))
  {
    MergeFresh([], [A1, A2, D3]);
    HasMajority(peers, Credited(cores[2], 5, 3), 2, 4, 5);
  }

  lemma Phase12(peers: set<PeerId>) returns (cores: map<PeerId, Node>, pks: set<Packet>)
    requires Quintet(peers)
    ensures At(peers, cores, pks) && Scene12(cores)
  {
    var cores0, pks0 := Phase10(peers);
    var cores1, pks1 := FourthCopies(peers, cores0, pks0);
    cores, pks := FifthCopies(peers, cores1, pks1);
  }

  /** Recording a stale refusal alone breaks agreement: a run of five peers in which no append
      raises a commit index past the entries it carried, and after which peers 1 and 2 have
      committed different entries at index 1. */
  lemma StaleRefusalsCanDiverge()
    ensures exists run: seq<State>, actions: seq<Action> ::
      CarefulRun(Batches, FIVE, run, actions) && Disagree(run[|actions|], 1, 2, 0)
  {
    assert |FIVE| == 5;
    var cores, pks := Phase12(FIVE);
    var run: seq<State>, actions: seq<Action> :| CarefulRun(Batches, FIVE, run, actions) && Shows(FIVE, run[|actions|], cores, pks);
    ShowsDisagreement(FIVE, run[|actions|], cores, pks, 1, 2, 0);
  }
}
