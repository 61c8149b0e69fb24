/** One Raft participant as a value, and each of its handlers as a function from state and
    input to new state and effects.  Clocks are booleans: whether an election timeout or a
    heartbeat interval has elapsed is an input. */
module RaftNode {
  import opened Types
  import opened RaftLog

  const MAX_APPEND_ENTRIES: nat := 5

  datatype Role = Follower | Candidate | Leader

  /** What the durable store holds; `None` until the first save. */
  datatype Store = Store(log: seq<Entry>, commit: Option<nat>)

  datatype Node = Node(
    id: PeerId,
    participants: set<PeerId>,
    term: nat,
    votedFor: Option<PeerId>,
    leader: Option<PeerId>,
    role: Role,
    votes: set<PeerId>,
    log: seq<Entry>,
    commit: nat,
    matched: map<PeerId, nat>,
    pending: map<BlockHash, BlockFile>,
    store: Store)

  /** New state, the effects on the local block layer in order, and the set of messages
      handed to the network (their relative order follows hash-set iteration and is free). */
  datatype Outcome = Outcome(node: Node, local: seq<Effect>, wire: set<Effect>)

  /** Entries of an append whose payloads were checked, with the decoded blocks. */
  datatype Validated = Validated(entries: seq<Entry>, blocks: map<BlockHash, BlockFile>)

  datatype AppendRequest = AppendRequest(
    term: nat, leader: PeerId, prevIndex: nat, prevTerm: nat, leaderCommit: nat, from: PeerId)

  ghost predicate Sound(n: Node) {
    WellFormed(n.log) && n.commit <= |n.log|
  }

  function Min(a: nat, b: nat): nat { if a <= b then a else b }

  function Max(a: nat, b: nat): nat { if a >= b then a else b }

  // ---------------------------------------------------------------- start-up

  function Fresh(id: PeerId, store: Store, commitHint: nat): Node {
    var commit := match store.commit case Some(c) => c case None => commitHint;
    Node(id, {id}, 0, None, None, Follower, {}, store.log, Min(commit, LastIndex(store.log)), map[], map[], store)
  }

  // ---------------------------------------------------------------- election

  function Majority(n: Node): nat {
    |n.participants| / 2 + 1
  }

  function UpdateParticipants(n: Node, known: set<PeerId>): Node {
    var all := known + {n.id};
    n.(participants := all, votes := n.votes * all, matched := map q | q in n.matched && q in all :: n.matched[q])
  }

  function StepDown(n: Node, term: nat): Node {
    n.(term := term, role := Follower, votedFor := None, leader := None, votes := {})
  }

  function StepDownOnNewer(n: Node, term: nat): Node {
    if term > n.term then StepDown(n, term) else n
  }

  /** The state a candidate takes when its votes reach a majority. */
  function Crown(n: Node): Node {
    n.(role := Leader, leader := Some(n.id),
       matched := map q | q in n.participants :: if q == n.id then LastIndex(n.log) else 0)
  }

  function BecomeLeaderIfMajority(n: Node): Node {
    if |n.votes| >= Majority(n) then Crown(n) else n
  }

  /** Candidacy before the own vote is counted. */
  function Candidacy(n: Node): Node {
    n.(term := n.term + 1, role := Candidate, votedFor := Some(n.id), leader := None, votes := {n.id})
  }

  predicate UpToDate(lastIndex: nat, lastTerm: nat, log: seq<Entry>) {
    lastTerm > LastTerm(log) || (lastTerm == LastTerm(log) && lastIndex >= LastIndex(log))
  }

  predicate GrantsVote(n: Node, candidate: PeerId, lastIndex: nat, lastTerm: nat) {
    UpToDate(lastIndex, lastTerm, n.log) && (n.votedFor == None || n.votedFor == Some(candidate))
  }

  function OnRequestVote(n: Node, term: nat, candidate: PeerId, lastIndex: nat, lastTerm: nat, from: PeerId): Outcome {
    var n1 := StepDownOnNewer(n, term);
    var granted := term >= n.term && GrantsVote(n1, candidate, lastIndex, lastTerm);
    var n2 := if granted then n1.(votedFor := Some(candidate)) else n1;
    Outcome(n2, [], {Send(from, RequestVoteResponse(n2.term, granted))})
  }

  function OnRequestVoteResponse(n: Node, term: nat, voter: PeerId, granted: bool): Outcome {
    if term > n.term then Outcome(StepDown(n, term), [], {})
    else if n.role == Candidate && term == n.term && granted && voter in n.participants then
      var n1 := BecomeLeaderIfMajority(n.(votes := n.votes + {voter}));
      if n1.role == Leader then AppendNoop(n1) else Outcome(n1, [], {})
    else Outcome(n, [], {})
  }

  function OnTick(n: Node, known: set<PeerId>, electionDue: bool, heartbeatDue: bool): Outcome {
    var n0 := UpdateParticipants(n, known);
    if n0.role == Leader then
      Outcome(n0, [], if heartbeatDue then FollowerAppends(n0) else {})
    else if electionDue then
      var n1 := BecomeLeaderIfMajority(Candidacy(n0));
      var ask := Broadcast(RequestVote(n1.term, n1.id, LastIndex(n1.log), LastTerm(n1.log)));
      if n1.role == Leader then
        var o := AppendNoop(n1);
        o.(wire := o.wire + {ask})
      else Outcome(n1, [], {ask})
    else Outcome(n0, [], {})
  }

  // ------------------------------------------------------------- leader side

  /** A leader's append message to one follower. */
  function AppendEffect(n: Node, q: PeerId): Effect {
    var prev := Min(if q in n.matched then n.matched[q] else 0, |n.log|);
    SendRaftAppendEntries(q, n.term, prev, TermAt(n.log, prev).value,
                          n.log[prev..Min(prev + MAX_APPEND_ENTRIES, |n.log|)], n.commit)
  }

  function FollowerAppends(n: Node): set<Effect> {
    set q | q in n.participants && q != n.id :: AppendEffect(n, q)
  }

  /** The participants known to hold index i. */
  function Replicas(n: Node, i: nat): set<PeerId> {
    set q | q in n.participants && q in n.matched && n.matched[q] >= i
  }

  predicate Committable(n: Node, i: nat)
    requires 1 <= i <= |n.log|
  {
    n.log[i - 1].term == n.term && |Replicas(n, i)| >= Majority(n)
  }

  /** The newest committable index at or below i, or the old commit index. */
  function ScanCommit(n: Node, i: nat): nat
    requires i <= |n.log|
  {
    if i <= n.commit then n.commit
    else if Committable(n, i) then i
    else ScanCommit(n, i - 1)
  }

  /** The leader's reverse scan finds the largest index above the old commit index that has
      the current term and a majority of replicas, and otherwise leaves the index alone. */
  lemma {:induction false} ScanExact(n: Node, i: nat)
    requires i <= |n.log|
    ensures var c := ScanCommit(n, i);
      && n.commit <= c && (n.commit <= |n.log| ==> c <= |n.log|)
      && (c > n.commit ==> c <= i && Committable(n, c))
      && (forall j :: c < j <= i && 1 <= j ==> !Committable(n, j))
  {
    if i > n.commit && !Committable(n, i) {
      ScanExact(n, i - 1);
    }
  }

  function AdvanceCommit(n: Node): Node {
    n.(commit := ScanCommit(n, |n.log|))
  }

  function CommitEffects(hashes: seq<BlockHash>): seq<Effect> {
    seq(|hashes|, i requires 0 <= i < |hashes| => CommitBlock(hashes[i]))
  }

  function RollbackEffects(hashes: seq<BlockHash>): seq<Effect> {
    seq(|hashes|, i requires 0 <= i < |hashes| => RollbackBlock(hashes[i]))
  }

  /** Commit effects for the stretch of the log between two commit indexes. */
  function CommitsBetween(log: seq<Entry>, from: nat, to: nat): seq<Effect> {
    if from <= to <= |log| then CommitEffects(BlockHashes(log[from..to])) else []
  }

  function Persist(n: Node): Node {
    n.(store := Store(n.log, Some(n.commit)))
  }

  /** Append one entry of the leader's own term, offer it to the followers, try to commit. */
  function AppendOwn(n: Node, hash: BlockHash): Outcome {
    var e := Entry(n.term, LastIndex(n.log) + 1, hash);
    var n1 := n.(log := n.log + [e], matched := n.matched[n.id := e.index]);
    var n2 := AdvanceCommit(n1);
    Outcome(Persist(n2), CommitsBetween(n1.log, n1.commit, n2.commit), FollowerAppends(n1))
  }

  function AppendNoop(n: Node): Outcome {
    AppendOwn(n, EMPTY_HASH)
  }

  predicate HasUncommittedBlock(n: Node) {
    exists k :: 0 <= k < |n.log| && n.log[k].index > n.commit && !n.log[k].IsNoop()
  }

  /** `None` is the refusal to start a second block while one is in flight. */
  function OnBlockCreated(n: Node, hash: BlockHash): Option<Outcome> {
    if n.role != Leader then Some(Outcome(n, [], {}))
    else if HasUncommittedBlock(n) then None
    else Some(AppendOwn(n, hash))
  }

  function OnAppendEntriesResponse(n: Node, term: nat, from: PeerId, success: bool, matchIndex: nat): Outcome {
    if term > n.term then Outcome(StepDown(n, term), [], {})
    else if n.role != Leader || term != n.term || from !in n.participants then Outcome(n, [], {})
    else if success then
      var previous := if from in n.matched then n.matched[from] else 0;
      var n1 := n.(matched := n.matched[from := Max(previous, matchIndex)]);
      var n2 := AdvanceCommit(n1);
      Outcome(if n2.commit != n.commit then Persist(n2) else n2, CommitsBetween(n.log, n.commit, n2.commit), {})
    else
      var m := Min(matchIndex, LastIndex(n.log));
      var n1 := n.(matched := n.matched[from := m]);
      Outcome(n1, [], if m >= LastIndex(n.log) then {} else {AppendEffect(n1, from)})
  }

  // ----------------------------------------------------------- follower side

  /** Whether an append is admitted at all: sender, term and known-leader checks. */
  predicate Admits(n: Node, term: nat, leader: PeerId, from: PeerId, timedOut: bool) {
    && from == leader && leader in n.participants && term >= n.term
    && (term > n.term || n.leader == None || n.leader == Some(leader) || timedOut)
  }

  function Follow(n: Node, leader: PeerId): Node {
    n.(role := Follower, leader := Some(leader), votes := {})
  }

  /** Highest index the node can vouch for against the request. */
  function MatchingIndex(log: seq<Entry>, prevIndex: nat, prevTerm: nat, entries: seq<Entry>): nat {
    var previous := if TermAt(log, prevIndex) == Some(prevTerm) then prevIndex else 0;
    match MaxMatch(log, entries) case Some(i) => i case None => previous
  }

  function MaxMatch(log: seq<Entry>, entries: seq<Entry>): Option<nat> {
    if entries == [] then None
    else
      var e := entries[|entries| - 1];
      var rest := MaxMatch(log, entries[..|entries| - 1]);
      if TermAt(log, e.index) == Some(e.term) then
        Some(if rest.Some? then Max(rest.value, e.index) else e.index)
      else rest
  }

  /** Whether the log accepts the append: the previous entry matches, the entries are
      contiguous, and no conflict reaches into committed history. */
  predicate Accepts(n: Node, prevIndex: nat, prevTerm: nat, entries: seq<Entry>) {
    && TermAt(n.log, prevIndex) == Some(prevTerm)
    && ContiguousAfter(prevIndex, entries)
    && var k := FirstNew(n.log, prevIndex, entries);
       (k < |entries| && prevIndex + k < |n.log| ==> prevIndex + k + 1 > n.commit)
  }

  function ToStage(entries: seq<Entry>, commit: nat): seq<Entry> {
    if entries == [] then []
    else (if entries[0].index > commit && !entries[0].IsNoop() then [entries[0]] else [])
         + ToStage(entries[1..], commit)
  }

  /** Log and commit index after an accepted append. */
  function Appended(n: Node, prevIndex: nat, prevTerm: nat, entries: seq<Entry>, leaderCommit: nat): Node
    requires Accepts(n, prevIndex, prevTerm, entries)
  {
    var log := Merge(n.log, prevIndex, entries);
    n.(log := log, commit := Max(n.commit, Min(leaderCommit, LastIndex(log))))
  }

  function AppendedEffects(n: Node, prevIndex: nat, prevTerm: nat, entries: seq<Entry>, leaderCommit: nat): seq<Effect>
    requires Accepts(n, prevIndex, prevTerm, entries)
  {
    var n1 := Appended(n, prevIndex, prevTerm, entries, leaderCommit);
    var staged := ToStage(entries, n.commit);
    RollbackEffects(BlockHashes(Discarded(n.log, prevIndex, entries)))
    + (if staged == [] then [] else [StageRaftEntries(staged)])
    + CommitsBetween(n1.log, n.commit, n1.commit)
  }

  /** Blocks moved from the request to the pending table, one per staged entry's hash. */
  function Retain(pending: map<BlockHash, BlockFile>, blocks: map<BlockHash, BlockFile>, staged: seq<Entry>)
    : map<BlockHash, BlockFile>
    decreases |staged|
  {
    if staged == [] then pending
    else
      var h := staged[0].hash;
      if h in blocks then Retain(pending[h := blocks[h]], blocks - {h}, staged[1..])
      else Retain(pending, blocks, staged[1..])
  }

  function Reply(n: Node, to: PeerId, success: bool, matchIndex: nat): Effect {
    Send(to, AppendEntriesResponse(n.term, success, matchIndex))
  }

  /** An append request, with the result of checking its payloads. */
  function OnAppendEntries(n: Node, r: AppendRequest, checked: Result<Validated>, timedOut: bool): Outcome {
    if !Admits(n, r.term, r.leader, r.from, timedOut) then
      Outcome(n, [], {Reply(n, r.from, false, MatchingIndex(n.log, r.prevIndex, r.prevTerm, []))})
    else
      var n1 := Follow(StepDownOnNewer(n, r.term), r.leader);
      match checked
      case Err(_) => Outcome(n1, [], {Reply(n1, r.from, false, MatchingIndex(n1.log, r.prevIndex, r.prevTerm, []))})
      case Ok(v) => OnCheckedAppend(n1, r, v)
  }

  /** An admitted append whose payloads were all valid. */
  function OnCheckedAppend(n: Node, r: AppendRequest, v: Validated): Outcome {
    if !Accepts(n, r.prevIndex, r.prevTerm, v.entries) then
      Outcome(n, [], {Reply(n, r.from, false, MatchingIndex(n.log, r.prevIndex, r.prevTerm, v.entries))})
    else
      var n1 := Appended(n, r.prevIndex, r.prevTerm, v.entries, r.leaderCommit);
      var n2 := n1.(pending := Retain(n.pending, v.blocks, ToStage(v.entries, n.commit)));
      var last := if v.entries == [] then r.prevIndex else v.entries[|v.entries| - 1].index;
      Outcome(if last > r.prevIndex || n2.commit != n.commit then Persist(n2) else n2,
              AppendedEffects(n, r.prevIndex, r.prevTerm, v.entries, r.leaderCommit),
              {Reply(n2, r.from, true, last)})
  }
}
