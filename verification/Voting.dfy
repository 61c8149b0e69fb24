/** The leaderless voting mode: one ballot per block hash, decided by counting votes. */
module Voting {
  import opened Types

  datatype Verdict = Pending | Approved | Rejected

  datatype Ballot = Ballot(participants: set<PeerId>, approvals: set<PeerId>, rejections: set<PeerId>, outcome: Option<Verdict>)

  type Ballots = map<BlockHash, Ballot>

  datatype Handled = Handled(ballots: Ballots, effects: seq<Effect>)

  function NewBallot(me: PeerId, known: set<PeerId>): Ballot {
    Ballot(known + {me}, {}, {}, None)
  }

  /** Faults tolerated by n participants. */
  function Faults(n: nat): nat {
    if n == 0 then 0 else (n - 1) / 3
  }

  function Evaluate(total: nat, approvals: nat, rejections: nat): Verdict {
    var f := Faults(total);
    if approvals >= 2 * f + 1 then Approved
    else if rejections >= f then Rejected
    else Pending
  }

  predicate AlreadyVoted(b: Ballot, p: PeerId) {
    p in b.approvals || p in b.rejections
  }

  /** The ballot after a vote; its outcome, once set, is the answer to every later vote. */
  function Cast(b: Ballot, p: PeerId, approve: bool): Ballot {
    if b.outcome.Some? || p !in b.participants then b
    else
      var b1 := if approve then b.(approvals := b.approvals + {p}) else b.(rejections := b.rejections + {p});
      var v := Evaluate(|b1.participants|, |b1.approvals|, |b1.rejections|);
      if v == Pending then b1 else b1.(outcome := Some(v))
  }

  function Announce(hash: BlockHash, outcome: Option<Verdict>): seq<Effect> {
    match outcome
    case Some(Approved) => [CommitBlock(hash), Broadcast(BlockApproved(hash))]
    case Some(Rejected) => [RollbackBlock(hash), Broadcast(BlockReject(hash))]
    case _ => []
  }

  function Opened(me: PeerId, ballots: Ballots, known: set<PeerId>, hash: BlockHash): Ballot {
    if hash in ballots then ballots[hash] else NewBallot(me, known)
  }

  /** A vote for a hash: the first one opens the ballot with the peers known then. */
  function Handle(me: PeerId, ballots: Ballots, known: set<PeerId>, hash: BlockHash, from: PeerId, approve: bool): Handled {
    var b := Opened(me, ballots, known, hash);
    if AlreadyVoted(b, from) || b.outcome.Some? then Handled(ballots[hash := b], [])
    else
      var b1 := Cast(b, from, approve);
      Handled(ballots[hash := b1], Announce(hash, b1.outcome))
  }

  datatype Input =
    | LocalProposal(hash: BlockHash)
    | ProposalValidated(hash: BlockHash, proposer: PeerId, valid: bool)
    | BlockVote(hash: BlockHash, from: PeerId, approve: bool)

  /** A validated proposal counts as the proposer's approval and, unless that settles it, as
      the own vote. */
  function React(me: PeerId, ballots: Ballots, known: set<PeerId>, input: Input): Handled {
    match input
    case LocalProposal(hash) => Handle(me, ballots, known, hash, me, true)
    case BlockVote(hash, from, approve) => Handle(me, ballots, known, hash, from, approve)
    case ProposalValidated(hash, proposer, valid) =>
      var r := Handle(me, ballots, known, hash, proposer, true);
      if r.effects != [] then r else Handle(me, r.ballots, known, hash, me, valid)
  }

  /** The peers known may differ at every step. */
  datatype Event = Event(known: set<PeerId>, input: Input)

  function Run(me: PeerId, events: seq<Event>): Handled {
    if events == [] then Handled(map[], [])
    else
      var before := Run(me, events[..|events| - 1]);
      var e := events[|events| - 1];
      var after := React(me, before.ballots, e.known, e.input);
      Handled(after.ballots, before.effects + after.effects)
  }

  // ---------------------------------------------------------------- finality

  /** The decisions on one hash among a list of effects. */
  function Decisions(effects: seq<Effect>, hash: BlockHash): seq<Effect> {
    if effects == [] then []
    else
      var last := effects[|effects| - 1];
      Decisions(effects[..|effects| - 1], hash)
      + (if last == CommitBlock(hash) || last == RollbackBlock(hash) then [last] else [])
  }

  lemma {:induction false} DecisionsConcat(a: seq<Effect>, b: seq<Effect>, hash: BlockHash)
    ensures Decisions(a + b, hash) == Decisions(a, hash) + Decisions(b, hash)
  {
    if b == [] {
      assert a + b == a;
    } else {
      assert (a + b)[..|a + b| - 1] == a + b[..|b| - 1];
      DecisionsConcat(a, b[..|b| - 1], hash);
    }
  }

  function Verdicts(ballots: Ballots, hash: BlockHash): seq<Effect> {
    if hash in ballots && ballots[hash].outcome == Some(Approved) then [CommitBlock(hash)]
    else if hash in ballots && ballots[hash].outcome == Some(Rejected) then [RollbackBlock(hash)]
    else []
  }

  /** Votes come from participants, nobody is counted on both sides, and an open ballot is
      short of both thresholds. */
  ghost predicate Sound(b: Ballot) {
    && b.participants != {} && b.approvals <= b.participants && b.rejections <= b.participants
    && b.approvals !! b.rejections
    && b.outcome != Some(Pending)
    && (b.outcome == None && b.approvals + b.rejections != {} ==>
          Evaluate(|b.participants|, |b.approvals|, |b.rejections|) == Pending)
  }

  ghost predicate AllSound(ballots: Ballots) {
    forall h :: h in ballots ==> Sound(ballots[h])
  }

  lemma AnnounceDecides(hash: BlockHash, outcome: Option<Verdict>, h: BlockHash)
    requires outcome != Some(Pending)
    ensures Decisions(Announce(hash, outcome), h) ==
      if h != hash then []
      else if outcome == Some(Approved) then [CommitBlock(hash)]
      else if outcome == Some(Rejected) then [RollbackBlock(hash)]
      else []
  {
    var e := Announce(hash, outcome);
    if e != [] {
      assert e[..1][..0] == [];
      assert Decisions(e, h) == Decisions(e[..1], h);
    }
  }

  lemma CastSound(b: Ballot, p: PeerId, approve: bool)
    requires Sound(b) && !AlreadyVoted(b, p)
    ensures Sound(Cast(b, p, approve)) && Cast(b, p, approve).participants == b.participants
  {
  }

  /** Ballots stay sound, and the decisions announced are the ones recorded. */
  ghost predicate Keeps(ballots: Ballots, r: Handled, h: BlockHash) {
    AllSound(r.ballots) && Verdicts(r.ballots, h) == Verdicts(ballots, h) + Decisions(r.effects, h)
  }

  lemma KeepsThen(ballots: Ballots, r: Handled, r': Handled, h: BlockHash)
    requires Keeps(ballots, r, h) && r.effects == [] && Keeps(r.ballots, r', h)
    ensures Keeps(ballots, r', h)
  {
  }

  lemma HandleKeeps(me: PeerId, ballots: Ballots, known: set<PeerId>, hash: BlockHash, from: PeerId, approve: bool, h: BlockHash)
    requires AllSound(ballots)
    ensures Keeps(ballots, Handle(me, ballots, known, hash, from, approve), h)
  {
    var b := Opened(me, ballots, known, hash);
    assert Sound(b);
    if AlreadyVoted(b, from) || b.outcome.Some? {
      BallotKept(ballots, hash, b, h, []);
    } else {
      var c := Cast(b, from, approve);
      CastSound(b, from, approve);
      AnnounceDecides(hash, c.outcome, h);
      BallotKept(ballots, hash, c, h, Announce(hash, c.outcome));
    }
  }

  /** Recording a ballot, with the decision it announces if it was open before. */
  lemma BallotKept(ballots: Ballots, hash: BlockHash, c: Ballot, h: BlockHash, effects: seq<Effect>)
    requires AllSound(ballots) && Sound(c)
    requires if hash in ballots && (ballots[hash].outcome.Some? || c.outcome == None) then c.outcome == ballots[hash].outcome && Decisions(effects, h) == []
      else Decisions(effects, h) == (if h == hash then Verdicts(map[hash := c], hash) else [])
    ensures Keeps(ballots, Handled(ballots[hash := c], effects), h)
  {
  }

  lemma ReactKeeps(me: PeerId, ballots: Ballots, known: set<PeerId>, input: Input, h: BlockHash)
    requires AllSound(ballots)
    ensures Keeps(ballots, React(me, ballots, known, input), h)
  {
    match input
    case LocalProposal(hash) => HandleKeeps(me, ballots, known, hash, me, true, h);
    case BlockVote(hash, from, approve) => HandleKeeps(me, ballots, known, hash, from, approve, h);
    case ProposalValidated(hash, proposer, valid) =>
      HandleKeeps(me, ballots, known, hash, proposer, true, h);
      var r := Handle(me, ballots, known, hash, proposer, true);
      if r.effects == [] {
        HandleKeeps(me, r.ballots, known, hash, me, valid, h);
        KeepsThen(ballots, r, Handle(me, r.ballots, known, hash, me, valid), h);
      }
  }

  /** Over any run the decisions emitted for a hash are exactly the ballot's outcome: at most
      one, never both a commit and a rollback. */
  lemma {:induction false} Finality(me: PeerId, events: seq<Event>, h: BlockHash)
    ensures var r := Run(me, events);
      AllSound(r.ballots) && Decisions(r.effects, h) == Verdicts(r.ballots, h) && |Decisions(r.effects, h)| <= 1
  {
    if events != [] {
      var n := |events| - 1;
      var before := Run(me, events[..n]);
      Finality(me, events[..n], h);
      ReactKeeps(me, before.ballots, events[n].known, events[n].input, h);
      DecisionsConcat(before.effects, React(me, before.ballots, events[n].known, events[n].input).effects, h);
    }
  }

  // ----------------------------------------------------------------- latency

  /** An open ballot has fewer than three votes per fault, and none at all without faults. */
  lemma OpenBallotBound(b: Ballot)
    requires Sound(b) && b.outcome == None
    ensures var f := Faults(|b.participants|);
      |b.approvals + b.rejections| <= (if f == 0 then 0 else 3 * f - 1)
  {
    assert |b.approvals + b.rejections| == |b.approvals| + |b.rejections| by {
      assert b.approvals * b.rejections == {};
    }
    if b.approvals + b.rejections == {} {
      assert |b.approvals + b.rejections| == 0;
    }
  }

  /** The peers whose vote on h an input carries. */
  function Heard(me: PeerId, input: Input, h: BlockHash): set<PeerId> {
    match input
    case LocalProposal(hash) => if hash == h then {me} else {}
    case BlockVote(hash, from, _) => if hash == h then {from} else {}
    case ProposalValidated(hash, proposer, _) => if hash == h then {proposer, me} else {}
  }

  function HeardAll(me: PeerId, events: seq<Event>, h: BlockHash): set<PeerId> {
    if events == [] then {}
    else HeardAll(me, events[..|events| - 1], h) + Heard(me, events[|events| - 1].input, h)
  }

  /** An open ballot has counted exactly the participants among `heard`. */
  ghost predicate Counted(ballots: Ballots, h: BlockHash, heard: set<PeerId>) {
    if h in ballots then
      var b := ballots[h];
      b.outcome == None ==> b.approvals + b.rejections == heard * b.participants
    else heard == {}
  }

  lemma HandleCounts(me: PeerId, ballots: Ballots, known: set<PeerId>, hash: BlockHash, from: PeerId, approve: bool, h: BlockHash, heard: set<PeerId>)
    requires AllSound(ballots) && Counted(ballots, h, heard)
    ensures var r := Handle(me, ballots, known, hash, from, approve);
      Counted(r.ballots, h, if hash == h then heard + {from} else heard)
  {
    if hash == h {
      var b := Opened(me, ballots, known, hash);
      if b.outcome == None {
        assert b.approvals + b.rejections == heard * b.participants;
        CastCounts(b, from, approve, heard);
      }
    }
  }

  lemma CastCounts(b: Ballot, p: PeerId, approve: bool, heard: set<PeerId>)
    requires b.outcome == None && b.approvals + b.rejections == heard * b.participants
    ensures var c := if AlreadyVoted(b, p) then b else Cast(b, p, approve);
      c.approvals + c.rejections == (heard + {p}) * b.participants && c.participants == b.participants
  {
    var c := if AlreadyVoted(b, p) then b else Cast(b, p, approve);
    forall q ensures q in c.approvals + c.rejections <==> q in (heard + {p}) * b.participants {
      assert q in b.approvals + b.rejections <==> q in heard * b.participants;
    }
  }

  lemma ReactCounts(me: PeerId, ballots: Ballots, known: set<PeerId>, input: Input, h: BlockHash, heard: set<PeerId>)
    requires AllSound(ballots) && Counted(ballots, h, heard)
    ensures Counted(React(me, ballots, known, input).ballots, h, heard + Heard(me, input, h))
  {
    match input
    case LocalProposal(hash) => HandleCounts(me, ballots, known, hash, me, true, h, heard);
      if hash != h { assert heard + {} == heard; }
    case BlockVote(hash, from, approve) => HandleCounts(me, ballots, known, hash, from, approve, h, heard);
      if hash != h { assert heard + {} == heard; }
    case ProposalValidated(hash, proposer, valid) => ProposalCounts(me, ballots, known, hash, proposer, valid, h, heard);
  }

  lemma ProposalCounts(me: PeerId, ballots: Ballots, known: set<PeerId>, hash: BlockHash, proposer: PeerId, valid: bool, h: BlockHash, heard: set<PeerId>)
    requires AllSound(ballots) && Counted(ballots, h, heard)
    ensures Counted(React(me, ballots, known, ProposalValidated(hash, proposer, valid)).ballots, h, if hash == h then heard + {proposer, me} else heard + {})
  {
    HandleCounts(me, ballots, known, hash, proposer, true, h, heard);
    assert heard + {proposer} + {me} == heard + {proposer, me} && heard + {} == heard;
    var r := Handle(me, ballots, known, hash, proposer, true);
    if r.effects != [] {
      EffectsDecide(me, ballots, known, hash, proposer, true);
    } else {
      HandleKeeps(me, ballots, known, hash, proposer, true, h);
      HandleCounts(me, r.ballots, known, hash, me, valid, h, if hash == h then heard + {proposer} else heard);
    }
  }

  lemma EffectsDecide(me: PeerId, ballots: Ballots, known: set<PeerId>, hash: BlockHash, from: PeerId, approve: bool)
    ensures var r := Handle(me, ballots, known, hash, from, approve);
      hash in r.ballots && (r.effects != [] ==> r.ballots[hash].outcome.Some?)
  {
  }

  lemma {:induction false} RunCounts(me: PeerId, events: seq<Event>, h: BlockHash)
    ensures AllSound(Run(me, events).ballots) && Counted(Run(me, events).ballots, h, HeardAll(me, events, h))
  {
    Finality(me, events, h);
    if events != [] {
      var n := |events| - 1;
      RunCounts(me, events[..n], h);
      ReactCounts(me, Run(me, events[..n]).ballots, events[n].known, events[n].input, h, HeardAll(me, events[..n], h));
    }
  }

  /** Over any run, whatever the order, repetition or content of the votes, a ballot is decided
      once three participants per tolerated fault have been heard, and at the first vote when
      no fault is tolerated. */
  lemma DecidedInTime(me: PeerId, events: seq<Event>, h: BlockHash)
    requires var ballots := Run(me, events).ballots;
      h in ballots && var n := |ballots[h].participants|;
      |HeardAll(me, events, h) * ballots[h].participants| >= (if Faults(n) == 0 then 1 else 3 * Faults(n))
    ensures Run(me, events).ballots[h].outcome.Some?
  {
    RunCounts(me, events, h);
    var b := Run(me, events).ballots[h];
    if b.outcome == None {
      OpenBallotBound(b);
    }
  }

  // --------------------------------------------------------------- tightness

  datatype Vote = Vote(from: PeerId, approve: bool)

  /** Votes on one hash, in order of arrival. */
  function VotesOn(h: BlockHash, known: set<PeerId>, votes: seq<Vote>): seq<Event> {
    seq(|votes|, i requires 0 <= i < |votes| => Event(known, BlockVote(h, votes[i].from, votes[i].approve)))
  }

  /** The ballot after those votes. */
  function CountAll(b: Ballot, votes: seq<Vote>): Ballot {
    if votes == [] then b
    else
      var b1 := CountAll(b, votes[..|votes| - 1]);
      var v := votes[|votes| - 1];
      if AlreadyVoted(b1, v.from) || b1.outcome.Some? then b1 else Cast(b1, v.from, v.approve)
  }

  lemma {:induction false} RunsBallot(me: PeerId, h: BlockHash, known: set<PeerId>, votes: seq<Vote>)
    ensures var ballots := Run(me, VotesOn(h, known, votes)).ballots;
      if votes == [] then ballots == map[] else h in ballots && ballots[h] == CountAll(NewBallot(me, known), votes)
  {
    if votes != [] {
      var n := |votes| - 1;
      var events := VotesOn(h, known, votes);
      assert events[..n] == VotesOn(h, known, votes[..n]);
      RunsBallot(me, h, known, votes[..n]);
      if n == 0 {
        assert votes[..n] == [];
      }
    }
  }

  lemma {:induction false} Enumerate(s: set<PeerId>) returns (order: seq<PeerId>)
    ensures |order| == |s| && (forall i :: 0 <= i < |order| ==> order[i] in s)
    ensures forall i, j :: 0 <= i < j < |order| ==> order[i] != order[j]
    decreases |s|
  {
    if s == {} {
      order := [];
    } else {
      var x :| x in s;
      var rest := Enumerate(s - {x});
      order := rest + [x];
    }
  }

  /** The first `yes` voters approve, the others reject. */
  function Split(order: seq<PeerId>, yes: nat): seq<Vote> {
    seq(|order|, i requires 0 <= i < |order| => Vote(order[i], i < yes))
  }

  /** Open, with at most so many votes on each side, all from the peers listed. */
  ghost predicate Open(c: Ballot, participants: set<PeerId>, order: seq<PeerId>, yes: nat, no: nat) {
    && c.outcome == None && c.participants == participants
    && |c.approvals| <= yes && |c.rejections| <= no
    && forall p :: AlreadyVoted(c, p) ==> p in order
  }

  lemma OpenStep(c: Ballot, participants: set<PeerId>, order: seq<PeerId>, yes: nat, no: nat, p: PeerId, approve: bool)
    requires Open(c, participants, order, yes, no) && p in participants && p !in order
    requires var f := Faults(|participants|);
      if approve then yes < 2 * f && no < f else yes <= 2 * f && no + 1 < f
    ensures !AlreadyVoted(c, p)
    ensures Open(Cast(c, p, approve), participants, order + [p], if approve then yes + 1 else yes, if approve then no else no + 1)
  {
  }

  lemma SplitSnoc(b: Ballot, order: seq<PeerId>, yes: nat)
    requires order != []
    ensures var n := |order| - 1; var c := CountAll(b, Split(order[..n], yes));
      CountAll(b, Split(order, yes)) == if AlreadyVoted(c, order[n]) || c.outcome.Some? then c else Cast(c, order[n], n < yes)
  {
    var n := |order| - 1;
    assert Split(order, yes)[..n] == Split(order[..n], yes);
  }

  /** Distinct participants. */
  ghost predicate Lineup(order: seq<PeerId>, participants: set<PeerId>) {
    && (forall i :: 0 <= i < |order| ==> order[i] in participants)
    && forall i, j :: 0 <= i < j < |order| ==> order[i] != order[j]
  }

  lemma LineupInit(order: seq<PeerId>, participants: set<PeerId>)
    requires Lineup(order, participants) && order != []
    ensures var n := |order| - 1;
      Lineup(order[..n], participants) && order[n] in participants && order[n] !in order[..n] && order[..n] + [order[n]] == order
  {
  }

  lemma {:induction false} SplitStaysOpen(b: Ballot, order: seq<PeerId>, yes: nat)
    requires b.approvals == {} && b.rejections == {} && b.outcome == None && Lineup(order, b.participants)
    requires yes <= 2 * Faults(|b.participants|) && |order| < yes + Faults(|b.participants|)
    ensures Open(CountAll(b, Split(order, yes)), b.participants, order, if |order| <= yes then |order| else yes, if |order| <= yes then 0 else |order| - yes)
    decreases |order|
  {
    if order != [] {
      var n := |order| - 1;
      LineupInit(order, b.participants);
      SplitStaysOpen(b, order[..n], yes);
      SplitSnoc(b, order, yes);
      OpenStep(CountAll(b, Split(order[..n], yes)), b.participants, order[..n], if n <= yes then n else yes, if n <= yes then 0 else n - yes, order[n], n < yes);
    }
  }

  lemma {:induction false} BallotHears(me: PeerId, h: BlockHash, known: set<PeerId>, votes: seq<Vote>)
    ensures HeardAll(me, VotesOn(h, known, votes), h) == set i | 0 <= i < |votes| :: votes[i].from
  {
    if votes != [] {
      var n := |votes| - 1;
      BallotHears(me, h, known, votes[..n]);
      assert VotesOn(h, known, votes)[..n] == VotesOn(h, known, votes[..n]);
      assert (set i | 0 <= i < |votes| :: votes[i].from) == (set i | 0 <= i < n :: votes[..n][i].from) + {votes[n].from};
    }
  }

  /** One vote less can leave the ballot open: with f at least 1, there is a run in which 3f - 1
      distinct participants are heard and nothing is decided. */
  lemma OneVoteShort(me: PeerId, known: set<PeerId>, h: BlockHash) returns (events: seq<Event>)
    requires Faults(|known + {me}|) >= 1
    ensures var ballots := Run(me, events).ballots; var f := Faults(|known + {me}|);
      && h in ballots && ballots[h].participants == known + {me} && ballots[h].outcome == None
      && HeardAll(me, events, h) <= known + {me} && |HeardAll(me, events, h)| == 3 * f - 1
  {
    var b := NewBallot(me, known);
    var f := Faults(|b.participants|);
    var all := Enumerate(b.participants);
    var order := all[..3 * f - 1];
    var votes := Split(order, 2 * f);
    events := VotesOn(h, known, votes);
    SplitStaysOpen(b, order, 2 * f);
    RunsBallot(me, h, known, votes);
    BallotHears(me, h, known, votes);
    SplitVoters(order, 2 * f, b.participants);
  }

  lemma SplitVoters(order: seq<PeerId>, yes: nat, participants: set<PeerId>)
    requires Lineup(order, participants)
    ensures var votes := Split(order, yes);
      var voters := set i | 0 <= i < |votes| :: votes[i].from; |voters| == |order| && voters <= participants
  {
    var votes := Split(order, yes);
    var voters, listed := set i | 0 <= i < |votes| :: votes[i].from, set i | 0 <= i < |order| :: order[i];
    forall i | 0 <= i < |order| ensures order[i] in voters && votes[i].from in listed {
      assert votes[i].from == order[i];
    }
    assert voters == listed;
    DistinctCount(order);
  }

  lemma {:induction false} DistinctCount(order: seq<PeerId>)
    requires forall i, j :: 0 <= i < j < |order| ==> order[i] != order[j]
    ensures |set i | 0 <= i < |order| :: order[i]| == |order|
  {
    if order != [] {
      var n := |order| - 1;
      DistinctCount(order[..n]);
      assert (set i | 0 <= i < |order| :: order[i]) == (set i | 0 <= i < n :: order[..n][i]) + {order[n]};
    }
  }

  // ---------------------------------------------------------------- the engine

  lemma SoundAfter(me: PeerId, ballots: Ballots, known: set<PeerId>, hash: BlockHash, from: PeerId, approve: bool)
    requires AllSound(ballots)
    ensures AllSound(Handle(me, ballots, known, hash, from, approve).ballots)
    ensures Sound(Opened(me, ballots, known, hash))
  {
    HandleKeeps(me, ballots, known, hash, from, approve, hash);
  }

  lemma UpdateTwice(ballots: Ballots, hash: BlockHash, b: Ballot, c: Ballot)
    ensures ballots[hash := b][hash := c] == ballots[hash := c]
  {
  }

  class VotingConsensus {
    const id: PeerId
    var ballots: Ballots

    constructor (id: PeerId)
      ensures this.id == id && ballots == map[]
    {
      this.id, ballots := id, map[];
    }

    method MakeVote(hash: BlockHash, p: PeerId, approve: bool) returns (verdict: Verdict)
      requires hash in ballots && Sound(ballots[hash])
      modifies this
      ensures ballots == old(ballots)[hash := Cast(old(ballots)[hash], p, approve)]
      ensures verdict == match ballots[hash].outcome case Some(v) => v case None => Pending
    {
      var b := ballots[hash];
      if b.outcome.Some? {
        assert ballots == ballots[hash := b];
        return b.outcome.value;
      }
      if p !in b.participants {
        assert ballots == ballots[hash := b];
        return Pending;
      }
      if approve {
        b := b.(approvals := b.approvals + {p});
      } else {
        b := b.(rejections := b.rejections + {p});
      }
      verdict := Evaluate(|b.participants|, |b.approvals|, |b.rejections|);
      if verdict != Pending {
        b := b.(outcome := Some(verdict));
      }
      assert b == Cast(ballots[hash], p, approve);
      ballots := ballots[hash := b];
    }

    method HandleVote(known: set<PeerId>, hash: BlockHash, from: PeerId, approve: bool) returns (effects: seq<Effect>)
      requires AllSound(ballots)
      modifies this
      ensures Handled(ballots, effects) == Handle(id, old(ballots), known, hash, from, approve)
      ensures AllSound(ballots)
    {
      ghost var before := ballots;
      SoundAfter(id, before, known, hash, from, approve);
      OpenBallot(known, hash);
      if AlreadyVoted(ballots[hash], from) || ballots[hash].outcome.Some? {
        return [];
      }
      UpdateTwice(before, hash, ballots[hash], Cast(ballots[hash], from, approve));
      var verdict := MakeVote(hash, from, approve);
      match verdict {
        case Approved => effects := [CommitBlock(hash), Broadcast(BlockApproved(hash))];
        case Rejected => effects := [RollbackBlock(hash), Broadcast(BlockReject(hash))];
        case Pending => effects := [];
      }
    }

    method OpenBallot(known: set<PeerId>, hash: BlockHash)
      modifies this
      ensures ballots == old(ballots)[hash := Opened(id, old(ballots), known, hash)]
    {
      if hash !in ballots {
        ballots := ballots[hash := NewBallot(id, known)];
      } else {
        assert ballots == ballots[hash := ballots[hash]];
      }
    }

    method OnLocalBlockProposed(known: set<PeerId>, hash: BlockHash) returns (effects: seq<Effect>)
      requires AllSound(ballots)
      modifies this
      ensures Handled(ballots, effects) == React(id, old(ballots), known, LocalProposal(hash)) && AllSound(ballots)
    {
      effects := HandleVote(known, hash, id, true);
    }

    method OnBlockProposalValidated(known: set<PeerId>, hash: BlockHash, proposer: PeerId, valid: bool) returns (effects: seq<Effect>)
      requires AllSound(ballots)
      modifies this
      ensures Handled(ballots, effects) == React(id, old(ballots), known, ProposalValidated(hash, proposer, valid)) && AllSound(ballots)
    {
      effects := HandleVote(known, hash, proposer, true);
      if effects == [] {
        effects := HandleVote(known, hash, id, valid);
      }
    }

    method OnBlockVote(known: set<PeerId>, hash: BlockHash, from: PeerId, approve: bool) returns (effects: seq<Effect>)
      requires AllSound(ballots)
      modifies this
      ensures Handled(ballots, effects) == React(id, old(ballots), known, BlockVote(hash, from, approve)) && AllSound(ballots)
    {
      effects := HandleVote(known, hash, from, approve);
    }
  }
}
