/** Where the votes on a ballot come from, and what a node announces. */
module VotingSources {
  import opened Types
  import opened Voting

  /** The input carries p's approval of h. */
  predicate Approves(me: PeerId, input: Input, h: BlockHash, p: PeerId) {
    match input
    case LocalProposal(hash) => hash == h && p == me
    case BlockVote(hash, from, approve) => hash == h && from == p && approve
    case ProposalValidated(hash, proposer, valid) => hash == h && (proposer == p || (p == me && valid))
  }

  /** The input carries p's rejection of h. */
  predicate Rejects(me: PeerId, input: Input, h: BlockHash, p: PeerId) {
    match input
    case LocalProposal(_) => false
    case BlockVote(hash, from, approve) => hash == h && from == p && !approve
    case ProposalValidated(hash, _, valid) => hash == h && p == me && !valid
  }

  /** Every mark on the ballot of h was there before or is the vote given. */
  ghost predicate Marked(before: Ballots, after: Ballots, h: BlockHash, yes: set<PeerId>, no: set<PeerId>) {
    h in after ==>
      && after[h].approvals <= (if h in before then before[h].approvals else {}) + yes
      && after[h].rejections <= (if h in before then before[h].rejections else {}) + no
  }

  lemma CastMarks(b: Ballot, p: PeerId, approve: bool)
    ensures Cast(b, p, approve).approvals <= b.approvals + (if approve then {p} else {})
    ensures Cast(b, p, approve).rejections <= b.rejections + (if approve then {} else {p})
  {
  }

  lemma HandleMarks(me: PeerId, ballots: Ballots, known: set<PeerId>, hash: BlockHash, from: PeerId, approve: bool, h: BlockHash)
    ensures Marked(ballots, Handle(me, ballots, known, hash, from, approve).ballots, h,
                   if hash == h && approve then {from} else {}, if hash == h && !approve then {from} else {})
  {
    var b := Opened(me, ballots, known, hash);
    CastMarks(b, from, approve);
    var after := Handle(me, ballots, known, hash, from, approve).ballots;
    assert after == ballots[hash := if AlreadyVoted(b, from) || b.outcome.Some? then b else Cast(b, from, approve)];
  }

  lemma MarkedTwice(a: Ballots, b: Ballots, c: Ballots, h: BlockHash, y1: set<PeerId>, n1: set<PeerId>, y2: set<PeerId>, n2: set<PeerId>)
    requires Marked(a, b, h, y1, n1) && Marked(b, c, h, y2, n2) && (h in b ==> h in c) && (h in a ==> h in b)
    ensures Marked(a, c, h, y1 + y2, n1 + n2)
  {
  }

  lemma ReactMarks(me: PeerId, ballots: Ballots, known: set<PeerId>, input: Input, h: BlockHash, p: PeerId)
    ensures var after := React(me, ballots, known, input).ballots;
      h in after ==>
        && (p in after[h].approvals ==> (h in ballots && p in ballots[h].approvals) || Approves(me, input, h, p))
        && (p in after[h].rejections ==> (h in ballots && p in ballots[h].rejections) || Rejects(me, input, h, p))
  {
    match input
    case LocalProposal(hash) => HandleMarks(me, ballots, known, hash, me, true, h);
    case BlockVote(hash, from, approve) => HandleMarks(me, ballots, known, hash, from, approve, h);
    case ProposalValidated(hash, proposer, valid) =>
      HandleMarks(me, ballots, known, hash, proposer, true, h);
      var r := Handle(me, ballots, known, hash, proposer, true);
      if r.effects == [] {
        HandleMarks(me, r.ballots, known, hash, me, valid, h);
      }
  }

  ghost predicate ApprovedIn(me: PeerId, events: seq<Event>, h: BlockHash, p: PeerId) {
    exists i :: 0 <= i < |events| && Approves(me, events[i].input, h, p)
  }

  ghost predicate RejectedIn(me: PeerId, events: seq<Event>, h: BlockHash, p: PeerId) {
    exists i :: 0 <= i < |events| && Rejects(me, events[i].input, h, p)
  }

  /** Over any run a peer stands among the approvals of a block only if it approved it, and among
      the rejections only if it rejected it; this node rejects a proposal only as invalid. */
  lemma {:induction false} VotesAsCast(me: PeerId, events: seq<Event>, h: BlockHash, p: PeerId)
    ensures var ballots := Run(me, events).ballots;
      h in ballots ==>
        && (p in ballots[h].approvals ==> ApprovedIn(me, events, h, p))
        && (p in ballots[h].rejections ==> RejectedIn(me, events, h, p))
  {
    if events != [] {
      var k := |events| - 1;
      var before := Run(me, events[..k]).ballots;
      VotesAsCast(me, events[..k], h, p);
      ReactMarks(me, before, events[k].known, events[k].input, h, p);
      if ApprovedIn(me, events[..k], h, p) {
        var i :| 0 <= i < k && Approves(me, events[..k][i].input, h, p);
        assert Approves(me, events[i].input, h, p);
      }
      if RejectedIn(me, events[..k], h, p) {
        var i :| 0 <= i < k && Rejects(me, events[..k][i].input, h, p);
        assert Rejects(me, events[i].input, h, p);
      }
    }
  }

  lemma {:induction false} HeardVoted(me: PeerId, events: seq<Event>, h: BlockHash, p: PeerId)
    ensures p in HeardAll(me, events, h) ==> ApprovedIn(me, events, h, p) || RejectedIn(me, events, h, p)
    ensures ApprovedIn(me, events, h, p) || RejectedIn(me, events, h, p) ==> p in HeardAll(me, events, h)
  {
    if events != [] {
      var k := |events| - 1;
      HeardVoted(me, events[..k], h, p);
      if ApprovedIn(me, events[..k], h, p) {
        var i :| 0 <= i < k && Approves(me, events[..k][i].input, h, p);
        assert Approves(me, events[i].input, h, p);
      }
      if RejectedIn(me, events[..k], h, p) {
        var i :| 0 <= i < k && Rejects(me, events[..k][i].input, h, p);
        assert Rejects(me, events[i].input, h, p);
      }
      if p in Heard(me, events[k].input, h) {
        assert Approves(me, events[k].input, h, p) || Rejects(me, events[k].input, h, p);
      }
      if i :| 0 <= i < |events| && (Approves(me, events[i].input, h, p) || Rejects(me, events[i].input, h, p)) {
        if i < k {
          assert events[..k][i] == events[i];
          assert ApprovedIn(me, events[..k], h, p) || RejectedIn(me, events[..k], h, p);
        }
      }
    }
  }

  /** While a ballot is open, a participant that only ever approved is counted for the block, and one
      that only ever rejected is counted against it. */
  lemma CountedAsCast(me: PeerId, events: seq<Event>, h: BlockHash, p: PeerId)
    requires var ballots := Run(me, events).ballots; h in ballots && ballots[h].outcome == None && p in ballots[h].participants
    ensures var b := Run(me, events).ballots[h];
      && (ApprovedIn(me, events, h, p) && !RejectedIn(me, events, h, p) ==> p in b.approvals)
      && (RejectedIn(me, events, h, p) && !ApprovedIn(me, events, h, p) ==> p in b.rejections)
  {
    RunCounts(me, events, h);
    VotesAsCast(me, events, h, p);
    HeardVoted(me, events, h, p);
  }

  // ------------------------------------------------------------ announcements

  /** The effects on one hash among a list: commits, rollbacks and what is broadcast of them. */
  function About(effects: seq<Effect>, h: BlockHash): seq<Effect> {
    if effects == [] then []
    else
      var last := effects[|effects| - 1];
      About(effects[..|effects| - 1], h)
      + (if last in {CommitBlock(h), RollbackBlock(h), Broadcast(BlockApproved(h)), Broadcast(BlockReject(h))} then [last] else [])
  }

  lemma {:induction false} AboutConcat(a: seq<Effect>, b: seq<Effect>, h: BlockHash)
    ensures About(a + b, h) == About(a, h) + About(b, h)
  {
    if b == [] {
      assert a + b == a;
    } else {
      assert (a + b)[..|a + b| - 1] == a + b[..|b| - 1];
      AboutConcat(a, b[..|b| - 1], h);
    }
  }

  /** What a ballot's outcome calls for. */
  function Due(ballots: Ballots, h: BlockHash): seq<Effect> {
    if h in ballots && ballots[h].outcome == Some(Approved) then [CommitBlock(h), Broadcast(BlockApproved(h))]
    else if h in ballots && ballots[h].outcome == Some(Rejected) then [RollbackBlock(h), Broadcast(BlockReject(h))]
    else []
  }

  ghost predicate Told(ballots: Ballots, r: Handled, h: BlockHash) {
    Due(r.ballots, h) == Due(ballots, h) + About(r.effects, h)
  }

  lemma AboutTwo(a: Effect, b: Effect, h: BlockHash)
    ensures About([a, b], h) == About([a], h) + About([b], h)
  {
    AboutConcat([a], [b], h);
    assert [a] + [b] == [a, b];
  }

  lemma AnnounceTells(hash: BlockHash, outcome: Option<Verdict>, h: BlockHash)
    ensures About(Announce(hash, outcome), h) ==
      if h != hash then []
      else if outcome == Some(Approved) then [CommitBlock(h), Broadcast(BlockApproved(h))]
      else if outcome == Some(Rejected) then [RollbackBlock(h), Broadcast(BlockReject(h))]
      else []
  {
    AboutTwo(CommitBlock(hash), Broadcast(BlockApproved(hash)), h);
    AboutTwo(RollbackBlock(hash), Broadcast(BlockReject(hash)), h);
    assert [CommitBlock(hash)][..0] == [];
  }

  lemma BallotTold(ballots: Ballots, hash: BlockHash, b: Ballot, c: Ballot, h: BlockHash)
    requires (if hash in ballots then ballots[hash] == b else b.outcome == None) && b.outcome == None
    ensures Told(ballots, Handled(ballots[hash := c], Announce(hash, c.outcome)), h)
  {
    AnnounceTells(hash, c.outcome, h);
  }

  lemma BallotSame(ballots: Ballots, hash: BlockHash, b: Ballot, h: BlockHash)
    requires if hash in ballots then ballots[hash] == b else b.outcome == None
    ensures Told(ballots, Handled(ballots[hash := b], []), h)
  {
  }

  lemma HandleTells(me: PeerId, ballots: Ballots, known: set<PeerId>, hash: BlockHash, from: PeerId, approve: bool, h: BlockHash)
    ensures Told(ballots, Handle(me, ballots, known, hash, from, approve), h)
  {
    var b := Opened(me, ballots, known, hash);
    if AlreadyVoted(b, from) || b.outcome.Some? {
      BallotSame(ballots, hash, b, h);
    } else {
      BallotTold(ballots, hash, b, Cast(b, from, approve), h);
    }
  }

  lemma ToldThen(a: Ballots, r: Handled, r': Handled, h: BlockHash)
    requires Told(a, r, h) && r.effects == [] && Told(r.ballots, r', h)
    ensures Told(a, r', h)
  {
  }

  lemma ReactTells(me: PeerId, ballots: Ballots, known: set<PeerId>, input: Input, h: BlockHash)
    ensures Told(ballots, React(me, ballots, known, input), h)
  {
    match input
    case LocalProposal(hash) => HandleTells(me, ballots, known, hash, me, true, h);
    case BlockVote(hash, from, approve) => HandleTells(me, ballots, known, hash, from, approve, h);
    case ProposalValidated(hash, proposer, valid) =>
      var r := Handle(me, ballots, known, hash, proposer, true);
      HandleTells(me, ballots, known, hash, proposer, true, h);
      if r.effects == [] {
        HandleTells(me, r.ballots, known, hash, me, valid, h);
        ToldThen(ballots, r, Handle(me, r.ballots, known, hash, me, valid), h);
      }
  }

  /** Over any run all that a node does and says about a block is its ballot's outcome, once: commit
      and announce the approval, or roll back and announce the rejection. */
  lemma {:induction false} AnnouncedAsDecided(me: PeerId, events: seq<Event>, h: BlockHash)
    ensures About(Run(me, events).effects, h) == Due(Run(me, events).ballots, h)
  {
    if events != [] {
      var k := |events| - 1;
      var before := Run(me, events[..k]);
      AnnouncedAsDecided(me, events[..k], h);
      ReactTells(me, before.ballots, events[k].known, events[k].input, h);
      AboutConcat(before.effects, React(me, before.ballots, events[k].known, events[k].input).effects, h);
    }
  }

  // --------------------------------------------------------------- thresholds

  /** The tolerated faults f are the most with 3f + 1 participants at hand; 2f + 1 approvals decide,
      and f rejections do once someone has voted. */
  lemma Thresholds(n: nat, approvals: nat, rejections: nat)
    requires n >= 1
    ensures var f := Faults(n);
      && 3 * f + 1 <= n < 3 * f + 4
      && (Evaluate(n, approvals, rejections) == Approved <==> approvals > 2 * f)
      && (Evaluate(n, approvals, rejections) == Rejected <==> approvals <= 2 * f && rejections >= f)
  {
  }
}
