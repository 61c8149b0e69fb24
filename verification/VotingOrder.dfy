/** Whether the order in which the same votes arrive matters for a node's decision. */
module VotingOrder {
  import opened Types
  import opened Voting

  function Yes(votes: seq<Vote>): set<PeerId> {
    set i | 0 <= i < |votes| && votes[i].approve :: votes[i].from
  }

  function No(votes: seq<Vote>): set<PeerId> {
    set i | 0 <= i < |votes| && !votes[i].approve :: votes[i].from
  }

  ghost predicate OnceEach(votes: seq<Vote>) {
    forall i, j :: 0 <= i < j < |votes| ==> votes[i].from != votes[j].from
  }

  /** An order in which the approvals of `yes` and the rejections of `no` can arrive. */
  ghost predicate Arrival(votes: seq<Vote>, yes: set<PeerId>, no: set<PeerId>) {
    OnceEach(votes) && Yes(votes) == yes && No(votes) == no
  }

  /** A ballot nobody has voted on. */
  ghost predicate Unmarked(b: Ballot) {
    b.participants != {} && b.approvals == {} && b.rejections == {} && b.outcome == None
  }

  /** Approvals that decide, and rejections that decide. */
  predicate EnoughYes(total: nat, yes: nat) {
    yes >= 2 * Faults(total) + 1
  }

  predicate EnoughNo(total: nat, no: nat) {
    no >= 1 && no >= Faults(total)
  }

  /** The outcome when at most one side has enough. */
  function Settled(total: nat, yes: nat, no: nat): Option<Verdict> {
    if EnoughYes(total, yes) then Some(Approved) else if EnoughNo(total, no) then Some(Rejected) else None
  }

  // ----------------------------------------------------------- counting votes

  lemma MarksSnoc(votes: seq<Vote>, v: Vote)
    ensures Yes(votes + [v]) == Yes(votes) + (if v.approve then {v.from} else {})
    ensures No(votes + [v]) == No(votes) + (if v.approve then {} else {v.from})
  {
    var longer := votes + [v];
    assert longer[|votes|] == v;
    forall i | 0 <= i < |votes| ensures longer[i] == votes[i] {
    }
    forall p | p in Yes(votes) ensures p in Yes(longer) {
      var i :| 0 <= i < |votes| && votes[i].approve && p == votes[i].from;
      assert longer[i].from == p;
    }
    forall p | p in No(votes) ensures p in No(longer) {
      var i :| 0 <= i < |votes| && !votes[i].approve && p == votes[i].from;
      assert longer[i].from == p;
    }
  }

  lemma SubsetSize(a: set<PeerId>, b: set<PeerId>)
    requires a <= b
    ensures |a| <= |b| && (|a| == |b| ==> a == b)
  {
    assert b == a + (b - a);
    assert |b| == |a| + |b - a|;
  }

  /** What the votes so far have made of a ballot. */
  ghost predicate Tallied(b: Ballot, votes: seq<Vote>, c: Ballot) {
    var total := |b.participants|;
    && c.participants == b.participants && c.outcome != Some(Pending)
    && (c.outcome == None ==> c.approvals == Yes(votes) && c.rejections == No(votes))
    && (c.outcome == None && votes != [] ==> Evaluate(total, |Yes(votes)|, |No(votes)|) == Pending)
    && (c.outcome == Some(Approved) ==> EnoughYes(total, |Yes(votes)|))
    && (c.outcome == Some(Rejected) ==> EnoughNo(total, |No(votes)|))
  }

  lemma TalliedStep(b: Ballot, votes: seq<Vote>, c: Ballot, v: Vote)
    requires Tallied(b, votes, c) && v.from in b.participants && v.from !in Yes(votes) && v.from !in No(votes)
    ensures Tallied(b, votes + [v], if AlreadyVoted(c, v.from) || c.outcome.Some? then c else Cast(c, v.from, v.approve))
  {
    MarksSnoc(votes, v);
    SubsetSize(Yes(votes), Yes(votes + [v]));
    SubsetSize(No(votes), No(votes + [v]));
  }

  lemma {:induction false} CountTallies(b: Ballot, votes: seq<Vote>)
    requires Unmarked(b) && OnceEach(votes) && Yes(votes) <= b.participants && No(votes) <= b.participants
    ensures Tallied(b, votes, CountAll(b, votes))
  {
    if votes != [] {
      var k := |votes| - 1;
      var front, v := votes[..k], votes[k];
      assert votes == front + [v];
      MarksSnoc(front, v);
      CountTallies(b, front);
      TalliedStep(b, front, CountAll(b, front), v);
    }
  }

  /** With at most one side strong enough, every order settles the ballot the same way. */
  lemma OneSideSettles(b: Ballot, votes: seq<Vote>, yes: set<PeerId>, no: set<PeerId>)
    requires Unmarked(b) && Arrival(votes, yes, no) && yes <= b.participants && no <= b.participants
    requires !(EnoughYes(|b.participants|, |yes|) && EnoughNo(|b.participants|, |no|))
    ensures CountAll(b, votes).outcome == Settled(|b.participants|, |yes|, |no|)
  {
    CountTallies(b, votes);
    var c, total := CountAll(b, votes), |b.participants|;
    match c.outcome
    case Some(Approved) => assert EnoughYes(total, |yes|);
    case Some(Rejected) => assert EnoughNo(total, |no|);
    case None =>
      if votes == [] {
        assert yes == {} && no == {};
      } else {
        assert Evaluate(total, |yes|, |no|) == Pending;
      }
  }

  lemma {:induction false} DecidedStays(b: Ballot, first: seq<Vote>, later: seq<Vote>)
    requires CountAll(b, first).outcome.Some?
    ensures CountAll(b, first + later) == CountAll(b, first)
  {
    if later == [] {
      assert first + later == first;
    } else {
      assert (first + later)[..|first + later| - 1] == first + later[..|later| - 1];
      DecidedStays(b, first, later[..|later| - 1]);
    }
  }

  // ----------------------------------------------------------- the two orders

  function Each(order: seq<PeerId>, approve: bool): seq<Vote> {
    seq(|order|, i requires 0 <= i < |order| => Vote(order[i], approve))
  }

  /** One vote of each peer of a set, all alike. */
  lemma Unanimous(s: set<PeerId>, approve: bool) returns (votes: seq<Vote>)
    ensures if approve then Arrival(votes, s, {}) else Arrival(votes, {}, s)
  {
    var order := Enumerate(s);
    votes := Each(order, approve);
    var listed := set i | 0 <= i < |order| :: order[i];
    DistinctCount(order);
    SubsetSize(listed, s);
    var marks := if approve then Yes(votes) else No(votes);
    forall i | 0 <= i < |order| ensures order[i] in marks {
      assert votes[i] == Vote(order[i], approve);
    }
    assert marks == listed;
  }

  lemma {:induction false} MarksConcat(a: seq<Vote>, b: seq<Vote>)
    ensures Yes(a + b) == Yes(a) + Yes(b) && No(a + b) == No(a) + No(b)
  {
    if b == [] {
      assert a + b == a;
    } else {
      var k := |b| - 1;
      assert a + b == (a + b[..k]) + [b[k]] && b == b[..k] + [b[k]];
      MarksConcat(a, b[..k]);
      MarksSnoc(a + b[..k], b[k]);
      MarksSnoc(b[..k], b[k]);
    }
  }

  /** One side after the other is an arrival of both. */
  lemma OneAfterOther(a: seq<Vote>, b: seq<Vote>)
    requires OnceEach(a) && OnceEach(b) && (Yes(a) + No(a)) !! (Yes(b) + No(b))
    ensures Arrival(a + b, Yes(a) + Yes(b), No(a) + No(b))
  {
    MarksConcat(a, b);
    var all := a + b;
    forall i, j | 0 <= i < j < |all| ensures all[i].from != all[j].from {
      if i < |a| <= j {
        assert a[i].from in Yes(a) + No(a);
        assert b[j - |a|].from in Yes(b) + No(b);
      }
    }
  }

  /** With both sides strong enough, whichever comes first wins. */
  lemma FirstSideWins(b: Ballot, yes: set<PeerId>, no: set<PeerId>) returns (early: seq<Vote>, late: seq<Vote>)
    requires Unmarked(b) && yes !! no && yes <= b.participants && no <= b.participants
    requires EnoughYes(|b.participants|, |yes|) && EnoughNo(|b.participants|, |no|)
    ensures Arrival(early, yes, no) && CountAll(b, early).outcome == Some(Approved)
    ensures Arrival(late, yes, no) && CountAll(b, late).outcome == Some(Rejected)
  {
    var ys := Unanimous(yes, true);
    var ns := Unanimous(no, false);
    OneAfterOther(ys, ns);
    OneAfterOther(ns, ys);
    assert yes + {} == yes && {} + yes == yes && no + {} == no && {} + no == no;
    early, late := ys + ns, ns + ys;
    OneSideSettles(b, ys, yes, {});
    DecidedStays(b, ys, ns);
    OneSideSettles(b, ns, {}, no);
    DecidedStays(b, ns, ys);
  }

  // ------------------------------------------------------------ a node's runs

  /** What a node that hears these votes on h, and nothing else, decides. */
  function Decision(me: PeerId, h: BlockHash, known: set<PeerId>, votes: seq<Vote>): Option<Verdict> {
    var ballots := Run(me, VotesOn(h, known, votes)).ballots;
    if h in ballots then ballots[h].outcome else None
  }

  lemma DecisionIsCount(me: PeerId, h: BlockHash, known: set<PeerId>, votes: seq<Vote>)
    ensures Decision(me, h, known, votes) == CountAll(NewBallot(me, known), votes).outcome
  {
    RunsBallot(me, h, known, votes);
  }

  ghost predicate SameDecision(me: PeerId, h: BlockHash, known: set<PeerId>, yes: set<PeerId>, no: set<PeerId>) {
    forall a, b :: Arrival(a, yes, no) && Arrival(b, yes, no) ==> Decision(me, h, known, a) == Decision(me, h, known, b)
  }

  /** The order of the same votes matters if and only if both sides are strong enough to decide. */
  lemma OrderMattersIff(me: PeerId, h: BlockHash, known: set<PeerId>, yes: set<PeerId>, no: set<PeerId>)
    requires yes !! no && yes <= known + {me} && no <= known + {me}
    ensures var total := |known + {me}|;
      SameDecision(me, h, known, yes, no) <==> !(EnoughYes(total, |yes|) && EnoughNo(total, |no|))
  {
    var b := NewBallot(me, known);
    assert me in b.participants;
    if EnoughYes(|b.participants|, |yes|) && EnoughNo(|b.participants|, |no|) {
      var early, late := FirstSideWins(b, yes, no);
      DecisionIsCount(me, h, known, early);
      DecisionIsCount(me, h, known, late);
      assert Decision(me, h, known, early) != Decision(me, h, known, late);
    } else {
      forall votes | Arrival(votes, yes, no) ensures Decision(me, h, known, votes) == Settled(|b.participants|, |yes|, |no|) {
        OneSideSettles(b, votes, yes, no);
        DecisionIsCount(me, h, known, votes);
      }
    }
  }

  /** The smallest instance with a fault to tolerate: four peers, three approvals, one rejection. */
  lemma OrderDecides(h: BlockHash)
    ensures !SameDecision(1, h, {2, 3, 4}, {1, 2, 3}, {4})
    ensures exists a :: Arrival(a, {1, 2, 3}, {4}) && Decision(1, h, {2, 3, 4}, a) == Some(Approved)
    ensures exists b :: Arrival(b, {1, 2, 3}, {4}) && Decision(1, h, {2, 3, 4}, b) == Some(Rejected)
  {
    var b := NewBallot(1, {2, 3, 4});
    assert b.participants == {1, 2, 3, 4} && |{1, 2, 3, 4}| == 4 && |{1, 2, 3}| == 3 && |{4}| == 1;
    OrderMattersIff(1, h, {2, 3, 4}, {1, 2, 3}, {4});
    var early, late := FirstSideWins(b, {1, 2, 3}, {4});
    DecisionIsCount(1, h, {2, 3, 4}, early);
    DecisionIsCount(1, h, {2, 3, 4}, late);
  }
}
