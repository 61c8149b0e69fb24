/** How a follower catches up: a leader's heartbeats, each offering from where it believes the
    follower's log ends, the follower's answers, and what the leader makes of them. */
module CatchUp {
  import opened Types
  import opened RaftLog
  import opened RaftNode
  import opened RaftAnswers
  import RaftNodeRuns

  function Request(l: Node, offer: Effect): AppendRequest
    requires offer.SendRaftAppendEntries?
  {
    AppendRequest(offer.term, l.id, offer.prevIndex, offer.prevTerm, offer.leaderCommit, l.id)
  }

  /** One heartbeat of l reaches f with valid payloads, and f's answer reaches l. */
  ghost predicate Exchanged(l: Node, f: Node, offer: Effect, reply: Effect, blocks: map<BlockHash, BlockFile>, l': Node, f': Node) {
    && offer in OnTick(l, l.participants - {l.id}, false, true).wire
    && offer.SendRaftAppendEntries? && offer.to == f.id
    && var o := OnAppendEntries(f, Request(l, offer), Ok(Validated(offer.entries, blocks)), false);
       && f' == o.node && reply in o.wire
       && reply.Send? && reply.body.AppendEntriesResponse?
       && l' == OnAppendEntriesResponse(l, reply.body.term, f.id, reply.body.success, reply.body.matchIndex).node
  }

  /** The follower did not take the leader's commit index for more than the offer carried. */
  ghost predicate Prudent(f: Node, offer: Effect, f': Node)
    requires offer.SendRaftAppendEntries?
  {
    f'.commit <= Max(f.commit, offer.prevIndex + |offer.entries|)
  }

  /** Wherever the logs have an entry of the same term, they are the same up to there. */
  ghost predicate Matching(a: seq<Entry>, b: seq<Entry>) {
    forall k :: 0 <= k < |a| && k < |b| && a[k].term == b[k].term ==> a[..k + 1] == b[..k + 1]
  }

  /** A leader and a follower that knows no other live leader, as any run of the cluster has them. */
  ghost predicate Paired(l: Node, f: Node) {
    && l.role == Leader && Sound(l) && Sound(f)
    && f.id != l.id && l.id in l.participants && f.id in l.participants && l.id in f.participants
    && (f.term < l.term || (f.term == l.term && (f.leader == None || f.leader == Some(l.id))))
    && f.commit <= |l.log| && f.log[..f.commit] == l.log[..f.commit] && Matching(l.log, f.log)
    && (f.id in l.matched ==> l.matched[f.id] <= |l.log|)
  }

  /** The follower has the leader's log up to where the leader believes it ends. */
  ghost predicate InStep(l: Node, f: Node) {
    l.log[..Believed(l, f.id)] <= f.log
  }

  lemma OfferFrom(l: Node, q: PeerId, offer: Effect)
    requires l.role == Leader && l.id in l.participants
    requires offer in OnTick(l, l.participants - {l.id}, false, true).wire && offer.SendRaftAppendEntries? && offer.to == q
    ensures OffersAfter(l, q, Believed(l, q), offer)
  {
    var l1 := UpdateParticipants(l, l.participants - {l.id});
    assert l.participants - {l.id} + {l.id} == l.participants;
    assert offer in FollowerAppends(l1);
    assert offer == AppendEffect(l1, q);
    OfferExact(l1, q);
    assert Believed(l1, q) == Believed(l, q);
  }

  /** A follower in step takes the offer; one that is not refuses it and vouches for nothing. */
  lemma Verdict(l: Node, f: Node, offer: Effect, blocks: map<BlockHash, BlockFile>)
    requires Paired(l, f) && OffersAfter(l, f.id, Believed(l, f.id), offer)
    ensures Acceptable(f, Request(l, offer), Ok(Validated(offer.entries, blocks)), false) <==> InStep(l, f)
  {
    var q := Believed(l, f.id);
    if q > 0 && q <= |f.log| && f.log[q - 1].term == l.log[q - 1].term {
      assert l.log[..q - 1 + 1] == f.log[..q - 1 + 1];
    }
    if InStep(l, f) && q > 0 {
      assert l.log[..q][q - 1] == f.log[q - 1];
    }
    CommittedTerms(l, f, offer, q);
  }

  /** The follower's committed entries are the leader's. */
  lemma CommittedTerms(l: Node, f: Node, offer: Effect, q: nat)
    requires Paired(l, f) && OffersAfter(l, f.id, q, offer)
    ensures forall k :: 0 <= k < |offer.entries| && q + k < f.commit ==> offer.entries[k].term == f.log[q + k].term
  {
    forall k | 0 <= k < |offer.entries| && q + k < f.commit ensures offer.entries[k].term == f.log[q + k].term {
      assert f.log[..f.commit][q + k] == l.log[..f.commit][q + k];
    }
  }

  /** What a follower in step has after taking a slice of the leader's log. */
  lemma MergedInStep(log: seq<Entry>, mine: seq<Entry>, q: nat, c: nat)
    requires q + c <= |log| && log[..q] <= mine && Matching(log, mine)
    ensures var m := Merge(mine, q, log[q..q + c]);
      log[..q + c] <= m && (m == mine || m == log[..q + c])
  {
    var es := log[q..q + c];
    var f := FirstNew(mine, q, es);
    FirstNewExact(mine, q, es);
    AgreeFurther(log, mine, q, f);
    if f < c {
      assert mine[..q + f] + es[f..] == log[..q + c];
    }
  }

  /** Equal terms right behind a common prefix extend it. */
  lemma AgreeFurther(log: seq<Entry>, mine: seq<Entry>, q: nat, f: nat)
    requires q + f <= |log| && log[..q] <= mine && Matching(log, mine)
    requires f > 0 ==> q + f <= |mine| && mine[q + f - 1].term == log[q + f - 1].term
    ensures log[..q + f] <= mine
  {
    if f > 0 {
      assert log[..q + f - 1 + 1] == mine[..q + f - 1 + 1];
    }
  }

  lemma MatchingMerged(log: seq<Entry>, mine: seq<Entry>, m: seq<Entry>, n: nat)
    requires Matching(log, mine) && n <= |log| && (m == mine || m == log[..n])
    ensures Matching(log, m)
  {
  }

  /** The outcome of a request that a follower accepts, field by field. */
  ghost predicate AcceptedAs(f: Node, r: AppendRequest, v: Validated, o: Outcome) {
    && r.prevIndex <= |f.log| && o.node.log == Merge(f.log, r.prevIndex, v.entries)
    && o.node.term == r.term && o.node.leader == Some(r.leader) && o.node.id == f.id && o.node.participants == f.participants
    && Sound(o.node) && f.commit <= o.node.commit
    && o.wire == {Send(r.from, AppendEntriesResponse(r.term, true, r.prevIndex + |v.entries|))}
  }

  lemma AcceptedFields(f: Node, r: AppendRequest, v: Validated)
    requires Sound(f) && Acceptable(f, r, Ok(v), false)
    ensures AcceptedAs(f, r, v, OnAppendEntries(f, r, Ok(v), false))
  {
    AcceptableIff(f, r, Ok(v), false);
    var m := CheckedAnswered(Follow(StepDownOnNewer(f, r.term), r.leader), r, v);
    AcceptedSound(f, r, v);
  }

  lemma AcceptedSound(f: Node, r: AppendRequest, v: Validated)
    requires Sound(f)
    ensures var f' := OnAppendEntries(f, r, Ok(v), false).node; Sound(f') && f.commit <= f'.commit
  {
    RaftNodeRuns.AppendKeeps(f, r, Ok(v), false);
  }

  /** A follower that has taken the offer: its log is unchanged or ends where the offer does. */
  ghost predicate TookAll(l: Node, f: Node, offer: Effect, f': Node)
    requires offer.SendRaftAppendEntries?
  {
    var n := offer.prevIndex + |offer.entries|;
    && n <= |l.log| && l.log[..n] <= f'.log && (f'.log == f.log || f'.log == l.log[..n])
    && f'.term == l.term && f'.leader == Some(l.id) && f'.id == f.id && f'.participants == f.participants
    && f.commit <= f'.commit <= |f'.log| && WellFormed(f'.log)
  }

  /** The accepted offer, field by field. */
  lemma Taken(l: Node, f: Node, offer: Effect, blocks: map<BlockHash, BlockFile>)
    requires Paired(l, f) && InStep(l, f) && OffersAfter(l, f.id, Believed(l, f.id), offer)
    ensures var o := OnAppendEntries(f, Request(l, offer), Ok(Validated(offer.entries, blocks)), false);
      TookAll(l, f, offer, o.node) && o.wire == {Send(l.id, AppendEntriesResponse(l.term, true, offer.prevIndex + |offer.entries|))}
  {
    var r, v := Request(l, offer), Validated(offer.entries, blocks);
    Verdict(l, f, offer, blocks);
    AcceptedFields(f, r, v);
    TakenBy(l, f, offer, v, OnAppendEntries(f, r, Ok(v), false));
  }

  lemma TakenBy(l: Node, f: Node, offer: Effect, v: Validated, o: Outcome)
    requires Paired(l, f) && InStep(l, f) && OffersAfter(l, f.id, Believed(l, f.id), offer)
    requires v.entries == offer.entries && AcceptedAs(f, Request(l, offer), v, o)
    ensures TookAll(l, f, offer, o.node) && o.wire == {Send(l.id, AppendEntriesResponse(l.term, true, offer.prevIndex + |offer.entries|))}
  {
    TakenLog(l, f, offer);
  }

  lemma TakenLog(l: Node, f: Node, offer: Effect)
    requires Paired(l, f) && InStep(l, f) && OffersAfter(l, f.id, Believed(l, f.id), offer)
    ensures var m := Merge(f.log, offer.prevIndex, offer.entries); var n := offer.prevIndex + |offer.entries|;
      n <= |l.log| && l.log[..n] <= m && (m == f.log || m == l.log[..n])
  {
    MergedInStep(l.log, f.log, offer.prevIndex, |offer.entries|);
  }

  /** The refused offer, field by field. */
  lemma Refused(l: Node, f: Node, offer: Effect, blocks: map<BlockHash, BlockFile>)
    requires Paired(l, f) && !InStep(l, f) && OffersAfter(l, f.id, Believed(l, f.id), offer)
    ensures var o := OnAppendEntries(f, Request(l, offer), Ok(Validated(offer.entries, blocks)), false);
      && o.node.log == f.log && o.node.commit == f.commit && o.node.term == l.term && o.node.leader == Some(l.id)
      && o.node.id == f.id && o.node.participants == f.participants
      && o.wire == {Send(l.id, AppendEntriesResponse(l.term, false, 0))}
  {
    var r := Request(l, offer);
    var checked := Ok(Validated(offer.entries, blocks));
    Verdict(l, f, offer, blocks);
    AcceptableIff(f, r, checked, false);
    VouchesInStep(l.log, f.log, offer.prevIndex, |offer.entries|);
  }

  lemma SharedPrefix(log: seq<Entry>, mine: seq<Entry>, q: nat, k: nat)
    requires Matching(log, mine) && k < |log| && k < |mine| && log[k].term == mine[k].term && q <= k + 1
    ensures log[..q] <= mine
  {
    assert log[..k + 1] == mine[..k + 1];
    assert log[..q] == log[..k + 1][..q];
  }

  /** A log that vouches for an entry of a slice of another has an entry of its term there. */
  lemma EntryVouched(log: seq<Entry>, mine: seq<Entry>, q: nat, c: nat) returns (k: nat)
    requires WellFormed(log) && q + c <= |log| && MaxMatch(mine, log[q..q + c]).Some?
    ensures q <= k < |log| && k < |mine| && log[k].term == mine[k].term
  {
    var es := log[q..q + c];
    MaxMatchExact(mine, es);
    var e :| e in es && TermAt(mine, e.index) == Some(e.term);
    var j :| 0 <= j < |es| && es[j] == e;
    k := q + j;
    assert e == log[k];
  }

  lemma VouchesInStep(log: seq<Entry>, mine: seq<Entry>, q: nat, c: nat)
    requires Matching(log, mine) && WellFormed(log) && q + c <= |log|
    ensures MatchingIndex(mine, q, if q == 0 then 0 else log[q - 1].term, log[q..q + c]) == 0 || log[..q] <= mine
  {
    if MaxMatch(mine, log[q..q + c]).Some? {
      var k := EntryVouched(log, mine, q, c);
      SharedPrefix(log, mine, q, k);
    } else if q > 0 && TermAt(mine, q) == Some(log[q - 1].term) {
      SharedPrefix(log, mine, q, q - 1);
    }
  }

  // ------------------------------------------------------------- one exchange

  /** An exchange moves a follower in step five entries on, and puts one that is not in step there. */
  lemma ExchangeAdvances(l: Node, f: Node, offer: Effect, reply: Effect, blocks: map<BlockHash, BlockFile>, l': Node, f': Node)
    requires Paired(l, f) && Exchanged(l, f, offer, reply, blocks, l', f') && Prudent(f, offer, f')
    ensures l'.log == l.log && l'.id == l.id && f'.id == f.id && Paired(l', f') && InStep(l', f')
    ensures InStep(l, f) ==> Believed(l', f.id) == if Believed(l, f.id) + 5 <= |l.log| then Believed(l, f.id) + 5 else |l.log|
  {
    OfferFrom(l, f.id, offer);
    if InStep(l, f) {
      Taken(l, f, offer, blocks);
      ExchangeTaken(l, f, offer, reply, blocks, l', f', OnAppendEntries(f, Request(l, offer), Ok(Validated(offer.entries, blocks)), false));
      Credited(l, f, offer, f', l');
    } else {
      ExchangeRefused(l, f, offer, reply, blocks, l', f');
      Demoted(l, f, f', l');
    }
  }

  /** The follower's one answer is the one the leader works on. */
  lemma AnswerIs(l: Node, f: Node, offer: Effect, reply: Effect, blocks: map<BlockHash, BlockFile>, l': Node, f': Node, o: Outcome, success: bool, m: nat)
    requires Exchanged(l, f, offer, reply, blocks, l', f')
    requires o == OnAppendEntries(f, Request(l, offer), Ok(Validated(offer.entries, blocks)), false)
    requires o.wire == {Send(l.id, AppendEntriesResponse(l.term, success, m))}
    ensures f' == o.node && l' == OnAppendEntriesResponse(l, l.term, f.id, success, m).node
  {
  }

  lemma ExchangeTaken(l: Node, f: Node, offer: Effect, reply: Effect, blocks: map<BlockHash, BlockFile>, l': Node, f': Node, o: Outcome)
    requires Exchanged(l, f, offer, reply, blocks, l', f')
    requires o == OnAppendEntries(f, Request(l, offer), Ok(Validated(offer.entries, blocks)), false)
    requires TookAll(l, f, offer, o.node) && o.wire == {Send(l.id, AppendEntriesResponse(l.term, true, offer.prevIndex + |offer.entries|))}
    ensures f' == o.node && TookAll(l, f, offer, f') && l' == OnAppendEntriesResponse(l, l.term, f.id, true, offer.prevIndex + |offer.entries|).node
  {
    AnswerIs(l, f, offer, reply, blocks, l', f', o, true, offer.prevIndex + |offer.entries|);
  }

  lemma ExchangeRefused(l: Node, f: Node, offer: Effect, reply: Effect, blocks: map<BlockHash, BlockFile>, l': Node, f': Node)
    requires Paired(l, f) && !InStep(l, f) && OffersAfter(l, f.id, Believed(l, f.id), offer)
    requires Exchanged(l, f, offer, reply, blocks, l', f')
    ensures f'.log == f.log && f'.commit == f.commit && f'.term == l.term && f'.leader == Some(l.id) && f'.id == f.id && f'.participants == f.participants
    ensures l' == OnAppendEntriesResponse(l, l.term, f.id, false, 0).node
  {
    var o := OnAppendEntries(f, Request(l, offer), Ok(Validated(offer.entries, blocks)), false);
    Refused(l, f, offer, blocks);
    AnswerIs(l, f, offer, reply, blocks, l', f', o, false, 0);
  }

  lemma Demoted(l: Node, f: Node, f': Node, l': Node)
    requires Paired(l, f)
    requires f'.log == f.log && f'.commit == f.commit && f'.term == l.term && f'.leader == Some(l.id) && f'.id == f.id && f'.participants == f.participants
    requires l' == OnAppendEntriesResponse(l, l.term, f.id, false, 0).node
    ensures l'.log == l.log && l'.id == l.id && Paired(l', f') && InStep(l', f')
  {
    RefusalRetried(l, l.term, f.id, 0);
    assert l'.log[..0] <= f'.log;
  }

  lemma Credited(l: Node, f: Node, offer: Effect, f': Node, l': Node)
    requires Paired(l, f) && InStep(l, f) && OffersAfter(l, f.id, Believed(l, f.id), offer)
    requires var n := offer.prevIndex + |offer.entries|;
      TookAll(l, f, offer, f') && f'.commit <= Max(f.commit, n) && l' == OnAppendEntriesResponse(l, l.term, f.id, true, n).node
    ensures l'.log == l.log && l'.id == l.id && Paired(l', f') && InStep(l', f')
    ensures Believed(l', f.id) == if Believed(l, f.id) + 5 <= |l.log| then Believed(l, f.id) + 5 else |l.log|
  {
    var n := offer.prevIndex + |offer.entries|;
    CreditedLeader(l, f.id, n, l');
    MatchingMerged(l.log, f.log, f'.log, n);
    CommonCommit(l.log, f.log, f'.log, f.commit, f'.commit, n);
  }

  lemma CreditedLeader(l: Node, q: PeerId, n: nat, l': Node)
    requires l.role == Leader && Sound(l) && q in l.participants && n <= |l.log| && Believed(l, q) <= n
    requires q in l.matched ==> l.matched[q] <= |l.log|
    requires l' == OnAppendEntriesResponse(l, l.term, q, true, n).node
    ensures l'.log == l.log && l'.id == l.id && l'.term == l.term && l'.role == Leader && l'.participants == l.participants && Sound(l')
    ensures q in l'.matched && l'.matched[q] == n
  {
    AcceptanceCredited(l, l.term, q, n);
    RaftNodeRuns.AppendReplyKeeps(l, l.term, q, true, n);
  }

  lemma CommonCommit(log: seq<Entry>, mine: seq<Entry>, m: seq<Entry>, before: nat, after: nat, n: nat)
    requires before <= |mine| && before <= |log| && mine[..before] == log[..before]
    requires n <= |log| && log[..n] <= m && (m == mine || m == log[..n]) && after <= |m| && after <= Max(before, n)
    ensures after <= |log| && m[..after] == log[..after]
  {
    if after <= n {
      assert m[..after] == m[..n][..after] == log[..n][..after];
    } else {
      assert m[..after] == mine[..before][..after];
    }
  }

  /** A heartbeat always offers the follower something, and the follower always answers. */
  lemma ExchangeHappens(l: Node, f: Node, blocks: map<BlockHash, BlockFile>) returns (offer: Effect, reply: Effect, l': Node, f': Node)
    requires Paired(l, f)
    ensures Exchanged(l, f, offer, reply, blocks, l', f')
  {
    assert l.participants - {l.id} + {l.id} == l.participants;
    var l1 := UpdateParticipants(l, l.participants - {l.id});
    offer := AppendEffect(l1, f.id);
    assert offer in FollowerAppends(l1);
    var checked := Ok(Validated(offer.entries, blocks));
    var m := AppendAnswered(f, Request(l, offer), checked, false);
    var o := OnAppendEntries(f, Request(l, offer), checked, false);
    reply := Send(l.id, AppendEntriesResponse(o.node.term, Acceptable(f, Request(l, offer), checked, false), m));
    assert reply in o.wire;
    f' := o.node;
    l' := OnAppendEntriesResponse(l, reply.body.term, f.id, reply.body.success, reply.body.matchIndex).node;
  }

  // -------------------------------------------------------------- many of them

  datatype Step = Step(offer: Effect, reply: Effect, blocks: map<BlockHash, BlockFile>)

  ghost predicate Linked(ls: seq<Node>, fs: seq<Node>, steps: seq<Step>, i: nat)
    requires |ls| == |fs| == |steps| + 1 && i < |steps|
  {
    && Exchanged(ls[i], fs[i], steps[i].offer, steps[i].reply, steps[i].blocks, ls[i + 1], fs[i + 1])
    && Prudent(fs[i], steps[i].offer, fs[i + 1])
  }

  ghost predicate Heartbeats(ls: seq<Node>, fs: seq<Node>, steps: seq<Step>) {
    |ls| == |fs| == |steps| + 1 && forall i :: 0 <= i < |steps| ==> Linked(ls, fs, steps, i)
  }

  /** After i exchanges. */
  lemma {:induction false} Progress(ls: seq<Node>, fs: seq<Node>, steps: seq<Step>, i: nat)
    requires Heartbeats(ls, fs, steps) && Paired(ls[0], fs[0]) && i <= |steps|
    ensures ls[i].log == ls[0].log && fs[i].id == fs[0].id && Paired(ls[i], fs[i])
    ensures i > 0 ==> InStep(ls[i], fs[i]) && (Believed(ls[i], fs[0].id) == |ls[0].log| || Believed(ls[i], fs[0].id) >= 5 * (i - 1))
  {
    if i > 0 {
      Progress(ls, fs, steps, i - 1);
      assert Linked(ls, fs, steps, i - 1);
      var s := steps[i - 1];
      ExchangeAdvances(ls[i - 1], fs[i - 1], s.offer, s.reply, s.blocks, ls[i], fs[i]);
    }
  }

  /** Whatever the leader believed at first and however the follower's log had diverged, one exchange
      and one more for every five entries of the leader's log bring the follower up to it. */
  lemma CatchesUp(ls: seq<Node>, fs: seq<Node>, steps: seq<Step>)
    requires Heartbeats(ls, fs, steps) && Paired(ls[0], fs[0])
    requires |steps| >= 1 && 5 * (|steps| - 1) >= |ls[0].log|
    ensures ls[0].log <= fs[|steps|].log && ls[|steps|].log == ls[0].log
    ensures Believed(ls[|steps|], fs[0].id) == |ls[0].log|
  {
    Progress(ls, fs, steps, |steps|);
    assert ls[0].log[..|ls[0].log|] == ls[0].log;
  }
}
