/** Over any run of one node: no block is committed that was not staged before, created here, or in
    the log from the start. */
module RaftStaging {
  import opened Types
  import opened RaftLog
  import opened RaftNode
  import opened RaftNodeRuns
  import opened RaftAnswers
  import RaftEngine

  /** Some effect in front of position p stages an entry with this hash. */
  ghost predicate StagedBefore(effects: seq<Effect>, p: nat, h: BlockHash) {
    exists q, e :: 0 <= q < p && q < |effects| && effects[q].StageRaftEntries? && e in effects[q].staged && e.hash == h
  }

  /** An entry with this hash waits in the log. */
  ghost predicate Waits(n: Node, h: BlockHash) {
    exists k :: n.commit <= k < |n.log| && n.log[k].hash == h
  }

  ghost predicate Sourced(n: Node, i: Input, effects: seq<Effect>, p: nat, h: BlockHash) {
    Waits(n, h) || i == BlockCreated(h) || StagedBefore(effects, p, h)
  }

  lemma {:induction false} StagedInMember(effects: seq<Effect>, e: Entry)
    requires e in RaftEngine.StagedIn(effects)
    ensures StagedBefore(effects, |effects|, e.hash)
  {
    if effects[0].StageRaftEntries? && e in effects[0].staged {
      assert 0 < |effects|;
    } else {
      StagedInMember(effects[1..], e);
      var q, x :| 0 <= q < |effects[1..]| && effects[1..][q].StageRaftEntries? && x in effects[1..][q].staged && x.hash == e.hash;
      assert effects[q + 1] == effects[1..][q];
    }
  }

  lemma {:induction false} CommitMember(effects: seq<Effect>, q: nat)
    requires q < |effects| && effects[q].CommitBlock?
    ensures effects[q].hash in Commits(effects)
  {
    if q > 0 {
      assert effects[1..][q - 1] == effects[q];
      CommitMember(effects[1..], q - 1);
    }
  }

  lemma {:induction false} HashMember(entries: seq<Entry>, h: BlockHash) returns (k: nat)
    requires h in BlockHashes(entries)
    ensures k < |entries| && entries[k].hash == h && !entries[k].IsNoop()
  {
    if !entries[0].IsNoop() && entries[0].hash == h {
      k := 0;
    } else {
      var j := HashMember(entries[1..], h);
      k := j + 1;
    }
  }

  // ---------------------------------------------------------------- one step

  /** What an accepted append brings into the log above the commit index, it stages. */
  lemma MergedSourced(n: Node, r: AppendRequest, v: Validated, k: nat)
    requires Sound(n) && Accepts(n, r.prevIndex, r.prevTerm, v.entries)
    requires var log := OnCheckedAppend(n, r, v).node.log; n.commit <= k < |log| && !log[k].IsNoop()
    ensures var o := OnCheckedAppend(n, r, v); Waits(n, o.node.log[k].hash) || StagedBefore(o.local, |o.local|, o.node.log[k].hash)
  {
    var o := OnCheckedAppend(n, r, v);
    var f := FirstNew(n.log, r.prevIndex, v.entries);
    var log := Merge(n.log, r.prevIndex, v.entries);
    assert o.node.log == log;
    if f == |v.entries| || k < r.prevIndex + f {
      assert log[k] == n.log[k];
    } else {
      var j := k - r.prevIndex;
      assert log[k] == v.entries[j] && v.entries[j].index == k + 1;
      AppendStagesAll(n, r, v);
      StagedInMember(o.local, v.entries[j]);
    }
  }

  lemma AppendSourced(n: Node, r: AppendRequest, checked: Result<Validated>, timedOut: bool, k: nat)
    requires Sound(n)
    requires var log := OnAppendEntries(n, r, checked, timedOut).node.log; n.commit <= k < |log| && !log[k].IsNoop()
    ensures var o := OnAppendEntries(n, r, checked, timedOut);
      Waits(n, o.node.log[k].hash) || StagedBefore(o.local, |o.local|, o.node.log[k].hash)
  {
    var o := OnAppendEntries(n, r, checked, timedOut);
    var n1 := Follow(StepDownOnNewer(n, r.term), r.leader);
    if Admits(n, r.term, r.leader, r.from, timedOut) && checked.Ok? && Accepts(n1, r.prevIndex, r.prevTerm, checked.value.entries) {
      MergedSourced(n1, r, checked.value, k);
      assert Waits(n1, o.node.log[k].hash) ==> Waits(n, o.node.log[k].hash);
    } else {
      assert o.node.log == n.log;
    }
  }

  /** Every handler: what waits in the log afterwards waited before, was created, or is staged. */
  lemma ReactSourced(n: Node, i: Input, k: nat)
    requires Sound(n)
    requires var log := React(n, i).node.log; n.commit <= k < |log| && !log[k].IsNoop()
    ensures var o := React(n, i); Sourced(n, i, o.local, |o.local|, o.node.log[k].hash)
  {
    var o := React(n, i);
    match i
    case Append(r, checked, timedOut) => AppendSourced(n, r, checked, timedOut, k);
    case _ =>
      if k < |n.log| {
        assert o.node.log[k] == n.log[k];
      }
  }

  /** A staging effect stands in front of every commit of the same list. */
  lemma StageFirst(n: Node, i: Input, p: nat, q: nat)
    requires var e := React(n, i).local; p < |e| && q < |e| && e[p].StageRaftEntries? && e[q].CommitBlock?
    ensures p < q
  {
    match i
    case Append(r, checked, timedOut) =>
      var n1 := Follow(StepDownOnNewer(n, r.term), r.leader);
      var v := checked.value;
      StageFirstInAppend(n1, r.prevIndex, r.prevTerm, v.entries, r.leaderCommit, p, q);
    case _ =>
  }

  lemma StageFirstInAppend(n: Node, prevIndex: nat, prevTerm: nat, entries: seq<Entry>, leaderCommit: nat, p: nat, q: nat)
    requires Accepts(n, prevIndex, prevTerm, entries)
    requires var e := AppendedEffects(n, prevIndex, prevTerm, entries, leaderCommit);
      p < |e| && q < |e| && e[p].StageRaftEntries? && e[q].CommitBlock?
    ensures p < q
  {
  }

  /** A committed hash is that of an entry above the old commit index. */
  lemma CommitInLog(n: Node, o: Outcome, q: nat) returns (k: nat)
    requires StepKeeps(n, o) && q < |o.local| && o.local[q].CommitBlock?
    ensures n.commit <= k < |o.node.log| && !o.node.log[k].IsNoop() && o.node.log[k].hash == o.local[q].hash
  {
    CommitMember(o.local, q);
    var j := HashMember(o.node.log[n.commit..o.node.commit], o.local[q].hash);
    k := n.commit + j;
  }

  lemma CommitSourced(n: Node, i: Input, q: nat)
    requires Sound(n) && q < |React(n, i).local| && React(n, i).local[q].CommitBlock?
    ensures var o := React(n, i); Sourced(n, i, o.local, q, o.local[q].hash) && o.local[q].hash != EMPTY_HASH
  {
    ReactKeeps(n, i);
    var k := CommitInLog(n, React(n, i), q);
    ReactSourced(n, i, k);
    StagedAhead(n, i, q);
  }

  lemma StagedAhead(n: Node, i: Input, q: nat)
    requires q < |React(n, i).local| && React(n, i).local[q].CommitBlock?
    ensures var e := React(n, i).local; StagedBefore(e, |e|, e[q].hash) ==> StagedBefore(e, q, e[q].hash)
  {
    var effects := React(n, i).local;
    var h := effects[q].hash;
    if StagedBefore(effects, |effects|, h) {
      var p, e :| 0 <= p < |effects| && effects[p].StageRaftEntries? && e in effects[p].staged && e.hash == h;
      StageFirst(n, i, p, q);
    }
  }

  // --------------------------------------------------------------- whole runs

  /** The hash of a block this node was given to append, had in its log at the start, or has staged
      in front of position p. */
  ghost predicate Known(n: Node, inputs: seq<Input>, effects: seq<Effect>, p: nat, h: BlockHash) {
    Waits(n, h) || BlockCreated(h) in inputs || StagedBefore(effects, p, h)
  }

  lemma KnownLater(n: Node, inputs: seq<Input>, i: Input, effects: seq<Effect>, more: seq<Effect>, p: nat, h: BlockHash)
    requires p <= |effects| && Known(n, inputs, effects, p, h)
    ensures forall p' :: p <= p' ==> Known(n, inputs + [i], effects + more, p', h)
  {
    if StagedBefore(effects, p, h) {
      var q, e :| 0 <= q < p && q < |effects| && effects[q].StageRaftEntries? && e in effects[q].staged && e.hash == h;
      assert (effects + more)[q] == effects[q];
    }
  }

  lemma KnownNow(n: Node, inputs: seq<Input>, m: Node, i: Input, effects: seq<Effect>, more: seq<Effect>, p: nat, h: BlockHash)
    requires Waits(m, h) && h != EMPTY_HASH ==> Known(n, inputs, effects, |effects|, h)
    requires h != EMPTY_HASH && Sourced(m, i, more, p, h)
    ensures Known(n, inputs + [i], effects + more, |effects| + p, h)
  {
    if Waits(m, h) {
      KnownLater(n, inputs, i, effects, more, |effects|, h);
    } else if i == BlockCreated(h) {
      assert (inputs + [i])[|inputs|] == i;
    } else {
      var q, e :| 0 <= q < p && q < |more| && more[q].StageRaftEntries? && e in more[q].staged && e.hash == h;
      assert (effects + more)[|effects| + q] == more[q];
    }
  }

  ghost predicate WaitingKnown(n: Node, inputs: seq<Input>, m: Node, effects: seq<Effect>) {
    forall k :: m.commit <= k < |m.log| && !m.log[k].IsNoop() ==> Known(n, inputs, effects, |effects|, m.log[k].hash)
  }

  ghost predicate CommitsKnown(n: Node, inputs: seq<Input>, effects: seq<Effect>) {
    forall q :: 0 <= q < |effects| && effects[q].CommitBlock? ==> Known(n, inputs, effects, q, effects[q].hash)
  }

  ghost predicate AllKnown(n: Node, inputs: seq<Input>) {
    && WaitingKnown(n, inputs, RunNode(n, inputs), RunEffects(n, inputs))
    && CommitsKnown(n, inputs, RunEffects(n, inputs))
  }

  lemma WaitingStep(n: Node, inputs: seq<Input>, m: Node, effects: seq<Effect>, i: Input)
    requires Sound(m) && WaitingKnown(n, inputs, m, effects)
    ensures WaitingKnown(n, inputs + [i], React(m, i).node, effects + React(m, i).local)
  {
    ReactKeeps(m, i);
    var o := React(m, i);
    forall k | o.node.commit <= k < |o.node.log| && !o.node.log[k].IsNoop()
      ensures Known(n, inputs + [i], effects + o.local, |effects + o.local|, o.node.log[k].hash)
    {
      ReactSourced(m, i, k);
      HashKnown(n, inputs, m, effects, o.node.log[k].hash);
      KnownNow(n, inputs, m, i, effects, o.local, |o.local|, o.node.log[k].hash);
    }
  }

  lemma CommitsStep(n: Node, inputs: seq<Input>, m: Node, effects: seq<Effect>, i: Input)
    requires Sound(m) && WaitingKnown(n, inputs, m, effects) && CommitsKnown(n, inputs, effects)
    ensures CommitsKnown(n, inputs + [i], effects + React(m, i).local)
  {
    var more := React(m, i).local;
    var all := effects + more;
    forall q | 0 <= q < |all| && all[q].CommitBlock? ensures Known(n, inputs + [i], all, q, all[q].hash) {
      if q < |effects| {
        assert Known(n, inputs, effects, q, effects[q].hash);
        KnownLater(n, inputs, i, effects, more, q, effects[q].hash);
      } else {
        CommitKnown(n, inputs, m, effects, i, q - |effects|);
      }
    }
  }

  lemma CommitKnown(n: Node, inputs: seq<Input>, m: Node, effects: seq<Effect>, i: Input, p: nat)
    requires Sound(m) && WaitingKnown(n, inputs, m, effects)
    requires p < |React(m, i).local| && React(m, i).local[p].CommitBlock?
    ensures Known(n, inputs + [i], effects + React(m, i).local, |effects| + p, React(m, i).local[p].hash)
  {
    var more := React(m, i).local;
    CommitSourced(m, i, p);
    HashKnown(n, inputs, m, effects, more[p].hash);
    KnownNow(n, inputs, m, i, effects, more, p, more[p].hash);
  }

  lemma HashKnown(n: Node, inputs: seq<Input>, m: Node, effects: seq<Effect>, h: BlockHash)
    requires WaitingKnown(n, inputs, m, effects)
    ensures Waits(m, h) && h != EMPTY_HASH ==> Known(n, inputs, effects, |effects|, h)
  {
    if Waits(m, h) && h != EMPTY_HASH {
      var k :| m.commit <= k < |m.log| && m.log[k].hash == h;
      assert !m.log[k].IsNoop();
    }
  }

  lemma AllKnownStep(n: Node, inputs: seq<Input>, i: Input)
    requires Sound(RunNode(n, inputs)) && AllKnown(n, inputs)
    ensures AllKnown(n, inputs + [i])
  {
    var longer := inputs + [i];
    assert longer[..|longer| - 1] == inputs;
    var m, effects := RunNode(n, inputs), RunEffects(n, inputs);
    assert RunNode(n, longer) == React(m, i).node && RunEffects(n, longer) == effects + React(m, i).local;
    WaitingStep(n, inputs, m, effects, i);
    CommitsStep(n, inputs, m, effects, i);
  }

  /** In any run, each block the engine orders to commit was staged by an earlier effect, unless it
      was created here or waited in the log the run started with. */
  lemma {:induction false} StagedBeforeCommit(n: Node, inputs: seq<Input>)
    requires Sound(n)
    ensures AllKnown(n, inputs)
  {
    if inputs == [] {
      forall k | n.commit <= k < |n.log| ensures Waits(n, n.log[k].hash) {
      }
    } else {
      var k := |inputs| - 1;
      assert inputs == inputs[..k] + [inputs[k]];
      StagedBeforeCommit(n, inputs[..k]);
      CommitStream(n, inputs[..k]);
      AllKnownStep(n, inputs[..k], inputs[k]);
    }
  }
}
