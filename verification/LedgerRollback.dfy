/** Rolling a block back in another order than its transactions were applied, and what the rolled
    back ledger then does differently. */
module LedgerRollback {
  import opened Types
  import opened Ledger

  // ------------------------------------------------------------- net effects

  /** What an applied transaction adds to one balance. */
  function Net(tx: SignedTx, id: AccountId): int {
    match tx.operation
    case AddCoin(amount, _) => if tx.owner == id then amount else 0
    case SendCoins(recipient, amount, _) =>
      (if recipient == id then amount else 0) - (if tx.owner == id then amount else 0)
  }

  /** What the applied ones of a list add together. */
  function NetOf(txs: seq<SignedTx>, applied: set<TxId>, id: AccountId): int {
    if txs == [] then 0
    else
      var last := txs[|txs| - 1];
      NetOf(txs[..|txs| - 1], applied, id) + (if last.id in applied then Net(last, id) else 0)
  }

  function Balance(accounts: Accounts, id: AccountId): int {
    if id in accounts then accounts[id].balance else 0
  }

  lemma {:induction false} NetOfAgree(txs: seq<SignedTx>, a: set<TxId>, b: set<TxId>, id: AccountId)
    requires forall i :: 0 <= i < |txs| ==> (txs[i].id in a <==> txs[i].id in b)
    ensures NetOf(txs, a, id) == NetOf(txs, b, id)
  {
    if txs != [] {
      NetOfAgree(txs[..|txs| - 1], a, b, id);
    }
  }

  lemma {:induction false} NetOfConcat(a: seq<SignedTx>, b: seq<SignedTx>, applied: set<TxId>, id: AccountId)
    ensures NetOf(a + b, applied, id) == NetOf(a, applied, id) + NetOf(b, applied, id)
  {
    if b == [] {
      assert a + b == a;
    } else {
      assert (a + b)[..|a + b| - 1] == a + b[..|b| - 1];
      NetOfConcat(a, b[..|b| - 1], applied, id);
    }
  }

  /** Taking one element out of a list, wherever it stands. */
  lemma WithoutOne(xs: seq<SignedTx>, j: nat, applied: set<TxId>, id: AccountId)
    requires j < |xs|
    ensures var rest := xs[..j] + xs[j + 1..];
      && multiset(rest) == multiset(xs) - multiset{xs[j]}
      && NetOf(xs, applied, id) == NetOf(rest, applied, id) + NetOf([xs[j]], applied, id)
  {
    var a, b := xs[..j], xs[j + 1..];
    assert xs == a + [xs[j]] + b;
    NetOfConcat(a, b, applied, id);
    NetOfConcat(a + [xs[j]], b, applied, id);
    NetOfConcat(a, [xs[j]], applied, id);
  }

  /** The sum does not depend on the order. */
  lemma {:induction false} NetOfOrder(xs: seq<SignedTx>, ys: seq<SignedTx>, applied: set<TxId>, id: AccountId)
    requires multiset(xs) == multiset(ys)
    ensures NetOf(xs, applied, id) == NetOf(ys, applied, id)
    decreases |ys|
  {
    if ys == [] {
      assert |multiset(xs)| == |xs|;
    } else {
      var k := |ys| - 1;
      assert ys[k] in multiset(ys);
      assert ys[k] in xs;
      var j :| 0 <= j < |xs| && xs[j] == ys[k];
      WithoutOne(xs, j, applied, id);
      WithoutOne(ys, k, applied, id);
      assert ys[..k] + ys[k + 1..] == ys[..k];
      NetOfOrder(xs[..j] + xs[j + 1..], ys[..k], applied, id);
    }
  }

  // ------------------------------------------------------------------ forward

  /** The accounts an applied transaction touched. */
  ghost predicate Provided(l: Ledger, tx: SignedTx) {
    tx.id in l.applied ==>
      tx.owner in l.accounts && (tx.operation.SendCoins? ==> tx.operation.recipient in l.accounts)
  }

  ghost predicate AllProvided(l: Ledger, txs: seq<SignedTx>) {
    forall i :: 0 <= i < |txs| ==> Provided(l, txs[i])
  }

  lemma ProcessNet(l: Ledger, tx: SignedTx, id: AccountId)
    requires tx.id !in l.applied && !Wraps(l, tx)
    ensures var m := Process(l, tx).state;
      && Balance(m.accounts, id) == Balance(l.accounts, id) + (if tx.id in m.applied then Net(tx, id) else 0)
      && Provided(m, tx) && l.applied <= m.applied <= l.applied + {tx.id} && l.accounts.Keys <= m.accounts.Keys
      && (id in l.accounts ==> m.accounts[id].asset == l.accounts[id].asset)
  {
  }

  /** Without overflow, processing adds up exactly. */
  lemma {:induction false} ProcessAllNet(l: Ledger, txs: seq<SignedTx>, id: AccountId)
    requires Distinct(txs) && NoneApplied(l, txs) && NoWraps(l, txs)
    ensures var m := ProcessAll(l, txs);
      && Balance(m.accounts, id) == Balance(l.accounts, id) + NetOf(txs, m.applied, id)
      && AllProvided(m, txs) && l.applied <= m.applied && l.accounts.Keys <= m.accounts.Keys
      && (id in l.accounts ==> m.accounts[id].asset == l.accounts[id].asset)
  {
    if txs != [] {
      var k := |txs| - 1;
      var before := ProcessAll(l, txs[..k]);
      ProcessAllNet(l, txs[..k], id);
      AppliedGrows(l, txs[..k]);
      assert txs[k].id !in before.applied;
      ProcessNet(before, txs[k], id);
      var m := ProcessAll(l, txs);
      NetOfAgree(txs[..k], before.applied, m.applied, id);
      forall i | 0 <= i < |txs| ensures Provided(m, txs[i]) {
        if i < k {
          assert Provided(before, txs[..k][i]);
        }
      }
    }
  }

  // ----------------------------------------------------------------- backward

  /** The subtraction of this undo would go below zero. */
  ghost predicate Saturates(l: Ledger, tx: SignedTx) {
    tx.id in l.applied &&
      match tx.operation
      case AddCoin(amount, _) => tx.owner in l.accounts && l.accounts[tx.owner].balance < amount
      case SendCoins(recipient, amount, _) => recipient in l.accounts && l.accounts[recipient].balance < amount
  }

  /** The addition of this undo would leave 32 bits. */
  ghost predicate OverflowsBack(l: Ledger, tx: SignedTx) {
    && tx.id in l.applied && tx.operation.SendCoins? && tx.owner in l.accounts
    && TakeBack(l.accounts, tx.operation.recipient, tx.operation.amount)[tx.owner].balance + tx.operation.amount >= U32_RANGE
  }

  ghost predicate NeverSaturates(l: Ledger, txs: seq<SignedTx>)
    decreases |txs|
  {
    txs != [] ==> !Saturates(l, txs[|txs| - 1]) && NeverSaturates(Undo(l, txs[|txs| - 1]), txs[..|txs| - 1])
  }

  ghost predicate NeverOverflows(l: Ledger, txs: seq<SignedTx>)
    decreases |txs|
  {
    txs != [] ==> !OverflowsBack(l, txs[|txs| - 1]) && NeverOverflows(Undo(l, txs[|txs| - 1]), txs[..|txs| - 1])
  }

  /** One undo: no balance ends below the exact difference, and the saturated one ends above it. */
  lemma UndoNet(l: Ledger, tx: SignedTx, id: AccountId)
    requires Provided(l, tx) && !OverflowsBack(l, tx)
    ensures var exact := Balance(l.accounts, id) - (if tx.id in l.applied then Net(tx, id) else 0);
      && Balance(Undo(l, tx).accounts, id) >= exact
      && (!Saturates(l, tx) ==> Balance(Undo(l, tx).accounts, id) == exact)
      && (Saturates(l, tx) && id == Target(tx) ==> Balance(Undo(l, tx).accounts, id) > exact)
  {
  }

  /** The account an undo takes from. */
  function Target(tx: SignedTx): AccountId {
    if tx.operation.AddCoin? then tx.owner else tx.operation.recipient
  }

  lemma UndoShape(l: Ledger, tx: SignedTx)
    ensures var m := Undo(l, tx);
      && m.applied == l.applied - {tx.id} && m.accounts.Keys == l.accounts.Keys
      && forall id :: id in l.accounts ==> m.accounts[id].asset == l.accounts[id].asset
  {
  }

  lemma {:induction false} UndoAllShape(l: Ledger, txs: seq<SignedTx>)
    ensures var m := UndoAll(l, txs);
      && m.applied == l.applied - Ids(txs) && m.accounts.Keys == l.accounts.Keys
      && forall id :: id in l.accounts ==> m.accounts[id].asset == l.accounts[id].asset
    decreases |txs|
  {
    if txs != [] {
      var k := |txs| - 1;
      UndoShape(l, txs[k]);
      UndoAllShape(Undo(l, txs[k]), txs[..k]);
      assert Ids(txs) == Ids(txs[..k]) + {txs[k].id};
    }
  }

  /** The hypotheses of an undo carry over to the rest of the list. */
  lemma UndoRest(l: Ledger, txs: seq<SignedTx>, id: AccountId)
    requires txs != [] && Distinct(txs) && AllProvided(l, txs)
    ensures var k := |txs| - 1; var m := Undo(l, txs[k]);
      Distinct(txs[..k]) && AllProvided(m, txs[..k]) && NetOf(txs[..k], m.applied, id) == NetOf(txs[..k], l.applied, id)
  {
    var k := |txs| - 1;
    var m := Undo(l, txs[k]);
    UndoShape(l, txs[k]);
    forall i | 0 <= i < k ensures Provided(m, txs[..k][i]) {
      assert Provided(l, txs[i]);
    }
    NetOfAgree(txs[..k], m.applied, l.applied, id);
  }

  lemma {:induction false} UndoAllNet(l: Ledger, txs: seq<SignedTx>, id: AccountId)
    requires Distinct(txs) && AllProvided(l, txs) && NeverOverflows(l, txs)
    ensures var exact := Balance(l.accounts, id) - NetOf(txs, l.applied, id);
      && Balance(UndoAll(l, txs).accounts, id) >= exact
      && (NeverSaturates(l, txs) ==> Balance(UndoAll(l, txs).accounts, id) == exact)
    decreases |txs|
  {
    if txs != [] {
      var k := |txs| - 1;
      assert Provided(l, txs[k]);
      UndoNet(l, txs[k], id);
      UndoRest(l, txs, id);
      UndoAllNet(Undo(l, txs[k]), txs[..k], id);
    }
  }

  /** A saturated subtraction leaves a surplus that nothing later takes away. */
  lemma {:induction false} UndoAllSurplus(l: Ledger, txs: seq<SignedTx>) returns (id: AccountId)
    requires Distinct(txs) && AllProvided(l, txs) && NeverOverflows(l, txs) && !NeverSaturates(l, txs)
    ensures id in l.accounts && Balance(UndoAll(l, txs).accounts, id) > Balance(l.accounts, id) - NetOf(txs, l.applied, id)
    decreases |txs|
  {
    var k := |txs| - 1;
    var m := Undo(l, txs[k]);
    assert Provided(l, txs[k]);
    UndoShape(l, txs[k]);
    if Saturates(l, txs[k]) {
      id := Target(txs[k]);
      UndoRest(l, txs, id);
      UndoNet(l, txs[k], id);
      UndoAllNet(m, txs[..k], id);
    } else {
      UndoRest(l, txs, 0);
      id := UndoAllSurplus(m, txs[..k]);
      UndoRest(l, txs, id);
      UndoNet(l, txs[k], id);
    }
  }

  // ------------------------------------------------------------- any order

  lemma SameElements(txs: seq<SignedTx>, ys: seq<SignedTx>)
    requires multiset(txs) == multiset(ys)
    ensures Ids(txs) == Ids(ys) && forall i :: 0 <= i < |ys| ==> ys[i] in txs
  {
    forall i | 0 <= i < |ys| ensures ys[i] in txs && ys[i].id in Ids(txs) {
      assert ys[i] in multiset(ys);
      assert ys[i] in txs;
      var j :| 0 <= j < |txs| && txs[j] == ys[i];
    }
    forall i | 0 <= i < |txs| ensures txs[i].id in Ids(ys) {
      assert txs[i] in multiset(txs);
      assert txs[i] in ys;
      var j :| 0 <= j < |ys| && ys[j] == txs[i];
    }
  }

  /** A list in another order is still without repeated ids. */
  lemma DistinctOrder(txs: seq<SignedTx>, ys: seq<SignedTx>)
    requires multiset(txs) == multiset(ys) && Distinct(txs)
    ensures Distinct(ys)
  {
    SameElements(txs, ys);
    forall i, j | 0 <= i < j < |ys| ensures ys[i].id != ys[j].id {
      if ys[i].id == ys[j].id {
        var a :| 0 <= a < |txs| && txs[a] == ys[i];
        var b :| 0 <= b < |txs| && txs[b] == ys[j];
        assert ys[i] == ys[j];
        TwiceCounted(ys, i, j);
        OnceCounted(txs, a);
      }
    }
  }

  lemma TwiceCounted(s: seq<SignedTx>, i: nat, j: nat)
    requires i < j < |s| && s[i] == s[j]
    ensures multiset(s)[s[i]] >= 2
  {
    assert s == s[..i] + [s[i]] + s[i + 1..j] + [s[j]] + s[j + 1..];
  }

  lemma OnceCounted(s: seq<SignedTx>, a: nat)
    requires a < |s| && Distinct(s)
    ensures multiset(s)[s[a]] == 1
  {
    assert s == s[..a] + [s[a]] + s[a + 1..];
    assert s[a] !in s[..a] && s[a] !in s[a + 1..];
  }

  /** The clean undo of `CleanUndoAll` is one that neither saturates nor overflows. */
  lemma {:induction false} CleanIsBoth(l: Ledger, txs: seq<SignedTx>)
    requires Distinct(txs) && AllProvided(l, txs)
    ensures CleanUndoAll(l, txs) <==> NeverSaturates(l, txs) && NeverOverflows(l, txs)
    decreases |txs|
  {
    if txs != [] {
      assert Provided(l, txs[|txs| - 1]);
      UndoRest(l, txs, 0);
      CleanIsBoth(Undo(l, txs[|txs| - 1]), txs[..|txs| - 1]);
    }
  }

  /** What every order of the same applied transactions shares. */
  lemma OrderFacts(l: Ledger, txs: seq<SignedTx>, ys: seq<SignedTx>, id: AccountId)
    requires Distinct(txs) && NoneApplied(l, txs) && NoWraps(l, txs) && multiset(ys) == multiset(txs)
    ensures var m := ProcessAll(l, txs);
      && Distinct(ys) && AllProvided(m, ys) && m.applied - Ids(ys) == l.applied && l.accounts.Keys <= m.accounts.Keys
      && Balance(m.accounts, id) - NetOf(ys, m.applied, id) == Balance(l.accounts, id)
      && (id in l.accounts ==> m.accounts[id].asset == l.accounts[id].asset)
  {
    var m := ProcessAll(l, txs);
    DistinctOrder(txs, ys);
    SameElements(txs, ys);
    ProcessAllNet(l, txs, id);
    NetOfOrder(ys, txs, m.applied, id);
    AppliedGrows(l, txs);
    forall i | 0 <= i < |ys| ensures Provided(m, ys[i]) {
      var j :| 0 <= j < |txs| && txs[j] == ys[i];
      assert Provided(m, txs[j]);
    }
  }

  /** Rolling back in any order: if no subtraction saturates and no addition overflows on the way,
      the ledger is restored; and as long as no addition overflows, it is restored only then. */
  lemma RollbackInAnyOrder(l: Ledger, txs: seq<SignedTx>, ys: seq<SignedTx>)
    requires Distinct(txs) && NoneApplied(l, txs) && NoWraps(l, txs) && multiset(ys) == multiset(txs)
    ensures var m := ProcessAll(l, txs);
      && (CleanUndoAll(m, ys) ==> Restores(l, UndoAll(m, ys)))
      && (NeverOverflows(m, ys) ==> (Restores(l, UndoAll(m, ys)) <==> NeverSaturates(m, ys)))
  {
    var m := ProcessAll(l, txs);
    OrderFacts(l, txs, ys, 0);
    CleanIsBoth(m, ys);
    if NeverOverflows(m, ys) {
      if NeverSaturates(m, ys) {
        ExactRestores(l, txs, ys);
      } else {
        var id := UndoAllSurplus(m, ys);
        OrderFacts(l, txs, ys, id);
        UndoAllShape(m, ys);
      }
    }
  }

  lemma ExactRestores(l: Ledger, txs: seq<SignedTx>, ys: seq<SignedTx>)
    requires Distinct(txs) && NoneApplied(l, txs) && NoWraps(l, txs) && multiset(ys) == multiset(txs)
    requires var m := ProcessAll(l, txs); NeverOverflows(m, ys) && NeverSaturates(m, ys)
    ensures Restores(l, UndoAll(ProcessAll(l, txs), ys))
  {
    var m := ProcessAll(l, txs);
    var back := UndoAll(m, ys);
    OrderFacts(l, txs, ys, 0);
    UndoAllShape(m, ys);
    forall id | id in back.accounts
      ensures if id in l.accounts then back.accounts[id] == l.accounts[id] else back.accounts[id].balance == 0
    {
      OrderFacts(l, txs, ys, id);
      UndoAllNet(m, ys, id);
    }
  }

  // ---------------------------------------------------- overflow included

  /** What the saturation of one undo lets an account keep. */
  ghost function Forgives(l: Ledger, tx: SignedTx, id: AccountId): nat {
    if Saturates(l, tx) && id == Target(tx) then tx.operation.amount - l.accounts[id].balance else 0
  }

  ghost function Forgiven(l: Ledger, txs: seq<SignedTx>, id: AccountId): nat
    decreases |txs|
  {
    if txs == [] then 0
    else Forgives(l, txs[|txs| - 1], id) + Forgiven(Undo(l, txs[|txs| - 1]), txs[..|txs| - 1], id)
  }

  /** How often an account's balance overflows on the way back. */
  ghost function WrappedBack(l: Ledger, txs: seq<SignedTx>, id: AccountId): nat
    decreases |txs|
  {
    if txs == [] then 0
    else
      var last := txs[|txs| - 1];
      (if OverflowsBack(l, last) && id == last.owner then 1 else 0) + WrappedBack(Undo(l, last), txs[..|txs| - 1], id)
  }

  lemma UndoExact(l: Ledger, tx: SignedTx, id: AccountId)
    requires Provided(l, tx)
    ensures Balance(Undo(l, tx).accounts, id)
         == Balance(l.accounts, id) - (if tx.id in l.applied then Net(tx, id) else 0)
            + Forgives(l, tx, id) - (if OverflowsBack(l, tx) && id == tx.owner then U32_RANGE else 0)
  {
  }

  lemma {:induction false} UndoAllExact(l: Ledger, txs: seq<SignedTx>, id: AccountId)
    requires Distinct(txs) && AllProvided(l, txs)
    ensures Balance(UndoAll(l, txs).accounts, id)
         == Balance(l.accounts, id) - NetOf(txs, l.applied, id) + Forgiven(l, txs, id) - U32_RANGE * WrappedBack(l, txs, id)
    decreases |txs|
  {
    if txs != [] {
      var k := |txs| - 1;
      assert Provided(l, txs[k]);
      UndoExact(l, txs[k], id);
      UndoRest(l, txs, id);
      UndoAllExact(Undo(l, txs[k]), txs[..k], id);
    }
  }

  /** Rolling back in any order, overflows included: the ledger is restored if and only if on every
      account what saturation let it keep makes up for what overflow took. */
  lemma RollbackBalances(l: Ledger, txs: seq<SignedTx>, ys: seq<SignedTx>)
    requires Distinct(txs) && NoneApplied(l, txs) && NoWraps(l, txs) && multiset(ys) == multiset(txs)
    ensures var m := ProcessAll(l, txs);
      Restores(l, UndoAll(m, ys)) <==> forall id :: id in m.accounts ==> Forgiven(m, ys, id) == U32_RANGE * WrappedBack(m, ys, id)
  {
    var m := ProcessAll(l, txs);
    var back := UndoAll(m, ys);
    OrderFacts(l, txs, ys, 0);
    UndoAllShape(m, ys);
    forall id | id in m.accounts
      ensures back.accounts[id].balance == Balance(l.accounts, id) + Forgiven(m, ys, id) - U32_RANGE * WrappedBack(m, ys, id)
      ensures id in l.accounts ==> back.accounts[id].asset == l.accounts[id].asset
    {
      OrderFacts(l, txs, ys, id);
      UndoAllExact(m, ys, id);
    }
  }

  // ----------------------------------------------------- order: an instance

  const ADD: SignedTx := SignedTx(2, 7, AddCoin(5, BTC))
  const SPEND: SignedTx := SignedTx(1, 7, SendCoins(8, 5, BTC))

  /** Blocks list their transactions by id, not in the order they were applied.  In that order the
      deposit is taken back first, from an account already emptied by the payment. */
  lemma RollbackOrderMatters()
    ensures var l := ProcessAll(EMPTY, [ADD, SPEND]);
      Saturates(l, ADD) && !Restores(EMPTY, UndoAll(l, [SPEND, ADD]))
  {
    var l := ProcessAll(EMPTY, [ADD, SPEND]);
    assert [ADD, SPEND][..1] == [ADD] && [ADD][..0] == [] && [SPEND, ADD][..1] == [SPEND] && [SPEND][..0] == [];
    assert ProcessAll(EMPTY, [ADD]) == Process(EMPTY, ADD).state;
    assert l.accounts == map[7 := Account(BTC, 0), 8 := Account(BTC, 5)];
    assert ProcessAll(EMPTY, []) == EMPTY && NoWraps(EMPTY, []);
    assert !Wraps(EMPTY, ADD) && NoWraps(EMPTY, [ADD]);
    assert !Wraps(Process(EMPTY, ADD).state, SPEND) && NoWraps(EMPTY, [ADD, SPEND]);
    assert multiset([SPEND, ADD]) == multiset([ADD, SPEND]);
    assert Undo(l, ADD).accounts == l.accounts;
    assert NeverOverflows(Undo(l, ADD), [SPEND]);
    RollbackInAnyOrder(EMPTY, [ADD, SPEND], [SPEND, ADD]);
  }

  // ------------------------------------------------------- leftover accounts

  /** An account that only the rolled-back ledger has. */
  predicate Leftover(l: Ledger, l': Ledger, id: AccountId) {
    id in l'.accounts && id !in l.accounts
  }

  /** Whether the rolled-back ledger answers a transaction with another result: a deposit to a
      leftover account in another asset, any payment out of a leftover account, or a payment that
      would go through but for the asset of a leftover recipient. */
  predicate AnswersDiffer(l: Ledger, l': Ledger, tx: SignedTx) {
    tx.id !in l.applied &&
      match tx.operation
      case AddCoin(_, asset) => Leftover(l, l', tx.owner) && l'.accounts[tx.owner].asset != asset
      case SendCoins(recipient, amount, asset) =>
        || Leftover(l, l', tx.owner)
        || (&& tx.owner in l.accounts && l.accounts[tx.owner].asset == asset && l.accounts[tx.owner].balance >= amount
            && Leftover(l, l', recipient) && l'.accounts[recipient].asset != asset)
  }

  /** Whether one ledger accepts what the other refuses. */
  predicate VerdictsDiffer(l: Ledger, l': Ledger, tx: SignedTx) {
    AnswersDiffer(l, l', tx) &&
      match tx.operation
      case AddCoin(_, _) => true
      case SendCoins(recipient, amount, asset) =>
        Leftover(l, l', tx.owner) ==>
          && l'.accounts[tx.owner].asset == asset && amount == 0
          && (recipient in l'.accounts ==> l'.accounts[recipient].asset == asset)
  }

  /** Exactly when an undone ledger answers differently from the one it restores, and exactly when
      the difference is one between acceptance and refusal. */
  lemma RestoredAnswersIff(l: Ledger, l': Ledger, tx: SignedTx)
    requires Restores(l, l')
    ensures Process(l', tx).error != Process(l, tx).error <==> AnswersDiffer(l, l', tx)
    ensures Process(l', tx).error.Some? != Process(l, tx).error.Some? <==> VerdictsDiffer(l, l', tx)
  {
  }

  /** A deposit undone pins its account to its asset. */
  lemma RollbackPinsAsset()
    ensures var l := Undo(Process(EMPTY, ADD).state, ADD);
      var other := SignedTx(3, 7, AddCoin(1, USDT));
      Process(EMPTY, other).error == None && Process(l, other).error == Some(AssetMismatch(7, BTC, USDT))
  {
    var l := Undo(Process(EMPTY, ADD).state, ADD);
    UndoneIff(EMPTY, ADD);
    RestoredAnswersIff(EMPTY, l, SignedTx(3, 7, AddCoin(1, USDT)));
  }
}
