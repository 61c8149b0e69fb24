/** When the transactions on disk replay: conditions on the starting ledger and the list alone. */
module LedgerReplay {
  import opened Types
  import opened Ledger
  import opened LedgerRollback

  // ----------------------------------------------- reading a list beforehand

  /** A transaction that takes effect after the earlier ones: not applied, not a repetition. */
  predicate Effective(l: Ledger, earlier: seq<SignedTx>, tx: SignedTx) {
    tx.id !in l.applied && tx.id !in Ids(earlier)
  }

  /** The asset of an account after a list: the one it has, or that of the first credit to it. */
  function AssetAfter(l: Ledger, txs: seq<SignedTx>, id: AccountId): Option<AssetType> {
    if txs == [] then (if id in l.accounts then Some(l.accounts[id].asset) else None)
    else
      var earlier, last := txs[..|txs| - 1], txs[|txs| - 1];
      var before := AssetAfter(l, earlier, id);
      if before == None && Effective(l, earlier, last) && Target(last) == id then Some(Asset(last)) else before
  }

  /** Credits minus debits of an account over a list. */
  function NetAfter(l: Ledger, txs: seq<SignedTx>, id: AccountId): int {
    if txs == [] then 0
    else
      var earlier, last := txs[..|txs| - 1], txs[|txs| - 1];
      NetAfter(l, earlier, id) + (if Effective(l, earlier, last) then Net(last, id) else 0)
  }

  /** The balance after a list, as 32 bits hold it. */
  function BalanceAfter(l: Ledger, txs: seq<SignedTx>, id: AccountId): int {
    (Balance(l.accounts, id) + NetAfter(l, txs, id)) % U32_RANGE
  }

  /** The guards of one transaction behind the earlier ones: a credited account has the asset or is
      yet to be opened; a sender has been opened in that asset and still holds the amount. */
  predicate Passes(l: Ledger, earlier: seq<SignedTx>, tx: SignedTx) {
    Effective(l, earlier, tx) ==>
      && (AssetAfter(l, earlier, Target(tx)) == None || AssetAfter(l, earlier, Target(tx)) == Some(Asset(tx)))
      && (tx.operation.SendCoins? ==>
            AssetAfter(l, earlier, tx.owner) == Some(Asset(tx)) && BalanceAfter(l, earlier, tx.owner) >= tx.operation.amount)
  }

  // --------------------------------------------------- the reading is correct

  /** A ledger as the reading predicts it. */
  ghost predicate Predicted(l: Ledger, txs: seq<SignedTx>, m: Ledger) {
    && m.applied == l.applied + Ids(txs)
    && forall id :: AssetAfter(l, txs, id) == AssetIn(m, id) && BalanceAfter(l, txs, id) == Balance(m.accounts, id)
  }

  function AssetIn(m: Ledger, id: AccountId): Option<AssetType> {
    if id in m.accounts then Some(m.accounts[id].asset) else None
  }

  lemma ModAdd(x: int, y: int)
    ensures (x % U32_RANGE + y) % U32_RANGE == (x + y) % U32_RANGE
  {
    var q := x / U32_RANGE;
    assert x == q * U32_RANGE + x % U32_RANGE;
    var r := (x % U32_RANGE + y) / U32_RANGE;
    assert x + y == (q + r) * U32_RANGE + (x % U32_RANGE + y) % U32_RANGE;
  }

  lemma ProcessMod(m: Ledger, tx: SignedTx, id: AccountId)
    requires tx.id !in m.applied && Process(m, tx).error == None
    ensures var m' := Process(m, tx).state;
      && Balance(m'.accounts, id) == (Balance(m.accounts, id) + Net(tx, id)) % U32_RANGE
      && AssetIn(m', id) == (if AssetIn(m, id) == None && Target(tx) == id then Some(Asset(tx)) else AssetIn(m, id))
  {
  }

  lemma GuardsDecide(l: Ledger, txs: seq<SignedTx>, m: Ledger, tx: SignedTx)
    requires Predicted(l, txs, m)
    ensures Process(m, tx).error == None <==> Passes(l, txs, tx)
  {
    var owner, target := tx.owner, Target(tx);
    assert AssetAfter(l, txs, owner) == AssetIn(m, owner) && BalanceAfter(l, txs, owner) == Balance(m.accounts, owner);
    assert AssetAfter(l, txs, target) == AssetIn(m, target);
  }

  lemma IdsSnoc(txs: seq<SignedTx>, tx: SignedTx)
    ensures Ids(txs + [tx]) == Ids(txs) + {tx.id}
  {
    var longer := txs + [tx];
    forall i | 0 <= i < |txs| ensures txs[i].id in Ids(longer) {
      assert longer[i] == txs[i];
    }
    assert longer[|txs|].id in Ids(longer);
  }

  lemma PredictedStart(l: Ledger)
    ensures Predicted(l, [], l)
  {
  }

  lemma PredictedStep(l: Ledger, txs: seq<SignedTx>, m: Ledger, tx: SignedTx)
    requires Predicted(l, txs, m) && Process(m, tx).error == None
    ensures Predicted(l, txs + [tx], Process(m, tx).state)
  {
    var longer, m' := txs + [tx], Process(m, tx).state;
    assert longer[..|longer| - 1] == txs;
    IdsSnoc(txs, tx);
    forall id ensures AssetAfter(l, longer, id) == AssetIn(m', id) && BalanceAfter(l, longer, id) == Balance(m'.accounts, id) {
      assert AssetAfter(l, txs, id) == AssetIn(m, id) && BalanceAfter(l, txs, id) == Balance(m.accounts, id);
      if Effective(l, txs, tx) {
        ProcessMod(m, tx, id);
        ModAdd(Balance(l.accounts, id) + NetAfter(l, txs, id), Net(tx, id));
      }
    }
  }

  // ------------------------------------------------------------------ replay

  ghost predicate AllPass(l: Ledger, txs: seq<SignedTx>) {
    forall k :: 0 <= k < |txs| ==> Passes(l, txs[..k], txs[k])
  }

  lemma AllPassSnoc(l: Ledger, txs: seq<SignedTx>)
    requires txs != []
    ensures var k := |txs| - 1; AllPass(l, txs) <==> AllPass(l, txs[..k]) && Passes(l, txs[..k], txs[k])
  {
    var k := |txs| - 1;
    forall j | 0 <= j < k ensures txs[..k][..j] == txs[..j] && txs[..k][j] == txs[j] {
    }
    if AllPass(l, txs) {
      forall j | 0 <= j < k ensures Passes(l, txs[..k][..j], txs[..k][j]) {
        assert Passes(l, txs[..j], txs[j]);
      }
    }
    if AllPass(l, txs[..k]) && Passes(l, txs[..k], txs[k]) {
      forall j | 0 <= j < |txs| ensures Passes(l, txs[..j], txs[j]) {
        if j < k {
          assert Passes(l, txs[..k][..j], txs[..k][j]);
        }
      }
    }
  }

  /** A replay succeeds exactly when every transaction of the list passes its guards, which read
      only the starting ledger and the transactions before it. */
  lemma {:induction false} ReplayIff(l: Ledger, txs: seq<SignedTx>)
    ensures Replay(l, txs).error == None <==> AllPass(l, txs)
    ensures Replay(l, txs).error == None ==> Predicted(l, txs, Replay(l, txs).state)
    decreases |txs|
  {
    if txs == [] {
      PredictedStart(l);
    } else {
      var k := |txs| - 1;
      var front := txs[..k];
      assert txs == front + [txs[k]];
      ReplayIff(l, front);
      ReplayConcat(l, front, [txs[k]]);
      AllPassSnoc(l, txs);
      if Replay(l, front).error == None {
        var m := Replay(l, front).state;
        assert [txs[k]][1..] == [];
        GuardsDecide(l, front, m, txs[k]);
        if Process(m, txs[k]).error == None {
          PredictedStep(l, front, m, txs[k]);
        }
      }
    }
  }

  /** The transactions of a list that were not refused, in the order they were applied. */
  function Accepted(l: Ledger, txs: seq<SignedTx>): seq<SignedTx> {
    if txs == [] then []
    else
      var front, last := txs[..|txs| - 1], txs[|txs| - 1];
      Accepted(l, front) + (if Process(ProcessAll(l, front), last).error == None then [last] else [])
  }

  /** What was accepted always replays in application order, and gives the same ledger. */
  lemma {:induction false} AcceptedReplays(l: Ledger, txs: seq<SignedTx>)
    ensures Replay(l, Accepted(l, txs)) == Applied(ProcessAll(l, txs), None)
  {
    if txs != [] {
      var front, last := txs[..|txs| - 1], txs[|txs| - 1];
      AcceptedReplays(l, front);
      var m := ProcessAll(l, front);
      ProcessOutcome(m, last);
      if Process(m, last).error == None {
        ReplayConcat(l, Accepted(l, front), [last]);
        assert [last][1..] == [];
      } else {
        assert Accepted(l, txs) == Accepted(l, front);
      }
    }
  }

  /** In id order it need not: here the payment comes before the deposit that opens its account. */
  lemma ReplayCanRefuse()
    ensures Accepted(EMPTY, [ADD, SPEND]) == [ADD, SPEND] && SPEND.id < ADD.id
    ensures !Passes(EMPTY, [], SPEND) && Replay(EMPTY, [SPEND, ADD]).error == Some(AccountNotFound(7))
  {
    assert [ADD, SPEND][..1] == [ADD] && [ADD][..0] == [];
    assert ProcessAll(EMPTY, [ADD]) == Process(EMPTY, ADD).state;
    assert Accepted(EMPTY, [ADD]) == [ADD];
  }
}
