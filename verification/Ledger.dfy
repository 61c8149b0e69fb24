/** The account ledger: applying client transactions and undoing them. */
module Ledger {
  import opened Types

  datatype Account = Account(asset: AssetType, balance: U32)

  datatype ValidationError =
    | AccountNotFound(id: AccountId)
    | InsufficientFunds(id: AccountId, balance: U32, amount: U32)
    | AssetMismatch(id: AccountId, expected: AssetType, actual: AssetType)

  type Accounts = map<AccountId, Account>

  datatype Ledger = Ledger(accounts: Accounts, applied: set<TxId>)

  /** What a ledger operation answers: the new state, and the error that left it unchanged. */
  datatype Applied<T> = Applied(state: T, error: Option<ValidationError>)

  const EMPTY: Ledger := Ledger(map[], {})

  /** Addition as 32-bit hardware performs it. */
  function Plus(a: U32, b: U32): (r: U32) {
    if a + b < U32_RANGE then a + b else a + b - U32_RANGE
  }

  function SaturatingMinus(a: U32, b: U32): (r: U32) {
    if a >= b then a - b else 0
  }

  function Credit(accounts: Accounts, id: AccountId, asset: AssetType, amount: U32): Applied<Accounts> {
    if id in accounts then
      if accounts[id].asset != asset then Applied(accounts, Some(AssetMismatch(id, accounts[id].asset, asset)))
      else Applied(accounts[id := Account(asset, Plus(accounts[id].balance, amount))], None)
    else Applied(accounts[id := Account(asset, amount)], None)
  }

  function Debit(accounts: Accounts, id: AccountId, amount: U32): Accounts
    requires id in accounts && accounts[id].balance >= amount
  {
    accounts[id := accounts[id].(balance := accounts[id].balance - amount)]
  }

  function Transfer(accounts: Accounts, id: AccountId, to: AccountId, asset: AssetType, amount: U32): Applied<Accounts> {
    if id !in accounts then Applied(accounts, Some(AccountNotFound(id)))
    else if accounts[id].asset != asset then Applied(accounts, Some(AssetMismatch(id, accounts[id].asset, asset)))
    else if accounts[id].balance < amount then Applied(accounts, Some(InsufficientFunds(id, accounts[id].balance, amount)))
    else if to in accounts && accounts[to].asset != asset then Applied(accounts, Some(AssetMismatch(to, accounts[to].asset, asset)))
    else Credit(Debit(accounts, id, amount), to, asset, amount)
  }

  function Perform(accounts: Accounts, tx: SignedTx): Applied<Accounts> {
    match tx.operation
    case AddCoin(amount, asset) => Credit(accounts, tx.owner, asset, amount)
    case SendCoins(recipient, amount, asset) => Transfer(accounts, tx.owner, recipient, asset, amount)
  }

  function Process(l: Ledger, tx: SignedTx): Applied<Ledger> {
    if tx.id in l.applied then Applied(l, None)
    else
      var r := Perform(l.accounts, tx);
      if r.error.Some? then Applied(Ledger(r.state, l.applied), r.error)
      else Applied(Ledger(r.state, l.applied + {tx.id}), None)
  }

  function ProcessAll(l: Ledger, txs: seq<SignedTx>): Ledger {
    if txs == [] then l
    else Process(ProcessAll(l, txs[..|txs| - 1]), txs[|txs| - 1]).state
  }

  // -------------------------------------------------------------------- undo

  function TakeBack(accounts: Accounts, id: AccountId, amount: U32): Accounts {
    if id in accounts
    then accounts[id := accounts[id].(balance := SaturatingMinus(accounts[id].balance, amount))]
    else accounts
  }

  function GiveBack(accounts: Accounts, id: AccountId, amount: U32): Accounts {
    if id in accounts
    then accounts[id := accounts[id].(balance := Plus(accounts[id].balance, amount))]
    else accounts
  }

  function Reverse(accounts: Accounts, tx: SignedTx): Accounts {
    match tx.operation
    case AddCoin(amount, _) => TakeBack(accounts, tx.owner, amount)
    case SendCoins(recipient, amount, _) => GiveBack(TakeBack(accounts, recipient, amount), tx.owner, amount)
  }

  function Undo(l: Ledger, tx: SignedTx): Ledger {
    if tx.id !in l.applied then l
    else Ledger(Reverse(l.accounts, tx), l.applied - {tx.id})
  }

  /** Undo a list, last transaction first. */
  function UndoAll(l: Ledger, txs: seq<SignedTx>): Ledger
    decreases |txs|
  {
    if txs == [] then l
    else UndoAll(Undo(l, txs[|txs| - 1]), txs[..|txs| - 1])
  }

  // ------------------------------------------------- a refused transaction

  /** A refused transaction changes nothing, and exactly the accepted ones are remembered. */
  lemma ProcessOutcome(l: Ledger, tx: SignedTx)
    ensures var r := Process(l, tx);
      && (r.error.Some? ==> r.state == l)
      && (r.error == None ==> r.state.applied == l.applied + {tx.id})
      && (forall id :: id in l.accounts ==> id in r.state.accounts && r.state.accounts[id].asset == l.accounts[id].asset)
  {
  }

  /** Why a transaction is refused: an unknown sender, an asset that is not the sender's, too little
      on the account, or an asset that is not the credited account's, looked at in this order. */
  lemma RefusedFor(l: Ledger, tx: SignedTx)
    requires tx.id !in l.applied
    ensures Process(l, tx).error == match tx.operation
      case AddCoin(_, asset) =>
        if tx.owner in l.accounts && l.accounts[tx.owner].asset != asset
        then Some(AssetMismatch(tx.owner, l.accounts[tx.owner].asset, asset)) else None
      case SendCoins(recipient, amount, asset) =>
        if tx.owner !in l.accounts then Some(AccountNotFound(tx.owner))
        else if l.accounts[tx.owner].asset != asset then Some(AssetMismatch(tx.owner, l.accounts[tx.owner].asset, asset))
        else if l.accounts[tx.owner].balance < amount then Some(InsufficientFunds(tx.owner, l.accounts[tx.owner].balance, amount))
        else if recipient in l.accounts && l.accounts[recipient].asset != asset
        then Some(AssetMismatch(recipient, l.accounts[recipient].asset, asset)) else None
  {
  }

  // ---------------------------------------------- conservation and overflow

  function Holding(a: Account, asset: AssetType): nat {
    if a.asset == asset then a.balance else 0
  }

  /** Everything held in one asset. */
  ghost function Total(accounts: Accounts, asset: AssetType): nat {
    if accounts == map[] then 0
    else
      var id :| id in accounts;
      Holding(accounts[id], asset) + Total(accounts - {id}, asset)
  }

  lemma {:induction false} TotalRemove(accounts: Accounts, asset: AssetType, id: AccountId)
    requires id in accounts
    ensures Total(accounts, asset) == Holding(accounts[id], asset) + Total(accounts - {id}, asset)
    decreases |accounts|
  {
    var k :| k in accounts && Total(accounts, asset) == Holding(accounts[k], asset) + Total(accounts - {k}, asset);
    if k != id {
      TotalRemove(accounts - {k}, asset, id);
      assert accounts - {k} - {id} == accounts - {id} - {k};
      TotalRemove(accounts - {id}, asset, k);
    }
  }

  /** Changing one account changes the total by the difference. */
  lemma TotalUpdate(accounts: Accounts, asset: AssetType, id: AccountId, a: Account)
    ensures Total(accounts[id := a], asset) + (if id in accounts then Holding(accounts[id], asset) else 0)
         == Total(accounts, asset) + Holding(a, asset)
  {
    TotalRemove(accounts[id := a], asset, id);
    if id in accounts {
      TotalRemove(accounts, asset, id);
      assert accounts[id := a] - {id} == accounts - {id};
    } else {
      assert accounts[id := a] - {id} == accounts;
    }
  }

  /** Whether crediting an account overflows its balance. */
  predicate Overflows(accounts: Accounts, id: AccountId, asset: AssetType, amount: U32) {
    id in accounts && accounts[id].asset == asset && accounts[id].balance + amount >= U32_RANGE
  }

  /** Whether the one addition this transaction performs overflows. */
  predicate Wraps(l: Ledger, tx: SignedTx) {
    && tx.id !in l.applied && Process(l, tx).error == None
    && match tx.operation
       case AddCoin(amount, asset) => Overflows(l.accounts, tx.owner, asset, amount)
       case SendCoins(recipient, amount, asset) =>
         tx.owner in l.accounts && l.accounts[tx.owner].balance >= amount
         && Overflows(Debit(l.accounts, tx.owner, amount), recipient, asset, amount)
  }

  function Asset(tx: SignedTx): AssetType {
    tx.operation.asset
  }

  /** Coins this transaction brings into existence. */
  function Mints(l: Ledger, tx: SignedTx, asset: AssetType): nat {
    if tx.operation.AddCoin? && Asset(tx) == asset && tx.id !in l.applied && Process(l, tx).error == None
    then tx.operation.amount else 0
  }

  function Minted(l: Ledger, txs: seq<SignedTx>, asset: AssetType): nat {
    if txs == [] then 0
    else Minted(l, txs[..|txs| - 1], asset) + Mints(ProcessAll(l, txs[..|txs| - 1]), txs[|txs| - 1], asset)
  }

  /** Additions in that asset that overflowed. */
  function WrapCount(l: Ledger, txs: seq<SignedTx>, asset: AssetType): nat {
    if txs == [] then 0
    else
      var before := ProcessAll(l, txs[..|txs| - 1]);
      WrapCount(l, txs[..|txs| - 1], asset)
      + (if Asset(txs[|txs| - 1]) == asset && Wraps(before, txs[|txs| - 1]) then 1 else 0)
  }

  lemma CreditTotal(accounts: Accounts, id: AccountId, asset: AssetType, amount: U32, a: AssetType)
    requires Credit(accounts, id, asset, amount).error == None
    ensures Total(Credit(accounts, id, asset, amount).state, a)
         + (if a == asset && Overflows(accounts, id, asset, amount) then U32_RANGE else 0)
         == Total(accounts, a) + (if a == asset then amount else 0)
  {
    var b := if id in accounts then Plus(accounts[id].balance, amount) else amount;
    TotalUpdate(accounts, a, id, Account(asset, b));
  }

  lemma DebitTotal(accounts: Accounts, id: AccountId, amount: U32, a: AssetType)
    requires id in accounts && accounts[id].balance >= amount
    ensures Total(Debit(accounts, id, amount), a) + (if a == accounts[id].asset then amount else 0) == Total(accounts, a)
  {
    TotalUpdate(accounts, a, id, accounts[id].(balance := accounts[id].balance - amount));
  }

  /** One transaction: what an asset's total gains is what was minted, less a full range per overflow. */
  lemma ProcessTotal(l: Ledger, tx: SignedTx, a: AssetType)
    ensures Total(Process(l, tx).state.accounts, a) + (if Asset(tx) == a && Wraps(l, tx) then U32_RANGE else 0)
         == Total(l.accounts, a) + Mints(l, tx, a)
  {
    if tx.id !in l.applied && Process(l, tx).error == None {
      match tx.operation
      case AddCoin(amount, asset) => CreditTotal(l.accounts, tx.owner, asset, amount, a);
      case SendCoins(recipient, amount, asset) =>
        DebitTotal(l.accounts, tx.owner, amount, a);
        CreditTotal(Debit(l.accounts, tx.owner, amount), recipient, asset, amount, a);
    }
  }

  /** What a list of transactions does to an asset's total, from any ledger. */
  lemma {:induction false} TotalAfter(l: Ledger, txs: seq<SignedTx>, asset: AssetType)
    ensures Total(ProcessAll(l, txs).accounts, asset) + U32_RANGE * WrapCount(l, txs, asset) == Total(l.accounts, asset) + Minted(l, txs, asset)
  {
    if txs != [] {
      var k := |txs| - 1;
      TotalAfter(l, txs[..k], asset);
      ProcessTotal(ProcessAll(l, txs[..k]), txs[k], asset);
    }
  }

  /** Conservation, over any list of transactions from the empty ledger. */
  lemma Conservation(txs: seq<SignedTx>, asset: AssetType)
    ensures Total(ProcessAll(EMPTY, txs).accounts, asset) + U32_RANGE * WrapCount(EMPTY, txs, asset) == Minted(EMPTY, txs, asset)
  {
    TotalAfter(EMPTY, txs, asset);
  }

  /** If what was minted fits in 32 bits, no addition ever overflowed and the books balance. */
  lemma MintBound(txs: seq<SignedTx>, asset: AssetType)
    requires Minted(EMPTY, txs, asset) < U32_RANGE
    ensures WrapCount(EMPTY, txs, asset) == 0
    ensures Total(ProcessAll(EMPTY, txs).accounts, asset) == Minted(EMPTY, txs, asset)
  {
    Conservation(txs, asset);
  }

  /** The books balance exactly when nothing overflowed. */
  lemma BalancedIff(txs: seq<SignedTx>, asset: AssetType)
    ensures Total(ProcessAll(EMPTY, txs).accounts, asset) == Minted(EMPTY, txs, asset) <==> WrapCount(EMPTY, txs, asset) == 0
  {
    Conservation(txs, asset);
  }

  // ------------------------------------------------------ last in, first out

  /** Everything of `l` is there unchanged; any further account is empty. */
  ghost predicate Restores(l: Ledger, l': Ledger) {
    && l'.applied == l.applied
    && (forall id :: id in l.accounts ==> id in l'.accounts && l'.accounts[id] == l.accounts[id])
    && (forall id :: id in l'.accounts && id !in l.accounts ==> l'.accounts[id].balance == 0)
  }

  /** Undoing this transaction neither saturates a subtraction nor overflows an addition. */
  ghost predicate CleanUndo(l: Ledger, tx: SignedTx) {
    tx.id in l.applied ==>
      match tx.operation
      case AddCoin(amount, _) => tx.owner in l.accounts && l.accounts[tx.owner].balance >= amount
      case SendCoins(recipient, amount, _) =>
        && recipient in l.accounts && l.accounts[recipient].balance >= amount && tx.owner in l.accounts
        && TakeBack(l.accounts, recipient, amount)[tx.owner].balance + amount < U32_RANGE
  }

  ghost predicate CleanUndoAll(l: Ledger, txs: seq<SignedTx>)
    decreases |txs|
  {
    txs != [] ==> CleanUndo(l, txs[|txs| - 1]) && CleanUndoAll(Undo(l, txs[|txs| - 1]), txs[..|txs| - 1])
  }

  ghost predicate NoWraps(l: Ledger, txs: seq<SignedTx>) {
    txs != [] ==> NoWraps(l, txs[..|txs| - 1]) && !Wraps(ProcessAll(l, txs[..|txs| - 1]), txs[|txs| - 1])
  }

  ghost predicate Distinct(txs: seq<SignedTx>) {
    forall i, j :: 0 <= i < j < |txs| ==> txs[i].id != txs[j].id
  }

  ghost predicate NoneApplied(l: Ledger, txs: seq<SignedTx>) {
    forall i :: 0 <= i < |txs| ==> txs[i].id !in l.applied
  }

  /** Undoing one transaction, from any state that restores the one it led to. */
  lemma UndoOne(l: Ledger, tx: SignedTx, l': Ledger)
    requires tx.id !in l.applied && !Wraps(l, tx) && Restores(Process(l, tx).state, l')
    ensures Restores(l, Undo(l', tx)) && CleanUndo(l', tx)
  {
    var m := Process(l, tx).state;
    if Process(l, tx).error == None {
      assert l'.applied - {tx.id} == l.applied;
      assert l'.accounts[tx.owner] == m.accounts[tx.owner];
    }
  }

  /** Exactly when a single accepted transaction is undone. */
  lemma UndoneIff(l: Ledger, tx: SignedTx)
    requires tx.id !in l.applied
    ensures Restores(l, Undo(Process(l, tx).state, tx)) <==> !Wraps(l, tx)
  {
    if !Wraps(l, tx) {
      UndoOne(l, tx, Process(l, tx).state);
    }
  }

  lemma {:induction false} AppliedGrows(l: Ledger, txs: seq<SignedTx>)
    ensures ProcessAll(l, txs).applied <= l.applied + set i | 0 <= i < |txs| :: txs[i].id
  {
    if txs != [] {
      AppliedGrows(l, txs[..|txs| - 1]);
    }
  }

  /** Processing a list and rolling the same list back restores the ledger, whatever its
      starting state and however many of the transactions were refused. */
  lemma LastInFirstOut(l: Ledger, txs: seq<SignedTx>)
    requires Distinct(txs) && NoneApplied(l, txs) && NoWraps(l, txs)
    ensures Restores(l, UndoAll(ProcessAll(l, txs), txs)) && CleanUndoAll(ProcessAll(l, txs), txs)
  {
    UndoFrom(l, txs, ProcessAll(l, txs));
  }

  lemma {:induction false} UndoFrom(l: Ledger, txs: seq<SignedTx>, l': Ledger)
    requires Distinct(txs) && NoneApplied(l, txs) && NoWraps(l, txs) && Restores(ProcessAll(l, txs), l')
    ensures Restores(l, UndoAll(l', txs)) && CleanUndoAll(l', txs)
    decreases |txs|
  {
    if txs != [] {
      var k := |txs| - 1;
      var before := ProcessAll(l, txs[..k]);
      AppliedGrows(l, txs[..k]);
      assert txs[k].id !in before.applied;
      UndoOne(before, txs[k], l');
      UndoFrom(l, txs[..k], Undo(l', txs[k]));
    }
  }

  /** The same from a ledger reached by earlier transactions: what the caller must know is only
      that the coins minted so far fit in 32 bits. */
  lemma RollbackAfterHistory(history: seq<SignedTx>, txs: seq<SignedTx>)
    requires Distinct(txs) && NoneApplied(ProcessAll(EMPTY, history), txs)
    requires forall asset :: Minted(EMPTY, history + txs, asset) < U32_RANGE
    ensures var l := ProcessAll(EMPTY, history);
      Restores(l, UndoAll(ProcessAll(l, txs), txs)) && CleanUndoAll(ProcessAll(l, txs), txs)
  {
    FittingNeverWraps(history + txs);
    NoWrapsSuffix(EMPTY, history, txs);
    LastInFirstOut(ProcessAll(EMPTY, history), txs);
  }

  lemma {:induction false} FittingNeverWraps(txs: seq<SignedTx>)
    requires forall asset :: Minted(EMPTY, txs, asset) < U32_RANGE
    ensures NoWraps(EMPTY, txs)
  {
    if txs != [] {
      var k := |txs| - 1;
      MintBound(txs, Asset(txs[k]));
      forall asset ensures Minted(EMPTY, txs[..k], asset) < U32_RANGE {
        assert Minted(EMPTY, txs[..k], asset) <= Minted(EMPTY, txs, asset);
      }
      FittingNeverWraps(txs[..k]);
    }
  }

  lemma {:induction false} ProcessAllConcat(l: Ledger, a: seq<SignedTx>, b: seq<SignedTx>)
    ensures ProcessAll(l, a + b) == ProcessAll(ProcessAll(l, a), b)
  {
    if b == [] {
      assert a + b == a;
    } else {
      assert (a + b)[..|a + b| - 1] == a + b[..|b| - 1];
      ProcessAllConcat(l, a, b[..|b| - 1]);
    }
  }

  lemma {:induction false} NoWrapsSuffix(l: Ledger, a: seq<SignedTx>, b: seq<SignedTx>)
    requires NoWraps(l, a + b)
    ensures NoWraps(ProcessAll(l, a), b)
  {
    if b != [] {
      assert (a + b)[..|a + b| - 1] == a + b[..|b| - 1];
      ProcessAllConcat(l, a, b[..|b| - 1]);
      NoWrapsSuffix(l, a, b[..|b| - 1]);
    }
  }

  // -------------------------------------------------------------- replay

  /** Replaying stored blocks stops at the first refused transaction. */
  function Replay(l: Ledger, txs: seq<SignedTx>): Applied<Ledger>
    decreases |txs|
  {
    if txs == [] then Applied(l, None)
    else
      var r := Process(l, txs[0]);
      if r.error.Some? then r else Replay(r.state, txs[1..])
  }

  function Flatten(blocks: seq<seq<SignedTx>>): seq<SignedTx> {
    if blocks == [] then [] else blocks[0] + Flatten(blocks[1..])
  }

  lemma {:induction false} ReplayConcat(l: Ledger, a: seq<SignedTx>, b: seq<SignedTx>)
    ensures Replay(l, a + b) == if Replay(l, a).error.Some? then Replay(l, a) else Replay(Replay(l, a).state, b)
    decreases |a|
  {
    if a == [] {
      assert a + b == b;
    } else {
      assert (a + b)[1..] == a[1..] + b;
      if Process(l, a[0]).error == None {
        ReplayConcat(Process(l, a[0]).state, a[1..], b);
      }
    }
  }

  /** A replay that succeeds reaches the ledger that processing the same list reaches, and it
      succeeds exactly when none of the transactions is refused. */
  lemma {:induction false} ReplayProcesses(l: Ledger, txs: seq<SignedTx>)
    ensures Replay(l, txs).error == None ==> Replay(l, txs).state == ProcessAll(l, txs)
    ensures Replay(l, txs).error == None <==> forall k :: 0 <= k < |txs| ==> Process(ProcessAll(l, txs[..k]), txs[k]).error == None
    decreases |txs|
  {
    if txs != [] {
      var k := |txs| - 1;
      assert txs == txs[..k] + [txs[k]];
      ReplayProcesses(l, txs[..k]);
      ReplayConcat(l, txs[..k], [txs[k]]);
      assert [txs[k]][1..] == [];
      forall j | 0 <= j < k ensures txs[..k][..j] == txs[..j] && txs[..k][j] == txs[j] {
      }
      if Replay(l, txs[..k]).error == None {
        assert Replay(l, txs).error == Process(ProcessAll(l, txs[..k]), txs[k]).error;
        forall j | 0 <= j < k ensures Process(ProcessAll(l, txs[..j]), txs[j]).error == None {
          assert Process(ProcessAll(l, txs[..k][..j]), txs[..k][j]).error == None;
        }
      } else {
        var j :| 0 <= j < k && Process(ProcessAll(l, txs[..k][..j]), txs[..k][j]).error != None;
        assert Process(ProcessAll(l, txs[..j]), txs[j]).error != None;
      }
    }
  }

  // ------------------------------------------------------------ the processor

  class TransactionProcessor {
    var accounts: Accounts
    var applied: set<TxId>

    constructor ()
      ensures State() == EMPTY
    {
      accounts, applied := map[], {};
    }

    function State(): Ledger
      reads this
    {
      Ledger(accounts, applied)
    }

    method AddCoin(id: AccountId, asset: AssetType, amount: U32) returns (error: Option<ValidationError>)
      modifies this`accounts
      ensures Applied(accounts, error) == Credit(old(accounts), id, asset, amount)
    {
      if id in accounts {
        if accounts[id].asset != asset {
          return Some(AssetMismatch(id, accounts[id].asset, asset));
        }
        accounts := accounts[id := accounts[id].(balance := Plus(accounts[id].balance, amount))];
      } else {
        accounts := accounts[id := Account(asset, amount)];
      }
      error := None;
    }

    method SendCoins(id: AccountId, to: AccountId, asset: AssetType, amount: U32) returns (error: Option<ValidationError>)
      modifies this`accounts
      ensures Applied(accounts, error) == Transfer(old(accounts), id, to, asset, amount)
    {
      if id !in accounts {
        return Some(AccountNotFound(id));
      }
      if accounts[id].asset != asset {
        return Some(AssetMismatch(id, accounts[id].asset, asset));
      }
      if accounts[id].balance < amount {
        return Some(InsufficientFunds(id, accounts[id].balance, amount));
      }
      if to in accounts && accounts[to].asset != asset {
        return Some(AssetMismatch(to, accounts[to].asset, asset));
      }
      accounts := accounts[id := accounts[id].(balance := accounts[id].balance - amount)];
      error := AddCoin(to, asset, amount);
    }

    method ProcessTransaction(tx: SignedTx) returns (error: Option<ValidationError>)
      modifies this
      ensures Applied(State(), error) == Process(old(State()), tx)
      ensures error.Some? ==> State() == old(State())
    {
      if tx.id in applied {
        return None;
      }
      match tx.operation {
        case AddCoin(amount, asset) => error := AddCoin(tx.owner, asset, amount);
        case SendCoins(recipient, amount, asset) => error := SendCoins(tx.owner, recipient, asset, amount);
      }
      if error == None {
        applied := applied + {tx.id};
      }
    }

    method ReverseAddCoin(id: AccountId, amount: U32)
      modifies this`accounts
      ensures accounts == TakeBack(old(accounts), id, amount)
    {
      if id in accounts {
        accounts := accounts[id := accounts[id].(balance := SaturatingMinus(accounts[id].balance, amount))];
      }
    }

    method ReverseSendCoins(id: AccountId, to: AccountId, amount: U32)
      modifies this`accounts
      ensures accounts == GiveBack(TakeBack(old(accounts), to, amount), id, amount)
    {
      if to in accounts {
        accounts := accounts[to := accounts[to].(balance := SaturatingMinus(accounts[to].balance, amount))];
      }
      if id in accounts {
        accounts := accounts[id := accounts[id].(balance := Plus(accounts[id].balance, amount))];
      }
    }

    method RollbackTransaction(tx: SignedTx)
      modifies this
      ensures State() == Undo(old(State()), tx)
    {
      if tx.id !in applied {
        return;
      }
      applied := applied - {tx.id};
      match tx.operation {
        case AddCoin(amount, _) => ReverseAddCoin(tx.owner, amount);
        case SendCoins(recipient, amount, _) => ReverseSendCoins(tx.owner, recipient, amount);
      }
    }

    method RollbackTransactions(txs: seq<SignedTx>)
      modifies this
      ensures State() == UndoAll(old(State()), txs)
    {
      var i := |txs|;
      assert txs[..i] == txs;
      while i > 0
        invariant 0 <= i <= |txs|
        invariant UndoAll(State(), txs[..i]) == UndoAll(old(State()), txs)
      {
        i := i - 1;
        assert txs[..i + 1][..i] == txs[..i];
        RollbackTransaction(txs[i]);
      }
    }

    /** Rebuild the ledger from the blocks on disk, in the order they are listed. */
    method ReadState(blocks: seq<seq<SignedTx>>) returns (error: Option<ValidationError>)
      modifies this
      ensures Applied(State(), error) == Replay(old(State()), Flatten(blocks))
    {
      var i := 0;
      while i < |blocks|
        invariant 0 <= i <= |blocks|
        invariant Replay(State(), Flatten(blocks[i..])) == Replay(old(State()), Flatten(blocks))
      {
        var block := blocks[i];
        ghost var rest := Flatten(blocks[i + 1..]);
        assert blocks[i..][0] == block && blocks[i..][1..] == blocks[i + 1..];
        var j := 0;
        assert block[0..] == block;
        while j < |block|
          invariant 0 <= j <= |block|
          invariant Replay(State(), block[j..] + rest) == Replay(old(State()), Flatten(blocks))
        {
          assert (block[j..] + rest)[0] == block[j] && (block[j..] + rest)[1..] == block[j + 1..] + rest;
          error := ProcessTransaction(block[j]);
          if error.Some? {
            return;
          }
          j := j + 1;
        }
        assert block[j..] + rest == rest;
        i := i + 1;
      }
      error := None;
    }
  }
}
