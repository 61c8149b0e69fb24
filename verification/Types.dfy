/** Values shared by every layer: peers, hashes, transactions, blocks, Raft log
    entries, wire messages and consensus effects. */
module Types {

  type PeerId = nat

  /** A 32-byte digest, kept abstract as a number; zero stands for the all-zero digest. */
  type BlockHash = nat
  const EMPTY_HASH: BlockHash := 0

  /** Fixed-width hexadecimal signature, kept as the number it spells: the two orders agree. */
  type TxId = nat
  type AccountId = nat

  datatype Option<+T> = None | Some(value: T)

  datatype Result<+T> = Ok(value: T) | Err(error: string)

  /** 32-bit unsigned amounts. */
  const U32_RANGE: nat := 0x1_0000_0000
  type U32 = n: nat | n < U32_RANGE

  datatype AssetType = BTC | USDT

  datatype Operation =
    | AddCoin(amount: U32, asset: AssetType)
    | SendCoins(recipient: AccountId, amount: U32, asset: AssetType)

  datatype SignedTx = SignedTx(id: TxId, owner: AccountId, operation: Operation)

  function Ids(txs: seq<SignedTx>): set<TxId> {
    set i | 0 <= i < |txs| :: txs[i].id
  }

  datatype BlockFile = BlockFile(index: nat, hash: BlockHash, previousHash: BlockHash, transactions: seq<SignedTx>)

  datatype Entry = Entry(term: nat, index: nat, hash: BlockHash) {
    predicate IsNoop() {
      hash == EMPTY_HASH
    }
  }

  datatype Body =
    | RequestVote(term: nat, candidate: PeerId, lastIndex: nat, lastTerm: nat)
    | RequestVoteResponse(term: nat, granted: bool)
    | AppendEntries(term: nat, leader: PeerId, prevIndex: nat, prevTerm: nat, entries: seq<Entry>, leaderCommit: nat)
    | AppendEntriesResponse(term: nat, success: bool, matchIndex: nat)
    | ClientTransaction(tx: SignedTx)
    | BlockApproved(hash: BlockHash)
    | BlockReject(hash: BlockHash)

  datatype Effect =
    | StageClientTransaction(tx: SignedTx)
    | StageRaftEntries(staged: seq<Entry>)
    | BroadcastClientTransaction(tx: SignedTx)
    | ProposeBlock(hash: BlockHash)
    | SendRaftAppendEntries(to: PeerId, term: nat, prevIndex: nat, prevTerm: nat, entries: seq<Entry>, leaderCommit: nat)
    | CommitBlock(hash: BlockHash)
    | RollbackBlock(hash: BlockHash)
    | Broadcast(body: Body)
    | Send(to: PeerId, body: Body)
}
