/** Block files as they travel between peers, and their verification. */
module Blocks {
  import opened Types

  /** The digest of a block's transactions and predecessor. */
  type Hasher = (seq<SignedTx>, BlockHash) -> BlockHash

  /** The bytes of a block payload: none, undecodable, or a decodable block file. */
  datatype Payload = Empty | Garbled | Encoded(block: BlockFile)

  datatype ReplicatedBlock = ReplicatedBlock(entry: Entry, payload: Payload, signed: bool)

  predicate VerifyBlock(hasher: Hasher, b: BlockFile) {
    hasher(b.transactions, b.previousHash) == b.hash
  }

  function VerifyBlockVec(hasher: Hasher, hash: BlockHash, payload: Payload, signed: bool): Result<BlockFile> {
    if !signed then Err("SignatureError")
    else if !payload.Encoded? then Err("DeserializationError")
    else if hash != payload.block.hash || !VerifyBlock(hasher, payload.block) then Err("InvalidBlockHash")
    else Ok(payload.block)
  }

  function CreateBlock(hasher: Hasher, transactions: seq<SignedTx>, previousHash: BlockHash, index: nat): (b: BlockFile)
    ensures VerifyBlock(hasher, b)
  {
    BlockFile(index, hasher(transactions, previousHash), previousHash, transactions)
  }

  /** A replicated entry the receiver accepts: its payload signed, and either empty for an entry
      without a block or a block file of the entry's hash, which is the digest of its contents. */
  predicate Sendable(hasher: Hasher, r: ReplicatedBlock) {
    && r.signed
    && (if r.entry.hash == EMPTY_HASH then r.payload.Empty?
        else r.payload.Encoded? && r.payload.block.hash == r.entry.hash
             && hasher(r.payload.block.transactions, r.payload.block.previousHash) == r.entry.hash)
  }
}
