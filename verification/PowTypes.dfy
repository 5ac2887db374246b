/** What the PoW node answers to the four queries of the client interface. */
module PowTypes {
  import opened Types

  type Hash = seq<Byte>

  /** `hash` is None when the reported string is not hexadecimal. */
  datatype BlockHeader = BlockHeader(hash: Option<Hash>, height: U64, confirmations: int)

  datatype TipStatus = Active | Inactive

  datatype ChainTip = ChainTip(height: U64, branchLen: U64, status: TipStatus)

  /** Answers given during one handler; a missing key or None is a failed call. */
  datatype PowAnswers = PowAnswers(
    tip: Option<BlockHeader>,
    byHash: map<Hash, BlockHeader>,
    byHeight: map<U64, BlockHeader>,
    tips: Option<seq<ChainTip>>)

  /** BlockHeader.IsActive */
  predicate IsActive(b: BlockHeader) {
    b.confirmations > 0
  }
}
