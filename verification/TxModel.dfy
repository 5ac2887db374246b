/**
 The finality-gadget transaction system on values: its state is one certified PoW block
 and at most one pending block. None as a result is an error that leaves the state as it was.
 */
module TxModel {
  import opened Types
  import opened PowTypes

  datatype TxState = TxState(
    dFG: U64,
    committedHash: Slice,
    committedHeight: U64,
    pendingHash: Slice,
    pendingHeight: U64,
    committedUC: Option<Certificate>)

  function GenesisState(dFG: U64): TxState {
    TxState(dFG, Nil, 0, Nil, 0, None)
  }

  /** StateSummary: the committed root, or None while there are uncommitted changes. */
  function StateRoot(t: TxState): Option<Slice> {
    if t.pendingHash != Nil then None else Some(t.committedHash)
  }

  /** Summary.EqualsIR for a summary with the given root and the constant remaining fields. */
  predicate SummaryMatches(root: Slice, ir: InputRecord) {
    && SameBytes(ir.hash, root)
    && SameBytes(ir.summaryValue, EMPTY)
    && ir.sumOfEarnedFees == 0
    && SameBytes(ir.etHash, Nil)
  }

  /** Height of the last certified PoW block, 0 before the first one, None when the PoW node does not know it. */
  function FinalizedHeight(t: TxState, pow: PowAnswers): Option<U64> {
    if t.committedHash == Nil then Some(0)
    else if Content(t.committedHash) in pow.byHash then Some(pow.byHash[Content(t.committedHash)].height)
    else None
  }

  /** The tip makes the fork check fail for the candidate height. */
  predicate Competes(tip: ChainTip, candidate: U64) {
    && tip.status.Inactive?
    && (|| tip.branchLen > tip.height
        || (tip.height >= candidate && tip.height - tip.branchLen < candidate))
  }

  predicate ForkFree(tips: seq<ChainTip>, candidate: U64) {
    forall i :: 0 <= i < |tips| ==> !Competes(tips[i], candidate)
  }

  /** The height the leader considers: depth dFG below the tip, when that is above the last certified block. */
  function CandidateHeight(t: TxState, tip: U64, finalized: U64): (c: Option<U64>)
    requires t.dFG >= 1
    ensures c.Some? <==> finalized + t.dFG <= tip
    ensures c.Some? ==> c.value + t.dFG == tip + 1 && c.value > finalized
  {
    if tip <= finalized then None
    else if tip - finalized < t.dFG - 1 then None
    else
      var candidate := tip - (t.dFG - 1);
      if candidate <= finalized then None else Some(candidate)
  }

  /** State after a successful LeaderPropose; the proposed root is its pending hash. */
  function LeaderPropose(t: TxState, pow: PowAnswers): Option<TxState>
    requires t.dFG >= 1
  {
    if pow.tip.None? then None else
    var finalized := FinalizedHeight(t, pow);
    if finalized.None? then None else
    var candidate := CandidateHeight(t, pow.tip.value.height, finalized.value);
    if candidate.None? then None
    else if candidate.value !in pow.byHeight then None
    else if pow.tips.None? then None
    else if !ForkFree(pow.tips.value, candidate.value) then None else
    var block := pow.byHeight[candidate.value];
    if block.hash.None? then None
    else Some(t.(pendingHash := Bytes(block.hash.value), pendingHeight := block.height))
  }

  /** The PoW node reports the root on the active chain with at least dFG confirmations. */
  predicate Confirmed(dFG: U64, pow: PowAnswers, root: Slice) {
    && Content(root) in pow.byHash
    && pow.tip.Some?
    && var block := pow.byHash[Content(root)];
       && IsActive(block)
       && block.height + dFG <= pow.tip.value.height + 1
  }

  /** State after a successful FollowerVerify; the verified root is its pending hash. */
  function FollowerVerify(t: TxState, pow: PowAnswers, root: Slice): Option<TxState> {
    if SameBytes(root, t.committedHash) then
      Some(t.(pendingHash := root, pendingHeight := t.committedHeight))
    else if Confirmed(t.dFG, pow, root) then
      Some(t.(pendingHash := root, pendingHeight := pow.byHash[Content(root)].height))
    else
      None
  }

  /** State after a successful RestoreState; the height survives when the restored hash is empty. */
  function RestoreState(t: TxState, pow: PowAnswers, uc: Certificate): Option<TxState> {
    var hash := Content(uc.ir.hash);
    if hash != [] && hash !in pow.byHash then None else
    Some(TxState(t.dFG, uc.ir.hash, if hash == [] then t.committedHeight else pow.byHash[hash].height, Nil, 0, Some(uc)))
  }

  function Revert(t: TxState): TxState {
    t.(pendingHash := Nil, pendingHeight := 0)
  }

  /** State after a successful Commit. */
  function Commit(t: TxState, uc: Certificate): Option<TxState> {
    if !SameBytes(t.pendingHash, uc.ir.hash) then None
    else Some(TxState(t.dFG, t.pendingHash, t.pendingHeight, Nil, 0, Some(uc)))
  }

  function UpdateConfig(t: TxState, conf: ShardConf): Option<TxState> {
    if conf.dFG.None? || conf.dFG.value == 0 then None
    else Some(t.(dFG := conf.dFG.value))
  }
}
