/**
 The consensus node on values: one function per handler, taking the node state, the message and
 the answers of the environment, and giving the new state together with what the handler reports.
 */
module NodeModel {
  import opened Types
  import opened PowTypes
  import opened TxModel

  /** Fixed parameters of a node. */
  datatype Params = Params(
    lib: Library,
    id: PeerID,
    partition: nat,
    shard: nat,
    maxFetch: U64,
    maxReturn: U64,
    queueCapacity: nat,
    confs: map<U64, ShardConf>,
    firstEpoch: U64)

  /** The node has a name, and its configurations are keyed by their epochs, which start at 0. */
  ghost predicate Keyed(p: Params) {
    && p.id != NO_PEER
    && p.firstEpoch == 0
    && forall e :: e in p.confs ==> p.confs[e].epoch == e
  }

  /** There is a first configuration and it has a usable dFG. */
  predicate FirstUsable(p: Params) {
    0 in p.confs && p.confs[0].dFG.Some? && p.confs[0].dFG.value >= 1
  }

  ghost predicate ParamsOk(p: Params) {
    Keyed(p) && FirstUsable(p)
  }

  datatype Status = Initializing | Normal | Recovering

  /** Consensus state, transaction system, block store, replication queue and active configuration of one node. */
  datatype NodeState = NodeState(
    status: Status,
    fuc: Option<Certificate>,
    luc: Option<Certificate>,
    ltr: Option<TechnicalRecord>,
    leader: PeerID,
    pending: Option<Block>,
    lastProposal: Option<Proposal>,
    tx: TxState,
    blocks: map<U64, Block>,
    stored: Option<Block>,
    queue: seq<ReplicationRequest>,
    confEpoch: U64,
    epochEvent: bool,
    loadFailed: bool)

  /** Outcomes that the environment decides while one message is handled. */
  datatype Env = Env(
    pow: PowAnswers,
    writeOk: bool,          // writing a block
    deleteOk: bool,         // deleting a block
    pendingWriteOk: bool,   // writing the pending proposal
    pendingDeleteOk: bool,  // deleting the pending proposal
    pendingReadOk: bool,    // reading the pending proposal at start-up
    lastReadOk: bool,       // reading the last entry at start-up
    encodeOk: bool,         // encoding and hashing the proposed block
    sealOk: bool,           // encoding the certificate for the pending block
    proposalSent: bool,
    requestSent: bool,
    confReadOk: bool)

  /** New state and whether the handler reports success. */
  datatype Outcome = Outcome(node: NodeState, ok: bool)

  /** New state, the certification request that was sent, and the block proposal that was sent. */
  datatype RoundOutcome = RoundOutcome(node: NodeState, request: Option<InputRecord>, proposal: Option<Proposal>)

  // ---- state helpers ----

  function CurrentEpoch(n: NodeState): U64 {
    if n.ltr.Some? then n.ltr.value.epoch
    else if n.luc.Some? then n.luc.value.ir.epoch
    else 0
  }

  function CurrentRound(n: NodeState): U64 {
    if n.ltr.Some? then n.ltr.value.round else Add64(RoundOf(n.luc), 1)
  }

  function CommittedRound(n: NodeState): U64 {
    RoundOf(n.tx.committedUC)
  }

  predicate RecoveryComplete(n: NodeState) {
    CommittedRound(n) == RoundOf(n.luc)
  }

  /** A node that knows a leader knows the technical record that names it and the certificate that binds it. */
  predicate LeaderKnown(n: NodeState) {
    n.leader != NO_PEER ==> n.luc.Some? && n.ltr.Some?
  }

  predicate Healthy(n: NodeState) {
    LeaderKnown(n) && n.tx.dFG >= 1
  }

  // ---- round and recovery switches ----

  function StartNewRound(n: NodeState, env: Env): NodeState {
    n.(pending := None, stored := if env.pendingDeleteOk then None else n.stored)
  }

  function StartRecovery(n: NodeState): NodeState {
    if n.status.Recovering? then n
    else n.(status := Recovering, tx := Revert(n.tx), pending := None)
  }

  /** The ledger replication request of a recovering node; the end wraps like the unsigned sum. */
  function NextRequest(p: Params, n: NodeState): ReplicationRequest {
    var begin := Add64(CommittedRound(n), 1);
    ReplicationRequest(p.partition, p.shard, p.id, begin, Add64(begin, p.maxFetch))
  }

  // ---- certificates ----

  /** Sets the certificate and its technical record, and schedules an epoch change when the configuration lags. */
  function SetLatest(n: NodeState, uc: Certificate, tr: Option<TechnicalRecord>, leader: PeerID): NodeState {
    var updated := n.(luc := Some(uc), ltr := tr, leader := leader);
    updated.(epochEvent := n.epochEvent
                           || CurrentEpoch(n) != CurrentEpoch(updated)
                           || n.confEpoch != CurrentEpoch(updated))
  }

  function UpdateLUC(p: Params, n: NodeState, uc: Certificate, tr: Option<TechnicalRecord>): (o: Outcome)
    ensures Healthy(n) ==> Healthy(o.node)
    ensures o.node == n.(luc := o.node.luc, ltr := o.node.ltr, leader := o.node.leader, epochEvent := o.node.epochEvent)
  {
    if !CertificateValid(p.lib, uc, n.confEpoch) then Outcome(n, false)
    else if n.status.Recovering? && RootRoundOf(n.luc) > uc.rootRound then Outcome(n, true)
    else if n.luc.Some? && !p.lib.consistent(n.luc.value, uc) then Outcome(n, false)
    else if IsDuplicate(uc, n.luc) && n.ltr.Some? then Outcome(n, true)
    else if tr.None? then Outcome(SetLatest(n, uc, None, NO_PEER), true) else
    var leader := p.lib.decodePeer(tr.value.leader);
    if leader.None? then Outcome(n, false)
    else Outcome(SetLatest(n, uc, tr, leader.value), true)
  }

  /** Persists the block, then commits; a failed commit takes the block out of the store again. */
  function FinalizeBlock(n: NodeState, b: Block, uc: Certificate, env: Env): (o: Outcome)
    ensures Healthy(n) ==> Healthy(o.node)
    ensures o.node == n.(tx := o.node.tx, blocks := o.node.blocks)
  {
    var persist := !n.status.Initializing?;
    if persist && !env.writeOk then Outcome(n, false) else
    var written := if persist then n.(blocks := n.blocks[uc.ir.round := b]) else n;
    var committed := Commit(n.tx, uc);
    if committed.Some? then Outcome(written.(tx := committed.value), true)
    else if persist && env.deleteOk then Outcome(n.(blocks := n.blocks - {uc.ir.round}), false)
    else Outcome(written, false)
  }

  /** The part of certificate handling that runs without a pending block proposal. */
  function CertifyWithoutProposal(p: Params, n: NodeState, uc: Certificate, env: Env): (o: Outcome)
    ensures o.ok ==> o.node.status == n.status
    ensures o.node.luc == n.luc
    ensures Healthy(n) ==> Healthy(o.node)
  {
    if p.lib.initial(uc) then Outcome(StartNewRound(n, env), true) else
    var root := StateRoot(n.tx);
    if root.None? || !SameBytes(uc.ir.hash, root.value) || !SameBytes(uc.ir.etHash, Nil)
    then Outcome(StartRecovery(n), false)
    else Outcome(StartNewRound(n, env), true)
  }

  /** The part of certificate handling that compares the certificate with the pending block proposal. */
  function CertifyProposal(n: NodeState, uc: Certificate, env: Env): (o: Outcome)
    requires n.pending.Some?
    ensures o.ok ==> o.node.status == n.status
    ensures o.node.luc == n.luc
    ensures Healthy(n) ==> Healthy(o.node)
  {
    var block := n.pending.value;
    if block.cert.None? || !EqualIR(block.cert.value.ir, uc.ir) then Outcome(StartRecovery(n), false)
    else if !env.sealOk then Outcome(n.(pending := Some(block.(cert := None))), false) else
    var finalized := FinalizeBlock(n, block.(cert := Some(uc)), uc, env);
    if finalized.ok then Outcome(StartNewRound(finalized.node, env), true)
    else Outcome(StartRecovery(finalized.node), false)
  }

  /** What follows the LUC update outside recovery: n is the node before the update, m after it. */
  function ActOnCertificate(p: Params, n: NodeState, m: NodeState, uc: Certificate, env: Env): (o: Outcome)
    ensures o.ok ==> o.node.status == m.status
    ensures o.node.luc == m.luc
    ensures Healthy(m) ==> Healthy(o.node)
  {
    if IsDuplicate(uc, n.luc) then
      Outcome(if n.status.Initializing? then StartNewRound(m, env) else m, true)
    else if IsRepeat(uc, n.luc) then
      Outcome(StartNewRound(m.(tx := Revert(m.tx)), env), true)
    else if !p.lib.successor(uc, m.tx.committedUC) then
      Outcome(StartRecovery(m), false)
    else if m.pending.None? then CertifyWithoutProposal(p, m, uc, env)
    else CertifyProposal(m, uc, env)
  }

  function HandleCertificate(p: Params, n: NodeState, uc: Certificate, tr: Option<TechnicalRecord>, env: Env): (o: Outcome)
    ensures o.ok ==> (o.node.status.Recovering? <==> n.status.Recovering?)
    ensures Healthy(n) ==> Healthy(o.node)
  {
    var updated := UpdateLUC(p, n, uc, tr);
    if !updated.ok then Outcome(updated.node, false)
    else if n.status.Recovering? then Outcome(updated.node, true)
    else ActOnCertificate(p, n, updated.node.(status := Normal), uc, env)
  }

  function HandleCertificationResponse(p: Params, n: NodeState, cr: CertificationResponse, env: Env): (o: Outcome)
    ensures Healthy(n) ==> Healthy(o.node)
  {
    if !ResponseValid(p.lib, cr) || cr.partition != p.partition || cr.shard != p.shard then Outcome(n, false)
    else HandleCertificate(p, n, cr.uc, Some(cr.technical), env)
  }

  // ---- proposals ----

  /** BlockProposal.IsValid against the configuration of an epoch. */
  predicate ProposalValid(p: Params, epoch: U64, prop: Proposal) {
    && prop.partition == p.partition
    && prop.shard == p.shard
    && prop.node != NO_PEER
    && p.lib.validator(epoch, prop.node)
    && prop.uc.Some?
    && p.lib.verify(prop.uc.value, None)
    && TechnicalRecordValid(prop.technical)
    && SameBytes(p.lib.trHash(prop.technical), prop.uc.value.trHash)
    && p.lib.signed(prop)
  }

  /** The input record the node asks the root chain to certify. */
  function ProposedRecord(p: Params, n: NodeState, author: PeerID, root: Slice): InputRecord
    requires n.luc.Some?
  {
    var previous := StateHashOf(n.luc);
    InputRecord(CurrentRound(n), CurrentEpoch(n), previous, root, EMPTY, n.luc.value.sealTimestamp,
      p.lib.blockHash(ProposedHeader(n, author), root, previous), 0, Nil)
  }

  function ProposedHeader(n: NodeState, author: PeerID): Header {
    Header(author, BlockHashOf(n.tx.committedUC))
  }

  /** The block proposal with a certificate that carries the proposed record and no seal yet. */
  function ProposedBlock(p: Params, n: NodeState, author: PeerID, root: Slice): Block
    requires n.luc.Some?
  {
    Block(ProposedHeader(n, author), Some(Certificate(ProposedRecord(p, n, author, root), Nil, 0, 0)))
  }

  function SendCertificationRequest(p: Params, n: NodeState, author: PeerID, root: Slice, env: Env): (o: RoundOutcome)
    requires n.luc.Some?
    ensures o.node == n.(tx := o.node.tx, pending := o.node.pending, stored := o.node.stored)
    ensures Healthy(n) ==> Healthy(o.node)
  {
    if !env.encodeOk then RoundOutcome(n, None, None) else
    var block := ProposedBlock(p, n, author, root);
    if !env.pendingWriteOk then RoundOutcome(n.(tx := Revert(n.tx)), None, None) else
    var m := n.(stored := Some(block), pending := Some(block));
    RoundOutcome(m, if env.requestSent then Some(block.cert.value.ir) else None, None)
  }

  /** The part of proposal handling that runs after the certificate inside the proposal is processed. */
  function FollowProposal(p: Params, n: NodeState, prop: Proposal, env: Env): (o: RoundOutcome)
    requires Healthy(n) && prop.uc.Some?
    ensures o.node == n.(tx := o.node.tx, pending := o.node.pending, stored := o.node.stored)
    ensures Healthy(o.node)
  {
    if n.leader == NO_PEER || prop.node != n.leader then RoundOutcome(n, None, None) else
    var root := StateRoot(n.tx);
    if root.None? then RoundOutcome(n, None, None)
    else if !p.lib.initial(prop.uc.value) && !SameBytes(prop.uc.value.ir.hash, root.value) then RoundOutcome(n, None, None) else
    var verified := FollowerVerify(n.tx, env.pow, prop.root);
    if verified.None? then RoundOutcome(n.(tx := Revert(n.tx)), None, None)
    else SendCertificationRequest(p, n.(tx := verified.value), prop.node, prop.root, env)
  }

  /** A stale certificate is refused, a newer one is handled first. */
  function ProcessProposalCertificate(p: Params, n: NodeState, prop: Proposal, env: Env): (o: Outcome)
    requires prop.uc.Some? && !n.status.Recovering?
    ensures o.ok ==> !o.node.status.Recovering?
    ensures Healthy(n) ==> Healthy(o.node)
  {
    var uc := prop.uc.value;
    if uc.rootRound < RootRoundOf(n.luc) then Outcome(n, false)
    else if uc.rootRound > RootRoundOf(n.luc) then HandleCertificate(p, n, uc, Some(prop.technical), env)
    else Outcome(n, true)
  }

  function HandleValidProposal(p: Params, n: NodeState, prop: Proposal, env: Env): (o: RoundOutcome)
    requires Healthy(n) && prop.uc.Some? && !n.status.Recovering?
    ensures Healthy(o.node)
  {
    var processed := ProcessProposalCertificate(p, n, prop, env);
    if !processed.ok then RoundOutcome(processed.node, None, None)
    else FollowProposal(p, processed.node, prop, env)
  }

  /** None is the nil proposal. */
  function HandleProposal(p: Params, n: NodeState, prop: Option<Proposal>, env: Env): (o: RoundOutcome)
    requires Healthy(n)
    ensures Healthy(o.node)
  {
    if n.status.Recovering? then RoundOutcome(n.(lastProposal := prop), None, None)
    else if prop.None? || !ProposalValid(p, n.confEpoch, prop.value) then RoundOutcome(n, None, None)
    else HandleValidProposal(p, n, prop.value, env)
  }

  function HandleT1Timeout(p: Params, n: NodeState, env: Env): (o: RoundOutcome)
    requires Healthy(n) && p.id != NO_PEER
    ensures o.node == n.(tx := o.node.tx, pending := o.node.pending, stored := o.node.stored)
    ensures Healthy(o.node)
  {
    if n.status.Recovering? || n.leader != p.id then RoundOutcome(n, None, None) else
    var proposed := LeaderPropose(n.tx, env.pow);
    if proposed.None? || n.ltr.None? || !env.proposalSent then RoundOutcome(n.(tx := Revert(n.tx)), None, None) else
    var root := proposed.value.pendingHash;
    var prop := Proposal(p.partition, p.shard, p.id, n.luc, n.ltr.value, root);
    var sent := SendCertificationRequest(p, n.(tx := proposed.value), p.id, root, env);
    if sent.request.Some? then RoundOutcome(sent.node, sent.request, Some(prop))
    else RoundOutcome(sent.node.(tx := Revert(sent.node.tx)), None, Some(prop))
  }

  // ---- recovery ----

  /** The checks of a recovered block that do not involve the transaction system. */
  predicate ExtendsLedger(p: Params, n: NodeState, b: Block, uc: Certificate) {
    && SameBytes(b.header.previousBlockHash, BlockHashOf(n.tx.committedUC))
    && StateRoot(n.tx).Some?
    && (n.tx.committedUC.Some? ==> SameBytes(uc.ir.previousHash, StateRoot(n.tx).value))
  }

  function FinalizeOrRevert(n: NodeState, b: Block, uc: Certificate, env: Env): (o: Outcome)
    ensures Healthy(n) ==> Healthy(o.node)
  {
    var finalized := FinalizeBlock(n, b, uc, env);
    if finalized.ok then finalized
    else Outcome(finalized.node.(tx := Revert(finalized.node.tx)), false)
  }

  /** Verifies the PoW block behind a recovered block and finalizes it, or takes the tentative change back. */
  function ApplyVerified(p: Params, n: NodeState, b: Block, uc: Certificate, env: Env): (o: Outcome)
    ensures o.node == n.(tx := o.node.tx, blocks := o.node.blocks)
    ensures Healthy(n) ==> Healthy(o.node)
  {
    if !ExtendsLedger(p, n, b, uc) then Outcome(n, false) else
    var verified := FollowerVerify(n.tx, env.pow, uc.ir.hash);
    if verified.None? || !SummaryMatches(uc.ir.hash, uc.ir) then Outcome(n.(tx := Revert(n.tx)), false)
    else FinalizeOrRevert(n.(tx := verified.value), b, uc, env)
  }

  function HandleBlock(p: Params, n: NodeState, b: Block, env: Env): (o: Outcome)
    ensures n.status.Recovering? ==> o.node.status.Recovering?
    ensures o.node.lastProposal == n.lastProposal
    ensures Healthy(n) ==> Healthy(o.node)
  {
    if !BlockValid(p.lib, b) then Outcome(n, false) else
    var uc := b.cert.value;
    var updated := UpdateLUC(p, n, uc, None);
    if !updated.ok then Outcome(updated.node, false)
    else if uc.ir.round <= CommittedRound(n) then Outcome(updated.node, true)
    else if !p.lib.successor(uc, n.tx.committedUC) then
      Outcome(if n.status.Initializing? then updated.node else StartRecovery(updated.node), false)
    else ApplyVerified(p, updated.node, b, uc, env)
  }

  /** Applies the blocks in order and stops at the first one that fails. */
  function ApplyBlocks(p: Params, n: NodeState, blocks: seq<Block>, envs: seq<Env>): (o: Outcome)
    requires |envs| == |blocks|
    ensures n.status.Recovering? ==> o.node.status.Recovering?
    ensures o.node.lastProposal == n.lastProposal
    ensures Healthy(n) ==> Healthy(o.node)
    decreases |blocks|
  {
    if blocks == [] then Outcome(n, true) else
    var first := HandleBlock(p, n, blocks[0], envs[0]);
    if !first.ok then first else ApplyBlocks(p, first.node, blocks[1..], envs[1..])
  }

  /** Leaves recovery, starts a round, and gives the last proposal seen meanwhile another try. */
  function FinishRecovery(p: Params, n: NodeState, env: Env, retry: Env): (o: NodeState)
    requires Healthy(n)
    ensures Healthy(o)
  {
    var m := StartNewRound(n.(status := Normal), env);
    if m.lastProposal.None? then m
    else HandleProposal(p, m, m.lastProposal, retry).node.(lastProposal := None)
  }

  /** The environment answers for each block, for the new round, and for the retried proposal. */
  function HandleReplicationResponse(p: Params, n: NodeState, resp: ReplicationResponse, envs: seq<Env>, env: Env, retry: Env): (o: NodeState)
    requires Healthy(n) && (resp.blocks.Some? ==> |envs| == |resp.blocks.value|)
    ensures Healthy(o)
  {
    if (resp.status.Ok? && resp.blocks.None?) || !n.status.Recovering? then n
    else if !resp.status.Ok? then (if RecoveryComplete(n) then n.(status := Normal) else n)
    else if resp.first <= CommittedRound(n) then n else
    var applied := ApplyBlocks(p, n, resp.blocks.value, envs);
    if !applied.ok || !RecoveryComplete(applied.node) then applied.node
    else FinishRecovery(p, applied.node, env, retry)
  }

  // ---- serving replication requests ----

  /** LedgerReplicationRequest.IsValid */
  predicate RequestValid(r: ReplicationRequest) {
    r.partition != 0 && r.node != NO_PEER && (r.end == 0 || r.begin <= r.end)
  }

  /** What becomes of a request: None when it is dropped as invalid, Ok when it is queued for a worker. */
  function RequestStatus(p: Params, n: NodeState, r: ReplicationRequest): Option<ReplicationStatus> {
    if !RequestValid(r) then None
    else if r.partition != p.partition || r.shard != p.shard then Some(WrongShard)
    else if r.begin <= RoundOf(n.fuc) || CommittedRound(n) < r.begin then Some(BlocksNotFound)
    else if |n.queue| >= p.queueCapacity then Some(Busy)
    else Some(Ok)
  }

  function HandleReplicationRequest(p: Params, n: NodeState, r: ReplicationRequest): NodeState {
    if RequestStatus(p, n, r) == Some(Ok) then n.(queue := n.queue + [r]) else n
  }

  /** The scan stops after this many blocks, the last of them at this round. */
  predicate LimitReached(count: nat, round: U64, r: ReplicationRequest, maxReturn: U64) {
    count >= maxReturn || (round >= r.end && r.end > 0)
  }

  /** Stored rounds from the requested one on, in order, none of them but the last reaching a limit. */
  ghost predicate ReplyPart(blocks: map<U64, Block>, r: ReplicationRequest, maxReturn: U64, rounds: seq<U64>) {
    && (forall i :: 0 <= i < |rounds| ==> rounds[i] in blocks && r.begin <= rounds[i])
    && (forall i, j :: 0 <= i < j < |rounds| ==> rounds[i] < rounds[j])
    && (forall i :: 0 <= i < |rounds| - 1 ==> !LimitReached(i + 1, rounds[i], r, maxReturn))
  }

  /**
   The rounds of a reply: the shortest run of stored rounds from the requested one, in order and
   without omissions, that reaches a limit, or all of them when no limit is reached.
   */
  ghost predicate IsReply(blocks: map<U64, Block>, r: ReplicationRequest, maxReturn: U64, rounds: seq<U64>) {
    && ReplyPart(blocks, r, maxReturn, rounds)
    && (forall k: U64 :: k in blocks && r.begin <= k ==>
          || k in rounds
          || (rounds != [] && rounds[|rounds| - 1] < k && LimitReached(|rounds|, rounds[|rounds| - 1], r, maxReturn)))
  }

  // ---- epochs ----

  function HandleEpochChange(p: Params, n: NodeState, env: Env): NodeState {
    var epoch := CurrentEpoch(n);
    var m := n.(epochEvent := false);
    if !env.confReadOk || epoch !in p.confs then m.(loadFailed := true) else
    var tx := UpdateConfig(n.tx, p.confs[epoch]);
    m.(confEpoch := p.confs[epoch].epoch, tx := if tx.Some? then tx.value else n.tx, loadFailed := false)
  }

  // ---- start-up ----

  ghost function LastRound(blocks: map<U64, Block>): (r: U64)
    requires blocks != map[]
    ensures r in blocks && forall k :: k in blocks ==> k <= r
  {
    LastOf(blocks.Keys)
  }

  ghost function LastOf(rounds: set<U64>): (r: U64)
    requires rounds != {}
    ensures r in rounds && forall k :: k in rounds ==> k <= r
    decreases |rounds|
  {
    var x :| x in rounds;
    if rounds == {x} then x else
    var rest := rounds - {x};
    assert rounds == rest + {x};
    var y := LastOf(rest);
    if y < x then x else y
  }

  /** What the reverse iterator finds: the block of the last round, or else the stored proposal. */
  ghost function LastEntry(blocks: map<U64, Block>, stored: Option<Block>): Option<Block> {
    if blocks != map[] then Some(blocks[LastRound(blocks)]) else stored
  }

  /** The transaction system restored from the last entry; None when start-up fails. */
  ghost function RestoreTx(p: Params, started: TxState, entry: Option<Block>, env: Env): (tx: Option<TxState>)
    ensures tx.Some? && entry.Some? ==> entry.value.cert.Some? && entry.value.cert.value.ir.epoch in p.confs
    ensures tx.Some? && started.dFG >= 1 ==> tx.value.dFG >= 1
  {
    if entry.None? then Some(started)
    else if !env.lastReadOk || entry.value.cert.None? then None else
    var uc := entry.value.cert.value;
    if !env.confReadOk || uc.ir.epoch !in p.confs then None else
    var configured := UpdateConfig(started, p.confs[uc.ir.epoch]);
    if configured.None? then None else RestoreState(configured.value, env.pow, uc)
  }

  /** The stored proposal is taken up again when it extends the restored state and still verifies. */
  function RestoreProposal(n: NodeState, env: Env): (o: NodeState)
    ensures o == n.(tx := o.tx, pending := o.pending)
    ensures Healthy(n) ==> Healthy(o)
  {
    if !env.pendingReadOk || n.stored.None? || n.stored.value.cert.None? then n else
    var ir := n.stored.value.cert.value.ir;
    if !SameBytes(StateHashOf(n.tx.committedUC), ir.previousHash) then n else
    var verified := FollowerVerify(n.tx, env.pow, ir.hash);
    if verified.None? || !SummaryMatches(ir.hash, ir) then n.(tx := Revert(n.tx))
    else n.(tx := verified.value, pending := n.stored)
  }

  /** The node that starts on the given store with a new transaction system. */
  ghost function InitState(p: Params, blocks: map<U64, Block>, stored: Option<Block>, env: Env): (n: Option<NodeState>)
    requires ParamsOk(p)
    ensures n.Some? ==> Healthy(n.value)
  {
    var entry := LastEntry(blocks, stored);
    var tx := RestoreTx(p, GenesisState(p.confs[0].dFG.value), entry, env);
    if tx.None? then None else
    var uc := tx.value.committedUC;
    var epoch := if entry.Some? then p.confs[entry.value.cert.value.ir.epoch].epoch else p.firstEpoch;
    Some(RestoreProposal(
      NodeState(Initializing, uc, uc, None, NO_PEER, None, None, tx.value, blocks, stored, [], epoch, false, false), env))
  }
}
