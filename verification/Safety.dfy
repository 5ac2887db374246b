/** The invariant of a node started from genesis, kept by every handler. */
module Safety {
  import opened Types
  import opened PowTypes
  import opened TxModel
  import opened NodeModel
  import opened RootChain

  /**
   Library, root chain, and which optional parts of the invariant are asked for: `exact`, that the
   store holds nothing beyond the committed block; and `heights`, that recorded PoW heights are the ones the PoW node gives to these hashes.
   */
  datatype World = World(lib: Library, rc: RootChain, exact: bool, heights: Option<map<Hash, U64>>)

  /** Issuer and library behave. */
  ghost predicate Trust(w: World) {
    WellFormed(w.rc) && Sound(w.lib, w.rc)
  }

  function KnownHeight(heights: map<Hash, U64>, hash: Slice): U64 {
    if Content(hash) != [] && Content(hash) in heights then heights[Content(hash)] else 0
  }

  /** The PoW node gives every hash its one height. */
  ghost predicate PowAgrees(heights: map<Hash, U64>, pow: PowAnswers) {
    && (forall h :: h in pow.byHash ==> pow.byHash[h].height == KnownHeight(heights, Bytes(h)))
    && (forall k :: k in pow.byHeight && pow.byHeight[k].hash.Some? ==>
          pow.byHeight[k].height == KnownHeight(heights, Bytes(pow.byHeight[k].hash.value)))
  }

  /** Answers of the environment under which the optional parts are kept: deletes succeed, heights agree. */
  ghost predicate EnvOk(w: World, env: Env) {
    && (w.exact ==> env.deleteOk)
    && (w.heights.Some? ==> PowAgrees(w.heights.value, env.pow))
  }

  // ---- parts of the invariant ----

  ghost predicate HeightsTrue(w: World, tx: TxState) {
    w.heights.Some? ==>
      && tx.committedHeight == KnownHeight(w.heights.value, tx.committedHash)
      && tx.pendingHeight == KnownHeight(w.heights.value, tx.pendingHash)
  }

  /** The committed state is the one certified by record k. */
  ghost predicate Committed(w: World, tx: TxState, k: nat) {
    && At(w.rc, tx.committedUC, k)
    && SameBytes(tx.committedHash, StateHashOf(tx.committedUC))
  }

  /** The hash that the header of the block for record i must point back to. */
  ghost function LinkHash(rc: RootChain, i: nat): Slice
    requires 1 <= i <= |rc.records|
  {
    if i == 1 then Nil else rc.records[i - 1].blockHash
  }

  /** The state hash that record i must extend. */
  ghost function PreviousState(rc: RootChain, i: nat): Slice
    requires 1 <= i <= |rc.records|
  {
    if i == 1 then Nil else rc.records[i - 1].hash
  }

  /** The summary fields that the finality gadget does not use are empty. */
  ghost predicate Plain(ir: InputRecord) {
    Content(ir.summaryValue) == [] && ir.sumOfEarnedFees == 0 && Content(ir.etHash) == []
  }

  /** The block carries an issued certificate for record i, hashes to what was certified, and has a plain summary. */
  ghost predicate Certifies(w: World, b: Block, i: nat) {
    && 1 <= i < |w.rc.records|
    && BlockValid(w.lib, b)
    && Issued(w.rc, b.cert.value)
    && b.cert.value.ir == w.rc.records[i]
    && Plain(w.rc.records[i])
    && SameBytes(w.rc.records[i].previousHash, PreviousState(w.rc, i))
  }

  /** The store holds a block that certifies record i. */
  ghost predicate Holds(w: World, blocks: map<U64, Block>, i: nat) {
    && 1 <= i < |w.rc.records|
    && RecordRound(w.rc, i) in blocks
    && Certifies(w, blocks[RecordRound(w.rc, i)], i)
  }

  /** Rounds of the records 1..k, and of record k+1 if there is one. */
  ghost function RoundsUpTo(rc: RootChain, k: nat): set<U64> {
    (if k == 0 then {} else RoundsUpTo(rc, k - 1)) + (if k + 1 < |rc.records| then {RecordRound(rc, k + 1)} else {})
  }

  /** The store holds a block for each of the records 1..k, and besides them at most one for record k+1. */
  ghost predicate Stored(w: World, blocks: map<U64, Block>, k: nat) {
    && k < |w.rc.records|
    && (forall i: nat {:trigger Holds(w, blocks, i)} :: 1 <= i <= k ==> Holds(w, blocks, i))
    && (k + 1 < |w.rc.records| && RecordRound(w.rc, k + 1) in blocks ==> !w.exact && Holds(w, blocks, k + 1))
    && blocks.Keys <= RoundsUpTo(w.rc, k)
  }

  /** The last committed block carries the committed certificate. */
  ghost predicate LastStored(blocks: map<U64, Block>, uc: Option<Certificate>) {
    uc.Some? ==> RoundOf(uc) in blocks && blocks[RoundOf(uc)].cert == uc
  }

  /** Transaction system and block store stand at record k. */
  ghost predicate Ledger(w: World, tx: TxState, blocks: map<U64, Block>, k: nat) {
    && Committed(w, tx, k)
    && Stored(w, blocks, k)
    && LastStored(blocks, tx.committedUC)
  }

  /** The latest certificate is issued and not behind the committed one. */
  ghost predicate Latest(w: World, n: NodeState) {
    && (n.luc.Some? ==> Issued(w.rc, n.luc.value))
    && CommittedRound(n) <= RoundOf(n.luc)
    && RootRoundOf(n.tx.committedUC) <= RootRoundOf(n.luc)
  }

  /** Latest certificate, technical record and leader belong together. */
  ghost predicate Bound(lib: Library, n: NodeState) {
    || (n.ltr.None? && n.leader == NO_PEER)
    || (&& n.ltr.Some? && n.luc.Some?
        && TechnicalRecordValid(n.ltr.value)
        && SameBytes(lib.trHash(n.ltr.value), n.luc.value.trHash)
        && lib.decodePeer(n.ltr.value.leader) == Some(n.leader))
  }

  /** A block proposal the node built: not certified yet, for a round after the initial one. */
  ghost predicate Proposed(lib: Library, b: Block) {
    && BlockValid(lib, b)
    && b.cert.value.ir.round >= 1
    && b.cert.value.rootRound == 0
    && Plain(b.cert.value.ir)
  }

  ghost predicate ProposalsOk(w: World, n: NodeState) {
    && (n.pending.Some? && n.pending.value.cert.Some? ==> Proposed(w.lib, n.pending.value))
    && (n.stored.Some? ==> Proposed(w.lib, n.stored.value))
  }

  /** Everything the node promises to serve: blocks after the first certificate, and every queued request. */
  ghost predicate Serving(w: World, n: NodeState) {
    && (n.fuc.Some? ==> Issued(w.rc, n.fuc.value))
    && RoundOf(n.fuc) <= CommittedRound(n)
    && forall r :: r in n.queue ==> RoundOf(n.fuc) < r.begin <= CommittedRound(n)
  }

  /** The active configuration is that of the current epoch, unless a change is scheduled or the last load failed. */
  ghost predicate EpochTracked(n: NodeState) {
    n.confEpoch == CurrentEpoch(n) || n.epochEvent || n.loadFailed
  }

  /** All of the invariant but what a recovering node suspends while it applies a block. */
  ghost predicate Core(w: World, n: NodeState, k: nat) {
    && Healthy(n)
    && HeightsTrue(w, n.tx)
    && Ledger(w, n.tx, n.blocks, k)
    && Latest(w, n)
    && Bound(w.lib, n)
    && ProposalsOk(w, n)
    && Serving(w, n)
    && EpochTracked(n)
  }

  /** A recovering node has no pending proposal and no uncommitted state. */
  ghost predicate Quiet(n: NodeState) {
    n.status.Recovering? ==> n.pending.None? && n.tx.pendingHash == Nil
  }

  ghost predicate Inv(w: World, n: NodeState, k: nat) {
    Core(w, n, k) && Quiet(n)
  }

  // ---- changes that keep most of the state ----

  lemma StartNewRoundKeeps(w: World, n: NodeState, k: nat, env: Env)
    requires Core(w, n, k) && (n.status.Recovering? ==> n.tx.pendingHash == Nil)
    ensures Inv(w, StartNewRound(n, env), k)
  {
  }

  lemma StartRecoveryKeeps(w: World, n: NodeState, k: nat)
    requires Inv(w, n, k)
    ensures Inv(w, StartRecovery(n), k)
  {
  }

  lemma SetStatusKeeps(w: World, n: NodeState, k: nat, status: Status)
    requires Core(w, n, k)
    ensures Core(w, n.(status := status), k)
  {
  }

  /** Tentative changes of the transaction system do not touch the ledger. */
  lemma TentativeKeeps(w: World, n: NodeState, k: nat, tx: TxState)
    requires Core(w, n, k) && tx == n.tx.(pendingHash := tx.pendingHash, pendingHeight := tx.pendingHeight) && HeightsTrue(w, tx)
    ensures Core(w, n.(tx := tx), k)
  {
  }

  /** A verified or proposed PoW block becomes pending with its own height. */
  lemma PendingHeightTrue(w: World, tx: TxState, env: Env, root: Slice)
    requires HeightsTrue(w, tx) && EnvOk(w, env) && tx.dFG >= 1
    ensures HeightsTrue(w, Revert(tx))
    ensures FollowerVerify(tx, env.pow, root).Some? ==> HeightsTrue(w, FollowerVerify(tx, env.pow, root).value)
    ensures LeaderPropose(tx, env.pow).Some? ==> HeightsTrue(w, LeaderPropose(tx, env.pow).value)
  {
    if w.heights.Some? {
      assert KnownHeight(w.heights.value, Bytes(Content(root))) == KnownHeight(w.heights.value, root);
      assert SameBytes(root, tx.committedHash) ==> KnownHeight(w.heights.value, root) == KnownHeight(w.heights.value, tx.committedHash);
    }
  }

  lemma DropPendingKeeps(w: World, n: NodeState, k: nat)
    requires Core(w, n, k)
    ensures Core(w, n.(pending := None), k)
  {
  }

  // ---- the latest certificate ----

  /** The technical record that comes with a certificate was checked by the receiver of the message. */
  ghost predicate Attached(lib: Library, uc: Certificate, tr: Option<TechnicalRecord>) {
    tr.Some? ==> TechnicalRecordValid(tr.value) && SameBytes(lib.trHash(tr.value), uc.trHash)
  }

  /** The latest certificate never moves to an older root-chain round. */
  lemma UpdateLUCAdvances(w: World, p: Params, n: NodeState, uc: Certificate, tr: Option<TechnicalRecord>)
    requires Trust(w) && p.lib == w.lib && Latest(w, n)
    ensures var o := UpdateLUC(p, n, uc, tr);
            && Latest(w, o.node)
            && RootRoundOf(n.luc) <= RootRoundOf(o.node.luc)
            && RoundOf(n.luc) <= RoundOf(o.node.luc)
            && (o.ok ==>
                  && Issued(w.rc, uc)
                  && uc.ir.round <= RoundOf(o.node.luc)
                  && uc.rootRound <= RootRoundOf(o.node.luc)
                  && (!n.status.Recovering? ==> o.node.luc == Some(uc)))
  {
    if CertificateValid(p.lib, uc, n.confEpoch) {
      if n.luc.Some? {
        if uc.rootRound <= n.luc.value.rootRound {
          IssuedInOrder(w.rc, uc, n.luc.value);
        }
        if n.luc.value.rootRound <= uc.rootRound {
          IssuedInOrder(w.rc, n.luc.value, uc);
        }
      }
    }
  }

  lemma UpdateLUCBinds(p: Params, n: NodeState, uc: Certificate, tr: Option<TechnicalRecord>)
    requires Bound(p.lib, n) && Attached(p.lib, uc, tr)
    ensures Bound(p.lib, UpdateLUC(p, n, uc, tr).node)
  {
  }

  lemma UpdateLUCTracksEpoch(p: Params, n: NodeState, uc: Certificate, tr: Option<TechnicalRecord>)
    requires EpochTracked(n)
    ensures EpochTracked(UpdateLUC(p, n, uc, tr).node)
  {
  }

  lemma UpdateLUCKeeps(w: World, p: Params, n: NodeState, k: nat, uc: Certificate, tr: Option<TechnicalRecord>)
    requires Trust(w) && p.lib == w.lib && Core(w, n, k) && Attached(w.lib, uc, tr)
    ensures Core(w, UpdateLUC(p, n, uc, tr).node, k)
  {
    UpdateLUCAdvances(w, p, n, uc, tr);
    UpdateLUCBinds(p, n, uc, tr);
    UpdateLUCTracksEpoch(p, n, uc, tr);
  }

  // ---- the ledger ----

  lemma {:induction false} RoundsAreRecords(rc: RootChain, k: nat, r: U64) returns (i: nat)
    requires Increasing(rc) && r in RoundsUpTo(rc, k)
    ensures 1 <= i <= k + 1 && i < |rc.records| && RecordRound(rc, i) == r
  {
    if k + 1 < |rc.records| && r == RecordRound(rc, k + 1) {
      i := k + 1;
    } else {
      i := RoundsAreRecords(rc, k - 1, r);
    }
  }

  /** Adding or replacing the block of record k+1 keeps the store in shape. */
  lemma StoreNext(w: World, blocks: map<U64, Block>, k: nat, b: Block)
    requires Increasing(w.rc) && Stored(w, blocks, k) && Certifies(w, b, k + 1)
    ensures !w.exact ==> Stored(w, blocks[RecordRound(w.rc, k + 1) := b], k)
    ensures Stored(w, blocks[RecordRound(w.rc, k + 1) := b], k + 1)
  {
    var after := blocks[RecordRound(w.rc, k + 1) := b];
    assert Holds(w, after, k + 1);
    forall i: nat | 1 <= i <= k
      ensures Holds(w, after, i)
    {
      assert Holds(w, blocks, i);
    }
    if k + 2 < |w.rc.records| && RecordRound(w.rc, k + 2) in after {
      var i := RoundsAreRecords(w.rc, k, RecordRound(w.rc, k + 2));
    }
  }

  lemma DropNext(w: World, blocks: map<U64, Block>, k: nat)
    requires Increasing(w.rc) && Stored(w, blocks, k) && k + 1 < |w.rc.records|
    ensures Stored(w, blocks - {RecordRound(w.rc, k + 1)}, k)
  {
    var after := blocks - {RecordRound(w.rc, k + 1)};
    forall i: nat | 1 <= i <= k
      ensures Holds(w, after, i)
    {
      assert Holds(w, blocks, i);
    }
  }

  /** Writing or deleting the block of record k+1 leaves the ledger at record k. */
  lemma ChangeNextKeeps(w: World, tx: TxState, blocks: map<U64, Block>, k: nat, b: Block)
    requires Increasing(w.rc) && Ledger(w, tx, blocks, k) && Certifies(w, b, k + 1)
    ensures !w.exact ==> Ledger(w, tx, blocks[RecordRound(w.rc, k + 1) := b], k)
    ensures Ledger(w, tx, blocks - {RecordRound(w.rc, k + 1)}, k)
  {
    StoreNext(w, blocks, k, b);
    DropNext(w, blocks, k);
    assert RecordRound(w.rc, k) < RecordRound(w.rc, k + 1);
    assert tx.committedUC.Some? ==> RoundOf(tx.committedUC) == RecordRound(w.rc, k);
  }

  /** Committing the certificate of record k+1, with its block written, moves the ledger to record k+1. */
  lemma CommitNextKeeps(w: World, tx: TxState, blocks: map<U64, Block>, k: nat, b: Block, uc: Certificate)
    requires Increasing(w.rc) && Ledger(w, tx, blocks, k)
    requires Certifies(w, b, k + 1) && b.cert == Some(uc)
    requires Commit(tx, uc).Some?
    ensures Ledger(w, Commit(tx, uc).value, blocks[RecordRound(w.rc, k + 1) := b], k + 1)
    ensures RoundOf(tx.committedUC) < uc.ir.round == RecordRound(w.rc, k + 1)
  {
    StoreNext(w, blocks, k, b);
    assert RecordRound(w.rc, k) < RecordRound(w.rc, k + 1);
    assert tx.committedUC.Some? ==> RoundOf(tx.committedUC) == RecordRound(w.rc, k);
  }

  /** Finalizing the block of the next record moves the node to that record, or leaves it where it was. */
  lemma FinalizeKeeps(w: World, n: NodeState, k: nat, b: Block, uc: Certificate, env: Env)
    requires Increasing(w.rc) && Core(w, n, k) && !n.status.Initializing? && n.pending.None? && EnvOk(w, env)
    requires Certifies(w, b, k + 1) && b.cert == Some(uc)
    requires uc.ir.round <= RoundOf(n.luc) && uc.rootRound <= RootRoundOf(n.luc)
    ensures var o := FinalizeBlock(n, b, uc, env);
            Core(w, o.node, if o.ok then k + 1 else k)
  {
    var round := RecordRound(w.rc, k + 1);
    assert uc.ir.round == round;
    if env.writeOk && Commit(n.tx, uc).Some? {
      CommitNextKeeps(w, n.tx, n.blocks, k, b, uc);
      MoveKeeps(w, n, k, Commit(n.tx, uc).value, n.blocks[round := b], k + 1);
    } else if env.writeOk {
      ChangeNextKeeps(w, n.tx, n.blocks, k, b);
      if env.deleteOk {
        MoveKeeps(w, n, k, n.tx, n.blocks - {round}, k);
      } else {
        MoveKeeps(w, n, k, n.tx, n.blocks[round := b], k);
      }
    }
  }

  /** A ledger that moves on to no later record than the latest certificate keeps the rest of the state in shape. */
  lemma MoveKeeps(w: World, n: NodeState, k: nat, tx: TxState, blocks: map<U64, Block>, k': nat)
    requires Core(w, n, k) && n.pending.None? && Ledger(w, tx, blocks, k') && HeightsTrue(w, tx) && tx.dFG >= 1
    requires RoundOf(n.tx.committedUC) <= RoundOf(tx.committedUC) <= RoundOf(n.luc)
    requires RootRoundOf(tx.committedUC) <= RootRoundOf(n.luc)
    ensures Core(w, n.(tx := tx, blocks := blocks), k')
  {
  }

  // ---- certificates ----

  /** A certificate that follows the committed one and matches a proposal of this node certifies the next record with that proposal's block. */
  lemma ProposalBecomesNextBlock(w: World, tx: TxState, k: nat, block: Block, uc: Certificate)
    requires Trust(w) && Committed(w, tx, k) && Proposed(w.lib, block)
    requires Issued(w.rc, uc) && w.lib.successor(uc, tx.committedUC) && EqualIR(block.cert.value.ir, uc.ir)
    ensures Certifies(w, block.(cert := Some(uc)), k + 1)
  {
    var ir := block.cert.value.ir;
    assert uc.ir == w.rc.records[k + 1];
    assert SameBytes(w.lib.blockHash(block.header, ir.hash, ir.previousHash), w.lib.blockHash(block.header, uc.ir.hash, uc.ir.previousHash));
  }

  lemma CertifyIsFinalize(n: NodeState, uc: Certificate, env: Env)
    requires n.status.Normal? && n.pending.Some? && n.pending.value.cert.Some? && EqualIR(n.pending.value.cert.value.ir, uc.ir) && env.sealOk
    ensures var finalized := FinalizeBlock(n.(pending := None), n.pending.value.(cert := Some(uc)), uc, env);
            CertifyProposal(n, uc, env).node == if finalized.ok then StartNewRound(finalized.node, env) else StartRecovery(finalized.node)
  {
  }

  /** The outcome of comparing the pending proposal with a certificate that, if they match, certifies the next record. */
  lemma MatchProposalKeeps(w: World, n: NodeState, k: nat, uc: Certificate, env: Env) returns (k': nat)
    requires Increasing(w.rc) && Core(w, n, k) && n.status.Normal? && n.pending.Some? && n.luc == Some(uc) && EnvOk(w, env)
    requires n.pending.value.cert.Some? && EqualIR(n.pending.value.cert.value.ir, uc.ir) ==> Certifies(w, n.pending.value.(cert := Some(uc)), k + 1)
    ensures k <= k' <= k + 1 && Inv(w, CertifyProposal(n, uc, env).node, k')
    ensures k' == k ==> CertifyProposal(n, uc, env).node.tx.committedUC == n.tx.committedUC
  {
    var certified := n.pending.value.(cert := Some(uc));
    k' := k;
    if n.pending.value.cert.None? || !EqualIR(n.pending.value.cert.value.ir, uc.ir) {
      StartRecoveryKeeps(w, n, k);
    } else if env.sealOk {
      k' := SealedKeeps(w, n, k, certified, uc, env);
      CertifyIsFinalize(n, uc, env);
    } else {
      UnsealedKeeps(w, n, k, n.pending.value.(cert := None));
    }
  }

  lemma SealedKeeps(w: World, n: NodeState, k: nat, certified: Block, uc: Certificate, env: Env) returns (k': nat)
    requires Increasing(w.rc) && Core(w, n, k) && n.status.Normal? && n.luc == Some(uc) && EnvOk(w, env)
    requires certified.cert == Some(uc) && Certifies(w, certified, k + 1)
    ensures var finalized := FinalizeBlock(n.(pending := None), certified, uc, env);
            var m := if finalized.ok then StartNewRound(finalized.node, env) else StartRecovery(finalized.node);
            k <= k' <= k + 1 && Inv(w, m, k') && (k' == k ==> m.tx.committedUC == n.tx.committedUC)
  {
    k' := k;
    DropPendingKeeps(w, n, k);
    FinalizeKeeps(w, n.(pending := None), k, certified, uc, env);
    var finalized := FinalizeBlock(n.(pending := None), certified, uc, env);
    if finalized.ok {
      k' := k + 1;
      StartNewRoundKeeps(w, finalized.node, k', env);
    } else {
      StartRecoveryKeeps(w, finalized.node, k');
    }
  }

  lemma UnsealedKeeps(w: World, n: NodeState, k: nat, b: Block)
    requires Core(w, n, k) && n.status.Normal? && b.cert.None?
    ensures Inv(w, n.(pending := Some(b)), k)
  {
  }

  lemma CertifyProposalKeeps(w: World, n: NodeState, k: nat, uc: Certificate, env: Env) returns (k': nat)
    requires Trust(w) && Core(w, n, k) && n.status.Normal? && n.pending.Some? && EnvOk(w, env)
    requires n.luc == Some(uc) && w.lib.successor(uc, n.tx.committedUC)
    ensures k <= k' <= k + 1 && Inv(w, CertifyProposal(n, uc, env).node, k')
    ensures k' == k ==> CertifyProposal(n, uc, env).node.tx.committedUC == n.tx.committedUC
  {
    if n.pending.value.cert.Some? && EqualIR(n.pending.value.cert.value.ir, uc.ir) {
      ProposalBecomesNextBlock(w, n.tx, k, n.pending.value, uc);
    }
    k' := MatchProposalKeeps(w, n, k, uc, env);
  }

  /** What a certificate comes to outside recovery, once it is the latest one. */
  ghost predicate ActOutcome(p: Params, m: NodeState, uc: Certificate, env: Env, o: NodeState) {
    || o == m || o == StartNewRound(m, env) || o == StartNewRound(m.(tx := Revert(m.tx)), env) || o == StartRecovery(m)
    || (p.lib.successor(uc, m.tx.committedUC) && m.pending.Some? && o == CertifyProposal(m, uc, env).node)
  }

  lemma CertificateIsActedOn(p: Params, n: NodeState, m: NodeState, uc: Certificate, env: Env)
    ensures ActOutcome(p, m, uc, env, ActOnCertificate(p, n, m, uc, env).node)
  {
  }

  lemma ActOnCertificateKeeps(w: World, p: Params, n: NodeState, m: NodeState, k: nat, uc: Certificate, env: Env) returns (k': nat)
    requires Trust(w) && p.lib == w.lib && Core(w, m, k) && m.status.Normal? && m.luc == Some(uc) && EnvOk(w, env)
    ensures k <= k' <= k + 1 && Inv(w, ActOnCertificate(p, n, m, uc, env).node, k')
    ensures k' == k ==> ActOnCertificate(p, n, m, uc, env).node.tx.committedUC == m.tx.committedUC
  {
    CertificateIsActedOn(p, n, m, uc, env);
    k' := ActOutcomeKeeps(w, p, m, k, uc, env, ActOnCertificate(p, n, m, uc, env).node);
  }

  lemma ActOutcomeKeeps(w: World, p: Params, m: NodeState, k: nat, uc: Certificate, env: Env, o: NodeState) returns (k': nat)
    requires Trust(w) && p.lib == w.lib && Core(w, m, k) && m.status.Normal? && m.luc == Some(uc) && EnvOk(w, env) && ActOutcome(p, m, uc, env, o)
    ensures k <= k' <= k + 1 && Inv(w, o, k')
    ensures k' == k ==> o.tx.committedUC == m.tx.committedUC
  {
    k' := k;
    if o == m || o == StartNewRound(m, env) {
      StartNewRoundKeeps(w, m, k, env);
    } else if o == StartRecovery(m) {
      StartRecoveryKeeps(w, m, k);
    } else if o == StartNewRound(m.(tx := Revert(m.tx)), env) {
      TentativeKeeps(w, m, k, Revert(m.tx));
      StartNewRoundKeeps(w, m.(tx := Revert(m.tx)), k, env);
    } else {
      k' := CertifyProposalKeeps(w, m, k, uc, env);
    }
  }

  lemma HandleCertificateKeeps(w: World, p: Params, n: NodeState, k: nat, uc: Certificate, tr: Option<TechnicalRecord>, env: Env)
    returns (k': nat)
    requires Trust(w) && p.lib == w.lib && Inv(w, n, k) && Attached(w.lib, uc, tr) && EnvOk(w, env)
    ensures k <= k' <= k + 1 && Inv(w, HandleCertificate(p, n, uc, tr, env).node, k')
    ensures k' == k ==> HandleCertificate(p, n, uc, tr, env).node.tx.committedUC == n.tx.committedUC
    ensures RootRoundOf(n.luc) <= RootRoundOf(HandleCertificate(p, n, uc, tr, env).node.luc)
  {
    k' := k;
    var updated := UpdateLUC(p, n, uc, tr);
    UpdateLUCKeeps(w, p, n, k, uc, tr);
    UpdateLUCAdvances(w, p, n, uc, tr);
    if updated.ok && !n.status.Recovering? {
      SetStatusKeeps(w, updated.node, k, Normal);
      k' := ActOnCertificateKeeps(w, p, n, updated.node.(status := Normal), k, uc, env);
    }
  }

  // ---- proposals ----

  lemma SendCertificationRequestKeeps(w: World, p: Params, n: NodeState, k: nat, author: PeerID, root: Slice, env: Env)
    requires p.lib == w.lib && Inv(w, n, k) && n.leader != NO_PEER && !n.status.Recovering?
    ensures n.luc.Some? && Inv(w, SendCertificationRequest(p, n, author, root, env).node, k)
  {
    assert CurrentRound(n) >= 1;
    var block := ProposedBlock(p, n, author, root);
    assert Proposed(w.lib, block);
    if env.pendingWriteOk {
      assert ProposalsOk(w, n.(stored := Some(block), pending := Some(block)));
    } else {
      TentativeKeeps(w, n, k, Revert(n.tx));
    }
  }

  lemma FollowProposalKeeps(w: World, p: Params, n: NodeState, k: nat, prop: Proposal, env: Env)
    requires p.lib == w.lib && Inv(w, n, k) && EnvOk(w, env) && !n.status.Recovering? && prop.uc.Some?
    ensures Inv(w, FollowProposal(p, n, prop, env).node, k)
  {
    ProposalIsHandled(p, n, prop, env);
    FollowOutcomeKeeps(w, p, n, k, prop, env, FollowProposal(p, n, prop, env).node);
  }

  /** What a proposal comes to once the certificate inside it is processed. */
  ghost predicate FollowOutcome(p: Params, n: NodeState, prop: Proposal, env: Env, o: NodeState)
    requires Healthy(n)
  {
    || o == n
    || o == n.(tx := Revert(n.tx))
    || (&& n.leader != NO_PEER && FollowerVerify(n.tx, env.pow, prop.root).Some?
        && o == SendCertificationRequest(p, n.(tx := FollowerVerify(n.tx, env.pow, prop.root).value), prop.node, prop.root, env).node)
  }

  lemma ProposalIsHandled(p: Params, n: NodeState, prop: Proposal, env: Env)
    requires Healthy(n) && prop.uc.Some?
    ensures FollowOutcome(p, n, prop, env, FollowProposal(p, n, prop, env).node)
  {
  }

  lemma FollowOutcomeKeeps(w: World, p: Params, n: NodeState, k: nat, prop: Proposal, env: Env, o: NodeState)
    requires p.lib == w.lib && Inv(w, n, k) && EnvOk(w, env) && !n.status.Recovering? && FollowOutcome(p, n, prop, env, o)
    ensures Inv(w, o, k)
  {
    if o == n {
    } else if o == n.(tx := Revert(n.tx)) {
      RevertKeeps(w, n, k);
    } else {
      var verified := FollowerVerify(n.tx, env.pow, prop.root).value;
      PendingHeightTrue(w, n.tx, env, prop.root);
      TentativeKeeps(w, n, k, verified);
      SendCertificationRequestKeeps(w, p, n.(tx := verified), k, prop.node, prop.root, env);
    }
  }

  lemma ProcessProposalCertificateKeeps(w: World, p: Params, n: NodeState, k: nat, prop: Proposal, env: Env) returns (k': nat)
    requires Trust(w) && p.lib == w.lib && Inv(w, n, k) && EnvOk(w, env)
    requires !n.status.Recovering? && ProposalValid(p, n.confEpoch, prop)
    ensures k <= k' <= k + 1 && Inv(w, ProcessProposalCertificate(p, n, prop, env).node, k')
    ensures RootRoundOf(n.luc) <= RootRoundOf(ProcessProposalCertificate(p, n, prop, env).node.luc)
  {
    k' := k;
    if prop.uc.value.rootRound > RootRoundOf(n.luc) {
      k' := HandleCertificateKeeps(w, p, n, k, prop.uc.value, Some(prop.technical), env);
    }
  }

  lemma HandleValidProposalKeeps(w: World, p: Params, n: NodeState, k: nat, prop: Proposal, env: Env) returns (k': nat)
    requires Trust(w) && p.lib == w.lib && Inv(w, n, k) && EnvOk(w, env)
    requires !n.status.Recovering? && ProposalValid(p, n.confEpoch, prop)
    ensures k <= k' <= k + 1 && Inv(w, HandleValidProposal(p, n, prop, env).node, k')
    ensures RootRoundOf(n.luc) <= RootRoundOf(HandleValidProposal(p, n, prop, env).node.luc)
  {
    k' := ProcessProposalCertificateKeeps(w, p, n, k, prop, env);
    var processed := ProcessProposalCertificate(p, n, prop, env);
    if processed.ok {
      FollowProposalKeeps(w, p, processed.node, k', prop, env);
    }
  }

  lemma HandleProposalKeeps(w: World, p: Params, n: NodeState, k: nat, prop: Option<Proposal>, env: Env) returns (k': nat)
    requires Trust(w) && p.lib == w.lib && Inv(w, n, k) && EnvOk(w, env)
    ensures k <= k' <= k + 1 && Inv(w, HandleProposal(p, n, prop, env).node, k')
    ensures RootRoundOf(n.luc) <= RootRoundOf(HandleProposal(p, n, prop, env).node.luc)
  {
    k' := k;
    if !n.status.Recovering? && prop.Some? && ProposalValid(p, n.confEpoch, prop.value) {
      k' := HandleValidProposalKeeps(w, p, n, k, prop.value, env);
    }
  }

  /** What a T1 timeout comes to. */
  ghost predicate TimeoutOutcome(p: Params, n: NodeState, env: Env, o: NodeState)
    requires Healthy(n) && p.id != NO_PEER
  {
    || o == n
    || o == n.(tx := Revert(n.tx))
    || (&& n.leader == p.id && !n.status.Recovering? && LeaderPropose(n.tx, env.pow).Some?
        && var m := n.(tx := LeaderPropose(n.tx, env.pow).value);
           var sent := SendCertificationRequest(p, m, p.id, m.tx.pendingHash, env).node;
           o == sent || o == sent.(tx := Revert(sent.tx)))
  }

  lemma TimeoutIsHandled(p: Params, n: NodeState, env: Env)
    requires Healthy(n) && p.id != NO_PEER
    ensures TimeoutOutcome(p, n, env, HandleT1Timeout(p, n, env).node)
  {
  }

  lemma HandleT1TimeoutKeeps(w: World, p: Params, n: NodeState, k: nat, env: Env)
    requires p.lib == w.lib && Inv(w, n, k) && EnvOk(w, env) && p.id != NO_PEER
    ensures Inv(w, HandleT1Timeout(p, n, env).node, k)
  {
    TimeoutIsHandled(p, n, env);
    TimeoutOutcomeKeeps(w, p, n, k, env, HandleT1Timeout(p, n, env).node);
  }

  lemma TimeoutOutcomeKeeps(w: World, p: Params, n: NodeState, k: nat, env: Env, o: NodeState)
    requires p.lib == w.lib && Inv(w, n, k) && EnvOk(w, env) && p.id != NO_PEER && TimeoutOutcome(p, n, env, o)
    ensures Inv(w, o, k)
  {
    if o == n {
    } else if o == n.(tx := Revert(n.tx)) {
      RevertKeeps(w, n, k);
    } else {
      var proposed := LeaderPropose(n.tx, env.pow).value;
      PendingHeightTrue(w, n.tx, env, Nil);
      TentativeKeeps(w, n, k, proposed);
      LeaderRequestKeeps(w, p, n.(tx := proposed), k, proposed.pendingHash, env);
    }
  }

  lemma RevertKeeps(w: World, n: NodeState, k: nat)
    requires Core(w, n, k)
    ensures Inv(w, n.(tx := Revert(n.tx)), k) || n.status.Recovering?
    ensures Core(w, n.(tx := Revert(n.tx)), k)
    ensures Quiet(n) ==> Inv(w, n.(tx := Revert(n.tx)), k)
  {
    TentativeKeeps(w, n, k, Revert(n.tx));
  }

  /** Whether the leader's request goes out or the tentative change is taken back. */
  lemma LeaderRequestKeeps(w: World, p: Params, n: NodeState, k: nat, root: Slice, env: Env)
    requires p.lib == w.lib && Inv(w, n, k) && !n.status.Recovering? && n.leader == p.id != NO_PEER
    ensures var sent := SendCertificationRequest(p, n, p.id, root, env).node;
            Inv(w, sent, k) && Inv(w, sent.(tx := Revert(sent.tx)), k)
  {
    SendCertificationRequestKeeps(w, p, n, k, p.id, root, env);
    RevertKeeps(w, SendCertificationRequest(p, n, p.id, root, env).node, k);
  }

  // ---- recovery ----

  lemma RecoveredBlockIsNext(w: World, tx: TxState, k: nat, b: Block)
    requires Trust(w) && Committed(w, tx, k)
    requires BlockValid(w.lib, b) && Issued(w.rc, b.cert.value) && SummaryMatches(b.cert.value.ir.hash, b.cert.value.ir)
    requires w.lib.successor(b.cert.value, tx.committedUC) && RoundOf(tx.committedUC) < b.cert.value.ir.round
    requires SameBytes(b.header.previousBlockHash, BlockHashOf(tx.committedUC))
    ensures Certifies(w, b, k + 1)
  {
  }

  lemma FinalizeOrRevertKeeps(w: World, n: NodeState, k: nat, b: Block, uc: Certificate, env: Env)
    requires Increasing(w.rc) && Core(w, n, k) && n.status.Recovering? && n.pending.None? && EnvOk(w, env)
    requires Certifies(w, b, k + 1) && b.cert == Some(uc)
    requires uc.ir.round <= RoundOf(n.luc) && uc.rootRound <= RootRoundOf(n.luc)
    ensures var o := FinalizeOrRevert(n, b, uc, env);
            Inv(w, o.node, if o.ok then k + 1 else k)
  {
    FinalizeKeeps(w, n, k, b, uc, env);
    SettledKeeps(w, FinalizeBlock(n, b, uc, env), k);
  }

  lemma SettledKeeps(w: World, f: Outcome, k: nat)
    requires Core(w, f.node, if f.ok then k + 1 else k) && f.node.pending.None? && (f.ok ==> f.node.tx.pendingHash == Nil)
    ensures if f.ok then Inv(w, f.node, k + 1) else Inv(w, f.node.(tx := Revert(f.node.tx)), k)
  {
    if !f.ok {
      TentativeKeeps(w, f.node, k, Revert(f.node.tx));
    }
  }

  lemma ApplyVerifiedKeeps(w: World, p: Params, m: NodeState, k: nat, b: Block, env: Env) returns (k': nat)
    requires Increasing(w.rc) && Inv(w, m, k) && m.status.Recovering? && b.cert.Some? && EnvOk(w, env)
    requires b.cert.value.ir.round <= RoundOf(m.luc) && b.cert.value.rootRound <= RootRoundOf(m.luc)
    requires ExtendsLedger(p, m, b, b.cert.value) && SummaryMatches(b.cert.value.ir.hash, b.cert.value.ir) ==> Certifies(w, b, k + 1)
    ensures k <= k' <= k + 1
    ensures Inv(w, ApplyVerified(p, m, b, b.cert.value, env).node, k')
  {
    k' := k;
    var uc := b.cert.value;
    var verified := FollowerVerify(m.tx, env.pow, uc.ir.hash);
    if !ExtendsLedger(p, m, b, uc) {
      assert ApplyVerified(p, m, b, uc, env) == Outcome(m, false);
    } else if verified.None? || !SummaryMatches(uc.ir.hash, uc.ir) {
      RevertKeeps(w, m, k);
    } else {
      k' := VerifiedKeeps(w, m, k, b, uc, env, verified.value);
    }
  }

  lemma VerifiedKeeps(w: World, m: NodeState, k: nat, b: Block, uc: Certificate, env: Env, t: TxState) returns (k': nat)
    requires Increasing(w.rc) && Inv(w, m, k) && m.status.Recovering? && EnvOk(w, env)
    requires uc.ir.round <= RoundOf(m.luc) && uc.rootRound <= RootRoundOf(m.luc) && b.cert == Some(uc) && Certifies(w, b, k + 1)
    requires FollowerVerify(m.tx, env.pow, uc.ir.hash) == Some(t)
    ensures k <= k' <= k + 1 && Inv(w, FinalizeOrRevert(m.(tx := t), b, uc, env).node, k')
  {
    PendingHeightTrue(w, m.tx, env, uc.ir.hash);
    TentativeKeeps(w, m, k, t);
    FinalizeOrRevertKeeps(w, m.(tx := t), k, b, uc, env);
    k' := if FinalizeOrRevert(m.(tx := t), b, uc, env).ok then k + 1 else k;
  }

  /** What handling a block comes to in a node that is recovering already. */
  ghost predicate BlockOutcome(p: Params, n: NodeState, b: Block, env: Env, o: NodeState) {
    if !BlockValid(p.lib, b) then o == n else
    var uc := b.cert.value;
    var updated := UpdateLUC(p, n, uc, None);
    if updated.ok && CommittedRound(n) < uc.ir.round && p.lib.successor(uc, n.tx.committedUC)
    then o == ApplyVerified(p, updated.node, b, uc, env).node
    else o == updated.node
  }

  lemma BlockIsHandled(p: Params, n: NodeState, b: Block, env: Env)
    requires n.status.Recovering?
    ensures BlockOutcome(p, n, b, env, HandleBlock(p, n, b, env).node)
  {
  }

  lemma HandleBlockKeeps(w: World, p: Params, n: NodeState, k: nat, b: Block, env: Env) returns (k': nat)
    requires Trust(w) && p.lib == w.lib && Inv(w, n, k) && n.status.Recovering? && EnvOk(w, env)
    ensures k <= k' <= k + 1 && Inv(w, HandleBlock(p, n, b, env).node, k')
    ensures RootRoundOf(n.luc) <= RootRoundOf(HandleBlock(p, n, b, env).node.luc)
  {
    BlockIsHandled(p, n, b, env);
    k' := BlockOutcomeKeeps(w, p, n, k, b, env, HandleBlock(p, n, b, env).node);
  }

  lemma BlockOutcomeKeeps(w: World, p: Params, n: NodeState, k: nat, b: Block, env: Env, o: NodeState) returns (k': nat)
    requires Trust(w) && p.lib == w.lib && Inv(w, n, k) && n.status.Recovering? && EnvOk(w, env) && BlockOutcome(p, n, b, env, o)
    ensures k <= k' <= k + 1 && Inv(w, o, k')
    ensures RootRoundOf(n.luc) <= RootRoundOf(o.luc)
  {
    k' := k;
    if BlockValid(p.lib, b) {
      var uc := b.cert.value;
      UpdateLUCKeeps(w, p, n, k, uc, None);
      UpdateLUCAdvances(w, p, n, uc, None);
      var updated := UpdateLUC(p, n, uc, None);
      if updated.ok && CommittedRound(n) < uc.ir.round && p.lib.successor(uc, n.tx.committedUC) {
        k' := ApplyRecoveredKeeps(w, p, updated.node, k, b, env);
      }
    }
  }

  lemma ApplyRecoveredKeeps(w: World, p: Params, m: NodeState, k: nat, b: Block, env: Env) returns (k': nat)
    requires Trust(w) && Inv(w, m, k) && m.status.Recovering? && EnvOk(w, env)
    requires BlockValid(w.lib, b) && Issued(w.rc, b.cert.value) && w.lib.successor(b.cert.value, m.tx.committedUC)
    requires CommittedRound(m) < b.cert.value.ir.round <= RoundOf(m.luc) && b.cert.value.rootRound <= RootRoundOf(m.luc)
    ensures k <= k' <= k + 1
    ensures Inv(w, ApplyVerified(p, m, b, b.cert.value, env).node, k')
  {
    var uc := b.cert.value;
    if ExtendsLedger(p, m, b, uc) && SummaryMatches(uc.ir.hash, uc.ir) {
      RecoveredBlockIsNext(w, m.tx, k, b);
    }
    k' := ApplyVerifiedKeeps(w, p, m, k, b, env);
  }

  lemma {:induction false} ApplyBlocksKeeps(w: World, p: Params, n: NodeState, k: nat, blocks: seq<Block>, envs: seq<Env>) returns (k': nat)
    requires Trust(w) && p.lib == w.lib && Inv(w, n, k) && n.status.Recovering? && |envs| == |blocks|
    requires forall i :: 0 <= i < |envs| ==> EnvOk(w, envs[i])
    ensures k <= k' && Inv(w, ApplyBlocks(p, n, blocks, envs).node, k')
    ensures RootRoundOf(n.luc) <= RootRoundOf(ApplyBlocks(p, n, blocks, envs).node.luc)
    decreases |blocks|
  {
    if blocks == [] {
      k' := k;
    } else {
      k' := HandleBlockKeeps(w, p, n, k, blocks[0], envs[0]);
      var first := HandleBlock(p, n, blocks[0], envs[0]);
      if first.ok {
        k' := ApplyBlocksKeeps(w, p, first.node, k', blocks[1..], envs[1..]);
      }
    }
  }

  lemma FinishRecoveryKeeps(w: World, p: Params, n: NodeState, k: nat, env: Env, retry: Env) returns (k': nat)
    requires Trust(w) && p.lib == w.lib && Inv(w, n, k) && EnvOk(w, retry)
    ensures k <= k' <= k + 1 && Inv(w, FinishRecovery(p, n, env, retry), k')
    ensures RootRoundOf(n.luc) <= RootRoundOf(FinishRecovery(p, n, env, retry).luc)
  {
    SetStatusKeeps(w, n, k, Normal);
    StartNewRoundKeeps(w, n.(status := Normal), k, env);
    var m := StartNewRound(n.(status := Normal), env);
    k' := HandleProposalKeeps(w, p, m, k, m.lastProposal, retry);
    if m.lastProposal.None? {
      k' := k;
    }
  }

  lemma HandleReplicationResponseKeeps(w: World, p: Params, n: NodeState, k: nat, resp: ReplicationResponse, envs: seq<Env>, env: Env, retry: Env)
    returns (k': nat)
    requires Trust(w) && p.lib == w.lib && Inv(w, n, k) && EnvOk(w, retry)
    requires resp.blocks.Some? ==> |envs| == |resp.blocks.value|
    requires forall i :: 0 <= i < |envs| ==> EnvOk(w, envs[i])
    ensures k <= k' && Inv(w, HandleReplicationResponse(p, n, resp, envs, env, retry), k')
    ensures RootRoundOf(n.luc) <= RootRoundOf(HandleReplicationResponse(p, n, resp, envs, env, retry).luc)
  {
    k' := k;
    SetStatusKeeps(w, n, k, Normal);
    if n.status.Recovering? && resp.status.Ok? && resp.blocks.Some? && CommittedRound(n) < resp.first {
      k' := ApplyBlocksKeeps(w, p, n, k, resp.blocks.value, envs);
      var applied := ApplyBlocks(p, n, resp.blocks.value, envs);
      if applied.ok && RecoveryComplete(applied.node) {
        k' := FinishRecoveryKeeps(w, p, applied.node, k', env, retry);
      }
    }
  }

  // ---- requests and epochs ----

  lemma HandleReplicationRequestKeeps(w: World, p: Params, n: NodeState, k: nat, r: ReplicationRequest)
    requires Inv(w, n, k)
    ensures Inv(w, HandleReplicationRequest(p, n, r), k)
  {
  }

  lemma ConfigureKeeps(w: World, n: NodeState, k: nat, dFG: U64)
    requires Inv(w, n, k) && dFG >= 1
    ensures Inv(w, n.(tx := n.tx.(dFG := dFG)), k)
  {
  }

  /** The configuration of the current epoch is active, or its load failed. */
  lemma EpochKeeps(w: World, n: NodeState, k: nat, epoch: U64, failed: bool)
    requires Inv(w, n, k) && (failed || epoch == CurrentEpoch(n))
    ensures Inv(w, n.(epochEvent := false, confEpoch := epoch, loadFailed := failed), k)
  {
  }

  lemma HandleEpochChangeKeeps(w: World, p: Params, n: NodeState, k: nat, env: Env)
    requires Inv(w, n, k) && ParamsOk(p)
    ensures Inv(w, HandleEpochChange(p, n, env), k)
  {
    var epoch := CurrentEpoch(n);
    if !env.confReadOk || epoch !in p.confs {
      EpochKeeps(w, n, k, n.confEpoch, true);
    } else {
      EpochKeeps(w, n, k, epoch, false);
      var m := n.(epochEvent := false, confEpoch := epoch, loadFailed := false);
      var tx := UpdateConfig(n.tx, p.confs[epoch]);
      if tx.Some? {
        ConfigureKeeps(w, m, k, tx.value.dFG);
      }
    }
  }
}
