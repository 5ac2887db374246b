/**
 The hash links of the ledger. Committed blocks never change, and over every run the headers of a node's
 committed blocks form a chain if and only if no certificate finalizes a proposal that a restart took up
 although its header does not point to the last block.
 */
module Links {
  import opened Types
  import opened TxModel
  import opened NodeModel
  import opened RootChain
  import opened Safety
  import opened Restart
  import opened Runs
  import opened Agreement

  // ---- what is claimed ----

  /** The header of the i-th committed block points to the committed block before it. */
  ghost predicate HeaderLinks(n: NodeState, i: nat)
    requires i < |History(n)|
  {
    SameBytes(n.blocks[History(n)[i].0].header.previousBlockHash,
      if i == 0 then Nil else BlockHashOf(n.blocks[History(n)[i - 1].0].cert))
  }

  /** The headers of the committed blocks form one chain. */
  ghost predicate HeadersLink(n: NodeState) {
    forall i: nat {:trigger HeaderLinks(n, i)} :: i < |History(n)| ==> HeaderLinks(n, i)
  }

  /** The stored block of record i, if there is one, points to the block of record i-1. */
  ghost predicate BlockLinks(rc: RootChain, blocks: map<U64, Block>, i: nat) {
    1 <= i < |rc.records| && RecordRound(rc, i) in blocks ==>
      SameBytes(blocks[RecordRound(rc, i)].header.previousBlockHash, LinkHash(rc, i))
  }

  ghost predicate LinkedUpTo(rc: RootChain, blocks: map<U64, Block>, k: nat) {
    forall i: nat {:trigger BlockLinks(rc, blocks, i)} :: 1 <= i <= k ==> BlockLinks(rc, blocks, i)
  }

  lemma HeadersAreRecords(w: World, n: NodeState, k: nat)
    requires Increasing(w.rc) && Inv(w, n, k)
    ensures HeadersLink(n) <==> LinkedUpTo(w.rc, n.blocks, k)
  {
    HistoryIsCertified(w, n, k);
    if LinkedUpTo(w.rc, n.blocks, k) {
      forall i: nat | i < |History(n)|
        ensures HeaderLinks(n, i)
      {
        HeaderIsRecord(w, n, k, i);
        assert BlockLinks(w.rc, n.blocks, i + 1);
      }
    }
    if HeadersLink(n) {
      forall i: nat | 1 <= i <= k
        ensures BlockLinks(w.rc, n.blocks, i)
      {
        HeaderIsRecord(w, n, k, i - 1);
        assert HeaderLinks(n, i - 1);
      }
    }
  }

  lemma HeaderIsRecord(w: World, n: NodeState, k: nat, i: nat)
    requires Increasing(w.rc) && Inv(w, n, k) && i < k && i < |History(n)| && History(n) == RootHistory(w.rc, k)
    ensures HeaderLinks(n, i) <==> BlockLinks(w.rc, n.blocks, i + 1)
  {
    assert Holds(w, n.blocks, i + 1);
    assert i >= 1 ==> Holds(w, n.blocks, i);
  }

  // ---- committed blocks do not change ----

  /** Every block up to the committed round is as it was. */
  ghost predicate Untouched(n: NodeState, m: NodeState) {
    && CommittedRound(n) <= CommittedRound(m)
    && forall r: U64 :: r <= CommittedRound(n) ==>
         (r in n.blocks <==> r in m.blocks) && (r in n.blocks ==> m.blocks[r] == n.blocks[r])
  }

  /** The node moves from record k to record k', and the blocks of the records it moves over link. */
  ghost predicate Extends(w: World, n: NodeState, k: nat, m: NodeState, k': nat) {
    && Untouched(n, m) && k <= k'
    && forall i: nat {:trigger BlockLinks(w.rc, m.blocks, i)} :: k < i <= k' ==> BlockLinks(w.rc, m.blocks, i)
  }

  /** The pending proposal is for this record. */
  ghost predicate PendingFor(n: NodeState, ir: InputRecord) {
    n.pending.Some? && n.pending.value.cert.Some? && EqualIR(n.pending.value.cert.value.ir, ir)
  }

  /** A block that is stored for the record after the committed one was there before, or is the pending proposal. */
  ghost predicate LeavesNoOther(rc: RootChain, n: NodeState, k: nat, m: NodeState, k': nat) {
    k' + 1 < |rc.records| && RecordRound(rc, k' + 1) in m.blocks ==>
      k' == k && (RecordRound(rc, k + 1) in n.blocks || PendingFor(n, rc.records[k + 1]))
  }

  lemma NothingFurther(w: World, blocks: map<U64, Block>, k: nat)
    requires Increasing(w.rc) && Stored(w, blocks, k) && k + 2 < |w.rc.records|
    ensures RecordRound(w.rc, k + 2) !in blocks
  {
    if RecordRound(w.rc, k + 2) in blocks {
      var i := RoundsAreRecords(w.rc, k, RecordRound(w.rc, k + 2));
    }
  }

  lemma SameBlocks(rc: RootChain, n: NodeState, k: nat, m: NodeState, i: nat)
    requires Increasing(rc) && Untouched(n, m) && k < |rc.records| && CommittedRound(n) == RecordRound(rc, k) && i <= k
    ensures BlockLinks(rc, n.blocks, i) <==> BlockLinks(rc, m.blocks, i)
  {
    if 1 <= i {
      RecordOrder(rc, k, i);
    }
  }

  lemma ExtendsJoin(w: World, n: NodeState, k: nat, m: NodeState, j: nat, o: NodeState, k': nat)
    requires Increasing(w.rc) && Inv(w, n, k) && Inv(w, m, j) && Inv(w, o, k') && Extends(w, n, k, m, j) && Extends(w, m, j, o, k')
    ensures Extends(w, n, k, o, k')
  {
    forall i: nat | k < i <= k'
      ensures BlockLinks(w.rc, o.blocks, i)
    {
      if i <= j {
        SameBlocks(w.rc, m, j, o, i);
        assert BlockLinks(w.rc, m.blocks, i);
      }
    }
  }

  // ---- certificates ----

  /** The pending proposal matches the certificate. */
  ghost predicate Matches(n: NodeState, uc: Certificate) {
    PendingFor(n, uc.ir)
  }

  /** The certificate finalizes the pending proposal: what has to hold of the node, the certificate and the answers before the call. */
  ghost predicate Finalizes(p: Params, n: NodeState, uc: Certificate, tr: Option<TechnicalRecord>, env: Env) {
    && !n.status.Recovering? && UpdateLUC(p, n, uc, tr).ok
    && !IsDuplicate(uc, n.luc) && !IsRepeat(uc, n.luc) && p.lib.successor(uc, n.tx.committedUC)
    && Matches(n, uc) && SameBytes(n.tx.pendingHash, uc.ir.hash) && env.sealOk && env.writeOk
  }

  /** The pending proposal is the one there was, with nothing committed since, or a new one that points to the committed block. */
  ghost predicate PendingFrom(n: NodeState, m: NodeState) {
    || (m.pending == n.pending && m.tx.committedUC == n.tx.committedUC)
    || m.pending.None? || m.pending.value.cert.None?
    || SameBytes(m.pending.value.header.previousBlockHash, BlockHashOf(m.tx.committedUC))
  }

  /** The pending proposal is the one there was, or there is none with a certificate. */
  ghost predicate ProposesNothing(n: NodeState, m: NodeState) {
    m.pending == n.pending || m.pending.None? || m.pending.value.cert.None?
  }

  /** What a certificate does that commits nothing: it may write or delete the one block it is for. */
  ghost predicate CommitsNothing(p: Params, n: NodeState, uc: Certificate, m: NodeState) {
    && m.tx.committedUC == n.tx.committedUC && ProposesNothing(n, m)
    && (|| m.blocks == n.blocks
        || (&& p.lib.successor(uc, n.tx.committedUC) && Matches(n, uc)
            && m.blocks - {uc.ir.round} == n.blocks - {uc.ir.round}))
  }

  /** A block is stored and committed, or nothing is committed and at most that block is written or deleted. */
  lemma FinalizeChanges(n: NodeState, b: Block, uc: Certificate, env: Env)
    requires !n.status.Initializing?
    ensures var o := FinalizeBlock(n, b, uc, env);
            if SameBytes(n.tx.pendingHash, uc.ir.hash) && env.writeOk
            then o.ok && o.node.tx.committedUC == Some(uc) && o.node.blocks == n.blocks[uc.ir.round := b]
            else !o.ok && o.node.tx == n.tx && o.node.blocks - {uc.ir.round} == n.blocks - {uc.ir.round}
  {
  }

  lemma CertifyChanges(p: Params, n: NodeState, uc: Certificate, env: Env)
    requires n.status.Normal? && n.pending.Some? && p.lib.successor(uc, n.tx.committedUC)
    ensures var m := CertifyProposal(n, uc, env).node;
            if Matches(n, uc) && SameBytes(n.tx.pendingHash, uc.ir.hash) && env.sealOk && env.writeOk
            then m.pending.None? && m.tx.committedUC == Some(uc) && m.blocks == n.blocks[uc.ir.round := n.pending.value.(cert := Some(uc))]
            else CommitsNothing(p, n, uc, m)
  {
    if Matches(n, uc) && env.sealOk {
      FinalizeChanges(n, n.pending.value.(cert := Some(uc)), uc, env);
    }
  }

  /** A new round or recovery drops the pending proposal and commits nothing. */
  lemma SwitchCommitsNothing(p: Params, m: NodeState, uc: Certificate, env: Env, o: NodeState)
    requires o == m || o == StartNewRound(m, env) || o == StartNewRound(m.(tx := Revert(m.tx)), env) || o == StartRecovery(m)
    ensures CommitsNothing(p, m, uc, o)
  {
  }

  lemma ActCommitsNothing(p: Params, n: NodeState, m: NodeState, uc: Certificate, env: Env)
    requires IsDuplicate(uc, n.luc) || IsRepeat(uc, n.luc) || !p.lib.successor(uc, m.tx.committedUC) || m.pending.None?
    ensures CommitsNothing(p, m, uc, ActOnCertificate(p, n, m, uc, env).node)
  {
    CertificateIsActedOn(p, n, m, uc, env);
    SwitchCommitsNothing(p, m, uc, env, ActOnCertificate(p, n, m, uc, env).node);
  }

  lemma CertificateChanges(p: Params, n: NodeState, uc: Certificate, tr: Option<TechnicalRecord>, env: Env)
    ensures var m := HandleCertificate(p, n, uc, tr, env).node;
            if Finalizes(p, n, uc, tr, env)
            then m.pending.None? && m.tx.committedUC == Some(uc) && m.blocks == n.blocks[uc.ir.round := n.pending.value.(cert := Some(uc))]
            else CommitsNothing(p, n, uc, m)
  {
    var updated := UpdateLUC(p, n, uc, tr);
    var m := updated.node.(status := Normal);
    if updated.ok && !n.status.Recovering? {
      assert HandleCertificate(p, n, uc, tr, env) == ActOnCertificate(p, n, m, uc, env);
      if IsDuplicate(uc, n.luc) || IsRepeat(uc, n.luc) || !p.lib.successor(uc, m.tx.committedUC) || m.pending.None? {
        ActCommitsNothing(p, n, m, uc, env);
      } else {
        assert ActOnCertificate(p, n, m, uc, env) == CertifyProposal(m, uc, env);
        CertifyChanges(p, m, uc, env);
      }
    }
  }

  /** A certificate that matches the pending proposal and follows the committed one is for a later round. */
  lemma MatchIsLater(w: World, n: NodeState, k: nat, uc: Certificate)
    requires Trust(w) && Inv(w, n, k) && Issued(w.rc, uc) && w.lib.successor(uc, n.tx.committedUC) && Matches(n, uc)
    ensures k + 1 < |w.rc.records| && uc.ir == w.rc.records[k + 1] && CommittedRound(n) == RecordRound(w.rc, k) < uc.ir.round
  {
    assert At(w.rc, n.tx.committedUC, k);
    RecordOrder(w.rc, k, k + 1);
  }

  /** The pending proposal, which a restart took up, is for a round after the committed one and does not point to the committed block. */
  ghost predicate Stale(n: NodeState) {
    && n.pending.Some? && n.pending.value.cert.Some?
    && CommittedRound(n) < n.pending.value.cert.value.ir.round
    && !SameBytes(n.pending.value.header.previousBlockHash, BlockHashOf(n.tx.committedUC))
  }

  /**
   From record k to record k' without a change to a committed block: over blocks that link, or to one that
   does not.
   */
  ghost predicate Moving(w: World, n: NodeState, k: nat, unlinks: bool, m: NodeState, k': nat) {
    && Inv(w, m, k') && Untouched(n, m) && LeavesNoOther(w.rc, n, k, m, k')
    && if unlinks then k' == k + 1 && !BlockLinks(w.rc, m.blocks, k + 1) else Extends(w, n, k, m, k')
  }

  ghost predicate Linking(w: World, n: NodeState, k: nat, unlinks: bool, m: NodeState, k': nat) {
    Moving(w, n, k, unlinks, m, k') && PendingFrom(n, m)
  }

  /** A stale proposal is the one there was, with nothing committed since. */
  ghost predicate StaleFrom(n: NodeState, m: NodeState) {
    Stale(m) ==> Stale(n) && m.pending == n.pending && m.tx.committedUC == n.tx.committedUC
  }

  /** The certificate adds a block that links, unless it finalizes a stale proposal. */
  lemma CertificateLinks(w: World, p: Params, n: NodeState, k: nat, uc: Certificate, tr: Option<TechnicalRecord>, env: Env) returns (k': nat)
    requires Trust(w) && p.lib == w.lib && Inv(w, n, k) && Attached(w.lib, uc, tr) && EnvOk(w, env)
    ensures Linking(w, n, k, Stale(n) && Finalizes(p, n, uc, tr, env), HandleCertificate(p, n, uc, tr, env).node, k')
  {
    k' := HandleCertificateKeeps(w, p, n, k, uc, tr, env);
    CertificateChanges(p, n, uc, tr, env);
    if HandleCertificate(p, n, uc, tr, env).node.blocks != n.blocks {
      NothingIfRefused(p, n, uc, tr, env);
    }
    UpdateLUCAdvances(w, p, n, uc, tr);
    ChangeLinks(w, p, n, k, uc, Finalizes(p, n, uc, tr, env), HandleCertificate(p, n, uc, tr, env).node, k');
  }

  lemma ChangeLinks(w: World, p: Params, n: NodeState, k: nat, uc: Certificate, finalizes: bool, m: NodeState, k': nat)
    requires Trust(w) && p.lib == w.lib && Inv(w, n, k) && Inv(w, m, k') && (finalizes || m.blocks != n.blocks ==> Issued(w.rc, uc))
    requires if finalizes
             then && m.pending.None? && m.tx.committedUC == Some(uc) && p.lib.successor(uc, n.tx.committedUC) && Matches(n, uc)
                  && m.blocks == n.blocks[uc.ir.round := n.pending.value.(cert := Some(uc))]
             else CommitsNothing(p, n, uc, m)
    ensures PendingFrom(n, m) && Untouched(n, m) && LeavesNoOther(w.rc, n, k, m, k')
    ensures if Stale(n) && finalizes then k' == k + 1 && !BlockLinks(w.rc, m.blocks, k + 1) else Extends(w, n, k, m, k')
  {
    if finalizes {
      MatchIsLater(w, n, k, uc);
      OnePlace(w.rc, m.tx.committedUC, k', k + 1);
      FinalizedMoves(w, n, k, n.pending.value.(cert := Some(uc)), m);
    } else {
      OnePlace(w.rc, m.tx.committedUC, k', k);
      if m.blocks != n.blocks {
        MatchIsLater(w, n, k, uc);
        OtherBlocks(n, m, uc.ir.round);
      }
    }
  }

  /** The pending proposal becomes the next block: one that links, unless the proposal is stale. */
  lemma FinalizedMoves(w: World, n: NodeState, k: nat, b: Block, m: NodeState)
    requires Increasing(w.rc) && Inv(w, n, k) && Inv(w, m, k + 1) && m.blocks == n.blocks[RecordRound(w.rc, k + 1) := b]
    requires n.pending.Some? && n.pending.value.cert.Some? && b.header == n.pending.value.header
    requires CommittedRound(n) < n.pending.value.cert.value.ir.round
    ensures Moving(w, n, k, Stale(n), m, k + 1)
  {
    RecordOrder(w.rc, k, k + 1);
    if k + 2 < |w.rc.records| {
      NothingFurther(w, n.blocks, k);
      RecordOrder(w.rc, k + 1, k + 2);
    }
  }

  lemma NothingIfRefused(p: Params, n: NodeState, uc: Certificate, tr: Option<TechnicalRecord>, env: Env)
    requires HandleCertificate(p, n, uc, tr, env).node.blocks != n.blocks
    ensures UpdateLUC(p, n, uc, tr).ok
  {
  }

  lemma OtherBlocks(n: NodeState, m: NodeState, round: U64)
    requires m.blocks - {round} == n.blocks - {round} && CommittedRound(n) == CommittedRound(m) < round
    ensures Untouched(n, m)
  {
    forall r: U64 | r <= CommittedRound(n)
      ensures (r in n.blocks <==> r in m.blocks) && (r in n.blocks ==> m.blocks[r] == n.blocks[r])
    {
      assert r in n.blocks <==> r in n.blocks - {round};
      assert r in m.blocks <==> r in m.blocks - {round};
      assert r in n.blocks ==> (n.blocks - {round})[r] == n.blocks[r];
      assert r in m.blocks ==> (m.blocks - {round})[r] == m.blocks[r];
    }
  }

  // ---- proposals ----

  /** The certificate inside a proposal finalizes the pending proposal. */
  ghost predicate FinalizesInside(p: Params, n: NodeState, prop: Option<Proposal>, env: Env) {
    && prop.Some? && ProposalValid(p, n.confEpoch, prop.value)
    && prop.value.uc.value.rootRound > RootRoundOf(n.luc)
    && Finalizes(p, n, prop.value.uc.value, Some(prop.value.technical), env)
  }

  /** Nothing is committed or stored, and a new pending proposal points to the committed block. */
  ghost predicate OnlyProposes(n: NodeState, m: NodeState) {
    m.blocks == n.blocks && m.tx.committedUC == n.tx.committedUC && PendingFrom(n, m)
  }

  lemma FollowProposes(p: Params, n: NodeState, prop: Proposal, env: Env)
    requires Healthy(n) && prop.uc.Some?
    ensures OnlyProposes(n, FollowProposal(p, n, prop, env).node)
  {
  }

  lemma TimeoutProposes(p: Params, n: NodeState, env: Env)
    requires Healthy(n) && p.id != NO_PEER
    ensures OnlyProposes(n, HandleT1Timeout(p, n, env).node)
  {
  }

  lemma ThenProposes(w: World, n: NodeState, k: nat, unlinks: bool, x: NodeState, m: NodeState, k': nat)
    requires Linking(w, n, k, unlinks, x, k') && OnlyProposes(x, m) && Inv(w, m, k')
    ensures Linking(w, n, k, unlinks, m, k')
  {
  }

  lemma ProposalLinks(w: World, p: Params, n: NodeState, k: nat, prop: Option<Proposal>, env: Env) returns (k': nat)
    requires Trust(w) && p.lib == w.lib && Inv(w, n, k) && EnvOk(w, env)
    ensures Linking(w, n, k, Stale(n) && FinalizesInside(p, n, prop, env), HandleProposal(p, n, prop, env).node, k')
  {
    k' := k;
    if !n.status.Recovering? && prop.Some? && ProposalValid(p, n.confEpoch, prop.value) {
      k' := ValidProposalLinks(w, p, n, k, prop.value, env);
    }
  }

  lemma ProcessedLinks(w: World, p: Params, n: NodeState, k: nat, prop: Proposal, env: Env) returns (k': nat)
    requires Trust(w) && p.lib == w.lib && Inv(w, n, k) && EnvOk(w, env) && !n.status.Recovering? && ProposalValid(p, n.confEpoch, prop)
    ensures Linking(w, n, k, Stale(n) && FinalizesInside(p, n, Some(prop), env), ProcessProposalCertificate(p, n, prop, env).node, k')
  {
    k' := k;
    if prop.uc.value.rootRound > RootRoundOf(n.luc) {
      k' := CertificateLinks(w, p, n, k, prop.uc.value, Some(prop.technical), env);
    }
  }

  lemma ValidProposalLinks(w: World, p: Params, n: NodeState, k: nat, prop: Proposal, env: Env) returns (k': nat)
    requires Trust(w) && p.lib == w.lib && Inv(w, n, k) && EnvOk(w, env) && !n.status.Recovering? && ProposalValid(p, n.confEpoch, prop)
    ensures Linking(w, n, k, Stale(n) && FinalizesInside(p, n, Some(prop), env), HandleValidProposal(p, n, prop, env).node, k')
  {
    k' := ProcessedLinks(w, p, n, k, prop, env);
    var processed := ProcessProposalCertificate(p, n, prop, env);
    if processed.ok {
      FollowProposes(p, processed.node, prop, env);
      FollowProposalKeeps(w, p, processed.node, k', prop, env);
      ThenProposes(w, n, k, Stale(n) && FinalizesInside(p, n, Some(prop), env), processed.node, FollowProposal(p, processed.node, prop, env).node, k');
    }
  }

  // ---- recovery ----

  /** A recovered block is committed only if it points to the committed block. */
  lemma ApplyChanges(p: Params, n: NodeState, b: Block, uc: Certificate, env: Env)
    requires n.status.Recovering?
    ensures var m := ApplyVerified(p, n, b, uc, env).node;
            && m.pending == n.pending
            && (|| (&& m.tx.committedUC == Some(uc) && m.blocks == n.blocks[uc.ir.round := b]
                    && SameBytes(b.header.previousBlockHash, BlockHashOf(n.tx.committedUC)))
                || (m.tx.committedUC == n.tx.committedUC && m.blocks == n.blocks))
  {
    var verified := FollowerVerify(n.tx, env.pow, uc.ir.hash);
    if verified.Some? {
      FinalizeChanges(n.(tx := verified.value), b, uc, env);
    }
  }

  lemma BlockExtends(w: World, p: Params, n: NodeState, k: nat, b: Block, env: Env) returns (k': nat)
    requires Trust(w) && p.lib == w.lib && Inv(w, n, k) && n.status.Recovering? && EnvOk(w, env)
    ensures var m := HandleBlock(p, n, b, env).node;
            k' <= k + 1 && Moving(w, n, k, false, m, k') && m.pending == n.pending
  {
    k' := HandleBlockKeeps(w, p, n, k, b, env);
    BlockIsHandled(p, n, b, env);
    if BlockValid(p.lib, b) {
      UpdateLUCAdvances(w, p, n, b.cert.value, None);
      ApplyChanges(p, UpdateLUC(p, n, b.cert.value, None).node, b, b.cert.value, env);
    }
    BlockOutcomeExtends(w, p, n, k, b, env, HandleBlock(p, n, b, env).node, k');
  }

  lemma BlockOutcomeExtends(w: World, p: Params, n: NodeState, k: nat, b: Block, env: Env, m: NodeState, k': nat)
    requires Trust(w) && p.lib == w.lib && Inv(w, n, k) && Inv(w, m, k') && k <= k'
    requires || (m.tx.committedUC == n.tx.committedUC && m.blocks == n.blocks)
             || (&& b.cert.Some? && CommittedRound(n) < b.cert.value.ir.round && Issued(w.rc, b.cert.value) && w.lib.successor(b.cert.value, n.tx.committedUC)
                 && m.tx.committedUC == b.cert && m.blocks == n.blocks[b.cert.value.ir.round := b]
                 && SameBytes(b.header.previousBlockHash, BlockHashOf(n.tx.committedUC)))
    ensures Moving(w, n, k, false, m, k')
  {
    if m.tx.committedUC == n.tx.committedUC && m.blocks == n.blocks {
      OnePlace(w.rc, m.tx.committedUC, k', k);
    } else {
      assert At(w.rc, n.tx.committedUC, k);
      OnePlace(w.rc, m.tx.committedUC, k', k + 1);
      AddedExtends(w, n, k, b, m);
    }
  }

  lemma AddedExtends(w: World, n: NodeState, k: nat, b: Block, m: NodeState)
    requires Increasing(w.rc) && Inv(w, n, k) && Inv(w, m, k + 1) && m.blocks == n.blocks[RecordRound(w.rc, k + 1) := b]
    requires SameBytes(b.header.previousBlockHash, BlockHashOf(n.tx.committedUC))
    ensures Moving(w, n, k, false, m, k + 1)
  {
    RecordOrder(w.rc, k, k + 1);
    if k + 2 < |w.rc.records| {
      NothingFurther(w, n.blocks, k);
      RecordOrder(w.rc, k + 1, k + 2);
    }
  }

  lemma MovingJoin(w: World, n: NodeState, k: nat, m: NodeState, j: nat, o: NodeState, k': nat)
    requires Increasing(w.rc) && Inv(w, n, k) && Moving(w, n, k, false, m, j) && Moving(w, m, j, false, o, k') && m.pending.None?
    ensures Moving(w, n, k, false, o, k')
  {
    ExtendsJoin(w, n, k, m, j, o, k');
  }

  lemma {:induction false} BlocksExtend(w: World, p: Params, n: NodeState, k: nat, blocks: seq<Block>, envs: seq<Env>) returns (k': nat)
    requires Trust(w) && p.lib == w.lib && Inv(w, n, k) && n.status.Recovering? && |envs| == |blocks|
    requires forall i :: 0 <= i < |envs| ==> EnvOk(w, envs[i])
    ensures Moving(w, n, k, false, ApplyBlocks(p, n, blocks, envs).node, k')
    decreases |blocks|
  {
    k' := k;
    if blocks != [] {
      k' := BlockExtends(w, p, n, k, blocks[0], envs[0]);
      var first := HandleBlock(p, n, blocks[0], envs[0]);
      if first.ok {
        var j := k';
        k' := BlocksExtend(w, p, first.node, j, blocks[1..], envs[1..]);
        MovingJoin(w, n, k, first.node, j, ApplyBlocks(p, first.node, blocks[1..], envs[1..]).node, k');
      }
    }
  }

  /** What a node is before it gives the last proposal another try. */
  ghost function Rejoined(n: NodeState, env: Env): NodeState {
    StartNewRound(n.(status := Normal), env)
  }

  lemma FinishExtends(w: World, p: Params, n: NodeState, k: nat, env: Env, retry: Env) returns (k': nat)
    requires Trust(w) && p.lib == w.lib && Inv(w, n, k) && EnvOk(w, retry)
    requires n.pending.None?
    ensures var m := FinishRecovery(p, n, env, retry);
            Moving(w, n, k, false, m, k') && !Stale(m)
  {
    k' := RetriedExtends(w, p, n, k, env, retry, FinishRecovery(p, n, env, retry));
  }

  lemma RetriedExtends(w: World, p: Params, n: NodeState, k: nat, env: Env, retry: Env, o: NodeState) returns (k': nat)
    requires Trust(w) && p.lib == w.lib && Inv(w, n, k) && EnvOk(w, retry)
    requires var m := Rejoined(n, env);
             o == if m.lastProposal.None? then m else HandleProposal(p, m, m.lastProposal, retry).node.(lastProposal := None)
    requires n.pending.None?
    ensures Moving(w, n, k, false, o, k') && !Stale(o)
  {
    var m := Rejoined(n, env);
    SetStatusKeeps(w, n, k, Normal);
    StartNewRoundKeeps(w, n.(status := Normal), k, env);
    k' := k;
    if m.lastProposal.Some? {
      k' := ProposalLinks(w, p, m, k, m.lastProposal, retry);
      RetryExtends(w, n, m, k, HandleProposal(p, m, m.lastProposal, retry).node, k');
    }
  }

  lemma RetryExtends(w: World, n: NodeState, m: NodeState, k: nat, r: NodeState, k': nat)
    requires m.pending.None? && m.blocks == n.blocks && m.tx == n.tx && Linking(w, m, k, false, r, k')
    ensures var o := r.(lastProposal := None);
            Moving(w, n, k, false, o, k') && !Stale(o)
  {
  }

  /** A recovering node has no pending proposal, and none that does not link when it is done. */
  lemma AppliedExtends(w: World, p: Params, n: NodeState, k: nat, blocks: seq<Block>, envs: seq<Env>, env: Env, retry: Env) returns (k': nat)
    requires Trust(w) && p.lib == w.lib && Inv(w, n, k) && n.status.Recovering? && EnvOk(w, retry)
    requires |envs| == |blocks| && forall i :: 0 <= i < |envs| ==> EnvOk(w, envs[i])
    ensures var applied := ApplyBlocks(p, n, blocks, envs);
            var m := if !applied.ok || !RecoveryComplete(applied.node) then applied.node else FinishRecovery(p, applied.node, env, retry);
            Moving(w, n, k, false, m, k') && StaleFrom(n, m)
  {
    k' := BlocksExtend(w, p, n, k, blocks, envs);
    var applied := ApplyBlocks(p, n, blocks, envs);
    if applied.ok && RecoveryComplete(applied.node) {
      var j := k';
      k' := FinishExtends(w, p, applied.node, j, env, retry);
      MovingJoin(w, n, k, applied.node, j, FinishRecovery(p, applied.node, env, retry), k');
    }
  }

  lemma UnchangedMoves(w: World, n: NodeState, k: nat, m: NodeState)
    requires Inv(w, n, k) && (m == n || (n.status.Recovering? && m == n.(status := Normal)))
    ensures Moving(w, n, k, false, m, k) && StaleFrom(n, m)
  {
    SetStatusKeeps(w, n, k, Normal);
  }

  /** What a response comes to. */
  ghost predicate ResponseOutcome(p: Params, n: NodeState, resp: ReplicationResponse, envs: seq<Env>, env: Env, retry: Env, o: NodeState)
    requires Healthy(n) && (resp.blocks.Some? ==> |envs| == |resp.blocks.value|)
  {
    if n.status.Recovering? && resp.status.Ok? && resp.blocks.Some? && CommittedRound(n) < resp.first then
      var applied := ApplyBlocks(p, n, resp.blocks.value, envs);
      o == if !applied.ok || !RecoveryComplete(applied.node) then applied.node else FinishRecovery(p, applied.node, env, retry)
    else o == n || (n.status.Recovering? && o == n.(status := Normal))
  }

  lemma ResponseIsHandled(p: Params, n: NodeState, resp: ReplicationResponse, envs: seq<Env>, env: Env, retry: Env)
    requires Healthy(n) && (resp.blocks.Some? ==> |envs| == |resp.blocks.value|)
    ensures ResponseOutcome(p, n, resp, envs, env, retry, HandleReplicationResponse(p, n, resp, envs, env, retry))
  {
  }

  lemma ResponseExtends(w: World, p: Params, n: NodeState, k: nat, resp: ReplicationResponse, envs: seq<Env>, env: Env, retry: Env, o: NodeState)
    returns (k': nat)
    requires Trust(w) && p.lib == w.lib && Inv(w, n, k) && EnvOk(w, retry)
    requires resp.blocks.Some? ==> |envs| == |resp.blocks.value|
    requires forall i :: 0 <= i < |envs| ==> EnvOk(w, envs[i])
    requires ResponseOutcome(p, n, resp, envs, env, retry, o)
    ensures Moving(w, n, k, false, o, k') && StaleFrom(n, o)
  {
    if n.status.Recovering? && resp.status.Ok? && resp.blocks.Some? && CommittedRound(n) < resp.first {
      k' := AppliedExtends(w, p, n, k, resp.blocks.value, envs, env, retry);
    } else {
      k' := k;
      UnchangedMoves(w, n, k, o);
    }
  }

  // ---- restarts ----

  /** A block that was left in the store after the committed one, if there is one, points to the committed block. */
  ghost predicate LeftoverLinks(n: NodeState) {
    n.blocks != map[] && CommittedRound(n) < LastRound(n.blocks) ==>
      SameBytes(n.blocks[LastRound(n.blocks)].header.previousBlockHash, BlockHashOf(n.tx.committedUC))
  }

  /** The restart takes up a proposal of a round after the last block whose header does not point to that block. */
  ghost predicate TakesUpStale(p: Params, n: NodeState, env: Env)
    requires ParamsOk(p)
  {
    TakesUpUnlinked(p, n, env) && RoundOf(LastCertificate(n)) < n.stored.value.cert.value.ir.round
  }

  lemma RestartLinks(w: World, p: Params, n: NodeState, k: nat, env: Env) returns (k': nat)
    requires Increasing(w.rc) && Inv(w, n, k) && ParamsOk(p) && EnvOk(w, env) && SafeToRestart(n)
    requires InitState(p, n.blocks, n.stored, env).Some?
    ensures var m := InitState(p, n.blocks, n.stored, env).value;
            k' <= k + 1 && Moving(w, n, k, !LeftoverLinks(n), m, k')
  {
    k' := RestartKeeps(w, p, n, k, env);
    RestartRestores(p, n, env);
    RestartMoves(w, n, k, InitState(p, n.blocks, n.stored, env).value, k');
  }

  lemma RestartMoves(w: World, n: NodeState, k: nat, m: NodeState, k': nat)
    requires Increasing(w.rc) && Inv(w, n, k) && Inv(w, m, k') && k <= k' <= k + 1
    requires m.blocks == n.blocks && m.tx.committedUC == LastCertificate(n)
    ensures Moving(w, n, k, !LeftoverLinks(n), m, k')
  {
    RecordOrder(w.rc, k, k');
    if n.blocks == map[] {
      assert k >= 1 ==> Holds(w, n.blocks, k);
    } else {
      LeftoverIsNext(w, n, k, k');
      if k' == k + 1 && k + 2 < |w.rc.records| {
        NothingFurther(w, n.blocks, k);
      }
    }
  }

  lemma LeftoverIsNext(w: World, n: NodeState, k: nat, k': nat)
    requires Increasing(w.rc) && Inv(w, n, k) && k <= k' && At(w.rc, LastCertificate(n), k') && n.blocks != map[]
    ensures if LeftoverLinks(n) then forall i: nat :: k < i <= k' ==> BlockLinks(w.rc, n.blocks, i)
            else k' == k + 1 && !BlockLinks(w.rc, n.blocks, k + 1)
  {
    var last := LastBlock(w, n.blocks, k);
    assert Holds(w, n.blocks, last);
    OnePlace(w.rc, LastCertificate(n), k', last);
    RecordOrder(w.rc, k, k');
  }

  lemma RestartStale(p: Params, n: NodeState, env: Env)
    requires ParamsOk(p) && SafeToRestart(n) && InitState(p, n.blocks, n.stored, env).Some?
    ensures Stale(InitState(p, n.blocks, n.stored, env).value) <==> TakesUpStale(p, n, env)
  {
    RestartRestores(p, n, env);
    TakenUpIff(p, n, env);
  }

  // ---- steps and runs ----

  /** The event finalizes the pending proposal. */
  ghost predicate FinalizesBy(p: Params, n: NodeState, e: Event) {
    match e
    case OnCertificate(cr, env) =>
      && ResponseValid(p.lib, cr) && cr.partition == p.partition && cr.shard == p.shard
      && Finalizes(p, n, cr.uc, Some(cr.technical), env)
    case OnProposal(prop, env) => FinalizesInside(p, n, prop, env)
    case _ => false
  }

  /** The event commits a block that does not link: the stale proposal, or at a restart a block left in the store. */
  ghost predicate UnlinksNow(p: Params, stale: bool, n: NodeState, e: Event)
    requires ParamsOk(p)
  {
    if e.OnRestart? then InitState(p, n.blocks, n.stored, e.env).Some? && !LeftoverLinks(n)
    else stale && FinalizesBy(p, n, e)
  }

  /** After the event a stale proposal is pending: the restart takes one up, or it is the one there was. */
  ghost predicate StaleAfter(p: Params, stale: bool, n: NodeState, e: Event)
    requires ParamsOk(p) && Healthy(n) && EventOk(e)
  {
    if e.OnRestart? && InitState(p, n.blocks, n.stored, e.env).Some? then TakesUpStale(p, n, e.env)
    else stale && Step(p, n, e).pending == n.pending && Step(p, n, e).tx.committedUC == n.tx.committedUC
  }

  lemma RestartStepLinks(w: World, p: Params, n: NodeState, k: nat, e: Event) returns (k': nat)
    requires Trust(w) && ParamsOk(p) && p.lib == w.lib && Inv(w, n, k) && Permitted(w, n, e) && e.OnRestart?
    ensures Moving(w, n, k, UnlinksNow(p, Stale(n), n, e), Step(p, n, e), k')
    ensures Stale(Step(p, n, e)) <==> StaleAfter(p, Stale(n), n, e)
  {
    if InitState(p, n.blocks, n.stored, e.env).Some? {
      k' := RestartLinks(w, p, n, k, e.env);
      RestartStale(p, n, e.env);
    } else {
      k' := k;
    }
  }

  lemma QuietStepProposes(p: Params, n: NodeState, e: Event)
    requires ParamsOk(p) && Healthy(n) && EventOk(e) && (e.OnRequest? || e.OnT1? || e.OnEpochChange? || e.OnWorker?)
    ensures OnlyProposes(n, Step(p, n, e))
  {
    if e.OnT1? {
      TimeoutProposes(p, n, e.env);
    }
  }

  lemma ProposesLinks(w: World, n: NodeState, k: nat, m: NodeState, k': nat)
    requires Increasing(w.rc) && Inv(w, n, k) && Inv(w, m, k') && OnlyProposes(n, m)
    ensures Linking(w, n, k, false, m, k')
  {
    OnePlace(w.rc, n.tx.committedUC, k, k');
  }

  lemma MessageLinks(w: World, p: Params, n: NodeState, k: nat, e: Event) returns (k': nat)
    requires Trust(w) && ParamsOk(p) && p.lib == w.lib && Inv(w, n, k) && Permitted(w, n, e)
    requires e.OnCertificate? || e.OnProposal?
    ensures Linking(w, n, k, Stale(n) && FinalizesBy(p, n, e), Step(p, n, e), k')
  {
    match e
    case OnCertificate(cr, env) =>
      k' := k;
      if ResponseValid(p.lib, cr) && cr.partition == p.partition && cr.shard == p.shard {
        k' := CertificateLinks(w, p, n, k, cr.uc, Some(cr.technical), env);
      }
    case OnProposal(prop, env) => k' := ProposalLinks(w, p, n, k, prop, env);
  }

  lemma PendingIsStale(n: NodeState, m: NodeState)
    requires PendingFrom(n, m)
    ensures StaleFrom(n, m)
  {
  }

  lemma EventLinks(w: World, p: Params, n: NodeState, k: nat, e: Event) returns (k': nat)
    requires Trust(w) && ParamsOk(p) && p.lib == w.lib && Inv(w, n, k) && Permitted(w, n, e) && !e.OnRestart?
    ensures Moving(w, n, k, Stale(n) && FinalizesBy(p, n, e), Step(p, n, e), k') && StaleFrom(n, Step(p, n, e))
  {
    if e.OnResponse? {
      ResponseIsHandled(p, n, e.resp, e.envs, e.env, e.retry);
      k' := ResponseExtends(w, p, n, k, e.resp, e.envs, e.env, e.retry, Step(p, n, e));
    } else {
      if e.OnCertificate? || e.OnProposal? {
        k' := MessageLinks(w, p, n, k, e);
      } else {
        k' := StepKeeps(w, p, n, k, e);
        QuietStepProposes(p, n, e);
        ProposesLinks(w, n, k, Step(p, n, e), k');
      }
      PendingIsStale(n, Step(p, n, e));
    }
  }

  /** No step changes a committed block, and a step commits a block that does not link exactly when UnlinksNow says so. */
  lemma StepLinks(w: World, p: Params, n: NodeState, k: nat, e: Event) returns (k': nat)
    requires Trust(w) && ParamsOk(p) && p.lib == w.lib && Inv(w, n, k) && Permitted(w, n, e)
    ensures Moving(w, n, k, UnlinksNow(p, Stale(n), n, e), Step(p, n, e), k')
    ensures Stale(Step(p, n, e)) <==> StaleAfter(p, Stale(n), n, e)
  {
    if e.OnRestart? {
      k' := RestartStepLinks(w, p, n, k, e);
    } else {
      k' := EventLinks(w, p, n, k, e);
    }
  }

  /** The ledger links after the move if and only if it did before and the move is over blocks that link. */
  lemma LinkedOverMove(w: World, n: NodeState, k: nat, unlinks: bool, m: NodeState, k': nat)
    requires Increasing(w.rc) && Inv(w, n, k) && Moving(w, n, k, unlinks, m, k')
    ensures LinkedUpTo(w.rc, m.blocks, k') <==> LinkedUpTo(w.rc, n.blocks, k) && !unlinks
  {
    forall i: nat | 1 <= i <= k
      ensures BlockLinks(w.rc, n.blocks, i) <==> BlockLinks(w.rc, m.blocks, i)
    {
      SameBlocks(w.rc, n, k, m, i);
    }
  }

  /** No event of the run commits a block that does not link; `stale` says that a stale proposal is pending at its start. */
  ghost predicate NeverUnlinks(p: Params, stale: bool, n: NodeState, events: seq<Event>)
    requires ParamsOk(p) && Healthy(n) && forall i :: 0 <= i < |events| ==> EventOk(events[i])
    decreases |events|
  {
    events == [] ||
    (&& !UnlinksNow(p, stale, n, events[0])
     && NeverUnlinks(p, StaleAfter(p, stale, n, events[0]), Step(p, n, events[0]), events[1..]))
  }

  lemma UntouchedJoin(n: NodeState, m: NodeState, o: NodeState)
    requires Untouched(n, m) && Untouched(m, o)
    ensures Untouched(n, o)
  {
  }

  /** A ledger that does not link stays that way. */
  lemma {:induction false} RunLinks(w: World, p: Params, n: NodeState, k: nat, events: seq<Event>) returns (k': nat)
    requires Trust(w) && ParamsOk(p) && p.lib == w.lib && Inv(w, n, k) && PermittedRun(w, p, n, events)
    ensures forall i :: 0 <= i < |events| ==> EventOk(events[i])
    ensures k <= k' && Inv(w, Run(p, n, events), k') && Untouched(n, Run(p, n, events))
    ensures LinkedUpTo(w.rc, Run(p, n, events).blocks, k') <==> LinkedUpTo(w.rc, n.blocks, k) && NeverUnlinks(p, Stale(n), n, events)
    decreases |events|
  {
    PermittedEventsOk(w, p, n, events);
    if events == [] {
      k' := k;
    } else {
      var m := Step(p, n, events[0]);
      var j := StepLinks(w, p, n, k, events[0]);
      LinkedOverMove(w, n, k, UnlinksNow(p, Stale(n), n, events[0]), m, j);
      k' := RunLinks(w, p, m, j, events[1..]);
      UntouchedJoin(n, m, Run(p, m, events[1..]));
    }
  }

  /**
   Over every run that starts with a linked ledger the headers of the committed blocks form a chain at the
   end, if and only if no certificate finalizes a proposal of a round after the last block that a restart
   took up although its header does not point to that block, and no restart finds such a block left over.
   Committed blocks are the same at the end as at the start.
   */
  lemma LedgerLinkedIff(w: World, p: Params, n: NodeState, k: nat, events: seq<Event>)
    requires Trust(w) && ParamsOk(p) && p.lib == w.lib && Inv(w, n, k) && PermittedRun(w, p, n, events) && HeadersLink(n)
    ensures forall i :: 0 <= i < |events| ==> EventOk(events[i])
    ensures HeadersLink(Run(p, n, events)) <==> NeverUnlinks(p, Stale(n), n, events)
    ensures Untouched(n, Run(p, n, events))
  {
    var k' := RunLinks(w, p, n, k, events);
    HeadersAreRecords(w, n, k);
    HeadersAreRecords(w, Run(p, n, events), k');
  }

  lemma GenesisLedgerLinkedIff(w: World, p: Params, events: seq<Event>)
    requires Trust(w) && ParamsOk(p) && p.lib == w.lib && PermittedRun(w, p, Genesis(p), events)
    ensures forall i :: 0 <= i < |events| ==> EventOk(events[i])
    ensures HeadersLink(Run(p, Genesis(p), events)) <==> NeverUnlinks(p, false, Genesis(p), events)
  {
    GenesisInv(w, p);
    HeadersAreRecords(w, Genesis(p), 0);
    LedgerLinkedIff(w, p, Genesis(p), 0, events);
  }
}
