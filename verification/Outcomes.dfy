/**
 What certificates, proposals and recovered blocks come to, in terms of the message, the node and the
 answers of the environment: when a certificate is taken, when recovery starts, when a block is applied,
 and which proposal is retried after recovery.
 */
module Outcomes {
  import opened Types
  import opened TxModel
  import opened NodeModel
  import opened RootChain
  import opened Safety
  import opened Runs
  import opened Links

  // ---- what messages must be like ----

  /** The record with all byte strings by content. */
  function ByContent(ir: InputRecord): InputRecord {
    InputRecord(ir.round, ir.epoch, Bytes(Content(ir.previousHash)), Bytes(Content(ir.hash)), Bytes(Content(ir.summaryValue)),
      ir.timestamp, Bytes(Content(ir.blockHash)), ir.sumOfEarnedFees, Bytes(Content(ir.etHash)))
  }

  /** The comparison of records leaves no field out. */
  lemma EqualIffSame(a: InputRecord, b: InputRecord)
    ensures EqualIR(a, b) <==> ByContent(a) == ByContent(b)
  {
  }

  /** The technical record has a round, a leader and both hashes. */
  ghost predicate Whole(tr: TechnicalRecord) {
    tr.round > 0 && |tr.leader| > 0 && |Content(tr.statHash)| > 0 && |Content(tr.feeHash)| > 0
  }

  /** The response is for this partition and shard, in every place that names one, with a technical record that its certificate binds. */
  ghost predicate ForThisNode(p: Params, cr: CertificationResponse) {
    && cr.partition == p.partition > 0 && cr.shard == p.shard && cr.treePartition == Some(p.partition)
    && Whole(cr.technical) && SameBytes(p.lib.trHash(cr.technical), cr.uc.trHash)
  }

  /** The proposal is for this shard, from a validator of the epoch, signed, with a certificate that verifies and binds its technical record. */
  ghost predicate Genuine(p: Params, epoch: U64, prop: Proposal) {
    && prop.partition == p.partition && prop.shard == p.shard
    && |prop.node| > 0 && p.lib.validator(epoch, prop.node) && p.lib.signed(prop)
    && prop.uc.Some? && p.lib.verify(prop.uc.value, None)
    && Whole(prop.technical) && SameBytes(p.lib.trHash(prop.technical), prop.uc.value.trHash)
  }

  // ---- which certificates are taken ----

  /** The certificate verifies, with the configuration of its epoch if that is the active one, and does not contradict the latest one. */
  ghost predicate Acceptable(p: Params, n: NodeState, uc: Certificate) {
    && p.lib.verify(uc, if uc.ir.epoch == n.confEpoch then Some(n.confEpoch) else None)
    && (n.luc.Some? ==> p.lib.consistent(n.luc.value, uc))
  }

  /** It is taken: the leader that comes with it can be decoded, or is known already. */
  ghost predicate Taken(p: Params, n: NodeState, uc: Certificate, tr: Option<TechnicalRecord>) {
    && Acceptable(p, n, uc)
    && (tr.None? || p.lib.decodePeer(tr.value.leader).Some? || (n.ltr.Some? && uc.rootRound == RootRoundOf(n.luc)))
  }

  lemma UpdateIff(p: Params, n: NodeState, uc: Certificate, tr: Option<TechnicalRecord>)
    requires n.status.Recovering? ==> RootRoundOf(n.luc) <= uc.rootRound
    ensures UpdateLUC(p, n, uc, tr).ok <==> Taken(p, n, uc, tr)
    ensures !Taken(p, n, uc, tr) ==> UpdateLUC(p, n, uc, tr).node == n
  {
  }

  /**
   A certificate that is taken becomes the latest one and the technical record that comes with it is taken
   over with its leader, also when the certificate itself is a duplicate.
   */
  lemma RecordTaken(w: World, p: Params, n: NodeState, uc: Certificate, tr: TechnicalRecord)
    requires Trust(w) && p.lib == w.lib && Latest(w, n) && Bound(w.lib, n) && Attached(w.lib, uc, Some(tr))
    requires n.status.Recovering? ==> RootRoundOf(n.luc) <= uc.rootRound
    requires UpdateLUC(p, n, uc, Some(tr)).ok
    ensures var m := UpdateLUC(p, n, uc, Some(tr)).node;
            m.luc == Some(uc) && m.ltr == Some(tr) && Some(m.leader) == w.lib.decodePeer(tr.leader)
  {
    assert Issued(w.rc, uc);
    if IsDuplicate(uc, n.luc) && n.ltr.Some? {
      IssuedInOrder(w.rc, uc, n.luc.value);
      assert SameBytes(w.lib.trHash(n.ltr.value), w.lib.trHash(tr));
    }
  }

  /** The epoch the node is in once it has the certificate and the technical record. */
  function EpochOf(uc: Certificate, tr: Option<TechnicalRecord>): U64 {
    if tr.Some? then tr.value.epoch else uc.ir.epoch
  }

  /**
   A certificate that brings a node into another epoch schedules an epoch change, and so does every one
   that finds the active configuration lagging behind, so that a failed load is tried again.
   */
  lemma EpochChangeIff(p: Params, n: NodeState, uc: Certificate, tr: Option<TechnicalRecord>)
    requires Taken(p, n, uc, tr) && !(n.ltr.Some? && uc.rootRound == RootRoundOf(n.luc))
    requires n.status.Recovering? ==> RootRoundOf(n.luc) <= uc.rootRound
    ensures var m, epoch := UpdateLUC(p, n, uc, tr).node, EpochOf(uc, tr);
            && CurrentEpoch(m) == epoch
            && (m.epochEvent <==> n.epochEvent || CurrentEpoch(n) != epoch || n.confEpoch != epoch)
  {
  }

  lemma ActKeepsLatest(p: Params, n: NodeState, m: NodeState, uc: Certificate, env: Env)
    ensures var o := ActOnCertificate(p, n, m, uc, env).node; o.luc == m.luc && o.ltr == m.ltr && o.leader == m.leader
  {
    CertificateIsActedOn(p, n, m, uc, env);
    if m.pending.Some? {
      CertifyKeepsLatest(m, uc, env);
    }
  }

  lemma CertifyKeepsLatest(n: NodeState, uc: Certificate, env: Env)
    requires n.pending.Some?
    ensures var o := CertifyProposal(n, uc, env).node; o.luc == n.luc && o.ltr == n.ltr && o.leader == n.leader
  {
  }

  /**
   What a certification response leaves behind: the certificate, technical record and leader it carries if
   and only if it is for this shard and is taken, and otherwise the node as it was. A recovering node
   passes over older certificates.
   */
  lemma ResponseTakenIff(w: World, p: Params, n: NodeState, k: nat, cr: CertificationResponse, env: Env)
    requires Trust(w) && p.lib == w.lib && Inv(w, n, k) && (n.status.Recovering? ==> RootRoundOf(n.luc) <= cr.uc.rootRound)
    ensures var m, tr := HandleCertificationResponse(p, n, cr, env).node, cr.technical;
            if ForThisNode(p, cr) && Taken(p, n, cr.uc, Some(tr))
            then m.luc == Some(cr.uc) && m.ltr == Some(tr) && Some(m.leader) == w.lib.decodePeer(tr.leader)
            else m == n && !HandleCertificationResponse(p, n, cr, env).ok
  {
    var uc, tr := cr.uc, Some(cr.technical);
    UpdateIff(p, n, uc, tr);
    if ForThisNode(p, cr) && Taken(p, n, uc, tr) {
      RecordTaken(w, p, n, uc, cr.technical);
      ActKeepsLatest(p, n, UpdateLUC(p, n, uc, tr).node.(status := Normal), uc, env);
    }
  }

  // ---- when recovery starts ----

  /** The record of the latest certificate is certified again in a later root round. */
  ghost predicate Repeats(n: NodeState, uc: Certificate) {
    n.luc.Some? && ByContent(uc.ir) == ByContent(n.luc.value.ir) && n.luc.value.rootRound < uc.rootRound
  }

  /** The pending proposal asks for this very record. */
  ghost predicate AskedFor(n: NodeState, ir: InputRecord) {
    n.pending.Some? && n.pending.value.cert.Some? && ByContent(n.pending.value.cert.value.ir) == ByContent(ir)
  }

  lemma AskedForIff(n: NodeState, uc: Certificate)
    ensures Repeats(n, uc) <==> IsRepeat(uc, n.luc)
    ensures AskedFor(n, uc.ir) <==> PendingFor(n, uc.ir)
  {
    if n.luc.Some? {
      EqualIffSame(uc.ir, n.luc.value.ir);
    }
    if n.pending.Some? && n.pending.value.cert.Some? {
      EqualIffSame(n.pending.value.cert.value.ir, uc.ir);
    }
  }

  /** The node cannot follow the certificate: a gap, another state, another proposal, or a block that cannot be stored or committed. */
  ghost predicate Misses(p: Params, n: NodeState, uc: Certificate, env: Env) {
    || !p.lib.successor(uc, n.tx.committedUC)
    || (&& n.pending.None? && !p.lib.initial(uc)
        && (n.tx.pendingHash != Nil || !SameBytes(uc.ir.hash, n.tx.committedHash) || Content(uc.ir.etHash) != []))
    || (n.pending.Some? && !AskedFor(n, uc.ir))
    || (AskedFor(n, uc.ir) && env.sealOk && (!env.writeOk || !SameBytes(n.tx.pendingHash, uc.ir.hash)))
  }

  /** Recovery has started: everything tentative is dropped and the next request asks for the blocks after the committed one. */
  ghost predicate StartsRecovery(p: Params, n: NodeState, m: NodeState) {
    && m.status.Recovering? && m.pending.None? && m.stored == n.stored && m.lastProposal == n.lastProposal
    && m.tx == n.tx.(pendingHash := Nil, pendingHeight := 0)
    && NextRequest(p, m).begin == Add64(CommittedRound(n), 1)
  }

  /** The pending proposal is dropped, from the store too if that can be done. */
  ghost predicate RoundStarted(n: NodeState, m: NodeState, env: Env) {
    m.pending.None? && m.stored == if env.pendingDeleteOk then None else n.stored
  }

  /** What becomes of the node when it can follow the certificate. */
  ghost predicate Settles(p: Params, n: NodeState, uc: Certificate, env: Env, m: NodeState, ok: bool) {
    && m.status.Normal? && m.lastProposal == n.lastProposal
    && if uc.rootRound == RootRoundOf(n.luc) then
         && ok && m.tx == n.tx && m.blocks == n.blocks
         && if n.status.Initializing? then RoundStarted(n, m, env) else m.pending == n.pending && m.stored == n.stored
       else if Repeats(n, uc) then
         ok && m.tx == n.tx.(pendingHash := Nil, pendingHeight := 0) && m.blocks == n.blocks && RoundStarted(n, m, env)
       else if n.pending.None? then
         ok && m.tx == n.tx && m.blocks == n.blocks && RoundStarted(n, m, env)
       else if !env.sealOk then
         !ok && m.tx == n.tx && m.blocks == n.blocks && m.stored == n.stored && m.pending == Some(n.pending.value.(cert := None))
       else
         && ok && RoundStarted(n, m, env)
         && m.tx == n.tx.(committedHash := n.tx.pendingHash, committedHeight := n.tx.pendingHeight, committedUC := Some(uc), pendingHash := Nil, pendingHeight := 0)
         && m.blocks == n.blocks[uc.ir.round := n.pending.value.(cert := Some(uc))]
  }

  /** A certificate for the root round of the latest one, or once more for its record. */
  ghost predicate NothingNew(n: NodeState, uc: Certificate) {
    uc.rootRound == RootRoundOf(n.luc) || Repeats(n, uc)
  }

  lemma WithoutProposalOutcome(p: Params, n: NodeState, m: NodeState, uc: Certificate, env: Env)
    requires m == n.(luc := m.luc, ltr := m.ltr, leader := m.leader, epochEvent := m.epochEvent, status := Normal)
    requires !NothingNew(n, uc) && p.lib.successor(uc, n.tx.committedUC) && n.pending.None?
    ensures var o := CertifyWithoutProposal(p, m, uc, env);
            if Misses(p, n, uc, env) then !o.ok && StartsRecovery(p, n, o.node) else Settles(p, n, uc, env, o.node, o.ok)
  {
  }

  lemma WithProposalOutcome(p: Params, n: NodeState, m: NodeState, uc: Certificate, env: Env)
    requires m == n.(luc := m.luc, ltr := m.ltr, leader := m.leader, epochEvent := m.epochEvent, status := Normal)
    requires !NothingNew(n, uc) && p.lib.successor(uc, n.tx.committedUC) && n.pending.Some?
    ensures var o := CertifyProposal(m, uc, env);
            if Misses(p, n, uc, env) then !o.ok && StartsRecovery(p, n, o.node) else Settles(p, n, uc, env, o.node, o.ok)
  {
    AskedForIff(n, uc);
    if AskedFor(n, uc.ir) && env.sealOk {
      FinalizeChanges(m, n.pending.value.(cert := Some(uc)), uc, env);
    }
  }

  lemma OtherOutcome(p: Params, n: NodeState, m: NodeState, uc: Certificate, env: Env)
    requires m == n.(luc := m.luc, ltr := m.ltr, leader := m.leader, epochEvent := m.epochEvent, status := Normal)
    requires NothingNew(n, uc) || !p.lib.successor(uc, n.tx.committedUC)
    ensures var o := ActOnCertificate(p, n, m, uc, env);
            if !NothingNew(n, uc) then !o.ok && StartsRecovery(p, n, o.node) else Settles(p, n, uc, env, o.node, o.ok)
  {
    AskedForIff(n, uc);
  }

  /**
   A node that is not recovering starts recovery on a certificate if and only if the certificate is taken,
   is new, and the node cannot follow it. A certificate that is not taken changes nothing, and every other
   one leaves the node in normal operation, settled on what the certificate says.
   */
  lemma RecoveryStartsIff(p: Params, n: NodeState, uc: Certificate, tr: Option<TechnicalRecord>, env: Env)
    requires !n.status.Recovering?
    ensures var o := HandleCertificate(p, n, uc, tr, env);
            && (o.node.status.Recovering? <==> Taken(p, n, uc, tr) && !NothingNew(n, uc) && Misses(p, n, uc, env))
            && (o.node.status.Recovering? ==> !o.ok && StartsRecovery(p, n, o.node))
            && (!Taken(p, n, uc, tr) ==> o == Outcome(n, false))
            && (Taken(p, n, uc, tr) && !o.node.status.Recovering? ==> Settles(p, n, uc, env, o.node, o.ok))
  {
    UpdateIff(p, n, uc, tr);
    AskedForIff(n, uc);
    if Taken(p, n, uc, tr) {
      var m := UpdateLUC(p, n, uc, tr).node.(status := Normal);
      if NothingNew(n, uc) || !p.lib.successor(uc, n.tx.committedUC) {
        OtherOutcome(p, n, m, uc, env);
      } else if n.pending.None? {
        WithoutProposalOutcome(p, n, m, uc, env);
      } else {
        WithProposalOutcome(p, n, m, uc, env);
      }
    }
  }

  /**
   A node that is behind notices: whenever a new certificate for any record after the committed one is
   taken, the node either recovers, or has committed that record, or the record is the next one, which
   left the state as it is or could not be set on the node's own matching proposal.
   */
  lemma MissedBlockIsNoticed(w: World, p: Params, n: NodeState, k: nat, uc: Certificate, tr: Option<TechnicalRecord>, env: Env, i: nat)
    requires Trust(w) && p.lib == w.lib && Inv(w, n, k) && !n.status.Recovering?
    requires Taken(p, n, uc, tr) && !NothingNew(n, uc) && k < i < |w.rc.records| && uc.ir == w.rc.records[i]
    ensures var m := HandleCertificate(p, n, uc, tr, env).node;
            || m.status.Recovering?
            || (i == k + 1 && m.tx.committedUC == Some(uc))
            || (i == k + 1 && n.pending.None? && (p.lib.initial(uc) || SameBytes(uc.ir.hash, n.tx.committedHash)))
            || (i == k + 1 && AskedFor(n, uc.ir) && !env.sealOk)
  {
    RecoveryStartsIff(p, n, uc, tr, env);
    assert Issued(w.rc, uc) && At(w.rc, n.tx.committedUC, k);
    RecordOrder(w.rc, 0, i);
    if p.lib.successor(uc, n.tx.committedUC) {
      RecordOrder(w.rc, i, k + 1);
      RecordOrder(w.rc, k + 1, i);
    }
  }

  // ---- proposals ----

  /**
   What becomes of a proposal: a recovering node remembers it; one that is not genuine, or whose
   certificate is older than the latest one, changes nothing; a newer certificate is handled first, like any
   other, and if that goes well, or the certificate is known, the proposal is followed.
   */
  lemma ProposalOutcome(p: Params, n: NodeState, prop: Option<Proposal>, env: Env)
    requires Healthy(n)
    ensures var o := HandleProposal(p, n, prop, env);
            if n.status.Recovering? then o == RoundOutcome(n.(lastProposal := prop), None, None)
            else if prop.None? || !Genuine(p, n.confEpoch, prop.value) || prop.value.uc.value.rootRound < RootRoundOf(n.luc) then
              o == RoundOutcome(n, None, None)
            else if prop.value.uc.value.rootRound == RootRoundOf(n.luc) then
              o == FollowProposal(p, n, prop.value, env)
            else
              var handled := HandleCertificate(p, n, prop.value.uc.value, Some(prop.value.technical), env);
              o == if handled.ok then FollowProposal(p, handled.node, prop.value, env) else RoundOutcome(handled.node, None, None)
  {
  }

  /** A proposal with a newer certificate tells a node the round and its leader: certificate, technical record and leader are taken over. */
  lemma ProposalTellsLeader(w: World, p: Params, n: NodeState, k: nat, prop: Proposal, env: Env)
    requires Trust(w) && p.lib == w.lib && Inv(w, n, k) && !n.status.Recovering?
    requires Genuine(p, n.confEpoch, prop) && RootRoundOf(n.luc) < prop.uc.value.rootRound
    ensures var m, uc, tr := HandleProposal(p, n, Some(prop), env).node, prop.uc.value, prop.technical;
            if Taken(p, n, uc, Some(tr))
            then m.luc == Some(uc) && m.ltr == Some(tr) && Some(m.leader) == w.lib.decodePeer(tr.leader)
            else m == n
  {
    var uc, tr := prop.uc.value, Some(prop.technical);
    ProposalOutcome(p, n, Some(prop), env);
    UpdateIff(p, n, uc, tr);
    if Taken(p, n, uc, tr) {
      RecordTaken(w, p, n, uc, prop.technical);
      ActKeepsLatest(p, n, UpdateLUC(p, n, uc, tr).node.(status := Normal), uc, env);
    }
  }

  // ---- recovered blocks ----

  /** The latest certificate takes in that of the block: it verifies and, unless it is older, does not contradict the latest one. */
  ghost predicate TakenIn(p: Params, n: NodeState, uc: Certificate) {
    && p.lib.verify(uc, if uc.ir.epoch == n.confEpoch then Some(n.confEpoch) else None)
    && (uc.rootRound < RootRoundOf(n.luc) || (n.luc.Some? ==> p.lib.consistent(n.luc.value, uc)))
  }

  /** The block hashes to what its certificate says, and that certificate is taken in. */
  ghost predicate Authentic(p: Params, n: NodeState, b: Block) {
    && b.cert.Some?
    && SameBytes(b.cert.value.ir.blockHash, p.lib.blockHash(b.header, b.cert.value.ir.hash, b.cert.value.ir.previousHash))
    && TakenIn(p, n, b.cert.value)
  }

  /** It is the next block of the ledger: by its certificate, its header and the state it starts from, which is free at genesis. */
  ghost predicate IsNext(p: Params, n: NodeState, b: Block)
    requires b.cert.Some?
  {
    && p.lib.successor(b.cert.value, n.tx.committedUC)
    && SameBytes(b.header.previousBlockHash, BlockHashOf(n.tx.committedUC))
    && (n.tx.committedUC.Some? ==> SameBytes(b.cert.value.ir.previousHash, n.tx.committedHash))
  }

  /** Its root verifies, its summary is plain, and it can be stored. */
  ghost predicate Passes(n: NodeState, b: Block, env: Env)
    requires b.cert.Some?
  {
    && (SameBytes(b.cert.value.ir.hash, n.tx.committedHash) || Confirmed(n.tx.dFG, env.pow, b.cert.value.ir.hash))
    && Plain(b.cert.value.ir) && env.writeOk
  }

  lemma TakenInIff(p: Params, n: NodeState, b: Block)
    requires b.cert.Some? && n.status.Recovering?
    ensures BlockValid(p.lib, b) && UpdateLUC(p, n, b.cert.value, None).ok <==> Authentic(p, n, b)
  {
  }

  lemma ApplyOutcome(p: Params, n: NodeState, b: Block, env: Env)
    requires n.status.Recovering? && n.tx.pendingHash == Nil && b.cert.Some? && p.lib.successor(b.cert.value, n.tx.committedUC)
    ensures var o, uc := ApplyVerified(p, n, b, b.cert.value, env), b.cert.value;
            if IsNext(p, n, b) && Passes(n, b, env) then
              && o.ok && o.node.tx.committedUC == b.cert && o.node.tx.committedHash == uc.ir.hash && o.node.tx.pendingHash == Nil
              && o.node.blocks == n.blocks[uc.ir.round := b]
            else
              !o.ok && o.node.blocks == n.blocks && o.node.tx == if IsNext(p, n, b) then n.tx.(pendingHeight := 0) else n.tx
  {
    if IsNext(p, n, b) {
      NextOutcome(p, n, b, env, FollowerVerify(n.tx, env.pow, b.cert.value.ir.hash));
    }
  }

  lemma NextOutcome(p: Params, n: NodeState, b: Block, env: Env, verified: Option<TxState>)
    requires n.status.Recovering? && n.tx.pendingHash == Nil && b.cert.Some? && IsNext(p, n, b)
    requires verified == FollowerVerify(n.tx, env.pow, b.cert.value.ir.hash)
    ensures var o, uc := ApplyVerified(p, n, b, b.cert.value, env), b.cert.value;
            if Passes(n, b, env) then
              && o.ok && o.node.tx.committedUC == b.cert && o.node.tx.committedHash == uc.ir.hash && o.node.tx.pendingHash == Nil
              && o.node.blocks == n.blocks[uc.ir.round := b]
            else !o.ok && o.node.blocks == n.blocks && o.node.tx == n.tx.(pendingHeight := 0)
  {
    if verified.Some? {
      assert verified.value.pendingHash == b.cert.value.ir.hash;
      assert SummaryMatches(b.cert.value.ir.hash, b.cert.value.ir) <==> Plain(b.cert.value.ir);
    }
  }

  /**
   What a recovering node does with a block, whoever sent it: it applies the block exactly when it is
   authentic, later than the committed one, the next of the ledger, and passes; it skips an authentic one
   that is not later; and anything else is a failure that leaves the ledger as it is.
   */
  lemma BlockAppliedIff(p: Params, n: NodeState, b: Block, env: Env)
    requires n.status.Recovering? && n.tx.pendingHash == Nil
    ensures var o := HandleBlock(p, n, b, env);
            var later := Authentic(p, n, b) && CommittedRound(n) < b.cert.value.ir.round;
            var applies := later && IsNext(p, n, b) && Passes(n, b, env);
            && (o.ok <==> applies || (Authentic(p, n, b) && !later))
            && o.node.status.Recovering? && o.node.tx.pendingHash == Nil && o.node.pending == n.pending
            && (if applies
                then o.node.tx.committedUC == b.cert && o.node.tx.committedHash == b.cert.value.ir.hash && o.node.blocks == n.blocks[b.cert.value.ir.round := b]
                else o.node.blocks == n.blocks && o.node.tx == n.tx.(pendingHeight := o.node.tx.pendingHeight))
  {
    if b.cert.Some? {
      TakenInIff(p, n, b);
      var m := UpdateLUC(p, n, b.cert.value, None).node;
      if p.lib.successor(b.cert.value, n.tx.committedUC) {
        ApplyOutcome(p, m, b, env);
      }
    }
  }

  /** A gap makes a node that is not recovering recover, except during start-up, where nothing is stored either. */
  lemma OutsideRecovery(p: Params, n: NodeState, b: Block, uc: Certificate, env: Env)
    requires !n.status.Recovering? && b.cert == Some(uc)
    ensures BlockValid(p.lib, b) && UpdateLUC(p, n, uc, None).ok && CommittedRound(n) < uc.ir.round && !p.lib.successor(uc, n.tx.committedUC) ==>
              HandleBlock(p, n, b, env).node.status == if n.status.Initializing? then Initializing else Recovering
    ensures n.status.Initializing? ==>
              var o := FinalizeBlock(n, b, uc, env);
              o.node.blocks == n.blocks && (o.ok <==> SameBytes(n.tx.pendingHash, uc.ir.hash))
  {
  }

  // ---- the proposal that is retried after recovery ----

  /** The last proposal among the events, or the one remembered before them. */
  function LastReceived(before: Option<Proposal>, events: seq<Event>): Option<Proposal>
    decreases |events|
  {
    if events == [] then before
    else LastReceived(if events[0].OnProposal? then events[0].prop else before, events[1..])
  }

  /** The response brings the last missing blocks. */
  ghost predicate Finishes(p: Params, n: NodeState, e: Event)
    requires EventOk(e)
  {
    && e.OnResponse? && n.status.Recovering? && e.resp.status.Ok? && e.resp.blocks.Some? && CommittedRound(n) < e.resp.first
    && var applied := ApplyBlocks(p, n, e.resp.blocks.value, e.envs);
       applied.ok && CommittedRound(applied.node) == RoundOf(applied.node.luc)
  }

  /** The node keeps recovering through the events. */
  ghost predicate RecoversThrough(p: Params, n: NodeState, events: seq<Event>)
    requires ParamsOk(p) && Healthy(n) && forall i :: 0 <= i < |events| ==> EventOk(events[i])
    decreases |events|
  {
    && n.status.Recovering?
    && (events == [] || (!events[0].OnRestart? && !Finishes(p, n, events[0]) && RecoversThrough(p, Step(p, n, events[0]), events[1..])))
  }

  lemma RecoveringRemembers(p: Params, n: NodeState, e: Event)
    requires ParamsOk(p) && Healthy(n) && EventOk(e) && !e.OnRestart? && !Finishes(p, n, e) && n.status.Recovering?
    ensures Step(p, n, e).lastProposal == if e.OnProposal? then e.prop else n.lastProposal
  {
    if e.OnResponse? {
      ResponseIsHandled(p, n, e.resp, e.envs, e.env, e.retry);
    }
  }

  lemma {:induction false} LastIsRemembered(p: Params, n: NodeState, events: seq<Event>)
    requires ParamsOk(p) && Healthy(n) && (forall i :: 0 <= i < |events| ==> EventOk(events[i])) && RecoversThrough(p, n, events)
    ensures Run(p, n, events).status.Recovering? && Run(p, n, events).lastProposal == LastReceived(n.lastProposal, events)
    decreases |events|
  {
    if events != [] {
      RecoveringRemembers(p, n, events[0]);
      LastIsRemembered(p, Step(p, n, events[0]), events[1..]);
    }
  }

  /** The node as it leaves recovery: in normal operation, with a new round started and the ledger it has recovered. */
  ghost function Recovered(n: NodeState, env: Env): (m: NodeState)
    ensures Healthy(n) ==> Healthy(m)
  {
    n.(status := Normal, pending := None, stored := if env.pendingDeleteOk then None else n.stored)
  }

  /**
   However long a node recovers and whatever arrives meanwhile, once the last missing block is applied it
   does what it would do if the last proposal it received meanwhile arrived right then, and forgets it.
   */
  lemma LastProposalIsRetried(p: Params, n: NodeState, events: seq<Event>, e: Event)
    requires ParamsOk(p) && Healthy(n) && (forall i :: 0 <= i < |events| ==> EventOk(events[i])) && EventOk(e)
    requires RecoversThrough(p, n, events) && Finishes(p, Run(p, n, events), e)
    ensures var prop, before := LastReceived(n.lastProposal, events), Run(p, n, events);
            var back := Recovered(ApplyBlocks(p, before, e.resp.blocks.value, e.envs).node, e.env);
            Step(p, before, e) == if prop.None? then back else Step(p, back, OnProposal(prop, e.retry)).(lastProposal := None)
  {
    LastIsRemembered(p, n, events);
    var before := Run(p, n, events);
    ResponseIsHandled(p, before, e.resp, e.envs, e.env, e.retry);
  }
}
