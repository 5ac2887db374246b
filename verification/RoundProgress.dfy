/** A round that goes well finalizes the proposed PoW block, at the leader and at every follower. */
module RoundProgress {
  import opened Types
  import opened TxModel
  import opened NodeModel
  import opened RootChain
  import opened Safety
  import opened Restart
  import opened PowTree
  import opened RoundAgreement

  /** The certificate is the next one the root chain issues after the record the node stands at, and is news to the node. */
  ghost predicate NextCertificate(w: World, n: NodeState, k: nat, uc: Certificate) {
    && Issued(w.rc, uc) && k + 1 < |w.rc.records| && uc.ir == w.rc.records[k + 1]
    && RootRoundOf(n.luc) < uc.rootRound && RoundOf(n.luc) < uc.ir.round
  }

  ghost predicate Decodes(lib: Library, uc: Certificate, tr: Option<TechnicalRecord>) {
    Attached(lib, uc, tr) && (tr.Some? ==> lib.decodePeer(tr.value.leader).Some?)
  }

  lemma CertificateIsTaken(w: World, p: Params, n: NodeState, k: nat, uc: Certificate, tr: Option<TechnicalRecord>)
    requires Trust(w) && Complete(w.lib, w.rc) && p.lib == w.lib && Inv(w, n, k)
    requires NextCertificate(w, n, k, uc) && Decodes(w.lib, uc, tr)
    ensures UpdateLUC(p, n, uc, tr).ok && UpdateLUC(p, n, uc, tr).node.luc == Some(uc)
    ensures w.lib.successor(uc, n.tx.committedUC)
  {
    assert At(w.rc, n.tx.committedUC, k);
  }

  /** Finalizing the pending block: stored under its round, committed, and out of the way of the next round. */
  lemma MatchingProposalFinalizes(n: NodeState, uc: Certificate, env: Env)
    requires n.status.Normal? && n.pending.Some? && n.pending.value.cert.Some? && EqualIR(n.pending.value.cert.value.ir, uc.ir)
    requires SameBytes(n.tx.pendingHash, uc.ir.hash) && env.sealOk && env.writeOk
    ensures var o := CertifyProposal(n, uc, env);
            && o.ok && o.node.status.Normal? && o.node.pending.None?
            && Some(o.node.tx) == Commit(n.tx, uc)
            && o.node.blocks == n.blocks[uc.ir.round := n.pending.value.(cert := Some(uc))]
  {
  }

  /** What a node has after a certificate finalized its pending proposal. */
  ghost predicate Finalized(n: NodeState, m: NodeState, uc: Certificate) {
    && m.status.Normal? && m.pending.None? && m.luc == Some(uc)
    && m.tx.committedUC == Some(uc) && m.tx.committedHash == n.tx.pendingHash && m.tx.committedHeight == n.tx.pendingHeight
    && m.tx.pendingHash == Nil
    && n.pending.Some? && m.blocks == n.blocks[uc.ir.round := n.pending.value.(cert := Some(uc))]
  }

  /** A certificate that matches the pending proposal finalizes it. */
  lemma CertifiedProposalFinalizes(w: World, p: Params, n: NodeState, k: nat, uc: Certificate, tr: Option<TechnicalRecord>, env: Env)
    requires Trust(w) && Complete(w.lib, w.rc) && p.lib == w.lib && Inv(w, n, k)
    requires NextCertificate(w, n, k, uc) && Decodes(w.lib, uc, tr) && env.sealOk && env.writeOk
    requires !n.status.Recovering? && n.pending.Some? && n.pending.value.cert.Some? && EqualIR(n.pending.value.cert.value.ir, uc.ir)
    requires SameBytes(n.tx.pendingHash, uc.ir.hash)
    ensures HandleCertificate(p, n, uc, tr, env).ok && Finalized(n, HandleCertificate(p, n, uc, tr, env).node, uc)
  {
    CertificateIsTaken(w, p, n, k, uc, tr);
    MatchingProposalFinalizes(UpdateLUC(p, n, uc, tr).node.(status := Normal), uc, env);
  }

  /** What a node that has sent a certification request is left with. */
  ghost predicate Awaits(n: NodeState, author: PeerID, request: InputRecord) {
    && n.pending == Some(Block(Header(author, BlockHashOf(n.tx.committedUC)), Some(Certificate(request, Nil, 0, 0))))
    && n.tx.pendingHash == request.hash && !n.status.Recovering?
  }

  lemma LeaderAwaits(p: Params, n: NodeState, env: Env)
    requires Healthy(n) && p.id != NO_PEER && HandleT1Timeout(p, n, env).request.Some?
    ensures var o := HandleT1Timeout(p, n, env);
            Awaits(o.node, p.id, o.request.value) && o.node.luc == n.luc && o.node.tx.committedUC == n.tx.committedUC
    ensures LeaderPropose(n.tx, env.pow).Some?
    ensures HandleT1Timeout(p, n, env).request.value.hash == LeaderPropose(n.tx, env.pow).value.pendingHash
    ensures HandleT1Timeout(p, n, env).proposal.Some?
    ensures HandleT1Timeout(p, n, env).proposal.value.root == LeaderPropose(n.tx, env.pow).value.pendingHash
  {
  }

  lemma FollowerAwaits(p: Params, n: NodeState, prop: Proposal, env: Env)
    requires Healthy(n) && HandleProposal(p, n, Some(prop), env).request.Some?
    ensures var o := HandleProposal(p, n, Some(prop), env); Awaits(o.node, prop.node, o.request.value)
  {
    var processed := ProcessProposalCertificate(p, n, prop, env);
    assert processed.ok && !processed.node.status.Recovering?;
    SentAwaits(p, processed.node, prop, env);
  }

  lemma SentAwaits(p: Params, n: NodeState, prop: Proposal, env: Env)
    requires Healthy(n) && prop.uc.Some? && !n.status.Recovering? && FollowProposal(p, n, prop, env).request.Some?
    ensures var o := FollowProposal(p, n, prop, env); Awaits(o.node, prop.node, o.request.value)
  {
  }

  /** The leader's proposal, certified as requested, is finalized at the leader: the PoW block it proposed becomes its committed one. */
  lemma LeaderFinalizes(w: World, p: Params, n: NodeState, k: nat, env: Env, uc: Certificate, tr: Option<TechnicalRecord>, env': Env)
    requires Trust(w) && Complete(w.lib, w.rc) && p.lib == w.lib && p.id != NO_PEER && Inv(w, n, k)
    requires EnvOk(w, env) && env'.sealOk && env'.writeOk
    requires HandleT1Timeout(p, n, env).request.Some? && EqualIR(HandleT1Timeout(p, n, env).request.value, uc.ir)
    requires NextCertificate(w, n, k, uc) && Decodes(w.lib, uc, tr)
    ensures var proposed := HandleT1Timeout(p, n, env);
            var certified := HandleCertificate(p, proposed.node, uc, tr, env');
            certified.ok && Finalized(proposed.node, certified.node, uc)
  {
    LeaderAwaits(p, n, env);
    HandleT1TimeoutKeeps(w, p, n, k, env);
    CertifiedProposalFinalizes(w, p, HandleT1Timeout(p, n, env).node, k, uc, tr, env');
  }

  /**
   The same at every follower that accepted a proposal, from the moment the proposal arrives: j is the
   record the follower stands at once it has processed the certificate inside the proposal.
   */
  lemma FollowerFinalizes(w: World, p: Params, n: NodeState, k: nat, prop: Proposal, env: Env, j: nat, uc: Certificate, tr: Option<TechnicalRecord>, env': Env)
    requires Trust(w) && Complete(w.lib, w.rc) && p.lib == w.lib && Inv(w, n, k)
    requires EnvOk(w, env) && env'.sealOk && env'.writeOk
    requires HandleProposal(p, n, Some(prop), env).request.Some? && EqualIR(HandleProposal(p, n, Some(prop), env).request.value, uc.ir)
    requires var m := HandleProposal(p, n, Some(prop), env).node;
             At(w.rc, m.tx.committedUC, j) && NextCertificate(w, m, j, uc) && Decodes(w.lib, uc, tr)
    ensures var accepted := HandleProposal(p, n, Some(prop), env);
            var certified := HandleCertificate(p, accepted.node, uc, tr, env');
            certified.ok && Finalized(accepted.node, certified.node, uc)
  {
    FollowerAwaits(p, n, prop, env);
    var k' := HandleProposalKeeps(w, p, n, k, Some(prop), env);
    var m := HandleProposal(p, n, Some(prop), env).node;
    OnePlace(w.rc, m.tx.committedUC, k', j);
    CertifiedProposalFinalizes(w, p, m, j, uc, tr, env');
  }

  /** A proposal that was taken up at a restart is finalized by the certificate that matches it, as if the node had not stopped. */
  lemma RestoredProposalFinalizes(w: World, p: Params, n: NodeState, k: nat, env: Env, j: nat, uc: Certificate, tr: Option<TechnicalRecord>, env': Env)
    requires Trust(w) && Complete(w.lib, w.rc) && p.lib == w.lib && ParamsOk(p) && Inv(w, n, k)
    requires SafeToRestart(n) && EnvOk(w, env) && InitState(p, n.blocks, n.stored, env).Some? && TakesUp(p, n, env) && env'.sealOk && env'.writeOk
    requires EqualIR(n.stored.value.cert.value.ir, uc.ir) && Decodes(w.lib, uc, tr)
    requires At(w.rc, LastCertificate(n), j) && NextCertificate(w, InitState(p, n.blocks, n.stored, env).value, j, uc)
    ensures var restarted := InitState(p, n.blocks, n.stored, env).value;
            var certified := HandleCertificate(p, restarted, uc, tr, env');
            certified.ok && Finalized(restarted, certified.node, uc)
  {
    var restarted := InitState(p, n.blocks, n.stored, env).value;
    var k' := RestartKeeps(w, p, n, k, env);
    RestartRestores(p, n, env);
    TakenUpIff(p, n, env);
    StartsFresh(p, n, env);
    OnePlace(w.rc, LastCertificate(n), k', j);
    CertifiedProposalFinalizes(w, p, restarted, j, uc, tr, env');
  }

  // ---- a whole round ----

  /** The follower follows the leader's round: same latest certificate and committed round, nothing pending, its state the certified one. */
  ghost predicate InStep(w: World, leader: NodeState, follower: NodeState, id: PeerID) {
    && !follower.status.Recovering? && follower.luc == leader.luc && follower.leader == id
    && CommittedRound(follower) == CommittedRound(leader)
    && follower.tx.pendingHash == Nil && follower.tx.dFG == leader.tx.dFG && follower.luc.Some?
    && (w.lib.initial(follower.luc.value) || SameBytes(follower.luc.value.ir.hash, follower.tx.committedHash))
  }

  /** The follower is of the leader's shard, has the leader for a validator, and is in step once it has processed the certificate inside the signed proposal. */
  ghost predicate Joins(w: World, p: Params, leader: NodeState, q: Params, b: NodeState, prop: Proposal, env: Env) {
    && q.partition == p.partition && q.shard == p.shard && w.lib.validator(b.confEpoch, p.id) && w.lib.signed(prop)
    && !b.status.Recovering? && prop.uc.Some?
    && var processed := ProcessProposalCertificate(q, b, prop, env);
       processed.ok && InStep(w, leader, processed.node, prop.node)
  }

  /** What the leader's PoW node shows is part of what the follower's shows, and the follower can store and send. */
  ghost predicate Sees(env: Env, t: Tree, env': Env, u: Tree) {
    && PowTree.WellFormed(t) && Reflects(env.pow, t) && PowTree.WellFormed(u) && Reflects(env'.pow, u) && ExtendsActive(t, u)
    && env'.encodeOk && env'.pendingWriteOk && env'.requestSent
  }

  /** Every follower that joins the round, with the certificate it has or with the one inside the proposal, accepts what the leader proposes and requests the same. */
  lemma ProposalIsFollowed(w: World, p: Params, a: NodeState, k: nat, env: Env, t: Tree, q: Params, b: NodeState, j: nat, env': Env, u: Tree)
    requires Trust(w) && Complete(w.lib, w.rc) && p.lib == q.lib == w.lib && p.id != NO_PEER && Inv(w, a, k) && Inv(w, b, j) && EnvOk(w, env')
    requires HandleT1Timeout(p, a, env).request.Some? && HandleT1Timeout(p, a, env).proposal.Some?
    requires Joins(w, p, a, q, b, HandleT1Timeout(p, a, env).proposal.value, env') && Sees(env, t, env', u)
    ensures var accepted := HandleProposal(q, b, HandleT1Timeout(p, a, env).proposal, env');
            && accepted.request == HandleT1Timeout(p, a, env).request
            && accepted.node.luc == a.luc && CommittedRound(accepted.node) == CommittedRound(a)
  {
    LeaderAwaits(p, a, env);
    LeaderRequest(p, a, env);
    SentProposalIsValid(w, p, a, k, env, q, b.confEpoch);
    var prop := HandleT1Timeout(p, a, env).proposal.value;
    var processed := ProcessProposalCertificate(q, b, prop, env');
    LeaderProposalAccepted(a.tx, env.pow, t, processed.node.tx, env'.pow, u);
    AcceptsLeader(q, b, prop, env');
    InputRecordAgreement(w, p, a, k, env, q, b, j, env');
  }

  lemma AcceptsLeader(q: Params, b: NodeState, prop: Proposal, env: Env)
    requires Healthy(b) && !b.status.Recovering? && ProposalValid(q, b.confEpoch, prop) && ProcessProposalCertificate(q, b, prop, env).ok
    requires var x := ProcessProposalCertificate(q, b, prop, env).node;
             && prop.node == x.leader != NO_PEER
             && x.tx.pendingHash == Nil && (q.lib.initial(prop.uc.value) || SameBytes(prop.uc.value.ir.hash, x.tx.committedHash))
             && FollowerVerify(x.tx, env.pow, prop.root).Some? && env.encodeOk && env.pendingWriteOk && env.requestSent
    ensures var x, accepted := ProcessProposalCertificate(q, b, prop, env).node, HandleProposal(q, b, Some(prop), env);
            accepted.request.Some? && accepted.node.luc == x.luc && accepted.node.tx.committedUC == x.tx.committedUC
  {
    FollowsLeader(q, ProcessProposalCertificate(q, b, prop, env).node, prop, env);
  }

  lemma FollowsLeader(q: Params, x: NodeState, prop: Proposal, env: Env)
    requires Healthy(x) && prop.uc.Some? && prop.node == x.leader != NO_PEER
    requires x.tx.pendingHash == Nil && (q.lib.initial(prop.uc.value) || SameBytes(prop.uc.value.ir.hash, x.tx.committedHash))
    requires FollowerVerify(x.tx, env.pow, prop.root).Some? && env.encodeOk && env.pendingWriteOk && env.requestSent
    ensures var accepted := FollowProposal(q, x, prop, env);
            accepted.request.Some? && accepted.node.luc == x.luc && accepted.node.tx.committedUC == x.tx.committedUC
  {
  }

  /**
   A whole round: the leader proposes a PoW block, a follower that joins the round accepts it, the root
   chain certifies what both requested, and both end up with the same certificate, the proposed block as
   the committed one, and the same block in their stores.
   */
  lemma RoundFinalizes(w: World, p: Params, a: NodeState, k: nat, env: Env, t: Tree, q: Params, b: NodeState, j: nat, env': Env, u: Tree,
                       uc: Certificate, tr: Option<TechnicalRecord>, tr': Option<TechnicalRecord>, envA: Env, envB: Env)
    requires Trust(w) && Complete(w.lib, w.rc) && p.lib == q.lib == w.lib && p.id != NO_PEER
    requires Inv(w, a, k) && Inv(w, b, j) && EnvOk(w, env) && EnvOk(w, env') && envA.sealOk && envA.writeOk && envB.sealOk && envB.writeOk
    requires HandleT1Timeout(p, a, env).request.Some? && EqualIR(HandleT1Timeout(p, a, env).request.value, uc.ir)
    requires HandleT1Timeout(p, a, env).proposal.Some?
    requires Joins(w, p, a, q, b, HandleT1Timeout(p, a, env).proposal.value, env') && Sees(env, t, env', u)
    requires NextCertificate(w, a, k, uc) && Decodes(w.lib, uc, tr) && Decodes(w.lib, uc, tr')
    ensures var proposed := HandleT1Timeout(p, a, env);
            var accepted := HandleProposal(q, b, proposed.proposal, env');
            var atLeader := HandleCertificate(p, proposed.node, uc, tr, envA);
            var atFollower := HandleCertificate(q, accepted.node, uc, tr', envB);
            && atLeader.ok && atFollower.ok
            && atLeader.node.tx.committedUC == atFollower.node.tx.committedUC == Some(uc)
            && atLeader.node.tx.committedHash == atFollower.node.tx.committedHash == LeaderPropose(a.tx, env.pow).value.pendingHash
            && uc.ir.round in atLeader.node.blocks && uc.ir.round in atFollower.node.blocks
            && atLeader.node.blocks[uc.ir.round] == atFollower.node.blocks[uc.ir.round]
  {
    LeaderAwaits(p, a, env);
    LeaderRequest(p, a, env);
    ProposalIsFollowed(w, p, a, k, env, t, q, b, j, env', u);
    var prop := HandleT1Timeout(p, a, env).proposal.value;
    LeaderFinalizes(w, p, a, k, env, uc, tr, envA);
    FollowerAwaits(q, b, prop, env');
    var m := HandleProposal(q, b, Some(prop), env').node;
    var j' := HandleProposalKeeps(w, q, b, j, Some(prop), env');
    SameCommittedRecord(w, a, k, m, j');
    FollowerFinalizes(w, q, b, j, prop, env', k, uc, tr', envB);
  }
}
