/** Leader and followers of one round ask the root chain to certify the same input record. */
module RoundAgreement {
  import opened Types
  import opened TxModel
  import opened NodeModel
  import opened RootChain
  import opened Safety

  /** Nodes that know a leader under the same latest certificate hold the same technical record. */
  lemma SameTechnicalRecord(w: World, a: NodeState, b: NodeState)
    requires Sound(w.lib, w.rc) && Bound(w.lib, a) && Bound(w.lib, b)
    requires a.luc == b.luc && a.leader != NO_PEER && b.leader != NO_PEER
    ensures a.ltr.Some? && a.ltr == b.ltr && a.leader == b.leader
  {
  }

  /** Nodes with the same committed round have committed the same record. */
  lemma SameCommittedRecord(w: World, a: NodeState, k: nat, b: NodeState, j: nat)
    requires Increasing(w.rc) && Inv(w, a, k) && Inv(w, b, j) && CommittedRound(a) == CommittedRound(b)
    ensures k == j && BlockHashOf(a.tx.committedUC) == BlockHashOf(b.tx.committedUC)
  {
    assert RecordRound(w.rc, k) == RecordRound(w.rc, j);
  }

  lemma SameRecord(w: World, p: Params, a: NodeState, k: nat, q: Params, b: NodeState, j: nat, author: PeerID, root: Slice)
    requires Increasing(w.rc) && Sound(w.lib, w.rc) && p.lib == q.lib == w.lib && Inv(w, a, k) && Inv(w, b, j)
    requires a.luc == b.luc && a.leader != NO_PEER && b.leader != NO_PEER && CommittedRound(a) == CommittedRound(b)
    ensures a.luc.Some? && b.luc.Some? && ProposedRecord(p, a, author, root) == ProposedRecord(q, b, author, root)
  {
    SameTechnicalRecord(w, a, b);
    SameCommittedRecord(w, a, k, b, j);
  }

  /** A follower that gets past the certificate of a proposal has that certificate as its latest one. */
  lemma FollowerCatchesUp(w: World, p: Params, n: NodeState, k: nat, prop: Proposal, env: Env)
    requires Trust(w) && p.lib == w.lib && Inv(w, n, k) && !n.status.Recovering? && ProposalValid(p, n.confEpoch, prop)
    requires ProcessProposalCertificate(p, n, prop, env).ok
    ensures ProcessProposalCertificate(p, n, prop, env).node.luc == prop.uc
  {
    var uc := prop.uc.value;
    assert Issued(w.rc, uc);
    if uc.rootRound == RootRoundOf(n.luc) {
      IssuedInOrder(w.rc, uc, n.luc.value);
    } else {
      UpdateLUCAdvances(w, p, n, uc, Some(prop.technical));
    }
  }

  /**
   What a certification request of the round of this technical record asks for: the proposed root as the
   state after that of the latest certificate, at the time of its seal, with the hash of a block by this
   author on top of the committed block, and nothing else in the summary.
   */
  ghost predicate Asks(lib: Library, luc: Certificate, tr: TechnicalRecord, committed: Option<Certificate>, author: PeerID, root: Slice, ir: InputRecord) {
    && ir.round == tr.round && ir.epoch == tr.epoch
    && ir.previousHash == luc.ir.hash && ir.hash == root
    && ir.timestamp == luc.sealTimestamp
    && ir.blockHash == lib.blockHash(Header(author, BlockHashOf(committed)), root, luc.ir.hash)
    && Plain(ir)
  }

  /** The node has built the block of a request and keeps it, in memory and in the store: m is the node after n. */
  ghost predicate Builds(lib: Library, n: NodeState, author: PeerID, root: Slice, m: NodeState) {
    && n.luc.Some? && n.ltr.Some? && m.pending.Some? && m.pending.value.cert.Some? && m.stored == m.pending
    && Asks(lib, n.luc.value, n.ltr.value, n.tx.committedUC, author, root, m.pending.value.cert.value.ir)
    && m.pending.value == Block(Header(author, BlockHashOf(n.tx.committedUC)), Some(Certificate(m.pending.value.cert.value.ir, Nil, 0, 0)))
  }

  /** A request that is sent asks for the block that was built. */
  ghost predicate SendsBuilt(lib: Library, n: NodeState, author: PeerID, root: Slice, env: Env, o: RoundOutcome) {
    Builds(lib, n, author, root, o.node) && o.request == if env.requestSent then Some(o.node.pending.value.cert.value.ir) else None
  }

  /** Nothing is tentative any more. */
  ghost predicate TakenBack(n: NodeState, m: NodeState) {
    m == n.(tx := n.tx.(pendingHash := Nil, pendingHeight := 0))
  }

  /** A follower with nothing pending and the certified state considers the proposal of the leader of its round. */
  ghost predicate Considers(p: Params, n: NodeState, prop: Proposal)
    requires prop.uc.Some?
  {
    && n.leader != NO_PEER && prop.node == n.leader && n.tx.pendingHash == Nil
    && (p.lib.initial(prop.uc.value) || SameBytes(prop.uc.value.ir.hash, n.tx.committedHash))
  }

  /** The root is the committed one or confirmed by the PoW node. */
  ghost predicate Verifies(n: NodeState, root: Slice, env: Env) {
    SameBytes(root, n.tx.committedHash) || Confirmed(n.tx.dFG, env.pow, root)
  }

  /**
   What a follower does with a proposal, once the certificate inside it is processed: one that it does not
   consider changes nothing, a root that does not verify is taken back, and otherwise a block is built, kept
   and asked for. If the block cannot be encoded the root stays tentative, and if it cannot be stored the
   root is taken back.
   */
  lemma FollowerRequest(p: Params, n: NodeState, prop: Proposal, env: Env)
    requires Healthy(n) && prop.uc.Some?
    ensures var o := FollowProposal(p, n, prop, env);
            && o.proposal.None? && o.node.tx.committedUC == n.tx.committedUC
            && if !Considers(p, n, prop) then o.request.None? && o.node == n
               else if !Verifies(n, prop.root, env) || (env.encodeOk && !env.pendingWriteOk) then o.request.None? && TakenBack(n, o.node)
               else if !env.encodeOk then o.request.None? && o.node == n.(tx := o.node.tx) && o.node.tx.pendingHash == prop.root
               else SendsBuilt(p.lib, n, prop.node, prop.root, env, o) && o.node.tx.pendingHash == prop.root
  {
  }

  /** A leader proposes: it leads, is not recovering, has a block to propose, and the proposal goes out. */
  ghost predicate Leads(p: Params, n: NodeState, env: Env)
    requires Healthy(n)
  {
    !n.status.Recovering? && n.leader == p.id && LeaderPropose(n.tx, env.pow).Some? && env.proposalSent
  }

  /** The proposal of a leader: from this node for this shard, with what it knows of the round, and the given root. */
  ghost predicate Proposes(p: Params, n: NodeState, root: Slice, prop: Proposal) {
    && prop.partition == p.partition && prop.shard == p.shard && prop.node == p.id
    && prop.uc == n.luc && Some(prop.technical) == n.ltr && prop.root == root
  }

  /**
   What a leader does at a timeout: when it sends a proposal and when a request, and what they say. Both are
   about the block its transaction system proposes. Whenever no request goes out everything tentative is
   taken back, though a block that was stored stays pending.
   */
  lemma LeaderRequest(p: Params, n: NodeState, env: Env)
    requires Healthy(n) && p.id != NO_PEER
    ensures var o := HandleT1Timeout(p, n, env);
            && (o.proposal.Some? <==> Leads(p, n, env))
            && (o.request.Some? <==> Leads(p, n, env) && env.encodeOk && env.pendingWriteOk && env.requestSent)
            && o.node.tx.committedUC == n.tx.committedUC
            && if n.status.Recovering? || n.leader != p.id then o.node == n
               else if !Leads(p, n, env) then TakenBack(n, o.node)
               else
                 var root := LeaderPropose(n.tx, env.pow).value.pendingHash;
                 && Proposes(p, n, root, o.proposal.value)
                 && (if !env.encodeOk || !env.pendingWriteOk then TakenBack(n, o.node) else SendsBuilt(p.lib, n, p.id, root, env, o))
                 && o.node.tx.pendingHash == if o.request.Some? then root else Nil
  {
  }

  /** What a leader sends is a valid proposal for every follower of its shard in whose epoch it is a validator. */
  lemma SentProposalIsValid(w: World, p: Params, n: NodeState, k: nat, env: Env, q: Params, epoch: U64)
    requires Trust(w) && Complete(w.lib, w.rc) && p.lib == q.lib == w.lib && p.id != NO_PEER && Inv(w, n, k)
    requires HandleT1Timeout(p, n, env).proposal.Some? && q.partition == p.partition && q.shard == p.shard
    requires w.lib.validator(epoch, p.id) && w.lib.signed(HandleT1Timeout(p, n, env).proposal.value)
    ensures ProposalValid(q, epoch, HandleT1Timeout(p, n, env).proposal.value)
  {
    LeaderRequest(p, n, env);
    assert Issued(w.rc, n.luc.value) && Bound(w.lib, n);
  }

  lemma LeaderRecord(p: Params, n: NodeState, env: Env)
    requires Healthy(n) && p.id != NO_PEER && HandleT1Timeout(p, n, env).request.Some? && HandleT1Timeout(p, n, env).proposal.Some?
    ensures n.luc.Some?
    ensures HandleT1Timeout(p, n, env).request.value == ProposedRecord(p, n, p.id, HandleT1Timeout(p, n, env).proposal.value.root)
  {
  }

  lemma FollowerRecord(p: Params, n: NodeState, prop: Proposal, env: Env)
    requires Healthy(n) && prop.uc.Some? && FollowProposal(p, n, prop, env).request.Some?
    ensures n.luc.Some? && FollowProposal(p, n, prop, env).request.value == ProposedRecord(p, n, prop.node, prop.root)
  {
  }

  /**
   Input-record agreement: every follower that accepts the leader's proposal with the same committed
   round requests certification of the very record the leader requested.
   */
  lemma InputRecordAgreement(w: World, p: Params, leader: NodeState, k: nat, env: Env, q: Params, follower: NodeState, j: nat, env': Env)
    requires Trust(w) && p.lib == q.lib == w.lib && p.id != NO_PEER
    requires Inv(w, leader, k) && Inv(w, follower, j) && EnvOk(w, env')
    requires HandleT1Timeout(p, leader, env).request.Some?
    requires var accepted := HandleProposal(q, follower, HandleT1Timeout(p, leader, env).proposal, env');
             accepted.request.Some? && CommittedRound(accepted.node) == CommittedRound(leader)
    ensures HandleProposal(q, follower, HandleT1Timeout(p, leader, env).proposal, env').request
            == HandleT1Timeout(p, leader, env).request
  {
    LeaderRequest(p, leader, env);
    LeaderRecord(p, leader, env);
    var prop := HandleT1Timeout(p, leader, env).proposal.value;
    AcceptedRequest(w, q, follower, j, prop, env', p, leader, k);
  }

  lemma AcceptedRequest(w: World, q: Params, follower: NodeState, j: nat, prop: Proposal, env: Env, p: Params, leader: NodeState, k: nat)
    requires Trust(w) && p.lib == q.lib == w.lib && Inv(w, leader, k) && Inv(w, follower, j) && EnvOk(w, env)
    requires prop.uc == leader.luc && leader.leader == prop.node
    requires HandleProposal(q, follower, Some(prop), env).request.Some?
    requires CommittedRound(HandleProposal(q, follower, Some(prop), env).node) == CommittedRound(leader)
    ensures leader.luc.Some?
    ensures HandleProposal(q, follower, Some(prop), env).request.value == ProposedRecord(p, leader, prop.node, prop.root)
  {
    var processed := ProcessProposalCertificate(q, follower, prop, env);
    FollowerCatchesUp(w, q, follower, j, prop, env);
    var j' := ProcessProposalCertificateKeeps(w, q, follower, j, prop, env);
    FollowerRequest(q, processed.node, prop, env);
    FollowerRecord(q, processed.node, prop, env);
    SameRecord(w, p, leader, k, q, processed.node, j', prop.node, prop.root);
  }

  /**
   What a follower has made sure of when it sends a request for a proposal: it is meant for this shard,
   comes from the validator that the technical record names as leader, is signed, and carries an issued
   certificate that binds the record; the follower then goes by that certificate and record.
   */
  lemma AcceptedProposalIsGenuine(w: World, p: Params, n: NodeState, k: nat, prop: Proposal, env: Env)
    requires Trust(w) && p.lib == w.lib && Inv(w, n, k) && EnvOk(w, env) && HandleProposal(p, n, Some(prop), env).request.Some?
    ensures prop.partition == p.partition && prop.shard == p.shard
    ensures w.lib.validator(n.confEpoch, prop.node) && w.lib.signed(prop)
    ensures prop.uc.Some? && Issued(w.rc, prop.uc.value) && SameBytes(w.lib.trHash(prop.technical), prop.uc.value.trHash)
    ensures w.lib.decodePeer(prop.technical.leader) == Some(prop.node)
    ensures var o := HandleProposal(p, n, Some(prop), env);
            && o.node.luc == prop.uc && o.node.ltr == Some(prop.technical) && o.node.leader == prop.node
            && Asks(w.lib, prop.uc.value, prop.technical, o.node.tx.committedUC, prop.node, prop.root, o.request.value)
            && o.node.stored == o.node.pending == Some(Block(Header(prop.node, BlockHashOf(o.node.tx.committedUC)), Some(Certificate(o.request.value, Nil, 0, 0))))
            && o.node.tx.pendingHash == prop.root
  {
    var processed := ProcessProposalCertificate(p, n, prop, env);
    FollowerCatchesUp(w, p, n, k, prop, env);
    var k' := ProcessProposalCertificateKeeps(w, p, n, k, prop, env);
    FollowerRequest(p, processed.node, prop, env);
    assert Bound(w.lib, processed.node);
    assert SameBytes(w.lib.trHash(processed.node.ltr.value), w.lib.trHash(prop.technical));
  }
}
