/**
 A node that has finalized a PoW block does not forget it: as long as the PoW node knows no block with an
 empty hash, no certificate of an empty state hash is ever committed on top of it.
 */
module Remembers {
  import opened Types
  import opened PowTypes
  import opened TxModel
  import opened NodeModel
  import opened RootChain
  import opened Safety
  import opened Restart
  import opened Runs
  import opened Links

  ghost predicate NoEmptyHash(pow: PowAnswers) {
    [] !in pow.byHash && forall k :: k in pow.byHeight ==> pow.byHeight[k].hash != Some([])
  }

  /** A PoW block is committed. */
  predicate HasBlock(n: NodeState) {
    Content(n.tx.committedHash) != []
  }

  /** On top of a committed PoW block nothing with an empty hash is proposed. */
  ghost predicate Solid(n: NodeState) {
    HasBlock(n) && n.pending.Some? && n.pending.value.cert.Some? ==> Content(n.pending.value.cert.value.ir.hash) != []
  }

  ghost predicate Kept(n: NodeState, m: NodeState) {
    Solid(m) && (HasBlock(n) ==> HasBlock(m))
  }

  lemma VerifiedIsSolid(t: TxState, pow: PowAnswers, root: Slice)
    requires NoEmptyHash(pow) && FollowerVerify(t, pow, root).Some? && Content(t.committedHash) != []
    ensures Content(root) != []
  {
  }

  lemma FinalizeKept(n: NodeState, b: Block, uc: Certificate, env: Env)
    requires HasBlock(n) ==> Content(uc.ir.hash) != []
    ensures var o := FinalizeBlock(n, b, uc, env).node; HasBlock(n) ==> HasBlock(o)
  {
  }

  /** The switches drop or keep the pending proposal and leave the committed block alone. */
  lemma SwitchKept(n: NodeState, env: Env)
    requires Solid(n)
    ensures Kept(n, StartRecovery(n)) && Kept(n, StartNewRound(n, env)) && Kept(n, n.(tx := Revert(n.tx)))
  {
  }

  lemma WithoutProposalKept(p: Params, n: NodeState, uc: Certificate, env: Env)
    requires Solid(n)
    ensures Kept(n, CertifyWithoutProposal(p, n, uc, env).node)
  {
    SwitchKept(n, env);
  }

  lemma WithProposalKept(n: NodeState, uc: Certificate, env: Env)
    requires Solid(n) && n.status.Normal? && n.pending.Some?
    ensures Kept(n, CertifyProposal(n, uc, env).node)
  {
    SwitchKept(n, env);
    if n.pending.value.cert.Some? && EqualIR(n.pending.value.cert.value.ir, uc.ir) {
      PendingFinalizedKept(n, n.pending.value.(cert := Some(uc)), uc, env);
    }
  }

  lemma PendingFinalizedKept(n: NodeState, b: Block, uc: Certificate, env: Env)
    requires n.status.Normal? && (HasBlock(n) ==> Content(uc.ir.hash) != [])
    ensures var o := FinalizeBlock(n, b, uc, env).node; Kept(n, StartNewRound(o, env)) && Kept(n, StartRecovery(o))
  {
    FinalizeKept(n, b, uc, env);
  }

  lemma ActKept(p: Params, n: NodeState, m: NodeState, uc: Certificate, env: Env)
    requires Solid(m) && m.status.Normal?
    ensures Kept(m, ActOnCertificate(p, n, m, uc, env).node)
  {
    SwitchKept(m, env);
    SwitchKept(m.(tx := Revert(m.tx)), env);
    if m.pending.None? {
      WithoutProposalKept(p, m, uc, env);
    } else {
      WithProposalKept(m, uc, env);
    }
  }

  lemma CertificateKept(p: Params, n: NodeState, uc: Certificate, tr: Option<TechnicalRecord>, env: Env)
    requires Solid(n)
    ensures Kept(n, HandleCertificate(p, n, uc, tr, env).node)
  {
    ActKept(p, n, UpdateLUC(p, n, uc, tr).node.(status := Normal), uc, env);
  }

  lemma SendKept(p: Params, n: NodeState, author: PeerID, root: Slice, env: Env)
    requires n.luc.Some? && Solid(n) && (HasBlock(n) ==> Content(root) != [])
    ensures Kept(n, SendCertificationRequest(p, n, author, root, env).node)
  {
  }

  lemma FollowKept(p: Params, n: NodeState, prop: Proposal, env: Env)
    requires Healthy(n) && prop.uc.Some? && Solid(n) && NoEmptyHash(env.pow)
    ensures Kept(n, FollowProposal(p, n, prop, env).node)
  {
    var verified := FollowerVerify(n.tx, env.pow, prop.root);
    if n.leader != NO_PEER && verified.Some? {
      if HasBlock(n) {
        VerifiedIsSolid(n.tx, env.pow, prop.root);
      }
      SendKept(p, n.(tx := verified.value), prop.node, prop.root, env);
    }
  }

  lemma ProposalKept(p: Params, n: NodeState, prop: Option<Proposal>, env: Env)
    requires Healthy(n) && Solid(n) && NoEmptyHash(env.pow)
    ensures Kept(n, HandleProposal(p, n, prop, env).node)
  {
    if !n.status.Recovering? && prop.Some? && ProposalValid(p, n.confEpoch, prop.value) {
      CertificateKept(p, n, prop.value.uc.value, Some(prop.value.technical), env);
      var processed := ProcessProposalCertificate(p, n, prop.value, env);
      assert Kept(n, processed.node);
      if processed.ok {
        FollowKept(p, processed.node, prop.value, env);
      }
    }
  }

  lemma TimeoutKept(p: Params, n: NodeState, env: Env)
    requires Healthy(n) && p.id != NO_PEER && Solid(n) && NoEmptyHash(env.pow)
    ensures Kept(n, HandleT1Timeout(p, n, env).node)
  {
    TimeoutIsHandled(p, n, env);
    TimeoutOutcomeKept(p, n, env, HandleT1Timeout(p, n, env).node);
  }

  lemma TimeoutOutcomeKept(p: Params, n: NodeState, env: Env, o: NodeState)
    requires Healthy(n) && p.id != NO_PEER && Solid(n) && NoEmptyHash(env.pow) && TimeoutOutcome(p, n, env, o)
    ensures Kept(n, o)
  {
    SwitchKept(n, env);
    if o != n && o != n.(tx := Revert(n.tx)) {
      var m := n.(tx := LeaderPropose(n.tx, env.pow).value);
      SendKept(p, m, p.id, m.tx.pendingHash, env);
      SwitchKept(SendCertificationRequest(p, m, p.id, m.tx.pendingHash, env).node, env);
    }
  }

  lemma AppliedKept(p: Params, n: NodeState, b: Block, uc: Certificate, env: Env)
    requires Solid(n) && n.pending.None? && NoEmptyHash(env.pow)
    ensures Kept(n, ApplyVerified(p, n, b, uc, env).node)
  {
    var verified := FollowerVerify(n.tx, env.pow, uc.ir.hash);
    if verified.Some? {
      if HasBlock(n) {
        VerifiedIsSolid(n.tx, env.pow, uc.ir.hash);
      }
      FinalizeKept(n.(tx := verified.value), b, uc, env);
    }
  }

  lemma BlockKept(p: Params, n: NodeState, b: Block, env: Env)
    requires Solid(n) && n.status.Recovering? && n.pending.None? && NoEmptyHash(env.pow)
    ensures Kept(n, HandleBlock(p, n, b, env).node) && HandleBlock(p, n, b, env).node.pending.None?
  {
    if BlockValid(p.lib, b) {
      AppliedKept(p, UpdateLUC(p, n, b.cert.value, None).node, b, b.cert.value, env);
    }
  }

  lemma {:induction false} BlocksKept(p: Params, n: NodeState, blocks: seq<Block>, envs: seq<Env>)
    requires Solid(n) && n.status.Recovering? && n.pending.None? && |envs| == |blocks|
    requires forall i :: 0 <= i < |envs| ==> NoEmptyHash(envs[i].pow)
    ensures Kept(n, ApplyBlocks(p, n, blocks, envs).node)
    decreases |blocks|
  {
    if blocks != [] {
      BlockKept(p, n, blocks[0], envs[0]);
      var first := HandleBlock(p, n, blocks[0], envs[0]);
      if first.ok {
        BlocksKept(p, first.node, blocks[1..], envs[1..]);
      }
    }
  }

  lemma ResponseKept(p: Params, n: NodeState, resp: ReplicationResponse, envs: seq<Env>, env: Env, retry: Env)
    requires Healthy(n) && Solid(n) && Quiet(n) && (resp.blocks.Some? ==> |envs| == |resp.blocks.value|)
    requires NoEmptyHash(retry.pow) && forall i :: 0 <= i < |envs| ==> NoEmptyHash(envs[i].pow)
    ensures Kept(n, HandleReplicationResponse(p, n, resp, envs, env, retry))
  {
    if n.status.Recovering? && resp.status.Ok? && resp.blocks.Some? && CommittedRound(n) < resp.first {
      BlocksKept(p, n, resp.blocks.value, envs);
      var applied := ApplyBlocks(p, n, resp.blocks.value, envs).node;
      var m := StartNewRound(applied.(status := Normal), env);
      ProposalKept(p, m, m.lastProposal, retry);
    }
  }

  lemma RestoreKept(n: NodeState, env: Env)
    requires n.pending.None? && NoEmptyHash(env.pow)
    ensures Kept(n, RestoreProposal(n, env))
  {
    if n.stored.Some? && n.stored.value.cert.Some? && HasBlock(n) {
      var ir := n.stored.value.cert.value.ir;
      if FollowerVerify(n.tx, env.pow, ir.hash).Some? {
        VerifiedIsSolid(n.tx, env.pow, ir.hash);
      }
    }
  }

  /** On top of a committed PoW block no block with an empty hash is left in the store. */
  ghost predicate LeftSolid(w: World, n: NodeState, k: nat) {
    HasBlock(n) && k + 1 < |w.rc.records| && RecordRound(w.rc, k + 1) in n.blocks ==> Content(w.rc.records[k + 1].hash) != []
  }

  lemma RestartKept(w: World, p: Params, n: NodeState, k: nat, env: Env)
    requires Trust(w) && ParamsOk(p) && Inv(w, n, k) && Solid(n) && LeftSolid(w, n, k)
    requires EnvOk(w, env) && SafeToRestart(n) && NoEmptyHash(env.pow)
    ensures Kept(n, Step(p, n, OnRestart(env)))
  {
    if InitState(p, n.blocks, n.stored, env).Some? {
      var m := InitState(p, n.blocks, n.stored, env).value;
      var k' := RestartKeeps(w, p, n, k, env);
      RestartRestores(p, n, env);
      StateKept(w, n, k, m, k');
      var tx := RestoreTx(p, GenesisState(p.confs[0].dFG.value), LastEntry(n.blocks, n.stored), env).value;
      RestoreKept(Restored(p, tx, n, m.confEpoch), env);
    }
  }

  /** The restored block is the committed one or the one left after it, and neither has an empty hash. */
  lemma StateKept(w: World, n: NodeState, k: nat, m: NodeState, k': nat)
    requires Inv(w, n, k) && Inv(w, m, k') && k <= k' <= k + 1 && m.blocks == n.blocks && LeftSolid(w, n, k)
    ensures HasBlock(n) ==> HasBlock(m)
  {
    if k' == k + 1 {
      assert Holds(w, m.blocks, k + 1);
    }
  }

  /** What is left in the store was there, or is the proposal that was pending. */
  lemma LeftStaysSolid(w: World, n: NodeState, k: nat, m: NodeState, k': nat)
    requires Inv(w, n, k) && Inv(w, m, k') && Solid(n) && LeftSolid(w, n, k) && LeavesNoOther(w.rc, n, k, m, k')
    ensures LeftSolid(w, m, k')
  {
  }

  ghost predicate NoEmptyHashes(e: Event) {
    && (!e.OnRequest? && !e.OnWorker? ==> NoEmptyHash(e.env.pow))
    && (e.OnResponse? ==> NoEmptyHash(e.retry.pow) && forall i :: 0 <= i < |e.envs| ==> NoEmptyHash(e.envs[i].pow))
  }

  lemma StepKept(w: World, p: Params, n: NodeState, k: nat, e: Event)
    requires Trust(w) && ParamsOk(p) && Inv(w, n, k) && Permitted(w, n, e) && NoEmptyHashes(e) && Solid(n) && LeftSolid(w, n, k)
    ensures Kept(n, Step(p, n, e))
  {
    match e
    case OnCertificate(cr, env) => CertificateKept(p, n, cr.uc, Some(cr.technical), env);
    case OnProposal(prop, env) => ProposalKept(p, n, prop, env);
    case OnResponse(resp, envs, env, retry) => ResponseKept(p, n, resp, envs, env, retry);
    case OnT1(env) => TimeoutKept(p, n, env);
    case OnRestart(env) => RestartKept(w, p, n, k, env);
    case OnEpochChange(env) => EpochKept(p, n, env);
    case OnRequest(req) => RequestKept(p, n, req);
    case OnWorker =>
  }

  lemma EpochKept(p: Params, n: NodeState, env: Env)
    requires Solid(n)
    ensures Kept(n, HandleEpochChange(p, n, env))
  {
  }

  lemma RequestKept(p: Params, n: NodeState, req: ReplicationRequest)
    requires Solid(n)
    ensures Kept(n, HandleReplicationRequest(p, n, req))
  {
  }

  /** Over every run: once a PoW block is committed, there is one committed ever after. */
  lemma {:induction false} NeverForgets(w: World, p: Params, n: NodeState, k: nat, events: seq<Event>)
    requires Trust(w) && ParamsOk(p) && p.lib == w.lib && Inv(w, n, k) && PermittedRun(w, p, n, events) && Solid(n) && LeftSolid(w, n, k)
    requires forall i :: 0 <= i < |events| ==> EventOk(events[i]) && NoEmptyHashes(events[i])
    ensures Kept(n, Run(p, n, events))
    decreases |events|
  {
    if events != [] {
      StepKept(w, p, n, k, events[0]);
      var k' := StepLinks(w, p, n, k, events[0]);
      LeftStaysSolid(w, n, k, Step(p, n, events[0]), k');
      NeverForgets(w, p, Step(p, n, events[0]), k', events[1..]);
    }
  }
}
