/** The calls a node makes on its transaction system, event by event. */
module NodeCalls {
  import opened Types
  import opened PowTypes
  import opened TxModel
  import opened NodeModel
  import opened Runs
  import opened FinalityRuns
  import opened TxBook
  import Links

  // ---- the calls of the handlers ----

  ghost function RecoveryCalls(n: NodeState): seq<TxEvent> {
    if n.status.Recovering? then [] else [Undo]
  }

  lemma RecoveryTraces(n: NodeState, pow: PowAnswers, uc: Option<Certificate>)
    requires n.tx.dFG >= 1
    ensures Traces(n.tx, RecoveryCalls(n), StartRecovery(n).tx, pow, uc)
  {
    TraceNone(n.tx, pow, uc);
    TraceOne(n.tx, Undo, pow, uc);
  }

  ghost function FinalizeCalls(n: NodeState, uc: Certificate, env: Env): seq<TxEvent> {
    if !n.status.Initializing? && !env.writeOk then [] else [Certify(uc)]
  }

  lemma FinalizeTraces(n: NodeState, b: Block, uc: Certificate, env: Env, pow: PowAnswers)
    requires n.tx.dFG >= 1
    ensures Traces(n.tx, FinalizeCalls(n, uc, env), FinalizeBlock(n, b, uc, env).node.tx, pow, Some(uc))
  {
    TraceNone(n.tx, pow, Some(uc));
    TraceOne(n.tx, Certify(uc), pow, Some(uc));
  }

  ghost function WithoutProposalCalls(p: Params, n: NodeState, uc: Certificate, env: Env): seq<TxEvent> {
    if CertifyWithoutProposal(p, n, uc, env).ok then [] else RecoveryCalls(n)
  }

  lemma WithoutProposalTraces(p: Params, n: NodeState, uc: Certificate, env: Env, pow: PowAnswers)
    requires n.tx.dFG >= 1
    ensures Traces(n.tx, WithoutProposalCalls(p, n, uc, env), CertifyWithoutProposal(p, n, uc, env).node.tx, pow, Some(uc))
  {
    TraceNone(n.tx, pow, Some(uc));
    RecoveryTraces(n, pow, Some(uc));
  }

  ghost function WithProposalCalls(n: NodeState, uc: Certificate, env: Env): seq<TxEvent> {
    if !Links.Matches(n, uc) then RecoveryCalls(n)
    else if !env.sealOk then []
    else FinalizePendingCalls(n, n.pending.value.(cert := Some(uc)), uc, env)
  }

  ghost function FinalizePendingCalls(n: NodeState, b: Block, uc: Certificate, env: Env): seq<TxEvent> {
    var finalized := FinalizeBlock(n, b, uc, env);
    FinalizeCalls(n, uc, env) + (if finalized.ok then [] else RecoveryCalls(finalized.node))
  }

  lemma WithProposalTraces(n: NodeState, uc: Certificate, env: Env, pow: PowAnswers)
    requires n.tx.dFG >= 1 && n.pending.Some?
    ensures Traces(n.tx, WithProposalCalls(n, uc, env), CertifyProposal(n, uc, env).node.tx, pow, Some(uc))
  {
    TraceNone(n.tx, pow, Some(uc));
    if Links.Matches(n, uc) {
      FinalizePendingTraces(n, n.pending.value.(cert := Some(uc)), uc, env, pow);
    } else {
      RecoveryTraces(n, pow, Some(uc));
    }
  }

  lemma FinalizePendingTraces(n: NodeState, b: Block, uc: Certificate, env: Env, pow: PowAnswers)
    requires n.tx.dFG >= 1
    ensures var finalized := FinalizeBlock(n, b, uc, env);
            Traces(n.tx, FinalizePendingCalls(n, b, uc, env),
              (if finalized.ok then finalized.node else StartRecovery(finalized.node)).tx, pow, Some(uc))
  {
    var finalized := FinalizeBlock(n, b, uc, env);
    FinalizeTraces(n, b, uc, env, pow);
    TraceNone(finalized.node.tx, pow, Some(uc));
    RecoveryTraces(finalized.node, pow, Some(uc));
    TraceJoin(n.tx, FinalizeCalls(n, uc, env), finalized.node.tx, if finalized.ok then [] else RecoveryCalls(finalized.node),
      (if finalized.ok then finalized.node else StartRecovery(finalized.node)).tx, pow, Some(uc));
  }

  /** m is the node after the update of the latest certificate. */
  ghost function ActCalls(p: Params, n: NodeState, m: NodeState, uc: Certificate, env: Env): seq<TxEvent> {
    if IsDuplicate(uc, n.luc) then []
    else if IsRepeat(uc, n.luc) then [Undo]
    else if !p.lib.successor(uc, m.tx.committedUC) then RecoveryCalls(m)
    else if m.pending.None? then WithoutProposalCalls(p, m, uc, env)
    else WithProposalCalls(m, uc, env)
  }

  lemma ActTraces(p: Params, n: NodeState, m: NodeState, uc: Certificate, env: Env, pow: PowAnswers)
    requires m.tx.dFG >= 1
    ensures Traces(m.tx, ActCalls(p, n, m, uc, env), ActOnCertificate(p, n, m, uc, env).node.tx, pow, Some(uc))
  {
    TraceNone(m.tx, pow, Some(uc));
    TraceOne(m.tx, Undo, pow, Some(uc));
    RecoveryTraces(m, pow, Some(uc));
    if m.pending.None? {
      WithoutProposalTraces(p, m, uc, env, pow);
    } else {
      WithProposalTraces(m, uc, env, pow);
    }
  }

  ghost function CertificateCalls(p: Params, n: NodeState, uc: Certificate, tr: Option<TechnicalRecord>, env: Env): seq<TxEvent> {
    var updated := UpdateLUC(p, n, uc, tr);
    if !updated.ok || n.status.Recovering? then [] else ActCalls(p, n, updated.node.(status := Normal), uc, env)
  }

  lemma CertificateTraces(p: Params, n: NodeState, uc: Certificate, tr: Option<TechnicalRecord>, env: Env, pow: PowAnswers)
    requires n.tx.dFG >= 1
    ensures Traces(n.tx, CertificateCalls(p, n, uc, tr, env), HandleCertificate(p, n, uc, tr, env).node.tx, pow, Some(uc))
  {
    TraceNone(n.tx, pow, Some(uc));
    ActTraces(p, n, UpdateLUC(p, n, uc, tr).node.(status := Normal), uc, env, pow);
  }

  ghost function SendCalls(env: Env): seq<TxEvent> {
    if env.encodeOk && !env.pendingWriteOk then [Undo] else []
  }

  lemma SendTraces(p: Params, n: NodeState, author: PeerID, root: Slice, env: Env, uc: Option<Certificate>)
    requires n.luc.Some? && n.tx.dFG >= 1
    ensures Traces(n.tx, SendCalls(env), SendCertificationRequest(p, n, author, root, env).node.tx, env.pow, uc)
  {
    TraceNone(n.tx, env.pow, uc);
    TraceOne(n.tx, Undo, env.pow, uc);
  }

  ghost function Ask(t: TxState, root: Slice, env: Env, rest: seq<TxEvent>): seq<TxEvent> {
    [Verify(env.pow, ViewOf(env.pow), root)] + (if FollowerVerify(t, env.pow, root).Some? then rest else [Undo])
  }

  /** Verifying a root, and taking the change back or going on. */
  lemma AskTraces(t: TxState, root: Slice, env: Env, rest: seq<TxEvent>, r: TxState, uc: Option<Certificate>)
    requires t.dFG >= 1
    requires var verified := FollowerVerify(t, env.pow, root);
             if verified.Some? then Traces(verified.value, rest, r, env.pow, uc) else r == Revert(t)
    ensures Traces(t, Ask(t, root, env, rest), r, env.pow, uc)
  {
    var e := Verify(env.pow, ViewOf(env.pow), root);
    TraceOne(t, e, env.pow, uc);
    TraceOne(Apply(t, e), Undo, env.pow, uc);
    TraceJoin(t, [e], Apply(t, e), if FollowerVerify(t, env.pow, root).Some? then rest else [Undo], r, env.pow, uc);
  }

  ghost function FollowCalls(p: Params, n: NodeState, prop: Proposal, env: Env): seq<TxEvent>
    requires prop.uc.Some?
  {
    var root := StateRoot(n.tx);
    if n.leader == NO_PEER || prop.node != n.leader || root.None? then []
    else if !p.lib.initial(prop.uc.value) && !SameBytes(prop.uc.value.ir.hash, root.value) then []
    else Ask(n.tx, prop.root, env, SendCalls(env))
  }

  lemma FollowTraces(p: Params, n: NodeState, prop: Proposal, env: Env, uc: Option<Certificate>)
    requires Healthy(n) && prop.uc.Some?
    ensures Traces(n.tx, FollowCalls(p, n, prop, env), FollowProposal(p, n, prop, env).node.tx, env.pow, uc)
  {
    TraceNone(n.tx, env.pow, uc);
    if FollowCalls(p, n, prop, env) != [] {
      var verified := FollowerVerify(n.tx, env.pow, prop.root);
      if verified.Some? {
        SendTraces(p, n.(tx := verified.value), prop.node, prop.root, env, uc);
      }
      AskTraces(n.tx, prop.root, env, SendCalls(env), FollowProposal(p, n, prop, env).node.tx, uc);
    }
  }

  ghost function ProposalCalls(p: Params, n: NodeState, prop: Option<Proposal>, env: Env): seq<TxEvent> {
    if n.status.Recovering? || prop.None? || !ProposalValid(p, n.confEpoch, prop.value) then [] else
    var uc := prop.value.uc.value;
    var processed := ProcessProposalCertificate(p, n, prop.value, env);
    (if uc.rootRound > RootRoundOf(n.luc) then CertificateCalls(p, n, uc, Some(prop.value.technical), env) else [])
    + (if processed.ok then FollowCalls(p, processed.node, prop.value, env) else [])
  }

  /** The certificate inside a proposal. */
  ghost function Inside(prop: Option<Proposal>): Option<Certificate> {
    if prop.Some? then prop.value.uc else None
  }

  lemma ProposalTraces(p: Params, n: NodeState, prop: Option<Proposal>, env: Env)
    requires Healthy(n)
    ensures Traces(n.tx, ProposalCalls(p, n, prop, env), HandleProposal(p, n, prop, env).node.tx, env.pow, Inside(prop))
  {
    TraceNone(n.tx, env.pow, Inside(prop));
    if !n.status.Recovering? && prop.Some? && ProposalValid(p, n.confEpoch, prop.value) {
      var uc := prop.value.uc.value;
      var processed := ProcessProposalCertificate(p, n, prop.value, env);
      CertificateTraces(p, n, uc, Some(prop.value.technical), env, env.pow);
      TraceNone(processed.node.tx, env.pow, Inside(prop));
      var first := if uc.rootRound > RootRoundOf(n.luc) then CertificateCalls(p, n, uc, Some(prop.value.technical), env) else [];
      assert Traces(n.tx, first, processed.node.tx, env.pow, Inside(prop));
      if processed.ok {
        FollowTraces(p, processed.node, prop.value, env, Inside(prop));
      }
      TraceJoin(n.tx, first, processed.node.tx, if processed.ok then FollowCalls(p, processed.node, prop.value, env) else [],
        HandleProposal(p, n, prop, env).node.tx, env.pow, Inside(prop));
    }
  }

  ghost function TimeoutCalls(p: Params, n: NodeState, env: Env): seq<TxEvent>
    requires Healthy(n) && p.id != NO_PEER
  {
    if n.status.Recovering? || n.leader != p.id then []
    else [Propose(env.pow, ViewOf(env.pow))] +
         (if LeaderPropose(n.tx, env.pow).None? || n.ltr.None? || !env.proposalSent then [Undo]
          else SendCalls(env) + (if HandleT1Timeout(p, n, env).request.Some? then [] else [Undo]))
  }

  lemma TimeoutTraces(p: Params, n: NodeState, env: Env, uc: Option<Certificate>)
    requires Healthy(n) && p.id != NO_PEER
    ensures Traces(n.tx, TimeoutCalls(p, n, env), HandleT1Timeout(p, n, env).node.tx, env.pow, uc)
  {
    TraceNone(n.tx, env.pow, uc);
    if !n.status.Recovering? && n.leader == p.id {
      var e := Propose(env.pow, ViewOf(env.pow));
      var m := n.(tx := Apply(n.tx, e));
      TraceOne(n.tx, e, env.pow, uc);
      TraceOne(m.tx, Undo, env.pow, uc);
      if LeaderPropose(n.tx, env.pow).None? || n.ltr.None? || !env.proposalSent {
        TraceJoin(n.tx, [e], m.tx, [Undo], Revert(m.tx), env.pow, uc);
      } else {
        var sent := SendCertificationRequest(p, m, p.id, m.tx.pendingHash, env);
        SendTraces(p, m, p.id, m.tx.pendingHash, env, uc);
        TraceNone(sent.node.tx, env.pow, uc);
        TraceOne(sent.node.tx, Undo, env.pow, uc);
        var last := if HandleT1Timeout(p, n, env).request.Some? then [] else [Undo];
        var r := HandleT1Timeout(p, n, env).node.tx;
        TraceJoin(m.tx, SendCalls(env), sent.node.tx, last, r, env.pow, uc);
        TraceJoin(n.tx, [e], m.tx, SendCalls(env) + last, r, env.pow, uc);
      }
    }
  }

  ghost function AppliedCalls(p: Params, n: NodeState, b: Block, uc: Certificate, env: Env): seq<TxEvent> {
    if !ExtendsLedger(p, n, b, uc) then [] else Ask(n.tx, uc.ir.hash, env, VerifiedCalls(n, b, uc, env))
  }

  /** What follows a root that verified. */
  ghost function VerifiedCalls(n: NodeState, b: Block, uc: Certificate, env: Env): seq<TxEvent> {
    var verified := FollowerVerify(n.tx, env.pow, uc.ir.hash);
    if verified.None? || !SummaryMatches(uc.ir.hash, uc.ir) then [Undo] else FinalizeOrRevertCalls(n.(tx := verified.value), b, uc, env)
  }

  lemma VerifiedTraces(n: NodeState, b: Block, uc: Certificate, env: Env, t: TxState)
    requires n.tx.dFG >= 1 && FollowerVerify(n.tx, env.pow, uc.ir.hash) == Some(t)
    ensures var r := if SummaryMatches(uc.ir.hash, uc.ir) then FinalizeOrRevert(n.(tx := t), b, uc, env).node.tx else Revert(t);
            Traces(t, VerifiedCalls(n, b, uc, env), r, env.pow, Some(uc))
  {
    TraceOne(t, Undo, env.pow, Some(uc));
    FinalizeOrRevertTraces(n.(tx := t), b, uc, env);
  }

  ghost function FinalizeOrRevertCalls(n: NodeState, b: Block, uc: Certificate, env: Env): seq<TxEvent> {
    FinalizeCalls(n, uc, env) + (if FinalizeBlock(n, b, uc, env).ok then [] else [Undo])
  }

  lemma FinalizeOrRevertTraces(n: NodeState, b: Block, uc: Certificate, env: Env)
    requires n.tx.dFG >= 1
    ensures Traces(n.tx, FinalizeOrRevertCalls(n, b, uc, env), FinalizeOrRevert(n, b, uc, env).node.tx, env.pow, Some(uc))
  {
    var finalized := FinalizeBlock(n, b, uc, env);
    FinalizeTraces(n, b, uc, env, env.pow);
    TraceNone(finalized.node.tx, env.pow, Some(uc));
    TraceOne(finalized.node.tx, Undo, env.pow, Some(uc));
    TraceJoin(n.tx, FinalizeCalls(n, uc, env), finalized.node.tx, if finalized.ok then [] else [Undo],
      FinalizeOrRevert(n, b, uc, env).node.tx, env.pow, Some(uc));
  }

  lemma AppliedTraces(p: Params, n: NodeState, b: Block, uc: Certificate, env: Env)
    requires n.tx.dFG >= 1
    ensures Traces(n.tx, AppliedCalls(p, n, b, uc, env), ApplyVerified(p, n, b, uc, env).node.tx, env.pow, Some(uc))
  {
    TraceNone(n.tx, env.pow, Some(uc));
    if ExtendsLedger(p, n, b, uc) {
      var verified := FollowerVerify(n.tx, env.pow, uc.ir.hash);
      if verified.Some? {
        VerifiedTraces(n, b, uc, env, verified.value);
        assert Revert(verified.value) == Revert(n.tx);
      }
      AskTraces(n.tx, uc.ir.hash, env, VerifiedCalls(n, b, uc, env), ApplyVerified(p, n, b, uc, env).node.tx, Some(uc));
    }
  }

  ghost function BlockCalls(p: Params, n: NodeState, b: Block, env: Env): seq<TxEvent> {
    if !BlockValid(p.lib, b) then [] else
    var uc := b.cert.value;
    var updated := UpdateLUC(p, n, uc, None);
    if !updated.ok || uc.ir.round <= CommittedRound(n) then []
    else if !p.lib.successor(uc, n.tx.committedUC) then (if n.status.Initializing? then [] else RecoveryCalls(n))
    else AppliedCalls(p, updated.node, b, uc, env)
  }

  lemma BlockTraces(p: Params, n: NodeState, b: Block, env: Env)
    requires n.tx.dFG >= 1
    ensures Traces(n.tx, BlockCalls(p, n, b, env), HandleBlock(p, n, b, env).node.tx, env.pow, b.cert)
  {
    TraceNone(n.tx, env.pow, b.cert);
    if BlockValid(p.lib, b) {
      var updated := UpdateLUC(p, n, b.cert.value, None).node;
      RecoveryTraces(updated, env.pow, b.cert);
      AppliedTraces(p, updated, b, b.cert.value, env);
    }
  }

  ghost function BlocksCalls(p: Params, n: NodeState, blocks: seq<Block>, envs: seq<Env>): seq<TxEvent>
    requires |envs| == |blocks|
    decreases |blocks|
  {
    if blocks == [] then [] else
    var first := HandleBlock(p, n, blocks[0], envs[0]);
    BlockCalls(p, n, blocks[0], envs[0]) + (if first.ok then BlocksCalls(p, first.node, blocks[1..], envs[1..]) else [])
  }

  ghost function FinishCalls(p: Params, n: NodeState, env: Env, retry: Env): seq<TxEvent> {
    ProposalCalls(p, StartNewRound(n.(status := Normal), env), n.lastProposal, retry)
  }

  lemma FinishTraces(p: Params, n: NodeState, env: Env, retry: Env)
    requires Healthy(n)
    ensures Traces(n.tx, FinishCalls(p, n, env, retry), FinishRecovery(p, n, env, retry).tx, retry.pow, Inside(n.lastProposal))
  {
    var m := StartNewRound(n.(status := Normal), env);
    ProposalTraces(p, m, m.lastProposal, retry);
  }

  ghost function ResponseCalls(p: Params, n: NodeState, resp: ReplicationResponse, envs: seq<Env>, env: Env, retry: Env): seq<TxEvent>
    requires resp.blocks.Some? ==> |envs| == |resp.blocks.value|
  {
    if !n.status.Recovering? || !resp.status.Ok? || resp.blocks.None? || resp.first <= CommittedRound(n) then [] else
    var applied := ApplyBlocks(p, n, resp.blocks.value, envs);
    BlocksCalls(p, n, resp.blocks.value, envs)
    + (if applied.ok && RecoveryComplete(applied.node) then FinishCalls(p, applied.node, env, retry) else [])
  }

  ghost function EpochCalls(p: Params, n: NodeState, env: Env): seq<TxEvent> {
    if !n.epochEvent || !env.confReadOk || CurrentEpoch(n) !in p.confs then [] else [Configure(p.confs[CurrentEpoch(n)])]
  }

  ghost function RestartCalls(p: Params, n: NodeState, env: Env): seq<TxEvent>
    requires ParamsOk(p)
  {
    if InitState(p, n.blocks, n.stored, env).None? then [] else
    var entry := LastEntry(n.blocks, n.stored);
    var dFG := p.confs[0].dFG.value;
    var tx := RestoreTx(p, GenesisState(dFG), entry, env).value;
    var saved := if entry.None? then None else Some(Saved(p.confs[entry.value.cert.value.ir.epoch], entry.value.cert.value));
    [Reopen(dFG, saved, env.pow)] + RestoreCalls(tx, n.stored, env)
  }

  ghost function RestoreCalls(tx: TxState, stored: Option<Block>, env: Env): seq<TxEvent> {
    if !env.pendingReadOk || stored.None? || stored.value.cert.None? then [] else
    var ir := stored.value.cert.value.ir;
    if !SameBytes(StateHashOf(tx.committedUC), ir.previousHash) then []
    else Ask(tx, ir.hash, env, if SummaryMatches(ir.hash, ir) then [] else [Undo])
  }

  lemma RestoreTraces(n: NodeState, env: Env)
    requires n.tx.dFG >= 1
    ensures Traces(n.tx, RestoreCalls(n.tx, n.stored, env), RestoreProposal(n, env).tx, env.pow, None)
  {
    TraceNone(n.tx, env.pow, None);
    if RestoreCalls(n.tx, n.stored, env) != [] {
      var ir := n.stored.value.cert.value.ir;
      var verified := FollowerVerify(n.tx, env.pow, ir.hash);
      if verified.Some? {
        TraceNone(verified.value, env.pow, None);
        TraceOne(verified.value, Undo, env.pow, None);
      }
      AskTraces(n.tx, ir.hash, env, if SummaryMatches(ir.hash, ir) then [] else [Undo], RestoreProposal(n, env).tx, None);
    }
  }

  ghost function StepCalls(p: Params, n: NodeState, e: Event): seq<TxEvent>
    requires ParamsOk(p) && Healthy(n) && EventOk(e)
  {
    match e
    case OnCertificate(cr, env) =>
      if ResponseValid(p.lib, cr) && cr.partition == p.partition && cr.shard == p.shard
      then CertificateCalls(p, n, cr.uc, Some(cr.technical), env) else []
    case OnProposal(prop, env) => ProposalCalls(p, n, prop, env)
    case OnRequest(_) => []
    case OnResponse(resp, envs, env, retry) => ResponseCalls(p, n, resp, envs, env, retry)
    case OnT1(env) => TimeoutCalls(p, n, env)
    case OnEpochChange(env) => EpochCalls(p, n, env)
    case OnWorker => []
    case OnRestart(env) => RestartCalls(p, n, env)
  }

  ghost function RunCalls(p: Params, n: NodeState, events: seq<Event>): seq<TxEvent>
    requires ParamsOk(p) && Healthy(n) && forall i :: 0 <= i < |events| ==> EventOk(events[i])
    decreases |events|
  {
    if events == [] then [] else StepCalls(p, n, events[0]) + RunCalls(p, Step(p, n, events[0]), events[1..])
  }
}
