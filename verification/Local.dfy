/**
 What a node keeps on its own account: nothing is assumed here of the root chain, of the library, of
 the messages or of the moment of a restart.
 */
module Local {
  import opened Types
  import opened TxModel
  import opened NodeModel
  import opened Safety
  import opened Runs

  /** Certificate, technical record and leader belong together; the epoch is tracked; a recovering node is quiet. */
  ghost predicate LocalOk(p: Params, n: NodeState) {
    Bound(p.lib, n) && EpochTracked(n) && Quiet(n) && n.tx.dFG >= 1
  }

  /** The part of the state that certificates and epoch changes alone update. */
  ghost predicate SameView(n: NodeState, m: NodeState) {
    && m.luc == n.luc && m.ltr == n.ltr && m.leader == n.leader
    && m.confEpoch == n.confEpoch && m.epochEvent == n.epochEvent && m.loadFailed == n.loadFailed
  }

  lemma UpdateLUCLocal(p: Params, n: NodeState, uc: Certificate, tr: Option<TechnicalRecord>)
    requires LocalOk(p, n) && Attached(p.lib, uc, tr)
    ensures LocalOk(p, UpdateLUC(p, n, uc, tr).node)
  {
    UpdateLUCBinds(p, n, uc, tr);
    UpdateLUCTracksEpoch(p, n, uc, tr);
  }

  lemma SwitchLocal(p: Params, n: NodeState, env: Env)
    requires LocalOk(p, n)
    ensures LocalOk(p, StartRecovery(n)) && LocalOk(p, StartNewRound(n, env))
  {
  }

  lemma CertifyLocal(p: Params, n: NodeState, uc: Certificate, env: Env)
    requires LocalOk(p, n) && !n.status.Recovering?
    ensures LocalOk(p, CertifyWithoutProposal(p, n, uc, env).node)
    ensures n.pending.Some? ==> LocalOk(p, CertifyProposal(n, uc, env).node)
  {
    SwitchLocal(p, n, env);
    if n.pending.Some? {
      var finalized := FinalizeBlock(n, n.pending.value.(cert := Some(uc)), uc, env).node;
      assert LocalOk(p, finalized);
      SwitchLocal(p, finalized, env);
    }
  }

  lemma ActOnCertificateLocal(p: Params, n: NodeState, m: NodeState, uc: Certificate, env: Env)
    requires LocalOk(p, m) && !m.status.Recovering?
    ensures LocalOk(p, ActOnCertificate(p, n, m, uc, env).node)
  {
    SwitchLocal(p, m, env);
    SwitchLocal(p, m.(tx := Revert(m.tx)), env);
    CertifyLocal(p, m, uc, env);
  }

  lemma HandleCertificateLocal(p: Params, n: NodeState, uc: Certificate, tr: Option<TechnicalRecord>, env: Env)
    requires LocalOk(p, n) && Attached(p.lib, uc, tr)
    ensures LocalOk(p, HandleCertificate(p, n, uc, tr, env).node)
  {
    UpdateLUCLocal(p, n, uc, tr);
    var updated := UpdateLUC(p, n, uc, tr);
    if updated.ok && !n.status.Recovering? {
      ActOnCertificateLocal(p, n, updated.node.(status := Normal), uc, env);
    }
  }

  lemma HandleProposalLocal(p: Params, n: NodeState, prop: Option<Proposal>, env: Env)
    requires LocalOk(p, n)
    ensures LocalOk(p, HandleProposal(p, n, prop, env).node)
  {
    if !n.status.Recovering? && prop.Some? && ProposalValid(p, n.confEpoch, prop.value) {
      HandleCertificateLocal(p, n, prop.value.uc.value, Some(prop.value.technical), env);
      var processed := ProcessProposalCertificate(p, n, prop.value, env);
      assert LocalOk(p, processed.node);
      if processed.ok {
        assert SameView(processed.node, FollowProposal(p, processed.node, prop.value, env).node);
      }
    }
  }

  lemma HandleBlockLocal(p: Params, n: NodeState, b: Block, env: Env)
    requires LocalOk(p, n) && n.status.Recovering?
    ensures LocalOk(p, HandleBlock(p, n, b, env).node)
  {
    if BlockValid(p.lib, b) {
      var uc := b.cert.value;
      UpdateLUCLocal(p, n, uc, None);
      var updated := UpdateLUC(p, n, uc, None);
      assert updated.node.status.Recovering?;
      ApplyVerifiedLocal(p, updated.node, b, uc, env);
    }
  }

  lemma ApplyVerifiedLocal(p: Params, n: NodeState, b: Block, uc: Certificate, env: Env)
    requires LocalOk(p, n) && n.status.Recovering?
    ensures LocalOk(p, ApplyVerified(p, n, b, uc, env).node)
  {
    var o := ApplyVerified(p, n, b, uc, env).node;
    assert SameView(n, o);
    assert o.tx.pendingHash == Nil;
  }

  lemma {:induction false} ApplyBlocksLocal(p: Params, n: NodeState, blocks: seq<Block>, envs: seq<Env>)
    requires LocalOk(p, n) && n.status.Recovering? && |envs| == |blocks|
    ensures LocalOk(p, ApplyBlocks(p, n, blocks, envs).node)
    decreases |blocks|
  {
    if blocks != [] {
      HandleBlockLocal(p, n, blocks[0], envs[0]);
      var first := HandleBlock(p, n, blocks[0], envs[0]);
      if first.ok {
        ApplyBlocksLocal(p, first.node, blocks[1..], envs[1..]);
      }
    }
  }

  lemma HandleResponseLocal(p: Params, n: NodeState, resp: ReplicationResponse, envs: seq<Env>, env: Env, retry: Env)
    requires LocalOk(p, n) && (resp.blocks.Some? ==> |envs| == |resp.blocks.value|)
    ensures LocalOk(p, HandleReplicationResponse(p, n, resp, envs, env, retry))
  {
    if n.status.Recovering? && resp.status.Ok? && resp.blocks.Some? && CommittedRound(n) < resp.first {
      ApplyBlocksLocal(p, n, resp.blocks.value, envs);
      var applied := ApplyBlocks(p, n, resp.blocks.value, envs).node;
      var m := StartNewRound(applied.(status := Normal), env);
      assert SameView(applied, m) && LocalOk(p, m);
      HandleProposalLocal(p, m, m.lastProposal, retry);
    }
  }

  lemma InitStateLocal(p: Params, blocks: map<U64, Block>, stored: Option<Block>, env: Env)
    requires ParamsOk(p)
    ensures var n := InitState(p, blocks, stored, env); n.Some? ==> LocalOk(p, n.value)
  {
  }

  lemma StepLocal(p: Params, n: NodeState, e: Event)
    requires ParamsOk(p) && EventOk(e) && LocalOk(p, n)
    ensures LocalOk(p, Step(p, n, e))
  {
    match e
    case OnCertificate(cr, env) =>
      if ResponseValid(p.lib, cr) {
        HandleCertificateLocal(p, n, cr.uc, Some(cr.technical), env);
      }
    case OnProposal(prop, env) => HandleProposalLocal(p, n, prop, env);
    case OnResponse(resp, envs, env, retry) => HandleResponseLocal(p, n, resp, envs, env, retry);
    case OnRestart(env) => InitStateLocal(p, n.blocks, n.stored, env);
    case OnT1(env) =>
      var o := HandleT1Timeout(p, n, env).node;
      assert SameView(n, o) && Quiet(o);
    case OnEpochChange(env) =>
    case OnRequest(req) =>
    case OnWorker =>
  }

  /** After any events whatsoever, from genesis on. */
  lemma {:induction false} RunLocal(p: Params, n: NodeState, events: seq<Event>)
    requires ParamsOk(p) && LocalOk(p, n) && forall i :: 0 <= i < |events| ==> EventOk(events[i])
    ensures LocalOk(p, Run(p, n, events))
    decreases |events|
  {
    if events != [] {
      StepLocal(p, n, events[0]);
      RunLocal(p, Step(p, n, events[0]), events[1..]);
    }
  }

  /** Either there is no technical record and no leader, or the record is the one the latest certificate binds and it names the leader. */
  lemma LatestBelongTogether(p: Params, events: seq<Event>)
    requires ParamsOk(p) && forall i :: 0 <= i < |events| ==> EventOk(events[i])
    ensures var n := Run(p, Genesis(p), events);
            || (n.ltr.None? && n.leader == NO_PEER)
            || (&& n.ltr.Some? && n.luc.Some?
                && SameBytes(p.lib.trHash(n.ltr.value), n.luc.value.trHash)
                && p.lib.decodePeer(n.ltr.value.leader) == Some(n.leader))
  {
    RunLocal(p, Genesis(p), events);
  }

  lemma RecoveringIsQuiet(p: Params, events: seq<Event>)
    requires ParamsOk(p) && forall i :: 0 <= i < |events| ==> EventOk(events[i])
    ensures var n := Run(p, Genesis(p), events);
            n.status.Recovering? ==> n.pending.None? && n.tx.pendingHash == Nil
  {
    RunLocal(p, Genesis(p), events);
  }

  /** The active configuration is the one of the current epoch, or a change is queued, or its last load failed. */
  lemma EpochIsTracked(p: Params, events: seq<Event>)
    requires ParamsOk(p) && forall i :: 0 <= i < |events| ==> EventOk(events[i])
    ensures var n := Run(p, Genesis(p), events);
            n.confEpoch == CurrentEpoch(n) || n.epochEvent || n.loadFailed
  {
    RunLocal(p, Genesis(p), events);
  }
}
