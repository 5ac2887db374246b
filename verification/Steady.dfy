/**
 What messages leave alone: the first certificate, the queue of accepted requests but for its two ends,
 and the configuration. Requests are served in the order they were accepted, and the depth in force is
 that of the active configuration.
 */
module Steady {
  import opened Types
  import opened TxModel
  import opened NodeModel
  import opened Safety
  import opened Runs

  /** First certificate, queue, active configuration and depth are the same. */
  ghost predicate Same(n: NodeState, m: NodeState) {
    m.fuc == n.fuc && m.queue == n.queue && m.confEpoch == n.confEpoch && m.tx.dFG == n.tx.dFG
  }

  lemma FinalizeSteady(n: NodeState, b: Block, uc: Certificate, env: Env)
    ensures Same(n, FinalizeBlock(n, b, uc, env).node)
  {
  }

  lemma CertifySteady(n: NodeState, uc: Certificate, env: Env)
    requires n.pending.Some?
    ensures Same(n, CertifyProposal(n, uc, env).node)
  {
    FinalizeSteady(n, n.pending.value.(cert := Some(uc)), uc, env);
  }

  lemma CertificateSteady(p: Params, n: NodeState, uc: Certificate, tr: Option<TechnicalRecord>, env: Env)
    ensures Same(n, HandleCertificate(p, n, uc, tr, env).node)
  {
    var m := UpdateLUC(p, n, uc, tr).node.(status := Normal);
    CertificateIsActedOn(p, n, m, uc, env);
    if m.pending.Some? {
      CertifySteady(m, uc, env);
    }
  }

  lemma FollowSteady(p: Params, n: NodeState, prop: Proposal, env: Env)
    requires Healthy(n) && prop.uc.Some?
    ensures Same(n, FollowProposal(p, n, prop, env).node)
  {
  }

  lemma ProposalSteady(p: Params, n: NodeState, prop: Option<Proposal>, env: Env)
    requires Healthy(n)
    ensures Same(n, HandleProposal(p, n, prop, env).node)
  {
    if !n.status.Recovering? && prop.Some? && ProposalValid(p, n.confEpoch, prop.value) {
      CertificateSteady(p, n, prop.value.uc.value, Some(prop.value.technical), env);
      var processed := ProcessProposalCertificate(p, n, prop.value, env);
      if processed.ok {
        FollowSteady(p, processed.node, prop.value, env);
      }
    }
  }

  lemma ApplySteady(p: Params, n: NodeState, b: Block, uc: Certificate, env: Env)
    ensures Same(n, ApplyVerified(p, n, b, uc, env).node)
  {
    var verified := FollowerVerify(n.tx, env.pow, uc.ir.hash);
    if verified.Some? {
      FinalizeSteady(n.(tx := verified.value), b, uc, env);
    }
  }

  lemma BlockSteady(p: Params, n: NodeState, b: Block, env: Env)
    ensures Same(n, HandleBlock(p, n, b, env).node)
  {
    if BlockValid(p.lib, b) {
      ApplySteady(p, UpdateLUC(p, n, b.cert.value, None).node, b, b.cert.value, env);
    }
  }

  lemma {:induction false} BlocksSteady(p: Params, n: NodeState, blocks: seq<Block>, envs: seq<Env>)
    requires |envs| == |blocks|
    ensures Same(n, ApplyBlocks(p, n, blocks, envs).node)
    decreases |blocks|
  {
    if blocks != [] {
      var first := HandleBlock(p, n, blocks[0], envs[0]);
      BlockSteady(p, n, blocks[0], envs[0]);
      if first.ok {
        BlocksSteady(p, first.node, blocks[1..], envs[1..]);
      }
    }
  }

  lemma ResponseSteady(p: Params, n: NodeState, resp: ReplicationResponse, envs: seq<Env>, env: Env, retry: Env)
    requires Healthy(n) && (resp.blocks.Some? ==> |envs| == |resp.blocks.value|)
    ensures Same(n, HandleReplicationResponse(p, n, resp, envs, env, retry))
  {
    if resp.blocks.Some? {
      BlocksSteady(p, n, resp.blocks.value, envs);
      var m := StartNewRound(ApplyBlocks(p, n, resp.blocks.value, envs).node.(status := Normal), env);
      ProposalSteady(p, m, m.lastProposal, retry);
    }
  }

  /** Messages and timeouts change none of this; requests and workers only the queue, epoch changes only the configuration. */
  lemma StepSteady(p: Params, n: NodeState, e: Event)
    requires ParamsOk(p) && Healthy(n) && EventOk(e) && !e.OnRestart?
    ensures e.OnRequest? || e.OnWorker? || e.OnEpochChange? || Same(n, Step(p, n, e))
    ensures Step(p, n, e).fuc == n.fuc
  {
    match e
    case OnCertificate(cr, env) => CertificateSteady(p, n, cr.uc, Some(cr.technical), env);
    case OnProposal(prop, env) => ProposalSteady(p, n, prop, env);
    case OnResponse(resp, envs, env, retry) => ResponseSteady(p, n, resp, envs, env, retry);
    case _ =>
  }

  // ---- requests ----

  /** The request is one that can be answered: for a partition, from a node, with an end that is open or not before the beginning. */
  ghost predicate Sensible(r: ReplicationRequest) {
    r.partition > 0 && |r.node| > 0 && (r.end > 0 ==> r.begin <= r.end)
  }

  /** The blocks asked for start after the first certificate and not after the committed one. */
  ghost predicate Serves(n: NodeState, r: ReplicationRequest) {
    RoundOf(n.fuc) < r.begin <= RoundOf(n.tx.committedUC)
  }

  /** The request is accepted: sensible, for this shard, for blocks that are served, with room in the queue. */
  ghost predicate Admits(p: Params, n: NodeState, r: ReplicationRequest) {
    Sensible(r) && r.partition == p.partition && r.shard == p.shard && Serves(n, r) && |n.queue| < p.queueCapacity
  }

  /** Which requests are dropped, which are refused and why, and which are queued behind the others. */
  lemma AnswerIff(p: Params, n: NodeState, r: ReplicationRequest)
    ensures var status, mine := RequestStatus(p, n, r), r.partition == p.partition && r.shard == p.shard;
            && (status == None <==> !Sensible(r))
            && (status == Some(WrongShard) <==> Sensible(r) && !mine)
            && (status == Some(BlocksNotFound) <==> Sensible(r) && mine && !Serves(n, r))
            && (status == Some(Busy) <==> Sensible(r) && mine && Serves(n, r) && |n.queue| >= p.queueCapacity)
            && (status == Some(Ok) <==> Admits(p, n, r))
    ensures HandleReplicationRequest(p, n, r) == if Admits(p, n, r) then n.(queue := n.queue + [r]) else n
  {
  }

  ghost function AdmittedBy(p: Params, n: NodeState, e: Event): seq<ReplicationRequest> {
    if e.OnRequest? && Admits(p, n, e.req) then [e.req] else []
  }

  ghost function ServedBy(n: NodeState, e: Event): seq<ReplicationRequest> {
    if e.OnWorker? && n.queue != [] then [n.queue[0]] else []
  }

  lemma TurnKeepsOrder(p: Params, n: NodeState, e: Event)
    requires ParamsOk(p) && Healthy(n) && EventOk(e) && !e.OnRestart?
    ensures n.queue + AdmittedBy(p, n, e) == ServedBy(n, e) + Step(p, n, e).queue
  {
    StepSteady(p, n, e);
    if e.OnRequest? {
      AnswerIff(p, n, e.req);
    }
  }

  /** The requests accepted over the run, in order. */
  ghost function AdmittedOver(p: Params, n: NodeState, events: seq<Event>): seq<ReplicationRequest>
    requires ParamsOk(p) && Healthy(n) && forall i :: 0 <= i < |events| ==> EventOk(events[i])
    decreases |events|
  {
    if events == [] then [] else AdmittedBy(p, n, events[0]) + AdmittedOver(p, Step(p, n, events[0]), events[1..])
  }

  /** The requests that workers take over the run, in order. */
  ghost function ServedOver(p: Params, n: NodeState, events: seq<Event>): seq<ReplicationRequest>
    requires ParamsOk(p) && Healthy(n) && forall i :: 0 <= i < |events| ==> EventOk(events[i])
    decreases |events|
  {
    if events == [] then [] else ServedBy(n, events[0]) + ServedOver(p, Step(p, n, events[0]), events[1..])
  }

  /** Until the next restart every accepted request is served once, in the order of acceptance, or is still queued; nothing else is. */
  lemma {:induction false} ServedInOrder(p: Params, n: NodeState, events: seq<Event>)
    requires ParamsOk(p) && Healthy(n) && forall i :: 0 <= i < |events| ==> EventOk(events[i]) && !events[i].OnRestart?
    ensures n.queue + AdmittedOver(p, n, events) == ServedOver(p, n, events) + Run(p, n, events).queue
    decreases |events|
  {
    if events != [] {
      var m := Step(p, n, events[0]);
      TurnKeepsOrder(p, n, events[0]);
      ServedInOrder(p, m, events[1..]);
      InTurn(n.queue, AdmittedBy(p, n, events[0]), AdmittedOver(p, m, events[1..]), ServedBy(n, events[0]), m.queue,
        ServedOver(p, m, events[1..]), Run(p, m, events[1..]).queue);
    }
  }

  lemma InTurn<T>(q: seq<T>, a: seq<T>, as': seq<T>, s: seq<T>, q': seq<T>, ss: seq<T>, q'': seq<T>)
    requires q + a == s + q' && q' + as' == ss + q''
    ensures q + (a + as') == s + ss + q''
  {
    assert q + (a + as') == (q + a) + as' == s + (q' + as');
  }

  // ---- configuration and depth ----

  predicate Usable(conf: ShardConf) {
    conf.dFG.Some? && conf.dFG.value > 0
  }

  /**
   What an epoch change does: it is done with, and if the configuration of the current epoch can be read it
   becomes the active one, with its depth if that is usable; otherwise the old one stays and the load has failed.
   */
  lemma EpochChanges(p: Params, n: NodeState, env: Env)
    requires ParamsOk(p)
    ensures var m, epoch := HandleEpochChange(p, n, env), CurrentEpoch(n);
            var read := env.confReadOk && epoch in p.confs;
            && !m.epochEvent && m.loadFailed == !read
            && m.confEpoch == (if read then epoch else n.confEpoch)
            && m.tx.dFG == (if read && Usable(p.confs[epoch]) then p.confs[epoch].dFG.value else n.tx.dFG)
            && m == n.(epochEvent := false, loadFailed := m.loadFailed, confEpoch := m.confEpoch, tx := n.tx.(dFG := m.tx.dFG))
  {
  }

  /** The active configuration is a stored one, and if its depth is usable it is the one in force. */
  ghost predicate DepthInForce(p: Params, n: NodeState) {
    n.confEpoch in p.confs && (Usable(p.confs[n.confEpoch]) ==> n.tx.dFG == p.confs[n.confEpoch].dFG.value)
  }

  lemma StartDepthInForce(p: Params, n: NodeState, env: Env)
    requires ParamsOk(p) && InitState(p, n.blocks, n.stored, env).Some?
    ensures DepthInForce(p, InitState(p, n.blocks, n.stored, env).value)
  {
  }

  lemma StepDepth(p: Params, n: NodeState, e: Event)
    requires ParamsOk(p) && Healthy(n) && EventOk(e) && DepthInForce(p, n)
    ensures DepthInForce(p, Step(p, n, e))
  {
    match e
    case OnRestart(env) =>
      if InitState(p, n.blocks, n.stored, env).Some? {
        StartDepthInForce(p, n, env);
      }
    case OnEpochChange(env) => EpochChanges(p, n, env);
    case OnRequest(req) => AnswerIff(p, n, req);
    case OnWorker =>
    case _ => StepSteady(p, n, e);
  }

  lemma {:induction false} RunDepth(p: Params, n: NodeState, events: seq<Event>)
    requires ParamsOk(p) && Healthy(n) && DepthInForce(p, n) && forall i :: 0 <= i < |events| ==> EventOk(events[i])
    ensures DepthInForce(p, Run(p, n, events))
    decreases |events|
  {
    if events != [] {
      StepDepth(p, n, events[0]);
      RunDepth(p, Step(p, n, events[0]), events[1..]);
    }
  }

  /** After any events whatsoever, restarts included, the depth in force is that of the active configuration, as long as that has a usable one. */
  lemma DepthIsConfigured(p: Params, events: seq<Event>)
    requires ParamsOk(p) && forall i :: 0 <= i < |events| ==> EventOk(events[i])
    ensures DepthInForce(p, Run(p, Genesis(p), events))
  {
    RunDepth(p, Genesis(p), events);
  }
}
