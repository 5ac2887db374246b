/** Runs of a node, and of a system of nodes, under any messages in any order. */
module Runs {
  import opened Types
  import opened TxModel
  import opened NodeModel
  import opened RootChain
  import opened Safety
  import opened Restart

  /**
   One turn of the main loop, of a replication worker, or a restart of the process. Messages are
   arbitrary, so loss, duplication, reordering and forgery are all covered.
   */
  datatype Event =
    | OnCertificate(cr: CertificationResponse, env: Env)
    | OnProposal(prop: Option<Proposal>, env: Env)
    | OnRequest(req: ReplicationRequest)
    | OnResponse(resp: ReplicationResponse, envs: seq<Env>, env: Env, retry: Env)
    | OnT1(env: Env)
    | OnEpochChange(env: Env)
    | OnWorker
    | OnRestart(env: Env)

  predicate EventOk(e: Event) {
    e.OnResponse? && e.resp.blocks.Some? ==> |e.envs| == |e.resp.blocks.value|
  }

  /** A restart that fails leaves the store as it was, for the next attempt. */
  ghost function Step(p: Params, n: NodeState, e: Event): (m: NodeState)
    requires ParamsOk(p) && Healthy(n) && EventOk(e)
    ensures Healthy(m)
  {
    match e
    case OnCertificate(cr, env) => HandleCertificationResponse(p, n, cr, env).node
    case OnProposal(prop, env) => HandleProposal(p, n, prop, env).node
    case OnRequest(req) => HandleReplicationRequest(p, n, req)
    case OnResponse(resp, envs, env, retry) => HandleReplicationResponse(p, n, resp, envs, env, retry)
    case OnT1(env) => HandleT1Timeout(p, n, env).node
    case OnEpochChange(env) => if n.epochEvent then HandleEpochChange(p, n, env) else n
    case OnWorker => if n.queue == [] then n else n.(queue := n.queue[1..])
    case OnRestart(env) => var m := InitState(p, n.blocks, n.stored, env); if m.Some? then m.value else n
  }

  /** The environment behaves as the optional parts of the invariant ask, and restarts are safe. */
  ghost predicate Permitted(w: World, n: NodeState, e: Event) {
    && EventOk(e)
    && (!e.OnRequest? && !e.OnWorker? ==> EnvOk(w, e.env))
    && (e.OnResponse? ==> EnvOk(w, e.retry) && forall i :: 0 <= i < |e.envs| ==> EnvOk(w, e.envs[i]))
    && (e.OnRestart? ==> SafeToRestart(n))
  }

  lemma RestartStepKeeps(w: World, p: Params, n: NodeState, k: nat, e: Event) returns (k': nat)
    requires Trust(w) && ParamsOk(p) && p.lib == w.lib && Inv(w, n, k) && Permitted(w, n, e) && e.OnRestart?
    ensures k <= k' && Inv(w, Step(p, n, e), k')
  {
    k' := k;
    if InitState(p, n.blocks, n.stored, e.env).Some? {
      k' := RestartKeeps(w, p, n, k, e.env);
    }
  }

  /** Every step keeps the invariant, and no step takes the node back to an earlier record. */
  lemma StepKeeps(w: World, p: Params, n: NodeState, k: nat, e: Event) returns (k': nat)
    requires Trust(w) && ParamsOk(p) && p.lib == w.lib && Inv(w, n, k) && Permitted(w, n, e)
    ensures k <= k' && Inv(w, Step(p, n, e), k')
  {
    k' := k;
    match e
    case OnCertificate(cr, env) =>
      if ResponseValid(p.lib, cr) && cr.partition == p.partition && cr.shard == p.shard {
        k' := HandleCertificateKeeps(w, p, n, k, cr.uc, Some(cr.technical), env);
      }
    case OnProposal(prop, env) => k' := HandleProposalKeeps(w, p, n, k, prop, env);
    case OnRequest(req) => HandleReplicationRequestKeeps(w, p, n, k, req);
    case OnResponse(resp, envs, env, retry) => k' := HandleReplicationResponseKeeps(w, p, n, k, resp, envs, env, retry);
    case OnT1(env) => HandleT1TimeoutKeeps(w, p, n, k, env);
    case OnEpochChange(env) => HandleEpochChangeKeeps(w, p, n, k, env);
    case OnWorker => WorkerKeeps(w, n, k);
    case OnRestart(env) => k' := RestartStepKeeps(w, p, n, k, e);
  }

  lemma WorkerKeeps(w: World, n: NodeState, k: nat)
    requires Inv(w, n, k)
    ensures n.queue != [] ==> Inv(w, n.(queue := n.queue[1..]), k)
  {
  }

  // ---- runs of one node ----

  ghost function Genesis(p: Params): (n: NodeState)
    requires ParamsOk(p)
    ensures Healthy(n)
  {
    NodeState(Initializing, None, None, None, NO_PEER, None, None, GenesisState(p.confs[0].dFG.value), map[], None, [], p.firstEpoch, false, false)
  }

  ghost predicate PermittedRun(w: World, p: Params, n: NodeState, events: seq<Event>)
    requires ParamsOk(p) && Healthy(n)
    decreases |events|
  {
    events == [] || (Permitted(w, n, events[0]) && PermittedRun(w, p, Step(p, n, events[0]), events[1..]))
  }

  ghost function Run(p: Params, n: NodeState, events: seq<Event>): (m: NodeState)
    requires ParamsOk(p) && Healthy(n) && forall i :: 0 <= i < |events| ==> EventOk(events[i])
    ensures Healthy(m)
    decreases |events|
  {
    if events == [] then n else Run(p, Step(p, n, events[0]), events[1..])
  }

  lemma {:induction false} PermittedEventsOk(w: World, p: Params, n: NodeState, events: seq<Event>)
    requires ParamsOk(p) && Healthy(n) && PermittedRun(w, p, n, events)
    ensures forall i :: 0 <= i < |events| ==> EventOk(events[i])
    decreases |events|
  {
    if events != [] {
      PermittedEventsOk(w, p, Step(p, n, events[0]), events[1..]);
      forall i | 0 <= i < |events|
        ensures EventOk(events[i])
      {
        if i > 0 {
          assert events[i] == events[1..][i - 1];
        }
      }
    }
  }

  lemma GenesisInv(w: World, p: Params)
    requires Increasing(w.rc) && ParamsOk(p)
    ensures Inv(w, Genesis(p), 0)
  {
  }

  /** The invariant holds after every run. */
  lemma {:induction false} RunKeeps(w: World, p: Params, n: NodeState, k: nat, events: seq<Event>) returns (k': nat)
    requires Trust(w) && ParamsOk(p) && p.lib == w.lib && Inv(w, n, k) && PermittedRun(w, p, n, events)
    ensures forall i :: 0 <= i < |events| ==> EventOk(events[i])
    ensures k <= k' && Inv(w, Run(p, n, events), k')
    decreases |events|
  {
    PermittedEventsOk(w, p, n, events);
    if events == [] {
      k' := k;
    } else {
      k' := StepKeeps(w, p, n, k, events[0]);
      k' := RunKeeps(w, p, Step(p, n, events[0]), k', events[1..]);
    }
  }

  /** The restart does not take the latest certificate back: it fails, or there is no newer one to forget. */
  ghost predicate ForgetsNothing(p: Params, n: NodeState, e: Event)
    requires ParamsOk(p)
  {
    e.OnRestart? && InitState(p, n.blocks, n.stored, e.env).Some? ==> NothingNewer(n)
  }

  ghost predicate RunForgetsNothing(p: Params, n: NodeState, events: seq<Event>)
    requires ParamsOk(p) && Healthy(n) && forall i :: 0 <= i < |events| ==> EventOk(events[i])
    decreases |events|
  {
    events == [] || (ForgetsNothing(p, n, events[0]) && RunForgetsNothing(p, Step(p, n, events[0]), events[1..]))
  }

  /** The latest certificate gets older at no step of the run. */
  ghost predicate NeverOlder(p: Params, n: NodeState, events: seq<Event>)
    requires ParamsOk(p) && Healthy(n) && forall i :: 0 <= i < |events| ==> EventOk(events[i])
    decreases |events|
  {
    events == [] ||
    (RootRoundOf(n.luc) <= RootRoundOf(Step(p, n, events[0]).luc) && NeverOlder(p, Step(p, n, events[0]), events[1..]))
  }

  /**
   Over every run the root-chain round of the latest certificate decreases at no step, if and only if no
   restart finds a certificate newer than that of the last stored block.
   */
  lemma {:induction false} LatestNeverOlder(w: World, p: Params, n: NodeState, k: nat, events: seq<Event>)
    requires Trust(w) && ParamsOk(p) && p.lib == w.lib && Inv(w, n, k) && PermittedRun(w, p, n, events)
    requires forall i :: 0 <= i < |events| ==> EventOk(events[i])
    ensures NeverOlder(p, n, events) <==> RunForgetsNothing(p, n, events)
    ensures RunForgetsNothing(p, n, events) ==> RootRoundOf(n.luc) <= RootRoundOf(Run(p, n, events).luc)
    ensures CommittedRound(Run(p, n, events)) <= RoundOf(Run(p, n, events).luc)
    decreases |events|
  {
    if events != [] {
      var k' := StepKeeps(w, p, n, k, events[0]);
      StepNeverOlder(w, p, n, k, events[0]);
      LatestNeverOlder(w, p, Step(p, n, events[0]), k', events[1..]);
    }
  }

  lemma StepNeverOlder(w: World, p: Params, n: NodeState, k: nat, e: Event)
    requires Trust(w) && ParamsOk(p) && p.lib == w.lib && Inv(w, n, k) && Permitted(w, n, e)
    ensures RootRoundOf(n.luc) <= RootRoundOf(Step(p, n, e).luc) <==> ForgetsNothing(p, n, e)
  {
    if !e.OnRestart? {
      MessageNeverOlder(w, p, n, k, e);
    } else if InitState(p, n.blocks, n.stored, e.env).Some? {
      RestartNeverOlderIff(w, p, n, k, e.env);
    }
  }

  lemma MessageNeverOlder(w: World, p: Params, n: NodeState, k: nat, e: Event)
    requires Trust(w) && ParamsOk(p) && p.lib == w.lib && Inv(w, n, k) && Permitted(w, n, e) && !e.OnRestart?
    ensures RootRoundOf(n.luc) <= RootRoundOf(Step(p, n, e).luc)
  {
    match e
    case OnCertificate(cr, env) =>
      if ResponseValid(p.lib, cr) && cr.partition == p.partition && cr.shard == p.shard {
        var _ := HandleCertificateKeeps(w, p, n, k, cr.uc, Some(cr.technical), env);
      }
    case OnProposal(prop, env) => var _ := HandleProposalKeeps(w, p, n, k, prop, env);
    case OnResponse(resp, envs, env, retry) => var _ := HandleReplicationResponseKeeps(w, p, n, k, resp, envs, env, retry);
    case _ =>
  }

  /** A node leaves recovery only with every block up to its latest certificate committed. */
  lemma LeavesRecoveryComplete(p: Params, n: NodeState, e: Event)
    requires ParamsOk(p) && Healthy(n) && EventOk(e)
    requires n.status.Recovering? && !e.OnRestart? && !Step(p, n, e).status.Recovering?
    ensures e.OnResponse?
    ensures n.lastProposal.None? || !e.resp.status.Ok? ==> RecoveryComplete(Step(p, n, e))
    ensures !e.resp.status.Ok? ==> RecoveryComplete(n) && Step(p, n, e) == n.(status := Normal)
    ensures e.resp.status.Ok? ==>
              && e.resp.blocks.Some?
              && var applied := ApplyBlocks(p, n, e.resp.blocks.value, e.envs);
                 applied.ok && RecoveryComplete(applied.node) && Step(p, n, e) == FinishRecovery(p, applied.node, e.env, e.retry)
  {
  }

  // ---- restarts that go wrong ----

  /** The certificate is one that a new node takes as its first. */
  ghost predicate FirstCertificate(p: Params, cr: CertificationResponse) {
    && ResponseValid(p.lib, cr) && cr.partition == p.partition && cr.shard == p.shard
    && CertificateValid(p.lib, cr.uc, p.firstEpoch) && p.lib.decodePeer(cr.technical.leader).Some? && cr.uc.rootRound >= 1
  }

  lemma FirstCertificateTaken(p: Params, cr: CertificationResponse, env: Env)
    requires ParamsOk(p) && FirstCertificate(p, cr)
    ensures var n := Step(p, Genesis(p), OnCertificate(cr, env));
            && n.luc == Some(cr.uc) && n.ltr == Some(cr.technical) && n.leader == p.lib.decodePeer(cr.technical.leader).value
            && n.blocks == map[] && n.stored.None? && n.pending.None? && n.tx == Genesis(p).tx && n.confEpoch == p.firstEpoch
            && (p.lib.initial(cr.uc) && p.lib.successor(cr.uc, None) ==> n.status.Normal?)
  {
  }

  /** A node that stops before its first block starts again without the certificate it had. */
  lemma RestartForgets(p: Params, cr: CertificationResponse, env: Env, env': Env)
    requires ParamsOk(p) && FirstCertificate(p, cr)
    ensures var events := [OnCertificate(cr, env), OnRestart(env')];
            !NeverOlder(p, Genesis(p), events) && Run(p, Genesis(p), events).luc.None?
  {
    var n := Step(p, Genesis(p), OnCertificate(cr, env));
    FirstCertificateTaken(p, cr, env);
    var m := Step(p, n, OnRestart(env'));
    assert m.luc.None?;
    var events := [OnCertificate(cr, env), OnRestart(env')];
    assert events[1..] == [OnRestart(env')] && events[1..][1..] == [];
    assert Run(p, n, events[1..]) == Run(p, m, []);
  }

  /** The leader of the first round stops after its request: it starts again with the requested record as its committed one. */
  lemma FirstRequestCommitted(p: Params, cr: CertificationResponse, env: Env, env': Env, env'': Env)
    requires ParamsOk(p) && FirstCertificate(p, cr) && p.lib.initial(cr.uc) && p.lib.successor(cr.uc, None)
    requires p.lib.decodePeer(cr.technical.leader) == Some(p.id)
    requires cr.technical.epoch in p.confs && UpdateConfig(Genesis(p).tx, p.confs[cr.technical.epoch]).Some?
    requires LeaderPropose(Genesis(p).tx, env'.pow).Some? && env'.proposalSent && env'.encodeOk && env'.pendingWriteOk && env'.requestSent
    requires Content(LeaderPropose(Genesis(p).tx, env'.pow).value.pendingHash) in env''.pow.byHash && env''.confReadOk && env''.lastReadOk
    ensures var n := Run(p, Genesis(p), [OnCertificate(cr, env), OnT1(env'), OnRestart(env'')]);
            n.tx.committedUC.Some? && n.tx.committedUC.value.rootRound == 0
  {
    var a := Step(p, Genesis(p), OnCertificate(cr, env));
    FirstCertificateTaken(p, cr, env);
    var b := Step(p, a, OnT1(env'));
    ProposingIsUnsafe(p, a, env');
    ProposalTakenForBlock(p, b.stored.value, env'');
    var c := Step(p, b, OnRestart(env''));
    assert c.tx.committedUC == b.stored.value.cert;
    var events := [OnCertificate(cr, env), OnT1(env'), OnRestart(env'')];
    assert events[1..] == [OnT1(env'), OnRestart(env'')] && events[1..][1..] == [OnRestart(env'')] && events[1..][1..][1..] == [];
    assert Run(p, Genesis(p), events) == Run(p, b, [OnRestart(env'')]) == Run(p, c, []);
  }
}
