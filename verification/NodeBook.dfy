/**
 The calls of whole runs of a node, entered in a book: every finalized PoW block was found deep by a call
 before it was finalized, and the finalized blocks ascend exactly when no commit goes down.
 */
module NodeBook {
  import opened Types
  import opened PowTypes
  import opened TxModel
  import opened NodeModel
  import opened RootChain
  import opened Safety
  import opened Runs
  import opened FinalityRuns
  import opened TxBook
  import opened NodeCalls
  import opened Links
  import PowTree
  import Restart
  import Agreement

  // ---- proposals were asked for ----

  /** The pending proposal is the one there was, with nothing committed since, or one of the calls asked for its hash. */
  ghost predicate PendingAsked(n: NodeState, es: seq<TxEvent>, m: NodeState)
    requires n.tx.dFG >= 1
  {
    || (m.pending == n.pending && m.tx.committedUC == n.tx.committedUC)
    || m.pending.None? || m.pending.value.cert.None?
    || Asked(n.tx, es, m.pending.value.cert.value.ir.hash, m.tx.committedHash)
  }

  lemma AskedFirst(t: TxState, e: TxEvent, rest: seq<TxEvent>, hash: Slice)
    requires t.dFG >= 1 && Passes(t, e) && SameBytes(Apply(t, e).pendingHash, hash)
    ensures Asked(t, [e] + rest, hash, t.committedHash)
  {
    var es := [e] + rest;
    assert es[..0] == [] && After(t, []) == t;
    assert AskedAt(t, es, 0, hash, t.committedHash);
  }

  lemma AskedLater(t: TxState, a: seq<TxEvent>, b: seq<TxEvent>, hash: Slice, committed: Slice)
    requires t.dFG >= 1 && Asked(After(t, a), b, hash, committed)
    ensures Asked(t, a + b, hash, committed)
  {
    var c: nat :| AskedAt(After(t, a), b, c, hash, committed);
    assert (a + b)[..|a| + c] == a + b[..c];
    AfterConcat(t, a, b[..c]);
    assert AskedAt(t, a + b, |a| + c, hash, committed);
  }

  lemma CertificateAsks(p: Params, n: NodeState, uc: Certificate, tr: Option<TechnicalRecord>, env: Env, es: seq<TxEvent>)
    requires n.tx.dFG >= 1
    ensures var m := HandleCertificate(p, n, uc, tr, env).node;
            PendingAsked(n, es, m) && (m.pending.None? || m.pending.value.cert.None? || (m.pending == n.pending && m.tx.committedUC == n.tx.committedUC))
  {
    CertificateChanges(p, n, uc, tr, env);
  }

  lemma FollowAsks(p: Params, n: NodeState, prop: Proposal, env: Env)
    requires Healthy(n) && prop.uc.Some?
    ensures PendingAsked(n, FollowCalls(p, n, prop, env), FollowProposal(p, n, prop, env).node)
  {
    ProposalIsHandled(p, n, prop, env);
    var m := FollowProposal(p, n, prop, env).node;
    if m.pending != n.pending {
      var e := Verify(env.pow, ViewOf(env.pow), prop.root);
      assert FollowCalls(p, n, prop, env) == [e] + SendCalls(env);
      AskedFirst(n.tx, e, SendCalls(env), prop.root);
    }
  }

  lemma AsksInTurn(n: NodeState, first: seq<TxEvent>, x: NodeState, rest: seq<TxEvent>, m: NodeState)
    requires n.tx.dFG >= 1 && x.tx == After(n.tx, first) && m.tx.committedUC == x.tx.committedUC && PendingAsked(x, rest, m)
    requires x.pending.None? || x.pending.value.cert.None? || (x.pending == n.pending && x.tx.committedUC == n.tx.committedUC)
    ensures PendingAsked(n, first + rest, m)
  {
    if m.pending.Some? && m.pending.value.cert.Some? && Asked(x.tx, rest, m.pending.value.cert.value.ir.hash, m.tx.committedHash) {
      AskedLater(n.tx, first, rest, m.pending.value.cert.value.ir.hash, m.tx.committedHash);
    }
  }

  lemma ProposalAsks(p: Params, n: NodeState, prop: Option<Proposal>, env: Env)
    requires Healthy(n)
    ensures PendingAsked(n, ProposalCalls(p, n, prop, env), HandleProposal(p, n, prop, env).node)
  {
    if !n.status.Recovering? && prop.Some? && ProposalValid(p, n.confEpoch, prop.value) {
      ValidProposalAsks(p, n, prop.value, env);
    }
  }

  lemma ValidProposalAsks(p: Params, n: NodeState, prop: Proposal, env: Env)
    requires Healthy(n) && !n.status.Recovering? && prop.uc.Some? && ProposalValid(p, n.confEpoch, prop)
    ensures PendingAsked(n, ProposalCalls(p, n, Some(prop), env), HandleValidProposal(p, n, prop, env).node)
  {
    var uc, x := prop.uc.value, ProcessProposalCertificate(p, n, prop, env);
    var first := if uc.rootRound > RootRoundOf(n.luc) then CertificateCalls(p, n, uc, Some(prop.technical), env) else [];
    CertificateAsks(p, n, uc, Some(prop.technical), env, first);
    CertificateTraces(p, n, uc, Some(prop.technical), env, env.pow);
    assert x.node.tx == After(n.tx, first);
    var rest := [];
    var m := x.node;
    if x.ok {
      rest, m := FollowCalls(p, x.node, prop, env), FollowProposal(p, x.node, prop, env).node;
      FollowAsks(p, x.node, prop, env);
      FollowProposes(p, x.node, prop, env);
    }
    AsksInTurn(n, first, x.node, rest, m);
  }

  lemma TimeoutAsks(p: Params, n: NodeState, env: Env)
    requires Healthy(n) && p.id != NO_PEER
    ensures PendingAsked(n, TimeoutCalls(p, n, env), HandleT1Timeout(p, n, env).node)
  {
    var m, es := HandleT1Timeout(p, n, env).node, TimeoutCalls(p, n, env);
    if m.pending != n.pending {
      var e := Propose(env.pow, ViewOf(env.pow));
      assert es == [e] + es[1..];
      AskedFirst(n.tx, e, es[1..], LeaderPropose(n.tx, env.pow).value.pendingHash);
    }
  }

  lemma FinishAsks(p: Params, n: NodeState, env: Env, retry: Env)
    requires Healthy(n) && n.pending.None?
    ensures PendingAsked(n, FinishCalls(p, n, env, retry), FinishRecovery(p, n, env, retry))
  {
    ProposalAsks(p, Rejoined(n, env), n.lastProposal, retry);
  }

  // ---- entering the calls of a node ----

  /** Whatever may be committed next without a further call is justified: the pending proposal, and a block left in the store. */
  ghost predicate Waiting(rc: RootChain, start: TxState, calls: seq<TxEvent>, n: NodeState, k: nat)
    requires start.dFG >= 1
  {
    && (n.pending.Some? && n.pending.value.cert.Some? ==>
          Justified(start, calls, n.pending.value.cert.value.ir.hash, n.tx.committedHash))
    && (k + 1 < |rc.records| && RecordRound(rc, k + 1) in n.blocks ==>
          Justified(start, calls, rc.records[k + 1].hash, n.tx.committedHash))
  }

  /** Calls made so far, for a node that stands at record k. */
  ghost predicate Book(w: World, start: TxState, calls: seq<TxEvent>, n: NodeState, k: nat) {
    Inv(w, n, k) && Entered(w.rc, start, calls, n.tx, k, w.exact) && Waiting(w.rc, start, calls, n, k)
  }

  lemma JustifiedAlike(start: TxState, calls: seq<TxEvent>, hash: Slice, committed: Slice, hash': Slice, committed': Slice)
    requires start.dFG >= 1 && Justified(start, calls, hash, committed) && SameBytes(hash, hash') && SameBytes(committed, committed')
    ensures Justified(start, calls, hash', committed')
  {
  }

  lemma PendingWaits(w: World, start: TxState, calls: seq<TxEvent>, n: NodeState, k: nat, es: seq<TxEvent>, m: NodeState, k': nat)
    requires Book(w, start, calls, n, k) && Inv(w, m, k') && Truthful(es) && PendingAsked(n, es, m)
    requires m.pending.Some? && m.pending.value.cert.Some?
    ensures Justified(start, calls + es, m.pending.value.cert.value.ir.hash, m.tx.committedHash)
  {
    var hash := m.pending.value.cert.value.ir.hash;
    if m.pending == n.pending && m.tx.committedUC == n.tx.committedUC {
      JustifiedAlike(start, calls, hash, n.tx.committedHash, hash, m.tx.committedHash);
      JustifiedStays(start, calls, es, hash, m.tx.committedHash);
    } else {
      AskedIsJustified(start, calls, es, hash, m.tx.committedHash);
    }
  }

  lemma SameState(w: World, n: NodeState, m: NodeState, k: nat)
    requires Inv(w, n, k) && Inv(w, m, k)
    ensures SameBytes(n.tx.committedHash, m.tx.committedHash)
  {
  }

  lemma LeftoverWaits(w: World, start: TxState, calls: seq<TxEvent>, n: NodeState, k: nat, es: seq<TxEvent>, m: NodeState, k': nat)
    requires Book(w, start, calls, n, k) && Inv(w, m, k') && LeavesNoOther(w.rc, n, k, m, k')
    requires k' + 1 < |w.rc.records| && RecordRound(w.rc, k' + 1) in m.blocks
    ensures Justified(start, calls + es, w.rc.records[k' + 1].hash, m.tx.committedHash)
  {
    SameState(w, n, m, k);
    var hash := w.rc.records[k' + 1].hash;
    var was := if RecordRound(w.rc, k + 1) in n.blocks then hash else n.pending.value.cert.value.ir.hash;
    JustifiedAlike(start, calls, was, n.tx.committedHash, hash, m.tx.committedHash);
    JustifiedStays(start, calls, es, hash, m.tx.committedHash);
  }

  lemma StillWaiting(w: World, start: TxState, calls: seq<TxEvent>, n: NodeState, k: nat, es: seq<TxEvent>, m: NodeState, k': nat)
    requires Book(w, start, calls, n, k) && Inv(w, m, k') && Truthful(es) && PendingAsked(n, es, m) && LeavesNoOther(w.rc, n, k, m, k')
    ensures Waiting(w.rc, start, calls + es, m, k')
  {
    if m.pending.Some? && m.pending.value.cert.Some? {
      PendingWaits(w, start, calls, n, k, es, m, k');
    }
    if k' + 1 < |w.rc.records| && RecordRound(w.rc, k' + 1) in m.blocks {
      LeftoverWaits(w, start, calls, n, k, es, m, k');
    }
  }

  /** The calls of one handler, or of one block, are entered in the book. */
  lemma Enter(w: World, start: TxState, calls: seq<TxEvent>, n: NodeState, k: nat, es: seq<TxEvent>, m: NodeState, k': nat, pow: PowAnswers, uc: Option<Certificate>)
    requires Increasing(w.rc) && Book(w, start, calls, n, k) && Inv(w, m, k') && k <= k' <= k + 1
    requires Traces(n.tx, es, m.tx, pow, uc) && HasView(pow) && PendingAsked(n, es, m) && LeavesNoOther(w.rc, n, k, m, k')
    ensures Book(w, start, calls + es, m, k')
  {
    CallsAreTruthful(n.tx, es, m.tx, pow, uc);
    OneChange(n.tx, es, m.tx, pow, uc);
    if k' == k + 1 {
      NewCommit(w, n, k, es, m, pow, uc);
      CommitShifts(start, calls, es, w.rc, k + 1);
    }
    EnterCalls(w.rc, start, calls, n.tx, k, es, m.tx, k', w.exact);
    StillWaiting(w, start, calls, n, k, es, m, k');
  }

  lemma NewCommit(w: World, n: NodeState, k: nat, es: seq<TxEvent>, m: NodeState, pow: PowAnswers, uc: Option<Certificate>)
    requires Increasing(w.rc) && Inv(w, n, k) && Inv(w, m, k + 1) && Traces(n.tx, es, m.tx, pow, uc)
    ensures HasCommit(n.tx, es, w.rc, k + 1)
  {
    assert At(w.rc, n.tx.committedUC, k) && At(w.rc, m.tx.committedUC, k + 1);
    RecordOrder(w.rc, k, k + 1);
    assert m.tx.committedUC != n.tx.committedUC;
    FirstCommit(n.tx, es, m.tx, pow, uc);
    var c: nat :| CommitsFirst(n.tx, es, c, uc.value);
    assert CommitAt(n.tx, es, c, w.rc, k + 1);
  }

  /** Nothing is entered for a handler that makes no call, commits nothing and proposes nothing. */
  lemma EnterNothing(w: World, start: TxState, calls: seq<TxEvent>, n: NodeState, k: nat, m: NodeState)
    requires Book(w, start, calls, n, k) && Inv(w, m, k) && m.tx == n.tx && m.blocks == n.blocks && m.pending == n.pending
    ensures Book(w, start, calls + [], m, k)
  {
    assert calls + [] == calls;
  }

  lemma Append(w: World, start: TxState, calls: seq<TxEvent>, es: seq<TxEvent>, rest: seq<TxEvent>, n: NodeState, k: nat)
    requires Book(w, start, calls + es + rest, n, k)
    ensures Book(w, start, calls + (es + rest), n, k)
  {
    assert calls + es + rest == calls + (es + rest);
  }

  lemma EnterBlock(w: World, p: Params, start: TxState, calls: seq<TxEvent>, n: NodeState, k: nat, b: Block, env: Env, o: Outcome, es: seq<TxEvent>)
    returns (k': nat)
    requires Trust(w) && p.lib == w.lib && Book(w, start, calls, n, k) && n.status.Recovering? && EnvOk(w, env) && HasView(env.pow)
    requires o == HandleBlock(p, n, b, env) && es == BlockCalls(p, n, b, env)
    ensures k <= k' && Book(w, start, calls + es, o.node, k')
  {
    BlockTraces(p, n, b, env);
    k' := BlockExtends(w, p, n, k, b, env);
    Enter(w, start, calls, n, k, es, o.node, k', env.pow, b.cert);
  }

  lemma {:induction false} EnterBlocks(w: World, p: Params, start: TxState, calls: seq<TxEvent>, n: NodeState, k: nat, blocks: seq<Block>, envs: seq<Env>)
    returns (k': nat)
    requires Trust(w) && p.lib == w.lib && Book(w, start, calls, n, k) && n.status.Recovering? && |envs| == |blocks|
    requires forall i :: 0 <= i < |envs| ==> EnvOk(w, envs[i]) && HasView(envs[i].pow)
    ensures k <= k' && Book(w, start, calls + BlocksCalls(p, n, blocks, envs), ApplyBlocks(p, n, blocks, envs).node, k')
    decreases |blocks|
  {
    if blocks == [] {
      k' := k;
      EnterNothing(w, start, calls, n, k, n);
    } else {
      var first, es := HandleBlock(p, n, blocks[0], envs[0]), BlockCalls(p, n, blocks[0], envs[0]);
      k' := EnterBlock(w, p, start, calls, n, k, blocks[0], envs[0], first, es);
      var rest := [];
      if first.ok {
        k' := EnterBlocks(w, p, start, calls + es, first.node, k', blocks[1..], envs[1..]);
        rest := BlocksCalls(p, first.node, blocks[1..], envs[1..]);
      } else {
        EnterNothing(w, start, calls + es, first.node, k', first.node);
      }
      Append(w, start, calls, es, rest, ApplyBlocks(p, n, blocks, envs).node, k');
    }
  }

  lemma EnterFinish(w: World, p: Params, start: TxState, calls: seq<TxEvent>, n: NodeState, k: nat, env: Env, retry: Env) returns (k': nat)
    requires Trust(w) && p.lib == w.lib && Book(w, start, calls, n, k) && n.pending.None? && EnvOk(w, retry) && HasView(retry.pow)
    ensures k <= k' && Book(w, start, calls + FinishCalls(p, n, env, retry), FinishRecovery(p, n, env, retry), k')
  {
    var m := FinishRecovery(p, n, env, retry);
    k' := FinishRecoveryKeeps(w, p, n, k, env, retry);
    var j := FinishExtends(w, p, n, k, env, retry);
    OnePlace(w.rc, m.tx.committedUC, k', j);
    FinishTraces(p, n, env, retry);
    FinishAsks(p, n, env, retry);
    Enter(w, start, calls, n, k, FinishCalls(p, n, env, retry), m, k', retry.pow, Inside(n.lastProposal));
  }

  /** The end of a response: recovery is finished or goes on. */
  lemma EnterApplied(w: World, p: Params, start: TxState, calls: seq<TxEvent>, es: seq<TxEvent>, applied: Outcome, k: nat, env: Env, retry: Env) returns (k': nat)
    requires Trust(w) && p.lib == w.lib && Book(w, start, calls + es, applied.node, k) && applied.node.status.Recovering? && EnvOk(w, retry) && HasView(retry.pow)
    ensures var done := applied.ok && RecoveryComplete(applied.node);
            && k <= k'
            && Book(w, start, calls + (es + (if done then FinishCalls(p, applied.node, env, retry) else [])),
                 if done then FinishRecovery(p, applied.node, env, retry) else applied.node, k')
  {
    if applied.ok && RecoveryComplete(applied.node) {
      k' := EnterFinish(w, p, start, calls + es, applied.node, k, env, retry);
      Append(w, start, calls, es, FinishCalls(p, applied.node, env, retry), FinishRecovery(p, applied.node, env, retry), k');
    } else {
      k' := k;
      assert es + [] == es;
    }
  }

  lemma EnterResponse(w: World, p: Params, start: TxState, calls: seq<TxEvent>, n: NodeState, k: nat, resp: ReplicationResponse, envs: seq<Env>,
                      env: Env, retry: Env, es: seq<TxEvent>, o: NodeState)
    returns (k': nat)
    requires Trust(w) && p.lib == w.lib && Book(w, start, calls, n, k) && (resp.blocks.Some? ==> |envs| == |resp.blocks.value|)
    requires EnvOk(w, retry) && HasView(retry.pow) && forall i :: 0 <= i < |envs| ==> EnvOk(w, envs[i]) && HasView(envs[i].pow)
    requires es == ResponseCalls(p, n, resp, envs, env, retry) && ResponseOutcome(p, n, resp, envs, env, retry, o)
    ensures k <= k' && Book(w, start, calls + es, o, k')
  {
    if n.status.Recovering? && resp.status.Ok? && resp.blocks.Some? && CommittedRound(n) < resp.first {
      k' := EnterBlocks(w, p, start, calls, n, k, resp.blocks.value, envs);
      k' := EnterApplied(w, p, start, calls, BlocksCalls(p, n, resp.blocks.value, envs), ApplyBlocks(p, n, resp.blocks.value, envs), k', env, retry);
    } else {
      k' := k;
      SetStatusKeeps(w, n, k, Normal);
      EnterNothing(w, start, calls, n, k, o);
    }
  }

  // ---- restarts ----

  lemma ReopenEntered(p: Params, n: NodeState, env: Env)
    requires ParamsOk(p) && n.tx.dFG >= 1 && InitState(p, n.blocks, n.stored, env).Some? && HasView(env.pow)
    ensures var m, es := InitState(p, n.blocks, n.stored, env).value, RestartCalls(p, n, env);
            && After(n.tx, es) == m.tx && Truthful(es) && Finalized(n.tx, es) == Change(n.tx.committedHash, m.tx.committedHash)
            && PendingAsked(n, es, m)
  {
    var m := InitState(p, n.blocks, n.stored, env).value;
    var tx := RestoreTx(p, GenesisState(p.confs[0].dFG.value), LastEntry(n.blocks, n.stored), env).value;
    var restored := Restart.Restored(p, tx, n, m.confEpoch);
    assert m == RestoreProposal(restored, env);
    RestoreTraces(restored, env);
    RestoreAsks(restored, env);
    var es, rest := RestartCalls(p, n, env), RestoreCalls(tx, n.stored, env);
    assert es == [es[0]] + rest && Apply(n.tx, es[0]) == tx;
    ReopenFirst(n, es[0], tx, rest, m, env);
  }

  lemma RestoreAsks(n: NodeState, env: Env)
    requires n.tx.dFG >= 1 && n.pending.None?
    ensures PendingAsked(n, RestoreCalls(n.tx, n.stored, env), RestoreProposal(n, env))
  {
    var m := RestoreProposal(n, env);
    if m.pending.Some? {
      var ir := n.stored.value.cert.value.ir;
      var e := Verify(env.pow, ViewOf(env.pow), ir.hash);
      assert RestoreCalls(n.tx, n.stored, env) == [e] + [];
      AskedFirst(n.tx, e, [], ir.hash);
    }
  }

  /** A new transaction system is restored and then asked about the stored proposal. */
  lemma ReopenFirst(n: NodeState, e: TxEvent, tx: TxState, rest: seq<TxEvent>, m: NodeState, env: Env)
    requires n.tx.dFG >= 1 && e.Reopen? && Apply(n.tx, e) == tx && Traces(tx, rest, m.tx, env.pow, None) && HasView(env.pow)
    requires m.pending.None? || m.pending.value.cert.None? || Asked(tx, rest, m.pending.value.cert.value.ir.hash, m.tx.committedHash)
    ensures var es := [e] + rest;
            && After(n.tx, es) == m.tx && Truthful(es) && Finalized(n.tx, es) == Change(n.tx.committedHash, m.tx.committedHash)
            && PendingAsked(n, es, m)
  {
    CallsAreTruthful(tx, rest, m.tx, env.pow, None);
    OneChange(tx, rest, m.tx, env.pow, None);
    assert [e][..0] == [] && After(n.tx, [e]) == tx && Finalized(n.tx, [e]) == Change(n.tx.committedHash, tx.committedHash);
    AfterConcat(n.tx, [e], rest);
    FinalizedConcat(n.tx, [e], rest);
    TruthfulJoin([e], rest);
    if m.pending.Some? && m.pending.value.cert.Some? {
      AskedLater(n.tx, [e], rest, m.pending.value.cert.value.ir.hash, m.tx.committedHash);
    }
  }

  /** A restart may commit the block that was left in the store; its hash was found deep when the proposal was made. */
  lemma EnterRestart(w: World, p: Params, start: TxState, calls: seq<TxEvent>, n: NodeState, k: nat, env: Env, es: seq<TxEvent>, m: NodeState) returns (k': nat)
    requires Trust(w) && ParamsOk(p) && Book(w, start, calls, n, k) && Permitted(w, n, OnRestart(env)) && HasView(env.pow)
    requires InitState(p, n.blocks, n.stored, env) == Some(m) && es == RestartCalls(p, n, env)
    ensures k <= k' && Book(w, start, calls + es, m, k')
  {
    k' := Restart.RestartKeeps(w, p, n, k, env);
    var j := RestartLinks(w, p, n, k, env);
    OnePlace(w.rc, m.tx.committedUC, k', j);
    Restart.RestartRestores(p, n, env);
    ReopenEntered(p, n, env);
    EnterReopened(w, start, calls, n, k, es, m, k');
  }

  lemma EnterReopened(w: World, start: TxState, calls: seq<TxEvent>, n: NodeState, k: nat, es: seq<TxEvent>, m: NodeState, k': nat)
    requires Book(w, start, calls, n, k) && Inv(w, m, k') && k <= k' <= k + 1 && (w.exact ==> k' == k) && m.blocks == n.blocks
    requires After(n.tx, es) == m.tx && Truthful(es) && Finalized(n.tx, es) == Change(n.tx.committedHash, m.tx.committedHash)
    requires PendingAsked(n, es, m) && LeavesNoOther(w.rc, n, k, m, k')
    ensures Book(w, start, calls + es, m, k')
  {
    if k' == k + 1 {
      assert Holds(w, m.blocks, k + 1);
      var hash := w.rc.records[k + 1].hash;
      JustifiedAlike(start, calls, hash, n.tx.committedHash, hash, PreviousState(w.rc, k + 1));
      JustifiedStays(start, calls, es, hash, PreviousState(w.rc, k + 1));
    }
    EnterCalls(w.rc, start, calls, n.tx, k, es, m.tx, k', w.exact);
    StillWaiting(w, start, calls, n, k, es, m, k');
  }

  // ---- events and runs ----

  lemma EnterCertificate(w: World, p: Params, start: TxState, calls: seq<TxEvent>, n: NodeState, k: nat, cr: CertificationResponse, env: Env) returns (k': nat)
    requires Trust(w) && ParamsOk(p) && p.lib == w.lib && Book(w, start, calls, n, k) && EnvOk(w, env) && HasView(env.pow)
    ensures k <= k' && Book(w, start, calls + StepCalls(p, n, OnCertificate(cr, env)), HandleCertificationResponse(p, n, cr, env).node, k')
  {
    if ResponseValid(p.lib, cr) && cr.partition == p.partition && cr.shard == p.shard {
      var tr, es := Some(cr.technical), CertificateCalls(p, n, cr.uc, Some(cr.technical), env);
      var m := HandleCertificate(p, n, cr.uc, tr, env).node;
      k' := HandleCertificateKeeps(w, p, n, k, cr.uc, tr, env);
      var j := CertificateLinks(w, p, n, k, cr.uc, tr, env);
      OnePlace(w.rc, m.tx.committedUC, k', j);
      CertificateTraces(p, n, cr.uc, tr, env, env.pow);
      CertificateAsks(p, n, cr.uc, tr, env, es);
      Enter(w, start, calls, n, k, es, m, k', env.pow, Some(cr.uc));
    } else {
      k' := k;
      EnterNothing(w, start, calls, n, k, n);
    }
  }

  lemma EnterTimeout(w: World, p: Params, start: TxState, calls: seq<TxEvent>, n: NodeState, k: nat, env: Env)
    requires p.lib == w.lib && p.id != NO_PEER && Increasing(w.rc) && Book(w, start, calls, n, k) && EnvOk(w, env) && HasView(env.pow)
    ensures Book(w, start, calls + TimeoutCalls(p, n, env), HandleT1Timeout(p, n, env).node, k)
  {
    HandleT1TimeoutKeeps(w, p, n, k, env);
    TimeoutTraces(p, n, env, None);
    TimeoutAsks(p, n, env);
    Enter(w, start, calls, n, k, TimeoutCalls(p, n, env), HandleT1Timeout(p, n, env).node, k, env.pow, None);
  }

  lemma EnterEpoch(w: World, p: Params, start: TxState, calls: seq<TxEvent>, n: NodeState, k: nat, env: Env)
    requires ParamsOk(p) && Increasing(w.rc) && Book(w, start, calls, n, k) && HasView(env.pow)
    ensures Book(w, start, calls + EpochCalls(p, n, env), if n.epochEvent then HandleEpochChange(p, n, env) else n, k)
  {
    HandleEpochChangeKeeps(w, p, n, k, env);
    var es := EpochCalls(p, n, env);
    TraceNone(n.tx, env.pow, None);
    if es != [] {
      TraceOne(n.tx, es[0], env.pow, None);
    }
    Enter(w, start, calls, n, k, es, if n.epochEvent then HandleEpochChange(p, n, env) else n, k, env.pow, None);
  }

  lemma EnterProposal(w: World, p: Params, start: TxState, calls: seq<TxEvent>, n: NodeState, k: nat, prop: Option<Proposal>, env: Env) returns (k': nat)
    requires Trust(w) && p.lib == w.lib && Book(w, start, calls, n, k) && EnvOk(w, env) && HasView(env.pow)
    ensures k <= k' && Book(w, start, calls + ProposalCalls(p, n, prop, env), HandleProposal(p, n, prop, env).node, k')
  {
    var m := HandleProposal(p, n, prop, env).node;
    k' := HandleProposalKeeps(w, p, n, k, prop, env);
    var j := ProposalLinks(w, p, n, k, prop, env);
    OnePlace(w.rc, m.tx.committedUC, k', j);
    ProposalTraces(p, n, prop, env);
    ProposalAsks(p, n, prop, env);
    Enter(w, start, calls, n, k, ProposalCalls(p, n, prop, env), m, k', env.pow, Inside(prop));
  }

  /** The event's answers are true of some tree each. */
  ghost predicate HasViews(e: Event) {
    && (!e.OnRequest? && !e.OnWorker? ==> HasView(e.env.pow))
    && (e.OnResponse? ==> HasView(e.retry.pow) && forall i :: 0 <= i < |e.envs| ==> HasView(e.envs[i].pow))
  }

  lemma EnterMessage(w: World, p: Params, start: TxState, calls: seq<TxEvent>, n: NodeState, k: nat, e: Event, es: seq<TxEvent>, m: NodeState) returns (k': nat)
    requires Trust(w) && ParamsOk(p) && p.lib == w.lib && Book(w, start, calls, n, k) && Permitted(w, n, e) && HasViews(e)
    requires es == StepCalls(p, n, e) && m == Step(p, n, e) && (e.OnCertificate? || e.OnProposal? || e.OnResponse?)
    ensures k <= k' && Book(w, start, calls + es, m, k')
  {
    match e
    case OnCertificate(cr, env) => k' := EnterCertificate(w, p, start, calls, n, k, cr, env);
    case OnProposal(prop, env) => k' := EnterProposal(w, p, start, calls, n, k, prop, env);
    case OnResponse(resp, envs, env, retry) =>
      ResponseIsHandled(p, n, resp, envs, env, retry);
      k' := EnterResponse(w, p, start, calls, n, k, resp, envs, env, retry, es, m);
  }

  lemma EnterTurn(w: World, p: Params, start: TxState, calls: seq<TxEvent>, n: NodeState, k: nat, e: Event, es: seq<TxEvent>, m: NodeState)
    requires Trust(w) && ParamsOk(p) && p.lib == w.lib && Book(w, start, calls, n, k) && Permitted(w, n, e) && HasViews(e)
    requires es == StepCalls(p, n, e) && m == Step(p, n, e) && (e.OnT1? || e.OnEpochChange? || e.OnRequest? || e.OnWorker?)
    ensures Book(w, start, calls + es, m, k)
  {
    match e
    case OnT1(env) => EnterTimeout(w, p, start, calls, n, k, env);
    case OnEpochChange(env) => EnterEpoch(w, p, start, calls, n, k, env);
    case OnRequest(req) =>
      HandleReplicationRequestKeeps(w, p, n, k, req);
      EnterNothing(w, start, calls, n, k, m);
    case OnWorker =>
      WorkerKeeps(w, n, k);
      EnterNothing(w, start, calls, n, k, m);
  }

  /** Every event is entered in the book. */
  lemma EnterStep(w: World, p: Params, start: TxState, calls: seq<TxEvent>, n: NodeState, k: nat, e: Event, es: seq<TxEvent>, m: NodeState) returns (k': nat)
    requires Trust(w) && ParamsOk(p) && p.lib == w.lib && Book(w, start, calls, n, k) && Permitted(w, n, e) && HasViews(e)
    requires es == StepCalls(p, n, e) && m == Step(p, n, e)
    ensures k <= k' && Book(w, start, calls + es, m, k')
  {
    k' := k;
    if e.OnCertificate? || e.OnProposal? || e.OnResponse? {
      k' := EnterMessage(w, p, start, calls, n, k, e, es, m);
    } else if !e.OnRestart? {
      EnterTurn(w, p, start, calls, n, k, e, es, m);
    } else if InitState(p, n.blocks, n.stored, e.env).Some? {
      k' := EnterRestart(w, p, start, calls, n, k, e.env, es, m);
    } else {
      EnterNothing(w, start, calls, n, k, n);
    }
  }

  lemma {:induction false} EnterRun(w: World, p: Params, start: TxState, calls: seq<TxEvent>, n: NodeState, k: nat, events: seq<Event>) returns (k': nat)
    requires Trust(w) && ParamsOk(p) && p.lib == w.lib && Book(w, start, calls, n, k) && PermittedRun(w, p, n, events)
    requires forall i :: 0 <= i < |events| ==> EventOk(events[i]) && HasViews(events[i])
    ensures k <= k' && Book(w, start, calls + RunCalls(p, n, events), Run(p, n, events), k')
    decreases |events|
  {
    if events == [] {
      k' := k;
      EnterNothing(w, start, calls, n, k, n);
    } else {
      var es, m := StepCalls(p, n, events[0]), Step(p, n, events[0]);
      k' := EnterStep(w, p, start, calls, n, k, events[0], es, m);
      k' := EnterRun(w, p, start, calls + es, m, k', events[1..]);
      Append(w, start, calls, es, RunCalls(p, m, events[1..]), Run(p, n, events), k');
    }
  }

  lemma EnterAll(w: World, p: Params, events: seq<Event>) returns (k: nat)
    requires Trust(w) && ParamsOk(p) && p.lib == w.lib && PermittedRun(w, p, Genesis(p), events)
    requires forall i :: 0 <= i < |events| ==> EventOk(events[i]) && HasViews(events[i])
    ensures Book(w, Genesis(p).tx, RunCalls(p, Genesis(p), events), Run(p, Genesis(p), events), k)
  {
    GenesisInv(w, p);
    k := EnterRun(w, p, Genesis(p).tx, [], Genesis(p), 0, events);
    assert [] + RunCalls(p, Genesis(p), events) == RunCalls(p, Genesis(p), events);
  }

  // ---- depth safety of the node ----

  /** The hash before position i of a history. */
  function HashBefore(h: seq<(U64, Hash)>, i: nat): Hash
    requires i < |h|
  {
    if i == 0 then [] else h[i - 1].1
  }

  /**
   Depth safety of a node: after every run, each PoW hash of its history that differs from the one before
   it was found on the active chain, with the dFG confirmations then required, by a call of the run. If no
   delete failed, that call made it pending and it was pending until a call committed it.
   */
  lemma NodeDepthSafety(w: World, p: Params, events: seq<Event>, i: nat)
    requires Trust(w) && ParamsOk(p) && p.lib == w.lib && PermittedRun(w, p, Genesis(p), events)
    requires forall j :: 0 <= j < |events| ==> EventOk(events[j]) && HasViews(events[j])
    requires var h := Agreement.History(Run(p, Genesis(p), events));
             i < |h| && h[i].1 != [] && h[i].1 != HashBefore(h, i)
    ensures var h, calls := Agreement.History(Run(p, Genesis(p), events)), RunCalls(p, Genesis(p), events);
            Found(Genesis(p).tx, calls, h[i].1) && (w.exact ==> FinalizedDeep(Genesis(p).tx, calls, h[i].0, h[i].1))
  {
    var k := EnterAll(w, p, events);
    var n := Run(p, Genesis(p), events);
    Agreement.HistoryIsCertified(w, n, k);
    HistoryIsDeep(w.rc, Genesis(p).tx, RunCalls(p, Genesis(p), events), k, w.exact, Agreement.History(n), i);
  }

  lemma HistoryIsDeep(rc: RootChain, start: TxState, calls: seq<TxEvent>, k: nat, exact: bool, h: seq<(U64, Hash)>, i: nat)
    requires start.dFG >= 1 && start.pendingHash == Nil && Truthful(calls) && Accounted(start, calls, rc, k, exact)
    requires k < |rc.records| && h == Agreement.RootHistory(rc, k) && i < |h| && h[i].1 != [] && h[i].1 != HashBefore(h, i)
    ensures Found(start, calls, h[i].1) && (exact ==> FinalizedDeep(start, calls, h[i].0, h[i].1))
  {
    assert Covered(start, calls, rc, i + 1, exact);
    assert HashBefore(h, i) == Content(PreviousState(rc, i + 1));
    CoveredIsDeep(rc, start, calls, i + 1, exact);
  }

  // ---- the order of the blocks a node finalizes ----

  /** The PoW hashes of a history, each different from the one before. */
  function Distinct(h: seq<(U64, Hash)>): seq<Hash> {
    if h == [] then [] else
    var last := |h| - 1;
    Distinct(h[..last]) + (if h[last].1 == HashBefore(h, last) then [] else [h[last].1])
  }

  lemma {:induction false} DistinctIsChanges(rc: RootChain, k: nat)
    requires k < |rc.records|
    ensures Distinct(Agreement.RootHistory(rc, k)) == Changes(rc, k)
  {
    if k > 0 {
      DistinctIsChanges(rc, k - 1);
      assert Agreement.RootHistory(rc, k)[..k - 1] == Agreement.RootHistory(rc, k - 1);
    }
  }

  /**
   After every run in which the finalized blocks stay active, the PoW hashes of a node's history form a
   strictly ascending chain of ancestors if and only if no commit of the run goes to a lower block.
   */
  lemma NodeAscendsIff(w: World, p: Params, events: seq<Event>, all: PowTree.Tree)
    requires Trust(w) && ParamsOk(p) && p.lib == w.lib && PermittedRun(w, p, Genesis(p), events)
    requires forall j :: 0 <= j < |events| ==> EventOk(events[j]) && HasViews(events[j])
    requires PowTree.WellFormed(all) && [] !in all.blocks && ChainRun(all, Genesis(p).tx, RunCalls(p, Genesis(p), events))
    ensures Ascending(all, Distinct(Agreement.History(Run(p, Genesis(p), events)))) <==>
            RisingRun(all, Genesis(p).tx, RunCalls(p, Genesis(p), events))
  {
    var k := EnterAll(w, p, events);
    Agreement.HistoryIsCertified(w, Run(p, Genesis(p), events), k);
    DistinctIsChanges(w.rc, k);
    FinalizedAscendIff(all, Genesis(p).tx, RunCalls(p, Genesis(p), events));
  }
}
