/** Start-up from the block store: what a restarted node knows, and when that is what the stopped node knew. */
module Restart {
  import opened Types
  import opened TxModel
  import opened NodeModel
  import opened RootChain
  import opened Safety

  /** There is a finalized block to restore, or nothing at all. */
  predicate SafeToRestart(n: NodeState) {
    n.blocks != map[] || n.stored.None?
  }

  /** The restored proposal, if any, extends the restored block. */
  ghost predicate RestoredLinked(m: NodeState) {
    m.pending.Some? ==> SameBytes(m.pending.value.header.previousBlockHash, BlockHashOf(m.tx.committedUC))
  }

  /** The certificate of the last stored block. */
  ghost function LastCertificate(n: NodeState): Option<Certificate> {
    if n.blocks == map[] then None else n.blocks[LastRound(n.blocks)].cert
  }

  /** The depth a node starts with: that of the epoch of its last block. */
  ghost function StartDepth(p: Params, last: Option<Certificate>): U64
    requires ParamsOk(p)
  {
    if last.None? then p.confs[0].dFG.value
    else if last.value.ir.epoch in p.confs && p.confs[last.value.ir.epoch].dFG.Some? then p.confs[last.value.ir.epoch].dFG.value
    else 0
  }

  /** The stored proposal passes the checks of start-up: it can be read, extends the state of the last stored block, and its root verifies. */
  ghost predicate TakesUp(p: Params, n: NodeState, env: Env)
    requires ParamsOk(p)
  {
    && env.pendingReadOk && n.stored.Some? && n.stored.value.cert.Some?
    && var last, ir := LastCertificate(n), n.stored.value.cert.value.ir;
       && SameBytes(StateHashOf(last), ir.previousHash)
       && (SameBytes(ir.hash, StateHashOf(last)) || Confirmed(StartDepth(p, last), env.pow, ir.hash))
       && Plain(ir)
  }

  /** It passes these checks although its header does not point to the last stored block. */
  ghost predicate TakesUpUnlinked(p: Params, n: NodeState, env: Env)
    requires ParamsOk(p)
  {
    TakesUp(p, n, env) && !SameBytes(n.stored.value.header.previousBlockHash, BlockHashOf(LastCertificate(n)))
  }

  /** The last entry can be read, with the configuration of its epoch, which has a usable depth, and the PoW node knows its block. */
  ghost predicate Restorable(p: Params, entry: Block, env: Env) {
    && env.lastReadOk && env.confReadOk && entry.cert.Some?
    && var ir := entry.cert.value.ir;
       && ir.epoch in p.confs && p.confs[ir.epoch].dFG.Some? && p.confs[ir.epoch].dFG.value > 0
       && (Content(ir.hash) == [] || Content(ir.hash) in env.pow.byHash)
  }

  /** Start-up succeeds if and only if the store is empty or its last entry, block or proposal, can be restored. */
  lemma StartsIff(p: Params, blocks: map<U64, Block>, stored: Option<Block>, env: Env)
    requires ParamsOk(p)
    ensures var entry := if blocks == map[] then stored else Some(blocks[LastRound(blocks)]);
            InitState(p, blocks, stored, env).Some? <==> entry.None? || Restorable(p, entry.value, env)
  {
  }

  /** The node that starts waits for its first certificate: no leader, no requests, no event, and the configuration of the last block. */
  lemma StartsFresh(p: Params, n: NodeState, env: Env)
    requires ParamsOk(p) && SafeToRestart(n) && InitState(p, n.blocks, n.stored, env).Some?
    ensures var m, last := InitState(p, n.blocks, n.stored, env).value, LastCertificate(n);
            && m.status.Initializing? && m.ltr.None? && m.leader == NO_PEER && m.queue == [] && m.lastProposal.None?
            && !m.epochEvent && !m.loadFailed && m.confEpoch == (if last.Some? then last.value.ir.epoch else 0)
  {
  }

  /** A safe restart knows the certificate of the last block and nothing newer, and takes up at most the stored proposal. */
  lemma RestartRestores(p: Params, n: NodeState, env: Env)
    requires ParamsOk(p) && SafeToRestart(n) && InitState(p, n.blocks, n.stored, env).Some?
    ensures var m := InitState(p, n.blocks, n.stored, env).value;
            && m.tx.committedUC == m.luc == m.fuc == LastCertificate(n)
            && m.blocks == n.blocks && m.stored == n.stored
            && (m.pending.Some? ==>
                  && m.pending == n.stored && n.stored.value.cert.Some?
                  && SameBytes(StateHashOf(LastCertificate(n)), n.stored.value.cert.value.ir.previousHash))
  {
  }

  /** A stored proposal is taken up exactly when it passes the checks on store and answers, which do not look at its header. */
  lemma TakenUpIff(p: Params, n: NodeState, env: Env)
    requires ParamsOk(p) && SafeToRestart(n) && InitState(p, n.blocks, n.stored, env).Some?
    ensures var m := InitState(p, n.blocks, n.stored, env).value;
            && (m.pending.Some? <==> TakesUp(p, n, env))
            && (if m.pending.Some? then m.pending == n.stored && m.tx.pendingHash == n.stored.value.cert.value.ir.hash else m.tx.pendingHash == Nil)
  {
    var entry := LastEntry(n.blocks, n.stored);
    var tx := RestoreTx(p, GenesisState(p.confs[0].dFG.value), entry, env).value;
    assert SameBytes(tx.committedHash, StateHashOf(LastCertificate(n))) && tx.dFG == StartDepth(p, LastCertificate(n));
  }

  /** The restored node's proposal links to the restored block if and only if start-up does not take one up that does not. */
  lemma RestoredLinkedIff(p: Params, n: NodeState, env: Env)
    requires ParamsOk(p) && SafeToRestart(n) && InitState(p, n.blocks, n.stored, env).Some?
    ensures RestoredLinked(InitState(p, n.blocks, n.stored, env).value) <==> !TakesUpUnlinked(p, n, env)
  {
    RestartRestores(p, n, env);
    TakenUpIff(p, n, env);
  }

  /** The last stored block is the committed one, or the one after it. */
  lemma LastBlock(w: World, blocks: map<U64, Block>, k: nat) returns (k': nat)
    requires Increasing(w.rc) && Stored(w, blocks, k) && blocks != map[]
    ensures k <= k' <= k + 1 && Holds(w, blocks, k') && LastRound(blocks) == RecordRound(w.rc, k')
    ensures Stored(w, blocks, k') && (w.exact ==> k' == k)
  {
    k' := RoundsAreRecords(w.rc, k, LastRound(blocks));
    if k >= 1 {
      assert Holds(w, blocks, k);
    }
    RecordOrder(w.rc, k', k);
    assert Holds(w, blocks, k');
    if k' == k + 1 && k + 2 < |w.rc.records| {
      assert RecordRound(w.rc, k + 1) < RecordRound(w.rc, k + 2);
    }
  }

  /** The state right after the transaction system is restored, before the stored proposal is looked at. */
  ghost function Restored(p: Params, tx: TxState, n: NodeState, epoch: U64): NodeState {
    NodeState(Initializing, tx.committedUC, tx.committedUC, None, NO_PEER, None, None, tx, n.blocks, n.stored, [], epoch, false, false)
  }

  lemma RestoredKeeps(w: World, p: Params, n: NodeState, k: nat, tx: TxState, epoch: U64)
    requires Ledger(w, tx, n.blocks, k) && tx.dFG >= 1 && HeightsTrue(w, tx)
    requires n.stored.Some? ==> Proposed(w.lib, n.stored.value)
    requires epoch == if tx.committedUC.Some? then tx.committedUC.value.ir.epoch else 0
    ensures Inv(w, Restored(p, tx, n, epoch), k)
  {
  }

  lemma RestoreProposalKeeps(w: World, n: NodeState, k: nat, env: Env)
    requires Inv(w, n, k) && EnvOk(w, env) && !n.status.Recovering?
    ensures Inv(w, RestoreProposal(n, env), k)
  {
    if n.stored.Some? {
      PendingHeightTrue(w, n.tx, env, n.stored.value.cert.value.ir.hash);
    }
    var m := RestoreProposal(n, env);
    TentativeKeeps(w, n, k, m.tx);
    assert m == n.(tx := m.tx).(pending := m.pending);
  }

  /** A node that restarts safely is again at the record it had committed, or at the next one if that block was left in the store. */
  lemma RestartKeeps(w: World, p: Params, n: NodeState, k: nat, env: Env) returns (k': nat)
    requires Increasing(w.rc) && Inv(w, n, k) && ParamsOk(p) && EnvOk(w, env) && SafeToRestart(n)
    requires InitState(p, n.blocks, n.stored, env).Some?
    ensures k <= k' <= k + 1 && (w.exact ==> k' == k)
    ensures Inv(w, InitState(p, n.blocks, n.stored, env).value, k')
  {
    var started := GenesisState(p.confs[0].dFG.value);
    var entry := LastEntry(n.blocks, n.stored);
    var tx := RestoreTx(p, started, entry, env).value;
    var epoch := if entry.Some? then p.confs[entry.value.cert.value.ir.epoch].epoch else p.firstEpoch;
    if n.blocks == map[] {
      assert k >= 1 ==> Holds(w, n.blocks, k);
      k' := k;
    } else {
      k' := LastBlock(w, n.blocks, k);
      assert tx.committedUC == n.blocks[RecordRound(w.rc, k')].cert;
      assert Committed(w, tx, k');
    }
    assert HeightsTrue(w, tx);
    RestoredKeeps(w, p, n, k', tx, epoch);
    RestoreProposalKeeps(w, Restored(p, tx, n, epoch), k', env);
  }

  /** Restart is sound exactly when it is safe: without a block, a stored proposal is mistaken for a certified block. */
  lemma RestartSoundIffSafe(w: World, p: Params, n: NodeState, k: nat, env: Env)
    requires WellFormed(w.rc) && Inv(w, n, k) && ParamsOk(p) && InitState(p, n.blocks, n.stored, env).Some?
    ensures var uc := InitState(p, n.blocks, n.stored, env).value.tx.committedUC;
            (uc.Some? ==> Issued(w.rc, uc.value)) <==> SafeToRestart(n)
  {
    if SafeToRestart(n) {
      var v := World(w.lib, w.rc, false, None);
      Weaken(w, v, n, k);
      var _ := RestartKeeps(v, p, n, k, env);
    } else {
      assert InitState(p, n.blocks, n.stored, env).value.tx.committedUC == n.stored.value.cert;
    }
  }

  /**
   The failing restart: the node has asked for the certification of its first block and stops. With no
   block stored, the proposal it wrote is the last entry, and start-up takes its unsealed certificate
   for the committed one.
   */
  lemma ProposalTakenForBlock(p: Params, proposal: Block, env: Env)
    requires ParamsOk(p) && env.confReadOk && env.lastReadOk && proposal.cert.Some?
    requires var ir := proposal.cert.value.ir;
             && ir.epoch in p.confs && UpdateConfig(GenesisState(1), p.confs[ir.epoch]).Some?
             && (Content(ir.hash) == [] || Content(ir.hash) in env.pow.byHash)
    ensures var n := InitState(p, map[], Some(proposal), env);
            n.Some? && n.value.tx.committedUC == n.value.luc == n.value.fuc == proposal.cert
  {
    var entry := LastEntry(map[], Some(proposal));
    assert entry == Some(proposal);
    var tx := RestoreTx(p, GenesisState(p.confs[0].dFG.value), entry, env);
    assert tx.Some? && tx.value.committedUC == proposal.cert;
  }

  /** A node without a block that sends its first certification request is no longer safe to restart. */
  lemma ProposingIsUnsafe(p: Params, n: NodeState, env: Env)
    requires Healthy(n) && p.id != NO_PEER && n.blocks == map[] && HandleT1Timeout(p, n, env).request.Some?
    ensures var m := HandleT1Timeout(p, n, env).node;
            && m.blocks == map[] && !SafeToRestart(m)
            && m.stored.value.cert == Some(Certificate(HandleT1Timeout(p, n, env).request.value, Nil, 0, 0))
  {
  }

  /** v asks for no more than w. */
  ghost predicate Weaker(v: World, w: World) {
    && v.lib == w.lib && v.rc == w.rc
    && (v.exact ==> w.exact)
    && (v.heights.None? || v.heights == w.heights)
  }

  /** The optional parts of the invariant can be dropped. */
  lemma Weaken(w: World, v: World, n: NodeState, k: nat)
    requires Inv(w, n, k) && Weaker(v, w)
    ensures Inv(v, n, k)
  {
    forall i: nat | Holds(w, n.blocks, i)
      ensures Holds(v, n.blocks, i)
    {
    }
  }

  /** Restarting a node that has finalized a block rebuilds its committed certificate, hash and height. */
  lemma RestartEquivalence(w: World, p: Params, n: NodeState, k: nat, env: Env)
    requires Increasing(w.rc) && w.exact && w.heights.Some?
    requires Inv(w, n, k) && ParamsOk(p) && EnvOk(w, env)
    requires n.blocks != map[] && InitState(p, n.blocks, n.stored, env).Some?
    ensures var m := InitState(p, n.blocks, n.stored, env).value;
            && m.tx.committedUC == n.tx.committedUC
            && SameBytes(m.tx.committedHash, n.tx.committedHash)
            && m.tx.committedHeight == n.tx.committedHeight
            && m.luc == m.fuc == n.tx.committedUC
            && m.blocks == n.blocks
  {
    var k' := RestartKeeps(w, p, n, k, env);
    var _ := LastBlock(w, n.blocks, k);
    assert LastRound(n.blocks) == RecordRound(w.rc, k) == CommittedRound(n);
  }

  /** What a restart forgets: a certificate newer than that of the last stored block. */
  ghost predicate NothingNewer(n: NodeState) {
    RootRoundOf(n.luc) <= RootRoundOf(LastCertificate(n))
  }

  /** The latest certificate survives a restart without getting older if and only if it is no newer than that of the last block. */
  lemma RestartNeverOlderIff(w: World, p: Params, n: NodeState, k: nat, env: Env)
    requires Increasing(w.rc) && Inv(w, n, k) && ParamsOk(p) && SafeToRestart(n) && InitState(p, n.blocks, n.stored, env).Some?
    ensures var m := InitState(p, n.blocks, n.stored, env).value;
            && (RootRoundOf(n.luc) <= RootRoundOf(m.luc) <==> NothingNewer(n))
            && (w.exact ==> (NothingNewer(n) <==> RootRoundOf(n.luc) == RootRoundOf(n.tx.committedUC)))
  {
    RestartRestores(p, n, env);
    if w.exact {
      LastIsCommitted(w, n, k);
    }
  }

  lemma LastIsCommitted(w: World, n: NodeState, k: nat)
    requires Increasing(w.rc) && w.exact && Inv(w, n, k)
    ensures LastCertificate(n) == n.tx.committedUC
  {
    if n.blocks == map[] {
      assert k >= 1 ==> Holds(w, n.blocks, k);
    } else {
      var k' := LastBlock(w, n.blocks, k);
      assert LastRound(n.blocks) == RecordRound(w.rc, k) == CommittedRound(n);
    }
  }

  /** A crash after the block is written and before it is committed loses nothing: restart finds the certificate of that block. */
  lemma CrashAfterWrite(w: World, p: Params, n: NodeState, k: nat, b: Block, env: Env)
    requires Increasing(w.rc) && Inv(w, n, k) && ParamsOk(p) && Certifies(w, b, k + 1)
    requires InitState(p, n.blocks[b.cert.value.ir.round := b], n.stored, env).Some?
    ensures InitState(p, n.blocks[b.cert.value.ir.round := b], n.stored, env).value.tx.committedUC == b.cert
  {
    var blocks := n.blocks[RecordRound(w.rc, k + 1) := b];
    StoreNext(w, n.blocks, k, b);
    var k' := LastBlock(w, blocks, k + 1);
    if k' == k + 2 {
      var _ := RoundsAreRecords(w.rc, k, RecordRound(w.rc, k + 2));
    }
  }
}
