/**
 The node object: handlers that update the node's fields, its transaction system and its block store
 in place. Each method is tied to the function of NodeModel that the theorems are about.
 */
module Node {
  import opened Types
  import opened TxModel
  import M = NodeModel
  import opened NodeModel
  import opened TxSystem
  import opened BlockStore
  import opened Runs

  class FGPNode {
    const p: Params
    const tx: FGPTxSystem
    const store: Store
    var status: Status
    var fuc: Option<Certificate>
    var luc: Option<Certificate>
    var ltr: Option<TechnicalRecord>
    var leader: PeerID
    var pending: Option<Block>
    var lastProposal: Option<Proposal>
    var queue: seq<ReplicationRequest>
    var confEpoch: U64
    var epochEvent: bool
    var loadFailed: bool

    ghost function State(): NodeState
      reads this, tx, store
    {
      NodeState(status, fuc, luc, ltr, leader, pending, lastProposal, tx.State(), store.Blocks(), store.Pending(),
        queue, confEpoch, epochEvent, loadFailed)
    }

    ghost predicate Valid()
      reads this, tx, store
    {
      p.id != NO_PEER && tx.Valid() && store.Valid() && LeaderKnown(State())
    }

    // ---- rounds and recovery ----

    method RevertState()
      requires Valid()
      modifies tx
      ensures Valid() && State() == old(State()).(tx := Revert(old(tx.State())))
    {
      tx.Revert();
    }

    method StartNewRound(env: Env)
      requires Valid()
      modifies this`pending, store
      ensures Valid() && State() == M.StartNewRound(old(State()), env)
    {
      pending := None;
      if env.pendingDeleteOk {
        store.DeletePendingProposal();
      }
    }

    /** Reports the replication request that goes out, if any. */
    method StartRecovery() returns (request: Option<ReplicationRequest>)
      requires Valid()
      modifies this`status, this`pending, tx
      ensures Valid() && State() == M.StartRecovery(old(State()))
      ensures request == if old(status).Recovering? then None else Some(NextRequest(p, State()))
    {
      if status.Recovering? {
        return None;
      }
      status := Recovering;
      RevertState();
      pending := None;
      var begin := Add64(RoundOf(tx.committedUC), 1);
      request := Some(ReplicationRequest(p.partition, p.shard, p.id, begin, Add64(begin, p.maxFetch)));
    }

    method IsRecoveryComplete() returns (complete: bool)
      ensures complete <==> RecoveryComplete(State())
    {
      complete := RoundOf(tx.committedUC) == RoundOf(luc);
    }

    method GetCurrentEpoch() returns (epoch: U64)
      ensures epoch == CurrentEpoch(State())
    {
      if ltr.Some? {
        return ltr.value.epoch;
      }
      if luc.Some? {
        return luc.value.ir.epoch;
      }
      epoch := 0;
    }

    method GetCurrentRound() returns (round: U64)
      ensures round == CurrentRound(State())
      ensures round == if ltr.Some? then ltr.value.round else (RoundOf(luc) + 1) % U64_LIMIT
    {
      if ltr.Some? {
        return ltr.value.round;
      }
      round := Add64(RoundOf(luc), 1);
    }

    // ---- certificates ----

    method UpdateLUC(uc: Certificate, tr: Option<TechnicalRecord>) returns (ok: bool)
      requires Valid()
      modifies this`luc, this`ltr, this`leader, this`epochEvent
      ensures Valid()
      ensures var o := M.UpdateLUC(p, old(State()), uc, tr); State() == o.node && ok == o.ok
    {
      if !CertificateValid(p.lib, uc, confEpoch) {
        return false;
      }
      if status.Recovering? && RootRoundOf(luc) > uc.rootRound {
        return true;
      }
      if luc.Some? && !p.lib.consistent(luc.value, uc) {
        return false;
      }
      if IsDuplicate(uc, luc) && ltr.Some? {
        return true;
      }
      var leaderID := NO_PEER;
      if tr.Some? {
        var decoded := p.lib.decodePeer(tr.value.leader);
        if decoded.None? {
          return false;
        }
        leaderID := decoded.value;
      }
      SetLatest(uc, tr, leaderID);
      ok := true;
    }

    /** Moves to the certificate and schedules an epoch change; the event channel holds one signal. */
    method SetLatest(uc: Certificate, tr: Option<TechnicalRecord>, leaderID: PeerID)
      requires Valid() && (leaderID != NO_PEER ==> tr.Some?)
      modifies this`luc, this`ltr, this`leader, this`epochEvent
      ensures Valid() && State() == M.SetLatest(old(State()), uc, tr, leaderID)
    {
      var previousEpoch := GetCurrentEpoch();
      leader, ltr := leaderID, tr;
      luc := Some(uc);
      var newEpoch := GetCurrentEpoch();
      if previousEpoch != newEpoch || confEpoch != newEpoch {
        epochEvent := true;
      }
    }

    method FinalizeBlock(b: Block, uc: Certificate, env: Env) returns (ok: bool)
      requires Valid()
      modifies tx, store
      ensures Valid()
      ensures var o := M.FinalizeBlock(old(State()), b, uc, env); State() == o.node && ok == o.ok
    {
      var round := uc.ir.round;
      var isInitializing := status.Initializing?;
      if !isInitializing {
        if !env.writeOk {
          return false;
        }
        store.StoreBlock(round, b);
      }
      ok := tx.Commit(uc);
      if !ok && !isInitializing && env.deleteOk {
        RemoveWritten(store.Blocks(), old(store.Blocks()), round, b);
        store.DeleteBlock(round);
      }
    }

    method CertifyWithoutProposal(uc: Certificate, env: Env) returns (ok: bool)
      requires Valid()
      modifies this`status, this`pending, tx, store
      ensures Valid()
      ensures var o := M.CertifyWithoutProposal(p, old(State()), uc, env); State() == o.node && ok == o.ok
    {
      if p.lib.initial(uc) {
        StartNewRound(env);
        return true;
      }
      var root := tx.StateSummary();
      if root.None? || !SameBytes(uc.ir.hash, root.value) || !SameBytes(uc.ir.etHash, Nil) {
        var _ := StartRecovery();
        return false;
      }
      StartNewRound(env);
      ok := true;
    }

    /** The pending block gets the certificate before it is stored; both ways out drop the pending block. */
    method CertifyProposal(uc: Certificate, env: Env) returns (ok: bool)
      requires Valid() && pending.Some? && !status.Recovering?
      modifies this`status, this`pending, tx, store
      ensures Valid()
      ensures var o := M.CertifyProposal(old(State()), uc, env); State() == o.node && ok == o.ok
    {
      var block := pending.value;
      if block.cert.None? || !EqualIR(block.cert.value.ir, uc.ir) {
        var _ := StartRecovery();
        return false;
      }
      ok := SealPending(block, uc, env);
    }

    /** A certificate that cannot be encoded leaves the pending block without one. */
    method SealPending(block: Block, uc: Certificate, env: Env) returns (ok: bool)
      requires Valid() && pending == Some(block) && !status.Recovering? && block.cert.Some? && EqualIR(block.cert.value.ir, uc.ir)
      modifies this`status, this`pending, tx, store
      ensures Valid()
      ensures var o := M.CertifyProposal(old(State()), uc, env); State() == o.node && ok == o.ok
    {
      if !env.sealOk {
        pending := Some(block.(cert := None));
        return false;
      }
      var certified := block.(cert := Some(uc));
      SealedOutcome(State(), uc, env);
      pending := Some(certified);
      ok := FinalizePending(certified, uc, env);
    }

    method FinalizePending(block: Block, uc: Certificate, env: Env) returns (ok: bool)
      requires Valid()
      modifies this`status, this`pending, tx, store
      ensures Valid()
      ensures var o := M.FinalizeBlock(old(State()), block, uc, env);
              && ok == o.ok
              && State() == if ok then M.StartNewRound(o.node, env) else M.StartRecovery(o.node)
    {
      ok := FinalizeBlock(block, uc, env);
      if ok {
        StartNewRound(env);
      } else {
        var _ := StartRecovery();
      }
    }

    method HandleCertificate(uc: Certificate, tr: Option<TechnicalRecord>, env: Env) returns (ok: bool)
      requires Valid()
      modifies this, tx, store
      ensures Valid()
      ensures var o := M.HandleCertificate(p, old(State()), uc, tr, env); State() == o.node && ok == o.ok
    {
      var previous := luc;
      ok := UpdateLUC(uc, tr);
      if !ok || status.Recovering? {
        return;
      }
      var wasInitializing := status.Initializing?;
      status := Normal;
      ok := ActOnCertificate(old(State()), previous, wasInitializing, uc, env);
    }

    method ActOnCertificate(ghost before: NodeState, previous: Option<Certificate>, wasInitializing: bool, uc: Certificate, env: Env)
      returns (ok: bool)
      requires Valid() && status.Normal? && previous == before.luc && wasInitializing == before.status.Initializing?
      modifies this`status, this`pending, tx, store
      ensures Valid()
      ensures var o := M.ActOnCertificate(p, before, old(State()), uc, env); State() == o.node && ok == o.ok
    {
      if IsDuplicate(uc, previous) {
        if wasInitializing {
          StartNewRound(env);
        }
        return true;
      }
      if IsRepeat(uc, previous) {
        RevertState();
        StartNewRound(env);
        return true;
      }
      if !p.lib.successor(uc, tx.committedUC) {
        var _ := StartRecovery();
        return false;
      }
      if pending.None? {
        ok := CertifyWithoutProposal(uc, env);
      } else {
        ok := CertifyProposal(uc, env);
      }
    }

    method HandleCertificationResponse(cr: CertificationResponse, env: Env) returns (ok: bool)
      requires Valid()
      modifies this, tx, store
      ensures Valid()
      ensures var o := M.HandleCertificationResponse(p, old(State()), cr, env); State() == o.node && ok == o.ok
    {
      if !ResponseValid(p.lib, cr) {
        return false;
      }
      if cr.partition != p.partition || cr.shard != p.shard {
        return false;
      }
      ok := HandleCertificate(cr.uc, Some(cr.technical), env);
    }

    // ---- proposals ----

    /** The nil dereference of a missing latest certificate cannot happen: callers know a leader. */
    method SendCertificationRequest(author: PeerID, root: Slice, env: Env) returns (request: Option<InputRecord>)
      requires Valid() && luc.Some?
      modifies this`pending, tx, store
      ensures Valid()
      ensures var o := M.SendCertificationRequest(p, old(State()), author, root, env); State() == o.node && request == o.request
    {
      if !env.encodeOk {
        return None;
      }
      var round := GetCurrentRound();
      var epoch := GetCurrentEpoch();
      var header := Header(author, BlockHashOf(tx.committedUC));
      var previous := StateHashOf(luc);
      var blockHash := p.lib.blockHash(header, root, previous);
      var ir := InputRecord(round, epoch, previous, root, EMPTY, luc.value.sealTimestamp, blockHash, 0, Nil);
      var block := Block(header, Some(Certificate(ir, Nil, 0, 0)));
      if !env.pendingWriteOk {
        RevertState();
        return None;
      }
      store.StorePendingProposal(block);
      pending := Some(block);
      request := if env.requestSent then Some(ir) else None;
    }

    method FollowProposal(prop: Proposal, env: Env) returns (request: Option<InputRecord>)
      requires Valid() && prop.uc.Some?
      modifies this`pending, tx, store
      ensures Valid()
      ensures var o := M.FollowProposal(p, old(State()), prop, env); State() == o.node && request == o.request
    {
      if leader == NO_PEER || prop.node != leader {
        return None;
      }
      var root := tx.StateSummary();
      if root.None? {
        return None;
      }
      if !p.lib.initial(prop.uc.value) && !SameBytes(prop.uc.value.ir.hash, root.value) {
        return None;
      }
      var verified := tx.FollowerVerify(env.pow, prop.root);
      if verified.None? {
        RevertState();
        return None;
      }
      request := SendCertificationRequest(prop.node, verified.value, env);
    }

    method HandleProposal(prop: Option<Proposal>, env: Env) returns (request: Option<InputRecord>)
      requires Valid()
      modifies this, tx, store
      ensures Valid()
      ensures var o := M.HandleProposal(p, old(State()), prop, env); State() == o.node && request == o.request
    {
      if status.Recovering? {
        lastProposal := prop;
        return None;
      }
      if prop.None? || !ProposalValid(p, confEpoch, prop.value) {
        return None;
      }
      var uc := prop.value.uc.value;
      if uc.rootRound < RootRoundOf(luc) {
        return None;
      }
      if uc.rootRound > RootRoundOf(luc) {
        var ok := HandleCertificate(uc, Some(prop.value.technical), env);
        if !ok {
          return None;
        }
      }
      request := FollowProposal(prop.value, env);
    }

    method HandleT1Timeout(env: Env) returns (request: Option<InputRecord>, proposal: Option<Proposal>)
      requires Valid()
      modifies this`pending, tx, store
      ensures Valid()
      ensures var o := M.HandleT1Timeout(p, old(State()), env); State() == o.node && request == o.request && proposal == o.proposal
    {
      if status.Recovering? || leader != p.id {
        return None, None;
      }
      var root := tx.LeaderPropose(env.pow);
      if root.None? {
        RevertState();
        return None, None;
      }
      if ltr.None? || !env.proposalSent {
        RevertState();
        return None, None;
      }
      proposal := Some(Proposal(p.partition, p.shard, p.id, luc, ltr.value, root.value));
      request := SendCertificationRequest(p.id, root.value, env);
      if request.None? {
        RevertState();
      }
    }

    // ---- replication ----

    method HandleBlock(b: Block, env: Env) returns (ok: bool)
      requires Valid()
      modifies this, tx, store
      ensures Valid()
      ensures var o := M.HandleBlock(p, old(State()), b, env); State() == o.node && ok == o.ok
    {
      var committed := tx.committedUC;
      if !BlockValid(p.lib, b) {
        return false;
      }
      var uc := b.cert.value;
      ok := UpdateLUC(uc, None);
      if !ok {
        return;
      }
      if uc.ir.round <= RoundOf(committed) {
        return true;
      }
      if !p.lib.successor(uc, committed) {
        if !status.Initializing? {
          var _ := StartRecovery();
        }
        return false;
      }
      ok := ApplyVerified(b, uc, env);
    }

    method ApplyVerified(b: Block, uc: Certificate, env: Env) returns (ok: bool)
      requires Valid()
      modifies tx, store
      ensures Valid()
      ensures var o := M.ApplyVerified(p, old(State()), b, uc, env); State() == o.node && ok == o.ok
    {
      var fits := CheckExtends(b, uc);
      if !fits {
        return false;
      }
      VerifiedOutcome(p, State(), b, uc, env);
      ok := VerifyAndFinalize(b, uc, env);
    }

    /** A root that does not verify changes nothing. */
    method VerifyRoot(env: Env, root: Slice) returns (verified: Option<Slice>)
      requires Valid()
      modifies tx
      ensures Valid()
      ensures var t := FollowerVerify(old(State()).tx, env.pow, root);
              if t.Some? then verified == Some(root) && State() == old(State()).(tx := t.value) else verified.None? && State() == old(State())
    {
      verified := tx.FollowerVerify(env.pow, root);
    }

    method VerifyAndFinalize(b: Block, uc: Certificate, env: Env) returns (ok: bool)
      requires Valid()
      modifies tx, store
      ensures Valid()
      ensures var t := FollowerVerify(old(State()).tx, env.pow, uc.ir.hash);
              Outcome(State(), ok) ==
                if t.None? || !SummaryMatches(uc.ir.hash, uc.ir) then Outcome(old(State()).(tx := Revert(old(State()).tx)), false)
                else M.FinalizeOrRevert(old(State()).(tx := t.value), b, uc, env)
    {
      var verified := VerifyRoot(env, uc.ir.hash);
      if verified.None? || !SummaryMatches(verified.value, uc.ir) {
        RevertState();
        return false;
      }
      ok := FinalizeOrRevert(b, uc, env);
    }

    method CheckExtends(b: Block, uc: Certificate) returns (ok: bool)
      requires Valid()
      ensures ok <==> ExtendsLedger(p, State(), b, uc)
    {
      if !SameBytes(b.header.previousBlockHash, BlockHashOf(tx.committedUC)) {
        return false;
      }
      var root := tx.StateSummary();
      if root.None? {
        return false;
      }
      ok := tx.committedUC.None? || SameBytes(uc.ir.previousHash, root.value);
    }

    method FinalizeOrRevert(b: Block, uc: Certificate, env: Env) returns (ok: bool)
      requires Valid()
      modifies tx, store
      ensures Valid()
      ensures var o := M.FinalizeOrRevert(old(State()), b, uc, env); State() == o.node && ok == o.ok
    {
      ok := FinalizeBlock(b, uc, env);
      if !ok {
        RevertState();
      }
    }

    /** The loop over the blocks of a response. */
    method ApplyBlocks(blocks: seq<Block>, envs: seq<Env>) returns (ok: bool)
      requires Valid() && |envs| == |blocks|
      modifies this, tx, store
      ensures Valid()
      ensures var o := M.ApplyBlocks(p, old(State()), blocks, envs); State() == o.node && ok == o.ok
    {
      var i := 0;
      while i < |blocks|
        invariant 0 <= i <= |blocks| && Valid()
        invariant M.ApplyBlocks(p, State(), blocks[i..], envs[i..]) == M.ApplyBlocks(p, old(State()), blocks, envs)
      {
        assert blocks[i..][1..] == blocks[i + 1..] && envs[i..][1..] == envs[i + 1..];
        ok := HandleBlock(blocks[i], envs[i]);
        if !ok {
          return;
        }
        i := i + 1;
      }
      ok := true;
    }

    /** Reports the next replication request when blocks are still missing. */
    method HandleReplicationResponse(resp: ReplicationResponse, envs: seq<Env>, env: Env, retry: Env) returns (request: Option<ReplicationRequest>)
      requires Valid() && (resp.blocks.Some? ==> |envs| == |resp.blocks.value|)
      modifies this, tx, store
      ensures Valid()
      ensures State() == M.HandleReplicationResponse(p, old(State()), resp, envs, env, retry)
      ensures request.Some? ==> request == Some(NextRequest(p, State()))
      ensures request.Some? <==>
                && old(status).Recovering? && resp.status.Ok? && resp.blocks.Some? && CommittedRound(old(State())) < resp.first
                && var applied := M.ApplyBlocks(p, old(State()), resp.blocks.value, envs);
                   applied.ok && !RecoveryComplete(applied.node)
    {
      if resp.status.Ok? && resp.blocks.None? {
        return None;
      }
      if !status.Recovering? {
        return None;
      }
      if !resp.status.Ok? {
        var complete := IsRecoveryComplete();
        if complete {
          status := Normal;
        }
        return None;
      }
      if resp.first <= RoundOf(tx.committedUC) {
        return None;
      }
      var ok := ApplyBlocks(resp.blocks.value, envs);
      if !ok {
        return None;
      }
      var complete := IsRecoveryComplete();
      if !complete {
        var begin := Add64(RoundOf(tx.committedUC), 1);
        return Some(ReplicationRequest(p.partition, p.shard, p.id, begin, Add64(begin, p.maxFetch)));
      }
      FinishRecovery(env, retry);
      request := None;
    }

    method FinishRecovery(env: Env, retry: Env)
      requires Valid()
      modifies this, tx, store
      ensures Valid() && State() == M.FinishRecovery(p, old(State()), env, retry)
    {
      status := Normal;
      StartNewRound(env);
      if lastProposal.Some? {
        var _ := HandleProposal(lastProposal, retry);
        lastProposal := None;
      }
    }

    /** Queues the request for a worker or reports the status that is sent back; None when nothing is sent. */
    method HandleReplicationRequest(r: ReplicationRequest) returns (reply: Option<ReplicationStatus>)
      requires Valid()
      modifies this`queue
      ensures Valid() && State() == M.HandleReplicationRequest(p, old(State()), r)
      ensures reply == RequestStatus(p, old(State()), r)
    {
      if !RequestValid(r) {
        return None;
      }
      if r.partition != p.partition || r.shard != p.shard {
        return Some(WrongShard);
      }
      if r.begin <= RoundOf(fuc) {
        return Some(BlocksNotFound);
      }
      if RoundOf(tx.committedUC) < r.begin {
        return Some(BlocksNotFound);
      }
      if |queue| >= p.queueCapacity {
        return Some(Busy);
      }
      queue := queue + [r];
      reply := Some(Ok);
    }

    /** A worker takes the oldest request and answers it from the store. */
    method ProcessReplicationRequest(unreadable: set<U64>) returns (resp: ReplicationResponse, ghost rounds: seq<U64>)
      requires Valid() && queue != []
      modifies this`queue
      ensures Valid() && State() == old(State()).(queue := old(queue)[1..])
      ensures resp.status.Ok? && resp.blocks.Some?
      ensures Answers(store.Blocks(), old(queue)[0], p.maxReturn, unreadable, rounds, resp.blocks.value, resp.first, resp.last)
    {
      var blocks, first, last, listed;
      listed, blocks, first, last := store.CollectReply(queue[0], p.maxReturn, unreadable);
      rounds := listed;
      resp := ReplicationResponse(Ok, Some(blocks), first, last);
      queue := queue[1..];
    }

    // ---- epochs ----

    method HandleEpochChange(env: Env)
      requires Valid()
      modifies this`epochEvent, this`confEpoch, this`loadFailed, tx
      ensures Valid() && State() == M.HandleEpochChange(p, old(State()), env)
    {
      epochEvent := false;
      var epoch := GetCurrentEpoch();
      if !env.confReadOk || epoch !in p.confs {
        loadFailed := true;
        return;
      }
      loadFailed := false;
      confEpoch := p.confs[epoch].epoch;
      var _ := tx.UpdateConfig(p.confs[epoch]);
    }

    // ---- start-up ----

    /** A new node object on an existing store, before the state is restored. */
    constructor (p: Params, store: Store, tx: FGPTxSystem)
      requires ParamsOk(p) && store.Valid() && tx.Valid() && tx.State() == GenesisState(p.confs[0].dFG.value)
      ensures Valid() && this.tx == tx && this.store == store && this.p == p
      ensures State() == Genesis(p).(blocks := old(store.Blocks()), stored := old(store.Pending()))
    {
      this.p, this.store, this.tx := p, store, tx;
      status, fuc, luc, ltr, leader := Initializing, None, None, None, NO_PEER;
      pending, lastProposal, queue := None, None, [];
      confEpoch, epochEvent, loadFailed := p.firstEpoch, false, false;
    }

    method InitState(env: Env) returns (ok: bool)
      requires Valid() && ParamsOk(p)
      requires State() == Genesis(p).(blocks := store.Blocks(), stored := store.Pending())
      modifies this, tx
      ensures Valid()
      ensures ok <==> M.InitState(p, old(store.Blocks()), old(store.Pending()), env).Some?
      ensures ok ==> State() == M.InitState(p, old(store.Blocks()), old(store.Pending()), env).value
    {
      ok := RestoreLast(env);
      if !ok {
        return;
      }
      fuc := tx.committedUC;
      luc := fuc;
      RestoreProposal(env);
    }

    /**
     The process starts: a new object with a new transaction system on the store the last one left. It
     does not start without a usable first configuration or when the last entry cannot be restored.
     */
    static method Restart(p: Params, store: Store, env: Env) returns (node: Option<FGPNode>)
      requires Keyed(p) && store.Valid()
      ensures node.Some? <==> FirstUsable(p) && M.InitState(p, store.Blocks(), store.Pending(), env).Some?
      ensures node.Some? ==>
                && node.value.Valid() && node.value.store == store
                && node.value.State() == M.InitState(p, store.Blocks(), store.Pending(), env).value
    {
      if 0 !in p.confs {
        return None;
      }
      var tx := FGPTxSystem.FromConf(p.confs[0]);
      if tx.None? {
        return None;
      }
      var created := new FGPNode(p, store, tx.value);
      var ok := created.InitState(env);
      node := if ok then Some(created) else None;
    }

    /** Restores the transaction system from the last entry of the store. */
    method RestoreLast(env: Env) returns (ok: bool)
      requires Valid() && ParamsOk(p)
      requires State() == Genesis(p).(blocks := store.Blocks(), stored := store.Pending())
      modifies this`confEpoch, tx
      ensures Valid()
      ensures var entry := LastEntry(store.Blocks(), store.Pending());
              var restored := RestoreTx(p, old(tx.State()), entry, env);
              && (ok <==> restored.Some?)
              && (ok ==>
                    && tx.State() == restored.value
                    && confEpoch == if entry.Some? then p.confs[entry.value.cert.value.ir.epoch].epoch else p.firstEpoch)
    {
      var last := store.Last();
      if last.None? {
        return true;
      }
      if !env.lastReadOk || last.value.cert.None? {
        return false;
      }
      var uc := last.value.cert.value;
      if !env.confReadOk || uc.ir.epoch !in p.confs {
        return false;
      }
      confEpoch := p.confs[uc.ir.epoch].epoch;
      ok := tx.UpdateConfig(p.confs[uc.ir.epoch]);
      if ok {
        ok := tx.RestoreState(env.pow, uc);
      }
    }

    method RestoreProposal(env: Env)
      requires Valid()
      modifies this`pending, tx
      ensures Valid() && State() == M.RestoreProposal(old(State()), env)
    {
      var ok, stored := store.LoadPendingProposal(env.pendingReadOk);
      if !ok || stored.None? || stored.value.cert.None? {
        return;
      }
      var ir := stored.value.cert.value.ir;
      if !SameBytes(StateHashOf(tx.committedUC), ir.previousHash) {
        return;
      }
      var verified := tx.FollowerVerify(env.pow, ir.hash);
      if verified.None? || !SummaryMatches(verified.value, ir) {
        RevertState();
        return;
      }
      pending := stored;
    }

    // ---- main loop ----

    /** One turn of the loop, or of a worker. */
    method Turn(e: Event)
      requires Valid() && ParamsOk(p) && EventOk(e) && !e.OnRestart?
      modifies this, tx, store
      ensures Valid() && State() == Step(p, old(State()), e)
    {
      match e
      case OnCertificate(cr, env) => var _ := HandleCertificationResponse(cr, env);
      case OnProposal(prop, env) => var _ := HandleProposal(prop, env);
      case OnRequest(req) => var _ := HandleReplicationRequest(req);
      case OnResponse(resp, envs, env, retry) => var _ := HandleReplicationResponse(resp, envs, env, retry);
      case OnT1(env) => var _, _ := HandleT1Timeout(env);
      case OnEpochChange(env) =>
        if epochEvent {
          HandleEpochChange(env);
        }
      case OnWorker =>
        if queue != [] {
          var _, _ := ProcessReplicationRequest({});
        }
    }

    /** The main loop over any finite run of events refines Run, so what holds of every run holds of the object. */
    method Loop(events: seq<Event>)
      requires Valid() && ParamsOk(p)
      requires forall i :: 0 <= i < |events| ==> EventOk(events[i]) && !events[i].OnRestart?
      modifies this, tx, store
      ensures Valid() && State() == Run(p, old(State()), events)
    {
      var i := 0;
      while i < |events|
        invariant 0 <= i <= |events| && Valid()
        invariant Run(p, State(), events[i..]) == Run(p, old(State()), events)
      {
        assert events[i..][1..] == events[i + 1..];
        Turn(events[i]);
        i := i + 1;
      }
    }
  }

  /** Both ways out of finalizing the pending block drop it, so setting the certificate on it first makes no difference. */
  lemma SealedOutcome(n: NodeState, uc: Certificate, env: Env)
    requires !n.status.Recovering? && n.pending.Some? && n.pending.value.cert.Some? && EqualIR(n.pending.value.cert.value.ir, uc.ir) && env.sealOk
    ensures var b := n.pending.value.(cert := Some(uc));
            var o := M.FinalizeBlock(n.(pending := Some(b)), b, uc, env);
            M.CertifyProposal(n, uc, env) == Outcome(if o.ok then M.StartNewRound(o.node, env) else M.StartRecovery(o.node), o.ok)
  {
    var b := n.pending.value.(cert := Some(uc));
    PendingUnused(n, Some(b), b, uc, env);
  }

  lemma VerifiedOutcome(p: Params, n: NodeState, b: Block, uc: Certificate, env: Env)
    requires ExtendsLedger(p, n, b, uc)
    ensures var t := FollowerVerify(n.tx, env.pow, uc.ir.hash);
            M.ApplyVerified(p, n, b, uc, env) ==
              if t.None? || !SummaryMatches(uc.ir.hash, uc.ir) then Outcome(n.(tx := Revert(n.tx)), false)
              else M.FinalizeOrRevert(n.(tx := t.value), b, uc, env)
  {
  }

  /** Both ways out of finalizing drop the pending block, whatever it was. */
  lemma PendingUnused(n: NodeState, pending: Option<Block>, b: Block, uc: Certificate, env: Env)
    requires !n.status.Recovering?
    ensures var o, o' := M.FinalizeBlock(n, b, uc, env), M.FinalizeBlock(n.(pending := pending), b, uc, env);
            && o.ok == o'.ok
            && M.StartNewRound(o.node, env) == M.StartNewRound(o'.node, env)
            && M.StartRecovery(o.node) == M.StartRecovery(o'.node)
  {
  }

  /** Deleting a block just written leaves what deleting it from the old store leaves. */
  lemma RemoveWritten(written: map<U64, Block>, before: map<U64, Block>, round: U64, b: Block)
    requires written == before[round := b]
    ensures written - {round} == before - {round}
  {
  }
}
