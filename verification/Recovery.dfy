/** Recovery makes progress against an honest server, and rebuilds the ledger that live finalization built. */
module Recovery {
  import opened Types
  import opened TxModel
  import opened NodeModel
  import opened RootChain
  import opened Safety
  import opened Runs
  import opened Restart
  import opened Agreement
  import opened Links
  import opened Steady

  // ---- one block ----

  /** The store takes the block, and the hash it certifies is the previous one or confirmed by the PoW node. */
  ghost predicate Favourable(dFG: U64, previous: Slice, b: Block, env: Env) {
    env.writeOk && b.cert.Some? && (SameBytes(b.cert.value.ir.hash, previous) || Confirmed(dFG, env.pow, b.cert.value.ir.hash))
  }

  function MaxRound(a: U64, b: U64): U64 {
    if a < b then b else a
  }

  /** The latest certificate takes in an issued certificate and ends at the later of the two rounds. */
  lemma RecoveredCertificateCounts(w: World, p: Params, n: NodeState, uc: Certificate)
    requires Trust(w) && Complete(w.lib, w.rc) && p.lib == w.lib && Latest(w, n) && n.status.Recovering? && Issued(w.rc, uc)
    ensures var o := UpdateLUC(p, n, uc, None);
            o.ok && RoundOf(o.node.luc) == MaxRound(RoundOf(n.luc), uc.ir.round)
  {
    if n.luc.Some? {
      if uc.rootRound <= n.luc.value.rootRound {
        IssuedInOrder(w.rc, uc, n.luc.value);
      } else {
        IssuedInOrder(w.rc, n.luc.value, uc);
      }
    }
  }

  /** The block of the next record extends the ledger if and only if its header points to the committed block. */
  lemma NextBlockExtends(w: World, p: Params, n: NodeState, k: nat, b: Block)
    requires Committed(w, n.tx, k) && n.tx.pendingHash == Nil && Certifies(w, b, k + 1)
    ensures ExtendsLedger(p, n, b, b.cert.value) <==> SameBytes(b.header.previousBlockHash, BlockHashOf(n.tx.committedUC))
  {
  }

  lemma NextBlockFinalizes(w: World, p: Params, n: NodeState, k: nat, b: Block, env: Env)
    requires Core(w, n, k) && Quiet(n) && n.status.Recovering? && Certifies(w, b, k + 1) && Favourable(n.tx.dFG, n.tx.committedHash, b, env)
    ensures var o := ApplyVerified(p, n, b, b.cert.value, env);
            if SameBytes(b.header.previousBlockHash, BlockHashOf(n.tx.committedUC))
            then o.ok && o.node.tx.committedUC == b.cert && o.node.tx.dFG == n.tx.dFG && o.node.blocks == n.blocks[b.cert.value.ir.round := b]
            else o == Outcome(n, false)
  {
    NextBlockExtends(w, p, n, k, b);
  }

  /** The node got from n to record k by committing the certificate, and its latest certificate is not behind. */
  ghost predicate Reached(w: World, n: NodeState, o: Outcome, k: nat, cert: Option<Certificate>) {
   && o.ok
   && Inv(w, o.node, k)
   && o.node.status.Recovering?
   && o.node.tx.committedUC == cert
   && o.node.tx.dFG == n.tx.dFG
   && o.node.lastProposal == n.lastProposal
   && RoundOf(o.node.luc) == MaxRound(RoundOf(n.luc), CommittedRound(o.node))
  }

  /** The block is refused: the node is still recovering and has the ledger it had. */
  ghost predicate Refused(n: NodeState, o: Outcome) {
    !o.ok && o.node.status.Recovering? && o.node.tx == n.tx && o.node.blocks == n.blocks && o.node.lastProposal == n.lastProposal
  }

  /** A recovering node applies the block of the next record if and only if its header points to the committed block. */
  lemma NextBlockAppliesIff(w: World, p: Params, n: NodeState, k: nat, b: Block, env: Env)
    requires Trust(w) && Complete(w.lib, w.rc) && p.lib == w.lib && EnvOk(w, env)
    requires Inv(w, n, k) && n.status.Recovering? && Certifies(w, b, k + 1) && Favourable(n.tx.dFG, n.tx.committedHash, b, env)
    ensures var o := HandleBlock(p, n, b, env);
            if SameBytes(b.header.previousBlockHash, BlockHashOf(n.tx.committedUC))
            then Reached(w, n, o, k + 1, b.cert) && o.node.blocks == n.blocks[b.cert.value.ir.round := b]
            else Refused(n, o)
  {
    var uc := b.cert.value;
    RecoveredCertificateCounts(w, p, n, uc);
    UpdateLUCKeeps(w, p, n, k, uc, None);
    NextBlockFinalizes(w, p, UpdateLUC(p, n, uc, None).node, k, b, env);
    NextBlockIsTried(w, p, n, k, b, env);
    if SameBytes(b.header.previousBlockHash, BlockHashOf(n.tx.committedUC)) {
      var k' := HandleBlockKeeps(w, p, n, k, b, env);
      StandsAt(w, HandleBlock(p, n, b, env).node, k', k + 1);
    }
  }

  lemma NextBlockIsTried(w: World, p: Params, n: NodeState, k: nat, b: Block, env: Env)
    requires Increasing(w.rc) && Complete(w.lib, w.rc) && p.lib == w.lib && Inv(w, n, k) && Certifies(w, b, k + 1)
    requires UpdateLUC(p, n, b.cert.value, None).ok
    ensures HandleBlock(p, n, b, env) == ApplyVerified(p, UpdateLUC(p, n, b.cert.value, None).node, b, b.cert.value, env)
  {
    RecordOrder(w.rc, k, k + 1);
    assert At(w.rc, n.tx.committedUC, k);
    assert w.lib.successor(b.cert.value, n.tx.committedUC);
  }

  /** The committed certificate tells at which record a node stands. */
  lemma StandsAt(w: World, n: NodeState, k: nat, i: nat)
    requires Increasing(w.rc) && Inv(w, n, k)
    requires i < |w.rc.records| && n.tx.committedUC.Some? && n.tx.committedUC.value.ir == w.rc.records[i]
    ensures k == i
  {
    assert RecordRound(w.rc, k) == RecordRound(w.rc, i);
  }

  // ---- runs of blocks ----

  /** The blocks certify the records after k, in order. */
  ghost predicate Follows(w: World, blocks: seq<Block>, k: nat) {
    blocks == [] || (Certifies(w, blocks[0], k + 1) && Follows(w, blocks[1..], k + 1))
  }

  /** The headers form a chain that starts at the given block hash. */
  ghost predicate HeaderChain(link: Slice, blocks: seq<Block>)
    decreases |blocks|
  {
    blocks == [] || (SameBytes(blocks[0].header.previousBlockHash, link) && HeaderChain(BlockHashOf(blocks[0].cert), blocks[1..]))
  }

  ghost predicate AllFavourable(w: World, dFG: U64, previous: Slice, blocks: seq<Block>, envs: seq<Env>)
    decreases |blocks|
  {
   && |envs| == |blocks|
   && (blocks == [] ||
        (&& EnvOk(w, envs[0]) && Favourable(dFG, previous, blocks[0], envs[0])
        && AllFavourable(w, dFG, blocks[0].cert.value.ir.hash, blocks[1..], envs[1..])))
  }

  lemma {:induction false} FollowsPointwise(w: World, blocks: seq<Block>, k: nat)
    requires forall i :: 0 <= i < |blocks| ==> Certifies(w, blocks[i], k + 1 + i)
    ensures Follows(w, blocks, k)
    decreases |blocks|
  {
    if blocks != [] {
      forall i | 0 <= i < |blocks| - 1
        ensures Certifies(w, blocks[1..][i], k + 2 + i)
      {
        assert Certifies(w, blocks[i + 1], k + 1 + (i + 1));
      }
      FollowsPointwise(w, blocks[1..], k + 1);
    }
  }

  lemma ReachedThrough(w: World, n: NodeState, mid: Outcome, o: Outcome, k: nat, k': nat, a: Option<Certificate>, b: Option<Certificate>)
    requires Increasing(w.rc) && k < k' && Reached(w, n, mid, k, a) && Reached(w, mid.node, o, k', b)
    ensures Reached(w, n, o, k', b)
  {
    assert CommittedRound(mid.node) == RecordRound(w.rc, k) < RecordRound(w.rc, k') == CommittedRound(o.node);
  }

  /** A recovering node at record k is given the blocks of the records that follow, under favourable conditions. */
  ghost predicate Applicable(w: World, p: Params, n: NodeState, k: nat, dFG: U64, previous: Slice, blocks: seq<Block>, envs: seq<Env>,
                             o: Outcome, k': nat, last: Option<Certificate>)
  {
   && Inv(w, n, k) && n.status.Recovering? && n.tx.dFG == dFG && SameBytes(n.tx.committedHash, previous)
   && blocks != [] && Follows(w, blocks, k) && AllFavourable(w, dFG, previous, blocks, envs)
   && o == ApplyBlocks(p, n, blocks, envs) && k' == k + |blocks| && last == blocks[|blocks| - 1].cert
  }

  lemma FirstBlockApplies(w: World, p: Params, n: NodeState, k: nat, dFG: U64, previous: Slice, blocks: seq<Block>, envs: seq<Env>,
                          o: Outcome, k': nat, last: Option<Certificate>)
    returns (first: Outcome)
    requires Trust(w) && Complete(w.lib, w.rc) && p.lib == w.lib
    requires Applicable(w, p, n, k, dFG, previous, blocks, envs, o, k', last)
    ensures if SameBytes(blocks[0].header.previousBlockHash, BlockHashOf(n.tx.committedUC))
            then Reached(w, n, first, k + 1, blocks[0].cert) else o == first && Refused(n, first)
    ensures first.ok ==>
              if |blocks| == 1 then o == first
              else Applicable(w, p, first.node, k + 1, dFG, blocks[0].cert.value.ir.hash, blocks[1..], envs[1..], o, k', last)
  {
    first := HandleBlock(p, n, blocks[0], envs[0]);
    NextBlockAppliesIff(w, p, n, k, blocks[0], envs[0]);
    if first.ok {
      ApplyFirst(p, n, blocks, envs, first);
      if |blocks| > 1 {
        RestApplicable(w, p, n, k, dFG, previous, blocks, envs, o, k', last, first);
      }
    }
  }

  lemma ApplyFirst(p: Params, n: NodeState, blocks: seq<Block>, envs: seq<Env>, first: Outcome)
    requires |envs| == |blocks| > 0 && first == HandleBlock(p, n, blocks[0], envs[0]) && first.ok
    ensures ApplyBlocks(p, n, blocks, envs) == ApplyBlocks(p, first.node, blocks[1..], envs[1..])
    ensures |blocks| == 1 ==> ApplyBlocks(p, n, blocks, envs) == first
  {
  }

  lemma RestApplicable(w: World, p: Params, n: NodeState, k: nat, dFG: U64, previous: Slice, blocks: seq<Block>, envs: seq<Env>,
                       o: Outcome, k': nat, last: Option<Certificate>, first: Outcome)
    requires |blocks| > 1 && Applicable(w, p, n, k, dFG, previous, blocks, envs, o, k', last)
    requires Reached(w, n, first, k + 1, blocks[0].cert) && o == ApplyBlocks(p, first.node, blocks[1..], envs[1..])
    ensures Applicable(w, p, first.node, k + 1, dFG, blocks[0].cert.value.ir.hash, blocks[1..], envs[1..], o, k', last)
  {
  }

  /** A recovering node applies a run of following blocks if and only if their headers form a chain, and then ends at the last of them. */
  lemma {:induction false} FollowingBlocksApplyIff(w: World, p: Params, n: NodeState, k: nat, dFG: U64, previous: Slice, blocks: seq<Block>, envs: seq<Env>,
                                                   o: Outcome, k': nat, last: Option<Certificate>)
    requires Trust(w) && Complete(w.lib, w.rc) && p.lib == w.lib
    requires Applicable(w, p, n, k, dFG, previous, blocks, envs, o, k', last)
    ensures o.ok <==> HeaderChain(BlockHashOf(n.tx.committedUC), blocks)
    ensures o.ok ==> Reached(w, n, o, k', last)
    decreases |blocks|
  {
    var first := FirstBlockApplies(w, p, n, k, dFG, previous, blocks, envs, o, k', last);
    if first.ok && |blocks| > 1 {
      FollowingBlocksApplyIff(w, p, first.node, k + 1, dFG, blocks[0].cert.value.ir.hash, blocks[1..], envs[1..], o, k', last);
      if o.ok {
        ReachedThrough(w, n, first, o, k + 1, k', blocks[0].cert, last);
      }
    }
  }

  // ---- replies of an honest server ----

  ghost function BlocksAt(blocks: map<U64, Block>, rounds: seq<U64>): seq<Block>
    requires forall i :: 0 <= i < |rounds| ==> rounds[i] in blocks
  {
    seq(|rounds|, i requires 0 <= i < |rounds| => blocks[rounds[i]])
  }

  /** Position i of the reply is the round of the (i+1)-th record after k, at most one past the server's record. */
  ghost predicate SentAt(rc: RootChain, rounds: seq<U64>, k: nat, ks: nat, i: nat) {
    i < |rounds| && k + i <= ks && k + 1 + i < |rc.records| && rounds[i] == RecordRound(rc, k + 1 + i)
  }

  lemma {:induction false} ReplyStep(w: World, blocks: map<U64, Block>, ks: nat, r: ReplicationRequest, maxReturn: U64, rounds: seq<U64>, k: nat, m: nat)
    requires Increasing(w.rc) && Stored(w, blocks, ks) && IsReply(blocks, r, maxReturn, rounds)
    requires k < ks && r.begin == RecordRound(w.rc, k) + 1 && m <= |rounds|
    ensures forall i: nat {:trigger SentAt(w.rc, rounds, k, ks, i)} :: i < m ==> SentAt(w.rc, rounds, k, ks, i)
    decreases m
  {
    if m > 0 {
      ReplyStep(w, blocks, ks, r, maxReturn, rounds, k, m - 1);
      var at := RoundsAreRecords(w.rc, ks, rounds[m - 1]);
      RecordOrder(w.rc, k, at);
      if m > 1 {
        assert rounds[m - 2] < rounds[m - 1] && SentAt(w.rc, rounds, k, ks, m - 2);
        RecordOrder(w.rc, k + m - 1, at);
      }
      if at > k + m {
        NotSkipped(w, blocks, ks, r, maxReturn, rounds, k, m, at);
      }
    }
  }

  lemma NotSkipped(w: World, blocks: map<U64, Block>, ks: nat, r: ReplicationRequest, maxReturn: U64, rounds: seq<U64>, k: nat, m: nat, at: nat)
    requires Increasing(w.rc) && Stored(w, blocks, ks) && IsReply(blocks, r, maxReturn, rounds)
    requires 1 <= m <= |rounds| && k + m < at <= ks + 1 && at < |w.rc.records| && r.begin == RecordRound(w.rc, k) + 1
    requires forall i: nat {:trigger SentAt(w.rc, rounds, k, ks, i)} :: i < m - 1 ==> SentAt(w.rc, rounds, k, ks, i)
    requires rounds[m - 1] == RecordRound(w.rc, at)
    ensures false
  {
    var skipped := RecordRound(w.rc, k + m);
    assert Holds(w, blocks, k + m);
    assert RecordRound(w.rc, k) < skipped < RecordRound(w.rc, at);
    assert rounds[m - 1] <= rounds[|rounds| - 1];
    assert skipped in rounds;
    var i :| 0 <= i < |rounds| && rounds[i] == skipped;
    assert i < m - 1;
    assert SentAt(w.rc, rounds, k, ks, i);
    assert RecordRound(w.rc, k + 1 + i) < RecordRound(w.rc, k + m);
  }

  /** The blocks of a reply to a node at record k are those of the records after k, without a gap. */
  lemma ReplyFollows(w: World, s: NodeState, ks: nat, r: ReplicationRequest, maxReturn: U64, rounds: seq<U64>, k: nat)
    requires Increasing(w.rc) && Inv(w, s, ks) && IsReply(s.blocks, r, maxReturn, rounds)
    requires k < ks && r.begin == RecordRound(w.rc, k) + 1
    ensures rounds != [] && rounds[0] == RecordRound(w.rc, k + 1)
    ensures Follows(w, BlocksAt(s.blocks, rounds), k)
  {
    assert Holds(w, s.blocks, ks);
    assert RecordRound(w.rc, k) < RecordRound(w.rc, ks);
    assert rounds != [];
    ReplyStep(w, s.blocks, ks, r, maxReturn, rounds, k, |rounds|);
    assert SentAt(w.rc, rounds, k, ks, 0);
    forall i | 0 <= i < |rounds|
      ensures Certifies(w, BlocksAt(s.blocks, rounds)[i], k + 1 + i)
    {
      assert rounds[i] in s.blocks && SentAt(w.rc, rounds, k, ks, i);
      assert Holds(w, s.blocks, k + 1 + i);
    }
    FollowsPointwise(w, BlocksAt(s.blocks, rounds), k);
  }

  /** Distance of the committed block from the latest certificate. */
  function Gap(n: NodeState): int {
    RoundOf(n.luc) - CommittedRound(n)
  }

  /** The server takes the request into its queue, or has it there. */
  ghost predicate Accepted(q: Params, s: NodeState, r: ReplicationRequest) {
    RequestStatus(q, s, r) == Some(Ok) || r in s.queue
  }

  /** One request, its acceptance and reply by an honest server, and the application of the reply. */
  ghost predicate Exchange(w: World, p: Params, n: NodeState, m: NodeState, q: Params, s: NodeState, maxReturn: U64, rounds: seq<U64>,
                           envs: seq<Env>, env: Env, retry: Env)
  {
   && p.lib == w.lib && Healthy(n) && n.status.Recovering?
   && NodeOk(w, s) && Accepted(q, s, NextRequest(p, n))
   && IsReply(s.blocks, NextRequest(p, n), maxReturn, rounds)
   && AllFavourable(w, n.tx.dFG, n.tx.committedHash, BlocksAt(s.blocks, rounds), envs)
   && rounds != []
   && m == HandleReplicationResponse(p, n, Reply(s.blocks, rounds), envs, env, retry)
  }

  /** The headers of the reply form a chain from the client's committed block. */
  ghost predicate ReplyLinks(n: NodeState, s: NodeState, rounds: seq<U64>)
    requires forall i :: 0 <= i < |rounds| ==> rounds[i] in s.blocks
  {
    HeaderChain(BlockHashOf(n.tx.committedUC), BlocksAt(s.blocks, rounds))
  }

  /** The response that carries these blocks. */
  ghost function Reply(blocks: map<U64, Block>, rounds: seq<U64>): ReplicationResponse
    requires rounds != [] && forall i :: 0 <= i < |rounds| ==> rounds[i] in blocks
  {
    ReplicationResponse(Ok, Some(BlocksAt(blocks, rounds)), rounds[0], rounds[|rounds| - 1])
  }

  /** Some exchange with this server, with blocks that link, leads from n to m. */
  ghost predicate ExchangeWith(w: World, p: Params, n: NodeState, m: NodeState, s: NodeState) {
    exists q, maxReturn, rounds, envs, env, retry ::
      Exchange(w, p, n, m, q, s, maxReturn, rounds, envs, env, retry) && ReplyLinks(n, s, rounds)
  }

  /** The blocks of the reply are applied; a gap to the latest round shrinks, and no gap stays closed. */
  ghost predicate Narrows(n: NodeState, applied: NodeState) {
    CommittedRound(n) < CommittedRound(applied) && if Gap(n) == 0 then Gap(applied) == 0 else Gap(applied) < Gap(n)
  }

  lemma ReplyApplicable(w: World, p: Params, n: NodeState, k: nat, m: NodeState, q: Params, s: NodeState, maxReturn: U64, rounds: seq<U64>,
                        envs: seq<Env>, env: Env, retry: Env)
    requires Increasing(w.rc) && Inv(w, n, k) && Exchange(w, p, n, m, q, s, maxReturn, rounds, envs, env, retry)
    ensures var blocks := BlocksAt(s.blocks, rounds);
           && Applicable(w, p, n, k, n.tx.dFG, n.tx.committedHash, blocks, envs, ApplyBlocks(p, n, blocks, envs), k + |blocks|, blocks[|blocks| - 1].cert)
           && CommittedRound(n) < rounds[0]
  {
    var ks: nat :| Inv(w, s, ks);
    ServerIsAhead(w, p, n, k, q, s, ks);
    ReplyFollows(w, s, ks, NextRequest(p, n), maxReturn, rounds, k);
    RecordOrder(w.rc, k, k + 1);
  }

  /** An exchange with blocks that link narrows the gap, and ends recovery exactly when nothing is missing any more. */
  lemma ExchangeProgress(w: World, p: Params, n: NodeState, k: nat, m: NodeState, q: Params, s: NodeState, maxReturn: U64, rounds: seq<U64>,
                         envs: seq<Env>, env: Env, retry: Env)
    returns (k': nat)
    requires Trust(w) && Complete(w.lib, w.rc) && Inv(w, n, k)
    requires Exchange(w, p, n, m, q, s, maxReturn, rounds, envs, env, retry) && ReplyLinks(n, s, rounds)
    ensures var applied := ApplyBlocks(p, n, BlocksAt(s.blocks, rounds), envs).node;
           && k < k' && Inv(w, applied, k') && Narrows(n, applied)
           && m == if RecoveryComplete(applied) then FinishRecovery(p, applied, env, retry) else applied
    ensures n.lastProposal.None? ==>
             && Inv(w, m, k') && RecoveryPhase(m) && Narrows(n, m) && m.lastProposal.None?
             && m.blocks == ApplyBlocks(p, n, BlocksAt(s.blocks, rounds), envs).node.blocks
  {
    var blocks := BlocksAt(s.blocks, rounds);
    ReplyApplicable(w, p, n, k, m, q, s, maxReturn, rounds, envs, env, retry);
    k' := k + |blocks|;
    var applied, last := ApplyBlocks(p, n, blocks, envs), blocks[|blocks| - 1].cert;
    FollowingBlocksApplyIff(w, p, n, k, n.tx.dFG, n.tx.committedHash, blocks, envs, applied, k', last);
    RecoveryAfterBlocks(w, p, n, k, applied, k', last, env, retry);
    ResponseApplied(p, n, Reply(s.blocks, rounds), envs, env, retry, applied);
  }

  /**
   An exchange moves the client on if and only if the first block of the reply points to its committed
   block, and applies the whole reply if and only if all of them link. Where the server committed a block
   that does not link, the client stays recovering with the ledger it has.
   */
  lemma ExchangeAdvancesIff(w: World, p: Params, n: NodeState, k: nat, m: NodeState, q: Params, s: NodeState, maxReturn: U64, rounds: seq<U64>,
                            envs: seq<Env>, env: Env, retry: Env)
    requires Trust(w) && Complete(w.lib, w.rc) && Inv(w, n, k)
    requires Exchange(w, p, n, m, q, s, maxReturn, rounds, envs, env, retry)
    ensures var applied := ApplyBlocks(p, n, BlocksAt(s.blocks, rounds), envs);
            var links := SameBytes(s.blocks[rounds[0]].header.previousBlockHash, BlockHashOf(n.tx.committedUC));
           && (applied.ok <==> ReplyLinks(n, s, rounds))
           && (CommittedRound(n) < CommittedRound(applied.node) <==> links)
           && (!links ==> m.status.Recovering? && m.blocks == n.blocks && m.tx == n.tx)
  {
    var blocks := BlocksAt(s.blocks, rounds);
    ReplyApplicable(w, p, n, k, m, q, s, maxReturn, rounds, envs, env, retry);
    var o := ApplyBlocks(p, n, blocks, envs);
    FollowingBlocksApplyIff(w, p, n, k, n.tx.dFG, n.tx.committedHash, blocks, envs, o, k + |blocks|, blocks[|blocks| - 1].cert);
    FirstBlockDecides(w, p, n, k, n.tx.dFG, n.tx.committedHash, blocks, envs, o, k + |blocks|, blocks[|blocks| - 1].cert);
    if !o.ok {
      ResponseStopped(p, n, Reply(s.blocks, rounds), envs, env, retry, o);
    }
  }

  lemma FirstBlockDecides(w: World, p: Params, n: NodeState, k: nat, dFG: U64, previous: Slice, blocks: seq<Block>, envs: seq<Env>,
                          o: Outcome, k': nat, last: Option<Certificate>)
    requires Trust(w) && Complete(w.lib, w.rc) && p.lib == w.lib
    requires Applicable(w, p, n, k, dFG, previous, blocks, envs, o, k', last)
    ensures if SameBytes(blocks[0].header.previousBlockHash, BlockHashOf(n.tx.committedUC))
            then CommittedRound(n) < CommittedRound(o.node) else Refused(n, o)
  {
    var first := FirstBlockApplies(w, p, n, k, dFG, previous, blocks, envs, o, k', last);
    if first.ok {
      var rest, restEnvs, hash := blocks[1..], envs[1..], blocks[0].cert.value.ir.hash;
      var j := RestKeeps(w, p, first.node, k + 1, dFG, hash, rest, restEnvs, o, k', last);
      LaterRecord(w, n, k, o.node, j);
    }
  }

  lemma {:induction false} FavourableEnvs(w: World, dFG: U64, previous: Slice, blocks: seq<Block>, envs: seq<Env>)
    requires AllFavourable(w, dFG, previous, blocks, envs)
    ensures forall i :: 0 <= i < |envs| ==> EnvOk(w, envs[i])
    decreases |blocks|
  {
    if blocks != [] {
      FavourableEnvs(w, dFG, blocks[0].cert.value.ir.hash, blocks[1..], envs[1..]);
      assert envs == [envs[0]] + envs[1..];
    }
  }

  lemma RestKeeps(w: World, p: Params, n: NodeState, k: nat, dFG: U64, previous: Slice, blocks: seq<Block>, envs: seq<Env>,
                  o: Outcome, k': nat, last: Option<Certificate>)
    returns (j: nat)
    requires Trust(w) && p.lib == w.lib && Inv(w, n, k)
    requires if blocks == [] then o.node == n else Applicable(w, p, n, k, dFG, previous, blocks, envs, o, k', last)
    ensures k <= j && Inv(w, o.node, j)
  {
    if blocks == [] {
      j := k;
    } else {
      FavourableEnvs(w, dFG, previous, blocks, envs);
      j := ApplyBlocksKeeps(w, p, n, k, blocks, envs);
    }
  }

  lemma LaterRecord(w: World, n: NodeState, k: nat, m: NodeState, j: nat)
    requires Increasing(w.rc) && Inv(w, n, k) && Inv(w, m, j) && k < j
    ensures CommittedRound(n) < CommittedRound(m)
  {
    assert CommittedRound(n) == RecordRound(w.rc, k) && CommittedRound(m) == RecordRound(w.rc, j);
  }

  lemma ResponseStopped(p: Params, n: NodeState, resp: ReplicationResponse, envs: seq<Env>, env: Env, retry: Env, applied: Outcome)
    requires Healthy(n) && n.status.Recovering? && resp.status.Ok? && resp.blocks.Some? && |envs| == |resp.blocks.value|
    requires CommittedRound(n) < resp.first && applied == ApplyBlocks(p, n, resp.blocks.value, envs) && !applied.ok
    ensures HandleReplicationResponse(p, n, resp, envs, env, retry) == applied.node
  {
  }

  /** What a response comes to once its blocks are applied. */
  lemma ResponseApplied(p: Params, n: NodeState, resp: ReplicationResponse, envs: seq<Env>, env: Env, retry: Env, applied: Outcome)
    requires Healthy(n) && n.status.Recovering? && resp.status.Ok? && resp.blocks.Some? && |envs| == |resp.blocks.value|
    requires CommittedRound(n) < resp.first && applied == ApplyBlocks(p, n, resp.blocks.value, envs) && applied.ok
    ensures HandleReplicationResponse(p, n, resp, envs, env, retry)
            == if RecoveryComplete(applied.node) then FinishRecovery(p, applied.node, env, retry) else applied.node
  {
  }

  /** A server that accepts the request has committed more than the client. */
  lemma ServerIsAhead(w: World, p: Params, n: NodeState, k: nat, q: Params, s: NodeState, ks: nat)
    requires Increasing(w.rc) && Inv(w, n, k) && Inv(w, s, ks) && Accepted(q, s, NextRequest(p, n))
    ensures k < ks && CommittedRound(n) == RecordRound(w.rc, k) && NextRequest(p, n).begin == CommittedRound(n) + 1
  {
    assert CommittedRound(n) == RecordRound(w.rc, k) && CommittedRound(s) == RecordRound(w.rc, ks);
    RecordOrder(w.rc, k, ks);
  }

  // ---- which servers send blocks that link ----

  ghost predicate PointsTo(link: Slice, blocks: seq<Block>, i: nat)
    requires i < |blocks|
  {
    SameBytes(blocks[i].header.previousBlockHash, if i == 0 then link else BlockHashOf(blocks[i - 1].cert))
  }

  lemma {:induction false} ChainPointwise(link: Slice, blocks: seq<Block>)
    requires forall i: nat :: i < |blocks| ==> PointsTo(link, blocks, i)
    ensures HeaderChain(link, blocks)
    decreases |blocks|
  {
    if blocks != [] {
      assert PointsTo(link, blocks, 0);
      forall i: nat | i < |blocks| - 1
        ensures PointsTo(BlockHashOf(blocks[0].cert), blocks[1..], i)
      {
        assert PointsTo(link, blocks, i + 1);
      }
      ChainPointwise(BlockHashOf(blocks[0].cert), blocks[1..]);
    }
  }

  /** A server whose stored blocks link sends blocks that link, to every client. */
  lemma LinkedServer(w: World, p: Params, n: NodeState, k: nat, q: Params, s: NodeState, ks: nat, maxReturn: U64, rounds: seq<U64>)
    requires Increasing(w.rc) && Inv(w, n, k) && Inv(w, s, ks) && Accepted(q, s, NextRequest(p, n))
    requires IsReply(s.blocks, NextRequest(p, n), maxReturn, rounds) && HeadersLink(s) && LeftoverLinks(s)
    ensures ReplyLinks(n, s, rounds)
  {
    ServerIsAhead(w, p, n, k, q, s, ks);
    ReplyStep(w, s.blocks, ks, NextRequest(p, n), maxReturn, rounds, k, |rounds|);
    forall i: nat | i < |rounds|
      ensures PointsTo(BlockHashOf(n.tx.committedUC), BlocksAt(s.blocks, rounds), i)
    {
      assert SentAt(w.rc, rounds, k, ks, i);
      assert i > 0 ==> SentAt(w.rc, rounds, k, ks, i - 1);
      SentBlockLinks(w, n, k, s, ks, rounds, i);
    }
    ChainPointwise(BlockHashOf(n.tx.committedUC), BlocksAt(s.blocks, rounds));
  }

  lemma SentBlockLinks(w: World, n: NodeState, k: nat, s: NodeState, ks: nat, rounds: seq<U64>, i: nat)
    requires Increasing(w.rc) && Inv(w, n, k) && Inv(w, s, ks) && HeadersLink(s) && LeftoverLinks(s)
    requires (forall j :: 0 <= j < |rounds| ==> rounds[j] in s.blocks) && i < |rounds|
    requires SentAt(w.rc, rounds, k, ks, i) && (i > 0 ==> SentAt(w.rc, rounds, k, ks, i - 1))
    ensures PointsTo(BlockHashOf(n.tx.committedUC), BlocksAt(s.blocks, rounds), i)
  {
    StoredBlockLinks(w, s, ks, k + 1 + i);
    if i > 0 {
      assert Holds(w, s.blocks, k + i);
    }
  }

  lemma StoredBlockLinks(w: World, s: NodeState, ks: nat, i: nat)
    requires Increasing(w.rc) && Inv(w, s, ks) && HeadersLink(s) && LeftoverLinks(s) && 1 <= i <= ks + 1 && i < |w.rc.records|
    ensures BlockLinks(w.rc, s.blocks, i)
  {
    HeadersAreRecords(w, s, ks);
    if i == ks + 1 && RecordRound(w.rc, i) in s.blocks {
      var last := LastBlock(w, s.blocks, ks);
      RecordOrder(w.rc, last, i);
      RecordOrder(w.rc, ks, i);
    }
  }

  lemma RecoveryAfterBlocks(w: World, p: Params, n: NodeState, k: nat, applied: Outcome, k': nat, cert: Option<Certificate>, env: Env, retry: Env)
    requires Increasing(w.rc) && Inv(w, n, k) && k < k' && Reached(w, n, applied, k', cert)
    ensures Narrows(n, applied.node)
    ensures n.lastProposal.None? ==>
            var m := if RecoveryComplete(applied.node) then FinishRecovery(p, applied.node, env, retry) else applied.node;
            Inv(w, m, k') && RecoveryPhase(m) && Narrows(n, m) && m.lastProposal.None? && m.blocks == applied.node.blocks
  {
    assert CommittedRound(n) == RecordRound(w.rc, k) < RecordRound(w.rc, k') == CommittedRound(applied.node);
    SetStatusKeeps(w, applied.node, k', Normal);
    StartNewRoundKeeps(w, applied.node.(status := Normal), k', env);
  }

  /** Recovering with blocks missing, or back in normal operation with none missing. */
  ghost predicate RecoveryPhase(n: NodeState) {
    n.status == if RecoveryComplete(n) then Normal else Recovering
  }

  /** The server has nothing newer and says so, with any status other than Ok. */
  ghost predicate Refusal(p: Params, n: NodeState, m: NodeState) {
    exists resp: ReplicationResponse, envs: seq<Env>, env, retry ::
     && Healthy(n) && !resp.status.Ok? && (resp.blocks.Some? ==> |envs| == |resp.blocks.value|)
     && m == HandleReplicationResponse(p, n, resp, envs, env, retry)
  }

  /** A node that is still recovering with nothing missing is back in normal operation after the next answer, be it a refusal or more blocks. */
  lemma ClosedGapEndsRecovery(w: World, p: Params, n: NodeState, k: nat, m: NodeState, s: NodeState) returns (k': nat)
    requires Trust(w) && Complete(w.lib, w.rc) && Inv(w, n, k) && n.status.Recovering? && RecoveryComplete(n) && n.lastProposal.None?
    requires ExchangeWith(w, p, n, m, s) || Refusal(p, n, m)
    ensures Inv(w, m, k') && m.status.Normal? && RecoveryComplete(m) && m.lastProposal.None?
  {
    if ExchangeWith(w, p, n, m, s) {
      var q, maxReturn, rounds, envs, env, retry :| Exchange(w, p, n, m, q, s, maxReturn, rounds, envs, env, retry) && ReplyLinks(n, s, rounds);
      k' := ExchangeProgress(w, p, n, k, m, q, s, maxReturn, rounds, envs, env, retry);
    } else {
      k' := k;
      SetStatusKeeps(w, n, k, Normal);
    }
  }

  /** The node gets an honest answer, or has nothing left to recover and stays as it is. */
  ghost predicate RecoveryStep(w: World, p: Params, n: NodeState, m: NodeState) {
    if n.status.Recovering?
    then (exists s :: ExchangeWith(w, p, n, m, s)) || (RecoveryComplete(n) && Refusal(p, n, m))
    else m == n
  }

  ghost predicate Recovers(w: World, p: Params, states: seq<NodeState>) {
    |states| > 1 ==> RecoveryStep(w, p, states[0], states[1]) && Recovers(w, p, states[1..])
  }

  /** How many answers are enough. */
  function Needed(n: NodeState): int {
    if !n.status.Recovering? then 0 else if RecoveryComplete(n) then 1 else Gap(n)
  }

  /** The node is recovering, or has recovered everything. */
  ghost predicate Underway(n: NodeState) {
    n.lastProposal.None? && (n.status.Recovering? || (n.status.Normal? && RecoveryComplete(n)))
  }

  lemma RecoveryStepProgress(w: World, p: Params, n: NodeState, m: NodeState, k: nat) returns (k': nat)
    requires Trust(w) && Complete(w.lib, w.rc) && Inv(w, n, k) && Underway(n) && RecoveryStep(w, p, n, m)
    ensures Inv(w, m, k') && Underway(m)
    ensures if n.status.Recovering? then Needed(m) < Needed(n) else m == n
  {
    k' := k;
    if n.status.Recovering? && RecoveryComplete(n) {
      if Refusal(p, n, m) {
        k' := ClosedGapEndsRecovery(w, p, n, k, m, n);
      } else {
        var s :| ExchangeWith(w, p, n, m, s);
        k' := ClosedGapEndsRecovery(w, p, n, k, m, s);
      }
    } else if n.status.Recovering? {
      var s :| ExchangeWith(w, p, n, m, s);
      var q, maxReturn, rounds, envs, env, retry :| Exchange(w, p, n, m, q, s, maxReturn, rounds, envs, env, retry) && ReplyLinks(n, s, rounds);
      k' := ExchangeProgress(w, p, n, k, m, q, s, maxReturn, rounds, envs, env, retry);
    }
  }

  /** Recovery ends after at most as many answers as the gap is wide, in normal operation with committed round equal to latest round. */
  lemma {:induction false} RecoveryEnds(w: World, p: Params, states: seq<NodeState>, k: nat)
    requires Trust(w) && Complete(w.lib, w.rc) && states != [] && Recovers(w, p, states)
    requires Inv(w, states[0], k) && Underway(states[0]) && |states| > Needed(states[0])
    ensures states[|states| - 1].status.Normal? && RecoveryComplete(states[|states| - 1])
    decreases |states|
  {
    if |states| > 1 {
      var k' := RecoveryStepProgress(w, p, states[0], states[1], k);
      RecoveryEnds(w, p, states[1..], k');
    }
  }

  // ---- recovery among other events ----

  /** The event is the response of an exchange with blocks that link. */
  ghost predicate HonestAnswer(w: World, p: Params, n: NodeState, e: Event)
    requires ParamsOk(p) && Healthy(n) && EventOk(e)
  {
    e.OnResponse? && exists q, s, maxReturn, rounds ::
      && Exchange(w, p, n, Step(p, n, e), q, s, maxReturn, rounds, e.envs, e.env, e.retry)
      && ReplyLinks(n, s, rounds) && e.resp == Reply(s.blocks, rounds)
  }

  ghost function HonestAnswers(w: World, p: Params, n: NodeState, events: seq<Event>): nat
    requires ParamsOk(p) && Healthy(n) && PermittedRun(w, p, n, events)
    decreases |events|
  {
    if events == [] then 0
    else (if HonestAnswer(w, p, n, events[0]) then 1 else 0) + HonestAnswers(w, p, Step(p, n, events[0]), events[1..])
  }

  ghost predicate StaysRecovering(w: World, p: Params, n: NodeState, events: seq<Event>)
    requires ParamsOk(p) && Healthy(n) && PermittedRun(w, p, n, events)
    decreases |events|
  {
    n.status.Recovering? && (events == [] || StaysRecovering(w, p, Step(p, n, events[0]), events[1..]))
  }

  lemma AnswerAdvances(w: World, p: Params, n: NodeState, k: nat, e: Event) returns (k': nat)
    requires Trust(w) && Complete(w.lib, w.rc) && ParamsOk(p) && Inv(w, n, k) && Permitted(w, n, e) && HonestAnswer(w, p, n, e)
    ensures k < k' && Inv(w, Step(p, n, e), k')
  {
    var m := Step(p, n, e);
    var q, s, maxReturn, rounds :|
      && Exchange(w, p, n, m, q, s, maxReturn, rounds, e.envs, e.env, e.retry)
      && ReplyLinks(n, s, rounds) && e.resp == Reply(s.blocks, rounds);
    k' := ExchangeProgress(w, p, n, k, m, q, s, maxReturn, rounds, e.envs, e.env, e.retry);
    var applied := ApplyBlocks(p, n, BlocksAt(s.blocks, rounds), e.envs).node;
    if RecoveryComplete(applied) {
      k' := FinishRecoveryKeeps(w, p, applied, k', e.env, e.retry);
    }
  }

  /**
   Whatever else arrives, certificates, proposals, stale or forged responses, a node can be recovering
   over a run only for fewer honest answers than there are records it has not committed.
   */
  lemma {:induction false} RecoveryCannotLast(w: World, p: Params, n: NodeState, k: nat, events: seq<Event>)
    requires Trust(w) && Complete(w.lib, w.rc) && ParamsOk(p) && p.lib == w.lib && Inv(w, n, k)
    requires PermittedRun(w, p, n, events) && StaysRecovering(w, p, n, events)
    ensures k + HonestAnswers(w, p, n, events) < |w.rc.records|
    decreases |events|
  {
    if events != [] {
      var k';
      if HonestAnswer(w, p, n, events[0]) {
        k' := AnswerAdvances(w, p, n, k, events[0]);
      } else {
        k' := StepKeeps(w, p, n, k, events[0]);
      }
      RecoveryCannotLast(w, p, Step(p, n, events[0]), k', events[1..]);
    }
  }

  // ---- requests ----

  /** A recovering node asks in its own name for the blocks of its shard from the one after the committed on; begin and end wrap. */
  lemma RequestAsks(p: Params, n: NodeState)
    ensures var r, begin := NextRequest(p, n), (CommittedRound(n) + 1) % U64_LIMIT;
            && r.partition == p.partition && r.shard == p.shard && r.node == p.id
            && r.begin == begin && r.end == (begin + p.maxFetch) % U64_LIMIT
  {
  }

  /**
   What a server answers to the request of a recovering node. It is accepted exactly when the client's
   committed round lies between the first certificate and the committed one of the server, there is room in
   the queue, and the end of the request did not wrap around.
   */
  lemma RequestAcceptedIff(p: Params, n: NodeState, q: Params, s: NodeState)
    requires p.id != NO_PEER && q.partition == p.partition != 0 && q.shard == p.shard
    ensures var status, round := RequestStatus(q, s, NextRequest(p, n)), CommittedRound(n);
            var has := RoundOf(s.fuc) <= round < CommittedRound(s);
            var wraps := round + 1 < U64_LIMIT < round + 1 + p.maxFetch;
            && (status == None <==> wraps)
            && (status == Some(Ok) <==> has && !wraps && |s.queue| < q.queueCapacity)
            && (status == Some(Busy) <==> has && !wraps && |s.queue| >= q.queueCapacity)
            && (status == Some(BlocksNotFound) <==> !has && !wraps)
  {
  }

  /** A server that has just restarted has every block it had, and refuses every valid request for one. */
  lemma RestartedServerRefuses(q: Params, s: NodeState, env: Env, r: ReplicationRequest)
    requires ParamsOk(q) && InitState(q, s.blocks, s.stored, env).Some?
    requires RequestValid(r) && r.partition == q.partition && r.shard == q.shard
    ensures var m := InitState(q, s.blocks, s.stored, env).value;
            m.blocks == s.blocks && RequestStatus(q, m, r) == Some(BlocksNotFound)
  {
  }

  /**
   Until it is restarted again, a server refuses the request for every block it had when it restarted,
   whatever it does in between and although it keeps all of them.
   */
  lemma {:induction false} RestartedServerKeepsRefusing(q: Params, s: NodeState, events: seq<Event>, r: ReplicationRequest)
    requires ParamsOk(q) && Healthy(s) && forall i :: 0 <= i < |events| ==> EventOk(events[i]) && !events[i].OnRestart?
    requires RequestValid(r) && r.partition == q.partition && r.shard == q.shard && r.begin <= RoundOf(s.fuc)
    ensures RequestStatus(q, Run(q, s, events), r) == Some(BlocksNotFound)
    decreases |events|
  {
    if events != [] {
      StepSteady(q, s, events[0]);
      RestartedServerKeepsRefusing(q, Step(q, s, events[0]), events[1..], r);
    }
  }

  // ---- recovery refines live finalization ----

  /** The ledger of b is that of a plus the block of the certificate that b has committed. */
  ghost predicate AddsBlock(a: NodeState, b: NodeState, uc: Certificate) {
   && b.tx.committedUC == Some(uc)
   && uc.ir.round in b.blocks
   && b.blocks == a.blocks[uc.ir.round := b.blocks[uc.ir.round]]
  }

  /** When a certificate makes a node commit, the ledger changes by exactly the block of that certificate. */
  lemma CommitAddsBlock(p: Params, n: NodeState, uc: Certificate, tr: Option<TechnicalRecord>, env: Env)
    ensures var o := HandleCertificate(p, n, uc, tr, env).node;
            o.tx.committedUC == n.tx.committedUC || AddsBlock(n, o, uc)
  {
    CertificateChanges(p, n, uc, tr, env);
  }

  /**
   A node that applies a block through replication ends with the same committed certificate, state
   hash and stored blocks as the node that finalized that round from its own pending proposal, unless that
   was a proposal a restart took up without a link; such a block is refused.
   */
  lemma RecoveryRefinesLive(w: World, p: Params, n: NodeState, k: nat, uc: Certificate, tr: Option<TechnicalRecord>, env: Env,
                            live: NodeState, q: Params, r: NodeState, env': Env)
    requires Trust(w) && Complete(w.lib, w.rc) && p.lib == q.lib == w.lib
    requires Inv(w, n, k) && Attached(w.lib, uc, tr) && EnvOk(w, env)
    requires live == HandleCertificate(p, n, uc, tr, env).node && live.tx.committedUC != n.tx.committedUC
    requires Inv(w, r, k) && r.status.Recovering? && EnvOk(w, env')
    requires r.tx.committedUC == n.tx.committedUC && r.blocks == n.blocks
    requires uc.ir.round in live.blocks && Favourable(r.tx.dFG, r.tx.committedHash, live.blocks[uc.ir.round], env')
    ensures var recovered := HandleBlock(q, r, live.blocks[uc.ir.round], env');
            if Stale(n) then Refused(r, recovered) else recovered.ok && SameLedger(recovered.node, live)
  {
    CommitAddsBlock(p, n, uc, tr, env);
    var k' := HandleCertificateKeeps(w, p, n, k, uc, tr, env);
    var j := CertificateLinks(w, p, n, k, uc, tr, env);
    OnePlace(w.rc, live.tx.committedUC, k', j);
    CertificateChanges(p, n, uc, tr, env);
    RecoverWhatWasAdded(w, n, k, uc, live, q, r, env');
  }

  ghost predicate SameLedger(a: NodeState, b: NodeState) {
    a.tx.committedUC == b.tx.committedUC && SameBytes(a.tx.committedHash, b.tx.committedHash) && a.blocks == b.blocks
  }

  lemma RecoverWhatWasAdded(w: World, n: NodeState, k: nat, uc: Certificate, live: NodeState, q: Params, r: NodeState, env: Env)
    requires Trust(w) && Complete(w.lib, w.rc) && q.lib == w.lib
    requires Inv(w, live, k + 1) && AddsBlock(n, live, uc)
    requires Inv(w, r, k) && r.status.Recovering? && EnvOk(w, env) && r.blocks == n.blocks
    requires Favourable(r.tx.dFG, r.tx.committedHash, live.blocks[uc.ir.round], env)
    ensures var recovered := HandleBlock(q, r, live.blocks[uc.ir.round], env);
            if BlockLinks(w.rc, live.blocks, k + 1) then recovered.ok && SameLedger(recovered.node, live) else Refused(r, recovered)
  {
    assert Holds(w, live.blocks, k + 1);
    assert RecordRound(w.rc, k + 1) == uc.ir.round;
    NextBlockAppliesIff(w, q, r, k, live.blocks[uc.ir.round], env);
  }

  // ---- the recovered ledger ----

  /** Every block of a is the block b has for that round. */
  ghost predicate CopyOf(a: map<U64, Block>, b: map<U64, Block>) {
    forall r :: r in a ==> r in b && a[r] == b[r]
  }

  ghost predicate TakenFrom(blocks: seq<Block>, source: map<U64, Block>) {
    forall b :: b in blocks && b.cert.Some? ==> b.cert.value.ir.round in source && source[b.cert.value.ir.round] == b
  }

  /** Applying blocks of a source leaves a copy of the source a copy, whatever goes wrong on the way. */
  lemma {:induction false} ApplyingCopies(p: Params, n: NodeState, blocks: seq<Block>, envs: seq<Env>, source: map<U64, Block>)
    requires |envs| == |blocks| && CopyOf(n.blocks, source) && TakenFrom(blocks, source)
    ensures CopyOf(ApplyBlocks(p, n, blocks, envs).node.blocks, source)
    decreases |blocks|
  {
    if blocks != [] {
      assert blocks[0] in blocks;
      var first := HandleBlock(p, n, blocks[0], envs[0]);
      BlockIsCopied(p, n, blocks[0], envs[0]);
      if first.ok {
        assert forall b :: b in blocks[1..] ==> b in blocks;
        ApplyingCopies(p, first.node, blocks[1..], envs[1..], source);
      }
    }
  }

  lemma BlockIsCopied(p: Params, n: NodeState, b: Block, env: Env)
    ensures var after := HandleBlock(p, n, b, env).node.blocks;
            || after == n.blocks
            || (b.cert.Some? && (after == n.blocks[b.cert.value.ir.round := b] || after == n.blocks - {b.cert.value.ir.round}))
  {
    if BlockValid(p.lib, b) {
      AppliedIsCopied(p, UpdateLUC(p, n, b.cert.value, None).node, b, env);
    }
  }

  lemma AppliedIsCopied(p: Params, n: NodeState, b: Block, env: Env)
    requires b.cert.Some?
    ensures var after := ApplyVerified(p, n, b, b.cert.value, env).node.blocks;
            after == n.blocks || after == n.blocks[b.cert.value.ir.round := b] || after == n.blocks - {b.cert.value.ir.round}
  {
  }

  /** A recovered copy that has reached the server's record is the server's ledger. */
  lemma RecoveredLedgerIsEqual(w: World, n: NodeState, s: NodeState, k: nat)
    requires Increasing(w.rc) && w.exact && Inv(w, n, k) && Inv(w, s, k) && CopyOf(n.blocks, s.blocks)
    ensures n.blocks == s.blocks && n.tx.committedUC == s.tx.committedUC && SameBytes(n.tx.committedHash, s.tx.committedHash)
  {
    forall r | r in s.blocks
      ensures r in n.blocks
    {
      var i := RoundsAreRecords(w.rc, k, r);
      assert i <= k;
      assert Holds(w, n.blocks, i);
    }
    assert k >= 1 ==> CommittedRound(n) == CommittedRound(s) == RecordRound(w.rc, k);
  }

  /** Each state is reached from the one before by an exchange with this server. */
  ghost predicate Exchanges(w: World, p: Params, states: seq<NodeState>, s: NodeState) {
    |states| > 1 ==> ExchangeWith(w, p, states[0], states[1], s) && Exchanges(w, p, states[1..], s)
  }

  lemma ReplyIsTaken(w: World, s: NodeState, ks: nat, rounds: seq<U64>)
    requires Increasing(w.rc) && Inv(w, s, ks) && forall i :: 0 <= i < |rounds| ==> rounds[i] in s.blocks
    ensures TakenFrom(BlocksAt(s.blocks, rounds), s.blocks)
  {
    forall i | 0 <= i < |rounds|
      ensures var b := s.blocks[rounds[i]]; b.cert.Some? && b.cert.value.ir.round == rounds[i]
    {
      var at := RoundsAreRecords(w.rc, ks, rounds[i]);
      assert Holds(w, s.blocks, at);
    }
  }

  /** An exchange leaves a copy of the server's blocks a copy. */
  lemma ExchangeCopies(w: World, p: Params, n: NodeState, k: nat, m: NodeState, s: NodeState) returns (k': nat)
    requires Trust(w) && Complete(w.lib, w.rc) && Inv(w, n, k) && n.lastProposal.None?
    requires ExchangeWith(w, p, n, m, s) && CopyOf(n.blocks, s.blocks)
    ensures Inv(w, m, k') && m.lastProposal.None? && CopyOf(m.blocks, s.blocks)
  {
    var q, maxReturn, rounds, envs, env, retry :| Exchange(w, p, n, m, q, s, maxReturn, rounds, envs, env, retry) && ReplyLinks(n, s, rounds);
    k' := ExchangeProgress(w, p, n, k, m, q, s, maxReturn, rounds, envs, env, retry);
    var ks: nat :| Inv(w, s, ks);
    ReplyCopies(w, p, n, s, ks, rounds, envs);
  }

  lemma ReplyCopies(w: World, p: Params, n: NodeState, s: NodeState, ks: nat, rounds: seq<U64>, envs: seq<Env>)
    requires Increasing(w.rc) && Inv(w, s, ks) && (forall i :: 0 <= i < |rounds| ==> rounds[i] in s.blocks) && |envs| == |rounds|
    requires CopyOf(n.blocks, s.blocks)
    ensures CopyOf(ApplyBlocks(p, n, BlocksAt(s.blocks, rounds), envs).node.blocks, s.blocks)
  {
    ReplyIsTaken(w, s, ks, rounds);
    ApplyingCopies(p, n, BlocksAt(s.blocks, rounds), envs, s.blocks);
  }

  /**
   Recovery refines live finalization over whole recoveries: a node that starts from a copy of part of
   the server's ledger, an empty one for instance, and reaches the server's committed round by
   exchanges has the server's stored blocks, committed certificate and state hash.
   */
  lemma RecoveryRebuildsLedger(w: World, p: Params, states: seq<NodeState>, k: nat, s: NodeState, ks: nat)
    requires Trust(w) && Complete(w.lib, w.rc) && w.exact && states != []
    requires Inv(w, states[0], k) && states[0].lastProposal.None? && CopyOf(states[0].blocks, s.blocks) && Inv(w, s, ks)
    requires Exchanges(w, p, states, s)
    requires CommittedRound(states[|states| - 1]) == CommittedRound(s)
    ensures var n := states[|states| - 1];
            n.blocks == s.blocks && n.tx.committedUC == s.tx.committedUC && SameBytes(n.tx.committedHash, s.tx.committedHash)
  {
    var last, k' := CopiesToTheEnd(w, p, states, k, s);
    SameRound(w, last, k', s, ks);
    RecoveredLedgerIsEqual(w, last, s, k');
  }

  lemma {:induction false} CopiesToTheEnd(w: World, p: Params, states: seq<NodeState>, k: nat, s: NodeState) returns (last: NodeState, k': nat)
    requires Trust(w) && Complete(w.lib, w.rc) && states != []
    requires Inv(w, states[0], k) && states[0].lastProposal.None? && CopyOf(states[0].blocks, s.blocks)
    requires Exchanges(w, p, states, s)
    ensures last == states[|states| - 1] && Inv(w, last, k') && CopyOf(last.blocks, s.blocks)
    decreases |states|
  {
    last, k' := states[0], k;
    if |states| > 1 {
      k' := ExchangeCopies(w, p, states[0], k, states[1], s);
      last, k' := CopiesToTheEnd(w, p, states[1..], k', s);
    }
  }

  lemma SameRound(w: World, n: NodeState, k: nat, s: NodeState, ks: nat)
    requires Increasing(w.rc) && Inv(w, n, k) && Inv(w, s, ks) && CommittedRound(n) == CommittedRound(s)
    ensures k == ks
  {
    assert RecordRound(w.rc, k) == RecordRound(w.rc, ks);
  }
}
