/** Concrete inputs for what the code does not give: a follower led back, and three restarts that go wrong. */
module Examples {
  import opened Types
  import opened PowTypes
  import opened TxModel
  import opened NodeModel
  import opened RootChain
  import Issuer = RootChain
  import opened Safety
  import opened Runs
  import opened Restart
  import Agreement
  import Links
  import opened PowTree
  import opened FinalityRuns
  import Assumptions

  // ---- three PoW blocks in a row ----

  const GENESIS_BLOCK: Hash := [9]
  const LOW_BLOCK: Hash := [1]
  const HIGH_BLOCK: Hash := [2]

  ghost function Row(): (t: Tree)
    ensures PowTree.WellFormed(t)
  {
    Tree(map[GENESIS_BLOCK := Entry([], 0), LOW_BLOCK := Entry(GENESIS_BLOCK, 1), HIGH_BLOCK := Entry(LOW_BLOCK, 2)], GENESIS_BLOCK, HIGH_BLOCK)
  }

  /** All answers a PoW node with this view gives, with these chain tips. */
  ghost function AnswersOf(t: Tree, tips: seq<ChainTip>): PowAnswers
    requires PowTree.WellFormed(t)
  {
    PowAnswers(Some(HeaderOf(t, t.tip)), map h | h in t.blocks :: HeaderOf(t, h),
      map k: U64 | 0 <= k <= t.blocks[t.tip].height :: HeaderOf(t, Ancestor(t, t.tip, k)), Some(tips))
  }

  lemma RowIsActive()
    ensures var t := Row(); OnActive(t, LOW_BLOCK) && OnActive(t, HIGH_BLOCK) && OnActive(t, GENESIS_BLOCK)
  {
    var t := Row();
    assert t.blocks[t.tip].parent == LOW_BLOCK && t.blocks[LOW_BLOCK].parent == GENESIS_BLOCK;
    assert Ancestor(t, LOW_BLOCK, 1) == LOW_BLOCK;
    assert Ancestor(t, HIGH_BLOCK, 1) == LOW_BLOCK;
    assert Ancestor(t, LOW_BLOCK, 0) == Ancestor(t, GENESIS_BLOCK, 0) == GENESIS_BLOCK;
  }

  const ROW_TIPS: seq<ChainTip> := [ChainTip(2, 0, Active)]

  lemma RowReflected()
    ensures Reflects(AnswersOf(Row(), ROW_TIPS), Row())
  {
    var t := Row();
    RowIsActive();
    assert ForkHeight(t, HIGH_BLOCK) == 2;
    assert Describes(t, HIGH_BLOCK, ROW_TIPS[0]);
    forall h | Leaf(t, h)
      ensures exists i :: 0 <= i < |ROW_TIPS| && Describes(t, h, ROW_TIPS[i])
    {
      assert t.blocks[HIGH_BLOCK].parent == LOW_BLOCK && t.blocks[LOW_BLOCK].parent == GENESIS_BLOCK;
      assert h == HIGH_BLOCK;
    }
  }

  function CertificateFor(hash: Hash, round: U64): Certificate {
    Certificate(InputRecord(round, 0, Nil, Bytes(hash), EMPTY, 0, Nil, 0, Nil), Nil, round, 0)
  }

  /** A follower finalizes the block at height 2 and then, just as well, the one at height 1. */
  lemma FollowerLedBack()
    ensures var events := UpAndBack(AnswersOf(Row(), ROW_TIPS), Row(), CertificateFor(HIGH_BLOCK, 1), CertificateFor(LOW_BLOCK, 2));
            && ChainRun(Row(), GenesisState(1), events)
            && Finalized(GenesisState(1), events) == [HIGH_BLOCK, LOW_BLOCK]
            && !Ascending(Row(), Finalized(GenesisState(1), events))
  {
    RowIsActive();
    RowReflected();
    FollowerGoesBack(AnswersOf(Row(), ROW_TIPS), Row(), 1, CertificateFor(HIGH_BLOCK, 1), CertificateFor(LOW_BLOCK, 2));
  }

  // ---- one node, whose first certificate names it the leader ----

  const NAME: PeerID := "A"

  function Technical(): TechnicalRecord {
    TechnicalRecord(1, 0, NAME, Bytes([1]), Bytes([1]))
  }

  function InitialRecord(): InputRecord {
    InputRecord(0, 0, Nil, Nil, EMPTY, 0, Nil, 0, Nil)
  }

  ghost function InitialCertificate(): Certificate {
    Certificate(InitialRecord(), Bytes(Assumptions.Encoded(Technical())), 1, 0)
  }

  ghost function Chain(): RootChain {
    RootChain([InitialRecord()], [InitialCertificate()])
  }

  ghost function Node(): Params {
    Params(Assumptions.LibraryOf(Chain()), NAME, 1, 0, 10, 10, 1, map[0 := ShardConf(0, Some(1))], 0)
  }

  ghost function Response(): CertificationResponse {
    CertificationResponse(1, 0, Some(1), Technical(), InitialCertificate())
  }

  ghost function Fine(): Env {
    Env(AnswersOf(Row(), ROW_TIPS), true, true, true, true, true, true, true, true, true, true, true)
  }

  ghost function ExampleWorld(): World {
    World(Assumptions.LibraryOf(Chain()), Chain(), true, None)
  }

  lemma ExampleIsAdmissible()
    ensures Trust(ExampleWorld()) && ParamsOk(Node()) && FirstCertificate(Node(), Response())
    ensures Node().lib.initial(InitialCertificate()) && Node().lib.successor(InitialCertificate(), None)
  {
    Assumptions.AssumptionsCanBeMet(Chain());
    assert InitialCertificate() in Chain().certs;
  }

  lemma ForgettingIsPermitted(w: World, p: Params, cr: CertificationResponse, env: Env)
    requires ParamsOk(p) && FirstCertificate(p, cr) && EnvOk(w, env)
    ensures PermittedRun(w, p, Genesis(p), [OnCertificate(cr, env), OnRestart(env)])
  {
    FirstCertificateTaken(p, cr, env);
    var n := Step(p, Genesis(p), OnCertificate(cr, env));
    assert Permitted(w, n, OnRestart(env));
    var events := [OnCertificate(cr, env), OnRestart(env)];
    assert events[1..] == [OnRestart(env)] && events[1..][1..] == [];
    assert PermittedRun(w, p, n, events[1..]);
  }

  /** The node gets its first certificate and restarts: a permitted run over which the latest certificate gets older. */
  lemma LatestGetsOlder()
    ensures var events := [OnCertificate(Response(), Fine()), OnRestart(Fine())];
            && Trust(ExampleWorld()) && ParamsOk(Node()) && PermittedRun(ExampleWorld(), Node(), Genesis(Node()), events)
            && !NeverOlder(Node(), Genesis(Node()), events)
  {
    ExampleIsAdmissible();
    ForgettingIsPermitted(ExampleWorld(), Node(), Response(), Fine());
    RestartForgets(Node(), Response(), Fine(), Fine());
  }

  lemma LeaderHasProposal()
    ensures LeaderPropose(GenesisState(1), Fine().pow).Some?
    ensures LeaderPropose(GenesisState(1), Fine().pow).value.pendingHash == Bytes(HIGH_BLOCK)
  {
    RowIsActive();
    RowReflected();
    ReflectsIsTrue(Fine().pow, Row());
    LeaderProposeExact(GenesisState(1), Fine().pow, Row(), 2);
    forall h
      ensures !Competitor(Row(), h, 2)
    {
      assert h in Row().blocks && Row().blocks[h].height == 2 ==> h == HIGH_BLOCK;
    }
  }

  /** The node leads the first round, sends its request and restarts: its committed certificate is none that was issued. */
  lemma RequestTakenForBlock()
    ensures var n := Run(Node(), Genesis(Node()), [OnCertificate(Response(), Fine()), OnT1(Fine()), OnRestart(Fine())]);
            n.tx.committedUC.Some? && !Issued(Chain(), n.tx.committedUC.value)
  {
    ExampleIsAdmissible();
    LeaderHasProposal();
    FirstRequestCommitted(Node(), Response(), Fine(), Fine(), Fine());
  }

  // ---- nine events that leave a ledger whose blocks do not link ----

  const PEER: PeerID := "B"

  function RoundLedBy(round: U64, leader: PeerID): TechnicalRecord {
    TechnicalRecord(round, 0, leader, Bytes([1]), Bytes([1]))
  }

  /** The block hash of the first block, which changes the state. */
  function FirstLink(): Slice {
    Assumptions.HashOf(Nil, Bytes(HIGH_BLOCK), Nil)
  }

  /** Record 1 changes the state, records 2 and 3 do not and have no block hash. */
  function Record(i: nat): InputRecord
    requires i <= 3
  {
    if i == 0 then InitialRecord()
    else if i == 1 then InputRecord(1, 0, Nil, Bytes(HIGH_BLOCK), EMPTY, 0, FirstLink(), 0, Nil)
    else InputRecord(i, 0, Bytes(HIGH_BLOCK), Bytes(HIGH_BLOCK), EMPTY, 0, Nil, 0, Nil)
  }

  /** The certificate of record i comes with the technical record of the round after it. */
  function Next(i: nat): TechnicalRecord
    requires i <= 3
  {
    RoundLedBy(i + 1, if i == 0 then NAME else PEER)
  }

  ghost function Cert(i: nat): Certificate
    requires i <= 3
  {
    Certificate(Record(i), Bytes(Assumptions.Encoded(Next(i))), i + 1, 0)
  }

  ghost function FourRounds(): RootChain {
    RootChain(seq(4, i requires 0 <= i < 4 => Record(i)), seq(4, i requires 0 <= i < 4 => Cert(i)))
  }

  ghost function Member(): Params {
    Params(Assumptions.LibraryOf(FourRounds()), NAME, 1, 0, 10, 10, 1, map[0 := ShardConf(0, Some(1))], 0)
  }

  ghost function FourWorld(): World {
    World(Assumptions.LibraryOf(FourRounds()), FourRounds(), true, None)
  }

  lemma FourIsWellFormed()
    ensures Issuer.WellFormed(FourRounds())
  {
    var rc := FourRounds();
    forall c | c in rc.certs
      ensures c.rootRound >= 1 && c.ir in rc.records
    {
      var i :| 0 <= i < 4 && rc.certs[i] == c;
      assert rc.records[i] == c.ir;
    }
  }

  lemma FourIsLinked()
    ensures Assumptions.Linked(FourRounds()) && Assumptions.HashedLinks(FourRounds())
  {
    var rc := FourRounds();
    forall i: nat | 1 <= i < |rc.records|
      ensures SameBytes(rc.records[i].blockHash, Assumptions.HashOf(LinkHash(rc, i), rc.records[i].hash, rc.records[i].previousHash))
    {
      assert rc.records[i] == Record(i);
    }
  }

  lemma FourIsAdmissible()
    ensures Trust(FourWorld()) && Complete(FourWorld().lib, FourRounds()) && Agreement.CertifiedLinks(FourWorld().lib, FourRounds()) && ParamsOk(Member())
  {
    FourIsWellFormed();
    FourIsLinked();
    Assumptions.AssumptionsCanBeMet(FourRounds());
    Assumptions.LinksCanBeCertified(FourRounds());
  }

  type Four = c: seq<Certificate> | |c| == 4 witness seq(4, _ => Certificate(InitialRecord(), Nil, 0, 0))

  ghost function Message(c: Four, i: nat): CertificationResponse
    requires i <= 3
  {
    CertificationResponse(1, 0, Some(1), Next(i), c[i])
  }

  /** The proposal for round 3 that leaves the state as it is. */
  ghost function NoChange(c: Four): Proposal {
    Proposal(1, 0, PEER, Some(c[2]), Next(2), Bytes(HIGH_BLOCK))
  }

  /** Certificate i is taken after the one before it. */
  ghost predicate Accepts(lib: Library, c: Four, i: nat)
    requires i <= 3
  {
    && c[i].ir == Record(i) && c[i].rootRound == i + 1 && c[i].sealTimestamp == 0
    && ResponseValid(lib, Message(c, i)) && CertificateValid(lib, c[i], 0) && lib.decodePeer(Next(i).leader) == Some(Next(i).leader)
    && (i >= 1 ==> lib.consistent(c[i - 1], c[i]))
    && lib.successor(c[i], if i <= 1 then None else Some(c[i - 1]))
    && (lib.initial(c[i]) <==> i == 0)
  }

  /** Everything goes well, and the PoW node shows the block at height 2. */
  ghost predicate AllWell(env: Env) {
    && env.writeOk && env.deleteOk && env.pendingWriteOk && env.pendingDeleteOk && env.pendingReadOk && env.lastReadOk
    && env.encodeOk && env.sealOk && env.proposalSent && env.requestSent && env.confReadOk
    && LeaderPropose(GenesisState(1), env.pow) == Some(Verified(GenesisState(1)))
    && HIGH_BLOCK in env.pow.byHash && env.pow.byHash[HIGH_BLOCK].height == 2
  }

  /** The library accepts the four certificates in order. */
  ghost predicate AcceptsAll(lib: Library, c: Four) {
    Accepts(lib, c, 0) && Accepts(lib, c, 1) && Accepts(lib, c, 2) && Accepts(lib, c, 3) && !lib.successor(c[3], Some(c[1]))
  }

  /** The block hash is nil when the state does not change. */
  ghost predicate Setting(p: Params, env: Env, c: Four) {
    && ParamsOk(p) && p.id == NAME && p.partition == 1 && p.shard == 0 && p.confs[0] == ShardConf(0, Some(1))
    && AcceptsAll(p.lib, c)
    && p.lib.blockHash(Header(NAME, Nil), Bytes(HIGH_BLOCK), Nil) == FirstLink()
    && p.lib.blockHash(Header(PEER, FirstLink()), Bytes(HIGH_BLOCK), Bytes(HIGH_BLOCK)) == Nil
    && ProposalValid(p, 0, NoChange(c))
    && AllWell(env)
  }

  lemma CertAt(i: nat)
    requires 1 <= i <= 3
    ensures At(FourRounds(), Some(Cert(i)), i) && Issued(FourRounds(), Cert(i))
  {
    assert FourRounds().certs[i] == Cert(i);
  }

  lemma MemberTakes(i: nat)
    requires i <= 3
    ensures ResponseValid(Member().lib, Message(FourRounds().certs, i)) && CertificateValid(Member().lib, Cert(i), 0)
    ensures Member().lib.decodePeer(Next(i).leader) == Some(Next(i).leader)
  {
    assert FourRounds().certs[i] == Cert(i);
  }

  lemma MemberAccepts(i: nat)
    requires i <= 3
    ensures Accepts(Member().lib, FourRounds().certs, i)
  {
    MemberTakes(i);
    if i >= 1 {
      Follower(i - 1);
    }
  }

  lemma Follower(i: nat)
    requires i <= 2
    ensures Member().lib.successor(Cert(i + 1), if i == 0 then None else Some(Cert(i)))
  {
    if i >= 1 {
      CertAt(i);
    }
    var previous := if i == 0 then None else Some(Cert(i));
    assert At(FourRounds(), previous, i) && FourRounds().records[i + 1] == Cert(i + 1).ir;
    assert Assumptions.Follows(FourRounds(), Cert(i + 1), previous);
  }

  lemma NoFollower()
    ensures !Member().lib.successor(Cert(3), Some(Cert(1)))
  {
    CertAt(1);
    forall k: nat | At(FourRounds(), Some(Cert(1)), k)
      ensures k == 1
    {
    }
  }

  lemma FineIsWell()
    ensures AllWell(Fine())
  {
    LeaderHasProposal();
    assert HIGH_BLOCK in Row().blocks;
  }

  lemma MemberFollows()
    ensures ProposalValid(Member(), 0, NoChange(FourRounds().certs))
  {
    MemberTakes(2);
  }

  lemma MemberAcceptsAll()
    ensures AcceptsAll(Member().lib, FourRounds().certs)
  {
    MemberAccepts(0);
    MemberAccepts(1);
    MemberAccepts(2);
    MemberAccepts(3);
    NoFollower();
  }

  lemma MemberIsSet(env: Env)
    requires AllWell(env)
    ensures Setting(Member(), env, FourRounds().certs)
  {
    MemberAcceptsAll();
    MemberFollows();
  }

  /** The node knows certificate i and the round after it. */
  ghost function Knows(c: Four, n: NodeState, i: nat): NodeState
    requires i <= 3
  {
    n.(luc := Some(c[i]), ltr := Some(Next(i)), leader := Next(i).leader)
  }

  ghost predicate InFirstEpoch(n: NodeState) {
    n.confEpoch == 0 && CurrentEpoch(n) == 0 && !n.epochEvent
  }

  lemma ResponseTaken(p: Params, env: Env, n: NodeState, cr: CertificationResponse, leader: PeerID)
    requires ParamsOk(p) && Healthy(n) && ResponseValid(p.lib, cr) && cr.partition == p.partition && cr.shard == p.shard
    requires InFirstEpoch(n) && CertificateValid(p.lib, cr.uc, 0) && cr.technical.epoch == 0 && p.lib.decodePeer(cr.technical.leader) == Some(leader)
    requires RootRoundOf(n.luc) < cr.uc.rootRound && (n.luc.Some? ==> p.lib.consistent(n.luc.value, cr.uc))
    ensures Step(p, n, OnCertificate(cr, env)) == HandleCertificate(p, n, cr.uc, Some(cr.technical), env).node
    ensures UpdateLUC(p, n, cr.uc, Some(cr.technical)) == Outcome(n.(luc := Some(cr.uc), ltr := Some(cr.technical), leader := leader), true)
  {
  }

  lemma MessageTaken(p: Params, env: Env, c: Four, n: NodeState, i: nat)
    requires Setting(p, env, c) && i <= 3 && InFirstEpoch(n) && Healthy(n) && n.luc == if i == 0 then None else Some(c[i - 1])
    ensures Step(p, n, OnCertificate(Message(c, i), env)) == HandleCertificate(p, n, c[i], Some(Next(i)), env).node
    ensures UpdateLUC(p, n, c[i], Some(Next(i))) == Outcome(Knows(c, n, i), true)
    ensures !IsDuplicate(c[i], n.luc) && !IsRepeat(c[i], n.luc)
  {
    assert Accepts(p.lib, c, i) && (i >= 1 ==> Accepts(p.lib, c, i - 1));
    ResponseTaken(p, env, n, Message(c, i), Next(i).leader);
  }

  // The states the node goes through.

  /** Nothing pending, nothing committed, leader of round 1. */
  ghost function Leading(c: Four): NodeState {
    NodeState(Normal, None, Some(c[0]), Some(Next(0)), NAME, None, None, GenesisState(1), map[], None, [], 0, false, false)
  }

  ghost function Verified(t: TxState): TxState {
    t.(pendingHash := Bytes(HIGH_BLOCK), pendingHeight := 2)
  }

  ghost function CommittedAt(c: Four, i: nat): TxState
    requires 1 <= i <= 3
  {
    TxState(1, Bytes(HIGH_BLOCK), 2, Nil, 0, Some(c[i]))
  }

  /** The proposal for round 1, and the one for round 3, whose header points to block 1. */
  ghost function Proposed1(): Block {
    Block(Header(NAME, Nil), Some(Certificate(Record(1), Nil, 0, 0)))
  }

  ghost function Proposed3(): Block {
    Block(Header(PEER, FirstLink()), Some(Certificate(Record(3), Nil, 0, 0)))
  }

  /** Block 2, by another node. */
  ghost function Block2(c: Four): Block {
    Block(Header(PEER, FirstLink()), Some(c[2]))
  }

  ghost function Ledger1(c: Four): map<U64, Block> {
    map[1 := Proposed1().(cert := Some(c[1]))]
  }

  ghost function Following(c: Four): NodeState {
    NodeState(Normal, None, Some(c[2]), Some(Next(2)), PEER, None, None, CommittedAt(c, 1), Ledger1(c), None, [], 0, false, false)
  }

  ghost function Awaiting(c: Four): NodeState {
    Following(c).(tx := Verified(CommittedAt(c, 1)), pending := Some(Proposed3()), stored := Some(Proposed3()))
  }

  ghost function Behind(c: Four): NodeState {
    Knows(c, Following(c), 3).(status := Recovering, stored := Some(Proposed3()))
  }

  ghost function Recovered(c: Four): NodeState {
    Behind(c).(tx := CommittedAt(c, 2), blocks := Ledger1(c)[2 := Block2(c)])
  }

  ghost function Restarted(c: Four): NodeState {
    NodeState(Initializing, Some(c[2]), Some(c[2]), None, NO_PEER, Some(Proposed3()), None, Verified(CommittedAt(c, 2)),
      Recovered(c).blocks, Some(Proposed3()), [], 0, false, false)
  }

  ghost function Ended(c: Four): NodeState {
    Knows(c, Restarted(c), 3).(status := Normal, pending := None, stored := None, tx := CommittedAt(c, 3),
      blocks := Recovered(c).blocks[3 := Proposed3().(cert := Some(c[3]))])
  }

  // What the handlers come to when everything goes well.

  lemma PendingFinalizes(p: Params, n: NodeState, uc: Certificate, tr: TechnicalRecord, known: NodeState, env: Env)
    requires UpdateLUC(p, n, uc, Some(tr)) == Outcome(known, true) && !n.status.Recovering? && p.lib.successor(uc, n.tx.committedUC)
    requires !IsDuplicate(uc, n.luc) && !IsRepeat(uc, n.luc) && Links.Matches(n, uc) && SameBytes(n.tx.pendingHash, uc.ir.hash)
    requires env.sealOk && env.writeOk && env.pendingDeleteOk
    ensures HandleCertificate(p, n, uc, Some(tr), env).node ==
            known.(status := Normal, pending := None, stored := None, tx := Commit(n.tx, uc).value,
              blocks := n.blocks[uc.ir.round := n.pending.value.(cert := Some(uc))])
  {
    var m := known.(status := Normal);
    assert HandleCertificate(p, n, uc, Some(tr), env) == ActOnCertificate(p, n, m, uc, env) == CertifyProposal(m, uc, env);
  }

  lemma NothingToFinalize(p: Params, n: NodeState, uc: Certificate, tr: TechnicalRecord, known: NodeState, env: Env)
    requires UpdateLUC(p, n, uc, Some(tr)) == Outcome(known, true) && !n.status.Recovering? && p.lib.successor(uc, n.tx.committedUC)
    requires !IsDuplicate(uc, n.luc) && !IsRepeat(uc, n.luc) && n.pending.None? && env.pendingDeleteOk
    requires p.lib.initial(uc) || (n.tx.pendingHash == Nil && SameBytes(uc.ir.hash, n.tx.committedHash) && SameBytes(uc.ir.etHash, Nil))
    ensures HandleCertificate(p, n, uc, Some(tr), env).node == known.(status := Normal, stored := None)
  {
    var m := known.(status := Normal);
    assert HandleCertificate(p, n, uc, Some(tr), env) == ActOnCertificate(p, n, m, uc, env) == CertifyWithoutProposal(p, m, uc, env);
  }

  lemma RootFollowed(p: Params, n: NodeState, prop: Proposal, env: Env)
    requires Healthy(n) && !n.status.Recovering? && ProposalValid(p, n.confEpoch, prop) && prop.uc == n.luc && prop.node == n.leader != NO_PEER
    requires n.tx.pendingHash == Nil && SameBytes(prop.uc.value.ir.hash, n.tx.committedHash)
    requires FollowerVerify(n.tx, env.pow, prop.root).Some? && env.encodeOk && env.pendingWriteOk
    ensures var m := n.(tx := FollowerVerify(n.tx, env.pow, prop.root).value);
            var b := ProposedBlock(p, m, prop.node, prop.root);
            HandleProposal(p, n, Some(prop), env).node == m.(pending := Some(b), stored := Some(b))
  {
    assert HandleProposal(p, n, Some(prop), env) == FollowProposal(p, n, prop, env);
  }

  lemma BlockCommits(p: Params, n: NodeState, b: Block, env: Env, t: TxState)
    requires BlockValid(p.lib, b) && n.status.Recovering? && UpdateLUC(p, n, b.cert.value, None) == Outcome(n, true)
    requires CommittedRound(n) < b.cert.value.ir.round && p.lib.successor(b.cert.value, n.tx.committedUC)
    requires ExtendsLedger(p, n, b, b.cert.value) && SummaryMatches(b.cert.value.ir.hash, b.cert.value.ir)
    requires FollowerVerify(n.tx, env.pow, b.cert.value.ir.hash) == Some(t) && env.writeOk
    ensures HandleBlock(p, n, b, env) ==
            Outcome(n.(tx := Commit(t, b.cert.value).value, blocks := n.blocks[b.cert.value.ir.round := b]), true)
  {
    assert HandleBlock(p, n, b, env) == ApplyVerified(p, n, b, b.cert.value, env);
  }

  lemma OneBlockTaken(p: Params, n: NodeState, b: Block, first: U64, env: Env, m: NodeState)
    requires Healthy(n) && n.status.Recovering? && CommittedRound(n) < first
    requires HandleBlock(p, n, b, env) == Outcome(m, true) && !RecoveryComplete(m)
    ensures HandleReplicationResponse(p, n, ReplicationResponse(Ok, Some([b]), first, first), [env], env, env) == m
  {
    var blocks, envs := [b], [env];
    assert blocks[1..] == [] && envs[1..] == [];
    assert ApplyBlocks(p, n, blocks, envs) == ApplyBlocks(p, m, [], []) == Outcome(m, true);
  }

  lemma StoredTakenUp(p: Params, blocks: map<U64, Block>, stored: Block, last: Block, env: Env, t: TxState)
    requires ParamsOk(p) && LastEntry(blocks, Some(stored)) == Some(last) && env.pendingReadOk && stored.cert.Some?
    requires RestoreTx(p, GenesisState(p.confs[0].dFG.value), Some(last), env) == Some(t)
    requires var ir := stored.cert.value.ir;
             && SameBytes(StateHashOf(t.committedUC), ir.previousHash) && SummaryMatches(ir.hash, ir) && FollowerVerify(t, env.pow, ir.hash).Some?
    ensures InitState(p, blocks, Some(stored), env) ==
            Some(NodeState(Initializing, t.committedUC, t.committedUC, None, NO_PEER, Some(stored), None,
              FollowerVerify(t, env.pow, stored.cert.value.ir.hash).value, blocks, Some(stored), [],
              p.confs[last.cert.value.ir.epoch].epoch, false, false))
  {
  }

  // The nine steps.

  lemma Step1(p: Params, env: Env, c: Four)
    requires Setting(p, env, c)
    ensures Step(p, Genesis(p), OnCertificate(Message(c, 0), env)) == Leading(c)
  {
    var n := Genesis(p);
    MessageTaken(p, env, c, n, 0);
    NothingToFinalize(p, n, c[0], Next(0), Knows(c, n, 0), env);
  }

  lemma Step2(p: Params, env: Env, c: Four)
    requires Setting(p, env, c)
    ensures Step(p, Leading(c), OnT1(env)) == Leading(c).(tx := Verified(GenesisState(1)), pending := Some(Proposed1()), stored := Some(Proposed1()))
  {
    var t := Verified(GenesisState(1));
    assert LeaderPropose(GenesisState(1), env.pow) == Some(t);
    assert ProposedBlock(p, Leading(c).(tx := t), NAME, Bytes(HIGH_BLOCK)) == Proposed1();
  }

  lemma Step3(p: Params, env: Env, c: Four)
    requires Setting(p, env, c)
    ensures var n := Leading(c).(tx := Verified(GenesisState(1)), pending := Some(Proposed1()), stored := Some(Proposed1()));
            Step(p, n, OnCertificate(Message(c, 1), env)) == Knows(c, Following(c), 1)
  {
    var n := Leading(c).(tx := Verified(GenesisState(1)), pending := Some(Proposed1()), stored := Some(Proposed1()));
    MessageTaken(p, env, c, n, 1);
    PendingFinalizes(p, n, c[1], Next(1), Knows(c, n, 1), env);
  }

  lemma Step4(p: Params, env: Env, c: Four)
    requires Setting(p, env, c)
    ensures Step(p, Knows(c, Following(c), 1), OnCertificate(Message(c, 2), env)) == Following(c)
  {
    var n := Knows(c, Following(c), 1);
    MessageTaken(p, env, c, n, 2);
    NothingToFinalize(p, n, c[2], Next(2), Knows(c, n, 2), env);
  }

  lemma Step5(p: Params, env: Env, c: Four)
    requires Setting(p, env, c)
    ensures Step(p, Following(c), OnProposal(Some(NoChange(c)), env)) == Awaiting(c)
  {
    RootFollowed(p, Following(c), NoChange(c), env);
  }

  lemma Step6(p: Params, env: Env, c: Four)
    requires Setting(p, env, c)
    ensures Step(p, Awaiting(c), OnCertificate(Message(c, 3), env)) == Behind(c)
  {
    MessageTaken(p, env, c, Awaiting(c), 3);
    var m := Knows(c, Awaiting(c), 3);
    assert !IsRepeat(c[3], Awaiting(c).luc);
    assert ActOnCertificate(p, Awaiting(c), m, c[3], env) == Outcome(StartRecovery(m), false);
  }

  ghost function Answer(c: Four): ReplicationResponse {
    ReplicationResponse(Ok, Some([Block2(c)]), 2, 2)
  }

  lemma Block2Applies(p: Params, env: Env, c: Four)
    requires Setting(p, env, c)
    ensures HandleBlock(p, Behind(c), Block2(c), env) == Outcome(Recovered(c), true)
  {
    var n := Behind(c);
    assert BlockValid(p.lib, Block2(c));
    BlockCommits(p, n, Block2(c), env, Verified(CommittedAt(c, 1)));
  }

  lemma Step7(p: Params, env: Env, c: Four)
    requires Setting(p, env, c)
    ensures Step(p, Behind(c), OnResponse(Answer(c), [env], env, env)) == Recovered(c)
  {
    Block2Applies(p, env, c);
    OneBlockTaken(p, Behind(c), Block2(c), 2, env, Recovered(c));
  }

  lemma Step8(p: Params, env: Env, c: Four)
    requires Setting(p, env, c)
    ensures Step(p, Recovered(c), OnRestart(env)) == Restarted(c)
    ensures SafeToRestart(Recovered(c)) && Links.TakesUpStale(p, Recovered(c), env)
  {
    var blocks := Recovered(c).blocks;
    assert 2 in blocks && forall r :: r in blocks ==> r <= 2;
    assert LastRound(blocks) == 2;
    StoredTakenUp(p, blocks, Proposed3(), Block2(c), env, CommittedAt(c, 2));
  }

  lemma Step9(p: Params, env: Env, c: Four)
    requires Setting(p, env, c)
    ensures Step(p, Restarted(c), OnCertificate(Message(c, 3), env)) == Ended(c)
  {
    MessageTaken(p, env, c, Restarted(c), 3);
    PendingFinalizes(p, Restarted(c), c[3], Next(3), Knows(c, Restarted(c), 3), env);
  }

  /** The permitted run leads from n to o. */
  ghost predicate Leads(w: World, p: Params, n: NodeState, events: seq<Event>, o: NodeState)
    requires ParamsOk(p) && Healthy(n)
  {
    PermittedRun(w, p, n, events) && (forall i :: 0 <= i < |events| ==> EventOk(events[i])) && Run(p, n, events) == o
  }

  lemma Onward(w: World, p: Params, n: NodeState, e: Event, m: NodeState, rest: seq<Event>, o: NodeState)
    requires ParamsOk(p) && Healthy(n) && Healthy(m) && Permitted(w, n, e) && m == Step(p, n, e) && Leads(w, p, m, rest, o)
    ensures Leads(w, p, n, [e] + rest, o)
  {
    var events := [e] + rest;
    assert events[0] == e && events[1..] == rest;
  }

  ghost function LastThree(c: Four, env: Env): seq<Event> {
    [OnResponse(Answer(c), [env], env, env)] + ([OnRestart(env)] + ([OnCertificate(Message(c, 3), env)] + []))
  }

  ghost function LastSix(c: Four, env: Env): seq<Event> {
    [OnCertificate(Message(c, 2), env)] + ([OnProposal(Some(NoChange(c)), env)] + ([OnCertificate(Message(c, 3), env)] + LastThree(c, env)))
  }

  /** The initial certificate, the timeout of the leader, certificates, a no-op proposal, a response with block 2, a restart. */
  ghost function NineEvents(c: Four, env: Env): seq<Event> {
    [OnCertificate(Message(c, 0), env)] + ([OnT1(env)] + ([OnCertificate(Message(c, 1), env)] + LastSix(c, env)))
  }

  lemma LastThreeLead(w: World, p: Params, env: Env, c: Four)
    requires Setting(p, env, c) && w.heights.None?
    ensures Leads(w, p, Behind(c), LastThree(c, env), Ended(c))
  {
    Step7(p, env, c);
    Step8(p, env, c);
    Step9(p, env, c);
    Onward(w, p, Restarted(c), OnCertificate(Message(c, 3), env), Ended(c), [], Ended(c));
    Onward(w, p, Recovered(c), OnRestart(env), Restarted(c), [OnCertificate(Message(c, 3), env)] + [], Ended(c));
    Onward(w, p, Behind(c), OnResponse(Answer(c), [env], env, env), Recovered(c), [OnRestart(env)] + ([OnCertificate(Message(c, 3), env)] + []), Ended(c));
  }

  lemma LastSixLead(w: World, p: Params, env: Env, c: Four)
    requires Setting(p, env, c) && w.heights.None?
    ensures Leads(w, p, Knows(c, Following(c), 1), LastSix(c, env), Ended(c))
  {
    Step4(p, env, c);
    Step5(p, env, c);
    Step6(p, env, c);
    LastThreeLead(w, p, env, c);
    var rest := [OnCertificate(Message(c, 3), env)] + LastThree(c, env);
    Onward(w, p, Awaiting(c), OnCertificate(Message(c, 3), env), Behind(c), LastThree(c, env), Ended(c));
    Onward(w, p, Following(c), OnProposal(Some(NoChange(c)), env), Awaiting(c), rest, Ended(c));
    Onward(w, p, Knows(c, Following(c), 1), OnCertificate(Message(c, 2), env), Following(c), [OnProposal(Some(NoChange(c)), env)] + rest, Ended(c));
  }

  lemma NineLead(w: World, p: Params, env: Env, c: Four)
    requires Setting(p, env, c) && w.heights.None?
    ensures Leads(w, p, Genesis(p), NineEvents(c, env), Ended(c))
  {
    Step1(p, env, c);
    Step2(p, env, c);
    Step3(p, env, c);
    LastSixLead(w, p, env, c);
    var proposed := Leading(c).(tx := Verified(GenesisState(1)), pending := Some(Proposed1()), stored := Some(Proposed1()));
    var rest := [OnCertificate(Message(c, 1), env)] + LastSix(c, env);
    Onward(w, p, proposed, OnCertificate(Message(c, 1), env), Knows(c, Following(c), 1), LastSix(c, env), Ended(c));
    Onward(w, p, Leading(c), OnT1(env), proposed, rest, Ended(c));
    Onward(w, p, Genesis(p), OnCertificate(Message(c, 0), env), Leading(c), [OnT1(env)] + rest, Ended(c));
  }

  /** Block 3 does not point to block 2, and a node whose committed block is block 2 refuses it. */
  lemma EndedUnlinked(p: Params, env: Env, c: Four, client: NodeState)
    requires Setting(p, env, c)
    ensures var n := Ended(c);
            && n.tx.committedUC == Some(c[3]) && 2 in n.blocks && n.blocks[2].cert == Some(c[2]) && 3 in n.blocks && n.blocks[3].cert == Some(c[3])
            && !SameBytes(n.blocks[3].header.previousBlockHash, BlockHashOf(n.blocks[2].cert))
            && (client.tx.committedUC == Some(c[2]) ==> !ExtendsLedger(p, client, n.blocks[3], c[3]))
  {
    assert Accepts(p.lib, c, 2);
    assert Content(FirstLink()) != [];
  }

  ghost predicate FourRecords(rc: RootChain) {
    |rc.records| == 4 && rc.records[2] == Record(2) && rc.records[3] == Record(3)
  }

  lemma HeadersDoNotLink(w: World, p: Params, env: Env, c: Four)
    requires Trust(w) && p.lib == w.lib && FourRecords(w.rc) && Setting(p, env, c) && w.heights.None?
    ensures !Links.HeadersLink(Ended(c))
  {
    NineLead(w, p, env, c);
    GenesisInv(w, p);
    var k := RunKeeps(w, p, Genesis(p), 0, NineEvents(c, env));
    EndedUnlinked(p, env, c, Ended(c));
    RecordOrder(w.rc, k, 3);
    RecordOrder(w.rc, 3, k);
    Links.HeadersAreRecords(w, Ended(c), k);
    assert !Links.BlockLinks(w.rc, Ended(c).blocks, 3);
  }

  /** What the nine events come to. */
  ghost predicate EndsUnlinked(w: World, p: Params, events: seq<Event>, uc: Certificate, next: Certificate, client: NodeState)
    requires ParamsOk(p)
  {
    && PermittedRun(w, p, Genesis(p), events) && (forall i :: 0 <= i < |events| ==> EventOk(events[i]))
    && var n := Run(p, Genesis(p), events);
       && !Links.HeadersLink(n)
       && n.tx.committedUC == Some(next) && next.ir.round in n.blocks
       && (client.tx.committedUC == Some(uc) ==> !ExtendsLedger(p, client, n.blocks[next.ir.round], next))
  }

  lemma NineEventsUnlink(w: World, p: Params, env: Env, c: Four, client: NodeState)
    requires Trust(w) && p.lib == w.lib && FourRecords(w.rc) && Setting(p, env, c) && w.heights.None?
    ensures EndsUnlinked(w, p, NineEvents(c, env), c[2], c[3], client)
  {
    NineLead(w, p, env, c);
    HeadersDoNotLink(w, p, env, c);
    EndedUnlinked(p, env, c, client);
    assert Accepts(p.lib, c, 3);
  }

  /**
   Nine events from genesis, each permitted, with every write and delete successful and a root chain that
   certifies linked blocks only, after which the headers of the committed blocks do not form a chain: the
   restart takes up a proposal whose header points to block 1, and the certificate of record 3 makes it the
   block after block 2. A recovering node at record 2 refuses that block.
   */
  lemma LedgerUnlinked(client: NodeState)
    ensures var w := FourWorld();
            && Trust(w) && Complete(w.lib, w.rc) && Agreement.CertifiedLinks(w.lib, w.rc) && w.exact && ParamsOk(Member())
            && EndsUnlinked(w, Member(), NineEvents(FourRounds().certs, Fine()), FourRounds().certs[2], FourRounds().certs[3], client)
  {
    FourIsAdmissible();
    FineIsWell();
    MemberIsSet(Fine());
    NineEventsUnlink(FourWorld(), Member(), Fine(), FourRounds().certs, client);
  }
}
