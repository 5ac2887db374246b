/** What the invariant gives: one chain of finalized blocks, shared by all nodes and served to those that recover. */
module Agreement {
  import opened Types
  import opened PowTypes
  import opened NodeModel
  import opened RootChain
  import opened Safety
  import opened Runs

  // ---- ascending listings ----

  ghost predicate StrictlyAscending(s: seq<U64>) {
    forall i, j :: 0 <= i < j < |s| ==> s[i] < s[j]
  }

  /** The rounds of a set in ascending order. */
  ghost function Ascending(rounds: set<U64>): (s: seq<U64>)
    ensures StrictlyAscending(s)
    ensures forall r :: r in s <==> r in rounds
    decreases |rounds|
  {
    if rounds == {} then [] else
    var last := LastOf(rounds);
    Ascending(rounds - {last}) + [last]
  }

  lemma HasElement(s: seq<U64>)
    ensures s != [] ==> exists r :: r in s
  {
    if s != [] {
      assert s[0] in s;
    }
  }

  /** An ascending listing is determined by its elements. */
  lemma {:induction false} AscendingIsUnique(a: seq<U64>, b: seq<U64>)
    requires StrictlyAscending(a) && StrictlyAscending(b)
    requires forall r :: r in a <==> r in b
    ensures a == b
    decreases |a|
  {
    if a == [] {
      HasElement(b);
    } else {
      assert a[|a| - 1] in b && b != [] && b[|b| - 1] in a;
      var x, y := a[|a| - 1], b[|b| - 1];
      assert x == y;
      var a', b' := a[..|a| - 1], b[..|b| - 1];
      forall r
        ensures r in a' <==> r in b'
      {
        assert r in a' ==> r in a && r != x;
        assert r in b' ==> r in b && r != x;
        assert r in a && r != x ==> r in a';
        assert r in b && r != x ==> r in b';
      }
      AscendingIsUnique(a', b');
      assert a == a' + [x] && b == b' + [x];
    }
  }

  // ---- histories ----

  /** The rounds of the committed blocks in ascending order. */
  ghost function CommittedRounds(n: NodeState): (s: seq<U64>)
    ensures forall i :: 0 <= i < |s| ==> s[i] in n.blocks
  {
    var rounds := set r | r in n.blocks && r <= CommittedRound(n);
    var s := Ascending(rounds);
    assert forall i :: 0 <= i < |s| ==> s[i] in rounds;
    s
  }

  /** The committed (round, PoW hash) pairs of a node, in order of rounds. */
  ghost function History(n: NodeState): (h: seq<(U64, Hash)>)
    ensures forall i :: 0 <= i < |h| ==> h[i].0 in n.blocks
  {
    var rounds := CommittedRounds(n);
    seq(|rounds|, i requires 0 <= i < |rounds| => (rounds[i], CertifiedHash(n.blocks[rounds[i]])))
  }

  function CertifiedHash(b: Block): Hash {
    if b.cert.Some? then Content(b.cert.value.ir.hash) else []
  }

  /** The first k pairs the root chain certified after the initial record. */
  ghost function RootHistory(rc: RootChain, k: nat): seq<(U64, Hash)>
    requires k < |rc.records|
  {
    seq(k, i requires 0 <= i < k => (rc.records[i + 1].round, Content(rc.records[i + 1].hash)))
  }

  lemma CommittedRoundsAreRecords(w: World, n: NodeState, k: nat)
    requires Increasing(w.rc) && Inv(w, n, k)
    ensures CommittedRounds(n) == seq(k, i requires 0 <= i < k => RecordRound(w.rc, i + 1))
  {
    var rounds := set r | r in n.blocks && r <= CommittedRound(n);
    var expected := seq(k, i requires 0 <= i < k => RecordRound(w.rc, i + 1));
    assert CommittedRound(n) == RecordRound(w.rc, k);
    forall r: U64
      ensures r in rounds <==> r in expected
    {
      if r in rounds {
        var i := CommittedIsRecord(w, n, k, r);
        assert r == expected[i - 1];
      }
      if r in expected {
        var i :| 0 <= i < k && r == RecordRound(w.rc, i + 1);
        RecordIsCommitted(w, n, k, i + 1);
      }
    }
    AscendingIsUnique(Ascending(rounds), expected);
  }

  lemma CommittedIsRecord(w: World, n: NodeState, k: nat, r: U64) returns (i: nat)
    requires Increasing(w.rc) && Inv(w, n, k) && r in n.blocks && r <= CommittedRound(n)
    ensures 1 <= i <= k && r == RecordRound(w.rc, i)
  {
    i := RoundsAreRecords(w.rc, k, r);
    RecordOrder(w.rc, k, i);
  }

  lemma RecordIsCommitted(w: World, n: NodeState, k: nat, i: nat)
    requires Increasing(w.rc) && Inv(w, n, k) && 1 <= i <= k
    ensures RecordRound(w.rc, i) in n.blocks && RecordRound(w.rc, i) <= CommittedRound(n)
  {
    assert Holds(w, n.blocks, i);
    RecordOrder(w.rc, k, i);
  }

  /** The history of a node is what the root chain certified, up to the record the node stands at. */
  lemma HistoryIsCertified(w: World, n: NodeState, k: nat)
    requires Increasing(w.rc) && Inv(w, n, k)
    ensures History(n) == RootHistory(w.rc, k)
  {
    CommittedRoundsAreRecords(w, n, k);
    forall i | 0 <= i < k
      ensures History(n)[i] == RootHistory(w.rc, k)[i]
    {
      assert Holds(w, n.blocks, i + 1);
    }
  }

  /** The history ends with what the node has committed, and is empty before that. */
  ghost predicate EndsCommitted(n: NodeState) {
    var h := History(n);
    if n.tx.committedUC.None? then h == []
    else h != [] && h[|h| - 1] == (CommittedRound(n), Content(n.tx.committedHash))
  }

  lemma HistoryEndsCommitted(w: World, n: NodeState, k: nat)
    requires Increasing(w.rc) && Inv(w, n, k)
    ensures EndsCommitted(n)
  {
    HistoryIsCertified(w, n, k);
  }

  // ---- systems of nodes ----

  datatype Action = Action(node: nat, event: Event)

  ghost predicate AllHealthy(ps: seq<Params>, nodes: seq<NodeState>) {
    |ps| == |nodes| && forall i :: 0 <= i < |ps| ==> ParamsOk(ps[i]) && Healthy(nodes[i])
  }

  ghost predicate ActionOk(w: World, ps: seq<Params>, nodes: seq<NodeState>, a: Action)
    requires AllHealthy(ps, nodes)
  {
    a.node < |nodes| && Permitted(w, nodes[a.node], a.event)
  }

  ghost function SystemStep(ps: seq<Params>, nodes: seq<NodeState>, a: Action): (after: seq<NodeState>)
    requires AllHealthy(ps, nodes) && a.node < |nodes| && EventOk(a.event)
    ensures AllHealthy(ps, after)
  {
    nodes[a.node := Step(ps[a.node], nodes[a.node], a.event)]
  }

  /** `after` is reached from `nodes` by interleaving permitted steps of the nodes. */
  ghost predicate Reaches(w: World, ps: seq<Params>, nodes: seq<NodeState>, actions: seq<Action>, after: seq<NodeState>)
    requires AllHealthy(ps, nodes)
    decreases |actions|
  {
    if actions == [] then after == nodes
    else ActionOk(w, ps, nodes, actions[0]) && Reaches(w, ps, SystemStep(ps, nodes, actions[0]), actions[1..], after)
  }

  ghost predicate NodeOk(w: World, n: NodeState) {
    exists k :: Inv(w, n, k)
  }

  ghost predicate Members(w: World, ps: seq<Params>) {
    forall i :: 0 <= i < |ps| ==> ParamsOk(ps[i]) && ps[i].lib == w.lib
  }

  lemma {:induction false} SystemKeeps(w: World, ps: seq<Params>, nodes: seq<NodeState>, actions: seq<Action>, after: seq<NodeState>)
    requires Trust(w) && Members(w, ps) && AllHealthy(ps, nodes) && Reaches(w, ps, nodes, actions, after)
    requires forall i :: 0 <= i < |nodes| ==> NodeOk(w, nodes[i])
    ensures |after| == |nodes| && forall i :: 0 <= i < |after| ==> NodeOk(w, after[i])
    decreases |actions|
  {
    if actions != [] {
      var a := actions[0];
      var k :| Inv(w, nodes[a.node], k);
      var k' := StepKeeps(w, ps[a.node], nodes[a.node], k, a.event);
      SystemKeeps(w, ps, SystemStep(ps, nodes, a), actions[1..], after);
    }
  }

  ghost function GenesisSystem(ps: seq<Params>): (nodes: seq<NodeState>)
    requires forall i :: 0 <= i < |ps| ==> ParamsOk(ps[i])
    ensures AllHealthy(ps, nodes)
  {
    seq(|ps|, i requires 0 <= i < |ps| => Genesis(ps[i]))
  }

  /**
   Prefix agreement: however the steps of the nodes interleave and whatever messages they get, each
   history is a prefix of what the root chain certified, so one of any two histories extends the other.
   */
  lemma PrefixAgreement(w: World, ps: seq<Params>, actions: seq<Action>, after: seq<NodeState>, i: nat, j: nat)
    requires Trust(w) && Members(w, ps) && Reaches(w, ps, GenesisSystem(ps), actions, after)
    requires i < |after| && j < |after|
    ensures EndsCommitted(after[i]) && History(after[i]) <= RootHistory(w.rc, |w.rc.records| - 1)
    ensures History(after[i]) <= History(after[j]) || History(after[j]) <= History(after[i])
  {
    var nodes := GenesisSystem(ps);
    forall m | 0 <= m < |nodes|
      ensures NodeOk(w, nodes[m])
    {
      GenesisInv(w, ps[m]);
    }
    SystemKeeps(w, ps, nodes, actions, after);
    NodesAgree(w, after[i], after[j]);
  }

  lemma NodesAgree(w: World, x: NodeState, y: NodeState)
    requires Increasing(w.rc) && NodeOk(w, x) && NodeOk(w, y)
    ensures EndsCommitted(x) && History(x) <= RootHistory(w.rc, |w.rc.records| - 1)
    ensures History(x) <= History(y) || History(y) <= History(x)
  {
    var a :| Inv(w, x, a);
    var b :| Inv(w, y, b);
    HistoryEndsCommitted(w, x, a);
    HistoryIsCertified(w, x, a);
    HistoryIsCertified(w, y, b);
    RootHistoryGrows(w.rc, a, |w.rc.records| - 1);
    if a <= b {
      RootHistoryGrows(w.rc, a, b);
    } else {
      RootHistoryGrows(w.rc, b, a);
    }
  }

  lemma RootHistoryGrows(rc: RootChain, a: nat, b: nat)
    requires a <= b < |rc.records|
    ensures RootHistory(rc, a) <= RootHistory(rc, b)
  {
  }

  // ---- the chain of stored blocks ----

  /** The certified block hash is that of a header which points to the block of the record before. */
  ghost predicate PointsBack(lib: Library, rc: RootChain, i: nat) {
    1 <= i < |rc.records| ==>
      exists h: Header ::
        && SameBytes(h.previousBlockHash, LinkHash(rc, i))
        && SameBytes(rc.records[i].blockHash, lib.blockHash(h, rc.records[i].hash, rc.records[i].previousHash))
  }

  /** The root chain certifies only blocks that link, and the hash of a block that changes the state binds the link; any other block hash is nil. */
  ghost predicate CertifiedLinks(lib: Library, rc: RootChain) {
    && (forall i: nat {:trigger PointsBack(lib, rc, i)} :: PointsBack(lib, rc, i))
    && (forall h, g, a, b, c, d {:trigger lib.blockHash(h, a, b), lib.blockHash(g, c, d)} ::
          !SameBytes(a, b) && !SameBytes(c, d) && SameBytes(lib.blockHash(h, a, b), lib.blockHash(g, c, d)) ==> SameBytes(h.previousBlockHash, g.previousBlockHash))
  }

  /** The record changes the state hash. */
  ghost predicate Changes(rc: RootChain, i: nat) {
    1 <= i < |rc.records| && !SameBytes(rc.records[i].hash, rc.records[i].previousHash)
  }

  lemma CertifiedBlockLinks(w: World, b: Block, i: nat)
    requires CertifiedLinks(w.lib, w.rc) && Certifies(w, b, i) && Changes(w.rc, i)
    ensures SameBytes(b.header.previousBlockHash, LinkHash(w.rc, i))
  {
    assert PointsBack(w.lib, w.rc, i);
    var h: Header :| SameBytes(h.previousBlockHash, LinkHash(w.rc, i))
          && SameBytes(w.rc.records[i].blockHash, w.lib.blockHash(h, w.rc.records[i].hash, w.rc.records[i].previousHash));
    assert SameBytes(w.lib.blockHash(h, w.rc.records[i].hash, w.rc.records[i].previousHash),
        w.lib.blockHash(b.header, w.rc.records[i].hash, w.rc.records[i].previousHash));
  }

  /**
   Whatever proposals restarts have taken up, the stored blocks form one chain of rounds and state hashes,
   and if the root chain certifies linked blocks only, every block that changes the state hash also points
   to the block before it.
   */
  lemma CertifiedBlocksChain(w: World, n: NodeState, k: nat, i: nat)
    requires Increasing(w.rc) && Inv(w, n, k) && i + 1 < |History(n)|
    ensures var a, b := n.blocks[History(n)[i].0], n.blocks[History(n)[i + 1].0];
            && a.cert.Some? && b.cert.Some?
            && a.cert.value.ir.round < b.cert.value.ir.round
            && SameBytes(b.cert.value.ir.previousHash, a.cert.value.ir.hash)
            && BlockValid(w.lib, a) && BlockValid(w.lib, b)
            && (CertifiedLinks(w.lib, w.rc) && !SameBytes(b.cert.value.ir.hash, b.cert.value.ir.previousHash) ==>
                  SameBytes(b.header.previousBlockHash, a.cert.value.ir.blockHash))
  {
    HistoryIsCertified(w, n, k);
    assert Holds(w, n.blocks, i + 1) && Holds(w, n.blocks, i + 2);
    NeighboursChain(w, n.blocks[RecordRound(w.rc, i + 1)], n.blocks[RecordRound(w.rc, i + 2)], i + 1);
  }

  lemma NeighboursChain(w: World, a: Block, b: Block, i: nat)
    requires Increasing(w.rc) && Certifies(w, a, i) && Certifies(w, b, i + 1)
    ensures a.cert.value.ir.round < b.cert.value.ir.round && SameBytes(b.cert.value.ir.previousHash, a.cert.value.ir.hash)
    ensures CertifiedLinks(w.lib, w.rc) && !SameBytes(b.cert.value.ir.hash, b.cert.value.ir.previousHash) ==>
              SameBytes(b.header.previousBlockHash, a.cert.value.ir.blockHash)
  {
    RecordOrder(w.rc, i, i + 1);
    if CertifiedLinks(w.lib, w.rc) && Changes(w.rc, i + 1) {
      CertifiedBlockLinks(w, b, i + 1);
    }
  }

  // ---- serving ----

  /** A node has every certified block after its first certificate up to the committed one. */
  lemma ServesEveryBlock(w: World, n: NodeState, k: nat, uc: Certificate)
    requires WellFormed(w.rc) && Inv(w, n, k)
    requires Issued(w.rc, uc) && RoundOf(n.fuc) < uc.ir.round <= CommittedRound(n)
    ensures uc.ir.round in n.blocks && n.blocks[uc.ir.round].cert.Some? && n.blocks[uc.ir.round].cert.value.ir == uc.ir
  {
    var i :| 0 <= i < |w.rc.records| && w.rc.records[i] == uc.ir;
    assert CommittedRound(n) == RecordRound(w.rc, k);
    assert i > k ==> RecordRound(w.rc, k) < RecordRound(w.rc, i);
    assert RecordRound(w.rc, i) == uc.ir.round;
    assert Holds(w, n.blocks, i);
  }

  /** Whenever a worker gets to a queued request, the reply is not empty. */
  lemma QueuedRequestHasReply(w: World, n: NodeState, k: nat, r: ReplicationRequest, maxReturn: U64, rounds: seq<U64>)
    requires Inv(w, n, k) && r in n.queue && IsReply(n.blocks, r, maxReturn, rounds)
    ensures rounds != []
  {
    assert CommittedRound(n) in n.blocks && r.begin <= CommittedRound(n);
  }

  /**
   What a reply may hold: no more blocks than the limit, but always one if there is one, none but the last
   at or past the requested end, and all there are from the requested round on if it stops short of both.
   */
  lemma ReplyIsBounded(blocks: map<U64, Block>, r: ReplicationRequest, maxReturn: U64, rounds: seq<U64>)
    requires IsReply(blocks, r, maxReturn, rounds)
    ensures |rounds| <= if maxReturn == 0 then 1 else maxReturn
    ensures r.end > 0 ==> forall i :: 0 <= i < |rounds| - 1 ==> rounds[i] < r.end
    ensures rounds == [] <==> forall k: U64 :: k in blocks ==> k < r.begin
    ensures |rounds| < maxReturn && (r.end == 0 || rounds == [] || rounds[|rounds| - 1] < r.end) ==>
              forall k: U64 :: k in blocks && r.begin <= k ==> k in rounds
  {
    if |rounds| >= 2 {
      var i := |rounds| - 2;
      assert !LimitReached(i + 1, rounds[i], r, maxReturn);
    }
    if rounds != [] {
      assert rounds[0] in blocks && r.begin <= rounds[0];
    }
  }

  /** The reply is determined by the store and the request. */
  lemma ReplyIsUnique(blocks: map<U64, Block>, r: ReplicationRequest, maxReturn: U64, a: seq<U64>, b: seq<U64>)
    requires IsReply(blocks, r, maxReturn, a) && IsReply(blocks, r, maxReturn, b)
    ensures a == b
  {
    if |a| <= |b| {
      ReplyIsPrefix(blocks, r, maxReturn, a, b, |a|);
      ReplyStopsOnce(blocks, r, maxReturn, a, b);
    } else {
      ReplyIsPrefix(blocks, r, maxReturn, b, a, |b|);
      ReplyStopsOnce(blocks, r, maxReturn, b, a);
    }
  }

  lemma {:induction false} ReplyIsPrefix(blocks: map<U64, Block>, r: ReplicationRequest, maxReturn: U64, a: seq<U64>, b: seq<U64>, m: nat)
    requires IsReply(blocks, r, maxReturn, a) && IsReply(blocks, r, maxReturn, b) && m <= |a| && m <= |b|
    ensures forall i :: 0 <= i < m ==> a[i] == b[i]
    decreases m
  {
    if m > 0 {
      ReplyIsPrefix(blocks, r, maxReturn, a, b, m - 1);
      ReplySkipsNothing(blocks, r, maxReturn, a, b, m - 1);
      ReplySkipsNothing(blocks, r, maxReturn, b, a, m - 1);
    }
  }

  lemma ReplySkipsNothing(blocks: map<U64, Block>, r: ReplicationRequest, maxReturn: U64, a: seq<U64>, b: seq<U64>, m: nat)
    requires StrictlyAscending(a) && IsReply(blocks, r, maxReturn, b)
    requires m < |a| && m < |b| && a[m] in blocks && r.begin <= a[m]
    requires forall i :: 0 <= i < m ==> a[i] == b[i]
    ensures b[m] <= a[m]
  {
    if a[m] in b {
      var i :| 0 <= i < |b| && b[i] == a[m];
      assert m <= i;
    } else {
      assert b[m] <= b[|b| - 1] < a[m];
    }
  }

  lemma ReplyStopsOnce(blocks: map<U64, Block>, r: ReplicationRequest, maxReturn: U64, a: seq<U64>, b: seq<U64>)
    requires IsReply(blocks, r, maxReturn, a) && IsReply(blocks, r, maxReturn, b) && a <= b
    ensures a == b
  {
    if |a| < |b| {
      LongerReplyImpossible(blocks, r, maxReturn, a, b);
    }
  }

  lemma LongerReplyImpossible(blocks: map<U64, Block>, r: ReplicationRequest, maxReturn: U64, a: seq<U64>, b: seq<U64>)
    requires IsReply(blocks, r, maxReturn, a) && IsReply(blocks, r, maxReturn, b) && a < b
    ensures false
  {
    var next := b[|a|];
    if next in a {
      var i :| 0 <= i < |a| && a[i] == next;
      assert b[i] == next;
    }
    assert a != [] ==> a[|a| - 1] == b[|a| - 1];
  }
}
