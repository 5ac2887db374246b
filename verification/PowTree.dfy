/**
 The PoW node's view as a finite block tree with an active chain, and the finality rule over it:
 when the fork check passes, when a leader proposes, and when a follower accepts.
 */
module PowTree {
  import opened Types
  import opened PowTypes
  import opened TxModel

  datatype Entry = Entry(parent: Hash, height: U64)

  datatype Tree = Tree(blocks: map<Hash, Entry>, genesis: Hash, tip: Hash)

  ghost predicate WellFormed(t: Tree) {
    && t.genesis in t.blocks
    && t.tip in t.blocks
    && t.blocks[t.genesis].height == 0
    && forall h {:trigger t.blocks[h].parent} :: h in t.blocks && h != t.genesis ==>
         && t.blocks[h].parent in t.blocks
         && t.blocks[h].height == t.blocks[t.blocks[h].parent].height + 1
  }

  /** The block at the given height on the path from h down to genesis. */
  ghost function Ancestor(t: Tree, h: Hash, height: nat): (a: Hash)
    requires WellFormed(t) && h in t.blocks && height <= t.blocks[h].height
    ensures a in t.blocks && t.blocks[a].height == height
    decreases t.blocks[h].height
  {
    if t.blocks[h].height == height then h else Ancestor(t, t.blocks[h].parent, height)
  }

  /** The block of the active chain at the height. */
  ghost function ActiveAt(t: Tree, height: nat): (a: Hash)
    requires WellFormed(t) && height <= t.blocks[t.tip].height
    ensures a in t.blocks && t.blocks[a].height == height
  {
    Ancestor(t, t.tip, height)
  }

  ghost predicate OnActive(t: Tree, h: Hash)
    requires WellFormed(t)
  {
    && h in t.blocks
    && t.blocks[h].height <= t.blocks[t.tip].height
    && Ancestor(t, t.tip, t.blocks[h].height) == h
  }

  /** Height of the last block that the path to h shares with the active chain. */
  ghost function ForkHeight(t: Tree, h: Hash): (f: nat)
    requires WellFormed(t) && h in t.blocks
    ensures f <= t.blocks[h].height
    decreases t.blocks[h].height
  {
    if OnActive(t, h) || h == t.genesis then t.blocks[h].height else ForkHeight(t, t.blocks[h].parent)
  }

  ghost predicate Leaf(t: Tree, h: Hash) {
    h in t.blocks && forall c :: c in t.blocks && c != t.genesis ==> t.blocks[c].parent != h
  }

  /** The getchaintips entry of the block. */
  ghost predicate Describes(t: Tree, h: Hash, tip: ChainTip)
    requires WellFormed(t)
  {
    && h in t.blocks
    && tip.height == t.blocks[h].height
    && tip.branchLen == t.blocks[h].height - ForkHeight(t, h)
    && (tip.status.Active? <==> h == t.tip)
  }

  /** Every branch end is reported, in any order, and nothing is reported that is not in the tree. */
  ghost predicate Reports(t: Tree, tips: seq<ChainTip>)
    requires WellFormed(t)
  {
    && (forall h :: Leaf(t, h) ==> exists i :: 0 <= i < |tips| && Describes(t, h, tips[i]))
    && (forall i :: 0 <= i < |tips| ==> exists h :: Describes(t, h, tips[i]))
  }

  ghost function HeaderOf(t: Tree, h: Hash): BlockHeader
    requires WellFormed(t) && h in t.blocks
  {
    BlockHeader(Some(h), t.blocks[h].height,
      if OnActive(t, h) then t.blocks[t.tip].height - t.blocks[h].height + 1 else -1)
  }

  /** The answers of a PoW node whose view is the tree. */
  ghost predicate Reflects(pow: PowAnswers, t: Tree)
    requires WellFormed(t)
  {
    && pow.tip == Some(HeaderOf(t, t.tip))
    && pow.byHash.Keys == t.blocks.Keys
    && (forall h {:trigger h in pow.byHash} :: h in t.blocks ==> pow.byHash[h] == HeaderOf(t, h))
    && (forall k: U64 :: k in pow.byHeight <==> k <= t.blocks[t.tip].height)
    && (forall k: U64 {:trigger k in pow.byHeight} :: k in pow.byHeight ==> pow.byHeight[k] == HeaderOf(t, ActiveAt(t, k)))
    && pow.tips.Some?
    && Reports(t, pow.tips.value)
  }

  /** Whatever answers the PoW node gave are true of the tree; calls may have failed. */
  ghost predicate TrueOf(pow: PowAnswers, t: Tree)
    requires WellFormed(t)
  {
    && (pow.tip.Some? ==> pow.tip.value == HeaderOf(t, t.tip))
    && (forall h {:trigger h in pow.byHash} :: h in pow.byHash ==> h in t.blocks && pow.byHash[h] == HeaderOf(t, h))
    && (forall k: U64 {:trigger k in pow.byHeight} :: k in pow.byHeight ==> k <= t.blocks[t.tip].height && pow.byHeight[k] == HeaderOf(t, ActiveAt(t, k)))
    && (pow.tips.Some? ==> Reports(t, pow.tips.value))
  }

  lemma ReflectsIsTrue(pow: PowAnswers, t: Tree)
    requires WellFormed(t) && Reflects(pow, t)
    ensures TrueOf(pow, t)
  {
  }

  /** The active chain of t is a part of the active chain of u. */
  ghost predicate ExtendsActive(t: Tree, u: Tree)
    requires WellFormed(t) && WellFormed(u)
  {
    && t.blocks[t.tip].height <= u.blocks[u.tip].height
    && forall k: nat :: k <= t.blocks[t.tip].height ==> Ancestor(u, u.tip, k) == Ancestor(t, t.tip, k)
  }

  lemma {:induction false} AncestorOfAncestor(t: Tree, h: Hash, high: nat, low: nat)
    requires WellFormed(t) && h in t.blocks && low <= high <= t.blocks[h].height
    ensures Ancestor(t, Ancestor(t, h, high), low) == Ancestor(t, h, low)
    decreases t.blocks[h].height
  {
    if t.blocks[h].height == high {
    } else {
      AncestorOfAncestor(t, t.blocks[h].parent, high, low);
    }
  }

  lemma GenesisOnActive(t: Tree)
    requires WellFormed(t)
    ensures OnActive(t, t.genesis)
  {
    var a := Ancestor(t, t.tip, 0);
    assert a != t.genesis ==> t.blocks[a].height == t.blocks[t.blocks[a].parent].height + 1;
  }

  lemma ActiveIsClosed(t: Tree, h: Hash, height: nat)
    requires WellFormed(t) && OnActive(t, h) && height <= t.blocks[h].height
    ensures OnActive(t, Ancestor(t, h, height))
  {
    AncestorOfAncestor(t, t.tip, t.blocks[h].height, height);
  }

  /** The fork height separates the shared part of a branch from the part off the active chain. */
  lemma {:induction false} ForkHeightExact(t: Tree, h: Hash, height: nat)
    requires WellFormed(t) && h in t.blocks && height <= t.blocks[h].height
    ensures OnActive(t, Ancestor(t, h, height)) <==> height <= ForkHeight(t, h)
    decreases t.blocks[h].height
  {
    if OnActive(t, h) {
      ActiveIsClosed(t, h, height);
    } else if h == t.genesis {
      GenesisOnActive(t);
    } else if height < t.blocks[h].height {
      ForkHeightExact(t, t.blocks[h].parent, height);
    }
  }

  /** Every block lies below the end of some branch. */
  lemma {:induction false} BranchEnd(t: Tree, h: Hash) returns (end: Hash)
    requires WellFormed(t) && h in t.blocks
    ensures Leaf(t, end) && t.blocks[h].height <= t.blocks[end].height
    ensures Ancestor(t, end, t.blocks[h].height) == h
    decreases U64_LIMIT - t.blocks[h].height
  {
    if Leaf(t, h) {
      end := h;
    } else {
      var c :| c in t.blocks && c != t.genesis && t.blocks[c].parent == h;
      end := BranchEnd(t, c);
      AncestorOfAncestor(t, end, t.blocks[c].height, t.blocks[h].height);
    }
  }

  ghost predicate Competitor(t: Tree, h: Hash, height: nat)
    requires WellFormed(t)
  {
    h in t.blocks && t.blocks[h].height == height && !OnActive(t, h)
  }

  /** Every known block at the height is on the active chain. */
  ghost predicate NoCompetitor(t: Tree, height: nat)
    requires WellFormed(t)
  {
    forall h {:trigger Competitor(t, h, height)} :: !Competitor(t, h, height)
  }

  /** The fork check is exact: it passes if and only if no block off the active chain has the candidate height. */
  lemma ForkCheckExact(t: Tree, tips: seq<ChainTip>, candidate: U64)
    requires WellFormed(t) && Reports(t, tips)
    ensures ForkFree(tips, candidate) <==> NoCompetitor(t, candidate)
  {
    if ForkFree(tips, candidate) {
      forall h
        ensures !Competitor(t, h, candidate)
      {
        if Competitor(t, h, candidate) {
          CompetitorIsSeen(t, tips, h);
        }
      }
    }
    if NoCompetitor(t, candidate) {
      forall i | 0 <= i < |tips|
        ensures !Competes(tips[i], candidate)
      {
        var h :| Describes(t, h, tips[i]);
        if Competes(tips[i], candidate) {
          ForkHeightExact(t, h, candidate);
          assert Competitor(t, Ancestor(t, h, candidate), candidate);
        }
      }
    }
  }

  lemma CompetitorIsSeen(t: Tree, tips: seq<ChainTip>, h: Hash)
    requires WellFormed(t) && Reports(t, tips)
    requires h in t.blocks && !OnActive(t, h)
    ensures !ForkFree(tips, t.blocks[h].height)
  {
    var end := BranchEnd(t, h);
    ForkHeightExact(t, end, t.blocks[h].height);
    var i :| 0 <= i < |tips| && Describes(t, end, tips[i]);
    assert Competes(tips[i], t.blocks[h].height);
  }

  /** The height of the committed block in the tree, 0 while there is none. */
  ghost function HeightOf(t: Tree, committed: Slice): U64
    requires committed == Nil || Content(committed) in t.blocks
  {
    if committed == Nil then 0 else t.blocks[Content(committed)].height
  }

  /** The queries of a leader for the tip, the committed block and the chain tips are answered. */
  ghost predicate LeaderAnswered(tx: TxState, pow: PowAnswers) {
    pow.tip.Some? && (tx.committedHash == Nil || Content(tx.committedHash) in pow.byHash) && pow.tips.Some?
  }

  /**
   A leader proposes exactly when the block with dFG confirmations is new and has no competitor, and
   proposes that block; with any of its queries unanswered it proposes nothing.
   */
  lemma LeaderProposeExact(tx: TxState, pow: PowAnswers, t: Tree, candidate: int)
    requires WellFormed(t) && TrueOf(pow, t) && tx.dFG >= 1 && candidate == t.blocks[t.tip].height + 1 - tx.dFG
    ensures LeaderPropose(tx, pow).Some? <==>
              && LeaderAnswered(tx, pow)
              && HeightOf(t, tx.committedHash) < candidate
              && candidate in pow.byHeight
              && NoCompetitor(t, candidate)
    ensures LeaderPropose(tx, pow).Some? ==>
              LeaderPropose(tx, pow).value == tx.(pendingHash := Bytes(ActiveAt(t, candidate)), pendingHeight := candidate)
  {
    ProposesIff(tx, pow, candidate);
    if LeaderAnswered(tx, pow) {
      AnswersExact(tx, pow, t);
      if 0 <= candidate && candidate in pow.byHeight {
        CandidateExact(pow, t, candidate);
      }
    }
  }

  /** The tip is the tree's, and the height that counts as finalized is that of the committed block. */
  lemma AnswersExact(tx: TxState, pow: PowAnswers, t: Tree)
    requires WellFormed(t) && TrueOf(pow, t) && LeaderAnswered(tx, pow)
    ensures pow.tip.value.height == t.blocks[t.tip].height
    ensures tx.committedHash == Nil || Content(tx.committedHash) in t.blocks
    ensures FinalizedHeight(tx, pow) == Some(HeightOf(t, tx.committedHash))
  {
    if tx.committedHash != Nil {
      assert pow.byHash[Content(tx.committedHash)] == HeaderOf(t, Content(tx.committedHash));
    }
  }

  lemma CandidateExact(pow: PowAnswers, t: Tree, candidate: U64)
    requires WellFormed(t) && TrueOf(pow, t) && pow.tips.Some? && candidate in pow.byHeight
    ensures ForkFree(pow.tips.value, candidate) == NoCompetitor(t, candidate)
    ensures candidate <= t.blocks[t.tip].height
    ensures pow.byHeight[candidate].hash == Some(ActiveAt(t, candidate)) && pow.byHeight[candidate].height == candidate
  {
    ForkCheckExact(t, pow.tips.value, candidate);
  }

  lemma ProposesIff(tx: TxState, pow: PowAnswers, candidate: int)
    requires tx.dFG >= 1 && (pow.tip.Some? ==> candidate == pow.tip.value.height + 1 - tx.dFG)
    ensures LeaderPropose(tx, pow).Some? <==>
              && LeaderAnswered(tx, pow)
              && FinalizedHeight(tx, pow).value < candidate
              && candidate in pow.byHeight && ForkFree(pow.tips.value, candidate) && pow.byHeight[candidate].hash.Some?
    ensures LeaderPropose(tx, pow).Some? ==>
              LeaderPropose(tx, pow).value ==
              tx.(pendingHash := Bytes(pow.byHeight[candidate].hash.value), pendingHeight := pow.byHeight[candidate].height)
  {
  }

  /** A follower accepts exactly the committed root and the active blocks with at least dFG confirmations, if it gets an answer. */
  lemma FollowerVerifyExact(tx: TxState, pow: PowAnswers, t: Tree, root: Slice)
    requires WellFormed(t) && TrueOf(pow, t)
    ensures FollowerVerify(tx, pow, root).Some? <==>
              || SameBytes(root, tx.committedHash)
              || (&& pow.tip.Some? && Content(root) in pow.byHash
                  && OnActive(t, Content(root)) && t.blocks[Content(root)].height + tx.dFG <= t.blocks[t.tip].height + 1)
  {
    if Content(root) in pow.byHash {
      assert pow.byHash[Content(root)] == HeaderOf(t, Content(root));
    }
  }

  /** A proposed block is accepted by every follower whose active chain extends the one the leader saw. */
  lemma LeaderProposalAccepted(tx: TxState, pow: PowAnswers, t: Tree, follower: TxState, seen: PowAnswers, u: Tree)
    requires WellFormed(t) && Reflects(pow, t) && tx.dFG >= 1 && LeaderPropose(tx, pow).Some?
    requires WellFormed(u) && Reflects(seen, u) && ExtendsActive(t, u) && follower.dFG == tx.dFG
    ensures var root := LeaderPropose(tx, pow).value.pendingHash;
            && FollowerVerify(follower, seen, root).Some?
            && FollowerVerify(follower, seen, root).value.pendingHash == root
  {
    ReflectsIsTrue(pow, t);
    var candidate := ProposedHeight(tx, pow, t);
    ActiveBlockAccepted(t, candidate, follower, seen, u);
  }

  lemma ProposedHeight(tx: TxState, pow: PowAnswers, t: Tree) returns (candidate: nat)
    requires WellFormed(t) && TrueOf(pow, t) && tx.dFG >= 1 && LeaderPropose(tx, pow).Some?
    ensures candidate + tx.dFG == t.blocks[t.tip].height + 1
    ensures LeaderPropose(tx, pow).value.pendingHash == Bytes(Ancestor(t, t.tip, candidate))
  {
    LeaderProposeExact(tx, pow, t, t.blocks[t.tip].height + 1 - tx.dFG);
    candidate := t.blocks[t.tip].height + 1 - tx.dFG;
  }

  lemma ActiveBlockAccepted(t: Tree, candidate: nat, follower: TxState, seen: PowAnswers, u: Tree)
    requires WellFormed(t) && WellFormed(u) && Reflects(seen, u) && ExtendsActive(t, u)
    requires candidate + follower.dFG <= t.blocks[t.tip].height + 1 && follower.dFG >= 1
    ensures var root := Bytes(Ancestor(t, t.tip, candidate));
            && FollowerVerify(follower, seen, root).Some?
            && FollowerVerify(follower, seen, root).value.pendingHash == root
  {
    assert Ancestor(u, u.tip, candidate) == Ancestor(t, t.tip, candidate);
    ReflectsIsTrue(seen, u);
    FollowerVerifyExact(follower, seen, u, Bytes(Ancestor(t, t.tip, candidate)));
  }
}
