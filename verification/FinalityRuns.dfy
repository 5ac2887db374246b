/** Depth safety and ancestry of finalized PoW blocks over every run of the transaction system. */
module FinalityRuns {
  import opened Types
  import opened PowTypes
  import opened TxModel
  import opened PowTree

  /** What start-up restores: the configuration and the certificate of the last stored block. */
  datatype Saved = Saved(conf: ShardConf, uc: Certificate)

  /**
   One call of the transaction system; `view` is the tree behind the answers the PoW node gives. Reopen
   is the start of a process: a new transaction system, restored from the store if that holds a block.
   */
  datatype TxEvent =
    | Propose(pow: PowAnswers, view: Tree)
    | Verify(pow: PowAnswers, view: Tree, root: Slice)
    | Undo
    | Certify(uc: Certificate)
    | Configure(conf: ShardConf)
    | Reopen(dFG: U64, saved: Option<Saved>, pow: PowAnswers)

  predicate IsQuery(e: TxEvent) {
    e.Propose? || e.Verify?
  }

  function Restart(dFG: U64, saved: Option<Saved>, pow: PowAnswers): Option<TxState> {
    if dFG == 0 then None
    else if saved.None? then Some(GenesisState(dFG)) else
    var configured := UpdateConfig(GenesisState(dFG), saved.value.conf);
    if configured.None? then None else RestoreState(configured.value, pow, saved.value.uc)
  }

  /** A call that fails leaves the state as it was. */
  function Apply(t: TxState, e: TxEvent): (r: TxState)
    requires t.dFG >= 1
    ensures r.dFG >= 1
  {
    var next :=
      match e
      case Propose(pow, _) => LeaderPropose(t, pow)
      case Verify(pow, _, root) => FollowerVerify(t, pow, root)
      case Undo => Some(Revert(t))
      case Certify(uc) => Commit(t, uc)
      case Configure(conf) => UpdateConfig(t, conf)
      case Reopen(dFG, saved, pow) => Restart(dFG, saved, pow);
    if next.Some? then next.value else t
  }

  function After(start: TxState, events: seq<TxEvent>): (t: TxState)
    requires start.dFG >= 1
    ensures t.dFG >= 1
  {
    if events == [] then start
    else Apply(After(start, events[..|events| - 1]), events[|events| - 1])
  }

  lemma AfterOne(start: TxState, events: seq<TxEvent>, e: TxEvent)
    requires start.dFG >= 1
    ensures After(start, events + [e]) == Apply(After(start, events), e)
  {
    assert (events + [e])[..|events|] == events;
  }

  // ---- depth ----

  /** The answers given to a query are true of a well-formed tree. */
  ghost predicate TruthfulEvent(e: TxEvent) {
    IsQuery(e) ==> WellFormed(e.view) && TrueOf(e.pow, e.view)
  }

  ghost predicate Truthful(events: seq<TxEvent>) {
    forall i :: 0 <= i < |events| ==> TruthfulEvent(events[i])
  }

  /** The root is on the active chain of the view with at least dFG confirmations. */
  ghost predicate Deep(view: Tree, dFG: U64, root: Slice) {
    && WellFormed(view)
    && OnActive(view, Content(root))
    && view.blocks[Content(root)].height + dFG <= view.blocks[view.tip].height + 1
  }

  ghost predicate PendingAt(start: TxState, events: seq<TxEvent>, j: nat, root: Slice)
    requires start.dFG >= 1
  {
    j <= |events| ==> After(start, events[..j]).pendingHash == root
  }

  /** Call i made the root pending, deep enough for the dFG in force at that call, and it has been pending ever since. */
  ghost predicate PendingDeepSince(start: TxState, events: seq<TxEvent>, i: nat, root: Slice)
    requires start.dFG >= 1
  {
    && i < |events|
    && IsQuery(events[i])
    && Deep(events[i].view, After(start, events[..i]).dFG, root)
    && forall j: nat {:trigger PendingAt(start, events, j, root)} :: i < j ==> PendingAt(start, events, j, root)
  }

  ghost predicate PendingJustified(start: TxState, events: seq<TxEvent>)
    requires start.dFG >= 1
  {
    var t := After(start, events);
    || t.pendingHash == Nil
    || SameBytes(t.pendingHash, t.committedHash)
    || exists i :: PendingDeepSince(start, events, i, t.pendingHash)
  }

  /** The query succeeds. */
  predicate Passes(t: TxState, e: TxEvent)
    requires t.dFG >= 1
  {
    || (e.Propose? && LeaderPropose(t, e.pow).Some?)
    || (e.Verify? && FollowerVerify(t, e.pow, e.root).Some?)
  }

  lemma ProposedIsDeep(t: TxState, pow: PowAnswers, view: Tree)
    requires t.dFG >= 1 && WellFormed(view) && TrueOf(pow, view) && LeaderPropose(t, pow).Some?
    ensures Deep(view, t.dFG, LeaderPropose(t, pow).value.pendingHash)
  {
    var candidate := view.blocks[view.tip].height + 1 - t.dFG;
    LeaderProposeExact(t, pow, view, candidate);
    AncestorOfAncestor(view, view.tip, candidate, candidate);
  }

  /** A query that succeeds makes the committed block pending, or one that is deep. */
  lemma PassesIfDeep(t: TxState, e: TxEvent)
    requires t.dFG >= 1 && TruthfulEvent(e) && Passes(t, e)
    ensures var r := Apply(t, e);
            r.committedHash == t.committedHash && (SameBytes(r.pendingHash, t.committedHash) || Deep(e.view, t.dFG, r.pendingHash))
  {
    if e.Propose? {
      ProposedIsDeep(t, e.pow, e.view);
    }
  }

  lemma QueryIsDeep(t: TxState, e: TxEvent)
    requires t.dFG >= 1 && TruthfulEvent(e) && IsQuery(e) && Apply(t, e) != t
    ensures var r := Apply(t, e);
            r.committedHash == t.committedHash && (SameBytes(r.pendingHash, t.committedHash) || Deep(e.view, t.dFG, r.pendingHash))
  {
    PassesIfDeep(t, e);
  }

  /** The root stays pending through a call that does not change it. */
  lemma StillPending(start: TxState, events: seq<TxEvent>, e: TxEvent, i: nat, root: Slice)
    requires start.dFG >= 1 && PendingDeepSince(start, events, i, root)
    requires Apply(After(start, events), e).pendingHash == root
    ensures PendingDeepSince(start, events + [e], i, root)
  {
    var more := events + [e];
    assert more[..i] == events[..i];
    forall j: nat | i < j
      ensures PendingAt(start, more, j, root)
    {
      if j <= |events| {
        assert more[..j] == events[..j];
        assert PendingAt(start, events, j, root);
      } else if j == |more| {
        assert more[..j] == more;
        AfterOne(start, events, e);
      }
    }
  }

  /** A query that changes the pending block makes one pending that is deep. */
  lemma QueryJustifies(start: TxState, events: seq<TxEvent>, e: TxEvent)
    requires start.dFG >= 1 && TruthfulEvent(e) && IsQuery(e) && Apply(After(start, events), e) != After(start, events)
    ensures PendingJustified(start, events + [e])
  {
    var t, more := After(start, events), events + [e];
    QueryIsDeep(t, e);
    AfterOne(start, events, e);
    var root := After(start, more).pendingHash;
    if !SameBytes(root, t.committedHash) {
      assert more[..|events|] == events;
      forall j: nat | |events| < j
        ensures PendingAt(start, more, j, root)
      {
        if j == |more| {
          assert more[..j] == more;
        }
      }
      assert PendingDeepSince(start, more, |events|, root);
    }
  }

  lemma OtherCallJustifies(start: TxState, events: seq<TxEvent>, e: TxEvent)
    requires start.dFG >= 1 && PendingJustified(start, events)
    requires IsQuery(e) ==> Apply(After(start, events), e) == After(start, events)
    ensures PendingJustified(start, events + [e])
  {
    var t := After(start, events);
    var r := Apply(t, e);
    AfterOne(start, events, e);
    if r.pendingHash != Nil && !SameBytes(r.pendingHash, r.committedHash) {
      assert r.pendingHash == t.pendingHash && r.committedHash == t.committedHash;
      var i :| PendingDeepSince(start, events, i, t.pendingHash);
      StillPending(start, events, e, i, t.pendingHash);
    }
  }

  /** Whatever is pending is the committed block, or has been pending since a call that found it deep enough. */
  lemma {:induction false} PendingIsJustified(start: TxState, events: seq<TxEvent>)
    requires start.dFG >= 1 && start.pendingHash == Nil && Truthful(events)
    ensures PendingJustified(start, events)
  {
    if events != [] {
      var before, e := events[..|events| - 1], events[|events| - 1];
      assert events == before + [e];
      PendingIsJustified(start, before);
      if IsQuery(e) && Apply(After(start, before), e) != After(start, before) {
        QueryJustifies(start, before, e);
      } else {
        OtherCallJustifies(start, before, e);
      }
    }
  }

  /**
   Depth safety: a newly certified PoW block has been pending since a call at which it was on the active
   chain with at least the dFG confirmations required at that moment.
   */
  lemma DepthSafety(start: TxState, events: seq<TxEvent>, uc: Certificate)
    requires start.dFG >= 1 && start.pendingHash == Nil && Truthful(events)
    requires Commit(After(start, events), uc).Some?
    requires !SameBytes(uc.ir.hash, After(start, events).committedHash) && Content(uc.ir.hash) != []
    ensures exists i, root :: SameBytes(root, uc.ir.hash) && PendingDeepSince(start, events, i, root)
  {
    PendingIsJustified(start, events);
  }

  /** With nothing pending, exactly a certificate of an empty hash is committed, and no PoW block counts as finalized then. */
  lemma EmptyHashForgets(t: TxState, uc: Certificate, pow: PowAnswers)
    requires Revert(t) == t
    ensures Commit(t, uc).Some? <==> Content(uc.ir.hash) == []
    ensures Commit(t, uc).Some? ==> FinalizedHeight(Commit(t, uc).value, pow) == Some(0)
  {
  }

  // ---- ancestry ----

  /** All views are parts of one tree of blocks. */
  ghost predicate PartOf(view: Tree, all: Tree) {
    && view.genesis == all.genesis
    && view.blocks.Keys <= all.blocks.Keys
    && forall h :: h in view.blocks ==> view.blocks[h] == all.blocks[h]
  }

  lemma {:induction false} AncestorInPart(view: Tree, all: Tree, h: Hash, height: nat)
    requires WellFormed(view) && WellFormed(all) && PartOf(view, all)
    requires h in view.blocks && height <= view.blocks[h].height
    ensures Ancestor(view, h, height) == Ancestor(all, h, height)
    decreases view.blocks[h].height
  {
    if view.blocks[h].height == height {
    } else {
      AncestorInPart(view, all, view.blocks[h].parent, height);
    }
  }

  /** h is a proper ancestor of d. */
  ghost predicate Below(all: Tree, h: Hash, d: Hash)
    requires WellFormed(all)
  {
    && h in all.blocks && d in all.blocks
    && all.blocks[h].height < all.blocks[d].height
    && Ancestor(all, d, all.blocks[h].height) == h
  }

  lemma BelowIsTransitive(all: Tree, a: Hash, b: Hash, c: Hash)
    requires WellFormed(all) && Below(all, a, b) && Below(all, b, c)
    ensures Below(all, a, c)
  {
    AncestorOfAncestor(all, c, all.blocks[b].height, all.blocks[a].height);
  }

  /** Of two blocks on the active chain of a view the lower one is an ancestor of the higher one. */
  lemma ActiveBlocksAreOnOneBranch(view: Tree, all: Tree, a: Hash, b: Hash)
    requires WellFormed(view) && WellFormed(all) && PartOf(view, all)
    requires OnActive(view, a) && OnActive(view, b) && view.blocks[a].height < view.blocks[b].height
    ensures Below(all, a, b)
  {
    AncestorOfAncestor(view, view.tip, view.blocks[b].height, view.blocks[a].height);
    AncestorInPart(view, all, b, view.blocks[a].height);
  }

  /** The hash that the call newly makes the committed one, if it does. */
  function Moved(t: TxState, e: TxEvent): seq<Hash>
    requires t.dFG >= 1
  {
    var r := Apply(t, e);
    if SameBytes(r.committedHash, t.committedHash) then [] else [Content(r.committedHash)]
  }

  /** Committed hashes, oldest first, each different from the one before. */
  function Finalized(start: TxState, events: seq<TxEvent>): seq<Hash>
    requires start.dFG >= 1
  {
    if events == [] then [] else
    var before := events[..|events| - 1];
    Finalized(start, before) + Moved(After(start, before), events[|events| - 1])
  }

  /** The answers, as far as there are any, are true of this part of the tree, and the committed block is active in it. */
  ghost predicate SeenIn(all: Tree, t: TxState, pow: PowAnswers, view: Tree) {
    && WellFormed(view) && TrueOf(pow, view) && PartOf(view, all)
    && (Content(t.committedHash) != [] ==> OnActive(view, Content(t.committedHash)))
  }

  /** The answers to a query are those of a part of the tree in which the committed block is active; a restart restores what was committed. */
  ghost predicate ChainStep(all: Tree, t: TxState, e: TxEvent)
    requires t.dFG >= 1
  {
    && (IsQuery(e) ==> exists view :: SeenIn(all, t, e.pow, view))
    && (e.Reopen? ==> SameBytes(Apply(t, e).committedHash, t.committedHash))
  }

  ghost predicate ChainRun(all: Tree, start: TxState, events: seq<TxEvent>)
    requires start.dFG >= 1
  {
    events == [] ||
    (var before := events[..|events| - 1];
     ChainRun(all, start, before) && ChainStep(all, After(start, before), events[|events| - 1]))
  }

  /** The call commits no other block than before, or a higher one. */
  ghost predicate RisingStep(all: Tree, t: TxState, e: TxEvent)
    requires t.dFG >= 1
  {
    var a, b := Content(t.committedHash), Content(Apply(t, e).committedHash);
    || a == b
    || (b in all.blocks && (a != [] ==> a in all.blocks && all.blocks[a].height < all.blocks[b].height))
  }

  ghost predicate RisingRun(all: Tree, start: TxState, events: seq<TxEvent>)
    requires start.dFG >= 1
  {
    events == [] ||
    (var before := events[..|events| - 1];
     RisingRun(all, start, before) && RisingStep(all, After(start, before), events[|events| - 1]))
  }

  ghost predicate Ascending(all: Tree, log: seq<Hash>)
    requires WellFormed(all)
  {
    forall i, j :: 0 <= i < j < |log| ==> Below(all, log[i], log[j])
  }

  /** b is known, and an ancestor-to-be if it is higher than a. */
  ghost predicate OneBranch(all: Tree, a: Hash, b: Hash)
    requires WellFormed(all)
  {
    a in all.blocks && b in all.blocks && (all.blocks[a].height < all.blocks[b].height ==> Below(all, a, b))
  }

  /** The log is one branch, its end is the committed block, and the pending block is that block or on one branch with it. */
  ghost predicate LogMatches(all: Tree, t: TxState, log: seq<Hash>)
    requires WellFormed(all)
  {
    && Ascending(all, log)
    && Content(t.committedHash) == (if log == [] then [] else log[|log| - 1])
    && (log != [] ==> log[|log| - 1] in all.blocks)
    && (t.pendingHash == Nil || SameBytes(t.pendingHash, t.committedHash) || PendingFits(all, log, Content(t.pendingHash)))
  }

  ghost predicate PendingFits(all: Tree, log: seq<Hash>, h: Hash)
    requires WellFormed(all)
  {
    h in all.blocks && (log != [] ==> OneBranch(all, log[|log| - 1], h))
  }

  /** What a query makes pending is the committed block, or an active one. */
  lemma QueryFits(all: Tree, t: TxState, log: seq<Hash>, e: TxEvent)
    requires WellFormed(all) && [] !in all.blocks && t.dFG >= 1 && ChainStep(all, t, e) && LogMatches(all, t, log) && IsQuery(e)
    ensures LogMatches(all, Apply(t, e), log) && Moved(t, e) == []
  {
    var r := Apply(t, e);
    var view :| SeenIn(all, t, e.pow, view);
    if r != t {
      assert Apply(t, e.(view := view)) == r;
      QueryIsDeep(t, e.(view := view));
      var h := Content(r.pendingHash);
      if !SameBytes(r.pendingHash, t.committedHash) && log != [] {
        var last := log[|log| - 1];
        assert OnActive(view, last) && OnActive(view, h);
        if view.blocks[last].height < view.blocks[h].height {
          ActiveBlocksAreOnOneBranch(view, all, last, h);
        }
      }
    }
  }

  lemma ExtendLog(all: Tree, log: seq<Hash>, h: Hash)
    requires WellFormed(all) && Ascending(all, log)
    requires log != [] ==> Below(all, log[|log| - 1], h)
    ensures Ascending(all, log + [h])
  {
    forall i | 0 <= i < |log|
      ensures Below(all, log[i], h)
    {
      if i < |log| - 1 {
        BelowIsTransitive(all, log[i], log[|log| - 1], h);
      }
    }
  }

  /** A step keeps the log one ascending branch if and only if it commits nothing lower than before. */
  lemma StepAscendsIffRising(all: Tree, t: TxState, log: seq<Hash>, e: TxEvent)
    requires WellFormed(all) && [] !in all.blocks && t.dFG >= 1 && ChainStep(all, t, e) && LogMatches(all, t, log)
    ensures Ascending(all, log + Moved(t, e)) <==> RisingStep(all, t, e)
    ensures RisingStep(all, t, e) ==> LogMatches(all, Apply(t, e), log + Moved(t, e))
  {
    if IsQuery(e) {
      QueryFits(all, t, log, e);
    }
    if Moved(t, e) == [] {
      assert log + Moved(t, e) == log;
    } else {
      CommitAscendsIffRising(all, t, log, e);
    }
  }

  lemma CommitAscendsIffRising(all: Tree, t: TxState, log: seq<Hash>, e: TxEvent)
    requires WellFormed(all) && [] !in all.blocks && t.dFG >= 1 && LogMatches(all, t, log)
    requires e.Certify? && Moved(t, e) != []
    ensures Ascending(all, log + Moved(t, e)) <==> RisingStep(all, t, e)
    ensures RisingStep(all, t, e) ==> LogMatches(all, Apply(t, e), log + Moved(t, e))
  {
    var h := Content(Apply(t, e).committedHash);
    var more := log + [h];
    assert Moved(t, e) == [h] && h == Content(t.pendingHash);
    if RisingStep(all, t, e) {
      ExtendLog(all, log, h);
    }
    if Ascending(all, more) && log != [] {
      assert Below(all, more[|log| - 1], more[|log|]);
    }
  }

  /**
   Finalized blocks form a strictly ascending chain of ancestors if and only if no commit goes to a lower
   block, for leaders, followers and recovering nodes alike, as long as finalized blocks stay active.
   */
  lemma {:induction false} FinalizedAscendIff(all: Tree, start: TxState, events: seq<TxEvent>)
    requires WellFormed(all) && [] !in all.blocks && start.dFG >= 1 && start.pendingHash == Nil && Content(start.committedHash) == []
    requires ChainRun(all, start, events)
    ensures Ascending(all, Finalized(start, events)) <==> RisingRun(all, start, events)
    ensures RisingRun(all, start, events) ==> LogMatches(all, After(start, events), Finalized(start, events))
  {
    if events != [] {
      var before, e := events[..|events| - 1], events[|events| - 1];
      FinalizedAscendIff(all, start, before);
      var t, log := After(start, before), Finalized(start, before);
      if Ascending(all, log) {
        StepAscendsIffRising(all, t, log, e);
      } else {
        LongerDoesNotAscend(all, log, Moved(t, e));
      }
    }
  }

  lemma LongerDoesNotAscend(all: Tree, log: seq<Hash>, more: seq<Hash>)
    requires WellFormed(all) && !Ascending(all, log)
    ensures !Ascending(all, log + more)
  {
    var i, j :| 0 <= i < j < |log| && !Below(all, log[i], log[j]);
    assert (log + more)[i] == log[i] && (log + more)[j] == log[j];
  }

  // ---- which calls rise ----

  /** The follower's root is the committed one or higher; a certificate does not forget the committed block. */
  ghost predicate HigherStep(all: Tree, t: TxState, e: TxEvent) {
    var last := Content(t.committedHash);
    && (e.Verify? && last != [] && Content(e.root) in all.blocks && last in all.blocks ==>
          Content(e.root) == last || all.blocks[last].height < all.blocks[Content(e.root)].height)
    && (e.Certify? ==> Content(e.uc.ir.hash) != [] || last == [])
  }

  ghost predicate HigherRun(all: Tree, start: TxState, events: seq<TxEvent>)
    requires start.dFG >= 1
  {
    events == [] ||
    (var before := events[..|events| - 1];
     HigherRun(all, start, before) && HigherStep(all, After(start, before), events[|events| - 1]))
  }

  /** The pending block is the committed one or higher. */
  ghost predicate PendingHigher(all: Tree, t: TxState) {
    var a, b := Content(t.committedHash), Content(t.pendingHash);
    t.pendingHash == Nil || a == b || (b in all.blocks && (a != [] ==> a in all.blocks && all.blocks[a].height < all.blocks[b].height))
  }

  /** A leader always proposes a higher block. */
  lemma ProposalIsHigher(all: Tree, t: TxState, e: TxEvent)
    requires WellFormed(all) && t.dFG >= 1 && e.Propose? && ChainStep(all, t, e) && PendingHigher(all, t)
    ensures PendingHigher(all, Apply(t, e))
  {
    var view :| SeenIn(all, t, e.pow, view);
    if LeaderPropose(t, e.pow).Some? {
      LeaderProposeExact(t, e.pow, view, view.blocks[view.tip].height + 1 - t.dFG);
    }
  }

  lemma HigherStepRises(all: Tree, t: TxState, e: TxEvent)
    requires WellFormed(all) && t.dFG >= 1 && ChainStep(all, t, e) && HigherStep(all, t, e) && PendingHigher(all, t)
    ensures RisingStep(all, t, e) && PendingHigher(all, Apply(t, e))
  {
    if e.Propose? {
      ProposalIsHigher(all, t, e);
    } else if e.Verify? {
      var view :| SeenIn(all, t, e.pow, view);
    }
  }

  lemma {:induction false} HigherRunRises(all: Tree, start: TxState, events: seq<TxEvent>)
    requires WellFormed(all) && start.dFG >= 1 && start.pendingHash == Nil && ChainRun(all, start, events) && HigherRun(all, start, events)
    ensures RisingRun(all, start, events) && PendingHigher(all, After(start, events))
  {
    if events != [] {
      var before := events[..|events| - 1];
      HigherRunRises(all, start, before);
      HigherStepRises(all, After(start, before), events[|events| - 1]);
    }
  }

  /**
   Finalized blocks form a strictly ascending chain of ancestors when leaders propose what they like,
   followers accept the committed block or higher ones, and finalized blocks stay active.
   */
  lemma FinalizedBlocksAscend(all: Tree, start: TxState, events: seq<TxEvent>)
    requires WellFormed(all) && [] !in all.blocks && start.dFG >= 1 && start.pendingHash == Nil && Content(start.committedHash) == []
    requires ChainRun(all, start, events) && HigherRun(all, start, events)
    ensures var log := Finalized(start, events);
            forall i, j :: 0 <= i < j < |log| ==> Below(all, log[i], log[j])
  {
    HigherRunRises(all, start, events);
    FinalizedAscendIff(all, start, events);
  }

  /** A root that a follower accepts and sees certified keeps the log ascending if and only if it is the committed one or higher. */
  lemma FollowerAscendsIff(all: Tree, t: TxState, log: seq<Hash>, pow: PowAnswers, view: Tree, root: Slice, uc: Certificate)
    requires WellFormed(all) && [] !in all.blocks && t.dFG >= 1 && LogMatches(all, t, log) && Content(t.committedHash) != []
    requires ChainStep(all, t, Verify(pow, view, root)) && FollowerVerify(t, pow, root).Some? && SameBytes(uc.ir.hash, root)
    ensures var verified := Apply(t, Verify(pow, view, root));
            && Commit(verified, uc).Some?
            && (Ascending(all, log + Moved(verified, Certify(uc))) <==>
                  || SameBytes(root, t.committedHash)
                  || (Content(root) in all.blocks && all.blocks[Content(t.committedHash)].height < all.blocks[Content(root)].height))
  {
    var e := Verify(pow, view, root);
    QueryFits(all, t, log, e);
    StepAscendsIffRising(all, Apply(t, e), log, Certify(uc));
  }

  /** The calls of a follower that is led up to one block and back to a lower one. */
  function UpAndBack(pow: PowAnswers, view: Tree, high: Certificate, low: Certificate): seq<TxEvent> {
    Taking(Taking([], pow, view, high), pow, view, low)
  }

  /** The calls of a follower that verifies a block and sees it certified. */
  function Taking(events: seq<TxEvent>, pow: PowAnswers, view: Tree, uc: Certificate): seq<TxEvent> {
    events + [Verify(pow, view, uc.ir.hash)] + [Certify(uc)]
  }

  /** A follower that has finalized a block accepts and commits a lower active block after it. */
  lemma FollowerGoesBack(pow: PowAnswers, view: Tree, dFG: U64, high: Certificate, low: Certificate)
    requires WellFormed(view) && [] !in view.blocks && Reflects(pow, view) && dFG >= 1
    requires Deep(view, dFG, high.ir.hash) && OnActive(view, Content(low.ir.hash))
    requires view.blocks[Content(low.ir.hash)].height < view.blocks[Content(high.ir.hash)].height
    ensures var events := UpAndBack(pow, view, high, low);
            && ChainRun(view, GenesisState(dFG), events)
            && Finalized(GenesisState(dFG), events) == [Content(high.ir.hash), Content(low.ir.hash)]
            && !Ascending(view, Finalized(GenesisState(dFG), events))
  {
    var start := GenesisState(dFG);
    assert LeadsTo(view, start, [], start, []);
    var t := VerifyAndCertify(pow, view, start, [], start, [], high);
    assert [] + [Content(high.ir.hash)] == [Content(high.ir.hash)];
    BackFrom(pow, view, start, Taking([], pow, view, high), t, Content(high.ir.hash), low);
  }

  lemma BackFrom(pow: PowAnswers, view: Tree, start: TxState, events: seq<TxEvent>, t: TxState, high: Hash, low: Certificate)
    requires WellFormed(view) && Reflects(pow, view) && LeadsTo(view, start, events, t, [high]) && Content(t.committedHash) == high != []
    requires OnActive(view, high) && Deep(view, t.dFG, low.ir.hash) && view.blocks[Content(low.ir.hash)].height < view.blocks[high].height
    ensures var more, log := Taking(events, pow, view, low), [high, Content(low.ir.hash)];
            ChainRun(view, start, more) && Finalized(start, more) == log && !Ascending(view, log)
  {
    var r := VerifyAndCertify(pow, view, start, events, t, [high], low);
    var log := [high, Content(low.ir.hash)];
    assert [high] + [Content(low.ir.hash)] == log;
    assert !Below(view, log[0], log[1]);
  }

  /** The calls lead to t with this log of finalized blocks. */
  ghost predicate LeadsTo(all: Tree, start: TxState, events: seq<TxEvent>, t: TxState, log: seq<Hash>) {
    start.dFG >= 1 && ChainRun(all, start, events) && After(start, events) == t && Finalized(start, events) == log
  }

  lemma OneMore(all: Tree, start: TxState, events: seq<TxEvent>, t: TxState, log: seq<Hash>, e: TxEvent)
    requires LeadsTo(all, start, events, t, log) && ChainStep(all, t, e)
    ensures LeadsTo(all, start, events + [e], Apply(t, e), log + Moved(t, e))
  {
    assert (events + [e])[..|events|] == events;
  }

  /** A follower verifies a deep active block and sees it certified. */
  lemma VerifyAndCertify(pow: PowAnswers, view: Tree, start: TxState, events: seq<TxEvent>, t: TxState, log: seq<Hash>, uc: Certificate)
    returns (r: TxState)
    requires WellFormed(view) && Reflects(pow, view) && LeadsTo(view, start, events, t, log)
    requires Content(t.committedHash) != [] ==> OnActive(view, Content(t.committedHash))
    requires Deep(view, t.dFG, uc.ir.hash) && !SameBytes(uc.ir.hash, t.committedHash)
    ensures LeadsTo(view, start, Taking(events, pow, view, uc), r, log + [Content(uc.ir.hash)])
    ensures r.committedHash == uc.ir.hash && r.dFG == t.dFG
  {
    var e, c := Verify(pow, view, uc.ir.hash), Certify(uc);
    TakesBlock(pow, view, t, uc);
    OneMore(view, start, events, t, log, e);
    OneMore(view, start, events + [e], Apply(t, e), log + [], c);
    r := Apply(Apply(t, e), c);
    assert log + [] == log;
  }

  lemma TakesBlock(pow: PowAnswers, view: Tree, t: TxState, uc: Certificate)
    requires WellFormed(view) && Reflects(pow, view) && t.dFG >= 1
    requires Content(t.committedHash) != [] ==> OnActive(view, Content(t.committedHash))
    requires Deep(view, t.dFG, uc.ir.hash) && !SameBytes(uc.ir.hash, t.committedHash)
    ensures var e, c := Verify(pow, view, uc.ir.hash), Certify(uc);
            && ChainStep(view, t, e) && Moved(t, e) == [] && ChainStep(view, Apply(t, e), c)
            && Moved(Apply(t, e), c) == [Content(uc.ir.hash)]
            && Apply(Apply(t, e), c).committedHash == uc.ir.hash && Apply(Apply(t, e), c).dFG == t.dFG
  {
    ReflectsIsTrue(pow, view);
    assert SeenIn(view, t, pow, view);
    FollowerVerifyExact(t, pow, view, uc.ir.hash);
  }
}
