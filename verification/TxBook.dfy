/**
 Calls on the transaction system kept in a book: which of them committed which record, how deep its PoW
 block was, and which blocks were finalized in which order.
 */
module TxBook {
  import opened Types
  import opened PowTypes
  import opened TxModel
  import opened RootChain
  import opened PowTree
  import opened FinalityRuns
  import opened Safety

  ghost predicate IsView(pow: PowAnswers, t: Tree) {
    PowTree.WellFormed(t) && TrueOf(pow, t)
  }

  /** The answers are true of some block tree. */
  ghost predicate HasView(pow: PowAnswers) {
    exists t :: IsView(pow, t)
  }

  ghost function ViewOf(pow: PowAnswers): Tree {
    if HasView(pow) then var t :| IsView(pow, t); t else Tree(map[], [], [])
  }

  // ---- traces ----

  /** A call with these answers, or of this certificate. */
  ghost predicate Allowed(e: TxEvent, pow: PowAnswers, uc: Option<Certificate>) {
    && !e.Reopen?
    && (IsQuery(e) ==> e.pow == pow && e.view == ViewOf(pow))
    && (e.Certify? ==> Some(e.uc) == uc)
  }

  /** The calls lead from t to r, ask with these answers only, and certify nothing but uc. */
  ghost predicate Traces(t: TxState, es: seq<TxEvent>, r: TxState, pow: PowAnswers, uc: Option<Certificate>) {
    t.dFG >= 1 && After(t, es) == r && forall i :: 0 <= i < |es| ==> Allowed(es[i], pow, uc)
  }

  lemma {:induction false} AfterConcat(t: TxState, a: seq<TxEvent>, b: seq<TxEvent>)
    requires t.dFG >= 1
    ensures After(t, a + b) == After(After(t, a), b)
    decreases |b|
  {
    if b == [] {
      assert a + b == a;
    } else {
      var rest := b[..|b| - 1];
      assert (a + b)[..|a + b| - 1] == a + rest;
      AfterConcat(t, a, rest);
    }
  }

  lemma TraceNone(t: TxState, pow: PowAnswers, uc: Option<Certificate>)
    requires t.dFG >= 1
    ensures Traces(t, [], t, pow, uc)
  {
  }

  lemma TraceOne(t: TxState, e: TxEvent, pow: PowAnswers, uc: Option<Certificate>)
    requires t.dFG >= 1 && Allowed(e, pow, uc)
    ensures Traces(t, [e], Apply(t, e), pow, uc)
  {
    assert [e][..0] == [];
    assert After(t, []) == t;
  }

  lemma TraceJoin(t: TxState, a: seq<TxEvent>, r: TxState, b: seq<TxEvent>, s: TxState, pow: PowAnswers, uc: Option<Certificate>)
    requires Traces(t, a, r, pow, uc) && Traces(r, b, s, pow, uc)
    ensures Traces(t, a + b, s, pow, uc)
  {
    AfterConcat(t, a, b);
  }

  // ---- every commit is one of the calls ----

  /** Call c commits record i, on top of the record before it. */
  ghost predicate CommitAt(t: TxState, es: seq<TxEvent>, c: nat, rc: RootChain, i: nat)
    requires t.dFG >= 1
  {
    && c < |es| && es[c].Certify? && 1 <= i < |rc.records| && es[c].uc.ir == rc.records[i]
    && Commit(After(t, es[..c]), es[c].uc).Some?
    && SameBytes(After(t, es[..c]).committedHash, PreviousState(rc, i))
  }

  ghost predicate HasCommit(t: TxState, es: seq<TxEvent>, rc: RootChain, i: nat)
    requires t.dFG >= 1
  {
    exists c: nat :: CommitAt(t, es, c, rc, i)
  }

  // ---- roots that were asked for ----

  /** Call c finds the root on the active chain with the dFG confirmations then required. */
  ghost predicate FoundAt(start: TxState, calls: seq<TxEvent>, c: nat, root: Slice)
    requires start.dFG >= 1
  {
    c < |calls| && IsQuery(calls[c]) && Deep(calls[c].view, After(start, calls[..c]).dFG, root)
  }

  /** One of the calls finds the hash deep. */
  ghost predicate Found(start: TxState, calls: seq<TxEvent>, hash: Hash)
    requires start.dFG >= 1
  {
    exists c: nat, root :: Content(root) == hash && FoundAt(start, calls, c, root)
  }

  lemma FoundStays(start: TxState, a: seq<TxEvent>, b: seq<TxEvent>, hash: Hash)
    requires start.dFG >= 1 && Found(start, a, hash)
    ensures Found(start, a + b, hash)
  {
    var c: nat, root :| Content(root) == hash && FoundAt(start, a, c, root);
    assert (a + b)[..c] == a[..c];
    assert FoundAt(start, a + b, c, root);
  }

  lemma FoundShifts(start: TxState, a: seq<TxEvent>, b: seq<TxEvent>, hash: Hash)
    requires start.dFG >= 1 && Found(After(start, a), b, hash)
    ensures Found(start, a + b, hash)
  {
    var c: nat, root :| Content(root) == hash && FoundAt(After(start, a), b, c, root);
    assert (a + b)[..|a| + c] == a + b[..c];
    AfterConcat(start, a, b[..c]);
    assert FoundAt(start, a + b, |a| + c, root);
  }

  /** The hash is the committed one, or found deep by one of the calls. */
  ghost predicate Justified(start: TxState, calls: seq<TxEvent>, hash: Slice, committed: Slice)
    requires start.dFG >= 1
  {
    SameBytes(hash, committed) || Found(start, calls, Content(hash))
  }

  lemma JustifiedStays(start: TxState, a: seq<TxEvent>, b: seq<TxEvent>, hash: Slice, committed: Slice)
    requires start.dFG >= 1 && Justified(start, a, hash, committed)
    ensures Justified(start, a + b, hash, committed)
  {
    if !SameBytes(hash, committed) {
      FoundStays(start, a, b, Content(hash));
    }
  }

  /** Call c asks for the hash with success, on top of this committed hash. */
  ghost predicate AskedAt(t: TxState, es: seq<TxEvent>, c: nat, hash: Slice, committed: Slice)
    requires t.dFG >= 1
  {
    && c < |es|
    && var before := After(t, es[..c]);
       Passes(before, es[c]) && SameBytes(Apply(before, es[c]).pendingHash, hash) && SameBytes(before.committedHash, committed)
  }

  ghost predicate Asked(t: TxState, es: seq<TxEvent>, hash: Slice, committed: Slice)
    requires t.dFG >= 1
  {
    exists c: nat :: AskedAt(t, es, c, hash, committed)
  }

  lemma AskedIsJustified(start: TxState, calls: seq<TxEvent>, es: seq<TxEvent>, hash: Slice, committed: Slice)
    requires start.dFG >= 1 && Truthful(es) && Asked(After(start, calls), es, hash, committed)
    ensures Justified(start, calls + es, hash, committed)
  {
    var t := After(start, calls);
    var c: nat :| AskedAt(t, es, c, hash, committed);
    var before := After(t, es[..c]);
    PassesIfDeep(before, es[c]);
    if !SameBytes(hash, committed) {
      assert FoundAt(t, es, c, Apply(before, es[c]).pendingHash);
      FoundShifts(start, calls, es, Content(hash));
    }
  }

  // ---- the book ----

  /** The record leaves the state as it was, or its hash was found deep by one of the calls. */
  ghost predicate RecordJustified(start: TxState, calls: seq<TxEvent>, rc: RootChain, i: nat)
    requires start.dFG >= 1
  {
    1 <= i < |rc.records| && Justified(start, calls, rc.records[i].hash, PreviousState(rc, i))
  }

  /** One of the calls commits the record; with blocks left in the store a restart may have done so. */
  ghost predicate Covered(start: TxState, calls: seq<TxEvent>, rc: RootChain, i: nat, exact: bool)
    requires start.dFG >= 1
  {
    HasCommit(start, calls, rc, i) || (!exact && RecordJustified(start, calls, rc, i))
  }

  ghost predicate Accounted(t: TxState, es: seq<TxEvent>, rc: RootChain, k: nat, exact: bool)
    requires t.dFG >= 1
  {
    forall i: nat {:trigger Covered(t, es, rc, i, exact)} :: 1 <= i <= k ==> Covered(t, es, rc, i, exact)
  }

  lemma CommitStays(t: TxState, a: seq<TxEvent>, b: seq<TxEvent>, rc: RootChain, i: nat)
    requires t.dFG >= 1 && HasCommit(t, a, rc, i)
    ensures HasCommit(t, a + b, rc, i)
  {
    var c: nat :| CommitAt(t, a, c, rc, i);
    assert (a + b)[..c] == a[..c];
    assert CommitAt(t, a + b, c, rc, i);
  }

  lemma AccountStays(t: TxState, a: seq<TxEvent>, b: seq<TxEvent>, rc: RootChain, k: nat, exact: bool)
    requires t.dFG >= 1 && Accounted(t, a, rc, k, exact)
    ensures Accounted(t, a + b, rc, k, exact)
  {
    forall i: nat | 1 <= i <= k
      ensures Covered(t, a + b, rc, i, exact)
    {
      assert Covered(t, a, rc, i, exact);
      if HasCommit(t, a, rc, i) {
        CommitStays(t, a, b, rc, i);
      } else {
        JustifiedStays(t, a, b, rc.records[i].hash, PreviousState(rc, i));
      }
    }
  }

  lemma CommitShifts(t: TxState, a: seq<TxEvent>, b: seq<TxEvent>, rc: RootChain, i: nat)
    requires t.dFG >= 1 && HasCommit(After(t, a), b, rc, i)
    ensures HasCommit(t, a + b, rc, i)
  {
    var c: nat :| CommitAt(After(t, a), b, c, rc, i);
    assert (a + b)[..|a| + c] == a + b[..c];
    AfterConcat(t, a, b[..c]);
    assert CommitAt(t, a + b, |a| + c, rc, i);
  }

  /** Calls that certify one certificate only commit that one, on the hash that was committed before. */
  lemma {:induction false} FirstCommit(t: TxState, es: seq<TxEvent>, r: TxState, pow: PowAnswers, uc: Option<Certificate>)
    requires Traces(t, es, r, pow, uc)
    ensures r.committedUC == t.committedUC != uc ==> r.committedHash == t.committedHash
    ensures r.committedUC != t.committedUC ==>
              && uc.Some? && r.committedUC == uc
              && exists c: nat :: CommitsFirst(t, es, c, uc.value)
    decreases |es|
  {
    if es != [] {
      var before, e := es[..|es| - 1], es[|es| - 1];
      var m := After(t, before);
      FirstCommit(t, before, m, pow, uc);
      assert Allowed(e, pow, uc);
      if m.committedUC != t.committedUC {
        var c: nat :| CommitsFirst(t, before, c, uc.value);
        assert es[..c] == before[..c];
        assert CommitsFirst(t, es, c, uc.value);
      } else if r.committedUC != t.committedUC {
        assert CommitsFirst(t, es, |before|, uc.value);
      }
    }
  }

  ghost predicate CommitsFirst(t: TxState, es: seq<TxEvent>, c: nat, uc: Certificate)
    requires t.dFG >= 1
  {
    c < |es| && es[c] == Certify(uc) && Commit(After(t, es[..c]), uc).Some? && After(t, es[..c]).committedHash == t.committedHash
  }

  lemma CallsAreTruthful(t: TxState, es: seq<TxEvent>, r: TxState, pow: PowAnswers, uc: Option<Certificate>)
    requires Traces(t, es, r, pow, uc) && HasView(pow)
    ensures Truthful(es)
  {
    assert IsView(pow, ViewOf(pow));
    forall i | 0 <= i < |es|
      ensures TruthfulEvent(es[i])
    {
      assert Allowed(es[i], pow, uc);
    }
  }

  /** The hash if it is another one. */
  function Change(before: Slice, after: Slice): seq<Hash> {
    if SameBytes(after, before) then [] else [Content(after)]
  }

  /** The state hashes of the records 1..k, each different from the one before. */
  ghost function Changes(rc: RootChain, k: nat): seq<Hash>
    requires k < |rc.records|
  {
    if k == 0 then [] else Changes(rc, k - 1) + Change(PreviousState(rc, k), rc.records[k].hash)
  }

  lemma {:induction false} FinalizedConcat(t: TxState, a: seq<TxEvent>, b: seq<TxEvent>)
    requires t.dFG >= 1
    ensures Finalized(t, a + b) == Finalized(t, a) + Finalized(After(t, a), b)
    decreases |b|
  {
    if b == [] {
      assert a + b == a;
    } else {
      var rest := b[..|b| - 1];
      assert (a + b)[..|a + b| - 1] == a + rest;
      FinalizedConcat(t, a, rest);
      AfterConcat(t, a, rest);
    }
  }

  /** Calls that certify one certificate only finalize at most its hash, once. */
  lemma {:induction false} OneChange(t: TxState, es: seq<TxEvent>, r: TxState, pow: PowAnswers, uc: Option<Certificate>)
    requires Traces(t, es, r, pow, uc)
    ensures Finalized(t, es) == Change(t.committedHash, r.committedHash)
    ensures SameBytes(r.committedHash, t.committedHash) || (uc.Some? && SameBytes(r.committedHash, uc.value.ir.hash))
    decreases |es|
  {
    if es != [] {
      var before, e := es[..|es| - 1], es[|es| - 1];
      OneChange(t, before, After(t, before), pow, uc);
      assert Allowed(e, pow, uc);
    }
  }

  /** The calls lead to t, account for each of the records 1..k, finalize their blocks in order, and every query was answered truthfully. */
  ghost predicate Entered(rc: RootChain, start: TxState, calls: seq<TxEvent>, t: TxState, k: nat, exact: bool) {
    && start.dFG >= 1 && k < |rc.records|
    && After(start, calls) == t && Accounted(start, calls, rc, k, exact) && Truthful(calls)
    && Finalized(start, calls) == Changes(rc, k)
  }

  lemma TruthfulJoin(a: seq<TxEvent>, b: seq<TxEvent>)
    requires Truthful(a) && Truthful(b)
    ensures Truthful(a + b)
  {
  }

  /** More calls are entered, which account for the next record if the node has moved on. */
  lemma EnterCalls(rc: RootChain, start: TxState, calls: seq<TxEvent>, t: TxState, k: nat, es: seq<TxEvent>, r: TxState, k': nat, exact: bool)
    requires Entered(rc, start, calls, t, k, exact) && After(t, es) == r && Truthful(es)
    requires k' == k || (k' == k + 1 < |rc.records| && Covered(start, calls + es, rc, k + 1, exact))
    requires Finalized(t, es) == Change(t.committedHash, r.committedHash)
    requires SameBytes(t.committedHash, PreviousState(rc, k + 1)) && SameBytes(r.committedHash, PreviousState(rc, k' + 1))
    ensures Entered(rc, start, calls + es, r, k', exact)
  {
    AfterConcat(start, calls, es);
    AccountGrows(start, calls, es, rc, k, k', exact);
    TruthfulJoin(calls, es);
    FinalizedConcat(start, calls, es);
    ChangesGrow(rc, k, t.committedHash, k', r.committedHash);
  }

  lemma AccountGrows(t: TxState, a: seq<TxEvent>, b: seq<TxEvent>, rc: RootChain, k: nat, k': nat, exact: bool)
    requires t.dFG >= 1 && Accounted(t, a, rc, k, exact) && (k' == k || (k' == k + 1 && Covered(t, a + b, rc, k + 1, exact)))
    ensures Accounted(t, a + b, rc, k', exact)
  {
    AccountStays(t, a, b, rc, k, exact);
  }

  lemma ChangesGrow(rc: RootChain, k: nat, before: Slice, k': nat, after: Slice)
    requires k <= k' <= k + 1 && k' < |rc.records|
    requires SameBytes(before, PreviousState(rc, k + 1)) && SameBytes(after, PreviousState(rc, k' + 1))
    ensures Changes(rc, k') == Changes(rc, k) + Change(before, after)
  {
  }

  // ---- depth of what was committed ----

  /** Among the calls, a commit of this round and hash, pending since it was found deep. */
  ghost predicate FinalizedDeep(start: TxState, calls: seq<TxEvent>, round: U64, hash: Hash)
    requires start.dFG >= 1
  {
    exists c: nat, i: nat, root ::
      && c < |calls| && calls[c].Certify? && calls[c].uc.ir.round == round && Content(calls[c].uc.ir.hash) == hash
      && Content(root) == hash && PendingDeepSince(start, calls[..c], i, root)
  }

  lemma RecordIsDeep(rc: RootChain, start: TxState, calls: seq<TxEvent>, i: nat)
    requires start.dFG >= 1 && start.pendingHash == Nil && Truthful(calls) && HasCommit(start, calls, rc, i)
    requires var ir := rc.records[i]; Content(ir.hash) != [] && !SameBytes(ir.hash, PreviousState(rc, i))
    ensures FinalizedDeep(start, calls, rc.records[i].round, Content(rc.records[i].hash))
  {
    var c: nat :| CommitAt(start, calls, c, rc, i);
    assert Truthful(calls[..c]);
    DepthSafety(start, calls[..c], calls[c].uc);
    var j: nat, root :| SameBytes(root, calls[c].uc.ir.hash) && PendingDeepSince(start, calls[..c], j, root);
  }

  lemma DeepIsFound(start: TxState, calls: seq<TxEvent>, round: U64, hash: Hash)
    requires start.dFG >= 1 && FinalizedDeep(start, calls, round, hash)
    ensures Found(start, calls, hash)
  {
    var c: nat, i: nat, root :|
      && c < |calls| && calls[c].Certify? && calls[c].uc.ir.round == round && Content(calls[c].uc.ir.hash) == hash
      && Content(root) == hash && PendingDeepSince(start, calls[..c], i, root);
    assert calls[..c][..i] == calls[..i];
    assert FoundAt(start, calls, i, root);
  }

  lemma CoveredIsDeep(rc: RootChain, start: TxState, calls: seq<TxEvent>, i: nat, exact: bool)
    requires start.dFG >= 1 && start.pendingHash == Nil && Truthful(calls) && Covered(start, calls, rc, i, exact) && 1 <= i < |rc.records|
    requires var ir := rc.records[i]; Content(ir.hash) != [] && !SameBytes(ir.hash, PreviousState(rc, i))
    ensures var ir := rc.records[i];
            Found(start, calls, Content(ir.hash)) && (exact ==> FinalizedDeep(start, calls, ir.round, Content(ir.hash)))
  {
    if HasCommit(start, calls, rc, i) {
      RecordIsDeep(rc, start, calls, i);
      DeepIsFound(start, calls, rc.records[i].round, Content(rc.records[i].hash));
    }
  }
}
