/** The node's key-value store: entries in key order, holding blocks by round and at most one pending proposal. */
module BlockStore {
  import opened Types
  import opened NodeModel
  import opened Keys

  ghost predicate InOrder(keys: seq<Key>) {
    forall i, j :: 0 <= i < j < |keys| ==> Less(keys[i], keys[j])
  }

  ghost predicate KnownKey(k: Key) {
    k == PROPOSAL_KEY || |k| == 8
  }

  /** The blocks among the entries. */
  ghost function BlocksIn(entries: map<Key, Block>): map<U64, Block> {
    map r: U64 | 0 <= r < U64_LIMIT && RoundKey(r) in entries :: entries[RoundKey(r)]
  }

  /** The pending proposal among the entries. */
  ghost function PendingIn(entries: map<Key, Block>): Option<Block> {
    if PROPOSAL_KEY in entries then Some(entries[PROPOSAL_KEY]) else None
  }

  lemma RoundKeysDiffer(r: U64)
    ensures RoundKey(r) != PROPOSAL_KEY
    ensures forall q: U64 :: RoundKey(q) == RoundKey(r) ==> q == r
  {
    forall q: U64 | RoundKey(q) == RoundKey(r)
      ensures q == r
    {
      RoundKeyRoundTrip(q);
      RoundKeyRoundTrip(r);
    }
  }

  lemma WriteBlock(entries: map<Key, Block>, r: U64, b: Block)
    ensures BlocksIn(entries[RoundKey(r) := b]) == BlocksIn(entries)[r := b]
    ensures PendingIn(entries[RoundKey(r) := b]) == PendingIn(entries)
  {
    RoundKeysDiffer(r);
  }

  lemma RemoveBlock(entries: map<Key, Block>, r: U64)
    ensures BlocksIn(entries - {RoundKey(r)}) == BlocksIn(entries) - {r}
    ensures PendingIn(entries - {RoundKey(r)}) == PendingIn(entries)
  {
    RoundKeysDiffer(r);
  }

  lemma ProposalLeavesBlocks(entries: map<Key, Block>, b: Block)
    ensures BlocksIn(entries[PROPOSAL_KEY := b]) == BlocksIn(entries)
    ensures BlocksIn(entries - {PROPOSAL_KEY}) == BlocksIn(entries)
  {
    forall r: U64
      ensures RoundKey(r) != PROPOSAL_KEY
    {
      RoundKeysDiffer(r);
    }
  }

  lemma InsertInOrder(keys: seq<Key>, i: nat, k: Key)
    requires InOrder(keys) && i <= |keys|
    requires forall j :: 0 <= j < i ==> Less(keys[j], k)
    requires i < |keys| ==> Less(k, keys[i])
    ensures InOrder(keys[..i] + [k] + keys[i..])
  {
    forall j | i < j < |keys|
      ensures Less(k, keys[j])
    {
      LessTransitive(k, keys[i], keys[j]);
    }
  }

  /** The reverse iterator starts at the last round, and at the proposal only when there is no block. */
  lemma LastKeyIsLastEntry(keys: seq<Key>, entries: map<Key, Block>)
    requires InOrder(keys) && keys != [] && (forall k :: k in keys <==> k in entries)
    requires forall k :: k in keys ==> KnownKey(k)
    ensures keys[|keys| - 1] in entries
    ensures LastEntry(BlocksIn(entries), PendingIn(entries)) == Some(entries[keys[|keys| - 1]])
  {
    var last := keys[|keys| - 1];
    assert last in keys;
    var blocks := BlocksIn(entries);
    if last == PROPOSAL_KEY {
      forall r: U64
        ensures r !in blocks
      {
        if RoundKey(r) in entries {
          ProposalKeySortsFirst(r);
          BelowLast(keys, RoundKey(r));
          LessAsymmetric(RoundKey(r), PROPOSAL_KEY);
        }
      }
      assert blocks == map[];
    } else {
      KeyRoundRoundTrip(last);
      var r := KeyRound(last);
      assert r in blocks;
      var q := LastRound(blocks);
      if q != r {
        RoundKeyOrder(r, q);
        BelowLast(keys, RoundKey(q));
        LessAsymmetric(RoundKey(q), RoundKey(r));
      }
    }
  }

  lemma BelowLast(keys: seq<Key>, k: Key)
    requires InOrder(keys) && k in keys
    ensures k == keys[|keys| - 1] || Less(k, keys[|keys| - 1])
  {
  }

  lemma LessAsymmetric(a: Key, b: Key)
    ensures !(Less(a, b) && Less(b, a))
  {
    if Less(a, b) && Less(b, a) {
      LessTransitive(a, b, a);
      LessIrreflexive(a);
    }
  }

  /** The stored rounds from the given one on, ascending. */
  ghost predicate Lists(blocks: map<U64, Block>, begin: U64, rounds: seq<U64>) {
    && (forall i, j :: 0 <= i < j < |rounds| ==> rounds[i] < rounds[j])
    && (forall q: U64 :: q in rounds <==> q in blocks && begin <= q)
  }

  /** Where a reply was cut short because the block of that round could not be read. */
  ghost predicate CutShort(blocks: map<U64, Block>, r: ReplicationRequest, rounds: seq<U64>, unreadable: set<U64>, at: U64) {
    && at in unreadable && at in blocks && r.begin <= at
    && (forall i :: 0 <= i < |rounds| ==> rounds[i] < at)
    && (forall q :: q in blocks && r.begin <= q < at ==> q in rounds)
  }

  lemma WholeReply(blocks: map<U64, Block>, r: ReplicationRequest, maxReturn: U64, stored: seq<U64>, m: nat)
    requires Lists(blocks, r.begin, stored) && m <= |stored|
    requires forall j :: 0 <= j < m - 1 ==> !LimitReached(j + 1, stored[j], r, maxReturn)
    requires m == |stored| || (m > 0 && LimitReached(m, stored[m - 1], r, maxReturn))
    ensures IsReply(blocks, r, maxReturn, stored[..m])
  {
    var rounds := stored[..m];
    forall k: U64 | k in blocks && r.begin <= k
      ensures k in rounds || (rounds != [] && rounds[|rounds| - 1] < k && LimitReached(|rounds|, rounds[|rounds| - 1], r, maxReturn))
    {
      var j :| 0 <= j < |stored| && stored[j] == k;
      if j < m {
        assert rounds[j] == k;
      }
    }
  }

  lemma CutReply(blocks: map<U64, Block>, r: ReplicationRequest, maxReturn: U64, stored: seq<U64>, m: nat, unreadable: set<U64>)
    requires Lists(blocks, r.begin, stored) && m < |stored| && stored[m] in unreadable
    requires forall j :: 0 <= j < m ==> !LimitReached(j + 1, stored[j], r, maxReturn)
    ensures ReplyPart(blocks, r, maxReturn, stored[..m]) && CutShort(blocks, r, stored[..m], unreadable, stored[m])
  {
    forall q: U64 | q in blocks && r.begin <= q < stored[m]
      ensures q in stored[..m]
    {
      var j :| 0 <= j < |stored| && stored[j] == q;
      assert stored[..m][j] == q;
    }
  }

  /** A key that is not where it would be found is not there. */
  lemma Absent(keys: seq<Key>, i: nat, k: Key)
    requires InOrder(keys) && i <= |keys| && (i < |keys| ==> keys[i] != k)
    requires forall j :: 0 <= j < i ==> Less(keys[j], k)
    requires forall j :: i <= j < |keys| ==> !Less(keys[j], k)
    ensures k !in keys
  {
    LessIrreflexive(k);
    forall j | 0 <= j < |keys|
      ensures keys[j] != k
    {
      if j > i {
        LessTotal(keys[i], k);
        LessTransitive(k, keys[i], keys[j]);
      }
    }
  }

  class Store {
    var keys: seq<Key>
    var entries: map<Key, Block>

    ghost predicate Valid()
      reads this
    {
      && InOrder(keys)
      && (forall k :: k in keys <==> k in entries)
      && (forall k :: k in keys ==> KnownKey(k))
    }

    ghost function Blocks(): map<U64, Block>
      reads this
    {
      BlocksIn(entries)
    }

    ghost function Pending(): Option<Block>
      reads this
    {
      PendingIn(entries)
    }

    constructor ()
      ensures Valid() && Blocks() == map[] && Pending() == None
    {
      keys, entries := [], map[];
    }

    /** Index of the first key that is not below k. */
    method Find(k: Key) returns (i: nat)
      requires Valid()
      ensures i <= |keys|
      ensures forall j :: 0 <= j < i ==> Less(keys[j], k)
      ensures forall j :: i <= j < |keys| ==> !Less(keys[j], k)
    {
      i := 0;
      while i < |keys| && Less(keys[i], k)
        invariant i <= |keys|
        invariant forall j :: 0 <= j < i ==> Less(keys[j], k)
      {
        i := i + 1;
      }
      forall j | i <= j < |keys|
        ensures !Less(keys[j], k)
      {
        if j > i && Less(keys[j], k) {
          LessTransitive(keys[i], keys[j], k);
        }
      }
    }

    method Write(k: Key, b: Block)
      requires Valid() && KnownKey(k)
      modifies this
      ensures Valid() && entries == old(entries)[k := b]
    {
      var i := Find(k);
      if i == |keys| || keys[i] != k {
        if i < |keys| {
          LessTotal(keys[i], k);
        }
        Absent(keys, i, k);
        InsertInOrder(keys, i, k);
        keys := keys[..i] + [k] + keys[i..];
        assert forall x :: x in keys <==> x in old(keys) || x == k by {
          assert old(keys) == old(keys)[..i] + old(keys)[i..];
        }
      }
      entries := entries[k := b];
    }

    method Delete(k: Key)
      requires Valid()
      modifies this
      ensures Valid() && entries == old(entries) - {k}
    {
      var i := Find(k);
      if i < |keys| && keys[i] == k {
        var rest := keys[..i] + keys[i + 1..];
        forall x
          ensures x in rest <==> x in keys && x != k
        {
          if x in rest {
            var j :| 0 <= j < |rest| && rest[j] == x;
            LessIrreflexive(k);
            assert rest[j] == keys[if j < i then j else j + 1];
          }
          if x in keys && x != k {
            var j :| 0 <= j < |keys| && keys[j] == x;
            assert rest[if j < i then j else j - 1] == x;
          }
        }
        keys := rest;
      } else {
        Absent(keys, i, k);
      }
      entries := entries - {k};
    }

    method StoreBlock(r: U64, b: Block)
      requires Valid()
      modifies this
      ensures Valid() && Blocks() == old(Blocks())[r := b] && Pending() == old(Pending())
    {
      WriteBlock(entries, r, b);
      Write(RoundKey(r), b);
    }

    method DeleteBlock(r: U64)
      requires Valid()
      modifies this
      ensures Valid() && Blocks() == old(Blocks()) - {r} && Pending() == old(Pending())
    {
      RemoveBlock(entries, r);
      Delete(RoundKey(r));
    }

    method StorePendingProposal(b: Block)
      requires Valid()
      modifies this
      ensures Valid() && Blocks() == old(Blocks()) && Pending() == Some(b)
    {
      ProposalLeavesBlocks(entries, b);
      Write(PROPOSAL_KEY, b);
    }

    method DeletePendingProposal()
      requires Valid()
      modifies this
      ensures Valid() && Blocks() == old(Blocks()) && Pending() == None
    {
      ProposalLeavesBlocks(entries, Block(Header("", Nil), None));
      Delete(PROPOSAL_KEY);
    }

    /** A read that fails is told from a proposal that is not there. */
    method LoadPendingProposal(readOk: bool) returns (ok: bool, b: Option<Block>)
      requires Valid()
      ensures ok == readOk && b == if readOk then Pending() else None
    {
      if !readOk {
        return false, None;
      }
      ok := true;
      b := if PROPOSAL_KEY in entries then Some(entries[PROPOSAL_KEY]) else None;
    }

    method Last() returns (b: Option<Block>)
      requires Valid()
      ensures b == LastEntry(Blocks(), Pending())
    {
      if keys == [] {
        assert entries == map[] by {
          forall k
            ensures k !in entries
          {
            assert k in keys <==> k in entries;
          }
        }
        return None;
      }
      LastKeyIsLastEntry(keys, entries);
      b := Some(entries[keys[|keys| - 1]]);
    }

    /** The entry at index j is the block of the given round, from the requested one on. */
    ghost predicate BlockEntry(begin: U64, j: nat, round: U64)
      reads this
    {
      && j < |keys| && |keys[j]| == 8 && KeyRound(keys[j]) == round
      && begin <= round && round in Blocks() && keys[j] in entries && Blocks()[round] == entries[keys[j]]
    }

    /** A key that is not below the key of a round leads to the block of that or a later round, never to the proposal. */
    lemma EntryFrom(begin: U64, j: nat) returns (round: U64)
      requires Valid() && j < |keys| && !Less(keys[j], RoundKey(begin))
      ensures BlockEntry(begin, j, round)
    {
      assert keys[j] in keys;
      ProposalKeySortsFirst(begin);
      round := KeyRound(keys[j]);
      KeyRoundRoundTrip(keys[j]);
      RoundKeyOrder(round, begin);
    }

    lemma EntriesAscend(begin: U64, j: nat, round: U64, l: nat, later: U64)
      requires Valid() && j < l && BlockEntry(begin, j, round) && BlockEntry(begin, l, later)
      ensures round < later
    {
      KeyRoundRoundTrip(keys[j]);
      KeyRoundRoundTrip(keys[l]);
      RoundKeyOrder(round, later);
    }

    ghost predicate EntryAfter(begin: U64, i: nat, rounds: seq<U64>, j: nat)
      reads this
    {
      j < |rounds| && BlockEntry(begin, i + j, rounds[j])
    }

    /** The entries from index i on hold the blocks of these rounds. */
    ghost predicate EntriesFrom(begin: U64, i: nat, rounds: seq<U64>)
      reads this
    {
      && |rounds| == |keys| - i
      && forall j: nat {:trigger EntryAfter(begin, i, rounds, j)} :: j < |rounds| ==> EntryAfter(begin, i, rounds, j)
    }

    /** The keys from the one of a round on list the stored rounds from that round on. */
    lemma {:induction false} RoundsFrom(begin: U64, i: nat) returns (rounds: seq<U64>)
      requires Valid() && i <= |keys|
      requires forall j :: i <= j < |keys| ==> !Less(keys[j], RoundKey(begin))
      ensures EntriesFrom(begin, i, rounds)
      ensures forall j, l :: 0 <= j < l < |rounds| ==> rounds[j] < rounds[l]
      decreases |keys| - i
    {
      rounds := [];
      if i < |keys| {
        var first := EntryFrom(begin, i);
        var rest := RoundsFrom(begin, i + 1);
        rounds := [first] + rest;
        forall j: nat | j < |rounds|
          ensures EntryAfter(begin, i, rounds, j) && (j > 0 ==> first < rounds[j])
        {
          if j > 0 {
            EntryShifts(begin, i, first, rest, j);
          }
        }
      }
    }

    lemma EntryShifts(begin: U64, i: nat, first: U64, rest: seq<U64>, j: nat)
      requires Valid() && BlockEntry(begin, i, first) && EntriesFrom(begin, i + 1, rest) && 1 <= j <= |rest|
      ensures EntryAfter(begin, i, [first] + rest, j) && first < rest[j - 1]
    {
      assert EntryAfter(begin, i + 1, rest, j - 1);
      EntriesAscend(begin, i, first, i + j, rest[j - 1]);
    }

    lemma ListsFrom(begin: U64, i: nat) returns (rounds: seq<U64>)
      requires Valid() && i <= |keys|
      requires forall j :: 0 <= j < i ==> Less(keys[j], RoundKey(begin))
      requires forall j :: i <= j < |keys| ==> !Less(keys[j], RoundKey(begin))
      ensures EntriesFrom(begin, i, rounds) && Lists(Blocks(), begin, rounds)
    {
      rounds := RoundsFrom(begin, i);
      forall q: U64 | q in rounds
        ensures q in Blocks() && begin <= q
      {
        var j: nat :| j < |rounds| && rounds[j] == q;
        assert EntryAfter(begin, i, rounds, j);
      }
      forall q: U64 | q in Blocks() && begin <= q
        ensures q in rounds
      {
        IsListed(begin, i, rounds, q);
      }
    }

    lemma IsListed(begin: U64, i: nat, rounds: seq<U64>, q: U64)
      requires Valid() && i <= |keys| && EntriesFrom(begin, i, rounds) && q in Blocks() && begin <= q
      requires forall j :: 0 <= j < i ==> Less(keys[j], RoundKey(begin))
      ensures q in rounds
    {
      assert RoundKey(q) in keys;
      RoundKeyOrder(q, begin);
      var j: nat :| j < |keys| && keys[j] == RoundKey(q);
      RoundKeyRoundTrip(q);
      assert i <= j;
      assert EntryAfter(begin, i, rounds, j - i);
    }

    /** The iterator from the key of a round on: the rounds of the keys it passes and the blocks it reads. */
    method Iterate(begin: U64) returns (rounds: seq<U64>, blocks: seq<Block>)
      requires Valid()
      ensures Lists(Blocks(), begin, rounds) && ReadFrom(Blocks(), rounds, blocks)
    {
      var i := Find(RoundKey(begin));
      ghost var stored := ListsFrom(begin, i);
      ghost var start := i;
      rounds, blocks := [], [];
      while i < |keys|
        invariant start <= i <= |keys| && |blocks| == |rounds| == i - start
        invariant forall j :: 0 <= j < |rounds| ==> rounds[j] == stored[j] && stored[j] in Blocks() && blocks[j] == Blocks()[stored[j]]
      {
        assert EntryAfter(begin, start, stored, i - start);
        rounds, blocks := rounds + [KeyRound(keys[i])], blocks + [entries[keys[i]]];
        i := i + 1;
      }
      assert rounds == stored;
    }

    /**
     The worker's reply: blocks from the requested round on until a limit is reached, the store ends,
     or a block cannot be read.
     */
    method CollectReply(r: ReplicationRequest, maxReturn: U64, unreadable: set<U64>)
      returns (rounds: seq<U64>, blocks: seq<Block>, first: U64, last: U64)
      requires Valid()
      ensures Answers(Blocks(), r, maxReturn, unreadable, rounds, blocks, first, last)
    {
      var stored, values := Iterate(r.begin);
      var m;
      m, blocks, first, last := Scan(stored, values, r, maxReturn, unreadable);
      rounds := stored[..m];
      ScanAnswers(Blocks(), r, maxReturn, unreadable, stored, values, m, first, last);
    }
  }

  /**
   Rounds and blocks of a reply: the whole reply, or the part before the first unreadable block, with
   the stored blocks themselves and the first and last round sent.
   */
  ghost predicate Answers(
    all: map<U64, Block>, r: ReplicationRequest, maxReturn: U64, unreadable: set<U64>,
    rounds: seq<U64>, blocks: seq<Block>, first: U64, last: U64)
  {
    && ReplyPart(all, r, maxReturn, rounds)
    && (IsReply(all, r, maxReturn, rounds) || exists at :: CutShort(all, r, rounds, unreadable, at))
    && ReadFrom(all, rounds, blocks)
    && (rounds == [] ==> first == last == 0)
    && (rounds != [] ==> last == rounds[|rounds| - 1] && (r.begin > 0 ==> first == rounds[0]))
  }

  ghost predicate ReadFrom(all: map<U64, Block>, rounds: seq<U64>, blocks: seq<Block>) {
    |blocks| == |rounds| && forall i :: 0 <= i < |rounds| ==> rounds[i] in all && blocks[i] == all[rounds[i]]
  }

  /** Where the loop over the iterator ends. */
  ghost predicate Stops(stored: seq<U64>, r: ReplicationRequest, maxReturn: U64, unreadable: set<U64>, m: nat) {
    && m <= |stored|
    && (forall j :: 0 <= j < m - 1 ==> !LimitReached(j + 1, stored[j], r, maxReturn))
    && (|| m == |stored|
        || (m > 0 && LimitReached(m, stored[m - 1], r, maxReturn))
        || (stored[m] in unreadable && (m > 0 ==> !LimitReached(m, stored[m - 1], r, maxReturn))))
  }

  lemma ScanAnswers(
    all: map<U64, Block>, r: ReplicationRequest, maxReturn: U64, unreadable: set<U64>,
    stored: seq<U64>, values: seq<Block>, m: nat, first: U64, last: U64)
    requires Lists(all, r.begin, stored) && ReadFrom(all, stored, values)
    requires Stops(stored, r, maxReturn, unreadable, m)
    requires m == 0 ==> first == last == 0
    requires m > 0 ==> last == stored[m - 1] && (stored[0] > 0 ==> first == stored[0])
    ensures Answers(all, r, maxReturn, unreadable, stored[..m], values[..m], first, last)
  {
    if m == |stored| || (m > 0 && LimitReached(m, stored[m - 1], r, maxReturn)) {
      WholeReply(all, r, maxReturn, stored, m);
    } else {
      CutReply(all, r, maxReturn, stored, m, unreadable);
    }
    assert m > 0 ==> stored[0] in stored;
  }

  /** The loop over the iterator: m is the number of blocks taken. */
  method Scan(stored: seq<U64>, values: seq<Block>, r: ReplicationRequest, maxReturn: U64, unreadable: set<U64>)
    returns (m: nat, blocks: seq<Block>, first: U64, last: U64)
    requires |stored| == |values|
    ensures Stops(stored, r, maxReturn, unreadable, m) && blocks == values[..m]
    ensures m == 0 ==> first == last == 0
    ensures m > 0 ==> last == stored[m - 1] && (stored[0] > 0 ==> first == stored[0])
  {
    m, blocks, first, last := 0, [], 0, 0;
    while m < |stored|
      invariant m <= |stored| && blocks == values[..m]
      invariant forall j :: 0 <= j < m ==> !LimitReached(j + 1, stored[j], r, maxReturn)
      invariant m == 0 ==> first == last == 0
      invariant m > 0 ==> last == stored[m - 1] && (stored[0] > 0 ==> first == stored[0])
    {
      var round := stored[m];
      if round in unreadable {
        break;
      }
      if first == 0 {
        first := round;
      }
      last := round;
      blocks := blocks + [values[m]];
      m := m + 1;
      if LimitReached(|blocks|, round, r, maxReturn) {
        break;
      }
    }
  }
}
