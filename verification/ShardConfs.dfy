/** The store of shard configurations by epoch, with a cache in front of the database. */
module ShardConfs {
  import opened Types
  import opened NodeModel

  /** Partition description record: the configuration and the identifiers that every epoch must share. */
  datatype Descriptor = Descriptor(conf: ShardConf, network: nat, kind: nat, partition: nat, shard: nat)

  predicate SameShard(a: Descriptor, b: Descriptor) {
    a.network == b.network && a.kind == b.kind && a.partition == b.partition && a.shard == b.shard
  }

  /** What all records of one shard have in common. */
  function Identity(d: Descriptor): (nat, nat, nat, nat) {
    (d.network, d.kind, d.partition, d.shard)
  }

  datatype Confs = Confs(db: map<U64, Descriptor>, cache: map<U64, Descriptor>)

  /** Verify of a record against the one of the previous epoch is library code. */
  type Check = (Descriptor, Option<Descriptor>) -> bool

  /** A call on the store; the flags tell whether the database reads and writes it makes succeed. */
  datatype Op =
    | Put(record: Descriptor, readOk: bool, writeOk: bool)
    | Lookup(epoch: U64, readOk: bool)

  function Load(db: map<U64, Descriptor>, epoch: U64, readOk: bool): Option<Descriptor> {
    if readOk && epoch in db then Some(db[epoch]) else None
  }

  predicate Accepted(check: Check, s: Confs, record: Descriptor, readOk: bool) {
    if record.conf.epoch == 0 then check(record, None)
    else
      var previous := Load(s.db, record.conf.epoch - 1, readOk);
      previous.Some? && check(record, previous)
  }

  function Answer(s: Confs, epoch: U64, readOk: bool): Option<Descriptor> {
    if epoch in s.cache then Some(s.cache[epoch]) else Load(s.db, epoch, readOk)
  }

  function Apply(check: Check, s: Confs, op: Op): Confs {
    match op
    case Put(record, readOk, writeOk) =>
      if Accepted(check, s, record, readOk) && writeOk then s.(db := s.db[record.conf.epoch := record]) else s
    case Lookup(epoch, readOk) =>
      var found := Answer(s, epoch, readOk);
      if found.Some? then s.(cache := s.cache[epoch := found.value]) else s
  }

  function ApplyAll(check: Check, s: Confs, ops: seq<Op>): Confs
    decreases |ops|
  {
    if ops == [] then s else ApplyAll(check, Apply(check, s, ops[0]), ops[1..])
  }

  // ---- what every call keeps ----

  /** Records are kept under their own epoch, and the epochs have no gap. */
  ghost predicate NoGap(db: map<U64, Descriptor>) {
    && (forall e :: e in db ==> db[e].conf.epoch == e)
    && (forall e: U64, f: U64 {:trigger e in db, f in db} :: e in db && f <= e ==> f in db)
  }

  ghost predicate CacheAgrees(s: Confs) {
    forall e :: e in s.cache ==> e in s.db && s.cache[e] == s.db[e]
  }

  /** The call replaces a cached record by another one. */
  predicate Overwrites(s: Confs, op: Op) {
    op.Put? && op.record.conf.epoch in s.cache && s.cache[op.record.conf.epoch] != op.record
  }

  lemma ApplyKeepsNoGap(check: Check, s: Confs, op: Op)
    requires NoGap(s.db)
    ensures NoGap(Apply(check, s, op).db)
  {
    var t := Apply(check, s, op);
    if op.Put? && t != s {
      var epoch := op.record.conf.epoch;
      forall e: U64, f: U64 {:trigger e in t.db, f in t.db} | e in t.db && f <= e
        ensures f in t.db
      {
        if e == epoch && f < e {
          assert epoch - 1 in s.db;
        }
      }
    }
  }

  // ---- what is stored was checked ----

  /** The record passed the check against some record of the epoch before, or alone if it is the first. */
  ghost predicate Checked(check: Check, record: Descriptor) {
    if record.conf.epoch == 0 then check(record, None)
    else exists previous: Descriptor :: previous.conf.epoch == record.conf.epoch - 1 && check(record, Some(previous))
  }

  ghost predicate AllChecked(check: Check, db: map<U64, Descriptor>) {
    forall e :: e in db ==> Checked(check, db[e])
  }

  /** A record is stored if and only if it can be written and passes the check against the stored record of the epoch before; nothing else changes. */
  lemma StoredIff(check: Check, s: Confs, record: Descriptor, readOk: bool, writeOk: bool)
    ensures var t, epoch := Apply(check, s, Put(record, readOk, writeOk)), record.conf.epoch;
            var passes := if epoch == 0 then check(record, None) else readOk && epoch - 1 in s.db && check(record, Some(s.db[epoch - 1]));
            && t.cache == s.cache
            && t.db == if writeOk && passes then s.db[epoch := record] else s.db
  {
  }

  /** Whatever calls are made, a record that fails the check is never stored. */
  lemma {:induction false} OnlyCheckedStored(check: Check, s: Confs, ops: seq<Op>)
    requires NoGap(s.db) && AllChecked(check, s.db)
    ensures AllChecked(check, ApplyAll(check, s, ops).db)
    decreases |ops|
  {
    if ops != [] {
      if ops[0].Put? {
        PutKeepsChecked(check, s, ops[0].record, ops[0].readOk, ops[0].writeOk);
      }
      ApplyKeepsNoGap(check, s, ops[0]);
      OnlyCheckedStored(check, Apply(check, s, ops[0]), ops[1..]);
    }
  }

  lemma PutKeepsChecked(check: Check, s: Confs, record: Descriptor, readOk: bool, writeOk: bool)
    requires NoGap(s.db) && AllChecked(check, s.db)
    ensures AllChecked(check, Apply(check, s, Put(record, readOk, writeOk)).db)
  {
    var epoch := record.conf.epoch;
    if Apply(check, s, Put(record, readOk, writeOk)) != s && epoch > 0 {
      assert s.db[epoch - 1].conf.epoch == epoch - 1 && check(record, Some(s.db[epoch - 1]));
    }
  }

  /** The cache goes stale exactly when an accepted record replaces a different cached one. */
  lemma StaleIffOverwritten(check: Check, s: Confs, op: Op)
    requires CacheAgrees(s)
    ensures CacheAgrees(Apply(check, s, op)) <==>
              !(Overwrites(s, op) && op.writeOk && Accepted(check, s, op.record, op.readOk))
  {
    var t := Apply(check, s, op);
    if Overwrites(s, op) && op.writeOk && Accepted(check, s, op.record, op.readOk) {
      assert op.record.conf.epoch in t.cache;
    }
  }

  /** Storing epoch 0 again after it was looked up: the lookup still answers with the old record. */
  lemma CacheGoesStale(check: Check, old0: Descriptor, new0: Descriptor)
    requires old0.conf.epoch == new0.conf.epoch == 0 && old0 != new0 && check(old0, None) && check(new0, None)
    ensures var ops := [Put(old0, true, true), Lookup(0, true), Put(new0, true, true)];
            var t := ApplyAll(check, Confs(map[], map[]), ops);
            Load(t.db, 0, true) == Some(new0) && Answer(t, 0, true) == Some(old0)
  {
    var ops := [Put(old0, true, true), Lookup(0, true), Put(new0, true, true)];
    var empty := Confs(map[], map[]);
    var first := Apply(check, empty, ops[0]);
    var second := Apply(check, first, ops[1]);
    assert ops[1..][1..] == ops[2..] && ops[2..][1..] == [];
    assert ApplyAll(check, empty, ops) == ApplyAll(check, second, ops[2..]) == Apply(check, second, ops[2]);
  }

  ghost predicate NeverOverwrites(check: Check, s: Confs, ops: seq<Op>)
    decreases |ops|
  {
    ops == [] || (!Overwrites(s, ops[0]) && NeverOverwrites(check, Apply(check, s, ops[0]), ops[1..]))
  }

  /** Any calls on an empty store leave epochs 0..k without a gap, and lookups answer from the database if nothing cached was overwritten. */
  lemma {:induction false} CallsKeep(check: Check, s: Confs, ops: seq<Op>)
    requires NoGap(s.db) && CacheAgrees(s)
    ensures NoGap(ApplyAll(check, s, ops).db)
    ensures NeverOverwrites(check, s, ops) ==>
              var t := ApplyAll(check, s, ops);
              CacheAgrees(t) && forall e: U64 :: Answer(t, e, true) == Load(t.db, e, true)
    decreases |ops|
  {
    if ops != [] {
      var t := Apply(check, s, ops[0]);
      ApplyKeepsNoGap(check, s, ops[0]);
      StaleIffOverwritten(check, s, ops[0]);
      if CacheAgrees(t) {
        CallsKeep(check, t, ops[1..]);
      } else {
        CallsKeepNoGap(check, t, ops[1..]);
      }
    }
  }

  lemma {:induction false} CallsKeepNoGap(check: Check, s: Confs, ops: seq<Op>)
    requires NoGap(s.db)
    ensures NoGap(ApplyAll(check, s, ops).db)
    decreases |ops|
  {
    if ops != [] {
      ApplyKeepsNoGap(check, s, ops[0]);
      CallsKeepNoGap(check, Apply(check, s, ops[0]), ops[1..]);
    }
  }

  function Configurations(db: map<U64, Descriptor>): map<U64, ShardConf> {
    map e | e in db :: db[e].conf
  }

  /** What the node assumes of its configurations holds of every store built by calls, once epoch 0 is usable. */
  lemma BuiltStoreServesNode(check: Check, ops: seq<Op>, p: Params, first: U64)
    requires p.id != NO_PEER
    requires var db := ApplyAll(check, Confs(map[], map[]), ops).db;
             && p.confs == Configurations(db) && p.firstEpoch == first
             && IsFirst(db, first) && db[first].conf.dFG.Some? && db[first].conf.dFG.value >= 1
    ensures ParamsOk(p)
  {
    var empty := Confs(map[], map[]);
    var db := ApplyAll(check, empty, ops).db;
    CallsKeepNoGap(check, empty, ops);
    assert first in db && 0 in db;
    assert first == 0;
    assert 0 in p.confs;
  }

  ghost predicate IsFirst(db: map<U64, Descriptor>, first: U64) {
    first in db && forall e :: e in db ==> first <= e
  }

  class ShardConfStore {
    var db: map<U64, Descriptor>
    var cache: map<U64, Descriptor>

    ghost function State(): Confs
      reads this
    {
      Confs(db, cache)
    }

    constructor (db: map<U64, Descriptor>)
      ensures State() == Confs(db, map[])
    {
      this.db, cache := db, map[];
    }

    method Store(check: Check, record: Descriptor, readOk: bool, writeOk: bool) returns (ok: bool)
      modifies this
      ensures State() == Apply(check, old(State()), Put(record, readOk, writeOk))
      ensures ok <==> writeOk && Accepted(check, old(State()), record, readOk)
    {
      var previous := None;
      if record.conf.epoch > 0 {
        previous := Load(db, record.conf.epoch - 1, readOk);
        if previous.None? {
          return false;
        }
      }
      if !check(record, previous) || !writeOk {
        return false;
      }
      db := db[record.conf.epoch := record];
      ok := true;
    }

    method Get(epoch: U64, readOk: bool) returns (record: Option<Descriptor>)
      modifies this`cache
      ensures State() == Apply((_, _) => true, old(State()), Lookup(epoch, readOk))
      ensures record == Answer(old(State()), epoch, readOk)
      ensures old(CacheAgrees(State())) && record.Some? ==> epoch in db && record.value == db[epoch]
    {
      if epoch in cache {
        assert cache == cache[epoch := cache[epoch]];
        return Some(cache[epoch]);
      }
      record := Load(db, epoch, readOk);
      if record.Some? {
        cache := cache[epoch := record.value];
      }
    }

    /** The record under the least key; the first key is what the database iterator yields. */
    method GetFirst(first: Option<U64>, readOk: bool) returns (record: Option<Descriptor>)
      requires if first.Some? then IsFirst(db, first.value) else db == map[]
      modifies this`cache
      ensures record == if first.None? then None else Answer(old(State()), first.value, readOk)
      ensures old(NoGap(db) && CacheAgrees(State())) && record.Some? ==> first == Some(0) && record.value.conf.epoch == 0
    {
      if first.None? {
        return None;
      }
      assert NoGap(db) ==> 0 in db;
      record := Get(first.value, readOk);
    }

    /** The records in key order, None for one that cannot be read, pass exactly when all can be read and belong to one shard. */
    static method VerifyDb(records: seq<Option<Descriptor>>) returns (ok: bool)
      ensures ok <==>
                && (forall i :: 0 <= i < |records| ==> records[i].Some?)
                && (forall i, j :: 0 <= i < j < |records| ==> Identity(records[i].value) == Identity(records[j].value))
    {
      var i := 0;
      while i < |records|
        invariant 0 <= i <= |records|
        invariant forall j :: 0 <= j < i ==> records[j].Some?
        invariant forall j :: 0 <= j < i ==> SameShard(records[0].value, records[j].value)
      {
        if records[i].None? {
          return false;
        }
        if !SameShard(records[0].value, records[i].value) {
          assert 0 < i;
          return false;
        }
        i := i + 1;
      }
      ok := true;
    }
  }
}
