/** What the node relies on can be had: every root chain with linked records has a library that meets the contracts. */
module Assumptions {
  import opened Types
  import opened Keys
  import opened RootChain
  import opened Safety
  import Agreement

  // ---- an injective hash of technical records ----

  /** The bytes with a mark before each and one at the end, so that they can be told from what follows. */
  function Marked(s: seq<Byte>): seq<Byte> {
    if s == [] then [0] else [1, s[0]] + Marked(s[1..])
  }

  lemma {:induction false} MarkedApart(a: seq<Byte>, x: seq<Byte>, b: seq<Byte>, y: seq<Byte>)
    requires Marked(a) + x == Marked(b) + y
    ensures a == b && x == y
    decreases |a|
  {
    var s, t := Marked(a) + x, Marked(b) + y;
    assert s[0] == t[0];
    if a == [] {
      assert s[1..] == x && t[1..] == y;
    } else {
      assert s[1] == a[0] && t[1] == b[0];
      assert s[2..] == Marked(a[1..]) + x && t[2..] == Marked(b[1..]) + y;
      MarkedApart(a[1..], x, b[1..], y);
      assert a == [a[0]] + a[1..] && b == [b[0]] + b[1..];
    }
  }

  function Letters(s: string): seq<Byte> {
    if s == "" then [] else BigEndian(s[0] as int, 4) + Letters(s[1..])
  }

  lemma {:induction false} LettersApart(a: string, b: string)
    requires Letters(a) == Letters(b)
    ensures a == b
    decreases |a|
  {
    if a != "" && b != "" {
      NumberApart(a[0] as int, Letters(a[1..]), b[0] as int, Letters(b[1..]), 4);
      LettersApart(a[1..], b[1..]);
      assert a == [a[0]] + a[1..] && b == [b[0]] + b[1..];
    }
  }

  lemma NumberApart(m: nat, x: seq<Byte>, n: nat, y: seq<Byte>, width: nat)
    requires m < Pow256(width) && n < Pow256(width) && BigEndian(m, width) + x == BigEndian(n, width) + y
    ensures m == n && x == y
  {
    var s, t := BigEndian(m, width) + x, BigEndian(n, width) + y;
    assert s[..width] == BigEndian(m, width) && t[..width] == BigEndian(n, width);
    assert s[width..] == x && t[width..] == y;
    ValueOfBigEndian(m, width);
    ValueOfBigEndian(n, width);
  }

  function SliceBytes(s: Slice): seq<Byte> {
    match s
    case Nil => []
    case Bytes(data) => [0] + data
  }

  function Encoded(tr: TechnicalRecord): seq<Byte> {
    BigEndian(tr.round, 8) + (BigEndian(tr.epoch, 8) + (Marked(Letters(tr.leader)) + (Marked(SliceBytes(tr.statHash)) + SliceBytes(tr.feeHash))))
  }

  lemma SliceBytesApart(a: Slice, b: Slice)
    requires SliceBytes(a) == SliceBytes(b)
    ensures a == b
  {
    if a.Bytes? && b.Bytes? {
      assert SliceBytes(a)[1..] == a.data && SliceBytes(b)[1..] == b.data;
    }
  }

  lemma EncodedApart(a: TechnicalRecord, b: TechnicalRecord)
    requires Encoded(a) == Encoded(b)
    ensures a == b
  {
    RoundRange();
    var a1, b1 := Marked(SliceBytes(a.statHash)) + SliceBytes(a.feeHash), Marked(SliceBytes(b.statHash)) + SliceBytes(b.feeHash);
    var a2, b2 := Marked(Letters(a.leader)) + a1, Marked(Letters(b.leader)) + b1;
    NumberApart(a.round, BigEndian(a.epoch, 8) + a2, b.round, BigEndian(b.epoch, 8) + b2, 8);
    NumberApart(a.epoch, a2, b.epoch, b2, 8);
    MarkedApart(Letters(a.leader), a1, Letters(b.leader), b1);
    LettersApart(a.leader, b.leader);
    MarkedApart(SliceBytes(a.statHash), SliceBytes(a.feeHash), SliceBytes(b.statHash), SliceBytes(b.feeHash));
    SliceBytesApart(a.statHash, b.statHash);
    SliceBytesApart(a.feeHash, b.feeHash);
  }

  // ---- the library ----

  /** Every record extends the state of the one before it. */
  ghost predicate Linked(rc: RootChain) {
    forall i: nat :: i + 1 < |rc.records| ==>
      SameBytes(rc.records[i + 1].previousHash, if i == 0 then Nil else rc.records[i].hash)
  }

  ghost predicate Follows(rc: RootChain, uc: Certificate, previous: Option<Certificate>) {
    exists k: nat :: At(rc, previous, k) && k + 1 < |rc.records| && uc.ir == rc.records[k + 1]
  }

  /** The block hash is nil when the state does not change, and otherwise binds the link and both state hashes. */
  function HashOf(link: Slice, hash: Slice, previous: Slice): Slice {
    if SameBytes(hash, previous) then Nil else Bytes(Marked(Content(link)) + (Content(hash) + Content(previous)))
  }

  ghost function LibraryOf(rc: RootChain): Library {
    Library(
      (uc, _) => Issued(rc, uc),
      (a: Certificate, b: Certificate) => a.rootRound <= b.rootRound,
      (uc: Certificate, previous: Option<Certificate>) => Follows(rc, uc, previous) || (previous.None? && uc.ir.round == 0),
      (uc: Certificate) => uc.ir.round == 0,
      tr => Bytes(Encoded(tr)),
      (h: Header, hash, previous) => HashOf(h.previousBlockHash, hash, previous),
      s => if s == NO_PEER then None else Some(s),
      (_, _) => true,
      _ => true)
  }

  /** The contracts for safety and for progress are met together. */
  lemma AssumptionsCanBeMet(rc: RootChain)
    requires WellFormed(rc) && Linked(rc)
    ensures Sound(LibraryOf(rc), rc) && Complete(LibraryOf(rc), rc)
  {
    var lib := LibraryOf(rc);
    forall uc, previous, k: nat | lib.successor(uc, previous) && Issued(rc, uc) && At(rc, previous, k)
      ensures || (k + 1 < |rc.records| && uc.ir == rc.records[k + 1] && SameBytes(uc.ir.previousHash, StateHashOf(previous)))
              || (previous.None? && uc.ir.round == 0)
    {
      if Follows(rc, uc, previous) {
        var j: nat :| At(rc, previous, j) && j + 1 < |rc.records| && uc.ir == rc.records[j + 1];
        OnePlace(rc, previous, j, k);
      }
    }
    forall a, b | SameBytes(lib.trHash(a), lib.trHash(b))
      ensures a == b
    {
      EncodedApart(a, b);
    }
  }

  /** The certified block hash of each record is that of a header pointing to the block before. */
  ghost predicate HashedLinks(rc: RootChain) {
    forall i: nat :: 1 <= i < |rc.records| ==>
      SameBytes(rc.records[i].blockHash,
        LibraryOf(rc).blockHash(Header(NO_PEER, LinkHash(rc, i)), rc.records[i].hash, rc.records[i].previousHash))
  }

  /** A root chain can certify linked blocks only. */
  lemma LinksCanBeCertified(rc: RootChain)
    requires HashedLinks(rc)
    ensures Agreement.CertifiedLinks(LibraryOf(rc), rc)
  {
    var lib := LibraryOf(rc);
    forall i: nat
      ensures Agreement.PointsBack(lib, rc, i)
    {
      if 1 <= i < |rc.records| {
        var h := Header(NO_PEER, LinkHash(rc, i));
        assert SameBytes(h.previousBlockHash, LinkHash(rc, i));
      }
    }
    forall h, g, a, b, c, d | !SameBytes(a, b) && !SameBytes(c, d) && SameBytes(lib.blockHash(h, a, b), lib.blockHash(g, c, d))
      ensures SameBytes(h.previousBlockHash, g.previousBlockHash)
    {
      MarkedApart(Content(h.previousBlockHash), Content(a) + Content(b), Content(g.previousBlockHash), Content(c) + Content(d));
    }
  }
}
