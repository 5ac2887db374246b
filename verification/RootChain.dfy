/**
 The root chain as the issuer of certificates, and what the node may rely on in the library code
 that checks them.
 */
module RootChain {
  import opened Types

  /**
   The input records the root chain certifies over its whole life, the first being the initial
   record of round 0, and the certificates it issues for them: one per root-chain round, either for
   the next record or once more for the same one.
   */
  datatype RootChain = RootChain(records: seq<InputRecord>, certs: seq<Certificate>)

  ghost function RecordRound(rc: RootChain, i: nat): U64
    requires i < |rc.records|
  {
    rc.records[i].round
  }

  /** Rounds of the records strictly increase from 0. */
  ghost predicate Increasing(rc: RootChain) {
    && rc.records != []
    && RecordRound(rc, 0) == 0
    && forall i: nat, j: nat :: i < j < |rc.records| ==> RecordRound(rc, i) < RecordRound(rc, j)
  }

  ghost predicate WellFormed(rc: RootChain) {
    && Increasing(rc)
    && (forall c :: c in rc.certs ==> c.rootRound >= 1 && c.ir in rc.records)
    && (forall i, j :: 0 <= i < j < |rc.certs| ==>
          rc.certs[i].rootRound < rc.certs[j].rootRound && rc.certs[i].ir.round <= rc.certs[j].ir.round)
  }

  ghost predicate Issued(rc: RootChain, uc: Certificate) {
    uc in rc.certs
  }

  /** The certificate is for record k; no certificate stands at record 0. */
  ghost predicate At(rc: RootChain, uc: Option<Certificate>, k: nat) {
    && k < |rc.records|
    && (k == 0 <==> uc.None?)
    && (uc.Some? ==> Issued(rc, uc.value) && uc.value.ir == rc.records[k])
  }

  /** What a node relies on for safety. */
  ghost predicate Sound(lib: Library, rc: RootChain) {
    // only issued certificates verify
    && (forall uc, conf {:trigger lib.verify(uc, conf)} :: lib.verify(uc, conf) ==> Issued(rc, uc))
    // a certificate that passes the equivocation check is not from an older root-chain round
    && (forall a, b {:trigger lib.consistent(a, b)} :: lib.consistent(a, b) ==> a.rootRound <= b.rootRound)
    // a successor extends the previous state and leaves no record out; the initial certificate follows no certificate
    && (forall uc, previous, k: nat {:trigger lib.successor(uc, previous), At(rc, previous, k)} ::
          lib.successor(uc, previous) && Issued(rc, uc) && At(rc, previous, k) ==>
          || (k + 1 < |rc.records| && uc.ir == rc.records[k + 1] && SameBytes(uc.ir.previousHash, StateHashOf(previous)))
          || (previous.None? && uc.ir.round == 0))
    // block hashes depend on the content of the hashed slices only
    && (forall h, a, b, c, d {:trigger lib.blockHash(h, a, b), lib.blockHash(h, c, d)} :: SameBytes(a, c) && SameBytes(b, d) ==>
          SameBytes(lib.blockHash(h, a, b), lib.blockHash(h, c, d)))
    // technical records are bound by their hash
    && (forall a, b {:trigger lib.trHash(a), lib.trHash(b)} :: SameBytes(lib.trHash(a), lib.trHash(b)) ==> a == b)
    && (forall s :: lib.decodePeer(s) != Some(NO_PEER))
  }

  /** What a recovering node relies on in addition to make progress: the checks accept what the root chain issued in order. */
  ghost predicate Complete(lib: Library, rc: RootChain) {
    && (forall uc, conf {:trigger lib.verify(uc, conf)} :: Issued(rc, uc) ==> lib.verify(uc, conf))
    && (forall a, b {:trigger lib.consistent(a, b)} :: Issued(rc, a) && Issued(rc, b) && a.rootRound <= b.rootRound ==> lib.consistent(a, b))
    && (forall uc, previous, k: nat {:trigger lib.successor(uc, previous), At(rc, previous, k)} ::
          Issued(rc, uc) && At(rc, previous, k) && k + 1 < |rc.records| && uc.ir == rc.records[k + 1] ==>
          lib.successor(uc, previous))
  }

  /** Certificates are ordered consistently by root-chain round, and one root-chain round has one certificate. */
  lemma IssuedInOrder(rc: RootChain, a: Certificate, b: Certificate)
    requires WellFormed(rc) && Issued(rc, a) && Issued(rc, b) && a.rootRound <= b.rootRound
    ensures a.ir.round <= b.ir.round
    ensures a.rootRound == b.rootRound ==> a == b
  {
    var i :| 0 <= i < |rc.certs| && rc.certs[i] == a;
    var j :| 0 <= j < |rc.certs| && rc.certs[j] == b;
  }

  /** Records and their rounds are in the same order. */
  lemma RecordOrder(rc: RootChain, i: nat, j: nat)
    requires Increasing(rc) && i < |rc.records| && j < |rc.records|
    ensures RecordRound(rc, i) < RecordRound(rc, j) <==> i < j
  {
  }

  /** A certificate, or none, stands at one record only. */
  lemma OnePlace(rc: RootChain, uc: Option<Certificate>, k: nat, j: nat)
    requires Increasing(rc) && At(rc, uc, k) && At(rc, uc, j)
    ensures k == j
  {
    RecordOrder(rc, k, j);
    RecordOrder(rc, j, k);
  }
}
