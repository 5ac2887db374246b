/** Values the node exchanges and stores: byte slices, input records, certificates, blocks and messages. */
module Types {

  datatype Option<+T> = None | Some(value: T)

  const U64_LIMIT: nat := 0x1_0000_0000_0000_0000

  /** An unsigned 64-bit number. */
  type U64 = n: nat | n < 0x1_0000_0000_0000_0000

  /** Unsigned addition with the wrap-around of Go's uint64. */
  function Add64(a: U64, b: U64): U64 {
    if a + b < U64_LIMIT then a + b else a + b - U64_LIMIT
  }

  type Byte = b: int | 0 <= b < 256

  /** A Go byte slice: nil and the empty slice are different values with the same content. */
  datatype Slice = Nil | Bytes(data: seq<Byte>)

  function Content(s: Slice): seq<Byte> {
    match s
    case Nil => []
    case Bytes(data) => data
  }

  /** bytes.Equal */
  predicate SameBytes(a: Slice, b: Slice) {
    Content(a) == Content(b)
  }

  const EMPTY: Slice := Bytes([])

  type PeerID = string

  const NO_PEER: PeerID := ""

  datatype InputRecord = InputRecord(
    round: U64,
    epoch: U64,
    previousHash: Slice,
    hash: Slice,
    summaryValue: Slice,
    timestamp: U64,
    blockHash: Slice,
    sumOfEarnedFees: U64,
    etHash: Slice)

  /** types.AssertEqualIR: every field agrees, slices by content. */
  predicate EqualIR(a: InputRecord, b: InputRecord) {
    && a.round == b.round
    && a.epoch == b.epoch
    && SameBytes(a.previousHash, b.previousHash)
    && SameBytes(a.hash, b.hash)
    && SameBytes(a.summaryValue, b.summaryValue)
    && a.timestamp == b.timestamp
    && SameBytes(a.blockHash, b.blockHash)
    && a.sumOfEarnedFees == b.sumOfEarnedFees
    && SameBytes(a.etHash, b.etHash)
  }

  /** A unicity certificate: the certified input record and the root-chain data the node reads. */
  datatype Certificate = Certificate(
    ir: InputRecord,
    trHash: Slice,
    rootRound: U64,
    sealTimestamp: U64)

  // The accessors below work on a missing certificate like the nil-receiver getters.

  function RoundOf(uc: Option<Certificate>): U64 {
    if uc.Some? then uc.value.ir.round else 0
  }

  function RootRoundOf(uc: Option<Certificate>): U64 {
    if uc.Some? then uc.value.rootRound else 0
  }

  function StateHashOf(uc: Option<Certificate>): Slice {
    if uc.Some? then uc.value.ir.hash else Nil
  }

  function BlockHashOf(uc: Option<Certificate>): Slice {
    if uc.Some? then uc.value.ir.blockHash else Nil
  }

  datatype TechnicalRecord = TechnicalRecord(
    round: U64,
    epoch: U64,
    leader: string,
    statHash: Slice,
    feeHash: Slice)

  /** TechnicalRecord.IsValid */
  predicate TechnicalRecordValid(tr: TechnicalRecord) {
    && tr.round != 0
    && tr.leader != ""
    && Content(tr.statHash) != []
    && Content(tr.feeHash) != []
  }

  datatype Header = Header(proposer: PeerID, previousBlockHash: Slice)

  /** A block; `cert` is None when the certificate bytes are missing or do not decode (getUCv1 fails). */
  datatype Block = Block(header: Header, cert: Option<Certificate>)

  datatype Proposal = Proposal(
    partition: nat,
    shard: nat,
    node: PeerID,
    uc: Option<Certificate>,
    technical: TechnicalRecord,
    root: Slice)

  datatype CertificationResponse = CertificationResponse(
    partition: nat,
    shard: nat,
    treePartition: Option<nat>,
    technical: TechnicalRecord,
    uc: Certificate)

  datatype ReplicationRequest = ReplicationRequest(
    partition: nat,
    shard: nat,
    node: PeerID,
    begin: U64,
    end: U64)

  datatype ReplicationStatus = Ok | InvalidRequest | WrongShard | BlocksNotFound | Unknown | Busy

  /** `blocks` is None for a nil slice. */
  datatype ReplicationResponse = ReplicationResponse(
    status: ReplicationStatus,
    blocks: Option<seq<Block>>,
    first: U64,
    last: U64)

  /** Shard configuration of one epoch; `dFG` is None when the parameter is missing or not numeric. */
  datatype ShardConf = ShardConf(epoch: U64, dFG: Option<U64>)

  /**
   Behaviour of the library code the node calls and that is not part of this repository:
   certificate verification, equivocation check, successor and initial tests, hashing, peer
   identifier decoding, and the validator set with its signatures.
   */
  datatype Library = Library(
    // Certificate.Verify; the second argument is the epoch whose configuration hash is checked, if any
    verify: (Certificate, Option<U64>) -> bool,
    // CheckNonEquivocatingCertificates(luc, uc) reports no error
    consistent: (Certificate, Certificate) -> bool,
    successor: (Certificate, Option<Certificate>) -> bool,
    initial: Certificate -> bool,
    trHash: TechnicalRecord -> Slice,
    // block hash of a header, a state hash and the previous state hash
    blockHash: (Header, Slice, Slice) -> Slice,
    decodePeer: string -> Option<PeerID>,
    // the node is a validator in the given epoch
    validator: (U64, PeerID) -> bool,
    signed: Proposal -> bool)

  /** UC.IsDuplicate: same root-chain round. */
  predicate IsDuplicate(uc: Certificate, previous: Option<Certificate>) {
    uc.rootRound == RootRoundOf(previous)
  }

  /** UC.IsRepeat: the same input record certified again in a later root-chain round. */
  predicate IsRepeat(uc: Certificate, previous: Option<Certificate>) {
    previous.Some? && EqualIR(uc.ir, previous.value.ir) && previous.value.rootRound < uc.rootRound
  }

  /** DefaultUnicityCertificateValidator.Validate: the configuration hash is checked only for the active epoch. */
  predicate CertificateValid(lib: Library, uc: Certificate, confEpoch: U64) {
    lib.verify(uc, if uc.ir.epoch == confEpoch then Some(confEpoch) else None)
  }

  /** Block.IsValid: the certified block hash is the hash of the block. */
  predicate BlockValid(lib: Library, b: Block) {
    && b.cert.Some?
    && var ir := b.cert.value.ir;
       SameBytes(ir.blockHash, lib.blockHash(b.header, ir.hash, ir.previousHash))
  }

  /** CertificationResponse.IsValid */
  predicate ResponseValid(lib: Library, cr: CertificationResponse) {
    && cr.partition != 0
    && cr.treePartition == Some(cr.partition)
    && TechnicalRecordValid(cr.technical)
    && SameBytes(lib.trHash(cr.technical), cr.uc.trHash)
  }
}
