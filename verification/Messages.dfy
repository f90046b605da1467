/** The protocol's messages (pbft.proto) as values.

    Signatures are symbolic. A MAC vector names its signer and the receivers for which its MAC
    checks; a public-key signature names its signer and whether it checks. A digest is a free
    constructor applied to what was hashed, so hashing has no collisions. */
module Messages {
  datatype Option<+T> = None | Some(value: T)

  datatype Transfer = Transfer(sender: string, receiver: string, amount: int, timestamp: int)

  datatype Digest =
    | TransferDigest(t: Transfer)
    | StateDigest(text: string)
    | Blank
    | Other(name: string)

  datatype Context = Context(view: int, seqNum: int, digest: Digest)

  datatype SignatureVec = SignatureVec(signer: int, validFor: set<int>)

  datatype Signature = Signature(signer: int, valid: bool)

  datatype Message = Message(data: Transfer, sig: Signature)

  datatype Request = Request(data: Context, sig: SignatureVec)

  datatype PrePrepareRequest = PrePrepareRequest(r: Request, m: Message)

  datatype ProofRequest = ProofRequest(data: Context, sigs: seq<SignatureVec>)

  datatype CheckpointData = CheckpointData(seqNum: int, digest: Digest)

  datatype CheckpointReq = CheckpointReq(data: CheckpointData, sig: Signature)

  datatype PrepareProof = PrepareProof(prePrepare: Request, prepares: seq<Request>)

  datatype ViewChangeData = ViewChangeData(
    view: int,
    lastCheckpoint: CheckpointData,
    cproofs: seq<CheckpointReq>,
    pproofs: seq<PrepareProof>)

  datatype ViewChangeReq = ViewChangeReq(data: ViewChangeData, sig: Signature)

  datatype NewViewReq = NewViewReq(
    view: int,
    vproofs: seq<ViewChangeReq>,
    prePrepares: seq<Request>,
    sig: Signature)

  datatype Response = Response(tdata: Transfer, ack: bool, view: int, sig: Signature)

  /** The context a new leader puts in for a slot that nobody prepared. */
  const NOP := Context(-1, -1, Blank)

  function Max(a: int, b: int): int {
    if a < b then b else a
  }

  function SigsOf(rs: seq<Request>): (sigs: seq<SignatureVec>)
  {
    seq(|rs|, i requires 0 <= i < |rs| => rs[i].sig)
  }
}
