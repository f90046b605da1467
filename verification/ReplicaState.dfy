/** The replica of async_server.cc as a state machine on values: one function for each handler.

    `slots` is the heap of log entries. An entry is identified by the sequence number it was created
    for, which never moves; entries below `low` have left the log but still exist. The log is the part
    of `slots` at or above `low`, and `index` is the digest table, holding references to entries.
    `signed`, `executed` and `sent` are histories that no handler reads. */
module ReplicaState {
  import opened Messages
  import opened Accounts
  import opened Quorum
  import Selection
  import CheckpointText

  // ---- State ----

  datatype Config = Config(id: int, f: nat, k: nat, step: nat, byzantine: bool, initial: Balances)

  function ClusterSize(cfg: Config): nat {
    3 * cfg.f + 1
  }

  function Everyone(cfg: Config): set<int> {
    Ids(ClusterSize(cfg))
  }

  datatype Status = NoStatus | PrePrepared | Prepared | Committed | Executed

  datatype Mode = Normal | ViewChange

  datatype Entry = Entry(
    m: Message,
    status: Status,
    result: bool,
    prePrepare: Request,
    prepares: map<int, Request>,
    commits: map<int, Request>)

  datatype CheckpointInfo = CheckpointInfo(state: Balances, digest: Digest, proofs: map<int, CheckpointReq>)

  datatype Execution = Execution(seqNum: int, transfer: Transfer, result: bool)

  datatype Output =
    | ForwardTransfer(to: int, m: Message)
    | SendPrePrepare(p: PrePrepareRequest)
    | SendPrePrepareOk(to: int, r: Request)
    | SendPrepare(proof: ProofRequest)
    | SendPrepareOk(to: int, r: Request)
    | SendCommit(proof: ProofRequest)
    | SendViewChange(vc: ViewChangeReq)
    | SendNewView(nv: NewViewReq)
    | SendCheckpoint(c: CheckpointReq)
    | Notify(client: int, reply: Response)

  datatype State = State(
    cfg: Config,
    view: int,
    current: int,
    low: int,
    high: int,
    slots: map<int, Entry>,
    index: map<Digest, int>,
    lastExecuted: int,
    mode: Mode,
    lastProposedView: int,
    balances: Balances,
    checkpoints: map<int, CheckpointInfo>,
    stableSeq: int,
    stableDigest: Digest,
    stableState: Balances,
    stableProofs: map<int, CheckpointReq>,
    viewChanges: map<int, map<int, ViewChangeReq>>,
    awaited: set<Digest>,
    armed: multiset<int>,
    signed: set<Context>,
    executed: seq<Execution>,
    sent: seq<Output>)

  function Init(cfg: Config): State {
    State(cfg, 1, -1, 0, cfg.k - 1, map[], map[], -1, Normal, 1, cfg.initial, map[], -1, Blank, map[],
          map[], map[], {}, multiset{}, {}, [], [])
  }

  const CLIENTS := {"A", "B", "C", "D", "E", "F", "G", "H", "I", "J"}

  /** The constants of the source: f = 2, a window of 20, a checkpoint every 10, ten accounts of 10. */
  function SourceConfig(id: int, byzantine: bool): Config {
    Config(id, 2, 20, 10, byzantine, map name | name in CLIENTS :: 10)
  }

  function LeaderOf(cfg: Config, view: int): int {
    view % ClusterSize(cfg)
  }

  predicate IsLeader(s: State) {
    s.cfg.id == LeaderOf(s.cfg, s.view)
  }

  /** Sign a context with this replica's MAC vector. */
  function Sign(cfg: Config, data: Context): Request {
    Selection.Sign(cfg.id, Everyone(cfg), data)
  }

  /** A request verifies at a replica when its MAC vector has a good MAC for that replica. */
  predicate Verifies(cfg: Config, r: Request) {
    cfg.id in r.sig.validFor
  }

  predicate InWindow(s: State, n: int) {
    s.low <= n <= s.high
  }

  /** The log has an entry at n. */
  predicate Present(s: State, n: int) {
    InWindow(s, n) && n in s.slots
  }

  function Emit(s: State, o: Output): State {
    s.(sent := s.sent + [o])
  }

  function Put(s: State, n: int, e: Entry): State {
    s.(slots := s.slots[n := e])
  }

  function NotifyClient(s: State, client: int, t: Transfer, ack: bool): State {
    Emit(s, Notify(client, Response(t, ack, s.view, Signature(s.cfg.id, true))))
  }

  // ---- Execution and checkpoints ----

  /** Record the balances as the checkpoint of lastExecuted and announce their digest. */
  function Checkpoint(s: State): State
    requires s.balances.Keys != {}
  {
    var proofs := if s.lastExecuted in s.checkpoints then s.checkpoints[s.lastExecuted].proofs else map[];
    var digest := StateDigest(CheckpointText.Text(s.balances));
    Emit(s.(checkpoints := s.checkpoints[s.lastExecuted := CheckpointInfo(s.balances, digest, proofs)]),
         SendCheckpoint(CheckpointReq(CheckpointData(s.lastExecuted, digest), Signature(s.cfg.id, true))))
  }

  function ExecuteOne(s: State, n: int): State
    requires n in s.slots
  {
    var e := s.slots[n];
    var applied := Apply(s.balances, e.m.data);
    var s1 := Put(s, n, e.(status := Executed, result := applied.ok));
    var s2 := s1.(balances := applied.balances, lastExecuted := n,
                  executed := s1.executed + [Execution(n, e.m.data, applied.ok)]);
    assert e.m.data.sender in applied.balances.Keys;
    var s3 := NotifyClient(s2, e.m.sig.signer, e.m.data, applied.ok);
    if s.cfg.step > 0 && n % s.cfg.step == s.cfg.step - 1 then Checkpoint(s3) else s3
  }

  /** One pass over the log from n: empty slots are stepped over, the first slot that is neither
      committed nor executed ends the pass. */
  function ExecuteFrom(s: State, n: int): State
    decreases s.current - n
  {
    if n > s.current then s
    else if n !in s.slots then ExecuteFrom(s, n + 1)
    else if s.slots[n].status == Committed then
      ExecuteFrom(ExecuteOne(s, n), n + 1)
    else if s.slots[n].status == Executed then ExecuteFrom(s, n + 1)
    else s
  }

  function ExecutePending(s: State): State {
    ExecuteFrom(s, s.lastExecuted + 1)
  }

  // ---- Normal case ----

  /** The entry the digest table gives for a transfer. */
  predicate Known(s: State, t: Transfer) {
    TransferDigest(t) in s.index && s.index[TransferDigest(t)] in s.slots
  }

  /** The request a leader proposes for a new transfer, in the slot after the last. */
  function Proposal(s: State, m: Message): Request {
    Sign(s.cfg, Context(s.view, s.current + 1, TransferDigest(m.data)))
  }

  function Propose(s: State, m: Message): State {
    var n, r := s.current + 1, Proposal(s, m);
    s.(current := n,
       slots := s.slots[n := Entry(m, PrePrepared, false, r, map[], map[])],
       index := s.index[r.data.digest := n],
       signed := s.signed + {r.data},
       sent := s.sent + [SendPrePrepare(PrePrepareRequest(r, m))])
  }

  /** An entry that an earlier leader proposed, proposed again in the current view with its proofs dropped. */
  function Reproposed(s: State, e: Entry): Entry {
    e.(prePrepare := Sign(s.cfg, e.prePrepare.data.(view := s.view)), prepares := map[], commits := map[])
  }

  function Repropose(s: State, m: Message, n: int): State
    requires n in s.slots
  {
    var e := Reproposed(s, s.slots[n]);
    s.(slots := s.slots[n := e],
       signed := s.signed + {e.prePrepare.data},
       sent := s.sent + [SendPrePrepare(PrePrepareRequest(e.prePrepare, m))])
  }

  /** A request reaches a correct leader for an entry that it did not propose itself. */
  predicate Inherited(s: State, e: Entry) {
    e.prePrepare.sig.signer != LeaderOf(s.cfg, s.view) && !s.cfg.byzantine
  }

  function ProcessTransfer(s: State, m: Message): State {
    var digest := TransferDigest(m.data);
    if s.mode == ViewChange || !m.sig.valid then s
    else if Known(s, m.data) && s.slots[s.index[digest]].status == Executed then
      NotifyClient(s, m.sig.signer, m.data, s.slots[s.index[digest]].result)
    else if !IsLeader(s) then
      Emit(s, ForwardTransfer(LeaderOf(s.cfg, s.view), m)).(awaited := s.awaited + {digest})
    else if !Known(s, m.data) then Propose(s, m)
    else if Inherited(s, s.slots[s.index[digest]]) then Repropose(s, m, s.index[digest])
    else s
  }

  /** The checks a pre-prepare must pass before the replica looks at the slot. */
  predicate PrePrepareOffered(s: State, p: PrePrepareRequest) {
    s.mode == Normal &&
    p.r.sig.signer == LeaderOf(s.cfg, s.view) &&
    p.m.sig.valid &&
    p.r.data.view == s.view &&
    InWindow(s, p.r.data.seqNum) &&
    p.r.data.digest == TransferDigest(p.m.data)
  }

  /** The slot already holds a different digest of the same or a later view. */
  predicate SlotTaken(s: State, data: Context) {
    data.seqNum in s.slots &&
    data.view <= s.slots[data.seqNum].prePrepare.data.view &&
    data.digest != s.slots[data.seqNum].prePrepare.data.digest
  }

  /** The entry an accepted pre-prepare leaves in its slot: its proofs start over with this replica's own. */
  function Opened(s: State, p: PrePrepareRequest): Entry {
    var n := p.r.data.seqNum;
    Entry(p.m, PrePrepared, n in s.slots && s.slots[n].result, p.r,
          map[s.cfg.id := Sign(s.cfg, p.r.data)], map[])
  }

  function ProcessPrePrepare(s: State, p: PrePrepareRequest): State {
    var data := p.r.data;
    if !PrePrepareOffered(s, p) then s
    else if SlotTaken(s, data) then
      s.(awaited := s.awaited - {data.digest}, current := Max(data.seqNum, s.current))
    else
      var s1 := Put(s, data.seqNum, Opened(s, p)).(
        awaited := s.awaited - {data.digest}, current := Max(data.seqNum, s.current),
        index := s.index[data.digest := data.seqNum], signed := s.signed + {data});
      if s.cfg.byzantine then s1 else Emit(s1, SendPrePrepareOk(p.r.sig.signer, Sign(s.cfg, data)))
  }

  /** The leader looks at the slot named by an acknowledgement. */
  predicate AckOffered(s: State, r: Request) {
    s.mode == Normal && IsLeader(s) && Verifies(s.cfg, r)
  }

  /** The acknowledgement names the digest of the entry; its view is not compared. */
  predicate AckMatches(e: Entry, r: Request) {
    e.prePrepare.data.digest == r.data.digest
  }

  function WithPrePrepareOk(cfg: Config, e: Entry, r: Request): Entry {
    var prepares := e.prepares[r.sig.signer := r];
    e.(prepares := prepares,
       status := if !cfg.byzantine && e.status == PrePrepared && |prepares| >= 2 * cfg.f then Prepared else e.status)
  }

  function ProcessPrePrepareOk(s: State, r: Request): State
    requires AckOffered(s, r) ==> Present(s, r.data.seqNum)
  {
    var n := r.data.seqNum;
    if !AckOffered(s, r) || !AckMatches(s.slots[n], r) then s
    else
      var e := WithPrePrepareOk(s.cfg, s.slots[n], r);
      if s.slots[n].status == PrePrepared && e.status == Prepared then
        Put(s, n, e).(armed := s.armed + multiset{n})
      else Put(s, n, e)
  }

  /** The signatures of a certificate that count at replica `me`: those with a good MAC for it, and
      its own, which is not checked. */
  function AddProofs(me: int, data: Context, sigs: seq<SignatureVec>, proofs: map<int, Request>): map<int, Request> {
    if sigs == [] then proofs
    else
      var before := AddProofs(me, data, sigs[..|sigs| - 1], proofs);
      var sig := sigs[|sigs| - 1];
      if sig.signer == me || me in sig.validFor then before[sig.signer := Request(data, sig)] else before
  }

  /** A certificate names the view and digest of the entry. */
  predicate Matches(e: Entry, data: Context) {
    data.view == e.prePrepare.data.view && data.digest == e.prePrepare.data.digest
  }

  /** A certificate message is looked at when its slot is present with one of the given statuses. */
  predicate ProofOffered(s: State, p: ProofRequest, statuses: set<Status>) {
    s.mode == Normal && !s.cfg.byzantine && p.data.view == s.view &&
    Present(s, p.data.seqNum) && s.slots[p.data.seqNum].status in statuses
  }

  function WithPrepares(cfg: Config, e: Entry, p: ProofRequest): Entry {
    var prepares := if Matches(e, p.data) then AddProofs(cfg.id, p.data, p.sigs, e.prepares) else e.prepares;
    e.(prepares := prepares, status := if |prepares| >= 2 * cfg.f then Prepared else e.status)
  }

  function ProcessPrepare(s: State, p: ProofRequest): State {
    var n := p.data.seqNum;
    if !ProofOffered(s, p, {PrePrepared}) then s
    else
      var s1 := Put(s, n, WithPrepares(s.cfg, s.slots[n], p));
      if s1.slots[n].status == Prepared then
        Emit(s1.(signed := s.signed + {p.data}), SendPrepareOk(LeaderOf(s.cfg, s.view), Sign(s.cfg, p.data)))
      else s1
  }

  function WithPrepareOk(cfg: Config, e: Entry, r: Request): Entry {
    var commits := e.commits[r.sig.signer := r];
    e.(commits := commits,
       status := if e.status == Prepared && |commits| >= 2 * cfg.f + 1 then Committed else e.status)
  }

  /** The commit certificate of an entry, with every vote it stores. */
  function CommitProof(e: Entry): ProofRequest {
    ProofRequest(e.prePrepare.data, SigsOf(SortedValues(e.commits)))
  }

  function ProcessPrepareOk(s: State, r: Request): State
    requires AckOffered(s, r) ==> Present(s, r.data.seqNum)
  {
    var n := r.data.seqNum;
    if !AckOffered(s, r) || !AckMatches(s.slots[n], r) then s
    else
      var e := WithPrepareOk(s.cfg, s.slots[n], r);
      if s.slots[n].status == Prepared && e.status == Committed then
        Emit(ExecutePending(Put(s, n, e)), SendCommit(CommitProof(e)))
      else Put(s, n, e)
  }

  function WithCommits(cfg: Config, e: Entry, p: ProofRequest): Entry {
    var commits := if Matches(e, p.data) then AddProofs(cfg.id, p.data, p.sigs, e.commits) else e.commits;
    e.(commits := commits, status := if |commits| >= 2 * cfg.f + 1 then Committed else e.status)
  }

  function ProcessCommit(s: State, p: ProofRequest): State {
    var n := p.data.seqNum;
    if !ProofOffered(s, p, {PrePrepared, Prepared}) then s
    else
      var s1 := Put(s, n, WithCommits(s.cfg, s.slots[n], p));
      if s1.slots[n].status == Committed then ExecutePending(s1) else s1
  }

  /** All 3f backups have acknowledged. */
  predicate AllPrepared(cfg: Config, e: Entry) {
    |e.prepares| == 3 * cfg.f
  }

  function WithOwnCommit(cfg: Config, e: Entry): Entry {
    var own := Sign(cfg, e.prePrepare.data);
    if AllPrepared(cfg, e) then e.(status := Committed, commits := e.prepares[cfg.id := own])
    else e.(commits := e.commits[cfg.id := own])
  }

  /** The certificate the timer sends: the stored prepares, and on the fast path the leader's own vote. */
  function PrepareProofOf(cfg: Config, e: Entry): ProofRequest {
    ProofRequest(e.prePrepare.data,
                 SigsOf(SortedValues(e.prepares)) +
                 (if AllPrepared(cfg, e) then [Sign(cfg, e.prePrepare.data).sig] else []))
  }

  /** The leader's timer after 2f acknowledgements. With all 3f it commits at once; otherwise it
      adds its own commit vote and asks for the second phase. */
  function OptimisticTimer(s: State, n: int): State
    requires s.mode == Normal ==> Present(s, n)
  {
    if s.mode == ViewChange then s.(armed := s.armed - multiset{n})
    else
      var e := s.slots[n];
      var s1 := Put(s, n, WithOwnCommit(s.cfg, e)).(
        armed := s.armed - multiset{n}, signed := s.signed + {e.prePrepare.data});
      if AllPrepared(s.cfg, e) then ExecutePending(Emit(s1, SendCommit(PrepareProofOf(s.cfg, e))))
      else Emit(s1, SendPrepare(PrepareProofOf(s.cfg, e)))
  }

  // ---- Checkpoint messages and the sliding window ----

  /** The checkpoint message is new and agrees with what is recorded for its sequence number. A record
      made by an earlier message has a blank digest until this replica gets there. */
  predicate CheckpointOffered(s: State, c: CheckpointReq) {
    c.sig.valid && s.stableSeq < c.data.seqNum &&
    (c.data.seqNum in s.checkpoints ==> s.checkpoints[c.data.seqNum].digest == c.data.digest)
  }

  function RecordCheckpoint(s: State, c: CheckpointReq): CheckpointInfo {
    var info := if c.data.seqNum in s.checkpoints then s.checkpoints[c.data.seqNum]
                else CheckpointInfo(map[], Blank, map[]);
    info.(proofs := info.proofs[c.sig.signer := c])
  }

  predicate BecomesStable(s: State, c: CheckpointReq) {
    CheckpointOffered(s, c) && c.data.seqNum <= s.lastExecuted &&
    |RecordCheckpoint(s, c).proofs| >= 2 * s.cfg.f + 1
  }

  function DigestsUpTo(s: State, n: int): set<Digest> {
    set i | i in s.slots && s.low <= i <= n :: s.slots[i].prePrepare.data.digest
  }

  function ProcessCheckpoint(s: State, c: CheckpointReq): State {
    if !CheckpointOffered(s, c) then s
    else
      var n := c.data.seqNum;
      var info := RecordCheckpoint(s, c);
      if !BecomesStable(s, c) then s.(checkpoints := s.checkpoints[n := info])
      else
        s.(stableSeq := n, stableDigest := info.digest, stableState := info.state, stableProofs := info.proofs,
           checkpoints := s.checkpoints - {n},
           low := n + 1, high := n + s.cfg.k,
           index := s.index - DigestsUpTo(s, n))
  }

  // ---- View changes ----

  predicate AtLeastPrepared(e: Entry) {
    e.status == Prepared || e.status == Committed || e.status == Executed
  }

  /** Prepare proofs of the prepared slots in [from, to), in slot order. */
  function PreparedProofs(s: State, from: int, until: int): seq<PrepareProof>
    decreases until - from
  {
    if until <= from then []
    else
      var n := until - 1;
      PreparedProofs(s, from, n) +
      (if n in s.slots && AtLeastPrepared(s.slots[n])
       then [PrepareProof(s.slots[n].prePrepare, SortedValues(s.slots[n].prepares))] else [])
  }

  function Compose(s: State, view: int): ViewChangeReq {
    ViewChangeReq(
      ViewChangeData(view, CheckpointData(s.stableSeq, s.stableDigest), SortedValues(s.stableProofs),
                     PreparedProofs(s, s.stableSeq + 1, s.low + s.cfg.k)),
      Signature(s.cfg.id, true))
  }

  /** Checkpoint messages that verify and carry the claimed checkpoint. */
  function CheckpointCount(c: CheckpointData, cproofs: seq<CheckpointReq>): nat {
    if cproofs == [] then 0
    else
      var p := cproofs[|cproofs| - 1];
      CheckpointCount(c, cproofs[..|cproofs| - 1]) + (if p.data == c && p.sig.valid then 1 else 0)
  }

  predicate VerifyViewChange(cfg: Config, vc: ViewChangeReq) {
    var d := vc.data;
    vc.sig.valid &&
    (d.lastCheckpoint.seqNum == -1 ||
     (CheckpointCount(d.lastCheckpoint, d.cproofs) >= 2 * cfg.f + 1 &&
      forall p | p in d.pproofs ::
        Selection.ValidCount(cfg.id, p.prePrepare.data.digest, p.prepares) >= 2 * cfg.f))
  }

  function TriggerViewChange(s: State, view: int): State {
    Emit(s, SendViewChange(Compose(s, view))).(mode := ViewChange, lastProposedView := view)
  }

  function BigO(cfg: Config, vcs: seq<ViewChangeReq>): seq<Request> {
    Selection.BigO(cfg.id, cfg.f, Everyone(cfg), vcs)
  }

  /** Filling a slot nobody prepared makes the selecting replica sign the NOP. */
  function SignedBySelection(o: seq<Request>): set<Context> {
    if exists r :: r in o && r.data == NOP then {NOP} else {}
  }

  function Received(s: State, vc: ViewChangeReq): map<int, ViewChangeReq> {
    (if vc.data.view in s.viewChanges then s.viewChanges[vc.data.view] else map[])[vc.sig.signer := vc]
  }

  /** What the new leader broadcasts once it holds 2f view changes besides its own. */
  function NewViewOf(s: State, view: int, msgs: map<int, ViewChangeReq>): NewViewReq {
    var vcs := SortedValues(msgs);
    NewViewReq(view, vcs, BigO(s.cfg, vcs), Signature(s.cfg.id, true))
  }

  /** The leader of the new view adds its own view change, enters the view and announces it. */
  function StartView(s: State, view: int, msgs: map<int, ViewChangeReq>): State {
    var all := msgs[s.cfg.id := Compose(s, view)];
    var nv := NewViewOf(s, view, all);
    s.(viewChanges := s.viewChanges[view := all], mode := Normal, view := view,
       signed := s.signed + SignedBySelection(nv.prePrepares),
       sent := s.sent + [SendNewView(nv)])
  }

  function ProcessViewChange(s: State, vc: ViewChangeReq): State {
    var view := vc.data.view;
    if !VerifyViewChange(s.cfg, vc) || view <= s.view then s
    else
      var msgs := Received(s, vc);
      var s1 := s.(viewChanges := s.viewChanges[view := msgs]);
      if LeaderOf(s.cfg, view) != s.cfg.id then
        if |msgs| == s.cfg.f + 1 && s.mode != ViewChange then TriggerViewChange(s1, view) else s1
      else if s.cfg.byzantine || |msgs| != 2 * s.cfg.f then s1
      else StartView(s1, view, msgs)
  }

  function ValidViewChanges(cfg: Config, vcs: seq<ViewChangeReq>): nat {
    if vcs == [] then 0
    else ValidViewChanges(cfg, vcs[..|vcs| - 1]) + (if VerifyViewChange(cfg, vcs[|vcs| - 1]) then 1 else 0)
  }

  predicate NewViewOffered(s: State, nv: NewViewReq) {
    nv.sig.valid && s.view < nv.view && ValidViewChanges(s.cfg, nv.vproofs) >= 2 * s.cfg.f + 1
  }

  /** The announced list agrees with o wherever both have an entry. */
  predicate AgreeUpTo(o: seq<Request>, announced: seq<Request>) {
    forall i | 0 <= i < |o| && i < |announced| :: o[i].data == announced[i].data
  }

  function BySender(vcs: seq<ViewChangeReq>): map<int, ViewChangeReq> {
    if vcs == [] then map[]
    else BySender(vcs[..|vcs| - 1])[vcs[|vcs| - 1].sig.signer := vcs[|vcs| - 1]]
  }

  /** The contexts a backup votes for again when it enters a view. */
  function Revotes(prePrepares: seq<Request>): set<Context> {
    set r | r in prePrepares :: r.data
  }

  function RevoteOuts(cfg: Config, view: int, prePrepares: seq<Request>): seq<Output> {
    seq(|prePrepares|, i requires 0 <= i < |prePrepares| =>
      SendPrePrepareOk(LeaderOf(cfg, view), Sign(cfg, prePrepares[i].data)))
  }

  /** The announced list is at least as long as the recomputed one, or differs from it before its end. */
  predicate NewViewReadable(s: State, nv: NewViewReq) {
    NewViewOffered(s, nv) ==>
      var o := BigO(s.cfg, nv.vproofs);
      |o| <= |nv.prePrepares| || !AgreeUpTo(o, nv.prePrepares)
  }

  predicate NewViewAccepted(s: State, nv: NewViewReq) {
    NewViewOffered(s, nv) && AgreeUpTo(BigO(s.cfg, nv.vproofs), nv.prePrepares)
  }

  function ProcessNewView(s: State, nv: NewViewReq): State
    requires NewViewReadable(s, nv)
  {
    if !NewViewOffered(s, nv) then s
    else
      var o := BigO(s.cfg, nv.vproofs);
      var s1 := s.(signed := s.signed + SignedBySelection(o));
      if !NewViewAccepted(s, nv) then s1
      else
        s1.(mode := Normal, view := nv.view,
            viewChanges := s.viewChanges[nv.view := BySender(nv.vproofs)],
            signed := s1.signed + Revotes(nv.prePrepares),
            sent := s.sent + RevoteOuts(s.cfg, nv.view, nv.prePrepares))
  }

  // ---- View-change timers ----

  /** The replica already is, or already asked to be, in that view. */
  predicate Settled(s: State, view: int) {
    (s.mode == Normal && view <= s.view) || (s.mode == ViewChange && view <= s.lastProposedView)
  }

  function DigestTimer(s: State, digest: Digest, view: int): State {
    if Settled(s, view) || digest !in s.awaited || IsLeader(s) then s else TriggerViewChange(s, view)
  }

  function SlotTimer(s: State, n: int, view: int): State
    requires !Settled(s, view) && s.lastExecuted < n ==> Present(s, n)
  {
    if Settled(s, view) || n <= s.lastExecuted || s.slots[n].status == Executed then s
    else TriggerViewChange(s, view)
  }

  function ViewTimer(s: State, view: int): State {
    if s.mode == Normal || Settled(s, view) then s else s.(lastProposedView := view)
  }

  // ---- The replica as a transition system ----

  datatype Event =
    | OnTransfer(m: Message)
    | OnPrePrepare(p: PrePrepareRequest)
    | OnPrePrepareOk(r: Request)
    | OnPrepare(proof: ProofRequest)
    | OnPrepareOk(r: Request)
    | OnCommit(proof: ProofRequest)
    | OnViewChange(vc: ViewChangeReq)
    | OnNewView(nv: NewViewReq)
    | OnCheckpoint(c: CheckpointReq)
    | OnOptimisticTimer(n: int)
    | OnDigestTimer(digest: Digest, view: int)
    | OnSlotTimer(n: int, view: int)
    | OnViewTimer(view: int)

  /** A transfer makes the leader open a new slot. */
  predicate Proposes(s: State, m: Message) {
    s.mode == Normal && m.sig.valid && IsLeader(s) && !Known(s, m.data)
  }

  /** The handler reads no null slot and no slot outside the log. */
  predicate Enabled(s: State, e: Event) {
    match e
    case OnTransfer(m) => Proposes(s, m) ==> s.current < s.high
    case OnPrePrepareOk(r) => AckOffered(s, r) ==> Present(s, r.data.seqNum)
    case OnPrepareOk(r) => AckOffered(s, r) ==> Present(s, r.data.seqNum)
    case OnNewView(nv) => NewViewReadable(s, nv)
    case OnCheckpoint(c) => BecomesStable(s, c) ==> forall n | s.low <= n <= c.data.seqNum :: n in s.slots
    case OnOptimisticTimer(n) => n in s.armed && (s.mode == Normal ==> Present(s, n))
    case OnSlotTimer(n, view) => !Settled(s, view) && s.lastExecuted < n ==> Present(s, n)
    case _ => true
  }

  function Next(s: State, e: Event): State
    requires Enabled(s, e)
  {
    match e
    case OnTransfer(m) => ProcessTransfer(s, m)
    case OnPrePrepare(p) => ProcessPrePrepare(s, p)
    case OnPrePrepareOk(r) => ProcessPrePrepareOk(s, r)
    case OnPrepare(p) => ProcessPrepare(s, p)
    case OnPrepareOk(r) => ProcessPrepareOk(s, r)
    case OnCommit(p) => ProcessCommit(s, p)
    case OnViewChange(vc) => ProcessViewChange(s, vc)
    case OnNewView(nv) => ProcessNewView(s, nv)
    case OnCheckpoint(c) => ProcessCheckpoint(s, c)
    case OnOptimisticTimer(n) => OptimisticTimer(s, n)
    case OnDigestTimer(d, view) => DigestTimer(s, d, view)
    case OnSlotTimer(n, view) => SlotTimer(s, n, view)
    case OnViewTimer(view) => ViewTimer(s, view)
  }
}
