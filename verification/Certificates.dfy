/** The leader's certificates, over every run: what each one carries, exactly when it is sent, and what it does to a
    backup that receives it. */
module Certificates {
  import opened Messages
  import opened Quorum
  import opened ReplicaState
  import opened Change
  import opened Window
  import opened OneView
  import Accounts
  import CheckpointText

  // ---- Votes are stored under their signers ----

  ghost predicate KeyedBy(proofs: map<int, Request>) {
    forall p | p in proofs :: proofs[p].sig.signer == p
  }

  ghost predicate Keyed(e: Entry) {
    KeyedBy(e.prepares) && KeyedBy(e.commits)
  }

  ghost predicate KeyedInv(s: State) {
    forall n | n in s.slots :: Keyed(s.slots[n])
  }

  ghost predicate WriteKeyed(c: Change) {
    c.write.Some? ==> Keyed(c.write.value.e)
  }

  lemma TransferKeyed(s: State, m: Message)
    ensures WriteKeyed(TransferChange(s, m))
  {
    hide IsLeader, LeaderOf, Everyone, Inherited;
  }

  lemma PrePrepareKeyed(s: State, p: PrePrepareRequest)
    ensures WriteKeyed(PrePrepareChange(s, p))
  {
    hide PrePrepareOffered, SlotTaken, Everyone;
  }

  lemma AckKeyed(s: State, r: Request)
    requires KeyedInv(s)
    ensures WriteKeyed(PrePrepareOkChange(s, r)) && WriteKeyed(PrepareOkChange(s, r))
  {
    hide AckOffered, AckMatches;
  }

  lemma CertificateKeyed(s: State, p: ProofRequest)
    requires KeyedInv(s)
    ensures WriteKeyed(PrepareChange(s, p)) && WriteKeyed(CommitChange(s, p))
  {
    hide AddProofs, Sign, LeaderOf, Countable;
    if p.data.seqNum in s.slots {
      AddProofsCounts(s.cfg.id, p.data, p.sigs, s.slots[p.data.seqNum].prepares);
      AddProofsCounts(s.cfg.id, p.data, p.sigs, s.slots[p.data.seqNum].commits);
    }
  }

  lemma TimerKeyed(s: State, n: int)
    requires KeyedInv(s)
    ensures WriteKeyed(OptimisticTimerChange(s, n))
  {
    hide PrepareProofOf, AllPrepared, Everyone;
  }

  lemma ChangeKeyed(s: State, e: Event)
    requires KeyedInv(s) && !e.OnCheckpoint?
    ensures WriteKeyed(ChangeOf(s, e))
  {
    hide KeyedInv, WriteKeyed, TransferChange, PrePrepareChange, PrePrepareOkChange, PrepareChange, PrepareOkChange,
         CommitChange, OptimisticTimerChange;
    match e
    case OnTransfer(m) => TransferKeyed(s, m);
    case OnPrePrepare(p) => PrePrepareKeyed(s, p);
    case OnPrePrepareOk(r) => AckKeyed(s, r);
    case OnPrepare(p) => CertificateKeyed(s, p);
    case OnPrepareOk(r) => AckKeyed(s, r);
    case OnCommit(p) => CertificateKeyed(s, p);
    case OnOptimisticTimer(n) => TimerKeyed(s, n);
    case _ => ViewsKeyed(s, e);
  }

  lemma ViewsKeyed(s: State, e: Event)
    requires AboutViews(e)
    ensures WriteKeyed(ChangeOf(s, e))
  {
    hide ChangeOf;
    ViewsQuiet(s, e);
  }

  lemma SlotsKeyed(s: State, t: State)
    requires KeyedInv(s) && t.slots.Keys == s.slots.Keys
    requires forall n | n in s.slots ::
               t.slots[n].prepares == s.slots[n].prepares && t.slots[n].commits == s.slots[n].commits
    ensures KeyedInv(t)
  {
    hide KeyedBy;
  }

  lemma FinishedKeyed(s: State, e: Event, mid: State, t: State)
    requires KeyedInv(mid) && Finished(s, e, mid, t)
    ensures KeyedInv(t)
  {
    hide Commits, ExecutePending, KeyedInv;
    ExecutePendingRan(mid);
    SlotsKeyed(mid, t);
  }

  lemma MadeKeyed(s: State, c: Change, mid: State)
    requires KeyedInv(s) && Made(s, c, mid) && WriteKeyed(c)
    ensures KeyedInv(mid)
  {
    hide Keyed;
  }

  lemma NextKeepsKeyed(s: State, e: Event)
    requires KeyedInv(s) && Enabled(s, e)
    ensures KeyedInv(Next(s, e))
  {
    hide KeyedInv, ChangeOf, Made, Finished, WriteKeyed, ProcessTransfer, ProcessPrePrepare, ProcessPrePrepareOk,
         ProcessPrepare, ProcessPrepareOk, ProcessCommit, ProcessViewChange, ProcessNewView, ProcessCheckpoint,
         OptimisticTimer, DigestTimer, SlotTimer, ViewTimer;
    if e.OnCheckpoint? {
      CheckpointFields(s, e.c);
      SlotsKeyed(s, Next(s, e));
    } else {
      var mid := NextMade(s, e);
      ChangeKeyed(s, e);
      MadeKeyed(s, ChangeOf(s, e), mid);
      FinishedKeyed(s, e, mid, Next(s, e));
    }
  }

  lemma {:induction false} KeyedAlways(cfg: Config, es: seq<Event>)
    requires Run(Init(cfg), es).Some?
    ensures KeyedInv(Run(Init(cfg), es).value)
  {
    if es != [] {
      hide Next, Enabled, KeyedInv;
      KeyedAlways(cfg, es[..|es| - 1]);
      NextKeepsKeyed(Run(Init(cfg), es[..|es| - 1]).value, es[|es| - 1]);
    }
  }

  // ---- What a certificate carries ----

  function Signers(p: ProofRequest): set<int> {
    set sig | sig in p.sigs :: sig.signer
  }

  /** The certificate carries exactly the signatures of these votes, each once. */
  ghost predicate Carries(p: ProofRequest, votes: map<int, Request>) {
    |p.sigs| == |votes.Keys| && Signers(p) == votes.Keys &&
    (forall sig | sig in p.sigs :: votes[sig.signer].sig == sig) &&
    (forall v | v in votes :: votes[v].sig in p.sigs)
  }

  lemma SortedCarries(data: Context, votes: map<int, Request>)
    requires KeyedBy(votes)
    ensures Carries(ProofRequest(data, SigsOf(SortedValues(votes))), votes)
  {
    var rs := SortedValues(votes);
    var p := ProofRequest(data, SigsOf(rs));
    assert |votes| == |votes.Keys|;
    forall v | v in votes
      ensures votes[v].sig in p.sigs && v in Signers(p)
    {
      var i :| 0 <= i < |rs| && rs[i] == votes[v];
      assert p.sigs[i] == votes[v].sig;
    }
    forall sig | sig in p.sigs
      ensures sig.signer in votes && votes[sig.signer].sig == sig
    {
      var i :| 0 <= i < |p.sigs| && p.sigs[i] == sig;
      assert rs[i] in rs;
      var k :| k in votes && votes[k] == rs[i];
    }
    SameSet(Signers(p), votes.Keys);
  }

  // ---- Acknowledgements ----

  /** A leader in normal mode gets a vote with a good MAC, on the digest of a slot of its log. */
  predicate TakesVote(s: State, r: Request) {
    var n := r.data.seqNum;
    s.mode == Normal && s.cfg.id == s.view % (3 * s.cfg.f + 1) && s.cfg.id in r.sig.validFor &&
    s.low <= n <= s.high && n in s.slots && s.slots[n].prePrepare.data.digest == r.data.digest
  }

  /** A PRE_PREPARE_OK, exactly: the vote is stored besides those there, and the slot becomes prepared, its timer
      started, if and only if it waited for that and now 2f distinct backups have voted. */
  lemma AckExactly(s: State, r: Request)
    requires TakesVote(s, r) && !s.cfg.byzantine
    ensures Enabled(s, OnPrePrepareOk(r))
    ensures var n, t := r.data.seqNum, Next(s, OnPrePrepareOk(r));
            var votes := s.slots[n].prepares[r.sig.signer := r];
            var prepared := s.slots[n].status == PrePrepared && |votes.Keys| >= 2 * s.cfg.f;
            t == s.(slots := s.slots[n := s.slots[n].(prepares := votes,
                                                      status := if prepared then Prepared else s.slots[n].status)],
                    armed := if prepared then s.armed + multiset{n} else s.armed)
  {
    hide WithPrePrepareOk, AckOffered, AckMatches, TakesVote;
    AckTaken(s, r);
    AckStored(s.cfg, s.slots[r.data.seqNum], r);
  }

  lemma AckTaken(s: State, r: Request)
    requires TakesVote(s, r)
    ensures AckOffered(s, r) && Present(s, r.data.seqNum) && AckMatches(s.slots[r.data.seqNum], r)
  {
  }

  lemma AckStored(cfg: Config, e: Entry, r: Request)
    requires !cfg.byzantine
    ensures var votes := e.prepares[r.sig.signer := r];
            WithPrePrepareOk(cfg, e, r) ==
              e.(prepares := votes,
                 status := if e.status == PrePrepared && |votes.Keys| >= 2 * cfg.f then Prepared else e.status)
  {
    assert |e.prepares[r.sig.signer := r]| == |e.prepares[r.sig.signer := r].Keys|;
  }

  /** A PREPARE_OK, exactly, at every moment of every run: the vote is stored besides those there, and the slot
      commits if and only if it was prepared and now 2f + 1 distinct replicas have voted. Then, and only then, the
      leader broadcasts a certificate: for the slot's own context, with exactly the signatures of the stored votes. */
  lemma CommitExactly(cfg: Config, s: State, r: Request)
    requires Reached(cfg, s) && TakesVote(s, r)
    ensures Enabled(s, OnPrepareOk(r)) && r.data.seqNum in Next(s, OnPrepareOk(r)).slots
    ensures var n, t := r.data.seqNum, Next(s, OnPrepareOk(r));
            var votes := s.slots[n].commits[r.sig.signer := r];
            t.slots[n].commits == votes &&
            (s.slots[n].status == Prepared && |votes.Keys| >= 2 * s.cfg.f + 1 ==>
               t.slots[n].status in {Committed, Executed} && Broadcasts(t, s.slots[n].prePrepare.data, votes)) &&
            (!(s.slots[n].status == Prepared && |votes.Keys| >= 2 * s.cfg.f + 1) ==>
               t.slots[n].status == s.slots[n].status && t.sent == s.sent)
  {
    hide Run, Init, KeyedInv, Carries, ExecutePending, SortedValues;
    var n := r.data.seqNum;
    var votes := s.slots[n].commits[r.sig.signer := r];
    var es :| Run(Init(cfg), es) == Some(s);
    KeyedAlways(cfg, es);
    KeyedVotes(s, r);
    assert |votes| == |votes.Keys|;
    CommitSteps(s, r);
  }

  /** The last message sent is a COMMIT certificate for that context with exactly those votes. */
  ghost predicate Broadcasts(t: State, data: Context, votes: map<int, Request>) {
    exists proof :: |t.sent| > 0 && t.sent[|t.sent| - 1] == SendCommit(proof) && proof.data == data &&
                    Carries(proof, votes)
  }

  lemma KeyedVotes(s: State, r: Request)
    requires KeyedInv(s) && r.data.seqNum in s.slots
    ensures KeyedBy(s.slots[r.data.seqNum].commits[r.sig.signer := r])
  {
  }

  lemma CommitSteps(s: State, r: Request)
    requires TakesVote(s, r) && KeyedBy(s.slots[r.data.seqNum].commits[r.sig.signer := r])
    ensures Enabled(s, OnPrepareOk(r)) && r.data.seqNum in Next(s, OnPrepareOk(r)).slots
    ensures var n, t := r.data.seqNum, Next(s, OnPrepareOk(r));
            var votes := s.slots[n].commits[r.sig.signer := r];
            t.slots[n].commits == votes &&
            if s.slots[n].status == Prepared && |votes| >= 2 * s.cfg.f + 1
            then t.slots[n].status in {Committed, Executed} && Broadcasts(t, s.slots[n].prePrepare.data, votes)
            else t.slots[n].status == s.slots[n].status && t.sent == s.sent
  {
    hide Carries, ExecutePending, SortedValues, Next, Enabled, Broadcasts, KeyedBy, SigsOf;
    var n := r.data.seqNum;
    CommitIs(s, r);
    var e := s.slots[n];
    var votes := e.commits[r.sig.signer := r];
    if e.status == Prepared && |votes| >= 2 * s.cfg.f + 1 {
      var u := Put(s, n, e.(commits := votes, status := Committed));
      PassCommitted(u, n);
      CommitSent(ExecutePending(u), e.prePrepare.data, votes);
    }
  }

  lemma PassCommitted(u: State, n: int)
    requires n in u.slots && u.slots[n].status == Committed
    ensures var w := ExecutePending(u);
            n in w.slots && w.slots[n].commits == u.slots[n].commits && w.slots[n].status in {Committed, Executed} &&
            u.sent <= w.sent
  {
    hide ExecutePending;
    ExecutePendingRan(u);
  }

  lemma CommitIs(s: State, r: Request)
    requires TakesVote(s, r)
    ensures Enabled(s, OnPrepareOk(r))
    ensures var n := r.data.seqNum;
            var e := s.slots[n];
            var votes := e.commits[r.sig.signer := r];
            Next(s, OnPrepareOk(r)) ==
              if e.status == Prepared && |votes| >= 2 * s.cfg.f + 1
              then Emit(ExecutePending(Put(s, n, e.(commits := votes, status := Committed))),
                        SendCommit(ProofRequest(e.prePrepare.data, SigsOf(SortedValues(votes)))))
              else Put(s, n, e.(commits := votes))
  {
    hide ExecutePending, SortedValues;
  }

  lemma CommitSent(s: State, data: Context, votes: map<int, Request>)
    requires KeyedBy(votes)
    ensures Broadcasts(Emit(s, SendCommit(ProofRequest(data, SigsOf(SortedValues(votes))))), data, votes)
  {
    hide Carries, SortedValues;
    SortedCarries(data, votes);
  }

  // ---- A backup that gets a certificate ----

  /** A correct replica in normal mode, in the certificate's view, holds the very context it certifies in its log, and
      every signature has a good MAC for it or is its own. */
  ghost predicate Receives(b: State, p: ProofRequest) {
    var n := p.data.seqNum;
    b.mode == Normal && !b.cfg.byzantine && b.view == p.data.view && b.low <= n <= b.high && n in b.slots &&
    b.slots[n].prePrepare.data == p.data &&
    forall sig | sig in p.sigs :: sig.signer == b.cfg.id || b.cfg.id in sig.validFor
  }

  lemma ReceivesIn(b: State, p: ProofRequest)
    requires Receives(b, p)
    ensures Present(b, p.data.seqNum) && b.slots[p.data.seqNum].prePrepare.data == p.data && b.mode == Normal
    ensures !b.cfg.byzantine && b.view == p.data.view
  {
  }

  lemma AllCount(b: State, p: ProofRequest)
    requires Receives(b, p)
    ensures Countable(b.cfg.id, p.sigs) == Signers(p)
  {
  }

  lemma Unions(a: set<int>, b: set<int>, size: nat)
    requires |b| >= size
    ensures |a + b| >= size
  {
    SubsetSize(b, a + b);
  }

  /** Every slot between the last executed one and n is null or ready to execute. */
  ghost predicate NothingWaits(s: State, n: int) {
    forall i | s.lastExecuted < i < n && i in s.slots :: s.slots[i].status == Committed || s.slots[i].status == Executed
  }

  /** A pass of execution reaches a committed slot when nothing below it waits. */
  lemma {:induction false} PassReaches(s: State, from: int, n: int)
    requires s.lastExecuted < from <= n <= s.current && n in s.slots && s.slots[n].status == Committed
    requires forall i | from <= i < n && i in s.slots :: s.slots[i].status == Committed || s.slots[i].status == Executed
    ensures n in ExecuteFrom(s, from).slots && ExecuteFrom(s, from).slots[n].status == Executed
    decreases n - from
  {
    hide ExecuteOne;
    if from == n {
      OneExecuted(s, n);
      ExecuteFromRan(ExecuteOne(s, n), n + 1);
    } else if from in s.slots && s.slots[from].status == Committed {
      OneExecuted(s, from);
      PassReaches(ExecuteOne(s, from), from + 1, n);
    } else {
      PassReaches(s, from + 1, n);
    }
  }

  lemma OneExecuted(s: State, n: int)
    requires n in s.slots && s.slots[n].status == Committed && s.lastExecuted < n <= s.current
    ensures var t := ExecuteOne(s, n);
            t.lastExecuted == n && t.current == s.current && t.slots.Keys == s.slots.Keys &&
            t.slots[n].status == Executed && forall i | i in s.slots && i != n :: t.slots[i] == s.slots[i]
  {
    hide CheckpointText.Text, Accounts.Apply;
  }

  /** A COMMIT certificate at a backup that waits for it, exactly: its signers are stored besides those there, the slot
      commits if and only if they are now 2f + 1, and it executes at once when nothing below waits. */
  lemma CommitDelivered(b: State, p: ProofRequest)
    requires Receives(b, p) && b.slots[p.data.seqNum].status in {PrePrepared, Prepared}
    ensures p.data.seqNum in Next(b, OnCommit(p)).slots
    ensures var n, t := p.data.seqNum, Next(b, OnCommit(p));
            var quorum := |b.slots[n].commits.Keys + Signers(p)| >= 2 * b.cfg.f + 1;
            t.slots[n].commits.Keys == b.slots[n].commits.Keys + Signers(p) &&
            (quorum ==> t.slots[n].status in {Committed, Executed}) &&
            (!quorum ==> t.slots[n].status == b.slots[n].status) &&
            (quorum && b.lastExecuted < n <= b.current && NothingWaits(b, n) ==> t.slots[n].status == Executed)
  {
    hide Next, Enabled, Signers, ExecutePending, Receives, NothingWaits;
    var n := p.data.seqNum;
    ReceivesIn(b, p);
    var u := Counts(b, p);
    if |b.slots[n].commits.Keys + Signers(p)| >= 2 * b.cfg.f + 1 {
      PassCommitted(u, n);
      if b.lastExecuted < n <= b.current && NothingWaits(b, n) {
        PassThrough(b, u, n);
      }
    }
  }

  /** The backup before it executes: the votes stored in its slot, the others as they were. */
  lemma Counts(b: State, p: ProofRequest) returns (u: State)
    requires Receives(b, p) && b.slots[p.data.seqNum].status in {PrePrepared, Prepared}
    ensures p.data.seqNum in u.slots && u == Put(b, p.data.seqNum, u.slots[p.data.seqNum])
    ensures var n, e := p.data.seqNum, u.slots[p.data.seqNum];
            var quorum := |b.slots[n].commits.Keys + Signers(p)| >= 2 * b.cfg.f + 1;
            e.m == b.slots[n].m && e.prePrepare == b.slots[n].prePrepare &&
            e.commits.Keys == b.slots[n].commits.Keys + Signers(p) &&
            e.status == (if quorum then Committed else b.slots[n].status) &&
            Next(b, OnCommit(p)) == if quorum then ExecutePending(u) else u
  {
    hide Countable, Signers, WithCommits, ExecutePending;
    var n := p.data.seqNum;
    SameRequest(b.cfg, b.slots[n], p);
    AllCount(b, p);
    CertificateRaises(b.cfg, b.slots[n], p);
    u := Put(b, n, WithCommits(b.cfg, b.slots[n], p));
  }

  lemma SameRequest(cfg: Config, e: Entry, p: ProofRequest)
    requires e.prePrepare.data == p.data
    ensures WithCommits(cfg, e, p).m == e.m && WithCommits(cfg, e, p).prePrepare == e.prePrepare
    ensures WithCommits(cfg, e, p).commits.Keys == e.commits.Keys + Countable(cfg.id, p.sigs)
    ensures WithCommits(cfg, e, p).status == Committed || WithCommits(cfg, e, p).status == e.status
    ensures WithPrepares(cfg, e, p).prepares.Keys == e.prepares.Keys + Countable(cfg.id, p.sigs)
  {
    hide AddProofs, Countable;
    AddProofsCounts(cfg.id, p.data, p.sigs, e.commits);
    AddProofsCounts(cfg.id, p.data, p.sigs, e.prepares);
  }

  lemma PassThrough(b: State, u: State, n: int)
    requires n in u.slots && u == Put(b, n, u.slots[n]) && u.slots[n].status == Committed
    requires b.lastExecuted < n <= b.current && NothingWaits(b, n)
    ensures n in ExecutePending(u).slots && ExecutePending(u).slots[n].status == Executed
  {
    hide ExecuteFrom;
    PassReaches(u, u.lastExecuted + 1, n);
  }

  /** A PREPARE certificate at a backup that waits for it, exactly: its signers are stored besides those there, and
      the slot is prepared if and only if they are now 2f. Then, and only then, the backup sends the leader its own
      vote to commit, for the same context and with a MAC for everyone. */
  lemma PrepareDelivered(b: State, p: ProofRequest)
    requires Receives(b, p) && b.slots[p.data.seqNum].status == PrePrepared
    ensures p.data.seqNum in Next(b, OnPrepare(p)).slots
    ensures var n, t := p.data.seqNum, Next(b, OnPrepare(p));
            var voters := b.slots[n].prepares.Keys + Signers(p);
            t.slots[n].prepares.Keys == voters &&
            if |voters| >= 2 * b.cfg.f
            then t.slots[n].status == Prepared && p.data in t.signed &&
                 t.sent == b.sent + [SendPrepareOk(b.view % (3 * b.cfg.f + 1),
                                                   Request(p.data, SignatureVec(b.cfg.id, Ids(3 * b.cfg.f + 1))))]
            else t.slots[n].status == PrePrepared && t.sent == b.sent
  {
    hide Next, Enabled, Countable, Signers, WithPrepares, Ids, Receives;
    var n := p.data.seqNum;
    ReceivesIn(b, p);
    SameRequest(b.cfg, b.slots[n], p);
    AllCount(b, p);
    CertificateRaises(b.cfg, b.slots[n], p);
    Waits(b.cfg, b.slots[n], p);
    PrepareIs(b, p);
  }

  lemma PrepareIs(b: State, p: ProofRequest)
    requires Receives(b, p) && b.slots[p.data.seqNum].status == PrePrepared
    ensures var n := p.data.seqNum;
            var e := WithPrepares(b.cfg, b.slots[n], p);
            var vote := Request(p.data, SignatureVec(b.cfg.id, Ids(3 * b.cfg.f + 1)));
            Next(b, OnPrepare(p)) ==
              if e.status == Prepared
              then Emit(Put(b, n, e).(signed := b.signed + {p.data}),
                        SendPrepareOk(b.view % (3 * b.cfg.f + 1), vote))
              else Put(b, n, e)
  {
    hide WithPrepares, Ids;
  }

  lemma Waits(cfg: Config, e: Entry, p: ProofRequest)
    requires e.status == PrePrepared
    ensures WithPrepares(cfg, e, p).status == PrePrepared || WithPrepares(cfg, e, p).status == Prepared
  {
    hide AddProofs;
  }

  /** The slow path's last step, over every run: when a PREPARE_OK commits a slot, the certificate that follows
      commits it at every backup that waits for it. */
  lemma SlowCommitDelivered(cfg: Config, s: State, r: Request, b: State) returns (p: ProofRequest)
    requires Reached(cfg, s) && TakesVote(s, r) && s.slots[r.data.seqNum].status == Prepared && b.cfg.f == s.cfg.f
    requires |s.slots[r.data.seqNum].commits.Keys + {r.sig.signer}| >= 2 * s.cfg.f + 1
    ensures Enabled(s, OnPrepareOk(r)) && SendCommit(p) in Next(s, OnPrepareOk(r)).sent
    ensures p.data == s.slots[r.data.seqNum].prePrepare.data && |Signers(p)| >= 2 * s.cfg.f + 1
    ensures Carries(p, s.slots[r.data.seqNum].commits[r.sig.signer := r])
    ensures Receives(b, p) && b.slots[p.data.seqNum].status in {PrePrepared, Prepared} ==>
              var n, t := p.data.seqNum, Next(b, OnCommit(p));
              n in t.slots && t.slots[n].status in {Committed, Executed}
  {
    hide Next, Enabled, Reached;
    var votes := s.slots[r.data.seqNum].commits[r.sig.signer := r];
    assert votes.Keys == s.slots[r.data.seqNum].commits.Keys + {r.sig.signer};
    CommitExactly(cfg, s, r);
    var t := Next(s, OnPrepareOk(r));
    p :| |t.sent| > 0 && t.sent[|t.sent| - 1] == SendCommit(p) && p.data == s.slots[r.data.seqNum].prePrepare.data &&
         Carries(p, votes);
    if Receives(b, p) && b.slots[p.data.seqNum].status in {PrePrepared, Prepared} {
      CommitDelivered(b, p);
      Unions(b.slots[p.data.seqNum].commits.Keys, Signers(p), 2 * b.cfg.f + 1);
    }
  }

  // ---- The optimistic timer ----

  /** The leader's own vote, with a MAC for everyone. */
  function OwnVote(s: State, data: Context): Request {
    Request(data, SignatureVec(s.cfg.id, Ids(3 * s.cfg.f + 1)))
  }

  /** The timer, exactly, at every moment of every run: with the votes of all 3f backups the leader commits the slot
      at once and broadcasts a COMMIT certificate with them and its own vote; with fewer it adds its own vote to
      commit and broadcasts a PREPARE certificate with exactly the stored ones. */
  lemma TimerExactly(cfg: Config, s: State, n: int)
    requires Reached(cfg, s) && Enabled(s, OnOptimisticTimer(n)) && s.mode == Normal
    ensures n in Next(s, OnOptimisticTimer(n)).slots
    ensures var e, t := s.slots[n], Next(s, OnOptimisticTimer(n));
            var data, own := e.prePrepare.data, OwnVote(s, e.prePrepare.data);
            t.armed == s.armed - multiset{n} &&
            if |e.prepares.Keys| == 3 * s.cfg.f
            then t.slots[n].status in {Committed, Executed} &&
                 t.slots[n].commits == e.prepares[s.cfg.id := own] && CommitsFast(s, t, data, e.prepares, own)
            else t.slots[n] == e.(commits := e.commits[s.cfg.id := own]) && Calls(s, t, data, e.prepares)
  {
    hide Run, Init, KeyedInv, ExecutePending, SortedValues, Ids;
    var es :| Run(Init(cfg), es) == Some(s);
    KeyedAlways(cfg, es);
    KeyedSlot(s, n);
    TimerSteps(s, n);
  }

  lemma KeyedSlot(s: State, n: int)
    requires KeyedInv(s) && n in s.slots
    ensures KeyedBy(s.slots[n].prepares)
  {
  }

  /** A COMMIT certificate for that context was sent, with exactly those votes and the sender's own. */
  ghost predicate CommitsFast(s: State, t: State, data: Context, votes: map<int, Request>, own: Request) {
    exists p: ProofRequest, q: ProofRequest ::
      p.data == q.data == data && Carries(q, votes) && p.sigs == q.sigs + [own.sig] &&
      s.sent + [SendCommit(p)] <= t.sent
  }

  /** A PREPARE certificate for that context was sent, with exactly those votes, and nothing else. */
  ghost predicate Calls(s: State, t: State, data: Context, votes: map<int, Request>) {
    exists p: ProofRequest :: p.data == data && Carries(p, votes) && t.sent == s.sent + [SendPrepare(p)]
  }

  lemma TimerSteps(s: State, n: int)
    requires n in s.slots && Enabled(s, OnOptimisticTimer(n)) && s.mode == Normal && KeyedBy(s.slots[n].prepares)
    ensures n in Next(s, OnOptimisticTimer(n)).slots
    ensures var e, t := s.slots[n], Next(s, OnOptimisticTimer(n));
            var data, own := e.prePrepare.data, OwnVote(s, e.prePrepare.data);
            t.armed == s.armed - multiset{n} &&
            if |e.prepares.Keys| == 3 * s.cfg.f
            then t.slots[n].status in {Committed, Executed} &&
                 t.slots[n].commits == e.prepares[s.cfg.id := own] && CommitsFast(s, t, data, e.prepares, own)
            else t.slots[n] == e.(commits := e.commits[s.cfg.id := own]) && Calls(s, t, data, e.prepares)
  {
    hide Carries, ExecutePending, SortedValues, Next, Enabled, CommitsFast, Calls, OwnVote;
    TimerIs(s, n);
    var e := s.slots[n];
    var data, own := e.prePrepare.data, OwnVote(s, e.prePrepare.data);
    var q := ProofRequest(data, SigsOf(SortedValues(e.prepares)));
    SortedCarries(data, e.prepares);
    assert |e.prepares| == |e.prepares.Keys|;
    if |e.prepares| == 3 * s.cfg.f {
      FastSteps(s, n);
    } else {
      CallSent(s, Next(s, OnOptimisticTimer(n)), data, e.prepares, q);
    }
  }

  lemma CallSent(s: State, t: State, data: Context, votes: map<int, Request>, p: ProofRequest)
    requires p.data == data && Carries(p, votes) && t.sent == s.sent + [SendPrepare(p)]
    ensures Calls(s, t, data, votes)
  {
    hide Carries;
  }

  /** The leader's slot after the timer with all 3f votes, before it executes. */
  function FastCommitted(s: State, n: int): State
    requires n in s.slots
  {
    var e := s.slots[n];
    var own := OwnVote(s, e.prePrepare.data);
    var p := ProofRequest(e.prePrepare.data, SigsOf(SortedValues(e.prepares)) + [own.sig]);
    Emit(Put(s, n, e.(status := Committed, commits := e.prepares[s.cfg.id := own])).(
           armed := s.armed - multiset{n}, signed := s.signed + {e.prePrepare.data}), SendCommit(p))
  }

  lemma TimerIs(s: State, n: int)
    requires Enabled(s, OnOptimisticTimer(n)) && s.mode == Normal
    ensures n in s.slots
    ensures var e, own := s.slots[n], OwnVote(s, s.slots[n].prePrepare.data);
            Next(s, OnOptimisticTimer(n)) ==
              if |e.prepares| == 3 * s.cfg.f then ExecutePending(FastCommitted(s, n))
              else Emit(Put(s, n, e.(commits := e.commits[s.cfg.id := own])).(
                          armed := s.armed - multiset{n}, signed := s.signed + {e.prePrepare.data}),
                        SendPrepare(ProofRequest(e.prePrepare.data, SigsOf(SortedValues(e.prepares)))))
  {
    hide ExecutePending, SortedValues, Ids, SigsOf, WithOwnCommit, PrepareProofOf, OwnVote;
    OwnCommitIs(s, s.slots[n]);
    ProofIs(s, s.slots[n]);
  }

  lemma OwnCommitIs(s: State, e: Entry)
    ensures var own := OwnVote(s, e.prePrepare.data);
            WithOwnCommit(s.cfg, e) ==
              if |e.prepares| == 3 * s.cfg.f then e.(status := Committed, commits := e.prepares[s.cfg.id := own])
              else e.(commits := e.commits[s.cfg.id := own])
  {
    hide Ids;
  }

  lemma ProofIs(s: State, e: Entry)
    ensures PrepareProofOf(s.cfg, e) ==
              ProofRequest(e.prePrepare.data,
                           if |e.prepares| == 3 * s.cfg.f
                           then SigsOf(SortedValues(e.prepares)) + [OwnVote(s, e.prePrepare.data).sig]
                           else SigsOf(SortedValues(e.prepares)))
  {
    hide Ids, SortedValues;
    assert SigsOf(SortedValues(e.prepares)) + [] == SigsOf(SortedValues(e.prepares));
  }

  lemma FastSteps(s: State, n: int)
    requires n in s.slots && KeyedBy(s.slots[n].prepares)
    ensures var e, t := s.slots[n], ExecutePending(FastCommitted(s, n));
            var own := OwnVote(s, e.prePrepare.data);
            n in t.slots && t.slots[n].status in {Committed, Executed} &&
            t.slots[n].commits == e.prepares[s.cfg.id := own] && t.armed == s.armed - multiset{n} &&
            CommitsFast(s, t, e.prePrepare.data, e.prepares, own)
  {
    hide Carries, ExecutePending, SortedValues, Ids;
    var e := s.slots[n];
    var own := OwnVote(s, e.prePrepare.data);
    var q := ProofRequest(e.prePrepare.data, SigsOf(SortedValues(e.prepares)));
    SortedCarries(e.prePrepare.data, e.prepares);
    ExecutePendingRan(FastCommitted(s, n));
    var p := ProofRequest(e.prePrepare.data, q.sigs + [own.sig]);
    assert FastCommitted(s, n).sent == s.sent + [SendCommit(p)];
  }
}
