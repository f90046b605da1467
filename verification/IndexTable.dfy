/** The digest table: while a replica stays in one view and no digest sits in two slots of its log, the
    table lists exactly the log. */
module IndexTable {
  import opened Messages
  import opened ReplicaState
  import opened Change
  import opened Window
  import opened Voting
  import opened OneView
  import opened Agreement

  function DigestOf(s: State, n: int): Digest
    requires n in s.slots
  {
    s.slots[n].prePrepare.data.digest
  }

  ghost predicate DistinctLog(s: State) {
    forall a, b | a in s.slots && b in s.slots && s.low <= a && s.low <= b && a != b :: DigestOf(s, a) != DigestOf(s, b)
  }

  /** Every log entry is found under its digest, and the table refers to nothing outside the log. */
  ghost predicate IndexExact(s: State) {
    (forall n | n in s.slots && s.low <= n :: DigestOf(s, n) in s.index && s.index[DigestOf(s, n)] == n) &&
    (forall d | d in s.index :: s.low <= s.index[d])
  }

  /** A change tables the slot it opens, or leaves table and slot contexts alone. */
  ghost predicate IndexGood(s: State, c: Change) {
    if c.write.None? then c.index == s.index
    else
      var n, d := c.write.value.n, c.write.value.e.prePrepare.data.digest;
      (n in s.slots ==> DigestOf(s, n) == d) &&
      ((c.index == s.index && n in s.slots) || (c.index == s.index[d := n] && s.low <= n))
  }

  lemma KeptIndex(s: State, c: Change)
    requires c.index == s.index
    requires c.write.Some? ==>
               c.write.value.n in s.slots && c.write.value.e.prePrepare.data.digest == DigestOf(s, c.write.value.n)
    ensures IndexGood(s, c)
  {
  }

  lemma TransferIndex(s: State, m: Message)
    requires WindowInv(s)
    ensures IndexGood(s, TransferChange(s, m))
  {
    hide IsLeader, LeaderOf, Everyone;
  }

  lemma PrePrepareIndex(s: State, V: Votes, ok: Message -> bool, p: PrePrepareRequest)
    requires Ready(s, V, ok)
    ensures IndexGood(s, PrePrepareChange(s, p))
  {
    hide LeaderOf, Sign, Ready, Everyone;
    if p.r.data.seqNum in s.slots {
      SlotFacts(s, V, ok, p.r.data.seqNum);
    }
  }

  lemma AckIndex(s: State, r: Request)
    ensures IndexGood(s, PrePrepareOkChange(s, r)) && IndexGood(s, PrepareOkChange(s, r))
  {
    hide IndexGood, AckOffered, AckMatches;
    KeptIndex(s, PrePrepareOkChange(s, r));
    KeptIndex(s, PrepareOkChange(s, r));
  }

  lemma ProofIndex(s: State, p: ProofRequest)
    ensures IndexGood(s, PrepareChange(s, p)) && IndexGood(s, CommitChange(s, p))
  {
    hide IndexGood, AddProofs, Sign, LeaderOf;
    KeptIndex(s, PrepareChange(s, p));
    KeptIndex(s, CommitChange(s, p));
  }

  lemma TimerIndex(s: State, n: int)
    ensures IndexGood(s, OptimisticTimerChange(s, n))
  {
    hide IndexGood, Sign, PrepareProofOf, AllPrepared;
    KeptIndex(s, OptimisticTimerChange(s, n));
  }

  lemma ViewIndex(s: State, vc: ViewChangeReq, nv: NewViewReq)
    ensures IndexGood(s, ViewChangeChange(s, vc)) && IndexGood(s, NewViewChange(s, nv))
  {
    hide IndexGood, VerifyViewChange, LeaderOf, Received, Started, Compose, BigO, SignedBySelection, Revotes,
         RevoteOuts, ValidViewChanges, AgreeUpTo, BySender, WithOwnViewChange;
    KeptIndex(s, ViewChangeChange(s, vc));
    KeptIndex(s, NewViewChange(s, nv));
  }

  lemma ViewTimerIndex(s: State, e: Event)
    requires e.OnDigestTimer? || e.OnSlotTimer? || e.OnViewTimer?
    ensures IndexGood(s, ChangeOf(s, e))
  {
    hide IndexGood, Compose, IsLeader, Settled;
    KeptIndex(s, ChangeOf(s, e));
  }

  lemma ChangeIndex(s: State, V: Votes, ok: Message -> bool, e: Event)
    requires Ready(s, V, ok) && !e.OnCheckpoint?
    ensures IndexGood(s, ChangeOf(s, e))
  {
    hide TransferChange, PrePrepareChange, PrePrepareOkChange, PrepareChange, PrepareOkChange, CommitChange,
         ViewChangeChange, NewViewChange, OptimisticTimerChange, DigestTimerChange, SlotTimerChange, IndexGood,
         WindowInv, VoteInv, OneViewInv;
    match e
    case OnTransfer(m) => TransferIndex(s, m);
    case OnPrePrepare(p) => PrePrepareIndex(s, V, ok, p);
    case OnPrePrepareOk(r) => AckIndex(s, r);
    case OnPrepare(p) => ProofIndex(s, p);
    case OnPrepareOk(r) => AckIndex(s, r);
    case OnCommit(p) => ProofIndex(s, p);
    case OnViewChange(vc) => ViewIndex(s, vc, NewViewReq(0, [], [], Signature(0, false)));
    case OnNewView(nv) =>
      ViewIndex(s, ViewChangeReq(ViewChangeData(0, CheckpointData(0, Blank), [], []), Signature(0, false)), nv);
    case OnOptimisticTimer(n) => TimerIndex(s, n);
    case OnDigestTimer(_, _) => ViewTimerIndex(s, e);
    case OnSlotTimer(_, _) => ViewTimerIndex(s, e);
    case OnViewTimer(_) => ViewTimerIndex(s, e);
  }

  lemma MadeKeepsIndex(s: State, c: Change, mid: State)
    requires Made(s, c, mid) && IndexExact(s) && IndexGood(s, c) && DistinctLog(mid)
    ensures IndexExact(mid)
  {
    forall n | n in mid.slots && mid.low <= n
      ensures DigestOf(mid, n) in mid.index && mid.index[DigestOf(mid, n)] == n
    {
      if c.write.Some? {
        assert DigestOf(mid, c.write.value.n) == c.write.value.e.prePrepare.data.digest;
      }
      assert n in s.slots ==> DigestOf(mid, n) == DigestOf(s, n);
    }
  }

  lemma SameDigests(mid: State, t: State)
    requires t.low == mid.low && t.index == mid.index && t.slots.Keys == mid.slots.Keys
    requires forall n | n in t.slots :: t.slots[n].prePrepare == mid.slots[n].prePrepare
    ensures DistinctLog(t) ==> DistinctLog(mid)
    ensures IndexExact(mid) ==> IndexExact(t)
  {
  }

  lemma FinishedSameLog(s: State, e: Event, mid: State, t: State)
    requires Finished(s, e, mid, t)
    ensures t.low == mid.low && t.index == mid.index && t.slots.Keys == mid.slots.Keys
    ensures forall n | n in t.slots :: t.slots[n].prePrepare == mid.slots[n].prePrepare
  {
    hide Commits, ExecutePending;
    ExecutePendingRan(mid);
  }

  lemma TruncationKeepsIndex(s: State, V: Votes, ok: Message -> bool, c: CheckpointReq)
    requires Ready(s, V, ok) && IndexExact(s) && DistinctLog(s)
    ensures IndexExact(ProcessCheckpoint(s, c))
  {
    hide RecordCheckpoint, DigestsUpTo, Ready, IndexExact, DistinctLog, WindowInv, VoteInv, OneViewInv;
    ReadyParts(s, V, ok);
    assert s.low == s.stableSeq + 1 by { LowStart(s); }
    if CheckpointOffered(s, c) && BecomesStable(s, c) {
      assert IndexHits(s) by { TableHits(s, V, ok); }
      TruncatedExact(s, c.data.seqNum, ProcessCheckpoint(s, c));
    } else {
      SameIndexed(s, ProcessCheckpoint(s, c));
    }
  }

  lemma LowStart(s: State)
    requires WindowInv(s)
    ensures s.low == s.stableSeq + 1
  {
  }

  /** What the table refers to carries the digest it is listed under. */
  ghost predicate IndexHits(s: State) {
    forall d | d in s.index :: s.index[d] in s.slots && DigestOf(s, s.index[d]) == d
  }

  lemma TableHits(s: State, V: Votes, ok: Message -> bool)
    requires Ready(s, V, ok)
    ensures IndexHits(s)
  {
    hide EntryOk, ExecutionOk, ReportOk, Everyone, AllOfView, VoteInv, WindowInv;
  }

  lemma SameIndexed(s: State, t: State)
    requires IndexExact(s) && t.slots == s.slots && t.low == s.low && t.index == s.index
    ensures IndexExact(t)
  {
  }

  lemma TruncatedExact(s: State, n: int, t: State)
    requires IndexExact(s) && DistinctLog(s) && IndexHits(s)
    requires t.slots == s.slots && t.low == n + 1 && s.low <= t.low && t.index == s.index - DigestsUpTo(s, n)
    ensures IndexExact(t)
  {
    forall i | i in t.slots && t.low <= i
      ensures DigestOf(t, i) in t.index && t.index[DigestOf(t, i)] == i
    {
      assert DigestOf(s, i) !in DigestsUpTo(s, n);
    }
    forall d | d in t.index
      ensures t.low <= t.index[d]
    {
      assert DigestOf(s, s.index[d]) == d;
    }
  }

  lemma NextKeepsIndex(s: State, V: Votes, ok: Message -> bool, e: Event)
    requires Ready(s, V, ok) && Enabled(s, e)
    requires IndexExact(s) && DistinctLog(s) && DistinctLog(Next(s, e))
    ensures IndexExact(Next(s, e))
  {
    hide Ready, IndexExact, DistinctLog, ChangeOf, Made, Finished, ProcessTransfer, ProcessPrePrepare,
         ProcessPrePrepareOk, ProcessPrepare, ProcessPrepareOk, ProcessCommit, ProcessViewChange, ProcessNewView,
         ProcessCheckpoint, OptimisticTimer, DigestTimer, SlotTimer, ViewTimer, IndexGood;
    if e.OnCheckpoint? {
      TruncationKeepsIndex(s, V, ok, e.c);
    } else {
      var mid := NextMade(s, e);
      FinishedSameLog(s, e, mid, Next(s, e));
      SameDigests(mid, Next(s, e));
      ChangeIndex(s, V, ok, e);
      MadeKeepsIndex(s, ChangeOf(s, e), mid);
    }
  }

  /** At every moment of the run the log of replica r holds no digest twice. */
  ghost predicate AlwaysDistinct(sys: Sys, ok: Message -> bool, mvs: seq<Move>, r: int) {
    After(sys, ok, mvs).Some? && r in After(sys, ok, mvs).value.replicas &&
    DistinctLog(After(sys, ok, mvs).value.replicas[r]) &&
    (mvs != [] ==> AlwaysDistinct(sys, ok, mvs[..|mvs| - 1], r))
  }

  lemma {:induction false} IndexAlways(cfg: Config, correct: set<int>, ok: Message -> bool, mvs: seq<Move>, r: int)
    requires Cluster(cfg, correct) && AlwaysDistinct(Start(cfg, correct), ok, mvs, r)
    ensures IndexExact(After(Start(cfg, correct), ok, mvs).value.replicas[r])
  {
    hide Next, Enabled, Authentic, OneViewInv, VoteInv, WindowInv, SysInv, Cluster, IndexExact, DistinctLog;
    if mvs == [] {
      Invariant(cfg, correct, ok, mvs);
      StartIndex(cfg, correct, r);
    } else {
      var front, mv := mvs[..|mvs| - 1], mvs[|mvs| - 1];
      IndexAlways(cfg, correct, ok, front, r);
      var before := After(Start(cfg, correct), ok, front).value;
      if mv.replica == r {
        Invariant(cfg, correct, ok, front);
        ReplicaReady(before, cfg, correct, ok, r);
        NextKeepsIndex(before.replicas[r], VotesOf(before), ok, mv.event);
      }
    }
  }

  /** Reached by a run in which the log of replica r never held a digest twice. */
  ghost predicate ReachedDistinct(sys: Sys, cfg: Config, correct: set<int>, ok: Message -> bool, r: int) {
    Cluster(cfg, correct) &&
    exists mvs :: AlwaysDistinct(Start(cfg, correct), ok, mvs, r) && After(Start(cfg, correct), ok, mvs) == Some(sys)
  }

  /** Index agreement: the digest table holds exactly the digests of the log's entries, each referring to
      the entry itself, and a transfer found in it is the transfer of that entry. */
  lemma IndexAgreement(sys: Sys, cfg: Config, correct: set<int>, ok: Message -> bool, r: int)
    requires ReachedDistinct(sys, cfg, correct, ok, r) && r in sys.replicas
    ensures IndexExact(sys.replicas[r])
    ensures var s := sys.replicas[r];
            (forall d :: d in s.index <==> exists n :: n in Log(s) && Log(s)[n].prePrepare.data.digest == d) &&
            (forall t | Known(s, t) :: s.slots[s.index[TransferDigest(t)]].m.data == t)
  {
    hide After, AlwaysDistinct, SysInv, Cluster, IndexExact, Ready, VotesOf, ReplicaOk, Log;
    var mvs :| AlwaysDistinct(Start(cfg, correct), ok, mvs, r) && After(Start(cfg, correct), ok, mvs) == Some(sys);
    var s := sys.replicas[r];
    IndexAlways(cfg, correct, ok, mvs, r);
    Invariant(cfg, correct, ok, mvs);
    ReplicaReady(sys, cfg, correct, ok, r);
    ExactBothWays(s, VotesOf(sys), ok);
    forall t | Known(s, t)
      ensures s.slots[s.index[TransferDigest(t)]].m.data == t
    {
      KnownSlot(s, VotesOf(sys), ok, t);
    }
  }

  lemma ReplicaReady(sys: Sys, cfg: Config, correct: set<int>, ok: Message -> bool, r: int)
    requires SysInv(sys, cfg, correct, ok) && r in sys.replicas
    ensures Ready(sys.replicas[r], VotesOf(sys), ok) && ReplicaOk(sys.replicas[r], cfg.(id := r), VotesOf(sys), ok)
  {
    hide Ready, Cluster, VotesOf;
    assert ReplicaOk(sys.replicas[r], cfg.(id := r), VotesOf(sys), ok);
  }

  lemma StartIndex(cfg: Config, correct: set<int>, r: int)
    requires r in correct
    ensures IndexExact(Start(cfg, correct).replicas[r])
  {
  }

  lemma ExactBothWays(s: State, V: Votes, ok: Message -> bool)
    requires Ready(s, V, ok) && IndexExact(s)
    ensures forall d :: d in s.index <==> exists n :: n in Log(s) && Log(s)[n].prePrepare.data.digest == d
  {
    hide EntryOk, ExecutionOk, ReportOk, Everyone, AllOfView, VoteInv, WindowInv;
    forall d
      ensures d in s.index <==> exists n :: n in Log(s) && Log(s)[n].prePrepare.data.digest == d
    {
      if d in s.index {
        assert s.index[d] in Log(s);
      }
    }
  }

  lemma RetryAnswered(s: State, m: Message)
    requires m.sig.valid && s.mode == Normal && Known(s, m.data)
    requires s.slots[s.index[TransferDigest(m.data)]].status == Executed
    ensures ProcessTransfer(s, m) ==
            NotifyClient(s, m.sig.signer, m.data, s.slots[s.index[TransferDigest(m.data)]].result)
  {
    hide Propose, Repropose, IsLeader, NotifyClient;
  }

  /** A retry answered from the table repeats the recorded outcome, in every reachable state of the system: the reply
      reports what an execution of exactly that transfer gave, and 2f + 1 signers stand behind that execution. */
  lemma RetryRepeats(sys: Sys, cfg: Config, correct: set<int>, ok: Message -> bool, r: int, m: Message)
    requires Reachable(sys, cfg, correct, ok) && r in sys.replicas
    requires m.sig.valid && sys.replicas[r].mode == Normal && Known(sys.replicas[r], m.data)
    requires sys.replicas[r].slots[sys.replicas[r].index[TransferDigest(m.data)]].status == Executed
    ensures var s := sys.replicas[r];
            var n := s.index[TransferDigest(m.data)];
            Execution(n, m.data, s.slots[n].result) in s.executed &&
            HasQuorum(cfg, VotesOf(sys), Context(1, n, TransferDigest(m.data))) &&
            ProcessTransfer(s, m).sent ==
              s.sent + [Notify(m.sig.signer, Response(m.data, s.slots[n].result, 1, Signature(r, true)))]
  {
    hide Reachable, SysInv, Ready, EntryOk, ProcessTransfer, HasQuorum, VotesOf, Everyone, LeaderOf;
    var s := sys.replicas[r];
    var n := s.index[TransferDigest(m.data)];
    ReachableOk(sys, cfg, correct, ok);
    ConfigOf(sys, cfg, correct, ok, r);
    RetryAnswered(s, m);
    KnownSlot(s, VotesOf(sys), ok, m.data);
    SlotFacts(s, VotesOf(sys), ok, n);
    CommittedHasQuorum(sys, cfg, correct, ok, r, n);
  }
}
