/** Slow-path commits survive the view change.

    The prior view has a correct leader, channels are typed (an acknowledgement of one phase is not delivered
    as one of the other) and no pre-prepare is repeated. Once the leader has committed a request by PREPARE_OK
    votes, f + 1 correct replicas hold it from then on, and every list of 2f + 1 view changes accounts for it; what the
    selection makes of such a list is stated exactly. */
module Carryover {
  import opened Messages
  import opened Quorum
  import opened ReplicaState
  import opened Change
  import opened Window
  import opened ExecutionFold
  import opened Voting
  import opened OneView
  import opened Agreement
  import opened IndexTable
  import opened Survival
  import Selection

  // ---- Typed runs ----

  /** A pre-prepare comes from the leader and is not repeated; a PREPARE_OK naming a correct signer is one
      that signer sent; and the leader, who broadcasts the commits, is not among their receivers. */
  ghost predicate Typed(sys: Sys, leader: int, mv: Move) {
    leader in sys.replicas && mv.replica in sys.replicas &&
    Unrepeated(sys.replicas[mv.replica], mv.event) &&
    match mv.event
    case OnPrePrepare(p) => mv.replica != leader && SendPrePrepare(p) in sys.replicas[leader].sent
    case OnPrepareOk(r) =>
      r.sig.signer in sys.replicas ==> exists receiver :: SendPrepareOk(receiver, r) in sys.replicas[r.sig.signer].sent
    case OnCommit(_) => mv.replica != leader
    case _ => true
  }

  /** Every move of the run is typed. */
  ghost predicate TypedRun(sys: Sys, ok: Message -> bool, leader: int, mvs: seq<Move>) {
    After(sys, ok, mvs).Some? &&
    (mvs != [] ==>
       TypedRun(sys, ok, leader, mvs[..|mvs| - 1]) &&
       Typed(After(sys, ok, mvs[..|mvs| - 1]).value, leader, mvs[|mvs| - 1]))
  }

  function Cast(sys: Sys): Votes {
    map r | r in sys.replicas :: CastBy(sys.replicas[r])
  }

  predicate Waiting(e: Entry) {
    e.status == PrePrepared || e.status == Prepared
  }

  /** A correct replica stored among the commit votes of a waiting entry has voted to commit it. */
  ghost predicate CommitsCast(W: Votes, e: Entry) {
    Waiting(e) ==> forall p | p in e.commits && p in W :: e.prePrepare.data in W[p]
  }

  ghost predicate LeaderOk(s: State, W: Votes) {
    (forall n | n in s.slots :: CommitsCast(W, s.slots[n])) &&
    (forall p | SendPrePrepare(p) in s.sent :: p.r.data in s.signed)
  }

  ghost predicate TypedInv(sys: Sys, cfg: Config, correct: set<int>, ok: Message -> bool) {
    var leader := LeaderOf(cfg, 1);
    SysInv(sys, cfg, correct, ok) && leader in correct &&
    (forall r | r in sys.replicas ::
       HeldInv(sys.replicas[r]) && sys.replicas[r].signed <= sys.replicas[leader].signed + {NOP}) &&
    LeaderOk(sys.replicas[leader], Cast(sys))
  }

  // ---- What a backup signs, the leader signed ----

  ghost predicate FollowsGood(s: State, c: Change, S: set<Context>) {
    forall x | x in c.signs :: x == NOP || x in S
  }

  lemma SlotSigned(s: State, V: Votes, ok: Message -> bool, n: int)
    requires Ready(s, V, ok) && n in s.slots
    ensures s.slots[n].prePrepare.data in s.signed
  {
    hide OneViewInv, WindowInv, OneVotePerSlot;
    assert EntryVoted(s, n, s.slots[n]);
  }

  lemma BackupFollows(s: State, V: Votes, ok: Message -> bool, e: Event, S: set<Context>)
    requires Ready(s, V, ok) && !IsLeader(s) && !e.OnCheckpoint? && ChangeOf(s, e).view == s.view
    requires s.signed <= S && (e.OnPrePrepare? ==> e.p.r.data in S)
    ensures FollowsGood(s, ChangeOf(s, e), S)
  {
    hide Ready, IsLeader, FollowsGood, TransferChange, PrePrepareChange, PrepareChange, OptimisticTimerChange,
         ViewChangeChange, NewViewChange, PrePrepareOkChange, PrepareOkChange, CommitChange, DigestTimerChange,
         SlotTimerChange;
    match e
    case OnTransfer(m) => TransferFollows(s, m, S);
    case OnPrePrepare(p) => PrePrepareFollows(s, p, S);
    case OnPrepare(p) => PrepareFollows(s, V, ok, p, S);
    case OnOptimisticTimer(n) => TimerFollows(s, V, ok, n, S);
    case OnViewChange(vc) => ViewFollows(s, vc, S);
    case OnNewView(nv) => NewViewFollows(s, nv, S);
    case _ => OtherFollows(s, e, S);
  }

  lemma TransferFollows(s: State, m: Message, S: set<Context>)
    requires !IsLeader(s)
    ensures FollowsGood(s, TransferChange(s, m), S)
  {
    hide IsLeader, LeaderOf, ProposeChange, ReproposeChange;
  }

  lemma PrePrepareFollows(s: State, p: PrePrepareRequest, S: set<Context>)
    requires p.r.data in S
    ensures FollowsGood(s, PrePrepareChange(s, p), S)
  {
    hide PrePrepareOffered, SlotTaken, Opened, Sign;
  }

  lemma PrepareFollows(s: State, V: Votes, ok: Message -> bool, p: ProofRequest, S: set<Context>)
    requires Ready(s, V, ok) && s.signed <= S
    ensures FollowsGood(s, PrepareChange(s, p), S)
  {
    hide Ready, LeaderOf, WithPrepares, Everyone, EntryOk;
    if ProofOffered(s, p, {PrePrepared}) {
      var n := p.data.seqNum;
      SlotFacts(s, V, ok, n);
      SlotData(s, V, ok, n);
      SlotSigned(s, V, ok, n);
      PreparesAre(s.cfg, s.slots[n], p);
    }
  }

  lemma TimerFollows(s: State, V: Votes, ok: Message -> bool, n: int, S: set<Context>)
    requires Ready(s, V, ok) && s.signed <= S
    ensures FollowsGood(s, OptimisticTimerChange(s, n), S)
  {
    hide Ready, WithOwnCommit, PrepareProofOf, AllPrepared;
    if n in s.slots {
      SlotSigned(s, V, ok, n);
    }
  }

  lemma ViewFollows(s: State, vc: ViewChangeReq, S: set<Context>)
    ensures FollowsGood(s, ViewChangeChange(s, vc), S)
  {
    hide VerifyViewChange, LeaderOf, Received, Started, Compose;
  }

  lemma NewViewFollows(s: State, nv: NewViewReq, S: set<Context>)
    requires NewViewChange(s, nv).view == s.view
    ensures FollowsGood(s, NewViewChange(s, nv), S)
  {
    hide BigO, ValidViewChanges, AgreeUpTo, Revotes, RevoteOuts;
  }

  lemma OtherFollows(s: State, e: Event, S: set<Context>)
    requires e.OnPrePrepareOk? || e.OnPrepareOk? || e.OnCommit? || e.OnDigestTimer? || e.OnSlotTimer? || e.OnViewTimer?
    ensures FollowsGood(s, ChangeOf(s, e), S)
  {
    hide Compose, IsLeader, Settled, WithPrePrepareOk, WithPrepareOk, WithCommits, AckOffered, AckMatches;
  }

  lemma NextFollows(s: State, V: Votes, ok: Message -> bool, e: Event, S: set<Context>)
    requires Ready(s, V, ok) && Enabled(s, e) && !IsLeader(s) && Next(s, e).view == s.view
    requires s.signed <= S + {NOP} && (e.OnPrePrepare? ==> e.p.r.data in S)
    ensures Next(s, e).signed <= S + {NOP}
  {
    hide Ready, IsLeader, FollowsGood, ChangeOf, Made, Finished, ProcessTransfer, ProcessPrePrepare,
         ProcessPrePrepareOk, ProcessPrepare, ProcessPrepareOk, ProcessCommit, ProcessViewChange, ProcessNewView,
         ProcessCheckpoint, OptimisticTimer, DigestTimer, SlotTimer, ViewTimer;
    if e.OnCheckpoint? {
      CheckpointSigns(s, e.c);
    } else {
      var mid := NextMade(s, e);
      FinishedSame(s, e, mid, Next(s, e));
      MadeSame(s, ChangeOf(s, e), mid);
      BackupFollows(s, V, ok, e, S + {NOP});
      assert forall x | x in ChangeOf(s, e).signs :: x in S + {NOP} by { Follows(s, ChangeOf(s, e), S + {NOP}); }
    }
  }

  lemma Follows(s: State, c: Change, S: set<Context>)
    requires FollowsGood(s, c, S) && NOP in S
    ensures forall x | x in c.signs :: x in S
  {
  }

  // ---- The leader's commit votes ----

  ghost predicate LeaderGood(s: State, c: Change, W: Votes) {
    (c.write.Some? ==> CommitsCast(W, c.write.value.e)) &&
    (forall p | SendPrePrepare(p) in c.outs :: p.r.data in c.signs)
  }

  /** The votes of correct replicas after the event, as the leader's commit proofs rely on them. */
  ghost predicate VotesIn(s: State, e: Event, W: Votes) {
    !e.OnPrePrepare? && !e.OnCommit? &&
    (e.OnPrepareOk? && e.r.sig.signer in W ==> e.r.data in W[e.r.sig.signer]) &&
    (e.OnOptimisticTimer? && s.mode == Normal && e.n in s.slots && s.cfg.id in W ==>
       AllPrepared(s.cfg, s.slots[e.n]) || s.slots[e.n].prePrepare.data in W[s.cfg.id])
  }

  lemma NoWriteLeader(s: State, c: Change, W: Votes)
    requires c.write.None? && forall o | o in c.outs :: !o.SendPrePrepare?
    ensures LeaderGood(s, c, W)
  {
  }

  lemma WriteLeader(s: State, c: Change, W: Votes)
    requires c.write.Some? ==> CommitsCast(W, c.write.value.e)
    requires forall o | o in c.outs :: !o.SendPrePrepare?
    ensures LeaderGood(s, c, W)
  {
  }

  lemma TransferLeader(s: State, m: Message, W: Votes)
    ensures LeaderGood(s, TransferChange(s, m), W)
  {
    hide IsLeader, LeaderOf, Everyone;
  }

  lemma AckLeader(s: State, V: Votes, ok: Message -> bool, r: Request, W: Votes)
    requires Ready(s, V, ok) && (forall n | n in s.slots :: CommitsCast(W, s.slots[n]))
    ensures LeaderGood(s, PrePrepareOkChange(s, r), W)
    ensures VotesIn(s, OnPrepareOk(r), W) && AllOfView(W, s.view) ==> LeaderGood(s, PrepareOkChange(s, r), W)
  {
    hide Ready, LeaderGood, AckOffered, EntryOk, AllOfView;
    if Counted(s, r) {
      SlotData(s, V, ok, r.data.seqNum);
      SlotFacts(s, V, ok, r.data.seqNum);
      if r.sig.signer in W && r.data in W[r.sig.signer] && AllOfView(W, s.view) {
        assert r.data == s.slots[r.data.seqNum].prePrepare.data by { OfView(W, s.view, r.sig.signer, r.data); }
      }
    }
    WriteLeader(s, PrePrepareOkChange(s, r), W);
    if VotesIn(s, OnPrepareOk(r), W) && AllOfView(W, s.view) {
      WriteLeader(s, PrepareOkChange(s, r), W);
    }
  }

  lemma OfView(W: Votes, view: int, p: int, c: Context)
    requires AllOfView(W, view) && p in W && c in W[p] && 0 <= c.seqNum
    ensures c.view == view
  {
  }

  lemma PrepareLeader(s: State, p: ProofRequest, W: Votes)
    requires forall n | n in s.slots :: CommitsCast(W, s.slots[n])
    ensures LeaderGood(s, PrepareChange(s, p), W)
  {
    hide LeaderGood, AddProofs, Sign, LeaderOf;
    WriteLeader(s, PrepareChange(s, p), W);
  }

  lemma TimerLeader(s: State, n: int, W: Votes)
    requires (forall i | i in s.slots :: CommitsCast(W, s.slots[i])) && VotesIn(s, OnOptimisticTimer(n), W)
    ensures LeaderGood(s, OptimisticTimerChange(s, n), W)
  {
    hide LeaderGood, PrepareProofOf, AllPrepared, Sign;
    WriteLeader(s, OptimisticTimerChange(s, n), W);
  }

  lemma ViewLeader(s: State, e: Event, W: Votes)
    requires e.OnViewChange? || e.OnNewView? || e.OnDigestTimer? || e.OnSlotTimer? || e.OnViewTimer?
    ensures LeaderGood(s, ChangeOf(s, e), W)
  {
    hide LeaderGood, ChangeOf;
    ViewsQuiet(s, e);
    NoWriteLeader(s, ChangeOf(s, e), W);
  }

  lemma ChangeLeader(s: State, V: Votes, ok: Message -> bool, e: Event, W: Votes)
    requires Ready(s, V, ok) && LeaderOk(s, W) && VotesIn(s, e, W) && AllOfView(W, s.view) && !e.OnCheckpoint?
    ensures LeaderGood(s, ChangeOf(s, e), W)
  {
    hide Ready, LeaderGood, AllOfView, CommitsCast, TransferChange, PrePrepareChange, PrePrepareOkChange, PrepareChange,
         PrepareOkChange, CommitChange, ViewChangeChange, NewViewChange, OptimisticTimerChange, DigestTimerChange,
         SlotTimerChange;
    match e
    case OnTransfer(m) => TransferLeader(s, m, W);
    case OnPrePrepareOk(r) => AckLeader(s, V, ok, r, W);
    case OnPrepare(p) => PrepareLeader(s, p, W);
    case OnPrepareOk(r) => AckLeader(s, V, ok, r, W);
    case OnOptimisticTimer(n) => TimerLeader(s, n, W);
    case _ => ViewLeader(s, e, W);
  }

  lemma MadeKeepsLeader(s: State, c: Change, mid: State, W: Votes)
    requires LeaderOk(s, W) && Made(s, c, mid) && LeaderGood(s, c, W)
    ensures LeaderOk(mid, W)
  {
    hide CommitsCast;
    forall p | SendPrePrepare(p) in mid.sent
      ensures p.r.data in mid.signed
    {
      assert SendPrePrepare(p) in s.sent || SendPrePrepare(p) in c.outs;
    }
  }

  lemma FinishedKeepsLeader(s: State, e: Event, mid: State, t: State, W: Votes)
    requires LeaderOk(mid, W) && Finished(s, e, mid, t)
    ensures LeaderOk(t, W)
  {
    hide Commits, ExecutePending, Full, Ran, CommitsCast;
    FinishedHeld(s, e, mid, t);
    FinishedRan(s, e, mid, t);
    assert forall n | n in t.slots :: CommitsCast(W, t.slots[n]) by { RanCommits(mid, t, W); }
  }

  ghost predicate SlotsRan(s: State, t: State) {
    t.slots.Keys == s.slots.Keys &&
    forall n | n in s.slots ::
      t.slots[n] == s.slots[n].(status := t.slots[n].status, result := t.slots[n].result) &&
      (t.slots[n] == s.slots[n] || (s.slots[n].status == Committed && t.slots[n].status == Executed))
  }

  lemma FinishedRan(s: State, e: Event, mid: State, t: State)
    requires Finished(s, e, mid, t)
    ensures SlotsRan(mid, t)
  {
    hide Commits, ExecutePending;
    ExecutePendingRan(mid);
  }

  lemma RanCommits(s: State, t: State, W: Votes)
    requires SlotsRan(s, t) && forall n | n in s.slots :: CommitsCast(W, s.slots[n])
    ensures forall n | n in t.slots :: CommitsCast(W, t.slots[n])
  {
  }

  lemma NextKeepsLeader(s: State, V: Votes, ok: Message -> bool, e: Event, W: Votes)
    requires Ready(s, V, ok) && Enabled(s, e) && LeaderOk(s, W) && VotesIn(s, e, W) && AllOfView(W, s.view)
    ensures LeaderOk(Next(s, e), W)
  {
    hide Ready, ChangeOf, Made, Finished, LeaderGood, LeaderOk, VotesIn, AllOfView, ProcessTransfer, ProcessPrePrepare,
         ProcessPrePrepareOk, ProcessPrepare, ProcessPrepareOk, ProcessCommit, ProcessViewChange, ProcessNewView,
         ProcessCheckpoint, OptimisticTimer, DigestTimer, SlotTimer, ViewTimer;
    if e.OnCheckpoint? {
      CheckpointLeader(s, e.c, W);
    } else {
      var mid := NextMade(s, e);
      ChangeLeader(s, V, ok, e, W);
      MadeKeepsLeader(s, ChangeOf(s, e), mid, W);
      FinishedKeepsLeader(s, e, mid, Next(s, e), W);
    }
  }

  lemma CheckpointLeader(s: State, c: CheckpointReq, W: Votes)
    requires LeaderOk(s, W)
    ensures LeaderOk(ProcessCheckpoint(s, c), W)
  {
    hide LeaderOk, ProcessCheckpoint;
    CheckpointFields(s, c);
    SameLeader(s, ProcessCheckpoint(s, c), W);
  }

  lemma SameLeader(s: State, t: State, W: Votes)
    requires LeaderOk(s, W) && t.slots == s.slots && t.sent == s.sent && t.signed == s.signed
    ensures LeaderOk(t, W)
  {
  }

  // ---- The invariant of typed runs ----

  lemma CastGrow(sys: Sys, mv: Move)
    requires mv.replica in sys.replicas && Enabled(sys.replicas[mv.replica], mv.event)
    requires WindowInv(sys.replicas[mv.replica])
    ensures Grows(Cast(sys), Cast(Moved(sys, mv)))
  {
    hide Next, Enabled, OutVote;
    NextKeepsWindow(sys.replicas[mv.replica], mv.event);
  }

  lemma CastSigned(sys: Sys, cfg: Config, correct: set<int>, ok: Message -> bool, r: int)
    requires SysInv(sys, cfg, correct, ok) && r in sys.replicas
    requires forall q | q in sys.replicas :: HeldInv(sys.replicas[q])
    ensures AllOfView(Cast(sys), sys.replicas[r].view)
  {
    hide SysInv, HeldInv, ReplicaOk, VotesOf, OutVote, Ready;
    ReplicaReady(sys, cfg, correct, ok, r);
    forall p, c | p in Cast(sys) && c in Cast(sys)[p]
      ensures c == NOP || c.view == sys.replicas[r].view
    {
      ReplicaReady(sys, cfg, correct, ok, p);
      OneView1(sys, cfg, correct, ok, p, r);
      CastIn(sys.replicas[p], c);
      ReadySigned(sys.replicas[p], VotesOf(sys), ok, c);
    }
  }

  lemma OneView1(sys: Sys, cfg: Config, correct: set<int>, ok: Message -> bool, p: int, r: int)
    requires SysInv(sys, cfg, correct, ok) && p in sys.replicas && r in sys.replicas
    ensures sys.replicas[p].view == sys.replicas[r].view == 1
  {
    hide Ready, Cluster, ExecInv;
    assert ReplicaOk(sys.replicas[p], cfg.(id := p), VotesOf(sys), ok);
    assert ReplicaOk(sys.replicas[r], cfg.(id := r), VotesOf(sys), ok);
  }

  lemma CastIn(s: State, c: Context)
    requires HeldInv(s) && c in CastBy(s)
    ensures c in s.signed && Holds(s, c)
  {
    hide Full, Carries;
  }

  lemma ReadySigned(s: State, V: Votes, ok: Message -> bool, c: Context)
    requires Ready(s, V, ok) && c in s.signed
    ensures c == NOP || c.view == s.view
  {
    hide WindowInv, VoteInv, OneViewInv;
    SignedOfView(s, V, ok);
  }

  lemma LeaderOkGrows(s: State, V: Votes, W: Votes)
    requires LeaderOk(s, V) && Grows(V, W)
    ensures LeaderOk(s, W)
  {
  }

  lemma AckCast(sys: Sys, r: Request, receiver: int)
    requires r.sig.signer in sys.replicas && SendPrepareOk(receiver, r) in sys.replicas[r.sig.signer].sent
    ensures r.data in Cast(sys)[r.sig.signer]
  {
    assert OutVote(SendPrepareOk(receiver, r)) == Some(r.data);
  }

  /** The votes that the leader's event relies on have been cast once it is over. */
  lemma MoveVotesIn(sys: Sys, cfg: Config, correct: set<int>, ok: Message -> bool, mv: Move)
    requires TypedInv(sys, cfg, correct, ok) && Allowed(sys, ok, mv) && Typed(sys, LeaderOf(cfg, 1), mv)
    requires mv.replica == LeaderOf(cfg, 1) && Grows(Cast(sys), Cast(Moved(sys, mv)))
    ensures VotesIn(sys.replicas[mv.replica], mv.event, Cast(Moved(sys, mv)))
  {
    hide Next, Enabled, HeldInv, LeaderOk, LeaderOf, Authentic, AllPrepared, Unrepeated, ReplicaOk, SysInv, CastBy;
    var s := sys.replicas[mv.replica];
    match mv.event
    case OnPrepareOk(r) =>
      if r.sig.signer in sys.replicas {
        var receiver :| SendPrepareOk(receiver, r) in sys.replicas[r.sig.signer].sent;
        AckCast(sys, r, receiver);
      }
    case OnOptimisticTimer(n) =>
      if s.mode == Normal && n in s.slots && !AllPrepared(s.cfg, s.slots[n]) {
        ConfigOf(sys, cfg, correct, ok, mv.replica);
        TimerCasts(s, n);
        NextTimer(s, n);
      }
    case _ =>
  }

  lemma NextTimer(s: State, n: int)
    requires Enabled(s, OnOptimisticTimer(n))
    ensures (s.mode == Normal ==> Present(s, n)) && Next(s, OnOptimisticTimer(n)) == OptimisticTimer(s, n)
  {
    hide OptimisticTimer;
  }

  lemma TimerCasts(s: State, n: int)
    requires Enabled(s, OnOptimisticTimer(n)) && s.mode == Normal && n in s.slots && !AllPrepared(s.cfg, s.slots[n])
    ensures s.slots[n].prePrepare.data in CastBy(OptimisticTimer(s, n))
  {
    hide AllPrepared, Sign, WithOwnCommit, ExecutePending, SortedValues;
    var o := SendPrepare(PrepareProofOf(s.cfg, s.slots[n]));
    assert o in OptimisticTimer(s, n).sent && OutVote(o) == Some(s.slots[n].prePrepare.data);
  }

  lemma TypedMove(sys: Sys, cfg: Config, correct: set<int>, ok: Message -> bool, mv: Move)
    requires TypedInv(sys, cfg, correct, ok) && Allowed(sys, ok, mv) && Typed(sys, LeaderOf(cfg, 1), mv)
    ensures TypedInv(Moved(sys, mv), cfg, correct, ok)
    ensures Grows(Cast(sys), Cast(Moved(sys, mv)))
  {
    hide Next, Enabled, Authentic, HeldInv, LeaderOk, LeaderOf, Ready, SysInv, VotesOf, Cast, Grows, Typed, Moved,
         CastBy;
    var leader, sys' := LeaderOf(cfg, 1), Moved(sys, mv);
    MoveKeepsInv(sys, cfg, correct, ok, mv);
    Replicas(sys, cfg, correct, ok);
    MovedHeld(sys, cfg, correct, ok, mv);
    LeaderOkGrows(sys.replicas[leader], Cast(sys), Cast(sys'));
    if mv.replica == leader {
      LeaderMove(sys, cfg, correct, ok, mv);
    } else {
      BackupMove(sys, cfg, correct, ok, mv);
    }
  }

  /** What the moved replica holds, and the votes it adds. */
  lemma MovedHeld(sys: Sys, cfg: Config, correct: set<int>, ok: Message -> bool, mv: Move)
    requires TypedInv(sys, cfg, correct, ok) && Allowed(sys, ok, mv) && Typed(sys, LeaderOf(cfg, 1), mv)
    ensures Moved(sys, mv).replicas == sys.replicas[mv.replica := Next(sys.replicas[mv.replica], mv.event)]
    ensures HeldInv(Next(sys.replicas[mv.replica], mv.event))
    ensures sys.replicas[mv.replica].signed <= Next(sys.replicas[mv.replica], mv.event).signed
    ensures Grows(Cast(sys), Cast(Moved(sys, mv)))
  {
    hide Next, Enabled, Authentic, HeldInv, LeaderOk, LeaderOf, Ready, SysInv, VotesOf, Cast, Grows, WindowInv;
    var s := sys.replicas[mv.replica];
    ReplicaReady(sys, cfg, correct, ok, mv.replica);
    ReadyParts(s, VotesOf(sys), ok);
    CastGrow(sys, mv);
    NextKeepsHeld(s, VotesOf(sys), ok, mv.event);
    SignedGrows(s, mv.event);
  }

  lemma LeaderMove(sys: Sys, cfg: Config, correct: set<int>, ok: Message -> bool, mv: Move)
    requires TypedInv(sys, cfg, correct, ok) && Allowed(sys, ok, mv) && Typed(sys, LeaderOf(cfg, 1), mv)
    requires mv.replica == LeaderOf(cfg, 1) && SysInv(Moved(sys, mv), cfg, correct, ok)
    requires Grows(Cast(sys), Cast(Moved(sys, mv))) &&
             forall r | r in Moved(sys, mv).replicas :: HeldInv(Moved(sys, mv).replicas[r])
    requires LeaderOk(sys.replicas[mv.replica], Cast(Moved(sys, mv)))
    ensures LeaderOk(Next(sys.replicas[mv.replica], mv.event), Cast(Moved(sys, mv)))
  {
    hide Next, Enabled, Authentic, HeldInv, LeaderOk, LeaderOf, Ready, SysInv, VotesOf, Cast, Grows, Typed, AllOfView,
         VotesIn;
    ReplicaReady(sys, cfg, correct, ok, mv.replica);
    MoveVotesIn(sys, cfg, correct, ok, mv);
    CastSigned(Moved(sys, mv), cfg, correct, ok, mv.replica);
    NextKeepsLeader(sys.replicas[mv.replica], VotesOf(sys), ok, mv.event, Cast(Moved(sys, mv)));
  }

  lemma BackupMove(sys: Sys, cfg: Config, correct: set<int>, ok: Message -> bool, mv: Move)
    requires TypedInv(sys, cfg, correct, ok) && Allowed(sys, ok, mv) && Typed(sys, LeaderOf(cfg, 1), mv)
    requires mv.replica != LeaderOf(cfg, 1)
    ensures Next(sys.replicas[mv.replica], mv.event).signed <= sys.replicas[LeaderOf(cfg, 1)].signed + {NOP}
  {
    hide Next, Enabled, Authentic, HeldInv, LeaderOk, LeaderOf, Ready, SysInv, VotesOf, Cast, IsLeader;
    ReplicaReady(sys, cfg, correct, ok, mv.replica);
    NotLeader(sys, cfg, correct, ok, mv.replica);
    if mv.event.OnPrePrepare? {
      ProposedSigned(sys, cfg, correct, ok, mv.event.p);
    }
    NextFollows(sys.replicas[mv.replica], VotesOf(sys), ok, mv.event, sys.replicas[LeaderOf(cfg, 1)].signed);
  }

  lemma SignedGrows(s: State, e: Event)
    requires WindowInv(s) && Enabled(s, e)
    ensures s.signed <= Next(s, e).signed
  {
    hide Next, Enabled, WindowInv;
    NextKeepsWindow(s, e);
  }

  lemma NotLeader(sys: Sys, cfg: Config, correct: set<int>, ok: Message -> bool, r: int)
    requires SysInv(sys, cfg, correct, ok) && r in sys.replicas && r != LeaderOf(cfg, 1)
    ensures !IsLeader(sys.replicas[r])
  {
    hide Ready, Cluster, ExecInv;
    assert ReplicaOk(sys.replicas[r], cfg.(id := r), VotesOf(sys), ok);
  }

  lemma ProposedSigned(sys: Sys, cfg: Config, correct: set<int>, ok: Message -> bool, p: PrePrepareRequest)
    requires TypedInv(sys, cfg, correct, ok) && SendPrePrepare(p) in sys.replicas[LeaderOf(cfg, 1)].sent
    ensures p.r.data in sys.replicas[LeaderOf(cfg, 1)].signed
  {
    hide SysInv, HeldInv, Cast, LeaderOf;
  }

  lemma InitTyped(cfg: Config)
    ensures HeldInv(Init(cfg)) && CastBy(Init(cfg)) == {} && forall W: Votes :: LeaderOk(Init(cfg), W)
  {
  }

  /** Along every typed run the invariant stays, and votes to commit once cast stay cast. */
  lemma {:induction false} TypedPersist(sys: Sys, cfg: Config, correct: set<int>, ok: Message -> bool, mvs: seq<Move>)
    requires TypedInv(sys, cfg, correct, ok) && TypedRun(sys, ok, LeaderOf(cfg, 1), mvs)
    ensures TypedInv(After(sys, ok, mvs).value, cfg, correct, ok)
    ensures Grows(Cast(sys), Cast(After(sys, ok, mvs).value))
  {
    hide Allowed, Moved, LeaderOf, Typed, TypedInv, Cast;
    if mvs != [] {
      var front := mvs[..|mvs| - 1];
      TypedPersist(sys, cfg, correct, ok, front);
      TypedMove(After(sys, ok, front).value, cfg, correct, ok, mvs[|mvs| - 1]);
    }
  }

  /** A state that some typed run reaches from the start. */
  ghost predicate TypedReachable(sys: Sys, cfg: Config, correct: set<int>, ok: Message -> bool) {
    Cluster(cfg, correct) && LeaderOf(cfg, 1) in correct && TypedLeads(Start(cfg, correct), sys, cfg, ok)
  }

  ghost predicate TypedLeads(early: Sys, late: Sys, cfg: Config, ok: Message -> bool) {
    exists mvs :: TypedRun(early, ok, LeaderOf(cfg, 1), mvs) && After(early, ok, mvs) == Some(late)
  }

  lemma TypedAlways(sys: Sys, cfg: Config, correct: set<int>, ok: Message -> bool)
    requires TypedReachable(sys, cfg, correct, ok)
    ensures TypedInv(sys, cfg, correct, ok)
  {
    hide After, TypedRun, TypedInv, Cluster, LeaderOf;
    StartTyped(cfg, correct, ok);
    var mvs :| TypedRun(Start(cfg, correct), ok, LeaderOf(cfg, 1), mvs) &&
                After(Start(cfg, correct), ok, mvs) == Some(sys);
    TypedPersist(Start(cfg, correct), cfg, correct, ok, mvs);
  }

  lemma StartTyped(cfg: Config, correct: set<int>, ok: Message -> bool)
    requires Cluster(cfg, correct) && LeaderOf(cfg, 1) in correct
    ensures TypedInv(Start(cfg, correct), cfg, correct, ok)
  {
    hide SysInv, HeldInv, LeaderOk, LeaderOf, Cluster;
    StartOk(cfg, correct, ok);
    forall r | r in correct
      ensures HeldInv(Init(cfg.(id := r))) && forall W: Votes :: LeaderOk(Init(cfg.(id := r)), W)
    {
      InitTyped(cfg.(id := r));
    }
  }

  // ---- A slow-path commit ----

  /** The correct replicas that have voted to commit c. */
  function Voters(sys: Sys, c: Context): set<int> {
    set p | p in sys.replicas && c in CastBy(sys.replicas[p])
  }

  /** The leader's event commits its slot by PREPARE_OK votes. */
  predicate SlowCommit(s: State, e: Event) {
    e.OnPrepareOk? && Commits(s, e)
  }

  /** When the leader commits by PREPARE_OK votes, f + 1 correct replicas have cast one. */
  lemma SlowCommitVoters(sys: Sys, cfg: Config, correct: set<int>, ok: Message -> bool, mv: Move)
    requires TypedInv(sys, cfg, correct, ok) && Allowed(sys, ok, mv) && Typed(sys, LeaderOf(cfg, 1), mv)
    requires mv.replica == LeaderOf(cfg, 1) && SlowCommit(sys.replicas[mv.replica], mv.event)
    ensures var c := sys.replicas[mv.replica].slots[mv.event.r.data.seqNum].prePrepare.data;
            0 <= c.seqNum && |Voters(sys, c)| >= cfg.f + 1
  {
    hide Next, Enabled, HeldInv, LeaderOf, Ready, ReplicaOk, AckOffered, CastBy, Everyone, Grows, SigOk, SysInv,
         VotesOf, Typed, CommitsCast;
    var s, r := sys.replicas[mv.replica], mv.event.r;
    var n, V := r.data.seqNum, VotesOf(sys);
    var e := s.slots[n];
    var c := e.prePrepare.data;
    ReplicaReady(sys, cfg, correct, ok, mv.replica);
    ConfigOf(sys, cfg, correct, ok, mv.replica);
    SlotFacts(s, V, ok, n);
    SlotData(s, V, ok, n);
    AckIsVote(s, V, ok, r);
    Replicas(sys, cfg, correct, ok);
    var signers := e.commits.Keys + {r.sig.signer};
    assert e.commits[r.sig.signer := r].Keys == signers && |e.commits[r.sig.signer := r]| == |signers|;
    forall p | p in signers
      ensures p in Everyone(cfg) && (p in correct ==> p in Voters(sys, c))
    {
      SignerVoted(sys, cfg, correct, ok, mv, p);
    }
    SubsetSize(signers - Voters(sys, c), Everyone(cfg) - correct);
    SubsetSize(signers, (signers - Voters(sys, c)) + Voters(sys, c));
  }

  lemma SignerVoted(sys: Sys, cfg: Config, correct: set<int>, ok: Message -> bool, mv: Move, p: int)
    requires TypedInv(sys, cfg, correct, ok) && Allowed(sys, ok, mv) && Typed(sys, LeaderOf(cfg, 1), mv)
    requires mv.replica == LeaderOf(cfg, 1) && SlowCommit(sys.replicas[mv.replica], mv.event)
    requires p in sys.replicas[mv.replica].slots[mv.event.r.data.seqNum].commits || p == mv.event.r.sig.signer
    ensures p in Everyone(cfg)
    ensures p in correct ==> p in Voters(sys, sys.replicas[mv.replica].slots[mv.event.r.data.seqNum].prePrepare.data)
  {
    hide Next, Enabled, LeaderOf, Ready, ReplicaOk, AckOffered, Everyone, SigOk, SysInv, VotesOf, HeldInv, AllOfView;
    var s, r := sys.replicas[mv.replica], mv.event.r;
    var n, V := r.data.seqNum, VotesOf(sys);
    ReplicaReady(sys, cfg, correct, ok, mv.replica);
    ConfigOf(sys, cfg, correct, ok, mv.replica);
    Replicas(sys, cfg, correct, ok);
    SlotFacts(s, V, ok, n);
    SlotData(s, V, ok, n);
    AckIsVote(s, V, ok, r);
    if p in s.slots[n].commits {
      assert CommitsCast(Cast(sys), s.slots[n]);
    } else if p in correct {
      var receiver :| SendPrepareOk(receiver, r) in sys.replicas[p].sent;
      assert OutVote(SendPrepareOk(receiver, r)) == Some(r.data);
      CastSigned(sys, cfg, correct, ok, mv.replica);
      OfView(Cast(sys), 1, p, r.data);
    }
  }

  // ---- View changes collected for the next view ----

  function Senders(vcs: seq<ViewChangeReq>): set<int> {
    set vc | vc in vcs :: vc.sig.signer
  }

  /** A view change of a correct replica: one it broadcast, or the one it adds as the next leader. */
  ghost predicate SentBy(s: State, vc: ViewChangeReq) {
    SendViewChange(vc) in s.sent || exists view :: vc == Compose(s, view)
  }

  /** View changes of 2f + 1 distinct replicas, those of correct ones unforged. */
  ghost predicate Collected(sys: Sys, cfg: Config, vcs: seq<ViewChangeReq>) {
    Senders(vcs) <= Everyone(cfg) && |Senders(vcs)| >= 2 * cfg.f + 1 &&
    forall vc | vc in vcs && vc.sig.signer in sys.replicas :: SentBy(sys.replicas[vc.sig.signer], vc)
  }

  /** The prepares that correct replicas attach have a good MAC for the selecting replica too. */
  predicate MacsCheck(me: int, correct: set<int>, vcs: seq<ViewChangeReq>) {
    forall vc | vc in vcs && vc.sig.signer in correct ::
      forall p | p in vc.data.pproofs :: forall r | r in p.prepares :: me in r.sig.validFor
  }

  lemma VoterCarries(s: State, V: Votes, ok: Message -> bool, vc: ViewChangeReq, c: Context)
    requires Ready(s, V, ok) && HeldInv(s) && c in CastBy(s) && SentBy(s, vc)
    ensures Carries(s.cfg.f, vc, c)
  {
    hide Ready, Full, Carries, Compose, Holds;
    if SendViewChange(vc) !in s.sent {
      var view :| vc == Compose(s, view);
      CastIn(s, c);
      ComposeCarries(s, V, ok, view, c);
    }
  }

  /** Any 2f + 1 view changes include one that accounts for what f + 1 correct replicas voted to commit. */
  lemma QuorumCarries(sys: Sys, cfg: Config, correct: set<int>, ok: Message -> bool, vcs: seq<ViewChangeReq>,
                      c: Context)
    returns (vc: ViewChangeReq)
    requires TypedInv(sys, cfg, correct, ok) && Collected(sys, cfg, vcs) && |Voters(sys, c)| >= cfg.f + 1
    ensures vc in vcs && vc.sig.signer in correct && Carries(cfg.f, vc, c)
  {
    hide HeldInv, LeaderOf, LeaderOk, Cast, CastBy, Ready, ReplicaOk, Everyone, SentBy, Carries, SysInv, VotesOf;
    Replicas(sys, cfg, correct, ok);
    EveryoneIs(cfg);
    assert Voters(sys, c) <= correct;
    var p := SharedCorrect(3 * cfg.f + 1, Senders(vcs), Voters(sys, c), Everyone(cfg));
    vc :| vc in vcs && vc.sig.signer == p;
    ReplicaReady(sys, cfg, correct, ok, p);
    ConfigOf(sys, cfg, correct, ok, p);
    VoterCarries(sys.replicas[p], VotesOf(sys), ok, vc, c);
  }

  lemma {:induction false} AllValid(me: int, d: Digest, rs: seq<Request>)
    requires forall r | r in rs :: r.data.digest == d && me in r.sig.validFor
    ensures Selection.ValidCount(me, d, rs) == |rs|
  {
    if rs != [] {
      assert rs == rs[..|rs| - 1] + [rs[|rs| - 1]];
      AllValid(me, d, rs[..|rs| - 1]);
    }
  }

  // ---- What is selected ----

  /** The signers among a proof's prepares that stand for votes on exactly what it proves prepared. */
  ghost function Backers(cfg: Config, V: Votes, p: PrepareProof): set<int> {
    set r | r in p.prepares && r.data == p.prePrepare.data && Genuine(cfg, V, r.sig.signer, r.data) :: r.sig.signer
  }

  /** A proof as the protocol means it: 2f distinct replicas voted for the pre-prepare. */
  ghost predicate GenuineProof(cfg: Config, V: Votes, p: PrepareProof) {
    |Backers(cfg, V, p)| >= 2 * cfg.f
  }

  lemma GenuineAgrees(sys: Sys, cfg: Config, correct: set<int>, ok: Message -> bool, p: PrepareProof, c: Context)
    requires TypedInv(sys, cfg, correct, ok) && GenuineProof(cfg, VotesOf(sys), p)
    requires Voters(sys, c) != {} && 0 <= c.seqNum == p.prePrepare.data.seqNum
    ensures p.prePrepare.data == c
  {
    hide LeaderOf, LeaderOk, Cast, Ready, ReplicaOk, Everyone, HeldInv, CastBy, SysInv;
    var leader, V, d := LeaderOf(cfg, 1), VotesOf(sys), p.prePrepare.data;
    Replicas(sys, cfg, correct, ok);
    var q := Pick(Voters(sys, c));
    CastIn(sys.replicas[q], c);
    assert c in sys.replicas[leader].signed;
    assert Backers(cfg, V, p) <= Everyone(cfg);
    if Backers(cfg, V, p) <= Everyone(cfg) - correct {
      SubsetSize(Backers(cfg, V, p), Everyone(cfg) - correct);
      assert false;
    }
    var b :| b in Backers(cfg, V, p) && b in correct;
    assert d in sys.replicas[b].signed;
    assert d in sys.replicas[leader].signed;
    SameSlotSame(sys, cfg, correct, ok, leader, c, d);
  }

  lemma SameSlotSame(sys: Sys, cfg: Config, correct: set<int>, ok: Message -> bool, r: int, c: Context, d: Context)
    requires SysInv(sys, cfg, correct, ok) && r in sys.replicas && c in sys.replicas[r].signed &&
             d in sys.replicas[r].signed
    requires 0 <= c.seqNum == d.seqNum
    ensures c == d
  {
    hide Ready, SysInv, VotesOf;
    ReplicaReady(sys, cfg, correct, ok, r);
    ReadySigned(sys.replicas[r], VotesOf(sys), ok, c);
    ReadySigned(sys.replicas[r], VotesOf(sys), ok, d);
    OneVote(sys.replicas[r], cfg.(id := r), VotesOf(sys), ok);
  }

  /** With a correct leader and typed channels the slots of correct replicas never differ, prepared or not. */
  lemma TypedSlotsAgree(sys: Sys, cfg: Config, correct: set<int>, ok: Message -> bool, r: int, q: int, n: int)
    requires TypedReachable(sys, cfg, correct, ok) && r in sys.replicas && q in sys.replicas
    requires n in sys.replicas[r].slots && n in sys.replicas[q].slots
    ensures sys.replicas[r].slots[n].prePrepare.data == sys.replicas[q].slots[n].prePrepare.data
    ensures sys.replicas[r].slots[n].m.data == sys.replicas[q].slots[n].m.data
  {
    hide TypedReachable, TypedInv, LeaderOf, Ready, SysInv;
    TypedAlways(sys, cfg, correct, ok);
    SlotFollows(sys, cfg, correct, ok, r, n);
    SlotFollows(sys, cfg, correct, ok, q, n);
    SameSlotSame(sys, cfg, correct, ok, LeaderOf(cfg, 1), sys.replicas[r].slots[n].prePrepare.data,
                 sys.replicas[q].slots[n].prePrepare.data);
  }

  /** What a slot of a correct replica holds, the leader signed. */
  lemma SlotFollows(sys: Sys, cfg: Config, correct: set<int>, ok: Message -> bool, r: int, n: int)
    requires TypedInv(sys, cfg, correct, ok) && r in sys.replicas && n in sys.replicas[r].slots
    ensures SysInv(sys, cfg, correct, ok) && LeaderOf(cfg, 1) in sys.replicas && 0 <= n
    ensures var e := sys.replicas[r].slots[n];
            e.prePrepare.data == Context(1, n, TransferDigest(e.m.data)) &&
            e.prePrepare.data in sys.replicas[LeaderOf(cfg, 1)].signed
  {
    hide HeldInv, LeaderOk, LeaderOf, Ready, SysInv, Cast, ProofsOk;
    Replicas(sys, cfg, correct, ok);
    ConfigOf(sys, cfg, correct, ok, r);
    SlotFacts(sys.replicas[r], VotesOf(sys), ok, n);
    SlotSigned(sys.replicas[r], VotesOf(sys), ok, n);
  }

  /** Slots the selection reaches: positive, above every stable checkpoint, and below a slot that a proof names. */
  ghost predicate InReach(vcs: seq<ViewChangeReq>, n: int) {
    0 < n && (forall v | v in vcs :: v.data.lastCheckpoint.seqNum < n) &&
    exists p :: p in Selection.Proofs(vcs) && n < p.prePrepare.data.seqNum
  }

  /** Every proof that the selecting replica accepts for slot n is genuine. */
  ghost predicate GenuineProofs(sys: Sys, cfg: Config, me: int, vcs: seq<ViewChangeReq>, n: int) {
    forall p | p in Selection.Proofs(vcs) && p.prePrepare.data.seqNum == n &&
               Selection.Accepted(me, cfg.f, Selection.MaxStable(vcs), p) :: GenuineProof(cfg, VotesOf(sys), p)
  }

  /** What the selection makes of a context that f + 1 correct replicas voted to commit: its slot is selected exactly
      when the selection reaches it, then with a view no lower; and with genuine proofs c itself is selected exactly
      then. */
  ghost predicate Kept(sys: Sys, cfg: Config, me: int, vcs: seq<ViewChangeReq>, c: Context) {
    var o := Selection.BigO(me, cfg.f, Everyone(cfg), vcs);
    ((exists r :: r in o && r.data.seqNum == c.seqNum) <==> InReach(vcs, c.seqNum)) &&
    (forall r | r in o && r.data.seqNum == c.seqNum :: c.view <= r.data.view) &&
    (GenuineProofs(sys, cfg, me, vcs, c.seqNum) ==> ((exists r :: r in o && r.data == c) <==> InReach(vcs, c.seqNum)))
  }

  /** A proof of c, among those selected from, that the selecting replica accepts. */
  lemma ProofAccepted(cfg: Config, me: int, correct: set<int>, vcs: seq<ViewChangeReq>, vc: ViewChangeReq, c: Context)
    returns (p: PrepareProof)
    requires vc in vcs && vc.sig.signer in correct && Carries(cfg.f, vc, c) && MacsCheck(me, correct, vcs)
    requires Selection.MaxStable(vcs) < c.seqNum
    ensures p in Selection.Proofs(vcs) && Selection.Accepted(me, cfg.f, Selection.MaxStable(vcs), p) &&
            p.prePrepare.data == c
  {
    hide Selection.MaxStable, Selection.Proofs, Selection.ValidCount;
    Selection.MaxStableIsMax(vcs);
    p :| p in vc.data.pproofs && Proves(cfg.f, p, c);
    AllValid(me, c.digest, p.prepares);
    Selection.ProofsAreAll(vcs, p);
  }

  /** The selection keeps such a context exactly when it reaches its slot. */
  lemma SelectionKeeps(sys: Sys, cfg: Config, correct: set<int>, ok: Message -> bool, me: int,
                       vcs: seq<ViewChangeReq>, c: Context)
    requires TypedInv(sys, cfg, correct, ok) && Collected(sys, cfg, vcs) && MacsCheck(me, correct, vcs)
    requires 0 <= c.seqNum && |Voters(sys, c)| >= cfg.f + 1
    ensures Kept(sys, cfg, me, vcs, c)
  {
    hide TypedInv, Collected, MacsCheck, Everyone, GenuineProof, Voters, VotesOf, Kept, Carries, Selection.BigO,
         Selection.MaxStable, Selection.Proofs, Selection.MaxSeq, Selection.Accepted, InReach;
    var vc := QuorumCarries(sys, cfg, correct, ok, vcs, c);
    if Selection.MaxStable(vcs) < c.seqNum {
      var p := ProofAccepted(cfg, me, correct, vcs, vc, c);
      assert InReach(vcs, c.seqNum) <==> exists r :: r in Selection.BigO(me, cfg.f, Everyone(cfg), vcs) &&
                                                     r.data.seqNum == c.seqNum by {
        ReachExact(cfg, me, vcs, c, p);
      }
      forall r | r in Selection.BigO(me, cfg.f, Everyone(cfg), vcs) && r.data.seqNum == c.seqNum
        ensures c.view <= r.data.view
        ensures GenuineProofs(sys, cfg, me, vcs, c.seqNum) ==> r.data == c
      {
        var q := Selected(cfg, me, vcs, c, p, r);
        if GenuineProof(cfg, VotesOf(sys), q) {
          GenuineAgrees(sys, cfg, correct, ok, q, c) by { VotersExist(sys, cfg, c); }
        }
      }
      KeptAbove(sys, cfg, me, vcs, c);
    } else {
      KeptStable(sys, cfg, me, vcs, c);
    }
  }

  lemma VotersExist(sys: Sys, cfg: Config, c: Context)
    requires |Voters(sys, c)| >= cfg.f + 1
    ensures Voters(sys, c) != {}
  {
    hide Voters;
  }

  /** A slot with an accepted proof is selected exactly when the selection reaches it. */
  lemma ReachExact(cfg: Config, me: int, vcs: seq<ViewChangeReq>, c: Context, p: PrepareProof)
    requires p in Selection.Proofs(vcs) && Selection.Accepted(me, cfg.f, Selection.MaxStable(vcs), p)
    requires p.prePrepare.data == c && 0 <= c.seqNum
    ensures (exists r :: r in Selection.BigO(me, cfg.f, Everyone(cfg), vcs) && r.data.seqNum == c.seqNum) <==>
            InReach(vcs, c.seqNum)
  {
    hide Selection.BigO, Selection.MaxStable, Selection.Proofs, Selection.ValidCount, Everyone;
    Selection.CarriedOver(me, cfg.f, Everyone(cfg), vcs, p);
  }

  /** The proof behind a selected entry is a highest-view accepted one, so its view is no lower than c's. */
  lemma Selected(cfg: Config, me: int, vcs: seq<ViewChangeReq>, c: Context, p: PrepareProof, r: Request)
    returns (q: PrepareProof)
    requires p in Selection.Proofs(vcs) && Selection.Accepted(me, cfg.f, Selection.MaxStable(vcs), p)
    requires p.prePrepare.data == c && 0 <= c.seqNum
    requires r in Selection.BigO(me, cfg.f, Everyone(cfg), vcs) && r.data.seqNum == c.seqNum
    ensures q in Selection.Proofs(vcs) && Selection.Accepted(me, cfg.f, Selection.MaxStable(vcs), q)
    ensures q.prePrepare == r && c.view <= r.data.view
  {
    hide Selection.BigO, Selection.MaxStable, Selection.Proofs, Selection.MaxSeq, Selection.Accepted, Everyone;
    var o, stable, ps := Selection.BigO(me, cfg.f, Everyone(cfg), vcs), Selection.MaxStable(vcs), Selection.Proofs(vcs);
    var i :| 0 <= i < |o| && o[i] == r;
    Selection.SlotOf(me, cfg.f, Everyone(cfg), vcs, i);
    Selection.BigOSelects(me, cfg.f, Everyone(cfg), vcs, c.seqNum) by { Selection.MaxStableIsMax(vcs); }
    q :| Selection.IsHighest(me, cfg.f, stable, ps, c.seqNum, q) && o[c.seqNum - stable - 1] == q.prePrepare;
  }

  lemma KeptAbove(sys: Sys, cfg: Config, me: int, vcs: seq<ViewChangeReq>, c: Context)
    requires (exists r :: r in Selection.BigO(me, cfg.f, Everyone(cfg), vcs) && r.data.seqNum == c.seqNum) <==>
             InReach(vcs, c.seqNum)
    requires forall r | r in Selection.BigO(me, cfg.f, Everyone(cfg), vcs) && r.data.seqNum == c.seqNum ::
               c.view <= r.data.view && (GenuineProofs(sys, cfg, me, vcs, c.seqNum) ==> r.data == c)
    ensures Kept(sys, cfg, me, vcs, c)
  {
    hide Selection.BigO, InReach, GenuineProofs, Everyone;
  }

  lemma KeptStable(sys: Sys, cfg: Config, me: int, vcs: seq<ViewChangeReq>, c: Context)
    requires 0 <= c.seqNum <= Selection.MaxStable(vcs)
    ensures Kept(sys, cfg, me, vcs, c)
  {
    hide Selection.BigO, GenuineProofs, Everyone, Selection.MaxStable, Selection.Proofs;
    var o := Selection.BigO(me, cfg.f, Everyone(cfg), vcs);
    Selection.MaxStableIsMax(vcs);
    forall r | r in o
      ensures r.data.seqNum != c.seqNum
    {
      var i :| 0 <= i < |o| && o[i] == r;
      Selection.SlotOf(me, cfg.f, Everyone(cfg), vcs, i);
    }
  }

  lemma VotersGrow(sys: Sys, sys': Sys, c: Context)
    requires Grows(Cast(sys), Cast(sys'))
    ensures Voters(sys, c) <= Voters(sys', c)
  {
    hide CastBy;
    forall p | p in Voters(sys, c)
      ensures p in Voters(sys', c)
    {
      assert p in Cast(sys) && c in Cast(sys)[p];
      assert p in Cast(sys') && c in Cast(sys')[p];
    }
  }

  /** The correct replicas that have checkpointed c's slot or hold c prepared with 2f stored prepares. */
  function Holders(sys: Sys, correct: set<int>, c: Context): set<int> {
    set p | p in correct && p in sys.replicas && Holds(sys.replicas[p], c)
  }

  /** Slow-path commits survive. When in a typed run a correct leader's move mv commits c by PREPARE_OK votes, then
      at every later moment at least f + 1 correct replicas have checkpointed the slot or hold c prepared with 2f
      stored prepares; and whatever list of 2f + 1 view changes is collected, and whoever selects from it, the slot is
      selected exactly when it is not slot 0, lies above every stable checkpoint of the list, and is not the last
      slot any proof names; then with a view no lower, and with c itself when the accepted proofs for it are
      genuine. */
  lemma SlowCommitSurvives(early: Sys, mv: Move, late: Sys, cfg: Config, correct: set<int>, ok: Message -> bool)
    requires TypedReachable(early, cfg, correct, ok)
    requires Allowed(early, ok, mv) && Typed(early, LeaderOf(cfg, 1), mv)
    requires mv.replica == LeaderOf(cfg, 1) && SlowCommit(early.replicas[mv.replica], mv.event)
    requires TypedLeads(Moved(early, mv), late, cfg, ok)
    ensures var c := early.replicas[mv.replica].slots[mv.event.r.data.seqNum].prePrepare.data;
            |Holders(late, correct, c)| >= cfg.f + 1 &&
            forall me, vcs | Collected(late, cfg, vcs) && MacsCheck(me, correct, vcs) :: Kept(late, cfg, me, vcs, c)
  {
    hide After, TypedRun, TypedReachable, TypedInv, LeaderOf, Typed, Voters, Collected, MacsCheck, Kept, Holds, Holders,
         Moved, Cast, Enabled, Next, Authentic;
    var c := early.replicas[mv.replica].slots[mv.event.r.data.seqNum].prePrepare.data;
    var mid := Moved(early, mv);
    var mvs :| TypedRun(mid, ok, LeaderOf(cfg, 1), mvs) && After(mid, ok, mvs) == Some(late);
    TypedAlways(early, cfg, correct, ok);
    SlowCommitVoters(early, cfg, correct, ok, mv);
    TypedMove(early, cfg, correct, ok, mv);
    TypedPersist(mid, cfg, correct, ok, mvs);
    VotersGrow(early, mid, c);
    VotersGrow(mid, late, c);
    VotersHold(late, cfg, correct, ok, c);
    SubsetSize(Voters(early, c), Voters(late, c));
    SubsetSize(Voters(late, c), Holders(late, correct, c));
    forall me, vcs | Collected(late, cfg, vcs) && MacsCheck(me, correct, vcs)
      ensures Kept(late, cfg, me, vcs, c)
    {
      SelectionKeeps(late, cfg, correct, ok, me, vcs, c);
    }
  }

  lemma VotersHold(sys: Sys, cfg: Config, correct: set<int>, ok: Message -> bool, c: Context)
    requires TypedInv(sys, cfg, correct, ok)
    ensures Voters(sys, c) <= Holders(sys, correct, c)
  {
    hide SysInv, HeldInv, LeaderOk, LeaderOf, Cast, CastBy, Holds;
    Replicas(sys, cfg, correct, ok);
    forall p | p in Voters(sys, c)
      ensures p in correct && Holds(sys.replicas[p], c)
    {
      CastIn(sys.replicas[p], c);
    }
  }
}
