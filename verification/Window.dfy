/** The sliding window, and progress: what every event keeps, in every run, across views. */
module Window {
  import opened Messages
  import opened Quorum
  import opened ReplicaState
  import opened Change

  /** The log is the k slots from low to high; it starts right after the stable checkpoint; execution
      has reached at least that far; entries sit in the slot they name and none lies above `current`. */
  ghost predicate WindowInv(s: State) {
    s.cfg.k >= 1 &&
    s.low == s.stableSeq + 1 && 0 <= s.low && s.high == s.low + s.cfg.k - 1 &&
    s.low - 1 <= s.lastExecuted <= s.current <= s.high &&
    (forall n | n in s.slots :: 0 <= n <= s.current && s.slots[n].prePrepare.data.seqNum == n) &&
    (forall d | d in s.index :: s.index[d] in s.slots)
  }

  /** Nothing a replica has done is undone: its window, its execution and its histories only advance. */
  ghost predicate Advances(s: State, t: State) {
    t.cfg == s.cfg && s.view <= t.view && s.low <= t.low && s.lastExecuted <= t.lastExecuted &&
    s.current <= t.current && s.slots.Keys <= t.slots.Keys &&
    s.signed <= t.signed && s.executed <= t.executed && s.sent <= t.sent
  }

  // ---- A pass of execution ----

  /** t is s after executing committed slots: nothing else about the log, votes or views changed. */
  ghost predicate Ran(s: State, t: State) {
    t == s.(slots := t.slots, balances := t.balances, lastExecuted := t.lastExecuted,
            checkpoints := t.checkpoints, executed := t.executed, sent := t.sent) &&
    t.slots.Keys == s.slots.Keys &&
    s.lastExecuted <= t.lastExecuted &&
    (t.lastExecuted == s.lastExecuted || t.lastExecuted <= s.current) &&
    s.executed <= t.executed && s.sent <= t.sent &&
    forall n | n in s.slots ::
      t.slots[n] == s.slots[n].(status := t.slots[n].status, result := t.slots[n].result) &&
      (t.slots[n] == s.slots[n] || (s.slots[n].status == Committed && t.slots[n].status == Executed))
  }

  lemma ExecuteOneRan(s: State, n: int)
    requires n in s.slots && s.slots[n].status == Committed && s.lastExecuted < n <= s.current
    ensures Ran(s, ExecuteOne(s, n))
    ensures ExecuteOne(s, n).lastExecuted == n && ExecuteOne(s, n).current == s.current
  {
    hide CheckpointText.Text;
  }

  lemma RanTransitive(s: State, t: State, u: State)
    requires Ran(s, t) && Ran(t, u)
    ensures Ran(s, u)
  {
  }

  lemma {:induction false} ExecuteFromRan(s: State, n: int)
    requires s.lastExecuted < n
    ensures Ran(s, ExecuteFrom(s, n))
    decreases s.current - n
  {
    hide ExecuteOne, Ran;
    if n > s.current || (n in s.slots && s.slots[n].status != Committed && s.slots[n].status != Executed) {
      RanReflexive(s);
    } else if n in s.slots && s.slots[n].status == Committed {
      ExecuteOneRan(s, n);
      ExecuteFromRan(ExecuteOne(s, n), n + 1);
      RanTransitive(s, ExecuteOne(s, n), ExecuteFrom(s, n));
    } else {
      ExecuteFromRan(s, n + 1);
    }
  }

  lemma RanReflexive(s: State)
    ensures Ran(s, s)
  {
  }

  lemma RanKeepsWindow(s: State, t: State)
    requires WindowInv(s) && Ran(s, t)
    ensures WindowInv(t)
  {
  }

  lemma ExecutePendingRan(s: State)
    ensures Ran(s, ExecutePending(s))
  {
    ExecuteFromRan(s, s.lastExecuted + 1);
  }

  // ---- Changes ----

  ghost predicate WindowGood(s: State, c: Change) {
    s.view <= c.view && s.current <= c.current <= s.high &&
    (c.write.Some? ==> 0 <= c.write.value.n <= c.current &&
                       c.write.value.e.prePrepare.data.seqNum == c.write.value.n) &&
    (forall d | d in c.index :: c.index[d] in s.slots || (c.write.Some? && c.index[d] == c.write.value.n))
  }

  lemma MadeKeepsWindow(s: State, c: Change, mid: State)
    requires WindowInv(s) && Made(s, c, mid) && WindowGood(s, c)
    ensures WindowInv(mid) && Advances(s, mid)
  {
  }

  lemma TransferWindow(s: State, m: Message)
    requires WindowInv(s) && Enabled(s, OnTransfer(m))
    ensures WindowGood(s, TransferChange(s, m))
  {
    hide IsLeader, LeaderOf, Everyone;
  }

  lemma PrePrepareWindow(s: State, p: PrePrepareRequest)
    requires WindowInv(s)
    ensures WindowGood(s, PrePrepareChange(s, p))
  {
    hide LeaderOf, Sign;
  }

  lemma PrepareWindow(s: State, p: ProofRequest)
    requires WindowInv(s)
    ensures WindowGood(s, PrepareChange(s, p))
  {
    hide AddProofs, Sign, LeaderOf;
  }

  lemma AckWindow(s: State, r: Request)
    requires WindowInv(s)
    ensures WindowGood(s, PrePrepareOkChange(s, r)) && WindowGood(s, PrepareOkChange(s, r))
  {
    hide AckOffered, AckMatches;
  }

  lemma CommitWindow(s: State, p: ProofRequest, n: int)
    requires WindowInv(s)
    ensures WindowGood(s, CommitChange(s, p)) && WindowGood(s, OptimisticTimerChange(s, n))
  {
    hide AddProofs, Sign, PrepareProofOf, AllPrepared;
  }

  lemma ViewWindow(s: State, vc: ViewChangeReq, nv: NewViewReq)
    requires WindowInv(s)
    ensures WindowGood(s, ViewChangeChange(s, vc)) && WindowGood(s, NewViewChange(s, nv))
  {
    hide WindowInv, VerifyViewChange, LeaderOf, Received, Started, SignedBySelection, Compose, BigO, Revotes,
         RevoteOuts, ValidViewChanges, AgreeUpTo, BySender, WithOwnViewChange, WindowGood;
    QuietWindow(s, ViewChangeChange(s, vc));
    QuietWindow(s, NewViewChange(s, nv));
  }

  /** A change that leaves the log alone keeps the window. */
  lemma QuietWindow(s: State, c: Change)
    requires WindowInv(s) && c.write.None? && s.view <= c.view && c.current == s.current && c.index == s.index
    ensures WindowGood(s, c)
  {
  }

  lemma TimerWindow(s: State, e: Event)
    requires WindowInv(s) && (e.OnDigestTimer? || e.OnSlotTimer? || e.OnViewTimer?)
    ensures WindowGood(s, ChangeOf(s, e))
  {
    hide Compose, IsLeader, Settled;
  }

  lemma ChangeWindow(s: State, e: Event)
    requires WindowInv(s) && Enabled(s, e) && !e.OnCheckpoint?
    ensures WindowGood(s, ChangeOf(s, e))
  {
    hide WindowInv, WindowGood, TransferChange, PrePrepareChange, PrePrepareOkChange, PrepareChange, PrepareOkChange,
         CommitChange, ViewChangeChange, NewViewChange, OptimisticTimerChange, DigestTimerChange, SlotTimerChange;
    match e
    case OnTransfer(m) => TransferWindow(s, m);
    case OnPrePrepare(p) => PrePrepareWindow(s, p);
    case OnPrePrepareOk(r) => AckWindow(s, r);
    case OnPrepare(p) => PrepareWindow(s, p);
    case OnPrepareOk(r) => AckWindow(s, r);
    case OnCommit(p) => CommitWindow(s, p, 0);
    case OnViewChange(vc) => ViewWindow(s, vc, NewViewReq(0, [], [], Signature(0, false)));
    case OnNewView(nv) =>
      ViewWindow(s, ViewChangeReq(ViewChangeData(0, CheckpointData(0, Blank), [], []), Signature(0, false)), nv);
    case OnOptimisticTimer(n) => CommitWindow(s, ProofRequest(NOP, []), n);
    case OnDigestTimer(_, _) => TimerWindow(s, e);
    case OnSlotTimer(_, _) => TimerWindow(s, e);
    case OnViewTimer(_) => TimerWindow(s, e);
  }

  // ---- Checkpoint messages ----

  lemma CheckpointKeepsWindow(s: State, c: CheckpointReq)
    requires WindowInv(s) && Enabled(s, OnCheckpoint(c))
    ensures WindowInv(ProcessCheckpoint(s, c)) && Advances(s, ProcessCheckpoint(s, c))
  {
    hide WindowInv, Advances, RecordCheckpoint, DigestsUpTo;
    if CheckpointOffered(s, c) && BecomesStable(s, c) {
      StableKeepsWindow(s, c.data.seqNum, ProcessCheckpoint(s, c));
    } else {
      RecordKeepsWindow(s, ProcessCheckpoint(s, c));
    }
  }

  lemma RecordKeepsWindow(s: State, t: State)
    requires WindowInv(s) && t == s.(checkpoints := t.checkpoints)
    ensures WindowInv(t) && Advances(s, t)
  {
  }

  lemma StableKeepsWindow(s: State, n: int, t: State)
    requires WindowInv(s) && s.stableSeq < n <= s.lastExecuted
    requires t == s.(stableSeq := n, stableDigest := t.stableDigest, stableState := t.stableState,
                     stableProofs := t.stableProofs, checkpoints := t.checkpoints,
                     low := n + 1, high := n + s.cfg.k, index := s.index - DigestsUpTo(s, n))
    ensures WindowInv(t) && Advances(s, t)
  {
    hide DigestsUpTo;
    assert forall d | d in t.index :: d in s.index && t.index[d] == s.index[d];
  }

  // ---- Every event, every run ----

  lemma AdvancesTransitive(s: State, t: State, u: State)
    requires Advances(s, t) && Advances(t, u)
    ensures Advances(s, u)
  {
  }

  lemma RanAdvances(s: State, t: State)
    requires Ran(s, t)
    ensures Advances(s, t)
  {
  }

  lemma EmitKeepsWindow(s: State, o: Output)
    requires WindowInv(s)
    ensures WindowInv(Emit(s, o)) && Advances(s, Emit(s, o))
  {
  }

  lemma FinishedKeepsWindow(s: State, e: Event, mid: State, t: State)
    requires WindowInv(mid) && Advances(s, mid) && Finished(s, e, mid, t)
    ensures WindowInv(t) && Advances(s, t)
  {
    hide WindowInv, Advances, Ran, Commits, ExecutePending;
    var u := ExecutePending(mid);
    ExecutePendingRan(mid);
    RanKeepsWindow(mid, u);
    RanAdvances(mid, u);
    AdvancesTransitive(s, mid, u);
    if Commits(s, e) && e.OnPrepareOk? {
      var proof :| t == Emit(u, SendCommit(proof));
      EmitKeepsWindow(u, SendCommit(proof));
      AdvancesTransitive(s, u, t);
    }
  }

  /** Every event, in every view, keeps the window and only advances the replica. */
  lemma NextKeepsWindow(s: State, e: Event)
    requires WindowInv(s) && Enabled(s, e)
    ensures WindowInv(Next(s, e)) && Advances(s, Next(s, e))
  {
    hide WindowInv, Advances, ChangeOf, Made, Finished, WindowGood, ProcessTransfer, ProcessPrePrepare,
         ProcessPrePrepareOk, ProcessPrepare, ProcessPrepareOk, ProcessCommit, ProcessViewChange, ProcessNewView,
         ProcessCheckpoint, OptimisticTimer, DigestTimer, SlotTimer, ViewTimer;
    if e.OnCheckpoint? {
      CheckpointKeepsWindow(s, e.c);
    } else {
      var mid := NextMade(s, e);
      ChangeWindow(s, e);
      MadeKeepsWindow(s, ChangeOf(s, e), mid);
      FinishedKeepsWindow(s, e, mid, Next(s, e));
    }
  }

  /** The state after a list of events, when each is enabled in its turn. */
  ghost function Run(s: State, es: seq<Event>): Option<State> {
    if es == [] then Some(s)
    else
      var before := Run(s, es[..|es| - 1]);
      if before.Some? && Enabled(before.value, es[|es| - 1]) then Some(Next(before.value, es[|es| - 1])) else None
  }

  /** A state that some run of the replica reaches, whatever messages arrive and whatever views are entered. */
  ghost predicate Reached(cfg: Config, s: State) {
    exists es :: Run(Init(cfg), es) == Some(s)
  }

  /** The window is kept over every run, whatever messages arrive and whatever views are entered. */
  lemma {:induction false} WindowAlways(cfg: Config, es: seq<Event>)
    requires cfg.k >= 1 && Run(Init(cfg), es).Some?
    ensures WindowInv(Run(Init(cfg), es).value)
  {
    if es != [] {
      hide Next, Enabled;
      WindowAlways(cfg, es[..|es| - 1]);
      NextKeepsWindow(Run(Init(cfg), es[..|es| - 1]).value, es[|es| - 1]);
    }
  }

  /** The log as a partial map from sequence numbers to entries. */
  function Log(s: State): map<int, Entry> {
    map n | n in s.slots && s.low <= n :: s.slots[n]
  }

  lemma {:induction false} RangeSize(from: int, size: nat, s: set<int>)
    requires forall n | n in s :: from <= n < from + size
    ensures |s| <= size
    decreases size
  {
    if size == 0 {
      if s != {} {
        var n := Pick(s);
        assert false;
      }
    } else {
      RangeSize(from, size - 1, s - {from + size - 1});
      assert |s| <= |s - {from + size - 1}| + 1;
    }
  }

  /** At every moment of every run, whatever views were entered: a checkpoint that becomes stable drops exactly the
      slots up to it, all of them passed by execution; every other slot keeps its sequence number and its entry;
      and the at most k slots that remain lie in the window right after the checkpoint. */
  lemma TruncationDropsPrefix(cfg: Config, s: State, c: CheckpointReq)
    requires cfg.k >= 1 && Reached(cfg, s) && BecomesStable(s, c)
    ensures var t := ProcessCheckpoint(s, c);
            t.low == c.data.seqNum + 1 && t.high == c.data.seqNum + s.cfg.k && s.low < t.low <= s.lastExecuted + 1 &&
            (forall n :: n in Log(t) <==> n in Log(s) && c.data.seqNum < n) &&
            (forall n | n in Log(t) :: Log(t)[n] == Log(s)[n] && InWindow(t, n)) && |Log(t)| <= s.cfg.k
  {
    hide RecordCheckpoint, DigestsUpTo, Run, Init;
    var es :| Run(Init(cfg), es) == Some(s);
    WindowAlways(cfg, es);
    var t := ProcessCheckpoint(s, c);
    RangeSize(t.low, s.cfg.k, Log(t).Keys);
    assert |Log(t)| == |Log(t).Keys|;
  }
}
