/** One vote per slot: a correct replica signs at most one digest for a view and sequence number. */
module Voting {
  import opened Messages
  import opened ReplicaState
  import opened Change
  import opened Window
  import opened ExecutionFold
  import Selection

  ghost predicate Correct(cfg: Config) {
    !cfg.byzantine && cfg.f >= 1 && cfg.k >= 1
  }

  /** The law: no two signed contexts of one view and sequence number differ. */
  ghost predicate OneVotePerSlot(signed: set<Context>) {
    forall c, d | c in signed && d in signed && c != NOP && d != NOP ::
      c.view == d.view && c.seqNum == d.seqNum ==> c.digest == d.digest
  }

  /** A slot's own context is signed and of no later view; a slot waiting to be prepared holds fewer than 2f
      prepares; what is marked executed was executed. */
  ghost predicate EntryVoted(s: State, n: int, e: Entry) {
    e.prePrepare.data in s.signed && e.prePrepare.data.view <= s.view &&
    (e.status == PrePrepared ==> |e.prepares| < 2 * s.cfg.f) &&
    (e.status == Executed ==> n <= s.lastExecuted)
  }

  ghost predicate SlotsVoted(s: State) {
    forall n | n in s.slots :: EntryVoted(s, n, s.slots[n])
  }

  predicate Covers(e: Entry, c: Context) {
    c.view <= e.prePrepare.data.view && (c.view == e.prePrepare.data.view ==> c == e.prePrepare.data)
  }

  /** Every context signed in the present view is the one of its slot: a null slot was never voted on. */
  ghost predicate SignedCovered(s: State) {
    forall c | c in s.signed :: c == NOP || c.view < s.view || (c.seqNum in s.slots && Covers(s.slots[c.seqNum], c))
  }

  ghost predicate VoteInv(s: State) {
    OneVotePerSlot(s.signed) && SlotsVoted(s) && SignedCovered(s)
  }

  // ---- Changes ----

  /** A change keeps SlotsVoted. */
  ghost predicate SlotGood(s: State, c: Change) {
    s.view <= c.view &&
    (c.write.Some? ==>
       var n, e := c.write.value.n, c.write.value.e;
       e.prePrepare.data.view <= c.view && (e.prePrepare.data in c.signs || e.prePrepare.data in s.signed) &&
       (e.status == PrePrepared ==> |e.prepares| < 2 * s.cfg.f) &&
       (e.status == Executed ==> n in s.slots && s.slots[n].status == Executed))
  }

  /** The context is the present view's, for the slot the change leaves it in. */
  predicate FreshVote(s: State, c: Change, x: Context) {
    x.view == s.view == c.view && x.seqNum in SlotsAfter(s, c) && SlotsAfter(s, c)[x.seqNum].prePrepare.data == x
  }

  /** A change keeps SignedCovered: it signs again, or for an earlier view, or freshly. */
  ghost predicate SignGood(s: State, c: Change) {
    s.view <= c.view &&
    (c.write.Some? && c.write.value.n in s.slots ==>
     Covers(c.write.value.e, s.slots[c.write.value.n].prePrepare.data)) &&
    (forall x | x in c.signs :: x == NOP || x in s.signed || x.view < c.view || FreshVote(s, c, x))
  }

  /** Nothing a change signs is for an earlier view, unless it was signed already. */
  ghost predicate NoEarlier(s: State, c: Change) {
    forall x | x in c.signs :: x == NOP || x in s.signed || FreshVote(s, c, x)
  }

  lemma MadeKeepsSlots(s: State, c: Change, mid: State)
    requires SlotsVoted(s) && Made(s, c, mid) && SlotGood(s, c)
    ensures SlotsVoted(mid)
  {
  }

  lemma MadeKeepsSigned(s: State, c: Change, mid: State)
    requires SlotsVoted(s) && SignedCovered(s) && Made(s, c, mid) && SignGood(s, c)
    ensures SignedCovered(mid)
  {
    forall x | x in mid.signed
      ensures x == NOP || x.view < mid.view || (x.seqNum in mid.slots && Covers(mid.slots[x.seqNum], x))
    {
      assert x in s.signed || x in c.signs;
      if x in s.signed && x != NOP && s.view <= x.view && c.write.Some? && c.write.value.n == x.seqNum {
        assert EntryVoted(s, x.seqNum, s.slots[x.seqNum]);
      }
    }
  }

  lemma MadeSigned(s: State, c: Change, mid: State)
    requires Made(s, c, mid)
    ensures mid.signed == s.signed + c.signs
  {
  }

  /** A fresh vote contradicts nothing that was signed. */
  lemma VoteIsNew(s: State, c: Change)
    requires VoteInv(s) && SignGood(s, c) && NoEarlier(s, c)
    ensures OneVotePerSlot(s.signed + c.signs)
  {
    forall x, y | x in s.signed + c.signs && y in s.signed + c.signs && x != NOP && y != NOP &&
                  x.view == y.view && x.seqNum == y.seqNum
      ensures x.digest == y.digest
    {
      if x !in s.signed && y in s.signed {
        FreshIs(s, c, x, y);
      } else if x in s.signed && y !in s.signed {
        FreshIs(s, c, y, x);
      }
    }
  }

  lemma FreshIs(s: State, c: Change, x: Context, y: Context)
    requires SlotsVoted(s) && SignedCovered(s) && SignGood(s, c) && FreshVote(s, c, x)
    requires y in s.signed && y != NOP && x.view == y.view && x.seqNum == y.seqNum
    ensures x == y
  {
    assert EntryVoted(s, y.seqNum, s.slots[y.seqNum]);
  }

  /** What the invariants say about one slot. */
  lemma SlotVoted(s: State, n: int)
    requires WindowInv(s) && SlotsVoted(s) && n in s.slots
    ensures 0 <= n && s.slots[n].prePrepare.data.seqNum == n && EntryVoted(s, n, s.slots[n])
  {
    hide EntryVoted;
  }

  /** A change that signs and writes nothing is good, and so is one that keeps its slot's context and
      signs no other. */
  lemma SlotKept(s: State, c: Change)
    requires SlotsVoted(s) && c.view == s.view
    requires c.write.None? ==> c.signs <= {NOP}
    requires c.write.Some? ==>
               var n, e := c.write.value.n, c.write.value.e;
               n in s.slots && e.prePrepare == s.slots[n].prePrepare &&
               (forall x | x in c.signs :: x == e.prePrepare.data) &&
               (e.status == PrePrepared ==> |e.prepares| < 2 * s.cfg.f) &&
               (e.status == Executed ==> s.slots[n].status == Executed)
    ensures SlotGood(s, c) && SignGood(s, c) && NoEarlier(s, c)
  {
    hide Covers, FreshVote;
    if c.write.Some? {
      var n, e := c.write.value.n, c.write.value.e;
      assert EntryVoted(s, n, s.slots[n]);
      assert Covers(e, s.slots[n].prePrepare.data) by { CoversSelf(e); }
    }
  }

  lemma CoversSelf(e: Entry)
    ensures Covers(e, e.prePrepare.data)
  {
  }

  /** What a change must be for the invariants over every run, and for those without contradicting re-votes. */
  ghost predicate VoteGood(s: State, c: Change) {
    SlotGood(s, c) && SignGood(s, c) && NoEarlier(s, c)
  }

  lemma TransferVotes(s: State, m: Message)
    requires Correct(s.cfg) && WindowInv(s) && SlotsVoted(s)
    ensures VoteGood(s, TransferChange(s, m))
  {
    hide IsLeader, LeaderOf, ProposeChange, ReproposeChange, SlotGood, SignGood, NoEarlier, SlotsVoted, WindowInv,
         Correct;
    if Proposes(s, m) {
      ProposeVotes(s, m);
    } else if Known(s, m.data) {
      ReproposeVotes(s, m, s.index[TransferDigest(m.data)]);
    }
    if TransferChange(s, m).write.None? && TransferChange(s, m).signs == {} && TransferChange(s, m).view == s.view {
      SlotKept(s, TransferChange(s, m));
    }
  }

  lemma ProposeVotes(s: State, m: Message)
    requires WindowInv(s) && Correct(s.cfg)
    ensures VoteGood(s, ProposeChange(s, m))
  {
    hide Everyone, Sign, Proposal;
    assert Proposal(s, m).data == Context(s.view, s.current + 1, TransferDigest(m.data)) by { ProposalData(s, m); }
    assert s.current + 1 !in s.slots;
  }

  lemma ProposalData(s: State, m: Message)
    ensures Proposal(s, m).data == Context(s.view, s.current + 1, TransferDigest(m.data))
  {
    hide Everyone;
  }

  lemma ReproposeVotes(s: State, m: Message, n: int)
    requires WindowInv(s) && SlotsVoted(s) && Correct(s.cfg) && n in s.slots
    ensures VoteGood(s, ReproposeChange(s, m, n))
  {
    hide Everyone, SlotsVoted, WindowInv;
    SlotVoted(s, n);
  }

  lemma PrePrepareVotes(s: State, p: PrePrepareRequest)
    requires Correct(s.cfg) && WindowInv(s) && SlotsVoted(s)
    ensures VoteGood(s, PrePrepareChange(s, p))
  {
    hide PrePrepareOffered, SlotTaken, Opened, Sign, VoteGood, SlotsVoted, WindowInv;
    if PrePrepareOffered(s, p) && !SlotTaken(s, p.r.data) {
      OpenedVotes(s, p);
    } else {
      assert VoteGood(s, PrePrepareChange(s, p))
             by { SlotKept(s, PrePrepareChange(s, p)); KeptGood(s, PrePrepareChange(s, p)); }
    }
  }

  lemma KeptGood(s: State, c: Change)
    requires SlotGood(s, c) && SignGood(s, c) && NoEarlier(s, c)
    ensures VoteGood(s, c)
  {
  }

  lemma OpenedVotes(s: State, p: PrePrepareRequest)
    requires Correct(s.cfg) && WindowInv(s) && SlotsVoted(s) && PrePrepareOffered(s, p) && !SlotTaken(s, p.r.data)
    ensures VoteGood(s, PrePrepareChange(s, p))
  {
    hide LeaderOf, Everyone, SlotsVoted, WindowInv;
    if p.r.data.seqNum in s.slots {
      SlotVoted(s, p.r.data.seqNum);
    }
  }

  lemma AckVotes(s: State, r: Request)
    requires Correct(s.cfg) && SlotsVoted(s)
    ensures VoteGood(s, PrePrepareOkChange(s, r)) && VoteGood(s, PrepareOkChange(s, r))
  {
    hide AckOffered, AckMatches, SlotGood, SignGood, NoEarlier, SlotsVoted;
    if Counted(s, r) {
      SlotBelow(s, r.data.seqNum);
    }
    SlotKept(s, PrePrepareOkChange(s, r));
    SlotKept(s, PrepareOkChange(s, r));
  }

  lemma SlotBelow(s: State, n: int)
    requires SlotsVoted(s) && n in s.slots
    ensures s.slots[n].status == PrePrepared ==> |s.slots[n].prepares| < 2 * s.cfg.f
  {
    assert EntryVoted(s, n, s.slots[n]);
  }

  lemma PrepareVotes(s: State, p: ProofRequest)
    requires Correct(s.cfg) && WindowInv(s) && SlotsVoted(s)
    ensures VoteGood(s, PrepareChange(s, p)) && VoteGood(s, CommitChange(s, p))
  {
    hide AddProofs, Sign, LeaderOf, SlotGood, SignGood, NoEarlier, SlotsVoted, WindowInv;
    if ProofOffered(s, p, {PrePrepared, Prepared}) {
      SlotVoted(s, p.data.seqNum);
    }
    SlotKept(s, PrepareChange(s, p));
    SlotKept(s, CommitChange(s, p));
  }

  lemma TimerVotes(s: State, n: int)
    requires SlotsVoted(s)
    ensures VoteGood(s, OptimisticTimerChange(s, n))
  {
    hide Sign, PrepareProofOf, SlotGood, SignGood, NoEarlier, SlotsVoted;
    if n in s.slots {
      SlotBelow(s, n);
    }
    SlotKept(s, OptimisticTimerChange(s, n));
  }

  /** Entering a view as its leader, or asking for one, signs at most the NOP. */
  lemma ViewVotes(s: State, vc: ViewChangeReq)
    ensures VoteGood(s, ViewChangeChange(s, vc))
  {
    hide VerifyViewChange, LeaderOf, Received, Started, Compose, WithOwnViewChange;
  }

  lemma ViewTimerVotes(s: State, e: Event)
    requires SlotsVoted(s) && (e.OnDigestTimer? || e.OnSlotTimer? || e.OnViewTimer?)
    ensures VoteGood(s, ChangeOf(s, e))
  {
    hide Compose, IsLeader, Settled, SlotGood, SignGood, NoEarlier, SlotsVoted;
    SlotKept(s, ChangeOf(s, e));
  }

  /** The contexts an accepted NEW-VIEW makes the replica vote for. */
  function Revoted(s: State, e: Event): set<Context> {
    if e.OnNewView? && NewViewAccepted(s, e.nv) then Revotes(e.nv.prePrepares) else {}
  }

  /** An accepted NEW-VIEW announces only contexts of earlier views, and NOPs. */
  ghost predicate NamesEarlier(s: State, e: Event) {
    forall c | c in Revoted(s, e) :: c == NOP || c.view < e.nv.view
  }

  /** An accepted NEW-VIEW contradicts nothing signed already, nor itself. */
  ghost predicate ContradictsNothing(s: State, e: Event) {
    OneVotePerSlot(s.signed + Revoted(s, e))
  }

  lemma NewViewVotes(s: State, nv: NewViewReq)
    ensures SlotGood(s, NewViewChange(s, nv))
    ensures NamesEarlier(s, OnNewView(nv)) ==> SignGood(s, NewViewChange(s, nv))
    ensures forall x | x in NewViewChange(s, nv).signs :: x == NOP || x in Revoted(s, OnNewView(nv))
  {
    hide BigO, RevoteOuts, ValidViewChanges, AgreeUpTo, BySender, FreshVote;
  }

  lemma ChangeVotes(s: State, e: Event)
    requires Correct(s.cfg) && WindowInv(s) && SlotsVoted(s) && !e.OnCheckpoint? && !e.OnNewView?
    ensures VoteGood(s, ChangeOf(s, e))
  {
    hide WindowInv, SlotsVoted, VoteGood, TransferChange, PrePrepareChange, PrePrepareOkChange, PrepareChange,
         PrepareOkChange, CommitChange, ViewChangeChange, NewViewChange, OptimisticTimerChange, DigestTimerChange,
         SlotTimerChange;
    match e
    case OnTransfer(m) => TransferVotes(s, m);
    case OnPrePrepare(p) => PrePrepareVotes(s, p);
    case OnPrePrepareOk(r) => AckVotes(s, r);
    case OnPrepare(p) => PrepareVotes(s, p);
    case OnPrepareOk(r) => AckVotes(s, r);
    case OnCommit(p) => PrepareVotes(s, p);
    case OnOptimisticTimer(n) => TimerVotes(s, n);
    case OnViewChange(vc) => ViewVotes(s, vc);
    case OnDigestTimer(_, _) => ViewTimerVotes(s, e);
    case OnSlotTimer(_, _) => ViewTimerVotes(s, e);
    case OnViewTimer(_) => ViewTimerVotes(s, e);
  }

  // ---- Execution and checkpoint messages ----

  /** What execution and checkpoint messages leave: the votes, and every slot but its status. */
  ghost predicate SameVotes(s: State, t: State) {
    t.cfg == s.cfg && t.view == s.view && t.signed == s.signed && t.slots.Keys == s.slots.Keys &&
    s.lastExecuted <= t.lastExecuted &&
    forall n | n in s.slots ::
      t.slots[n].prePrepare == s.slots[n].prePrepare && t.slots[n].prepares == s.slots[n].prepares &&
      (t.slots[n].status == s.slots[n].status || (t.slots[n].status == Executed && n <= t.lastExecuted))
  }

  lemma SameTransitive(s: State, t: State, u: State)
    requires SameVotes(s, t) && SameVotes(t, u)
    ensures SameVotes(s, u)
  {
  }

  lemma SameKeeps(s: State, t: State)
    requires SameVotes(s, t)
    ensures SlotsVoted(s) ==> SlotsVoted(t)
    ensures SignedCovered(s) ==> SignedCovered(t)
    ensures t.signed == s.signed
  {
    if SlotsVoted(s) {
      forall n | n in t.slots
        ensures EntryVoted(t, n, t.slots[n])
      {
        assert EntryVoted(s, n, s.slots[n]);
      }
    }
  }

  lemma {:induction false} ExecuteFromVotes(s: State, n: int)
    requires s.lastExecuted < n
    ensures SameVotes(s, ExecuteFrom(s, n))
    decreases s.current - n
  {
    hide ExecuteOne, SameVotes;
    SameReflexive(s);
    if n <= s.current {
      if n in s.slots && s.slots[n].status == Committed {
        ExecuteOneRan(s, n);
        ExecuteOneVotes(s, n);
        ExecuteFromVotes(ExecuteOne(s, n), n + 1);
        SameTransitive(s, ExecuteOne(s, n), ExecuteFrom(s, n));
      } else if n !in s.slots || s.slots[n].status == Executed {
        ExecuteFromVotes(s, n + 1);
      }
    }
  }

  lemma SameReflexive(s: State)
    ensures SameVotes(s, s)
  {
  }

  lemma ExecuteOneVotes(s: State, n: int)
    requires n in s.slots && s.slots[n].status == Committed && s.lastExecuted < n <= s.current
    ensures SameVotes(s, ExecuteOne(s, n))
  {
    hide ExecuteOne;
    ExecuteOneRan(s, n);
    ExecuteOneGrows(s, n);
  }

  lemma FinishedVotes(s: State, e: Event, mid: State, t: State)
    requires Finished(s, e, mid, t)
    ensures SameVotes(mid, t)
  {
    hide SameVotes, ExecuteFrom, Commits;
    SameReflexive(mid);
    ExecuteFromVotes(mid, mid.lastExecuted + 1);
    if Commits(s, e) && e.OnPrepareOk? {
      var proof :| t == Emit(ExecutePending(mid), SendCommit(proof));
      EmitVotes(ExecutePending(mid), SendCommit(proof));
      SameTransitive(mid, ExecutePending(mid), t);
    }
  }

  lemma EmitVotes(s: State, o: Output)
    ensures SameVotes(s, Emit(s, o))
  {
  }

  lemma CheckpointVotes(s: State, c: CheckpointReq)
    ensures SameVotes(s, ProcessCheckpoint(s, c))
  {
    hide SameVotes, ProcessCheckpoint;
    CheckpointFields(s, c);
    SameLogVotes(s, ProcessCheckpoint(s, c));
  }

  lemma SameLogVotes(s: State, t: State)
    requires t.cfg == s.cfg && t.view == s.view && t.signed == s.signed && t.slots == s.slots
    requires t.lastExecuted == s.lastExecuted
    ensures SameVotes(s, t)
  {
  }

  // ---- Every event, every run ----

  /** The entries' part of the invariant is kept by every event, re-votes included. */
  lemma NextKeepsSlots(s: State, e: Event)
    requires Correct(s.cfg) && WindowInv(s) && SlotsVoted(s) && Enabled(s, e)
    ensures SlotsVoted(Next(s, e))
  {
    hide WindowInv, SlotsVoted, ChangeOf, Made, Finished, VoteGood, SlotGood, SameVotes, ProcessTransfer,
         ProcessPrePrepare, ProcessPrePrepareOk, ProcessPrepare, ProcessPrepareOk, ProcessCommit, ProcessViewChange,
         ProcessNewView, ProcessCheckpoint, OptimisticTimer, DigestTimer, SlotTimer, ViewTimer;
    if e.OnCheckpoint? {
      CheckpointVotes(s, e.c);
      SameKeeps(s, Next(s, e));
    } else {
      var mid := NextMade(s, e);
      ChangeSlots(s, e);
      MadeKeepsSlots(s, ChangeOf(s, e), mid);
      FinishedVotes(s, e, mid, Next(s, e));
      SameKeeps(mid, Next(s, e));
    }
  }

  lemma ChangeSlots(s: State, e: Event)
    requires Correct(s.cfg) && WindowInv(s) && SlotsVoted(s) && !e.OnCheckpoint?
    ensures SlotGood(s, ChangeOf(s, e))
  {
    hide WindowInv, SlotsVoted, SlotGood, SignGood, NoEarlier, TransferChange, PrePrepareChange, PrePrepareOkChange,
         PrepareChange, PrepareOkChange, CommitChange, ViewChangeChange, NewViewChange, OptimisticTimerChange,
         DigestTimerChange, SlotTimerChange;
    if e.OnNewView? {
      NewViewVotes(s, e.nv);
    } else {
      ChangeVotes(s, e);
    }
  }

  /** One vote per slot is kept by every event, when what an accepted NEW-VIEW announces is of earlier views
      and contradicts nothing. */
  lemma NextKeepsVotes(s: State, e: Event)
    requires Correct(s.cfg) && WindowInv(s) && VoteInv(s) && Enabled(s, e)
    requires NamesEarlier(s, e) && ContradictsNothing(s, e)
    ensures VoteInv(Next(s, e))
  {
    hide WindowInv, SlotsVoted, SignedCovered, OneVotePerSlot, ChangeOf, Made, Finished, SignGood, SameVotes,
         ProcessTransfer, ProcessPrePrepare, ProcessPrePrepareOk, ProcessPrepare, ProcessPrepareOk, ProcessCommit,
         ProcessViewChange, ProcessNewView, ProcessCheckpoint, OptimisticTimer, DigestTimer, SlotTimer, ViewTimer,
         NamesEarlier, ContradictsNothing;
    NextKeepsSlots(s, e);
    if e.OnCheckpoint? {
      CheckpointVotes(s, e.c);
      SameKeeps(s, Next(s, e));
    } else {
      var mid := NextMade(s, e);
      ChangeSigns(s, e);
      MadeSigned(s, ChangeOf(s, e), mid);
      MadeKeepsSigned(s, ChangeOf(s, e), mid);
      FinishedVotes(s, e, mid, Next(s, e));
      SameKeeps(mid, Next(s, e));
    }
  }

  lemma ChangeSigns(s: State, e: Event)
    requires Correct(s.cfg) && WindowInv(s) && VoteInv(s) && !e.OnCheckpoint?
    requires NamesEarlier(s, e) && ContradictsNothing(s, e)
    ensures SignGood(s, ChangeOf(s, e)) && OneVotePerSlot(s.signed + ChangeOf(s, e).signs)
  {
    hide WindowInv, SlotsVoted, SignedCovered, SlotGood, SignGood, NoEarlier, OneVotePerSlot, NamesEarlier,
         TransferChange, PrePrepareChange, PrePrepareOkChange, PrepareChange, PrepareOkChange, CommitChange,
         ViewChangeChange, NewViewChange, OptimisticTimerChange, DigestTimerChange, SlotTimerChange;
    if e.OnNewView? {
      NewViewVotes(s, e.nv);
      FewerVotes(s.signed + Revoted(s, e), s.signed + ChangeOf(s, e).signs);
    } else {
      ChangeVotes(s, e);
      VoteIsNew(s, ChangeOf(s, e));
    }
  }

  lemma FewerVotes(signed: set<Context>, fewer: set<Context>)
    requires OneVotePerSlot(signed) && forall c | c in fewer :: c == NOP || c in signed
    ensures OneVotePerSlot(fewer)
  {
  }

  lemma {:induction false} SlotsAlways(cfg: Config, es: seq<Event>)
    requires Correct(cfg) && Run(Init(cfg), es).Some?
    ensures WindowInv(Run(Init(cfg), es).value) && SlotsVoted(Run(Init(cfg), es).value)
    ensures Run(Init(cfg), es).value.cfg == cfg
  {
    RunKeepsConfig(cfg, es);
    WindowAlways(cfg, es);
    if es != [] {
      hide Next, Enabled, SlotsVoted, WindowInv;
      SlotsAlways(cfg, es[..|es| - 1]);
      NextKeepsSlots(Run(Init(cfg), es[..|es| - 1]).value, es[|es| - 1]);
    }
  }

  /** Along the run every accepted NEW-VIEW announces contexts of earlier views only. */
  ghost predicate AlwaysEarlier(s: State, es: seq<Event>)
    requires Run(s, es).Some?
  {
    es == [] || (AlwaysEarlier(s, es[..|es| - 1]) && NamesEarlier(Run(s, es[..|es| - 1]).value, es[|es| - 1]))
  }

  /** Along the run no accepted NEW-VIEW contradicted what was signed when it arrived. */
  ghost predicate NeverContradicted(s: State, es: seq<Event>)
    requires Run(s, es).Some?
  {
    es == [] || (NeverContradicted(s, es[..|es| - 1]) && ContradictsNothing(Run(s, es[..|es| - 1]).value, es[|es| - 1]))
  }

  lemma {:induction false} VotesAlways(cfg: Config, es: seq<Event>)
    requires Correct(cfg) && Run(Init(cfg), es).Some? && AlwaysEarlier(Init(cfg), es) &&
             NeverContradicted(Init(cfg), es)
    ensures VoteInv(Run(Init(cfg), es).value)
  {
    SlotsAlways(cfg, es);
    if es != [] {
      hide Next, Enabled, VoteInv, NamesEarlier, ContradictsNothing, WindowInv;
      SlotsAlways(cfg, es[..|es| - 1]);
      VotesAlways(cfg, es[..|es| - 1]);
      NextKeepsVotes(Run(Init(cfg), es[..|es| - 1]).value, es[|es| - 1]);
    }
  }

  /** What an event announces it signs, and what was signed stays signed. */
  lemma RevotedSigned(s: State, e: Event)
    requires WindowInv(s) && Enabled(s, e)
    ensures s.signed + Revoted(s, e) <= Next(s, e).signed
  {
    hide WindowInv, Next, Enabled, BigO, ValidViewChanges, AgreeUpTo;
    NextKeepsWindow(s, e);
    if e.OnNewView? && NewViewAccepted(s, e.nv) {
      assert Revotes(e.nv.prePrepares) <= Next(s, e).signed by { RevotesSigned(s, e.nv); }
    }
  }

  lemma RevotesSigned(s: State, nv: NewViewReq)
    requires Enabled(s, OnNewView(nv)) && NewViewAccepted(s, nv)
    ensures Revotes(nv.prePrepares) <= Next(s, OnNewView(nv)).signed
  {
    hide BigO, ValidViewChanges, AgreeUpTo, SignedBySelection, RevoteOuts, BySender;
  }

  /** A contradiction once signed stays: without it at the end there was none on the way. */
  lemma {:induction false} OneVoteBackwards(cfg: Config, es: seq<Event>)
    requires Correct(cfg) && Run(Init(cfg), es).Some? && OneVotePerSlot(Run(Init(cfg), es).value.signed)
    ensures NeverContradicted(Init(cfg), es)
  {
    if es != [] {
      hide Next, Enabled, WindowInv, OneVotePerSlot, Revoted;
      var before, e := Run(Init(cfg), es[..|es| - 1]).value, es[|es| - 1];
      WindowAlways(cfg, es[..|es| - 1]);
      RevotedSigned(before, e);
      FewerVotes(Next(before, e).signed, before.signed + Revoted(before, e));
      FewerVotes(Next(before, e).signed, before.signed);
      OneVoteBackwards(cfg, es[..|es| - 1]);
    }
  }

  /** No equivocation, exactly. Over every run whose accepted NEW-VIEWs announce contexts of earlier views, through
      truncation, duplicate pre-prepares, its own proposals and view changes with re-votes, a correct replica has
      signed at most one digest for each view and sequence number if and only if no accepted NEW-VIEW contradicted
      what was already signed when it arrived. */
  lemma NoEquivocation(cfg: Config, es: seq<Event>)
    requires Correct(cfg) && Run(Init(cfg), es).Some? && AlwaysEarlier(Init(cfg), es)
    ensures OneVotePerSlot(Run(Init(cfg), es).value.signed) <==> NeverContradicted(Init(cfg), es)
  {
    hide Run, AlwaysEarlier, NeverContradicted, OneVotePerSlot, SlotsVoted, SignedCovered;
    if NeverContradicted(Init(cfg), es) {
      VotesAlways(cfg, es);
    }
    if OneVotePerSlot(Run(Init(cfg), es).value.signed) {
      OneVoteBackwards(cfg, es);
    }
  }

  /** A pass of execution, at every moment of every run, skips a slot exactly when an empty slot lies below a
      committed one with nothing in between to stop it. */
  lemma PassSkipsAlways(cfg: Config, s: State)
    requires Correct(cfg) && Reached(cfg, s)
    ensures Skipped(ExecutePending(s)) == Skipped(s) <==> NoHole(s, s.lastExecuted + 1)
  {
    hide Run, Init, ExecutePending, WindowInv;
    var es :| Run(Init(cfg), es) == Some(s);
    SlotsAlways(cfg, es);
    PassSkips(s);
  }

  /** Contradictions do happen. The announced list of a NEW-VIEW may be longer than the recomputed one,
      and every announced context is voted for: from every state some accepted NEW-VIEW makes the replica
      sign any given context. */
  lemma RevotesSignAnything(s: State, data: Context) returns (nv: NewViewReq)
    ensures NewViewAccepted(s, nv) && NewViewReadable(s, nv)
    ensures data in ProcessNewView(s, nv).signed
  {
    var vc := ViewChangeReq(ViewChangeData(s.view + 1, CheckpointData(-1, Blank), [], []), Signature(0, true));
    var vcs := seq(2 * s.cfg.f + 1, i => vc);
    nv := NewViewReq(s.view + 1, vcs, [Request(data, SignatureVec(0, {}))], Signature(0, true));
    CopiesValid(s.cfg, vc, 2 * s.cfg.f + 1);
    CopiesEmpty(vc, 2 * s.cfg.f + 1);
    assert BigO(s.cfg, vcs) == [];
    assert nv.prePrepares[0] in nv.prePrepares;
    assert data in Revotes(nv.prePrepares);
  }

  lemma {:induction false} CopiesValid(cfg: Config, vc: ViewChangeReq, count: nat)
    requires VerifyViewChange(cfg, vc)
    ensures ValidViewChanges(cfg, seq(count, i => vc)) == count
  {
    if count > 0 {
      CopiesValid(cfg, vc, count - 1);
      assert seq(count, i => vc)[..count - 1] == seq(count - 1, i => vc);
    }
  }

  lemma {:induction false} CopiesEmpty(vc: ViewChangeReq, count: nat)
    requires vc.data.pproofs == [] && vc.data.lastCheckpoint.seqNum <= 0
    ensures Selection.Proofs(seq(count, i => vc)) == [] && Selection.MaxStable(seq(count, i => vc)) == 0
  {
    if count > 0 {
      CopiesEmpty(vc, count - 1);
      assert seq(count, i => vc)[..count - 1] == seq(count - 1, i => vc);
    }
  }

  /** Naming earlier views only is needed too: a NEW-VIEW that announces a context of the view it opens
      contradicts nothing when it arrives, and a pre-prepare of that view for the same slot does later. */
  lemma LaterViewEquivocates(cfg: Config) returns (es: seq<Event>)
    requires Correct(cfg)
    ensures Run(Init(cfg), es).Some? && NeverContradicted(Init(cfg), es)
    ensures !AlwaysEarlier(Init(cfg), es) && !OneVotePerSlot(Run(Init(cfg), es).value.signed)
  {
    hide Next, Enabled, NamesEarlier, ContradictsNothing, OneVotePerSlot, Revoted, PrePrepareOffered, AlwaysEarlier,
         NeverContradicted, Run, ProcessPrePrepare, ProcessNewView, Revotes, NewViewAccepted, NewViewReadable;
    var s := Init(cfg);
    var m := Message(Transfer("A", "B", 0, 0), Signature(0, true));
    var c, d := Context(2, 0, Other("x")), Context(2, 0, TransferDigest(m.data));
    var nv := Reopening(s, c);
    var p := PrePrepareRequest(Request(d, SignatureVec(LeaderOf(cfg, 2), {})), m);
    var first, second := OnNewView(nv), OnPrePrepare(p);
    es := [first, second];
    Reopened(s, nv, c);
    FirstStep(s, nv, c);
    var t := Next(s, first);
    assert PrePrepareOffered(t, p) by { Offered(t, p); }
    Contradicted(t, p, c);
    SecondStep(t, p);
    assert t.signed + {} == t.signed;
    assert OneVotePerSlot({c}) by { OneContext(c); }
    SameContradiction(s, first);
    SameContradiction(t, second);
    RunTwo(s, first, second);
  }

  lemma RunTwo(s: State, first: Event, second: Event)
    requires Enabled(s, first) && Enabled(Next(s, first), second)
    ensures Run(s, [first, second]) == Some(Next(Next(s, first), second))
    ensures AlwaysEarlier(s, [first, second]) <==> NamesEarlier(s, first) && NamesEarlier(Next(s, first), second)
    ensures NeverContradicted(s, [first, second]) <==>
            ContradictsNothing(s, first) && ContradictsNothing(Next(s, first), second)
  {
    hide Next, Enabled, NamesEarlier, ContradictsNothing;
    RunOne(s, first);
    var es := [first, second];
    assert es[..|es| - 1] == [first] && es[|es| - 1] == second;
  }

  lemma RunOne(s: State, first: Event)
    requires Enabled(s, first)
    ensures Run(s, [first]) == Some(Next(s, first))
    ensures AlwaysEarlier(s, [first]) <==> NamesEarlier(s, first)
    ensures NeverContradicted(s, [first]) <==> ContradictsNothing(s, first)
  {
    hide Next, Enabled, NamesEarlier, ContradictsNothing;
    var es := [first];
    assert es[..|es| - 1] == [] && es[|es| - 1] == first;
  }

  lemma OneContext(c: Context)
    ensures OneVotePerSlot({c})
  {
  }

  lemma SameContradiction(s: State, e: Event)
    requires OneVotePerSlot(s.signed + Revoted(s, e))
    ensures ContradictsNothing(s, e)
  {
  }

  lemma FirstStep(s: State, nv: NewViewReq, c: Context)
    requires s == Init(s.cfg) && c.view == 2 && c != NOP && NewViewAccepted(s, nv) && NewViewReadable(s, nv)
    requires Revotes(nv.prePrepares) == {c} && nv.view == 2
    requires var t := ProcessNewView(s, nv);
             t == s.(mode := Normal, view := 2, viewChanges := t.viewChanges, signed := s.signed + {c}, sent := t.sent)
    ensures Enabled(s, OnNewView(nv)) && Revoted(s, OnNewView(nv)) == {c} && !NamesEarlier(s, OnNewView(nv))
    ensures s.signed + Revoted(s, OnNewView(nv)) == {c}
    ensures var t := Next(s, OnNewView(nv));
            t.mode == Normal && t.view == 2 && t.low == 0 && t.high == s.cfg.k - 1 && t.slots == map[] &&
            t.signed == {c} && t.cfg == s.cfg
  {
    hide NewViewAccepted, NewViewReadable, ProcessNewView, Revotes;
    assert c in Revoted(s, OnNewView(nv));
  }

  lemma Offered(t: State, p: PrePrepareRequest)
    requires t.mode == Normal && t.view == 2 && t.low == 0 && 0 <= t.high && p.r.sig.signer == LeaderOf(t.cfg, 2)
    requires p.m.sig.valid && p.r.data == Context(2, 0, TransferDigest(p.m.data))
    ensures PrePrepareOffered(t, p)
  {
    hide LeaderOf;
  }

  lemma SecondStep(t: State, p: PrePrepareRequest)
    ensures Enabled(t, OnPrePrepare(p)) && Next(t, OnPrePrepare(p)) == ProcessPrePrepare(t, p)
    ensures Revoted(t, OnPrePrepare(p)) == {}
  {
    hide ProcessPrePrepare;
  }

  /** A NEW-VIEW for view 2 that announces c and nothing else. */
  function Reopening(s: State, c: Context): NewViewReq {
    var vc := ViewChangeReq(ViewChangeData(2, CheckpointData(-1, Blank), [], []), Signature(0, true));
    NewViewReq(2, seq(2 * s.cfg.f + 1, i => vc), [Request(c, SignatureVec(0, {}))], Signature(0, true))
  }

  lemma Reopened(s: State, nv: NewViewReq, c: Context)
    requires s.view < 2 && nv == Reopening(s, c)
    ensures NewViewAccepted(s, nv) && NewViewReadable(s, nv) && Revotes(nv.prePrepares) == {c}
    ensures var t := ProcessNewView(s, nv);
            t == s.(mode := Normal, view := 2, viewChanges := t.viewChanges, signed := s.signed + {c}, sent := t.sent)
  {
    var vc := nv.vproofs[0];
    CopiesValid(s.cfg, vc, 2 * s.cfg.f + 1);
    CopiesEmpty(vc, 2 * s.cfg.f + 1);
    assert BigO(s.cfg, nv.vproofs) == [];
    assert nv.prePrepares[0] in nv.prePrepares;
    assert s.signed + {} + {c} == s.signed + {c};
  }

  lemma Contradicted(s: State, p: PrePrepareRequest, c: Context)
    requires PrePrepareOffered(s, p) && p.r.data.seqNum !in s.slots && c in s.signed
    requires c != NOP && p.r.data != NOP && c.view == p.r.data.view && c.seqNum == p.r.data.seqNum &&
             c.digest != p.r.data.digest
    ensures !OneVotePerSlot(ProcessPrePrepare(s, p).signed)
  {
    hide PrePrepareOffered, Opened, Sign;
    assert c in ProcessPrePrepare(s, p).signed && p.r.data in ProcessPrePrepare(s, p).signed;
  }

  /** The unchecked own signature is sound, in every run: when a certificate counts for a slot, this replica has
      really signed the certified context, so an entry bearing its own id stands for a vote it cast. */
  lemma OwnSignatureSound(cfg: Config, s: State, p: ProofRequest)
    requires Correct(cfg) && Reached(cfg, s)
    requires ProofOffered(s, p, {PrePrepared, Prepared}) && Matches(s.slots[p.data.seqNum], p.data)
    ensures p.data in s.signed
  {
    hide Run, Init, WindowInv, SlotsVoted;
    var es :| Run(Init(cfg), es) == Some(s);
    SlotsAlways(cfg, es);
    SlotVoted(s, p.data.seqNum);
    assert p.data == s.slots[p.data.seqNum].prePrepare.data;
  }
}
