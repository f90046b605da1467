/** What a slow-path commit leaves behind for the view change, with a correct leader, typed channels and no
    repeated pre-prepares.

    A commit vote of the second phase is sent only for a slot that is prepared with 2f stored prepares;
    from then on the voter keeps the slot prepared or checkpoints it, and every view change it sends
    carries it. A slow-path commit has f + 1 correct voters, so any 2f + 1 view changes carry it. */
module Survival {
  import opened Messages
  import opened Accounts
  import opened Quorum
  import opened ReplicaState
  import opened Change
  import opened Window
  import opened ExecutionFold
  import opened Voting
  import opened OneView
  import opened Agreement
  import opened ViewChanges
  import opened IndexTable
  import CheckpointText
  import Selection

  // ---- One replica ----

  /** The context an output votes to commit: a backup's PREPARE_OK, or the leader's call for that phase. */
  function OutVote(o: Output): Option<Context> {
    match o
    case SendPrepareOk(_, r) => Some(r.data)
    case SendPrepare(proof) => Some(proof.data)
    case _ => None
  }

  /** The contexts the replica has voted to commit. */
  function CastBy(s: State): set<Context> {
    set o | o in s.sent && OutVote(o).Some? :: OutVote(o).value
  }

  predicate Full(f: nat, e: Entry) {
    AtLeastPrepared(e) && |e.prepares| >= 2 * f
  }

  /** The slot of c is checkpointed, or holds c prepared with 2f stored prepares. */
  predicate Holds(s: State, c: Context) {
    c.seqNum < s.low ||
    (c.seqNum in s.slots && s.slots[c.seqNum].prePrepare.data == c && Full(s.cfg.f, s.slots[c.seqNum]))
  }

  /** A view change accounts for c: its checkpoint covers the slot, or it proves c with 2f matching prepares. */
  ghost predicate Carries(f: nat, vc: ViewChangeReq, c: Context) {
    c.seqNum <= vc.data.lastCheckpoint.seqNum ||
    exists p :: p in vc.data.pproofs && Proves(f, p, c)
  }

  ghost predicate Proves(f: nat, p: PrepareProof, c: Context) {
    p.prePrepare.data == c && |p.prepares| >= 2 * f && forall r | r in p.prepares :: r.data.digest == c.digest
  }

  ghost predicate HeldInv(s: State) {
    (forall o | o in s.sent && OutVote(o).Some? :: Holds(s, OutVote(o).value) && OutVote(o).value in s.signed) &&
    (forall n | n in s.armed :: n < s.low || (n in s.slots && Full(s.cfg.f, s.slots[n]))) &&
    (forall vc | SendViewChange(vc) in s.sent ::
       s.mode == ViewChange && forall o | o in s.sent && OutVote(o).Some? :: Carries(s.cfg.f, vc, OutVote(o).value))
  }

  ghost predicate HeldGood(s: State, c: Change) {
    c.view == s.view && (s.mode == ViewChange ==> c.mode == ViewChange) &&
    (c.write.Some? && c.write.value.n in s.slots ==>
       c.write.value.e.prePrepare.data == s.slots[c.write.value.n].prePrepare.data &&
       (Full(s.cfg.f, s.slots[c.write.value.n]) ==> Full(s.cfg.f, c.write.value.e))) &&
    (forall n | n in c.armed :: n in s.armed || (n in SlotsAfter(s, c) && Full(s.cfg.f, SlotsAfter(s, c)[n]))) &&
    (forall o | o in c.outs && OutVote(o).Some? ::
       var x := OutVote(o).value;
       s.mode == Normal && x in c.signs && x.seqNum in SlotsAfter(s, c) &&
       SlotsAfter(s, c)[x.seqNum].prePrepare.data == x && Full(s.cfg.f, SlotsAfter(s, c)[x.seqNum])) &&
    (forall vc | SendViewChange(vc) in c.outs ::
       c.mode == ViewChange && c.write.None? && |c.outs| == 1 && exists view :: vc == Compose(s, view))
  }

  /** A view change composed now accounts for everything the replica holds. */
  lemma ComposeCarries(s: State, V: Votes, ok: Message -> bool, view: int, c: Context)
    requires Ready(s, V, ok) && Holds(s, c)
    ensures Carries(s.cfg.f, Compose(s, view), c)
  {
    hide Ready, SortedValues, EntryOk, Proves, Compose, AtLeastPrepared;
    LowIs(s, V, ok);
    assert Compose(s, view).data.lastCheckpoint.seqNum == s.stableSeq by { ComposeStable(s, view); }
    if s.low <= c.seqNum {
      var n, e := c.seqNum, s.slots[c.seqNum];
      SlotFacts(s, V, ok, n);
      PreparedIn(s, V, ok, view, n);
      ValuesCarryDigest(s.cfg, s.view, V, ok, n, e);
      ProvesAre(s.cfg.f, e, c);
    }
  }

  lemma ComposeStable(s: State, view: int)
    ensures Compose(s, view).data.lastCheckpoint == CheckpointData(s.stableSeq, s.stableDigest)
  {
    hide SortedValues, PreparedProofs;
  }

  /** A prepared slot of the log is in every view change composed now. */
  lemma PreparedIn(s: State, V: Votes, ok: Message -> bool, view: int, n: int)
    requires Ready(s, V, ok) && n in s.slots && s.low <= n && AtLeastPrepared(s.slots[n])
    ensures PrepareProof(s.slots[n].prePrepare, SortedValues(s.slots[n].prepares)) in Compose(s, view).data.pproofs
  {
    hide Ready, SortedValues, PreparedProofs;
    LogRange(s, V, ok, n);
    PreparedProofsAre(s, s.stableSeq + 1, s.low + s.cfg.k,
                      PrepareProof(s.slots[n].prePrepare, SortedValues(s.slots[n].prepares)));
  }

  lemma ProvesAre(f: nat, e: Entry, c: Context)
    requires e.prePrepare.data == c && |SortedValues(e.prepares)| >= 2 * f
    requires forall r | r in SortedValues(e.prepares) :: r.data.digest == c.digest
    ensures Proves(f, PrepareProof(e.prePrepare, SortedValues(e.prepares)), c)
  {
    hide SortedValues;
  }

  lemma ValuesCarryDigest(cfg: Config, view: int, V: Votes, ok: Message -> bool, n: int, e: Entry)
    requires EntryOk(cfg, view, V, ok, n, e)
    ensures |SortedValues(e.prepares)| == |e.prepares|
    ensures forall r | r in SortedValues(e.prepares) :: r.data.digest == e.prePrepare.data.digest
  {
    hide Everyone, LeaderOf;
    forall r | r in SortedValues(e.prepares)
      ensures r.data.digest == e.prePrepare.data.digest
    {
      var k :| k in e.prepares && e.prepares[k] == r;
    }
  }

  lemma MadeKeepsHeld(s: State, V: Votes, ok: Message -> bool, c: Change, mid: State)
    requires Ready(s, V, ok) && HeldInv(s) && Made(s, c, mid) && HeldGood(s, c)
    ensures HeldInv(mid)
  {
    hide Ready, Full, Carries, Compose;
    forall o | o in mid.sent && OutVote(o).Some?
      ensures Holds(mid, OutVote(o).value) && OutVote(o).value in mid.signed
    {
      assert o in s.sent || o in c.outs;
    }
    forall vc, o | SendViewChange(vc) in mid.sent && o in mid.sent && OutVote(o).Some?
      ensures Carries(s.cfg.f, vc, OutVote(o).value)
    {
      assert o in s.sent || o in c.outs;
      if SendViewChange(vc) in c.outs {
        assert c.outs == [SendViewChange(vc)];
        assert o in s.sent;
        var view :| vc == Compose(s, view);
        ComposeCarries(s, V, ok, view, OutVote(o).value);
      } else {
        assert SendViewChange(vc) in s.sent;
      }
    }
  }

  /** A pre-prepare is delivered only for a slot that is still empty. */
  predicate Unrepeated(s: State, e: Event) {
    e.OnPrePrepare? ==> e.p.r.data.seqNum !in s.slots
  }

  /** A change without commit votes or view changes that keeps its slot is good. */
  lemma QuietHeld(s: State, c: Change)
    requires c.view == s.view && c.mode == s.mode && c.armed <= s.armed
    requires forall o | o in c.outs :: OutVote(o).None? && !o.SendViewChange?
    requires c.write.Some? && c.write.value.n in s.slots ==>
               c.write.value.e.prePrepare.data == s.slots[c.write.value.n].prePrepare.data &&
               (Full(s.cfg.f, s.slots[c.write.value.n]) ==> Full(s.cfg.f, c.write.value.e))
    ensures HeldGood(s, c)
  {
    hide Full;
  }

  lemma TransferHeld(s: State, V: Votes, ok: Message -> bool, m: Message)
    requires Ready(s, V, ok)
    ensures HeldGood(s, TransferChange(s, m))
  {
    hide Ready, HeldGood, IsLeader, LeaderOf, Reproposed, Proposal, ProposedEntry;
    if Known(s, m.data) {
      SlotFacts(s, V, ok, s.index[TransferDigest(m.data)]);
      NotInherited(s, V, ok, s.index[TransferDigest(m.data)]);
    }
    CurrentFresh(s, V, ok);
    QuietHeld(s, TransferChange(s, m));
  }

  lemma NotInherited(s: State, V: Votes, ok: Message -> bool, n: int)
    requires Ready(s, V, ok) && n in s.slots
    ensures !Inherited(s, s.slots[n])
  {
    hide Ready, LeaderOf, ProofsOk;
    SlotFacts(s, V, ok, n);
  }

  lemma CurrentFresh(s: State, V: Votes, ok: Message -> bool)
    requires Ready(s, V, ok)
    ensures s.current + 1 !in s.slots
  {
    hide VoteInv, OneViewInv;
  }

  lemma PrePrepareHeld(s: State, p: PrePrepareRequest)
    requires Unrepeated(s, OnPrePrepare(p))
    ensures HeldGood(s, PrePrepareChange(s, p))
  {
    hide HeldGood, PrePrepareOffered, SlotTaken, Opened, Sign;
    QuietHeld(s, PrePrepareChange(s, p));
  }

  lemma AckHeld(s: State, r: Request)
    ensures HeldGood(s, PrePrepareOkChange(s, r)) && HeldGood(s, PrepareOkChange(s, r))
  {
    hide AckOffered, AckMatches;
    if Counted(s, r) {
      MapGrows(s.slots[r.data.seqNum].prepares, r.sig.signer, r);
    }
  }

  lemma {:induction false} AddProofsGrows(me: int, data: Context, sigs: seq<SignatureVec>, proofs: map<int, Request>)
    ensures |proofs| <= |AddProofs(me, data, sigs, proofs)|
  {
    if sigs != [] {
      AddProofsGrows(me, data, sigs[..|sigs| - 1], proofs);
      MapGrows(AddProofs(me, data, sigs[..|sigs| - 1], proofs), sigs[|sigs| - 1].signer,
               Request(data, sigs[|sigs| - 1]));
    }
  }

  lemma PrepareHeld(s: State, V: Votes, ok: Message -> bool, p: ProofRequest)
    requires Ready(s, V, ok)
    ensures HeldGood(s, PrepareChange(s, p))
  {
    hide Ready, HeldGood, LeaderOf, WithPrepares, Everyone, EntryOk;
    if ProofOffered(s, p, {PrePrepared}) {
      var n, e := p.data.seqNum, WithPrepares(s.cfg, s.slots[p.data.seqNum], p);
      SlotFacts(s, V, ok, n);
      SlotData(s, V, ok, n);
      PreparesAre(s.cfg, s.slots[n], p);
      if e.status == Prepared {
        VoteHeld(s, n, e, SendPrepareOk(LeaderOf(s.cfg, s.view), Sign(s.cfg, p.data)), s.armed);
      } else {
        QuietHeld(s, PrepareChange(s, p));
      }
    } else {
      QuietHeld(s, PrepareChange(s, p));
    }
  }

  /** A certificate raises a waiting slot only if it names the slot's own context. */
  lemma PreparesAre(cfg: Config, e: Entry, p: ProofRequest)
    requires e.status == PrePrepared && |e.prepares| < 2 * cfg.f
    ensures var e' := WithPrepares(cfg, e, p);
            e'.prePrepare == e.prePrepare && !Full(cfg.f, e) &&
            (e'.status == Prepared ==> Full(cfg.f, e') && Matches(e, p.data))
  {
    hide AddProofs;
  }

  /** A commit vote for a full slot, on the slot's own context. */
  lemma VoteHeld(s: State, n: int, e: Entry, o: Output, armed: multiset<int>)
    requires n in s.slots && e.prePrepare.data == s.slots[n].prePrepare.data && e.prePrepare.data.seqNum == n
    requires Full(s.cfg.f, e) && s.mode == Normal && armed <= s.armed
    requires (OutVote(o).Some? ==> OutVote(o).value == e.prePrepare.data) && !o.SendViewChange?
    ensures HeldGood(s,
                     Same(s).(write := Some(Written(n, e)), signs := {e.prePrepare.data}, outs := [o], armed := armed))
  {
    hide Full;
  }

  lemma SlotData(s: State, V: Votes, ok: Message -> bool, n: int)
    requires Ready(s, V, ok) && n in s.slots
    ensures s.slots[n].prePrepare.data.seqNum == n && s.slots[n].prePrepare.data.view == s.view
  {
    hide Ready, ProofsOk;
    SlotFacts(s, V, ok, n);
  }

  lemma CommitHeld(s: State, p: ProofRequest)
    ensures HeldGood(s, CommitChange(s, p))
  {
    hide HeldGood, AddProofs;
    QuietHeld(s, CommitChange(s, p));
  }

  lemma TimerHeld(s: State, V: Votes, ok: Message -> bool, n: int)
    requires Ready(s, V, ok) && HeldInv(s) && Enabled(s, OnOptimisticTimer(n))
    ensures HeldGood(s, OptimisticTimerChange(s, n))
  {
    hide Ready, HeldGood, Sign, SortedValues, Carries, WithOwnCommit;
    if s.mode == Normal {
      var e := WithOwnCommit(s.cfg, s.slots[n]);
      SlotData(s, V, ok, n);
      assert Full(s.cfg.f, s.slots[n]) by { ArmedFull(s, n); }
      OwnCommitFull(s.cfg, s.slots[n]);
      VoteHeld(s, n, e, OptimisticTimerChange(s, n).outs[0], s.armed - multiset{n});
    } else {
      QuietHeld(s, OptimisticTimerChange(s, n));
    }
  }

  lemma ArmedFull(s: State, n: int)
    requires HeldInv(s) && n in s.armed && s.low <= n
    ensures n in s.slots && Full(s.cfg.f, s.slots[n])
  {
    hide Full, Carries;
  }

  lemma OwnCommitFull(cfg: Config, e: Entry)
    requires Full(cfg.f, e)
    ensures Full(cfg.f, WithOwnCommit(cfg, e)) && WithOwnCommit(cfg, e).prePrepare == e.prePrepare
  {
    hide Sign;
  }

  lemma ViewHeld(s: State, e: Event)
    requires e.OnViewChange? || e.OnNewView? || e.OnDigestTimer? || e.OnSlotTimer? || e.OnViewTimer?
    requires ChangeOf(s, e).view == s.view
    ensures HeldGood(s, ChangeOf(s, e))
  {
    hide HeldGood, ViewChangeChange, NewViewChange, Same, TriggerChange, Settled, IsLeader;
    match e
    case OnViewChange(vc) => ViewChangeHeld(s, vc);
    case OnNewView(nv) => NewViewHeld(s, nv);
    case OnDigestTimer(_, view) => SameHeld(s); TriggersHeld(s, view);
    case OnSlotTimer(_, view) => SameHeld(s); TriggersHeld(s, view);
    case OnViewTimer(_) => SameHeld(s);
  }

  lemma TriggersHeld(s: State, view: int)
    ensures HeldGood(s, TriggerChange(s, view))
  {
    hide HeldGood, TriggerChange;
    TriggerHeld(s, view, s.viewChanges);
    TriggerViews(s, view);
    assert TriggerChange(s, view) == TriggerChange(s, view).(viewChanges := s.viewChanges);
  }

  lemma SameHeld(s: State)
    ensures HeldGood(s, Same(s))
  {
    hide HeldGood;
    QuietHeld(s, Same(s));
  }

  lemma TriggerViews(s: State, view: int)
    ensures TriggerChange(s, view).viewChanges == s.viewChanges
  {
    hide Compose;
  }

  lemma ViewChangeHeld(s: State, vc: ViewChangeReq)
    requires ViewChangeChange(s, vc).view == s.view
    ensures HeldGood(s, ViewChangeChange(s, vc))
  {
    hide HeldGood, VerifyViewChange, LeaderOf, Received, TriggerChange, Started, WithOwnViewChange, Starts;
    SameHeld(s);
    QuietHeld(s, StoreChange(s, vc));
    TriggerHeld(s, vc.data.view, s.viewChanges[vc.data.view := Received(s, vc)]);
  }

  lemma NewViewHeld(s: State, nv: NewViewReq)
    requires NewViewChange(s, nv).view == s.view
    ensures HeldGood(s, NewViewChange(s, nv))
  {
    hide HeldGood, BigO, SignedBySelection, Revotes, RevoteOuts, ValidViewChanges, AgreeUpTo, BySender;
    QuietHeld(s, NewViewChange(s, nv));
  }

  lemma TriggerHeld(s: State, view: int, views: map<int, map<int, ViewChangeReq>>)
    ensures HeldGood(s, TriggerChange(s, view).(viewChanges := views))
  {
    hide Compose, Full;
  }

  lemma ChangeHeld(s: State, V: Votes, ok: Message -> bool, e: Event)
    requires Ready(s, V, ok) && HeldInv(s) && Enabled(s, e) && Unrepeated(s, e) && !e.OnCheckpoint?
    requires ChangeOf(s, e).view == s.view
    ensures HeldGood(s, ChangeOf(s, e))
  {
    hide Ready, HeldInv, HeldGood, TransferChange, PrePrepareChange, PrePrepareOkChange, PrepareChange, PrepareOkChange,
         CommitChange, ViewChangeChange, NewViewChange, OptimisticTimerChange, DigestTimerChange, SlotTimerChange;
    match e
    case OnTransfer(m) => TransferHeld(s, V, ok, m);
    case OnPrePrepare(p) => PrePrepareHeld(s, p);
    case OnPrePrepareOk(r) => AckHeld(s, r);
    case OnPrepare(p) => PrepareHeld(s, V, ok, p);
    case OnPrepareOk(r) => AckHeld(s, r);
    case OnCommit(p) => CommitHeld(s, p);
    case OnOptimisticTimer(n) => TimerHeld(s, V, ok, n);
    case _ => ViewHeld(s, e);
  }

  // ---- Execution and checkpoint messages ----

  /** What execution and checkpoints send: no votes, no proposals, no view changes. */
  predicate Quiet(o: Output) {
    o.Notify? || o.SendCheckpoint? || o.SendCommit?
  }

  /** Execution and checkpoints keep what is held. */
  ghost predicate KeepsHeld(s: State, t: State) {
    t.cfg == s.cfg && s.low <= t.low && t.armed == s.armed && t.mode == s.mode && t.signed == s.signed &&
    t.slots.Keys == s.slots.Keys &&
    (forall n | n in s.slots ::
       t.slots[n].prePrepare == s.slots[n].prePrepare && (Full(s.cfg.f, s.slots[n]) ==> Full(s.cfg.f, t.slots[n]))) &&
    (forall o | o in t.sent :: o in s.sent || Quiet(o))
  }

  lemma KeptTransitive(s: State, t: State, u: State)
    requires KeepsHeld(s, t) && KeepsHeld(t, u)
    ensures KeepsHeld(s, u)
  {
    hide Full, Quiet;
  }

  lemma KeptHeld(s: State, t: State)
    requires HeldInv(s) && KeepsHeld(s, t)
    ensures HeldInv(t)
  {
    hide Full, Carries;
  }

  lemma ExecuteOneHeld(s: State, n: int)
    requires n in s.slots && s.slots[n].status == Committed && s.lastExecuted < n <= s.current
    ensures KeepsHeld(s, ExecuteOne(s, n))
  {
    hide Checkpoint, ExecuteOne, KeepsHeld, Executed1;
    ExecuteOneIs(s, n);
    Executed1Held(s, n);
    KeptReflexive(Executed1(s, n));
    CheckpointHeld(Executed1(s, n));
    KeptTransitive(s, Executed1(s, n), ExecuteOne(s, n));
  }

  lemma Executed1Held(s: State, n: int)
    requires n in s.slots && s.slots[n].status == Committed
    ensures KeepsHeld(s, Executed1(s, n))
  {
    hide Apply;
  }

  lemma KeptReflexive(s: State)
    ensures KeepsHeld(s, s)
  {
    hide Full;
  }

  lemma CheckpointHeld(s: State)
    requires s.balances.Keys != {}
    ensures KeepsHeld(s, Checkpoint(s))
  {
    hide CheckpointText.Text, Full;
  }

  lemma {:induction false} ExecuteFromHeld(s: State, n: int)
    requires s.lastExecuted < n
    ensures KeepsHeld(s, ExecuteFrom(s, n))
    decreases s.current - n
  {
    hide ExecuteOne, KeepsHeld;
    KeptReflexive(s);
    if n <= s.current {
      if n in s.slots && s.slots[n].status == Committed {
        ExecuteOneRan(s, n);
        ExecuteOneHeld(s, n);
        ExecuteFromHeld(ExecuteOne(s, n), n + 1);
        KeptTransitive(s, ExecuteOne(s, n), ExecuteFrom(s, n));
      } else if n !in s.slots || s.slots[n].status == Executed {
        ExecuteFromHeld(s, n + 1);
      }
    }
  }

  lemma FinishedHeld(s: State, e: Event, mid: State, t: State)
    requires Finished(s, e, mid, t)
    ensures KeepsHeld(mid, t)
  {
    hide KeepsHeld, ExecuteFrom, Commits;
    KeptReflexive(mid);
    ExecuteFromHeld(mid, mid.lastExecuted + 1);
    if Commits(s, e) && e.OnPrepareOk? {
      var proof :| t == Emit(ExecutePending(mid), SendCommit(proof));
      EmitHeld(ExecutePending(mid), SendCommit(proof));
      KeptTransitive(mid, ExecutePending(mid), t);
    }
  }

  lemma EmitHeld(s: State, o: Output)
    requires Quiet(o)
    ensures KeepsHeld(s, Emit(s, o))
  {
    hide Full;
  }

  lemma CheckpointMessageHeld(s: State, V: Votes, ok: Message -> bool, c: CheckpointReq)
    requires Ready(s, V, ok)
    ensures KeepsHeld(s, ProcessCheckpoint(s, c))
  {
    hide VoteInv, OneViewInv, WindowInv, ProcessCheckpoint, Full;
    CheckpointFields(s, c);
    LowRises(s, c);
  }

  lemma LowRises(s: State, c: CheckpointReq)
    requires WindowInv(s)
    ensures s.low <= ProcessCheckpoint(s, c).low
  {
    hide RecordCheckpoint, DigestsUpTo;
  }

  lemma NextKeepsHeld(s: State, V: Votes, ok: Message -> bool, e: Event)
    requires Ready(s, V, ok) && HeldInv(s) && Enabled(s, e) && Unrepeated(s, e) && Next(s, e).view == s.view
    ensures HeldInv(Next(s, e))
  {
    hide Ready, HeldInv, ChangeOf, Made, Finished, HeldGood, ProcessTransfer, ProcessPrePrepare, ProcessPrePrepareOk,
         ProcessPrepare, ProcessPrepareOk, ProcessCommit, ProcessViewChange, ProcessNewView, ProcessCheckpoint,
         OptimisticTimer, DigestTimer, SlotTimer, ViewTimer, KeepsHeld;
    if e.OnCheckpoint? {
      CheckpointMessageHeld(s, V, ok, e.c);
      KeptHeld(s, Next(s, e));
    } else {
      var mid := NextMade(s, e);
      FinishedSame(s, e, mid, Next(s, e));
      MadeSame(s, ChangeOf(s, e), mid);
      ChangeHeld(s, V, ok, e);
      MadeKeepsHeld(s, V, ok, ChangeOf(s, e), mid);
      FinishedHeld(s, e, mid, Next(s, e));
      KeptHeld(mid, Next(s, e));
    }
  }
}
