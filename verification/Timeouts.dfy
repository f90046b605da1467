/** View-change timers, over every run: what a replica waits for, exactly when a timer makes it ask for a new view, and
    what it does until that view starts. */
module Timeouts {
  import opened Messages
  import opened ReplicaState
  import opened Change
  import opened Window
  import opened Voting
  import opened IndexTable
  import opened Retries

  // ---- Timers ----

  /** The view is later than the present one, or, once the replica has asked for a view, than the one it last asked
      for. */
  predicate Above(s: State, view: int) {
    if s.mode == Normal then s.view < view else s.lastProposedView < view
  }

  /** From s to t the replica did nothing but ask for that view and leave normal mode. */
  ghost predicate Asked(s: State, t: State, view: int) {
    t.mode == ViewChange && t.lastProposedView == view && AsksIn(s, t, view) &&
    t == s.(mode := ViewChange, lastProposedView := view, sent := t.sent)
  }

  /** One message was sent: the replica's own signed request for that view. */
  ghost predicate AsksIn(s: State, t: State, view: int) {
    exists vc: ViewChangeReq ::
      vc.data.view == view && vc.sig == Signature(s.cfg.id, true) && t.sent == s.sent + [SendViewChange(vc)]
  }

  lemma TriggerAsks(s: State, view: int)
    ensures Asked(s, TriggerViewChange(s, view), view)
  {
    hide PreparedProofs;
    assert Compose(s, view).data.view == view;
  }

  /** The timer of a request, exactly: whatever state the replica is in, it asks for the timer's view if and only if
      that view is still to come, the request is still awaited, and the replica does not lead the present view.
      Otherwise the timer changes nothing. */
  lemma DigestTimerExactly(s: State, d: Digest, view: int)
    ensures var t := Next(s, OnDigestTimer(d, view));
            if Above(s, view) && d in s.awaited && s.cfg.id != s.view % (3 * s.cfg.f + 1) then Asked(s, t, view)
            else t == s
  {
    hide Compose, Asked;
    TriggerAsks(s, view);
  }

  lemma SlotTimerStep(s: State, n: int, view: int)
    requires Enabled(s, OnSlotTimer(n, view)) && (n in s.slots && s.slots[n].status == Executed ==> n <= s.lastExecuted)
    ensures var t := Next(s, OnSlotTimer(n, view));
            if Above(s, view) && s.lastExecuted < n then Asked(s, t, view) else t == s
  {
    hide Compose, Asked;
    TriggerAsks(s, view);
  }

  lemma SlotExecuted(s: State, n: int)
    requires SlotsVoted(s) && n in s.slots && s.slots[n].status == Executed
    ensures n <= s.lastExecuted
  {
  }

  /** The timer of a slot, exactly, at every moment of every run: it asks for the timer's view if and only if that
      view is still to come and execution has not reached the slot. Otherwise it changes nothing. */
  lemma SlotTimerExactly(cfg: Config, s: State, n: int, view: int)
    requires Correct(cfg) && Reached(cfg, s) && Enabled(s, OnSlotTimer(n, view))
    ensures var t := Next(s, OnSlotTimer(n, view));
            if Above(s, view) && s.lastExecuted < n then Asked(s, t, view) else t == s
  {
    hide Run, Init, SlotsVoted, Next, Enabled, Asked;
    var es :| Run(Init(cfg), es) == Some(s);
    SlotsAlways(cfg, es);
    if n in s.slots && s.slots[n].status == Executed {
      SlotExecuted(s, n);
    }
    SlotTimerStep(s, n, view);
  }

  /** The timer of a requested view, exactly: it only lets a replica that has asked for an earlier view forget that
      request in favour of the timer's view, and asks for nothing itself. */
  lemma ViewTimerExactly(s: State, view: int)
    ensures Next(s, OnViewTimer(view)) ==
            if s.mode == ViewChange && s.lastProposedView < view then s.(lastProposedView := view) else s
  {
  }

  /** A timer that fires twice for one view asks once. */
  lemma AsksOnce(s: State, e: Event)
    requires (e.OnDigestTimer? || e.OnSlotTimer?) && Enabled(s, e) && Enabled(Next(s, e), e)
    ensures Next(Next(s, e), e) == Next(s, e)
  {
    hide Compose;
  }

  // ---- What is awaited ----

  /** A request from a client that this replica passes to the leader: it is valid, the replica is in normal mode, does
      not lead, and cannot answer from its table. */
  predicate Forwards(s: State, e: Event) {
    e.OnTransfer? && s.mode == Normal && e.m.sig.valid && s.cfg.id != s.view % (3 * s.cfg.f + 1) && !Answers(s, e.m)
  }

  /** A pre-prepare of the present leader for the digest, in the window and with the client's valid signature. */
  predicate Proposed(s: State, e: Event, d: Digest) {
    e.OnPrePrepare? && s.mode == Normal && e.p.r.sig.signer == s.view % (3 * s.cfg.f + 1) && e.p.m.sig.valid &&
    e.p.r.data.view == s.view && s.low <= e.p.r.data.seqNum <= s.high && e.p.r.data.digest == d &&
    d == TransferDigest(e.p.m.data)
  }

  /** A request is forwarded to the leader of the present view, unchanged, and then awaited; nothing else changes. */
  lemma ForwardsToLeader(s: State, e: Event)
    requires Forwards(s, e)
    ensures Next(s, e) == s.(sent := s.sent + [ForwardTransfer(s.view % (3 * s.cfg.f + 1), e.m)],
                             awaited := s.awaited + {TransferDigest(e.m.data)})
  {
  }

  lemma TransferAwaits(s: State, m: Message, d: Digest)
    ensures d in ProcessTransfer(s, m).awaited <==>
            d in s.awaited || (Forwards(s, OnTransfer(m)) && TransferDigest(m.data) == d)
  {
    hide Propose, Repropose, Inherited, Forwards, NotifyClient, ProcessTransfer;
    if Forwards(s, OnTransfer(m)) {
      ForwardsToLeader(s, OnTransfer(m));
    } else {
      LeadsAwaits(s, m);
    }
  }

  lemma LeadsAwaits(s: State, m: Message)
    requires !Forwards(s, OnTransfer(m))
    ensures ProcessTransfer(s, m).awaited == s.awaited
  {
    hide Propose, Repropose, Inherited, NotifyClient;
    ProposeAwaits(s, m);
    ReplyAwaits(s, m);
  }

  lemma ProposeAwaits(s: State, m: Message)
    ensures Propose(s, m).awaited == s.awaited
    ensures forall n | n in s.slots :: Repropose(s, m, n).awaited == s.awaited
  {
    hide Proposal, Reproposed;
  }

  lemma ReplyAwaits(s: State, m: Message)
    ensures forall ack :: NotifyClient(s, m.sig.signer, m.data, ack).awaited == s.awaited
  {
  }

  lemma PrePrepareAwaits(s: State, p: PrePrepareRequest, d: Digest)
    ensures d in ProcessPrePrepare(s, p).awaited <==> d in s.awaited && !Proposed(s, OnPrePrepare(p), d)
  {
    hide Opened, SlotTaken, Sign, PrePrepareOffered, Proposed, Put, ProcessPrePrepare;
    OfferedIs(s, p, d);
    OfferedAwaits(s, p);
  }

  lemma OfferedIs(s: State, p: PrePrepareRequest, d: Digest)
    ensures Proposed(s, OnPrePrepare(p), d) <==> PrePrepareOffered(s, p) && p.r.data.digest == d
  {
  }

  lemma OfferedAwaits(s: State, p: PrePrepareRequest)
    ensures ProcessPrePrepare(s, p).awaited ==
            if PrePrepareOffered(s, p) then s.awaited - {p.r.data.digest} else s.awaited
  {
    hide Opened, SlotTaken, Sign, PrePrepareOffered, Put, Emit;
    if PrePrepareOffered(s, p) && !SlotTaken(s, p.r.data) {
      var data := p.r.data;
      var s1 := Put(s, data.seqNum, Opened(s, p)).(
        awaited := s.awaited - {data.digest}, current := Max(data.seqNum, s.current),
        index := s.index[data.digest := data.seqNum], signed := s.signed + {data});
      EmitAwaits(s1, SendPrePrepareOk(p.r.sig.signer, Sign(s.cfg, data)));
    }
  }

  lemma EmitAwaits(s: State, o: Output)
    ensures Emit(s, o).awaited == s.awaited
  {
  }

  lemma AckAwaits(s: State, r: Request)
    requires AckOffered(s, r) ==> Present(s, r.data.seqNum)
    ensures ProcessPrePrepareOk(s, r).awaited == s.awaited && ProcessPrepareOk(s, r).awaited == s.awaited
  {
    hide AckOffered, AckMatches, WithPrepareOk, WithPrePrepareOk, CommitProof, ExecutePending;
    if AckOffered(s, r) {
      var n := r.data.seqNum;
      ExecutePendingRan(Put(s, n, WithPrepareOk(s.cfg, s.slots[n], r)));
    }
  }

  lemma CertificateAwaits(s: State, p: ProofRequest)
    ensures ProcessPrepare(s, p).awaited == s.awaited && ProcessCommit(s, p).awaited == s.awaited
  {
    hide ProofOffered, WithPrepares, WithCommits, ExecutePending, Sign, LeaderOf;
    if ProofOffered(s, p, {PrePrepared, Prepared}) {
      assert p.data.seqNum in s.slots by { OfferedSlot(s, p); }
      ExecutePendingRan(Put(s, p.data.seqNum, WithCommits(s.cfg, s.slots[p.data.seqNum], p)));
    }
    if ProofOffered(s, p, {PrePrepared}) {
      assert p.data.seqNum in s.slots by { OfferedSlot(s, p); }
    }
  }

  lemma OfferedSlot(s: State, p: ProofRequest)
    requires ProofOffered(s, p, {PrePrepared}) || ProofOffered(s, p, {PrePrepared, Prepared})
    ensures p.data.seqNum in s.slots
  {
  }

  lemma OptimisticAwaits(s: State, n: int)
    requires s.mode == Normal ==> Present(s, n)
    ensures OptimisticTimer(s, n).awaited == s.awaited
  {
    hide WithOwnCommit, PrepareProofOf, AllPrepared, ExecutePending;
    if s.mode == Normal {
      var e := s.slots[n];
      var s1 := Put(s, n, WithOwnCommit(s.cfg, e)).(
        armed := s.armed - multiset{n}, signed := s.signed + {e.prePrepare.data});
      ExecutePendingRan(Emit(s1, SendCommit(PrepareProofOf(s.cfg, e))));
    }
  }

  lemma ViewChangeAwaits(s: State, vc: ViewChangeReq)
    ensures ProcessViewChange(s, vc).awaited == s.awaited
  {
    hide VerifyViewChange, LeaderOf, Received, StartView, TriggerViewChange;
    var s1 := s.(viewChanges := s.viewChanges[vc.data.view := Received(s, vc)]);
    AskedAwaits(s1, vc.data.view);
    StartAwaits(s1, vc.data.view, Received(s, vc));
  }

  lemma StartAwaits(s: State, view: int, msgs: map<int, ViewChangeReq>)
    ensures StartView(s, view, msgs).awaited == s.awaited
  {
    hide Compose, NewViewOf, SignedBySelection;
  }

  lemma NewViewAwaits(s: State, nv: NewViewReq)
    requires NewViewReadable(s, nv)
    ensures ProcessNewView(s, nv).awaited == s.awaited
  {
    hide BigO, SignedBySelection, NewViewOffered, NewViewAccepted, NewViewReadable, Revotes, RevoteOuts, BySender;
  }

  lemma TimerAwaits(s: State, e: Event)
    requires Enabled(s, e) && (e.OnDigestTimer? || e.OnSlotTimer? || e.OnViewTimer?)
    ensures Next(s, e).awaited == s.awaited
  {
    hide TriggerViewChange, Settled, IsLeader;
    AskedAwaits(s, e.view);
  }

  lemma AskedAwaits(s: State, view: int)
    ensures TriggerViewChange(s, view).awaited == s.awaited
  {
    hide Compose;
  }

  lemma NextAwaits(s: State, e: Event, d: Digest)
    requires Enabled(s, e)
    ensures d in Next(s, e).awaited <==>
            (Forwards(s, e) && TransferDigest(e.m.data) == d) || (d in s.awaited && !Proposed(s, e, d))
  {
    hide Forwards, Proposed, ProcessTransfer, ProcessPrePrepare, ProcessPrePrepareOk, ProcessPrepare, ProcessPrepareOk,
         ProcessCommit, ProcessViewChange, ProcessNewView, ProcessCheckpoint, OptimisticTimer;
    NotBoth(s, e, d);
    match e
    case OnTransfer(m) => TransferAwaits(s, m, d);
    case OnPrePrepare(p) => PrePrepareAwaits(s, p, d);
    case OnPrePrepareOk(r) => AckAwaits(s, r);
    case OnPrepare(p) => CertificateAwaits(s, p);
    case OnPrepareOk(r) => AckAwaits(s, r);
    case OnCommit(p) => CertificateAwaits(s, p);
    case OnViewChange(vc) => ViewChangeAwaits(s, vc);
    case OnNewView(nv) => NewViewAwaits(s, nv);
    case OnCheckpoint(c) => CheckpointFields(s, c);
    case OnOptimisticTimer(n) => OptimisticAwaits(s, n);
    case _ => TimerAwaits(s, e);
  }

  lemma NotBoth(s: State, e: Event, d: Digest)
    ensures Forwards(s, e) ==> e.OnTransfer?
    ensures Proposed(s, e, d) ==> e.OnPrePrepare?
  {
  }

  /** Along the run the replica forwarded a request with that digest, and no leader has proposed it since. */
  ghost predicate Waits(s: State, es: seq<Event>, d: Digest)
    requires Run(s, es).Some?
  {
    es != [] &&
    var before, e := Run(s, es[..|es| - 1]).value, es[|es| - 1];
    (Forwards(before, e) && TransferDigest(e.m.data) == d) || (Waits(s, es[..|es| - 1], d) && !Proposed(before, e, d))
  }

  /** Over every run: a digest is awaited exactly when a request with it was forwarded and no leader of the view of the
      moment has proposed it since. */
  lemma {:induction false} AwaitedExactly(cfg: Config, es: seq<Event>, d: Digest)
    requires Run(Init(cfg), es).Some?
    ensures d in Run(Init(cfg), es).value.awaited <==> Waits(Init(cfg), es, d)
  {
    if es != [] {
      hide Next, Enabled, Forwards, Proposed;
      AwaitedExactly(cfg, es[..|es| - 1], d);
      NextAwaits(Run(Init(cfg), es[..|es| - 1]).value, es[|es| - 1], d);
    }
  }

  /** So a dead leader is asked away: a backup that forwarded a request its leader never proposed asks for the next view
      when the request's timer fires. */
  lemma SilentLeaderReplaced(cfg: Config, es: seq<Event>, d: Digest, view: int)
    requires Run(Init(cfg), es).Some? && Waits(Init(cfg), es, d)
    requires var s := Run(Init(cfg), es).value;
             s.mode == Normal && s.view < view && s.cfg.id != s.view % (3 * s.cfg.f + 1)
    ensures var s := Run(Init(cfg), es).value;
            Asked(s, Next(s, OnDigestTimer(d, view)), view)
  {
    hide Run, Init, Next, Asked, Waits;
    AwaitedExactly(cfg, es, d);
    DigestTimerExactly(Run(Init(cfg), es).value, d, view);
  }
}
