/** What one event changes: at most one entry written, some contexts signed, some messages sent.

    For every event but a checkpoint message, Next applies the event's Change and then, when the event
    commits its slot, runs a pass of execution. The invariants are proved on changes. */
module Change {
  import opened Messages
  import opened ReplicaState

  datatype Written = Written(n: int, e: Entry)

  datatype Change = Change(
    write: Option<Written>,
    signs: set<Context>,
    outs: seq<Output>,
    current: int,
    index: map<Digest, int>,
    view: int,
    mode: Mode,
    armed: multiset<int>,
    viewChanges: map<int, map<int, ViewChangeReq>>)

  function Same(s: State): Change {
    Change(None, {}, [], s.current, s.index, s.view, s.mode, s.armed, s.viewChanges)
  }

  // ---- The change of each event ----

  function ProposedEntry(s: State, m: Message): Entry {
    Entry(m, PrePrepared, false, Proposal(s, m), map[], map[])
  }

  function ProposeChange(s: State, m: Message): Change {
    var n, r := s.current + 1, Proposal(s, m);
    Change(Some(Written(n, ProposedEntry(s, m))), {r.data}, [SendPrePrepare(PrePrepareRequest(r, m))],
           n, s.index[r.data.digest := n], s.view, s.mode, s.armed, s.viewChanges)
  }

  function ReproposeChange(s: State, m: Message, n: int): Change
    requires n in s.slots
  {
    var e := Reproposed(s, s.slots[n]);
    Same(s).(write := Some(Written(n, e)), signs := {e.prePrepare.data},
             outs := [SendPrePrepare(PrePrepareRequest(e.prePrepare, m))])
  }

  function TransferChange(s: State, m: Message): Change {
    var digest := TransferDigest(m.data);
    if s.mode == ViewChange || !m.sig.valid then Same(s)
    else if Known(s, m.data) && s.slots[s.index[digest]].status == Executed then
      Same(s).(outs := [Notify(m.sig.signer,
                               Response(m.data, s.slots[s.index[digest]].result, s.view, Signature(s.cfg.id, true)))])
    else if !IsLeader(s) then Same(s).(outs := [ForwardTransfer(LeaderOf(s.cfg, s.view), m)])
    else if !Known(s, m.data) then ProposeChange(s, m)
    else if Inherited(s, s.slots[s.index[digest]]) then ReproposeChange(s, m, s.index[digest])
    else Same(s)
  }

  function PrePrepareChange(s: State, p: PrePrepareRequest): Change {
    var data := p.r.data;
    if !PrePrepareOffered(s, p) then Same(s)
    else if SlotTaken(s, data) then Same(s).(current := Max(data.seqNum, s.current))
    else
      Change(Some(Written(data.seqNum, Opened(s, p))), {data},
             if s.cfg.byzantine then [] else [SendPrePrepareOk(p.r.sig.signer, Sign(s.cfg, data))],
             Max(data.seqNum, s.current), s.index[data.digest := data.seqNum], s.view, s.mode, s.armed, s.viewChanges)
  }

  /** An acknowledgement that the leader counts. */
  predicate Counted(s: State, r: Request) {
    AckOffered(s, r) && r.data.seqNum in s.slots && AckMatches(s.slots[r.data.seqNum], r)
  }

  function PrePrepareOkChange(s: State, r: Request): Change {
    if !Counted(s, r) then Same(s)
    else
      var n, e := r.data.seqNum, WithPrePrepareOk(s.cfg, s.slots[r.data.seqNum], r);
      Same(s).(write := Some(Written(n, e)),
               armed := if s.slots[n].status == PrePrepared && e.status == Prepared then s.armed + multiset{n}
                        else s.armed)
  }

  function PrepareChange(s: State, p: ProofRequest): Change {
    if !ProofOffered(s, p, {PrePrepared}) then Same(s)
    else
      var e := WithPrepares(s.cfg, s.slots[p.data.seqNum], p);
      if e.status != Prepared then Same(s).(write := Some(Written(p.data.seqNum, e)))
      else
        Same(s).(write := Some(Written(p.data.seqNum, e)), signs := {p.data},
                 outs := [SendPrepareOk(LeaderOf(s.cfg, s.view), Sign(s.cfg, p.data))])
  }

  function PrepareOkChange(s: State, r: Request): Change {
    if !Counted(s, r) then Same(s)
    else Same(s).(write := Some(Written(r.data.seqNum, WithPrepareOk(s.cfg, s.slots[r.data.seqNum], r))))
  }

  function CommitChange(s: State, p: ProofRequest): Change {
    if !ProofOffered(s, p, {PrePrepared, Prepared}) then Same(s)
    else Same(s).(write := Some(Written(p.data.seqNum, WithCommits(s.cfg, s.slots[p.data.seqNum], p))))
  }

  function OptimisticTimerChange(s: State, n: int): Change {
    if s.mode == ViewChange || n !in s.slots then Same(s).(armed := s.armed - multiset{n})
    else
      var e, proof := s.slots[n], PrepareProofOf(s.cfg, s.slots[n]);
      Same(s).(write := Some(Written(n, WithOwnCommit(s.cfg, e))), signs := {e.prePrepare.data},
               outs := [if AllPrepared(s.cfg, e) then SendCommit(proof) else SendPrepare(proof)],
               armed := s.armed - multiset{n})
  }

  function TriggerChange(s: State, view: int): Change {
    Same(s).(outs := [SendViewChange(Compose(s, view))], mode := ViewChange)
  }

  /** A view change that gives the next leader its quorum. */
  predicate Starts(s: State, vc: ViewChangeReq) {
    VerifyViewChange(s.cfg, vc) && s.view < vc.data.view && LeaderOf(s.cfg, vc.data.view) == s.cfg.id &&
    !s.cfg.byzantine && |Received(s, vc)| == 2 * s.cfg.f
  }

  /** The received view changes and the leader's own. */
  function WithOwnViewChange(s: State, vc: ViewChangeReq): map<int, ViewChangeReq> {
    Received(s, vc)[s.cfg.id := Compose(s, vc.data.view)]
  }

  function Started(s: State, vc: ViewChangeReq): NewViewReq {
    NewViewOf(s, vc.data.view, WithOwnViewChange(s, vc))
  }

  function StoreChange(s: State, vc: ViewChangeReq): Change {
    Same(s).(viewChanges := s.viewChanges[vc.data.view := Received(s, vc)])
  }

  function ViewChangeChange(s: State, vc: ViewChangeReq): Change {
    var view := vc.data.view;
    if !VerifyViewChange(s.cfg, vc) || view <= s.view then Same(s)
    else if LeaderOf(s.cfg, view) != s.cfg.id then
      if |Received(s, vc)| == s.cfg.f + 1 && s.mode != ViewChange
      then TriggerChange(s, view).(viewChanges := s.viewChanges[view := Received(s, vc)])
      else StoreChange(s, vc)
    else if !Starts(s, vc) then StoreChange(s, vc)
    else
      Same(s).(signs := SignedBySelection(Started(s, vc).prePrepares), outs := [SendNewView(Started(s, vc))],
               view := view, mode := Normal,
               viewChanges := s.viewChanges[view := Received(s, vc)][view := WithOwnViewChange(s, vc)])
  }

  function NewViewChange(s: State, nv: NewViewReq): Change {
    if !NewViewOffered(s, nv) then Same(s)
    else
      var nops := SignedBySelection(BigO(s.cfg, nv.vproofs));
      if !NewViewAccepted(s, nv) then Same(s).(signs := nops)
      else
        Same(s).(signs := nops + Revotes(nv.prePrepares), outs := RevoteOuts(s.cfg, nv.view, nv.prePrepares),
                 view := nv.view, mode := Normal,
                 viewChanges := s.viewChanges[nv.view := BySender(nv.vproofs)])
  }

  function DigestTimerChange(s: State, digest: Digest, view: int): Change {
    if Settled(s, view) || digest !in s.awaited || IsLeader(s) then Same(s) else TriggerChange(s, view)
  }

  function SlotTimerChange(s: State, n: int, view: int): Change {
    if Settled(s, view) || n <= s.lastExecuted || n !in s.slots || s.slots[n].status == Executed then Same(s)
    else TriggerChange(s, view)
  }

  function ChangeOf(s: State, e: Event): Change
    requires !e.OnCheckpoint?
  {
    match e
    case OnTransfer(m) => TransferChange(s, m)
    case OnPrePrepare(p) => PrePrepareChange(s, p)
    case OnPrePrepareOk(r) => PrePrepareOkChange(s, r)
    case OnPrepare(p) => PrepareChange(s, p)
    case OnPrepareOk(r) => PrepareOkChange(s, r)
    case OnCommit(p) => CommitChange(s, p)
    case OnViewChange(vc) => ViewChangeChange(s, vc)
    case OnNewView(nv) => NewViewChange(s, nv)
    case OnOptimisticTimer(n) => OptimisticTimerChange(s, n)
    case OnDigestTimer(d, view) => DigestTimerChange(s, d, view)
    case OnSlotTimer(n, view) => SlotTimerChange(s, n, view)
    case OnViewTimer(view) => Same(s)
  }

  // ---- Applying a change ----

  function SlotsAfter(s: State, c: Change): map<int, Entry> {
    if c.write.Some? then s.slots[c.write.value.n := c.write.value.e] else s.slots
  }

  /** mid is s with the change applied; only the two fields that view-change timers consult are left open. */
  ghost predicate Made(s: State, c: Change, mid: State) {
    mid == s.(slots := SlotsAfter(s, c), signed := s.signed + c.signs, sent := s.sent + c.outs,
              current := c.current, index := c.index, view := c.view, mode := c.mode,
              armed := c.armed, viewChanges := c.viewChanges,
              awaited := mid.awaited, lastProposedView := mid.lastProposedView)
  }

  /** The event raises its slot to committed, so a pass of execution follows. */
  predicate Commits(s: State, e: Event) {
    match e
    case OnPrepareOk(r) =>
      Counted(s, r) && s.slots[r.data.seqNum].status == Prepared &&
      WithPrepareOk(s.cfg, s.slots[r.data.seqNum], r).status == Committed
    case OnCommit(p) =>
      ProofOffered(s, p, {PrePrepared, Prepared}) && WithCommits(s.cfg, s.slots[p.data.seqNum], p).status == Committed
    case OnOptimisticTimer(n) => s.mode == Normal && n in s.slots && AllPrepared(s.cfg, s.slots[n])
    case _ => false
  }

  /** The rest of the event after its change. */
  ghost predicate Finished(s: State, e: Event, mid: State, t: State) {
    if !Commits(s, e) then t == mid
    else if e.OnPrepareOk? then exists proof :: t == Emit(ExecutePending(mid), SendCommit(proof))
    else t == ExecutePending(mid)
  }

  lemma SameMade(s: State, mid: State)
    requires mid == s.(awaited := mid.awaited, lastProposedView := mid.lastProposedView)
    ensures Made(s, Same(s), mid)
  {
    assert s.signed + {} == s.signed && s.sent + [] == s.sent;
  }

  lemma WriteMade(s: State, n: int, e: Entry, mid: State)
    requires mid == Put(s, n, e).(armed := mid.armed)
    ensures Made(s, Same(s).(write := Some(Written(n, e)), armed := mid.armed), mid)
  {
    assert s.signed + {} == s.signed && s.sent + [] == s.sent;
  }

  lemma OutMade(s: State, o: Output, mid: State)
    requires mid == Emit(s, o).(awaited := mid.awaited)
    ensures Made(s, Same(s).(outs := [o]), mid)
  {
    assert s.signed + {} == s.signed;
  }

  lemma TransferMade(s: State, m: Message)
    ensures Made(s, TransferChange(s, m), ProcessTransfer(s, m))
  {
    hide Made, Same, IsLeader, LeaderOf, Propose, ProposeChange, Repropose, ReproposeChange, Inherited;
    var digest := TransferDigest(m.data);
    if s.mode == ViewChange || !m.sig.valid {
      SameMade(s, s);
    } else if Known(s, m.data) && s.slots[s.index[digest]].status == Executed {
      OutMade(s, Notify(m.sig.signer, Response(m.data, s.slots[s.index[digest]].result, s.view,
                                               Signature(s.cfg.id, true))), ProcessTransfer(s, m));
    } else if !IsLeader(s) {
      OutMade(s, ForwardTransfer(LeaderOf(s.cfg, s.view), m), ProcessTransfer(s, m));
    } else if !Known(s, m.data) {
      ProposeMade(s, m);
    } else {
      ReproposeMade(s, m, s.index[digest]);
      SameMade(s, s);
    }
  }

  lemma ProposeMade(s: State, m: Message)
    ensures Made(s, ProposeChange(s, m), Propose(s, m))
  {
    hide Sign;
  }

  lemma ReproposeMade(s: State, m: Message, n: int)
    requires n in s.slots
    ensures Made(s, ReproposeChange(s, m, n), Repropose(s, m, n))
  {
    hide Sign;
  }

  lemma PrePrepareMade(s: State, p: PrePrepareRequest)
    ensures Made(s, PrePrepareChange(s, p), ProcessPrePrepare(s, p))
  {
    hide PrePrepareOffered, SlotTaken, Opened, Sign, Made;
    var data := p.r.data;
    if !PrePrepareOffered(s, p) {
      SameMade(s, s);
    } else if SlotTaken(s, data) {
      assert Made(s, Same(s).(current := Max(data.seqNum, s.current)),
                  s.(awaited := s.awaited - {data.digest}, current := Max(data.seqNum, s.current))) by {
        TakenMade(s, data);
      }
    } else {
      OpenedMade(s, p);
    }
  }

  lemma TakenMade(s: State, data: Context)
    ensures Made(s, Same(s).(current := Max(data.seqNum, s.current)),
                 s.(awaited := s.awaited - {data.digest}, current := Max(data.seqNum, s.current)))
  {
    assert s.signed + {} == s.signed && s.sent + [] == s.sent;
  }

  lemma OpenedMade(s: State, p: PrePrepareRequest)
    requires PrePrepareOffered(s, p) && !SlotTaken(s, p.r.data)
    ensures Made(s, PrePrepareChange(s, p), ProcessPrePrepare(s, p))
  {
    hide PrePrepareOffered, SlotTaken, Opened, Sign;
    assert s.sent + [] == s.sent;
  }

  lemma PrePrepareOkMade(s: State, r: Request)
    requires Enabled(s, OnPrePrepareOk(r))
    ensures Made(s, PrePrepareOkChange(s, r), ProcessPrePrepareOk(s, r))
  {
    hide AckOffered, AckMatches, WithPrePrepareOk, Made, Same;
    if !Counted(s, r) {
      SameMade(s, s);
    } else {
      WriteMade(s, r.data.seqNum, WithPrePrepareOk(s.cfg, s.slots[r.data.seqNum], r), ProcessPrePrepareOk(s, r));
    }
  }

  lemma PrepareMade(s: State, p: ProofRequest)
    ensures Made(s, PrepareChange(s, p), ProcessPrepare(s, p))
  {
    hide WithPrepares, Sign, LeaderOf, Made;
    if !ProofOffered(s, p, {PrePrepared}) {
      SameMade(s, s);
    } else {
      var e := WithPrepares(s.cfg, s.slots[p.data.seqNum], p);
      if e.status != Prepared {
        WriteMade(s, p.data.seqNum, e, Put(s, p.data.seqNum, e));
      } else {
        VoteMade(s, p.data.seqNum, e, p.data, SendPrepareOk(LeaderOf(s.cfg, s.view), Sign(s.cfg, p.data)));
      }
    }
  }

  lemma VoteMade(s: State, n: int, e: Entry, data: Context, o: Output)
    ensures Made(s, Same(s).(write := Some(Written(n, e)), signs := {data}, outs := [o]),
                 Emit(Put(s, n, e).(signed := s.signed + {data}), o))
  {
  }

  lemma PrepareOkMade(s: State, r: Request) returns (mid: State)
    requires Enabled(s, OnPrepareOk(r))
    ensures Made(s, PrepareOkChange(s, r), mid) && Finished(s, OnPrepareOk(r), mid, ProcessPrepareOk(s, r))
  {
    hide AckOffered, AckMatches, WithPrepareOk, ExecutePending, CommitProof, Made;
    var n := r.data.seqNum;
    if Counted(s, r) {
      mid := Put(s, n, WithPrepareOk(s.cfg, s.slots[n], r));
      WriteMade(s, n, WithPrepareOk(s.cfg, s.slots[n], r), mid);
    } else {
      mid := s;
      SameMade(s, s);
    }
  }

  lemma CommitMade(s: State, p: ProofRequest) returns (mid: State)
    ensures Made(s, CommitChange(s, p), mid) && Finished(s, OnCommit(p), mid, ProcessCommit(s, p))
  {
    hide WithCommits, ExecutePending, Made;
    var n := p.data.seqNum;
    if ProofOffered(s, p, {PrePrepared, Prepared}) {
      mid := Put(s, n, WithCommits(s.cfg, s.slots[n], p));
      WriteMade(s, n, WithCommits(s.cfg, s.slots[n], p), mid);
    } else {
      mid := s;
      SameMade(s, s);
    }
  }

  lemma OptimisticTimerMade(s: State, n: int) returns (mid: State)
    requires Enabled(s, OnOptimisticTimer(n))
    ensures Made(s, OptimisticTimerChange(s, n), mid) && Finished(s, OnOptimisticTimer(n), mid, OptimisticTimer(s, n))
  {
    hide WithOwnCommit, PrepareProofOf, AllPrepared, ExecutePending, Made, Same;
    if s.mode == ViewChange {
      mid := s.(armed := s.armed - multiset{n});
      DisarmMade(s, n);
    } else {
      var e, proof := s.slots[n], PrepareProofOf(s.cfg, s.slots[n]);
      var o := if AllPrepared(s.cfg, e) then SendCommit(proof) else SendPrepare(proof);
      mid := Emit(Put(s, n, WithOwnCommit(s.cfg, e)).(
                    armed := s.armed - multiset{n}, signed := s.signed + {e.prePrepare.data}), o);
      TimerVoteMade(s, n, WithOwnCommit(s.cfg, e), e.prePrepare.data, o, mid);
    }
  }

  lemma DisarmMade(s: State, n: int)
    ensures Made(s, Same(s).(armed := s.armed - multiset{n}), s.(armed := s.armed - multiset{n}))
  {
    assert s.signed + {} == s.signed && s.sent + [] == s.sent;
  }

  lemma TimerVoteMade(s: State, n: int, e: Entry, data: Context, o: Output, mid: State)
    requires mid == Emit(Put(s, n, e).(armed := mid.armed, signed := s.signed + {data}), o)
    ensures Made(s, Same(s).(write := Some(Written(n, e)), signs := {data}, outs := [o], armed := mid.armed), mid)
  {
  }

  /** A view-change request depends on the log and the stable checkpoint only. */
  lemma ComposeSame(s: State, t: State, view: int)
    requires t.cfg == s.cfg && t.slots == s.slots && t.low == s.low
    requires t.stableSeq == s.stableSeq && t.stableDigest == s.stableDigest && t.stableProofs == s.stableProofs
    ensures Compose(t, view) == Compose(s, view)
  {
    PreparedProofsSame(s, t, s.stableSeq + 1, s.low + s.cfg.k);
  }

  lemma {:induction false} PreparedProofsSame(s: State, t: State, from: int, until: int)
    requires t.slots == s.slots
    ensures PreparedProofs(t, from, until) == PreparedProofs(s, from, until)
    decreases until - from
  {
    if from < until {
      PreparedProofsSame(s, t, from, until - 1);
    }
  }

  lemma TriggerMade(s: State, view: int, mid: State)
    requires mid == TriggerViewChange(s, view)
    ensures Made(s, TriggerChange(s, view), mid)
  {
    hide Compose;
    assert s.signed + {} == s.signed;
  }

  lemma ViewChangeMade(s: State, vc: ViewChangeReq)
    ensures Made(s, ViewChangeChange(s, vc), ProcessViewChange(s, vc))
  {
    hide VerifyViewChange, LeaderOf, Received, StartView, TriggerViewChange, TriggerChange, StoreChange, Made, Same,
         Compose, Started, SignedBySelection;
    var view, msgs := vc.data.view, Received(s, vc);
    var s1 := s.(viewChanges := s.viewChanges[view := msgs]);
    if !VerifyViewChange(s.cfg, vc) || view <= s.view {
      SameMade(s, s);
    } else if LeaderOf(s.cfg, view) != s.cfg.id && |msgs| == s.cfg.f + 1 && s.mode != ViewChange {
      TriggerAfterStore(s, s1, view);
    } else if Starts(s, vc) {
      StartMade(s, vc);
    } else {
      StoreMade(s, vc);
    }
  }

  lemma StoreMade(s: State, vc: ViewChangeReq)
    ensures Made(s, StoreChange(s, vc), s.(viewChanges := s.viewChanges[vc.data.view := Received(s, vc)]))
  {
    hide Received;
    assert s.signed + {} == s.signed && s.sent + [] == s.sent;
  }

  lemma TriggerAfterStore(s: State, s1: State, view: int)
    requires s1 == s.(viewChanges := s1.viewChanges)
    ensures Made(s, TriggerChange(s, view).(viewChanges := s1.viewChanges), TriggerViewChange(s1, view))
  {
    hide Compose;
    ComposeSame(s, s1, view);
    assert s.signed + {} == s.signed;
  }

  lemma StartIs(s: State, vc: ViewChangeReq)
    ensures var view, s1 := vc.data.view, s.(viewChanges := s.viewChanges[vc.data.view := Received(s, vc)]);
            StartView(s1, view, Received(s, vc)) ==
              s.(viewChanges := s.viewChanges[view := Received(s, vc)][view := WithOwnViewChange(s, vc)], mode := Normal,
                 view := view, signed := s.signed + SignedBySelection(Started(s, vc).prePrepares),
                 sent := s.sent + [SendNewView(Started(s, vc))])
  {
    hide Received, Compose, SignedBySelection, BigO;
    ComposeSame(s, s.(viewChanges := s.viewChanges[vc.data.view := Received(s, vc)]), vc.data.view);
  }

  lemma StartMade(s: State, vc: ViewChangeReq)
    requires Starts(s, vc)
    ensures var s1 := s.(viewChanges := s.viewChanges[vc.data.view := Received(s, vc)]);
            Made(s, ViewChangeChange(s, vc), StartView(s1, vc.data.view, Received(s, vc)))
  {
    hide VerifyViewChange, LeaderOf, Received, WithOwnViewChange, SignedBySelection, Started, StartView;
    StartIs(s, vc);
  }

  lemma NewViewMade(s: State, nv: NewViewReq)
    requires NewViewReadable(s, nv)
    ensures Made(s, NewViewChange(s, nv), ProcessNewView(s, nv))
  {
    hide BigO, SignedBySelection, Revotes, BySender, RevoteOuts, NewViewOffered, NewViewAccepted, Made;
    var nops := SignedBySelection(BigO(s.cfg, nv.vproofs));
    if !NewViewOffered(s, nv) {
      SameMade(s, s);
    } else if !NewViewAccepted(s, nv) {
      assert Made(s, Same(s).(signs := nops), s.(signed := s.signed + nops)) by { NopsMade(s, nops); }
    } else {
      EnteredMade(s, nv, nops);
    }
  }

  lemma NopsMade(s: State, nops: set<Context>)
    ensures Made(s, Same(s).(signs := nops), s.(signed := s.signed + nops))
  {
    assert s.sent + [] == s.sent;
  }

  lemma EnteredMade(s: State, nv: NewViewReq, nops: set<Context>)
    requires NewViewOffered(s, nv) && NewViewAccepted(s, nv) && NewViewReadable(s, nv)
    requires nops == SignedBySelection(BigO(s.cfg, nv.vproofs))
    ensures Made(s, NewViewChange(s, nv), ProcessNewView(s, nv))
  {
    hide BigO, SignedBySelection, Revotes, BySender, RevoteOuts, NewViewOffered, NewViewAccepted, NewViewReadable;
    assert s.signed + nops + Revotes(nv.prePrepares) == s.signed + (nops + Revotes(nv.prePrepares));
  }

  lemma TimerMade(s: State, e: Event)
    requires e.OnDigestTimer? || e.OnSlotTimer? || e.OnViewTimer?
    requires Enabled(s, e)
    ensures Made(s, ChangeOf(s, e), Next(s, e))
  {
    hide Compose, IsLeader, Settled, Made, Same, TriggerChange, TriggerViewChange;
    SameMade(s, s);
    SameMade(s, s.(lastProposedView := e.view));
    TriggerMade(s, e.view, TriggerViewChange(s, e.view));
  }

  /** Every event but a checkpoint message applies its change and then finishes. */
  lemma NextMade(s: State, e: Event) returns (mid: State)
    requires Enabled(s, e) && !e.OnCheckpoint?
    ensures Made(s, ChangeOf(s, e), mid) && Finished(s, e, mid, Next(s, e))
  {
    hide ProcessTransfer, ProcessPrePrepare, ProcessPrePrepareOk, ProcessPrepare, ProcessPrepareOk,
         ProcessCommit, ProcessViewChange, ProcessNewView, OptimisticTimer, Made,
         TransferChange, PrePrepareChange, PrePrepareOkChange, PrepareChange, PrepareOkChange, CommitChange,
         ViewChangeChange, NewViewChange, OptimisticTimerChange, DigestTimerChange, SlotTimerChange;
    match e
    case OnTransfer(m) => TransferMade(s, m); mid := ProcessTransfer(s, m);
    case OnPrePrepare(p) => PrePrepareMade(s, p); mid := ProcessPrePrepare(s, p);
    case OnPrePrepareOk(r) => PrePrepareOkMade(s, r); mid := ProcessPrePrepareOk(s, r);
    case OnPrepare(p) => PrepareMade(s, p); mid := ProcessPrepare(s, p);
    case OnPrepareOk(r) => mid := PrepareOkMade(s, r);
    case OnCommit(p) => mid := CommitMade(s, p);
    case OnViewChange(vc) => ViewChangeMade(s, vc); mid := ProcessViewChange(s, vc);
    case OnNewView(nv) => NewViewMade(s, nv); mid := ProcessNewView(s, nv);
    case OnOptimisticTimer(n) => mid := OptimisticTimerMade(s, n);
    case OnDigestTimer(_, _) => TimerMade(s, e); mid := Next(s, e);
    case OnSlotTimer(_, _) => TimerMade(s, e); mid := Next(s, e);
    case OnViewTimer(_) => TimerMade(s, e); mid := Next(s, e);
  }

  // ---- Events about views ----

  predicate AboutViews(e: Event) {
    e.OnViewChange? || e.OnNewView? || e.OnDigestTimer? || e.OnSlotTimer? || e.OnViewTimer?
  }

  /** A change that leaves log, table and clients alone. */
  predicate Quiet(s: State, c: Change) {
    c.write.None? && c.index == s.index && c.current == s.current &&
    forall o | o in c.outs :: !o.Notify? && !o.SendPrePrepare?
  }

  /** Events about views write no entry, propose nothing and reply to nobody. */
  lemma ViewsQuiet(s: State, e: Event)
    requires AboutViews(e)
    ensures Quiet(s, ChangeOf(s, e))
  {
    hide ViewChangeChange, NewViewChange, Same, TriggerChange, Settled, IsLeader, Quiet;
    match e
    case OnViewChange(vc) => ViewChangeQuiet(s, vc);
    case OnNewView(nv) => NewViewQuiet(s, nv);
    case OnDigestTimer(_, view) => TriggerQuiet(s, view);
    case OnSlotTimer(_, view) => TriggerQuiet(s, view);
    case OnViewTimer(view) => TriggerQuiet(s, view);
  }

  lemma TriggerQuiet(s: State, view: int)
    ensures Quiet(s, TriggerChange(s, view)) && Quiet(s, Same(s))
  {
    hide Compose;
  }

  lemma ViewChangeQuiet(s: State, vc: ViewChangeReq)
    ensures Quiet(s, ViewChangeChange(s, vc))
  {
    hide VerifyViewChange, LeaderOf, Received, Started, Compose, SignedBySelection, WithOwnViewChange, Starts;
  }

  lemma NewViewQuiet(s: State, nv: NewViewReq)
    ensures Quiet(s, NewViewChange(s, nv))
  {
    hide BigO, ValidViewChanges, AgreeUpTo, SignedBySelection, Revotes, BySender, NewViewOffered, NewViewAccepted, Sign;
  }

  // ---- Checkpoint messages ----

  /** A checkpoint message touches checkpoints, the window and listings only. */
  ghost predicate OnlyWindow(s: State, t: State) {
    t == s.(checkpoints := t.checkpoints, stableSeq := t.stableSeq, stableDigest := t.stableDigest,
            stableState := t.stableState, stableProofs := t.stableProofs, low := t.low, high := t.high,
            index := t.index) &&
    forall d | d in t.index :: d in s.index && t.index[d] == s.index[d]
  }

  lemma CheckpointFields(s: State, c: CheckpointReq)
    ensures OnlyWindow(s, ProcessCheckpoint(s, c))
  {
    hide RecordCheckpoint, DigestsUpTo, CheckpointOffered, BecomesStable;
  }
}
