/** How a new view starts, over every run: which view changes a replica has collected, exactly when it announces or
    joins a view, and what it does and does not do in between. */
module Takeover {
  import opened Messages
  import opened Quorum
  import opened ReplicaState
  import opened Change
  import opened Window
  import opened ViewChanges
  import opened Timeouts
  import Selection

  // ---- What is collected ----

  function Collected(s: State, view: int): map<int, ViewChangeReq> {
    if view in s.viewChanges then s.viewChanges[view] else map[]
  }

  /** The event delivers a view change for that view that verifies here. */
  predicate Delivers(cfg: Config, e: Event, view: int) {
    e.OnViewChange? && e.vc.data.view == view && VerifyViewChange(cfg, e.vc)
  }

  lemma ViewChangeCollects(s: State, vc: ViewChangeReq, view: int)
    requires ProcessViewChange(s, vc).view < view && s.view < view
    ensures Collected(ProcessViewChange(s, vc), view) ==
            if Delivers(s.cfg, OnViewChange(vc), view) then Collected(s, view)[vc.sig.signer := vc]
            else Collected(s, view)
  {
    hide ProcessViewChange, ViewChangeChange, Made, VerifyViewChange, Starts, Received;
    ViewChangeMade(s, vc);
    MadeCollects(s, ViewChangeChange(s, vc), ProcessViewChange(s, vc));
    ChangeCollects(s, vc);
    ReceivedIs(s, vc);
  }

  lemma ChangeCollects(s: State, vc: ViewChangeReq)
    ensures var c, view := ViewChangeChange(s, vc), vc.data.view;
            if !VerifyViewChange(s.cfg, vc) || view <= s.view then c.viewChanges == s.viewChanges && c.view == s.view
            else if Starts(s, vc) then
              c.view == view && view in c.viewChanges && c.viewChanges == s.viewChanges[view := c.viewChanges[view]]
            else c.viewChanges == s.viewChanges[view := Received(s, vc)] && c.view == s.view
  {
    hide VerifyViewChange, LeaderOf, Started, Received, WithOwnViewChange, SignedBySelection, TriggerChange;
    TriggerView(s, vc.data.view);
  }

  lemma TriggerView(s: State, view: int)
    ensures TriggerChange(s, view).view == s.view
  {
    hide Compose;
  }

  lemma ReceivedIs(s: State, vc: ViewChangeReq)
    ensures Received(s, vc) == Collected(s, vc.data.view)[vc.sig.signer := vc]
  {
  }

  lemma NewViewCollects(s: State, nv: NewViewReq, view: int)
    requires NewViewReadable(s, nv) && ProcessNewView(s, nv).view < view
    ensures Collected(ProcessNewView(s, nv), view) == Collected(s, view)
  {
    hide BigO, SignedBySelection, NewViewOffered, NewViewAccepted, NewViewReadable, Revotes, RevoteOuts, BySender;
  }

  lemma OtherCollects(s: State, e: Event)
    requires Enabled(s, e) && !e.OnViewChange? && !e.OnNewView?
    ensures Next(s, e).viewChanges == s.viewChanges && Next(s, e).view == s.view
  {
    hide ChangeOf, Made, Finished, ProcessTransfer, ProcessPrePrepare, ProcessPrePrepareOk, ProcessPrepare,
         ProcessPrepareOk, ProcessCommit, ProcessCheckpoint, OptimisticTimer, DigestTimer, SlotTimer, ViewTimer;
    if e.OnCheckpoint? {
      CheckpointFields(s, e.c);
    } else {
      var mid := NextMade(s, e);
      OtherViews(s, e);
      MadeCollects(s, ChangeOf(s, e), mid);
      FinishedCollects(s, e, mid, Next(s, e));
    }
  }

  lemma MadeCollects(s: State, c: Change, mid: State)
    requires Made(s, c, mid)
    ensures mid.viewChanges == c.viewChanges && mid.view == c.view && mid.mode == c.mode && mid.sent == s.sent + c.outs
  {
  }

  lemma FinishedCollects(s: State, e: Event, mid: State, t: State)
    requires Finished(s, e, mid, t)
    ensures t.viewChanges == mid.viewChanges && t.view == mid.view && t.mode == mid.mode
    ensures t.lastProposedView == mid.lastProposedView
  {
    hide Commits, ExecutePending;
    ExecutePendingRan(mid);
  }

  /** What is collected for a view still to come is never dropped: each event adds exactly the verified view change it
      delivers for that view, under its sender. */
  lemma NextCollects(s: State, e: Event, view: int)
    requires Enabled(s, e) && Next(s, e).view < view && s.view < view
    ensures Collected(Next(s, e), view) ==
            if Delivers(s.cfg, e, view) then Collected(s, view)[e.vc.sig.signer := e.vc] else Collected(s, view)
  {
    hide ProcessTransfer, ProcessPrePrepare, ProcessPrePrepareOk, ProcessPrepare, ProcessPrepareOk, ProcessCommit,
         ProcessViewChange, ProcessNewView, ProcessCheckpoint, OptimisticTimer, DigestTimer, SlotTimer, ViewTimer,
         VerifyViewChange;
    match e
    case OnViewChange(vc) => ViewChangeCollects(s, vc, view);
    case OnNewView(nv) => NewViewCollects(s, nv, view);
    case _ => OtherCollects(s, e);
  }

  /** The latest verified view change for the view from each sender of the run. */
  ghost function Latest(cfg: Config, es: seq<Event>, view: int): map<int, ViewChangeReq> {
    if es == [] then map[]
    else
      var before, e := Latest(cfg, es[..|es| - 1], view), es[|es| - 1];
      if Delivers(cfg, e, view) then before[e.vc.sig.signer := e.vc] else before
  }

  /** Over every run, what is collected for a view still to come is exactly what was delivered for it and verified: the
      latest from each sender. */
  lemma {:induction false} CollectedExactly(cfg: Config, es: seq<Event>, view: int)
    requires cfg.k >= 1 && Run(Init(cfg), es).Some? && Run(Init(cfg), es).value.view < view
    ensures Collected(Run(Init(cfg), es).value, view) == Latest(cfg, es, view)
    ensures Run(Init(cfg), es).value.cfg == cfg
  {
    if es != [] {
      hide Next, Enabled, WindowInv, Collected, Delivers;
      var front := es[..|es| - 1];
      var s := Run(Init(cfg), front).value;
      WindowAlways(cfg, front);
      NextKeepsWindow(s, es[|es| - 1]);
      CollectedExactly(cfg, front, view);
      NextCollects(s, es[|es| - 1], view);
    }
  }

  lemma {:induction false} LatestDelivered(cfg: Config, es: seq<Event>, view: int, p: int)
    requires p in Latest(cfg, es, view)
    ensures var vc := Latest(cfg, es, view)[p];
            OnViewChange(vc) in es && vc.sig.signer == p && vc.data.view == view && VerifyViewChange(cfg, vc)
  {
    hide VerifyViewChange;
    var front, e := es[..|es| - 1], es[|es| - 1];
    assert es == front + [e];
    if !(Delivers(cfg, e, view) && p == e.vc.sig.signer) {
      LatestDelivered(cfg, front, view, p);
    }
  }

  // ---- Announcing and joining ----

  /** From s to t a new view started: its leader announced it, with the view changes `votes` and its own attached and
      nothing else, entered it and went back to normal mode. */
  ghost predicate Announced(s: State, t: State, view: int, votes: map<int, ViewChangeReq>) {
    t.view == view && t.mode == Normal && AnnouncesIn(s, t, view, votes)
  }

  ghost predicate AnnouncesIn(s: State, t: State, view: int, votes: map<int, ViewChangeReq>) {
    exists nv: NewViewReq ::
      t.sent == s.sent + [SendNewView(nv)] && nv.view == view && nv.sig == Signature(s.cfg.id, true) &&
      nv.prePrepares == BigO(s.cfg, nv.vproofs) && Attaches(nv, s.cfg.id, votes)
  }

  /** The announcement attaches one view change of each voter and one of its sender's own. */
  ghost predicate Attaches(nv: NewViewReq, me: int, votes: map<int, ViewChangeReq>) {
    |nv.vproofs| == |votes.Keys + {me}| &&
    (forall p | p in votes && p != me :: votes[p] in nv.vproofs) &&
    (exists own: ViewChangeReq :: own in nv.vproofs && own.data.view == nv.view && own.sig == Signature(me, true)) &&
    (forall vc | vc in nv.vproofs :: vc.sig == Signature(me, true) || exists p :: p in votes && votes[p] == vc)
  }

  /** Nothing about views changed: the replica said nothing and is in the view and mode it was in. */
  predicate Stays(s: State, t: State) {
    t.sent == s.sent && t.view == s.view && t.mode == s.mode && t.lastProposedView == s.lastProposedView
  }

  lemma OwnAttached(s: State, vc: ViewChangeReq)
    ensures Attaches(Started(s, vc), s.cfg.id, Received(s, vc))
  {
    hide Compose, BigO, Received, SortedValues;
    ComposedFor(s, vc.data.view);
    ValuesAttached(Received(s, vc), s.cfg.id, Compose(s, vc.data.view));
  }

  lemma ValuesAttached(votes: map<int, ViewChangeReq>, me: int, own: ViewChangeReq)
    requires own.sig == Signature(me, true)
    ensures var vs := SortedValues(votes[me := own]);
            |vs| == |votes.Keys + {me}| && own in vs && (forall p | p in votes && p != me :: votes[p] in vs) &&
            (forall vc | vc in vs :: vc.sig == Signature(me, true) || exists p :: p in votes && votes[p] == vc)
  {
    var all := votes[me := own];
    assert all.Keys == votes.Keys + {me} && |all| == |all.Keys|;
    assert all[me] in SortedValues(all);
    forall p | p in votes && p != me
      ensures votes[p] in SortedValues(all)
    {
      assert all[p] in SortedValues(all);
    }
    forall vc | vc in SortedValues(all)
      ensures vc.sig == Signature(me, true) || exists p :: p in votes && votes[p] == vc
    {
      var k :| k in all && all[k] == vc;
      assert k == me || votes[k] == vc;
    }
  }

  lemma ComposedFor(s: State, view: int)
    ensures Compose(s, view).data.view == view && Compose(s, view).sig == Signature(s.cfg.id, true)
  {
  }

  lemma StartAnnounces(s: State, vc: ViewChangeReq)
    requires Starts(s, vc)
    ensures Announced(s, ProcessViewChange(s, vc), vc.data.view, Received(s, vc))
  {
    hide VerifyViewChange, LeaderOf, Received, Compose, SignedBySelection, BigO, StartView, Attaches, ProcessViewChange,
         Made, StoreChange, TriggerChange;
    ViewChangeMade(s, vc);
    MadeCollects(s, ViewChangeChange(s, vc), ProcessViewChange(s, vc));
    OwnAttached(s, vc);
    var nv := Started(s, vc);
    assert ProcessViewChange(s, vc).sent == s.sent + [SendNewView(nv)];
  }

  lemma JoinAsks(s: State, vc: ViewChangeReq)
    requires VerifyViewChange(s.cfg, vc) && s.view < vc.data.view && s.cfg.id != LeaderOf(s.cfg, vc.data.view)
    requires |Received(s, vc)| == s.cfg.f + 1 && s.mode == Normal
    ensures var t := ProcessViewChange(s, vc);
            AsksIn(s, t, vc.data.view) && t.mode == ViewChange && t.lastProposedView == vc.data.view && t.view == s.view
  {
    hide VerifyViewChange, LeaderOf, Received, Compose;
    var s1 := s.(viewChanges := s.viewChanges[vc.data.view := Received(s, vc)]);
    ComposedFor(s1, vc.data.view);
    assert ProcessViewChange(s, vc).sent == s.sent + [SendViewChange(Compose(s1, vc.data.view))];
  }

  lemma OtherwiseStays(s: State, vc: ViewChangeReq)
    requires !Starts(s, vc)
    requires !(VerifyViewChange(s.cfg, vc) && s.view < vc.data.view && s.cfg.id != LeaderOf(s.cfg, vc.data.view) &&
               |Received(s, vc)| == s.cfg.f + 1 && s.mode == Normal)
    ensures Stays(s, ProcessViewChange(s, vc))
  {
    hide VerifyViewChange, LeaderOf, Received, Compose, StartView, TriggerViewChange;
  }

  /** What a view change does, exactly, over every run. Let `votes` be the latest verified view change for that view
      from each sender so far, this one included. The correct leader of the view announces it if and only if votes of
      exactly 2f senders have come together; another replica in normal mode asks for the view itself if and only if it
      is f + 1. Every other view change, and any that does not verify or is late, leaves it as it was. */
  lemma ViewChangeExactly(cfg: Config, es: seq<Event>, vc: ViewChangeReq)
    requires cfg.k >= 1 && !cfg.byzantine && Run(Init(cfg), es).Some?
    ensures var s, view := Run(Init(cfg), es).value, vc.data.view;
            var t := Next(s, OnViewChange(vc));
            var votes := Latest(cfg, es + [OnViewChange(vc)], view);
            if !VerifyViewChange(cfg, vc) || view <= s.view then Stays(s, t)
            else if cfg.id == view % (3 * cfg.f + 1) then
              if |votes.Keys| == 2 * cfg.f then Announced(s, t, view, votes) else Stays(s, t)
            else if |votes.Keys| == cfg.f + 1 && s.mode == Normal then
              AsksIn(s, t, view) && t.mode == ViewChange && t.lastProposedView == view && t.view == s.view
            else Stays(s, t)
  {
    hide Run, Init, VerifyViewChange, ProcessViewChange, Announced, AsksIn, Stays, Received, SortedValues, Compose;
    var s, view := Run(Init(cfg), es).value, vc.data.view;
    var all := es + [OnViewChange(vc)];
    assert all[..|all| - 1] == es;
    RunConfig(cfg, es);
    if VerifyViewChange(cfg, vc) && s.view < view {
      CollectedExactly(cfg, es, view);
      assert Received(s, vc) == Latest(cfg, all, view) by { ReceivedLatest(cfg, s, es, vc); }
      assert |Received(s, vc)| == |Received(s, vc).Keys|;
    }
    if Starts(s, vc) {
      StartAnnounces(s, vc);
    } else if VerifyViewChange(s.cfg, vc) && s.view < view && s.cfg.id != LeaderOf(s.cfg, view) &&
              |Received(s, vc)| == s.cfg.f + 1 && s.mode == Normal {
      JoinAsks(s, vc);
    } else {
      OtherwiseStays(s, vc);
    }
  }

  lemma RunConfig(cfg: Config, es: seq<Event>)
    requires cfg.k >= 1 && Run(Init(cfg), es).Some?
    ensures Run(Init(cfg), es).value.cfg == cfg
  {
    hide Run, Init;
    CollectedExactly(cfg, es, Run(Init(cfg), es).value.view + 1);
  }

  lemma ReceivedLatest(cfg: Config, s: State, es: seq<Event>, vc: ViewChangeReq)
    requires VerifyViewChange(cfg, vc) && Collected(s, vc.data.view) == Latest(cfg, es, vc.data.view)
    ensures Received(s, vc) == Latest(cfg, es + [OnViewChange(vc)], vc.data.view)
  {
    hide VerifyViewChange;
    var all := es + [OnViewChange(vc)];
    assert all[..|all| - 1] == es;
  }

  // ---- What verifies ----

  /** The places of xs at which f holds. */
  function Places<T>(f: T -> bool, xs: seq<T>): set<int> {
    set i | 0 <= i < |xs| && f(xs[i])
  }

  lemma {:induction false} CountIsPlaces<T>(f: T -> bool, xs: seq<T>)
    ensures CountIf(f, xs) == |Places(f, xs)|
  {
    if xs == [] {
      assert Places(f, xs) == {};
    } else {
      var front := xs[..|xs| - 1];
      CountIsPlaces(f, front);
      assert Places(f, xs) == Places(f, front) + (if f(xs[|xs| - 1]) then {|xs| - 1} else {});
    }
  }

  /** A view change that may be relied on: its signature is valid, and unless it claims no checkpoint it attaches 2f + 1
      validly signed messages for its checkpoint and, for each slot it claims prepared, 2f prepares of the slot's digest
      with a good MAC for this replica. */
  ghost predicate Grounded(cfg: Config, vc: ViewChangeReq) {
    var d := vc.data;
    vc.sig.valid &&
    (d.lastCheckpoint.seqNum != -1 ==>
       |Places((c: CheckpointReq) => c.data == d.lastCheckpoint && c.sig.valid, d.cproofs)| >= 2 * cfg.f + 1 &&
       forall p | p in d.pproofs ::
         |Places((r: Request) => r.data.digest == p.prePrepare.data.digest && cfg.id in r.sig.validFor, p.prepares)|
         >= 2 * cfg.f)
  }

  /** A view change verifies exactly when it is grounded. */
  lemma VerifiedExactly(cfg: Config, vc: ViewChangeReq)
    ensures VerifyViewChange(cfg, vc) <==> Grounded(cfg, vc)
  {
    var d := vc.data;
    var f := (c: CheckpointReq) => c.data == d.lastCheckpoint && c.sig.valid;
    CheckpointCountIs(d.lastCheckpoint, d.cproofs);
    CountIsPlaces(f, d.cproofs);
    forall p | p in d.pproofs
      ensures var digest := p.prePrepare.data.digest;
              Selection.ValidCount(cfg.id, digest, p.prepares) ==
              |Places((r: Request) => r.data.digest == digest && cfg.id in r.sig.validFor, p.prepares)|
    {
      PreparesCounted(cfg.id, p.prePrepare.data.digest, p.prepares);
    }
  }

  lemma PreparesCounted(me: int, digest: Digest, prepares: seq<Request>)
    ensures Selection.ValidCount(me, digest, prepares) ==
            |Places((r: Request) => r.data.digest == digest && me in r.sig.validFor, prepares)|
  {
    ValidCountIs(me, digest, prepares);
    CountIsPlaces((r: Request) => r.data.digest == digest && me in r.sig.validFor, prepares);
  }

  // ---- Entering a view ----

  /** Whoever accepts a NEW-VIEW sends its leader one vote for each context announced, in order, under its own signature
      with a MAC for everyone, and nothing else. */
  lemma EnteringVotes(s: State, nv: NewViewReq)
    requires NewViewReadable(s, nv) && NewViewAccepted(s, nv)
    ensures var t, count := Next(s, OnNewView(nv)), |nv.prePrepares|;
            t.view == nv.view && t.mode == Normal && |t.sent| == |s.sent| + count && s.sent <= t.sent &&
            forall i | 0 <= i < count ::
              t.sent[|s.sent| + i] ==
                SendPrePrepareOk(nv.view % (3 * s.cfg.f + 1),
                                 Request(nv.prePrepares[i].data, SignatureVec(s.cfg.id, Ids(3 * s.cfg.f + 1))))
  {
    hide BigO, SignedBySelection, NewViewOffered, Revotes, BySender, AgreeUpTo, Ids;
  }

  /** A NEW-VIEW, exactly: the replica enters its view if and only if the announcement is validly signed, the view is
      still to come, 2f + 1 of the attached view changes verify, and the announced contexts agree with those it
      recomputes. */
  lemma EntersExactly(s: State, nv: NewViewReq)
    requires NewViewReadable(s, nv)
    ensures var t := Next(s, OnNewView(nv));
            t.view != s.view <==>
              nv.sig.valid && s.view < nv.view &&
              |Places((vc: ViewChangeReq) => VerifyViewChange(s.cfg, vc), nv.vproofs)| >= 2 * s.cfg.f + 1 &&
              forall i | 0 <= i < |BigO(s.cfg, nv.vproofs)| && i < |nv.prePrepares| ::
                BigO(s.cfg, nv.vproofs)[i].data == nv.prePrepares[i].data
  {
    hide BigO, VerifyViewChange, SignedBySelection, Revotes, RevoteOuts, BySender, NewViewReadable, ValidViewChanges,
         Places;
    ValidViewChangesIs(s.cfg, nv.vproofs);
    CountIsPlaces((vc: ViewChangeReq) => VerifyViewChange(s.cfg, vc), nv.vproofs);
  }

  // ---- Between views ----

  /** The normal case: requests, votes and certificates. */
  predicate NormalCase(e: Event) {
    e.OnTransfer? || e.OnPrePrepare? || e.OnPrePrepareOk? || e.OnPrepare? || e.OnPrepareOk? || e.OnCommit? ||
    e.OnOptimisticTimer?
  }

  /** A replica that has asked for a new view takes no part in the normal case until a view starts: it signs nothing,
      sends nothing, executes nothing. */
  lemma SilentBetweenViews(s: State, e: Event)
    requires s.mode == ViewChange && NormalCase(e) && Enabled(s, e)
    ensures Next(s, e) == s.(armed := if e.OnOptimisticTimer? then s.armed - multiset{e.n} else s.armed)
  {
  }

  /** A replica that is not in normal mode has asked for a later view, no later than the one it last settled on. */
  ghost predicate ChangingInv(s: State) {
    s.mode == ViewChange ==> s.view < s.lastProposedView && AskedFor(s)
  }

  ghost predicate AskedFor(s: State) {
    exists vc: ViewChangeReq ::
      SendViewChange(vc) in s.sent && s.view < vc.data.view <= s.lastProposedView && vc.sig == Signature(s.cfg.id, true)
  }

  lemma StaysAsked(s: State, t: State)
    requires ChangingInv(s) && t.cfg == s.cfg && t.view == s.view && t.mode == s.mode && s.sent <= t.sent
    requires s.lastProposedView <= t.lastProposedView || s.mode == Normal
    ensures ChangingInv(t)
  {
    if s.mode == ViewChange {
      var vc: ViewChangeReq :| SendViewChange(vc) in s.sent && s.view < vc.data.view <= s.lastProposedView &&
                               vc.sig == Signature(s.cfg.id, true);
      assert SendViewChange(vc) in t.sent;
    }
  }

  lemma NewlyAsked(s: State, t: State, view: int)
    requires AsksIn(s, t, view) && s.view < view && t.lastProposedView == view && t.view == s.view && t.cfg == s.cfg
    ensures ChangingInv(t)
  {
    var vc: ViewChangeReq :|
      vc.data.view == view && vc.sig == Signature(s.cfg.id, true) && t.sent == s.sent + [SendViewChange(vc)];
    assert SendViewChange(vc) in t.sent;
  }

  lemma ViewChangeChanging(s: State, vc: ViewChangeReq)
    requires ChangingInv(s)
    ensures ChangingInv(ProcessViewChange(s, vc))
  {
    hide VerifyViewChange, ProcessViewChange, Received, Announced, AsksIn, ChangingInv, LeaderOf;
    var t, view := ProcessViewChange(s, vc), vc.data.view;
    SameHistory(s, vc);
    if Starts(s, vc) {
      StartAnnounces(s, vc);
      NormalChanging(t) by { AnnouncedNormal(s, t, view, Received(s, vc)); }
    } else if VerifyViewChange(s.cfg, vc) && s.view < view && s.cfg.id != LeaderOf(s.cfg, view) &&
              |Received(s, vc)| == s.cfg.f + 1 && s.mode == Normal {
      JoinAsks(s, vc);
      NewlyAsked(s, t, view);
    } else {
      OtherwiseStays(s, vc);
      StaysAsked(s, t);
    }
  }

  lemma SameHistory(s: State, vc: ViewChangeReq)
    ensures ProcessViewChange(s, vc).cfg == s.cfg
  {
    hide VerifyViewChange, Received, LeaderOf, StartView, TriggerViewChange, Compose, ProcessViewChange, Made;
    ViewChangeMade(s, vc);
    MadeConfig(s, ViewChangeChange(s, vc), ProcessViewChange(s, vc));
  }

  lemma MadeConfig(s: State, c: Change, mid: State)
    requires Made(s, c, mid)
    ensures mid.cfg == s.cfg && s.sent <= mid.sent
  {
  }

  lemma NormalChanging(s: State)
    requires s.mode == Normal
    ensures ChangingInv(s)
  {
  }

  lemma AnnouncedNormal(s: State, t: State, view: int, votes: map<int, ViewChangeReq>)
    requires Announced(s, t, view, votes)
    ensures t.mode == Normal
  {
    hide AnnouncesIn;
  }

  lemma NewViewChanging(s: State, nv: NewViewReq)
    requires ChangingInv(s) && NewViewReadable(s, nv)
    ensures ChangingInv(ProcessNewView(s, nv))
  {
    hide ChangingInv, BigO, SignedBySelection, NewViewOffered, NewViewAccepted, NewViewReadable, Revotes, RevoteOuts,
         BySender;
    if NewViewAccepted(s, nv) && NewViewOffered(s, nv) {
      NormalChanging(ProcessNewView(s, nv));
    } else {
      StaysAsked(s, ProcessNewView(s, nv));
    }
  }

  lemma TimerChanging(s: State, e: Event)
    requires ChangingInv(s) && Enabled(s, e) && (e.OnDigestTimer? || e.OnSlotTimer? || e.OnViewTimer?)
    ensures ChangingInv(Next(s, e))
  {
    hide TriggerViewChange, IsLeader, ChangingInv, Settled;
    if e.OnViewTimer? {
      StaysAsked(s, Next(s, e)) by { hide ChangingInv; ViewTimerExactly(s, e.view); }
    } else if !Settled(s, e.view) {
      TriggerChanging(s, e.view);
    }
  }

  lemma TriggerChanging(s: State, view: int)
    requires ChangingInv(s) && !Settled(s, view)
    ensures ChangingInv(TriggerViewChange(s, view))
  {
    hide TriggerViewChange, ChangingInv;
    TriggerAsks(s, view);
    if s.mode == ViewChange {
      ChangingLater(s);
    }
    NewlyAsked(s, TriggerViewChange(s, view), view);
  }

  lemma ChangingLater(s: State)
    requires ChangingInv(s) && s.mode == ViewChange
    ensures s.view < s.lastProposedView
  {
    hide AskedFor;
  }

  lemma OtherChanging(s: State, e: Event)
    requires ChangingInv(s) && Enabled(s, e) && (NormalCase(e) || e.OnCheckpoint?)
    ensures ChangingInv(Next(s, e))
  {
    hide ChangingInv, Next, Enabled, ProcessCheckpoint;
    if e.OnCheckpoint? {
      CheckpointFields(s, e.c);
      assert Next(s, e) == ProcessCheckpoint(s, e.c) by { CheckpointIs(s, e); }
      StaysAsked(s, Next(s, e));
    } else if s.mode == ViewChange {
      SilentBetweenViews(s, e);
      StaysAsked(s, Next(s, e));
    } else {
      NormalStaysNormal(s, e);
      NormalChanging(Next(s, e));
    }
  }

  lemma CheckpointIs(s: State, e: Event)
    requires e.OnCheckpoint? && Enabled(s, e)
    ensures Next(s, e) == ProcessCheckpoint(s, e.c)
  {
  }

  lemma NormalStaysNormal(s: State, e: Event)
    requires s.mode == Normal && NormalCase(e) && Enabled(s, e)
    ensures Next(s, e).mode == Normal
  {
    hide Next, Enabled, ChangeOf, Made, Finished;
    var mid := NextMade(s, e);
    MadeCollects(s, ChangeOf(s, e), mid);
    FinishedCollects(s, e, mid, Next(s, e));
    ChangeMode(s, e);
  }

  lemma ChangeMode(s: State, e: Event)
    requires NormalCase(e)
    ensures ChangeOf(s, e).mode == s.mode
  {
    hide Opened, Sign, WithPrepares, WithCommits, WithPrepareOk, WithPrePrepareOk, SlotTaken, PrePrepareOffered,
         LeaderOf, AckOffered, AckMatches, Proposal, ProposedEntry, Reproposed, Inherited, WithOwnCommit,
         PrepareProofOf, AllPrepared, ProofOffered;
  }

  lemma NextKeepsChanging(s: State, e: Event)
    requires ChangingInv(s) && Enabled(s, e)
    ensures ChangingInv(Next(s, e))
  {
    hide ChangingInv, ProcessTransfer, ProcessPrePrepare, ProcessPrePrepareOk, ProcessPrepare, ProcessPrepareOk,
         ProcessCommit, ProcessViewChange, ProcessNewView, ProcessCheckpoint, OptimisticTimer, DigestTimer, SlotTimer,
         ViewTimer, NewViewReadable;
    match e
    case OnViewChange(vc) => ViewChangeChanging(s, vc);
    case OnNewView(nv) => NewViewChanging(s, nv);
    case OnDigestTimer(_, _) => TimerChanging(s, e);
    case OnSlotTimer(_, _) => TimerChanging(s, e);
    case OnViewTimer(_) => TimerChanging(s, e);
    case _ => OtherChanging(s, e);
  }

  /** Over every run: a replica that is not in normal mode has asked, under its own signature, for a view later than its
      own, and the view it last settled on is no earlier. */
  lemma {:induction false} ChangingAlways(cfg: Config, es: seq<Event>)
    requires Run(Init(cfg), es).Some?
    ensures ChangingInv(Run(Init(cfg), es).value)
  {
    if es != [] {
      hide Next, Enabled, ChangingInv;
      ChangingAlways(cfg, es[..|es| - 1]);
      NextKeepsChanging(Run(Init(cfg), es[..|es| - 1]).value, es[|es| - 1]);
    }
  }
}
