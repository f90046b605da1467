/** View changes: what a replica stores for them, when a composed request passes verification elsewhere,
    and when the new leader's NEW-VIEW is accepted. */
module ViewChanges {
  import opened Messages
  import opened Quorum
  import opened Accounts
  import opened ReplicaState
  import opened Change
  import opened Window
  import opened ExecutionFold
  import opened Voting
  import opened OneView
  import opened Entries
  import CheckpointText
  import Selection

  // ---- What is stored, in every run ----

  ghost predicate ProofFor(n: int, proofs: map<int, CheckpointReq>) {
    forall p | p in proofs :: proofs[p].sig.valid && proofs[p].sig.signer == p && proofs[p].data.seqNum == n
  }

  /** View changes kept for views to come verified on arrival, under their sender. */
  ghost predicate ReceivedOk(s: State, view: int) {
    forall v, p | v in s.viewChanges && view < v && p in s.viewChanges[v] ::
      VerifyViewChange(s.cfg, s.viewChanges[v][p]) && s.viewChanges[v][p].sig.signer == p
  }

  /** Stored checkpoint messages verified on arrival; a stable checkpoint has 2f + 1 of them. */
  ghost predicate StoredInv(s: State) {
    ReceivedOk(s, s.view) &&
    (forall n | n in s.checkpoints :: ProofFor(n, s.checkpoints[n].proofs)) &&
    ProofFor(s.stableSeq, s.stableProofs) &&
    (s.stableSeq != -1 ==> |s.stableProofs| >= 2 * s.cfg.f + 1)
  }

  ghost predicate StoredGood(s: State, c: Change) {
    s.view <= c.view && (c.viewChanges == s.viewChanges || ReceivedOk(s.(viewChanges := c.viewChanges), c.view))
  }

  lemma MadeKeepsStored(s: State, c: Change, mid: State)
    requires StoredInv(s) && Made(s, c, mid) && StoredGood(s, c)
    ensures StoredInv(mid)
  {
    hide VerifyViewChange, ProofFor;
  }

  lemma ViewChangeStored(s: State, vc: ViewChangeReq)
    requires StoredInv(s)
    ensures StoredGood(s, ViewChangeChange(s, vc))
  {
    hide VerifyViewChange, ProofFor, LeaderOf, Started, Compose, SignedBySelection, Received, StoredInv, ReceivedOk;
    var view := vc.data.view;
    if VerifyViewChange(s.cfg, vc) && s.view < view {
      ReceivedStored(s, vc);
      assert ReceivedOk(s.(viewChanges := s.viewChanges[view := Received(s, vc)][view := WithOwnViewChange(s, vc)]),
                        view)
        by { EnteredStored(s, vc); }
    }
  }

  lemma ReceivedStored(s: State, vc: ViewChangeReq)
    requires StoredInv(s) && VerifyViewChange(s.cfg, vc)
    ensures ReceivedOk(s.(viewChanges := s.viewChanges[vc.data.view := Received(s, vc)]), s.view)
    ensures s.view < vc.data.view ==> forall p | p in Received(s, vc) :: VerifyViewChange(s.cfg, Received(s, vc)[p])
  {
    hide VerifyViewChange, ProofFor;
  }

  lemma EnteredStored(s: State, vc: ViewChangeReq)
    requires StoredInv(s) && s.view < vc.data.view
    ensures ReceivedOk(s.(viewChanges :=
                          s.viewChanges[vc.data.view := Received(s, vc)][vc.data.view := WithOwnViewChange(s, vc)]),
                       vc.data.view)
  {
    hide VerifyViewChange, ProofFor, Compose, Received;
  }

  lemma NewViewStored(s: State, nv: NewViewReq)
    requires StoredInv(s)
    ensures StoredGood(s, NewViewChange(s, nv))
  {
    hide VerifyViewChange, ProofFor, BigO, SignedBySelection, Revotes, RevoteOuts, ValidViewChanges, AgreeUpTo,
         BySender;
  }

  lemma OtherStored(s: State, e: Event)
    requires !e.OnCheckpoint? && !e.OnViewChange? && !e.OnNewView?
    ensures StoredGood(s, ChangeOf(s, e))
  {
    hide TransferChange, PrePrepareChange, PrePrepareOkChange, PrepareChange, PrepareOkChange, CommitChange,
         OptimisticTimerChange, DigestTimerChange, SlotTimerChange, StoredGood;
    OtherViews(s, e);
    SameViewsGood(s, ChangeOf(s, e));
  }

  lemma OtherViews(s: State, e: Event)
    requires !e.OnCheckpoint? && !e.OnViewChange? && !e.OnNewView?
    ensures ChangeOf(s, e).view == s.view && ChangeOf(s, e).viewChanges == s.viewChanges
  {
    hide TransferChange, OptimisticTimerChange, DigestTimerChange, SlotTimerChange, Opened, Sign, WithPrepares,
         WithCommits, WithPrepareOk, WithPrePrepareOk, SlotTaken, PrePrepareOffered, LeaderOf, AckOffered, AckMatches;
    match e
    case OnTransfer(m) => TransferViews(s, m);
    case OnOptimisticTimer(n) => TimerViews(s, n);
    case OnDigestTimer(_, _) => ViewTimerViews(s, e);
    case OnSlotTimer(_, _) => ViewTimerViews(s, e);
    case _ =>
  }

  lemma TransferViews(s: State, m: Message)
    ensures TransferChange(s, m).view == s.view && TransferChange(s, m).viewChanges == s.viewChanges
  {
    hide IsLeader, LeaderOf, Proposal, ProposedEntry, Reproposed;
  }

  lemma TimerViews(s: State, n: int)
    ensures OptimisticTimerChange(s, n).view == s.view && OptimisticTimerChange(s, n).viewChanges == s.viewChanges
  {
    hide WithOwnCommit, PrepareProofOf, AllPrepared;
  }

  lemma ViewTimerViews(s: State, e: Event)
    requires e.OnDigestTimer? || e.OnSlotTimer?
    ensures ChangeOf(s, e).view == s.view && ChangeOf(s, e).viewChanges == s.viewChanges
  {
    hide Compose, IsLeader, Settled;
  }

  lemma SameViewsGood(s: State, c: Change)
    requires c.view == s.view && c.viewChanges == s.viewChanges
    ensures StoredGood(s, c)
  {
  }

  ghost predicate SameStored(s: State, t: State) {
    t.cfg == s.cfg && t.view == s.view && t.viewChanges == s.viewChanges &&
    t.stableSeq == s.stableSeq && t.stableProofs == s.stableProofs &&
    forall n | n in t.checkpoints ::
      t.checkpoints[n].proofs == (if n in s.checkpoints then s.checkpoints[n].proofs else map[])
  }

  lemma SameStoredKeeps(s: State, t: State)
    requires StoredInv(s) && SameStored(s, t)
    ensures StoredInv(t)
  {
    hide VerifyViewChange;
  }

  lemma ExecuteOneStored(s: State, n: int)
    requires n in s.slots
    ensures SameStored(s, ExecuteOne(s, n))
  {
    hide Checkpoint, ExecuteOne, Apply;
    ExecuteOneIs(s, n);
    CheckpointStored(Executed1(s, n));
  }

  lemma CheckpointStored(s: State)
    requires s.balances.Keys != {}
    ensures SameStored(s, Checkpoint(s))
  {
    hide CheckpointText.Text;
  }

  lemma {:induction false} ExecuteFromStored(s: State, n: int)
    requires StoredInv(s) && s.lastExecuted < n
    ensures StoredInv(ExecuteFrom(s, n))
    decreases s.current - n
  {
    hide ExecuteOne, StoredInv, SameStored;
    if n <= s.current {
      if n in s.slots && s.slots[n].status == Committed {
        ExecuteOneRan(s, n);
        ExecuteOneStored(s, n);
        SameStoredKeeps(s, ExecuteOne(s, n));
        ExecuteFromStored(ExecuteOne(s, n), n + 1);
      } else if n !in s.slots || s.slots[n].status == Executed {
        ExecuteFromStored(s, n + 1);
      }
    }
  }

  lemma FinishedStored(s: State, e: Event, mid: State, t: State)
    requires StoredInv(mid) && Finished(s, e, mid, t)
    ensures StoredInv(t)
  {
    hide StoredInv, ExecuteFrom, Commits;
    ExecuteFromStored(mid, mid.lastExecuted + 1);
    if Commits(s, e) && e.OnPrepareOk? {
      var proof :| t == Emit(ExecutePending(mid), SendCommit(proof));
      assert SameStored(ExecutePending(mid), t) by { EmitStored(ExecutePending(mid), SendCommit(proof)); }
      SameStoredKeeps(ExecutePending(mid), t);
    }
  }

  lemma EmitStored(s: State, o: Output)
    ensures SameStored(s, Emit(s, o))
  {
  }

  lemma RecordStored(s: State, c: CheckpointReq)
    requires StoredInv(s) && CheckpointOffered(s, c)
    ensures ProofFor(c.data.seqNum, RecordCheckpoint(s, c).proofs)
  {
    hide VerifyViewChange, ReceivedOk;
  }

  lemma CheckpointMessageStored(s: State, c: CheckpointReq)
    requires StoredInv(s)
    ensures StoredInv(ProcessCheckpoint(s, c))
  {
    hide VerifyViewChange, DigestsUpTo, RecordCheckpoint, ProofFor, CheckpointOffered;
    if CheckpointOffered(s, c) {
      RecordStored(s, c);
      if BecomesStable(s, c) {
        StableStored(s, c);
      }
    }
  }

  lemma StableStored(s: State, c: CheckpointReq)
    requires StoredInv(s) && BecomesStable(s, c) && ProofFor(c.data.seqNum, RecordCheckpoint(s, c).proofs)
    ensures StoredInv(ProcessCheckpoint(s, c))
  {
    hide VerifyViewChange, DigestsUpTo, RecordCheckpoint, ProofFor;
  }

  lemma NextKeepsStored(s: State, e: Event)
    requires StoredInv(s) && Enabled(s, e)
    ensures StoredInv(Next(s, e))
  {
    hide StoredInv, ChangeOf, Made, Finished, StoredGood, ProcessTransfer, ProcessPrePrepare, ProcessPrePrepareOk,
         ProcessPrepare, ProcessPrepareOk, ProcessCommit, ProcessViewChange, ProcessNewView, ProcessCheckpoint,
         OptimisticTimer, DigestTimer, SlotTimer, ViewTimer;
    if e.OnCheckpoint? {
      CheckpointMessageStored(s, e.c);
    } else {
      var mid := NextMade(s, e);
      ChangeStored(s, e);
      MadeKeepsStored(s, ChangeOf(s, e), mid);
      FinishedStored(s, e, mid, Next(s, e));
    }
  }

  lemma ChangeStored(s: State, e: Event)
    requires StoredInv(s) && !e.OnCheckpoint?
    ensures StoredGood(s, ChangeOf(s, e))
  {
    hide TransferChange, PrePrepareChange, PrePrepareOkChange, PrepareChange, PrepareOkChange, CommitChange,
         ViewChangeChange, NewViewChange, OptimisticTimerChange, DigestTimerChange, SlotTimerChange, StoredGood,
         StoredInv;
    match e
    case OnViewChange(vc) => ViewChangeStored(s, vc);
    case OnNewView(nv) => NewViewStored(s, nv);
    case _ => OtherStored(s, e);
  }

  lemma {:induction false} StoredAlways(cfg: Config, es: seq<Event>)
    requires Run(Init(cfg), es).Some?
    ensures StoredInv(Run(Init(cfg), es).value)
  {
    hide Next, Enabled, StoredInv;
    if es == [] {
      assert StoredInv(Init(cfg)) by { InitStored(cfg); }
    } else {
      StoredAlways(cfg, es[..|es| - 1]);
      NextKeepsStored(Run(Init(cfg), es[..|es| - 1]).value, es[|es| - 1]);
    }
  }

  lemma InitStored(cfg: Config)
    ensures StoredInv(Init(cfg))
  {
  }

  // ---- Counting what verifies ----

  function CountIf<T>(f: T -> bool, xs: seq<T>): nat {
    if xs == [] then 0 else CountIf(f, xs[..|xs| - 1]) + (if f(xs[|xs| - 1]) then 1 else 0)
  }

  lemma {:induction false} CountCons<T>(f: T -> bool, x: T, xs: seq<T>)
    ensures CountIf(f, [x] + xs) == (if f(x) then 1 else 0) + CountIf(f, xs)
  {
    var ys := [x] + xs;
    if xs == [] {
      assert ys[..0] == [];
    } else {
      assert ys[..|ys| - 1] == [x] + xs[..|xs| - 1];
      CountCons(f, x, xs[..|xs| - 1]);
    }
  }

  function Where<T>(f: T -> bool, m: map<int, T>): set<int> {
    set k | k in m && f(m[k])
  }

  lemma SortedHead<T>(m: map<int, T>) returns (k: int)
    requires m.Keys != {}
    ensures k in m && SortedValues(m) == [m[k]] + SortedValues(m - {k}) && |m - {k}| < |m|
  {
    k := MinOf(m.Keys);
    assert m.Keys == (m - {k}).Keys + {k} && |m| == |m.Keys| && |m - {k}| == |(m - {k}).Keys|;
  }

  lemma SortedEmpty<T>(m: map<int, T>)
    requires m.Keys == {}
    ensures SortedValues(m) == []
  {
  }

  /** Counting over a map's values counts keys. */
  lemma {:induction false} CountValues<T>(f: T -> bool, m: map<int, T>)
    ensures CountIf(f, SortedValues(m)) == |Where(f, m)|
    decreases |m|
  {
    hide SortedValues;
    if m.Keys == {} {
      SortedEmpty(m);
      assert Where(f, m) == {};
    } else {
      var k := SortedHead(m);
      CountCons(f, m[k], SortedValues(m - {k}));
      CountValues(f, m - {k});
      assert Where(f, m) == Where(f, m - {k}) + (if f(m[k]) then {k} else {});
    }
  }

  lemma {:induction false} ValidCountIs(me: int, d: Digest, xs: seq<Request>)
    ensures Selection.ValidCount(me, d, xs) ==
            CountIf((r: Request) => r.data.digest == d && me in r.sig.validFor, xs)
  {
    if xs != [] {
      ValidCountIs(me, d, xs[..|xs| - 1]);
    }
  }

  lemma {:induction false} CheckpointCountIs(c: CheckpointData, xs: seq<CheckpointReq>)
    ensures CheckpointCount(c, xs) == CountIf((r: CheckpointReq) => r.data == c && r.sig.valid, xs)
  {
    if xs != [] {
      CheckpointCountIs(c, xs[..|xs| - 1]);
    }
  }

  lemma {:induction false} ValidViewChangesIs(cfg: Config, xs: seq<ViewChangeReq>)
    ensures ValidViewChanges(cfg, xs) == CountIf((r: ViewChangeReq) => VerifyViewChange(cfg, r), xs)
  {
    hide VerifyViewChange;
    if xs != [] {
      ValidViewChangesIs(cfg, xs[..|xs| - 1]);
    }
  }

  // ---- Compose, then verify ----

  /** The stored checkpoint messages that carry the replica's own stable checkpoint. */
  function Matching(s: State): set<int> {
    set p | p in s.stableProofs && s.stableProofs[p].data.digest == s.stableDigest
  }

  /** The stored prepares that verify at replica j. */
  function VerifiableAt(j: int, e: Entry): set<int> {
    set p | p in e.prepares && j in e.prepares[p].sig.validFor
  }

  lemma {:induction false} PreparedProofsAre(s: State, from: int, until: int, p: PrepareProof)
    ensures p in PreparedProofs(s, from, until) <==>
            exists n :: from <= n < until && n in s.slots && AtLeastPrepared(s.slots[n]) &&
                        p == PrepareProof(s.slots[n].prePrepare, SortedValues(s.slots[n].prepares))
    decreases until - from
  {
    hide SortedValues;
    if from < until {
      PreparedProofsAre(s, from, until - 1, p);
    }
  }

  lemma StoredPreparesCount(e: Entry, j: int)
    requires PreparesMatch(e)
    ensures Selection.ValidCount(j, e.prePrepare.data.digest, SortedValues(e.prepares)) == |VerifiableAt(j, e)|
  {
    hide SortedValues;
    var f := (r: Request) => r.data.digest == e.prePrepare.data.digest && j in r.sig.validFor;
    ValidCountIs(j, e.prePrepare.data.digest, SortedValues(e.prepares));
    CountValues(f, e.prepares);
    assert Where(f, e.prepares) == VerifiableAt(j, e);
  }

  lemma StoredCheckpointsCount(s: State)
    requires StoredInv(s)
    ensures CheckpointCount(CheckpointData(s.stableSeq, s.stableDigest), SortedValues(s.stableProofs)) == |Matching(s)|
  {
    hide SortedValues, ReceivedOk;
    var c := CheckpointData(s.stableSeq, s.stableDigest);
    var f := (r: CheckpointReq) => r.data == c && r.sig.valid;
    CheckpointCountIs(c, SortedValues(s.stableProofs));
    CountValues(f, s.stableProofs);
    assert Where(f, s.stableProofs) == Matching(s);
  }

  /** Every log slot's stored prepares are counted as the receiver counts them. */
  ghost predicate AllMatch(s: State) {
    forall n | n in s.slots :: PreparesMatch(s.slots[n])
  }

  lemma AllMatchAlways(cfg: Config, s: State)
    requires cfg.k >= 1 && Reached(cfg, s)
    ensures AllMatch(s) && WindowInv(s) && StoredInv(s) && s.cfg == cfg
  {
    hide Run, Init, WindowInv, StoredInv, PreparesMatch;
    var es :| Run(Init(cfg), es) == Some(s);
    WindowAlways(cfg, es);
    StoredAlways(cfg, es);
    RunKeepsConfig(cfg, es);
    ReachedEntries(cfg, s);
    forall n | n in s.slots
      ensures PreparesMatch(s.slots[n])
    {
      assert EntryTrue(s.executed, ANY, n, s.slots[n]);
    }
  }

  /** Compose, then verify. At every moment of every run, whatever views were entered, a replica's view-change request
      passes verification at replica j exactly when it has no stable checkpoint yet, or 2f + 1 of its stored
      checkpoint messages carry its digest and every prepared slot of its log stores 2f prepares that verify at j. */
  lemma ComposeVerifies(cfg: Config, s: State, there: Config, view: int)
    requires cfg.k >= 1 && Reached(cfg, s) && there.f == cfg.f
    ensures VerifyViewChange(there, Compose(s, view)) <==>
            (s.stableSeq == -1 ||
             (|Matching(s)| >= 2 * cfg.f + 1 &&
              forall n | n in s.slots && s.low <= n && AtLeastPrepared(s.slots[n]) ::
                |VerifiableAt(there.id, s.slots[n])| >= 2 * cfg.f))
  {
    hide Reached, WindowInv, StoredInv, PreparesMatch, SortedValues, PreparedProofs, Matching, VerifiableAt,
         CheckpointCount;
    AllMatchAlways(cfg, s);
    StoredCheckpointsCount(s);
    var ps := PreparedProofs(s, s.stableSeq + 1, s.low + s.cfg.k);
    forall n | n in s.slots && s.low <= n && AtLeastPrepared(s.slots[n])
      ensures PrepareProof(s.slots[n].prePrepare, SortedValues(s.slots[n].prepares)) in ps
    {
      InLog(s, n);
      PreparedProofsAre(s, s.stableSeq + 1, s.low + s.cfg.k,
                        PrepareProof(s.slots[n].prePrepare, SortedValues(s.slots[n].prepares)));
    }
    forall p | p in ps
      ensures exists n :: n in s.slots && s.low <= n && AtLeastPrepared(s.slots[n]) &&
                          p == PrepareProof(s.slots[n].prePrepare, SortedValues(s.slots[n].prepares))
    {
      PreparedProofsAre(s, s.stableSeq + 1, s.low + s.cfg.k, p);
      LowAfterStable(s);
    }
    forall n | n in s.slots
      ensures Selection.ValidCount(there.id, s.slots[n].prePrepare.data.digest, SortedValues(s.slots[n].prepares))
              == |VerifiableAt(there.id, s.slots[n])|
    {
      StoredPreparesCount(s.slots[n], there.id);
    }
  }

  lemma InLog(s: State, n: int)
    requires WindowInv(s) && n in s.slots && s.low <= n
    ensures s.stableSeq + 1 <= n < s.low + s.cfg.k
  {
  }

  lemma LowAfterStable(s: State)
    requires WindowInv(s)
    ensures s.low == s.stableSeq + 1
  {
  }

  lemma LogRange(s: State, V: Votes, ok: Message -> bool, n: int)
    requires Ready(s, V, ok) && n in s.slots && s.low <= n
    ensures s.stableSeq + 1 <= n < s.low + s.cfg.k
  {
    hide VoteInv, OneViewInv;
  }

  lemma LowIs(s: State, V: Votes, ok: Message -> bool)
    requires Ready(s, V, ok)
    ensures s.low == s.stableSeq + 1
  {
    hide VoteInv, OneViewInv;
  }

  /** In particular it passes when every stored checkpoint message carries the digest, every prepared slot of the log
      stores 2f prepares, as slots that went through the slow path do, and the stored MACs are good for j. */
  lemma SlowPathVerifies(cfg: Config, s: State, there: Config, view: int)
    requires cfg.k >= 1 && Reached(cfg, s) && there.f == cfg.f
    requires forall p | p in s.stableProofs :: s.stableProofs[p].data.digest == s.stableDigest
    requires forall n | n in s.slots && s.low <= n && AtLeastPrepared(s.slots[n]) ::
               |s.slots[n].prepares| >= 2 * cfg.f
    requires forall n | n in s.slots && s.low <= n :: forall p | p in s.slots[n].prepares ::
               there.id in s.slots[n].prepares[p].sig.validFor
    ensures VerifyViewChange(there, Compose(s, view))
  {
    hide Reached, WindowInv, PreparesMatch, VerifyViewChange, Compose, ReceivedOk, Matching, VerifiableAt, ProofFor;
    ComposeVerifies(cfg, s, there, view);
    AllMatchAlways(cfg, s);
    AllMatching(s);
    forall n | n in s.slots && s.low <= n && AtLeastPrepared(s.slots[n])
      ensures |VerifiableAt(there.id, s.slots[n])| >= 2 * cfg.f
    {
      AllVerifiable(there.id, s.slots[n]);
    }
  }

  lemma AllMatching(s: State)
    requires forall p | p in s.stableProofs :: s.stableProofs[p].data.digest == s.stableDigest
    ensures |Matching(s)| == |s.stableProofs|
  {
    AllKeys(s.stableProofs, Matching(s));
  }

  lemma AllVerifiable(j: int, e: Entry)
    requires forall p | p in e.prepares :: j in e.prepares[p].sig.validFor
    ensures |VerifiableAt(j, e)| == |e.prepares|
  {
    AllKeys(e.prepares, VerifiableAt(j, e));
  }

  lemma AllKeys<T>(m: map<int, T>, chosen: set<int>)
    requires forall k :: k in chosen <==> k in m
    ensures |chosen| == |m|
  {
    SameSet(chosen, m.Keys);
    assert |m| == |m.Keys|;
  }

  // ---- NEW-VIEW ----

  lemma {:induction false} SameVerdict(i: Config, j: Config, vc: ViewChangeReq)
    requires i.f == j.f && Selection.SameValidity(i.id, j.id, vc.data.pproofs)
    ensures VerifyViewChange(i, vc) <==> VerifyViewChange(j, vc)
  {
    forall p | p in vc.data.pproofs
      ensures Selection.ValidCount(i.id, p.prePrepare.data.digest, p.prepares) ==
              Selection.ValidCount(j.id, p.prePrepare.data.digest, p.prepares)
    {
      Selection.SameCount(i.id, j.id, p.prePrepare.data.digest, p.prepares);
    }
  }

  lemma ProofsOfMember(vcs: seq<ViewChangeReq>, i: int, j: int, vc: ViewChangeReq)
    requires vc in vcs && Selection.SameValidity(i, j, Selection.Proofs(vcs))
    ensures Selection.SameValidity(i, j, vc.data.pproofs)
  {
    forall p | p in vc.data.pproofs
      ensures p in Selection.Proofs(vcs)
    {
      Selection.ProofsAreAll(vcs, p);
    }
  }

  /** The leader's and a backup's selections from the same messages agree on every context. */
  lemma SelectionsAgree(leader: Config, backup: Config, vcs: seq<ViewChangeReq>)
    requires leader.f == backup.f && Selection.SameValidity(leader.id, backup.id, Selection.Proofs(vcs))
    ensures |BigO(backup, vcs)| == |BigO(leader, vcs)| && AgreeUpTo(BigO(backup, vcs), BigO(leader, vcs))
  {
    Selection.VerifierIndependent(leader.id, backup.id, leader.f, Everyone(leader), vcs);
  }

  /** A correct leader's NEW-VIEW. Once the leader of a later view has its quorum it announces that view;
      a backup in a lower view that verifies the same attached prepares recomputes the announced list, and
      enters the view exactly when the leader's own attached view change verifies there and the leader
      was not itself among the senders it counted. */
  lemma LeaderNewViewAccepted(s: State, vc: ViewChangeReq, t: State)
    requires StoredInv(s) && Starts(s, vc) && t.cfg.f == s.cfg.f && t.view < vc.data.view
    requires Selection.SameValidity(s.cfg.id, t.cfg.id, Selection.Proofs(Started(s, vc).vproofs))
    ensures SendNewView(Started(s, vc)) in ProcessViewChange(s, vc).sent &&
            ProcessViewChange(s, vc).view == vc.data.view
    ensures NewViewReadable(t, Started(s, vc))
    ensures NewViewAccepted(t, Started(s, vc)) <==>
            s.cfg.id !in Received(s, vc) && VerifyViewChange(t.cfg, Compose(s, vc.data.view))
    ensures NewViewAccepted(t, Started(s, vc)) ==>
            ProcessNewView(t, Started(s, vc)).view == vc.data.view && ProcessNewView(t, Started(s, vc)).mode == Normal
  {
    hide StoredInv, BigO, VerifyViewChange, Compose, Received, LeaderOf, SignedBySelection, ValidViewChanges, Revotes,
         RevoteOuts, BySender, Selection.SameValidity, SortedValues, Made;
    var nv, all := Started(s, vc), WithOwnViewChange(s, vc);
    SelectionsAgree(s.cfg, t.cfg, nv.vproofs);
    AttachedValid(s, vc, t);
    ViewChangeMade(s, vc);
    assert SendNewView(nv) in ProcessViewChange(s, vc).sent && ProcessViewChange(s, vc).view == vc.data.view by {
      StartedSent(s, vc);
    }
  }

  /** Over every run, across views: once a correct replica has the quorum to lead a later view, a backup in a lower
      view that verifies the same attached prepares enters the view exactly under that condition. */
  lemma NewViewAlwaysAccepted(cfg: Config, s: State, vc: ViewChangeReq, t: State)
    requires Reached(cfg, s) && Starts(s, vc) && t.cfg.f == s.cfg.f && t.view < vc.data.view
    requires Selection.SameValidity(s.cfg.id, t.cfg.id, Selection.Proofs(Started(s, vc).vproofs))
    ensures SendNewView(Started(s, vc)) in ProcessViewChange(s, vc).sent && NewViewReadable(t, Started(s, vc))
    ensures s.cfg.id !in Received(s, vc) && VerifyViewChange(t.cfg, Compose(s, vc.data.view)) <==>
            ProcessNewView(t, Started(s, vc)).view == vc.data.view
  {
    hide Run, Init, Starts, StoredInv, Started, Received, Compose, VerifyViewChange, ProcessViewChange, ProcessNewView,
         NewViewReadable, NewViewAccepted, Selection.SameValidity, Selection.Proofs;
    var es :| Run(Init(cfg), es) == Some(s);
    StoredAlways(cfg, es);
    LeaderNewViewAccepted(s, vc, t);
    if !NewViewAccepted(t, Started(s, vc)) {
      assert ProcessNewView(t, Started(s, vc)).view == t.view by { RejectedStays(t, Started(s, vc)); }
    }
  }

  lemma RejectedStays(t: State, nv: NewViewReq)
    requires NewViewReadable(t, nv) && !NewViewAccepted(t, nv)
    ensures ProcessNewView(t, nv).view == t.view
  {
    hide BigO, ValidViewChanges, AgreeUpTo, SignedBySelection;
  }

  lemma StartedSent(s: State, vc: ViewChangeReq)
    requires Starts(s, vc) && Made(s, ViewChangeChange(s, vc), ProcessViewChange(s, vc))
    ensures SendNewView(Started(s, vc)) in ProcessViewChange(s, vc).sent &&
            ProcessViewChange(s, vc).view == vc.data.view
  {
    hide VerifyViewChange, Compose, Received, LeaderOf, SignedBySelection, Started, ProcessViewChange;
    assert SendNewView(Started(s, vc)) in ViewChangeChange(s, vc).outs;
  }

  lemma AttachedValid(s: State, vc: ViewChangeReq, t: State)
    requires StoredInv(s) && Starts(s, vc) && t.cfg.f == s.cfg.f
    requires Selection.SameValidity(s.cfg.id, t.cfg.id, Selection.Proofs(Started(s, vc).vproofs))
    ensures ValidViewChanges(t.cfg, Started(s, vc).vproofs) >= 2 * s.cfg.f + 1 <==>
            s.cfg.id !in Received(s, vc) && VerifyViewChange(t.cfg, Compose(s, vc.data.view))
  {
    hide BigO, VerifyViewChange, Compose, LeaderOf, Selection.SameValidity, SortedValues, StoredInv, Received,
         ValidViewChanges;
    var all := WithOwnViewChange(s, vc);
    ReceivedStored(s, vc);
    var f := (r: ViewChangeReq) => VerifyViewChange(t.cfg, r);
    ValidViewChangesIs(t.cfg, SortedValues(all));
    CountValues(f, all);
    forall p | p in Received(s, vc) && p != s.cfg.id
      ensures f(all[p])
    {
      ProofsOfMember(SortedValues(all), s.cfg.id, t.cfg.id, all[p]);
      SameVerdict(s.cfg, t.cfg, all[p]);
    }
    WhereAll(f, Received(s, vc), s.cfg.id, Compose(s, vc.data.view));
  }

  /** Adding the value of k to a map whose other values all pass. */
  lemma WhereAll<T>(f: T -> bool, m: map<int, T>, k: int, v: T)
    requires forall p | p in m && p != k :: f(m[p])
    ensures |Where(f, m[k := v])| == |m| - (if k in m then 1 else 0) + (if f(v) then 1 else 0)
  {
    var rest := m.Keys - {k};
    assert |m| == |m.Keys| && |rest| == |m.Keys| - (if k in m then 1 else 0);
    if f(v) {
      SameSet(Where(f, m[k := v]), rest + {k});
    } else {
      SameSet(Where(f, m[k := v]), rest);
    }
  }

  /** What is announced for slot n as replica `me` would select it: the context of a highest-view pre-prepare among
      the proofs it accepts, or the NOP exactly when it accepts none. */
  ghost predicate SelectedFor(me: int, f: nat, vcs: seq<ViewChangeReq>, n: int, c: Context) {
    var stable, ps := Selection.MaxStable(vcs), Selection.Proofs(vcs);
    if exists p :: p in ps && Selection.Accepted(me, f, stable, p) && p.prePrepare.data.seqNum == n
    then exists p :: Selection.IsHighest(me, f, stable, ps, n, p) && c == p.prePrepare.data
    else c == NOP
  }

  /** Whatever NEW-VIEW a replica accepts, from whomever, announces for every slot that the attached view changes
      reach a highest-view context that the replica itself accepts as prepared, or the NOP when it accepts none;
      the replica enters the view and signs everything announced. */
  lemma AcceptedHasPrefix(t: State, nv: NewViewReq)
    requires NewViewReadable(t, nv) && NewViewAccepted(t, nv)
    ensures |BigO(t.cfg, nv.vproofs)| <= |nv.prePrepares|
    ensures forall i | 0 <= i < |BigO(t.cfg, nv.vproofs)| ::
              SelectedFor(t.cfg.id, t.cfg.f, nv.vproofs, Selection.MaxStable(nv.vproofs) + 1 + i,
                          nv.prePrepares[i].data)
    ensures ProcessNewView(t, nv).view == nv.view && ProcessNewView(t, nv).mode == Normal
    ensures Revotes(nv.prePrepares) <= ProcessNewView(t, nv).signed
  {
    hide BigO, ValidViewChanges, SignedBySelection, RevoteOuts, BySender, SelectedFor, Everyone;
    forall i | 0 <= i < |BigO(t.cfg, nv.vproofs)|
      ensures SelectedFor(t.cfg.id, t.cfg.f, nv.vproofs, Selection.MaxStable(nv.vproofs) + 1 + i,
                          nv.prePrepares[i].data)
    {
      SelectedIs(t, nv.vproofs, i);
    }
  }

  lemma SelectedIs(t: State, vcs: seq<ViewChangeReq>, i: nat)
    requires i < |BigO(t.cfg, vcs)|
    ensures SelectedFor(t.cfg.id, t.cfg.f, vcs, Selection.MaxStable(vcs) + 1 + i, BigO(t.cfg, vcs)[i].data)
  {
    hide Selection.MaxSeq, Selection.MaxStable, Selection.Proofs, Selection.Accepted, Selection.IsHighest, Everyone;
    Selection.BigOSelects(t.cfg.id, t.cfg.f, Everyone(t.cfg), vcs, Selection.MaxStable(vcs) + 1 + i);
  }
}
