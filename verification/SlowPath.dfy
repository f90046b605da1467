/** A run in which slots 0 and 1 commit on the slow path, every voter keeps them, and the selection loses both: slot 0
    although a later slot is proved, and slot 1 because none is. */
module SlowPath {
  import opened Messages
  import opened Quorum
  import opened ReplicaState
  import opened Change
  import opened Window
  import opened OneView
  import opened Agreement
  import opened ViewChanges
  import opened Survival
  import opened Carryover
  import opened Scenario
  import opened Honest
  import Selection

  const STEP := 10

  // ---- One slot, from proposal to the third commit vote ----

  /** The leader and two backups are ready for slot n and request m; so far they hold the given slots, with MACs good
      for everyone. */
  ghost predicate Between(sys: Sys, n: int, m: Message, slots: set<int>) {
    Runs(sys, STEP) && Idle(sys.replicas[1], n, m) && Free(sys.replicas[0], 0, 0, -1, n) &&
    Free(sys.replicas[2], 2, 0, -1, n) && forall r | r in {0, 1, 2} :: GoodLog(sys.replicas[r], slots)
  }

  predicate GoodLog(s: State, slots: set<int>) {
    s.slots.Keys == slots && s.stableSeq == -1 && (forall k | k in slots :: s.slots[k].prePrepare.data.seqNum == k) &&
    forall k | k in slots :: forall p | p in s.slots[k].prepares :: s.slots[k].prepares[p].sig.validFor == ALL
  }

  function Both(n: int, m: Message): map<int, Request> {
    map[0 := Vote(0, n, m), 2 := Vote(2, n, m)]
  }

  lemma BothStored(n: int, m: Message)
    ensures Stores(Both(n, m), n, m, {0, 2}) && |Both(n, m)| == 2 && |{0, 2}| == 2
    ensures map[][0 := Vote(0, n, m)][2 := Vote(2, n, m)] == Both(n, m) && |map[][0 := Vote(0, n, m)]| == 1
  {
    assert Both(n, m).Keys == {0, 2} && |Both(n, m)| == |Both(n, m).Keys|;
  }

  /** What was added to each replica's log since `sys`. */
  ghost predicate AllAdd(sys: Sys, sys': Sys, n: int) {
    sys.replicas.Keys == ALL == sys'.replicas.Keys &&
    forall r | r in {0, 1, 2} :: Adds(sys.replicas[r], sys'.replicas[r], n)
  }

  lemma Opened1(early: Sys, sys: Sys, n: int, m: Message, slots: set<int>) returns (sys': Sys)
    requires Between(sys, n, m, slots) && Past(early, sys, STEP)
    ensures Past(early, sys', STEP) && AllAdd(sys, sys', n)
    ensures Leading(sys'.replicas[1], n, m, Entry0(n, m, PrePrepared, map[], map[]), multiset{})
    ensures sys'.replicas[1].index.Keys == sys.replicas[1].index.Keys + {TransferDigest(m.data)}
    ensures Backs(sys'.replicas[0], 0, 0, -1, n, m, PrePrepared) && Backs(sys'.replicas[2], 2, 0, -1, n, m, PrePrepared)
  {
    hide Runs, TypedLeads, Leading, Backs, Touches, SameStable, Free, GoodLog;
    RunsAll(sys, STEP);
    var e := Entry0(n, m, PrePrepared, map[], map[]);
    sys' := ProposeStep(early, sys, STEP, n, m);
    sys' := AcceptStep(early, sys', STEP, 0, 0, -1, n, m, e, multiset{});
    sys' := AcceptStep(early, sys', STEP, 2, 0, -1, n, m, e, multiset{});
  }

  lemma BacksSigned(s: State, id: int, low: int, last: int, n: int, m: Message, status: Status)
    requires Backs(s, id, low, last, n, m, status)
    ensures Slot(n, m) in s.signed
  {
  }

  /** A further step of replica r on slot n. */
  lemma AddedFurther(sys: Sys, mid: Sys, sys': Sys, n: int, r: int)
    requires AllAdd(sys, mid, n) && r in {0, 1, 2} && Only(mid, sys', r) &&
             Touches(mid.replicas[r], sys'.replicas[r], n)
    ensures AllAdd(sys, sys', n) && sys'.replicas[1].index == mid.replicas[1].index
  {
    hide Adds, Touches;
    AddsThen(sys.replicas[r], mid.replicas[r], sys'.replicas[r], n);
  }

  lemma Acked(early: Sys, sys: Sys, n: int, m: Message, slots: set<int>) returns (sys': Sys)
    requires Between(sys, n, m, slots) && Past(early, sys, STEP)
    ensures Past(early, sys', STEP) && AllAdd(sys, sys', n)
    ensures Leading(sys'.replicas[1], n, m, Entry0(n, m, Prepared, Both(n, m), map[]), multiset{n})
    ensures sys'.replicas[1].index.Keys == sys.replicas[1].index.Keys + {TransferDigest(m.data)}
    ensures Backs(sys'.replicas[0], 0, 0, -1, n, m, PrePrepared) && Backs(sys'.replicas[2], 2, 0, -1, n, m, PrePrepared)
  {
    hide Past, Leading, Backs, Touches, Between, Slot, Vote, Adds, Both, Entry0;
    BothStored(n, m);
    var sys1 := Opened1(early, sys, n, m, slots);
    BacksSigned(sys1.replicas[0], 0, 0, -1, n, m, PrePrepared);
    BacksSigned(sys1.replicas[2], 2, 0, -1, n, m, PrePrepared);
    var sys2 := AckStep(early, sys1, STEP, n, m, PrePrepared, map[], multiset{}, 0);
    AddedFurther(sys, sys1, sys2, n, 1);
    sys' := AckStep(early, sys2, STEP, n, m, PrePrepared, map[][0 := Vote(0, n, m)], multiset{}, 2);
    AddedFurther(sys, sys2, sys', n, 1);
  }

  lemma Called(early: Sys, sys: Sys, n: int, m: Message, slots: set<int>) returns (sys': Sys)
    requires Between(sys, n, m, slots) && Past(early, sys, STEP)
    ensures Past(early, sys', STEP) && AllAdd(sys, sys', n)
    ensures Leading(sys'.replicas[1], n, m, Entry0(n, m, Prepared, Both(n, m), map[1 := Vote(1, n, m)]), multiset{})
    ensures sys'.replicas[1].index.Keys == sys.replicas[1].index.Keys + {TransferDigest(m.data)}
    ensures SendPrepare(Call(STEP, n, m, Both(n, m))) in sys'.replicas[1].sent
    ensures Backs(sys'.replicas[0], 0, 0, -1, n, m, PrePrepared) && Backs(sys'.replicas[2], 2, 0, -1, n, m, PrePrepared)
  {
    hide Past, Leading, Backs, Touches, Between, Call, Slot, Vote, Adds, Both, Entry0;
    BothStored(n, m);
    var sys1 := Acked(early, sys, n, m, slots);
    sys' := TimerStep(early, sys1, STEP, n, m, Both(n, m));
    AddedFurther(sys, sys1, sys', n, 1);
  }

  lemma Answering(early: Sys, sys: Sys, n: int, m: Message, slots: set<int>) returns (sys': Sys)
    requires Between(sys, n, m, slots) && Past(early, sys, STEP)
    ensures Past(early, sys', STEP) && AllAdd(sys, sys', n)
    ensures Leading(sys'.replicas[1], n, m, Entry0(n, m, Prepared, Both(n, m), map[1 := Vote(1, n, m)]), multiset{})
    ensures sys'.replicas[1].index.Keys == sys.replicas[1].index.Keys + {TransferDigest(m.data)}
    ensures Backs(sys'.replicas[0], 0, 0, -1, n, m, Prepared) && Backs(sys'.replicas[2], 2, 0, -1, n, m, Prepared)
  {
    hide Past, Leading, Backs, Touches, Between, Call, Slot, Vote, Adds, Both, Entry0, Backed, Stores;
    BothStored(n, m);
    CallBacked(STEP, n, m, Both(n, m), {0, 2});
    var p := Call(STEP, n, m, Both(n, m));
    var sys1 := Called(early, sys, n, m, slots);
    BacksSigned(sys1.replicas[0], 0, 0, -1, n, m, PrePrepared);
    BacksSigned(sys1.replicas[2], 2, 0, -1, n, m, PrePrepared);
    var sys2 := PrepareStep(early, sys1, STEP, 0, 0, -1, n, m, p, {0, 2});
    BacksSigned(sys2.replicas[0], 0, 0, -1, n, m, Prepared);
    AddedFurther(sys, sys1, sys2, n, 0);
    sys' := PrepareStep(early, sys2, STEP, 2, 0, -1, n, m, p, {0, 2});
    AddedFurther(sys, sys2, sys', n, 2);
  }

  /** The commit votes after the leader's own and replica 0's. */
  function Two(n: int, m: Message): map<int, Request> {
    map[1 := Vote(1, n, m)][0 := Vote(0, n, m)]
  }

  lemma VotesCounted(n: int, m: Message)
    ensures |Two(n, m)| == 2 && |Two(n, m)[2 := Vote(2, n, m)]| == 3
  {
    assert Two(n, m).Keys == {0, 1} && |Two(n, m)| == |Two(n, m).Keys|;
    assert Two(n, m)[2 := Vote(2, n, m)].Keys == {0, 1, 2};
    assert |Two(n, m)[2 := Vote(2, n, m)]| == |Two(n, m)[2 := Vote(2, n, m)].Keys|;
  }

  /** The leader has counted the first answer. */
  lemma Answered(early: Sys, sys: Sys, n: int, m: Message, slots: set<int>) returns (sys': Sys)
    requires Between(sys, n, m, slots) && Past(early, sys, STEP)
    ensures Past(early, sys', STEP) && AllAdd(sys, sys', n)
    ensures Leading(sys'.replicas[1], n, m, Entry0(n, m, Prepared, Both(n, m), Two(n, m)), multiset{})
    ensures sys'.replicas[1].index.Keys == sys.replicas[1].index.Keys + {TransferDigest(m.data)}
    ensures Backs(sys'.replicas[0], 0, 0, -1, n, m, Prepared) && Backs(sys'.replicas[2], 2, 0, -1, n, m, Prepared)
  {
    hide Past, Leading, Backs, Touches, Between, Slot, Vote, Adds, Both, Entry0;
    VotesCounted(n, m);
    var sys1 := Answering(early, sys, n, m, slots);
    sys' := CountStep(early, sys1, STEP, n, m, Both(n, m), map[1 := Vote(1, n, m)], 0, 0, -1);
    AddedFurther(sys, sys1, sys', n, 1);
  }

  function LastVote(n: int, m: Message): Move {
    Move(1, OnPrepareOk(Vote(2, n, m)))
  }

  /** A typed run reaches `sys`, where the move commits slot n for request m by PREPARE_OK votes. */
  ghost predicate SlowCommits(sys: Sys, n: int, m: Message) {
    Runs(sys, STEP) && Allowed(sys, ANYONE, LastVote(n, m)) && Typed(sys, 1, LastVote(n, m)) &&
    SlowCommit(sys.replicas[1], LastVote(n, m).event) && n in sys.replicas[1].slots &&
    sys.replicas[1].slots[n].prePrepare.data == Slot(n, m)
  }

  /** The whole round: a state in which the slot is about to commit, and what follows it. */
  lemma Round(early: Sys, sys: Sys, n: int, m: Message, slots: set<int>) returns (before: Sys, late: Sys)
    requires Between(sys, n, m, slots) && Past(early, sys, STEP) && n !in slots
    ensures SlowCommits(before, n, m) && late == Moved(before, LastVote(n, m)) && Past(early, before, STEP)
    ensures Past(early, late, STEP) && Rests(late.replicas[1], n, m, Both(n, m))
    ensures forall r | r in {0, 1, 2} :: GoodLog(late.replicas[r], slots + {n})
    ensures late.replicas[1].index.Keys == sys.replicas[1].index.Keys + {TransferDigest(m.data)}
    ensures Backs(late.replicas[0], 0, 0, -1, n, m, Prepared) && Backs(late.replicas[2], 2, 0, -1, n, m, Prepared)
  {
    hide Runs, TypedLeads, Leading, Backs, Touches, Slot, Vote, Adds, Both, Entry0, Two, Typed, Allowed, SlowCommit,
         Rests, GoodLog, Idle, Free, Moved;
    VotesCounted(n, m);
    before := Answered(early, sys, n, m, slots);
    CommitStep(early, before, STEP, n, m, Both(n, m), Two(n, m), 2, 0, -1);
    late := Moved(before, LastVote(n, m));
    AddedFurther(sys, before, late, n, 1);
    LogGrows(sys.replicas[0], late.replicas[0], n, slots) by { BacksMacs(late.replicas[0], 0, n, m); }
    LogGrows(sys.replicas[1], late.replicas[1], n, slots) by { RestsMacs(late.replicas[1], n, m); }
    LogGrows(sys.replicas[2], late.replicas[2], n, slots) by { BacksMacs(late.replicas[2], 2, n, m); }
  }

  predicate MacsAt(s: State, n: int) {
    n in s.slots && s.slots[n].prePrepare.data.seqNum == n &&
    forall p | p in s.slots[n].prepares :: s.slots[n].prepares[p].sig.validFor == ALL
  }

  lemma BacksMacs(s: State, id: int, n: int, m: Message)
    requires Backs(s, id, 0, -1, n, m, Prepared)
    ensures MacsAt(s, n)
  {
  }

  lemma RestsMacs(s: State, n: int, m: Message)
    requires Rests(s, n, m, Both(n, m))
    ensures MacsAt(s, n)
  {
  }

  lemma LogGrows(s: State, t: State, n: int, slots: set<int>)
    requires GoodLog(s, slots) && n !in slots && Adds(s, t, n) && MacsAt(t, n)
    ensures GoodLog(t, slots + {n})
  {
  }

  // ---- Two rounds ----

  lemma BeginBetween(sys: Sys)
    requires Runs(sys, STEP) && forall r | r in ALL :: sys.replicas[r] == Init(Four(r, STEP))
    ensures Between(sys, 0, ONE, {}) && sys.replicas[1].index.Keys == {}
  {
    hide Runs, Init;
    Fresh(0, STEP);
    Fresh(1, STEP);
    Fresh(2, STEP);
    FreshArmed();
  }

  lemma FreshArmed()
    ensures Init(Four(1, STEP)).armed == multiset{}
  {
  }

  lemma NextBetween(sys: Sys)
    requires Runs(sys, STEP) && Rests(sys.replicas[1], 0, ONE, Both(0, ONE))
    requires Backs(sys.replicas[0], 0, 0, -1, 0, ONE, Prepared) && Backs(sys.replicas[2], 2, 0, -1, 0, ONE, Prepared)
    requires forall r | r in {0, 1, 2} :: GoodLog(sys.replicas[r], {0})
    requires sys.replicas[1].index.Keys == {TransferDigest(ONE.data)}
    ensures Between(sys, 1, TWO, {0})
  {
    hide Runs;
    assert TransferDigest(TWO.data) != TransferDigest(ONE.data);
  }

  /** Both slots commit, one after the other. */
  lemma BothCommit() returns (early: Sys, mid: Sys, late: Sys)
    ensures SlowCommits(early, 0, ONE) && TypedLeads(Moved(early, LastVote(0, ONE)), late, Four(0, STEP), ANYONE)
    ensures SlowCommits(mid, 1, TWO) && late == Moved(mid, LastVote(1, TWO)) && Runs(late, STEP)
    ensures forall r | r in {0, 1, 2} :: GoodLog(late.replicas[r], {0, 1})
    ensures Backs(late.replicas[0], 0, 0, -1, 1, TWO, Prepared)
  {
    hide Runs, TypedLeads, Between, Rests, Backs, SlowCommits, Moved, GoodLog;
    var start := TypedBegin(STEP);
    BeginBetween(start);
    StaysPut(start, STEP);
    var late0;
    early, late0 := Round(start, start, 0, ONE, {});
    assert {} + {0} == {0} && {} + {TransferDigest(ONE.data)} == {TransferDigest(ONE.data)} && {0} + {1} == {0, 1};
    NextBetween(late0);
    StaysPut(late0, STEP);
    mid, late := Round(late0, late0, 1, TWO, {0});
  }

  // ---- The view changes collected from it ----

  /** The view changes for view 2 of replicas 0, 1 and 2. */
  function Asked(sys: Sys): seq<ViewChangeReq>
    requires {0, 1, 2} <= sys.replicas.Keys
  {
    [Compose(sys.replicas[0], 2), Compose(sys.replicas[1], 2), Compose(sys.replicas[2], 2)]
  }

  lemma ProofSource(s: State, p: PrepareProof) returns (k: int)
    requires p in Compose(s, 2).data.pproofs
    ensures k in s.slots && p == PrepareProof(s.slots[k].prePrepare, SortedValues(s.slots[k].prepares))
  {
    hide SortedValues, PreparedProofs;
    PreparedProofsAre(s, s.stableSeq + 1, s.low + s.cfg.k, p);
    k :| s.stableSeq + 1 <= k < s.low + s.cfg.k && k in s.slots && AtLeastPrepared(s.slots[k]) &&
         p == PrepareProof(s.slots[k].prePrepare, SortedValues(s.slots[k].prepares));
  }

  lemma SourceGood(s: State, k: int, r: Request, me: int)
    requires GoodLog(s, {0, 1}) && me in ALL && k in s.slots && r in SortedValues(s.slots[k].prepares)
    ensures me in r.sig.validFor
  {
    var j :| j in s.slots[k].prepares && s.slots[k].prepares[j] == r;
  }

  lemma ProofsOf(s: State, me: int)
    requires GoodLog(s, {0, 1}) && me in ALL
    ensures Compose(s, 2).data.lastCheckpoint.seqNum == -1
    ensures forall p | p in Compose(s, 2).data.pproofs ::
              p.prePrepare.data.seqNum in {0, 1} && forall r | r in p.prepares :: me in r.sig.validFor
  {
    hide SortedValues, PreparedProofs;
    forall p | p in Compose(s, 2).data.pproofs
      ensures p.prePrepare.data.seqNum in {0, 1}
      ensures forall r | r in p.prepares :: me in r.sig.validFor
    {
      var k := ProofSource(s, p);
      forall r | r in p.prepares
        ensures me in r.sig.validFor
      {
        SourceGood(s, k, r, me);
      }
    }
  }

  lemma ComposedSent(s: State)
    ensures SentBy(s, Compose(s, 2)) && Compose(s, 2).sig.signer == s.cfg.id
  {
    hide SortedValues, PreparedProofs;
  }

  lemma AskedFrom(sys: Sys, cfg: Config)
    requires {0, 1, 2} <= sys.replicas.Keys && Everyone(cfg) == ALL && cfg.f == 1
    requires forall r | r in {0, 1, 2} :: sys.replicas[r].cfg == cfg.(id := r)
    ensures Collected(sys, cfg, Asked(sys))
  {
    hide Compose, SentBy, Everyone;
    var vcs := Asked(sys);
    ComposedSent(sys.replicas[0]);
    ComposedSent(sys.replicas[1]);
    ComposedSent(sys.replicas[2]);
    assert vcs[0] in vcs && vcs[1] in vcs && vcs[2] in vcs;
    SameSet(Senders(vcs), {0, 1, 2});
    assert |{0, 1, 2}| == 3;
  }

  lemma AskedMacs(sys: Sys, me: int)
    requires {0, 1, 2} <= sys.replicas.Keys && me in ALL
    requires forall r | r in {0, 1, 2} :: GoodLog(sys.replicas[r], {0, 1})
    ensures MacsCheck(me, ALL, Asked(sys))
  {
    hide Compose, GoodLog;
    ProofsOf(sys.replicas[0], me);
    ProofsOf(sys.replicas[1], me);
    ProofsOf(sys.replicas[2], me);
  }

  /** The proofs name slots 0 and 1, both, and no checkpoint is stable. */
  ghost predicate Exposes(vcs: seq<ViewChangeReq>) {
    (forall v | v in vcs :: v.data.lastCheckpoint.seqNum == -1) &&
    (forall p | p in Selection.Proofs(vcs) :: p.prePrepare.data.seqNum in {0, 1}) &&
    exists p :: p in Selection.Proofs(vcs) && p.prePrepare.data.seqNum == 1
  }

  predicate HoldsOne(s: State) {
    1 in s.slots && AtLeastPrepared(s.slots[1]) && 1 < s.low + s.cfg.k
  }

  lemma AskedExposes(sys: Sys)
    requires {0, 1, 2} <= sys.replicas.Keys && forall r | r in {0, 1, 2} :: GoodLog(sys.replicas[r], {0, 1})
    requires HoldsOne(sys.replicas[0])
    ensures Exposes(Asked(sys))
  {
    hide Compose, SortedValues, Selection.Proofs, GoodLog, AtLeastPrepared;
    var vcs := Asked(sys);
    ProofsOf(sys.replicas[0], 0);
    ProofsOf(sys.replicas[1], 0);
    ProofsOf(sys.replicas[2], 0);
    forall p | p in Selection.Proofs(vcs)
      ensures p.prePrepare.data.seqNum in {0, 1}
    {
      Selection.ProofsAreAll(vcs, p);
    }
    var p := PrepareProof(sys.replicas[0].slots[1].prePrepare, SortedValues(sys.replicas[0].slots[1].prepares));
    ProofOfOne(sys.replicas[0]);
    assert vcs[0] in vcs && p in vcs[0].data.pproofs;
    Selection.ProofsAreAll(vcs, p);
  }

  lemma ProofOfOne(s: State)
    requires GoodLog(s, {0, 1}) && HoldsOne(s)
    ensures PrepareProof(s.slots[1].prePrepare, SortedValues(s.slots[1].prepares)) in Compose(s, 2).data.pproofs
    ensures s.slots[1].prePrepare.data.seqNum == 1
  {
    hide SortedValues, PreparedProofs;
    PreparedProofsAre(s, s.stableSeq + 1, s.low + s.cfg.k,
                      PrepareProof(s.slots[1].prePrepare, SortedValues(s.slots[1].prepares)));
  }

  lemma BacksHolds(s: State)
    requires Backs(s, 0, 0, -1, 1, TWO, Prepared)
    ensures HoldsOne(s)
  {
  }

  /** Whoever selects from such view changes selects nothing for either slot. */
  lemma NothingSelected(sys: Sys, cfg: Config, me: int, vcs: seq<ViewChangeReq>, n: int, m: Message)
    requires Kept(sys, cfg, me, vcs, Slot(n, m)) && Exposes(vcs) && n in {0, 1}
    ensures forall r | r in Selection.BigO(me, cfg.f, Everyone(cfg), vcs) :: r.data.seqNum != n
  {
    hide Selection.BigO, Everyone, GenuineProofs, Selection.Proofs;
  }

  lemma Survives(early: Sys, late: Sys, n: int, m: Message)
    requires SlowCommits(early, n, m) && TypedLeads(Moved(early, LastVote(n, m)), late, Four(0, STEP), ANYONE)
    requires 1 in early.replicas && Enabled(early.replicas[1], LastVote(n, m).event)
    ensures |Holders(late, ALL, Slot(n, m))| >= 2
    ensures forall me, vcs | Collected(late, Four(0, STEP), vcs) && MacsCheck(me, ALL, vcs) ::
              Kept(late, Four(0, STEP), me, vcs, Slot(n, m))
  {
    hide TypedReachable, TypedLeads, Allowed, Typed, SlowCommit, Moved, LeaderOf, Holders, Collected, MacsCheck, Kept,
         Slot;
    LeaderIsOne(STEP);
    SlowCommitSurvives(early, LastVote(n, m), late, Four(0, STEP), ALL, ANYONE);
    assert LastVote(n, m).event.r.data.seqNum == n by { VoteSlot(n, m); }
  }

  lemma VoteSlot(n: int, m: Message)
    ensures LastVote(n, m).event.r.data.seqNum == n
  {
  }

  /** Slots 0 and 1 commit and are both lost. All four replicas are correct, the leader commits both slots by PREPARE_OK
      votes in one typed run, and at the end two replicas hold each of them prepared. The view changes of replicas 0, 1
      and 2 prove both, no checkpoint is stable, and whoever selects from them selects nothing for slot 0,
      though a later
      slot is proved, nor for slot 1, the last slot proved. So the hypotheses of SlowCommitSurvives are met, and each of
      its two exceptions is needed. */
  lemma BothLost() returns (early: Sys, mid: Sys, late: Sys)
    ensures SlowCommits(early, 0, ONE) && 1 in early.replicas && Enabled(early.replicas[1], LastVote(0, ONE).event)
    ensures TypedLeads(Moved(early, LastVote(0, ONE)), late, Four(0, STEP), ANYONE)
    ensures SlowCommits(mid, 1, TWO) && 1 in mid.replicas && Enabled(mid.replicas[1], LastVote(1, TWO).event)
    ensures late == Moved(mid, LastVote(1, TWO)) && late.replicas.Keys == ALL
    ensures |Holders(late, ALL, Slot(0, ONE))| >= 2 && |Holders(late, ALL, Slot(1, TWO))| >= 2
    ensures Collected(late, Four(0, STEP), Asked(late)) && Exposes(Asked(late))
    ensures forall me | me in ALL :: MacsCheck(me, ALL, Asked(late)) &&
              forall r | r in Selection.BigO(me, 1, ALL, Asked(late)) :: r.data.seqNum != 0 && r.data.seqNum != 1
  {
    hide Runs, TypedLeads, Backs, SlowCommits, Moved, GoodLog, Holders, Collected, Exposes, MacsCheck, Asked, Kept,
         Selection.BigO, LeaderOf, Slot, Enabled, HoldsOne, Everyone;
    var cfg := Four(0, STEP);
    early, mid, late := BothCommit();
    LeaderIsOne(STEP);
    CommitEnabled(early, 0, ONE);
    CommitEnabled(mid, 1, TWO);
    RunsAll(late, STEP);
    StaysPut(late, STEP);
    Survives(early, late, 0, ONE);
    Survives(mid, late, 1, TWO);
    forall r | r in {0, 1, 2}
      ensures late.replicas[r].cfg == cfg.(id := r)
    {
      ConfigIs(late, STEP, r);
    }
    AskedFrom(late, cfg);
    BacksHolds(late.replicas[0]);
    AskedExposes(late);
    forall me | me in ALL
      ensures MacsCheck(me, ALL, Asked(late))
      ensures forall r | r in Selection.BigO(me, 1, ALL, Asked(late)) :: r.data.seqNum != 0 && r.data.seqNum != 1
    {
      AskedMacs(late, me);
      NothingSelected(late, cfg, me, Asked(late), 0, ONE);
      NothingSelected(late, cfg, me, Asked(late), 1, TWO);
    }
  }

  lemma CommitEnabled(sys: Sys, n: int, m: Message)
    requires SlowCommits(sys, n, m)
    ensures 1 in sys.replicas && Enabled(sys.replicas[1], LastVote(n, m).event)
  {
    hide Runs, Enabled, Next, Authentic, Typed, SlowCommit;
  }
}
