/** A run in which a replica commits a slot on the fast path and then composes a view change that no replica accepts.
    Every message in it is one that its sender sent. */
module FastPath {
  import opened Messages
  import opened Accounts
  import opened Quorum
  import opened ReplicaState
  import opened OneView
  import opened Agreement
  import opened ViewChanges
  import opened Handover
  import opened Carryover
  import opened Scenario
  import opened Honest
  import CheckpointText

  const START := map["A" := 10, "B" := 10]

  /** Replica p's announcement of the checkpoint of slot 0. */
  function Note(p: int, d: Digest): CheckpointReq {
    CheckpointReq(CheckpointData(0, d), Signature(p, true))
  }

  // ---- Checkpoint messages ----

  /** A first or second announcement of a recorded checkpoint is stored. */
  lemma NoteStored(s: State, p: int, d: Digest)
    requires s.stableSeq == -1 && 0 in s.checkpoints && s.checkpoints[0].digest == d && s.cfg.f == 1
    requires |s.checkpoints[0].proofs[p := Note(p, d)]| < 3
    ensures Enabled(s, OnCheckpoint(Note(p, d)))
    ensures var info := s.checkpoints[0];
            Next(s, OnCheckpoint(Note(p, d))) ==
            s.(checkpoints := s.checkpoints[0 := info.(proofs := info.proofs[p := Note(p, d)])])
  {
  }

  /** The third makes it stable and moves the window. */
  lemma NoteStable(s: State, p: int, d: Digest)
    requires s.stableSeq == -1 && 0 in s.checkpoints && s.checkpoints[0].digest == d && s.cfg.f == 1
    requires |s.checkpoints[0].proofs[p := Note(p, d)]| >= 3 && s.lastExecuted == 0 == s.low && 0 in s.slots
    ensures Enabled(s, OnCheckpoint(Note(p, d)))
    ensures var t := Next(s, OnCheckpoint(Note(p, d)));
            t == s.(stableSeq := 0, stableDigest := d, stableState := t.stableState,
                    stableProofs := s.checkpoints[0].proofs[p := Note(p, d)], checkpoints := t.checkpoints,
                    low := 1, high := s.cfg.k, index := t.index)
  {
    hide DigestsUpTo;
  }

  /** A replica that executed and announced slot 0, and has stored the notes of the given replicas. */
  ghost predicate Noted(s: State, id: int, from: set<int>) {
    Looks(s, id, 0, 0, 0) && s.cfg.step == 1 && s.slots.Keys == {0} && s.stableSeq == -1 && 0 in s.checkpoints &&
    s.checkpoints[0].proofs.Keys == from &&
    forall p | p in from :: s.checkpoints[0].proofs[p] == Note(p, s.checkpoints[0].digest)
  }

  lemma NotedMore(s: State, id: int, from: set<int>, p: int)
    requires Noted(s, id, from) && |from + {p}| < 3
    ensures Enabled(s, OnCheckpoint(Note(p, s.checkpoints[0].digest)))
    ensures var t := Next(s, OnCheckpoint(Note(p, s.checkpoints[0].digest)));
            Noted(t, id, from + {p}) && t.checkpoints[0].digest == s.checkpoints[0].digest && t.sent == s.sent &&
            t.view == s.view && t.slots == s.slots
  {
    hide Next, Enabled;
    var d, proofs := s.checkpoints[0].digest, s.checkpoints[0].proofs;
    assert proofs[p := Note(p, d)].Keys == from + {p};
    assert |proofs[p := Note(p, d)]| == |from + {p}|;
    NoteStored(s, p, d);
  }

  /** Slot 0 checkpointed and stable, on the notes of the given replicas. */
  ghost predicate Anchored(s: State, id: int, from: set<int>, current: int, last: int) {
    Looks(s, id, 1, current, last) && s.cfg.step == 1 && s.stableSeq == 0 && s.stableProofs.Keys == from &&
    forall p | p in from :: s.stableProofs[p] == Note(p, s.stableDigest)
  }

  lemma NotedStable(s: State, id: int, from: set<int>, p: int)
    requires Noted(s, id, from) && |from + {p}| >= 3
    ensures Enabled(s, OnCheckpoint(Note(p, s.checkpoints[0].digest)))
    ensures var t := Next(s, OnCheckpoint(Note(p, s.checkpoints[0].digest)));
            Anchored(t, id, from + {p}, 0, 0) && t.stableDigest == s.checkpoints[0].digest && t.sent == s.sent &&
            t.view == s.view && t.slots == s.slots
  {
    hide Next, Enabled;
    var d, proofs := s.checkpoints[0].digest, s.checkpoints[0].proofs;
    assert proofs[p := Note(p, d)].Keys == from + {p};
    assert |proofs[p := Note(p, d)]| == |from + {p}|;
    NoteStable(s, p, d);
  }

  lemma NoteStep(sys: Sys, p: int, e: Event) returns (sys': Sys)
    requires Runs(sys, 1) && 0 in sys.replicas && 0 in sys.replicas[0].checkpoints
    requires e == OnCheckpoint(Note(p, sys.replicas[0].checkpoints[0].digest)) && Enabled(sys.replicas[0], e)
    requires Next(sys.replicas[0], e).view == sys.replicas[0].view
    ensures Runs(sys', 1) && Only(sys, sys', 0) && sys'.replicas[0] == Next(sys.replicas[0], e)
  {
    hide Next, Enabled, Authentic, VotesOf, Typed, TypedLeads, TypedReachable;
    Unbinding(sys.replicas[0].cfg, VotesOf(sys), e);
    Harmless(sys, Move(0, e));
    StaysPut(sys, 1);
    sys' := TypedGo(sys, sys, 1, 0, e);
  }

  // ---- One slot on the fast path ----

  function Two(n: int, m: Message): map<int, Request> {
    map[0 := Vote(0, n, m)][2 := Vote(2, n, m)]
  }

  function Three(n: int, m: Message): map<int, Request> {
    Two(n, m)[3 := Vote(3, n, m)]
  }

  lemma ThreeStored(n: int, m: Message)
    ensures Stores(Three(n, m), n, m, {0, 2, 3}) && |Three(n, m)| == 3 && |{0, 2, 3}| == 3 && |{0, 2, 3} + {1}| == 4
    ensures map[][0 := Vote(0, n, m)] == map[0 := Vote(0, n, m)] && |map[0 := Vote(0, n, m)]| == 1
    ensures |Two(n, m)| == 2 && {0, 2, 3} + {1} == ALL
  {
    assert Three(n, m).Keys == {0, 2, 3} && |Three(n, m)| == |Three(n, m).Keys|;
    assert map[0 := Vote(0, n, m)].Keys == {0} && |map[0 := Vote(0, n, m)]| == |map[0 := Vote(0, n, m)].Keys|;
    assert Two(n, m).Keys == {0, 2} && |Two(n, m)| == |Two(n, m).Keys| && |{0, 2}| == 2;
  }

  /** The leader's commit certificate. */
  function Full(n: int, m: Message): ProofRequest {
    Call(1, n, m, Three(n, m))
  }

  lemma FullBacked(n: int, m: Message)
    ensures Backed(Full(n, m), n, m, ALL) && |ALL| == 4
  {
    hide Backed, Call, Stores, Three;
    ThreeStored(n, m);
    CallBacked(1, n, m, Three(n, m), {0, 2, 3});
  }

  predicate AllSigned(sys: Sys, n: int, m: Message) {
    sys.replicas.Keys == ALL && forall r | r in ALL :: Slot(n, m) in sys.replicas[r].signed
  }

  /** The first two backups acknowledge. */
  lemma TwoAcks(early: Sys, sys: Sys, n: int, m: Message) returns (sys': Sys)
    requires Past(early, sys, 1) && AllSigned(sys, n, m)
    requires Leading(sys.replicas[1], n, m, Entry0(n, m, PrePrepared, map[], map[]), multiset{})
    ensures Past(early, sys', 1) && Only(sys, sys', 1) && Touches(sys.replicas[1], sys'.replicas[1], n)
    ensures Leading(sys'.replicas[1], n, m, Entry0(n, m, Prepared, Two(n, m), map[]), multiset{n})
  {
    hide Past, Leading, Touches, Slot, Vote, Entry0;
    ThreeStored(n, m);
    var sys1 := AckStep(early, sys, 1, n, m, PrePrepared, map[], multiset{}, 0);
    sys' := AckStep(early, sys1, 1, n, m, PrePrepared, map[0 := Vote(0, n, m)], multiset{}, 2);
    TouchesBoth(sys.replicas[1], sys1.replicas[1], sys'.replicas[1], n);
  }

  /** All three acknowledge, the timer fires, and the leader commits and broadcasts the certificate. */
  lemma FastRound(early: Sys, sys: Sys, n: int, m: Message) returns (sys': Sys)
    requires Past(early, sys, 1) && AllSigned(sys, n, m)
    requires Leading(sys.replicas[1], n, m, Entry0(n, m, PrePrepared, map[], map[]), multiset{})
    ensures Past(early, sys', 1) && Only(sys, sys', 1) && Touches(sys.replicas[1], sys'.replicas[1], n)
    ensures Rests(sys'.replicas[1], n, m, Three(n, m)) && SendCommit(Full(n, m)) in sys'.replicas[1].sent
    ensures AllSigned(sys', n, m)
  {
    hide Past, Leading, Touches, Rests, Slot, Vote, Entry0, Call, Two;
    ThreeStored(n, m);
    var sys2 := TwoAcks(early, sys, n, m);
    var sys3 := AckStep(early, sys2, 1, n, m, Prepared, Two(n, m), multiset{n}, 3);
    TouchesBoth(sys.replicas[1], sys2.replicas[1], sys3.replicas[1], n);
    sys' := TimerStep(early, sys3, 1, n, m, Three(n, m));
    TouchesBoth(sys.replicas[1], sys3.replicas[1], sys'.replicas[1], n);
    StillSigned(sys.replicas[1], sys'.replicas[1], n, m);
  }

  lemma StillSigned(s: State, t: State, n: int, m: Message)
    requires Touches(s, t, n) && Slot(n, m) in s.signed
    ensures Slot(n, m) in t.signed
  {
  }

  // ---- The first slot ----

  /** A backup that has accepted slot 0 and nothing else. */
  ghost predicate Accepted0(s: State, r: int) {
    Backs(s, r, 0, -1, 0, ONE, PrePrepared) && s.slots.Keys == {0} && s.checkpoints == map[] && s.stableSeq == -1 &&
    s.balances == START && s.cfg.step == 1
  }

  lemma BeginFree(r: int)
    requires r in ALL
    ensures var s := Init(Four(r, 1));
            Free(s, r, 0, -1, 0) && s.slots.Keys == {} && s.checkpoints == map[] && s.stableSeq == -1 &&
            s.balances == START && s.cfg.step == 1
    ensures r == 1 ==> Idle(Init(Four(r, 1)), 0, ONE) && Init(Four(r, 1)).index.Keys == {}
  {
    hide Init;
    Fresh(r, 1);
    assert Init(Four(r, 1)).armed == multiset{} by { NoneArmed(r); }
  }

  lemma NoneArmed(r: int)
    ensures Init(Four(r, 1)).armed == multiset{}
  {
  }

  lemma AcceptFirst(sys: Sys, r: int, e: Entry) returns (sys': Sys)
    requires Runs(sys, 1) && r in {0, 2, 3} && sys.replicas[r] == Init(Four(r, 1))
    requires Leading(sys.replicas[1], 0, ONE, e, multiset{})
    ensures Runs(sys', 1) && Only(sys, sys', r) && Accepted0(sys'.replicas[r], r)
  {
    hide TypedReachable, TypedLeads, Leading, Init, Adds, Backs, Free;
    BeginFree(r);
    StaysPut(sys, 1);
    sys' := AcceptStep(sys, sys, 1, r, 0, -1, 0, ONE, e, multiset{});
    AddedKeys(sys.replicas[r], sys'.replicas[r], 0);
  }

  lemma AddedKeys(s: State, t: State, n: int)
    requires Adds(s, t, n)
    ensures t.slots.Keys == s.slots.Keys + {n} && t.cfg == s.cfg
  {
  }

  lemma SignedThere(s: State, r: int, t: State, e: Entry)
    requires Accepted0(s, r) && Leading(t, 0, ONE, e, multiset{})
    ensures Slot(0, ONE) in s.signed && Slot(0, ONE) in t.signed
  {
  }

  /** Slot 0 is proposed by the leader and accepted by every backup. */
  lemma FirstOpened() returns (sys: Sys)
    ensures Runs(sys, 1) && AllSigned(sys, 0, ONE)
    ensures Leading(sys.replicas[1], 0, ONE, Entry0(0, ONE, PrePrepared, map[], map[]), multiset{})
    ensures sys.replicas[1].index.Keys == {TransferDigest(ONE.data)} && sys.replicas[1].slots.Keys == {0}
    ensures forall r | r in {0, 2, 3} :: Accepted0(sys.replicas[r], r)
  {
    hide Runs, TypedLeads, Leading, Init, Adds, Idle, Free, Accepted0, Slot, AllSigned;
    var e := Entry0(0, ONE, PrePrepared, map[], map[]);
    var start := TypedBegin(1);
    RunsAll(start, 1);
    BeginFree(1);
    StaysPut(start, 1);
    sys := ProposeStep(start, start, 1, 0, ONE);
    AddedKeys(start.replicas[1], sys.replicas[1], 0);
    sys := AcceptFirst(sys, 0, e);
    sys := AcceptFirst(sys, 2, e);
    sys := AcceptFirst(sys, 3, e);
    SignedThere(sys.replicas[0], 0, sys.replicas[1], e);
    SignedThere(sys.replicas[2], 2, sys.replicas[1], e);
    SignedThere(sys.replicas[3], 3, sys.replicas[1], e);
    EverySigned(sys, 0, ONE);
  }

  /** The leader with slot 0 done. */
  ghost predicate Done0(s: State) {
    Rests(s, 0, ONE, Three(0, ONE)) && s.slots.Keys == {0} && s.index.Keys == {TransferDigest(ONE.data)} &&
    SendCommit(Full(0, ONE)) in s.sent
  }

  lemma FirstFast() returns (sys: Sys)
    ensures Runs(sys, 1) && AllSigned(sys, 0, ONE) && Done0(sys.replicas[1])
    ensures forall r | r in {0, 2, 3} :: Accepted0(sys.replicas[r], r)
  {
    hide Runs, TypedLeads, Leading, Accepted0, Slot, AllSigned, Rests, Touches, Full, Three;
    var first := FirstOpened();
    RunsAll(first, 1);
    StaysPut(first, 1);
    sys := FastRound(first, first, 0, ONE);
    TouchedKeys(first.replicas[1], sys.replicas[1], 0);
    assert {0} + {0} == {0};
  }

  lemma TouchedKeys(s: State, t: State, n: int)
    requires Touches(s, t, n)
    ensures t.slots.Keys == s.slots.Keys + {n} && t.index == s.index
  {
  }

  /** A backup that executed slot 0 has recorded its checkpoint and announced it. */
  ghost predicate Announces(s: State, r: int) {
    Noted(s, r, {}) && s.balances == Apply(START, ONE.data).balances && s.balances.Keys != {} &&
    s.checkpoints[0].digest == StateDigest(CheckpointText.Text(s.balances)) &&
    SendCheckpoint(Note(r, s.checkpoints[0].digest)) in s.sent
  }

  lemma LearnedAnnounces(s: State, t: State, r: int)
    requires Accepted0(s, r) && Learned(s, t, r, 0, 0, ONE)
    ensures Announces(t, r) && t.signed == s.signed
  {
    hide CheckpointText.Text, Apply, Looks;
  }

  lemma LearnFirst(sys: Sys, r: int) returns (sys': Sys)
    requires Runs(sys, 1) && AllSigned(sys, 0, ONE) && r in {0, 2, 3} && Accepted0(sys.replicas[r], r)
    ensures Runs(sys', 1) && AllSigned(sys', 0, ONE) && Only(sys, sys', r) && Announces(sys'.replicas[r], r)
  {
    hide Runs, TypedLeads, Backs, Slot, Full, Backed, Learned, Announces;
    FullBacked(0, ONE);
    StaysPut(sys, 1);
    sys' := LearnStep(sys, sys, 1, r, 0, -1, 0, ONE, Full(0, ONE), ALL);
    LearnedAnnounces(sys.replicas[r], sys'.replicas[r], r);
  }

  /** The backups execute slot 0 on the leader's certificate and announce its checkpoint. */
  lemma FirstExecuted() returns (sys: Sys)
    ensures Runs(sys, 1) && sys.replicas.Keys == ALL && Done0(sys.replicas[1])
    ensures forall r | r in {0, 2, 3} :: Announces(sys.replicas[r], r)
  {
    hide Runs, Accepted0, Done0, Announces, AllSigned;
    sys := FirstFast();
    RunsAll(sys, 1);
    sys := LearnFirst(sys, 0);
    sys := LearnFirst(sys, 2);
    sys := LearnFirst(sys, 3);
    RunsAll(sys, 1);
  }

  lemma SameDigest(s: State, r: int, t: State, q: int)
    requires Announces(s, r) && Announces(t, q)
    ensures s.checkpoints[0].digest == t.checkpoints[0].digest && Noted(s, r, {})
    ensures SendCheckpoint(Note(q, s.checkpoints[0].digest)) in t.sent
  {
    hide CheckpointText.Text, Apply, Noted;
  }

  lemma NotedHas(s: State, id: int, from: set<int>)
    requires Noted(s, id, from)
    ensures 0 in s.checkpoints
  {
  }

  lemma AnnouncesFree(s: State, r: int)
    requires Announces(s, r)
    ensures Noted(s, r, {}) && Free(s, r, 0, 0, 1) && s.slots.Keys == {0} && 0 in s.checkpoints
  {
    hide CheckpointText.Text, Apply;
  }

  lemma Counts()
    ensures {} + {0} == {0} && {0} + {2} == {0, 2} && {0, 2} + {3} == {0, 2, 3}
    ensures |{0}| < 3 && |{0, 2}| < 3 && |{0, 2, 3}| == 3
  {
  }

  /** The messages behind replica 0's stable checkpoint were sent by the replicas they name. */
  ghost predicate NotesSent(sys: Sys) {
    {0, 2, 3} <= sys.replicas.Keys &&
    forall p | p in sys.replicas[0].stableProofs.Keys && p in {0, 2, 3} ::
      SendCheckpoint(sys.replicas[0].stableProofs[p]) in sys.replicas[p].sent
  }

  lemma NotesAre(sys: Sys, d: Digest)
    requires sys.replicas.Keys == ALL && Anchored(sys.replicas[0], 0, {0, 2, 3}, 0, 0) &&
             sys.replicas[0].stableDigest == d
    requires SendCheckpoint(Note(0, d)) in sys.replicas[0].sent && SendCheckpoint(Note(2, d)) in sys.replicas[2].sent
    requires SendCheckpoint(Note(3, d)) in sys.replicas[3].sent
    ensures NotesSent(sys)
  {
    hide Looks, Note;
  }

  /** Replica 0 gets the announcements of the three backups. */
  lemma Collects(start: Sys) returns (sys: Sys)
    requires Runs(start, 1) && start.replicas.Keys == ALL && Noted(start.replicas[0], 0, {})
    ensures Runs(sys, 1) && Only(start, sys, 0) && Anchored(sys.replicas[0], 0, {0, 2, 3}, 0, 0)
    ensures 0 in start.replicas[0].checkpoints &&
            sys.replicas[0].stableDigest == start.replicas[0].checkpoints[0].digest
    ensures sys.replicas[0].sent == start.replicas[0].sent && sys.replicas[0].slots == start.replicas[0].slots
  {
    hide Runs, Next, Enabled, Noted, Note, Anchored;
    Counts();
    NotedHas(start.replicas[0], 0, {});
    var d := start.replicas[0].checkpoints[0].digest;
    NotedMore(start.replicas[0], 0, {}, 0);
    var sys1 := NoteStep(start, 0, OnCheckpoint(Note(0, d)));
    NotedHas(sys1.replicas[0], 0, {0});
    NotedMore(sys1.replicas[0], 0, {0}, 2);
    var sys2 := NoteStep(sys1, 2, OnCheckpoint(Note(2, d)));
    NotedHas(sys2.replicas[0], 0, {0, 2});
    NotedStable(sys2.replicas[0], 0, {0, 2}, 3);
    sys := NoteStep(sys2, 3, OnCheckpoint(Note(3, d)));
  }

  /** Replica 0 collects the three announcements, each as its sender sent it. */
  lemma FirstStable() returns (sys: Sys)
    ensures Runs(sys, 1) && sys.replicas.Keys == ALL && Done0(sys.replicas[1])
    ensures Anchored(sys.replicas[0], 0, {0, 2, 3}, 0, 0) && sys.replicas[0].slots.Keys == {0}
    ensures Free(sys.replicas[2], 2, 0, 0, 1) && Free(sys.replicas[3], 3, 0, 0, 1) && NotesSent(sys)
  {
    hide Runs, Free, Announces, Noted, Note, Done0, Anchored, NotesSent;
    var start := FirstExecuted();
    AnnouncesFree(start.replicas[0], 0);
    AnnouncesFree(start.replicas[2], 2);
    AnnouncesFree(start.replicas[3], 3);
    SameDigest(start.replicas[0], 0, start.replicas[0], 0);
    SameDigest(start.replicas[0], 0, start.replicas[2], 2);
    SameDigest(start.replicas[0], 0, start.replicas[3], 3);
    sys := Collects(start);
    NotesAre(sys, start.replicas[0].checkpoints[0].digest);
  }

  // ---- The second slot ----

  lemma DoneIdle(s: State)
    requires Done0(s)
    ensures Idle(s, 1, TWO)
  {
    hide Full, Three;
    assert TransferDigest(TWO.data) != TransferDigest(ONE.data);
  }

  lemma AnchoredFree(s: State)
    requires Anchored(s, 0, {0, 2, 3}, 0, 0) && s.slots.Keys == {0}
    ensures Free(s, 0, 1, 0, 1) && s.cfg.step == 1
  {
  }

  lemma AnchoredStays(s: State, t: State, last: int)
    requires Anchored(s, 0, {0, 2, 3}, 0, 0) && Looks(t, 0, 1, 1, last) && t.cfg == s.cfg
    requires t.stableSeq == s.stableSeq && t.stableDigest == s.stableDigest && t.stableProofs == s.stableProofs
    ensures Anchored(t, 0, {0, 2, 3}, 1, last)
  {
    hide Looks;
  }

  lemma AcceptSecond(sys: Sys, r: int, low: int, e: Entry) returns (sys': Sys)
    requires Runs(sys, 1) && r in {0, 2, 3} && Free(sys.replicas[r], r, low, 0, 1)
    requires Leading(sys.replicas[1], 1, TWO, e, multiset{})
    ensures Runs(sys', 1) && Only(sys, sys', r) && Slot(1, TWO) in sys'.replicas[r].signed
    ensures Backs(sys'.replicas[r], r, low, 0, 1, TWO, PrePrepared) && SameStable(sys.replicas[r], sys'.replicas[r])
    ensures sys'.replicas[r].cfg == sys.replicas[r].cfg
  {
    hide TypedReachable, TypedLeads, Leading, Adds, Backs, Free, Slot, SameStable;
    StaysPut(sys, 1);
    sys' := AcceptStep(sys, sys, 1, r, low, 0, 1, TWO, e, multiset{});
    AddedKeys(sys.replicas[r], sys'.replicas[r], 1);
    BacksLooks(sys'.replicas[r], r, low, 0, 1, TWO, PrePrepared);
  }

  /** Slot 1 is proposed by the leader and accepted by every backup. */
  lemma SecondOpened() returns (start: Sys, sys: Sys)
    ensures start.replicas.Keys == ALL && Anchored(start.replicas[0], 0, {0, 2, 3}, 0, 0) && Runs(sys, 1)
    ensures AllSigned(sys, 1, TWO) && SameStable(start.replicas[0], sys.replicas[0])
    ensures Leading(sys.replicas[1], 1, TWO, Entry0(1, TWO, PrePrepared, map[], map[]), multiset{})
    ensures Backs(sys.replicas[0], 0, 1, 0, 1, TWO, PrePrepared) && sys.replicas[0].cfg.step == 1
  {
    hide Runs, TypedLeads, Leading, Backs, Adds, Idle, Free, Slot, Done0, Anchored, SameStable, Note, Entry0, NotesSent,
         AllSigned;
    var e := Entry0(1, TWO, PrePrepared, map[], map[]);
    start := FirstStable();
    DoneIdle(start.replicas[1]);
    AnchoredFree(start.replicas[0]);
    StaysPut(start, 1);
    sys := ProposeStep(start, start, 1, 1, TWO);
    LeadingSigned(sys.replicas[1], 1, TWO, e);
    sys := AcceptSecond(sys, 0, 1, e);
    sys := AcceptSecond(sys, 2, 0, e);
    sys := AcceptSecond(sys, 3, 0, e);
    EverySigned(sys, 1, TWO);
  }

  lemma EverySigned(sys: Sys, n: int, m: Message)
    requires sys.replicas.Keys == ALL && Slot(n, m) in sys.replicas[0].signed && Slot(n, m) in sys.replicas[1].signed
    requires Slot(n, m) in sys.replicas[2].signed && Slot(n, m) in sys.replicas[3].signed
    ensures AllSigned(sys, n, m)
  {
    hide Slot;
  }

  lemma LeadingSigned(s: State, n: int, m: Message, e: Entry)
    requires Leading(s, n, m, e, multiset{})
    ensures Slot(n, m) in s.signed
  {
  }

  lemma LearnedLooks(s: State, t: State)
    requires Learned(s, t, 0, 1, 1, TWO)
    ensures Looks(t, 0, 1, 1, 1) && t.cfg == s.cfg && t.stableSeq == s.stableSeq && t.stableDigest == s.stableDigest
    ensures t.stableProofs == s.stableProofs && 1 in t.slots && t.slots[1].status == Executed
    ensures t.slots[1].prepares == s.slots[1].prepares
  {
    hide Apply, CheckpointText.Text;
  }

  lemma BacksOwn(s: State)
    requires Backs(s, 0, 1, 0, 1, TWO, PrePrepared)
    ensures 1 in s.slots && s.slots[1].prepares.Keys == {0}
  {
  }

  /** The leader commits slot 1 on the fast path, and replica 0 on the certificate it broadcasts. */
  lemma SecondCommitted() returns (sys: Sys)
    ensures Runs(sys, 1) && sys.replicas.Keys == ALL && Anchored(sys.replicas[0], 0, {0, 2, 3}, 1, 1)
    ensures HoldsCommitted(sys, 0, 1) && sys.replicas[0].slots[1].prepares.Keys == {0}
    ensures SendCommit(Full(1, TWO)) in sys.replicas[1].sent
  {
    hide Runs, TypedLeads, Leading, Backs, Touches, Slot, Anchored, Full, Backed, Learned, Rests, Three, Looks;
    var start, opened1 := SecondOpened();
    FullBacked(1, TWO);
    StaysPut(opened1, 1);
    var fast := FastRound(opened1, opened1, 1, TWO);
    BacksOwn(fast.replicas[0]);
    StaysPut(fast, 1);
    sys := LearnStep(fast, fast, 1, 0, 1, 0, 1, TWO, Full(1, TWO), ALL);
    LearnedLooks(fast.replicas[0], sys.replicas[0]);
    AnchoredStays(start.replicas[0], sys.replicas[0], 1);
  }

  lemma OneVerifiable(there: int, e: Entry)
    requires e.prepares.Keys == {0}
    ensures |VerifiableAt(there, e)| <= 1
  {
    SubsetSize(VerifiableAt(there, e), {0});
  }

  lemma ThreeMatch(s: State)
    requires Anchored(s, 0, {0, 2, 3}, 1, 1)
    ensures |Matching(s)| == 3 && s.stableSeq == 0 && s.low == 1
  {
    SameSet(Matching(s), {0, 2, 3});
    assert |{0, 2, 3}| == 3;
  }

  /** All four replicas are correct. Replica 0 has a stable checkpoint with three matching announcements, and committed
      slot 1 on the certificate that the leader broadcast when all three backups had acknowledged, without a second
      phase; it stores its own prepare only. Whatever view change it composes, no replica accepts it. */
  lemma FastPathFails() returns (sys: Sys)
    ensures Reachable(sys, Four(0, 1), ALL, ANYONE) && sys.replicas.Keys == ALL
    ensures sys.replicas[0].stableSeq == 0 && |Matching(sys.replicas[0])| == 3
    ensures SendCommit(Full(1, TWO)) in sys.replicas[1].sent
    ensures HoldsCommitted(sys, 0, 1) && |sys.replicas[0].slots[1].prepares| == 1
    ensures forall there, view :: !VerifyViewChange(Four(there, 1), Compose(sys.replicas[0], view))
  {
    hide Reachable, TypedReachable, Anchored, VerifyViewChange, Compose, Matching, VerifiableAt, Full;
    sys := SecondCommitted();
    TypedIsReachable(sys, 1);
    var s := sys.replicas[0];
    ThreeMatch(s);
    assert |s.slots[1].prepares| == |s.slots[1].prepares.Keys|;
    forall there: int, view: int
      ensures !VerifyViewChange(Four(there, 1), Compose(s, view))
    {
      OneVerifiable(there, s.slots[1]);
      ComposedVerifies(sys, Four(0, 1), ALL, ANYONE, 0, there, view);
      assert Four(0, 1).(id := there) == Four(there, 1);
    }
  }
}
