/** Runs of four correct replicas that exchange the messages they really send: what each handler does for one slot.

    Replica 1 leads. The runs are typed ones, so what is proved of those applies to every state reached here. */
module Honest {
  import opened Messages
  import opened Accounts
  import opened Quorum
  import opened ReplicaState
  import opened Change
  import opened Window
  import opened OneView
  import opened Agreement
  import opened Survival
  import opened Carryover
  import opened Scenario
  import CheckpointText

  const ALL := {0, 1, 2, 3}

  /** Replica id's vote for request m in slot n, which every replica can verify. */
  function Vote(id: int, n: int, m: Message): Request {
    Request(Slot(n, m), SignatureVec(id, ALL))
  }

  /** The leader's pre-prepare. */
  function Offer(n: int, m: Message): PrePrepareRequest {
    PrePrepareRequest(Vote(1, n, m), m)
  }

  lemma VoteSigned(id: int, step: nat, n: int, m: Message)
    ensures Sign(Four(id, step), Slot(n, m)) == Vote(id, n, m) && LeaderOf(Four(id, step), 1) == 1
    ensures Four(id, step).id == id && Four(id, step).f == 1 && !Four(id, step).byzantine
  {
    FourCluster(step, ALL) by { assert {0, 1, 2, 3} - ALL == {}; }
  }

  // ---- Typed moves ----

  ghost predicate Runs(sys: Sys, step: nat) {
    TypedReachable(sys, Four(0, step), ALL, ANYONE) && sys.replicas.Keys == ALL
  }

  lemma LeaderIsOne(step: nat)
    ensures LeaderOf(Four(0, step), 1) == 1 && 1 in ALL && Cluster(Four(0, step), ALL) && Everyone(Four(0, step)) == ALL
  {
    assert {0, 1, 2, 3} - ALL == {};
    FourCluster(step, ALL);
  }

  lemma TypedExtends(sys: Sys, mvs: seq<Move>, mv: Move)
    requires TypedRun(sys, ANYONE, 1, mvs) && Allowed(After(sys, ANYONE, mvs).value, ANYONE, mv)
    requires Typed(After(sys, ANYONE, mvs).value, 1, mv)
    ensures TypedRun(sys, ANYONE, 1, mvs + [mv])
    ensures After(sys, ANYONE, mvs + [mv]) == Some(Moved(After(sys, ANYONE, mvs).value, mv))
  {
    hide Allowed, Moved, Typed, After;
    Extends(sys, mvs, mv);
    assert (mvs + [mv])[..|mvs| + 1 - 1] == mvs;
  }

  /** A typed move from one state of a typed run to a later one. */
  lemma LeadsFurther(early: Sys, sys: Sys, step: nat, r: int, e: Event)
    requires TypedLeads(early, sys, Four(0, step), ANYONE) && r in sys.replicas && Enabled(sys.replicas[r], e)
    requires Authentic(sys.replicas[r].cfg, VotesOf(sys), ANYONE, e)
    requires Next(sys.replicas[r], e).view == sys.replicas[r].view && Typed(sys, 1, Move(r, e))
    ensures TypedLeads(early, At(sys, r, e), Four(0, step), ANYONE)
  {
    hide Next, Enabled, Authentic, VotesOf, After, Allowed, Moved, Typed, TypedRun, LeaderOf, Four;
    LeaderIsOne(step);
    var mvs :| TypedRun(early, ANYONE, 1, mvs) && After(early, ANYONE, mvs) == Some(sys);
    MoveTo(sys, r, e);
    TypedExtends(early, mvs, Move(r, e));
  }

  lemma StaysPut(sys: Sys, step: nat)
    ensures TypedLeads(sys, sys, Four(0, step), ANYONE)
  {
    hide LeaderOf;
    assert After(sys, ANYONE, []) == Some(sys) by { NoMoves(sys); }
    assert TypedRun(sys, ANYONE, LeaderOf(Four(0, step), 1), []);
  }

  lemma NoMoves(sys: Sys)
    ensures After(sys, ANYONE, []) == Some(sys)
  {
  }

  lemma TypedBegin(step: nat) returns (sys: Sys)
    ensures Runs(sys, step) && forall r | r in ALL :: sys.replicas[r] == Init(Four(r, step))
  {
    hide Init, Cluster, LeaderOf, TypedLeads;
    LeaderIsOne(step);
    sys := Start(Four(0, step), ALL);
    StaysPut(sys, step);
  }

  /** The state `sys'` that an event at replica r leads to, in a run that passed through `early`. */
  lemma TypedGo(early: Sys, sys: Sys, step: nat, r: int, e: Event) returns (sys': Sys)
    requires Runs(sys, step) && r in ALL && Enabled(sys.replicas[r], e)
    requires TypedLeads(early, sys, Four(0, step), ANYONE)
    requires Authentic(sys.replicas[r].cfg, VotesOf(sys), ANYONE, e)
    requires Next(sys.replicas[r], e).view == sys.replicas[r].view && Typed(sys, 1, Move(r, e))
    ensures Runs(sys', step) && Only(sys, sys', r) && sys'.replicas[r] == Next(sys.replicas[r], e)
    ensures TypedLeads(early, sys', Four(0, step), ANYONE)
  {
    hide Next, Enabled, Authentic, Cluster, VotesOf, Start, Typed, TypedLeads, LeaderOf, Four;
    LeadsFurther(early, sys, step, r, e);
    LeadsFurther(Start(Four(0, step), ALL), sys, step, r, e);
    sys' := At(sys, r, e);
  }

  lemma TypedIsReachable(sys: Sys, step: nat)
    requires Runs(sys, step)
    ensures Reachable(sys, Four(0, step), ALL, ANYONE)
  {
    hide After, TypedRun, Cluster, LeaderOf, Start;
    var mvs :| TypedRun(Start(Four(0, step), ALL), ANYONE, LeaderOf(Four(0, step), 1), mvs) &&
               After(Start(Four(0, step), ALL), ANYONE, mvs) == Some(sys);
  }

  // ---- What a step leaves alone ----

  /** From s to t only slot n changed, as far as prepares and proposals go; what was signed and sent stays so. */
  ghost predicate Touches(s: State, t: State, n: int) {
    t.cfg == s.cfg && t.view == s.view && t.index == s.index && t.stableSeq == s.stableSeq &&
    t.slots.Keys == s.slots.Keys + {n} &&
    (forall k | k in s.slots && k != n ::
       t.slots[k].prepares == s.slots[k].prepares && t.slots[k].prePrepare == s.slots[k].prePrepare) &&
    s.signed <= t.signed && forall o | o in s.sent :: o in t.sent
  }

  lemma TouchesBoth(s: State, t: State, u: State, n: int)
    requires Touches(s, t, n) && Touches(t, u, n)
    ensures Touches(s, u, n)
  {
  }

  /** As Touches, but the slot may be newly listed. */
  ghost predicate Adds(s: State, t: State, n: int) {
    Touches(s, t.(index := s.index), n)
  }

  lemma AddsThen(s: State, t: State, u: State, n: int)
    requires Adds(s, t, n) && Touches(t, u, n)
    ensures Adds(s, u, n) && u.index == t.index
  {
  }

  /** Writing one slot, with more signed and sent. */
  lemma PutTouches(s: State, t: State, n: int, e: Entry)
    requires t == s.(slots := s.slots[n := e], signed := t.signed, sent := t.sent, armed := t.armed,
                     current := t.current,
                     awaited := t.awaited)
    requires s.signed <= t.signed && forall o | o in s.sent :: o in t.sent
    ensures Touches(s, t, n)
  {
  }

  lemma RanTouches(s: State, n: int)
    requires n in s.slots
    ensures Touches(s, ExecutePending(s), n) && SameLog(s, ExecutePending(s), n)
  {
    hide ExecutePending;
    ExecutePendingRan(s);
    assert forall o | o in s.sent :: o in ExecutePending(s).sent by { Prefix(s.sent, ExecutePending(s).sent); }
  }

  lemma Prefix<T>(xs: seq<T>, ys: seq<T>)
    requires xs <= ys
    ensures forall x | x in xs :: x in ys
  {
    assert ys == xs + ys[|xs|..];
  }

  /** A pass of execution keeps the window and, but for status and result, the entry of slot n. */
  predicate SameLog(s: State, t: State, n: int)
    requires n in s.slots
  {
    n in t.slots && t.slots[n] == s.slots[n].(status := t.slots[n].status, result := t.slots[n].result) &&
    t.mode == s.mode && t.low == s.low && t.high == s.high && t.current == s.current && t.armed == s.armed
  }

  // ---- The leader ----

  /** The leader, with e in the last slot it proposed, n, for request m. */
  ghost predicate Leading(s: State, n: int, m: Message, e: Entry, armed: multiset<int>) {
    Steady(s) && s.cfg == Four(1, s.cfg.step) && s.low == 0 && s.high == 19 && s.current == n && 0 <= n <= 19 &&
    n in s.slots && s.slots[n] == e && e.prePrepare == Vote(1, n, m) && e.m == m && s.armed == armed &&
    Slot(n, m) in s.signed && SendPrePrepare(Offer(n, m)) in s.sent
  }

  function Entry0(n: int, m: Message, status: Status, prepares: map<int, Request>, commits: map<int, Request>): Entry {
    Entry(m, status, false, Vote(1, n, m), prepares, commits)
  }

  /** The leader between two slots: it has proposed up to n - 1 and does not know m. */
  ghost predicate Idle(s: State, n: int, m: Message) {
    Steady(s) && s.cfg == Four(1, s.cfg.step) && s.low == 0 && s.high == 19 && s.current == n - 1 && 0 <= n <= 19 &&
    n !in s.slots && s.armed == multiset{} && TransferDigest(m.data) !in s.index && m.sig.valid
  }

  lemma LeaderProposes(s: State, n: int, m: Message)
    requires Idle(s, n, m)
    ensures Enabled(s, OnTransfer(m))
    ensures var t := Next(s, OnTransfer(m));
            Leading(t, n, m, Entry0(n, m, PrePrepared, map[], map[]), multiset{}) && t.view == s.view &&
            t.index.Keys == s.index.Keys + {TransferDigest(m.data)} && Adds(s, t, n)
  {
    hide Next, Enabled, LeaderOf, Sign;
    VoteSigned(1, s.cfg.step, n, m);
    Proposed(s, m);
    assert Proposal(s, m) == Vote(1, n, m);
  }

  lemma AckIs(s: State, n: int, m: Message, e: Entry, armed: multiset<int>, id: int)
    requires Leading(s, n, m, e, armed)
    ensures AckOffered(s, Vote(id, n, m)) && n in s.slots && Present(s, n) && s.slots[n] == e &&
            AckMatches(e, Vote(id, n, m))
    ensures s.cfg.f == 1 && !s.cfg.byzantine && s.view == 1 && s.armed == armed
  {
    hide LeaderOf;
    VoteSigned(1, s.cfg.step, n, m);
  }

  lemma LeadsPut(s: State, n: int, m: Message, e: Entry, armed: multiset<int>, e': Entry, armed': multiset<int>)
    requires Leading(s, n, m, e, armed) && e'.prePrepare == Vote(1, n, m) && e'.m == m
    ensures var t := Put(s, n, e').(armed := armed');
            Leading(t, n, m, e', armed') && Touches(s, t, n)
    ensures armed' == armed ==> Put(s, n, e') == Put(s, n, e').(armed := armed)
  {
  }

  /** Acknowledgements; the second prepares the slot and starts the timer. */
  lemma LeaderAcks(s: State, n: int, m: Message, status: Status, prepares: map<int, Request>, armed: multiset<int>,
                   id: int)
    requires Leading(s, n, m, Entry0(n, m, status, prepares, map[]), armed)
    requires (status == PrePrepared && armed == multiset{}) || (status == Prepared && armed == multiset{n})
    ensures var e := OnPrePrepareOk(Vote(id, n, m));
            var after := prepares[id := Vote(id, n, m)];
            Enabled(s, e) && Next(s, e).view == s.view && Touches(s, Next(s, e), n) &&
            if status == Prepared || |after| >= 2
            then Leading(Next(s, e), n, m, Entry0(n, m, Prepared, after, map[]), multiset{n})
            else Leading(Next(s, e), n, m, Entry0(n, m, PrePrepared, after, map[]), multiset{})
  {
    hide LeaderOf, AckOffered, AckMatches, Present, Leading, Touches;
    var e, after := Entry0(n, m, status, prepares, map[]), prepares[id := Vote(id, n, m)];
    AckIs(s, n, m, e, armed, id);
    var e' := WithPrePrepareOk(s.cfg, e, Vote(id, n, m));
    assert e' == Entry0(n, m, if status == Prepared || |after| >= 2 then Prepared else PrePrepared, after, map[]);
    LeadsPut(s, n, m, e, armed, e', multiset{n});
    LeadsPut(s, n, m, e, armed, e', multiset{});
    assert multiset{} + multiset{n} == multiset{n};
  }

  /** The certificate the leader's timer sends. */
  function Call(step: nat, n: int, m: Message, prepares: map<int, Request>): ProofRequest {
    PrepareProofOf(Four(1, step), Entry0(n, m, Prepared, prepares, map[]))
  }

  lemma TimerIs(s: State, n: int, m: Message, e: Entry)
    requires Leading(s, n, m, e, multiset{n})
    ensures Enabled(s, OnOptimisticTimer(n)) && s.mode == Normal && s.slots[n] == e && s.view == 1
    ensures s.armed - multiset{n} == multiset{} && s.cfg == Four(1, s.cfg.step)
    ensures Sign(s.cfg, Slot(n, m)) == Vote(1, n, m) && e.prePrepare.data == Slot(n, m)
  {
    hide LeaderOf, Sign;
    VoteSigned(1, s.cfg.step, n, m);
  }

  lemma LeadsSent(s: State, n: int, m: Message, e: Entry, o: Output)
    requires Leading(s, n, m, e, multiset{})
    ensures var t := s.(signed := s.signed + {Slot(n, m)}, sent := s.sent + [o]);
            Leading(t, n, m, e, multiset{}) && Touches(s, t, n) && o in t.sent
  {
  }

  /** The timer with two of three acknowledgements: the leader votes itself and calls for the second phase. */
  lemma LeaderCalls(s: State, n: int, m: Message, prepares: map<int, Request>)
    requires Leading(s, n, m, Entry0(n, m, Prepared, prepares, map[]), multiset{n}) && |prepares| == 2
    ensures Enabled(s, OnOptimisticTimer(n))
    ensures var t := Next(s, OnOptimisticTimer(n));
            t.view == s.view &&
            Leading(t, n, m, Entry0(n, m, Prepared, prepares, map[1 := Vote(1, n, m)]), multiset{}) &&
            SendPrepare(Call(s.cfg.step, n, m, prepares)) in t.sent && Touches(s, t, n)
  {
    hide Leading, Touches, Sign, PrepareProofOf, Slot, Present;
    var e := Entry0(n, m, Prepared, prepares, map[]);
    TimerIs(s, n, m, e);
    var e' := WithOwnCommit(s.cfg, e);
    assert e' == Entry0(n, m, Prepared, prepares, map[1 := Vote(1, n, m)])
           by { OwnCommitIs(s.cfg.step, n, m, prepares); }
    LeadsPut(s, n, m, e, multiset{n}, e', multiset{});
    var u := Put(s, n, e').(armed := multiset{});
    var o := SendPrepare(Call(s.cfg.step, n, m, prepares));
    LeadsSent(u, n, m, e', o);
    var t := u.(signed := u.signed + {Slot(n, m)}, sent := u.sent + [o]);
    TouchesBoth(s, u, t, n);
    assert Next(s, OnOptimisticTimer(n)) == t by { TimerNext(s, n, m, e); }
  }

  lemma OwnCommitIs(step: nat, n: int, m: Message, prepares: map<int, Request>)
    requires |prepares| == 2
    ensures WithOwnCommit(Four(1, step), Entry0(n, m, Prepared, prepares, map[])) ==
            Entry0(n, m, Prepared, prepares, map[1 := Vote(1, n, m)])
  {
    hide Sign, Slot;
    VoteSigned(1, step, n, m);
  }

  lemma TimerNext(s: State, n: int, m: Message, e: Entry)
    requires Leading(s, n, m, e, multiset{n}) && Enabled(s, OnOptimisticTimer(n)) && s.armed - multiset{n} == multiset{}
    requires s.mode == Normal && s.slots[n] == e && e.prePrepare.data == Slot(n, m) && |e.prepares| == 2 && s.cfg.f == 1
    ensures var u := Put(s, n, WithOwnCommit(s.cfg, e)).(armed := multiset{});
            Next(s, OnOptimisticTimer(n)) ==
            u.(signed := u.signed + {Slot(n, m)}, sent := u.sent + [SendPrepare(PrepareProofOf(s.cfg, e))])
  {
    hide Leading, WithOwnCommit, PrepareProofOf, Slot, Present;
  }

  /** The leader after a slot: nothing armed, n the last slot. */
  ghost predicate Rests(s: State, n: int, m: Message, prepares: map<int, Request>) {
    Steady(s) && s.cfg == Four(1, s.cfg.step) && s.low == 0 && s.high == 19 && s.current == n && 0 <= n <= 19 &&
    s.armed == multiset{} && n in s.slots && s.slots[n].prepares == prepares && s.slots[n].prePrepare == Vote(1, n, m)
  }

  lemma PassRests(s: State, n: int, m: Message, e: Entry, o: Output)
    requires Leading(s, n, m, e, multiset{})
    ensures Rests(ExecutePending(s), n, m, e.prepares) && Touches(s, ExecutePending(s), n)
    ensures Rests(Emit(ExecutePending(s), o), n, m, e.prepares) && Touches(s, Emit(ExecutePending(s), o), n)
  {
    hide ExecutePending;
    RanTouches(s, n);
  }

  lemma FastCommitIs(step: nat, n: int, m: Message, prepares: map<int, Request>)
    requires |prepares| == 3
    ensures var e := Entry0(n, m, Prepared, prepares, map[]);
            WithOwnCommit(Four(1, step), e).prepares == prepares && WithOwnCommit(Four(1, step), e).m == m &&
            WithOwnCommit(Four(1, step), e).prePrepare == Vote(1, n, m) && AllPrepared(Four(1, step), e)
  {
    hide Sign, Slot;
  }

  lemma FastNext(s: State, n: int, m: Message, e: Entry)
    requires Leading(s, n, m, e, multiset{n}) && Enabled(s, OnOptimisticTimer(n)) && s.armed - multiset{n} == multiset{}
    requires s.mode == Normal && s.slots[n] == e && e.prePrepare.data == Slot(n, m) && AllPrepared(s.cfg, e)
    ensures var u := Put(s, n, WithOwnCommit(s.cfg, e)).(armed := multiset{});
            Next(s, OnOptimisticTimer(n)) ==
            ExecutePending(u.(signed := u.signed + {Slot(n, m)},
                              sent := u.sent + [SendCommit(PrepareProofOf(s.cfg, e))]))
  {
    hide Leading, WithOwnCommit, PrepareProofOf, Slot, Present, AllPrepared, ExecutePending;
  }

  /** The timer with all three acknowledgements: the leader commits at once and broadcasts the certificate. */
  lemma LeaderFast(s: State, n: int, m: Message, prepares: map<int, Request>)
    requires Leading(s, n, m, Entry0(n, m, Prepared, prepares, map[]), multiset{n}) && |prepares| == 3
    ensures Enabled(s, OnOptimisticTimer(n))
    ensures var t := Next(s, OnOptimisticTimer(n));
            t.view == s.view && Rests(t, n, m, prepares) && Touches(s, t, n) &&
            SendCommit(Call(s.cfg.step, n, m, prepares)) in t.sent
  {
    hide Leading, Touches, Sign, PrepareProofOf, Slot, Present, Next, Enabled, ExecutePending, AllPrepared,
         WithOwnCommit;
    var e := Entry0(n, m, Prepared, prepares, map[]);
    TimerIs(s, n, m, e);
    FastCommitIs(s.cfg.step, n, m, prepares);
    var e' := WithOwnCommit(s.cfg, e);
    LeadsPut(s, n, m, e, multiset{n}, e', multiset{});
    var u := Put(s, n, e').(armed := multiset{});
    var o := SendCommit(Call(s.cfg.step, n, m, prepares));
    LeadsSent(u, n, m, e', o);
    var v := u.(signed := u.signed + {Slot(n, m)}, sent := u.sent + [o]);
    TouchesBoth(s, u, v, n);
    PassRests(v, n, m, e', o);
    TouchesBoth(s, v, ExecutePending(v), n);
    FastNext(s, n, m, e);
    assert o in ExecutePending(v).sent && ExecutePending(v).view == s.view by { StaysSent(s, v, n, o); }
  }

  lemma StaysSent(s: State, v: State, n: int, o: Output)
    requires Touches(s, v, n) && n in v.slots && o in v.sent
    ensures o in ExecutePending(v).sent && ExecutePending(v).view == s.view
  {
    hide ExecutePending;
    RanTouches(v, n);
  }

  /** A PREPARE_OK that is not yet the third commit vote. */
  lemma LeaderCounts(s: State, n: int, m: Message, prepares: map<int, Request>, commits: map<int, Request>, id: int)
    requires Leading(s, n, m, Entry0(n, m, Prepared, prepares, commits), multiset{}) &&
             |commits[id := Vote(id, n, m)]| < 3
    ensures var e := OnPrepareOk(Vote(id, n, m));
            Enabled(s, e) && Next(s, e).view == s.view && Touches(s, Next(s, e), n) &&
            Leading(Next(s, e), n, m, Entry0(n, m, Prepared, prepares, commits[id := Vote(id, n, m)]), multiset{})
  {
    hide LeaderOf, AckOffered, AckMatches, Present, Leading, Touches;
    var e := Entry0(n, m, Prepared, prepares, commits);
    AckIs(s, n, m, e, multiset{}, id);
    var e' := WithPrepareOk(s.cfg, e, Vote(id, n, m));
    assert e' == Entry0(n, m, Prepared, prepares, commits[id := Vote(id, n, m)]);
    LeadsPut(s, n, m, e, multiset{}, e', multiset{});
  }

  /** The third commits the slot. */
  lemma LeaderCommits(s: State, n: int, m: Message, prepares: map<int, Request>, commits: map<int, Request>, id: int)
    requires Leading(s, n, m, Entry0(n, m, Prepared, prepares, commits), multiset{}) &&
             |commits[id := Vote(id, n, m)]| >= 3
    ensures var e := OnPrepareOk(Vote(id, n, m));
            Enabled(s, e) && SlowCommit(s, e) && Next(s, e).view == s.view && Touches(s, Next(s, e), n) &&
            Rests(Next(s, e), n, m, prepares)
  {
    hide LeaderOf, AckOffered, AckMatches, Present, Leading, Touches, Rests, ExecutePending, CommitProof;
    var e := Entry0(n, m, Prepared, prepares, commits);
    AckIs(s, n, m, e, multiset{}, id);
    var e' := WithPrepareOk(s.cfg, e, Vote(id, n, m));
    assert e' == Entry0(n, m, Committed, prepares, commits[id := Vote(id, n, m)]);
    LeadsPut(s, n, m, e, multiset{}, e', multiset{});
    var o := SendCommit(CommitProof(e'));
    PassRests(Put(s, n, e'), n, m, e', o);
    TouchesBoth(s, Put(s, n, e'), Emit(ExecutePending(Put(s, n, e')), o), n);
    assert Emit(ExecutePending(Put(s, n, e')), o).view == 1
           by { RestsView(Emit(ExecutePending(Put(s, n, e')), o), n, m, prepares); }
  }

  lemma RestsView(s: State, n: int, m: Message, prepares: map<int, Request>)
    requires Rests(s, n, m, prepares)
    ensures s.view == 1
  {
  }

  // ---- A backup ----

  ghost predicate GoodMacs(e: Entry) {
    forall p | p in e.prepares :: e.prepares[p].sig.validFor == ALL
  }

  /** A backup whose last slot is n, with its window and the last slot it executed. */
  ghost predicate Backs(s: State, id: int, low: int, last: int, n: int, m: Message, status: Status) {
    Steady(s) && s.cfg == Four(id, s.cfg.step) && s.low == low && s.high == low + 19 && s.current == n &&
    low <= n <= low + 19 && s.lastExecuted == last && n in s.slots && s.slots[n].status == status &&
    s.slots[n].prePrepare == Vote(1, n, m) && s.slots[n].m == m && Slot(n, m) in s.signed && GoodMacs(s.slots[n]) &&
    (status == PrePrepared ==> s.slots[n].prepares == map[id := Vote(id, n, m)] && s.slots[n].commits == map[]) &&
    (status == Prepared ==> SendPrepareOk(1, Vote(id, n, m)) in s.sent)
  }

  lemma BackupAccepts(s: State, id: int, low: int, last: int, n: int, m: Message)
    requires Steady(s) && s.cfg == Four(id, s.cfg.step) && s.low == low && s.high == low + 19 && s.lastExecuted == last
    requires n !in s.slots && s.current <= n && low <= n <= low + 19 && m.sig.valid
    ensures var e := OnPrePrepare(Offer(n, m));
            Enabled(s, e) && Next(s, e).view == s.view && Backs(Next(s, e), id, low, last, n, m, PrePrepared) &&
            Adds(s, Next(s, e), n) && SameStable(s, Next(s, e)) &&
            Next(s, e).balances == s.balances
  {
    hide Next, Enabled, Everyone, LeaderOf, Sign, Opened;
    VoteSigned(id, s.cfg.step, n, m);
    Accepts(s, Offer(n, m));
  }

  /** A certificate for slot n with good MACs: its signers besides the backup's own bring it to 2f. */
  ghost predicate Backed(p: ProofRequest, n: int, m: Message, signers: set<int>) {
    p.data == Slot(n, m) && (forall sig | sig in p.sigs :: sig.validFor == ALL && sig.signer in signers) &&
    forall id | id in ALL :: Countable(id, p.sigs) == signers
  }

  lemma BackupPrepares(s: State, id: int, low: int, last: int, n: int, m: Message, p: ProofRequest, signers: set<int>)
    requires Backs(s, id, low, last, n, m, PrePrepared) && id in signers && signers <= ALL && |signers| >= 2
    requires Backed(p, n, m, signers)
    ensures var e := OnPrepare(p);
            Enabled(s, e) && Next(s, e).view == s.view && Backs(Next(s, e), id, low, last, n, m, Prepared) &&
            Touches(s, Next(s, e), n)
  {
    hide Next, Enabled, Everyone, LeaderOf, Sign, Countable, WithPrepares;
    VoteSigned(id, s.cfg.step, n, m);
    assert s.slots[n].prepares.Keys == {id};
    assert s.slots[n].prepares.Keys + signers == signers;
    Certified(s, p);
    CountedMacs(s.cfg, s.slots[n], p);
    PutTouches(s, Next(s, OnPrepare(p)), n, WithPrepares(s.cfg, s.slots[n], p));
  }

  lemma CountedMacs(cfg: Config, e: Entry, p: ProofRequest)
    requires GoodMacs(e) && forall sig | sig in p.sigs :: sig.validFor == ALL
    ensures GoodMacs(WithPrepares(cfg, e, p))
  {
    hide AddProofs, Countable;
    AddProofsCounts(cfg.id, p.data, p.sigs, e.prepares);
  }

  // ---- Certificates ----

  /** The votes of the given replicas, as the leader stores them. */
  ghost predicate Stores(prepares: map<int, Request>, n: int, m: Message, ids: set<int>) {
    prepares.Keys == ids && forall p | p in ids :: prepares[p] == Vote(p, n, m)
  }

  lemma SigsBacked(n: int, m: Message, prepares: map<int, Request>, ids: set<int>, own: seq<SignatureVec>,
                   signers: set<int>)
    requires Stores(prepares, n, m, ids) && (own == [] || own == [SignatureVec(1, ALL)])
    requires signers == ids + if own == [] then {} else {1}
    ensures Backed(ProofRequest(Slot(n, m), SigsOf(SortedValues(prepares)) + own), n, m, signers)
  {
    hide SortedValues;
    var rs := SortedValues(prepares);
    var sigs := SigsOf(rs) + own;
    forall sig | sig in sigs
      ensures sig.validFor == ALL && sig.signer in signers
    {
      if sig !in own {
        var i :| 0 <= i < |rs| && rs[i].sig == sig;
        assert rs[i] in rs;
      }
    }
    forall id | id in ALL
      ensures Countable(id, sigs) == signers
    {
      forall k | k in signers
        ensures k in Countable(id, sigs)
      {
        if k in ids {
          var i :| 0 <= i < |rs| && rs[i] == prepares[k];
          assert sigs[i] in sigs && sigs[i].signer == k;
        } else {
          assert own[0] in sigs && own[0].signer == k;
        }
      }
      SameSet(Countable(id, sigs), signers);
    }
  }

  lemma CallIs(step: nat, n: int, m: Message, prepares: map<int, Request>)
    ensures Call(step, n, m, prepares) ==
            ProofRequest(Slot(n, m),
                         SigsOf(SortedValues(prepares)) + if |prepares| == 3 then [SignatureVec(1, ALL)] else [])
  {
    hide SortedValues, Sign, Slot;
    VoteSigned(1, step, n, m);
  }

  lemma CallBacked(step: nat, n: int, m: Message, prepares: map<int, Request>, ids: set<int>)
    requires Stores(prepares, n, m, ids) && (|ids| == 2 || |ids| == 3)
    ensures |prepares| == |ids|
    ensures |ids| == 2 ==> Backed(Call(step, n, m, prepares), n, m, ids)
    ensures |ids| == 3 ==> Backed(Call(step, n, m, prepares), n, m, ids + {1})
  {
    hide SortedValues, Sign, Slot, Backed, Vote, Call;
    CallIs(step, n, m, prepares);
    assert |prepares| == |prepares.Keys|;
    if |ids| == 2 {
      SigsBacked(n, m, prepares, ids, [], ids);
    } else {
      SigsBacked(n, m, prepares, ids, [SignatureVec(1, ALL)], ids + {1});
    }
  }

  // ---- Moves ----

  /** The run passed through `early`. */
  ghost predicate Past(early: Sys, sys: Sys, step: nat) {
    Runs(sys, step) && TypedLeads(early, sys, Four(0, step), ANYONE)
  }

  lemma ConfigIs(sys: Sys, step: nat, r: int)
    requires Runs(sys, step) && r in ALL
    ensures sys.replicas[r].cfg == Four(r, step) && sys.replicas[r].view == 1
  {
    hide SysInv, TypedReachable, HeldInv, LeaderOk, LeaderOf, Cast;
    TypedAlways(sys, Four(0, step), ALL, ANYONE);
    ConfigOf(sys, Four(0, step), ALL, ANYONE, r);
  }

  lemma Harmless(sys: Sys, mv: Move)
    requires 1 in sys.replicas && mv.replica in sys.replicas
    requires mv.event.OnTransfer? || mv.event.OnPrePrepareOk? || mv.event.OnPrepare? || mv.event.OnOptimisticTimer? ||
             mv.event.OnCheckpoint?
    ensures Typed(sys, 1, mv)
  {
  }

  lemma ProposeStep(early: Sys, sys: Sys, step: nat, n: int, m: Message) returns (sys': Sys)
    requires Past(early, sys, step) && Idle(sys.replicas[1], n, m)
    ensures Past(early, sys', step) && Only(sys, sys', 1)
    ensures var s, t := sys.replicas[1], sys'.replicas[1];
            Leading(t, n, m, Entry0(n, m, PrePrepared, map[], map[]), multiset{}) &&
            t.index.Keys == s.index.Keys + {TransferDigest(m.data)} && Adds(s, t, n)
  {
    hide Next, Enabled, Authentic, VotesOf, Runs, TypedLeads, Leading, Typed, Touches, Four;
    RunsAll(sys, step);
    LeaderProposes(sys.replicas[1], n, m);
    Unbinding(sys.replicas[1].cfg, VotesOf(sys), OnTransfer(m));
    Harmless(sys, Move(1, OnTransfer(m)));
    sys' := TypedGo(early, sys, step, 1, OnTransfer(m));
  }

  lemma RunsAll(sys: Sys, step: nat)
    requires Runs(sys, step)
    ensures sys.replicas.Keys == ALL
  {
    hide TypedReachable;
  }

  lemma OfferSent(s: State, n: int, m: Message, e: Entry, armed: multiset<int>)
    requires Leading(s, n, m, e, armed)
    ensures SendPrePrepare(Offer(n, m)) in s.sent && s.view == 1
  {
  }

  /** A backup that can accept slot n. */
  ghost predicate Free(s: State, id: int, low: int, last: int, n: int) {
    Steady(s) && s.cfg == Four(id, s.cfg.step) && s.low == low && s.high == low + 19 && s.lastExecuted == last &&
    n !in s.slots && s.current <= n && low <= n <= low + 19
  }

  lemma AcceptStep(early: Sys, sys: Sys, step: nat, id: int, low: int, last: int, n: int, m: Message, e: Entry,
                   armed: multiset<int>) returns (sys': Sys)
    requires Past(early, sys, step) && id in {0, 2, 3} && m.sig.valid && Leading(sys.replicas[1], n, m, e, armed)
    requires Free(sys.replicas[id], id, low, last, n)
    ensures Past(early, sys', step) && Only(sys, sys', id)
    ensures var s, t := sys.replicas[id], sys'.replicas[id];
            Backs(t, id, low, last, n, m, PrePrepared) && Adds(s, t, n) && SameStable(s, t) &&
            t.balances == s.balances
  {
    hide Next, Enabled, Authentic, VotesOf, Runs, TypedLeads, Leading, Backs, Touches, SameStable, Offer;
    RunsAll(sys, step);
    var ev := OnPrePrepare(Offer(n, m));
    BackupAccepts(sys.replicas[id], id, low, last, n, m);
    Unbinding(sys.replicas[id].cfg, VotesOf(sys), ev);
    OfferSent(sys.replicas[1], n, m, e, armed);
    assert Unrepeated(sys.replicas[id], ev) by { OfferFor(n, m); }
    sys' := TypedGo(early, sys, step, id, ev);
  }

  lemma OfferFor(n: int, m: Message)
    ensures Offer(n, m).r.data == Slot(n, m) && Offer(n, m).r.data.seqNum == n
  {
  }

  lemma VoteAuthentic(sys: Sys, step: nat, id: int, n: int, m: Message, e: Event)
    requires id in ALL && id in sys.replicas && Slot(n, m) in sys.replicas[id].signed
    requires e == OnPrePrepareOk(Vote(id, n, m)) || e == OnPrepareOk(Vote(id, n, m))
    ensures Authentic(Four(1, step), VotesOf(sys), ANYONE, e)
  {
    hide Everyone, Slot;
    LeaderIsOne(step);
    FourCluster(step, ALL) by { assert {0, 1, 2, 3} - ALL == {}; }
  }

  lemma AckStep(early: Sys, sys: Sys, step: nat, n: int, m: Message, status: Status, prepares: map<int, Request>,
                armed: multiset<int>, id: int) returns (sys': Sys)
    requires Past(early, sys, step) && id in {0, 2, 3} && Slot(n, m) in sys.replicas[id].signed
    requires Leading(sys.replicas[1], n, m, Entry0(n, m, status, prepares, map[]), armed)
    requires (status == PrePrepared && armed == multiset{}) || (status == Prepared && armed == multiset{n})
    ensures Past(early, sys', step) && Only(sys, sys', 1) && Touches(sys.replicas[1], sys'.replicas[1], n)
    ensures var after := prepares[id := Vote(id, n, m)];
            if status == Prepared || |after| >= 2
            then Leading(sys'.replicas[1], n, m, Entry0(n, m, Prepared, after, map[]), multiset{n})
            else Leading(sys'.replicas[1], n, m, Entry0(n, m, PrePrepared, after, map[]), multiset{})
  {
    hide Next, Enabled, Authentic, VotesOf, Runs, TypedLeads, Leading, Typed, Touches, Four, Slot;
    RunsAll(sys, step);
    var e := OnPrePrepareOk(Vote(id, n, m));
    LeaderAcks(sys.replicas[1], n, m, status, prepares, armed, id);
    ConfigIs(sys, step, 1);
    VoteAuthentic(sys, step, id, n, m, e);
    Harmless(sys, Move(1, e));
    sys' := TypedGo(early, sys, step, 1, e);
  }

  lemma TimerAuthentic(cfg: Config, V: Votes, n: int)
    ensures Authentic(cfg, V, ANYONE, OnOptimisticTimer(n))
  {
  }

  lemma TimerStep(early: Sys, sys: Sys, step: nat, n: int, m: Message, prepares: map<int, Request>) returns (sys': Sys)
    requires Past(early, sys, step) && (|prepares| == 2 || |prepares| == 3)
    requires Leading(sys.replicas[1], n, m, Entry0(n, m, Prepared, prepares, map[]), multiset{n})
    ensures Past(early, sys', step) && Only(sys, sys', 1) && Touches(sys.replicas[1], sys'.replicas[1], n)
    ensures |prepares| == 2 ==>
              Leading(sys'.replicas[1], n, m, Entry0(n, m, Prepared, prepares, map[1 := Vote(1, n, m)]), multiset{}) &&
              SendPrepare(Call(step, n, m, prepares)) in sys'.replicas[1].sent
    ensures |prepares| == 3 ==>
              Rests(sys'.replicas[1], n, m, prepares) && SendCommit(Call(step, n, m, prepares)) in sys'.replicas[1].sent
  {
    hide Next, Enabled, Authentic, VotesOf, Runs, TypedLeads, Leading, Rests, Typed, Touches, Four, Call;
    RunsAll(sys, step);
    var e := OnOptimisticTimer(n);
    ConfigIs(sys, step, 1);
    assert sys.replicas[1].cfg.step == step by { StepOf(1, step); }
    if |prepares| == 2 {
      LeaderCalls(sys.replicas[1], n, m, prepares);
    } else {
      LeaderFast(sys.replicas[1], n, m, prepares);
    }
    TimerAuthentic(sys.replicas[1].cfg, VotesOf(sys), n);
    Harmless(sys, Move(1, e));
    sys' := TypedGo(early, sys, step, 1, e);
  }

  lemma StepOf(id: int, step: nat)
    ensures Four(id, step).step == step
  {
  }

  lemma BackedAuthentic(sys: Sys, step: nat, id: int, n: int, m: Message, p: ProofRequest, signers: set<int>, e: Event)
    requires Backed(p, n, m, signers) && signers <= ALL && (e == OnPrepare(p) || e == OnCommit(p))
    requires forall r | r in signers && r in sys.replicas :: Slot(n, m) in sys.replicas[r].signed
    ensures Authentic(Four(id, step), VotesOf(sys), ANYONE, e)
  {
    hide Authentic, VotesOf, Everyone, Slot, Countable;
    FourCluster(step, ALL) by { assert {0, 1, 2, 3} - ALL == {}; }
    CertificateAuthentic(sys, Init(Four(id, step)), p, e);
  }

  lemma PrepareStep(early: Sys, sys: Sys, step: nat, id: int, low: int, last: int, n: int, m: Message, p: ProofRequest,
                    signers: set<int>) returns (sys': Sys)
    requires Past(early, sys, step) && id in ALL && Backs(sys.replicas[id], id, low, last, n, m, PrePrepared)
    requires id in signers && signers <= ALL && |signers| >= 2 && Backed(p, n, m, signers)
    requires forall r | r in signers && r in sys.replicas :: Slot(n, m) in sys.replicas[r].signed
    ensures Past(early, sys', step) && Only(sys, sys', id) && Touches(sys.replicas[id], sys'.replicas[id], n)
    ensures Backs(sys'.replicas[id], id, low, last, n, m, Prepared)
  {
    hide Next, Enabled, Authentic, VotesOf, Runs, TypedLeads, Backs, Backed, Typed, Touches, Four, Slot;
    RunsAll(sys, step);
    BackupPrepares(sys.replicas[id], id, low, last, n, m, p, signers);
    ConfigIs(sys, step, id);
    BackedAuthentic(sys, step, id, n, m, p, signers, OnPrepare(p));
    Harmless(sys, Move(id, OnPrepare(p)));
    sys' := TypedGo(early, sys, step, id, OnPrepare(p));
  }

  lemma AnswerTyped(sys: Sys, id: int, low: int, last: int, n: int, m: Message)
    requires id in sys.replicas && 1 in sys.replicas && Backs(sys.replicas[id], id, low, last, n, m, Prepared)
    ensures Typed(sys, 1, Move(1, OnPrepareOk(Vote(id, n, m)))) && Slot(n, m) in sys.replicas[id].signed
  {
    assert SendPrepareOk(1, Vote(id, n, m)) in sys.replicas[id].sent;
  }

  lemma CountStep(early: Sys, sys: Sys, step: nat, n: int, m: Message, prepares: map<int, Request>,
                  commits: map<int, Request>, id: int, low: int, last: int) returns (sys': Sys)
    requires Past(early, sys, step) && id in {0, 2, 3} && Backs(sys.replicas[id], id, low, last, n, m, Prepared)
    requires Leading(sys.replicas[1], n, m, Entry0(n, m, Prepared, prepares, commits), multiset{})
    requires |commits[id := Vote(id, n, m)]| < 3
    ensures Past(early, sys', step) && Only(sys, sys', 1) && Touches(sys.replicas[1], sys'.replicas[1], n)
    ensures Leading(sys'.replicas[1], n, m, Entry0(n, m, Prepared, prepares, commits[id := Vote(id, n, m)]), multiset{})
  {
    hide Next, Enabled, Authentic, VotesOf, Runs, TypedLeads, Leading, Backs, Typed, Touches, Four, Slot;
    RunsAll(sys, step);
    var e := OnPrepareOk(Vote(id, n, m));
    LeaderCounts(sys.replicas[1], n, m, prepares, commits, id);
    ConfigIs(sys, step, 1);
    AnswerTyped(sys, id, low, last, n, m);
    VoteAuthentic(sys, step, id, n, m, e);
    sys' := TypedGo(early, sys, step, 1, e);
  }

  /** The last PREPARE_OK is allowed, typed, and commits the slot. */
  lemma CommitStep(early: Sys, sys: Sys, step: nat, n: int, m: Message, prepares: map<int, Request>, commits: map<int,
                   Request>,
                    id: int, low: int, last: int)
    requires Past(early, sys, step) && id in {0, 2, 3} && Backs(sys.replicas[id], id, low, last, n, m, Prepared)
    requires Leading(sys.replicas[1], n, m, Entry0(n, m, Prepared, prepares, commits), multiset{})
    requires |commits[id := Vote(id, n, m)]| >= 3
    ensures 1 in sys.replicas && Enabled(sys.replicas[1], OnPrepareOk(Vote(id, n, m)))
    ensures var mv := Move(1, OnPrepareOk(Vote(id, n, m)));
            Allowed(sys, ANYONE, mv) && Typed(sys, 1, mv) && SlowCommit(sys.replicas[1], mv.event) &&
            n in sys.replicas[1].slots && sys.replicas[1].slots[n].prePrepare.data == Slot(n, m) &&
            Only(sys, Moved(sys, mv), 1) && Past(early, Moved(sys, mv), step) &&
            Touches(sys.replicas[1], Moved(sys, mv).replicas[1], n) && Rests(Moved(sys, mv).replicas[1], n, m, prepares)
  {
    hide Next, Enabled, Authentic, VotesOf, Runs, TypedLeads, Leading, Backs, Rests, Typed, Touches, Four, Slot,
         Allowed, Moved, SlowCommit;
    RunsAll(sys, step);
    var e := OnPrepareOk(Vote(id, n, m));
    LeaderCommits(sys.replicas[1], n, m, prepares, commits, id);
    ConfigIs(sys, step, 1);
    AnswerTyped(sys, id, low, last, n, m);
    VoteAuthentic(sys, step, id, n, m, e);
    MoveTo(sys, 1, e);
    var sys' := TypedGo(early, sys, step, 1, e);
    OnlyOne(sys, sys', e);
    assert sys.replicas[1].slots[n].prePrepare.data == Slot(n, m) by {
      LeadsData(sys.replicas[1], n, m, Entry0(n, m, Prepared, prepares, commits));
    }
  }

  lemma OnlyOne(sys: Sys, sys': Sys, e: Event)
    requires Only(sys, sys', 1) && Enabled(sys.replicas[1], e) && sys'.replicas[1] == Next(sys.replicas[1], e)
    requires Moved(sys, Move(1, e)) == At(sys, 1, e)
    ensures Moved(sys, Move(1, e)) == sys'
  {
    hide Next, Enabled, Moved;
    var u := At(sys, 1, e).replicas;
    assert u.Keys == sys'.replicas.Keys;
    assert forall k | k in u :: u[k] == sys'.replicas[k];
    assert u == sys'.replicas;
  }

  lemma LeadsData(s: State, n: int, m: Message, e: Entry)
    requires Leading(s, n, m, e, multiset{})
    ensures n in s.slots && s.slots[n].prePrepare.data == Slot(n, m)
  {
  }

  // ---- A backup learns that its slot committed ----

  lemma BackupCommits(s: State, id: int, low: int, last: int, n: int, m: Message, p: ProofRequest, signers: set<int>)
    returns (e: Entry)
    requires Backs(s, id, low, last, n, m, PrePrepared) && id in ALL && Backed(p, n, m, signers) && |signers| >= 3
    ensures Enabled(s, OnCommit(p)) && Next(s, OnCommit(p)) == ExecutePending(Put(s, n, e)) && n in s.slots
    ensures e.status == Committed && e.m == m && e.prepares == s.slots[n].prepares
    ensures s.current == n && s.lastExecuted == last
  {
    hide Next, Enabled, Countable, WithCommits, ExecutePending, Backs, Slot, Looks;
    BacksLooks(s, id, low, last, n, m, PrePrepared);
    BacksWaits(s, id, low, last, n, m);
    assert s.slots[n].commits.Keys + Countable(id, p.sigs) == signers;
    Committing(s, p);
    e := WithCommits(s.cfg, s.slots[n], p);
  }

  lemma BacksWaits(s: State, id: int, low: int, last: int, n: int, m: Message)
    requires Backs(s, id, low, last, n, m, PrePrepared)
    ensures Steady(s) && Present(s, n) && s.slots[n].status == PrePrepared && s.slots[n].prePrepare.data == Slot(n, m)
    ensures s.slots[n].commits == map[] && s.slots[n].m == m && s.cfg.id == id && s.cfg.f == 1
    ensures s.current == n && s.lastExecuted == last && Slot(n, m).view == 1 && Slot(n, m).seqNum == n
  {
  }

  /** The backup after it executed slot n, as far as checkpoints need. */
  ghost predicate Learned(s: State, t: State, id: int, low: int, n: int, m: Message) {
    Looks(t, id, low, n, n) && n in s.slots && t.slots.Keys == s.slots.Keys && t.slots[n].status == Executed &&
    t.slots[n].prepares == s.slots[n].prepares && t.signed == s.signed &&
    t.balances == Apply(s.balances, m.data).balances && t.cfg == s.cfg && CheckpointedAt(s, t, n)
  }

  lemma BackupLearns(s: State, id: int, low: int, last: int, n: int, m: Message, p: ProofRequest, signers: set<int>)
    requires Backs(s, id, low, last, n, m, PrePrepared) && id in ALL && Backed(p, n, m, signers) && |signers| >= 3
    requires last < n < 9 && 0 <= n && (forall i | last < i < n :: i !in s.slots) && s.cfg.step == 1
    ensures Enabled(s, OnCommit(p)) && Learned(s, Next(s, OnCommit(p)), id, low, n, m)
  {
    hide Next, Enabled, ExecuteOne, ExecuteFrom, Apply, Looks, Backs, Backed, CheckpointedAt, Touches;
    BacksLooks(s, id, low, last, n, m, PrePrepared);
    var e := BackupCommits(s, id, low, last, n, m, p, signers);
    OnlyExecutes(Put(s, n, e), last + 1, n);
    LooksPut(s, id, low, n, last, n, e);
    ExecuteOn(Put(s, n, e), id, low, last, n);
    SameCheckpoints(s, Put(s, n, e), ExecuteOne(Put(s, n, e), n), n);
  }

  lemma BacksLooks(s: State, id: int, low: int, last: int, n: int, m: Message, status: Status)
    requires Backs(s, id, low, last, n, m, status)
    ensures Looks(s, id, low, n, last) && n in s.slots && Slot(n, m) in s.signed && s.view == 1
  {
  }

  lemma SameCheckpoints(s: State, u: State, t: State, n: int)
    requires SameStable(s, u) && CheckpointedAt(u, t, n)
    ensures CheckpointedAt(s, t, n)
  {
    hide CheckpointText.Text;
  }

  lemma LearnStep(early: Sys, sys: Sys, step: nat, id: int, low: int, last: int, n: int, m: Message, p: ProofRequest,
                  signers: set<int>) returns (sys': Sys)
    requires Past(early, sys, step) && id in {0, 2, 3} && Backs(sys.replicas[id], id, low, last, n, m, PrePrepared)
    requires Backed(p, n, m, signers) && signers <= ALL && |signers| >= 3
    requires last < n < 9 && 0 <= n && (forall i | last < i < n :: i !in sys.replicas[id].slots)
    requires sys.replicas[id].cfg.step == 1
    requires forall r | r in signers && r in sys.replicas :: Slot(n, m) in sys.replicas[r].signed
    ensures Past(early, sys', step) && Only(sys, sys', id)
    ensures Learned(sys.replicas[id], sys'.replicas[id], id, low, n, m)
  {
    hide Next, Enabled, Authentic, VotesOf, Runs, TypedLeads, Backs, Backed, Touches, Four, Slot, Learned, Apply;
    RunsAll(sys, step);
    BackupLearns(sys.replicas[id], id, low, last, n, m, p, signers);
    ConfigIs(sys, step, id);
    BackedAuthentic(sys, step, id, n, m, p, signers, OnCommit(p));
    LearnedView(sys.replicas[id], Next(sys.replicas[id], OnCommit(p)), id, low, n, m);
    sys' := TypedGo(early, sys, step, id, OnCommit(p));
  }

  lemma LearnedView(s: State, t: State, id: int, low: int, n: int, m: Message)
    requires Learned(s, t, id, low, n, m)
    ensures t.view == 1
  {
    hide Apply, CheckpointedAt;
  }
}
