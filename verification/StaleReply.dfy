/** A correct replica reports a transfer executed that no correct replica executed: its slot was given to another
    request in a later view, and the digest table kept the old listing. The client completes the transfer wrongly. */
module StaleReply {
  import opened Messages
  import opened Accounts
  import opened Quorum
  import opened ReplicaState
  import opened Window
  import opened ExecutionFold
  import opened OneView
  import opened Agreement
  import opened Entries
  import opened Retries
  import opened Outcome
  import opened Scenario
  import Selection
  import Client

  /** A request of client 9, more than anyone holds, and one of client 8. */
  const BIG := Message(Transfer("A", "B", 1000, 7), Signature(9, true))
  const SMALL := Message(Transfer("A", "B", 2, 8), Signature(8, true))

  const ME := Four(0, 10)

  // ---- The run of replica 0 ----

  /** An empty view change for view 2. */
  function Empty(p: int): ViewChangeReq {
    ViewChangeReq(ViewChangeData(2, CheckpointData(-1, Blank), [], []), Signature(p, true))
  }

  const OPENING := NewViewReq(2, [Empty(1), Empty(2), Empty(3)], [], Signature(2, true))

  /** What the leader of view 2 proposes for slot 0. */
  const OTHER := PrePrepareRequest(Request(Context(2, 0, TransferDigest(SMALL.data)), SignatureVec(2, {})), SMALL)

  const COMMIT := ProofRequest(OTHER.r.data, [SignatureVec(0, {0}), SignatureVec(2, {0}), SignatureVec(3, {0})])

  const E0 := OnPrePrepare(Unsigned(0, BIG))
  const E1 := OnNewView(OPENING)
  const E2 := OnPrePrepare(OTHER)
  const E3 := OnCommit(COMMIT)
  const RUN := [E0, E1, E2, E3]

  lemma OpeningEmpty()
    ensures ValidViewChanges(ME, OPENING.vproofs) == 3 && BigO(ME, OPENING.vproofs) == []
    ensures Selection.Proofs(OPENING.vproofs) == []
  {
    hide Everyone;
    var vcs := OPENING.vproofs;
    assert vcs[..2] == [Empty(1), Empty(2)] && vcs[..2][..1] == [Empty(1)] && vcs[..1][..0] == [];
    assert [Empty(1), Empty(2)][..1] == [Empty(1)] && [Empty(1)][..0] == [];
    assert ValidViewChanges(ME, [Empty(1)]) == 1;
    assert ValidViewChanges(ME, [Empty(1), Empty(2)]) == 2;
    assert Selection.Proofs([Empty(1)]) == [] && Selection.MaxStable([Empty(1)]) == 0;
    assert Selection.Proofs([Empty(1), Empty(2)]) == [] && Selection.MaxStable([Empty(1), Empty(2)]) == 0;
  }

  /** The state of replica 0 as far as the run reads it. */
  predicate Holds(s: State, view: int, m: Message, r: Request, status: Status) {
    s.cfg == ME && s.mode == Normal && s.view == view && s.low == 0 && s.high == 19 && s.current == 0 &&
    TransferDigest(BIG.data) in s.index && s.index[TransferDigest(BIG.data)] == 0 &&
    s.slots.Keys == {0} && s.slots[0].m == m && s.slots[0].prePrepare == r && s.slots[0].status == status
  }

  predicate Unexecuted(s: State) {
    s.lastExecuted == -1 && s.executed == [] && s.balances == ME.initial
  }

  lemma First()
    ensures Enabled(Init(ME), E0)
    ensures var t := Next(Init(ME), E0);
            Holds(t, 1, BIG, Unsigned(0, BIG).r, PrePrepared) && Unexecuted(t)
  {
    hide Next, Enabled, Init, Sign, Opened, Everyone, LeaderOf;
    Fresh(0, 10);
    FourCluster(10, {0, 1, 2, 3});
    Accepts(Init(ME), Unsigned(0, BIG));
  }

  lemma Second(s: State)
    requires Holds(s, 1, BIG, Unsigned(0, BIG).r, PrePrepared) && Unexecuted(s)
    ensures Enabled(s, E1)
    ensures var t := Next(s, E1);
            Holds(t, 2, BIG, Unsigned(0, BIG).r, PrePrepared) && Unexecuted(t)
  {
    hide BigO, ValidViewChanges, BySender, Everyone;
    OpeningEmpty();
  }

  lemma OtherOffered(s: State)
    requires Holds(s, 2, BIG, Unsigned(0, BIG).r, PrePrepared)
    ensures PrePrepareOffered(s, OTHER) && !SlotTaken(s, OTHER.r.data)
  {
    FourCluster(10, {0, 1, 2, 3});
  }

  lemma Third(s: State)
    requires Holds(s, 2, BIG, Unsigned(0, BIG).r, PrePrepared) && Unexecuted(s)
    ensures Enabled(s, E2)
    ensures var t := Next(s, E2);
            Holds(t, 2, SMALL, OTHER.r, PrePrepared) && t.slots[0].commits == map[] && Unexecuted(t)
  {
    hide Sign, Everyone, PrePrepareOffered, SlotTaken;
    OtherOffered(s);
  }

  lemma CommitCounts(commits: map<int, Request>)
    requires commits == map[]
    ensures |commits.Keys + Countable(0, COMMIT.sigs)| == 3
  {
    var a, b, c := SignatureVec(0, {0}), SignatureVec(2, {0}), SignatureVec(3, {0});
    assert a in COMMIT.sigs && b in COMMIT.sigs && c in COMMIT.sigs;
    SameSet(commits.Keys + Countable(0, COMMIT.sigs), {0, 2, 3});
    assert |{0, 2, 3}| == 3;
  }

  lemma Commits0(s: State) returns (e: Entry)
    requires Holds(s, 2, SMALL, OTHER.r, PrePrepared) && s.slots[0].commits == map[] && Unexecuted(s)
    ensures e.status == Committed && e.m == SMALL && e.prePrepare == OTHER.r
    ensures Enabled(s, E3) && Next(s, E3) == ExecutePending(Put(s, 0, e))
  {
    hide Sign, Everyone, LeaderOf, ExecutePending, WithCommits, Countable;
    CommitCounts(s.slots[0].commits);
    CertificateRaises(s.cfg, s.slots[0], COMMIT);
    e := WithCommits(s.cfg, s.slots[0], COMMIT);
    CommitsKeep(s.cfg, s.slots[0], COMMIT);
  }

  lemma Fourth(s: State)
    requires Holds(s, 2, SMALL, OTHER.r, PrePrepared) && s.slots[0].commits == map[] && Unexecuted(s)
    ensures Enabled(s, E3)
    ensures var t := Next(s, E3);
            Holds(t, 2, SMALL, OTHER.r, Executed) && t.slots[0].result && t.executed == [Execution(0, SMALL.data, true)]
  {
    hide Next, Enabled, ExecuteFrom, ExecuteOne;
    var e := Commits0(s);
    OnlyExecutes(Put(s, 0, e), 0, 0);
    ExecutesIt(Put(s, 0, e));
  }

  lemma CommitsKeep(cfg: Config, e: Entry, p: ProofRequest)
    ensures WithCommits(cfg, e, p).m == e.m && WithCommits(cfg, e, p).prePrepare == e.prePrepare
  {
    hide AddProofs;
  }

  lemma ExecutesIt(s: State)
    requires Holds(s, 2, SMALL, OTHER.r, Committed) && Unexecuted(s)
    ensures Holds(ExecuteOne(s, 0), 2, SMALL, OTHER.r, Executed)
    ensures ExecuteOne(s, 0).slots[0].result && ExecuteOne(s, 0).executed == [Execution(0, SMALL.data, true)]
  {
    hide Checkpoint, ExecuteOne;
    ExecuteOneIs(s, 0);
  }

  /** Asked again for the first transfer, it answers for the second. */
  lemma Fifth(s: State)
    requires Holds(s, 2, SMALL, OTHER.r, Executed)
    ensures Enabled(s, OnTransfer(BIG)) && Answers(s, BIG) && !StillHolds(s, BIG.data)
    ensures Next(s, OnTransfer(BIG)) == NotifyClient(s, 9, BIG.data, s.slots[0].result)
  {
    hide IsLeader, NotifyClient, Propose, Repropose;
  }

  const ANSWER := Response(BIG.data, true, 2, Signature(0, true))

  lemma RunThen(s: State, es: seq<Event>, mid: State, e: Event)
    requires Run(s, es) == Some(mid) && Enabled(mid, e)
    ensures Run(s, es + [e]) == Some(Next(mid, e))
  {
    hide Next, Enabled;
    assert (es + [e])[..|es|] == es;
  }

  /** A stale reply. Replica 0 opens slot 0 for BIG in view 1, enters view 2, commits and executes SMALL in slot 0, and
      answers a retry of BIG, which it never executed, with the outcome of SMALL. */
  lemma StaleAnswer() returns (s: State)
    ensures Run(Init(ME), RUN) == Some(s) && Enabled(s, OnTransfer(BIG)) && Answers(s, BIG) && !StillHolds(s, BIG.data)
    ensures Notify(9, ANSWER) in Next(s, OnTransfer(BIG)).sent
    ensures Next(s, OnTransfer(BIG)).executed == [Execution(0, SMALL.data, true)] && SMALL.data != BIG.data
  {
    hide Next, Enabled, Init, Holds, Unexecuted, Run, StillHolds, Answers;
    First();
    var s1 := Next(Init(ME), E0);
    Second(s1);
    var s2 := Next(s1, E1);
    Third(s2);
    var s3 := Next(s2, E2);
    Fourth(s3);
    s := Next(s3, E3);
    Fifth(s);
    RunOf(s1, s2, s3, s);
    Answered(s);
  }

  lemma Answered(s: State)
    requires Holds(s, 2, SMALL, OTHER.r, Executed) && s.slots[0].result
    ensures Notify(9, ANSWER) in NotifyClient(s, 9, BIG.data, s.slots[0].result).sent
    ensures NotifyClient(s, 9, BIG.data, s.slots[0].result).executed == s.executed
  {
  }

  lemma RunOf(s1: State, s2: State, s3: State, s4: State)
    requires Enabled(Init(ME), E0) && s1 == Next(Init(ME), E0) && Enabled(s1, E1) && s2 == Next(s1, E1)
    requires Enabled(s2, E2) && s3 == Next(s2, E2) && Enabled(s3, E3) && s4 == Next(s3, E3)
    ensures Run(Init(ME), RUN) == Some(s4)
  {
    hide Next, Enabled, Init, Run;
    assert Run(Init(ME), []) == Some(Init(ME)) by { RunEmpty(Init(ME)); }
    RunThen(Init(ME), [], Init(ME), E0);
    assert [] + [E0] == [E0];
    RunThen(Init(ME), [E0], s1, E1);
    assert [E0] + [E1] == [E0, E1];
    RunThen(Init(ME), [E0, E1], s2, E2);
    assert [E0, E1] + [E2] == [E0, E1, E2];
    RunThen(Init(ME), [E0, E1, E2], s3, E3);
    assert [E0, E1, E2] + [E3] == RUN;
  }

  lemma RunEmpty(s: State)
    ensures Run(s, []) == Some(s)
  {
  }

  // ---- The client ----

  const LIE := Response(BIG.data, true, 2, Signature(3, true))

  const ISSUED := Client.OnProcess([Client.Transaction("A", "B", 1000)], [7])

  function Clean(): Client.State {
    Client.Init(9, "A", 1)
  }

  /** The client with BIG at the front of its queue, reported executed by the given replicas. */
  predicate Waits(c: Client.State, reporters: set<int>, heard: set<Response>) {
    c.id == 9 && c.f == 1 && c.queue == [Client.Queued(0, BIG.data, reporters, {})] && c.issued == [BIG.data] &&
    c.completed == [] && c.heard == heard
  }

  lemma Issues()
    ensures Client.Enabled(Clean(), ISSUED) && Waits(Client.Next(Clean(), ISSUED), {}, {})
  {
    assert Client.Enqueue(Clean(), ISSUED.txs, ISSUED.clock, 0) == Clean();
  }

  lemma HearsOne(c: Client.State)
    requires Waits(c, {}, {})
    ensures Waits(Client.Next(c, Client.OnNotify(ANSWER)), {0}, {ANSWER})
  {
    assert {} + {0} == {0} && {} + {ANSWER} == {ANSWER} && |{0}| == 1;
  }

  lemma HearsTwo(c: Client.State)
    requires Waits(c, {0}, {ANSWER})
    ensures var d := Client.Next(c, Client.OnNotify(LIE));
            d.id == 9 && d.issued == [BIG.data] && d.heard == {ANSWER, LIE} &&
            d.completed == [Client.Completion(BIG.data, true)]
  {
    assert {0} + {3} == {0, 3} && |{0, 3}| == 2 && {ANSWER} + {LIE} == {ANSWER, LIE};
  }

  lemma ClientThen(c: Client.State, es: seq<Client.Event>, mid: Client.State, e: Client.Event)
    requires Client.Run(c, es) == Some(mid) && Client.Enabled(mid, e)
    ensures Client.Run(c, es + [e]) == Some(Client.Next(mid, e))
  {
    hide Client.Next, Client.Enabled;
    assert (es + [e])[..|es|] == es;
  }

  /** The client issues BIG and hears the stale reply and one of a faulty replica: that completes the transfer. */
  lemma Completes() returns (c: Client.State)
    ensures Client.Reached(9, "A", 1, c) && c.id == 9 && c.issued == [BIG.data] && c.heard == {ANSWER, LIE}
    ensures c.completed == [Client.Completion(BIG.data, true)]
  {
    hide Client.Next, Client.Run, Waits;
    Issues();
    var c1 := Client.Next(Clean(), ISSUED);
    HearsOne(c1);
    var c2 := Client.Next(c1, Client.OnNotify(ANSWER));
    HearsTwo(c2);
    c := Client.Next(c2, Client.OnNotify(LIE));
    assert Client.Run(Clean(), []) == Some(Clean()) by { ClientEmpty(Clean()); }
    ClientThen(Clean(), [], Clean(), ISSUED);
    assert [] + [ISSUED] == [ISSUED];
    ClientThen(Clean(), [ISSUED], c1, Client.OnNotify(ANSWER));
    assert [ISSUED] + [Client.OnNotify(ANSWER)] == [ISSUED, Client.OnNotify(ANSWER)];
    ClientThen(Clean(), [ISSUED, Client.OnNotify(ANSWER)], c2, Client.OnNotify(LIE));
  }

  lemma ClientEmpty(c: Client.State)
    ensures Client.Run(c, []) == Some(c)
  {
  }

  // ---- Together ----

  const MADE := (m: Message) => m == BIG || m == SMALL

  const ASKED := RUN + [OnTransfer(BIG)]

  lemma AllMade()
    ensures AllFromClients(MADE, ASKED) && AllFromClients(MADE, [])
  {
    assert ASKED == [E0, E1, E2, E3, OnTransfer(BIG)];
  }

  /** The run of a replica that has got that far on genuine client messages. */
  ghost predicate Got(cfg: Config, s: State) {
    exists es :: Run(Init(cfg), es) == Some(s) && AllFromClients(MADE, es)
  }

  lemma Systems() returns (sys: Sys)
    ensures sys.replicas.Keys == {0, 1, 2} && forall r | r in {0, 1, 2} :: Got(ME.(id := r), sys.replicas[r])
    ensures Notify(9, ANSWER) in sys.replicas[0].sent
    ensures forall r, x | r in {0, 1, 2} && x in sys.replicas[r].executed :: x.transfer != BIG.data
  {
    hide Run, Init, Next, Enabled, Answers, StillHolds, AllFromClients;
    var s := StaleAnswer();
    RunThen(Init(ME), RUN, s, OnTransfer(BIG));
    RunEmpty(Init(ME.(id := 1)));
    RunEmpty(Init(ME.(id := 2)));
    AllMade();
    Fresh(1, 10);
    Fresh(2, 10);
    sys := Sys(map[0 := Next(s, OnTransfer(BIG)), 1 := Init(ME.(id := 1)), 2 := Init(ME.(id := 2))]);
    assert ME.(id := 0) == ME && ME.(id := 1) == Four(1, 10) && ME.(id := 2) == Four(2, 10);
    assert Run(Init(ME), ASKED) == Some(sys.replicas[0]);
  }

  /** The outcome a client takes can be false. Every replica but number 3 is correct and every other hypothesis of
      result soundness holds, yet the client completes BIG as executed and no correct replica executed it: one of the
      two replies it counts is stale. */
  lemma WrongOutcome() returns (sys: Sys, c: Client.State)
    ensures Agreement.Cluster(ME, {0, 1, 2}) && sys.replicas.Keys == {0, 1, 2}
    ensures forall r | r in {0, 1, 2} :: Got(ME.(id := r), sys.replicas[r])
    ensures Client.Reached(9, "A", 1, c) && c.id == 9 && Unforged(c, MADE) && RepliesDelivered(sys, ME, c)
    ensures DistinctTimestamps(c.issued) && c.issued == [BIG.data] && c.completed == [Client.Completion(BIG.data, true)]
    ensures forall p, ack | p in {0, 1, 2} :: !ExecutedAt(sys, p, BIG.data, ack)
  {
    hide Client.Reached, Got, Everyone, Cluster;
    FourCluster(10, {0, 1, 2}) by { assert {0, 1, 2, 3} - {0, 1, 2} == {3}; }
    sys := Systems();
    c := Completes();
    assert 3 in Everyone(ME) && 0 in Everyone(ME);
  }
}
