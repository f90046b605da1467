/** The protocol does what it is for, whatever the number of faults: with f replicas silent the others commit and
    execute a client's transfer on the slow path, exchanging the messages they really send, and the client gets its
    answer. */
module Completion {
  import opened Messages
  import opened Accounts
  import opened Quorum
  import opened ReplicaState
  import opened Window
  import opened OneView
  import opened Agreement
  import opened Scenario
  import opened Uniqueness
  import opened Certificates
  import Client

  // ---- Runs on messages that were sent ----

  ghost predicate SentBy(sys: Sys, r: int, o: Output) {
    r in sys.replicas && o in sys.replicas[r].sent
  }

  /** Unless the client or a timer is behind the move, its message was sent by the replica it names, or, a certificate,
      by the leader. */
  ghost predicate Delivered(sys: Sys, mv: Move) {
    match mv.event
    case OnTransfer(_) => true
    case OnOptimisticTimer(_) => true
    case OnPrePrepare(p) => SentBy(sys, p.r.sig.signer, SendPrePrepare(p))
    case OnPrePrepareOk(r) => SentBy(sys, r.sig.signer, SendPrePrepareOk(mv.replica, r))
    case OnPrepare(p) => SentBy(sys, 1, SendPrepare(p))
    case OnPrepareOk(r) => SentBy(sys, r.sig.signer, SendPrepareOk(mv.replica, r))
    case OnCommit(p) => SentBy(sys, 1, SendCommit(p))
    case _ => false
  }

  /** Every message of the moves was sent before it was delivered. */
  ghost predicate AllDelivered(sys: Sys, mvs: seq<Move>)
    requires After(sys, ANYONE, mvs).Some?
  {
    mvs == [] ||
    (AllDelivered(sys, mvs[..|mvs| - 1]) && Delivered(After(sys, ANYONE, mvs[..|mvs| - 1]).value, mvs[|mvs| - 1]))
  }

  /** The state of the 2f + 1 correct replicas after moves on messages that were sent; the other f stay silent. */
  ghost predicate Live(sys: Sys, f: nat) {
    sys.replicas.Keys == Correct(f) &&
    exists mvs :: After(Start(One(f, 0), Correct(f)), ANYONE, mvs) == Some(sys) &&
                  AllDelivered(Start(One(f, 0), Correct(f)), mvs)
  }

  lemma Lives(f: nat) returns (sys: Sys)
    requires f >= 1
    ensures Live(sys, f) && forall r | r in Correct(f) :: sys.replicas[r] == Init(One(f, r))
  {
    hide Init, Cluster, Correct;
    ClusterOf(f);
    sys := Start(One(f, 0), Correct(f));
    Begin(One(f, 0), Correct(f));
    assert After(sys, ANYONE, []) == Some(sys) && AllDelivered(sys, []);
  }

  lemma Lived(sys: Sys, f: nat, r: int, e: Event) returns (sys': Sys)
    requires Live(sys, f) && r in Correct(f) && Enabled(sys.replicas[r], e) && Delivered(sys, Move(r, e))
    requires Authentic(sys.replicas[r].cfg, VotesOf(sys), ANYONE, e)
    requires Next(sys.replicas[r], e).view == sys.replicas[r].view
    ensures Live(sys', f) && sys'.replicas[r] == Next(sys.replicas[r], e)
    ensures forall q | q in Correct(f) && q != r :: sys'.replicas[q] == sys.replicas[q]
  {
    hide Next, Enabled, Authentic, VotesOf, Start, After, Allowed, Moved, Delivered, Correct;
    var start := Start(One(f, 0), Correct(f));
    var mvs :| After(start, ANYONE, mvs) == Some(sys) && AllDelivered(start, mvs);
    MoveTo(sys, r, e);
    Extends(start, mvs, Move(r, e));
    sys' := At(sys, r, e);
    assert (mvs + [Move(r, e)])[..|mvs + [Move(r, e)]| - 1] == mvs;
    assert AllDelivered(start, mvs + [Move(r, e)]);
  }

  lemma LiveReachable(sys: Sys, f: nat)
    requires f >= 1 && Live(sys, f)
    ensures Reachable(sys, One(f, 0), Correct(f), ANYONE)
    ensures Reached(One(f, 1), sys.replicas[1])
  {
    hide After, Start, Correct, AllDelivered, Cluster, Run, Init;
    ClusterOf(f);
    var mvs :| After(Start(One(f, 0), Correct(f)), ANYONE, mvs) == Some(sys);
    var es := LocalRun(One(f, 0), Correct(f), ANYONE, mvs, 1);
  }

  // ---- The replicas, stage by stage ----

  /** Replica i's vote for m in slot 0, with a MAC for everyone. */
  function Vote(f: nat, i: int, m: Message): Request {
    Request(Slot(0, m), SignatureVec(i, Ids(3 * f + 1)))
  }

  function VotesFor(f: nat, m: Message, voters: set<int>): map<int, Request> {
    map i | i in voters :: Vote(f, i, m)
  }

  function Offer(f: nat, m: Message): PrePrepareRequest {
    PrePrepareRequest(Vote(f, 1, m), m)
  }

  predicate Result(f: nat, m: Message) {
    Apply(One(f, 0).initial, m.data).ok
  }

  /** A replica in its first view that has executed nothing and holds e in slot 0. */
  ghost predicate Holds(s: State, f: nat, i: int, e: Entry) {
    Steady(s) && s.cfg == One(f, i) && s.low == 0 && s.high == 19 && s.current == 0 && s.lastExecuted == -1 &&
    s.slots.Keys == {0} && s.slots[0] == e && s.executed == [] && s.balances == One(f, 0).initial &&
    e.prePrepare.data in s.signed
  }

  /** The leader has proposed m and stores these votes. */
  ghost predicate Leads(s: State, f: nat, m: Message, status: Status, prepares: set<int>, commits: set<int>) {
    Holds(s, f, 1, Entry(m, status, false, Vote(f, 1, m), VotesFor(f, m, prepares), VotesFor(f, m, commits))) &&
    SendPrePrepare(Offer(f, m)) in s.sent
  }

  /** The replica has executed m in slot 0 and told the client. */
  ghost predicate Finished(s: State, f: nat, i: int, m: Message) {
    s.executed == [Execution(0, m.data, Result(f, m))] && Slot(0, m) in s.signed &&
    Notify(m.sig.signer, Response(m.data, Result(f, m), 1, Signature(i, true))) in s.sent
  }

  /** Stages of a backup: not yet asked, waiting, prepared, done. */
  ghost predicate Backs(s: State, f: nat, i: int, m: Message, stage: nat) {
    if stage == 0 then s == Init(One(f, i))
    else if stage <= 2 then
      0 in s.slots && Holds(s, f, i, s.slots[0]) && s.slots[0].m == m && s.slots[0].prePrepare == Vote(f, 1, m) &&
      s.slots[0].status == (if stage == 1 then PrePrepared else Prepared) &&
      SendPrePrepareOk(1, Vote(f, i, m)) in s.sent && (stage == 2 ==> SendPrepareOk(1, Vote(f, i, m)) in s.sent)
    else Finished(s, f, i, m)
  }

  /** The backups below k have passed the stage, the others are at it. */
  ghost predicate Stage(sys: Sys, f: nat, m: Message, stage: nat, k: nat) {
    Live(sys, f) && forall i | i in Correct(f) &&
    i != 1 :: Backs(sys.replicas[i], f, i, m, if i < k then stage + 1 else stage)
  }

  lemma SignIs(f: nat, i: int, m: Message)
    requires f >= 1
    ensures Sign(One(f, i), Slot(0, m)) == Vote(f, i, m) && LeaderOf(One(f, i), 1) == 1
    ensures 1 % (3 * f + 1) == 1
  {
    LeaderIs(f, i);
  }

  // ---- Execution ----

  lemma Executing(s: State, f: nat, i: int, e: Entry)
    requires Holds(s, f, i, e) && e.status == Committed && e.prePrepare == Vote(f, 1, e.m)
    ensures Finished(ExecutePending(s), f, i, e.m) && ExecutePending(s).view == s.view
  {
    hide Apply;
    assert ExecuteFrom(s, 0) == ExecuteFrom(ExecuteOne(s, 0), 1);
  }

  // ---- The leader ----

  lemma LeaderProposes(f: nat, m: Message)
    requires f >= 1 && m.sig.valid
    ensures var s, e := Init(One(f, 1)), OnTransfer(m);
            Enabled(s, e) && Next(s, e).view == s.view && Leads(Next(s, e), f, m, PrePrepared, {}, {})
  {
    hide Sign, LeaderOf, Ids;
    var s := Init(One(f, 1));
    SignIs(f, 1, m);
    assert VotesFor(f, m, {}) == map[];
    assert Proposal(s, m) == Vote(f, 1, m);
  }

  /** The votes a leader has stored once the first k replicas have been heard. */
  function Others(k: nat): set<int> {
    Ids(k) - {1}
  }

  function WithOwn(k: nat): set<int> {
    Ids(k) + {1}
  }

  lemma OthersSize(k: nat)
    ensures |Others(k)| == (if k >= 2 then k - 1 else k)
    ensures Others(k + 1) == (if k == 1 then Others(k) else Others(k) + {k})
  {
    hide Ids;
    if k >= 2 {
      assert Others(k) + {1} == Ids(k);
    } else {
      assert Others(k) == Ids(k);
    }
    SameSet(Others(k + 1), if k == 1 then Others(k) else Others(k) + {k});
  }

  lemma WithOwnSize(k: nat)
    ensures |WithOwn(k)| == (if k >= 2 then k else k + 1)
    ensures WithOwn(k + 1) == WithOwn(k) + {k}
  {
    hide Ids;
    if k >= 2 {
      assert WithOwn(k) == Ids(k);
    } else {
      assert 1 !in Ids(k) && |Ids(k) + {1}| == |Ids(k)| + 1;
    }
    SameSet(WithOwn(k + 1), WithOwn(k) + {k});
  }

  lemma VotesAdd(f: nat, m: Message, voters: set<int>, i: int)
    ensures VotesFor(f, m, voters)[i := Vote(f, i, m)] == VotesFor(f, m, voters + {i})
    ensures VotesFor(f, m, voters).Keys == voters
  {
  }

  lemma LeaderTakes(s: State, f: nat, m: Message, status: Status, prepares: set<int>, commits: set<int>, i: int)
    requires f >= 1 && Leads(s, f, m, status, prepares, commits)
    ensures TakesVote(s, Vote(f, i, m)) && !s.cfg.byzantine && s.cfg.f == f && s.view == 1 && 0 in s.slots
    ensures s.slots[0].prepares == VotesFor(f, m, prepares) && s.slots[0].commits == VotesFor(f, m, commits)
    ensures s.slots[0].status == status && Vote(f, i, m).data.seqNum == 0 && Vote(f, i, m).sig.signer == i
  {
    SignIs(f, 1, m);
    assert 1 in Ids(3 * f + 1);
  }

  lemma LeaderHears(s: State, f: nat, m: Message, prepares: set<int>, i: int)
    requires f >= 1 && Leads(s, f, m, PrePrepared, prepares, {})
    ensures var e := OnPrePrepareOk(Vote(f, i, m));
            Enabled(s, e) && Next(s, e).view == s.view &&
            if |prepares + {i}| >= 2 * f
            then Leads(Next(s, e), f, m, Prepared, prepares + {i}, {}) && 0 in Next(s, e).armed
            else Leads(Next(s, e), f, m, PrePrepared, prepares + {i}, {})
  {
    hide Next, Enabled, TakesVote, Vote, VotesFor;
    LeaderTakes(s, f, m, PrePrepared, prepares, {}, i);
    AckExactly(s, Vote(f, i, m));
    VotesAdd(f, m, prepares, i);
    VotesAdd(f, m, prepares + {i}, i);
  }

  /** A certificate for m in slot 0 with those signers, each signature with a MAC for everyone. */
  ghost predicate Backed(f: nat, m: Message, p: ProofRequest, signers: set<int>) {
    p.data == Slot(0, m) && Signers(p) == signers &&
    forall sig | sig in p.sigs :: sig.signer in signers && sig.validFor == Ids(3 * f + 1)
  }

  lemma CarriesBacked(f: nat, m: Message, p: ProofRequest, voters: set<int>)
    requires p.data == Slot(0, m) && Carries(p, VotesFor(f, m, voters))
    ensures Backed(f, m, p, voters)
  {
    hide Ids;
    VotesAdd(f, m, voters, 0);
  }

  lemma KeyedVotes(f: nat, m: Message, voters: set<int>)
    ensures KeyedBy(VotesFor(f, m, voters)) && |VotesFor(f, m, voters)| == |voters|
  {
    assert VotesFor(f, m, voters).Keys == voters;
    assert |VotesFor(f, m, voters)| == |VotesFor(f, m, voters).Keys|;
  }

  /** The certificate a leader makes of the votes it stores. */
  function CertificateOf(f: nat, m: Message, voters: set<int>): ProofRequest {
    ProofRequest(Slot(0, m), SigsOf(SortedValues(VotesFor(f, m, voters))))
  }

  lemma CertificateBacked(f: nat, m: Message, voters: set<int>)
    ensures Backed(f, m, CertificateOf(f, m, voters), voters)
  {
    hide Carries, Signers, Ids, VotesFor;
    KeyedVotes(f, m, voters);
    SortedCarries(Slot(0, m), VotesFor(f, m, voters));
    CarriesBacked(f, m, CertificateOf(f, m, voters), voters);
  }

  function LeaderEntry(f: nat, m: Message, status: Status, prepares: set<int>, commits: set<int>): Entry {
    Entry(m, status, false, Vote(f, 1, m), VotesFor(f, m, prepares), VotesFor(f, m, commits))
  }

  lemma LeadsParts(s: State, f: nat, m: Message, status: Status, prepares: set<int>, commits: set<int>)
    requires Leads(s, f, m, status, prepares, commits)
    ensures s.mode == Normal && s.view == 1 && s.cfg == One(f, 1) && Present(s, 0) && s.low == 0 && s.high == 19
    ensures 0 in s.slots && s.slots[0] == LeaderEntry(f, m, status, prepares, commits)
  {
    hide Vote, VotesFor;
  }

  /** t is s with another entry of the leader's in slot 0. */
  lemma LeadsOn(s: State, f: nat, m: Message, status: Status, prepares: set<int>, commits: set<int>, t: State,
                status': Status, commits': set<int>)
    requires Leads(s, f, m, status, prepares, commits)
    requires t == s.(slots := s.slots[0 := LeaderEntry(f, m, status', prepares, commits')], armed := t.armed,
                     signed := t.signed, sent := t.sent)
    requires s.signed <= t.signed && s.sent <= t.sent
    ensures Leads(t, f, m, status', prepares, commits')
  {
    hide Vote, VotesFor;
    assert t.sent == s.sent + t.sent[|s.sent|..];
  }

  /** With 2f of 3f votes the leader's timer calls for the second phase. */
  lemma LeaderCalls(s: State, f: nat, m: Message, prepares: set<int>)
    requires f >= 1 && Leads(s, f, m, Prepared, prepares, {}) && 0 in s.armed && |prepares| == 2 * f
    ensures var e, t := OnOptimisticTimer(0), Next(s, OnOptimisticTimer(0));
            Enabled(s, e) && t.view == s.view && Leads(t, f, m, Prepared, prepares, {1}) &&
            SendPrepare(CertificateOf(f, m, prepares)) in t.sent
  {
    hide Next, Vote, VotesFor, Leads, OwnVote, SortedValues, SigsOf, Present;
    LeadsParts(s, f, m, Prepared, prepares, {});
    KeyedVotes(f, m, prepares);
    VoteIs(f, 1, m);
    TimerIs(s, 0);
    OwnVoteIs(s, f, m);
    VotesAdd(f, m, {}, 1);
    assert {} + {1} == {1};
    LeadsOn(s, f, m, Prepared, prepares, {}, Next(s, OnOptimisticTimer(0)), Prepared, {1});
  }

  lemma VoteIs(f: nat, i: int, m: Message)
    ensures Vote(f, i, m).data == Slot(0, m)
  {
  }

  lemma OwnVoteIs(s: State, f: nat, m: Message)
    requires s.cfg == One(f, 1)
    ensures OwnVote(s, Slot(0, m)) == Vote(f, 1, m)
  {
  }

  /** A PREPARE_OK; the one that makes 2f + 1 votes commits, and the leader executes, tells the client and broadcasts.
      */
  lemma LeaderCounts(s: State, f: nat, m: Message, prepares: set<int>, commits: set<int>, i: int)
    requires f >= 1 && Leads(s, f, m, Prepared, prepares, commits)
    ensures var e, t := OnPrepareOk(Vote(f, i, m)), Next(s, OnPrepareOk(Vote(f, i, m)));
            Enabled(s, e) && t.view == s.view &&
            if |commits + {i}| >= 2 * f + 1
            then Finished(t, f, 1, m) && SendCommit(CertificateOf(f, m, commits + {i})) in t.sent
            else Leads(t, f, m, Prepared, prepares, commits + {i})
  {
    hide Next, Enabled, TakesVote, Vote, VotesFor, ExecutePending, Leads, SortedValues, SigsOf, Finished;
    var r := Vote(f, i, m);
    LeadsParts(s, f, m, Prepared, prepares, commits);
    LeaderTakes(s, f, m, Prepared, prepares, commits, i);
    VotesAdd(f, m, commits, i);
    KeyedVotes(f, m, commits + {i});
    VoteIs(f, 1, m);
    CommitIs(s, r);
    if |commits + {i}| >= 2 * f + 1 {
      LeaderFinishes(s, f, m, prepares, commits, commits + {i});
    } else {
      LeadsOn(s, f, m, Prepared, prepares, commits, Next(s, OnPrepareOk(r)), Prepared, commits + {i});
    }
  }

  lemma LeaderFinishes(s: State, f: nat, m: Message, prepares: set<int>, commits: set<int>, commits': set<int>)
    requires Leads(s, f, m, Prepared, prepares, commits)
    ensures var u := Put(s, 0, LeaderEntry(f, m, Committed, prepares, commits'));
            var t := Emit(ExecutePending(u), SendCommit(CertificateOf(f, m, commits')));
            Finished(t, f, 1, m) && t.view == s.view && SendCommit(CertificateOf(f, m, commits')) in t.sent
  {
    hide Vote, VotesFor, ExecutePending, CertificateOf;
    var e := LeaderEntry(f, m, Committed, prepares, commits');
    Executing(Put(s, 0, e), f, 1, e);
  }

  // ---- A backup ----

  lemma BackupAccepts(f: nat, i: int, m: Message)
    requires f >= 1 && m.sig.valid && i in Ids(3 * f + 1)
    ensures var s, e := Init(One(f, i)), OnPrePrepare(Offer(f, m));
            Enabled(s, e) && Next(s, e).view == s.view && Backs(Next(s, e), f, i, m, 1)
  {
    hide Next, Enabled, Sign, LeaderOf, Ids;
    SignIs(f, i, m);
    Accepts(Init(One(f, i)), Offer(f, m));
  }

  lemma BackupReceives(s: State, f: nat, i: int, m: Message, p: ProofRequest, signers: set<int>, stage: nat)
    requires Backs(s, f, i, m, stage) && 1 <= stage <= 2 && Backed(f, m, p, signers) && i in Ids(3 * f + 1)
    ensures Receives(s, p) && s.cfg == One(f, i) && s.view == 1 && s.slots[0].m == m && p.data.seqNum == 0
    ensures s.slots[0].status == if stage == 1 then PrePrepared else Prepared
  {
    hide Ids;
  }

  lemma BackupPrepares(s: State, f: nat, i: int, m: Message, p: ProofRequest, signers: set<int>)
    requires f >= 1 && Backs(s, f, i, m, 1) && Backed(f, m, p, signers) && |signers| >= 2 * f && i in Ids(3 * f + 1)
    ensures var e := OnPrepare(p);
            Enabled(s, e) && Next(s, e).view == s.view && Backs(Next(s, e), f, i, m, 2)
  {
    hide Next, Enabled, LeaderOf, Countable, Signers, WithPrepares, Receives, Backs, Sign, Vote;
    BackupReceives(s, f, i, m, p, signers, 1);
    AllCount(s, p);
    ReceivesIn(s, p);
    Unions(s.slots[0].prepares.Keys, signers, 2 * f);
    SignIs(f, i, m);
    Certified(s, p);
    PreparedOn(s, f, i, m, WithPrepares(s.cfg, s.slots[0], p), Next(s, OnPrepare(p)));
  }

  lemma PreparedOn(s: State, f: nat, i: int, m: Message, e: Entry, t: State)
    requires Backs(s, f, i, m, 1) && e.status == Prepared && e.m == m && e.prePrepare == s.slots[0].prePrepare
    requires t == s.(slots := s.slots[0 := e], signed := s.signed + {Slot(0, m)},
                     sent := s.sent + [SendPrepareOk(1, Vote(f, i, m))])
    ensures Backs(t, f, i, m, 2)
  {
    hide Ids;
  }

  lemma BackupFinishes(s: State, f: nat, i: int, m: Message, p: ProofRequest, signers: set<int>)
    requires f >= 1 && Backs(s, f, i, m, 2) && Backed(f, m, p, signers) && |signers| >= 2 * f + 1 && i in Ids(3 * f + 1)
    ensures var e := OnCommit(p);
            Enabled(s, e) && Next(s, e).view == s.view && Backs(Next(s, e), f, i, m, 3)
  {
    hide Next, Countable, Signers, Receives, ExecutePending, Backs, Finished, Holds;
    BackupReceives(s, f, i, m, p, signers, 2);
    ReceivesIn(s, p);
    var u := Counts(s, p);
    Unions(s.slots[0].commits.Keys, signers, 2 * f + 1);
    CommittedOn(s, f, i, m, u);
    Executing(u, f, i, u.slots[0]);
    Done(ExecutePending(u), f, i, m);
  }

  lemma CommittedOn(s: State, f: nat, i: int, m: Message, u: State)
    requires Backs(s, f, i, m, 2) && 0 in u.slots && u == Put(s, 0, u.slots[0])
    requires u.slots[0].m == s.slots[0].m && u.slots[0].prePrepare == s.slots[0].prePrepare
    ensures Holds(u, f, i, u.slots[0]) && u.slots[0].m == m && u.slots[0].prePrepare == Vote(f, 1, m) &&
            u.view == s.view
  {
    hide Ids;
  }

  lemma Done(s: State, f: nat, i: int, m: Message)
    requires Finished(s, f, i, m)
    ensures Backs(s, f, i, m, 3)
  {
    hide Finished;
  }

  // ---- The system ----

  lemma InCluster(f: nat, i: int)
    requires i in Correct(f)
    ensures i in Ids(3 * f + 1)
  {
  }

  /** Everyone among those signers has signed for m. */
  ghost predicate Voted(sys: Sys, f: nat, m: Message, signers: set<int>) {
    signers <= Correct(f) && forall i | i in signers && i in sys.replicas :: Slot(0, m) in sys.replicas[i].signed
  }

  lemma BackedAuthentic(sys: Sys, f: nat, m: Message, i: int, p: ProofRequest, signers: set<int>, e: Event)
    requires f >= 1 && Voted(sys, f, m, signers) && Backed(f, m, p, signers) && (e == OnPrepare(p) || e == OnCommit(p))
    ensures Authentic(One(f, i), VotesOf(sys), ANYONE, e)
  {
    hide Authentic, VotesOf, Signers, Ids, Everyone;
    ClusterOf(f);
    forall j | j in signers
      ensures j in Ids(3 * f + 1)
    {
      InCluster(f, j);
    }
    CertificateAuthentic(sys, Init(One(f, i)), p, e);
  }

  /** What the backups do at a stage, given what the leader sent. */
  ghost predicate Sent(s: State, f: nat, m: Message, stage: nat, voters: set<int>) {
    if stage == 0 then SendPrePrepare(Offer(f, m)) in s.sent && m.sig.valid
    else if stage == 1 then SendPrepare(CertificateOf(f, m, voters)) in s.sent && |voters| >= 2 * f
    else stage == 2 && SendCommit(CertificateOf(f, m, voters)) in s.sent && |voters| >= 2 * f + 1
  }

  function Step(f: nat, m: Message, stage: nat, voters: set<int>): Event {
    if stage == 0 then OnPrePrepare(Offer(f, m))
    else if stage == 1 then OnPrepare(CertificateOf(f, m, voters)) else OnCommit(CertificateOf(f, m, voters))
  }

  lemma BackupSteps(sys: Sys, f: nat, m: Message, stage: nat, voters: set<int>, i: int)
    requires f >= 1 && i in Correct(f) && i in sys.replicas && 1 in sys.replicas && Voted(sys, f, m, voters)
    requires Sent(sys.replicas[1], f, m, stage, voters) && Backs(sys.replicas[i], f, i, m, stage)
    ensures var s, e := sys.replicas[i], Step(f, m, stage, voters);
            Enabled(s, e) && Next(s, e).view == s.view && Backs(Next(s, e), f, i, m, stage + 1) &&
            Delivered(sys, Move(i, e)) && Authentic(s.cfg, VotesOf(sys), ANYONE, e)
  {
    hide Next, Enabled, Authentic, VotesOf, CertificateOf, Backed, Correct, Ids;
    var s, p := sys.replicas[i], CertificateOf(f, m, voters);
    InCluster(f, i);
    CertificateBacked(f, m, voters);
    if stage == 0 {
      BackupAccepts(f, i, m);
      Unbinding(s.cfg, VotesOf(sys), OnPrePrepare(Offer(f, m)));
    } else if stage == 1 {
      BackupPrepares(s, f, i, m, p, voters);
      BackedAuthentic(sys, f, m, i, p, voters, OnPrepare(p));
    } else {
      BackupFinishes(s, f, i, m, p, voters);
      BackedAuthentic(sys, f, m, i, p, voters, OnCommit(p));
    }
  }

  lemma BacksVoted(s: State, f: nat, i: int, m: Message, stage: nat)
    requires Backs(s, f, i, m, stage) && stage >= 1
    ensures Slot(0, m) in s.signed
  {
  }

  /** One backup goes through a stage. */
  lemma OneSteps(prev: Sys, f: nat, m: Message, stage: nat, voters: set<int>, i: nat) returns (sys: Sys)
    requires f >= 1 && i < 2 * f + 1 && i != 1 && Stage(prev, f, m, stage, i)
    requires 1 in prev.replicas && Sent(prev.replicas[1], f, m, stage, voters) && Voted(prev, f, m, voters)
    ensures Stage(sys, f, m, stage, i + 1) && 1 in sys.replicas && sys.replicas[1] == prev.replicas[1]
    ensures Voted(sys, f, m, voters)
  {
    hide Live, Backs, Sent, Next, Enabled, Delivered, Authentic, VotesOf, Step, Voted, Stage;
    StageAt(prev, f, m, stage, i);
    BackupSteps(prev, f, m, stage, voters, i);
    sys := Lived(prev, f, i, Step(f, m, stage, voters));
    LiveKeys(sys, f);
    StageOn(prev, sys, f, m, stage, i);
    StillVoted(prev, sys, f, m, voters, i) by { BacksVoted(sys.replicas[i], f, i, m, stage + 1); }
  }

  lemma StageAt(sys: Sys, f: nat, m: Message, stage: nat, i: nat)
    requires i < 2 * f + 1 && i != 1 && Stage(sys, f, m, stage, i)
    ensures Live(sys, f) && sys.replicas.Keys == Correct(f) && i in Correct(f)
    ensures Backs(sys.replicas[i], f, i, m, stage)
  {
    hide Backs;
  }

  lemma StageOn(sys: Sys, sys': Sys, f: nat, m: Message, stage: nat, i: nat)
    requires Stage(sys, f, m, stage, i) && Live(sys', f) && i in Correct(f) &&
             Backs(sys'.replicas[i], f, i, m, stage + 1)
    requires forall q | q in Correct(f) && q != i :: q in sys.replicas && sys'.replicas[q] == sys.replicas[q]
    ensures Stage(sys', f, m, stage, i + 1)
  {
    hide Live, Backs, Correct;
  }

  lemma StillVoted(sys: Sys, sys': Sys, f: nat, m: Message, voters: set<int>, i: int)
    requires Voted(sys, f, m, voters) && i in sys'.replicas && Slot(0, m) in sys'.replicas[i].signed
    requires forall q | q in sys'.replicas && q != i :: q in sys.replicas && sys'.replicas[q] == sys.replicas[q]
    ensures Voted(sys', f, m, voters)
  {
    hide Slot, Correct;
  }

  lemma SkipsLeader(sys: Sys, f: nat, m: Message, stage: nat)
    requires Stage(sys, f, m, stage, 1)
    ensures Stage(sys, f, m, stage, 2)
  {
    hide Live, Backs;
  }

  /** All backups go through a stage, one after the other. */
  lemma {:induction false} AllStep(before: Sys, f: nat, m: Message, stage: nat, voters: set<int>, k: nat)
    returns (sys: Sys)
    requires f >= 1 && k <= 2 * f + 1 && Stage(before, f, m, stage, 0)
    requires 1 in before.replicas && Sent(before.replicas[1], f, m, stage, voters) && Voted(before, f, m, voters)
    ensures Stage(sys, f, m, stage, k) && 1 in sys.replicas && sys.replicas[1] == before.replicas[1]
    ensures Voted(sys, f, m, voters)
  {
    hide Stage, Sent, Voted;
    if k == 0 {
      sys := before;
    } else {
      sys := AllStep(before, f, m, stage, voters, k - 1);
      if k == 2 {
        SkipsLeader(sys, f, m, stage);
      } else {
        sys := OneSteps(sys, f, m, stage, voters, k - 1);
      }
    }
  }

  lemma LiveKeys(sys: Sys, f: nat)
    requires Live(sys, f)
    ensures sys.replicas.Keys == Correct(f) && 1 in Ids(2 * f + 2)
    ensures f >= 1 ==> 1 in sys.replicas
  {
  }

  lemma VoteAuthentic(sys: Sys, f: nat, m: Message, i: int, e: Event)
    requires f >= 1 && i in Correct(f) && i in sys.replicas && Slot(0, m) in sys.replicas[i].signed
    requires e == OnPrePrepareOk(Vote(f, i, m)) || e == OnPrepareOk(Vote(f, i, m))
    ensures Authentic(One(f, 1), VotesOf(sys), ANYONE, e)
  {
    hide Ids, Slot;
    InCluster(f, i);
  }

  /** The leader counts votes: all backups are at that stage, and the leader stores these prepares and commits. */
  ghost predicate Counting(sys: Sys, f: nat, m: Message, stage: nat, status: Status, prepares: set<int>,
                           commits: set<int>) {
    Stage(sys, f, m, stage, 0) && 1 in sys.replicas && Leads(sys.replicas[1], f, m, status, prepares, commits)
  }

  lemma BackedSent(s: State, f: nat, i: int, m: Message, stage: nat)
    requires Backs(s, f, i, m, stage) && 1 <= stage <= 2
    ensures SendPrePrepareOk(1, Vote(f, i, m)) in s.sent && (stage == 2 ==> SendPrepareOk(1, Vote(f, i, m)) in s.sent)
  {
  }

  lemma SameStage(sys: Sys, sys': Sys, f: nat, m: Message, stage: nat)
    requires Stage(sys, f, m, stage, 0) && Live(sys', f)
    requires forall i | i in Correct(f) && i != 1 :: i in sys.replicas && sys'.replicas[i] == sys.replicas[i]
    ensures Stage(sys', f, m, stage, 0)
  {
    hide Live, Backs;
  }

  lemma Reported(sys: Sys, f: nat, m: Message, stage: nat, i: nat)
    requires Stage(sys, f, m, stage, 0) && i < 2 * f + 1 && i != 1 && 1 <= stage <= 2
    ensures i in sys.replicas && Backs(sys.replicas[i], f, i, m, stage)
  {
    hide Backs;
  }

  /** The leader hears backup i. */
  lemma Hears(prev: Sys, f: nat, m: Message, prepares: set<int>, i: nat) returns (sys: Sys)
    requires f >= 1 && i < 2 * f + 1 && i != 1 && Counting(prev, f, m, 1, PrePrepared, prepares, {})
    ensures if |prepares + {i}| >= 2 * f
            then Counting(sys, f, m, 1, Prepared, prepares + {i}, {}) && 0 in sys.replicas[1].armed
            else Counting(sys, f, m, 1, PrePrepared, prepares + {i}, {})
  {
    hide Live, Backs, Leads, Stage, Vote, Next, Enabled, Authentic, VotesOf, Slot;
    var e := OnPrePrepareOk(Vote(f, i, m));
    StageLive(prev, f, m, 1);
    Reported(prev, f, m, 1, i);
    BackedSent(prev.replicas[i], f, i, m, 1);
    BacksVoted(prev.replicas[i], f, i, m, 1);
    VoteAuthentic(prev, f, m, i, e);
    LeaderHears(prev.replicas[1], f, m, prepares, i);
    LeadsParts(prev.replicas[1], f, m, PrePrepared, prepares, {});
    assert Delivered(prev, Move(1, e)) by { VoteNames(f, i, m); }
    sys := Lived(prev, f, 1, e);
    LiveKeys(sys, f);
    StageKept(prev, sys, f, m, 1);
  }

  lemma VoteNames(f: nat, i: int, m: Message)
    ensures Vote(f, i, m).sig.signer == i
  {
  }

  lemma StageLive(sys: Sys, f: nat, m: Message, stage: nat)
    requires Stage(sys, f, m, stage, 0)
    ensures Live(sys, f) && sys.replicas.Keys == Correct(f)
    ensures f >= 1 ==> 1 in Correct(f)
  {
    hide Backs;
  }

  lemma StageKept(sys: Sys, sys': Sys, f: nat, m: Message, stage: nat)
    requires Stage(sys, f, m, stage, 0) && Live(sys', f) && f >= 1
    requires forall q | q in Correct(f) && q != 1 :: q in sys.replicas && q in sys'.replicas &&
                                                     sys'.replicas[q] == sys.replicas[q]
    ensures Stage(sys', f, m, stage, 0) && 1 in sys'.replicas
  {
    hide Live, Backs, Correct;
    SameStage(sys, sys', f, m, stage);
    LiveKeys(sys', f);
  }

  /** The leader hears the first k replicas, itself apart. */
  lemma {:induction false} HearsAll(before: Sys, f: nat, m: Message, k: nat) returns (sys: Sys)
    requires f >= 1 && k <= 2 * f + 1 && Counting(before, f, m, 1, PrePrepared, {}, {})
    ensures if k == 2 * f + 1
            then Counting(sys, f, m, 1, Prepared, Others(k), {}) && 0 in sys.replicas[1].armed
            else Counting(sys, f, m, 1, PrePrepared, Others(k), {})
  {
    hide Counting, Ids, Others;
    if k == 0 {
      sys := before;
      OthersEmpty();
    } else {
      sys := HearsAll(before, f, m, k - 1);
      OthersSize(k - 1);
      OthersSize(k);
      if k != 2 {
        sys := Hears(sys, f, m, Others(k - 1), k - 1);
      }
    }
  }

  lemma OthersEmpty()
    ensures Others(0) == {} && WithOwn(0) == {1}
  {
  }

  /** The leader counts backup i's vote to commit. */
  lemma Tallies(prev: Sys, f: nat, m: Message, prepares: set<int>, commits: set<int>, i: nat) returns (sys: Sys)
    requires f >= 1 && i < 2 * f + 1 && i != 1 && Counting(prev, f, m, 2, Prepared, prepares, commits)
    ensures Stage(sys, f, m, 2, 0) && 1 in sys.replicas
    ensures if |commits + {i}| >= 2 * f + 1
            then Finished(sys.replicas[1], f, 1, m) &&
                 SendCommit(CertificateOf(f, m, commits + {i})) in sys.replicas[1].sent
            else Counting(sys, f, m, 2, Prepared, prepares, commits + {i})
  {
    hide Live, Backs, Leads, Stage, Vote, Next, Enabled, Authentic, VotesOf, Slot, Finished, CertificateOf;
    var e := OnPrepareOk(Vote(f, i, m));
    StageLive(prev, f, m, 2);
    Reported(prev, f, m, 2, i);
    BackedSent(prev.replicas[i], f, i, m, 2);
    BacksVoted(prev.replicas[i], f, i, m, 2);
    VoteAuthentic(prev, f, m, i, e);
    LeaderCounts(prev.replicas[1], f, m, prepares, commits, i);
    LeadsParts(prev.replicas[1], f, m, Prepared, prepares, commits);
    assert Delivered(prev, Move(1, e)) by { VoteNames(f, i, m); }
    sys := Lived(prev, f, 1, e);
    LiveKeys(sys, f);
    StageKept(prev, sys, f, m, 2);
  }

  /** The leader counts the votes to commit of the first k replicas besides its own. */
  lemma {:induction false} TalliesAll(before: Sys, f: nat, m: Message, prepares: set<int>, k: nat) returns (sys: Sys)
    requires f >= 1 && k <= 2 * f + 1 && Counting(before, f, m, 2, Prepared, prepares, {1})
    ensures Stage(sys, f, m, 2, 0) && 1 in sys.replicas
    ensures if k == 2 * f + 1
            then Finished(sys.replicas[1], f, 1, m) &&
                 SendCommit(CertificateOf(f, m, WithOwn(k))) in sys.replicas[1].sent
            else Counting(sys, f, m, 2, Prepared, prepares, WithOwn(k))
  {
    hide Ids, WithOwn, Stage, Leads, Finished, CertificateOf;
    if k == 0 {
      sys := before;
      OthersEmpty();
    } else {
      sys := TalliesAll(before, f, m, prepares, k - 1);
      WithOwnSize(k - 1);
      WithOwnSize(k);
      if k == 2 {
        assert WithOwn(2) == WithOwn(1) by { OwnTwice(); }
      } else {
        sys := Tallies(sys, f, m, prepares, WithOwn(k - 1), k - 1);
      }
    }
  }

  lemma OwnTwice()
    ensures WithOwn(2) == WithOwn(1)
  {
    SameSet(WithOwn(2), WithOwn(1));
  }

  // ---- A request, from beginning to end ----

  lemma Opens(f: nat, m: Message) returns (sys: Sys)
    requires f >= 1 && m.sig.valid
    ensures Counting(sys, f, m, 0, PrePrepared, {}, {})
  {
    hide Init, Live, Leads, Next, Enabled, Authentic, VotesOf;
    var start := Lives(f);
    LiveKeys(start, f);
    LeaderProposes(f, m);
    Unbinding(start.replicas[1].cfg, VotesOf(start), OnTransfer(m));
    sys := Lived(start, f, 1, OnTransfer(m));
    LiveKeys(sys, f);
  }

  lemma NextStage(sys: Sys, f: nat, m: Message, stage: nat)
    requires Stage(sys, f, m, stage, 2 * f + 1)
    ensures Stage(sys, f, m, stage + 1, 0)
  {
    hide Live, Backs;
  }

  lemma NobodyVotes(sys: Sys, f: nat, m: Message)
    ensures Voted(sys, f, m, {})
  {
  }

  /** The backups and, if it is still counting, the leader have voted. */
  lemma StageVoted(sys: Sys, f: nat, m: Message, stage: nat, voters: set<int>)
    requires f >= 1 && Stage(sys, f, m, stage, 0) && stage >= 1 && voters <= Correct(f)
    requires 1 in sys.replicas && Slot(0, m) in sys.replicas[1].signed
    ensures Voted(sys, f, m, voters)
  {
    hide Live, Backs, Slot;
    forall i | i in voters && i in sys.replicas
      ensures Slot(0, m) in sys.replicas[i].signed
    {
      if i != 1 {
        BacksVoted(sys.replicas[i], f, i, m, stage);
      }
    }
  }

  lemma LeadsVoted(s: State, f: nat, m: Message, status: Status, prepares: set<int>, commits: set<int>)
    requires Leads(s, f, m, status, prepares, commits)
    ensures Slot(0, m) in s.signed && SendPrePrepare(Offer(f, m)) in s.sent
  {
  }

  lemma FinishedVoted(s: State, f: nat, i: int, m: Message)
    requires Finished(s, f, i, m)
    ensures Slot(0, m) in s.signed
  {
  }

  lemma VotersCorrect(f: nat)
    requires f >= 1
    ensures Others(2 * f + 1) <= Correct(f) && WithOwn(2 * f + 1) <= Correct(f)
    ensures |Others(2 * f + 1)| == 2 * f && |WithOwn(2 * f + 1)| == 2 * f + 1
  {
    OthersSize(2 * f + 1);
    WithOwnSize(2 * f + 1);
  }

  /** The backups have accepted the proposal, and the leader has all their votes. */
  lemma Prepares(f: nat, m: Message) returns (sys: Sys)
    requires f >= 1 && m.sig.valid
    ensures Counting(sys, f, m, 1, Prepared, Others(2 * f + 1), {}) && 0 in sys.replicas[1].armed
  {
    hide Stage, Leads, Others, Correct, Voted;
    sys := Opens(f, m);
    LeadsVoted(sys.replicas[1], f, m, PrePrepared, {}, {});
    NobodyVotes(sys, f, m);
    sys := AllStep(sys, f, m, 0, {}, 2 * f + 1);
    NextStage(sys, f, m, 0);
    sys := HearsAll(sys, f, m, 2 * f + 1);
  }

  /** The leader's timer fires. */
  lemma Calls(prev: Sys, f: nat, m: Message) returns (sys: Sys)
    requires f >= 1 && Counting(prev, f, m, 1, Prepared, Others(2 * f + 1), {}) && 0 in prev.replicas[1].armed
    ensures Counting(sys, f, m, 1, Prepared, Others(2 * f + 1), {1})
    ensures Sent(sys.replicas[1], f, m, 1, Others(2 * f + 1)) && Voted(sys, f, m, Others(2 * f + 1))
  {
    hide Live, Backs, Leads, Stage, Next, Enabled, Authentic, VotesOf, Slot, Others, CertificateOf, Voted;
    var voters := Others(2 * f + 1);
    VotersCorrect(f);
    StageLive(prev, f, m, 1);
    LeaderCalls(prev.replicas[1], f, m, voters);
    LeadsParts(prev.replicas[1], f, m, Prepared, voters, {});
    TimerAuthentic(prev.replicas[1].cfg, VotesOf(prev));
    sys := Lived(prev, f, 1, OnOptimisticTimer(0));
    LiveKeys(sys, f);
    StageKept(prev, sys, f, m, 1);
    LeadsVoted(sys.replicas[1], f, m, Prepared, voters, {1});
    StageVoted(sys, f, m, 1, voters);
  }

  lemma TimerAuthentic(cfg: Config, V: Votes)
    ensures Authentic(cfg, V, ANYONE, OnOptimisticTimer(0))
  {
  }

  /** Backups prepare on the leader's call, and their votes commit the slot at the leader. */
  lemma Commits(f: nat, m: Message) returns (sys: Sys)
    requires f >= 1 && m.sig.valid
    ensures Stage(sys, f, m, 2, 0) && 1 in sys.replicas && Finished(sys.replicas[1], f, 1, m)
    ensures Sent(sys.replicas[1], f, m, 2, WithOwn(2 * f + 1)) && Voted(sys, f, m, WithOwn(2 * f + 1))
  {
    hide Stage, Leads, Others, WithOwn, Correct, Voted, Finished, CertificateOf, Slot;
    VotersCorrect(f);
    var prepared := Prepares(f, m);
    var called := Calls(prepared, f, m);
    sys := AllStep(called, f, m, 1, Others(2 * f + 1), 2 * f + 1);
    NextStage(sys, f, m, 1);
    sys := TalliesAll(sys, f, m, Others(2 * f + 1), 2 * f + 1);
    FinishedVoted(sys.replicas[1], f, 1, m);
    StageVoted(sys, f, m, 2, WithOwn(2 * f + 1));
  }

  /** For every f: of 3f + 1 replicas f never say a word. From the initial state, on messages that were really sent,
      the others propose, prepare, commit and execute a client's transfer in slot 0, with the result of the transfer
      rule, and each tells the client so under its own signature. */
  lemma RequestCompletes(f: nat, m: Message) returns (sys: Sys)
    requires f >= 1 && m.sig.valid
    ensures Live(sys, f) && Reachable(sys, One(f, 0), Correct(f), ANYONE)
    ensures forall i | i in Correct(f) :: Finished(sys.replicas[i], f, i, m)
  {
    hide Live, Reachable, Finished, WithOwn, Voted, Correct;
    sys := Commits(f, m);
    sys := AllStep(sys, f, m, 2, WithOwn(2 * f + 1), 2 * f + 1);
    LiveKeys(sys, f);
    forall i | i in Correct(f) && i != 1
      ensures Finished(sys.replicas[i], f, i, m)
    {
      LastStage(sys, f, m, i);
    }
    LiveReachable(sys, f);
  }

  lemma LastStage(sys: Sys, f: nat, m: Message, i: int)
    requires Stage(sys, f, m, 2, 2 * f + 1) && i in Correct(f) && i != 1
    ensures i in sys.replicas && Finished(sys.replicas[i], f, i, m)
  {
    hide Finished, Live;
    LiveKeys(sys, f);
  }

  // ---- The client ----

  /** Replica i's answer. */
  function Answer(f: nat, i: int, m: Message): Response {
    Response(m.data, Result(f, m), 1, Signature(i, true))
  }

  /** The client with one transfer outstanding that the first k replicas have answered. */
  ghost predicate Waiting(c: Client.State, f: nat, m: Message, k: nat) {
    c.f == f && c.completed == [] && |c.queue| == 1 && c.queue[0].t == m.data &&
    c.queue[0].successes == (if Result(f, m) then Ids(k) else {}) &&
    c.queue[0].failures == (if Result(f, m) then {} else Ids(k))
  }

  /** The client's run: its own line of a batch, and then the answers of the first k replicas. */
  function Answers(f: nat, m: Message, tx: Client.Transaction, now: int, k: nat): seq<Client.Event> {
    [Client.OnProcess([tx], [now])] + seq(k, i requires 0 <= i < k => Client.OnNotify(Answer(f, i, m)))
  }

  lemma ClientIssues(id: int, f: nat, tx: Client.Transaction, now: int)
    requires f >= 1
    ensures var m := Message(Transfer(tx.sender, tx.receiver, tx.amount, now), Signature(id, true));
            var c := Client.Next(Client.Init(id, tx.sender, f), Client.OnProcess([tx], [now]));
            Waiting(c, f, m, 0) && c.sent == [Client.ToLeader(1, m)]
  {
    hide Ids, Apply;
    Remainder(3 * f + 1);
    var c := Client.Init(id, tx.sender, f);
    var q := Client.Fresh(0, tx, now);
    assert Client.Enqueue(c, [tx], [now], 1) == c.(queue := [q], issued := [q.t]) by {
      assert Client.Enqueue(c, [tx], [now], 0) == c;
    }
    assert Client.ProcessProcess(c, [tx], [now]) == Client.DoTransfers(c.(queue := [q], issued := [q.t]));
    assert Ids(0) == {};
  }

  lemma ClientHears(c: Client.State, f: nat, m: Message, k: nat)
    requires Waiting(c, f, m, k) && k <= f
    ensures var d := Client.ProcessNotify(c, Answer(f, k, m));
            if k < f then Waiting(d, f, m, k + 1)
            else d.queue == [] && d.completed == [Client.Completion(m.data, Result(f, m))]
  {
    hide Result, Ids, Client.DoTransfers, Client.Decided;
    assert Ids(k) + {k} == Ids(k + 1) by { IdsNext(k); }
    var q := Client.Counted(c.queue[0], Answer(f, k, m));
    assert Client.Decided(c, q) <==> k == f by { DecidedAt(c, q); }
    if k == f {
      NothingLeft(Client.Pop(Client.Hear(c, Answer(f, k, m)), q));
    }
  }

  lemma IdsNext(k: nat)
    ensures Ids(k) + {k} == Ids(k + 1)
  {
  }

  lemma DecidedAt(c: Client.State, q: Client.Queued)
    ensures Client.Decided(c, q) <==> |q.successes| >= c.f + 1 || |q.failures| >= c.f + 1
  {
  }

  lemma NothingLeft(c: Client.State)
    requires c.queue == []
    ensures Client.DoTransfers(c) == c
  {
  }

  lemma {:induction false} ClientRun(id: int, f: nat, tx: Client.Transaction, now: int, k: nat)
    requires f >= 1 && k <= f + 1
    ensures var m := Message(Transfer(tx.sender, tx.receiver, tx.amount, now), Signature(id, true));
            var c := Client.Run(Client.Init(id, tx.sender, f), Answers(f, m, tx, now, k));
            c.Some? && if k <= f then Waiting(c.value, f, m, k)
                       else c.value.queue == [] && c.value.completed == [Client.Completion(m.data, Result(f, m))]
  {
    hide Client.Next, Client.Enabled, Client.Init, Waiting, Answer, Client.ProcessNotify, Ids, Result;
    var m := Message(Transfer(tx.sender, tx.receiver, tx.amount, now), Signature(id, true));
    var es := Answers(f, m, tx, now, k);
    if k == 0 {
      ClientIssues(id, f, tx, now);
      assert es == [Client.OnProcess([tx], [now])] && es[..0] == [];
      ClientEnabled(Client.Init(id, tx.sender, f), es[0]);
    } else {
      ClientRun(id, f, tx, now, k - 1);
      assert es[..|es| - 1] == Answers(f, m, tx, now, k - 1) && es[|es| - 1] == Client.OnNotify(Answer(f, k - 1, m));
      var c := Client.Run(Client.Init(id, tx.sender, f), es[..|es| - 1]).value;
      ClientEnabled(c, es[|es| - 1]);
      ClientHears(c, f, m, k - 1);
    }
  }

  lemma ClientEnabled(c: Client.State, e: Client.Event)
    requires e.OnNotify? || (e.OnProcess? && |e.txs| == |e.clock|)
    ensures Client.Enabled(c, e) && (e.OnNotify? ==> Client.Next(c, e) == Client.ProcessNotify(c, e.r))
  {
    hide Client.ProcessNotify;
  }

  /** The event is a reply that a replica sent to this client. */
  ghost predicate FromReplica(sys: Sys, id: int, e: Client.Event) {
    e.OnNotify? && SentBy(sys, e.r.sig.signer, Notify(id, e.r))
  }

  /** The message the client makes of a line of its input. */
  function Issued(id: int, tx: Client.Transaction, now: int): Message {
    Message(Transfer(tx.sender, tx.receiver, tx.amount, now), Signature(id, true))
  }

  /** From the client's input to its answer, for every f and every transfer: the client sends the request to replica
      1, the 2f + 1 replicas that answer at all execute it, and the answers of f + 1 of them complete it, with the
      result that the transfer rule gives. */
  lemma ClientAnswered(id: int, f: nat, tx: Client.Transaction, now: int) returns (sys: Sys, es: seq<Client.Event>)
    requires f >= 1
    ensures Live(sys, f) && forall i | i in Correct(f) :: Finished(sys.replicas[i], f, i, Issued(id, tx, now))
    ensures |es| == f + 2 && es[0] == Client.OnProcess([tx], [now]) &&
            forall j | 1 <= j < |es| :: FromReplica(sys, id, es[j])
    ensures Client.Next(Client.Init(id, tx.sender, f), es[0]).sent == [Client.ToLeader(1, Issued(id, tx, now))]
    ensures var c := Client.Run(Client.Init(id, tx.sender, f), es);
            c.Some? &&
            c.value.completed == [Client.Completion(Issued(id, tx, now).data, Result(f, Issued(id, tx, now)))]
  {
    hide Live, Reachable, Client.Run, Client.Init, Client.Next, Result, Finished, Correct, FromReplica;
    var m := Issued(id, tx, now);
    sys := RequestCompletes(f, m);
    LiveKeys(sys, f);
    es := Answers(f, m, tx, now, f + 1);
    ClientRun(id, f, tx, now, f + 1);
    ClientIssues(id, f, tx, now);
    forall j | 1 <= j < |es|
      ensures FromReplica(sys, id, es[j])
    {
      assert es[j] == Client.OnNotify(Answer(f, j - 1, m));
      FirstCorrect(f, j - 1);
      FinishedTold(sys.replicas[j - 1], f, j - 1, m);
      assert FromReplica(sys, id, es[j]) by { AnswerFrom(sys, id, f, j - 1, m); }
    }
  }

  lemma AnswerFrom(sys: Sys, id: int, f: nat, i: int, m: Message)
    requires i in sys.replicas && Notify(m.sig.signer, Answer(f, i, m)) in sys.replicas[i].sent && m.sig.signer == id
    ensures FromReplica(sys, id, Client.OnNotify(Answer(f, i, m)))
  {
    hide Result;
  }

  lemma FirstCorrect(f: nat, i: nat)
    requires i <= f
    ensures i in Correct(f)
  {
  }

  lemma FinishedTold(s: State, f: nat, i: int, m: Message)
    requires Finished(s, f, i, m)
    ensures Notify(m.sig.signer, Answer(f, i, m)) in s.sent
  {
  }
}
