/** Runs of a small system that show what the theorems about runs leave open, and that they are not empty. */
module Scenario {
  import opened Messages
  import opened Accounts
  import opened Quorum
  import opened ReplicaState
  import opened Window
  import opened ExecutionFold
  import opened OneView
  import opened Agreement
  import CheckpointText

  const ANYONE := (m: Message) => true

  // ---- Steps ----

  lemma Begin(cfg: Config, correct: set<int>)
    requires Cluster(cfg, correct)
    ensures Reachable(Start(cfg, correct), cfg, correct, ANYONE)
    ensures Start(cfg, correct).replicas.Keys == correct
    ensures forall r | r in correct :: Start(cfg, correct).replicas[r] == Init(cfg.(id := r))
  {
    hide Init, Cluster;
    assert After(Start(cfg, correct), ANYONE, []) == Some(Start(cfg, correct));
  }

  /** The system after an event at replica r. */
  function At(sys: Sys, r: int, e: Event): Sys
    requires r in sys.replicas && Enabled(sys.replicas[r], e)
  {
    Sys(sys.replicas[r := Next(sys.replicas[r], e)])
  }

  lemma Extends(sys: Sys, mvs: seq<Move>, mv: Move)
    requires After(sys, ANYONE, mvs).Some? && Allowed(After(sys, ANYONE, mvs).value, ANYONE, mv)
    ensures After(sys, ANYONE, mvs + [mv]) == Some(Moved(After(sys, ANYONE, mvs).value, mv))
  {
    hide Allowed, Moved;
    assert (mvs + [mv])[..|mvs + [mv]| - 1] == mvs;
  }

  lemma MoveTo(sys: Sys, r: int, e: Event)
    requires r in sys.replicas && Enabled(sys.replicas[r], e)
    requires Authentic(sys.replicas[r].cfg, VotesOf(sys), ANYONE, e)
    requires Next(sys.replicas[r], e).view == sys.replicas[r].view
    ensures Allowed(sys, ANYONE, Move(r, e)) && Moved(sys, Move(r, e)) == At(sys, r, e)
  {
    hide Next, Enabled, Authentic, VotesOf;
  }

  lemma Go(sys: Sys, cfg: Config, correct: set<int>, r: int, e: Event)
    requires Reachable(sys, cfg, correct, ANYONE) && r in sys.replicas && Enabled(sys.replicas[r], e)
    requires Authentic(sys.replicas[r].cfg, VotesOf(sys), ANYONE, e)
    requires Next(sys.replicas[r], e).view == sys.replicas[r].view
    ensures Reachable(At(sys, r, e), cfg, correct, ANYONE)
  {
    hide Next, Enabled, Authentic, Cluster, VotesOf, Start, After, Allowed, Moved;
    var mvs :| After(Start(cfg, correct), ANYONE, mvs) == Some(sys);
    MoveTo(sys, r, e);
    Extends(Start(cfg, correct), mvs, Move(r, e));
  }

  /** A certificate signed for by faulty replicas, and by correct ones that did sign, is authentic. */
  lemma CertificateAuthentic(sys: Sys, s: State, p: ProofRequest, e: Event)
    requires e == OnPrepare(p) || e == OnCommit(p)
    requires forall sig | sig in p.sigs ::
               sig.signer in Everyone(s.cfg) &&
               (sig.signer in sys.replicas ==> p.data in sys.replicas[sig.signer].signed)
    ensures Authentic(s.cfg, VotesOf(sys), ANYONE, e)
  {
    hide Everyone;
  }

  /** Requests, pre-prepares and checkpoint messages bind nobody. */
  lemma Unbinding(cfg: Config, V: Votes, e: Event)
    requires e.OnTransfer? || e.OnPrePrepare? || e.OnCheckpoint?
    ensures Authentic(cfg, V, ANYONE, e)
  {
  }

  /** In its first view, with the window at the start or later. */
  predicate Steady(s: State) {
    s.mode == Normal && s.view == 1 && !s.cfg.byzantine
  }

  /** What a replica does with a good pre-prepare for an empty slot of its window. */
  lemma Accepts(s: State, p: PrePrepareRequest)
    requires Steady(s) && PrePrepareOffered(s, p) && p.r.data.seqNum !in s.slots
    ensures var e := OnPrePrepare(p);
            var n := p.r.data.seqNum;
            Enabled(s, e) &&
            Next(s, e) == s.(slots := s.slots[n := Opened(s, p)], awaited := s.awaited - {p.r.data.digest},
                             current := Max(n, s.current), index := s.index[p.r.data.digest := n],
                             signed := s.signed + {p.r.data},
                             sent := s.sent + [SendPrePrepareOk(p.r.sig.signer, Sign(s.cfg, p.r.data))])
    ensures Opened(s, p) == Entry(p.m, PrePrepared, false, p.r, map[s.cfg.id := Sign(s.cfg, p.r.data)], map[])
  {
    hide Sign, PrePrepareOffered;
  }

  /** What the leader does with a new request. */
  lemma Proposed(s: State, m: Message)
    requires Steady(s) && Proposes(s, m) && s.current < s.high
    ensures Enabled(s, OnTransfer(m)) && Next(s, OnTransfer(m)) == Propose(s, m)
  {
    hide Propose, Known, IsLeader;
  }

  /** What a certificate does to a waiting slot. */
  lemma Certified(s: State, p: ProofRequest)
    requires Steady(s) && p.data.view == 1 && Present(s, p.data.seqNum)
    requires s.slots[p.data.seqNum].status == PrePrepared && s.slots[p.data.seqNum].prePrepare.data == p.data
    requires |s.slots[p.data.seqNum].prepares.Keys + Countable(s.cfg.id, p.sigs)| >= 2 * s.cfg.f
    ensures var n, e := p.data.seqNum, WithPrepares(s.cfg, s.slots[p.data.seqNum], p);
            Enabled(s, OnPrepare(p)) &&
            Next(s, OnPrepare(p)) ==
              s.(slots := s.slots[n := e], signed := s.signed + {p.data},
                 sent := s.sent + [SendPrepareOk(LeaderOf(s.cfg, 1), Sign(s.cfg, p.data))]) &&
            e.status == Prepared && e.prePrepare == s.slots[n].prePrepare && e.m == s.slots[n].m &&
            e.commits == s.slots[n].commits &&
            e.prepares.Keys == s.slots[n].prepares.Keys + Countable(s.cfg.id, p.sigs)
  {
    hide Sign, LeaderOf, AddProofs, Countable;
    CertificateRaises(s.cfg, s.slots[p.data.seqNum], p);
    AddProofsCounts(s.cfg.id, p.data, p.sigs, s.slots[p.data.seqNum].prepares);
  }

  // ---- Four replicas, of which number 1 leads ----

  const ONE := Message(Transfer("A", "B", 1, 7), Signature(9, true))
  const TWO := Message(Transfer("A", "B", 2, 8), Signature(9, true))

  function Four(id: int, step: nat): Config {
    Config(id, 1, 20, step, false, map["A" := 10, "B" := 10])
  }

  function Slot(n: int, m: Message): Context {
    Context(1, n, TransferDigest(m.data))
  }

  /** A pre-prepare in the leader's name without a single good MAC. */
  function Unsigned(n: int, m: Message): PrePrepareRequest {
    PrePrepareRequest(Request(Slot(n, m), SignatureVec(1, {})), m)
  }

  function Certificate(n: int, m: Message, signers: seq<int>): ProofRequest {
    ProofRequest(Slot(n, m), seq(|signers|, i requires 0 <= i < |signers| => SignatureVec(signers[i], {0, 1, 2, 3})))
  }

  lemma FourCluster(step: nat, correct: set<int>)
    requires correct <= {0, 1, 2, 3} && |{0, 1, 2, 3} - correct| <= 1
    ensures Cluster(Four(0, step), correct) && LeaderOf(Four(0, step), 1) == 1
    ensures forall id :: Everyone(Four(id, step)) == {0, 1, 2, 3} && LeaderOf(Four(id, step), 1) == 1
  {
    assert Ids(4) == {0, 1, 2, 3};
  }

  lemma SignersOf(me: int, n: int, m: Message, signers: seq<int>)
    requires me in {0, 1, 2, 3}
    ensures forall sig | sig in Certificate(n, m, signers).sigs :: sig.signer in signers
    ensures Countable(me, Certificate(n, m, signers).sigs) == set x | x in signers
  {
    var sigs := Certificate(n, m, signers).sigs;
    forall x | x in signers
      ensures x in Countable(me, sigs)
    {
      var i :| 0 <= i < |signers| && signers[i] == x;
      assert sigs[i] in sigs && sigs[i].signer == x;
    }
    SameSet(Countable(me, sigs), set x | x in signers);
  }

  /** A replica of the four, with the start of its window and the last slots it opened and executed. */
  predicate Looks(s: State, id: int, low: int, current: int, last: int) {
    Steady(s) && s.cfg == Four(id, s.cfg.step) && s.low == low && s.high == low + 19 && s.current == current &&
    s.lastExecuted == last
  }

  /** The same checkpoints, stable or not. */
  predicate SameStable(s: State, t: State) {
    t.cfg == s.cfg && t.checkpoints == s.checkpoints && t.stableSeq == s.stableSeq &&
    t.stableDigest == s.stableDigest &&
    t.stableProofs == s.stableProofs
  }

  lemma Fresh(id: int, step: nat)
    ensures var s := Init(Four(id, step));
            Looks(s, id, 0, -1, -1) && s.slots == map[] && s.index == map[] && s.signed == {} && s.executed == [] &&
            s.balances == Four(id, step).initial && s.checkpoints == map[] && s.stableSeq == -1 &&
            s.cfg == Four(id, step) && s.cfg.step == step
  {
  }

  function Accepted(id: int, n: int, m: Message): Entry {
    Entry(m, PrePrepared, false, Unsigned(n, m).r, map[id := Request(Slot(n, m), SignatureVec(id, {0, 1, 2, 3}))],
          map[])
  }

  /** A replica accepts an unsigned pre-prepare for an empty slot. */
  lemma AcceptOn(s: State, id: int, low: int, current: int, last: int, n: int, m: Message)
    requires Looks(s, id, low, current, last) && n !in s.slots && m.sig.valid && low <= n <= low + 19
    ensures Enabled(s, OnPrePrepare(Unsigned(n, m)))
    ensures var t := Next(s, OnPrePrepare(Unsigned(n, m)));
            Looks(t, id, low, Max(n, current), last) && t.slots == s.slots[n := Accepted(id, n, m)] &&
            t.signed == s.signed + {Slot(n, m)} && t.balances == s.balances && t.executed == s.executed &&
            SameStable(s, t)
  {
    hide Next, Enabled, Opened, Everyone, LeaderOf;
    FourCluster(s.cfg.step, {0, 1, 2, 3});
    Accepts(s, Unsigned(n, m));
  }

  lemma AcceptedIs(id: int, n: int, m: Message)
    ensures var e := Accepted(id, n, m);
            e.status == PrePrepared && e.prePrepare.data == Slot(n, m) && e.m == m && e.prepares.Keys == {id} &&
            e.commits == map[]
  {
  }

  lemma CertificateData(n: int, m: Message, signers: seq<int>)
    ensures Certificate(n, m, signers).data == Slot(n, m) && Unsigned(n, m).r.data == Slot(n, m)
  {
  }

  /** p is faulty, or signed c. */
  predicate MaySign(sys: Sys, p: int, c: Context) {
    p in {0, 1, 2, 3} && (p in sys.replicas ==> c in sys.replicas[p].signed)
  }

  predicate AllMaySign(sys: Sys, signers: seq<int>, c: Context) {
    forall p | p in signers :: MaySign(sys, p, c)
  }

  lemma ThreeMaySign(sys: Sys, p: int, q: int, r: int, c: Context)
    requires MaySign(sys, p, c) && MaySign(sys, q, c) && MaySign(sys, r, c)
    ensures AllMaySign(sys, [p, q, r], c) && AllMaySign(sys, [p, q], c)
  {
    hide MaySign;
  }

  // ---- Moves of that system ----

  ghost predicate Reaches(sys: Sys, step: nat, correct: set<int>) {
    Reachable(sys, Four(0, step), correct, ANYONE)
  }

  lemma Opening(step: nat, correct: set<int>) returns (sys: Sys)
    requires correct <= {0, 1, 2, 3} && |{0, 1, 2, 3} - correct| <= 1
    ensures Reaches(sys, step, correct) && sys.replicas.Keys == correct
    ensures forall r | r in correct :: sys.replicas[r] == Init(Four(r, step))
  {
    hide Init, Cluster, Reachable, Start;
    FourCluster(step, correct);
    Begin(Four(0, step), correct);
    sys := Start(Four(0, step), correct);
  }

  /** Everyone but replica id is as before. */
  ghost predicate Only(sys: Sys, sys': Sys, id: int) {
    id in sys.replicas && sys'.replicas.Keys == sys.replicas.Keys &&
    forall r | r in sys.replicas && r != id :: sys'.replicas[r] == sys.replicas[r]
  }

  lemma MoveOn(sys: Sys, step: nat, correct: set<int>, id: int, e: Event) returns (sys': Sys)
    requires Reaches(sys, step, correct) && id in sys.replicas && Enabled(sys.replicas[id], e)
    requires Authentic(sys.replicas[id].cfg, VotesOf(sys), ANYONE, e)
    requires Next(sys.replicas[id], e).view == sys.replicas[id].view
    ensures Reaches(sys', step, correct) && Only(sys, sys', id) && sys'.replicas[id] == Next(sys.replicas[id], e)
  {
    hide Next, Enabled, Authentic, VotesOf, Reachable, Four;
    Go(sys, Four(0, step), correct, id, e);
    sys' := At(sys, id, e);
  }

  lemma AcceptMove(sys: Sys, step: nat, correct: set<int>, id: int, low: int, current: int, last: int, n: int,
                   m: Message)
    returns (sys': Sys)
    requires Reaches(sys, step, correct) && id in sys.replicas && Looks(sys.replicas[id], id, low, current, last)
    requires n !in sys.replicas[id].slots && m.sig.valid && low <= n <= low + 19
    ensures Reaches(sys', step, correct) && Only(sys, sys', id)
    ensures var s, t := sys.replicas[id], sys'.replicas[id];
            Looks(t, id, low, Max(n, current), last) && t.slots == s.slots[n := Accepted(id, n, m)] &&
            t.signed == s.signed + {Slot(n, m)} && t.balances == s.balances && t.executed == s.executed &&
            SameStable(s, t)
  {
    hide Next, Enabled, Authentic, VotesOf, Reaches, Unsigned, Accepted, Four, Slot, SameStable;
    AcceptOn(sys.replicas[id], id, low, current, last, n, m);
    Unbinding(sys.replicas[id].cfg, VotesOf(sys), OnPrePrepare(Unsigned(n, m)));
    sys' := MoveOn(sys, step, correct, id, OnPrePrepare(Unsigned(n, m)));
  }

  /** A certificate of the given signers is authentic when the correct ones among them signed. */
  lemma CertificateFrom(sys: Sys, step: nat, id: int, p: ProofRequest, e: Event, n: int, m: Message, signers: seq<int>)
    requires p == Certificate(n, m, signers) && (e == OnPrepare(p) || e == OnCommit(p))
    requires AllMaySign(sys, signers, Slot(n, m))
    ensures Authentic(Four(id, step), VotesOf(sys), ANYONE, e)
  {
    hide Authentic, VotesOf, Everyone, Slot;
    FourCluster(step, {0, 1, 2, 3});
    SignersOf(0, n, m, signers);
    CertificateData(n, m, signers);
    CertificateAuthentic(sys, Init(Four(id, step)), p, e);
  }

  // ---- Executing ----

  /** A pass that meets empty slots and then the committed last one executes just that one. */
  lemma {:induction false} OnlyExecutes(s: State, from: int, n: int)
    requires from <= n == s.current && n in s.slots && s.slots[n].status == Committed
    requires forall i | from <= i < n :: i !in s.slots
    ensures ExecuteFrom(s, from) == ExecuteOne(s, n)
    decreases n - from
  {
    hide ExecuteOne;
    if from < n {
      OnlyExecutes(s, from + 1, n);
    } else {
      assert ExecuteOne(s, n).current == n by { CurrentStays(s, n); }
    }
  }

  lemma CurrentStays(s: State, n: int)
    requires n in s.slots
    ensures ExecuteOne(s, n).current == s.current
  {
    hide Checkpoint, Apply, ExecuteOne;
    ExecuteOneIs(s, n);
    assert Executed1(s, n).current == s.current;
    CheckpointCurrent(Executed1(s, n));
  }

  lemma CheckpointCurrent(s: State)
    requires s.balances.Keys != {}
    ensures Checkpoint(s).current == s.current
  {
  }

  /** What a commit certificate does to a waiting slot. */
  lemma Committing(s: State, p: ProofRequest)
    requires Steady(s) && p.data.view == 1 && Present(s, p.data.seqNum)
    requires s.slots[p.data.seqNum].status == PrePrepared && s.slots[p.data.seqNum].prePrepare.data == p.data
    requires |s.slots[p.data.seqNum].commits.Keys + Countable(s.cfg.id, p.sigs)| >= 2 * s.cfg.f + 1
    ensures var n, e := p.data.seqNum, WithCommits(s.cfg, s.slots[p.data.seqNum], p);
            Enabled(s, OnCommit(p)) && Next(s, OnCommit(p)) == ExecutePending(Put(s, n, e)) &&
            e.status == Committed && e.prePrepare == s.slots[n].prePrepare && e.m == s.slots[n].m &&
            e.prepares == s.slots[n].prepares
  {
    hide Sign, LeaderOf, AddProofs, Countable, ExecutePending;
    CertificateRaises(s.cfg, s.slots[p.data.seqNum], p);
  }

  /** A committed slot of one of the four is executed; with a step of 1 it is checkpointed too. */
  lemma ExecuteOn(s: State, id: int, low: int, last: int, n: int)
    requires Looks(s, id, low, n, last) && n in s.slots && 0 <= n < 9 && (s.cfg.step == 10 || s.cfg.step == 1)
    ensures var t, applied := ExecuteOne(s, n), Apply(s.balances, s.slots[n].m.data);
            Looks(t, id, low, n, n) && t.slots == s.slots[n := s.slots[n].(status := Executed, result := applied.ok)] &&
            t.signed == s.signed && t.balances == applied.balances &&
            t.executed == s.executed + [Execution(n, s.slots[n].m.data, applied.ok)]
    ensures CheckpointedAt(s, ExecuteOne(s, n), n) && ExecuteOne(s, n).cfg == s.cfg
  {
    hide CheckpointText.Text, Apply, ExecuteOne;
    ExecuteOneIs(s, n);
  }

  /** With a step of 1 the slot's checkpoint is recorded and announced. */
  predicate CheckpointedAt(s: State, t: State, n: int) {
    t.cfg == s.cfg && t.stableSeq == s.stableSeq && t.stableDigest == s.stableDigest &&
    t.stableProofs == s.stableProofs &&
    (s.cfg.step == 1 ==>
       n in t.checkpoints && t.balances.Keys != {} &&
       t.checkpoints[n] == CheckpointInfo(t.balances, StateDigest(CheckpointText.Text(t.balances)),
                                          if n in s.checkpoints then s.checkpoints[n].proofs else map[]) &&
       SendCheckpoint(CheckpointReq(CheckpointData(n, t.checkpoints[n].digest), Signature(s.cfg.id, true))) in t.sent)
  }

  lemma LooksPut(s: State, id: int, low: int, current: int, last: int, n: int, e: Entry)
    requires Looks(s, id, low, current, last)
    ensures Looks(Put(s, n, e), id, low, current, last)
    ensures SameStable(s, Put(s, n, e))
  {
  }

  /** A certificate of three commits the last slot a replica opened, and a pass of execution follows. */
  lemma CommitRuns(s: State, id: int, low: int, last: int, n: int, m: Message, signers: seq<int>) returns (e: Entry)
    requires Looks(s, id, low, n, last) && 0 <= low <= n <= low + 19 && id in {0, 1, 2, 3}
    requires n in s.slots && s.slots[n] == Accepted(id, n, m) && |set x | x in signers| >= 3
    ensures Enabled(s, OnCommit(Certificate(n, m, signers)))
    ensures Next(s, OnCommit(Certificate(n, m, signers))) == ExecutePending(Put(s, n, e))
    ensures e.status == Committed && e.m == m && e.prepares == s.slots[n].prepares && s.lastExecuted == last
  {
    hide Next, Enabled, Certificate, Countable, WithCommits, ExecutePending, Accepted, Slot;
    var p := Certificate(n, m, signers);
    AcceptedIs(id, n, m);
    SignersOf(id, n, m, signers);
    CertificateData(n, m, signers);
    SlotIs(n, m);
    assert s.slots[n].commits.Keys + Countable(id, p.sigs) == Countable(id, p.sigs);
    Committing(s, p);
    e := WithCommits(s.cfg, s.slots[n], p);
  }

  lemma SlotIs(n: int, m: Message)
    ensures Slot(n, m).view == 1 && Slot(n, m).seqNum == n
  {
  }

  lemma LooksAt(s: State, id: int, low: int, current: int, last: int)
    requires Looks(s, id, low, current, last)
    ensures s.current == current && s.lastExecuted == last
  {
  }

  lemma CommitOn(s: State, id: int, low: int, last: int, n: int, m: Message, signers: seq<int>)
    requires Looks(s, id, low, n, last) && last < n < 9 && 0 <= low <= n <= low + 19 && id in {0, 1, 2, 3}
    requires n in s.slots && s.slots[n] == Accepted(id, n, m) && forall i | last < i < n :: i !in s.slots
    requires |set x | x in signers| >= 3 && (s.cfg.step == 10 || s.cfg.step == 1)
    ensures Enabled(s, OnCommit(Certificate(n, m, signers)))
    ensures var t, applied := Next(s, OnCommit(Certificate(n, m, signers))), Apply(s.balances, m.data);
            Looks(t, id, low, n, n) && n in t.slots && t.slots == s.slots[n := t.slots[n]] &&
            t.slots[n].status == Executed && t.slots[n].prepares == s.slots[n].prepares && t.signed == s.signed &&
            t.balances == applied.balances && t.executed == s.executed + [Execution(n, m.data, applied.ok)] &&
            t.cfg == s.cfg && CheckpointedAt(s, t, n)
  {
    hide Next, Enabled, Certificate, ExecuteOne, ExecuteFrom, Accepted, Apply, Looks, CheckpointText.Text;
    assert s.current == n by { LooksAt(s, id, low, n, last); }
    var e := CommitRuns(s, id, low, last, n, m, signers);
    OnlyExecutes(Put(s, n, e), last + 1, n);
    LooksPut(s, id, low, n, last, n, e);
    ExecuteOn(Put(s, n, e), id, low, last, n);
    var x := e.(status := Executed, result := Apply(s.balances, m.data).ok);
    assert s.slots[n := e][n := x] == s.slots[n := x];
  }

  lemma CommitMove(sys: Sys, step: nat, correct: set<int>, id: int, low: int, last: int, n: int, m: Message,
                   signers: seq<int>) returns (sys': Sys)
    requires Reaches(sys, step, correct) && id in sys.replicas && Looks(sys.replicas[id], id, low, n, last)
    requires last < n < 9 && 0 <= low <= n <= low + 19 && id in {0, 1, 2, 3} && n in sys.replicas[id].slots
    requires sys.replicas[id].slots[n] == Accepted(id, n, m) && forall i | last < i < n :: i !in sys.replicas[id].slots
    requires |set x | x in signers| >= 3 && AllMaySign(sys, signers, Slot(n, m))
    requires sys.replicas[id].cfg.step == 10 || sys.replicas[id].cfg.step == 1
    ensures Reaches(sys', step, correct) && Only(sys, sys', id)
    ensures var s, t, applied := sys.replicas[id], sys'.replicas[id], Apply(sys.replicas[id].balances, m.data);
            Looks(t, id, low, n, n) && n in t.slots && t.slots == s.slots[n := t.slots[n]] &&
            t.slots[n].status == Executed && t.slots[n].prepares == s.slots[n].prepares && t.signed == s.signed &&
            t.balances == applied.balances && t.executed == s.executed + [Execution(n, m.data, applied.ok)] &&
            t.cfg == s.cfg && CheckpointedAt(s, t, n)
  {
    hide Next, Enabled, Authentic, VotesOf, Reaches, Certificate, Accepted, Four, Slot, AllMaySign, Apply,
         CheckpointedAt;
    var s := sys.replicas[id];
    CommitOn(s, id, low, last, n, m, signers);
    CertificateFrom(sys, s.cfg.step, id, Certificate(n, m, signers), OnCommit(Certificate(n, m, signers)), n, m,
                    signers);
    sys' := MoveOn(sys, step, correct, id, OnCommit(Certificate(n, m, signers)));
  }

  lemma CommitSets()
    ensures |set x | x in [0, 1, 3]| == 3 && |set x | x in [0, 1, 2]| == 3
  {
    SameSet(set x | x in [0, 1, 3], {0, 1, 3});
    SameSet(set x | x in [0, 1, 2], {0, 1, 2});
    assert |{0, 1, 3}| == 3 && |{0, 1, 2}| == 3;
  }

  /** With a faulty leader a correct replica commits slot 0 in a run of three moves. */
  lemma CommitReachable() returns (sys: Sys)
    ensures Reaches(sys, 10, {0, 2, 3}) && LeaderOf(Four(0, 10), 1) !in {0, 2, 3} && sys.replicas.Keys == {0, 2, 3}
    ensures HoldsCommitted(sys, 0, 0) && sys.replicas[2] == Init(Four(2, 10))
    ensures sys.replicas[0].cfg.step == 10 && Looks(sys.replicas[0], 0, 0, 0, 0) && sys.replicas[0].slots.Keys == {0}
    ensures sys.replicas[0].balances == Apply(Four(0, 10).initial, ONE.data).balances && |sys.replicas[0].executed| == 1
  {
    hide Init, Accepted, Reaches, LeaderOf, AllMaySign, Everyone, Cluster, Slot, Looks, Apply, CheckpointedAt;
    var correct := {0, 2, 3};
    FourCluster(10, correct) by { assert {0, 1, 2, 3} - correct == {1}; }
    CommitSets();
    sys := Opening(10, correct) by { assert {0, 1, 2, 3} - correct == {1}; }
    Fresh(0, 10);
    Fresh(3, 10);
    sys := AcceptMove(sys, 10, correct, 0, 0, -1, -1, 0, ONE);
    sys := AcceptMove(sys, 10, correct, 3, 0, -1, -1, 0, ONE);
    ThreeMaySign(sys, 0, 1, 3, Slot(0, ONE));
    sys := CommitMove(sys, 10, correct, 0, 0, -1, 0, ONE, [0, 1, 3]);
  }

  /** Both replicas open slot 1; the one that has slot 0 executes it second, the other executes it first. */
  lemma SecondSlot() returns (sys: Sys)
    ensures Reaches(sys, 10, {0, 2, 3}) && sys.replicas.Keys == {0, 2, 3}
    ensures HoldsCommitted(sys, 0, 0) && HoldsCommitted(sys, 0, 1) && HoldsCommitted(sys, 2, 1)
    ensures Looks(sys.replicas[0], 0, 0, 1, 1) && Looks(sys.replicas[2], 2, 0, 1, 1) && 0 !in sys.replicas[2].slots
    ensures sys.replicas[0].balances == Apply(Apply(Four(0, 10).initial, ONE.data).balances, TWO.data).balances
    ensures sys.replicas[2].balances == Apply(Four(2, 10).initial, TWO.data).balances
    ensures |sys.replicas[0].executed| == 2 && |sys.replicas[2].executed| == 1
  {
    hide Init, Accepted, Reaches, LeaderOf, AllMaySign, Everyone, Cluster, Slot, Looks, Apply, CheckpointedAt;
    var correct := {0, 2, 3};
    CommitSets();
    Fresh(2, 10);
    sys := CommitReachable();
    sys := AcceptMove(sys, 10, correct, 0, 0, 0, 0, 1, TWO);
    sys := AcceptMove(sys, 10, correct, 2, 0, -1, -1, 1, TWO);
    ThreeMaySign(sys, 0, 1, 2, Slot(1, TWO));
    sys := CommitMove(sys, 10, correct, 0, 0, 0, 1, TWO, [0, 1, 2]);
    ThreeMaySign(sys, 0, 1, 2, Slot(1, TWO));
    sys := CommitMove(sys, 10, correct, 2, 0, -1, 1, TWO, [0, 1, 2]);
  }

  /** Under a faulty leader two correct replicas execute equally far to different balances: replica 0 executed slots 0
      and 1, replica 2 stepped over the empty slot 0. */
  lemma GapsDiffer() returns (sys: Sys)
    ensures Reachable(sys, Four(0, 10), {0, 2, 3}, ANYONE) && LeaderOf(Four(0, 10), 1) !in {0, 2, 3}
    ensures HoldsCommitted(sys, 0, 0) && HoldsCommitted(sys, 0, 1) && HoldsCommitted(sys, 2, 1)
    ensures sys.replicas[0].lastExecuted == sys.replicas[2].lastExecuted == 1
    ensures sys.replicas[0].balances != sys.replicas[2].balances
    ensures GapFree(sys.replicas[0]) && !GapFree(sys.replicas[2]) && 0 !in sys.replicas[2].slots
  {
    hide Reachable, Everyone, Cluster, LeaderOf;
    FourCluster(10, {0, 2, 3}) by { assert {0, 1, 2, 3} - {0, 2, 3} == {1}; }
    sys := SecondSlot();
    var b, c := sys.replicas[0].balances, sys.replicas[2].balances;
    assert b["A"] == 7 && c["A"] == 8;
  }
}
