/** The system: n = 3f + 1 replicas of which at most f are faulty, while the correct ones stay in one view.

    A move delivers an event to one correct replica. Messages may be lost, repeated, reordered and made up
    by faulty replicas; what binds them is only that a good MAC naming a correct replica on a context
    stands for a context that replica signed. */
module Agreement {
  import opened Messages
  import opened Accounts
  import opened Quorum
  import opened ReplicaState
  import opened Window
  import opened ExecutionFold
  import opened Voting
  import opened OneView

  datatype Sys = Sys(replicas: map<int, State>)

  datatype Move = Move(replica: int, event: Event)

  /** All correct replicas share these constants; ids outside `correct` are faulty. */
  ghost predicate Cluster(cfg: Config, correct: set<int>) {
    cfg.f >= 1 && cfg.k >= 1 && !cfg.byzantine &&
    correct <= Everyone(cfg) && |Everyone(cfg) - correct| <= cfg.f
  }

  function Start(cfg: Config, correct: set<int>): Sys {
    Sys(map r | r in correct :: Init(cfg.(id := r)))
  }

  function VotesOf(sys: Sys): Votes {
    map r | r in sys.replicas :: sys.replicas[r].signed
  }

  ghost predicate Allowed(sys: Sys, ok: Message -> bool, mv: Move) {
    mv.replica in sys.replicas &&
    var s := sys.replicas[mv.replica];
    Enabled(s, mv.event) && Authentic(s.cfg, VotesOf(sys), ok, mv.event) && Next(s, mv.event).view == s.view
  }

  function Moved(sys: Sys, mv: Move): Sys
    requires mv.replica in sys.replicas && Enabled(sys.replicas[mv.replica], mv.event)
  {
    Sys(sys.replicas[mv.replica := Next(sys.replicas[mv.replica], mv.event)])
  }

  /** The system after a list of moves, when each is allowed in its turn. */
  ghost function After(sys: Sys, ok: Message -> bool, mvs: seq<Move>): Option<Sys> {
    if mvs == [] then Some(sys)
    else
      var before := After(sys, ok, mvs[..|mvs| - 1]);
      if before.Some? && Allowed(before.value, ok, mvs[|mvs| - 1])
      then Some(Moved(before.value, mvs[|mvs| - 1])) else None
  }

  ghost predicate SysInv(sys: Sys, cfg: Config, correct: set<int>, ok: Message -> bool) {
    Cluster(cfg, correct) && sys.replicas.Keys == correct &&
    (forall r | r in sys.replicas :: ReplicaOk(sys.replicas[r], cfg.(id := r), VotesOf(sys), ok))
  }

  lemma Replicas(sys: Sys, cfg: Config, correct: set<int>, ok: Message -> bool)
    requires SysInv(sys, cfg, correct, ok)
    ensures sys.replicas.Keys == correct && Cluster(cfg, correct)
  {
    hide ReplicaOk, Cluster, VotesOf;
  }

  ghost predicate ReplicaOk(s: State, cfg: Config, V: Votes, ok: Message -> bool) {
    s.cfg == cfg && s.view == 1 && Ready(s, V, ok) && ExecInv(s)
  }

  lemma InitOk(cfg: Config, V: Votes, ok: Message -> bool)
    requires Correct(cfg) && cfg.id in Everyone(cfg) && cfg.id in V && forall p | p in V :: V[p] == {}
    ensures ReplicaOk(Init(cfg), cfg, V, ok)
  {
    hide Everyone;
    assert Transfers([]) == [];
    assert OneVotePerSlot({});
  }

  lemma StartOk(cfg: Config, correct: set<int>, ok: Message -> bool)
    requires Cluster(cfg, correct)
    ensures SysInv(Start(cfg, correct), cfg, correct, ok)
  {
    hide ReplicaOk, Init;
    assert VotesOf(Start(cfg, correct)) == map r | r in correct :: {} by { StartVotes(cfg, correct); }
    forall r | r in correct
      ensures ReplicaOk(Init(cfg.(id := r)), cfg.(id := r), VotesOf(Start(cfg, correct)), ok)
    {
      InitOk(cfg.(id := r), VotesOf(Start(cfg, correct)), ok);
    }
  }

  lemma StartVotes(cfg: Config, correct: set<int>)
    ensures VotesOf(Start(cfg, correct)) == map r | r in correct :: {}
  {
  }

  lemma AuthenticGrows(cfg: Config, V: Votes, W: Votes, ok: Message -> bool, e: Event)
    requires Authentic(cfg, V, ok, e) && Grows(V, W)
    ensures Authentic(cfg, W, ok, e)
  {
    hide Everyone;
  }

  lemma VotesGrow(sys: Sys, mv: Move)
    requires mv.replica in sys.replicas && Enabled(sys.replicas[mv.replica], mv.event)
    requires WindowInv(sys.replicas[mv.replica])
    ensures Grows(VotesOf(sys), VotesOf(Moved(sys, mv)))
  {
    hide Next, Enabled;
    NextKeepsWindow(sys.replicas[mv.replica], mv.event);
  }

  lemma MoveKeepsInv(sys: Sys, cfg: Config, correct: set<int>, ok: Message -> bool, mv: Move)
    requires SysInv(sys, cfg, correct, ok) && Allowed(sys, ok, mv)
    ensures SysInv(Moved(sys, mv), cfg, correct, ok)
    ensures Grows(VotesOf(sys), VotesOf(Moved(sys, mv)))
  {
    hide Next, Enabled, OneViewInv, WindowInv, VoteInv, ExecInv, Authentic, Cluster, AllOfView;
    var s := sys.replicas[mv.replica];
    var t := Next(s, mv.event);
    var V, W := VotesOf(sys), VotesOf(Moved(sys, mv));
    assert ReplicaOk(s, cfg.(id := mv.replica), V, ok);
    VotesGrow(sys, mv);
    AuthenticGrows(s.cfg, V, W, ok, mv.event);
    NextSignsOfView(s, V, ok, mv.event);
    assert AllOfView(W, 1) by { AllGrow(sys, cfg, correct, ok, mv); }
    forall r | r in sys.replicas
      ensures Ready(sys.replicas[r], W, ok)
    {
      assert ReplicaOk(sys.replicas[r], cfg.(id := r), V, ok);
      OneViewGrows(sys.replicas[r], V, W, ok, ok);
    }
    assert t.signed <= W[s.cfg.id];
    NextKeepsOneView(s, W, ok, mv.event);
    NextKeepsExec(s, mv.event);
    NextKeepsWindow(s, mv.event);
    assert t.cfg == s.cfg by { AdvancesConfig(s, t); }
    forall r | r in Moved(sys, mv).replicas
      ensures ReplicaOk(Moved(sys, mv).replicas[r], cfg.(id := r), W, ok)
    {
      assert r in sys.replicas && ReplicaOk(sys.replicas[r], cfg.(id := r), V, ok);
    }
  }

  lemma AllGrow(sys: Sys, cfg: Config, correct: set<int>, ok: Message -> bool, mv: Move)
    requires SysInv(sys, cfg, correct, ok) && mv.replica in sys.replicas && Enabled(sys.replicas[mv.replica], mv.event)
    requires forall c | c in Next(sys.replicas[mv.replica], mv.event).signed :: c == NOP || c.view == 1
    ensures AllOfView(VotesOf(Moved(sys, mv)), 1)
  {
    hide Next, Enabled, OneViewInv, WindowInv, VoteInv, ExecInv, Cluster;
    forall r, c | r in Moved(sys, mv).replicas && c in Moved(sys, mv).replicas[r].signed
      ensures c == NOP || c.view == 1
    {
      if r != mv.replica {
        assert ReplicaOk(sys.replicas[r], cfg.(id := r), VotesOf(sys), ok);
        SignedOfView(sys.replicas[r], VotesOf(sys), ok);
      }
    }
  }

  /** A run from one state to a later one. */
  ghost predicate Leads(early: Sys, late: Sys, ok: Message -> bool) {
    exists mvs :: After(early, ok, mvs) == Some(late)
  }

  /** Along every run the invariant stays, and votes once cast stay cast. */
  lemma {:induction false} VotesPersist(sys: Sys, cfg: Config, correct: set<int>, ok: Message -> bool, mvs: seq<Move>)
    requires SysInv(sys, cfg, correct, ok) && After(sys, ok, mvs).Some?
    ensures SysInv(After(sys, ok, mvs).value, cfg, correct, ok)
    ensures Grows(VotesOf(sys), VotesOf(After(sys, ok, mvs).value))
  {
    hide Allowed, Moved, SysInv, VotesOf;
    if mvs != [] {
      var front := mvs[..|mvs| - 1];
      VotesPersist(sys, cfg, correct, ok, front);
      MoveKeepsInv(After(sys, ok, front).value, cfg, correct, ok, mvs[|mvs| - 1]);
    }
  }

  /** Every reachable state of the system satisfies the invariant. */
  lemma Invariant(cfg: Config, correct: set<int>, ok: Message -> bool, mvs: seq<Move>)
    requires Cluster(cfg, correct) && After(Start(cfg, correct), ok, mvs).Some?
    ensures SysInv(After(Start(cfg, correct), ok, mvs).value, cfg, correct, ok)
  {
    hide After, SysInv, Cluster;
    StartOk(cfg, correct, ok);
    VotesPersist(Start(cfg, correct), cfg, correct, ok, mvs);
  }

  /** A state that some run in one view reaches. */
  ghost predicate Reachable(sys: Sys, cfg: Config, correct: set<int>, ok: Message -> bool) {
    Cluster(cfg, correct) && exists mvs :: After(Start(cfg, correct), ok, mvs) == Some(sys)
  }

  lemma ReachableOk(sys: Sys, cfg: Config, correct: set<int>, ok: Message -> bool)
    requires Reachable(sys, cfg, correct, ok)
    ensures SysInv(sys, cfg, correct, ok)
  {
    hide After, SysInv, Cluster;
    var mvs :| After(Start(cfg, correct), ok, mvs) == Some(sys);
    Invariant(cfg, correct, ok, mvs);
  }

  /** A system run projects onto a run of each correct replica, so what holds of every run of one holds here. */
  lemma {:induction false} LocalRun(cfg: Config, correct: set<int>, ok: Message -> bool, mvs: seq<Move>, r: int)
    returns (es: seq<Event>)
    requires r in correct && After(Start(cfg, correct), ok, mvs).Some?
    ensures r in After(Start(cfg, correct), ok, mvs).value.replicas
    ensures Run(Init(cfg.(id := r)), es) == Some(After(Start(cfg, correct), ok, mvs).value.replicas[r])
  {
    hide Next, Enabled, Authentic, VotesOf, Init;
    if mvs == [] {
      es := [];
    } else {
      var front, mv := mvs[..|mvs| - 1], mvs[|mvs| - 1];
      es := LocalRun(cfg, correct, ok, front, r);
      if mv.replica == r {
        assert (es + [mv.event])[..|es|] == es;
        es := es + [mv.event];
      }
    }
  }

  // ---- Agreement ----

  lemma SharedVoter(cfg: Config, correct: set<int>, V: Votes, c: Context, d: Context) returns (p: int)
    requires Cluster(cfg, correct) && V.Keys == correct
    requires HasQuorum(cfg, V, c) && HasQuorum(cfg, V, d)
    ensures p in correct && c in V[p] && d in V[p]
  {
    hide Everyone, Supporters, LeaderOf, Ids;
    EveryoneIs(cfg);
    SupportersAre(cfg, V, c);
    SupportersAre(cfg, V, d);
    p := SharedCorrect(3 * cfg.f + 1, Supporters(cfg, V, c), Supporters(cfg, V, d), correct);
  }

  lemma SupportersAre(cfg: Config, V: Votes, c: Context)
    ensures Supporters(cfg, V, c) <= Everyone(cfg)
    ensures forall p | p in Supporters(cfg, V, c) && p in V :: c in V[p]
  {
    hide Everyone;
  }

  lemma OneVote(s: State, cfg: Config, V: Votes, ok: Message -> bool)
    requires ReplicaOk(s, cfg, V, ok)
    ensures OneVotePerSlot(s.signed)
  {
    hide OneViewInv, WindowInv, ExecInv, OneVotePerSlot, EntryVoted, Covers;
  }

  /** Two quorums for one slot meet in a correct replica, which signed one digest for it. */
  lemma QuorumsAgree(sys: Sys, cfg: Config, correct: set<int>, ok: Message -> bool, c: Context, d: Context)
    requires SysInv(sys, cfg, correct, ok)
    requires HasQuorum(cfg, VotesOf(sys), c) && HasQuorum(cfg, VotesOf(sys), d)
    requires c.view == d.view && c.seqNum == d.seqNum && 0 <= c.seqNum
    ensures c == d
  {
    hide ReplicaOk, Cluster, HasQuorum;
    var p := SharedVoter(cfg, correct, VotesOf(sys), c, d);
    OneVote(sys.replicas[p], cfg.(id := p), VotesOf(sys), ok);
  }

  lemma EveryoneIs(cfg: Config)
    ensures Everyone(cfg) == Ids(3 * cfg.f + 1)
  {
  }

  predicate HoldsCommitted(sys: Sys, r: int, n: int) {
    r in sys.replicas && n in sys.replicas[r].slots &&
    (sys.replicas[r].slots[n].status == Committed || sys.replicas[r].slots[n].status == Executed)
  }

  lemma CommittedHasQuorum(sys: Sys, cfg: Config, correct: set<int>, ok: Message -> bool, r: int, n: int)
    requires SysInv(sys, cfg, correct, ok) && HoldsCommitted(sys, r, n)
    ensures 0 <= n && HasQuorum(cfg, VotesOf(sys), sys.replicas[r].slots[n].prePrepare.data)
    ensures sys.replicas[r].slots[n].prePrepare.data == Context(1, n, TransferDigest(sys.replicas[r].slots[n].m.data))
  {
    hide OneViewInv, WindowInv, ExecInv, VoteInv, Everyone, Cluster;
    var s := sys.replicas[r];
    assert ReplicaOk(s, cfg.(id := r), VotesOf(sys), ok);
    SlotFacts(s, VotesOf(sys), ok, n);
    CommittedQuorum(s.cfg, s.view, VotesOf(sys), ok, n, s.slots[n]);
    SameQuorum(cfg, s.cfg, VotesOf(sys), s.slots[n].prePrepare.data);
  }

  lemma SameQuorum(cfg: Config, cfg': Config, V: Votes, c: Context)
    requires cfg'.f == cfg.f
    ensures HasQuorum(cfg', V, c) <==> HasQuorum(cfg, V, c)
  {
    EveryoneIs(cfg);
    EveryoneIs(cfg');
    assert Supporters(cfg', V, c) == Supporters(cfg, V, c);
  }

  /** Commit agreement. In every run in one view with at most f faulty replicas, the leader possibly among
      them, whatever two correct replicas hold committed for a sequence number, at whatever two moments and
      by whichever path, is the same request. */
  lemma CommitAgreement(early: Sys, late: Sys, cfg: Config, correct: set<int>, ok: Message -> bool, r: int, q: int,
                        n: int)
    requires Reachable(early, cfg, correct, ok) && Leads(early, late, ok)
    requires HoldsCommitted(early, r, n) && HoldsCommitted(late, q, n)
    ensures early.replicas[r].slots[n].prePrepare.data == late.replicas[q].slots[n].prePrepare.data
    ensures early.replicas[r].slots[n].m.data == late.replicas[q].slots[n].m.data
  {
    hide After, SysInv, VotesOf, HasQuorum, Cluster, Reachable;
    ReachableOk(early, cfg, correct, ok);
    var mvs :| After(early, ok, mvs) == Some(late);
    VotesPersist(early, cfg, correct, ok, mvs);
    CommittedHasQuorum(early, cfg, correct, ok, r, n);
    CommittedHasQuorum(late, cfg, correct, ok, q, n);
    QuorumGrows(cfg, VotesOf(early), VotesOf(late), early.replicas[r].slots[n].prePrepare.data);
    QuorumsAgree(late, cfg, correct, ok, early.replicas[r].slots[n].prePrepare.data,
                 late.replicas[q].slots[n].prePrepare.data);
  }

  /** Every stored proof sits under its signer's id and carries the slot's number and digest, at a backup
      its whole context. */
  ghost predicate ProofsCarry(sys: Sys, cfg: Config, r: int, e: Entry, proofs: map<int, Request>) {
    forall p | p in proofs ::
      p in Everyone(cfg) && (p in sys.replicas ==> e.prePrepare.data in sys.replicas[p].signed) &&
      proofs[p].sig.signer == p && proofs[p].data.digest == e.prePrepare.data.digest &&
      proofs[p].data.seqNum == e.prePrepare.data.seqNum &&
      (r != LeaderOf(cfg, 1) ==> proofs[p].data == e.prePrepare.data)
  }

  /** Certificates. In every reachable state a correct replica's stored proofs carry their slot's number and
      digest, and at a backup its view; a slot raised to prepared holds at least 2f distinct signers, a committed or
      executed one at least 2f + 1, fast path included; every correct signer signed the slot's context. */
  lemma CertificateInvariant(sys: Sys, cfg: Config, correct: set<int>, ok: Message -> bool, r: int, n: int)
    requires Reachable(sys, cfg, correct, ok) && r in sys.replicas && n in sys.replicas[r].slots
    ensures var e := sys.replicas[r].slots[n];
            e.prePrepare.data == Context(1, n, TransferDigest(e.m.data)) &&
            (e.status == Prepared ==> |e.prepares| >= 2 * cfg.f) &&
            (e.status == Committed || e.status == Executed ==> |e.commits| >= 2 * cfg.f + 1) &&
            ProofsCarry(sys, cfg, r, e, e.prepares) && ProofsCarry(sys, cfg, r, e, e.commits)
  {
    hide OneViewInv, WindowInv, ExecInv, VoteInv, Reachable, SysInv, Ready, ReplicaOk, Everyone, LeaderOf, VotesOf,
         ProofsOk, ProofsCarry;
    ReachableOk(sys, cfg, correct, ok);
    var s := sys.replicas[r];
    ConfigOf(sys, cfg, correct, ok, r);
    SlotFacts(s, VotesOf(sys), ok, n);
    ProofsCarried(sys, cfg, r, s.slots[n], s.slots[n].prepares);
    ProofsCarried(sys, cfg, r, s.slots[n], s.slots[n].commits);
  }

  lemma ConfigOf(sys: Sys, cfg: Config, correct: set<int>, ok: Message -> bool, r: int)
    requires SysInv(sys, cfg, correct, ok) && r in sys.replicas
    ensures sys.replicas[r].cfg == cfg.(id := r) && sys.replicas[r].view == 1 &&
            Ready(sys.replicas[r], VotesOf(sys), ok)
    ensures Everyone(sys.replicas[r].cfg) == Everyone(cfg) && LeaderOf(sys.replicas[r].cfg, 1) == LeaderOf(cfg, 1)
  {
    hide Ready, Cluster, ExecInv, VotesOf;
    assert ReplicaOk(sys.replicas[r], cfg.(id := r), VotesOf(sys), ok);
  }

  lemma ProofsCarried(sys: Sys, cfg: Config, r: int, e: Entry, proofs: map<int, Request>)
    requires ProofsOk(cfg.(id := r), VotesOf(sys), e, proofs) && e.prePrepare.data.view == 1
    requires Everyone(cfg.(id := r)) == Everyone(cfg) && LeaderOf(cfg.(id := r), 1) == LeaderOf(cfg, 1)
    ensures ProofsCarry(sys, cfg, r, e, proofs)
  {
    hide Everyone, LeaderOf;
  }

  /** What slots agree on before they commit. A pre-prepare's MAC is not checked, so two correct replicas may hold
      different requests for one number, prepared even. They hold the same one once the signers they store
      for it together exceed 4f + 1. */
  lemma PreparedAgree(sys: Sys, cfg: Config, correct: set<int>, ok: Message -> bool, r: int, q: int, n: int)
    requires Reachable(sys, cfg, correct, ok) && r in sys.replicas && q in sys.replicas
    requires n in sys.replicas[r].slots && n in sys.replicas[q].slots
    requires |sys.replicas[r].slots[n].prepares| + |sys.replicas[q].slots[n].prepares| > 4 * cfg.f + 1
    ensures sys.replicas[r].slots[n].prePrepare.data == sys.replicas[q].slots[n].prePrepare.data
    ensures sys.replicas[r].slots[n].m.data == sys.replicas[q].slots[n].m.data
  {
    hide Reachable, SysInv, ReplicaOk, Everyone, LeaderOf, Ids, ProofsCarry, Ready;
    var e, d := sys.replicas[r].slots[n], sys.replicas[q].slots[n];
    CertificateInvariant(sys, cfg, correct, ok, r, n);
    CertificateInvariant(sys, cfg, correct, ok, q, n);
    ReachableOk(sys, cfg, correct, ok);
    Replicas(sys, cfg, correct, ok);
    EveryoneIs(cfg);
    SignersAre(sys, cfg, r, e, e.prepares);
    SignersAre(sys, cfg, q, d, d.prepares);
    var p := SharedCorrect(3 * cfg.f + 1, e.prepares.Keys, d.prepares.Keys, correct);
    SignedOnce(sys, cfg, correct, ok, p);
    NumberOf(sys, cfg, correct, ok, r, n);
  }

  lemma SignersAre(sys: Sys, cfg: Config, r: int, e: Entry, proofs: map<int, Request>)
    requires ProofsCarry(sys, cfg, r, e, proofs)
    ensures proofs.Keys <= Everyone(cfg) && |proofs.Keys| == |proofs|
    ensures forall p | p in proofs && p in sys.replicas :: e.prePrepare.data in sys.replicas[p].signed
  {
    hide Everyone, LeaderOf;
    forall p | p in proofs.Keys
      ensures p in Everyone(cfg)
    {
      assert p in proofs;
    }
    assert |proofs| == |proofs.Keys|;
  }

  lemma SignedOnce(sys: Sys, cfg: Config, correct: set<int>, ok: Message -> bool, p: int)
    requires SysInv(sys, cfg, correct, ok) && p in sys.replicas
    ensures OneVotePerSlot(sys.replicas[p].signed)
  {
    hide ReplicaOk, Cluster;
    OneVote(sys.replicas[p], cfg.(id := p), VotesOf(sys), ok);
  }

  lemma NumberOf(sys: Sys, cfg: Config, correct: set<int>, ok: Message -> bool, r: int, n: int)
    requires SysInv(sys, cfg, correct, ok) && r in sys.replicas && n in sys.replicas[r].slots
    ensures 0 <= n
  {
    hide Ready, Cluster, ExecInv;
    assert ReplicaOk(sys.replicas[r], cfg.(id := r), VotesOf(sys), ok);
    SlotFacts(sys.replicas[r], VotesOf(sys), ok, n);
  }

  // ---- Replicated state ----

  /** Two executions of one sequence number executed the same transfer. */
  lemma SameExecution(sys: Sys, cfg: Config, correct: set<int>, ok: Message -> bool, r: int, q: int, x: Execution,
                      y: Execution)
    requires SysInv(sys, cfg, correct, ok) && r in correct && q in correct
    requires x in sys.replicas[r].executed && y in sys.replicas[q].executed && x.seqNum == y.seqNum
    ensures x.transfer == y.transfer
  {
    hide WindowInv, ExecInv, VoteInv, HasQuorum, Everyone, EntryOk, ReportOk, AllOfView, Cluster;
    var V := VotesOf(sys);
    assert ReplicaOk(sys.replicas[r], cfg.(id := r), V, ok) && ReplicaOk(sys.replicas[q], cfg.(id := q), V, ok);
    assert ExecutionOk(sys.replicas[r], V, x) && ExecutionOk(sys.replicas[q], V, y);
    var c, d := Context(1, x.seqNum, TransferDigest(x.transfer)), Context(1, y.seqNum, TransferDigest(y.transfer));
    SameQuorum(cfg, cfg.(id := r), V, c);
    SameQuorum(cfg, cfg.(id := q), V, d);
    assert 0 <= x.seqNum by { WindowSlot(sys.replicas[r], x.seqNum); }
    QuorumsAgree(sys, cfg, correct, ok, c, d);
  }

  lemma WindowSlot(s: State, n: int)
    requires WindowInv(s) && n in s.slots
    ensures 0 <= n
  {
  }

  predicate GapFree(s: State) {
    Skipped(s) == 0
  }

  lemma ResultAt(s: State, i: nat)
    requires ExecInv(s) && i < |s.executed|
    ensures s.executed[i].result ==
            Apply(Fold(s.cfg.initial, Transfers(s.executed[..i])), s.executed[i].transfer).ok
  {
    hide DigestAt, Fold, Apply, Ordered;
  }

  /** Of two correct replicas without gaps, one has executed exactly the first executions of the other,
      with the same results. */
  lemma ExecutedPrefix(sys: Sys, cfg: Config, correct: set<int>, ok: Message -> bool, r: int, q: int)
    requires SysInv(sys, cfg, correct, ok) && r in correct && q in correct
    requires GapFree(sys.replicas[r]) && GapFree(sys.replicas[q])
    requires sys.replicas[r].lastExecuted <= sys.replicas[q].lastExecuted
    ensures sys.replicas[r].executed <= sys.replicas[q].executed
  {
    hide WindowInv, VoteInv, OneViewInv, Fold, DigestAt, Cluster;
    var s, t := sys.replicas[r], sys.replicas[q];
    assert ReplicaOk(s, cfg.(id := r), VotesOf(sys), ok) && ReplicaOk(t, cfg.(id := q), VotesOf(sys), ok);
    SkippedIsGap(s);
    SkippedIsGap(t);
    forall i | 0 <= i < |s.executed|
      ensures s.executed[i].transfer == t.executed[i].transfer && s.executed[i].seqNum == t.executed[i].seqNum
    {
      SameExecution(sys, cfg, correct, ok, r, q, s.executed[i], t.executed[i]);
    }
    forall i | 0 <= i < |s.executed|
      ensures s.executed[i] == t.executed[i]
    {
      assert Transfers(s.executed[..i]) == Transfers(t.executed[..i]);
      ResultAt(s, i);
      ResultAt(t, i);
    }
  }

  lemma Announced(s: State, c: CheckpointReq)
    requires ExecInv(s) && SendCheckpoint(c) in s.sent
    ensures c.data.seqNum <= s.lastExecuted
    ensures c.data.digest == BalancesDigest(Fold(s.cfg.initial, Transfers(UpTo(s.executed, c.data.seqNum))))
  {
    hide Fold, BalancesDigest, ResultsFolded, Ordered;
  }

  /** Replicated state agreement: correct replicas without gaps that have executed equally far hold equal
      balances and equal results; and whatever two correct replicas without gaps announce as the checkpoint
      of a sequence number is the same digest. */
  lemma StateAgreement(sys: Sys, cfg: Config, correct: set<int>, ok: Message -> bool, r: int, q: int)
    requires Reachable(sys, cfg, correct, ok) && r in sys.replicas && q in sys.replicas
    requires GapFree(sys.replicas[r]) && GapFree(sys.replicas[q])
    ensures sys.replicas[r].lastExecuted == sys.replicas[q].lastExecuted ==>
              sys.replicas[r].executed == sys.replicas[q].executed &&
              sys.replicas[r].balances == sys.replicas[q].balances
    ensures forall c, d | SendCheckpoint(c) in sys.replicas[r].sent && SendCheckpoint(d) in sys.replicas[q].sent ::
              c.data.seqNum == d.data.seqNum ==> c.data.digest == d.data.digest
  {
    hide WindowInv, VoteInv, OneViewInv, Fold, BalancesDigest, ResultsFolded, Cluster, Reachable;
    ReachableOk(sys, cfg, correct, ok);
    var s, t := sys.replicas[r], sys.replicas[q];
    assert ReplicaOk(s, cfg.(id := r), VotesOf(sys), ok) && ReplicaOk(t, cfg.(id := q), VotesOf(sys), ok);
    SkippedIsGap(s);
    SkippedIsGap(t);
    if s.lastExecuted <= t.lastExecuted {
      ExecutedPrefix(sys, cfg, correct, ok, r, q);
    } else {
      ExecutedPrefix(sys, cfg, correct, ok, q, r);
    }
    forall c, d | SendCheckpoint(c) in s.sent && SendCheckpoint(d) in t.sent && c.data.seqNum == d.data.seqNum
      ensures c.data.digest == d.data.digest
    {
      UpToGapFree(s.executed, c.data.seqNum);
      UpToGapFree(t.executed, c.data.seqNum);
      assert UpTo(s.executed, c.data.seqNum) == UpTo(t.executed, c.data.seqNum);
      Announced(s, c);
      Announced(t, d);
    }
  }

  lemma {:induction false} UpToGapFree(xs: seq<Execution>, n: int)
    requires forall i | 0 <= i < |xs| :: xs[i].seqNum == i
    ensures UpTo(xs, n) == xs[..if n < 0 then 0 else if n < |xs| then n + 1 else |xs|]
    decreases |xs|
  {
    if xs != [] && xs[|xs| - 1].seqNum > n {
      UpToGapFree(xs[..|xs| - 1], n);
    }
  }
}
