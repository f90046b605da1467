/** Replies over every run, whatever views are entered: when a retry answered from the digest table tells the truth. */
module Retries {
  import opened Messages
  import opened Accounts
  import opened ReplicaState
  import opened Change
  import opened Window
  import opened ExecutionFold
  import opened OneView
  import opened Entries
  import opened IndexTable
  import opened Agreement

  /** The transfer is answered from the table: its listed entry is executed. */
  predicate Answers(s: State, m: Message) {
    s.mode == Normal && m.sig.valid && Known(s, m.data) &&
    s.slots[s.index[TransferDigest(m.data)]].status == Executed
  }

  /** The entry the table gives for the transfer still holds its digest. A later view may have put another request
      into the slot, and the old listing stays. */
  predicate StillHolds(s: State, t: Transfer)
    requires Known(s, t)
  {
    s.slots[s.index[TransferDigest(t)]].prePrepare.data.digest == TransferDigest(t)
  }

  lemma OneExecution(s: State, x: Execution, y: Execution)
    requires ExecInv(s) && x in s.executed && y in s.executed && x.seqNum == y.seqNum
    ensures x == y
  {
    hide ResultsFolded, Fold, DigestAt;
    var i :| 0 <= i < |s.executed| && s.executed[i] == x;
    var j :| 0 <= j < |s.executed| && s.executed[j] == y;
    assert Ordered(s.executed);
  }

  /** Retries, exactly. At every moment of every run, a retry answered from the table repeats the outcome of an
      execution of that transfer in the listed slot if and only if the listed entry still holds its digest. */
  lemma RetryExact(cfg: Config, s: State, m: Message)
    requires cfg.k >= 1 && Reached(cfg, s) && Answers(s, m)
    ensures var n := s.index[TransferDigest(m.data)];
            ProcessTransfer(s, m).sent ==
              s.sent + [Notify(m.sig.signer, Response(m.data, s.slots[n].result, s.view, Signature(s.cfg.id, true)))] &&
            (Execution(n, m.data, s.slots[n].result) in s.executed <==> StillHolds(s, m.data))
  {
    hide Run, Init, ExecInv, ProcessTransfer;
    var n := s.index[TransferDigest(m.data)];
    var es :| Run(Init(cfg), es) == Some(s);
    ExecutionRefinesFold(cfg, es);
    ReachedEntries(cfg, s);
    RetryAnswered(s, m);
    assert EntryTrue(s.executed, ANY, n, s.slots[n]);
    if Execution(n, m.data, s.slots[n].result) in s.executed {
      OneExecution(s, Execution(n, m.data, s.slots[n].result), Execution(n, s.slots[n].m.data, s.slots[n].result));
    }
  }

  // ---- Every reply ----

  ghost predicate RepliesInv(s: State, ok: Message -> bool) {
    forall client, reply | Notify(client, reply) in s.sent :: ReportOk(s.executed, ok, client, reply)
  }

  /** If the event is a retry answered from the table, its entry still holds its digest. */
  predicate NotStale(s: State, e: Event) {
    e.OnTransfer? && Answers(s, e.m) ==> StillHolds(s, e.m.data)
  }

  ghost predicate OutsTrue(s: State, ok: Message -> bool, c: Change) {
    forall client, reply | Notify(client, reply) in c.outs :: ReportOk(s.executed, ok, client, reply)
  }

  lemma MadeKeepsReplies(s: State, ok: Message -> bool, c: Change, mid: State)
    requires RepliesInv(s, ok) && Made(s, c, mid) && OutsTrue(s, ok, c)
    ensures RepliesInv(mid, ok)
  {
    hide ReportOk;
    forall client, reply | Notify(client, reply) in mid.sent
      ensures ReportOk(mid.executed, ok, client, reply)
    {
      assert Notify(client, reply) in s.sent || Notify(client, reply) in c.outs;
    }
  }

  lemma TransferReplies(s: State, ok: Message -> bool, m: Message)
    requires EntriesInv(s, ok) && (m.sig.valid ==> ok(m)) && NotStale(s, OnTransfer(m))
    ensures OutsTrue(s, ok, TransferChange(s, m))
  {
    hide IsLeader, LeaderOf, Everyone, Inherited, ProposeChange, ReproposeChange, PreparesMatch;
    ProposeOuts(s, m);
    if Answers(s, m) {
      var n := s.index[TransferDigest(m.data)];
      assert EntryTrue(s.executed, ok, n, s.slots[n]);
      assert Execution(n, m.data, s.slots[n].result) in s.executed &&
             m == Message(m.data, Signature(m.sig.signer, true));
    }
  }

  lemma ProposeOuts(s: State, m: Message)
    ensures forall o | o in ProposeChange(s, m).outs :: !o.Notify?
    ensures Known(s, m.data) ==>
              forall o | o in ReproposeChange(s, m, s.index[TransferDigest(m.data)]).outs :: !o.Notify?
  {
    hide Proposal, ProposedEntry, Reproposed;
  }

  lemma NoReplies(s: State, ok: Message -> bool, c: Change)
    requires forall o | o in c.outs :: !o.Notify?
    ensures OutsTrue(s, ok, c)
  {
    hide ReportOk;
  }

  lemma VoteReplies(s: State, e: Event)
    requires e.OnPrePrepare? || e.OnPrePrepareOk? || e.OnPrepare? || e.OnPrepareOk? || e.OnCommit? ||
             e.OnOptimisticTimer?
    ensures forall o | o in ChangeOf(s, e).outs :: !o.Notify?
  {
    hide LeaderOf, WithPrepares, WithCommits, WithPrepareOk, WithPrePrepareOk, Opened, Sign, WithOwnCommit,
         PrepareProofOf, AllPrepared, SlotTaken, PrePrepareOffered, Counted, ProofOffered;
  }

  lemma OtherReplies(s: State, ok: Message -> bool, e: Event)
    requires !e.OnTransfer? && !e.OnCheckpoint?
    ensures OutsTrue(s, ok, ChangeOf(s, e))
  {
    hide ChangeOf, OutsTrue;
    if AboutViews(e) {
      ViewsQuiet(s, e);
    } else {
      VoteReplies(s, e);
    }
    NoReplies(s, ok, ChangeOf(s, e));
  }

  lemma ExecutesKeepsReplies(s: State, ok: Message -> bool, t: State, n: int, x: Execution)
    requires EntriesInv(s, ok) && RepliesInv(s, ok) && Executes(s, t, n, x)
    ensures RepliesInv(t, ok)
  {
    hide ReportOk, PreparesMatch;
    assert EntryTrue(s.executed, ok, n, s.slots[n]);
    assert x in t.executed;
    forall client, reply | Notify(client, reply) in t.sent
      ensures ReportOk(t.executed, ok, client, reply)
    {
      if Notify(client, reply) in s.sent {
        ReportGrows(s.executed, t.executed, ok, client, reply);
      } else {
        ReportsExecution(s.slots[n], ok, t.executed, x, client, reply);
      }
    }
  }

  lemma ReportsExecution(e: Entry, ok: Message -> bool, xs: seq<Execution>, x: Execution, client: int, reply: Response)
    requires e.m.sig.valid && ok(e.m) && x in xs && x.transfer == e.m.data
    requires client == e.m.sig.signer && reply.tdata == x.transfer && reply.ack == x.result
    ensures ReportOk(xs, ok, client, reply)
  {
    assert e.m == Message(reply.tdata, Signature(client, true));
    assert Execution(x.seqNum, reply.tdata, reply.ack) in xs;
  }

  lemma {:induction false} ExecuteFromReplies(s: State, ok: Message -> bool, n: int)
    requires EntriesInv(s, ok) && RepliesInv(s, ok) && s.lastExecuted < n
    ensures RepliesInv(ExecuteFrom(s, n), ok)
    decreases s.current - n
  {
    hide ExecuteOne, EntriesInv, RepliesInv, Executes;
    if n <= s.current {
      if n in s.slots && s.slots[n].status == Committed {
        ExecuteOneRan(s, n);
        var x := ExecuteOneExecutes(s, n);
        ExecutesKeepsEntries(s, ok, ExecuteOne(s, n), n, x);
        ExecutesKeepsReplies(s, ok, ExecuteOne(s, n), n, x);
        ExecuteFromReplies(ExecuteOne(s, n), ok, n + 1);
      } else if n !in s.slots || s.slots[n].status == Executed {
        ExecuteFromReplies(s, ok, n + 1);
      }
    }
  }

  lemma FinishedReplies(s: State, ok: Message -> bool, e: Event, mid: State, t: State)
    requires EntriesInv(mid, ok) && RepliesInv(mid, ok) && Finished(s, e, mid, t)
    ensures RepliesInv(t, ok)
  {
    hide ExecuteFrom, Commits, EntriesInv, RepliesInv;
    ExecuteFromReplies(mid, ok, mid.lastExecuted + 1);
    if Commits(s, e) && e.OnPrepareOk? {
      var proof :| t == Emit(ExecutePending(mid), SendCommit(proof));
      SentReplies(ExecutePending(mid), ok, proof);
    }
  }

  lemma SentReplies(s: State, ok: Message -> bool, proof: ProofRequest)
    requires RepliesInv(s, ok)
    ensures RepliesInv(Emit(s, SendCommit(proof)), ok)
  {
    hide ReportOk;
  }

  lemma CheckpointReplies(s: State, ok: Message -> bool, c: CheckpointReq)
    requires RepliesInv(s, ok)
    ensures RepliesInv(ProcessCheckpoint(s, c), ok)
  {
    hide ProcessCheckpoint, ReportOk;
    CheckpointFields(s, c);
  }

  /** Every event with genuine client messages that answers no retry from a stale listing keeps all replies true. */
  lemma NextKeepsReplies(s: State, ok: Message -> bool, e: Event)
    requires EntriesInv(s, ok) && RepliesInv(s, ok) && Enabled(s, e) && FromClients(ok, e) && NotStale(s, e)
    ensures RepliesInv(Next(s, e), ok)
  {
    hide EntriesInv, RepliesInv, FromClients, NotStale, OutsTrue, ChangeOf, Made, Finished, WriteTrue, ProcessTransfer,
         ProcessPrePrepare, ProcessPrePrepareOk, ProcessPrepare, ProcessPrepareOk, ProcessCommit, ProcessViewChange,
         ProcessNewView, ProcessCheckpoint, OptimisticTimer, DigestTimer, SlotTimer, ViewTimer;
    if e.OnCheckpoint? {
      CheckpointReplies(s, ok, e.c);
    } else {
      var mid := NextMade(s, e);
      ChangeTrue(s, ok, e);
      MadeKeepsEntries(s, ok, ChangeOf(s, e), mid);
      assert OutsTrue(s, ok, ChangeOf(s, e)) by { OutsOf(s, ok, e); }
      MadeKeepsReplies(s, ok, ChangeOf(s, e), mid);
      FinishedReplies(s, ok, e, mid, Next(s, e));
    }
  }

  lemma OutsOf(s: State, ok: Message -> bool, e: Event)
    requires EntriesInv(s, ok) && FromClients(ok, e) && NotStale(s, e) && !e.OnCheckpoint?
    ensures OutsTrue(s, ok, ChangeOf(s, e))
  {
    hide EntriesInv, NotStale, OutsTrue, TransferChange;
    if e.OnTransfer? {
      TransferReplies(s, ok, e.m);
    } else {
      OtherReplies(s, ok, e);
    }
  }

  /** No retry of the run was answered from a stale listing. */
  ghost predicate NeverStale(s: State, es: seq<Event>)
    requires Run(s, es).Some?
  {
    es == [] || (NeverStale(s, es[..|es| - 1]) && NotStale(Run(s, es[..|es| - 1]).value, es[|es| - 1]))
  }

  /** Over every run with genuine client messages in which no retry was answered from a stale listing, each reply
      reports an outcome with which the replica executed exactly that transfer, and that transfer is genuine. */
  lemma {:induction false} RepliesAlways(cfg: Config, ok: Message -> bool, es: seq<Event>)
    requires Run(Init(cfg), es).Some? && AllFromClients(ok, es) && NeverStale(Init(cfg), es)
    ensures RepliesInv(Run(Init(cfg), es).value, ok)
  {
    if es == [] {
      assert RepliesInv(Init(cfg), ok) by { InitReplies(cfg, ok); }
    } else {
      hide Next, Enabled, EntriesInv, RepliesInv, FromClients, NotStale;
      var front := es[..|es| - 1];
      assert forall i | 0 <= i < |front| :: front[i] == es[i];
      RepliesAlways(cfg, ok, front);
      EntriesAlways(cfg, ok, front);
      NextKeepsReplies(Run(Init(cfg), front).value, ok, es[|es| - 1]);
    }
  }

  lemma InitReplies(cfg: Config, ok: Message -> bool)
    ensures RepliesInv(Init(cfg), ok)
  {
  }

  /** A state that a run with genuine client messages reaches, through whatever views, when no retry was answered from
      a stale listing. */
  ghost predicate ReachedTruly(cfg: Config, ok: Message -> bool, s: State) {
    exists es :: Run(Init(cfg), es) == Some(s) && AllFromClients(ok, es) && NeverStale(Init(cfg), es)
  }

  /** While correct replicas stay in one view no listing is stale. */
  lemma {:induction false} LocalTruly(cfg: Config, correct: set<int>, ok: Message -> bool, mvs: seq<Move>, r: int)
    returns (es: seq<Event>)
    requires Cluster(cfg, correct) && r in correct && After(Start(cfg, correct), ok, mvs).Some?
    ensures r in After(Start(cfg, correct), ok, mvs).value.replicas
    ensures Run(Init(cfg.(id := r)), es) == Some(After(Start(cfg, correct), ok, mvs).value.replicas[r])
    ensures AllFromClients(ok, es) && NeverStale(Init(cfg.(id := r)), es)
  {
    hide Next, Enabled, Authentic, VotesOf, Init, NotStale, FromClients, Cluster, Run, NeverStale, AllFromClients;
    if mvs == [] {
      es := [];
      NothingRun(Init(cfg.(id := r)), ok);
    } else {
      var front, mv := mvs[..|mvs| - 1], mvs[|mvs| - 1];
      es := LocalTruly(cfg, correct, ok, front, r);
      if mv.replica == r {
        MoveNotStale(cfg, correct, ok, front, mv);
        TrulyNext(Init(cfg.(id := r)), ok, es, mv.event);
        es := es + [mv.event];
      }
    }
  }

  lemma NothingRun(s: State, ok: Message -> bool)
    ensures Run(s, []) == Some(s) && AllFromClients(ok, []) && NeverStale(s, [])
  {
  }

  lemma TrulyNext(s: State, ok: Message -> bool, es: seq<Event>, e: Event)
    requires Run(s, es).Some? && AllFromClients(ok, es) && NeverStale(s, es)
    requires Enabled(Run(s, es).value, e) && NotStale(Run(s, es).value, e) && FromClients(ok, e)
    ensures Run(s, es + [e]) == Some(Next(Run(s, es).value, e))
    ensures AllFromClients(ok, es + [e]) && NeverStale(s, es + [e])
  {
    hide Next, Enabled, NotStale, FromClients;
    assert (es + [e])[..|es|] == es;
  }

  lemma MoveNotStale(cfg: Config, correct: set<int>, ok: Message -> bool, mvs: seq<Move>, mv: Move)
    requires Cluster(cfg, correct) && After(Start(cfg, correct), ok, mvs).Some?
    requires Allowed(After(Start(cfg, correct), ok, mvs).value, ok, mv)
    ensures var s := After(Start(cfg, correct), ok, mvs).value.replicas[mv.replica];
            NotStale(s, mv.event) && FromClients(ok, mv.event)
  {
    hide After, Start, Next, Enabled, VotesOf, SysInv, Cluster, Ready, Everyone, ReplicaOk;
    var sys := After(Start(cfg, correct), ok, mvs).value;
    var s := sys.replicas[mv.replica];
    Invariant(cfg, correct, ok, mvs);
    ReplicaReady(sys, cfg, correct, ok, mv.replica);
    if mv.event.OnTransfer? && Answers(s, mv.event.m) {
      KnownSlot(s, VotesOf(sys), ok, mv.event.m.data);
      SlotFacts(s, VotesOf(sys), ok, s.index[TransferDigest(mv.event.m.data)]);
    }
  }

  lemma ReachableTruly(sys: Sys, cfg: Config, correct: set<int>, ok: Message -> bool, r: int)
    requires Reachable(sys, cfg, correct, ok) && r in correct
    ensures r in sys.replicas && ReachedTruly(cfg.(id := r), ok, sys.replicas[r])
  {
    hide After, Run, Init, NeverStale, AllFromClients, Cluster;
    var mvs :| After(Start(cfg, correct), ok, mvs) == Some(sys);
    var es := LocalTruly(cfg, correct, ok, mvs, r);
  }
}
