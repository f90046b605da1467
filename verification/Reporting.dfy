/** What execution reports, over every run: one reply for every executed slot, and one checkpoint for every slot at
    which a checkpoint is due. */
module Reporting {
  import opened Messages
  import opened Accounts
  import opened ReplicaState
  import opened Change
  import opened Window
  import opened ExecutionFold
  import opened IndexTable
  import opened Retries

  // ---- Replies and announcements among what was sent ----

  function Replies(outs: seq<Output>): seq<Output> {
    if outs == [] then []
    else
      var o := outs[|outs| - 1];
      Replies(outs[..|outs| - 1]) + (if o.Notify? then [o] else [])
  }

  /** The sequence numbers of the announced checkpoints. */
  function Announced(outs: seq<Output>): seq<int> {
    if outs == [] then []
    else
      var o := outs[|outs| - 1];
      Announced(outs[..|outs| - 1]) + (if o.SendCheckpoint? then [o.c.data.seqNum] else [])
  }

  lemma {:induction false} RepliesJoin(a: seq<Output>, b: seq<Output>)
    ensures Replies(a + b) == Replies(a) + Replies(b) && Announced(a + b) == Announced(a) + Announced(b)
  {
    if b == [] {
      assert a + b == a;
    } else {
      RepliesJoin(a, b[..|b| - 1]);
      assert (a + b)[..|a + b| - 1] == a + b[..|b| - 1];
    }
  }

  lemma {:induction false} NoneAmong(outs: seq<Output>)
    ensures (forall o | o in outs :: !o.Notify?) ==> Replies(outs) == []
    ensures (forall o | o in outs :: !o.SendCheckpoint?) ==> Announced(outs) == []
  {
    if outs != [] {
      NoneAmong(outs[..|outs| - 1]);
    }
  }

  lemma {:induction false} ReplyAmong(outs: seq<Output>, o: Output)
    ensures o in Replies(outs) <==> o in outs && o.Notify?
  {
    if outs != [] {
      ReplyAmong(outs[..|outs| - 1], o);
      assert outs == outs[..|outs| - 1] + [outs[|outs| - 1]];
    }
  }

  // ---- What an execution owes ----

  /** The reply owed for executing x in state s: to the signer of the slot's message, its transfer and its result, with
      the present view and the replica's own valid signature. */
  function ReplyFor(s: State, x: Execution): Output
    requires x.seqNum in s.slots
  {
    Notify(s.slots[x.seqNum].m.sig.signer, Response(x.transfer, x.result, s.view, Signature(s.cfg.id, true)))
  }

  ghost predicate AllIn(s: State, xs: seq<Execution>) {
    forall i | 0 <= i < |xs| :: xs[i].seqNum in s.slots
  }

  function RepliesFor(s: State, xs: seq<Execution>): seq<Output>
    requires AllIn(s, xs)
  {
    seq(|xs|, i requires 0 <= i < |xs| => ReplyFor(s, xs[i]))
  }

  /** The sequence numbers at which a checkpoint is due: every step-th. */
  function Due(step: nat, xs: seq<Execution>): seq<int> {
    if xs == [] then []
    else
      var n := xs[|xs| - 1].seqNum;
      Due(step, xs[..|xs| - 1]) + (if step > 0 && n % step == step - 1 then [n] else [])
  }

  lemma {:induction false} DueJoin(step: nat, xs: seq<Execution>, ys: seq<Execution>)
    ensures Due(step, xs + ys) == Due(step, xs) + Due(step, ys)
  {
    if ys == [] {
      assert xs + ys == xs;
    } else {
      DueJoin(step, xs, ys[..|ys| - 1]);
      assert (xs + ys)[..|xs + ys| - 1] == xs + ys[..|ys| - 1];
    }
  }

  /** From s to t exactly the slots of xs were executed, in order, each reported once, and the due checkpoints
      announced. */
  ghost predicate Reported(s: State, t: State, xs: seq<Execution>) {
    AllIn(s, xs) && t.executed == s.executed + xs &&
    Replies(t.sent) == Replies(s.sent) + RepliesFor(s, xs) &&
    Announced(t.sent) == Announced(s.sent) + Due(s.cfg.step, xs)
  }

  // ---- One pass of execution ----

  lemma CheckpointReported(s: State)
    requires s.balances.Keys != {}
    ensures var t := Checkpoint(s);
            t.executed == s.executed && Replies(t.sent) == Replies(s.sent) &&
            Announced(t.sent) == Announced(s.sent) + [s.lastExecuted]
  {
    hide CheckpointText.Text;
    var o := Checkpoint(s).sent[|s.sent|];
    assert Checkpoint(s).sent[..|s.sent|] == s.sent;
  }

  lemma ExecuteOneReported(s: State, n: int) returns (x: Execution)
    requires n in s.slots
    ensures x.seqNum == n && x.transfer == s.slots[n].m.data && Reported(s, ExecuteOne(s, n), [x])
    ensures ExecuteOne(s, n).view == s.view && ExecuteOne(s, n).cfg == s.cfg
  {
    hide ExecuteOne, Checkpoint, Apply, Replies, Announced, Due;
    var t := Executed1(s, n);
    x := t.executed[|s.executed|];
    ExecuteOneIs(s, n);
    CheckpointReported(t);
    CheckpointKeepsView(t);
    RepliesJoin(s.sent, [ReplyFor(s, x)]);
    OneReply(ReplyFor(s, x));
    OneDue(s.cfg.step, x);
    assert RepliesFor(s, [x]) == [ReplyFor(s, x)];
    assert t.sent == s.sent + [ReplyFor(s, x)] && t.executed == s.executed + [x];
  }

  lemma CheckpointKeepsView(s: State)
    requires s.balances.Keys != {}
    ensures Checkpoint(s).view == s.view && Checkpoint(s).cfg == s.cfg
  {
    hide CheckpointText.Text;
  }

  lemma OneReply(o: Output)
    requires o.Notify?
    ensures Replies([o]) == [o] && Announced([o]) == []
  {
    assert Replies([o][..0]) == [];
  }

  lemma OneDue(step: nat, x: Execution)
    ensures Due(step, [x]) == if step > 0 && x.seqNum % step == step - 1 then [x.seqNum] else []
  {
    assert [x][..0] == [];
  }

  /** Replies depend on the messages of the slots, the view and the replica only. */
  ghost predicate SameClients(s: State, t: State) {
    t.cfg == s.cfg && t.view == s.view && t.slots.Keys == s.slots.Keys &&
    forall n | n in s.slots :: t.slots[n].m == s.slots[n].m
  }

  lemma ReportedOn(s: State, t: State, u: State, xs: seq<Execution>, ys: seq<Execution>)
    requires Reported(s, t, xs) && SameClients(s, t) && Reported(t, u, ys)
    ensures Reported(s, u, xs + ys)
  {
    hide Replies, Announced, Due;
    DueJoin(s.cfg.step, xs, ys);
    assert RepliesFor(s, xs + ys) == RepliesFor(s, xs) + RepliesFor(t, ys);
  }

  lemma NothingReported(s: State)
    ensures Reported(s, s, [])
  {
    hide Replies, Announced;
  }

  lemma RanSameClients(s: State, t: State)
    requires Ran(s, t)
    ensures SameClients(s, t)
  {
  }

  /** The executions are of committed slots from n on, each of the slot's own transfer. */
  ghost predicate FromLog(s: State, n: int, xs: seq<Execution>) {
    AllIn(s, xs) &&
    forall i | 0 <= i < |xs| :: s.slots[xs[i].seqNum].status == Committed && n <= xs[i].seqNum <= s.current &&
                                xs[i].transfer == s.slots[xs[i].seqNum].m.data
  }

  /** A pass of execution reports every slot it executes to the client of that slot's message, once and in order. */
  lemma {:induction false} PassReports(s: State, n: int) returns (xs: seq<Execution>)
    requires s.lastExecuted < n
    ensures Reported(s, ExecuteFrom(s, n), xs) && FromLog(s, n, xs)
    decreases s.current - n
  {
    hide ExecuteOne, Reported, SameClients, FromLog, Ran;
    if n > s.current || (n in s.slots && s.slots[n].status != Committed && s.slots[n].status != Executed) {
      xs := [];
      NothingReported(s);
      assert FromLog(s, n, xs) by { NoneFrom(s, n); }
    } else if n in s.slots && s.slots[n].status == Committed {
      var x := ExecuteOneReported(s, n);
      ExecuteOneRan(s, n);
      var ys := PassReports(ExecuteOne(s, n), n + 1);
      RanSameClients(s, ExecuteOne(s, n));
      ReportedOn(s, ExecuteOne(s, n), ExecuteFrom(s, n), [x], ys);
      xs := [x] + ys;
      LaterPass(s, n, x, ys);
    } else {
      xs := PassReports(s, n + 1);
      LowerFrom(s, n, xs);
    }
  }

  lemma NoneFrom(s: State, n: int)
    ensures FromLog(s, n, [])
  {
  }

  lemma LowerFrom(s: State, n: int, xs: seq<Execution>)
    requires FromLog(s, n + 1, xs)
    ensures FromLog(s, n, xs)
  {
  }

  lemma LaterPass(s: State, n: int, x: Execution, ys: seq<Execution>)
    requires n in s.slots && s.slots[n].status == Committed && n <= s.current && Ran(s, ExecuteOne(s, n))
    requires x.seqNum == n && x.transfer == s.slots[n].m.data && FromLog(ExecuteOne(s, n), n + 1, ys)
    ensures FromLog(s, n, [x] + ys)
  {
    hide ExecuteOne;
    var t, xs := ExecuteOne(s, n), [x] + ys;
    forall i | 0 <= i < |xs|
      ensures xs[i].seqNum in s.slots && s.slots[xs[i].seqNum].status == Committed && n <= xs[i].seqNum <= s.current
      ensures xs[i].transfer == s.slots[xs[i].seqNum].m.data
    {
      if i > 0 {
        var k := ys[i - 1].seqNum;
        assert t.slots[k].status == Committed && k in s.slots;
      }
    }
  }

  // ---- One event ----

  /** The only reply an event sends outside execution: a retry answered from the table. */
  function Retried(s: State, e: Event): seq<Output> {
    if e.OnTransfer? && Answers(s, e.m)
    then [Notify(e.m.sig.signer, Response(e.m.data, s.slots[s.index[TransferDigest(e.m.data)]].result, s.view,
                                          Signature(s.cfg.id, true)))]
    else []
  }

  lemma TransferReplies(s: State, m: Message)
    ensures Replies(TransferChange(s, m).outs) == Retried(s, OnTransfer(m))
  {
    hide IsLeader, LeaderOf, Inherited, ProposeChange, ReproposeChange, Replies;
    var c := TransferChange(s, m);
    NoneAmong(c.outs);
    ProposeOuts(s, m);
    if Answers(s, m) {
      OneReply(c.outs[0]);
    }
  }

  lemma OutsReplies(s: State, e: Event)
    requires !e.OnCheckpoint?
    ensures Replies(ChangeOf(s, e).outs) == Retried(s, e) && Announced(ChangeOf(s, e).outs) == []
  {
    hide ChangeOf, TransferChange, Replies, Announced;
    NoCheckpointOut(s, e);
    NoneAmong(ChangeOf(s, e).outs);
    if e.OnTransfer? {
      TransferReplies(s, e.m);
      assert ChangeOf(s, e) == TransferChange(s, e.m) by { TransferChangeIs(s, e); }
    } else if AboutViews(e) {
      ViewsQuiet(s, e);
    } else {
      VoteReplies(s, e);
    }
  }

  lemma TransferChangeIs(s: State, e: Event)
    requires e.OnTransfer?
    ensures ChangeOf(s, e) == TransferChange(s, e.m)
  {
  }

  lemma CommitsSameClients(s: State, e: Event, mid: State)
    requires !e.OnCheckpoint? && Made(s, ChangeOf(s, e), mid) && Commits(s, e)
    ensures SameClients(s, mid) && Retried(s, e) == []
  {
    hide Made, Commits, PrepareOkChange, CommitChange, OptimisticTimerChange, Retried;
    NotTransfer(s, e);
    NotRetried(s, e);
    match e {
      case OnPrepareOk(r) => AckClients(s, r);
      case OnCommit(p) => CommitClients(s, p);
      case OnOptimisticTimer(n) => TimerClients(s, n);
    }
    MadeClients(s, ChangeOf(s, e), mid);
  }

  lemma NotTransfer(s: State, e: Event)
    requires Commits(s, e)
    ensures e.OnPrepareOk? || e.OnCommit? || e.OnOptimisticTimer?
  {
  }

  /** The change writes at most an entry that was there, and leaves its message as it was. */
  predicate KeepsClients(s: State, c: Change) {
    c.view == s.view &&
    (c.write.Some? ==> c.write.value.n in s.slots && c.write.value.e.m == s.slots[c.write.value.n].m)
  }

  lemma MadeClients(s: State, c: Change, mid: State)
    requires Made(s, c, mid) && KeepsClients(s, c)
    ensures SameClients(s, mid)
  {
  }

  lemma AckClients(s: State, r: Request)
    ensures KeepsClients(s, PrepareOkChange(s, r))
  {
    hide AckOffered, AckMatches;
  }

  lemma CommitClients(s: State, p: ProofRequest)
    ensures KeepsClients(s, CommitChange(s, p))
  {
    hide AddProofs;
  }

  lemma TimerClients(s: State, n: int)
    ensures KeepsClients(s, OptimisticTimerChange(s, n))
  {
    hide Sign, PrepareProofOf, AllPrepared;
  }

  lemma MidReports(s: State, e: Event, mid: State)
    requires !e.OnCheckpoint? && Made(s, ChangeOf(s, e), mid)
    ensures mid.executed == s.executed && mid.cfg == s.cfg
    ensures Replies(mid.sent) == Replies(s.sent) + Retried(s, e) && Announced(mid.sent) == Announced(s.sent)
  {
    hide ChangeOf, Replies, Announced, Retried;
    OutsReplies(s, e);
    RepliesJoin(s.sent, ChangeOf(s, e).outs);
  }

  lemma EmitReports(s: State, o: Output)
    requires !o.Notify? && !o.SendCheckpoint?
    ensures Replies(Emit(s, o).sent) == Replies(s.sent) && Announced(Emit(s, o).sent) == Announced(s.sent)
    ensures Emit(s, o).executed == s.executed
  {
    assert (s.sent + [o])[..|s.sent|] == s.sent;
  }

  /** Every event, exactly: it replies for every slot it executes, once, in order, to the client of that slot's message;
      it announces a checkpoint at every step-th slot it executes; and it sends no other reply but to a retry. */
  lemma NextReports(s: State, e: Event) returns (xs: seq<Execution>)
    requires WindowInv(s) && Enabled(s, e)
    ensures AllIn(s, xs) && Next(s, e).executed == s.executed + xs
    ensures Replies(Next(s, e).sent) == Replies(s.sent) + Retried(s, e) + RepliesFor(s, xs)
    ensures Announced(Next(s, e).sent) == Announced(s.sent) + Due(s.cfg.step, xs)
    ensures xs != [] ==> Next(s, e).view == s.view && Retried(s, e) == []
  {
    hide WindowInv, ChangeOf, Made, Finished, Replies, Announced, Retried, RepliesFor, Due, SameClients, Commits,
         ProcessTransfer, ProcessPrePrepare, ProcessPrePrepareOk, ProcessPrepare, ProcessPrepareOk, ProcessCommit,
         ProcessViewChange, ProcessNewView, ProcessCheckpoint, OptimisticTimer, DigestTimer, SlotTimer, ViewTimer;
    xs := [];
    NoneOwed(s);
    if e.OnCheckpoint? {
      CheckpointFields(s, e.c);
      assert Retried(s, e) == [] by { NotRetried(s, e); }
    } else {
      var mid := NextMade(s, e);
      MidReports(s, e, mid);
      if Commits(s, e) {
        CommitsSameClients(s, e, mid);
        xs := FinishedReports(s, e, mid, Next(s, e));
      } else {
        assert Next(s, e) == mid by { NotFinished(s, e, mid, Next(s, e)); }
      }
    }
  }

  lemma NoneOwed(s: State)
    ensures AllIn(s, []) && RepliesFor(s, []) == [] && Due(s.cfg.step, []) == []
  {
  }

  lemma NotRetried(s: State, e: Event)
    requires !e.OnTransfer?
    ensures Retried(s, e) == []
  {
  }

  lemma NotFinished(s: State, e: Event, mid: State, t: State)
    requires Finished(s, e, mid, t) && !Commits(s, e)
    ensures t == mid
  {
    hide Commits;
  }

  lemma FinishedReports(s: State, e: Event, mid: State, t: State) returns (xs: seq<Execution>)
    requires Finished(s, e, mid, t) && Commits(s, e) && SameClients(s, mid)
    ensures AllIn(s, xs) && t.executed == mid.executed + xs && t.view == s.view
    ensures Replies(t.sent) == Replies(mid.sent) + RepliesFor(s, xs)
    ensures Announced(t.sent) == Announced(mid.sent) + Due(s.cfg.step, xs)
  {
    hide Commits, ExecuteFrom, Replies, Announced, Due;
    var u := ExecutePending(mid);
    xs := PassReports(mid, mid.lastExecuted + 1);
    ExecutePendingRan(mid);
    RanSameClients(mid, u);
    assert RepliesFor(s, xs) == RepliesFor(mid, xs);
    if e.OnPrepareOk? {
      var proof :| t == Emit(u, SendCommit(proof));
      EmitReports(u, SendCommit(proof));
    }
  }

  // ---- Every run ----

  /** Event i of the run executed x and replied for it. */
  ghost predicate RepliedAt(before: State, after: State, x: Execution) {
    x !in before.executed && x in after.executed && x.seqNum in before.slots && after.view == before.view &&
    ReplyFor(before, x) in after.sent
  }

  lemma NewReplied(s: State, e: Event, x: Execution)
    requires WindowInv(s) && ExecInv(s) && Enabled(s, e) && x in Next(s, e).executed && x !in s.executed
    ensures RepliedAt(s, Next(s, e), x)
  {
    hide Next, Enabled, WindowInv, ExecInv, Due, Replies;
    var xs := NextReports(s, e);
    var i :| 0 <= i < |xs| && xs[i] == x;
    var o := ReplyFor(s, x);
    assert RepliesFor(s, xs)[i] == o;
    assert o in Replies(Next(s, e).sent);
    ReplyAmong(Next(s, e).sent, o);
  }

  /** Over every run, across views: whatever is in the executed list was reported by the very event that executed it, to
      the signer of the slot's message, with exactly its transfer and result, the view of that moment and the
      replica's own valid signature; and the reply stays sent. */
  lemma {:induction false} EveryExecutionReported(cfg: Config, es: seq<Event>, x: Execution) returns (i: nat)
    requires cfg.k >= 1 && Run(Init(cfg), es).Some? && x in Run(Init(cfg), es).value.executed
    ensures i < |es| && Run(Init(cfg), es[..i]).Some? && Run(Init(cfg), es[..i + 1]).Some?
    ensures var before, after := Run(Init(cfg), es[..i]).value, Run(Init(cfg), es[..i + 1]).value;
            RepliedAt(before, after, x) && ReplyFor(before, x) in Run(Init(cfg), es).value.sent
  {
    hide Next, Enabled, ReplyFor, RepliedAt, WindowInv, ExecInv;
    var front, e := es[..|es| - 1], es[|es| - 1];
    var s := Run(Init(cfg), front).value;
    WindowAlways(cfg, front);
    ExecutionRefinesFold(cfg, front);
    if x in s.executed {
      i := EveryExecutionReported(cfg, front, x);
      assert front[..i] == es[..i] && front[..i + 1] == es[..i + 1];
      var before := Run(Init(cfg), es[..i]).value;
      assert x.seqNum in before.slots by { RepliedIn(before, Run(Init(cfg), es[..i + 1]).value, x); }
      StaysSent(s, e, ReplyFor(before, x));
    } else {
      i := |es| - 1;
      assert es[..i + 1] == es;
      NewReplied(s, e, x);
      RepliedIn(s, Next(s, e), x);
    }
  }

  lemma RepliedIn(before: State, after: State, x: Execution)
    requires RepliedAt(before, after, x)
    ensures x.seqNum in before.slots && ReplyFor(before, x) in after.sent
  {
  }

  lemma StaysSent(s: State, e: Event, o: Output)
    requires WindowInv(s) && Enabled(s, e) && o in s.sent
    ensures o in Next(s, e).sent
  {
    hide Next, Enabled, WindowInv;
    NextKeepsWindow(s, e);
  }

  /** Over every run the checkpoints announced are those of the executed slots that are due, each once and in order. */
  lemma {:induction false} CheckpointsAnnounced(cfg: Config, es: seq<Event>)
    requires cfg.k >= 1 && Run(Init(cfg), es).Some?
    ensures var s := Run(Init(cfg), es).value;
            s.cfg == cfg && Announced(s.sent) == Due(cfg.step, s.executed)
  {
    if es != [] {
      hide Next, Enabled, Announced, Due, WindowInv;
      var s, e := Run(Init(cfg), es[..|es| - 1]).value, es[|es| - 1];
      CheckpointsAnnounced(cfg, es[..|es| - 1]);
      WindowAlways(cfg, es[..|es| - 1]);
      var xs := NextReports(s, e);
      DueJoin(cfg.step, s.executed, xs);
      NextKeepsWindow(s, e);
    }
  }
}
