/** The balances a replica keeps for its checkpoints, and when a checkpoint becomes stable: over every run. */
module Snapshots {
  import opened Messages
  import opened Accounts
  import opened ReplicaState
  import opened Change
  import opened Window
  import opened ExecutionFold

  // ---- What is recorded ----

  /** The replica has executed slot n, and a checkpoint is due there. */
  ghost predicate DueAt(s: State, n: int) {
    s.cfg.step > 0 && n % s.cfg.step == s.cfg.step - 1 && exists i :: 0 <= i < |s.executed| && s.executed[i].seqNum == n
  }

  /** The balances after the executions up to slot n. */
  function BalancesAt(s: State, n: int): Balances {
    Fold(s.cfg.initial, Transfers(UpTo(s.executed, n)))
  }

  /** Balances and digest kept for slot n: those after the executions up to n once a checkpoint of n was due, and blank
      until then. */
  ghost predicate KeptFor(s: State, n: int, state: Balances, digest: Digest) {
    if DueAt(s, n) then state == BalancesAt(s, n) && digest == BalancesDigest(state)
    else state == map[] && digest == Blank
  }

  ghost predicate SnapshotInv(s: State) {
    (forall n | n in s.checkpoints :: KeptFor(s, n, s.checkpoints[n].state, s.checkpoints[n].digest)) &&
    (forall n | DueAt(s, n) && s.stableSeq < n :: n in s.checkpoints) &&
    KeptFor(s, s.stableSeq, s.stableState, s.stableDigest) &&
    (forall c | SendCheckpoint(c) in s.sent :: c.sig == Signature(s.cfg.id, true))
  }

  // ---- One execution ----

  /** t is s after executing x, as far as checkpoints are concerned. */
  ghost predicate Recorded(s: State, t: State, x: Execution) {
    t.cfg == s.cfg && t.executed == s.executed + [x] && t.stableSeq == s.stableSeq &&
    t.stableState == s.stableState && t.stableDigest == s.stableDigest &&
    (forall c | SendCheckpoint(c) in t.sent :: SendCheckpoint(c) in s.sent || c.sig == Signature(s.cfg.id, true)) &&
    if s.cfg.step > 0 && x.seqNum % s.cfg.step == s.cfg.step - 1
    then t.checkpoints.Keys == s.checkpoints.Keys + {x.seqNum} &&
         (forall n | n in s.checkpoints && n != x.seqNum :: t.checkpoints[n] == s.checkpoints[n]) &&
         t.checkpoints[x.seqNum].state == t.balances && t.checkpoints[x.seqNum].digest == BalancesDigest(t.balances)
    else t.checkpoints == s.checkpoints
  }

  lemma CheckpointRecords(s: State)
    requires s.balances.Keys != {}
    ensures var t := Checkpoint(s);
            t == s.(checkpoints := t.checkpoints, sent := t.sent) &&
            t.checkpoints.Keys == s.checkpoints.Keys + {s.lastExecuted} &&
            (forall n | n in s.checkpoints && n != s.lastExecuted :: t.checkpoints[n] == s.checkpoints[n]) &&
            t.checkpoints[s.lastExecuted].state == s.balances &&
            t.checkpoints[s.lastExecuted].digest == BalancesDigest(s.balances) &&
            exists c: CheckpointReq :: c.sig == Signature(s.cfg.id, true) && t.sent == s.sent + [SendCheckpoint(c)]
  {
    hide CheckpointText.Text;
    var digest := StateDigest(CheckpointText.Text(s.balances));
    var c := CheckpointReq(CheckpointData(s.lastExecuted, digest), Signature(s.cfg.id, true));
    assert Checkpoint(s).sent == s.sent + [SendCheckpoint(c)];
  }

  lemma ExecuteOneRecords(s: State, n: int) returns (x: Execution)
    requires n in s.slots
    ensures x.seqNum == n && Recorded(s, ExecuteOne(s, n), x)
  {
    hide ExecuteOne, Checkpoint, Apply, BalancesDigest;
    var t := Executed1(s, n);
    x := t.executed[|s.executed|];
    ExecuteOneIs(s, n);
    CheckpointRecords(t);
  }

  lemma KeptLater(s: State, t: State, x: Execution, n: int, state: Balances, digest: Digest)
    requires KeptFor(s, n, state, digest) && n != x.seqNum && s.lastExecuted < x.seqNum && ExecInv(s)
    requires t.cfg == s.cfg && t.executed == s.executed + [x]
    ensures KeptFor(t, n, state, digest)
  {
    hide Fold, ResultsFolded, DigestAt, BalancesDigest;
    DueLater(s, t, x, n);
    if DueAt(s, n) {
      UpToSnoc(s.executed, x, n) by { DueBefore(s, n); }
    }
  }

  lemma DueLater(s: State, t: State, x: Execution, n: int)
    requires t.cfg == s.cfg && t.executed == s.executed + [x] && n != x.seqNum
    ensures DueAt(t, n) <==> DueAt(s, n)
  {
    if DueAt(s, n) {
      var i :| 0 <= i < |s.executed| && s.executed[i].seqNum == n;
      assert t.executed[i].seqNum == n;
    }
    if DueAt(t, n) {
      var i :| 0 <= i < |t.executed| && t.executed[i].seqNum == n;
      assert i < |s.executed| && s.executed[i].seqNum == n;
    }
  }

  lemma DueBefore(s: State, n: int)
    requires ExecInv(s) && DueAt(s, n)
    ensures n <= s.lastExecuted
  {
    hide Fold, ResultsFolded, DigestAt;
    var i :| 0 <= i < |s.executed| && s.executed[i].seqNum == n;
    assert i == |s.executed| - 1 || s.executed[i].seqNum < s.executed[|s.executed| - 1].seqNum;
  }

  lemma RecordedKeeps(s: State, t: State, x: Execution)
    requires SnapshotInv(s) && ExecInv(s) && ExecInv(t) && Recorded(s, t, x)
    requires s.stableSeq <= s.lastExecuted < x.seqNum
    ensures SnapshotInv(t)
  {
    hide KeptFor, ExecInv, BalancesDigest, DueAt;
    var n := x.seqNum;
    forall k | k in t.checkpoints
      ensures KeptFor(t, k, t.checkpoints[k].state, t.checkpoints[k].digest)
    {
      if k == n {
        KeptNow(s, t, x);
      } else {
        KeptLater(s, t, x, k, t.checkpoints[k].state, t.checkpoints[k].digest);
      }
    }
    KeptLater(s, t, x, s.stableSeq, s.stableState, s.stableDigest);
    forall k | DueAt(t, k) && t.stableSeq < k
      ensures k in t.checkpoints
    {
      if k == n {
        DueIsStep(t, k);
      } else {
        DueLater(s, t, x, k);
      }
    }
  }

  lemma DueIsStep(s: State, n: int)
    requires DueAt(s, n)
    ensures s.cfg.step > 0 && n % s.cfg.step == s.cfg.step - 1
  {
  }

  lemma KeptNow(s: State, t: State, x: Execution)
    requires SnapshotInv(s) && ExecInv(s) && ExecInv(t) && Recorded(s, t, x) && s.lastExecuted < x.seqNum
    requires x.seqNum in t.checkpoints
    ensures KeptFor(t, x.seqNum, t.checkpoints[x.seqNum].state, t.checkpoints[x.seqNum].digest)
  {
    hide Fold, ResultsFolded, DigestAt, BalancesDigest, Ordered;
    var n := x.seqNum;
    assert t.executed[|s.executed|].seqNum == n;
    if s.cfg.step > 0 && n % s.cfg.step == s.cfg.step - 1 {
      assert DueAt(t, n);
      assert UpTo(t.executed, n) == t.executed;
    } else {
      assert !DueAt(s, n) && !DueAt(t, n);
    }
  }

  lemma {:induction false} PassRecords(s: State, n: int)
    requires SnapshotInv(s) && ExecInv(s) && s.stableSeq <= s.lastExecuted < n && 0 <= n
    ensures SnapshotInv(ExecuteFrom(s, n))
    decreases s.current - n
  {
    hide ExecuteOne, SnapshotInv, ExecInv, Recorded;
    if n <= s.current {
      if n in s.slots && s.slots[n].status == Committed {
        var x := ExecuteOneRecords(s, n);
        ExecuteOneKeeps(s, n);
        ExecuteOneRan(s, n);
        RecordedKeeps(s, ExecuteOne(s, n), x);
        PassRecords(ExecuteOne(s, n), n + 1);
      } else if n !in s.slots || s.slots[n].status == Executed {
        PassRecords(s, n + 1);
      }
    }
  }

  // ---- Every event, every run ----

  lemma SameRecords(s: State, t: State)
    requires SnapshotInv(s) && t.cfg == s.cfg && t.executed == s.executed && t.checkpoints == s.checkpoints
    requires t.stableSeq == s.stableSeq && t.stableState == s.stableState && t.stableDigest == s.stableDigest
    requires forall o | o in t.sent :: o in s.sent || !o.SendCheckpoint?
    ensures SnapshotInv(t)
  {
    hide Fold, BalancesDigest;
    assert forall n, state, digest :: KeptFor(s, n, state, digest) ==> KeptFor(t, n, state, digest);
  }

  lemma MadeRecords(s: State, c: Change, mid: State)
    requires SnapshotInv(s) && Made(s, c, mid) && Unannounced(c)
    ensures SnapshotInv(mid)
  {
    hide SnapshotInv;
    SameRecords(s, mid);
  }

  lemma FinishedRecords(s: State, e: Event, mid: State, t: State)
    requires SnapshotInv(mid) && ExecInv(mid) && WindowInv(mid) && Finished(s, e, mid, t)
    ensures SnapshotInv(t)
  {
    hide SnapshotInv, ExecInv, Commits, ExecuteFrom;
    PassRecords(mid, mid.lastExecuted + 1);
    if Commits(s, e) && e.OnPrepareOk? {
      var proof :| t == Emit(ExecutePending(mid), SendCommit(proof));
      SameRecords(ExecutePending(mid), t);
    }
  }

  /** A message's record keeps the balances and digest of the record it extends, and is blank when there is none. */
  lemma MessageKept(s: State, c: CheckpointReq)
    requires SnapshotInv(s) && s.stableSeq < c.data.seqNum
    ensures KeptFor(s, c.data.seqNum, RecordCheckpoint(s, c).state, RecordCheckpoint(s, c).digest)
  {
    hide DueAt, BalancesAt, BalancesDigest;
  }

  lemma MessageRecords(s: State, c: CheckpointReq)
    requires SnapshotInv(s)
    ensures SnapshotInv(ProcessCheckpoint(s, c))
  {
    hide SnapshotInv, RecordCheckpoint, BecomesStable, DigestsUpTo;
    if CheckpointOffered(s, c) {
      MessageKept(s, c);
      if BecomesStable(s, c) {
        StableRecords(s, c, ProcessCheckpoint(s, c));
      } else {
        StoredRecords(s, c, ProcessCheckpoint(s, c));
      }
    }
  }

  lemma StoredRecords(s: State, c: CheckpointReq, t: State)
    requires var info := RecordCheckpoint(s, c);
             SnapshotInv(s) && KeptFor(s, c.data.seqNum, info.state, info.digest) &&
             t == s.(checkpoints := s.checkpoints[c.data.seqNum := info])
    ensures SnapshotInv(t)
  {
    hide KeptFor, DueAt, RecordCheckpoint;
    DueSame(s, t);
    KeptSame(s, t, c.data.seqNum, RecordCheckpoint(s, c).state, RecordCheckpoint(s, c).digest);
    KeptSame(s, t, s.stableSeq, s.stableState, s.stableDigest);
    forall n | n in t.checkpoints
      ensures KeptFor(t, n, t.checkpoints[n].state, t.checkpoints[n].digest)
    {
      if n != c.data.seqNum {
        KeptSame(s, t, n, s.checkpoints[n].state, s.checkpoints[n].digest);
      }
    }
  }

  lemma KeptSame(s: State, t: State, n: int, state: Balances, digest: Digest)
    requires t.cfg == s.cfg && t.executed == s.executed && KeptFor(s, n, state, digest)
    ensures KeptFor(t, n, state, digest)
  {
    hide DueAt, BalancesAt, BalancesDigest;
    DueSame(s, t);
  }

  lemma StableRecords(s: State, c: CheckpointReq, t: State)
    requires var n, info := c.data.seqNum, RecordCheckpoint(s, c);
             SnapshotInv(s) && KeptFor(s, n, info.state, info.digest) && s.stableSeq < n &&
             t.cfg == s.cfg && t.executed == s.executed && t.sent == s.sent && t.checkpoints == s.checkpoints - {n} &&
             t.stableSeq == n && t.stableState == info.state && t.stableDigest == info.digest
    ensures SnapshotInv(t)
  {
    hide BalancesDigest, RecordCheckpoint;
    DueSame(s, t);
  }

  lemma DueSame(s: State, t: State)
    requires t.cfg == s.cfg && t.executed == s.executed
    ensures forall n :: (DueAt(t, n) <==> DueAt(s, n)) && BalancesAt(t, n) == BalancesAt(s, n)
  {
    hide Fold;
  }

  lemma NextKeepsSnapshots(s: State, e: Event)
    requires SnapshotInv(s) && ExecInv(s) && WindowInv(s) && Enabled(s, e)
    ensures SnapshotInv(Next(s, e))
  {
    hide SnapshotInv, ExecInv, WindowInv, ChangeOf, Made, Finished, ProcessTransfer, ProcessPrePrepare,
         ProcessPrePrepareOk, ProcessPrepare, ProcessPrepareOk, ProcessCommit, ProcessViewChange, ProcessNewView,
         ProcessCheckpoint, OptimisticTimer, DigestTimer, SlotTimer, ViewTimer, Unannounced, WindowGood, Advances;
    if e.OnCheckpoint? {
      MessageRecords(s, e.c);
    } else {
      var mid := NextMade(s, e);
      NoCheckpointOut(s, e);
      MadeRecords(s, ChangeOf(s, e), mid);
      MadeKeepsExec(s, ChangeOf(s, e), mid);
      ChangeWindow(s, e);
      MadeKeepsWindow(s, ChangeOf(s, e), mid);
      FinishedRecords(s, e, mid, Next(s, e));
    }
  }

  /** Over every run, across views: for each recorded checkpoint, and for the stable one, the balances kept are exactly
      those after the executions up to its sequence number and the digest is theirs, or both are blank when the replica
      has taken no checkpoint there; and every checkpoint taken above the stable one is still recorded. */
  lemma {:induction false} SnapshotsAlways(cfg: Config, es: seq<Event>)
    requires cfg.k >= 1 && Run(Init(cfg), es).Some?
    ensures SnapshotInv(Run(Init(cfg), es).value)
  {
    if es != [] {
      hide Next, Enabled, SnapshotInv, ExecInv, WindowInv;
      var front := es[..|es| - 1];
      SnapshotsAlways(cfg, front);
      ExecutionRefinesFold(cfg, front);
      WindowAlways(cfg, front);
      NextKeepsSnapshots(Run(Init(cfg), front).value, es[|es| - 1]);
    }
  }

  // ---- Who vouches for a checkpoint, and when it becomes stable ----

  /** The senders of the checkpoint messages stored for slot n. */
  function Senders(s: State, n: int): set<int> {
    if n in s.checkpoints then s.checkpoints[n].proofs.Keys else {}
  }

  /** The message is valid, above the stable checkpoint, and agrees with what this replica knows: with its own balances
      if it took that checkpoint, and otherwise with a blank digest if an earlier message made the record. */
  ghost predicate Vouches(s: State, c: CheckpointReq) {
    var n := c.data.seqNum;
    c.sig.valid && s.stableSeq < n &&
    if DueAt(s, n) then c.data.digest == BalancesDigest(BalancesAt(s, n))
    else n in s.checkpoints ==> c.data.digest == Blank
  }

  lemma OfferedVouches(s: State, c: CheckpointReq)
    requires SnapshotInv(s)
    ensures CheckpointOffered(s, c) <==> Vouches(s, c)
  {
    hide DueAt, BalancesAt, BalancesDigest;
  }

  /** When a checkpoint becomes stable, exactly: at every moment of every run, a message moves the stable checkpoint
      if and only if it vouches for a slot the replica has reached and makes 2f + 1 distinct senders with those before
      it. It moves it to that slot, keeps all their messages as proof, and keeps the balances the replica had there.
      */
  lemma StableExactly(cfg: Config, s: State, c: CheckpointReq)
    requires cfg.k >= 1 && Reached(cfg, s) && Enabled(s, OnCheckpoint(c))
    ensures var t, n := Next(s, OnCheckpoint(c)), c.data.seqNum;
            (t.stableSeq != s.stableSeq <==>
               Vouches(s, c) && n <= s.lastExecuted && |Senders(s, n) + {c.sig.signer}| >= 2 * cfg.f + 1) &&
            (t.stableSeq != s.stableSeq ==>
               t.stableSeq == n && t.stableProofs.Keys == Senders(s, n) + {c.sig.signer} &&
               t.stableProofs[c.sig.signer] == c &&
               (DueAt(s, n) ==> t.stableState == BalancesAt(s, n) && t.stableDigest == BalancesDigest(t.stableState)))
  {
    hide Run, Init, SnapshotInv, CheckpointOffered, Vouches, DueAt, ProcessCheckpoint, RecordCheckpoint, Senders;
    var es :| Run(Init(cfg), es) == Some(s);
    SnapshotsAlways(cfg, es);
    ConfigStays(cfg, es);
    OfferedVouches(s, c);
    MessageMoves(s, c);
    if Vouches(s, c) {
      assert s.stableSeq < c.data.seqNum by { VouchesAbove(s, c); }
      MessageKept(s, c);
      KeptIs(s, c.data.seqNum, RecordCheckpoint(s, c).state, RecordCheckpoint(s, c).digest);
    }
  }

  lemma MessageMoves(s: State, c: CheckpointReq)
    ensures var t, n, info := ProcessCheckpoint(s, c), c.data.seqNum, RecordCheckpoint(s, c);
            info.proofs.Keys == Senders(s, n) + {c.sig.signer} && info.proofs[c.sig.signer] == c &&
            (t.stableSeq != s.stableSeq <==>
               CheckpointOffered(s, c) && n <= s.lastExecuted &&
               |Senders(s, n) + {c.sig.signer}| >= 2 * s.cfg.f + 1) &&
            (t.stableSeq != s.stableSeq ==>
               t.stableSeq == n && t.stableProofs == info.proofs && t.stableState == info.state &&
               t.stableDigest == info.digest)
  {
    hide DigestsUpTo, RecordCheckpoint, CheckpointOffered, Senders;
    RecordSenders(s, c);
    if CheckpointOffered(s, c) {
      OfferedAbove(s, c);
    }
    KeysSize(RecordCheckpoint(s, c).proofs);
  }

  lemma OfferedAbove(s: State, c: CheckpointReq)
    requires CheckpointOffered(s, c)
    ensures s.stableSeq < c.data.seqNum
  {
  }

  lemma KeysSize<T>(m: map<int, T>)
    ensures |m| == |m.Keys|
  {
  }

  lemma VouchesAbove(s: State, c: CheckpointReq)
    requires Vouches(s, c)
    ensures s.stableSeq < c.data.seqNum
  {
  }

  lemma KeptIs(s: State, n: int, state: Balances, digest: Digest)
    requires KeptFor(s, n, state, digest)
    ensures DueAt(s, n) ==> state == BalancesAt(s, n) && digest == BalancesDigest(state)
  {
    hide DueAt, BalancesAt, BalancesDigest;
  }

  lemma {:induction false} ConfigStays(cfg: Config, es: seq<Event>)
    requires cfg.k >= 1 && Run(Init(cfg), es).Some?
    ensures Run(Init(cfg), es).value.cfg == cfg
  {
    if es != [] {
      hide Next, Enabled, WindowInv;
      ConfigStays(cfg, es[..|es| - 1]);
      WindowAlways(cfg, es[..|es| - 1]);
      NextKeepsWindow(Run(Init(cfg), es[..|es| - 1]).value, es[|es| - 1]);
    }
  }

  /** Execution and every other event leave the stored senders as they are. */
  ghost predicate SameSenders(s: State, t: State) {
    t.stableSeq == s.stableSeq && forall n :: Senders(t, n) == Senders(s, n)
  }

  lemma CheckpointSenders(s: State)
    requires s.balances.Keys != {}
    ensures SameSenders(s, Checkpoint(s)) && Checkpoint(s).current == s.current
  {
    hide CheckpointText.Text;
  }

  lemma ExecuteOneSenders(s: State, n: int)
    requires n in s.slots
    ensures SameSenders(s, ExecuteOne(s, n)) && ExecuteOne(s, n).current == s.current
  {
    hide ExecuteOne, Checkpoint, Apply;
    ExecuteOneIs(s, n);
    CheckpointSenders(Executed1(s, n));
  }

  lemma {:induction false} PassSenders(s: State, n: int)
    ensures SameSenders(s, ExecuteFrom(s, n))
    decreases s.current - n
  {
    hide ExecuteOne, Senders;
    if n <= s.current {
      if n in s.slots && s.slots[n].status == Committed {
        ExecuteOneSenders(s, n);
        PassSenders(ExecuteOne(s, n), n + 1);
      } else if n !in s.slots || s.slots[n].status == Executed {
        PassSenders(s, n + 1);
      }
    }
  }

  lemma FinishedSenders(s: State, e: Event, mid: State, t: State)
    requires Finished(s, e, mid, t)
    ensures SameSenders(mid, t)
  {
    hide Commits, ExecuteFrom;
    PassSenders(mid, mid.lastExecuted + 1);
  }

  /** The senders stored for a slot above the stable checkpoint are never forgotten, and grow by exactly the sender of
      each message that vouches for it. */
  lemma SendersGrow(cfg: Config, s: State, e: Event, n: int)
    requires cfg.k >= 1 && Reached(cfg, s) && Enabled(s, e) && Next(s, e).stableSeq < n
    ensures Senders(Next(s, e), n) ==
            Senders(s, n) + (if e.OnCheckpoint? && e.c.data.seqNum == n &&
                             Vouches(s, e.c) then {e.c.sig.signer} else {})
  {
    hide Run, Init, SnapshotInv, Vouches, ChangeOf, Made, Finished, ProcessTransfer, ProcessPrePrepare,
         ProcessPrePrepareOk, ProcessPrepare, ProcessPrepareOk, ProcessCommit, ProcessViewChange, ProcessNewView,
         ProcessCheckpoint, OptimisticTimer, DigestTimer, SlotTimer, ViewTimer;
    if e.OnCheckpoint? {
      var es :| Run(Init(cfg), es) == Some(s);
      SnapshotsAlways(cfg, es);
      OfferedVouches(s, e.c);
      MessageSenders(s, e.c, n);
    } else {
      var mid := NextMade(s, e);
      MadeSenders(s, ChangeOf(s, e), mid);
      FinishedSenders(s, e, mid, Next(s, e));
    }
  }

  lemma MadeSenders(s: State, c: Change, mid: State)
    requires Made(s, c, mid)
    ensures SameSenders(s, mid)
  {
  }

  lemma MessageSenders(s: State, c: CheckpointReq, n: int)
    requires ProcessCheckpoint(s, c).stableSeq < n
    ensures Senders(ProcessCheckpoint(s, c), n) ==
            Senders(s, n) + (if c.data.seqNum == n && CheckpointOffered(s, c) then {c.sig.signer} else {})
  {
    hide CheckpointOffered, DigestsUpTo, RecordCheckpoint, BecomesStable, Senders;
    RecordSenders(s, c);
    var t := ProcessCheckpoint(s, c);
    if CheckpointOffered(s, c) {
      if BecomesStable(s, c) {
        SendersKept(s, t, n);
      } else if n == c.data.seqNum {
        SendersStored(t, n);
      } else {
        SendersKept(s, t, n);
      }
    }
  }

  lemma SendersKept(s: State, t: State, n: int)
    requires n in t.checkpoints <==> n in s.checkpoints
    requires n in s.checkpoints ==> t.checkpoints[n] == s.checkpoints[n]
    ensures Senders(t, n) == Senders(s, n)
  {
  }

  lemma SendersStored(s: State, n: int)
    requires n in s.checkpoints
    ensures Senders(s, n) == s.checkpoints[n].proofs.Keys
  {
  }

  lemma RecordSenders(s: State, c: CheckpointReq)
    ensures RecordCheckpoint(s, c).proofs.Keys == Senders(s, c.data.seqNum) + {c.sig.signer}
    ensures RecordCheckpoint(s, c).proofs[c.sig.signer] == c
  {
  }
}
