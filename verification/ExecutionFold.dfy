/** Execution over whole runs: it is the fold of the transfer rule over the executed list, every slot is
    executed at most once and in order, and a gap in the list is exactly an empty slot stepped over. */
module ExecutionFold {
  import opened Messages
  import opened Accounts
  import opened ReplicaState
  import opened Change
  import opened Window
  import CheckpointText

  function Transfers(xs: seq<Execution>): seq<Transfer> {
    seq(|xs|, i requires 0 <= i < |xs| => xs[i].transfer)
  }

  /** The executions up to a sequence number. */
  function UpTo(xs: seq<Execution>, n: int): seq<Execution> {
    if xs == [] || xs[|xs| - 1].seqNum <= n then xs else UpTo(xs[..|xs| - 1], n)
  }

  function BalancesDigest(b: Balances): Digest {
    if b.Keys == {} then Blank else StateDigest(CheckpointText.Text(b))
  }

  /** The checkpoint digest that an execution list determines for a sequence number. */
  function DigestAt(initial: Balances, xs: seq<Execution>, n: int): Digest {
    BalancesDigest(Fold(initial, Transfers(UpTo(xs, n))))
  }

  ghost predicate Ordered(xs: seq<Execution>) {
    (forall i | 0 <= i < |xs| :: 0 <= xs[i].seqNum) &&
    (forall i, j | 0 <= i < j < |xs| :: xs[i].seqNum < xs[j].seqNum)
  }

  /** Each recorded result is the one the transfer rule gives after the executions before it. */
  ghost predicate ResultsFolded(initial: Balances, xs: seq<Execution>) {
    forall i | 0 <= i < |xs| :: xs[i].result == Apply(Fold(initial, Transfers(xs[..i])), xs[i].transfer).ok
  }

  ghost predicate ExecInv(s: State) {
    Ordered(s.executed) && ResultsFolded(s.cfg.initial, s.executed) &&
    s.lastExecuted == (if s.executed == [] then -1 else s.executed[|s.executed| - 1].seqNum) &&
    s.balances == Fold(s.cfg.initial, Transfers(s.executed)) &&
    (forall c | SendCheckpoint(c) in s.sent ::
       c.data.seqNum <= s.lastExecuted && c.data.digest == DigestAt(s.cfg.initial, s.executed, c.data.seqNum))
  }

  // ---- One execution ----

  lemma TransfersSnoc(xs: seq<Execution>, x: Execution)
    ensures Transfers(xs + [x]) == Transfers(xs) + [x.transfer]
  {
  }

  lemma FoldSnoc(initial: Balances, xs: seq<Execution>, x: Execution)
    ensures Fold(initial, Transfers(xs + [x])) == Apply(Fold(initial, Transfers(xs)), x.transfer).balances
  {
    TransfersSnoc(xs, x);
    var ts := Transfers(xs) + [x.transfer];
    assert ts[..|ts| - 1] == Transfers(xs);
  }

  lemma ResultsSnoc(initial: Balances, xs: seq<Execution>, x: Execution)
    requires ResultsFolded(initial, xs)
    requires x.result == Apply(Fold(initial, Transfers(xs)), x.transfer).ok
    ensures ResultsFolded(initial, xs + [x])
  {
    var ys := xs + [x];
    forall i | 0 <= i < |ys|
      ensures ys[i].result == Apply(Fold(initial, Transfers(ys[..i])), ys[i].transfer).ok
    {
      if i < |xs| {
        assert ys[..i] == xs[..i];
      } else {
        assert ys[..i] == xs;
      }
    }
  }

  lemma UpToSnoc(xs: seq<Execution>, x: Execution, n: int)
    requires n < x.seqNum
    ensures UpTo(xs + [x], n) == UpTo(xs, n)
  {
    var ys := xs + [x];
    assert ys[..|ys| - 1] == xs;
  }

  /** Executing one slot without its checkpoint. */
  function Executed1(s: State, n: int): State
    requires n in s.slots
  {
    var e := s.slots[n];
    var applied := Apply(s.balances, e.m.data);
    NotifyClient(
      Put(s, n, e.(status := Executed, result := applied.ok)).(
        balances := applied.balances, lastExecuted := n,
        executed := s.executed + [Execution(n, e.m.data, applied.ok)]),
      e.m.sig.signer, e.m.data, applied.ok)
  }

  lemma ExecuteOneIs(s: State, n: int)
    requires n in s.slots
    ensures var t := Executed1(s, n);
            t.balances.Keys != {} &&
            ExecuteOne(s, n) == if s.cfg.step > 0 && n % s.cfg.step == s.cfg.step - 1 then Checkpoint(t) else t
  {
    hide Checkpoint;
    assert s.slots[n].m.data.sender in Apply(s.balances, s.slots[n].m.data).balances.Keys;
  }

  lemma Executed1Keeps(s: State, n: int)
    requires ExecInv(s) && n in s.slots && s.lastExecuted < n && 0 <= n
    ensures ExecInv(Executed1(s, n))
  {
    hide DigestAt, Fold, Apply, ResultsFolded;
    var t := Executed1(s, n);
    var x := Execution(n, s.slots[n].m.data, Apply(s.balances, s.slots[n].m.data).ok);
    FoldSnoc(s.cfg.initial, s.executed, x);
    ResultsSnoc(s.cfg.initial, s.executed, x);
    forall c | SendCheckpoint(c) in t.sent
      ensures c.data.seqNum <= t.lastExecuted
      ensures c.data.digest == DigestAt(t.cfg.initial, t.executed, c.data.seqNum)
    {
      assert SendCheckpoint(c) in s.sent;
      assert DigestAt(t.cfg.initial, t.executed, c.data.seqNum) == DigestAt(s.cfg.initial, s.executed, c.data.seqNum)
             by {
        DigestSnoc(s.cfg.initial, s.executed, x, c.data.seqNum);
      }
    }
  }

  lemma DigestSnoc(initial: Balances, xs: seq<Execution>, x: Execution, n: int)
    requires n < x.seqNum
    ensures DigestAt(initial, xs + [x], n) == DigestAt(initial, xs, n)
  {
    hide BalancesDigest;
    UpToSnoc(xs, x, n);
  }

  lemma CheckpointKeeps(s: State)
    requires ExecInv(s) && s.executed != [] && s.balances.Keys != {}
    ensures ExecInv(Checkpoint(s))
  {
    hide CheckpointText.Text, Fold, ResultsFolded;
    assert UpTo(s.executed, s.lastExecuted) == s.executed;
  }

  lemma ExecuteOneKeeps(s: State, n: int)
    requires ExecInv(s) && n in s.slots && s.lastExecuted < n && 0 <= n
    ensures ExecInv(ExecuteOne(s, n)) && |ExecuteOne(s, n).executed| == |s.executed| + 1
  {
    hide ExecInv, Checkpoint, ExecuteOne;
    Executed1Keeps(s, n);
    ExecuteOneIs(s, n);
    CheckpointKeeps(Executed1(s, n));
    CheckpointSame(Executed1(s, n));
  }

  lemma CheckpointSame(s: State)
    requires s.balances.Keys != {}
    ensures Checkpoint(s).executed == s.executed
  {
    hide CheckpointText.Text;
  }

  lemma {:induction false} ExecuteFromKeeps(s: State, n: int)
    requires ExecInv(s) && s.lastExecuted < n && 0 <= n
    ensures ExecInv(ExecuteFrom(s, n))
    decreases s.current - n
  {
    hide ExecInv, ExecuteOne;
    if n <= s.current {
      if n in s.slots && s.slots[n].status == Committed {
        ExecuteOneKeeps(s, n);
        ExecuteOneRan(s, n);
        ExecuteFromKeeps(ExecuteOne(s, n), n + 1);
      } else if n !in s.slots || s.slots[n].status == Executed {
        ExecuteFromKeeps(s, n + 1);
      }
    }
  }

  // ---- Every event, every run ----

  ghost predicate Unannounced(c: Change) {
    forall o | o in c.outs :: !o.SendCheckpoint?
  }

  lemma TransferUnannounced(s: State, m: Message)
    ensures Unannounced(TransferChange(s, m))
  {
    hide IsLeader, LeaderOf, Proposal, ProposedEntry, Reproposed;
  }

  lemma VoteUnannounced(s: State, p: PrePrepareRequest, proof: ProofRequest, n: int)
    ensures Unannounced(PrePrepareChange(s, p)) && Unannounced(PrepareChange(s, proof))
    ensures Unannounced(OptimisticTimerChange(s, n))
  {
    hide PrePrepareOffered, SlotTaken, Opened, Sign, WithPrepares, LeaderOf, PrepareProofOf, AllPrepared, WithOwnCommit;
  }

  lemma ViewUnannounced(s: State, vc: ViewChangeReq, nv: NewViewReq)
    ensures Unannounced(ViewChangeChange(s, vc)) && Unannounced(NewViewChange(s, nv))
  {
    hide VerifyViewChange, LeaderOf, Received, Started, Compose, BigO, SignedBySelection, Revotes, ValidViewChanges,
         AgreeUpTo, BySender, WithOwnViewChange;
  }

  lemma QuietUnannounced(s: State, e: Event)
    requires e.OnPrePrepareOk? || e.OnPrepareOk? || e.OnCommit? || e.OnDigestTimer? || e.OnSlotTimer? || e.OnViewTimer?
    ensures Unannounced(ChangeOf(s, e))
  {
    hide Compose, IsLeader, Settled, WithPrePrepareOk, WithPrepareOk, WithCommits, AckOffered, AckMatches;
  }

  /** The event's change announces no checkpoint; checkpoints are announced by execution only. */
  lemma NoCheckpointOut(s: State, e: Event)
    requires !e.OnCheckpoint?
    ensures Unannounced(ChangeOf(s, e))
  {
    hide TransferChange, PrePrepareChange, PrepareChange, ViewChangeChange, NewViewChange, OptimisticTimerChange,
         PrePrepareOkChange, PrepareOkChange, CommitChange, DigestTimerChange, SlotTimerChange, Unannounced;
    match e
    case OnTransfer(m) => TransferUnannounced(s, m);
    case OnPrePrepare(p) => VoteUnannounced(s, p, ProofRequest(NOP, []), 0);
    case OnPrepare(proof) => VoteUnannounced(s, NoPrePrepare(), proof, 0);
    case OnOptimisticTimer(n) => VoteUnannounced(s, NoPrePrepare(), ProofRequest(NOP, []), n);
    case OnViewChange(vc) => ViewUnannounced(s, vc, NewViewReq(0, [], [], Signature(0, false)));
    case OnNewView(nv) => ViewUnannounced(s, Compose(s, 0), nv);
    case _ => QuietUnannounced(s, e);
  }

  function NoPrePrepare(): PrePrepareRequest {
    PrePrepareRequest(Request(NOP, SignatureVec(0, {})), Message(Transfer("", "", 0, 0), Signature(0, false)))
  }

  lemma MadeKeepsExec(s: State, c: Change, mid: State)
    requires ExecInv(s) && Made(s, c, mid)
    requires Unannounced(c)
    ensures ExecInv(mid)
  {
    hide DigestAt, Fold, ResultsFolded;
  }

  lemma FinishedKeepsExec(s: State, e: Event, mid: State, t: State)
    requires ExecInv(mid) && Finished(s, e, mid, t) && -1 <= mid.lastExecuted
    ensures ExecInv(t)
  {
    hide ExecInv, ExecuteFrom, Commits;
    ExecuteFromKeeps(mid, mid.lastExecuted + 1);
    if Commits(s, e) && e.OnPrepareOk? {
      var proof :| t == Emit(ExecutePending(mid), SendCommit(proof));
      EmitKeepsExec(ExecutePending(mid), SendCommit(proof));
    }
  }

  lemma EmitKeepsExec(s: State, o: Output)
    requires ExecInv(s) && !o.SendCheckpoint?
    ensures ExecInv(Emit(s, o))
  {
    hide DigestAt, Fold, ResultsFolded;
  }

  lemma CheckpointMessageKeepsExec(s: State, c: CheckpointReq)
    requires ExecInv(s)
    ensures ExecInv(ProcessCheckpoint(s, c))
  {
    hide ExecInv, ProcessCheckpoint;
    CheckpointFields(s, c);
    SameExec(s, ProcessCheckpoint(s, c));
  }

  lemma SameExec(s: State, t: State)
    requires ExecInv(s) && t.cfg == s.cfg && t.executed == s.executed && t.lastExecuted == s.lastExecuted
    requires t.balances == s.balances && t.sent == s.sent
    ensures ExecInv(t)
  {
    hide DigestAt, Fold, ResultsFolded, Ordered;
  }

  lemma NextKeepsExec(s: State, e: Event)
    requires WindowInv(s) && ExecInv(s) && Enabled(s, e)
    ensures ExecInv(Next(s, e))
  {
    hide ExecInv, WindowInv, ChangeOf, Made, Finished, ProcessTransfer, ProcessPrePrepare,
         ProcessPrePrepareOk, ProcessPrepare, ProcessPrepareOk, ProcessCommit, ProcessViewChange, ProcessNewView,
         ProcessCheckpoint, OptimisticTimer, DigestTimer, SlotTimer, ViewTimer, Unannounced;
    if e.OnCheckpoint? {
      CheckpointMessageKeepsExec(s, e.c);
    } else {
      var mid := NextMade(s, e);
      NoCheckpointOut(s, e);
      MadeKeepsExec(s, ChangeOf(s, e), mid);
      assert -1 <= s.lastExecuted && mid.lastExecuted == s.lastExecuted by { MidLast(s, ChangeOf(s, e), mid); }
      FinishedKeepsExec(s, e, mid, Next(s, e));
    }
  }

  lemma MidLast(s: State, c: Change, mid: State)
    requires WindowInv(s) && Made(s, c, mid)
    ensures -1 <= s.lastExecuted && mid.lastExecuted == s.lastExecuted
  {
  }

  /** Over every run, across views: executed sequence numbers strictly increase, so no slot is executed
      twice however often it is reset and committed again; the balances are the fold of the transfer rule
      over the executed transfers, every recorded result is the fold's, and every announced checkpoint
      digest is the digest of the balances after the executions up to its sequence number. */
  lemma {:induction false} ExecutionRefinesFold(cfg: Config, es: seq<Event>)
    requires cfg.k >= 1 && Run(Init(cfg), es).Some?
    ensures ExecInv(Run(Init(cfg), es).value)
  {
    if es != [] {
      hide Next, Enabled, ExecInv;
      ExecutionRefinesFold(cfg, es[..|es| - 1]);
      WindowAlways(cfg, es[..|es| - 1]);
      NextKeepsExec(Run(Init(cfg), es[..|es| - 1]).value, es[|es| - 1]);
    }
  }

  /** Over every run the total of all balances is the initial total; and when no executed amount is
      negative every balance stays between 0 and that total. */
  lemma MoneyConserved(cfg: Config, s: State)
    requires cfg.k >= 1 && Reached(cfg, s)
    ensures Total(s.balances) == Total(cfg.initial)
    ensures NonNegative(cfg.initial) && (forall x | x in s.executed :: 0 <= x.transfer.amount) ==>
              forall a | a in s.balances :: 0 <= s.balances[a] <= Total(cfg.initial)
  {
    hide Fold, Apply, Run, Init;
    var es :| Run(Init(cfg), es) == Some(s);
    ExecutionRefinesFold(cfg, es);
    assert s.cfg == cfg by { RunKeepsConfig(cfg, es); }
    FoldConserves(cfg.initial, Transfers(s.executed));
    if NonNegative(cfg.initial) && forall x | x in s.executed :: 0 <= x.transfer.amount {
      FoldBounded(cfg.initial, Transfers(s.executed));
    }
  }

  /** With the source's ten accounts of 10 and no negative amount, every balance of every run is at most 100,
      so the source's 32-bit sums never overflow. */
  lemma SourceBalances(id: int, byzantine: bool, s: State)
    requires Reached(SourceConfig(id, byzantine), s)
    ensures Total(s.balances) == 100
    ensures (forall x | x in s.executed :: 0 <= x.transfer.amount) ==>
            forall a | a in s.balances :: 0 <= s.balances[a] <= 100
  {
    hide Reached;
    var initial := SourceConfig(id, byzantine).initial;
    MoneyConserved(SourceConfig(id, byzantine), s);
    assert initial.Keys == CLIENTS;
    TenClients();
    TotalConstant(initial, 10);
  }

  lemma TenClients()
    ensures |CLIENTS| == 10
  {
    var names := ["A", "B", "C", "D", "E", "F", "G", "H", "I", "J"];
    assert forall i, j | 0 <= i < j < |names| :: names[i][0] != names[j][0];
    Distinct(names, 10);
    AllListed(names);
  }

  lemma AllListed(names: seq<string>)
    requires names == ["A", "B", "C", "D", "E", "F", "G", "H", "I", "J"]
    ensures CLIENTS == set i | 0 <= i < 10 :: names[i]
  {
    var listed := set i | 0 <= i < 10 :: names[i];
    assert names[0] in listed && names[1] in listed && names[2] in listed && names[3] in listed && names[4] in listed;
    assert names[5] in listed && names[6] in listed && names[7] in listed && names[8] in listed && names[9] in listed;
  }

  lemma {:induction false} Distinct(names: seq<string>, n: nat)
    requires n <= |names| && forall i, j | 0 <= i < j < |names| :: names[i] != names[j]
    ensures |set i | 0 <= i < n :: names[i]| == n
  {
    if n > 0 {
      Distinct(names, n - 1);
      assert (set i | 0 <= i < n :: names[i]) == (set i | 0 <= i < n - 1 :: names[i]) + {names[n - 1]};
    }
  }

  const LEFT := [Transfer("K", "A", 1, 0), Transfer("A", "L", 5, 1)]
  const RIGHT := [Transfer("A", CheckpointText.Joined("K", 0, "L"), 5, 0)]

  lemma ClientsBelow(b: Balances)
    requires b.Keys == CLIENTS
    ensures forall n | n in b :: CheckpointText.Below(n, "K") && n != "K"
    ensures CheckpointText.Below("K", "L")
  {
    forall n | n in CLIENTS
      ensures CheckpointText.Below(n, "K") && n != "K"
    {
      assert |n| == 1 && n[0] < 'K' && "K"[0] == 'K';
    }
  }

  /** The fold of two lists of transfers from the source's ten accounts: one leaves accounts K and L behind, the other
      an account whose name joins them. */
  lemma TwoFolds(id: int, byzantine: bool)
    ensures var b := SourceConfig(id, byzantine).initial;
            b.Keys == CLIENTS && b["A" := 5].Keys == CLIENTS &&
            Fold(b, LEFT) == b["A" := 5]["K" := 0]["L" := 5] &&
            Fold(b, RIGHT) == b["A" := 5][CheckpointText.Joined("K", 0, "L") := 5]
  {
    var b := SourceConfig(id, byzantine).initial;
    var t, u := LEFT[0], LEFT[1];
    assert b.Keys == CLIENTS && b["A" := 5].Keys == CLIENTS && b["A"] == 10;
    assert "K" !in b && "L" !in b;
    assert LEFT[..1] == [t] && [t][..0] == [] && RIGHT[..0] == [];
    assert Fold(b, [t]) == Apply(b, t).balances == b["K" := 0];
    assert Fold(b, LEFT) == Apply(b["K" := 0], u).balances;
    assert Apply(b["K" := 0], u).balances == b["A" := 5]["K" := 0]["L" := 5];
    assert |CheckpointText.Joined("K", 0, "L")| > 1;
    assert CheckpointText.Joined("K", 0, "L") !in b;
    assert Apply(b, RIGHT[0]).balances == b["A" := 5][CheckpointText.Joined("K", 0, "L") := 5];
  }

  /** Checkpoints of different states can carry one digest: from the source's own accounts two short lists of transfers
      lead to different balances that print alike. */
  lemma SourceCollides(id: int, byzantine: bool)
    ensures var a, c := Fold(SourceConfig(id, byzantine).initial, LEFT),
            Fold(SourceConfig(id, byzantine).initial, RIGHT);
            "K" in a.Keys && CheckpointText.Joined("K", 0, "L") in c.Keys && a != c &&
            CheckpointText.Text(a) == CheckpointText.Text(c)
  {
    hide Fold, CheckpointText.Text, CheckpointText.Joined, CheckpointText.Below;
    TwoFolds(id, byzantine);
    var b := SourceConfig(id, byzantine).initial["A" := 5];
    ClientsBelow(b);
    CheckpointText.AddedCollide(b, "K", 0, "L", 5);
  }

  lemma {:induction false} RunKeepsConfig(cfg: Config, es: seq<Event>)
    requires cfg.k >= 1 && Run(Init(cfg), es).Some?
    ensures Run(Init(cfg), es).value.cfg == cfg
  {
    if es != [] {
      hide Next, Enabled;
      RunKeepsConfig(cfg, es[..|es| - 1]);
      WindowAlways(cfg, es[..|es| - 1]);
      NextKeepsWindow(Run(Init(cfg), es[..|es| - 1]).value, es[|es| - 1]);
    }
  }

  // ---- Gaps ----

  /** Sequence numbers that execution has passed without executing them. */
  function Skipped(s: State): int {
    s.lastExecuted + 1 - |s.executed|
  }

  lemma {:induction false} OrderedCount(xs: seq<Execution>)
    requires Ordered(xs) && xs != []
    ensures |xs| <= xs[|xs| - 1].seqNum + 1
    ensures |xs| == xs[|xs| - 1].seqNum + 1 <==> forall i | 0 <= i < |xs| :: xs[i].seqNum == i
  {
    if |xs| > 1 {
      var front := xs[..|xs| - 1];
      OrderedCount(front);
      assert front[|front| - 1].seqNum < xs[|xs| - 1].seqNum;
      if forall i | 0 <= i < |front| :: front[i].seqNum == i {
        assert forall i | 0 <= i < |front| :: xs[i].seqNum == i by {
          forall i | 0 <= i < |front| ensures xs[i].seqNum == i { assert front[i] == xs[i]; }
        }
      } else {
        var i :| 0 <= i < |front| && front[i].seqNum != i;
        assert xs[i].seqNum != i;
      }
    }
  }

  /** Nothing is skipped exactly when the executed list is 0, 1, 2, ... without a gap. */
  lemma SkippedIsGap(s: State)
    requires ExecInv(s)
    ensures 0 <= Skipped(s)
    ensures Skipped(s) == 0 <==> forall i | 0 <= i < |s.executed| :: s.executed[i].seqNum == i
  {
    hide DigestAt, Fold, ResultsFolded;
    if s.executed != [] {
      OrderedCount(s.executed);
    }
  }

  /** No committed slot above an empty one is in reach: some slot below it is present and not committed. */
  ghost predicate NoHole(s: State, from: int) {
    forall h, n | from <= h < n <= s.current && h !in s.slots && n in s.slots && s.slots[n].status == Committed ::
      exists j :: from <= j < n && Blocks(s, j)
  }

  predicate Blocks(s: State, j: int) {
    j in s.slots && s.slots[j].status != Committed
  }

  /** No slot above the last executed one is marked executed. */
  ghost predicate FreshAbove(s: State) {
    forall n | n in s.slots && s.lastExecuted < n :: s.slots[n].status != Executed
  }

  lemma {:induction false} PassAfterHole(s: State, h: int, n: int)
    requires FreshAbove(s) && s.lastExecuted < h < n && h !in s.slots
    requires forall j | h <= j < n :: j !in s.slots
    ensures var t := ExecuteFrom(s, n);
            (t == s <==> forall m | n <= m <= s.current && m in s.slots && s.slots[m].status == Committed ::
                           exists j :: n <= j < m && Blocks(s, j)) &&
            |t.executed| - |s.executed| <= t.lastExecuted - s.lastExecuted &&
            (t != s ==> |t.executed| - |s.executed| < t.lastExecuted - s.lastExecuted)
    decreases s.current - n
  {
    hide ExecuteOne;
    if n <= s.current {
      if n in s.slots && s.slots[n].status == Committed {
        ExecuteOneRan(s, n);
        ExecuteOneGrows(s, n);
        PassCounts(ExecuteOne(s, n), n + 1);
        assert !exists j :: n <= j < n && Blocks(s, j);
      } else if n in s.slots {
        assert Blocks(s, n);
      } else {
        PassAfterHole(s, h, n + 1);
        assert !Blocks(s, n);
      }
    }
  }

  lemma ExecuteOneGrows(s: State, n: int)
    requires n in s.slots
    ensures |ExecuteOne(s, n).executed| == |s.executed| + 1
    ensures ExecuteOne(s, n).lastExecuted == n && ExecuteOne(s, n).slots.Keys == s.slots.Keys
    ensures forall j | j in s.slots && j != n :: ExecuteOne(s, n).slots[j] == s.slots[j]
  {
    hide Checkpoint, ExecuteOne, Apply;
    ExecuteOneIs(s, n);
    CheckpointFrame(Executed1(s, n));
  }

  lemma CheckpointFrame(s: State)
    requires s.balances.Keys != {}
    ensures Checkpoint(s).executed == s.executed && Checkpoint(s).lastExecuted == s.lastExecuted
    ensures Checkpoint(s).slots == s.slots
  {
    hide CheckpointText.Text;
  }

  lemma {:induction false} PassCounts(s: State, n: int)
    requires s.lastExecuted < n
    ensures var t := ExecuteFrom(s, n);
            |t.executed| - |s.executed| <= t.lastExecuted - s.lastExecuted
    decreases s.current - n
  {
    hide ExecuteOne;
    if n <= s.current {
      if n in s.slots && s.slots[n].status == Committed {
        ExecuteOneRan(s, n);
        ExecuteOneGrows(s, n);
        PassCounts(ExecuteOne(s, n), n + 1);
      } else if n !in s.slots || s.slots[n].status == Executed {
        PassCounts(s, n + 1);
      }
    }
  }

  /** Exactly when a pass of execution skips a slot: it starts in order, and skips one if and only if
      some empty slot lies below a committed slot with no uncommitted slot in between to stop the pass. */
  lemma {:induction false} PassSkips(s: State)
    requires FreshAbove(s)
    ensures Skipped(s) <= Skipped(ExecutePending(s))
    ensures Skipped(ExecutePending(s)) == Skipped(s) <==> NoHole(s, s.lastExecuted + 1)
    decreases s.current - s.lastExecuted
  {
    hide ExecuteOne;
    var n := s.lastExecuted + 1;
    PassCounts(s, n);
    if n <= s.current {
      if n in s.slots && s.slots[n].status == Committed {
        ExecuteOneRan(s, n);
        ExecuteOneGrows(s, n);
        var t := ExecuteOne(s, n);
        PassSkips(t);
        NoHoleStep(s, t, n);
      } else if n in s.slots {
        assert Blocks(s, n);
      } else {
        HoleFirst(s, n);
        if n + 1 <= s.current {
          PassFromHole(s, n);
        }
      }
    }
  }

  lemma NoHoleStep(s: State, t: State, n: int)
    requires n in s.slots && s.slots[n].status == Committed && t.current == s.current && t.slots.Keys == s.slots.Keys
    requires forall j | j in s.slots && j != n :: t.slots[j] == s.slots[j]
    ensures NoHole(s, n) <==> NoHole(t, n + 1)
  {
    if NoHole(s, n) {
      forall h, m | n + 1 <= h < m <= t.current && h !in t.slots && m in t.slots && t.slots[m].status == Committed
        ensures exists j :: n + 1 <= j < m && Blocks(t, j)
      {
        var j :| n <= j < m && Blocks(s, j);
        assert Blocks(t, j);
      }
    }
    if NoHole(t, n + 1) {
      forall h, m | n <= h < m <= s.current && h !in s.slots && m in s.slots && s.slots[m].status == Committed
        ensures exists j :: n <= j < m && Blocks(s, j)
      {
        var j :| n + 1 <= j < m && Blocks(t, j);
        assert Blocks(s, j);
      }
    }
  }

  lemma HoleFirst(s: State, n: int)
    requires n !in s.slots
    ensures NoHole(s, n) <==>
            forall m | n + 1 <= m <= s.current && m in s.slots && s.slots[m].status == Committed ::
              exists j :: n + 1 <= j < m && Blocks(s, j)
  {
    if NoHole(s, n) {
      forall m | n + 1 <= m <= s.current && m in s.slots && s.slots[m].status == Committed
        ensures exists j :: n + 1 <= j < m && Blocks(s, j)
      {
        var j :| n <= j < m && Blocks(s, j);
      }
    } else {
      var h, m :| n <= h < m <= s.current && h !in s.slots && m in s.slots && s.slots[m].status == Committed &&
                  !exists j :: n <= j < m && Blocks(s, j);
      assert !exists j :: n + 1 <= j < m && Blocks(s, j);
    }
  }

  lemma PassFromHole(s: State, n: int)
    requires FreshAbove(s) && n == s.lastExecuted + 1 <= s.current && n !in s.slots
    ensures Skipped(ExecutePending(s)) == Skipped(s) <==>
            forall m | n + 1 <= m <= s.current && m in s.slots && s.slots[m].status == Committed ::
              exists j :: n + 1 <= j < m && Blocks(s, j)
  {
    PassAfterHole(s, n, n + 1);
  }
}
