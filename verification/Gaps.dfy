/** Gaps in what a replica executes, over whole runs: exactly which events make them. */
module Gaps {
  import opened Messages
  import opened ReplicaState
  import opened Change
  import opened Window
  import opened ExecutionFold
  import opened Voting
  import opened OneView
  import opened Agreement

  /** The log as the event leaves it before any pass of execution. */
  function WithWritten(s: State, e: Event): State
    requires !e.OnCheckpoint?
  {
    s.(slots := SlotsAfter(s, ChangeOf(s, e)))
  }

  /** The event commits a slot while the next pass would step over an empty one. */
  ghost predicate CommitsOverHole(s: State, e: Event) {
    Commits(s, e) && !NoHole(WithWritten(s, e), s.lastExecuted + 1)
  }

  lemma SameHoles(s: State, t: State, from: int)
    requires t.slots == s.slots && t.current == s.current
    ensures NoHole(t, from) <==> NoHole(s, from)
  {
    hide Blocks;
    assert forall j :: Blocks(t, j) <==> Blocks(s, j) by {
      forall j
        ensures Blocks(t, j) <==> Blocks(s, j)
      {
        SameBlocks(s, t, j);
      }
    }
  }

  lemma SameBlocks(s: State, t: State, j: int)
    requires t.slots == s.slots
    ensures Blocks(t, j) <==> Blocks(s, j)
  {
  }

  lemma CommitsInPlace(s: State, e: Event)
    requires Commits(s, e)
    ensures !e.OnCheckpoint? && ChangeOf(s, e).current == s.current
  {
    hide WithPrepareOk, WithCommits, WithOwnCommit, PrepareProofOf, AllPrepared, AckOffered, AckMatches;
  }

  lemma MadeParts(s: State, c: Change, mid: State)
    requires Made(s, c, mid)
    ensures mid.slots == SlotsAfter(s, c) && mid.current == c.current
    ensures mid.executed == s.executed && mid.lastExecuted == s.lastExecuted
  {
  }

  lemma SlotsFresh(s: State)
    requires SlotsVoted(s)
    ensures FreshAbove(s)
  {
    forall n | n in s.slots && s.lastExecuted < n
      ensures s.slots[n].status != Executed
    {
      assert EntryVoted(s, n, s.slots[n]);
    }
  }

  lemma FinishedSkips(s: State, e: Event, mid: State, t: State)
    requires Finished(s, e, mid, t) && SlotsVoted(mid)
    ensures Skipped(mid) <= Skipped(t)
    ensures Skipped(t) == Skipped(mid) <==> (Commits(s, e) ==> NoHole(mid, mid.lastExecuted + 1))
  {
    hide Commits, ExecutePending, NoHole, SlotsVoted, FreshAbove;
    SlotsFresh(mid);
    PassSkips(mid);
  }

  /** An event adds a gap exactly when it commits over a hole. */
  lemma NextSkips(s: State, e: Event)
    requires Correct(s.cfg) && WindowInv(s) && SlotsVoted(s) && Enabled(s, e)
    ensures Skipped(s) <= Skipped(Next(s, e))
    ensures Skipped(Next(s, e)) == Skipped(s) <==> !CommitsOverHole(s, e)
  {
    hide WindowInv, SlotsVoted, ChangeOf, Made, Finished, Commits, NoHole, SlotGood, ProcessTransfer, ProcessPrePrepare,
         ProcessPrePrepareOk, ProcessPrepare, ProcessPrepareOk, ProcessCommit, ProcessViewChange, ProcessNewView,
         ProcessCheckpoint, OptimisticTimer, DigestTimer, SlotTimer, ViewTimer;
    if e.OnCheckpoint? {
      CheckpointSkips(s, e.c);
    } else {
      var mid := NextMade(s, e);
      ChangeSlots(s, e);
      MadeKeepsSlots(s, ChangeOf(s, e), mid);
      MadeParts(s, ChangeOf(s, e), mid);
      FinishedSkips(s, e, mid, Next(s, e));
      if Commits(s, e) {
        CommitsInPlace(s, e);
        SameHoles(WithWritten(s, e), mid, s.lastExecuted + 1);
      }
    }
  }

  lemma CheckpointSkips(s: State, c: CheckpointReq)
    ensures Skipped(ProcessCheckpoint(s, c)) == Skipped(s) && !Commits(s, OnCheckpoint(c))
  {
    hide ProcessCheckpoint;
    CheckpointFields(s, c);
  }

  /** No event of the run committed a slot over a hole. */
  ghost predicate NeverOverHole(s: State, es: seq<Event>)
    requires Run(s, es).Some?
  {
    es == [] || (NeverOverHole(s, es[..|es| - 1]) && !CommitsOverHole(Run(s, es[..|es| - 1]).value, es[|es| - 1]))
  }

  lemma {:induction false} SkippedAlways(cfg: Config, es: seq<Event>)
    requires Correct(cfg) && Run(Init(cfg), es).Some?
    ensures 0 <= Skipped(Run(Init(cfg), es).value)
    ensures Skipped(Run(Init(cfg), es).value) == 0 <==> NeverOverHole(Init(cfg), es)
  {
    if es != [] {
      hide Next, Enabled, CommitsOverHole, SlotsVoted, WindowInv, Skipped;
      var front := es[..|es| - 1];
      SkippedAlways(cfg, front);
      SlotsAlways(cfg, front);
      NextSkips(Run(Init(cfg), front).value, es[|es| - 1]);
    }
  }

  /** Contiguous execution, exactly. Over every run, across views, the executed list is 0, 1, 2, ... without a gap
      if and only if no event committed a slot while an empty slot lay below a committed one with no uncommitted
      slot in between. */
  lemma ContiguousExactly(cfg: Config, es: seq<Event>)
    requires Correct(cfg) && Run(Init(cfg), es).Some?
    ensures var s := Run(Init(cfg), es).value;
            (forall i | 0 <= i < |s.executed| :: s.executed[i].seqNum == i) <==> NeverOverHole(Init(cfg), es)
  {
    hide Run, NeverOverHole, ExecInv, Skipped;
    SkippedAlways(cfg, es);
    ExecutionRefinesFold(cfg, es);
    SkippedIsGap(Run(Init(cfg), es).value);
  }

  // ---- In the system ----

  /** No move of replica r committed a slot over a hole. */
  ghost predicate CleanAt(sys: Sys, ok: Message -> bool, mvs: seq<Move>, r: int)
    requires After(sys, ok, mvs).Some?
  {
    mvs == [] ||
    var front, mv := mvs[..|mvs| - 1], mvs[|mvs| - 1];
    CleanAt(sys, ok, front, r) &&
    (mv.replica == r ==> !CommitsOverHole(After(sys, ok, front).value.replicas[r], mv.event))
  }

  lemma {:induction false} LocalClean(cfg: Config, correct: set<int>, ok: Message -> bool, mvs: seq<Move>, r: int)
    returns (es: seq<Event>)
    requires r in correct && After(Start(cfg, correct), ok, mvs).Some?
    ensures r in After(Start(cfg, correct), ok, mvs).value.replicas
    ensures Run(Init(cfg.(id := r)), es) == Some(After(Start(cfg, correct), ok, mvs).value.replicas[r])
    ensures NeverOverHole(Init(cfg.(id := r)), es) <==> CleanAt(Start(cfg, correct), ok, mvs, r)
  {
    hide Next, Enabled, Authentic, VotesOf, Init, CommitsOverHole;
    if mvs == [] {
      es := [];
    } else {
      var front, mv := mvs[..|mvs| - 1], mvs[|mvs| - 1];
      es := LocalClean(cfg, correct, ok, front, r);
      if mv.replica == r {
        assert (es + [mv.event])[..|es|] == es;
        es := es + [mv.event];
      }
    }
  }

  /** The hypothesis of state agreement, exactly: at the end of a system run a correct replica is without gaps if and
      only if none of its moves committed a slot over a hole. */
  lemma GapFreeExactly(cfg: Config, correct: set<int>, ok: Message -> bool, mvs: seq<Move>, r: int)
    requires Cluster(cfg, correct) && r in correct && After(Start(cfg, correct), ok, mvs).Some?
    ensures r in After(Start(cfg, correct), ok, mvs).value.replicas
    ensures GapFree(After(Start(cfg, correct), ok, mvs).value.replicas[r]) <==>
            CleanAt(Start(cfg, correct), ok, mvs, r)
  {
    hide After, Run, NeverOverHole, CleanAt, Skipped;
    var es := LocalClean(cfg, correct, ok, mvs, r);
    SkippedAlways(cfg.(id := r), es);
  }
}
