/** What is true of every log entry over every run, whatever views are entered: it holds the digest of its transfer,
    its stored prepares carry that digest, and what is marked executed was executed with the recorded result. */
module Entries {
  import opened Messages
  import opened ReplicaState
  import opened Change
  import opened Window
  import opened ExecutionFold
  import opened OneView

  ghost predicate PreparesMatch(e: Entry) {
    forall p | p in e.prepares :: e.prepares[p].data.digest == e.prePrepare.data.digest
  }

  /** The entry of slot n, where xs has been executed and `ok` says which client messages are genuine. */
  ghost predicate EntryTrue(xs: seq<Execution>, ok: Message -> bool, n: int, e: Entry) {
    e.prePrepare.data.digest == TransferDigest(e.m.data) && e.m.sig.valid && ok(e.m) && PreparesMatch(e) &&
    (e.status == Executed ==> Execution(n, e.m.data, e.result) in xs)
  }

  ghost predicate EntriesInv(s: State, ok: Message -> bool) {
    forall n | n in s.slots :: EntryTrue(s.executed, ok, n, s.slots[n])
  }

  /** A valid client signature on what arrives is genuine. */
  ghost predicate FromClients(ok: Message -> bool, e: Event) {
    match e
    case OnTransfer(m) => m.sig.valid ==> ok(m)
    case OnPrePrepare(p) => p.m.sig.valid ==> ok(p.m)
    case _ => true
  }

  // ---- Changes ----

  ghost predicate WriteTrue(s: State, ok: Message -> bool, c: Change) {
    c.write.Some? ==> EntryTrue(s.executed, ok, c.write.value.n, c.write.value.e)
  }

  lemma MadeKeepsEntries(s: State, ok: Message -> bool, c: Change, mid: State)
    requires EntriesInv(s, ok) && Made(s, c, mid) && WriteTrue(s, ok, c)
    ensures EntriesInv(mid, ok) && mid.executed == s.executed
  {
    hide EntryTrue;
  }

  /** An entry that keeps its request and its digest, gains matching prepares, and is executed only if it was. */
  lemma StaysTrue(xs: seq<Execution>, ok: Message -> bool, n: int, e: Entry, e': Entry)
    requires EntryTrue(xs, ok, n, e) && PreparesMatch(e') && e'.m == e.m && e'.result == e.result
    requires e'.prePrepare.data.digest == e.prePrepare.data.digest && (e'.status == Executed ==> e.status == Executed)
    ensures EntryTrue(xs, ok, n, e')
  {
    hide PreparesMatch;
  }

  lemma TransferTrue(s: State, ok: Message -> bool, m: Message)
    requires EntriesInv(s, ok) && (m.sig.valid ==> ok(m))
    ensures WriteTrue(s, ok, TransferChange(s, m))
  {
    hide IsLeader, LeaderOf, Everyone, Inherited;
  }

  lemma PrePrepareTrue(s: State, ok: Message -> bool, p: PrePrepareRequest)
    requires p.m.sig.valid ==> ok(p.m)
    ensures WriteTrue(s, ok, PrePrepareChange(s, p))
  {
    hide LeaderOf, SlotTaken, Everyone;
  }

  lemma AckTrue(s: State, ok: Message -> bool, r: Request)
    requires EntriesInv(s, ok)
    ensures WriteTrue(s, ok, PrePrepareOkChange(s, r)) && WriteTrue(s, ok, PrepareOkChange(s, r))
  {
    hide AckOffered;
  }

  lemma {:induction false} AddedMatch(me: int, e: Entry, data: Context, sigs: seq<SignatureVec>, proofs: map<int,
                                      Request>)
    requires data.digest == e.prePrepare.data.digest
    requires forall p | p in proofs :: proofs[p].data.digest == e.prePrepare.data.digest
    ensures forall p | p in AddProofs(me, data, sigs, proofs) ::
              AddProofs(me, data, sigs, proofs)[p].data.digest == e.prePrepare.data.digest
  {
    if sigs != [] {
      AddedMatch(me, e, data, sigs[..|sigs| - 1], proofs);
    }
  }

  lemma PrepareTrue(s: State, ok: Message -> bool, p: ProofRequest)
    requires EntriesInv(s, ok)
    ensures WriteTrue(s, ok, PrepareChange(s, p))
  {
    hide AddProofs, LeaderOf, Sign, EntryTrue;
    if ProofOffered(s, p, {PrePrepared}) {
      var n, e := p.data.seqNum, s.slots[p.data.seqNum];
      assert PreparesMatch(WithPrepares(s.cfg, e, p)) by { CountedMatch(s.cfg, s.executed, ok, n, e, p); }
      StaysTrue(s.executed, ok, n, e, WithPrepares(s.cfg, e, p));
    }
  }

  lemma CountedMatch(cfg: Config, xs: seq<Execution>, ok: Message -> bool, n: int, e: Entry, p: ProofRequest)
    requires EntryTrue(xs, ok, n, e)
    ensures PreparesMatch(WithPrepares(cfg, e, p))
  {
    hide AddProofs;
    if Matches(e, p.data) {
      AddedMatch(cfg.id, e, p.data, p.sigs, e.prepares);
    }
  }

  lemma CommitTrue(s: State, ok: Message -> bool, p: ProofRequest, n: int)
    requires EntriesInv(s, ok)
    ensures WriteTrue(s, ok, CommitChange(s, p)) && WriteTrue(s, ok, OptimisticTimerChange(s, n))
  {
    hide AddProofs, Sign, PrepareProofOf, AllPrepared;
  }

  lemma ViewTrue(s: State, ok: Message -> bool, e: Event)
    requires e.OnViewChange? || e.OnNewView? || e.OnDigestTimer? || e.OnSlotTimer? || e.OnViewTimer?
    ensures WriteTrue(s, ok, ChangeOf(s, e))
  {
    hide ChangeOf;
    ViewsQuiet(s, e);
  }

  lemma ChangeTrue(s: State, ok: Message -> bool, e: Event)
    requires EntriesInv(s, ok) && FromClients(ok, e) && !e.OnCheckpoint?
    ensures WriteTrue(s, ok, ChangeOf(s, e))
  {
    hide EntriesInv, WriteTrue, TransferChange, PrePrepareChange, PrePrepareOkChange, PrepareChange, PrepareOkChange,
         CommitChange, ViewChangeChange, NewViewChange, OptimisticTimerChange, DigestTimerChange, SlotTimerChange;
    match e
    case OnTransfer(m) => TransferTrue(s, ok, m);
    case OnPrePrepare(p) => PrePrepareTrue(s, ok, p);
    case OnPrePrepareOk(r) => AckTrue(s, ok, r);
    case OnPrepare(p) => PrepareTrue(s, ok, p);
    case OnPrepareOk(r) => AckTrue(s, ok, r);
    case OnCommit(p) => CommitTrue(s, ok, p, 0);
    case OnOptimisticTimer(n) => CommitTrue(s, ok, ProofRequest(NOP, []), n);
    case _ => ViewTrue(s, ok, e);
  }

  // ---- Execution and checkpoint messages ----

  lemma ExecutesKeepsEntries(s: State, ok: Message -> bool, t: State, n: int, x: Execution)
    requires EntriesInv(s, ok) && Executes(s, t, n, x)
    ensures EntriesInv(t, ok)
  {
    assert x in t.executed && forall y | y in s.executed :: y in t.executed;
  }

  lemma {:induction false} ExecuteFromEntries(s: State, ok: Message -> bool, n: int)
    requires EntriesInv(s, ok) && s.lastExecuted < n
    ensures EntriesInv(ExecuteFrom(s, n), ok)
    decreases s.current - n
  {
    hide ExecuteOne, EntriesInv, Executes;
    if n <= s.current {
      if n in s.slots && s.slots[n].status == Committed {
        ExecuteOneRan(s, n);
        var x := ExecuteOneExecutes(s, n);
        ExecutesKeepsEntries(s, ok, ExecuteOne(s, n), n, x);
        ExecuteFromEntries(ExecuteOne(s, n), ok, n + 1);
      } else if n !in s.slots || s.slots[n].status == Executed {
        ExecuteFromEntries(s, ok, n + 1);
      }
    }
  }

  lemma FinishedEntries(s: State, ok: Message -> bool, e: Event, mid: State, t: State)
    requires EntriesInv(mid, ok) && Finished(s, e, mid, t)
    ensures EntriesInv(t, ok)
  {
    hide ExecuteFrom, Commits, EntryTrue;
    ExecuteFromEntries(mid, ok, mid.lastExecuted + 1);
  }

  lemma CheckpointEntries(s: State, ok: Message -> bool, c: CheckpointReq)
    requires EntriesInv(s, ok)
    ensures EntriesInv(ProcessCheckpoint(s, c), ok)
  {
    hide ProcessCheckpoint, EntryTrue;
    CheckpointFields(s, c);
  }

  // ---- Every event, every run ----

  lemma NextKeepsEntries(s: State, ok: Message -> bool, e: Event)
    requires EntriesInv(s, ok) && Enabled(s, e) && FromClients(ok, e)
    ensures EntriesInv(Next(s, e), ok)
  {
    hide EntriesInv, FromClients, ChangeOf, Made, Finished, WriteTrue, ProcessTransfer, ProcessPrePrepare,
         ProcessPrePrepareOk, ProcessPrepare, ProcessPrepareOk, ProcessCommit, ProcessViewChange, ProcessNewView,
         ProcessCheckpoint, OptimisticTimer, DigestTimer, SlotTimer, ViewTimer;
    if e.OnCheckpoint? {
      CheckpointEntries(s, ok, e.c);
    } else {
      var mid := NextMade(s, e);
      ChangeTrue(s, ok, e);
      MadeKeepsEntries(s, ok, ChangeOf(s, e), mid);
      FinishedEntries(s, ok, e, mid, Next(s, e));
    }
  }

  /** Every client message of the run is genuine. */
  ghost predicate AllFromClients(ok: Message -> bool, es: seq<Event>) {
    forall i | 0 <= i < |es| :: FromClients(ok, es[i])
  }

  /** The facts about entries hold over every run, whatever messages arrive and whatever views are entered. */
  lemma {:induction false} EntriesAlways(cfg: Config, ok: Message -> bool, es: seq<Event>)
    requires Run(Init(cfg), es).Some? && AllFromClients(ok, es)
    ensures EntriesInv(Run(Init(cfg), es).value, ok)
  {
    if es == [] {
      assert EntriesInv(Init(cfg), ok) by { InitEntries(cfg, ok); }
    } else {
      hide Next, Enabled, EntriesInv, FromClients;
      var front := es[..|es| - 1];
      assert forall i | 0 <= i < |front| :: front[i] == es[i];
      EntriesAlways(cfg, ok, front);
      NextKeepsEntries(Run(Init(cfg), front).value, ok, es[|es| - 1]);
    }
  }

  lemma InitEntries(cfg: Config, ok: Message -> bool)
    ensures EntriesInv(Init(cfg), ok)
  {
  }

  const ANY := (m: Message) => true

  lemma ReachedEntries(cfg: Config, s: State)
    requires Reached(cfg, s)
    ensures EntriesInv(s, ANY)
  {
    hide Run, Init, EntriesInv;
    var es :| Run(Init(cfg), es) == Some(s);
    assert AllFromClients(ANY, es) by { AnyFromClients(es); }
    EntriesAlways(cfg, ANY, es);
  }

  lemma AnyFromClients(es: seq<Event>)
    ensures AllFromClients(ANY, es)
  {
  }
}
