/** Proposals, over every run: which request a leader proposes and where, and what its pre-prepare does to a backup and
    the backup's vote to the leader. */
module Proposals {
  import opened Messages
  import opened Quorum
  import opened ReplicaState
  import opened Change
  import opened Window
  import opened Entries
  import opened Retries
  import opened Certificates
  import opened Timeouts

  /** A correct leader in normal mode gets a request it has to propose: one that is not listed and fits its window, or
      one listed in a slot that another leader opened and that is not executed. */
  predicate HasToPropose(s: State, m: Message) {
    s.mode == Normal && !s.cfg.byzantine && m.sig.valid && s.cfg.id == s.view % (3 * s.cfg.f + 1) &&
    if Known(s, m.data) then
      s.slots[s.index[TransferDigest(m.data)]].status != Executed &&
      s.slots[s.index[TransferDigest(m.data)]].prePrepare.sig.signer != s.cfg.id
    else s.current < s.high
  }

  /** The slot for the request: its own if it is listed, and otherwise the next one. */
  function SlotFor(s: State, m: Message): int {
    if Known(s, m.data) then s.index[TransferDigest(m.data)] else s.current + 1
  }

  /** The digest proposed: the request's, or, if it is listed, what the listed slot holds. */
  function DigestFor(s: State, m: Message): Digest {
    if Known(s, m.data) then s.slots[s.index[TransferDigest(m.data)]].prePrepare.data.digest
    else TransferDigest(m.data)
  }

  /** The leader's pre-prepare, with a MAC for everyone. */
  function ProposalFor(s: State, m: Message): PrePrepareRequest {
    PrePrepareRequest(
      Request(Context(s.view, SlotFor(s, m), DigestFor(s, m)), SignatureVec(s.cfg.id, Ids(3 * s.cfg.f + 1))), m)
  }

  /** A replica in the leader's view whose window has the slot, and which does not hold another request there of the
      same view or a later one. */
  predicate OpenTo(b: State, data: Context) {
    b.mode == Normal && !b.cfg.byzantine && b.view == data.view && b.low <= data.seqNum <= b.high &&
    (data.seqNum in b.slots ==>
       b.slots[data.seqNum].prePrepare.data.view < data.view ||
       b.slots[data.seqNum].prePrepare.data.digest == data.digest)
  }

  /** A backup's vote, with a MAC for everyone. */
  function AckOf(b: State, data: Context): Request {
    Request(data, SignatureVec(b.cfg.id, Ids(3 * b.cfg.f + 1)))
  }

  lemma Holding(s: State, m: Message)
    requires WindowInv(s) && Known(s, m.data)
    ensures SlotFor(s, m) in s.slots && s.slots[SlotFor(s, m)].prePrepare.data.seqNum == SlotFor(s, m)
  {
  }

  /** From s to t the leader sent its proposal and nothing else; the slot holds it and stores no votes; only a new
      request takes the next sequence number. */
  ghost predicate Proposed(s: State, t: State, m: Message) {
    var n, p := SlotFor(s, m), ProposalFor(s, m);
    t.sent == s.sent + [SendPrePrepare(p)] && n in t.slots && t.slots[n].prePrepare == p.r &&
    t.slots[n].prepares == map[] && t.slots[n].commits == map[] && t.view == s.view && t.mode == Normal &&
    t.cfg == s.cfg && t.low == s.low && t.high == s.high &&
    t.current == if Known(s, m.data) then s.current else n
  }

  /** What a leader does with a request it has to propose: it sends the pre-prepare for the request's slot, the next
      one for a new request, and drops whatever votes of an earlier view the slot stored. */
  lemma ProposesExactly(cfg: Config, s: State, m: Message)
    requires cfg.k >= 1 && Reached(cfg, s) && HasToPropose(s, m)
    ensures Enabled(s, OnTransfer(m)) && Proposed(s, Next(s, OnTransfer(m)), m)
  {
    hide Run, Init, Next, Enabled, WindowInv, ProposalFor, HasToPropose, Proposed;
    var es :| Run(Init(cfg), es) == Some(s);
    WindowAlways(cfg, es);
    if Known(s, m.data) {
      Holding(s, m);
      ReproposesIt(s, m);
    } else {
      ProposesIt(s, m);
    }
  }

  lemma ProposesIt(s: State, m: Message)
    requires HasToPropose(s, m) && !Known(s, m.data)
    ensures Enabled(s, OnTransfer(m)) && Proposed(s, Next(s, OnTransfer(m)), m)
  {
    hide Ids, Known;
    assert Proposal(s, m) == ProposalFor(s, m).r;
    assert Next(s, OnTransfer(m)) == Propose(s, m);
  }

  lemma ReproposesIt(s: State, m: Message)
    requires HasToPropose(s, m) && Known(s, m.data)
    requires s.slots[SlotFor(s, m)].prePrepare.data.seqNum == SlotFor(s, m)
    ensures Enabled(s, OnTransfer(m)) && Proposed(s, Next(s, OnTransfer(m)), m)
  {
    hide Ids;
    assert Reproposed(s, s.slots[SlotFor(s, m)]).prePrepare == ProposalFor(s, m).r;
    assert Next(s, OnTransfer(m)) == Repropose(s, m, SlotFor(s, m));
  }

  lemma SameTable(s: State, m: Message)
    requires !s.cfg.byzantine && !Answers(s, m) && !HasToPropose(s, m) && Enabled(s, OnTransfer(m))
    requires s.mode == ViewChange || !m.sig.valid || s.cfg.id == s.view % (3 * s.cfg.f + 1)
    ensures ProcessTransfer(s, m) == s
  {
  }

  /** A correct replica does one of three things with a request: it answers from its table, forwards it to the leader,
      or proposes it. If none is called for, as for a request it has proposed itself, nothing changes. */
  lemma OtherwiseIgnored(s: State, m: Message)
    requires !s.cfg.byzantine && Enabled(s, OnTransfer(m))
    requires !Answers(s, m) && !Forwards(s, OnTransfer(m)) && !HasToPropose(s, m)
    ensures Next(s, OnTransfer(m)) == s
  {
    hide ProcessTransfer, Answers, HasToPropose;
    SameTable(s, m);
  }

  /** A backup that is open to it, exactly: it accepts the proposal, and sends the leader its vote for exactly that
      context, if and only if what is proposed is the request's own digest, which for a listed request means that the
      listed slot still holds it. */
  lemma ProposalDelivered(cfg: Config, s: State, m: Message, b: State)
    requires cfg.k >= 1 && Reached(cfg, s) && HasToPropose(s, m) && OpenTo(b, ProposalFor(s, m).r.data)
    requires b.cfg.f == s.cfg.f
    ensures DigestFor(s, m) == TransferDigest(m.data) <==> (Known(s, m.data) ==> StillHolds(s, m.data))
    ensures var p, n, u := ProposalFor(s, m), SlotFor(s, m), Next(b, OnPrePrepare(ProposalFor(s, m)));
            if DigestFor(s, m) == TransferDigest(m.data)
            then u.sent == b.sent + [SendPrePrepareOk(s.cfg.id, AckOf(b, p.r.data))] && n in u.slots &&
                 u.slots[n].m == m && u.slots[n].prePrepare == p.r && u.slots[n].status == PrePrepared &&
                 p.r.data in u.signed
            else u == b
  {
    hide Reached, Ids, Known;
    AcceptsIt(b, ProposalFor(s, m), s.cfg.id);
  }

  lemma AcceptsIt(b: State, p: PrePrepareRequest, leader: int)
    requires OpenTo(b, p.r.data) && p.m.sig.valid && leader == p.r.sig.signer == b.view % (3 * b.cfg.f + 1)
    ensures var n, u := p.r.data.seqNum, Next(b, OnPrePrepare(p));
            if p.r.data.digest == TransferDigest(p.m.data)
            then u.sent == b.sent + [SendPrePrepareOk(leader, AckOf(b, p.r.data))] && n in u.slots &&
                 u.slots[n].m == p.m && u.slots[n].prePrepare == p.r && u.slots[n].status == PrePrepared &&
                 p.r.data in u.signed
            else u == b
  {
    hide PrePrepareOffered, SlotTaken, Sign, AckOf, Opened, OpenTo;
    Offering(b, p);
    OpenedIs(b, p);
    assert Next(b, OnPrePrepare(p)) == ProcessPrePrepare(b, p);
  }

  lemma OpenedIs(b: State, p: PrePrepareRequest)
    ensures Opened(b, p).m == p.m && Opened(b, p).prePrepare == p.r && Opened(b, p).status == PrePrepared
  {
  }

  lemma Offering(b: State, p: PrePrepareRequest)
    requires OpenTo(b, p.r.data) && p.m.sig.valid && p.r.sig.signer == b.view % (3 * b.cfg.f + 1)
    ensures PrePrepareOffered(b, p) <==> p.r.data.digest == TransferDigest(p.m.data)
    ensures !SlotTaken(b, p.r.data) && Sign(b.cfg, p.r.data) == AckOf(b, p.r.data) && !b.cfg.byzantine
  {
  }

  /** Proposal and vote, there and back: the vote of a backup that accepted, delivered to the leader, is the one vote
      that the slot then stores. */
  lemma VoteReturns(cfg: Config, s: State, m: Message, b: State)
    requires cfg.k >= 1 && Reached(cfg, s) && HasToPropose(s, m) && b.cfg.f == s.cfg.f
    requires DigestFor(s, m) == TransferDigest(m.data) && s.low <= SlotFor(s, m) <= s.high
    ensures var t, r, n := Next(s, OnTransfer(m)), AckOf(b, ProposalFor(s, m).r.data), SlotFor(s, m);
            Enabled(t, OnPrePrepareOk(r)) && n in Next(t, OnPrePrepareOk(r)).slots &&
            Next(t, OnPrePrepareOk(r)).slots[n].prepares == map[b.cfg.id := r]
  {
    hide Reached, Next, Enabled, HasToPropose;
    ProposesExactly(cfg, s, m);
    var t, r := Next(s, OnTransfer(m)), AckOf(b, ProposalFor(s, m).r.data);
    assert TakesVote(t, r) && !t.cfg.byzantine by { LeaderIn(s, m); }
    AckExactly(t, r);
  }

  lemma LeaderIn(s: State, m: Message)
    requires HasToPropose(s, m)
    ensures s.cfg.id == s.view % (3 * s.cfg.f + 1) && s.cfg.id in Ids(3 * s.cfg.f + 1) && !s.cfg.byzantine
  {
  }

  // ---- Sequence numbers ----

  lemma MadeCurrent(s: State, c: Change, mid: State)
    requires Made(s, c, mid)
    ensures mid.current == c.current
  {
  }

  lemma FinishedCurrent(s: State, e: Event, mid: State, t: State)
    requires Finished(s, e, mid, t)
    ensures t.current == mid.current
  {
    hide Commits, ExecutePending;
    ExecutePendingRan(mid);
  }

  lemma TransferCurrent(s: State, m: Message)
    requires !s.cfg.byzantine && Enabled(s, OnTransfer(m))
    ensures TransferChange(s, m).current ==
            if HasToPropose(s, m) && !Known(s, m.data) then s.current + 1 else s.current
  {
    hide Proposal, ProposedEntry, Reproposed, Inherited, Known;
  }

  lemma PrePrepareCurrent(s: State, p: PrePrepareRequest)
    ensures PrePrepareChange(s, p).current ==
            if Timeouts.Proposed(s, OnPrePrepare(p), p.r.data.digest) then Max(s.current,
                                                                               p.r.data.seqNum) else s.current
  {
    hide Opened, SlotTaken, Sign;
  }

  lemma OtherCurrent(s: State, e: Event)
    requires !e.OnTransfer? && !e.OnPrePrepare? && !e.OnCheckpoint?
    ensures ChangeOf(s, e).current == s.current
  {
    hide ViewChangeChange, NewViewChange, DigestTimerChange, SlotTimerChange, WithPrepares, WithCommits, WithPrepareOk,
         WithPrePrepareOk, WithOwnCommit, PrepareProofOf, AllPrepared, AckOffered, AckMatches, ProofOffered, Sign,
         LeaderOf;
    if AboutViews(e) {
      ViewsQuiet(s, e);
    }
  }

  /** The last sequence number a correct replica knows, exactly: a leader's own new proposal takes the next one, a
      proposal of the present leader raises it to the proposal's slot even when that slot is taken, and nothing else
      moves it. */
  lemma CurrentExactly(s: State, e: Event)
    requires !s.cfg.byzantine && Enabled(s, e)
    ensures Next(s, e).current ==
            match e
            case OnTransfer(m) => if HasToPropose(s, m) && !Known(s, m.data) then s.current + 1 else s.current
            case OnPrePrepare(p) =>
              if Timeouts.Proposed(s, e, p.r.data.digest) then Max(s.current, p.r.data.seqNum) else s.current
            case _ => s.current
  {
    hide Next, Enabled, ChangeOf, Made, Finished, TransferChange, PrePrepareChange, HasToPropose,
         Timeouts.Proposed;
    if e.OnCheckpoint? {
      CheckpointMessage(s, e);
    } else {
      var mid := NextMade(s, e);
      MadeCurrent(s, ChangeOf(s, e), mid);
      FinishedCurrent(s, e, mid, Next(s, e));
      match e
      case OnTransfer(m) => TransferCurrent(s, m); ChangeIs(s, e);
      case OnPrePrepare(p) => PrePrepareCurrent(s, p); ChangeIs(s, e);
      case _ => OtherCurrent(s, e);
    }
  }

  lemma ChangeIs(s: State, e: Event)
    requires e.OnTransfer? || e.OnPrePrepare?
    ensures ChangeOf(s, e) == if e.OnTransfer? then TransferChange(s, e.m) else PrePrepareChange(s, e.p)
  {
  }

  lemma CheckpointMessage(s: State, e: Event)
    requires e.OnCheckpoint? && Enabled(s, e)
    ensures Next(s, e).current == s.current
  {
    hide ProcessCheckpoint;
    CheckpointFields(s, e.c);
  }
}
