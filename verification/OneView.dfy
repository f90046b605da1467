/** Certificates, while a correct replica stays in one view.

    V gives, for every correct replica, the contexts it has signed; `ok` says which client messages are
    genuine. The invariant ties what the replica stores, executes and reports to them. */
module OneView {
  import opened Messages
  import opened Quorum
  import opened ReplicaState
  import opened Change
  import opened Window
  import opened ExecutionFold
  import opened Voting
  import opened Accounts
  import CheckpointText

  type Votes = map<int, set<Context>>

  /** p can stand for a vote on c: it is a replica, and if it is correct it signed c. */
  ghost predicate Genuine(cfg: Config, V: Votes, p: int, c: Context) {
    p in Everyone(cfg) && (p in V ==> c in V[p])
  }

  ghost function Supporters(cfg: Config, V: Votes, c: Context): set<int> {
    set p | p in Everyone(cfg) && Genuine(cfg, V, p, c)
  }

  ghost predicate HasQuorum(cfg: Config, V: Votes, c: Context) {
    |Supporters(cfg, V, c)| >= 2 * cfg.f + 1
  }

  /** Stored proofs sit under their signer's id, stand for votes on the entry's context, and name its slot
      and digest; a backup's name its view too. */
  ghost predicate ProofsOk(cfg: Config, V: Votes, e: Entry, proofs: map<int, Request>) {
    forall p | p in proofs ::
      proofs[p].sig.signer == p && Genuine(cfg, V, p, e.prePrepare.data) &&
      proofs[p].data.seqNum == e.prePrepare.data.seqNum && proofs[p].data.digest == e.prePrepare.data.digest &&
      (cfg.id != LeaderOf(cfg, e.prePrepare.data.view) ==> proofs[p].data == e.prePrepare.data)
  }

  ghost predicate EntryOk(cfg: Config, view: int, V: Votes, ok: Message -> bool, n: int, e: Entry) {
    e.prePrepare.data == Context(view, n, TransferDigest(e.m.data)) &&
    e.prePrepare.sig.signer == LeaderOf(cfg, view) && e.m.sig.valid && ok(e.m) &&
    ProofsOk(cfg, V, e, e.prepares) && ProofsOk(cfg, V, e, e.commits) &&
    e.status != NoStatus &&
    (e.status == Prepared ==> |e.prepares| >= 2 * cfg.f) &&
    (e.status == Committed || e.status == Executed ==> |e.commits| >= 2 * cfg.f + 1)
  }

  ghost predicate ExecutionOk(s: State, V: Votes, x: Execution) {
    x.seqNum in s.slots && s.slots[x.seqNum].m.data == x.transfer &&
    HasQuorum(s.cfg, V, Context(s.view, x.seqNum, TransferDigest(x.transfer)))
  }

  /** The reply reports the outcome of an execution of a genuine request. */
  ghost predicate ReportOk(xs: seq<Execution>, ok: Message -> bool, client: int, reply: Response) {
    ok(Message(reply.tdata, Signature(client, true))) &&
    exists n :: Execution(n, reply.tdata, reply.ack) in xs
  }

  /** Correct replicas have signed contexts of this view only. */
  ghost predicate AllOfView(V: Votes, view: int) {
    forall p | p in V :: forall c | c in V[p] :: c == NOP || c.view == view
  }

  ghost predicate OneViewInv(s: State, V: Votes, ok: Message -> bool) {
    s.cfg.id in V && s.cfg.id in Everyone(s.cfg) && s.signed <= V[s.cfg.id] && AllOfView(V, s.view) &&
    (forall n | n in s.slots :: EntryOk(s.cfg, s.view, V, ok, n, s.slots[n])) &&
    (forall d | d in s.index :: s.index[d] in s.slots && s.slots[s.index[d]].prePrepare.data.digest == d) &&
    (forall x | x in s.executed :: ExecutionOk(s, V, x)) &&
    (forall n | n in s.slots && s.slots[n].status == Executed ::
       Execution(n, s.slots[n].m.data, s.slots[n].result) in s.executed) &&
    (forall client, reply | Notify(client, reply) in s.sent :: ReportOk(s.executed, ok, client, reply))
  }

  // ---- More votes and more genuine messages keep the invariant ----

  ghost predicate Grows(V: Votes, W: Votes) {
    V.Keys == W.Keys && forall p | p in V :: V[p] <= W[p]
  }

  lemma QuorumGrows(cfg: Config, V: Votes, W: Votes, c: Context)
    requires Grows(V, W) && HasQuorum(cfg, V, c)
    ensures HasQuorum(cfg, W, c)
  {
    hide Everyone;
    SubsetSize(Supporters(cfg, V, c), Supporters(cfg, W, c));
  }

  lemma EntryGrows(cfg: Config, view: int, V: Votes, W: Votes, ok: Message -> bool, ok': Message -> bool, n: int,
                   e: Entry)
    requires Grows(V, W) && (forall m :: ok(m) ==> ok'(m)) && EntryOk(cfg, view, V, ok, n, e)
    ensures EntryOk(cfg, view, W, ok', n, e)
  {
    hide Everyone, LeaderOf;
  }

  lemma OneViewGrows(s: State, V: Votes, W: Votes, ok: Message -> bool, ok': Message -> bool)
    requires OneViewInv(s, V, ok) && Grows(V, W) && AllOfView(W, s.view) && forall m :: ok(m) ==> ok'(m)
    ensures OneViewInv(s, W, ok')
  {
    hide EntryOk, Everyone, HasQuorum;
    forall n | n in s.slots
      ensures EntryOk(s.cfg, s.view, W, ok', n, s.slots[n])
    {
      EntryGrows(s.cfg, s.view, V, W, ok, ok', n, s.slots[n]);
    }
    forall x | x in s.executed
      ensures ExecutionOk(s, W, x)
    {
      QuorumGrows(s.cfg, V, W, Context(s.view, x.seqNum, TransferDigest(x.transfer)));
    }
  }

  // ---- Changes ----

  /** What may be delivered: a good MAC or a good client signature means what it says. Only the receiver's
      own id in a certificate, and the sender of a pre-prepare, go unchecked. */
  ghost predicate SigOk(cfg: Config, V: Votes, sig: SignatureVec, c: Context) {
    cfg.id in sig.validFor ==> Genuine(cfg, V, sig.signer, c)
  }

  ghost predicate Authentic(cfg: Config, V: Votes, ok: Message -> bool, e: Event) {
    match e
    case OnTransfer(m) => m.sig.valid ==> ok(m)
    case OnPrePrepare(p) => p.m.sig.valid ==> ok(p.m)
    case OnPrePrepareOk(r) => SigOk(cfg, V, r.sig, r.data)
    case OnPrepareOk(r) => SigOk(cfg, V, r.sig, r.data)
    case OnPrepare(p) => forall sig | sig in p.sigs && sig.signer != cfg.id :: SigOk(cfg, V, sig, p.data)
    case OnCommit(p) => forall sig | sig in p.sigs && sig.signer != cfg.id :: SigOk(cfg, V, sig, p.data)
    case _ => true
  }

  ghost predicate OneViewGood(s: State, V: Votes, ok: Message -> bool, c: Change) {
    (c.write.Some? ==>
       var n, e := c.write.value.n, c.write.value.e;
       EntryOk(s.cfg, s.view, V, ok, n, e) &&
       (n in s.slots ==> e.prePrepare.data == s.slots[n].prePrepare.data && e.m.data == s.slots[n].m.data &&
                         e.result == s.slots[n].result) &&
       (e.status == Executed ==> n in s.slots && s.slots[n].status == Executed)) &&
    (forall d | d in c.index ::
       c.index[d] in SlotsAfter(s, c) && SlotsAfter(s, c)[c.index[d]].prePrepare.data.digest == d) &&
    (forall client, reply | Notify(client, reply) in c.outs :: ReportOk(s.executed, ok, client, reply))
  }

  lemma MadeKeepsOneView(s: State, V: Votes, ok: Message -> bool, c: Change, mid: State)
    requires OneViewInv(s, V, ok) && Made(s, c, mid) && OneViewGood(s, V, ok, c)
    requires c.view == s.view && mid.signed <= V[s.cfg.id]
    ensures OneViewInv(mid, V, ok)
  {
    hide EntryOk, Everyone, HasQuorum, ReportOk, AllOfView;
    forall x | x in mid.executed
      ensures ExecutionOk(mid, V, x)
    {
      assert ExecutionOk(s, V, x);
    }
    forall client, reply | Notify(client, reply) in mid.sent
      ensures ReportOk(mid.executed, ok, client, reply)
    {
      assert Notify(client, reply) in s.sent || Notify(client, reply) in c.outs;
    }
  }

  ghost predicate Ready(s: State, V: Votes, ok: Message -> bool) {
    Correct(s.cfg) && WindowInv(s) && VoteInv(s) && OneViewInv(s, V, ok)
  }

  lemma ReadyParts(s: State, V: Votes, ok: Message -> bool)
    requires Ready(s, V, ok)
    ensures WindowInv(s) && VoteInv(s) && OneViewInv(s, V, ok)
  {
    hide WindowInv, VoteInv, OneViewInv;
  }

  /** What the invariants say about one present slot. */
  lemma SlotFacts(s: State, V: Votes, ok: Message -> bool, n: int)
    requires Ready(s, V, ok) && n in s.slots
    ensures EntryOk(s.cfg, s.view, V, ok, n, s.slots[n]) && 0 <= n
    ensures Genuine(s.cfg, V, s.cfg.id, s.slots[n].prePrepare.data)
    ensures s.slots[n].status == PrePrepared ==> |s.slots[n].prepares| < 2 * s.cfg.f
    ensures s.slots[n].status == Executed ==> Execution(n, s.slots[n].m.data, s.slots[n].result) in s.executed
  {
    hide EntryOk, Everyone, HasQuorum, ReportOk, AllOfView, OneVotePerSlot;
    assert EntryVoted(s, n, s.slots[n]);
  }

  /** An event that keeps the digest table and reports nothing is good when what it writes is. */
  lemma WriteGood(s: State, V: Votes, ok: Message -> bool, c: Change)
    requires Ready(s, V, ok)
    requires c.index == s.index && forall o | o in c.outs :: !o.Notify?
    requires c.write.Some? ==>
               var n, e := c.write.value.n, c.write.value.e;
               n in s.slots && EntryOk(s.cfg, s.view, V, ok, n, e) &&
               e.prePrepare == s.slots[n].prePrepare && e.m == s.slots[n].m && e.result == s.slots[n].result &&
               (e.status == Executed ==> s.slots[n].status == Executed)
    ensures OneViewGood(s, V, ok, c)
  {
    hide EntryOk, Everyone, HasQuorum, ReportOk, AllOfView, OneVotePerSlot, EntryVoted;
  }

  /** A verified acknowledgement of the slot's digest is a vote for the slot's context. */
  lemma AckIsVote(s: State, V: Votes, ok: Message -> bool, r: Request)
    requires Ready(s, V, ok) && Counted(s, r) && SigOk(s.cfg, V, r.sig, r.data)
    ensures Genuine(s.cfg, V, r.sig.signer, s.slots[r.data.seqNum].prePrepare.data)
  {
    hide Everyone, HasQuorum, ReportOk, OneVotePerSlot;
    SlotFacts(s, V, ok, r.data.seqNum);
    assert r.data.seqNum != -1;
  }

  lemma MapGrows<T>(m: map<int, T>, k: int, v: T)
    ensures |m[k := v]| >= |m|
  {
    assert m[k := v].Keys == m.Keys + {k};
    SubsetSize(m.Keys, m[k := v].Keys);
    assert |m| == |m.Keys| && |m[k := v]| == |m[k := v].Keys|;
  }

  lemma PrePrepareOkGood(s: State, V: Votes, ok: Message -> bool, r: Request)
    requires Ready(s, V, ok) && SigOk(s.cfg, V, r.sig, r.data)
    ensures OneViewGood(s, V, ok, PrePrepareOkChange(s, r))
  {
    hide Ready, OneViewGood, SigOk, EntryOk, WithPrePrepareOk;
    if Counted(s, r) {
      var n, e := r.data.seqNum, s.slots[r.data.seqNum];
      SlotFacts(s, V, ok, n);
      AckIsVote(s, V, ok, r);
      AckedOk(s.cfg, s.view, V, ok, n, e, r);
    }
    WriteGood(s, V, ok, PrePrepareOkChange(s, r));
  }

  lemma PrepareOkGood(s: State, V: Votes, ok: Message -> bool, r: Request)
    requires Ready(s, V, ok) && SigOk(s.cfg, V, r.sig, r.data)
    ensures OneViewGood(s, V, ok, PrepareOkChange(s, r))
  {
    hide Ready, OneViewGood, SigOk, EntryOk, WithPrepareOk;
    if Counted(s, r) {
      var n, e := r.data.seqNum, s.slots[r.data.seqNum];
      SlotFacts(s, V, ok, n);
      AckIsVote(s, V, ok, r);
      AckedOk(s.cfg, s.view, V, ok, n, e, r);
    }
    WriteGood(s, V, ok, PrepareOkChange(s, r));
  }

  /** An acknowledgement that is a vote for the entry keeps it well certified, in either phase. */
  lemma AckedOk(cfg: Config, view: int, V: Votes, ok: Message -> bool, n: int, e: Entry, r: Request)
    requires EntryOk(cfg, view, V, ok, n, e) && r.data.seqNum == n && AckMatches(e, r)
    requires Genuine(cfg, V, r.sig.signer, e.prePrepare.data) && cfg.id == LeaderOf(cfg, view)
    ensures EntryOk(cfg, view, V, ok, n, WithPrePrepareOk(cfg, e, r)) &&
            EntryOk(cfg, view, V, ok, n, WithPrepareOk(cfg, e, r))
    ensures WithPrePrepareOk(cfg, e, r).prePrepare == e.prePrepare &&
            WithPrepareOk(cfg, e, r).prePrepare == e.prePrepare
    ensures WithPrePrepareOk(cfg, e, r).m == e.m && WithPrepareOk(cfg, e, r).m == e.m
    ensures WithPrePrepareOk(cfg, e, r).result == e.result && WithPrepareOk(cfg, e, r).result == e.result
    ensures WithPrePrepareOk(cfg, e, r).status == Executed ==> e.status == Executed
    ensures WithPrepareOk(cfg, e, r).status == Executed ==> e.status == Executed
  {
    hide Genuine, LeaderOf;
    MapGrows(e.prepares, r.sig.signer, r);
    MapGrows(e.commits, r.sig.signer, r);
  }

  /** The signers of a certificate that count at `me`: those with a good MAC for it, and itself. */
  function Countable(me: int, sigs: seq<SignatureVec>): set<int> {
    set sig | sig in sigs && (sig.signer == me || me in sig.validFor) :: sig.signer
  }

  /** Counting a certificate stores exactly its countable signers besides those already stored, each under
      the certified context, and leaves the others' proofs alone. */
  lemma {:induction false} AddProofsCounts(me: int, data: Context, sigs: seq<SignatureVec>, proofs: map<int, Request>)
    ensures var after := AddProofs(me, data, sigs, proofs);
            after.Keys == proofs.Keys + Countable(me, sigs) &&
            forall p | p in after ::
              if p in Countable(me, sigs) then after[p].data == data && after[p].sig.signer == p && after[p].sig in sigs
              else p in proofs && after[p] == proofs[p]
  {
    if sigs != [] {
      var front, sig := sigs[..|sigs| - 1], sigs[|sigs| - 1];
      AddProofsCounts(me, data, front, proofs);
      assert sigs == front + [sig];
      assert Countable(me, sigs) ==
             Countable(me, front) + (if sig.signer == me || me in sig.validFor then {sig.signer} else {});
    }
  }

  /** A certificate raises an entry exactly when the distinct signers, stored and countable, reach the quorum. */
  lemma CertificateRaises(cfg: Config, e: Entry, p: ProofRequest)
    requires e.status == PrePrepared || e.status == Prepared
    ensures var counted := if Matches(e, p.data) then Countable(cfg.id, p.sigs) else {};
            (WithCommits(cfg, e, p).status == Committed <==> |e.commits.Keys + counted| >= 2 * cfg.f + 1) &&
            (e.status == PrePrepared ==>
               (WithPrepares(cfg, e, p).status == Prepared <==> |e.prepares.Keys + counted| >= 2 * cfg.f))
  {
    hide AddProofs, Countable;
    AddProofsCounts(cfg.id, p.data, p.sigs, e.commits);
    AddProofsCounts(cfg.id, p.data, p.sigs, e.prepares);
    assert e.commits.Keys + {} == e.commits.Keys && e.prepares.Keys + {} == e.prepares.Keys;
  }

  lemma {:induction false} AddProofsOk(cfg: Config, V: Votes, e: Entry, data: Context, sigs: seq<SignatureVec>,
                                       proofs: map<int, Request>)
    requires data == e.prePrepare.data && ProofsOk(cfg, V, e, proofs) && Genuine(cfg, V, cfg.id, data)
    requires forall sig | sig in sigs && sig.signer != cfg.id :: SigOk(cfg, V, sig, data)
    ensures ProofsOk(cfg, V, e, AddProofs(cfg.id, data, sigs, proofs))
    ensures |proofs| <= |AddProofs(cfg.id, data, sigs, proofs)|
  {
    hide Everyone, LeaderOf;
    if sigs != [] {
      var front, sig := sigs[..|sigs| - 1], sigs[|sigs| - 1];
      assert sig in sigs && forall x | x in front :: x in sigs;
      AddProofsOk(cfg, V, e, data, front, proofs);
      MapGrows(AddProofs(cfg.id, data, front, proofs), sig.signer, Request(data, sig));
    }
  }

  lemma PrepareGood(s: State, V: Votes, ok: Message -> bool, p: ProofRequest)
    requires Ready(s, V, ok)
    requires forall sig | sig in p.sigs && sig.signer != s.cfg.id :: SigOk(s.cfg, V, sig, p.data)
    ensures OneViewGood(s, V, ok, PrepareChange(s, p))
  {
    hide Ready, OneViewGood, SigOk, Everyone, AddProofs, LeaderOf, Sign, EntryOk;
    if ProofOffered(s, p, {PrePrepared}) {
      ProofCounted(s, V, ok, p);
    }
    WriteGood(s, V, ok, PrepareChange(s, p));
  }

  lemma CommitGood(s: State, V: Votes, ok: Message -> bool, p: ProofRequest)
    requires Ready(s, V, ok)
    requires forall sig | sig in p.sigs && sig.signer != s.cfg.id :: SigOk(s.cfg, V, sig, p.data)
    ensures OneViewGood(s, V, ok, CommitChange(s, p))
  {
    hide Ready, OneViewGood, SigOk, Everyone, AddProofs, LeaderOf, Sign, EntryOk;
    if ProofOffered(s, p, {PrePrepared, Prepared}) {
      ProofCounted(s, V, ok, p);
    }
    WriteGood(s, V, ok, CommitChange(s, p));
  }

  /** Counting an authentic certificate keeps the entry well certified. */
  lemma ProofCounted(s: State, V: Votes, ok: Message -> bool, p: ProofRequest)
    requires Ready(s, V, ok) && ProofOffered(s, p, {PrePrepared, Prepared})
    requires forall sig | sig in p.sigs && sig.signer != s.cfg.id :: SigOk(s.cfg, V, sig, p.data)
    ensures var n, e := p.data.seqNum, s.slots[p.data.seqNum];
            (e.status == PrePrepared ==> EntryOk(s.cfg, s.view, V, ok, n, WithPrepares(s.cfg, e, p))) &&
            EntryOk(s.cfg, s.view, V, ok, n, WithCommits(s.cfg, e, p))
  {
    hide Ready, SigOk, Everyone, AddProofs, LeaderOf, Genuine, ProofsOk;
    var n, e := p.data.seqNum, s.slots[p.data.seqNum];
    SlotFacts(s, V, ok, n);
    if Matches(e, p.data) {
      assert p.data == e.prePrepare.data;
      AddProofsOk(s.cfg, V, e, p.data, p.sigs, e.prepares);
      AddProofsOk(s.cfg, V, e, p.data, p.sigs, e.commits);
    }
    CountedOk(s.cfg, s.view, V, ok, n, e, p);
  }

  lemma CountedOk(cfg: Config, view: int, V: Votes, ok: Message -> bool, n: int, e: Entry, p: ProofRequest)
    requires EntryOk(cfg, view, V, ok, n, e) && (e.status == PrePrepared || e.status == Prepared)
    requires Matches(e, p.data) ==>
               ProofsOk(cfg, V, e, AddProofs(cfg.id, p.data, p.sigs, e.prepares)) &&
               ProofsOk(cfg, V, e, AddProofs(cfg.id, p.data, p.sigs, e.commits))
    ensures e.status == PrePrepared ==> EntryOk(cfg, view, V, ok, n, WithPrepares(cfg, e, p))
    ensures EntryOk(cfg, view, V, ok, n, WithCommits(cfg, e, p))
  {
    hide Everyone, AddProofs, LeaderOf;
  }

  lemma TimerGood(s: State, V: Votes, ok: Message -> bool, n: int)
    requires Ready(s, V, ok)
    ensures OneViewGood(s, V, ok, OptimisticTimerChange(s, n))
  {
    hide Ready, OneViewGood, Everyone, LeaderOf, PrepareProofOf;
    if n in s.slots {
      var e, own := s.slots[n], Sign(s.cfg, s.slots[n].prePrepare.data);
      SlotFacts(s, V, ok, n);
      MapGrows(e.prepares, s.cfg.id, own);
      MapGrows(e.commits, s.cfg.id, own);
      assert s.cfg.f >= 1 by { assert Ready(s, V, ok) ==> s.cfg.f >= 1 by { ReadyConfig(s, V, ok); } }
      OwnCommitOk(s.cfg, s.view, V, ok, n, e);
    }
    WriteGood(s, V, ok, OptimisticTimerChange(s, n));
  }

  lemma ReadyConfig(s: State, V: Votes, ok: Message -> bool)
    requires Ready(s, V, ok)
    ensures s.cfg.f >= 1 && !s.cfg.byzantine
  {
    hide WindowInv, VoteInv, OneViewInv;
  }

  lemma OwnCommitOk(cfg: Config, view: int, V: Votes, ok: Message -> bool, n: int, e: Entry)
    requires EntryOk(cfg, view, V, ok, n, e) && Genuine(cfg, V, cfg.id, e.prePrepare.data) && cfg.f >= 1
    requires |e.prepares[cfg.id := Sign(cfg, e.prePrepare.data)]| >= |e.prepares|
    requires |e.commits[cfg.id := Sign(cfg, e.prePrepare.data)]| >= |e.commits|
    ensures EntryOk(cfg, view, V, ok, n, WithOwnCommit(cfg, e))
  {
    hide Everyone, LeaderOf, ProofsOk, Genuine, Sign;
    OwnAdded(cfg, V, e, e.prepares);
    OwnAdded(cfg, V, e, e.commits);
    SameProofs(cfg, V, e, WithOwnCommit(cfg, e), WithOwnCommit(cfg, e).prepares);
    SameProofs(cfg, V, e, WithOwnCommit(cfg, e), WithOwnCommit(cfg, e).commits);
  }

  lemma OwnAdded(cfg: Config, V: Votes, e: Entry, proofs: map<int, Request>)
    requires ProofsOk(cfg, V, e, proofs) && Genuine(cfg, V, cfg.id, e.prePrepare.data)
    ensures ProofsOk(cfg, V, e, proofs[cfg.id := Sign(cfg, e.prePrepare.data)])
  {
    hide Everyone, LeaderOf, Genuine;
  }

  lemma SameProofs(cfg: Config, V: Votes, e: Entry, e': Entry, proofs: map<int, Request>)
    requires e'.prePrepare == e.prePrepare
    ensures ProofsOk(cfg, V, e, proofs) ==> ProofsOk(cfg, V, e', proofs)
  {
    hide Everyone, LeaderOf, Genuine;
  }

  lemma TransferGood(s: State, V: Votes, ok: Message -> bool, m: Message)
    requires Ready(s, V, ok) && (m.sig.valid ==> ok(m)) && Enabled(s, OnTransfer(m))
    ensures OneViewGood(s, V, ok, TransferChange(s, m))
  {
    hide Ready, OneViewGood, ProposeChange, ReproposeChange, IsLeader;
    var digest := TransferDigest(m.data);
    if Proposes(s, m) {
      ProposeGood(s, V, ok, m);
    } else if Known(s, m.data) {
      var n := s.index[digest];
      SlotFacts(s, V, ok, n);
      KnownSlot(s, V, ok, m.data);
      if m.sig.valid && s.slots[n].status == Executed {
        NotifyGood(s, V, ok, m, s.slots[n].result, n);
      }
    }
    if TransferChange(s, m) == Same(s) || TransferChange(s, m).outs == [ForwardTransfer(LeaderOf(s.cfg, s.view), m)] {
      WriteGood(s, V, ok, Same(s));
      WriteGood(s, V, ok, Same(s).(outs := [ForwardTransfer(LeaderOf(s.cfg, s.view), m)]));
    }
  }

  lemma KnownSlot(s: State, V: Votes, ok: Message -> bool, t: Transfer)
    requires Ready(s, V, ok) && Known(s, t)
    ensures s.slots[s.index[TransferDigest(t)]].m.data == t
  {
    hide Everyone, HasQuorum, ReportOk, AllOfView, OneVotePerSlot, ProofsOk, WindowInv, VoteInv;
    var n := s.index[TransferDigest(t)];
    assert EntryOk(s.cfg, s.view, V, ok, n, s.slots[n]);
  }

  lemma NotifyGood(s: State, V: Votes, ok: Message -> bool, m: Message, ack: bool, n: int)
    requires Ready(s, V, ok) && m.sig.valid && ok(m) && Execution(n, m.data, ack) in s.executed
    ensures OneViewGood(s, V, ok,
                        Same(s).(outs := [Notify(m.sig.signer,
                                                 Response(m.data, ack, s.view, Signature(s.cfg.id, true)))]))
  {
    hide EntryOk, Everyone, HasQuorum, AllOfView, OneVotePerSlot, WindowInv, VoteInv;
    assert m == Message(m.data, Signature(m.sig.signer, true));
  }

  lemma ProposeGood(s: State, V: Votes, ok: Message -> bool, m: Message)
    requires Ready(s, V, ok) && ok(m) && Proposes(s, m)
    ensures OneViewGood(s, V, ok, ProposeChange(s, m))
  {
    hide Everyone, HasQuorum, AllOfView, OneVotePerSlot, VoteInv, ProofsOk, LeaderOf;
    assert ProofsOk(s.cfg, V, ProposedEntry(s, m), map[]) by { NoProofs(s.cfg, V, ProposedEntry(s, m)); }
  }

  lemma NoProofs(cfg: Config, V: Votes, e: Entry)
    ensures ProofsOk(cfg, V, e, map[])
  {
    hide Everyone, LeaderOf;
  }

  lemma PrePrepareGood(s: State, V: Votes, ok: Message -> bool, p: PrePrepareRequest)
    requires Ready(s, V, ok) && (p.m.sig.valid ==> ok(p.m)) && PrePrepareChange(s, p).signs <= V[s.cfg.id]
    ensures OneViewGood(s, V, ok, PrePrepareChange(s, p))
  {
    hide Ready, OneViewGood, PrePrepareOffered, SlotTaken, Opened, Sign;
    if !PrePrepareOffered(s, p) || SlotTaken(s, p.r.data) {
      WriteGood(s, V, ok, PrePrepareChange(s, p));
    } else {
      assert p.r.data in PrePrepareChange(s, p).signs;
      OpenedGood(s, V, ok, p);
    }
  }

  lemma OpenedGood(s: State, V: Votes, ok: Message -> bool, p: PrePrepareRequest)
    requires Ready(s, V, ok) && (p.m.sig.valid ==> ok(p.m)) && p.r.data in V[s.cfg.id]
    requires PrePrepareOffered(s, p) && !SlotTaken(s, p.r.data)
    ensures OneViewGood(s, V, ok, PrePrepareChange(s, p))
  {
    hide Everyone, HasQuorum, AllOfView, OneVotePerSlot, VoteInv, ProofsOk, LeaderOf;
    assert ProofsOk(s.cfg, V, Opened(s, p), map[]) by { NoProofs(s.cfg, V, Opened(s, p)); }
    assert ProofsOk(s.cfg, V, Opened(s, p), Opened(s, p).prepares) by { OwnProof(s.cfg, V, Opened(s, p)); }
    var n := p.r.data.seqNum;
    if n in s.slots {
      assert EntryOk(s.cfg, s.view, V, ok, n, s.slots[n]);
    }
  }

  lemma OwnProof(cfg: Config, V: Votes, e: Entry)
    requires Genuine(cfg, V, cfg.id, e.prePrepare.data)
    ensures ProofsOk(cfg, V, e, map[cfg.id := Sign(cfg, e.prePrepare.data)])
  {
    hide Everyone, LeaderOf;
  }

  lemma QuietGood(s: State, V: Votes, ok: Message -> bool, e: Event)
    requires Ready(s, V, ok)
    requires e.OnViewChange? || e.OnNewView? || e.OnDigestTimer? || e.OnSlotTimer? || e.OnViewTimer?
    ensures OneViewGood(s, V, ok, ChangeOf(s, e))
  {
    hide Ready, OneViewGood, ChangeOf;
    ViewsQuiet(s, e);
    WriteGood(s, V, ok, ChangeOf(s, e));
  }

  lemma ChangeGood(s: State, V: Votes, ok: Message -> bool, e: Event)
    requires Ready(s, V, ok) && Enabled(s, e) && !e.OnCheckpoint? && Authentic(s.cfg, V, ok, e)
    requires ChangeOf(s, e).signs <= V[s.cfg.id]
    ensures OneViewGood(s, V, ok, ChangeOf(s, e))
  {
    hide Ready, OneViewGood, SigOk, TransferChange, PrePrepareChange, PrePrepareOkChange, PrepareChange,
         PrepareOkChange, CommitChange, ViewChangeChange, NewViewChange, OptimisticTimerChange, DigestTimerChange,
         SlotTimerChange;
    match e
    case OnTransfer(m) => TransferGood(s, V, ok, m);
    case OnPrePrepare(p) => PrePrepareGood(s, V, ok, p);
    case OnPrePrepareOk(r) => PrePrepareOkGood(s, V, ok, r);
    case OnPrepare(p) => PrepareGood(s, V, ok, p);
    case OnPrepareOk(r) => PrepareOkGood(s, V, ok, r);
    case OnCommit(p) => CommitGood(s, V, ok, p);
    case OnOptimisticTimer(n) => TimerGood(s, V, ok, n);
    case OnViewChange(_) => QuietGood(s, V, ok, e);
    case OnNewView(_) => QuietGood(s, V, ok, e);
    case OnDigestTimer(_, _) => QuietGood(s, V, ok, e);
    case OnSlotTimer(_, _) => QuietGood(s, V, ok, e);
    case OnViewTimer(_) => QuietGood(s, V, ok, e);
  }

  // ---- Execution and checkpoint messages ----

  /** A committed slot's stored votes are a quorum for its context. */
  lemma CommittedQuorum(cfg: Config, view: int, V: Votes, ok: Message -> bool, n: int, e: Entry)
    requires EntryOk(cfg, view, V, ok, n, e) && (e.status == Committed || e.status == Executed)
    ensures HasQuorum(cfg, V, e.prePrepare.data)
  {
    hide LeaderOf, Everyone;
    forall p | p in e.commits.Keys
      ensures p in Supporters(cfg, V, e.prePrepare.data)
    {
      assert p in e.commits && Genuine(cfg, V, p, e.prePrepare.data);
    }
    SubsetSize(e.commits.Keys, Supporters(cfg, V, e.prePrepare.data));
    assert |e.commits| == |e.commits.Keys|;
  }

  /** What a step of execution does, as far as this invariant reads. */
  ghost predicate Executes(s: State, t: State, n: int, x: Execution) {
    n in s.slots && t.cfg == s.cfg && t.view == s.view && t.signed == s.signed && t.index == s.index &&
    x == Execution(n, s.slots[n].m.data, x.result) &&
    t.slots == s.slots[n := s.slots[n].(status := Executed, result := x.result)] &&
    t.executed == s.executed + [x] &&
    forall client, reply | Notify(client, reply) in t.sent ::
      Notify(client, reply) in s.sent ||
      (client == s.slots[n].m.sig.signer && reply.tdata == x.transfer && reply.ack == x.result)
  }

  lemma ExecuteOneExecutes(s: State, n: int) returns (x: Execution)
    requires n in s.slots
    ensures Executes(s, ExecuteOne(s, n), n, x)
  {
    hide Checkpoint, Apply, ExecuteOne;
    ExecuteOneIs(s, n);
    x := Execution(n, s.slots[n].m.data, Apply(s.balances, s.slots[n].m.data).ok);
    CheckpointQuiet(Executed1(s, n));
  }

  lemma CheckpointQuiet(s: State)
    requires s.balances.Keys != {}
    ensures var t := Checkpoint(s);
            t == s.(checkpoints := t.checkpoints, sent := t.sent) &&
            forall client, reply | Notify(client, reply) in t.sent :: Notify(client, reply) in s.sent
  {
    hide CheckpointText.Text;
  }

  lemma ExecutesKeepsOneView(s: State, V: Votes, ok: Message -> bool, t: State, n: int, x: Execution)
    requires OneViewInv(s, V, ok) && Executes(s, t, n, x) && s.slots[n].status == Committed
    ensures OneViewInv(t, V, ok)
  {
    hide EntryOk, Everyone, HasQuorum, ReportOk, AllOfView;
    var e := s.slots[n];
    assert EntryOk(s.cfg, s.view, V, ok, n, e);
    CommittedQuorum(s.cfg, s.view, V, ok, n, e);
    assert EntryOk(t.cfg, t.view, V, ok, n, t.slots[n]) &&
           e.prePrepare.data == Context(s.view, n, TransferDigest(e.m.data)) by {
      EntryExecuted(s.cfg, s.view, V, ok, n, e, x.result);
    }
    forall y | y in t.executed
      ensures ExecutionOk(t, V, y)
    {
      assert y in s.executed || y == x;
      if y in s.executed {
        assert ExecutionOk(s, V, y);
      }
    }
    assert x in t.executed && forall y | y in s.executed :: y in t.executed;
    forall client, reply | Notify(client, reply) in t.sent
      ensures ReportOk(t.executed, ok, client, reply)
    {
      if Notify(client, reply) in s.sent {
        ReportGrows(s.executed, t.executed, ok, client, reply);
      } else {
        ReportNew(s.cfg, s.view, V, ok, n, e, t.executed, x, client, reply);
      }
    }
  }

  lemma EntryExecuted(cfg: Config, view: int, V: Votes, ok: Message -> bool, n: int, e: Entry, result: bool)
    requires EntryOk(cfg, view, V, ok, n, e) && e.status == Committed
    ensures EntryOk(cfg, view, V, ok, n, e.(status := Executed, result := result))
    ensures e.prePrepare.data == Context(view, n, TransferDigest(e.m.data)) && e.m.sig.valid && ok(e.m)
  {
    hide Everyone, LeaderOf;
  }

  lemma ReportGrows(xs: seq<Execution>, ys: seq<Execution>, ok: Message -> bool, client: int, reply: Response)
    requires ReportOk(xs, ok, client, reply) && xs <= ys
    ensures ReportOk(ys, ok, client, reply)
  {
    var n :| Execution(n, reply.tdata, reply.ack) in xs;
    assert Execution(n, reply.tdata, reply.ack) in ys;
  }

  lemma ReportNew(cfg: Config, view: int, V: Votes, ok: Message -> bool, n: int, e: Entry, xs: seq<Execution>,
                  x: Execution, client: int, reply: Response)
    requires EntryOk(cfg, view, V, ok, n, e) && x in xs && x == Execution(n, e.m.data, x.result)
    requires client == e.m.sig.signer && reply.tdata == x.transfer && reply.ack == x.result
    ensures ReportOk(xs, ok, client, reply)
  {
    hide Everyone, LeaderOf, ProofsOk;
    assert e.m == Message(reply.tdata, Signature(client, true));
    assert Execution(n, reply.tdata, reply.ack) in xs;
  }

  lemma {:induction false} ExecuteFromOneView(s: State, V: Votes, ok: Message -> bool, n: int)
    requires OneViewInv(s, V, ok) && s.lastExecuted < n
    ensures OneViewInv(ExecuteFrom(s, n), V, ok)
    decreases s.current - n
  {
    hide ExecuteOne, OneViewInv, Executes;
    if n <= s.current {
      if n in s.slots && s.slots[n].status == Committed {
        ExecuteOneRan(s, n);
        var x := ExecuteOneExecutes(s, n);
        ExecutesKeepsOneView(s, V, ok, ExecuteOne(s, n), n, x);
        ExecuteFromOneView(ExecuteOne(s, n), V, ok, n + 1);
      } else if n !in s.slots || s.slots[n].status == Executed {
        ExecuteFromOneView(s, V, ok, n + 1);
      }
    }
  }

  lemma EmitOneView(s: State, V: Votes, ok: Message -> bool, o: Output)
    requires OneViewInv(s, V, ok) && !o.Notify?
    ensures OneViewInv(Emit(s, o), V, ok)
  {
    hide EntryOk, Everyone, HasQuorum, ReportOk, AllOfView;
    forall x | x in s.executed
      ensures ExecutionOk(Emit(s, o), V, x)
    {
      assert ExecutionOk(s, V, x);
    }
  }

  lemma FinishedOneView(s: State, V: Votes, ok: Message -> bool, e: Event, mid: State, t: State)
    requires OneViewInv(mid, V, ok) && Finished(s, e, mid, t)
    ensures OneViewInv(t, V, ok)
  {
    hide OneViewInv, ExecuteFrom, Commits;
    ExecuteFromOneView(mid, V, ok, mid.lastExecuted + 1);
    if Commits(s, e) && e.OnPrepareOk? {
      var proof :| t == Emit(ExecutePending(mid), SendCommit(proof));
      EmitOneView(ExecutePending(mid), V, ok, SendCommit(proof));
    }
  }

  lemma FewerIndexed(s: State, V: Votes, ok: Message -> bool, t: State)
    requires OneViewInv(s, V, ok) && t.cfg == s.cfg && t.view == s.view && t.slots == s.slots && t.signed == s.signed
    requires t.executed == s.executed && t.sent == s.sent
    requires forall d | d in t.index :: d in s.index && t.index[d] == s.index[d]
    ensures OneViewInv(t, V, ok)
  {
    hide EntryOk, Everyone, HasQuorum, ReportOk, AllOfView;
    forall x | x in s.executed
      ensures ExecutionOk(t, V, x)
    {
      assert ExecutionOk(s, V, x);
    }
  }

  lemma CheckpointOneView(s: State, V: Votes, ok: Message -> bool, c: CheckpointReq)
    requires OneViewInv(s, V, ok)
    ensures OneViewInv(ProcessCheckpoint(s, c), V, ok)
  {
    hide OneViewInv, ProcessCheckpoint;
    CheckpointFields(s, c);
    FewerIndexed(s, V, ok, ProcessCheckpoint(s, c));
  }

  /** Every event that keeps the view keeps the invariant, when what it signs is in V. */
  lemma NextKeepsOneView(s: State, V: Votes, ok: Message -> bool, e: Event)
    requires Ready(s, V, ok) && Enabled(s, e) && Authentic(s.cfg, V, ok, e)
    requires Next(s, e).view == s.view && Next(s, e).signed <= V[s.cfg.id]
    ensures Ready(Next(s, e), V, ok)
  {
    hide WindowInv, VoteInv, OneViewInv, NamesEarlier, ContradictsNothing, ChangeOf, Made, Finished, OneViewGood,
         Authentic, ProcessTransfer, ProcessPrePrepare, ProcessPrePrepareOk, ProcessPrepare, ProcessPrepareOk,
         ProcessCommit, ProcessViewChange, ProcessNewView, ProcessCheckpoint, OptimisticTimer, DigestTimer, SlotTimer,
         ViewTimer, Advances;
    NextKeepsWindow(s, e);
    assert Next(s, e).cfg == s.cfg by { AdvancesConfig(s, Next(s, e)); }
    if e.OnCheckpoint? {
      CheckpointOneView(s, V, ok, e.c);
      NothingRevoted(s, e);
      NextKeepsVotes(s, e);
    } else {
      var mid := NextMade(s, e);
      var c := ChangeOf(s, e);
      FinishedSame(s, e, mid, Next(s, e));
      MadeSame(s, c, mid);
      ChangeGood(s, V, ok, e);
      MadeKeepsOneView(s, V, ok, c, mid);
      FinishedOneView(s, V, ok, e, mid, Next(s, e));
      StaysUnrevoted(s, e);
      NothingRevoted(s, e);
      NextKeepsVotes(s, e);
    }
  }

  lemma AdvancesConfig(s: State, t: State)
    requires Advances(s, t)
    ensures t.cfg == s.cfg
  {
  }

  lemma NothingRevoted(s: State, e: Event)
    requires VoteInv(s) && Revoted(s, e) == {}
    ensures NamesEarlier(s, e) && ContradictsNothing(s, e)
  {
    hide OneVotePerSlot, SlotsVoted, SignedCovered;
    assert s.signed + {} == s.signed;
  }

  lemma MadeSame(s: State, c: Change, mid: State)
    requires Made(s, c, mid)
    ensures mid.view == c.view && mid.signed == s.signed + c.signs && mid.cfg == s.cfg
  {
  }

  lemma FinishedSame(s: State, e: Event, mid: State, t: State)
    requires Finished(s, e, mid, t)
    ensures t.view == mid.view && t.signed == mid.signed
  {
    hide Commits, ExecutePending;
    ExecutePendingRan(mid);
  }

  /** An accepted NEW-VIEW leaves the view. */
  lemma StaysUnrevoted(s: State, e: Event)
    requires !e.OnCheckpoint? && ChangeOf(s, e).view == s.view
    ensures Revoted(s, e) == {}
  {
    hide BigO, AgreeUpTo, ValidViewChanges, SignedBySelection, Revotes, RevoteOuts;
  }

  // ---- What is signed while the view lasts ----

  ghost predicate SignsOfView(s: State, c: Change) {
    c.view == s.view ==> forall x | x in c.signs :: x == NOP || x.view == s.view
  }

  lemma ChangeSignsOfView(s: State, V: Votes, ok: Message -> bool, e: Event)
    requires OneViewInv(s, V, ok) && !e.OnCheckpoint?
    ensures SignsOfView(s, ChangeOf(s, e))
  {
    hide OneViewInv, TransferChange, PrepareChange, OptimisticTimerChange, ViewChangeChange, NewViewChange, Opened,
         Sign, LeaderOf, SlotTaken, PrePrepareOkChange, PrepareOkChange, CommitChange, DigestTimerChange,
         SlotTimerChange, SignsOfView;
    match e
    case OnTransfer(m) => TransferSigns(s, m);
    case OnPrePrepare(p) => PrePrepareSigns(s, p);
    case OnPrepare(p) => PrepareSigns(s, p);
    case OnOptimisticTimer(n) => TimerSigns(s, V, ok, n);
    case OnViewChange(vc) => ViewSigns(s, vc);
    case OnNewView(nv) => NewViewSigns(s, nv);
    case _ => QuietSigns(s, e);
  }

  lemma TransferSigns(s: State, m: Message)
    ensures SignsOfView(s, TransferChange(s, m))
  {
    hide IsLeader, LeaderOf, Everyone;
  }

  lemma PrePrepareSigns(s: State, p: PrePrepareRequest)
    ensures SignsOfView(s, PrePrepareChange(s, p))
  {
    hide LeaderOf, Opened, Sign, SlotTaken;
  }

  lemma PrepareSigns(s: State, p: ProofRequest)
    ensures SignsOfView(s, PrepareChange(s, p))
  {
    hide WithPrepares, LeaderOf, Sign;
  }

  lemma TimerSigns(s: State, V: Votes, ok: Message -> bool, n: int)
    requires OneViewInv(s, V, ok)
    ensures SignsOfView(s, OptimisticTimerChange(s, n))
  {
    hide ProofsOk, LeaderOf, Sign, PrepareProofOf, Everyone, HasQuorum, ReportOk, AllOfView, WithOwnCommit, AllPrepared;
  }

  lemma ViewSigns(s: State, vc: ViewChangeReq)
    ensures SignsOfView(s, ViewChangeChange(s, vc))
  {
    hide VerifyViewChange, LeaderOf, Received, Started, Compose;
  }

  lemma NewViewSigns(s: State, nv: NewViewReq)
    ensures SignsOfView(s, NewViewChange(s, nv))
  {
    hide BigO, ValidViewChanges, AgreeUpTo, Revotes, RevoteOuts;
  }

  lemma QuietSigns(s: State, e: Event)
    requires e.OnPrePrepareOk? || e.OnPrepareOk? || e.OnCommit? || e.OnDigestTimer? || e.OnSlotTimer? || e.OnViewTimer?
    ensures SignsOfView(s, ChangeOf(s, e))
  {
    hide Compose, IsLeader, Settled, WithPrePrepareOk, WithPrepareOk, WithCommits, AckOffered, AckMatches;
  }

  /** A replica that stays in its view has signed contexts of that view only. */
  lemma NextSignsOfView(s: State, V: Votes, ok: Message -> bool, e: Event)
    requires OneViewInv(s, V, ok) && Enabled(s, e) && Next(s, e).view == s.view
    ensures forall c | c in Next(s, e).signed :: c == NOP || c.view == s.view
  {
    hide OneViewInv, ChangeOf, Made, Finished, ProcessTransfer, ProcessPrePrepare, ProcessPrePrepareOk, ProcessPrepare,
         ProcessPrepareOk, ProcessCommit, ProcessViewChange, ProcessNewView, ProcessCheckpoint, OptimisticTimer,
         DigestTimer, SlotTimer, ViewTimer;
    SignedOfView(s, V, ok);
    if e.OnCheckpoint? {
      CheckpointSigns(s, e.c);
    } else {
      var mid := NextMade(s, e);
      MadeSame(s, ChangeOf(s, e), mid);
      FinishedSame(s, e, mid, Next(s, e));
      ChangeSignsOfView(s, V, ok, e);
    }
  }

  lemma SignedOfView(s: State, V: Votes, ok: Message -> bool)
    requires OneViewInv(s, V, ok)
    ensures forall c | c in s.signed :: c == NOP || c.view == s.view
  {
    hide EntryOk, ExecutionOk, ReportOk, Everyone;
  }

  lemma CheckpointSigns(s: State, c: CheckpointReq)
    ensures ProcessCheckpoint(s, c).signed == s.signed
  {
    hide ProcessCheckpoint;
    CheckpointFields(s, c);
  }
}
