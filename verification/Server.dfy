/** The replica as the server holds it: a fixed-length vector of references to log entries that handlers update
    in place, a table of digests that shares those entries, and the counters and maps beside them.

    Every handler is proved to take the abstract state exactly where the transition function takes it, so
    what is proved of every run of the transition function holds of the running object. */
module Server {
  import opened Messages
  import opened Accounts
  import opened Quorum
  import opened ReplicaState
  import opened Window
  import opened ExecutionFold
  import CheckpointText
  import Selection

  /** A log entry; `slot` is the sequence number it was created for. */
  class MessageInfo {
    ghost const slot: int
    var m: Message
    var mstatus: Status
    var result: bool
    var prePrepare: Request
    var prepareProofs: map<int, Request>
    var commitProofs: map<int, Request>

    constructor (m: Message, prePrepare: Request, ghost slot: int)
      ensures this.slot == slot && result == false
    {
      this.slot := slot;
      this.m, this.prePrepare := m, prePrepare;
      mstatus, result := NoStatus, false;
      prepareProofs, commitProofs := map[], map[];
    }

    /** Start over for a pre-prepare, with the given prepares. */
    method Open(m: Message, r: Request, prepares: map<int, Request>)
      modifies this
      ensures Value() == Entry(m, PrePrepared, old(result), r, prepares, map[])
    {
      this.m, mstatus, prePrepare := m, PrePrepared, r;
      prepareProofs, commitProofs := prepares, map[];
    }

    ghost function Value(): Entry
      reads this
    {
      Entry(m, mstatus, result, prePrepare, prepareProofs, commitProofs)
    }

    /** Keep the signatures of a certificate that count here as prepares. */
    method AddPrepares(me: int, p: ProofRequest)
      modifies this`prepareProofs
      ensures prepareProofs == if Matches(old(Value()), p.data) then AddProofs(me, p.data, p.sigs, old(prepareProofs))
                               else old(prepareProofs)
    {
      for i := 0 to |p.sigs|
        invariant prepareProofs ==
                  if Matches(old(Value()), p.data) then AddProofs(me, p.data, p.sigs[..i], old(prepareProofs))
                                   else old(prepareProofs)
      {
        var sig := p.sigs[i];
        assert p.sigs[..i + 1][..i] == p.sigs[..i];
        if (sig.signer == me || me in sig.validFor) &&
           p.data.view == prePrepare.data.view && p.data.digest == prePrepare.data.digest {
          prepareProofs := prepareProofs[sig.signer := Request(p.data, sig)];
        }
      }
      assert p.sigs[..|p.sigs|] == p.sigs;
    }

    /** Keep the signatures of a certificate that count here as commits. */
    method AddCommits(me: int, p: ProofRequest)
      modifies this`commitProofs
      ensures commitProofs == if Matches(old(Value()), p.data) then AddProofs(me, p.data, p.sigs, old(commitProofs))
                              else old(commitProofs)
    {
      for i := 0 to |p.sigs|
        invariant commitProofs ==
                  if Matches(old(Value()), p.data) then AddProofs(me, p.data, p.sigs[..i], old(commitProofs))
                                  else old(commitProofs)
      {
        var sig := p.sigs[i];
        assert p.sigs[..i + 1][..i] == p.sigs[..i];
        if (sig.signer == me || me in sig.validFor) &&
           p.data.view == prePrepare.data.view && p.data.digest == prePrepare.data.digest {
          commitProofs := commitProofs[sig.signer := Request(p.data, sig)];
        }
      }
      assert p.sigs[..|p.sigs|] == p.sigs;
    }

    /** An acknowledgement of the first phase; the answer is whether it completes that phase. */
    method CountPrePrepareOk(cfg: Config, r: Request) returns (raised: bool)
      modifies this
      ensures Value() == WithPrePrepareOk(cfg, old(Value()), r)
      ensures raised <==> old(mstatus) == PrePrepared && mstatus == Prepared
    {
      prepareProofs := prepareProofs[r.sig.signer := r];
      raised := !cfg.byzantine && mstatus == PrePrepared && |prepareProofs| >= 2 * cfg.f;
      if raised {
        mstatus := Prepared;
      }
    }

    /** A certificate of the first phase; the answer is whether the entry is prepared now. */
    method CountPrepares(cfg: Config, p: ProofRequest) returns (raised: bool)
      requires mstatus == PrePrepared
      modifies this
      ensures Value() == WithPrepares(cfg, old(Value()), p) && raised == (mstatus == Prepared)
    {
      hide AddProofs;
      AddPrepares(cfg.id, p);
      raised := |prepareProofs| >= 2 * cfg.f;
      if raised {
        mstatus := Prepared;
      }
    }

    /** An acknowledgement of the second phase; the answer is whether it commits the entry. */
    method CountPrepareOk(cfg: Config, r: Request) returns (raised: bool)
      modifies this
      ensures Value() == WithPrepareOk(cfg, old(Value()), r)
      ensures raised <==> old(mstatus) == Prepared && mstatus == Committed
    {
      commitProofs := commitProofs[r.sig.signer := r];
      raised := mstatus == Prepared && |commitProofs| >= 2 * cfg.f + 1;
      if raised {
        mstatus := Committed;
      }
    }

    /** A certificate of the second phase; the answer is whether the entry is committed now. */
    method CountCommits(cfg: Config, p: ProofRequest) returns (raised: bool)
      requires mstatus == PrePrepared || mstatus == Prepared
      modifies this
      ensures Value() == WithCommits(cfg, old(Value()), p) && raised == (mstatus == Committed)
    {
      hide AddProofs;
      AddCommits(cfg.id, p);
      raised := |commitProofs| >= 2 * cfg.f + 1;
      if raised {
        mstatus := Committed;
      }
    }

    /** The commit certificate: every vote stored. */
    method Certificate() returns (commit: ProofRequest)
      ensures commit == CommitProof(Value())
    {
      commit := ProofRequest(prePrepare.data, SigsOf(SortedValues(commitProofs)));
    }

    /** The stored prepares, with the leader's own vote when every backup has acknowledged. */
    method PrepareCertificate(cfg: Config) returns (proof: ProofRequest)
      ensures proof == PrepareProofOf(cfg, Value())
    {
      hide Everyone, SortedValues;
      proof := ProofRequest(prePrepare.data, SigsOf(SortedValues(prepareProofs)));
      if |prepareProofs| == 3 * cfg.f {
        proof := proof.(sigs := proof.sigs + [Sign(cfg, prePrepare.data).sig]);
      } else {
        assert proof.sigs + [] == proof.sigs;
      }
    }

    /** The leader's own commit vote, which also commits the entry when every backup has acknowledged. */
    method AddOwnCommit(cfg: Config)
      modifies this
      ensures Value() == WithOwnCommit(cfg, old(Value()))
    {
      hide Everyone;
      var own := Sign(cfg, prePrepare.data);
      if |prepareProofs| == 3 * cfg.f {
        mstatus := Committed;
        commitProofs := prepareProofs;
      }
      commitProofs := commitProofs[cfg.id := own];
    }
  }

  lemma InRange(s: State)
    requires WindowInv(s)
    ensures s.low - 1 <= s.current <= s.high == s.low + s.cfg.k - 1 && s.current + 1 !in s.slots
    ensures s.low - 1 <= s.lastExecuted <= s.current
  {
  }

  lemma TransferInWindow(s: State, m: Message)
    requires WindowInv(s) && (Proposes(s, m) ==> s.current < s.high)
    ensures WindowInv(ReplicaState.ProcessTransfer(s, m))
  {
    hide WindowInv, Advances, ReplicaState.ProcessTransfer;
    NextKeepsWindow(s, OnTransfer(m));
  }

  lemma PrePrepareInWindow(s: State, p: PrePrepareRequest)
    requires WindowInv(s)
    ensures WindowInv(ReplicaState.ProcessPrePrepare(s, p))
  {
    hide WindowInv, Advances, ReplicaState.ProcessPrePrepare;
    NextKeepsWindow(s, OnPrePrepare(p));
  }

  lemma PrePrepareOkInWindow(s: State, r: Request)
    requires WindowInv(s) && (AckOffered(s, r) ==> Present(s, r.data.seqNum))
    ensures WindowInv(ReplicaState.ProcessPrePrepareOk(s, r))
  {
    hide WindowInv, Advances, ReplicaState.ProcessPrePrepareOk;
    NextKeepsWindow(s, OnPrePrepareOk(r));
  }

  lemma PrepareInWindow(s: State, p: ProofRequest)
    requires WindowInv(s)
    ensures WindowInv(ReplicaState.ProcessPrepare(s, p))
  {
    hide WindowInv, Advances, ReplicaState.ProcessPrepare;
    NextKeepsWindow(s, OnPrepare(p));
  }

  lemma PrepareOkInWindow(s: State, r: Request)
    requires WindowInv(s) && (AckOffered(s, r) ==> Present(s, r.data.seqNum))
    ensures WindowInv(ReplicaState.ProcessPrepareOk(s, r))
  {
    hide WindowInv, Advances, ReplicaState.ProcessPrepareOk;
    NextKeepsWindow(s, OnPrepareOk(r));
  }

  lemma CommitInWindow(s: State, p: ProofRequest)
    requires WindowInv(s)
    ensures WindowInv(ReplicaState.ProcessCommit(s, p))
  {
    hide WindowInv, Advances, ReplicaState.ProcessCommit;
    NextKeepsWindow(s, OnCommit(p));
  }

  lemma OptimisticTimerInWindow(s: State, n: int)
    requires WindowInv(s) && n in s.armed && (s.mode == Normal ==> Present(s, n))
    ensures WindowInv(ReplicaState.OptimisticTimer(s, n))
  {
    hide WindowInv, Advances, ReplicaState.OptimisticTimer;
    NextKeepsWindow(s, OnOptimisticTimer(n));
  }

  lemma TimerStepInWindow(s: State, n: int, o: Output)
    requires WindowInv(s) && n in s.slots
    ensures var e := s.slots[n];
            WindowInv(Emit(Put(s, n, WithOwnCommit(s.cfg, e)).(
              armed := s.armed - multiset{n}, signed := s.signed + {e.prePrepare.data}), o))
  {
    hide Sign, AllPrepared;
  }

  lemma ExecutedInWindow(s: State, n: int)
    requires WindowInv(s) && n in s.slots && s.slots[n].status == Committed && s.lastExecuted < n <= s.current
    ensures WindowInv(ExecuteOne(s, n))
  {
    hide ExecuteOne, WindowInv, Ran;
    ExecuteOneRan(s, n);
    RanKeepsWindow(s, ExecuteOne(s, n));
  }

  lemma Executed1Config(s: State, n: int)
    requires n in s.slots
    ensures Executed1(s, n).cfg == s.cfg
  {
    hide Apply;
  }

  lemma SameProposal(s: State, n: int, r: Request)
    requires n in s.slots
    ensures WithPrepareOk(s.cfg, s.slots[n], r).prePrepare == s.slots[n].prePrepare
  {
  }

  lemma SameProposalToo(s: State, n: int, p: ProofRequest)
    requires n in s.slots
    ensures WithCommits(s.cfg, s.slots[n], p).prePrepare == s.slots[n].prePrepare
  {
    hide AddProofs;
  }

  lemma CheckpointInWindow(s: State, c: CheckpointReq)
    requires WindowInv(s) && (BecomesStable(s, c) ==> forall n | s.low <= n <= c.data.seqNum :: n in s.slots)
    ensures WindowInv(ReplicaState.ProcessCheckpoint(s, c))
  {
    hide WindowInv, Advances, ReplicaState.ProcessCheckpoint;
    NextKeepsWindow(s, OnCheckpoint(c));
  }

  /** A new stable checkpoint lies in the window. */
  lemma StableRange(s: State, n: int)
    requires WindowInv(s) && s.stableSeq < n <= s.lastExecuted
    ensures s.low <= n < s.low + s.cfg.k
  {
  }

  lemma SameBelow(s: State, n: int, info: CheckpointInfo)
    requires Below(s)
    ensures Below(Stabilized(s, n, info)) && DigestsUpTo(Stabilized(s, n, info), n) == DigestsUpTo(s, n)
  {
  }

  function Stabilized(s: State, n: int, info: CheckpointInfo): State {
    s.(stableSeq := n, stableDigest := info.digest, stableState := info.state, stableProofs := info.proofs,
       checkpoints := s.checkpoints - {n})
  }

  /** No entry lies above the window. */
  predicate Below(s: State) {
    s.high == s.low + s.cfg.k - 1 && forall n | n in s.slots :: n <= s.high
  }

  lemma WindowBelow(s: State)
    requires WindowInv(s)
    ensures Below(s)
  {
  }

  lemma DigestsNone(s: State, n: int)
    requires n < s.low
    ensures DigestsUpTo(s, n) == {}
  {
  }

  lemma DigestsNext(s: State, n: int)
    requires s.low <= n && n in s.slots
    ensures DigestsUpTo(s, n) == DigestsUpTo(s, n - 1) + {s.slots[n].prePrepare.data.digest}
  {
  }

  lemma ViewChangeInWindow(s: State, vc: ViewChangeReq)
    requires WindowInv(s)
    ensures WindowInv(ReplicaState.ProcessViewChange(s, vc))
  {
    hide WindowInv, Advances, ReplicaState.ProcessViewChange;
    NextKeepsWindow(s, OnViewChange(vc));
  }

  lemma NewViewInWindow(s: State, nv: NewViewReq)
    requires WindowInv(s) && NewViewReadable(s, nv)
    ensures WindowInv(ReplicaState.ProcessNewView(s, nv))
  {
    hide WindowInv, Advances, ReplicaState.ProcessNewView, NewViewReadable;
    NextKeepsWindow(s, OnNewView(nv));
  }

  lemma TimerInWindow(s: State, e: Event)
    requires WindowInv(s) && Enabled(s, e) && (e.OnDigestTimer? || e.OnSlotTimer? || e.OnViewTimer?)
    ensures e.OnDigestTimer? ==> WindowInv(ReplicaState.DigestTimer(s, e.digest, e.view))
    ensures e.OnSlotTimer? ==> WindowInv(ReplicaState.SlotTimer(s, e.n, e.view))
    ensures e.OnViewTimer? ==> WindowInv(ReplicaState.ViewTimer(s, e.view))
  {
    hide WindowInv, Advances, ReplicaState.DigestTimer, ReplicaState.SlotTimer, ReplicaState.ViewTimer, Settled;
    NextKeepsWindow(s, e);
  }

  lemma LowInWindow(s: State)
    requires WindowInv(s)
    ensures s.low == s.stableSeq + 1 && s.high == s.low + s.cfg.k - 1
  {
  }

  /** The view changes stored are not part of the window. */
  lemma ViewsInWindow(s: State, t: State)
    requires WindowInv(s) && t == s.(viewChanges := t.viewChanges)
    ensures WindowInv(t)
  {
  }

  lemma {:induction false} RunPrefix(s: State, es: seq<Event>, i: nat)
    requires i <= |es| && Run(s, es).Some?
    ensures Run(s, es[..i]).Some?
    decreases |es|
  {
    hide Next, Enabled;
    if i < |es| {
      RunPrefix(s, es[..|es| - 1], i);
      assert es[..|es| - 1][..i] == es[..i];
    } else {
      assert es[..i] == es;
    }
  }

  lemma SomeViewChange(cfg: Config, vcs: seq<ViewChangeReq>)
    requires ValidViewChanges(cfg, vcs) > 0
    ensures vcs != []
  {
  }

  lemma PutInWindow(s: State, n: int, e: Entry)
    requires WindowInv(s) && n in s.slots && e.prePrepare == s.slots[n].prePrepare
    ensures WindowInv(Put(s, n, e))
  {
  }

  lemma OfferedInWindow(s: State, p: PrePrepareRequest)
    requires PrePrepareOffered(s, p)
    ensures InWindow(s, p.r.data.seqNum)
  {
    hide LeaderOf;
  }

  class Replica {
    const cfg: Config
    var currentView: int
    var currentSequence: int
    var lowWatermark: int
    var highWatermark: int
    var log: seq<MessageInfo?>
    var digestToEntry: map<Digest, MessageInfo>
    var lastExecuted: int
    var mode: Mode
    var lastProposedView: int
    var balances: Balances
    var checkpoints: map<int, CheckpointInfo>
    var lastStableSeqNum: int
    var lastStableDigest: Digest
    var lastStableState: Balances
    var lastStableProofs: map<int, CheckpointReq>
    var viewChangeMessages: map<int, map<int, ViewChangeReq>>
    var awaitedDigests: set<Digest>
    var armed: multiset<int>
    var sent: seq<Output>

    /** Every entry ever created, under the sequence number it was created for. */
    ghost var objects: map<int, MessageInfo>
    ghost var entries: set<MessageInfo>

    /** The fields are those of s. */
    ghost predicate Mirrors(s: State)
      reads this
    {
      cfg == s.cfg && currentView == s.view && currentSequence == s.current && lowWatermark == s.low &&
      highWatermark == s.high && lastExecuted == s.lastExecuted && mode == s.mode &&
      lastProposedView == s.lastProposedView && balances == s.balances && checkpoints == s.checkpoints &&
      lastStableSeqNum == s.stableSeq && lastStableDigest == s.stableDigest && lastStableState == s.stableState &&
      lastStableProofs == s.stableProofs && viewChangeMessages == s.viewChanges &&
      awaitedDigests == s.awaited && armed == s.armed && sent == s.sent
    }

    /** The vector holds the entries from the low watermark on, nulls elsewhere; the table shares them. */
    ghost predicate Shape(index: map<Digest, int>)
      reads this`log, this`lowWatermark, this`digestToEntry, this`objects
    {
      |log| == cfg.k &&
      (forall i | 0 <= i < |log| ::
       log[i] == if lowWatermark + i in objects then objects[lowWatermark + i] else null) &&
      digestToEntry.Keys == index.Keys &&
      (forall d | d in index :: index[d] in objects && digestToEntry[d] == objects[index[d]])
    }

    /** The entries hold the given contents. */
    ghost predicate Coupled(slots: map<int, Entry>)
      reads this`objects, this`entries, entries
    {
      slots.Keys == objects.Keys &&
      forall n | n in objects :: objects[n] in entries && objects[n].slot == n && objects[n].Value() == slots[n]
    }

    ghost predicate Stands(s: State)
      reads this, entries
    {
      Mirrors(s) && Shape(s.index) && Coupled(s.slots)
    }

    /** This object stands for s, whose window invariant holds. */
    ghost predicate Represents(s: State)
      reads this, entries
    {
      Stands(s) && WindowInv(s)
    }

    // ---- The ways a handler touches the log ----

    /** Where the entry of slot n is found. */
    lemma At(index: map<Digest, int>, slots: map<int, Entry>, n: int)
      requires Shape(index) && Coupled(slots) && lowWatermark <= n < lowWatermark + cfg.k
      ensures 0 <= n - lowWatermark < |log|
      ensures log[n - lowWatermark] == if n in objects then objects[n] else null
      ensures n in slots <==> n in objects
      ensures n in objects ==> objects[n] in entries && objects[n].slot == n && objects[n].Value() == slots[n]
    {
      assert log[n - lowWatermark] == if n in objects then objects[n] else null;
    }

    /** Where the entry of a digest is found. */
    lemma Tabled(s: State, d: Digest)
      requires Shape(s.index) && Coupled(s.slots)
      ensures d in digestToEntry <==> d in s.index
      ensures d in s.index ==>
                var n := s.index[d];
                n in objects && n in s.slots && digestToEntry[d] == objects[n] &&
                digestToEntry[d] in entries && digestToEntry[d].slot == n && digestToEntry[d].Value() == s.slots[n]
    {
    }

    lemma CoupledAt(slots: map<int, Entry>, n: int)
      requires Coupled(slots)
      ensures n in slots <==> n in objects
      ensures n in objects ==> objects[n] in entries && objects[n].slot == n && objects[n].Value() == slots[n]
    {
    }

    /** The entry of slot n was updated in place. */
    twostate lemma Updated(slots: map<int, Entry>, new n: int)
      requires old(Coupled(slots)) && n in objects && objects == old(objects) && entries == old(entries)
      requires forall o | o in old(entries) && o.slot != n :: unchanged(o)
      ensures Coupled(slots[n := objects[n].Value()])
    {
    }

    /** A new entry was put in slot n. */
    twostate lemma Added(index: map<Digest, int>, new slots: map<int, Entry>, new n: int)
      requires old(Shape(index)) && old(Coupled(slots)) && n !in old(objects) && n in objects && objects[n].slot == n
      requires lowWatermark == old(lowWatermark) && lowWatermark <= n && n < lowWatermark + cfg.k
      requires log == old(log)[n - lowWatermark := objects[n]] && digestToEntry == old(digestToEntry)
      requires objects == old(objects)[n := objects[n]] && entries == old(entries) + {objects[n]}
      requires forall o | o in old(entries) :: unchanged(o)
      ensures Shape(index) && Coupled(slots[n := objects[n].Value()])
    {
    }

    /** The entry of slot n was listed under digest d. */
    twostate lemma Listed(index: map<Digest, int>, new d: Digest, new n: int)
      requires old(Shape(index)) && n in objects && digestToEntry == old(digestToEntry)[d := objects[n]]
      requires lowWatermark == old(lowWatermark) && log == old(log) && objects == old(objects)
      ensures Shape(index[d := n])
    {
    }

    /** Give slot n an entry if it has none. */
    method AddEntry(n: int, m: Message, r: Request, ghost index: map<Digest, int>, ghost slots: map<int, Entry>)
      returns (entry: MessageInfo)
      requires Shape(index) && Coupled(slots) && lowWatermark <= n < lowWatermark + cfg.k
      modifies this`log, this`objects, this`entries
      ensures Shape(index) && Coupled(slots[n := entry.Value()])
      ensures n in objects && entry == objects[n] && entry in entries && entry.slot == n
      ensures entry.result == (n in slots && slots[n].result)
      ensures fresh(entries - old(entries)) && (entry in old(entries) || fresh(entry))
    {
      hide Shape, Coupled;
      At(index, slots, n);
      if log[n - lowWatermark] == null {
        entry := new MessageInfo(m, r, n);
        log := log[n - lowWatermark := entry];
        objects, entries := objects[n := entry], entries + {entry};
        Added(index, slots, n);
      } else {
        entry := log[n - lowWatermark];
        assert slots[n := entry.Value()] == slots;
      }
    }

    /** Make slot n hold a pre-prepared entry and list it. */
    method OpenSlot(n: int, m: Message, r: Request, prepares: map<int, Request>,
                    ghost index: map<Digest, int>, ghost slots: map<int, Entry>)
      requires Shape(index) && Coupled(slots) && lowWatermark <= n < lowWatermark + cfg.k
      modifies this`log, this`digestToEntry, this`objects, this`entries, entries
      ensures Shape(index[r.data.digest := n])
      ensures Coupled(slots[n := Entry(m, PrePrepared, n in slots && slots[n].result, r, prepares, map[])])
      ensures fresh(entries - old(entries))
    {
      hide Shape, Coupled;
      var entry := AddEntry(n, m, r, index, slots);
      ghost var before := slots[n := entry.Value()];
      label Opening:
      entry.Open(m, r, prepares);
      digestToEntry := digestToEntry[r.data.digest := entry];
      Updated@Opening(before, n);
      Listed@Opening(index, r.data.digest, n);
      assert before[n := entry.Value()] == slots[n := entry.Value()];
    }

    constructor (cfg: Config)
      requires cfg.k >= 1
      ensures Represents(Init(cfg)) && fresh(entries)
    {
      this.cfg := cfg;
      currentView, currentSequence := 1, -1;
      lowWatermark, highWatermark := 0, cfg.k - 1;
      log := seq(cfg.k, _ => null);
      digestToEntry := map[];
      lastExecuted, mode, lastProposedView := -1, Normal, 1;
      balances, checkpoints := cfg.initial, map[];
      lastStableSeqNum, lastStableDigest, lastStableState, lastStableProofs := -1, Blank, map[], map[];
      viewChangeMessages, awaitedDigests, armed := map[], {}, multiset{};
      sent := [];
      objects, entries := map[], {};
    }

    predicate IAmLeader()
      reads this`currentView
    {
      cfg.id == LeaderOf(cfg, currentView)
    }

    /** The entry is the one of its slot. */
    ghost predicate Placed(entry: MessageInfo)
      reads this`objects, this`entries
    {
      entry in entries && entry.slot in objects && objects[entry.slot] == entry
    }

    /** Send a message. */
    method Post(o: Output, ghost s: State)
      requires Stands(s)
      modifies this`sent
      ensures Stands(Emit(s, o))
    {
      hide Shape, Coupled;
      sent := sent + [o];
    }

    /** Send a message that carries this replica's signature on a context. */
    method Vote(o: Output, ghost data: Context, ghost s: State)
      requires Stands(s)
      modifies this`sent
      ensures Stands(Emit(s.(signed := s.signed + {data}), o))
    {
      hide Shape, Coupled;
      sent := sent + [o];
    }

    method NotifyClient(client: int, t: Transfer, ack: bool, ghost s: State)
      requires Stands(s)
      modifies this`sent
      ensures Stands(ReplicaState.NotifyClient(s, client, t, ack))
    {
      hide Stands;
      assert currentView == s.view && cfg == s.cfg by { Viewed(s); }
      Post(Notify(client, Response(t, ack, currentView, Signature(cfg.id, true))), s);
    }

    lemma Viewed(s: State)
      requires Stands(s)
      ensures currentView == s.view && cfg == s.cfg && currentSequence == s.current && mode == s.mode
      ensures lowWatermark == s.low && highWatermark == s.high && lastExecuted == s.lastExecuted &&
              balances == s.balances
    {
      hide Shape, Coupled;
    }

    /** Start the timer that waits for the last acknowledgements of slot n. */
    method Arm(n: int, ghost s: State)
      requires Stands(s)
      modifies this`armed
      ensures Stands(s.(armed := s.armed + multiset{n}))
    {
      hide Shape, Coupled;
      armed := armed + multiset{n};
    }

    /** One entry was replaced by its present contents. */
    twostate lemma Replaced(s: State, new entry: MessageInfo)
      requires old(Stands(s)) && Placed(entry) && unchanged(this)
      requires forall o | o in old(entries) && o != entry :: unchanged(o)
      ensures Stands(Put(s, entry.slot, entry.Value()))
    {
      hide Shape, Coupled;
      assert forall o | o in old(entries) && o.slot != entry.slot :: unchanged(o);
      Updated(s.slots, entry.slot);
    }

    // ---- Normal case ----

    method ProcessTransfer(m: Message, ghost s: State)
      requires Represents(s) && (Proposes(s, m) ==> s.current < s.high)
      modifies this, entries
      ensures Represents(ReplicaState.ProcessTransfer(s, m)) && fresh(entries - old(entries))
    {
      hide WindowInv, Shape, Coupled, Everyone, LeaderOf, ReplicaState.Propose, ReplicaState.Repropose,
           ReplicaState.NotifyClient;
      TransferInWindow(s, m);
      if mode == ViewChange || !m.sig.valid {
        return;
      }
      var digest := TransferDigest(m.data);
      Tabled(s, digest);
      var entry: MessageInfo? := if digest in digestToEntry then digestToEntry[digest] else null;
      if !IAmLeader() {
        if entry != null && entry.mstatus == Executed {
          NotifyClient(m.sig.signer, m.data, entry.result, s);
          return;
        }
        Forward(m, digest, s);
        return;
      }
      if entry != null && entry.mstatus == Executed {
        NotifyClient(m.sig.signer, m.data, entry.result, s);
      } else if entry != null {
        if entry.prePrepare.sig.signer != LeaderOf(cfg, currentView) && !cfg.byzantine {
          Repropose(m, entry, s);
        }
      } else {
        Propose(m, digest, s);
      }
    }

    /** Pass a transfer on to the leader and await its pre-prepare. */
    method Forward(m: Message, digest: Digest, ghost s: State)
      requires Stands(s)
      modifies this`sent, this`awaitedDigests
      ensures Stands(Emit(s, ForwardTransfer(LeaderOf(s.cfg, s.view), m)).(awaited := s.awaited + {digest}))
    {
      hide Shape, Coupled, LeaderOf;
      sent := sent + [ForwardTransfer(LeaderOf(cfg, currentView), m)];
      awaitedDigests := awaitedDigests + {digest};
    }

    /** Open the next slot for a new transfer. */
    method Propose(m: Message, digest: Digest, ghost s: State)
      requires Represents(s) && s.current < s.high && digest == TransferDigest(m.data)
      modifies this, entries
      ensures Stands(ReplicaState.Propose(s, m)) && fresh(entries - old(entries))
    {
      hide WindowInv, Stands, Everyone;
      Viewed(s);
      InRange(s);
      ghost var s1 := s.(current := s.current + 1);
      Count(s);
      Viewed(s1);
      var r := Sign(cfg, Context(currentView, currentSequence, digest));
      ghost var s2 := Fill(currentSequence, m, r, map[], s1);
      assert s2.slots[s1.current] == Entry(m, PrePrepared, false, Proposal(s, m), map[], map[]);
      Post(SendPrePrepare(PrePrepareRequest(r, m)), s2);
    }

    /** Take the next sequence number. */
    method Count(ghost s: State)
      requires Stands(s)
      modifies this`currentSequence
      ensures Stands(s.(current := s.current + 1))
    {
      hide Shape, Coupled;
      currentSequence := currentSequence + 1;
    }

    /** Make slot n hold a pre-prepared entry and list it. */
    method Fill(n: int, m: Message, r: Request, prepares: map<int, Request>, ghost s: State) returns (ghost t: State)
      requires Stands(s) && lowWatermark <= n < lowWatermark + cfg.k
      modifies this`log, this`digestToEntry, this`objects, this`entries, entries
      ensures t == s.(slots :=
                      s.slots[n := Entry(m, PrePrepared, n in s.slots && s.slots[n].result, r, prepares, map[])],
                      index := s.index[r.data.digest := n], signed := s.signed + {r.data})
      ensures Stands(t) && fresh(entries - old(entries))
    {
      hide Shape, Coupled;
      OpenSlot(n, m, r, prepares, s.index, s.slots);
      t := s.(slots := s.slots[n := Entry(m, PrePrepared, n in s.slots && s.slots[n].result, r, prepares, map[])],
              index := s.index[r.data.digest := n], signed := s.signed + {r.data});
    }

    /** Propose an inherited entry again in the current view. */
    method Repropose(m: Message, entry: MessageInfo, ghost s: State)
      requires Stands(s) && entry in entries && entry.slot in objects && objects[entry.slot] == entry
      modifies this`sent, entry
      ensures entry.slot in s.slots && Stands(ReplicaState.Repropose(s, m, entry.slot))
    {
      hide Everyone, Coupled, Shape;
      CoupledAt(s.slots, entry.slot);
      entry.prepareProofs, entry.commitProofs := map[], map[];
      entry.prePrepare := Sign(cfg, entry.prePrepare.data.(view := currentView));
      sent := sent + [SendPrePrepare(PrePrepareRequest(entry.prePrepare, m))];
      Updated(s.slots, entry.slot);
    }

    method ProcessPrePrepare(p: PrePrepareRequest, ghost s: State)
      requires Represents(s)
      modifies this, entries
      ensures Represents(ReplicaState.ProcessPrePrepare(s, p)) && fresh(entries - old(entries))
    {
      hide WindowInv, Shape, Coupled, Everyone, LeaderOf, Opened;
      PrePrepareInWindow(s, p);
      var data := p.r.data;
      if mode == ViewChange || p.r.sig.signer != LeaderOf(cfg, currentView) || !p.m.sig.valid {
        return;
      }
      if data.view != currentView || data.seqNum < lowWatermark || highWatermark < data.seqNum {
        return;
      }
      if data.digest != TransferDigest(p.m.data) {
        return;
      }
      InRange(s);
      At(s.index, s.slots, data.seqNum);
      var entry := log[data.seqNum - lowWatermark];
      if entry != null && data.view <= entry.prePrepare.data.view && data.digest != entry.prePrepare.data.digest {
        Notice(data, s);
        return;
      }
      AcceptPrePrepare(p, s);
    }

    /** A pre-prepare was seen for the digest and the slot. */
    method Notice(data: Context, ghost s: State)
      requires Stands(s)
      modifies this`awaitedDigests, this`currentSequence
      ensures Stands(s.(awaited := s.awaited - {data.digest}, current := Max(data.seqNum, s.current)))
    {
      hide Shape, Coupled;
      awaitedDigests := awaitedDigests - {data.digest};
      currentSequence := Max(data.seqNum, currentSequence);
    }

    /** Fill the slot, keep this replica's own vote, and send it to the leader. */
    method AcceptPrePrepare(p: PrePrepareRequest, ghost s: State)
      requires Represents(s) && PrePrepareOffered(s, p) && !SlotTaken(s, p.r.data)
      modifies this, entries
      ensures Stands(ReplicaState.ProcessPrePrepare(s, p)) && fresh(entries - old(entries))
    {
      hide WindowInv, Everyone, LeaderOf, PrePrepareOffered, SlotTaken, Stands;
      Viewed(s);
      assert lowWatermark <= p.r.data.seqNum < lowWatermark + cfg.k by { InRange(s); OfferedInWindow(s, p); }
      var own := Sign(cfg, p.r.data);
      Notice(p.r.data, s);
      ghost var s1 := s.(awaited := s.awaited - {p.r.data.digest}, current := Max(p.r.data.seqNum, s.current));
      Viewed(s1);
      ghost var s2 := Fill(p.r.data.seqNum, p.m, p.r, map[cfg.id := own], s1);
      Viewed(s2);
      if !cfg.byzantine {
        Post(SendPrePrepareOk(p.r.sig.signer, own), s2);
      }
    }

    /** The entry of slot n, if the log has one. */
    method EntryAt(n: int, ghost s: State) returns (entry: MessageInfo?)
      requires Represents(s) && InWindow(s, n)
      ensures entry != null <==> n in s.slots
      ensures entry != null ==> Placed(entry) && entry.slot == n && entry.Value() == s.slots[n]
    {
      hide WindowInv, Shape, Coupled;
      InRange(s);
      At(s.index, s.slots, n);
      entry := log[n - lowWatermark];
    }

    method ProcessPrePrepareOk(r: Request, ghost s: State)
      requires Represents(s) && (AckOffered(s, r) ==> Present(s, r.data.seqNum))
      modifies this`armed, entries
      ensures Represents(ReplicaState.ProcessPrePrepareOk(s, r))
    {
      hide WindowInv, Stands, LeaderOf, WithPrePrepareOk;
      Viewed(s);
      PrePrepareOkInWindow(s, r);
      if mode == ViewChange || !IAmLeader() || cfg.id !in r.sig.validFor {
        return;
      }
      var entry := EntryAt(r.data.seqNum, s);
      if entry.prePrepare.data.digest != r.data.digest {
        return;
      }
      label Counting:
      var raised := entry.CountPrePrepareOk(cfg, r);
      Replaced@Counting(s, entry);
      if raised {
        Arm(r.data.seqNum, Put(s, r.data.seqNum, entry.Value()));
      }
    }

    method ProcessPrepare(p: ProofRequest, ghost s: State)
      requires Represents(s)
      modifies this`sent, entries
      ensures Represents(ReplicaState.ProcessPrepare(s, p))
    {
      hide WindowInv, Stands, LeaderOf, WithPrepares, Everyone;
      Viewed(s);
      PrepareInWindow(s, p);
      if mode == ViewChange || cfg.byzantine || p.data.view != currentView {
        return;
      }
      var n := p.data.seqNum;
      if n < lowWatermark || highWatermark < n {
        return;
      }
      var entry := EntryAt(n, s);
      if entry == null || entry.mstatus != PrePrepared {
        return;
      }
      label Counting:
      var raised := entry.CountPrepares(cfg, p);
      Replaced@Counting(s, entry);
      if raised {
        Vote(SendPrepareOk(LeaderOf(cfg, currentView), Sign(cfg, p.data)), p.data, Put(s, n, entry.Value()));
      }
    }

    // ---- Execution and checkpoints ----

    /** Execute committed slots in order, stepping over empty ones, up to the first that is not committed. */
    method ExecutePending(ghost s: State)
      requires Represents(s)
      modifies this`lastExecuted, this`balances, this`sent, this`checkpoints, entries
      ensures Represents(ReplicaState.ExecutePending(s))
    {
      hide Stands, WindowInv, ExecuteOne;
      ghost var u := s;
      Viewed(s);
      InRange(s);
      var n := lastExecuted + 1;
      while n <= currentSequence
        invariant Represents(u) && u.current == s.current == currentSequence && u.low == s.low && u.lastExecuted < n
        invariant s.low <= n
        invariant ExecuteFrom(u, n) == ExecuteFrom(s, s.lastExecuted + 1)
        decreases currentSequence - n
      {
        InRange(u);
        var entry := EntryAt(n, u);
        if entry != null && entry.mstatus == Committed {
          ExecuteSlot(n, entry, u);
          ExecuteOneRan(u, n);
          u := ExecuteOne(u, n);
        } else if entry != null && entry.mstatus != Executed {
          break;
        }
        n := n + 1;
      }
    }

    method ExecuteSlot(n: int, entry: MessageInfo, ghost s: State)
      requires Represents(s) && Placed(entry) && entry.slot == n && n in s.slots && s.slots[n].status == Committed
      requires s.lastExecuted < n <= s.current
      modifies this`lastExecuted, this`balances, this`sent, this`checkpoints, entry
      ensures Represents(ExecuteOne(s, n))
    {
      hide Stands, WindowInv, Executed1, ReplicaState.Checkpoint, ExecuteOne;
      Viewed(s);
      ExecuteOneIs(s, n);
      ExecutedInWindow(s, n);
      ExecuteEntry(n, entry, s);
      Viewed(Executed1(s, n));
      assert Executed1(s, n).cfg == s.cfg by { Executed1Config(s, n); }
      if cfg.step > 0 && n % cfg.step == cfg.step - 1 {
        Checkpoint(Executed1(s, n));
      }
    }

    /** Settle the transfer and report its outcome. */
    method ExecuteEntry(n: int, entry: MessageInfo, ghost s: State)
      requires Stands(s) && Placed(entry) && entry.slot == n && n in s.slots
      modifies this`lastExecuted, this`balances, this`sent, entry
      ensures Stands(Executed1(s, n))
    {
      hide Stands, Apply;
      EntryValue(s, entry);
      ghost var e := s.slots[n];
      ghost var applied := Apply(s.balances, e.m.data);
      var ok := Settle(n, entry, s);
      EntryAfter(entry, e, ok);
      ghost var s1 := Put(s, n, e.(status := Executed, result := applied.ok)).(
        balances := applied.balances, lastExecuted := n, executed := s.executed + [Execution(n, e.m.data, applied.ok)]);
      NotifyClient(entry.m.sig.signer, entry.m.data, ok, s1);
    }

    lemma EntryValue(s: State, entry: MessageInfo)
      requires Stands(s) && Placed(entry)
      ensures entry.slot in s.slots && entry.Value() == s.slots[entry.slot]
    {
      hide Mirrors, Shape, Coupled;
      CoupledAt(s.slots, entry.slot);
    }

    lemma EntryAfter(entry: MessageInfo, e: Entry, ok: bool)
      requires entry.Value() == e.(status := Executed, result := ok)
      ensures entry.m == e.m
    {
    }

    method Settle(n: int, entry: MessageInfo, ghost s: State) returns (ok: bool)
      requires Stands(s) && Placed(entry) && entry.slot == n && n in s.slots
      modifies this`lastExecuted, this`balances, entry
      ensures var e, applied := s.slots[n], Apply(s.balances, s.slots[n].m.data);
              ok == applied.ok && entry.Value() == e.(status := Executed, result := ok) &&
              Stands(Put(s, n, e.(status := Executed, result := applied.ok)).(
                balances := applied.balances, lastExecuted := n,
                executed := s.executed + [Execution(n, e.m.data, applied.ok)]))
    {
      hide Stands, Apply;
      EntryValue(s, entry);
      Viewed(s);
      label Settling:
      entry.mstatus := Executed;
      ok := Transfer(entry.m.data);
      entry.result := ok;
      lastExecuted := n;
      SettledSlot@Settling(s, entry, ok);
    }

    twostate lemma SettledSlot(s: State, new entry: MessageInfo, new ok: bool)
      requires old(Stands(s)) && Placed(entry) && entry.slot in s.slots
      requires unchanged(`objects, `entries, `log, `digestToEntry, `currentView, `currentSequence, `lowWatermark,
                         `highWatermark)
      requires unchanged(`mode, `lastProposedView, `checkpoints, `lastStableSeqNum, `lastStableDigest, `lastStableState)
      requires unchanged(`lastStableProofs, `viewChangeMessages, `awaitedDigests, `armed, `sent)
      requires forall o | o in old(entries) && o != entry :: unchanged(o)
      requires entry.Value() == s.slots[entry.slot].(status := Executed, result := ok)
      requires Applied(balances, ok) == Apply(s.balances, s.slots[entry.slot].m.data) && lastExecuted == entry.slot
      ensures var e := s.slots[entry.slot];
              Stands(Put(s, entry.slot, e.(status := Executed, result := ok)).(
                balances := Apply(s.balances, e.m.data).balances, lastExecuted := entry.slot,
                executed := s.executed + [Execution(entry.slot, e.m.data, ok)]))
    {
      hide Shape, Coupled, Apply;
      assert forall o | o in old(entries) && o.slot != entry.slot :: unchanged(o);
      Updated(s.slots, entry.slot);
    }

    /** Move the amount if the sender has it; reading an absent account creates it. */
    method Transfer(t: Messages.Transfer) returns (ok: bool)
      modifies this`balances
      ensures Applied(balances, ok) == Apply(old(balances), t)
    {
      balances := Touch(balances, t.sender);
      ok := balances[t.sender] >= t.amount;
      if ok {
        balances := balances[t.sender := balances[t.sender] - t.amount];
        balances := Touch(balances, t.receiver);
        balances := balances[t.receiver := balances[t.receiver] + t.amount];
      }
    }

    /** Record the balances as a checkpoint and announce their digest. */
    method Checkpoint(ghost s: State)
      requires Stands(s) && s.balances.Keys != {}
      modifies this`checkpoints, this`sent
      ensures Stands(ReplicaState.Checkpoint(s))
    {
      hide Shape, Coupled, CheckpointText.Text;
      var info := if lastExecuted in checkpoints then checkpoints[lastExecuted]
                  else CheckpointInfo(map[], Blank, map[]);
      var text := CheckpointText.Print(balances);
      var digest := StateDigest(text);
      checkpoints := checkpoints[lastExecuted := CheckpointInfo(balances, digest, info.proofs)];
      sent := sent + [SendCheckpoint(CheckpointReq(CheckpointData(lastExecuted, digest), Signature(cfg.id, true)))];
    }

    method ProcessPrepareOk(r: Request, ghost s: State)
      requires Represents(s) && (AckOffered(s, r) ==> Present(s, r.data.seqNum))
      modifies this`lastExecuted, this`balances, this`sent, this`checkpoints, entries
      ensures Represents(ReplicaState.ProcessPrepareOk(s, r))
    {
      hide WindowInv, Stands, LeaderOf, WithPrepareOk, ReplicaState.ExecutePending, CommitProof;
      Viewed(s);
      PrepareOkInWindow(s, r);
      if mode == ViewChange || !IAmLeader() || cfg.id !in r.sig.validFor {
        return;
      }
      var n := r.data.seqNum;
      var entry := EntryAt(n, s);
      if entry.prePrepare.data.digest != r.data.digest {
        return;
      }
      label Counting:
      var raised := entry.CountPrepareOk(cfg, r);
      Replaced@Counting(s, entry);
      if raised {
        ghost var s1 := Put(s, n, entry.Value());
        PutInWindow(s, n, entry.Value()) by { SameProposal(s, n, r); }
        var commit := entry.Certificate();
        ExecutePending(s1);
        Post(SendCommit(commit), ReplicaState.ExecutePending(s1));
      }
    }

    method ProcessCommit(p: ProofRequest, ghost s: State)
      requires Represents(s)
      modifies this`lastExecuted, this`balances, this`sent, this`checkpoints, entries
      ensures Represents(ReplicaState.ProcessCommit(s, p))
    {
      hide WindowInv, Stands, WithCommits, ReplicaState.ExecutePending;
      Viewed(s);
      CommitInWindow(s, p);
      if mode == ViewChange || cfg.byzantine || p.data.view != currentView {
        return;
      }
      var n := p.data.seqNum;
      if n < lowWatermark || highWatermark < n {
        return;
      }
      var entry := EntryAt(n, s);
      if entry == null || (entry.mstatus != PrePrepared && entry.mstatus != Prepared) {
        return;
      }
      CountCommit(p, entry, s);
    }

    /** Count a commit certificate for an entry, and execute once it is committed. */
    method CountCommit(p: ProofRequest, entry: MessageInfo, ghost s: State)
      requires Represents(s) && Placed(entry) && entry.slot == p.data.seqNum && entry.slot in s.slots
      requires entry.mstatus == PrePrepared || entry.mstatus == Prepared
      modifies this`lastExecuted, this`balances, this`sent, this`checkpoints, entries
      ensures var n := p.data.seqNum;
              var s1 := Put(s, n, WithCommits(s.cfg, s.slots[n], p));
              Stands(if s1.slots[n].status == Committed then ReplicaState.ExecutePending(s1) else s1)
    {
      hide WindowInv, Stands, WithCommits, ReplicaState.ExecutePending;
      Viewed(s);
      EntryValue(s, entry);
      label Counting:
      var raised := entry.CountCommits(cfg, p);
      Replaced@Counting(s, entry);
      if raised {
        PutInWindow(s, entry.slot, entry.Value()) by { SameProposalToo(s, entry.slot, p); }
        ExecutePending(Put(s, entry.slot, entry.Value()));
      }
    }

    method OptimisticTimer(n: int, ghost s: State)
      requires Represents(s) && n in s.armed && (s.mode == Normal ==> Present(s, n))
      modifies this`armed, this`lastExecuted, this`balances, this`sent, this`checkpoints, entries
      ensures Represents(ReplicaState.OptimisticTimer(s, n))
    {
      hide WindowInv, Stands, WithOwnCommit, ReplicaState.ExecutePending, PrepareProofOf;
      Viewed(s);
      OptimisticTimerInWindow(s, n);
      if mode == ViewChange {
        Disarm(n, s);
        return;
      }
      var entry := EntryAt(n, s);
      var fast := |entry.prepareProofs| == 3 * cfg.f;
      var proof := entry.PrepareCertificate(cfg);
      var data := entry.prePrepare.data;
      label Committing:
      entry.AddOwnCommit(cfg);
      Replaced@Committing(s, entry);
      ghost var s1 := Put(s, n, entry.Value());
      Viewed(s1);
      Disarm(n, s1);
      ghost var s2 := s1.(armed := s.armed - multiset{n});
      if fast {
        Vote(SendCommit(proof), data, s2);
        assert WindowInv(Emit(s2.(signed := s2.signed + {data}), SendCommit(proof)))
               by { TimerStepInWindow(s, n, SendCommit(proof)); }
        ExecutePending(Emit(s2.(signed := s2.signed + {data}), SendCommit(proof)));
      } else {
        Vote(SendPrepare(proof), data, s2);
      }
    }

    method Disarm(n: int, ghost s: State)
      requires Stands(s)
      modifies this`armed
      ensures Stands(s.(armed := s.armed - multiset{n}))
    {
      hide Shape, Coupled;
      armed := armed - multiset{n};
    }

    // ---- Checkpoint messages and the sliding window ----

    method ProcessCheckpoint(c: CheckpointReq, ghost s: State)
      requires Represents(s) && (BecomesStable(s, c) ==> forall n | s.low <= n <= c.data.seqNum :: n in s.slots)
      modifies this
      ensures Represents(ReplicaState.ProcessCheckpoint(s, c)) && entries == old(entries)
    {
      hide Stands, WindowInv, DigestsUpTo, RecordCheckpoint;
      CheckpointInWindow(s, c);
      Checkpointed(s);
      var n := c.data.seqNum;
      if !c.sig.valid || n <= lastStableSeqNum {
        return;
      }
      if n in checkpoints && checkpoints[n].digest != c.data.digest {
        return;
      }
      var info := Recorded(c, s);
      if n <= lastExecuted && |info.proofs| >= 2 * cfg.f + 1 {
        Advance(n, info, s);
      } else {
        Record(n, info, s);
      }
    }

    method Recorded(c: CheckpointReq, ghost s: State) returns (info: CheckpointInfo)
      requires Stands(s)
      ensures info == RecordCheckpoint(s, c)
    {
      hide Stands;
      Checkpointed(s);
      var n := c.data.seqNum;
      info := if n in checkpoints then checkpoints[n] else CheckpointInfo(map[], Blank, map[]);
      info := info.(proofs := info.proofs[c.sig.signer := c]);
    }

    /** Make a checkpoint the stable one and move the window past it. */
    method Advance(n: int, info: CheckpointInfo, ghost s: State)
      requires Represents(s) && s.stableSeq < n <= s.lastExecuted && forall i | s.low <= i <= n :: i in s.slots
      modifies this
      ensures Stands(Stabilized(s, n, info).(low := n + 1, high := n + s.cfg.k, index := s.index - DigestsUpTo(s, n)))
      ensures entries == old(entries)
    {
      hide Stands, WindowInv, DigestsUpTo, Below;
      Viewed(s);
      StableRange(s, n);
      WindowBelow(s);
      Stabilize(n, info, s);
      ghost var s1 := Stabilized(s, n, info);
      Viewed(s1);
      assert Below(s1) && DigestsUpTo(s1, n) == DigestsUpTo(s, n) by { SameBelow(s, n, info); }
      Truncate(n, s1);
    }

    lemma Checkpointed(s: State)
      requires Stands(s)
      ensures cfg == s.cfg && lastStableSeqNum == s.stableSeq && checkpoints == s.checkpoints
      ensures lastExecuted == s.lastExecuted && lastStableDigest == s.stableDigest && lastStableProofs == s.stableProofs
    {
      hide Shape, Coupled;
    }

    /** Keep a checkpoint message. */
    method Record(n: int, info: CheckpointInfo, ghost s: State)
      requires Stands(s)
      modifies this`checkpoints
      ensures Stands(s.(checkpoints := s.checkpoints[n := info]))
    {
      hide Shape, Coupled;
      checkpoints := checkpoints[n := info];
    }

    /** Make a checkpoint the stable one. */
    method Stabilize(n: int, info: CheckpointInfo, ghost s: State)
      requires Stands(s)
      modifies this`lastStableSeqNum, this`lastStableDigest, this`lastStableState, this`lastStableProofs,
               this`checkpoints
      ensures Stands(Stabilized(s, n, info))
    {
      hide Stands;
      Adopt(n, info, s);
      Forget(n, s.(stableSeq := n, stableDigest := info.digest, stableState := info.state,
                   stableProofs := info.proofs));
    }

    method Adopt(n: int, info: CheckpointInfo, ghost s: State)
      requires Stands(s)
      modifies this`lastStableSeqNum, this`lastStableDigest, this`lastStableState, this`lastStableProofs
      ensures Stands(s.(stableSeq := n, stableDigest := info.digest, stableState := info.state,
                        stableProofs := info.proofs))
    {
      hide Stands;
      AdoptNumber(n, info, s);
      AdoptState(info, s.(stableSeq := n, stableDigest := info.digest));
    }

    method AdoptNumber(n: int, info: CheckpointInfo, ghost s: State)
      requires Stands(s)
      modifies this`lastStableSeqNum, this`lastStableDigest
      ensures Stands(s.(stableSeq := n, stableDigest := info.digest))
    {
      hide Shape, Coupled;
      lastStableSeqNum, lastStableDigest := n, info.digest;
    }

    method AdoptState(info: CheckpointInfo, ghost s: State)
      requires Stands(s)
      modifies this`lastStableState, this`lastStableProofs
      ensures Stands(s.(stableState := info.state, stableProofs := info.proofs))
    {
      hide Shape, Coupled;
      lastStableState, lastStableProofs := info.state, info.proofs;
    }

    method Forget(n: int, ghost s: State)
      requires Stands(s)
      modifies this`checkpoints
      ensures Stands(s.(checkpoints := s.checkpoints - {n}))
    {
      hide Shape, Coupled;
      checkpoints := checkpoints - {n};
    }

    /** Move the window past slot n: forget the digests up to it, drop its slots and add empty ones. */
    method Truncate(n: int, ghost s: State)
      requires Stands(s) && lowWatermark <= n < lowWatermark + cfg.k
      requires (forall i | lowWatermark <= i <= n :: i in s.slots) && Below(s)
      modifies this`lowWatermark, this`highWatermark, this`log, this`digestToEntry
      ensures Stands(s.(low := n + 1, high := n + s.cfg.k, index := s.index - DigestsUpTo(s, n)))
    {
      hide Shape, Coupled, DigestsUpTo, Below;
      DropSlots(n, s);
      lowWatermark, highWatermark := n + 1, n + 1 + cfg.k - 1;
      MovedShape(s, n);
    }

    method DropSlots(n: int, ghost s: State)
      requires Stands(s) && lowWatermark <= n < lowWatermark + cfg.k
      requires forall i | lowWatermark <= i <= n :: i in s.slots
      modifies this`log, this`digestToEntry
      ensures digestToEntry == old(digestToEntry) - DigestsUpTo(s, n)
      ensures n - lowWatermark + 1 <= |old(log)| == cfg.k
      ensures log == old(log)[n - lowWatermark + 1..] + seq(n - lowWatermark + 1, _ => null)
    {
      hide Stands, DigestsUpTo;
      Viewed(s);
      var toRemove := n - lowWatermark + 1;
      ghost var low := lowWatermark;
      InLog(s, n);
      forall i | 0 <= i < toRemove
        ensures log[i] != null
        ensures low + i in s.slots && log[i].prePrepare.data.digest == s.slots[low + i].prePrepare.data.digest
      {
        InLog(s, low + i);
      }
      DigestsNone(s, low - 1);
      for i := 0 to toRemove
        invariant log == old(log) && digestToEntry == old(digestToEntry) - DigestsUpTo(s, low + i - 1)
      {
        DigestsNext(s, low + i);
        digestToEntry := digestToEntry - {log[i].prePrepare.data.digest};
      }
      log := log[toRemove..];
      log := log + seq(toRemove, _ => null);
    }

    /** A present slot is in the vector. */
    lemma InLog(s: State, n: int)
      requires Stands(s) && lowWatermark <= n < lowWatermark + cfg.k && n in s.slots
      ensures |log| == cfg.k && log[n - lowWatermark] != null && log[n - lowWatermark].Value() == s.slots[n]
    {
      At(s.index, s.slots, n);
    }

    /** The window was moved past slot n. */
    twostate lemma MovedShape(s: State, new n: int)
      requires old(Shape(s.index)) && old(Coupled(s.slots)) && old(lowWatermark) == s.low && cfg == s.cfg && Below(s)
      requires s.low <= n && n < s.low + s.cfg.k && |old(log)| == cfg.k
      requires objects == old(objects) && lowWatermark == n + 1
      requires digestToEntry == old(digestToEntry) - DigestsUpTo(s, n)
      requires log == old(log)[n - s.low + 1..] + seq(n - s.low + 1, _ => null)
      ensures Shape(s.index - DigestsUpTo(s, n))
    {
      hide DigestsUpTo;
      var dropped := n - s.low + 1;
      assert |log| == cfg.k;
      forall i | 0 <= i < |log|
        ensures log[i] == if lowWatermark + i in objects then objects[lowWatermark + i] else null
      {
        if i < cfg.k - dropped {
          assert log[i] == old(log)[dropped + i];
          assert old(lowWatermark) + (dropped + i) == lowWatermark + i;
        } else {
          assert lowWatermark + i !in objects;
        }
      }
    }

    // ---- View changes ----

    /** The view change's checkpoint messages that verify and match its checkpoint. */
    method CountCheckpoints(c: CheckpointData, cproofs: seq<CheckpointReq>) returns (count: nat)
      ensures count == CheckpointCount(c, cproofs)
    {
      count := 0;
      for i := 0 to |cproofs|
        invariant count == CheckpointCount(c, cproofs[..i])
      {
        assert cproofs[..i + 1][..i] == cproofs[..i];
        if cproofs[i].data == c && cproofs[i].sig.valid {
          count := count + 1;
        }
      }
      assert cproofs[..|cproofs|] == cproofs;
    }

    method VerifyViewChange(vc: ViewChangeReq) returns (ok: bool)
      ensures ok == ReplicaState.VerifyViewChange(cfg, vc)
    {
      var d := vc.data;
      if !vc.sig.valid {
        return false;
      }
      var validCProofs := CountCheckpoints(d.lastCheckpoint, d.cproofs);
      if d.lastCheckpoint.seqNum != -1 && validCProofs < 2 * cfg.f + 1 {
        return false;
      }
      for i := 0 to |d.pproofs|
        invariant d.lastCheckpoint.seqNum != -1 ==>
                    forall j | 0 <= j < i ::
                      Selection.ValidCount(cfg.id, d.pproofs[j].prePrepare.data.digest,
                                           d.pproofs[j].prepares) >= 2 * cfg.f
      {
        var p := d.pproofs[i];
        var validPProofs := Selection.CountValid(cfg.id, p.prePrepare.data.digest, p.prepares);
        if d.lastCheckpoint.seqNum != -1 && validPProofs < 2 * cfg.f {
          return false;
        }
      }
      return true;
    }

    lemma NoProofs(s: State, from: int)
      ensures PreparedProofs(s, from, from) == []
    {
    }

    lemma OneMoreProof(s: State, from: int, n: int)
      requires from <= n
      ensures PreparedProofs(s, from, n + 1) ==
              PreparedProofs(s, from, n) +
              (if n in s.slots && AtLeastPrepared(s.slots[n])
               then [PrepareProof(s.slots[n].prePrepare, SortedValues(s.slots[n].prepares))] else [])
    {
      hide SortedValues;
    }

    method ComposeViewChangeRequest(view: int, ghost s: State) returns (vc: ViewChangeReq)
      requires Represents(s)
      ensures vc == Compose(s, view)
    {
      hide Stands, WindowInv, SortedValues, Mirrors, PreparedProofs;
      Viewed(s);
      Checkpointed(s);
      LowInWindow(s);
      NoProofs(s, s.stableSeq + 1);
      var offset := lastStableSeqNum - lowWatermark;
      var pproofs := [];
      for i := offset + 1 to cfg.k
        invariant pproofs == PreparedProofs(s, s.stableSeq + 1, s.low + i)
      {
        var entry := EntryAt(lowWatermark + i, s);
        OneMoreProof(s, s.stableSeq + 1, s.low + i);
        if entry != null && (entry.mstatus == Prepared || entry.mstatus == Committed || entry.mstatus == Executed) {
          pproofs := pproofs + [PrepareProof(entry.prePrepare, SortedValues(entry.prepareProofs))];
        }
      }
      var data := ViewChangeData(view, CheckpointData(lastStableSeqNum, lastStableDigest),
                                 SortedValues(lastStableProofs), pproofs);
      vc := ViewChangeReq(data, Signature(cfg.id, true));
    }

    method TriggerViewChange(view: int, ghost s: State)
      requires Represents(s)
      modifies this`mode, this`lastProposedView, this`sent
      ensures Stands(ReplicaState.TriggerViewChange(s, view))
    {
      hide Stands, WindowInv, Compose;
      var request := ComposeViewChangeRequest(view, s);
      Post(SendViewChange(request), s);
      Suspend(view, Emit(s, SendViewChange(request)));
    }

    /** Stop taking part in the view. */
    method Suspend(view: int, ghost s: State)
      requires Stands(s)
      modifies this`mode, this`lastProposedView
      ensures Stands(s.(mode := ViewChange, lastProposedView := view))
    {
      hide Shape, Coupled;
      mode, lastProposedView := ViewChange, view;
    }

    method ProcessViewChange(vc: ViewChangeReq, ghost s: State)
      requires Represents(s)
      modifies this`mode, this`lastProposedView, this`sent, this`viewChangeMessages, this`currentView
      ensures Represents(ReplicaState.ProcessViewChange(s, vc))
    {
      hide Stands, WindowInv, ReplicaState.VerifyViewChange, LeaderOf, ReplicaState.TriggerViewChange,
           ReplicaState.StartView, Received;
      ViewChangeInWindow(s, vc);
      Viewed(s);
      var ok := VerifyViewChange(vc);
      var newView := vc.data.view;
      if !ok || newView <= currentView {
        return;
      }
      var msgs := Store(vc, s);
      ghost var s1 := s.(viewChanges := s.viewChanges[newView := msgs]);
      Viewed(s1);
      ViewsInWindow(s, s1);
      if LeaderOf(cfg, newView) != cfg.id && |msgs| == cfg.f + 1 && mode != ViewChange {
        TriggerViewChange(newView, s1);
        return;
      }
      if !cfg.byzantine && LeaderOf(cfg, newView) == cfg.id && |msgs| == 2 * cfg.f {
        StartView(newView, msgs, s1);
      }
    }

    /** Keep a view change under its sender. */
    method Store(vc: ViewChangeReq, ghost s: State) returns (msgs: map<int, ViewChangeReq>)
      requires Stands(s)
      modifies this`viewChangeMessages
      ensures msgs == Received(s, vc) && Stands(s.(viewChanges := s.viewChanges[vc.data.view := msgs]))
    {
      hide Shape, Coupled;
      var view := vc.data.view;
      var known := if view in viewChangeMessages then viewChangeMessages[view] else map[];
      msgs := known[vc.sig.signer := vc];
      viewChangeMessages := viewChangeMessages[view := msgs];
    }

    /** Add this replica's own view change, enter the view as its leader and announce it. */
    method StartView(view: int, msgs: map<int, ViewChangeReq>, ghost s: State)
      requires Represents(s)
      modifies this`viewChangeMessages, this`mode, this`currentView, this`sent
      ensures Stands(ReplicaState.StartView(s, view, msgs))
    {
      hide Stands, WindowInv, Compose, Everyone, SignedBySelection, Selection.BigO, SortedValues;
      Viewed(s);
      var own := ComposeViewChangeRequest(view, s);
      var all := msgs[cfg.id := own];
      var vcs := SortedValues(all);
      assert all[cfg.id] in vcs;
      var bigO, lastStable, server := Selection.Select(cfg.id, cfg.f, Everyone(cfg), vcs);
      var nv := NewViewReq(view, vcs, bigO, Signature(cfg.id, true));
      Enter(view, all, SignedBySelection(bigO), s);
      Post(SendNewView(nv), s.(viewChanges := s.viewChanges[view := all], mode := Normal, view := view,
                               signed := s.signed + SignedBySelection(bigO)));
    }

    /** Enter a view. */
    method Enter(view: int, msgs: map<int, ViewChangeReq>, ghost votes: set<Context>, ghost s: State)
      requires Stands(s)
      modifies this`viewChangeMessages, this`mode, this`currentView
      ensures Stands(s.(viewChanges := s.viewChanges[view := msgs], mode := Normal, view := view,
                        signed := s.signed + votes))
    {
      hide Shape, Coupled;
      viewChangeMessages := viewChangeMessages[view := msgs];
      mode, currentView := Normal, view;
    }

    method CountValidViewChanges(vcs: seq<ViewChangeReq>) returns (count: nat)
      ensures count == ValidViewChanges(cfg, vcs)
    {
      hide ReplicaState.VerifyViewChange;
      count := 0;
      for i := 0 to |vcs|
        invariant count == ValidViewChanges(cfg, vcs[..i])
      {
        assert vcs[..i + 1][..i] == vcs[..i];
        var ok := VerifyViewChange(vcs[i]);
        if ok {
          count := count + 1;
        }
      }
      assert vcs[..|vcs|] == vcs;
    }

    /** The announced list has the selected contexts as far as it is compared. */
    method Agrees(bigO: seq<Request>, announced: seq<Request>) returns (ok: bool)
      requires |bigO| <= |announced| || !AgreeUpTo(bigO, announced)
      ensures ok == AgreeUpTo(bigO, announced)
    {
      for i := 0 to |bigO|
        invariant i <= |announced| && forall j | 0 <= j < i :: bigO[j].data == announced[j].data
      {
        if bigO[i].data != announced[i].data {
          return false;
        }
      }
      return true;
    }

    /** The view changes by sender. */
    method Indexed(vcs: seq<ViewChangeReq>) returns (msgs: map<int, ViewChangeReq>)
      ensures msgs == BySender(vcs)
    {
      msgs := map[];
      for i := 0 to |vcs|
        invariant msgs == BySender(vcs[..i])
      {
        assert vcs[..i + 1][..i] == vcs[..i];
        msgs := msgs[vcs[i].sig.signer := vcs[i]];
      }
      assert vcs[..|vcs|] == vcs;
    }

    method ProcessNewView(nv: NewViewReq, ghost s: State)
      requires Represents(s) && NewViewReadable(s, nv)
      modifies this`mode, this`sent, this`viewChangeMessages, this`currentView
      ensures Represents(ReplicaState.ProcessNewView(s, nv))
    {
      hide Stands, WindowInv, Everyone, SignedBySelection, Selection.BigO, ValidViewChanges, AgreeUpTo, BySender,
           Revotes, RevoteOuts;
      NewViewInWindow(s, nv);
      Viewed(s);
      if !nv.sig.valid || nv.view <= currentView {
        return;
      }
      var validViewChanges := CountValidViewChanges(nv.vproofs);
      if validViewChanges < 2 * cfg.f + 1 {
        return;
      }
      SomeViewChange(s.cfg, nv.vproofs);
      var bigO, lastStable, server := Selection.Select(cfg.id, cfg.f, Everyone(cfg), nv.vproofs);
      var agreed := Agrees(bigO, nv.prePrepares);
      if !agreed {
        Remembered(s, SignedBySelection(bigO));
        return;
      }
      var msgs := Indexed(nv.vproofs);
      ghost var votes := SignedBySelection(bigO) + Revotes(nv.prePrepares);
      Enter(nv.view, msgs, votes, s);
      ghost var s1 := s.(viewChanges := s.viewChanges[nv.view := msgs], mode := Normal, view := nv.view,
                         signed := s.signed + votes);
      Revote(nv.view, nv.prePrepares, s1);
      assert s.signed + SignedBySelection(bigO) + Revotes(nv.prePrepares) == s.signed + votes;
    }

    /** What this replica signs is not among its fields. */
    lemma Remembered(s: State, votes: set<Context>)
      requires Stands(s)
      ensures Stands(s.(signed := s.signed + votes))
    {
      hide Shape, Coupled;
    }

    /** Vote for every announced context. */
    method Revote(view: int, prePrepares: seq<Request>, ghost s: State)
      requires Stands(s)
      modifies this`sent
      ensures Stands(s.(sent := s.sent + RevoteOuts(s.cfg, view, prePrepares)))
    {
      hide Shape, Coupled, LeaderOf, Everyone;
      for i := 0 to |prePrepares|
        invariant sent == old(sent) + RevoteOuts(cfg, view, prePrepares)[..i]
      {
        sent := sent + [SendPrePrepareOk(LeaderOf(cfg, view), Sign(cfg, prePrepares[i].data))];
      }
      assert RevoteOuts(cfg, view, prePrepares)[..|prePrepares|] == RevoteOuts(cfg, view, prePrepares);
    }

    // ---- View-change timers ----

    method DigestTimer(digest: Digest, view: int, ghost s: State)
      requires Represents(s)
      modifies this`mode, this`lastProposedView, this`sent
      ensures Represents(ReplicaState.DigestTimer(s, digest, view))
    {
      hide Stands, WindowInv, LeaderOf, ReplicaState.TriggerViewChange;
      TimerInWindow(s, OnDigestTimer(digest, view));
      Viewed(s);
      TimersViewed(s);
      if (mode == Normal && view <= currentView) || (mode == ViewChange && view <= lastProposedView) {
        return;
      }
      if digest !in awaitedDigests || IAmLeader() {
        return;
      }
      TriggerViewChange(view, s);
    }

    lemma TimersViewed(s: State)
      requires Stands(s)
      ensures lastProposedView == s.lastProposedView && awaitedDigests == s.awaited
    {
      hide Shape, Coupled;
    }

    method SlotTimer(n: int, view: int, ghost s: State)
      requires Represents(s) && (!Settled(s, view) && s.lastExecuted < n ==> Present(s, n))
      modifies this`mode, this`lastProposedView, this`sent
      ensures Represents(ReplicaState.SlotTimer(s, n, view))
    {
      hide Stands, WindowInv, ReplicaState.TriggerViewChange;
      TimerInWindow(s, OnSlotTimer(n, view));
      Viewed(s);
      TimersViewed(s);
      if (mode == Normal && view <= currentView) || (mode == ViewChange && view <= lastProposedView) {
        return;
      }
      if n <= lastExecuted {
        return;
      }
      var entry := EntryAt(n, s);
      if entry.mstatus != Executed {
        TriggerViewChange(view, s);
      }
    }

    method ViewTimer(view: int, ghost s: State)
      requires Represents(s)
      modifies this`lastProposedView
      ensures Represents(ReplicaState.ViewTimer(s, view))
    {
      hide Stands, WindowInv;
      TimerInWindow(s, OnViewTimer(view));
      Viewed(s);
      TimersViewed(s);
      if mode == Normal || view <= lastProposedView {
        return;
      }
      ProposeView(view, s);
    }

    method ProposeView(view: int, ghost s: State)
      requires Stands(s)
      modifies this`lastProposedView
      ensures Stands(s.(lastProposedView := view))
    {
      hide Shape, Coupled;
      lastProposedView := view;
    }

    // ---- Every event ----

    /** The object refines the transition function: an enabled event takes what it stands for to the next state. */
    method Handle(e: Event, ghost s: State)
      requires Represents(s) && Enabled(s, e)
      modifies this, entries
      ensures Represents(Next(s, e)) && fresh(entries - old(entries))
    {
      hide Represents, ReplicaState.ProcessTransfer, ReplicaState.ProcessPrePrepare, ReplicaState.ProcessPrePrepareOk,
           ReplicaState.ProcessPrepare, ReplicaState.ProcessPrepareOk, ReplicaState.ProcessCommit,
           ReplicaState.ProcessViewChange, ReplicaState.ProcessNewView, ReplicaState.ProcessCheckpoint,
           ReplicaState.OptimisticTimer, ReplicaState.DigestTimer, ReplicaState.SlotTimer, ReplicaState.ViewTimer,
           NewViewReadable, BecomesStable, Proposes, AckOffered, Settled;
      match e
      case OnTransfer(m) => ProcessTransfer(m, s);
      case OnPrePrepare(p) => ProcessPrePrepare(p, s);
      case OnPrePrepareOk(r) => ProcessPrePrepareOk(r, s);
      case OnPrepare(p) => ProcessPrepare(p, s);
      case OnPrepareOk(r) => ProcessPrepareOk(r, s);
      case OnCommit(p) => ProcessCommit(p, s);
      case OnViewChange(vc) => ProcessViewChange(vc, s);
      case OnNewView(nv) => ProcessNewView(nv, s);
      case OnCheckpoint(c) => ProcessCheckpoint(c, s);
      case OnOptimisticTimer(n) => OptimisticTimer(n, s);
      case OnDigestTimer(digest, view) => DigestTimer(digest, view, s);
      case OnSlotTimer(n, view) => SlotTimer(n, view, s);
      case OnViewTimer(view) => ViewTimer(view, s);
    }

    /** Whatever list of enabled events the object handles, it ends up standing for the state that the run of them
        reaches. */
    method Serve(es: seq<Event>, ghost s: State)
      requires Represents(s) && Run(s, es).Some?
      modifies this, entries
      ensures Represents(Run(s, es).value) && fresh(entries - old(entries))
    {
      hide Represents, Next, Enabled;
      assert es[..|es|] == es;
      for i := 0 to |es|
        invariant Run(s, es[..i]).Some? && Represents(Run(s, es[..i]).value)
        invariant fresh(entries - old(entries))
      {
        RunPrefix(s, es, i + 1);
        assert es[..i + 1][..i] == es[..i];
        Handle(es[i], Run(s, es[..i]).value);
      }
    }
  }
}
