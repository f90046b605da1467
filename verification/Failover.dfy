/** A silent leader is replaced, for any number of faults: the backups that forwarded a request time out, the next
    leader collects their view changes one at a time, announces the view with the last it needs, and everyone enters
    it. */
module Failover {
  import opened Messages
  import opened Quorum
  import opened ReplicaState
  import opened Change
  import opened Window
  import opened ViewChanges
  import opened Timeouts
  import opened Takeover
  import opened Uniqueness
  import Selection

  // ---- A backup that times out ----

  /** What replica r asks for view 2 with when nothing has happened yet. */
  function Plea(r: int): ViewChangeReq {
    ViewChangeReq(ViewChangeData(2, CheckpointData(-1, Blank), [], []), Signature(r, true))
  }

  /** Replica r gets m from the client, forwards it, hears nothing and times out. */
  function Waited(m: Message): seq<Event> {
    [OnTransfer(m), OnDigestTimer(TransferDigest(m.data), 2)]
  }

  lemma {:induction false} NoProofs(s: State, from: int, until: int)
    requires s.slots == map[]
    ensures PreparedProofs(s, from, until) == []
    decreases until - from
  {
    if from < until {
      NoProofs(s, from, until - 1);
    }
  }

  lemma PleaIs(s: State)
    requires s.slots == map[] && s.stableSeq == -1 && s.stableDigest == Blank && s.stableProofs == map[]
    ensures Compose(s, 2) == Plea(s.cfg.id)
  {
    NoProofs(s, s.stableSeq + 1, s.low + s.cfg.k);
  }

  lemma Leaders(f: nat)
    requires f >= 1
    ensures 1 % (3 * f + 1) == 1 && 2 % (3 * f + 1) == 2
  {
    Below(1, 3 * f + 1);
    Below(2, 3 * f + 1);
  }

  lemma Below(k: int, n: int)
    requires 0 <= k < n
    ensures k % n == k
  {
  }

  /** A replica that has asked for view 2 and done nothing else but forward. */
  ghost predicate TimedOut(s: State, f: nat, r: int) {
    s.cfg == One(f, r) && s.view == 1 && s.mode == ViewChange && s.slots == map[] && s.index == map[] &&
    s.stableSeq == -1 && s.stableDigest == Blank && s.stableProofs == map[] && s.current == -1 && s.high == 19 &&
    SendViewChange(Plea(r)) in s.sent
  }

  lemma TimesOut(f: nat, r: int, m: Message)
    requires f >= 1 && m.sig.valid && r != 1
    ensures var s := Run(Init(One(f, r)), Waited(m));
            s.Some? && TimedOut(s.value, f, r)
  {
    hide Next, Enabled, Compose;
    Leaders(f);
    var s0 := Init(One(f, r));
    var first, second := OnTransfer(m), OnDigestTimer(TransferDigest(m.data), 2);
    assert Forwards(s0, first) && Enabled(s0, first) by { FreshForwards(f, r, m); }
    ForwardsToLeader(s0, first);
    var s1 := Next(s0, first);
    DigestTimerIs(s1, TransferDigest(m.data));
    PleaIs(s1);
    assert Waited(m)[..1] == [first] && [first][..0] == [];
    assert Run(s0, [first]) == Some(s1);
  }

  lemma FreshForwards(f: nat, r: int, m: Message)
    requires f >= 1 && m.sig.valid && r != 1
    ensures Forwards(Init(One(f, r)), OnTransfer(m)) && Enabled(Init(One(f, r)), OnTransfer(m))
  {
    Leaders(f);
  }

  lemma DigestTimerIs(s: State, d: Digest)
    requires s.mode == Normal && s.view == 1 && d in s.awaited && s.cfg.id != 1 % (3 * s.cfg.f + 1)
    ensures Enabled(s, OnDigestTimer(d, 2))
    ensures Next(s, OnDigestTimer(d, 2)) ==
            s.(mode := ViewChange, lastProposedView := 2, sent := s.sent + [SendViewChange(Compose(s, 2))])
  {
    hide Compose;
  }

  // ---- The next leader ----

  /** The pleas of the first k of the given replicas arrive, one at a time. */
  function Pleas(senders: seq<int>, k: nat): seq<Event>
    requires k <= |senders|
  {
    seq(k, i requires 0 <= i < k => OnViewChange(Plea(senders[i])))
  }

  predicate Distinct(senders: seq<int>) {
    forall i, j | 0 <= i < j < |senders| :: senders[i] != senders[j]
  }

  function Firsts(senders: seq<int>, k: nat): set<int>
    requires k <= |senders|
  {
    set i | 0 <= i < k :: senders[i]
  }

  lemma {:induction false} FirstsSize(senders: seq<int>, k: nat)
    requires k <= |senders| && Distinct(senders)
    ensures |Firsts(senders, k)| == k
  {
    if k > 0 {
      FirstsSize(senders, k - 1);
      assert senders[k - 1] !in Firsts(senders, k - 1);
      assert Firsts(senders, k) == Firsts(senders, k - 1) + {senders[k - 1]};
    }
  }

  lemma PleaVerifies(cfg: Config, r: int)
    ensures VerifyViewChange(cfg, Plea(r))
  {
  }

  /** What the leader of view 2 has handled when k pleas have arrived. */
  function LeaderRun(m: Message, senders: seq<int>, k: nat): seq<Event>
    requires k <= |senders|
  {
    Waited(m) + Pleas(senders, k)
  }

  lemma LeaderRunNext(m: Message, senders: seq<int>, k: nat)
    requires 0 < k <= |senders|
    ensures LeaderRun(m, senders, k) == LeaderRun(m, senders, k - 1) + [OnViewChange(Plea(senders[k - 1]))]
    ensures LeaderRun(m, senders, k)[..|LeaderRun(m, senders, k)| - 1] == LeaderRun(m, senders, k - 1)
  {
  }

  lemma {:induction false} LatestPleas(cfg: Config, m: Message, senders: seq<int>, k: nat)
    requires k <= |senders|
    ensures Latest(cfg, LeaderRun(m, senders, k), 2).Keys == Firsts(senders, k)
    ensures forall p | p in Latest(cfg, LeaderRun(m, senders, k), 2) ::
            Latest(cfg, LeaderRun(m, senders, k), 2)[p] == Plea(p)
  {
    if k == 0 {
      assert LeaderRun(m, senders, 0) == Waited(m) && Waited(m)[..1][..0] == [];
      assert Latest(cfg, Waited(m)[..1], 2) == map[];
    } else {
      LatestPleas(cfg, m, senders, k - 1);
      LeaderRunNext(m, senders, k);
      PleaVerifies(cfg, senders[k - 1]);
      assert Firsts(senders, k) == Firsts(senders, k - 1) + {senders[k - 1]};
    }
  }

  /** A view change leaves log, table and checkpoints alone. */
  lemma Untouched(s: State, vc: ViewChangeReq)
    ensures var t := ProcessViewChange(s, vc);
            t.cfg == s.cfg && t.slots == s.slots && t.index == s.index && t.stableSeq == s.stableSeq &&
            t.stableDigest == s.stableDigest && t.stableProofs == s.stableProofs && t.current == s.current &&
            t.high == s.high && s.sent <= t.sent
  {
    hide ProcessViewChange, ViewChangeChange;
    ViewChangeMade(s, vc);
    ViewChangeQuiet(s, vc);
  }

  lemma StaysTimedOut(s: State, f: nat, r: int, vc: ViewChangeReq)
    requires TimedOut(s, f, r) && Stays(s, ProcessViewChange(s, vc))
    ensures TimedOut(ProcessViewChange(s, vc), f, r)
  {
    hide ProcessViewChange;
    Untouched(s, vc);
  }

  /** Fewer than 2f pleas leave the next leader waiting. */
  lemma {:induction false} LeaderWaits(f: nat, m: Message, senders: seq<int>, k: nat)
    requires f >= 1 && m.sig.valid && |senders| == 2 * f && Distinct(senders) && k < 2 * f
    ensures var s := Run(Init(One(f, 2)), LeaderRun(m, senders, k));
            s.Some? && TimedOut(s.value, f, 2)
  {
    hide Run, Init, Next, Enabled, VerifyViewChange, ProcessViewChange, Stays, TimedOut, Distinct, Announced, Latest;
    Leaders(f);
    if k == 0 {
      assert LeaderRun(m, senders, 0) == Waited(m);
      TimesOut(f, 2, m);
    } else {
      LeaderWaits(f, m, senders, k - 1);
      var front, vc := LeaderRun(m, senders, k - 1), Plea(senders[k - 1]);
      var s := Run(Init(One(f, 2)), front).value;
      LeaderRunNext(m, senders, k);
      RunSnoc(Init(One(f, 2)), LeaderRun(m, senders, k), vc);
      PleaVerifies(One(f, 2), senders[k - 1]);
      LatestPleas(One(f, 2), m, senders, k);
      FirstsSize(senders, k);
      ViewChangeExactly(One(f, 2), front, vc);
      StaysTimedOut(s, f, 2, vc) by { TimedOutView(s, f, 2); }
    }
  }

  lemma TimedOutView(s: State, f: nat, r: int)
    requires TimedOut(s, f, r)
    ensures s.view == 1 && s.cfg == One(f, r)
  {
  }

  lemma RunSnoc(s: State, es: seq<Event>, vc: ViewChangeReq)
    requires es != [] && es[|es| - 1] == OnViewChange(vc) && Run(s, es[..|es| - 1]).Some?
    ensures Enabled(Run(s, es[..|es| - 1]).value, OnViewChange(vc))
    ensures Next(Run(s, es[..|es| - 1]).value, OnViewChange(vc)) == ProcessViewChange(Run(s, es[..|es| - 1]).value, vc)
    ensures Run(s, es) == Some(ProcessViewChange(Run(s, es[..|es| - 1]).value, vc))
  {
    hide ProcessViewChange;
  }

  /** The state of the next leader before the last plea it needs. */
  function AlmostThere(f: nat, m: Message, senders: seq<int>): seq<Event>
    requires f >= 1 && |senders| == 2 * f
  {
    LeaderRun(m, senders, 2 * f - 1)
  }

  /** The last plea starts the view. */
  lemma LeaderStarts(f: nat, m: Message, senders: seq<int>) returns (s: State, nv: NewViewReq)
    requires f >= 1 && m.sig.valid && |senders| == 2 * f && Distinct(senders) && 2 !in senders
    ensures Run(Init(One(f, 2)), AlmostThere(f, m, senders)) == Some(s) && TimedOut(s, f, 2)
    ensures var vc := Plea(senders[2 * f - 1]);
            var t := ProcessViewChange(s, vc);
            Run(Init(One(f, 2)), LeaderRun(m, senders, 2 * f)) == Some(t) && Starts(s, vc) && nv == Started(s, vc) &&
            t.view == 2 && t.mode == Normal && SendNewView(nv) in t.sent && 2 !in Received(s, vc) &&
            forall p | p in Received(s, vc) :: Received(s, vc)[p] == Plea(p)
  {
    hide Run, Init, Next, Enabled, VerifyViewChange, ProcessViewChange, Stays, TimedOut, Distinct, Latest, Received,
         Started, AnnouncesIn;
    var k := 2 * f;
    Leaders(f);
    LeaderWaits(f, m, senders, k - 1);
    var front, vc := AlmostThere(f, m, senders), Plea(senders[k - 1]);
    s := Run(Init(One(f, 2)), front).value;
    TimedOutView(s, f, 2);
    LeaderRunNext(m, senders, k);
    RunSnoc(Init(One(f, 2)), LeaderRun(m, senders, k), vc);
    PleaVerifies(One(f, 2), senders[k - 1]);
    LatestPleas(One(f, 2), m, senders, k);
    FirstsSize(senders, k);
    ViewChangeExactly(One(f, 2), front, vc);
    CollectedExactly(One(f, 2), front, 2);
    ReceivedLatest(One(f, 2), s, front, vc);
    assert |Received(s, vc)| == |Received(s, vc).Keys|;
    nv := Started(s, vc);
    ViewChangeMade(s, vc);
    StartedSent(s, vc);
  }

  // ---- Everyone enters the view ----

  lemma {:induction false} NothingProved(vcs: seq<ViewChangeReq>)
    requires forall v | v in vcs :: v.data.pproofs == []
    ensures Selection.Proofs(vcs) == []
  {
    if vcs != [] {
      NothingProved(vcs[..|vcs| - 1]);
    }
  }

  lemma PleasProveNothing(s: State, vc: ViewChangeReq)
    requires Compose(s, vc.data.view) == Plea(s.cfg.id)
    requires forall p | p in Received(s, vc) :: Received(s, vc)[p] == Plea(p)
    ensures Selection.Proofs(Started(s, vc).vproofs) == []
  {
    hide Compose, Received, BigO, SortedValues;
    var all := WithOwnViewChange(s, vc);
    forall v | v in Started(s, vc).vproofs
      ensures v.data.pproofs == []
    {
      var k :| k in all && all[k] == v;
      assert v == Plea(k);
    }
    NothingProved(Started(s, vc).vproofs);
  }

  lemma BackupEnters(s: State, f: nat, senders: seq<int>, vc: ViewChangeReq, t: State, r: int)
    requires f >= 1 && StoredInv(s) && TimedOut(s, f, 2) && Starts(s, vc) && vc.data.view == 2 && 2 !in Received(s, vc)
    requires forall p | p in Received(s, vc) :: Received(s, vc)[p] == Plea(p)
    requires TimedOut(t, f, r)
    ensures Enabled(t, OnNewView(Started(s, vc)))
    ensures var u := Next(t, OnNewView(Started(s, vc)));
            u.view == 2 && u.mode == Normal
  {
    hide StoredInv, Starts, Received, Started, Compose, VerifyViewChange, ProcessNewView, ProcessViewChange,
         NewViewReadable, NewViewAccepted, Selection.Proofs;
    PleaIs(s);
    PleasProveNothing(s, vc);
    PleaVerifies(t.cfg, 2);
    LeaderNewViewAccepted(s, vc, t);
  }

  /** The new leader takes up the request. */
  lemma LeaderResumes(s: State, f: nat, vc: ViewChangeReq, m: Message)
    requires f >= 1 && TimedOut(s, f, 2) && m.sig.valid
    requires var t := ProcessViewChange(s, vc);
             t.view == 2 && t.mode == Normal
    ensures var t := ProcessViewChange(s, vc);
            Enabled(t, OnTransfer(m)) &&
            exists p: PrePrepareRequest ::
              SendPrePrepare(p) in Next(t, OnTransfer(m)).sent && p.m == m && p.r.sig.signer == 2 &&
              p.r.data == Context(2, 0, TransferDigest(m.data))
  {
    hide ProcessViewChange;
    Leaders(f);
    Untouched(s, vc);
    ResumesFrom(ProcessViewChange(s, vc), f, m);
  }

  lemma ResumesFrom(t: State, f: nat, m: Message)
    requires f >= 1 && t.cfg == One(f, 2) && t.view == 2 && t.mode == Normal && t.index == map[] && t.current == -1
    requires t.high == 19 && m.sig.valid
    ensures Enabled(t, OnTransfer(m)) &&
            exists p: PrePrepareRequest ::
              SendPrePrepare(p) in Next(t, OnTransfer(m)).sent && p.m == m && p.r.sig.signer == 2 &&
              p.r.data == Context(2, 0, TransferDigest(m.data))
  {
    hide Ids;
    Leaders(f);
    var p := PrePrepareRequest(Proposal(t, m), m);
    assert SendPrePrepare(p) in Next(t, OnTransfer(m)).sent;
  }

  /** Replica r, having asked for view 2. */
  ghost predicate AsksFor2(f: nat, m: Message, r: int) {
    var s := Run(Init(One(f, r)), Waited(m));
    s.Some? && s.value.mode == ViewChange && SendViewChange(Plea(r)) in s.value.sent
  }

  /** Replica r, having asked for view 2, enters it on that announcement. */
  ghost predicate EntersOn(f: nat, m: Message, r: int, nv: NewViewReq) {
    var s := Run(Init(One(f, r)), Waited(m));
    s.Some? && Enabled(s.value, OnNewView(nv)) && Next(s.value, OnNewView(nv)).view == 2 &&
    Next(s.value, OnNewView(nv)).mode == Normal
  }

  /** For every f: the leader of view 1 never says a word about a request. Every other replica that forwarded it times
      out and asks for view 2. The view changes of any 2f of them, delivered one at a time, leave replica 2 waiting
      until the last, on which it announces the view; whichever replica asked enters it on that announcement, and
      replica 2 proposes the request. */
  lemma SilentLeaderOvercome(f: nat, m: Message, senders: seq<int>) returns (leader: State, nv: NewViewReq)
    requires f >= 1 && m.sig.valid && |senders| == 2 * f && Distinct(senders) && 2 !in senders
    ensures forall r | r != 1 :: AsksFor2(f, m, r)
    ensures forall k | 0 <= k < 2 * f ::
              var s := Run(Init(One(f, 2)), LeaderRun(m, senders, k));
              s.Some? && s.value.view == 1 && s.value.mode == ViewChange
    ensures Run(Init(One(f, 2)), LeaderRun(m, senders, 2 * f)) == Some(leader) && leader.view == 2 &&
            leader.mode == Normal && SendNewView(nv) in leader.sent
    ensures forall r | r != 1 && r != 2 :: EntersOn(f, m, r, nv)
    ensures Enabled(leader, OnTransfer(m)) &&
            exists p: PrePrepareRequest ::
              SendPrePrepare(p) in Next(leader, OnTransfer(m)).sent && p.m == m && p.r.sig.signer == 2 &&
              p.r.data == Context(2, 0, TransferDigest(m.data))
  {
    hide Run, Init, Next, Enabled, ProcessViewChange, Starts, Started, Received, LeaderRun, Plea, Waited, Distinct;
    var s;
    s, nv := LeaderStarts(f, m, senders);
    var vc := Plea(senders[2 * f - 1]);
    leader := ProcessViewChange(s, vc);
    LeaderResumes(s, f, vc, m);
    StoredAlways(One(f, 2), AlmostThere(f, m, senders));
    forall r | r != 1
      ensures AsksFor2(f, m, r) && EntersOn(f, m, r, nv)
    {
      TimesOut(f, r, m);
      BackupEnters(s, f, senders, vc, Run(Init(One(f, r)), Waited(m)).value, r) by { PleaView(senders[2 * f - 1]); }
    }
    forall k | 0 <= k < 2 * f
      ensures var u := Run(Init(One(f, 2)), LeaderRun(m, senders, k));
              u.Some? && u.value.view == 1 && u.value.mode == ViewChange
    {
      LeaderWaits(f, m, senders, k);
    }
  }

  lemma PleaView(r: int)
    ensures Plea(r).data.view == 2
  {
  }
}
