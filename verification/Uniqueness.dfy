/** Prepared is not unique, for any number of faults: the bound on stored signers above which slots agree is the
    least. */
module Uniqueness {
  import opened Messages
  import opened Quorum
  import opened ReplicaState
  import opened OneView
  import opened Agreement
  import opened Scenario

  /** One of 3f + 1 replicas, of which the first 2f + 1 are correct. */
  function One(f: nat, id: int): Config {
    Config(id, f, 20, 10, false, map["A" := 10, "B" := 10])
  }

  function Correct(f: nat): set<int> {
    Ids(2 * f + 1)
  }

  /** The first f + 1 replicas get one request for slot 0, the other correct ones another. */
  function Told(f: nat, id: int): Message {
    if id <= f then ONE else TWO
  }

  function Span(from: nat, until: nat): set<int> {
    Ids(until) - Ids(from)
  }

  lemma SpanSize(from: nat, until: nat)
    requires from <= until
    ensures |Span(from, until)| == until - from
  {
    hide Ids;
    assert Ids(until) == Span(from, until) + Ids(from);
  }

  lemma InSpan(k: int, from: nat, until: nat)
    ensures k in Span(from, until) <==> from <= k < until
  {
  }

  lemma LeaderIs(f: nat, id: int)
    requires f >= 1
    ensures LeaderOf(One(f, id), 1) == 1
  {
    Remainder(3 * f + 1);
  }

  lemma Remainder(n: int)
    requires n > 1
    ensures 1 % n == 1
  {
  }

  lemma ClusterOf(f: nat)
    requires f >= 1
    ensures Cluster(One(f, 0), Correct(f)) && 1 in Correct(f)
    ensures forall id :: LeaderOf(One(f, id), 1) == 1 && Everyone(One(f, id)) == Ids(3 * f + 1)
  {
    hide Ids, LeaderOf;
    SpanSize(2 * f + 1, 3 * f + 1);
    forall id
      ensures LeaderOf(One(f, id), 1) == 1
    {
      LeaderIs(f, id);
    }
  }

  /** A replica that accepted what it was told for slot 0. */
  predicate Took(s: State, f: nat, id: int) {
    Steady(s) && s.cfg == One(f, id) && s.low == 0 && s.high == 19 && 0 in s.slots &&
    s.slots[0].status == PrePrepared && s.slots[0].prePrepare.data == Slot(0, Told(f, id)) &&
    s.slots[0].prepares.Keys == {id} && s.signed == {Slot(0, Told(f, id))}
  }

  lemma Takes(f: nat, id: int)
    requires f >= 1
    ensures var s, e := Init(One(f, id)), OnPrePrepare(Unsigned(0, Told(f, id)));
            Enabled(s, e) && Next(s, e).view == s.view && Took(Next(s, e), f, id)
  {
    hide Next, Enabled, Opened, Everyone, LeaderOf, Sign, Cluster;
    ClusterOf(f);
    var s := Init(One(f, id));
    assert Steady(s) && s.cfg == One(f, id) && s.slots == map[] && s.low == 0 && s.high == 19 && s.signed == {};
    Accepts(s, Unsigned(0, Told(f, id)));
  }

  /** The first k replicas have accepted, the rest have not moved. */
  ghost predicate UpTo(sys: Sys, f: nat, k: int) {
    Reachable(sys, One(f, 0), Correct(f), ANYONE) && sys.replicas.Keys == Correct(f) &&
    forall i | i in Correct(f) :: if i < k then Took(sys.replicas[i], f, i) else sys.replicas[i] == Init(One(f, i))
  }

  lemma {:induction false} AllTake(f: nat, k: nat) returns (sys: Sys)
    requires f >= 1 && k <= 2 * f + 1
    ensures UpTo(sys, f, k)
  {
    hide Init, Next, Enabled, Cluster, Reachable, Start, Took, Authentic, VotesOf;
    if k == 0 {
      ClusterOf(f);
      Begin(One(f, 0), Correct(f));
      sys := Start(One(f, 0), Correct(f));
    } else {
      var before := AllTake(f, k - 1);
      Takes(f, k - 1);
      var e := OnPrePrepare(Unsigned(0, Told(f, k - 1)));
      Unbinding(before.replicas[k - 1].cfg, VotesOf(before), e);
      Go(before, One(f, 0), Correct(f), k - 1, e);
      sys := At(before, k - 1, e);
    }
  }

  // ---- Certificates ----

  function Signatures(f: nat, from: nat, until: nat): seq<SignatureVec>
    requires from <= until
  {
    seq(until - from, i requires 0 <= i < until - from => SignatureVec(from + i, Ids(3 * f + 1)))
  }

  lemma SignaturesOf(f: nat, from: nat, until: nat, sig: SignatureVec)
    requires from <= until
    ensures sig in Signatures(f, from, until) <==> from <= sig.signer < until && sig.validFor == Ids(3 * f + 1)
  {
    if from <= sig.signer < until && sig.validFor == Ids(3 * f + 1) {
      assert Signatures(f, from, until)[sig.signer - from] == sig;
    }
  }

  /** The faulty replicas' signatures with those of the correct ones in the given range. */
  function Proof(f: nat, m: Message, from: nat, until: nat): ProofRequest
    requires from <= until
  {
    ProofRequest(Slot(0, m), Signatures(f, from, until) + Signatures(f, 2 * f + 1, 3 * f + 1))
  }

  lemma ProofSigners(f: nat, m: Message, from: nat, until: nat, me: int)
    requires from <= until && me in Ids(3 * f + 1)
    ensures Countable(me, Proof(f, m, from, until).sigs) == Span(from, until) + Span(2 * f + 1, 3 * f + 1)
    ensures forall sig | sig in Proof(f, m, from, until).sigs ::
              from <= sig.signer < until || 2 * f + 1 <= sig.signer < 3 * f + 1
  {
    hide Signatures, Span, Ids;
    var sigs := Proof(f, m, from, until).sigs;
    forall sig | sig in sigs
      ensures from <= sig.signer < until || 2 * f + 1 <= sig.signer < 3 * f + 1
    {
      SignaturesOf(f, from, until, sig);
      SignaturesOf(f, 2 * f + 1, 3 * f + 1, sig);
    }
    var signers := Span(from, until) + Span(2 * f + 1, 3 * f + 1);
    forall k
      ensures k in signers <==> from <= k < until || 2 * f + 1 <= k < 3 * f + 1
    {
      InSpan(k, from, until);
      InSpan(k, 2 * f + 1, 3 * f + 1);
    }
    forall k | k in signers
      ensures k in Countable(me, sigs)
    {
      var sig := SignatureVec(k, Ids(3 * f + 1));
      SignaturesOf(f, from, until, sig);
      SignaturesOf(f, 2 * f + 1, 3 * f + 1, sig);
      assert sig in sigs;
    }
    SameSet(Countable(me, sigs), signers);
  }

  /** p stands for the votes of its signers: the correct ones among them signed it. */
  ghost predicate Sincere(sys: Sys, f: nat, p: ProofRequest) {
    forall sig | sig in p.sigs ::
      sig.signer in Ids(3 * f + 1) && (sig.signer in sys.replicas ==> p.data in sys.replicas[sig.signer].signed)
  }

  lemma TookPrepares(s: State, f: nat, id: nat, from: nat, until: nat)
    requires f >= 1 && Took(s, f, id) && from <= id < until <= 2 * f + 1 && until - from >= f
    ensures var p := OnPrepare(Proof(f, Told(f, id), from, until));
            Enabled(s, p) && Next(s, p).view == s.view && 0 in Next(s, p).slots &&
            var e := Next(s, p).slots[0];
            e.status == Prepared && e.prePrepare.data == Slot(0, Told(f, id)) &&
            e.prepares.Keys == Span(from, until) + Span(2 * f + 1, 3 * f + 1)
  {
    hide Next, Enabled, Countable, WithPrepares, LeaderOf, Proof, Everyone, Sign, Span;
    var p := Proof(f, Told(f, id), from, until);
    ProofData(f, Told(f, id), from, until);
    ProofSigners(f, Told(f, id), from, until, id);
    Enough(f, id, from, until);
    Certified(s, p);
  }

  lemma SincereAuthentic(sys: Sys, f: nat, id: int, p: ProofRequest)
    requires f >= 1 && Sincere(sys, f, p)
    ensures Authentic(One(f, id), VotesOf(sys), ANYONE, OnPrepare(p))
  {
    hide Authentic, VotesOf, Everyone, LeaderOf;
    ClusterOf(f);
    CertificateAuthentic(sys, Init(One(f, id)), p, OnPrepare(p));
  }

  lemma TookConfig(s: State, f: nat, id: int)
    requires Took(s, f, id)
    ensures s.cfg == One(f, id)
  {
  }

  /** A replica that took request m prepares it on such a certificate. */
  lemma Prepares(sys: Sys, f: nat, id: nat, from: nat, until: nat) returns (sys': Sys)
    requires f >= 1 && Reachable(sys, One(f, 0), Correct(f), ANYONE) && id in sys.replicas
    requires from <= id < until <= 2 * f + 1 && until - from >= f
    requires Took(sys.replicas[id], f, id) && Sincere(sys, f, Proof(f, Told(f, id), from, until))
    ensures Reachable(sys', One(f, 0), Correct(f), ANYONE) && sys'.replicas.Keys == sys.replicas.Keys
    ensures forall r | r in sys.replicas && r != id :: sys'.replicas[r] == sys.replicas[r]
    ensures 0 in sys'.replicas[id].slots
    ensures var e := sys'.replicas[id].slots[0];
            e.status == Prepared && e.prePrepare.data == Slot(0, Told(f, id)) &&
            e.prepares.Keys == Span(from, until) + Span(2 * f + 1, 3 * f + 1)
  {
    hide Next, Enabled, Reachable, Authentic, VotesOf, Took, Sincere, Proof, Span;
    var p := Proof(f, Told(f, id), from, until);
    TookPrepares(sys.replicas[id], f, id, from, until);
    TookConfig(sys.replicas[id], f, id);
    SincereAuthentic(sys, f, id, p);
    Go(sys, One(f, 0), Correct(f), id, OnPrepare(p));
    sys' := At(sys, id, OnPrepare(p));
  }

  lemma ProofData(f: nat, m: Message, from: nat, until: nat)
    requires from <= until
    ensures Proof(f, m, from, until).data == Slot(0, m)
  {
  }

  lemma Apart(a: nat, b: nat, c: nat, d: nat)
    requires b <= c
    ensures Span(a, b) * Span(c, d) == {}
  {
  }

  lemma Enough(f: nat, id: nat, from: nat, until: nat)
    requires from <= id < until <= 2 * f + 1 && until - from >= f
    ensures {id} + (Span(from, until) + Span(2 * f + 1, 3 * f + 1)) == Span(from, until) + Span(2 * f + 1, 3 * f + 1)
    ensures |Span(from, until) + Span(2 * f + 1, 3 * f + 1)| == until - from + f
  {
    hide Ids, Span;
    SpanSize(from, until);
    SpanSize(2 * f + 1, 3 * f + 1);
    InSpan(id, from, until);
    var a, b := Span(from, until), Span(2 * f + 1, 3 * f + 1);
    Apart(from, until, 2 * f + 1, 3 * f + 1);
    assert |a + b| == |a| + |b| - |a * b|;
    assert {id} + (a + b) == a + b;
  }

  lemma SincereOf(sys: Sys, f: nat, m: Message, from: nat, until: nat)
    requires from <= until <= 2 * f + 1 && sys.replicas.Keys == Correct(f)
    requires forall i | i in Correct(f) && from <= i < until :: Slot(0, m) in sys.replicas[i].signed
    ensures Sincere(sys, f, Proof(f, m, from, until))
  {
    hide Proof, Slot;
    ProofData(f, m, from, until);
    ProofSigners(f, m, from, until, 0);
  }

  lemma TookSigned(s: State, f: nat, id: int)
    requires Took(s, f, id)
    ensures Slot(0, Told(f, id)) in s.signed
  {
  }

  /** Every correct replica has taken what it was told. */
  ghost predicate Ready0(sys: Sys, f: nat, from: nat) {
    Reachable(sys, One(f, 0), Correct(f), ANYONE) && sys.replicas.Keys == Correct(f) &&
    forall i | i in Correct(f) && from <= i :: Took(sys.replicas[i], f, i)
  }

  lemma AllReady(f: nat) returns (sys: Sys)
    requires f >= 1
    ensures Ready0(sys, f, 0)
  {
    hide Reachable, Took, Init;
    sys := AllTake(f, 2 * f + 1);
  }

  /** One of those that have taken a request prepares it with all others told the same. */
  lemma OnePrepares(sys: Sys, f: nat, from: nat, until: nat) returns (sys': Sys)
    requires f >= 1 && Ready0(sys, f, from) && ((from == 0 && until == f + 1) || (from == f + 1 && until == 2 * f + 1))
    ensures Ready0(sys', f, from + 1)
    ensures from in sys'.replicas && forall r | r in sys.replicas && r != from :: sys'.replicas[r] == sys.replicas[r]
    ensures 0 in sys'.replicas[from].slots
    ensures var e := sys'.replicas[from].slots[0];
            e.status == Prepared && e.prePrepare.data == Slot(0, Told(f, from)) && |e.prepares| == until - from + f
  {
    hide Reachable, Cluster, Took, Proof, Sincere, Span, Slot;
    forall i | i in Correct(f) && from <= i < until
      ensures Slot(0, Told(f, from)) in sys.replicas[i].signed
    {
      TookSigned(sys.replicas[i], f, i);
    }
    SincereOf(sys, f, Told(f, from), from, until);
    sys' := Prepares(sys, f, from, from, until);
    Enough(f, from, from, until);
    var e := sys'.replicas[from].slots[0];
    assert |e.prepares| == |e.prepares.Keys|;
  }

  /** Two replicas prepare different requests for slot 0, for any f, under a correct leader. The f faulty replicas sign
      both; they send f of the correct ones a pre-prepare in the leader's name, whose MAC nobody checks. The
      stored signers number 4f + 1 together, so the bound of PreparedAgree is the least. */
  lemma PreparedDiffer(f: nat) returns (sys: Sys)
    requires f >= 1
    ensures Reachable(sys, One(f, 0), Correct(f), ANYONE) && LeaderOf(One(f, 0), 1) in Correct(f)
    ensures 0 in sys.replicas && f + 1 in sys.replicas && 0 in sys.replicas[0].slots && 0 in sys.replicas[f + 1].slots
    ensures var e, d := sys.replicas[0].slots[0], sys.replicas[f + 1].slots[0];
            e.status == Prepared && d.status == Prepared && e.prePrepare.data.digest != d.prePrepare.data.digest &&
            |e.prepares| + |d.prepares| == 4 * f + 1
  {
    hide Reachable, LeaderOf, Cluster, Took;
    ClusterOf(f);
    var all := AllReady(f);
    var one := OnePrepares(all, f, 0, f + 1);
    assert Ready0(one, f, f + 1);
    sys := OnePrepares(one, f, f + 1, 2 * f + 1);
  }
}
