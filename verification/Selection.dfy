/** The pre-prepares of a NEW-VIEW: what computeBigO selects from a list of view-change messages.

    BigO says slot by slot what is selected; Select computes it the way the replica does, with one
    running map over two nested loops. */
module Selection {
  import opened Messages

  /** Every signer id in 0..n-1 is a receiver of a correct replica's MAC vector. */
  function Sign(me: int, everyone: set<int>, data: Context): Request {
    Request(data, SignatureVec(me, everyone))
  }

  function MaxStable(vcs: seq<ViewChangeReq>): int {
    if vcs == [] then 0
    else Max(MaxStable(vcs[..|vcs| - 1]), vcs[|vcs| - 1].data.lastCheckpoint.seqNum)
  }

  function Proofs(vcs: seq<ViewChangeReq>): seq<PrepareProof> {
    if vcs == [] then []
    else Proofs(vcs[..|vcs| - 1]) + vcs[|vcs| - 1].data.pproofs
  }

  function MaxSeq(stable: int, ps: seq<PrepareProof>): int {
    if ps == [] then 0
    else
      var rest := MaxSeq(stable, ps[..|ps| - 1]);
      var n := ps[|ps| - 1].prePrepare.data.seqNum;
      if n <= stable then rest else Max(rest, n)
  }

  /** Prepares that verify at replica `me` and carry digest `d`; signers are not told apart. */
  function ValidCount(me: int, d: Digest, prepares: seq<Request>): nat {
    if prepares == [] then 0
    else
      var p := prepares[|prepares| - 1];
      ValidCount(me, d, prepares[..|prepares| - 1]) + (if p.data.digest == d && me in p.sig.validFor then 1 else 0)
  }

  predicate Accepted(me: int, f: nat, stable: int, p: PrepareProof) {
    stable < p.prePrepare.data.seqNum &&
    ValidCount(me, p.prePrepare.data.digest, p.prepares) >= 2 * f
  }

  /** The first accepted pre-prepare of highest view for slot n. */
  function Best(me: int, f: nat, stable: int, ps: seq<PrepareProof>, n: int): Option<Request> {
    if ps == [] then None
    else
      var best := Best(me, f, stable, ps[..|ps| - 1], n);
      var p := ps[|ps| - 1];
      if Accepted(me, f, stable, p) && p.prePrepare.data.seqNum == n &&
         (best.None? || p.prePrepare.data.view > best.value.data.view)
      then Some(p.prePrepare) else best
  }

  function Chosen(me: int, everyone: set<int>, best: Option<Request>): Request {
    if best.Some? then best.value else Sign(me, everyone, NOP)
  }

  function BigO(me: int, f: nat, everyone: set<int>, vcs: seq<ViewChangeReq>): (o: seq<Request>)
    ensures |o| == Max(0, MaxSeq(MaxStable(vcs), Proofs(vcs)) - MaxStable(vcs) - 1)
  {
    var stable := MaxStable(vcs);
    var last := MaxSeq(stable, Proofs(vcs));
    seq(Max(0, last - stable - 1), i => Chosen(me, everyone, Best(me, f, stable, Proofs(vcs), stable + 1 + i)))
  }

  lemma BigOAt(me: int, f: nat, everyone: set<int>, vcs: seq<ViewChangeReq>, i: nat)
    requires i < |BigO(me, f, everyone, vcs)|
    ensures BigO(me, f, everyone, vcs)[i] ==
            Chosen(me, everyone, Best(me, f, MaxStable(vcs), Proofs(vcs), MaxStable(vcs) + 1 + i))
  {
  }

  // ---- What the selection means ----

  lemma {:induction false} MaxStableIsMax(vcs: seq<ViewChangeReq>)
    ensures 0 <= MaxStable(vcs)
    ensures forall v | v in vcs :: v.data.lastCheckpoint.seqNum <= MaxStable(vcs)
    ensures MaxStable(vcs) == 0 || exists v :: v in vcs && v.data.lastCheckpoint.seqNum == MaxStable(vcs)
  {
    if vcs != [] {
      MaxStableIsMax(vcs[..|vcs| - 1]);
      assert vcs == vcs[..|vcs| - 1] + [vcs[|vcs| - 1]];
      assert vcs[|vcs| - 1] in vcs;
    }
  }

  lemma {:induction false} ProofsAreAll(vcs: seq<ViewChangeReq>, p: PrepareProof)
    ensures p in Proofs(vcs) <==> exists v :: v in vcs && p in v.data.pproofs
  {
    if vcs != [] {
      ProofsAreAll(vcs[..|vcs| - 1], p);
      assert vcs == vcs[..|vcs| - 1] + [vcs[|vcs| - 1]];
      assert vcs[|vcs| - 1] in vcs;
    }
  }

  lemma {:induction false} MaxSeqIsMax(stable: int, ps: seq<PrepareProof>)
    ensures 0 <= MaxSeq(stable, ps)
    ensures forall p | p in ps && stable < p.prePrepare.data.seqNum :: p.prePrepare.data.seqNum <= MaxSeq(stable, ps)
    ensures MaxSeq(stable, ps) == 0 ||
            exists p :: p in ps && stable < p.prePrepare.data.seqNum == MaxSeq(stable, ps)
  {
    if ps != [] {
      MaxSeqIsMax(stable, ps[..|ps| - 1]);
      assert ps == ps[..|ps| - 1] + [ps[|ps| - 1]];
      assert ps[|ps| - 1] in ps;
    }
  }

  /** p is an accepted proof for slot n, and no accepted proof for n has a higher view. */
  ghost predicate IsHighest(me: int, f: nat, stable: int, ps: seq<PrepareProof>, n: int, p: PrepareProof) {
    p in ps && Accepted(me, f, stable, p) && p.prePrepare.data.seqNum == n &&
    forall q | q in ps && Accepted(me, f, stable, q) && q.prePrepare.data.seqNum == n ::
      q.prePrepare.data.view <= p.prePrepare.data.view
  }

  lemma {:induction false} BestIsHighest(me: int, f: nat, stable: int, ps: seq<PrepareProof>, n: int)
    ensures Best(me, f, stable, ps, n).None? <==>
            forall p | p in ps && Accepted(me, f, stable, p) :: p.prePrepare.data.seqNum != n
    ensures Best(me, f, stable, ps, n).Some? ==>
            exists p :: IsHighest(me, f, stable, ps, n, p) && Best(me, f, stable, ps, n).value == p.prePrepare
  {
    if ps != [] {
      var front, last := ps[..|ps| - 1], ps[|ps| - 1];
      assert ps == front + [last];
      assert last in ps;
      BestIsHighest(me, f, stable, front, n);
      var before := Best(me, f, stable, front, n);
      if before.Some? {
        var p :| IsHighest(me, f, stable, front, n, p) && before.value == p.prePrepare;
        if Best(me, f, stable, ps, n) == before {
          assert IsHighest(me, f, stable, ps, n, p);
        } else {
          assert IsHighest(me, f, stable, ps, n, last);
        }
      } else if Best(me, f, stable, ps, n).Some? {
        assert IsHighest(me, f, stable, ps, n, last);
      }
    }
  }

  /** The selection: one entry for each slot strictly between the highest stable checkpoint and the
      highest slot of any proof; a highest-view accepted pre-prepare, or the NOP when there is none. */
  lemma BigOSelects(me: int, f: nat, everyone: set<int>, vcs: seq<ViewChangeReq>, n: int)
    requires MaxStable(vcs) < n < MaxSeq(MaxStable(vcs), Proofs(vcs))
    ensures var o := BigO(me, f, everyone, vcs);
            var stable := MaxStable(vcs);
            0 <= n - stable - 1 < |o| &&
            (if exists p :: p in Proofs(vcs) && Accepted(me, f, stable, p) && p.prePrepare.data.seqNum == n
             then exists p :: IsHighest(me, f, stable, Proofs(vcs), n, p) && o[n - stable - 1] == p.prePrepare
             else o[n - stable - 1].data == NOP)
  {
    hide Best, Accepted, MaxSeq, Proofs, MaxStable, IsHighest;
    BestIsHighest(me, f, MaxStable(vcs), Proofs(vcs), n);
    BigOAt(me, f, everyone, vcs, n - MaxStable(vcs) - 1);
  }

  /** How far the selection reaches: it has an entry for slot n exactly when n is positive and above every
      stable checkpoint, and some proof names a later slot. */
  lemma SlotsSelected(me: int, f: nat, everyone: set<int>, vcs: seq<ViewChangeReq>, n: int)
    ensures 0 <= n - MaxStable(vcs) - 1 < |BigO(me, f, everyone, vcs)| <==>
            (0 < n && (forall v | v in vcs :: v.data.lastCheckpoint.seqNum < n) &&
             exists q :: q in Proofs(vcs) && n < q.prePrepare.data.seqNum)
  {
    MaxStableIsMax(vcs);
    MaxSeqIsMax(MaxStable(vcs), Proofs(vcs));
  }

  /** Which slots a NEW-VIEW carries over. A slot proved prepared has an entry exactly when it lies
      above every stable checkpoint, is not slot 0, and is not the last slot any proof mentions. */
  lemma CarriedOver(me: int, f: nat, everyone: set<int>, vcs: seq<ViewChangeReq>, p: PrepareProof)
    requires p in Proofs(vcs) && ValidCount(me, p.prePrepare.data.digest, p.prepares) >= 2 * f
    ensures var n := p.prePrepare.data.seqNum;
            (exists r :: r in BigO(me, f, everyone, vcs) && r.data.seqNum == n && n != -1) <==>
            (0 < n && (forall v | v in vcs :: v.data.lastCheckpoint.seqNum < n) &&
             exists q :: q in Proofs(vcs) && n < q.prePrepare.data.seqNum)
  {
    hide BigO, Best, ValidCount, MaxSeq, MaxStable, Proofs, Accepted;
    var n, stable, ps := p.prePrepare.data.seqNum, MaxStable(vcs), Proofs(vcs);
    var o := BigO(me, f, everyone, vcs);
    MaxStableIsMax(vcs);
    MaxSeqIsMax(stable, ps);
    forall i | 0 <= i < |o|
      ensures o[i].data.seqNum == -1 || o[i].data.seqNum == stable + 1 + i
    {
      SlotOf(me, f, everyone, vcs, i);
    }
    if stable < n < MaxSeq(stable, ps) {
      assert Accepted(me, f, stable, p) by { AcceptedIs(me, f, stable, p); }
      SlotOf(me, f, everyone, vcs, n - stable - 1);
      assert o[n - stable - 1].data.seqNum == n;
    }
  }

  lemma AcceptedIs(me: int, f: nat, stable: int, p: PrepareProof)
    requires stable < p.prePrepare.data.seqNum && ValidCount(me, p.prePrepare.data.digest, p.prepares) >= 2 * f
    ensures Accepted(me, f, stable, p)
  {
  }

  /** Entry i of the selection is the NOP or names the i-th slot above the checkpoint, and names it when
      some accepted proof does. */
  lemma SlotOf(me: int, f: nat, everyone: set<int>, vcs: seq<ViewChangeReq>, i: nat)
    requires i < |BigO(me, f, everyone, vcs)|
    ensures var n, r := MaxStable(vcs) + 1 + i, BigO(me, f, everyone, vcs)[i];
            (r.data.seqNum == -1 || r.data.seqNum == n) &&
            ((exists p :: p in Proofs(vcs) && Accepted(me, f, MaxStable(vcs), p) && p.prePrepare.data.seqNum == n) ==>
               r.data.seqNum == n)
  {
    hide Best, Accepted, MaxSeq, Proofs, MaxStable, BigO;
    BestIsHighest(me, f, MaxStable(vcs), Proofs(vcs), MaxStable(vcs) + 1 + i);
    BigOAt(me, f, everyone, vcs, i);
  }

  // ---- Independence of order, repetition and verifier ----

  predicate SameMessages(a: seq<ViewChangeReq>, b: seq<ViewChangeReq>) {
    (forall v | v in a :: v in b) && (forall v | v in b :: v in a)
  }

  /** Replicas i and j agree on which attached prepares verify. */
  predicate SameValidity(i: int, j: int, ps: seq<PrepareProof>) {
    forall p | p in ps :: forall r | r in p.prepares :: i in r.sig.validFor <==> j in r.sig.validFor
  }

  lemma {:induction false} SameCount(i: int, j: int, d: Digest, rs: seq<Request>)
    requires forall r | r in rs :: i in r.sig.validFor <==> j in r.sig.validFor
    ensures ValidCount(i, d, rs) == ValidCount(j, d, rs)
  {
    if rs != [] {
      assert rs == rs[..|rs| - 1] + [rs[|rs| - 1]];
      SameCount(i, j, d, rs[..|rs| - 1]);
    }
  }

  lemma SameProofs(a: seq<ViewChangeReq>, b: seq<ViewChangeReq>)
    requires SameMessages(a, b)
    ensures forall p :: p in Proofs(a) <==> p in Proofs(b)
    ensures MaxStable(a) == MaxStable(b)
    ensures MaxSeq(MaxStable(a), Proofs(a)) == MaxSeq(MaxStable(b), Proofs(b))
  {
    forall p
      ensures p in Proofs(a) <==> p in Proofs(b)
    {
      ProofsAreAll(a, p);
      ProofsAreAll(b, p);
    }
    MaxStableIsMax(a);
    MaxStableIsMax(b);
    MaxSeqIsMax(MaxStable(a), Proofs(a));
    MaxSeqIsMax(MaxStable(b), Proofs(b));
  }

  /** No two accepted proofs for one slot and view carry different digests. */
  predicate NoConflict(me: int, f: nat, stable: int, ps: seq<PrepareProof>) {
    forall p, q | p in ps && q in ps && Accepted(me, f, stable, p) && Accepted(me, f, stable, q) ::
      p.prePrepare.data.seqNum == q.prePrepare.data.seqNum && p.prePrepare.data.view == q.prePrepare.data.view ==>
      p.prePrepare.data.digest == q.prePrepare.data.digest
  }

  lemma SameSlot(me: int, f: nat, stable: int, ps: seq<PrepareProof>, qs: seq<PrepareProof>, n: int)
    requires forall p :: p in ps <==> p in qs
    ensures var a, b := Best(me, f, stable, ps, n), Best(me, f, stable, qs, n);
            (a.None? <==> b.None?) &&
            (a.Some? ==> a.value.data.view == b.value.data.view &&
                         (NoConflict(me, f, stable, ps) ==> a.value.data == b.value.data))
  {
    BestIsHighest(me, f, stable, ps, n);
    BestIsHighest(me, f, stable, qs, n);
    var a, b := Best(me, f, stable, ps, n), Best(me, f, stable, qs, n);
    if a.Some? && b.Some? {
      var p :| IsHighest(me, f, stable, ps, n, p) && a.value == p.prePrepare;
      var q :| IsHighest(me, f, stable, qs, n, q) && b.value == q.prePrepare;
      assert q in ps && p in qs;
    }
  }

  /** Reordering or repeating the view-change messages changes neither the length of the selection
      nor any of its views, and without conflicting proofs changes none of its contexts. */
  lemma OrderIndependent(me: int, f: nat, everyone: set<int>, a: seq<ViewChangeReq>, b: seq<ViewChangeReq>)
    requires SameMessages(a, b)
    ensures var o, r := BigO(me, f, everyone, a), BigO(me, f, everyone, b);
            |o| == |r| && (forall i | 0 <= i < |o| :: o[i].data.view == r[i].data.view) &&
            (NoConflict(me, f, MaxStable(a), Proofs(a)) ==> forall i | 0 <= i < |o| :: o[i].data == r[i].data)
  {
    SameProofs(a, b);
    var stable := MaxStable(a);
    var o, r := BigO(me, f, everyone, a), BigO(me, f, everyone, b);
    forall i | 0 <= i < |o|
      ensures o[i].data.view == r[i].data.view
      ensures NoConflict(me, f, stable, Proofs(a)) ==> o[i].data == r[i].data
    {
      BigOAt(me, f, everyone, a, i);
      BigOAt(me, f, everyone, b, i);
      SameSlot(me, f, stable, Proofs(a), Proofs(b), stable + 1 + i);
    }
  }

  lemma {:induction false} SameBest(i: int, j: int, f: nat, stable: int, ps: seq<PrepareProof>, n: int)
    requires SameValidity(i, j, ps)
    ensures Best(i, f, stable, ps, n) == Best(j, f, stable, ps, n)
  {
    if ps != [] {
      var last := ps[|ps| - 1];
      assert ps == ps[..|ps| - 1] + [last];
      assert last in ps;
      SameBest(i, j, f, stable, ps[..|ps| - 1], n);
      SameCount(i, j, last.prePrepare.data.digest, last.prepares);
    }
  }

  /** Two replicas that verify the same prepares select the same contexts. */
  lemma VerifierIndependent(i: int, j: int, f: nat, everyone: set<int>, vcs: seq<ViewChangeReq>)
    requires SameValidity(i, j, Proofs(vcs))
    ensures var o, r := BigO(i, f, everyone, vcs), BigO(j, f, everyone, vcs);
            |o| == |r| && forall x | 0 <= x < |o| :: o[x].data == r[x].data
  {
    var stable := MaxStable(vcs);
    forall x | 0 <= x < |BigO(i, f, everyone, vcs)|
      ensures BigO(i, f, everyone, vcs)[x].data == BigO(j, f, everyone, vcs)[x].data
    {
      SameBest(i, j, f, stable, Proofs(vcs), stable + 1 + x);
      BigOAt(i, f, everyone, vcs, x);
      BigOAt(j, f, everyone, vcs, x);
    }
  }

  // ---- The loops ----

  method CountValid(me: int, d: Digest, prepares: seq<Request>) returns (count: nat)
    ensures count == ValidCount(me, d, prepares)
  {
    count := 0;
    for j := 0 to |prepares|
      invariant count == ValidCount(me, d, prepares[..j])
    {
      assert prepares[..j + 1][..j] == prepares[..j];
      if prepares[j].data.digest == d && me in prepares[j].sig.validFor {
        count := count + 1;
      }
    }
    assert prepares[..|prepares|] == prepares;
  }

  /** mega holds, for every slot, exactly the best pre-prepare of the proofs seen so far. */
  ghost predicate Holds(me: int, f: nat, stable: int, ps: seq<PrepareProof>, mega: map<int, Request>) {
    forall n :: Best(me, f, stable, ps, n) == if n in mega then Some(mega[n]) else None
  }

  method HighestStable(vcs: seq<ViewChangeReq>)
    returns (stable: int, lastStable: CheckpointData, checkpointServer: Option<int>)
    requires vcs != []
    ensures stable == MaxStable(vcs)
    ensures stable == 0 ==> lastStable == vcs[0].data.lastCheckpoint && checkpointServer == None
    ensures stable > 0 ==> lastStable.seqNum == stable
    ensures stable > 0 ==>
              exists v :: v in vcs && v.data.lastCheckpoint == lastStable && checkpointServer == Some(v.sig.signer)
  {
    stable, lastStable, checkpointServer := 0, vcs[0].data.lastCheckpoint, None;
    for a := 0 to |vcs|
      invariant 0 <= stable == MaxStable(vcs[..a])
      invariant stable == 0 ==> lastStable == vcs[0].data.lastCheckpoint && checkpointServer == None
      invariant stable > 0 ==> lastStable.seqNum == stable
      invariant stable > 0 ==>
                  exists v :: v in vcs && v.data.lastCheckpoint == lastStable && checkpointServer == Some(v.sig.signer)
    {
      assert vcs[..a + 1][..a] == vcs[..a];
      if stable < vcs[a].data.lastCheckpoint.seqNum {
        stable := vcs[a].data.lastCheckpoint.seqNum;
        lastStable := vcs[a].data.lastCheckpoint;
        checkpointServer := Some(vcs[a].sig.signer);
        assert vcs[a] in vcs;
      }
    }
    assert vcs[..|vcs|] == vcs;
  }

  /** The inner loop: fold the proofs of one view-change message into the running map. */
  method Gather(me: int, f: nat, stable: int, ghost seen: seq<PrepareProof>, pproofs: seq<PrepareProof>,
                last0: int, mega0: map<int, Request>)
    returns (last: int, mega: map<int, Request>)
    requires last0 == MaxSeq(stable, seen) && Holds(me, f, stable, seen, mega0)
    ensures last == MaxSeq(stable, seen + pproofs) && Holds(me, f, stable, seen + pproofs, mega)
  {
    last, mega := last0, mega0;
    assert seen + pproofs[..0] == seen;
    for i := 0 to |pproofs|
      invariant last == MaxSeq(stable, seen + pproofs[..i])
      invariant Holds(me, f, stable, seen + pproofs[..i], mega)
    {
      ghost var next := seen + pproofs[..i + 1];
      assert next[..|next| - 1] == seen + pproofs[..i] && next[|next| - 1] == pproofs[i];
      var prePrepare := pproofs[i].prePrepare;
      var n := prePrepare.data.seqNum;
      if n <= stable {
        continue;
      }
      last := Max(last, n);
      var count := CountValid(me, prePrepare.data.digest, pproofs[i].prepares);
      if count >= 2 * f {
        if n !in mega || prePrepare.data.view > mega[n].data.view {
          mega := mega[n := prePrepare];
        }
      }
    }
    assert pproofs[..|pproofs|] == pproofs;
  }

  method Select(me: int, f: nat, everyone: set<int>, vcs: seq<ViewChangeReq>)
    returns (bigO: seq<Request>, lastStable: CheckpointData, checkpointServer: Option<int>)
    requires vcs != []
    ensures bigO == BigO(me, f, everyone, vcs)
    ensures |bigO| == Max(0, MaxSeq(MaxStable(vcs), Proofs(vcs)) - MaxStable(vcs) - 1)
    ensures MaxStable(vcs) == 0 ==> lastStable == vcs[0].data.lastCheckpoint && checkpointServer == None
    ensures MaxStable(vcs) > 0 ==> lastStable.seqNum == MaxStable(vcs)
    ensures MaxStable(vcs) > 0 ==>
              exists v :: v in vcs && v.data.lastCheckpoint == lastStable && checkpointServer == Some(v.sig.signer)
  {
    var stable;
    stable, lastStable, checkpointServer := HighestStable(vcs);
    var last := 0;
    var mega: map<int, Request> := map[];
    for a := 0 to |vcs|
      invariant last == MaxSeq(stable, Proofs(vcs[..a]))
      invariant Holds(me, f, stable, Proofs(vcs[..a]), mega)
    {
      assert vcs[..a + 1][..a] == vcs[..a];
      last, mega := Gather(me, f, stable, Proofs(vcs[..a]), vcs[a].data.pproofs, last, mega);
    }
    assert vcs[..|vcs|] == vcs;
    bigO := [];
    for n := stable + 1 to Max(last, stable + 1)
      invariant |bigO| == n - stable - 1
      invariant forall i | 0 <= i < |bigO| ::
                  bigO[i] == Chosen(me, everyone, Best(me, f, stable, Proofs(vcs), stable + 1 + i))
    {
      if n in mega {
        bigO := bigO + [mega[n]];
      } else {
        bigO := bigO + [Sign(me, everyone, NOP)];
      }
    }
  }
}
