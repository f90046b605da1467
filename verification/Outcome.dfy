/** Client and replicas together: what the client takes for the outcome of its transfer is one. */
module Outcome {
  import opened Messages
  import opened Accounts
  import opened Quorum
  import opened ReplicaState
  import opened ExecutionFold
  import opened OneView
  import opened Agreement
  import opened Window
  import opened Entries
  import opened Retries
  import Client

  /** Good signatures in the client's name are on transfers it issued. */
  ghost predicate Unforged(c: Client.State, ok: Message -> bool) {
    forall m | ok(m) && m.sig.signer == c.id :: m.data in c.issued
  }

  /** The valid replies the client has heard name replicas, and those naming correct ones were sent by them
      to this client. */
  ghost predicate RepliesDelivered(sys: Sys, cfg: Config, c: Client.State) {
    forall r | r in c.heard && r.sig.valid ::
      r.sig.signer in Everyone(cfg) &&
      (r.sig.signer in sys.replicas ==> Notify(c.id, r) in sys.replicas[r.sig.signer].sent)
  }

  predicate DistinctTimestamps(ts: seq<Transfer>) {
    forall i, j | 0 <= i < j < |ts| :: ts[i].timestamp != ts[j].timestamp
  }

  /** Correct replica p executed the transfer with that outcome. */
  ghost predicate ExecutedAt(sys: Sys, p: int, t: Transfer, ack: bool) {
    p in sys.replicas && exists n :: Execution(n, t, ack) in sys.replicas[p].executed
  }

  /** Every correct replica has got where it is through any views whatever, on genuine client messages, answering no
      retry from a stale listing; at most f replicas are faulty. */
  ghost predicate Truthful(sys: Sys, cfg: Config, correct: set<int>, ok: Message -> bool) {
    Agreement.Cluster(cfg, correct) && sys.replicas.Keys == correct &&
    forall r | r in correct :: ReachedTruly(cfg.(id := r), ok, sys.replicas[r])
  }

  lemma ReportedExecuted(cfg: Config, ok: Message -> bool, s: State, client: int, r: Response)
    requires ReachedTruly(cfg, ok, s) && Notify(client, r) in s.sent
    ensures ok(Message(r.tdata, Signature(client, true))) && exists n :: Execution(n, r.tdata, r.ack) in s.executed
  {
    hide Run, Init, NeverStale, AllFromClients;
    var es :| Run(Init(cfg), es) == Some(s) && AllFromClients(ok, es) && NeverStale(Init(cfg), es);
    RepliesAlways(cfg, ok, es);
    assert ReportOk(s.executed, ok, client, r);
  }

  lemma CorrectReporter(cfg: Config, correct: set<int>, heard: set<Response>, timestamp: int, ack: bool)
    returns (r: Response)
    requires Agreement.Cluster(cfg, correct) && |Client.Reporters(heard, timestamp, ack)| >= cfg.f + 1
    requires forall x | x in heard && x.sig.valid :: x.sig.signer in Everyone(cfg)
    ensures r in heard && r.sig.valid && r.tdata.timestamp == timestamp && r.ack == ack && r.sig.signer in correct
  {
    hide Everyone;
    var reporters := Client.Reporters(heard, timestamp, ack);
    if forall x | x in heard && x.sig.valid && x.tdata.timestamp == timestamp && x.ack == ack ::
         x.sig.signer !in correct {
      assert reporters <= Everyone(cfg) - correct;
      SubsetSize(reporters, Everyone(cfg) - correct);
      assert false;
    }
    r :| r in heard && r.sig.valid && r.tdata.timestamp == timestamp && r.ack == ack && r.sig.signer in correct;
  }

  lemma SameTimestampSame(ts: seq<Transfer>, t: Transfer, u: Transfer)
    requires DistinctTimestamps(ts) && t in ts && u in ts && t.timestamp == u.timestamp
    ensures t == u
  {
    var i :| 0 <= i < |ts| && ts[i] == t;
    var j :| 0 <= j < |ts| && ts[j] == u;
  }

  /** Result soundness, whatever views the replicas pass through. With at most f faulty replicas, distinct timestamps,
      and no retry answered from a stale listing, the i-th completion is of the i-th transfer issued, and at least
      one correct replica executed exactly that transfer with exactly the outcome the client took for it. */
  lemma ResultSound(sys: Sys, cfg: Config, correct: set<int>, ok: Message -> bool, c: Client.State, name: string,
                    i: nat)
    requires Truthful(sys, cfg, correct, ok) && Client.Reached(c.id, name, cfg.f, c)
    requires Unforged(c, ok) && RepliesDelivered(sys, cfg, c) && DistinctTimestamps(c.issued)
    requires i < |c.completed|
    ensures i < |c.issued| && c.completed[i].t == c.issued[i]
    ensures exists p :: p in correct && ExecutedAt(sys, p, c.issued[i], c.completed[i].ack)
  {
    hide ReachedTruly, Client.Run, Client.Init, Cluster, Client.Reporters, Everyone, DistinctTimestamps;
    var es :| Client.Run(Client.Init(c.id, name, cfg.f), es) == Some(c);
    Client.FirstInFirstOut(c.id, name, cfg.f, es);
    var x := c.completed[i];
    assert x in c.completed && c.issued[i] == Client.CompletedTransfers(c.completed)[i] == x.t;
    var r := CorrectReporter(cfg, correct, c.heard, x.t.timestamp, x.ack);
    var p := r.sig.signer;
    ReportedExecuted(cfg.(id := p), ok, sys.replicas[p], c.id, r);
    SameTimestampSame(c.issued, r.tdata, x.t);
    assert ExecutedAt(sys, p, c.issued[i], x.ack);
  }

  /** While correct replicas stay in one view it needs nothing about retries. */
  lemma ResultSoundInView(sys: Sys, cfg: Config, correct: set<int>, ok: Message -> bool, c: Client.State, name: string,
                          i: nat)
    requires Reachable(sys, cfg, correct, ok) && Client.Reached(c.id, name, cfg.f, c)
    requires Unforged(c, ok) && RepliesDelivered(sys, cfg, c) && DistinctTimestamps(c.issued)
    requires i < |c.completed|
    ensures i < |c.issued| && c.completed[i].t == c.issued[i]
    ensures exists p :: p in correct && ExecutedAt(sys, p, c.issued[i], c.completed[i].ack)
  {
    hide Client.Reached, Unforged, RepliesDelivered, DistinctTimestamps, ReachedTruly, ExecutedAt, SysInv;
    ReachableOk(sys, cfg, correct, ok);
    Replicas(sys, cfg, correct, ok);
    forall r | r in correct
      ensures ReachedTruly(cfg.(id := r), ok, sys.replicas[r])
    {
      ReachableTruly(sys, cfg, correct, ok, r);
    }
    ResultSound(sys, cfg, correct, ok, c, name, i);
  }
}
