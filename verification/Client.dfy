/** The client of pbft_client.cc: a queue of transfers issued one at a time, and the rule that completes one. */
module Client {
  import opened Messages
  import opened Quorum

  // ---- The client on values ----

  /** A line of the client's input. */
  datatype Transaction = Transaction(sender: string, receiver: string, amount: int)

  /** A queued transfer, its place in its batch, and the replicas that have reported each outcome. */
  datatype Queued = Queued(no: int, t: Transfer, successes: set<int>, failures: set<int>)

  datatype Completion = Completion(t: Transfer, ack: bool)

  datatype Sent =
    | ToLeader(leader: int, m: Message)
    | ToAll(m: Message)

  /** `issued`, `completed` and `heard` are histories that no handler reads. */
  datatype State = State(
    id: int,
    name: string,
    f: nat,
    clusterSize: nat,
    view: int,
    queue: seq<Queued>,
    processed: int,
    timers: multiset<Queued>,
    sent: seq<Sent>,
    issued: seq<Transfer>,
    completed: seq<Completion>,
    heard: set<Response>)

  function Init(id: int, name: string, f: nat): State {
    State(id, name, f, 3 * f + 1, 1, [], 0, multiset{}, [], [], [], {})
  }

  /** The transfer without its replies, as a timer remembers it. */
  function Key(q: Queued): Queued {
    q.(successes := {}, failures := {})
  }

  function Signed(c: State, t: Transfer): Message {
    Message(t, Signature(c.id, true))
  }

  function LeaderOf(c: State): int {
    if c.clusterSize == 0 then 0 else c.view % c.clusterSize
  }

  /** Send the transfer at the front to the leader and start its timer. */
  function DoTransfers(c: State): State {
    if c.queue == [] then c
    else
      c.(timers := c.timers + multiset{Key(c.queue[0])},
         sent := c.sent + [ToLeader(LeaderOf(c), Signed(c, c.queue[0].t))])
  }

  /** Count a reply for one of the two outcomes. */
  function Counted(q: Queued, r: Response): Queued {
    if r.ack then q.(successes := q.successes + {r.sig.signer}) else q.(failures := q.failures + {r.sig.signer})
  }

  predicate Decided(c: State, q: Queued) {
    |q.successes| >= c.f + 1 || |q.failures| >= c.f + 1
  }

  /** The front transfer leaves the queue; it failed if f + 1 replicas said so. */
  function Pop(c: State, q: Queued): State
    requires c.queue != []
  {
    c.(queue := c.queue[1..], processed := c.processed + 1,
       completed := c.completed + [Completion(q.t, |q.failures| < c.f + 1)])
  }

  function Hear(c: State, r: Response): State {
    c.(view := Max(c.view, r.view), heard := c.heard + {r})
  }

  function ProcessNotify(c: State, r: Response): State {
    if !r.sig.valid then c
    else if c.queue == [] || c.queue[0].t.timestamp != r.tdata.timestamp then Hear(c, r)
    else
      var front := Counted(c.queue[0], r);
      if Decided(c, front) then DoTransfers(Pop(Hear(c, r), front))
      else Hear(c, r).(queue := [front] + c.queue[1..])
  }

  /** The transfer made of an input line and a clock reading. */
  function Fresh(no: int, tx: Transaction, now: int): Queued {
    Queued(no, Transfer(tx.sender, tx.receiver, tx.amount, now), {}, {})
  }

  /** Queue the client's own lines among the first n, in order. */
  function Enqueue(c: State, txs: seq<Transaction>, clock: seq<int>, n: nat): State
    requires n <= |txs| == |clock|
  {
    if n == 0 then c
    else
      var before := Enqueue(c, txs, clock, n - 1);
      var q := Fresh(n - 1, txs[n - 1], clock[n - 1]);
      if txs[n - 1].sender != c.name then before
      else before.(queue := before.queue + [q], issued := before.issued + [q.t])
  }

  function ProcessProcess(c: State, txs: seq<Transaction>, clock: seq<int>): State
    requires |txs| == |clock|
  {
    DoTransfers(Enqueue(c, txs, clock, |txs|))
  }

  /** The timer of a transfer still at the front sends it to every replica and starts over. */
  function TransferTimer(c: State, q: Queued): State {
    var c1 := c.(timers := c.timers - multiset{q});
    if c.queue == [] || Key(c.queue[0]) != q then c1
    else c1.(timers := c1.timers + multiset{q}, sent := c.sent + [ToAll(Signed(c, q.t))])
  }

  datatype Event =
    | OnNotify(r: Response)
    | OnProcess(txs: seq<Transaction>, clock: seq<int>)
    | OnTimer(q: Queued)

  predicate Enabled(c: State, e: Event) {
    match e
    case OnNotify(_) => true
    case OnProcess(txs, clock) => |txs| == |clock|
    case OnTimer(q) => q in c.timers
  }

  function Next(c: State, e: Event): State
    requires Enabled(c, e)
  {
    match e
    case OnNotify(r) => ProcessNotify(c, r)
    case OnProcess(txs, clock) => ProcessProcess(c, txs, clock)
    case OnTimer(q) => TransferTimer(c, q)
  }

  ghost function Run(c: State, es: seq<Event>): Option<State> {
    if es == [] then Some(c)
    else
      var before := Run(c, es[..|es| - 1]);
      if before.Some? && Enabled(before.value, es[|es| - 1]) then Some(Next(before.value, es[|es| - 1])) else None
  }

  // ---- First in, first out; each transfer popped once, by a quorum ----

  /** The replicas heard to report an outcome for a timestamp. */
  function Reporters(heard: set<Response>, timestamp: int, ack: bool): set<int> {
    set r | r in heard && r.sig.valid && r.tdata.timestamp == timestamp && r.ack == ack :: r.sig.signer
  }

  ghost predicate QueuedOk(c: State, q: Queued) {
    q.successes <= Reporters(c.heard, q.t.timestamp, true) && q.failures <= Reporters(c.heard, q.t.timestamp, false) &&
    |q.successes| <= c.f && |q.failures| <= c.f
  }

  function QueuedTransfers(qs: seq<Queued>): seq<Transfer> {
    seq(|qs|, i requires 0 <= i < |qs| => qs[i].t)
  }

  function CompletedTransfers(xs: seq<Completion>): seq<Transfer> {
    seq(|xs|, i requires 0 <= i < |xs| => xs[i].t)
  }

  /** The completed transfers are the first issued ones, the queue holds the rest, and each completion has
      f + 1 replicas that reported its outcome for its timestamp. */
  ghost predicate Inv(c: State) {
    c.issued == CompletedTransfers(c.completed) + QueuedTransfers(c.queue) &&
    c.processed == |c.completed| &&
    (forall q | q in c.queue :: QueuedOk(c, q)) &&
    (forall x | x in c.completed :: |Reporters(c.heard, x.t.timestamp, x.ack)| >= c.f + 1)
  }

  lemma ReportersGrow(heard: set<Response>, r: Response, timestamp: int, ack: bool)
    ensures Reporters(heard, timestamp, ack) <= Reporters(heard + {r}, timestamp, ack)
    ensures |Reporters(heard, timestamp, ack)| <= |Reporters(heard + {r}, timestamp, ack)|
  {
    forall p | p in Reporters(heard, timestamp, ack)
      ensures p in Reporters(heard + {r}, timestamp, ack)
    {
      var x :| x in heard && x.sig.valid && x.tdata.timestamp == timestamp && x.ack == ack && x.sig.signer == p;
      assert x in heard + {r};
    }
    SubsetSize(Reporters(heard, timestamp, ack), Reporters(heard + {r}, timestamp, ack));
  }

  lemma HearKeeps(c: State, r: Response)
    requires Inv(c)
    ensures Inv(Hear(c, r))
  {
    hide Reporters;
    forall q | q in c.queue
      ensures QueuedOk(Hear(c, r), q)
    {
      ReportersGrow(c.heard, r, q.t.timestamp, true);
      ReportersGrow(c.heard, r, q.t.timestamp, false);
    }
    forall x | x in c.completed
      ensures |Reporters(c.heard + {r}, x.t.timestamp, x.ack)| >= c.f + 1
    {
      ReportersGrow(c.heard, r, x.t.timestamp, x.ack);
    }
  }

  /** Counting a heard reply keeps the counts backed by what was heard. */
  lemma CountedBacked(c: State, q: Queued, r: Response)
    requires QueuedOk(c, q) && r in c.heard && r.sig.valid && r.tdata.timestamp == q.t.timestamp
    ensures var q' := Counted(q, r);
            q'.t == q.t && q'.successes <= Reporters(c.heard, q.t.timestamp, true) &&
            q'.failures <= Reporters(c.heard, q.t.timestamp, false) &&
            (Decided(c, q') ==> |q'.failures| < c.f + 1 || |q'.successes| < c.f + 1) &&
            (!Decided(c, q') ==> QueuedOk(c, q'))
  {
  }

  lemma PopKeeps(c: State, q: Queued)
    requires Inv(c) && c.queue != [] && q.t == c.queue[0].t && Decided(c, q)
    requires q.successes <= Reporters(c.heard, q.t.timestamp, true)
    requires q.failures <= Reporters(c.heard, q.t.timestamp, false)
    ensures Inv(Pop(c, q))
  {
    hide Reporters;
    var d := Pop(c, q);
    assert CompletedTransfers(d.completed) + QueuedTransfers(d.queue) ==
           CompletedTransfers(c.completed) + QueuedTransfers(c.queue);
    forall x | x in d.queue
      ensures QueuedOk(d, x)
    {
      assert QueuedOk(c, x);
    }
    forall x | x in d.completed
      ensures |Reporters(d.heard, x.t.timestamp, x.ack)| >= d.f + 1
    {
      if x !in c.completed {
        assert x == Completion(q.t, |q.failures| < c.f + 1);
        SubsetSize(if x.ack then q.successes else q.failures, Reporters(d.heard, x.t.timestamp, x.ack));
      }
    }
  }

  lemma DoTransfersKeeps(c: State)
    requires Inv(c)
    ensures Inv(DoTransfers(c))
  {
    hide Reporters;
  }

  lemma NotifyKeeps(c: State, r: Response)
    requires Inv(c)
    ensures Inv(ProcessNotify(c, r))
  {
    hide Inv, Decided, Counted, QueuedOk, Hear, DoTransfers, Pop;
    if r.sig.valid {
      HearKeeps(c, r);
      var h := Hear(c, r);
      assert h.queue == c.queue && h.f == c.f && r in h.heard by { Heard(c, r); }
      if c.queue != [] && c.queue[0].t.timestamp == r.tdata.timestamp {
        var front := Counted(c.queue[0], r);
        assert QueuedOk(h, c.queue[0]) by { FrontOk(h); }
        CountedBacked(h, c.queue[0], r);
        assert Decided(h, front) == Decided(c, front) by { SameDecision(c, h, front); }
        if Decided(c, front) {
          PopKeeps(h, front);
          DoTransfersKeeps(Pop(h, front));
        } else {
          FrontCounted(h, front);
        }
      }
    }
  }

  lemma Heard(c: State, r: Response)
    ensures Hear(c, r).queue == c.queue && Hear(c, r).f == c.f && r in Hear(c, r).heard
  {
  }

  lemma SameDecision(c: State, h: State, q: Queued)
    requires h.f == c.f
    ensures Decided(h, q) == Decided(c, q)
  {
  }

  lemma FrontOk(c: State)
    requires Inv(c) && c.queue != []
    ensures QueuedOk(c, c.queue[0])
  {
    hide QueuedOk, Reporters;
  }

  lemma FrontCounted(c: State, q: Queued)
    requires Inv(c) && c.queue != [] && q.t == c.queue[0].t && QueuedOk(c, q)
    ensures Inv(c.(queue := [q] + c.queue[1..]))
  {
    hide Reporters;
    var d := c.(queue := [q] + c.queue[1..]);
    assert QueuedTransfers(d.queue) == QueuedTransfers(c.queue);
    forall x | x in d.queue
      ensures QueuedOk(d, x)
    {
      assert x == q || x in c.queue;
    }
  }

  lemma {:induction false} EnqueueKeeps(c: State, txs: seq<Transaction>, clock: seq<int>, n: nat)
    requires Inv(c) && n <= |txs| == |clock|
    ensures Inv(Enqueue(c, txs, clock, n))
    ensures Enqueue(c, txs, clock, n).heard == c.heard && Enqueue(c, txs, clock, n).f == c.f
  {
    hide Reporters;
    if n > 0 {
      EnqueueKeeps(c, txs, clock, n - 1);
      var before, q := Enqueue(c, txs, clock, n - 1), Fresh(n - 1, txs[n - 1], clock[n - 1]);
      assert QueuedTransfers(before.queue + [q]) == QueuedTransfers(before.queue) + [q.t];
    }
  }

  lemma NextKeeps(c: State, e: Event)
    requires Inv(c) && Enabled(c, e)
    ensures Inv(Next(c, e))
  {
    hide Reporters, ProcessNotify, DoTransfers, Enqueue;
    match e
    case OnNotify(r) => NotifyKeeps(c, r);
    case OnProcess(txs, clock) =>
      EnqueueKeeps(c, txs, clock, |txs|);
      DoTransfersKeeps(Enqueue(c, txs, clock, |txs|));
    case OnTimer(_) =>
  }

  /** A state that some run of the client reaches. */
  ghost predicate Reached(id: int, name: string, f: nat, c: State) {
    exists es :: Run(Init(id, name, f), es) == Some(c)
  }

  /** Over every run the client completes transfers in the order it issued them, each once, and only when
      f + 1 distinct replicas have reported the same outcome for its timestamp. */
  lemma {:induction false} FirstInFirstOut(id: int, name: string, f: nat, es: seq<Event>)
    requires Run(Init(id, name, f), es).Some?
    ensures var c := Run(Init(id, name, f), es).value;
            c.issued == CompletedTransfers(c.completed) + QueuedTransfers(c.queue) && c.processed == |c.completed| &&
            c.f == f && c.id == id &&
            forall x | x in c.completed :: |Reporters(c.heard, x.t.timestamp, x.ack)| >= f + 1
    ensures Inv(Run(Init(id, name, f), es).value)
  {
    hide Next, Enabled, Reporters, QueuedOk;
    if es != [] {
      FirstInFirstOut(id, name, f, es[..|es| - 1]);
      var c := Run(Init(id, name, f), es[..|es| - 1]).value;
      NextKeeps(c, es[|es| - 1]);
      NextConfig(c, es[|es| - 1]);
    }
  }

  lemma NextConfig(c: State, e: Event)
    requires Enabled(c, e)
    ensures Next(c, e).f == c.f && Next(c, e).id == c.id
  {
    if e.OnProcess? {
      EnqueueConfig(c, e.txs, e.clock, |e.txs|);
    }
  }

  lemma {:induction false} EnqueueConfig(c: State, txs: seq<Transaction>, clock: seq<int>, n: nat)
    requires n <= |txs| == |clock|
    ensures Enqueue(c, txs, clock, n).f == c.f && Enqueue(c, txs, clock, n).id == c.id
  {
    if n > 0 {
      EnqueueConfig(c, txs, clock, n - 1);
    }
  }

  /** Exactly when a reply completes the front transfer: it verifies, names the front's timestamp, and is
      the (f + 1)-th distinct replica to report its outcome. */
  lemma CompletesWhen(c: State, r: Response)
    requires Inv(c)
    ensures ProcessNotify(c, r).completed != c.completed <==>
            r.sig.valid && c.queue != [] && c.queue[0].t.timestamp == r.tdata.timestamp &&
            (if r.ack then |c.queue[0].successes + {r.sig.signer}| == c.f + 1
             else |c.queue[0].failures + {r.sig.signer}| == c.f + 1)
  {
    hide Reporters;
    if c.queue != [] {
      var q := c.queue[0];
      assert QueuedOk(c, q);
      assert |q.successes + {r.sig.signer}| <= |q.successes| + 1 && |q.failures + {r.sig.signer}| <= |q.failures| + 1;
    }
  }
}
