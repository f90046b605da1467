/** What the client sends, over every run: always the transfer at the front of its queue, and never nothing while
    the queue is not empty. */
module Issuing {
  import opened Messages
  import opened Client

  /** The request for the transfer at the front of the queue, under the client's own signature. */
  function FrontMessage(c: State): Message
    requires c.queue != []
  {
    Message(c.queue[0].t, Signature(c.id, true))
  }

  /** o carries the front transfer; if it goes to one replica, that is the leader of the view the client knows. */
  predicate OfFront(c: State, o: Sent) {
    c.queue != [] && (o == ToAll(FrontMessage(c)) || o == ToLeader(c.view % (3 * c.f + 1), FrontMessage(c)))
  }

  /** Who the client is does not change. */
  ghost predicate SameClient(c: State, d: State) {
    d.id == c.id && d.name == c.name && d.f == c.f && d.clusterSize == c.clusterSize
  }

  lemma {:induction false} EnqueueSends(c: State, txs: seq<Transaction>, clock: seq<int>, n: nat)
    requires n <= |txs| == |clock|
    ensures var d := Enqueue(c, txs, clock, n);
            SameClient(c, d) && d.sent == c.sent && d.timers == c.timers && d.view == c.view && d.heard == c.heard &&
            |d.queue| >= |c.queue| && d.queue[..|c.queue|] == c.queue
  {
    if n > 0 {
      EnqueueSends(c, txs, clock, n - 1);
    }
  }

  // ---- One event ----

  /** Every event sends at most one request, for the transfer then at the front of the queue: a reply exactly when it
      completes a transfer and leaves another one, a batch exactly when the queue is then not empty, a timer exactly
      when its transfer is still at the front, and that one to every replica. */
  lemma NextSends(c: State, e: Event)
    requires Enabled(c, e) && c.clusterSize == 3 * c.f + 1
    ensures var d := Next(c, e);
            SameClient(c, d) && (d.sent == c.sent || (exists o :: OfFront(d, o) && d.sent == c.sent + [o]))
    ensures var d := Next(c, e);
            d.sent != c.sent <==>
              match e
              case OnNotify(_) => d.completed != c.completed && d.queue != []
              case OnProcess(_, _) => d.queue != []
              case OnTimer(q) => c.queue != [] && c.queue[0].no == q.no && c.queue[0].t == q.t &&
                                 q.successes == {} && q.failures == {}
    ensures var d := Next(c, e);
            e.OnTimer? && d.sent != c.sent ==> d.sent == c.sent + [ToAll(FrontMessage(c))]
  {
    match e
    case OnNotify(r) => NotifySends(c, r);
    case OnProcess(txs, clock) =>
      EnqueueSends(c, txs, clock, |txs|);
      FrontSends(Enqueue(c, txs, clock, |txs|));
    case OnTimer(q) =>
      if c.queue != [] && Key(c.queue[0]) == q {
        assert OfFront(Next(c, e), ToAll(FrontMessage(c)));
      }
  }

  lemma FrontSends(c: State)
    requires c.clusterSize == 3 * c.f + 1
    ensures var d := DoTransfers(c);
            d == c.(sent := d.sent, timers := d.timers) &&
            if c.queue == [] then d.sent == c.sent
            else OfFront(d, ToLeader(c.view % (3 * c.f + 1), FrontMessage(c))) &&
                 d.sent == c.sent + [ToLeader(c.view % (3 * c.f + 1), FrontMessage(c))] &&
                 Key(c.queue[0]) in d.timers && (forall q | q in c.timers :: q in d.timers)
  {
  }

  lemma NotifySends(c: State, r: Response)
    requires c.clusterSize == 3 * c.f + 1
    ensures var d := ProcessNotify(c, r);
            SameClient(c, d) && (d.sent == c.sent || exists o :: OfFront(d, o) && d.sent == c.sent + [o])
    ensures var d := ProcessNotify(c, r);
            d.sent != c.sent <==> d.completed != c.completed && d.queue != []
  {
    if r.sig.valid && c.queue != [] && c.queue[0].t.timestamp == r.tdata.timestamp {
      var front := Counted(c.queue[0], r);
      if Decided(c, front) {
        FrontSends(Pop(Hear(c, r), front));
      }
    }
  }

  // ---- Every run ----

  /** The front transfer has been sent to the leader of that view. */
  predicate SentToLeader(c: State, view: int) {
    c.queue != [] && ToLeader(view % (3 * c.f + 1), FrontMessage(c)) in c.sent
  }

  /** The front transfer has been sent to the leader of some view the client knew, and has a timer. */
  ghost predicate FrontSent(c: State) {
    c.queue != [] ==>
      Key(c.queue[0]) in c.timers && exists view :: 1 <= view <= c.view && SentToLeader(c, view)
  }

  /** The client follows the highest view among the replies it has heard. */
  ghost predicate FollowsViews(c: State) {
    1 <= c.view && (forall r | r in c.heard :: r.view <= c.view) &&
    (c.view == 1 || exists r :: r in c.heard && r.view == c.view)
  }

  lemma DoTransfersSends(c: State)
    requires 1 <= c.view && c.clusterSize == 3 * c.f + 1
    ensures FrontSent(DoTransfers(c))
  {
    FrontSends(c);
    if c.queue != [] {
      assert SentToLeader(DoTransfers(c), c.view);
    }
  }

  lemma NotifyKeepsFront(c: State, r: Response)
    requires FrontSent(c) && FollowsViews(c) && c.clusterSize == 3 * c.f + 1
    ensures FrontSent(ProcessNotify(c, r)) && FollowsViews(ProcessNotify(c, r))
  {
    hide FrontSent, FollowsViews, DoTransfers;
    if r.sig.valid {
      HearFollows(c, r);
      if c.queue != [] && c.queue[0].t.timestamp == r.tdata.timestamp {
        var front := Counted(c.queue[0], r);
        if Decided(c, front) {
          var p := Pop(Hear(c, r), front);
          PopFollows(Hear(c, r), front);
          FrontSends(p);
          SameFollows(p, DoTransfers(p));
          DoTransfersSends(p) by { KnowsView(p); }
        } else {
          CountedFront(c, r, front);
        }
      }
    }
  }

  lemma KnowsView(c: State)
    requires FollowsViews(c)
    ensures 1 <= c.view
  {
  }

  lemma HearFollows(c: State, r: Response)
    requires FollowsViews(c) && FrontSent(c)
    ensures FollowsViews(Hear(c, r)) && FrontSent(Hear(c, r))
  {
    var d := Hear(c, r);
    if d.view == c.view && c.view != 1 {
      var x :| x in c.heard && x.view == c.view;
      assert x in d.heard;
    } else if d.view != c.view {
      assert r in d.heard;
    }
    HearSent(c, r);
  }

  lemma HearSent(c: State, r: Response)
    requires FrontSent(c)
    ensures FrontSent(Hear(c, r))
  {
    if c.queue != [] {
      var view :| 1 <= view <= c.view && SentToLeader(c, view);
      assert SentToLeader(Hear(c, r), view);
    }
  }

  lemma PopFollows(c: State, q: Queued)
    requires c.queue != [] && FollowsViews(c)
    ensures FollowsViews(Pop(c, q))
  {
  }

  lemma SameFollows(c: State, d: State)
    requires FollowsViews(c) && d.view == c.view && d.heard == c.heard
    ensures FollowsViews(d)
  {
  }

  lemma CountedFront(c: State, r: Response, front: Queued)
    requires FrontSent(c) && FollowsViews(Hear(c, r)) && c.queue != [] && front == Counted(c.queue[0], r)
    ensures var d := Hear(c, r).(queue := [front] + c.queue[1..]);
            FrontSent(d) && FollowsViews(d)
  {
    var d := Hear(c, r).(queue := [front] + c.queue[1..]);
    assert Key(d.queue[0]) == Key(c.queue[0]) && FrontMessage(d) == FrontMessage(c);
    var view :| 1 <= view <= c.view && SentToLeader(c, view);
    assert SentToLeader(d, view);
  }

  lemma BatchKeepsFront(c: State, txs: seq<Transaction>, clock: seq<int>)
    requires FollowsViews(c) && c.clusterSize == 3 * c.f + 1 && |txs| == |clock|
    ensures FrontSent(ProcessProcess(c, txs, clock)) && FollowsViews(ProcessProcess(c, txs, clock))
  {
    var d := Enqueue(c, txs, clock, |txs|);
    EnqueueSends(c, txs, clock, |txs|);
    FrontSends(d);
    DoTransfersSends(d);
    SameFollows(c, DoTransfers(d));
  }

  lemma TimerKeepsFront(c: State, q: Queued)
    requires FrontSent(c) && FollowsViews(c) && q in c.timers
    ensures FrontSent(TransferTimer(c, q)) && FollowsViews(TransferTimer(c, q))
  {
    var d := TransferTimer(c, q);
    SameFollows(c, d);
    if c.queue != [] {
      var view :| 1 <= view <= c.view && SentToLeader(c, view);
      assert SentToLeader(d, view);
    }
  }

  /** Over every run: whenever the queue is not empty, its front has been sent to the leader of a view the client knew
      and its timer runs; and the client is in the highest view it has heard of. */
  lemma {:induction false} FrontAlwaysSent(id: int, name: string, f: nat, es: seq<Event>)
    requires Run(Init(id, name, f), es).Some?
    ensures var c := Run(Init(id, name, f), es).value;
            SameClient(Init(id, name, f), c) && FrontSent(c) && FollowsViews(c)
  {
    if es != [] {
      hide Next, Enabled, FrontSent, FollowsViews;
      FrontAlwaysSent(id, name, f, es[..|es| - 1]);
      StepKeepsFront(Run(Init(id, name, f), es[..|es| - 1]).value, es[|es| - 1]);
    }
  }

  lemma StepKeepsFront(c: State, e: Event)
    requires FrontSent(c) && FollowsViews(c) && c.clusterSize == 3 * c.f + 1 && Enabled(c, e)
    ensures FrontSent(Next(c, e)) && FollowsViews(Next(c, e)) && SameClient(c, Next(c, e))
  {
    hide FrontSent, FollowsViews, ProcessNotify, ProcessProcess, TransferTimer;
    NextSends(c, e);
    match e
    case OnNotify(r) => NotifyKeepsFront(c, r);
    case OnProcess(txs, clock) => BatchKeepsFront(c, txs, clock);
    case OnTimer(q) => TimerKeepsFront(c, q);
  }

  /** Request i of the run was sent by event j, for the transfer at the front of the queue after it. */
  ghost predicate SentBy(c: State, es: seq<Event>, i: nat, j: nat)
    requires j < |es| && Run(c, es[..j]).Some? && Run(c, es[..j + 1]).Some?
  {
    var before, after := Run(c, es[..j]).value, Run(c, es[..j + 1]).value;
    i == |before.sent| && i < |after.sent| && OfFront(after, after.sent[i])
  }

  lemma {:induction false} Prefixes(c: State, es: seq<Event>, j: nat)
    requires Run(c, es).Some? && j <= |es|
    ensures Run(c, es[..j]).Some?
    decreases |es|
  {
    if j == |es| {
      assert es[..j] == es;
    } else {
      assert es[..|es| - 1][..j] == es[..j];
      Prefixes(c, es[..|es| - 1], j);
    }
  }

  /** Over every run: each request the client ever sent was, when it was sent, for the transfer at the front of its
      queue, under its own signature, and to all replicas or to the leader of the highest view it had heard of. */
  lemma {:induction false} SendsFront(id: int, name: string, f: nat, es: seq<Event>, i: nat)
    returns (j: nat)
    requires Run(Init(id, name, f), es).Some? && i < |Run(Init(id, name, f), es).value.sent|
    ensures j < |es| && Run(Init(id, name, f), es[..j]).Some? && Run(Init(id, name, f), es[..j + 1]).Some?
    ensures SentBy(Init(id, name, f), es, i, j)
    ensures Run(Init(id, name, f), es[..j + 1]).value.sent[i] == Run(Init(id, name, f), es).value.sent[i]
  {
    hide Next, Enabled, OfFront;
    var start, front, e := Init(id, name, f), es[..|es| - 1], es[|es| - 1];
    var before := Run(start, front).value;
    FrontAlwaysSent(id, name, f, front);
    NextSends(before, e);
    if i < |before.sent| {
      j := SendsFront(id, name, f, front, i);
      assert front[..j] == es[..j] && front[..j + 1] == es[..j + 1];
    } else {
      j := |es| - 1;
      assert es[..j + 1] == es;
    }
  }

  /** The client has heard exactly the valid replies that were delivered. */
  lemma {:induction false} HeardExactly(id: int, name: string, f: nat, es: seq<Event>, r: Response)
    requires Run(Init(id, name, f), es).Some?
    ensures r in Run(Init(id, name, f), es).value.heard <==> r.sig.valid && OnNotify(r) in es
  {
    if es != [] {
      hide Next, Enabled;
      var front, e := es[..|es| - 1], es[|es| - 1];
      HeardExactly(id, name, f, front, r);
      NextHeard(Run(Init(id, name, f), front).value, e);
      assert es == front + [e];
    }
  }

  lemma NextHeard(c: State, e: Event)
    requires Enabled(c, e)
    ensures Next(c, e).heard == if e.OnNotify? && e.r.sig.valid then c.heard + {e.r} else c.heard
  {
    if e.OnProcess? {
      EnqueueSends(c, e.txs, e.clock, |e.txs|);
    }
  }

  // ---- What a batch issues ----

  /** The lines ks of the batch, as transfers stamped with the clock. */
  function Stamped(txs: seq<Transaction>, clock: seq<int>, ks: seq<nat>): seq<Transfer>
    requires |txs| == |clock| && forall i | 0 <= i < |ks| :: ks[i] < |txs|
  {
    seq(|ks|, i requires 0 <= i < |ks| =>
      Transfer(txs[ks[i]].sender, txs[ks[i]].receiver, txs[ks[i]].amount, clock[ks[i]]))
  }

  /** ks lists, in order, exactly the client's own lines among the first n. */
  ghost predicate OwnLines(name: string, txs: seq<Transaction>, n: nat, ks: seq<nat>) {
    n <= |txs| &&
    (forall i | 0 <= i < |ks| :: ks[i] < n) &&
    (forall i, j | 0 <= i < j < |ks| :: ks[i] < ks[j]) &&
    (forall k | 0 <= k < n :: k in ks <==> txs[k].sender == name)
  }

  /** A batch issues exactly the client's own lines, in order, each stamped with its own reading of the clock. */
  lemma BatchIssues(c: State, txs: seq<Transaction>, clock: seq<int>) returns (ks: seq<nat>)
    requires |txs| == |clock|
    ensures OwnLines(c.name, txs, |txs|, ks)
    ensures ProcessProcess(c, txs, clock).issued == c.issued + Stamped(txs, clock, ks)
  {
    hide Enqueue, OwnLines, Stamped;
    ks := EnqueueIssues(c, txs, clock, |txs|);
  }

  lemma {:induction false} EnqueueIssues(c: State, txs: seq<Transaction>, clock: seq<int>,
                                         n: nat) returns (ks: seq<nat>)
    requires n <= |txs| == |clock|
    ensures OwnLines(c.name, txs, n, ks) && forall i | 0 <= i < |ks| :: ks[i] < |txs|
    ensures Enqueue(c, txs, clock, n).issued == c.issued + Stamped(txs, clock, ks)
    ensures Enqueue(c, txs, clock, n).name == c.name
  {
    hide OwnLines, Enqueue, Stamped;
    if n == 0 {
      ks := [];
      NoLines(c, txs, clock);
    } else {
      var before := EnqueueIssues(c, txs, clock, n - 1);
      ks := if txs[n - 1].sender == c.name then before + [n - 1] else before;
      NextLine(c.name, txs, n, before);
      LastLine(c, txs, clock, n);
      StampedNext(txs, clock, n, before);
      Grouped(c.issued, Stamped(txs, clock, before), Enqueue(c, txs, clock, n).issued, Stamped(txs, clock, ks));
    }
  }

  lemma NoLines(c: State, txs: seq<Transaction>, clock: seq<int>)
    requires |txs| == |clock|
    ensures OwnLines(c.name, txs, 0, []) && Enqueue(c, txs, clock, 0) == c && Stamped(txs, clock, []) == []
  {
  }

  lemma Grouped<T>(a: seq<T>, b: seq<T>, whole: seq<T>, end: seq<T>)
    requires (whole == a + b && end == b) || exists x :: whole == a + b + [x] && end == b + [x]
    ensures whole == a + end
  {
  }

  lemma LastLine(c: State, txs: seq<Transaction>, clock: seq<int>, n: nat)
    requires 0 < n <= |txs| == |clock|
    ensures var b, d, tx := Enqueue(c, txs, clock, n - 1), Enqueue(c, txs, clock, n), txs[n - 1];
            d.name == b.name &&
            d.issued == b.issued + if tx.sender == c.name
                                   then [Transfer(tx.sender, tx.receiver, tx.amount, clock[n - 1])] else []
  {
  }

  lemma StampedNext(txs: seq<Transaction>, clock: seq<int>, n: nat, ks: seq<nat>)
    requires 0 < n <= |txs| == |clock| && forall i | 0 <= i < |ks| :: ks[i] < |txs|
    ensures Stamped(txs, clock, ks + [n - 1]) ==
            Stamped(txs, clock, ks) +
            [Transfer(txs[n - 1].sender, txs[n - 1].receiver, txs[n - 1].amount, clock[n - 1])]
  {
  }

  lemma NextLine(name: string, txs: seq<Transaction>, n: nat, before: seq<nat>)
    requires 0 < n <= |txs| && OwnLines(name, txs, n - 1, before)
    ensures var ks := if txs[n - 1].sender == name then before + [n - 1] else before;
            OwnLines(name, txs, n, ks)
  {
    var ks := if txs[n - 1].sender == name then before + [n - 1] else before;
    forall k | 0 <= k < n
      ensures k in ks <==> txs[k].sender == name
    {
      assert k in ks <==> k in before || (k == n - 1 && txs[n - 1].sender == name);
    }
  }
}
