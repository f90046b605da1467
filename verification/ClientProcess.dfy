/** The client as a running object: a queue of heap-allocated transfers whose reply sets are updated in place. */
module ClientProcess {
  import opened Messages
  import opened Client

  /** A queued transfer with its sets of replies. */
  class TransferInfo {
    const no: int
    const t: Transfer
    var successes: set<int>
    var failures: set<int>

    constructor (no: int, t: Transfer)
      ensures Value() == Queued(no, t, {}, {})
    {
      this.no, this.t := no, t;
      successes, failures := {}, {};
    }

    ghost function Value(): Queued
      reads this
    {
      Queued(no, t, successes, failures)
    }

    method Count(r: Response)
      modifies this
      ensures Value() == Counted(old(Value()), r)
    {
      if r.ack {
        successes := successes + {r.sig.signer};
      } else {
        failures := failures + {r.sig.signer};
      }
    }
  }

  class PbftClient {
    const id: int
    const name: string
    const f: nat
    const clusterSize: nat
    var currentView: int
    var transfers: seq<TransferInfo>
    var transactionsProcessed: int
    var timers: multiset<Queued>
    var sent: seq<Sent>

    /** The queue holds distinct objects with the given contents. */
    ghost predicate Holds(queue: seq<Queued>)
      reads this`transfers, transfers
    {
      |transfers| == |queue| &&
      (forall i | 0 <= i < |queue| :: transfers[i].Value() == queue[i]) &&
      (forall i, j | 0 <= i < j < |queue| :: transfers[i] != transfers[j])
    }

    /** This object stands for c. */
    ghost predicate Represents(c: State)
      reads this, transfers
    {
      id == c.id && name == c.name && f == c.f && clusterSize == c.clusterSize && currentView == c.view &&
      transactionsProcessed == c.processed && timers == c.timers && sent == c.sent && Holds(c.queue)
    }

    constructor (id: int, name: string, f: nat)
      ensures Represents(Init(id, name, f))
    {
      this.id, this.name, this.f, clusterSize := id, name, f, 3 * f + 1;
      currentView, transactionsProcessed := 1, 0;
      transfers, timers, sent := [], multiset{}, [];
    }

    /** Send the front transfer to the leader. */
    method DoTransfers(ghost c: State)
      requires Represents(c)
      modifies this`timers, this`sent
      ensures Represents(Client.DoTransfers(c))
    {
      if transfers == [] {
        return;
      }
      var info := transfers[0];
      assert info.Value() == c.queue[0];
      timers := timers + multiset{Queued(info.no, info.t, {}, {})};
      var leader := if clusterSize == 0 then 0 else currentView % clusterSize;
      sent := sent + [ToLeader(leader, Message(info.t, Signature(id, true)))];
    }

    method ProcessNotify(r: Response, ghost c: State)
      requires Represents(c)
      modifies this, transfers
      ensures Represents(Client.ProcessNotify(c, r)) && fresh(set x | x in transfers && x !in old(transfers))
    {
      hide Client.DoTransfers, Counted;
      if !r.sig.valid {
        return;
      }
      currentView := Max(currentView, r.view);
      if transfers == [] {
        return;
      }
      var info := transfers[0];
      assert info.Value() == c.queue[0];
      if info.t.timestamp != r.tdata.timestamp {
        return;
      }
      info.Count(r);
      ghost var front := info.Value();
      if |info.successes| >= f + 1 || |info.failures| >= f + 1 {
        transfers := transfers[1..];
        transactionsProcessed := transactionsProcessed + 1;
        DoTransfers(Pop(Hear(c, r), front));
      }
    }

    /** Queue this client's lines of a batch, stamping each with the clock, and send the front. */
    method ProcessProcess(txs: seq<Transaction>, clock: seq<int>, ghost c: State)
      requires Represents(c) && |txs| == |clock|
      modifies this
      ensures Represents(Client.ProcessProcess(c, txs, clock)) && fresh(set x | x in transfers && x !in old(transfers))
    {
      hide Client.DoTransfers, Fresh;
      ghost var u := c;
      for i := 0 to |txs|
        invariant u == Enqueue(c, txs, clock, i) && u.name == c.name && Represents(u)
        invariant forall x | x in transfers :: x in old(transfers) || fresh(x)
      {
        if txs[i].sender == name {
          var info := new TransferInfo(i, Transfer(txs[i].sender, txs[i].receiver, txs[i].amount, clock[i]));
          assert info.Value() == Fresh(i, txs[i], clock[i]) by { FreshIs(i, txs[i], clock[i]); }
          transfers := transfers + [info];
        }
        u := Enqueue(c, txs, clock, i + 1);
      }
      DoTransfers(u);
    }

    /** The timer of a transfer: if it is still at the front, send it to every replica and start over. */
    method TransferTimer(q: Queued, ghost c: State)
      requires Represents(c) && q in c.timers && q == Key(q)
      modifies this`timers, this`sent
      ensures Represents(Client.TransferTimer(c, q))
    {
      timers := timers - multiset{q};
      if transfers == [] {
        return;
      }
      var front := transfers[0];
      assert front.Value() == c.queue[0];
      if front.no == q.no && front.t == q.t {
        sent := sent + [ToAll(Message(q.t, Signature(id, true)))];
        timers := timers + multiset{q};
      }
    }
  }

  lemma FreshIs(no: int, tx: Transaction, now: int)
    ensures Fresh(no, tx, now) == Queued(no, Transfer(tx.sender, tx.receiver, tx.amount, now), {}, {})
  {
  }
}
