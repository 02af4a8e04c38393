/** The per-key loop of consumer.go (partitionLoopPerKey): a queue of items in channel order,
    a map of the keys under way, a drain that commits finished items from the front, and a
    rescan. Everything the loop calls is recorded in `events`, in order. */
module PerKey {
  import opened Wrappers
  import opened Envelope

  datatype Event = Process(msg: Message) | Commit(msg: Message)

  function Commits(events: seq<Event>): seq<Message> {
    if events == [] then []
    else
      var e := events[|events| - 1];
      Commits(events[..|events| - 1]) + if e.Commit? then [e.msg] else []
  }

  function Processed(events: seq<Event>): seq<Message> {
    if events == [] then []
    else
      var e := events[|events| - 1];
      Processed(events[..|events| - 1]) + if e.Process? then [e.msg] else []
  }

  /** The messages at the given positions. */
  function At(arrived: seq<Message>, order: seq<nat>): seq<Message>
    requires forall p :: p in order ==> p < |arrived|
  {
    seq(|order|, i requires 0 <= i < |order| => assert order[i] in order; arrived[order[i]])
  }

  class Item {
    const msg: Message
    ghost const pos: nat  // its place in the channel
    var done: bool
    var success: bool

    constructor (msg: Message, ghost pos: nat)
      ensures this.msg == msg && this.pos == pos && !done && !success
    {
      this.msg, this.pos := msg, pos;
      done, success := false, false;
    }
  }

  class KeyLoop {
    var q: seq<Item>
    var active: map<Bytes, Item>
    var events: seq<Event>
    ghost var arrived: seq<Message>  // everything received from the channel
    ghost var order: seq<nat>        // positions in the order they were processed

    ghost function Base(): int
      reads this
    {
      |arrived| - |q|
    }

    /** The queue holds the last arrivals, in channel order. */
    ghost predicate QueueOk()
      reads this
    {
      0 <= Base() && forall i :: 0 <= i < |q| ==> q[i].pos == Base() + i && q[i].msg == arrived[Base() + i]
    }

    /** What left the queue was committed, in channel order; what was processed was processed once. */
    ghost predicate TraceOk()
      reads this
    {
      && 0 <= Base() && Commits(events) == arrived[..Base()]
      && (forall p :: p in order ==> p < |arrived|) && NoDuplicates(order)
      && Processed(events) == At(arrived, order)
    }

    /** Processed are exactly the done items and those that left the queue. */
    ghost predicate DoneOk()
      reads this, q
    {
      && (forall p :: 0 <= p < Base() ==> p in order)
      && (forall it :: it in q ==> (it.pos in order <==> it.done) && (it.done ==> it.success))
    }

    /** An active key is held by an unfinished item of the queue. */
    ghost predicate ActiveOk()
      reads this, q
    {
      forall k :: k in active ==> k != [] && active[k] in q && !active[k].done && active[k].msg.key == k
    }

    ghost predicate Consistent()
      reads this, q
    {
      QueueOk() && TraceOk() && DoneOk() && ActiveOk()
    }

    /** And the head of the queue is not done: what could be committed has been. */
    ghost predicate Valid()
      reads this, q
    {
      Consistent() && (q != [] ==> !q[0].done)
    }

    constructor ()
      ensures Valid() && q == [] && active == map[] && events == [] && arrived == [] && order == []
    {
      q, active, events, arrived, order := [], map[], [], [], [];
    }

    /** drain: commits and drops the done items at the front. */
    method Drain()
      requires Consistent()
      modifies this`q, this`events
      ensures Valid()
      ensures |q| <= |old(q)| && q == old(q)[|old(q)| - |q|..]
      ensures events == old(events) + CommitEvents(old(q)[..|old(q)| - |q|])
      ensures forall i :: 0 <= i < |old(q)| - |q| ==> old(q)[i].done
    {
      hide QueueOk, TraceOk, DoneOk, ActiveOk;
      while |q| > 0 && q[0].done
        invariant Consistent()
        invariant events == old(events) + CommitEvents(old(q)[..|old(q)| - |q|])
        invariant |q| <= |old(q)| && q == old(q)[|old(q)| - |q|..]
        invariant forall i :: 0 <= i < |old(q)| - |q| ==> old(q)[i].done
        decreases |q|
      {
        assert q[0] == old(q)[|old(q)| - |q|];
        PopHead();
      }
    }

    method PopHead()
      requires Consistent() && q != [] && q[0].done
      modifies this`q, this`events
      ensures Consistent() && q == old(q)[1..] && events == old(events) + [Commit(old(q)[0].msg)]
    {
      hide Commits, Processed, At, NoDuplicates;
      var head := q[0];
      assert head in q;
      assert head.pos in order;
      if head.success {
        CommitRecorded(events, head.msg);
        events := events + [Commit(head.msg)];
      }
      assert arrived[..Base() + 1] == arrived[..Base()] + [head.msg];
      q := q[1..];
    }

    /** The inner process: c.process, then the item is done and its key free. */
    method ProcessItem(it: Item)
      requires Valid() && it in q && !it.done
      requires it.msg.key != [] ==> it.msg.key in active && active[it.msg.key] == it
      modifies this`q, this`active, this`events, this`order, it
      ensures Valid() && it.done
      ensures order == old(order) + [it.pos]
      ensures |q| <= |old(q)| && q == old(q)[|old(q)| - |q|..]
      ensures events == old(events) + [Process(it.msg)] + CommitEvents(old(q)[..|old(q)| - |q|])
      ensures forall i :: 0 <= i < |old(q)| - |q| ==> old(q)[i].done
      ensures active == old(active) - {it.msg.key}
    {
      hide QueueOk, TraceOk, DoneOk, ActiveOk;
      MarkDone(it);
      Drain();
    }

    method MarkDone(it: Item)
      requires Consistent() && it in q && !it.done
      requires it.msg.key != [] ==> it.msg.key in active && active[it.msg.key] == it
      modifies this`active, this`events, this`order, it
      ensures Consistent() && it.done && events == old(events) + [Process(it.msg)] && order == old(order) + [it.pos]
      ensures active == old(active) - {it.msg.key}
    {
      hide Commits, Processed;
      ProcessRecorded(events, it.msg);
      events := events + [Process(it.msg)];
      assert it.pos !in order;
      order := order + [it.pos];
      it.done := true;
      it.success := true;
      active := active - {it.msg.key};
      assert At(arrived, order) == At(arrived, old(order)) + [arrived[it.pos]];
    }

    method Activate(it: Item)
      requires Valid() && it in q && !it.done && it.msg.key != [] && !Blocked(active, it)
      modifies this`active
      ensures Valid() && active == old(active)[it.msg.key := it]
    {
      active := active[it.msg.key := it];
    }

    /** One item of the rescan: processed, unless it is done or its key is under way. */
    method TryItem(pending: Item) returns (ran: bool)
      requires Valid() && (pending in q || pending.done)
      modifies this`q, this`active, this`events, this`order, pending
      ensures Valid() && old(events) <= events
      ensures Tail(q, old(q)) && forall it :: it in old(q) ==> it in q || it.done
      ensures old(pending.done) ==> pending.done
      ensures if ran then order == old(order) + [pending.pos]
        else
          && q == old(q) && active == old(active) && events == old(events) && order == old(order)
          && (pending.done || Blocked(active, pending))
    {
      hide QueueOk, TraceOk, DoneOk, ActiveOk;
      if pending.done { return false; }
      var k := pending.msg.key;
      if k != [] {
        if k in active && active[k] != pending { return false; }
        Activate(pending);
      }
      ProcessItem(pending);
      return true;
    }

    /** One pass over the queue as it was: it makes progress unless nothing is left to do. */
    method RescanOnce() returns (progress: bool)
      requires Valid()
      modifies this`q, this`active, this`events, this`order, q
      ensures Valid() && old(events) <= events && old(order) <= order && Tail(q, old(q))
      ensures old(q) == [] ==> !progress
      ensures if progress then |order| > |old(order)|
              else q == [] && active == map[] && events == old(events) && order == old(order)
    {
      hide Valid, Tail;
      progress := false;
      var snap := q;
      TailReflexive(q);
      for i := 0 to |snap|
        invariant Valid() && old(events) <= events && old(order) <= order && Tail(q, snap)
        invariant forall it :: it in snap ==> it in q || it.done
        invariant progress ==> i > 0 && |order| > |old(order)|
        invariant !progress ==> q == snap && events == old(events) && order == old(order)
        invariant !progress ==> forall j :: 0 <= j < i ==> snap[j].done || Blocked(active, snap[j])
      {
        ghost var before := q;
        var ran := TryItem(snap[i]);
        TailTransitive(q, before, snap);
        progress := progress || ran;
      }
      if !progress { NothingBlocked(); }
    }

    /** Whoever blocks an item is not blocked itself. */
    lemma NothingBlocked()
      requires Valid() && forall j :: 0 <= j < |q| ==> q[j].done || Blocked(active, q[j])
      ensures q == [] && active == map[]
    {
      assert active.Keys == {};
    }

    /** The rescan ends, and ends with an empty queue and no key under way. */
    method Rescan()
      requires Valid()
      modifies this`q, this`active, this`events, this`order, q
      ensures Valid() && old(events) <= events && old(order) <= order
      ensures q == [] && active == map[]
      ensures old(q) == [] ==> events == old(events)
    {
      hide QueueOk, DoneOk, ActiveOk;
      var progress := true;
      while progress
        invariant Valid() && old(events) <= events && old(order) <= order
        invariant Tail(q, old(q))
        invariant !progress ==> q == [] && active == map[]
        invariant old(q) == [] ==> q == [] && events == old(events)
        decreases Unprocessed(arrived, order), progress
      {
        ghost var before := order;
        progress := RescanOnce();
        if progress { FewerLeft(arrived, before, order); }
      }
    }

    /** One job from the channel. If its key is under way it only joins the queue; otherwise,
        when the call returns, everything received has been processed and committed. From an
        empty queue that is one call of process and one commit, and the queue is empty again. */
    method Receive(job: Message)
      requires Valid()
      modifies this, q
      ensures Valid() && arrived == old(arrived) + [job] && old(events) <= events && old(order) <= order
      ensures if job.key != [] && job.key in old(active)
        then |q| == |old(q)| + 1 && old(q) == q[..|old(q)|] && active == old(active) && events == old(events)
        else q == [] && active == map[]
      ensures old(q) == [] ==> q == [] && active == map[] && events == old(events) + [Process(job), Commit(job)]
    {
      hide QueueOk, TraceOk, DoneOk, ActiveOk;
      if old(q) == [] { NothingBlocked(); }
      var it := Accept(job);
      if job.key != [] {
        if job.key in active { return; }
        Activate(it);
      }
      ProcessItem(it);
      Rescan();
    }

    /** q = append(q, it) */
    method Accept(job: Message) returns (it: Item)
      requires Valid()
      modifies this`q, this`arrived
      ensures Valid() && fresh(it) && it.msg == job && !it.done
      ensures q == old(q) + [it] && arrived == old(arrived) + [job]
    {
      hide Commits, Processed;
      it := new Item(job, |arrived|);
      q := q + [it];
      arrived := arrived + [job];
      AtExtends(old(arrived), job, order);
      assert arrived[..Base()] == old(arrived)[..Base()];
    }

    /** The whole loop, until the channel is closed and empty or the context is done: the
        queue and the map are empty before every job, and what happens is what the plain loop
        does, job by job in channel order, each followed by one more commit. */
    method Loop(jobs: seq<Message>, over: nat -> bool) returns (taken: nat)
      requires Valid() && q == [] && active == map[] && events == []
      modifies this
      ensures Valid() && q == [] && active == map[]
      ensures taken <= |jobs| && (taken == |jobs| || over(taken))
      ensures events == Pairs(jobs[..taken])
    {
      hide QueueOk, TraceOk, DoneOk, ActiveOk;
      taken := 0;
      while taken < |jobs|
        invariant taken <= |jobs| && Valid() && q == [] && active == map[] && events == Pairs(jobs[..taken])
      {
        if over(taken) { return; }
        assert jobs[..taken + 1][..taken] == jobs[..taken];
        Receive(jobs[taken]);
        taken := taken + 1;
      }
    }
  }

  function Unprocessed(arrived: seq<Message>, order: seq<nat>): set<int> { set p | 0 <= p < |arrived| && p !in order }

  lemma FewerLeft(arrived: seq<Message>, before: seq<nat>, after: seq<nat>)
    requires before <= after && |before| < |after| && NoDuplicates(after) && forall p :: p in after ==> p < |arrived|
    ensures Unprocessed(arrived, after) < Unprocessed(arrived, before)
  {
    var p := after[|before|];
    assert p in after && p !in before;
    assert p in Unprocessed(arrived, before) && p !in Unprocessed(arrived, after);
  }

  lemma AtExtends(arrived: seq<Message>, m: Message, order: seq<nat>)
    requires forall p :: p in order ==> p < |arrived|
    ensures At(arrived + [m], order) == At(arrived, order)
  {
    assert forall i :: 0 <= i < |order| ==> order[i] in order;
  }

  /** process and commit, message by message. */
  function Pairs(jobs: seq<Message>): seq<Event> {
    if jobs == [] then []
    else
      var m := jobs[|jobs| - 1];
      Pairs(jobs[..|jobs| - 1]) + [Process(m), Commit(m)]
  }

  predicate Tail(rest: seq<Item>, all: seq<Item>) { |rest| <= |all| && rest == all[|all| - |rest|..] }

  lemma TailReflexive(q: seq<Item>)
    ensures Tail(q, q)
  {
  }

  lemma TailTransitive(a: seq<Item>, b: seq<Item>, c: seq<Item>)
    requires Tail(a, b) && Tail(b, c)
    ensures Tail(a, c)
  {
  }

  /** Another item holds the item's key. */
  ghost predicate Blocked(active: map<Bytes, Item>, it: Item) {
    it.msg.key != [] && it.msg.key in active && active[it.msg.key] != it
  }

  function CommitEvents(items: seq<Item>): seq<Event> { seq(|items|,
                                                            i requires 0 <= i < |items| => Commit(items[i].msg)) }

  lemma CommitRecorded(events: seq<Event>, m: Message)
    ensures Commits(events + [Commit(m)]) == Commits(events) + [m]
    ensures Processed(events + [Commit(m)]) == Processed(events)
  {
    assert (events + [Commit(m)])[..|events|] == events;
  }

  lemma ProcessRecorded(events: seq<Event>, m: Message)
    ensures Processed(events + [Process(m)]) == Processed(events) + [m]
    ensures Commits(events + [Process(m)]) == Commits(events)
  {
    assert (events + [Process(m)])[..|events|] == events;
  }
}
