/** The in-memory broker of driver/memory.go as it is: a broker object, subscriptions and
    transactions that update their fields in place. Every locked region is one method,
    verified against the value functions of Broker. `cancelled` stands for a context whose
    Err is not nil; wake-up notifications carry no data and are left out. */
module MemoryDriver {
  import opened Wrappers
  import opened Envelope
  import opened Broker

  class Memory {
    var topics: map<string, Parts>
    var groups: map<string, map<TP, int>>
    var subs: seq<MemSub>
    var closed: bool
    var partitions: int
    var txnSeq: int
    var fenced: bool

    function State(): BrokerState
      reads this
    {
      BrokerState(topics, groups, closed, fenced, txnSeq, partitions)
    }

    ghost predicate Valid()
      reads this
    {
      WellFormed(State())
    }

    constructor ()
      ensures Valid() && State() == EmptyBroker() && subs == []
      ensures topics == map[] && groups == map[] && partitions == 3 && !closed && !fenced && txnSeq == 0
    {
      topics, groups, subs := map[], map[], [];
      closed, partitions, txnSeq, fenced := false, 3, 0, false;
    }

    method SetFenced(v: bool)
      requires Valid()
      modifies this`fenced
      ensures Valid() && State() == old(State()).(fenced := v)
    {
      fenced := v;
      assert forall tp :: Log(State(), tp) == old(Log(State(), tp));
    }

    method Close()
      requires Valid()
      modifies this`closed
      ensures Valid() && State() == old(State()).(closed := true)
    {
      closed := true;
      assert forall tp :: Log(State(), tp) == old(Log(State(), tp));
    }

    /** Every subscription of every group loses the partition; none of it is handed over. */
    method Revoke(topic: string, partition: int)
      requires forall i, j :: 0 <= i < j < |subs| ==> subs[i] != subs[j]
      modifies subs
      ensures forall s :: s in subs ==> s.State() == old(s.State()).(revoked := old(s.revoked) + {TP(topic, partition)})
    {
      for i := 0 to |subs|
        invariant forall k :: 0 <= k < i ==>
          subs[k].State() == old(subs[k].State()).(revoked := old(subs[k].revoked) + {TP(topic, partition)})
        invariant forall k :: i <= k < |subs| ==> subs[k].State() == old(subs[k].State())
      {
        subs[i].Revoke(topic, partition);
      }
    }

    method EnsureTopicLocked(name: string, wanted: int)
      requires Valid()
      modifies this`topics
      ensures Valid() && State() == EnsureTopic(old(State()), name, wanted)
    {
      if name !in topics {
        var n := if wanted <= 0 then partitions else wanted;
        topics := topics[name := EmptyParts(n)];
      }
      EnsureTopicFacts(old(State()), name, wanted);
    }

    method AppendLocked(rec: Record, txnID: int)
      requires Valid()
      modifies this`topics
      ensures Valid() && State() == Append(old(State()), rec, txnID)
    {
      AppendFacts(State(), rec, txnID);
      EnsureTopicFacts(State(), rec.topic, partitions);
      EnsureTopicLocked(rec.topic, partitions);
      var parts := topics[rec.topic];
      var p := rec.partition;
      if p < 0 || p >= |parts| {
        p := PartitionFor(rec.key, |parts|);
      }
      assert Log(State(), TP(rec.topic, p)) == old(Log(State(), TP(rec.topic, p)));
      var stored := rec.(partition := p, offset := |parts[p]|);
      topics := topics[rec.topic := parts[p := parts[p] + [MemRec(stored, txnID, true)]]];
    }

    /** A group is created the first time it is named. */
    method EnsureGroupLocked(group: string)
      requires Valid()
      modifies this`groups
      ensures Valid() && State() == WithGroup(old(State()), group) && groups.Keys == old(groups.Keys) + {group}
    {
      WithGroupFacts(State(), group);
      if group !in groups {
        groups := groups[group := map[]];
      }
      assert groups == old(groups)[group := GroupMap(old(State()), group)];
    }

    /** The max step memSub.Commit and memTxn.Commit share. */
    method RaiseLocked(group: string, key: TP, next: int)
      requires Valid() && group in groups
      modifies this`groups
      ensures Valid() && groups.Keys == old(groups.Keys) && State() == Raise(old(State()), group, key, next)
    {
      RaiseFacts(State(), group, key, next);
      var cur := if key in groups[group] then groups[group][key] else 0;
      if next > cur {
        groups := groups[group := groups[group][key := next]];
      }
    }

    method PublishLocked(rec: Record) returns (err: Outcome<BrokerError>)
      requires Valid()
      modifies this`topics
      ensures Valid()
      ensures err.Pass? <==> !closed && !fenced
      ensures State() == if err.Pass? then Append(old(State()), rec, 0) else old(State())
    {
      if closed { return Fail(ErrClosed); }
      if fenced { return Fail(ErrFenced); }
      AppendLocked(rec, 0);
      return Pass;
    }

    method Publish(cancelled: bool, rec: Record) returns (err: Outcome<BrokerError>)
      requires Valid()
      modifies this`topics
      ensures Valid()
      ensures err.Pass? <==> !cancelled && !closed && !fenced
      ensures State() == if err.Pass? then Append(old(State()), rec, 0) else old(State())
    {
      if cancelled { return Fail(ErrContext); }
      err := PublishLocked(rec);
    }

    method CreateTopicSpecs(cancelled: bool, names: seq<string>, wanted: seq<int>) returns (err: Outcome<BrokerError>)
      requires Valid() && |names| == |wanted|
      modifies this`topics
      ensures Valid()
      ensures err.Pass? <==> !cancelled && !closed
      ensures State() == if err.Pass? then EnsureAll(old(State()), names, wanted) else old(State())
    {
      if cancelled { return Fail(ErrContext); }
      if closed { return Fail(ErrClosed); }
      hide WellFormed, EnsureTopic;
      for i := 0 to |names|
        invariant Valid() && State() == EnsureAll(old(State()), names[..i], wanted[..i])
      {
        assert names[..i + 1][..i] == names[..i] && wanted[..i + 1][..i] == wanted[..i];
        if names[i] != "" {
          EnsureTopicLocked(names[i], wanted[i]);
        }
      }
      assert names[..|names|] == names && wanted[..|names|] == wanted;
      return Pass;
    }

    /** A new subscription reads from the group's offsets; nobody else loses anything. */
    method Subscribe(groupID: string, wanted: seq<string>, isolation: Isolation)
      returns (err: Outcome<BrokerError>, sub: MemSub?)
      requires Valid()
      modifies this`groups, this`subs
      ensures Valid()
      ensures err.Pass? <==> !closed
      ensures err.Fail? ==> sub == null && State() == old(State()) && subs == old(subs)
      ensures err.Pass? ==>
        && sub != null && fresh(sub) && sub.State() == NewSub(groupID, wanted, isolation) && sub.broker == this
        && sub.revoked == {} && sub.fetch == map[] && !sub.closed
      ensures err.Pass? ==> State() == WithGroup(old(State()), groupID) && subs == old(subs) + [sub]
    {
      if closed { return Fail(ErrClosed), null; }
      EnsureGroupLocked(groupID);
      sub := new MemSub(this, groupID, wanted, isolation);
      subs := subs + [sub];
      return Pass, sub;
    }

    method BeginLocked() returns (err: Outcome<BrokerError>, txn: MemTxn?)
      requires Valid()
      modifies this`txnSeq
      ensures Valid()
      ensures err.Pass? <==> !closed && !fenced
      ensures err.Pass? ==> txn != null && fresh(txn) && txn.broker == this
      ensures err.Pass? ==> txn.State() == TxnState(old(txnSeq) + 1, [], [], "", false)
      ensures State() == old(State()).(txnSeq := if err.Pass? then old(txnSeq) + 1 else old(txnSeq))
    {
      if closed { return Fail(ErrClosed), null; }
      if fenced { return Fail(ErrFenced), null; }
      txnSeq := txnSeq + 1;
      txn := new MemTxn(this, txnSeq);
      assert forall tp :: Log(State(), tp) == old(Log(State(), tp));
      return Pass, txn;
    }

    method BeginTxn(cancelled: bool) returns (err: Outcome<BrokerError>, txn: MemTxn?)
      requires Valid()
      modifies this`txnSeq
      ensures Valid()
      ensures err.Pass? <==> !cancelled && !closed && !fenced
      ensures err.Pass? ==> txn != null && fresh(txn) && txn.broker == this
      ensures err.Pass? ==> txn.State() == TxnState(old(txnSeq) + 1, [], [], "", false)
      ensures State() == old(State()).(txnSeq := if err.Pass? then old(txnSeq) + 1 else old(txnSeq))
    {
      if cancelled { return Fail(ErrContext), null; }
      err, txn := BeginLocked();
    }
  }

  class MemSub {
    const broker: Memory
    const groupID: string
    const topics: seq<string>
    const isolation: Isolation
    var revoked: set<TP>
    var fetch: map<TP, int>
    var closed: bool

    function State(): SubState
      reads this
    {
      SubState(groupID, topics, isolation, revoked, fetch, closed)
    }

    constructor (broker: Memory, groupID: string, topics: seq<string>, isolation: Isolation)
      ensures this.broker == broker && State() == NewSub(groupID, topics, isolation)
    {
      this.broker, this.groupID, this.topics, this.isolation := broker, groupID, topics, isolation;
      revoked, fetch, closed := {}, map[], false;
    }

    /** tryPoll returns a record exactly when some subscribed, unrevoked partition has one
        beyond the cursor; it is the record at the cursor of the first such partition, under
        either isolation, and only that cursor moves, by one. */
    method TryPoll() returns (rec: Option<Record>, err: Outcome<BrokerError>)
      requires broker.Valid() && groupID in broker.groups
      requires forall tp :: tp in fetch ==> fetch[tp] >= 0
      modifies this`fetch
      ensures err.Fail? <==> broker.closed || closed
      ensures err.Fail? ==> rec.None? && State() == old(State())
      ensures err.Pass? ==>
        match PollTarget(broker.State(), old(State()))
        case None => rec.None? && State() == old(State())
        case Some(tp) =>
          var next := NextFetch(broker.State(), old(State()), tp);
          && 0 <= next < |Log(broker.State(), tp)| && rec == Some(Log(broker.State(), tp)[next].rec)
          && rec.value.offset == next && State() == Polled(old(State()), tp, next)
      ensures rec.Some? ==> rec.value.topic in topics && TP(rec.value.topic, rec.value.partition) !in revoked
      ensures err.Pass? && rec.None? ==>
        forall tp: TP :: tp.topic in topics && Stored(broker.State(), tp) && tp !in revoked ==>
          NextFetch(broker.State(), State(), tp) >= |Log(broker.State(), tp)|
    {
      if broker.closed || closed { return None, Fail(ErrClosed); }
      ghost var b, s := broker.State(), State();
      PollTargetIsFirst(b, s);
      for i := 0 to |topics|
        invariant State() == s && PollTarget(b, s) == ScanTopics(b, s, i)
      {
        var topic := topics[i];
        if topic in broker.topics {
          var parts := broker.topics[topic];
          for p := 0 to |parts|
            invariant State() == s && ScanParts(b, s, topic, 0) == ScanParts(b, s, topic, p)
          {
            var key := TP(topic, p);
            assert LogOk(Log(b, key), key);
            if key !in revoked {
              var offsets := broker.groups[groupID];
              var next := if key in fetch then fetch[key] else if key in offsets then offsets[key] else 0;
              assert next == NextFetch(b, s, key) >= 0;
              var log := parts[p];
              for j := 0 to |log|
                invariant State() == s && j <= next
              {
                var r := log[j];
                if !(r.rec.offset < next) && !(isolation.ReadCommitted? && !r.committed) {
                  assert Ready(b, s, key);
                  fetch := fetch[key := r.rec.offset + 1];
                  return Some(r.rec), Pass;
                }
              }
            }
          }
        }
      }
      return None, Pass;
    }

    method Commit(cancelled: bool, rec: Record) returns (err: Outcome<BrokerError>)
      requires broker.Valid() && groupID in broker.groups
      modifies broker`groups
      ensures broker.Valid()
      ensures err.Pass? <==> !cancelled && !closed && TP(rec.topic, rec.partition) !in revoked && !broker.closed
      ensures broker.State() ==
        if err.Pass? then Raise(old(broker.State()), groupID, TP(rec.topic, rec.partition), rec.offset + 1)
        else old(broker.State())
    {
      if cancelled { return Fail(ErrContext); }
      var owned := Assigned(rec.topic, rec.partition);
      if !owned { return Fail(ErrRevoked); }
      err := CommitLocked(rec);
    }

    method CommitLocked(rec: Record) returns (err: Outcome<BrokerError>)
      requires broker.Valid() && groupID in broker.groups
      modifies broker`groups
      ensures broker.Valid() && groupID in broker.groups
      ensures err.Pass? <==> !broker.closed
      ensures broker.State() ==
        if err.Pass? then Raise(old(broker.State()), groupID, TP(rec.topic, rec.partition), rec.offset + 1)
        else old(broker.State())
    {
      if broker.closed { return Fail(ErrClosed); }
      broker.RaiseLocked(groupID, TP(rec.topic, rec.partition), rec.offset + 1);
      return Pass;
    }

    method Assigned(topic: string, partition: int) returns (owned: bool)
      ensures owned <==> !closed && TP(topic, partition) !in revoked
    {
      if closed { return false; }
      return TP(topic, partition) !in revoked;
    }

    method Close()
      modifies this`closed
      ensures State() == old(State()).(closed := true)
    {
      closed := true;
    }

    method Revoke(topic: string, partition: int)
      modifies this`revoked
      ensures State() == old(State()).(revoked := old(revoked) + {TP(topic, partition)})
    {
      revoked := revoked + {TP(topic, partition)};
    }
  }

  class MemTxn {
    const broker: Memory
    const id: int
    var publishes: seq<Record>
    var offsets: seq<Offset>
    var groupID: string
    var done: bool

    function State(): TxnState
      reads this
    {
      TxnState(id, publishes, offsets, groupID, done)
    }

    constructor (broker: Memory, id: int)
      ensures this.broker == broker && State() == TxnState(id, [], [], "", false)
    {
      this.broker, this.id := broker, id;
      publishes, offsets, groupID, done := [], [], "", false;
    }

    /** Buffers; the broker is not touched. */
    method Publish(cancelled: bool, rec: Record) returns (err: Outcome<BrokerError>)
      modifies this`publishes
      ensures err.Pass? <==> !cancelled && !done
      ensures State() == old(State()).(publishes := if err.Pass? then old(publishes) + [rec] else old(publishes))
    {
      if cancelled { return Fail(ErrContext); }
      if done { return Fail(ErrNoTxn); }
      publishes := publishes + [rec];
      return Pass;
    }

    method SendOffsets(cancelled: bool, more: seq<Offset>, group: string) returns (err: Outcome<BrokerError>)
      modifies this`offsets, this`groupID
      ensures err.Pass? <==> !cancelled && !done
      ensures State() ==
        if err.Pass? then old(State()).(offsets := old(offsets) + more, groupID := group) else old(State())
    {
      if cancelled { return Fail(ErrContext); }
      if done { return Fail(ErrNoTxn); }
      offsets := offsets + more;
      groupID := group;
      return Pass;
    }

    /** All of the buffered records and offsets, or nothing. */
    method Commit(cancelled: bool) returns (err: Outcome<BrokerError>)
      requires broker.Valid()
      modifies this, broker`topics, broker`groups
      ensures broker.Valid()
      ensures err.Pass? <==> !cancelled && !old(done) && !broker.closed && !broker.fenced
      ensures broker.State() == if err.Pass? then ApplyTxn(old(broker.State()), old(State())) else old(broker.State())
      ensures State() ==
        if cancelled then old(State()).(publishes := [], offsets := [], done := true)
        else old(State()).(done := old(done) || err.Pass?)
    {
      if cancelled {
        var _ := Abort(false);
        return Fail(ErrContext);
      }
      err := CommitLocked();
    }

    method CommitLocked() returns (err: Outcome<BrokerError>)
      requires broker.Valid()
      modifies this`done, broker`topics, broker`groups
      ensures broker.Valid()
      ensures err.Pass? <==> !old(done) && !broker.closed && !broker.fenced
      ensures broker.State() == if err.Pass? then ApplyTxn(old(broker.State()), old(State())) else old(broker.State())
      ensures State() == old(State()).(done := old(done) || err.Pass?)
      ensures broker.groups.Keys >= old(broker.groups.Keys)
    {
      if done { return Fail(ErrNoTxn); }
      if broker.closed { return Fail(ErrClosed); }
      if broker.fenced { return Fail(ErrFenced); }
      ApplyPublishes();
      if groupID != "" {
        ApplyOffsets();
      }
      done := true;
      return Pass;
    }

    method ApplyPublishes()
      requires broker.Valid()
      modifies broker`topics
      ensures broker.Valid() && broker.State() == AppendAll(old(broker.State()), publishes, id)
      ensures broker.groups == old(broker.groups)
    {
      hide WellFormed, Append;
      for i := 0 to |publishes|
        invariant broker.Valid() && broker.State() == AppendAll(old(broker.State()), publishes[..i], id)
      {
        assert publishes[..i + 1][..i] == publishes[..i];
        AppendFacts(broker.State(), publishes[i], id);
        broker.AppendLocked(publishes[i], id);
      }
      assert publishes[..|publishes|] == publishes;
    }

    method ApplyOffsets()
      requires broker.Valid()
      modifies broker`groups
      ensures broker.Valid()
      ensures broker.State() == RaiseAll(WithGroup(old(broker.State()), groupID), groupID, offsets)
      ensures broker.groups.Keys >= old(broker.groups.Keys)
    {
      hide WellFormed, Raise, WithGroup;
      ghost var b := WithGroup(broker.State(), groupID);
      broker.EnsureGroupLocked(groupID);
      for i := 0 to |offsets|
        invariant broker.Valid() && groupID in broker.groups && broker.groups.Keys >= old(broker.groups.Keys)
        invariant broker.State() == RaiseAll(b, groupID, offsets[..i])
      {
        assert offsets[..i + 1][..i] == offsets[..i];
        var o := offsets[i];
        broker.RaiseLocked(groupID, TP(o.topic, o.partition), o.offset + 1);
      }
      assert offsets[..|offsets|] == offsets;
    }

    method Abort(cancelled: bool) returns (err: Outcome<BrokerError>)
      modifies this
      ensures State() == old(State()).(publishes := [], offsets := [], done := true)
      ensures err.Pass? <==> !cancelled
    {
      done := true;
      publishes := [];
      offsets := [];
      return if cancelled then Fail(ErrContext) else Pass;
    }
  }
}
