/** Transactions of the in-memory broker over any history: calls on one memTxn, in any
    order, interleaved with anything other clients do to the broker. */
module Transactions {
  import opened Wrappers
  import opened Envelope
  import opened Broker
  import opened MemoryDriver

  /** `over` says that the context of the call is done. */
  datatype TxnCall =
    | Publish(over: bool, rec: Record)
    | SendOffsets(over: bool, offsets: seq<Offset>, group: string)
    | Commit(over: bool)
    | Abort(over: bool)
    | OtherPublish(rec: Record)
    | OtherCommit(group: string, tp: TP, next: int)
    | OtherClose
    | OtherFence(fenced: bool)
    | OtherTopic(name: string, wanted: int)
    | OtherSubscribe(group: string)
    | OtherTxn(records: seq<Record>, consumed: seq<Offset>, group: string)  // begun, filled and committed

  datatype Pair = Pair(b: BrokerState, t: TxnState)

  predicate IsOther(c: TxnCall) {
    || c.OtherPublish? || c.OtherCommit? || c.OtherClose? || c.OtherFence? || c.OtherTopic? || c.OtherSubscribe?
    || c.OtherTxn?
  }

  /** The call returns nil. */
  predicate Succeeds(p: Pair, c: TxnCall) {
    match c
    case Publish(over, _) => !over && !p.t.done
    case SendOffsets(over, _, _) => !over && !p.t.done
    case Commit(over) => !over && !p.t.done && !p.b.closed && !p.b.fenced
    case Abort(over) => !over
    case _ => true
  }

  function AfterOther(b: BrokerState, c: TxnCall): (b': BrokerState)
    requires WellFormed(b) && IsOther(c)
    ensures WellFormed(b')
  {
    match c
    case OtherPublish(rec) => AppendFacts(b, rec, 0); Append(b, rec, 0)
    case OtherCommit(group, tp, next) =>
      WithGroupFacts(b, group);
      RaiseFacts(WithGroup(b, group), group, tp, next);
      Raise(WithGroup(b, group), group, tp, next)
    case OtherClose => SameLogs(b, b.(closed := true)); b.(closed := true)
    case OtherFence(f) => SameLogs(b, b.(fenced := f)); b.(fenced := f)
    case OtherTopic(name, n) =>
      EnsureTopicFacts(b, name, n);
      if b.closed || name == "" then b else EnsureTopic(b, name, n)
    case OtherSubscribe(group) => WithGroupFacts(b, group); if b.closed then b else WithGroup(b, group)
    case OtherTxn(rs, os, g) => if b.closed || b.fenced then b else AfterOtherTxn(b, rs, os, g)
  }

  /** Another client's whole transaction. */
  function AfterOtherTxn(b: BrokerState, records: seq<Record>, consumed: seq<Offset>, group: string): (b': BrokerState)
    requires WellFormed(b)
    ensures WellFormed(b')
  {
    var b1 := b.(txnSeq := b.txnSeq + 1);
    var t := TxnState(b.txnSeq + 1, records, consumed, group, false);
    SameLogs(b, b1);
    ApplyTxnWellFormed(b1, t);
    ApplyTxn(b1, t)
  }

  lemma SameLogs(b: BrokerState, b': BrokerState)
    requires WellFormed(b) && b'.topics == b.topics && b'.groups == b.groups && b'.partitions == b.partitions
    ensures WellFormed(b')
  {
    assert forall tp :: Log(b', tp) == Log(b, tp);
  }

  function Next(p: Pair, c: TxnCall): (p': Pair)
    requires WellFormed(p.b)
    ensures WellFormed(p'.b)
  {
    if IsOther(c) then Pair(AfterOther(p.b, c), p.t)
    else
      match c
      case Publish(_, rec) => if Succeeds(p, c) then p.(t := p.t.(publishes := p.t.publishes + [rec])) else p
      case SendOffsets(_, os, g) =>
        if Succeeds(p, c) then p.(t := p.t.(offsets := p.t.offsets + os, groupID := g)) else p
      case Commit(over) =>
        if Succeeds(p, c) then (ApplyTxnWellFormed(p.b, p.t); Pair(ApplyTxn(p.b, p.t), p.t.(done := true)))
        else if over then p.(t := p.t.(publishes := [], offsets := [], done := true))
        else p
      case Abort(_) => p.(t := p.t.(publishes := [], offsets := [], done := true))
  }

  /** From a transaction just begun. */
  function After(b: BrokerState, id: int, calls: seq<TxnCall>): (p: Pair)
    requires WellFormed(b)
    ensures WellFormed(p.b)
  {
    if calls == [] then Pair(b, TxnState(id, [], [], "", false))
    else Next(After(b, id, calls[..|calls| - 1]), calls[|calls| - 1])
  }

  /** The objects do what the functions say. */
  method Play(txn: MemTxn, calls: seq<TxnCall>) returns (results: seq<bool>)
    requires txn.broker.Valid() && txn.State() == TxnState(txn.id, [], [], "", false)
    modifies txn, txn.broker
    ensures txn.broker.Valid()
    ensures Pair(txn.broker.State(), txn.State()) == After(old(txn.broker.State()), txn.id, calls)
    ensures |results| == |calls|
    ensures forall i :: 0 <= i < |calls| ==> results[i] == Succeeds(After(old(txn.broker.State()), txn.id, calls[..i]),
                                                                    calls[i])
  {
    hide WellFormed, Append, Raise, ApplyTxn, AfterOther, Next, Succeeds;
    results := [];
    for i := 0 to |calls|
      invariant txn.broker.Valid() && |results| == i
      invariant Pair(txn.broker.State(), txn.State()) == After(old(txn.broker.State()), txn.id, calls[..i])
      invariant forall k :: 0 <= k < i ==> results[k] == Succeeds(After(old(txn.broker.State()), txn.id, calls[..k]),
                                                                  calls[k])
    {
      assert calls[..i + 1][..i] == calls[..i];
      var ok := PlayOne(txn, calls[i]);
      results := results + [ok];
    }
    assert calls[..|calls|] == calls;
  }

  method PlayOne(txn: MemTxn, c: TxnCall) returns (ok: bool)
    requires txn.broker.Valid()
    modifies txn, txn.broker
    ensures txn.broker.Valid()
    ensures Pair(txn.broker.State(), txn.State()) == Next(old(Pair(txn.broker.State(), txn.State())), c)
    ensures ok == Succeeds(old(Pair(txn.broker.State(), txn.State())), c)
  {
    hide WellFormed, Append, Raise, ApplyTxn;
    if IsOther(c) {
      PlayOther(txn.broker, c);
      return true;
    }
    var err: Outcome<BrokerError>;
    match c {
      case Publish(over, rec) => err := txn.Publish(over, rec);
      case SendOffsets(over, os, g) => err := txn.SendOffsets(over, os, g);
      case Commit(over) => err := txn.Commit(over);
      case Abort(over) => err := txn.Abort(over);
    }
    ok := err.Pass?;
  }

  method PlayOther(broker: Memory, c: TxnCall)
    requires broker.Valid() && IsOther(c)
    modifies broker
    ensures broker.Valid() && broker.State() == AfterOther(old(broker.State()), c)
  {
    hide WellFormed, Append, Raise, WithGroup;
    match c {
      case OtherPublish(rec) => broker.AppendLocked(rec, 0);
      case OtherCommit(group, tp, next) =>
        broker.EnsureGroupLocked(group);
        broker.RaiseLocked(group, tp, next);
      case OtherClose => broker.Close();
      case OtherFence(f) => broker.SetFenced(f);
      case OtherTopic(name, n) => if !broker.closed && name != "" { broker.EnsureTopicLocked(name, n); }
      case OtherSubscribe(group) => var _, _ := broker.Subscribe(group, [], ReadUncommitted);
      case OtherTxn(rs, os, g) => PlayTxn(broker, rs, os, g);
    }
  }

  method PlayTxn(broker: Memory, records: seq<Record>, consumed: seq<Offset>, group: string)
    requires broker.Valid()
    modifies broker
    ensures broker.Valid() && broker.State() == AfterOther(old(broker.State()), OtherTxn(records, consumed, group))
  {
    hide WellFormed, ApplyTxn;
    var err, txn := broker.BeginLocked();
    if err.Pass? {
      ghost var begun := broker.State();
      for i := 0 to |records|
        invariant broker.Valid() && broker.State() == begun
        invariant txn.State() == TxnState(txn.id, records[..i], [], "", false)
      {
        assert records[..i + 1] == records[..i] + [records[i]];
        var _ := txn.Publish(false, records[i]);
      }
      assert records[..|records|] == records;
      var _ := txn.SendOffsets(false, consumed, group);
      assert [] + consumed == consumed;
      var _ := txn.CommitLocked();
    }
  }

  // ---- what a history of calls amounts to ----

  /** The records of the Publish calls that were not over, in order. */
  function Buffered(calls: seq<TxnCall>): seq<Record> {
    if calls == [] then []
    else
      var c := calls[|calls| - 1];
      Buffered(calls[..|calls| - 1]) + if c.Publish? && !c.over then [c.rec] else []
  }

  function BufferedOffsets(calls: seq<TxnCall>): seq<Offset> {
    if calls == [] then []
    else
      var c := calls[|calls| - 1];
      BufferedOffsets(calls[..|calls| - 1]) + if c.SendOffsets? && !c.over then c.offsets else []
  }

  /** The group of the last SendOffsets that was not over. */
  function BufferedGroup(calls: seq<TxnCall>): string {
    if calls == [] then ""
    else
      var c := calls[|calls| - 1];
      if c.SendOffsets? && !c.over then c.group else BufferedGroup(calls[..|calls| - 1])
  }

  ghost predicate CommitsAt(b: BrokerState, id: int, calls: seq<TxnCall>, i: int)
    requires WellFormed(b) && 0 <= i < |calls|
  {
    calls[i].Commit? && Succeeds(After(b, id, calls[..i]), calls[i])
  }

  /** The i-th call ends the transaction: an abort, a commit whose context is done, or a
      commit that succeeds. */
  ghost predicate EndsAt(b: BrokerState, id: int, calls: seq<TxnCall>, i: int)
    requires WellFormed(b) && 0 <= i < |calls|
  {
    calls[i].Abort? || (calls[i].Commit? && calls[i].over) || CommitsAt(b, id, calls, i)
  }

  ghost predicate Open(b: BrokerState, id: int, calls: seq<TxnCall>)
    requires WellFormed(b)
  {
    forall i :: 0 <= i < |calls| ==> !EndsAt(b, id, calls, i)
  }

  lemma OpenPrefix(b: BrokerState, id: int, calls: seq<TxnCall>, c: TxnCall)
    requires WellFormed(b)
    ensures Open(b, id, calls + [c]) <==>
      Open(b, id, calls) && !(c.Abort? || (c.Commit? && (c.over || Succeeds(After(b, id, calls), c))))
  {
    var all := calls + [c];
    assert all[..|calls|] == calls;
    forall i | 0 <= i < |calls| ensures EndsAt(b, id, all, i) == EndsAt(b, id, calls, i) {
      assert all[..i] == calls[..i];
    }
    if Open(b, id, calls) {
      assert EndsAt(b, id, all, |calls|) <==> (c.Abort? || (c.Commit? && (c.over || Succeeds(After(b, id, calls), c))));
    } else {
      var i :| 0 <= i < |calls| && EndsAt(b, id, calls, i);
      assert EndsAt(b, id, all, i);
    }
  }

  /** `done` and the buffers are exactly what the calls so far say. */
  lemma {:induction false} BuffersHoldCalls(b: BrokerState, id: int, calls: seq<TxnCall>)
    requires WellFormed(b)
    ensures var t := After(b, id, calls).t;
      && t.id == id && (t.done <==> !Open(b, id, calls))
      && (!t.done ==>
            t.publishes == Buffered(calls) && t.offsets == BufferedOffsets(calls) && t.groupID == BufferedGroup(calls))
  {
    hide WellFormed, ApplyTxn, AfterOther;
    if calls != [] {
      var init, c := calls[..|calls| - 1], calls[|calls| - 1];
      assert calls == init + [c];
      BuffersHoldCalls(b, id, init);
      OpenPrefix(b, id, init, c);
    }
  }

  /** A commit succeeds exactly when its context stands, the broker takes writes and no
      earlier call ended the transaction; the broker then holds exactly the records and
      offsets of all the earlier calls that were not over. */
  lemma {:induction false} CommitSucceedsExactly(b: BrokerState, id: int, calls: seq<TxnCall>, over: bool)
    requires WellFormed(b)
    ensures var p := After(b, id, calls); var p' := Next(p, Commit(over));
      && (Succeeds(p, Commit(over)) <==> !over && !p.b.closed && !p.b.fenced && Open(b, id, calls))
      && (Succeeds(p, Commit(over)) ==>
           p'.b == ApplyTxn(p.b, TxnState(id, Buffered(calls), BufferedOffsets(calls), BufferedGroup(calls), false)))
  {
    hide WellFormed, ApplyTxn;
    BuffersHoldCalls(b, id, calls);
  }

  /** No call on a transaction but a successful commit changes the broker. */
  lemma OnlyCommitWrites(b: BrokerState, id: int, calls: seq<TxnCall>, c: TxnCall)
    requires WellFormed(b) && !IsOther(c)
    requires Next(After(b, id, calls), c).b != After(b, id, calls).b
    ensures CommitsAt(b, id, calls + [c], |calls|)
  {
    hide WellFormed, ApplyTxn;
    assert (calls + [c])[..|calls|] == calls;
  }

  /** A transaction commits at most once, whatever happens around it. */
  lemma CommitsOnce(b: BrokerState, id: int, calls: seq<TxnCall>, i: nat, j: nat)
    requires WellFormed(b) && i < |calls| && j < |calls|
    requires CommitsAt(b, id, calls, i) && CommitsAt(b, id, calls, j)
    ensures i == j
  {
    hide WellFormed, ApplyTxn, After, Next;
    if i < j { EndedCannotCommit(b, id, calls, i, j); }
    if j < i { EndedCannotCommit(b, id, calls, j, i); }
  }

  lemma EndedCannotCommit(b: BrokerState, id: int, calls: seq<TxnCall>, i: nat, j: nat)
    requires WellFormed(b) && i < j < |calls| && EndsAt(b, id, calls, i)
    ensures !CommitsAt(b, id, calls, j)
  {
    hide WellFormed, ApplyTxn, After, Next;
    BuffersHoldCalls(b, id, calls[..j]);
    assert calls[..j][..i] == calls[..i] && calls[..j][i] == calls[i];
    assert EndsAt(b, id, calls[..j], i);
  }

  // ---- what committing means for logs and offsets ----

  /** The records of `recs` that belong in partition `tp`, in order. */
  function Arrivals(b: BrokerState, recs: seq<Record>, tp: TP): seq<Record> {
    if recs == [] then []
    else
      var rec := recs[|recs| - 1];
      Arrivals(b, recs[..|recs| - 1], tp) + if Destination(b, rec) == tp then [rec] else []
  }

  /** `log` with the arrivals behind it, each at the next offset. */
  function Extended(log: seq<MemRec>, arrivals: seq<Record>, tp: TP, txnID: int): seq<MemRec> {
    log + seq(|arrivals|, i requires 0 <= i < |arrivals| =>
      MemRec(arrivals[i].(partition := tp.partition, offset := |log| + i), txnID, true))
  }

  /** The higher of `from` and the ends of all the offsets of `tp`. */
  function Highest(from: int, offsets: seq<Offset>, tp: TP): int {
    if offsets == [] then from
    else
      var o := offsets[|offsets| - 1];
      var h := Highest(from, offsets[..|offsets| - 1], tp);
      if TP(o.topic, o.partition) == tp && o.offset + 1 > h then o.offset + 1 else h
  }

  /** Creating a topic does not change where records go. */
  lemma DestinationStable(b: BrokerState, rec: Record, other: Record, txnID: int)
    requires WellFormed(b)
    ensures Destination(Append(b, other, txnID), rec) == Destination(b, rec)
  {
  }

  lemma {:induction false} AppendAllExact(b: BrokerState, recs: seq<Record>, txnID: int, tp: TP)
    requires WellFormed(b)
    ensures var b' := AppendAll(b, recs, txnID);
      && Log(b', tp) == Extended(Log(b, tp), Arrivals(b, recs, tp), tp, txnID)
      && b' == b.(topics := b'.topics)
      && (forall rec :: Destination(b', rec) == Destination(b, rec))
  {
    hide Append, Destination, WellFormed, Log;
    if recs != [] {
      var init, rec := recs[..|recs| - 1], recs[|recs| - 1];
      AppendAllExact(b, init, txnID, tp);
      var b1 := AppendAll(b, init, txnID);
      AppendFacts(b1, rec, txnID);
      forall other ensures Destination(Append(b1, rec, txnID), other) == Destination(b1, other) {
        DestinationStable(b1, other, rec, txnID);
      }
    }
  }

  lemma {:induction false} RaiseAllExact(b: BrokerState, group: string, offsets: seq<Offset>)
    requires WellFormed(b)
    ensures var b' := RaiseAll(b, group, offsets);
      && WellFormed(b') && b'.topics == b.topics
      && forall g, tp :: GroupOffset(b', g, tp) ==
           if g == group then Highest(GroupOffset(b, g, tp), offsets, tp) else GroupOffset(b, g, tp)
  {
    hide Raise, GroupOffset, WellFormed;
    if offsets != [] {
      var init, o := offsets[..|offsets| - 1], offsets[|offsets| - 1];
      RaiseAllExact(b, group, init);
      RaiseFacts(RaiseAll(b, group, init), group, TP(o.topic, o.partition), o.offset + 1);
    }
  }

  /** A successful commit, partition by partition: the log gains exactly the records bound for
      it, in order and at consecutive offsets, and the group's offset becomes the highest of
      what it was and what the offsets sent say, if a group was named; nothing else moves. */
  lemma CommitIsExact(b: BrokerState, t: TxnState, tp: TP, g: string)
    requires WellFormed(b)
    ensures var b' := ApplyTxn(b, t);
      && Log(b', tp) == Extended(Log(b, tp), Arrivals(b, t.publishes, tp), tp, t.id)
      && GroupOffset(b', g, tp) ==
           if g == t.groupID != "" then Highest(GroupOffset(b, g, tp), t.offsets, tp) else GroupOffset(b, g, tp)
  {
    hide Append, WithGroup, WellFormed;
    var b1 := AppendAll(b, t.publishes, t.id);
    AppendAllExact(b, t.publishes, t.id, tp);
    assert GroupOffset(b1, g, tp) == GroupOffset(b, g, tp);
    if t.groupID != "" {
      WithGroupFacts(b1, t.groupID);
      RaiseAllExact(WithGroup(b1, t.groupID), t.groupID, t.offsets);
    }
  }

  /** Highest is what its name says. */
  lemma {:induction false} HighestIsMax(from: int, offsets: seq<Offset>, tp: TP)
    ensures var h := Highest(from, offsets, tp);
      && h >= from
      && (forall o :: o in offsets && TP(o.topic, o.partition) == tp ==> h >= o.offset + 1)
      && (h == from || exists o :: o in offsets && TP(o.topic, o.partition) == tp && h == o.offset + 1)
  {
    if offsets != [] {
      var init := offsets[..|offsets| - 1];
      HighestIsMax(from, init, tp);
      assert offsets == init + [offsets[|offsets| - 1]];
      var h := Highest(from, init, tp);
      if h != from {
        var o :| o in init && TP(o.topic, o.partition) == tp && h == o.offset + 1;
        assert o in offsets;
      }
    }
  }
}
