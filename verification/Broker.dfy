/** driver/memory.go on values: what the in-memory broker, a subscription and a
    transaction hold, and what each locked region does to them. The classes of
    MemoryDriver are verified against these functions. */
module Broker {
  import opened Wrappers
  import opened Envelope

  datatype BrokerError = ErrClosed | ErrNoTxn | ErrFenced | ErrRevoked | ErrContext

  datatype TP = TP(topic: string, partition: int)

  datatype MemRec = MemRec(rec: Record, txnID: int, committed: bool)

  type Parts = seq<seq<MemRec>>

  /** topics and groups of Memory; a group is its `next offset to consume` map. */
  datatype BrokerState = BrokerState(
    topics: map<string, Parts>, groups: map<string, map<TP, int>>,
    closed: bool, fenced: bool, txnSeq: int, partitions: int)

  datatype Isolation = ReadUncommitted | ReadCommitted

  datatype SubState = SubState(groupID: string, topics: seq<string>, isolation: Isolation,
                               revoked: set<TP>, fetch: map<TP, int>, closed: bool)

  datatype Offset = Offset(topic: string, partition: int, offset: int)

  datatype TxnState = TxnState(id: int, publishes: seq<Record>, offsets: seq<Offset>, groupID: string, done: bool)

  // ---- logs ----

  predicate Stored(b: BrokerState, tp: TP) {
    tp.topic in b.topics && 0 <= tp.partition < |b.topics[tp.topic]|
  }

  /** A partition's log; empty where the broker has no such partition. */
  function Log(b: BrokerState, tp: TP): seq<MemRec> {
    if Stored(b, tp) then b.topics[tp.topic][tp.partition] else []
  }

  /** Every stored record sits at its own offset in its own partition and is committed. */
  ghost predicate LogOk(log: seq<MemRec>, tp: TP) {
    forall i :: 0 <= i < |log| ==>
      && log[i].committed
      && log[i].rec.offset == i && log[i].rec.topic == tp.topic && log[i].rec.partition == tp.partition
  }

  ghost predicate WellFormed(b: BrokerState) {
    && b.partitions > 0
    && (forall t :: t in b.topics ==> |b.topics[t]| > 0)
    && (forall tp :: LogOk(Log(b, tp), tp))
    && (forall g, tp :: g in b.groups && tp in b.groups[g] ==> b.groups[g][tp] >= 0)
  }

  function EmptyBroker(): BrokerState { BrokerState(map[], map[], false, false, 0, 3) }

  /** fnv.New32a over the key. */
  function Fnv32a(key: Bytes): bv32 {
    if key == [] then 2166136261
    else (Fnv32a(key[..|key| - 1]) ^ (key[|key| - 1] as bv32)) * 16777619
  }

  function PartitionFor(key: Bytes, n: int): (p: int)
    ensures n > 0 ==> 0 <= p < n
  {
    if n <= 0 then 0
    else if |key| == 0 then 0
    else Fnv32a(key) as int % n
  }

  /** Published FNV-1a test values (32 bits). */
  lemma KnownHashes()
    ensures Fnv32a([]) == 0x811c9dc5 && Fnv32a([97]) == 0xe40c292c && Fnv32a([99]) == 0xe60c2c52
  {
    var basis: bv32 := 0x811c9dc5;
    assert (basis ^ 97) * 16777619 == 0xe40c292c && (basis ^ 99) * 16777619 == 0xe60c2c52;
    assert [97 as byte][..0] == [] && [99 as byte][..0] == [];
    assert (97 as byte) as bv32 == 97 && (99 as byte) as bv32 == 99;
  }

  /** And where such keys go among three partitions. */
  lemma KnownPartitions()
    ensures PartitionFor([97], 3) == 1 && PartitionFor([99], 3) == 2
  {
    hide Fnv32a;
    KnownHashes();
    assert (0xe40c292c as bv32) as int == 3826002220 && (0xe60c2c52 as bv32) as int == 3859557458;
  }

  function EmptyParts(n: nat): (p: Parts)
    ensures |p| == n && forall i :: 0 <= i < n ==> p[i] == []
  {
    seq(n, _ => [])
  }

  /** ensureTopicPartitionsLocked: an existing topic keeps the partitions it has. */
  function EnsureTopic(b: BrokerState, name: string, partitions: int): BrokerState {
    if name in b.topics then b
    else
      var n := if partitions <= 0 then b.partitions else partitions;
      b.(topics := b.topics[name := EmptyParts(if n > 0 then n else 0)])
  }

  /** The partition a record is appended to: its own when the topic has it, else by key. */
  function Destination(b: BrokerState, rec: Record): TP {
    var n := if rec.topic in b.topics then |b.topics[rec.topic]| else b.partitions;
    TP(rec.topic, if 0 <= rec.partition < n then rec.partition else PartitionFor(rec.key, n))
  }

  /** The record as stored: partition resolved, offset the end of the log. */
  function StoredRecord(b: BrokerState, rec: Record): Record {
    var tp := Destination(b, rec);
    rec.(partition := tp.partition, offset := |Log(b, tp)|)
  }

  /** appendLocked (its timestamp default is left out). */
  function Append(b: BrokerState, rec: Record, txnID: int): BrokerState
    requires WellFormed(b)
  {
    var b1 := EnsureTopic(b, rec.topic, b.partitions);
    var tp := Destination(b, rec);
    var parts := b1.topics[rec.topic];
    var stored := MemRec(StoredRecord(b, rec), txnID, true);
    b1.(topics := b1.topics[rec.topic := parts[tp.partition := parts[tp.partition] + [stored]]])
  }

  lemma EnsureTopicFacts(b: BrokerState, name: string, partitions: int)
    requires WellFormed(b)
    ensures var b' := EnsureTopic(b, name, partitions);
      WellFormed(b') && name in b'.topics && b' == b.(topics := b'.topics) && forall tp :: Log(b', tp) == Log(b, tp)
  {
    var b' := EnsureTopic(b, name, partitions);
    forall tp ensures Log(b', tp) == Log(b, tp) {
    }
  }

  /** An append lengthens one log by one record, at the offset it carries, and changes
      nothing else; the broker stays well formed. */
  lemma AppendFacts(b: BrokerState, rec: Record, txnID: int)
    requires WellFormed(b)
    ensures var b' := Append(b, rec, txnID); var d := Destination(b, rec);
      && WellFormed(b') && b' == b.(topics := b'.topics)
      && Log(b', d) == Log(b, d) + [MemRec(StoredRecord(b, rec), txnID, true)]
      && forall tp :: tp != d ==> Log(b', tp) == Log(b, tp)
  {
    EnsureTopicFacts(b, rec.topic, b.partitions);
    var b1 := EnsureTopic(b, rec.topic, b.partitions);
    var b' := Append(b, rec, txnID);
    var d := Destination(b, rec);
    forall tp
      ensures Log(b', tp) == if tp == d then Log(b, d) + [MemRec(StoredRecord(b, rec), txnID, true)] else Log(b, tp)
    {
      assert Log(b1, tp) == Log(b, tp);
    }
    forall tp ensures LogOk(Log(b', tp), tp) {
      assert LogOk(Log(b, tp), tp);
    }
  }

  /** Where an append puts the record: into the partition it names if its topic has that one,
      else where its key says; a new topic has as many partitions as the broker gives by itself. */
  lemma AppendPlaces(b: BrokerState, rec: Record, txnID: int) returns (p: int)
    requires WellFormed(b)
    ensures var b' := Append(b, rec, txnID); var tp := TP(rec.topic, p);
      && rec.topic in b'.topics && 0 <= p < |b'.topics[rec.topic]|
      && |b'.topics[rec.topic]| == (if rec.topic in b.topics then |b.topics[rec.topic]| else b.partitions)
      && p == (if 0 <= rec.partition < |b'.topics[rec.topic]| then rec.partition
               else PartitionFor(rec.key, |b'.topics[rec.topic]|))
      && b'.topics[rec.topic][p] ==
           Log(b, tp) + [MemRec(rec.(partition := p, offset := |Log(b, tp)|), txnID, true)]
  {
    AppendFacts(b, rec, txnID);
    p := Destination(b, rec).partition;
    assert Log(Append(b, rec, txnID), TP(rec.topic, p)) == Append(b, rec, txnID).topics[rec.topic][p];
  }

  /** CreateTopicSpecs: every named topic exists afterwards. */
  function EnsureAll(b: BrokerState, names: seq<string>, wanted: seq<int>): BrokerState
    requires |names| == |wanted|
  {
    if names == [] then b
    else
      var n := |names| - 1;
      var b1 := EnsureAll(b, names[..n], wanted[..n]);
      if names[n] == "" then b1 else EnsureTopic(b1, names[n], wanted[n])
  }

  /** A new topic has the number of partitions that was asked for first, the broker's own for none. */
  ghost predicate Partitioned(b: BrokerState, names: seq<string>, wanted: seq<int>, t: string, parts: nat)
    requires |names| == |wanted|
  {
    exists i :: 0 <= i < |names| && names[i] == t && t !in names[..i]
      && parts == if wanted[i] <= 0 then b.partitions else wanted[i]
  }

  lemma {:induction false} EnsureAllFacts(b: BrokerState, names: seq<string>, wanted: seq<int>)
    requires WellFormed(b) && |names| == |wanted|
    ensures var b' := EnsureAll(b, names, wanted);
      && WellFormed(b') && b' == b.(topics := b'.topics) && (forall tp :: Log(b', tp) == Log(b, tp))
      && b'.topics.Keys == b.topics.Keys + (set n | n in names && n != "")
      && (forall t :: t in b.topics ==> b'.topics[t] == b.topics[t])
  {
    if names != [] {
      var n := |names| - 1;
      EnsureAllFacts(b, names[..n], wanted[..n]);
      EnsureTopicFacts(EnsureAll(b, names[..n], wanted[..n]), names[n], wanted[n]);
      assert names == names[..n] + [names[n]];
    }
  }

  lemma {:induction false} EnsureAllPartitions(b: BrokerState, names: seq<string>, wanted: seq<int>, t: string)
    requires WellFormed(b) && |names| == |wanted| && t !in b.topics && t in EnsureAll(b, names, wanted).topics
    ensures Partitioned(b, names, wanted, t, |EnsureAll(b, names, wanted).topics[t]|)
  {
    hide WellFormed, Partitioned;
    var n := |names| - 1;
    if names != [] {
      var b1 := EnsureAll(b, names[..n], wanted[..n]);
      EnsureAllFacts(b, names[..n], wanted[..n]);
      if t in b1.topics {
        EnsureAllPartitions(b, names[..n], wanted[..n], t);
        PartitionedMore(b, names, wanted, t, |b1.topics[t]|);
      } else {
        assert t == names[n] && t !in names[..n];
        PartitionedNow(b, names, wanted, t, |EnsureAll(b, names, wanted).topics[t]|);
      }
    }
  }

  lemma PartitionedMore(b: BrokerState, names: seq<string>, wanted: seq<int>, t: string, parts: nat)
    requires |names| == |wanted| && names != []
    requires Partitioned(b, names[..|names| - 1], wanted[..|names| - 1], t, parts)
    ensures Partitioned(b, names, wanted, t, parts)
  {
    var n := |names| - 1;
    var i :| 0 <= i < n && names[..n][i] == t && t !in names[..n][..i]
      && parts == (if wanted[..n][i] <= 0 then b.partitions else wanted[..n][i]);
    assert names[..n][..i] == names[..i];
  }

  lemma PartitionedNow(b: BrokerState, names: seq<string>, wanted: seq<int>, t: string, parts: nat)
    requires |names| == |wanted| && names != [] && names[|names| - 1] == t && t !in names[..|names| - 1]
    requires parts == if wanted[|names| - 1] <= 0 then b.partitions else wanted[|names| - 1]
    ensures Partitioned(b, names, wanted, t, parts)
  {
  }

  // ---- group offsets ----

  function GroupOffset(b: BrokerState, group: string, tp: TP): int {
    if group in b.groups && tp in b.groups[group] then b.groups[group][tp] else 0
  }

  function GroupMap(b: BrokerState, group: string): map<TP, int> {
    if group in b.groups then b.groups[group] else map[]
  }

  /** Offsets only rise. */
  function Raise(b: BrokerState, group: string, tp: TP, next: int): BrokerState {
    if next > GroupOffset(b, group, tp) then b.(groups := b.groups[group := GroupMap(b, group)[tp := next]]) else b
  }

  lemma RaiseFacts(b: BrokerState, group: string, tp: TP, next: int)
    requires WellFormed(b)
    ensures var b' := Raise(b, group, tp, next);
      && WellFormed(b') && b' == b.(groups := b'.groups)
      && (forall g, q :: GroupOffset(b', g, q) ==
           if g == group && q == tp && next > GroupOffset(b, group, tp) then next else GroupOffset(b, g, q))
  {
    var b' := Raise(b, group, tp, next);
    assert forall q :: Log(b', q) == Log(b, q);
    assert GroupOffset(b, group, tp) >= 0;
  }

  // ---- subscriptions ----

  function NewSub(group: string, topics: seq<string>, isolation: Isolation): SubState {
    SubState(group, topics, isolation, {}, map[], false)
  }

  /** Subscribing creates the group. */
  function WithGroup(b: BrokerState, group: string): BrokerState {
    b.(groups := b.groups[group := GroupMap(b, group)])
  }

  predicate Assigned(s: SubState, tp: TP) { !s.closed && tp !in s.revoked }

  /** Where the subscription reads next. */
  function NextFetch(b: BrokerState, s: SubState, tp: TP): int {
    if tp in s.fetch then s.fetch[tp] else GroupOffset(b, s.groupID, tp)
  }

  /** tryPoll would return a record of this partition. */
  predicate Ready(b: BrokerState, s: SubState, tp: TP) {
    Stored(b, tp) && tp !in s.revoked && NextFetch(b, s, tp) < |Log(b, tp)|
  }

  function PartsOf(b: BrokerState, topic: string): nat {
    if topic in b.topics then |b.topics[topic]| else 0
  }

  function ScanParts(b: BrokerState, s: SubState, topic: string, p: nat): (r: Option<TP>)
    decreases PartsOf(b, topic) - p
  {
    if p >= PartsOf(b, topic) then None
    else if Ready(b, s, TP(topic, p)) then Some(TP(topic, p))
    else ScanParts(b, s, topic, p + 1)
  }

  function ScanTopics(b: BrokerState, s: SubState, i: nat): (r: Option<TP>)
    decreases |s.topics| - i
  {
    if i >= |s.topics| then None
    else
      var r := ScanParts(b, s, s.topics[i], 0);
      if r.Some? then r else ScanTopics(b, s, i + 1)
  }

  /** The partition tryPoll serves: topics in subscription order, then partitions. */
  function PollTarget(b: BrokerState, s: SubState): Option<TP> { ScanTopics(b, s, 0) }

  lemma ScanPartsFinds(b: BrokerState, s: SubState, topic: string, p: nat)
    ensures var r := ScanParts(b, s, topic, p);
      match r
      case Some(tp) => tp.topic == topic && p <= tp.partition && Ready(b, s, tp) &&
        forall q :: p <= q < tp.partition ==> !Ready(b, s, TP(topic, q))
      case None => forall q :: p <= q ==> !Ready(b, s, TP(topic, q))
    decreases PartsOf(b, topic) - p
  {
    if p < PartsOf(b, topic) && !Ready(b, s, TP(topic, p)) {
      ScanPartsFinds(b, s, topic, p + 1);
    }
  }

  /** tp is served before any ready partition: no earlier topic of the subscription has one,
      and no earlier partition of its own topic. */
  ghost predicate FirstReadyFrom(b: BrokerState, s: SubState, i: nat, tp: TP) {
    && Ready(b, s, tp)
    && (forall q :: 0 <= q < tp.partition ==> !Ready(b, s, TP(tp.topic, q)))
    && exists k :: i <= k < |s.topics| && s.topics[k] == tp.topic
         && forall j, q :: i <= j < k && 0 <= q ==> !Ready(b, s, TP(s.topics[j], q))
  }

  lemma ScanTopicsFinds(b: BrokerState, s: SubState, i: nat)
    ensures var r := ScanTopics(b, s, i);
      match r
      case Some(tp) => FirstReadyFrom(b, s, i, tp)
      case None => forall j, q :: i <= j < |s.topics| && 0 <= q ==> !Ready(b, s, TP(s.topics[j], q))
    decreases |s.topics| - i
  {
    if i < |s.topics| {
      ScanPartsFinds(b, s, s.topics[i], 0);
      var r := ScanParts(b, s, s.topics[i], 0);
      if r.Some? {
        assert s.topics[i] == r.value.topic;
        assert FirstReadyFrom(b, s, i, r.value);
      } else {
        ScanTopicsFinds(b, s, i + 1);
        var r' := ScanTopics(b, s, i + 1);
        if r'.Some? {
          var k :| i + 1 <= k < |s.topics| && s.topics[k] == r'.value.topic
            && forall j, q :: i + 1 <= j < k && 0 <= q ==> !Ready(b, s, TP(s.topics[j], q));
          forall j, q | i <= j < k && 0 <= q ensures !Ready(b, s, TP(s.topics[j], q)) {}
        }
      }
    }
  }

  /** Poll returns a record exactly when some subscribed partition that is not revoked has one
      at its cursor or beyond, and then of the first such partition: in every earlier topic of
      the subscription and every earlier partition of its own topic, what is not revoked has
      been read to the end. */
  lemma PollTargetIsFirst(b: BrokerState, s: SubState)
    ensures match PollTarget(b, s)
      case Some(tp) =>
        && Stored(b, tp) && tp !in s.revoked && NextFetch(b, s, tp) < |Log(b, tp)|
        && (forall q :: 0 <= q < tp.partition ==>
             var other := TP(tp.topic, q); other in s.revoked || NextFetch(b, s, other) >= |Log(b, other)|)
        && exists k :: 0 <= k < |s.topics| && s.topics[k] == tp.topic && forall j, q :: 0 <= j < k && 0 <= q ==>
             var other := TP(s.topics[j], q);
             Stored(b, other) ==> other in s.revoked || NextFetch(b, s, other) >= |Log(b, other)|
      case None => forall tp: TP :: tp.topic in s.topics && Stored(b, tp) && tp !in s.revoked ==>
        NextFetch(b, s, tp) >= |Log(b, tp)|
  {
    ScanTopicsFinds(b, s, 0);
    var target := PollTarget(b, s);
    if target.None? {
      forall tp: TP | tp.topic in s.topics ensures !Ready(b, s, tp) {
        var j :| 0 <= j < |s.topics| && s.topics[j] == tp.topic;
        if 0 <= tp.partition { assert !Ready(b, s, TP(s.topics[j], tp.partition)); }
      }
    } else {
      var tp := target.value;
      var k :| 0 <= k < |s.topics| && s.topics[k] == tp.topic
        && forall j, q :: 0 <= j < k && 0 <= q ==> !Ready(b, s, TP(s.topics[j], q));
      forall q | 0 <= q < tp.partition
        ensures TP(tp.topic, q) in s.revoked || NextFetch(b, s, TP(tp.topic, q)) >= |Log(b, TP(tp.topic, q))|
      {
        assert !Ready(b, s, TP(tp.topic, q));
      }
      forall j, q | 0 <= j < k && 0 <= q && Stored(b, TP(s.topics[j], q))
        ensures var other := TP(s.topics[j], q); other in s.revoked || NextFetch(b, s, other) >= |Log(b, other)|
      {
        assert !Ready(b, s, TP(s.topics[j], q));
      }
    }
  }

  function Polled(s: SubState, tp: TP, next: int): SubState { s.(fetch := s.fetch[tp := next + 1]) }

  // ---- transactions ----

  function AppendAll(b: BrokerState, recs: seq<Record>, txnID: int): (b': BrokerState)
    requires WellFormed(b)
    ensures WellFormed(b')
  {
    if recs == [] then b
    else
      var b1 := AppendAll(b, recs[..|recs| - 1], txnID);
      AppendFacts(b1, recs[|recs| - 1], txnID);
      Append(b1, recs[|recs| - 1], txnID)
  }

  function RaiseAll(b: BrokerState, group: string, offsets: seq<Offset>): BrokerState {
    if offsets == [] then b
    else
      var o := offsets[|offsets| - 1];
      Raise(RaiseAll(b, group, offsets[..|offsets| - 1]), group, TP(o.topic, o.partition), o.offset + 1)
  }

  /** What a successful memTxn.Commit leaves in the broker. */
  function ApplyTxn(b: BrokerState, t: TxnState): BrokerState
    requires WellFormed(b)
  {
    var b1 := AppendAll(b, t.publishes, t.id);
    if t.groupID == "" then b1 else RaiseAll(WithGroup(b1, t.groupID), t.groupID, t.offsets)
  }

  lemma WithGroupFacts(b: BrokerState, group: string)
    requires WellFormed(b)
    ensures var b' := WithGroup(b, group);
      WellFormed(b') && b' == b.(groups := b'.groups) && forall g, tp :: GroupOffset(b', g, tp) == GroupOffset(b, g, tp)
  {
    var b' := WithGroup(b, group);
    assert forall q :: Log(b', q) == Log(b, q);
  }

  lemma {:induction false} RaiseAllWellFormed(b: BrokerState, group: string, offsets: seq<Offset>)
    requires WellFormed(b)
    ensures WellFormed(RaiseAll(b, group, offsets))
  {
    if offsets != [] {
      var o := offsets[|offsets| - 1];
      RaiseAllWellFormed(b, group, offsets[..|offsets| - 1]);
      RaiseFacts(RaiseAll(b, group, offsets[..|offsets| - 1]), group, TP(o.topic, o.partition), o.offset + 1);
    }
  }

  lemma ApplyTxnWellFormed(b: BrokerState, t: TxnState)
    requires WellFormed(b)
    ensures WellFormed(ApplyTxn(b, t))
  {
    hide WithGroup;
    var b1 := AppendAll(b, t.publishes, t.id);
    WithGroupFacts(b1, t.groupID);
    RaiseAllWellFormed(WithGroup(b1, t.groupID), t.groupID, t.offsets);
  }

  /** The transactions the consumer commits: one record and one offset, both or neither. */
  lemma ApplyOne(b: BrokerState, t: TxnState)
    requires WellFormed(b) && |t.publishes| == 1 && |t.offsets| == 1 && t.groupID != ""
    ensures var b' := ApplyTxn(b, t); var rec := t.publishes[0]; var d := Destination(b, rec); var o := t.offsets[0];
      && WellFormed(b') && b' == b.(topics := b'.topics, groups := b'.groups)
      && Log(b', d) == Log(b, d) + [MemRec(StoredRecord(b, rec), t.id, true)]
      && (forall tp :: tp != d ==> Log(b', tp) == Log(b, tp))
      && (forall g, q :: GroupOffset(b', g, q) ==
           if g == t.groupID && q == TP(o.topic, o.partition) && o.offset + 1 > GroupOffset(b, g, q) then o.offset + 1
           else GroupOffset(b, g, q))
  {
    hide Append, Raise, Destination, WithGroup;
    var rec, o := t.publishes[0], t.offsets[0];
    AppendAllOne(b, rec, t.id);
    assert t.publishes == [rec] && t.offsets == [o];
    var b1 := Append(b, rec, t.id);
    AppendFacts(b, rec, t.id);
    var b2 := WithGroup(b1, t.groupID);
    WithGroupFacts(b1, t.groupID);
    RaiseAllOne(b2, t.groupID, o);
    RaiseFacts(b2, t.groupID, TP(o.topic, o.partition), o.offset + 1);
    var b3 := Raise(b2, t.groupID, TP(o.topic, o.partition), o.offset + 1);
    assert ApplyTxn(b, t) == b3;
    forall q ensures Log(b3, q) == Log(b1, q) {
      assert b3.topics == b2.topics == b1.topics;
    }
    forall g, q ensures GroupOffset(b1, g, q) == GroupOffset(b, g, q) {
      assert b1.groups == b.groups;
    }
  }

  lemma AppendAllOne(b: BrokerState, rec: Record, txnID: int)
    requires WellFormed(b)
    ensures AppendAll(b, [rec], txnID) == Append(b, rec, txnID)
  {
    assert [rec][..0] == [];
    assert AppendAll(b, [], txnID) == b;
  }

  lemma RaiseAllOne(b: BrokerState, group: string, o: Offset)
    ensures RaiseAll(b, group, [o]) == Raise(b, group, TP(o.topic, o.partition), o.offset + 1)
  {
    assert [o][..0] == [];
    assert RaiseAll(b, group, []) == b;
  }
}
