/** A message's way through its retries: what every hop to a retry topic and back keeps, and
    when each attempt may start. Journeys plays whole sequences of attempts; Timing shows that
    the hops of every run keep these times. */
module Lifecycle {
  import opened Wrappers
  import opened Decimal
  import opened Envelope
  import opened Config

  // ---- hops ----

  /** One hop: where it went, why, when, how long it must wait, the order its headers were
      written in, and where the broker put it. */
  datatype Hop = Hop(dest: string, err: string, delay: int, now: Time, headers: seq<Header>, partition: int,
                     offset: int)

  function Outgoing(m: Message, h: Hop): Message {
    RetryMessage(m, h.dest, m.RetryAttempt() + 1, h.err, h.delay, h.now)
  }

  ghost predicate HopOk(m: Message, h: Hop) { Lists(h.headers, Outgoing(m, h).headers) }

  /** Routed, written as a record, stored, polled and read back. */
  function AfterHop(m: Message, h: Hop): Message {
    MessageFromRecord(RecordWith(Outgoing(m, h), h.headers).(partition := h.partition, offset := h.offset))
  }

  function AfterHops(m: Message, hops: seq<Hop>): Message {
    if hops == [] then m else AfterHop(AfterHops(m, hops[..|hops| - 1]), hops[|hops| - 1])
  }

  ghost predicate HopsOk(m: Message, hops: seq<Hop>) {
    forall i :: 0 <= i < |hops| ==> HopOk(AfterHops(m, hops[..i]), hops[i])
  }

  /** A message as polled: its ID is its header's, and it has a topic. */
  predicate AsPolled(m: Message) { m.id == Get(m.headers, MESSAGE_ID) && m.topic != "" }

  /** One hop, headers and all. */
  lemma HopKeeps(m: Message, h: Hop)
    requires HopOk(m, h) && AsPolled(m)
    ensures var m' := AfterHop(m, h);
      && m'.headers == Outgoing(m, h).headers && m'.topic == h.dest
      && m'.id == m.id == Get(m'.headers, MESSAGE_ID) && m'.key == m.key && m'.payload == m.payload
      && m'.partition == h.partition && m'.offset == h.offset
  {
    var out := Outgoing(m, h);
    var placed := out.(partition := h.partition, offset := h.offset);
    hide AttachRetry;
    ConversionRoundTrip(placed, h.headers);
    assert RecordWith(placed, h.headers) == RecordWith(out, h.headers).(partition := h.partition, offset := h.offset);
    AttachKeepsOrigin(m, h.now, m.RetryAttempt() + 1, Some(h.err), h.delay, MESSAGE_ID) by { KeysDistinct(); }
    assert OriginValue(m, h.now, MESSAGE_ID) == m.id;
  }

  predicate WriteOnce(key: string) {
    || key == MESSAGE_ID || key == ORIGINAL_TOPIC || key == ORIGINAL_PARTITION || key == ORIGINAL_OFFSET
    || key == FIRST_FAILURE_AT
  }

  /** What the first hop leaves in a write-once header. */
  function FirstValue(m: Message, first: Hop, key: string): string {
    if Get(m.headers, key) != "" then Get(m.headers, key) else OriginValue(m, first.now, key)
  }

  lemma FirstValueSet(m: Message, first: Hop, key: string)
    requires WriteOnce(key) && m.topic != ""
    ensures FirstValue(m, first, key) != "" || key == MESSAGE_ID
  {
    KeysDistinct();
  }

  /** Over any number of hops, with headers in any order: ID, key, payload and every user
      header are unchanged; original topic, partition, offset and first failure stay as the
      first hop set them; the attempt counts the hops; the last error is the last hop's. */
  lemma {:induction false} HopsKeepMessage(m: Message, hops: seq<Hop>, key: string)
    requires AsPolled(m) && HopsOk(m, hops) && hops != [] && (forall h :: h in hops ==> h.dest != "")
    requires m.RetryAttempt() + |hops| <= MAX_INT64
    ensures var m' := AfterHops(m, hops);
      && AsPolled(m') && m'.id == m.id && m'.key == m.key && m'.payload == m.payload
      && m'.topic == hops[|hops| - 1].dest
      && m'.RetryAttempt() == m.RetryAttempt() + |hops|
      && Get(m'.headers, LAST_ERROR) == hops[|hops| - 1].err
      && (WriteOnce(key) ==> Get(m'.headers, key) == FirstValue(m, hops[0], key))
      && (key !in RETRY_KEYS ==>
            && (key in m'.headers <==> key in m.headers)
            && (key in m'.headers ==> m'.headers[key] == m.headers[key]))
    decreases |hops|
  {
    hide AttachRetry, RetryMessage, Lists, FirstValue, MessageFromRecord;
    var init, h := hops[..|hops| - 1], hops[|hops| - 1];
    var before := AfterHops(m, init);
    HopsPrefix(m, hops);
    if init == [] {
      LastHop(m, h, key);
      assert WriteOnce(key) ==>
        Get(AfterHop(m, h).headers, key) == FirstValue(m, h, key) by { if WriteOnce(key) { FirstHop(m, h, key); } }
    } else {
      HopsKeepMessage(m, init, key);
      LastHop(before, h, key);
      assert WriteOnce(key) ==> Get(AfterHop(before, h).headers, key) == FirstValue(m, hops[0], key) by {
        if WriteOnce(key) {
          FirstHop(before, h, key);
          FirstValueSet(m, hops[0], key);
          LaterHop(m, before, h, hops[0], key);
        }
      }
    }
  }

  lemma HopsPrefix(m: Message, hops: seq<Hop>)
    requires HopsOk(m, hops) && hops != []
    ensures HopsOk(m, hops[..|hops| - 1]) && HopOk(AfterHops(m, hops[..|hops| - 1]), hops[|hops| - 1])
  {
    hide HopOk;
    var init := hops[..|hops| - 1];
    forall i | 0 <= i < |init| ensures HopOk(AfterHops(m, init[..i]), init[i]) {
      assert init[..i] == hops[..i];
    }
  }

  lemma LastHop(m: Message, h: Hop, key: string)
    requires AsPolled(m) && HopOk(m, h) && h.dest != "" && m.RetryAttempt() < MAX_INT64
    ensures var m' := AfterHop(m, h);
      && AsPolled(m') && m'.id == m.id && m'.key == m.key && m'.payload == m.payload && m'.topic == h.dest
      && m'.RetryAttempt() == m.RetryAttempt() + 1 && Get(m'.headers, LAST_ERROR) == h.err
      && (key !in RETRY_KEYS ==>
            && (key in m'.headers <==> key in m.headers)
            && (key in m'.headers ==> m'.headers[key] == m.headers[key]))
  {
    hide AttachRetry;
    HopKeeps(m, h);
    AttemptInRange(m);
    AttachStampsAttempt(m, h.now, m.RetryAttempt() + 1, Some(h.err), h.delay);
    if key !in RETRY_KEYS { AttachKeepsUserHeaders(m, h.now, m.RetryAttempt() + 1, Some(h.err), h.delay, key); }
  }

  /** Atoi refuses what does not fit. */
  lemma AttemptInRange(m: Message)
    ensures MIN_INT64 <= m.RetryAttempt() <= MAX_INT64
  {
  }

  lemma FirstHop(m: Message, h: Hop, key: string)
    requires AsPolled(m) && HopOk(m, h) && WriteOnce(key)
    ensures Get(AfterHop(m, h).headers, key) == FirstValue(m, h, key)
  {
    hide AttachRetry;
    HopKeeps(m, h);
    KeysDistinct();
    AttachKeepsOrigin(m, h.now, m.RetryAttempt() + 1, Some(h.err), h.delay, key);
  }

  lemma LaterHop(m: Message, before: Message, h: Hop, first: Hop, key: string)
    requires WriteOnce(key) && Get(before.headers, key) == FirstValue(m, first, key) && AsPolled(before) && AsPolled(m)
    requires before.id == m.id
    requires FirstValue(m, first, key) != "" || key == MESSAGE_ID
    ensures FirstValue(before, h, key) == FirstValue(m, first, key)
  {
    KeysDistinct();
  }

  // ---- backoff ----

  /** The delays before attempts from + 1 to from + k. */
  function TotalBackoff(backoffs: seq<int>, from: int, k: nat): int {
    if k == 0 then 0 else TotalBackoff(backoffs, from, k - 1) + BackoffFor(backoffs, from + k)
  }

  /** The attempt after the hop started at `start`: after the hop was routed and not before
      the message's time, as waitNotBefore has it. */
  ghost predicate TimedHop(m: Message, h: Hop, start: Time, backoffs: seq<int>) {
    && h.delay == BackoffFor(backoffs, m.RetryAttempt() + 1)
    && h.now <= start && MIN_INT64 <= h.now && h.now + h.delay <= MAX_INT64
    && (AfterHop(m, h).NotBefore().Some? ==> AfterHop(m, h).NotBefore().value <= start)
  }

  /** `starts[i]` belongs to hop i, and a failure is routed after its attempt started. */
  ghost predicate Timed(m: Message, hops: seq<Hop>, starts: seq<Time>, backoffs: seq<int>) {
    && |starts| == |hops|
    && (forall i :: 0 <= i < |hops| ==> TimedHop(AfterHops(m, hops[..i]), hops[i], starts[i], backoffs))
    && (forall i :: 0 < i < |hops| ==> starts[i - 1] <= hops[i].now)
  }

  lemma HopWaits(m: Message, h: Hop, start: Time, backoffs: seq<int>)
    requires AsPolled(m) && HopOk(m, h) && TimedHop(m, h, start, backoffs)
    ensures start >= h.now + BackoffFor(backoffs, m.RetryAttempt() + 1)
  {
    if h.delay > 0 {
      HopKeeps(m, h);
      KeysDistinct();
      AtoiOfItoa(h.now + h.delay);
    }
  }

  lemma TimedPrefix(m: Message, hops: seq<Hop>, starts: seq<Time>, backoffs: seq<int>)
    requires Timed(m, hops, starts, backoffs) && hops != []
    ensures Timed(m, hops[..|hops| - 1], starts[..|hops| - 1], backoffs)
    ensures TimedHop(AfterHops(m, hops[..|hops| - 1]), hops[|hops| - 1], starts[|hops| - 1], backoffs)
  {
    hide TimedHop, AfterHops;
    var n := |hops| - 1;
    forall i | 0 <= i < n ensures TimedHop(AfterHops(m, hops[..n][..i]), hops[..n][i], starts[..n][i], backoffs) {
      assert hops[..n][..i] == hops[..i];
    }
  }

  /** With one clock that never goes back, attempt k starts no earlier than the first
      failure's routing plus the sum of the first k backoffs. */
  lemma {:induction false} StartsAfterBackoff(m: Message, hops: seq<Hop>, starts: seq<Time>, backoffs: seq<int>)
    requires AsPolled(m) && HopsOk(m, hops) && hops != [] && (forall h :: h in hops ==> h.dest != "")
    requires m.RetryAttempt() + |hops| <= MAX_INT64
    requires Timed(m, hops, starts, backoffs)
    ensures starts[|hops| - 1] >= hops[0].now + TotalBackoff(backoffs, m.RetryAttempt(), |hops|)
    decreases |hops|
  {
    hide AfterHop, HopOk, HopsOk, TimedHop, AsPolled;
    var n := |hops| - 1;
    var init := hops[..n];
    HopsPrefix(m, hops);
    TimedPrefix(m, hops, starts, backoffs);
    if init != [] {
      HopsKeepMessage(m, init, "");
      StartsAfterBackoff(m, init, starts[..n], backoffs);
    }
    HopWaits(AfterHops(m, init), hops[n], starts[n], backoffs);
  }

  function PrefixSum(backoffs: seq<int>, k: nat): int
    requires k <= |backoffs|
  {
    if k == 0 then 0 else PrefixSum(backoffs, k - 1) + backoffs[k - 1]
  }

  /** The sum in closed form: the listed backoffs, then the last one over and over. */
  lemma {:induction false} TotalBackoffClosed(backoffs: seq<int>, k: nat)
    ensures TotalBackoff(backoffs, 0, k) ==
      if backoffs == [] then 0
      else if k <= |backoffs| then PrefixSum(backoffs, k)
      else PrefixSum(backoffs, |backoffs|) + (k - |backoffs|) * backoffs[|backoffs| - 1]
  {
    if k > 0 { TotalBackoffClosed(backoffs, k - 1); }
  }
}
