/** The message envelope (message.go), its header map (headers.go), driver records
    (driver/driver.go) and the conversions and retry metadata of convert.go. */
module Envelope {
  import opened Wrappers
  import opened Decimal

  newtype byte = b: int | 0 <= b < 256

  type Bytes = seq<byte>

  /** Times are nanosecond counts; header time text is their decimal text (see README). */
  type Time = int

  type Headers = map<string, string>

  const MESSAGE_ID := "x-message-id"
  const RETRY_ATTEMPT := "x-retry-attempt"
  const ORIGINAL_TOPIC := "x-original-topic"
  const ORIGINAL_PARTITION := "x-original-partition"
  const ORIGINAL_OFFSET := "x-original-offset"
  const FIRST_FAILURE_AT := "x-first-failure-at"
  const LAST_ERROR := "x-last-error"
  const RETRY_NOT_BEFORE := "x-retry-not-before"

  /** The keys attachRetryMetadata may write; every other key belongs to the user. */
  const RETRY_KEYS: set<string> := {
    MESSAGE_ID, RETRY_ATTEMPT, ORIGINAL_TOPIC, ORIGINAL_PARTITION, ORIGINAL_OFFSET,
    FIRST_FAILURE_AT, LAST_ERROR, RETRY_NOT_BEFORE
  }

  /** The key texts differ, by length or by one character. */
  lemma KeysDistinct()
    ensures MESSAGE_ID != RETRY_ATTEMPT && MESSAGE_ID != ORIGINAL_TOPIC && MESSAGE_ID != ORIGINAL_PARTITION
    ensures MESSAGE_ID != ORIGINAL_OFFSET && MESSAGE_ID != FIRST_FAILURE_AT && MESSAGE_ID != LAST_ERROR
    ensures MESSAGE_ID != RETRY_NOT_BEFORE
    ensures RETRY_ATTEMPT != ORIGINAL_TOPIC && RETRY_ATTEMPT != ORIGINAL_PARTITION && RETRY_ATTEMPT != ORIGINAL_OFFSET
    ensures RETRY_ATTEMPT != FIRST_FAILURE_AT && RETRY_ATTEMPT != LAST_ERROR && RETRY_ATTEMPT != RETRY_NOT_BEFORE
    ensures ORIGINAL_TOPIC != ORIGINAL_PARTITION && ORIGINAL_TOPIC != ORIGINAL_OFFSET
    ensures ORIGINAL_TOPIC != FIRST_FAILURE_AT
    ensures ORIGINAL_TOPIC != LAST_ERROR && ORIGINAL_TOPIC != RETRY_NOT_BEFORE
    ensures ORIGINAL_PARTITION != ORIGINAL_OFFSET && ORIGINAL_PARTITION != FIRST_FAILURE_AT
    ensures ORIGINAL_PARTITION != LAST_ERROR && ORIGINAL_PARTITION != RETRY_NOT_BEFORE
    ensures ORIGINAL_OFFSET != FIRST_FAILURE_AT && ORIGINAL_OFFSET != LAST_ERROR && ORIGINAL_OFFSET != RETRY_NOT_BEFORE
    ensures FIRST_FAILURE_AT != LAST_ERROR && FIRST_FAILURE_AT != RETRY_NOT_BEFORE && LAST_ERROR != RETRY_NOT_BEFORE
  {
    assert MESSAGE_ID[2] != LAST_ERROR[2];
    assert FIRST_FAILURE_AT[2] != RETRY_NOT_BEFORE[2];
  }

  function Get(h: Headers, key: string): string {
    if key in h then h[key] else ""
  }

  function ParseInt(h: Headers, key: string): int {
    match Atoi(Get(h, key))
    case Some(n) => n
    case None => 0
  }

  datatype Header = Header(key: string, value: string)

  datatype Record = Record(topic: string, partition: int, offset: int, key: Bytes,
                           value: Bytes, headers: seq<Header>, timestamp: Time)

  datatype Message = Message(id: string, key: Bytes, payload: Bytes, headers: Headers,
                             topic: string, partition: int, offset: int, timestamp: Time)
  {
    function RetryAttempt(): int { ParseInt(headers, RETRY_ATTEMPT) }

    /** None is the zero time: no header, or text that does not parse. */
    function NotBefore(): Option<Time> { Atoi(Get(headers, RETRY_NOT_BEFORE)) }
  }

  // ---- records to messages ----

  /** Duplicate header keys keep the last value. */
  function FoldHeaders(hs: seq<Header>): Headers {
    if hs == [] then map[]
    else FoldHeaders(hs[..|hs| - 1])[hs[|hs| - 1].key := hs[|hs| - 1].value]
  }

  function MessageFromRecord(rec: Record): Message {
    var h := FoldHeaders(rec.headers);
    Message(Get(h, MESSAGE_ID), rec.key, rec.value, h, rec.topic, rec.partition, rec.offset, rec.timestamp)
  }

  /** Position `i` is the last one that lists its key. */
  ghost predicate LastOfKey(hs: seq<Header>, i: int) {
    0 <= i < |hs| && forall j :: i < j < |hs| ==> hs[j].key != hs[i].key
  }

  /** The last value listed for a key is the message's. */
  lemma {:induction false} FoldKeepsLast(hs: seq<Header>, i: int)
    requires LastOfKey(hs, i)
    ensures hs[i].key in FoldHeaders(hs) && FoldHeaders(hs)[hs[i].key] == hs[i].value
    decreases |hs|
  {
    var n := |hs| - 1;
    if i < n {
      assert LastOfKey(hs[..n], i);
      FoldKeepsLast(hs[..n], i);
      assert hs[n].key != hs[i].key;
    }
  }

  method FoldRecordHeaders(rec: Record) returns (msg: Message)
    ensures msg == MessageFromRecord(rec)
    ensures msg.key == rec.key && msg.payload == rec.value && msg.timestamp == rec.timestamp
    ensures msg.topic == rec.topic && msg.partition == rec.partition && msg.offset == rec.offset
    ensures forall i :: LastOfKey(rec.headers, i) ==> Get(msg.headers, rec.headers[i].key) == rec.headers[i].value
  {
    forall i | LastOfKey(rec.headers, i)
      ensures Get(FoldHeaders(rec.headers), rec.headers[i].key) == rec.headers[i].value
    {
      FoldKeepsLast(rec.headers, i);
    }
    var h: Headers := map[];
    for i := 0 to |rec.headers|
      invariant h == FoldHeaders(rec.headers[..i])
    {
      h := h[rec.headers[i].key := rec.headers[i].value];
      assert rec.headers[..i + 1][..i] == rec.headers[..i];
    }
    assert rec.headers[..|rec.headers|] == rec.headers;
    msg := Message(Get(h, MESSAGE_ID), rec.key, rec.value, h, rec.topic, rec.partition, rec.offset, rec.timestamp);
  }

  // ---- messages to records ----

  /** `hs` lists the header map `h` once per key, in whatever order the range loop took. */
  ghost predicate Lists(hs: seq<Header>, h: Headers) {
    && (forall i, j :: 0 <= i < j < |hs| ==> hs[i].key != hs[j].key)
    && (forall i :: 0 <= i < |hs| ==> hs[i].key in h && h[hs[i].key] == hs[i].value)
    && (forall k :: k in h ==> exists i :: 0 <= i < |hs| && hs[i].key == k)
  }

  function RecordWith(msg: Message, hs: seq<Header>): Record {
    Record(msg.topic, msg.partition, msg.offset, msg.key, msg.payload, hs, msg.timestamp)
  }

  /** recordFromMessage ranges over a Go map: the order is any order. */
  method RecordFromMessage(msg: Message) returns (rec: Record)
    ensures Lists(rec.headers, msg.headers) && rec == RecordWith(msg, rec.headers)
    ensures rec.key == msg.key && rec.value == msg.payload && rec.timestamp == msg.timestamp
    ensures rec.topic == msg.topic && rec.partition == msg.partition && rec.offset == msg.offset
  {
    var hs: seq<Header> := [];
    var todo := msg.headers.Keys;
    while todo != {}
      invariant todo <= msg.headers.Keys
      invariant Lists(hs, msg.headers - todo)
      decreases todo
    {
      var k :| k in todo;
      assert msg.headers - (todo - {k}) - {k} == msg.headers - todo;
      ListsOneMore(hs, msg.headers - (todo - {k}), k);
      hs := hs + [Header(k, msg.headers[k])];
      todo := todo - {k};
    }
    assert msg.headers - todo == msg.headers;
    rec := RecordWith(msg, hs);
  }

  lemma ListsOneMore(init: seq<Header>, h: Headers, k: string)
    requires k in h && Lists(init, h - {k})
    ensures Lists(init + [Header(k, h[k])], h)
  {
    var hs := init + [Header(k, h[k])];
    forall q | q in h ensures exists i :: 0 <= i < |hs| && hs[i].key == q {
      if q == k {
        assert hs[|init|].key == q;
      } else {
        assert q in h - {k};
        var i :| 0 <= i < |init| && init[i].key == q;
        assert hs[i].key == q;
      }
    }
  }

  /** Every header map can be listed. */
  lemma {:induction false} SomeListing(h: Headers) returns (hs: seq<Header>)
    ensures Lists(hs, h)
    decreases |h|
  {
    if h == map[] {
      hs := [];
    } else {
      var k :| k in h;
      var init := SomeListing(h - {k});
      ListsOneMore(init, h, k);
      hs := init + [Header(k, h[k])];
    }
  }

  lemma {:induction false} FoldContains(hs: seq<Header>)
    requires forall i, j :: 0 <= i < j < |hs| ==> hs[i].key != hs[j].key
    ensures forall i :: 0 <= i < |hs| ==> hs[i].key in FoldHeaders(hs) && FoldHeaders(hs)[hs[i].key] == hs[i].value
    ensures forall k :: k in FoldHeaders(hs) ==> exists i :: 0 <= i < |hs| && hs[i].key == k
  {
    if hs != [] {
      var init := hs[..|hs| - 1];
      FoldContains(init);
      forall i | 0 <= i < |hs|
        ensures hs[i].key in FoldHeaders(hs) && FoldHeaders(hs)[hs[i].key] == hs[i].value
      {
        if i < |init| { assert hs[i] == init[i]; }
      }
      forall k | k in FoldHeaders(hs) ensures exists i :: 0 <= i < |hs| && hs[i].key == k {
        if k == hs[|hs| - 1].key {
        } else {
          assert k in FoldHeaders(init);
          var i :| 0 <= i < |init| && init[i].key == k;
          assert hs[i].key == k;
        }
      }
    }
  }

  /** A record and back: whatever order the headers were written in, the map, key,
      payload, position and timestamp come back, and the ID is the header's. */
  lemma ConversionRoundTrip(msg: Message, hs: seq<Header>)
    requires Lists(hs, msg.headers)
    ensures MessageFromRecord(RecordWith(msg, hs)) == msg.(id := Get(msg.headers, MESSAGE_ID))
  {
    FoldContains(hs);
    assert FoldHeaders(hs) == msg.headers by {
      forall k | k in msg.headers ensures k in FoldHeaders(hs) && FoldHeaders(hs)[k] == msg.headers[k] {
        var i :| 0 <= i < |hs| && hs[i].key == k;
      }
      assert FoldHeaders(hs).Keys == msg.headers.Keys;
    }
  }

  // ---- retry metadata ----

  /** `h` with `key` set to `value` unless it already holds a non-empty value. */
  function SetIfEmpty(h: Headers, key: string, value: string): Headers {
    if Get(h, key) == "" then h[key := value] else h
  }

  function WithOrigin(src: Message, now: Time): Headers {
    var h1 := SetIfEmpty(src.headers, MESSAGE_ID, src.id);
    var h2 := SetIfEmpty(h1, ORIGINAL_TOPIC, src.topic);
    var h3 := SetIfEmpty(h2, ORIGINAL_PARTITION, Itoa(src.partition));
    var h4 := SetIfEmpty(h3, ORIGINAL_OFFSET, Itoa(src.offset));
    SetIfEmpty(h4, FIRST_FAILURE_AT, Itoa(now))
  }

  /** The headers attachRetryMetadata builds; `err` is the error text, None for a nil error. */
  function AttachRetry(src: Message, now: Time, nextAttempt: int, err: Option<string>, delay: int): Headers {
    var h := WithOrigin(src, now)[RETRY_ATTEMPT := Itoa(nextAttempt)];
    var h' := if err.Some? then h[LAST_ERROR := err.value] else h;
    if delay > 0 then h'[RETRY_NOT_BEFORE := Itoa(now + delay)] else h'
  }

  method AttachRetryMetadata(src: Message, now: Time, nextAttempt: int, err: Option<string>, delay: int)
    returns (h: Headers)
    ensures h == AttachRetry(src, now, nextAttempt, err, delay)
  {
    h := src.headers;
    if Get(h, MESSAGE_ID) == "" {
      h := h[MESSAGE_ID := src.id];
    }
    assert h == SetIfEmpty(src.headers, MESSAGE_ID, src.id);
    ghost var h1 := h;
    var origTopic := Get(h, ORIGINAL_TOPIC);
    if origTopic == "" {
      origTopic := src.topic;
      h := h[ORIGINAL_TOPIC := origTopic];
    }
    assert h == SetIfEmpty(h1, ORIGINAL_TOPIC, src.topic);
    ghost var h2 := h;
    if Get(h, ORIGINAL_PARTITION) == "" {
      h := h[ORIGINAL_PARTITION := Itoa(src.partition)];
    }
    assert h == SetIfEmpty(h2, ORIGINAL_PARTITION, Itoa(src.partition));
    ghost var h3 := h;
    if Get(h, ORIGINAL_OFFSET) == "" {
      h := h[ORIGINAL_OFFSET := Itoa(src.offset)];
    }
    assert h == SetIfEmpty(h3, ORIGINAL_OFFSET, Itoa(src.offset));
    ghost var h4 := h;
    if Get(h, FIRST_FAILURE_AT) == "" {
      h := h[FIRST_FAILURE_AT := Itoa(now)];
    }
    assert h == SetIfEmpty(h4, FIRST_FAILURE_AT, Itoa(now));
    assert h == WithOrigin(src, now);
    h := h[RETRY_ATTEMPT := Itoa(nextAttempt)];
    if err.Some? {
      h := h[LAST_ERROR := err.value];
    }
    if delay > 0 {
      h := h[RETRY_NOT_BEFORE := Itoa(now + delay)];
    }
  }

  lemma GetSetIfEmpty(h: Headers, k: string, v: string, q: string)
    ensures Get(SetIfEmpty(h, k, v), q) == if q == k && Get(h, k) == "" then v else Get(h, q)
  {
  }

  /** The value the first hop gives a write-once key that is still empty. */
  function OriginValue(src: Message, now: Time, key: string): string {
    if key == MESSAGE_ID then src.id
    else if key == ORIGINAL_TOPIC then src.topic
    else if key == ORIGINAL_PARTITION then Itoa(src.partition)
    else if key == ORIGINAL_OFFSET then Itoa(src.offset)
    else if key == FIRST_FAILURE_AT then Itoa(now)
    else ""
  }

  lemma OriginGet(src: Message, now: Time, key: string)
    ensures Get(WithOrigin(src, now), key) ==
      if Get(src.headers, key) != "" then Get(src.headers, key) else OriginValue(src, now, key)
  {
    KeysDistinct();
    var h1 := SetIfEmpty(src.headers, MESSAGE_ID, src.id);
    var h2 := SetIfEmpty(h1, ORIGINAL_TOPIC, src.topic);
    var h3 := SetIfEmpty(h2, ORIGINAL_PARTITION, Itoa(src.partition));
    var h4 := SetIfEmpty(h3, ORIGINAL_OFFSET, Itoa(src.offset));
    GetSetIfEmpty(src.headers, MESSAGE_ID, src.id, key);
    GetSetIfEmpty(h1, ORIGINAL_TOPIC, src.topic, key);
    GetSetIfEmpty(h2, ORIGINAL_PARTITION, Itoa(src.partition), key);
    GetSetIfEmpty(h3, ORIGINAL_OFFSET, Itoa(src.offset), key);
    GetSetIfEmpty(h4, FIRST_FAILURE_AT, Itoa(now), key);
  }

  /** Write-once: metadata already present survives, absent metadata is taken from this hop. */
  lemma AttachKeepsOrigin(src: Message, now: Time, nextAttempt: int, err: Option<string>, delay: int, key: string)
    requires key != RETRY_ATTEMPT && key != LAST_ERROR && key != RETRY_NOT_BEFORE
    ensures Get(AttachRetry(src, now, nextAttempt, err, delay), key) ==
      if Get(src.headers, key) != "" then Get(src.headers, key) else OriginValue(src, now, key)
  {
    OriginGet(src, now, key);
  }

  /** The first hop of a message that carries no retry headers says where it came from. */
  lemma FirstHopNamesSource(src: Message, now: Time, nextAttempt: int, err: Option<string>, delay: int)
    requires forall key :: key in RETRY_KEYS ==> Get(src.headers, key) == ""
    requires MIN_INT64 <= src.partition <= MAX_INT64 && MIN_INT64 <= src.offset <= MAX_INT64
    requires MIN_INT64 <= now <= MAX_INT64
    ensures var h := AttachRetry(src, now, nextAttempt, err, delay);
      && Get(h, MESSAGE_ID) == src.id && Get(h, ORIGINAL_TOPIC) == src.topic
      && Atoi(Get(h, ORIGINAL_PARTITION)) == Some(src.partition) && Atoi(Get(h, ORIGINAL_OFFSET)) == Some(src.offset)
      && Atoi(Get(h, FIRST_FAILURE_AT)) == Some(now)
  {
    hide AttachRetry;
    KeysDistinct();
    AtoiOfItoa(src.partition);
    AtoiOfItoa(src.offset);
    AtoiOfItoa(now);
    AttachKeepsOrigin(src, now, nextAttempt, err, delay, MESSAGE_ID);
    AttachKeepsOrigin(src, now, nextAttempt, err, delay, ORIGINAL_TOPIC);
    AttachKeepsOrigin(src, now, nextAttempt, err, delay, ORIGINAL_PARTITION);
    AttachKeepsOrigin(src, now, nextAttempt, err, delay, ORIGINAL_OFFSET);
    AttachKeepsOrigin(src, now, nextAttempt, err, delay, FIRST_FAILURE_AT);
  }

  lemma AttachStampsAttempt(src: Message, now: Time, nextAttempt: int, err: Option<string>, delay: int)
    requires MIN_INT64 <= nextAttempt <= MAX_INT64
    ensures var h := AttachRetry(src, now, nextAttempt, err, delay);
      ParseInt(h, RETRY_ATTEMPT) == nextAttempt
      && Get(h, LAST_ERROR) == (if err.Some? then err.value else Get(src.headers, LAST_ERROR))
  {
    KeysDistinct();
    AtoiOfItoa(nextAttempt);
  }

  /** A positive delay sets the time before which the message must not be started, exactly;
      without one an older time stays as it is. */
  lemma AttachStampsNotBefore(src: Message, now: Time, nextAttempt: int, err: Option<string>, delay: int)
    ensures var h := AttachRetry(src, now, nextAttempt, err, delay);
      && (delay > 0 && MIN_INT64 <= now + delay <= MAX_INT64 ==> Atoi(Get(h, RETRY_NOT_BEFORE)) == Some(now + delay))
      && (delay <= 0 ==> Get(h, RETRY_NOT_BEFORE) == Get(src.headers, RETRY_NOT_BEFORE))
  {
    KeysDistinct();
    if delay > 0 && MIN_INT64 <= now + delay <= MAX_INT64 { AtoiOfItoa(now + delay); }
  }

  lemma AttachKeepsUserHeaders(src: Message, now: Time, nextAttempt: int, err: Option<string>, delay: int, key: string)
    requires key !in RETRY_KEYS
    ensures var h := AttachRetry(src, now, nextAttempt, err, delay);
      (key in h <==> key in src.headers) && (key in h ==> h[key] == src.headers[key])
  {
    KeysDistinct();
  }

  /** retryMessage: the envelope routed to `dest`. */
  function RetryMessage(src: Message, dest: string, attempt: int, err: string, delay: int, now: Time): Message {
    var h := AttachRetry(src, now, attempt, Some(err), delay);
    src.(topic := dest, headers := h, id := Get(h, MESSAGE_ID), partition := 0, offset := 0, timestamp := now)
  }

  method BuildRetryMessage(src: Message, dest: string, attempt: int, err: string, delay: int, now: Time)
    returns (out: Message)
    ensures out == RetryMessage(src, dest, attempt, err, delay, now)
  {
    var h := AttachRetryMetadata(src, now, attempt, Some(err), delay);
    out := src.(topic := dest, headers := h, id := Get(h, MESSAGE_ID), partition := 0, offset := 0, timestamp := now);
  }
}
