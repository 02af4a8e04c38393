/** How a polled message finds its registration: lookup, orderingForPartition and
    topicMatchesLogical of consumer.go. The handler map is ranged over in an arbitrary
    order, so the two searches are relations; with the default namer they are functions. */
module Routing {
  import opened Wrappers
  import opened Envelope
  import opened Config

  predicate IsRetryOf(cfg: Config, topic: string, logical: string, maxRetries: int) {
    exists attempt :: 1 <= attempt <= maxRetries && cfg.namer.retry(logical, attempt) == topic
  }

  predicate Matches(cfg: Config, topic: string, logical: string, maxRetries: int) {
    || topic == logical
    || IsRetryOf(cfg, topic, logical, maxRetries)
    || (cfg.dlqEnabled && cfg.namer.dlq(logical) == topic)
  }

  method TopicMatchesLogical(cfg: Config, topic: string, logical: string, maxRetries: int) returns (matches: bool)
    ensures matches <==> Matches(cfg, topic, logical, maxRetries)
    ensures matches <==>
      || topic == logical
      || (exists a :: 1 <= a <= maxRetries && cfg.namer.retry(logical, a) == topic)
      || (cfg.dlqEnabled && cfg.namer.dlq(logical) == topic)
  {
    if topic == logical {
      return true;
    }
    var attempt := 1;
    while attempt <= maxRetries
      invariant 1 <= attempt
      invariant forall a :: 1 <= a < attempt && a <= maxRetries ==> cfg.namer.retry(logical, a) != topic
    {
      if cfg.namer.retry(logical, attempt) == topic {
        return true;
      }
      attempt := attempt + 1;
    }
    return cfg.dlqEnabled && cfg.namer.dlq(logical) == topic;
  }

  /** `base` is a handler topic whose derived names include `topic`. */
  predicate IsBase(cfg: Config, topic: string, base: string) {
    base in cfg.handlers && Matches(cfg, topic, base, cfg.MaxRetriesFor(cfg.handlers[base]))
  }

  /** Some iteration order of the handler map makes lookup answer `found`
      (the logical topic, whose registration is then used). */
  ghost predicate LookupOk(cfg: Config, msg: Message, found: Option<string>) {
    if msg.topic in cfg.handlers then found == Some(msg.topic)
    else
      var base := Get(msg.headers, ORIGINAL_TOPIC);
      if base != "" then found == (if base in cfg.handlers then Some(base) else None)
      else
        match found
        case Some(t) => IsBase(cfg, msg.topic, t)
        case None => forall t :: t in cfg.handlers ==> !IsBase(cfg, msg.topic, t)
  }

  method Lookup(cfg: Config, msg: Message) returns (found: Option<string>)
    ensures LookupOk(cfg, msg, found)
    ensures found.Some? ==> found.value in cfg.handlers
  {
    if msg.topic in cfg.handlers {
      return Some(msg.topic);
    }
    var base := Get(msg.headers, ORIGINAL_TOPIC);
    if base != "" {
      return if base in cfg.handlers then Some(base) else None;
    }
    var todo := cfg.handlers.Keys;
    while todo != {}
      invariant todo <= cfg.handlers.Keys
      invariant forall t :: t in cfg.handlers && t !in todo ==> !IsBase(cfg, msg.topic, t)
      decreases todo
    {
      var t :| t in todo;
      var matches := TopicMatchesLogical(cfg, msg.topic, t, cfg.MaxRetriesFor(cfg.handlers[t]));
      if matches {
        return Some(t);
      }
      todo := todo - {t};
    }
    return None;
  }

  /** Some iteration order makes orderingForPartition answer `o` for a worker of `topic`. */
  ghost predicate OrderingOk(cfg: Config, topic: string, o: Ordering) {
    if topic in cfg.handlers then o == cfg.OrderingFor(cfg.handlers[topic])
    else
      || (exists t :: IsBase(cfg, topic, t) && o == cfg.OrderingFor(cfg.handlers[t]))
      || ((forall t :: t in cfg.handlers ==> !IsBase(cfg, topic, t)) && o == cfg.ordering)
  }

  method OrderingForPartition(cfg: Config, topic: string) returns (o: Ordering)
    ensures OrderingOk(cfg, topic, o)
  {
    if topic in cfg.handlers {
      return cfg.OrderingFor(cfg.handlers[topic]);
    }
    var todo := cfg.handlers.Keys;
    while todo != {}
      invariant todo <= cfg.handlers.Keys
      invariant forall t :: t in cfg.handlers && t !in todo ==> !IsBase(cfg, topic, t)
      decreases todo
    {
      var t :| t in todo;
      var matches := TopicMatchesLogical(cfg, topic, t, cfg.MaxRetriesFor(cfg.handlers[t]));
      if matches {
        assert IsBase(cfg, topic, t);
        return cfg.OrderingFor(cfg.handlers[t]);
      }
      todo := todo - {t};
    }
    return cfg.ordering;
  }

  // ---- map order does not matter ----

  ghost predicate DefaultNamed(cfg: Config) {
    && (forall t, n :: cfg.namer.retry(t, n) == RetryName(t, n))
    && (forall t :: cfg.namer.dlq(t) == DlqName(t))
  }

  /** An unregistered topic is derived from at most one registered base. */
  lemma BaseUnique(cfg: Config, topic: string, b1: string, b2: string)
    requires DefaultNamed(cfg) && topic !in cfg.handlers
    requires IsBase(cfg, topic, b1) && IsBase(cfg, topic, b2)
    ensures b1 == b2
  {
    var m1, m2 := cfg.MaxRetriesFor(cfg.handlers[b1]), cfg.MaxRetriesFor(cfg.handlers[b2]);
    if IsRetryOf(cfg, topic, b1, m1) {
      var n1 :| 1 <= n1 <= m1 && cfg.namer.retry(b1, n1) == topic;
      if IsRetryOf(cfg, topic, b2, m2) {
        var n2 :| 1 <= n2 <= m2 && cfg.namer.retry(b2, n2) == topic;
        RetryNameInjective(b1, n1, b2, n2);
      } else {
        RetryIsNotDlq(b1, n1, b2);
      }
    } else if IsRetryOf(cfg, topic, b2, m2) {
      var n2 :| 1 <= n2 <= m2 && cfg.namer.retry(b2, n2) == topic;
      RetryIsNotDlq(b2, n2, b1);
    } else {
      DlqNameInjective(b1, b2);
    }
  }

  /** Every iteration order gives lookup the same answer, for every message. */
  lemma LookupDeterministic(cfg: Config, msg: Message, r1: Option<string>, r2: Option<string>)
    requires DefaultNamed(cfg)
    requires LookupOk(cfg, msg, r1) && LookupOk(cfg, msg, r2)
    ensures r1 == r2
  {
    if msg.topic !in cfg.handlers && Get(msg.headers, ORIGINAL_TOPIC) == "" {
      if r1.Some? && r2.Some? {
        BaseUnique(cfg, msg.topic, r1.value, r2.value);
      }
    }
  }

  /** Every iteration order gives a partition worker the same ordering. */
  lemma OrderingDeterministic(cfg: Config, topic: string, o1: Ordering, o2: Ordering)
    requires DefaultNamed(cfg)
    requires OrderingOk(cfg, topic, o1) && OrderingOk(cfg, topic, o2)
    ensures o1 == o2
  {
    if topic !in cfg.handlers && exists t :: t in cfg.handlers && IsBase(cfg, topic, t) {
      var t1 :| IsBase(cfg, topic, t1) && o1 == cfg.OrderingFor(cfg.handlers[t1]);
      var t2 :| IsBase(cfg, topic, t2) && o2 == cfg.OrderingFor(cfg.handlers[t2]);
      BaseUnique(cfg, topic, t1, t2);
    }
  }

  /** A message that nobody routed, on a topic that is not a handler's: it belongs to the handler
      whose retry topic within the maximum, or enabled dead-letter topic, that is, and so does
      its worker's ordering; on any other topic it has no handler and the consumer's ordering. */
  lemma StrayLookupExact(cfg: Config, msg: Message, t: string, n: int, found: Option<string>, o: Ordering)
    requires DefaultNamed(cfg) && t in cfg.handlers && msg.topic !in cfg.handlers
    requires Get(msg.headers, ORIGINAL_TOPIC) == ""
    requires LookupOk(cfg, msg, found) && OrderingOk(cfg, msg.topic, o)
    ensures msg.topic == RetryName(t, n) ==>
      var within := 1 <= n <= cfg.MaxRetriesFor(cfg.handlers[t]);
      && found == (if within then Some(t) else None)
      && o == (if within then cfg.OrderingFor(cfg.handlers[t]) else cfg.ordering)
    ensures msg.topic == DlqName(t) ==>
      && found == (if cfg.dlqEnabled then Some(t) else None)
      && o == (if cfg.dlqEnabled then cfg.OrderingFor(cfg.handlers[t]) else cfg.ordering)
    ensures (forall h, k :: h in cfg.handlers ==> msg.topic != RetryName(h, k) && msg.topic != DlqName(h)) ==>
      found == None && o == cfg.ordering
  {
    if msg.topic == RetryName(t, n) {
      StrayRetry(cfg, msg.topic, t, n);
    } else if msg.topic == DlqName(t) {
      StrayDeadLetter(cfg, msg.topic, t);
    }
  }

  lemma StrayRetry(cfg: Config, topic: string, t: string, n: int)
    requires DefaultNamed(cfg) && t in cfg.handlers && topic !in cfg.handlers && topic == RetryName(t, n)
    ensures forall b :: IsBase(cfg, topic, b) <==> b == t && 1 <= n <= cfg.MaxRetriesFor(cfg.handlers[t])
    ensures topic != DlqName(t)
  {
    RetryIsNotDlq(t, n, t);
    forall b | b in cfg.handlers
      ensures IsBase(cfg, topic, b) <==> b == t && 1 <= n <= cfg.MaxRetriesFor(cfg.handlers[t])
    {
      RetryIsNotDlq(t, n, b);
      if IsBase(cfg, topic, b) {
        var k :| 1 <= k <= cfg.MaxRetriesFor(cfg.handlers[b]) && cfg.namer.retry(b, k) == topic;
        RetryNameInjective(b, k, t, n);
      }
      assert cfg.namer.retry(t, n) == topic;
    }
  }

  lemma StrayDeadLetter(cfg: Config, topic: string, t: string)
    requires DefaultNamed(cfg) && t in cfg.handlers && topic !in cfg.handlers && topic == DlqName(t)
    ensures forall b :: IsBase(cfg, topic, b) <==> b == t && cfg.dlqEnabled
  {
    forall b | b in cfg.handlers ensures IsBase(cfg, topic, b) <==> b == t && cfg.dlqEnabled {
      if IsRetryOf(cfg, topic, b, cfg.MaxRetriesFor(cfg.handlers[b])) {
        var k :| 1 <= k <= cfg.MaxRetriesFor(cfg.handlers[b]) && cfg.namer.retry(b, k) == topic;
        RetryIsNotDlq(b, k, t);
      }
      if DlqName(b) == topic { DlqNameInjective(b, t); }
    }
  }

  // ---- routed messages find their way back ----

  /** The topic a message counts as coming from (Message.OriginalTopic). */
  function OriginalTopic(msg: Message): string {
    var t := Get(msg.headers, ORIGINAL_TOPIC);
    if t != "" then t else msg.topic
  }

  /** The worker of a retry topic has one ordering: its own handler's if it is registered,
      else that of the handler whose retry it is, for every attempt that handler allows. */
  lemma RetryOrderingExact(cfg: Config, logical: string, attempt: int, o: Ordering)
    requires DefaultNamed(cfg) && logical in cfg.handlers
    requires RetryName(logical, attempt) in cfg.handlers || 1 <= attempt <= cfg.MaxRetriesFor(cfg.handlers[logical])
    ensures OrderingOk(cfg, RetryName(logical, attempt), o) <==>
      var name := RetryName(logical, attempt);
      o == cfg.OrderingFor(cfg.handlers[if name in cfg.handlers then name else logical])
  {
    var name := RetryName(logical, attempt);
    if name !in cfg.handlers {
      assert cfg.namer.retry(logical, attempt) == name;
      assert IsBase(cfg, name, logical);
      assert OrderingOk(cfg, name, cfg.OrderingFor(cfg.handlers[logical]));
      if OrderingOk(cfg, name, o) { OrderingDeterministic(cfg, name, o, cfg.OrderingFor(cfg.handlers[logical])); }
    }
  }

  /** A retry routed for `logical` and consumed again: it finds `logical` exactly when the
      retry's name is not a handler of its own and the message's original topic is `logical`.
      Otherwise a handler of that name runs; without one, the original topic's or none. Its
      worker has the ordering of the handler of that name, else that of `logical`. */
  lemma {:induction false} RoutedLookupExact(cfg: Config, src: Message, logical: string, attempt: int, err: string,
                                             delay: int, now: Time, out: Message, found: Option<string>, o: Ordering)
    requires DefaultNamed(cfg) && logical in cfg.handlers && src.topic != ""
    requires out == RetryMessage(src, RetryName(logical, attempt), attempt, err, delay, now)
                      .(partition := out.partition, offset := out.offset)
    requires LookupOk(cfg, out, found)
    ensures found == Some(logical) <==> out.topic !in cfg.handlers && OriginalTopic(src) == logical
    ensures found ==
      if out.topic in cfg.handlers then Some(out.topic)
      else if OriginalTopic(src) in cfg.handlers then Some(OriginalTopic(src))
      else None
    ensures OriginalTopic(out) == OriginalTopic(src)
    ensures out.topic in cfg.handlers || 1 <= attempt <= cfg.MaxRetriesFor(cfg.handlers[logical]) ==>
      (OrderingOk(cfg, out.topic, o) <==>
         o == cfg.OrderingFor(cfg.handlers[if out.topic in cfg.handlers then out.topic else logical]))
  {
    DerivedIsLonger(logical, attempt);
    if out.topic in cfg.handlers || 1 <= attempt <= cfg.MaxRetriesFor(cfg.handlers[logical]) {
      RetryOrderingExact(cfg, logical, attempt, o);
    }
    AttachKeepsOrigin(src, now, attempt, Some(err), delay, ORIGINAL_TOPIC) by { KeysDistinct(); }
    assert OriginValue(src, now, ORIGINAL_TOPIC) == src.topic by { KeysDistinct(); }
    assert Get(out.headers, ORIGINAL_TOPIC) == OriginalTopic(src);
  }

  /** A retry name that is a handler of its own takes the message over: an ordinary message
      of "t" is handled as "t" first, and its retry by the handler of "t.retry.1". */
  lemma RegisteredRetryNameTakesOver(cfg: Config, src: Message, err: string, delay: int, now: Time,
                                     first: Option<string>, second: Option<string>)
    requires DefaultNamed(cfg) && cfg.handlers.Keys == {"t", RetryName("t", 1)} && src.topic == "t"
    requires LookupOk(cfg, src, first)
    requires LookupOk(cfg, RetryMessage(src, RetryName("t", 1), 1, err, delay, now), second)
    ensures first == Some("t") && second == Some(RetryName("t", 1)) && first != second
  {
    DerivedIsLonger("t", 1);
    var out := RetryMessage(src, RetryName("t", 1), 1, err, delay, now);
    RoutedLookupExact(cfg, src, "t", 1, err, delay, now, out, second, cfg.ordering);
  }

  /** Where the condition on original topics fails: a message published straight to a retry
      topic, with no original-topic header, is handled once under the base handler; its retry
      then carries the retry topic as origin and finds no handler at all. */
  lemma DirectRetryPublishIsDropped(cfg: Config, src: Message, err: string, delay: int, now: Time,
                                    first: Option<string>, second: Option<string>)
    requires DefaultNamed(cfg) && cfg.handlers.Keys == {"t"} && cfg.MaxRetriesFor(cfg.handlers["t"]) >= 1
    requires src.topic == RetryName("t", 1) && src.headers == map[]
    requires LookupOk(cfg, src, first)
    requires LookupOk(cfg, RetryMessage(src, RetryName("t", 1), 1, err, delay, now), second)
    ensures first == Some("t") && second == None
  {
    DerivedIsLonger("t", 1);
    assert cfg.namer.retry("t", 1) == src.topic;
    assert IsBase(cfg, src.topic, "t");
    AttachKeepsOrigin(src, now, 1, Some(err), delay, ORIGINAL_TOPIC) by { KeysDistinct(); }
    assert OriginValue(src, now, ORIGINAL_TOPIC) == src.topic by { KeysDistinct(); }
  }

  /** Handlers with derived names and origins: if "t.retry.1" is a handler of its own, a retry of
      it is looked up as "t" but its worker runs with the ordering of "t.retry.1". */
  lemma DerivedHandlerDisagrees(cfg: Config, src: Message, err: string, delay: int, now: Time,
                                found: Option<string>, o: Ordering)
    requires DefaultNamed(cfg) && cfg.handlers.Keys == {"t", RetryName("t", 1)}
    requires cfg.MaxRetriesFor(cfg.handlers[RetryName("t", 1)]) >= 2
    requires src.topic == RetryName("t", 1) && src.headers == map[ORIGINAL_TOPIC := "t"]
    requires RetryName(RetryName("t", 1), 2) !in cfg.handlers
    requires LookupOk(cfg, RetryMessage(src, RetryName(RetryName("t", 1), 2), 2, err, delay, now), found)
    requires OrderingOk(cfg, RetryName(RetryName("t", 1), 2), o)
    ensures found == Some("t") && o == cfg.OrderingFor(cfg.handlers[RetryName("t", 1)])
  {
    var logical := RetryName("t", 1);
    AttachKeepsOrigin(src, now, 2, Some(err), delay, ORIGINAL_TOPIC) by { KeysDistinct(); }
    assert cfg.namer.retry(logical, 2) == RetryName(logical, 2);
    assert IsBase(cfg, RetryName(logical, 2), logical);
    assert OrderingOk(cfg, RetryName(logical, 2), cfg.OrderingFor(cfg.handlers[logical]));
    OrderingDeterministic(cfg, RetryName(logical, 2), o, cfg.OrderingFor(cfg.handlers[logical]));
  }
}
