/** When retries run dry, exactly. A consumer may read its own dead-letter topics; what it
    fails to handle there is dead-lettered again. Drain's bound needs a budget; there is one
    if and only if that chain of topics ends, from every handler. Otherwise some message is
    dead-lettered for ever, and configurations the topic plan accepts are of that kind. */
module DeadLetters {
  import opened Wrappers
  import opened Decimal
  import opened Envelope
  import opened Config
  import opened Routing
  import opened Protocol
  import opened Broker
  import opened Runs
  import opened Drain
  import TopicPlan

  /** The dead letters of this handler are consumed again. */
  predicate Consumed(cfg: Config, topics: seq<string>, t: string) { cfg.dlqEnabled && cfg.namer.dlq(t) in topics }

  /** From `t`, dead letters go through at most `k` consumed topics, each with a handler. */
  predicate EndsIn(cfg: Config, topics: seq<string>, t: string, k: nat)
    decreases k
  {
    Consumed(cfg, topics, t) ==>
      k > 0 && cfg.namer.dlq(t) in cfg.handlers && EndsIn(cfg, topics, cfg.namer.dlq(t), k - 1)
  }

  /** No chain of different handlers is longer. */
  function Levels(cfg: Config): nat { if |cfg.handlers| == 0 then 0 else |cfg.handlers| - 1 }

  /** Following dead letters from any handler, one arrives at a topic that is not consumed,
      by way of handled topics only. */
  predicate DeadLettersEnd(cfg: Config, topics: seq<string>) {
    forall t :: t in cfg.handlers ==> EndsIn(cfg, topics, t, Levels(cfg))
  }

  function Hops(cfg: Config, topics: seq<string>, t: string, k: nat): nat
    decreases k
  {
    if k == 0 || !Consumed(cfg, topics, t) then 0 else 1 + Hops(cfg, topics, cfg.namer.dlq(t), k - 1)
  }

  lemma {:induction false} EndsMore(cfg: Config, topics: seq<string>, t: string, k: nat, more: nat)
    requires EndsIn(cfg, topics, t, k) && k <= more
    ensures EndsIn(cfg, topics, t, more) && Hops(cfg, topics, t, more) == Hops(cfg, topics, t, k) <= k
    decreases k
  {
    if Consumed(cfg, topics, t) { EndsMore(cfg, topics, cfg.namer.dlq(t), k - 1, more - 1); }
  }

  // ---- a chain that ends is short ----

  /** The handlers with fewer hops left. */
  function Nearer(cfg: Config, topics: seq<string>, t: string, k: nat): set<string> {
    set h | h in cfg.handlers && EndsIn(cfg, topics, h, k) && Hops(cfg, topics, h, k) < Hops(cfg, topics, t, k)
  }

  lemma {:induction false} EndsByCount(cfg: Config, topics: seq<string>, t: string, k: nat)
    requires t in cfg.handlers && EndsIn(cfg, topics, t, k)
    ensures EndsIn(cfg, topics, t, |Nearer(cfg, topics, t, k)|)
    decreases Hops(cfg, topics, t, k)
  {
    if Consumed(cfg, topics, t) {
      var d := cfg.namer.dlq(t);
      EndsMore(cfg, topics, d, k - 1, k);
      EndsByCount(cfg, topics, d, k);
      var near, nearer := Nearer(cfg, topics, t, k), Nearer(cfg, topics, d, k);
      SubsetSmaller(nearer, near - {d});
      EndsMore(cfg, topics, d, |nearer|, |near| - 1);
    }
  }

  /** Handlers do not repeat along a chain that ends. */
  lemma EndsSoon(cfg: Config, topics: seq<string>, t: string, k: nat)
    requires t in cfg.handlers && EndsIn(cfg, topics, t, k)
    ensures EndsIn(cfg, topics, t, Levels(cfg))
  {
    EndsByCount(cfg, topics, t, k);
    var near := Nearer(cfg, topics, t, k);
    SubsetSmaller(near, cfg.handlers.Keys - {t});
    assert |cfg.handlers| == |cfg.handlers.Keys|;
    EndsMore(cfg, topics, t, |near|, Levels(cfg));
  }

  // ---- a budget, exactly then ----

  /** Every handler's level is the number of consumed topics its dead letters go through. */
  function ChainBudget(cfg: Config, topics: seq<string>, max: nat): Budget {
    Budget(max, Levels(cfg), map t | t in cfg.handlers :: Hops(cfg, topics, t, Levels(cfg)))
  }

  lemma {:induction false} FitsEnds(cfg: Config, topics: seq<string>, b: Budget, t: string)
    requires Fits(cfg, topics, b) && t in cfg.handlers
    ensures EndsIn(cfg, topics, t, b.depth[t])
    decreases b.depth[t]
  {
    if Consumed(cfg, topics, t) {
      var d := cfg.namer.dlq(t);
      FitsEnds(cfg, topics, b, d);
      EndsMore(cfg, topics, d, b.depth[d], b.depth[t] - 1);
    }
  }

  /** Retries and dead letters of a backlog are bounded by a budget if and only if the chains
      of dead letters end; the budget then has at most one level for every handler. */
  lemma {:induction false} BudgetExactly(cfg: Config, topics: seq<string>, max: nat)
    requires max <= MAX_INT64 && forall t :: t in cfg.handlers ==> cfg.MaxRetriesFor(cfg.handlers[t]) <= max
    ensures DeadLettersEnd(cfg, topics) ==> Fits(cfg, topics, ChainBudget(cfg, topics, max))
    ensures (exists b :: Fits(cfg, topics, b)) <==> DeadLettersEnd(cfg, topics)
  {
    var b := ChainBudget(cfg, topics, max);
    if DeadLettersEnd(cfg, topics) {
      forall t | t in cfg.handlers
        ensures b.depth[t] <= b.deepest
        ensures Consumed(cfg, topics, t) ==> cfg.namer.dlq(t) in cfg.handlers && b.depth[cfg.namer.dlq(t)] < b.depth[t]
      {
        EndsMore(cfg, topics, t, Levels(cfg), Levels(cfg));
        if Consumed(cfg, topics, t) { EndsMore(cfg, topics, cfg.namer.dlq(t), Levels(cfg) - 1, Levels(cfg)); }
      }
      assert Fits(cfg, topics, b);
    }
    if exists b :: Fits(cfg, topics, b) {
      var b :| Fits(cfg, topics, b);
      forall t | t in cfg.handlers ensures EndsIn(cfg, topics, t, Levels(cfg)) {
        FitsEnds(cfg, topics, b, t);
        EndsSoon(cfg, topics, t, b.depth[t]);
      }
    }
  }

  /** Then the uncommitted messages cause at most (max retries + 1) records and calls for every
      level, each: Drain.FreshMessagesBound with a condition on the configuration alone. */
  lemma {:induction false} BacklogBound(cfg: Config, max: nat, labels: seq<Label>, more: seq<Label>, parts: seq<TP>)
    requires cfg.groupID != "" && max <= MAX_INT64
    requires forall t :: t in cfg.handlers ==> cfg.MaxRetriesFor(cfg.handlers[t]) <= max
    requires DeadLettersEnd(cfg, Run(cfg, labels).sh.sub.topics)
    requires Fresh(Run(cfg, labels)) && (forall l :: l in more ==> NoNewMessages(l))
    requires NoDuplicates(parts) && forall tp :: tp in Run(cfg, labels + more).workers ==> tp in parts
    ensures var w, w' := Run(cfg, labels), Run(cfg, labels + more); var each := (max + 1) * (Levels(cfg) + 1);
      && TotalAhead(w, w', parts) <= TotalAhead(w, w, parts) * each
      && TotalCalls(w', parts) <= TotalAhead(w, w, parts) * each
  {
    hide Run, Fresh, Fits, TotalAhead, TotalCalls, DeadLettersEnd;
    var topics := Run(cfg, labels).sh.sub.topics;
    BudgetExactly(cfg, topics, max);
    FreshMessagesBound(cfg, ChainBudget(cfg, topics, max), labels, more, parts);
  }

  // ---- otherwise ----

  /** Written as a record, stored somewhere and read back. */
  ghost predicate ReadBack(out: Message, m: Message) {
    exists hs: seq<Header> :: Lists(hs, out.headers)
      && m == MessageFromRecord(RecordWith(out, hs).(partition := m.partition, offset := m.offset))
  }

  /** A consumed message whose one handler fails: the route leads into a consumed topic again,
      and there `next` is read, with the same attempt. */
  ghost predicate DeadLettered(cfg: Config, topics: seq<string>, sh: Shared, m: Message, logical: string, err: string,
                               next: Message) {
    && m.topic in topics && (forall found :: LookupOk(cfg, m, found) <==> found == Some(logical))
    && var e := AfterFailure(cfg, sh, m, logical, m.RetryAttempt(), err);
       && e.pc.RoutingOut? && e.pc.job == m && e.pc.out.topic in topics && ReadBack(e.pc.out, next)
       && next.RetryAttempt() == m.RetryAttempt()
  }

  /** However often one looks, the chain has not ended. */
  ghost predicate Endless(cfg: Config, topics: seq<string>, t: string) {
    t in cfg.handlers && forall k: nat :: !EndsIn(cfg, topics, t, k)
  }

  lemma EndlessGoesOn(cfg: Config, topics: seq<string>, t: string)
    requires Endless(cfg, topics, t)
    ensures Consumed(cfg, topics, t)
    ensures cfg.namer.dlq(t) in cfg.handlers ==> Endless(cfg, topics, cfg.namer.dlq(t))
  {
    assert !EndsIn(cfg, topics, t, 0);
    forall k: nat | cfg.namer.dlq(t) in cfg.handlers ensures !EndsIn(cfg, topics, cfg.namer.dlq(t), k) {
      assert !EndsIn(cfg, topics, t, k + 1);
    }
  }

  /** A message that counts as coming from `t`, on a topic whose handler's chain does not end,
      or on a topic without a handler. */
  ghost predicate Circling(cfg: Config, topics: seq<string>, t: string, m: Message) {
    && m.topic in topics && OriginalTopic(m) == t
    && (if m.topic in cfg.handlers then Endless(cfg, topics, m.topic) else Get(m.headers, ORIGINAL_TOPIC) == t)
    && (forall h :: h in cfg.handlers ==> MaxFor(cfg, h) <= m.RetryAttempt())
  }

  lemma CirclingFound(cfg: Config, topics: seq<string>, t: string, m: Message) returns (logical: string)
    requires Circling(cfg, topics, t, m) && Endless(cfg, topics, t) && t != ""
    ensures Endless(cfg, topics, logical)
    ensures forall found :: LookupOk(cfg, m, found) <==> found == Some(logical)
  {
    hide Endless;
    logical := if m.topic in cfg.handlers then m.topic else t;
    assert t in cfg.handlers by { EndlessHandled(cfg, topics, t); }
  }

  lemma EndlessHandled(cfg: Config, topics: seq<string>, t: string)
    requires Endless(cfg, topics, t)
    ensures t in cfg.handlers
  {
  }

  lemma DeadLetterIs(cfg: Config, topics: seq<string>, sh: Shared, m: Message, logical: string, err: string)
    requires Consumed(cfg, topics, logical) && logical in cfg.handlers && MaxFor(cfg, logical) <= m.RetryAttempt()
    ensures var e := AfterFailure(cfg, sh, m, logical, m.RetryAttempt(), err);
      && e.pc.RoutingOut? && e.pc.job == m
      && e.pc.out == RetryMessage(m, cfg.namer.dlq(logical), m.RetryAttempt(), err, 0, sh.clock)
  {
    hide RetryMessage;
  }

  /** The dead letter of a message counts as coming from the same topic, with the same attempt. */
  lemma LetterKeeps(m: Message, dest: string, err: string, now: Time) returns (next: Message)
    requires OriginalTopic(m) != ""
    ensures var out := RetryMessage(m, dest, m.RetryAttempt(), err, 0, now);
      && ReadBack(out, next) && next.topic == dest && next.RetryAttempt() == m.RetryAttempt()
      && Get(next.headers, ORIGINAL_TOPIC) == OriginalTopic(m)
  {
    hide AttachRetry;
    var out := RetryMessage(m, dest, m.RetryAttempt(), err, 0, now);
    var hs := SomeListing(out.headers);
    next := MessageFromRecord(RecordWith(out, hs));
    ConversionRoundTrip(out, hs);
    assert RecordWith(out, hs) == RecordWith(out, hs).(partition := next.partition, offset := next.offset);
    KeysDistinct();
    ParsedBounds(m);
    AttachStampsAttempt(m, now, m.RetryAttempt(), Some(err), 0);
    AttachKeepsOrigin(m, now, m.RetryAttempt(), Some(err), 0, ORIGINAL_TOPIC);
  }

  lemma CirclesOn(cfg: Config, topics: seq<string>, t: string, sh: Shared, m: Message, err: string)
    returns (logical: string, next: Message)
    requires Circling(cfg, topics, t, m) && Endless(cfg, topics, t) && t != ""
    ensures DeadLettered(cfg, topics, sh, m, logical, err, next) && Circling(cfg, topics, t, next)
    ensures next.RetryAttempt() == m.RetryAttempt()
  {
    hide LookupOk, RetryMessage, Endless, AfterFailure, MaxFor, ReadBack;
    logical := CirclingFound(cfg, topics, t, m);
    EndlessHandled(cfg, topics, logical);
    EndlessGoesOn(cfg, topics, logical);
    DeadLetterIs(cfg, topics, sh, m, logical, err);
    next := LetterKeeps(m, cfg.namer.dlq(logical), err, sh.clock);
    LetterTopic(m, cfg.namer.dlq(logical), err, sh.clock);
  }

  lemma LetterTopic(m: Message, dest: string, err: string, now: Time)
    ensures RetryMessage(m, dest, m.RetryAttempt(), err, 0, now).topic == dest
  {
  }

  ghost predicate Again(cfg: Config, topics: seq<string>, sh: Shared, m: Message, err: string, next: Message) {
    exists logical :: DeadLettered(cfg, topics, sh, m, logical, err, next)
  }

  /** One message, its dead letter, that one's dead letter, and so on. */
  ghost predicate Loops(cfg: Config, topics: seq<string>, shs: nat -> Shared, errs: nat -> string, ms: seq<Message>) {
    forall i, j :: 0 <= i < j < |ms| && j == i + 1 ==> Again(cfg, topics, shs(i), ms[i], errs(i), ms[j])
  }

  lemma IsAgain(cfg: Config, topics: seq<string>, sh: Shared, m: Message, logical: string, err: string, next: Message)
    requires DeadLettered(cfg, topics, sh, m, logical, err, next)
    ensures Again(cfg, topics, sh, m, err, next)
  {
    hide DeadLettered;
  }

  lemma {:induction false} LoopsOn(cfg: Config, topics: seq<string>, t: string, m: Message, shs: nat -> Shared,
                                   errs: nat -> string, n: nat) returns (ms: seq<Message>)
    requires Circling(cfg, topics, t, m) && Endless(cfg, topics, t) && t != ""
    ensures |ms| == n + 1 && ms[0] == m && Loops(cfg, topics, shs, errs, ms) && Circling(cfg, topics, t, ms[n])
  {
    hide Circling, Endless, DeadLettered, Again;
    if n == 0 {
      ms := [m];
    } else {
      var init := LoopsOn(cfg, topics, t, m, shs, errs, n - 1);
      var logical, next := CirclesOn(cfg, topics, t, shs(n - 1), init[n - 1], errs(n - 1));
      ms := init + [next];
      assert Again(cfg, topics, shs(n - 1), init[n - 1], errs(n - 1), next) by {
        IsAgain(cfg, topics, shs(n - 1), init[n - 1], logical, errs(n - 1), next);
      }
    }
  }

  /** A message as a producer may send it: on `t`, already at attempt `max`. */
  function Sent(t: string, max: nat): Message { Message("", [], [], map[RETRY_ATTEMPT := Itoa(max)], t, 0, 0, 0) }

  lemma SentCircles(cfg: Config, topics: seq<string>, t: string, max: nat)
    requires Endless(cfg, topics, t) && t in topics && max <= MAX_INT64
    requires forall h :: h in cfg.handlers ==> cfg.MaxRetriesFor(cfg.handlers[h]) <= max
    ensures Circling(cfg, topics, t, Sent(t, max)) && Sent(t, max).RetryAttempt() == max
  {
    KeysDistinct();
    AtoiOfItoa(max);
  }

  /** The exact condition. When the chains of dead letters end there is a budget, and
      Drain.FreshMessagesBound holds for it. When one does not, there are a handler and a
      message of its topic at every maximum that, as long as handlers fail, is dead-lettered
      into a consumed topic n times, for every n, whatever the errors, the times and the state
      of the system: nothing bounds what it causes. */
  lemma {:induction false} DrainsOrLoops(cfg: Config, topics: seq<string>, max: nat, shs: nat -> Shared,
                                         errs: nat -> string, n: nat)
    requires max <= MAX_INT64 && forall t :: t in cfg.handlers ==> cfg.MaxRetriesFor(cfg.handlers[t]) <= max
    requires "" !in cfg.handlers && forall t :: t in cfg.handlers ==> t in topics
    ensures DeadLettersEnd(cfg, topics) <==> exists b :: Fits(cfg, topics, b)
    ensures !DeadLettersEnd(cfg, topics) ==>
      exists t, ms: seq<Message> ::
        t in cfg.handlers && |ms| == n + 1 && ms[0] == Sent(t, max) && Loops(cfg, topics, shs, errs, ms)
  {
    hide Fits, Loops, Sent, Endless;
    BudgetExactly(cfg, topics, max);
    if !DeadLettersEnd(cfg, topics) {
      var t :| t in cfg.handlers && !EndsIn(cfg, topics, t, Levels(cfg));
      NotSoonIsNever(cfg, topics, t);
      SentCircles(cfg, topics, t, max);
      var ms := LoopsOn(cfg, topics, t, Sent(t, max), shs, errs, n);
    }
  }

  lemma NotSoonIsNever(cfg: Config, topics: seq<string>, t: string)
    requires t in cfg.handlers && !EndsIn(cfg, topics, t, Levels(cfg))
    ensures Endless(cfg, topics, t)
  {
    forall k: nat ensures !EndsIn(cfg, topics, t, k) {
      if EndsIn(cfg, topics, t, k) { EndsSoon(cfg, topics, t, k); }
    }
  }

  // ---- the default names, and two that loop ----

  /** Under default naming and the planned subscriptions the chains always end. */
  lemma DefaultNamesEnd(cfg: Config, topics: seq<string>)
    requires DefaultNamed(cfg) && forall x :: x in topics ==> TopicPlan.Subscribed(cfg, cfg.handlers.Keys, x)
    ensures DeadLettersEnd(cfg, topics)
  {
    forall t | t in cfg.handlers ensures EndsIn(cfg, topics, t, Levels(cfg)) {
      DefaultEnds(cfg, topics, t);
      EndsSoon(cfg, topics, t, |Longer(cfg, t)|);
    }
  }

  lemma {:induction false} DefaultEnds(cfg: Config, topics: seq<string>, t: string)
    requires DefaultNamed(cfg) && forall x :: x in topics ==> TopicPlan.Subscribed(cfg, cfg.handlers.Keys, x)
    ensures EndsIn(cfg, topics, t, |Longer(cfg, t)|)
    decreases |Longer(cfg, t)|
  {
    if Consumed(cfg, topics, t) {
      var d := cfg.namer.dlq(t);
      DlqHandled(cfg, t);
      LongerShrinks(cfg, t, d);
      DefaultEnds(cfg, topics, d);
      EndsMore(cfg, topics, d, |Longer(cfg, d)|, |Longer(cfg, t)| - 1);
    }
  }

  /** The topics the plan subscribes to. */
  ghost predicate Planned(cfg: Config, topics: seq<string>) {
    forall x :: x in topics <==> TopicPlan.Subscribed(cfg, cfg.handlers.Keys, x)
  }

  ghost predicate PlanAccepts(cfg: Config) { forall t :: t in cfg.handlers ==> TopicPlan.Accepted(cfg, t) }

  function Plain(names: set<string>, max: nat, dlq: string -> string): Config {
    Config(map t | t in names :: Registration(true, None, [], None), "g", AtLeastOnce, max, [], OrderingNone,
           Namer((t: string, n: int) => RetryName(t, n), dlq), true, None, 0)
  }

  /** A custom namer that names a handler's own retry topic for its dead letters. */
  function RetryAsDlq(): Config { Plain({"t"}, 1, (t: string) => RetryName("t", 1)) }

  /** A custom namer that names two handlers as each other's dead-letter topic. */
  function EachOther(): Config { Plain({"a", "b"}, 0, (t: string) => if t == "a" then "b" else "a") }

  lemma NoBudget(cfg: Config, topics: seq<string>, max: nat)
    requires !DeadLettersEnd(cfg, topics) && max <= MAX_INT64
    requires forall t :: t in cfg.handlers ==> cfg.MaxRetriesFor(cfg.handlers[t]) <= max
    ensures forall b :: !Fits(cfg, topics, b)
  {
    BudgetExactly(cfg, topics, max);
  }

  /** The plan accepts a consumer that reads its dead letters from a topic without a handler. */
  lemma UnhandledKindAccepted(topics: seq<string>)
    requires Planned(RetryAsDlq(), topics)
    ensures var cfg := RetryAsDlq(); var d := cfg.namer.dlq("t");
      && PlanAccepts(cfg) && "t" in cfg.handlers && d in topics && d !in cfg.handlers
      && !DeadLettersEnd(cfg, topics) && forall b :: !Fits(cfg, topics, b)
  {
    hide Fits;
    var cfg := RetryAsDlq();
    var d := cfg.namer.dlq("t");
    DerivedIsLonger("t", 1);
    assert cfg.namer.retry("t", 1) == d && cfg.MaxRetriesFor(cfg.handlers["t"]) == 1;
    assert TopicPlan.IsRetryDestination(cfg, "t", d);
    assert TopicPlan.Subscribed(cfg, cfg.handlers.Keys, d);
    assert cfg.handlers.Keys == {"t"} && |cfg.handlers| == |cfg.handlers.Keys|;
    assert !EndsIn(cfg, topics, "t", Levels(cfg));
    NoBudget(cfg, topics, 1);
  }

  /** And one whose handlers, all of them handled topics, dead-letter to each other. */
  lemma CycleKindAccepted(topics: seq<string>)
    requires Planned(EachOther(), topics)
    ensures var cfg := EachOther();
      && PlanAccepts(cfg) && cfg.handlers.Keys == {"a", "b"} && cfg.namer.dlq("a") == "b" && cfg.namer.dlq("b") == "a"
      && !DeadLettersEnd(cfg, topics) && forall b :: !Fits(cfg, topics, b)
  {
    hide Fits;
    var cfg := EachOther();
    assert cfg.handlers.Keys == {"a", "b"} && |cfg.handlers| == |cfg.handlers.Keys|;
    assert TopicPlan.Subscribed(cfg, cfg.handlers.Keys, "a") && TopicPlan.Subscribed(cfg, cfg.handlers.Keys, "b");
    assert !EndsIn(cfg, topics, "b", 0);
    assert !EndsIn(cfg, topics, "a", Levels(cfg));
    NoBudget(cfg, topics, 0);
  }
}
