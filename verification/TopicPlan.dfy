/** The subscribe and create lists Run works from: topicPlanLocked (consumer.go) with
    validateBackoffs, validateTopicNames and defaultTopicSpec (internal.go). */
module TopicPlan {
  import opened Wrappers
  import opened Config
  import opened Routing

  datatype PlanError = NilHandler | NegativeMax | NegativeBackoff | BadName

  datatype TopicSpec = TopicSpec(name: string, partitions: int, replicationFactor: int)

  function DefaultTopicSpec(name: string): TopicSpec { TopicSpec(name, 1, 1) }

  predicate NonNegative(backoffs: seq<int>) {
    forall i :: 0 <= i < |backoffs| ==> backoffs[i] >= 0
  }

  method ValidateBackoffs(backoffs: seq<int>) returns (ok: bool)
    ensures ok <==> NonNegative(backoffs)
  {
    for i := 0 to |backoffs|
      invariant forall j :: 0 <= j < i ==> backoffs[j] >= 0
    {
      if backoffs[i] < 0 { return false; }
    }
    return true;
  }

  predicate ValidRetryName(cfg: Config, topic: string, attempt: int) {
    var name := cfg.namer.retry(topic, attempt);
    name != "" && name != topic && (attempt > 1 ==> name != cfg.namer.retry(topic, attempt - 1))
  }

  /** What validateTopicNames accepts; only adjacent attempts are compared, and the DLQ
      name is not compared with the retry names. */
  predicate ValidNames(cfg: Config, topic: string, maxRetries: int) {
    && topic != ""
    && (forall attempt :: 1 <= attempt <= maxRetries ==> ValidRetryName(cfg, topic, attempt))
    && (cfg.dlqEnabled ==> cfg.namer.dlq(topic) != "" && cfg.namer.dlq(topic) != topic)
  }

  method ValidateTopicNames(cfg: Config, topic: string, maxRetries: int) returns (ok: bool)
    ensures ok <==> ValidNames(cfg, topic, maxRetries)
  {
    if topic == "" { return false; }
    var attempt := 1;
    while attempt <= maxRetries
      invariant 1 <= attempt
      invariant forall a :: 1 <= a < attempt ==> ValidRetryName(cfg, topic, a)
    {
      var name := cfg.namer.retry(topic, attempt);
      if name == "" || name == topic || (attempt > 1 && name == cfg.namer.retry(topic, attempt - 1)) {
        assert !ValidRetryName(cfg, topic, attempt);
        return false;
      }
      attempt := attempt + 1;
    }
    if cfg.dlqEnabled {
      var name := cfg.namer.dlq(topic);
      if name == "" || name == topic { return false; }
    }
    return true;
  }

  /** A registration Run does not reject. */
  predicate Accepted(cfg: Config, topic: string)
    requires topic in cfg.handlers
  {
    var reg := cfg.handlers[topic];
    && reg.hasHandler
    && cfg.MaxRetriesFor(reg) >= 0
    && NonNegative(cfg.BackoffsFor(reg))
    && ValidNames(cfg, topic, cfg.MaxRetriesFor(reg))
  }

  // ---- what the lists must hold ----

  predicate IsRetryDestination(cfg: Config, topic: string, name: string)
    requires topic in cfg.handlers
  {
    IsRetryOf(cfg, name, topic, cfg.MaxRetriesFor(cfg.handlers[topic]))
  }

  /** A base topic, or one of its retry topics 1..max, of a handler in `done`. */
  predicate Subscribed(cfg: Config, done: set<string>, name: string) {
    exists topic :: topic in done && topic in cfg.handlers && (name == topic || IsRetryDestination(cfg, topic, name))
  }

  predicate Created(cfg: Config, done: set<string>, name: string) {
    || Subscribed(cfg, done, name)
    || (cfg.dlqEnabled && exists topic :: topic in done && topic in cfg.handlers && name == cfg.namer.dlq(topic))
  }

  ghost predicate SpecsOk(create: seq<TopicSpec>) {
    && (forall i :: 0 <= i < |create| ==> create[i] == DefaultTopicSpec(create[i].name) && create[i].name != "")
    && (forall i, j :: 0 <= i < j < |create| ==> create[i].name != create[j].name)
  }

  function SpecNames(create: seq<TopicSpec>): set<string> { set i | 0 <= i < |create| :: create[i].name }

  /** The names of one handler's block of the plan, up to retry topic `upTo`. */
  predicate InBlock(cfg: Config, topic: string, upTo: int, name: string) {
    name == topic || IsRetryOf(cfg, name, topic, upTo)
  }

  /** The growing plan: the lists and the `seen` sets the source keeps beside them. */
  class Plan {
    var seen: set<string>
    var seenCreate: set<string>
    var subscribe: seq<string>
    var create: seq<TopicSpec>

    ghost predicate Valid()
      reads this
    {
      && NoDuplicates(subscribe) && "" !in subscribe
      && seen == (set i | 0 <= i < |subscribe| :: subscribe[i])
      && SpecsOk(create)
      && seenCreate == SpecNames(create)
    }

    constructor ()
      ensures Valid() && subscribe == [] && create == [] && seen == {} && seenCreate == {}
    {
      seen, seenCreate, subscribe, create := {}, {}, [], [];
    }

    method AddSubscribe(t: string)
      requires Valid()
      modifies this`seen, this`subscribe
      ensures Valid()
      ensures seen == old(seen) + (if t == "" then {} else {t})
    {
      if t == "" || t in seen {
        return;
      }
      seen := seen + {t};
      subscribe := subscribe + [t];
      assert subscribe[|subscribe| - 1] == t;
      assert forall i :: 0 <= i < |old(subscribe)| ==> subscribe[i] == old(subscribe)[i];
    }

    method AddCreate(spec: TopicSpec)
      requires Valid() && spec == DefaultTopicSpec(spec.name)
      modifies this`seenCreate, this`create
      ensures Valid()
      ensures seenCreate == old(seenCreate) + (if spec.name == "" then {} else {spec.name})
    {
      if spec.name == "" || spec.name in seenCreate {
        return;
      }
      seenCreate := seenCreate + {spec.name};
      create := create + [spec];
      assert create[|create| - 1] == spec;
      assert forall i :: 0 <= i < |old(create)| ==> create[i] == old(create)[i];
    }

    /** One handler's block: base topic, retry topics 1..max, and its DLQ when enabled. */
    method AddHandler(cfg: Config, topic: string, max: int)
      requires Valid() && ValidNames(cfg, topic, max) && max >= 0
      modifies this
      ensures Valid()
      ensures forall n :: n in seen <==> n in old(seen) || InBlock(cfg, topic, max, n)
      ensures forall n :: n in seenCreate <==>
        n in old(seenCreate) || InBlock(cfg, topic, max, n) || (cfg.dlqEnabled && n == cfg.namer.dlq(topic))
    {
      AddSubscribe(topic);
      AddCreate(DefaultTopicSpec(topic));
      for i := 1 to max + 1
        invariant Valid()
        invariant forall n :: n in seen <==> n in old(seen) || InBlock(cfg, topic, i - 1, n)
        invariant forall n :: n in seenCreate <==> n in old(seenCreate) || InBlock(cfg, topic, i - 1, n)
      {
        var name := cfg.namer.retry(topic, i);
        assert ValidRetryName(cfg, topic, i);
        forall n ensures InBlock(cfg, topic, i, n) <==> InBlock(cfg, topic, i - 1, n) || n == name {
          InBlockStep(cfg, topic, i, n);
        }
        AddSubscribe(name);
        AddCreate(DefaultTopicSpec(name));
      }
      if cfg.dlqEnabled {
        AddCreate(DefaultTopicSpec(cfg.namer.dlq(topic)));
      }
    }
  }

  lemma InBlockStep(cfg: Config, topic: string, i: int, n: string)
    requires i >= 1
    ensures InBlock(cfg, topic, i, n) <==> InBlock(cfg, topic, i - 1, n) || n == cfg.namer.retry(topic, i)
  {
    if IsRetryOf(cfg, n, topic, i) {
      var a :| 1 <= a <= i && cfg.namer.retry(topic, a) == n;
      if a < i { assert IsRetryOf(cfg, n, topic, i - 1); }
    }
    if IsRetryOf(cfg, n, topic, i - 1) {
      var a :| 1 <= a <= i - 1 && cfg.namer.retry(topic, a) == n;
      assert IsRetryOf(cfg, n, topic, i);
    }
    if n == cfg.namer.retry(topic, i) { assert IsRetryOf(cfg, n, topic, i); }
  }

  /** topicPlanLocked: it fails exactly when some registration is not acceptable; otherwise,
      for whatever order the handler map was ranged over, the subscribe list has no
      duplicates and is exactly the bases and their retry topics, and the create list is
      exactly that and the DLQs when they are enabled. */
  method TopicPlan(cfg: Config)
    returns (err: Outcome<PlanError>, subscribe: seq<string>, create: seq<TopicSpec>)
    ensures err.Pass? <==> forall t :: t in cfg.handlers ==> Accepted(cfg, t)
    ensures err.Pass? ==> NoDuplicates(subscribe) && "" !in subscribe && SpecsOk(create)
    ensures err.Pass? ==> forall spec :: spec in create ==> spec.partitions == 1 && spec.replicationFactor == 1
    ensures err.Pass? ==> forall n :: n in subscribe <==> Subscribed(cfg, cfg.handlers.Keys, n)
    ensures err.Pass? ==> forall n :: n in SpecNames(create) <==> Created(cfg, cfg.handlers.Keys, n)
    ensures err.Fail? ==> subscribe == [] && create == []
  {
    var plan := new Plan();
    var todo := cfg.handlers.Keys;
    ghost var done: set<string> := {};
    while todo != {}
      invariant fresh(plan) && plan.Valid()
      invariant todo + done == cfg.handlers.Keys && todo !! done
      invariant forall t :: t in done ==> t in cfg.handlers && Accepted(cfg, t)
      invariant forall n :: n in plan.seen <==> Subscribed(cfg, done, n)
      invariant forall n :: n in plan.seenCreate <==> Created(cfg, done, n)
      decreases todo
    {
      var topic :| topic in todo;
      var reg := cfg.handlers[topic];
      if !reg.hasHandler {
        assert !Accepted(cfg, topic);
        return Fail(NilHandler), [], [];
      }
      var max := cfg.MaxRetriesFor(reg);
      if max < 0 {
        assert !Accepted(cfg, topic);
        return Fail(NegativeMax), [], [];
      }
      var okBackoffs := ValidateBackoffs(cfg.BackoffsFor(reg));
      if !okBackoffs {
        assert !Accepted(cfg, topic);
        return Fail(NegativeBackoff), [], [];
      }
      var okNames := ValidateTopicNames(cfg, topic, max);
      if !okNames {
        assert !Accepted(cfg, topic);
        return Fail(BadName), [], [];
      }
      plan.AddHandler(cfg, topic, max);
      SubscribedStep(cfg, done, topic);
      todo, done := todo - {topic}, done + {topic};
    }
    assert done == cfg.handlers.Keys;
    return Pass, plan.subscribe, plan.create;
  }

  lemma SubscribedStep(cfg: Config, done: set<string>, topic: string)
    requires topic in cfg.handlers
    ensures var max := cfg.MaxRetriesFor(cfg.handlers[topic]);
      && (forall n :: Subscribed(cfg, done + {topic}, n) <==> Subscribed(cfg, done, n) || InBlock(cfg, topic, max, n))
      && (forall n :: Created(cfg, done + {topic}, n) <==>
           Created(cfg, done, n) || InBlock(cfg, topic, max, n) || (cfg.dlqEnabled && n == cfg.namer.dlq(topic)))
  {
  }

  /** What makes a registration acceptable: a handler, a maximum and backoffs that are not
      negative, and names that no message can get stuck on: every retry topic up to the maximum
      has a name, which is neither the topic's nor the retry topic's before it, and so has the
      dead-letter topic, if that is on. */
  lemma AcceptedExactly(cfg: Config, topic: string)
    requires topic in cfg.handlers
    ensures var reg := cfg.handlers[topic]; var max := cfg.MaxRetriesFor(reg);
      Accepted(cfg, topic) <==>
        && reg.hasHandler && topic != "" && max >= 0
        && (forall i :: 0 <= i < |cfg.BackoffsFor(reg)| ==> cfg.BackoffsFor(reg)[i] >= 0)
        && (forall a :: 1 <= a <= max ==> cfg.namer.retry(topic, a) != "" && cfg.namer.retry(topic, a) != topic)
        && (forall a :: 1 < a <= max ==> cfg.namer.retry(topic, a) != cfg.namer.retry(topic, a - 1))
        && (cfg.dlqEnabled ==> cfg.namer.dlq(topic) != "" && cfg.namer.dlq(topic) != topic)
  {
    var max := cfg.MaxRetriesFor(cfg.handlers[topic]);
    if Accepted(cfg, topic) {
      forall a | 1 <= a <= max
        ensures cfg.namer.retry(topic, a) != "" && cfg.namer.retry(topic, a) != topic
        ensures a > 1 ==> cfg.namer.retry(topic, a) != cfg.namer.retry(topic, a - 1)
      {
        assert ValidRetryName(cfg, topic, a);
      }
    }
  }

  /** The lists name by name: a subscribed topic is a handler's or one of its retry topics up to
      its maximum; dead-letter topics are created besides, when they are on. */
  lemma PlannedExactly(cfg: Config, n: string)
    ensures Subscribed(cfg, cfg.handlers.Keys, n) <==>
      || n in cfg.handlers
      || exists t, a :: t in cfg.handlers && 1 <= a <= cfg.MaxRetriesFor(cfg.handlers[t]) && cfg.namer.retry(t, a) == n
    ensures Created(cfg, cfg.handlers.Keys, n) <==>
      || Subscribed(cfg, cfg.handlers.Keys, n)
      || (cfg.dlqEnabled && exists t :: t in cfg.handlers && cfg.namer.dlq(t) == n)
  {
    if Subscribed(cfg, cfg.handlers.Keys, n) && n !in cfg.handlers {
      var t :| t in cfg.handlers && IsRetryDestination(cfg, t, n);
      var a :| 1 <= a <= cfg.MaxRetriesFor(cfg.handlers[t]) && cfg.namer.retry(t, a) == n;
    }
    forall t, a | t in cfg.handlers && 1 <= a <= cfg.MaxRetriesFor(cfg.handlers[t]) && cfg.namer.retry(t, a) == n
      ensures Subscribed(cfg, cfg.handlers.Keys, n)
    {
      assert IsRetryDestination(cfg, t, n);
    }
  }

  // ---- closure ----

  /** Every retry a message with attempt 0..max-1 is routed to is a topic the consumer
      subscribed to, and every routed topic exists when topics are created up front. */
  lemma RetryDestinationsSubscribed(cfg: Config, logical: string, attempt: int)
    requires logical in cfg.handlers && 0 <= attempt < cfg.MaxRetriesFor(cfg.handlers[logical])
    ensures Subscribed(cfg, cfg.handlers.Keys, cfg.namer.retry(logical, attempt + 1))
    ensures Created(cfg, cfg.handlers.Keys, cfg.namer.retry(logical, attempt + 1))
    ensures cfg.dlqEnabled ==> Created(cfg, cfg.handlers.Keys, cfg.namer.dlq(logical))
  {
    assert IsRetryDestination(cfg, logical, cfg.namer.retry(logical, attempt + 1));
  }

  /** The attempt header is parsed, not checked: when it is negative the retry goes to a topic
      nobody subscribes to, unless that name happens to be a handler. A retry below the maximum
      stays in the plan exactly when the attempt it follows is not negative or so. */
  lemma RetryStaysInPlan(cfg: Config, logical: string, attempt: int)
    requires DefaultNamed(cfg) && logical in cfg.handlers
    requires attempt < cfg.MaxRetriesFor(cfg.handlers[logical])
    ensures Subscribed(cfg, cfg.handlers.Keys, cfg.namer.retry(logical, attempt + 1)) <==>
      attempt >= 0 || cfg.namer.retry(logical, attempt + 1) in cfg.handlers
  {
    var name := RetryName(logical, attempt + 1);
    if attempt >= 0 {
      RetryDestinationsSubscribed(cfg, logical, attempt);
    } else if Subscribed(cfg, cfg.handlers.Keys, name) && name !in cfg.handlers {
      var t :| t in cfg.handlers && IsRetryDestination(cfg, t, name);
      var n :| 1 <= n && cfg.namer.retry(t, n) == name;
      RetryNameInjective(t, n, logical, attempt + 1);
      assert false;
    }
  }

  /** Default naming passes validation for every topic a message can have. */
  lemma DefaultNamesValid(cfg: Config, topic: string, maxRetries: int)
    requires DefaultNamed(cfg)
    ensures ValidNames(cfg, topic, maxRetries) <==> topic != ""
  {
    forall attempt | 1 <= attempt <= maxRetries ensures ValidRetryName(cfg, topic, attempt) {
      DerivedIsLonger(topic, attempt);
      if attempt > 1 && RetryName(topic, attempt) == RetryName(topic, attempt - 1) {
        RetryNameInjective(topic, attempt, topic, attempt - 1);
      }
    }
    DerivedIsLonger(topic, 0);
  }
}
