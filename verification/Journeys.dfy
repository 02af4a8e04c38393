/** One message and its handler's answers, to the end: retried over topics, or in place. Both
    journeys are runs of the worker machine's own handler steps, with the publish, the poll
    and the conversions of every hop in between. */
module Journeys {
  import opened Wrappers
  import opened Decimal
  import opened Envelope
  import opened Config
  import opened Routing
  import opened Protocol
  import opened Actions
  import opened Lifecycle
  import TopicPlan

  /** What the environment does around one attempt: the clock, and for a hop the header order,
      the place in the retry topic and lookup's answer there. */
  datatype Env = Env(now: Time, headers: seq<Header>, partition: int, offset: int, found: Option<string>)

  /** The handler answered, or the message was dropped; it went to the dead-letter topic; its
      retry found another handler or none; or it went to a topic nobody subscribes to. */
  datatype End =
    | Settled(event: Event)
    | DeadLettered(out: Message)
    | TakenOver(found: Option<string>)
    | Stranded(topic: string)
    | Undecided

  /** The attempts the handler saw, the topics the message was consumed from, the end. */
  datatype Journey = Journey(attempts: seq<int>, topics: seq<string>, end: End)

  function Then(attempt: int, topic: string, rest: Journey): Journey {
    Journey([attempt] + rest.attempts, [topic] + rest.topics, rest.end)
  }

  function Stop(attempt: int, topic: string, end: End): Journey { Journey([attempt], [topic], end) }

  /** The handler's call for `pc` has returned `errs(pc.attempt)`, and the store has its verdict. */
  ghost function Returned(cfg: Config, sh: Shared, pc: PC, errs: int -> Option<string>, now: Time): Effect
    requires pc.Handling?
  {
    var e := HandlerEnd(cfg, sh.(clock := now), pc, NO_CHOICE.(failure := errs(pc.attempt)));
    if (e.pc.Completing? || e.pc.Failing?) && cfg.store.Some? then
      var v := VerdictStep(cfg, sh.(clock := now), e.pc, NO_CHOICE);
      if e.event.Silent? then v else v.(event := e.event)
    else e
  }

  /** A message that is being handled holds a lease, if there is a store to give one. */
  function Lease(cfg: Config, m: Message): Option<Time> { if UsesStore(cfg, m) then Some(cfg.ttl) else None }

  function FirstCall(cfg: Config, m: Message, logical: string): PC {
    Handling(m, m, logical, m.RetryAttempt(), Lease(cfg, m))
  }

  /** The backoff is slept through. */
  ghost function Wakes(cfg: Config, sh: Shared, pc: PC): Effect
    requires pc.Sleeping?
  {
    HandlerStep(cfg, false, sh.(clock := pc.until), pc, NO_CHOICE)
  }

  /** Published with its headers in some order, stored somewhere, polled and read back. */
  function Requeued(out: Message, env: Env): Message {
    MessageFromRecord(RecordWith(out, env.headers).(partition := env.partition, offset := env.offset))
  }

  /** The journey over retry topics, from the handler call for `m`; at most `n` more hops. It
      ends here when the next topic is not consumed or lookup answers anything but `logical`. */
  ghost function OverTopics(cfg: Config, sh: Shared, m: Message, logical: string, errs: int -> Option<string>,
                            env: nat -> Env, n: nat): Journey
    decreases n
  {
    var attempt := m.RetryAttempt();
    var e := Returned(cfg, sh, FirstCall(cfg, m, logical), errs, env(n).now);
    if e.pc.RoutingOut? then
      if attempt >= MaxFor(cfg, logical) then Stop(attempt, m.topic, DeadLettered(e.pc.out))
      else if n == 0 then Stop(attempt, m.topic, Undecided)
      else if !TopicPlan.Subscribed(cfg, cfg.handlers.Keys, e.pc.out.topic) then
        Stop(attempt, m.topic, Stranded(e.pc.out.topic))
      else if env(n).found != Some(logical) then Stop(attempt, m.topic, TakenOver(env(n).found))
      else Then(attempt, m.topic, OverTopics(cfg, sh, Requeued(e.pc.out, env(n)), logical, errs, env, n - 1))
    else Stop(attempt, m.topic, Settled(e.event))
  }

  /** The journey in place: backoffs are slept through, the context stays. */
  ghost function InPlace(cfg: Config, sh: Shared, pc: PC, errs: int -> Option<string>, env: nat -> Env, n: nat): Journey
    requires pc.Handling?
    decreases n
  {
    var e := Returned(cfg, sh, pc, errs, env(n).now);
    if e.pc.Sleeping? then
      if n == 0 then Stop(pc.attempt, pc.job.topic, Undecided)
      else
        var again := Wakes(cfg, sh, e.pc);
        Then(pc.attempt, pc.job.topic, InPlace(cfg, sh, again.pc, errs, env, n - 1))
    else if e.pc.RoutingOut? then Stop(pc.attempt, pc.job.topic, DeadLettered(e.pc.out))
    else Stop(pc.attempt, pc.job.topic, Settled(e.event))
  }

  /** Hops left for a message: enough for every journey to be decided. */
  function HopsLeft(cfg: Config, logical: string, attempt: int): nat {
    if attempt < MaxFor(cfg, logical) then MaxFor(cfg, logical) - attempt else 0
  }

  /** Every retry of the journey is written with all its headers, in the order `env` says, and
      lookup's answer for it is one that some map order gives. */
  ghost predicate EnvOk(cfg: Config, sh: Shared, m: Message, logical: string, errs: int -> Option<string>,
                        env: nat -> Env, n: nat)
    decreases n
  {
    var e := Returned(cfg, sh, FirstCall(cfg, m, logical), errs, env(n).now);
    n > 0 && e.pc.RoutingOut? && m.RetryAttempt() < MaxFor(cfg, logical) ==>
      && Lists(env(n).headers, e.pc.out.headers)
      && LookupOk(cfg, Requeued(e.pc.out, env(n)), env(n).found)
      && (env(n).found == Some(logical) ==> EnvOk(cfg, sh, Requeued(e.pc.out, env(n)), logical, errs, env, n - 1))
  }

  // ---- single steps ----

  /** The effect leaves the worker at `pc` with `event`. */
  predicate LeavesAt(e: Effect, pc: PC, event: Event) { e.pc == pc && e.event == event }

  /** What the handler's answer leads to when retries go over topics. */
  lemma TopicStep(cfg: Config, sh: Shared, m: Message, logical: string, errs: int -> Option<string>, now: Time)
    requires !RetriesInPlace(cfg, logical)
    ensures var attempt := m.RetryAttempt(); var e := Returned(cfg, sh, FirstCall(cfg, m, logical), errs, now);
      match errs(attempt)
      case None => LeavesAt(e, ToCommit(m), DecidedHandled)
      case Some(err) =>
        if attempt < MaxFor(cfg, logical) then
          LeavesAt(e, RoutingOut(m, RetryMessage(m, cfg.namer.retry(logical, attempt + 1), attempt + 1, err,
                                                 DelayFor(cfg, logical, attempt + 1), now),
                                 OutcomeCheck, NO_TXN), Silent)
        else if !cfg.dlqEnabled then LeavesAt(e, ToCommit(m), DecidedDlqOff)
        else LeavesAt(e,
                      RoutingOut(m, RetryMessage(m, cfg.namer.dlq(logical), attempt, err, 0, now), OutcomeCheck,
                                 NO_TXN), Silent)
  {
    hide RetryMessage, RetriesInPlace;
  }

  /** And when they happen in place. */
  lemma PlaceStep(cfg: Config, sh: Shared, pc: PC, errs: int -> Option<string>, now: Time)
    requires pc.Handling? && RetriesInPlace(cfg, pc.logical) && (pc.lease.Some? ==> cfg.store.Some?)
    ensures var e := Returned(cfg, sh, pc, errs, now);
      match errs(pc.attempt)
      case None => LeavesAt(e, ToCommit(pc.job), DecidedHandled)
      case Some(err) =>
        if pc.attempt < MaxFor(cfg, pc.logical) then
          && e.pc.Sleeping?
          && var again := Wakes(cfg, sh, e.pc).pc;
             && again.Handling? && again.job == pc.job && again.logical == pc.logical && again.attempt == pc.attempt + 1
             && again.lease == pc.lease
        else if !cfg.dlqEnabled then LeavesAt(e, ToCommit(pc.job), DecidedDlqOff)
        else
          LeavesAt(e,
                   RoutingOut(pc.job, RetryMessage(pc.job, cfg.namer.dlq(pc.logical), pc.attempt, err, 0, now),
                              OutcomeCheck, NO_TXN), Silent)
  {
    hide RetryMessage, AttachRetry, RetriesInPlace;
  }

  // ---- the two journeys agree ----

  predicate OriginKey(key: string) {
    key == MESSAGE_ID || key == ORIGINAL_TOPIC || key == ORIGINAL_PARTITION || key == ORIGINAL_OFFSET
  }

  /** What a dead letter of `m` will say about where it came from. */
  function OriginOf(m: Message, key: string): string {
    if Get(m.headers, key) != "" then Get(m.headers, key) else OriginValue(m, 0, key)
  }

  /** `m` is `job`, some hops on. */
  ghost predicate SameOrigin(job: Message, m: Message) {
    && AsPolled(m) && AsPolled(job) && m.key == job.key && m.payload == job.payload
    && forall key :: OriginKey(key) ==> OriginOf(m, key) == OriginOf(job, key)
  }

  lemma HopKeepsOrigin(job: Message, m: Message, dest: string, err: string, delay: int, env: Env)
    requires SameOrigin(job, m) && dest != "" && m.RetryAttempt() < MAX_INT64
    requires var out := RetryMessage(m, dest, m.RetryAttempt() + 1, err, delay, env.now);
      Lists(env.headers, out.headers)
    ensures var out := RetryMessage(m, dest, m.RetryAttempt() + 1, err, delay, env.now); var m' := Requeued(out, env);
      SameOrigin(job, m') && m'.RetryAttempt() == m.RetryAttempt() + 1 && m'.topic == dest
  {
    var h := Hop(dest, err, delay, env.now, env.headers, env.partition, env.offset);
    var out := Outgoing(m, h);
    var m' := AfterHop(m, h);
    assert Requeued(out, env) == m';
    LastHop(m, h, "");
    hide AttachRetry, AfterHop, MessageFromRecord, RetryMessage;
    forall key | OriginKey(key) ensures OriginOf(m', key) == OriginOf(job, key) {
      HopSetsOrigin(m, h, key);
    }
  }

  lemma HopSetsOrigin(m: Message, h: Hop, key: string)
    requires AsPolled(m) && HopOk(m, h) && OriginKey(key)
    ensures OriginOf(AfterHop(m, h), key) == OriginOf(m, key)
  {
    HopKeeps(m, h);
    KeysDistinct();
    hide AttachRetry;
    FirstHop(m, h, key);
  }

  /** Equal where it matters: the same message, its origin, its attempt, its last error. */
  ghost predicate SameLetter(a: Message, b: Message) {
    && a.id == b.id && a.key == b.key && a.payload == b.payload && a.topic == b.topic
    && a.RetryAttempt() == b.RetryAttempt() && Get(a.headers, LAST_ERROR) == Get(b.headers, LAST_ERROR)
    && forall key :: OriginKey(key) ==> Get(a.headers, key) == Get(b.headers, key)
  }

  ghost predicate SameEnd(a: End, b: End) {
    match a
    case DeadLettered(out) => b.DeadLettered? && SameLetter(out, b.out)
    case _ => a == b && !a.Undecided?
  }

  lemma SameDeadLetters(job: Message, m: Message, dest: string, attempt: int, err: string, t1: Time, t2: Time)
    requires SameOrigin(job, m) && MIN_INT64 <= attempt <= MAX_INT64
    ensures SameLetter(RetryMessage(job, dest, attempt, err, 0, t1), RetryMessage(m, dest, attempt, err, 0, t2))
  {
    var a, b := RetryMessage(job, dest, attempt, err, 0, t1), RetryMessage(m, dest, attempt, err, 0, t2);
    hide AttachRetry;
    AttachStampsAttempt(job, t1, attempt, Some(err), 0);
    AttachStampsAttempt(m, t2, attempt, Some(err), 0);
    forall key | OriginKey(key) ensures Get(a.headers, key) == Get(b.headers, key) {
      KeysDistinct();
      AttachKeepsOrigin(job, t1, attempt, Some(err), 0, key);
      AttachKeepsOrigin(m, t2, attempt, Some(err), 0, key);
      assert OriginOf(m, key) == OriginOf(job, key);
    }
    assert OriginKey(MESSAGE_ID);
  }

  /** `place` retries `logical` in place, `topics` over topics; otherwise they agree on it. */
  ghost predicate SameBut(place: Config, topics: Config, logical: string) {
    && RetriesInPlace(place, logical) && !RetriesInPlace(topics, logical)
    && MaxFor(place, logical) == MaxFor(topics, logical) && MaxFor(place, logical) <= MAX_INT64
    && place.namer == topics.namer && place.dlqEnabled == topics.dlqEnabled && logical in topics.handlers
    && (forall n :: place.namer.retry(logical, n) != "")
  }

  /** The retry with attempt `k` is consumed, and the lookup there answers `logical`. */
  predicate HopFinds(cfg: Config, logical: string, origin: string, k: int) {
    var name := cfg.namer.retry(logical, k);
    && TopicPlan.Subscribed(cfg, cfg.handlers.Keys, name)
    && if name in cfg.handlers then name == logical else origin == logical
  }

  predicate AllFind(cfg: Config, logical: string, origin: string, from: int, hops: nat) {
    forall k :: from < k <= from + hops ==> HopFinds(cfg, logical, origin, k)
  }

  /** The retries a handler with these answers asks for, when `n` are allowed. */
  function HopsMade(errs: int -> Option<string>, attempt: int, n: nat): nat
    decreases n
  {
    if n == 0 || errs(attempt).None? then 0 else 1 + HopsMade(errs, attempt + 1, n - 1)
  }

  lemma AllFindUnfolds(cfg: Config, logical: string, origin: string, from: int, hops: nat)
    ensures AllFind(cfg, logical, origin, from, 0)
    ensures hops > 0 ==>
      (AllFind(cfg, logical, origin, from, hops) <==>
         HopFinds(cfg, logical, origin, from + 1) && AllFind(cfg, logical, origin, from + 1, hops - 1))
  {
    hide HopFinds;
  }

  /** The lookup of a retry, read back: the handler of its own topic, if there is one, else
      the handler of the topic the message counts as coming from. */
  lemma HopAnswer(cfg: Config, m: Message, logical: string, dest: string, err: string, delay: int, env: Env)
    requires AsPolled(m) && dest != "" && logical in cfg.handlers
    requires var out := RetryMessage(m, dest, m.RetryAttempt() + 1, err, delay, env.now);
      Lists(env.headers, out.headers) && LookupOk(cfg, Requeued(out, env), env.found)
    ensures env.found == Some(logical) <==>
      if dest in cfg.handlers then dest == logical else OriginOf(m, ORIGINAL_TOPIC) == logical
  {
    hide AttachRetry;
    var h := Hop(dest, err, delay, env.now, env.headers, env.partition, env.offset);
    assert Requeued(Outgoing(m, h), env) == AfterHop(m, h);
    HopKeeps(m, h);
    KeysDistinct();
    AttachKeepsOrigin(m, env.now, m.RetryAttempt() + 1, Some(err), delay, ORIGINAL_TOPIC);
  }

  lemma {:induction false} PlaceEnds(cfg: Config, sh: Shared, pc: PC, errs: int -> Option<string>, env: nat -> Env,
                                     n: nat)
    requires pc.Handling?
    ensures var end := InPlace(cfg, sh, pc, errs, env, n).end; !end.TakenOver? && !end.Stranded?
    decreases n
  {
    hide Returned, Wakes;
    var e := Returned(cfg, sh, pc, errs, env(n).now);
    if e.pc.Sleeping? && n > 0 {
      WakesHandling(cfg, sh, e.pc);
      PlaceEnds(cfg, sh, Wakes(cfg, sh, e.pc).pc, errs, env, n - 1);
    }
  }

  lemma WakesHandling(cfg: Config, sh: Shared, pc: PC)
    requires pc.Sleeping?
    ensures Wakes(cfg, sh, pc).pc.Handling?
  {
    hide AttachRetry;
  }

  /** For every maximum and every sequence of handler answers, undisturbed: both ways of
      retrying call the handler for the same attempts and end in the same success, the same
      drop, or dead letters that agree on everything but the times, if and only if every retry
      the handler asks for is consumed and finds the same handler. */
  lemma {:induction false} JourneysAgree(place: Config, topics: Config, sh: Shared, pc: PC, m: Message,
                                         errs: int -> Option<string>,
                                         env1: nat -> Env, env2: nat -> Env, n: nat)
    requires pc.Handling? && SameBut(place, topics, pc.logical) && SameOrigin(pc.job, m)
    requires m.RetryAttempt() == pc.attempt
    requires pc.lease.Some? ==> place.store.Some?
    requires n == HopsLeft(place, pc.logical, pc.attempt)
    requires EnvOk(topics, sh, m, pc.logical, errs, env2, n)
    ensures var a := InPlace(place, sh, pc, errs, env1, n);
      var b := OverTopics(topics, sh, m, pc.logical, errs, env2, n);
      a.attempts == b.attempts && SameEnd(a.end, b.end) <==>
        AllFind(topics, pc.logical, OriginOf(m, ORIGINAL_TOPIC), pc.attempt, HopsMade(errs, pc.attempt, n))
    decreases n
  {
    hide InPlace, OverTopics, EnvOk, RetriesInPlace, MaxFor, LastEnd, SameOrigin, SameLetter, HopFinds, AllFind,
      OriginOf;
    var logical, attempt, origin := pc.logical, pc.attempt, OriginOf(m, ORIGINAL_TOPIC);
    AllFindUnfolds(topics, logical, origin, attempt, HopsMade(errs, attempt, n));
    SelfOrigin(pc.job, m);
    if errs(attempt).Some? && attempt < MaxFor(place, logical) {
      var again := PlaceTaken(place, sh, pc, errs, env1, n);
      var next := HopTaken(topics, sh, m, logical, errs, env2, n);
      PlaceEnds(place, sh, again, errs, env1, n - 1);
      if HopFinds(topics, logical, origin, attempt + 1) {
        HopOrigins(pc.job, m, next);
        JourneysAgree(place, topics, sh, again, next, errs, env1, env2, n - 1);
        ThenSame(attempt, InPlace(place, sh, again, errs, env1, n - 1).attempts,
                 OverTopics(topics, sh, next, logical, errs, env2, n - 1).attempts);
      }
    } else {
      PlaceStops(place, sh, pc, errs, env1, n);
      TopicStops(topics, sh, m, logical, errs, env2, n);
      SameLastEnds(place, topics, pc.job, m, logical, attempt, errs, env1(n).now, env2(n).now);
    }
  }

  /** How a journey ends with a success or after the last attempt. */
  function LastEnd(cfg: Config, m: Message, logical: string, attempt: int, errs: int -> Option<string>, now: Time)
    : End {
    match errs(attempt)
    case None => Settled(DecidedHandled)
    case Some(err) =>
      if !cfg.dlqEnabled then Settled(DecidedDlqOff)
      else DeadLettered(RetryMessage(m, cfg.namer.dlq(logical), attempt, err, 0, now))
  }

  lemma PlaceTaken(cfg: Config, sh: Shared, pc: PC, errs: int -> Option<string>, env: nat -> Env, n: nat)
    returns (again: PC)
    requires pc.Handling? && RetriesInPlace(cfg, pc.logical) && (pc.lease.Some? ==> cfg.store.Some?)
    requires errs(pc.attempt).Some? && pc.attempt < MaxFor(cfg, pc.logical) && n > 0
    ensures again.Handling? && again.job == pc.job && again.logical == pc.logical && again.attempt == pc.attempt + 1
    ensures again.lease == pc.lease
    ensures InPlace(cfg, sh, pc, errs, env, n) == Then(pc.attempt, pc.job.topic,
                                                       InPlace(cfg, sh, again, errs, env, n - 1))
  {
    hide Returned, Wakes, RetriesInPlace, MaxFor;
    PlaceStep(cfg, sh, pc, errs, env(n).now);
    again := Wakes(cfg, sh, Returned(cfg, sh, pc, errs, env(n).now).pc).pc;
  }

  lemma PlaceStops(cfg: Config, sh: Shared, pc: PC, errs: int -> Option<string>, env: nat -> Env, n: nat)
    requires pc.Handling? && RetriesInPlace(cfg, pc.logical) && (pc.lease.Some? ==> cfg.store.Some?)
    requires errs(pc.attempt).None? || pc.attempt >= MaxFor(cfg, pc.logical)
    ensures InPlace(cfg, sh, pc, errs, env, n) ==
      Stop(pc.attempt, pc.job.topic, LastEnd(cfg, pc.job, pc.logical, pc.attempt, errs, env(n).now))
  {
    hide Returned, Wakes, RetriesInPlace, MaxFor, RetryMessage;
    PlaceStep(cfg, sh, pc, errs, env(n).now);
  }

  lemma TopicStops(cfg: Config, sh: Shared, m: Message, logical: string, errs: int -> Option<string>, env: nat -> Env,
                   n: nat)
    requires !RetriesInPlace(cfg, logical)
    requires errs(m.RetryAttempt()).None? || m.RetryAttempt() >= MaxFor(cfg, logical)
    ensures OverTopics(cfg, sh, m, logical, errs, env, n) ==
      Stop(m.RetryAttempt(), m.topic, LastEnd(cfg, m, logical, m.RetryAttempt(), errs, env(n).now))
  {
    hide Returned, RetriesInPlace, MaxFor, RetryMessage;
    TopicStep(cfg, sh, m, logical, errs, env(n).now);
  }

  lemma SameLastEnds(place: Config, topics: Config, job: Message, m: Message, logical: string, attempt: int,
                     errs: int -> Option<string>, t1: Time, t2: Time)
    requires place.namer == topics.namer && place.dlqEnabled == topics.dlqEnabled
    requires SameOrigin(job, m) && attempt == m.RetryAttempt()
    ensures SameEnd(LastEnd(place, job, logical, attempt, errs, t1), LastEnd(topics, m, logical, attempt, errs, t2))
  {
    hide RetryMessage, SameOrigin, SameLetter;
    AttemptInRange(m);
    if errs(attempt).Some? {
      SameDeadLetters(job, m, place.namer.dlq(logical), attempt, errs(attempt).value, t1, t2);
    }
  }

  lemma ThenSame(attempt: int, a: seq<int>, b: seq<int>)
    ensures [attempt] + a == [attempt] + b <==> a == b
  {
    assert ([attempt] + a)[1..] == a && ([attempt] + b)[1..] == b;
  }

  lemma HopOrigins(job: Message, m: Message, next: Message)
    requires SameOrigin(job, m) && SameOrigin(m, next)
    ensures SameOrigin(job, next)
  {
  }

  /** A failed attempt below the maximum: the journey goes on with the retry exactly when that
      one is consumed and finds `logical`. */
  lemma HopTaken(cfg: Config, sh: Shared, m: Message, logical: string, errs: int -> Option<string>, env: nat -> Env,
                 n: nat)
    returns (next: Message)
    requires !RetriesInPlace(cfg, logical) && logical in cfg.handlers && errs(m.RetryAttempt()).Some?
    requires SameOrigin(m, m) && m.RetryAttempt() < MaxFor(cfg, logical) <= MAX_INT64 && n > 0
    requires cfg.namer.retry(logical, m.RetryAttempt() + 1) != "" && EnvOk(cfg, sh, m, logical, errs, env, n)
    ensures SameOrigin(m, next) && SameOrigin(next, next) && next.RetryAttempt() == m.RetryAttempt() + 1
    ensures next.topic == cfg.namer.retry(logical, m.RetryAttempt() + 1)
    ensures OriginOf(next, ORIGINAL_TOPIC) == OriginOf(m, ORIGINAL_TOPIC)
    ensures var j := OverTopics(cfg, sh, m, logical, errs, env, n);
      if HopFinds(cfg, logical, OriginOf(m, ORIGINAL_TOPIC), m.RetryAttempt() + 1) then
        && j == Then(m.RetryAttempt(), m.topic, OverTopics(cfg, sh, next, logical, errs, env, n - 1))
        && EnvOk(cfg, sh, next, logical, errs, env, n - 1)
      else j == Stop(m.RetryAttempt(), m.topic, j.end) && (j.end.TakenOver? || j.end.Stranded?)
  {
    hide Returned, RetriesInPlace, MaxFor, RetryMessage, Requeued, SameOrigin, DelayFor, LookupOk, OriginOf;
    var attempt, now := m.RetryAttempt(), env(n).now;
    OriginPolled(m);
    TopicStep(cfg, sh, m, logical, errs, now);
    var dest, err := cfg.namer.retry(logical, attempt + 1), errs(attempt).value;
    var delay := DelayFor(cfg, logical, attempt + 1);
    var out := RetryMessage(m, dest, attempt + 1, err, delay, now);
    RetryGoesTo(m, dest, attempt + 1, err, delay, now);
    HopKeepsOrigin(m, m, dest, err, delay, env(n));
    next := Requeued(out, env(n));
    SelfOrigin(m, next);
    SameOriginTopic(m, next);
    HopAnswer(cfg, m, logical, dest, err, delay, env(n));
  }

  lemma OriginPolled(m: Message)
    requires SameOrigin(m, m)
    ensures AsPolled(m)
  {
  }

  /** A retry of a message with attempt 0 or more, up to the maximum, is always consumed. */
  lemma HopFindsPlainly(cfg: Config, logical: string, origin: string, k: int)
    requires logical in cfg.handlers && 1 <= k <= MaxFor(cfg, logical)
    ensures var name := cfg.namer.retry(logical, k);
      HopFinds(cfg, logical, origin, k) <==> if name in cfg.handlers then name == logical else origin == logical
  {
    TopicPlan.RetryDestinationsSubscribed(cfg, logical, k - 1);
  }

  // ---- a message that always fails ----

  function RetryTopics(cfg: Config, logical: string, from: int, n: nat): seq<string> {
    seq(n, i => cfg.namer.retry(logical, from + 1 + i))
  }

  function Attempts(from: int, n: nat): seq<int> { seq(n, i => from + i) }

  /** How many of the next `n` retries are consumed and find `logical`, before one does not. */
  function Found(cfg: Config, logical: string, origin: string, from: int, n: nat): nat
    decreases n
  {
    if n == 0 || !HopFinds(cfg, logical, origin, from + 1) then 0 else 1 + Found(cfg, logical, origin, from + 1, n - 1)
  }

  /** A message whose handler always fails visits, in this order, its own topic and the retry
      topics up to the maximum, and ends in the dead-letter topic if there is one; or up to the
      first retry that is not consumed or does not find its handler, and ends there. */
  lemma {:induction false} AlwaysFailingVisits(cfg: Config, sh: Shared, m: Message, logical: string,
                                               errs: int -> Option<string>, env: nat -> Env, n: nat)
    requires !RetriesInPlace(cfg, logical) && (forall a :: errs(a).Some?) && logical in cfg.handlers
    requires SameOrigin(m, m) && n == HopsLeft(cfg, logical, m.RetryAttempt()) && MaxFor(cfg, logical) <= MAX_INT64
    requires (forall k :: cfg.namer.retry(logical, k) != "") && EnvOk(cfg, sh, m, logical, errs, env, n)
    ensures var j := OverTopics(cfg, sh, m, logical, errs, env, n);
      var c := Found(cfg, logical, OriginOf(m, ORIGINAL_TOPIC), m.RetryAttempt(), n);
      && c <= n
      && j.topics == [m.topic] + RetryTopics(cfg, logical, m.RetryAttempt(), c)
      && j.attempts == Attempts(m.RetryAttempt(), c + 1)
      && (if c < n then j.end.TakenOver? || j.end.Stranded?
          else if cfg.dlqEnabled then j.end.DeadLettered? && j.end.out.topic == cfg.namer.dlq(logical)
          else j.end == Settled(DecidedDlqOff))
    decreases n
  {
    hide OverTopics, EnvOk, RetriesInPlace, MaxFor, SameOrigin, RetryTopics, Attempts, RetryMessage, HopFinds, OriginOf;
    var attempt := m.RetryAttempt();
    if attempt < MaxFor(cfg, logical) {
      var next := HopTaken(cfg, sh, m, logical, errs, env, n);
      if HopFinds(cfg, logical, OriginOf(m, ORIGINAL_TOPIC), attempt + 1) {
        AlwaysFailingVisits(cfg, sh, next, logical, errs, env, n - 1);
      }
    } else {
      TopicStops(cfg, sh, m, logical, errs, env, n);
      RetryGoesTo(m, cfg.namer.dlq(logical), attempt, errs(attempt).value, 0, env(n).now);
    }
    ListsUnfold(cfg, logical, attempt, Found(cfg, logical, OriginOf(m, ORIGINAL_TOPIC), attempt, n));
  }

  /** Under the default names the topics visited are all different, from whichever of them the
      message starts, and the dead-letter topic is none of them. */
  lemma {:induction false} VisitsAreDistinct(cfg: Config, sh: Shared, m: Message, logical: string,
                                             errs: int -> Option<string>, env: nat -> Env, n: nat)
    requires DefaultNamed(cfg) && (m.topic == logical || m.topic == RetryName(logical, m.RetryAttempt()))
    requires !RetriesInPlace(cfg, logical) && (forall a :: errs(a).Some?) && logical in cfg.handlers
    requires SameOrigin(m, m) && n == HopsLeft(cfg, logical, m.RetryAttempt()) && MaxFor(cfg, logical) <= MAX_INT64
    requires EnvOk(cfg, sh, m, logical, errs, env, n)
    ensures var j := OverTopics(cfg, sh, m, logical, errs, env, n);
      NoDuplicates(j.topics) && cfg.namer.dlq(logical) !in j.topics
  {
    forall k ensures cfg.namer.retry(logical, k) != "" { DerivedIsLonger(logical, k); }
    AlwaysFailingVisits(cfg, sh, m, logical, errs, env, n);
    NamesDistinct(cfg, logical, m.RetryAttempt(), m.topic,
                  Found(cfg, logical, OriginOf(m, ORIGINAL_TOPIC), m.RetryAttempt(), n));
    hide OverTopics, EnvOk, SameOrigin, RetriesInPlace, MaxFor, RetryTopics;
  }

  lemma NamesDistinct(cfg: Config, logical: string, attempt: int, first: string, n: nat)
    requires DefaultNamed(cfg) && (first == logical || first == RetryName(logical, attempt))
    ensures var topics := [first] + RetryTopics(cfg, logical, attempt, n);
      && |topics| == n + 1 && NoDuplicates(topics)
      && cfg.namer.dlq(logical) !in topics
  {
    var topics := [first] + RetryTopics(cfg, logical, attempt, n);
    hide RetryName, DlqName;
    forall i | 0 < i <= n ensures topics[i] == RetryName(logical, attempt + i) && topics[i] != first {
      DerivedIsLonger(logical, attempt + i);
      if RetryName(logical, attempt) == topics[i] { RetryNameInjective(logical, attempt, logical, attempt + i); }
    }
    forall i, k | 0 < i < k <= n ensures topics[i] != topics[k] {
      if topics[i] == topics[k] { RetryNameInjective(logical, attempt + i, logical, attempt + k); }
    }
    forall i | 0 <= i <= n ensures topics[i] != DlqName(logical) {
      DerivedIsLonger(logical, attempt);
      RetryIsNotDlq(logical, attempt + i, logical);
    }
  }

  lemma ListsUnfold(cfg: Config, logical: string, from: int, n: nat)
    ensures n > 0 ==>
      RetryTopics(cfg, logical, from, n) ==
        [cfg.namer.retry(logical, from + 1)] + RetryTopics(cfg, logical, from + 1, n - 1)
    ensures Attempts(from, n + 1) == [from] + Attempts(from + 1, n)
    ensures RetryTopics(cfg, logical, from, 0) == [] && Attempts(from + 1, 0) == []
  {
  }

  lemma RetryGoesTo(m: Message, dest: string, attempt: int, err: string, delay: int, now: Time)
    ensures RetryMessage(m, dest, attempt, err, delay, now).topic == dest
  {
  }

  lemma SelfOrigin(job: Message, m: Message)
    requires SameOrigin(job, m)
    ensures SameOrigin(m, m) && m.topic != "" && job.topic != ""
  {
  }

  /** Every map order makes lookup answer `logical`. */
  ghost predicate SureFound(cfg: Config, m: Message, logical: string) {
    forall found :: LookupOk(cfg, m, found) ==> found == Some(logical)
  }

  /** Every consumption along the journey finds `logical`, whatever the map order. */
  ghost predicate FoundAlong(cfg: Config, sh: Shared, m: Message, logical: string, errs: int -> Option<string>,
                             env: nat -> Env, n: nat)
    decreases n
  {
    && SureFound(cfg, m, logical)
    && var e := Returned(cfg, sh, FirstCall(cfg, m, logical), errs, env(n).now);
       (n > 0 && e.pc.RoutingOut? && m.RetryAttempt() < MaxFor(cfg, logical) ==>
          FoundAlong(cfg, sh, Requeued(e.pc.out, env(n)), logical, errs, env, n - 1))
  }

  /** No retry name from the next attempt to the maximum is a handler of its own. */
  ghost predicate RetryNamesFree(cfg: Config, logical: string, attempt: int) {
    forall k :: attempt < k <= MaxFor(cfg, logical) ==> RetryName(logical, k) !in cfg.handlers
  }

  /** No hop is ahead, or the message counts as coming from `logical` and the names ahead are free. */
  ghost predicate HopsClear(cfg: Config, m: Message, logical: string) {
    || HopsLeft(cfg, logical, m.RetryAttempt()) == 0
    || (OriginOf(m, ORIGINAL_TOPIC) == logical && RetryNamesFree(cfg, logical, m.RetryAttempt()))
  }

  /** When every retry of a message finds its handler: as far as the journey goes, exactly when
      the message counts as coming from that handler's topic and none of the retry names ahead
      is a handler of its own. A handler that recovers cuts the journey short, so for the other
      direction it never does. */
  lemma {:induction false} EveryHopFindsHandler(cfg: Config, sh: Shared, m: Message, logical: string,
                                                errs: int -> Option<string>, env: nat -> Env, n: nat)
    requires DefaultNamed(cfg) && !RetriesInPlace(cfg, logical) && logical in cfg.handlers
    requires SameOrigin(m, m) && MaxFor(cfg, logical) <= MAX_INT64 && n == HopsLeft(cfg, logical, m.RetryAttempt())
    requires SureFound(cfg, m, logical)
    requires EnvOk(cfg, sh, m, logical, errs, env, n)
    ensures HopsClear(cfg, m, logical) ==> FoundAlong(cfg, sh, m, logical, errs, env, n)
    ensures FoundAlong(cfg, sh, m, logical, errs, env, n) && (forall a :: errs(a).Some?) ==> HopsClear(cfg, m, logical)
    decreases n
  {
    hide FoundAlong, EnvOk, SameOrigin, OriginOf, RetriesInPlace, MaxFor, SureFound, HopsClear, DefaultNamed;
    FoundUnfolds(cfg, sh, m, logical, errs, env, n);
    ClearUnfolds(cfg, m, logical);
    if n > 0 && errs(m.RetryAttempt()).Some? {
      var next := NextHop(cfg, sh, m, logical, errs, env, n);
      ClearNext(cfg, m, next, logical);
      FoundUnfolds(cfg, sh, next, logical, errs, env, n - 1);
      if SureFound(cfg, next, logical) {
        SureAnswer(cfg, next, logical, env(n).found);
        EveryHopFindsHandler(cfg, sh, next, logical, errs, env, n - 1);
      }
    }
  }

  lemma SureAnswer(cfg: Config, m: Message, logical: string, found: Option<string>)
    requires SureFound(cfg, m, logical) && LookupOk(cfg, m, found)
    ensures found == Some(logical)
  {
    hide LookupOk;
  }

  lemma ClearUnfolds(cfg: Config, m: Message, logical: string)
    ensures HopsLeft(cfg, logical, m.RetryAttempt()) == 0 ==> HopsClear(cfg, m, logical)
  {
  }

  lemma ClearNext(cfg: Config, m: Message, next: Message, logical: string)
    requires next.RetryAttempt() == m.RetryAttempt() + 1 && HopsLeft(cfg, logical, m.RetryAttempt()) > 0
    requires OriginOf(next, ORIGINAL_TOPIC) == OriginOf(m, ORIGINAL_TOPIC)
    requires SureFound(cfg, next, logical) <==>
      RetryName(logical, m.RetryAttempt() + 1) !in cfg.handlers && OriginOf(m, ORIGINAL_TOPIC) == logical
    ensures HopsClear(cfg, m, logical) <==> SureFound(cfg, next, logical) && HopsClear(cfg, next, logical)
  {
    hide SureFound, OriginOf, MaxFor;
  }

  lemma FoundUnfolds(cfg: Config, sh: Shared, m: Message, logical: string, errs: int -> Option<string>, env: nat -> Env,
                     n: nat)
    requires !RetriesInPlace(cfg, logical)
    ensures FoundAlong(cfg, sh, m, logical, errs, env, n) ==> SureFound(cfg, m, logical)
    ensures n == 0 || errs(m.RetryAttempt()).None? ==>
      (FoundAlong(cfg, sh, m, logical, errs, env, n) <==> SureFound(cfg, m, logical))
  {
    hide Returned, RetriesInPlace, Requeued, SureFound, RetryMessage;
    TopicStep(cfg, sh, m, logical, errs, env(n).now);
  }

  /** The next consumption of a message that failed with attempts left. */
  lemma NextHop(cfg: Config, sh: Shared, m: Message, logical: string, errs: int -> Option<string>, env: nat -> Env,
                n: nat)
    returns (next: Message)
    requires DefaultNamed(cfg) && !RetriesInPlace(cfg, logical) && logical in cfg.handlers
    requires errs(m.RetryAttempt()).Some?
    requires SameOrigin(m, m) && MaxFor(cfg, logical) <= MAX_INT64 && n == HopsLeft(cfg, logical, m.RetryAttempt()) > 0
    requires SureFound(cfg, m, logical)
    requires EnvOk(cfg, sh, m, logical, errs, env, n)
    ensures SameOrigin(next, next) && next.RetryAttempt() == m.RetryAttempt() + 1
    ensures LookupOk(cfg, next, env(n).found)
    ensures env(n).found == Some(logical) ==> EnvOk(cfg, sh, next, logical, errs, env, n - 1)
    ensures OriginOf(next, ORIGINAL_TOPIC) == OriginOf(m, ORIGINAL_TOPIC)
    ensures FoundAlong(cfg, sh, m, logical, errs, env, n) <==> FoundAlong(cfg, sh, next, logical, errs, env, n - 1)
    ensures SureFound(cfg, next, logical) <==>
      RetryName(logical, m.RetryAttempt() + 1) !in cfg.handlers && OriginOf(m, ORIGINAL_TOPIC) == logical
  {
    hide Returned, RetriesInPlace, Requeued, SameOrigin, DelayFor, SureFound, RetryMessage, OriginOf;
    var attempt := m.RetryAttempt();
    TopicStep(cfg, sh, m, logical, errs, env(n).now);
    var err, delay := errs(attempt).value, DelayFor(cfg, logical, attempt + 1);
    var out := RetryMessage(m, cfg.namer.retry(logical, attempt + 1), attempt + 1, err, delay, env(n).now);
    DerivedIsLonger(logical, attempt + 1);
    HopKeepsOrigin(m, m, cfg.namer.retry(logical, attempt + 1), err, delay, env(n));
    next := Requeued(out, env(n));
    SelfOrigin(m, next);
    SameOriginTopic(m, next);
    RequeuedLookup(cfg, m, logical, err, delay, env(n));
  }

  lemma SameOriginTopic(job: Message, m: Message)
    requires SameOrigin(job, m)
    ensures OriginOf(m, ORIGINAL_TOPIC) == OriginOf(job, ORIGINAL_TOPIC)
  {
    assert OriginKey(ORIGINAL_TOPIC);
  }

  /** The next consumption has one answer, and it is `logical` under the condition alone. */
  lemma RequeuedLookup(cfg: Config, m: Message, logical: string, err: string, delay: int, env: Env)
    requires DefaultNamed(cfg) && logical in cfg.handlers && m.topic != ""
    requires var out := RetryMessage(m, RetryName(logical, m.RetryAttempt() + 1), m.RetryAttempt() + 1, err, delay,
                                     env.now);
      Lists(env.headers, out.headers)
    ensures var out := RetryMessage(m, RetryName(logical, m.RetryAttempt() + 1), m.RetryAttempt() + 1, err, delay,
                                    env.now);
      SureFound(cfg, Requeued(out, env), logical) <==>
        RetryName(logical, m.RetryAttempt() + 1) !in cfg.handlers && OriginOf(m, ORIGINAL_TOPIC) == logical
  {
    hide AttachRetry, LookupOk;
    var next := m.RetryAttempt() + 1;
    var out := RetryMessage(m, RetryName(logical, next), next, err, delay, env.now);
    var placed := out.(partition := env.partition, offset := env.offset);
    ConversionRoundTrip(placed, env.headers);
    assert RecordWith(placed, env.headers) ==
      RecordWith(out, env.headers).(partition := env.partition, offset := env.offset);
    assert OriginalTopic(m) == OriginOf(m, ORIGINAL_TOPIC) by { KeysDistinct(); }
    forall found | LookupOk(cfg, placed, found)
      ensures found == Some(logical) <==>
        RetryName(logical, next) !in cfg.handlers && OriginOf(m, ORIGINAL_TOPIC) == logical
    {
      RoutedLookupExact(cfg, m, logical, next, err, delay, env.now, placed, found, cfg.ordering);
    }
    assert Requeued(out, env) == placed;
    var some := SomeAnswer(cfg, placed);
  }

  lemma SomeAnswer(cfg: Config, m: Message) returns (found: Option<string>)
    ensures LookupOk(cfg, m, found)
  {
    var base := Get(m.headers, ORIGINAL_TOPIC);
    if m.topic in cfg.handlers {
      found := Some(m.topic);
    } else if base != "" {
      found := if base in cfg.handlers then Some(base) else None;
    } else if t :| t in cfg.handlers && IsBase(cfg, m.topic, t) {
      found := Some(t);
    } else {
      found := None;
    }
  }
}
