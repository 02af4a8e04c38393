/** Retries run dry. Every message still to be handled carries a fuel, the deliveries (or the
    handler calls) that it and its retries can still cause; no action of a running consumer
    raises the sum of what has happened and the fuel left. So without new messages the
    subscribed logs stop growing, and handler calls are bounded as well. */
module Drain {
  import opened Wrappers
  import opened Decimal
  import opened Envelope
  import opened Config
  import opened Routing
  import opened Broker
  import opened Protocol
  import opened Safety
  import opened Runs
  import opened Exclusion
  import opened Guarantees
  import TopicPlan
  import Claims

  /** What is counted: handler calls, or records taken by a worker. */
  datatype Count = HandlerCalls | RecordsTaken

  /** No handler allows more than `max` retries; `depth` says how many handlers a message of a
      handled topic may still go through by way of consumed dead letters, at most `deepest`. */
  datatype Budget = Budget(max: int, deepest: nat, depth: map<string, nat>)

  const NO_BUDGET := Budget(0, 0, map[])

  /** Every consumed dead-letter topic has a handler, one level less deep than what feeds it. */
  ghost predicate Fits(cfg: Config, topics: seq<string>, b: Budget) {
    && 0 <= b.max <= MAX_INT64 && b.depth.Keys == cfg.handlers.Keys
    && forall t :: t in cfg.handlers ==>
         && cfg.MaxRetriesFor(cfg.handlers[t]) <= b.max && b.depth[t] <= b.deepest
         && var dlq := cfg.namer.dlq(t);
            (cfg.dlqEnabled && dlq in topics ==> dlq in cfg.handlers && b.depth[dlq] < b.depth[t])
  }

  function Level(b: Budget, topic: string): nat { if topic in b.depth then b.depth[topic] else b.deepest }

  /** What the retries after this attempt can cost. */
  function Stock(b: Budget, attempt: int): nat { (if attempt < b.max then b.max - attempt else 0) * (b.deepest + 1) }

  function Fuel(b: Budget, m: Message): nat { Stock(b, m.RetryAttempt()) + Level(b, m.topic) + 1 }

  function OutFuel(b: Budget, topics: seq<string>, out: Message): nat {
    if out.topic in topics then Fuel(b, out) else 0
  }

  /** What the message a worker is busy with can still cause; taking the record has been counted,
      the handler's next call has not. */
  function Residual(n: Count, b: Budget, topics: seq<string>, pc: PC): nat {
    var next := if n.HandlerCalls? then 1 else 0;
    match pc
    case Starting(job) => Fuel(b, job) - 1 + next
    case Waiting(job, _) => Fuel(b, job) - 1 + next
    case Claiming(job, _) => Fuel(b, job) - 1 + next
    case Asking(job, _, _) => Fuel(b, job) - 1 + next
    case Handling(_, _, logical, attempt, _) => Stock(b, attempt) + Level(b, logical)
    case Failing(_, logical, attempt, _, _) => Stock(b, attempt) + Level(b, logical)
    case Sleeping(_, _, logical, attempt, _, _, _) => Stock(b, attempt) + Level(b, logical) + next
    case RoutingOut(_, out, _, _) => OutFuel(b, topics, out)
    case _ => 0
  }

  /** The handler found for a topic that has one is that one. */
  predicate FoundFor(cfg: Config, job: Message, logical: string) {
    logical in cfg.handlers && (job.topic in cfg.handlers ==> logical == job.topic)
  }

  /** Between the first attempt and the last one allowed. */
  predicate AttemptOk(cfg: Config, job: Message, logical: string, attempt: int) {
    && job.RetryAttempt() <= attempt && (attempt == job.RetryAttempt() || attempt <= MaxFor(cfg, logical))
    && (!RetriesInPlace(cfg, logical) ==> attempt == job.RetryAttempt())
  }

  /** What a worker's place implies about its handler and its attempts. */
  predicate PcOk(cfg: Config, pc: PC) {
    match pc
    case Waiting(job, logical) => FoundFor(cfg, job, logical)
    case Claiming(job, logical) => FoundFor(cfg, job, logical)
    case Asking(job, logical, _) => FoundFor(cfg, job, logical)
    case Handling(job, _, logical, attempt, _) => FoundFor(cfg, job, logical) && AttemptOk(cfg, job, logical, attempt)
    case Failing(job, logical, attempt, _, _) => FoundFor(cfg, job, logical) && AttemptOk(cfg, job, logical, attempt)
    case Sleeping(job, _, logical, attempt, _, _, _) =>
      && FoundFor(cfg, job, logical) && RetriesInPlace(cfg, logical) && AttemptOk(cfg, job, logical, attempt)
      && attempt <= MaxFor(cfg, logical)
    case _ => true
  }

  /** The fuel of the records from offset `from` on. */
  function Pending(b: Budget, log: seq<MemRec>, from: int): nat {
    if log == [] || |log| <= from then 0
    else Pending(b, log[..|log| - 1], from) + Fuel(b, MessageFromRecord(log[|log| - 1].rec))
  }

  /** The first offset no worker has taken yet. */
  function Untaken(s: Slice): int {
    if s.fetched.Some? then QueueBase(s) else s.committed
  }

  function Done(n: Count, s: Slice): int { if n.HandlerCalls? then |s.calls| else Untaken(s) }

  /** What was done, and the fuel left, of one partition. */
  function PartScore(n: Count, b: Budget, topics: seq<string>, s: Slice, tp: TP): int {
    Done(n, s) + Residual(n, b, topics, s.wk.pc) + if tp.topic in topics then Pending(b, s.log, Untaken(s)) else 0
  }

  function Score(n: Count, b: Budget, w: World, parts: seq<TP>): int {
    if parts == [] then 0
    else
      var tp := parts[|parts| - 1];
      Score(n, b, w, parts[..|parts| - 1]) + PartScore(n, b, w.sh.sub.topics, SliceOf(w, tp), tp)
  }

  lemma FuelPositive(b: Budget, m: Message)
    ensures Fuel(b, m) >= 1
  {
  }

  lemma {:induction false} PendingTakes(b: Budget, log: seq<MemRec>, from: int)
    requires 0 <= from < |log|
    ensures Pending(b, log, from) == Fuel(b, MessageAt(log, from)) + Pending(b, log, from + 1)
  {
    hide Fuel;
    if from < |log| - 1 {
      PendingTakes(b, log[..|log| - 1], from);
    } else {
      PendingNone(b, log[..|log| - 1], from);
    }
  }

  lemma PendingNone(b: Budget, log: seq<MemRec>, from: int)
    requires |log| <= from
    ensures Pending(b, log, from) == 0
  {
  }

  lemma PendingAppend(b: Budget, log: seq<MemRec>, r: MemRec, from: int)
    ensures Pending(b, log + [r], from) <= Pending(b, log, from) + Fuel(b, MessageFromRecord(r.rec))
  {
    hide Fuel;
    assert (log + [r])[..|log|] == log;
  }

  // ---- one worker action ----

  lemma StockStep(b: Budget, attempt: int)
    ensures attempt < b.max ==> Stock(b, attempt) == Stock(b, attempt + 1) + b.deepest + 1
  {
  }

  lemma LevelBound(cfg: Config, topics: seq<string>, b: Budget, topic: string)
    requires Fits(cfg, topics, b)
    ensures Level(b, topic) <= b.deepest
    ensures topic in cfg.handlers ==> Level(b, topic) == b.depth[topic]
    ensures topic in cfg.handlers && cfg.dlqEnabled && cfg.namer.dlq(topic) in topics ==>
      Level(b, cfg.namer.dlq(topic)) < Level(b, topic)
  {
  }

  /** Where an action of the handler phase leaves the fuel. */
  ghost predicate Burns(n: Count, b: Budget, topics: seq<string>, pc: PC, e: Effect) {
    Residual(n, b, topics, e.pc) + (if n.HandlerCalls? && e.event.Called? then 1 else 0) <= Residual(n, b, topics, pc)
  }

  /** What a failed attempt had left covers what it is routed as. */
  ghost predicate Routes(cfg: Config, n: Count, b: Budget, topics: seq<string>, logical: string, attempt: int,
                         e: Effect) {
    && PcOk(cfg, e.pc) && !e.event.Called?
    && Residual(n, b, topics, e.pc) <= Stock(b, attempt) + Level(b, logical)
  }

  lemma TerminalFuel(cfg: Config, n: Count, b: Budget, topics: seq<string>, sh: Shared, job: Message, logical: string,
                     attempt: int, err: string)
    requires Fits(cfg, topics, b) && FoundFor(cfg, job, logical) && AttemptOk(cfg, job, logical, attempt)
    ensures Routes(cfg, n, b, topics, logical, attempt,
                   Protocol.RouteTerminal(cfg, sh, job, logical, attempt, err, sh.clock))
  {
    hide AttachRetry, Stock, Level;
    AttemptBounds(cfg, topics, b, job, logical, attempt);
    AttachStampsAttempt(job, sh.clock, attempt, Some(err), 0);
    LevelBound(cfg, topics, b, logical);
  }

  lemma RetryFuel(cfg: Config, n: Count, b: Budget, topics: seq<string>, sh: Shared, job: Message, logical: string,
                  err: string)
    requires Fits(cfg, topics, b) && FoundFor(cfg, job, logical)
    ensures Routes(cfg, n, b, topics, logical, job.RetryAttempt(),
                   Protocol.FailAndRoute(cfg, sh, job, logical, err, sh.clock))
  {
    hide AttachRetry, Stock, Level, Protocol.RouteTerminal;
    var a := job.RetryAttempt();
    TerminalFuel(cfg, n, b, topics, sh, job, logical, a, err);
    if a < MaxFor(cfg, logical) {
      AttemptBounds(cfg, topics, b, job, logical, a);
      var next := a + 1;
      AttachStampsAttempt(job, sh.clock, next, Some(err), DelayFor(cfg, logical, next));
      LevelBound(cfg, topics, b, cfg.namer.retry(logical, next));
      StockStep(b, a);
    }
  }

  lemma AttemptBounds(cfg: Config, topics: seq<string>, b: Budget, job: Message, logical: string, attempt: int)
    requires Fits(cfg, topics, b) && FoundFor(cfg, job, logical) && AttemptOk(cfg, job, logical, attempt)
    ensures MIN_INT64 <= attempt <= MAX_INT64
    ensures attempt < MaxFor(cfg, logical) ==> attempt + 1 <= b.max <= MAX_INT64
  {
    ParsedBounds(job);
  }

  lemma ParsedBounds(m: Message)
    ensures MIN_INT64 <= m.RetryAttempt() <= MAX_INT64
  {
  }

  /** The fuel of a message in front of its handler covers the failure of its first attempt. */
  lemma FuelCovers(cfg: Config, topics: seq<string>, b: Budget, job: Message, logical: string)
    requires Fits(cfg, topics, b) && FoundFor(cfg, job, logical)
    ensures Fuel(b, job) >= Stock(b, job.RetryAttempt()) + Level(b, logical) + 1
  {
    hide Stock;
  }

  lemma AskBurns(cfg: Config, n: Count, b: Budget, topics: seq<string>, perKey: bool, sh: Shared, pc: PC, c: Choice)
    requires Fits(cfg, topics, b) && PcOk(cfg, pc) && pc.Asking? && cfg.store.Some?
    ensures var e := AskStep(cfg, perKey, sh, pc, c); PcOk(cfg, e.pc) && Burns(n, b, topics, pc, e)
  {
    hide Protocol.FailAndRoute, Fuel, Stock, Level, Claims.TryStartCall, Fits, RetriesInPlace;
    FuelCovers(cfg, topics, b, pc.job, pc.logical);
    if c.storeError.Some? { RetryFuel(cfg, n, b, topics, sh, pc.job, pc.logical, c.storeError.value); }
  }

  lemma FailureBurns(cfg: Config, n: Count, b: Budget, topics: seq<string>, sh: Shared, job: Message, logical: string,
                     attempt: int, err: string)
    requires Fits(cfg, topics, b) && FoundFor(cfg, job, logical) && AttemptOk(cfg, job, logical, attempt)
    ensures Routes(cfg, n, b, topics, logical, attempt, AfterFailure(cfg, sh, job, logical, attempt, err))
  {
    hide Protocol.FailAndRoute, Protocol.RouteTerminal, Fits, Stock, Level, RetriesInPlace;
    if RetriesInPlace(cfg, logical) {
      TerminalFuel(cfg, n, b, topics, sh, job, logical, attempt, err);
    } else {
      RetryFuel(cfg, n, b, topics, sh, job, logical, err);
    }
  }

  lemma EndBurns(cfg: Config, n: Count, b: Budget, topics: seq<string>, sh: Shared, pc: PC, c: Choice)
    requires Fits(cfg, topics, b) && PcOk(cfg, pc) && pc.Handling?
    ensures var e := HandlerEnd(cfg, sh, pc, c); PcOk(cfg, e.pc) && Burns(n, b, topics, pc, e)
  {
    hide AfterFailure, Fuel, Stock, Level, RetriesInPlace;
    if c.failure.Some? {
      FailureBurns(cfg, n, b, topics, sh, pc.job, pc.logical, pc.attempt, c.failure.value);
      StockStep(b, pc.attempt);
    }
  }

  lemma VerdictBurns(cfg: Config, n: Count, b: Budget, topics: seq<string>, sh: Shared, pc: PC, c: Choice)
    requires Fits(cfg, topics, b) && PcOk(cfg, pc) && (pc.Completing? || pc.Failing?) && cfg.store.Some?
    ensures var e := VerdictStep(cfg, sh, pc, c); PcOk(cfg, e.pc) && Burns(n, b, topics, pc, e)
  {
    hide AfterFailure, Fuel, Stock, Level, Fits;
    if pc.Failing? {
      FailureBurns(cfg, n, b, topics, sh, pc.job, pc.logical, pc.attempt, pc.err);
      FailureBurns(cfg, n, b, topics,
                   sh.(items := sh.items[pc.job.id := Claims.FailedRec(cfg.store.value, cfg.ttl, sh.clock)]),
                   pc.job, pc.logical, pc.attempt, pc.err);
    }
  }

  /** An action of the handler phase makes a call only out of fuel. */
  lemma HandlerBurns(cfg: Config, n: Count, b: Budget, topics: seq<string>, perKey: bool, sh: Shared, pc: PC, c: Choice)
    requires Fits(cfg, topics, b) && InHandlerPhase(pc) && PcOk(cfg, pc)
    ensures var e := HandlerStep(cfg, perKey, sh, pc, c); PcOk(cfg, e.pc) && Burns(n, b, topics, pc, e)
  {
    hide AttachRetry, LookupOk, AskStep, HandlerEnd, VerdictStep, Fuel, Stock, Level, Fits, RetriesInPlace;
    match pc {
      case Starting(job) =>
        if LookupOk(cfg, job, c.found) { FoundIsHandler(cfg, job, c.found); }
      case Claiming(job, logical) => FuelCovers(cfg, topics, b, job, logical);
      case Asking(_, _, _) => if cfg.store.Some? { AskBurns(cfg, n, b, topics, perKey, sh, pc, c); }
      case Handling(_, _, _, _, _) => EndBurns(cfg, n, b, topics, sh, pc, c);
      case _ => if (pc.Completing? || pc.Failing?) && cfg.store.Some? { VerdictBurns(cfg, n, b, topics, sh, pc, c); }
    }
  }

  lemma FoundIsHandler(cfg: Config, job: Message, found: Option<string>)
    requires LookupOk(cfg, job, found)
    ensures found.Some? ==> FoundFor(cfg, job, found.value)
  {
  }

  /** A routing action leaves every log alone, or adds one record that reads back as the
      routed message, to a partition of its topic. */
  ghost predicate RouteLogged(sh: Shared, pc: PC, e: Effect, r: MemRec)
    requires pc.RoutingOut?
  {
    if e.event.Routed? then
      var d := e.event.dst.tp;
      && d.topic == pc.out.topic
      && MessageFromRecord(r.rec).headers == pc.out.headers && MessageFromRecord(r.rec).topic == pc.out.topic
      && forall q :: Log(e.sh.broker, q) == if q == d then Log(sh.broker, q) + [r] else Log(sh.broker, q)
    else forall q :: Log(e.sh.broker, q) == Log(sh.broker, q)
  }

  lemma RouteLogs(cfg: Config, perKey: bool, sh: Shared, pc: PC, c: Choice) returns (r: MemRec)
    requires pc.RoutingOut? && RoutingOk(cfg, pc) && WellFormed(sh.broker) && cfg.groupID != ""
    ensures RouteLogged(sh, pc, RouteStep(cfg, perKey, sh, pc, c), r)
  {
    hide Append, ApplyTxn, WellFormed;
    var b := sh.broker;
    var e := RouteStep(cfg, perKey, sh, pc, c);
    if e.event.Routed? {
      r := RoutedLog(cfg, perKey, sh, pc, c);
    } else {
      r := MemRec(Record("", 0, 0, [], [], [], 0), 0, true);
      hide RouteStep;
      RouteStepOutcome(cfg, perKey, sh, pc, c);
      SameDataLogs(sh.broker, e.sh.broker);
    }
  }

  lemma SameDataLogs(b: BrokerState, b': BrokerState)
    ensures SameData(b, b') ==> forall q :: Log(b', q) == Log(b, q)
  {
  }

  lemma RoutedLog(cfg: Config, perKey: bool, sh: Shared, pc: PC, c: Choice) returns (r: MemRec)
    requires pc.RoutingOut? && RoutingOk(cfg, pc) && WellFormed(sh.broker) && cfg.groupID != ""
    requires RouteStep(cfg, perKey, sh, pc, c).event.Routed?
    ensures RouteLogged(sh, pc, RouteStep(cfg, perKey, sh, pc, c), r)
  {
    hide Append, ApplyTxn, Log, StoredRecord, MessageFromRecord, Destination, WellFormed;
    var b := sh.broker;
    if pc.stage.PublishApply? {
      AppendFacts(b, RecordWith(pc.out, c.headers), 0);
      r := MemRec(StoredRecord(b, RecordWith(pc.out, c.headers)), 0, true);
      StoredHeaders(b, pc.out, c.headers);
    } else {
      ApplyOne(b, pc.txn);
      r := MemRec(StoredRecord(b, pc.txn.publishes[0]), pc.txn.id, true);
      StoredHeaders(b, pc.out, pc.txn.publishes[0].headers);
    }
  }

  lemma StoredHeaders(b: BrokerState, out: Message, hs: seq<Header>)
    requires Lists(hs, out.headers)
    ensures MessageFromRecord(StoredRecord(b, RecordWith(out, hs))).headers == out.headers
    ensures MessageFromRecord(StoredRecord(b, RecordWith(out, hs))).topic == out.topic
    ensures Destination(b, RecordWith(out, hs)).topic == out.topic
  {
    var r := StoredRecord(b, RecordWith(out, hs));
    var placed := out.(partition := r.partition, offset := r.offset);
    ConversionRoundTrip(placed, hs);
    assert RecordWith(placed, hs) == r;
  }

  /** What a routing action gives away is what the record it adds is worth. */
  lemma RouteBurns(cfg: Config, n: Count, b: Budget, topics: seq<string>, perKey: bool, sh: Shared, pc: PC, c: Choice)
    requires pc.RoutingOut? && RoutingOk(cfg, pc) && WellFormed(sh.broker) && cfg.groupID != ""
    ensures var e := RouteStep(cfg, perKey, sh, pc, c);
      && PcOk(cfg, e.pc) && !e.event.Called?
      && Residual(n, b, topics, e.pc) <= if e.event.Routed? then 0 else Residual(n, b, topics, pc)
  {
    hide RouteStep, RoutingOk, WellFormed, Fuel, LogsGrow, OffsetRaised;
    RouteStepOutcome(cfg, perKey, sh, pc, c);
  }

  // ---- sums ----

  /** Worth `x` moves from `p` to `d`; no other partition's score rises. */
  ghost predicate Transfers(n: Count, b: Budget, w: World, w': World, p: TP, d: TP, x: nat) {
    && w'.sh.sub.topics == w.sh.sub.topics
    && forall q :: PartScore(n, b, w'.sh.sub.topics, SliceOf(w', q), q) + (if q == p then x else 0)
         <= PartScore(n, b, w.sh.sub.topics, SliceOf(w, q), q) + (if q == d then x else 0)
  }

  lemma {:induction false} SumTransfers(n: Count, b: Budget, w: World, w': World, parts: seq<TP>, p: TP, d: TP, x: nat)
    requires NoDuplicates(parts) && Transfers(n, b, w, w', p, d, x)
    ensures Score(n, b, w', parts) + (if p in parts then x else 0) <=
      Score(n, b, w, parts) + (if d in parts then x else 0)
  {
    hide PartScore, SliceOf;
    if parts != [] {
      var last := |parts| - 1;
      SumTransfers(n, b, w, w', parts[..last], p, d, x);
      assert parts == parts[..last] + [parts[last]];
      assert parts[last] !in parts[..last];
    }
  }

  // ---- one worker action, seen from every partition ----

  /** What the running worker's action does to a slice. */
  lemma BusySlices(cfg: Config, w: World, tp: TP, wk: Worker, e: Effect, q: TP)
    requires tp in w.workers && w.workers[tp] == wk && Busy(wk.pc) && w.sh.sub.groupID == cfg.groupID
    requires EffectFrame(cfg, w.sh, tp, e)
    ensures var s, s' := SliceOf(w, q), SliceOf(AfterEffect(w, tp, wk, e), q);
      && s'.log == Log(e.sh.broker, q) && s.log == Log(w.sh.broker, q)
      && s'.fetched == s.fetched && s'.polled == s.polled && s'.wk.queue == s.wk.queue
      && (q != tp ==> s'.committed == s.committed && s'.calls == s.calls && s'.wk == s.wk)
      && (q == tp ==> s.wk == wk && s'.wk.pc == e.pc && s'.calls == ApplyToCalls(s.calls, e, wk.pc.job.offset))
  {
    hide MessageFromRecord, Log, GroupOffset, Assigned, TPOf, ApplyToHist, ApplyToCalls, ApplyToLife, WellFormed;
  }

  /** The worth a routing action moves. */
  function Moved(b: Budget, topics: seq<string>, pc: PC, e: Effect): nat {
    if e.event.Routed? && pc.RoutingOut? && pc.out.topic in topics then Fuel(b, pc.out) else 0
  }

  function MovedTo(tp: TP, e: Effect): TP { if e.event.Routed? then e.event.dst.tp else tp }

  lemma BusyBurns(cfg: Config, n: Count, b: Budget, w: World, tp: TP, c: Choice)
    requires BusyMove(cfg, w, tp, c) && Fits(cfg, w.sh.sub.topics, b) && PcOk(cfg, w.workers[tp].pc)
    ensures var pc := w.workers[tp].pc; var e := BusyStep(cfg, w.workers[tp].perKey, w.sh, pc, c);
      var topics := w.sh.sub.topics;
      && PcOk(cfg, e.pc)
      && Residual(n, b, topics, e.pc) + (if n.HandlerCalls? && e.event.Called? then 1 else 0) + Moved(b, topics, pc, e)
           <= Residual(n, b, topics, pc)
      && (!pc.RoutingOut? ==> !e.event.Routed? && forall q :: Log(e.sh.broker, q) == Log(w.sh.broker, q))
  {
    hide HandlerStep, RouteStep, CommitStep, PartInv, RoutingOk, OriginSound, OriginComplete, OriginInjective, SliceOf,
      Fuel, LookupOk, WellFormed, HandlerOutcome, RetriesInPlace, Stock, Level, Fits;
    BusyJob(cfg, w, tp, c);
    var wk := w.workers[tp];
    if wk.pc.RoutingOut? {
      PartRouting(cfg, SliceOf(w, tp));
      RouteBurns(cfg, n, b, w.sh.sub.topics, wk.perKey, Later(w.sh, c), wk.pc, c);
    } else if wk.pc.Committing? {
      CommitStepOutcome(cfg, wk.perKey, Later(w.sh, c), wk.pc);
    } else {
      HandlerBurns(cfg, n, b, w.sh.sub.topics, wk.perKey, Later(w.sh, c), wk.pc, c);
      HandlerStepOutcome(cfg, wk.perKey, Later(w.sh, c), wk.pc, c);
      HandlerSameBroker(cfg, wk.perKey, Later(w.sh, c), wk.pc, HandlerStep(cfg, wk.perKey, Later(w.sh, c), wk.pc, c));
    }
  }

  lemma BusyScore(cfg: Config, n: Count, b: Budget, w: World, tp: TP, c: Choice, q: TP)
    requires BusyMove(cfg, w, tp, c) && Fits(cfg, w.sh.sub.topics, b) && PcOk(cfg, w.workers[tp].pc)
    ensures var wk := w.workers[tp]; var e := BusyStep(cfg, wk.perKey, w.sh, wk.pc, c);
      var w' := AfterEffect(w, tp, wk, e);
      var topics := w.sh.sub.topics; var x := Moved(b, topics, wk.pc, e);
      PartScore(n, b, topics, SliceOf(w', q), q) + (if q == tp then x else 0)
        <= PartScore(n, b, topics, SliceOf(w, q), q) + (if q == MovedTo(tp, e) then x else 0)
  {
    hide BusyStep, AfterEffect, Inv, SliceOf, Fuel, Residual, WellFormed, PcOk, Fits, LogsGrow, Log, MessageFromRecord,
      RoutingOk;
    var wk, topics := w.workers[tp], w.sh.sub.topics;
    BusyGroup(cfg, w, tp, c);
    var e := BusyStep(cfg, wk.perKey, w.sh, wk.pc, c);
    var s, s' := SliceOf(w, q), SliceOf(AfterEffect(w, tp, wk, e), q);
    BusyFrame(cfg, w, tp, c);
    BusyBurns(cfg, n, b, w, tp, c);
    BusySlices(cfg, w, tp, wk, e, q);
    assert Untaken(s') == Untaken(s);
    if wk.pc.RoutingOut? {
      var r := BusyRouteLogs(cfg, w, tp, c);
      if e.event.Routed? && q == e.event.dst.tp {
        PendingAppend(b, s.log, r, Untaken(s));
        SameFuel(b, MessageFromRecord(r.rec), wk.pc.out);
      }
    }
  }

  lemma SameFuel(b: Budget, x: Message, y: Message)
    requires x.headers == y.headers && x.topic == y.topic
    ensures Fuel(b, x) == Fuel(b, y)
  {
  }

  lemma BusyGroup(cfg: Config, w: World, tp: TP, c: Choice)
    requires BusyMove(cfg, w, tp, c)
    ensures w.sh.sub.groupID == cfg.groupID && SliceOf(w, tp).fetched.Some? && WellFormed(w.sh.broker)
  {
    hide PartInv, OriginSound, OriginComplete, OriginInjective;
    BusyJob(cfg, w, tp, c);
  }

  lemma BusyRouteLogs(cfg: Config, w: World, tp: TP, c: Choice) returns (r: MemRec)
    requires BusyMove(cfg, w, tp, c) && w.workers[tp].pc.RoutingOut?
    ensures var wk := w.workers[tp]; RouteLogged(w.sh, wk.pc, BusyStep(cfg, wk.perKey, w.sh, wk.pc, c), r)
  {
    hide RouteStep, PartInv, RoutingOk, OriginSound, OriginComplete, OriginInjective, SliceOf;
    BusyJob(cfg, w, tp, c);
    PartRouting(cfg, SliceOf(w, tp));
    r := RouteLogs(cfg, w.workers[tp].perKey, Later(w.sh, c), w.workers[tp].pc, c);
  }

  lemma BusyTransfers(cfg: Config, n: Count, b: Budget, w: World, tp: TP, c: Choice)
    requires BusyMove(cfg, w, tp, c) && Fits(cfg, w.sh.sub.topics, b) && PcOk(cfg, w.workers[tp].pc)
    ensures var wk := w.workers[tp]; var e := BusyStep(cfg, wk.perKey, w.sh, wk.pc, c);
      Transfers(n, b, w, AfterEffect(w, tp, wk, e), tp, MovedTo(tp, e), Moved(b, w.sh.sub.topics, wk.pc, e))
  {
    hide BusyStep, Inv, PartScore, SliceOf, WellFormed, ApplyToHist, ApplyToCalls;
    var wk := w.workers[tp];
    BusyGroup(cfg, w, tp, c);
    var e := BusyStep(cfg, wk.perKey, w.sh, wk.pc, c);
    BusyFrame(cfg, w, tp, c);
    forall q
      ensures var w' := AfterEffect(w, tp, wk, e); var x := Moved(b, w.sh.sub.topics, wk.pc, e);
        PartScore(n, b, w.sh.sub.topics, SliceOf(w', q), q) + (if q == tp then x else 0)
          <= PartScore(n, b, w.sh.sub.topics, SliceOf(w, q), q) + (if q == MovedTo(tp, e) then x else 0)
    {
      BusyScore(cfg, n, b, w, tp, c, q);
    }
  }

  // ---- everybody else ----

  /** Polled partitions are subscribed ones, and workers stand where their attempts say. */
  ghost predicate Sound(cfg: Config, w: World) {
    && (forall tp :: tp in w.sh.sub.fetch ==> tp.topic in w.sh.sub.topics)
    && (forall tp :: tp in w.workers ==> PcOk(cfg, w.workers[tp].pc))
  }

  /** The rest of the system brings no new message. */
  predicate NoNewMessages(l: Label) { !l.OutsidePublish? && !l.Stop? && !l.Restart? }

  /** Nothing that counts changes. */
  ghost predicate SameWork(w: World, w': World) {
    && w'.sh.sub.topics == w.sh.sub.topics && w'.sh.sub.fetch == w.sh.sub.fetch && w'.sh.sub.groupID == w.sh.sub.groupID
    && w'.workers == w.workers && w'.polled == w.polled && w'.calls == w.calls
    && (forall q :: Log(w'.sh.broker, q) == Log(w.sh.broker, q))
    && (forall q :: GroupOffset(w'.sh.broker, w.sh.sub.groupID, q) == GroupOffset(w.sh.broker, w.sh.sub.groupID, q))
  }

  lemma SameWorkTransfers(cfg: Config, n: Count, b: Budget, w: World, w': World)
    requires SameWork(w, w')
    ensures Transfers(n, b, w, w', TP("", 0), TP("", 0), 0) && (Sound(cfg, w) ==> Sound(cfg, w'))
  {
    hide Pending, Residual, MessageFromRecord, Log, GroupOffset;
  }

  lemma EnvironmentSame(cfg: Config, w: World, l: Label)
    requires Inv(cfg, w) && NoNewMessages(l) && (IsFlag(l) || IsOutside(l))
    ensures SameWork(w, Step(cfg, w, l))
  {
    hide PartInv, OriginSound, OriginComplete, OriginInjective, WellFormed, Step, FlagStep, OutsideEffect;
    StepIs(cfg, w, l);
    if IsFlag(l) {
      FlagSame(w, l);
    } else {
      OutsideSame(cfg, w, l);
    }
  }

  lemma FlagSame(w: World, l: Label)
    requires IsFlag(l)
    ensures SameWork(w, FlagStep(w, l))
  {
    SameDataLogs(w.sh.broker, FlagStep(w, l).sh.broker);
  }

  lemma OutsideSame(cfg: Config, w: World, l: Label)
    requires WellFormed(w.sh.broker) && w.sh.sub.groupID == cfg.groupID && IsOutside(l) && !l.OutsidePublish?
    ensures SameWork(w, w.(sh := w.sh.(broker := OutsideEffect(cfg, w.sh.broker, l))))
  {
    hide WellFormed, EnsureTopic, Raise;
    match l {
      case OutsideTopic(name, n) => EnsureTopicFacts(w.sh.broker, name, n);
      case OutsideCommit(g, tp, next) =>
        RaiseFacts(w.sh.broker, g, tp, next);
        SameTopicsLogs(w.sh.broker, Raise(w.sh.broker, g, tp, next));
    }
  }

  lemma SameTopicsLogs(b: BrokerState, b': BrokerState)
    ensures b'.topics == b.topics ==> forall q :: Log(b', q) == Log(b, q)
  {
  }

  // ---- the dispatcher ----

  /** Polling, enqueueing and taking move a message along the pipeline; its fuel goes with it. */
  lemma PollScore(n: Count, b: Budget, topics: seq<string>, s: Slice, s': Slice, tp: TP)
    requires Pipeline(s) && SlicePolls(s, s')
    ensures PartScore(n, b, topics, s', tp) <= PartScore(n, b, topics, s, tp)
  {
    hide Pending, Residual, MessageFromRecord;
  }

  lemma EnqueueScore(n: Count, b: Budget, topics: seq<string>, s: Slice, s': Slice, tp: TP)
    requires Pipeline(s) && SliceEnqueues(s, s')
    ensures PartScore(n, b, topics, s', tp) <= PartScore(n, b, topics, s, tp)
  {
    hide Pending, Residual, MessageFromRecord;
  }

  lemma TakeScore(n: Count, b: Budget, topics: seq<string>, s: Slice, s': Slice, tp: TP)
    requires Pipeline(s) && SliceTakes(s, s') && s.fetched.Some? && tp.topic in topics
    ensures PartScore(n, b, topics, s', tp) <= PartScore(n, b, topics, s, tp)
  {
    hide Pending, MessageFromRecord, Fuel;
    if s.wk.queue != [] {
      PendingTakes(b, s.log, QueueBase(s));
      FuelPositive(b, MessageAt(s.log, QueueBase(s)));
    }
  }

  lemma InvPipeline(cfg: Config, w: World, q: TP)
    requires Inv(cfg, w)
    ensures Pipeline(SliceOf(w, q)) && LogOk(Log(w.sh.broker, q), q)
    ensures WellFormed(w.sh.broker) && w.workers.Keys <= w.sh.sub.fetch.Keys
  {
    hide OriginSound, OriginComplete, OriginInjective;
    assert PartInv(cfg, SliceOf(w, q));
  }

  lemma PollTransfers(cfg: Config, n: Count, b: Budget, w: World)
    requires Inv(cfg, w) && Sound(cfg, w)
    ensures Transfers(n, b, w, PollStep(w), TP("", 0), TP("", 0), 0) && Sound(cfg, PollStep(w))
  {
    hide Inv, PollStep, SliceOf, PartScore, PcOk;
    var w' := PollStep(w);
    if w' != w {
      InvPipeline(cfg, w, TP("", 0));
      PollSound(cfg, w);
      forall q
        ensures PartScore(n, b, w.sh.sub.topics, SliceOf(w', q), q) <=
          PartScore(n, b, w.sh.sub.topics, SliceOf(w, q), q)
      {
        InvPipeline(cfg, w, q);
        PollSlices(w, q);
        if SliceOf(w', q) != SliceOf(w, q) { PollScore(n, b, w.sh.sub.topics, SliceOf(w, q), SliceOf(w', q), q); }
      }
    }
  }

  lemma PollSound(cfg: Config, w: World)
    requires Sound(cfg, w)
    ensures Sound(cfg, PollStep(w)) && PollStep(w).sh.sub.topics == w.sh.sub.topics
  {
    hide PollTarget, PcOk;
    PollTargetIsFirst(w.sh.broker, w.sh.sub);
  }

  lemma EnqueueTransfers(cfg: Config, n: Count, b: Budget, w: World, o: Ordering)
    requires Inv(cfg, w) && Sound(cfg, w)
    ensures Transfers(n, b, w, EnqueueStep(cfg, w, o), TP("", 0), TP("", 0), 0) && Sound(cfg, EnqueueStep(cfg, w, o))
  {
    hide Inv, EnqueueStep, SliceOf, PartScore, MessageFromRecord;
    var w' := EnqueueStep(cfg, w, o);
    if w' != w {
      var m, wk := EnqueueShape(cfg, w, o);
      forall q
        ensures PartScore(n, b, w.sh.sub.topics, SliceOf(w', q), q) <=
          PartScore(n, b, w.sh.sub.topics, SliceOf(w, q), q)
      {
        InvPipeline(cfg, w, q);
        EnqueueSlices(w, w', m, wk, q);
        if SliceOf(w', q) != SliceOf(w, q) { EnqueueScore(n, b, w.sh.sub.topics, SliceOf(w, q), SliceOf(w', q), q); }
      }
    }
  }

  /** What an idle worker becomes. */
  lemma IdleShape(cfg: Config, w: World, tp: TP, c: Choice) returns (wk: Worker)
    requires WellFormed(w.sh.broker) && !(w.live && tp in w.workers && Busy(w.workers[tp].pc))
    requires WorkStep(cfg, w, tp, c) != w
    ensures w.live && tp in w.workers && w.workers[tp].pc.Idle?
    ensures WorkStep(cfg, w, tp, c) == w.(workers := w.workers[tp := wk])
    ensures wk.perKey == w.workers[tp].perKey
    ensures if w.workers[tp].queue == [] then wk.queue == [] && wk.pc.Exited?
      else
        && wk.queue == w.workers[tp].queue[1..]
        && wk.pc == (if w.sh.cancelled then Exited else Starting(w.workers[tp].queue[0]))
  {
    hide WellFormed, BusyStep, AfterEffect;
    wk := WorkStep(cfg, w, tp, c).workers[tp];
  }

  lemma TakeTransfers(cfg: Config, n: Count, b: Budget, w: World, tp: TP, c: Choice)
    requires Inv(cfg, w) && Sound(cfg, w) && !(w.live && tp in w.workers && Busy(w.workers[tp].pc))
    ensures WellFormed(w.sh.broker)
    ensures Transfers(n, b, w, WorkStep(cfg, w, tp, c), tp, tp, 0) && Sound(cfg, WorkStep(cfg, w, tp, c))
  {
    hide Inv, SliceOf, PartScore, PcOk, WorkStep;
    InvPipeline(cfg, w, tp);
    var w' := WorkStep(cfg, w, tp, c);
    if w' != w {
      var wk := IdleShape(cfg, w, tp, c);
      IdlePcOk(cfg);
      WorkerIsFetched(cfg, w, tp);
      WorkersSlice(w, tp, wk, tp);
      TakeScore(n, b, w.sh.sub.topics, SliceOf(w, tp), SliceOf(w', tp), tp);
      forall q
        ensures PartScore(n, b, w.sh.sub.topics, SliceOf(w', q), q) <=
          PartScore(n, b, w.sh.sub.topics, SliceOf(w, q), q)
      {
        WorkersSlice(w, tp, wk, q);
      }
    }
  }

  lemma IdlePcOk(cfg: Config)
    ensures forall job :: PcOk(cfg, Starting(job))
    ensures PcOk(cfg, Exited)
  {
  }

  // ---- soundness over every run ----

  lemma RoutedPcOk(cfg: Config, sh: Shared, job: Message, logical: string, attempt: int, err: string)
    ensures PcOk(cfg, Protocol.FailAndRoute(cfg, sh, job, logical, err, sh.clock).pc)
    ensures PcOk(cfg, AfterFailure(cfg, sh, job, logical, attempt, err).pc)
  {
    hide RetryMessage;
  }

  lemma VerdictPcOk(cfg: Config, perKey: bool, sh: Shared, pc: PC, c: Choice)
    requires PcOk(cfg, pc) && cfg.store.Some?
    ensures pc.Asking? ==> PcOk(cfg, AskStep(cfg, perKey, sh, pc, c).pc)
    ensures pc.Completing? || pc.Failing? ==> PcOk(cfg, VerdictStep(cfg, sh, pc, c).pc)
  {
    hide Protocol.FailAndRoute, AfterFailure, Claims.TryStartCall;
    if pc.Asking? && c.storeError.Some? { RoutedPcOk(cfg, sh, pc.job, pc.logical, 0, c.storeError.value); }
    if pc.Failing? {
      RoutedPcOk(cfg, sh, pc.job, pc.logical, pc.attempt, pc.err);
      RoutedPcOk(cfg, sh.(items := sh.items[pc.job.id := Claims.FailedRec(cfg.store.value, cfg.ttl, sh.clock)]),
                 pc.job, pc.logical, pc.attempt, pc.err);
    }
  }

  lemma HandlerPcOk(cfg: Config, perKey: bool, sh: Shared, pc: PC, c: Choice)
    requires InHandlerPhase(pc) && PcOk(cfg, pc)
    ensures PcOk(cfg, HandlerStep(cfg, perKey, sh, pc, c).pc)
  {
    hide AttachRetry, LookupOk, AskStep, VerdictStep, AfterFailure;
    if pc.Starting? && LookupOk(cfg, pc.job, c.found) { FoundIsHandler(cfg, pc.job, c.found); }
    if cfg.store.Some? { VerdictPcOk(cfg, perKey, sh, pc, c); }
    if pc.Handling? && c.failure.Some? { RoutedPcOk(cfg, sh, pc.job, pc.logical, pc.attempt, c.failure.value); }
  }

  lemma BusyPcOk(cfg: Config, w: World, tp: TP, c: Choice)
    requires BusyMove(cfg, w, tp, c) && PcOk(cfg, w.workers[tp].pc)
    ensures PcOk(cfg, BusyStep(cfg, w.workers[tp].perKey, w.sh, w.workers[tp].pc, c).pc)
  {
    hide HandlerStep, RouteStep, CommitStep, PartInv, RoutingOk, OriginSound, OriginComplete, OriginInjective, SliceOf,
      WellFormed, LogsGrow, OffsetRaised;
    BusyJob(cfg, w, tp, c);
    var wk := w.workers[tp];
    if wk.pc.RoutingOut? {
      PartRouting(cfg, SliceOf(w, tp));
      RouteStepOutcome(cfg, wk.perKey, Later(w.sh, c), wk.pc, c);
    } else if wk.pc.Committing? {
      CommitStepOutcome(cfg, wk.perKey, Later(w.sh, c), wk.pc);
    } else {
      HandlerPcOk(cfg, wk.perKey, Later(w.sh, c), wk.pc, c);
    }
  }

  lemma BusySound(cfg: Config, w: World, tp: TP, c: Choice)
    requires BusyMove(cfg, w, tp, c) && Sound(cfg, w)
    ensures WellFormed(w.sh.broker) && Sound(cfg, WorkStep(cfg, w, tp, c))
    ensures var wk := w.workers[tp];
      WorkStep(cfg, w, tp, c) == AfterEffect(w, tp, wk, BusyStep(cfg, wk.perKey, w.sh, wk.pc, c))
  {
    hide Inv, BusyStep, WellFormed, PcOk, ApplyToHist, ApplyToCalls;
    BusyGroup(cfg, w, tp, c);
    BusyFrame(cfg, w, tp, c);
    BusyPcOk(cfg, w, tp, c);
  }

  lemma OthersSound(cfg: Config, w: World, l: Label)
    requires WellFormed(w.sh.broker) && Sound(cfg, w) && (l.OutsidePublish? || l.Stop? || l.Restart?)
    ensures Sound(cfg, Step(cfg, w, l))
  {
    hide WellFormed, OutsideEffect, PcOk;
  }

  lemma StepSound(cfg: Config, w: World, l: Label)
    requires Inv(cfg, w) && cfg.groupID != "" && Sound(cfg, w)
    ensures WellFormed(w.sh.broker) && Sound(cfg, Step(cfg, w, l))
  {
    hide Inv, Step, Sound, BusyStep, AfterEffect, WorkStep, PollStep, EnqueueStep, WellFormed;
    InvWellFormed(cfg, w);
    StepIs(cfg, w, l);
    if l.OutsidePublish? || l.Stop? || l.Restart? {
      OthersSound(cfg, w, l);
    } else if IsFlag(l) || IsOutside(l) {
      EnvironmentSame(cfg, w, l);
      SameWorkTransfers(cfg, HandlerCalls, NO_BUDGET, w, Step(cfg, w, l));
    } else {
      match l {
        case Poll => PollSound(cfg, w);
        case Enqueue(o) => EnqueueTransfers(cfg, HandlerCalls, NO_BUDGET, w, o);
        case Work(tp, c) =>
          if w.live && tp in w.workers && Busy(w.workers[tp].pc) {
            BusySound(cfg, w, tp, c);
          } else {
            TakeTransfers(cfg, HandlerCalls, NO_BUDGET, w, tp, c);
          }
      }
    }
  }

  lemma {:induction false} RunSound(cfg: Config, labels: seq<Label>)
    requires cfg.groupID != ""
    ensures Sound(cfg, Run(cfg, labels))
  {
    hide Inv, Step, Sound, Run;
    if labels == [] {
      RunStart(cfg);
      StartSound(cfg);
    } else {
      RunStep(cfg, labels);
      RunInv(cfg, labels[..|labels| - 1]);
      RunSound(cfg, labels[..|labels| - 1]);
      StepSound(cfg, Run(cfg, labels[..|labels| - 1]), labels[|labels| - 1]);
    }
  }

  lemma StartSound(cfg: Config)
    ensures Sound(cfg, StartWorld(cfg))
  {
  }

  /** No action raises what has been called and can still be called. */
  lemma {:induction false} StepNeverRaises(cfg: Config, n: Count, b: Budget, w: World, l: Label, parts: seq<TP>)
    requires Inv(cfg, w) && cfg.groupID != "" && Sound(cfg, w) && Fits(cfg, w.sh.sub.topics, b)
    requires NoNewMessages(l) && NoDuplicates(parts) && forall tp :: tp in w.workers ==> tp in parts
    ensures WellFormed(w.sh.broker)
    ensures var w' := Step(cfg, w, l);
      Sound(cfg, w') && w'.sh.sub.topics == w.sh.sub.topics && Score(n, b, w', parts) <= Score(n, b, w, parts)
  {
    hide Inv, Step, Sound, Score, Fits, BusyStep, AfterEffect, WorkStep, PollStep, EnqueueStep, SliceOf, PartScore,
      WellFormed;
    InvWellFormed(cfg, w);
    StepIs(cfg, w, l);
    var none := TP("", 0);
    if IsFlag(l) || IsOutside(l) {
      EnvironmentSame(cfg, w, l);
      SameWorkTransfers(cfg, n, b, w, Step(cfg, w, l));
      SumTransfers(n, b, w, Step(cfg, w, l), parts, none, none, 0);
    } else {
      match l {
        case Poll =>
          PollTransfers(cfg, n, b, w);
          SumTransfers(n, b, w, PollStep(w), parts, none, none, 0);
        case Enqueue(o) =>
          EnqueueTransfers(cfg, n, b, w, o);
          SumTransfers(n, b, w, EnqueueStep(cfg, w, o), parts, none, none, 0);
        case Work(tp, c) => WorkNeverRaises(cfg, n, b, w, tp, c, parts);
      }
    }
  }

  lemma WorkNeverRaises(cfg: Config, n: Count, b: Budget, w: World, tp: TP, c: Choice, parts: seq<TP>)
    requires Inv(cfg, w) && cfg.groupID != "" && Sound(cfg, w) && Fits(cfg, w.sh.sub.topics, b)
    requires NoDuplicates(parts) && forall q :: q in w.workers ==> q in parts
    ensures WellFormed(w.sh.broker)
    ensures var w' := WorkStep(cfg, w, tp, c);
      Sound(cfg, w') && w'.sh.sub.topics == w.sh.sub.topics && Score(n, b, w', parts) <= Score(n, b, w, parts)
  {
    hide Inv, Score, Fits, BusyStep, AfterEffect, WorkStep, SliceOf, PartScore, WellFormed;
    InvWellFormed(cfg, w);
    if w.live && tp in w.workers && Busy(w.workers[tp].pc) {
      var wk := w.workers[tp];
      var e := BusyStep(cfg, wk.perKey, w.sh, wk.pc, c);
      BusySound(cfg, w, tp, c);
      BusyTransfers(cfg, n, b, w, tp, c);
      SumTransfers(n, b, w, AfterEffect(w, tp, wk, e), parts, tp, MovedTo(tp, e), Moved(b, w.sh.sub.topics, wk.pc, e));
    } else {
      TakeTransfers(cfg, n, b, w, tp, c);
      SumTransfers(n, b, w, WorkStep(cfg, w, tp, c), parts, tp, tp, 0);
    }
  }

  // ---- the bound ----

  /** A worker, once there, stays until the process ends. */
  lemma StepKeepsWorkers(cfg: Config, w: World, l: Label)
    requires WellFormed(w.sh.broker) && NoNewMessages(l)
    ensures w.workers.Keys <= Step(cfg, w, l).workers.Keys
  {
    hide WellFormed, Step, FlagStep, OutsideEffect, WorkStep, EnqueueStep, PollStep;
    StepIs(cfg, w, l);
    if l.Work? {
      WorkKeepsWorkers(cfg, w, l.tp, l.choice);
    } else if l.Enqueue? {
      EnqueueKeepsWorkers(cfg, w, l.ordering);
    } else {
      OthersKeepWorkers(w, l);
    }
  }

  lemma WorkKeepsWorkers(cfg: Config, w: World, tp: TP, c: Choice)
    requires WellFormed(w.sh.broker)
    ensures w.workers.Keys <= WorkStep(cfg, w, tp, c).workers.Keys
  {
    hide WellFormed, BusyStep, ApplyToHist, ApplyToCalls;
  }

  lemma EnqueueKeepsWorkers(cfg: Config, w: World, o: Ordering)
    ensures w.workers.Keys <= EnqueueStep(cfg, w, o).workers.Keys
  {
    hide MessageFromRecord, OrderingOk;
  }

  lemma OthersKeepWorkers(w: World, l: Label)
    ensures PollStep(w).workers == w.workers && (IsFlag(l) ==> FlagStep(w, l).workers == w.workers)
  {
    hide PollTarget;
  }

  /** From any world of any run, as long as nobody else publishes and the process goes on: what
      has been done, and the fuel left, never exceeds what it was at the start. */
  lemma {:induction false} ScoreNeverRises(cfg: Config, n: Count, b: Budget, labels: seq<Label>, more: seq<Label>,
                                           parts: seq<TP>)
    requires cfg.groupID != "" && Fits(cfg, Run(cfg, labels).sh.sub.topics, b)
    requires (forall l :: l in more ==> NoNewMessages(l))
    requires NoDuplicates(parts) && forall tp :: tp in Run(cfg, labels + more).workers ==> tp in parts
    ensures Score(n, b, Run(cfg, labels + more), parts) <= Score(n, b, Run(cfg, labels), parts)
    ensures Run(cfg, labels + more).sh.sub.topics == Run(cfg, labels).sh.sub.topics
    decreases |more|
  {
    hide Inv, Step, Sound, Score, Fits, WellFormed, Run;
    if more == [] {
      assert labels + more == labels;
    } else {
      var init, l := more[..|more| - 1], more[|more| - 1];
      assert (labels + more)[..|labels + more| - 1] == labels + init;
      RunStep(cfg, labels + more);
      var w := Run(cfg, labels + init);
      RunInv(cfg, labels + init);
      RunSound(cfg, labels + init);
      assert l in more;
      StepKeepsWorkers(cfg, w, l);
      assert Run(cfg, labels + more) == Step(cfg, w, l);
      ScoreNeverRises(cfg, n, b, labels, init, parts);
      StepNeverRaises(cfg, n, b, w, l, parts);
    }
  }

  /** All handler calls of the current subscription on the listed partitions. */
  function TotalCalls(w: World, parts: seq<TP>): nat {
    if parts == [] then 0
    else TotalCalls(w, parts[..|parts| - 1]) + |CallsOf(w, parts[|parts| - 1])|
  }

  lemma {:induction false} ScoreCoversCalls(b: Budget, w: World, parts: seq<TP>)
    ensures TotalCalls(w, parts) <= Score(HandlerCalls, b, w, parts)
  {
    if parts != [] { ScoreCoversCalls(b, w, parts[..|parts| - 1]); }
  }

  /** The records of a subscribed partition that now lie at or past the group's offset of `start`. */
  function Ahead(start: World, w: World, tp: TP): int {
    if tp.topic in start.sh.sub.topics then
      |Log(w.sh.broker, tp)| - GroupOffset(start.sh.broker, start.sh.sub.groupID, tp)
    else 0
  }

  function TotalAhead(start: World, w: World, parts: seq<TP>): int {
    if parts == [] then 0
    else TotalAhead(start, w, parts[..|parts| - 1]) + Ahead(start, w, parts[|parts| - 1])
  }

  lemma {:induction false} PendingCounts(b: Budget, log: seq<MemRec>, from: int)
    requires from >= 0
    ensures Pending(b, log, from) >= |log| - from
  {
    hide Fuel;
    if log != [] && |log| > from {
      PendingCounts(b, log[..|log| - 1], from);
      FuelPositive(b, MessageFromRecord(log[|log| - 1].rec));
    }
  }

  /** Every record of a subscribed partition has been taken or is still pending. */
  lemma PartCoversAhead(cfg: Config, b: Budget, start: World, w: World, tp: TP)
    requires Inv(cfg, w) && Sound(cfg, w) && w.sh.sub.topics == start.sh.sub.topics
    requires start.sh.sub.groupID == cfg.groupID
    requires Committed(cfg, start, tp) <= Committed(cfg, w, tp)
    ensures PartScore(RecordsTaken, b, w.sh.sub.topics, SliceOf(w, tp), tp) >=
      Ahead(start, w, tp) + Committed(cfg, start, tp)
  {
    InvPipeline(cfg, w, tp);
    hide OriginSound, OriginComplete, OriginInjective, Pending, Residual, PartInv, PcOk;
    PendingCounts(b, Log(w.sh.broker, tp), Untaken(SliceOf(w, tp)));
  }

  function TotalCommitted(cfg: Config, w: World, parts: seq<TP>): int {
    if parts == [] then 0
    else TotalCommitted(cfg, w, parts[..|parts| - 1]) + Committed(cfg, w, parts[|parts| - 1])
  }

  lemma {:induction false} ScoreCoversAhead(cfg: Config, b: Budget, start: World, w: World, parts: seq<TP>)
    requires Inv(cfg, w) && Sound(cfg, w) && w.sh.sub.topics == start.sh.sub.topics
    requires start.sh.sub.groupID == cfg.groupID
    requires forall tp :: Committed(cfg, start, tp) <= Committed(cfg, w, tp)
    ensures Score(RecordsTaken, b, w, parts) >= TotalAhead(start, w, parts) + TotalCommitted(cfg, start, parts)
  {
    hide Inv, Sound, PartScore, Ahead, Committed, SliceOf;
    if parts != [] {
      ScoreCoversAhead(cfg, b, start, w, parts[..|parts| - 1]);
      PartCoversAhead(cfg, b, start, w, parts[|parts| - 1]);
    }
  }

  // ---- fresh messages ----

  /** A consumer just started; what the group has not committed yet has not failed yet. */
  ghost predicate Fresh(w: World) {
    && w.workers == map[] && w.sh.sub.fetch == map[] && w.calls == map[]
    && forall tp: TP, o ::
         && tp.topic in w.sh.sub.topics
         && 0 <= GroupOffset(w.sh.broker, w.sh.sub.groupID, tp) <= o < |Log(w.sh.broker, tp)| ==>
           MessageAt(Log(w.sh.broker, tp), o).RetryAttempt() == 0
  }

  /** What one fresh message can cause at most. */
  function Worth(b: Budget): int { (b.max + 1) * (b.deepest + 1) }

  lemma FreshFuel(cfg: Config, topics: seq<string>, b: Budget, m: Message)
    requires Fits(cfg, topics, b) && m.RetryAttempt() == 0
    ensures Fuel(b, m) <= Worth(b)
  {
    LevelBound(cfg, topics, b, m.topic);
    hide Level, Fits;
    Distributes(b.max, b.deepest + 1);
  }

  lemma {:induction false} PendingFresh(cfg: Config, topics: seq<string>, b: Budget, log: seq<MemRec>, from: nat)
    requires Fits(cfg, topics, b) && from <= |log|
    requires forall o :: from <= o < |log| ==> MessageAt(log, o).RetryAttempt() == 0
    ensures Pending(b, log, from) <= (|log| - from) * Worth(b)
  {
    hide Fuel, Fits, Worth;
    if |log| > from {
      var init := log[..|log| - 1];
      forall o | from <= o < |init|
        ensures MessageAt(init, o).RetryAttempt() == 0
      {
        assert MessageAt(init, o) == MessageAt(log, o);
      }
      PendingFresh(cfg, topics, b, init, from);
      assert MessageAt(log, |log| - 1).RetryAttempt() == 0;
      FreshFuel(cfg, topics, b, MessageAt(log, |log| - 1));
      Distributes(|log| - from - 1, Worth(b));
    }
  }

  lemma Distributes(x: int, y: int)
    ensures x * y + y == (x + 1) * y
  {
  }

  lemma FreshPart(cfg: Config, n: Count, b: Budget, w: World, tp: TP)
    requires Inv(cfg, w) && Fresh(w) && Fits(cfg, w.sh.sub.topics, b)
    ensures PartScore(n, b, w.sh.sub.topics, SliceOf(w, tp), tp) <=
      Ahead(w, w, tp) * Worth(b) + if n.RecordsTaken? then Committed(cfg, w, tp) else 0
  {
    assert PartInv(cfg, SliceOf(w, tp));
    BelowCommitted(cfg, SliceOf(w, tp));
    hide PartInv, OriginSound, OriginComplete, OriginInjective, Worth, Fits;
    if tp.topic in w.sh.sub.topics {
      PendingFresh(cfg, w.sh.sub.topics, b, Log(w.sh.broker, tp), Committed(cfg, w, tp));
    }
  }

  lemma {:induction false} FreshScore(cfg: Config, n: Count, b: Budget, w: World, parts: seq<TP>)
    requires Inv(cfg, w) && Fresh(w) && Fits(cfg, w.sh.sub.topics, b)
    ensures Score(n, b, w, parts) <=
      TotalAhead(w, w, parts) * Worth(b) + if n.RecordsTaken? then TotalCommitted(cfg, w, parts) else 0
  {
    hide Inv, Fresh, Fits, PartScore, Ahead, Committed, Worth, SliceOf;
    if parts != [] {
      var tp, k := parts[|parts| - 1], Worth(b);
      FreshScore(cfg, n, b, w, parts[..|parts| - 1]);
      FreshPart(cfg, n, b, w, tp);
      assert (TotalAhead(w, w, parts[..|parts| - 1]) + Ahead(w, w, tp)) * k ==
        TotalAhead(w, w, parts[..|parts| - 1]) * k + Ahead(w, w, tp) * k;
    }
  }

  /** N fresh messages cause at most N * (max + 1) * (deepest + 1) records, themselves
      included, and as many handler calls: in every run without new messages, with failures of
      handlers and of the store, revocations, cancellation, closing, fencing, in every mode and
      ordering. `deepest` is 0 when no dead-letter topic is consumed. */
  lemma {:induction false} FreshMessagesBound(cfg: Config, b: Budget, labels: seq<Label>, more: seq<Label>,
                                              parts: seq<TP>)
    requires cfg.groupID != "" && Fits(cfg, Run(cfg, labels).sh.sub.topics, b)
    requires Fresh(Run(cfg, labels)) && (forall l :: l in more ==> NoNewMessages(l))
    requires NoDuplicates(parts) && forall tp :: tp in Run(cfg, labels + more).workers ==> tp in parts
    ensures var w, w' := Run(cfg, labels), Run(cfg, labels + more);
      && TotalAhead(w, w', parts) <= TotalAhead(w, w, parts) * ((b.max + 1) * (b.deepest + 1))
      && TotalCalls(w', parts) <= TotalAhead(w, w, parts) * ((b.max + 1) * (b.deepest + 1))
  {
    hide Inv, Fresh, Score, TotalCalls, Fits, Run, TotalAhead, TotalCommitted, Sound, Committed, LogsGrow;
    var w, w' := Run(cfg, labels), Run(cfg, labels + more);
    RunInv(cfg, labels);
    RunInv(cfg, labels + more);
    RunSound(cfg, labels + more);
    OffsetsNeverFall(cfg, labels, more);
    InvGroup(cfg, w);
    FreshScore(cfg, HandlerCalls, b, w, parts);
    FreshScore(cfg, RecordsTaken, b, w, parts);
    ScoreNeverRises(cfg, HandlerCalls, b, labels, more, parts);
    ScoreNeverRises(cfg, RecordsTaken, b, labels, more, parts);
    ScoreCoversCalls(b, w', parts);
    ScoreCoversAhead(cfg, b, w, w', parts);
  }

  // ---- the default names ----

  function Longer(cfg: Config, t: string): set<string> { set h | h in cfg.handlers && |h| > |t| }

  /** A dead-letter topic's name is longer than the topic's. */
  function DefaultBudget(cfg: Config, max: nat): Budget {
    Budget(max, if |cfg.handlers| == 0 then 0 else |cfg.handlers| - 1, map t | t in cfg.handlers :: |Longer(cfg, t)|)
  }

  lemma LongerShrinks(cfg: Config, t: string, d: string)
    requires d in cfg.handlers && |d| > |t|
    ensures |Longer(cfg, d)| < |Longer(cfg, t)|
  {
    assert d in Longer(cfg, t) && d !in Longer(cfg, d);
    SubsetSmaller(Longer(cfg, d), Longer(cfg, t) - {d});
  }

  lemma SubsetSmaller<T>(x: set<T>, y: set<T>)
    requires x <= y
    ensures |x| <= |y|
  {
    assert y == x + (y - x);
  }

  /** Without consumed dead-letter topics one level is enough. */
  lemma FlatBudgetFits(cfg: Config, topics: seq<string>, max: nat)
    requires max <= MAX_INT64 && forall t :: t in cfg.handlers ==> cfg.MaxRetriesFor(cfg.handlers[t]) <= max
    ensures (cfg.dlqEnabled ==> forall t :: t in cfg.handlers ==> cfg.namer.dlq(t) !in topics) <==>
      Fits(cfg, topics, Budget(max, 0, map t | t in cfg.handlers :: 0))
  {
  }

  /** Under default naming and the planned subscriptions there is always a budget, with one
      level at most for every handler, so the bound is unconditional. */
  lemma {:induction false} DefaultBudgetFits(cfg: Config, topics: seq<string>, max: nat)
    requires DefaultNamed(cfg) && max <= MAX_INT64
    requires forall t :: t in cfg.handlers ==> cfg.MaxRetriesFor(cfg.handlers[t]) <= max
    requires forall x :: x in topics ==> TopicPlan.Subscribed(cfg, cfg.handlers.Keys, x)
    ensures Fits(cfg, topics, DefaultBudget(cfg, max))
  {
    var b := DefaultBudget(cfg, max);
    forall t | t in cfg.handlers
      ensures b.depth[t] <= b.deepest
      ensures var d := cfg.namer.dlq(t); d in topics ==> d in cfg.handlers && b.depth[d] < b.depth[t]
    {
      SubsetSmaller(Longer(cfg, t), cfg.handlers.Keys - {t});
      assert |cfg.handlers| == |cfg.handlers.Keys|;
      var d := cfg.namer.dlq(t);
      if d in topics {
        DlqHandled(cfg, t);
        LongerShrinks(cfg, t, d);
      }
    }
  }

  /** A planned dead-letter topic is a handled topic: the default retry names never collide with it. */
  lemma DlqHandled(cfg: Config, t: string)
    requires DefaultNamed(cfg) && TopicPlan.Subscribed(cfg, cfg.handlers.Keys, cfg.namer.dlq(t))
    ensures cfg.namer.dlq(t) in cfg.handlers && |cfg.namer.dlq(t)| > |t|
  {
    var d := cfg.namer.dlq(t);
    var base :| base in cfg.handlers && (d == base || TopicPlan.IsRetryDestination(cfg, base, d));
    if d != base {
      var n :| 1 <= n <= cfg.MaxRetriesFor(cfg.handlers[base]) && cfg.namer.retry(base, n) == d;
      RetryIsNotDlq(base, n, t);
    }
  }
}
