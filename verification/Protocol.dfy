/** The consumer protocol of consumer.go over the in-memory broker, as a state machine.

    One label is one atomic action: a locked region of the broker or the subscription, a
    context check, the start or the end of a handler call, a dispatcher move, or a move of
    the environment (other producers, revocation, cancellation, closing, fencing, the end
    of the process and a restart). Each partition worker carries a program counter `PC`;
    its stages follow process, failAndRoute, publishOutcome, publishTransactional and
    commit statement by statement. A label that is not enabled leaves the world as it is,
    so every label sequence is a run. */
module Protocol {
  import opened Wrappers
  import opened Envelope
  import opened Config
  import opened Routing
  import opened Broker
  import Claims

  datatype Pos = Pos(tp: TP, offset: int)

  // ---- program counters ----

  datatype CommitStage = FirstCheck | CommitContextCheck | SecondCheck | ApplyOffset

  datatype RouteStage =
    | OutcomeCheck                                  // publishOutcome's Assigned
    | PublishContext | PublishApply                 // at-least-once: Memory.Publish
    | TxnCheck | TxnLock                            // Assigned, then txnMu
    | BeginContext | BeginApply                     // BeginTxn
    | AfterBeginCheck | TxnPublish | TxnOffsets | BeforeCommitCheck
    | CommitContext | CommitApply                   // memTxn.Commit
    | Aborting

  datatype PC =
    | Idle
    | Exited
    | Starting(job: Message)
    | Waiting(job: Message, logical: string)
    | Claiming(job: Message, logical: string)
    | Asking(job: Message, logical: string, call: Claims.PC)   // inside the store's TryStart
    | Handling(job: Message, cur: Message, logical: string, attempt: int, lease: Option<Time>)
    | Sleeping(job: Message, cur: Message, logical: string, attempt: int, err: string, lease: Option<Time>, until: Time)
    | Completing(job: Message, deadline: Time)                 // the handler succeeded, before the store's Complete
    | Failing(job: Message, logical: string, attempt: int, err: string, deadline: Time)
    | RoutingOut(job: Message, out: Message, stage: RouteStage, txn: TxnState)
    | Committing(job: Message, commitStage: CommitStage, drain: bool)

  /** One partition worker: its channel, its program counter, and whether it runs the
      per-key loop, which commits once more after every process call. */
  datatype Worker = Worker(queue: seq<Message>, pc: PC, perKey: bool)

  const CHANNEL_CAPACITY := 32

  // ---- what the environment chooses in a worker's action ----

  /** `elapsed` is the time that has passed when the action happens, `failure` the handler's
      result, `storeError` an error of the store's call, `found` lookup's answer, `headers`
      the order a header map was ranged over, `stop` a select that takes ctx.Done. */
  datatype Choice = Choice(elapsed: nat, failure: Option<string>, storeError: Option<string>,
                           found: Option<string>, headers: seq<Header>, stop: bool)

  // ---- state ----

  /** `clock` is the one clock everybody reads; `items` the idempotency store's records. */
  datatype Shared = Shared(broker: BrokerState, sub: SubState, cancelled: bool, txnHeld: bool, clock: Time,
                           items: Claims.Items)

  /** What has been decided about the offsets of one partition, ever. */
  datatype PartHist = PartHist(handled: set<int>, noHandler: set<int>, dlqOff: set<int>,
                               skippedCompleted: set<int>, skippedInProgress: set<int>, routed: set<int>,
                               fenceRefused: set<int>)
  {
    function Decided(): set<int> {
      handled + noHandler + dlqOff + skippedCompleted + skippedInProgress + routed
    }

    /** Decided, or given up because the fenced broker refused its route. */
    function Settled(): set<int> { Decided() + fenceRefused }
  }

  /** A handler call, and when it began. */
  datatype Call = Call(offset: int, attempt: int, at: Time)

  /** What happened to the offsets of one partition in the current subscription: routes the
      fenced broker refused, and messages left to another claim. */
  datatype Life = Life(refused: set<int>, skipped: set<int>)

  /** `hist`, `origin` (where each routed record came from), `calls` and `life` (the handler
      calls and the unsettled offsets of the current subscription), `successes` (every
      handler success) and `storeLog` (what the store was made to record) are history;
      nothing reads them. */
  datatype World = World(
    sh: Shared, live: bool, polling: bool, polled: Option<Record>, workers: map<TP, Worker>,
    hist: map<TP, PartHist>, origin: map<Pos, Pos>, calls: map<TP, seq<Call>>, life: map<TP, Life>,
    successes: seq<Pos>, storeLog: seq<Claims.Event>)

  datatype Label =
    | Poll
    | Enqueue(ordering: Ordering)
    | Work(tp: TP, choice: Choice)
    | Shutdown
    | CloseSub
    | Stop
    | Restart(topics: seq<string>)
    | OutsidePublish(rec: Record)
    | OutsideTopic(name: string, partitions: int)
    | OutsideCommit(group: string, tp: TP, next: int)
    | Revoke(tp: TP)
    | Cancel
    | CloseBroker
    | SetFenced(fenced: bool)
    | Evict(key: string)  // the store drops a record by itself

  const NO_HIST := PartHist({}, {}, {}, {}, {}, {}, {})
  const NO_LIFE := Life({}, {})
  const NO_WORKER := Worker([], Idle, false)
  const NO_TXN := TxnState(0, [], [], "", false)

  function HistOf(w: World, tp: TP): PartHist { if tp in w.hist then w.hist[tp] else NO_HIST }
  function WorkerOf(w: World, tp: TP): Worker { if tp in w.workers then w.workers[tp] else NO_WORKER }
  function CallsOf(w: World, tp: TP): seq<Call> { if tp in w.calls then w.calls[tp] else [] }

  function LifeOf(w: World, tp: TP): Life { if tp in w.life then w.life[tp] else NO_LIFE }

  function TPOf(m: Message): TP { TP(m.topic, m.partition) }

  // ---- one action of a worker ----

  datatype Event =
    | Silent
    | Called(attempt: int)
    | DecidedHandled | DecidedNoHandler | DecidedDlqOff | DecidedSkipCompleted | DecidedSkipInProgress
    | Routed(dst: Pos)
    | FenceRefused

  /** `told` is what the action made the idempotency store record. */
  datatype Effect = Effect(sh: Shared, pc: PC, event: Event, told: seq<Claims.Event> := [])

  /** Where process returns to: the plain loop takes the next job, the per-key loop's drain
      commits the message again. */
  function Finish(job: Message, perKey: bool): PC {
    if perKey then Committing(job, FirstCheck, true) else Idle
  }

  /** Where commit returns to. */
  function AfterCommit(job: Message, drain: bool, perKey: bool): PC {
    if drain then Idle else Finish(job, perKey)
  }

  function ToCommit(job: Message): PC { Committing(job, FirstCheck, false) }

  function MaxFor(cfg: Config, logical: string): int {
    if logical in cfg.handlers then cfg.MaxRetriesFor(cfg.handlers[logical]) else cfg.maxRetries
  }

  function DelayFor(cfg: Config, logical: string, attempt: int): int {
    BackoffFor(if logical in cfg.handlers then cfg.BackoffsFor(cfg.handlers[logical]) else cfg.backoffs, attempt)
  }

  predicate RetriesInPlace(cfg: Config, logical: string) {
    logical in cfg.handlers && cfg.OrderingFor(cfg.handlers[logical]) == OrderingPerPartition
  }

  /** routeTerminal up to its first call. */
  function RouteTerminal(cfg: Config, sh: Shared, job: Message, logical: string, attempt: int, err: string, now: Time)
    : Effect {
    if !cfg.dlqEnabled then Effect(sh, ToCommit(job), DecidedDlqOff)
    else Effect(sh,
                RoutingOut(job, RetryMessage(job, cfg.namer.dlq(logical), attempt, err, 0, now), OutcomeCheck, NO_TXN),
                Silent)
  }

  /** failAndRoute up to its first call. */
  function FailAndRoute(cfg: Config, sh: Shared, job: Message, logical: string, err: string, now: Time): Effect {
    var attempt := job.RetryAttempt();
    if attempt >= MaxFor(cfg, logical) then RouteTerminal(cfg, sh, job, logical, attempt, err, now)
    else
      var next := attempt + 1;
      var out := RetryMessage(job, cfg.namer.retry(logical, next), next, err, DelayFor(cfg, logical, next), now);
      Effect(sh, RoutingOut(job, out, OutcomeCheck, NO_TXN), Silent)
  }

  function StartHandler(sh: Shared, job: Message, logical: string, lease: Option<Time>): Effect {
    Effect(sh, Handling(job, job, logical, job.RetryAttempt(), lease), Called(job.RetryAttempt()))
  }

  predicate InHandlerPhase(pc: PC) {
    || pc.Starting? || pc.Waiting? || pc.Claiming? || pc.Asking? || pc.Handling? || pc.Sleeping?
    || pc.Completing? || pc.Failing?
  }

  /** One call of the store's TryStart. */
  function AskStep(cfg: Config, perKey: bool, sh: Shared, pc: PC, c: Choice): Effect
    requires pc.Asking? && cfg.store.Some?
  {
    var Asking(job, logical, call) := pc;
    if c.storeError.Some? then FailAndRoute(cfg, sh, job, logical, c.storeError.value, sh.clock)
    else
      var r := Claims.TryStartCall(cfg.store.value, cfg.ttl, sh.items, call);
      var sh' := sh.(items := r.items);
      match r.next
      case Some(next) => Effect(sh', pc.(call := next), Silent)
      case None =>
        if r.result == Some(Claims.Proceed) then
          StartHandler(sh', job, logical, Some(call.now + cfg.ttl)).(told := [Claims.Claim(call.key, call.now)])
        else if r.result == Some(Claims.SkipCompleted) then Effect(sh', ToCommit(job), DecidedSkipCompleted)
        else Effect(sh', Finish(job, perKey), DecidedSkipInProgress)
  }

  /** Where a message goes whose handler failed for the last time here. */
  function AfterFailure(cfg: Config, sh: Shared, job: Message, logical: string, attempt: int, err: string): Effect {
    if RetriesInPlace(cfg, logical) then RouteTerminal(cfg, sh, job, logical, attempt, err, sh.clock)
    else FailAndRoute(cfg, sh, job, logical, err, sh.clock)
  }

  /** The end of a handler call. */
  function HandlerEnd(cfg: Config, sh: Shared, pc: PC, c: Choice): Effect
    requires pc.Handling?
  {
    var Handling(job, cur, logical, attempt, lease) := pc;
    match c.failure
    case None => Effect(sh, if lease.Some? then Completing(job, lease.value) else ToCommit(job), DecidedHandled)
    case Some(err) =>
      if RetriesInPlace(cfg, logical) && attempt < MaxFor(cfg, logical) then
        Effect(sh, Sleeping(job, cur, logical, attempt + 1, err, lease, sh.clock + DelayFor(cfg, logical, attempt + 1)),
               Silent)
      else if lease.Some? then Effect(sh, Failing(job, logical, attempt, err, lease.value), Silent)
      else AfterFailure(cfg, sh, job, logical, attempt, err)
  }

  /** The store's Complete or Fail; an error of either is ignored. */
  function VerdictStep(cfg: Config, sh: Shared, pc: PC, c: Choice): Effect
    requires (pc.Completing? || pc.Failing?) && cfg.store.Some?
  {
    var a, id := cfg.store.value, pc.job.id;
    if pc.Completing? then
      if c.storeError.Some? then Effect(sh, ToCommit(pc.job), Silent)
      else
        Effect(sh.(items := sh.items[id := Claims.DoneRec(a, cfg.ttl, sh.clock)]), ToCommit(pc.job), Silent,
               [Claims.Completion(id, sh.clock)])
    else
      if c.storeError.Some? then AfterFailure(cfg, sh, pc.job, pc.logical, pc.attempt, pc.err)
      else
        AfterFailure(cfg, sh.(items := sh.items[id := Claims.FailedRec(a, cfg.ttl, sh.clock)]),
                     pc.job, pc.logical, pc.attempt, pc.err).(told := [Claims.Failure(id)])
  }

  /** process from lookup to the end of the handler call and the store's verdict. */
  ghost function HandlerStep(cfg: Config, perKey: bool, sh: Shared, pc: PC, c: Choice): Effect
    requires InHandlerPhase(pc)
  {
    match pc
    case Starting(job) =>
      if !LookupOk(cfg, job, c.found) then Effect(sh, pc, Silent)
      else if c.found.None? then Effect(sh, ToCommit(job), DecidedNoHandler)
      else Effect(sh, Waiting(job, c.found.value), Silent)
    case Waiting(job, logical) =>
      var due := job.NotBefore();
      if due.None? then Effect(sh, Claiming(job, logical), Silent)
      else if c.stop && sh.cancelled then Effect(sh, Finish(job, perKey), Silent)
      else if due.value <= sh.clock then Effect(sh, Claiming(job, logical), Silent)
      else Effect(sh, pc, Silent)
    case Claiming(job, logical) =>
      if cfg.store.None? || job.id == "" then StartHandler(sh, job, logical, None)
      else Effect(sh, Asking(job, logical, Claims.Sampled(job.id, sh.clock)), Silent)
    case Asking(_, _, _) => if cfg.store.Some? then AskStep(cfg, perKey, sh, pc, c) else Effect(sh, pc, Silent)
    case Handling(_, _, _, _, _) => HandlerEnd(cfg, sh, pc, c)
    case Sleeping(job, cur, logical, attempt, err, lease, until) =>
      if c.stop && sh.cancelled then Effect(sh, Finish(job, perKey), Silent)
      else if until > sh.clock then Effect(sh, pc, Silent)
      else
        var cur' := cur.(headers := AttachRetry(cur, sh.clock, attempt, Some(err), 0));
        Effect(sh, Handling(job, cur', logical, attempt, lease), Called(attempt))
    case _ => if cfg.store.Some? then VerdictStep(cfg, sh, pc, c) else Effect(sh, pc, Silent)
  }

  function AssignedTo(sh: Shared, m: Message): bool { Assigned(sh.sub, TPOf(m)) }

  predicate Unavailable(b: BrokerState) { b.closed || b.fenced }

  /** publishOutcome and publishTransactional. */
  ghost function RouteStep(cfg: Config, perKey: bool, sh: Shared, pc: PC, c: Choice): Effect
    requires pc.RoutingOut? && WellFormed(sh.broker)
  {
    var RoutingOut(job, out, stage, txn) := pc;
    var giveUp := Effect(sh, Finish(job, perKey), Silent);
    var unlock := Effect(sh.(txnHeld := false), Finish(job, perKey), Silent);
    var abort := Effect(sh, pc.(stage := Aborting), Silent);
    var refusal := if sh.broker.closed then Silent else FenceRefused;
    match stage
    case OutcomeCheck =>
      if !AssignedTo(sh, job) then giveUp
      else Effect(sh, pc.(stage := if cfg.guarantee.Transactional? then TxnCheck else PublishContext), Silent)
    case PublishContext =>
      if sh.cancelled then giveUp else Effect(sh, pc.(stage := PublishApply), Silent)
    case PublishApply =>
      if Unavailable(sh.broker) then giveUp.(event := refusal)
      else if !Lists(c.headers, out.headers) then Effect(sh, pc, Silent)
      else
        var rec := RecordWith(out, c.headers);
        var dst := Destination(sh.broker, rec);
        Effect(sh.(broker := Append(sh.broker, rec, 0)), ToCommit(job), Routed(Pos(dst, |Log(sh.broker, dst)|)))
    case TxnCheck =>
      if !AssignedTo(sh, job) then giveUp else Effect(sh, pc.(stage := TxnLock), Silent)
    case TxnLock =>
      if sh.txnHeld then Effect(sh, pc, Silent)
      else Effect(sh.(txnHeld := true), pc.(stage := BeginContext), Silent)
    case BeginContext =>
      if sh.cancelled then unlock else Effect(sh, pc.(stage := BeginApply), Silent)
    case BeginApply =>
      if Unavailable(sh.broker) then unlock.(event := refusal)
      else
        var id := sh.broker.txnSeq + 1;
        Effect(sh.(broker := sh.broker.(txnSeq := id)),
               pc.(stage := AfterBeginCheck, txn := TxnState(id, [], [], "", false)), Silent)
    case AfterBeginCheck =>
      if !AssignedTo(sh, job) then abort else Effect(sh, pc.(stage := TxnPublish), Silent)
    case TxnPublish =>
      if sh.cancelled then abort
      else if !Lists(c.headers, out.headers) then Effect(sh, pc, Silent)
      else Effect(sh, pc.(stage := TxnOffsets, txn := txn.(publishes := txn.publishes + [RecordWith(out, c.headers)])),
                  Silent)
    case TxnOffsets =>
      if sh.cancelled then abort
      else
        var o := Offset(job.topic, job.partition, job.offset);
        Effect(sh, pc.(stage := BeforeCommitCheck, txn := txn.(offsets := txn.offsets + [o], groupID := cfg.groupID)),
               Silent)
    case BeforeCommitCheck =>
      if !AssignedTo(sh, job) then abort else Effect(sh, pc.(stage := CommitContext), Silent)
    case CommitContext =>
      if sh.cancelled then abort else Effect(sh, pc.(stage := CommitApply), Silent)
    case CommitApply =>
      if Unavailable(sh.broker) then abort.(event := refusal)
      else
        var dst := if |txn.publishes| == 1 then Destination(sh.broker, txn.publishes[0]) else TPOf(out);
        Effect(sh.(broker := ApplyTxn(sh.broker, txn), txnHeld := false), Finish(job, perKey),
               Routed(Pos(dst, |Log(sh.broker, dst)|)))
    case Aborting => unlock
  }

  /** commit: Assigned, then memSub.Commit's context check, Assigned and locked region. */
  ghost function CommitStep(cfg: Config, perKey: bool, sh: Shared, pc: PC): Effect
    requires pc.Committing?
  {
    var Committing(job, stage, drain) := pc;
    var return_ := Effect(sh, AfterCommit(job, drain, perKey), Silent);
    match stage
    case FirstCheck => if !AssignedTo(sh, job) then return_
                       else Effect(sh, pc.(commitStage := CommitContextCheck), Silent)
    case CommitContextCheck => if sh.cancelled then return_ else Effect(sh, pc.(commitStage := SecondCheck), Silent)
    case SecondCheck => if !AssignedTo(sh, job) then return_ else Effect(sh, pc.(commitStage := ApplyOffset), Silent)
    case ApplyOffset =>
      if sh.broker.closed then return_
      else return_.(sh := sh.(broker := Raise(sh.broker, sh.sub.groupID, TPOf(job), job.offset + 1)))
  }

  /** Time passes. */
  function Later(sh: Shared, c: Choice): Shared { sh.(clock := sh.clock + c.elapsed) }

  /** A busy worker's next action. */
  ghost function BusyStep(cfg: Config, perKey: bool, sh: Shared, pc: PC, c: Choice): Effect
    requires !pc.Idle? && !pc.Exited? && WellFormed(sh.broker)
  {
    if pc.RoutingOut? then RouteStep(cfg, perKey, Later(sh, c), pc, c)
    else if pc.Committing? then CommitStep(cfg, perKey, Later(sh, c), pc)
    else HandlerStep(cfg, perKey, Later(sh, c), pc, c)
  }

  function ApplyToHist(h: PartHist, e: Event, offset: int): PartHist {
    match e
    case DecidedHandled => h.(handled := h.handled + {offset})
    case DecidedNoHandler => h.(noHandler := h.noHandler + {offset})
    case DecidedDlqOff => h.(dlqOff := h.dlqOff + {offset})
    case DecidedSkipCompleted => h.(skippedCompleted := h.skippedCompleted + {offset})
    case DecidedSkipInProgress => h.(skippedInProgress := h.skippedInProgress + {offset})
    case Routed(_) => h.(routed := h.routed + {offset})
    case FenceRefused => h.(fenceRefused := h.fenceRefused + {offset})
    case _ => h
  }

  function ApplyToLife(life: Life, e: Event, offset: int): Life {
    match e
    case DecidedSkipInProgress => life.(skipped := life.skipped + {offset})
    case FenceRefused => life.(refused := life.refused + {offset})
    case _ => life
  }

  function ApplyToCalls(calls: seq<Call>, e: Effect, offset: int): seq<Call> {
    if e.event.Called? then calls + [Call(offset, e.event.attempt, e.sh.clock)] else calls
  }

  /** The world after the busy worker `wk` of `tp` did `e`, with its trace in the history. */
  function AfterEffect(w: World, tp: TP, wk: Worker, e: Effect): World
    requires !wk.pc.Idle? && !wk.pc.Exited?
  {
    var offset := wk.pc.job.offset;
    w.(sh := e.sh,
       workers := w.workers[tp := wk.(pc := e.pc)],
       hist := w.hist[tp := ApplyToHist(HistOf(w, tp), e.event, offset)],
       life := w.life[tp := ApplyToLife(LifeOf(w, tp), e.event, offset)],
       calls := w.calls[tp := ApplyToCalls(CallsOf(w, tp), e, offset)],
       origin := if e.event.Routed? then w.origin[e.event.dst := Pos(tp, offset)] else w.origin,
       successes := if e.event.DecidedHandled? then w.successes + [Pos(tp, offset)] else w.successes,
       storeLog := w.storeLog + e.told)
  }

  /** A worker's action. An idle worker takes the next job of
      its channel, or exits when the context is done or the channel is closed and empty. */
  ghost function WorkStep(cfg: Config, w: World, tp: TP, c: Choice): World
    requires WellFormed(w.sh.broker)
  {
    if !w.live || tp !in w.workers || w.workers[tp].pc.Exited? then w
    else
      var wk := w.workers[tp];
      if wk.pc.Idle? then
        if wk.queue == [] then (if w.polling then w else w.(workers := w.workers[tp := wk.(pc := Exited)]))
        else
          var pc := if w.sh.cancelled then Exited else Starting(wk.queue[0]);
          w.(workers := w.workers[tp := Worker(wk.queue[1..], pc, wk.perKey)])
      else
        AfterEffect(w, tp, wk, BusyStep(cfg, wk.perKey, w.sh, wk.pc, c))
  }

  // ---- the whole system ----

  /** The dispatcher's Poll: the next record of the first ready partition. */
  function PollStep(w: World): World {
    var b, s := w.sh.broker, w.sh.sub;
    if !w.live || !w.polling || w.polled.Some? || b.closed || s.closed then w
    else
      match PollTarget(b, s)
      case None => w
      case Some(tp) =>
        var next := NextFetch(b, s, tp);
        if 0 <= next < |Log(b, tp)| then
          w.(sh := w.sh.(sub := Polled(s, tp, next)), polled := Some(Log(b, tp)[next].rec))
        else w
  }

  /** ensureWorker and the channel send. After Shutdown a polled record stays unsent for good. */
  ghost function EnqueueStep(cfg: Config, w: World, o: Ordering): World {
    if !w.live || !w.polling || w.polled.None? then w
    else
      var m := MessageFromRecord(w.polled.value);
      var tp := TPOf(m);
      if tp in w.workers then
        if |w.workers[tp].queue| >= CHANNEL_CAPACITY then w
        else w.(polled := None, workers := w.workers[tp := w.workers[tp].(queue := w.workers[tp].queue + [m])])
      else if !OrderingOk(cfg, tp.topic, o) then w
      else w.(polled := None, workers := w.workers[tp := Worker([m], Idle, o == OrderingPerKey)])
  }

  predicate IsOutside(l: Label) { l.OutsidePublish? || l.OutsideTopic? || l.OutsideCommit? }

  /** What other clients of the broker do to it. */
  function OutsideEffect(cfg: Config, b: BrokerState, l: Label): BrokerState
    requires WellFormed(b) && IsOutside(l)
  {
    match l
    case OutsidePublish(rec) => if Unavailable(b) then b else Append(b, rec, 0)
    case OutsideTopic(name, n) => if b.closed || name == "" then b else EnsureTopic(b, name, n)
    case OutsideCommit(g, tp, next) => if b.closed || g == cfg.groupID then b else Raise(b, g, tp, next)
  }

  predicate IsFlag(l: Label) {
    l.Shutdown? || l.CloseSub? || l.Revoke? || l.Cancel? || l.CloseBroker? || l.SetFenced? || l.Evict?
  }

  /** Closing, cancelling, revoking, fencing, eviction. */
  function FlagStep(w: World, l: Label): World
    requires IsFlag(l)
  {
    var b := w.sh.broker;
    match l
    case Shutdown => if w.live && (w.sh.cancelled || b.closed) then w.(polling := false, sh := w.sh.(cancelled := true))
                     else w
    case CloseSub => if w.live && !w.polling then w.(sh := w.sh.(sub := w.sh.sub.(closed := true))) else w
    case Revoke(tp) => if w.live then w.(sh := w.sh.(sub := w.sh.sub.(revoked := w.sh.sub.revoked + {tp}))) else w
    case Cancel => if w.live then w.(sh := w.sh.(cancelled := true)) else w
    case CloseBroker => w.(sh := w.sh.(broker := b.(closed := true)))
    case SetFenced(f) => w.(sh := w.sh.(broker := b.(fenced := f)))
    case Evict(key) => w.(sh := w.sh.(items := w.sh.items - {key}),
                          storeLog := w.storeLog + [Claims.Removal(key, w.sh.clock)])
  }

  /** The end of the process, by a crash or otherwise: everything it held is gone. */
  function StopStep(cfg: Config, w: World): World {
    w.(live := false, polling := false, polled := None, workers := map[], calls := map[], life := map[],
       sh := Shared(w.sh.broker, NewSub(cfg.groupID, [], ReadUncommitted), false, false, w.sh.clock, w.sh.items))
  }

  /** A new process, or a new Run: one subscription, no workers. */
  function RestartStep(cfg: Config, w: World, topics: seq<string>): World {
    if w.live || w.sh.broker.closed then w
    else
      var iso := if cfg.guarantee.Transactional? then ReadCommitted else ReadUncommitted;
      w.(live := true, polling := true,
         sh := Shared(WithGroup(w.sh.broker, cfg.groupID), NewSub(cfg.groupID, topics, iso), false, false, w.sh.clock,
                      w.sh.items))
  }

  ghost function Step(cfg: Config, w: World, l: Label): World
    requires WellFormed(w.sh.broker)
  {
    if IsOutside(l) then w.(sh := w.sh.(broker := OutsideEffect(cfg, w.sh.broker, l)))
    else if IsFlag(l) then FlagStep(w, l)
    else
      match l
      case Poll => PollStep(w)
      case Enqueue(o) => EnqueueStep(cfg, w, o)
      case Work(tp, c) => WorkStep(cfg, w, tp, c)
      case Stop => StopStep(cfg, w)
      case Restart(topics) => RestartStep(cfg, w, topics)
  }

  /** Nothing stored, nothing running. */
  function StartWorld(cfg: Config): World {
    World(Shared(EmptyBroker(), NewSub(cfg.groupID, [], ReadUncommitted), false, false, 0, map[]),
          false, false, None, map[], map[], map[], map[], map[], [], [])
  }
}
