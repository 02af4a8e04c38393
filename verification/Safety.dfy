/** What every run of the protocol keeps. The invariant is local to one partition: it
    speaks of the partition's slice of the world, which other workers can only extend. */
module Safety {
  import opened Wrappers
  import opened Envelope
  import opened Config
  import opened Routing
  import opened Broker
  import opened Protocol
  import Claims

  /** Everything the invariant of one partition depends on. */
  datatype Slice = Slice(
    closed: bool, cancelled: bool, detached: bool, committed: int,
    log: seq<MemRec>, fetched: Option<int>, polled: Option<Message>, wk: Worker, hist: PartHist, calls: seq<Call>,
    life: Life)

  function SliceOf(w: World, tp: TP): Slice {
    Slice(w.sh.broker.closed, w.sh.cancelled, !Assigned(w.sh.sub, tp),
          GroupOffset(w.sh.broker, w.sh.sub.groupID, tp), Log(w.sh.broker, tp),
          if tp in w.sh.sub.fetch then Some(w.sh.sub.fetch[tp]) else None,
          PolledFor(w, tp), WorkerOf(w, tp), HistOf(w, tp), CallsOf(w, tp), LifeOf(w, tp))
  }

  function PolledFor(w: World, tp: TP): Option<Message> {
    if w.polled.Some? && TPOf(MessageFromRecord(w.polled.value)) == tp then Some(MessageFromRecord(w.polled.value))
    else None
  }

  predicate Busy(pc: PC) { !pc.Idle? && !pc.Exited? }

  function MessageAt(log: seq<MemRec>, o: int): Message
    requires 0 <= o < |log|
  {
    MessageFromRecord(log[o].rec)
  }

  /** Offset of the first message still in the channel or with the dispatcher. */
  function QueueBase(s: Slice): int
    requires s.fetched.Some?
  {
    s.fetched.value - |s.wk.queue| - (if s.polled.Some? then 1 else 0)
  }

  /** The offsets below this one have been taken by the worker and returned from process. */
  function Frontier(s: Slice): int {
    if s.fetched.None? then s.committed
    else QueueBase(s) - (if Busy(s.wk.pc) && !(s.wk.pc.Committing? && s.wk.pc.drain) then 1 else 0)
  }

  /** Deliveries are consecutive: channel, dispatcher and current job are neighbours in the log. */
  ghost predicate Pipeline(s: Slice) {
    && (s.fetched.None? ==> s.wk == NO_WORKER && s.polled.None?)
    && (s.fetched.Some? ==>
         var base := QueueBase(s);
         && 0 <= base && s.fetched.value <= |s.log|
         && (forall i :: 0 <= i < |s.wk.queue| ==> s.wk.queue[i] == MessageAt(s.log, base + i))
         && (s.polled.Some? ==> s.polled.value == MessageAt(s.log, s.fetched.value - 1))
         && (Busy(s.wk.pc) ==> base > 0 && s.wk.pc.job == MessageAt(s.log, base - 1)))
    && 0 <= s.committed <= Frontier(s)
  }

  // ---- loss freedom ----

  /** The worker can no longer commit: the reason an earlier message was given up still
      stands, and it stands in front of a check the worker has yet to pass. */
  predicate PastContext(pc: PC) {
    || (pc.Committing? && (pc.commitStage.SecondCheck? || pc.commitStage.ApplyOffset?))
    || (pc.RoutingOut? && pc.stage.CommitApply?)
  }

  predicate PastAssigned(pc: PC) {
    || (pc.Committing? && pc.commitStage.ApplyOffset?)
    || (pc.RoutingOut? && (pc.stage.CommitContext? || pc.stage.CommitApply?))
  }

  predicate Doomed(s: Slice) {
    || s.closed
    || (s.cancelled && !PastContext(s.wk.pc))
    || (s.detached && !PastAssigned(s.wk.pc))
  }

  ghost predicate AllSettled(h: PartHist, upTo: int) {
    forall o :: 0 <= o < upTo ==> o in h.Settled()
  }

  /** What this subscription has been through and not committed was decided, or refused by
      the fence in this very subscription. */
  ghost predicate Covered(s: Slice) {
    forall o :: s.committed <= o < Frontier(s) ==> o in s.hist.Decided() || o in s.life.refused
  }

  ghost predicate NothingLost(s: Slice) {
    && AllSettled(s.hist, s.committed)
    && (Covered(s) || Doomed(s))
    && ((s.wk.pc.Committing? && !s.wk.pc.drain) || s.wk.pc.Completing? ==> s.wk.pc.job.offset in s.hist.Decided())
    && (s.wk.pc.RoutingOut? && s.wk.pc.stage.Aborting? ==> Doomed(s) || s.wk.pc.job.offset in s.life.refused)
  }

  // ---- offsets this subscription gave up ----

  /** The worker's job has not been given up, and will not be if it gets to commit. */
  predicate Undropped(pc: PC) {
    InHandlerPhase(pc) || (pc.RoutingOut? && !pc.stage.Aborting?) || (pc.Committing? && !pc.drain)
  }

  /** What was refused or left to another claim lies behind the worker, with a place in the history. */
  ghost predicate LifeBehind(s: Slice) {
    && s.life.refused <= s.hist.fenceRefused && s.life.skipped <= s.hist.skippedInProgress
    && (forall o :: o in s.life.refused + s.life.skipped ==>
         s.fetched.Some? && 0 <= o < QueueBase(s) && (Undropped(s.wk.pc) ==> o < s.wk.pc.job.offset))
  }

  /** The per-key loop's extra commit: the message was committed, or can no longer be, or was
      given up without a commit. */
  ghost predicate DrainOk(s: Slice) {
    s.wk.pc.Committing? && s.wk.pc.drain ==>
      if s.wk.pc.job.offset in s.life.refused + s.life.skipped then s.committed <= s.wk.pc.job.offset
      else s.committed > s.wk.pc.job.offset || Doomed(s)
  }

  // ---- exactly-once routing ----

  ghost predicate TxnMatches(cfg: Config, pc: PC)
    requires pc.RoutingOut?
  {
    var t := pc.txn;
    && (!(pc.stage.TxnOffsets? || pc.stage.BeforeCommitCheck? || pc.stage.CommitContext? || pc.stage.CommitApply?
          || pc.stage.Aborting?) ==>
         t.publishes == [] && t.offsets == [])
    && (pc.stage.TxnOffsets? ==> t.offsets == [])
    && (pc.stage.TxnOffsets? || pc.stage.BeforeCommitCheck? || pc.stage.CommitContext? || pc.stage.CommitApply? ==>
         && |t.publishes| == 1 && Lists(t.publishes[0].headers, pc.out.headers)
         && t.publishes[0] == RecordWith(pc.out, t.publishes[0].headers))
    && (pc.stage.BeforeCommitCheck? || pc.stage.CommitContext? || pc.stage.CommitApply? ==>
         t.offsets == [Offset(pc.job.topic, pc.job.partition, pc.job.offset)] && t.groupID == cfg.groupID)
  }

  predicate AtLeastOnceStage(st: RouteStage) { st.PublishContext? || st.PublishApply? }

  /** The routed message is a copy: same ID, key and payload. */
  predicate CopyOf(m: Message, out: Message) {
    out.key == m.key && out.payload == m.payload && Get(out.headers, MESSAGE_ID) == m.id
  }

  ghost predicate RoutingOk(cfg: Config, pc: PC) {
    pc.RoutingOut? ==>
      && CopyOf(pc.job, pc.out)
      && TxnMatches(cfg, pc)
      && (AtLeastOnceStage(pc.stage) ==> cfg.guarantee.AtLeastOnce?)
      && (cfg.guarantee.AtLeastOnce? ==> pc.stage.OutcomeCheck? || AtLeastOnceStage(pc.stage))
  }

  ghost predicate RoutedBelowCommitted(cfg: Config, s: Slice) {
    cfg.guarantee.Transactional? ==> forall o :: o in s.hist.routed ==> o < s.committed
  }

  /** Decisions have their reasons. */
  ghost predicate Justified(cfg: Config, s: Slice) {
    && (forall o :: o in s.hist.Settled() ==> 0 <= o < |s.log|)
    && (forall o :: o in s.hist.noHandler && 0 <= o < |s.log| ==> LookupOk(cfg, MessageAt(s.log, o), None))
    && (s.hist.dlqOff != {} ==> !cfg.dlqEnabled)
    && (s.hist.skippedCompleted + s.hist.skippedInProgress != {} ==> cfg.store.Some?)
  }

  // ---- sequential handler calls ----

  predicate Before(a: Call, b: Call) { a.offset < b.offset || (a.offset == b.offset && a.attempt < b.attempt) }

  ghost predicate Ascending(calls: seq<Call>) {
    forall i, j :: 0 <= i < j < |calls| ==> Before(calls[i], calls[j])
  }

  /** A call the worker has yet to make comes after all calls made. */
  ghost predicate CallsBehind(s: Slice) {
    && Ascending(s.calls)
    && (s.calls != [] ==> s.fetched.Some?)
    && (forall c :: c in s.calls && s.fetched.Some? ==>
         match s.wk.pc
         case Handling(job, _, _, attempt, _) =>
           c.offset < job.offset || (c.offset == job.offset && c.attempt <= attempt)
         case Sleeping(job, _, _, attempt, _, _, _) =>
           c.offset < job.offset || (c.offset == job.offset && c.attempt < attempt)
         case Starting(job) => c.offset < job.offset
         case Waiting(job, _) => c.offset < job.offset
         case Claiming(job, _) => c.offset < job.offset
         case Asking(job, _, _) => c.offset < job.offset
         case _ => c.offset < QueueBase(s))
  }

  ghost predicate PartInv(cfg: Config, s: Slice) {
    && Pipeline(s)
    && RoutingOk(cfg, s.wk.pc)
    && NothingLost(s)
    && RoutedBelowCommitted(cfg, s)
    && Justified(cfg, s)
    && CallsBehind(s)
    && LifeBehind(s)
    && DrainOk(s)
  }

  // ---- one worker action on its own slice ----

  /** The slice after the worker did `e`. */
  ghost predicate SliceAfter(s: Slice, e: Effect, s': Slice)
    requires Busy(s.wk.pc)
  {
    && s'.closed == s.closed && s'.cancelled == s.cancelled && s'.detached == s.detached
    && s'.fetched == s.fetched && s'.polled == s.polled
    && s'.wk == s.wk.(pc := s'.wk.pc)
    && s'.hist == ApplyToHist(s.hist, e.event, s.wk.pc.job.offset)
    && s'.life == ApplyToLife(s.life, e.event, s.wk.pc.job.offset)
    && s'.calls == ApplyToCalls(s.calls, e, s.wk.pc.job.offset)
    && s.log <= s'.log
  }

  /** Shared state seen through a slice. */
  predicate Sees(sh: Shared, s: Slice, tp: TP) {
    && s.closed == sh.broker.closed && s.cancelled == sh.cancelled && s.detached == !Assigned(sh.sub, tp)
    && s.committed == GroupOffset(sh.broker, sh.sub.groupID, tp) && s.log == Log(sh.broker, tp)
  }

  lemma JobOffset(s: Slice, tp: TP)
    requires Pipeline(s) && LogOk(s.log, tp) && Busy(s.wk.pc)
    ensures TPOf(s.wk.pc.job) == tp && s.wk.pc.job.offset == QueueBase(s) - 1
    ensures s.wk.pc.job.id == Get(s.wk.pc.job.headers, MESSAGE_ID)
  {
    assert s.log[QueueBase(s) - 1].rec.offset == QueueBase(s) - 1;
  }

  lemma HistGrows(h: PartHist, e: Event, offset: int)
    ensures ApplyToHist(h, e, offset).Settled() == h.Settled() + (if e.Silent? || e.Called? then {} else {offset})
    ensures ApplyToHist(h, e, offset).Decided() ==
      h.Decided() + (if e.Silent? || e.Called? || e.FenceRefused? then {} else {offset})
  {
  }

  lemma RetryMessageIsCopy(src: Message, dest: string, attempt: int, err: string, delay: int, now: Time)
    requires src.id == Get(src.headers, MESSAGE_ID)
    ensures CopyOf(src, RetryMessage(src, dest, attempt, err, delay, now))
  {
    KeysDistinct();
    AttachKeepsOrigin(src, now, attempt, Some(err), delay, MESSAGE_ID);
  }

  predicate ReasonOk(cfg: Config, e: Event) {
    && (e.DecidedDlqOff? ==> !cfg.dlqEnabled)
    && (e.DecidedSkipCompleted? || e.DecidedSkipInProgress? ==> cfg.store.Some?)
    && !e.Routed? && !e.Called? && !e.FenceRefused?
  }

  /** The ways a handler-phase action ends. */
  ghost predicate HandlerOutcome(cfg: Config, perKey: bool, sh: Shared, pc: PC, e: Effect)
    requires InHandlerPhase(pc)
  {
    && e.sh == sh.(items := e.sh.items)
    && (|| (InHandlerPhase(e.pc) && !e.pc.Completing? && e.pc.job == pc.job && (e.event.Silent? || e.event.Called?))
        || (e.pc.Completing? && e.pc.job == pc.job && (e.event.DecidedHandled? || (pc.Completing? && e.event.Silent?)))
        || (e.pc == ToCommit(pc.job) && e.event.Silent? && pc.Completing?)
        || (e.pc == ToCommit(pc.job) && ReasonOk(cfg, e.event) && !e.event.Silent? && !e.event.DecidedSkipInProgress?
            && (e.event.DecidedNoHandler? ==> LookupOk(cfg, pc.job, None)))
        || (e.pc == Finish(pc.job, perKey) && e.event.Silent? && sh.cancelled)
        || (e.pc == Finish(pc.job, perKey) && e.event.DecidedSkipInProgress? && cfg.store.Some?)
        || (e.pc.RoutingOut? && e.pc.job == pc.job && e.pc.stage.OutcomeCheck? && e.pc.txn == NO_TXN
            && CopyOf(pc.job, e.pc.out) && e.event.Silent?))
  }

  /** failAndRoute and routeTerminal either settle the message as dropped or start a copy on its way. */
  ghost predicate RouteStarts(cfg: Config, sh: Shared, job: Message, e: Effect) {
    && e.sh == sh
    && (|| (e.pc == ToCommit(job) && e.event.DecidedDlqOff? && !cfg.dlqEnabled)
        || (e.pc.RoutingOut? && e.pc.job == job && e.pc.stage.OutcomeCheck? && e.pc.txn == NO_TXN
            && CopyOf(job, e.pc.out) && e.event.Silent?))
  }

  lemma RouteTerminalStarts(cfg: Config, sh: Shared, job: Message, logical: string, attempt: int, err: string,
                            now: Time)
    requires job.id == Get(job.headers, MESSAGE_ID)
    ensures RouteStarts(cfg, sh, job, RouteTerminal(cfg, sh, job, logical, attempt, err, now))
  {
    hide RetryMessage;
    RetryMessageIsCopy(job, cfg.namer.dlq(logical), attempt, err, 0, now);
  }

  lemma FailAndRouteStarts(cfg: Config, sh: Shared, job: Message, logical: string, err: string, now: Time)
    requires job.id == Get(job.headers, MESSAGE_ID)
    ensures RouteStarts(cfg, sh, job, FailAndRoute(cfg, sh, job, logical, err, now))
  {
    hide RetryMessage;
    var attempt := job.RetryAttempt();
    if attempt >= MaxFor(cfg, logical) {
      RouteTerminalStarts(cfg, sh, job, logical, attempt, err, now);
    } else {
      RetryMessageIsCopy(job, cfg.namer.retry(logical, attempt + 1), attempt + 1, err,
                         DelayFor(cfg, logical, attempt + 1), now);
    }
  }

  lemma AfterFailureStarts(cfg: Config, sh: Shared, job: Message, logical: string, attempt: int, err: string)
    requires job.id == Get(job.headers, MESSAGE_ID)
    ensures RouteStarts(cfg, sh, job, AfterFailure(cfg, sh, job, logical, attempt, err))
  {
    hide FailAndRoute, RouteTerminal;
    FailAndRouteStarts(cfg, sh, job, logical, err, sh.clock);
    RouteTerminalStarts(cfg, sh, job, logical, attempt, err, sh.clock);
  }

  lemma AskOutcome(cfg: Config, perKey: bool, sh: Shared, pc: PC, c: Choice)
    requires pc.Asking? && cfg.store.Some? && pc.job.id == Get(pc.job.headers, MESSAGE_ID)
    ensures HandlerOutcome(cfg, perKey, sh, pc, AskStep(cfg, perKey, sh, pc, c))
  {
    hide RetryMessage, FailAndRoute, LookupOk, Claims.TryStartCall;
    if c.storeError.Some? { FailAndRouteStarts(cfg, sh, pc.job, pc.logical, c.storeError.value, sh.clock); }
  }

  lemma VerdictOutcome(cfg: Config, perKey: bool, sh: Shared, pc: PC, c: Choice)
    requires (pc.Completing? || pc.Failing?) && cfg.store.Some? && pc.job.id == Get(pc.job.headers, MESSAGE_ID)
    ensures HandlerOutcome(cfg, perKey, sh, pc, VerdictStep(cfg, sh, pc, c))
  {
    hide AfterFailure, LookupOk;
    if pc.Failing? {
      AfterFailureStarts(cfg, sh, pc.job, pc.logical, pc.attempt, pc.err);
      AfterFailureStarts(cfg, sh.(items := sh.items[pc.job.id := Claims.FailedRec(cfg.store.value, cfg.ttl, sh.clock)]),
                         pc.job, pc.logical, pc.attempt, pc.err);
    }
  }

  lemma HandlerEndOutcome(cfg: Config, perKey: bool, sh: Shared, pc: PC, c: Choice)
    requires pc.Handling? && pc.job.id == Get(pc.job.headers, MESSAGE_ID)
    ensures HandlerOutcome(cfg, perKey, sh, pc, HandlerEnd(cfg, sh, pc, c))
  {
    hide AfterFailure, LookupOk, RetriesInPlace;
    if c.failure.Some? { AfterFailureStarts(cfg, sh, pc.job, pc.logical, pc.attempt, c.failure.value); }
  }

  lemma HandlerStepOutcome(cfg: Config, perKey: bool, sh: Shared, pc: PC, c: Choice)
    requires InHandlerPhase(pc) && pc.job.id == Get(pc.job.headers, MESSAGE_ID)
    ensures HandlerOutcome(cfg, perKey, sh, pc, HandlerStep(cfg, perKey, sh, pc, c))
  {
    hide AskStep, HandlerEnd, VerdictStep, AttachRetry, LookupOk;
    if pc.Handling? {
      HandlerEndOutcome(cfg, perKey, sh, pc, c);
    } else if pc.Asking? && cfg.store.Some? {
      AskOutcome(cfg, perKey, sh, pc, c);
    } else if (pc.Completing? || pc.Failing?) && cfg.store.Some? {
      VerdictOutcome(cfg, perKey, sh, pc, c);
    }
  }

  /** A handler-phase action and the slice it leaves. */
  ghost predicate HandlerMove(cfg: Config, sh: Shared, s: Slice, s': Slice, tp: TP, e: Effect) {
    && WellFormed(sh.broker) && Sees(sh, s, tp) && LogOk(s.log, tp)
    && PartInv(cfg, s) && InHandlerPhase(s.wk.pc)
    && HandlerOutcome(cfg, s.wk.perKey, sh, s.wk.pc, e)
    && SliceAfter(s, e, s') && s'.wk.pc == e.pc && s'.log == s.log && s'.committed == s.committed
  }

  /** Logs only grow and the job stays until it is finished: deliveries stay consecutive. */
  lemma PipelineMoves(s: Slice, s': Slice)
    requires Pipeline(s) && Busy(s.wk.pc)
    requires s'.fetched == s.fetched && s'.polled == s.polled && s'.wk.queue == s.wk.queue && s.log <= s'.log
    requires Busy(s'.wk.pc) ==> s'.wk.pc.job == s.wk.pc.job
    requires 0 <= s'.committed <= Frontier(s')
    ensures Pipeline(s')
  {
  }

  lemma HandlerKeepsPipeline(cfg: Config, sh: Shared, s: Slice, s': Slice, tp: TP, e: Effect)
    requires HandlerMove(cfg, sh, s, s', tp, e)
    ensures Pipeline(s') && RoutingOk(cfg, s'.wk.pc)
  {
    hide LogOk, NothingLost, Justified, CallsBehind, WellFormed, LookupOk, Lists, CopyOf, LifeBehind, DrainOk, ReasonOk;
    JobOffset(s, tp);
    PipelineMoves(s, s');
  }

  lemma HandlerKeepsCover(cfg: Config, sh: Shared, s: Slice, s': Slice, tp: TP, e: Effect)
    requires HandlerMove(cfg, sh, s, s', tp, e)
    ensures Covered(s') || Doomed(s')
  {
    hide LogOk, CallsBehind, WellFormed, LookupOk, RoutingOk, CopyOf, Justified, RoutedBelowCommitted, DrainOk,
      LifeBehind;
    JobOffset(s, tp);
    HistGrows(s.hist, e.event, s.wk.pc.job.offset);
  }

  lemma HandlerKeepsDecisions(cfg: Config, sh: Shared, s: Slice, s': Slice, tp: TP, e: Effect)
    requires HandlerMove(cfg, sh, s, s', tp, e)
    ensures NothingLost(s')
  {
    HandlerKeepsCover(cfg, sh, s, s', tp, e);
    hide LogOk, CallsBehind, WellFormed, LookupOk, RoutingOk, CopyOf, Justified, RoutedBelowCommitted, DrainOk, Covered,
      Doomed;
    JobOffset(s, tp);
    HistGrows(s.hist, e.event, s.wk.pc.job.offset);
  }

  lemma HandlerKeepsReasons(cfg: Config, sh: Shared, s: Slice, s': Slice, tp: TP, e: Effect)
    requires HandlerMove(cfg, sh, s, s', tp, e)
    ensures RoutedBelowCommitted(cfg, s') && Justified(cfg, s')
  {
    hide LogOk, CallsBehind, WellFormed, LookupOk, RoutingOk, CopyOf, NothingLost;
    JobOffset(s, tp);
    HistGrows(s.hist, e.event, s.wk.pc.job.offset);
  }

  /** What an action of a worker adds to the life lies behind it. */
  lemma LifeMoves(s: Slice, s': Slice, tp: TP, e: Effect)
    requires Pipeline(s) && LogOk(s.log, tp) && Busy(s.wk.pc) && SliceAfter(s, e, s') && LifeBehind(s)
    requires Busy(s'.wk.pc) ==> s'.wk.pc.job == s.wk.pc.job
    requires Undropped(s'.wk.pc) ==> Undropped(s.wk.pc) && !e.event.DecidedSkipInProgress? && !e.event.FenceRefused?
    ensures LifeBehind(s')
  {
    JobOffset(s, tp);
    var job := s.wk.pc.job.offset;
    assert s'.fetched == s.fetched && QueueBase(s') == QueueBase(s) by { assert s.fetched.Some?; }
    forall o | o in s'.life.refused + s'.life.skipped
      ensures s'.fetched.Some? && 0 <= o < QueueBase(s') && (Undropped(s'.wk.pc) ==> o < job)
    {
      if o !in s.life.refused + s.life.skipped { assert o == job; }
    }
  }

  lemma HandlerKeepsLife(cfg: Config, sh: Shared, s: Slice, s': Slice, tp: TP, e: Effect)
    requires HandlerMove(cfg, sh, s, s', tp, e)
    ensures LifeBehind(s') && DrainOk(s')
  {
    hide LogOk, CallsBehind, WellFormed, LookupOk, RoutingOk, CopyOf, Justified, RoutedBelowCommitted, Covered;
    LifeMoves(s, s', tp, e);
    JobOffset(s, tp);
  }

  /** Where a handler-phase action leaves the attempt counter. */
  ghost predicate CallMove(pc: PC, e: Effect)
    requires InHandlerPhase(pc)
  {
    match e.event
    case Called(attempt) =>
      && e.pc.Handling? && e.pc.job == pc.job && e.pc.attempt == attempt
      && (pc.Claiming? || pc.Asking? || (pc.Sleeping? && attempt == pc.attempt))
    case _ =>
      InHandlerPhase(e.pc) ==>
        || e.pc == pc
        || (e.pc.Waiting? && e.pc.job == pc.job && pc.Starting?)
        || (e.pc.Claiming? && e.pc.job == pc.job && pc.Waiting?)
        || (e.pc.Asking? && e.pc.job == pc.job && (pc.Claiming? || pc.Asking?))
        || ((e.pc.Completing? || e.pc.Failing?) && e.pc.job == pc.job && pc.Handling?)
        || (e.pc.Sleeping? && e.pc.job == pc.job && pc.Handling? && e.pc.attempt == pc.attempt + 1)
  }

  /** Routing makes no call. */
  lemma RoutingLeaves(cfg: Config, sh: Shared, job: Message, logical: string, attempt: int, err: string)
    ensures var e := FailAndRoute(cfg, sh, job, logical, err, sh.clock); !InHandlerPhase(e.pc) && !e.event.Called?
    ensures var e := AfterFailure(cfg, sh, job, logical, attempt, err); !InHandlerPhase(e.pc) && !e.event.Called?
  {
    hide RetryMessage;
  }

  lemma AskCallMove(cfg: Config, perKey: bool, sh: Shared, pc: PC, c: Choice)
    requires pc.Asking? && cfg.store.Some?
    ensures CallMove(pc, AskStep(cfg, perKey, sh, pc, c))
  {
    hide FailAndRoute, Claims.TryStartCall;
    if c.storeError.Some? { RoutingLeaves(cfg, sh, pc.job, pc.logical, 0, c.storeError.value); }
  }

  lemma EndCallMove(cfg: Config, sh: Shared, pc: PC, c: Choice)
    ensures pc.Handling? ==> CallMove(pc, HandlerEnd(cfg, sh, pc, c))
    ensures (pc.Completing? || pc.Failing?) && cfg.store.Some? ==> CallMove(pc, VerdictStep(cfg, sh, pc, c))
  {
    hide AfterFailure, RetriesInPlace;
    if pc.Handling? && c.failure.Some? { RoutingLeaves(cfg, sh, pc.job, pc.logical, pc.attempt, c.failure.value); }
    if pc.Failing? && cfg.store.Some? {
      RoutingLeaves(cfg, sh, pc.job, pc.logical, pc.attempt, pc.err);
      RoutingLeaves(cfg, sh.(items := sh.items[pc.job.id := Claims.FailedRec(cfg.store.value, cfg.ttl, sh.clock)]),
                    pc.job, pc.logical, pc.attempt, pc.err);
    }
  }

  lemma HandlerStepCallMove(cfg: Config, perKey: bool, sh: Shared, pc: PC, c: Choice)
    requires InHandlerPhase(pc)
    ensures CallMove(pc, HandlerStep(cfg, perKey, sh, pc, c))
  {
    hide AskStep, HandlerEnd, VerdictStep, AttachRetry, LookupOk;
    if pc.Asking? && cfg.store.Some? { AskCallMove(cfg, perKey, sh, pc, c); }
    EndCallMove(cfg, sh, pc, c);
  }

  lemma HandlerKeepsCalls(cfg: Config, sh: Shared, s: Slice, s': Slice, tp: TP, e: Effect)
    requires HandlerMove(cfg, sh, s, s', tp, e) && CallMove(s.wk.pc, e)
    ensures CallsBehind(s')
  {
    JobOffset(s, tp);
  }

  // ---- routing ----

  /** The consumed partition's owner lost it, was cancelled, or the broker is closed. */
  predicate Refused(sh: Shared, tp: TP) {
    sh.cancelled || !Assigned(sh.sub, tp) || sh.broker.closed
  }

  predicate SameData(b: BrokerState, b': BrokerState) {
    b'.topics == b.topics && b'.groups == b.groups
  }

  ghost predicate LogsGrow(b: BrokerState, b': BrokerState) {
    forall q :: Log(b, q) <= Log(b', q)
  }

  /** The group's offset of `tp` is raised past `offset`, and no other. */
  ghost predicate OffsetRaised(b: BrokerState, b': BrokerState, group: string, tp: TP, offset: int) {
    forall q :: GroupOffset(b', group, q) ==
      if q == tp && offset + 1 > GroupOffset(b, group, q) then offset + 1 else GroupOffset(b, group, q)
  }

  /** A check passed, or the transaction waits or is being built or aborted. */
  ghost predicate RouteAdvances(cfg: Config, sh: Shared, pc: PC, e: Effect)
    requires pc.RoutingOut?
  {
    && SameData(sh.broker, e.sh.broker)
    && (e.event.Silent? || (e.event.FenceRefused? && e.pc.RoutingOut? && e.pc.stage.Aborting?))
    && e.pc.RoutingOut? && e.pc.job == pc.job && e.pc.out == pc.out && RoutingOk(cfg, e.pc)
    && (e.pc.stage.CommitApply? ==> e.pc == pc || (pc.stage.CommitContext? && !sh.cancelled))
    && (e.pc.stage.CommitContext? ==> pc.stage.BeforeCommitCheck? && Assigned(sh.sub, TPOf(pc.job)))
    && (e.pc.stage.Aborting? ==> Refused(sh, TPOf(pc.job)) || e.event.FenceRefused?)
    && !pc.stage.Aborting?
  }

  /** Given up, for a reason that stands, or because of the fence. */
  predicate RouteGivesUp(perKey: bool, sh: Shared, pc: PC, e: Effect)
    requires pc.RoutingOut?
  {
    && SameData(sh.broker, e.sh.broker) && (e.event.Silent? || e.event.FenceRefused?) && e.pc == Finish(pc.job, perKey)
    && (pc.stage.Aborting? || Refused(sh, TPOf(pc.job)) || e.event.FenceRefused?)
  }

  /** At-least-once: published, the offset is still to be committed. */
  ghost predicate RoutePublishes(cfg: Config, sh: Shared, pc: PC, e: Effect)
    requires pc.RoutingOut?
  {
    && pc.stage.PublishApply? && cfg.guarantee.AtLeastOnce? && e.pc == ToCommit(pc.job) && e.event.Routed?
    && e.sh.broker.groups == sh.broker.groups && LogsGrow(sh.broker, e.sh.broker)
  }

  /** Transactional: published and committed in one action. */
  ghost predicate RouteCommits(cfg: Config, perKey: bool, sh: Shared, pc: PC, e: Effect)
    requires pc.RoutingOut?
  {
    && pc.stage.CommitApply? && cfg.guarantee.Transactional? && !sh.broker.closed
    && e.pc == Finish(pc.job, perKey) && e.event.Routed?
    && LogsGrow(sh.broker, e.sh.broker)
    && OffsetRaised(sh.broker, e.sh.broker, cfg.groupID, TPOf(pc.job), pc.job.offset)
  }

  /** The ways a routing action ends. */
  ghost predicate RouteOutcome(cfg: Config, perKey: bool, sh: Shared, pc: PC, e: Effect)
    requires pc.RoutingOut?
  {
    && WellFormed(e.sh.broker) && e.sh.broker.closed == sh.broker.closed && e.sh.broker.fenced == sh.broker.fenced
    && e.sh.sub == sh.sub && e.sh.cancelled == sh.cancelled && e.sh.clock == sh.clock && e.sh.items == sh.items
    && (|| RouteAdvances(cfg, sh, pc, e)
        || RouteGivesUp(perKey, sh, pc, e)
        || RoutePublishes(cfg, sh, pc, e)
        || RouteCommits(cfg, perKey, sh, pc, e))
  }

  lemma PublishOutcomeOk(cfg: Config, perKey: bool, sh: Shared, pc: PC, c: Choice)
    requires pc.RoutingOut? && RoutingOk(cfg, pc) && WellFormed(sh.broker) && pc.stage.PublishApply?
    ensures RouteOutcome(cfg, perKey, sh, pc, RouteStep(cfg, perKey, sh, pc, c))
  {
    hide Append, Destination, CopyOf;
    if !Unavailable(sh.broker) && Lists(c.headers, pc.out.headers) {
      AppendFacts(sh.broker, RecordWith(pc.out, c.headers), 0);
      assert RoutePublishes(cfg, sh, pc, RouteStep(cfg, perKey, sh, pc, c));
    }
  }

  lemma BeginOutcomeOk(cfg: Config, perKey: bool, sh: Shared, pc: PC, c: Choice)
    requires pc.RoutingOut? && RoutingOk(cfg, pc) && WellFormed(sh.broker) && pc.stage.BeginApply?
    ensures RouteOutcome(cfg, perKey, sh, pc, RouteStep(cfg, perKey, sh, pc, c))
  {
    hide CopyOf;
    if !Unavailable(sh.broker) {
      var e := RouteStep(cfg, perKey, sh, pc, c);
      assert forall q :: Log(e.sh.broker, q) == Log(sh.broker, q);
      assert RouteAdvances(cfg, sh, pc, e);
    }
  }

  lemma TxnOutcomeOk(cfg: Config, perKey: bool, sh: Shared, pc: PC, c: Choice)
    requires pc.RoutingOut? && RoutingOk(cfg, pc) && WellFormed(sh.broker) && cfg.groupID != "" && pc.stage.CommitApply?
    ensures RouteOutcome(cfg, perKey, sh, pc, RouteStep(cfg, perKey, sh, pc, c))
  {
    hide ApplyTxn, Destination, CopyOf;
    if !Unavailable(sh.broker) {
      ApplyOne(sh.broker, pc.txn);
      assert RouteCommits(cfg, perKey, sh, pc, RouteStep(cfg, perKey, sh, pc, c));
    }
  }

  lemma OutsideCheckOutcome(cfg: Config, perKey: bool, sh: Shared, pc: PC, c: Choice)
    requires pc.RoutingOut? && RoutingOk(cfg, pc) && WellFormed(sh.broker) && cfg.groupID != ""
    requires pc.stage.OutcomeCheck? || pc.stage.PublishContext? || pc.stage.TxnCheck? || pc.stage.TxnLock?
        || pc.stage.BeginContext?
    ensures RouteOutcome(cfg, perKey, sh, pc, RouteStep(cfg, perKey, sh, pc, c))
  {
    hide CopyOf, Lists, Log, WellFormed, RoutePublishes, RouteCommits, Append, Raise, ApplyTxn, Destination;
  }

  lemma FillOutcome(cfg: Config, perKey: bool, sh: Shared, pc: PC, c: Choice)
    requires pc.RoutingOut? && RoutingOk(cfg, pc) && WellFormed(sh.broker) && cfg.groupID != ""
    requires pc.stage.TxnPublish? || pc.stage.TxnOffsets?
    ensures RouteOutcome(cfg, perKey, sh, pc, RouteStep(cfg, perKey, sh, pc, c))
  {
    hide CopyOf, Lists, Log, WellFormed, RoutePublishes, RouteCommits, Append, Raise, ApplyTxn, Destination;
  }

  lemma InsideCheckOutcome(cfg: Config, perKey: bool, sh: Shared, pc: PC, c: Choice)
    requires pc.RoutingOut? && RoutingOk(cfg, pc) && WellFormed(sh.broker) && cfg.groupID != ""
    requires pc.stage.AfterBeginCheck? || pc.stage.BeforeCommitCheck? || pc.stage.CommitContext? || pc.stage.Aborting?
    ensures RouteOutcome(cfg, perKey, sh, pc, RouteStep(cfg, perKey, sh, pc, c))
  {
    hide CopyOf, Lists, Log, WellFormed, RoutePublishes, RouteCommits, Append, Raise, ApplyTxn, Destination;
  }

  lemma RouteStepOutcome(cfg: Config, perKey: bool, sh: Shared, pc: PC, c: Choice)
    requires pc.RoutingOut? && RoutingOk(cfg, pc) && WellFormed(sh.broker) && cfg.groupID != ""
    ensures RouteOutcome(cfg, perKey, sh, pc, RouteStep(cfg, perKey, sh, pc, c))
  {
    hide RouteStep, RouteOutcome, RoutingOk, WellFormed;
    if pc.stage.PublishApply? {
      PublishOutcomeOk(cfg, perKey, sh, pc, c);
    } else if pc.stage.BeginApply? {
      BeginOutcomeOk(cfg, perKey, sh, pc, c);
    } else if pc.stage.CommitApply? {
      TxnOutcomeOk(cfg, perKey, sh, pc, c);
    } else if pc.stage.OutcomeCheck? || pc.stage.PublishContext? || pc.stage.TxnCheck? || pc.stage.TxnLock?
        || pc.stage.BeginContext? {
      OutsideCheckOutcome(cfg, perKey, sh, pc, c);
    } else if pc.stage.TxnPublish? || pc.stage.TxnOffsets? {
      FillOutcome(cfg, perKey, sh, pc, c);
    } else {
      InsideCheckOutcome(cfg, perKey, sh, pc, c);
    }
  }

  ghost predicate RouteMove(cfg: Config, sh: Shared, s: Slice, s': Slice, tp: TP, e: Effect) {
    && WellFormed(sh.broker) && Sees(sh, s, tp) && LogOk(s.log, tp) && sh.sub.groupID == cfg.groupID
    && PartInv(cfg, s) && s.wk.pc.RoutingOut?
    && RouteOutcome(cfg, s.wk.perKey, sh, s.wk.pc, e)
    && SliceAfter(s, e, s') && s'.wk.pc == e.pc && Sees(e.sh, s', tp)
  }

  lemma RouteKeepsPipeline(cfg: Config, sh: Shared, s: Slice, s': Slice, tp: TP, e: Effect)
    requires RouteMove(cfg, sh, s, s', tp, e)
    ensures Pipeline(s') && RoutingOk(cfg, s'.wk.pc)
    ensures s.committed <= s'.committed
  {
    hide LogOk, TxnMatches, NothingLost, Justified, CallsBehind, Lists, CopyOf, WellFormed;
    JobOffset(s, tp);
    PipelineMoves(s, s');
  }

  lemma RouteKeepsCalls(cfg: Config, sh: Shared, s: Slice, s': Slice, tp: TP, e: Effect)
    requires RouteMove(cfg, sh, s, s', tp, e)
    ensures CallsBehind(s')
  {
    hide LogOk, NothingLost, Justified, RoutingOk, RoutedBelowCommitted, WellFormed;
    JobOffset(s, tp);
  }

  lemma RouteKeepsDecisions(cfg: Config, sh: Shared, s: Slice, s': Slice, tp: TP, e: Effect)
    requires RouteMove(cfg, sh, s, s', tp, e)
    ensures NothingLost(s')
  {
    hide LogOk, RoutingOk, CallsBehind, Justified, RoutedBelowCommitted, WellFormed, DrainOk;
    JobOffset(s, tp);
    HistGrows(s.hist, e.event, s.wk.pc.job.offset);
    assert forall o :: o in s.hist.Settled() ==> o in s'.hist.Settled();
  }

  lemma RouteKeepsRouted(cfg: Config, sh: Shared, s: Slice, s': Slice, tp: TP, e: Effect)
    requires RouteMove(cfg, sh, s, s', tp, e)
    ensures RoutedBelowCommitted(cfg, s') && Justified(cfg, s')
  {
    hide LogOk, RoutingOk, CallsBehind, NothingLost, WellFormed, LookupOk;
    JobOffset(s, tp);
    HistGrows(s.hist, e.event, s.wk.pc.job.offset);
  }

  lemma RouteKeepsLife(cfg: Config, sh: Shared, s: Slice, s': Slice, tp: TP, e: Effect)
    requires RouteMove(cfg, sh, s, s', tp, e)
    ensures LifeBehind(s') && DrainOk(s')
  {
    hide LogOk, CallsBehind, WellFormed, LookupOk, RoutingOk, CopyOf, Justified, RoutedBelowCommitted, Covered,
      AllSettled, LogsGrow;
    LifeMoves(s, s', tp, e);
    JobOffset(s, tp);
  }

  // ---- committing ----

  /** The ways an action of commit ends. */
  ghost predicate CommitOutcome(perKey: bool, sh: Shared, pc: PC, e: Effect)
    requires pc.Committing?
  {
    var tp := TPOf(pc.job);
    && e.sh.sub == sh.sub && e.sh.cancelled == sh.cancelled && e.sh.clock == sh.clock && e.sh.items == sh.items
    && e.event.Silent?
    && e.sh.broker == sh.broker.(groups := e.sh.broker.groups)
    && (|| (e.sh.broker == sh.broker && e.pc.Committing? && e.pc == pc.(commitStage := e.pc.commitStage)
            && (e.pc.commitStage.SecondCheck? ==> !sh.cancelled)
            && (e.pc.commitStage.ApplyOffset? ==> pc.commitStage.SecondCheck? && Assigned(sh.sub, tp)))
        || (e.sh.broker == sh.broker && e.pc == AfterCommit(pc.job, pc.drain, perKey) && Refused(sh, tp))
        || (pc.commitStage.ApplyOffset? && !sh.broker.closed && e.pc == AfterCommit(pc.job, pc.drain, perKey)
            && OffsetRaised(sh.broker, e.sh.broker, sh.sub.groupID, tp, pc.job.offset)))
  }

  lemma CommitStepOutcome(cfg: Config, perKey: bool, sh: Shared, pc: PC)
    requires pc.Committing? && WellFormed(sh.broker)
    ensures CommitOutcome(perKey, sh, pc, CommitStep(cfg, perKey, sh, pc))
    ensures WellFormed(CommitStep(cfg, perKey, sh, pc).sh.broker)
  {
    hide Raise, WellFormed, Log, GroupOffset;
    RaiseFacts(sh.broker, sh.sub.groupID, TPOf(pc.job), pc.job.offset + 1);
  }

  ghost predicate CommitMove(cfg: Config, sh: Shared, s: Slice, s': Slice, tp: TP, e: Effect) {
    && WellFormed(sh.broker) && Sees(sh, s, tp) && LogOk(s.log, tp) && sh.sub.groupID == cfg.groupID
    && PartInv(cfg, s) && s.wk.pc.Committing?
    && CommitOutcome(s.wk.perKey, sh, s.wk.pc, e)
    && SliceAfter(s, e, s') && s'.wk.pc == e.pc && Sees(e.sh, s', tp)
  }

  lemma CommitKeepsPipeline(cfg: Config, sh: Shared, s: Slice, s': Slice, tp: TP, e: Effect)
    requires CommitMove(cfg, sh, s, s', tp, e)
    ensures Pipeline(s') && RoutingOk(cfg, s'.wk.pc)
    ensures s'.log == s.log && s.committed <= s'.committed
  {
    hide LogOk, NothingLost, Justified, CallsBehind, WellFormed;
    JobOffset(s, tp);
    PipelineMoves(s, s');
  }

  lemma CommitKeepsRest(cfg: Config, sh: Shared, s: Slice, s': Slice, tp: TP, e: Effect)
    requires CommitMove(cfg, sh, s, s', tp, e)
    ensures NothingLost(s')
    ensures RoutedBelowCommitted(cfg, s') && Justified(cfg, s') && CallsBehind(s')
  {
    hide LogOk, WellFormed, LookupOk, DrainOk;
    CommitKeepsPipeline(cfg, sh, s, s', tp, e);
    JobOffset(s, tp);
  }

  lemma CommitKeepsLife(cfg: Config, sh: Shared, s: Slice, s': Slice, tp: TP, e: Effect)
    requires CommitMove(cfg, sh, s, s', tp, e)
    ensures LifeBehind(s') && DrainOk(s')
  {
    hide LogOk, CallsBehind, WellFormed, LookupOk, RoutingOk, CopyOf, Justified, RoutedBelowCommitted, Covered,
      AllSettled, LogsGrow;
    LifeMoves(s, s', tp, e);
    JobOffset(s, tp);
  }

  /** The group never goes past the end of a log. */
  lemma BelowCommitted(cfg: Config, s: Slice)
    requires PartInv(cfg, s)
    ensures 0 <= s.committed <= |s.log|
  {
    hide RoutingOk, NothingLost, CallsBehind, LifeBehind, DrainOk, LookupOk;
    if s.fetched.None? && s.committed > 0 { assert s.committed - 1 in s.hist.Settled() by { SettledBelow(s); } }
  }

  lemma SettledBelow(s: Slice)
    requires NothingLost(s)
    ensures forall o :: 0 <= o < s.committed ==> o in s.hist.Settled()
  {
  }
}
