/** Time over whole runs. The clock never goes back; no handler call begins before its
    message's time, retries in place wait out their backoff, and every routed record says
    when and why it was routed. So the backoffs of a chain of retries add up. */
module Timing {
  import opened Wrappers
  import opened Decimal
  import opened Envelope
  import opened Config
  import opened Routing
  import opened Broker
  import opened Protocol
  import opened Safety
  import opened Runs
  import opened Exclusion
  import opened Drain
  import opened Lifecycle
  import Claims

  /** The message may be started at `t`. */
  predicate DueBy(m: Message, t: Time) { m.NotBefore().None? || m.NotBefore().value <= t }

  /** `m` is the next retry of `src` for the handler of `logical`, stamped with its own time. */
  predicate RetriedAs(cfg: Config, src: Message, m: Message, logical: string, err: string) {
    var next := src.RetryAttempt() + 1;
    && src.RetryAttempt() < MaxFor(cfg, logical)
    && m == RetryMessage(src, cfg.namer.retry(logical, next), next, err, DelayFor(cfg, logical, next), m.timestamp)
              .(partition := m.partition, offset := m.offset)
  }

  /** `m` is the dead letter of `src`, whose attempts are used up. */
  predicate BuriedAs(cfg: Config, src: Message, m: Message, logical: string, attempt: int, err: string) {
    && attempt >= MaxFor(cfg, logical)
    && m == RetryMessage(src, cfg.namer.dlq(logical), attempt, err, 0, m.timestamp)
              .(partition := m.partition, offset := m.offset)
  }

  /** `m` is what routing `src` for the handler found for it makes of it, after `src` was due. */
  ghost predicate RoutedAs(cfg: Config, src: Message, m: Message) {
    && DueBy(src, m.timestamp)
    && exists logical ::
         && LookupOk(cfg, src, Some(logical))
         && (|| (exists err :: RetriedAs(cfg, src, m, logical, err))
             || (exists attempt, err :: BuriedAs(cfg, src, m, logical, attempt, err)))
  }

  // ---- what holds of every partition ----

  /** Two calls on the same offset: an attempt in place, after its backoff. */
  ghost predicate Spaced(cfg: Config, m: Message, earlier: Call, later: Call) {
    later.offset == earlier.offset ==>
      && later.attempt == earlier.attempt + 1
      && exists logical ::
           && LookupOk(cfg, m, Some(logical)) && RetriesInPlace(cfg, logical)
           && later.attempt <= MaxFor(cfg, logical)
           && later.at >= earlier.at + DelayFor(cfg, logical, later.attempt)
  }

  /** One call: its message was due, and had been routed by then if it is a copy. */
  ghost predicate CallTimed(log: seq<MemRec>, routed: set<int>, clock: Time, c: Call) {
    && 0 <= c.offset < |log| && DueBy(MessageAt(log, c.offset), c.at) && c.at <= clock
    && (c.offset in routed ==> MessageAt(log, c.offset).timestamp <= c.at)
  }

  ghost predicate CallsTimed(cfg: Config, log: seq<MemRec>, routed: set<int>, clock: Time, calls: seq<Call>) {
    && (forall i :: 0 <= i < |calls| ==> CallTimed(log, routed, clock, calls[i]))
    && (forall i, j :: 0 <= i < j < |calls| && j == i + 1 ==>
          calls[i].at <= calls[j].at && Spaced(cfg, MessageAt(log, calls[i].offset), calls[i], calls[j]))
  }

  predicate LastCall(calls: seq<Call>, offset: int, attempt: int, latest: Time) {
    && calls != [] && calls[|calls| - 1].offset == offset && calls[|calls| - 1].attempt == attempt
    && calls[|calls| - 1].at <= latest
  }

  ghost predicate Found(cfg: Config, pc: PC) {
    match pc
    case Waiting(job, logical) => LookupOk(cfg, job, Some(logical))
    case Claiming(job, logical) => LookupOk(cfg, job, Some(logical))
    case Asking(job, logical, _) => LookupOk(cfg, job, Some(logical))
    case Handling(job, _, logical, attempt, _) =>
      LookupOk(cfg, job, Some(logical)) && (!RetriesInPlace(cfg, logical) ==> attempt == job.RetryAttempt())
    case Sleeping(job, _, logical, _, _, _, _) => LookupOk(cfg, job, Some(logical)) && RetriesInPlace(cfg, logical)
    case Failing(job, logical, attempt, _, _) =>
      LookupOk(cfg, job, Some(logical)) && LastAttempt(cfg, job, logical, attempt)
    case _ => true
  }

  /** In place the maximum is reached; over topics the attempt is the message's own. */
  predicate LastAttempt(cfg: Config, job: Message, logical: string, attempt: int) {
    if RetriesInPlace(cfg, logical) then attempt >= MaxFor(cfg, logical) else attempt == job.RetryAttempt()
  }

  predicate PastWait(pc: PC) { InHandlerPhase(pc) && !pc.Starting? && !pc.Waiting? }

  /** Where the worker stands; `copy` says that its job is a routed record. */
  ghost predicate PcTimed(cfg: Config, pc: PC, copy: bool, clock: Time, calls: seq<Call>) {
    && Found(cfg, pc)
    && (Busy(pc) && copy ==> pc.job.timestamp <= clock)
    && (PastWait(pc) ==> DueBy(pc.job, clock))
    && (pc.RoutingOut? ==>
          && RoutedAs(cfg, pc.job, pc.out) && 0 <= pc.out.timestamp <= clock
          && (copy ==> pc.job.timestamp <= pc.out.timestamp))
    && (pc.Handling? ==> LastCall(calls, pc.job.offset, pc.attempt, clock))
    && (pc.Sleeping? ==>
          && RetriesInPlace(cfg, pc.logical) && pc.attempt <= MaxFor(cfg, pc.logical)
          && LastCall(calls, pc.job.offset, pc.attempt - 1, pc.until - DelayFor(cfg, pc.logical, pc.attempt)))
  }

  /** The offsets of `tp` that hold routed records. */
  function RoutedOf(w: World, tp: TP): set<int> { set d | d in w.origin && d.tp == tp :: d.offset }

  ghost predicate PartTimed(cfg: Config, w: World, tp: TP) {
    && CallsTimed(cfg, Log(w.sh.broker, tp), RoutedOf(w, tp), w.sh.clock, CallsOf(w, tp))
    && (tp in w.workers ==>
         var pc := w.workers[tp].pc;
         PcTimed(cfg, pc, Busy(pc) && pc.job.offset in RoutedOf(w, tp), w.sh.clock, CallsOf(w, tp)))
  }

  function MessageOf(b: BrokerState, p: Pos): Message
    requires 0 <= p.offset < |Log(b, p.tp)|
  {
    MessageAt(Log(b, p.tp), p.offset)
  }

  /** A routed record and its source. */
  ghost predicate CopyTimed(cfg: Config, w: World, d: Pos)
    requires d in w.origin
  {
    var src := w.origin[d];
    && InLog(w.sh.broker, d) && InLog(w.sh.broker, src)
    && var m := MessageOf(w.sh.broker, d);
       && RoutedAs(cfg, MessageOf(w.sh.broker, src), m) && 0 <= m.timestamp <= w.sh.clock
       && (src in w.origin ==> MessageOf(w.sh.broker, src).timestamp <= m.timestamp)
  }

  ghost predicate Timed(cfg: Config, w: World) {
    && 0 <= w.sh.clock
    && (forall d :: d in w.origin ==> CopyTimed(cfg, w, d))
    && (forall tp :: PartTimed(cfg, w, tp))
  }

  // ---- one action of a worker ----

  /** failAndRoute and routeTerminal make the routed message out of the job at their own time. */
  ghost predicate RoutesNow(cfg: Config, sh: Shared, job: Message, e: Effect) {
    && !InHandlerPhase(e.pc)
    && (e.pc.RoutingOut? ==>
          && e.pc.job == job && e.pc.out.timestamp == sh.clock
          && (DueBy(job, sh.clock) ==> RoutedAs(cfg, job, e.pc.out)))
  }

  lemma TerminalNow(cfg: Config, sh: Shared, job: Message, logical: string, attempt: int, err: string)
    requires LookupOk(cfg, job, Some(logical)) && attempt >= MaxFor(cfg, logical)
    ensures RoutesNow(cfg, sh, job, Protocol.RouteTerminal(cfg, sh, job, logical, attempt, err, sh.clock))
  {
    hide AttachRetry, LookupOk;
    var e := Protocol.RouteTerminal(cfg, sh, job, logical, attempt, err, sh.clock);
    if e.pc.RoutingOut? { assert BuriedAs(cfg, job, e.pc.out, logical, attempt, err); }
  }

  lemma RetryNow(cfg: Config, sh: Shared, job: Message, logical: string, err: string)
    requires LookupOk(cfg, job, Some(logical))
    ensures RoutesNow(cfg, sh, job, Protocol.FailAndRoute(cfg, sh, job, logical, err, sh.clock))
  {
    hide AttachRetry, LookupOk, Protocol.RouteTerminal;
    var e := Protocol.FailAndRoute(cfg, sh, job, logical, err, sh.clock);
    if job.RetryAttempt() < MaxFor(cfg, logical) {
      assert RetriedAs(cfg, job, e.pc.out, logical, err);
    } else {
      TerminalNow(cfg, sh, job, logical, job.RetryAttempt(), err);
    }
  }

  lemma FailureNow(cfg: Config, sh: Shared, job: Message, logical: string, attempt: int, err: string)
    requires LookupOk(cfg, job, Some(logical)) && LastAttempt(cfg, job, logical, attempt)
    ensures RoutesNow(cfg, sh, job, AfterFailure(cfg, sh, job, logical, attempt, err))
  {
    hide LookupOk, Protocol.FailAndRoute, Protocol.RouteTerminal, RoutesNow, MaxFor, RetriesInPlace;
    if RetriesInPlace(cfg, logical) {
      TerminalNow(cfg, sh, job, logical, attempt, err);
    } else {
      RetryNow(cfg, sh, job, logical, err);
    }
  }

  /** Where an action of the handler phase leads in time. */
  ghost predicate MovesInTime(cfg: Config, sh: Shared, pc: PC, e: Effect)
    requires InHandlerPhase(pc)
  {
    && e.sh.clock == sh.clock && Found(cfg, e.pc)
    && (Busy(e.pc) ==> e.pc.job == pc.job)
    && (PastWait(e.pc) ==> DueBy(pc.job, sh.clock))
    && (e.pc.RoutingOut? ==> RoutedAs(cfg, pc.job, e.pc.out) && e.pc.out.timestamp == sh.clock)
    && (e.event.Called? ==>
          && e.pc.Handling? && e.pc.attempt == e.event.attempt
          && (pc.Claiming? || pc.Asking? || (pc.Sleeping? && pc.attempt == e.event.attempt && pc.until <= sh.clock)))
    && (!e.event.Called? && e.pc.Handling? ==> e.pc == pc)
    && (e.pc.Sleeping? ==>
          e.pc == pc || (pc.Handling? && e.pc.attempt == pc.attempt + 1 && RetriesInPlace(cfg, e.pc.logical) &&
            e.pc.attempt <= MaxFor(cfg, e.pc.logical) &&
            e.pc.until == sh.clock + DelayFor(cfg, e.pc.logical, e.pc.attempt)))
  }

  lemma AskInTime(cfg: Config, perKey: bool, sh: Shared, pc: PC, c: Choice)
    requires pc.Asking? && cfg.store.Some? && Found(cfg, pc) && DueBy(pc.job, sh.clock)
    ensures MovesInTime(cfg, sh, pc, AskStep(cfg, perKey, sh, pc, c))
  {
    hide LookupOk, Protocol.FailAndRoute, Claims.TryStartCall, RoutedAs, DueBy;
    if c.storeError.Some? {
      RetryNow(cfg, sh, pc.job, pc.logical, c.storeError.value);
      RoutedSame(cfg, sh, pc.job, pc.logical, 0, c.storeError.value);
    }
  }

  /** Routing changes nothing shared yet, and makes no call. */
  lemma RoutedSame(cfg: Config, sh: Shared, job: Message, logical: string, attempt: int, err: string)
    ensures var e := Protocol.FailAndRoute(cfg, sh, job, logical, err, sh.clock);
      e.sh == sh && !e.event.Called? && Busy(e.pc) && e.pc.job == job
    ensures var e := AfterFailure(cfg, sh, job, logical, attempt, err);
      e.sh == sh && !e.event.Called? && Busy(e.pc) && e.pc.job == job
  {
    hide RetryMessage;
  }

  lemma EndInTime(cfg: Config, sh: Shared, pc: PC, c: Choice)
    requires pc.Handling? && Found(cfg, pc) && DueBy(pc.job, sh.clock)
    ensures MovesInTime(cfg, sh, pc, HandlerEnd(cfg, sh, pc, c))
  {
    hide LookupOk, AfterFailure, RoutedAs, DueBy, RetriesInPlace;
    if c.failure.Some? {
      if LastAttempt(cfg, pc.job, pc.logical, pc.attempt) {
        FailureNow(cfg, sh, pc.job, pc.logical, pc.attempt, c.failure.value);
      }
      RoutedSame(cfg, sh, pc.job, pc.logical, pc.attempt, c.failure.value);
    }
  }

  lemma VerdictInTime(cfg: Config, sh: Shared, pc: PC, c: Choice)
    requires (pc.Completing? || pc.Failing?) && cfg.store.Some? && Found(cfg, pc) && DueBy(pc.job, sh.clock)
    ensures MovesInTime(cfg, sh, pc, VerdictStep(cfg, sh, pc, c))
  {
    hide LookupOk, AfterFailure, RoutedAs, DueBy, RetriesInPlace;
    if pc.Failing? {
      var sh' := sh.(items := sh.items[pc.job.id := Claims.FailedRec(cfg.store.value, cfg.ttl, sh.clock)]);
      FailureNow(cfg, sh, pc.job, pc.logical, pc.attempt, pc.err);
      FailureNow(cfg, sh', pc.job, pc.logical, pc.attempt, pc.err);
      RoutedSame(cfg, sh, pc.job, pc.logical, pc.attempt, pc.err);
      RoutedSame(cfg, sh', pc.job, pc.logical, pc.attempt, pc.err);
    }
  }

  lemma HandlerInTime(cfg: Config, perKey: bool, sh: Shared, pc: PC, c: Choice)
    requires InHandlerPhase(pc) && Found(cfg, pc) && (PastWait(pc) ==> DueBy(pc.job, sh.clock))
    ensures MovesInTime(cfg, sh, pc, HandlerStep(cfg, perKey, sh, pc, c))
  {
    hide LookupOk, AskStep, HandlerEnd, VerdictStep, AttachRetry, RoutedAs;
    if pc.Handling? { EndInTime(cfg, sh, pc, c); }
    if pc.Asking? && cfg.store.Some? { AskInTime(cfg, perKey, sh, pc, c); }
    if (pc.Completing? || pc.Failing?) && cfg.store.Some? { VerdictInTime(cfg, sh, pc, c); }
  }

  /** The worker's place after an action of the handler phase. */
  lemma HandlerPlace(cfg: Config, sh: Shared, pc: PC, e: Effect, copy: bool, calls: seq<Call>)
    requires InHandlerPhase(pc) && 0 <= sh.clock && PcTimed(cfg, pc, copy, sh.clock, calls)
    requires MovesInTime(cfg, sh, pc, e)
    ensures PcTimed(cfg, e.pc, copy, sh.clock, ApplyToCalls(calls, e, pc.job.offset))
  {
    hide LookupOk, RoutedAs, DueBy, RetriesInPlace, Found;
  }

  /** And its calls. */
  lemma HandlerCallsTimed(cfg: Config, sh: Shared, pc: PC, e: Effect, log: seq<MemRec>, routed: set<int>, before: Time,
                          calls: seq<Call>)
    requires InHandlerPhase(pc) && before <= sh.clock && MovesInTime(cfg, sh, pc, e)
    requires 0 <= pc.job.offset < |log| && pc.job == MessageAt(log, pc.job.offset)
    requires PcTimed(cfg, pc, pc.job.offset in routed, sh.clock, calls)
    requires CallsTimed(cfg, log, routed, before, calls)
    requires pc.Claiming? || pc.Asking? ==> forall c :: c in calls ==> c.offset < pc.job.offset
    ensures CallsTimed(cfg, log, routed, sh.clock, ApplyToCalls(calls, e, pc.job.offset))
  {
    hide LookupOk, RoutedAs, DueBy, RetriesInPlace, MessageFromRecord;
    if e.event.Called? {
      var c := Call(pc.job.offset, e.event.attempt, sh.clock);
      assert ApplyToCalls(calls, e, pc.job.offset) == calls + [c];
      assert CallTimed(log, routed, sh.clock, c);
      if calls != [] {
        var last := calls[|calls| - 1];
        assert last in calls;
        assert Spaced(cfg, MessageAt(log, last.offset), last, c);
      }
    }
  }

  // ---- time and logs go on ----

  lemma CallsGrow(cfg: Config, log: seq<MemRec>, log': seq<MemRec>, routed: set<int>, routed': set<int>, clock: Time,
                  clock': Time, calls: seq<Call>)
    requires CallsTimed(cfg, log, routed, clock, calls) && log <= log' && clock <= clock'
    requires forall o :: 0 <= o < |log| && o in routed' ==> o in routed
    ensures CallsTimed(cfg, log', routed', clock', calls)
  {
    hide LookupOk, MessageFromRecord, DueBy, RetriesInPlace;
    forall i | 0 <= i < |calls| ensures CallTimed(log', routed', clock', calls[i]) {
      assert CallTimed(log, routed, clock, calls[i]);
      assert MessageAt(log', calls[i].offset) == MessageAt(log, calls[i].offset);
    }
  }

  lemma PlaceGrows(cfg: Config, pc: PC, copy: bool, clock: Time, clock': Time, calls: seq<Call>)
    requires PcTimed(cfg, pc, copy, clock, calls) && clock <= clock'
    ensures PcTimed(cfg, pc, copy, clock', calls)
  {
    hide LookupOk, RoutedAs, RetriesInPlace;
  }

  /** Somebody else's action, seen from the partition. */
  ghost predicate TimeGoesOn(w: World, w': World, tp: TP) {
    && Log(w.sh.broker, tp) <= Log(w'.sh.broker, tp) && w.sh.clock <= w'.sh.clock
    && (forall o :: 0 <= o < |Log(w.sh.broker, tp)| && Pos(tp, o) in w'.origin ==> Pos(tp, o) in w.origin)
    && (CallsOf(w', tp) == CallsOf(w, tp) || CallsOf(w', tp) == [])
    && (tp in w'.workers ==>
          var pc := w'.workers[tp].pc;
          || pc.Idle? || pc.Exited?
          || (pc.Starting? && pc.job.offset < |Log(w.sh.broker, tp)| && 0 <= pc.job.offset
              && pc.job == MessageAt(Log(w.sh.broker, tp), pc.job.offset))
          || (tp in w.workers && w.workers[tp].pc == pc && CallsOf(w', tp) == CallsOf(w, tp)))
  }

  lemma PartGoesOn(cfg: Config, w: World, w': World, tp: TP)
    requires Inv(cfg, w) && Timed(cfg, w) && TimeGoesOn(w, w', tp)
    ensures PartTimed(cfg, w', tp)
  {
    hide LookupOk, RoutedAs, DueBy, RetriesInPlace, Found, MessageFromRecord, Inv, CallsTimed;
    assert PartTimed(cfg, w, tp);
    var log, log' := Log(w.sh.broker, tp), Log(w'.sh.broker, tp);
    if CallsOf(w', tp) == CallsOf(w, tp) {
      CallsGrow(cfg, log, log', RoutedOf(w, tp), RoutedOf(w', tp), w.sh.clock, w'.sh.clock, CallsOf(w, tp));
    } else {
      NoCallsTimed(cfg, log', RoutedOf(w', tp), w'.sh.clock);
    }
    if tp in w'.workers && Busy(w'.workers[tp].pc) {
      var pc := w'.workers[tp].pc;
      if tp in w.workers && w.workers[tp].pc == pc && CallsOf(w', tp) == CallsOf(w, tp) {
        JobPlace(cfg, w, tp);
        PlaceGrows(cfg, pc, pc.job.offset in RoutedOf(w, tp), w.sh.clock, w'.sh.clock, CallsOf(w, tp));
      } else {
        assert pc.job.offset in RoutedOf(w', tp) ==> CopyTimed(cfg, w, Pos(tp, pc.job.offset));
        StartingTimed(cfg, pc, pc.job.offset in RoutedOf(w', tp), w'.sh.clock, CallsOf(w', tp));
      }
    } else if tp in w'.workers {
      IdleTimed(cfg, w'.workers[tp].pc, w'.sh.clock, CallsOf(w', tp));
    }
  }

  lemma NoCallsTimed(cfg: Config, log: seq<MemRec>, routed: set<int>, clock: Time)
    ensures CallsTimed(cfg, log, routed, clock, [])
  {
  }

  lemma StartingTimed(cfg: Config, pc: PC, copy: bool, clock: Time, calls: seq<Call>)
    requires pc.Starting? && (copy ==> pc.job.timestamp <= clock)
    ensures PcTimed(cfg, pc, copy, clock, calls)
  {
  }

  lemma IdleTimed(cfg: Config, pc: PC, clock: Time, calls: seq<Call>)
    requires !Busy(pc)
    ensures PcTimed(cfg, pc, false, clock, calls)
  {
  }

  /** A busy worker's job is a record of its log. */
  lemma JobPlace(cfg: Config, w: World, tp: TP)
    requires Inv(cfg, w) && tp in w.workers && Busy(w.workers[tp].pc)
    ensures var pc, log := w.workers[tp].pc, Log(w.sh.broker, tp);
      && 0 <= pc.job.offset < |log| && pc.job == MessageAt(log, pc.job.offset)
      && (pc.Claiming? || pc.Asking? ==> forall c :: c in CallsOf(w, tp) ==> c.offset < pc.job.offset)
  {
    hide OriginSound, OriginComplete, OriginInjective, NothingLost, Justified, RoutingOk, LifeBehind, DrainOk,
      RoutedBelowCommitted;
    assert PartInv(cfg, SliceOf(w, tp));
    assert LogOk(Log(w.sh.broker, tp), tp);
    JobOffset(SliceOf(w, tp), tp);
  }

  // ---- a busy worker ----

  /** What is routed reads back as the message that was on its way. */
  lemma RoutedMessage(cfg: Config, perKey: bool, sh: Shared, pc: PC, c: Choice)
    requires pc.RoutingOut? && RoutingOk(cfg, pc) && WellFormed(sh.broker) && cfg.groupID != ""
    requires RouteStep(cfg, perKey, sh, pc, c).event.Routed? && pc.out.id == Get(pc.out.headers, MESSAGE_ID)
    ensures var e := RouteStep(cfg, perKey, sh, pc, c); var d := e.event.dst;
      InLog(e.sh.broker, d) && MessageOf(e.sh.broker, d) == pc.out.(partition := d.tp.partition, offset := d.offset)
  {
    hide Append, ApplyTxn, Destination;
    var b := sh.broker;
    if pc.stage.PublishApply? {
      AppendFacts(b, RecordWith(pc.out, c.headers), 0);
      ReadsBack(b, pc.out, c.headers);
    } else {
      ApplyOne(b, pc.txn);
      ReadsBack(b, pc.out, pc.txn.publishes[0].headers);
    }
  }

  lemma ReadsBack(b: BrokerState, out: Message, hs: seq<Header>)
    requires Lists(hs, out.headers) && out.id == Get(out.headers, MESSAGE_ID)
    ensures var d := Destination(b, RecordWith(out, hs));
      MessageFromRecord(StoredRecord(b, RecordWith(out, hs))) == out.(partition := d.partition, offset := |Log(b, d)|)
  {
    var r := StoredRecord(b, RecordWith(out, hs));
    var placed := out.(partition := r.partition, offset := r.offset);
    ConversionRoundTrip(placed, hs);
    assert RecordWith(placed, hs) == r;
  }

  lemma OutIsCopy(cfg: Config, src: Message, out: Message)
    requires RoutedAs(cfg, src, out)
    ensures out.id == Get(out.headers, MESSAGE_ID)
  {
    hide AttachRetry, LookupOk;
  }

  /** Where a record is put does not matter to what it is. */
  lemma PlacedAs(cfg: Config, src: Message, out: Message, partition: int, offset: int)
    requires RoutedAs(cfg, src, out)
    ensures RoutedAs(cfg, src, out.(partition := partition, offset := offset))
  {
    hide RetryMessage, LookupOk;
    var m := out.(partition := partition, offset := offset);
    var logical :| LookupOk(cfg, src, Some(logical))
      && (|| (exists err :: RetriedAs(cfg, src, out, logical, err))
          || (exists attempt, err :: BuriedAs(cfg, src, out, logical, attempt, err)));
    if err :| RetriedAs(cfg, src, out, logical, err) {
      assert RetriedAs(cfg, src, m, logical, err);
    } else {
      var attempt, err :| BuriedAs(cfg, src, out, logical, attempt, err);
      assert BuriedAs(cfg, src, m, logical, attempt, err);
    }
  }

  /** The acting worker's own partition. */
  ghost predicate OwnTimed(cfg: Config, w: World, tp: TP, e: Effect)
    requires tp in w.workers && Busy(w.workers[tp].pc)
  {
    var pc, routed := w.workers[tp].pc, RoutedOf(w, tp);
    && w.sh.clock <= e.sh.clock
    && PcTimed(cfg, e.pc, Busy(e.pc) && pc.job.offset in routed, e.sh.clock,
               ApplyToCalls(CallsOf(w, tp), e, pc.job.offset))
    && CallsTimed(cfg, Log(w.sh.broker, tp), routed, e.sh.clock, ApplyToCalls(CallsOf(w, tp), e, pc.job.offset))
    && (Busy(e.pc) ==> e.pc.job == pc.job)
    && (e.event.Routed? ==> pc.RoutingOut?)
  }

  lemma HandlerOwnTimed(cfg: Config, w: World, tp: TP, c: Choice)
    requires BusyMove(cfg, w, tp, c) && Timed(cfg, w) && InHandlerPhase(w.workers[tp].pc)
    ensures OwnTimed(cfg, w, tp, HandlerStep(cfg, w.workers[tp].perKey, Later(w.sh, c), w.workers[tp].pc, c))
  {
    hide Inv, HandlerStep, PcTimed, CallsTimed, MovesInTime, RoutedOf, LogsGrow, WellFormed, HandlerOutcome;
    var wk, sh := w.workers[tp], Later(w.sh, c);
    var pc, calls, copy := wk.pc, CallsOf(w, tp), wk.pc.job.offset in RoutedOf(w, tp);
    var e := HandlerStep(cfg, wk.perKey, sh, pc, c);
    assert PartTimed(cfg, w, tp);
    JobPlace(cfg, w, tp);
    PlaceGrows(cfg, pc, copy, w.sh.clock, sh.clock, calls);
    PlaceReady(cfg, pc, copy, sh.clock, calls);
    HandlerInTime(cfg, wk.perKey, sh, pc, c);
    HandlerPlace(cfg, sh, pc, e, copy, calls);
    HandlerCallsTimed(cfg, sh, pc, e, Log(w.sh.broker, tp), RoutedOf(w, tp), w.sh.clock, calls);
    InTimeShape(cfg, sh, pc, e);
    BusyJob(cfg, w, tp, c);
    HandlerStepOutcome(cfg, wk.perKey, sh, pc, c);
    HandlerSameBroker(cfg, wk.perKey, sh, pc, e);
    if !Busy(e.pc) { IdleTimed(cfg, e.pc, e.sh.clock, ApplyToCalls(calls, e, pc.job.offset)); }
  }

  lemma PlaceReady(cfg: Config, pc: PC, copy: bool, clock: Time, calls: seq<Call>)
    requires PcTimed(cfg, pc, copy, clock, calls)
    ensures Found(cfg, pc) && (PastWait(pc) ==> DueBy(pc.job, clock))
    ensures pc.RoutingOut? ==>
      RoutedAs(cfg, pc.job, pc.out) && 0 <= pc.out.timestamp <= clock && (copy ==> pc.job.timestamp <= pc.out.timestamp)
  {
    hide RoutedAs, Found, DueBy, LookupOk;
  }

  lemma InTimeShape(cfg: Config, sh: Shared, pc: PC, e: Effect)
    requires InHandlerPhase(pc) && MovesInTime(cfg, sh, pc, e)
    ensures e.sh.clock == sh.clock && (Busy(e.pc) ==> e.pc.job == pc.job)
  {
    hide RoutedAs, Found, DueBy, LookupOk;
  }

  lemma RouteOwnTimed(cfg: Config, w: World, tp: TP, c: Choice)
    requires BusyMove(cfg, w, tp, c) && Timed(cfg, w) && (w.workers[tp].pc.RoutingOut? || w.workers[tp].pc.Committing?)
    ensures OwnTimed(cfg, w, tp, BusyStep(cfg, w.workers[tp].perKey, w.sh, w.workers[tp].pc, c))
  {
    hide Inv, HandlerStep, RouteStep, CommitStep, CallsTimed, RoutedOf, LogsGrow, WellFormed, RoutedAs, Found, DueBy,
      LookupOk, OffsetRaised,
      RoutingOk, RetriesInPlace, SliceOf;
    var wk, sh := w.workers[tp], Later(w.sh, c);
    var pc, calls, copy := wk.pc, CallsOf(w, tp), wk.pc.job.offset in RoutedOf(w, tp);
    InvWellFormed(cfg, w);
    assert PartTimed(cfg, w, tp);
    BusyJob(cfg, w, tp, c);
    if pc.RoutingOut? {
      PartRouting(cfg, SliceOf(w, tp));
      RouteStepOutcome(cfg, wk.perKey, sh, pc, c);
    } else {
      CommitStepOutcome(cfg, wk.perKey, sh, pc);
    }
    QuietFound(cfg);
    CallsGrow(cfg, Log(w.sh.broker, tp), Log(w.sh.broker, tp), RoutedOf(w, tp), RoutedOf(w, tp), w.sh.clock, sh.clock,
              calls);
  }

  lemma QuietFound(cfg: Config)
    ensures forall pc: PC :: pc.RoutingOut? || pc.Committing? || !Busy(pc) ==> Found(cfg, pc)
  {
    hide LookupOk;
  }

  /** What a routing action stores, and where its source is. */
  lemma RouteReads(cfg: Config, w: World, tp: TP, c: Choice)
    requires BusyMove(cfg, w, tp, c) && w.workers[tp].pc.RoutingOut?
    requires RoutedAs(cfg, w.workers[tp].pc.job, w.workers[tp].pc.out)
    ensures WellFormed(w.sh.broker)
    ensures var wk := w.workers[tp]; var e := BusyStep(cfg, wk.perKey, w.sh, wk.pc, c);
      var b, src := e.sh.broker, Pos(tp, wk.pc.job.offset);
      e.event.Routed? ==>
        var d := e.event.dst;
        && InLog(b, d) && InLog(b, src) && MessageOf(b, src) == wk.pc.job
        && MessageOf(b, d) == wk.pc.out.(partition := d.tp.partition, offset := d.offset)
  {
    hide Inv, RouteStep, WellFormed, RoutedAs, RoutingOk, SliceOf, MessageFromRecord;
    var wk, sh := w.workers[tp], Later(w.sh, c);
    InvWellFormed(cfg, w);
    if BusyStep(cfg, wk.perKey, w.sh, wk.pc, c).event.Routed? {
      BusyJob(cfg, w, tp, c);
      PartRouting(cfg, SliceOf(w, tp));
      OutIsCopy(cfg, wk.pc.job, wk.pc.out);
      RoutedMessage(cfg, wk.perKey, sh, wk.pc, c);
      BusyFrame(cfg, w, tp, c);
      JobPlace(cfg, w, tp);
      assert Log(w.sh.broker, tp) <= Log(RouteStep(cfg, wk.perKey, sh, wk.pc, c).sh.broker, tp);
    }
  }

  /** A routed record is stamped with a time that has passed, after its source was due and,
      if that is a copy itself, after that one was routed. */
  lemma RouteCopyTimed(cfg: Config, w: World, tp: TP, c: Choice)
    requires BusyMove(cfg, w, tp, c) && Timed(cfg, w) && w.workers[tp].pc.RoutingOut?
    ensures var wk := w.workers[tp]; var e := BusyStep(cfg, wk.perKey, w.sh, wk.pc, c);
      e.event.Routed? ==> CopyTimed(cfg, AfterEffect(w, tp, wk, e), e.event.dst)
  {
    hide Inv, BusyStep, PcTimed, CallsTimed, WellFormed, RoutedAs, MessageFromRecord, ApplyToHist, ApplyToCalls,
      ApplyToLife, LogsGrow, GroupOffset;
    var pc, copy := w.workers[tp].pc, w.workers[tp].pc.job.offset in RoutedOf(w, tp);
    InvWellFormed(cfg, w);
    var e := BusyStep(cfg, w.workers[tp].perKey, w.sh, pc, c);
    if e.event.Routed? {
      assert PartTimed(cfg, w, tp);
      PlaceReady(cfg, pc, copy, w.sh.clock, CallsOf(w, tp));
      RouteReads(cfg, w, tp, c);
      PlacedAs(cfg, pc.job, pc.out, e.event.dst.tp.partition, e.event.dst.offset);
      BusyFrame(cfg, w, tp, c);
      JobPlace(cfg, w, tp);
      NewPosition(cfg, w, tp, c);
    }
  }

  /** The new position is the end of a log: no source, no job and no call has it. */
  lemma NewPosition(cfg: Config, w: World, tp: TP, c: Choice)
    requires BusyMove(cfg, w, tp, c)
    ensures var wk := w.workers[tp]; var e := BusyStep(cfg, wk.perKey, w.sh, wk.pc, c);
      e.event.Routed? ==> e.event.dst.offset == |Log(w.sh.broker, e.event.dst.tp)|
  {
    hide PartInv, MessageFromRecord, WellFormed, SameMessage, BusyStep, OriginComplete, OriginSound, OriginInjective;
    BusyFreshCopy(cfg, w, tp, c);
  }

  lemma OldCopiesStay(cfg: Config, w: World, w': World, d: Pos)
    requires d in w.origin && CopyTimed(cfg, w, d) && d in w'.origin && w'.origin[d] == w.origin[d]
    requires LogsGrow(w.sh.broker, w'.sh.broker) && w.sh.clock <= w'.sh.clock
    requires forall p: Pos :: p in w'.origin && 0 <= p.offset < |Log(w.sh.broker, p.tp)| ==> p in w.origin
    ensures CopyTimed(cfg, w', d)
  {
    hide RoutedAs, MessageFromRecord;
    assert Log(w.sh.broker, d.tp) <= Log(w'.sh.broker, d.tp);
    assert Log(w.sh.broker, w.origin[d].tp) <= Log(w'.sh.broker, w.origin[d].tp);
  }

  lemma BusyOwnTimed(cfg: Config, w: World, tp: TP, c: Choice)
    requires BusyMove(cfg, w, tp, c) && Timed(cfg, w)
    ensures OwnTimed(cfg, w, tp, BusyStep(cfg, w.workers[tp].perKey, w.sh, w.workers[tp].pc, c))
  {
    hide Inv, Timed, OwnTimed, HandlerStep, RouteStep, CommitStep, WellFormed;
    var pc := w.workers[tp].pc;
    if pc.RoutingOut? || pc.Committing? {
      RouteOwnTimed(cfg, w, tp, c);
    } else {
      HandlerOwnTimed(cfg, w, tp, c);
      InvWellFormed(cfg, w);
    }
  }

  /** From the acting worker's own slice to its partition. */
  lemma OwnPart(cfg: Config, w: World, tp: TP, wk: Worker, e: Effect)
    requires Inv(cfg, w) && tp in w.workers && w.workers[tp] == wk && Busy(wk.pc) && OwnTimed(cfg, w, tp, e)
    requires EffectFrame(cfg, w.sh, tp, e)
    requires e.event.Routed? ==> e.event.dst.offset == |Log(w.sh.broker, e.event.dst.tp)|
    ensures PartTimed(cfg, AfterEffect(w, tp, wk, e), tp)
  {
    hide Inv, PcTimed, CallsTimed, WellFormed, ApplyToHist, ApplyToLife, ApplyToCalls, MessageFromRecord;
    var w' := AfterEffect(w, tp, wk, e);
    var calls := ApplyToCalls(CallsOf(w, tp), e, wk.pc.job.offset);
    JobPlace(cfg, w, tp);
    assert Log(w.sh.broker, tp) <= Log(w'.sh.broker, tp);
    assert forall o :: 0 <= o < |Log(w.sh.broker, tp)| ==> (o in RoutedOf(w', tp) <==> o in RoutedOf(w, tp)) by {
      forall o | 0 <= o < |Log(w.sh.broker, tp)| ensures o in RoutedOf(w', tp) <==> o in RoutedOf(w, tp) {
        assert Pos(tp, o) in w'.origin <==> Pos(tp, o) in w.origin;
        assert o in RoutedOf(w', tp) <==> Pos(tp, o) in w'.origin;
        assert o in RoutedOf(w, tp) <==> Pos(tp, o) in w.origin;
      }
    }
    CallsGrow(cfg, Log(w.sh.broker, tp), Log(w'.sh.broker, tp), RoutedOf(w, tp), RoutedOf(w', tp), e.sh.clock,
              e.sh.clock, calls);
    assert CallsOf(w', tp) == calls && w'.workers[tp].pc == e.pc;
  }

  lemma BusyKeepsTimed(cfg: Config, w: World, tp: TP, c: Choice)
    requires BusyMove(cfg, w, tp, c) && Timed(cfg, w)
    ensures var wk := w.workers[tp]; Timed(cfg, AfterEffect(w, tp, wk, BusyStep(cfg, wk.perKey, w.sh, wk.pc, c)))
  {
    hide Inv, BusyStep, WellFormed, PartTimed, CopyTimed, OwnTimed, ApplyToHist, ApplyToLife, ApplyToCalls, PcTimed,
      CallsTimed, MessageFromRecord;
    var wk := w.workers[tp];
    InvWellFormed(cfg, w);
    var e := BusyStep(cfg, wk.perKey, w.sh, wk.pc, c);
    var w' := AfterEffect(w, tp, wk, e);
    BusyFrame(cfg, w, tp, c);
    NewPosition(cfg, w, tp, c);
    BusyOwnTimed(cfg, w, tp, c);
    OwnPart(cfg, w, tp, wk, e);
    OwnClock(cfg, w, tp, e);
    forall q ensures PartTimed(cfg, w', q) {
      if q != tp {
        assert Log(w.sh.broker, q) <= Log(w'.sh.broker, q);
        PartGoesOn(cfg, w, w', q);
      }
    }
    forall d | d in w'.origin ensures CopyTimed(cfg, w', d) {
      if e.event.Routed? && d == e.event.dst { RouteCopyTimed(cfg, w, tp, c); } else { OldCopiesStay(cfg, w, w', d); }
    }
  }

  lemma OwnClock(cfg: Config, w: World, tp: TP, e: Effect)
    requires tp in w.workers && Busy(w.workers[tp].pc) && OwnTimed(cfg, w, tp, e)
    ensures w.sh.clock <= e.sh.clock && (e.event.Routed? ==> w.workers[tp].pc.RoutingOut?)
  {
    hide PcTimed, CallsTimed;
  }

  // ---- everybody else ----

  ghost predicate AllGoOn(w: World, w': World) {
    && w'.origin == w.origin && w'.sh.clock == w.sh.clock && LogsGrow(w.sh.broker, w'.sh.broker)
    && forall tp :: TimeGoesOn(w, w', tp)
  }

  lemma OthersKeepTimed(cfg: Config, w: World, w': World)
    requires Inv(cfg, w) && Timed(cfg, w) && AllGoOn(w, w')
    ensures Timed(cfg, w')
  {
    hide Inv, PartTimed, CopyTimed, TimeGoesOn;
    forall tp ensures PartTimed(cfg, w', tp) { PartGoesOn(cfg, w, w', tp); }
    forall d | d in w'.origin ensures CopyTimed(cfg, w', d) { OldCopiesStay(cfg, w, w', d); }
  }

  lemma QuietGoesOn(cfg: Config, w: World, l: Label)
    requires Inv(cfg, w) && cfg.groupID != ""
    requires !(l.Work? && w.live && l.tp in w.workers && Busy(w.workers[l.tp].pc))
    ensures WellFormed(w.sh.broker) && AllGoOn(w, Step(cfg, w, l))
  {
    hide Inv, Step, WellFormed, BusyStep, WorkStep, PollStep, EnqueueStep, FlagStep, OutsideEffect, LogsGrow;
    InvWellFormed(cfg, w);
    StepIs(cfg, w, l);
    if IsOutside(l) {
      OutsideMoves(cfg, w, l);
      SameWorkersGoOn(w, Step(cfg, w, l));
    } else if IsFlag(l) {
      FlagMoves(cfg, w, l);
      FlagClock(w, l);
      SameWorkersGoOn(w, FlagStep(w, l));
    } else if l.Work? {
      IdleGoesOn(cfg, w, l.tp, l.choice);
    } else if l.Stop? || l.Restart? {
      StopGoesOn(cfg, w, l);
    } else {
      DispatchGoesOn(cfg, w, l);
    }
  }

  lemma FlagClock(w: World, l: Label)
    requires IsFlag(l)
    ensures FlagStep(w, l).sh.clock == w.sh.clock
  {
  }

  lemma SameWorkersGoOn(w: World, w': World)
    requires w'.workers == w.workers && w'.calls == w.calls && w'.origin == w.origin && w'.sh.clock == w.sh.clock
    requires LogsGrow(w.sh.broker, w'.sh.broker)
    ensures AllGoOn(w, w')
  {
    hide MessageFromRecord;
    forall tp ensures TimeGoesOn(w, w', tp) { assert Log(w.sh.broker, tp) <= Log(w'.sh.broker, tp); }
  }

  lemma IdleGoesOn(cfg: Config, w: World, tp: TP, c: Choice)
    requires Inv(cfg, w) && !(w.live && tp in w.workers && Busy(w.workers[tp].pc))
    ensures WellFormed(w.sh.broker) && AllGoOn(w, WorkStep(cfg, w, tp, c))
  {
    hide Inv, WorkStep, WellFormed, MessageFromRecord, Log;
    InvWellFormed(cfg, w);
    var w' := WorkStep(cfg, w, tp, c);
    if w' != w {
      var wk := IdleShape(cfg, w, tp, c);
      if w.workers[tp].queue != [] { QueuedJob(cfg, w, tp); }
    }
  }

  /** The next job of a channel is a record of the log. */
  lemma QueuedJob(cfg: Config, w: World, tp: TP)
    requires Inv(cfg, w) && tp in w.workers && w.workers[tp].queue != []
    ensures var m, log := w.workers[tp].queue[0], Log(w.sh.broker, tp);
      0 <= m.offset < |log| && m == MessageAt(log, m.offset)
  {
    hide OriginSound, OriginComplete, OriginInjective, NothingLost, Justified, RoutingOk, LifeBehind, DrainOk,
      RoutedBelowCommitted, CallsBehind;
    var s := SliceOf(w, tp);
    assert PartInv(cfg, s) && LogOk(Log(w.sh.broker, tp), tp);
    assert s.wk.queue[0] == MessageAt(s.log, QueueBase(s));
    assert s.log[QueueBase(s)].rec.offset == QueueBase(s);
  }

  lemma StopGoesOn(cfg: Config, w: World, l: Label)
    requires Inv(cfg, w) && (l.Stop? || l.Restart?)
    ensures WellFormed(w.sh.broker) && AllGoOn(w, Step(cfg, w, l))
  {
    hide PartInv, OriginSound, OriginComplete, OriginInjective, WellFormed, MessageFromRecord;
    forall tp ensures Log(Step(cfg, w, l).sh.broker, tp) == Log(w.sh.broker, tp) {}
  }

  lemma DispatchGoesOn(cfg: Config, w: World, l: Label)
    requires Inv(cfg, w) && (l.Poll? || l.Enqueue?)
    ensures WellFormed(w.sh.broker) && AllGoOn(w, Step(cfg, w, l))
  {
    hide Inv, Step, PollStep, EnqueueStep, WellFormed, MessageFromRecord, SliceOf, Log;
    InvWellFormed(cfg, w);
    StepIs(cfg, w, l);
    var w' := Step(cfg, w, l);
    if w' != w {
      if l.Poll? {
        PollClock(w);
      } else {
        var m, wk := EnqueueShape(cfg, w, l.ordering);
      }
    }
  }

  lemma PollClock(w: World)
    ensures var w' := PollStep(w);
      && w'.origin == w.origin && w'.sh.clock == w.sh.clock && w'.sh.broker == w.sh.broker && w'.calls == w.calls
      && w'.workers == w.workers
  {
    hide PollTarget, MessageFromRecord;
  }

  // ---- every run ----

  lemma StepKeepsTimed(cfg: Config, w: World, l: Label)
    requires Inv(cfg, w) && cfg.groupID != "" && Timed(cfg, w)
    ensures WellFormed(w.sh.broker) && Timed(cfg, Step(cfg, w, l))
  {
    hide Inv, Step, WellFormed, BusyStep, AfterEffect, Timed, AllGoOn;
    InvWellFormed(cfg, w);
    if l.Work? && w.live && l.tp in w.workers && Busy(w.workers[l.tp].pc) {
      BusyKeepsTimed(cfg, w, l.tp, l.choice);
      BusyIsStep(cfg, w, l);
    } else {
      QuietGoesOn(cfg, w, l);
      OthersKeepTimed(cfg, w, Step(cfg, w, l));
    }
  }

  lemma BusyIsStep(cfg: Config, w: World, l: Label)
    requires WellFormed(w.sh.broker) && l.Work? && w.live && l.tp in w.workers && Busy(w.workers[l.tp].pc)
    ensures var wk := w.workers[l.tp]; Step(cfg, w, l) == AfterEffect(w, l.tp, wk,
                                                                      BusyStep(cfg, wk.perKey, w.sh, wk.pc, l.choice))
  {
    hide WellFormed, BusyStep, AfterEffect;
  }

  lemma {:induction false} RunTimed(cfg: Config, labels: seq<Label>)
    requires cfg.groupID != ""
    ensures Timed(cfg, Run(cfg, labels))
  {
    hide Inv, Step, Run, Timed;
    if labels == [] {
      RunStart(cfg);
      StartTimed(cfg);
    } else {
      var init := labels[..|labels| - 1];
      RunStep(cfg, labels);
      RunInv(cfg, init);
      RunTimed(cfg, init);
      StepKeepsTimed(cfg, Run(cfg, init), labels[|labels| - 1]);
    }
  }

  lemma StartTimed(cfg: Config)
    ensures Timed(cfg, StartWorld(cfg))
  {
  }

  /** In every run no handler call begins before its message's time, and of two consecutive
      calls of a partition the later does not begin earlier; if they are on the same message
      it is the next attempt in place, and the handler's backoff for it has passed. */
  lemma NothingStartsEarly(cfg: Config, labels: seq<Label>, tp: TP, i: int)
    requires cfg.groupID != "" && 0 <= i < |CallsOf(Run(cfg, labels), tp)|
    ensures var w := Run(cfg, labels); var calls, log := CallsOf(w, tp), Log(w.sh.broker, tp);
      && 0 <= calls[i].offset < |log| && calls[i].at <= w.sh.clock
      && DueBy(MessageAt(log, calls[i].offset), calls[i].at)
      && (i > 0 ==> calls[i - 1].at <= calls[i].at && Spaced(cfg, MessageAt(log, calls[i].offset), calls[i - 1],
                                                             calls[i]))
  {
    hide Run, LookupOk, RoutedAs, MessageFromRecord, RetriesInPlace, DueBy;
    RunTimed(cfg, labels);
    var w := Run(cfg, labels);
    assert PartTimed(cfg, w, tp);
    assert CallTimed(Log(w.sh.broker, tp), RoutedOf(w, tp), w.sh.clock, CallsOf(w, tp)[i]);
  }

  /** Every routed record, in every run, is exactly what retryMessage makes of its source for
      the handler found for it: the retry, with that attempt's backoff, or the dead letter. It
      was made no earlier than its source was due, and no earlier than its source was routed. */
  lemma RoutedRecordsAreHops(cfg: Config, labels: seq<Label>, d: Pos)
    requires cfg.groupID != "" && d in Run(cfg, labels).origin
    ensures var w := Run(cfg, labels); CopyTimed(cfg, w, d)
  {
    hide Run;
    RunTimed(cfg, labels);
  }

  // ---- chains of retries ----

  /** Each position holds the next retry, for the handler of `logical`, of the one before. */
  ghost predicate Chain(cfg: Config, w: World, logical: string, ds: seq<Pos>) {
    && |ds| >= 2 && InLog(w.sh.broker, ds[0])
    && (forall i :: 0 < i < |ds| ==> ds[i] in w.origin && w.origin[ds[i]] == ds[i - 1] && InLog(w.sh.broker, ds[i]))
    && (forall i :: 0 < i < |ds| ==> MessageOf(w.sh.broker, ds[i]).topic != cfg.namer.dlq(logical))
    && (forall i,
        found :: 0 <= i < |ds| - 1 && LookupOk(cfg, MessageOf(w.sh.broker, ds[i]), found) ==> found == Some(logical))
  }

  /** The hop from one position of a chain to the next. */
  function HopTo(cfg: Config, logical: string, src: Message, m: Message, hs: seq<Header>, err: string): Hop {
    Hop(m.topic, err, DelayFor(cfg, logical, src.RetryAttempt() + 1), m.timestamp, hs, m.partition, m.offset)
  }

  lemma HopOf(cfg: Config, src: Message, m: Message, logical: string, err: string) returns (h: Hop)
    requires RetriedAs(cfg, src, m, logical, err)
    ensures HopLeads(cfg, logical, src, m, h)
  {
    hide AttachRetry;
    var hs := SomeListing(m.headers);
    h := HopTo(cfg, logical, src, m, hs, err);
    var out := Outgoing(src, h);
    assert m == out.(partition := m.partition, offset := m.offset);
    ConversionRoundTrip(m, hs);
    assert RecordWith(m, hs) == RecordWith(out, hs).(partition := m.partition, offset := m.offset);
  }

  /** What a chain's link is. */
  lemma LinkIsRetry(cfg: Config, w: World, logical: string, ds: seq<Pos>, i: int) returns (err: string)
    requires Timed(cfg, w) && Chain(cfg, w, logical, ds) && 0 < i < |ds|
    ensures var src, m := MessageOf(w.sh.broker, ds[i - 1]), MessageOf(w.sh.broker, ds[i]);
      && RetriedAs(cfg, src, m, logical, err) && DueBy(src, m.timestamp) && 0 <= m.timestamp <= w.sh.clock
      && (i > 1 ==> src.timestamp <= m.timestamp)
  {
    hide LookupOk, RetriesInPlace, AttachRetry, MessageFromRecord, DueBy, PartTimed;
    assert CopyTimed(cfg, w, ds[i]);
    var src, m := MessageOf(w.sh.broker, ds[i - 1]), MessageOf(w.sh.broker, ds[i]);
    var l :| LookupOk(cfg, src, Some(l))
      && ((exists e :: RetriedAs(cfg, src, m, l, e)) || (exists a, e :: BuriedAs(cfg, src, m, l, a, e)));
    assert Some(l) == Some(logical);
    forall a, e ensures !BuriedAs(cfg, src, m, l, a, e) {}
    err :| RetriedAs(cfg, src, m, l, err);
  }

  /** The hop after which `src` is `m`. */
  ghost predicate HopLeads(cfg: Config, logical: string, src: Message, m: Message, h: Hop) {
    && HopOk(src, h) && AfterHop(src, h) == m && h.now == m.timestamp && h.dest == m.topic
    && h.delay == DelayFor(cfg, logical, src.RetryAttempt() + 1)
  }

  ghost predicate HopsLead(cfg: Config, logical: string, ms: seq<Message>, hops: seq<Hop>) {
    |ms| == |hops| + 1 && forall i :: 0 <= i < |hops| ==> HopLeads(cfg, logical, ms[i], ms[i + 1], hops[i])
  }

  lemma {:induction false} HopsArrive(cfg: Config, logical: string, ms: seq<Message>, hops: seq<Hop>, k: nat)
    requires HopsLead(cfg, logical, ms, hops) && k <= |hops|
    ensures AfterHops(ms[0], hops[..k]) == ms[k]
    decreases k
  {
    hide AfterHop, HopOk;
    if k > 0 {
      HopsArrive(cfg, logical, ms, hops, k - 1);
      assert hops[..k][..k - 1] == hops[..k - 1];
      assert HopLeads(cfg, logical, ms[k - 1], ms[k], hops[k - 1]);
    }
  }

  function MessagesOf(b: BrokerState, ds: seq<Pos>): seq<Message>
    requires forall i :: 0 <= i < |ds| ==> 0 <= ds[i].offset < |Log(b, ds[i].tp)|
  {
    seq(|ds|, i requires 0 <= i < |ds| => MessageOf(b, ds[i]))
  }

  /** A chain's messages lead from one to the next by hops of their own times. */
  lemma {:induction false} ChainHops(cfg: Config, w: World, logical: string, ds: seq<Pos>, k: nat)
    returns (hops: seq<Hop>)
    requires Timed(cfg, w) && Chain(cfg, w, logical, ds) && k < |ds|
    requires forall i :: 0 <= i < |ds| ==> InLog(w.sh.broker, ds[i])
    ensures |hops| == k && HopsLead(cfg, logical, MessagesOf(w.sh.broker, ds)[..k + 1], hops)
    decreases k
  {
    hide AfterHop, HopOk, RetriedAs, MessageFromRecord, DelayFor, Timed, Chain;
    if k == 0 {
      hops := [];
    } else {
      var init := ChainHops(cfg, w, logical, ds, k - 1);
      var err := LinkIsRetry(cfg, w, logical, ds, k);
      var h := HopOf(cfg, MessageOf(w.sh.broker, ds[k - 1]), MessageOf(w.sh.broker, ds[k]), logical, err);
      hops := init + [h];
    }
  }

  lemma AttemptCounts(cfg: Config, src: Message, m: Message, logical: string, err: string)
    requires RetriedAs(cfg, src, m, logical, err) && MaxFor(cfg, logical) <= MAX_INT64
    ensures m.RetryAttempt() == src.RetryAttempt() + 1 <= MAX_INT64
    ensures m.topic == cfg.namer.retry(logical, src.RetryAttempt() + 1)
  {
    hide AttachRetry;
    AttemptInRange(src);
    AttachStampsAttempt(src, m.timestamp, src.RetryAttempt() + 1, Some(err),
                        DelayFor(cfg, logical, src.RetryAttempt() + 1));
  }

  /** Attempts count up along a chain. */
  lemma {:induction false} ChainAttempts(cfg: Config, w: World, logical: string, ds: seq<Pos>, k: nat)
    requires Timed(cfg, w) && Chain(cfg, w, logical, ds) && k < |ds| && MaxFor(cfg, logical) <= MAX_INT64
    requires forall i :: 0 <= i < |ds| ==> InLog(w.sh.broker, ds[i])
    ensures MessageOf(w.sh.broker, ds[k]).RetryAttempt() == MessageOf(w.sh.broker, ds[0]).RetryAttempt() + k
    ensures k > 0 ==> MessageOf(w.sh.broker, ds[k]).RetryAttempt() <= MAX_INT64
    ensures k > 0 ==>
      MessageOf(w.sh.broker, ds[k]).topic == cfg.namer.retry(logical, MessageOf(w.sh.broker, ds[0]).RetryAttempt() + k)
    decreases k
  {
    hide RetriedAs, MessageFromRecord, Timed, Chain;
    if k > 0 {
      ChainAttempts(cfg, w, logical, ds, k - 1);
      var err := LinkIsRetry(cfg, w, logical, ds, k);
      AttemptCounts(cfg, MessageOf(w.sh.broker, ds[k - 1]), MessageOf(w.sh.broker, ds[k]), logical, err);
    }
  }

  /** The times along a chain: every attempt is over when the next retry is routed, and the
      last one starts with the call. */
  lemma ChainTimed(cfg: Config, w: World, logical: string, ds: seq<Pos>, hops: seq<Hop>, starts: seq<Time>, c: Call,
                   i: nat)
    requires Timed(cfg, w) && Chain(cfg, w, logical, ds) && logical in cfg.handlers && MaxFor(cfg, logical) <= MAX_INT64
    requires forall k :: 0 <= k < |ds| ==> InLog(w.sh.broker, ds[k])
    requires c in CallsOf(w, ds[|ds| - 1].tp) && c.offset == ds[|ds| - 1].offset
    requires forall n :: w.sh.clock + DelayFor(cfg, logical, n) <= MAX_INT64
    requires HopsLead(cfg, logical, MessagesOf(w.sh.broker, ds), hops) && |starts| == |hops|
    requires forall k :: 0 <= k < |hops| ==>
      starts[k] == if k < |hops| - 1 then MessageOf(w.sh.broker, ds[k + 2]).timestamp else c.at
    requires i < |hops|
    ensures TimedHop(MessageOf(w.sh.broker, ds[i]), hops[i], starts[i], cfg.BackoffsFor(cfg.handlers[logical]))
    ensures i > 0 ==> starts[i - 1] <= hops[i].now
  {
    hide RetriedAs, MessageFromRecord, Chain, AfterHop, HopOk, CopyTimed;
    var src, m := MessageOf(w.sh.broker, ds[i]), MessageOf(w.sh.broker, ds[i + 1]);
    var ms := MessagesOf(w.sh.broker, ds);
    assert HopLeads(cfg, logical, ms[i], ms[i + 1], hops[i]);
    var err := LinkIsRetry(cfg, w, logical, ds, i + 1);
    if i < |hops| - 1 {
      var err' := LinkIsRetry(cfg, w, logical, ds, i + 2);
    } else {
      CallOnCopy(cfg, w, logical, ds, c);
    }
  }

  lemma CallOnCopy(cfg: Config, w: World, logical: string, ds: seq<Pos>, c: Call)
    requires Timed(cfg, w) && Chain(cfg, w, logical, ds)
    requires c in CallsOf(w, ds[|ds| - 1].tp) && c.offset == ds[|ds| - 1].offset
    ensures InLog(w.sh.broker, ds[|ds| - 1])
    ensures var m := MessageOf(w.sh.broker, ds[|ds| - 1]); DueBy(m, c.at) && m.timestamp <= c.at
  {
    hide MessageFromRecord, DueBy, CopyTimed, LookupOk, RetriesInPlace;
    var d := ds[|ds| - 1];
    assert PartTimed(cfg, w, d.tp);
    var i :| 0 <= i < |CallsOf(w, d.tp)| && CallsOf(w, d.tp)[i] == c;
    assert CallTimed(Log(w.sh.broker, d.tp), RoutedOf(w, d.tp), w.sh.clock, CallsOf(w, d.tp)[i]);
    assert d in w.origin;
    assert d.offset in RoutedOf(w, d.tp);
  }

  /** The backoffs of a chain of retries add up, in every run: a call on the chain's last
      message begins no earlier than the first failure was routed, plus the backoffs of all
      the attempts in between, as long as times fit their headers. */
  lemma {:induction false} BackoffsAddUp(cfg: Config, labels: seq<Label>, logical: string, ds: seq<Pos>, c: Call)
    requires cfg.groupID != "" && logical in cfg.handlers && Chain(cfg, Run(cfg, labels), logical, ds)
    requires c in CallsOf(Run(cfg, labels), ds[|ds| - 1].tp) && c.offset == ds[|ds| - 1].offset
    requires (forall n :: cfg.namer.retry(logical, n) != "") && MaxFor(cfg, logical) <= MAX_INT64
    requires ds[0].tp.topic != ""
    requires forall n :: Run(cfg, labels).sh.clock + DelayFor(cfg, logical, n) <= MAX_INT64
    ensures var b := Run(cfg, labels).sh.broker;
      && InLog(b, ds[0]) && InLog(b, ds[1])
      && c.at >= MessageOf(b, ds[1]).timestamp
            + TotalBackoff(cfg.BackoffsFor(cfg.handlers[logical]), MessageOf(b, ds[0]).RetryAttempt(), |ds| - 1)
  {
    hide Run, Timed, Lifecycle.Timed, Chain, MessageFromRecord, HopsOk, DelayFor, MaxFor, TotalBackoff, WellFormed, Log;
    RunTimed(cfg, labels);
    var w := Run(cfg, labels);
    ChainLength(cfg, w, logical, ds);
    ChainInLog(cfg, w, logical, ds);
    FirstPolled(cfg, labels, ds[0]);
    var hops, starts := ChainIsTimed(cfg, w, logical, ds, c);
    StartsAfterBackoff(MessageOf(w.sh.broker, ds[0]), hops, starts, cfg.BackoffsFor(cfg.handlers[logical]));
  }

  lemma ChainIsTimed(cfg: Config, w: World, logical: string, ds: seq<Pos>, c: Call)
    returns (hops: seq<Hop>, starts: seq<Time>)
    requires Timed(cfg, w) && Chain(cfg, w, logical, ds) && logical in cfg.handlers && MaxFor(cfg, logical) <= MAX_INT64
    requires forall k :: 0 <= k < |ds| ==> InLog(w.sh.broker, ds[k])
    requires c in CallsOf(w, ds[|ds| - 1].tp) && c.offset == ds[|ds| - 1].offset
    requires (forall n :: w.sh.clock + DelayFor(cfg, logical, n) <= MAX_INT64)
    requires (forall n :: cfg.namer.retry(logical, n) != "")
    ensures |ds| >= 2
    ensures var m := MessageOf(w.sh.broker, ds[0]);
      && |hops| == |ds| - 1 == |starts| && HopsOk(m, hops) && (forall h :: h in hops ==> h.dest != "")
      && m.RetryAttempt() + |hops| <= MAX_INT64 && Lifecycle.Timed(m, hops, starts,
                                                                   cfg.BackoffsFor(cfg.handlers[logical]))
      && starts[|hops| - 1] == c.at && hops[0].now == MessageOf(w.sh.broker, ds[1]).timestamp
  {
    hide Timed, Chain, HopsLead, MessageFromRecord, AfterHop, AfterHops, RetriedAs, TimedHop, HopOk;
    ChainLength(cfg, w, logical, ds);
    var ms, n := MessagesOf(w.sh.broker, ds), |ds| - 1;
    hops := ChainHops(cfg, w, logical, ds, n);
    assert ms[..n + 1] == ms;
    starts := seq(n, i requires 0 <= i < n => if i < n - 1 then ms[i + 2].timestamp else c.at);
    forall i | 0 <= i < n
      ensures HopOk(AfterHops(ms[0], hops[..i]), hops[i]) && hops[i].dest != "" && hops[i].now == ms[i + 1].timestamp
      ensures TimedHop(AfterHops(ms[0], hops[..i]), hops[i], starts[i], cfg.BackoffsFor(cfg.handlers[logical]))
      ensures i > 0 ==> starts[i - 1] <= hops[i].now
    {
      HopsArrive(cfg, logical, ms, hops, i);
      ChainTimed(cfg, w, logical, ds, hops, starts, c, i);
      ChainAttempts(cfg, w, logical, ds, i + 1);
      LeadsOk(cfg, logical, ms, hops, i);
    }
    ChainAttempts(cfg, w, logical, ds, n);
  }

  lemma ChainLength(cfg: Config, w: World, logical: string, ds: seq<Pos>)
    requires Chain(cfg, w, logical, ds)
    ensures |ds| >= 2
  {
  }

  lemma LeadsOk(cfg: Config, logical: string, ms: seq<Message>, hops: seq<Hop>, i: nat)
    requires HopsLead(cfg, logical, ms, hops) && i < |hops|
    ensures HopOk(ms[i], hops[i]) && hops[i].dest == ms[i + 1].topic && hops[i].now == ms[i + 1].timestamp
  {
    assert HopLeads(cfg, logical, ms[i], ms[i + 1], hops[i]);
  }

  lemma FirstPolled(cfg: Config, labels: seq<Label>, d: Pos)
    requires InLog(Run(cfg, labels).sh.broker, d) && d.tp.topic != ""
    ensures AsPolled(MessageOf(Run(cfg, labels).sh.broker, d))
  {
    hide Run;
    assert LogOk(Log(Run(cfg, labels).sh.broker, d.tp), d.tp);
  }

  lemma ChainInLog(cfg: Config, w: World, logical: string, ds: seq<Pos>)
    requires Chain(cfg, w, logical, ds)
    ensures forall i :: 0 <= i < |ds| ==> InLog(w.sh.broker, ds[i])
  {
  }
}
