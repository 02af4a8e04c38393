/** What a handler is registered with decides what becomes of a message it fails: in every run
    and for every handler, whether the call is repeated in place or the message routed, where
    to, after how long a wait and with which attempt. */
module Strategy {
  import opened Wrappers
  import opened Decimal
  import opened Envelope
  import opened Config
  import opened Routing
  import opened Broker
  import opened Protocol
  import opened Safety
  import opened Runs
  import opened Exclusion
  import opened Guarantees
  import opened Drain
  import opened Timing
  import Claims
  import Losses
  import Lifecycle

  /** What counts for a handler: its own settings, and the consumer's for those it leaves open. */
  datatype Settings = Settings(ordering: Ordering, max: int, backoffs: seq<int>)

  function SettingsOf(cfg: Config, logical: string): Settings
    requires logical in cfg.handlers
  {
    var reg := cfg.handlers[logical];
    Settings(if reg.ordering.Some? then reg.ordering.value else cfg.ordering,
             if reg.maxRetries.Some? then reg.maxRetries.value else cfg.maxRetries,
             if reg.backoffs != [] then reg.backoffs else cfg.backoffs)
  }

  /** A handler's own settings take precedence, one by one. */
  lemma SettingsHold(cfg: Config, logical: string)
    requires logical in cfg.handlers
    ensures RetriesInPlace(cfg, logical) <==> SettingsOf(cfg, logical).ordering == OrderingPerPartition
    ensures MaxFor(cfg, logical) == SettingsOf(cfg, logical).max
    ensures forall n :: DelayFor(cfg, logical, n) == BackoffFor(SettingsOf(cfg, logical).backoffs, n)
  {
  }

  lemma FoundIsHandler(cfg: Config, m: Message, logical: string)
    requires LookupOk(cfg, m, Some(logical))
    ensures logical in cfg.handlers
  {
  }

  // ---- a failed message, action by action ----

  /** The copy on its way, as the message's next retry or as its dead letter. */
  predicate OnItsWay(pc: PC, job: Message, dest: string, attempt: int, err: string, delay: int, now: Time) {
    && pc.RoutingOut? && pc.stage.OutcomeCheck? && pc.job == job
    && pc.out == RetryMessage(job, dest, attempt, err, delay, now)
  }

  /** Routed to the next retry topic below the maximum; else to the dead-letter topic, or dropped. */
  predicate OverTopics(cfg: Config, s: Settings, job: Message, logical: string, err: string, now: Time, pc: PC) {
    var attempt := job.RetryAttempt();
    if attempt < s.max then
      OnItsWay(pc, job, cfg.namer.retry(logical, attempt + 1), attempt + 1, err, BackoffFor(s.backoffs, attempt + 1),
               now)
    else Buries(cfg, job, logical, attempt, err, now, pc)
  }

  predicate Buries(cfg: Config, job: Message, logical: string, attempt: int, err: string, now: Time, pc: PC) {
    if cfg.dlqEnabled then OnItsWay(pc, job, cfg.namer.dlq(logical), attempt, err, 0, now) else pc == ToCommit(job)
  }

  /** Where a message goes whose handler failed for the last time here. */
  predicate GivenUp(cfg: Config, s: Settings, job: Message, logical: string, attempt: int, err: string, now: Time,
                    pc: PC) {
    if s.ordering == OrderingPerPartition then Buries(cfg, job, logical, attempt, err, now, pc)
    else OverTopics(cfg, s, job, logical, err, now, pc)
  }

  lemma RouteIs(cfg: Config, sh: Shared, job: Message, logical: string, err: string)
    requires logical in cfg.handlers
    ensures OverTopics(cfg, SettingsOf(cfg, logical), job, logical, err, sh.clock,
                       Protocol.FailAndRoute(cfg, sh, job, logical, err, sh.clock).pc)
  {
    hide RetryMessage;
    SettingsHold(cfg, logical);
  }

  lemma AfterFailureIs(cfg: Config, sh: Shared, job: Message, logical: string, attempt: int, err: string)
    requires logical in cfg.handlers
    ensures GivenUp(cfg, SettingsOf(cfg, logical), job, logical, attempt, err, sh.clock,
                    AfterFailure(cfg, sh, job, logical, attempt, err).pc)
  {
    hide RetryMessage, Protocol.FailAndRoute, OverTopics;
    SettingsHold(cfg, logical);
    RouteIs(cfg, sh, job, logical, err);
  }

  /** The world after one more action of a busy worker. */
  lemma NextPC(cfg: Config, labels: seq<Label>, tp: TP, c: Choice)
    requires cfg.groupID != ""
    requires var w := Run(cfg, labels); w.live && tp in w.workers && Busy(w.workers[tp].pc)
    ensures var w := Run(cfg, labels); var wk := w.workers[tp]; var w' := Run(cfg, labels + [Work(tp, c)]);
      tp in w'.workers && w' == AfterEffect(w, tp, wk, BusyStep(cfg, wk.perKey, w.sh, wk.pc, c))
      && w'.workers[tp].pc == BusyStep(cfg, wk.perKey, w.sh, wk.pc, c).pc
    ensures Found(cfg, Run(cfg, labels).workers[tp].pc)
  {
    hide Run, Step, BusyStep, WellFormed, Timed, Found, ApplyToHist, ApplyToLife, ApplyToCalls;
    var all := labels + [Work(tp, c)];
    assert all[..|all| - 1] == labels;
    RunStep(cfg, all);
    BusyIsStep(cfg, Run(cfg, labels), Work(tp, c));
    RunTimed(cfg, labels);
    WorkerFound(cfg, Run(cfg, labels), tp);
  }

  lemma WorkerFound(cfg: Config, w: World, tp: TP)
    requires Timed(cfg, w) && tp in w.workers
    ensures Found(cfg, w.workers[tp].pc)
  {
    hide Found, CallsTimed, CopyTimed, RoutedAs, DueBy;
    assert PartTimed(cfg, w, tp);
  }

  /** In every run, when a handler call fails: a handler whose ordering is per partition, and
      whose attempts are not used up, is called again in place after the next attempt's backoff;
      any other goes on to the store's Fail, if there is a claim, or at once to its next retry
      topic, its dead-letter topic or nowhere. */
  lemma FailedCallGoes(cfg: Config, labels: seq<Label>, tp: TP, c: Choice)
    requires cfg.groupID != "" && c.failure.Some?
    requires var w := Run(cfg, labels); w.live && tp in w.workers && w.workers[tp].pc.Handling?
    ensures var w, w' := Run(cfg, labels), Run(cfg, labels + [Work(tp, c)]);
      var Handling(job, cur, logical, attempt, lease) := w.workers[tp].pc;
      && logical in cfg.handlers && tp in w'.workers
      && var s, next, now, pc' := SettingsOf(cfg, logical), attempt + 1, w.sh.clock + c.elapsed, w'.workers[tp].pc;
         if s.ordering == OrderingPerPartition && attempt < s.max then
           pc' == Sleeping(job, cur, logical, next, c.failure.value, lease, now + BackoffFor(s.backoffs, next))
         else if lease.Some? then pc' == Failing(job, logical, attempt, c.failure.value, lease.value)
         else GivenUp(cfg, s, job, logical, attempt, c.failure.value, now, pc')
  {
    hide Run, WellFormed, LookupOk, AfterFailure, GivenUp, MaxFor, DelayFor, RetriesInPlace, AfterEffect;
    var w := Run(cfg, labels);
    var pc := w.workers[tp].pc;
    NextPC(cfg, labels, tp, c);
    FoundIsHandler(cfg, pc.job, pc.logical);
    SettingsHold(cfg, pc.logical);
    AfterFailureIs(cfg, Later(w.sh, c), pc.job, pc.logical, pc.attempt, c.failure.value);
  }

  /** The call in place: at the end of the backoff, with the attempt and the error in its headers. */
  lemma SleptCallGoes(cfg: Config, labels: seq<Label>, tp: TP, c: Choice)
    requires cfg.groupID != "" && !c.stop
    requires var w := Run(cfg, labels); w.live && tp in w.workers && w.workers[tp].pc.Sleeping?
    ensures var w, w' := Run(cfg, labels), Run(cfg, labels + [Work(tp, c)]);
      var Sleeping(job, cur, logical, attempt, err, lease, until) := w.workers[tp].pc;
      var now := w.sh.clock + c.elapsed;
      && tp in w'.workers
      && if until <= now then
           && w'.workers[tp].pc.Handling? && w'.workers[tp].pc.job == job && w'.workers[tp].pc.logical == logical
           && w'.workers[tp].pc.attempt == attempt && w'.workers[tp].pc.lease == lease
           && w'.workers[tp].pc.cur == cur.(headers := AttachRetry(cur, now, attempt, Some(err), 0))
           && CallsOf(w', tp) == CallsOf(w, tp) + [Call(job.offset, attempt, now)]
         else w'.workers[tp].pc == w.workers[tp].pc && CallsOf(w', tp) == CallsOf(w, tp)
  {
    hide Run, WellFormed, LookupOk, AttachRetry, Found;
    NextPC(cfg, labels, tp, c);
  }

  /** The store's Fail, whether it errs or not, changes nothing about where the message goes. */
  lemma FailedVerdictGoes(cfg: Config, labels: seq<Label>, tp: TP, c: Choice)
    requires cfg.groupID != "" && cfg.store.Some?
    requires var w := Run(cfg, labels); w.live && tp in w.workers && w.workers[tp].pc.Failing?
    ensures var w, w' := Run(cfg, labels), Run(cfg, labels + [Work(tp, c)]);
      var Failing(job, logical, attempt, err, deadline) := w.workers[tp].pc;
      && logical in cfg.handlers && tp in w'.workers
      && GivenUp(cfg, SettingsOf(cfg, logical), job, logical, attempt, err, w.sh.clock + c.elapsed, w'.workers[tp].pc)
      && (if SettingsOf(cfg, logical).ordering == OrderingPerPartition then attempt >= SettingsOf(cfg, logical).max
          else attempt == job.RetryAttempt())
  {
    hide Run, WellFormed, LookupOk, AfterFailure, GivenUp, MaxFor, DelayFor, RetriesInPlace, AfterEffect;
    var w := Run(cfg, labels);
    var pc, sh := w.workers[tp].pc, Later(w.sh, c);
    NextPC(cfg, labels, tp, c);
    FoundIsHandler(cfg, pc.job, pc.logical);
    SettingsHold(cfg, pc.logical);
    AfterFailureIs(cfg, sh, pc.job, pc.logical, pc.attempt, pc.err);
    AfterFailureIs(cfg, sh.(items := sh.items[pc.job.id := Claims.FailedRec(cfg.store.value, cfg.ttl, sh.clock)]),
                   pc.job, pc.logical, pc.attempt, pc.err);
  }

  /** An error of the store's TryStart counts as a failed attempt over topics, whatever the ordering. */
  lemma StoreErrorGoes(cfg: Config, labels: seq<Label>, tp: TP, c: Choice)
    requires cfg.groupID != "" && cfg.store.Some? && c.storeError.Some?
    requires var w := Run(cfg, labels); w.live && tp in w.workers && w.workers[tp].pc.Asking?
    ensures var w, w' := Run(cfg, labels), Run(cfg, labels + [Work(tp, c)]);
      var Asking(job, logical, call) := w.workers[tp].pc;
      && logical in cfg.handlers && tp in w'.workers
      && OverTopics(cfg, SettingsOf(cfg, logical), job, logical, c.storeError.value, w.sh.clock + c.elapsed,
                    w'.workers[tp].pc)
  {
    hide Run, WellFormed, LookupOk, Protocol.FailAndRoute, OverTopics, AfterEffect;
    var w := Run(cfg, labels);
    var pc := w.workers[tp].pc;
    NextPC(cfg, labels, tp, c);
    FoundIsHandler(cfg, pc.job, pc.logical);
    RouteIs(cfg, Later(w.sh, c), pc.job, pc.logical, c.storeError.value);
  }

  // ---- calls ----

  /** Two calls on one message in one subscription: its handler's ordering is per partition, the
      later one is as many attempts on as there are calls between, and none exceeds the maximum. */
  lemma {:induction false} RecalledInPlace(cfg: Config, labels: seq<Label>, tp: TP, i: nat, j: nat)
    requires cfg.groupID != ""
    requires var calls := CallsOf(Run(cfg, labels), tp); i < j < |calls| && calls[i].offset == calls[j].offset
    ensures var w := Run(cfg, labels); var calls, log := CallsOf(w, tp), Log(w.sh.broker, tp);
      && 0 <= calls[i].offset < |log| && calls[j].attempt == calls[i].attempt + (j - i)
      && exists logical :: logical in cfg.handlers && LookupOk(cfg, MessageAt(log, calls[i].offset), Some(logical))
           && SettingsOf(cfg, logical).ordering == OrderingPerPartition
           && calls[j].attempt <= SettingsOf(cfg, logical).max
    decreases j - i
  {
    hide Run, LookupOk, MessageFromRecord, RetriesInPlace, DueBy, MaxFor, DelayFor, SettingsOf;
    CallsAreSequential(cfg, labels, tp);
    NothingStartsEarly(cfg, labels, tp, i);
    NothingStartsEarly(cfg, labels, tp, j);
    var w := Run(cfg, labels);
    var calls, log := CallsOf(w, tp), Log(w.sh.broker, tp);
    assert Before(calls[i], calls[j]);
    if i < j - 1 {
      assert Before(calls[i], calls[j - 1]) && Before(calls[j - 1], calls[j]);
      RecalledInPlace(cfg, labels, tp, i, j - 1);
    }
    assert Spaced(cfg, MessageAt(log, calls[j].offset), calls[j - 1], calls[j]);
    var logical :| LookupOk(cfg, MessageAt(log, calls[j].offset), Some(logical)) && RetriesInPlace(cfg, logical)
      && calls[j].attempt <= MaxFor(cfg, logical)
      && calls[j].at >= calls[j - 1].at + DelayFor(cfg, logical, calls[j].attempt);
    FoundIsHandler(cfg, MessageAt(log, calls[j].offset), logical);
    SettingsHold(cfg, logical);
  }

  // ---- routed records ----

  /** Why `m` was made of `src`: as its next retry by a handler that retries over topics, or by
      any after an error of the store; or as its dead letter, with the message's own attempt or,
      in place, one that was reached there. */
  predicate RoutedWith(cfg: Config, src: Message, m: Message, logical: string, attempt: int, err: string, erred: bool) {
    || (RetriedAs(cfg, src, m, logical, err) && (erred || !RetriesInPlace(cfg, logical)))
    || (BuriedAs(cfg, src, m, logical, attempt, err)
        && (RetriesInPlace(cfg, logical) || attempt == src.RetryAttempt()))
  }

  ghost predicate Reasoned(cfg: Config, src: Message, m: Message, erred: bool) {
    exists logical, attempt, err :: LookupOk(cfg, src, Some(logical)) && RoutedWith(cfg, src, m, logical, attempt, err,
                                                                                   erred)
  }

  /** The store's TryStart errs for the worker's job. */
  predicate AskFails(w: World, l: Label, p: Pos) {
    && l.Work? && l.tp == p.tp && l.choice.storeError.Some? && w.live && p.tp in w.workers
    && w.workers[p.tp].pc.Asking? && w.workers[p.tp].pc.job.offset == p.offset
  }

  /** Every copy, on its way or stored, has its reason; `erred` are the positions the store erred for. */
  ghost predicate AllReasoned(cfg: Config, w: World, erred: iset<Pos>) {
    && (forall tp :: tp in w.workers && w.workers[tp].pc.RoutingOut? ==>
          var pc := w.workers[tp].pc;
          Reasoned(cfg, pc.job, pc.out, Pos(tp, pc.job.offset) in erred) && pc.out.partition == 0)
    && (forall d :: d in w.origin ==>
          && InLog(w.sh.broker, d) && InLog(w.sh.broker, w.origin[d]) && d.tp.partition == 0
          && Reasoned(cfg, MessageOf(w.sh.broker, w.origin[d]), MessageOf(w.sh.broker, d), w.origin[d] in erred))
  }

  lemma RouteReason(cfg: Config, sh: Shared, job: Message, logical: string, err: string, erred: bool)
    requires LookupOk(cfg, job, Some(logical)) && (erred || !RetriesInPlace(cfg, logical))
    ensures var e := Protocol.FailAndRoute(cfg, sh, job, logical, err, sh.clock);
      e.pc.RoutingOut? ==> Reasoned(cfg, job, e.pc.out, erred) && e.pc.out.partition == 0
  {
    hide AttachRetry, LookupOk, RetriesInPlace;
    var e := Protocol.FailAndRoute(cfg, sh, job, logical, err, sh.clock);
    if e.pc.RoutingOut? { assert RoutedWith(cfg, job, e.pc.out, logical, job.RetryAttempt(), err, erred); }
  }

  lemma FailureReason(cfg: Config, sh: Shared, job: Message, logical: string, attempt: int, err: string)
    requires LookupOk(cfg, job, Some(logical)) && LastAttempt(cfg, job, logical, attempt)
    ensures var e := AfterFailure(cfg, sh, job, logical, attempt, err);
      e.pc.RoutingOut? ==> Reasoned(cfg, job, e.pc.out, false) && e.pc.out.partition == 0
  {
    hide AttachRetry, LookupOk, RetriesInPlace, Protocol.FailAndRoute;
    var e := AfterFailure(cfg, sh, job, logical, attempt, err);
    if !RetriesInPlace(cfg, logical) {
      RouteReason(cfg, sh, job, logical, err, false);
    } else if e.pc.RoutingOut? {
      assert RoutedWith(cfg, job, e.pc.out, logical, attempt, err, false);
    }
  }

  lemma MoreErred(cfg: Config, src: Message, m: Message, erred: bool, erred': bool)
    requires Reasoned(cfg, src, m, erred) && (erred ==> erred')
    ensures Reasoned(cfg, src, m, erred')
  {
    hide RetriedAs, BuriedAs, LookupOk, RetriesInPlace;
    var logical, attempt, err :| LookupOk(cfg, src, Some(logical)) && RoutedWith(cfg, src, m, logical, attempt, err,
                                                                                 erred);
    assert RoutedWith(cfg, src, m, logical, attempt, err, erred');
  }

  /** Whatever the handler phase sends on its way has its reason. */
  lemma HandlerReason(cfg: Config, perKey: bool, sh: Shared, pc: PC, c: Choice)
    requires InHandlerPhase(pc) && Found(cfg, pc)
    ensures var e := HandlerStep(cfg, perKey, sh, pc, c);
      e.pc.RoutingOut? ==>
        && e.pc.job == pc.job && Reasoned(cfg, pc.job, e.pc.out, pc.Asking? && c.storeError.Some?)
        && e.pc.out.partition == 0
  {
    hide LookupOk, AfterFailure, Protocol.FailAndRoute, Reasoned, RetriesInPlace, Claims.TryStartCall, AttachRetry;
    var e := HandlerStep(cfg, perKey, sh, pc, c);
    if pc.Asking? && c.storeError.Some? {
      RouteReason(cfg, sh, pc.job, pc.logical, c.storeError.value, true);
      Timing.RoutedSame(cfg, sh, pc.job, pc.logical, 0, c.storeError.value);
    } else if pc.Handling? && c.failure.Some? && LastAttempt(cfg, pc.job, pc.logical, pc.attempt) {
      FailureReason(cfg, sh, pc.job, pc.logical, pc.attempt, c.failure.value);
      Timing.RoutedSame(cfg, sh, pc.job, pc.logical, pc.attempt, c.failure.value);
    } else if pc.Failing? && cfg.store.Some? {
      VerdictReason(cfg, sh, pc, c);
    }
  }

  lemma VerdictReason(cfg: Config, sh: Shared, pc: PC, c: Choice)
    requires pc.Failing? && Found(cfg, pc) && cfg.store.Some?
    ensures var e := VerdictStep(cfg, sh, pc, c);
      e.pc.RoutingOut? ==>
        e.pc.job == pc.job && Reasoned(cfg, pc.job, e.pc.out, false) && e.pc.out.partition == 0
  {
    hide LookupOk, AfterFailure, Reasoned, RetriesInPlace;
    var sh' := sh.(items := sh.items[pc.job.id := Claims.FailedRec(cfg.store.value, cfg.ttl, sh.clock)]);
    FailureReason(cfg, sh, pc.job, pc.logical, pc.attempt, pc.err);
    FailureReason(cfg, sh', pc.job, pc.logical, pc.attempt, pc.err);
    Timing.RoutedSame(cfg, sh, pc.job, pc.logical, pc.attempt, pc.err);
    Timing.RoutedSame(cfg, sh', pc.job, pc.logical, pc.attempt, pc.err);
  }

  /** Routing keeps the copy it was given. */
  lemma RouteKeepsOut(cfg: Config, perKey: bool, sh: Shared, pc: PC, c: Choice)
    requires pc.RoutingOut? && WellFormed(sh.broker)
    ensures var e := RouteStep(cfg, perKey, sh, pc, c);
      e.pc.RoutingOut? ==> e.pc.job == pc.job && e.pc.out == pc.out
  {
    hide Append, ApplyTxn, Destination, Lists, Log, WellFormed, Assigned;
  }

  /** The acting worker's copy afterwards. */
  lemma BusyReason(cfg: Config, w: World, l: Label, tp: TP, erred: iset<Pos>)
    requires l.Work? && l.tp == tp && BusyMove(cfg, w, tp, l.choice) && Timed(cfg, w) && AllReasoned(cfg, w, erred)
    ensures WellFormed(w.sh.broker)
    ensures var wk := w.workers[tp]; var e := BusyStep(cfg, wk.perKey, w.sh, wk.pc, l.choice);
      var p := Pos(tp, wk.pc.job.offset);
      e.pc.RoutingOut? ==>
        && e.pc.job == wk.pc.job && Reasoned(cfg, wk.pc.job, e.pc.out, p in erred || AskFails(w, l, p))
        && e.pc.out.partition == 0
  {
    hide Inv, Timed, HandlerStep, RouteStep, CommitStep, WellFormed, Reasoned, Found, MessageFromRecord;
    var wk, sh := w.workers[tp], Later(w.sh, l.choice);
    var p := Pos(tp, wk.pc.job.offset);
    InvWellFormed(cfg, w);
    if wk.pc.RoutingOut? {
      RouteKeepsOut(cfg, wk.perKey, sh, wk.pc, l.choice);
      MoreErred(cfg, wk.pc.job, wk.pc.out, p in erred, p in erred || AskFails(w, l, p));
    } else if wk.pc.Committing? {
      CommitStepOutcome(cfg, wk.perKey, sh, wk.pc);
    } else {
      WorkerFound(cfg, w, tp);
      HandlerReason(cfg, wk.perKey, sh, wk.pc, l.choice);
      var e := HandlerStep(cfg, wk.perKey, sh, wk.pc, l.choice);
      if e.pc.RoutingOut? {
        MoreErred(cfg, wk.pc.job, e.pc.out, wk.pc.Asking? && l.choice.storeError.Some?,
                  p in erred || AskFails(w, l, p));
      }
    }
  }

  /** A copy that names partition 0 is stored there, as every topic has one. */
  lemma RouteStoresFirst(cfg: Config, perKey: bool, sh: Shared, pc: PC, c: Choice)
    requires pc.RoutingOut? && RoutingOk(cfg, pc) && WellFormed(sh.broker) && pc.out.partition == 0
    ensures var e := RouteStep(cfg, perKey, sh, pc, c); e.event.Routed? ==> e.event.dst.tp.partition == 0
  {
    hide Append, ApplyTxn, Lists, Log;
  }

  /** A copy keeps its reason as logs grow and more errors happen. */
  lemma CopyStays(cfg: Config, w: World, w': World, d: Pos, erred: iset<Pos>, erred': iset<Pos>)
    requires AllReasoned(cfg, w, erred) && erred <= erred' && LogsGrow(w.sh.broker, w'.sh.broker) && d in w.origin
    ensures InLog(w'.sh.broker, d) && InLog(w'.sh.broker, w.origin[d])
    ensures var src := w.origin[d];
      Reasoned(cfg, MessageOf(w'.sh.broker, src), MessageOf(w'.sh.broker, d), src in erred')
  {
    hide Reasoned, MessageFromRecord;
    var src := w.origin[d];
    assert Log(w.sh.broker, d.tp) <= Log(w'.sh.broker, d.tp);
    assert Log(w.sh.broker, src.tp) <= Log(w'.sh.broker, src.tp);
    MoreErred(cfg, MessageOf(w.sh.broker, src), MessageOf(w.sh.broker, d), src in erred, src in erred');
  }

  lemma PlacedWithReason(cfg: Config, src: Message, out: Message, erred: bool, partition: int, offset: int)
    requires Reasoned(cfg, src, out, erred)
    ensures Reasoned(cfg, src, out.(partition := partition, offset := offset), erred)
  {
    hide RetryMessage, LookupOk, RetriesInPlace;
    var m := out.(partition := partition, offset := offset);
    var logical, attempt, err :| LookupOk(cfg, src, Some(logical)) && RoutedWith(cfg, src, out, logical, attempt, err,
                                                                                 erred);
    assert RoutedWith(cfg, src, m, logical, attempt, err, erred);
  }

  /** A reasoned copy is one the times are known of. */
  lemma ReasonedIsRouted(cfg: Config, w: World, tp: TP)
    requires Timed(cfg, w) && tp in w.workers && w.workers[tp].pc.RoutingOut?
    ensures RoutedAs(cfg, w.workers[tp].pc.job, w.workers[tp].pc.out)
  {
    hide Found, CallsTimed, CopyTimed, RoutedAs, DueBy;
    assert PartTimed(cfg, w, tp);
  }

  /** The record a routing action stores has the reason of its copy. */
  lemma StoredReason(cfg: Config, w: World, tp: TP, c: Choice, erred: iset<Pos>)
    requires BusyMove(cfg, w, tp, c) && Timed(cfg, w) && AllReasoned(cfg, w, erred) && w.workers[tp].pc.RoutingOut?
    ensures WellFormed(w.sh.broker)
    ensures var wk := w.workers[tp]; var e := BusyStep(cfg, wk.perKey, w.sh, wk.pc, c); var b := e.sh.broker;
      var src := Pos(tp, wk.pc.job.offset);
      e.event.Routed? ==>
        && InLog(b, e.event.dst) && InLog(b, src) && e.event.dst.tp.partition == 0
        && Reasoned(cfg, MessageOf(b, src), MessageOf(b, e.event.dst), src in erred)
  {
    hide Inv, BusyStep, Timed, WellFormed, RoutedAs, MessageFromRecord, Reasoned, Log, RoutingOk, SliceOf, RouteStep;
    InvWellFormed(cfg, w);
    var wk := w.workers[tp];
    var e := BusyStep(cfg, wk.perKey, w.sh, wk.pc, c);
    if e.event.Routed? {
      BusyJob(cfg, w, tp, c);
      PartRouting(cfg, SliceOf(w, tp));
      Losses.BusyIs(cfg, wk.perKey, w.sh, wk.pc, c);
      RouteStoresFirst(cfg, wk.perKey, Later(w.sh, c), wk.pc, c);
      ReasonedIsRouted(cfg, w, tp);
      RouteReads(cfg, w, tp, c);
      var d := e.event.dst;
      PlacedWithReason(cfg, wk.pc.job, wk.pc.out, Pos(tp, wk.pc.job.offset) in erred, d.tp.partition, d.offset);
    }
  }

  ghost function ErredWith(w: World, l: Label, erred: iset<Pos>): iset<Pos> {
    iset p: Pos | p in erred || AskFails(w, l, p)
  }

  lemma BusyKeepsReasons(cfg: Config, w: World, l: Label, erred: iset<Pos>)
    requires l.Work? && BusyMove(cfg, w, l.tp, l.choice) && Timed(cfg, w) && AllReasoned(cfg, w, erred)
    ensures WellFormed(w.sh.broker) && AllReasoned(cfg, Step(cfg, w, l), ErredWith(w, l, erred))
  {
    hide Inv, Step, BusyStep, Timed, WellFormed, MessageFromRecord, Reasoned, Log, LogsGrow, ApplyToHist, ApplyToLife,
      ApplyToCalls, AskFails;
    var tp, erred' := l.tp, ErredWith(w, l, erred);
    InvWellFormed(cfg, w);
    BusyIsStep(cfg, w, l);
    BusyFrame(cfg, w, tp, l.choice);
    BusyReason(cfg, w, l, tp, erred);
    BusyOwnTimed(cfg, w, tp, l.choice);
    var wk, w' := w.workers[tp], Step(cfg, w, l);
    var e := BusyStep(cfg, wk.perKey, w.sh, wk.pc, l.choice);
    OwnClock(cfg, w, tp, e);
    if e.event.Routed? { StoredReason(cfg, w, tp, l.choice, erred); }
    forall q | q in w'.workers && w'.workers[q].pc.RoutingOut?
      ensures var pc := w'.workers[q].pc;
        Reasoned(cfg, pc.job, pc.out, Pos(q, pc.job.offset) in erred') && pc.out.partition == 0
    {
      if q != tp {
        var pc := w.workers[q].pc;
        MoreErred(cfg, pc.job, pc.out, Pos(q, pc.job.offset) in erred, Pos(q, pc.job.offset) in erred');
      }
    }
    forall d | d in w'.origin
      ensures InLog(w'.sh.broker, d) && InLog(w'.sh.broker, w'.origin[d]) && d.tp.partition == 0
      ensures Reasoned(cfg, MessageOf(w'.sh.broker, w'.origin[d]), MessageOf(w'.sh.broker, d), w'.origin[d] in erred')
    {
      if e.event.Routed? && d == e.event.dst {
        var src := w'.origin[d];
        MoreErred(cfg, MessageOf(w'.sh.broker, src), MessageOf(w'.sh.broker, d), src in erred, src in erred');
      } else {
        CopyStays(cfg, w, w', d, erred, erred');
      }
    }
  }

  lemma QuietKeepsReasons(cfg: Config, w: World, l: Label, erred: iset<Pos>)
    requires Inv(cfg, w) && cfg.groupID != "" && AllReasoned(cfg, w, erred)
    requires !(l.Work? && w.live && l.tp in w.workers && Busy(w.workers[l.tp].pc))
    ensures WellFormed(w.sh.broker) && AllReasoned(cfg, Step(cfg, w, l), ErredWith(w, l, erred))
  {
    hide Inv, Step, WellFormed, MessageFromRecord, Reasoned, Log, LogsGrow;
    QuietGoesOn(cfg, w, l);
    var w', erred' := Step(cfg, w, l), ErredWith(w, l, erred);
    assert erred' == erred;
    forall q | q in w'.workers && w'.workers[q].pc.RoutingOut?
      ensures var pc := w'.workers[q].pc;
        Reasoned(cfg, pc.job, pc.out, Pos(q, pc.job.offset) in erred') && pc.out.partition == 0
    {
      assert TimeGoesOn(w, w', q);
    }
    forall d | d in w'.origin
      ensures InLog(w'.sh.broker, d) && InLog(w'.sh.broker, w'.origin[d]) && d.tp.partition == 0
      ensures Reasoned(cfg, MessageOf(w'.sh.broker, w'.origin[d]), MessageOf(w'.sh.broker, d), w'.origin[d] in erred')
    {
      CopyStays(cfg, w, w', d, erred, erred');
    }
  }

  // ---- every run ----

  ghost predicate AskFailsAt(cfg: Config, labels: seq<Label>, n: int, p: Pos)
    requires 0 <= n < |labels|
  {
    AskFails(Run(cfg, labels[..n]), labels[n], p)
  }

  /** Some action of the run met an error of the store's TryStart for the message at `p`. */
  ghost predicate StoreErred(cfg: Config, labels: seq<Label>, p: Pos) {
    exists n :: 0 <= n < |labels| && AskFailsAt(cfg, labels, n, p)
  }

  lemma ErredLater(cfg: Config, labels: seq<Label>, p: Pos)
    requires labels != []
    ensures var init, l := labels[..|labels| - 1], labels[|labels| - 1];
      StoreErred(cfg, labels, p) <==> StoreErred(cfg, init, p) || AskFails(Run(cfg, init), l, p)
  {
    hide Run, AskFails;
    var n := |labels| - 1;
    var init := labels[..n];
    forall i | 0 <= i < n ensures AskFailsAt(cfg, labels, i, p) == AskFailsAt(cfg, init, i, p) {
      assert labels[..i] == init[..i];
    }
    assert AskFailsAt(cfg, labels, n, p) == AskFails(Run(cfg, init), labels[n], p);
    if StoreErred(cfg, labels, p) && !AskFails(Run(cfg, init), labels[n], p) {
      var i :| 0 <= i < |labels| && AskFailsAt(cfg, labels, i, p);
      assert i < n;
      assert AskFailsAt(cfg, init, i, p);
    }
    if StoreErred(cfg, init, p) {
      var i :| 0 <= i < n && AskFailsAt(cfg, init, i, p);
      assert AskFailsAt(cfg, labels, i, p);
    }
  }

  ghost function Erred(cfg: Config, labels: seq<Label>): iset<Pos> { iset p: Pos | StoreErred(cfg, labels, p) }

  lemma StartReasoned(cfg: Config)
    ensures AllReasoned(cfg, StartWorld(cfg), Erred(cfg, []))
  {
  }

  lemma {:induction false} RunReasoned(cfg: Config, labels: seq<Label>)
    requires cfg.groupID != ""
    ensures AllReasoned(cfg, Run(cfg, labels), Erred(cfg, labels))
  {
    hide Inv, Step, Run, Timed, AllReasoned, StoreErred, AskFails, WellFormed;
    if labels == [] {
      RunStart(cfg);
      StartReasoned(cfg);
    } else {
      var init, l := labels[..|labels| - 1], labels[|labels| - 1];
      var w := Run(cfg, init);
      RunStep(cfg, labels);
      RunInv(cfg, init);
      RunTimed(cfg, init);
      RunReasoned(cfg, init);
      if l.Work? && w.live && l.tp in w.workers && Busy(w.workers[l.tp].pc) {
        BusyKeepsReasons(cfg, w, l, Erred(cfg, init));
      } else {
        QuietKeepsReasons(cfg, w, l, Erred(cfg, init));
      }
      forall p ensures p in Erred(cfg, labels) <==> p in ErredWith(w, l, Erred(cfg, init)) {
        ErredLater(cfg, labels, p);
      }
      assert Erred(cfg, labels) == ErredWith(w, l, Erred(cfg, init));
    }
  }

  /** What the next retry looks like to whoever reads it: its topic, its attempt, and, for a
      positive backoff, the exact time it has to wait for; without one an older time stands. */
  predicate NextRetry(cfg: Config, s: Settings, src: Message, m: Message, logical: string) {
    var next := src.RetryAttempt() + 1;
    var delay := BackoffFor(s.backoffs, next);
    && next <= s.max && m.topic == cfg.namer.retry(logical, next) && (next <= MAX_INT64 ==> m.RetryAttempt() == next)
    && (delay > 0 && m.timestamp + delay <= MAX_INT64 ==> m.NotBefore() == Some(m.timestamp + delay))
    && (delay <= 0 ==> m.NotBefore() == src.NotBefore())
  }

  /** And a dead letter: no further wait, and its attempts are used up. */
  predicate DeadLetter(cfg: Config, s: Settings, src: Message, m: Message, logical: string, attempt: int) {
    && attempt >= s.max && m.topic == cfg.namer.dlq(logical)
    && (MIN_INT64 <= attempt <= MAX_INT64 ==> m.RetryAttempt() == attempt)
    && m.NotBefore() == src.NotBefore()
  }

  /** Every record the consumer routed, in every run, was routed for the handler found for its
      source and as that handler's settings say. It is the next retry, of a handler that does
      not retry in place unless the store had erred for the message; or a dead letter, whose
      attempt is the message's own unless the handler retries in place. Whatever its key, it lies
      in the first partition of its topic. */
  lemma RoutedBySettings(cfg: Config, labels: seq<Label>, d: Pos) returns (logical: string, attempt: int)
    requires cfg.groupID != "" && d in Run(cfg, labels).origin
    ensures var w := Run(cfg, labels); var p := w.origin[d];
      && InLog(w.sh.broker, d) && InLog(w.sh.broker, p) && logical in cfg.handlers && d.tp.partition == 0
      && var src, m, s := MessageOf(w.sh.broker, p), MessageOf(w.sh.broker, d), SettingsOf(cfg, logical);
         && LookupOk(cfg, src, Some(logical))
         && (|| (NextRetry(cfg, s, src, m, logical)
                 && (s.ordering != OrderingPerPartition || StoreErred(cfg, labels, p)))
             || (DeadLetter(cfg, s, src, m, logical, attempt)
                 && (s.ordering == OrderingPerPartition || attempt == src.RetryAttempt())))
  {
    hide Run, Timed, LookupOk, MessageFromRecord, RetriedAs, BuriedAs, RetriesInPlace, MaxFor, DelayFor, StoreErred,
      CopyTimed, NextRetry, DeadLetter;
    RunReasoned(cfg, labels);
    RunTimed(cfg, labels);
    var w := Run(cfg, labels);
    var p := w.origin[d];
    var src, m := MessageOf(w.sh.broker, p), MessageOf(w.sh.broker, d);
    var err;
    logical, attempt, err :| LookupOk(cfg, src, Some(logical)) && RoutedWith(cfg, src, m, logical, attempt, err,
                                                                            p in Erred(cfg, labels));
    FoundIsHandler(cfg, src, logical);
    SettingsHold(cfg, logical);
    CopyStamped(cfg, w, d);
    if RetriedAs(cfg, src, m, logical, err) { RetryReads(cfg, src, m, logical, err); }
    if BuriedAs(cfg, src, m, logical, attempt, err) { BurialReads(cfg, src, m, logical, attempt, err); }
  }

  lemma CopyStamped(cfg: Config, w: World, d: Pos)
    requires Timed(cfg, w) && d in w.origin
    ensures InLog(w.sh.broker, d) && 0 <= MessageOf(w.sh.broker, d).timestamp
  {
    hide RoutedAs, PartTimed, MessageFromRecord;
    assert CopyTimed(cfg, w, d);
  }

  lemma RetryReads(cfg: Config, src: Message, m: Message, logical: string, err: string)
    requires RetriedAs(cfg, src, m, logical, err) && logical in cfg.handlers && 0 <= m.timestamp
    ensures NextRetry(cfg, SettingsOf(cfg, logical), src, m, logical)
  {
    hide AttachRetry;
    SettingsHold(cfg, logical);
    var next := src.RetryAttempt() + 1;
    var delay := DelayFor(cfg, logical, next);
    Lifecycle.AttemptInRange(src);
    AttachStampsNotBefore(src, m.timestamp, next, Some(err), delay);
    if next <= MAX_INT64 { AttachStampsAttempt(src, m.timestamp, next, Some(err), delay); }
  }

  lemma BurialReads(cfg: Config, src: Message, m: Message, logical: string, attempt: int, err: string)
    requires BuriedAs(cfg, src, m, logical, attempt, err) && logical in cfg.handlers
    ensures DeadLetter(cfg, SettingsOf(cfg, logical), src, m, logical, attempt)
  {
    hide AttachRetry;
    SettingsHold(cfg, logical);
    AttachStampsNotBefore(src, m.timestamp, attempt, Some(err), 0);
    if MIN_INT64 <= attempt <= MAX_INT64 { AttachStampsAttempt(src, m.timestamp, attempt, Some(err), 0); }
  }

  /** What the headers of a message say about where it was published first. */
  datatype Source = Source(topic: string, partition: string, offset: string)

  function SourceOf(m: Message): Source {
    Source(Get(m.headers, ORIGINAL_TOPIC), Get(m.headers, ORIGINAL_PARTITION), Get(m.headers, ORIGINAL_OFFSET))
  }

  predicate NoSource(m: Message) { SourceOf(m) == Source("", "", "") }

  /** A copy's headers name the position it was made from, unless that message named one itself. */
  lemma CopyNames(cfg: Config, src: Message, m: Message, logical: string, attempt: int, err: string)
    requires RetriedAs(cfg, src, m, logical, err) || BuriedAs(cfg, src, m, logical, attempt, err)
    ensures NoSource(src) ==> SourceOf(m) == Source(src.topic, Itoa(src.partition), Itoa(src.offset))
    ensures SourceOf(src).topic != "" && SourceOf(src).partition != "" && SourceOf(src).offset != "" ==>
      SourceOf(m) == SourceOf(src)
  {
    hide AttachRetry;
    KeysDistinct();
    var next, delay := src.RetryAttempt() + 1, DelayFor(cfg, logical, src.RetryAttempt() + 1);
    if RetriedAs(cfg, src, m, logical, err) {
      AttachKeepsOrigin(src, m.timestamp, next, Some(err), delay, ORIGINAL_TOPIC);
      AttachKeepsOrigin(src, m.timestamp, next, Some(err), delay, ORIGINAL_PARTITION);
      AttachKeepsOrigin(src, m.timestamp, next, Some(err), delay, ORIGINAL_OFFSET);
    } else {
      AttachKeepsOrigin(src, m.timestamp, attempt, Some(err), 0, ORIGINAL_TOPIC);
      AttachKeepsOrigin(src, m.timestamp, attempt, Some(err), 0, ORIGINAL_PARTITION);
      AttachKeepsOrigin(src, m.timestamp, attempt, Some(err), 0, ORIGINAL_OFFSET);
    }
  }

  /** In every run a chain of routed records that starts at a message without origin headers
      names, in each of its records, the position of that first message. */
  lemma {:induction false} ChainNamesSource(cfg: Config, labels: seq<Label>, ds: seq<Pos>, i: nat)
    requires cfg.groupID != "" && 0 < i < |ds|
    requires var w := Run(cfg, labels);
      forall k :: 0 < k < |ds| ==> ds[k] in w.origin && w.origin[ds[k]] == ds[k - 1]
    requires var w := Run(cfg, labels);
      && InLog(w.sh.broker, ds[0]) && NoSource(MessageOf(w.sh.broker, ds[0])) && ds[0].tp.topic != ""
    ensures var w := Run(cfg, labels);
      InLog(w.sh.broker, ds[i])
      && SourceOf(MessageOf(w.sh.broker, ds[i])) ==
           Source(ds[0].tp.topic, Itoa(ds[0].tp.partition), Itoa(ds[0].offset))
    decreases i
  {
    hide Run, MessageFromRecord, LookupOk, RetriedAs, BuriedAs, DueBy, SourceOf, WellFormed;
    RoutedRecordsAreHops(cfg, labels, ds[i]);
    var b := Run(cfg, labels).sh.broker;
    var src, m := MessageOf(b, ds[i - 1]), MessageOf(b, ds[i]);
    var logical, attempt, err := CopyMade(cfg, src, m);
    CopyNames(cfg, src, m, logical, attempt, err);
    if i == 1 {
      PlacedAt(b, ds[0]);
    } else {
      ChainNamesSource(cfg, labels, ds, i - 1);
    }
  }

  lemma CopyMade(cfg: Config, src: Message, m: Message) returns (logical: string, attempt: int, err: string)
    requires RoutedAs(cfg, src, m)
    ensures RetriedAs(cfg, src, m, logical, err) || BuriedAs(cfg, src, m, logical, attempt, err)
  {
    hide RetriedAs, BuriedAs, LookupOk, DueBy;
    logical :| LookupOk(cfg, src, Some(logical))
      && ((exists e :: RetriedAs(cfg, src, m, logical, e)) || (exists a, e :: BuriedAs(cfg, src, m, logical, a, e)));
    attempt := 0;
    if e :| RetriedAs(cfg, src, m, logical, e) {
      err := e;
    } else {
      attempt, err :| BuriedAs(cfg, src, m, logical, attempt, err);
    }
  }

  lemma PlacedAt(b: BrokerState, d: Pos)
    requires WellFormed(b) && InLog(b, d)
    ensures var m := MessageOf(b, d); m.topic == d.tp.topic && m.partition == d.tp.partition && m.offset == d.offset
  {
    assert LogOk(Log(b, d.tp), d.tp);
  }
}
