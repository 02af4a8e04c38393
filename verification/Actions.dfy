/** Runs of one partition worker amid everybody else: logs of its actions, and what each
    kind of action of the protocol's worker machine amounts to. */
module Actions {
  import opened Wrappers
  import opened Envelope
  import opened Config
  import opened Routing
  import opened Broker
  import opened Protocol
  import opened Safety
  import Claims

  /** One action of the worker: the shared state before it, where it stood, what the
      environment chose, and the effect. */
  datatype Action = Action(before: Shared, pc: PC, choice: Choice, effect: Effect)

  const NO_CHOICE := Choice(0, None, None, None, [], false)

  /** The most others may do to the shared state while this worker stands still. */
  ghost predicate Interferes(group: string, tp: TP, holds: bool, a: Shared, b: Shared) {
    && WellFormed(b.broker) && LogsGrow(a.broker, b.broker)
    && GroupOffset(b.broker, group, tp) == GroupOffset(a.broker, group, tp)
    && (a.broker.closed ==> b.broker.closed) && (a.cancelled ==> b.cancelled)
    && b.sub.groupID == a.sub.groupID && b.sub.topics == a.sub.topics && b.sub.isolation == a.sub.isolation
    && a.sub.revoked <= b.sub.revoked && (a.sub.closed ==> b.sub.closed)
    && (holds ==> b.txnHeld == a.txnHeld) && a.clock <= b.clock
  }

  lemma InterferesTransitive(group: string, tp: TP, holds: bool, a: Shared, b: Shared, c: Shared)
    requires Interferes(group, tp, holds, a, b) && Interferes(group, tp, holds, b, c)
    ensures Interferes(group, tp, holds, a, c)
  {
    forall q ensures Log(a.broker, q) <= Log(c.broker, q) {
      assert Log(a.broker, q) <= Log(b.broker, q) <= Log(c.broker, q);
    }
  }

  lemma InterferesReflexive(group: string, tp: TP, holds: bool, a: Shared)
    requires WellFormed(a.broker)
    ensures Interferes(group, tp, holds, a, a)
  {
  }

  /** The worker owns the transaction lock in these stages. */
  predicate HoldsLock(pc: PC) {
    pc.RoutingOut?
    && (pc.stage.BeginContext? || pc.stage.BeginApply? || pc.stage.AfterBeginCheck? || pc.stage.TxnPublish?
      || pc.stage.TxnOffsets? || pc.stage.BeforeCommitCheck? || pc.stage.CommitContext? || pc.stage.CommitApply?
      || pc.stage.Aborting?)
  }

  /** A logged action is the machine's action. */
  ghost predicate ActionOk(cfg: Config, perKey: bool, a: Action) {
    Busy(a.pc) && WellFormed(a.before.broker) && a.effect == BusyStep(cfg, perKey, a.before, a.pc, a.choice)
  }

  /** From one program counter to the next; an idle worker starts its next job. */
  predicate Continues(pc: PC, next: PC) { next == pc || (pc.Idle? && next.Starting?) }

  /** The log runs from where the worker stood to `pc` in state `now`. */
  ghost predicate LogRuns(cfg: Config, tp: TP, perKey: bool, log: seq<Action>, pc: PC, now: Shared) {
    && (forall i :: 0 <= i < |log| ==> ActionOk(cfg, perKey, log[i]))
    && (forall i :: 0 < i < |log| ==>
         Continues(log[i - 1].effect.pc, log[i].pc)
         && Interferes(cfg.groupID, tp, HoldsLock(log[i].pc), log[i - 1].effect.sh, log[i].before))
    && (log != [] ==>
         Continues(log[|log| - 1].effect.pc, pc)
         && Interferes(cfg.groupID, tp, HoldsLock(pc), log[|log| - 1].effect.sh, now))
  }

  /** What the logged actions made happen: handler calls and decisions, in order. */
  function Trace(log: seq<Action>): seq<Event> {
    if log == [] then []
    else
      var e := log[|log| - 1].effect.event;
      Trace(log[..|log| - 1]) + Shown(e)
  }

  function Shown(e: Event): seq<Event> { if e.Silent? || e.FenceRefused? then [] else [e] }

  /** What a broker that refuses to write leaves in the history. */
  function RefusalOf(b: BrokerState): Event { if b.closed then Silent else FenceRefused }

  predicate RoutedOnce(before: seq<Event>, after: seq<Event>) {
    |after| == |before| + 1 && after[..|before|] == before && after[|before|].Routed?
  }

  predicate IsCheck(pc: PC) {
    || (pc.Committing? && (pc.commitStage.FirstCheck? || pc.commitStage.SecondCheck?))
    || (pc.RoutingOut?
        && (pc.stage.OutcomeCheck? || pc.stage.TxnCheck? || pc.stage.AfterBeginCheck? || pc.stage.BeforeCommitCheck?))
  }

  predicate IsContextCheck(pc: PC) {
    || (pc.Committing? && pc.commitStage.CommitContextCheck?)
    || (pc.RoutingOut? && (pc.stage.PublishContext? || pc.stage.CommitContext?))
  }

  function AfterCheck(cfg: Config, pc: PC): PC
    requires IsCheck(pc) || IsContextCheck(pc)
  {
    if pc.Committing? then
      pc.(commitStage := if pc.commitStage.FirstCheck? then CommitContextCheck
                         else if pc.commitStage.CommitContextCheck? then SecondCheck else ApplyOffset)
    else
      pc.(stage := match pc.stage
        case OutcomeCheck => if cfg.guarantee.Transactional? then TxnCheck else PublishContext
        case PublishContext => PublishApply
        case TxnCheck => TxnLock
        case AfterBeginCheck => TxnPublish
        case BeforeCommitCheck => CommitContext
        case _ => CommitApply)
  }

  function CheckFailed(pc: PC, perKey: bool): PC
    requires IsCheck(pc) || IsContextCheck(pc)
  {
    if pc.Committing? then AfterCommit(pc.job, pc.drain, perKey)
    else if pc.stage.OutcomeCheck? || pc.stage.PublishContext? || pc.stage.TxnCheck? then Finish(pc.job, perKey)
    else pc.(stage := Aborting)
  }

  lemma CheckStep(cfg: Config, perKey: bool, sh: Shared, pc: PC)
    requires IsCheck(pc) && WellFormed(sh.broker)
    ensures BusyStep(cfg, perKey, sh, pc, NO_CHOICE) ==
      Effect(sh, if AssignedTo(sh, pc.job) then AfterCheck(cfg, pc) else CheckFailed(pc, perKey), Silent)
  {
  }

  lemma ContextStep(cfg: Config, perKey: bool, sh: Shared, pc: PC)
    requires IsContextCheck(pc) && WellFormed(sh.broker)
    ensures BusyStep(cfg, perKey, sh, pc, NO_CHOICE) ==
      Effect(sh, if sh.cancelled then CheckFailed(pc, perKey) else AfterCheck(cfg, pc), Silent)
  {
  }

  lemma ApplyStep(cfg: Config, perKey: bool, sh: Shared, pc: PC)
    requires pc.Committing? && pc.commitStage.ApplyOffset? && WellFormed(sh.broker)
    ensures var e := BusyStep(cfg, perKey, sh, pc, NO_CHOICE);
      var b' := Raise(sh.broker, sh.sub.groupID, TPOf(pc.job), pc.job.offset + 1);
      && e == Effect(if sh.broker.closed then sh else sh.(broker := b'), AfterCommit(pc.job, pc.drain, perKey), Silent)
      && WellFormed(b')
      && GroupOffset(b', sh.sub.groupID, TPOf(pc.job)) ==
           if pc.job.offset + 1 > GroupOffset(sh.broker, sh.sub.groupID, TPOf(pc.job)) then pc.job.offset + 1
           else GroupOffset(sh.broker, sh.sub.groupID, TPOf(pc.job))
  {
    hide Raise;
    RaiseFacts(sh.broker, sh.sub.groupID, TPOf(pc.job), pc.job.offset + 1);
  }

  lemma AppendGrows(group: string, tp: TP, b: BrokerState, rec: Record)
    requires WellFormed(b)
    ensures WellFormed(Append(b, rec, 0)) && LogsGrow(b, Append(b, rec, 0))
    ensures GroupOffset(Append(b, rec, 0), group, tp) == GroupOffset(b, group, tp)
    ensures Append(b, rec, 0).groups == b.groups
  {
    hide Append;
    AppendFacts(b, rec, 0);
  }

  lemma RaiseElsewhere(group: string, tp: TP, b: BrokerState, other: TP, next: int)
    requires WellFormed(b) && other != tp
    ensures var b' := Raise(b, group, other, next);
      WellFormed(b') && LogsGrow(b, b') && GroupOffset(b', group, tp) == GroupOffset(b, group, tp)
  {
    RaiseFacts(b, group, other, next);
    assert forall q :: Log(Raise(b, group, other, next), q) == Log(b, q);
  }

  lemma SameDataGrows(group: string, tp: TP, b: BrokerState, b': BrokerState)
    ensures SameData(b, b') ==> LogsGrow(b, b') && GroupOffset(b', group, tp) == GroupOffset(b, group, tp)
  {
    if SameData(b, b') { assert forall q :: Log(b', q) == Log(b, q); }
  }

  /** Interference stretches the gap after the last action; it does not break the log. */
  lemma Stretch(cfg: Config, tp: TP, perKey: bool, log: seq<Action>, pc: PC, before: Shared, after: Shared)
    requires LogRuns(cfg, tp, perKey, log, pc, before)
    requires Interferes(cfg.groupID, tp, HoldsLock(pc), before, after)
    ensures LogRuns(cfg, tp, perKey, log, pc, after)
  {
    hide BusyStep;
    if log != [] {
      InterferesTransitive(cfg.groupID, tp, HoldsLock(pc), log[|log| - 1].effect.sh, before, after);
    }
  }

  lemma Appends(cfg: Config, tp: TP, perKey: bool, log: seq<Action>, pc: PC, before: Shared, a: Action)
    requires LogRuns(cfg, tp, perKey, log, pc, before) && ActionOk(cfg, perKey, a)
    requires a.before == before && a.pc == pc && WellFormed(a.effect.sh.broker)
    ensures LogRuns(cfg, tp, perKey, log + [a], a.effect.pc, a.effect.sh)
    ensures Trace(log + [a]) == Trace(log) + Shown(a.effect.event)
  {
    hide BusyStep, WellFormed, Interferes, HoldsLock;
    InterferesReflexive(cfg.groupID, tp, HoldsLock(a.effect.pc), a.effect.sh);
    assert (log + [a])[..|log|] == log;
  }

  // ---- the routing stages ----

  lemma LockStep(cfg: Config, perKey: bool, sh: Shared, pc: PC)
    requires pc.RoutingOut? && pc.stage.TxnLock? && WellFormed(sh.broker) && !sh.txnHeld
    ensures BusyStep(cfg, perKey, sh, pc, NO_CHOICE) == Effect(sh.(txnHeld := true), pc.(stage := BeginContext), Silent)
  {
  }

  lemma BeginContextStep(cfg: Config, perKey: bool, sh: Shared, pc: PC)
    requires pc.RoutingOut? && pc.stage.BeginContext? && WellFormed(sh.broker)
    ensures BusyStep(cfg, perKey, sh, pc, NO_CHOICE) ==
      if sh.cancelled then Effect(sh.(txnHeld := false), Finish(pc.job, perKey), Silent)
      else Effect(sh, pc.(stage := BeginApply), Silent)
  {
  }

  lemma BeginApplyStep(cfg: Config, perKey: bool, sh: Shared, pc: PC)
    requires pc.RoutingOut? && pc.stage.BeginApply? && WellFormed(sh.broker)
    ensures BusyStep(cfg, perKey, sh, pc, NO_CHOICE) ==
      if Unavailable(sh.broker) then Effect(sh.(txnHeld := false), Finish(pc.job, perKey), RefusalOf(sh.broker))
      else Effect(sh.(broker := sh.broker.(txnSeq := sh.broker.txnSeq + 1)),
                  pc.(stage := AfterBeginCheck, txn := TxnState(sh.broker.txnSeq + 1, [], [], "", false)), Silent)
  {
  }

  lemma TxnPublishStep(cfg: Config, perKey: bool, sh: Shared, pc: PC, hs: seq<Header>)
    requires pc.RoutingOut? && pc.stage.TxnPublish? && WellFormed(sh.broker) && Lists(hs, pc.out.headers)
    ensures BusyStep(cfg, perKey, sh, pc, NO_CHOICE.(headers := hs)) ==
      Effect(sh, if sh.cancelled then pc.(stage := Aborting)
                 else pc.(stage := TxnOffsets,
                          txn := pc.txn.(publishes := pc.txn.publishes + [RecordWith(pc.out, hs)])), Silent)
  {
  }

  lemma TxnOffsetsStep(cfg: Config, perKey: bool, sh: Shared, pc: PC)
    requires pc.RoutingOut? && pc.stage.TxnOffsets? && WellFormed(sh.broker)
    ensures var o := Offset(pc.job.topic, pc.job.partition, pc.job.offset);
      BusyStep(cfg, perKey, sh, pc, NO_CHOICE) ==
      Effect(sh, if sh.cancelled then pc.(stage := Aborting)
                 else pc.(stage := BeforeCommitCheck,
                          txn := pc.txn.(offsets := pc.txn.offsets + [o], groupID := cfg.groupID)), Silent)
  {
  }

  lemma AbortStep(cfg: Config, perKey: bool, sh: Shared, pc: PC)
    requires pc.RoutingOut? && pc.stage.Aborting? && WellFormed(sh.broker)
    ensures BusyStep(cfg, perKey, sh, pc, NO_CHOICE) == Effect(sh.(txnHeld := false), Finish(pc.job, perKey), Silent)
  {
  }

  /** The commit of a transaction that holds the copy and the consumed offset. */
  lemma ApplyTxnStep(cfg: Config, perKey: bool, sh: Shared, pc: PC)
    requires pc.RoutingOut? && pc.stage.CommitApply? && WellFormed(sh.broker)
    requires |pc.txn.publishes| == 1 && pc.txn.groupID == cfg.groupID != ""
    requires pc.txn.offsets == [Offset(pc.job.topic, pc.job.partition, pc.job.offset)]
    ensures var e := BusyStep(cfg, perKey, sh, pc, NO_CHOICE); var tp := TPOf(pc.job);
      if Unavailable(sh.broker) then e == Effect(sh, pc.(stage := Aborting), RefusalOf(sh.broker))
      else
        && e.sh == sh.(broker := ApplyTxn(sh.broker, pc.txn), txnHeld := false)
        && e.pc == Finish(pc.job, perKey) && e.event.Routed? && WellFormed(e.sh.broker)
        && GroupOffset(e.sh.broker, cfg.groupID, tp) ==
             if pc.job.offset + 1 > GroupOffset(sh.broker, cfg.groupID, tp) then pc.job.offset + 1
             else GroupOffset(sh.broker, cfg.groupID, tp)
  {
    hide ApplyTxn;
    ApplyOne(sh.broker, pc.txn);
  }

  lemma PublishApplyStep(cfg: Config, perKey: bool, group: string, tp: TP, sh: Shared, pc: PC, hs: seq<Header>)
    requires pc.RoutingOut? && pc.stage.PublishApply? && WellFormed(sh.broker) && Lists(hs, pc.out.headers)
    ensures var e := BusyStep(cfg, perKey, sh, pc, NO_CHOICE.(headers := hs));
      var b' := Append(sh.broker, RecordWith(pc.out, hs), 0);
      && WellFormed(b') && GroupOffset(b', group, tp) == GroupOffset(sh.broker, group, tp)
      && b'.groups == sh.broker.groups
      && (if Unavailable(sh.broker) then e == Effect(sh, Finish(pc.job, perKey), RefusalOf(sh.broker))
          else e.sh == sh.(broker := b') && e.pc == ToCommit(pc.job) && e.event.Routed?)
  {
    hide Append;
    AppendFacts(sh.broker, RecordWith(pc.out, hs), 0);
  }

  // ---- the handler stages ----

  lemma StartStep(cfg: Config, perKey: bool, sh: Shared, pc: PC, found: Option<string>)
    requires pc.Starting? && WellFormed(sh.broker) && LookupOk(cfg, pc.job, found)
    ensures BusyStep(cfg, perKey, sh, pc, NO_CHOICE.(found := found)) ==
      match found
      case None => Effect(sh, ToCommit(pc.job), DecidedNoHandler)
      case Some(logical) => Effect(sh, Waiting(pc.job, logical), Silent)
  {
    hide LookupOk;
  }

  /** The wait ends at once, when the timer fires, or when the context is done. */
  lemma WaitStep(cfg: Config, perKey: bool, sh: Shared, pc: PC, elapsed: nat, stop: bool)
    requires pc.Waiting? && WellFormed(sh.broker)
    requires stop ==> pc.job.NotBefore().Some? && sh.cancelled
    requires !stop ==> pc.job.NotBefore().None? || pc.job.NotBefore().value <= sh.clock + elapsed
    ensures BusyStep(cfg, perKey, sh, pc, NO_CHOICE.(elapsed := elapsed, stop := stop)) ==
      Effect(sh.(clock := sh.clock + elapsed), if stop then Finish(pc.job, perKey) else Claiming(pc.job, pc.logical),
             Silent)
  {
  }

  predicate UsesStore(cfg: Config, job: Message) { cfg.store.Some? && job.id != "" }

  /** Without a store or an ID the handler starts at once. */
  lemma ClaimStep(cfg: Config, perKey: bool, sh: Shared, pc: PC)
    requires pc.Claiming? && WellFormed(sh.broker)
    ensures BusyStep(cfg, perKey, sh, pc, NO_CHOICE) ==
      if UsesStore(cfg, pc.job) then Effect(sh, Asking(pc.job, pc.logical, Claims.Sampled(pc.job.id, sh.clock)), Silent)
      else StartHandler(sh, pc.job, pc.logical, None)
  {
    hide StartHandler;
  }

  /** One call of TryStart; a claim starts the handler. */
  lemma AskOnce(cfg: Config, perKey: bool, sh: Shared, pc: PC)
    requires pc.Asking? && cfg.store.Some? && WellFormed(sh.broker)
    ensures var e := BusyStep(cfg, perKey, sh, pc, NO_CHOICE);
      var r := Claims.TryStartCall(cfg.store.value, cfg.ttl, sh.items, pc.call);
      && e.sh == sh.(items := r.items)
      && (match r.next
          case Some(next) => e.pc == pc.(call := next) && e.event == Silent
          case None =>
            match r.result.value
            case Proceed =>
              e.pc == Handling(pc.job, pc.job, pc.logical, pc.job.RetryAttempt(), Some(pc.call.now + cfg.ttl))
              && e.event == Called(pc.job.RetryAttempt())
            case SkipCompleted => e.pc == ToCommit(pc.job) && e.event == DecidedSkipCompleted
            case SkipInProgress => e.pc == Finish(pc.job, perKey) && e.event == DecidedSkipInProgress)
  {
  }

  lemma AskFails(cfg: Config, perKey: bool, sh: Shared, pc: PC, err: string)
    requires pc.Asking? && cfg.store.Some? && WellFormed(sh.broker)
    ensures BusyStep(cfg, perKey, sh, pc, NO_CHOICE.(storeError := Some(err))) ==
      Protocol.FailAndRoute(cfg, sh, pc.job, pc.logical, err, sh.clock)
  {
    hide Protocol.FailAndRoute;
  }

  lemma HandleStep(cfg: Config, perKey: bool, sh: Shared, pc: PC, failure: Option<string>)
    requires pc.Handling? && WellFormed(sh.broker)
    ensures BusyStep(cfg, perKey, sh, pc, NO_CHOICE.(failure := failure)) ==
      HandlerEnd(cfg, sh, pc, NO_CHOICE.(failure := failure))
  {
    hide HandlerEnd;
  }

  /** Complete, which may fail, and then the commit. */
  lemma CompleteStep(cfg: Config, perKey: bool, sh: Shared, pc: PC, storeError: Option<string>)
    requires pc.Completing? && cfg.store.Some? && WellFormed(sh.broker)
    ensures var e := BusyStep(cfg, perKey, sh, pc, NO_CHOICE.(storeError := storeError));
      && e.pc == ToCommit(pc.job) && e.event == Silent
      && e.sh == sh.(items := if storeError.Some? then sh.items
                              else sh.items[pc.job.id := Claims.DoneRec(cfg.store.value, cfg.ttl, sh.clock)])
  {
  }

  /** Fail, which may fail, and then the route. */
  lemma FailStep(cfg: Config, perKey: bool, sh: Shared, pc: PC, storeError: Option<string>)
    requires pc.Failing? && cfg.store.Some? && WellFormed(sh.broker)
    ensures var e := BusyStep(cfg, perKey, sh, pc, NO_CHOICE.(storeError := storeError));
      var sh' := sh.(items := if storeError.Some? then sh.items
                              else sh.items[pc.job.id := Claims.FailedRec(cfg.store.value, cfg.ttl, sh.clock)]);
      var f := AfterFailure(cfg, sh', pc.job, pc.logical, pc.attempt, pc.err);
      e.sh == f.sh && e.pc == f.pc && e.event == f.event
  {
    hide AfterFailure;
  }

  lemma SleepStep(cfg: Config, perKey: bool, sh: Shared, pc: PC, elapsed: nat, stop: bool)
    requires pc.Sleeping? && WellFormed(sh.broker) && (stop ==> sh.cancelled)
    requires (!stop ==> pc.until <= sh.clock + elapsed)
    ensures var sh' := sh.(clock := sh.clock + elapsed);
      BusyStep(cfg, perKey, sh, pc, NO_CHOICE.(elapsed := elapsed, stop := stop)) ==
      if stop then Effect(sh', Finish(pc.job, perKey), Silent)
      else Effect(sh', Handling(pc.job, pc.cur.(headers := AttachRetry(pc.cur, sh'.clock, pc.attempt, Some(pc.err), 0)),
                                pc.logical, pc.attempt, pc.lease),
                  Called(pc.attempt))
  {
    hide AttachRetry;
  }

  /** failAndRoute is routeTerminal, or a retry on its way. */
  lemma FailAndRouteShape(cfg: Config, sh: Shared, job: Message, logical: string, err: string, now: Time)
    ensures Protocol.FailAndRoute(cfg, sh, job, logical, err, now) ==
      var attempt := job.RetryAttempt();
      if attempt >= MaxFor(cfg, logical) then Protocol.RouteTerminal(cfg, sh, job, logical, attempt, err, now)
      else Effect(sh, RoutingOut(job, RetryMessage(job, cfg.namer.retry(logical, attempt + 1), attempt + 1, err,
                                                   DelayFor(cfg, logical, attempt + 1), now),
                                 OutcomeCheck, NO_TXN), Silent)
  {
    hide RetryMessage, Protocol.RouteTerminal;
  }

  lemma RouteTerminalShape(cfg: Config, sh: Shared, job: Message, logical: string, attempt: int, err: string, now: Time)
    ensures Protocol.RouteTerminal(cfg, sh, job, logical, attempt, err, now) ==
      if !cfg.dlqEnabled then Effect(sh, ToCommit(job), DecidedDlqOff)
      else Effect(sh,
                  RoutingOut(job, RetryMessage(job, cfg.namer.dlq(logical), attempt, err, 0, now), OutcomeCheck,
                             NO_TXN), Silent)
  {
    hide RetryMessage;
  }

  // ---- traces of one message ----

  predicate IsDecision(e: Event) { !e.Silent? && !e.Called? && !e.FenceRefused? }

  /** The handler calls of one message: consecutive attempts. */
  function CallsFrom(attempt: int, n: nat): seq<Event> { seq(n, i => Called(attempt + i)) }

  /** Handler calls, then at most one decision. */
  predicate OneMessage(before: seq<Event>, after: seq<Event>, attempt: int, calls: nat, decided: seq<Event>) {
    Settles(before + CallsFrom(attempt, calls), after, decided)
  }

  /** At most one decision. */
  predicate Settles(before: seq<Event>, after: seq<Event>, decided: seq<Event>) {
    && after == before + decided
    && (decided == [] || (|decided| == 1 && IsDecision(decided[0])))
  }

  /** How often a message's handler may be called in one go. */
  function CallBound(cfg: Config, logical: string, attempt: int): nat {
    if RetriesInPlace(cfg, logical) && attempt < MaxFor(cfg, logical) then MaxFor(cfg, logical) - attempt + 1 else 1
  }

  /** Routing a failed message leaves the shared state alone so far, and decides it only if dead letters are off. */
  ghost predicate JustRouted(sh: Shared, e: Effect) {
    e.sh == sh && !HoldsLock(e.pc) && e.event == if e.pc.RoutingOut? then Silent else DecidedDlqOff
  }

  lemma RoutedSame(cfg: Config, sh: Shared, job: Message, logical: string, attempt: int, err: string)
    ensures JustRouted(sh, Protocol.FailAndRoute(cfg, sh, job, logical, err, sh.clock))
    ensures JustRouted(sh, AfterFailure(cfg, sh, job, logical, attempt, err))
  {
    hide RetryMessage;
  }

  lemma NoneYet(first: int)
    ensures CallsFrom(first, 0) == []
  {
  }

  lemma CallsExtend(first: int, n: nat)
    ensures CallsFrom(first, n + 1) == CallsFrom(first, n) + [Called(first + n)]
  {
  }

  /** The first call in front of the others. */
  lemma CallsPrepend(before: seq<Event>, after: seq<Event>, first: int, n: nat, decided: seq<Event>)
    requires OneMessage(before + [Called(first)], after, first + 1, n, decided)
    ensures OneMessage(before, after, first, n + 1, decided)
  {
    assert before + [Called(first)] + CallsFrom(first + 1, n) == before + CallsFrom(first, n + 1);
  }

  lemma NoCalls(before: seq<Event>, after: seq<Event>, first: int, decided: seq<Event>)
    requires Settles(before, after, decided)
    ensures OneMessage(before, after, first, 0, decided)
  {
    assert before + CallsFrom(first, 0) == before;
  }

  /** A message that failed for the last time here is at the store's Fail, or already past it. */
  ghost predicate FailurePending(cfg: Config, sh: Shared, job: Message, logical: string, attempt: int, err: string,
                                 lease: Option<Time>, pc: PC, before: seq<Event>, after: seq<Event>) {
    match lease
    case Some(deadline) => pc == Failing(job, logical, attempt, err, deadline) && after == before
    case None =>
      var e := AfterFailure(cfg, sh, job, logical, attempt, err);
      pc == e.pc && after == before + Shown(e.event)
  }

  function AfterSuccess(job: Message, lease: Option<Time>): PC {
    if lease.Some? then Completing(job, lease.value) else ToCommit(job)
  }

  /** Where a handler call that has just ended leaves the worker. */
  ghost predicate HandlerEnds(cfg: Config, sh: Shared, from: PC, failure: Option<string>, to: PC,
                              before: seq<Event>, after: seq<Event>)
    requires from.Handling?
  {
    match failure
    case None => to == AfterSuccess(from.job, from.lease) && after == before + [DecidedHandled]
    case Some(err) =>
      if RetriesInPlace(cfg, from.logical) && from.attempt < MaxFor(cfg, from.logical) then
        && to == Sleeping(from.job, from.cur, from.logical, from.attempt + 1, err, from.lease,
                          sh.clock + DelayFor(cfg, from.logical, from.attempt + 1))
        && after == before
      else FailurePending(cfg, sh, from.job, from.logical, from.attempt, err, from.lease, to, before, after)
  }

  /** `o` is the offset after one of the messages. */
  ghost predicate EndsOne(msgs: seq<Message>, o: int) {
    exists i :: 0 <= i < |msgs| && o == msgs[i].offset + 1
  }

  lemma EndsMore(msgs: seq<Message>, m: Message, o: int)
    ensures EndsOne(msgs, o) ==> EndsOne(msgs + [m], o)
    ensures EndsOne(msgs + [m], m.offset + 1)
  {
    if EndsOne(msgs, o) {
      var i :| 0 <= i < |msgs| && o == msgs[i].offset + 1;
      assert (msgs + [m])[i] == msgs[i];
    }
    assert (msgs + [m])[|msgs|] == m;
  }
}
