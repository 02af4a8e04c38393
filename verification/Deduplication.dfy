/** The idempotency store inside the running consumer: what its claims and verdicts are, over
    every run, and what that means for handler runs. The store's side of a world is a world of
    Claims, and every label is, to the store, one of its labels. */
module Deduplication {
  import opened Wrappers
  import opened Envelope
  import opened Config
  import opened Routing
  import opened Broker
  import opened Protocol
  import opened Safety
  import opened Runs
  import opened Actions
  import opened Exclusion
  import opened Drain
  import Claims

  function OwnerOf(tp: TP): Claims.Owner { Claims.Owner(0, tp.topic, tp.partition) }

  /** What the store's protocol sees of a worker. */
  function SlotOf(pc: PC): Option<Claims.Slot> {
    match pc
    case Asking(_, _, call) => Some(Claims.Trying(call))
    case Handling(job, _, _, _, Some(deadline)) => Some(Claims.Owning(job.id, deadline))
    case Sleeping(job, _, _, _, _, Some(deadline), _) => Some(Claims.Owning(job.id, deadline))
    case Completing(job, deadline) => Some(Claims.Owning(job.id, deadline))
    case Failing(job, _, _, _, deadline) => Some(Claims.Owning(job.id, deadline))
    case _ => None
  }

  function SlotsOf(workers: map<TP, Worker>): map<Claims.Owner, Claims.Slot> {
    map tp | tp in workers && SlotOf(workers[tp].pc).Some? :: OwnerOf(tp) := SlotOf(workers[tp].pc).value
  }

  function StoreWorld(w: World): Claims.World {
    Claims.World(w.sh.items, SlotsOf(w.workers), w.sh.clock, w.storeLog)
  }

  // ---- what one worker does to the store ----

  predicate PcLinked(cfg: Config, pc: PC) {
    match pc
    case Asking(job, _, call) => UsesStore(cfg, job) && call.key == job.id
    case Handling(job, _, _, _, lease) => lease.Some? <==> UsesStore(cfg, job)
    case Sleeping(job, _, _, _, _, lease, _) => lease.Some? <==> UsesStore(cfg, job)
    case Completing(job, _) => UsesStore(cfg, job)
    case Failing(job, _, _, _, _) => UsesStore(cfg, job)
    case _ => true
  }

  /** The store's label of an action of the worker of `tp`, at `clock`. */
  function StoreLabel(tp: TP, pc: PC, c: Choice, next: PC, clock: Time): Claims.Label {
    var i := OwnerOf(tp);
    if pc.Asking? && c.storeError.None? then Claims.Act(i)
    else if pc.Claiming? && next.Asking? then Claims.Sample(i, pc.job.id, clock)
    else if pc.Completing? && c.storeError.None? then Claims.CallComplete(i, pc.job.id, clock)
    else if pc.Failing? && c.storeError.None? then Claims.CallFail(i, pc.job.id, clock)
    else if SlotOf(pc).Some? && SlotOf(next).None? then Claims.GiveUp(i)
    else Claims.Tick(clock)
  }

  /** The action leaves the store's world as its label does. */
  ghost predicate SameToStore(cfg: Config, items: Claims.Items, pc: PC, c: Choice, e: Effect)
    requires cfg.store.Some?
  {
    var a := cfg.store.value;
    if pc.Asking? && c.storeError.None? then
      var r := Claims.TryStartCall(a, cfg.ttl, items, pc.call);
      match r.next
      case Some(next) => e.sh.items == items && SlotOf(e.pc) == Some(Claims.Trying(next)) && e.told == []
      case None =>
        if r.result == Some(Claims.Proceed) then
          && e.sh.items == r.items && SlotOf(e.pc) == Some(Claims.Owning(pc.call.key, pc.call.now + cfg.ttl))
          && e.told == [Claims.Claim(pc.call.key, pc.call.now)]
        else e.sh.items == items && SlotOf(e.pc) == None && e.told == []
    else if pc.Claiming? && e.pc.Asking? then
      e.sh.items == items && SlotOf(e.pc) == Some(Claims.Trying(Claims.Sampled(pc.job.id, e.sh.clock))) && e.told == []
    else if pc.Completing? && c.storeError.None? then
      && e.sh.items == items[pc.job.id := Claims.DoneRec(a, cfg.ttl, e.sh.clock)] && SlotOf(e.pc) == None
      && e.told == [Claims.Completion(pc.job.id, e.sh.clock)]
    else if pc.Failing? && c.storeError.None? then
      && e.sh.items == items[pc.job.id := Claims.FailedRec(a, cfg.ttl, e.sh.clock)] && SlotOf(e.pc) == None
      && e.told == [Claims.Failure(pc.job.id)]
    else e.sh.items == items && e.told == [] && (SlotOf(e.pc) == None || SlotOf(e.pc) == SlotOf(pc))
  }

  /** What an action means for the records of what was handled. */
  ghost predicate Means(cfg: Config, items: Claims.Items, pc: PC, c: Choice, e: Effect)
    requires Busy(pc)
  {
    && PcLinked(cfg, e.pc)
    && (e.event.DecidedHandled? ==> pc.Handling? && (UsesStore(cfg, pc.job) ==> e.pc.Completing? && e.pc.job == pc.job))
    && (e.pc.Completing? ==> e.pc.job == pc.job && (e.event.DecidedHandled? || pc.Completing?))
    && (e.event.DecidedSkipCompleted? ==> pc.job.id in items && items[pc.job.id].state.Completed?)
    && (pc.Completing? && !e.pc.Completing? && cfg.store.Some? ==>
          c.storeError.Some? || e.told == [Claims.Completion(pc.job.id, e.sh.clock)])
    && (forall key :: key in e.sh.items && e.sh.items[key].state.Completed? ==>
          (key in items && items[key].state.Completed?) || (pc.Completing? && key == pc.job.id))
  }

  /** Failed messages leave the store alone from here on. */
  lemma RoutedQuietly(cfg: Config, sh: Shared, job: Message, logical: string, attempt: int, err: string)
    ensures var e := Protocol.FailAndRoute(cfg, sh, job, logical, err, sh.clock);
      e.sh == sh && e.told == [] && !InHandlerPhase(e.pc) && (e.event.Silent? || e.event.DecidedDlqOff?)
    ensures var e := AfterFailure(cfg, sh, job, logical, attempt, err);
      e.sh == sh && e.told == [] && !InHandlerPhase(e.pc) && (e.event.Silent? || e.event.DecidedDlqOff?)
  {
    hide RetryMessage;
  }

  lemma OutsidePhase(cfg: Config, pc: PC)
    requires !InHandlerPhase(pc)
    ensures PcLinked(cfg, pc) && SlotOf(pc) == None
  {
  }

  lemma AskIsCall(cfg: Config, perKey: bool, sh: Shared, pc: PC, c: Choice)
    requires pc.Asking? && cfg.store.Some? && PcLinked(cfg, pc)
    ensures SameToStore(cfg, sh.items, pc, c, AskStep(cfg, perKey, sh, pc, c))
  {
    hide Protocol.FailAndRoute, Claims.TryStartCall;
    Claims.CallKeepsClock(cfg.store.value, cfg.ttl, sh.items, pc.call);
    if c.storeError.Some? {
      RoutedQuietly(cfg, sh, pc.job, pc.logical, 0, c.storeError.value);
      OutsidePhase(cfg, AskStep(cfg, perKey, sh, pc, c).pc);
    }
  }

  lemma AskMeans(cfg: Config, perKey: bool, sh: Shared, pc: PC, c: Choice)
    requires pc.Asking? && cfg.store.Some? && PcLinked(cfg, pc)
    ensures Means(cfg, sh.items, pc, c, AskStep(cfg, perKey, sh, pc, c))
  {
    hide Protocol.FailAndRoute, SlotOf;
    if c.storeError.Some? {
      RoutedQuietly(cfg, sh, pc.job, pc.logical, 0, c.storeError.value);
      OutsidePhase(cfg, AskStep(cfg, perKey, sh, pc, c).pc);
    }
  }

  lemma EndMeans(cfg: Config, sh: Shared, pc: PC, c: Choice)
    requires pc.Handling? && cfg.store.Some? && PcLinked(cfg, pc)
    ensures var e := HandlerEnd(cfg, sh, pc, c); SameToStore(cfg, sh.items, pc, c, e) && Means(cfg, sh.items, pc, c, e)
  {
    hide AfterFailure, RetriesInPlace;
    if c.failure.Some? {
      RoutedQuietly(cfg, sh, pc.job, pc.logical, pc.attempt, c.failure.value);
      OutsidePhase(cfg, AfterFailure(cfg, sh, pc.job, pc.logical, pc.attempt, c.failure.value).pc);
    }
  }

  lemma VerdictMeans(cfg: Config, sh: Shared, pc: PC, c: Choice)
    requires (pc.Completing? || pc.Failing?) && cfg.store.Some? && PcLinked(cfg, pc)
    ensures var e := VerdictStep(cfg, sh, pc, c); SameToStore(cfg, sh.items, pc, c, e) && Means(cfg, sh.items, pc, c, e)
  {
    hide AfterFailure;
    if pc.Failing? {
      var sh' := sh.(items := sh.items[pc.job.id := Claims.FailedRec(cfg.store.value, cfg.ttl, sh.clock)]);
      RoutedQuietly(cfg, sh, pc.job, pc.logical, pc.attempt, pc.err);
      RoutedQuietly(cfg, sh', pc.job, pc.logical, pc.attempt, pc.err);
      OutsidePhase(cfg, AfterFailure(cfg, sh, pc.job, pc.logical, pc.attempt, pc.err).pc);
      OutsidePhase(cfg, AfterFailure(cfg, sh', pc.job, pc.logical, pc.attempt, pc.err).pc);
    }
  }

  lemma HandlerMeans(cfg: Config, perKey: bool, sh: Shared, pc: PC, c: Choice)
    requires InHandlerPhase(pc) && cfg.store.Some? && PcLinked(cfg, pc)
    ensures var e := HandlerStep(cfg, perKey, sh, pc, c);
      SameToStore(cfg, sh.items, pc, c, e) && Means(cfg, sh.items, pc, c, e)
  {
    hide AskStep, HandlerEnd, VerdictStep, AttachRetry, LookupOk, Claims.TryStartCall;
    if pc.Asking? {
      AskIsCall(cfg, perKey, sh, pc, c);
      AskMeans(cfg, perKey, sh, pc, c);
    }
    if pc.Handling? { EndMeans(cfg, sh, pc, c); }
    if pc.Completing? || pc.Failing? { VerdictMeans(cfg, sh, pc, c); }
  }

  lemma RouteTellsNothing(cfg: Config, perKey: bool, sh: Shared, pc: PC, c: Choice)
    requires pc.RoutingOut? && WellFormed(sh.broker)
    ensures var e := RouteStep(cfg, perKey, sh, pc, c);
      e.told == [] && e.sh.items == sh.items && e.sh.clock == sh.clock && !InHandlerPhase(e.pc)
      && (e.event.Silent? || e.event.FenceRefused? || e.event.Routed?)
  {
    hide Append, ApplyTxn, Destination, Lists, Log, WellFormed, Assigned;
  }

  lemma CommitTellsNothing(cfg: Config, perKey: bool, sh: Shared, pc: PC)
    requires pc.Committing? && WellFormed(sh.broker)
    ensures var e := CommitStep(cfg, perKey, sh, pc);
      e.told == [] && e.sh.items == sh.items && e.sh.clock == sh.clock && !InHandlerPhase(e.pc) && e.event.Silent?
  {
    hide Raise, WellFormed, Assigned;
  }

  lemma BusyMeans(cfg: Config, perKey: bool, sh: Shared, pc: PC, c: Choice)
    requires Busy(pc) && WellFormed(sh.broker) && cfg.store.Some? && PcLinked(cfg, pc)
    ensures var e := BusyStep(cfg, perKey, sh, pc, c);
      SameToStore(cfg, sh.items, pc, c, e) && Means(cfg, sh.items, pc, c, e)
    ensures BusyStep(cfg, perKey, sh, pc, c).sh.clock >= sh.clock
  {
    hide HandlerStep, RouteStep, CommitStep, WellFormed, Claims.TryStartCall;
    var e := BusyStep(cfg, perKey, sh, pc, c);
    if pc.RoutingOut? {
      RouteTellsNothing(cfg, perKey, Later(sh, c), pc, c);
      OutsidePhase(cfg, e.pc);
    } else if pc.Committing? {
      CommitTellsNothing(cfg, perKey, Later(sh, c), pc);
      OutsidePhase(cfg, e.pc);
    } else {
      HandlerMeans(cfg, perKey, Later(sh, c), pc, c);
      HandlerKeepsClock(cfg, perKey, Later(sh, c), pc, c);
    }
  }

  lemma HandlerKeepsClock(cfg: Config, perKey: bool, sh: Shared, pc: PC, c: Choice)
    requires InHandlerPhase(pc)
    ensures HandlerStep(cfg, perKey, sh, pc, c).sh.clock == sh.clock
  {
    hide RetryMessage, AttachRetry, LookupOk, Claims.TryStartCall, RetriesInPlace;
  }

  // ---- every label is one of the store's ----

  lemma SlotsAfter(workers: map<TP, Worker>, tp: TP, wk: Worker)
    ensures SlotsOf(workers[tp := wk]) ==
      if SlotOf(wk.pc).Some? then SlotsOf(workers)[OwnerOf(tp) := SlotOf(wk.pc).value]
      else SlotsOf(workers) - {OwnerOf(tp)}
  {
    hide SlotOf;
    var workers' := workers[tp := wk];
    var s, s' := SlotsOf(workers), SlotsOf(workers');
    forall q ensures OwnerOf(q) in s' <==> (if q == tp then SlotOf(wk.pc).Some? else OwnerOf(q) in s) {
      SlotThere(workers, q);
      SlotThere(workers', q);
    }
    forall q | OwnerOf(q) in s' ensures s'[OwnerOf(q)] == if q == tp then SlotOf(wk.pc).value else s[OwnerOf(q)] {
      SlotThere(workers, q);
      SlotThere(workers', q);
    }
    forall o | o in s' ensures exists q :: o == OwnerOf(q) { SlotOwner(workers', o); }
    forall o | o in s ensures exists q :: o == OwnerOf(q) { SlotOwner(workers, o); }
  }

  lemma SlotThere(workers: map<TP, Worker>, tp: TP)
    ensures OwnerOf(tp) in SlotsOf(workers) <==> tp in workers && SlotOf(workers[tp].pc).Some?
    ensures tp in workers && SlotOf(workers[tp].pc).Some? ==>
      SlotsOf(workers)[OwnerOf(tp)] == SlotOf(workers[tp].pc).value
  {
    hide SlotOf;
  }

  lemma SlotOwner(workers: map<TP, Worker>, o: Claims.Owner)
    requires o in SlotsOf(workers)
    ensures exists tp :: o == OwnerOf(tp)
  {
  }

  /** A busy worker's action, to the store. */
  lemma ActionIsLabel(cfg: Config, w: World, tp: TP, wk: Worker, c: Choice, e: Effect)
    requires cfg.store.Some? && tp in w.workers && w.workers[tp] == wk && Busy(wk.pc) && PcLinked(cfg, wk.pc)
    requires SameToStore(cfg, w.sh.items, wk.pc, c, e)
    ensures StoreWorld(AfterEffect(w, tp, wk, e)) ==
      Claims.Step(cfg.store.value, cfg.ttl, StoreWorld(w).(time := e.sh.clock),
                  StoreLabel(tp, wk.pc, c, e.pc, e.sh.clock))
  {
    hide SlotsOf, SlotOf, ApplyToHist, ApplyToCalls, ApplyToLife, Claims.Step, StoreLabel, SameToStore;
    SlotThere(w.workers, tp);
    SlotShapes(cfg, wk.pc);
    SlotsAfter(w.workers, tp, wk.(pc := e.pc));
    var x := StoreWorld(w).(time := e.sh.clock);
    assert StoreWorld(AfterEffect(w, tp, wk, e)) == Claims.World(e.sh.items, SlotsWith(x.slots, tp, SlotOf(e.pc)),
                                                                 e.sh.clock, x.history + e.told);
    if wk.pc.Asking? && c.storeError.None? {
      CallIsAct(cfg, x, tp, wk.pc, c, e);
    } else {
      MoveIsLabel(cfg, x, w.workers, tp, wk.pc, c, e);
    }
  }

  function SlotsWith(slots: map<Claims.Owner, Claims.Slot>, tp: TP, s: Option<Claims.Slot>)
    : map<Claims.Owner, Claims.Slot> {
    if s.Some? then slots[OwnerOf(tp) := s.value] else slots - {OwnerOf(tp)}
  }

  lemma CallIsAct(cfg: Config, x: Claims.World, tp: TP, pc: PC, c: Choice, e: Effect)
    requires cfg.store.Some? && pc.Asking? && c.storeError.None? && SameToStore(cfg, x.items, pc, c, e)
    requires OwnerOf(tp) in x.slots && x.slots[OwnerOf(tp)] == Claims.Trying(pc.call) && x.time == e.sh.clock
    ensures Claims.World(e.sh.items, SlotsWith(x.slots, tp, SlotOf(e.pc)), e.sh.clock, x.history + e.told) ==
      Claims.Step(cfg.store.value, cfg.ttl, x, StoreLabel(tp, pc, c, e.pc, e.sh.clock))
  {
    hide SlotOf, Claims.TryStartCall;
    assert x.history + [] == x.history;
  }

  lemma MoveIsLabel(cfg: Config, x: Claims.World, workers: map<TP, Worker>, tp: TP, pc: PC, c: Choice, e: Effect)
    requires cfg.store.Some? && PcLinked(cfg, pc) && !(pc.Asking? && c.storeError.None?)
    requires SameToStore(cfg, x.items, pc, c, e)
    requires tp in workers && workers[tp].pc == pc && x.slots == SlotsOf(workers) && x.time == e.sh.clock
    ensures Claims.World(e.sh.items, SlotsWith(x.slots, tp, SlotOf(e.pc)), e.sh.clock, x.history + e.told) ==
      Claims.Step(cfg.store.value, cfg.ttl, x, StoreLabel(tp, pc, c, e.pc, e.sh.clock))
  {
    hide SlotsOf, SlotOf, Claims.TryStartCall;
    SlotThere(workers, tp);
    SlotShapes(cfg, pc);
    assert x.history + [] == x.history;
    if SlotOf(e.pc) == SlotOf(pc) { assert SlotsWith(x.slots, tp, SlotOf(e.pc)) == x.slots; }
  }

  lemma SlotShapes(cfg: Config, pc: PC)
    ensures pc.Asking? ==> SlotOf(pc) == Some(Claims.Trying(pc.call))
    ensures pc.Claiming? ==> SlotOf(pc) == None
    ensures PcLinked(cfg, pc) && (pc.Completing? || pc.Failing?) ==>
      SlotOf(pc) == Some(Claims.Owning(pc.job.id, pc.deadline))
  {
  }

  // ---- what holds over every run ----

  /** The message with this ID was handled successfully somewhere. */
  ghost predicate Known(w: World, id: string) {
    exists p :: p in w.successes && InLog(w.sh.broker, p) && MessageFromRecord(RecordAt(w.sh.broker, p)).id == id
  }

  ghost predicate Linked(cfg: Config, w: World) {
    && (forall tp :: tp in w.workers ==> PcLinked(cfg, w.workers[tp].pc))
    && (forall tp :: tp in w.workers && w.workers[tp].pc.Completing? ==> Known(w, w.workers[tp].pc.job.id))
    && (forall key :: key in w.sh.items && w.sh.items[key].state.Completed? ==> Known(w, key))
    && (forall tp, o :: o in HistOf(w, tp).skippedCompleted ==>
          InLog(w.sh.broker, Pos(tp, o)) && Known(w, MessageFromRecord(RecordAt(w.sh.broker, Pos(tp, o))).id))
    && (forall p :: p in w.successes <==> p.offset in HistOf(w, p.tp).handled)
  }

  lemma KnownGrows(w: World, w': World, id: string)
    requires Known(w, id) && LogsGrow(w.sh.broker, w'.sh.broker) && w.successes <= w'.successes
    ensures Known(w', id)
  {
    hide MessageFromRecord;
    var p :| p in w.successes && InLog(w.sh.broker, p) && MessageFromRecord(RecordAt(w.sh.broker, p)).id == id;
    assert Log(w.sh.broker, p.tp) <= Log(w'.sh.broker, p.tp);
    assert p in w'.successes;
  }

  /** The job of a busy worker, as it is stored. */
  lemma JobStored(cfg: Config, w: World, tp: TP)
    requires Inv(cfg, w) && tp in w.workers && Busy(w.workers[tp].pc)
    ensures var p := Pos(tp, w.workers[tp].pc.job.offset);
      InLog(w.sh.broker, p) && MessageFromRecord(RecordAt(w.sh.broker, p)) == w.workers[tp].pc.job
  {
    hide OriginSound, OriginComplete, OriginInjective, NothingLost, Justified, RoutingOk, LifeBehind, DrainOk,
      RoutedBelowCommitted, CallsBehind;
    assert PartInv(cfg, SliceOf(w, tp));
    assert LogOk(Log(w.sh.broker, tp), tp);
    JobOffset(SliceOf(w, tp), tp);
  }

  lemma HistMoves(w: World, tp: TP, wk: Worker, e: Effect, q: TP)
    requires Busy(wk.pc)
    ensures var h, h' := HistOf(w, q), HistOf(AfterEffect(w, tp, wk, e), q);
      var here := if q == tp then {wk.pc.job.offset} else {};
      && h'.handled == h.handled + (if e.event.DecidedHandled? then here else {})
      && h'.skippedCompleted == h.skippedCompleted + (if e.event.DecidedSkipCompleted? then here else {})
  {
  }

  lemma BusyKeepsLinked(cfg: Config, w: World, tp: TP, c: Choice)
    requires BusyMove(cfg, w, tp, c) && Linked(cfg, w) && cfg.store.Some?
    ensures var wk := w.workers[tp]; Linked(cfg, AfterEffect(w, tp, wk, BusyStep(cfg, wk.perKey, w.sh, wk.pc, c)))
  {
    hide Inv, BusyStep, WellFormed, ApplyToHist, ApplyToCalls, ApplyToLife, SameToStore, MessageFromRecord, HistOf,
      Known, PcLinked, LogsGrow;
    InvWellFormed(cfg, w);
    var wk := w.workers[tp];
    var e := BusyStep(cfg, wk.perKey, w.sh, wk.pc, c);
    var w' := AfterEffect(w, tp, wk, e);
    BusyMeans(cfg, wk.perKey, w.sh, wk.pc, c);
    BusyFrame(cfg, w, tp, c);
    JobStored(cfg, w, tp);
    forall id | Known(w, id) ensures Known(w', id) { KnownGrows(w, w', id); }
    if e.event.DecidedHandled? { JobKnown(cfg, w, w', Pos(tp, wk.pc.job.offset), wk.pc.job.id); }
    forall q, o | o in HistOf(w', q).skippedCompleted
      ensures InLog(w'.sh.broker, Pos(q, o)) && Known(w', MessageFromRecord(RecordAt(w'.sh.broker, Pos(q, o))).id)
    {
      HistMoves(w, tp, wk, e, q);
      LogGrew(w, w', q);
    }
    forall p ensures p in w'.successes <==> p.offset in HistOf(w', p.tp).handled {
      HistMoves(w, tp, wk, e, p.tp);
    }
  }

  lemma LogGrew(w: World, w': World, q: TP)
    requires LogsGrow(w.sh.broker, w'.sh.broker)
    ensures Log(w.sh.broker, q) <= Log(w'.sh.broker, q)
  {
  }

  lemma JobKnown(cfg: Config, w: World, w': World, p: Pos, id: string)
    requires InLog(w.sh.broker, p) && MessageFromRecord(RecordAt(w.sh.broker, p)).id == id
    requires LogsGrow(w.sh.broker, w'.sh.broker) && w'.successes == w.successes + [p]
    ensures Known(w', id)
  {
    hide MessageFromRecord;
    assert Log(w.sh.broker, p.tp) <= Log(w'.sh.broker, p.tp);
    assert w'.successes[|w.successes|] == p;
    assert InLog(w'.sh.broker, p) && MessageFromRecord(RecordAt(w'.sh.broker, p)).id == id;
  }

  /** Whatever is not a busy worker's action gives no verdict and starts no handler; only the
      store's own dropping of a record concerns the store. */
  ghost predicate QuietToStore(w: World, w': World, l: Label) {
    && LogsGrow(w.sh.broker, w'.sh.broker) && w'.hist == w.hist && w'.successes == w.successes
    && w'.sh.clock == w.sh.clock
    && (if l.Evict? then
          w'.sh.items == w.sh.items - {l.key} && w'.storeLog == w.storeLog + [Claims.Removal(l.key, w.sh.clock)]
        else w'.sh.items == w.sh.items && w'.storeLog == w.storeLog)
    && (forall tp :: tp in w'.workers ==>
          || (tp in w.workers && w'.workers[tp].pc == w.workers[tp].pc)
          || w'.workers[tp].pc.Idle? || w'.workers[tp].pc.Exited? || w'.workers[tp].pc.Starting?)
    && (if l.Stop? then w'.workers == map[]
        else
          forall tp :: tp in w.workers && Busy(w.workers[tp].pc) ==>
            tp in w'.workers && w'.workers[tp].pc == w.workers[tp].pc)
  }

  lemma QuietShape(cfg: Config, w: World, l: Label)
    requires Inv(cfg, w) && cfg.groupID != ""
    requires !(l.Work? && w.live && l.tp in w.workers && Busy(w.workers[l.tp].pc))
    ensures WellFormed(w.sh.broker) && QuietToStore(w, Step(cfg, w, l), l)
  {
    hide Inv, Step, WellFormed, BusyStep, WorkStep, PollStep, EnqueueStep, FlagStep, OutsideEffect, LogsGrow;
    InvWellFormed(cfg, w);
    StepIs(cfg, w, l);
    if IsOutside(l) {
      OutsideMoves(cfg, w, l);
    } else if IsFlag(l) {
      FlagMoves(cfg, w, l);
      FlagToStore(w, l);
    } else if l.Stop? || l.Restart? {
      StopToStore(cfg, w, l);
    } else {
      DispatchToStore(cfg, w, l);
    }
  }

  lemma DispatchToStore(cfg: Config, w: World, l: Label)
    requires WellFormed(w.sh.broker) && (l.Work? || l.Poll? || l.Enqueue?)
    requires !(l.Work? && w.live && l.tp in w.workers && Busy(w.workers[l.tp].pc))
    ensures QuietToStore(w, Step(cfg, w, l), l)
  {
    hide Step, WellFormed, BusyStep, WorkStep, PollStep, EnqueueStep, LogsGrow, MessageFromRecord;
    StepIs(cfg, w, l);
    SameLogsGrow(w);
    if l.Poll? {
      PollToStore(w);
    } else if l.Work? {
      if WorkStep(cfg, w, l.tp, l.choice) != w { var wk := IdleShape(cfg, w, l.tp, l.choice); }
    } else if EnqueueStep(cfg, w, l.ordering) != w {
      var m, wk := EnqueueShape(cfg, w, l.ordering);
      NoWorkerQuiet();
    }
  }

  lemma NoWorkerQuiet()
    ensures NO_WORKER.pc.Idle?
  {
  }

  lemma SameLogsGrow(w: World)
    ensures LogsGrow(w.sh.broker, w.sh.broker)
  {
  }

  lemma FlagToStore(w: World, l: Label)
    requires IsFlag(l)
    ensures var w' := FlagStep(w, l);
      && w'.successes == w.successes && w'.sh.clock == w.sh.clock
      && (if l.Evict? then
            w'.sh.items == w.sh.items - {l.key} && w'.storeLog == w.storeLog + [Claims.Removal(l.key, w.sh.clock)]
          else w'.sh.items == w.sh.items && w'.storeLog == w.storeLog)
  {
  }

  lemma PollToStore(w: World)
    ensures var w' := PollStep(w);
      && w'.sh.broker == w.sh.broker && w'.hist == w.hist && w'.successes == w.successes && w'.sh.clock == w.sh.clock
      && w'.sh.items == w.sh.items && w'.storeLog == w.storeLog && w'.workers == w.workers
  {
    hide PollTarget, MessageFromRecord;
  }

  lemma StopToStore(cfg: Config, w: World, l: Label)
    requires Inv(cfg, w) && (l.Stop? || l.Restart?)
    ensures WellFormed(w.sh.broker) && QuietToStore(w, Step(cfg, w, l), l)
  {
    hide PartInv, OriginSound, OriginComplete, OriginInjective, WellFormed;
    forall tp ensures Log(Step(cfg, w, l).sh.broker, tp) == Log(w.sh.broker, tp) {}
  }

  lemma QuietKeepsLinked(cfg: Config, w: World, w': World, l: Label)
    requires Linked(cfg, w) && QuietToStore(w, w', l)
    ensures Linked(cfg, w')
  {
    hide Known, MessageFromRecord, PcLinked, LogsGrow;
    FreshPcs(cfg);
    forall id | Known(w, id) ensures Known(w', id) { KnownGrows(w, w', id); }
    forall tp, o | o in HistOf(w', tp).skippedCompleted
      ensures InLog(w'.sh.broker, Pos(tp, o)) && Known(w', MessageFromRecord(RecordAt(w'.sh.broker, Pos(tp, o))).id)
    {
      assert o in HistOf(w, tp).skippedCompleted;
      LogGrew(w, w', tp);
    }
    assert forall p :: HistOf(w', p) == HistOf(w, p);
  }

  lemma FreshPcs(cfg: Config)
    ensures forall pc: PC :: pc.Idle? || pc.Exited? || pc.Starting? ==> PcLinked(cfg, pc)
  {
  }

  lemma StepKeepsLinked(cfg: Config, w: World, l: Label)
    requires Inv(cfg, w) && cfg.groupID != "" && cfg.store.Some? && Linked(cfg, w)
    ensures WellFormed(w.sh.broker) && Linked(cfg, Step(cfg, w, l))
  {
    hide Inv, Step, WellFormed, BusyStep, AfterEffect, Linked, QuietToStore;
    InvWellFormed(cfg, w);
    if l.Work? && w.live && l.tp in w.workers && Busy(w.workers[l.tp].pc) {
      BusyKeepsLinked(cfg, w, l.tp, l.choice);
      BusyWorkStep(cfg, w, l);
    } else {
      QuietShape(cfg, w, l);
      QuietKeepsLinked(cfg, w, Step(cfg, w, l), l);
    }
  }

  lemma BusyWorkStep(cfg: Config, w: World, l: Label)
    requires WellFormed(w.sh.broker) && l.Work? && w.live && l.tp in w.workers && Busy(w.workers[l.tp].pc)
    ensures var wk := w.workers[l.tp]; Step(cfg, w, l) == AfterEffect(w, l.tp, wk,
                                                                      BusyStep(cfg, wk.perKey, w.sh, wk.pc, l.choice))
  {
    hide WellFormed, BusyStep, AfterEffect;
  }

  lemma {:induction false} RunLinked(cfg: Config, labels: seq<Label>)
    requires cfg.groupID != "" && cfg.store.Some?
    ensures Linked(cfg, Run(cfg, labels))
  {
    hide Inv, Step, Run, Linked;
    if labels == [] {
      RunStart(cfg);
      StartLinked(cfg);
    } else {
      var init := labels[..|labels| - 1];
      RunStep(cfg, labels);
      RunInv(cfg, init);
      RunLinked(cfg, init);
      StepKeepsLinked(cfg, Run(cfg, init), labels[|labels| - 1]);
    }
  }

  lemma StartLinked(cfg: Config)
    ensures Linked(cfg, StartWorld(cfg))
  {
  }

  /** A message is skipped as completed only if a message with its ID was handled before, in
      this process or an earlier one, whatever crashes, clocks and lost records there were. */
  lemma SkippedWasHandled(cfg: Config, labels: seq<Label>, tp: TP, o: int)
    requires cfg.groupID != "" && cfg.store.Some? && o in HistOf(Run(cfg, labels), tp).skippedCompleted
    ensures var w := Run(cfg, labels);
      && InLog(w.sh.broker, Pos(tp, o))
      && exists p: Pos :: p.offset in HistOf(w, p.tp).handled && InLog(w.sh.broker, p)
           && MessageFromRecord(RecordAt(w.sh.broker, p)).id == MessageFromRecord(RecordAt(w.sh.broker, Pos(tp, o))).id
  {
    hide Run, MessageFromRecord;
    RunLinked(cfg, labels);
    var w := Run(cfg, labels);
    var id := MessageFromRecord(RecordAt(w.sh.broker, Pos(tp, o))).id;
    assert Known(w, id);
    var p :| p in w.successes && InLog(w.sh.broker, p) && MessageFromRecord(RecordAt(w.sh.broker, p)).id == id;
    assert p.offset in HistOf(w, p.tp).handled;
  }

  // ---- claims, over every run ----

  ghost predicate SafeStore(cfg: Config, w: World)
    requires cfg.store.Some?
  {
    Claims.Safe(cfg.store.value, cfg.ttl, StoreWorld(w))
  }

  lemma StepKeepsStore(cfg: Config, w: World, l: Label)
    requires Inv(cfg, w) && cfg.groupID != "" && cfg.store.Some? && Linked(cfg, w) && SafeStore(cfg, w)
    ensures WellFormed(w.sh.broker) && SafeStore(cfg, Step(cfg, w, l))
  {
    hide Inv, Step, WellFormed, BusyStep, AfterEffect, SameToStore, Means, Claims.Step, Claims.KeyOk,
      Claims.SafeHistory, SlotsOf;
    InvWellFormed(cfg, w);
    var a, x := cfg.store.value, StoreWorld(w);
    if l.Work? && w.live && l.tp in w.workers && Busy(w.workers[l.tp].pc) {
      var wk := w.workers[l.tp];
      var e := BusyStep(cfg, wk.perKey, w.sh, wk.pc, l.choice);
      BusyWorkStep(cfg, w, l);
      BusyMeans(cfg, wk.perKey, w.sh, wk.pc, l.choice);
      ActionIsLabel(cfg, w, l.tp, wk, l.choice, e);
      Claims.StepKeepsSafe(a, cfg.ttl, x.(time := e.sh.clock), StoreLabel(l.tp, wk.pc, l.choice, e.pc, e.sh.clock));
    } else {
      QuietShape(cfg, w, l);
      if l.Evict? {
        Claims.StepKeepsSafe(a, cfg.ttl, x, Claims.Evict(l.key));
        EvictIs(a, cfg.ttl, x, l.key);
      }
    }
  }

  lemma EvictIs(a: Claims.Adapter, ttl: int, x: Claims.World, key: string)
    ensures Claims.Step(a, ttl, x, Claims.Evict(key)) ==
      x.(items := x.items - {key}, history := x.history + [Claims.Removal(key, x.time)])
  {
  }

  lemma {:induction false} RunStore(cfg: Config, labels: seq<Label>)
    requires cfg.groupID != "" && cfg.store.Some?
    ensures SafeStore(cfg, Run(cfg, labels))
  {
    hide Inv, Step, Run, Linked, SafeStore;
    if labels == [] {
      RunStart(cfg);
      StartStore(cfg);
    } else {
      var init := labels[..|labels| - 1];
      RunStep(cfg, labels);
      RunInv(cfg, init);
      RunLinked(cfg, init);
      RunStore(cfg, init);
      StepKeepsStore(cfg, Run(cfg, init), labels[|labels| - 1]);
    }
  }

  lemma StartStore(cfg: Config)
    requires cfg.store.Some?
    ensures SafeStore(cfg, StartWorld(cfg))
  {
  }

  /** In every run of the consumer, two handler starts under claims of one ID are separated: in
      between the ID failed or was dropped by the store, or the lease had run out and nothing
      completed it. */
  lemma {:induction false} HandlerClaimsAreSeparated(cfg: Config, labels: seq<Label>, i: nat, j: nat)
    requires cfg.groupID != "" && cfg.store.Some?
    requires var h := Run(cfg, labels).storeLog; i < j < |h| && h[i].Claim? && Claims.ClaimOf(h[j], h[i].key)
    ensures var h := Run(cfg, labels).storeLog;
      exists m {:trigger Claims.Separated(cfg.store.value, cfg.ttl, h, m, j)} ::
        i <= m < j && h[m].key == h[i].key && Claims.Separated(cfg.store.value, cfg.ttl, h, m, j)
  {
    hide Run, Claims.LastClaim, Claims.Separated, Claims.KeyOk, Claims.SafeHistory;
    RunStore(cfg, labels);
    var h := Run(cfg, labels).storeLog;
    var m := Claims.PreviousClaim(h, h[i].key, i, j);
    Claims.HistorySeparated(cfg.store.value, cfg.ttl, h, m, j);
  }

  // ---- everybody in time ----

  predicate HoldsLease(pc: PC) { SlotOf(pc).Some? && SlotOf(pc).value.Owning? }

  /** The lease is longer than the handling: time does not pass the deadline of a worker that
      holds one; and the store keeps its records for their time. */
  ghost predicate InTime(cfg: Config, w: World, l: Label)
    requires cfg.store.Some? && WellFormed(w.sh.broker)
  {
    && (forall tp :: tp in w.workers && HoldsLease(w.workers[tp].pc) ==>
          Step(cfg, w, l).sh.clock <= SlotOf(w.workers[tp].pc).value.deadline)
    && (l.Evict? ==> Claims.Disciplined(cfg.store.value, StoreWorld(w), Claims.Evict(l.key)))
  }

  /** Nothing comes between a handler's success and the store's Complete. */
  predicate Reported(w: World, l: Label) {
    && (l.Stop? ==> forall tp :: tp in w.workers ==> !w.workers[tp].pc.Completing?)
    && (l.Work? && l.tp in w.workers && w.workers[l.tp].pc.Completing? ==> l.choice.storeError.None?)
  }

  ghost predicate AllInTime(cfg: Config, labels: seq<Label>)
    requires cfg.store.Some?
  {
    forall n {:trigger labels[n]} :: 0 <= n < |labels| ==> InTime(cfg, Run(cfg, labels[..n]), labels[n])
  }

  ghost predicate AllReported(cfg: Config, labels: seq<Label>) {
    forall n {:trigger labels[n]} :: 0 <= n < |labels| ==> Reported(Run(cfg, labels[..n]), labels[n])
  }

  ghost predicate ExclusiveStore(cfg: Config, w: World)
    requires cfg.store.Some?
  {
    Claims.Exclusive(cfg.store.value, cfg.ttl, StoreWorld(w))
  }

  /** Workers in time keep the store's discipline. */
  lemma LabelDisciplined(cfg: Config, w: World, tp: TP, c: Choice, e: Effect)
    requires cfg.store.Some? && tp in w.workers && PcLinked(cfg, w.workers[tp].pc)
    requires HoldsLease(w.workers[tp].pc) ==> e.sh.clock <= SlotOf(w.workers[tp].pc).value.deadline
    ensures Claims.Disciplined(cfg.store.value, StoreWorld(w).(time := e.sh.clock),
                               StoreLabel(tp, w.workers[tp].pc, c, e.pc, e.sh.clock))
  {
    hide SlotsOf;
    SlotThere(w.workers, tp);
    SlotShapes(cfg, w.workers[tp].pc);
  }

  lemma StepKeepsExclusive(cfg: Config, w: World, l: Label)
    requires Inv(cfg, w) && cfg.groupID != "" && cfg.store.Some? && cfg.ttl > 0 && Linked(cfg, w)
    requires ExclusiveStore(cfg, w)
    requires WellFormed(w.sh.broker) && InTime(cfg, w, l)
    ensures ExclusiveStore(cfg, Step(cfg, w, l))
  {
    hide Inv, Step, WellFormed, BusyStep, AfterEffect, SameToStore, Means, Claims.Step, Claims.Exclusive,
      Claims.Disciplined, SlotsOf, StoreLabel;
    var a, x := cfg.store.value, StoreWorld(w);
    if l.Work? && w.live && l.tp in w.workers && Busy(w.workers[l.tp].pc) {
      var wk := w.workers[l.tp];
      var e := BusyStep(cfg, wk.perKey, w.sh, wk.pc, l.choice);
      BusyWorkStep(cfg, w, l);
      BusyMeans(cfg, wk.perKey, w.sh, wk.pc, l.choice);
      ActionIsLabel(cfg, w, l.tp, wk, l.choice, e);
      AfterClock(w, l.tp, wk, e);
      LabelDisciplined(cfg, w, l.tp, l.choice, e);
      TickIs(a, cfg.ttl, x, e.sh.clock);
      Claims.StepKeepsExclusive(a, cfg.ttl, x, Claims.Tick(e.sh.clock));
      Claims.StepKeepsExclusive(a, cfg.ttl, x.(time := e.sh.clock),
                                StoreLabel(l.tp, wk.pc, l.choice, e.pc, e.sh.clock));
    } else {
      QuietShape(cfg, w, l);
      QuietExclusive(cfg, w, Step(cfg, w, l), l);
    }
  }

  lemma AfterClock(w: World, tp: TP, wk: Worker, e: Effect)
    requires Busy(wk.pc)
    ensures AfterEffect(w, tp, wk, e).sh.clock == e.sh.clock
  {
  }

  lemma TickIs(a: Claims.Adapter, ttl: int, x: Claims.World, now: Time)
    ensures Claims.Step(a, ttl, x, Claims.Tick(now)) == x.(time := now)
    ensures now >= x.time ==> Claims.Disciplined(a, x, Claims.Tick(now))
  {
  }

  lemma QuietExclusive(cfg: Config, w: World, w': World, l: Label)
    requires cfg.store.Some? && cfg.ttl > 0 && ExclusiveStore(cfg, w) && QuietToStore(w, w', l)
    requires l.Evict? ==> Claims.Disciplined(cfg.store.value, StoreWorld(w), Claims.Evict(l.key))
    ensures ExclusiveStore(cfg, w')
  {
    hide Claims.Exclusive, Claims.Disciplined, SlotsOf, LogsGrow, Claims.Step;
    var a, x := cfg.store.value, StoreWorld(w);
    var y := x;
    if l.Evict? {
      EvictIs(a, cfg.ttl, x, l.key);
      Claims.StepKeepsExclusive(a, cfg.ttl, x, Claims.Evict(l.key));
      y := Claims.Step(a, cfg.ttl, x, Claims.Evict(l.key));
    }
    FewerSlots(w, w', l);
    var y' := StoreWorld(w');
    ExclusiveTrying(a, cfg.ttl, y);
    Claims.SameStoreExclusive(a, cfg.ttl, y, y');
  }

  lemma ExclusiveTrying(a: Claims.Adapter, ttl: int, x: Claims.World)
    requires Claims.Exclusive(a, ttl, x)
    ensures forall j :: j in x.slots && x.slots[j].Trying? ==> x.slots[j].pc.now <= x.time
  {
  }

  lemma FewerSlots(w: World, w': World, l: Label)
    requires QuietToStore(w, w', l)
    ensures forall o :: o in SlotsOf(w'.workers) ==>
      o in SlotsOf(w.workers) && SlotsOf(w'.workers)[o] == SlotsOf(w.workers)[o]
  {
    hide SlotsOf;
    forall o | o in SlotsOf(w'.workers)
      ensures o in SlotsOf(w.workers) && SlotsOf(w'.workers)[o] == SlotsOf(w.workers)[o]
    {
      SlotOwner(w'.workers, o);
      var tp :| o == OwnerOf(tp);
      SlotThere(w.workers, tp);
      SlotThere(w'.workers, tp);
    }
  }

  lemma {:induction false} RunExclusive(cfg: Config, labels: seq<Label>)
    requires cfg.groupID != "" && cfg.store.Some? && cfg.ttl > 0 && AllInTime(cfg, labels)
    ensures ExclusiveStore(cfg, Run(cfg, labels))
  {
    hide Inv, Step, Run, Linked, ExclusiveStore, InTime, WellFormed;
    if labels == [] {
      RunStart(cfg);
      StartExclusive(cfg);
    } else {
      var n := |labels| - 1;
      var init := labels[..n];
      RunStep(cfg, labels);
      RunInv(cfg, init);
      RunLinked(cfg, init);
      forall k | 0 <= k < n ensures InTime(cfg, Run(cfg, init[..k]), init[k]) { assert labels[..k] == init[..k]; }
      RunExclusive(cfg, init);
      StepKeepsExclusive(cfg, Run(cfg, init), labels[n]);
    }
  }

  lemma StartExclusive(cfg: Config)
    requires cfg.store.Some?
    ensures ExclusiveStore(cfg, StartWorld(cfg))
  {
  }

  // ---- at most one success per ID ----

  /** Of the store's events from `from` on: a completion of the key, then the removal of its
      record, more than four leases later. */
  ghost predicate DroppedSince(ttl: int, h: seq<Claims.Event>, from: nat, key: string) {
    exists m, r :: from <= m < r < |h| && Claims.CompletionOf(h[m], key) && h[r].Removal? && h[r].key == key
      && h[m].now + 4 * ttl < h[r].now
  }

  predicate CompletedSince(h: seq<Claims.Event>, from: nat, key: string) {
    exists m :: from <= m < |h| && Claims.CompletionOf(h[m], key)
  }

  predicate BeingCompleted(w: World, key: string) {
    exists tp :: tp in w.workers && w.workers[tp].pc.Completing? && w.workers[tp].pc.job.id == key
  }

  ghost function IdOf(w: World, p: Pos): string {
    if InLog(w.sh.broker, p) then MessageFromRecord(RecordAt(w.sh.broker, p)).id else ""
  }

  /** The label at `n` is a success of a handler on a message with this ID. */
  ghost predicate SuccessAt(cfg: Config, labels: seq<Label>, n: nat, id: string)
    requires n < |labels|
  {
    var w, w' := Run(cfg, labels[..n]), Run(cfg, labels[..n + 1]);
    |w'.successes| > |w.successes| && IdOf(w', w'.successes[|w.successes|]) == id
  }

  lemma CompletedMore(h: seq<Claims.Event>, h': seq<Claims.Event>, from: nat, key: string)
    requires h <= h' && CompletedSince(h, from, key)
    ensures CompletedSince(h', from, key)
  {
    var m :| from <= m < |h| && Claims.CompletionOf(h[m], key);
    assert h'[m] == h[m];
  }

  lemma IdStays(cfg: Config, w: World, w': World, p: Pos)
    requires LogsGrow(w.sh.broker, w'.sh.broker) && InLog(w.sh.broker, p)
    ensures IdOf(w', p) == IdOf(w, p) && InLog(w'.sh.broker, p)
  {
    hide MessageFromRecord;
    assert Log(w.sh.broker, p.tp) <= Log(w'.sh.broker, p.tp);
  }

  lemma InTimeNow(cfg: Config, w: World, l: Label)
    requires cfg.store.Some? && WellFormed(w.sh.broker) && InTime(cfg, w, l) && w.sh.clock <= Step(cfg, w, l).sh.clock
    ensures forall q :: q in w.workers && HoldsLease(w.workers[q].pc) ==>
      w.sh.clock <= SlotOf(w.workers[q].pc).value.deadline
  {
    hide Step, SlotOf;
  }

  /** The worker about to succeed owns its ID alone: nobody is completing it, and what was
      completed was dropped. */
  lemma SuccessIsAlone(cfg: Config, w: World, tp: TP, from: nat, key: string)
    requires cfg.store.Some? && ExclusiveStore(cfg, w) && tp in w.workers && w.workers[tp].pc.Handling?
    requires w.workers[tp].pc.job.id == key && UsesStore(cfg, w.workers[tp].pc.job)
    requires forall q :: q in w.workers ==> PcLinked(cfg, w.workers[q].pc)
    requires forall q :: q in w.workers && HoldsLease(w.workers[q].pc) ==>
      w.sh.clock <= SlotOf(w.workers[q].pc).value.deadline
    ensures !BeingCompleted(w, key)
    ensures CompletedSince(w.storeLog, from, key) ==> DroppedSince(cfg.ttl, w.storeLog, from, key)
  {
    hide SlotsOf, Claims.Exclusive, Claims.Forgotten;
    var a, x := cfg.store.value, StoreWorld(w);
    SlotThere(w.workers, tp);
    assert Claims.Owns(x, OwnerOf(tp), key);
    if BeingCompleted(w, key) {
      var q :| q in w.workers && w.workers[q].pc.Completing? && w.workers[q].pc.job.id == key;
      SlotThere(w.workers, q);
      SlotShapes(cfg, w.workers[q].pc);
      assert Claims.Owns(x, OwnerOf(q), key);
      OneOwner(a, cfg.ttl, x, OwnerOf(tp), OwnerOf(q), key);
      assert false;
    }
    if CompletedSince(w.storeLog, from, key) {
      var m :| from <= m < |w.storeLog| && Claims.CompletionOf(w.storeLog[m], key);
      Claims.OwnedIsForgotten(a, cfg.ttl, x, OwnerOf(tp), key);
      ForgottenIsDropped(cfg.ttl, w.storeLog, m, from, x.time);
    }
  }

  lemma OneOwner(a: Claims.Adapter, ttl: int, x: Claims.World, i: Claims.Owner, j: Claims.Owner, key: string)
    requires Claims.Exclusive(a, ttl, x) && Claims.Owns(x, i, key) && Claims.Owns(x, j, key)
    ensures i == j
  {
  }

  lemma ForgottenIsDropped(ttl: int, h: seq<Claims.Event>, m: int, from: nat, until: Time)
    requires Claims.Forgotten(ttl, h, m, until) && from <= m
    ensures m < |h| && DroppedSince(ttl, h, from, h[m].key)
  {
    var r :| 0 <= m < r < |h| && h[m].Completion? && h[r].Removal? && h[r].key == h[m].key
      && h[m].now + 4 * ttl < h[r].now <= until;
    assert Claims.CompletionOf(h[m], h[m].key);
  }

  /** What a success step is: a worker's handler has returned nil on that message, and a
      message with an ID is now being completed. */
  lemma SuccessStep(cfg: Config, w: World, l: Label)
    requires Inv(cfg, w) && cfg.groupID != "" && cfg.store.Some? && Linked(cfg, w) && WellFormed(w.sh.broker)
    requires |Step(cfg, w, l).successes| > |w.successes|
    ensures l.Work? && w.live && l.tp in w.workers && w.workers[l.tp].pc.Handling?
    ensures var w' := Step(cfg, w, l); var id := w.workers[l.tp].pc.job.id;
      && w'.sh.clock >= w.sh.clock && w'.storeLog == w.storeLog
      && IdOf(w', w'.successes[|w.successes|]) == id && (id != "" ==> BeingCompleted(w', id))
  {
    hide Inv, Step, WellFormed, BusyStep, BeingCompleted, IdOf, PcLinked, Known, LogsGrow, ApplyToHist, ApplyToCalls,
      ApplyToLife, MessageFromRecord, QuietToStore, SlotOf, Claims.TryStartCall;
    if l.Work? && w.live && l.tp in w.workers && Busy(w.workers[l.tp].pc) {
      var tp, wk := l.tp, w.workers[l.tp];
      var e := BusyStep(cfg, wk.perKey, w.sh, wk.pc, l.choice);
      BusyWorkStep(cfg, w, l);
      BusyMeans(cfg, wk.perKey, w.sh, wk.pc, l.choice);
      BusyFrame(cfg, w, tp, l.choice);
      JobStored(cfg, w, tp);
      var p := Pos(tp, wk.pc.job.offset);
      IdOfJob(w, p, wk.pc.job.id);
      IdStays(cfg, w, AfterEffect(w, tp, wk, e), p);
      if wk.pc.job.id != "" { NowCompleting(w, tp, wk, e); }
    } else {
      QuietShape(cfg, w, l);
      QuietSuccesses(w, Step(cfg, w, l), l);
    }
  }

  lemma QuietSuccesses(w: World, w': World, l: Label)
    requires QuietToStore(w, w', l)
    ensures w'.successes == w.successes
  {
    hide LogsGrow;
  }

  lemma IdOfJob(w: World, p: Pos, id: string)
    requires InLog(w.sh.broker, p) && MessageFromRecord(RecordAt(w.sh.broker, p)).id == id
    ensures IdOf(w, p) == id
  {
  }

  lemma NowCompleting(w: World, tp: TP, wk: Worker, e: Effect)
    requires Busy(wk.pc) && e.pc.Completing?
    ensures BeingCompleted(AfterEffect(w, tp, wk, e), e.pc.job.id)
  {
    hide ApplyToHist, ApplyToCalls, ApplyToLife;
    var w' := AfterEffect(w, tp, wk, e);
    assert tp in w'.workers && w'.workers[tp].pc == e.pc;
  }

  /** A worker that was completing an ID still is, or has just had it recorded. */
  lemma StillReported(cfg: Config, w: World, tp: TP, wk: Worker, c: Choice, e: Effect, id: string)
    requires cfg.store.Some? && tp in w.workers && w.workers[tp] == wk && Busy(wk.pc)
    requires Means(cfg, w.sh.items, wk.pc, c, e)
    requires wk.pc.Completing? ==> c.storeError.None?
    requires BeingCompleted(w, id)
    ensures var w' := AfterEffect(w, tp, wk, e);
      CompletedSince(w'.storeLog, |w.storeLog|, id) || BeingCompleted(w', id)
  {
    hide ApplyToHist, ApplyToCalls, ApplyToLife, PcLinked;
    var w' := AfterEffect(w, tp, wk, e);
    var q :| q in w.workers && w.workers[q].pc.Completing? && w.workers[q].pc.job.id == id;
    if q != tp {
      assert q in w'.workers && w'.workers[q] == w.workers[q];
    } else if e.pc.Completing? {
      assert q in w'.workers && w'.workers[q].pc == e.pc;
    } else {
      assert w'.storeLog[|w.storeLog|] == Claims.Completion(id, e.sh.clock);
    }
  }

  /** The success is recorded since `from`, or about to be. */
  ghost predicate Told(w: World, from: nat, id: string) {
    from <= |w.storeLog| && (CompletedSince(w.storeLog, from, id) || BeingCompleted(w, id))
  }

  lemma StepKeepsTold(cfg: Config, w: World, l: Label, from: nat, id: string)
    requires Inv(cfg, w) && cfg.groupID != "" && cfg.store.Some? && Linked(cfg, w) && WellFormed(w.sh.broker)
    requires Reported(w, l) && Told(w, from, id)
    ensures Told(Step(cfg, w, l), from, id)
  {
    hide Inv, Step, WellFormed, BusyStep, SameToStore, CompletedSince, BeingCompleted, PcLinked, SlotOf, Known,
      LogsGrow,
      ApplyToHist, ApplyToCalls, ApplyToLife, MessageFromRecord;
    var w' := Step(cfg, w, l);
    if l.Work? && w.live && l.tp in w.workers && Busy(w.workers[l.tp].pc) {
      var wk := w.workers[l.tp];
      var e := BusyStep(cfg, wk.perKey, w.sh, wk.pc, l.choice);
      BusyWorkStep(cfg, w, l);
      BusyMeans(cfg, wk.perKey, w.sh, wk.pc, l.choice);
      if BeingCompleted(w, id) { StillReported(cfg, w, l.tp, wk, l.choice, e, id); }
      if CompletedSince(w'.storeLog, |w.storeLog|, id) { CompletedLater(w'.storeLog, from, |w.storeLog|, id); }
    } else {
      QuietShape(cfg, w, l);
      if BeingCompleted(w, id) { QuietKeepsCompleting(w, w', l, id); }
    }
    if CompletedSince(w.storeLog, from, id) { CompletedMore(w.storeLog, w'.storeLog, from, id); }
  }

  lemma CompletedLater(h: seq<Claims.Event>, from: nat, later: nat, id: string)
    requires from <= later && CompletedSince(h, later, id)
    ensures CompletedSince(h, from, id)
  {
  }

  lemma QuietKeepsCompleting(w: World, w': World, l: Label, id: string)
    requires BeingCompleted(w, id) && QuietToStore(w, w', l) && Reported(w, l)
    ensures BeingCompleted(w', id)
  {
    hide LogsGrow;
    var q :| q in w.workers && w.workers[q].pc.Completing? && w.workers[q].pc.job.id == id;
    assert q in w'.workers && w'.workers[q].pc == w.workers[q].pc;
  }

  lemma RunPrefix(cfg: Config, labels: seq<Label>, n: nat)
    requires n < |labels| && cfg.groupID != "" && cfg.store.Some?
    ensures Run(cfg, labels[..n + 1]) == Step(cfg, Run(cfg, labels[..n]), labels[n])
    ensures Inv(cfg, Run(cfg, labels[..n])) && Linked(cfg, Run(cfg, labels[..n]))
  {
    hide Inv, Step, Run, Linked, WellFormed;
    assert labels[..n + 1][..n] == labels[..n];
    RunStep(cfg, labels[..n + 1]);
    RunInv(cfg, labels[..n]);
    RunLinked(cfg, labels[..n]);
  }

  /** From a success on, it is recorded or about to be. */
  lemma {:induction false} ToldSince(cfg: Config, labels: seq<Label>, n: nat, k: nat, id: string)
    requires cfg.groupID != "" && cfg.store.Some? && AllReported(cfg, labels)
    requires n < k <= |labels| && SuccessAt(cfg, labels, n, id) && id != ""
    ensures Told(Run(cfg, labels[..k]), |Run(cfg, labels[..n]).storeLog|, id)
    decreases k
  {
    hide Inv, Step, Run, Linked, Reported, WellFormed, IdOf, BeingCompleted, CompletedSince, Told;
    RunPrefix(cfg, labels, k - 1);
    var w := Run(cfg, labels[..k - 1]);
    if k == n + 1 {
      SuccessStep(cfg, w, labels[n]);
      NowTold(Step(cfg, w, labels[n]), |w.storeLog|, id);
    } else {
      ToldSince(cfg, labels, n, k - 1, id);
      StepKeepsTold(cfg, w, labels[k - 1], |Run(cfg, labels[..n]).storeLog|, id);
    }
  }

  lemma NowTold(w: World, from: nat, id: string)
    requires BeingCompleted(w, id) && from <= |w.storeLog|
    ensures Told(w, from, id)
  {
  }

  lemma PrefixInTime(cfg: Config, labels: seq<Label>, n: nat)
    requires cfg.store.Some? && AllInTime(cfg, labels) && n <= |labels|
    ensures AllInTime(cfg, labels[..n])
  {
    hide Run, InTime, WellFormed;
    forall k | 0 <= k < n ensures InTime(cfg, Run(cfg, labels[..n][..k]), labels[..n][k]) {
      assert labels[..n][..k] == labels[..k];
    }
  }

  /** Handled once: when leases outlast the handling and every success is reported, between
      any two successes of one message ID, on any partitions and by any processes one after
      the other, the store records a completion of that ID and then drops it, more than four
      leases later. With a store that drops nothing there are never two. */
  lemma {:induction false} HandledOncePerId(cfg: Config, labels: seq<Label>, n1: nat, n2: nat, id: string)
    requires cfg.groupID != "" && cfg.store.Some? && cfg.ttl > 0 && AllInTime(cfg, labels) && AllReported(cfg, labels)
    requires n1 < n2 < |labels| && id != "" && SuccessAt(cfg, labels, n1, id) && SuccessAt(cfg, labels, n2, id)
    ensures DroppedSince(cfg.ttl, Run(cfg, labels[..n2]).storeLog, |Run(cfg, labels[..n1]).storeLog|, id)
    ensures !cfg.store.value.Memory?
  {
    hide Run, Inv, Step, IdOf, CompletedSince, BeingCompleted, InTime, Reported, PcLinked, SlotOf, WellFormed,
      ExclusiveStore, Known;
    var w, from := Run(cfg, labels[..n2]), |Run(cfg, labels[..n1]).storeLog|;
    RunPrefix(cfg, labels, n2);
    PrefixInTime(cfg, labels, n2);
    RunExclusive(cfg, labels[..n2]);
    SuccessStep(cfg, w, labels[n2]);
    InTimeNow(cfg, w, labels[n2]);
    ToldSince(cfg, labels, n1, n2, id);
    SuccessIsAlone(cfg, w, labels[n2].tp, from, id);
    MemoryDropsNothing(cfg, w, from, id);
  }

  lemma MemoryDropsNothing(cfg: Config, w: World, from: nat, id: string)
    requires cfg.store.Some? && ExclusiveStore(cfg, w) && DroppedSince(cfg.ttl, w.storeLog, from, id)
    ensures !cfg.store.value.Memory?
  {
    hide Claims.Owners, Claims.DoneStands, Claims.Apart;
    var m, r :| from <= m < r < |w.storeLog| && Claims.CompletionOf(w.storeLog[m], id) && w.storeLog[r].Removal?
      && w.storeLog[r].key == id && w.storeLog[m].now + 4 * cfg.ttl < w.storeLog[r].now;
    assert w.storeLog[r] in w.storeLog;
  }

  /** Whoever succeeds: two completions of one ID lie more than four leases apart, with the
      first one dropped in between, as soon as leases outlast the handling. */
  lemma CompletionsAreApart(cfg: Config, labels: seq<Label>, m: nat, n: nat)
    requires cfg.groupID != "" && cfg.store.Some? && cfg.ttl > 0 && AllInTime(cfg, labels)
    requires var h := Run(cfg, labels).storeLog; m < n < |h| && h[m].Completion? && Claims.CompletionOf(h[n], h[m].key)
    ensures var h := Run(cfg, labels).storeLog; Claims.Forgotten(cfg.ttl, h[..n], m, h[n].now)
  {
    hide Run, Claims.Owners, Claims.DoneStands, Claims.Forgotten;
    RunExclusive(cfg, labels);
  }
}
