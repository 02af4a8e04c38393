/** The protocol's invariant holds in every world every run reaches, and what follows. */
module Runs {
  import opened Wrappers
  import opened Envelope
  import opened Config
  import opened Routing
  import opened Broker
  import opened Protocol
  import opened Safety
  import Traces

  // ---- routed records and where they came from ----

  ghost predicate InLog(b: BrokerState, p: Pos) { 0 <= p.offset < |Log(b, p.tp)| }

  function RecordAt(b: BrokerState, p: Pos): Record
    requires InLog(b, p)
  {
    Log(b, p.tp)[p.offset].rec
  }

  /** Same ID, key and payload once read back. */
  predicate SameMessage(a: Record, b: Record) {
    b.key == a.key && b.value == a.value && MessageFromRecord(b).id == MessageFromRecord(a).id
  }

  ghost predicate OriginSound(w: World) {
    forall d :: d in w.origin ==>
      var src := w.origin[d];
      && InLog(w.sh.broker, d) && InLog(w.sh.broker, src)
      && src.offset in HistOf(w, src.tp).routed
      && SameMessage(RecordAt(w.sh.broker, src), RecordAt(w.sh.broker, d))
  }

  ghost predicate HasCopy(w: World, src: Pos) {
    exists d :: d in w.origin && w.origin[d] == src
  }

  ghost predicate OriginComplete(w: World) {
    forall tp, o :: o in HistOf(w, tp).routed ==> HasCopy(w, Pos(tp, o))
  }

  ghost predicate OriginInjective(w: World) {
    forall d1, d2 :: d1 in w.origin && d2 in w.origin && w.origin[d1] == w.origin[d2] ==> d1 == d2
  }

  ghost predicate Inv(cfg: Config, w: World) {
    && WellFormed(w.sh.broker) && w.sh.sub.groupID == cfg.groupID
    && (!w.live ==>
          w.workers == map[] && w.polled.None? && w.calls == map[] && w.life == map[] && w.sh.sub.fetch == map[])
    && w.workers.Keys <= w.sh.sub.fetch.Keys
    && (forall tp :: PartInv(cfg, SliceOf(w, tp)))
    && OriginSound(w) && OriginComplete(w)
    && (cfg.guarantee.Transactional? ==> OriginInjective(w))
  }

  // ---- what leaves a partition alone ----

  /** The slice after somebody else's action: its log may be longer, its flags raised. */
  ghost predicate SliceGrows(s: Slice, s': Slice) {
    && s.log <= s'.log
    && (s.closed ==> s'.closed) && (s.cancelled ==> s'.cancelled) && (s.detached ==> s'.detached)
    && s'.committed == s.committed && s'.fetched == s.fetched && s'.polled == s.polled
    && s'.wk == s.wk && s'.hist == s.hist && s'.calls == s.calls && s'.life == s.life
  }

  lemma GrowthKeepsReasons(cfg: Config, s: Slice, s': Slice)
    requires Justified(cfg, s) && s.log <= s'.log && s'.hist == s.hist
    ensures Justified(cfg, s')
  {
    hide LookupOk, MessageFromRecord;
    assert forall o :: 0 <= o < |s.log| ==> MessageAt(s'.log, o) == MessageAt(s.log, o);
    assert forall o :: o in s.hist.noHandler ==> o in s.hist.Settled();
  }

  lemma GrowthKeepsPipeline(s: Slice, s': Slice)
    requires Pipeline(s) && SliceGrows(s, s')
    ensures Pipeline(s')
  {
    hide MessageFromRecord;
    assert forall o :: 0 <= o < |s.log| ==> MessageAt(s'.log, o) == MessageAt(s.log, o);
  }

  lemma GrowthKeepsPart(cfg: Config, s: Slice, s': Slice)
    requires PartInv(cfg, s) && SliceGrows(s, s')
    ensures PartInv(cfg, s')
  {
    GrowthKeepsReasons(cfg, s, s');
    GrowthKeepsPipeline(s, s');
    hide LookupOk, Justified, Pipeline, RoutingOk, MessageFromRecord;
  }

  /** The history of routed records survives any action that only extends logs. */
  lemma GrowthKeepsOrigin(cfg: Config, w: World, w': World)
    requires OriginSound(w) && OriginComplete(w) && (cfg.guarantee.Transactional? ==> OriginInjective(w))
    requires w'.origin == w.origin && w'.hist == w.hist && LogsGrow(w.sh.broker, w'.sh.broker)
    ensures OriginSound(w') && OriginComplete(w')
    ensures cfg.guarantee.Transactional? ==> OriginInjective(w')
  {
    forall d | d in w'.origin
      ensures var src := w'.origin[d];
        && InLog(w'.sh.broker, d) && InLog(w'.sh.broker, src)
        && src.offset in HistOf(w', src.tp).routed
        && SameMessage(RecordAt(w'.sh.broker, src), RecordAt(w'.sh.broker, d))
    {
      assert Log(w.sh.broker, d.tp) <= Log(w'.sh.broker, d.tp);
      assert Log(w.sh.broker, w.origin[d].tp) <= Log(w'.sh.broker, w.origin[d].tp);
    }
    forall tp, o | o in HistOf(w', tp).routed ensures HasCopy(w', Pos(tp, o)) {
      assert HistOf(w, tp) == HistOf(w', tp);
      assert HasCopy(w, Pos(tp, o));
    }
  }

  /** An action of the environment: the consumer's own state stays, logs grow, the group's
      offsets stay, flags are raised. */
  ghost predicate EnvironmentMove(cfg: Config, w: World, w': World) {
    && w'.live == w.live && w'.workers == w.workers && w'.polled == w.polled && w'.hist == w.hist
    && w'.origin == w.origin && w'.calls == w.calls && w'.life == w.life
    && WellFormed(w'.sh.broker) && LogsGrow(w.sh.broker, w'.sh.broker)
    && (forall tp :: GroupOffset(w'.sh.broker, cfg.groupID, tp) == GroupOffset(w.sh.broker, cfg.groupID, tp))
    && (w.sh.broker.closed ==> w'.sh.broker.closed) && (w.sh.cancelled ==> w'.sh.cancelled)
    && w'.sh.sub.groupID == w.sh.sub.groupID && w'.sh.sub.fetch == w.sh.sub.fetch
    && w.sh.sub.revoked <= w'.sh.sub.revoked && (w.sh.sub.closed ==> w'.sh.sub.closed)
  }

  lemma EnvironmentKeepsInv(cfg: Config, w: World, w': World)
    requires Inv(cfg, w) && EnvironmentMove(cfg, w, w')
    ensures Inv(cfg, w')
  {
    hide PartInv;
    GrowthKeepsOrigin(cfg, w, w');
    forall tp ensures PartInv(cfg, SliceOf(w', tp)) {
      assert SliceGrows(SliceOf(w, tp), SliceOf(w', tp));
      GrowthKeepsPart(cfg, SliceOf(w, tp), SliceOf(w', tp));
    }
  }

  lemma OutsideBrokerMoves(cfg: Config, b: BrokerState, l: Label)
    requires WellFormed(b) && IsOutside(l)
    ensures var b' := OutsideEffect(cfg, b, l);
      && WellFormed(b') && LogsGrow(b, b') && b'.closed == b.closed && b'.fenced == b.fenced
      && forall tp :: GroupOffset(b', cfg.groupID, tp) == GroupOffset(b, cfg.groupID, tp)
  {
    hide Append, EnsureTopic, Raise;
    match l {
      case OutsidePublish(rec) => AppendFacts(b, rec, 0);
      case OutsideTopic(name, n) => EnsureTopicFacts(b, name, n);
      case OutsideCommit(g, tp, next) =>
        RaiseFacts(b, g, tp, next);
        assert forall q :: Log(Raise(b, g, tp, next), q) == Log(b, q);
    }
  }

  lemma OutsideMoves(cfg: Config, w: World, l: Label)
    requires WellFormed(w.sh.broker) && IsOutside(l)
    ensures EnvironmentMove(cfg, w, Step(cfg, w, l))
  {
    hide WellFormed, OutsideEffect, LogsGrow, GroupOffset;
    OutsideBrokerMoves(cfg, w.sh.broker, l);
  }

  lemma SameDataFacts(cfg: Config, b: BrokerState, b': BrokerState)
    requires WellFormed(b) && SameData(b, b') && b'.partitions == b.partitions
    ensures WellFormed(b') && LogsGrow(b, b')
    ensures forall tp :: GroupOffset(b', cfg.groupID, tp) == GroupOffset(b, cfg.groupID, tp)
  {
    assert forall q :: Log(b', q) == Log(b, q);
  }

  lemma FlagMoves(cfg: Config, w: World, l: Label)
    requires WellFormed(w.sh.broker) && IsFlag(l)
    ensures EnvironmentMove(cfg, w, FlagStep(w, l))
  {
    hide WellFormed, LogsGrow, GroupOffset;
    SameDataFacts(cfg, w.sh.broker, FlagStep(w, l).sh.broker);
  }

  // ---- process end and restart ----

  /** A partition nobody reads: what was decided and committed remains. */
  ghost predicate SliceRests(s: Slice, s': Slice) {
    && s'.log == s.log && s'.committed == s.committed && s'.hist == s.hist
    && s'.fetched.None? && s'.polled.None? && s'.wk == NO_WORKER && s'.calls == [] && s'.life == NO_LIFE
  }

  lemma RestKeepsPart(cfg: Config, s: Slice, s': Slice)
    requires PartInv(cfg, s) && SliceRests(s, s')
    ensures PartInv(cfg, s')
  {
    hide LookupOk;
  }

  /** Everything but the broker and the history is fresh or gone. */
  ghost predicate ConsumerRests(cfg: Config, w: World, w': World) {
    && w'.hist == w.hist && w'.origin == w.origin
    && w'.polled.None? && w'.workers == map[] && w'.calls == map[] && w'.life == map[]
    && w'.sh.sub.fetch == map[] && w'.sh.sub.groupID == cfg.groupID
    && WellFormed(w'.sh.broker) && w'.sh.broker.fenced == w.sh.broker.fenced
    && w'.sh.broker.topics == w.sh.broker.topics
    && (forall tp :: GroupOffset(w'.sh.broker, cfg.groupID, tp) == GroupOffset(w.sh.broker, cfg.groupID, tp))
  }

  lemma RestKeepsInv(cfg: Config, w: World, w': World)
    requires Inv(cfg, w) && ConsumerRests(cfg, w, w')
    ensures Inv(cfg, w')
  {
    hide PartInv;
    forall q ensures Log(w'.sh.broker, q) == Log(w.sh.broker, q) {}
    GrowthKeepsOrigin(cfg, w, w');
    forall tp ensures PartInv(cfg, SliceOf(w', tp)) {
      assert SliceRests(SliceOf(w, tp), SliceOf(w', tp));
      RestKeepsPart(cfg, SliceOf(w, tp), SliceOf(w', tp));
    }
  }

  lemma StopRests(cfg: Config, w: World)
    requires WellFormed(w.sh.broker)
    ensures ConsumerRests(cfg, w, StopStep(cfg, w))
  {
  }

  lemma RestartRests(cfg: Config, w: World, topics: seq<string>)
    requires Inv(cfg, w) && RestartStep(cfg, w, topics) != w
    ensures ConsumerRests(cfg, w, RestartStep(cfg, w, topics))
  {
    hide PartInv, OriginSound, OriginComplete, OriginInjective;
    WithGroupFacts(w.sh.broker, cfg.groupID);
  }

  // ---- the dispatcher ----

  ghost predicate SlicePolls(s: Slice, s': Slice) {
    var next := if s.fetched.Some? then s.fetched.value else s.committed;
    && s.polled.None? && 0 <= next < |s.log|
    && s' == s.(fetched := Some(next + 1), polled := Some(MessageAt(s.log, next)))
  }

  lemma PollKeepsPart(cfg: Config, s: Slice, s': Slice)
    requires PartInv(cfg, s) && SlicePolls(s, s')
    ensures PartInv(cfg, s')
  {
    hide LookupOk;
  }

  ghost predicate SliceEnqueues(s: Slice, s': Slice) {
    && s.polled.Some? && s' == s.(polled := None, wk := s'.wk)
    && s'.wk.queue == s.wk.queue + [s.polled.value] && s'.wk.pc == s.wk.pc
  }

  lemma EnqueueKeepsPart(cfg: Config, s: Slice, s': Slice)
    requires PartInv(cfg, s) && SliceEnqueues(s, s')
    ensures PartInv(cfg, s')
  {
    hide LookupOk;
  }

  /** An idle worker takes its next job, or leaves its channel for good. */
  ghost predicate SliceTakes(s: Slice, s': Slice) {
    && s.wk.pc.Idle?
    && s' == s.(wk := s'.wk) && s'.wk.perKey == s.wk.perKey
    && (if s.wk.queue == [] then s'.wk.queue == [] && s'.wk.pc.Exited?
        else s'.wk.queue == s.wk.queue[1..] && s'.wk.pc == (if s.cancelled then Exited else Starting(s.wk.queue[0])))
  }

  lemma TakeKeepsPart(cfg: Config, s: Slice, s': Slice, tp: TP)
    requires PartInv(cfg, s) && SliceTakes(s, s') && LogOk(s.log, tp) && s.fetched.Some?
    ensures PartInv(cfg, s')
  {
    hide LookupOk;
    if s.wk.queue != [] {
      assert s.log[QueueBase(s)].rec.offset == QueueBase(s);
    }
  }

  /** A dispatcher move: broker, flags and history stay. */
  ghost predicate DispatcherMove(w: World, w': World) {
    && w.live && w'.live && w'.sh.broker == w.sh.broker && w'.sh.cancelled == w.sh.cancelled
    && w'.sh.sub.groupID == w.sh.sub.groupID
    && w'.hist == w.hist && w'.origin == w.origin && w'.calls == w.calls && w'.life == w.life
  }

  lemma DispatcherKeepsInv(cfg: Config, w: World, w': World)
    requires Inv(cfg, w) && DispatcherMove(w, w') && w'.workers.Keys <= w'.sh.sub.fetch.Keys
    requires forall q :: PartInv(cfg, SliceOf(w', q))
    ensures Inv(cfg, w')
  {
    hide PartInv;
    GrowthKeepsOrigin(cfg, w, w');
  }

  lemma PollSlices(w: World, q: TP)
    requires WellFormed(w.sh.broker) && PollStep(w) != w
    ensures DispatcherMove(w, PollStep(w)) && w.sh.sub.fetch.Keys <= PollStep(w).sh.sub.fetch.Keys
    ensures PollStep(w).workers == w.workers
    ensures SliceOf(PollStep(w), q) == SliceOf(w, q) || SlicePolls(SliceOf(w, q), SliceOf(PollStep(w), q))
  {
    hide PollTarget;
    PollTargetIsFirst(w.sh.broker, w.sh.sub);
    var tp := PollTarget(w.sh.broker, w.sh.sub).value;
    assert LogOk(Log(w.sh.broker, tp), tp);
  }

  lemma PollKeepsInv(cfg: Config, w: World)
    requires Inv(cfg, w)
    ensures Inv(cfg, PollStep(w))
  {
    hide PartInv, PollStep, SliceOf;
    var w' := PollStep(w);
    if w' != w {
      PollSlices(w, TP("", 0));
      forall q ensures PartInv(cfg, SliceOf(w', q)) {
        PollSlices(w, q);
        assert PartInv(cfg, SliceOf(w, q));
        if SliceOf(w', q) != SliceOf(w, q) { PollKeepsPart(cfg, SliceOf(w, q), SliceOf(w', q)); }
      }
      DispatcherKeepsInv(cfg, w, w');
    }
  }

  /** The channel send, with the worker it went to. */
  ghost predicate Enqueues(w: World, w': World, m: Message, wk: Worker) {
    && w.live && w.polled.Some? && m == MessageFromRecord(w.polled.value)
    && w' == w.(polled := None, workers := w.workers[TPOf(m) := wk])
    && wk.queue == WorkerOf(w, TPOf(m)).queue + [m] && wk.pc == WorkerOf(w, TPOf(m)).pc
  }

  lemma EnqueueShape(cfg: Config, w: World, o: Ordering) returns (m: Message, wk: Worker)
    requires EnqueueStep(cfg, w, o) != w
    ensures Enqueues(w, EnqueueStep(cfg, w, o), m, wk)
  {
    hide OrderingOk, MessageFromRecord;
    m := MessageFromRecord(w.polled.value);
    wk := WorkerOf(EnqueueStep(cfg, w, o), TPOf(m));
  }

  lemma EnqueueSlices(w: World, w': World, m: Message, wk: Worker, q: TP)
    requires Enqueues(w, w', m, wk)
    ensures DispatcherMove(w, w')
    ensures SliceOf(w', q) == SliceOf(w, q) || SliceEnqueues(SliceOf(w, q), SliceOf(w', q))
  {
    hide MessageFromRecord, Log, GroupOffset, Assigned, TPOf, PolledFor;
    PolledForFacts(w, q);
    PolledForFacts(w', q);
  }

  lemma PolledIsFetched(cfg: Config, w: World)
    requires Inv(cfg, w) && w.polled.Some?
    ensures TPOf(MessageFromRecord(w.polled.value)) in w.sh.sub.fetch
  {
    assert PartInv(cfg, SliceOf(w, TPOf(MessageFromRecord(w.polled.value))));
  }

  lemma PolledForFacts(w: World, q: TP)
    ensures PolledFor(w, q) ==
      if w.polled.Some? && TPOf(MessageFromRecord(w.polled.value)) == q then Some(MessageFromRecord(w.polled.value))
      else None
  {
  }

  lemma EnqueueKeepsInv(cfg: Config, w: World, o: Ordering)
    requires Inv(cfg, w)
    ensures Inv(cfg, EnqueueStep(cfg, w, o))
  {
    hide PartInv, EnqueueStep, SliceOf;
    var w' := EnqueueStep(cfg, w, o);
    if w' != w {
      var m, wk := EnqueueShape(cfg, w, o);
      EnqueueSlices(w, w', m, wk, TPOf(m));
      PolledIsFetched(cfg, w);
      forall q ensures PartInv(cfg, SliceOf(w', q)) {
        EnqueueSlices(w, w', m, wk, q);
        assert PartInv(cfg, SliceOf(w, q));
        if SliceOf(w', q) != SliceOf(w, q) { EnqueueKeepsPart(cfg, SliceOf(w, q), SliceOf(w', q)); }
      }
      DispatcherKeepsInv(cfg, w, w');
    }
  }

  // ---- a busy worker ----

  /** What one action of the worker of `tp` may touch: logs grow, its own offset rises. */
  ghost predicate EffectFrame(cfg: Config, sh: Shared, tp: TP, e: Effect) {
    && e.sh.sub == sh.sub && e.sh.cancelled == sh.cancelled && sh.clock <= e.sh.clock
    && e.sh.broker.closed == sh.broker.closed && e.sh.broker.fenced == sh.broker.fenced
    && WellFormed(e.sh.broker) && LogsGrow(sh.broker, e.sh.broker)
    && forall q :: q != tp ==> GroupOffset(e.sh.broker, cfg.groupID, q) == GroupOffset(sh.broker, cfg.groupID, q)
  }

  ghost predicate BusyMove(cfg: Config, w: World, tp: TP, c: Choice) {
    && Inv(cfg, w) && cfg.groupID != "" && w.live && tp in w.workers && Busy(w.workers[tp].pc)
  }

  lemma BusyJob(cfg: Config, w: World, tp: TP, c: Choice)
    requires BusyMove(cfg, w, tp, c)
    ensures var s := SliceOf(w, tp);
      && PartInv(cfg, s) && LogOk(s.log, tp) && s.wk == w.workers[tp] && s.fetched.Some? && TPOf(s.wk.pc.job) == tp
      && s.wk.pc.job.offset == QueueBase(s) - 1 && 0 <= QueueBase(s) - 1 < |s.log|
      && s.wk.pc.job == MessageAt(s.log, s.wk.pc.job.offset)
      && s.wk.pc.job.id == Get(s.wk.pc.job.headers, MESSAGE_ID)
  {
    hide NothingLost, Justified, CallsBehind, RoutingOk, OriginSound, OriginComplete, OriginInjective;
    var s := SliceOf(w, tp);
    assert PartInv(cfg, s);
    assert LogOk(Log(w.sh.broker, tp), tp);
    JobOffset(s, tp);
  }

  lemma BusyFrame(cfg: Config, w: World, tp: TP, c: Choice)
    requires BusyMove(cfg, w, tp, c)
    ensures EffectFrame(cfg, w.sh, tp, BusyStep(cfg, w.workers[tp].perKey, w.sh, w.workers[tp].pc, c))
  {
    hide HandlerStep, RouteStep, CommitStep, PartInv, RoutingOk, OriginSound, OriginComplete, OriginInjective, SliceOf;
    BusyJob(cfg, w, tp, c);
    var wk, sh := w.workers[tp], Later(w.sh, c);
    var e := BusyStep(cfg, wk.perKey, w.sh, wk.pc, c);
    if wk.pc.RoutingOut? {
      assert RoutingOk(cfg, wk.pc) by { PartRouting(cfg, SliceOf(w, tp)); }
      RouteStepOutcome(cfg, wk.perKey, sh, wk.pc, c);
      if SameData(w.sh.broker, e.sh.broker) { SameBrokerData(cfg, w.sh.broker, e.sh.broker); }
      if e.sh.broker.groups == w.sh.broker.groups {
        assert forall q :: GroupOffset(e.sh.broker, cfg.groupID, q) == GroupOffset(w.sh.broker, cfg.groupID, q);
      }
    } else if wk.pc.Committing? {
      CommitStepOutcome(cfg, wk.perKey, sh, wk.pc);
      assert forall q :: Log(e.sh.broker, q) == Log(w.sh.broker, q);
    } else {
      HandlerStepOutcome(cfg, wk.perKey, sh, wk.pc, c);
    }
  }

  lemma PartRouting(cfg: Config, s: Slice)
    requires PartInv(cfg, s)
    ensures RoutingOk(cfg, s.wk.pc)
  {
  }

  lemma SameBrokerData(cfg: Config, b: BrokerState, b': BrokerState)
    requires SameData(b, b')
    ensures LogsGrow(b, b') && forall q :: GroupOffset(b', cfg.groupID, q) == GroupOffset(b, cfg.groupID, q)
  {
    assert forall q :: Log(b', q) == Log(b, q);
  }

  /** The worker's own partition, one action later. */
  lemma BusyOwnPart(cfg: Config, w: World, tp: TP, c: Choice, s': Slice)
    requires BusyMove(cfg, w, tp, c)
    requires var s := SliceOf(w, tp); var e := BusyStep(cfg, w.workers[tp].perKey, w.sh, w.workers[tp].pc, c);
      Busy(s.wk.pc) && SliceAfter(s, e, s') && s'.wk.pc == e.pc && Sees(e.sh, s', tp)
    ensures PartInv(cfg, s')
  {
    hide HandlerStep, RouteStep, CommitStep, OriginSound, OriginComplete, OriginInjective, RoutingOk, NothingLost,
      Justified, CallsBehind, Pipeline, RoutedBelowCommitted, LifeBehind, DrainOk, HandlerOutcome, RouteOutcome,
      CommitOutcome, CallMove;
    BusyJob(cfg, w, tp, c);
    var s, wk, sh := SliceOf(w, tp), w.workers[tp], Later(w.sh, c);
    var e := BusyStep(cfg, wk.perKey, w.sh, wk.pc, c);
    if wk.pc.RoutingOut? {
      RouteStepOutcome(cfg, wk.perKey, sh, wk.pc, c);
      RouteKeepsPipeline(cfg, sh, s, s', tp, e);
      RouteKeepsCalls(cfg, sh, s, s', tp, e);
      RouteKeepsDecisions(cfg, sh, s, s', tp, e);
      RouteKeepsRouted(cfg, sh, s, s', tp, e);
      RouteKeepsLife(cfg, sh, s, s', tp, e);
    } else if wk.pc.Committing? {
      CommitStepOutcome(cfg, wk.perKey, sh, wk.pc);
      CommitKeepsPipeline(cfg, sh, s, s', tp, e);
      CommitKeepsRest(cfg, sh, s, s', tp, e);
      CommitKeepsLife(cfg, sh, s, s', tp, e);
    } else {
      HandlerStepOutcome(cfg, wk.perKey, sh, wk.pc, c);
      HandlerStepCallMove(cfg, wk.perKey, sh, wk.pc, c);
      HandlerSameBroker(cfg, wk.perKey, sh, wk.pc, e);
      HandlerKeepsPipeline(cfg, sh, s, s', tp, e);
      HandlerKeepsDecisions(cfg, sh, s, s', tp, e);
      HandlerKeepsReasons(cfg, sh, s, s', tp, e);
      HandlerKeepsLife(cfg, sh, s, s', tp, e);
      HandlerKeepsCalls(cfg, sh, s, s', tp, e);
    }
  }

  lemma HandlerSameBroker(cfg: Config, perKey: bool, sh: Shared, pc: PC, e: Effect)
    requires InHandlerPhase(pc) && HandlerOutcome(cfg, perKey, sh, pc, e)
    ensures e.sh == sh.(items := e.sh.items) && !e.event.Routed?
  {
  }

  lemma EffectSlices(cfg: Config, w: World, tp: TP, wk: Worker, e: Effect, q: TP)
    requires tp in w.workers && w.workers[tp] == wk && Busy(wk.pc) && w.sh.sub.groupID == cfg.groupID
    requires EffectFrame(cfg, w.sh, tp, e)
    ensures var w' := AfterEffect(w, tp, wk, e); var s, s' := SliceOf(w, q), SliceOf(w', q);
      if q == tp then Busy(s.wk.pc) && SliceAfter(s, e, s') && s'.wk.pc == e.pc && Sees(e.sh, s', tp)
      else SliceGrows(s, s')
  {
    hide MessageFromRecord, Log, GroupOffset, Assigned, TPOf, ApplyToHist, ApplyToCalls, ApplyToLife, WellFormed;
  }

  /** A routed event names the end of the log it extends, and what is stored there is a copy. */
  lemma RoutedEvent(cfg: Config, perKey: bool, sh: Shared, pc: PC, c: Choice)
    requires pc.RoutingOut? && RoutingOk(cfg, pc) && WellFormed(sh.broker) && cfg.groupID != ""
    requires RouteStep(cfg, perKey, sh, pc, c).event.Routed?
    ensures var e := RouteStep(cfg, perKey, sh, pc, c); var d := e.event.dst;
      && d.offset == |Log(sh.broker, d.tp)| && InLog(e.sh.broker, d)
      && RecordAt(e.sh.broker, d).key == pc.job.key && RecordAt(e.sh.broker, d).value == pc.job.payload
      && MessageFromRecord(RecordAt(e.sh.broker, d)).id == pc.job.id
  {
    hide Append, ApplyTxn, Destination;
    var b := sh.broker;
    if pc.stage.PublishApply? {
      AppendFacts(b, RecordWith(pc.out, c.headers), 0);
      ConversionRoundTrip(pc.out, c.headers);
    } else {
      ApplyOne(b, pc.txn);
      ConversionRoundTrip(pc.out, pc.txn.publishes[0].headers);
    }
  }

  /** Only a committing transaction routes in transactional mode, and never twice. */
  lemma RoutedOnce(cfg: Config, w: World, tp: TP, c: Choice)
    requires BusyMove(cfg, w, tp, c) && cfg.guarantee.Transactional?
    requires BusyStep(cfg, w.workers[tp].perKey, w.sh, w.workers[tp].pc, c).event.Routed?
    ensures w.workers[tp].pc.job.offset !in HistOf(w, tp).routed
  {
    hide HandlerStep, RouteStep, CommitStep, OriginSound, OriginComplete, OriginInjective;
    BusyJob(cfg, w, tp, c);
    var s, wk := SliceOf(w, tp), w.workers[tp];
    if wk.pc.Committing? {
      CommitStepOutcome(cfg, wk.perKey, Later(w.sh, c), wk.pc);
    } else if !wk.pc.RoutingOut? {
      HandlerStepOutcome(cfg, wk.perKey, Later(w.sh, c), wk.pc, c);
    }
    assert s.committed <= Frontier(s) == wk.pc.job.offset;
  }

  /** What a routed event brings: a new position at the end of its log, holding a copy of
      the job; in transactional mode the job was never routed before. */
  ghost predicate FreshCopy(cfg: Config, w: World, tp: TP, wk: Worker, e: Effect)
    requires Busy(wk.pc)
  {
    var src := Pos(tp, wk.pc.job.offset);
    e.event.Routed? ==>
      var d := e.event.dst;
      && d.offset == |Log(w.sh.broker, d.tp)| && InLog(e.sh.broker, d) && InLog(e.sh.broker, src)
      && SameMessage(RecordAt(e.sh.broker, src), RecordAt(e.sh.broker, d))
      && (cfg.guarantee.Transactional? ==> wk.pc.job.offset !in HistOf(w, tp).routed)
  }

  lemma BusyFreshCopy(cfg: Config, w: World, tp: TP, c: Choice)
    requires BusyMove(cfg, w, tp, c)
    ensures var wk := w.workers[tp]; FreshCopy(cfg, w, tp, wk, BusyStep(cfg, wk.perKey, w.sh, wk.pc, c))
  {
    hide HandlerStep, RouteStep, CommitStep, PartInv, OriginSound, OriginComplete, OriginInjective, RoutingOk;
    var wk := w.workers[tp];
    var e := BusyStep(cfg, wk.perKey, w.sh, wk.pc, c);
    BusyFrame(cfg, w, tp, c);
    BusyJob(cfg, w, tp, c);
    if wk.pc.Committing? {
      CommitStepOutcome(cfg, wk.perKey, Later(w.sh, c), wk.pc);
    } else if !wk.pc.RoutingOut? {
      HandlerStepOutcome(cfg, wk.perKey, Later(w.sh, c), wk.pc, c);
    } else if e.event.Routed? {
      PartRouting(cfg, SliceOf(w, tp));
      RoutedEvent(cfg, wk.perKey, Later(w.sh, c), wk.pc, c);
      if cfg.guarantee.Transactional? { RoutedOnce(cfg, w, tp, c); }
      assert Log(w.sh.broker, tp) <= Log(e.sh.broker, tp);
    }
  }

  lemma RoutedHist(w: World, tp: TP, wk: Worker, e: Effect, q: TP)
    requires Busy(wk.pc)
    ensures HistOf(AfterEffect(w, tp, wk, e), q).routed ==
      HistOf(w, q).routed + (if q == tp && e.event.Routed? then {wk.pc.job.offset} else {})
  {
  }

  lemma OriginStaysSound(cfg: Config, w: World, tp: TP, wk: Worker, e: Effect)
    requires OriginSound(w) && Busy(wk.pc) && EffectFrame(cfg, w.sh, tp, e) && FreshCopy(cfg, w, tp, wk, e)
    ensures OriginSound(AfterEffect(w, tp, wk, e))
  {
    hide PartInv, MessageFromRecord, ApplyToHist, ApplyToCalls, HistOf, WellFormed;
    var w' := AfterEffect(w, tp, wk, e);
    forall d | d in w'.origin
      ensures var src := w'.origin[d];
        && InLog(w'.sh.broker, d) && InLog(w'.sh.broker, src)
        && src.offset in HistOf(w', src.tp).routed
        && SameMessage(RecordAt(w'.sh.broker, src), RecordAt(w'.sh.broker, d))
    {
      var src := w'.origin[d];
      RoutedHist(w, tp, wk, e, src.tp);
      if !(e.event.Routed? && d == e.event.dst) {
        assert Log(w.sh.broker, d.tp) <= Log(w'.sh.broker, d.tp);
        assert Log(w.sh.broker, src.tp) <= Log(w'.sh.broker, src.tp);
      }
    }
  }

  lemma OriginStaysComplete(cfg: Config, w: World, tp: TP, wk: Worker, e: Effect)
    requires OriginSound(w) && OriginComplete(w) && Busy(wk.pc) && FreshCopy(cfg, w, tp, wk, e)
    ensures OriginComplete(AfterEffect(w, tp, wk, e))
  {
    hide PartInv, MessageFromRecord, ApplyToHist, ApplyToCalls, HistOf, WellFormed, SameMessage, FreshCopy, OriginSound;
    var w' := AfterEffect(w, tp, wk, e);
    FreshDestination(cfg, w, tp, wk, e);
    forall q, o | o in HistOf(w', q).routed ensures HasCopy(w', Pos(q, o)) {
      RoutedHist(w, tp, wk, e, q);
      if o in HistOf(w, q).routed {
        assert HasCopy(w, Pos(q, o));
        var d :| d in w.origin && w.origin[d] == Pos(q, o);
        assert d in w'.origin && w'.origin[d] == Pos(q, o);
      } else {
        assert w'.origin[e.event.dst] == Pos(q, o);
      }
    }
  }

  lemma FreshDestination(cfg: Config, w: World, tp: TP, wk: Worker, e: Effect)
    requires OriginSound(w) && Busy(wk.pc) && FreshCopy(cfg, w, tp, wk, e)
    ensures e.event.Routed? ==> e.event.dst !in w.origin
  {
    hide PartInv, MessageFromRecord, WellFormed, SameMessage;
    assert forall d :: d in w.origin ==> InLog(w.sh.broker, d);
  }

  lemma OriginStaysInjective(cfg: Config, w: World, tp: TP, wk: Worker, e: Effect)
    requires OriginSound(w) && OriginInjective(w) && Busy(wk.pc) && FreshCopy(cfg, w, tp, wk, e)
    requires cfg.guarantee.Transactional?
    ensures OriginInjective(AfterEffect(w, tp, wk, e))
  {
    hide PartInv, MessageFromRecord, ApplyToHist, ApplyToCalls, HistOf, WellFormed, SameMessage;
    FreshDestination(cfg, w, tp, wk, e);
    assert forall d :: d in w.origin ==> w.origin[d].offset in HistOf(w, w.origin[d].tp).routed;
  }

  lemma BusyKeepsInv(cfg: Config, w: World, tp: TP, c: Choice)
    requires BusyMove(cfg, w, tp, c)
    ensures var wk := w.workers[tp]; Inv(cfg, AfterEffect(w, tp, wk, BusyStep(cfg, wk.perKey, w.sh, wk.pc, c)))
  {
    hide BusyStep, PartInv, OriginSound, OriginComplete, OriginInjective, SliceOf, WellFormed;
    var wk := w.workers[tp];
    var e := BusyStep(cfg, wk.perKey, w.sh, wk.pc, c);
    var w' := AfterEffect(w, tp, wk, e);
    BusyFrame(cfg, w, tp, c);
    BusyFreshCopy(cfg, w, tp, c);
    OriginStaysSound(cfg, w, tp, wk, e);
    OriginStaysComplete(cfg, w, tp, wk, e);
    if cfg.guarantee.Transactional? { OriginStaysInjective(cfg, w, tp, wk, e); }
    forall q ensures PartInv(cfg, SliceOf(w', q)) {
      EffectSlices(cfg, w, tp, wk, e, q);
      if q == tp {
        BusyOwnPart(cfg, w, tp, c, SliceOf(w', q));
      } else {
        GrowthKeepsPart(cfg, SliceOf(w, q), SliceOf(w', q));
      }
    }
  }

  // ---- an idle worker ----

  lemma TakeKeepsInv(cfg: Config, w: World, tp: TP, wk': Worker)
    requires Inv(cfg, w) && w.live && tp in w.workers
    requires SliceTakes(SliceOf(w, tp), SliceOf(w, tp).(wk := wk'))
    requires SliceOf(w, tp).fetched.Some?
    ensures Inv(cfg, w.(workers := w.workers[tp := wk']))
  {
    hide PartInv, SliceTakes, SliceOf;
    var w' := w.(workers := w.workers[tp := wk']);
    forall q ensures PartInv(cfg, SliceOf(w', q)) {
      assert PartInv(cfg, SliceOf(w, q));
      WorkersSlice(w, tp, wk', q);
      if q == tp {
        assert LogOk(Log(w.sh.broker, tp), tp);
        SliceLog(w, tp);
        TakeKeepsPart(cfg, SliceOf(w, q), SliceOf(w', q), tp);
      }
    }
    DispatcherKeepsInv(cfg, w, w');
  }

  lemma SliceLog(w: World, tp: TP)
    ensures SliceOf(w, tp).log == Log(w.sh.broker, tp)
  {
  }

  lemma WorkersSlice(w: World, tp: TP, wk': Worker, q: TP)
    ensures SliceOf(w.(workers := w.workers[tp := wk']), q) ==
      if q == tp then SliceOf(w, q).(wk := wk') else SliceOf(w, q)
  {
  }

  lemma WorkKeepsInv(cfg: Config, w: World, tp: TP, c: Choice)
    requires Inv(cfg, w) && cfg.groupID != ""
    ensures Inv(cfg, WorkStep(cfg, w, tp, c))
  {
    hide BusyStep, AfterEffect, Inv, SliceOf;
    if w.live && tp in w.workers {
      var wk := w.workers[tp];
      if Busy(wk.pc) {
        BusyKeepsInv(cfg, w, tp, c);
      } else if wk.pc.Idle? {
        WorkerIsFetched(cfg, w, tp);
        var wk' :=
          if wk.queue == [] then (if w.polling then wk else wk.(pc := Exited))
          else Worker(wk.queue[1..], if w.sh.cancelled then Exited else Starting(wk.queue[0]), wk.perKey);
        if wk' != wk { TakeKeepsInv(cfg, w, tp, wk'); }
      }
    }
  }

  lemma WorkerIsFetched(cfg: Config, w: World, tp: TP)
    requires Inv(cfg, w) && tp in w.workers
    ensures SliceOf(w, tp).fetched.Some? && SliceOf(w, tp).wk == w.workers[tp]
    ensures SliceOf(w, tp).cancelled == w.sh.cancelled
  {
  }

  // ---- every run ----

  lemma StepKeepsInv(cfg: Config, w: World, l: Label)
    requires Inv(cfg, w) && cfg.groupID != ""
    ensures Inv(cfg, Step(cfg, w, l))
  {
    hide Inv, PollStep, EnqueueStep, WorkStep, FlagStep, StopStep, RestartStep, EnvironmentMove, ConsumerRests;
    InvWellFormed(cfg, w);
    if IsOutside(l) {
      OutsideMoves(cfg, w, l);
      EnvironmentKeepsInv(cfg, w, Step(cfg, w, l));
    } else if IsFlag(l) {
      FlagMoves(cfg, w, l);
      EnvironmentKeepsInv(cfg, w, FlagStep(w, l));
    } else {
      match l {
        case Poll => PollKeepsInv(cfg, w);
        case Enqueue(o) => EnqueueKeepsInv(cfg, w, o);
        case Work(tp, c) => WorkKeepsInv(cfg, w, tp, c);
        case Stop => StopRests(cfg, w); RestKeepsInv(cfg, w, StopStep(cfg, w));
        case Restart(topics) =>
          if RestartStep(cfg, w, topics) != w {
            RestartRests(cfg, w, topics);
            RestKeepsInv(cfg, w, RestartStep(cfg, w, topics));
          }
      }
    }
  }

  lemma InvWellFormed(cfg: Config, w: World)
    requires Inv(cfg, w)
    ensures WellFormed(w.sh.broker)
  {
  }

  lemma StartInv(cfg: Config)
    ensures Inv(cfg, StartWorld(cfg))
  {
  }

  /** No action breaks the broker's logs, whatever the rest of the world looks like. */
  lemma StepWellFormed(cfg: Config, w: World, l: Label)
    requires WellFormed(w.sh.broker)
    ensures WellFormed(Step(cfg, w, l).sh.broker)
  {
    hide WellFormed, PollStep, EnqueueStep, WorkStep, FlagStep, RestartStep, OutsideEffect;
    if IsOutside(l) {
      OutsideBrokerMoves(cfg, w.sh.broker, l);
    } else if IsFlag(l) {
      FlagWellFormed(cfg, w, l);
    } else {
      match l {
        case Work(tp, c) => WorkWellFormed(cfg, w, tp, c);
        case Restart(topics) => RestartWellFormed(cfg, w, topics);
        case _ => DispatcherKeepsBroker(cfg, w, l);
      }
    }
  }

  lemma DispatcherKeepsBroker(cfg: Config, w: World, l: Label)
    requires WellFormed(w.sh.broker) && (l.Poll? || l.Enqueue? || l.Stop?)
    ensures Step(cfg, w, l).sh.broker == w.sh.broker
  {
    hide WellFormed, WorkStep, FlagStep, RestartStep, OutsideEffect, OrderingOk, PollTarget, MessageFromRecord;
  }

  lemma FlagWellFormed(cfg: Config, w: World, l: Label)
    requires WellFormed(w.sh.broker) && IsFlag(l)
    ensures WellFormed(FlagStep(w, l).sh.broker)
  {
    hide WellFormed;
    SameDataFacts(cfg, w.sh.broker, FlagStep(w, l).sh.broker);
  }

  lemma RestartWellFormed(cfg: Config, w: World, topics: seq<string>)
    requires WellFormed(w.sh.broker)
    ensures WellFormed(RestartStep(cfg, w, topics).sh.broker)
  {
    hide WellFormed, WithGroup;
    WithGroupFacts(w.sh.broker, cfg.groupID);
  }

  lemma WorkWellFormed(cfg: Config, w: World, tp: TP, c: Choice)
    requires WellFormed(w.sh.broker)
    ensures WellFormed(WorkStep(cfg, w, tp, c).sh.broker)
  {
    hide WellFormed, BusyStep, ApplyToHist, ApplyToCalls;
    if w.live && tp in w.workers && Busy(w.workers[tp].pc) {
      BusyWellFormed(cfg, w.workers[tp].perKey, w.sh, w.workers[tp].pc, c);
    }
  }

  lemma BusyWellFormed(cfg: Config, perKey: bool, sh: Shared, pc: PC, c: Choice)
    requires WellFormed(sh.broker) && Busy(pc)
    ensures WellFormed(BusyStep(cfg, perKey, sh, pc, c).sh.broker)
  {
    hide WellFormed, HandlerStep, RouteStep, CommitStep;
    if pc.RoutingOut? {
      RouteWellFormed(cfg, perKey, Later(sh, c), pc, c);
    } else if pc.Committing? {
      CommitStepOutcome(cfg, perKey, Later(sh, c), pc);
    } else {
      HandlerKeepsBroker(cfg, perKey, Later(sh, c), pc, c);
    }
  }

  lemma HandlerKeepsBroker(cfg: Config, perKey: bool, sh: Shared, pc: PC, c: Choice)
    requires InHandlerPhase(pc)
    ensures HandlerStep(cfg, perKey, sh, pc, c).sh.broker == sh.broker
  {
    hide RetryMessage, AttachRetry, LookupOk, Claims.TryStartCall, RetriesInPlace;
  }

  lemma RouteWellFormed(cfg: Config, perKey: bool, sh: Shared, pc: PC, c: Choice)
    requires WellFormed(sh.broker) && pc.RoutingOut?
    ensures WellFormed(RouteStep(cfg, perKey, sh, pc, c).sh.broker)
  {
    hide WellFormed, Append, ApplyTxn, Destination, Lists, Log;
    if pc.stage.PublishApply? {
      AppendFacts(sh.broker, RecordWith(pc.out, c.headers), 0);
    } else if pc.stage.CommitApply? {
      ApplyTxnWellFormed(sh.broker, pc.txn);
    } else if pc.stage.BeginApply? {
      SameDataFacts(cfg, sh.broker, sh.broker.(txnSeq := sh.broker.txnSeq + 1));
    }
  }

  lemma StartWellFormed(cfg: Config)
    ensures WellFormed(StartWorld(cfg).sh.broker)
  {
  }

  ghost function Stepper(cfg: Config): (World, Label) -> World {
    (w: World, l: Label) => if WellFormed(w.sh.broker) then Step(cfg, w, l) else w
  }

  lemma {:induction false} WorldsWellFormed(cfg: Config, labels: seq<Label>)
    ensures WellFormed(Traces.Last(StartWorld(cfg), Stepper(cfg), labels).sh.broker)
    decreases |labels|
  {
    hide Step, WellFormed, Traces.Last;
    if labels == [] {
      Traces.LastStart(StartWorld(cfg), Stepper(cfg));
      StartWellFormed(cfg);
    } else {
      var n := |labels| - 1;
      assert labels == labels[..n] + [labels[n]];
      Traces.LastMore(StartWorld(cfg), Stepper(cfg), labels[..n], labels[n]);
      WorldsWellFormed(cfg, labels[..n]);
      StepWellFormed(cfg, Traces.Last(StartWorld(cfg), Stepper(cfg), labels[..n]), labels[n]);
    }
  }

  /** The world after a run that begins with a broker that holds nothing. */
  ghost function Run(cfg: Config, labels: seq<Label>): (w: World)
    ensures WellFormed(w.sh.broker)
  {
    WorldsWellFormed(cfg, labels);
    Traces.Last(StartWorld(cfg), Stepper(cfg), labels)
  }

  lemma RunStart(cfg: Config)
    ensures Run(cfg, []) == StartWorld(cfg)
  {
    hide Traces.Last, WellFormed;
    Traces.LastStart(StartWorld(cfg), Stepper(cfg));
  }

  /** A run goes one step further with every label. */
  lemma RunStep(cfg: Config, labels: seq<Label>)
    requires labels != []
    ensures Run(cfg, labels) == Step(cfg, Run(cfg, labels[..|labels| - 1]), labels[|labels| - 1])
  {
    hide Step, WellFormed, Traces.Last;
    var n := |labels| - 1;
    assert labels == labels[..n] + [labels[n]];
    Traces.LastMore(StartWorld(cfg), Stepper(cfg), labels[..n], labels[n]);
  }

  /** Every world of every run satisfies the invariant. */
  lemma {:induction false} RunInv(cfg: Config, labels: seq<Label>)
    requires cfg.groupID != ""
    ensures Inv(cfg, Run(cfg, labels))
  {
    hide Inv, Step, Run;
    if labels == [] {
      RunStart(cfg);
      StartInv(cfg);
    } else {
      RunStep(cfg, labels);
      RunInv(cfg, labels[..|labels| - 1]);
      StepKeepsInv(cfg, Run(cfg, labels[..|labels| - 1]), labels[|labels| - 1]);
    }
  }
}
