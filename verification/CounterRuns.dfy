/** Two runs that show the guarantees are tight: a fenced route loses a message, and
    at-least-once mode can route one message twice. Both work for every consumer with one
    plain at-least-once handler. */
module CounterRuns {
  import opened Wrappers
  import opened Envelope
  import opened Config
  import opened Routing
  import opened Broker
  import opened Protocol
  import opened Safety
  import opened Runs
  import opened Exclusion
  import opened Guarantees

  /** One handler, on `t`, retried through retry topics at least once. */
  ghost predicate Plain(cfg: Config, t: string) {
    && cfg.groupID != "" && cfg.guarantee.AtLeastOnce? && cfg.store.None? && t != ""
    && cfg.handlers.Keys == {t} && cfg.OrderingFor(cfg.handlers[t]) == OrderingNone
    && cfg.MaxRetriesFor(cfg.handlers[t]) >= 1 && cfg.namer.retry(t, 1) != t
  }

  function Part(t: string): TP { TP(t, 0) }
  function Bare(t: string): Record { Record(t, 0, 0, [], [], [], 1) }
  function StoredAt(t: string, o: int): MemRec { MemRec(Bare(t).(offset := o), 0, true) }
  function Job(t: string, o: int): Message { MessageFromRecord(StoredAt(t, o).rec) }

  function Going(t: string): Choice { Choice(0, None, None, Some(t), [], false) }
  function Failing(t: string): Choice { Going(t).(failure := Some("")) }

  lemma JobFacts(cfg: Config, t: string, o: int, found: Option<string>)
    requires Plain(cfg, t)
    ensures LookupOk(cfg, Job(t, o), found) <==> found == Some(t)
    ensures Job(t, o).NotBefore().None? && Job(t, o).RetryAttempt() == 0 && Job(t, o).id == ""
    ensures TPOf(Job(t, o)) == Part(t) && Job(t, o).offset == o
  {
    assert Job(t, o).headers == map[];
    assert Get(map[], RETRY_NOT_BEFORE) == "";
  }

  // ---- extending a run ----

  lemma Extend(cfg: Config, labels: seq<Label>, w: World, l: Label) returns (labels': seq<Label>, w': World)
    requires cfg.groupID != "" && w == Run(cfg, labels)
    ensures labels' == labels + [l] && w' == Run(cfg, labels') && w' == Step(cfg, w, l)
  {
    hide Inv, PartInv, WellFormed, Run, Step;
    labels' := labels + [l];
    assert labels'[..|labels'| - 1] == labels;
    RunStep(cfg, labels');
    w' := Run(cfg, labels');
  }

  /** The single worker acts. */
  lemma Act(cfg: Config, labels: seq<Label>, w: World, tp: TP, wk: Worker, c: Choice)
    returns (labels': seq<Label>, w': World)
    requires cfg.groupID != "" && w == Run(cfg, labels) && w.live && w.workers == map[tp := wk] && Busy(wk.pc)
    ensures w' == Run(cfg, labels') && w' == AfterEffect(w, tp, wk, BusyStep(cfg, wk.perKey, w.sh, wk.pc, c))
  {
    hide Inv, PartInv, WellFormed;
    hide BusyStep, AfterEffect;
    labels', w' := Extend(cfg, labels, w, Work(tp, c));
  }

  /** The consumer's own state apart from what is shared and the history. */
  ghost predicate Only(w: World, t: string, wk: Worker) {
    w.live && w.polling && w.polled.None? && w.workers == map[Part(t) := wk]
  }

  /** Two bare records stored, and a healthy subscription that reads offset `o` next. */
  ghost predicate Healthy(cfg: Config, sh: Shared, t: string, o: int) {
    && WellFormed(sh.broker) && !sh.broker.closed && !sh.cancelled && sh.clock == 0 && sh.sub.groupID == cfg.groupID
    && sh.sub.topics == [t] && sh.sub.revoked == {} && !sh.sub.closed
    && Log(sh.broker, Part(t)) == [StoredAt(t, 0), StoredAt(t, 1)]
    && NextFetch(sh.broker, sh.sub, Part(t)) == o
  }

  lemma TwoRecords(cfg: Config, t: string) returns (labels: seq<Label>, w: World)
    requires Plain(cfg, t)
    ensures w == Run(cfg, labels) && Healthy(cfg, w.sh, t, 0) && !w.sh.broker.fenced
    ensures w.live && w.polling && w.polled.None? && w.workers == map[] && w.hist == map[] && w.origin == map[]
    ensures Committed(cfg, w, Part(t)) == 0
  {
    hide Inv, PartInv, WellFormed;
    hide WorkStep, PollStep, EnqueueStep, Append;
    labels := [];
    RunStart(cfg);
    w := Run(cfg, labels);
    AppendFacts(w.sh.broker, Bare(t), 0);
    labels, w := Extend(cfg, labels, w, OutsidePublish(Bare(t)));
    assert Log(w.sh.broker, Part(t)) == [StoredAt(t, 0)];
    AppendFacts(w.sh.broker, Bare(t), 0);
    labels, w := Extend(cfg, labels, w, OutsidePublish(Bare(t)));
    assert Log(w.sh.broker, Part(t)) == [StoredAt(t, 0), StoredAt(t, 1)];
    labels, w := Extend(cfg, labels, w, Restart([t]));
    assert Log(w.sh.broker, Part(t)) == [StoredAt(t, 0), StoredAt(t, 1)];
  }

  lemma PollsPart(cfg: Config, w: World, t: string, o: int)
    requires Healthy(cfg, w.sh, t, o) && 0 <= o < 2 && w.live && w.polling && w.polled.None?
    ensures PollStep(w) == w.(sh := w.sh.(sub := Polled(w.sh.sub, Part(t), o)), polled := Some(StoredAt(t, o).rec))
  {
    var b, s := w.sh.broker, w.sh.sub;
    assert Stored(b, Part(t));
    assert Ready(b, s, Part(t));
    assert ScanParts(b, s, t, 0) == Some(Part(t));
    assert ScanTopics(b, s, 0) == Some(Part(t));
  }

  lemma Sends(cfg: Config, t: string, w: World, m: Message)
    requires Plain(cfg, t) && w.live && w.polling && w.polled.Some? && m == MessageFromRecord(w.polled.value)
    requires TPOf(m) == Part(t)
    requires w.workers == map[] || w.workers == map[Part(t) := Worker([], Idle, false)]
    ensures EnqueueStep(cfg, w, OrderingNone) == w.(polled := None, workers := map[Part(t) := Worker([m], Idle, false)])
  {
    hide MessageFromRecord, TPOf;
    assert OrderingOk(cfg, t, OrderingNone);
    assert [] + [m] == [m];
  }

  lemma Takes(cfg: Config, t: string, w: World, m: Message)
    requires WellFormed(w.sh.broker) && Only(w, t, Worker([m], Idle, false)) && !w.sh.cancelled
    ensures WorkStep(cfg, w, Part(t), Going(t)) == w.(workers := map[Part(t) := Worker([], Starting(m), false)])
  {
    assert [m][1..] == [];
  }

  /** Poll and enqueue message `o`. */
  lemma Dispatch(cfg: Config, t: string, labels: seq<Label>, w0: World, o: int) returns (labels': seq<Label>, w: World)
    requires Plain(cfg, t) && w0 == Run(cfg, labels) && Healthy(cfg, w0.sh, t, o) && 0 <= o < 2
    requires w0.live && w0.polling && w0.polled.None?
    requires w0.workers == map[] || w0.workers == map[Part(t) := Worker([], Idle, false)]
    ensures w == Run(cfg, labels') && Only(w, t, Worker([Job(t, o)], Idle, false))
    ensures w == w0.(sh := w0.sh.(sub := Polled(w0.sh.sub, Part(t), o)), workers := w.workers)
  {
    hide Inv, PartInv, WellFormed;
    var w1;
    PollsPart(cfg, w0, t, o);
    JobFacts(cfg, t, o, None);
    StepIs(cfg, w0, Poll);
    hide Step, PollStep, EnqueueStep, MessageFromRecord, Run, LookupOk, TPOf, Healthy, Polled, WellFormed;
    labels', w1 := Extend(cfg, labels, w0, Poll);
    StepIs(cfg, w1, Enqueue(OrderingNone));
    Sends(cfg, t, w1, Job(t, o));
    labels', w := Extend(cfg, labels', w1, Enqueue(OrderingNone));
  }

  /** Poll, enqueue and take message `o`. */
  lemma Fetch(cfg: Config, t: string, labels: seq<Label>, w0: World, o: int) returns (labels': seq<Label>, w: World)
    requires Plain(cfg, t) && w0 == Run(cfg, labels) && Healthy(cfg, w0.sh, t, o) && 0 <= o < 2
    requires w0.live && w0.polling && w0.polled.None?
    requires w0.workers == map[] || w0.workers == map[Part(t) := Worker([], Idle, false)]
    ensures w == Run(cfg, labels') && Only(w, t, Worker([], Starting(Job(t, o)), false))
    ensures w.sh == w0.sh.(sub := Polled(w0.sh.sub, Part(t), o))
    ensures w.hist == w0.hist && w.origin == w0.origin
  {
    hide Inv, PartInv, WellFormed;
    var w1;
    labels', w1 := Dispatch(cfg, t, labels, w0, o);
    Takes(cfg, t, w1, Job(t, o));
    StepIs(cfg, w1, Work(Part(t), Going(t)));
    hide Step, WorkStep, MessageFromRecord, Run, Polled, WellFormed, Healthy;
    labels', w := Extend(cfg, labels', w1, Work(Part(t), Going(t)));
  }

  /** The worker's action, with a known effect. */
  lemma Acts(cfg: Config, t: string, labels: seq<Label>, w0: World, pc: PC, c: Choice, e: Effect)
    returns (labels': seq<Label>, w: World)
    requires cfg.groupID != "" && w0 == Run(cfg, labels) && Only(w0, t, Worker([], pc, false)) && Busy(pc)
    requires BusyStep(cfg, false, w0.sh, pc, c) == e
    ensures w == Run(cfg, labels') && Only(w, t, Worker([], e.pc, false)) && w.sh == e.sh
    ensures HistOf(w, Part(t)) == ApplyToHist(HistOf(w0, Part(t)), e.event, pc.job.offset)
    ensures e.event.Silent? || e.event.Called? ==> HistOf(w, Part(t)) == HistOf(w0, Part(t))
    ensures w.origin == (if e.event.Routed? then w0.origin[e.event.dst := Pos(Part(t), pc.job.offset)] else w0.origin)
  {
    hide Inv, PartInv, WellFormed;
    hide BusyStep, ApplyToCalls, Run, AfterEffect, HistOf;
    labels', w := Act(cfg, labels, w0, Part(t), Worker([], pc, false), c);
    AfterQuiet(t, w0, pc, e);
  }

  lemma AfterQuiet(t: string, w: World, pc: PC, e: Effect)
    requires Only(w, t, Worker([], pc, false)) && Busy(pc)
    ensures var w' := AfterEffect(w, Part(t), Worker([], pc, false), e);
      && Only(w', t, Worker([], e.pc, false)) && w'.sh == e.sh
      && HistOf(w', Part(t)) == ApplyToHist(HistOf(w, Part(t)), e.event, pc.job.offset)
      && w'.origin == (if e.event.Routed? then w.origin[e.event.dst := Pos(Part(t), pc.job.offset)] else w.origin)
  {
    hide ApplyToHist, ApplyToCalls, ApplyToLife;
  }

  lemma StartSteps(cfg: Config, t: string, sh: Shared, o: int)
    requires Plain(cfg, t) && WellFormed(sh.broker)
    ensures BusyStep(cfg, false, sh, Starting(Job(t, o)), Going(t)) == Effect(sh, Waiting(Job(t, o), t), Silent)
    ensures BusyStep(cfg, false, sh, Waiting(Job(t, o), t), Going(t)) == Effect(sh, Claiming(Job(t, o), t), Silent)
    ensures BusyStep(cfg, false, sh, Claiming(Job(t, o), t), Going(t)) ==
      Effect(sh, Handling(Job(t, o), Job(t, o), t, 0, None), Called(0))
    ensures BusyStep(cfg, false, sh, Handling(Job(t, o), Job(t, o), t, 0, None), Going(t)) ==
      Effect(sh, ToCommit(Job(t, o)), DecidedHandled)
  {
    JobFacts(cfg, t, o, Some(t));
    hide MessageFromRecord, LookupOk, FailAndRoute;
  }

  /** From the channel to the running handler. */
  lemma Deliver(cfg: Config, t: string, labels: seq<Label>, w0: World, o: int) returns (labels': seq<Label>, w: World)
    requires Plain(cfg, t) && w0 == Run(cfg, labels) && Healthy(cfg, w0.sh, t, o) && 0 <= o < 2
    requires w0.live && w0.polling && w0.polled.None?
    requires w0.workers == map[] || w0.workers == map[Part(t) := Worker([], Idle, false)]
    ensures w == Run(cfg, labels') && Only(w, t, Worker([], Handling(Job(t, o), Job(t, o), t, 0, None), false))
    ensures w.sh == w0.sh.(sub := Polled(w0.sh.sub, Part(t), o))
    ensures HistOf(w, Part(t)) == HistOf(w0, Part(t)) && w.origin == w0.origin
  {
    hide Inv, PartInv, WellFormed;
    var w1, w2, w3;
    labels', w1 := Fetch(cfg, t, labels, w0, o);
    var m := Job(t, o);
    StartSteps(cfg, t, w1.sh, o);
    hide BusyStep, MessageFromRecord, Run, Healthy, Polled, Only, HistOf, WellFormed, ApplyToHist;
    labels', w2 := Acts(cfg, t, labels', w1, Starting(m), Going(t), Effect(w1.sh, Waiting(m, t), Silent));
    labels', w3 := Acts(cfg, t, labels', w2, Waiting(m, t), Going(t), Effect(w1.sh, Claiming(m, t), Silent));
    labels', w := Acts(cfg, t, labels', w3, Claiming(m, t), Going(t),
                       Effect(w1.sh, Handling(m, m, t, 0, None), Called(0)));
  }

  // ---- the handler succeeds ----

  function CommitAt(m: Message, st: CommitStage): PC { Committing(m, st, false) }

  lemma CommitSteps(cfg: Config, t: string, sh: Shared, o: int)
    requires Plain(cfg, t) && WellFormed(sh.broker) && !sh.broker.closed && !sh.cancelled && Assigned(sh.sub, Part(t))
    ensures var m := Job(t, o);
      && BusyStep(cfg, false, sh, CommitAt(m, FirstCheck), Going(t)) ==
           Effect(sh, CommitAt(m, CommitContextCheck), Silent)
      && BusyStep(cfg, false, sh, CommitAt(m, CommitContextCheck), Going(t)) ==
           Effect(sh, CommitAt(m, SecondCheck), Silent)
      && BusyStep(cfg, false, sh, CommitAt(m, SecondCheck), Going(t)) == Effect(sh, CommitAt(m, ApplyOffset), Silent)
      && BusyStep(cfg, false, sh, CommitAt(m, ApplyOffset), Going(t)) ==
           Effect(sh.(broker := Raise(sh.broker, sh.sub.groupID, Part(t), o + 1)), Idle, Silent)
  {
    JobFacts(cfg, t, o, None);
    hide MessageFromRecord, LookupOk, Raise, TPOf;
  }

  /** A settled message committed. */
  lemma CommitJob(cfg: Config, t: string, labels: seq<Label>, w0: World, o: int) returns (labels': seq<Label>, w: World)
    requires Plain(cfg, t) && w0 == Run(cfg, labels) && Only(w0, t, Worker([], CommitAt(Job(t, o), FirstCheck), false))
    requires !w0.sh.broker.closed && !w0.sh.cancelled && Assigned(w0.sh.sub, Part(t))
    ensures w == Run(cfg, labels') && w.sh == w0.sh.(broker := Raise(w0.sh.broker, w0.sh.sub.groupID, Part(t), o + 1))
    ensures HistOf(w, Part(t)) == HistOf(w0, Part(t)) && w.origin == w0.origin
  {
    hide Inv, PartInv, WellFormed;
    var m := Job(t, o);
    var w1, w2, w3;
    var sh := w0.sh;
    CommitSteps(cfg, t, sh, o);
    hide BusyStep, MessageFromRecord, Run, Only, HistOf, WellFormed, LookupOk, Raise, Assigned, ApplyToHist;
    labels', w1 := Acts(cfg, t, labels, w0, CommitAt(m, FirstCheck), Going(t),
                        Effect(sh, CommitAt(m, CommitContextCheck), Silent));
    labels', w2 := Acts(cfg, t, labels', w1, CommitAt(m, CommitContextCheck), Going(t),
                        Effect(sh, CommitAt(m, SecondCheck), Silent));
    labels', w3 := Acts(cfg, t, labels', w2, CommitAt(m, SecondCheck), Going(t),
                        Effect(sh, CommitAt(m, ApplyOffset), Silent));
    labels', w := Acts(cfg, t, labels', w3, CommitAt(m, ApplyOffset), Going(t),
                       Effect(sh.(broker := Raise(sh.broker, sh.sub.groupID, Part(t), o + 1)), Idle, Silent));
  }

  /** A delivered message handled and committed. */
  lemma Succeed(cfg: Config, t: string, labels: seq<Label>, w0: World, o: int) returns (labels': seq<Label>, w: World)
    requires Plain(cfg, t) && w0 == Run(cfg, labels)
    requires Only(w0, t, Worker([], Handling(Job(t, o), Job(t, o), t, 0, None), false))
    requires !w0.sh.broker.closed && !w0.sh.cancelled && Assigned(w0.sh.sub, Part(t))
    ensures w == Run(cfg, labels') && w.sh == w0.sh.(broker := Raise(w0.sh.broker, w0.sh.sub.groupID, Part(t), o + 1))
    ensures HistOf(w, Part(t)) == ApplyToHist(HistOf(w0, Part(t)), DecidedHandled, o)
    ensures w.origin == w0.origin
  {
    hide Inv, PartInv, WellFormed;
    var m := Job(t, o);
    var w1;
    JobFacts(cfg, t, o, None);
    StartSteps(cfg, t, w0.sh, o);
    hide BusyStep, MessageFromRecord, Run, Only, HistOf, WellFormed, LookupOk, Raise, Assigned, ApplyToHist;
    labels', w1 := Acts(cfg, t, labels, w0, Handling(m, m, t, 0, None), Going(t),
                        Effect(w0.sh, CommitAt(m, FirstCheck), DecidedHandled));
    labels', w := CommitJob(cfg, t, labels', w1, o);
  }

  // ---- the handler fails ----

  /** The retry of message `o` after its first failure. */
  function Retry(cfg: Config, t: string, o: int): Message {
    RetryMessage(Job(t, o), cfg.namer.retry(t, 1), 1, "", DelayFor(cfg, t, 1), 0)
  }

  function RouteAt(cfg: Config, t: string, o: int, st: RouteStage): PC {
    RoutingOut(Job(t, o), Retry(cfg, t, o), st, NO_TXN)
  }

  lemma FailSteps(cfg: Config, t: string, sh: Shared, o: int)
    requires Plain(cfg, t) && WellFormed(sh.broker) && !sh.cancelled && sh.clock == 0 && Assigned(sh.sub, Part(t))
    ensures var m := Job(t, o);
      && BusyStep(cfg, false, sh, Handling(m, m, t, 0, None), Failing(t)) ==
           Effect(sh, RouteAt(cfg, t, o, OutcomeCheck), Silent)
      && BusyStep(cfg, false, sh, RouteAt(cfg, t, o, OutcomeCheck), Going(t)) ==
           Effect(sh, RouteAt(cfg, t, o, PublishContext), Silent)
      && BusyStep(cfg, false, sh, RouteAt(cfg, t, o, PublishContext), Going(t)) ==
           Effect(sh, RouteAt(cfg, t, o, PublishApply), Silent)
  {
    JobFacts(cfg, t, o, None);
    hide MessageFromRecord, LookupOk, TPOf, RetryMessage;
  }

  /** A delivered message fails and its retry stands in front of the broker. */
  lemma Fail(cfg: Config, t: string, labels: seq<Label>, w0: World, o: int) returns (labels': seq<Label>, w: World)
    requires Plain(cfg, t) && w0 == Run(cfg, labels)
    requires Only(w0, t, Worker([], Handling(Job(t, o), Job(t, o), t, 0, None), false))
    requires !w0.sh.cancelled && w0.sh.clock == 0 && Assigned(w0.sh.sub, Part(t))
    ensures w == Run(cfg, labels') && w.sh == w0.sh && Only(w, t, Worker([], RouteAt(cfg, t, o, PublishApply), false))
    ensures HistOf(w, Part(t)) == HistOf(w0, Part(t)) && w.origin == w0.origin
  {
    hide Inv, PartInv, WellFormed;
    var m := Job(t, o);
    var w1, w2;
    var sh := w0.sh;
    FailSteps(cfg, t, sh, o);
    hide BusyStep, MessageFromRecord, Run, Only, HistOf, WellFormed, Assigned, RetryMessage, ApplyToHist;
    labels', w1 := Acts(cfg, t, labels, w0, Handling(m, m, t, 0, None), Failing(t),
                        Effect(sh, RouteAt(cfg, t, o, OutcomeCheck), Silent));
    labels', w2 := Acts(cfg, t, labels', w1, RouteAt(cfg, t, o, OutcomeCheck), Going(t),
                        Effect(sh, RouteAt(cfg, t, o, PublishContext), Silent));
    labels', w := Acts(cfg, t, labels', w2, RouteAt(cfg, t, o, PublishContext), Going(t),
                       Effect(sh, RouteAt(cfg, t, o, PublishApply), Silent));
  }

  // ---- the two runs ----

  lemma Fence(cfg: Config, labels: seq<Label>, w0: World, fenced: bool) returns (labels': seq<Label>, w: World)
    requires cfg.groupID != "" && w0 == Run(cfg, labels)
    ensures w == Run(cfg, labels')
    ensures w == w0.(sh := w0.sh.(broker := w0.sh.broker.(fenced := fenced)))
  {
    hide Inv, PartInv, WellFormed;
    labels', w := Extend(cfg, labels, w0, SetFenced(fenced));
  }

  lemma FencedGivesUp(cfg: Config, t: string, sh: Shared, o: int)
    requires WellFormed(sh.broker) && sh.broker.fenced && !sh.broker.closed
    ensures BusyStep(cfg, false, sh, RouteAt(cfg, t, o, PublishApply), Going(t)) == Effect(sh, Idle, FenceRefused)
  {
    hide MessageFromRecord, RetryMessage;
  }

  /** A retry in front of a fenced broker is given up; the fence lifts. */
  lemma GiveUpFenced(cfg: Config, t: string, labels: seq<Label>, w0: World) returns (labels': seq<Label>, w: World)
    requires Plain(cfg, t) && w0 == Run(cfg, labels) && Only(w0, t, Worker([], RouteAt(cfg, t, 0, PublishApply), false))
    requires !w0.sh.broker.closed && !w0.sh.broker.fenced
    ensures w == Run(cfg, labels') && Only(w, t, Worker([], Idle, false)) && w.sh == w0.sh && w.origin == w0.origin
    ensures HistOf(w, Part(t)) == ApplyToHist(HistOf(w0, Part(t)), FenceRefused, 0)
  {
    hide Inv, PartInv, WellFormed;
    var w1, w2;
    labels', w1 := Fence(cfg, labels, w0, true);
    FencedGivesUp(cfg, t, w1.sh, 0);
    JobFacts(cfg, t, 0, None);
    hide Run, BusyStep, MessageFromRecord, RetryMessage, LookupOk, WellFormed, ApplyToHist, Log;
    labels', w2 := Acts(cfg, t, labels', w1, RouteAt(cfg, t, 0, PublishApply), Going(t),
                        Effect(w1.sh, Idle, FenceRefused));
    labels', w := Fence(cfg, labels', w2, false);
  }

  lemma RefusedHist()
    ensures ApplyToHist(NO_HIST, FenceRefused, 0) == NO_HIST.(fenceRefused := {0})
  {
  }

  lemma HealthyReads(cfg: Config, sh: Shared, t: string)
    requires Healthy(cfg, sh, t, 0)
    ensures var sh' := sh.(sub := Polled(sh.sub, Part(t), 0));
      Healthy(cfg, sh', t, 1) && !sh'.cancelled && !sh'.broker.closed && sh'.clock == 0 && Assigned(sh'.sub, Part(t))
  {
    hide WellFormed, MessageFromRecord;
  }

  /** The first of two messages fails while the broker refuses its retry; the worker gives
      it up and stands ready for the second. */
  lemma LoseFirst(cfg: Config, t: string) returns (labels: seq<Label>, w: World)
    requires Plain(cfg, t)
    ensures w == Run(cfg, labels) && Only(w, t, Worker([], Idle, false))
    ensures Healthy(cfg, w.sh, t, 1) && HistOf(w, Part(t)) == NO_HIST.(fenceRefused := {0}) && w.origin == map[]
  {
    var w0, w1, w2;
    labels, w0 := TwoRecords(cfg, t);
    assert HistOf(w0, Part(t)) == NO_HIST;
    RefusedHist();
    hide Inv, PartInv, WellFormed, Run, BusyStep, MessageFromRecord, RetryMessage, LookupOk, Log, Only, HistOf,
      ApplyToHist, Healthy, Polled;
    HealthyReads(cfg, w0.sh, t);
    labels, w1 := Deliver(cfg, t, labels, w0, 0);
    labels, w2 := Fail(cfg, t, labels, w1, 0);
    labels, w := GiveUpFenced(cfg, t, labels, w2);
  }

  /** The exception for fenced routes is needed: the first message fails while the
      broker refuses its retry, the fence lifts, the second message is handled, and its commit
      carries the group past the first, which was neither handled, dropped nor copied. */
  lemma FencingLosesAMessage(cfg: Config, t: string) returns (labels: seq<Label>)
    requires Plain(cfg, t)
    ensures var w := Run(cfg, labels);
      0 < Committed(cfg, w, Part(t)) && !Accounted(cfg, w, Part(t), 0)
  {
    hide Inv, PartInv, WellFormed;
    var w0, w1, w;
    labels, w0 := LoseFirst(cfg, t);
    labels, w1 := Deliver(cfg, t, labels, w0, 1);
    labels, w := Succeed(cfg, t, labels, w1, 1);
    hide Run, BusyStep, MessageFromRecord, RetryMessage, WellFormed, Log, Raise;
    RaiseFacts(w1.sh.broker, cfg.groupID, Part(t), 2);
    NotAccounted(cfg, t, w1, w);
  }

  lemma NotAccounted(cfg: Config, t: string, w1: World, w: World)
    requires Plain(cfg, t) && w.origin == map[]
    requires HistOf(w, Part(t)) == ApplyToHist(NO_HIST.(fenceRefused := {0}), DecidedHandled, 1)
    requires w.sh.broker.topics == w1.sh.broker.topics && Log(w1.sh.broker, Part(t)) == [StoredAt(t, 0), StoredAt(t, 1)]
    ensures !Accounted(cfg, w, Part(t), 0)
  {
    hide MessageFromRecord, LookupOk;
    JobFacts(cfg, t, 0, None);
    assert Log(w.sh.broker, Part(t)) == Log(w1.sh.broker, Part(t));
    assert Log(w.sh.broker, Part(t))[0].rec == StoredAt(t, 0).rec;
  }

  // ---- at-least-once duplicates ----

  lemma Publishes(cfg: Config, t: string, sh: Shared, o: int, hs: seq<Header>)
    requires Plain(cfg, t) && WellFormed(sh.broker) && !Unavailable(sh.broker) && Lists(hs, Retry(cfg, t, o).headers)
    ensures var rec := RecordWith(Retry(cfg, t, o), hs); var d := Destination(sh.broker, rec);
      BusyStep(cfg, false, sh, RouteAt(cfg, t, o, PublishApply), Going(t).(headers := hs)) ==
        Effect(sh.(broker := Append(sh.broker, rec, 0)), CommitAt(Job(t, o), FirstCheck),
               Routed(Pos(d, |Log(sh.broker, d)|)))
  {
    hide MessageFromRecord, RetryMessage, Append, Destination, Lists;
  }

  lemma EndOfLogIsFresh(cfg: Config, w: World, d: Pos)
    requires Inv(cfg, w) && d.offset == |Log(w.sh.broker, d.tp)|
    ensures d !in w.origin
  {
    hide PartInv, MessageFromRecord;
    assert forall q :: q in w.origin ==> InLog(w.sh.broker, q);
  }

  /** The process dies and starts again. */
  lemma Reboot(cfg: Config, t: string, labels: seq<Label>, w0: World) returns (labels': seq<Label>, w: World)
    requires cfg.groupID != "" && w0 == Run(cfg, labels) && !w0.sh.broker.closed && w0.sh.clock == 0
    requires Log(w0.sh.broker, Part(t)) == [StoredAt(t, 0), StoredAt(t, 1)] && Committed(cfg, w0, Part(t)) == 0
    ensures w == Run(cfg, labels') && Healthy(cfg, w.sh, t, 0) && w.sh.broker.fenced == w0.sh.broker.fenced
    ensures w.live && w.polling && w.polled.None? && w.workers == map[] && Committed(cfg, w, Part(t)) == 0
    ensures w.origin == w0.origin
  {
    hide Inv, PartInv, WorkStep, PollStep, EnqueueStep;
    var w1;
    labels', w1 := Extend(cfg, labels, w0, Stop);
    labels', w := Extend(cfg, labels', w1, Restart([t]));
    WithGroupFacts(w1.sh.broker, cfg.groupID);
    assert Log(w.sh.broker, Part(t)) == Log(w0.sh.broker, Part(t));
  }

  /** A crash between the retry's publication and the commit: the process restarts at the
      same offset, with one copy out. */
  lemma CrashAfterPublish(cfg: Config, t: string, labels: seq<Label>, w0: World)
    returns (labels': seq<Label>, w: World, d: Pos)
    requires Plain(cfg, t) && w0 == Run(cfg, labels) && Healthy(cfg, w0.sh, t, 0) && !w0.sh.broker.fenced
    requires w0.live && w0.polling && w0.polled.None? && w0.workers == map[] && Committed(cfg, w0, Part(t)) == 0
    ensures w == Run(cfg, labels') && Healthy(cfg, w.sh, t, 0) && !w.sh.broker.fenced
    ensures w.live && w.polling && w.polled.None? && w.workers == map[] && Committed(cfg, w, Part(t)) == 0
    ensures d !in w0.origin && w.origin == w0.origin[d := Pos(Part(t), 0)]
  {
    hide Inv, PartInv, WellFormed;
    var w1, w2, w3;
    labels', w1 := Deliver(cfg, t, labels, w0, 0);
    labels', w2 := Fail(cfg, t, labels', w1, 0);
    labels', w3, d := PublishRetry(cfg, t, labels', w2);
    labels', w := Reboot(cfg, t, labels', w3);
  }

  lemma PublishRetry(cfg: Config, t: string, labels: seq<Label>, w0: World)
    returns (labels': seq<Label>, w: World, d: Pos)
    requires Plain(cfg, t) && w0 == Run(cfg, labels) && Only(w0, t, Worker([], RouteAt(cfg, t, 0, PublishApply), false))
    requires !Unavailable(w0.sh.broker)
    ensures w == Run(cfg, labels') && d !in w0.origin && w.origin == w0.origin[d := Pos(Part(t), 0)]
    ensures !Unavailable(w.sh.broker) && w.sh.clock == w0.sh.clock
    ensures Log(w.sh.broker, Part(t)) == Log(w0.sh.broker, Part(t))
    ensures Committed(cfg, w, Part(t)) == Committed(cfg, w0, Part(t))
  {
    hide Inv, PartInv, WellFormed;
    var hs := SomeListing(Retry(cfg, t, 0).headers);
    var rec := RecordWith(Retry(cfg, t, 0), hs);
    var b := w0.sh.broker;
    var dst := Destination(b, rec);
    d := Pos(dst, |Log(b, dst)|);
    RunInv(cfg, labels);
    EndOfLogIsFresh(cfg, w0, d);
    hide Inv, PartInv, Append, MessageFromRecord, BusyStep, Run, Lists, HistOf, ApplyToHist, PartitionFor;
    JobFacts(cfg, t, 0, None);
    Publishes(cfg, t, w0.sh, 0, hs);
    AppendFacts(b, rec, 0);
    labels', w := Acts(cfg, t, labels, w0, RouteAt(cfg, t, 0, PublishApply), Going(t).(headers := hs),
      Effect(w0.sh.(broker := Append(b, rec, 0)), CommitAt(Job(t, 0), FirstCheck), Routed(d)));
    assert dst.topic == cfg.namer.retry(t, 1);
  }

  /** At-least-once mode routes a message twice when the process dies between publishing its
      retry and committing its offset. Redelivery shows that nothing less does it. */
  lemma AtLeastOnceDuplicates(cfg: Config, t: string) returns (labels: seq<Label>, d1: Pos, d2: Pos)
    requires Plain(cfg, t)
    ensures var w := Run(cfg, labels);
      && d1 != d2 && d1 in w.origin && d2 in w.origin
      && w.origin[d1] == w.origin[d2] == Pos(Part(t), 0)
  {
    hide Inv, PartInv, WellFormed;
    hide Run, Healthy, Committed;
    var w0, w1, w;
    labels, w0 := TwoRecords(cfg, t);
    labels, w1, d1 := CrashAfterPublish(cfg, t, labels, w0);
    labels, w, d2 := CrashAfterPublish(cfg, t, labels, w1);
  }
}
