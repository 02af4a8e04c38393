/** What revocation, closing, cancelling and fencing put an end to, over every run: what a
    worker may still write once its partition is revoked or its context is done, that nothing
    more of a revoked partition is delivered, and that a closed or fenced broker stays as it is. */
module Barriers {
  import opened Wrappers
  import opened Envelope
  import opened Config
  import opened Routing
  import opened Broker
  import opened Protocol
  import opened Safety
  import opened Runs
  import opened Exclusion
  import opened Guarantees
  import opened Losses
  import opened Drain
  import Claims
  import Deduplication
  import Timing

  datatype Barrier = Disowned | Cancelled

  /** The live subscription is closed or has the partition revoked; or the context is done. */
  predicate Stands(bar: Barrier, w: World, tp: TP) {
    w.live && match bar
      case Disowned => w.sh.sub.closed || tp in w.sh.sub.revoked
      case Cancelled => w.sh.cancelled
  }

  /** The worker will not look at the barrier again before it writes. */
  predicate Past(bar: Barrier, pc: PC) {
    match bar
    case Disowned =>
      || (pc.Committing? && pc.commitStage.ApplyOffset?)
      || (pc.RoutingOut? && (pc.stage.PublishContext? || pc.stage.PublishApply?))
      || (pc.RoutingOut? && (pc.stage.CommitContext? || pc.stage.CommitApply?))
    case Cancelled =>
      || (pc.Committing? && (pc.commitStage.SecondCheck? || pc.commitStage.ApplyOffset?))
      || (pc.RoutingOut? && (pc.stage.PublishApply? || pc.stage.CommitApply?))
  }

  /** From one world to the next a message of the partition was routed, or the group's offset
      of it moved. */
  ghost predicate Writes(cfg: Config, w: World, w': World, tp: TP) {
    || GroupOffset(w'.sh.broker, cfg.groupID, tp) != GroupOffset(w.sh.broker, cfg.groupID, tp)
    || exists d :: d in w'.origin && d !in w.origin && w'.origin[d].tp == tp
  }

  predicate NoStop(labels: seq<Label>) { forall l :: l in labels ==> !l.Stop? }

  // ---- one step ----

  /** A busy worker in front of the barrier stays there and writes nothing; one that is past it
      goes on with the same job, and is not past it any more once it has written. */
  ghost predicate Held(bar: Barrier, pc: PC, e: Effect)
    requires Busy(pc)
  {
    && (Past(bar, e.pc) ==> Past(bar, pc) && e.pc.job == pc.job && !e.event.Routed?)
    && (e.event.Routed? ==> Past(bar, pc))
  }

  predicate Barred(bar: Barrier, sh: Shared, job: Message) {
    match bar
    case Disowned => sh.sub.closed || TPOf(job) in sh.sub.revoked
    case Cancelled => sh.cancelled
  }

  lemma RouteHeld(cfg: Config, bar: Barrier, perKey: bool, sh: Shared, pc: PC, c: Choice)
    requires pc.RoutingOut? && WellFormed(sh.broker) && Barred(bar, sh, pc.job)
    ensures Held(bar, pc, RouteStep(cfg, perKey, sh, pc, c))
  {
    hide Append, ApplyTxn, Destination, Lists, Log, WellFormed;
  }

  lemma CommitHeld(cfg: Config, bar: Barrier, perKey: bool, sh: Shared, pc: PC)
    requires pc.Committing? && WellFormed(sh.broker) && Barred(bar, sh, pc.job)
    ensures Held(bar, pc, CommitStep(cfg, perKey, sh, pc))
    ensures pc.commitStage.ApplyOffset? ==> !Past(bar, CommitStep(cfg, perKey, sh, pc).pc)
  {
    hide Raise, WellFormed;
  }

  lemma HandlerHeld(cfg: Config, bar: Barrier, perKey: bool, sh: Shared, pc: PC, e: Effect)
    requires InHandlerPhase(pc) && HandlerOutcome(cfg, perKey, sh, pc, e)
    ensures Held(bar, pc, e) && !Past(bar, e.pc)
  {
    hide LookupOk, CopyOf;
  }

  lemma BusyHeld(cfg: Config, bar: Barrier, w: World, l: Label, tp: TP)
    requires Inv(cfg, w) && cfg.groupID != "" && Acts(w, l, tp) && Stands(bar, w, tp)
    ensures WellFormed(w.sh.broker)
    ensures var wk := w.workers[tp]; var e := BusyStep(cfg, wk.perKey, w.sh, wk.pc, l.choice);
      && Held(bar, wk.pc, e)
      && (Commits(w, l, tp) ==> Past(bar, wk.pc) && !Past(bar, e.pc))
  {
    hide HandlerStep, RouteStep, CommitStep, RoutingOk, SliceOf, WellFormed, BusyStep, Held, HandlerOutcome, Inv;
    var wk, c, sh := w.workers[tp], l.choice, Later(w.sh, l.choice);
    InvWellFormed(cfg, w);
    BusyJob(cfg, w, tp, c);
    BusyIs(cfg, wk.perKey, w.sh, wk.pc, c);
    if wk.pc.RoutingOut? {
      RouteHeld(cfg, bar, wk.perKey, sh, wk.pc, c);
      RouteCommits(cfg, bar, wk.perKey, sh, wk.pc, c);
    } else if wk.pc.Committing? {
      CommitHeld(cfg, bar, wk.perKey, sh, wk.pc);
    } else {
      HandlerStepOutcome(cfg, wk.perKey, sh, wk.pc, c);
      HandlerHeld(cfg, bar, wk.perKey, sh, wk.pc, HandlerStep(cfg, wk.perKey, sh, wk.pc, c));
    }
  }

  lemma RouteCommits(cfg: Config, bar: Barrier, perKey: bool, sh: Shared, pc: PC, c: Choice)
    requires pc.RoutingOut? && WellFormed(sh.broker)
    ensures pc.stage.CommitApply? && !Unavailable(sh.broker) ==> !Past(bar, RouteStep(cfg, perKey, sh, pc, c).pc)
  {
    hide Append, ApplyTxn, Destination, Lists, Log, WellFormed;
  }

  /** The subscription and its context only lose; the process goes on. */
  ghost predicate BarriersStay(w: World, w': World) {
    && w'.live && w.sh.sub.revoked <= w'.sh.sub.revoked && (w.sh.sub.closed ==> w'.sh.sub.closed)
    && (w.sh.cancelled ==> w'.sh.cancelled)
  }

  lemma StepKeepsBarriers(cfg: Config, w: World, l: Label)
    requires Inv(cfg, w) && cfg.groupID != "" && w.live && !l.Stop?
    ensures WellFormed(w.sh.broker) && BarriersStay(w, Step(cfg, w, l))
  {
    hide Inv, Step, BusyStep, WorkStep, FlagStep, OutsideEffect, EnqueueStep, PollStep, WellFormed, LogsGrow;
    InvWellFormed(cfg, w);
    StepIs(cfg, w, l);
    if IsFlag(l) {
      FlagMoves(cfg, w, l);
    } else if l.Work? {
      WorkKeepsBarriers(cfg, w, l);
    } else if l.Restart? {
      NoRestart(cfg, w, l);
    } else if !IsOutside(l) {
      DispatchKeepsBarriers(cfg, w, l);
    }
  }

  lemma WorkKeepsBarriers(cfg: Config, w: World, l: Label)
    requires Inv(cfg, w) && cfg.groupID != "" && w.live && l.Work?
    ensures WellFormed(w.sh.broker) && BarriersStay(w, WorkStep(cfg, w, l.tp, l.choice))
  {
    hide Inv, BusyStep, WorkStep, WellFormed, LogsGrow;
    InvWellFormed(cfg, w);
    WorkLives(cfg, w, l.tp, l.choice);
    if l.tp in w.workers && Busy(w.workers[l.tp].pc) {
      BusyFrame(cfg, w, l.tp, l.choice);
      BusyWork(cfg, w, l.tp, l.choice);
    } else {
      IdleWork(cfg, w, l.tp, l.choice);
    }
  }

  lemma WorkLives(cfg: Config, w: World, tp: TP, c: Choice)
    requires WellFormed(w.sh.broker)
    ensures WorkStep(cfg, w, tp, c).live == w.live
  {
    hide WellFormed, BusyStep, ApplyToHist, ApplyToCalls, ApplyToLife;
  }

  lemma NoRestart(cfg: Config, w: World, l: Label)
    requires WellFormed(w.sh.broker) && w.live && l.Restart?
    ensures Step(cfg, w, l) == w
  {
    hide WellFormed;
  }

  lemma DispatchKeepsBarriers(cfg: Config, w: World, l: Label)
    requires w.live && (l.Poll? || l.Enqueue?)
    ensures l.Poll? ==> BarriersStay(w, PollStep(w))
    ensures l.Enqueue? ==> BarriersStay(w, EnqueueStep(cfg, w, l.ordering))
  {
    hide PollTarget, MessageFromRecord, OrderingOk;
  }

  /** One step behind the barrier: only a worker past it writes, and no longer is past it then. */
  ghost predicate StepHeld(cfg: Config, bar: Barrier, w: World, l: Label, w': World, tp: TP) {
    && Stands(bar, w', tp)
    && (Past(bar, WorkerOf(w', tp).pc) ==>
          && Past(bar, WorkerOf(w, tp).pc) && WorkerOf(w', tp).pc.job == WorkerOf(w, tp).pc.job
          && !Writes(cfg, w, w', tp))
    && (Writes(cfg, w, w', tp) ==> l.Work? && l.tp == tp && Past(bar, WorkerOf(w, tp).pc))
  }

  lemma ActionIsHeld(cfg: Config, bar: Barrier, w: World, l: Label, tp: TP)
    requires Inv(cfg, w) && cfg.groupID != "" && Stands(bar, w, tp) && Acts(w, l, tp)
    requires WellFormed(w.sh.broker) && Stands(bar, Step(cfg, w, l), tp)
    ensures StepHeld(cfg, bar, w, l, Step(cfg, w, l), tp)
  {
    hide Inv, Step, BusyStep, WellFormed, GroupOffset, Past, ApplyToHist, ApplyToCalls, ApplyToLife, Stands;
    ActionRaises(cfg, w, l, tp);
    BusyHeld(cfg, bar, w, l, tp);
    Timing.BusyIsStep(cfg, w, l);
  }

  lemma StepIsHeld(cfg: Config, bar: Barrier, w: World, l: Label, tp: TP)
    requires Inv(cfg, w) && cfg.groupID != "" && Stands(bar, w, tp) && !l.Stop?
    ensures WellFormed(w.sh.broker) && StepHeld(cfg, bar, w, l, Step(cfg, w, l), tp)
  {
    hide Inv, Step, BusyStep, WellFormed, LogsGrow, GroupOffset, Past, ApplyToHist, ApplyToCalls, ApplyToLife,
      Timing.TimeGoesOn;
    InvWellFormed(cfg, w);
    StepKeepsBarriers(cfg, w, l);
    if Acts(w, l, tp) {
      ActionIsHeld(cfg, bar, w, l, tp);
    } else {
      NobodyIsPast(bar);
      QuietStays(cfg, w, l, tp);
      if l.Work? && w.live && l.tp in w.workers && Busy(w.workers[l.tp].pc) {
        Timing.BusyIsStep(cfg, w, l);
      } else {
        Timing.QuietGoesOn(cfg, w, l);
        Deduplication.QuietShape(cfg, w, l);
      }
    }
  }

  lemma NobodyIsPast(bar: Barrier)
    ensures forall pc: PC :: pc.Idle? || pc.Exited? || pc.Starting? ==> !Past(bar, pc)
    ensures NO_WORKER.pc.Idle?
  {
  }

  // ---- every run ----

  /** How many steps of `more`, after `labels`, write for the partition. */
  ghost function WriteCount(cfg: Config, labels: seq<Label>, more: seq<Label>, tp: TP): nat {
    if more == [] then 0
    else
      var init := more[..|more| - 1];
      WriteCount(cfg, labels, init, tp)
      + (if Writes(cfg, Run(cfg, labels + init), Run(cfg, labels + more), tp) then 1 else 0)
  }

  function Left(bar: Barrier, w: World, tp: TP): nat { if Past(bar, WorkerOf(w, tp).pc) then 1 else 0 }

  /** One more label of a continuation. */
  lemma RunOn(cfg: Config, labels: seq<Label>, more: seq<Label>)
    requires more != []
    ensures Run(cfg, labels + more) == Step(cfg, Run(cfg, labels + more[..|more| - 1]), more[|more| - 1])
  {
    hide Run, Step;
    assert (labels + more)[..|labels + more| - 1] == labels + more[..|more| - 1];
    RunStep(cfg, labels + more);
  }

  /** Once a partition is revoked, or the subscription closed, or the context done, then for as
      long as the process runs, whatever happens: the barrier stays, and the partition's worker
      writes at most once more, only if it was already past the last check that would have held
      it, and then for the message it had in hand. */
  lemma {:induction false} BarrierEndsWrites(cfg: Config, bar: Barrier, labels: seq<Label>, more: seq<Label>, tp: TP)
    requires cfg.groupID != "" && Stands(bar, Run(cfg, labels), tp) && NoStop(more)
    ensures var w, w' := Run(cfg, labels), Run(cfg, labels + more);
      && Stands(bar, w', tp)
      && WriteCount(cfg, labels, more, tp) + Left(bar, w', tp) <= Left(bar, w, tp)
      && (Past(bar, WorkerOf(w', tp).pc) ==>
            Past(bar, WorkerOf(w, tp).pc) && WorkerOf(w', tp).pc.job == WorkerOf(w, tp).pc.job)
    ensures more != [] ==>
      var w, before, l := Run(cfg, labels), Run(cfg, labels + more[..|more| - 1]), more[|more| - 1];
      Writes(cfg, before, Run(cfg, labels + more), tp) ==>
        && l.Work? && l.tp == tp && Past(bar, WorkerOf(before, tp).pc) && Past(bar, WorkerOf(w, tp).pc)
        && WorkerOf(before, tp).pc.job == WorkerOf(w, tp).pc.job
    decreases |more|
  {
    hide Inv, Run, Step, WellFormed, Past, Writes;
    if more == [] {
      assert labels + more == labels;
    } else {
      var init := more[..|more| - 1];
      assert forall l :: l in init ==> l in more;
      assert more[|more| - 1] in more;
      BarrierEndsWrites(cfg, bar, labels, init, tp);
      RunOn(cfg, labels, more);
      RunInv(cfg, labels + init);
      StepIsHeld(cfg, bar, Run(cfg, labels + init), more[|more| - 1], tp);
    }
  }

  /** The subscription is given no record of the partition any more. */
  lemma {:induction false} DisownedGetsNothing(cfg: Config, labels: seq<Label>, more: seq<Label>, tp: TP)
    requires cfg.groupID != "" && Stands(Disowned, Run(cfg, labels), tp) && NoStop(more)
    ensures Deliveries(cfg, labels + more, tp) == Deliveries(cfg, labels, tp)
    decreases |more|
  {
    hide Inv, Run, Step, WellFormed, PollStep, RestartStep;
    if more == [] {
      assert labels + more == labels;
    } else {
      var init, l := more[..|more| - 1], more[|more| - 1];
      assert forall k :: k in init ==> k in more;
      assert l in more;
      DisownedGetsNothing(cfg, labels, init, tp);
      BarrierEndsWrites(cfg, Disowned, labels, init, tp);
      RunInv(cfg, labels + init);
      NotPolled(cfg, Run(cfg, labels + init), l, tp);
      var all := labels + more;
      assert all[..|all| - 1] == labels + init && all[|all| - 1] == l;
    }
  }

  lemma NotPolled(cfg: Config, w: World, l: Label, tp: TP)
    requires Inv(cfg, w) && Stands(Disowned, w, tp) && !l.Stop?
    ensures !Delivers(w, l, tp) && !Resubscribes(cfg, w, l)
  {
    hide PartInv, OriginSound, OriginComplete, OriginInjective, PollTarget;
    if l.Poll? && PollStep(w) != w {
      PollTargetIsFirst(w.sh.broker, w.sh.sub);
      var polled := PollTarget(w.sh.broker, w.sh.sub).value;
      assert LogOk(Log(w.sh.broker, polled), polled);
    }
  }

  /** What raises the barriers, in every run: revoking and cancelling a live consumer, ending its
      dispatcher once the context is done or the broker closed, closing its subscription then,
      and closing or fencing the broker. */
  lemma BarriersRise(cfg: Config, labels: seq<Label>, l: Label, tp: TP)
    requires IsFlag(l) && Run(cfg, labels).live
    ensures var w, w' := Run(cfg, labels), Run(cfg, labels + [l]);
      match l
      case Revoke(p) =>
        && w' == w.(sh := w.sh.(sub := w.sh.sub.(revoked := w.sh.sub.revoked + {p})))
        && Stands(Disowned, w', p)
      case Cancel => Stands(Cancelled, w', tp)
      case Shutdown =>
        if w.sh.cancelled || w.sh.broker.closed then Stands(Cancelled, w', tp) && !w'.polling else w' == w
      case CloseSub => if w.polling then w' == w else Stands(Disowned, w', tp)
      case CloseBroker => w'.sh.broker.closed
      case SetFenced(f) => w'.sh.broker.fenced == f
      case Evict(key) => key !in w'.sh.items && w' == w.(sh := w.sh.(items := w'.sh.items), storeLog := w'.storeLog)
  {
    hide Run, Step, WellFormed;
    RunMore(cfg, labels, l);
    StepIs(cfg, Run(cfg, labels), l);
  }

  /** And what lowers them: only a new process, which begins with nothing of the old one, reads
      from the group's offsets, and reads committed records alone exactly in transactional mode. */
  lemma RestartBegins(cfg: Config, labels: seq<Label>, topics: seq<string>)
    requires cfg.groupID != ""
    ensures var w, w' := Run(cfg, labels), Run(cfg, labels + [Restart(topics)]);
      if w.live || w.sh.broker.closed then w' == w
      else
        && w'.live && w'.polling && w'.polled.None? && w'.workers == map[] && w'.calls == map[] && w'.life == map[]
        && !w'.sh.cancelled && !w'.sh.txnHeld && w'.sh.clock == w.sh.clock && w'.sh.items == w.sh.items
        && w'.sh.sub == SubState(cfg.groupID, topics, w'.sh.sub.isolation, {}, map[], false)
        && (w'.sh.sub.isolation.ReadCommitted? <==> cfg.guarantee.Transactional?)
        && w'.sh.broker.topics == w.sh.broker.topics && cfg.groupID in w'.sh.broker.groups
        && forall g, tp :: GroupOffset(w'.sh.broker, g, tp) == GroupOffset(w.sh.broker, g, tp)
  {
    hide Run, WellFormed, PartInv, OriginSound, OriginComplete, OriginInjective, WithGroup;
    RunInv(cfg, labels);
    RunMore(cfg, labels, Restart(topics));
    var w := Run(cfg, labels);
    WithGroupFacts(w.sh.broker, cfg.groupID);
    GroupThere(w.sh.broker, cfg.groupID);
  }

  lemma GroupThere(b: BrokerState, group: string)
    ensures group in WithGroup(b, group).groups
  {
  }

  lemma RunMore(cfg: Config, labels: seq<Label>, l: Label)
    ensures Run(cfg, labels + [l]) == Step(cfg, Run(cfg, labels), l)
  {
    hide Run, Step, WellFormed;
    RunOn(cfg, labels, [l]);
    assert labels + [l][..0] == labels;
  }

  // ---- no new message ----

  /** A worker that is busy was so before, with the same message. */
  ghost predicate TakesNothing(w: World, w': World, tp: TP) {
    Busy(WorkerOf(w', tp).pc) ==> Busy(WorkerOf(w, tp).pc) && WorkerOf(w', tp).pc.job == WorkerOf(w, tp).pc.job
  }

  lemma StepTakesNothing(cfg: Config, w: World, l: Label, tp: TP)
    requires Inv(cfg, w) && cfg.groupID != "" && Stands(Cancelled, w, tp) && Timing.Timed(cfg, w)
    ensures WellFormed(w.sh.broker) && TakesNothing(w, Step(cfg, w, l), tp)
  {
    hide Inv, Step, BusyStep, WellFormed, Timing.Timed, WorkStep, EnqueueStep;
    InvWellFormed(cfg, w);
    if l.Work? && w.live && l.tp in w.workers && Busy(w.workers[l.tp].pc) {
      BusyTakesNothing(cfg, w, l, tp);
    } else if l.Work? || l.Enqueue? {
      IdleTakesNothing(cfg, w, l, tp);
    } else {
      OthersTakeNothing(cfg, w, l, tp);
    }
  }

  lemma IdleTakesNothing(cfg: Config, w: World, l: Label, tp: TP)
    requires WellFormed(w.sh.broker) && w.sh.cancelled && (l.Work? || l.Enqueue?)
    requires !(l.Work? && w.live && l.tp in w.workers && Busy(w.workers[l.tp].pc))
    ensures TakesNothing(w, Step(cfg, w, l), tp)
  {
    hide Step, WellFormed, WorkStep, EnqueueStep, MessageFromRecord;
    StepIs(cfg, w, l);
    if l.Work? {
      if WorkStep(cfg, w, l.tp, l.choice) != w { var wk := IdleShape(cfg, w, l.tp, l.choice); }
    } else if EnqueueStep(cfg, w, l.ordering) != w {
      var m, wk := EnqueueShape(cfg, w, l.ordering);
    }
  }

  lemma BusyTakesNothing(cfg: Config, w: World, l: Label, tp: TP)
    requires l.Work? && BusyMove(cfg, w, l.tp, l.choice) && Timing.Timed(cfg, w)
    ensures WellFormed(w.sh.broker) && TakesNothing(w, Step(cfg, w, l), tp)
  {
    hide Inv, Step, BusyStep, WellFormed, ApplyToHist, ApplyToCalls, ApplyToLife, Timing.Timed, Timing.PcTimed,
      Timing.CallsTimed;
    InvWellFormed(cfg, w);
    Timing.BusyOwnTimed(cfg, w, l.tp, l.choice);
    Timing.BusyIsStep(cfg, w, l);
  }

  lemma OthersTakeNothing(cfg: Config, w: World, l: Label, tp: TP)
    requires WellFormed(w.sh.broker) && !l.Work? && !l.Enqueue?
    ensures Step(cfg, w, l).workers == w.workers || Step(cfg, w, l).workers == map[]
  {
    hide WellFormed, PollTarget, OutsideEffect;
  }

  /** Once the context is done no worker takes a further message: what a worker has in hand later
      is what it had in hand then. */
  lemma {:induction false} CancelledTakesNothing(cfg: Config, labels: seq<Label>, more: seq<Label>, tp: TP)
    requires cfg.groupID != "" && Stands(Cancelled, Run(cfg, labels), tp) && NoStop(more)
    ensures TakesNothing(Run(cfg, labels), Run(cfg, labels + more), tp)
    decreases |more|
  {
    hide Inv, Run, Step, WellFormed, Timing.Timed, TakesNothing, Past, Writes;
    if more == [] {
      assert labels + more == labels;
      assert TakesNothing(Run(cfg, labels), Run(cfg, labels), tp) by { SameTaken(Run(cfg, labels), tp); }
    } else {
      var init, l := more[..|more| - 1], more[|more| - 1];
      assert forall k :: k in init ==> k in more;
      CancelledTakesNothing(cfg, labels, init, tp);
      BarrierEndsWrites(cfg, Cancelled, labels, init, tp);
      RunOn(cfg, labels, more);
      RunInv(cfg, labels + init);
      Timing.RunTimed(cfg, labels + init);
      StepTakesNothing(cfg, Run(cfg, labels + init), l, tp);
      TakenThrough(Run(cfg, labels), Run(cfg, labels + init), Run(cfg, labels + more), tp);
    }
  }

  lemma SameTaken(w: World, tp: TP)
    ensures TakesNothing(w, w, tp)
  {
  }

  lemma TakenThrough(a: World, b: World, c: World, tp: TP)
    requires TakesNothing(a, b, tp) && TakesNothing(b, c, tp)
    ensures TakesNothing(a, c, tp)
  {
  }

  // ---- the broker ----

  lemma ClosedRoute(cfg: Config, perKey: bool, sh: Shared, pc: PC, c: Choice)
    requires pc.RoutingOut? && WellFormed(sh.broker) && Unavailable(sh.broker)
    ensures RouteStep(cfg, perKey, sh, pc, c).sh.broker == sh.broker
    ensures !RouteStep(cfg, perKey, sh, pc, c).event.Routed?
  {
    hide Append, ApplyTxn, Destination, Lists, Log, WellFormed;
  }

  /** A worker's action on a closed broker, or on a fenced one. */
  lemma BusyOnClosed(cfg: Config, perKey: bool, sh: Shared, pc: PC, c: Choice)
    requires Busy(pc) && WellFormed(sh.broker) && Unavailable(sh.broker)
    ensures var e := BusyStep(cfg, perKey, sh, pc, c);
      && (sh.broker.closed ==> e.sh.broker == sh.broker)
      && e.sh.broker == sh.broker.(groups := e.sh.broker.groups) && !e.event.Routed?
  {
    hide HandlerStep, RouteStep, WellFormed, Raise;
    BusyIs(cfg, perKey, sh, pc, c);
    if pc.RoutingOut? {
      ClosedRoute(cfg, perKey, Later(sh, c), pc, c);
    } else if pc.Committing? {
      RaiseKeepsLogs(sh.broker, sh.sub.groupID, TPOf(pc.job), pc.job.offset + 1);
    } else {
      HandlerKeepsBroker(cfg, perKey, Later(sh, c), pc, c);
      HandlerRoutesNothing(cfg, perKey, Later(sh, c), pc, c);
    }
  }

  lemma HandlerRoutesNothing(cfg: Config, perKey: bool, sh: Shared, pc: PC, c: Choice)
    requires InHandlerPhase(pc)
    ensures !HandlerStep(cfg, perKey, sh, pc, c).event.Routed?
  {
    hide RetryMessage, AttachRetry, LookupOk, Claims.TryStartCall, RetriesInPlace;
  }

  lemma RaiseKeepsLogs(b: BrokerState, group: string, tp: TP, next: int)
    ensures Raise(b, group, tp, next) == b.(groups := Raise(b, group, tp, next).groups)
  {
  }

  lemma StepOnClosed(cfg: Config, w: World, l: Label)
    requires WellFormed(w.sh.broker) && w.sh.broker.closed
    ensures var b, b' := w.sh.broker, Step(cfg, w, l).sh.broker;
      b'.closed && b'.topics == b.topics && b'.groups == b.groups
  {
    hide Step, BusyStep, WorkStep, WellFormed, EnqueueStep, PollStep, AfterEffect;
    StepIs(cfg, w, l);
    if l.Work? {
      if w.live && l.tp in w.workers && Busy(w.workers[l.tp].pc) {
        BusyOnClosed(cfg, w.workers[l.tp].perKey, w.sh, w.workers[l.tp].pc, l.choice);
        BusyWork(cfg, w, l.tp, l.choice);
      } else {
        IdleWork(cfg, w, l.tp, l.choice);
      }
    } else if l.Poll? || l.Enqueue? || l.Stop? {
      DispatcherKeepsBroker(cfg, w, l);
    } else if l.Restart? {
      StopIs(cfg, w, l);
    }
  }

  /** A closed broker never changes again: no record, no topic and no offset, whatever its
      clients try, and however often the consumer is started again. */
  lemma {:induction false} ClosedIsFinal(cfg: Config, labels: seq<Label>, more: seq<Label>)
    requires Run(cfg, labels).sh.broker.closed
    ensures var b, b' := Run(cfg, labels).sh.broker, Run(cfg, labels + more).sh.broker;
      b'.closed && b'.topics == b.topics && b'.groups == b.groups
    decreases |more|
  {
    hide Run, Step, WellFormed;
    if more == [] {
      assert labels + more == labels;
    } else {
      var init := more[..|more| - 1];
      ClosedIsFinal(cfg, labels, init);
      RunOn(cfg, labels, more);
      StepOnClosed(cfg, Run(cfg, labels + init), more[|more| - 1]);
    }
  }

  predicate NoRelease(labels: seq<Label>) { forall l :: l in labels ==> !(l.SetFenced? && !l.fenced) }

  lemma StepOnFenced(cfg: Config, w: World, l: Label)
    requires WellFormed(w.sh.broker) && w.sh.broker.fenced && !(l.SetFenced? && !l.fenced)
    ensures var w' := Step(cfg, w, l);
      w'.sh.broker.fenced && w'.origin == w.origin && forall tp :: Log(w'.sh.broker, tp) == Log(w.sh.broker, tp)
  {
    hide Step, BusyStep, WorkStep, WellFormed, EnqueueStep, PollStep, ApplyToHist, ApplyToCalls, ApplyToLife,
      RestartStep, EnsureTopic, Raise, FlagStep;
    StepIs(cfg, w, l);
    if l.Work? {
      if w.live && l.tp in w.workers && Busy(w.workers[l.tp].pc) {
        BusyOnClosed(cfg, w.workers[l.tp].perKey, w.sh, w.workers[l.tp].pc, l.choice);
        Timing.BusyIsStep(cfg, w, l);
      } else {
        IdleOrigin(cfg, w, l.tp, l.choice);
      }
    } else if l.Poll? || l.Enqueue? || l.Stop? || l.Restart? {
      DispatchOrigin(cfg, w, l);
    } else if IsFlag(l) {
      FlagFenced(w, l);
    } else {
      OutsideFenced(cfg, w.sh.broker, l);
    }
    var w' := Step(cfg, w, l);
    assert w'.sh.broker.topics == w.sh.broker.topics ==> forall tp :: Log(w'.sh.broker, tp) == Log(w.sh.broker, tp);
  }

  lemma OutsideFenced(cfg: Config, b: BrokerState, l: Label)
    requires WellFormed(b) && b.fenced && IsOutside(l)
    ensures var b' := OutsideEffect(cfg, b, l); b'.fenced && forall tp :: Log(b', tp) == Log(b, tp)
  {
    hide EnsureTopic, Raise, Append;
    match l {
      case OutsidePublish(rec) =>
      case OutsideTopic(name, n) => EnsureTopicFacts(b, name, n);
      case OutsideCommit(g, tp, next) =>
        RaiseKeepsLogs(b, g, tp, next);
        assert forall q :: Log(Raise(b, g, tp, next), q) == Log(b, q);
    }
  }

  lemma FlagFenced(w: World, l: Label)
    requires IsFlag(l) && w.sh.broker.fenced && !(l.SetFenced? && !l.fenced)
    ensures var w' := FlagStep(w, l);
      w'.origin == w.origin && w'.sh.broker.fenced && w'.sh.broker.topics == w.sh.broker.topics
  {
  }

  lemma IdleOrigin(cfg: Config, w: World, tp: TP, c: Choice)
    requires WellFormed(w.sh.broker) && !(w.live && tp in w.workers && Busy(w.workers[tp].pc))
    ensures WorkStep(cfg, w, tp, c).origin == w.origin && WorkStep(cfg, w, tp, c).sh == w.sh
  {
    hide WellFormed, BusyStep, AfterEffect;
  }

  lemma DispatchOrigin(cfg: Config, w: World, l: Label)
    requires WellFormed(w.sh.broker) && (l.Poll? || l.Enqueue? || l.Stop? || l.Restart?)
    ensures var w' := Step(cfg, w, l);
      && w'.origin == w.origin && w'.sh.broker.topics == w.sh.broker.topics
      && w'.sh.broker.fenced == w.sh.broker.fenced
  {
    hide WellFormed, PollTarget, MessageFromRecord, OrderingOk;
  }

  /** While the broker is fenced nothing is appended to any log, by anybody, and nothing routed. */
  lemma {:induction false} FencedIsSilent(cfg: Config, labels: seq<Label>, more: seq<Label>)
    requires Run(cfg, labels).sh.broker.fenced && NoRelease(more)
    ensures var w, w' := Run(cfg, labels), Run(cfg, labels + more);
      w'.sh.broker.fenced && w'.origin == w.origin && forall tp :: Log(w'.sh.broker, tp) == Log(w.sh.broker, tp)
    decreases |more|
  {
    hide Run, Step, WellFormed, Log;
    if more == [] {
      assert labels + more == labels;
    } else {
      var init, l := more[..|more| - 1], more[|more| - 1];
      assert l in more && forall k :: k in init ==> k in more;
      FencedIsSilent(cfg, labels, init);
      RunOn(cfg, labels, more);
      StepOnFenced(cfg, Run(cfg, labels + init), l);
    }
  }
}
