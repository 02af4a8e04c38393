/** txnMu and the workers around one another: at most one worker is ever inside a
    transaction, the lock is never left behind, and everything another part of the system
    can do between two actions of a worker is what Consumer's worker is verified against. */
module Exclusion {
  import opened Envelope
  import opened Config
  import opened Routing
  import opened Broker
  import opened Protocol
  import opened Safety
  import opened Runs
  import opened Actions

  predicate Holds(w: World, tp: TP) { tp in w.workers && HoldsLock(w.workers[tp].pc) }

  /** The lock is taken exactly while some worker is in a transaction, and then by that one alone. */
  ghost predicate OneHolder(w: World) {
    && (w.sh.txnHeld <==> exists tp :: Holds(w, tp))
    && (forall p, q :: Holds(w, p) && Holds(w, q) ==> p == q)
  }

  /** How an action moves the lock. */
  predicate LockMove(sh: Shared, pc: PC, e: Effect) {
    if HoldsLock(e.pc) == HoldsLock(pc) then e.sh.txnHeld == sh.txnHeld
    else if HoldsLock(e.pc) then !sh.txnHeld && e.sh.txnHeld
    else !e.sh.txnHeld
  }

  lemma RouteLock(cfg: Config, perKey: bool, sh: Shared, pc: PC, c: Choice)
    requires pc.RoutingOut? && WellFormed(sh.broker)
    ensures LockMove(sh, pc, RouteStep(cfg, perKey, sh, pc, c))
  {
    hide Append, ApplyTxn, Destination, Lists, Log, WellFormed, Assigned;
  }

  lemma HandlerLock(cfg: Config, perKey: bool, sh: Shared, pc: PC, c: Choice)
    requires InHandlerPhase(pc)
    ensures LockMove(sh, pc, HandlerStep(cfg, perKey, sh, pc, c))
  {
    hide RetryMessage, AttachRetry, LookupOk, Claims.TryStartCall, RetriesInPlace;
  }

  lemma BusyLock(cfg: Config, perKey: bool, sh: Shared, pc: PC, c: Choice)
    requires Busy(pc) && WellFormed(sh.broker)
    ensures LockMove(sh, pc, BusyStep(cfg, perKey, sh, pc, c))
  {
    hide RouteStep, HandlerStep, WellFormed, Raise;
    if pc.RoutingOut? {
      RouteLock(cfg, perKey, Later(sh, c), pc, c);
    } else if !pc.Committing? {
      HandlerLock(cfg, perKey, Later(sh, c), pc, c);
    }
  }

  lemma BusyHolder(cfg: Config, w: World, tp: TP, c: Choice)
    requires OneHolder(w) && WellFormed(w.sh.broker) && tp in w.workers && Busy(w.workers[tp].pc)
    ensures var wk := w.workers[tp]; OneHolder(AfterEffect(w, tp, wk, BusyStep(cfg, wk.perKey, w.sh, wk.pc, c)))
  {
    hide BusyStep, WellFormed, HoldsLock, ApplyToHist, ApplyToCalls;
    var wk := w.workers[tp];
    var e := BusyStep(cfg, wk.perKey, w.sh, wk.pc, c);
    BusyLock(cfg, wk.perKey, w.sh, wk.pc, c);
    var w' := AfterEffect(w, tp, wk, e);
    assert forall q :: Holds(w', q) <==> if q == tp then HoldsLock(e.pc) else Holds(w, q);
    assert Holds(w, tp) == HoldsLock(wk.pc);
    HolderMoves(w, w', tp);
  }

  /** One worker moves and the lock moves with it. */
  lemma HolderMoves(w: World, w': World, tp: TP)
    requires OneHolder(w)
    requires forall q :: q != tp ==> Holds(w', q) == Holds(w, q)
    requires if Holds(w', tp) == Holds(w, tp) then w'.sh.txnHeld == w.sh.txnHeld
      else if Holds(w', tp) then !w.sh.txnHeld && w'.sh.txnHeld
      else !w'.sh.txnHeld
    ensures OneHolder(w')
  {
    hide Holds;
    if w'.sh.txnHeld && !Holds(w', tp) {
      var q :| Holds(w, q);
      assert Holds(w', q);
    }
    forall q | Holds(w', q) ensures w'.sh.txnHeld {
      assert q != tp ==> Holds(w, q);
    }
  }

  /** Nobody takes or leaves the lock. */
  lemma SameHolders(w: World, w': World)
    requires OneHolder(w) && w'.sh.txnHeld == w.sh.txnHeld && forall q :: Holds(w', q) == Holds(w, q)
    ensures OneHolder(w')
  {
    if w.sh.txnHeld {
      var q :| Holds(w, q);
      assert Holds(w', q);
    }
  }

  lemma StepHolder(cfg: Config, w: World, l: Label)
    requires OneHolder(w) && WellFormed(w.sh.broker) && (!w.live ==> w.workers == map[])
    ensures OneHolder(Step(cfg, w, l))
  {
    hide WellFormed, Step, AfterEffect, BusyStep, OneHolder, HoldsLock;
    if l.Work? && w.live && l.tp in w.workers && Busy(w.workers[l.tp].pc) {
      BusyHolder(cfg, w, l.tp, l.choice);
      StepIs(cfg, w, l);
    } else if l.Stop? || l.Restart? {
      NoneHolds(cfg, w, l);
    } else {
      QuietLock(cfg, w, l);
      SameHolders(w, Step(cfg, w, l));
    }
  }

  lemma NoneHolds(cfg: Config, w: World, l: Label)
    requires OneHolder(w) && WellFormed(w.sh.broker) && (!w.live ==> w.workers == map[])
    requires l.Stop? || l.Restart?
    ensures OneHolder(Step(cfg, w, l))
  {
    hide HoldsLock, WellFormed, WithGroup;
  }

  lemma StepIs(cfg: Config, w: World, l: Label)
    requires WellFormed(w.sh.broker)
    ensures IsOutside(l) ==> Step(cfg, w, l) == w.(sh := w.sh.(broker := OutsideEffect(cfg, w.sh.broker, l)))
    ensures IsFlag(l) ==> Step(cfg, w, l) == FlagStep(w, l)
    ensures l.Work? ==> Step(cfg, w, l) == WorkStep(cfg, w, l.tp, l.choice)
    ensures l.Enqueue? ==> Step(cfg, w, l) == EnqueueStep(cfg, w, l.ordering)
    ensures l.Poll? ==> Step(cfg, w, l) == PollStep(w)
  {
    hide WellFormed, OutsideEffect, FlagStep, WorkStep, EnqueueStep, PollStep, StopStep, RestartStep;
  }

  /** Worker moves of an idle worker, and moves of everybody else, have nothing to do with the lock. */
  ghost predicate Quiet(w: World, w': World) {
    w'.sh.txnHeld == w.sh.txnHeld && forall q :: Holds(w', q) == Holds(w, q)
  }

  lemma QuietWork(cfg: Config, w: World, tp: TP, c: Choice)
    requires WellFormed(w.sh.broker) && !(w.live && tp in w.workers && Busy(w.workers[tp].pc))
    ensures Quiet(w, WorkStep(cfg, w, tp, c))
  {
    hide WellFormed, BusyStep, AfterEffect;
  }

  lemma QuietEnqueue(cfg: Config, w: World, o: Ordering)
    ensures Quiet(w, EnqueueStep(cfg, w, o))
  {
    hide EnqueueStep, HoldsLock, MessageFromRecord, TPOf;
    if EnqueueStep(cfg, w, o) != w {
      var m, wk := EnqueueShape(cfg, w, o);
      assert WorkerOf(w, TPOf(m)).pc == wk.pc;
      assert !HoldsLock(NO_WORKER.pc) by { NoWorkerIdle(); }
    }
  }

  lemma NoWorkerIdle()
    ensures !HoldsLock(NO_WORKER.pc)
  {
  }

  lemma QuietLock(cfg: Config, w: World, l: Label)
    requires WellFormed(w.sh.broker) && !l.Stop? && !l.Restart?
    requires !(l.Work? && w.live && l.tp in w.workers && Busy(w.workers[l.tp].pc))
    ensures Quiet(w, Step(cfg, w, l))
  {
    hide WellFormed, Step, PollStep, FlagStep, OutsideEffect, WorkStep, EnqueueStep, Quiet;
    StepIs(cfg, w, l);
    if l.Work? {
      QuietWork(cfg, w, l.tp, l.choice);
    } else if l.Enqueue? {
      QuietEnqueue(cfg, w, l.ordering);
    } else {
      QuietFlags(cfg, w, l);
    }
  }

  lemma QuietFlags(cfg: Config, w: World, l: Label)
    requires WellFormed(w.sh.broker)
    ensures Quiet(w, PollStep(w)) && (IsFlag(l) ==> Quiet(w, FlagStep(w, l)))
    ensures IsOutside(l) ==> Quiet(w, w.(sh := w.sh.(broker := OutsideEffect(cfg, w.sh.broker, l))))
  {
    hide WellFormed, OutsideEffect, PollTarget, HoldsLock;
  }

  /** Over every run, at most one worker is inside a transaction, and the lock is free
      whenever none is. */
  lemma {:induction false} TransactionsExclusive(cfg: Config, labels: seq<Label>)
    requires cfg.groupID != ""
    ensures OneHolder(Run(cfg, labels))
  {
    hide OneHolder, Step, Inv, Run;
    if labels == [] {
      RunStart(cfg);
      NobodyStarts(cfg);
    } else {
      RunStep(cfg, labels);
      var init := labels[..|labels| - 1];
      TransactionsExclusive(cfg, init);
      RunInv(cfg, init);
      RestsWhenDead(cfg, Run(cfg, init));
      StepHolder(cfg, Run(cfg, init), labels[|labels| - 1]);
    }
  }

  lemma NobodyStarts(cfg: Config)
    ensures OneHolder(StartWorld(cfg))
  {
  }

  lemma RestsWhenDead(cfg: Config, w: World)
    requires Inv(cfg, w)
    ensures !w.live ==> w.workers == map[]
  {
  }

  // ---- what a worker must put up with ----

  /** Flags of the subscription and the lock, apart from the broker. */
  ghost predicate FlagsRise(holds: bool, a: Shared, b: Shared) {
    && (a.cancelled ==> b.cancelled)
    && b.sub.groupID == a.sub.groupID && b.sub.topics == a.sub.topics && b.sub.isolation == a.sub.isolation
    && a.sub.revoked <= b.sub.revoked && (a.sub.closed ==> b.sub.closed)
    && (holds ==> b.txnHeld == a.txnHeld) && a.clock <= b.clock
  }

  lemma FlagsAndOutsideRise(cfg: Config, w: World, l: Label, holds: bool)
    requires WellFormed(w.sh.broker) && (IsFlag(l) || IsOutside(l))
    ensures FlagsRise(holds, w.sh, Step(cfg, w, l).sh)
  {
    hide WellFormed, OutsideEffect, Step, FlagStep;
    StepIs(cfg, w, l);
    if IsFlag(l) { FlagStepRises(w, l, holds); }
  }

  lemma FlagStepRises(w: World, l: Label, holds: bool)
    requires IsFlag(l)
    ensures FlagsRise(holds, w.sh, FlagStep(w, l).sh)
  {
  }

  lemma EnvironmentInterferes(cfg: Config, w: World, l: Label, tp: TP)
    requires WellFormed(w.sh.broker) && (IsFlag(l) || IsOutside(l))
    ensures Interferes(cfg.groupID, tp, HoldsLock(WorkerOf(w, tp).pc), w.sh, Step(cfg, w, l).sh)
  {
    hide WellFormed, Step, LogsGrow, GroupOffset, HoldsLock;
    FlagsAndOutsideRise(cfg, w, l, HoldsLock(WorkerOf(w, tp).pc));
    if IsOutside(l) { OutsideMoves(cfg, w, l); } else { FlagMoves(cfg, w, l); StepIs(cfg, w, l); }
  }

  lemma DispatcherInterferes(cfg: Config, w: World, l: Label, tp: TP)
    requires WellFormed(w.sh.broker) && (l.Poll? || l.Enqueue?)
    ensures Interferes(cfg.groupID, tp, HoldsLock(WorkerOf(w, tp).pc), w.sh, Step(cfg, w, l).sh)
  {
    hide WellFormed, Step, GroupOffset, HoldsLock, PollTarget, OrderingOk, MessageFromRecord;
    StepIs(cfg, w, l);
  }

  lemma WorkerInterferes(cfg: Config, w: World, q: TP, c: Choice, tp: TP)
    requires BusyMove(cfg, w, q, c) && OneHolder(w) && q != tp && tp in w.workers
    ensures var wk := w.workers[q];
      Interferes(cfg.groupID, tp, HoldsLock(WorkerOf(w, tp).pc), w.sh, BusyStep(cfg, wk.perKey, w.sh, wk.pc, c).sh)
  {
    hide Inv, BusyStep, WellFormed, LogsGrow, GroupOffset, HoldsLock;
    BusyFrame(cfg, w, q, c);
    InvWellFormed(cfg, w);
    var wk := w.workers[q];
    BusyLock(cfg, wk.perKey, w.sh, wk.pc, c);
    if HoldsLock(w.workers[tp].pc) {
      assert Holds(w, tp) && w.sh.txnHeld;
      assert !Holds(w, q);
    }
  }

  /** In every world of every run, whatever any other part of the system does next is
      interference the worker of `tp` is built for: no worker relies on more than the others keep. */
  lemma OthersInterfere(cfg: Config, labels: seq<Label>, l: Label, tp: TP)
    requires cfg.groupID != "" && tp in Run(cfg, labels).workers
    requires !l.Stop? && !(l.Work? && l.tp == tp)
    ensures var w := Run(cfg, labels);
      WellFormed(w.sh.broker) && Interferes(cfg.groupID, tp, HoldsLock(WorkerOf(w, tp).pc), w.sh, Step(cfg, w, l).sh)
  {
    hide Inv, Step, WellFormed, Interferes, HoldsLock, OneHolder, BusyStep, WorkStep, AfterEffect, RestartStep, Run;
    var w := Run(cfg, labels);
    RunInv(cfg, labels);
    InvWellFormed(cfg, w);
    TransactionsExclusive(cfg, labels);
    if IsFlag(l) || IsOutside(l) {
      EnvironmentInterferes(cfg, w, l, tp);
    } else if l.Poll? || l.Enqueue? {
      DispatcherInterferes(cfg, w, l, tp);
    } else if l.Restart? {
      LiveWorkers(cfg, w, tp);
      RestartKeepsLive(cfg, w, l);
      InterferesReflexive(cfg.groupID, tp, HoldsLock(WorkerOf(w, tp).pc), w.sh);
    } else {
      StepIs(cfg, w, l);
      if w.live && l.tp in w.workers && Busy(w.workers[l.tp].pc) {
        WorkerInterferes(cfg, w, l.tp, l.choice, tp);
        BusyWork(cfg, w, l.tp, l.choice);
      } else {
        IdleWork(cfg, w, l.tp, l.choice);
        InterferesReflexive(cfg.groupID, tp, HoldsLock(WorkerOf(w, tp).pc), w.sh);
      }
    }
  }

  lemma LiveWorkers(cfg: Config, w: World, tp: TP)
    requires Inv(cfg, w) && tp in w.workers
    ensures w.live
  {
  }

  lemma RestartKeepsLive(cfg: Config, w: World, l: Label)
    requires WellFormed(w.sh.broker) && l.Restart? && w.live
    ensures Step(cfg, w, l) == w
  {
    hide WellFormed;
  }

  lemma BusyWork(cfg: Config, w: World, q: TP, c: Choice)
    requires WellFormed(w.sh.broker) && w.live && q in w.workers && Busy(w.workers[q].pc)
    ensures WorkStep(cfg, w, q, c).sh == BusyStep(cfg, w.workers[q].perKey, w.sh, w.workers[q].pc, c).sh
  {
    hide WellFormed, BusyStep, ApplyToHist, ApplyToCalls;
  }

  lemma IdleWork(cfg: Config, w: World, q: TP, c: Choice)
    requires WellFormed(w.sh.broker) && !(w.live && q in w.workers && Busy(w.workers[q].pc))
    ensures WorkStep(cfg, w, q, c).sh == w.sh
  {
    hide WellFormed, BusyStep, AfterEffect;
  }
}
