/** The partition workers of a run: which loop each of them runs, how far a subscription reads
    ahead of them, and when they leave. */
module Workers {
  import opened Envelope
  import opened Config
  import opened Routing
  import opened Broker
  import opened Protocol
  import opened Safety
  import opened Runs
  import opened Exclusion
  import opened Strategy
  import Timing

  /** The worker's channel holds 32 messages at most, and it runs the per-key loop exactly when
      its topic's ordering says so. */
  ghost predicate WorkerFits(cfg: Config, tp: TP, wk: Worker) {
    |wk.queue| <= 32 && exists o :: OrderingOk(cfg, tp.topic, o) && (wk.perKey <==> o == OrderingPerKey)
  }

  ghost predicate AllFit(cfg: Config, w: World) { forall tp :: tp in w.workers ==> WorkerFits(cfg, tp, w.workers[tp]) }

  lemma EnqueueFits(cfg: Config, w: World, o: Ordering)
    requires AllFit(cfg, w)
    ensures AllFit(cfg, EnqueueStep(cfg, w, o))
  {
    hide OrderingOk, WorkerFits, EnqueueStep;
    var w' := EnqueueStep(cfg, w, o);
    if w' != w {
      var tp, wk := EnqueuedTo(cfg, w, o);
      if tp in w.workers { assert WorkerFits(cfg, tp, w.workers[tp]); }
      LoopFits(cfg, tp, WorkerOf(w, tp), wk, o, tp in w.workers);
      forall q | q in w'.workers ensures WorkerFits(cfg, q, w'.workers[q]) {
        if q != tp { assert WorkerFits(cfg, q, w.workers[q]); }
      }
    }
  }

  /** The send goes to a worker there is, if its channel has room, or to a new one. */
  lemma EnqueuedTo(cfg: Config, w: World, o: Ordering) returns (tp: TP, wk: Worker)
    requires EnqueueStep(cfg, w, o) != w
    ensures EnqueueStep(cfg, w, o).workers == w.workers[tp := wk]
    ensures if tp in w.workers then
        |w.workers[tp].queue| < 32 && |wk.queue| == |w.workers[tp].queue| + 1 && wk.perKey == w.workers[tp].perKey
      else |wk.queue| == 1 && OrderingOk(cfg, tp.topic, o) && wk.perKey == (o == OrderingPerKey)
  {
    hide MessageFromRecord, OrderingOk;
    tp := TPOf(MessageFromRecord(w.polled.value));
    wk := EnqueueStep(cfg, w, o).workers[tp];
  }

  lemma LoopFits(cfg: Config, tp: TP, before: Worker, wk: Worker, o: Ordering, old_: bool)
    requires if old_ then WorkerFits(cfg, tp, before) && wk.perKey == before.perKey && |wk.queue| <= 32
      else |wk.queue| == 1 && OrderingOk(cfg, tp.topic, o) && wk.perKey == (o == OrderingPerKey)
    ensures WorkerFits(cfg, tp, wk)
  {
    hide OrderingOk;
  }

  lemma SameLoops(cfg: Config, w: World, w': World)
    requires AllFit(cfg, w)
    requires forall tp :: tp in w'.workers ==>
      && tp in w.workers && |w'.workers[tp].queue| <= |w.workers[tp].queue|
      && w'.workers[tp].perKey == w.workers[tp].perKey
    ensures AllFit(cfg, w')
  {
    hide OrderingOk;
    forall tp | tp in w'.workers ensures WorkerFits(cfg, tp, w'.workers[tp]) {
      assert WorkerFits(cfg, tp, w.workers[tp]);
    }
  }

  lemma StepFits(cfg: Config, w: World, l: Label)
    requires WellFormed(w.sh.broker) && AllFit(cfg, w)
    ensures AllFit(cfg, Step(cfg, w, l))
  {
    hide Step, BusyStep, WorkStep, FlagStep, OutsideEffect, EnqueueStep, PollStep, WellFormed, WorkerFits, OrderingOk;
    var w' := Step(cfg, w, l);
    StepIs(cfg, w, l);
    if l.Enqueue? {
      EnqueueFits(cfg, w, l.ordering);
    } else {
      if l.Work? {
        WorkKeepsLoops(cfg, w, l.tp, l.choice);
      } else if l.Poll? {
        Timing.PollClock(w);
      } else if l.Stop? || l.Restart? {
        RestLoops(cfg, w, l);
      } else if IsFlag(l) {
        FlagMoves(cfg, w, l);
      }
      SameLoops(cfg, w, w');
    }
  }

  lemma WorkKeepsLoops(cfg: Config, w: World, tp: TP, c: Choice)
    requires WellFormed(w.sh.broker)
    ensures var w' := WorkStep(cfg, w, tp, c);
      forall q :: q in w'.workers ==>
        && q in w.workers && |w'.workers[q].queue| <= |w.workers[q].queue|
        && w'.workers[q].perKey == w.workers[q].perKey
  {
    hide WellFormed, BusyStep, ApplyToHist, ApplyToCalls, ApplyToLife;
  }

  lemma RestLoops(cfg: Config, w: World, l: Label)
    requires WellFormed(w.sh.broker) && (l.Stop? || l.Restart?)
    ensures Step(cfg, w, l).workers == if l.Stop? then map[] else w.workers
  {
    hide WellFormed, WithGroup, StopStep, RestartStep;
    assert StopStep(cfg, w).workers == map[] by { StoppedWorkers(cfg, w); }
    if l.Restart? { RestartedWorkers(cfg, w, l.topics); }
  }

  lemma StoppedWorkers(cfg: Config, w: World)
    ensures StopStep(cfg, w).workers == map[]
  {
  }

  lemma RestartedWorkers(cfg: Config, w: World, topics: seq<string>)
    ensures RestartStep(cfg, w, topics).workers == w.workers
  {
  }

  lemma {:induction false} RunFits(cfg: Config, labels: seq<Label>)
    ensures AllFit(cfg, Run(cfg, labels))
  {
    hide Step, Run, AllFit, WellFormed;
    if labels == [] {
      RunStart(cfg);
      StartFits(cfg);
    } else {
      var init := labels[..|labels| - 1];
      RunStep(cfg, labels);
      RunFits(cfg, init);
      StepFits(cfg, Run(cfg, init), labels[|labels| - 1]);
    }
  }

  lemma StartFits(cfg: Config)
    ensures AllFit(cfg, StartWorld(cfg))
  {
  }

  /** A worker leaves its channel for good only when the context is done or the dispatcher gone. */
  ghost predicate NoneLeft(w: World) {
    && (!w.live ==> w.workers == map[])
    && forall tp :: tp in w.workers && w.workers[tp].pc.Exited? ==> w.sh.cancelled || !w.polling
  }

  lemma BusyStays(cfg: Config, w: World, tp: TP, c: Choice)
    requires BusyMove(cfg, w, tp, c)
    ensures WellFormed(w.sh.broker)
    ensures var e := BusyStep(cfg, w.workers[tp].perKey, w.sh, w.workers[tp].pc, c);
      !e.pc.Exited? && e.sh.cancelled == w.sh.cancelled
  {
    hide HandlerStep, RouteStep, Inv, WellFormed, RoutingOk, SliceOf, Raise;
    InvWellFormed(cfg, w);
    BusyJob(cfg, w, tp, c);
    BusyFrame(cfg, w, tp, c);
    var wk, sh := w.workers[tp], Later(w.sh, c);
    if wk.pc.RoutingOut? {
      PartRouting(cfg, SliceOf(w, tp));
      RouteStays(cfg, wk.perKey, sh, wk.pc, c);
    } else if !wk.pc.Committing? {
      HandlerStepOutcome(cfg, wk.perKey, sh, wk.pc, c);
    }
  }

  lemma RouteStays(cfg: Config, perKey: bool, sh: Shared, pc: PC, c: Choice)
    requires pc.RoutingOut? && WellFormed(sh.broker)
    ensures !RouteStep(cfg, perKey, sh, pc, c).pc.Exited?
  {
    hide Append, ApplyTxn, Destination, Lists, Log, WellFormed, Assigned;
  }

  lemma StepLeavesNone(cfg: Config, w: World, l: Label)
    requires Inv(cfg, w) && cfg.groupID != "" && NoneLeft(w)
    ensures WellFormed(w.sh.broker) && NoneLeft(Step(cfg, w, l))
  {
    hide Inv, Step, BusyStep, WorkStep, FlagStep, OutsideEffect, EnqueueStep, WellFormed;
    InvWellFormed(cfg, w);
    StepIs(cfg, w, l);
    if l.Work? {
      WorkLeavesNone(cfg, w, l.tp, l.choice);
    } else if l.Enqueue? {
      EnqueueLeavesNone(cfg, w, l.ordering);
    } else if IsFlag(l) {
      FlagLeavesNone(w, l);
    } else if !IsOutside(l) {
      RestLeavesNone(cfg, w, l);
    }
  }

  lemma WorkLeavesNone(cfg: Config, w: World, tp: TP, c: Choice)
    requires Inv(cfg, w) && cfg.groupID != "" && NoneLeft(w)
    ensures WellFormed(w.sh.broker) && NoneLeft(WorkStep(cfg, w, tp, c))
  {
    hide Inv, BusyStep, WellFormed, ApplyToHist, ApplyToCalls, ApplyToLife;
    InvWellFormed(cfg, w);
    if w.live && tp in w.workers && Busy(w.workers[tp].pc) { BusyStays(cfg, w, tp, c); }
  }

  lemma EnqueueLeavesNone(cfg: Config, w: World, o: Ordering)
    requires NoneLeft(w)
    ensures NoneLeft(EnqueueStep(cfg, w, o))
  {
    hide MessageFromRecord, OrderingOk;
  }

  lemma FlagLeavesNone(w: World, l: Label)
    requires NoneLeft(w) && IsFlag(l)
    ensures NoneLeft(FlagStep(w, l))
  {
  }

  lemma RestLeavesNone(cfg: Config, w: World, l: Label)
    requires WellFormed(w.sh.broker) && NoneLeft(w) && (l.Poll? || l.Stop? || l.Restart?)
    ensures NoneLeft(Step(cfg, w, l))
  {
    hide WellFormed, PollTarget, WithGroup;
  }

  lemma {:induction false} RunLeavesNone(cfg: Config, labels: seq<Label>)
    requires cfg.groupID != ""
    ensures NoneLeft(Run(cfg, labels))
  {
    hide Step, Run, NoneLeft, WellFormed, Inv;
    if labels == [] {
      RunStart(cfg);
      assert NoneLeft(StartWorld(cfg)) by { StartLeavesNone(cfg); }
    } else {
      var init := labels[..|labels| - 1];
      RunStep(cfg, labels);
      RunInv(cfg, init);
      RunLeavesNone(cfg, init);
      StepLeavesNone(cfg, Run(cfg, init), labels[|labels| - 1]);
    }
  }

  lemma StartLeavesNone(cfg: Config)
    ensures NoneLeft(StartWorld(cfg))
  {
  }

  /** In every run: a handler's topic is worked by the per-key loop exactly when the handler's
      ordering is per key, any other topic as some order of the handlers says; a channel never
      holds more than 32 messages; a subscription never reads more than 34 records past the start
      of its worker's job, as the dispatcher holds one; and a worker stays until the context is
      done or the dispatcher gone. */
  lemma WorkersFitTheirTopics(cfg: Config, labels: seq<Label>, tp: TP)
    requires cfg.groupID != "" && tp in Run(cfg, labels).workers
    ensures var w := Run(cfg, labels); var wk := w.workers[tp];
      && (exists o :: OrderingOk(cfg, tp.topic, o) && (wk.perKey <==> o == OrderingPerKey))
      && (tp.topic in cfg.handlers ==> (wk.perKey <==> SettingsOf(cfg, tp.topic).ordering == OrderingPerKey))
      && |wk.queue| <= 32 && tp in w.sh.sub.fetch
      && (Busy(wk.pc) ==> wk.pc.job.offset < w.sh.sub.fetch[tp] <= wk.pc.job.offset + 34)
      && (wk.pc.Exited? ==> w.sh.cancelled || !w.polling)
  {
    hide Run, MessageFromRecord, LookupOk, WellFormed;
    RunFits(cfg, labels);
    RunInv(cfg, labels);
    RunLeavesNone(cfg, labels);
    var w := Run(cfg, labels);
    assert WorkerFits(cfg, tp, w.workers[tp]);
    WorkerIsFetched(cfg, w, tp);
    if Busy(w.workers[tp].pc) { JobAhead(cfg, w, tp); }
  }

  lemma JobAhead(cfg: Config, w: World, tp: TP)
    requires Inv(cfg, w) && tp in w.workers && Busy(w.workers[tp].pc)
    ensures var s := SliceOf(w, tp);
      s.fetched.Some? && w.workers[tp].pc.job.offset == QueueBase(s) - 1 && s.wk == w.workers[tp]
  {
    hide OriginSound, OriginComplete, OriginInjective, NothingLost, Justified, RoutingOk, LifeBehind, DrainOk,
      RoutedBelowCommitted;
    assert PartInv(cfg, SliceOf(w, tp));
    assert LogOk(Log(w.sh.broker, tp), tp);
    JobOffset(SliceOf(w, tp), tp);
  }
}
