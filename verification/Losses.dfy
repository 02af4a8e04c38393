/** When a committed offset is lost: the very commits that lose one, and what the per-key
    loop's extra commit has to do with it. */
module Losses {
  import opened Wrappers
  import opened Envelope
  import opened Config
  import opened Routing
  import opened Broker
  import opened Protocol
  import opened Safety
  import opened Runs
  import opened Exclusion
  import opened Guarantees

  /** The group has gone past the offset, and nothing accounts for it. */
  ghost predicate Lost(cfg: Config, w: World, tp: TP, o: int) {
    0 <= o < Committed(cfg, w, tp) && !Accounted(cfg, w, tp, o)
  }

  predicate Acts(w: World, l: Label, tp: TP) {
    l.Work? && l.tp == tp && w.live && tp in w.workers && Busy(w.workers[tp].pc)
  }

  /** The worker's next action raises the group's offset past its job, unless it is there already. */
  predicate Commits(w: World, l: Label, tp: TP) {
    && Acts(w, l, tp)
    && var pc := w.workers[tp].pc;
      || (pc.Committing? && pc.commitStage.ApplyOffset? && !w.sh.broker.closed)
      || (pc.RoutingOut? && pc.stage.CommitApply? && !Unavailable(w.sh.broker))
  }

  /** The broker refuses the worker's route because it is fenced. */
  predicate Refuses(w: World, l: Label, tp: TP, o: int) {
    && Acts(w, l, tp) && w.sh.broker.fenced && !w.sh.broker.closed
    && var pc := w.workers[tp].pc;
      && pc.RoutingOut? && pc.job.offset == o
      && (pc.stage.PublishApply? || pc.stage.BeginApply? || pc.stage.CommitApply?)
  }

  ghost predicate HasHandler(cfg: Config, w: World, tp: TP, o: int) {
    InLog(w.sh.broker, Pos(tp, o)) && !LookupOk(cfg, MessageFromRecord(RecordAt(w.sh.broker, Pos(tp, o))), None)
  }

  /** A commit past an offset whose route was refused in this very subscription, which no
      subscription ever decided, and whose message has a handler. */
  ghost predicate Loses(cfg: Config, w: World, l: Label, tp: TP, o: int) {
    && Commits(w, l, tp) && Committed(cfg, w, tp) <= o <= w.workers[tp].pc.job.offset
    && o in LifeOf(w, tp).refused && o !in HistOf(w, tp).Decided() && HasHandler(cfg, w, tp, o)
  }

  // ---- one step ----

  lemma RouteRaises(cfg: Config, perKey: bool, sh: Shared, pc: PC, c: Choice)
    requires pc.RoutingOut? && RoutingOk(cfg, pc) && WellFormed(sh.broker) && cfg.groupID != ""
    ensures var e := RouteStep(cfg, perKey, sh, pc, c); var tp := TPOf(pc.job);
      GroupOffset(e.sh.broker, cfg.groupID, tp) ==
        if pc.stage.CommitApply? && !Unavailable(sh.broker)
           && pc.job.offset + 1 > GroupOffset(sh.broker, cfg.groupID, tp)
        then pc.job.offset + 1 else GroupOffset(sh.broker, cfg.groupID, tp)
  {
    hide RouteStep, RoutingOk, WellFormed, Log;
    RouteStepOutcome(cfg, perKey, sh, pc, c);
    RouteDecides(cfg, perKey, sh, pc, c);
  }

  lemma RouteDecides(cfg: Config, perKey: bool, sh: Shared, pc: PC, c: Choice)
    requires pc.RoutingOut? && WellFormed(sh.broker)
    ensures var e := RouteStep(cfg, perKey, sh, pc, c);
      && (pc.stage.CommitApply? ==> (e.event.Routed? <==> !Unavailable(sh.broker)))
      && (e.event.FenceRefused? <==>
            && sh.broker.fenced && !sh.broker.closed
            && (pc.stage.PublishApply? || pc.stage.BeginApply? || pc.stage.CommitApply?))
  {
    hide Append, ApplyTxn, Destination, Lists, Log, WellFormed, Assigned;
  }

  lemma CommitRaises(cfg: Config, perKey: bool, sh: Shared, pc: PC)
    requires pc.Committing? && WellFormed(sh.broker)
    ensures var e := CommitStep(cfg, perKey, sh, pc); var tp := TPOf(pc.job); var g := sh.sub.groupID;
      GroupOffset(e.sh.broker, g, tp) ==
        if pc.commitStage.ApplyOffset? && !sh.broker.closed && pc.job.offset + 1 > GroupOffset(sh.broker, g, tp)
        then pc.job.offset + 1 else GroupOffset(sh.broker, g, tp)
  {
    hide Raise, WellFormed;
    RaiseFacts(sh.broker, sh.sub.groupID, TPOf(pc.job), pc.job.offset + 1);
  }

  /** The worker's own offset after its action. */
  lemma ActionRaises(cfg: Config, w: World, l: Label, tp: TP)
    requires Inv(cfg, w) && cfg.groupID != "" && Acts(w, l, tp)
    ensures WellFormed(w.sh.broker)
    ensures var job := w.workers[tp].pc.job.offset;
      Committed(cfg, Step(cfg, w, l), tp) ==
        if Commits(w, l, tp) && job + 1 > Committed(cfg, w, tp) then job + 1 else Committed(cfg, w, tp)
  {
    hide HandlerStep, RouteStep, CommitStep, PartInv, RoutingOk, OriginSound, OriginComplete, OriginInjective, SliceOf,
      WellFormed,
      WorkStep, Step, GroupOffset, BusyStep, HandlerOutcome;
    var wk, c, sh := w.workers[tp], l.choice, Later(w.sh, l.choice);
    BusyJob(cfg, w, tp, c);
    StepIs(cfg, w, l);
    BusyWork(cfg, w, tp, c);
    BusyIs(cfg, wk.perKey, w.sh, wk.pc, c);
    if wk.pc.RoutingOut? {
      PartRouting(cfg, SliceOf(w, tp));
      RouteRaises(cfg, wk.perKey, sh, wk.pc, c);
    } else if wk.pc.Committing? {
      CommitRaises(cfg, wk.perKey, sh, wk.pc);
    } else {
      HandlerStepOutcome(cfg, wk.perKey, sh, wk.pc, c);
      HandlerSameBroker(cfg, wk.perKey, sh, wk.pc, HandlerStep(cfg, wk.perKey, sh, wk.pc, c));
    }
  }

  lemma BusyIs(cfg: Config, perKey: bool, sh: Shared, pc: PC, c: Choice)
    requires Busy(pc) && WellFormed(sh.broker)
    ensures pc.RoutingOut? ==> BusyStep(cfg, perKey, sh, pc, c) == RouteStep(cfg, perKey, Later(sh, c), pc, c)
    ensures pc.Committing? ==> BusyStep(cfg, perKey, sh, pc, c) == CommitStep(cfg, perKey, Later(sh, c), pc)
    ensures InHandlerPhase(pc) ==> BusyStep(cfg, perKey, sh, pc, c) == HandlerStep(cfg, perKey, Later(sh, c), pc, c)
    ensures pc.RoutingOut? || pc.Committing? || InHandlerPhase(pc)
  {
    hide RouteStep, CommitStep, HandlerStep;
  }

  /** What an action decides is its own job, and the group is not past that yet. */
  lemma ActionDecides(cfg: Config, w: World, l: Label, tp: TP)
    requires Inv(cfg, w) && cfg.groupID != "" && Acts(w, l, tp)
    ensures WellFormed(w.sh.broker)
    ensures var job := w.workers[tp].pc.job.offset;
      var h, h' := HistOf(w, tp).Decided(), HistOf(Step(cfg, w, l), tp).Decided();
      h' == h || (h' == h + {job} && Committed(cfg, w, tp) <= job && !w.workers[tp].pc.Committing?)
    ensures var w' := Step(cfg, w, l);
      var job := w.workers[tp].pc.job.offset;
      LifeOf(w', tp).refused == LifeOf(w, tp).refused + (if Refuses(w, l, tp, job) then {job} else {})
  {
    hide HandlerStep, RouteStep, CommitStep, RoutingOk, OriginSound, OriginComplete, OriginInjective, WellFormed,
      BusyStep, Step,
      LookupOk, NothingLost, Justified, CallsBehind, LifeBehind, DrainOk, RoutedBelowCommitted, MessageFromRecord;
    var wk, c, sh := w.workers[tp], l.choice, Later(w.sh, l.choice);
    BusyJob(cfg, w, tp, c);
    StepIs(cfg, w, l);
    BusyIs(cfg, wk.perKey, w.sh, wk.pc, c);
    var e := BusyStep(cfg, wk.perKey, w.sh, wk.pc, c);
    HistGrows(HistOf(w, tp), e.event, wk.pc.job.offset);
    assert e.event.FenceRefused? <==> Refuses(w, l, tp, wk.pc.job.offset) by {
      if wk.pc.RoutingOut? {
        RouteDecides(cfg, wk.perKey, sh, wk.pc, c);
      } else if wk.pc.Committing? {
        CommitStepOutcome(cfg, wk.perKey, sh, wk.pc);
      } else {
        HandlerStepOutcome(cfg, wk.perKey, sh, wk.pc, c);
      }
    }
    if wk.pc.Committing? { CommitStepOutcome(cfg, wk.perKey, sh, wk.pc); }
  }

  /** Whatever else happens moves neither the group's offset nor the history of the partition. */
  lemma QuietStays(cfg: Config, w: World, l: Label, tp: TP)
    requires Inv(cfg, w) && cfg.groupID != "" && !Acts(w, l, tp)
    ensures WellFormed(w.sh.broker)
    ensures var w' := Step(cfg, w, l);
      && Committed(cfg, w', tp) == Committed(cfg, w, tp) && HistOf(w', tp) == HistOf(w, tp)
      && LifeOf(w', tp) == if l.Stop? then NO_LIFE else LifeOf(w, tp)
  {
    hide PartInv, Step, BusyStep, WorkStep, PollStep, EnqueueStep, FlagStep, StopStep, RestartStep, WellFormed, SliceOf,
      GroupOffset,
      OriginSound, OriginComplete, OriginInjective, LogsGrow;
    StepIs(cfg, w, l);
    var w' := Step(cfg, w, l);
    if IsOutside(l) {
      OutsideMoves(cfg, w, l);
    } else if IsFlag(l) {
      FlagMoves(cfg, w, l);
    } else {
      match l {
        case Poll => if w' != w { PollSlices(w, tp); }
        case Enqueue(o) =>
          if w' != w {
            var m, wk := EnqueueShape(cfg, w, o);
            EnqueueSlices(w, w', m, wk, tp);
          }
        case Work(q, c) =>
          if w.live && q in w.workers && Busy(w.workers[q].pc) {
            OtherActs(cfg, w, l, tp);
          } else {
            IdleStays(cfg, w, q, c);
          }
        case Stop => StopIs(cfg, w, l); StopRests(cfg, w);
        case Restart(topics) =>
          StopIs(cfg, w, l);
          if w' != w { RestartRests(cfg, w, topics); }
      }
    }
  }

  lemma StopIs(cfg: Config, w: World, l: Label)
    requires WellFormed(w.sh.broker)
    ensures l.Stop? ==> Step(cfg, w, l) == StopStep(cfg, w) && StopStep(cfg, w).life == map[]
    ensures l.Restart? ==>
      Step(cfg, w, l) == RestartStep(cfg, w, l.topics) && RestartStep(cfg, w, l.topics).life == w.life
  {
    hide WellFormed, WithGroup;
  }

  lemma IdleStays(cfg: Config, w: World, q: TP, c: Choice)
    requires WellFormed(w.sh.broker) && !(w.live && q in w.workers && Busy(w.workers[q].pc))
    ensures var w' := WorkStep(cfg, w, q, c); w'.sh == w.sh && w'.hist == w.hist && w'.life == w.life
  {
    hide WellFormed, BusyStep, AfterEffect;
  }

  lemma OtherActs(cfg: Config, w: World, l: Label, tp: TP)
    requires Inv(cfg, w) && cfg.groupID != "" && l.Work? && l.tp != tp && Acts(w, l, l.tp)
    ensures WellFormed(w.sh.broker)
    ensures var w' := Step(cfg, w, l);
      && Committed(cfg, w', tp) == Committed(cfg, w, tp) && HistOf(w', tp) == HistOf(w, tp)
      && LifeOf(w', tp) == LifeOf(w, tp)
  {
    hide Inv, Step, BusyStep, WellFormed, GroupOffset, LogsGrow, ApplyToHist, ApplyToCalls, ApplyToLife;
    InvWellFormed(cfg, w);
    StepIs(cfg, w, l);
    BusyFrame(cfg, w, l.tp, l.choice);
  }

  /** A commit takes effect only where the invariant's excuses for giving up no longer apply. */
  lemma CommitCovers(cfg: Config, w: World, l: Label, tp: TP, o: int)
    requires Inv(cfg, w) && Commits(w, l, tp) && Committed(cfg, w, tp) <= o <= w.workers[tp].pc.job.offset
    ensures InLog(w.sh.broker, Pos(tp, o))
    ensures o in HistOf(w, tp).Decided() || o in LifeOf(w, tp).refused
      || (o == w.workers[tp].pc.job.offset && w.workers[tp].pc.RoutingOut?)
    ensures o == w.workers[tp].pc.job.offset && w.workers[tp].pc.RoutingOut? ==> o !in LifeOf(w, tp).refused
  {
    hide Justified, CallsBehind, RoutingOk, OriginSound, OriginComplete, OriginInjective, RoutedBelowCommitted,
      MessageFromRecord;
    var s := SliceOf(w, tp);
    assert PartInv(cfg, s);
    assert LogOk(Log(w.sh.broker, tp), tp);
    JobOffset(s, tp);
    if o in s.life.refused { assert o in s.life.refused + s.life.skipped; }
  }

  /** What has a handler is settled by the record, and records never change. */
  lemma HandlerStays(cfg: Config, w: World, w': World, tp: TP, o: int)
    requires LogsGrow(w.sh.broker, w'.sh.broker) && InLog(w.sh.broker, Pos(tp, o))
    ensures HasHandler(cfg, w', tp, o) == HasHandler(cfg, w, tp, o)
  {
    hide LookupOk, MessageFromRecord;
    assert Log(w.sh.broker, tp) <= Log(w'.sh.broker, tp);
  }

  lemma LostMeans(cfg: Config, w: World, tp: TP, o: int)
    requires Inv(cfg, w) && 0 <= o < Committed(cfg, w, tp)
    ensures InLog(w.sh.broker, Pos(tp, o))
    ensures Lost(cfg, w, tp, o) <==> o !in HistOf(w, tp).Decided() && HasHandler(cfg, w, tp, o)
  {
    assert PartInv(cfg, SliceOf(w, tp));
    hide PartInv, OriginSound, OriginComplete, OriginInjective;
    BelowCommitted(cfg, SliceOf(w, tp));
    DecidedIsAccounted(cfg, w, tp, o);
    hide LookupOk, MessageFromRecord;
  }

  /** One step loses an offset exactly when it is such a commit, and nothing brings one back. */
  lemma StepLoses(cfg: Config, w: World, l: Label, tp: TP, o: int)
    requires Inv(cfg, w) && cfg.groupID != "" && 0 <= o
    ensures WellFormed(w.sh.broker)
    ensures Lost(cfg, Step(cfg, w, l), tp, o) <==> Lost(cfg, w, tp, o) || Loses(cfg, w, l, tp, o)
  {
    hide Inv, Step, WellFormed, Accounted, LookupOk, Lost, GroupOffset, HasHandler, LogsGrow, Refuses;
    InvWellFormed(cfg, w);
    var w' := Step(cfg, w, l);
    StepKeepsInv(cfg, w, l);
    StepRises(cfg, w, l);
    if Acts(w, l, tp) {
      ActionRaises(cfg, w, l, tp);
      ActionDecides(cfg, w, l, tp);
    } else {
      QuietStays(cfg, w, l, tp);
    }
    if o < Committed(cfg, w, tp) {
      LostMeans(cfg, w, tp, o);
      LostMeans(cfg, w', tp, o);
      HandlerStays(cfg, w, w', tp, o);
    } else if o < Committed(cfg, w', tp) {
      CommitCovers(cfg, w, l, tp, o);
      LostMeans(cfg, w', tp, o);
      HandlerStays(cfg, w, w', tp, o);
      RoutedDecides(cfg, w, l, tp);
      NotLostYet(cfg, w, tp, o);
    } else {
      NotLostYet(cfg, w, tp, o);
      NotLostYet(cfg, w', tp, o);
    }
  }

  lemma NotLostYet(cfg: Config, w: World, tp: TP, o: int)
    requires o >= Committed(cfg, w, tp)
    ensures !Lost(cfg, w, tp, o)
  {
  }

  /** A transaction's commit decides its job. */
  lemma RoutedDecides(cfg: Config, w: World, l: Label, tp: TP)
    requires Inv(cfg, w) && cfg.groupID != "" && Commits(w, l, tp)
    ensures WellFormed(w.sh.broker)
    ensures w.workers[tp].pc.RoutingOut? ==> w.workers[tp].pc.job.offset in HistOf(Step(cfg, w, l), tp).Decided()
  {
    hide Inv, Step, WellFormed, RouteStep, BusyStep;
    InvWellFormed(cfg, w);
    StepIs(cfg, w, l);
    var wk := w.workers[tp];
    BusyIs(cfg, wk.perKey, w.sh, wk.pc, l.choice);
    if wk.pc.RoutingOut? { RouteDecides(cfg, wk.perKey, Later(w.sh, l.choice), wk.pc, l.choice); }
  }

  // ---- every run ----

  ghost predicate LosesAt(cfg: Config, labels: seq<Label>, i: int, tp: TP, o: int)
    requires 0 <= i < |labels|
  {
    Loses(cfg, Run(cfg, labels[..i]), labels[i], tp, o)
  }

  /** Exactly which committed offsets are lost, in every run: those an action of the run
      committed past although, in that subscription, the fenced broker had refused the
      message's route and no subscription had decided it before. Once lost, an offset stays lost. */
  lemma {:induction false} LostExactly(cfg: Config, labels: seq<Label>, tp: TP, o: int)
    requires cfg.groupID != "" && 0 <= o
    ensures Lost(cfg, Run(cfg, labels), tp, o) <==> exists i :: 0 <= i < |labels| && LosesAt(cfg, labels, i, tp, o)
    decreases |labels|
  {
    hide Inv, Run, Step, Lost, Loses;
    if labels == [] {
      RunStart(cfg);
      NothingLostYet(cfg, tp, o);
    } else {
      var n := |labels| - 1;
      var init := labels[..n];
      RunStep(cfg, labels);
      RunInv(cfg, init);
      LostExactly(cfg, init, tp, o);
      StepLoses(cfg, Run(cfg, init), labels[n], tp, o);
      assert forall i :: 0 <= i < n ==> LosesAt(cfg, labels, i, tp, o) == LosesAt(cfg, init, i, tp, o) by {
        forall i | 0 <= i < n ensures LosesAt(cfg, labels, i, tp, o) == LosesAt(cfg, init, i, tp, o) {
          assert labels[..i] == init[..i];
        }
      }
      assert LosesAt(cfg, labels, n, tp, o) == Loses(cfg, Run(cfg, init), labels[n], tp, o);
    }
  }

  lemma NothingLostYet(cfg: Config, tp: TP, o: int)
    ensures !Lost(cfg, StartWorld(cfg), tp, o)
  {
  }

  ghost predicate RefusesAt(cfg: Config, labels: seq<Label>, i: int, tp: TP, o: int)
    requires 0 <= i < |labels|
  {
    Refuses(Run(cfg, labels[..i]), labels[i], tp, o)
  }

  predicate NoStopAfter(labels: seq<Label>, i: int) {
    forall k :: 0 <= i < k < |labels| ==> !labels[k].Stop?
  }

  /** An offset counts as refused exactly when the fenced broker refused its route and the
      process has not ended since. */
  lemma {:induction false} RefusedExactly(cfg: Config, labels: seq<Label>, tp: TP, o: int)
    requires cfg.groupID != ""
    ensures o in LifeOf(Run(cfg, labels), tp).refused <==>
      exists i :: 0 <= i < |labels| && RefusesAt(cfg, labels, i, tp, o) && NoStopAfter(labels, i)
    decreases |labels|
  {
    hide Inv, Run, Step, Refuses;
    if labels == [] {
      RunStart(cfg);
    } else {
      var n := |labels| - 1;
      var init, l := labels[..n], labels[n];
      RunStep(cfg, labels);
      RunInv(cfg, init);
      RefusedExactly(cfg, init, tp, o);
      StepRefuses(cfg, Run(cfg, init), l, tp, o);
      forall i | 0 <= i < n
        ensures RefusesAt(cfg, labels, i, tp, o) == RefusesAt(cfg, init, i, tp, o)
        ensures NoStopAfter(labels, i) <==> NoStopAfter(init, i) && !l.Stop?
      {
        assert labels[..i] == init[..i];
        assert NoStopAfter(labels, i) ==> forall k :: 0 <= i < k < |init| ==> init[k] == labels[k];
      }
      assert RefusesAt(cfg, labels, n, tp, o) == Refuses(Run(cfg, init), l, tp, o);
    }
  }

  lemma StepRefuses(cfg: Config, w: World, l: Label, tp: TP, o: int)
    requires Inv(cfg, w) && cfg.groupID != ""
    ensures WellFormed(w.sh.broker)
    ensures o in LifeOf(Step(cfg, w, l), tp).refused <==>
      Refuses(w, l, tp, o) || (!l.Stop? && o in LifeOf(w, tp).refused)
    ensures Refuses(w, l, tp, o) ==> !l.Stop?
  {
    hide Inv, Step, WellFormed;
    InvWellFormed(cfg, w);
    if Acts(w, l, tp) { ActionDecides(cfg, w, l, tp); } else { QuietStays(cfg, w, l, tp); }
  }

  // ---- the per-key loop's extra commit ----

  predicate Draining(w: World, tp: TP) {
    w.live && tp in w.workers && w.workers[tp].pc.Committing? && w.workers[tp].pc.drain
  }

  /** Each of the extra commit's checks is made again: the partition is assigned, the context
      stands, it is still assigned, the broker is open. */
  predicate DrainPasses(w: World, tp: TP)
    requires Draining(w, tp)
  {
    match w.workers[tp].pc.commitStage
    case FirstCheck => Assigned(w.sh.sub, tp)
    case CommitContextCheck => !w.sh.cancelled
    case SecondCheck => Assigned(w.sh.sub, tp)
    case ApplyOffset => !w.sh.broker.closed
  }

  function StageAfter(s: CommitStage): Option<CommitStage> {
    match s
    case FirstCheck => Some(CommitContextCheck)
    case CommitContextCheck => Some(SecondCheck)
    case SecondCheck => Some(ApplyOffset)
    case ApplyOffset => None
  }

  /** What the extra commit does in every world of every run: it goes on to its next check, or
      ends; and the group's offset rises exactly when its last check passes for a message that
      process left without a commit because the store answered "in progress" or the fenced
      broker refused its route. For every other message it changes nothing. */
  lemma ExtraCommitExactly(cfg: Config, labels: seq<Label>, tp: TP, c: Choice)
    requires cfg.groupID != "" && Draining(Run(cfg, labels), tp)
    ensures var w := Run(cfg, labels); var w' := Run(cfg, labels + [Work(tp, c)]);
      var pc := w.workers[tp].pc; var left := LifeOf(w, tp).skipped + LifeOf(w, tp).refused;
      && tp in w'.workers
      && w'.workers[tp].pc ==
           (if DrainPasses(w, tp) && !pc.commitStage.ApplyOffset? then
              pc.(commitStage := StageAfter(pc.commitStage).value)
            else Idle)
      && (Committed(cfg, w', tp) != Committed(cfg, w, tp) <==>
            pc.commitStage.ApplyOffset? && DrainPasses(w, tp) && pc.job.offset in left)
      && (Committed(cfg, w', tp) != Committed(cfg, w, tp) ==> Committed(cfg, w', tp) == pc.job.offset + 1)
  {
    hide Inv, Run, Step, WellFormed, GroupOffset;
    var w, l := Run(cfg, labels), Work(tp, c);
    RunInv(cfg, labels);
    InvWellFormed(cfg, w);
    assert (labels + [l])[..|labels|] == labels && (labels + [l])[|labels|] == l;
    RunStep(cfg, labels + [l]);
    ActionRaises(cfg, w, l, tp);
    DrainLeft(cfg, w, tp);
    DrainStep(cfg, w, l, tp);
  }

  lemma DrainStep(cfg: Config, w: World, l: Label, tp: TP)
    requires WellFormed(w.sh.broker) && l.Work? && l.tp == tp && Draining(w, tp) && TPOf(w.workers[tp].pc.job) == tp
    ensures var w' := Step(cfg, w, l); var pc := w.workers[tp].pc;
      && tp in w'.workers
      && w'.workers[tp].pc ==
           (if DrainPasses(w, tp) && !pc.commitStage.ApplyOffset? then
              pc.(commitStage := StageAfter(pc.commitStage).value)
            else Idle)
  {
    hide Raise, WellFormed, ApplyToHist, ApplyToCalls, ApplyToLife;
  }

  lemma DrainLeft(cfg: Config, w: World, tp: TP)
    requires Inv(cfg, w) && Draining(w, tp)
    ensures TPOf(w.workers[tp].pc.job) == tp
    ensures w.workers[tp].pc.commitStage.ApplyOffset? && !w.sh.broker.closed ==>
      (w.workers[tp].pc.job.offset + 1 > Committed(cfg, w, tp) <==>
          w.workers[tp].pc.job.offset in LifeOf(w, tp).skipped + LifeOf(w, tp).refused)
  {
    hide Justified, CallsBehind, RoutingOk, OriginSound, OriginComplete, OriginInjective, RoutedBelowCommitted,
      MessageFromRecord;
    var s := SliceOf(w, tp);
    assert PartInv(cfg, s);
    assert LogOk(Log(w.sh.broker, tp), tp);
    JobOffset(s, tp);
  }
}
