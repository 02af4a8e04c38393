/** Duplicates need a restart. While a process lives, it routes every offset at most once in
    either guarantee; a second copy can only come from a message delivered again after a
    process ended between publishing and committing. */
module Redelivery {
  import opened Envelope
  import opened Config
  import opened Routing
  import opened Broker
  import opened Protocol
  import opened Safety
  import opened Runs
  import opened Exclusion
  import opened Drain

  /** The worker may still route its job. */
  predicate BeforeRouting(pc: PC) { InHandlerPhase(pc) || pc.RoutingOut? }

  /** The offsets of `tp` routed since `base` was the record of origins. */
  function RoutedSince(base: map<Pos, Pos>, w: World, tp: TP): set<int> {
    set d | d in w.origin && d !in base && w.origin[d].tp == tp :: w.origin[d].offset
  }

  /** These offsets lie behind what the worker may still route. */
  ghost predicate Behind(s: Slice, routed: set<int>) {
    forall o :: o in routed ==>
      s.fetched.Some? && o < if BeforeRouting(s.wk.pc) then s.wk.pc.job.offset else QueueBase(s)
  }

  ghost predicate OnceSince(base: map<Pos, Pos>, w: World) {
    forall d1, d2 ::
      d1 in w.origin && d2 in w.origin && d1 !in base && d2 !in base && w.origin[d1] == w.origin[d2] ==> d1 == d2
  }

  ghost predicate OnceInv(base: map<Pos, Pos>, w: World) {
    && base.Keys <= w.origin.Keys && OnceSince(base, w)
    && forall tp :: Behind(SliceOf(w, tp), RoutedSince(base, w, tp))
  }

  lemma GrowthKeepsBehind(s: Slice, s': Slice, routed: set<int>)
    requires Behind(s, routed) && SliceGrows(s, s')
    ensures Behind(s', routed)
  {
  }

  lemma PollKeepsBehind(s: Slice, s': Slice, routed: set<int>)
    requires Pipeline(s) && Behind(s, routed) && SlicePolls(s, s')
    ensures Behind(s', routed)
  {
    hide MessageFromRecord;
  }

  lemma EnqueueKeepsBehind(s: Slice, s': Slice, routed: set<int>)
    requires Pipeline(s) && Behind(s, routed) && SliceEnqueues(s, s')
    ensures Behind(s', routed)
  {
    hide MessageFromRecord;
  }

  lemma TakeKeepsBehind(s: Slice, s': Slice, tp: TP, routed: set<int>)
    requires Pipeline(s) && Behind(s, routed) && SliceTakes(s, s') && s.fetched.Some? && LogOk(s.log, tp)
    ensures Behind(s', routed)
  {
    hide LookupOk;
    if s.wk.queue != [] { assert s.log[QueueBase(s)].rec.offset == QueueBase(s); }
  }

  /** Where a busy worker's action leaves it: with the same job, or past it. */
  ghost predicate JobMoves(pc: PC, e: Effect) {
    && (BeforeRouting(e.pc) ==> BeforeRouting(pc) && e.pc.job == pc.job)
    && (e.event.Routed? ==> BeforeRouting(pc) && !BeforeRouting(e.pc))
  }

  lemma BusyKeepsBehind(s: Slice, s': Slice, tp: TP, e: Effect, routed: set<int>)
    requires Pipeline(s) && Behind(s, routed) && Busy(s.wk.pc) && LogOk(s.log, tp) && s.fetched.Some?
    requires SliceAfter(s, e, s') && s'.wk.pc == e.pc && JobMoves(s.wk.pc, e)
    ensures Behind(s', routed + if e.event.Routed? then {s.wk.pc.job.offset} else {})
    ensures e.event.Routed? ==> s.wk.pc.job.offset !in routed
  {
    hide LookupOk;
    JobOffset(s, tp);
  }

  lemma BusyJobMoves(cfg: Config, w: World, tp: TP, c: Choice)
    requires BusyMove(cfg, w, tp, c)
    ensures var wk := w.workers[tp]; JobMoves(wk.pc, BusyStep(cfg, wk.perKey, w.sh, wk.pc, c))
  {
    hide HandlerStep, RouteStep, CommitStep, PartInv, RoutingOk, OriginSound, OriginComplete, OriginInjective, SliceOf,
      WellFormed, LogsGrow, OffsetRaised;
    BusyJob(cfg, w, tp, c);
    var wk := w.workers[tp];
    if wk.pc.RoutingOut? {
      PartRouting(cfg, SliceOf(w, tp));
      RouteStepOutcome(cfg, wk.perKey, Later(w.sh, c), wk.pc, c);
    } else if wk.pc.Committing? {
      CommitStepOutcome(cfg, wk.perKey, Later(w.sh, c), wk.pc);
    } else {
      HandlerStepOutcome(cfg, wk.perKey, Later(w.sh, c), wk.pc, c);
    }
  }

  /** A routed event adds one new position with the job as its source. */
  lemma RoutedSinceMoves(base: map<Pos, Pos>, w: World, tp: TP, wk: Worker, e: Effect, q: TP)
    requires Busy(wk.pc) && base.Keys <= w.origin.Keys && (e.event.Routed? ==> e.event.dst !in w.origin)
    ensures RoutedSince(base, AfterEffect(w, tp, wk, e), q) ==
      RoutedSince(base, w, q) + if q == tp && e.event.Routed? then {wk.pc.job.offset} else {}
  {
    hide ApplyToHist, ApplyToCalls, ApplyToLife;
    var w' := AfterEffect(w, tp, wk, e);
    if e.event.Routed? {
      var d := e.event.dst;
      assert forall x :: x in w.origin ==> x in w'.origin && w'.origin[x] == w.origin[x];
      assert d in w'.origin && d !in base && w'.origin[d] == Pos(tp, wk.pc.job.offset);
    }
  }

  lemma OnceMoves(base: map<Pos, Pos>, w: World, tp: TP, wk: Worker, e: Effect)
    requires Busy(wk.pc) && OnceSince(base, w) && base.Keys <= w.origin.Keys
    requires (e.event.Routed? ==> e.event.dst !in w.origin)
    requires e.event.Routed? ==> wk.pc.job.offset !in RoutedSince(base, w, tp)
    ensures OnceSince(base, AfterEffect(w, tp, wk, e))
  {
    hide ApplyToHist, ApplyToCalls, ApplyToLife;
    assert forall d :: d in w.origin && d !in base && w.origin[d].tp == tp ==>
      w.origin[d].offset in RoutedSince(base, w, tp);
  }

  lemma BusyFreshDestination(cfg: Config, w: World, tp: TP, c: Choice)
    requires BusyMove(cfg, w, tp, c)
    ensures var wk := w.workers[tp]; var e := BusyStep(cfg, wk.perKey, w.sh, wk.pc, c); e.event.Routed? ==>
      e.event.dst !in w.origin
  {
    hide PartInv, MessageFromRecord, WellFormed, SameMessage, BusyStep, OriginComplete, OriginSound;
    BusyFreshCopy(cfg, w, tp, c);
    var wk := w.workers[tp];
    FreshDestination(cfg, w, tp, wk, BusyStep(cfg, wk.perKey, w.sh, wk.pc, c));
  }

  lemma BusyKeepsOnce(cfg: Config, base: map<Pos, Pos>, w: World, tp: TP, c: Choice)
    requires BusyMove(cfg, w, tp, c) && OnceInv(base, w)
    ensures WellFormed(w.sh.broker)
    ensures var wk := w.workers[tp]; OnceInv(base, AfterEffect(w, tp, wk, BusyStep(cfg, wk.perKey, w.sh, wk.pc, c)))
  {
    hide Inv, BusyStep, SliceOf, WellFormed, OnceSince, Behind, Pipeline, RoutedSince, ApplyToHist, ApplyToCalls,
      ApplyToLife;
    BusyGroup(cfg, w, tp, c);
    var wk := w.workers[tp];
    var e := BusyStep(cfg, wk.perKey, w.sh, wk.pc, c);
    BusyFreshDestination(cfg, w, tp, c);
    BusyFrame(cfg, w, tp, c);
    BusyJobMoves(cfg, w, tp, c);
    forall q ensures Behind(SliceOf(AfterEffect(w, tp, wk, e), q), RoutedSince(base, AfterEffect(w, tp, wk, e), q)) {
      EffectSlices(cfg, w, tp, wk, e, q);
      RoutedSinceMoves(base, w, tp, wk, e, q);
      BehindOne(cfg, base, w, tp, wk, e, q);
    }
    EffectSlices(cfg, w, tp, wk, e, tp);
    BehindOne(cfg, base, w, tp, wk, e, tp);
    OnceMoves(base, w, tp, wk, e);
  }

  lemma BehindOne(cfg: Config, base: map<Pos, Pos>, w: World, tp: TP, wk: Worker, e: Effect, q: TP)
    requires Inv(cfg, w) && OnceInv(base, w) && tp in w.workers && w.workers[tp] == wk && Busy(wk.pc)
    requires JobMoves(wk.pc, e)
    requires var s, s' := SliceOf(w, q), SliceOf(AfterEffect(w, tp, wk, e), q);
      if q == tp then Busy(s.wk.pc) && SliceAfter(s, e, s') && s'.wk.pc == e.pc else SliceGrows(s, s')
    ensures Behind(SliceOf(AfterEffect(w, tp, wk, e), q),
                   RoutedSince(base, w, q) + if q == tp && e.event.Routed? then {wk.pc.job.offset} else {})
    ensures q == tp && e.event.Routed? ==> wk.pc.job.offset !in RoutedSince(base, w, tp)
  {
    hide Inv, SliceOf, Behind, AfterEffect, Pipeline, LogOk, RoutedSince;
    var s, s' := SliceOf(w, q), SliceOf(AfterEffect(w, tp, wk, e), q);
    InvPipeline(cfg, w, q);
    SliceLog(w, q);
    assert Behind(s, RoutedSince(base, w, q));
    if q == tp {
      WorkerIsFetched(cfg, w, tp);
      BusyKeepsBehind(s, s', tp, e, RoutedSince(base, w, q));
    } else {
      GrowthKeepsBehind(s, s', RoutedSince(base, w, q));
      assert RoutedSince(base, w, q) + {} == RoutedSince(base, w, q);
    }
  }

  // ---- everybody else ----

  lemma DispatchKeepsOnce(cfg: Config, base: map<Pos, Pos>, w: World, l: Label)
    requires Inv(cfg, w) && OnceInv(base, w) && (l.Poll? || l.Enqueue?)
    ensures WellFormed(w.sh.broker) && OnceInv(base, Step(cfg, w, l))
  {
    hide Inv, Step, SliceOf, WellFormed, Behind, PollStep, EnqueueStep, Pipeline, MessageFromRecord;
    InvWellFormed(cfg, w);
    StepIs(cfg, w, l);
    var w' := Step(cfg, w, l);
    if w' != w {
      if l.Poll? { PollSlices(w, TP("", 0)); } else {
        var m, wk := EnqueueShape(cfg, w, l.ordering);
        EnqueueSlices(w, w', m, wk, TP("", 0));
      }
      forall q ensures Behind(SliceOf(w', q), RoutedSince(base, w', q)) {
        InvPipeline(cfg, w, q);
        var routed := RoutedSince(base, w, q);
        assert Behind(SliceOf(w, q), routed) && RoutedSince(base, w', q) == routed;
        if l.Poll? {
          PollSlices(w, q);
          if SliceOf(w', q) != SliceOf(w, q) { PollKeepsBehind(SliceOf(w, q), SliceOf(w', q), routed); }
        } else {
          var m, wk := EnqueueShape(cfg, w, l.ordering);
          EnqueueSlices(w, w', m, wk, q);
          if SliceOf(w', q) != SliceOf(w, q) { EnqueueKeepsBehind(SliceOf(w, q), SliceOf(w', q), routed); }
        }
      }
    }
  }

  lemma IdleKeepsOnce(cfg: Config, base: map<Pos, Pos>, w: World, tp: TP, c: Choice)
    requires Inv(cfg, w) && OnceInv(base, w) && !(w.live && tp in w.workers && Busy(w.workers[tp].pc))
    ensures WellFormed(w.sh.broker) && OnceInv(base, WorkStep(cfg, w, tp, c))
  {
    hide Inv, SliceOf, WellFormed, Behind, WorkStep, Pipeline, LogOk;
    InvWellFormed(cfg, w);
    var w' := WorkStep(cfg, w, tp, c);
    if w' != w {
      var wk := IdleShape(cfg, w, tp, c);
      WorkerIsFetched(cfg, w, tp);
      InvPipeline(cfg, w, tp);
      SliceLog(w, tp);
      WorkersSlice(w, tp, wk, tp);
      assert Behind(SliceOf(w, tp), RoutedSince(base, w, tp));
      TakeKeepsBehind(SliceOf(w, tp), SliceOf(w', tp), tp, RoutedSince(base, w, tp));
      forall q ensures Behind(SliceOf(w', q), RoutedSince(base, w', q)) {
        WorkersSlice(w, tp, wk, q);
        assert Behind(SliceOf(w, q), RoutedSince(base, w, q)) && RoutedSince(base, w', q) == RoutedSince(base, w, q);
      }
    }
  }

  /** The environment's moves change nothing that was routed. */
  lemma OthersKeepOnce(cfg: Config, base: map<Pos, Pos>, w: World, w': World)
    requires Inv(cfg, w) && OnceInv(base, w) && EnvironmentMove(cfg, w, w')
    ensures OnceInv(base, w')
  {
    hide PartInv, Behind, OriginSound, OriginComplete, WellFormed;
    forall q ensures Behind(SliceOf(w', q), RoutedSince(base, w', q)) {
      assert SliceGrows(SliceOf(w, q), SliceOf(w', q));
      assert RoutedSince(base, w', q) == RoutedSince(base, w, q);
      GrowthKeepsBehind(SliceOf(w, q), SliceOf(w', q), RoutedSince(base, w, q));
    }
  }

  /** A process starts where nothing has been fetched, so nothing was routed since `base`. */
  lemma RestartKeepsOnce(cfg: Config, base: map<Pos, Pos>, w: World, topics: seq<string>)
    requires Inv(cfg, w) && OnceInv(base, w)
    ensures OnceInv(base, RestartStep(cfg, w, topics)) && WellFormed(w.sh.broker)
  {
    hide PartInv, OriginSound, OriginComplete, WellFormed;
    var w' := RestartStep(cfg, w, topics);
    if w' != w {
      forall q ensures RoutedSince(base, w', q) == {} {
        assert Behind(SliceOf(w, q), RoutedSince(base, w, q));
        assert SliceOf(w, q).fetched.None?;
        assert RoutedSince(base, w', q) == RoutedSince(base, w, q);
      }
    }
  }

  lemma StepKeepsOnce(cfg: Config, base: map<Pos, Pos>, w: World, l: Label)
    requires Inv(cfg, w) && cfg.groupID != "" && OnceInv(base, w) && !l.Stop?
    ensures WellFormed(w.sh.broker) && OnceInv(base, Step(cfg, w, l))
  {
    hide Inv, OnceInv, Step, BusyStep, WorkStep, FlagStep, EnqueueStep, PollStep, RestartStep, OutsideEffect,
      WellFormed, EnvironmentMove;
    InvWellFormed(cfg, w);
    StepIs(cfg, w, l);
    if IsOutside(l) {
      OutsideMoves(cfg, w, l);
      OthersKeepOnce(cfg, base, w, Step(cfg, w, l));
    } else if IsFlag(l) {
      FlagMoves(cfg, w, l);
      OthersKeepOnce(cfg, base, w, FlagStep(w, l));
    } else {
      match l {
        case Poll => DispatchKeepsOnce(cfg, base, w, l);
        case Enqueue(_) => DispatchKeepsOnce(cfg, base, w, l);
        case Restart(topics) => RestartKeepsOnce(cfg, base, w, topics); RestartIs(cfg, w, l);
        case Work(tp, c) =>
          if w.live && tp in w.workers && Busy(w.workers[tp].pc) {
            BusyKeepsOnce(cfg, base, w, tp, c);
            BusySoundStep(cfg, w, tp, c);
          } else {
            IdleKeepsOnce(cfg, base, w, tp, c);
          }
      }
    }
  }

  lemma RestartIs(cfg: Config, w: World, l: Label)
    requires WellFormed(w.sh.broker) && l.Restart?
    ensures Step(cfg, w, l) == RestartStep(cfg, w, l.topics)
  {
    hide WellFormed, RestartStep;
  }

  lemma BusySoundStep(cfg: Config, w: World, tp: TP, c: Choice)
    requires WellFormed(w.sh.broker) && w.live && tp in w.workers && Busy(w.workers[tp].pc)
    ensures var wk := w.workers[tp];
      WorkStep(cfg, w, tp, c) == AfterEffect(w, tp, wk, BusyStep(cfg, wk.perKey, w.sh, wk.pc, c))
  {
    hide WellFormed, BusyStep, AfterEffect;
  }

  // ---- runs ----

  ghost predicate NoStop(labels: seq<Label>) { forall l :: l in labels ==> !l.Stop? }

  lemma {:induction false} RunKeepsOnce(cfg: Config, labels: seq<Label>, more: seq<Label>)
    requires cfg.groupID != "" && NoStop(more)
    ensures OnceInv(Run(cfg, labels).origin, Run(cfg, labels + more))
    decreases |more|
  {
    hide Inv, Step, OnceInv, Run;
    if more == [] {
      assert labels + more == labels;
      NothingSince(Run(cfg, labels));
    } else {
      var init, l := more[..|more| - 1], more[|more| - 1];
      assert (labels + more)[..|labels + more| - 1] == labels + init;
      RunStep(cfg, labels + more);
      assert l in more && forall k :: k in init ==> k in more;
      RunKeepsOnce(cfg, labels, init);
      RunInv(cfg, labels + init);
      StepKeepsOnce(cfg, Run(cfg, labels).origin, Run(cfg, labels + init), l);
    }
  }

  lemma NothingSince(w: World)
    ensures OnceInv(w.origin, w)
  {
    forall q ensures Behind(SliceOf(w, q), RoutedSince(w.origin, w, q)) { assert RoutedSince(w.origin, w, q) == {}; }
  }

  /** While a process lives it routes every offset at most once, in either guarantee: from any
      point of any run on, whatever earlier processes did, as long as the process does not end,
      two records routed since then never share a source. */
  lemma RoutedOncePerProcess(cfg: Config, labels: seq<Label>, more: seq<Label>, d1: Pos, d2: Pos)
    requires cfg.groupID != "" && NoStop(more)
    requires var before, after := Run(cfg, labels).origin, Run(cfg, labels + more).origin;
      d1 in after && d2 in after && d1 !in before && d2 !in before && after[d1] == after[d2]
    ensures d1 == d2
  {
    hide Run, Behind;
    RunKeepsOnce(cfg, labels, more);
  }

  // ---- the origins only grow ----

  ghost predicate OriginGrows(w: World, w': World) {
    forall d :: d in w.origin ==> d in w'.origin && w'.origin[d] == w.origin[d]
  }

  lemma StepGrowsOrigin(cfg: Config, w: World, l: Label)
    requires Inv(cfg, w) && cfg.groupID != ""
    ensures WellFormed(w.sh.broker) && OriginGrows(w, Step(cfg, w, l))
    ensures l.Stop? ==> Step(cfg, w, l).origin == w.origin
  {
    hide Inv, Step, BusyStep, WorkStep, FlagStep, EnqueueStep, PollStep, RestartStep, OutsideEffect, WellFormed,
      PartInv, SliceOf, LogsGrow,
      GroupOffset, ApplyToHist, ApplyToCalls, ApplyToLife;
    InvWellFormed(cfg, w);
    StepIs(cfg, w, l);
    var w' := Step(cfg, w, l);
    if IsOutside(l) {
      OutsideMoves(cfg, w, l);
    } else if IsFlag(l) {
      FlagMoves(cfg, w, l);
    } else {
      match l {
        case Poll => if w' != w { PollSlices(w, TP("", 0)); }
        case Enqueue(o) =>
          if w' != w {
            var m, wk := EnqueueShape(cfg, w, o);
            EnqueueSlices(w, w', m, wk, TP("", 0));
          }
        case Work(tp, c) =>
          if w.live && tp in w.workers && Busy(w.workers[tp].pc) {
            BusyFreshDestination(cfg, w, tp, c);
            BusySoundStep(cfg, w, tp, c);
          } else if WorkStep(cfg, w, tp, c) != w {
            var wk := IdleShape(cfg, w, tp, c);
          }
        case Stop => StopKeepsOrigin(cfg, w, l);
        case Restart(topics) => StopKeepsOrigin(cfg, w, l);
      }
    }
  }

  lemma StopKeepsOrigin(cfg: Config, w: World, l: Label)
    requires WellFormed(w.sh.broker) && (l.Stop? || l.Restart?)
    ensures Step(cfg, w, l).origin == w.origin
  {
    hide WellFormed, WithGroup;
  }

  lemma {:induction false} RunGrowsOrigin(cfg: Config, labels: seq<Label>, i: int, j: int)
    requires cfg.groupID != "" && 0 <= i <= j <= |labels|
    ensures OriginGrows(Run(cfg, labels[..i]), Run(cfg, labels[..j]))
    decreases j
  {
    hide Inv, Step, Run, WellFormed;
    if i < j {
      RunGrowsOrigin(cfg, labels, i, j - 1);
      assert labels[..j][..j - 1] == labels[..j - 1];
      RunStep(cfg, labels[..j]);
      RunInv(cfg, labels[..j - 1]);
      StepGrowsOrigin(cfg, Run(cfg, labels[..j - 1]), labels[j - 1]);
    }
  }

  /** The record at `d` was routed by the label at `i`. */
  ghost predicate RoutedAt(cfg: Config, labels: seq<Label>, i: int, d: Pos)
    requires 0 <= i < |labels|
  {
    d !in Run(cfg, labels[..i]).origin && d in Run(cfg, labels[..i + 1]).origin
  }

  lemma {:induction false} RoutingIndex(cfg: Config, labels: seq<Label>, n: int, d: Pos) returns (i: int)
    requires cfg.groupID != "" && 0 <= n <= |labels| && d in Run(cfg, labels[..n]).origin
    ensures 0 <= i < n && RoutedAt(cfg, labels, i, d)
    decreases n
  {
    hide Run;
    if n == 0 {
      assert labels[..0] == [];
      RunStart(cfg);
      assert false;
    } else if d in Run(cfg, labels[..n - 1]).origin {
      i := RoutingIndex(cfg, labels, n - 1, d);
    } else {
      i := n - 1;
    }
  }

  lemma StopRoutesNothing(cfg: Config, labels: seq<Label>, i: int, d: Pos)
    requires cfg.groupID != "" && 0 <= i < |labels| && RoutedAt(cfg, labels, i, d)
    ensures !labels[i].Stop?
  {
    hide Inv, Step, Run, WellFormed;
    assert labels[..i + 1][..i] == labels[..i];
    RunStep(cfg, labels[..i + 1]);
    RunInv(cfg, labels[..i]);
    StepGrowsOrigin(cfg, Run(cfg, labels[..i]), labels[i]);
  }

  /** A Stop lies between the two routings. */
  lemma StopBetween(cfg: Config, labels: seq<Label>, i: int, j: int, d1: Pos, d2: Pos) returns (k: int)
    requires cfg.groupID != "" && d1 != d2 && 0 <= i <= j < |labels| && RoutedAt(cfg, labels, i, d1)
    requires RoutedAt(cfg, labels, j, d2)
    requires Run(cfg, labels[..i + 1]).origin[d1] == Run(cfg, labels[..j + 1]).origin[d2]
    ensures i < k < j && labels[k].Stop?
  {
    hide Run;
    var more := labels[i..j + 1];
    assert labels[..i] + more == labels[..j + 1];
    RunGrowsOrigin(cfg, labels, i, j);
    RunGrowsOrigin(cfg, labels, i + 1, j + 1);
    if NoStop(more) {
      RoutedOncePerProcess(cfg, labels[..i], more, d1, d2);
      assert false;
    }
    StopRoutesNothing(cfg, labels, i, d1);
    StopRoutesNothing(cfg, labels, j, d2);
    var x :| 0 <= x < |more| && more[x].Stop?;
    k := i + x;
  }

  /** Two copies of one message: only in at-least-once mode, and only with the end of a process
      between the two routings. */
  lemma DuplicatesNeedRestart(cfg: Config, labels: seq<Label>, d1: Pos, d2: Pos)
    requires cfg.groupID != "" && d1 != d2
    requires d1 in Run(cfg, labels).origin && d2 in Run(cfg, labels).origin
    requires Run(cfg, labels).origin[d1] == Run(cfg, labels).origin[d2]
    ensures cfg.guarantee.AtLeastOnce?
    ensures exists i, j, k ::
      && 0 <= i < |labels| && 0 <= j < |labels| && 0 <= k < |labels| && (i < k < j || j < k < i)
      && RoutedAt(cfg, labels, i, d1) && RoutedAt(cfg, labels, j, d2) && labels[k].Stop?
  {
    hide Run, OriginSound, OriginComplete, PartInv, RoutedAt;
    RunInv(cfg, labels);
    var n := |labels|;
    assert labels[..n] == labels;
    var i := RoutingIndex(cfg, labels, n, d1);
    var j := RoutingIndex(cfg, labels, n, d2);
    SameSource(cfg, labels, i, d1);
    SameSource(cfg, labels, j, d2);
    var k;
    if i <= j { k := StopBetween(cfg, labels, i, j, d1, d2); } else { k := StopBetween(cfg, labels, j, i, d2, d1); }
  }

  lemma SameSource(cfg: Config, labels: seq<Label>, i: int, d: Pos)
    requires cfg.groupID != "" && 0 <= i < |labels| && RoutedAt(cfg, labels, i, d)
    ensures d in Run(cfg, labels[..i + 1]).origin && d in Run(cfg, labels).origin
    ensures Run(cfg, labels).origin[d] == Run(cfg, labels[..i + 1]).origin[d]
  {
    hide Run;
    assert labels[..|labels|] == labels;
    RunGrowsOrigin(cfg, labels, i + 1, |labels|);
  }
}
