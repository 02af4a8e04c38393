/** What the protocol guarantees over every run, as its documentation promises it. */
module Guarantees {
  import opened Wrappers
  import opened Envelope
  import opened Config
  import opened Routing
  import opened Broker
  import opened Protocol
  import opened Safety
  import opened Runs
  import opened Exclusion

  function Committed(cfg: Config, w: World, tp: TP): int { GroupOffset(w.sh.broker, cfg.groupID, tp) }

  /** Offset `o` of `tp` was handled, dropped for a stated reason, skipped by the idempotency
      store, or copied to a retry or dead-letter topic the broker still holds. */
  ghost predicate Accounted(cfg: Config, w: World, tp: TP, o: int) {
    var h := HistOf(w, tp);
    && InLog(w.sh.broker, Pos(tp, o))
    && (|| o in h.handled
        || LookupOk(cfg, MessageFromRecord(RecordAt(w.sh.broker, Pos(tp, o))), None)
        || (o in h.dlqOff && !cfg.dlqEnabled)
        || (o in h.skippedCompleted + h.skippedInProgress && cfg.store.Some?)
        || HasCopy(w, Pos(tp, o)))
  }

  /** No committed offset is lost: with any mix of handler failures, crashes, restarts,
      revocations, cancellations, closing and fencing, in either guarantee and under every
      ordering, every offset below the group's is accounted for, unless its own route was
      refused because the broker was fenced. */
  lemma NothingCommittedIsLost(cfg: Config, labels: seq<Label>, tp: TP, o: int)
    requires cfg.groupID != ""
    requires 0 <= o < Committed(cfg, Run(cfg, labels), tp)
    ensures Accounted(cfg, Run(cfg, labels), tp, o) || o in HistOf(Run(cfg, labels), tp).fenceRefused
  {
    RunInv(cfg, labels);
    hide LookupOk, SameMessage, Run;
    var w := Run(cfg, labels);
    var s := SliceOf(w, tp);
    assert PartInv(cfg, s);
    assert o in s.hist.Settled();
    if o in s.hist.routed { assert HasCopy(w, Pos(tp, o)); }
    if o in s.hist.noHandler { assert MessageAt(s.log, o) == MessageFromRecord(RecordAt(w.sh.broker, Pos(tp, o))); }
  }

  /** A stored offset is accounted for exactly when it was decided or its message has no handler. */
  lemma DecidedIsAccounted(cfg: Config, w: World, tp: TP, o: int)
    requires Inv(cfg, w) && InLog(w.sh.broker, Pos(tp, o))
    ensures Accounted(cfg, w, tp, o) <==>
      o in HistOf(w, tp).Decided() || LookupOk(cfg, MessageFromRecord(RecordAt(w.sh.broker, Pos(tp, o))), None)
  {
    hide LookupOk, MessageFromRecord, OriginInjective, SameMessage;
    assert PartInv(cfg, SliceOf(w, tp));
    if HasCopy(w, Pos(tp, o)) {
      var d :| d in w.origin && w.origin[d] == Pos(tp, o);
      assert o in HistOf(w, tp).routed;
    }
    if o in HistOf(w, tp).routed { assert HasCopy(w, Pos(tp, o)); }
  }

  ghost predicate NeverFenced(labels: seq<Label>) { forall l :: l in labels ==> !(l.SetFenced? && l.fenced) }

  /** Nothing was refused, and the broker is not fenced. */
  ghost predicate Unrefused(w: World) {
    !w.sh.broker.fenced && forall tp :: HistOf(w, tp).fenceRefused == {}
  }

  lemma RefusalNeedsFence(cfg: Config, perKey: bool, sh: Shared, pc: PC, c: Choice)
    requires Busy(pc) && WellFormed(sh.broker) && BusyStep(cfg, perKey, sh, pc, c).event.FenceRefused?
    ensures sh.broker.fenced
  {
    hide Append, ApplyTxn, Destination, Lists, Log, WellFormed, RetryMessage, AttachRetry, LookupOk, Raise,
      Claims.TryStartCall;
  }

  lemma StepUnrefused(cfg: Config, w: World, l: Label)
    requires Inv(cfg, w) && cfg.groupID != "" && Unrefused(w) && !(l.SetFenced? && l.fenced)
    ensures WellFormed(w.sh.broker) && Unrefused(Step(cfg, w, l))
  {
    hide Inv, Step, BusyStep, WorkStep, FlagStep, EnqueueStep, PollStep, OutsideEffect, WellFormed, ApplyToHist,
      ApplyToCalls, OffsetsRise;
    InvWellFormed(cfg, w);
    StepIs(cfg, w, l);
    if l.Work? && w.live && l.tp in w.workers && Busy(w.workers[l.tp].pc) {
      BusyUnrefused(cfg, w, l.tp, l.choice);
    } else {
      QuietUnrefused(cfg, w, l);
    }
  }

  lemma BusyUnrefused(cfg: Config, w: World, tp: TP, c: Choice)
    requires BusyMove(cfg, w, tp, c) && Unrefused(w)
    ensures WellFormed(w.sh.broker) && Unrefused(WorkStep(cfg, w, tp, c))
  {
    hide Inv, BusyStep, WellFormed, ApplyToCalls;
    InvWellFormed(cfg, w);
    var wk := w.workers[tp];
    BusyFrame(cfg, w, tp, c);
    var e := BusyStep(cfg, wk.perKey, w.sh, wk.pc, c);
    if e.event.FenceRefused? { RefusalNeedsFence(cfg, wk.perKey, w.sh, wk.pc, c); }
    var w' := AfterEffect(w, tp, wk, e);
    forall q ensures HistOf(w', q).fenceRefused == {} {
      assert HistOf(w, q).fenceRefused == {};
    }
  }

  lemma SameHist(w: World, w': World)
    requires Unrefused(w) && w'.hist == w.hist && !w'.sh.broker.fenced
    ensures Unrefused(w')
  {
    assert forall q :: HistOf(w', q) == HistOf(w, q);
  }

  lemma QuietUnrefused(cfg: Config, w: World, l: Label)
    requires WellFormed(w.sh.broker) && Unrefused(w) && !(l.SetFenced? && l.fenced)
    requires !(l.Work? && w.live && l.tp in w.workers && Busy(w.workers[l.tp].pc))
    ensures Unrefused(Step(cfg, w, l))
  {
    hide WellFormed, Step, PollTarget, OrderingOk, MessageFromRecord, BusyStep, AfterEffect, OutsideEffect, Unrefused,
      FlagStep, WorkStep, EnqueueStep;
    StepIs(cfg, w, l);
    NotFenced(w);
    if IsOutside(l) {
      OutsideBrokerMoves(cfg, w.sh.broker, l);
    } else if l.Stop? || l.Restart? {
      RestHist(cfg, w, l);
    } else if l.Work? {
      IdleHist(cfg, w, l.tp, l.choice);
    } else {
      FlagHist(cfg, w, l);
    }
    SameHist(w, Step(cfg, w, l));
  }

  lemma NotFenced(w: World)
    requires Unrefused(w)
    ensures !w.sh.broker.fenced
  {
  }

  lemma RestHist(cfg: Config, w: World, l: Label)
    requires WellFormed(w.sh.broker) && (l.Stop? || l.Restart?)
    ensures var w' := Step(cfg, w, l); w'.hist == w.hist && w'.sh.broker.fenced == w.sh.broker.fenced
  {
    hide WellFormed;
  }

  lemma IdleHist(cfg: Config, w: World, tp: TP, c: Choice)
    requires WellFormed(w.sh.broker) && !(w.live && tp in w.workers && Busy(w.workers[tp].pc))
    ensures var w' := WorkStep(cfg, w, tp, c); w'.hist == w.hist && w'.sh == w.sh
  {
    hide WellFormed, BusyStep, AfterEffect;
  }

  lemma FlagHist(cfg: Config, w: World, l: Label)
    ensures IsFlag(l) ==>
      FlagStep(w, l).hist == w.hist && (l.SetFenced? || FlagStep(w, l).sh.broker.fenced == w.sh.broker.fenced)
    ensures l.SetFenced? ==> FlagStep(w, l).sh.broker.fenced == l.fenced
    ensures PollStep(w).hist == w.hist && PollStep(w).sh.broker == w.sh.broker
    ensures l.Enqueue? ==> EnqueueStep(cfg, w, l.ordering).hist == w.hist && EnqueueStep(cfg, w, l.ordering).sh == w.sh
  {
    hide PollTarget, MessageFromRecord, OrderingOk;
  }

  lemma {:induction false} NothingRefused(cfg: Config, labels: seq<Label>)
    requires cfg.groupID != "" && NeverFenced(labels)
    ensures Unrefused(Run(cfg, labels))
  {
    hide Inv, Step, Unrefused, Run;
    if labels == [] {
      RunStart(cfg);
      NothingRefusedYet(cfg);
    } else {
      RunStep(cfg, labels);
      var init, l := labels[..|labels| - 1], labels[|labels| - 1];
      assert l in labels && forall k :: k in init ==> k in labels;
      NothingRefused(cfg, init);
      RunInv(cfg, init);
      StepUnrefused(cfg, Run(cfg, init), l);
    }
  }

  lemma NothingRefusedYet(cfg: Config)
    ensures Unrefused(StartWorld(cfg))
  {
  }

  /** On a broker that is never fenced, nothing committed is ever lost. */
  lemma UnfencedLosesNothing(cfg: Config, labels: seq<Label>, tp: TP, o: int)
    requires cfg.groupID != "" && NeverFenced(labels)
    requires 0 <= o < Committed(cfg, Run(cfg, labels), tp)
    ensures Accounted(cfg, Run(cfg, labels), tp, o)
  {
    hide Accounted, Run;
    NothingCommittedIsLost(cfg, labels, tp, o);
    NothingRefused(cfg, labels);
  }

  /** Every routed record is a faithful copy of the message at its source offset. */
  lemma RoutedRecordsAreCopies(cfg: Config, labels: seq<Label>, d: Pos)
    requires cfg.groupID != "" && d in Run(cfg, labels).origin
    ensures var w := Run(cfg, labels); var src := w.origin[d];
      && InLog(w.sh.broker, d) && InLog(w.sh.broker, src)
      && SameMessage(RecordAt(w.sh.broker, src), RecordAt(w.sh.broker, d))
  {
    RunInv(cfg, labels);
  }

  /** Transactional mode routes at most once, in every run, fenced or not: two routed records
      never share a source, and a source that was routed lies below the group's offset. */
  lemma TransactionalRoutesOnce(cfg: Config, labels: seq<Label>, d1: Pos, d2: Pos)
    requires cfg.groupID != "" && cfg.guarantee.Transactional?
    requires d1 in Run(cfg, labels).origin && d2 in Run(cfg, labels).origin
    ensures var w := Run(cfg, labels);
      && (w.origin[d1] == w.origin[d2] ==> d1 == d2)
      && 0 <= w.origin[d1].offset < Committed(cfg, w, w.origin[d1].tp)
  {
    RunInv(cfg, labels);
    var w := Run(cfg, labels);
    var src := w.origin[d1];
    assert PartInv(cfg, SliceOf(w, src.tp));
    assert src.offset in HistOf(w, src.tp).routed;
  }

  /** Within one subscription the handler calls of a partition are strictly ordered by
      (offset, attempt): no two calls overlap, no offset is revisited, and an offset is
      called again only for a later in-place attempt. */
  lemma CallsAreSequential(cfg: Config, labels: seq<Label>, tp: TP)
    requires cfg.groupID != ""
    ensures Ascending(CallsOf(Run(cfg, labels), tp))
  {
    RunInv(cfg, labels);
    assert PartInv(cfg, SliceOf(Run(cfg, labels), tp));
  }

  /** committed <= fetched <= log length, for every partition the subscription has read. */
  lemma OffsetsAreOrdered(cfg: Config, labels: seq<Label>, tp: TP)
    requires cfg.groupID != "" && tp in Run(cfg, labels).sh.sub.fetch
    ensures var w := Run(cfg, labels);
      0 <= Committed(cfg, w, tp) <= w.sh.sub.fetch[tp] <= |Log(w.sh.broker, tp)|
  {
    RunInv(cfg, labels);
    assert PartInv(cfg, SliceOf(Run(cfg, labels), tp));
  }

  // ---- monotone offsets ----

  ghost predicate OffsetsRise(cfg: Config, w: World, w': World) {
    && (forall tp :: Committed(cfg, w, tp) <= Committed(cfg, w', tp))
    && LogsGrow(w.sh.broker, w'.sh.broker)
  }

  lemma BusyRises(cfg: Config, w: World, tp: TP, c: Choice)
    requires BusyMove(cfg, w, tp, c)
    ensures var wk := w.workers[tp]; OffsetsRise(cfg, w,
                                                 AfterEffect(w, tp, wk, BusyStep(cfg, wk.perKey, w.sh, wk.pc, c)))
  {
    hide HandlerStep, RouteStep, CommitStep, PartInv, RoutingOk, OriginSound, OriginComplete, OriginInjective, SliceOf,
      WellFormed;
    BusyFrame(cfg, w, tp, c);
    BusyJob(cfg, w, tp, c);
    var wk := w.workers[tp];
    var e := BusyStep(cfg, wk.perKey, w.sh, wk.pc, c);
    if wk.pc.RoutingOut? {
      PartRouting(cfg, SliceOf(w, tp));
      RouteStepOutcome(cfg, wk.perKey, Later(w.sh, c), wk.pc, c);
    } else if wk.pc.Committing? {
      CommitStepOutcome(cfg, wk.perKey, Later(w.sh, c), wk.pc);
    } else {
      HandlerStepOutcome(cfg, wk.perKey, Later(w.sh, c), wk.pc, c);
    }
  }

  lemma StepRises(cfg: Config, w: World, l: Label)
    requires Inv(cfg, w) && cfg.groupID != ""
    ensures OffsetsRise(cfg, w, Step(cfg, w, l))
  {
    hide Inv, PollStep, EnqueueStep, BusyStep, AfterEffect, FlagStep, StopStep, RestartStep, Log, GroupOffset,
      WellFormed;
    InvWellFormed(cfg, w);
    var w' := Step(cfg, w, l);
    if IsOutside(l) {
      OutsideMoves(cfg, w, l);
    } else if IsFlag(l) {
      FlagMoves(cfg, w, l);
    } else {
      match l {
        case Poll => if w' != w { PollSlices(w, TP("", 0)); } else { SameLogs(w, w'); }
        case Enqueue(o) =>
          SameLogs(w, w);
          if w' != w {
            var m, wk := EnqueueShape(cfg, w, o);
            EnqueueSlices(w, w', m, wk, TPOf(m));
          }
        case Work(tp, c) =>
          SameLogs(w, w);
          if w.live && tp in w.workers && Busy(w.workers[tp].pc) { BusyRises(cfg, w, tp, c); }
        case Stop => StopRests(cfg, w); SameLogs(w, w');
        case Restart(topics) =>
          SameLogs(w, w);
          if w' != w { RestartRests(cfg, w, topics); SameLogs(w, w'); }
      }
    }
  }

  lemma SameLogs(w: World, w': World)
    requires w'.sh.broker.topics == w.sh.broker.topics
    ensures LogsGrow(w.sh.broker, w'.sh.broker)
  {
    assert forall q :: Log(w'.sh.broker, q) == Log(w.sh.broker, q);
  }

  /** Over any continuation of any run the group's offsets never fall and no record changes. */
  lemma {:induction false} OffsetsNeverFall(cfg: Config, labels: seq<Label>, more: seq<Label>)
    requires cfg.groupID != ""
    ensures OffsetsRise(cfg, Run(cfg, labels), Run(cfg, labels + more))
    decreases |more|
  {
    hide Inv, OffsetsRise, WellFormed, Run;
    if more == [] {
      assert labels + more == labels;
      RisesReflexive(cfg, Run(cfg, labels));
    } else {
      var init, last := more[..|more| - 1], more[|more| - 1];
      OffsetsNeverFall(cfg, labels, init);
      assert (labels + more)[..|labels + more| - 1] == labels + init;
      RunStep(cfg, labels + more);
      var w := Run(cfg, labels + init);
      RunInv(cfg, labels + init);
      StepRises(cfg, w, last);
      assert Run(cfg, labels + more) == Step(cfg, w, last);
      RisesTransitive(cfg, Run(cfg, labels), w, Step(cfg, w, last));
    }
  }

  lemma RisesReflexive(cfg: Config, w: World)
    ensures OffsetsRise(cfg, w, w)
  {
  }

  lemma RisesTransitive(cfg: Config, a: World, b: World, c: World)
    requires OffsetsRise(cfg, a, b) && OffsetsRise(cfg, b, c)
    ensures OffsetsRise(cfg, a, c)
  {
    forall q ensures Log(a.sh.broker, q) <= Log(c.sh.broker, q) {
      assert Log(a.sh.broker, q) <= Log(b.sh.broker, q) <= Log(c.sh.broker, q);
    }
    forall tp ensures Committed(cfg, a, tp) <= Committed(cfg, c, tp) {
      assert Committed(cfg, a, tp) <= Committed(cfg, b, tp) <= Committed(cfg, c, tp);
    }
  }

  // ---- deliveries ----

  function PosOf(rec: Record): Pos { Pos(TP(rec.topic, rec.partition), rec.offset) }

  /** The poll delivered a record of `tp`. */
  predicate Delivers(w: World, l: Label, tp: TP) {
    l.Poll? && PollStep(w) != w && PollStep(w).polled.Some? && PosOf(PollStep(w).polled.value).tp == tp
  }

  /** A label that ends the subscription or starts a new one. */
  predicate Resubscribes(cfg: Config, w: World, l: Label) {
    l.Stop? || (l.Restart? && RestartStep(cfg, w, l.topics) != w)
  }

  /** The offsets of `tp` the current subscription has been given, in order. */
  ghost function Deliveries(cfg: Config, labels: seq<Label>, tp: TP): seq<int> {
    if labels == [] then []
    else
      var init, l := labels[..|labels| - 1], labels[|labels| - 1];
      var w := Run(cfg, init);
      if Resubscribes(cfg, w, l) then []
      else if Delivers(w, l, tp) then Deliveries(cfg, init, tp) + [PosOf(PollStep(w).polled.value).offset]
      else Deliveries(cfg, init, tp)
  }

  /** The group's offset of `tp` when the current subscription was first given a record of it. */
  ghost function FirstDelivery(cfg: Config, labels: seq<Label>, tp: TP): int {
    if labels == [] then 0
    else
      var init, l := labels[..|labels| - 1], labels[|labels| - 1];
      var w := Run(cfg, init);
      if Delivers(w, l, tp) && Deliveries(cfg, init, tp) == [] then Committed(cfg, w, tp)
      else FirstDelivery(cfg, init, tp)
  }

  lemma PollDelivers(cfg: Config, w: World)
    requires Inv(cfg, w) && PollStep(w) != w
    ensures var w' := PollStep(w);
      && w'.polled.Some?
      && var d := PosOf(w'.polled.value);
         && d.offset == NextFetch(w.sh.broker, w.sh.sub, d.tp)
         && InLog(w.sh.broker, d) && w'.polled.value == RecordAt(w.sh.broker, d)
         && w'.sh.sub.fetch == w.sh.sub.fetch[d.tp := d.offset + 1]
  {
    hide PartInv, OriginSound, OriginComplete, OriginInjective, PollTarget;
    PollTargetIsFirst(w.sh.broker, w.sh.sub);
    var tp := PollTarget(w.sh.broker, w.sh.sub).value;
    assert LogOk(Log(w.sh.broker, tp), tp);
  }

  lemma BusyKeepsSub(cfg: Config, w: World, tp: TP, c: Choice)
    requires BusyMove(cfg, w, tp, c)
    ensures BusyStep(cfg, w.workers[tp].perKey, w.sh, w.workers[tp].pc, c).sh.sub == w.sh.sub
  {
    hide BusyStep, PartInv, WellFormed, OriginSound, OriginComplete, OriginInjective;
    BusyFrame(cfg, w, tp, c);
  }

  lemma OthersKeepFetch(cfg: Config, w: World, l: Label)
    requires Inv(cfg, w) && cfg.groupID != "" && !l.Poll?
    ensures Step(cfg, w, l).sh.sub.fetch == if Resubscribes(cfg, w, l) then map[] else w.sh.sub.fetch
  {
    hide Inv, Step, BusyStep, WorkStep, FlagStep, EnqueueStep, OutsideEffect, WellFormed, Resubscribes;
    InvWellFormed(cfg, w);
    StepIs(cfg, w, l);
    if l.Stop? || l.Restart? {
      NewSubscription(cfg, w, l);
    } else {
      NotResubscribing(cfg, w, l);
      if l.Work? {
        if w.live && l.tp in w.workers && Busy(w.workers[l.tp].pc) {
          BusyKeepsSub(cfg, w, l.tp, l.choice);
          BusyWork(cfg, w, l.tp, l.choice);
        } else {
          IdleWork(cfg, w, l.tp, l.choice);
        }
      } else {
        FlagsKeepFetch(cfg, w, l);
      }
    }
  }

  lemma NotResubscribing(cfg: Config, w: World, l: Label)
    ensures !l.Stop? && !l.Restart? ==> !Resubscribes(cfg, w, l)
  {
  }

  lemma NewSubscription(cfg: Config, w: World, l: Label)
    requires WellFormed(w.sh.broker) && (l.Stop? || l.Restart?)
    ensures Step(cfg, w, l).sh.sub.fetch == if Resubscribes(cfg, w, l) then map[] else w.sh.sub.fetch
  {
    hide WellFormed;
  }

  lemma FlagsKeepFetch(cfg: Config, w: World, l: Label)
    ensures IsFlag(l) ==> FlagStep(w, l).sh.sub.fetch == w.sh.sub.fetch
    ensures l.Enqueue? ==> EnqueueStep(cfg, w, l.ordering).sh == w.sh
  {
    hide MessageFromRecord, OrderingOk;
  }

  /** `d` counts up from `first`, and the subscription reads on where it ends. */
  ghost predicate Consecutive(d: seq<int>, first: int, fetch: map<TP, int>, tp: TP) {
    && (forall i :: 0 <= i < |d| ==> d[i] == first + i)
    && (d == [] <==> tp !in fetch)
    && (d != [] ==> fetch[tp] == first + |d|)
  }

  lemma PollExtends(cfg: Config, w: World, d: seq<int>, first: int, tp: TP)
    requires Inv(cfg, w) && Consecutive(d, first, w.sh.sub.fetch, tp)
    ensures var w' := PollStep(w);
      if Delivers(w, Poll, tp) then
        Consecutive(d + [PosOf(w'.polled.value).offset], if d == [] then Committed(cfg, w, tp) else first,
                    w'.sh.sub.fetch, tp)
      else Consecutive(d, first, w'.sh.sub.fetch, tp)
  {
    if PollStep(w) != w { PollDelivers(cfg, w); }
    hide Inv, PollStep;
    assert w.sh.sub.groupID == cfg.groupID by { InvGroup(cfg, w); }
  }

  lemma InvGroup(cfg: Config, w: World)
    requires Inv(cfg, w)
    ensures w.sh.sub.groupID == cfg.groupID
  {
  }

  /** Every subscription is given each partition's records without gap, repeat or reorder,
      starting at the group offset in force when it first got one. */
  lemma {:induction false} DeliveriesAreConsecutive(cfg: Config, labels: seq<Label>, tp: TP)
    requires cfg.groupID != ""
    ensures Consecutive(Deliveries(cfg, labels, tp), FirstDelivery(cfg, labels, tp), Run(cfg, labels).sh.sub.fetch, tp)
  {
    hide Inv, WellFormed, Step, Consecutive, Resubscribes, RestartStep, PollStep, Run;
    if labels == [] {
      RunStart(cfg);
      NothingDelivered(cfg, tp);
    } else {
      var init, l := labels[..|labels| - 1], labels[|labels| - 1];
      RunStep(cfg, labels);
      var w := Run(cfg, init);
      DeliveriesAreConsecutive(cfg, init, tp);
      RunInv(cfg, init);
      NoneConsecutive(FirstDelivery(cfg, init, tp), tp);
      if l.Poll? {
        StepIs(cfg, w, l);
        NotResubscribing(cfg, w, l);
        PollExtends(cfg, w, Deliveries(cfg, init, tp), FirstDelivery(cfg, init, tp), tp);
      } else {
        OthersKeepFetch(cfg, w, l);
      }
    }
  }

  lemma NothingDelivered(cfg: Config, tp: TP)
    ensures Consecutive([], 0, StartWorld(cfg).sh.sub.fetch, tp)
  {
  }

  lemma NoneConsecutive(first: int, tp: TP)
    ensures Consecutive([], first, map[], tp)
  {
  }
}
