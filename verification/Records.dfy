/** The idempotency store's records over a run of the consumer: each key's record is what the
    last event of that key made it. So a key that was failed, dropped or never claimed is
    granted to the next worker that asks, and a routed retry reaches its handler. */
module Records {
  import opened Wrappers
  import opened Envelope
  import opened Config
  import opened Routing
  import opened Broker
  import opened Protocol
  import opened Safety
  import opened Runs
  import opened Actions
  import opened Exclusion
  import opened Guarantees
  import opened Drain
  import opened Deduplication
  import Claims
  import Leases
  import Timing

  /** The last thing that happened to the key. */
  function LastOf(h: seq<Claims.Event>, key: string): Option<Claims.Event> {
    if h == [] then None
    else if h[|h| - 1].key == key then Some(h[|h| - 1])
    else LastOf(h[..|h| - 1], key)
  }

  /** The key's record is there, or not, in the state its last event left it. */
  predicate RecordFollows(items: Claims.Items, h: seq<Claims.Event>, key: string) {
    match LastOf(h, key)
    case None => key !in items
    case Some(Removal(_, _)) => key !in items
    case Some(Claim(_, _)) => key in items && items[key].state == Claims.Processing
    case Some(Completion(_, _)) => key in items && items[key].state == Claims.Completed
    case Some(Failure(_)) => key in items && items[key].state == Claims.Failed
  }

  ghost predicate RecordsFollow(w: World) { forall key :: RecordFollows(w.sh.items, w.storeLog, key) }

  lemma LastOfMore(h: seq<Claims.Event>, e: Claims.Event, key: string)
    ensures LastOf(h + [e], key) == if e.key == key then Some(e) else LastOf(h, key)
  {
    assert (h + [e])[..|h|] == h;
  }

  /** An event and the record it is about; every other record stays. */
  lemma FollowMore(items: Claims.Items, items': Claims.Items, h: seq<Claims.Event>, e: Claims.Event, key: string)
    requires RecordFollows(items, h, key)
    requires e.key != key ==> (key in items' <==> key in items) && (key in items ==> items'[key] == items[key])
    requires e.key == key ==> match e
      case Removal(_, _) => key !in items'
      case Claim(_, _) => key in items' && items'[key].state == Claims.Processing
      case Completion(_, _) => key in items' && items'[key].state == Claims.Completed
      case Failure(_) => key in items' && items'[key].state == Claims.Failed
    ensures RecordFollows(items', h + [e], key)
  {
    LastOfMore(h, e, key);
  }

  /** What an action tells the store is what it does to the records. */
  lemma BusyFollows(cfg: Config, w: World, tp: TP, wk: Worker, c: Choice, e: Effect)
    requires cfg.store.Some? && Busy(wk.pc) && RecordsFollow(w) && PcLinked(cfg, wk.pc)
    requires SameToStore(cfg, w.sh.items, wk.pc, c, e)
    ensures RecordsFollow(AfterEffect(w, tp, wk, e))
  {
    hide ApplyToHist, ApplyToLife, ApplyToCalls, Claims.TryStartCall;
    var w' := AfterEffect(w, tp, wk, e);
    if e.told == [] {
      assert w'.storeLog == w.storeLog && w'.sh.items == w.sh.items;
    } else {
      if wk.pc.Asking? { Claims.ClaimMeansFree(cfg.store.value, cfg.ttl, w.sh.items, wk.pc.call); }
      forall key ensures RecordFollows(w'.sh.items, w'.storeLog, key) {
        FollowMore(w.sh.items, w'.sh.items, w.storeLog, e.told[0], key);
      }
    }
  }

  lemma QuietFollows(w: World, w': World, l: Label)
    requires RecordsFollow(w) && QuietToStore(w, w', l)
    ensures RecordsFollow(w')
  {
    hide LogsGrow;
    if l.Evict? {
      forall key ensures RecordFollows(w'.sh.items, w'.storeLog, key) {
        FollowMore(w.sh.items, w'.sh.items, w.storeLog, Claims.Removal(l.key, w.sh.clock), key);
      }
    }
  }

  lemma StepFollows(cfg: Config, w: World, l: Label)
    requires Inv(cfg, w) && cfg.groupID != "" && cfg.store.Some? && Linked(cfg, w) && RecordsFollow(w)
    ensures WellFormed(w.sh.broker) && RecordsFollow(Step(cfg, w, l))
  {
    hide Inv, Step, WellFormed, BusyStep, AfterEffect, RecordsFollow, QuietToStore, SameToStore, Means, PcLinked;
    InvWellFormed(cfg, w);
    if l.Work? && w.live && l.tp in w.workers && Busy(w.workers[l.tp].pc) {
      var wk := w.workers[l.tp];
      BusyMeans(cfg, wk.perKey, w.sh, wk.pc, l.choice);
      BusyFollows(cfg, w, l.tp, wk, l.choice, BusyStep(cfg, wk.perKey, w.sh, wk.pc, l.choice));
      BusyWorkStep(cfg, w, l);
    } else {
      QuietShape(cfg, w, l);
      QuietFollows(w, Step(cfg, w, l), l);
    }
  }

  lemma StartFollows(cfg: Config)
    ensures RecordsFollow(StartWorld(cfg))
  {
  }

  /** In every world of every run each record is what the last event of its key made it. */
  lemma {:induction false} RunFollows(cfg: Config, labels: seq<Label>)
    requires cfg.groupID != "" && cfg.store.Some?
    ensures RecordsFollow(Run(cfg, labels))
  {
    hide Inv, Step, Run, RecordsFollow, Linked;
    if labels == [] {
      RunStart(cfg);
      StartFollows(cfg);
    } else {
      var init := labels[..|labels| - 1];
      RunStep(cfg, labels);
      RunInv(cfg, init);
      RunLinked(cfg, init);
      RunFollows(cfg, init);
      StepFollows(cfg, Run(cfg, init), labels[|labels| - 1]);
    }
  }

  // ---- what the next worker that asks is told ----

  /** Nothing stands against handling a message with this ID: it was never claimed, or its last
      claim failed, or its record was dropped. */
  predicate Untaken(h: seq<Claims.Event>, id: string) {
    LastOf(h, id).None? || LastOf(h, id).value.Failure? || LastOf(h, id).value.Removal?
  }

  /** `k` actions of the worker in a row, with nobody in between and no error of the store. */
  function Again(tp: TP, k: nat): seq<Label> { seq(k, _ => Work(tp, NO_CHOICE)) }

  /** The worker is where its TryStart's answer sends it, at the same time: into the handler,
      or past the message, which then counts as completed before. */
  ghost predicate Answered(w: World, w': World, tp: TP, job: Message, logical: string, lease: Time,
                           answer: Claims.Result) {
    && w'.live && tp in w'.workers && w'.sh.clock == w.sh.clock
    && (answer.Proceed? ==>
          && w'.workers[tp].pc == Handling(job, job, logical, job.RetryAttempt(), Some(lease))
          && CallsOf(w', tp) == CallsOf(w, tp) + [Call(job.offset, job.RetryAttempt(), w.sh.clock)])
    && (answer.SkipCompleted? ==>
          && w'.workers[tp].pc == ToCommit(job) && CallsOf(w', tp) == CallsOf(w, tp)
          && job.offset in HistOf(w', tp).skippedCompleted)
  }

  lemma OneMore(cfg: Config, labels: seq<Label>, tp: TP, k: nat)
    requires k > 0
    ensures Run(cfg, labels + Again(tp, k)) == Run(cfg, labels + [Work(tp, NO_CHOICE)] + Again(tp, k - 1))
  {
    assert labels + Again(tp, k) == labels + [Work(tp, NO_CHOICE)] + Again(tp, k - 1);
  }

  /** One action of a busy worker at the end of a run. */
  lemma Acts(cfg: Config, labels: seq<Label>, tp: TP)
    requires var w := Run(cfg, labels); w.live && tp in w.workers && Busy(w.workers[tp].pc)
    ensures var w := Run(cfg, labels); var wk := w.workers[tp];
      Run(cfg, labels + [Work(tp, NO_CHOICE)]) ==
      AfterEffect(w, tp, wk, BusyStep(cfg, wk.perKey, w.sh, wk.pc, NO_CHOICE))
  {
    hide Run, Step, BusyStep, AfterEffect, WellFormed;
    var all := labels + [Work(tp, NO_CHOICE)];
    assert all[..|all| - 1] == labels;
    RunStep(cfg, all);
    BusyWorkStep(cfg, Run(cfg, labels), Work(tp, NO_CHOICE));
  }

  /** Left alone, TryStart's calls come to the answer the records call for. */
  lemma {:induction false} AskedAlone(cfg: Config, labels: seq<Label>, tp: TP, job: Message, logical: string,
                                      call: Claims.PC) returns (k: nat)
    requires cfg.store.Some?
    requires var w := Run(cfg, labels);
      w.live && tp in w.workers && w.workers[tp].pc == Asking(job, logical, call)
    ensures var w := Run(cfg, labels); var answer := Claims.Alone(cfg.store.value, cfg.ttl, w.sh.items, call).result;
      && 1 <= k <= Claims.Remaining(call) + 1 && answer.Some?
      && Answered(w, Run(cfg, labels + Again(tp, k)), tp, job, logical, call.now + cfg.ttl, answer.value)
    decreases Claims.Remaining(call)
  {
    hide Run, BusyStep, WellFormed, Claims.TryStartCall, Again, AfterEffect;
    var w, a := Run(cfg, labels), cfg.store.value;
    var wk := w.workers[tp];
    Acts(cfg, labels, tp);
    AskOnce(cfg, wk.perKey, w.sh, wk.pc);
    Claims.CallShape(a, cfg.ttl, w.sh.items, call);
    Claims.CallKeepsClock(a, cfg.ttl, w.sh.items, call);
    var e := BusyStep(cfg, wk.perKey, w.sh, wk.pc, NO_CHOICE);
    EffectShows(w, tp, wk, e);
    var r := Claims.TryStartCall(a, cfg.ttl, w.sh.items, call);
    if r.next.Some? {
      var more := AskedAlone(cfg, labels + [Work(tp, NO_CHOICE)], tp, job, logical, r.next.value);
      k := more + 1;
      OneMore(cfg, labels, tp, k);
    } else {
      k := 1;
      OneMore(cfg, labels, tp, k);
      assert labels + [Work(tp, NO_CHOICE)] + Again(tp, 0) == labels + [Work(tp, NO_CHOICE)] by { NoneAgain(tp); }
    }
  }

  lemma NoneAgain(tp: TP)
    ensures Again(tp, 0) == []
  {
  }

  lemma EffectShows(w: World, tp: TP, wk: Worker, e: Effect)
    requires Busy(wk.pc)
    ensures var w' := AfterEffect(w, tp, wk, e);
      && w'.live == w.live && tp in w'.workers && w'.workers[tp].pc == e.pc && w'.sh == e.sh
      && CallsOf(w', tp) == ApplyToCalls(CallsOf(w, tp), e, wk.pc.job.offset)
      && (e.event.DecidedSkipCompleted? ==> wk.pc.job.offset in HistOf(w', tp).skippedCompleted)
  {
  }

  lemma EntersClaim(cfg: Config, labels: seq<Label>, tp: TP)
    requires var w := Run(cfg, labels);
      w.live && tp in w.workers && w.workers[tp].pc.Claiming? && UsesStore(cfg, w.workers[tp].pc.job)
    ensures var w := Run(cfg, labels); var pc := w.workers[tp].pc;
      var w' := Run(cfg, labels + [Work(tp, NO_CHOICE)]);
      && w'.live && tp in w'.workers && w'.sh == w.sh && CallsOf(w', tp) == CallsOf(w, tp)
      && w'.workers[tp].pc == Asking(pc.job, pc.logical, Claims.Sampled(pc.job.id, w.sh.clock))
  {
    hide Run, BusyStep, WellFormed, AfterEffect;
    var w := Run(cfg, labels);
    var wk := w.workers[tp];
    Acts(cfg, labels, tp);
    ClaimStep(cfg, wk.perKey, w.sh, wk.pc);
    EffectShows(w, tp, wk, BusyStep(cfg, wk.perKey, w.sh, wk.pc, NO_CHOICE));
  }

  /** In every run: a worker about to claim, with nobody in between, is told what the last event
      of the message's ID means. An ID that was never claimed, that failed, or whose record was
      dropped is granted, and the handler is called, within four actions; one that was
      completed is skipped. */
  lemma LastEventDecides(cfg: Config, labels: seq<Label>, tp: TP) returns (k: nat)
    requires cfg.groupID != ""
    requires var w := Run(cfg, labels);
      w.live && tp in w.workers && w.workers[tp].pc.Claiming? && UsesStore(cfg, w.workers[tp].pc.job)
    ensures 2 <= k <= 4
    ensures var w := Run(cfg, labels); var Claiming(job, logical) := w.workers[tp].pc;
      var w', lease := Run(cfg, labels + Again(tp, k)), w.sh.clock + cfg.ttl;
      && (Untaken(w.storeLog, job.id) ==> Answered(w, w', tp, job, logical, lease, Claims.Proceed))
      && (LastOf(w.storeLog, job.id).Some? && LastOf(w.storeLog, job.id).value.Completion? ==>
            Answered(w, w', tp, job, logical, lease, Claims.SkipCompleted))
  {
    hide Run, WellFormed, Again;
    var w := Run(cfg, labels);
    var Claiming(job, logical) := w.workers[tp].pc;
    RunFollows(cfg, labels);
    assert RecordFollows(w.sh.items, w.storeLog, job.id);
    EntersClaim(cfg, labels, tp);
    var call := Claims.Sampled(job.id, w.sh.clock);
    var more := AskedAlone(cfg, labels + [Work(tp, NO_CHOICE)], tp, job, logical, call);
    Leases.AloneIsAtomic(cfg.store.value, cfg.ttl, w.sh.items, job.id, w.sh.clock);
    k := more + 1;
    OneMore(cfg, labels, tp, k);
  }

  /** The store's Fail, unless it errs itself, leaves the ID untaken. */
  lemma FailIsRecorded(cfg: Config, labels: seq<Label>, tp: TP)
    requires cfg.groupID != "" && cfg.store.Some?
    requires var w := Run(cfg, labels); w.live && tp in w.workers && w.workers[tp].pc.Failing?
    ensures var id := Run(cfg, labels).workers[tp].pc.job.id;
      LastOf(Run(cfg, labels + [Work(tp, NO_CHOICE)]).storeLog, id) == Some(Claims.Failure(id))
  {
    hide Run, BusyStep, WellFormed, Linked, PcLinked, Means;
    var w := Run(cfg, labels);
    var wk := w.workers[tp];
    RunLinked(cfg, labels);
    WorkerLinked(cfg, w, tp);
    Acts(cfg, labels, tp);
    BusyMeans(cfg, wk.perKey, w.sh, wk.pc, NO_CHOICE);
    LastOfMore(w.storeLog, Claims.Failure(wk.pc.job.id), wk.pc.job.id);
  }

  lemma WorkerLinked(cfg: Config, w: World, tp: TP)
    requires Linked(cfg, w) && tp in w.workers
    ensures PcLinked(cfg, w.workers[tp].pc)
  {
    hide PcLinked, Known;
  }

  /** So a routed message whose source's failure was the last the store heard of its ID is
      handled: the copy carries the ID, and the store grants it, with every adapter. */
  lemma FailedRetryIsHandled(cfg: Config, labels: seq<Label>, tp: TP) returns (k: nat)
    requires cfg.groupID != ""
    requires var w := Run(cfg, labels);
      w.live && tp in w.workers && w.workers[tp].pc.Claiming? && UsesStore(cfg, w.workers[tp].pc.job)
    requires var w := Run(cfg, labels); Pos(tp, w.workers[tp].pc.job.offset) in w.origin
    requires var w := Run(cfg, labels); var src := w.origin[Pos(tp, w.workers[tp].pc.job.offset)];
      InLog(w.sh.broker, src)
      && var id := MessageFromRecord(RecordAt(w.sh.broker, src)).id; LastOf(w.storeLog, id) == Some(Claims.Failure(id))
    ensures 2 <= k <= 4
    ensures var w := Run(cfg, labels); var Claiming(job, logical) := w.workers[tp].pc;
      Answered(w, Run(cfg, labels + Again(tp, k)), tp, job, logical, w.sh.clock + cfg.ttl, Claims.Proceed)
  {
    hide Run, WellFormed, Again, MessageFromRecord, Answered, Inv, LastOf, UsesStore, Log;
    var w := Run(cfg, labels);
    RunInv(cfg, labels);
    Timing.JobPlace(cfg, w, tp);
    RoutedRecordsAreCopies(cfg, labels, Pos(tp, w.workers[tp].pc.job.offset));
    k := LastEventDecides(cfg, labels, tp);
  }
}
