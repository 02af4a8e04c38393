/** A partition worker of consumer.go as structured, imperative code over the broker
    objects: partitionLoop, partitionLoopPerKey, process, processInPlace, failAndRoute,
    routeTerminal, publishOutcome, publishTransactional, commit, waitNotBefore.

    Between any two atomic actions the rest of the system may act (`Yield`): other
    producers, other workers, the dispatcher, revocation, cancellation, closing, fencing.
    Every atomic action is logged with the state before it; the object invariant says that
    the log is a run of the protocol's worker machine, interrupted only by interference.
    The contracts here say what one worker does amid any interference, also amid some that
    no run of the whole system shows; what holds over whole runs is proved of the machine. */
module Consumer {
  import opened Wrappers
  import opened Envelope
  import opened Config
  import opened Routing
  import opened Broker
  import opened MemoryDriver
  import opened Protocol
  import opened Safety
  import opened Actions
  import Claims

  /** What somebody else does between two actions of this worker. */
  datatype Disturbance =
    | PublishElsewhere(rec: Record)
    | CommitElsewhere(other: TP, next: int)
    | BeginElsewhere
    | PollElsewhere
    | LockElsewhere(held: bool)
    | RevokePart(part: TP)
    | CancelContext
    | CloseTheBroker
    | CloseTheSub
    | Fence(fenced: bool)
    | Tick(elapsed: nat)
    | StoreElsewhere(items: Claims.Items)

  /** A call on the idempotency store; TryStart's answer is None when it failed. */
  datatype StoreCall = Started(id: string, answer: Option<Claims.Result>) | Completed(id: string) | Failed(id: string)

  /** One message's use of the store: none without an ID; a claim, and one verdict at most. The
      handler runs exactly when the answer was Proceed, a skip is exactly what the store
      answered, and Complete is called exactly when the handler succeeded. */
  predicate StoreUsed(cfg: Config, id: string, used: seq<StoreCall>, calls: nat, decided: seq<Event>) {
    if cfg.store.None? || id == "" then used == []
    else
      && (used != [] ==> used[0].Started? && used[0].id == id)
      && (|used| > 1 ==> calls > 0 && (used == [used[0], Completed(id)] || used == [used[0], Failed(id)]))
      && (calls > 0 <==> used != [] && used[0].answer == Some(Claims.Proceed))
      && (decided == [DecidedSkipCompleted] <==> used == [Started(id, Some(Claims.SkipCompleted))])
      && (decided == [DecidedSkipInProgress] <==> used == [Started(id, Some(Claims.SkipInProgress))])
      && (decided == [DecidedHandled] <==> |used| == 2 && used[1] == Completed(id))
  }

  /** A failed message's end: routed, dropped because dead letters are off, or nothing yet. */
  predicate GivenAway(decided: seq<Event>) {
    decided == [] || (|decided| == 1 && (decided[0].Routed? || decided[0].DecidedDlqOff?))
  }

  /** After the handler has run under a claim: Complete if it succeeded, else Fail unless it was cut short. */
  predicate VerdictGiven(lease: Option<Time>, id: string, before: seq<StoreCall>, after: seq<StoreCall>,
                         decided: seq<Event>) {
    && (decided == [DecidedHandled] || GivenAway(decided))
    && (if lease.None? then after == before
        else if decided == [DecidedHandled] then after == before + [Completed(id)]
        else after == before || after == before + [Failed(id)])
  }

  lemma StoreUse(cfg: Config, id: string, lease: Option<Time>, start: seq<StoreCall>, before: seq<StoreCall>,
                 after: seq<StoreCall>, calls: nat, decided: seq<Event>)
    requires lease.Some? <==> cfg.store.Some? && id != ""
    requires before == if lease.Some? then start + [Started(id, Some(Claims.Proceed))] else start
    requires VerdictGiven(lease, id, before, after, decided) && calls > 0
    ensures start <= after && StoreUsed(cfg, id, after[|start|..], calls, decided)
  {
    assert start <= before <= after;
    if lease.Some? { assert after[|start|..] == [Started(id, Some(Claims.Proceed))] + after[|before|..]; }
  }

  /** TryStart's answer: a claim with its lease, done before, taken by another, or an error. */
  datatype Grant = Granted(lease: Option<Time>) | Done | Taken | Broken(err: string)
  {
    function Answer(): Option<Claims.Result> {
      match this
      case Granted(_) => Some(Claims.Proceed)
      case Done => Some(Claims.SkipCompleted)
      case Taken => Some(Claims.SkipInProgress)
      case Broken(_) => None
    }
  }

  datatype RouteError = PartitionRevoked | Driver(error: BrokerError)

  class Worker {
    const cfg: Config
    const tp: TP
    const perKey: bool
    const mem: Memory
    const sub: MemSub
    var cancelled: bool
    var txnHeld: bool
    var mine: bool  // this worker holds txnMu
    var clock: Time
    var items: Claims.Items  // the store's records

    // what the environment will choose, action by action
    const others: nat -> seq<Disturbance>
    const failureAt: nat -> Option<string>
    const storeErrorAt: nat -> Option<string>
    const stopAt: nat -> bool
    var n: nat
    var store: seq<StoreCall>  // this worker's calls on the store, in order

    ghost var pc: PC
    ghost var log: seq<Action>
    ghost var started: seq<Message>

    constructor (cfg: Config, tp: TP, perKey: bool, mem: Memory, sub: MemSub, others: nat -> seq<Disturbance>,
                 clock: Time, items: Claims.Items, failureAt: nat -> Option<string>,
                 storeErrorAt: nat -> Option<string>,
                 stopAt: nat -> bool)
      requires mem.Valid() && sub.broker == mem && sub.groupID == cfg.groupID && cfg.groupID in mem.groups
      requires forall q :: q in sub.fetch ==> sub.fetch[q] >= 0
      ensures Ok() && pc == Idle && log == [] && started == [] && store == []
    {
      this.cfg, this.tp, this.perKey, this.mem, this.sub := cfg, tp, perKey, mem, sub;
      this.others, this.failureAt, this.storeErrorAt, this.stopAt := others, failureAt, storeErrorAt, stopAt;
      this.clock, this.items := clock, items;
      cancelled, txnHeld, mine, n, store := false, false, false, 0, [];
      pc, log, started := Idle, [], [];
    }

    function Now(): Shared
      reads this, mem, sub
    {
      Shared(mem.State(), sub.State(), cancelled, txnHeld, clock, items)
    }

    ghost predicate Ok()
      reads this, mem, sub
    {
      && mem.Valid() && sub.broker == mem && sub.groupID == cfg.groupID && cfg.groupID in mem.groups
      && (forall q :: q in sub.fetch ==> sub.fetch[q] >= 0)
      && (HoldsLock(pc) <==> mine) && (mine ==> txnHeld)
      && LogRuns(cfg, tp, perKey, log, pc, Now())
    }

    /** The group's offset of this worker's partition; others never move it. */
    function OwnOffset(): int
      reads this, mem
    {
      GroupOffset(mem.State(), cfg.groupID, tp)
    }

    // ---- the rest of the system ----

    /** The broker's state moved within what others may do to it. */
    ghost method Disturbed(before: Shared)
      requires Interferes(cfg.groupID, tp, HoldsLock(pc), before, Now()) && LogRuns(cfg, tp, perKey, log, pc, before)
      requires mem.Valid() && sub.broker == mem && sub.groupID == cfg.groupID && cfg.groupID in mem.groups
      requires forall q :: q in sub.fetch ==> sub.fetch[q] >= 0
      requires (HoldsLock(pc) <==> mine) && (mine ==> txnHeld)
      ensures Ok() && before.clock <= clock && OwnOffset() == GroupOffset(before.broker, cfg.groupID, tp)
    {
      hide LogRuns, WellFormed, LogsGrow, GroupOffset, HoldsLock;
      Stretch(cfg, tp, perKey, log, pc, before, Now());
    }

    predicate OnBroker(d: Disturbance) {
      d.PublishElsewhere? || d.CommitElsewhere? || d.BeginElsewhere? || d.CloseTheBroker? || d.Fence?
    }

    method DisturbBroker(d: Disturbance)
      requires Ok() && OnBroker(d)
      modifies mem
      ensures Ok() && OwnOffset() == old(OwnOffset())
    {
      hide LogRuns, WellFormed, Append, Raise, LogsGrow, GroupOffset, HoldsLock;
      ghost var before := Now();
      match d {
        case PublishElsewhere(rec) =>
          AppendGrows(cfg.groupID, tp, mem.State(), rec);
          mem.AppendLocked(rec, 0);
        case CommitElsewhere(other, next) =>
          if other != tp {
            RaiseElsewhere(cfg.groupID, tp, mem.State(), other, next);
            mem.RaiseLocked(cfg.groupID, other, next);
          }
        case BeginElsewhere =>
          var _, _ := mem.BeginLocked();
        case CloseTheBroker => mem.Close();
        case Fence(fenced) => mem.SetFenced(fenced);
      }
      SameDataGrows(cfg.groupID, tp, before.broker, mem.State());
      Disturbed(before);
    }

    method Disturb(d: Disturbance)
      requires Ok()
      modifies this`cancelled, this`txnHeld, this`clock, this`items, mem, sub
      ensures Ok() && OwnOffset() == old(OwnOffset()) && old(clock) <= clock
    {
      hide LogRuns, WellFormed, LogsGrow, GroupOffset, PollTarget, HoldsLock;
      if OnBroker(d) {
        DisturbBroker(d);
        return;
      }
      ghost var before := Now();
      match d {
        case PollElsewhere =>
          var _, _ := sub.TryPoll();
        case LockElsewhere(held) =>
          if !mine { txnHeld := held; }
        case RevokePart(part) => sub.Revoke(part.topic, part.partition);
        case CancelContext => cancelled := true;
        case CloseTheSub => sub.Close();
        case Tick(elapsed) => clock := clock + elapsed;
        case StoreElsewhere(after) => items := after;
      }
      SameDataGrows(cfg.groupID, tp, before.broker, mem.State());
      Disturbed(before);
    }

    /** Any finite number of moves of the rest of the system. */
    method Yield()
      requires Ok()
      modifies this`cancelled, this`txnHeld, this`clock, this`items, this`n, mem, sub
      ensures Ok() && OwnOffset() == old(OwnOffset()) && old(clock) <= clock
    {
      hide LogRuns, WellFormed, GroupOffset;
      var batch := others(n);
      n := n + 1;
      for i := 0 to |batch|
        invariant Ok() && OwnOffset() == old(OwnOffset()) && old(clock) <= clock
      {
        Disturb(batch[i]);
      }
    }

    // ---- actions ----

    /** Logs the action just done: the machine, from `before` and the worker's program counter,
        does exactly what happened to the shared state. */
    ghost method Record(before: Shared, c: Choice)
      requires Busy(pc) && WellFormed(before.broker) && LogRuns(cfg, tp, perKey, log, pc, before)
      requires mem.Valid() && sub.broker == mem && sub.groupID == cfg.groupID && cfg.groupID in mem.groups
      requires forall q :: q in sub.fetch ==> sub.fetch[q] >= 0
      requires var e := BusyStep(cfg, perKey, before, pc, c);
        Now() == e.sh && (HoldsLock(e.pc) <==> mine) && (mine ==> txnHeld)
      modifies this`pc, this`log
      ensures Ok()
      ensures var e := BusyStep(cfg, perKey, before, old(pc), c);
        && pc == e.pc && log == old(log) + [Action(before, old(pc), c, e)]
        && Trace(log) == Trace(old(log)) + Shown(e.event)
    {
      hide BusyStep, Interferes, WellFormed, LogRuns, Trace;
      var a := Action(before, pc, c, BusyStep(cfg, perKey, before, pc, c));
      Appends(cfg, tp, perKey, log, pc, before, a);
      log := log + [a];
      pc := a.effect.pc;
    }

    /** An idle worker takes the next job of its channel. */
    ghost method Begin(job: Message)
      requires Ok() && pc.Idle?
      modifies this`pc, this`started
      ensures Ok() && pc == Starting(job) && started == old(started) + [job] && OwnOffset() == old(OwnOffset())
    {
      hide BusyStep, Interferes, WellFormed;
      pc := Starting(job);
      started := started + [job];
      assert !HoldsLock(Idle) && !HoldsLock(pc);
    }

    /** One Assigned check, wherever the code makes one. */
    method CheckAssigned(job: Message) returns (owned: bool)
      requires Ok() && IsCheck(pc) && pc.job == job && TPOf(job) == tp
      modifies this`cancelled, this`txnHeld, this`clock, this`items, this`n, this`pc, this`log, mem, sub
      ensures Ok() && OwnOffset() == old(OwnOffset()) && Trace(log) == Trace(old(log))
      ensures pc == if owned then AfterCheck(cfg, old(pc)) else CheckFailed(old(pc), perKey)
    {
      hide LogRuns, WellFormed, HandlerStep, GroupOffset, Trace;
      Yield();
      ghost var s := Now();
      owned := sub.Assigned(job.topic, job.partition);
      CheckStep(cfg, perKey, s, pc);
      Record(s, NO_CHOICE);
    }

    /** One look at the context, wherever the code takes one on its own. */
    method CheckContext() returns (over: bool)
      requires Ok() && IsContextCheck(pc)
      modifies this`cancelled, this`txnHeld, this`clock, this`items, this`n, this`pc, this`log, mem, sub
      ensures Ok() && OwnOffset() == old(OwnOffset()) && Trace(log) == Trace(old(log))
      ensures pc == if over then CheckFailed(old(pc), perKey) else AfterCheck(cfg, old(pc))
    {
      hide LogRuns, WellFormed, HandlerStep, GroupOffset, Trace;
      Yield();
      ghost var s := Now();
      over := cancelled;
      ContextStep(cfg, perKey, s, pc);
      Record(s, NO_CHOICE);
    }

    // ---- commit ----

    /** commit: the group's offset is raised past the job exactly when commit succeeds. */
    method Commit(job: Message, ghost drain: bool) returns (err: Outcome<RouteError>)
      requires Ok() && pc == Committing(job, FirstCheck, drain) && TPOf(job) == tp
      modifies this`cancelled, this`txnHeld, this`clock, this`items, this`n, this`pc, this`log, mem, sub
      ensures Ok() && pc == AfterCommit(job, drain, perKey)
      ensures OwnOffset() == if err.Pass? && job.offset + 1 > old(OwnOffset()) then job.offset + 1 else old(OwnOffset())
      ensures Trace(log) == Trace(old(log))
    {
      hide LogRuns, WellFormed, HandlerStep, RouteStep, Raise, GroupOffset, Trace;
      var owned := CheckAssigned(job);
      if !owned { return Fail(PartitionRevoked); }
      var over := CheckContext();
      if over { return Fail(Driver(ErrContext)); }
      owned := CheckAssigned(job);
      if !owned { return Fail(Driver(ErrRevoked)); }
      err := ApplyCommit(job);
    }

    /** memSub.Commit's locked region. */
    method ApplyCommit(job: Message) returns (err: Outcome<RouteError>)
      requires Ok() && pc.Committing? && pc.commitStage.ApplyOffset? && pc.job == job && TPOf(job) == tp
      modifies this`cancelled, this`txnHeld, this`clock, this`items, this`n, this`pc, this`log, mem, sub
      ensures Ok() && pc == AfterCommit(job, old(pc).drain, perKey)
      ensures OwnOffset() == if err.Pass? && job.offset + 1 > old(OwnOffset()) then job.offset + 1 else old(OwnOffset())
      ensures Trace(log) == Trace(old(log))
    {
      hide LogRuns, WellFormed, BusyStep, Raise, GroupOffset, Trace;
      Yield();
      var rec := RecordFromMessage(job);
      ApplyStep(cfg, perKey, Now(), pc);
      ghost var s := Now();
      var e := sub.CommitLocked(rec);
      Record(s, NO_CHOICE);
      return if e.Fail? then Fail(Driver(e.error)) else Pass;
    }

    // ---- routing ----

    /** publishOutcome: in transactional mode it succeeds exactly when the copy was appended,
        and then the offset was committed with it; otherwise neither happened. In
        at-least-once mode success means the copy was appended and then the offset committed,
        and no offset is ever committed without a copy. */
    method PublishOutcome(job: Message, out: Message) returns (err: Outcome<RouteError>)
      requires Ok() && pc == RoutingOut(job, out, OutcomeCheck, NO_TXN) && TPOf(job) == tp && cfg.groupID != ""
      modifies this`cancelled, this`txnHeld, this`clock, this`items, this`mine, this`n, this`pc, this`log, mem, sub
      ensures Ok() && pc == Finish(job, perKey)
      ensures Trace(log) == Trace(old(log)) || RoutedOnce(Trace(old(log)), Trace(log))
      ensures err.Pass? ==> RoutedOnce(Trace(old(log)), Trace(log))
      ensures cfg.guarantee.Transactional? && err.Fail? ==> Trace(log) == Trace(old(log))
      ensures OwnOffset() == if err.Pass? && job.offset + 1 > old(OwnOffset()) then job.offset + 1 else old(OwnOffset())
    {
      hide Ok, OwnOffset, Now, Trace;
      var owned := CheckAssigned(job);
      if !owned { return Fail(PartitionRevoked); }
      if cfg.guarantee == Transactional {
        ghost var txn;
        err, txn := PublishTransactional(job, out);
        return;
      }
      var over := CheckContext();
      if over { return Fail(Driver(ErrContext)); }
      err := ApplyPublish(job, out);
      if err.Pass? { err := Commit(job, false); }
    }

    /** Memory.Publish's locked region. */
    method ApplyPublish(job: Message, out: Message) returns (err: Outcome<RouteError>)
      requires Ok() && pc == RoutingOut(job, out, PublishApply, NO_TXN)
      modifies this`cancelled, this`txnHeld, this`clock, this`items, this`n, this`pc, this`log, mem, sub
      ensures Ok() && OwnOffset() == old(OwnOffset())
      ensures pc == if err.Pass? then ToCommit(job) else Finish(job, perKey)
      ensures if err.Pass? then RoutedOnce(Trace(old(log)), Trace(log)) else Trace(log) == Trace(old(log))
    {
      hide Ok, OwnOffset, Now, Trace;
      Yield();
      var rec := RecordFromMessage(out);
      err := PublishCopy(job, out, rec);
    }

    method PublishCopy(job: Message, out: Message, rec: Record) returns (err: Outcome<RouteError>)
      requires Ok() && pc == RoutingOut(job, out, PublishApply, NO_TXN)
      requires Lists(rec.headers, out.headers) && rec == RecordWith(out, rec.headers)
      modifies this`pc, this`log, mem
      ensures Ok() && OwnOffset() == old(OwnOffset())
      ensures pc == if err.Pass? then ToCommit(job) else Finish(job, perKey)
      ensures if err.Pass? then RoutedOnce(Trace(old(log)), Trace(log)) else Trace(log) == Trace(old(log))
    {
      hide Trace, LogRuns, WellFormed, BusyStep, Append, GroupOffset, Lists, LogsGrow, RecordWith, Stored;
      PublishApplyStep(cfg, perKey, cfg.groupID, tp, Now(), pc, rec.headers);
      ghost var s := Now();
      var e := mem.PublishLocked(rec);
      Record(s, NO_CHOICE.(headers := rec.headers));
      return if e.Fail? then Fail(Driver(e.error)) else Pass;
    }

    /** publishTransactional: nil exactly when the copy was appended, together with the
        offset; a transaction that was begun is finished on every path. */
    method PublishTransactional(job: Message, out: Message) returns (err: Outcome<RouteError>, ghost begun: MemTxn?)
      requires Ok() && pc == RoutingOut(job, out, TxnCheck, NO_TXN) && TPOf(job) == tp && cfg.groupID != ""
      modifies this`cancelled, this`txnHeld, this`clock, this`items, this`mine, this`n, this`pc, this`log, mem, sub
      ensures Ok() && pc == Finish(job, perKey)
      ensures if err.Pass? then RoutedOnce(Trace(old(log)), Trace(log)) else Trace(log) == Trace(old(log))
      ensures OwnOffset() == if err.Pass? && job.offset + 1 > old(OwnOffset()) then job.offset + 1 else old(OwnOffset())
      ensures err.Pass? ==> begun != null
      ensures begun != null ==> fresh(begun) && begun.done
    {
      hide Ok, OwnOffset, Now, Trace;
      var owned := CheckAssigned(job);
      if !owned { return Fail(PartitionRevoked), null; }
      LockTxn();
      var txn;
      err, txn := BeginTxn();
      if err.Fail? { return err, null; }
      err := FillTxn(txn, job, out);
      if err.Pass? { err := CommitTxn(txn); }
      if err.Fail? { AbortTxn(txn); }
      return err, txn;
    }

    /** From the begun transaction to the last ownership check; every failure is aborted. */
    method FillTxn(txn: MemTxn, job: Message, out: Message) returns (err: Outcome<RouteError>)
      requires Ok() && pc.RoutingOut? && pc.stage.AfterBeginCheck? && pc.job == job && pc.out == out && TPOf(job) == tp
      requires Buffering(txn) && txn.publishes == [] && txn.offsets == []
      modifies this`cancelled, this`txnHeld, this`clock, this`items, this`n, this`pc, this`log, mem, sub, txn
      ensures Ok() && OwnOffset() == old(OwnOffset()) && Trace(log) == Trace(old(log))
      ensures pc.RoutingOut? && pc.job == job && Buffering(txn)
      ensures pc.stage == if err.Pass? then CommitContext else Aborting
      ensures err.Pass? ==> |txn.publishes| == 1 && txn.groupID == cfg.groupID
      ensures err.Pass? ==> txn.offsets == [Offset(job.topic, job.partition, job.offset)]
    {
      hide Ok, OwnOffset, Now, Trace;
      var owned := CheckAssigned(job);
      if !owned { return Fail(PartitionRevoked); }
      err := FillBuffers(txn, job, out);
      if err.Fail? { return err; }
      owned := CheckAssigned(job);
      if !owned { return Fail(PartitionRevoked); }
    }

    /** The copy, then the consumed offset. */
    method FillBuffers(txn: MemTxn, job: Message, out: Message) returns (err: Outcome<RouteError>)
      requires Ok() && pc.RoutingOut? && pc.stage.TxnPublish? && pc.job == job && pc.out == out
      requires Buffering(txn) && txn.publishes == [] && txn.offsets == []
      modifies this`cancelled, this`txnHeld, this`clock, this`items, this`n, this`pc, this`log, mem, sub, txn
      ensures Ok() && OwnOffset() == old(OwnOffset()) && Trace(log) == Trace(old(log))
      ensures pc.RoutingOut? && pc.job == job && Buffering(txn)
      ensures pc.stage == if err.Pass? then BeforeCommitCheck else Aborting
      ensures err.Pass? ==> |txn.publishes| == 1 && txn.groupID == cfg.groupID
      ensures err.Pass? ==> txn.offsets == [Offset(job.topic, job.partition, job.offset)]
    {
      hide Ok, OwnOffset, Now, Trace;
      err := BufferCopy(txn, out);
      if err.Pass? { err := BufferOffset(txn, job); }
    }

    /** txnMu.Lock: returns once nobody else holds the lock. */
    method LockTxn()
      requires Ok() && pc.RoutingOut? && pc.stage.TxnLock?
      modifies this`cancelled, this`txnHeld, this`clock, this`items, this`mine, this`n, this`pc, this`log, mem, sub
      ensures Ok() && OwnOffset() == old(OwnOffset()) && Trace(log) == Trace(old(log))
      ensures pc == old(pc).(stage := BeginContext)
    {
      hide LogRuns, WellFormed, BusyStep, GroupOffset, Trace;
      Yield();
      AwaitLock();
      LockStep(cfg, perKey, Now(), pc);
      ghost var s := Now();
      txnHeld, mine := true, true;
      Record(s, NO_CHOICE);
    }

    /** Whoever held the lock has released it. */
    method AwaitLock()
      requires Ok() && !mine
      modifies this`txnHeld
      ensures Ok() && OwnOffset() == old(OwnOffset()) && !txnHeld
    {
      hide LogRuns, WellFormed, GroupOffset;
      ghost var s := Now();
      txnHeld := false;
      SameDataGrows(cfg.groupID, tp, s.broker, mem.State());
      Stretch(cfg, tp, perKey, log, pc, s, Now());
    }

    /** BeginTxn; on failure the deferred unlock ends publishTransactional. */
    method BeginTxn() returns (err: Outcome<RouteError>, txn: MemTxn?)
      requires Ok() && pc.RoutingOut? && pc.stage.BeginContext?
      modifies this`cancelled, this`txnHeld, this`clock, this`items, this`mine, this`n, this`pc, this`log, mem, sub
      ensures Ok() && OwnOffset() == old(OwnOffset()) && Trace(log) == Trace(old(log))
      ensures err.Fail? ==> pc == Finish(old(pc).job, perKey)
      ensures err.Pass? ==> txn != null && fresh(txn) && txn.broker == mem && Buffering(txn)
      ensures err.Pass? ==>
        pc == old(pc).(stage := AfterBeginCheck, txn := txn.State()) && txn.publishes == [] && txn.offsets == []
    {
      hide LogRuns, WellFormed, BusyStep, GroupOffset, Trace;
      Yield();
      BeginContextStep(cfg, perKey, Now(), pc);
      ghost var s := Now();
      if cancelled {
        txnHeld, mine := false, false;
        Record(s, NO_CHOICE);
        return Fail(Driver(ErrContext)), null;
      }
      Record(s, NO_CHOICE);
      err, txn := ApplyBegin();
    }

    method ApplyBegin() returns (err: Outcome<RouteError>, txn: MemTxn?)
      requires Ok() && pc.RoutingOut? && pc.stage.BeginApply?
      modifies this`cancelled, this`txnHeld, this`clock, this`items, this`mine, this`n, this`pc, this`log, mem, sub
      ensures Ok() && OwnOffset() == old(OwnOffset()) && Trace(log) == Trace(old(log))
      ensures err.Fail? ==> pc == Finish(old(pc).job, perKey)
      ensures err.Pass? ==> txn != null && fresh(txn) && txn.broker == mem && Buffering(txn)
      ensures err.Pass? ==>
        pc == old(pc).(stage := AfterBeginCheck, txn := txn.State()) && txn.publishes == [] && txn.offsets == []
    {
      hide LogRuns, WellFormed, BusyStep, GroupOffset, Trace;
      Yield();
      BeginApplyStep(cfg, perKey, Now(), pc);
      ghost var s := Now();
      var e;
      e, txn := mem.BeginLocked();
      SameDataGrows(cfg.groupID, tp, s.broker, mem.State());
      if e.Fail? {
        txnHeld, mine := false, false;
        Record(s, NO_CHOICE);
        return Fail(Driver(e.error)), null;
      }
      Record(s, NO_CHOICE);
      return Pass, txn;
    }

    ghost predicate Buffering(txn: MemTxn)
      reads this, txn
    {
      txn.broker == mem && !txn.done && pc.RoutingOut? && txn.State() == pc.txn
    }

    /** txn.Publish */
    method BufferCopy(txn: MemTxn, out: Message) returns (err: Outcome<RouteError>)
      requires Ok() && pc.RoutingOut? && pc.stage.TxnPublish? && pc.out == out && Buffering(txn)
      modifies this`cancelled, this`txnHeld, this`clock, this`items, this`n, this`pc, this`log, mem, sub, txn
      ensures Ok() && OwnOffset() == old(OwnOffset()) && Trace(log) == Trace(old(log))
      ensures Buffering(txn)
      ensures err.Fail? ==> pc == old(pc).(stage := Aborting)
      ensures err.Pass? ==> pc == old(pc).(stage := TxnOffsets, txn := txn.State())
      ensures err.Pass? ==> |txn.publishes| == |old(txn.publishes)| + 1 && txn.offsets == old(txn.offsets)
    {
      hide LogRuns, WellFormed, BusyStep, GroupOffset, Trace;
      Yield();
      var rec := RecordFromMessage(out);
      TxnPublishStep(cfg, perKey, Now(), pc, rec.headers);
      ghost var s := Now();
      var e := txn.Publish(cancelled, rec);
      Record(s, NO_CHOICE.(headers := rec.headers));
      return if e.Fail? then Fail(Driver(e.error)) else Pass;
    }

    /** txn.SendOffsets */
    method BufferOffset(txn: MemTxn, job: Message) returns (err: Outcome<RouteError>)
      requires Ok() && pc.RoutingOut? && pc.stage.TxnOffsets? && pc.job == job && Buffering(txn)
      modifies this`cancelled, this`txnHeld, this`clock, this`items, this`n, this`pc, this`log, mem, sub, txn
      ensures Ok() && OwnOffset() == old(OwnOffset()) && Trace(log) == Trace(old(log))
      ensures Buffering(txn)
      ensures err.Fail? ==> pc == old(pc).(stage := Aborting)
      ensures err.Pass? ==> pc == old(pc).(stage := BeforeCommitCheck, txn := txn.State())
      ensures err.Pass? ==>
        txn.offsets == old(txn.offsets) + [Offset(job.topic, job.partition, job.offset)] && txn.groupID == cfg.groupID
      ensures err.Pass? ==> txn.publishes == old(txn.publishes)
    {
      hide LogRuns, WellFormed, BusyStep, GroupOffset, Trace;
      Yield();
      TxnOffsetsStep(cfg, perKey, Now(), pc);
      ghost var s := Now();
      var e := txn.SendOffsets(cancelled, [Offset(job.topic, job.partition, job.offset)], cfg.groupID);
      Record(s, NO_CHOICE);
      return if e.Fail? then Fail(Driver(e.error)) else Pass;
    }

    /** abort: the transaction is finished and the lock released. */
    method AbortTxn(txn: MemTxn)
      requires Ok() && pc.RoutingOut? && pc.stage.Aborting?
      modifies this`cancelled, this`txnHeld, this`clock, this`items, this`mine, this`n, this`pc, this`log, mem, sub, txn
      ensures Ok() && OwnOffset() == old(OwnOffset()) && Trace(log) == Trace(old(log))
      ensures pc == Finish(old(pc).job, perKey) && txn.done
    {
      hide LogRuns, WellFormed, BusyStep, GroupOffset, Trace;
      Yield();
      AbortStep(cfg, perKey, Now(), pc);
      ghost var s := Now();
      var _ := txn.Abort(false);
      txnHeld, mine := false, false;
      Record(s, NO_CHOICE);
    }

    /** txn.Commit */
    method CommitTxn(txn: MemTxn) returns (err: Outcome<RouteError>)
      requires Ok() && pc.RoutingOut? && pc.stage.CommitContext? && Buffering(txn) && TPOf(pc.job) == tp
      requires |txn.publishes| == 1 && txn.groupID == cfg.groupID != ""
      requires txn.offsets == [Offset(pc.job.topic, pc.job.partition, pc.job.offset)]
      modifies this`cancelled, this`txnHeld, this`clock, this`items, this`mine, this`n, this`pc, this`log, mem, sub, txn
      ensures Ok()
      ensures err.Fail? ==> pc.RoutingOut? && pc == old(pc).(stage := Aborting)
      ensures err.Fail? ==> OwnOffset() == old(OwnOffset()) && Trace(log) == Trace(old(log))
      ensures err.Pass? ==> pc == Finish(old(pc).job, perKey) && RoutedOnce(Trace(old(log)), Trace(log)) && txn.done
      ensures err.Pass? ==>
        OwnOffset() == if old(pc).job.offset + 1 > old(OwnOffset()) then old(pc).job.offset + 1 else old(OwnOffset())
    {
      hide LogRuns, WellFormed, GroupOffset, Trace;
      var over := CheckContext();
      if over {
        var _ := txn.Abort(false);
        return Fail(Driver(ErrContext));
      }
      err := ApplyTxnCommit(txn);
    }

    method ApplyTxnCommit(txn: MemTxn) returns (err: Outcome<RouteError>)
      requires Ok() && pc.RoutingOut? && pc.stage.CommitApply? && Buffering(txn) && TPOf(pc.job) == tp
      requires |txn.publishes| == 1 && txn.groupID == cfg.groupID != ""
      requires txn.offsets == [Offset(pc.job.topic, pc.job.partition, pc.job.offset)]
      modifies this`cancelled, this`txnHeld, this`clock, this`items, this`mine, this`n, this`pc, this`log, mem, sub, txn
      ensures Ok()
      ensures err.Fail? ==> pc.RoutingOut? && pc == old(pc).(stage := Aborting)
      ensures err.Fail? ==> OwnOffset() == old(OwnOffset()) && Trace(log) == Trace(old(log))
      ensures err.Pass? ==> pc == Finish(old(pc).job, perKey) && RoutedOnce(Trace(old(log)), Trace(log)) && txn.done
      ensures err.Pass? ==>
        OwnOffset() == if old(pc).job.offset + 1 > old(OwnOffset()) then old(pc).job.offset + 1 else old(OwnOffset())
    {
      hide Ok, OwnOffset, Now, Trace;
      Yield();
      err := ApplyTxnLocked(txn);
    }

    method ApplyTxnLocked(txn: MemTxn) returns (err: Outcome<RouteError>)
      requires Ok() && pc.RoutingOut? && pc.stage.CommitApply? && Buffering(txn) && TPOf(pc.job) == tp
      requires |txn.publishes| == 1 && txn.groupID == cfg.groupID != ""
      requires txn.offsets == [Offset(pc.job.topic, pc.job.partition, pc.job.offset)]
      modifies this`txnHeld, this`mine, this`pc, this`log, mem, txn
      ensures Ok()
      ensures err.Fail? ==> pc.RoutingOut? && pc == old(pc).(stage := Aborting)
      ensures err.Fail? ==> OwnOffset() == old(OwnOffset()) && Trace(log) == Trace(old(log))
      ensures err.Pass? ==> pc == Finish(old(pc).job, perKey) && RoutedOnce(Trace(old(log)), Trace(log)) && txn.done
      ensures err.Pass? ==>
        OwnOffset() == if old(pc).job.offset + 1 > old(OwnOffset()) then old(pc).job.offset + 1 else old(OwnOffset())
    {
      hide LogRuns, WellFormed, BusyStep, GroupOffset, ApplyTxn, Trace, LogsGrow;
      ApplyTxnStep(cfg, perKey, Now(), pc);
      ghost var s := Now();
      var e := txn.CommitLocked();
      if e.Pass? { txnHeld, mine := false, false; }
      Record(s, NO_CHOICE);
      return if e.Fail? then Fail(Driver(e.error)) else Pass;
    }

    // ---- process ----

    /** failAndRoute: a retry on its way, or the terminal route; at most one decision, and the
        offset moves with one. */
    method FailAndRoute(job: Message, logical: string, err: string, ghost before: seq<Event>)
      returns (ghost decided: seq<Event>)
      requires Ok() && TPOf(job) == tp && cfg.groupID != ""
      requires var e := Protocol.FailAndRoute(cfg, Now(), job, logical, err, clock);
        pc == e.pc && Trace(log) == before + Shown(e.event)
      modifies this`cancelled, this`txnHeld, this`clock, this`items, this`mine, this`n, this`pc, this`log, mem, sub
      ensures Ok() && pc == Finish(job, perKey)
      ensures Trace(log) == before + decided && GivenAway(decided)
      ensures OwnOffset() == old(OwnOffset()) || (OwnOffset() == job.offset + 1 && decided != [])
    {
      hide Trace, LogRuns, WellFormed, GroupOffset, Protocol.RouteTerminal, RetryMessage;
      FailAndRouteShape(cfg, Now(), job, logical, err, clock);
      var attempt := job.RetryAttempt();
      if attempt >= MaxFor(cfg, logical) {
        decided := RouteTerminal(job, logical, attempt, err, before);
        return;
      }
      var next := attempt + 1;
      var delay := DelayFor(cfg, logical, next);
      var out := BuildRetryMessage(job, cfg.namer.retry(logical, next), next, err, delay, clock);
      var e := PublishOutcome(job, out);
      decided := Trace(log)[|before|..];
    }

    method RouteTerminal(job: Message, logical: string, attempt: int, err: string, ghost before: seq<Event>)
      returns (ghost decided: seq<Event>)
      requires Ok() && TPOf(job) == tp && cfg.groupID != ""
      requires var e := Protocol.RouteTerminal(cfg, Now(), job, logical, attempt, err, clock);
        pc == e.pc && Trace(log) == before + Shown(e.event)
      modifies this`cancelled, this`txnHeld, this`clock, this`items, this`mine, this`n, this`pc, this`log, mem, sub
      ensures Ok() && pc == Finish(job, perKey)
      ensures Trace(log) == before + decided && GivenAway(decided)
      ensures OwnOffset() == old(OwnOffset()) || (OwnOffset() == job.offset + 1 && decided != [])
    {
      hide Trace, LogRuns, WellFormed, GroupOffset, Protocol.RouteTerminal, RetryMessage;
      RouteTerminalShape(cfg, Now(), job, logical, attempt, err, clock);
      if !cfg.dlqEnabled {
        var _ := Commit(job, false);
        return [DecidedDlqOff];
      }
      var out := BuildRetryMessage(job, cfg.namer.dlq(logical), attempt, err, 0, clock);
      var e := PublishOutcome(job, out);
      decided := Trace(log)[|before|..];
    }

    /** process: at most one look-up, then consecutive handler calls, then at most one
        decision; the group's offset only moves past this message, and only once the message
        is decided. */
    method Process(job: Message) returns (ghost found: Option<string>, ghost calls: nat, ghost decided: seq<Event>)
      requires Ok() && pc == Starting(job) && TPOf(job) == tp && cfg.groupID != ""
      modifies this`store, this`cancelled, this`txnHeld, this`clock, this`items, this`mine, this`n, this`pc, this`log,
        mem, sub
      ensures Ok() && pc == Finish(job, perKey)
      ensures LookupOk(cfg, job, found)
      ensures old(store) <= store && StoreUsed(cfg, job.id, store[|old(store)|..], calls, decided)
      ensures OneMessage(Trace(old(log)), Trace(log), job.RetryAttempt(), calls, decided)
      ensures calls <= if found.Some? then CallBound(cfg, found.value, job.RetryAttempt()) else 0
      ensures found.None? ==> decided == [DecidedNoHandler]
      ensures OwnOffset() == old(OwnOffset()) || (OwnOffset() == job.offset + 1 && decided != [])
    {
      hide Ok, OwnOffset, Now, Trace, LookupOk, CallBound, Protocol.FailAndRoute, MaxFor, RetriesInPlace;
      var answer := FindHandler(job);
      found := answer;
      if answer.None? {
        var _ := Commit(job, false);
        NoCalls(Trace(old(log)), Trace(log), job.RetryAttempt(), [DecidedNoHandler]);
        return found, 0, [DecidedNoHandler];
      }
      var logical := answer.value;
      var over := WaitNotBefore(job, logical);
      if over {
        NoCalls(Trace(old(log)), Trace(log), job.RetryAttempt(), []);
        return found, 0, [];
      }
      calls, decided := StartAndRun(job, logical);
    }

    /** The idempotency claim and what it lets through. */
    method StartAndRun(job: Message, logical: string) returns (ghost calls: nat, ghost decided: seq<Event>)
      requires Ok() && pc == Claiming(job, logical) && TPOf(job) == tp && cfg.groupID != ""
      modifies this`store, this`cancelled, this`txnHeld, this`clock, this`items, this`mine, this`n, this`pc, this`log,
        mem, sub
      ensures Ok() && pc == Finish(job, perKey)
      ensures old(store) <= store && StoreUsed(cfg, job.id, store[|old(store)|..], calls, decided)
      ensures OneMessage(Trace(old(log)), Trace(log), job.RetryAttempt(), calls, decided)
      ensures calls <= CallBound(cfg, logical, job.RetryAttempt())
      ensures OwnOffset() == old(OwnOffset()) || (OwnOffset() == job.offset + 1 && decided != [])
    {
      hide Ok, OwnOffset, Now, Trace, CallBound, Protocol.FailAndRoute, MaxFor, RetriesInPlace, OneMessage;
      var grant := Claim(job, logical);
      if grant.Granted? {
        ghost var claimed := store;
        ghost var more;
        more, decided := Handle(job, logical, grant.lease);
        CallsPrepend(Trace(old(log)), Trace(log), job.RetryAttempt(), more, decided);
        StoreUse(cfg, job.id, grant.lease, old(store), claimed, store, more + 1, decided);
        return more + 1, decided;
      }
      match grant {
        case Broken(err) =>
          decided := FailAndRoute(job, logical, err, Trace(old(log)));
        case Done =>
          var _ := Commit(job, false);
          decided := [DecidedSkipCompleted];
        case _ =>
          decided := [DecidedSkipInProgress];
      }
      calls := 0;
      NoCalls(Trace(old(log)), Trace(log), job.RetryAttempt(), decided);
    }

    method FindHandler(job: Message) returns (found: Option<string>)
      requires Ok() && pc == Starting(job)
      modifies this`cancelled, this`txnHeld, this`clock, this`items, this`n, this`pc, this`log, mem, sub
      ensures Ok() && OwnOffset() == old(OwnOffset()) && LookupOk(cfg, job, found)
      ensures found.None? ==> pc == ToCommit(job) && Trace(log) == Trace(old(log)) + [DecidedNoHandler]
      ensures found.Some? ==> pc == Waiting(job, found.value) && Trace(log) == Trace(old(log))
    {
      hide Trace, LogRuns, WellFormed, BusyStep, GroupOffset, LookupOk;
      Yield();
      found := Lookup(cfg, job);
      StartStep(cfg, perKey, Now(), pc, found);
      Record(Now(), NO_CHOICE.(found := found));
    }

    /** waitNotBefore: the message is not started before its time; only a context that is done
        cuts the wait short. */
    method WaitNotBefore(job: Message, logical: string) returns (over: bool)
      requires Ok() && pc == Waiting(job, logical)
      modifies this`cancelled, this`txnHeld, this`clock, this`items, this`n, this`pc, this`log, mem, sub
      ensures Ok() && OwnOffset() == old(OwnOffset()) && Trace(log) == Trace(old(log))
      ensures pc == if over then Finish(job, perKey) else Claiming(job, logical)
      ensures over ==> cancelled
      ensures !over ==> job.NotBefore().None? || job.NotBefore().value <= clock
      ensures old(clock) <= clock
    {
      hide Ok, OwnOffset, Now, Trace;
      Yield();
      var due := job.NotBefore();
      over := due.Some? && due.value > clock && stopAt(n) && cancelled;
      EndWait(job, logical, over);
    }

    /** The timer fires at the message's time, if that is ahead. */
    method EndWait(job: Message, logical: string, over: bool)
      requires Ok() && pc == Waiting(job, logical) && (over ==> job.NotBefore().Some? && cancelled)
      modifies this`clock, this`pc, this`log
      ensures Ok() && OwnOffset() == old(OwnOffset()) && Trace(log) == Trace(old(log))
      ensures pc == if over then Finish(job, perKey) else Claiming(job, logical)
      ensures !over ==> job.NotBefore().None? || job.NotBefore().value <= clock
      ensures old(clock) <= clock
    {
      hide Trace, LogRuns, WellFormed, BusyStep, GroupOffset;
      ghost var s := Now();
      var due, elapsed: nat := job.NotBefore(), 0;
      if !over && due.Some? && due.value > clock { elapsed := due.value - clock; }
      clock := clock + elapsed;
      WaitStep(cfg, perKey, s, pc, elapsed, over);
      Record(s, NO_CHOICE.(elapsed := elapsed, stop := over));
    }

    /** TryStart, when there is a store and the message has an ID. */
    method Claim(job: Message, logical: string) returns (grant: Grant)
      requires Ok() && pc == Claiming(job, logical)
      modifies this`store, this`cancelled, this`txnHeld, this`clock, this`items, this`n, this`pc, this`log, mem, sub
      ensures Ok() && OwnOffset() == old(OwnOffset())
      ensures GrantLeads(job, logical, grant, Trace(old(log)))
      ensures UsesStore(cfg, job) ==> store == old(store) + [Started(job.id, grant.Answer())]
      ensures !UsesStore(cfg, job) ==> grant == Granted(None) && store == old(store)
      ensures UsesStore(cfg, job) && grant.Granted? ==> grant.lease.Some?
    {
      hide Ok, OwnOffset, Now, Trace, Protocol.FailAndRoute;
      var first := EnterClaim(job, logical);
      if first.None? { return Granted(None); }
      grant := TryStart(job, logical, first.value);
      Note(Started(job.id, grant.Answer()));
    }

    /** TryStart begins with the clock; without a store or an ID the handler starts instead. */
    method EnterClaim(job: Message, logical: string) returns (first: Option<Claims.PC>)
      requires Ok() && pc == Claiming(job, logical)
      modifies this`cancelled, this`txnHeld, this`clock, this`items, this`n, this`pc, this`log, mem, sub
      ensures Ok() && OwnOffset() == old(OwnOffset())
      ensures first.Some? == UsesStore(cfg, job)
      ensures first.Some? ==> pc == Asking(job, logical, first.value) && Trace(log) == Trace(old(log))
      ensures first.None? ==> GrantLeads(job, logical, Granted(None), Trace(old(log)))
    {
      hide Trace, LogRuns, WellFormed, BusyStep, GroupOffset, Protocol.FailAndRoute;
      Yield();
      ClaimStep(cfg, perKey, Now(), pc);
      ghost var s := Now();
      Record(s, NO_CHOICE);
      return if cfg.store.None? || job.id == "" then None else Some(Claims.Sampled(job.id, clock));
    }

    /** A call on the store that has been made. */
    method Note(c: StoreCall)
      requires Ok()
      modifies this`store
      ensures Ok() && OwnOffset() == old(OwnOffset()) && Now() == old(Now()) && store == old(store) + [c]
    {
      store := store + [c];
    }

    /** Where the store's answer leaves the worker. */
    ghost predicate GrantLeads(job: Message, logical: string, grant: Grant, before: seq<Event>)
      reads this, mem, sub
    {
      match grant
      case Granted(lease) =>
        && pc == Handling(job, job, logical, job.RetryAttempt(), lease)
        && Trace(log) == before + [Called(job.RetryAttempt())]
      case Done => pc == ToCommit(job) && Trace(log) == before + [DecidedSkipCompleted]
      case Taken => pc == Finish(job, perKey) && Trace(log) == before + [DecidedSkipInProgress]
      case Broken(err) =>
        var e := Protocol.FailAndRoute(cfg, Now(), job, logical, err, clock);
        pc == e.pc && Trace(log) == before + Shown(e.event)
    }

    /** The store's calls, each on what it then holds; any of them may fail. */
    method TryStart(job: Message, logical: string, first: Claims.PC) returns (grant: Grant)
      requires Ok() && pc == Asking(job, logical, first) && cfg.store.Some?
      modifies this`cancelled, this`txnHeld, this`clock, this`items, this`n, this`pc, this`log, mem, sub
      ensures Ok() && OwnOffset() == old(OwnOffset())
      ensures GrantLeads(job, logical, grant, Trace(old(log)))
      ensures grant.Granted? ==> grant.lease.Some?
    {
      hide Ok, OwnOffset, Now, Trace, Protocol.FailAndRoute, Claims.TryStartCall;
      var call := first;
      while true
        invariant Ok() && OwnOffset() == old(OwnOffset()) && pc == Asking(job, logical, call)
        invariant Trace(log) == Trace(old(log))
        decreases Claims.Remaining(call)
      {
        var answer, next := Ask(job, logical, call);
        if answer.Some? { return answer.value; }
        call := next;
      }
    }

    /** One call on the store. */
    method Ask(job: Message, logical: string, call: Claims.PC) returns (answer: Option<Grant>, next: Claims.PC)
      requires Ok() && pc == Asking(job, logical, call) && cfg.store.Some?
      modifies this`cancelled, this`txnHeld, this`clock, this`items, this`n, this`pc, this`log, mem, sub
      ensures Ok() && OwnOffset() == old(OwnOffset())
      ensures answer.Some? ==> GrantLeads(job, logical, answer.value, Trace(old(log)))
      ensures answer.Some? && answer.value.Granted? ==> answer.value.lease.Some?
      ensures answer.None? ==> pc == Asking(job, logical, next) && Trace(log) == Trace(old(log))
      ensures answer.None? ==> Claims.Remaining(next) < Claims.Remaining(call)
    {
      hide Ok, OwnOffset, Now, Trace, Protocol.FailAndRoute;
      Yield();
      if storeErrorAt(n).Some? {
        AskInVain(job, logical, call, storeErrorAt(n).value);
        return Some(Broken(storeErrorAt(n).value)), call;
      }
      answer, next := AskStore(job, logical, call);
    }

    method AskInVain(job: Message, logical: string, call: Claims.PC, err: string)
      requires Ok() && pc == Asking(job, logical, call) && cfg.store.Some?
      modifies this`pc, this`log
      ensures Ok() && OwnOffset() == old(OwnOffset()) && GrantLeads(job, logical, Broken(err), Trace(old(log)))
    {
      hide Trace, LogRuns, WellFormed, BusyStep, GroupOffset, Protocol.FailAndRoute;
      AskFails(cfg, perKey, Now(), pc, err);
      RoutedSame(cfg, Now(), job, logical, 0, err);
      Record(Now(), NO_CHOICE.(storeError := Some(err)));
    }

    method AskStore(job: Message, logical: string, call: Claims.PC) returns (answer: Option<Grant>, next: Claims.PC)
      requires Ok() && pc == Asking(job, logical, call) && cfg.store.Some?
      modifies this`items, this`pc, this`log
      ensures Ok() && OwnOffset() == old(OwnOffset())
      ensures answer.Some? ==> GrantLeads(job, logical, answer.value, Trace(old(log)))
      ensures answer.Some? && answer.value.Granted? ==> answer.value.lease.Some?
      ensures answer.None? ==> pc == Asking(job, logical, next) && Trace(log) == Trace(old(log))
      ensures answer.None? ==> Claims.Remaining(next) < Claims.Remaining(call)
    {
      hide Trace, LogRuns, WellFormed, BusyStep, GroupOffset, Protocol.FailAndRoute, Claims.TryStartCall,
        Claims.Remaining;
      ghost var s := Now();
      var r := Claims.TryStartCall(cfg.store.value, cfg.ttl, items, call);
      Claims.CallShape(cfg.store.value, cfg.ttl, items, call);
      AskOnce(cfg, perKey, s, pc);
      items := r.items;
      Record(s, NO_CHOICE);
      if r.next.Some? { return None, r.next.value; }
      match r.result.value {
        case Proceed => return Some(Granted(Some(call.now + cfg.ttl))), call;
        case SkipCompleted => return Some(Done), call;
        case SkipInProgress => return Some(Taken), call;
      }
    }

    /** The handler has been called once; it may be called again in place. */
    method Handle(job: Message, logical: string, lease: Option<Time>)
      returns (ghost calls: nat, ghost decided: seq<Event>)
      requires Ok() && pc == Handling(job, job, logical, job.RetryAttempt(), lease) && TPOf(job) == tp
      requires cfg.groupID != ""
      requires lease.Some? ==> cfg.store.Some?
      modifies this`store, this`cancelled, this`txnHeld, this`clock, this`items, this`mine, this`n, this`pc, this`log,
        mem, sub
      ensures Ok() && pc == Finish(job, perKey)
      ensures VerdictGiven(lease, job.id, old(store), store, decided)
      ensures OneMessage(Trace(old(log)), Trace(log), job.RetryAttempt() + 1, calls, decided)
      ensures calls + 1 <= CallBound(cfg, logical, job.RetryAttempt())
      ensures OwnOffset() == old(OwnOffset()) || (OwnOffset() == job.offset + 1 && decided != [])
    {
      hide Ok, OwnOffset, Now, Trace, MaxFor, RetriesInPlace, VerdictGiven, FailurePending;
      if RetriesInPlace(cfg, logical) {
        ghost var stopped;
        calls, decided, stopped := ProcessInPlace(job, logical, lease);
        return;
      }
      calls := 0;
      assert CallsFrom(job.RetryAttempt() + 1, 0) == [];
      var failure := RunHandler();
      if failure.None? {
        Succeed(job, lease);
        return 0, [DecidedHandled];
      }
      decided := GiveUp(job, logical, job.RetryAttempt(), failure.value, lease, Trace(old(log)));
    }

    /** The handler succeeded: Complete, then commit. */
    method Succeed(job: Message, lease: Option<Time>)
      requires Ok() && pc == AfterSuccess(job, lease) && TPOf(job) == tp && (lease.Some? ==> cfg.store.Some?)
      modifies this`store, this`cancelled, this`txnHeld, this`clock, this`items, this`n, this`pc, this`log, mem, sub
      ensures Ok() && pc == Finish(job, perKey) && Trace(log) == Trace(old(log))
      ensures OwnOffset() == old(OwnOffset()) || OwnOffset() == job.offset + 1
      ensures VerdictGiven(lease, job.id, old(store), store, [DecidedHandled])
    {
      hide Ok, OwnOffset, Now, Trace;
      if lease.Some? { CallComplete(job); }
      var _ := Commit(job, false);
    }

    /** store.Complete; its error is ignored. */
    method CallComplete(job: Message)
      requires Ok() && pc.Completing? && pc.job == job && cfg.store.Some?
      modifies this`store, this`cancelled, this`txnHeld, this`clock, this`items, this`n, this`pc, this`log, mem, sub
      ensures Ok() && OwnOffset() == old(OwnOffset()) && pc == ToCommit(job) && Trace(log) == Trace(old(log))
      ensures store == old(store) + [Completed(job.id)]
    {
      hide Ok, OwnOffset, Now, Trace;
      Yield();
      ApplyComplete(job, storeErrorAt(n));
      Note(Completed(job.id));
    }

    method ApplyComplete(job: Message, err: Option<string>)
      requires Ok() && pc.Completing? && pc.job == job && cfg.store.Some?
      modifies this`items, this`pc, this`log
      ensures Ok() && OwnOffset() == old(OwnOffset()) && pc == ToCommit(job) && Trace(log) == Trace(old(log))
    {
      hide Trace, LogRuns, WellFormed, BusyStep, GroupOffset;
      ghost var s := Now();
      CompleteStep(cfg, perKey, s, pc, err);
      if err.None? { items := items[job.id := Claims.DoneRec(cfg.store.value, cfg.ttl, clock)]; }
      Record(s, NO_CHOICE.(storeError := err));
    }

    /** store.Fail; its error is ignored. */
    method CallFail(job: Message, logical: string, attempt: int, err: string, lease: Time)
      requires Ok() && pc == Failing(job, logical, attempt, err, lease) && cfg.store.Some?
      modifies this`store, this`cancelled, this`txnHeld, this`clock, this`items, this`n, this`pc, this`log, mem, sub
      ensures Ok() && OwnOffset() == old(OwnOffset())
      ensures FailurePending(cfg, Now(), job, logical, attempt, err, None, pc, Trace(old(log)), Trace(log))
      ensures store == old(store) + [Failed(job.id)]
    {
      hide Ok, OwnOffset, Now, Trace, AfterFailure;
      Yield();
      ApplyFail(job, logical, attempt, err, lease, storeErrorAt(n));
      Note(Failed(job.id));
    }

    method ApplyFail(job: Message, logical: string, attempt: int, err: string, lease: Time, storeErr: Option<string>)
      requires Ok() && pc == Failing(job, logical, attempt, err, lease) && cfg.store.Some?
      modifies this`items, this`pc, this`log
      ensures Ok() && OwnOffset() == old(OwnOffset())
      ensures FailurePending(cfg, Now(), job, logical, attempt, err, None, pc, Trace(old(log)), Trace(log))
    {
      hide Trace, LogRuns, WellFormed, BusyStep, GroupOffset, AfterFailure;
      ghost var s := Now();
      FailStep(cfg, perKey, s, pc, storeErr);
      if storeErr.None? { items := items[job.id := Claims.FailedRec(cfg.store.value, cfg.ttl, clock)]; }
      RoutedSame(cfg, Now(), job, logical, attempt, err);
      Record(s, NO_CHOICE.(storeError := storeErr));
    }

    /** The handler failed for good here: Fail, then failAndRoute, or routeTerminal after retries in place. */
    method GiveUp(job: Message, logical: string, attempt: int, err: string, lease: Option<Time>,
                  ghost before: seq<Event>)
      returns (ghost decided: seq<Event>)
      requires Ok() && TPOf(job) == tp && cfg.groupID != "" && (lease.Some? ==> cfg.store.Some?)
      requires FailurePending(cfg, Now(), job, logical, attempt, err, lease, pc, before, Trace(log))
      modifies this`store, this`cancelled, this`txnHeld, this`clock, this`items, this`mine, this`n, this`pc, this`log,
        mem, sub
      ensures Ok() && pc == Finish(job, perKey) && Trace(log) == before + decided
      ensures GivenAway(decided) && VerdictGiven(lease, job.id, old(store), store, decided)
      ensures OwnOffset() == old(OwnOffset()) || (OwnOffset() == job.offset + 1 && decided != [])
    {
      hide Ok, OwnOffset, Trace, RetriesInPlace, Protocol.FailAndRoute, Protocol.RouteTerminal;
      if lease.Some? { CallFail(job, logical, attempt, err, lease.value); }
      if RetriesInPlace(cfg, logical) {
        decided := RouteTerminal(job, logical, attempt, err, before);
      } else {
        decided := FailAndRoute(job, logical, err, before);
      }
    }

    /** The end of the handler call under way. */
    method RunHandler() returns (failure: Option<string>)
      requires Ok() && pc.Handling?
      modifies this`cancelled, this`txnHeld, this`clock, this`items, this`n, this`pc, this`log, mem, sub
      ensures Ok() && OwnOffset() == old(OwnOffset())
      ensures HandlerEnds(cfg, Now(), old(pc), failure, pc, Trace(old(log)), Trace(log))
    {
      hide Ok, OwnOffset, Now, Trace, HandlerEnds;
      Yield();
      failure := failureAt(n);
      EndCall(failure);
    }

    ghost method EndCall(failure: Option<string>)
      requires Ok() && pc.Handling?
      modifies this`pc, this`log
      ensures Ok() && OwnOffset() == old(OwnOffset())
      ensures HandlerEnds(cfg, Now(), old(pc), failure, pc, Trace(old(log)), Trace(log))
    {
      hide Trace, LogRuns, WellFormed, BusyStep, GroupOffset, MaxFor, RetriesInPlace, AfterFailure;
      HandleStep(cfg, perKey, Now(), pc, failure);
      if failure.Some? { RoutedSame(cfg, Now(), pc.job, pc.logical, pc.attempt, failure.value); }
      Record(Now(), NO_CHOICE.(failure := failure));
    }

    /** The backoff before the next call in place; the call does not begin before it is over. */
    method Backoff(cur: Message, attempt: int, err: string, until: Time) returns (over: bool, next: Message)
      requires Ok() && pc.Sleeping? && pc.cur == cur && pc.attempt == attempt && pc.err == err && pc.until == until
      modifies this`cancelled, this`txnHeld, this`clock, this`items, this`n, this`pc, this`log, mem, sub
      ensures Ok() && OwnOffset() == old(OwnOffset())
      ensures over ==> pc == Finish(old(pc).job, perKey) && Trace(log) == Trace(old(log)) && cancelled
      ensures !over ==> pc == Handling(old(pc).job, next, old(pc).logical, attempt, old(pc).lease)
      ensures !over ==> Trace(log) == Trace(old(log)) + [Called(attempt)] && until <= clock
    {
      hide Trace, LogRuns, WellFormed, BusyStep, GroupOffset, AttachRetry;
      Yield();
      ghost var s := Now();
      over, next := stopAt(n) && cancelled, cur;
      var elapsed: nat := 0;
      if !over {
        if clock < until { elapsed := until - clock; }
        clock := clock + elapsed;
        var h := AttachRetryMetadata(cur, clock, attempt, Some(err), 0);
        next := cur.(headers := h);
      }
      SleepStep(cfg, perKey, s, pc, elapsed, over);
      Record(s, NO_CHOICE.(elapsed := elapsed, stop := over));
    }

    /** processInPlace, from the first call on: attempts go up by one, to the maximum. A
        context that is done during a backoff ends it without a decision and without a verdict. */
    method ProcessInPlace(job: Message, logical: string, lease: Option<Time>)
      returns (ghost calls: nat, ghost decided: seq<Event>, ghost stopped: bool)
      requires Ok() && pc == Handling(job, job, logical, job.RetryAttempt(), lease) && RetriesInPlace(cfg, logical)
      requires TPOf(job) == tp && cfg.groupID != "" && (lease.Some? ==> cfg.store.Some?)
      modifies this`store, this`cancelled, this`txnHeld, this`clock, this`items, this`mine, this`n, this`pc, this`log,
        mem, sub
      ensures Ok() && pc == Finish(job, perKey)
      ensures VerdictGiven(lease, job.id, old(store), store, decided)
      ensures OneMessage(Trace(old(log)), Trace(log), job.RetryAttempt() + 1, calls, decided)
      ensures calls + 1 <= CallBound(cfg, logical, job.RetryAttempt())
      ensures OwnOffset() == old(OwnOffset()) || (OwnOffset() == job.offset + 1 && decided != [])
      ensures stopped ==> cancelled && decided == [] && store == old(store) && OwnOffset() == old(OwnOffset())
      ensures !stopped && decided != [DecidedHandled] ==> calls + 1 == CallBound(cfg, logical, job.RetryAttempt())
    {
      hide Ok, OwnOffset, Trace, MaxFor, RetriesInPlace, FailurePending, CallsFrom, DelayFor, LookupOk;
      NoneYet(job.RetryAttempt() + 1);
      var attempt, cur := job.RetryAttempt(), job;
      ghost var first := attempt + 1;
      calls, stopped := 0, false;
      while true
        invariant Ok() && pc == Handling(job, cur, logical, attempt, lease) && OwnOffset() == old(OwnOffset())
        invariant attempt + 1 == first + calls && Trace(log) == Trace(old(log)) + CallsFrom(first, calls)
        invariant calls > 0 ==> attempt <= MaxFor(cfg, logical)
        invariant store == old(store) && !stopped
        decreases MaxFor(cfg, logical) - attempt
      {
        var failure := RunHandler();
        if failure.None? {
          Succeed(job, lease);
          return calls, [DecidedHandled], false;
        }
        if attempt >= MaxFor(cfg, logical) {
          decided := GiveUp(job, logical, attempt, failure.value, lease, Trace(old(log)) + CallsFrom(first, calls));
          return;
        }
        attempt := attempt + 1;
        var over;
        over, cur := Backoff(cur, attempt, failure.value, clock + DelayFor(cfg, logical, attempt));
        if over { return calls, [], true; }
        CallsExtend(first, calls);
        calls := calls + 1;
      }
    }

    // ---- the partition's loop ----

    /** partitionLoop: the jobs of the channel in order, one at a time, until the channel is
        empty and closed or the context is done. A per-key worker commits each message once
        more after process; PerKey shows that this is all its queue amounts to. The group's
        offset never falls and only ever names the end of a message that was started. */
    method PartitionLoop(jobs: seq<Message>) returns (taken: nat)
      requires Ok() && pc.Idle? && cfg.groupID != ""
      requires forall m :: m in jobs ==> TPOf(m) == tp
      requires forall i, j :: 0 <= i < j < |jobs| ==> jobs[i].offset < jobs[j].offset
      requires forall m :: m in jobs ==> OwnOffset() <= m.offset
      modifies this`store, this`cancelled, this`txnHeld, this`clock, this`items, this`mine, this`n, this`pc, this`log,
        this`started, mem, sub
      ensures Ok() && pc.Idle?
      ensures taken <= |jobs| && started == old(started) + jobs[..taken]
      ensures taken == |jobs| || cancelled
      ensures OwnOffset() == old(OwnOffset()) || EndsOne(jobs[..taken], OwnOffset())
      ensures old(OwnOffset()) <= OwnOffset()
    {
      hide Ok, OwnOffset, Now, Trace, OneMessage, LookupOk, CallBound, TPOf;
      taken := 0;
      while taken < |jobs|
        invariant taken <= |jobs| && Ok() && pc.Idle? && started == old(started) + jobs[..taken]
        invariant OwnOffset() == old(OwnOffset()) || EndsOne(jobs[..taken], OwnOffset())
        invariant old(OwnOffset()) <= OwnOffset()
      {
        Yield();
        if cancelled { return; }
        var job := jobs[taken];
        assert job in jobs;
        Begin(job);
        ghost var start := OwnOffset();
        ghost var found, calls, decided := Process(job);
        if perKey {
          var _ := Commit(job, true);
        }
        assert jobs[..taken + 1] == jobs[..taken] + [job];
        EndsMore(jobs[..taken], job, start);
        taken := taken + 1;
      }
    }
  }
}
