/** The lease-claim protocol of idempotency/store.go and the DynamoDB, Mongo and Redis
    adapters. TryStart of an adapter is a sequence of atomic calls on the backing store; any
    number of workers interleave them, each with the clock it sampled when it began. */
module Claims {
  import opened Wrappers
  import opened Traces

  type Time = int

  const SECOND: int := 1_000_000_000

  datatype Adapter = Memory | Dynamo | Mongo | Redis

  datatype State = Processing | Completed | Failed

  /** `expiry` is when the service may drop the record by itself. */
  datatype Rec = Rec(state: State, lease: int, expiry: int)

  type Items = map<string, Rec>

  datatype Result = Proceed | SkipCompleted | SkipInProgress

  /** A time as stored: DynamoDB keeps whole seconds. */
  function Stamp(a: Adapter, t: Time): int {
    if a.Dynamo? then t / SECOND else t
  }

  /** TryStart's own test; the Redis adapter leaves expiry to the server. */
  predicate Expired(a: Adapter, lease: int, now: Time) {
    !a.Redis? && Overdue(a, lease, now)
  }

  /** A stored time has passed, by the given clock. */
  predicate Overdue(a: Adapter, stamp: int, now: Time) { stamp < Stamp(a, now) }

  /** The in-process store drops nothing; Redis keys in processing or failed live for one lease,
      everything else for four. */
  function Expiry(a: Adapter, ttl: int, state: State, now: Time): int {
    if a.Memory? then 0
    else if a.Redis? && !state.Completed? then now + ttl
    else Stamp(a, now + 4 * ttl)
  }

  function ClaimRec(a: Adapter, ttl: int, now: Time): Rec {
    Rec(Processing, Stamp(a, now + ttl), Expiry(a, ttl, Processing, now))
  }

  /** How long the service keeps what was written at `then_`: four leases, to the whole second
      for DynamoDB; for Redis a key under way or failed only one. */
  lemma KeptExactly(a: Adapter, ttl: int, then_: Time, now: Time)
    requires !a.Memory?
    ensures var unit := if a.Dynamo? then SECOND else 1;
      && (Overdue(a, DoneRec(a, ttl, then_).expiry, now) <==> (then_ + 4 * ttl) / unit < now / unit)
      && (Overdue(a, ClaimRec(a, ttl, then_).expiry, now) <==>
            (then_ + (if a.Redis? then ttl else 4 * ttl)) / unit < now / unit)
      && (Overdue(a, FailedRec(a, ttl, then_).expiry, now) <==>
            (then_ + (if a.Redis? then ttl else 4 * ttl)) / unit < now / unit)
  {
  }

  /** Complete and Fail write without looking; only Memory gives a completed record a lease. */
  function DoneRec(a: Adapter, ttl: int, now: Time): Rec {
    Rec(Completed, if a.Memory? then now + ttl else 0, Expiry(a, ttl, Completed, now))
  }

  function FailedRec(a: Adapter, ttl: int, now: Time): Rec { Rec(Failed, 0, Expiry(a, ttl, Failed, now)) }

  // ---- TryStart, call by call ----

  /** Sampled: before the first call. Missed: the insert found the key taken. Vanished: the
      read found no record. Stale: the read found one that may be replaced. */
  datatype PC =
    | Sampled(key: string, now: Time)
    | Missed(key: string, now: Time)
    | Vanished(key: string, now: Time)
    | Stale(key: string, now: Time, state: State)

  datatype Attempt = Attempt(items: Items, next: Option<PC>, result: Option<Result>)

  predicate Free(a: Adapter, items: Items, key: string, now: Time) {
    key !in items || items[key].state.Failed? || (items[key].state.Processing? && Expired(a, items[key].lease, now))
  }

  function TryStartCall(a: Adapter, ttl: int, items: Items, pc: PC): Attempt {
    var claim := Attempt(items[pc.key := ClaimRec(a, ttl, pc.now)], None, Some(Proceed));
    var busy := Attempt(items, None, Some(SkipInProgress));
    var completed := Attempt(items, None, Some(SkipCompleted));
    match pc
    case Sampled(key, now) =>
      if a.Memory? then
        if Free(a, items, key, now) then claim else if items[key].state.Completed? then completed else busy
      else if key !in items then claim
      else Attempt(items, Some(Missed(key, now)), None)
    case Missed(key, now) =>
      if key !in items then (if a.Mongo? then busy else Attempt(items, Some(Vanished(key, now)), None))
      else if items[key].state.Completed? then completed
      else if Free(a, items, key, now) then Attempt(items, Some(Stale(key, now, items[key].state)), None)
      else busy
    case Vanished(key, _) => if key !in items then claim else busy
    case Stale(key, now, state) =>
      if key in items && items[key].state == state && Free(a, items, key, now) then claim else busy
  }

  /** How many calls TryStart makes at most after the next one. */
  function Remaining(pc: PC): nat {
    match pc
    case Sampled(_, _) => 2
    case Missed(_, _) => 1
    case _ => 0
  }

  /** A call either ends TryStart with an answer or brings it nearer its end. */
  lemma CallShape(a: Adapter, ttl: int, items: Items, pc: PC)
    ensures var r := TryStartCall(a, ttl, items, pc);
      if r.next.Some? then r.result.None? && r.items == items && Remaining(r.next.value) < Remaining(pc)
      else r.result.Some?
  {
  }

  // ---- many workers ----

  /** A worker of some process, named by the partition it works on. */
  datatype Owner = Owner(process: nat, topic: string, partition: int)

  datatype Slot = Trying(pc: PC) | Owning(key: string, deadline: Time)

  datatype Event =
    | Claim(key: string, now: Time)
    | Completion(key: string, now: Time)
    | Failure(key: string)
    | Removal(key: string, now: Time)

  datatype World = World(items: Items, slots: map<Owner, Slot>, time: Time, history: seq<Event>)

  datatype Label =
    | Tick(now: Time)
    | Sample(worker: Owner, key: string, clock: Time)  // a free worker enters TryStart
    | Act(worker: Owner)                               // its next call on the store
    | GiveUp(worker: Owner)                            // TryStart fails, or an owner stops without a verdict
    | CallComplete(worker: Owner, key: string, clock: Time)
    | CallFail(worker: Owner, key: string, clock: Time)
    | Evict(key: string)                               // the store drops the record

  function ActStep(a: Adapter, ttl: int, w: World, i: Owner): World {
    if i !in w.slots || w.slots[i].Owning? then w
    else
      var pc := w.slots[i].pc;
      var r := TryStartCall(a, ttl, w.items, pc);
      match r.next
      case Some(next) => w.(slots := w.slots[i := Trying(next)])
      case None =>
        if r.result == Some(Proceed) then
          w.(items := r.items, slots := w.slots[i := Owning(pc.key, pc.now + ttl)],
             history := w.history + [Claim(pc.key, pc.now)])
        else w.(slots := w.slots - {i})
  }

  function Step(a: Adapter, ttl: int, w: World, l: Label): World {
    match l
    case Tick(now) => w.(time := now)
    case Sample(i, key, clock) => if i in w.slots then w else w.(slots := w.slots[i := Trying(Sampled(key, clock))])
    case Act(i) => ActStep(a, ttl, w, i)
    case GiveUp(i) => w.(slots := w.slots - {i})
    case CallComplete(i, key, clock) =>
      w.(items := w.items[key := DoneRec(a, ttl, clock)], slots := w.slots - {i},
         history := w.history + [Completion(key, clock)])
    case CallFail(i, key, clock) =>
      w.(items := w.items[key := FailedRec(a, ttl, clock)], slots := w.slots - {i},
         history := w.history + [Failure(key)])
    case Evict(key) => w.(items := w.items - {key}, history := w.history + [Removal(key, w.time)])
  }

  const START := World(map[], map[], 0, [])

  function Stepper(a: Adapter, ttl: int): (World, Label) -> World { (w, l) => Step(a, ttl, w, l) }

  /** The world after a run. */
  ghost function Run(a: Adapter, ttl: int, labels: seq<Label>): World { Last(START, Stepper(a, ttl), labels) }

  lemma RunStart(a: Adapter, ttl: int)
    ensures Run(a, ttl, []) == START
  {
    LastStart(START, Stepper(a, ttl));
  }

  lemma RunMore(a: Adapter, ttl: int, labels: seq<Label>, l: Label)
    ensures Run(a, ttl, labels + [l]) == Step(a, ttl, Run(a, ttl, labels), l)
  {
    hide Step, Last;
    LastMore(START, Stepper(a, ttl), labels, l);
  }

  // ---- claim safety ----

  predicate ClaimOf(e: Event, key: string) { e.Claim? && e.key == key }

  predicate CompletionOf(e: Event, key: string) { e.Completion? && e.key == key }

  predicate Frees(e: Event, key: string) { (e.Failure? || e.Removal?) && e.key == key }

  /** The key was failed or removed after position `i`. */
  ghost predicate FreedAfter(h: seq<Event>, key: string, i: int) {
    exists m :: 0 <= i < m < |h| && Frees(h[m], key)
  }

  ghost predicate CompletedAfter(h: seq<Event>, key: string, i: int) {
    exists m :: 0 <= i < m < |h| && CompletionOf(h[m], key)
  }

  ghost predicate LastClaim(h: seq<Event>, key: string, i: int) {
    && 0 <= i < |h| && ClaimOf(h[i], key)
    && forall m :: i < m < |h| ==> !ClaimOf(h[m], key)
  }

  /** What justifies a claim with clock `now` right after `h`. */
  ghost predicate MayClaim(a: Adapter, ttl: int, h: seq<Event>, key: string, now: Time) {
    && (forall i :: LastClaim(h, key, i) ==>
         FreedAfter(h, key, i) || (Expired(a, Stamp(a, h[i].now + ttl), now) && !CompletedAfter(h, key, i)))
    && (forall i :: 0 <= i < |h| && CompletionOf(h[i], key) ==> FreedAfter(h, key, i))
  }

  ghost predicate SafeHistory(a: Adapter, ttl: int, h: seq<Event>) {
    forall j :: 0 <= j < |h| && h[j].Claim? ==> MayClaim(a, ttl, h[..j], h[j].key, h[j].now)
  }

  /** The stored record of `key` agrees with the history. */
  ghost predicate KeyOk(a: Adapter, ttl: int, items: Items, h: seq<Event>, key: string) {
    && (forall i :: LastClaim(h, key, i) ==> Agrees(a, ttl, items, h, key, i))
    && (forall i :: 0 <= i < |h| && CompletionOf(h[i], key) ==>
         FreedAfter(h, key, i) || (key in items && items[key].state.Completed?))
  }

  ghost predicate Agrees(a: Adapter, ttl: int, items: Items, h: seq<Event>, key: string, i: int) {
    && 0 <= i < |h| && ClaimOf(h[i], key)
    && (key !in items || items[key].state.Failed? ==> FreedAfter(h, key, i))
    && (key in items && items[key].state.Processing? ==>
         items[key].lease == Stamp(a, h[i].now + ttl) && !CompletedAfter(h, key, i))
  }

  ghost predicate Safe(a: Adapter, ttl: int, w: World) {
    SafeHistory(a, ttl, w.history) && forall key :: KeyOk(a, ttl, w.items, w.history, key)
  }

  lemma LastClaimAppend(h: seq<Event>, e: Event, key: string, i: int)
    ensures LastClaim(h + [e], key, i) <==> if ClaimOf(e, key) then i == |h| else LastClaim(h, key, i)
  {
    var h' := h + [e];
    if ClaimOf(e, key) {
      assert h'[|h|] == e;
    } else if LastClaim(h', key, i) {
      forall m | i < m < |h| ensures !ClaimOf(h[m], key) { assert h'[m] == h[m]; }
    }
  }

  lemma FreedAppend(h: seq<Event>, e: Event, key: string, i: int)
    requires 0 <= i < |h|
    ensures FreedAfter(h + [e], key, i) <==> FreedAfter(h, key, i) || Frees(e, key)
    ensures CompletedAfter(h + [e], key, i) <==> CompletedAfter(h, key, i) || CompletionOf(e, key)
  {
    var h' := h + [e];
    assert h'[|h|] == e;
    if FreedAfter(h, key, i) {
      var m :| 0 <= i < m < |h| && Frees(h[m], key);
      assert h'[m] == h[m];
    }
    if CompletedAfter(h, key, i) {
      var m :| 0 <= i < m < |h| && CompletionOf(h[m], key);
      assert h'[m] == h[m];
    }
  }

  /** A call that claims does so because the record was free for the claimant's clock. */
  lemma ClaimMeansFree(a: Adapter, ttl: int, items: Items, pc: PC)
    requires TryStartCall(a, ttl, items, pc).result == Some(Proceed)
    ensures Free(a, items, pc.key, pc.now)
    ensures TryStartCall(a, ttl, items, pc).items == items[pc.key := ClaimRec(a, ttl, pc.now)]
  {
  }

  lemma SafeAppend(a: Adapter, ttl: int, h: seq<Event>, e: Event)
    requires SafeHistory(a, ttl, h) && (e.Claim? ==> MayClaim(a, ttl, h, e.key, e.now))
    ensures SafeHistory(a, ttl, h + [e])
  {
    var h' := h + [e];
    forall j | 0 <= j < |h'| && h'[j].Claim? ensures MayClaim(a, ttl, h'[..j], h'[j].key, h'[j].now) {
      assert h'[..j] == if j < |h| then h[..j] else h;
    }
  }

  lemma ActKeepsSafe(a: Adapter, ttl: int, w: World, i: Owner)
    requires Safe(a, ttl, w)
    ensures Safe(a, ttl, ActStep(a, ttl, w, i))
  {
    hide TryStartCall, SafeHistory, FreedAfter, CompletedAfter, LastClaim;
    var w' := ActStep(a, ttl, w, i);
    if w'.history != w.history {
      var pc := w.slots[i].pc;
      ClaimMeansFree(a, ttl, w.items, pc);
      var e := Claim(pc.key, pc.now);
      assert KeyOk(a, ttl, w.items, w.history, pc.key);
      SafeAppend(a, ttl, w.history, e);
      forall key ensures KeyOk(a, ttl, w'.items, w'.history, key) {
        EventKeepsKey(a, ttl, w.items, w'.items, w.history, e, key);
      }
    }
  }

  /** How an event changes the record of a key. */
  predicate Effected(a: Adapter, ttl: int, items: Items, items': Items, e: Event, key: string) {
    if e.key != key then (key in items' <==> key in items) && (key in items ==> items'[key] == items[key])
    else
      match e
      case Claim(_, now) => Free(a, items, key, now) && key in items' && items'[key] == ClaimRec(a, ttl, now)
      case Completion(_, _) => key in items' && items'[key].state.Completed?
      case Failure(_) => key in items' && items'[key].state.Failed?
      case Removal(_, _) => key !in items'
  }

  lemma EventKeepsKey(a: Adapter, ttl: int, items: Items, items': Items, h: seq<Event>, e: Event, key: string)
    requires KeyOk(a, ttl, items, h, key) && Effected(a, ttl, items, items', e, key)
    ensures KeyOk(a, ttl, items', h + [e], key)
  {
    hide LastClaim, FreedAfter, CompletedAfter;
    forall i | LastClaim(h + [e], key, i) ensures Agrees(a, ttl, items', h + [e], key, i) {
      LastClaimAppend(h, e, key, i);
      if ClaimOf(e, key) {
        NothingAfterLast(h, e, key);
      } else {
        assert Agrees(a, ttl, items, h, key, i);
        FreedAppend(h, e, key, i);
      }
    }
    forall i | 0 <= i < |h + [e]| && CompletionOf((h + [e])[i], key)
      ensures FreedAfter(h + [e], key, i) || (key in items' && items'[key].state.Completed?)
    {
      if i < |h| {
        assert CompletionOf(h[i], key);
        FreedAppend(h, e, key, i);
      }
    }
  }

  lemma NothingAfterLast(h: seq<Event>, e: Event, key: string)
    ensures !CompletedAfter(h + [e], key, |h|)
  {
  }

  lemma StepKeepsSafe(a: Adapter, ttl: int, w: World, l: Label)
    requires Safe(a, ttl, w)
    ensures Safe(a, ttl, Step(a, ttl, w, l))
  {
    hide SafeHistory, ActStep, KeyOk;
    var w' := Step(a, ttl, w, l);
    if l.Act? {
      ActKeepsSafe(a, ttl, w, l.worker);
    } else if w'.history != w.history {
      var e := w'.history[|w.history|];
      SafeAppend(a, ttl, w.history, e);
      forall key ensures KeyOk(a, ttl, w'.items, w'.history, key) {
        EventKeepsKey(a, ttl, w.items, w'.items, w.history, e, key);
      }
    }
  }

  lemma {:induction false} RunSafe(a: Adapter, ttl: int, labels: seq<Label>)
    ensures Safe(a, ttl, Run(a, ttl, labels))
  {
    hide Step, Safe, Run;
    if labels == [] {
      RunStart(a, ttl);
      StartSafe(a, ttl);
    } else {
      var init, l := labels[..|labels| - 1], labels[|labels| - 1];
      assert labels == init + [l];
      RunMore(a, ttl, init, l);
      RunSafe(a, ttl, init);
      StepKeepsSafe(a, ttl, Run(a, ttl, init), l);
    }
  }

  lemma StartSafe(a: Adapter, ttl: int)
    ensures Safe(a, ttl, START)
  {
  }

  /** Some claim of the key made at or after `i` is the last before `j`. */
  lemma PreviousClaim(h: seq<Event>, key: string, i: nat, j: nat) returns (m: nat)
    requires i < j <= |h| && ClaimOf(h[i], key)
    ensures i <= m < j && ClaimOf(h[m], key) && LastClaim(h[..j], key, m)
  {
    m := j - 1;
    while !ClaimOf(h[m], key)
      invariant i <= m < j
      invariant forall n :: m < n < j ==> !ClaimOf(h[n], key)
      decreases m
    {
      m := m - 1;
    }
  }

  /** Between the claim at `m`, the last of its key before `j`, and the one at `j`: the key
      was failed or removed, or the first claim's lease had run out by the second one's clock
      and nobody had completed the key. */
  ghost predicate Separated(a: Adapter, ttl: int, h: seq<Event>, m: int, j: int) {
    && 0 <= m < j < |h| && h[m].Claim? && ClaimOf(h[j], h[m].key)
    && (forall n :: m < n < j ==> !ClaimOf(h[n], h[m].key))
    && (|| (exists n :: m < n < j && Frees(h[n], h[m].key))
        || (Expired(a, Stamp(a, h[m].now + ttl), h[j].now) && forall n :: m < n < j ==> !CompletionOf(h[n], h[m].key)))
  }

  lemma HistorySeparated(a: Adapter, ttl: int, h: seq<Event>, m: int, j: int)
    requires SafeHistory(a, ttl, h) && 0 <= m < j < |h| && h[m].Claim? && ClaimOf(h[j], h[m].key)
    requires LastClaim(h[..j], h[m].key, m)
    ensures Separated(a, ttl, h, m, j)
  {
    var key := h[m].key;
    assert MayClaim(a, ttl, h[..j], key, h[j].now);
    forall n | m < n < j ensures !ClaimOf(h[n], key) { assert h[..j][n] == h[n]; }
    if FreedAfter(h[..j], key, m) {
      var n :| m < n < j && Frees(h[..j][n], key);
      assert Frees(h[n], key);
    } else {
      forall n | m < n < j ensures !CompletionOf(h[n], key) { assert h[..j][n] == h[n]; }
    }
  }

  /** Whenever a key is claimed again, the claim and the one before it are separated. */
  lemma {:induction false} ClaimsAreSeparated(a: Adapter, ttl: int, labels: seq<Label>, i: nat, j: nat)
    requires var h := Run(a, ttl, labels).history; i < j < |h| && h[i].Claim? && ClaimOf(h[j], h[i].key)
    ensures var h := Run(a, ttl, labels).history;
      exists m {:trigger Separated(a, ttl, h, m, j)} :: i <= m < j && h[m].key == h[i].key && Separated(a, ttl, h, m, j)
  {
    hide Run, LastClaim, Separated, KeyOk, SafeHistory;
    RunSafe(a, ttl, labels);
    var h := Run(a, ttl, labels).history;
    var m := PreviousClaim(h, h[i].key, i, j);
    HistorySeparated(a, ttl, h, m, j);
  }

  /** A completed key is never claimed again unless it was failed or removed in between,
      whoever gives verdicts and whatever the clocks. */
  lemma CompletedNotReclaimed(a: Adapter, ttl: int, labels: seq<Label>, i: nat, j: nat)
    requires var h := Run(a, ttl, labels).history; i < j < |h| && h[i].Completion? && ClaimOf(h[j], h[i].key)
    ensures var h := Run(a, ttl, labels).history; exists n :: i < n < j && Frees(h[n], h[i].key)
  {
    hide Run, KeyOk, LastClaim;
    RunSafe(a, ttl, labels);
    var h := Run(a, ttl, labels).history;
    assert MayClaim(a, ttl, h[..j], h[j].key, h[j].now);
    assert h[..j][i] == h[i];
    var n :| i < n < j && Frees(h[..j][n], h[i].key);
    assert Frees(h[n], h[i].key);
  }

  /** A lease counted as run out has run out, whole seconds or not; Redis never steals. */
  lemma ExpiredIsOver(a: Adapter, until: Time, now: Time)
    ensures Expired(a, Stamp(a, until), now) ==> until < now && !a.Redis?
    ensures Overdue(a, Stamp(a, until), now) ==> until < now
  {
  }

  // ---- completions lie four leases apart ----

  /** What a disciplined system does: clocks are the global clock, which never goes back; only
      an owner whose lease still runs completes or fails; a service drops a record by itself
      only after its expiry, and the in-process store drops nothing. */
  predicate Disciplined(a: Adapter, w: World, l: Label) {
    match l
    case Tick(now) => now >= w.time
    case Sample(_, _, clock) => clock == w.time
    case CallComplete(i, key, clock) => Owns(w, i, key) && clock == w.time
    case CallFail(i, key, clock) => Owns(w, i, key) && clock == w.time
    case Evict(key) => !a.Memory? && (key in w.items ==> Overdue(a, w.items[key].expiry, w.time))
    case _ => true
  }

  predicate Owns(w: World, i: Owner, key: string) {
    i in w.slots && w.slots[i].Owning? && w.slots[i].key == key && w.time <= w.slots[i].deadline
  }

  ghost predicate AllDisciplined(a: Adapter, ttl: int, labels: seq<Label>) {
    forall n :: 0 <= n < |labels| ==> Disciplined(a, Run(a, ttl, labels[..n]), labels[n])
  }

  /** The completion at `m` was forgotten: its record was dropped, after its four leases. */
  ghost predicate Forgotten(ttl: int, h: seq<Event>, m: int, until: Time) {
    exists r :: 0 <= m < r < |h| && h[m].Completion? && h[r].Removal? && h[r].key == h[m].key
      && h[m].now + 4 * ttl < h[r].now <= until
  }

  predicate RemovedAfter(h: seq<Event>, key: string, m: int) {
    exists r :: 0 <= m < r < |h| && h[r].Removal? && h[r].key == key
  }

  /** Every completion still stands in the store or was forgotten. */
  ghost predicate DoneStands(a: Adapter, ttl: int, w: World) {
    forall m :: 0 <= m < |w.history| && w.history[m].Completion? ==>
      || Forgotten(ttl, w.history, m, w.time)
      || (w.history[m].key in w.items && w.items[w.history[m].key] == DoneRec(a, ttl, w.history[m].now))
  }

  /** No key is completed again before the earlier completion was forgotten. */
  ghost predicate Apart(ttl: int, h: seq<Event>) {
    forall m, n :: 0 <= m < n < |h| && h[m].Completion? && CompletionOf(h[n], h[m].key) ==>
      Forgotten(ttl, h[..n], m, h[n].now)
  }

  /** At most one worker may give a verdict on a key, and its record is the one it claimed. */
  ghost predicate Owners(a: Adapter, ttl: int, w: World) {
    && (forall i :: i in w.slots && w.slots[i].Trying? ==> w.slots[i].pc.now <= w.time)
    && (forall i, key :: Owns(w, i, key) ==>
         key in w.items && w.items[key] == ClaimRec(a, ttl, w.slots[i].deadline - ttl))
    && (forall i, j, key :: Owns(w, i, key) && Owns(w, j, key) ==> i == j)
  }

  ghost predicate Exclusive(a: Adapter, ttl: int, w: World) {
    && Owners(a, ttl, w) && DoneStands(a, ttl, w) && Apart(ttl, w.history)
    && (a.Memory? ==> forall e :: e in w.history ==> !e.Removal?)
  }

  lemma ForgottenGrows(ttl: int, h: seq<Event>, e: Event, m: int, until: Time, until': Time)
    requires Forgotten(ttl, h, m, until) && until <= until'
    ensures Forgotten(ttl, h + [e], m, until') && Forgotten(ttl, h, m, until')
  {
    var r :| 0 <= m < r < |h| && h[m].Completion? && h[r].Removal? && h[r].key == h[m].key
      && h[m].now + 4 * ttl < h[r].now <= until;
    assert (h + [e])[r] == h[r] && (h + [e])[m] == h[m];
  }

  /** Histories that grow by something other than a completion stay apart. */
  lemma ApartGrows(ttl: int, h: seq<Event>, e: Event)
    requires Apart(ttl, h)
    requires e.Completion? ==> forall m :: 0 <= m < |h| && CompletionOf(h[m], e.key) ==> Forgotten(ttl, h, m, e.now)
    ensures Apart(ttl, h + [e])
  {
    var h' := h + [e];
    forall m, n | 0 <= m < n < |h'| && h'[m].Completion? && CompletionOf(h'[n], h'[m].key)
      ensures Forgotten(ttl, h'[..n], m, h'[n].now)
    {
      assert h'[..n] == if n < |h| then h[..n] else h;
      assert h'[m] == h[m];
      if n < |h| { assert h'[n] == h[n]; }
    }
  }

  lemma TickKeepsExclusive(a: Adapter, ttl: int, w: World, now: Time)
    requires Exclusive(a, ttl, w) && now >= w.time
    ensures Exclusive(a, ttl, w.(time := now))
  {
    var w' := w.(time := now);
    forall i, key | Owns(w', i, key) ensures Owns(w, i, key) {}
    forall m | 0 <= m < |w.history| && w.history[m].Completion? && Forgotten(ttl, w.history, m, w.time)
      ensures Forgotten(ttl, w.history, m, now)
    {
      ForgottenGrows(ttl, w.history, w.history[m], m, w.time, now);
    }
  }

  lemma CallKeepsClock(a: Adapter, ttl: int, items: Items, pc: PC)
    ensures var r := TryStartCall(a, ttl, items, pc);
      && (r.next.Some? ==> r.next.value.now == pc.now && r.next.value.key == pc.key && r.items == items)
      && (r.result != Some(Proceed) ==> r.items == items)
      && (r.next.None? && r.result == Some(Proceed) ==>
           Free(a, items, pc.key, pc.now) && r.items == items[pc.key := ClaimRec(a, ttl, pc.now)])
  {
  }

  /** A claim makes the claimant the only owner: nobody whose lease still runs lost the key. */
  lemma ClaimKeepsOwners(a: Adapter, ttl: int, w: World, i: Owner, w': World)
    requires Owners(a, ttl, w) && i in w.slots && w.slots[i].Trying?
    requires ClaimTaken(a, ttl, w, i, w')
    ensures Owners(a, ttl, w')
  {
    var pc := w.slots[i].pc;
    forall j ensures !Owns(w, j, pc.key) {
      if Owns(w, j, pc.key) { ExpiredIsOver(a, w.slots[j].deadline, pc.now); }
    }
    assert forall j, key :: Owns(w', j, key) ==>
      (j == i && key == pc.key) || (j != i && key != pc.key && Owns(w, j, key));
  }

  ghost predicate ClaimTaken(a: Adapter, ttl: int, w: World, i: Owner, w': World)
    requires i in w.slots && w.slots[i].Trying?
  {
    var pc := w.slots[i].pc;
    && Free(a, w.items, pc.key, pc.now) && w'.time == w.time
    && w'.items == w.items[pc.key := ClaimRec(a, ttl, pc.now)]
    && w'.slots == w.slots[i := Owning(pc.key, pc.now + ttl)]
    && w'.history == w.history + [Claim(pc.key, pc.now)]
  }

  /** No record of a standing completion is written over. */
  lemma DoneStandsGrows(a: Adapter, ttl: int, w: World, w': World, e: Event)
    requires DoneStands(a, ttl, w) && w'.time == w.time && w'.history == w.history + [e] && !e.Completion?
    requires forall m :: 0 <= m < |w.history| && w.history[m].Completion? ==>
      var key := w.history[m].key;
      || Forgotten(ttl, w'.history, m, w'.time)
      || (key in w.items && w.items[key] == DoneRec(a, ttl, w.history[m].now) ==>
          key in w'.items && w'.items[key] == w.items[key])
    ensures DoneStands(a, ttl, w')
  {
    forall m | 0 <= m < |w'.history| && w'.history[m].Completion?
      ensures Forgotten(ttl, w'.history, m, w'.time)
        || (w'.history[m].key in w'.items && w'.items[w'.history[m].key] == DoneRec(a, ttl, w'.history[m].now))
    {
      assert w'.history[m] == w.history[m];
      if Forgotten(ttl, w.history, m, w.time) { ForgottenGrows(ttl, w.history, e, m, w.time, w.time); }
    }
  }

  lemma ClaimKeepsExclusive(a: Adapter, ttl: int, w: World, i: Owner, w': World)
    requires Exclusive(a, ttl, w) && i in w.slots && w.slots[i].Trying?
    requires ClaimTaken(a, ttl, w, i, w')
    ensures Exclusive(a, ttl, w')
  {
    hide Owners, Apart, Forgotten, DoneStands;
    ClaimKeepsOwners(a, ttl, w, i, w');
    DoneStandsGrows(a, ttl, w, w', Claim(w.slots[i].pc.key, w.slots[i].pc.now));
    ApartGrows(ttl, w.history, Claim(w.slots[i].pc.key, w.slots[i].pc.now));
  }

  lemma ActKeepsExclusive(a: Adapter, ttl: int, w: World, i: Owner)
    requires Exclusive(a, ttl, w)
    ensures Exclusive(a, ttl, ActStep(a, ttl, w, i))
  {
    hide TryStartCall, Free, Apart, DoneStands;
    var w' := ActStep(a, ttl, w, i);
    if i in w.slots && w.slots[i].Trying? {
      CallKeepsClock(a, ttl, w.items, w.slots[i].pc);
      if w'.history == w.history {
        assert forall j, key :: Owns(w', j, key) ==> Owns(w, j, key);
        SameStoreExclusive(a, ttl, w, w');
      } else {
        ClaimKeepsExclusive(a, ttl, w, i, w');
      }
    }
  }

  /** Nobody gains a key and the store stays. */
  lemma SameStoreExclusive(a: Adapter, ttl: int, w: World, w': World)
    requires Exclusive(a, ttl, w) && w'.time == w.time && w'.history == w.history && w'.items == w.items
    requires forall j :: j in w'.slots && w'.slots[j].Trying? ==> w'.slots[j].pc.now <= w.time
    requires forall j, k :: Owns(w', j, k) ==> Owns(w, j, k) && w'.slots[j] == w.slots[j]
    ensures Exclusive(a, ttl, w')
  {
  }

  /** While somebody owns a key, every completion of it has been forgotten. */
  lemma OwnedIsForgotten(a: Adapter, ttl: int, w: World, i: Owner, key: string)
    requires Exclusive(a, ttl, w) && Owns(w, i, key)
    ensures forall m :: 0 <= m < |w.history| && CompletionOf(w.history[m], key) ==> Forgotten(ttl, w.history, m, w.time)
  {
    hide Forgotten, Apart;
  }

  lemma VerdictKeepsOwners(a: Adapter, ttl: int, w: World, i: Owner, key: string, w': World)
    requires Owners(a, ttl, w) && Owns(w, i, key)
    requires w'.time == w.time && w'.slots == w.slots - {i} && forall k :: k != key && k in w.items ==>
      k in w'.items && w'.items[k] == w.items[k]
    ensures Owners(a, ttl, w')
  {
    forall j, k | Owns(w', j, k) ensures Owns(w, j, k) && j != i && k != key {
      assert Owns(w, j, k);
    }
  }

  lemma CompleteKeepsExclusive(a: Adapter, ttl: int, w: World, i: Owner, key: string)
    requires Exclusive(a, ttl, w) && Owns(w, i, key)
    ensures Exclusive(a, ttl, Step(a, ttl, w, CallComplete(i, key, w.time)))
  {
    hide Owners, Apart, Forgotten;
    var w' := Step(a, ttl, w, CallComplete(i, key, w.time));
    var e := Completion(key, w.time);
    VerdictKeepsOwners(a, ttl, w, i, key, w');
    OwnedIsForgotten(a, ttl, w, i, key);
    ApartGrows(ttl, w.history, e);
    forall m | 0 <= m < |w'.history| && w'.history[m].Completion?
      ensures Forgotten(ttl, w'.history, m, w'.time)
        || (w'.history[m].key in w'.items && w'.items[w'.history[m].key] == DoneRec(a, ttl, w'.history[m].now))
    {
      if m < |w.history| {
        assert w'.history[m] == w.history[m];
        if Forgotten(ttl, w.history, m, w.time) { ForgottenGrows(ttl, w.history, e, m, w.time, w.time); }
      }
    }
  }

  lemma FailKeepsExclusive(a: Adapter, ttl: int, w: World, i: Owner, key: string)
    requires Exclusive(a, ttl, w) && Owns(w, i, key)
    ensures Exclusive(a, ttl, Step(a, ttl, w, CallFail(i, key, w.time)))
  {
    hide Owners, Apart, Forgotten;
    var w' := Step(a, ttl, w, CallFail(i, key, w.time));
    VerdictKeepsOwners(a, ttl, w, i, key, w');
    OwnedIsForgotten(a, ttl, w, i, key);
    ApartGrows(ttl, w.history, Failure(key));
    forall m | 0 <= m < |w.history| && w.history[m].Completion? && Forgotten(ttl, w.history, m, w.time)
      ensures Forgotten(ttl, w'.history, m, w'.time)
    {
      ForgottenGrows(ttl, w.history, Failure(key), m, w.time, w.time);
    }
    hide DoneStands;
    DoneStandsGrowsFor(a, ttl, w, w', Failure(key), key);
  }

  /** The same, when only the record of one key changed and its completions are forgotten. */
  lemma DoneStandsGrowsFor(a: Adapter, ttl: int, w: World, w': World, e: Event, key: string)
    requires DoneStands(a, ttl, w) && w'.time == w.time && w'.history == w.history + [e] && !e.Completion?
    requires forall k :: k != key && k in w.items ==> k in w'.items && w'.items[k] == w.items[k]
    requires forall m :: 0 <= m < |w.history| && CompletionOf(w.history[m], key) ==>
      Forgotten(ttl, w'.history, m, w'.time)
    ensures DoneStands(a, ttl, w')
  {
    hide DoneStands, Forgotten;
    DoneStandsGrows(a, ttl, w, w', e);
  }

  /** A record dropped after its expiry had no owner any more, and a completion it stood for
      is four leases old. */
  lemma EvictKeepsExclusive(a: Adapter, ttl: int, w: World, key: string)
    requires ttl > 0 && Exclusive(a, ttl, w) && Disciplined(a, w, Evict(key))
    ensures Exclusive(a, ttl, Step(a, ttl, w, Evict(key)))
  {
    hide Apart;
    var w' := Step(a, ttl, w, Evict(key));
    var e := Removal(key, w.time);
    forall j ensures !Owns(w, j, key) {
      if Owns(w, j, key) { OwnedNotOverdue(a, ttl, w.slots[j].deadline, w.time); }
    }
    assert forall j, k :: Owns(w', j, k) ==> Owns(w, j, k);
    forall m | 0 <= m < |w.history| && CompletionOf(w.history[m], key) ensures Forgotten(ttl, w'.history, m, w'.time) {
      if Forgotten(ttl, w.history, m, w.time) {
        ForgottenGrows(ttl, w.history, e, m, w.time, w.time);
      } else {
        DoneOverdue(a, ttl, w.history[m].now, w.time);
        assert w'.history[|w.history|] == e && w'.history[m] == w.history[m];
      }
    }
    DoneStandsGrowsFor(a, ttl, w, w', e, key);
    ApartGrows(ttl, w.history, e);
  }

  lemma OwnedNotOverdue(a: Adapter, ttl: int, deadline: Time, now: Time)
    requires ttl > 0 && !a.Memory? && now <= deadline
    ensures !Overdue(a, ClaimRec(a, ttl, deadline - ttl).expiry, now)
  {
  }

  lemma DoneOverdue(a: Adapter, ttl: int, done: Time, now: Time)
    requires !a.Memory? && Overdue(a, DoneRec(a, ttl, done).expiry, now)
    ensures done + 4 * ttl < now
  {
  }

  lemma StepKeepsExclusive(a: Adapter, ttl: int, w: World, l: Label)
    requires ttl > 0 && Exclusive(a, ttl, w) && Disciplined(a, w, l)
    ensures Exclusive(a, ttl, Step(a, ttl, w, l))
  {
    match l {
      case Tick(now) => TickKeepsExclusive(a, ttl, w, now);
      case Act(i) => hide ActStep, Exclusive; ActKeepsExclusive(a, ttl, w, i);
      case CallComplete(i, key, clock) => hide Exclusive, Step; CompleteKeepsExclusive(a, ttl, w, i, key);
      case CallFail(i, key, clock) => hide Exclusive, Step; FailKeepsExclusive(a, ttl, w, i, key);
      case Evict(key) => hide Step, Exclusive; EvictKeepsExclusive(a, ttl, w, key);
      case _ => SlotKeepsExclusive(a, ttl, w, l);
    }
  }

  lemma SlotKeepsExclusive(a: Adapter, ttl: int, w: World, l: Label)
    requires Exclusive(a, ttl, w) && Disciplined(a, w, l) && (l.Sample? || l.GiveUp?)
    ensures Exclusive(a, ttl, Step(a, ttl, w, l))
  {
    hide Apart, DoneStands;
    var w' := Step(a, ttl, w, l);
    assert forall j :: j in w'.slots && w'.slots[j].Trying? ==> w'.slots[j].pc.now <= w.time;
    hide Exclusive;
    SameStoreExclusive(a, ttl, w, w');
  }

  lemma StartExclusive(a: Adapter, ttl: int)
    ensures Exclusive(a, ttl, START)
  {
  }

  lemma {:induction false} RunExclusive(a: Adapter, ttl: int, labels: seq<Label>)
    requires ttl > 0 && AllDisciplined(a, ttl, labels)
    ensures Exclusive(a, ttl, Run(a, ttl, labels))
  {
    hide Step, Exclusive, Disciplined, Run;
    if labels == [] {
      RunStart(a, ttl);
      StartExclusive(a, ttl);
    } else {
      var init := labels[..|labels| - 1];
      assert labels == init + [labels[|labels| - 1]];
      RunMore(a, ttl, init, labels[|labels| - 1]);
      forall n | 0 <= n < |init| ensures Disciplined(a, Run(a, ttl, init[..n]), init[n]) {
        assert labels[..n] == init[..n];
      }
      RunExclusive(a, ttl, init);
      assert Disciplined(a, Run(a, ttl, labels[..|labels| - 1]), labels[|labels| - 1]);
      StepKeepsExclusive(a, ttl, Run(a, ttl, init), labels[|labels| - 1]);
    }
  }

  /** Workers of any number on any partitions and in any processes, sharing one store, all
      finishing within their leases: a key is completed a second time only after the service
      dropped its record, more than four leases after the first; with the in-process store,
      never. Until then every TryStart answers SkipCompleted, whatever the clock. */
  lemma CompletedAtMostOnce(a: Adapter, ttl: int, labels: seq<Label>, m: nat, n: nat)
    requires ttl > 0 && AllDisciplined(a, ttl, labels)
    requires var h := Run(a, ttl, labels).history; m < |h| && h[m].Completion?
    ensures var h := Run(a, ttl, labels).history;
      m < n < |h| && CompletionOf(h[n], h[m].key) ==>
        !a.Memory? && h[n].now > h[m].now + 4 * ttl && Forgotten(ttl, h[..n], m, h[n].now)
    ensures var w := Run(a, ttl, labels);
      !RemovedAfter(w.history, w.history[m].key, m) ==>
        forall now :: Alone(a, ttl, w.items, Sampled(w.history[m].key, now)).result == Some(SkipCompleted)
  {
    hide Run;
    RunExclusive(a, ttl, labels);
    var h := Run(a, ttl, labels).history;
    if m < n < |h| && CompletionOf(h[n], h[m].key) {
      assert Forgotten(ttl, h[..n], m, h[n].now);
      var r :| 0 <= m < r < |h[..n]| && h[..n][m].Completion? && h[..n][r].Removal? && h[..n][r].key == h[..n][m].key
        && h[..n][m].now + 4 * ttl < h[..n][r].now <= h[n].now;
      assert h[r] == h[..n][r] && h[r] in h;
    }
  }

  // ---- the discipline is needed ----

  function Zero(): Owner { Owner(0, "", 0) }
  function One(): Owner { Owner(1, "", 0) }

  lemma CompleteRecorded(a: Adapter, w: World, i: Owner, key: string)
    ensures Step(a, 1, w, CallComplete(i, key, 0)).history == w.history + [Completion(key, 0)]
  {
  }

  /** The first worker claims the key at time 0. */
  lemma FirstClaim(a: Adapter, key: string) returns (labels: seq<Label>)
    ensures var w := Run(a, 1, labels);
      && w.time == 0 && w.items == map[key := ClaimRec(a, 1, 0)] && w.history == [Claim(key, 0)]
      && w.slots == map[Zero() := Owning(key, 1)]
  {
    hide Run;
    var l1 := [Sample(Zero(), key, 0)];
    labels := l1 + [Act(Zero())];
    RunStart(a, 1);
    RunMore(a, 1, [], Sample(Zero(), key, 0));
    assert [] + [Sample(Zero(), key, 0)] == l1;
    RunMore(a, 1, l1, Act(Zero()));
  }

  /** A worker that tries at a time when the key is free for its clock gets it in at most three calls. */
  lemma StealsLate(a: Adapter, w: World, key: string)
    requires w.slots == map[Zero() := Owning(key, 1), One() := Trying(Sampled(key, 2 * SECOND))]
    requires Free(a, w.items, key, 2 * SECOND)
    ensures Step(a, 1, Step(a, 1, Step(a, 1, w, Act(One())), Act(One())), Act(One())).history ==
      w.history + [Claim(key, 2 * SECOND)]
  {
  }

  /** The other worker tries and takes the key. */
  lemma SecondClaim(a: Adapter, key: string, l0: seq<Label>) returns (labels: seq<Label>)
    requires var w := Run(a, 1, l0); w.slots == map[Zero() := Owning(key, 1)] && Free(a, w.items, key, 2 * SECOND)
    ensures Run(a, 1, labels).history == Run(a, 1, l0).history + [Claim(key, 2 * SECOND)]
  {
    hide Run;
    var l1 := l0 + [Sample(One(), key, 2 * SECOND)];
    RunMore(a, 1, l0, Sample(One(), key, 2 * SECOND));
    StealsLate(a, Run(a, 1, l1), key);
    hide Step;
    RunMore(a, 1, l1, Act(One()));
    RunMore(a, 1, l1 + [Act(One())], Act(One()));
    RunMore(a, 1, l1 + [Act(One())] + [Act(One())], Act(One()));
    labels := l1 + [Act(One())] + [Act(One())] + [Act(One())];
  }

  /** Owners must finish in time: one that outlives its lease completes the key again. */
  lemma LateOwnerCompletesTwice(a: Adapter, key: string) returns (labels: seq<Label>)
    requires !a.Redis?
    ensures Run(a, 1, labels).history == [Claim(key, 0), Claim(key, 2 * SECOND), Completion(key, 0), Completion(key, 0)]
  {
    hide Run;
    var l0 := FirstClaim(a, key);
    var l1 := SecondClaim(a, key, l0);
    var l2 := l1 + [CallComplete(Zero(), key, 0)];
    labels := l2 + [CallComplete(One(), key, 0)];
    RunMore(a, 1, l1, CallComplete(Zero(), key, 0));
    RunMore(a, 1, l2, CallComplete(One(), key, 0));
    hide Step;
    CompleteRecorded(a, Run(a, 1, l1), Zero(), key);
    CompleteRecorded(a, Run(a, 1, l2), One(), key);
  }

  /** Records must be kept for their time: one dropped early lets the key be completed again,
      at once and by owners that are all in time. */
  lemma DroppedRecordCompletesTwice(a: Adapter, key: string) returns (labels: seq<Label>)
    ensures Run(a, 1, labels).history ==
      [Claim(key, 0), Completion(key, 0), Removal(key, 0), Claim(key, 0), Completion(key, 0)]
  {
    hide Run;
    var l0 := FirstClaim(a, key);
    var l1 := l0 + [CallComplete(Zero(), key, 0)];
    var l2 := l1 + [Evict(key)];
    var l3 := l2 + [Sample(Zero(), key, 0)];
    var l4 := l3 + [Act(Zero())];
    labels := l4 + [CallComplete(Zero(), key, 0)];
    RunMore(a, 1, l0, CallComplete(Zero(), key, 0));
    RunMore(a, 1, l1, Evict(key));
    RunMore(a, 1, l2, Sample(Zero(), key, 0));
    RunMore(a, 1, l3, Act(Zero()));
    RunMore(a, 1, l4, CallComplete(Zero(), key, 0));
  }

  /** One more label of a disciplined run. */
  lemma DisciplinedMore(a: Adapter, ttl: int, labels: seq<Label>, l: Label)
    requires AllDisciplined(a, ttl, labels) && Disciplined(a, Run(a, ttl, labels), l)
    ensures AllDisciplined(a, ttl, labels + [l])
    ensures Run(a, ttl, labels + [l]) == Step(a, ttl, Run(a, ttl, labels), l)
  {
    hide Run, Disciplined, Step;
    RunMore(a, ttl, labels, l);
    var all := labels + [l];
    forall n | 0 <= n < |all| ensures Disciplined(a, Run(a, ttl, all[..n]), all[n]) {
      assert all[..n] == if n < |labels| then labels[..n] else labels;
      if n < |labels| { assert Disciplined(a, Run(a, ttl, labels[..n]), labels[n]); }
    }
  }

  /** A key claimed and completed at once, by a disciplined worker, at the time it is. */
  lemma ClaimsAndCompletes(a: Adapter, key: string, l0: seq<Label>) returns (labels: seq<Label>)
    requires AllDisciplined(a, 1, l0) && Run(a, 1, l0).slots == map[] && key !in Run(a, 1, l0).items
    ensures AllDisciplined(a, 1, labels)
    ensures var w, w' := Run(a, 1, l0), Run(a, 1, labels);
      && w'.time == w.time && w'.slots == map[] && w'.items == w.items[key := DoneRec(a, 1, w.time)]
      && w'.history == w.history + [Claim(key, w.time), Completion(key, w.time)]
  {
    hide Run, AllDisciplined;
    var now := Run(a, 1, l0).time;
    var l1 := l0 + [Sample(Zero(), key, now)];
    var l2 := l1 + [Act(Zero())];
    labels := l2 + [CallComplete(Zero(), key, now)];
    DisciplinedMore(a, 1, l0, Sample(Zero(), key, now));
    DisciplinedMore(a, 1, l1, Act(Zero()));
    DisciplinedMore(a, 1, l2, CallComplete(Zero(), key, now));
  }

  /** Four leases are all there is: for every service a disciplined run completes a key twice as
      soon as its record may have been dropped, two seconds after the four leases. */
  lemma FourLeasesIsTight(a: Adapter, key: string) returns (labels: seq<Label>)
    requires !a.Memory?
    ensures AllDisciplined(a, 1, labels)
    ensures var later := 4 + 2 * SECOND;
      Run(a, 1, labels).history ==
        [Claim(key, 0), Completion(key, 0), Removal(key, later), Claim(key, later), Completion(key, later)]
  {
    hide Run, AllDisciplined;
    var later := 4 + 2 * SECOND;
    NothingYet(a);
    var l1 := ClaimsAndCompletes(a, key, []);
    var l2 := l1 + [Tick(later)];
    DisciplinedMore(a, 1, l1, Tick(later));
    KeptExactly(a, 1, 0, later);
    DisciplinedMore(a, 1, l2, Evict(key));
    labels := ClaimsAndCompletes(a, key, l2 + [Evict(key)]);
  }

  lemma NothingYet(a: Adapter)
    ensures AllDisciplined(a, 1, []) && Run(a, 1, []) == START
  {
    RunStart(a, 1);
  }

  // ---- TryStart with nobody else around ----

  /** The calls of one TryStart, one after the other. */
  function Alone(a: Adapter, ttl: int, items: Items, pc: PC): (r: Attempt)
    decreases Remaining(pc)
  {
    var r := TryStartCall(a, ttl, items, pc);
    match r.next
    case None => r
    case Some(next) => Alone(a, ttl, r.items, next)
  }
}
