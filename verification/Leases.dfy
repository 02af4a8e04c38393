/** The adapters against the in-process store, call for call: the same history of TryStart,
    Complete and Fail calls, one at a time, with any clock readings and nothing evicted. */
module Leases {
  import opened Wrappers
  import opened Claims

  datatype Op = Start(key: string, clock: Time) | Finish(key: string, clock: Time) | Abandon(key: string, clock: Time)

  datatype Done = Done(items: Items, results: seq<Result>)

  function Do(a: Adapter, ttl: int, items: Items, op: Op): Items {
    match op
    case Start(key, clock) => Alone(a, ttl, items, Sampled(key, clock)).items
    case Finish(key, clock) => items[key := DoneRec(a, ttl, clock)]
    case Abandon(key, clock) => items[key := FailedRec(a, ttl, clock)]
  }

  /** What every TryStart answered, in order, and the records left. */
  function DoAll(a: Adapter, ttl: int, ops: seq<Op>): Done {
    if ops == [] then Done(map[], [])
    else
      var before := DoAll(a, ttl, ops[..|ops| - 1]);
      var op := ops[|ops| - 1];
      Done(Do(a, ttl, before.items, op), before.results + Answer(a, ttl, before.items, op))
  }

  function Answer(a: Adapter, ttl: int, items: Items, op: Op): seq<Result> {
    match op
    case Start(key, clock) =>
      var r := Alone(a, ttl, items, Sampled(key, clock)).result;
      if r.Some? then [r.value] else []
    case _ => []
  }

  /** One TryStart, in one go: it claims a key that is absent, that failed, or whose lease has
      run out (by the clock, by DynamoDB's whole seconds, and never by Redis, whose server
      drops it); for every other key it changes nothing and says why. */
  lemma AloneIsAtomic(a: Adapter, ttl: int, items: Items, key: string, now: Time)
    ensures Alone(a, ttl, items, Sampled(key, now)) ==
      if key !in items || items[key].state.Failed? then
        Attempt(items[key := ClaimRec(a, ttl, now)], None, Some(Proceed))
      else if items[key].state.Completed? then Attempt(items, None, Some(SkipCompleted))
      else if !a.Redis? && items[key].lease < (if a.Dynamo? then now / SECOND else now) then
        Attempt(items[key := ClaimRec(a, ttl, now)], None, Some(Proceed))
      else Attempt(items, None, Some(SkipInProgress))
  {
    if !a.Memory? && key in items {
      var missed := Missed(key, now);
      assert Alone(a, ttl, items, Sampled(key, now)) == Alone(a, ttl, items, missed);
      if Free(a, items, key, now) {
        var stale := Stale(key, now, items[key].state);
        assert Alone(a, ttl, items, missed) == Alone(a, ttl, items, stale);
      }
    }
  }

  /** One TryStart with others acting between its calls, which find `i0`, `i1` and `i2`: it
      claims what was absent at first, or absent at the second look and still so at the third
      (Mongo does not try again), or what had failed or run out at the second look and is still
      in that state, and still run out, at the third. Otherwise it says what it saw at the second. */
  lemma InterleavedAnswer(a: Adapter, ttl: int, key: string, now: Time, i0: Items, i1: Items, i2: Items)
    requires !a.Memory?
    ensures var clock := if a.Dynamo? then now / SECOND else now;
      var r0 := TryStartCall(a, ttl, i0, Sampled(key, now));
      var r1 := if r0.next.Some? then TryStartCall(a, ttl, i1, r0.next.value) else r0;
      var r2 := if r1.next.Some? then TryStartCall(a, ttl, i2, r1.next.value) else r1;
      && r2.next.None?
      && r2.result == Some(
           if key !in i0 then Proceed
           else if key !in i1 then (if !a.Mongo? && key !in i2 then Proceed else SkipInProgress)
           else if i1[key].state.Completed? then SkipCompleted
           else if i1[key].state.Processing? && (a.Redis? || i1[key].lease >= clock) then SkipInProgress
           else if key !in i2 || i2[key].state != i1[key].state then SkipInProgress
           else if i2[key].state.Processing? && i2[key].lease >= clock then SkipInProgress
           else Proceed)
  {
  }

  /** What each verdict means for whoever tries next, at any clock: a failed key is free at
      once, a completed one never is, and one under way is left alone while its lease lasts. */
  lemma VerdictsDecide(a: Adapter, ttl: int, items: Items, key: string, then_: Time, now: Time)
    ensures Alone(a, ttl, items[key := FailedRec(a, ttl, then_)], Sampled(key, now)).result == Some(Proceed)
    ensures Alone(a, ttl, items[key := DoneRec(a, ttl, then_)], Sampled(key, now)).result == Some(SkipCompleted)
    ensures now <= then_ + ttl ==>
      Alone(a, ttl, items[key := ClaimRec(a, ttl, then_)], Sampled(key, now)).result == Some(SkipInProgress)
    ensures now >= then_ + ttl + SECOND && !a.Redis? ==>
      Alone(a, ttl, items[key := ClaimRec(a, ttl, then_)], Sampled(key, now)).result == Some(Proceed)
  {
    AloneIsAtomic(a, ttl, items[key := FailedRec(a, ttl, then_)], key, now);
    AloneIsAtomic(a, ttl, items[key := DoneRec(a, ttl, then_)], key, now);
    AloneIsAtomic(a, ttl, items[key := ClaimRec(a, ttl, then_)], key, now);
  }

  /** Same keys, same states; the leases of records in processing correspond. */
  ghost predicate Related(a: Adapter, mem: Items, items: Items) {
    && mem.Keys == items.Keys
    && forall key :: key in mem ==>
         && items[key].state == mem[key].state
         && (mem[key].state.Processing? ==> items[key].lease == Stamp(a, mem[key].lease))
  }

  /** The record's lease ran out, but within the second the clock is in. */
  predicate SubSecond(mem: Items, op: Op) {
    && op.Start? && op.key in mem && mem[op.key].state.Processing?
    && mem[op.key].lease < op.clock && mem[op.key].lease / SECOND == op.clock / SECOND
  }

  /** Redis compares no lease, so it answers otherwise whenever one has run out. */
  predicate Differs(a: Adapter, mem: Items, op: Op) {
    match a
    case Dynamo => SubSecond(mem, op)
    case Redis => op.Start? && op.key in mem && mem[op.key].state.Processing? && mem[op.key].lease < op.clock
    case _ => false
  }

  /** From related records, an adapter and the in-process store answer alike and stay
      related, exactly when the call is not one of those where they differ. */
  lemma OneCallAgrees(a: Adapter, ttl: int, mem: Items, items: Items, op: Op)
    requires Related(a, mem, items)
    ensures (Answer(a, ttl, items, op) == Answer(Memory, ttl, mem, op)
        && Related(a, Do(Memory, ttl, mem, op), Do(a, ttl, items, op)))
      <==> !Differs(a, mem, op)
  {
    if op.Start? {
      AloneIsAtomic(a, ttl, items, op.key, op.clock);
      AloneIsAtomic(Memory, ttl, mem, op.key, op.clock);
    }
  }

  /** DynamoDB's whole seconds err on one side, and by less than one: it never steals a lease
      the in-process store would respect, and always one that is over by a full second. */
  lemma DynamoErrsLate(ttl: int, mem: Items, items: Items, key: string, now: Time)
    requires Related(Dynamo, mem, items) && key in mem && mem[key].state.Processing?
    ensures var dynamo := Alone(Dynamo, ttl, items, Sampled(key, now)).result;
      && (dynamo == Some(Proceed) ==> Alone(Memory, ttl, mem, Sampled(key, now)).result == Some(Proceed))
      && (now >= mem[key].lease + SECOND ==> dynamo == Some(Proceed))
  {
    AloneIsAtomic(Dynamo, ttl, items, key, now);
    AloneIsAtomic(Memory, ttl, mem, key, now);
  }

  /** No call of the history is one where the adapter differs. */
  ghost predicate NeverDiffers(a: Adapter, ttl: int, ops: seq<Op>) {
    forall n :: 0 <= n < |ops| ==> !Differs(a, DoAll(Memory, ttl, ops[..n]).items, ops[n])
  }

  /** A call where the adapter differs gets another answer. */
  lemma DifferingCallDiffers(a: Adapter, ttl: int, mem: Items, items: Items, op: Op)
    requires Related(a, mem, items) && Differs(a, mem, op)
    ensures Answer(a, ttl, items, op) != Answer(Memory, ttl, mem, op)
  {
    AloneIsAtomic(a, ttl, items, op.key, op.clock);
    AloneIsAtomic(Memory, ttl, mem, op.key, op.clock);
  }

  lemma OneAnswer(a: Adapter, ttl: int, items: Items, op: Op)
    ensures |Answer(a, ttl, items, op)| == if op.Start? then 1 else 0
  {
    if op.Start? { AloneIsAtomic(a, ttl, items, op.key, op.clock); }
  }

  lemma {:induction false} SameLength(a: Adapter, ttl: int, ops: seq<Op>)
    ensures |DoAll(a, ttl, ops).results| == |DoAll(Memory, ttl, ops).results|
  {
    hide Do, Answer;
    if ops != [] {
      var init, op := ops[..|ops| - 1], ops[|ops| - 1];
      SameLength(a, ttl, init);
      OneAnswer(a, ttl, DoAll(a, ttl, init).items, op);
      OneAnswer(Memory, ttl, DoAll(Memory, ttl, init).items, op);
    }
  }

  lemma NeverDiffersPrefix(a: Adapter, ttl: int, ops: seq<Op>)
    requires ops != []
    ensures NeverDiffers(a, ttl, ops) <==>
      NeverDiffers(a, ttl, ops[..|ops| - 1]) && !Differs(a, DoAll(Memory, ttl, ops[..|ops| - 1]).items, ops[|ops| - 1])
  {
    hide Differs, DoAll;
    var init := ops[..|ops| - 1];
    if NeverDiffers(a, ttl, ops) {
      forall n | 0 <= n < |init| ensures !Differs(a, DoAll(Memory, ttl, init[..n]).items, init[n]) {
        assert init[..n] == ops[..n] && init[n] == ops[n];
      }
    }
    if NeverDiffers(a, ttl, init) && !Differs(a, DoAll(Memory, ttl, init).items, ops[|ops| - 1]) {
      forall n | 0 <= n < |ops| ensures !Differs(a, DoAll(Memory, ttl, ops[..n]).items, ops[n]) {
        if n < |init| { assert init[..n] == ops[..n] && init[n] == ops[n]; }
      }
    }
  }

  /** Whole histories: the answers are the same, one after the other, exactly when no call of
      the history is one where the adapter differs; the records then still correspond. */
  lemma {:induction false} HistoriesAgree(a: Adapter, ttl: int, ops: seq<Op>)
    ensures DoAll(a, ttl, ops).results == DoAll(Memory, ttl, ops).results <==> NeverDiffers(a, ttl, ops)
    ensures NeverDiffers(a, ttl, ops) ==> Related(a, DoAll(Memory, ttl, ops).items, DoAll(a, ttl, ops).items)
  {
    hide Do, Answer, Differs, NeverDiffers;
    if ops == [] {
      NothingDiffers(a, ttl);
    } else {
      var init, op := ops[..|ops| - 1], ops[|ops| - 1];
      var mem, items := DoAll(Memory, ttl, init), DoAll(a, ttl, init);
      NeverDiffersPrefix(a, ttl, ops);
      HistoriesAgree(a, ttl, init);
      SameLength(a, ttl, init);
      var x, y := Answer(a, ttl, items.items, op), Answer(Memory, ttl, mem.items, op);
      OneAnswer(a, ttl, items.items, op);
      OneAnswer(Memory, ttl, mem.items, op);
      Concatenated(items.results, x, mem.results, y);
      if NeverDiffers(a, ttl, init) {
        OneCallAgrees(a, ttl, mem.items, items.items, op);
        if Differs(a, mem.items, op) { DifferingCallDiffers(a, ttl, mem.items, items.items, op); }
      }
    }
  }

  lemma NothingDiffers(a: Adapter, ttl: int)
    ensures NeverDiffers(a, ttl, [])
  {
  }

  lemma Concatenated(a: seq<Result>, x: seq<Result>, b: seq<Result>, y: seq<Result>)
    requires |a| == |b| && |x| == |y|
    ensures a + x == b + y <==> a == b && x == y
  {
    if a + x == b + y {
      assert a == (a + x)[..|a|] && b == (b + y)[..|b|];
      assert x == (a + x)[|a|..] && y == (b + y)[|b|..];
    }
  }

  lemma MongoBisimilar(ttl: int, ops: seq<Op>)
    ensures DoAll(Mongo, ttl, ops).results == DoAll(Memory, ttl, ops).results
  {
    HistoriesAgree(Mongo, ttl, ops);
  }
}
