/** The idempotency stores as they are: the in-process store, and the DynamoDB, Mongo and
    Redis adapters over the stand-ins for their services. Between two calls on a service
    anybody may do anything to its records (`Meddle`). Each TryStart is shown to be the
    machine's, call by call, so what Claims proves of interleaved workers holds of this code. */
module Stores {
  import opened Wrappers
  import opened Claims
  import opened Leases

  const DEFAULT_TTL: int := 15 * 60 * SECOND

  /** A lease time that is not positive means the default. */
  function TTLOr(ttl: int): (r: int)
    ensures r > 0 && (ttl > 0 ==> r == ttl)
  {
    if ttl <= 0 then DEFAULT_TTL else ttl
  }

  /** One call of a TryStart: the records it met, where TryStart stood, what it made of them. */
  datatype Move = Move(before: Items, pc: PC, made: Attempt)

  /** The moves are one whole TryStart of the machine, with `result` in the end. */
  ghost predicate Plays(a: Adapter, ttl: int, moves: seq<Move>, key: string, now: Time, result: Result) {
    && Started(a, ttl, moves, key, now)
    && moves[|moves| - 1].made.next == None && moves[|moves| - 1].made.result == Some(result)
  }

  ghost predicate Started(a: Adapter, ttl: int, moves: seq<Move>, key: string, now: Time) {
    && |moves| > 0 && moves[0].pc == Sampled(key, now)
    && (forall i :: 0 <= i < |moves| ==> moves[i].made == TryStartCall(a, ttl, moves[i].before, moves[i].pc))
    && (forall i :: 0 < i < |moves| ==> moves[i - 1].made.next == Some(moves[i].pc))
  }

  /** A TryStart nobody came between gets the answer the records it found call for. In
      particular a key that is absent or that failed is granted, by every adapter at any clock. */
  lemma UndisturbedAnswer(a: Adapter, ttl: int, moves: seq<Move>, key: string, now: Time, result: Result)
    requires Plays(a, ttl, moves, key, now, result)
    requires forall i :: 0 <= i < |moves| ==> moves[i].before == moves[0].before
    ensures Some(result) == Alone(a, ttl, moves[0].before, Sampled(key, now)).result
    ensures var items := moves[0].before;
      key !in items || items[key].state.Failed? ==> result.Proceed?
  {
    hide TryStartCall;
    var items, n := moves[0].before, |moves| - 1;
    var i := n;
    while i > 0
      invariant 0 <= i <= n && Alone(a, ttl, items, moves[i].pc).result == Some(result)
    {
      i := i - 1;
      CallShape(a, ttl, items, moves[i].pc);
      assert moves[i].made.next == Some(moves[i + 1].pc);
    }
    AloneIsAtomic(a, ttl, items, key, now);
  }

  function Note(a: Adapter, ttl: int, before: Items, pc: PC): Move {
    Move(before, pc, TryStartCall(a, ttl, before, pc))
  }

  ghost predicate MovedFrom(a: Adapter, ttl: int, move: Move, pc: PC) {
    move.pc == pc && move.made == TryStartCall(a, ttl, move.before, pc)
  }

  /** What TryStart makes of the record it read. */
  ghost predicate ReadAnswer(a: Adapter, move: Move, found: Option<(State, int)>) {
    var key, now := move.pc.key, move.pc.now;
    match found
    case None =>
      if a.Mongo? then move.made.next == None && move.made.result == Some(SkipInProgress)
      else move.made.next == Some(Vanished(key, now))
    case Some(cur) =>
      if cur.0.Completed? then move.made.next == None && move.made.result == Some(SkipCompleted)
      else if cur.0.Failed? || Expired(a, cur.1, now) then move.made.next == Some(Stale(key, now, cur.0))
      else move.made.next == None && move.made.result == Some(SkipInProgress)
  }

  /** What somebody else does to a record. */
  datatype Meddling<T> = Write(key: string, item: T) | Drop(key: string)

  function Meddled<T>(items: map<string, T>, m: Meddling<T>): map<string, T> {
    match m
    case Write(key, item) => items[key := item]
    case Drop(key) => items - {key}
  }

  // ---- idempotency.Memory ----

  class MemoryStore {
    var items: Items
    const ttl: int

    constructor (ttl: int)
      ensures items == map[] && this.ttl == TTLOr(ttl)
    {
      items, this.ttl := map[], TTLOr(ttl);
    }

    /** One locked region: a free key is claimed; nothing else changes. */
    method TryStart(key: string, now: Time) returns (result: Result)
      modifies this
      ensures Attempt(items, None, Some(result)) == TryStartCall(Memory, ttl, old(items), Sampled(key, now))
    {
      if key !in items || items[key].state == Failed || (items[key].state == Processing && now > items[key].lease) {
        items := items[key := Rec(Processing, now + ttl, 0)];
        return Proceed;
      }
      if items[key].state == Completed { return SkipCompleted; }
      return SkipInProgress;
    }

    method Complete(key: string, now: Time)
      modifies this
      ensures items == old(items)[key := DoneRec(Memory, ttl, now)]
    {
      items := items[key := Rec(Completed, now + ttl, 0)];
    }

    method Fail(key: string, now: Time)
      modifies this
      ensures items == old(items)[key := FailedRec(Memory, ttl, now)]
    {
      items := items[key := Rec(Failed, 0, 0)];
    }
  }

  // ---- DynamoDB ----

  datatype Item = Item(key: string, state: State, leaseUntil: int, expiration: int)

  class DynamoApi {
    var items: map<string, Item>

    constructor ()
      ensures items == map[]
    {
      items := map[];
    }

    function View(): Items
      reads this
    {
      map k | k in items :: Rec(items[k].state, items[k].leaseUntil, items[k].expiration)
    }

    method PutIfAbsent(item: Item) returns (ok: bool)
      modifies this
      ensures ok <==> item.key !in old(items)
      ensures items == if ok then old(items)[item.key := item] else old(items)
    {
      if item.key in items { return false; }
      items := items[item.key := item];
      return true;
    }

    method Get(key: string) returns (item: Option<Item>)
      ensures item == if key in items then Some(items[key]) else None
    {
      return if key in items then Some(items[key]) else None;
    }

    method ReplaceIf(item: Item, condState: State, leaseExpiredBefore: int) returns (ok: bool)
      modifies this
      ensures ok == (item.key in old(items) && old(items)[item.key].state == condState
                     && (condState.Processing? ==> old(items)[item.key].leaseUntil < leaseExpiredBefore))
      ensures items == if ok then old(items)[item.key := item] else old(items)
    {
      if item.key !in items { return false; }
      var cur := items[item.key];
      if cur.state != condState { return false; }
      if condState == Processing && cur.leaseUntil >= leaseExpiredBefore { return false; }
      items := items[item.key := item];
      return true;
    }

    method Put(item: Item)
      modifies this
      ensures items == old(items)[item.key := item]
    {
      items := items[item.key := item];
    }
  }

  class DynamoStore {
    const api: DynamoApi
    const ttl: int
    const others: nat -> seq<Meddling<Item>>
    var n: nat

    constructor (api: DynamoApi, ttl: int, others: nat -> seq<Meddling<Item>>)
      ensures this.api == api && this.ttl == TTLOr(ttl)
    {
      this.api, this.ttl, this.others, n := api, TTLOr(ttl), others, 0;
    }

    method Meddle()
      modifies this`n, api
    {
      var batch := others(n);
      n := n + 1;
      for i := 0 to |batch| {
        api.items := Meddled(api.items, batch[i]);
      }
    }

    method TryStart(key: string, now: Time) returns (result: Result, ghost moves: seq<Move>)
      modifies this`n, api
      ensures Plays(Dynamo, ttl, moves, key, now, result)
      ensures api.View() == moves[|moves| - 1].made.items
      ensures result.Proceed? ==> key in api.items && api.items[key] == ClaimItem(key, now)
    {
      hide TryStartCall;
      var item := ClaimItem(key, now);
      ghost var move;
      var ok;
      ok, move := Insert(item, Sampled(key, now));
      moves := [move];
      if ok { return Proceed, moves; }
      var found;
      found, move := Read(Missed(key, now));
      moves := moves + [move];
      if found.None? {
        ok, move := Insert(item, Vanished(key, now));
        return if ok then Proceed else SkipInProgress, moves + [move];
      }
      var cur := found.value;
      if cur.state == Completed { return SkipCompleted, moves; }
      if cur.state == Failed || (cur.state == Processing && cur.leaseUntil < now / SECOND) {
        ok, move := Replace(item, Stale(key, now, cur.state));
        return if ok then Proceed else SkipInProgress, moves + [move];
      }
      return SkipInProgress, moves;
    }

    /** The record of a claim; the service may evict it after four leases. */
    function ClaimItem(key: string, now: Time): Item { Item(key, Processing, (now + ttl) / SECOND,
                                                            (now + 4 * ttl) / SECOND) }

    method Insert(item: Item, ghost pc: PC) returns (ok: bool, ghost move: Move)
      requires pc.Sampled? || pc.Vanished?
      requires item.key == pc.key && Rec(item.state, item.leaseUntil, item.expiration) == ClaimRec(Dynamo, ttl, pc.now)
      modifies this`n, api
      ensures MovedFrom(Dynamo, ttl, move, pc) && api.View() == move.made.items
      ensures ok ==> item.key in api.items && api.items[item.key] == item
      ensures if ok then move.made.next == None && move.made.result == Some(Proceed)
        else if pc.Sampled? then move.made.next == Some(Missed(pc.key, pc.now))
        else move.made.next == None && move.made.result == Some(SkipInProgress)
    {
      Meddle();
      move := Note(Dynamo, ttl, api.View(), pc);
      ok := api.PutIfAbsent(item);
    }

    method Read(pc: PC) returns (found: Option<Item>, ghost move: Move)
      requires pc.Missed?
      modifies this`n, api
      ensures MovedFrom(Dynamo, ttl, move, pc) && api.View() == move.made.items
      ensures ReadAnswer(Dynamo, move, if found.Some? then Some((found.value.state, found.value.leaseUntil)) else None)
    {
      Meddle();
      move := Note(Dynamo, ttl, api.View(), pc);
      found := api.Get(pc.key);
    }

    method Replace(item: Item, pc: PC) returns (ok: bool, ghost move: Move)
      requires pc.Stale? && !pc.state.Completed?
      requires item.key == pc.key && Rec(item.state, item.leaseUntil, item.expiration) == ClaimRec(Dynamo, ttl, pc.now)
      modifies this`n, api
      ensures MovedFrom(Dynamo, ttl, move, pc) && api.View() == move.made.items
      ensures ok ==> item.key in api.items && api.items[item.key] == item
      ensures move.made.next == None && move.made.result == Some(if ok then Proceed else SkipInProgress)
    {
      Meddle();
      move := Note(Dynamo, ttl, api.View(), pc);
      ok := api.ReplaceIf(item, pc.state, pc.now / SECOND);
    }

    method Complete(key: string, now: Time)
      modifies api
      ensures api.View() == old(api.View())[key := DoneRec(Dynamo, ttl, now)]
      ensures key in api.items && api.items[key].key == key && api.items[key].expiration == (now + 4 * ttl) / SECOND
    {
      api.Put(Item(key, Completed, 0, (now + 4 * ttl) / SECOND));
    }

    method Fail(key: string, now: Time)
      modifies api
      ensures api.View() == old(api.View())[key := FailedRec(Dynamo, ttl, now)]
      ensures key in api.items && api.items[key].key == key && api.items[key].expiration == (now + 4 * ttl) / SECOND
    {
      api.Put(Item(key, Failed, 0, (now + 4 * ttl) / SECOND));
    }
  }

  // ---- Mongo ----

  datatype Document = Document(key: string, state: State, leaseUntil: Time, expireAt: Time)

  class MongoCollection {
    var items: map<string, Document>

    constructor ()
      ensures items == map[]
    {
      items := map[];
    }

    function View(): Items
      reads this
    {
      map k | k in items :: Rec(items[k].state, items[k].leaseUntil, items[k].expireAt)
    }

    /** `ok` is false for a duplicate key. */
    method InsertOne(doc: Document) returns (ok: bool)
      modifies this
      ensures ok <==> doc.key !in old(items)
      ensures items == if ok then old(items)[doc.key := doc] else old(items)
    {
      if doc.key in items { return false; }
      items := items[doc.key := doc];
      return true;
    }

    method FindOne(key: string) returns (doc: Option<Document>)
      ensures doc == if key in items then Some(items[key]) else None
    {
      return if key in items then Some(items[key]) else None;
    }

    method FindOneAndUpdate(key: string, update: Document, onlyIfStates: seq<State>, leaseExpired: bool, now: Time)
      returns (ok: bool)
      modifies this
      ensures ok == (key in old(items) && old(items)[key].state in onlyIfStates
                     && !(leaseExpired && now <= old(items)[key].leaseUntil && old(items)[key].state.Processing?))
      ensures items == if ok then old(items)[key := update] else old(items)
    {
      if key !in items { return false; }
      var cur := items[key];
      var matched := false;
      for i := 0 to |onlyIfStates|
        invariant matched <==> cur.state in onlyIfStates[..i]
      {
        if cur.state == onlyIfStates[i] {
          matched := true;
          break;
        }
      }
      if !matched { return false; }
      if leaseExpired && !(now > cur.leaseUntil) && cur.state == Processing { return false; }
      items := items[key := update];
      return true;
    }

    method UpdateByKey(key: string, update: Document)
      modifies this
      ensures items == old(items)[key := update]
    {
      items := items[key := update];
    }
  }

  class MongoStore {
    const col: MongoCollection
    const ttl: int
    const others: nat -> seq<Meddling<Document>>
    var n: nat

    constructor (col: MongoCollection, ttl: int, others: nat -> seq<Meddling<Document>>)
      ensures this.col == col && this.ttl == TTLOr(ttl)
    {
      this.col, this.ttl, this.others, n := col, TTLOr(ttl), others, 0;
    }

    method Meddle()
      modifies this`n, col
    {
      var batch := others(n);
      n := n + 1;
      for i := 0 to |batch| {
        col.items := Meddled(col.items, batch[i]);
      }
    }

    method TryStart(key: string, now: Time) returns (result: Result, ghost moves: seq<Move>)
      modifies this`n, col
      ensures Plays(Mongo, ttl, moves, key, now, result)
      ensures col.View() == moves[|moves| - 1].made.items
      ensures result.Proceed? ==>
        key in col.items && col.items[key] == Document(key, Processing, now + ttl, now + 4 * ttl)
    {
      hide TryStartCall;
      var doc := Document(key, Processing, now + ttl, now + 4 * ttl);
      ghost var move;
      var ok;
      ok, move := Insert(doc, Sampled(key, now));
      moves := [move];
      if ok { return Proceed, moves; }
      var found;
      found, move := Read(Missed(key, now));
      moves := moves + [move];
      if found.None? { return SkipInProgress, moves; }
      var cur := found.value;
      if cur.state == Completed { return SkipCompleted, moves; }
      if cur.state == Failed || (cur.state == Processing && now > cur.leaseUntil) {
        ok, move := Replace(doc, Stale(key, now, cur.state));
        moves := moves + [move];
        if ok { return Proceed, moves; }
      }
      return SkipInProgress, moves;
    }

    method Insert(doc: Document, ghost pc: PC) returns (ok: bool, ghost move: Move)
      requires pc.Sampled?
      requires doc.key == pc.key && Rec(doc.state, doc.leaseUntil, doc.expireAt) == ClaimRec(Mongo, ttl, pc.now)
      modifies this`n, col
      ensures MovedFrom(Mongo, ttl, move, pc) && col.View() == move.made.items
      ensures ok ==> doc.key in col.items && col.items[doc.key] == doc
      ensures if ok then move.made.next == None && move.made.result == Some(Proceed)
        else move.made.next == Some(Missed(pc.key, pc.now))
    {
      Meddle();
      move := Note(Mongo, ttl, col.View(), pc);
      ok := col.InsertOne(doc);
    }

    method Read(pc: PC) returns (found: Option<Document>, ghost move: Move)
      requires pc.Missed?
      modifies this`n, col
      ensures MovedFrom(Mongo, ttl, move, pc) && col.View() == move.made.items
      ensures ReadAnswer(Mongo, move, if found.Some? then Some((found.value.state, found.value.leaseUntil)) else None)
    {
      Meddle();
      move := Note(Mongo, ttl, col.View(), pc);
      found := col.FindOne(pc.key);
    }

    method Replace(doc: Document, pc: PC) returns (ok: bool, ghost move: Move)
      requires pc.Stale? && !pc.state.Completed?
      requires doc.key == pc.key && Rec(doc.state, doc.leaseUntil, doc.expireAt) == ClaimRec(Mongo, ttl, pc.now)
      modifies this`n, col
      ensures MovedFrom(Mongo, ttl, move, pc) && col.View() == move.made.items
      ensures ok ==> doc.key in col.items && col.items[doc.key] == doc
      ensures move.made.next == None && move.made.result == Some(if ok then Proceed else SkipInProgress)
    {
      Meddle();
      move := Note(Mongo, ttl, col.View(), pc);
      ok := col.FindOneAndUpdate(pc.key, doc, [pc.state], pc.state == Processing, pc.now);
    }

    method Complete(key: string, now: Time)
      modifies col
      ensures col.View() == old(col.View())[key := DoneRec(Mongo, ttl, now)]
      ensures key in col.items && col.items[key].key == key && col.items[key].expireAt == now + 4 * ttl
    {
      col.UpdateByKey(key, Document(key, Completed, 0, now + 4 * ttl));
    }

    method Fail(key: string, now: Time)
      modifies col
      ensures col.View() == old(col.View())[key := FailedRec(Mongo, ttl, now)]
      ensures key in col.items && col.items[key].key == key && col.items[key].expireAt == now + 4 * ttl
    {
      col.UpdateByKey(key, Document(key, Failed, 0, now + 4 * ttl));
    }
  }

  // ---- Redis ----

  /** The expiry of a key under way is its lease. */
  function Leased(value: State, until: Time): Rec { Rec(value, if value.Processing? then until else 0, until) }

  /** A value and, for the proof, the server's expiry time of its key. */
  class RedisClient {
    var items: map<string, State>
    ghost var expiry: map<string, Time>

    ghost predicate Valid()
      reads this
    {
      items.Keys == expiry.Keys
    }

    ghost function View(): Items
      requires Valid()
      reads this
    {
      map k | k in items :: Leased(items[k], expiry[k])
    }

    constructor ()
      ensures Valid() && items == map[]
    {
      items, expiry := map[], map[];
    }

    method SetNX(key: string, value: State, ghost until: Time) returns (ok: bool)
      requires Valid()
      modifies this
      ensures Valid() && (ok <==> key !in old(items))
      ensures View() == if ok then old(View())[key := Leased(value, until)] else old(View())
    {
      if key in items { return false; }
      items, expiry := items[key := value], expiry[key := until];
      return true;
    }

    method Get(key: string) returns (value: Option<State>)
      ensures value == if key in items then Some(items[key]) else None
    {
      return if key in items then Some(items[key]) else None;
    }

    method Set(key: string, value: State, ghost until: Time)
      requires Valid()
      modifies this
      ensures Valid() && View() == old(View())[key := Leased(value, until)] && expiry == old(expiry)[key := until]
    {
      items, expiry := items[key := value], expiry[key := until];
    }

    method CompareAndSwap(key: string, expected: State, neu: State, ghost until: Time) returns (ok: bool)
      requires Valid()
      modifies this
      ensures Valid() && (ok <==> key in old(items) && old(items)[key] == expected)
      ensures View() == if ok then old(View())[key := Leased(neu, until)] else old(View())
    {
      if key !in items || items[key] != expected { return false; }
      items, expiry := items[key := neu], expiry[key := until];
      return true;
    }
  }

  /** `clock` is the server's; the adapter reads none. */
  class RedisStore {
    const client: RedisClient
    const ttl: int
    const others: nat -> seq<Meddling<State>>
    var n: nat

    constructor (client: RedisClient, ttl: int, others: nat -> seq<Meddling<State>>)
      ensures this.client == client && this.ttl == TTLOr(ttl)
    {
      this.client, this.ttl, this.others, n := client, TTLOr(ttl), others, 0;
    }

    method Meddle()
      requires client.Valid()
      modifies this`n, client
      ensures client.Valid()
    {
      var batch := others(n);
      n := n + 1;
      for i := 0 to |batch|
        invariant client.Valid()
      {
        client.items := Meddled(client.items, batch[i]);
        client.expiry := map k | k in client.items :: if k in client.expiry then client.expiry[k] else 0;
      }
    }

    method TryStart(key: string, ghost now: Time) returns (result: Result, ghost moves: seq<Move>)
      requires client.Valid()
      modifies this`n, client
      ensures client.Valid() && Plays(Redis, ttl, moves, key, now, result)
      ensures client.View() == moves[|moves| - 1].made.items
    {
      hide TryStartCall, RedisClient.Valid, RedisClient.View;
      ghost var move;
      var ok;
      ok, move := Insert(key, Sampled(key, now));
      moves := [move];
      if ok { return Proceed, moves; }
      var found;
      found, move := Read(key, Missed(key, now));
      moves := moves + [move];
      match found {
        case None =>
          ok, move := Insert(key, Vanished(key, now));
          return if ok then Proceed else SkipInProgress, moves + [move];
        case Some(Completed) => return SkipCompleted, moves;
        case Some(Failed) =>
          ok, move := Swap(key, Stale(key, now, Failed));
          return if ok then Proceed else SkipInProgress, moves + [move];
        case _ => return SkipInProgress, moves;
      }
    }

    method Insert(key: string, ghost pc: PC) returns (ok: bool, ghost move: Move)
      requires client.Valid() && (pc.Sampled? || pc.Vanished?) && key == pc.key
      modifies this`n, client
      ensures client.Valid() && MovedFrom(Redis, ttl, move, pc) && client.View() == move.made.items
      ensures if ok then move.made.next == None && move.made.result == Some(Proceed)
        else if pc.Sampled? then move.made.next == Some(Missed(pc.key, pc.now))
        else move.made.next == None && move.made.result == Some(SkipInProgress)
    {
      Meddle();
      move := Note(Redis, ttl, client.View(), pc);
      ok := client.SetNX(key, Processing, pc.now + ttl);
    }

    method Read(key: string, ghost pc: PC) returns (found: Option<State>, ghost move: Move)
      requires client.Valid() && pc.Missed? && key == pc.key
      modifies this`n, client
      ensures client.Valid() && MovedFrom(Redis, ttl, move, pc) && client.View() == move.made.items
      ensures ReadAnswer(Redis, move, if found.Some? then Some((found.value, 0)) else None)
    {
      Meddle();
      move := Note(Redis, ttl, client.View(), pc);
      found := client.Get(key);
    }

    method Swap(key: string, ghost pc: PC) returns (ok: bool, ghost move: Move)
      requires client.Valid() && pc.Stale? && pc.state.Failed? && key == pc.key
      modifies this`n, client
      ensures client.Valid() && MovedFrom(Redis, ttl, move, pc) && client.View() == move.made.items
      ensures move.made.next == None && move.made.result == Some(if ok then Proceed else SkipInProgress)
    {
      Meddle();
      move := Note(Redis, ttl, client.View(), pc);
      ok := client.CompareAndSwap(key, Failed, Processing, pc.now + ttl);
    }

    method Complete(key: string, ghost now: Time)
      requires client.Valid()
      modifies client
      ensures client.Valid() && client.View() == old(client.View())[key := DoneRec(Redis, ttl, now)]
      ensures client.expiry == old(client.expiry)[key := now + 4 * ttl]
    {
      client.Set(key, Completed, now + 4 * ttl);
    }

    method Fail(key: string, ghost now: Time)
      requires client.Valid()
      modifies client
      ensures client.Valid() && client.View() == old(client.View())[key := FailedRec(Redis, ttl, now)]
      ensures client.expiry == old(client.expiry)[key := now + ttl]
    {
      client.Set(key, Failed, now + ttl);
    }
  }
}
