/** Consumer configuration (options.go, processing.go), registrations, backoff and
    topic naming (internal.go). */
module Config {
  import opened Wrappers
  import opened Decimal
  import Claims

  datatype Guarantee = AtLeastOnce | Transactional
  datatype Ordering = OrderingNone | OrderingPerPartition | OrderingPerKey

  /** TopicNamer: any pair of naming functions. */
  datatype Namer = Namer(retry: (string, int) -> string, dlq: string -> string)

  /** A registration; a nil handler can be registered and is rejected by Run. */
  datatype Registration = Registration(hasHandler: bool, maxRetries: Option<int>,
                                       backoffs: seq<int>, ordering: Option<Ordering>)

  datatype Config = Config(
    handlers: map<string, Registration>, groupID: string, guarantee: Guarantee, maxRetries: int,
    backoffs: seq<int>, ordering: Ordering, namer: Namer, dlqEnabled: bool, store: Option<Claims.Adapter>, ttl: int)
  {
    function MaxRetriesFor(reg: Registration): int {
      match reg.maxRetries
      case Some(n) => n
      case None => maxRetries
    }

    function BackoffsFor(reg: Registration): seq<int> {
      if |reg.backoffs| > 0 then reg.backoffs else backoffs
    }

    function OrderingFor(reg: Registration): Ordering {
      match reg.ordering
      case Some(o) => o
      case None => ordering
    }
  }

  /** backoffFor: the last entry repeats once the list is exhausted. */
  function BackoffFor(backoffs: seq<int>, attempt: int): int {
    if attempt <= 0 || |backoffs| == 0 then 0
    else if attempt - 1 >= |backoffs| then backoffs[|backoffs| - 1]
    else backoffs[attempt - 1]
  }

  /** No wait before attempts that no retry led to; the listed waits in order, and then the last. */
  lemma BackoffExactly(backoffs: seq<int>, attempt: int)
    ensures attempt <= 0 || backoffs == [] ==> BackoffFor(backoffs, attempt) == 0
    ensures forall i :: 0 <= i < |backoffs| ==> BackoffFor(backoffs, i + 1) == backoffs[i]
    ensures attempt >= |backoffs| > 0 ==> BackoffFor(backoffs, attempt) == BackoffFor(backoffs, |backoffs|)
  {
  }

  // ---- the default namer: "%s.retry.%d" and "%s.dlq" ----

  function RetryName(topic: string, attempt: int): string { topic + ".retry." + Itoa(attempt) }

  function DlqName(topic: string): string { topic + ".dlq" }

  /** Splitting at a dot-free suffix is unambiguous. */
  lemma SuffixUnique(a: string, b: string, x: string, y: string)
    requires a + "." + x == b + "." + y
    requires '.' !in x && '.' !in y
    ensures a == b && x == y
  {
    var s := a + "." + x;
    assert s[|a|] == '.' && s[|a| + 1..] == x && s[..|a|] == a;
    assert s[|b|] == '.' && s[|b| + 1..] == y && s[..|b|] == b;
    assert forall i :: |a| < i < |s| ==> s[i] in x;
    assert forall i :: |b| < i < |s| ==> s[i] in y;
  }

  /** Retry names determine topic and attempt, for every topic text and every attempt. */
  lemma RetryNameInjective(t1: string, n1: int, t2: string, n2: int)
    requires RetryName(t1, n1) == RetryName(t2, n2)
    ensures t1 == t2 && n1 == n2
  {
    ItoaHasNoDot(n1);
    ItoaHasNoDot(n2);
    assert RetryName(t1, n1) == (t1 + ".retry") + "." + Itoa(n1);
    assert RetryName(t2, n2) == (t2 + ".retry") + "." + Itoa(n2);
    SuffixUnique(t1 + ".retry", t2 + ".retry", Itoa(n1), Itoa(n2));
    assert t1 == (t1 + ".retry")[..|t1|];
    assert t2 == (t2 + ".retry")[..|t2|];
    ItoaInjective(n1, n2);
  }

  lemma DlqNameInjective(t1: string, t2: string)
    requires DlqName(t1) == DlqName(t2)
    ensures t1 == t2
  {
    assert t1 == DlqName(t1)[..|t1|] && t2 == DlqName(t2)[..|t2|];
  }

  /** A retry name ends in a digit and a DLQ name does not. */
  lemma RetryIsNotDlq(t1: string, n: int, t2: string)
    ensures RetryName(t1, n) != DlqName(t2)
  {
    ItoaHasNoDot(n);
    var r, d := RetryName(t1, n), DlqName(t2);
    assert r[|r| - 1] == Itoa(n)[|Itoa(n)| - 1];
    assert d[|d| - 1] == 'q';
  }

  /** The names as the documentation shows them. */
  lemma NamesAsDocumented()
    ensures RetryName("orders", 1) == "orders.retry.1" && RetryName("orders", 12) == "orders.retry.12"
    ensures DlqName("orders") == "orders.dlq"
  {
    assert Digits(1) == "1" && Digits(12) == "12";
  }

  /** No topic is its own retry or DLQ topic. */
  lemma DerivedIsLonger(topic: string, n: int)
    ensures RetryName(topic, n) != topic && DlqName(topic) != topic
    ensures RetryName(topic, n) != "" && DlqName(topic) != ""
  {
    assert |RetryName(topic, n)| > |topic| && |DlqName(topic)| > |topic|;
  }
}
