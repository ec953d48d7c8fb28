/**
  The rolling-window aggregator and the fast cash-out detector.

  The aggregator keeps, per account, the payments of the trailing window,
  ordered by timestamp. The detector turns a window summary into an alert
  when an outside verdict calls it suspicious.
 */
module Agents {
  import opened Events

  /** Length of the trailing window: 30 minutes, in seconds. */
  const WindowLength: int := 30 * 60

  /** Payments at or before this time have left the window of a payment stamped t. */
  function WindowStart(t: int): int
  {
    t - WindowLength
  }

  datatype Option<T> = None | Some(value: T)

  // ---------------------------------------------------------------------
  // Ordering by timestamp, and the stable sort on it
  // ---------------------------------------------------------------------

  predicate SortedByTime(s: seq<PaymentObserved>)
  {
    forall i, j :: 0 <= i < j < |s| ==> s[i].timestamp <= s[j].timestamp
  }

  /** The payments of s stamped at time k, in their order in s. */
  function AtTime(s: seq<PaymentObserved>, k: int): seq<PaymentObserved>
  {
    if s == [] then []
    else (if s[0].timestamp == k then [s[0]] else []) + AtTime(s[1..], k)
  }

  /**
    Puts x in front of the first payment of s that is not earlier than x,
    so that x goes before payments with the same timestamp.
   */
  function InsertByTime(x: PaymentObserved, s: seq<PaymentObserved>): (r: seq<PaymentObserved>)
    ensures multiset(r) == multiset(s) + multiset{x}
    ensures |r| == |s| + 1
    ensures r[0] == x || (s != [] && r[0] == s[0])
  {
    if s == [] || x.timestamp <= s[0].timestamp then [x] + s
    else
      assert s == [s[0]] + s[1..];
      [s[0]] + InsertByTime(x, s[1..])
  }

  /**
    A stable sort by timestamp (insertion sort): the key-only sort the
    aggregator applies to an account's list after each append.
   */
  function SortByTime(s: seq<PaymentObserved>): (r: seq<PaymentObserved>)
    ensures SortedByTime(r)
    ensures multiset(r) == multiset(s)
    ensures |r| == |s|
  {
    if s == [] then []
    else
      assert s == [s[0]] + s[1..];
      InsertSorted(s[0], SortByTime(s[1..]));
      InsertByTime(s[0], SortByTime(s[1..]))
  }

  lemma {:induction false} InsertSorted(x: PaymentObserved, s: seq<PaymentObserved>)
    requires SortedByTime(s)
    ensures SortedByTime(InsertByTime(x, s))
  {
    if s != [] && x.timestamp > s[0].timestamp {
      var r := InsertByTime(x, s[1..]);
      InsertSorted(x, s[1..]);
      InsertLowerBound(x, s[1..], s[0].timestamp);
      assert InsertByTime(x, s) == [s[0]] + r;
    }
  }

  /** Inserting into payments none earlier than b, a payment none earlier than b, keeps that bound. */
  lemma {:induction false} InsertLowerBound(x: PaymentObserved, s: seq<PaymentObserved>, b: int)
    requires x.timestamp >= b
    requires forall i :: 0 <= i < |s| ==> s[i].timestamp >= b
    ensures forall i :: 0 <= i < |InsertByTime(x, s)| ==> InsertByTime(x, s)[i].timestamp >= b
  {
    if s == [] || x.timestamp <= s[0].timestamp {
      assert InsertByTime(x, s) == [x] + s;
    } else {
      InsertLowerBound(x, s[1..], b);
      assert InsertByTime(x, s) == [s[0]] + InsertByTime(x, s[1..]);
    }
  }

  lemma {:induction false} SortKeepsMembers(s: seq<PaymentObserved>)
    ensures forall tx :: tx in SortByTime(s) <==> tx in s
  {
    forall tx ensures tx in SortByTime(s) <==> tx in s {
      assert tx in SortByTime(s) <==> tx in multiset(SortByTime(s));
      assert tx in s <==> tx in multiset(s);
    }
  }

  // ---------------------------------------------------------------------
  // Pruning and totals
  // ---------------------------------------------------------------------

  /** The payments of s later than start, in their order in s. */
  function Retained(s: seq<PaymentObserved>, start: int): (r: seq<PaymentObserved>)
    ensures forall i :: 0 <= i < |r| ==> r[i].timestamp > start
    ensures forall tx {:trigger tx in r} :: tx in r <==> tx in s && tx.timestamp > start
    ensures |r| <= |s|
  {
    if s == [] then []
    else if s[0].timestamp > start then [s[0]] + Retained(s[1..], start)
    else Retained(s[1..], start)
  }

  /** Pruning keeps the order, so a sorted list stays sorted. */
  lemma {:induction false} RetainedSorted(s: seq<PaymentObserved>, start: int)
    requires SortedByTime(s)
    ensures SortedByTime(Retained(s, start))
  {
    if s != [] {
      var r := Retained(s[1..], start);
      RetainedSorted(s[1..], start);
      if s[0].timestamp > start {
        forall j | 0 <= j < |r| ensures s[0].timestamp <= r[j].timestamp {
          assert r[j] in r;
          var i :| 0 <= i < |s[1..]| && s[1..][i] == r[j];
          assert s[i + 1] == r[j];
        }
      }
    }
  }

  /** The amount a payment contributes to the total of one direction. */
  function Contribution(tx: PaymentObserved, direction: string): real
  {
    if tx.direction == direction then tx.amount else 0.0
  }

  /** The sum of the amounts of the payments of s that go in the given direction. */
  function SumDirection(s: seq<PaymentObserved>, direction: string): real
  {
    if s == [] then 0.0 else Contribution(s[0], direction) + SumDirection(s[1..], direction)
  }

  /** An account's stored payments; an account never seen has none. */
  function TransactionsOf(table: map<string, seq<PaymentObserved>>, account: string): seq<PaymentObserved>
  {
    if account in table then table[account] else []
  }

  /**
    The account's retained window after payment e arrives on top of the
    stored list prior: append, stable sort, then drop every payment that is
    not later than e.timestamp - WindowLength. Only a lower bound is applied.
   */
  function Window(prior: seq<PaymentObserved>, e: PaymentObserved): seq<PaymentObserved>
  {
    Retained(SortByTime(prior + [e]), WindowStart(e.timestamp))
  }

  /** The window summary published for payment e once its account's window is w. */
  function Summary(e: PaymentObserved, w: seq<PaymentObserved>): BalanceWindowUpdated
  {
    var inbound := SumDirection(w, "IN");
    var outbound := SumDirection(w, "OUT");
    BalanceWindowUpdated(e.timestamp, e.accountId, inbound, outbound, inbound - outbound)
  }

  // ---------------------------------------------------------------------
  // Lemmas about the window
  // ---------------------------------------------------------------------

  /**
    After payment e, the window is sorted, holds e itself, and holds exactly
    the stored or new payments later than e.timestamp - WindowLength; stored
    payments later than e (out-of-order arrival) are kept.
   */
  lemma {:induction false} WindowInvariant(prior: seq<PaymentObserved>, e: PaymentObserved)
    ensures SortedByTime(Window(prior, e))
    ensures forall i :: 0 <= i < |Window(prior, e)| ==> Window(prior, e)[i].timestamp > WindowStart(e.timestamp)
    ensures e in Window(prior, e)
    ensures forall tx {:trigger tx in Window(prior, e)} ::
      tx in Window(prior, e) <==> (tx in prior || tx == e) && tx.timestamp > WindowStart(e.timestamp)
  {
    var history, start := prior + [e], WindowStart(e.timestamp);
    SortKeepsMembers(history);
    RetainedSorted(SortByTime(history), start);
  }

  lemma {:induction false} AtTimeAppend(a: seq<PaymentObserved>, b: seq<PaymentObserved>, k: int)
    ensures AtTime(a + b, k) == AtTime(a, k) + AtTime(b, k)
  {
    if a == [] {
      assert a + b == b;
    } else {
      var head := if a[0].timestamp == k then [a[0]] else [];
      assert a + b != [] && (a + b)[0] == a[0] && (a + b)[1..] == a[1..] + b;
      assert AtTime(a + b, k) == head + AtTime(a[1..] + b, k);
      AtTimeAppend(a[1..], b, k);
      assert AtTime(a, k) == head + AtTime(a[1..], k);
      assert head + (AtTime(a[1..], k) + AtTime(b, k)) == (head + AtTime(a[1..], k)) + AtTime(b, k);
    }
  }

  lemma {:induction false} AtTimeInsert(x: PaymentObserved, s: seq<PaymentObserved>, k: int)
    ensures AtTime(InsertByTime(x, s), k) == (if x.timestamp == k then [x] else []) + AtTime(s, k)
  {
    if s == [] || x.timestamp <= s[0].timestamp {
      assert InsertByTime(x, s) == [x] + s;
      AtTimeAppend([x], s, k);
    } else {
      var r := InsertByTime(x, s[1..]);
      assert InsertByTime(x, s) == [s[0]] + r;
      AtTimeAppend([s[0]], r, k);
      AtTimeInsert(x, s[1..], k);
      AtTimeAppend([s[0]], s[1..], k);
      assert [s[0]] + s[1..] == s;
    }
  }

  /** Sorting keeps the relative order of payments that share a timestamp. */
  lemma {:induction false} SortIsStable(s: seq<PaymentObserved>, k: int)
    ensures AtTime(SortByTime(s), k) == AtTime(s, k)
  {
    if s != [] {
      SortIsStable(s[1..], k);
      AtTimeInsert(s[0], SortByTime(s[1..]), k);
      AtTimeAppend([s[0]], s[1..], k);
      assert [s[0]] + s[1..] == s;
    }
  }

  ghost predicate SameOrderPerTime(a: seq<PaymentObserved>, b: seq<PaymentObserved>)
  {
    forall k :: AtTime(a, k) == AtTime(b, k)
  }

  lemma {:induction false} AtTimeEmpty(s: seq<PaymentObserved>)
    requires s != []
    ensures AtTime(s, s[0].timestamp) != []
  {
  }

  lemma {:induction false} AtTimeMember(s: seq<PaymentObserved>, k: int)
    requires AtTime(s, k) != []
    ensures exists i :: 0 <= i < |s| && s[i].timestamp == k
  {
    if s[0].timestamp != k {
      AtTimeMember(s[1..], k);
      var i :| 0 <= i < |s[1..]| && s[1..][i].timestamp == k;
      assert s[i + 1].timestamp == k;
    }
  }

  /** Two sorted arrangements with the same order per timestamp start alike. */
  lemma {:induction false} SameHead(a: seq<PaymentObserved>, b: seq<PaymentObserved>)
    requires a != [] && b != []
    requires SortedByTime(a) && SortedByTime(b)
    requires SameOrderPerTime(a, b)
    ensures a[0] == b[0]
  {
    var ka, kb := a[0].timestamp, b[0].timestamp;
    AtTimeEmpty(a);
    AtTimeEmpty(b);
    AtTimeMember(b, ka);
    AtTimeMember(a, kb);
    assert ka == kb;
    assert AtTime(a, ka)[0] == a[0];
    assert AtTime(b, kb)[0] == b[0];
  }

  /** Dropping a common first element keeps the order per timestamp the same. */
  lemma {:induction false} SameOrderTail(a: seq<PaymentObserved>, b: seq<PaymentObserved>)
    requires a != [] && b != [] && a[0] == b[0]
    requires SameOrderPerTime(a, b)
    ensures SameOrderPerTime(a[1..], b[1..])
  {
    forall k ensures AtTime(a[1..], k) == AtTime(b[1..], k) {
      var head := if a[0].timestamp == k then [a[0]] else [];
      assert AtTime(a, k) == head + AtTime(a[1..], k);
      assert AtTime(b, k) == head + AtTime(b[1..], k);
      assert AtTime(a, k) == AtTime(b, k);
      assert (head + AtTime(a[1..], k))[|head|..] == AtTime(a[1..], k);
      assert (head + AtTime(b[1..], k))[|head|..] == AtTime(b[1..], k);
    }
  }

  /**
    A sorted arrangement that keeps the order of each timestamp's payments is
    unique: every stable sort by timestamp yields exactly SortByTime.
   */
  lemma {:induction false} StableSortIsUnique(a: seq<PaymentObserved>, b: seq<PaymentObserved>)
    requires SortedByTime(a) && SortedByTime(b)
    requires SameOrderPerTime(a, b)
    ensures a == b
    decreases |a| + |b|
  {
    if a == [] && b == [] {
    } else if a == [] {
      AtTimeEmpty(b);
      assert false;
    } else if b == [] {
      AtTimeEmpty(a);
      assert false;
    } else {
      SameHead(a, b);
      SameOrderTail(a, b);
      StableSortIsUnique(a[1..], b[1..]);
      assert a == [a[0]] + a[1..] && b == [b[0]] + b[1..];
    }
  }

  /** Any stable sort of s by timestamp is SortByTime(s). */
  lemma {:induction false} StableSortOf(s: seq<PaymentObserved>, r: seq<PaymentObserved>)
    requires SortedByTime(r) && SameOrderPerTime(r, s)
    ensures r == SortByTime(s)
  {
    forall k ensures AtTime(r, k) == AtTime(SortByTime(s), k) {
      SortIsStable(s, k);
    }
    StableSortIsUnique(r, SortByTime(s));
  }

  lemma {:induction false} RetainedInsert(x: PaymentObserved, s: seq<PaymentObserved>, start: int)
    ensures Retained(InsertByTime(x, s), start)
         == if x.timestamp > start then InsertByTime(x, Retained(s, start)) else Retained(s, start)
  {
    if s == [] || x.timestamp <= s[0].timestamp {
      assert InsertByTime(x, s) == [x] + s;
      assert ([x] + s)[1..] == s;
      if x.timestamp > start && s != [] {
        // s[0] is not earlier than x, so it survives the pruning and stays right after x
        assert Retained(s, start) == [s[0]] + Retained(s[1..], start);
      }
    } else {
      var r := InsertByTime(x, s[1..]);
      assert InsertByTime(x, s) == [s[0]] + r;
      assert ([s[0]] + r)[1..] == r;
      RetainedInsert(x, s[1..], start);
    }
  }

  /** Pruning commutes with the stable sort. */
  lemma {:induction false} RetainedSort(s: seq<PaymentObserved>, start: int)
    ensures Retained(SortByTime(s), start) == SortByTime(Retained(s, start))
  {
    if s != [] {
      RetainedSort(s[1..], start);
      RetainedInsert(s[0], SortByTime(s[1..]), start);
    }
  }

  lemma {:induction false} SumInsert(x: PaymentObserved, s: seq<PaymentObserved>, direction: string)
    ensures SumDirection(InsertByTime(x, s), direction) == Contribution(x, direction) + SumDirection(s, direction)
  {
    if s == [] || x.timestamp <= s[0].timestamp {
      assert InsertByTime(x, s) == [x] + s;
      assert ([x] + s)[1..] == s;
    } else {
      var r := InsertByTime(x, s[1..]);
      assert InsertByTime(x, s) == [s[0]] + r;
      assert ([s[0]] + r)[1..] == r;
      SumInsert(x, s[1..], direction);
    }
  }

  /** Sorting does not change a direction's total. */
  lemma {:induction false} SumSort(s: seq<PaymentObserved>, direction: string)
    ensures SumDirection(SortByTime(s), direction) == SumDirection(s, direction)
  {
    if s != [] {
      SumSort(s[1..], direction);
      SumInsert(s[0], SortByTime(s[1..]), direction);
    }
  }

  /**
    The window is the stable sort of the arrival-order history with the
    expired payments removed.
   */
  lemma {:induction false} WindowIsSortedRetained(prior: seq<PaymentObserved>, e: PaymentObserved)
    ensures Window(prior, e) == SortByTime(Retained(prior + [e], WindowStart(e.timestamp)))
  {
    var history, start := prior + [e], WindowStart(e.timestamp);
    RetainedSort(history, start);
    assert Window(prior, e) == Retained(SortByTime(history), start);
  }

  /**
    Payments sharing a timestamp keep their arrival order in the window, and
    every unexpired one is there; expired timestamps have no payments left.
   */
  lemma {:induction false} WindowIsStable(prior: seq<PaymentObserved>, e: PaymentObserved, k: int)
    ensures AtTime(Window(prior, e), k)
         == if k > WindowStart(e.timestamp) then AtTime(prior + [e], k) else []
  {
    var start := WindowStart(e.timestamp);
    WindowIsSortedRetained(prior, e);
    SortIsStable(Retained(prior + [e], start), k);
    AtTimeRetained(prior + [e], start, k);
  }

  lemma {:induction false} AtTimeRetained(s: seq<PaymentObserved>, start: int, k: int)
    ensures AtTime(Retained(s, start), k) == if k > start then AtTime(s, k) else []
  {
    if s != [] {
      AtTimeRetained(s[1..], start, k);
      if s[0].timestamp > start {
        AtTimeAppend([s[0]], Retained(s[1..], start), k);
      }
    }
  }

  /**
    The window's totals are the sums over the arrival-order history of the
    payments later than the window start: they do not depend on the sort.
   */
  lemma {:induction false} WindowTotals(prior: seq<PaymentObserved>, e: PaymentObserved, direction: string)
    ensures SumDirection(Window(prior, e), direction)
         == SumDirection(Retained(prior + [e], WindowStart(e.timestamp)), direction)
  {
    WindowIsSortedRetained(prior, e);
    SumSort(Retained(prior + [e], WindowStart(e.timestamp)), direction);
  }

  lemma {:induction false} SumAppend(a: seq<PaymentObserved>, b: seq<PaymentObserved>, direction: string)
    ensures SumDirection(a + b, direction) == SumDirection(a, direction) + SumDirection(b, direction)
  {
    if a == [] {
      assert a + b == b;
    } else {
      assert (a + b)[1..] == a[1..] + b;
      SumAppend(a[1..], b, direction);
    }
  }

  lemma {:induction false} RetainedAll(s: seq<PaymentObserved>, start: int)
    requires forall i :: 0 <= i < |s| ==> s[i].timestamp > start
    ensures Retained(s, start) == s
  {
    if s != [] {
      RetainedAll(s[1..], start);
      assert s == [s[0]] + s[1..];
    }
  }

  /**
    A payment that arrives in order (no earlier than any stored payment)
    while every stored payment is still inside its window is simply appended.
   */
  lemma {:induction false} InOrderArrival(prior: seq<PaymentObserved>, e: PaymentObserved)
    requires SortedByTime(prior)
    requires forall i :: 0 <= i < |prior| ==> WindowStart(e.timestamp) < prior[i].timestamp <= e.timestamp
    ensures Window(prior, e) == prior + [e]
  {
    var history := prior + [e];
    assert SortedByTime(history);
    StableSortOf(history, history);
    RetainedAll(history, WindowStart(e.timestamp));
  }

  /** Sorting two payments puts the later-stamped one last, the first one first on a tie. */
  lemma {:induction false} SortPair(a: PaymentObserved, b: PaymentObserved)
    ensures SortByTime([a, b]) == if b.timestamp < a.timestamp then [b, a] else [a, b]
  {
    assert [a, b][1..] == [b];
    assert [b][1..] == [];
    assert SortByTime([b]) == InsertByTime(b, []) == [b];
    if b.timestamp < a.timestamp {
      assert InsertByTime(a, [b]) == [b] + InsertByTime(a, []) == [b, a];
    } else {
      assert InsertByTime(a, [b]) == [a] + [b] == [a, b];
    }
  }

  /**
    The window after a second payment b, given a stored payment a: the two
    in time order, less a when it is at least thirty minutes older than b.
   */
  lemma {:induction false} TwoPaymentWindow(a: PaymentObserved, b: PaymentObserved)
    ensures var sorted := if b.timestamp < a.timestamp then [b, a] else [a, b];
            Window([a], b) == if a.timestamp > WindowStart(b.timestamp) then sorted else [b]
  {
    var start := WindowStart(b.timestamp);
    assert [a] + [b] == [a, b];
    SortPair(a, b);
    var sorted := if b.timestamp < a.timestamp then [b, a] else [a, b];
    assert sorted[1..][1..] == [];
    assert Retained([], start) == [];
    if b.timestamp < a.timestamp {
      assert Retained([a], start) == [a];
      assert Retained(sorted, start) == [b] + Retained([a], start);
    } else if a.timestamp > start {
      assert Retained([b], start) == [b];
      assert Retained(sorted, start) == [a] + Retained([b], start);
    } else {
      assert Retained([b], start) == [b];
      assert Retained(sorted, start) == Retained([b], start);
    }
  }

  /** An account's first two payments, the window after each. */
  lemma {:induction false} SecondPayment(a: PaymentObserved, b: PaymentObserved)
    ensures Window([], a) == [a]
    ensures var sorted := if b.timestamp < a.timestamp then [b, a] else [a, b];
            Window(Window([], a), b) == if a.timestamp > WindowStart(b.timestamp) then sorted else [b]
  {
    FirstPaymentTotals(a);
    TwoPaymentWindow(a, b);
  }

  /**
    An account's first payment produces totals equal to that payment's own
    contribution.
   */
  lemma {:induction false} FirstPaymentTotals(e: PaymentObserved)
    ensures Window([], e) == [e]
    ensures Summary(e, Window([], e)).inLast30m == Contribution(e, "IN")
    ensures Summary(e, Window([], e)).outLast30m == Contribution(e, "OUT")
  {
    assert [] + [e] == [e];
    assert SortByTime([e]) == [e];
    assert Window([], e) == [e];
    assert [e][1..] == [];
    assert SumDirection([e], "IN") == Contribution(e, "IN") + SumDirection([], "IN");
    assert SumDirection([e], "OUT") == Contribution(e, "OUT") + SumDirection([], "OUT");
  }

  // ---------------------------------------------------------------------
  // Several arrivals, and their order
  // ---------------------------------------------------------------------

  /** The account's window after the payments es arrive one by one on top of the stored list prior. */
  function Process(prior: seq<PaymentObserved>, es: seq<PaymentObserved>): seq<PaymentObserved>
    decreases |es|
  {
    if es == [] then prior else Process(Window(prior, es[0]), es[1..])
  }

  /** No two payments of s are thirty minutes or more apart, so none ever expires another. */
  ghost predicate WithinOneWindow(s: seq<PaymentObserved>)
  {
    forall a, b :: a in s && b in s ==> b.timestamp - a.timestamp < WindowLength
  }

  /** Re-sorting a sorted prefix together with new payments is sorting the whole. */
  lemma {:induction false} SortSortedPrefix(a: seq<PaymentObserved>, b: seq<PaymentObserved>)
    ensures SortByTime(SortByTime(a) + b) == SortByTime(a + b)
  {
    var r := SortByTime(SortByTime(a) + b);
    forall k ensures AtTime(r, k) == AtTime(a + b, k) {
      SortIsStable(SortByTime(a) + b, k);
      AtTimeAppend(SortByTime(a), b, k);
      SortIsStable(a, k);
      AtTimeAppend(a, b, k);
    }
    StableSortOf(a + b, r);
  }

  /**
    While every payment seen so far lies within one window, each arrival
    prunes nothing: the window is the stable sort of everything that arrived.
   */
  lemma {:induction false} ProcessKeepsAll(p: seq<PaymentObserved>, es: seq<PaymentObserved>)
    requires WithinOneWindow(p + es)
    ensures Process(SortByTime(p), es) == SortByTime(p + es)
    decreases |es|
  {
    if es == [] {
      assert p + es == p;
    } else {
      var e := es[0];
      var history := p + [e];
      assert p + es == history + es[1..];
      SortSortedPrefix(p, [e]);
      var sorted := SortByTime(history);
      SortKeepsMembers(history);
      forall i | 0 <= i < |sorted| ensures sorted[i].timestamp > WindowStart(e.timestamp) {
        assert sorted[i] in history;
        assert sorted[i] in p + es && e in p + es;
      }
      RetainedAll(sorted, WindowStart(e.timestamp));
      assert Window(SortByTime(p), e) == sorted;
      ProcessKeepsAll(history, es[1..]);
    }
  }

  /** Within one window, the account's final window is the stable sort of the arrivals. */
  lemma {:induction false} ProcessWithinOneWindow(es: seq<PaymentObserved>)
    requires WithinOneWindow(es)
    ensures Process([], es) == SortByTime(es)
  {
    assert [] + es == es;
    assert SortByTime([]) == [];
    ProcessKeepsAll([], es);
  }

  /** A direction's total depends only on which payments there are, not on their order. */
  lemma {:induction false} SumPermutation(a: seq<PaymentObserved>, b: seq<PaymentObserved>, direction: string)
    requires multiset(a) == multiset(b)
    ensures SumDirection(a, direction) == SumDirection(b, direction)
    decreases |a|
  {
    if a == [] {
      assert |b| == |multiset(b)| == 0;
    } else {
      assert a[0] in multiset(b);
      var i :| 0 <= i < |b| && b[i] == a[0];
      var rest := b[..i] + b[i + 1..];
      RemoveAt(b, i);
      assert a == [a[0]] + a[1..];
      assert multiset(a[1..]) == multiset(a) - multiset{a[0]};
      SumPermutation(a[1..], rest, direction);
      SumRemoveAt(b, i, direction);
    }
  }

  /** Taking out the i-th payment takes out one occurrence of it. */
  lemma {:induction false} RemoveAt(b: seq<PaymentObserved>, i: nat)
    requires i < |b|
    ensures multiset(b[..i] + b[i + 1..]) == multiset(b) - multiset{b[i]}
  {
    assert b == b[..i] + [b[i]] + b[i + 1..];
    assert multiset(b) == multiset(b[..i]) + multiset{b[i]} + multiset(b[i + 1..]);
  }

  /** Taking out the i-th payment takes out its contribution to a direction's total. */
  lemma {:induction false} SumRemoveAt(b: seq<PaymentObserved>, i: nat, direction: string)
    requires i < |b|
    ensures SumDirection(b, direction) == Contribution(b[i], direction) + SumDirection(b[..i] + b[i + 1..], direction)
  {
    var tail := [b[i]] + b[i + 1..];
    assert b == b[..i] + tail;
    SumAppend(b[..i], tail, direction);
    SumAppend(b[..i], b[i + 1..], direction);
    assert tail[0] == b[i] && tail[1..] == b[i + 1..];
  }

  /**
    Out-of-order tolerance: when an account's payments all fall within one
    window, any two arrival orders of them leave the same payments in the
    window, with the same totals.
   */
  lemma {:induction false} ArrivalOrderIrrelevant(es1: seq<PaymentObserved>, es2: seq<PaymentObserved>)
    requires multiset(es1) == multiset(es2)
    requires WithinOneWindow(es1)
    ensures multiset(Process([], es1)) == multiset(Process([], es2))
    ensures forall direction ::
      SumDirection(Process([], es1), direction) == SumDirection(Process([], es2), direction)
  {
    assert forall tx :: tx in es1 <==> tx in multiset(es1);
    assert forall tx :: tx in es2 <==> tx in multiset(es2);
    assert WithinOneWindow(es2);
    ProcessWithinOneWindow(es1);
    ProcessWithinOneWindow(es2);
    forall direction
      ensures SumDirection(Process([], es1), direction) == SumDirection(Process([], es2), direction)
    {
      SumSort(es1, direction);
      SumSort(es2, direction);
      SumPermutation(es1, es2, direction);
    }
  }

  // ---------------------------------------------------------------------
  // The aggregator
  // ---------------------------------------------------------------------

  /** Every stored list is sorted by timestamp and holds only its own account's payments. */
  ghost predicate ValidTable(table: map<string, seq<PaymentObserved>>)
  {
    forall a :: a in table ==>
      SortedByTime(table[a]) &&
      forall tx :: tx in table[a] ==> tx.accountId == a
  }

  /** Replacing a payment's account list by its new window keeps a table valid. */
  lemma {:induction false} WindowKeepsValid(table: map<string, seq<PaymentObserved>>, e: PaymentObserved)
    requires ValidTable(table)
    ensures ValidTable(table[e.accountId := Window(TransactionsOf(table, e.accountId), e)])
  {
    var prior := TransactionsOf(table, e.accountId);
    WindowInvariant(prior, e);
    assert forall tx :: tx in prior ==> tx.accountId == e.accountId;
  }

  /** Keeps each account's trailing window of payments. */
  class RollingWindowAgent {
    var accountTransactions: map<string, seq<PaymentObserved>>

    ghost predicate Valid()
      reads this
    {
      ValidTable(accountTransactions)
    }

    constructor ()
      ensures accountTransactions == map[]
      ensures Valid()
    {
      accountTransactions := map[];
    }

    /**
      Records payment e in its account's window and returns the window's
      summary, which the caller publishes. No other account's list changes.
     */
    method OnPaymentObserved(e: PaymentObserved) returns (update: BalanceWindowUpdated)
      modifies this
      ensures accountTransactions
           == old(accountTransactions)[e.accountId := Window(TransactionsOf(old(accountTransactions), e.accountId), e)]
      ensures update == Summary(e, accountTransactions[e.accountId])
      ensures update.timestamp == e.timestamp && update.accountId == e.accountId
      ensures update.inLast30m == SumDirection(accountTransactions[e.accountId], "IN")
      ensures update.outLast30m == SumDirection(accountTransactions[e.accountId], "OUT")
      ensures update.netChangeLast30m == update.inLast30m - update.outLast30m
      ensures old(Valid()) ==> Valid()
    {
      var account := e.accountId;
      ghost var prior := TransactionsOf(accountTransactions, account);
      var txs := TransactionsOf(accountTransactions, account) + [e];
      txs := SortByTime(txs);
      var windowStart := WindowStart(e.timestamp);
      txs := Retained(txs, windowStart);
      accountTransactions := accountTransactions[account := txs];
      update := Summary(e, txs);
      assert txs == Window(prior, e);
      if old(Valid()) {
        WindowKeepsValid(old(accountTransactions), e);
      }
    }
  }

  // ---------------------------------------------------------------------
  // The fast cash-out detector
  // ---------------------------------------------------------------------

  /** outbound / inbound, or 0 when nothing came in (also when the inbound total is negative). */
  function Ratio(inbound: real, outbound: real): (r: real)
    ensures inbound > 0.0 ==> r * inbound == outbound
    ensures inbound <= 0.0 ==> r == 0.0
  {
    if inbound > 0.0 then outbound / inbound else 0.0
  }

  /**
    The deterministic part of the detector's handler. With no activity it
    does nothing; otherwise an alert is raised exactly when the outside
    verdict says suspicious, and it copies the window's totals.
   */
  function OnBalanceUpdated(u: BalanceWindowUpdated, suspicious: bool): (alert: Option<FastCashoutAlertRaised>)
    ensures alert.Some? <==> suspicious && !(u.inLast30m == 0.0 && u.outLast30m == 0.0)
    ensures alert.Some? ==>
      && alert.value.timestamp == u.timestamp
      && alert.value.accountId == u.accountId
      && alert.value.inLast30m == u.inLast30m
      && alert.value.outLast30m == u.outLast30m
      && alert.value.ratio == Ratio(u.inLast30m, u.outLast30m)
      && alert.value.lastTxnTime == u.timestamp
      && alert.value.firstTxnTime == WindowStart(u.timestamp)
  {
    if u.inLast30m == 0.0 && u.outLast30m == 0.0 then None
    else if suspicious then
      Some(FastCashoutAlertRaised(
        u.timestamp, u.accountId, u.inLast30m, u.outLast30m,
        Ratio(u.inLast30m, u.outLast30m),
        WindowStart(u.timestamp), u.timestamp))
    else None
  }

  /** For positive inflow, a ratio of at least 0.8 means outflow of at least 80% of inflow. */
  lemma {:induction false} RatioThreshold(inbound: real, outbound: real)
    requires inbound > 0.0
    ensures Ratio(inbound, outbound) >= 0.8 <==> outbound >= 0.8 * inbound
  {
    var r := Ratio(inbound, outbound);
    assert r * inbound == outbound;
    if r >= 0.8 {
      assert r * inbound >= 0.8 * inbound;
    } else {
      assert r * inbound < 0.8 * inbound;
    }
  }

  /**
    The 80% rule is not enforced: a suspicious verdict raises an alert whose
    ratio is far below 0.8, here because nothing came in during the window.
   */
  lemma {:induction false} AlertBelowThreshold()
    ensures var u := BalanceWindowUpdated(1860, "ACC", 0.0, 900.0, -900.0);
            var alert := OnBalanceUpdated(u, true);
            alert.Some? && alert.value.ratio == 0.0 && alert.value.ratio < 0.8
  {
  }
}
