/** The final step of data-generator/generate-trip-events.js: events are stamped with an
    instant, cut off at the cancellation instant and ordered by that instant. */
module Ordering {
  import opened Events

  /** 2025-11-03T10:00:00.000Z in milliseconds since the epoch. */
  const BaseTime: int := 1762164000000

  /** The instant an event is stamped with, in milliseconds: for a whole-second offset,
      the base time plus that many thousand milliseconds. */
  function Key(e: Event): (k: int)
    ensures e.offset.Floor as real == e.offset ==> k == BaseTime + 1000 * e.offset.Floor
  {
    Timestamp(BaseTime, e.offset)
  }

  ghost predicate SortedByKey(s: seq<Event>) {
    forall i, j :: 0 <= i < j < |s| ==> Key(s[i]) <= Key(s[j])
  }

  /** The events stamped with instant k, in their order in s. */
  function WithKey(s: seq<Event>, k: int): seq<Event>
  {
    if s == [] then []
    else WithKey(s[..|s| - 1], k) + (if Key(s[|s| - 1]) == k then [s[|s| - 1]] else [])
  }

  lemma {:induction false} WithKeyAppend(a: seq<Event>, b: seq<Event>, k: int)
    ensures WithKey(a + b, k) == WithKey(a, k) + WithKey(b, k)
    decreases |b|
  {
    if b == [] {
      assert a + b == a;
    } else {
      var b' := b[..|b| - 1];
      assert (a + b)[..|a + b| - 1] == a + b';
      WithKeyAppend(a, b', k);
    }
  }

  // ------------------------------------------------------------------ ordering

  /** Places x after every event of t stamped no later than x. */
  function Insert(t: seq<Event>, x: Event): (r: seq<Event>)
    ensures multiset(r) == multiset(t) + multiset{x}
    ensures |r| == |t| + 1
    decreases |t|
  {
    if t == [] then [x]
    else if Key(t[|t| - 1]) <= Key(x) then t + [x]
    else
      assert t == t[..|t| - 1] + [t[|t| - 1]];
      Insert(t[..|t| - 1], x) + [t[|t| - 1]]
  }

  lemma {:induction false} InsertSorted(t: seq<Event>, x: Event)
    requires SortedByKey(t)
    ensures SortedByKey(Insert(t, x))
    decreases |t|
  {
    if t != [] && Key(x) < Key(t[|t| - 1]) {
      var last := t[|t| - 1];
      var front := t[..|t| - 1];
      InsertSorted(front, x);
      SortedBelowLast(t);
      InsertBounded(front, x, Key(last));
      SortedSnoc(Insert(front, x), last);
    }
  }

  /** In an ordered list, nothing before the last event is stamped later than it. */
  lemma SortedBelowLast(t: seq<Event>)
    requires SortedByKey(t) && t != []
    ensures forall e <- t[..|t| - 1] :: Key(e) <= Key(t[|t| - 1])
  {
    forall e | e in t[..|t| - 1]
      ensures Key(e) <= Key(t[|t| - 1])
    {
      var i :| 0 <= i < |t| - 1 && t[..|t| - 1][i] == e;
      assert t[i] == e;
    }
  }

  /** Inserting adds no event stamped later than both x and everything in t. */
  lemma InsertBounded(t: seq<Event>, x: Event, bound: int)
    requires forall e <- t :: Key(e) <= bound
    requires Key(x) <= bound
    ensures forall e <- Insert(t, x) :: Key(e) <= bound
  {
    forall e | e in Insert(t, x)
      ensures Key(e) <= bound
    {
      assert e in multiset(Insert(t, x));
    }
  }

  /** An ordered list stays ordered when an event no earlier than all of it is appended. */
  lemma SortedSnoc(s: seq<Event>, y: Event)
    requires SortedByKey(s)
    requires forall e <- s :: Key(e) <= Key(y)
    ensures SortedByKey(s + [y])
  {
    forall i, j | 0 <= i < j < |s + [y]|
      ensures Key((s + [y])[i]) <= Key((s + [y])[j])
    {
      assert (s + [y])[i] == s[i];
      if j == |s| {
        assert s[i] in s;
      }
    }
  }

  lemma WithKeySingle(x: Event, k: int)
    ensures WithKey([x], k) == if Key(x) == k then [x] else []
  {
    assert [x][..0] == [];
  }

  /** Inserting x adds x, and nothing else, to the events stamped with x's instant; the
      events of every other instant keep their order. */
  lemma {:induction false} InsertStable(t: seq<Event>, x: Event, k: int)
    ensures WithKey(Insert(t, x), k) == WithKey(t, k) + WithKey([x], k)
    decreases |t|
  {
    if t == [] {
      assert Insert(t, x) == [x];
      assert WithKey(t, k) == [];
    } else if Key(t[|t| - 1]) <= Key(x) {
      assert Insert(t, x) == t + [x];
      WithKeyAppend(t, [x], k);
    } else {
      var front := t[..|t| - 1];
      var last := t[|t| - 1];
      assert Insert(t, x) == Insert(front, x) + [last];
      assert front + [last] == t;
      InsertStable(front, x, k);
      InsertStableStep(front, last, x, k);
    }
  }

  /** The step of InsertStable where x goes before the last event, stamped later than x. */
  lemma InsertStableStep(front: seq<Event>, last: Event, x: Event, k: int)
    requires Key(x) < Key(last)
    requires WithKey(Insert(front, x), k) == WithKey(front, k) + WithKey([x], k)
    ensures WithKey(Insert(front, x) + [last], k) == WithKey(front + [last], k) + WithKey([x], k)
  {
    WithKeyAppend(Insert(front, x), [last], k);
    WithKeyAppend(front, [last], k);
    WithKeySingle(x, k);
    WithKeySingle(last, k);
  }

  /** Array.prototype.sort with a timestamp comparator: stable, so a sort by insertion. */
  function SortByTime(s: seq<Event>): (r: seq<Event>)
    ensures multiset(r) == multiset(s)
    ensures |r| == |s|
  {
    if s == [] then []
    else
      assert s == s[..|s| - 1] + [s[|s| - 1]];
      Insert(SortByTime(s[..|s| - 1]), s[|s| - 1])
  }

  lemma {:induction false} SortByTimeSorted(s: seq<Event>)
    ensures SortedByKey(SortByTime(s))
  {
    if s != [] {
      SortByTimeSorted(s[..|s| - 1]);
      InsertSorted(SortByTime(s[..|s| - 1]), s[|s| - 1]);
    }
  }

  /** The sort is stable: events stamped with the same instant keep their order. */
  lemma {:induction false} SortByTimeStable(s: seq<Event>, k: int)
    ensures WithKey(SortByTime(s), k) == WithKey(s, k)
  {
    if s != [] {
      var front := s[..|s| - 1];
      SortByTimeStable(front, k);
      InsertStable(SortByTime(front), s[|s| - 1], k);
    }
  }

  /** Sorting loses no event. */
  lemma SortKeeps(s: seq<Event>, e: Event)
    requires e in s
    ensures e in SortByTime(s)
  {
    assert e in multiset(SortByTime(s));
  }

  // ------------------------------------------------------------------ cut-off

  /** The events stamped no later than cutoff, in order. */
  function KeepUntil(s: seq<Event>, cutoff: int): (r: seq<Event>)
    ensures forall e :: e in r <==> e in s && Key(e) <= cutoff
    ensures multiset(r) <= multiset(s)
  {
    if s == [] then []
    else
      var front := s[..|s| - 1];
      var last := s[|s| - 1];
      assert s == front + [last];
      KeepUntil(front, cutoff) + (if Key(last) <= cutoff then [last] else [])
  }

  /** The cut keeps the events of every instant up to the cut-off, in their order. */
  lemma {:induction false} KeepUntilStable(s: seq<Event>, cutoff: int, k: int)
    requires k <= cutoff
    ensures WithKey(KeepUntil(s, cutoff), k) == WithKey(s, k)
    decreases |s|
  {
    if s != [] {
      var front := s[..|s| - 1];
      var last := s[|s| - 1];
      var tail := if Key(last) <= cutoff then [last] else [];
      KeepUntilStable(front, cutoff, k);
      WithKeyAppend(KeepUntil(front, cutoff), tail, k);
      if Key(last) > cutoff {
        assert KeepUntil(front, cutoff) + tail == KeepUntil(front, cutoff);
      }
    }
  }
}
