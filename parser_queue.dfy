/**
 The parser priority queue the classifier draws its candidate parsers from.

 The queue type itself is not part of this model; what the classifier relies on is its
 Peek/Pop/Push/Len contract. The queue is modelled as a sequence of (log type, penalty)
 items kept in non-decreasing penalty order: Peek returns the head (a minimum-penalty item),
 Pop removes that same item, and Push places an item behind every item whose penalty is
 not larger than its own.
 */
module ParserQueue {

  /** One queue entry: the log type of a parser and its current penalty. */
  datatype QueueItem = QueueItem(logType: string, penalty: nat)

  /** The ordering invariant: penalties never decrease from the head to the tail. */
  ghost predicate Ordered(q: seq<QueueItem>) {
    forall i, j | 0 <= i < j < |q| :: q[i].penalty <= q[j].penalty
  }

  /** Every parser appears at most once (the queue is built from a map keyed by log type). */
  ghost predicate Distinct(q: seq<QueueItem>) {
    forall i, j | 0 <= i < j < |q| :: q[i].logType != q[j].logType
  }

  /** No item of q belongs to parser lt. */
  ghost predicate Absent(q: seq<QueueItem>, lt: string) {
    forall y | y in q :: y.logType != lt
  }

  /** No parser of b appears in a. */
  ghost predicate Apart(a: seq<QueueItem>, b: seq<QueueItem>) {
    forall y | y in b :: Absent(a, y.logType)
  }

  /** Every penalty in q is at least p. */
  ghost predicate AtLeast(q: seq<QueueItem>, p: nat) {
    forall y | y in q :: p <= y.penalty
  }

  /** Every penalty in q is at most p. */
  ghost predicate AtMost(q: seq<QueueItem>, p: nat) {
    forall y | y in q :: y.penalty <= p
  }

  /** The log types of the parsers held in a queue. */
  ghost function LogTypes(q: seq<QueueItem>): set<string> {
    set i | 0 <= i < |q| :: q[i].logType
  }

  lemma LogTypesMember(q: seq<QueueItem>, lt: string)
    ensures lt in LogTypes(q) <==> !Absent(q, lt)
  {
    if lt in LogTypes(q) {
      var i :| 0 <= i < |q| && q[i].logType == lt;
      assert q[i] in q;
    }
    if !Absent(q, lt) {
      var y :| y in q && y.logType == lt;
      var i :| 0 <= i < |q| && q[i] == y;
    }
  }

  lemma LogTypesSnoc(q: seq<QueueItem>, x: QueueItem)
    ensures LogTypes(q + [x]) == LogTypes(q) + {x.logType}
  {
    var s := q + [x];
    assert forall i | 0 <= i < |q| :: s[i] == q[i];
    assert s[|q|] == x;
  }

  lemma DistinctSnoc(q: seq<QueueItem>, x: QueueItem)
    requires Distinct(q) && Absent(q, x.logType)
    ensures Distinct(q + [x])
  {
    var s := q + [x];
    assert forall i | 0 <= i < |q| :: s[i] == q[i] && q[i] in q;
  }

  lemma OrderedCons(a: QueueItem, t: seq<QueueItem>)
    ensures Ordered([a] + t) <==> Ordered(t) && AtLeast(t, a.penalty)
  {
    if Ordered([a] + t) {
      OrderedConsElim(a, t);
    }
    if Ordered(t) && AtLeast(t, a.penalty) {
      OrderedConsIntro(a, t);
    }
  }

  lemma OrderedConsElim(a: QueueItem, t: seq<QueueItem>)
    requires Ordered([a] + t)
    ensures Ordered(t) && AtLeast(t, a.penalty)
  {
    var s := [a] + t;
    assert forall i | 0 <= i < |t| :: s[i + 1] == t[i];
    forall y | y in t ensures a.penalty <= y.penalty {
      var j :| 0 <= j < |t| && t[j] == y;
      assert s[0] == a && s[j + 1] == y;
      assert s[0].penalty <= s[j + 1].penalty;
    }
    forall i, j | 0 <= i < j < |t| ensures t[i].penalty <= t[j].penalty {
      assert s[i + 1].penalty <= s[j + 1].penalty;
    }
  }

  lemma OrderedConsIntro(a: QueueItem, t: seq<QueueItem>)
    requires Ordered(t) && AtLeast(t, a.penalty)
    ensures Ordered([a] + t)
  {
    var s := [a] + t;
    forall i, j | 0 <= i < j < |s| ensures s[i].penalty <= s[j].penalty {
      assert s[j] == t[j - 1] && s[j] in t;
      if i > 0 {
        assert s[i] == t[i - 1];
      }
    }
  }

  lemma DistinctCons(a: QueueItem, t: seq<QueueItem>)
    ensures Distinct([a] + t) <==> Distinct(t) && Absent(t, a.logType)
  {
    var s := [a] + t;
    assert forall i | 0 <= i < |t| :: s[i + 1] == t[i];
    if Distinct(s) {
      forall y | y in t ensures y.logType != a.logType {
        var j :| 0 <= j < |t| && t[j] == y;
        assert s[0] == a && s[j + 1] == y;
        assert s[0].logType != s[j + 1].logType;
      }
      forall i, j | 0 <= i < j < |t| ensures t[i].logType != t[j].logType {
        assert s[i + 1].logType != s[j + 1].logType;
      }
    }
    if Distinct(t) && Absent(t, a.logType) {
      forall i, j | 0 <= i < j < |s| ensures s[i].logType != s[j].logType {
        if i == 0 {
          assert s[j] == t[j - 1] && s[j] in t;
        } else {
          assert s[i] == t[i - 1] && s[j] == t[j - 1];
        }
      }
    }
  }

  /** heap.Push: the item goes behind every item whose penalty is not larger than its own. */
  function Insert(q: seq<QueueItem>, x: QueueItem): (r: seq<QueueItem>)
    ensures |r| == |q| + 1
    ensures multiset(r) == multiset(q) + multiset{x}
    ensures forall y | y in r :: y in q || y == x
    ensures Ordered(q) ==> Ordered(r)
    ensures Distinct(q) && Absent(q, x.logType) ==> Distinct(r)
    decreases |q|
  {
    if q == [] then [x]
    else if x.penalty < q[0].penalty then
      OrderedCons(x, q);
      DistinctCons(x, q);
      assert Ordered(q) ==> AtLeast(q, x.penalty) by {
        if Ordered(q) {
          forall y | y in q ensures x.penalty <= y.penalty {
            var j :| 0 <= j < |q| && q[j] == y;
            assert q[0].penalty <= q[j].penalty;
          }
        }
      }
      [x] + q
    else
      var tail := Insert(q[1..], x);
      assert q == [q[0]] + q[1..];
      OrderedCons(q[0], q[1..]);
      OrderedCons(q[0], tail);
      DistinctCons(q[0], q[1..]);
      DistinctCons(q[0], tail);
      [q[0]] + tail
  }

  /** Pushing a sequence of items one after the other, first to last. */
  function PushAll(q: seq<QueueItem>, xs: seq<QueueItem>): (r: seq<QueueItem>)
    ensures |r| == |q| + |xs|
    ensures multiset(r) == multiset(q) + multiset(xs)
    ensures forall y | y in r :: y in q || y in xs
    ensures Ordered(q) ==> Ordered(r)
    decreases |xs|
  {
    if xs == [] then q
    else
      var n := |xs| - 1;
      assert xs == xs[..n] + [xs[n]];
      Insert(PushAll(q, xs[..n]), xs[n])
  }

  /** Pushing parsers that are new to the queue, each once, keeps every parser unique. */
  lemma {:induction false} PushAllDistinct(q: seq<QueueItem>, xs: seq<QueueItem>)
    requires Distinct(q) && Distinct(xs) && Apart(q, xs)
    ensures Distinct(PushAll(q, xs))
    decreases |xs|
  {
    if xs != [] {
      var n := |xs| - 1;
      var init := xs[..n];
      assert xs == init + [xs[n]];
      assert forall j | 0 <= j < n :: init[j] == xs[j];
      assert Distinct(init);
      assert Apart(q, init);
      PushAllDistinct(q, init);
      forall y | y in PushAll(q, init) ensures y.logType != xs[n].logType {
        if y in init {
          var j :| 0 <= j < n && init[j] == y;
          assert xs[j].logType != xs[n].logType;
        }
      }
    }
  }

  /** Every item with its penalty raised by one (the parsers that failed on a line). */
  function Bumped(s: seq<QueueItem>): (r: seq<QueueItem>)
    ensures |r| == |s|
    ensures forall i | 0 <= i < |s| :: r[i].logType == s[i].logType && r[i].penalty == s[i].penalty + 1
  {
    seq(|s|, i requires 0 <= i < |s| => s[i].(penalty := s[i].penalty + 1))
  }

  lemma BumpedKeepsParsers(s: seq<QueueItem>)
    ensures LogTypes(Bumped(s)) == LogTypes(s)
    ensures Distinct(s) ==> Distinct(Bumped(s))
  {
    var b := Bumped(s);
    forall lt | lt in LogTypes(b) ensures lt in LogTypes(s) {
      var x :| x in b && x.logType == lt;
      var i :| 0 <= i < |b| && b[i] == x;
      assert s[i] in s;
    }
    forall lt | lt in LogTypes(s) ensures lt in LogTypes(b) {
      var x :| x in s && x.logType == lt;
      var i :| 0 <= i < |s| && s[i] == x;
      assert b[i] in b;
    }
  }

  /** The head of the queue with its penalty reset to 0, as the winning parser's item. */
  function ResetHead(s: seq<QueueItem>): (r: seq<QueueItem>)
    requires |s| > 0
    ensures |r| == |s| && r[0] == QueueItem(s[0].logType, 0)
    ensures forall i | 0 < i < |s| :: r[i] == s[i]
  {
    s[0 := s[0].(penalty := 0)]
  }

  /**
   Resetting the penalty of a minimum item to 0 while it stays at the head keeps the
   queue ordered, so no re-ordering of the queue is needed after the reset.
   */
  lemma ResetHeadKeepsOrder(s: seq<QueueItem>)
    requires |s| > 0
    ensures Ordered(s) ==> Ordered(ResetHead(s))
    ensures Distinct(s) ==> Distinct(ResetHead(s))
  {
    var r := ResetHead(s);
    assert s == [s[0]] + s[1..] && r == [r[0]] + s[1..];
    OrderedCons(s[0], s[1..]);
    OrderedCons(r[0], s[1..]);
    DistinctCons(s[0], s[1..]);
    DistinctCons(r[0], s[1..]);
  }

  /**
   What is left in the queue when the parser at index k accepted the line: that parser,
   with penalty 0, and everything after it. Nothing is left when every parser failed (k = |q|).
   */
  function Rest(q: seq<QueueItem>, k: nat): seq<QueueItem>
    requires k <= |q|
  {
    if k < |q| then ResetHead(q[k..]) else []
  }

  /**
   The queue after one classification in which the parsers before index k failed and were
   popped (penalty + 1), and then pushed back in the order they were popped.
   */
  function QueueAfter(q: seq<QueueItem>, k: nat): seq<QueueItem>
    requires k <= |q|
  {
    PushAll(Rest(q, k), Bumped(q[..k]))
  }

  /** The new penalty of the parser at index i after the parser at index k won. */
  function AdjustedPenalty(q: seq<QueueItem>, k: nat, i: nat): nat
    requires i < |q|
  {
    if i < k then q[i].penalty + 1 else if i == k then 0 else q[i].penalty
  }

  /** The input queue, in its own order, with every penalty adjusted as one classification does. */
  function Adjusted(q: seq<QueueItem>, k: nat): (r: seq<QueueItem>)
    requires k <= |q|
    ensures |r| == |q|
    ensures forall i | 0 <= i < |q| :: r[i] == QueueItem(q[i].logType, AdjustedPenalty(q, k, i))
  {
    Bumped(q[..k]) + Rest(q, k)
  }

  /** The parsers that failed and the rest of the queue have no parser in common. */
  lemma SplitApart(q: seq<QueueItem>, k: nat)
    requires k <= |q| && Distinct(q)
    ensures Distinct(Rest(q, k)) && Distinct(Bumped(q[..k])) && Apart(Rest(q, k), Bumped(q[..k]))
  {
    var rest, bumped := Rest(q, k), Bumped(q[..k]);
    if k < |q| {
      assert Distinct(q[k..]);
      ResetHeadKeepsOrder(q[k..]);
    }
    assert forall j | 0 <= j < |rest| :: rest[j].logType == q[k + j].logType;
    forall y | y in bumped ensures Absent(rest, y.logType) {
      var i :| 0 <= i < k && bumped[i] == y;
      forall z | z in rest ensures z.logType != y.logType {
        var j :| 0 <= j < |rest| && rest[j] == z;
        assert q[i].logType != q[k + j].logType;
      }
    }
  }

  /** Items with the same log types, index by index, carry the same set of log types. */
  lemma SameLogTypes(a: seq<QueueItem>, b: seq<QueueItem>)
    requires |a| == |b|
    requires forall i | 0 <= i < |a| :: a[i].logType == b[i].logType
    ensures LogTypes(a) == LogTypes(b)
  {
  }

  /** Two arrangements of the same items carry the same set of log types. */
  lemma PermutationLogTypes(a: seq<QueueItem>, b: seq<QueueItem>)
    requires multiset(a) == multiset(b)
    ensures LogTypes(a) == LogTypes(b)
  {
    forall lt | true ensures lt in LogTypes(a) <==> lt in LogTypes(b) {
      LogTypesMember(a, lt);
      LogTypesMember(b, lt);
      if !Absent(a, lt) {
        var y :| y in a && y.logType == lt;
        assert y in multiset(b);
      }
      if !Absent(b, lt) {
        var y :| y in b && y.logType == lt;
        assert y in multiset(a);
      }
    }
  }

  /**
   One classification keeps the queue's contents: the new queue is a rearrangement of the
   old one in which the failed parsers gained one penalty point, the winner has penalty 0
   and every other parser is untouched.
   */
  lemma QueueAfterIsAdjusted(q: seq<QueueItem>, k: nat)
    requires k <= |q|
    ensures |QueueAfter(q, k)| == |q|
    ensures multiset(QueueAfter(q, k)) == multiset(Adjusted(q, k))
  {
    var front := Bumped(q[..k]);
    assert multiset(QueueAfter(q, k)) == multiset(Rest(q, k)) + multiset(front);
    assert multiset(Adjusted(q, k)) == multiset(front) + multiset(Rest(q, k));
  }

  /** The queue holds the same parsers after a classification as before it. */
  lemma QueueAfterSameParsers(q: seq<QueueItem>, k: nat)
    requires k <= |q|
    ensures LogTypes(QueueAfter(q, k)) == LogTypes(q)
  {
    QueueAfterIsAdjusted(q, k);
    PermutationLogTypes(QueueAfter(q, k), Adjusted(q, k));
    SameLogTypes(Adjusted(q, k), q);
  }

  /** A classification keeps the queue ordered by penalty and free of duplicate parsers. */
  lemma QueueAfterValid(q: seq<QueueItem>, k: nat)
    requires k <= |q|
    ensures Ordered(q) ==> Ordered(QueueAfter(q, k))
    ensures Distinct(q) ==> Distinct(QueueAfter(q, k))
  {
    if k < |q| {
      ResetHeadKeepsOrder(q[k..]);
    }
    if Distinct(q) {
      SplitApart(q, k);
      PushAllDistinct(Rest(q, k), Bumped(q[..k]));
    }
  }

  /**
   Parser by parser: the item of the parser at index i is in the queue after classification
   with exactly its adjusted penalty and no other.
   */
  lemma PenaltyAfterClassify(q: seq<QueueItem>, k: nat, i: nat, p: nat)
    requires k <= |q| && i < |q|
    requires Distinct(q)
    ensures QueueItem(q[i].logType, p) in QueueAfter(q, k) <==> p == AdjustedPenalty(q, k, i)
  {
    QueueAfterIsAdjusted(q, k);
    var a := Adjusted(q, k);
    var item := QueueItem(q[i].logType, p);
    assert item in QueueAfter(q, k) <==> item in multiset(a);
    if item in a {
      var j :| 0 <= j < |a| && a[j] == item;
      assert q[j].logType == q[i].logType;
      assert j == i;
    }
    if p == AdjustedPenalty(q, k, i) {
      assert a[i] == item;
    }
  }

  /** One step of building the initial queue: a parser not yet in it is appended. */
  lemma AddNewParser(acc: seq<QueueItem>, lt: string, done: set<string>)
    requires LogTypes(acc) == done && |acc| == |done| && Distinct(acc) && lt !in done
    requires AtMost(acc, 0)
    ensures AtMost(acc + [QueueItem(lt, 0)], 0)
    ensures LogTypes(acc + [QueueItem(lt, 0)]) == done + {lt}
    ensures |acc + [QueueItem(lt, 0)]| == |done + {lt}|
    ensures Distinct(acc + [QueueItem(lt, 0)])
  {
    var item := QueueItem(lt, 0);
    assert forall y | y in acc + [item] :: y in acc || y == item;
    LogTypesSnoc(acc, item);
    LogTypesMember(acc, lt);
    DistinctSnoc(acc, item);
  }

  /** The items of a new queue: the given parsers, in an unspecified order, each with penalty 0. */
  method InitialItems(logTypes: set<string>) returns (acc: seq<QueueItem>)
    ensures LogTypes(acc) == logTypes && |acc| == |logTypes|
    ensures Distinct(acc) && Ordered(acc)
    ensures AtMost(acc, 0)
  {
    acc := [];
    var done: set<string> := {};
    var remaining := logTypes;
    while remaining != {}
      invariant done + remaining == logTypes && done !! remaining
      invariant LogTypes(acc) == done && |acc| == |done|
      invariant Distinct(acc) && AtMost(acc, 0)
      decreases remaining
    {
      var lt :| lt in remaining;
      AddNewParser(acc, lt, done);
      acc := acc + [QueueItem(lt, 0)];
      done := done + {lt};
      remaining := remaining - {lt};
    }
  }

  lemma InsertKeepsHead(q: seq<QueueItem>, x: QueueItem)
    requires |q| > 0 && q[0].penalty <= x.penalty
    ensures Insert(q, x)[0] == q[0]
  {
  }

  lemma {:induction false} PushAllKeepsHead(q: seq<QueueItem>, xs: seq<QueueItem>)
    requires |q| > 0 && AtLeast(xs, q[0].penalty + 1)
    ensures PushAll(q, xs)[0] == q[0]
    decreases |xs|
  {
    if xs != [] {
      var n := |xs| - 1;
      var init := xs[..n];
      assert xs[n] in xs;
      assert AtLeast(init, q[0].penalty + 1) by {
        forall y | y in init ensures q[0].penalty + 1 <= y.penalty {
          var j :| 0 <= j < n && init[j] == y;
          assert xs[j] in xs;
        }
      }
      PushAllKeepsHead(q, init);
      var front := PushAll(q, init);
      assert PushAll(q, xs) == Insert(front, xs[n]);
      InsertKeepsHead(front, xs[n]);
    }
  }

  /**
   The parser that accepted a line is at the head of the queue afterwards, with penalty 0,
   so it is the first one tried on the next line.
   */
  lemma WinnerMovesToFront(q: seq<QueueItem>, k: nat)
    requires k < |q|
    ensures QueueAfter(q, k)[0] == QueueItem(q[k].logType, 0)
  {
    var bumped := Bumped(q[..k]);
    forall y | y in bumped ensures 1 <= y.penalty {
      var i :| 0 <= i < |bumped| && bumped[i] == y;
    }
    PushAllKeepsHead(Rest(q, k), bumped);
  }

  /** The queue the classifier draws candidate parsers from. */
  class ParserPriorityQueue {
    var items: seq<QueueItem>

    ghost predicate Valid()
      reads this
    {
      Ordered(items) && Distinct(items)
    }

    /** A queue holding one item per log type, every penalty 0. */
    constructor (logTypes: set<string>)
      ensures Valid()
      ensures LogTypes(items) == logTypes && |items| == |logTypes|
      ensures AtMost(items, 0)
    {
      var initial := InitialItems(logTypes);
      items := initial;
    }

    /** The number of parsers waiting in the queue. */
    function Len(): (n: nat)
      reads this
      ensures n == 0 <==> items == []
    {
      |items|
    }

    /** A minimum-penalty item; the queue is not changed. */
    method Peek() returns (item: QueueItem)
      requires Ordered(items) && |items| > 0
      ensures item in items && item == items[0]
      ensures forall x | x in items :: item.penalty <= x.penalty
    {
      item := items[0];
    }

    /** heap.Pop: removes the item Peek returns. */
    method Pop() returns (item: QueueItem)
      requires Valid() && |items| > 0
      modifies this
      ensures Valid()
      ensures item == old(items[0]) && items == old(items[1..])
    {
      item := items[0];
      items := items[1..];
    }

    /** heap.Push; a parser not yet in a valid queue leaves it valid. */
    method Push(item: QueueItem)
      modifies this
      ensures items == Insert(old(items), item)
      ensures old(Valid()) && Absent(old(items), item.logType) ==> Valid()
    {
      items := Insert(items, item);
    }
  }
}
