/** Choosing the history items that an explanation request carries
    (boundExplainHistory in internal/httpapi/event_explain.go). */
module HistoryBound {
  import opened Protocol

  const MAX_ITEMS := 20

  datatype HistoryItem = HistoryItem(status: Status, occurredAt: nat)

  predicate IsMarker(status: Status) {
    status.DeadLettered? || status.Redriven? || status.Delivered?
  }

  /** The first position and those of the recovery markers. */
  ghost function Marked(history: seq<HistoryItem>): set<int> {
    set i | 0 <= i < |history| && (i == 0 || IsMarker(history[i].status))
  }

  ghost predicate Increasing(positions: seq<int>) {
    forall a, b :: 0 <= a < b < |positions| ==> positions[a] < positions[b]
  }

  ghost function Elements(positions: seq<int>): set<int> {
    set i | i in positions
  }

  /** A set of positions that a bounded history may consist of. */
  ghost predicate Choice(history: seq<HistoryItem>, kept: set<int>) {
    var marked := Marked(history);
    && (forall i :: i in kept ==> 0 <= i < |history|)
    && |kept| == (if |history| <= MAX_ITEMS then |history| else MAX_ITEMS)
    && (|marked| <= MAX_ITEMS ==>
          && marked <= kept
          && forall i, j :: i in kept && i !in marked && 0 <= j < |history| && j !in kept ==> j < i)
    && (|marked| > MAX_ITEMS ==>
          && kept <= marked
          && forall i, j :: i in kept && j in marked && j !in kept ==> i < j)
  }

  /** `bounded` lists the items at `positions`, in order. */
  ghost predicate Selects(history: seq<HistoryItem>, positions: seq<int>, bounded: seq<HistoryItem>) {
    && Increasing(positions) && |bounded| == |positions|
    && forall k :: 0 <= k < |positions| ==>
         0 <= positions[k] < |history| && bounded[k] == history[positions[k]]
  }

  ghost predicate IsBounded(history: seq<HistoryItem>, bounded: seq<HistoryItem>) {
    exists positions :: Selects(history, positions, bounded) && Choice(history, Elements(positions))
  }

  // ---- The specification determines the result ---------------------------------------

  lemma SameSize<T>(a: set<T>, b: set<T>)
    requires |a| <= |b| && b <= a
    ensures a == b
  {
    Smaller(b, a);
    if x :| x in a && x !in b {
      Smaller(b, a - {x});
    }
  }

  lemma {:induction false} Smaller<T>(a: set<T>, b: set<T>)
    requires a <= b
    ensures |a| <= |b|
    decreases |a|
  {
    if x :| x in a {
      Smaller(a - {x}, b - {x});
    }
  }

  lemma ChoiceSubset(history: seq<HistoryItem>, a: set<int>, b: set<int>)
    requires Choice(history, a) && Choice(history, b)
    ensures a <= b
  {
    if b <= a {
      SameSize(a, b);
    } else {
      var y :| y in b && y !in a;
      assert forall x :: x in a ==> x in b;
    }
  }

  lemma {:induction false} SameElements(p: seq<int>, q: seq<int>)
    requires Increasing(p) && Increasing(q) && Elements(p) == Elements(q)
    ensures p == q
    decreases |p|
  {
    ElementsSize(p);
    ElementsSize(q);
    if p != [] {
      assert p[0] in Elements(p) && p[0] in q;
      assert q[0] in Elements(q) && q[0] in p;
      Tail(p);
      Tail(q);
      SameElements(p[1..], q[1..]);
      assert p == [p[0]] + p[1..] && q == [q[0]] + q[1..];
    }
  }

  lemma Tail(p: seq<int>)
    requires p != [] && Increasing(p)
    ensures Elements(p[1..]) == Elements(p) - {p[0]} && Increasing(p[1..])
  {
    assert p == [p[0]] + p[1..];
  }

  /** At most one sequence is a bounded form of a history. */
  lemma BoundedUnique(history: seq<HistoryItem>, a: seq<HistoryItem>, b: seq<HistoryItem>)
    requires IsBounded(history, a) && IsBounded(history, b)
    ensures a == b
  {
    var p :| Selects(history, p, a) && Choice(history, Elements(p));
    var q :| Selects(history, q, b) && Choice(history, Elements(q));
    ChoiceSubset(history, Elements(p), Elements(q));
    ChoiceSubset(history, Elements(q), Elements(p));
    SameElements(p, q);
  }

  // ---- The algorithm ------------------------------------------------------------------

  ghost function Range(lo: int, hi: int): (r: set<int>)
    ensures forall i :: i in r <==> (lo <= i && i < hi)
    decreases hi - lo
  {
    if lo < hi then Range(lo, hi - 1) + {hi - 1} else {}
  }

  lemma {:induction false} RangeSize(n: nat)
    ensures |Range(0, n)| == n
  {
    if n > 0 {
      RangeSize(n - 1);
    }
  }

  lemma {:induction false} ElementsSize(p: seq<int>)
    requires Increasing(p)
    ensures |Elements(p)| == |p|
    decreases |p|
  {
    if p != [] {
      Tail(p);
      ElementsSize(p[1..]);
      assert p[0] in Elements(p);
    }
  }

  lemma IdentityBound(history: seq<HistoryItem>)
    requires |history| <= MAX_ITEMS
    ensures IsBounded(history, history)
  {
    var positions := seq(|history|, k => k);
    forall i | 0 <= i < |history| ensures i in positions {
      assert positions[i] == i;
    }
    assert Elements(positions) == Range(0, |history|);
    RangeSize(|history|);
    Smaller(Marked(history), Range(0, |history|));
    assert Selects(history, positions, history);
    assert Choice(history, Elements(positions));
  }

  /** The keep set after both marking loops. */
  ghost predicate Kept(history: seq<HistoryItem>, keep: set<int>) {
    var marked := Marked(history);
    && marked <= keep <= Range(0, |history|)
    && |keep| == (if |marked| <= MAX_ITEMS then MAX_ITEMS else |marked|)
    && (|marked| > MAX_ITEMS ==> keep == marked)
    && (forall i, j :: i in keep && i !in marked && 0 <= j < |history| && j !in keep ==> j < i)
  }

  /** The first items of a keep set are a choice. */
  lemma FirstKept(history: seq<HistoryItem>, keep: set<int>, positions: seq<int>, upTo: int)
    requires |history| > MAX_ITEMS && Kept(history, keep)
    requires Increasing(positions) && |positions| <= MAX_ITEMS && 0 <= upTo <= |history|
    requires forall i :: i in positions <==> i in keep && i < upTo
    requires |positions| == MAX_ITEMS || upTo == |history|
    ensures Choice(history, Elements(positions))
  {
    var chosen := Elements(positions);
    ElementsSize(positions);
    assert upTo == |history| ==> chosen == keep;
    assert |chosen| == MAX_ITEMS;
    if |Marked(history)| <= MAX_ITEMS {
      SameSize(keep, chosen);
    }
  }

  method KeepMarkers(history: seq<HistoryItem>) returns (keep: set<int>)
    requires history != []
    ensures keep == Marked(history)
  {
    keep := {0};
    var i := 0;
    while i < |history|
      invariant 0 <= i <= |history|
      invariant forall j :: j in keep <==> j == 0 || (0 <= j < i && IsMarker(history[j].status))
    {
      if IsMarker(history[i].status) {
        keep := keep + {i};
      }
      i := i + 1;
    }
  }

  method KeepRecent(history: seq<HistoryItem>, marked: set<int>) returns (keep: set<int>)
    requires |history| > MAX_ITEMS && marked == Marked(history)
    ensures Kept(history, keep)
  {
    keep := marked;
    var i := |history| - 1;
    while i >= 0 && |keep| < MAX_ITEMS
      invariant -1 <= i < |history|
      invariant forall j :: j in keep <==> j in marked || i < j < |history|
      invariant |keep| <= MAX_ITEMS || keep == marked
      invariant marked <= keep
    {
      keep := keep + {i};
      i := i - 1;
    }
    EnoughKept(history, marked, keep, i);
  }

  lemma EnoughKept(history: seq<HistoryItem>, marked: set<int>, keep: set<int>, i: int)
    requires |history| > MAX_ITEMS && marked == Marked(history) && marked <= keep && -1 <= i < |history|
    requires forall j :: j in keep <==> j in marked || i < j < |history|
    requires i < 0 || |keep| >= MAX_ITEMS
    requires |keep| <= MAX_ITEMS || keep == marked
    ensures Kept(history, keep)
  {
    Smaller(marked, keep);
    if i < 0 {
      RangeSize(|history|);
      Smaller(Range(0, |history|), keep);
    }
  }

  method BoundExplainHistory(history: seq<HistoryItem>) returns (bounded: seq<HistoryItem>)
    ensures IsBounded(history, bounded)
  {
    if |history| <= MAX_ITEMS {
      IdentityBound(history);
      return history;
    }
    var keep := KeepMarkers(history);
    keep := KeepRecent(history, keep);
    bounded := [];
    ghost var positions: seq<int> := [];
    var i := 0;
    while i < |history|
      invariant 0 <= i <= |history| && |positions| < MAX_ITEMS
      invariant Selects(history, positions, bounded)
      invariant forall k :: 0 <= k < |positions| ==> positions[k] < i
      invariant forall j :: j in positions <==> j in keep && j < i
    {
      if i in keep {
        bounded := bounded + [history[i]];
        positions := positions + [i];
      }
      i := i + 1;
      if |bounded| == MAX_ITEMS {
        break;
      }
    }
    FirstKept(history, keep, positions, i);
  }

  /** What the receiver can rely on. */
  lemma BoundedFacts(history: seq<HistoryItem>, bounded: seq<HistoryItem>)
    requires IsBounded(history, bounded)
    ensures |bounded| == if |history| <= 20 then |history| else 20
    ensures history != [] ==> bounded[0] == history[0]
    ensures forall item :: item in bounded ==> item in history
  {
    var positions :| Selects(history, positions, bounded) && Choice(history, Elements(positions));
    ElementsSize(positions);
    if history != [] {
      FirstStays(history, Elements(positions));
      assert 0 in Elements(positions);
      var k :| 0 <= k < |positions| && positions[k] == 0;
      ZeroIsFirst(positions, k);
    }
  }

  /** Unless there are more than 20 of them, every dead letter, redrive and delivery stays. */
  lemma MarkersStay(history: seq<HistoryItem>, bounded: seq<HistoryItem>, i: nat)
    requires IsBounded(history, bounded) && i < |history|
    requires history[i].status in {DeadLettered, Redriven, Delivered}
    requires |set k | 0 <= k < |history| && (k == 0 || history[k].status in {DeadLettered, Redriven, Delivered})| <= 20
    ensures history[i] in bounded
  {
    var positions :| Selects(history, positions, bounded) && Choice(history, Elements(positions));
    assert Marked(history)
           == set k | 0 <= k < |history| && (k == 0 || history[k].status in {DeadLettered, Redriven, Delivered});
    assert i in Elements(positions);
    var k :| 0 <= k < |positions| && positions[k] == i;
    assert bounded[k] == history[i];
  }

  lemma ZeroIsFirst(positions: seq<int>, k: nat)
    requires k < |positions| && Increasing(positions) && positions[0] >= 0 && positions[k] == 0
    ensures k == 0
  {
  }

  lemma FirstStays(history: seq<HistoryItem>, kept: set<int>)
    requires Choice(history, kept) && history != []
    ensures 0 in kept
  {
    assert 0 in Marked(history);
    var i :| i in kept;
    assert 0 <= i < |history|;
  }
}
