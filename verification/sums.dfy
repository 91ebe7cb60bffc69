/** Finite sums of weights over sets, maps and sequences. */
module Sums {

  ghost function SumSet<T(!new)>(xs: set<T>, f: T -> nat): nat {
    if xs == {} then 0
    else
      var x :| x in xs;
      f(x) + SumSet(xs - {x}, f)
  }

  lemma {:induction false} SumSetTake<T(!new)>(xs: set<T>, x: T, f: T -> nat)
    requires x in xs
    ensures SumSet(xs, f) == f(x) + SumSet(xs - {x}, f)
    decreases |xs|
  {
    var y :| y in xs && SumSet(xs, f) == f(y) + SumSet(xs - {y}, f);
    if y != x {
      SumSetTake(xs - {y}, x, f);
      SumSetTake(xs - {x}, y, f);
      assert xs - {y} - {x} == xs - {x} - {y};
    }
  }

  lemma {:induction false} SumSetSame<T(!new)>(xs: set<T>, f: T -> nat, g: T -> nat)
    requires forall x :: x in xs ==> f(x) == g(x)
    ensures SumSet(xs, f) == SumSet(xs, g)
    decreases |xs|
  {
    if xs != {} {
      var x :| x in xs;
      SumSetTake(xs, x, f);
      SumSetTake(xs, x, g);
      SumSetSame(xs - {x}, f, g);
    }
  }

  lemma {:induction false} SumSetMonotone<T(!new)>(xs: set<T>, ys: set<T>, f: T -> nat)
    requires xs <= ys
    ensures SumSet(xs, f) <= SumSet(ys, f)
    decreases |xs|
  {
    if xs != {} {
      var x :| x in xs;
      SumSetTake(xs, x, f);
      SumSetTake(ys, x, f);
      SumSetMonotone(xs - {x}, ys - {x}, f);
    }
  }

  lemma SumSetPut<T(!new)>(xs: set<T>, x: T, f: T -> nat)
    ensures SumSet(xs + {x}, f) <= SumSet(xs, f) + f(x)
  {
    SumSetTake(xs + {x}, x, f);
    SumSetMonotone(xs + {x} - {x}, xs, f);
  }

  ghost function SumSeq<T>(xs: seq<T>, f: T -> nat): nat {
    if xs == [] then 0 else f(xs[0]) + SumSeq(xs[1..], f)
  }

  lemma {:induction false} SumSeqConcat<T>(xs: seq<T>, ys: seq<T>, f: T -> nat)
    ensures SumSeq(xs + ys, f) == SumSeq(xs, f) + SumSeq(ys, f)
    decreases |xs|
  {
    if xs == [] {
      assert xs + ys == ys;
    } else {
      assert (xs + ys)[1..] == xs[1..] + ys;
      SumSeqConcat(xs[1..], ys, f);
    }
  }

  lemma {:induction false} SumSeqSame<T>(xs: seq<T>, f: T -> nat, g: T -> nat)
    requires forall i :: 0 <= i < |xs| ==> f(xs[i]) == g(xs[i])
    ensures SumSeq(xs, f) == SumSeq(xs, g)
    decreases |xs|
  {
    if xs != [] {
      assert forall i :: 0 <= i < |xs[1..]| ==> xs[1..][i] == xs[i + 1];
      SumSeqSame(xs[1..], f, g);
    }
  }

  /** Taking distinct elements out of a set takes out their weights. */
  lemma {:induction false} SumSetTakeAll<T(!new)>(xs: set<T>, ts: seq<T>, f: T -> nat)
    requires forall i :: 0 <= i < |ts| ==> ts[i] in xs
    requires forall i, j :: 0 <= i < j < |ts| ==> ts[i] != ts[j]
    ensures SumSet(xs, f) == SumSet(xs - (set t | t in ts), f) + SumSeq(ts, f)
    decreases |ts|
  {
    if ts == [] {
      assert xs - (set t | t in ts) == xs;
    } else {
      SumSetTake(xs, ts[0], f);
      var rest := ts[1..];
      assert forall i :: 0 <= i < |rest| ==> rest[i] == ts[i + 1];
      SumSetTakeAll(xs - {ts[0]}, rest, f);
      assert xs - (set t | t in ts) == xs - {ts[0]} - (set t | t in rest);
    }
  }

  lemma SumSetWithout<T(!new)>(xs: set<T>, ts: seq<T>, rest: set<T>, f: T -> nat)
    requires forall i :: 0 <= i < |ts| ==> ts[i] in xs
    requires forall i, j :: 0 <= i < j < |ts| ==> ts[i] != ts[j]
    requires forall x :: x in rest <==> x in xs && x !in ts
    ensures SumSet(xs, f) == SumSet(rest, f) + SumSeq(ts, f)
  {
    SumSetTakeAll(xs, ts, f);
    assert rest == xs - (set t | t in ts);
  }

  /** The weight of all values of a map. */
  ghost function Total<K(!new), V(!new)>(m: map<K, V>, w: V -> nat): nat {
    SumSet(m.Keys, k => if k in m then w(m[k]) else 0)
  }

  lemma TotalTake<K(!new), V(!new)>(m: map<K, V>, k: K, w: V -> nat)
    requires k in m
    ensures Total(m, w) == w(m[k]) + Total(m - {k}, w)
  {
    var f := k' => if k' in m then w(m[k']) else 0;
    var g := k' => if k' in m - {k} then w((m - {k})[k']) else 0;
    SumSetTake(m.Keys, k, f);
    assert (m - {k}).Keys == m.Keys - {k};
    SumSetSame(m.Keys - {k}, f, g);
  }

  lemma TotalPut<K(!new), V(!new)>(m: map<K, V>, k: K, v: V, w: V -> nat)
    ensures Total(m[k := v], w) == w(v) + Total(m - {k}, w)
  {
    TotalTake(m[k := v], k, w);
    assert m[k := v] - {k} == m - {k};
  }

  lemma {:induction false} SumSetLe<T(!new)>(xs: set<T>, f: T -> nat, g: T -> nat)
    requires forall x :: x in xs ==> f(x) <= g(x)
    ensures SumSet(xs, f) <= SumSet(xs, g)
    decreases |xs|
  {
    if xs != {} {
      var x :| x in xs;
      SumSetTake(xs, x, f);
      SumSetTake(xs, x, g);
      SumSetLe(xs - {x}, f, g);
    }
  }

  /** One summand changes, the others do not grow. */
  lemma SumSetAt<T(!new)>(xs: set<T>, x: T, f: T -> nat, g: T -> nat)
    requires x in xs && forall y :: y in xs && y != x ==> g(y) <= f(y)
    ensures SumSet(xs, g) + f(x) <= SumSet(xs, f) + g(x)
  {
    SumSetTake(xs, x, f);
    SumSetTake(xs, x, g);
    SumSetLe(xs - {x}, g, f);
  }

  lemma Distribute(k: nat, a: nat, b: nat)
    ensures k * (a + b) == k * a + k * b
  {
  }

  lemma OneMore(n: nat, d: nat)
    ensures (n + 1) * d == n * d + d
  {
  }

  /** Every summand grows by at most `d`. */
  lemma {:induction false} SumSetBump<T(!new)>(xs: set<T>, f: T -> nat, g: T -> nat, d: nat)
    requires forall x :: x in xs ==> g(x) <= f(x) + d
    ensures SumSet(xs, g) <= SumSet(xs, f) + |xs| * d
    decreases |xs|
  {
    if xs != {} {
      var x :| x in xs;
      SumSetTake(xs, x, f);
      SumSetTake(xs, x, g);
      var rest := |xs - {x}|;
      SumSetBump(xs - {x}, f, g, d);
      assert |xs| == rest + 1;
      OneMore(rest, d);
    }
  }

  /** Elements put into a set bring at most their weights. */
  lemma {:induction false} SumSetPutAll<T(!new)>(xs: set<T>, ts: seq<T>, f: T -> nat)
    ensures SumSet(xs + (set t | t in ts), f) <= SumSet(xs, f) + SumSeq(ts, f)
    decreases |ts|
  {
    if ts == [] {
      assert xs + (set t | t in ts) == xs;
    } else {
      SumSetPut(xs, ts[0], f);
      SumSetPutAll(xs + {ts[0]}, ts[1..], f);
      assert ts == [ts[0]] + ts[1..];
      assert xs + (set t | t in ts) == xs + {ts[0]} + (set t | t in ts[1..]);
    }
  }
}
