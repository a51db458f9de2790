/** Small notions that several components share. */
module Basics {

  datatype Option<T> = None | Some(value: T)

  function Least(a: nat, b: nat): nat {
    if a <= b then a else b
  }

  function Flatten<T>(ss: seq<seq<T>>): seq<T> {
    if ss == [] then [] else Flatten(ss[..|ss| - 1]) + ss[|ss| - 1]
  }

  lemma {:induction false} FlattenHolds<T>(ss: seq<seq<T>>, x: T)
    ensures x in Flatten(ss) <==> exists i :: 0 <= i < |ss| && x in ss[i]
  {
    if ss != [] {
      var init := ss[..|ss| - 1];
      FlattenHolds(init, x);
      if x in Flatten(init) {
        var i :| 0 <= i < |init| && x in init[i];
        assert x in ss[i];
      }
    }
  }

  lemma FlattenSnoc<T>(ss: seq<seq<T>>, s: seq<T>)
    ensures Flatten(ss + [s]) == Flatten(ss) + s
  {
    assert (ss + [s])[..|ss|] == ss;
  }

  lemma Reassociate<T>(a: seq<T>, b: seq<T>, c: seq<T>)
    ensures a + b + c == a + (b + c)
  {
  }

  lemma FlattenOneMore<T>(a: seq<seq<T>>, b: seq<seq<T>>, s: seq<T>)
    requires Flatten(a + b) == Flatten(a) + Flatten(b)
    ensures Flatten(a + (b + [s])) == Flatten(a) + Flatten(b + [s])
  {
    FlattenSnoc(a + b, s);
    FlattenSnoc(b, s);
    Reassociate(a, b, [s]);
    Reassociate(Flatten(a), Flatten(b), s);
  }

  lemma {:induction false} FlattenConcat<T>(a: seq<seq<T>>, b: seq<seq<T>>)
    ensures Flatten(a + b) == Flatten(a) + Flatten(b)
    decreases |b|
  {
    if b == [] {
      assert a + b == a;
    } else {
      var init, last := b[..|b| - 1], b[|b| - 1];
      FlattenConcat(a, init);
      FlattenOneMore(a, init, last);
      assert b == init + [last];
    }
  }

  lemma FlattenAround<T>(a: seq<seq<T>>, s: seq<T>, b: seq<seq<T>>)
    ensures Flatten(a + [s] + b) == Flatten(a) + s + Flatten(b)
  {
    FlattenSnoc(a, s);
    FlattenConcat(a + [s], b);
  }

  lemma StepOver(x: nat, d: nat)
    requires d > 0
    ensures (x + d) / d == x / d + 1 && (x + d) % d == x % d
  {
    var q, r, q', r' := x / d, x % d, (x + d) / d, (x + d) % d;
    var k := q' - q - 1;
    assert d * k + (r' - r) == 0 by {
      assert x == d * q + r && x + d == d * q' + r';
      assert d * k == d * q' - d * q - d;
    }
    assert k >= 1 ==> d * k >= d;
    assert k <= -1 ==> d * k + d <= 0;
  }
}
