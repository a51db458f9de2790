/** In which order the records of one connection reach the controller (agent/timer.go): lists on
    their way may be answered in any order, and the merge of records tells orders apart. */
module ConnectionOrder {
  import opened Aggregation
  import opened Basics
  import opened ConnectionMap

  // -- Where each record of a key is, by its number

  /** Of `n` records numbered from 0: which are delivered, in each list, in the map, and lost. */
  datatype Places = Places(n: nat, delivered: seq<nat>, flight: seq<seq<nat>>, held: seq<nat>, lost: seq<nat>)

  const NOWHERE: Places := Places(0, [], [], [], [])

  predicate Can(o: Places, m: Move) {
    m.Sent? || m.Back? || m.Forgotten? ==> m.i < |o.flight|
  }

  function Placed(o: Places, m: Move): Places
    requires Can(o, m)
  {
    match m
    case Stay => o
    case Joins(_) => o.(n := o.n + 1, held := o.held + [o.n])
    case Enters(_) => o.(n := o.n + 1, held := [o.n], lost := o.lost + o.held)
    case Refused(_) => o.(n := o.n + 1, lost := o.lost + [o.n])
    case Out => o.(flight := o.flight + [o.held], held := [])
    case Passed => o.(flight := o.flight + [[]])
    case Sent(i) => o.(delivered := o.delivered + o.flight[i], flight := Without(o.flight, i))
    case Back(i) => o.(held := o.flight[i], flight := Without(o.flight, i), lost := o.lost + o.held)
    case Forgotten(i) => o.(lost := o.lost + o.flight[i], flight := Without(o.flight, i))
  }

  /** Delivered, on their way, in the map: in the order in which they come to be merged. */
  function Seen(o: Places): seq<nat> {
    o.delivered + Flatten(o.flight) + o.held
  }

  function Iota(n: nat): (s: seq<nat>)
    ensures |s| == n && forall i :: 0 <= i < n ==> s[i] == i
  {
    seq(n, i => i)
  }

  // -- Every record is in exactly one place

  ghost predicate OnceEach(o: Places) {
    multiset(Seen(o) + o.lost) == multiset(Iota(o.n))
  }

  lemma FlattenParts(ss: seq<seq<nat>>, a: seq<seq<nat>>, x: seq<nat>, b: seq<seq<nat>>)
    requires ss == a + [x] + b
    ensures Flatten(ss) == Flatten(a) + x + Flatten(b)
  {
    FlattenAround(a, x, b);
  }

  lemma Apart(ss: seq<seq<nat>>, i: nat)
    requires i < |ss|
    ensures ss == ss[..i] + [ss[i]] + ss[i + 1..]
  {
  }

  lemma FlattenAt(ss: seq<seq<nat>>, i: nat)
    requires i < |ss|
    ensures Flatten(ss) == Flatten(ss[..i]) + ss[i] + Flatten(ss[i + 1..])
  {
    Apart(ss, i);
    FlattenParts(ss, ss[..i], ss[i], ss[i + 1..]);
  }

  lemma FlattenWithout(ss: seq<seq<nat>>, i: nat)
    requires i < |ss|
    ensures Flatten(ss) == Flatten(ss[..i]) + ss[i] + Flatten(ss[i + 1..])
    ensures Flatten(Without(ss, i)) == Flatten(ss[..i]) + Flatten(ss[i + 1..])
  {
    FlattenAt(ss, i);
    FlattenConcat(ss[..i], ss[i + 1..]);
  }

  lemma IotaGrows(n: nat)
    ensures Iota(n + 1) == Iota(n) + [n]
  {
  }

  /** The same numbers, in whatever order. */
  predicate Same(a: seq<nat>, b: seq<nat>) {
    multiset(a) == multiset(b)
  }

  lemma OneMore(a: seq<nat>, b: seq<nat>, n: nat)
    requires Same(b, Iota(n)) && Same(a, b + [n])
    ensures Same(a, Iota(n + 1))
  {
    IotaGrows(n);
  }

  lemma JoinedSame(p: seq<nat>, n: nat, l: seq<nat>)
    ensures Same(p + [n] + l, p + l + [n])
  {
  }

  lemma EnteredSame(p: seq<nat>, h: seq<nat>, n: nat, l: seq<nat>)
    ensures Same(p + [n] + (l + h), p + h + l + [n])
  {
  }

  lemma JoinOnce(o: Places, c: Conn)
    requires OnceEach(o)
    ensures OnceEach(Placed(o, Joins(c)))
  {
    var before := o.delivered + Flatten(o.flight);
    JoinedSame(Seen(o), o.n, o.lost);
    assert before + (o.held + [o.n]) == Seen(o) + [o.n];
    OneMore(Seen(o) + [o.n] + o.lost, Seen(o) + o.lost, o.n);
  }

  lemma EnterOnce(o: Places, c: Conn)
    requires OnceEach(o)
    ensures OnceEach(Placed(o, Enters(c)))
  {
    var before := o.delivered + Flatten(o.flight);
    EnteredSame(before, o.held, o.n, o.lost);
    OneMore(before + [o.n] + (o.lost + o.held), Seen(o) + o.lost, o.n);
  }

  lemma RefuseOnce(o: Places, c: Conn)
    requires OnceEach(o)
    ensures OnceEach(Placed(o, Refused(c)))
  {
    assert Seen(o) + (o.lost + [o.n]) == Seen(o) + o.lost + [o.n];
    OneMore(Seen(o) + (o.lost + [o.n]), Seen(o) + o.lost, o.n);
  }

  lemma SentSame(p: seq<nat>, b: seq<nat>, c: seq<nat>, d: seq<nat>, h: seq<nat>, l: seq<nat>)
    ensures Same((p + c) + (b + d) + h + l, p + (b + c + d) + h + l)
  {
  }

  lemma BackSame(p: seq<nat>, b: seq<nat>, c: seq<nat>, d: seq<nat>, h: seq<nat>, l: seq<nat>)
    ensures Same(p + (b + d) + c + (l + h), p + (b + c + d) + h + l)
  {
  }

  lemma ForgottenSame(p: seq<nat>, b: seq<nat>, c: seq<nat>, d: seq<nat>, h: seq<nat>, l: seq<nat>)
    ensures Same(p + (b + d) + h + (l + c), p + (b + c + d) + h + l)
  {
  }

  lemma AnswerOnce(o: Places, m: Move)
    requires OnceEach(o) && Can(o, m) && (m.Sent? || m.Back? || m.Forgotten?)
    ensures OnceEach(Placed(o, m))
  {
    var b, c, d := Flatten(o.flight[..m.i]), o.flight[m.i], Flatten(o.flight[m.i + 1..]);
    FlattenWithout(o.flight, m.i);
    match m {
      case Sent(_) => SentSame(o.delivered, b, c, d, o.held, o.lost);
      case Back(_) => BackSame(o.delivered, b, c, d, o.held, o.lost);
      case Forgotten(_) => ForgottenSame(o.delivered, b, c, d, o.held, o.lost);
    }
  }

  lemma MoveOnce(o: Places, m: Move)
    requires OnceEach(o) && Can(o, m)
    ensures OnceEach(Placed(o, m))
  {
    match m {
      case Joins(c) => JoinOnce(o, c);
      case Enters(c) => EnterOnce(o, c);
      case Refused(c) => RefuseOnce(o, c);
      case Out =>
        FlattenSnoc(o.flight, o.held);
        assert Seen(Placed(o, m)) == Seen(o);
      case Passed =>
        FlattenSnoc(o.flight, []);
        assert Seen(Placed(o, m)) == Seen(o);
      case Stay =>
      case _ => AnswerOnce(o, m);
    }
  }

  lemma OnceMeans(o: Places, p: nat)
    requires OnceEach(o)
    ensures p in Seen(o) || p in o.lost <==> p < o.n
    ensures |Seen(o)| + |o.lost| == o.n
  {
    assert p in multiset(Seen(o) + o.lost) <==> p in Seen(o) + o.lost;
    assert p in multiset(Iota(o.n)) <==> p in Iota(o.n);
    assert p < o.n ==> Iota(o.n)[p] == p;
    assert |multiset(Seen(o) + o.lost)| == |Seen(o) + o.lost| && |multiset(Iota(o.n))| == o.n;
  }

  // -- When the order is kept

  predicate Increasing(s: seq<nat>) {
    forall i, j :: 0 <= i < j < |s| ==> s[i] < s[j]
  }

  predicate AllLess(a: seq<nat>, b: seq<nat>) {
    forall i, j :: 0 <= i < |a| && 0 <= j < |b| ==> a[i] < b[j]
  }

  lemma IncreasingJoins(a: seq<nat>, b: seq<nat>)
    ensures Increasing(a + b) <==> Increasing(a) && Increasing(b) && AllLess(a, b)
  {
    if Increasing(a + b) {
      assert forall i :: 0 <= i < |a| ==> (a + b)[i] == a[i];
      assert forall j :: 0 <= j < |b| ==> (a + b)[|a| + j] == b[j];
    }
  }

  lemma LessJoins(a: seq<nat>, b: seq<nat>, c: seq<nat>)
    ensures AllLess(a + b, c) <==> AllLess(a, c) && AllLess(b, c)
  {
    if AllLess(a + b, c) {
      assert forall i :: 0 <= i < |a| ==> (a + b)[i] == a[i];
      assert forall j :: 0 <= j < |b| ==> (a + b)[|a| + j] == b[j];
    }
  }

  /** Exchanging two neighbours of an increasing sequence spoils it, unless one is empty. */
  lemma ExchangeExactly(a: seq<nat>, b: seq<nat>, c: seq<nat>, d: seq<nat>)
    requires Increasing(a + b + c + d)
    ensures Increasing(a + c + b + d) <==> b == [] || c == []
  {
    IncreasingJoins(a + b + c, d);
    IncreasingJoins(a + b, c);
    IncreasingJoins(a, b);
    LessJoins(a + b, c, d);
    LessJoins(a, b, d);
    LessJoins(a, b, c);
    IncreasingJoins(a + c + b, d);
    IncreasingJoins(a + c, b);
    IncreasingJoins(a, c);
    LessJoins(a + c, b, d);
    LessJoins(a, c, d);
    LessJoins(a, c, b);
    if b != [] && c != [] {
      assert b[0] < c[0];
    }
  }

  lemma DropIncreases(a: seq<nat>, b: seq<nat>, c: seq<nat>)
    requires Increasing(a + b + c)
    ensures Increasing(a + c) && Increasing(a + b)
  {
    IncreasingJoins(a + b, c);
    IncreasingJoins(a, b);
    LessJoins(a, b, c);
    IncreasingJoins(a, c);
  }

  /** No list from the `lo`-th to the one before the `hi`-th has the key. */
  predicate AllEmpty(ss: seq<seq<nat>>, lo: nat, hi: nat)
    requires hi <= |ss|
  {
    forall j :: lo <= j < hi ==> ss[j] == []
  }

  /** A list is delivered while no older one has the key, or put back while no newer one has it. */
  predicate InOrder(o: Places, m: Move)
    requires Can(o, m)
  {
    match m
    case Sent(i) => o.flight[i] == [] || AllEmpty(o.flight, 0, i)
    case Back(i) => o.flight[i] == [] || AllEmpty(o.flight, i + 1, |o.flight|)
    case _ => true
  }

  lemma SentIncreases(p: seq<nat>, b: seq<nat>, c: seq<nat>, d: seq<nat>, h: seq<nat>)
    requires Increasing(p + (b + c + d) + h)
    ensures Increasing(p + c + (b + d) + h) <==> b == [] || c == []
  {
    assert p + (b + c + d) + h == p + b + c + (d + h);
    assert p + c + (b + d) + h == p + c + b + (d + h);
    ExchangeExactly(p, b, c, d + h);
  }

  lemma BackIncreases(p: seq<nat>, b: seq<nat>, c: seq<nat>, d: seq<nat>, h: seq<nat>)
    requires Increasing(p + (b + c + d) + h)
    ensures Increasing(p + (b + d) + c) <==> c == [] || d == []
  {
    assert p + (b + c + d) + h == p + b + c + d + h;
    DropIncreases(p + b + c, d, h);
    assert p + b + c + d == p + b + c + d + [];
    assert p + (b + d) + c == p + b + d + c + [];
    ExchangeExactly(p + b, c, d, []);
  }

  lemma ForgottenIncreases(p: seq<nat>, b: seq<nat>, c: seq<nat>, d: seq<nat>, h: seq<nat>)
    requires Increasing(p + (b + c + d) + h)
    ensures Increasing(p + (b + d) + h)
  {
    assert p + (b + c + d) + h == p + b + c + (d + h);
    assert p + (b + d) + h == p + b + (d + h);
    DropIncreases(p + b, c, d + h);
  }

  lemma {:induction false} FlattenEmpty(ss: seq<seq<nat>>)
    ensures Flatten(ss) == [] <==> AllEmpty(ss, 0, |ss|)
  {
    if ss != [] {
      var init := ss[..|ss| - 1];
      FlattenEmpty(init);
      if Flatten(ss) == [] {
        assert Flatten(init) == [];
        assert forall j :: 0 <= j < |init| ==> ss[j] == init[j] == [];
      }
    }
  }

  lemma EmptyBefore(ss: seq<seq<nat>>, i: nat)
    requires i < |ss|
    ensures Flatten(ss[..i]) == [] <==> AllEmpty(ss, 0, i)
  {
    FlattenEmpty(ss[..i]);
    assert forall j :: 0 <= j < i ==> ss[..i][j] == ss[j];
  }

  lemma EmptyAfter(ss: seq<seq<nat>>, i: nat)
    requires i < |ss|
    ensures Flatten(ss[i + 1..]) == [] <==> AllEmpty(ss, i + 1, |ss|)
  {
    var rest := ss[i + 1..];
    FlattenEmpty(rest);
    assert forall j :: i < j < |ss| ==> rest[j - i - 1] == ss[j];
  }

  lemma AnswerInOrderExactly(o: Places, m: Move)
    requires Increasing(Seen(o)) && Can(o, m) && (m.Sent? || m.Back? || m.Forgotten?)
    ensures Increasing(Seen(Placed(o, m))) <==> InOrder(o, m)
  {
    var b, c, d := Flatten(o.flight[..m.i]), o.flight[m.i], Flatten(o.flight[m.i + 1..]);
    FlattenWithout(o.flight, m.i);
    match m {
      case Sent(i) =>
        EmptyBefore(o.flight, i);
        SentIncreases(o.delivered, b, c, d, o.held);
      case Back(i) =>
        EmptyAfter(o.flight, i);
        BackIncreases(o.delivered, b, c, d, o.held);
      case Forgotten(_) => ForgottenIncreases(o.delivered, b, c, d, o.held);
    }
  }

  lemma NewestIsLast(s: seq<nat>, n: nat)
    requires Increasing(s) && forall i :: 0 <= i < |s| ==> s[i] < n
    ensures Increasing(s + [n])
  {
  }

  lemma SeenBelow(o: Places)
    requires OnceEach(o)
    ensures forall i :: 0 <= i < |Seen(o)| ==> Seen(o)[i] < o.n
  {
    forall i | 0 <= i < |Seen(o)|
      ensures Seen(o)[i] < o.n
    {
      OnceMeans(o, Seen(o)[i]);
    }
  }

  lemma RecordStaysInOrder(o: Places, m: Move)
    requires Increasing(Seen(o)) && OnceEach(o) && (m.Joins? || m.Enters? || m.Refused?)
    ensures Increasing(Seen(Placed(o, m)))
  {
    var before := o.delivered + Flatten(o.flight);
    SeenBelow(o);
    match m {
      case Joins(_) =>
        NewestIsLast(Seen(o), o.n);
        assert Seen(Placed(o, m)) == Seen(o) + [o.n];
      case Enters(_) =>
        DropIncreases(before, o.held, []);
        assert before + o.held + [] == Seen(o) && before + [] == before;
        assert forall i :: 0 <= i < |before| ==> before[i] == Seen(o)[i];
        NewestIsLast(before, o.n);
      case Refused(_) =>
    }
  }

  /** From any order of places in step with the records, every move keeps the order if and only if
      it is in order. */
  lemma InOrderExactly(o: Places, m: Move)
    requires Increasing(Seen(o)) && OnceEach(o) && Can(o, m)
    ensures Increasing(Seen(Placed(o, m))) <==> InOrder(o, m)
  {
    match m {
      case Joins(_) => RecordStaysInOrder(o, m);
      case Enters(_) => RecordStaysInOrder(o, m);
      case Refused(_) => RecordStaysInOrder(o, m);
      case Out =>
        FlattenSnoc(o.flight, o.held);
        assert Seen(Placed(o, m)) == Seen(o);
      case Passed =>
        FlattenSnoc(o.flight, []);
        assert Seen(Placed(o, m)) == Seen(o);
      case Stay =>
      case _ => AnswerInOrderExactly(o, m);
    }
  }

  // -- What is merged

  const NO_CONN: Conn := Conn(0, 0, 0, 0, 0, 0, 0, 0, 0)

  /** The records with these numbers, in this order. */
  function Pick(rec: seq<Conn>, ps: seq<nat>): (cs: seq<Conn>)
    ensures |cs| == |ps| && forall i :: 0 <= i < |ps| ==> cs[i] == if ps[i] < |rec| then rec[ps[i]] else NO_CONN
  {
    seq(|ps|, i requires 0 <= i < |ps| => if ps[i] < |rec| then rec[ps[i]] else NO_CONN)
  }

  /** An entry that stands for these records, if any. */
  function Block(rec: seq<Conn>, ps: seq<nat>): seq<Conn> {
    if ps == [] then [] else [MergeAll(Pick(rec, ps))]
  }

  predicate SameMerge(a: seq<Conn>, b: seq<Conn>) {
    (a == [] <==> b == []) && (a != [] ==> MergeAll(a) == MergeAll(b))
  }

  lemma {:induction false} MergeSplits(a: seq<Conn>, b: seq<Conn>)
    requires a != [] && b != []
    ensures MergeAll(a + b) == Merge(MergeAll(a), MergeAll(b))
    decreases |b|
  {
    var init, last := b[..|b| - 1], b[|b| - 1];
    assert a + b == (a + init) + [last] && b == init + [last];
    MergeSnoc(a + init, last);
    MergeSnoc(init, last);
    if init == [] {
      assert a + init == a;
    } else {
      MergeSplits(a, init);
      MergeAssociates(MergeAll(a), MergeAll(init), last);
    }
  }

  lemma PickJoins(rec: seq<Conn>, a: seq<nat>, b: seq<nat>)
    ensures Pick(rec, a + b) == Pick(rec, a) + Pick(rec, b)
  {
  }

  lemma PickStays(rec: seq<Conn>, c: Conn, ps: seq<nat>)
    requires forall i :: 0 <= i < |ps| ==> ps[i] < |rec|
    ensures Pick(rec + [c], ps) == Pick(rec, ps)
  {
  }

  /** Appending an entry is appending its records. */
  lemma AppendBlock(cs: seq<Conn>, rec: seq<Conn>, a: seq<nat>, b: seq<nat>)
    requires SameMerge(cs, Pick(rec, a))
    ensures SameMerge(cs + Block(rec, b), Pick(rec, a + b))
  {
    PickJoins(rec, a, b);
    if b == [] {
      assert cs + [] == cs && a + b == a;
    } else {
      MergeSnoc(cs, MergeAll(Pick(rec, b)));
      if a == [] {
        assert a + b == b && Pick(rec, a) == [];
      } else {
        MergeSplits(Pick(rec, a), Pick(rec, b));
      }
    }
  }

  ghost predicate Blocks(rec: seq<Conn>, bs: seq<seq<Conn>>, ps: seq<seq<nat>>) {
    |bs| == |ps| && forall j :: 0 <= j < |bs| ==> bs[j] == Block(rec, ps[j])
  }

  /** Each entry of a key is the merge of its records, and what was delivered merges as they do. */
  ghost predicate Matches(v: View, o: Places) {
    && |v.recorded| == o.n && v.held == Block(v.recorded, o.held)
    && Blocks(v.recorded, v.flight, o.flight)
    && SameMerge(v.delivered, Pick(v.recorded, o.delivered))
    && (v.lost == [] <==> o.lost == [])
  }

  predicate Below(ps: seq<nat>, n: nat) {
    forall i :: 0 <= i < |ps| ==> ps[i] < n
  }

  lemma PlacesBelow(o: Places)
    requires OnceEach(o)
    ensures Below(o.delivered, o.n) && Below(o.held, o.n)
    ensures forall j :: 0 <= j < |o.flight| ==> Below(o.flight[j], o.n)
  {
    SeenBelow(o);
    forall i | 0 <= i < |o.delivered|
      ensures o.delivered[i] < o.n
    {
      assert Seen(o)[i] == o.delivered[i];
    }
    forall i | 0 <= i < |o.held|
      ensures o.held[i] < o.n
    {
      assert Seen(o)[|o.delivered| + |Flatten(o.flight)| + i] == o.held[i];
    }
    forall j, i | 0 <= j < |o.flight| && 0 <= i < |o.flight[j]|
      ensures o.flight[j][i] < o.n
    {
      FlattenHolds(o.flight, o.flight[j][i]);
      OnceMeans(o, o.flight[j][i]);
    }
  }

  /** One record more leaves the entries of the others as they are. */
  lemma RecordKeepsBlocks(v: View, o: Places, c: Conn)
    requires Matches(v, o) && OnceEach(o)
    ensures Matches(v.(recorded := v.recorded + [c]), o.(n := o.n + 1))
  {
    PlacesBelow(o);
    PickStays(v.recorded, c, o.delivered);
    PickStays(v.recorded, c, o.held);
    forall j | 0 <= j < |v.flight|
      ensures v.flight[j] == Block(v.recorded + [c], o.flight[j])
    {
      PickStays(v.recorded, c, o.flight[j]);
    }
  }

  lemma NewBlock(rec: seq<Conn>, c: Conn)
    ensures Block(rec + [c], [|rec|]) == [c]
  {
    assert Pick(rec + [c], [|rec|]) == [c];
  }

  lemma JoinedBlock(rec: seq<Conn>, c: Conn, ps: seq<nat>)
    requires ps != [] && Block(rec + [c], ps) == Block(rec, ps)
    ensures Block(rec + [c], ps + [|rec|]) == [Merge(Block(rec, ps)[0], c)]
  {
    PickJoins(rec + [c], ps, [|rec|]);
    assert Pick(rec + [c], [|rec|]) == [c];
    MergeSnoc(Pick(rec + [c], ps), c);
  }

  lemma RecordMatches(v: View, o: Places, m: Move)
    requires Matches(v, o) && OnceEach(o) && Fits(v, m) && (m.Joins? || m.Enters? || m.Refused?)
    ensures Matches(Moved(v, m), Placed(o, m))
  {
    RecordKeepsBlocks(v, o, m.c);
    if m.Joins? {
      JoinedBlock(v.recorded, m.c, o.held);
    } else {
      NewBlock(v.recorded, m.c);
    }
  }

  lemma BlocksWithout(rec: seq<Conn>, bs: seq<seq<Conn>>, ps: seq<seq<nat>>, i: nat)
    requires Blocks(rec, bs, ps) && i < |bs|
    ensures Blocks(rec, Without(bs, i), Without(ps, i))
  {
    forall j | 0 <= j < |bs| - 1
      ensures Without(bs, i)[j] == Block(rec, Without(ps, i)[j])
    {
      assert Without(bs, i)[j] == bs[if j < i then j else j + 1];
      assert Without(ps, i)[j] == ps[if j < i then j else j + 1];
    }
  }

  lemma MoveMatches(v: View, o: Places, m: Move)
    requires Matches(v, o) && OnceEach(o) && Fits(v, m)
    ensures Can(o, m) && Matches(Moved(v, m), Placed(o, m))
  {
    match m {
      case Joins(_) => RecordMatches(v, o, m);
      case Enters(_) => RecordMatches(v, o, m);
      case Refused(_) => RecordMatches(v, o, m);
      case Sent(i) =>
        BlocksWithout(v.recorded, v.flight, o.flight, i);
        AppendBlock(v.delivered, v.recorded, o.delivered, o.flight[i]);
      case Back(i) => BlocksWithout(v.recorded, v.flight, o.flight, i);
      case Forgotten(i) => BlocksWithout(v.recorded, v.flight, o.flight, i);
      case Out =>
      case Passed =>
      case Stay =>
    }
  }

  /** What the controller has, what is on its way, and what the map holds of a key. */
  function SeenOf(v: View): seq<Conn> {
    v.delivered + Flatten(v.flight) + v.held
  }

  lemma {:induction false} FlightsMerge(cs: seq<Conn>, rec: seq<Conn>, a: seq<nat>, bs: seq<seq<Conn>>, ps: seq<seq<nat>>)
    requires SameMerge(cs, Pick(rec, a)) && Blocks(rec, bs, ps)
    ensures SameMerge(cs + Flatten(bs), Pick(rec, a + Flatten(ps)))
    decreases |bs|
  {
    if bs == [] {
      assert cs + Flatten(bs) == cs && a + Flatten(ps) == a;
    } else {
      var b, p, x, q := bs[..|bs| - 1], ps[..|ps| - 1], bs[|bs| - 1], ps[|ps| - 1];
      FlightsMerge(cs, rec, a, b, p);
      AppendBlock(cs + Flatten(b), rec, a + Flatten(p), q);
      Reassociate(cs, Flatten(b), x);
      Reassociate(a, Flatten(p), q);
    }
  }

  lemma SeenMerges(v: View, o: Places)
    requires Matches(v, o)
    ensures SameMerge(SeenOf(v), Pick(v.recorded, Seen(o)))
  {
    FlightsMerge(v.delivered, v.recorded, o.delivered, v.flight, o.flight);
    AppendBlock(v.delivered + Flatten(v.flight), v.recorded, o.delivered + Flatten(o.flight), o.held);
  }

  // -- Every run

  /** Where the records of a key are after a run. */
  ghost function PlacesOf(s: State, es: seq<Event>, o: Places, k: Key): Places
    decreases |es|
  {
    if es == [] || !Enabled(s, es[0]) || !Can(o, MoveOf(s, es[0], k)) then o
    else PlacesOf(Step(s, es[0]), es[1..], Placed(o, MoveOf(s, es[0], k)), k)
  }

  lemma {:induction false} RunMatches(s: State, es: seq<Event>, s': State, o: Places, k: Key)
    requires Matches(ViewOf(s, k), o) && OnceEach(o) && IsRun(s, es, s')
    ensures Matches(ViewOf(s', k), PlacesOf(s, es, o, k)) && OnceEach(PlacesOf(s, es, o, k))
    decreases |es|
  {
    if es != [] {
      var m := MoveOf(s, es[0], k);
      StepIsMove(s, es[0], k);
      MoveMatches(ViewOf(s, k), o, m);
      MoveOnce(o, m);
      RunMatches(Step(s, es[0]), es[1..], s', Placed(o, m), k);
    }
  }

  lemma StartMatches(k: Key)
    ensures Matches(ViewOf(Init(), k), NOWHERE) && OnceEach(NOWHERE)
  {
  }

  /** In every run, key by key: each record is delivered, in one list, in the map or lost, exactly
      once; and what was not lost merges to the merge of its records in the order of their places. */
  lemma EveryRunMerges(es: seq<Event>, s: State, k: Key)
    requires IsRun(Init(), es, s)
    ensures var o := PlacesOf(Init(), es, NOWHERE, k);
            && OnceEach(o) && o.n == |s.recorded(k)| && (s.lost(k) == [] <==> o.lost == [])
            && SameMerge(SeenOf(ViewOf(s, k)), Pick(s.recorded(k), Seen(o)))
  {
    StartMatches(k);
    RunMatches(Init(), es, s, NOWHERE, k);
    SeenMerges(ViewOf(s, k), PlacesOf(Init(), es, NOWHERE, k));
  }

  // -- The order in which lists are answered

  /** What a caller can see: no older list in flight has the key when one that has it is delivered,
      and no newer one when it is put back. */
  predicate InOrderAt(s: State, e: Event, k: Key)
    requires Enabled(s, e)
  {
    match e
    case Delivered(i) => k in s.flights[i] ==> forall j :: 0 <= j < i ==> k !in s.flights[j]
    case Resend(i, kept) => k in kept ==> forall j :: i < j < |s.flights| ==> k !in s.flights[j]
    case _ => true
  }

  lemma EmptyIsAbsent(s: State, o: Places, k: Key, j: nat)
    requires Matches(ViewOf(s, k), o) && j < |s.flights|
    ensures j < |o.flight| && (o.flight[j] == [] <==> k !in s.flights[j])
  {
    assert ViewOf(s, k).flight[j] == Held(s.flights[j], k);
  }

  lemma DeliveredIsVisible(s: State, i: nat, o: Places, k: Key)
    requires Matches(ViewOf(s, k), o) && i < |s.flights| && |o.flight| == |s.flights|
    ensures InOrder(o, Sent(i)) <==> InOrderAt(s, Delivered(i), k)
  {
    EmptyIsAbsent(s, o, k, i);
    forall j | 0 <= j < i
      ensures o.flight[j] == [] <==> k !in s.flights[j]
    {
      EmptyIsAbsent(s, o, k, j);
    }
  }

  lemma ResendIsVisible(s: State, i: nat, kept: set<Key>, o: Places, k: Key)
    requires Matches(ViewOf(s, k), o) && Enabled(s, Resend(i, kept)) && k in kept && |o.flight| == |s.flights|
    ensures InOrder(o, Back(i)) <==> InOrderAt(s, Resend(i, kept), k)
  {
    EmptyIsAbsent(s, o, k, i);
    forall j | i < j < |s.flights|
      ensures o.flight[j] == [] <==> k !in s.flights[j]
    {
      EmptyIsAbsent(s, o, k, j);
    }
  }

  lemma InOrderIsVisible(s: State, e: Event, o: Places, k: Key)
    requires Matches(ViewOf(s, k), o) && Enabled(s, e) && Can(o, MoveOf(s, e, k))
    ensures InOrder(o, MoveOf(s, e, k)) <==> InOrderAt(s, e, k)
  {
    assert |o.flight| == |s.flights|;
    match e {
      case Delivered(i) => DeliveredIsVisible(s, i, o, k);
      case Resend(i, kept) =>
        if k in kept {
          ResendIsVisible(s, i, kept, o, k);
        }
      case _ =>
    }
  }

  ghost predicate AllInOrder(s: State, es: seq<Event>, k: Key)
    decreases |es|
  {
    es != [] ==> Enabled(s, es[0]) && InOrderAt(s, es[0], k) && AllInOrder(Step(s, es[0]), es[1..], k)
  }

  /** All along a run the records of a key are placed in the order in which they were recorded. */
  ghost predicate AlwaysOrdered(s: State, es: seq<Event>, o: Places, k: Key)
    decreases |es|
  {
    && Increasing(Seen(o))
    && (es != [] && Enabled(s, es[0]) && Can(o, MoveOf(s, es[0], k)) ==>
          AlwaysOrdered(Step(s, es[0]), es[1..], Placed(o, MoveOf(s, es[0], k)), k))
  }

  lemma {:induction false} RunOrderedExactly(s: State, es: seq<Event>, s': State, o: Places, k: Key)
    requires Matches(ViewOf(s, k), o) && OnceEach(o) && Increasing(Seen(o)) && IsRun(s, es, s')
    ensures AlwaysOrdered(s, es, o, k) <==> AllInOrder(s, es, k)
    ensures AlwaysOrdered(s, es, o, k) ==> Increasing(Seen(PlacesOf(s, es, o, k)))
    decreases |es|
  {
    if es != [] {
      var m := MoveOf(s, es[0], k);
      StepIsMove(s, es[0], k);
      MoveMatches(ViewOf(s, k), o, m);
      MoveOnce(o, m);
      InOrderExactly(o, m);
      InOrderIsVisible(s, es[0], o, k);
      if InOrder(o, m) {
        RunOrderedExactly(Step(s, es[0]), es[1..], s', Placed(o, m), k);
      }
    }
  }

  /** In every run a key's records stay in their order if and only if its lists are answered in
      order. */
  lemma OrderedExactly(es: seq<Event>, s: State, k: Key)
    requires IsRun(Init(), es, s)
    ensures AlwaysOrdered(Init(), es, NOWHERE, k) <==> AllInOrder(Init(), es, k)
  {
    StartMatches(k);
    RunOrderedExactly(Init(), es, s, NOWHERE, k);
  }

  /** An increasing sequence of the numbers below its length is all of them. */
  lemma {:induction false} IncreasingIsIota(s: seq<nat>, i: nat)
    requires Increasing(s) && Below(s, |s|) && i < |s|
    ensures s[i] == i
    decreases |s|
  {
    var last := |s| - 1;
    var init := s[..last];
    forall j | 0 <= j < last
      ensures init[j] < last
    {
      assert s[j] < s[last];
    }
    if i < last {
      IncreasingIsIota(init, i);
    } else if last > 0 {
      IncreasingIsIota(init, last - 1);
    }
  }

  lemma PickAll(rec: seq<Conn>)
    ensures Pick(rec, Iota(|rec|)) == rec
  {
  }

  lemma OrderedIsIota(o: Places)
    requires OnceEach(o) && o.lost == [] && Increasing(Seen(o))
    ensures Seen(o) == Iota(o.n)
  {
    OnceMeans(o, 0);
    SeenBelow(o);
    forall i | 0 <= i < o.n
      ensures Seen(o)[i] == i
    {
      IncreasingIsIota(Seen(o), i);
    }
  }

  /** A key that lost nothing and whose lists were answered in order has, over all places, the
      merge of all its records. */
  lemma InOrderRunsMerge(es: seq<Event>, s: State, k: Key)
    requires IsRun(Init(), es, s) && AllInOrder(Init(), es, k) && s.lost(k) == []
    ensures SameMerge(SeenOf(ViewOf(s, k)), s.recorded(k))
  {
    var o := PlacesOf(Init(), es, NOWHERE, k);
    StartMatches(k);
    RunOrderedExactly(Init(), es, s, NOWHERE, k);
    EveryRunMerges(es, s, k);
    OrderedIsIota(o);
    PickAll(s.recorded(k));
  }

  // -- The merge tells any other order apart

  /** Two records seen last, at the same time, with policies to tell them by. */
  function Contest(n: nat, i: nat, j: nat): (rec: seq<Conn>)
    ensures |rec| == n
  {
    seq(n, p => NO_CONN.(lastSeen := if p == i || p == j then 1 else 0, policyId := if p == j then 1 else 0))
  }

  /** The last of the records seen last decides the policy. */
  lemma {:induction false} LatestDecides(cs: seq<Conn>, i: nat)
    requires i < |cs| && cs[i].lastSeen == 1
    requires forall j :: 0 <= j < |cs| ==> cs[j].lastSeen <= 1
    requires forall j :: i < j < |cs| ==> cs[j].lastSeen == 0
    ensures MergeAll(cs).lastSeen == 1 && MergeAll(cs).policyId == cs[i].policyId
    decreases |cs|
  {
    var init, last := cs[..|cs| - 1], cs[|cs| - 1];
    assert cs == init + [last];
    MergeSnoc(init, last);
    if i < |cs| - 1 {
      LatestDecides(init, i);
    } else if init != [] {
      NoneLater(init);
    }
  }

  lemma {:induction false} NoneLater(cs: seq<Conn>)
    requires cs != [] && forall j :: 0 <= j < |cs| ==> cs[j].lastSeen <= 1
    ensures MergeAll(cs).lastSeen <= 1
    decreases |cs|
  {
    var init, last := cs[..|cs| - 1], cs[|cs| - 1];
    assert cs == init + [last];
    MergeSnoc(init, last);
    if init != [] {
      NoneLater(init);
    }
  }

  /** If a later record comes before an earlier one, some contents show it. */
  lemma InversionShows(s: seq<nat>, a: nat, b: nat)
    requires a < b < |s| && s[b] < s[a] && Below(s, |s|)
    requires forall i, j :: 0 <= i < j < |s| ==> s[i] != s[j]
    ensures !SameMerge(Pick(Contest(|s|, s[b], s[a]), s), Contest(|s|, s[b], s[a]))
  {
    var rec := Contest(|s|, s[b], s[a]);
    var cs := Pick(rec, s);
    assert forall j :: b < j < |s| ==> s[j] != s[b] && s[j] != s[a];
    LatestDecides(cs, b);
    LatestDecides(rec, s[a]);
  }

  /** Whatever the records are, seen in this order they merge to what they merge to as recorded. */
  ghost predicate MergesAlike(s: seq<nat>) {
    forall rec: seq<Conn> | |rec| == |s| :: SameMerge(Pick(rec, s), rec)
  }

  /** Of all the orders in which the records of a key can be seen, the merge of records agrees for
      every content with the order recorded only in that very order. */
  lemma MergesAlikeExactly(s: seq<nat>)
    requires Below(s, |s|) && forall i, j :: 0 <= i < j < |s| ==> s[i] != s[j]
    ensures MergesAlike(s) <==> s == Iota(|s|)
  {
    if s == Iota(|s|) {
      forall rec: seq<Conn> | |rec| == |s|
        ensures SameMerge(Pick(rec, s), rec)
      {
        PickAll(rec);
      }
    } else {
      if Increasing(s) {
        forall i | 0 <= i < |s|
          ensures s[i] == i
        {
          IncreasingIsIota(s, i);
        }
      } else {
        var a, b :| 0 <= a < b < |s| && s[a] >= s[b];
        InversionShows(s, a, b);
        assert |Contest(|s|, s[b], s[a])| == |s|;
      }
    }
  }

  lemma RunHead(s: State, e: Event, rest: seq<Event>, s': State)
    requires Enabled(s, e) && IsRun(Step(s, e), rest, s')
    ensures IsRun(s, [e] + rest, s')
  {
    assert ([e] + rest)[1..] == rest;
  }

  /** Recording, and then taking what was recorded. */
  ghost predicate Adds(s: State, u: Update, s': State) {
    var s1 := Step(s, Record(u));
    Enabled(s1, Take({u.key})) && s' == Step(s1, Take({u.key}))
  }

  lemma AddsRuns(s: State, u: Update, m: State, rest: seq<Event>, s': State)
    requires Adds(s, u, m) && IsRun(m, rest, s')
    ensures IsRun(s, [Record(u)] + ([Take({u.key})] + rest), s')
  {
    RunHead(Step(s, Record(u)), Take({u.key}), rest, s');
    RunHead(s, Record(u), [Take({u.key})] + rest, s');
  }

  lemma RecordedAndTaken(s: State, u: Update) returns (s': State)
    requires s.conns == map[] && !u.host
    ensures Adds(s, u, s') && s'.conns == map[] && s'.flights == s.flights + [map[u.key := NewEntry(u)]]
    ensures s'.recorded(u.key) == s.recorded(u.key) + [u.conn] && s'.lost(u.key) == s.lost(u.key)
    ensures s'.delivered == s.delivered
  {
    var s1 := Step(s, Record(u));
    assert s1.conns == map[u.key := NewEntry(u)] && s1.conns.Keys == {u.key};
    assert Held(LostBy(s, Record(u)), u.key) == [];
    s' := Step(s1, Take({u.key}));
    assert Part(s1.conns, {u.key}) == map[u.key := NewEntry(u)];
  }

  /** Of two lists the second is answered first. */
  lemma AnsweredCrosswise(s: State) returns (s': State)
    requires |s.flights| == 2
    ensures IsRun(s, [Delivered(1)] + ([Delivered(0)] + []), s')
    ensures s'.conns == s.conns && s'.flights == [] && s'.recorded == s.recorded && s'.lost == s.lost
    ensures forall k :: s'.delivered(k) == s.delivered(k) + Held(s.flights[1], k) + Held(s.flights[0], k)
  {
    var s1 := Step(s, Delivered(1));
    assert s1.flights == [s.flights[0]];
    s' := Step(s1, Delivered(0));
    RunHead(s1, Delivered(0), [], s');
    RunHead(s, Delivered(1), [Delivered(0)] + [], s');
  }

  lemma OrderTells(c1: Conn, c2: Conn)
    requires c1.firstSeen != c2.firstSeen
    ensures !SameMerge([c2] + [c1], [c1] + [c2])
  {
    MergeSnoc([c2], c1);
    MergeSnoc([c1], c2);
  }

  lemma CrossedLists(k: Key, c1: Conn, c2: Conn) returns (s1: State, s2: State, s: State)
    ensures Adds(Init(), Update(k, c1, false, false, false), s1) && Adds(s1, Update(k, c2, false, false, false), s2)
    ensures IsRun(s2, [Delivered(1)] + ([Delivered(0)] + []), s)
    ensures s.conns == map[] && s.flights == [] && s.lost(k) == []
    ensures s.recorded(k) == [c1] + [c2] && s.delivered(k) == [c2] + [c1]
  {
    s1 := RecordedAndTaken(Init(), Update(k, c1, false, false, false));
    s2 := RecordedAndTaken(s1, Update(k, c2, false, false, false));
    s := AnsweredCrosswise(s2);
    assert Held(s2.flights[0], k) == [c1] && Held(s2.flights[1], k) == [c2];
  }

  lemma NothingElse(s: State, k: Key)
    requires s.conns == map[] && s.flights == []
    ensures SeenOf(ViewOf(s, k)) == s.delivered(k)
  {
  }

  /** For one: a connection is recorded and taken, recorded again with another time of first sight
      and taken again, and the second list is answered first. */
  lemma CrossedAnswers(k: Key, c1: Conn, c2: Conn) returns (es: seq<Event>, s: State)
    requires c1.firstSeen != c2.firstSeen
    ensures IsRun(Init(), es, s) && s.lost(k) == [] && s.flights == [] && s.conns == map[]
    ensures !SameMerge(SeenOf(ViewOf(s, k)), s.recorded(k))
  {
    var u1, u2 := Update(k, c1, false, false, false), Update(k, c2, false, false, false);
    var s1, s2;
    s1, s2, s := CrossedLists(k, c1, c2);
    es := [Delivered(1)] + ([Delivered(0)] + []);
    AddsRuns(s1, u2, s2, es, s);
    es := [Record(u2)] + ([Take({k})] + es);
    AddsRuns(Init(), u1, s1, es, s);
    es := [Record(u1)] + ([Take({k})] + es);
    OrderTells(c1, c2);
    NothingElse(s, k);
  }
}
