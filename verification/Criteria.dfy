/** Group selection by criteria (share/criteria.go). */
module Criteria {

  datatype Criterion = Criterion(key: string, op: string, value: string)

  datatype Workload = Workload(image: string, host: string, name: string, service: string, domain: string,
                               labels: map<string, string>)

  /** The matching itself (equality with wildcards, containment, prefix, regular
      expression) is a parameter; whether a criterion is positive depends on its operator. */
  type Matcher = (Criterion, string) -> bool

  predicate Positive(op: string) {
    op != "!=" && op != "!regex"
  }

  datatype Verdict = Verdict(ret: bool, positive: bool)

  /** One evaluated criterion and the bucket it is counted in. */
  datatype Item = Item(bucket: string, v: Verdict)

  function IsCriterionMet(met: Matcher, c: Criterion, value: string): Verdict {
    Verdict(met(c, value), Positive(c.op))
  }

  function Evaluate(met: Matcher, wl: Workload, c: Criterion): Item {
    if c.key == "image" then Item(c.key, IsCriterionMet(met, c, wl.image))
    else if c.key == "node" then Item(c.key, IsCriterionMet(met, c, wl.host))
    else if c.key == "container" then Item(c.key, IsCriterionMet(met, c, wl.name))
    else if c.key == "service" then Item(c.key, IsCriterionMet(met, c, wl.service))
    else if c.key == "domain" || c.key == "namespace" then Item(c.key, IsCriterionMet(met, c, wl.domain))
    else Item("label", if c.key in wl.labels then IsCriterionMet(met, c, wl.labels[c.key]) else Verdict(false, true))
  }

  // -- The accumulating rule, and what it computes

  /** How the loop folds a further criterion into its bucket. */
  function Combine(acc: Verdict, v: Verdict): Verdict {
    Verdict(if !v.positive && !acc.positive then acc.ret && v.ret else acc.ret || v.ret, acc.positive || v.positive)
  }

  function Accumulate(vs: seq<Verdict>): Verdict
    requires vs != []
  {
    if |vs| == 1 then vs[0] else Combine(Accumulate(vs[..|vs| - 1]), vs[|vs| - 1])
  }

  predicate AnyPositive(vs: seq<Verdict>) {
    exists i :: 0 <= i < |vs| && vs[i].positive
  }

  predicate AnyMet(vs: seq<Verdict>) {
    exists i :: 0 <= i < |vs| && vs[i].ret
  }

  predicate AllMet(vs: seq<Verdict>) {
    forall i :: 0 <= i < |vs| ==> vs[i].ret
  }

  /** How many negative criteria precede the first positive one. */
  function Leading(vs: seq<Verdict>): (n: nat)
    ensures n <= |vs|
    ensures forall i :: 0 <= i < n ==> !vs[i].positive
    ensures n < |vs| ==> vs[n].positive
  {
    if vs == [] || vs[0].positive then 0 else 1 + Leading(vs[1..])
  }

  /** Closed form: the conjunction of the leading negatives, or anything met from the first
      positive on; the conjunction of all when none is positive. */
  predicate Closed(vs: seq<Verdict>) {
    var n := Leading(vs);
    if n == |vs| then AllMet(vs) else (n > 0 && AllMet(vs[..n])) || AnyMet(vs[n..])
  }

  lemma LeadingOfPrefix(vs: seq<Verdict>, k: nat)
    requires k < |vs|
    ensures Leading(vs[..k]) == if Leading(vs) <= k then Leading(vs) else k
  {
    var a, b := Leading(vs), Leading(vs[..k]);
    if b < k {
      assert vs[..k][b].positive;
    }
    if a < b {
      assert !vs[..k][a].positive;
    }
  }

  lemma TailSplits(vs: seq<Verdict>, n: nat, k: nat)
    requires n <= k && k + 1 == |vs|
    ensures vs[n..] == vs[n..k] + [vs[k]]
  {
  }

  lemma {:induction false} AccumulateIsClosed(vs: seq<Verdict>)
    requires vs != []
    ensures Accumulate(vs).ret == Closed(vs)
    ensures Accumulate(vs).positive == (Leading(vs) < |vs|)
    decreases |vs|
  {
    var k := |vs| - 1;
    if k > 0 {
      var init := vs[..k];
      AccumulateIsClosed(init);
      LeadingOfPrefix(vs, k);
      var n := Leading(vs);
      if n == |vs| {
        assert AllMet(vs) <==> AllMet(init) && vs[k].ret;
      } else if n == k {
        assert vs[..n] == init;
        assert AnyMet(vs[n..]) <==> vs[k].ret by {
          if vs[k].ret { assert vs[n..][0].ret; }
        }
      } else {
        assert init[..n] == vs[..n];
        AnyMetConcat(vs[n..k], [vs[k]]);
        assert AnyMet([vs[k]]) <==> vs[k].ret by {
          if vs[k].ret { assert [vs[k]][0].ret; }
        }
        assert init[n..] == vs[n..k];
        TailSplits(vs, n, k);
      }
    }
  }

  lemma AnyMetConcat(a: seq<Verdict>, b: seq<Verdict>)
    ensures AnyMet(a + b) <==> AnyMet(a) || AnyMet(b)
  {
    if AnyMet(a) {
      var i :| 0 <= i < |a| && a[i].ret;
      assert (a + b)[i].ret;
    }
    if AnyMet(b) {
      var i :| 0 <= i < |b| && b[i].ret;
      assert (a + b)[|a| + i].ret;
    }
  }

  // -- Selection over all buckets

  function Column(items: seq<Item>, bucket: string): seq<Verdict> {
    if items == [] then []
    else
      var x := items[|items| - 1];
      Column(items[..|items| - 1], bucket) + if x.bucket == bucket then [x.v] else []
  }

  /** Selected: there is a criterion, and every bucket's closed form holds. */
  predicate Selected(items: seq<Item>) {
    items != [] && forall x :: x in items ==> Closed(Column(items, x.bucket))
  }

  lemma ColumnGrows(items: seq<Item>, x: Item, bucket: string)
    ensures Column(items + [x], bucket) == Column(items, bucket) + if x.bucket == bucket then [x.v] else []
  {
    assert (items + [x])[..|items|] == items;
  }

  lemma {:induction false} ColumnPresent(items: seq<Item>, bucket: string)
    ensures Column(items, bucket) != [] <==> exists x :: x in items && x.bucket == bucket
  {
    if items != [] {
      var init, last := items[..|items| - 1], items[|items| - 1];
      ColumnPresent(init, bucket);
      assert forall y :: y in items <==> y in init || y == last;
      assert last in items;
    }
  }

  ghost predicate FoldedAt(items: seq<Item>, rets: map<string, bool>, poss: map<string, bool>, b: string) {
    && (b in rets <==> Column(items, b) != []) && (b in poss <==> b in rets)
    && (b in rets ==> Accumulate(Column(items, b)) == Verdict(rets[b], poss[b]))
  }

  /** The two maps hold the accumulated verdict of every bucket seen so far. */
  ghost predicate Folded(items: seq<Item>, rets: map<string, bool>, poss: map<string, bool>) {
    forall b :: FoldedAt(items, rets, poss, b)
  }

  lemma FoldedGrows(items: seq<Item>, rets: map<string, bool>, poss: map<string, bool>, x: Item, b: string)
    requires FoldedAt(items, rets, poss, b) && FoldedAt(items, rets, poss, x.bucket)
    ensures var acc := if x.bucket in rets then Combine(Verdict(rets[x.bucket], poss[x.bucket]), x.v) else x.v;
            FoldedAt(items + [x], rets[x.bucket := acc.ret], poss[x.bucket := acc.positive], b)
  {
    ColumnGrows(items, x, b);
    if b == x.bucket {
      var col := Column(items, b);
      assert (col + [x.v])[..|col|] == col;
      if col == [] {
        assert col + [x.v] == [x.v];
      } else {
        assert Accumulate(col + [x.v]) == Combine(Accumulate(col), x.v);
      }
    } else {
      assert Column(items + [x], b) == Column(items, b);
    }
  }

  lemma FoldedDecides(items: seq<Item>, rets: map<string, bool>, poss: map<string, bool>)
    requires Folded(items, rets, poss)
    ensures Selected(items) <==> rets != map[] && forall b :: b in rets ==> rets[b]
  {
    forall b | b in rets
      ensures rets[b] == Closed(Column(items, b)) && exists x :: x in items && x.bucket == b
    {
      assert FoldedAt(items, rets, poss, b);
      ColumnPresent(items, b);
      AccumulateIsClosed(Column(items, b));
    }
    forall x | x in items
      ensures x.bucket in rets
    {
      assert FoldedAt(items, rets, poss, x.bucket);
      ColumnPresent(items, x.bucket);
    }
    if items != [] {
      assert items[0] in items;
    }
  }

  /** One turn of the loop: the new verdict is folded into its bucket. */
  method FoldIn(rets: map<string, bool>, poss: map<string, bool>, x: Item, ghost items: seq<Item>)
    returns (rets': map<string, bool>, poss': map<string, bool>)
    requires Folded(items, rets, poss)
    ensures Folded(items + [x], rets', poss')
  {
    assert FoldedAt(items, rets, poss, x.bucket);
    if x.bucket !in rets {
      rets', poss' := rets[x.bucket := x.v.ret], poss[x.bucket := x.v.positive];
    } else {
      var v, p := rets[x.bucket], poss[x.bucket];
      if !x.v.positive && !p {
        rets' := rets[x.bucket := v && x.v.ret];
      } else {
        rets' := rets[x.bucket := v || x.v.ret];
      }
      poss' := poss[x.bucket := p || x.v.positive];
    }
    forall b
      ensures FoldedAt(items + [x], rets', poss', b)
    {
      assert FoldedAt(items, rets, poss, b);
      FoldedGrows(items, rets, poss, x, b);
    }
  }

  /** The loop over a selector.  `CriteriaKeyAddress` ends it with false at once; the final
      scan of `rets` visits the buckets in whatever order the map yields. */
  method IsWorkloadSelected(met: Matcher, wl: Workload, selector: seq<Criterion>) returns (ok: bool)
    ensures ok <==> SelectsWorkload(met, wl, selector)
  {
    var rets: map<string, bool>, poss: map<string, bool> := map[], map[];
    ghost var items := [];
    for i := 0 to |selector|
      invariant forall j :: 0 <= j < i ==> selector[j].key != "address"
      invariant items == Evaluated(met, wl, selector[..i])
      invariant Folded(items, rets, poss)
    {
      var crt := selector[i];
      if crt.key == "address" {
        return false;
      }
      var x := Evaluate(met, wl, crt);
      rets, poss := FoldIn(rets, poss, x, items);
      items := items + [x];
      assert selector[..i + 1][..i] == selector[..i];
    }
    assert selector[..|selector|] == selector;
    FoldedDecides(items, rets, poss);
    ok := AllTrue(rets);
  }

  method AllTrue(rets: map<string, bool>) returns (ok: bool)
    ensures ok <==> rets != map[] && forall b :: b in rets ==> rets[b]
  {
    if rets == map[] {
      return false;
    }
    var left := rets.Keys;
    while left != {}
      invariant left <= rets.Keys
      invariant forall b :: b in rets && b !in left ==> rets[b]
      decreases |left|
    {
      var b :| b in left;
      if !rets[b] {
        return false;
      }
      left := left - {b};
    }
    return true;
  }

  function Evaluated(met: Matcher, wl: Workload, selector: seq<Criterion>): (items: seq<Item>) {
    if selector == [] then []
    else Evaluated(met, wl, selector[..|selector| - 1]) + [Evaluate(met, wl, selector[|selector| - 1])]
  }

  predicate SelectsWorkload(met: Matcher, wl: Workload, selector: seq<Criterion>) {
    && (forall j :: 0 <= j < |selector| ==> selector[j].key != "address")
    && Selected(Evaluated(met, wl, selector))
  }

  /** A service-IP group is judged by its domain; other criteria are passed over. */
  function EvaluatedByDomain(met: Matcher, domain: string, selector: seq<Criterion>): (items: seq<Item>) {
    if selector == [] then []
    else
      var c := selector[|selector| - 1];
      EvaluatedByDomain(met, domain, selector[..|selector| - 1])
      + if c.key == "domain" || c.key == "namespace" then [Item(c.key, IsCriterionMet(met, c, domain))] else []
  }

  method IsSvcIpGroupSelected(met: Matcher, domain: string, selector: seq<Criterion>) returns (ok: bool)
    ensures ok <==> Selected(EvaluatedByDomain(met, domain, selector))
  {
    var rets: map<string, bool>, poss: map<string, bool> := map[], map[];
    ghost var items := [];
    for i := 0 to |selector|
      invariant items == EvaluatedByDomain(met, domain, selector[..i])
      invariant Folded(items, rets, poss)
    {
      assert selector[..i + 1][..i] == selector[..i];
      var crt := selector[i];
      if crt.key == "domain" || crt.key == "namespace" {
        var x := Item(crt.key, IsCriterionMet(met, crt, domain));
        rets, poss := FoldIn(rets, poss, x, items);
        items := items + [x];
      }
    }
    assert selector[..|selector|] == selector;
    FoldedDecides(items, rets, poss);
    ok := AllTrue(rets);
  }

  datatype Group = Group(criteria: seq<Criterion>, anyDomain: bool, domains: seq<string>)

  predicate IsGroupMember(met: Matcher, g: Group, wl: Workload) {
    SelectsWorkload(met, wl, g.criteria) && (g.anyDomain || wl.domain in g.domains)
  }

  method CheckGroupMember(met: Matcher, g: Group, wl: Workload) returns (ok: bool)
    ensures ok <==> IsGroupMember(met, g, wl)
  {
    ok := IsWorkloadSelected(met, wl, g.criteria);
    if !ok || g.anyDomain {
      return;
    }
    for i := 0 to |g.domains|
      invariant wl.domain !in g.domains[..i]
    {
      if g.domains[i] == wl.domain {
        return true;
      }
    }
    ok := false;
  }

  /** A group of some domains has no members elsewhere; one without criteria has none at all. */
  lemma MembersAreLocal(met: Matcher, g: Group, wl: Workload)
    ensures IsGroupMember(met, g, wl) ==> g.anyDomain || wl.domain in g.domains
    ensures IsGroupMember(met, g, wl) ==> g.criteria != []
    ensures g.anyDomain && SelectsWorkload(met, wl, g.criteria) ==> IsGroupMember(met, g, wl)
  {
  }

  // -- What one criterion, and two, come to

  lemma OneVerdict(v: Verdict)
    ensures Closed([v]) <==> v.ret
  {
    AccumulateIsClosed([v]);
  }

  /** Each key has its attribute; any other key names a label, which must be there; an address never
      selects. */
  lemma SingleCriterion(met: Matcher, wl: Workload, c: Criterion)
    ensures c.key == "image" ==> (SelectsWorkload(met, wl, [c]) <==> met(c, wl.image))
    ensures c.key == "node" ==> (SelectsWorkload(met, wl, [c]) <==> met(c, wl.host))
    ensures c.key == "container" ==> (SelectsWorkload(met, wl, [c]) <==> met(c, wl.name))
    ensures c.key == "service" ==> (SelectsWorkload(met, wl, [c]) <==> met(c, wl.service))
    ensures c.key == "domain" || c.key == "namespace" ==> (SelectsWorkload(met, wl, [c]) <==> met(c, wl.domain))
    ensures c.key == "address" ==> !SelectsWorkload(met, wl, [c])
    ensures c.key !in ATTRIBUTES && c.key != "address" ==>
              (SelectsWorkload(met, wl, [c]) <==> c.key in wl.labels && met(c, wl.labels[c.key]))
  {
    var x := Evaluate(met, wl, c);
    assert [c][..0] == [];
    assert Evaluated(met, wl, [c]) == [x];
    assert [x][..0] == [];
    assert Column([x], x.bucket) == [x.v];
    OneVerdict(x.v);
  }

  const ATTRIBUTES := {"image", "node", "container", "service", "domain", "namespace"}

  lemma TwoVerdicts(v: Verdict, w: Verdict)
    ensures Closed([v, w]) <==> if v.positive || w.positive then v.ret || w.ret else v.ret && w.ret
  {
    AccumulateIsClosed([v, w]);
    assert [v, w][..1] == [v];
  }

  lemma OneColumn(x: Item, b: string)
    ensures Column([x], b) == if x.bucket == b then [x.v] else []
  {
    assert [x][..0] == [];
  }

  lemma Joined(x: Item, y: Item)
    ensures [x] + [y] == [x, y]
  {
  }

  lemma TwoColumns(x: Item, y: Item, b: string)
    ensures Column([x, y], b) == (if x.bucket == b then [x.v] else []) + if y.bucket == b then [y.v] else []
  {
    OneColumn(x, b);
    ColumnGrows([x], y, b);
    Joined(x, y);
  }

  lemma TwoItems(x: Item, y: Item)
    ensures Selected([x, y]) <==>
            if x.bucket == y.bucket then Closed([x.v, y.v]) else Closed([x.v]) && Closed([y.v])
  {
    TwoColumns(x, y, x.bucket);
    TwoColumns(x, y, y.bucket);
    assert [x.v] + [y.v] == [x.v, y.v] && [x.v] + [] == [x.v] && [] + [y.v] == [y.v];
    assert x in [x, y] && y in [x, y];
  }

  lemma TwoEvaluated(met: Matcher, wl: Workload, c: Criterion, d: Criterion)
    ensures Evaluated(met, wl, [c, d]) == [Evaluate(met, wl, c), Evaluate(met, wl, d)]
  {
    assert [c, d][..1] == [c] && [c][..0] == [];
    assert Evaluated(met, wl, [c]) == [Evaluate(met, wl, c)];
  }

  /** A criterion of an attribute goes into the attribute's own bucket. */
  lemma AttributeItem(met: Matcher, wl: Workload, c: Criterion)
    requires c.key in ATTRIBUTES
    ensures var x := Evaluate(met, wl, c);
            x.bucket == c.key && (x.v.positive <==> !Negated(c.op)) && (x.v.ret <==> SelectsWorkload(met, wl, [c]))
  {
    SingleCriterion(met, wl, c);
  }

  predicate Negated(op: string) {
    op == "!=" || op == "!regex"
  }

  lemma PairSelected(x: Item, y: Item)
    ensures Selected([x, y]) <==>
            if x.bucket == y.bucket && (x.v.positive || y.v.positive) then x.v.ret || y.v.ret else x.v.ret && y.v.ret
  {
    TwoItems(x, y);
    TwoVerdicts(x.v, y.v);
    OneVerdict(x.v);
    OneVerdict(y.v);
  }

  lemma SelectsPair(met: Matcher, wl: Workload, c: Criterion, d: Criterion)
    requires c.key != "address" && d.key != "address"
    ensures SelectsWorkload(met, wl, [c, d]) <==> Selected([Evaluate(met, wl, c), Evaluate(met, wl, d)])
  {
    TwoEvaluated(met, wl, c, d);
  }

  /** Criteria of different keys are joined by "and"; two of one key by "and" if both are negated,
      and else by "or". */
  lemma PairOfCriteria(met: Matcher, wl: Workload, c: Criterion, d: Criterion)
    requires c.key in ATTRIBUTES && d.key in ATTRIBUTES
    ensures SelectsWorkload(met, wl, [c, d]) <==>
            if c.key == d.key && !(Negated(c.op) && Negated(d.op))
            then SelectsWorkload(met, wl, [c]) || SelectsWorkload(met, wl, [d])
            else SelectsWorkload(met, wl, [c]) && SelectsWorkload(met, wl, [d])
  {
    AttributeItem(met, wl, c);
    AttributeItem(met, wl, d);
    SelectsPair(met, wl, c, d);
    PairSelected(Evaluate(met, wl, c), Evaluate(met, wl, d));
  }

  // -- The documented rule, and exactly when the code follows it

  /** As documented: `or` if at least one is positive, `and` if all are negative. */
  predicate Documented(vs: seq<Verdict>) {
    if AnyPositive(vs) then AnyMet(vs) else AllMet(vs)
  }

  function Verdicts(signs: seq<bool>, rets: seq<bool>): seq<Verdict>
    requires |signs| == |rets|
  {
    seq(|signs|, i requires 0 <= i < |signs| => Verdict(rets[i], signs[i]))
  }

  ghost predicate AgreesAlways(signs: seq<bool>) {
    forall rets: seq<bool> :: |rets| == |signs| ==> Closed(Verdicts(signs, rets)) == Documented(Verdicts(signs, rets))
  }

  /** The criteria's operators decide it: no positive one, or at most one negative before it. */
  predicate FewLeading(signs: seq<bool>) {
    || (forall i :: 0 <= i < |signs| ==> !signs[i])
    || (signs != [] && signs[0])
    || (|signs| >= 2 && signs[1])
  }

  lemma FewLeadingAgrees(signs: seq<bool>, rets: seq<bool>)
    requires |rets| == |signs| && FewLeading(signs)
    ensures Closed(Verdicts(signs, rets)) == Documented(Verdicts(signs, rets))
  {
    var vs := Verdicts(signs, rets);
    var n := Leading(vs);
    if n < |vs| {
      assert vs[n].positive && AnyPositive(vs);
      if |signs| >= 2 && signs[1] {
        assert vs[1].positive;
      }
      assert n <= 1;
      assert vs == vs[..n] + vs[n..];
      AnyMetConcat(vs[..n], vs[n..]);
      assert n == 1 ==> (AllMet(vs[..n]) <==> AnyMet(vs[..n]));
    } else {
      assert !AnyPositive(vs);
    }
  }

  lemma OnlyFirstMet(vs: seq<Verdict>)
    requires 2 <= Leading(vs) < |vs| && vs[0].ret && forall i :: 0 < i < |vs| ==> !vs[i].ret
    ensures AnyMet(vs) && !Closed(vs)
  {
    var n := Leading(vs);
    assert !vs[..n][1].ret;
    assert forall i :: 0 <= i < |vs[n..]| ==> vs[n..][i] == vs[n + i];
  }

  lemma ManyLeading(signs: seq<bool>, vs: seq<Verdict>)
    requires !FewLeading(signs) && |vs| == |signs| && forall i :: 0 <= i < |vs| ==> vs[i].positive == signs[i]
    ensures 2 <= Leading(vs) < |vs|
  {
    var p :| 0 <= p < |signs| && signs[p];
    assert vs[p].positive && !vs[0].positive;
    assert Leading(vs) <= p;
  }

  lemma ManyLeadingDisagrees(signs: seq<bool>)
    requires !FewLeading(signs)
    ensures !AgreesAlways(signs)
  {
    var rets := seq(|signs|, i => i == 0);
    var vs := Verdicts(signs, rets);
    ManyLeading(signs, vs);
    OnlyFirstMet(vs);
    assert Documented(vs) by {
      assert vs[Leading(vs)].positive;
    }
    assert |rets| == |signs|;
  }

  /** The code follows the documented rule whatever the criteria match, exactly when no
      positive criterion of the bucket has two or more negatives before the first of them. */
  lemma DocumentedRuleExactly(signs: seq<bool>)
    ensures AgreesAlways(signs) <==> FewLeading(signs)
  {
    if FewLeading(signs) {
      forall rets: seq<bool> | |rets| == |signs|
        ensures Closed(Verdicts(signs, rets)) == Documented(Verdicts(signs, rets))
      {
        FewLeadingAgrees(signs, rets);
      }
    } else {
      ManyLeadingDisagrees(signs);
    }
  }

  /** Reordering the criteria of a bucket changes nothing when all have the same sign. */
  lemma SameSignOrderIrrelevant(vs: seq<Verdict>, ws: seq<Verdict>)
    requires multiset(vs) == multiset(ws)
    requires (forall v :: v in vs ==> v.positive) || (forall v :: v in vs ==> !v.positive)
    ensures Closed(vs) == Closed(ws)
  {
    SameSignMeaning(vs);
    forall v
      ensures v in vs <==> v in ws
    {
      assert v in vs <==> v in multiset(vs);
      assert v in ws <==> v in multiset(ws);
    }
    SameSignMeaning(ws);
    assert |vs| == |multiset(vs)| == |multiset(ws)| == |ws|;
  }

  lemma SameSignMeaning(vs: seq<Verdict>)
    requires (forall v :: v in vs ==> v.positive) || (forall v :: v in vs ==> !v.positive)
    ensures vs != [] && vs[0].positive ==> (Closed(vs) <==> Verdict(true, true) in vs)
    ensures vs == [] || !vs[0].positive ==> (Closed(vs) <==> Verdict(false, false) !in vs)
  {
    var n := Leading(vs);
    if vs != [] && vs[0].positive {
      assert n == 0 && vs[0..] == vs;
      if Closed(vs) {
        var i :| 0 <= i < |vs| && vs[i].ret;
        assert vs[i] in vs;
      }
    } else {
      assert vs != [] ==> vs[0] in vs;
      assert forall i :: 0 <= i < |vs| ==> vs[i] in vs && !vs[i].positive;
      if !Closed(vs) {
        var i :| 0 <= i < |vs| && !vs[i].ret;
        assert vs[i] in vs;
      }
    }
  }
}
