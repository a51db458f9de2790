/** Network policy rules on their way through the key-value store: the controller deals them into
    slots (controller/cache/policy.go), an agent puts them back in order (agent/system.go). */
module PolicySlots {
  import opened Basics
  import opened Rings

  const KV_VALUE_SIZE_MAX: nat := 512 * 1024
  const MAX_POLICY_SLOTS: nat := 512
  const DEFAULT_GROUP_RULE_ID: nat := 0

  /** `from` are workload addresses, some of them nil; `body` stands for the other fields. */
  datatype Rule = Rule(id: nat, from: seq<Option<nat>>, body: nat)

  /** The zero value, as in a new slice. */
  const BLANK: Rule := Rule(0, [], 0)

  // -- Dealing round-robin

  function Turn(k: nat, n: nat): nat
    requires n > 0
  {
    if k < n then 0 else 1 + Turn(k - n, n)
  }

  /** The first index of a turn. */
  function Row(j: nat, n: nat): nat {
    if j == 0 then 0 else Row(j - 1, n) + n
  }

  function Deal<T>(xs: seq<T>, n: nat): (d: seq<seq<T>>)
    requires n > 0 || xs == []
    ensures |d| == n
  {
    if xs == [] then seq(n, _ => [])
    else
      var d, i := Deal(xs[..|xs| - 1], n), Slot(|xs| - 1, n);
      d[i := d[i] + [xs[|xs| - 1]]]
  }

  lemma {:induction false} NextTurn(k: nat, n: nat)
    requires n > 0
    ensures Turn(k + 1, n) == if Slot(k, n) + 1 == n then Turn(k, n) + 1 else Turn(k, n)
    decreases k
  {
    if k >= n {
      NextTurn(k - n, n);
    }
  }

  /** Index `k` is place `Slot` of turn `Turn`. */
  lemma {:induction false} Place(k: nat, n: nat)
    requires n > 0
    ensures k == Row(Turn(k, n), n) + Slot(k, n)
    decreases k
  {
    if k >= n {
      Place(k - n, n);
    }
  }

  lemma {:induction false} PlaceUnique(j: nat, i: nat, n: nat)
    requires i < n
    ensures Turn(Row(j, n) + i, n) == j && Slot(Row(j, n) + i, n) == i
    decreases j
  {
    if j > 0 {
      PlaceUnique(j - 1, i, n);
      assert Row(j, n) + i - n == Row(j - 1, n) + i;
    }
  }

  lemma {:induction false} DealtLength<T>(xs: seq<T>, n: nat, i: nat)
    requires i < n
    ensures |Deal(xs, n)[i]| == Turn(|xs|, n) + if i < Slot(|xs|, n) then 1 else 0
    decreases |xs|
  {
    if xs != [] {
      DealtLength(xs[..|xs| - 1], n, i);
      NextTurn(|xs| - 1, n);
      NextSlot(|xs| - 1, n);
    }
  }

  /** Where the k-th item went. */
  lemma {:induction false} DealtAt<T>(xs: seq<T>, n: nat, k: nat)
    requires n > 0 && k < |xs|
    ensures Turn(k, n) < |Deal(xs, n)[Slot(k, n)]| && Deal(xs, n)[Slot(k, n)][Turn(k, n)] == xs[k]
    decreases |xs|
  {
    var init := xs[..|xs| - 1];
    if k < |init| {
      DealtAt(init, n, k);
    } else {
      DealtLength(init, n, Slot(k, n));
    }
  }

  /** Nothing else is dealt. */
  lemma {:induction false} DealtFrom<T>(xs: seq<T>, n: nat, i: nat, j: nat)
    requires i < n && j < |Deal(xs, n)[i]|
    ensures Row(j, n) + i < |xs|
    decreases |xs|
  {
    if xs != [] {
      var init := xs[..|xs| - 1];
      if j < |Deal(init, n)[i]| {
        DealtFrom(init, n, i, j);
      } else {
        DealtLength(init, n, i);
        Place(|init|, n);
      }
    }
  }

  method DealRules(rules: seq<Rule>, n: nat) returns (plcs: seq<seq<Rule>>)
    requires n > 0 || rules == []
    ensures plcs == Deal(rules, n)
  {
    plcs := seq(n, _ => []);
    for idx := 0 to |rules|
      invariant plcs == Deal(rules[..idx], n)
    {
      assert rules[..idx + 1][..idx] == rules[..idx];
      SlotIsMod(idx, n);
      plcs := plcs[idx % n := plcs[idx % n] + [rules[idx]]];
    }
    assert rules[..|rules|] == rules;
  }

  lemma {:induction false} SlotIsMod(k: nat, n: nat)
    requires n > 0
    ensures k % n == Slot(k, n)
    decreases k
  {
    if k >= n {
      SlotIsMod(k - n, n);
      StepOver(k - n, n);
    }
  }

  // -- Putting the rules back

  /** What `getPolicyConfig` puts at index `k`. */
  function Cell(stored: seq<Option<seq<Rule>>>, k: nat): Rule {
    if stored == [] then BLANK
    else
      var i, j := Slot(k, |stored|), Turn(k, |stored|);
      if stored[i].Some? && j < |stored[i].value| then stored[i].value[j] else BLANK
  }

  /** Every stored rule has a place among `len`. */
  predicate InBounds(stored: seq<Option<seq<Rule>>>, len: nat) {
    forall i :: 0 <= i < |stored| ==> SlotInBounds(stored, i, len)
  }

  /** Index `k` once slots before `i`, and `idx` rules of slot `i`, are put back. */
  function Shown(stored: seq<Option<seq<Rule>>>, k: nat, i: nat, idx: nat): Rule
    requires stored != []
  {
    var p := Slot(k, |stored|);
    if p < i || (p == i && Turn(k, |stored|) < idx) then Cell(stored, k) else BLANK
  }

  ghost predicate Filled(pols: seq<Rule>, stored: seq<Option<seq<Rule>>>, i: nat, idx: nat)
    requires stored != []
  {
    forall k :: 0 <= k < |pols| ==> pols[k] == Shown(stored, k, i, idx)
  }

  lemma FilledOne(pols: seq<Rule>, stored: seq<Option<seq<Rule>>>, i: nat, idx: nat)
    requires i < |stored| && stored[i].Some? && idx < |stored[i].value| && Row(idx, |stored|) + i < |pols|
    requires Filled(pols, stored, i, idx)
    ensures Filled(pols[Row(idx, |stored|) + i := stored[i].value[idx]], stored, i, idx + 1)
  {
    var n, t := |stored|, Row(idx, |stored|) + i;
    PlaceUnique(idx, i, n);
    var pols' := pols[t := stored[i].value[idx]];
    forall k | 0 <= k < |pols|
      ensures pols'[k] == Shown(stored, k, i, idx + 1)
    {
      Place(k, n);
      assert pols[k] == Shown(stored, k, i, idx);
    }
  }

  lemma FilledSlot(pols: seq<Rule>, stored: seq<Option<seq<Rule>>>, i: nat, idx: nat)
    requires i < |stored| && Filled(pols, stored, i, idx)
    requires idx == if stored[i].Some? then |stored[i].value| else 0
    ensures Filled(pols, stored, i + 1, 0)
  {
    forall k | 0 <= k < |pols|
      ensures pols[k] == Shown(stored, k, i + 1, 0)
    {
      assert pols[k] == Shown(stored, k, i, idx);
    }
  }

  predicate SlotInBounds(stored: seq<Option<seq<Rule>>>, i: nat, len: nat)
    requires i < |stored|
  {
    stored[i].Some? ==> forall j :: 0 <= j < |stored[i].value| ==> Row(j, |stored|) + i < len
  }

  method PutSlot(pols: array<Rule>, stored: seq<Option<seq<Rule>>>, i: nat) returns (ok: bool)
    requires i < |stored| && Filled(pols[..], stored, i, 0)
    modifies pols
    ensures ok == SlotInBounds(stored, i, pols.Length)
    ensures ok ==> Filled(pols[..], stored, i + 1, 0)
  {
    ok := true;
    if stored[i].Some? {
      var n, pol := |stored|, stored[i].value;
      for idx := 0 to |pol|
        invariant forall j :: 0 <= j < idx ==> Row(j, n) + i < pols.Length
        invariant Filled(pols[..], stored, i, idx)
      {
        RowIsProduct(idx, n);
        var tidx := n * idx + i;
        if tidx >= pols.Length {
          return false;
        }
        FilledOne(pols[..], stored, i, idx);
        ghost var was := pols[..];
        pols[tidx] := pol[idx];
        assert pols[..] == was[tidx := pol[idx]];
      }
    }
    FilledSlot(pols[..], stored, i, if stored[i].Some? then |stored[i].value| else 0);
  }

  /** `getPolicyConfig`; a slot that cannot be read leaves its places blank, and an index past
      the end is a panic (`ok` is false). */
  method GetPolicyConfig(stored: seq<Option<seq<Rule>>>, len: nat) returns (ok: bool, pols: array<Rule>)
    ensures ok <==> InBounds(stored, len)
    ensures ok ==> pols.Length == len && forall k :: 0 <= k < len ==> pols[k] == Cell(stored, k)
  {
    pols := new Rule[len](_ => BLANK);
    for i := 0 to |stored|
      invariant forall j :: 0 <= j < i ==> SlotInBounds(stored, j, len)
      invariant stored != [] ==> Filled(pols[..], stored, i, 0)
      invariant stored == [] ==> forall k :: 0 <= k < len ==> pols[k] == BLANK
    {
      ok := PutSlot(pols, stored, i);
      if !ok {
        return;
      }
    }
    ok := true;
    forall k | 0 <= k < len
      ensures pols[k] == Cell(stored, k)
    {
      assert pols[..][k] == pols[k];
    }
  }

  lemma {:induction false} RowIsProduct(j: nat, n: nat)
    ensures Row(j, n) == n * j
  {
    if j > 0 {
      RowIsProduct(j - 1, n);
      assert n * j == n * (j - 1) + n;
    }
  }

  /** The slots as read back: some of them may be missing. */
  predicate Readback(plcs: seq<seq<Rule>>, stored: seq<Option<seq<Rule>>>) {
    |stored| == |plcs| && forall i :: 0 <= i < |plcs| ==> stored[i] == Some(plcs[i]) || stored[i].None?
  }

  /** Dealt rules come back in their original order, in bounds, whichever slots are missing; and
      a missing slot blanks just its own places. */
  lemma DealtComeBack(rules: seq<Rule>, n: nat, stored: seq<Option<seq<Rule>>>)
    requires n > 0 && Readback(Deal(rules, n), stored)
    ensures InBounds(stored, |rules|)
    ensures forall k :: 0 <= k < |rules| ==> Cell(stored, k) == if stored[Slot(k, n)].Some? then rules[k] else BLANK
  {
    forall i, j | 0 <= i < n && stored[i].Some? && 0 <= j < |stored[i].value|
      ensures Row(j, n) + i < |rules|
    {
      DealtFrom(rules, n, i, j);
    }
    assert forall i :: 0 <= i < n ==> SlotInBounds(stored, i, |rules|);
    forall k | 0 <= k < |rules|
      ensures Cell(stored, k) == if stored[Slot(k, n)].Some? then rules[k] else BLANK
    {
      DealtAt(rules, n, k);
    }
  }

  // -- The rule with all workload addresses

  function One(x: Option<nat>): seq<Option<nat>> {
    if x.Some? then [x] else []
  }

  function NonNil(from: seq<Option<nat>>): seq<Option<nat>> {
    if from == [] then [] else NonNil(from[..|from| - 1]) + One(from[|from| - 1])
  }

  /** The first rule's addresses dealt over several rules of their own. */
  function WorkloadRules(from: seq<Option<nat>>, w: nat): (rs: seq<Rule>)
    requires w > 0 || from == []
    ensures |rs| == w
  {
    var d := Deal(from, w);
    seq(w, i requires 0 <= i < w => Rule(DEFAULT_GROUP_RULE_ID, d[i], 0))
  }

  method SplitWorkloads(from: seq<Option<nat>>, slots: nat) returns (rs: seq<Rule>)
    requires slots > 0
    ensures rs == WorkloadRules(from, Least(|from|, slots))
  {
    var w := Least(|from|, slots);
    rs := seq(w, _ => BLANK);
    for i := 0 to |from|
      invariant |rs| == w
      invariant forall j :: 0 <= j < w ==> rs[j] == Rule(0, Deal(from[..i], w)[j], 0)
    {
      assert from[..i + 1][..i] == from[..i];
      SlotIsMod(i, w);
      if i < w {
        DealtLength(from[..i], w, i);
        rs := rs[i := Rule(DEFAULT_GROUP_RULE_ID, [from[i]], 0)];
      } else {
        rs := rs[i % w := rs[i % w].(from := rs[i % w].from + [from[i]])];
      }
    }
    assert from[..|from|] == from;
  }

  /** The rules as stored: the split first rule, and the others. */
  function Stored(rules: seq<Rule>, slots: nat): seq<Rule>
    requires rules != [] && slots > 0
  {
    WorkloadRules(rules[0].from, Least(|rules[0].from|, slots)) + rules[1..]
  }

  /** The non-nil addresses of the first `w` rules. */
  function Gather(rules: seq<Rule>, w: nat): seq<Option<nat>>
    requires w <= |rules|
  {
    if w == 0 then [] else Gather(rules, w - 1) + NonNil(rules[w - 1].from)
  }

  method AppendNonNil(to: seq<Option<nat>>, from: seq<Option<nat>>) returns (r: seq<Option<nat>>)
    ensures r == to + NonNil(from)
  {
    r := to;
    for j := 0 to |from|
      invariant r == to + NonNil(from[..j])
    {
      assert from[..j + 1][..j] == from[..j];
      assert to + NonNil(from[..j]) + One(from[j]) == to + (NonNil(from[..j]) + One(from[j]));
      if from[j].Some? {
        r := r + [from[j]];
      }
    }
    assert from[..|from|] == from;
  }

  method MergeWlPolicyConfig(rules: seq<Rule>, w: nat) returns (r: seq<Rule>)
    requires w <= |rules|
    ensures r == [Rule(DEFAULT_GROUP_RULE_ID, Gather(rules, w), 0)] + rules[w..]
  {
    var from := [];
    for i := 0 to w
      invariant from == Gather(rules, i)
    {
      from := AppendNonNil(from, rules[i].from);
    }
    return [Rule(DEFAULT_GROUP_RULE_ID, from, 0)] + rules[w..];
  }

  /** The non-nil items of the first `n` hands, hand after hand. */
  function Collected(d: seq<seq<Option<nat>>>, n: nat): seq<Option<nat>>
    requires n <= |d|
  {
    if n == 0 then [] else Collected(d, n - 1) + NonNil(d[n - 1])
  }

  function Count(s: seq<Option<nat>>, a: Option<nat>): nat {
    if s == [] then 0 else Count(s[..|s| - 1], a) + if s[|s| - 1] == a then 1 else 0
  }

  lemma {:induction false} CountSplits(s: seq<Option<nat>>, t: seq<Option<nat>>, a: Option<nat>)
    ensures Count(s + t, a) == Count(s, a) + Count(t, a)
    decreases |t|
  {
    if t == [] {
      assert s + t == s;
    } else {
      assert (s + t)[..|s + t| - 1] == s + t[..|t| - 1];
      CountSplits(s, t[..|t| - 1], a);
    }
  }

  lemma {:induction false} CountIsMultiset(s: seq<Option<nat>>, a: Option<nat>)
    ensures multiset(s)[a] == Count(s, a)
    decreases |s|
  {
    if s != [] {
      var init, last := s[..|s| - 1], s[|s| - 1];
      CountIsMultiset(init, a);
      assert s == init + [last];
    }
  }

  function Unit(x: Option<nat>, a: Option<nat>): nat {
    if x == a && a.Some? then 1 else 0
  }

  /** How often a non-nil address is in a hand. */
  function Load(hand: seq<Option<nat>>, a: Option<nat>): nat {
    if hand == [] then 0 else Load(hand[..|hand| - 1], a) + Unit(hand[|hand| - 1], a)
  }

  lemma LoadSnoc(hand: seq<Option<nat>>, x: Option<nat>, a: Option<nat>)
    ensures Load(hand + [x], a) == Load(hand, a) + Unit(x, a)
  {
    assert (hand + [x])[..|hand|] == hand;
  }

  lemma {:induction false} LoadIsCount(hand: seq<Option<nat>>, a: Option<nat>)
    ensures Count(NonNil(hand), a) == Load(hand, a)
    decreases |hand|
  {
    if hand != [] {
      var init, x := hand[..|hand| - 1], hand[|hand| - 1];
      LoadIsCount(init, a);
      CountSplits(NonNil(init), One(x), a);
      assert Count(One(x), a) == Unit(x, a) by {
        assert [x][..0] == [];
      }
    }
  }

  /** Over the first `n` hands. */
  function Sum(d: seq<seq<Option<nat>>>, a: Option<nat>, n: nat): nat
    requires n <= |d|
  {
    if n == 0 then 0 else Sum(d, a, n - 1) + Load(d[n - 1], a)
  }

  lemma {:induction false} SumOneMore(d: seq<seq<Option<nat>>>, d': seq<seq<Option<nat>>>, i: nat, k: nat, n: nat, a: Option<nat>)
    requires i < |d| == |d'| && n <= |d| && Load(d'[i], a) == Load(d[i], a) + k
    requires forall j :: 0 <= j < |d| && j != i ==> d'[j] == d[j]
    ensures Sum(d', a, n) == Sum(d, a, n) + if i < n then k else 0
    decreases n
  {
    if n > 0 {
      SumOneMore(d, d', i, k, n - 1, a);
    }
  }

  lemma {:induction false} SumOfNothing(d: seq<seq<Option<nat>>>, n: nat, a: Option<nat>)
    requires n <= |d| && forall i :: 0 <= i < |d| ==> d[i] == []
    ensures Sum(d, a, n) == 0
    decreases n
  {
    if n > 0 {
      SumOfNothing(d, n - 1, a);
    }
  }

  lemma {:induction false} CollectedCounts(d: seq<seq<Option<nat>>>, n: nat, a: Option<nat>)
    requires n <= |d|
    ensures Count(Collected(d, n), a) == Sum(d, a, n)
    decreases n
  {
    if n > 0 {
      CollectedCounts(d, n - 1, a);
      CountSplits(Collected(d, n - 1), NonNil(d[n - 1]), a);
      LoadIsCount(d[n - 1], a);
    }
  }

  lemma {:induction false} DealtLoad(from: seq<Option<nat>>, w: nat, a: Option<nat>)
    requires w > 0 || from == []
    ensures Sum(Deal(from, w), a, w) == Load(from, a)
    decreases |from|
  {
    if from == [] {
      SumOfNothing(Deal(from, w), w, a);
    } else {
      var init, x := from[..|from| - 1], from[|from| - 1];
      var d, i := Deal(init, w), Slot(|init|, w);
      DealtLoad(init, w, a);
      LoadSnoc(d[i], x, a);
      SumOneMore(d, Deal(from, w), i, Unit(x, a), w, a);
    }
  }

  lemma DealtCounts(from: seq<Option<nat>>, w: nat, a: Option<nat>)
    requires w > 0 || from == []
    ensures Count(Collected(Deal(from, w), w), a) == Count(NonNil(from), a)
  {
    CollectedCounts(Deal(from, w), w, a);
    DealtLoad(from, w, a);
    LoadIsCount(from, a);
  }

  /** Dealing and collecting loses no address and adds none. */
  lemma DealtAddresses(from: seq<Option<nat>>, w: nat)
    requires w > 0 || from == []
    ensures multiset(Collected(Deal(from, w), w)) == multiset(NonNil(from))
  {
    forall a
      ensures multiset(Collected(Deal(from, w), w))[a] == multiset(NonNil(from))[a]
    {
      CountIsMultiset(Collected(Deal(from, w), w), a);
      CountIsMultiset(NonNil(from), a);
      DealtCounts(from, w, a);
    }
  }

  lemma {:induction false} GatherIsCollected(rules: seq<Rule>, d: seq<seq<Option<nat>>>, w: nat)
    requires w <= |d| && w <= |rules| && forall i :: 0 <= i < w ==> rules[i].from == d[i]
    ensures Gather(rules, w) == Collected(d, w)
    decreases w
  {
    if w > 0 {
      GatherIsCollected(rules, d, w - 1);
    }
  }

  // -- There and back

  predicate MergesWorkloads(len: nat, wlSlots: nat, wlLen: nat) {
    len > 0 && wlSlots > 0 && wlLen > 0
  }

  /** What `systemConfigPolicyVersion` makes of the reassembled rules. */
  function Assembled(pols: seq<Rule>, wlSlots: nat, wlLen: nat): seq<Rule>
    requires MergesWorkloads(|pols|, wlSlots, wlLen) ==> wlSlots <= |pols|
  {
    if MergesWorkloads(|pols|, wlSlots, wlLen)
    then [Rule(DEFAULT_GROUP_RULE_ID, Gather(pols, wlSlots), 0)] + pols[wlSlots..]
    else pols
  }

  /** All rules, the first with its non-nil addresses in some order. */
  ghost predicate CameBack(rules: seq<Rule>, r: seq<Rule>)
    requires rules != []
  {
    && r != [] && r[0].id == rules[0].id && r[0].body == rules[0].body
    && multiset(r[0].from) == multiset(NonNil(rules[0].from))
    && r[1..] == rules[1..]
  }

  /** The first rule is the one that carries the workload addresses and nothing else. */
  predicate AddressRule(rule: Rule) {
    rule.from != [] && rule.id == DEFAULT_GROUP_RULE_ID && rule.body == 0
  }

  /** All rules come back, the first with its non-nil addresses in some order, if and only if the
      first rule has addresses and is otherwise what the reader makes up; without addresses it is
      gone. */
  lemma PolicyRoundTripExactly(rules: seq<Rule>, slots: nat, pols: seq<Rule>)
    requires rules != [] && slots > 0 && pols == Stored(rules, slots)
    ensures var len := |rules[0].from|;
            var r := Assembled(pols, Least(len, slots), len);
            && (CameBack(rules, r) <==> AddressRule(rules[0]))
            && (len == 0 ==> r == rules[1..])
  {
    var from := rules[0].from;
    var w := Least(|from|, slots);
    if w > 0 {
      GatherIsCollected(pols, Deal(from, w), w);
      DealtAddresses(from, w);
      var r := Assembled(pols, w, |from|);
      assert pols[w..] == rules[1..];
      assert r[1..] == rules[1..];
    }
  }

  /** The slots that a slot count leads to. */
  function SlotsFor(rules: seq<Rule>, slots: nat): seq<seq<Rule>>
    requires rules != [] && slots > 0
  {
    var all := Stored(rules, slots);
    Deal(all, Least(|all|, slots))
  }

  predicate AllFit(plcs: seq<seq<Rule>>, size: seq<Rule> -> nat) {
    forall i :: 0 <= i < |plcs| ==> size(plcs[i]) < KV_VALUE_SIZE_MAX
  }

  predicate IsCount(n: nat) {
    n in {16, 32, 64, 128, 256, 512}
  }

  method FitsAll(plcs: seq<seq<Rule>>, size: seq<Rule> -> nat) returns (ok: bool)
    ensures ok == AllFit(plcs, size)
  {
    for i := 0 to |plcs|
      invariant forall j :: 0 <= j < i ==> size(plcs[j]) < KV_VALUE_SIZE_MAX
    {
      if size(plcs[i]) >= KV_VALUE_SIZE_MAX {
        return false;
      }
    }
    return true;
  }

  datatype Prepared = Prepared(plcs: seq<seq<Rule>>, slots: nat, wlSlots: nat, wlLen: nat) | TooLarge | OutOfRange

  /** `preparePolicySlots`: the fewest of 16 to 512 slots whose contents all fit.  The first rule is
      looked at even if there is none. */
  method PreparePolicySlots(rules: seq<Rule>, size: seq<Rule> -> nat) returns (r: Prepared)
    ensures r.OutOfRange? <==> rules == []
    ensures r.Prepared? ==>
              && IsCount(r.slots) && r.plcs == SlotsFor(rules, r.slots) && AllFit(r.plcs, size)
              && r.wlLen == |rules[0].from| && r.wlSlots == Least(r.wlLen, r.slots)
              && (forall n: nat :: IsCount(n) && n < r.slots ==> !AllFit(SlotsFor(rules, n), size))
    ensures r.TooLarge? ==> forall n: nat :: IsCount(n) ==> !AllFit(SlotsFor(rules, n), size)
  {
    if rules == [] {
      return OutOfRange;
    }
    var slots := 16;
    while slots <= MAX_POLICY_SLOTS
      invariant IsCount(slots) || slots == 1024
      invariant forall n: nat :: IsCount(n) && n < slots ==> !AllFit(SlotsFor(rules, n), size)
      decreases 1024 - slots
    {
      var split := SplitWorkloads(rules[0].from, slots);
      var all := split + rules[1..];
      var plcs := DealRules(all, Least(|all|, slots));
      var ok := FitsAll(plcs, size);
      if ok {
        return Prepared(plcs, slots, |split|, |rules[0].from|);
      }
      slots := slots * 2;
    }
    return TooLarge;
  }

  predicate IsRead(stored: seq<Option<seq<Rule>>>, len: nat, pols: seq<Rule>) {
    |pols| == len && forall k :: 0 <= k < len ==> pols[k] == Cell(stored, k)
  }

  /** The agent's reading of a version record and the slots it names; `ok` is false for an index
      out of range. */
  method ReadPolicy(stored: seq<Option<seq<Rule>>>, rulesLen: nat, wlSlots: nat, wlLen: nat)
      returns (ok: bool, r: seq<Rule>)
    ensures ok <==> InBounds(stored, rulesLen) && (MergesWorkloads(rulesLen, wlSlots, wlLen) ==> wlSlots <= rulesLen)
    ensures ok ==> exists pols :: IsRead(stored, rulesLen, pols) && r == Assembled(pols, wlSlots, wlLen)
  {
    var a;
    ok, a := GetPolicyConfig(stored, rulesLen);
    r := [];
    if ok {
      r := a[..];
      ghost var pols := r;
      if r != [] && wlSlots > 0 && wlLen > 0 {
        if wlSlots > rulesLen {
          return false, [];
        }
        r := MergeWlPolicyConfig(r, wlSlots);
      }
      assert IsRead(stored, rulesLen, pols) && r == Assembled(pols, wlSlots, wlLen);
    }
  }

  function Kept(plcs: seq<seq<Rule>>): (stored: seq<Option<seq<Rule>>>)
    ensures Readback(plcs, stored) && forall i :: 0 <= i < |plcs| ==> stored[i] == Some(plcs[i])
  {
    seq(|plcs|, i requires 0 <= i < |plcs| => Some(plcs[i]))
  }

  /** The stored slots have their places. */
  lemma StoredInBounds(rules: seq<Rule>, slots: nat)
    requires rules != [] && slots > 0
    ensures |Stored(rules, slots)| == |rules| + Least(|rules[0].from|, slots) - 1
    ensures InBounds(Kept(SlotsFor(rules, slots)), |Stored(rules, slots)|)
  {
    var all := Stored(rules, slots);
    if all != [] {
      DealtComeBack(all, Least(|all|, slots), Kept(SlotsFor(rules, slots)));
    }
  }

  lemma ReadIsStored(rules: seq<Rule>, slots: nat, pols: seq<Rule>)
    requires rules != [] && slots > 0
    requires IsRead(Kept(SlotsFor(rules, slots)), |Stored(rules, slots)|, pols)
    ensures pols == Stored(rules, slots)
  {
    var all := Stored(rules, slots);
    if all != [] {
      DealtComeBack(all, Least(|all|, slots), Kept(SlotsFor(rules, slots)));
    }
  }

  lemma PublishedComesBack(rules: seq<Rule>, slots: nat, pols: seq<Rule>, r: seq<Rule>)
    requires rules != [] && slots > 0
    requires IsRead(Kept(SlotsFor(rules, slots)), |Stored(rules, slots)|, pols)
    requires Least(|rules[0].from|, slots) <= |pols|
    requires r == Assembled(pols, Least(|rules[0].from|, slots), |rules[0].from|)
    ensures CameBack(rules, r) <==> AddressRule(rules[0])
    ensures rules[0].from == [] ==> r == rules[1..]
  {
    ReadIsStored(rules, slots, pols);
    PolicyRoundTripExactly(rules, slots, pols);
  }

  /** Written, stored and read: all rules but the first unchanged and in order, and the first one
      too, up to the order of its addresses, if and only if it is the rule of workload addresses. */
  method PublishAndRead(rules: seq<Rule>, size: seq<Rule> -> nat) returns (r: Option<seq<Rule>>)
    ensures r.Some? ==> rules != [] && (CameBack(rules, r.value) <==> AddressRule(rules[0]))
    ensures r.Some? && rules[0].from == [] ==> r.value == rules[1..]
    ensures r.None? ==> rules == [] || forall n: nat :: IsCount(n) ==> !AllFit(SlotsFor(rules, n), size)
  {
    var p := PreparePolicySlots(rules, size);
    if !p.Prepared? {
      return None;
    }
    StoredInBounds(rules, p.slots);
    var ok, back := ReadPolicy(Kept(p.plcs), |rules| + p.wlSlots - 1, p.wlSlots, p.wlLen);
    ghost var pols :| IsRead(Kept(p.plcs), |rules| + p.wlSlots - 1, pols) && back == Assembled(pols, p.wlSlots, p.wlLen);
    PublishedComesBack(rules, p.slots, pols, back);
    return Some(back);
  }
}
