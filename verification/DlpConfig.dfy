/** DLP and WAF rule settings of a workload: the agent cuts them into messages (agent/dp/ctrl.go)
    and the data path applies each by mark and sweep to two maps of its endpoint (dp/ctrl.c). */
module DlpConfig {
  import opened Basics

  const MAX_DLPCFG_DELETE: nat := 256

  datatype Name = Name(sigid: nat, action: nat)

  datatype Cfg = Cfg(action: nat, enable: bool)

  type Cfgs = map<nat, Cfg>

  /** What one message says about one of the two maps. */
  datatype Part = Part(first: bool, last: bool, names: Option<seq<Name>>)

  // -- One message, one map

  function Marked(m: Cfgs): Cfgs {
    map k | k in m :: m[k].(enable := false)
  }

  function NameOne(m: Cfgs, x: Name): Cfgs {
    if x.sigid in m && m[x.sigid].enable then m else m[x.sigid := Cfg(x.action, true)]
  }

  function Named(m: Cfgs, names: seq<Name>): Cfgs {
    if names == [] then m else NameOne(Named(m, names[..|names| - 1]), names[|names| - 1])
  }

  /** A message before its sweep. */
  function Applied(m: Cfgs, p: Part): Cfgs {
    if p.names.None? then m else Named(if p.first then Marked(m) else m, p.names.value)
  }

  function Stale(m: Cfgs): set<nat> {
    set k | k in m && !m[k].enable
  }

  /** The sweep removes disabled entries, in the map's order, while the message may delete more. */
  ghost predicate Swept(m: Cfgs, cnt: nat, m': Cfgs, cnt': nat) {
    cnt <= MAX_DLPCFG_DELETE && exists gone: set<nat> :: SweptOf(m, cnt, m', cnt', gone)
  }

  ghost predicate SweptOf(m: Cfgs, cnt: nat, m': Cfgs, cnt': nat, gone: set<nat>)
    requires cnt <= MAX_DLPCFG_DELETE
  {
    && gone <= Stale(m) && m' == m - gone
    && cnt' == cnt + |gone|
    && |gone| == Least(|Stale(m)|, MAX_DLPCFG_DELETE - cnt)
  }

  /** A message with its sweep, if it is the last one. */
  ghost predicate Configured(m: Cfgs, p: Part, cnt: nat, m': Cfgs, cnt': nat) {
    if p.last && p.names.Some? then Swept(Applied(m, p), cnt, m', cnt') else m' == Applied(m, p) && cnt' == cnt
  }

  lemma SubsetSize(a: set<nat>, b: set<nat>)
    requires a <= b
    ensures |a| <= |b| && (|a| == |b| ==> a == b)
  {
    assert b == a + (b - a);
  }

  /** In the middle of a sweep: what is gone, and what is still to be visited. */
  ghost predicate Sweeping(m: Cfgs, cnt: nat, left: set<nat>, gone: set<nat>) {
    && left <= m.Keys && gone <= Stale(m) && gone !! left && cnt + |gone| <= MAX_DLPCFG_DELETE
    && (cnt + |gone| < MAX_DLPCFG_DELETE ==> Stale(m) <= gone + left)
  }

  lemma SweepPasses(m: Cfgs, cnt: nat, left: set<nat>, gone: set<nat>, k: nat)
    requires Sweeping(m, cnt, left, gone) && k in left
    requires m[k].enable || cnt + |gone| == MAX_DLPCFG_DELETE
    ensures Sweeping(m, cnt, left - {k}, gone)
  {
  }

  lemma SweepTakes(m: Cfgs, cnt: nat, left: set<nat>, gone: set<nat>, k: nat)
    requires Sweeping(m, cnt, left, gone) && k in left
    requires !m[k].enable && cnt + |gone| < MAX_DLPCFG_DELETE
    ensures Sweeping(m, cnt, left - {k}, gone + {k}) && |gone + {k}| == |gone| + 1
    ensures m - gone - {k} == m - (gone + {k})
  {
  }

  lemma SweepEnds(m: Cfgs, cnt: nat, gone: set<nat>)
    requires Sweeping(m, cnt, {}, gone)
    ensures Swept(m, cnt, m - gone, cnt + |gone|)
  {
    SubsetSize(gone, Stale(m));
    assert cnt + |gone| < MAX_DLPCFG_DELETE ==> gone == Stale(m);
    assert SweptOf(m, cnt, m - gone, cnt + |gone|, gone);
  }

  class Endpoint {
    var cfgs: Cfgs

    constructor ()
      ensures cfgs == map[]
    {
      cfgs := map[];
    }

    method Mark()
      modifies this
      ensures cfgs == Marked(old(cfgs))
    {
      var left := cfgs.Keys;
      while left != {}
        invariant left <= cfgs.Keys == old(cfgs).Keys
        invariant forall k :: k in cfgs ==> cfgs[k] == if k in left then old(cfgs)[k] else old(cfgs)[k].(enable := false)
        decreases left
      {
        var k :| k in left;
        cfgs := cfgs[k := cfgs[k].(enable := false)];
        left := left - {k};
      }
    }

    method Enable(names: seq<Name>)
      modifies this
      ensures cfgs == Named(old(cfgs), names)
    {
      for i := 0 to |names|
        invariant cfgs == Named(old(cfgs), names[..i])
      {
        assert names[..i + 1][..i] == names[..i];
        var x := names[i];
        if x.sigid !in cfgs {
          cfgs := cfgs[x.sigid := Cfg(x.action, true)];
        } else if !cfgs[x.sigid].enable {
          cfgs := cfgs[x.sigid := Cfg(x.action, true)];
        }
      }
      assert names[..|names|] == names;
    }

    method Sweep(cnt: nat) returns (cnt': nat)
      requires cnt <= MAX_DLPCFG_DELETE
      modifies this
      ensures Swept(old(cfgs), cnt, cfgs, cnt')
    {
      cnt' := cnt;
      var left := cfgs.Keys;
      ghost var was, gone := cfgs, {};
      while left != {}
        invariant Sweeping(was, cnt, left, gone) && cfgs == was - gone && cnt' == cnt + |gone|
        decreases left
      {
        var k :| k in left;
        assert k in cfgs && cfgs[k] == was[k];
        if !cfgs[k].enable && cnt' < MAX_DLPCFG_DELETE {
          SweepTakes(was, cnt, left, gone, k);
          cfgs := cfgs - {k};
          gone := gone + {k};
          cnt' := cnt' + 1;
        } else {
          SweepPasses(was, cnt, left, gone, k);
        }
        left := left - {k};
      }
      SweepEnds(was, cnt, gone);
    }

    method Configure(p: Part, cnt: nat) returns (cnt': nat)
      requires cnt <= MAX_DLPCFG_DELETE
      modifies this
      ensures Configured(old(cfgs), p, cnt, cfgs, cnt')
      ensures p.names.None? ==> cfgs == old(cfgs) && cnt' == cnt
    {
      cnt' := cnt;
      if p.names.Some? {
        if p.first {
          Mark();
        }
        Enable(p.names.value);
        if p.last {
          cnt' := Sweep(cnt);
        }
      }
    }
  }

  // -- One message, all its endpoints

  /** The endpoints' maps before and after a message; `cnts` is the count of deletes, which starts
      at 0 and goes on from endpoint to endpoint. */
  ghost predicate InTurn(ms: seq<Cfgs>, p: Part, ms': seq<Cfgs>, cnts: seq<nat>) {
    && |ms'| == |ms| && |cnts| == |ms| + 1 && cnts[0] == 0
    && forall i :: 0 <= i < |ms| ==> Configured(ms[i], p, cnts[i], ms'[i], cnts[i + 1])
  }

  ghost function Values(eps: seq<Endpoint>): (vs: seq<Cfgs>)
    reads eps
    ensures |vs| == |eps| && forall i :: 0 <= i < |eps| ==> vs[i] == eps[i].cfgs
  {
    seq(|eps|, i requires 0 <= i < |eps| reads eps => eps[i].cfgs)
  }

  predicate AllDistinct(eps: seq<Endpoint>) {
    forall i, j :: 0 <= i < j < |eps| ==> eps[i] != eps[j]
  }

  lemma ConfiguredCount(m: Cfgs, p: Part, cnt: nat, m': Cfgs, cnt': nat)
    requires Configured(m, p, cnt, m', cnt') && cnt <= MAX_DLPCFG_DELETE
    ensures cnt <= cnt' <= MAX_DLPCFG_DELETE
  {
  }

  /** The loop of `dp_ctrl_cfg_dlp` over the endpoints found for a message's addresses. */
  method HandleMessage(eps: seq<Endpoint>, p: Part) returns (cnt: nat, ghost cnts: seq<nat>)
    requires AllDistinct(eps)
    modifies eps
    ensures InTurn(old(Values(eps)), p, Values(eps), cnts) && cnt == cnts[|eps|] <= MAX_DLPCFG_DELETE
  {
    cnt, cnts := 0, [0];
    ghost var was := Values(eps);
    for i := 0 to |eps|
      invariant |cnts| == i + 1 && cnts[0] == 0 && cnt == cnts[i] <= MAX_DLPCFG_DELETE
      invariant forall j :: 0 <= j < i ==> Configured(was[j], p, cnts[j], eps[j].cfgs, cnts[j + 1])
      invariant forall j :: i <= j < |eps| ==> eps[j].cfgs == was[j]
    {
      ghost var before := cnt;
      cnt := eps[i].Configure(p, cnt);
      ConfiguredCount(was[i], p, before, eps[i].cfgs, cnt);
      cnts := cnts + [cnt];
    }
  }

  // -- What the parts of a transfer come to

  /** Names added to what is in force; the first mention of an id counts. */
  function AlsoOne(f: map<nat, nat>, x: Name): map<nat, nat> {
    if x.sigid in f then f else f[x.sigid := x.action]
  }

  function Also(f: map<nat, nat>, names: seq<Name>): map<nat, nat> {
    if names == [] then f else AlsoOne(Also(f, names[..|names| - 1]), names[|names| - 1])
  }

  function FirstMentions(names: seq<Name>): map<nat, nat> {
    Also(map[], names)
  }

  /** The enabled entries. */
  function InForce(m: Cfgs): map<nat, nat> {
    map k | k in m && m[k].enable :: m[k].action
  }

  function Ids(names: seq<Name>): set<nat> {
    if names == [] then {} else Ids(names[..|names| - 1]) + {names[|names| - 1].sigid}
  }

  lemma NameOneInForce(m: Cfgs, x: Name)
    ensures InForce(NameOne(m, x)) == AlsoOne(InForce(m), x)
    ensures NameOne(m, x).Keys == m.Keys + {x.sigid}
  {
  }

  lemma {:induction false} NamedInForce(m: Cfgs, names: seq<Name>)
    ensures InForce(Named(m, names)) == Also(InForce(m), names)
    ensures Named(m, names).Keys == m.Keys + Ids(names)
    decreases |names|
  {
    if names != [] {
      var init, x := names[..|names| - 1], names[|names| - 1];
      NamedInForce(m, init);
      NameOneInForce(Named(m, init), x);
    }
  }

  lemma {:induction false} AlsoKeys(f: map<nat, nat>, names: seq<Name>)
    ensures Also(f, names).Keys == f.Keys + Ids(names)
    decreases |names|
  {
    if names != [] {
      var init, x := names[..|names| - 1], names[|names| - 1];
      AlsoKeys(f, init);
    }
  }

  lemma {:induction false} AlsoSplits(f: map<nat, nat>, a: seq<Name>, b: seq<Name>)
    ensures Also(f, a + b) == Also(Also(f, a), b)
    decreases |b|
  {
    if b == [] {
      assert a + b == a;
    } else {
      assert (a + b)[..|a + b| - 1] == a + b[..|b| - 1];
      AlsoSplits(f, a, b[..|b| - 1]);
    }
  }

  /** An id is in force with the action of its first mention, and only if it is mentioned. */
  lemma {:induction false} FirstMentionsMeans(names: seq<Name>, i: nat)
    requires i < |names| && forall j :: 0 <= j < i ==> names[j].sigid != names[i].sigid
    ensures names[i].sigid in FirstMentions(names) && FirstMentions(names)[names[i].sigid] == names[i].action
    ensures FirstMentions(names).Keys == Ids(names)
    decreases |names|
  {
    AlsoKeys(map[], names);
    var init := names[..|names| - 1];
    if i < |init| {
      FirstMentionsMeans(init, i);
    } else {
      AlsoKeys(map[], init);
      IdsMeans(init, names[i].sigid);
    }
  }

  predicate Carries(parts: seq<Part>) {
    forall i :: 0 <= i < |parts| ==> parts[i].names.Some?
  }

  /** A map after the parts, before the sweep of the last one. */
  function Gathered(m: Cfgs, parts: seq<Part>): Cfgs
    decreases |parts|
  {
    if parts == [] then m else Gathered(Applied(m, parts[0]), parts[1..])
  }

  function Effect(f: map<nat, nat>, parts: seq<Part>): map<nat, nat>
    requires Carries(parts)
    decreases |parts|
  {
    if parts == [] then f else Effect(Also(if parts[0].first then map[] else f, parts[0].names.value), parts[1..])
  }

  function AllNames(parts: seq<Part>): seq<Name>
    requires Carries(parts)
  {
    if parts == [] then [] else parts[0].names.value + AllNames(parts[1..])
  }

  lemma {:induction false} IdsSplit(a: seq<Name>, b: seq<Name>)
    ensures Ids(a + b) == Ids(a) + Ids(b)
    decreases |b|
  {
    if b == [] {
      assert a + b == a;
    } else {
      assert (a + b)[..|a + b| - 1] == a + b[..|b| - 1];
      IdsSplit(a, b[..|b| - 1]);
    }
  }

  lemma {:induction false} IdsMeans(names: seq<Name>, k: nat)
    ensures k in Ids(names) <==> exists i :: 0 <= i < |names| && names[i].sigid == k
    decreases |names|
  {
    if names != [] {
      IdsMeans(names[..|names| - 1], k);
    }
  }

  lemma {:induction false} GatheredInForce(m: Cfgs, parts: seq<Part>)
    requires Carries(parts)
    ensures InForce(Gathered(m, parts)) == Effect(InForce(m), parts)
    ensures Gathered(m, parts).Keys == m.Keys + Ids(AllNames(parts))
    decreases |parts|
  {
    if parts != [] {
      var p := parts[0];
      NamedInForce(if p.first then Marked(m) else m, p.names.value);
      assert InForce(Marked(m)) == map[] && Marked(m).Keys == m.Keys;
      GatheredInForce(Applied(m, p), parts[1..]);
      IdsSplit(p.names.value, AllNames(parts[1..]));
    }
  }

  /** The entries that are to be there, and no others. */
  function Exactly(f: map<nat, nat>): Cfgs {
    map k | k in f :: Cfg(f[k], true)
  }

  lemma SweptClean(g: Cfgs, cnt: nat, m': Cfgs, cnt': nat)
    requires Swept(g, cnt, m', cnt')
    ensures cnt' == cnt + Least(|Stale(g)|, MAX_DLPCFG_DELETE - cnt)
    ensures Stale(m') == {} <==> cnt + |Stale(g)| <= MAX_DLPCFG_DELETE
  {
    var gone :| SweptOf(g, cnt, m', cnt', gone);
    SubsetSize(gone, Stale(g));
    assert Stale(m') == Stale(g) - gone;
    assert Stale(m') == {} ==> gone == Stale(g) by {
      assert forall k | k in Stale(g) :: k in gone || k in Stale(m');
    }
  }

  lemma SweepKeepsForce(g: Cfgs, cnt: nat, m': Cfgs, cnt': nat)
    requires Swept(g, cnt, m', cnt')
    ensures InForce(m') == InForce(g)
    ensures m' == Exactly(InForce(g)) <==> cnt + |Stale(g)| <= MAX_DLPCFG_DELETE
  {
    var gone :| SweptOf(g, cnt, m', cnt', gone);
    assert InForce(m') == InForce(g);
    SweptClean(g, cnt, m', cnt');
    assert Stale(Exactly(InForce(g))) == {};
    assert Stale(m') == {} ==> m' == Exactly(InForce(m')) by {
      assert forall k | k in m' :: m'[k].enable || k in Stale(m');
    }
  }

  predicate OneStart(parts: seq<Part>) {
    parts != [] && parts[0].first && NoStart(parts[1..])
  }

  predicate NoStart(parts: seq<Part>) {
    forall i :: 0 <= i < |parts| ==> !parts[i].first
  }

  lemma {:induction false} EffectWithoutStart(f: map<nat, nat>, parts: seq<Part>)
    requires Carries(parts) && NoStart(parts)
    ensures Effect(f, parts) == Also(f, AllNames(parts))
    decreases |parts|
  {
    if parts != [] {
      EffectWithoutStart(Also(f, parts[0].names.value), parts[1..]);
      AlsoSplits(f, parts[0].names.value, AllNames(parts[1..]));
    }
  }

  lemma OneStartEffect(parts: seq<Part>)
    requires OneStart(parts) && Carries(parts)
    ensures Effect(map[], parts) == FirstMentions(AllNames(parts))
    ensures FirstMentions(AllNames(parts)).Keys == Ids(AllNames(parts))
  {
    EffectWithoutStart(Also(map[], parts[0].names.value), parts[1..]);
    AlsoSplits(map[], parts[0].names.value, AllNames(parts[1..]));
    AlsoKeys(map[], AllNames(parts));
  }

  // -- A transfer, message by message

  /** `states[j]` are the endpoints' maps before message `j`. */
  ghost predicate IsTransfer(states: seq<seq<Cfgs>>, parts: seq<Part>, cnts: seq<seq<nat>>) {
    && |states| == |parts| + 1 && |cnts| == |parts|
    && forall j :: 0 <= j < |parts| ==> InTurn(states[j], parts[j], states[j + 1], cnts[j])
  }

  /** END is on the last part, and on no other. */
  predicate EndsOnce(parts: seq<Part>) {
    parts != [] && forall j :: 0 <= j < |parts| ==> (parts[j].last <==> j == |parts| - 1)
  }

  lemma {:induction false} GatheredSnoc(m: Cfgs, parts: seq<Part>, p: Part)
    ensures Gathered(m, parts + [p]) == Applied(Gathered(m, parts), p)
    decreases |parts|
  {
    if parts == [] {
      assert parts + [p] == [p] && [p][1..] == [];
    } else {
      assert (parts + [p])[1..] == parts[1..] + [p];
      GatheredSnoc(Applied(m, parts[0]), parts[1..], p);
    }
  }

  /** Until END, the messages gather. */
  lemma {:induction false} GathersSoFar(states: seq<seq<Cfgs>>, parts: seq<Part>, cnts: seq<seq<nat>>, j: nat, i: nat)
    requires IsTransfer(states, parts, cnts) && EndsOnce(parts) && j < |parts| && i < |states[0]|
    ensures |states[j]| == |states[0]| && states[j][i] == Gathered(states[0][i], parts[..j])
    decreases j
  {
    if j > 0 {
      GathersSoFar(states, parts, cnts, j - 1, i);
      assert InTurn(states[j - 1], parts[j - 1], states[j], cnts[j - 1]) && !parts[j - 1].last;
      assert Configured(states[j - 1][i], parts[j - 1], cnts[j - 1][i], states[j][i], cnts[j - 1][i + 1]);
      assert parts[..j] == parts[..j - 1] + [parts[j - 1]];
      GatheredSnoc(states[0][i], parts[..j - 1], parts[j - 1]);
    }
  }

  /** The last message sweeps what was gathered, from a count of 0 on. */
  lemma TransferSweeps(states: seq<seq<Cfgs>>, parts: seq<Part>, cnts: seq<seq<nat>>, i: nat)
    requires IsTransfer(states, parts, cnts) && EndsOnce(parts) && Carries(parts) && i < |states[0]|
    ensures var n := |parts| - 1;
            && |states[|parts|]| == |states[0]| && |cnts[n]| == |states[0]| + 1 && cnts[n][0] == 0
            && Swept(Gathered(states[0][i], parts), cnts[n][i], states[|parts|][i], cnts[n][i + 1])
  {
    var n := |parts| - 1;
    GathersSoFar(states, parts, cnts, n, i);
    assert InTurn(states[n], parts[n], states[n + 1], cnts[n]);
    assert parts == parts[..n] + [parts[n]];
    GatheredSnoc(states[0][i], parts[..n], parts[n]);
  }

  /** Map by map, the number of ids held or given beside the ones to keep. */
  function Surplus(ms: seq<Cfgs>, given: set<nat>, keep: set<nat>): (cs: seq<nat>)
    ensures |cs| == |ms| && forall i :: 0 <= i < |ms| ==> cs[i] == |ms[i].Keys + given - keep|
  {
    seq(|ms|, i requires 0 <= i < |ms| => |ms[i].Keys + given - keep|)
  }

  function Sum(cs: seq<nat>, n: nat): nat
    requires n <= |cs|
  {
    if n == 0 then 0 else Sum(cs, n - 1) + cs[n - 1]
  }

  lemma {:induction false} SumGrows(cs: seq<nat>, i: nat, n: nat)
    requires i <= n <= |cs|
    ensures Sum(cs, i) <= Sum(cs, n)
    decreases n
  {
    if i < n {
      SumGrows(cs, i, n - 1);
    }
  }

  /** One that adds nothing, or leaves the sum so far within the bound. */
  predicate Within(cs: seq<nat>, i: nat, bound: nat)
    requires i < |cs|
  {
    cs[i] == 0 || Sum(cs, i + 1) <= bound
  }

  lemma {:induction false} SumFits(cs: seq<nat>, n: nat, bound: nat)
    requires n <= |cs| && forall i :: 0 <= i < n ==> Within(cs, i, bound)
    ensures Sum(cs, n) <= bound
    decreases n
  {
    if n > 0 {
      SumFits(cs, n - 1, bound);
      assert Within(cs, n - 1, bound);
    }
  }

  /** All within the bound one by one, exactly when all together. */
  lemma SumDecides(cs: seq<nat>, bound: nat)
    ensures (forall i :: 0 <= i < |cs| ==> Within(cs, i, bound)) <==> Sum(cs, |cs|) <= bound
  {
    if Sum(cs, |cs|) <= bound {
      forall i | 0 <= i < |cs|
        ensures Within(cs, i, bound)
      {
        SumGrows(cs, i + 1, |cs|);
      }
    }
    if forall i :: 0 <= i < |cs| ==> Within(cs, i, bound) {
      SumFits(cs, |cs|, bound);
    }
  }

  /** Each in turn takes what it needs, as far as the bound allows. */
  predicate Spends(c: nat, need: nat, c': nat, bound: nat) {
    c <= bound && c' == c + Least(need, bound - c)
  }

  lemma {:induction false} SpentSoFar(c: seq<nat>, cs: seq<nat>, bound: nat, i: nat)
    requires |c| == |cs| + 1 && c[0] == 0 && forall k :: 0 <= k < |cs| ==> Spends(c[k], cs[k], c[k + 1], bound)
    requires i <= |cs|
    ensures c[i] == Least(Sum(cs, i), bound)
    decreases i
  {
    if i > 0 {
      SpentSoFar(c, cs, bound, i - 1);
      assert Spends(c[i - 1], cs[i - 1], c[i - 1 + 1], bound);
    }
  }

  lemma GatheredStale(m: Cfgs, parts: seq<Part>)
    requires parts != [] && parts[0].first && Carries(parts)
    ensures InForce(Gathered(m, parts)) == Effect(map[], parts)
    ensures Stale(Gathered(m, parts)) == m.Keys + Ids(AllNames(parts)) - Effect(map[], parts).Keys
  {
    var g := Gathered(m, parts);
    GatheredInForce(m, parts);
    assert Effect(InForce(m), parts) == Effect(map[], parts);
    assert Stale(g) == g.Keys - InForce(g).Keys;
  }

  /** What the parts leave over in each of the maps. */
  function LeftOver(ms: seq<Cfgs>, parts: seq<Part>): (cs: seq<nat>)
    requires Carries(parts)
    ensures |cs| == |ms|
  {
    Surplus(ms, Ids(AllNames(parts)), Effect(map[], parts).Keys)
  }

  lemma StaleCount(m: Cfgs, parts: seq<Part>, ms: seq<Cfgs>, i: nat)
    requires parts != [] && parts[0].first && Carries(parts) && i < |ms| && ms[i] == m
    ensures |Stale(Gathered(m, parts))| == LeftOver(ms, parts)[i]
  {
    GatheredStale(m, parts);
  }

  /** The sweep of endpoint `i`, in numbers. */
  lemma SweepCounts(states: seq<seq<Cfgs>>, parts: seq<Part>, cnts: seq<seq<nat>>, i: nat)
    requires IsTransfer(states, parts, cnts) && EndsOnce(parts) && Carries(parts) && parts[0].first && i < |states[0]|
    ensures |states[|parts|]| == |states[0]| && |cnts[|parts| - 1]| == |states[0]| + 1 && cnts[|parts| - 1][0] == 0
    ensures var c, left := cnts[|parts| - 1], LeftOver(states[0], parts)[i];
            && Spends(c[i], left, c[i + 1], MAX_DLPCFG_DELETE)
            && InForce(states[|parts|][i]) == Effect(map[], parts)
            && (states[|parts|][i] == Exactly(Effect(map[], parts)) <==> c[i] + left <= MAX_DLPCFG_DELETE)
  {
    var n, g := |parts| - 1, Gathered(states[0][i], parts);
    TransferSweeps(states, parts, cnts, i);
    GatheredStale(states[0][i], parts);
    StaleCount(states[0][i], parts, states[0], i);
    SweptClean(g, cnts[n][i], states[n + 1][i], cnts[n][i + 1]);
    SweepKeepsForce(g, cnts[n][i], states[n + 1][i], cnts[n][i + 1]);
  }

  /** The count of deletes when the last message comes to endpoint `i`. */
  lemma BudgetSpent(states: seq<seq<Cfgs>>, parts: seq<Part>, cnts: seq<seq<nat>>, i: nat)
    requires IsTransfer(states, parts, cnts) && EndsOnce(parts) && Carries(parts) && parts[0].first && i < |states[0]|
    ensures |cnts[|parts| - 1]| == |states[0]| + 1
    ensures cnts[|parts| - 1][i] == Least(Sum(LeftOver(states[0], parts), i), MAX_DLPCFG_DELETE)
  {
    var c, cs := cnts[|parts| - 1], LeftOver(states[0], parts);
    SweepCounts(states, parts, cnts, i);
    forall k | 0 <= k < |cs|
      ensures Spends(c[k], cs[k], c[k + 1], MAX_DLPCFG_DELETE)
    {
      SweepCounts(states, parts, cnts, k);
    }
    SpentSoFar(c, cs, MAX_DLPCFG_DELETE, i);
  }

  lemma EndpointExactly(states: seq<seq<Cfgs>>, parts: seq<Part>, cnts: seq<seq<nat>>, i: nat)
    requires IsTransfer(states, parts, cnts) && EndsOnce(parts) && Carries(parts) && parts[0].first && i < |states[0]|
    ensures |states[|parts|]| == |states[0]| && InForce(states[|parts|][i]) == Effect(map[], parts)
    ensures states[|parts|][i] == Exactly(Effect(map[], parts)) <==>
            Within(LeftOver(states[0], parts), i, MAX_DLPCFG_DELETE)
  {
    SweepCounts(states, parts, cnts, i);
    BudgetSpent(states, parts, cnts, i);
  }

  ghost predicate AllExactly(ms: seq<Cfgs>, f: map<nat, nat>) {
    forall i :: 0 <= i < |ms| ==> ms[i] == Exactly(f)
  }

  lemma {:induction false} SameEndpoints(states: seq<seq<Cfgs>>, parts: seq<Part>, cnts: seq<seq<nat>>, j: nat)
    requires IsTransfer(states, parts, cnts) && j <= |parts|
    ensures |states[j]| == |states[0]|
    decreases j
  {
    if j > 0 {
      SameEndpoints(states, parts, cnts, j - 1);
      assert InTurn(states[j - 1], parts[j - 1], states[j], cnts[j - 1]);
    }
  }

  /** Mark and sweep over a whole transfer to any number of endpoints.  Whatever their maps held
      before, what is in force afterwards depends on the parts alone; and nothing else is left in
      any map (where the packet search would still find it) exactly when what is left over in all
      of them fits one message's delete budget. */
  lemma TransferExactly(states: seq<seq<Cfgs>>, parts: seq<Part>, cnts: seq<seq<nat>>)
    requires IsTransfer(states, parts, cnts) && EndsOnce(parts) && Carries(parts) && parts[0].first
    ensures forall i :: 0 <= i < |states[|parts|]| ==> InForce(states[|parts|][i]) == Effect(map[], parts)
    ensures AllExactly(states[|parts|], Effect(map[], parts)) <==>
            Sum(LeftOver(states[0], parts), |states[0]|) <= MAX_DLPCFG_DELETE
  {
    var ms', cs, f := states[|parts|], LeftOver(states[0], parts), Effect(map[], parts);
    SameEndpoints(states, parts, cnts, |parts|);
    forall i | 0 <= i < |ms'|
      ensures InForce(ms'[i]) == f
      ensures ms'[i] == Exactly(f) <==> Within(cs, i, MAX_DLPCFG_DELETE)
    {
      EndpointExactly(states, parts, cnts, i);
    }
    SumDecides(cs, MAX_DLPCFG_DELETE);
  }

  /** Map by map, the number of ids held beside the ones named. */
  function Unnamed(ms: seq<Cfgs>, ids: set<nat>): (cs: seq<nat>)
    ensures |cs| == |ms| && forall i :: 0 <= i < |ms| ==> cs[i] == |ms[i].Keys - ids|
  {
    seq(|ms|, i requires 0 <= i < |ms| => |ms[i].Keys - ids|)
  }

  lemma SurplusIsUnnamed(ms: seq<Cfgs>, ids: set<nat>)
    ensures Surplus(ms, ids, ids) == Unnamed(ms, ids)
  {
    forall i | 0 <= i < |ms|
      ensures Surplus(ms, ids, ids)[i] == Unnamed(ms, ids)[i]
    {
      assert ms[i].Keys + ids - ids == ms[i].Keys - ids;
    }
  }

  /** With START on the first part only: the ids named anywhere, each with the action of its
      first mention, and no other entry if and only if the endpoints' other ids fit the budget. */
  lemma MarkAndSweepExactly(states: seq<seq<Cfgs>>, parts: seq<Part>, cnts: seq<seq<nat>>)
    requires IsTransfer(states, parts, cnts) && EndsOnce(parts) && Carries(parts) && OneStart(parts)
    ensures forall i :: 0 <= i < |states[|parts|]| ==>
              InForce(states[|parts|][i]) == FirstMentions(AllNames(parts))
    ensures AllExactly(states[|parts|], FirstMentions(AllNames(parts))) <==>
            Sum(Unnamed(states[0], Ids(AllNames(parts))), |states[0]|) <= MAX_DLPCFG_DELETE
  {
    TransferExactly(states, parts, cnts);
    OneStartEffect(parts);
    SurplusIsUnnamed(states[0], Ids(AllNames(parts)));
  }

  // -- The sender

  datatype Message = Message(first: bool, last: bool, dlp: seq<Name>, waf: seq<Name>)

  /** How many DLP and WAF names go into a message that cannot take them all. */
  function CutDlp(num: nat, limit: nat): nat {
    if num <= limit / 2 then num else limit / 2
  }

  function CutWaf(num: nat, num1: nat, limit: nat): nat {
    if num1 > limit - CutDlp(num, limit) then limit - CutDlp(num, limit) else num1
  }

  /** The messages for the names left; `atStart`: no DLP name was sent yet.  `limits` are the names
      per message in force for each: 40 at first, and less after a message came out too long. */
  function Messages(dlp: seq<Name>, waf: seq<Name>, atStart: bool, limits: seq<nat>): seq<Message>
    decreases |limits|
  {
    if limits == [] then []
    else if |dlp| + |waf| <= limits[0] then [Message(atStart, true, dlp, waf)]
    else
      var a, b := CutDlp(|dlp|, limits[0]), CutWaf(|dlp|, |waf|, limits[0]);
      [Message(atStart, false, dlp[..a], waf[..b])] + Messages(dlp[a..], waf[b..], atStart && a == 0, limits[1..])
  }

  predicate Completed(ms: seq<Message>) {
    ms != [] && ms[|ms| - 1].last
  }

  function DlpPart(m: Message): Part {
    Part(m.first, m.last, Some(m.dlp))
  }

  function WafPart(m: Message): Part {
    Part(m.first, m.last, Some(m.waf))
  }

  function DlpParts(ms: seq<Message>): (ps: seq<Part>)
    ensures |ps| == |ms| && Carries(ps) && forall i :: 0 <= i < |ms| ==> ps[i] == DlpPart(ms[i])
  {
    seq(|ms|, i requires 0 <= i < |ms| => DlpPart(ms[i]))
  }

  function WafParts(ms: seq<Message>): (ps: seq<Part>)
    ensures |ps| == |ms| && Carries(ps) && forall i :: 0 <= i < |ms| ==> ps[i] == WafPart(ms[i])
  {
    seq(|ms|, i requires 0 <= i < |ms| => WafPart(ms[i]))
  }

  lemma HeadEffect(f: map<nat, nat>, ms: seq<Message>)
    requires ms != []
    ensures var f1 := if ms[0].first then map[] else f;
            && Effect(f, DlpParts(ms)) == Effect(Also(f1, ms[0].dlp), DlpParts(ms[1..]))
            && Effect(f, WafParts(ms)) == Effect(Also(f1, ms[0].waf), WafParts(ms[1..]))
  {
    assert DlpParts(ms)[1..] == DlpParts(ms[1..]) && WafParts(ms)[1..] == WafParts(ms[1..]);
  }

  /** The first message and the rest. */
  lemma MessagesUnfold(dlp: seq<Name>, waf: seq<Name>, atStart: bool, limits: seq<nat>)
    requires Completed(Messages(dlp, waf, atStart, limits)) && |dlp| + |waf| > limits[0]
    ensures var a, b := CutDlp(|dlp|, limits[0]), CutWaf(|dlp|, |waf|, limits[0]);
            var ms, rest := Messages(dlp, waf, atStart, limits), Messages(dlp[a..], waf[b..], atStart && a == 0, limits[1..]);
            && ms[0] == Message(atStart, false, dlp[..a], waf[..b]) && ms[1..] == rest && Completed(rest)
  {
    var a, b := CutDlp(|dlp|, limits[0]), CutWaf(|dlp|, |waf|, limits[0]);
    var rest := Messages(dlp[a..], waf[b..], atStart && a == 0, limits[1..]);
    assert rest != [] ==> Messages(dlp, waf, atStart, limits)[1..] == rest;
  }

  lemma AlsoCut(f: map<nat, nat>, names: seq<Name>, a: nat)
    requires a <= |names|
    ensures Also(Also(f, names[..a]), names[a..]) == Also(f, names)
  {
    assert names[..a] + names[a..] == names;
    AlsoSplits(f, names[..a], names[a..]);
  }

  /** Once a DLP name is sent, the messages carry on where the last one stopped. */
  lemma {:induction false} LaterMessages(f: map<nat, nat>, f1: map<nat, nat>, dlp: seq<Name>, waf: seq<Name>, limits: seq<nat>)
    requires Completed(Messages(dlp, waf, false, limits))
    ensures Effect(f, DlpParts(Messages(dlp, waf, false, limits))) == Also(f, dlp)
    ensures Effect(f1, WafParts(Messages(dlp, waf, false, limits))) == Also(f1, waf)
    decreases |limits|
  {
    var ms := Messages(dlp, waf, false, limits);
    HeadEffect(f, ms);
    HeadEffect(f1, ms);
    if |dlp| + |waf| > limits[0] {
      MessagesUnfold(dlp, waf, false, limits);
      var a, b := CutDlp(|dlp|, limits[0]), CutWaf(|dlp|, |waf|, limits[0]);
      LaterMessages(Also(f, dlp[..a]), Also(f1, waf[..b]), dlp[a..], waf[b..], limits[1..]);
      AlsoCut(f, dlp, a);
      AlsoCut(f1, waf, b);
    }
  }

  /** The DLP side of a completed transfer comes to all the DLP names, in any case. */
  lemma {:induction false} DlpSide(f: map<nat, nat>, dlp: seq<Name>, waf: seq<Name>, limits: seq<nat>)
    requires Completed(Messages(dlp, waf, true, limits))
    ensures Effect(f, DlpParts(Messages(dlp, waf, true, limits))) == FirstMentions(dlp)
    decreases |limits|
  {
    var ms := Messages(dlp, waf, true, limits);
    HeadEffect(f, ms);
    if |dlp| + |waf| > limits[0] {
      MessagesUnfold(dlp, waf, true, limits);
      var a, b := CutDlp(|dlp|, limits[0]), CutWaf(|dlp|, |waf|, limits[0]);
      if a == 0 {
        assert dlp[0..] == dlp;
        DlpSide(Also(map[], dlp[..a]), dlp, waf[b..], limits[1..]);
      } else {
        LaterMessages(Also(map[], dlp[..a]), map[], dlp[a..], waf[b..], limits[1..]);
        AlsoCut(map[], dlp, a);
      }
    }
  }

  /** START goes with the first message only. */
  predicate StartsOnce(dlp: seq<Name>, waf: seq<Name>, limit: nat) {
    |dlp| + |waf| <= limit || CutDlp(|dlp|, limit) > 0
  }

  lemma WafSide(f: map<nat, nat>, dlp: seq<Name>, waf: seq<Name>, limits: seq<nat>)
    requires Completed(Messages(dlp, waf, true, limits)) && StartsOnce(dlp, waf, limits[0])
    ensures Effect(f, WafParts(Messages(dlp, waf, true, limits))) == FirstMentions(waf)
  {
    var ms := Messages(dlp, waf, true, limits);
    HeadEffect(f, ms);
    if |dlp| + |waf| > limits[0] {
      MessagesUnfold(dlp, waf, true, limits);
      var a, b := CutDlp(|dlp|, limits[0]), CutWaf(|dlp|, |waf|, limits[0]);
      LaterMessages(map[], Also(map[], waf[..b]), dlp[a..], waf[b..], limits[1..]);
      AlsoCut(map[], waf, b);
    }
  }

  /** Until a DLP name goes out, the next message starts afresh. */
  lemma StartsAgain(f: map<nat, nat>, dlp: seq<Name>, waf: seq<Name>, limits: seq<nat>, b: nat)
    requires Completed(Messages(dlp, waf, true, limits)) && !StartsOnce(dlp, waf, limits[0])
    requires b == CutWaf(|dlp|, |waf|, limits[0])
    ensures Completed(Messages(dlp, waf[b..], true, limits[1..]))
    ensures Effect(f, WafParts(Messages(dlp, waf, true, limits))) ==
            Effect(Also(map[], waf[..b]), WafParts(Messages(dlp, waf[b..], true, limits[1..])))
  {
    MessagesUnfold(dlp, waf, true, limits);
    HeadEffect(f, Messages(dlp, waf, true, limits));
    assert dlp[0..] == dlp;
  }

  /** How many WAF names have gone out before the last START. */
  function Forgotten(dlp: seq<Name>, waf: seq<Name>, limits: seq<nat>): (n: nat)
    ensures n <= |waf|
    decreases |limits|
  {
    if limits == [] || StartsOnce(dlp, waf, limits[0]) then 0
    else var b := CutWaf(|dlp|, |waf|, limits[0]); b + Forgotten(dlp, waf[b..], limits[1..])
  }

  lemma ForgottenTail(dlp: seq<Name>, waf: seq<Name>, limits: seq<nat>, b: nat)
    requires limits != [] && !StartsOnce(dlp, waf, limits[0]) && b == CutWaf(|dlp|, |waf|, limits[0])
    ensures waf[Forgotten(dlp, waf, limits)..] == waf[b..][Forgotten(dlp, waf[b..], limits[1..])..]
  {
  }

  /** The WAF side comes to the names that go out from the last START on. */
  lemma {:induction false} WafSideIs(f: map<nat, nat>, dlp: seq<Name>, waf: seq<Name>, limits: seq<nat>)
    requires Completed(Messages(dlp, waf, true, limits))
    ensures Effect(f, WafParts(Messages(dlp, waf, true, limits))) == FirstMentions(waf[Forgotten(dlp, waf, limits)..])
    decreases |limits|
  {
    if StartsOnce(dlp, waf, limits[0]) {
      WafSide(f, dlp, waf, limits);
      assert waf[0..] == waf;
    } else {
      var b := CutWaf(|dlp|, |waf|, limits[0]);
      StartsAgain(f, dlp, waf, limits, b);
      WafSideIs(Also(map[], waf[..b]), dlp, waf[b..], limits[1..]);
      ForgottenTail(dlp, waf, limits, b);
    }
  }

  predicate DistinctIds(names: seq<Name>) {
    forall i, j :: 0 <= i < j < |names| ==> names[i].sigid != names[j].sigid
  }

  /** Dropping names changes what a list of distinct ids comes to. */
  lemma DroppedShow(names: seq<Name>, n: nat)
    requires DistinctIds(names) && n <= |names|
    ensures FirstMentions(names[n..]) == FirstMentions(names) <==> n == 0
  {
    AlsoKeys(map[], names);
    AlsoKeys(map[], names[n..]);
    if n == 0 {
      assert names[0..] == names;
    } else {
      IdsMeans(names, names[0].sigid);
      IdsMeans(names[n..], names[0].sigid);
    }
  }

  /** Nothing is forgotten exactly when START is sent once, or no WAF name goes out before the
      last one because there is none. */
  lemma ForgottenExactly(dlp: seq<Name>, waf: seq<Name>, limits: seq<nat>)
    requires Completed(Messages(dlp, waf, true, limits)) && limits[0] > 0
    ensures Forgotten(dlp, waf, limits) == 0 <==> StartsOnce(dlp, waf, limits[0]) || waf == []
  {
  }

  /** The WAF side comes to all the WAF names if and only if the names from the last START on come
      to the same; for distinct ids, if and only if START is sent once (or there are none).  START
      repeats until a DLP name has gone out, and each one forgets the WAF names before it. */
  lemma WafSideExactly(dlp: seq<Name>, waf: seq<Name>, limits: seq<nat>)
    requires Completed(Messages(dlp, waf, true, limits)) && limits[0] > 0
    ensures Effect(map[], WafParts(Messages(dlp, waf, true, limits))) == FirstMentions(waf)
            <==> FirstMentions(waf[Forgotten(dlp, waf, limits)..]) == FirstMentions(waf)
    ensures DistinctIds(waf) ==>
              (Effect(map[], WafParts(Messages(dlp, waf, true, limits))) == FirstMentions(waf)
               <==> StartsOnce(dlp, waf, limits[0]) || waf == [])
  {
    WafSideIs(map[], dlp, waf, limits);
    ForgottenExactly(dlp, waf, limits);
    if DistinctIds(waf) {
      DroppedShow(waf, Forgotten(dlp, waf, limits));
    }
  }

  /** For one: 41 WAF names and no DLP name.  The second message forgets the first forty. */
  lemma FortyOneWafNames(waf: seq<Name>)
    requires waf == seq(41, i requires 0 <= i => Name(i, 1))
    ensures Completed(Messages([], waf, true, [40, 40]))
    ensures Effect(map[], WafParts(Messages([], waf, true, [40, 40]))) != FirstMentions(waf)
  {
    assert [40, 40][1..] == [40];
    assert Messages([], waf[40..], true, [40])[0].last;
    WafSideExactly([], waf, [40, 40]);
  }

  lemma {:induction false} MessagesEndOnce(dlp: seq<Name>, waf: seq<Name>, atStart: bool, limits: seq<nat>)
    requires Completed(Messages(dlp, waf, atStart, limits))
    ensures var ms := Messages(dlp, waf, atStart, limits);
            forall j :: 0 <= j < |ms| ==> (ms[j].last <==> j == |ms| - 1)
    decreases |limits|
  {
    if |dlp| + |waf| > limits[0] {
      MessagesUnfold(dlp, waf, atStart, limits);
      var a, b := CutDlp(|dlp|, limits[0]), CutWaf(|dlp|, |waf|, limits[0]);
      MessagesEndOnce(dlp[a..], waf[b..], atStart && a == 0, limits[1..]);
      var ms := Messages(dlp, waf, atStart, limits);
      assert forall j :: 0 < j < |ms| ==> ms[j] == ms[1..][j - 1];
    }
  }

  /** From the agent's lists to the endpoints' maps, whatever these held: handled message by
      message, the DLP names always come into force; the WAF names do if and only if the ones from
      the last START on come to the same, which for distinct ids means that START is sent once. */
  lemma AgentToDataPath(dlp: seq<Name>, waf: seq<Name>, limits: seq<nat>, ms: seq<Message>,
                        ds: seq<seq<Cfgs>>, dc: seq<seq<nat>>, ws: seq<seq<Cfgs>>, wc: seq<seq<nat>>, i: nat)
    requires ms == Messages(dlp, waf, true, limits) && Completed(ms) && limits[0] > 0
    requires IsTransfer(ds, DlpParts(ms), dc) && IsTransfer(ws, WafParts(ms), wc)
    requires i < |ds[|ms|]| && i < |ws[|ms|]|
    ensures InForce(ds[|ms|][i]) == FirstMentions(dlp)
    ensures InForce(ws[|ms|][i]) == FirstMentions(waf)
            <==> FirstMentions(waf[Forgotten(dlp, waf, limits)..]) == FirstMentions(waf)
    ensures DistinctIds(waf) ==>
              (InForce(ws[|ms|][i]) == FirstMentions(waf) <==> StartsOnce(dlp, waf, limits[0]) || waf == [])
  {
    MessagesEndOnce(dlp, waf, true, limits);
    TransferExactly(ds, DlpParts(ms), dc);
    TransferExactly(ws, WafParts(ms), wc);
    DlpSide(map[], dlp, waf, limits);
    WafSideExactly(dlp, waf, limits);
  }

  // -- When the sender's loop ends

  /** The names per message never grow, and are never 0. */
  predicate Shrinking(limits: seq<nat>) {
    && (forall i :: 0 <= i < |limits| ==> limits[i] >= 1)
    && (forall i, j :: 0 <= i < j < |limits| ==> limits[j] <= limits[i])
  }

  /** How many DLP names are left when it comes to one name per message; 0 if it never does. */
  function LeftAtOne(dlp: seq<Name>, waf: seq<Name>, limits: seq<nat>): nat
    decreases |limits|
  {
    if limits == [] || |dlp| + |waf| <= limits[0] then 0
    else if limits[0] == 1 then |dlp|
    else LeftAtOne(dlp[CutDlp(|dlp|, limits[0])..], waf[CutWaf(|dlp|, |waf|, limits[0])..], limits[1..])
  }

  /** With one name per message, half of it rounds to no DLP name at all: only the last message
      can carry one. */
  lemma {:induction false} OnePerMessageExactly(dlp: seq<Name>, waf: seq<Name>, atStart: bool, limits: seq<nat>)
    requires |limits| > |waf| && forall i :: 0 <= i < |limits| ==> limits[i] == 1
    ensures Completed(Messages(dlp, waf, atStart, limits)) <==> |dlp| <= 1
    decreases |limits|
  {
    if |dlp| + |waf| > 1 {
      var rest := limits[1..];
      assert dlp[0..] == dlp;
      if waf != [] {
        var b := CutWaf(|dlp|, |waf|, 1);
        OnePerMessageExactly(dlp[CutDlp(|dlp|, 1)..], waf[b..], atStart && CutDlp(|dlp|, 1) == 0, rest);
      } else {
        NeverEnds(dlp, atStart, limits);
      }
    }
  }

  lemma {:induction false} NeverEnds(dlp: seq<Name>, atStart: bool, limits: seq<nat>)
    requires |dlp| > 1 && forall i :: 0 <= i < |limits| ==> limits[i] == 1
    ensures !Completed(Messages(dlp, [], atStart, limits)) && |Messages(dlp, [], atStart, limits)| == |limits|
    decreases |limits|
  {
    if limits != [] {
      assert dlp[0..] == dlp;
      NeverEnds(dlp, atStart, limits[1..]);
    }
  }

  /** Given messages enough, they get through if and only if at most one DLP name is left when it
      comes to one name per message. */
  lemma {:induction false} MessagesComplete(dlp: seq<Name>, waf: seq<Name>, atStart: bool, limits: seq<nat>)
    requires |limits| > |dlp| + |waf| && Shrinking(limits)
    ensures Completed(Messages(dlp, waf, atStart, limits)) <==> LeftAtOne(dlp, waf, limits) <= 1
    decreases |limits|
  {
    if |dlp| + |waf| > limits[0] {
      if limits[0] == 1 {
        OnePerMessageExactly(dlp, waf, atStart, limits);
      } else {
        var a, b := CutDlp(|dlp|, limits[0]), CutWaf(|dlp|, |waf|, limits[0]);
        CutsSomething(|dlp|, |waf|, limits[0]);
        CompletedLater(dlp, waf, atStart, limits);
        MessagesComplete(dlp[a..], waf[b..], atStart && a == 0, limits[1..]);
      }
    }
  }

  lemma CutsSomething(num: nat, num1: nat, limit: nat)
    requires limit >= 2 && num + num1 > limit
    ensures CutDlp(num, limit) + CutWaf(num, num1, limit) > 0
  {
  }

  lemma ConsCompleted(m: Message, rest: seq<Message>)
    requires !m.last
    ensures Completed([m] + rest) <==> Completed(rest)
  {
  }

  lemma CompletedLater(dlp: seq<Name>, waf: seq<Name>, atStart: bool, limits: seq<nat>)
    requires limits != [] && |dlp| + |waf| > limits[0]
    ensures var a, b := CutDlp(|dlp|, limits[0]), CutWaf(|dlp|, |waf|, limits[0]);
            Completed(Messages(dlp, waf, atStart, limits)) <==>
            Completed(Messages(dlp[a..], waf[b..], atStart && a == 0, limits[1..]))
  {
    var a, b := CutDlp(|dlp|, limits[0]), CutWaf(|dlp|, |waf|, limits[0]);
    ConsCompleted(Message(atStart, false, dlp[..a], waf[..b]), Messages(dlp[a..], waf[b..], atStart && a == 0, limits[1..]));
  }

  // -- The sender's loop

  const MAX_MSG_SIZE: nat := 8120
  const RULES_PER_MSG: nat := 40

  /** The next message under a limit. */
  function NextMessage(dlp: seq<Name>, waf: seq<Name>, atStart: bool, limit: nat): Message {
    if |dlp| + |waf| <= limit then Message(atStart, true, dlp, waf)
    else Message(atStart, false, dlp[..CutDlp(|dlp|, limit)], waf[..CutWaf(|dlp|, |waf|, limit)])
  }

  /** A message that cannot take all names carries DLP names up to half its limit, and WAF names up
      to its limit; whichever is short of that carries all of its kind. */
  lemma MessageShares(dlp: seq<Name>, waf: seq<Name>, atStart: bool, limit: nat)
    requires |dlp| + |waf| > limit
    ensures var m := NextMessage(dlp, waf, atStart, limit);
            && !m.last && m.dlp <= dlp && m.waf <= waf
            && 2 * |m.dlp| <= limit && (m.dlp == dlp || limit <= 2 * |m.dlp| + 1)
            && |m.dlp| + |m.waf| <= limit && (m.waf == waf || |m.dlp| + |m.waf| == limit)
  {
    var m := NextMessage(dlp, waf, atStart, limit);
    assert |m.dlp| == |dlp| ==> m.dlp == dlp;
    assert |m.waf| == |waf| ==> m.waf == waf;
  }

  /** The limit after a message of `sz` bytes with `n` names came out too long. */
  function Shrunk(limit: nat, sz: nat, n: nat): int
    requires n > 0
  {
    var rules := MAX_MSG_SIZE / (sz / n + 1);
    if rules == limit then rules - 1 else rules
  }

  lemma DivBelow(x: nat, d: nat, n: nat)
    requires d > 0 && x < n * d
    ensures x / d < n
  {
    var q := x / d;
    assert q * d <= x;
    assert q >= n ==> q * d >= n * d;
  }

  lemma ShrunkIsLess(limit: nat, sz: nat, n: nat)
    requires 0 < n <= limit && sz > MAX_MSG_SIZE
    ensures 0 <= Shrunk(limit, sz, n) < limit
  {
    var d := sz / n + 1;
    assert sz < n * d by {
      assert sz == n * (sz / n) + sz % n;
    }
    DivBelow(MAX_MSG_SIZE, d, n);
  }

  /** What is still to be sent; `atStart`: no DLP name was sent yet. */
  datatype Left = Left(dlp: seq<Name>, waf: seq<Name>, atStart: bool)

  function Next(l: Left, limit: nat): Message {
    NextMessage(l.dlp, l.waf, l.atStart, limit)
  }

  function Names(m: Message): nat {
    |m.dlp| + |m.waf|
  }

  function Total(l: Left): nat {
    |l.dlp| + |l.waf|
  }

  function NextLeft(l: Left, limit: nat): Left {
    var m := Next(l, limit);
    Left(l.dlp[|m.dlp|..], l.waf[|m.waf|..], l.atStart && m.dlp == [])
  }

  /** A message is short enough under some limit, or is too long whatever the limit, or is too
      long without a name in it, by whose number the code then divides. */
  datatype Fitting = Fits(limit: nat) | NeverFits | NoNames

  /** The retries for one message. */
  function Fit(l: Left, limit: nat, size: Message -> nat): (f: Fitting)
    ensures f.Fits? ==> 0 < f.limit <= limit && size(Next(l, f.limit)) <= MAX_MSG_SIZE
    decreases limit
  {
    var m := Next(l, limit);
    if limit == 0 then NeverFits
    else if size(m) <= MAX_MSG_SIZE then Fits(limit)
    else if Names(m) == 0 then NoNames
    else
      ShrunkIsLess(limit, size(m), Names(m));
      Fit(l, Shrunk(limit, size(m), Names(m)), size)
  }

  lemma {:induction false} FitIsStable(l: Left, limit: nat, size: Message -> nat)
    requires Fit(l, limit, size).Fits?
    ensures Fit(l, Fit(l, limit, size).limit, size) == Fit(l, limit, size)
    decreases limit
  {
    var m := Next(l, limit);
    if size(m) > MAX_MSG_SIZE {
      ShrunkIsLess(limit, size(m), Names(m));
      FitIsStable(l, Shrunk(limit, size(m), Names(m)), size);
    }
  }

  /** What is made of a message when so much is left and so many names go into one. */
  type Fitter = (Left, nat) -> Fitting

  function Retries(size: Message -> nat): Fitter {
    (l: Left, limit: nat) => Fit(l, limit, size)
  }

  /** The limit found is no larger than the one tried, and found again when tried. */
  ghost predicate Proper(fit: Fitter) {
    forall l, limit :: fit(l, limit).Fits? ==>
      0 < fit(l, limit).limit <= limit && fit(l, fit(l, limit).limit) == fit(l, limit)
  }

  lemma RetriesAreProper(size: Message -> nat)
    ensures Proper(Retries(size))
  {
    forall l, limit | Fit(l, limit, size).Fits?
      ensures Fit(l, Fit(l, limit, size).limit, size) == Fit(l, limit, size)
    {
      FitIsStable(l, limit, size);
    }
  }

  datatype SendResult = AllSent | TooLong | SendFailed | DividedByZero | OutOfRange

  /** The error for a message that never fits names the next name of either list, present or not. */
  function Refusal(l: Left): SendResult {
    if l.dlp == [] || l.waf == [] then OutOfRange else TooLong
  }

  /** How the loop ends when the first `sends` sends succeed and the next one does not. */
  function Result(l: Left, limit: nat, fit: Fitter, sends: nat): SendResult
    decreases sends
  {
    match fit(l, limit)
    case NeverFits => Refusal(l)
    case NoNames => DividedByZero
    case Fits(n) =>
      if sends == 0 then SendFailed
      else if Next(l, n).last then AllSent
      else Result(NextLeft(l, n), n, fit, sends - 1)
  }

  /** The messages that go out. */
  function Sent(l: Left, limit: nat, fit: Fitter, sends: nat): seq<Message>
    decreases sends
  {
    match fit(l, limit)
    case Fits(n) =>
      if sends == 0 then []
      else [Next(l, n)] + if Next(l, n).last then [] else Sent(NextLeft(l, n), n, fit, sends - 1)
    case _ => []
  }

  /** The names per message in force for each of them. */
  function Limits(l: Left, limit: nat, fit: Fitter, sends: nat): seq<nat>
    decreases sends
  {
    match fit(l, limit)
    case Fits(n) =>
      if sends == 0 then []
      else [n] + if Next(l, n).last then [] else Limits(NextLeft(l, n), n, fit, sends - 1)
    case _ => []
  }

  lemma MessagesCons(l: Left, n: nat, rest: seq<nat>)
    ensures var m, l' := Next(l, n), NextLeft(l, n);
            Messages(l.dlp, l.waf, l.atStart, [n] + rest) ==
            [m] + if m.last then [] else Messages(l'.dlp, l'.waf, l'.atStart, rest)
  {
    assert ([n] + rest)[1..] == rest;
  }

  lemma {:induction false} SentAreMessages(l: Left, limit: nat, fit: Fitter, sends: nat)
    ensures Sent(l, limit, fit, sends) == Messages(l.dlp, l.waf, l.atStart, Limits(l, limit, fit, sends))
    decreases sends
  {
    if sends > 0 && fit(l, limit).Fits? {
      var n := fit(l, limit).limit;
      if Next(l, n).last {
        MessagesCons(l, n, []);
      } else {
        SentAreMessages(NextLeft(l, n), n, fit, sends - 1);
        MessagesCons(l, n, Limits(NextLeft(l, n), n, fit, sends - 1));
      }
    }
  }

  lemma ConsShrinks(n: nat, rest: seq<nat>)
    requires n > 0 && Shrinking(rest) && forall i :: 0 <= i < |rest| ==> rest[i] <= n
    ensures Shrinking([n] + rest)
  {
  }

  lemma {:induction false} LimitsShrink(l: Left, limit: nat, fit: Fitter, sends: nat)
    requires Proper(fit)
    ensures Shrinking(Limits(l, limit, fit, sends))
    ensures forall i :: 0 <= i < |Limits(l, limit, fit, sends)| ==> Limits(l, limit, fit, sends)[i] <= limit
    decreases sends
  {
    if sends > 0 && fit(l, limit).Fits? {
      var n := fit(l, limit).limit;
      if Next(l, n).last {
        ConsShrinks(n, []);
      } else {
        LimitsShrink(NextLeft(l, n), n, fit, sends - 1);
        ConsShrinks(n, Limits(NextLeft(l, n), n, fit, sends - 1));
      }
    }
  }

  predicate Short(ms: seq<Message>, size: Message -> nat) {
    forall i :: 0 <= i < |ms| ==> size(ms[i]) <= MAX_MSG_SIZE
  }

  lemma ConsShort(m: Message, ms: seq<Message>, size: Message -> nat)
    requires size(m) <= MAX_MSG_SIZE && Short(ms, size)
    ensures Short([m] + ms, size)
  {
  }

  ghost predicate Fitted(fit: Fitter, size: Message -> nat) {
    forall l, limit :: fit(l, limit).Fits? ==> size(Next(l, fit(l, limit).limit)) <= MAX_MSG_SIZE
  }

  /** Every message that goes out is short enough, and at most `sends` do. */
  lemma {:induction false} SentAreShort(l: Left, limit: nat, fit: Fitter, size: Message -> nat, sends: nat)
    requires Fitted(fit, size)
    ensures |Sent(l, limit, fit, sends)| <= sends && Short(Sent(l, limit, fit, sends), size)
    decreases sends
  {
    if sends > 0 && fit(l, limit).Fits? {
      var n := fit(l, limit).limit;
      if Next(l, n).last {
        ConsShort(Next(l, n), [], size);
      } else {
        SentAreShort(NextLeft(l, n), n, fit, size, sends - 1);
        ConsShort(Next(l, n), Sent(NextLeft(l, n), n, fit, sends - 1), size);
      }
    }
  }

  lemma {:induction false} AllSentIsCompleted(l: Left, limit: nat, fit: Fitter, sends: nat)
    ensures Result(l, limit, fit, sends) == AllSent <==> Completed(Sent(l, limit, fit, sends))
    decreases sends
  {
    if sends > 0 && fit(l, limit).Fits? {
      var n := fit(l, limit).limit;
      if !Next(l, n).last {
        AllSentIsCompleted(NextLeft(l, n), n, fit, sends - 1);
        ConsCompleted(Next(l, n), Sent(NextLeft(l, n), n, fit, sends - 1));
      }
    }
  }

  // -- What the sender makes of its input

  /** The loop comes to a message that carries no name and is not the last: from there on nothing
      changes any more. */
  predicate Stalls(l: Left, limit: nat, fit: Fitter)
    decreases Total(l)
  {
    match fit(l, limit)
    case Fits(n) => !Next(l, n).last && (Names(Next(l, n)) == 0 || Stalls(NextLeft(l, n), n, fit))
    case _ => false
  }

  lemma {:induction false} StalledStays(l: Left, limit: nat, fit: Fitter, sends: nat)
    requires Proper(fit) && fit(l, limit).Fits?
    requires !Next(l, fit(l, limit).limit).last && Names(Next(l, fit(l, limit).limit)) == 0
    ensures Result(l, limit, fit, sends) == SendFailed
    decreases sends
  {
    if sends > 0 {
      var n := fit(l, limit).limit;
      assert NextLeft(l, n) == l;
      StalledStays(l, n, fit, sends - 1);
    }
  }

  lemma {:induction false} StallsForever(l: Left, limit: nat, fit: Fitter, sends: nat)
    requires Proper(fit) && Stalls(l, limit, fit)
    ensures Result(l, limit, fit, sends) == SendFailed
    decreases sends
  {
    var n := fit(l, limit).limit;
    if Names(Next(l, n)) == 0 {
      StalledStays(l, limit, fit, sends);
    } else if sends > 0 {
      StallsForever(NextLeft(l, n), n, fit, sends - 1);
    }
  }

  lemma {:induction false} EndsInTime(l: Left, limit: nat, fit: Fitter, sends: nat)
    requires sends > Total(l) && !Stalls(l, limit, fit)
    ensures Result(l, limit, fit, sends) != SendFailed
    decreases sends
  {
    if fit(l, limit).Fits? {
      var n := fit(l, limit).limit;
      if !Next(l, n).last {
        EndsInTime(NextLeft(l, n), n, fit, sends - 1);
      }
    }
  }

  /** However many sends succeed, the loop goes on if and only if it stalls; otherwise it is over
      after at most one message more than there are names. */
  lemma HangsExactly(dlp: seq<Name>, waf: seq<Name>, size: Message -> nat)
    ensures var l, fit := Left(dlp, waf, true), Retries(size);
            && ((forall sends: nat :: Result(l, RULES_PER_MSG, fit, sends) == SendFailed) <==> Stalls(l, RULES_PER_MSG, fit))
            && (Result(l, RULES_PER_MSG, fit, |dlp| + |waf| + 1) == SendFailed <==> Stalls(l, RULES_PER_MSG, fit))
  {
    var l, fit := Left(dlp, waf, true), Retries(size);
    RetriesAreProper(size);
    if Stalls(l, RULES_PER_MSG, fit) {
      forall sends: nat
        ensures Result(l, RULES_PER_MSG, fit, sends) == SendFailed
      {
        StallsForever(l, RULES_PER_MSG, fit, sends);
      }
    } else {
      EndsInTime(l, RULES_PER_MSG, fit, Total(l) + 1);
    }
  }

  lemma {:induction false} FailedSendsAll(l: Left, limit: nat, fit: Fitter, sends: nat)
    requires Result(l, limit, fit, sends) == SendFailed
    ensures |Limits(l, limit, fit, sends)| == sends
    decreases sends
  {
    if sends > 0 {
      var n := fit(l, limit).limit;
      FailedSendsAll(NextLeft(l, n), n, fit, sends - 1);
    }
  }

  lemma {:induction false} OnesNeverComplete(dlp: seq<Name>, waf: seq<Name>, atStart: bool, limits: seq<nat>)
    requires |dlp| > 1 && forall i :: 0 <= i < |limits| ==> limits[i] == 1
    ensures !Completed(Messages(dlp, waf, atStart, limits))
    decreases |limits|
  {
    if limits != [] {
      assert dlp[0..] == dlp;
      CompletedLater(dlp, waf, atStart, limits);
      OnesNeverComplete(dlp, waf[CutWaf(|dlp|, |waf|, 1)..], atStart, limits[1..]);
    }
  }

  lemma {:induction false} CompletedLeftAtOne(dlp: seq<Name>, waf: seq<Name>, atStart: bool, limits: seq<nat>)
    requires Completed(Messages(dlp, waf, atStart, limits)) && Shrinking(limits)
    ensures LeftAtOne(dlp, waf, limits) <= 1
    decreases |limits|
  {
    if |dlp| + |waf| > limits[0] {
      var a, b := CutDlp(|dlp|, limits[0]), CutWaf(|dlp|, |waf|, limits[0]);
      CompletedLater(dlp, waf, atStart, limits);
      if limits[0] == 1 {
        if |dlp| > 1 {
          OnesNeverComplete(dlp, waf, atStart, limits);
        }
      } else {
        CompletedLeftAtOne(dlp[a..], waf[b..], atStart && a == 0, limits[1..]);
      }
    }
  }

  /** With sends enough, and no message too long whatever the limit, everything goes out if and
      only if at most one DLP name is left when it comes to one name per message. */
  lemma CompletesExactly(dlp: seq<Name>, waf: seq<Name>, size: Message -> nat, sends: nat)
    requires sends > |dlp| + |waf|
    ensures var l, fit := Left(dlp, waf, true), Retries(size);
            var r := Result(l, RULES_PER_MSG, fit, sends);
            r == AllSent || r == SendFailed ==>
              (r == AllSent <==> LeftAtOne(dlp, waf, Limits(l, RULES_PER_MSG, fit, sends)) <= 1)
  {
    var l, fit := Left(dlp, waf, true), Retries(size);
    var limits := Limits(l, RULES_PER_MSG, fit, sends);
    RetriesAreProper(size);
    AllSentIsCompleted(l, RULES_PER_MSG, fit, sends);
    SentAreMessages(l, RULES_PER_MSG, fit, sends);
    LimitsShrink(l, RULES_PER_MSG, fit, sends);
    if Result(l, RULES_PER_MSG, fit, sends) == SendFailed {
      FailedSendsAll(l, RULES_PER_MSG, fit, sends);
      MessagesComplete(dlp, waf, true, limits);
    } else if Result(l, RULES_PER_MSG, fit, sends) == AllSent {
      CompletedLeftAtOne(dlp, waf, true, limits);
    }
  }

  lemma HalfDivides(sz: nat)
    requires sz > MAX_MSG_SIZE
    ensures MAX_MSG_SIZE / (sz / 2 + 1) == if sz < 2 * MAX_MSG_SIZE then 1 else 0
  {
    var d := sz / 2 + 1;
    if sz < 2 * MAX_MSG_SIZE {
      assert MAX_MSG_SIZE < 2 * d && d <= MAX_MSG_SIZE;
      DivBelow(MAX_MSG_SIZE, d, 2);
      assert MAX_MSG_SIZE / d >= 1;
    } else {
      DivBelow(MAX_MSG_SIZE, d, 1);
    }
  }

  function Repeat(m: Message, n: nat): seq<Message> {
    seq(n, _ => m)
  }

  lemma FitOfTwo(a: Name, b: Name, size: Message -> nat)
    ensures var l := Left([a, b], [], true);
            var both, empty := size(Message(true, true, [a, b], [])), size(Message(true, false, [], []));
            Fit(l, RULES_PER_MSG, size) ==
            if both <= MAX_MSG_SIZE then Fits(RULES_PER_MSG)
            else if both >= 2 * MAX_MSG_SIZE then NeverFits
            else if empty <= MAX_MSG_SIZE then Fits(1) else NoNames
  {
    var l := Left([a, b], [], true);
    var both := size(Message(true, true, [a, b], []));
    assert Next(l, RULES_PER_MSG) == Message(true, true, [a, b], []);
    assert Next(l, 1) == Message(true, false, [], []);
    if both > MAX_MSG_SIZE {
      HalfDivides(both);
    }
  }

  /** Two DLP names and no WAF name, in all: both go out in one message; or that is so long that the
      code gives up, looking for a WAF name to complain about; or it comes to one name per message,
      half of which is no name.  Then a message without names is sent over and over, if it is short
      enough, and else divides by zero. */
  lemma TwoNamesExactly(a: Name, b: Name, size: Message -> nat, sends: nat)
    requires sends > 0
    ensures var both, empty := size(Message(true, true, [a, b], [])), size(Message(true, false, [], []));
            Result(Left([a, b], [], true), RULES_PER_MSG, Retries(size), sends) ==
            if both <= MAX_MSG_SIZE then AllSent
            else if both >= 2 * MAX_MSG_SIZE then OutOfRange
            else if empty <= MAX_MSG_SIZE then SendFailed else DividedByZero
  {
    var l := Left([a, b], [], true);
    FitOfTwo(a, b, size);
    RetriesAreProper(size);
    if Fit(l, RULES_PER_MSG, size) == Fits(1) {
      StalledStays(l, RULES_PER_MSG, Retries(size), sends);
    }
  }

  lemma {:induction false} EmptyOverAndOver(a: Name, b: Name, fit: Fitter, limit: nat, sends: nat)
    requires Proper(fit) && fit(Left([a, b], [], true), limit) == Fits(1)
    ensures Sent(Left([a, b], [], true), limit, fit, sends) == Repeat(Message(true, false, [], []), sends)
    decreases sends
  {
    var l, m := Left([a, b], [], true), Message(true, false, [], []);
    if sends > 0 {
      assert Next(l, 1) == m && NextLeft(l, 1) == l;
      EmptyOverAndOver(a, b, fit, 1, sends - 1);
      assert Repeat(m, sends) == [m] + Repeat(m, sends - 1);
    }
  }

  /** The hang, for one: however many sends succeed, each carries an empty message with START. */
  lemma TwoNamesHang(a: Name, b: Name, size: Message -> nat, sends: nat)
    requires MAX_MSG_SIZE < size(Message(true, true, [a, b], [])) < 2 * MAX_MSG_SIZE
    requires size(Message(true, false, [], [])) <= MAX_MSG_SIZE
    ensures Result(Left([a, b], [], true), RULES_PER_MSG, Retries(size), sends) == SendFailed
    ensures Sent(Left([a, b], [], true), RULES_PER_MSG, Retries(size), sends) == Repeat(Message(true, false, [], []), sends)
  {
    FitOfTwo(a, b, size);
    RetriesAreProper(size);
    StalledStays(Left([a, b], [], true), RULES_PER_MSG, Retries(size), sends);
    EmptyOverAndOver(a, b, Retries(size), RULES_PER_MSG, sends);
  }

  // -- The sender as written

  lemma FitUnfolds(l: Left, limit: nat, size: Message -> nat)
    requires limit > 0
    ensures var m := Next(l, limit);
            && (size(m) <= MAX_MSG_SIZE ==> Fit(l, limit, size) == Fits(limit))
            && (size(m) > MAX_MSG_SIZE && Names(m) == 0 ==> Fit(l, limit, size) == NoNames)
            && (size(m) > MAX_MSG_SIZE && Names(m) > 0 ==>
                  var next := Shrunk(limit, size(m), Names(m));
                  0 <= next < limit && Fit(l, limit, size) == Fit(l, next, size))
  {
    var m := Next(l, limit);
    if size(m) > MAX_MSG_SIZE && Names(m) > 0 {
      ShrunkIsLess(limit, size(m), Names(m));
    }
  }

  lemma NoNamesLeft(l: Left, size: Message -> nat)
    ensures Fit(l, 0, size) == NeverFits
  {
  }

  /** The retries for one message: the limit shrinks until the message is short enough, or cannot
      shrink any more.  A message without names that is too long divides by zero. */
  method FitMessage(l: Left, limit: nat, size: Message -> nat) returns (f: Fitting)
    requires limit > 0
    ensures f == Fit(l, limit, size)
  {
    var rulesPerMsg := limit;
    ghost var result := Fit(l, limit, size);
    while true
      invariant 0 < rulesPerMsg && result == Fit(l, rulesPerMsg, size)
      decreases rulesPerMsg
    {
      FitUnfolds(l, rulesPerMsg, size);
      var m := Next(l, rulesPerMsg);
      if size(m) <= MAX_MSG_SIZE {
        return Fits(rulesPerMsg);
      }
      if |m.dlp| + |m.waf| == 0 {
        return NoNames;
      }
      var newRulesPerMsg := Shrunk(rulesPerMsg, size(m), |m.dlp| + |m.waf|);
      if newRulesPerMsg == 0 {
        NoNamesLeft(l, size);
        return NeverFits;
      }
      rulesPerMsg := newRulesPerMsg;
    }
  }

  /** What was sent, and what comes of the rest, is what comes of it all. */
  ghost predicate OnCourse(all: Left, fit: Fitter, sends: nat, sent: seq<Message>, left: Left, limit: nat) {
    && |sent| <= sends && limit > 0
    && Result(left, limit, fit, sends - |sent|) == Result(all, RULES_PER_MSG, fit, sends)
    && sent + Sent(left, limit, fit, sends - |sent|) == Sent(all, RULES_PER_MSG, fit, sends)
  }

  lemma StopsHere(all: Left, fit: Fitter, sends: nat, sent: seq<Message>, left: Left, limit: nat)
    requires OnCourse(all, fit, sends, sent, left, limit) && (!fit(left, limit).Fits? || |sent| == sends)
    ensures sent == Sent(all, RULES_PER_MSG, fit, sends)
    ensures Result(all, RULES_PER_MSG, fit, sends) ==
            match fit(left, limit) case NeverFits => Refusal(left) case NoNames => DividedByZero case Fits(_) => SendFailed
  {
  }

  lemma MovesOver(sent: seq<Message>, m: Message, rest: seq<Message>, pending: seq<Message>, all: seq<Message>)
    requires sent + pending == all && pending == [m] + rest
    ensures sent + [m] + rest == all && (rest == [] ==> sent + [m] == all)
  {
  }

  lemma SendsOn(all: Left, fit: Fitter, sends: nat, sent: seq<Message>, left: Left, limit: nat)
    requires Proper(fit) && OnCourse(all, fit, sends, sent, left, limit) && fit(left, limit).Fits? && |sent| < sends
    ensures var n := fit(left, limit).limit;
            var m := Next(left, n);
            if m.last then sent + [m] == Sent(all, RULES_PER_MSG, fit, sends) && Result(all, RULES_PER_MSG, fit, sends) == AllSent
            else OnCourse(all, fit, sends, sent + [m], NextLeft(left, n), n)
  {
    var n := fit(left, limit).limit;
    var m := Next(left, n);
    var rest := if m.last then [] else Sent(NextLeft(left, n), n, fit, sends - |sent| - 1);
    MovesOver(sent, m, rest, Sent(left, limit, fit, sends - |sent|), Sent(all, RULES_PER_MSG, fit, sends));
    assert sends - |sent + [m]| == sends - |sent| - 1;
  }

  /** `DPCtrlConfigDlp`, when the first `sends` sends succeed and the next one does not. */
  method ConfigDlp(dlp: seq<Name>, waf: seq<Name>, size: Message -> nat, sends: nat)
      returns (r: SendResult, sent: seq<Message>)
    ensures r == Result(Left(dlp, waf, true), RULES_PER_MSG, Retries(size), sends)
    ensures sent == Sent(Left(dlp, waf, true), RULES_PER_MSG, Retries(size), sends)
    ensures r == AllSent <==> Completed(sent)
    ensures |sent| <= sends && Short(sent, size)
  {
    ghost var all, fit := Left(dlp, waf, true), Retries(size);
    RetriesAreProper(size);
    sent := [];
    var left, limit := Left(dlp, waf, true), RULES_PER_MSG;
    assert sent + Sent(all, limit, fit, sends) == Sent(all, limit, fit, sends);
    while true
      invariant OnCourse(all, fit, sends, sent, left, limit)
      decreases sends - |sent|
    {
      var f := FitMessage(left, limit, size);
      assert f == fit(left, limit);
      if !f.Fits? || |sent| == sends {
        StopsHere(all, fit, sends, sent, left, limit);
        r := match f case NeverFits => Refusal(left) case NoNames => DividedByZero case Fits(_) => SendFailed;
        break;
      }
      SendsOn(all, fit, sends, sent, left, limit);
      var m := Next(left, f.limit);
      sent := sent + [m];
      if m.last {
        r := AllSent;
        break;
      }
      left, limit := NextLeft(left, f.limit), f.limit;
    }
    AllSentIsCompleted(all, RULES_PER_MSG, fit, sends);
    SentAreShort(all, RULES_PER_MSG, fit, size, sends);
  }
}
