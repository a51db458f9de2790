/** Runs of the group profile cache, from empty, that end with a stale or a missing profile. */
module GroupCacheRuns {
  import C = Criteria
  import opened Basics
  import opened ProcessRules
  import opened GroupCache

  ghost predicate Reaches(met: C.Matcher, s: State, h: History, s': State, h': History) {
    exists es :: IsRun(met, s, h, es, s', h')
  }

  lemma {:induction false} RunsJoin(met: C.Matcher, s: State, h: History, es: seq<Event>, m: State, k: History,
                                    fs: seq<Event>, s': State, h': History)
    requires IsRun(met, s, h, es, m, k) && IsRun(met, m, k, fs, s', h')
    ensures IsRun(met, s, h, es + fs, s', h')
    decreases |es|
  {
    if es == [] {
      assert es + fs == fs;
    } else {
      assert (es + fs)[0] == es[0] && (es + fs)[1..] == es[1..] + fs;
      RunsJoin(met, Step(met, s, es[0]), HistoryStep(met, s, h, es[0]), es[1..], m, k, fs, s', h');
    }
  }

  lemma ReachesOn(met: C.Matcher, s: State, h: History, m: State, k: History, s': State, h': History)
    requires Reaches(met, s, h, m, k) && Reaches(met, m, k, s', h')
    ensures Reaches(met, s, h, s', h')
  {
    var es :| IsRun(met, s, h, es, m, k);
    var fs :| IsRun(met, m, k, fs, s', h');
    RunsJoin(met, s, h, es, m, k, fs, s', h');
  }

  lemma ReachesStep(met: C.Matcher, s: State, h: History, m: State, k: History, e: Event)
    requires Reaches(met, s, h, m, k) && Enabled(m, e) && Guarded(met, m, e)
    ensures Reaches(met, s, h, Step(met, m, e), HistoryStep(met, m, k, e))
  {
    assert [e][1..] == [];
    assert IsRun(met, m, k, [e], Step(met, m, e), HistoryStep(met, m, k, e));
    ReachesOn(met, s, h, m, k, Step(met, m, e), HistoryStep(met, m, k, e));
  }

  lemma ReachesTo(met: C.Matcher, s: State, h: History, m: State, k: History, e: Event, s': State, h': History)
    requires Reaches(met, s, h, m, k) && Enabled(m, e) && Guarded(met, m, e)
    requires Step(met, m, e) == s' && HistoryStep(met, m, k, e) == h'
    ensures Reaches(met, s, h, s', h')
  {
    ReachesStep(met, s, h, m, k, e);
  }

  lemma {:induction false} Enumerated(names: set<string>) returns (order: seq<string>)
    ensures forall n :: n in order <==> n in names
    ensures forall i, j :: 0 <= i < j < |order| ==> order[i] != order[j]
    decreases |names|
  {
    if names == {} {
      order := [];
    } else {
      var n :| n in names;
      var rest := Enumerated(names - {n});
      order := rest + [n];
    }
  }

  lemma VisitsExist(groups: map<string, GroupData>, id: string) returns (order: seq<string>)
    ensures Visits(groups, id, order)
  {
    order := Enumerated(set n | n in groups && Contributes(groups, id, n));
  }

  lemma CalculationExists(layers: seq<seq<Entry>>) returns (out: seq<Entry>)
    requires |layers| == 3
    ensures IsCalculated(layers, out)
  {
    var a := PartsExist(layers[0], CLASSES);
    var b := PartsExist(layers[1], CLASSES);
    var c := PartsExist(layers[2], CLASSES);
    out := Flatten(a) + Flatten(b) + Flatten(c);
    assert IsCalculatedFrom(layers, a, b, c, out);
  }

  lemma GathersAfterTick(met: C.Matcher, s: State, h: History, id: string, w: nat, order: seq<string>)
    requires s.notify == {id} && s.taken == multiset{} && id != HOST && id in s.active && w !in s.workers
    requires Visits(s.groups, id, order)
    ensures Reaches(met, s, h,
                    s.(notify := {}, workers := s.workers[w := Gathered(id, s.active[id].svc, Collect(s.groups, order))]),
                    h.(work := h.work + {w}))
  {
    assert IsRun(met, s, h, [], s, h);
    var s1 := s.(notify := {}, taken := multiset{id});
    ReachesTo(met, s, h, s, h, Tick, s1, h);
    var k := Gathered(id, s.active[id].svc, Collect(s.groups, order));
    assert s1.taken - multiset{id} == s.taken;
    ReachesTo(met, s, h, s1, h, Gather(w, id, order),
              s.(notify := {}, workers := s.workers[w := k]), h.(work := h.work + {w}));
  }

  /** A marked container's recalculation can always be brought to the point of storing. */
  lemma Recalculated(met: C.Matcher, s: State, h: History, id: string, w: nat) returns (proc: Profile)
    requires s.notify == {id} && s.taken == multiset{} && id != HOST && id in s.active && w !in s.workers
    requires s.active[id].svc in s.groups && s.groups[s.active[id].svc].proc.group != ""
    ensures Reaches(met, s, h, s.(notify := {}, workers := s.workers[w := Ready(id, proc)]), h.(work := h.work + {w}))
    ensures IsFresh(s.groups, id, s.active[id].svc, proc)
  {
    var svc := s.active[id].svc;
    var order := VisitsExist(s.groups, id);
    var k := Gathered(id, svc, Collect(s.groups, order));
    GathersAfterTick(met, s, h, id, w, order);
    var s2, h2 := s.(notify := {}, workers := s.workers[w := k]), h.(work := h.work + {w});
    var own := s.groups[svc].proc;
    var rules := CalculationExists(AddService(k.layers, own.rules));
    proc := Profile(own.group, own.mode, rules);
    SafeFinish(s2, w, rules, None);
    assert s2.workers[w := Ready(id, proc)] == s.workers[w := Ready(id, proc)];
    ReachesTo(met, s, h, s2, h2, Finish(w, rules, None), s.(notify := {}, workers := s.workers[w := Ready(id, proc)]), h2);
    assert IsGather(s.groups, id, k.layers);
  }

  /** One container with its service group, and nothing else. */
  function Single(id: string, c: Container, g: C.Group, p: Profile, wl: Option<Profile>, notify: set<string>,
                  workers: map<nat, Worker>): State {
    State(map[c.svc := GroupData(g, {id}, p)], map[id := c], map[id := wl], notify, multiset{}, workers)
  }

  predicate Setting(met: C.Matcher, id: string, c: Container, g: C.Group) {
    id != HOST && !IsGroupNodes(c.svc) && C.IsGroupMember(met, g, c.workload)
  }

  lemma NothingToOutdate(s: State, ids: set<string>)
    ensures Outdate(s, NO_HISTORY, ids) == NO_HISTORY
  {
  }

  lemma JoinsOnly(met: C.Matcher, id: string, c: Container, g: C.Group)
    requires Setting(met, id, c, g)
    ensures var s := State(map[c.svc := GroupData(g, {}, BLANK)], map[id := c], map[], {}, multiset{}, map[]);
            Enabled(s, Join(id, c)) && Step(met, s, Join(id, c)) == Single(id, c, g, BLANK, None, {id}, map[])
  {
    var s := State(map[c.svc := GroupData(g, {}, BLANK)], map[id := c], map[], {}, multiset{}, map[]);
    var groups := map n | n in s.groups :: JoinedGroup(met, n, s.groups[n], id, c);
    assert groups.Keys == {c.svc} && groups[c.svc] == GroupData(g, {id}, BLANK);
    assert groups == map[c.svc := GroupData(g, {id}, BLANK)];
    assert {} + {id} == {id};
  }

  lemma Arrives(met: C.Matcher, id: string, c: Container, g: C.Group)
    requires Setting(met, id, c, g)
    ensures Reaches(met, EMPTY, NO_HISTORY, Single(id, c, g, BLANK, None, {id}, map[]), NO_HISTORY)
  {
    assert IsRun(met, EMPTY, NO_HISTORY, [], EMPTY, NO_HISTORY);
    var s1 := EMPTY.(groups := map[c.svc := GroupData(g, {}, BLANK)]);
    NothingToOutdate(EMPTY, {});
    ReachesTo(met, EMPTY, NO_HISTORY, EMPTY, NO_HISTORY, AddGroup(c.svc, g), s1, NO_HISTORY);
    var s2 := s1.(active := map[id := c]);
    NothingToOutdate(s1, {});
    ReachesTo(met, EMPTY, NO_HISTORY, s1, NO_HISTORY, Activate(id, c), s2, NO_HISTORY);
    JoinsOnly(met, id, c, g);
    NothingToOutdate(s2, {id});
    ReachesTo(met, EMPTY, NO_HISTORY, s2, NO_HISTORY, Join(id, c), Single(id, c, g, BLANK, None, {id}, map[]), NO_HISTORY);
  }

  lemma SingleUpdated(met: C.Matcher, id: string, c: Container, g: C.Group, p: Profile, notify: set<string>,
                      workers: map<nat, Worker>, p': Profile)
    requires ProcChanged(p, p') && notify <= {id} && Derived(p', c.svc) == p'
    ensures Step(met, Single(id, c, g, p, None, notify, workers), UpdateProc(c.svc, p'))
            == Single(id, c, g, p', None, {id}, workers)
  {
    var s := Single(id, c, g, p, None, notify, workers);
    assert s.groups[c.svc := GroupData(g, {id}, p')] == map[c.svc := GroupData(g, {id}, p')];
    assert notify + {id} == {id};
  }

  /** A first recalculation makes it to the point of storing. */
  lemma FirstReady(met: C.Matcher, id: string, c: Container, g: C.Group, p: Profile) returns (first: Profile)
    requires Setting(met, id, c, g) && p.group != "" && Derived(p, c.svc) == p
    ensures Reaches(met, EMPTY, NO_HISTORY, Single(id, c, g, p, None, {}, map[0 := Ready(id, first)]), History({0}, {}, {}))
    ensures IsFresh(map[c.svc := GroupData(g, {id}, p)], id, c.svc, first)
  {
    Arrives(met, id, c, g);
    var s3, s4 := Single(id, c, g, BLANK, None, {id}, map[]), Single(id, c, g, p, None, {id}, map[]);
    SingleUpdated(met, id, c, g, BLANK, {id}, map[], p);
    NothingToOutdate(s3, {id});
    ReachesTo(met, EMPTY, NO_HISTORY, s3, NO_HISTORY, UpdateProc(c.svc, p), s4, NO_HISTORY);
    first := Recalculated(met, s4, NO_HISTORY, id, 0);
    assert {} + {0} == {0};
    ReachesOn(met, EMPTY, NO_HISTORY, s4, NO_HISTORY,
              Single(id, c, g, p, None, {}, map[0 := Ready(id, first)]), History({0}, {}, {}));
  }

  lemma SingleStores(met: C.Matcher, id: string, c: Container, g: C.Group, p: Profile, wl: Option<Profile>,
                     workers: map<nat, Worker>, w: nat, proc: Profile)
    requires w !in workers
    ensures var s := Single(id, c, g, p, wl, {}, workers[w := Ready(id, proc)]);
            Step(met, s, Store(w)) == Single(id, c, g, p, Some(proc), {}, workers)
  {
    assert workers[w := Ready(id, proc)] - {w} == workers;
    assert map[id := wl][id := Some(proc)] == map[id := Some(proc)];
  }

  lemma LastStore(met: C.Matcher, id: string, c: Container, g: C.Group, p: Profile, first: Profile, second: Profile)
    requires Reaches(met, EMPTY, NO_HISTORY, Single(id, c, g, p, Some(second), {}, map[0 := Ready(id, first)]), History({1}, {id}, {}))
    ensures Reaches(met, EMPTY, NO_HISTORY, Single(id, c, g, p, Some(first), {}, map[]), History({1}, {}, {id}))
  {
    var s8, h8 := Single(id, c, g, p, Some(second), {}, map[0 := Ready(id, first)]), History({1}, {id}, {});
    SingleStores(met, id, c, g, p, Some(second), map[], 0, first);
    assert map[][0 := Ready(id, first)] == map[0 := Ready(id, first)];
    assert StoreHistory(s8, h8, 0) == History({1}, {}, {id});
    ReachesTo(met, EMPTY, NO_HISTORY, s8, h8, Store(0), Single(id, c, g, p, Some(first), {}, map[]), History({1}, {}, {id}));
  }

  lemma SecondReady(met: C.Matcher, id: string, c: Container, g: C.Group, p: Profile, first: Profile) returns (second: Profile)
    requires id != HOST && p.group != ""
    requires Reaches(met, EMPTY, NO_HISTORY, Single(id, c, g, p, None, {id}, map[0 := Ready(id, first)]), NO_HISTORY)
    ensures Reaches(met, EMPTY, NO_HISTORY,
                    Single(id, c, g, p, None, {}, map[0 := Ready(id, first)][1 := Ready(id, second)]), History({1}, {}, {}))
  {
    var one := map[0 := Ready(id, first)];
    var s6 := Single(id, c, g, p, None, {id}, one);
    second := Recalculated(met, s6, NO_HISTORY, id, 1);
    assert {} + {1} == {1};
    ReachesOn(met, EMPTY, NO_HISTORY, s6, NO_HISTORY, Single(id, c, g, p, None, {}, one[1 := Ready(id, second)]), History({1}, {}, {}));
  }

  /** The second recalculation stores, and the first one stores over it. */
  lemma StoredOver(met: C.Matcher, id: string, c: Container, g: C.Group, p: Profile, first: Profile)
    requires id != HOST && p.group != ""
    requires Reaches(met, EMPTY, NO_HISTORY, Single(id, c, g, p, None, {id}, map[0 := Ready(id, first)]), NO_HISTORY)
    ensures Reaches(met, EMPTY, NO_HISTORY, Single(id, c, g, p, Some(first), {}, map[]), History({1}, {}, {id}))
  {
    var second := SecondReady(met, id, c, g, p, first);
    var one := map[0 := Ready(id, first)];
    var s7, h7 := Single(id, c, g, p, None, {}, one[1 := Ready(id, second)]), History({1}, {}, {});
    SingleStores(met, id, c, g, p, None, one, 1, second);
    assert StoreHistory(s7, h7, 1) == History({1}, {id}, {});
    ReachesTo(met, EMPTY, NO_HISTORY, s7, h7, Store(1), Single(id, c, g, p, Some(second), {}, one), History({1}, {id}, {}));
    LastStore(met, id, c, g, p, first, second);
  }

  lemma SingleIsQuiet(id: string, c: Container, g: C.Group, p: Profile, wl: Option<Profile>)
    requires id != HOST
    ensures var s := Single(id, c, g, p, wl, {}, map[]); Clean(s, id) && !InFlight(s, id)
  {
  }

  const LEARNED := "learned"

  const NO_RULES: Profile := Profile(LEARNED, "", [])

  /** A profile with one rule, as the group `n` stores it. */
  function OneRule(x: Entry, n: string): Profile {
    Profile(LEARNED, "", [x.(group := n)])
  }

  lemma Stored(x: Entry, n: string)
    ensures Derived(NO_RULES, n) == NO_RULES && Derived(OneRule(x, n), n) == OneRule(x, n)
    ensures Kept(x) ==> Kept(OneRule(x, n).rules[0])
  {
  }

  lemma OnlyRuleGone(id: string, c: Container, g: C.Group, p: Profile, p': Profile, x: Entry, f: Profile)
    requires p.rules == [x] && p'.rules == [] && Kept(x)
    requires IsFresh(map[c.svc := GroupData(g, {id}, p)], id, c.svc, f)
    ensures !IsFresh(map[c.svc := GroupData(g, {id}, p')], id, c.svc, f)
  {
    var groups, groups' := map[c.svc := GroupData(g, {id}, p)], map[c.svc := GroupData(g, {id}, p')];
    assert Contributes(groups, id, c.svc) && Contributes(groups', id, c.svc);
    var y := FreshRepresents(groups, id, c.svc, f, c.svc, x);
    if IsFresh(groups', id, c.svc, f) {
      var n := FreshHolds(groups', id, c.svc, f, y);
    }
  }

  /** The marked container's only worker is outdated. */
  lemma MarkOutdates(s: State, id: string, f: Profile)
    requires s.workers == map[0 := Ready(id, f)]
    ensures Outdate(s, History({0}, {}, {}), {id}) == NO_HISTORY
  {
  }

  /** Two recalculations of one container overlap: its rule is withdrawn after the first one
      gathered, and the first one stores last.  The container is then neither marked nor being
      recalculated, and its cache still has the rule. */
  lemma OvertakenIsStale(met: C.Matcher, id: string, c: Container, g: C.Group, x: Entry) returns (s: State, h: History)
    requires Setting(met, id, c, g) && Kept(x)
    ensures Reaches(met, EMPTY, NO_HISTORY, s, h) && Clean(s, id) && !InFlight(s, id)
    ensures HasProfile(s, id) && id in h.late && !CacheOk(s, id)
  {
    var p, p' := OneRule(x, c.svc), NO_RULES;
    Stored(x, c.svc);
    var f := FirstReady(met, id, c, g, p);
    var workers := map[0 := Ready(id, f)];
    var s5, s6 := Single(id, c, g, p, None, {}, workers), Single(id, c, g, p', None, {id}, workers);
    SingleUpdated(met, id, c, g, p, {}, workers, p');
    MarkOutdates(s5, id, f);
    ReachesTo(met, EMPTY, NO_HISTORY, s5, History({0}, {}, {}), UpdateProc(c.svc, p'), s6, NO_HISTORY);
    StoredOver(met, id, c, g, p', f);
    s, h := Single(id, c, g, p', Some(f), {}, map[]), History({1}, {}, {id});
    SingleIsQuiet(id, c, g, p', Some(f));
    OnlyRuleGone(id, c, g, p, p', p.rules[0], f);
  }

  lemma SingleFilled(met: C.Matcher, id: string, c: Container, g: C.Group, p: Profile, workers: map<nat, Worker>)
    requires Setting(met, id, c, g) && Derived(p, c.svc) == p
    ensures var s := Single(id, c, g, p, None, {}, workers);
            && Refreshed(met, c.svc, g, s.active) == {id} && FillSafe(met, s, c.svc)
            && Step(met, s, Fill(c.svc, None)) == Single(id, c, g, p, None, {id}, workers)
  {
    var s := Single(id, c, g, p, None, {}, workers);
    assert Refreshed(met, c.svc, g, s.active) == {id};
    assert s.groups[c.svc := GroupData(g, {id}, p)] == s.groups;
    assert {} + {id} == {id};
  }

  /** A mark need not mean a change: a fill marks every member.  Then even a late store is fresh. */
  lemma LateYetFresh(met: C.Matcher, id: string, c: Container, g: C.Group) returns (s: State, h: History)
    requires Setting(met, id, c, g)
    ensures Reaches(met, EMPTY, NO_HISTORY, s, h) && Clean(s, id) && !InFlight(s, id)
    ensures id in h.late && CacheOk(s, id)
  {
    var p := NO_RULES;
    assert Derived(p, c.svc) == p;
    var f := FirstReady(met, id, c, g, p);
    var workers := map[0 := Ready(id, f)];
    var s5, s6 := Single(id, c, g, p, None, {}, workers), Single(id, c, g, p, None, {id}, workers);
    SingleFilled(met, id, c, g, p, workers);
    MarkOutdates(s5, id, f);
    ReachesTo(met, EMPTY, NO_HISTORY, s5, History({0}, {}, {}), Fill(c.svc, None), s6, NO_HISTORY);
    StoredOver(met, id, c, g, p, f);
    s, h := Single(id, c, g, p, Some(f), {}, map[]), History({1}, {}, {id});
    SingleIsQuiet(id, c, g, p, Some(f));
  }

  /** If the service profile cannot be loaded, the recalculation ends without a result, and
      nothing marks the container again: it is left with no profile at all. */
  lemma FailedLoadForgets(met: C.Matcher, id: string, c: Container, g: C.Group) returns (s: State, h: History)
    requires Setting(met, id, c, g)
    ensures Reaches(met, EMPTY, NO_HISTORY, s, h) && Enabled(s, Finish(0, [], None)) && !LoadSafe(s, 0)
    ensures var s' := Step(met, s, Finish(0, [], None));
            Clean(s', id) && !InFlight(s', id) && !HasProfile(s', id)
  {
    Arrives(met, id, c, g);
    var s3 := Single(id, c, g, BLANK, None, {id}, map[]);
    var order := VisitsExist(s3.groups, id);
    GathersAfterTick(met, s3, NO_HISTORY, id, 0, order);
    var k := Gathered(id, c.svc, Collect(s3.groups, order));
    s, h := Single(id, c, g, BLANK, None, {}, map[0 := k]), NO_HISTORY.(work := {} + {0});
    assert map[][0 := k] == map[0 := k];
    ReachesOn(met, EMPTY, NO_HISTORY, s3, NO_HISTORY, s, h);
    assert map[0 := k] - {0} == map[];
    assert FinishStep(s, 0, [], None) == Single(id, c, g, BLANK, None, {}, map[]);
    SingleIsQuiet(id, c, g, BLANK, None);
  }

  /** A container and two groups that have it as a member. */
  function Double(id: string, c: Container, n: string, d: GroupData, n': string, d': GroupData): State {
    State(map[n := d, n' := d'], map[id := c], map[id := None], {id}, multiset{}, map[])
  }

  lemma DoubleUpdated(met: C.Matcher, id: string, c: Container, n: string, d: GroupData, n': string, d': GroupData, p: Profile)
    requires n != n' && d.members <= {id} && d'.members <= {id}
    ensures d.proc == BLANK && Derived(p, n) == p ==>
              Step(met, Double(id, c, n, d, n', d'), UpdateProc(n, p)) == Double(id, c, n, d.(proc := p), n', d')
    ensures d'.proc == BLANK && Derived(p, n') == p ==>
              Step(met, Double(id, c, n, d, n', d'), UpdateProc(n', p)) == Double(id, c, n, d, n', d'.(proc := p))
  {
    var s := Double(id, c, n, d, n', d');
    assert s.groups[n := d.(proc := p)] == map[n := d.(proc := p), n' := d'];
    assert s.groups[n' := d'.(proc := p)] == map[n := d, n' := d'.(proc := p)];
    assert {id} + d.members == {id} && {id} + d'.members == {id};
  }

  lemma DoubleJoined(met: C.Matcher, id: string, c: Container, c': Container, n: string, d: GroupData, n': string, d': GroupData)
    requires n != n' && id != HOST
    ensures Enabled(Double(id, c, n, d, n', d'), Join(id, c'))
    ensures Step(met, Double(id, c, n, d, n', d'), Join(id, c'))
            == Double(id, c', n, JoinedGroup(met, n, d, id, c'), n', JoinedGroup(met, n', d', id, c'))
  {
    var s := Double(id, c, n, d, n', d');
    var groups := map m | m in s.groups :: JoinedGroup(met, m, s.groups[m], id, c');
    assert groups == map[n := JoinedGroup(met, n, d, id, c'), n' := JoinedGroup(met, n', d', id, c')];
    assert map[id := c][id := c'] == map[id := c'] && {id} + {id} == {id};
  }

  lemma JoinsTwice(met: C.Matcher, id: string, c: Container, c': Container, d: GroupData, n: string, e: GroupData, q: Profile)
    requires id != HOST && id in d.members && n != c.svc && !IsGroupNodes(n) && e.members == {} && e.proc == BLANK
    requires C.IsGroupMember(met, e.group, c.workload) && d.members == {id} && Derived(q, n) == q
    requires Reaches(met, EMPTY, NO_HISTORY, Double(id, c, c.svc, d, n, e), NO_HISTORY)
    ensures Reaches(met, EMPTY, NO_HISTORY, Double(id, c', c.svc, d, n, GroupData(e.group, {id}, q)), NO_HISTORY)
  {
    var s := Double(id, c, c.svc, d, n, e);
    DoubleUpdated(met, id, c, c.svc, d, n, e, q);
    NothingToOutdate(s, {});
    var s1 := Double(id, c, c.svc, d, n, e.(proc := q));
    ReachesTo(met, EMPTY, NO_HISTORY, s, NO_HISTORY, UpdateProc(n, q), s1, NO_HISTORY);
    DoubleJoined(met, id, c, c, c.svc, d, n, e.(proc := q));
    NothingToOutdate(s1, {id});
    var e1 := GroupData(e.group, {id}, q);
    assert {} + {id} == {id};
    var s2 := Double(id, c, c.svc, d, n, e1);
    ReachesTo(met, EMPTY, NO_HISTORY, s1, NO_HISTORY, Join(id, c), s2, NO_HISTORY);
    DoubleJoined(met, id, c, c', c.svc, d, n, e1);
    NothingToOutdate(s2, {id});
    ReachesTo(met, EMPTY, NO_HISTORY, s2, NO_HISTORY, Join(id, c'), Double(id, c', c.svc, d, n, e1), NO_HISTORY);
  }

  /** A container that joins again with other attributes keeps its memberships. */
  lemma JoinsAgain(met: C.Matcher, id: string, c: Container, c': Container, g: C.Group, n: string, g': C.Group, q: Profile)
    requires Setting(met, id, c, g) && n != c.svc && !IsGroupNodes(n) && C.IsGroupMember(met, g', c.workload)
    requires Derived(q, n) == q
    ensures Reaches(met, EMPTY, NO_HISTORY,
                    Double(id, c', c.svc, GroupData(g, {id}, NO_RULES), n, GroupData(g', {id}, q)), NO_HISTORY)
  {
    Arrives(met, id, c, g);
    var p := NO_RULES;
    assert Derived(p, c.svc) == p;
    var d, e := GroupData(g, {id}, BLANK), GroupData(g', {}, BLANK);
    var s3 := Single(id, c, g, BLANK, None, {id}, map[]);
    NothingToOutdate(s3, {});
    ReachesTo(met, EMPTY, NO_HISTORY, s3, NO_HISTORY, AddGroup(n, g'), Double(id, c, c.svc, d, n, e), NO_HISTORY);
    DoubleUpdated(met, id, c, c.svc, d, n, e, p);
    NothingToOutdate(Double(id, c, c.svc, d, n, e), {id});
    var d1 := GroupData(g, {id}, p);
    ReachesTo(met, EMPTY, NO_HISTORY, Double(id, c, c.svc, d, n, e), NO_HISTORY, UpdateProc(c.svc, p),
              Double(id, c, c.svc, d1, n, e), NO_HISTORY);
    JoinsTwice(met, id, c, c', d1, n, e, q);
  }

  lemma ReadyStores(met: C.Matcher, s: State, id: string, f: Profile)
    requires s.workers == map[] && s.wl == map[id := None]
    requires Reaches(met, EMPTY, NO_HISTORY, s.(notify := {}, workers := map[0 := Ready(id, f)]), History({0}, {}, {}))
    ensures Reaches(met, EMPTY, NO_HISTORY, s.(notify := {}, wl := map[id := Some(f)]), History({0}, {id}, {}))
  {
    var s2, h2 := s.(notify := {}, workers := map[0 := Ready(id, f)]), History({0}, {}, {});
    assert map[0 := Ready(id, f)] - {0} == map[] && map[id := None][id := Some(f)] == map[id := Some(f)];
    assert StoreStep(s2, 0) == s.(notify := {}, wl := map[id := Some(f)]);
    assert StoreHistory(s2, h2, 0) == History({0}, {id}, {});
    ReachesTo(met, EMPTY, NO_HISTORY, s2, h2, Store(0), s.(notify := {}, wl := map[id := Some(f)]), History({0}, {id}, {}));
  }

  lemma RejoinedReady(met: C.Matcher, s: State, id: string) returns (f: Profile)
    requires Reaches(met, EMPTY, NO_HISTORY, s, NO_HISTORY) && id != HOST && id in s.active && s.wl == map[id := None]
    requires s.notify == {id} && s.taken == multiset{} && s.workers == map[]
    requires s.active[id].svc in s.groups && s.groups[s.active[id].svc].proc.group != ""
    ensures Reaches(met, EMPTY, NO_HISTORY, s.(notify := {}, wl := map[id := Some(f)]), History({0}, {id}, {}))
    ensures IsFresh(s.groups, id, s.active[id].svc, f)
  {
    f := Recalculated(met, s, NO_HISTORY, id, 0);
    var s2, h2 := s.(notify := {}, workers := map[0 := Ready(id, f)]), History({0}, {}, {});
    assert {} + {0} == {0};
    ReachesOn(met, EMPTY, NO_HISTORY, s, NO_HISTORY, s2, h2);
    ReadyStores(met, s, id, f);
  }

  lemma OnlyOneHasRules(groups: map<string, GroupData>, id: string, n: string, d: GroupData, n': string, d': GroupData, x: Entry)
    requires groups == map[n := d, n' := d'] && n != n' && d.proc.rules == [] && d'.proc.rules == [x]
    ensures OnlyIn(groups, id, n', x) && ClearRules(groups, id)
  {
    forall m | m in groups
      ensures m == n || m == n'
    {
    }
  }

  lemma DroppedByFill(met: C.Matcher, s: State, id: string, c: Container, n: string, d: GroupData, n': string, d': GroupData, x: Entry)
    requires s.groups == map[n := d, n' := d'] && n != n' && s.active == map[id := c] && c.svc == n && id != HOST
    requires d.members == d'.members == {id} && d.proc.rules == [] && d'.proc.rules == [x]
    requires Kept(x) && !IsGroupNodes(n') && !C.IsGroupMember(met, d'.group, c.workload)
    requires Clean(s, id) && CacheOk(s, id)
    ensures Enabled(s, Fill(n', None)) && Clean(Step(met, s, Fill(n', None)), id)
    ensures HasProfile(Step(met, s, Fill(n', None)), id) && !CacheOk(Step(met, s, Fill(n', None)), id)
  {
    OnlyOneHasRules(s.groups, id, n, d, n', d', x);
    assert id !in Refreshed(met, n', d'.group, s.active);
    UnsafeFillIsStale(met, s, n', id, x);
  }

  /** Such a container, once its cache is fresh, is dropped by the next fill without a mark. */
  lemma FillAfterRejoinIsStale(met: C.Matcher, id: string, c: Container, c': Container, g: C.Group, n: string, g': C.Group, x: Entry)
    returns (s: State, h: History)
    requires Setting(met, id, c, g) && c'.svc == c.svc && n != c.svc && !IsGroupNodes(n) && Kept(x)
    requires C.IsGroupMember(met, g', c.workload) && !C.IsGroupMember(met, g', c'.workload)
    ensures Reaches(met, EMPTY, NO_HISTORY, s, h) && CacheOk(s, id)
    ensures Enabled(s, Fill(n, None)) && Clean(Step(met, s, Fill(n, None)), id)
    ensures HasProfile(Step(met, s, Fill(n, None)), id) && !CacheOk(Step(met, s, Fill(n, None)), id)
  {
    var d, d' := GroupData(g, {id}, NO_RULES), GroupData(g', {id}, OneRule(x, n));
    Stored(x, n);
    JoinsAgain(met, id, c, c', g, n, g', d'.proc);
    var f := RejoinedReady(met, Double(id, c', c.svc, d, n, d'), id);
    s, h := Double(id, c', c.svc, d, n, d').(notify := {}, wl := map[id := Some(f)]), History({0}, {id}, {});
    DroppedByFill(met, s, id, c', c.svc, d, n, d', d'.proc.rules[0]);
  }
}
