/** The group profile cache and its dirty set (agent/group_profile.go): group changes mark
    the containers they affect, a ticker recalculates the marked ones in the background. */
module GroupCache {
  import C = Criteria
  import opened Basics
  import opened ProcessRules

  const HOST := ""
  const NODES := "nodes"

  predicate IsGroupNodes(name: string) {
    name == NODES || name == "fed." + NODES
  }

  predicate IsFederal(name: string) {
    |name| >= 4 && name[..4] == "fed."
  }

  /** A process profile; one that was never loaded has no group name. */
  datatype Profile = Profile(group: string, mode: string, rules: seq<Entry>)

  const BLANK: Profile := Profile("", "", [])

  datatype GroupData = GroupData(group: C.Group, members: set<string>, proc: Profile)

  /** A running container: its service group and the attributes that criteria look at. */
  datatype Container = Container(svc: string, workload: C.Workload)

  /** A recalculation under way: the groups' rules gathered, or the profile ready to be stored. */
  datatype Worker = Gathered(id: string, svc: string, layers: seq<seq<Entry>>) | Ready(id: string, proc: Profile)

  /** `wl` is the per-workload cache; `notify` the dirty set; `taken` the containers that ticks
      took from it and whose workers have not begun; `workers` those that have, any number of
      them for one container. */
  datatype State = State(
    groups: map<string, GroupData>, active: map<string, Container>,
    wl: map<string, Option<Profile>>, notify: set<string>,
    taken: multiset<string>, workers: map<nat, Worker>)

  // -- Calculation

  function CrdRules(rules: seq<Entry>, crd: bool): seq<Entry> {
    if rules == [] then []
    else CrdRules(rules[..|rules| - 1], crd) + if rules[|rules| - 1].crd == crd then [rules[|rules| - 1]] else []
  }

  function AddService(layers: seq<seq<Entry>>, rules: seq<Entry>): seq<seq<Entry>>
    requires |layers| == 3
  {
    [layers[0], layers[1] + CrdRules(rules, true), layers[2] + CrdRules(rules, false)]
  }

  function AddGroupRules(layers: seq<seq<Entry>>, name: string, rules: seq<Entry>): seq<seq<Entry>>
    requires |layers| == 3
  {
    if IsFederal(name) then [layers[0] + rules, layers[1], layers[2]] else AddService(layers, rules)
  }

  /** The layers after the groups `order` were visited, one after the other. */
  function Collect(groups: map<string, GroupData>, order: seq<string>): (layers: seq<seq<Entry>>)
    requires forall n :: n in order ==> n in groups
    ensures |layers| == 3
  {
    if order == [] then [[], [], []]
    else
      var n := order[|order| - 1];
      AddGroupRules(Collect(groups, order[..|order| - 1]), n, groups[n].proc.rules)
  }

  predicate Contributes(groups: map<string, GroupData>, id: string, n: string) {
    n in groups && id in groups[n].members
  }

  /** `order` visits each group that has `id` as a member exactly once. */
  ghost predicate Visits(groups: map<string, GroupData>, id: string, order: seq<string>) {
    && (forall n :: n in order <==> Contributes(groups, id, n))
    && (forall i, j :: 0 <= i < j < |order| ==> order[i] != order[j])
  }

  /** `layers` may result from going through the cache map, in whatever order it yields. */
  ghost predicate IsGather(groups: map<string, GroupData>, id: string, layers: seq<seq<Entry>>) {
    exists order :: Visits(groups, id, order) && layers == Collect(groups, order)
  }

  /** `p` is a possible result of calculating `id` from these groups and this service profile. */
  ghost predicate IsResult(groups: map<string, GroupData>, id: string, own: Profile, p: Profile) {
    && p.group == own.group && p.mode == own.mode
    && exists layers :: IsGather(groups, id, layers) && |layers| == 3
         && IsCalculated(AddService(layers, own.rules), p.rules)
  }

  /** `p` is a possible result of calculating `id` from these groups right now. */
  ghost predicate IsFresh(groups: map<string, GroupData>, id: string, svc: string, p: Profile) {
    svc in groups && IsResult(groups, id, groups[svc].proc, p)
  }

  // -- Steps

  function SvcOf(s: State, id: string): string {
    if id == HOST || id !in s.active then NODES else s.active[id].svc
  }

  function Refreshed(met: C.Matcher, name: string, g: C.Group, active: map<string, Container>): set<string> {
    if IsGroupNodes(name) then {HOST}
    else set id | id in active && C.IsGroupMember(met, g, active[id].workload)
  }

  predicate WorksOn(s: State, id: string, w: nat) {
    w in s.workers && s.workers[w].id == id
  }

  ghost predicate InFlight(s: State, id: string) {
    id in s.taken || exists w :: WorksOn(s, id, w)
  }

  datatype Event =
    | AddGroup(name: string, g: C.Group) | UpdateGroup(name: string, g: C.Group)
    | UpdateProc(name: string, p: Profile) | DeleteGroup(name: string)
    | Fill(name: string, loaded: Option<Profile>)
    | Activate(id: string, c: Container) | Join(id: string, c: Container) | Leave(id: string) | Deactivate(id: string)
    | Tick
    | Gather(w: nat, id: string, order: seq<string>)
    | Finish(w: nat, rules: seq<Entry>, loaded: Option<Profile>)
    | Store(w: nat)

  /** The service profile a worker gets: the cached one, or one that is loaded only now. */
  function OwnProfile(cached: Profile, loaded: Option<Profile>): Option<Profile> {
    if cached.group == "" then loaded else Some(cached)
  }

  ghost predicate Enabled(s: State, e: Event) {
    match e
    case AddGroup(n, _) => n !in s.groups
    case UpdateGroup(n, _) => n in s.groups
    case UpdateProc(n, _) => n in s.groups
    case DeleteGroup(n) => n in s.groups
    case Fill(n, _) => n in s.groups
    case Activate(id, _) => id != HOST && id !in s.active
    case Join(id, _) => id in s.active && id != HOST
    case Leave(id) => id in s.active && id != HOST
    case Deactivate(id) => id in s.active && id !in s.wl
    case Tick => true
    case Gather(w, id, order) => w !in s.workers && id in s.taken && Visits(s.groups, id, order)
    case Finish(w, rules, loaded) =>
      && w in s.workers && s.workers[w].Gathered? && |s.workers[w].layers| == 3
      && (s.workers[w].svc in s.groups ==>
            var own := OwnProfile(s.groups[s.workers[w].svc].proc, loaded);
            own.Some? ==> IsCalculated(AddService(s.workers[w].layers, own.value.rules), rules))
    case Store(w) => w in s.workers && s.workers[w].Ready?
  }

  function SetGroup(s: State, n: string, g: GroupData): State {
    s.(groups := s.groups[n := g])
  }

  /** The comparison that decides whether a process profile is taken over. */
  predicate ProcChanged(old': Profile, new': Profile) {
    new'.mode != old'.mode || old'.rules == [] || new'.rules != old'.rules
  }

  /** Rules are stored with the name of their group. */
  function Derived(p: Profile, n: string): Profile {
    p.(rules := seq(|p.rules|, i requires 0 <= i < |p.rules| => p.rules[i].(group := n)))
  }

  function JoinedGroup(met: C.Matcher, n: string, d: GroupData, id: string, c: Container): GroupData {
    if !IsGroupNodes(n) && id !in d.members && C.IsGroupMember(met, d.group, c.workload)
    then d.(members := d.members + {id}) else d
  }

  function LeftGroup(n: string, d: GroupData, id: string): GroupData {
    if IsGroupNodes(n) then d else d.(members := d.members - {id})
  }

  function GatherStep(s: State, w: nat, id: string, order: seq<string>): State
    requires forall n :: n in order ==> n in s.groups
  {
    var s1 := s.(taken := s.taken - multiset{id});
    if id != HOST && id !in s.active then s1
    else s1.(workers := s.workers[w := Gathered(id, SvcOf(s, id), Collect(s.groups, order))])
  }

  /** A service profile loaded only now stays in the group cache; nobody is marked for it. */
  function FinishStep(s: State, w: nat, rules: seq<Entry>, loaded: Option<Profile>): State
    requires w in s.workers && s.workers[w].Gathered?
  {
    var id, svc := s.workers[w].id, s.workers[w].svc;
    if svc !in s.groups then s.(workers := s.workers - {w})
    else
      var d := s.groups[svc];
      match OwnProfile(d.proc, loaded)
      case None => s.(workers := s.workers - {w})
      case Some(own) =>
        var s1 := if d.proc.group == "" then SetGroup(s, svc, d.(proc := own)) else s;
        s1.(workers := s.workers[w := Ready(id, Profile(own.group, own.mode, rules))])
  }

  /** The host's entry is created on demand; a container's is only ever updated. */
  predicate Storable(s: State, id: string) {
    id == HOST || id in s.wl
  }

  function StoreStep(s: State, w: nat): State
    requires w in s.workers && s.workers[w].Ready?
  {
    var id := s.workers[w].id;
    var s1 := s.(workers := s.workers - {w});
    if Storable(s, id) then s1.(wl := s.wl[id := Some(s.workers[w].proc)]) else s1
  }

  /** The containers an event adds to the dirty set. */
  ghost function Marks(met: C.Matcher, s: State, e: Event): set<string>
    requires Enabled(s, e)
  {
    match e
    case UpdateGroup(n, g) =>
      var members, members' := s.groups[n].members, Refreshed(met, n, g, s.active);
      (members - members') + (members' - members)
    case UpdateProc(n, p) => if ProcChanged(s.groups[n].proc, p) then s.groups[n].members else {}
    case DeleteGroup(n) => s.groups[n].members
    case Fill(n, _) => Refreshed(met, n, s.groups[n].group, s.active)
    case Join(id, _) => {id}
    case _ => {}
  }

  ghost function Step(met: C.Matcher, s: State, e: Event): State
    requires Enabled(s, e)
  {
    var marked := s.(notify := s.notify + Marks(met, s, e));
    match e
    case AddGroup(n, g) => SetGroup(s, n, GroupData(g, {}, BLANK))
    case UpdateGroup(n, g) =>
      SetGroup(marked, n, s.groups[n].(group := g, members := Refreshed(met, n, g, s.active)))
    case UpdateProc(n, p) =>
      if ProcChanged(s.groups[n].proc, p) then SetGroup(marked, n, s.groups[n].(proc := Derived(p, n))) else s
    case DeleteGroup(n) => marked.(groups := s.groups - {n})
    case Fill(n, loaded) =>
      var d := s.groups[n];
      SetGroup(marked, n, d.(members := Refreshed(met, n, d.group, s.active),
                             proc := Derived(if loaded.Some? then loaded.value else d.proc, n)))
    case Activate(id, c) => s.(active := s.active[id := c])
    case Join(id, c) =>
      marked.(active := s.active[id := c],
              wl := if id in s.wl then s.wl else s.wl[id := None],
              groups := map n | n in s.groups :: JoinedGroup(met, n, s.groups[n], id, c))
    case Leave(id) =>
      s.(groups := map n | n in s.groups :: LeftGroup(n, s.groups[n], id),
         notify := s.notify - {id}, wl := s.wl - {id})
    case Deactivate(id) => s.(active := s.active - {id})
    case Tick => s.(notify := {}, taken := s.taken + multiset(s.notify))
    case Gather(w, id, order) => GatherStep(s, w, id, order)
    case Finish(w, rules, loaded) => FinishStep(s, w, rules, loaded)
    case Store(w) => StoreStep(s, w)
  }

  // -- What the run so far tells about workers and cache entries

  /** `work`: the workers that gathered after the last mark of their container; `cache`: the
      containers whose entry such a worker stored with no mark since; `late`: those whose last
      store came from a worker that had gathered before a mark. */
  datatype History = History(work: set<nat>, cache: set<string>, late: set<string>)

  const NO_HISTORY: History := History({}, {}, {})

  function Outdate(s: State, h: History, ids: set<string>): History {
    var work := set w | w in h.work && w in s.workers && s.workers[w].id !in ids;
    History(work, h.cache - ids, h.late)
  }

  function StoreHistory(s: State, h: History, w: nat): History
    requires w in s.workers
  {
    var id := s.workers[w].id;
    if !Storable(s, id) then h
    else if w in h.work then h.(cache := h.cache + {id}, late := h.late - {id})
    else h.(cache := h.cache - {id}, late := h.late + {id})
  }

  ghost function HistoryStep(met: C.Matcher, s: State, h: History, e: Event): History
    requires Enabled(s, e)
  {
    match e
    case Gather(w, id, _) => if id != HOST && id !in s.active then h else h.(work := h.work + {w})
    case Store(w) => StoreHistory(s, h, w)
    case Leave(id) => h.(cache := h.cache - {id}, late := h.late - {id})
    case Tick => h
    case Finish(_, _, _) => h
    case _ => Outdate(s, h, Marks(met, s, e))
  }

  // -- Invariant

  /** `id` is a member of its own service group, which is present. */
  predicate AtHome(s: State, id: string) {
    SvcOf(s, id) in s.groups && id in s.groups[SvcOf(s, id)].members
  }

  /** The host always has a cache entry; a container has one from join to leave. */
  predicate Joined(s: State, id: string) {
    id in s.wl || id == HOST
  }

  predicate Clean(s: State, id: string) {
    Joined(s, id) && id !in s.notify && AtHome(s, id)
  }

  predicate UpToDate(s: State, h: History, id: string, w: nat) {
    WorksOn(s, id, w) && w in h.work
  }

  ghost predicate Pending(s: State, h: History, id: string) {
    id in s.taken || exists w :: UpToDate(s, h, id, w)
  }

  ghost predicate WorkerOk(s: State, k: Worker) {
    match k
    case Gathered(id, svc, layers) => svc == SvcOf(s, id) && IsGather(s.groups, id, layers)
    case Ready(id, proc) => IsFresh(s.groups, id, SvcOf(s, id), proc)
  }

  predicate HasProfile(s: State, id: string) {
    id in s.wl && s.wl[id].Some?
  }

  ghost predicate CacheOk(s: State, id: string) {
    HasProfile(s, id) && IsFresh(s.groups, id, SvcOf(s, id), s.wl[id].value)
  }

  ghost predicate CoherentAt(s: State, h: History, id: string) {
    Joined(s, id) && AtHome(s, id) ==>
      && (forall w :: UpToDate(s, h, id, w) ==> WorkerOk(s, s.workers[w]))
      && (id in h.cache ==> CacheOk(s, id))
      && (id !in s.notify && !Pending(s, h, id) ==> HasProfile(s, id) && (id in h.cache || id in h.late))
  }

  predicate Tidy(s: State, h: History) {
    s.wl.Keys <= s.active.Keys + {HOST} && h.cache !! h.late
  }

  ghost predicate Coherent(s: State, h: History) {
    Tidy(s, h) && forall id :: CoherentAt(s, h, id)
  }

  /** What `id`'s calculation sees is the same in both states. */
  ghost predicate SameView(s: State, s': State, id: string) {
    && SvcOf(s, id) == SvcOf(s', id)
    && (forall n :: Contributes(s.groups, id, n) <==> Contributes(s'.groups, id, n))
    && (forall n :: Contributes(s.groups, id, n) ==> s.groups[n].proc == s'.groups[n].proc)
  }

  lemma {:induction false} SameCollect(g: map<string, GroupData>, g': map<string, GroupData>, order: seq<string>)
    requires forall n :: n in order ==> n in g && n in g' && g[n].proc == g'[n].proc
    ensures Collect(g, order) == Collect(g', order)
  {
    if order != [] {
      SameCollect(g, g', order[..|order| - 1]);
    }
  }

  lemma ViewKeepsGather(s: State, s': State, id: string, layers: seq<seq<Entry>>)
    requires SameView(s, s', id) && IsGather(s.groups, id, layers)
    ensures IsGather(s'.groups, id, layers)
  {
    var order :| Visits(s.groups, id, order) && layers == Collect(s.groups, order);
    SameCollect(s.groups, s'.groups, order);
    assert Visits(s'.groups, id, order);
  }

  lemma ViewKeepsFresh(s: State, s': State, id: string, p: Profile)
    requires SameView(s, s', id) && AtHome(s, id) && IsFresh(s.groups, id, SvcOf(s, id), p)
    ensures IsFresh(s'.groups, id, SvcOf(s', id), p)
  {
    var svc := SvcOf(s, id);
    assert Contributes(s.groups, id, svc);
    var layers :| IsGather(s.groups, id, layers) && |layers| == 3
                  && IsCalculated(AddService(layers, s.groups[svc].proc.rules), p.rules);
    ViewKeepsGather(s, s', id, layers);
  }

  lemma ViewKeepsWorker(s: State, s': State, k: Worker)
    requires SameView(s, s', k.id) && AtHome(s, k.id) && WorkerOk(s, k)
    ensures WorkerOk(s', k)
  {
    match k {
      case Gathered(id, svc, layers) => ViewKeepsGather(s, s', id, layers);
      case Ready(id, proc) => ViewKeepsFresh(s, s', id, proc);
    }
  }

  /** The same recalculations of `id`, the same cache entry, and the same history of both. */
  ghost predicate SameFlight(s: State, h: History, s': State, h': History, id: string) {
    && (id in s.wl <==> id in s'.wl) && (id in s.wl ==> s'.wl[id] == s.wl[id])
    && s.taken[id] == s'.taken[id]
    && (forall w :: WorksOn(s, id, w) <==> WorksOn(s', id, w))
    && (forall w :: WorksOn(s, id, w) ==> s'.workers[w] == s.workers[w])
    && (forall w :: UpToDate(s, h, id, w) <==> UpToDate(s', h', id, w))
    && (id in h.cache <==> id in h'.cache) && (id in h.late <==> id in h'.late)
  }

  lemma SameFlightPending(s: State, h: History, s': State, h': History, id: string)
    requires SameFlight(s, h, s', h', id)
    ensures Pending(s, h, id) <==> Pending(s', h', id)
  {
  }

  lemma ViewKeepsHome(s: State, s': State, id: string)
    requires SameView(s, s', id) && AtHome(s', id)
    ensures AtHome(s, id)
  {
    assert Contributes(s'.groups, id, SvcOf(s', id));
    assert Contributes(s.groups, id, SvcOf(s, id));
  }

  /** A step that leaves `id`'s view, cache entry and flight alone keeps it coherent. */
  lemma ViewKeepsCoherent(s: State, h: History, s': State, h': History, id: string)
    requires CoherentAt(s, h, id) && SameView(s, s', id) && SameFlight(s, h, s', h', id)
    requires id in s.notify ==> id in s'.notify
    ensures CoherentAt(s', h', id)
  {
    if Joined(s', id) && AtHome(s', id) {
      ViewKeepsHome(s, s', id);
      assert Joined(s, id);
      forall w | UpToDate(s', h', id, w)
        ensures WorkerOk(s', s'.workers[w])
      {
        assert UpToDate(s, h, id, w);
        ViewKeepsWorker(s, s', s.workers[w]);
      }
      if id in h'.cache {
        ViewKeepsFresh(s, s', id, s.wl[id].value);
      }
      SameFlightPending(s, h, s', h', id);
    }
  }

  // -- Every step keeps the cache coherent

  /** A refresh on fill must not silently drop a joined member: nothing would mark it. */
  ghost predicate FillSafe(met: C.Matcher, s: State, n: string)
    requires n in s.groups
  {
    forall id :: Joined(s, id) && id in s.groups[n].members ==> id in Refreshed(met, n, s.groups[n].group, s.active)
  }

  /** A service profile that is still to be loaded changes unnoticed, or ends the recalculation. */
  predicate LoadSafe(s: State, w: nat)
    requires w in s.workers && s.workers[w].Gathered?
  {
    s.workers[w].svc in s.groups ==> s.groups[s.workers[w].svc].proc.group != ""
  }

  ghost predicate Guarded(met: C.Matcher, s: State, e: Event)
    requires Enabled(s, e)
  {
    (e.Fill? ==> FillSafe(met, s, e.name)) && (e.Finish? ==> LoadSafe(s, e.w))
  }

  predicate IsGroupEvent(e: Event) {
    e.AddGroup? || e.UpdateGroup? || e.UpdateProc? || e.DeleteGroup? || e.Fill?
  }

  /** A group event either marks the container or leaves its view alone. */
  lemma GroupEventMarks(met: C.Matcher, s: State, e: Event, id: string)
    requires IsGroupEvent(e) && Enabled(s, e) && Guarded(met, s, e) && Joined(s, id)
    ensures id in Marks(met, s, e) || SameView(s, Step(met, s, e), id) || !AtHome(Step(met, s, e), id)
  {
  }

  lemma GroupEventLeavesWork(met: C.Matcher, s: State, e: Event)
    requires IsGroupEvent(e) && Enabled(s, e)
    ensures var s' := Step(met, s, e);
            s'.workers == s.workers && s'.wl == s.wl && s'.taken == s.taken && s'.active == s.active
            && s'.notify == s.notify + Marks(met, s, e)
  {
  }

  /** A mark outdates the container's workers and its cache entry. */
  lemma MarkedIsCoherent(s: State, h: History, s': State, ids: set<string>, id: string)
    requires id in ids && id in s'.notify && s'.workers == s.workers
    ensures CoherentAt(s', Outdate(s, h, ids), id)
  {
  }

  lemma UnmarkedIsSame(s: State, h: History, s': State, ids: set<string>, id: string)
    requires id !in ids && s'.workers == s.workers && s'.taken == s.taken
    requires (id in s.wl <==> id in s'.wl) && (id in s.wl ==> s'.wl[id] == s.wl[id])
    ensures SameFlight(s, h, s', Outdate(s, h, ids), id)
  {
  }

  lemma GroupEventKeeps(met: C.Matcher, s: State, h: History, e: Event, id: string)
    requires IsGroupEvent(e) && Enabled(s, e) && Guarded(met, s, e) && CoherentAt(s, h, id)
    ensures CoherentAt(Step(met, s, e), HistoryStep(met, s, h, e), id)
  {
    var s', ids := Step(met, s, e), Marks(met, s, e);
    GroupEventLeavesWork(met, s, e);
    if id in ids {
      MarkedIsCoherent(s, h, s', ids, id);
    } else if Joined(s', id) && AtHome(s', id) {
      GroupEventMarks(met, s, e, id);
      UnmarkedIsSame(s, h, s', ids, id);
      ViewKeepsCoherent(s, h, s', Outdate(s, h, ids), id);
    }
  }

  predicate IsContainerEvent(e: Event) {
    e.Activate? || e.Join? || e.Leave? || e.Deactivate?
  }

  lemma OtherContainer(met: C.Matcher, s: State, h: History, e: Event, id: string)
    requires IsContainerEvent(e) && Enabled(s, e) && id != e.id
    ensures SameView(s, Step(met, s, e), id)
    ensures SameFlight(s, h, Step(met, s, e), HistoryStep(met, s, h, e), id)
    ensures id in s.notify ==> id in Step(met, s, e).notify
  {
  }

  lemma HostContainer(met: C.Matcher, s: State, h: History, e: Event)
    requires IsContainerEvent(e) && Enabled(s, e) && e.id == HOST
    ensures SameView(s, Step(met, s, e), HOST)
    ensures SameFlight(s, h, Step(met, s, e), HistoryStep(met, s, h, e), HOST)
    ensures HOST in s.notify ==> HOST in Step(met, s, e).notify
  {
    assert e.Deactivate?;
  }

  lemma ContainerEventKeeps(met: C.Matcher, s: State, h: History, e: Event, id: string)
    requires IsContainerEvent(e) && Enabled(s, e) && Tidy(s, h) && CoherentAt(s, h, id)
    ensures CoherentAt(Step(met, s, e), HistoryStep(met, s, h, e), id)
  {
    var s', h' := Step(met, s, e), HistoryStep(met, s, h, e);
    if id != e.id {
      OtherContainer(met, s, h, e, id);
      ViewKeepsCoherent(s, h, s', h', id);
    } else if id == HOST {
      HostContainer(met, s, h, e);
      ViewKeepsCoherent(s, h, s', h', id);
    } else if e.Join? {
      MarkedIsCoherent(s, h, s', {id}, id);
    } else {
      assert !Joined(s', id);
    }
  }

  lemma TickKeeps(met: C.Matcher, s: State, h: History, id: string)
    requires CoherentAt(s, h, id)
    ensures CoherentAt(Step(met, s, Tick), h, id)
  {
    var s' := Step(met, s, Tick);
    assert SameView(s, s', id);
    if Joined(s', id) && AtHome(s', id) {
      forall w | UpToDate(s', h, id, w)
        ensures WorkerOk(s', s'.workers[w])
      {
        assert UpToDate(s, h, id, w);
        ViewKeepsWorker(s, s', s.workers[w]);
      }
      if !Pending(s', h, id) {
        assert id !in s'.taken && id !in s.notify && id !in s.taken;
        assert forall w :: UpToDate(s, h, id, w) ==> UpToDate(s', h, id, w);
      }
    }
  }

  predicate IsWorkerEvent(e: Event) {
    e.Gather? || e.Finish? || e.Store?
  }

  /** The container that a worker event is about. */
  ghost function OwnerOf(s: State, e: Event): string
    requires IsWorkerEvent(e) && Enabled(s, e)
  {
    if e.Gather? then e.id else s.workers[e.w].id
  }

  /** With its service profile loaded, a worker finishes without touching the groups. */
  function Delivered(s: State, w: nat, rules: seq<Entry>): map<nat, Worker>
    requires w in s.workers && s.workers[w].Gathered?
  {
    var svc := s.workers[w].svc;
    if svc in s.groups
    then s.workers[w := Ready(s.workers[w].id, Profile(s.groups[svc].proc.group, s.groups[svc].proc.mode, rules))]
    else s.workers - {w}
  }

  lemma SafeFinish(s: State, w: nat, rules: seq<Entry>, loaded: Option<Profile>)
    requires w in s.workers && s.workers[w].Gathered? && LoadSafe(s, w)
    ensures FinishStep(s, w, rules, loaded) == s.(workers := Delivered(s, w, rules))
  {
  }

  lemma OtherWorkers(s: State, h: History, s': State, h': History, w: nat, id: string)
    requires s'.groups == s.groups && s'.active == s.active && s'.notify == s.notify
    requires (id in s.wl <==> id in s'.wl) && (id in s.wl ==> s'.wl[id] == s.wl[id]) && s.taken[id] == s'.taken[id]
    requires forall v :: v != w ==> (v in s.workers <==> v in s'.workers) && (v in s.workers ==> s.workers[v] == s'.workers[v])
    requires !WorksOn(s, id, w) && !WorksOn(s', id, w)
    requires forall v :: v != w ==> (v in h.work <==> v in h'.work)
    requires (id in h.cache <==> id in h'.cache) && (id in h.late <==> id in h'.late)
    ensures SameView(s, s', id) && SameFlight(s, h, s', h', id)
  {
  }

  lemma GatherTouchesOne(met: C.Matcher, s: State, h: History, w: nat, own: string, order: seq<string>, id: string)
    requires Enabled(s, Gather(w, own, order)) && id != own
    ensures SameView(s, GatherStep(s, w, own, order), id) && GatherStep(s, w, own, order).notify == s.notify
    ensures SameFlight(s, h, GatherStep(s, w, own, order), HistoryStep(met, s, h, Gather(w, own, order)), id)
  {
    OtherWorkers(s, h, GatherStep(s, w, own, order), HistoryStep(met, s, h, Gather(w, own, order)), w, id);
  }

  lemma StoreTouchesOne(s: State, h: History, w: nat, id: string)
    requires Enabled(s, Store(w)) && id != s.workers[w].id
    ensures SameView(s, StoreStep(s, w), id) && StoreStep(s, w).notify == s.notify
    ensures SameFlight(s, h, StoreStep(s, w), StoreHistory(s, h, w), id)
  {
    OtherWorkers(s, h, StoreStep(s, w), StoreHistory(s, h, w), w, id);
  }

  lemma FinishTouchesOne(s: State, h: History, w: nat, rules: seq<Entry>, loaded: Option<Profile>, id: string)
    requires Enabled(s, Finish(w, rules, loaded)) && LoadSafe(s, w) && id != s.workers[w].id
    ensures var s' := FinishStep(s, w, rules, loaded);
            SameView(s, s', id) && s'.notify == s.notify && SameFlight(s, h, s', h, id)
  {
    SafeFinish(s, w, rules, loaded);
    OtherWorkers(s, h, s.(workers := Delivered(s, w, rules)), h, w, id);
  }

  /** A worker touches nothing but the flight and the cache entry of its own container. */
  lemma WorkerTouchesOne(met: C.Matcher, s: State, h: History, e: Event, id: string)
    requires IsWorkerEvent(e) && Enabled(s, e) && Guarded(met, s, e) && id != OwnerOf(s, e)
    ensures var s' := Step(met, s, e);
            && SameView(s, s', id) && s'.notify == s.notify
            && SameFlight(s, h, s', HistoryStep(met, s, h, e), id)
  {
    match e {
      case Gather(w, own, order) => GatherTouchesOne(met, s, h, w, own, order, id);
      case Finish(w, rules, loaded) => FinishTouchesOne(s, h, w, rules, loaded, id);
      case Store(w) => StoreTouchesOne(s, h, w, id);
    }
  }

  lemma OthersUntouched(met: C.Matcher, s: State, h: History, e: Event, id: string)
    requires IsWorkerEvent(e) && Enabled(s, e) && Guarded(met, s, e) && CoherentAt(s, h, id) && id != OwnerOf(s, e)
    ensures CoherentAt(Step(met, s, e), HistoryStep(met, s, h, e), id)
  {
    WorkerTouchesOne(met, s, h, e, id);
    ViewKeepsCoherent(s, h, Step(met, s, e), HistoryStep(met, s, h, e), id);
  }

  lemma GatherKeeps(met: C.Matcher, s: State, h: History, w: nat, id: string, order: seq<string>)
    requires Enabled(s, Gather(w, id, order)) && Tidy(s, h) && CoherentAt(s, h, id)
    ensures CoherentAt(Step(met, s, Gather(w, id, order)), HistoryStep(met, s, h, Gather(w, id, order)), id)
  {
    var e := Gather(w, id, order);
    var s', h' := Step(met, s, e), HistoryStep(met, s, h, e);
    if Joined(s', id) && AtHome(s', id) {
      assert id == HOST || id in s.active;
      assert UpToDate(s', h', id, w);
      forall v | UpToDate(s', h', id, v)
        ensures WorkerOk(s', s'.workers[v])
      {
        if v == w {
          assert Visits(s'.groups, id, order);
        } else {
          assert UpToDate(s, h, id, v);
        }
      }
    }
  }

  lemma FinishedOk(s: State, k: Worker, rules: seq<Entry>)
    requires k.Gathered? && WorkerOk(s, k) && |k.layers| == 3 && k.svc in s.groups
    requires IsCalculated(AddService(k.layers, s.groups[k.svc].proc.rules), rules)
    ensures IsFresh(s.groups, k.id, k.svc, Profile(s.groups[k.svc].proc.group, s.groups[k.svc].proc.mode, rules))
  {
  }

  lemma DeliveredOk(s: State, h: History, w: nat, rules: seq<Entry>, id: string, v: nat)
    requires w in s.workers && s.workers[w].Gathered? && |s.workers[w].layers| == 3 && UpToDate(s, h, id, v)
    requires WorkerOk(s, s.workers[v]) && AtHome(s, id)
    requires v == w ==> s.workers[w].svc in s.groups
                        && IsCalculated(AddService(s.workers[w].layers, s.groups[s.workers[w].svc].proc.rules), rules)
    ensures var s' := s.(workers := Delivered(s, w, rules)); UpToDate(s', h, id, v) && WorkerOk(s', s'.workers[v])
  {
    if v == w {
      FinishedOk(s, s.workers[w], rules);
    }
  }

  lemma FinishKeeps(met: C.Matcher, s: State, h: History, w: nat, rules: seq<Entry>, loaded: Option<Profile>, id: string)
    requires Enabled(s, Finish(w, rules, loaded)) && LoadSafe(s, w) && id == s.workers[w].id && CoherentAt(s, h, id)
    ensures CoherentAt(Step(met, s, Finish(w, rules, loaded)), h, id)
  {
    SafeFinish(s, w, rules, loaded);
    var s' := s.(workers := Delivered(s, w, rules));
    assert Step(met, s, Finish(w, rules, loaded)) == s';
    if Joined(s', id) && AtHome(s', id) {
      assert Joined(s, id) && AtHome(s, id);
      forall v | UpToDate(s, h, id, v)
        ensures UpToDate(s', h, id, v) && WorkerOk(s', s'.workers[v])
      {
        DeliveredOk(s, h, w, rules, id, v);
      }
      assert forall v :: UpToDate(s', h, id, v) ==> UpToDate(s, h, id, v);
      assert CacheOk(s, id) ==> CacheOk(s', id);
    }
  }

  lemma StoreKeeps(met: C.Matcher, s: State, h: History, w: nat, id: string)
    requires Enabled(s, Store(w)) && id == s.workers[w].id && CoherentAt(s, h, id)
    ensures CoherentAt(Step(met, s, Store(w)), HistoryStep(met, s, h, Store(w)), id)
  {
    var s', h' := Step(met, s, Store(w)), HistoryStep(met, s, h, Store(w));
    if Joined(s', id) && AtHome(s', id) {
      assert AtHome(s, id) && Storable(s, id);
      forall v | UpToDate(s', h', id, v)
        ensures WorkerOk(s', s'.workers[v])
      {
        assert UpToDate(s, h, id, v);
      }
      if w in h.work {
        assert UpToDate(s, h, id, w);
      }
    }
  }

  lemma StepKeepsAt(met: C.Matcher, s: State, h: History, e: Event, id: string)
    requires Tidy(s, h) && CoherentAt(s, h, id) && Enabled(s, e) && Guarded(met, s, e)
    ensures CoherentAt(Step(met, s, e), HistoryStep(met, s, h, e), id)
  {
    if IsGroupEvent(e) {
      GroupEventKeeps(met, s, h, e, id);
    } else if IsContainerEvent(e) {
      ContainerEventKeeps(met, s, h, e, id);
    } else if e.Tick? {
      TickKeeps(met, s, h, id);
    } else if id != OwnerOf(s, e) {
      OthersUntouched(met, s, h, e, id);
    } else {
      match e
      case Gather(w, _, order) => GatherKeeps(met, s, h, w, id, order);
      case Finish(w, rules, loaded) => FinishKeeps(met, s, h, w, rules, loaded, id);
      case Store(w) => StoreKeeps(met, s, h, w, id);
    }
  }

  lemma StepKeepsTidy(met: C.Matcher, s: State, h: History, e: Event)
    requires Tidy(s, h) && Enabled(s, e)
    ensures Tidy(Step(met, s, e), HistoryStep(met, s, h, e))
  {
  }

  lemma StepKeepsCoherent(met: C.Matcher, s: State, h: History, e: Event)
    requires Coherent(s, h) && Enabled(s, e) && Guarded(met, s, e)
    ensures Coherent(Step(met, s, e), HistoryStep(met, s, h, e))
  {
    StepKeepsTidy(met, s, h, e);
    forall id
      ensures CoherentAt(Step(met, s, e), HistoryStep(met, s, h, e), id)
    {
      StepKeepsAt(met, s, h, e, id);
    }
  }

  /** A run whose fills and loads are safe; ticks may come at any time. */
  ghost predicate IsRun(met: C.Matcher, s: State, h: History, es: seq<Event>, s': State, h': History)
    decreases |es|
  {
    if es == [] then s' == s && h' == h
    else
      && Enabled(s, es[0]) && Guarded(met, s, es[0])
      && IsRun(met, Step(met, s, es[0]), HistoryStep(met, s, h, es[0]), es[1..], s', h')
  }

  lemma {:induction false} RunKeepsCoherent(met: C.Matcher, s: State, h: History, es: seq<Event>, s': State, h': History)
    requires Coherent(s, h) && IsRun(met, s, h, es, s', h')
    ensures Coherent(s', h')
    decreases |es|
  {
    if es != [] {
      StepKeepsCoherent(met, s, h, es[0]);
      RunKeepsCoherent(met, Step(met, s, es[0]), HistoryStep(met, s, h, es[0]), es[1..], s', h');
    }
  }

  const EMPTY: State := State(map[], map[], map[], {}, multiset{}, map[])

  lemma EmptyIsCoherent()
    ensures Coherent(EMPTY, NO_HISTORY)
  {
  }

  /** After any run from an empty cache, however recalculations overlap: what a worker stored that
      gathered after the last mark of its container is exactly what a calculation from the
      current groups would give. */
  lemma CurrentStoreIsFresh(met: C.Matcher, es: seq<Event>, s: State, h: History, id: string)
    requires IsRun(met, EMPTY, NO_HISTORY, es, s, h)
    requires Joined(s, id) && AtHome(s, id) && id in h.cache
    ensures CacheOk(s, id)
  {
    EmptyIsCoherent();
    RunKeepsCoherent(met, EMPTY, NO_HISTORY, es, s, h);
    assert CoherentAt(s, h, id);
  }

  /** A container that is neither marked nor being recalculated has a cached profile; its last
      store came from a worker that gathered after the last mark, or else it came too late. */
  lemma QuietIsCurrentOrLate(met: C.Matcher, es: seq<Event>, s: State, h: History, id: string)
    requires IsRun(met, EMPTY, NO_HISTORY, es, s, h)
    requires Clean(s, id) && !InFlight(s, id)
    ensures HasProfile(s, id) && (id in h.cache <==> id !in h.late)
    ensures id !in h.late ==> CacheOk(s, id)
  {
    EmptyIsCoherent();
    RunKeepsCoherent(met, EMPTY, NO_HISTORY, es, s, h);
    assert CoherentAt(s, h, id);
  }

  // -- Recalculations that do not overlap are never late

  /** No tick takes a container whose previous recalculation is still under way. */
  ghost predicate TickSafe(s: State) {
    forall id :: id in s.notify ==> !InFlight(s, id)
  }

  ghost predicate TicksApart(met: C.Matcher, s: State, es: seq<Event>)
    decreases |es|
  {
    es != [] ==> Enabled(s, es[0]) && (es[0].Tick? ==> TickSafe(s)) && TicksApart(met, Step(met, s, es[0]), es[1..])
  }

  ghost predicate Alone(s: State, id: string) {
    && s.taken[id] <= 1 && (id in s.taken ==> forall w :: !WorksOn(s, id, w))
    && forall v, w :: WorksOn(s, id, v) && WorksOn(s, id, w) ==> v == w
  }

  /** While nothing marks a container, its worker is up to date, and a late entry is being replaced. */
  ghost predicate Punctual(s: State, h: History, id: string) {
    Clean(s, id) ==>
      && (forall w :: WorksOn(s, id, w) ==> w in h.work)
      && (id in h.late ==> InFlight(s, id))
  }

  ghost predicate ApartAt(s: State, h: History, id: string) {
    Alone(s, id) && Punctual(s, h, id)
  }

  lemma SameFlightInFlight(s: State, h: History, s': State, h': History, id: string)
    requires SameFlight(s, h, s', h', id)
    ensures InFlight(s, id) <==> InFlight(s', id)
    ensures Alone(s, id) ==> Alone(s', id)
  {
  }

  lemma SameStaysApart(s: State, h: History, s': State, h': History, id: string)
    requires ApartAt(s, h, id) && SameView(s, s', id) && SameFlight(s, h, s', h', id)
    requires id in s.notify ==> id in s'.notify
    ensures ApartAt(s', h', id)
  {
    SameFlightInFlight(s, h, s', h', id);
    if Clean(s', id) {
      ViewKeepsHome(s, s', id);
      assert Clean(s, id);
      forall w | WorksOn(s', id, w)
        ensures w in h'.work
      {
        assert UpToDate(s, h, id, w);
        assert UpToDate(s', h', id, w);
      }
    }
  }

  lemma SameWorkStaysAlone(s: State, s': State, id: string)
    requires Alone(s, id) && s'.workers == s.workers && s'.taken == s.taken
    ensures Alone(s', id)
  {
    assert forall w :: WorksOn(s', id, w) ==> WorksOn(s, id, w);
  }

  lemma GroupEventStaysApart(met: C.Matcher, s: State, h: History, e: Event, id: string)
    requires IsGroupEvent(e) && Enabled(s, e) && Guarded(met, s, e) && ApartAt(s, h, id)
    ensures ApartAt(Step(met, s, e), HistoryStep(met, s, h, e), id)
  {
    var s', ids := Step(met, s, e), Marks(met, s, e);
    GroupEventLeavesWork(met, s, e);
    SameWorkStaysAlone(s, s', id);
    if Clean(s', id) {
      GroupEventMarks(met, s, e, id);
      UnmarkedIsSame(s, h, s', ids, id);
      SameStaysApart(s, h, s', Outdate(s, h, ids), id);
    }
  }

  lemma ContainerEventStaysApart(met: C.Matcher, s: State, h: History, e: Event, id: string)
    requires IsContainerEvent(e) && Enabled(s, e) && Tidy(s, h) && ApartAt(s, h, id)
    ensures ApartAt(Step(met, s, e), HistoryStep(met, s, h, e), id)
  {
    var s', h' := Step(met, s, e), HistoryStep(met, s, h, e);
    if id != e.id {
      OtherContainer(met, s, h, e, id);
      SameStaysApart(s, h, s', h', id);
    } else if id == HOST {
      HostContainer(met, s, h, e);
      SameStaysApart(s, h, s', h', id);
    } else {
      SameWorkStaysAlone(s, s', id);
      assert !Clean(s', id);
    }
  }

  lemma TickStaysApart(met: C.Matcher, s: State, h: History, id: string)
    requires ApartAt(s, h, id) && TickSafe(s)
    ensures ApartAt(Step(met, s, Tick), h, id)
  {
    var s' := Step(met, s, Tick);
    assert forall w :: WorksOn(s', id, w) <==> WorksOn(s, id, w);
    if id in s.notify {
      assert !InFlight(s, id);
      assert s'.taken[id] == 1;
    } else {
      assert s'.taken[id] == s.taken[id];
      assert Clean(s', id) ==> Clean(s, id);
    }
  }

  lemma GatherStaysApart(met: C.Matcher, s: State, h: History, w: nat, id: string, order: seq<string>)
    requires Enabled(s, Gather(w, id, order)) && Tidy(s, h) && ApartAt(s, h, id)
    ensures ApartAt(Step(met, s, Gather(w, id, order)), HistoryStep(met, s, h, Gather(w, id, order)), id)
  {
    var s' := Step(met, s, Gather(w, id, order));
    assert forall v :: !WorksOn(s, id, v);
    forall v | WorksOn(s', id, v)
      ensures v == w
    {
      assert !WorksOn(s, id, v);
    }
    assert s'.taken[id] == 0;
    if Clean(s', id) {
      assert WorksOn(s', id, w);
    }
  }

  lemma FinishStaysApart(met: C.Matcher, s: State, h: History, w: nat, rules: seq<Entry>, loaded: Option<Profile>, id: string)
    requires Enabled(s, Finish(w, rules, loaded)) && LoadSafe(s, w) && id == s.workers[w].id
    requires CoherentAt(s, h, id) && ApartAt(s, h, id)
    ensures ApartAt(Step(met, s, Finish(w, rules, loaded)), h, id)
  {
    SafeFinish(s, w, rules, loaded);
    var s' := s.(workers := Delivered(s, w, rules));
    assert Step(met, s, Finish(w, rules, loaded)) == s';
    assert forall v :: WorksOn(s', id, v) ==> WorksOn(s, id, v);
    if Clean(s', id) {
      assert Clean(s, id) && WorksOn(s, id, w);
      assert UpToDate(s, h, id, w);
      assert WorksOn(s', id, w);
    }
  }

  lemma StoreStaysApart(met: C.Matcher, s: State, h: History, w: nat, id: string)
    requires Enabled(s, Store(w)) && id == s.workers[w].id && ApartAt(s, h, id)
    ensures ApartAt(Step(met, s, Store(w)), HistoryStep(met, s, h, Store(w)), id)
  {
    var s' := Step(met, s, Store(w));
    assert forall v :: WorksOn(s', id, v) ==> WorksOn(s, id, v);
    assert WorksOn(s, id, w);
    if Clean(s', id) {
      assert Clean(s, id) && Storable(s, id);
    }
  }

  lemma WorkerStaysApart(met: C.Matcher, s: State, h: History, e: Event, id: string)
    requires IsWorkerEvent(e) && Enabled(s, e) && Guarded(met, s, e) && id == OwnerOf(s, e)
    requires Tidy(s, h) && CoherentAt(s, h, id) && ApartAt(s, h, id)
    ensures ApartAt(Step(met, s, e), HistoryStep(met, s, h, e), id)
  {
    match e {
      case Gather(w, _, order) => GatherStaysApart(met, s, h, w, id, order);
      case Finish(w, rules, loaded) => FinishStaysApart(met, s, h, w, rules, loaded, id);
      case Store(w) => StoreStaysApart(met, s, h, w, id);
    }
  }

  lemma StepStaysApart(met: C.Matcher, s: State, h: History, e: Event, id: string)
    requires Coherent(s, h) && Enabled(s, e) && Guarded(met, s, e) && (e.Tick? ==> TickSafe(s)) && ApartAt(s, h, id)
    ensures ApartAt(Step(met, s, e), HistoryStep(met, s, h, e), id)
  {
    assert CoherentAt(s, h, id);
    if IsGroupEvent(e) {
      GroupEventStaysApart(met, s, h, e, id);
    } else if IsContainerEvent(e) {
      ContainerEventStaysApart(met, s, h, e, id);
    } else if e.Tick? {
      TickStaysApart(met, s, h, id);
    } else if id != OwnerOf(s, e) {
      WorkerTouchesOne(met, s, h, e, id);
      SameStaysApart(s, h, Step(met, s, e), HistoryStep(met, s, h, e), id);
    } else {
      WorkerStaysApart(met, s, h, e, id);
    }
  }

  lemma {:induction false} RunStaysApart(met: C.Matcher, s: State, h: History, es: seq<Event>, s': State, h': History, id: string)
    requires Coherent(s, h) && IsRun(met, s, h, es, s', h') && TicksApart(met, s, es) && ApartAt(s, h, id)
    ensures ApartAt(s', h', id)
    decreases |es|
  {
    if es != [] {
      StepKeepsCoherent(met, s, h, es[0]);
      StepStaysApart(met, s, h, es[0], id);
      RunStaysApart(met, Step(met, s, es[0]), HistoryStep(met, s, h, es[0]), es[1..], s', h', id);
    }
  }

  /** After any run from an empty cache in which no tick overtakes a recalculation: a container
      that is neither marked nor being recalculated, and belongs to its own present service
      group, has cached exactly what a calculation from the current groups would give. */
  lemma DirtySetIsSound(met: C.Matcher, es: seq<Event>, s: State, h: History, id: string)
    requires IsRun(met, EMPTY, NO_HISTORY, es, s, h) && TicksApart(met, EMPTY, es)
    requires Clean(s, id) && !InFlight(s, id)
    ensures id !in h.late && CacheOk(s, id)
  {
    EmptyIsCoherent();
    RunStaysApart(met, EMPTY, NO_HISTORY, es, s, h, id);
    QuietIsCurrentOrLate(met, es, s, h, id);
  }

  // -- What a fresh profile means for lookups

  lemma FreshDecides(groups: map<string, GroupData>, id: string, svc: string, f: Profile, p: Match)
    returns (layers: seq<seq<Entry>>, layer: nat)
    requires IsFresh(groups, id, svc, f)
    ensures |layers| == 3 && IsGather(groups, id, layers)
    ensures FaithfulLayers(AddService(layers, groups[svc].proc.rules)) ==>
              LayersDecide(AddService(layers, groups[svc].proc.rules), p, FirstHit(f.rules, p), layer)
  {
    layers :| IsGather(groups, id, layers) && |layers| == 3
              && IsCalculated(AddService(layers, groups[svc].proc.rules), f.rules);
    layer := 0;
    if FaithfulLayers(AddService(layers, groups[svc].proc.rules)) {
      layer := PriorityOrder(AddService(layers, groups[svc].proc.rules), f.rules, p);
    }
  }

  ghost predicate FederalHit(groups: map<string, GroupData>, id: string, p: Match) {
    exists x :: FederalRule(groups, id, x) && Kept(x) && Hits(p, x)
  }

  ghost predicate OwnHit(groups: map<string, GroupData>, id: string, own: Profile, crd: bool, p: Match) {
    exists x :: OwnRule(groups, id, own, x) && x.crd == crd && Kept(x) && Hits(p, x)
  }

  /** The answer to a lookup comes from a federal rule if one is hit; else from a custom-resource
      rule if one is hit; else from another rule if one is hit. */
  ghost predicate Ranked(groups: map<string, GroupData>, id: string, own: Profile, p: Match, r: Option<Entry>) {
    if FederalHit(groups, id, p) then r.Some? && FederalRule(groups, id, r.value)
    else if OwnHit(groups, id, own, true, p) then r.Some? && OwnRule(groups, id, own, r.value) && r.value.crd
    else if OwnHit(groups, id, own, false, p) then r.Some? && OwnRule(groups, id, own, r.value) && !r.value.crd
    else r.None?
  }

  lemma LayerHit(groups: map<string, GroupData>, id: string, own: Profile, layers: seq<seq<Entry>>, p: Match)
    requires |layers| == 3 && IsGather(groups, id, layers)
    ensures var all := AddService(layers, own.rules);
            && (FederalHit(groups, id, p) <==> !NothingHit(all[0], p))
            && (OwnHit(groups, id, own, true, p) <==> !NothingHit(all[1], p))
            && (OwnHit(groups, id, own, false, p) <==> !NothingHit(all[2], p))
  {
    var all := AddService(layers, own.rules);
    forall x
      ensures x in all[0] <==> FederalRule(groups, id, x)
      ensures x in all[1] <==> OwnRule(groups, id, own, x) && x.crd
      ensures x in all[2] <==> OwnRule(groups, id, own, x) && !x.crd
    {
      CalculatedWhere(groups, id, own, layers, x);
    }
  }

  lemma DecidedIsRanked(groups: map<string, GroupData>, id: string, own: Profile, layers: seq<seq<Entry>>, p: Match,
                        r: Option<Entry>, layer: nat)
    requires |layers| == 3 && IsGather(groups, id, layers) && LayersDecide(AddService(layers, own.rules), p, r, layer)
    ensures Ranked(groups, id, own, p, r)
  {
    var all := AddService(layers, own.rules);
    LayerHit(groups, id, own, layers, p);
    if r.Some? {
      CalculatedWhere(groups, id, own, layers, r.value);
      assert !NothingHit(all[layer], p);
      assert forall k :: 0 <= k < layer ==> NothingHit(all[k], p);
      assert layer == 0 || layer == 1 || layer == 2;
    } else {
      assert NothingHit(all[0], p) && NothingHit(all[1], p) && NothingHit(all[2], p);
    }
  }

  /** A current cache entry comes from layers of the rules of the container's current groups, and
      decides every lookup as the priority order over them does, if they are faithful. */
  lemma CurrentCacheDecides(met: C.Matcher, es: seq<Event>, s: State, h: History, id: string, p: Match)
    returns (layers: seq<seq<Entry>>, layer: nat)
    requires IsRun(met, EMPTY, NO_HISTORY, es, s, h)
    requires Joined(s, id) && AtHome(s, id) && id in h.cache
    ensures HasProfile(s, id) && |layers| == 3 && IsGather(s.groups, id, layers)
    ensures var own := s.groups[SvcOf(s, id)].proc;
            var all := AddService(layers, own.rules);
            FaithfulLayers(all) ==>
              && LayersDecide(all, p, FirstHit(s.wl[id].value.rules, p), layer)
              && Ranked(s.groups, id, own, p, FirstHit(s.wl[id].value.rules, p))
  {
    CurrentStoreIsFresh(met, es, s, h, id);
    layers, layer := FreshDecides(s.groups, id, SvcOf(s, id), s.wl[id].value, p);
    var own := s.groups[SvcOf(s, id)].proc;
    if FaithfulLayers(AddService(layers, own.rules)) {
      DecidedIsRanked(s.groups, id, own, layers, p, FirstHit(s.wl[id].value.rules, p), layer);
    }
  }

  /** None of the rules that a calculation for `id` is made from has a ':' in its name. */
  ghost predicate PlainRules(groups: map<string, GroupData>, id: string, own: Profile) {
    forall x :: FederalRule(groups, id, x) || OwnRule(groups, id, own, x) ==> ':' !in x.name
  }

  lemma PlainLayers(groups: map<string, GroupData>, id: string, own: Profile, layers: seq<seq<Entry>>)
    requires |layers| == 3 && IsGather(groups, id, layers) && PlainRules(groups, id, own)
    ensures FaithfulLayers(AddService(layers, own.rules))
  {
    var all := AddService(layers, own.rules);
    forall x: Entry
      ensures x in all[0] || x in all[1] || x in all[2] ==> ':' !in x.name
    {
      CalculatedWhere(groups, id, own, layers, x);
    }
    PlainIsFaithful(all);
  }

  /** Every lookup in a calculated list is answered by a federal rule first, then by a
      custom-resource rule, then by another. */
  lemma ResultIsRanked(groups: map<string, GroupData>, id: string, own: Profile, f: Profile, p: Match)
    requires IsResult(groups, id, own, f) && PlainRules(groups, id, own)
    ensures Ranked(groups, id, own, p, FirstHit(f.rules, p))
  {
    var layers :| IsGather(groups, id, layers) && |layers| == 3 && IsCalculated(AddService(layers, own.rules), f.rules);
    PlainLayers(groups, id, own, layers);
    var layer := PriorityOrder(AddService(layers, own.rules), f.rules, p);
    DecidedIsRanked(groups, id, own, layers, p, FirstHit(f.rules, p), layer);
  }

  // -- An unsafe fill does leave a stale cache

  lemma {:induction false} CrdRulesKeep(rules: seq<Entry>, x: Entry)
    ensures x in rules <==> x in CrdRules(rules, true) || x in CrdRules(rules, false)
  {
    if rules != [] {
      var k := |rules| - 1;
      CrdRulesKeep(rules[..k], x);
      assert rules == rules[..k] + [rules[k]];
    }
  }

  /** `x` stands in one of the three layers. */
  predicate InLayers(layers: seq<seq<Entry>>, x: Entry)
    requires |layers| == 3
  {
    x in layers[0] || x in layers[1] || x in layers[2]
  }

  lemma AddServiceHolds(layers: seq<seq<Entry>>, rules: seq<Entry>, x: Entry)
    requires |layers| == 3
    ensures InLayers(AddService(layers, rules), x) <==> InLayers(layers, x) || x in rules
  {
    CrdRulesKeep(rules, x);
  }

  /** The layers hold the rules of the groups visited, and no others. */
  lemma {:induction false} CollectHolds(groups: map<string, GroupData>, order: seq<string>, x: Entry)
    requires forall n :: n in order ==> n in groups
    ensures InLayers(Collect(groups, order), x) <==> exists n :: n in order && x in groups[n].proc.rules
    decreases |order|
  {
    if order != [] {
      var init, last := order[..|order| - 1], order[|order| - 1];
      CollectHolds(groups, init, x);
      AddServiceHolds(Collect(groups, init), groups[last].proc.rules, x);
      assert order == init + [last];
      assert InLayers(Collect(groups, order), x) <==> InLayers(Collect(groups, init), x) || x in groups[last].proc.rules;
    }
  }

  // -- Which layer a rule goes to

  ghost predicate FederalRule(groups: map<string, GroupData>, id: string, x: Entry) {
    exists n :: Contributes(groups, id, n) && "fed." <= n && x in groups[n].proc.rules
  }

  ghost predicate LocalRule(groups: map<string, GroupData>, id: string, x: Entry) {
    exists n :: Contributes(groups, id, n) && !("fed." <= n) && x in groups[n].proc.rules
  }

  lemma LastOf(rules: seq<Entry>, init: seq<Entry>, last: Entry, x: Entry)
    requires rules == init + [last]
    ensures x in rules <==> x in init || x == last
  {
  }

  lemma {:induction false} CrdRulesAre(rules: seq<Entry>, crd: bool, x: Entry)
    ensures x in CrdRules(rules, crd) <==> x in rules && x.crd == crd
  {
    if rules != [] {
      var k := |rules| - 1;
      CrdRulesAre(rules[..k], crd, x);
      LastOf(rules, rules[..k], rules[k], x);
    }
  }

  /** Some group of `order`, federal or not, has the rule. */
  ghost predicate From(groups: map<string, GroupData>, order: seq<string>, federal: bool, x: Entry) {
    exists n :: n in order && n in groups && ("fed." <= n) == federal && x in groups[n].proc.rules
  }

  lemma FromSnoc(groups: map<string, GroupData>, order: seq<string>, n: string, federal: bool, x: Entry)
    requires n in groups
    ensures From(groups, order + [n], federal, x) <==>
            From(groups, order, federal, x) || (("fed." <= n) == federal && x in groups[n].proc.rules)
  {
    if From(groups, order + [n], federal, x) {
      var m :| m in order + [n] && m in groups && ("fed." <= m) == federal && x in groups[m].proc.rules;
      assert m in order || m == n;
    }
    assert n in order + [n];
  }

  lemma AddedWhere(layers: seq<seq<Entry>>, n: string, rules: seq<Entry>, x: Entry)
    requires |layers| == 3
    ensures var all := AddGroupRules(layers, n, rules);
            && |all| == 3
            && (x in all[0] <==> x in layers[0] || ("fed." <= n && x in rules))
            && (x in all[1] <==> x in layers[1] || (!("fed." <= n) && x in rules && x.crd))
            && (x in all[2] <==> x in layers[2] || (!("fed." <= n) && x in rules && !x.crd))
  {
    CrdRulesAre(rules, true, x);
    CrdRulesAre(rules, false, x);
  }

  lemma {:induction false} CollectedWhere(groups: map<string, GroupData>, order: seq<string>, x: Entry)
    requires forall n :: n in order ==> n in groups
    ensures var layers := Collect(groups, order);
            && (x in layers[0] <==> From(groups, order, true, x))
            && (x in layers[1] <==> From(groups, order, false, x) && x.crd)
            && (x in layers[2] <==> From(groups, order, false, x) && !x.crd)
    decreases |order|
  {
    if order != [] {
      var init, last := order[..|order| - 1], order[|order| - 1];
      CollectedWhere(groups, init, x);
      assert order == init + [last];
      FromSnoc(groups, init, last, true, x);
      FromSnoc(groups, init, last, false, x);
      AddedWhere(Collect(groups, init), last, groups[last].proc.rules, x);
    }
  }

  /** Whatever order the groups come in: the rules of groups named "fed." and so on are the first
      layer, custom-resource rules of the others the second, the rest the third. */
  lemma GatheredWhere(groups: map<string, GroupData>, id: string, layers: seq<seq<Entry>>, x: Entry)
    requires IsGather(groups, id, layers)
    ensures |layers| == 3
    ensures x in layers[0] <==> FederalRule(groups, id, x)
    ensures x in layers[1] <==> LocalRule(groups, id, x) && x.crd
    ensures x in layers[2] <==> LocalRule(groups, id, x) && !x.crd
  {
    var order :| Visits(groups, id, order) && layers == Collect(groups, order);
    CollectedWhere(groups, order, x);
  }

  /** A rule of the container's own service, or of another group that is not federal. */
  ghost predicate OwnRule(groups: map<string, GroupData>, id: string, own: Profile, x: Entry) {
    LocalRule(groups, id, x) || x in own.rules
  }

  lemma CalculatedWhere(groups: map<string, GroupData>, id: string, own: Profile, layers: seq<seq<Entry>>, x: Entry)
    requires |layers| == 3 && IsGather(groups, id, layers)
    ensures var all := AddService(layers, own.rules);
            && (x in all[0] <==> FederalRule(groups, id, x))
            && (x in all[1] <==> OwnRule(groups, id, own, x) && x.crd)
            && (x in all[2] <==> OwnRule(groups, id, own, x) && !x.crd)
  {
    GatheredWhere(groups, id, layers, x);
    CrdRulesAre(own.rules, true, x);
    CrdRulesAre(own.rules, false, x);
  }

  lemma MergedOnlyHolds(cur: seq<Entry>, parts: seq<seq<Entry>>, y: Entry)
    requires IsMerged(cur, parts) && y in Flatten(parts)
    ensures y in cur
  {
    FlattenHolds(parts, y);
    var c :| 0 <= c < |parts| && y in parts[c];
    assert IsPart(cur, c, parts[c]);
    assert Winners(cur, c)[Key(y)] == y;
  }

  lemma MergedRepresents(cur: seq<Entry>, parts: seq<seq<Entry>>, x: Entry) returns (y: Entry)
    requires IsMerged(cur, parts) && Unambiguous(cur) && x in cur && Kept(x)
    ensures y in Flatten(parts) && SameSpot(y, x)
  {
    y := RepresentedInClass(cur, parts, x);
    FlattenHolds(parts, y);
  }

  /** If two rules of one class share a key, they share name and path. */
  predicate Clear(x: Entry, y: Entry) {
    Kept(x) && Kept(y) && ClassOf(x) == ClassOf(y) && Key(x) == Key(y) ==> SameSpot(x, y)
  }

  ghost predicate ClearLayers(layers: seq<seq<Entry>>)
    requires |layers| == 3
  {
    forall x, y :: InLayers(layers, x) && InLayers(layers, y) ==> Clear(x, y)
  }

  lemma ClearIsUnambiguous(layers: seq<seq<Entry>>, k: nat)
    requires |layers| == 3 && ClearLayers(layers) && k < 3
    ensures Unambiguous(layers[k])
  {
    forall x, y | x in layers[k] && y in layers[k]
      ensures Clear(x, y)
    {
      assert InLayers(layers, x) && InLayers(layers, y);
    }
  }

  lemma CalculatedHolds(layers: seq<seq<Entry>>, out: seq<Entry>, y: Entry)
    requires |layers| == 3 && IsCalculated(layers, out) && y in out
    ensures InLayers(layers, y)
  {
    var a, b, c :| IsCalculatedFrom(layers, a, b, c, out);
    if y in Flatten(a) {
      MergedOnlyHolds(layers[0], a, y);
    } else if y in Flatten(b) {
      MergedOnlyHolds(layers[1], b, y);
    } else {
      MergedOnlyHolds(layers[2], c, y);
    }
  }

  lemma CalculatedRepresents(layers: seq<seq<Entry>>, out: seq<Entry>, x: Entry) returns (y: Entry)
    requires |layers| == 3 && ClearLayers(layers) && IsCalculated(layers, out) && InLayers(layers, x) && Kept(x)
    ensures y in out && SameSpot(y, x)
  {
    var a, b, c :| IsCalculatedFrom(layers, a, b, c, out);
    ClearIsUnambiguous(layers, 0);
    ClearIsUnambiguous(layers, 1);
    ClearIsUnambiguous(layers, 2);
    if x in layers[0] {
      y := MergedRepresents(layers[0], a, x);
    } else if x in layers[1] {
      y := MergedRepresents(layers[1], b, x);
    } else {
      y := MergedRepresents(layers[2], c, x);
    }
  }

  /** Every gathered rule is one of a contributing group. */
  lemma RuleOf(groups: map<string, GroupData>, id: string, svc: string, layers: seq<seq<Entry>>, y: Entry) returns (n: string)
    requires |layers| == 3 && IsGather(groups, id, layers) && Contributes(groups, id, svc)
    requires InLayers(AddService(layers, groups[svc].proc.rules), y)
    ensures Contributes(groups, id, n) && y in groups[n].proc.rules
  {
    AddServiceHolds(layers, groups[svc].proc.rules, y);
    var order :| Visits(groups, id, order) && layers == Collect(groups, order);
    CollectHolds(groups, order, y);
    if y in groups[svc].proc.rules {
      n := svc;
    } else {
      n :| n in order && y in groups[n].proc.rules;
    }
  }

  /** What a fresh profile can hold: rules of contributing groups and of the service group. */
  lemma FreshHolds(groups: map<string, GroupData>, id: string, svc: string, p: Profile, y: Entry) returns (n: string)
    requires IsFresh(groups, id, svc, p) && Contributes(groups, id, svc) && y in p.rules
    ensures Contributes(groups, id, n) && y in groups[n].proc.rules
  {
    var layers :| IsGather(groups, id, layers) && |layers| == 3
                  && IsCalculated(AddService(layers, groups[svc].proc.rules), p.rules);
    CalculatedHolds(AddService(layers, groups[svc].proc.rules), p.rules, y);
    n := RuleOf(groups, id, svc, layers, y);
  }

  /** Rules of one class of a container's groups that share a key share name and path. */
  ghost predicate ClearRules(groups: map<string, GroupData>, id: string) {
    forall n, m, x, y ::
      (Contributes(groups, id, n) && Contributes(groups, id, m) && x in groups[n].proc.rules && y in groups[m].proc.rules) ==>
        Clear(x, y)
  }

  lemma ClearWhenRulesAre(groups: map<string, GroupData>, id: string, svc: string, layers: seq<seq<Entry>>)
    requires |layers| == 3 && IsGather(groups, id, layers) && ClearRules(groups, id) && Contributes(groups, id, svc)
    ensures ClearLayers(AddService(layers, groups[svc].proc.rules))
  {
    var all := AddService(layers, groups[svc].proc.rules);
    forall x, y | InLayers(all, x) && InLayers(all, y)
      ensures Clear(x, y)
    {
      var n := RuleOf(groups, id, svc, layers, x);
      var m := RuleOf(groups, id, svc, layers, y);
    }
  }

  /** What a fresh profile must hold: every kept rule of a contributing group, by name and path, if
      rules that share a key share those. */
  lemma FreshRepresents(groups: map<string, GroupData>, id: string, svc: string, p: Profile, n: string, x: Entry)
    returns (y: Entry)
    requires IsFresh(groups, id, svc, p) && Contributes(groups, id, svc) && ClearRules(groups, id)
    requires Contributes(groups, id, n) && x in groups[n].proc.rules && Kept(x)
    ensures y in p.rules && SameSpot(y, x)
  {
    var layers :| IsGather(groups, id, layers) && |layers| == 3
                  && IsCalculated(AddService(layers, groups[svc].proc.rules), p.rules);
    var order :| Visits(groups, id, order) && layers == Collect(groups, order);
    var all := AddService(layers, groups[svc].proc.rules);
    ClearWhenRulesAre(groups, id, svc, layers);
    CollectHolds(groups, order, x);
    AddServiceHolds(layers, groups[svc].proc.rules, x);
    y := CalculatedRepresents(all, p.rules, x);
  }

  /** None of `id`'s groups but `n` has a rule with the name and path of `x`. */
  ghost predicate OnlyIn(groups: map<string, GroupData>, id: string, n: string, x: Entry) {
    forall m, y :: Contributes(groups, id, m) && m != n && y in groups[m].proc.rules ==> !SameSpot(y, x)
  }

  lemma LosingAGroupIsStale(groups: map<string, GroupData>, groups': map<string, GroupData>,
                            id: string, svc: string, p: Profile, n: string, x: Entry)
    requires IsFresh(groups, id, svc, p) && ClearRules(groups, id) && svc != n
    requires Contributes(groups, id, svc) && Contributes(groups', id, svc)
    requires Contributes(groups, id, n) && x in groups[n].proc.rules && Kept(x)
    requires forall m :: Contributes(groups', id, m) ==>
               m != n && Contributes(groups, id, m) && groups'[m].proc == groups[m].proc
    requires OnlyIn(groups, id, n, x)
    ensures !IsFresh(groups', id, svc, p)
  {
    var y := FreshRepresents(groups, id, svc, p, n, x);
    if IsFresh(groups', id, svc, p) {
      var m := FreshHolds(groups', id, svc, p, y);
    }
  }

  /** The guard on fills is needed: a fill that drops a clean container from a group with a
      rule no other of its groups has leaves the container unmarked with a stale cache. */
  lemma UnsafeFillIsStale(met: C.Matcher, s: State, n: string, id: string, x: Entry)
    requires n in s.groups && Clean(s, id) && CacheOk(s, id) && SvcOf(s, id) != n
    requires id in s.groups[n].members && id !in Refreshed(met, n, s.groups[n].group, s.active)
    requires x in s.groups[n].proc.rules && Kept(x) && ClearRules(s.groups, id)
    requires OnlyIn(s.groups, id, n, x)
    ensures Enabled(s, Fill(n, None)) && Clean(Step(met, s, Fill(n, None)), id)
    ensures HasProfile(Step(met, s, Fill(n, None)), id) && !CacheOk(Step(met, s, Fill(n, None)), id)
  {
    var s' := Step(met, s, Fill(n, None));
    assert forall m :: Contributes(s'.groups, id, m) ==>
        m != n && Contributes(s.groups, id, m) && s'.groups[m].proc == s.groups[m].proc;
    LosingAGroupIsStale(s.groups, s'.groups, id, SvcOf(s, id), s.wl[id].value, n, x);
  }

  /** The guard on loads is needed too: a service profile that a worker loads marks nobody, so a
      member of the group whose cache lacks one of its rules stays unmarked with a stale cache. */
  lemma SilentLoadIsStale(met: C.Matcher, s: State, w: nat, rules: seq<Entry>, own: Profile, id: string, x: Entry)
    requires Enabled(s, Finish(w, rules, Some(own))) && !LoadSafe(s, w) && Clean(s, id) && HasProfile(s, id)
    requires id in s.groups[s.workers[w].svc].members && x in own.rules && Kept(x)
    requires forall y :: y in s.wl[id].value.rules ==> !SameSpot(y, x)
    requires ClearRules(Step(met, s, Finish(w, rules, Some(own))).groups, id)
    ensures var s' := Step(met, s, Finish(w, rules, Some(own)));
            Clean(s', id) && s'.wl == s.wl && !CacheOk(s', id)
  {
    var s' := Step(met, s, Finish(w, rules, Some(own)));
    var n := s.workers[w].svc;
    assert Contributes(s'.groups, id, n) && s'.groups[n].proc == own;
    assert Contributes(s'.groups, id, SvcOf(s', id));
    if CacheOk(s', id) {
      var y := FreshRepresents(s'.groups, id, SvcOf(s', id), s.wl[id].value, n, x);
    }
  }

  // -- The handlers as written

  class ProfileCache {
    const met: C.Matcher
    var groups: map<string, GroupData>
    var active: map<string, Container>
    var wl: map<string, Option<Profile>>
    var notify: set<string>

    constructor (met: C.Matcher)
      ensures this.met == met && Value() == EMPTY
    {
      this.met := met;
      groups, active, wl, notify := map[], map[], map[], {};
    }

    /** The machine state with no recalculation in flight. */
    ghost function Value(): State
      reads this
    {
      State(groups, active, wl, notify, multiset{}, map[])
    }

    method SelectedContainers(g: C.Group) returns (members: set<string>)
      ensures forall id :: id in members <==> id in active && C.IsGroupMember(met, g, active[id].workload)
    {
      members := {};
      var left := active.Keys;
      while left != {}
        invariant left <= active.Keys
        invariant forall id :: id in members <==>
                    id in active && id !in left && C.IsGroupMember(met, g, active[id].workload)
        decreases |left|
      {
        var id :| id in left;
        var selected := C.CheckGroupMember(met, g, active[id].workload);
        if selected {
          members := members + {id};
        }
        left := left - {id};
      }
    }

    method RefreshGroupMembers(name: string, g: C.Group) returns (members: set<string>)
      ensures members == Refreshed(met, name, g, active)
      ensures name == "nodes" || name == "fed.nodes" ==> members == {""}
      ensures name != "nodes" && name != "fed.nodes" ==>
                forall id :: id in members <==> id in active && C.IsGroupMember(met, g, active[id].workload)
    {
      if IsGroupNodes(name) {
        return {HOST};
      }
      members := SelectedContainers(g);
    }

    method UpdateCriteria(name: string, g: C.Group)
      modifies this
      ensures Value() == Step(met, old(Value()), if name in old(groups) then UpdateGroup(name, g) else AddGroup(name, g))
      ensures name in groups && groups[name].group == g
      ensures name !in old(groups) ==> groups[name] == GroupData(g, {}, BLANK)
      ensures name in old(groups) ==> groups[name].proc == old(groups)[name].proc
    {
      if name !in groups {
        groups := groups[name := GroupData(g, {}, BLANK)];
        return;
      }
      var d := groups[name];
      var members := RefreshGroupMembers(name, g);
      groups := groups[name := d.(group := g, members := members)];
      var targets := (d.members - members) + (members - d.members);
      if targets != {} {
        notify := notify + targets;
      }
      assert notify == old(notify) + (d.members - members) + (members - d.members);
    }

    method UpdateProcess(name: string, p: Profile)
      modifies this
      ensures name !in old(groups) ==> Value() == old(Value())
      ensures name in old(groups) ==> Value() == Step(met, old(Value()), UpdateProc(name, p))
      ensures name in old(groups) && (p.mode != old(groups)[name].proc.mode || p.rules != old(groups)[name].proc.rules) ==>
                groups[name].proc.mode == p.mode && |groups[name].proc.rules| == |p.rules| && groups[name].members <= notify
    {
      if name in groups {
        var d := groups[name];
        if p.mode != d.proc.mode || |d.proc.rules| == 0 || p.rules != d.proc.rules {
          var rules: seq<Entry> := [];
          for i := 0 to |p.rules|
            invariant rules == Derived(p, name).rules[..i]
          {
            rules := rules + [p.rules[i].(group := name)];
          }
          assert rules == Derived(p, name).rules;
          groups := groups[name := d.(proc := p.(rules := rules))];
          notify := notify + d.members;
        }
      }
    }

    /** A new group's profile is loaded a second later, if the store has it by then, and its members
        are found and marked. */
    method FillGroupProfiles(name: string, loaded: Option<Profile>) returns (ok: bool)
      modifies this
      ensures ok <==> name in old(groups)
      ensures !ok ==> Value() == old(Value())
      ensures ok ==> Value() == Step(met, old(Value()), Fill(name, loaded))
      ensures ok && loaded.Some? ==> groups[name].proc.mode == loaded.value.mode && groups[name].proc.group == loaded.value.group
      ensures ok ==> groups[name].members <= notify && forall x :: x in groups[name].proc.rules ==> x.group == name
    {
      ok := name in groups;
      if ok {
        var d := groups[name];
        var p := if loaded.Some? then loaded.value else d.proc;
        var members := RefreshGroupMembers(name, d.group);
        groups := groups[name := d.(members := members, proc := Derived(p, name))];
        notify := notify + members;
      }
    }

    method DeleteGroupProfileCache(name: string) returns (ok: bool)
      modifies this
      ensures ok <==> name in old(groups)
      ensures !ok ==> Value() == old(Value())
      ensures ok ==> Value() == Step(met, old(Value()), DeleteGroup(name))
      ensures name !in groups && (ok ==> old(groups)[name].members <= notify)
    {
      ok := name in groups;
      if ok {
        notify := notify + groups[name].members;
        groups := groups - {name};
      }
    }

    method JoinGroups(before: map<string, GroupData>, id: string, c: Container) returns (after: map<string, GroupData>)
      ensures after == map n | n in before :: JoinedGroup(met, n, before[n], id, c)
    {
      after := before;
      var left := before.Keys;
      while left != {}
        invariant left <= after.Keys == before.Keys
        invariant forall n :: n in before ==>
                    after[n] == if n in left then before[n] else JoinedGroup(met, n, before[n], id, c)
        decreases |left|
      {
        var n :| n in left;
        var d := before[n];
        if !IsGroupNodes(n) && id !in d.members {
          var selected := C.CheckGroupMember(met, d.group, c.workload);
          if selected {
            after := after[n := d.(members := d.members + {id})];
          }
        }
        left := left - {n};
      }
    }

    /** The container's attributes are filled in just before it joins. */
    method WorkloadJoinGroup(id: string, c: Container)
      requires id in active && id != HOST
      modifies this
      ensures Value() == Step(met, old(Value()), Join(id, c))
      ensures id in notify && id in wl && forall n :: n in groups && n != "nodes" && n != "fed.nodes" ==>
                (id in groups[n].members <==>
                 id in old(groups)[n].members || C.IsGroupMember(met, groups[n].group, c.workload))
    {
      active := active[id := c];
      if id !in wl {
        wl := wl[id := None];
      }
      groups := JoinGroups(groups, id, c);
      notify := notify + {id};
    }

    method LeaveGroups(before: map<string, GroupData>, id: string) returns (after: map<string, GroupData>)
      ensures after == map n | n in before :: LeftGroup(n, before[n], id)
    {
      after := before;
      var left := before.Keys;
      while left != {}
        invariant left <= after.Keys == before.Keys
        invariant forall n :: n in before ==> after[n] == if n in left then before[n] else LeftGroup(n, before[n], id)
        decreases |left|
      {
        var n :| n in left;
        if !IsGroupNodes(n) {
          after := after[n := before[n].(members := before[n].members - {id})];
        }
        left := left - {n};
      }
    }

    method WorkloadLeaveGroup(id: string)
      requires id in active && id != HOST
      modifies this
      ensures Value() == Step(met, old(Value()), Leave(id))
      ensures id !in notify && id !in wl
      ensures forall n :: n in groups && n != "nodes" && n != "fed.nodes" ==> id !in groups[n].members
    {
      groups := LeaveGroups(groups, id);
      notify := notify - {id};
      wl := wl - {id};
    }

    /** The groups are visited in whatever order the map yields. */
    method GatherRules(id: string) returns (layers: seq<seq<Entry>>)
      ensures |layers| == 3 && IsGather(groups, id, layers)
      ensures forall x :: x in layers[0] <==> FederalRule(groups, id, x)
      ensures forall x :: x in layers[1] <==> LocalRule(groups, id, x) && x.crd
      ensures forall x :: x in layers[2] <==> LocalRule(groups, id, x) && !x.crd
    {
      layers := [[], [], []];
      ghost var order: seq<string> := [];
      var left := groups.Keys;
      while left != {}
        invariant left <= groups.Keys
        invariant forall n :: n in order <==> Contributes(groups, id, n) && n !in left
        invariant forall i, j :: 0 <= i < j < |order| ==> order[i] != order[j]
        invariant layers == Collect(groups, order)
        decreases |left|
      {
        var n :| n in left;
        if id in groups[n].members {
          layers := AddGroupRules(layers, n, groups[n].proc.rules);
          assert (order + [n])[..|order|] == order;
          order := order + [n];
        }
        left := left - {n};
      }
      assert Visits(groups, id, order);
      forall x
        ensures x in layers[0] <==> FederalRule(groups, id, x)
        ensures x in layers[1] <==> LocalRule(groups, id, x) && x.crd
        ensures x in layers[2] <==> LocalRule(groups, id, x) && !x.crd
      {
        GatheredWhere(groups, id, layers, x);
      }
    }

    /** `loaded` is what the cluster store answers if the profile is not loaded yet. */
    method GetProcessProfile(name: string, loaded: Option<Profile>) returns (ok: bool, own: Profile)
      modifies this`groups
      ensures ok <==> name in old(groups) && OwnProfile(old(groups)[name].proc, loaded).Some?
      ensures ok ==> Some(own) == OwnProfile(old(groups)[name].proc, loaded)
      ensures groups == if ok then old(groups)[name := old(groups)[name].(proc := own)] else old(groups)
    {
      if name !in groups {
        return false, BLANK;
      }
      var d := groups[name];
      if d.proc.group == "" {
        if loaded.None? {
          return false, BLANK;
        }
        groups := groups[name := d.(proc := loaded.value)];
      }
      ok, own := true, groups[name].proc;
    }

    /** Without a load the result is fresh; a load shows in the service's own rules only. */
    method CalculateProcGroupProfile(id: string, svc: string, loaded: Option<Profile>) returns (proc: Profile, ok: bool)
      modifies this`groups
      ensures ok <==> svc in old(groups) && OwnProfile(old(groups)[svc].proc, loaded).Some?
      ensures ok ==> IsResult(old(groups), id, OwnProfile(old(groups)[svc].proc, loaded).value, proc)
      ensures ok && PlainRules(old(groups), id, OwnProfile(old(groups)[svc].proc, loaded).value) ==>
                forall p: Match ::
                  Ranked(old(groups), id, OwnProfile(old(groups)[svc].proc, loaded).value, p, FirstHit(proc.rules, p))
      ensures groups == if ok then old(groups)[svc := old(groups)[svc].(proc := OwnProfile(old(groups)[svc].proc, loaded).value)]
                        else old(groups)
      ensures ok && old(groups)[svc].proc.group != "" ==> groups == old(groups) && IsFresh(groups, id, svc, proc)
    {
      var layers := GatherRules(id);
      var own;
      ok, own := GetProcessProfile(svc, loaded);
      if !ok {
        return BLANK, false;
      }
      var rules := CalculateLayers(AddService(layers, own.rules));
      proc := Profile(own.group, own.mode, rules);
      if PlainRules(old(groups), id, own) {
        forall p: Match
          ensures Ranked(old(groups), id, own, p, FirstHit(rules, p))
        {
          ResultIsRanked(old(groups), id, own, proc, p);
        }
      }
    }

    /** A recalculation that nothing interrupts leaves the fresh profile in the cache. */
    method ApplyProcGroupProfile(id: string, loaded: Option<Profile>) returns (ok: bool)
      requires id in active
      modifies this`wl, this`groups
      ensures ok <==> active[id].svc in old(groups) && OwnProfile(old(groups)[active[id].svc].proc, loaded).Some?
      ensures ok && id in wl && old(groups)[active[id].svc].proc.group != "" ==>
                wl[id].Some? && IsFresh(groups, id, active[id].svc, wl[id].value)
      ensures wl.Keys == old(wl).Keys && forall k :: k in wl && k != id ==> wl[k] == old(wl)[k]
    {
      var proc;
      proc, ok := CalculateProcGroupProfile(id, active[id].svc, loaded);
      if ok && id in wl {
        wl := wl[id := Some(proc)];
      }
    }
  }
}
