/** Container lifecycle reporting: the task worker (agent/engine.go) feeds a FIFO channel of
    cluster events that the cluster worker (agent/cluster.go) turns into the event log. */
module Lifecycle {

  type Id = nat

  /** An active container: its root pid, and whether its interception was reported. */
  datatype Active = Active(pid: nat, intercepted: bool)

  /** Cluster events.  `AddLive` carries a pointer to the container's info, whose running flag
      a later stop may still clear; `AddExited` reports a container found not running. */
  datatype ClusterEvent = AddLive(id: Id) | AddExited(id: Id) | StopEv(id: Id) | DelEv(id: Id) | UpdateEv(id: Id)

  datatype Kind = Start | Secured | Stop | Remove

  datatype LogEntry = LogEntry(id: Id, kind: Kind)

  /** `scheduled` holds the intercept tasks set on a timer; `cache` maps a reported workload to
      its running flag; `seen` is history: the ids whose last handled add or stop was `AddLive`. */
  datatype State = State(active: map<Id, Active>, scheduled: multiset<(Id, nat)>, chan: seq<ClusterEvent>,
                         cache: map<Id, bool>, log: seq<LogEntry>, seen: set<Id>)

  const EMPTY: State := State(map[], multiset{}, [], map[], [], {})

  /** How an intercept task can end: reported, put back to wait for the parent container, or
      given up because the root process has exited. */
  datatype Outcome = Reported | WaitParent | Gone

  datatype Task =
    | Add(id: Id, pid: nat, running: bool)
    | Intercept(id: Id, pid: nat, outcome: Outcome)
    | StopTask(id: Id, pid: nat, stillRunning: bool)
    | Del(id: Id, pidValid: bool, stillRunning: bool)
    | Update(id: Id)
    | Handle(running: bool)

  // -- The task worker

  function Send(s: State, ev: ClusterEvent): State {
    s.(chan := s.chan + [ev])
  }

  function AddTask(s: State, id: Id, pid: nat, running: bool): State {
    if id in s.active then s
    else if !running then Send(s, AddExited(id))
    else s.(active := s.active[id := Active(pid, false)], scheduled := s.scheduled + multiset{(id, pid)})
  }

  function InterceptTask(s: State, id: Id, pid: nat, outcome: Outcome): State {
    var s1 := s.(scheduled := s.scheduled - multiset{(id, pid)});
    if id !in s.active || s.active[id].pid != pid || outcome == Gone then s1
    else if outcome == WaitParent then s
    else Send(s1.(active := s.active[id := s.active[id].(intercepted := true)]), AddLive(id))
  }

  function StopContainer(s: State, id: Id, pid: nat, stillRunning: bool): State {
    if id !in s.active || (pid != 0 && pid != s.active[id].pid) || stillRunning then s
    else Send(s, StopEv(id)).(active := s.active - {id})
  }

  function DelContainer(s: State, id: Id, pidValid: bool, stillRunning: bool): State {
    if id in s.active && pidValid then s
    else Send(StopContainer(s, id, 0, stillRunning), DelEv(id))
  }

  // -- The cluster worker

  function Logged(s: State, id: Id, k: Kind): State {
    s.(log := s.log + [LogEntry(id, k)])
  }

  function ClusterAdd(s: State, id: Id, running: bool): State {
    if id in s.cache && s.cache[id] == running then s
    else
      var s1 := Logged(Logged(s, id, Start), id, Secured).(cache := s.cache[id := running]);
      if running then s1 else Logged(s1, id, Stop)
  }

  function ClusterStop(s: State, id: Id): State {
    if id in s.cache then
      if s.cache[id] then Logged(s.(cache := s.cache[id := false]), id, Stop) else s
    else Logged(Logged(s.(cache := s.cache[id := false]), id, Start), id, Stop)
  }

  function ClusterDel(s: State, id: Id): State {
    if id in s.cache then Logged(s, id, Remove).(cache := s.cache - {id}) else s
  }

  function Handled(s: State, ev: ClusterEvent, running: bool): State {
    match ev
    case AddLive(id) => ClusterAdd(s, id, running).(seen := s.seen + {id})
    case AddExited(id) => ClusterAdd(s, id, false)
    case StopEv(id) => ClusterStop(s, id).(seen := s.seen - {id})
    case DelEv(id) => ClusterDel(s, id)
    case UpdateEv(_) => s
  }

  predicate Enabled(s: State, t: Task) {
    match t
    case Intercept(id, pid, _) => (id, pid) in s.scheduled
    case Handle(_) => s.chan != []
    case _ => true
  }

  function Step(s: State, t: Task): State
    requires Enabled(s, t)
  {
    match t
    case Add(id, pid, running) => AddTask(s, id, pid, running)
    case Intercept(id, pid, outcome) => InterceptTask(s, id, pid, outcome)
    case StopTask(id, pid, stillRunning) => StopContainer(s, id, pid, stillRunning)
    case Del(id, pidValid, stillRunning) => DelContainer(s, id, pidValid, stillRunning)
    case Update(id) => Send(s, UpdateEv(id))
    case Handle(running) => Handled(s.(chan := s.chan[1..]), s.chan[0], running)
  }

  // -- The log, workload by workload

  /** The start, stop and remove events of one workload. */
  function Of(log: seq<LogEntry>, id: Id): seq<Kind> {
    if log == [] then []
    else
      var e := log[|log| - 1];
      Of(log[..|log| - 1], id) + if e.id == id && e.kind != Secured then [e.kind] else []
  }

  predicate FitsAt(ks: seq<Kind>, i: nat)
    requires i < |ks|
  {
    match ks[i]
    case Start => i == 0 || ks[i - 1] == Stop || ks[i - 1] == Remove
    case Stop => i > 0 && ks[i - 1] == Start
    case Remove => i > 0 && (ks[i - 1] == Start || ks[i - 1] == Stop)
    case Secured => false
  }

  /** Starts and stops alternate, beginning with a start, between removes. */
  predicate Alternates(ks: seq<Kind>) {
    forall i :: 0 <= i < |ks| ==> FitsAt(ks, i)
  }

  /** Where the workload's log stands. */
  datatype Mark = Nothing | Started | Stopped

  function MarkOf(ks: seq<Kind>): Mark {
    if ks == [] || ks[|ks| - 1] == Remove then Nothing
    else if ks[|ks| - 1] == Start then Started else Stopped
  }

  predicate Allowed(m: Mark, k: Kind) {
    match k
    case Start => m != Started
    case Stop => m == Started
    case Remove => m != Nothing
    case Secured => true
  }

  function Marked(m: Mark, k: Kind): Mark {
    match k
    case Start => Started
    case Stop => Stopped
    case Remove => Nothing
    case Secured => m
  }

  /** Every event was allowed where it came. */
  predicate Accepted(ks: seq<Kind>) {
    ks == [] || (
      var init, k := ks[..|ks| - 1], ks[|ks| - 1];
      k != Secured && Accepted(init) && Allowed(MarkOf(init), k))
  }

  lemma {:induction false} AcceptedAlternates(ks: seq<Kind>)
    requires Accepted(ks)
    ensures Alternates(ks)
  {
    if ks != [] {
      var n := |ks| - 1;
      var init := ks[..n];
      AcceptedAlternates(init);
      if n > 0 {
        assert FitsAt(init, n - 1);
      }
      forall i | 0 <= i < n
        ensures FitsAt(ks, i)
      {
        assert FitsAt(init, i);
      }
    }
  }

  ghost predicate LogOk(log: seq<LogEntry>, id: Id, m: Mark) {
    Accepted(Of(log, id)) && MarkOf(Of(log, id)) == m
  }

  lemma OfSnoc(log: seq<LogEntry>, e: LogEntry, id: Id)
    ensures Of(log + [e], id) == Of(log, id) + if e.id == id && e.kind != Secured then [e.kind] else []
  {
    assert (log + [e])[..|log|] == log;
  }

  lemma AcceptedSnoc(ks: seq<Kind>, k: Kind)
    requires Accepted(ks) && k != Secured && Allowed(MarkOf(ks), k)
    ensures Accepted(ks + [k]) && MarkOf(ks + [k]) == Marked(MarkOf(ks), k)
  {
    assert (ks + [k])[..|ks|] == ks;
  }

  lemma LogGrows(log: seq<LogEntry>, e: LogEntry, id: Id, m: Mark)
    requires LogOk(log, id, m) && (e.id == id ==> Allowed(m, e.kind))
    ensures LogOk(log + [e], id, if e.id == id then Marked(m, e.kind) else m)
  {
    OfSnoc(log, e, id);
    if e.id == id && e.kind != Secured {
      AcceptedSnoc(Of(log, id), e.kind);
    } else {
      assert Of(log, id) + [] == Of(log, id);
    }
  }

  function CacheMark(s: State, id: Id): Mark {
    if id !in s.cache then Nothing else if s.cache[id] then Started else Stopped
  }

  ghost predicate LogMatchesAt(s: State, id: Id) {
    LogOk(s.log, id, CacheMark(s, id))
  }

  /** Log and cache are in step, workload by workload. */
  ghost predicate LogMatches(s: State) {
    forall id :: LogMatchesAt(s, id)
  }

  /** The one add that would log a second start: not running, for a workload cached as running. */
  predicate HarmlessAdd(s: State, id: Id, running: bool) {
    running || id !in s.cache || !s.cache[id]
  }

  predicate Harmless(s: State, ev: ClusterEvent, running: bool) {
    match ev
    case AddLive(id) => HarmlessAdd(s, id, running)
    case AddExited(id) => HarmlessAdd(s, id, false)
    case _ => true
  }

  lemma LogsTwo(log: seq<LogEntry>, a: LogEntry, b: LogEntry, id: Id, m: Mark)
    requires LogOk(log, id, m) && (a.id == id ==> Allowed(m, a.kind))
    requires b.id == a.id && (b.id == id ==> Allowed(Marked(m, a.kind), b.kind))
    ensures LogOk(log + [a] + [b], id, if a.id == id then Marked(Marked(m, a.kind), b.kind) else m)
  {
    LogGrows(log, a, id, m);
    LogGrows(log + [a], b, id, if a.id == id then Marked(m, a.kind) else m);
  }

  lemma AddMatches(s: State, own: Id, running: bool, id: Id)
    requires LogMatchesAt(s, id) && HarmlessAdd(s, own, running)
    ensures LogMatchesAt(ClusterAdd(s, own, running), id)
  {
    if own !in s.cache || s.cache[own] != running {
      var m := CacheMark(s, id);
      var a, b := LogEntry(own, Start), LogEntry(own, Secured);
      LogsTwo(s.log, a, b, id, m);
      if !running {
        LogGrows(s.log + [a] + [b], LogEntry(own, Stop), id, if own == id then Started else m);
      }
    }
  }

  lemma StopMatches(s: State, own: Id, id: Id)
    requires LogMatchesAt(s, id)
    ensures LogMatchesAt(ClusterStop(s, own), id)
  {
    if own !in s.cache {
      LogsTwo(s.log, LogEntry(own, Start), LogEntry(own, Stop), id, CacheMark(s, id));
    } else if s.cache[own] {
      LogGrows(s.log, LogEntry(own, Stop), id, CacheMark(s, id));
    }
  }

  lemma DelMatches(s: State, own: Id, id: Id)
    requires LogMatchesAt(s, id)
    ensures LogMatchesAt(ClusterDel(s, own), id)
  {
    if own in s.cache {
      LogGrows(s.log, LogEntry(own, Remove), id, CacheMark(s, id));
    }
  }

  lemma SameLogMatches(s: State, s': State, id: Id)
    requires LogMatchesAt(s, id) && s'.log == s.log && s'.cache == s.cache
    ensures LogMatchesAt(s', id)
  {
  }

  /** Any handled event keeps log and cache in step, unless it is the harmful add. */
  lemma HandledMatches(s: State, ev: ClusterEvent, running: bool, id: Id)
    requires LogMatchesAt(s, id) && Harmless(s, ev, running)
    ensures LogMatchesAt(Handled(s, ev, running), id)
  {
    match ev {
      case AddLive(own) =>
        AddMatches(s, own, running, id);
        SameLogMatches(ClusterAdd(s, own, running), Handled(s, ev, running), id);
      case AddExited(own) => AddMatches(s, own, false, id);
      case StopEv(own) =>
        StopMatches(s, own, id);
        SameLogMatches(ClusterStop(s, own), Handled(s, ev, running), id);
      case DelEv(own) => DelMatches(s, own, id);
      case UpdateEv(_) =>
    }
  }

  lemma HandledAllMatches(s: State, ev: ClusterEvent, running: bool)
    requires LogMatches(s) && Harmless(s, ev, running)
    ensures LogMatches(Handled(s, ev, running))
  {
    forall id
      ensures LogMatchesAt(Handled(s, ev, running), id)
    {
      HandledMatches(s, ev, running, id);
    }
  }

  // -- Whole runs: the harmful add is the only harm

  ghost predicate IsRun(s: State, ts: seq<Task>, s': State)
    decreases |ts|
  {
    if ts == [] then s' == s else Enabled(s, ts[0]) && IsRun(Step(s, ts[0]), ts[1..], s')
  }

  /** The event that a task handles, if any, is harmless. */
  predicate HarmlessTask(s: State, t: Task) {
    t.Handle? && s.chan != [] ==> Harmless(s, s.chan[0], t.running)
  }

  ghost predicate AllHarmless(s: State, ts: seq<Task>)
    decreases |ts|
  {
    ts != [] ==> Enabled(s, ts[0]) && HarmlessTask(s, ts[0]) && AllHarmless(Step(s, ts[0]), ts[1..])
  }

  lemma InterceptKeepsLog(s: State, id: Id, pid: nat, outcome: Outcome)
    ensures InterceptTask(s, id, pid, outcome).log == s.log && InterceptTask(s, id, pid, outcome).cache == s.cache
  {
  }

  lemma StopKeepsLog(s: State, id: Id, pid: nat, stillRunning: bool)
    ensures StopContainer(s, id, pid, stillRunning).log == s.log
    ensures StopContainer(s, id, pid, stillRunning).cache == s.cache
  {
  }

  lemma TaskKeepsLog(s: State, t: Task)
    requires Enabled(s, t) && !t.Handle?
    ensures Step(s, t).log == s.log && Step(s, t).cache == s.cache
  {
    match t {
      case Add(id, pid, running) => assert Step(s, t) == AddTask(s, id, pid, running);
      case Intercept(id, pid, outcome) => InterceptKeepsLog(s, id, pid, outcome);
      case StopTask(id, pid, stillRunning) => StopKeepsLog(s, id, pid, stillRunning);
      case Del(id, pidValid, stillRunning) => StopKeepsLog(s, id, 0, stillRunning);
      case Update(id) => assert Step(s, t) == Send(s, UpdateEv(id));
    }
  }

  lemma SameLogAllMatches(s: State, s': State)
    requires LogMatches(s) && s'.log == s.log && s'.cache == s.cache
    ensures LogMatches(s')
  {
    forall id
      ensures LogMatchesAt(s', id)
    {
      SameLogMatches(s, s', id);
    }
  }

  lemma StepMatches(s: State, t: Task)
    requires LogMatches(s) && Enabled(s, t) && HarmlessTask(s, t)
    ensures LogMatches(Step(s, t))
  {
    if t.Handle? {
      var s1 := s.(chan := s.chan[1..]);
      SameLogAllMatches(s, s1);
      HandledAllMatches(s1, s.chan[0], t.running);
    } else {
      TaskKeepsLog(s, t);
      SameLogAllMatches(s, Step(s, t));
    }
  }

  lemma {:induction false} HarmlessRunMatches(s: State, ts: seq<Task>, s': State)
    requires LogMatches(s) && IsRun(s, ts, s') && AllHarmless(s, ts)
    ensures LogMatches(s')
    decreases |ts|
  {
    if ts != [] {
      StepMatches(s, ts[0]);
      HarmlessRunMatches(Step(s, ts[0]), ts[1..], s');
    }
  }

  lemma DoubleStart(ks: seq<Kind>)
    requires MarkOf(ks) == Started
    ensures !Alternates(ks + [Start] + [Stop])
  {
    assert !FitsAt(ks + [Start] + [Stop], |ks|);
  }

  lemma LoggedDouble(log: seq<LogEntry>, id: Id)
    requires MarkOf(Of(log, id)) == Started
    ensures !Alternates(Of(log + [LogEntry(id, Start)] + [LogEntry(id, Secured)] + [LogEntry(id, Stop)], id))
  {
    var l1 := log + [LogEntry(id, Start)];
    var l2 := l1 + [LogEntry(id, Secured)];
    OfSnoc(log, LogEntry(id, Start), id);
    OfSnoc(l1, LogEntry(id, Secured), id);
    assert Of(l2, id) == Of(log, id) + [Start];
    OfSnoc(l2, LogEntry(id, Stop), id);
    DoubleStart(Of(log, id));
  }

  /** A running workload added again as not running is logged with two starts in a row. */
  lemma HarmfulAddDoublesStart(s: State, id: Id)
    requires LogMatchesAt(s, id) && id in s.cache && s.cache[id]
    ensures !Alternates(Of(ClusterAdd(s, id, false).log, id))
  {
    LoggedDouble(s.log, id);
  }

  lemma HarmDone(s: State, ev: ClusterEvent, running: bool)
    requires LogMatchesAt(s, ev.id) && !Harmless(s, ev, running)
    ensures !Alternates(Of(Handled(s, ev, running).log, ev.id))
  {
    HarmfulAddDoublesStart(s, ev.id);
  }

  /** Handling an event keeps the workload's log well formed exactly when it is harmless. */
  lemma HarmlessExactly(s: State, ev: ClusterEvent, running: bool)
    requires LogMatchesAt(s, ev.id)
    ensures Alternates(Of(Handled(s, ev, running).log, ev.id)) <==> Harmless(s, ev, running)
  {
    if Harmless(s, ev, running) {
      HandledMatches(s, ev, running, ev.id);
      AcceptedAlternates(Of(Handled(s, ev, running).log, ev.id));
    } else {
      HarmDone(s, ev, running);
    }
  }

  /** A log only grows, and with it each workload's part of it. */
  lemma {:induction false} OfGrows(log: seq<LogEntry>, more: seq<LogEntry>, id: Id)
    ensures Of(log, id) <= Of(log + more, id)
    decreases |more|
  {
    if more == [] {
      assert log + more == log;
    } else {
      var init, e := more[..|more| - 1], more[|more| - 1];
      OfGrows(log, init, id);
      assert log + more == (log + init) + [e];
      OfSnoc(log + init, e, id);
    }
  }

  lemma PrefixAlternates(ks: seq<Kind>, ls: seq<Kind>)
    requires ks <= ls && Alternates(ls)
    ensures Alternates(ks)
  {
    forall i | 0 <= i < |ks|
      ensures FitsAt(ks, i)
    {
      assert FitsAt(ls, i);
    }
  }

  lemma HandledLogs(s: State, ev: ClusterEvent, running: bool)
    ensures s.log <= Handled(s, ev, running).log
  {
    match ev {
      case AddLive(id) => assert s.log <= ClusterAdd(s, id, running).log;
      case AddExited(id) => assert s.log <= ClusterAdd(s, id, false).log;
      case StopEv(id) => assert s.log <= ClusterStop(s, id).log;
      case DelEv(id) => assert s.log <= ClusterDel(s, id).log;
      case UpdateEv(_) =>
    }
  }

  lemma StepLogs(s: State, t: Task)
    requires Enabled(s, t)
    ensures s.log <= Step(s, t).log
  {
    if t.Handle? {
      HandledLogs(s.(chan := s.chan[1..]), s.chan[0], t.running);
    } else {
      TaskKeepsLog(s, t);
    }
  }

  lemma {:induction false} RunLogs(s: State, ts: seq<Task>, s': State)
    requires IsRun(s, ts, s')
    ensures s.log <= s'.log
    decreases |ts|
  {
    if ts != [] {
      StepLogs(s, ts[0]);
      RunLogs(Step(s, ts[0]), ts[1..], s');
    }
  }

  /** What is once out of order stays so. */
  lemma HarmStays(s: State, ts: seq<Task>, s': State, id: Id)
    requires IsRun(s, ts, s') && Alternates(Of(s'.log, id))
    ensures Alternates(Of(s.log, id))
  {
    RunLogs(s, ts, s');
    var more := s'.log[|s.log|..];
    assert s.log + more == s'.log;
    OfGrows(s.log, more, id);
    PrefixAlternates(Of(s.log, id), Of(s'.log, id));
  }

  ghost predicate AllAlternate(s: State) {
    forall id :: Alternates(Of(s.log, id))
  }

  lemma {:induction false} AlternationShows(s: State, ts: seq<Task>, s': State)
    requires LogMatches(s) && IsRun(s, ts, s') && AllAlternate(s')
    ensures AllHarmless(s, ts)
    decreases |ts|
  {
    if ts != [] {
      var t, s1 := ts[0], Step(s, ts[0]);
      if t.Handle? {
        var ev, s0 := s.chan[0], s.(chan := s.chan[1..]);
        HarmStays(s1, ts[1..], s', ev.id);
        SameLogMatches(s, s0, ev.id);
        HarmlessExactly(s0, ev, t.running);
      }
      StepMatches(s, t);
      AlternationShows(s1, ts[1..], s');
    }
  }

  lemma EmptyMatches()
    ensures LogMatches(EMPTY)
  {
  }

  /** In every interleaving of the two workers: each workload's logged starts and stops alternate,
      beginning with a start, between its removes, if and only if no event is handled as an add of
      a workload that is not running while it is cached as running. */
  lemma RunAlternatesExactly(ts: seq<Task>, s: State)
    requires IsRun(EMPTY, ts, s)
    ensures AllAlternate(s) <==> AllHarmless(EMPTY, ts)
  {
    EmptyMatches();
    if AllHarmless(EMPTY, ts) {
      HarmlessRunMatches(EMPTY, ts, s);
      forall id
        ensures Alternates(Of(s.log, id))
      {
        assert LogMatchesAt(s, id);
        AcceptedAlternates(Of(s.log, id));
      }
    }
    if AllAlternate(s) {
      AlternationShows(EMPTY, ts, s);
    }
  }

  // -- Why the harmful add does not come while pids are fresh

  /** A restarted container does not get the pid that an unfired intercept task of its previous
      life still waits for. */
  predicate FreshPid(s: State, t: Task) {
    t.Add? && t.running && t.id !in s.active ==> (t.id, t.pid) !in s.scheduled
  }

  /** Which ids are live after an event, as the task worker sees it. */
  function LiveAfter(live: set<Id>, ev: ClusterEvent): set<Id> {
    match ev
    case AddLive(id) => live + {id}
    case StopEv(id) => live - {id}
    case _ => live
  }

  /** The channel only ever adds a workload that is not live at that point. */
  predicate Orderly(live: set<Id>, chan: seq<ClusterEvent>)
    decreases |chan|
  {
    chan == [] || (
      && (chan[0].AddLive? || chan[0].AddExited? ==> chan[0].id !in live)
      && Orderly(LiveAfter(live, chan[0]), chan[1..]))
  }

  function LiveAtEnd(live: set<Id>, chan: seq<ClusterEvent>): set<Id>
    decreases |chan|
  {
    if chan == [] then live else LiveAtEnd(LiveAfter(live, chan[0]), chan[1..])
  }

  function Intercepted(active: map<Id, Active>): set<Id> {
    set id | id in active && active[id].intercepted
  }

  lemma {:induction false} ChannelGrows(live: set<Id>, chan: seq<ClusterEvent>, ev: ClusterEvent)
    requires Orderly(live, chan)
    requires ev.AddLive? || ev.AddExited? ==> ev.id !in LiveAtEnd(live, chan)
    ensures Orderly(live, chan + [ev])
    ensures LiveAtEnd(live, chan + [ev]) == LiveAfter(LiveAtEnd(live, chan), ev)
    decreases |chan|
  {
    if chan == [] {
      assert ([ev])[1..] == [];
      assert chan + [ev] == [ev];
    } else {
      assert (chan + [ev])[1..] == chan[1..] + [ev];
      ChannelGrows(LiveAfter(live, chan[0]), chan[1..], ev);
    }
  }

  /** At most one intercept task waits for the current life of a container, none once done. */
  ghost predicate Tokens(s: State) {
    forall id :: id in s.active ==>
      s.scheduled[(id, s.active[id].pid)] <= if s.active[id].intercepted then 0 else 1
  }

  ghost predicate Synced(s: State) {
    && Orderly(s.seen, s.chan) && LiveAtEnd(s.seen, s.chan) == Intercepted(s.active)
    && Tokens(s)
    && (forall id :: id in s.cache && s.cache[id] ==> id in s.seen)
  }

  lemma AddSynced(s: State, id: Id, pid: nat, running: bool)
    requires Synced(s)
    ensures Synced(AddTask(s, id, pid, running)) <==> FreshPid(s, Add(id, pid, running))
  {
    var s' := AddTask(s, id, pid, running);
    if id !in s.active {
      if running {
        assert Intercepted(s'.active) == Intercepted(s.active);
        assert s'.scheduled[(id, pid)] == s.scheduled[(id, pid)] + 1;
        assert id in s'.active && s'.active[id] == Active(pid, false);
      } else {
        ChannelGrows(s.seen, s.chan, AddExited(id));
      }
    }
  }

  lemma InterceptSynced(s: State, id: Id, pid: nat, outcome: Outcome)
    requires Synced(s) && (id, pid) in s.scheduled
    ensures Synced(InterceptTask(s, id, pid, outcome))
  {
    var s' := InterceptTask(s, id, pid, outcome);
    if id in s.active && s.active[id].pid == pid && outcome == Reported {
      assert !s.active[id].intercepted;
      ChannelGrows(s.seen, s.chan, AddLive(id));
      assert Intercepted(s'.active) == Intercepted(s.active) + {id};
    }
  }

  lemma StopSynced(s: State, id: Id, pid: nat, stillRunning: bool)
    requires Synced(s)
    ensures Synced(StopContainer(s, id, pid, stillRunning))
  {
    var s' := StopContainer(s, id, pid, stillRunning);
    if s' != s {
      ChannelGrows(s.seen, s.chan, StopEv(id));
      assert Intercepted(s'.active) == Intercepted(s.active) - {id};
    }
  }

  lemma SendSynced(s: State, ev: ClusterEvent)
    requires Synced(s) && (ev.DelEv? || ev.UpdateEv?)
    ensures Synced(Send(s, ev))
  {
    ChannelGrows(s.seen, s.chan, ev);
  }

  lemma HandleSynced(s: State, running: bool)
    requires Synced(s) && s.chan != []
    ensures Synced(Step(s, Handle(running)))
    ensures Harmless(s.(chan := s.chan[1..]), s.chan[0], running)
  {
  }

  /** Every step keeps the channel in order, except the restart with a pid still waited for. */
  lemma StepSynced(s: State, t: Task)
    requires Synced(s) && Enabled(s, t)
    ensures Synced(Step(s, t)) <==> FreshPid(s, t)
  {
    match t
    case Add(id, pid, running) => AddSynced(s, id, pid, running);
    case Intercept(id, pid, outcome) => InterceptSynced(s, id, pid, outcome);
    case StopTask(id, pid, stillRunning) => StopSynced(s, id, pid, stillRunning);
    case Del(id, pidValid, stillRunning) =>
      if !(id in s.active && pidValid) {
        StopSynced(s, id, 0, stillRunning);
        SendSynced(StopContainer(s, id, 0, stillRunning), DelEv(id));
      }
    case Update(id) => SendSynced(s, UpdateEv(id));
    case Handle(running) => HandleSynced(s, running);
  }

  ghost predicate FreshPids(s: State, ts: seq<Task>)
    decreases |ts|
  {
    ts != [] ==> Enabled(s, ts[0]) && FreshPid(s, ts[0]) && FreshPids(Step(s, ts[0]), ts[1..])
  }

  lemma {:induction false} FreshRunsAreHarmless(s: State, ts: seq<Task>, s': State)
    requires Synced(s) && IsRun(s, ts, s') && FreshPids(s, ts)
    ensures AllHarmless(s, ts)
    decreases |ts|
  {
    if ts != [] {
      if ts[0].Handle? {
        HandleSynced(s, ts[0].running);
      }
      StepSynced(s, ts[0]);
      FreshRunsAreHarmless(Step(s, ts[0]), ts[1..], s');
    }
  }

  /** With fresh pids, in every interleaving of the two workers, each workload's logged starts and
      stops alternate, beginning with a start, between its removes; and the log's last word on a
      workload is what the cluster worker has cached. */
  lemma EveryRunAlternates(ts: seq<Task>, s: State, id: Id)
    requires IsRun(EMPTY, ts, s) && FreshPids(EMPTY, ts)
    ensures Alternates(Of(s.log, id))
    ensures MarkOf(Of(s.log, id)) == CacheMark(s, id)
  {
    assert Intercepted(EMPTY.active) == {};
    FreshRunsAreHarmless(EMPTY, ts, s);
    EmptyMatches();
    HarmlessRunMatches(EMPTY, ts, s);
    assert LogMatchesAt(s, id);
    AcceptedAlternates(Of(s.log, id));
  }

  // -- With a reused pid it does

  lemma {:induction false} RunsChain(s: State, ts: seq<Task>, m: State, t: Task)
    requires IsRun(s, ts, m) && Enabled(m, t)
    ensures IsRun(s, ts + [t], Step(m, t))
    ensures AllHarmless(s, ts) && HarmlessTask(m, t) ==> AllHarmless(s, ts + [t])
    ensures FreshPids(s, ts + [t]) ==> FreshPids(s, ts) && FreshPid(m, t)
    decreases |ts|
  {
    if ts == [] {
      assert ts + [t] == [t] && [t][1..] == [];
    } else {
      assert (ts + [t])[1..] == ts[1..] + [t];
      RunsChain(Step(s, ts[0]), ts[1..], m, t);
    }
  }

  /** A container is stopped before its intercept task fires, and comes back with the same pid. */
  lemma RestartedWithSamePid(id: Id, pid: nat) returns (ts: seq<Task>, s: State)
    requires pid != 0
    ensures IsRun(EMPTY, ts, s) && AllHarmless(EMPTY, ts) && !FreshPids(EMPTY, ts)
    ensures s == State(map[id := Active(pid, false)], multiset{(id, pid), (id, pid)}, [StopEv(id)], map[], [], {})
  {
    var add, stop := Add(id, pid, true), StopTask(id, pid, false);
    var s1 := Step(EMPTY, add);
    assert s1 == State(map[id := Active(pid, false)], multiset{(id, pid)}, [], map[], [], {});
    var s2 := Step(s1, stop);
    assert s2 == State(map[], multiset{(id, pid)}, [StopEv(id)], map[], [], {});
    RunsChain(EMPTY, [], EMPTY, add);
    assert [] + [add] == [add];
    RunsChain(EMPTY, [add], s1, stop);
    RunsChain(EMPTY, [add] + [stop], s2, add);
    ts, s := [add] + [stop] + [add], Step(s2, add);
  }

  /** Then both tasks intercept it, and it is reported twice in one life. */
  lemma ReportedTwice(id: Id, pid: nat) returns (ts: seq<Task>, s: State)
    requires pid != 0
    ensures IsRun(EMPTY, ts, s) && AllHarmless(EMPTY, ts) && !FreshPids(EMPTY, ts)
    ensures s.chan == [StopEv(id), AddLive(id), AddLive(id)] && s.cache == map[] && id in s.active
  {
    var ts3, s3 := RestartedWithSamePid(id, pid);
    var hit := Intercept(id, pid, Reported);
    var s4 := Step(s3, hit);
    assert s4 == State(map[id := Active(pid, true)], multiset{(id, pid)}, [StopEv(id), AddLive(id)], map[], [], {});
    RunsChain(EMPTY, ts3, s3, hit);
    RunsChain(EMPTY, ts3 + [hit], s4, hit);
    ts, s := ts3 + [hit] + [hit], Step(s4, hit);
  }

  /** The first of the two reports is handled while the container runs. */
  lemma FirstReportHandled(id: Id, pid: nat) returns (ts: seq<Task>, s: State)
    requires pid != 0
    ensures IsRun(EMPTY, ts, s) && AllHarmless(EMPTY, ts)
    ensures s.chan == [AddLive(id)] && s.cache == map[id := true] && id in s.active
  {
    var ts5, s5 := ReportedTwice(id, pid);
    var s6 := Step(s5, Handle(false));
    RunsChain(EMPTY, ts5, s5, Handle(false));
    assert s6.chan == [AddLive(id), AddLive(id)] && s6.cache == map[id := false];
    s := Step(s6, Handle(true));
    RunsChain(EMPTY, ts5 + [Handle(false)], s6, Handle(true));
    ts := ts5 + [Handle(false)] + [Handle(true)];
  }

  /** If the container then stops before the second report is handled, the log shows two starts in
      a row. */
  lemma ReusedPidDoublesStart(id: Id, pid: nat) returns (ts: seq<Task>, s: State)
    requires pid != 0
    ensures IsRun(EMPTY, ts, s) && !Alternates(Of(s.log, id))
  {
    var ts7, s7 := FirstReportHandled(id, pid);
    var stop := StopTask(id, 0, false);
    var s8 := Step(s7, stop);
    RunsChain(EMPTY, ts7, s7, stop);
    var ts8 := ts7 + [stop];
    assert s8.chan == [AddLive(id), StopEv(id)] && s8.cache == s7.cache;
    s := Step(s8, Handle(false));
    RunsChain(EMPTY, ts8, s8, Handle(false));
    ts := ts8 + [Handle(false)];
    EmptyMatches();
    HarmlessRunMatches(EMPTY, ts8, s8);
    assert LogMatchesAt(s8, id);
    var s0 := s8.(chan := s8.chan[1..]);
    SameLogMatches(s8, s0, id);
    HarmDone(s0, AddLive(id), false);
  }

  // -- What the log says, from the events handled alone

  /** An event as it was handled: with the running flag found then. */
  datatype Handling = Handling(ev: ClusterEvent, running: bool)

  /** What an event leaves of its workload: nothing after a delete, stopped after a stop or an add of
      a container that does not run, started after one of a container that does. */
  function After(m: Mark, h: Handling): Mark {
    match h.ev
    case AddLive(_) => if h.running then Started else Stopped
    case AddExited(_) => Stopped
    case StopEv(_) => Stopped
    case DelEv(_) => Nothing
    case UpdateEv(_) => m
  }

  /** What the last event about a workload leaves of it. */
  function LastWord(hs: seq<Handling>, id: Id): Mark {
    if hs == [] then Nothing
    else
      var h, before := hs[|hs| - 1], LastWord(hs[..|hs| - 1], id);
      if h.ev.id == id then After(before, h) else before
  }

  /** What is logged when a workload is handled that stands at `m`. */
  function Written(m: Mark, h: Handling): seq<Kind> {
    match h.ev
    case AddLive(_) =>
      if h.running then (if m == Started then [] else [Start, Secured])
      else (if m == Stopped then [] else [Start, Secured, Stop])
    case AddExited(_) => if m == Stopped then [] else [Start, Secured, Stop]
    case StopEv(_) => if m == Nothing then [Start, Stop] else if m == Started then [Stop] else []
    case DelEv(_) => if m == Nothing then [] else [Remove]
    case UpdateEv(_) => []
  }

  /** A workload's log. */
  function History(hs: seq<Handling>, id: Id): seq<Kind> {
    if hs == [] then []
    else
      var h, init := hs[|hs| - 1], hs[..|hs| - 1];
      History(init, id) + if h.ev.id == id then Written(LastWord(init, id), h) else []
  }

  /** All that is logged of a workload, 'secured' included. */
  function All(log: seq<LogEntry>, id: Id): seq<Kind> {
    if log == [] then []
    else All(log[..|log| - 1], id) + if log[|log| - 1].id == id then [log[|log| - 1].kind] else []
  }

  lemma AllSnoc(log: seq<LogEntry>, e: LogEntry, id: Id)
    ensures All(log + [e], id) == All(log, id) + if e.id == id then [e.kind] else []
  {
    assert (log + [e])[..|log|] == log;
  }

  lemma AddMarks(s: State, own: Id, running: bool, id: Id)
    ensures CacheMark(ClusterAdd(s, own, running), id)
            == if own == id then (if running then Started else Stopped) else CacheMark(s, id)
  {
  }

  lemma StopMarks(s: State, own: Id, id: Id)
    ensures CacheMark(ClusterStop(s, own), id) == if own == id then Stopped else CacheMark(s, id)
  {
  }

  lemma DelMarks(s: State, own: Id, id: Id)
    ensures CacheMark(ClusterDel(s, own), id) == if own == id then Nothing else CacheMark(s, id)
  {
  }

  /** The entries that a handler adds about one workload. */
  function Entries(id: Id, ks: seq<Kind>): (es: seq<LogEntry>)
    ensures |es| == |ks| && forall i :: 0 <= i < |ks| ==> es[i] == LogEntry(id, ks[i])
  {
    seq(|ks|, i requires 0 <= i < |ks| => LogEntry(id, ks[i]))
  }

  lemma EntriesSnoc(log: seq<LogEntry>, own: Id, ks: seq<Kind>, k: Kind)
    ensures log + Entries(own, ks + [k]) == log + Entries(own, ks) + [LogEntry(own, k)]
  {
  }

  lemma AllAppendsOne(log: seq<LogEntry>, own: Id, ks: seq<Kind>, k: Kind, id: Id)
    requires All(log + Entries(own, ks), id) == All(log, id) + if own == id then ks else []
    ensures All(log + Entries(own, ks + [k]), id) == All(log, id) + if own == id then ks + [k] else []
  {
    EntriesSnoc(log, own, ks, k);
    AllSnoc(log + Entries(own, ks), LogEntry(own, k), id);
  }

  lemma {:induction false} AllAppends(log: seq<LogEntry>, own: Id, ks: seq<Kind>, id: Id)
    ensures All(log + Entries(own, ks), id) == All(log, id) + if own == id then ks else []
    decreases |ks|
  {
    if ks == [] {
      assert log + Entries(own, ks) == log;
    } else {
      var init, k := ks[..|ks| - 1], ks[|ks| - 1];
      AllAppends(log, own, init, id);
      AllAppendsOne(log, own, init, k, id);
      assert ks == init + [k];
    }
  }

  lemma AddLogs(s: State, own: Id, running: bool)
    ensures ClusterAdd(s, own, running).log
            == s.log + Entries(own, Written(CacheMark(s, own), Handling(AddLive(own), running)))
  {
  }

  lemma StopLogs(s: State, own: Id)
    ensures ClusterStop(s, own).log == s.log + Entries(own, Written(CacheMark(s, own), Handling(StopEv(own), false)))
  {
  }

  lemma DelLogs(s: State, own: Id)
    ensures ClusterDel(s, own).log == s.log + Entries(own, Written(CacheMark(s, own), Handling(DelEv(own), false)))
  {
  }

  lemma AddWrites(s: State, own: Id, running: bool, id: Id)
    ensures var s', m := ClusterAdd(s, own, running), CacheMark(s, id);
            && CacheMark(s', id) == (if own == id then (if running then Started else Stopped) else m)
            && All(s'.log, id) == All(s.log, id) + if own == id then Written(m, Handling(AddLive(id), running)) else []
  {
    AddMarks(s, own, running, id);
    AddLogs(s, own, running);
    AllAppends(s.log, own, Written(CacheMark(s, own), Handling(AddLive(own), running)), id);
  }

  lemma StopWrites(s: State, own: Id, id: Id)
    ensures var s', m := ClusterStop(s, own), CacheMark(s, id);
            && CacheMark(s', id) == (if own == id then Stopped else m)
            && All(s'.log, id) == All(s.log, id) + if own == id then Written(m, Handling(StopEv(id), false)) else []
  {
    StopMarks(s, own, id);
    StopLogs(s, own);
    AllAppends(s.log, own, Written(CacheMark(s, own), Handling(StopEv(own), false)), id);
  }

  lemma DelWrites(s: State, own: Id, id: Id)
    ensures var s', m := ClusterDel(s, own), CacheMark(s, id);
            && CacheMark(s', id) == (if own == id then Nothing else m)
            && All(s'.log, id) == All(s.log, id) + if own == id then Written(m, Handling(DelEv(id), false)) else []
  {
    DelMarks(s, own, id);
    DelLogs(s, own);
    AllAppends(s.log, own, Written(CacheMark(s, own), Handling(DelEv(own), false)), id);
  }

  /** One event handled: where the workload stands after it, and what is logged of it. */
  lemma HandledWrites(s: State, h: Handling, id: Id)
    ensures var s', m := Handled(s, h.ev, h.running), CacheMark(s, id);
            && CacheMark(s', id) == (if h.ev.id == id then After(m, h) else m)
            && All(s'.log, id) == All(s.log, id) + if h.ev.id == id then Written(m, h) else []
  {
    match h.ev {
      case AddLive(own) => AddWrites(s, own, h.running, id);
      case AddExited(own) => AddWrites(s, own, false, id);
      case StopEv(own) => StopWrites(s, own, id);
      case DelEv(own) => DelWrites(s, own, id);
      case UpdateEv(_) =>
    }
  }

  /** The events that a run handles, in order. */
  ghost function HandledIn(s: State, ts: seq<Task>): seq<Handling>
    decreases |ts|
  {
    if ts == [] || !Enabled(s, ts[0]) then []
    else (if ts[0].Handle? then [Handling(s.chan[0], ts[0].running)] else []) + HandledIn(Step(s, ts[0]), ts[1..])
  }

  /** State and log agree with what was handled so far. */
  ghost predicate Told(s: State, hs: seq<Handling>, id: Id) {
    CacheMark(s, id) == LastWord(hs, id) && All(s.log, id) == History(hs, id)
  }

  lemma ToldSnoc(s: State, s': State, hs: seq<Handling>, h: Handling, id: Id)
    requires Told(s, hs, id)
    requires CacheMark(s', id) == if h.ev.id == id then After(CacheMark(s, id), h) else CacheMark(s, id)
    requires All(s'.log, id) == All(s.log, id) + if h.ev.id == id then Written(CacheMark(s, id), h) else []
    ensures Told(s', hs + [h], id)
  {
    assert (hs + [h])[..|hs|] == hs;
  }

  lemma StepTells(s: State, t: Task, hs: seq<Handling>, id: Id)
    requires Enabled(s, t) && Told(s, hs, id)
    ensures Told(Step(s, t), hs + if t.Handle? then [Handling(s.chan[0], t.running)] else [], id)
  {
    if t.Handle? {
      var s0, h := s.(chan := s.chan[1..]), Handling(s.chan[0], t.running);
      HandledWrites(s0, h, id);
      ToldSnoc(s0, Step(s, t), hs, h, id);
    } else {
      TaskKeepsLog(s, t);
      assert hs + [] == hs;
    }
  }

  lemma JoinHandlings(a: seq<Handling>, b: seq<Handling>, c: seq<Handling>)
    ensures a + b + c == a + (b + c)
  {
  }

  lemma {:induction false} RunTells(s: State, ts: seq<Task>, s': State, hs: seq<Handling>, id: Id)
    requires IsRun(s, ts, s') && Told(s, hs, id)
    ensures Told(s', hs + HandledIn(s, ts), id)
    decreases |ts|
  {
    if ts == [] {
      assert hs + [] == hs;
    } else {
      var h := if ts[0].Handle? then [Handling(s.chan[0], ts[0].running)] else [];
      StepTells(s, ts[0], hs, id);
      RunTells(Step(s, ts[0]), ts[1..], s', hs + h, id);
      JoinHandlings(hs, h, HandledIn(Step(s, ts[0]), ts[1..]));
    }
  }

  /** In every run, for every workload: the log is the one that the events handled call for, and
      what is cached is what the last of them says. */
  lemma EveryRunTells(ts: seq<Task>, s: State, id: Id)
    requires IsRun(EMPTY, ts, s)
    ensures All(s.log, id) == History(HandledIn(EMPTY, ts), id)
    ensures CacheMark(s, id) == LastWord(HandledIn(EMPTY, ts), id)
  {
    RunTells(EMPTY, ts, s, [], id);
    assert [] + HandledIn(EMPTY, ts) == HandledIn(EMPTY, ts);
  }

  function Times(ks: seq<Kind>, k: Kind): nat {
    if ks == [] then 0 else Times(ks[..|ks| - 1], k) + if ks[|ks| - 1] == k then 1 else 0
  }

  lemma {:induction false} TimesConcat(a: seq<Kind>, b: seq<Kind>, k: Kind)
    ensures Times(a + b, k) == Times(a, k) + Times(b, k)
    decreases |b|
  {
    if b == [] {
      assert a + b == a;
    } else {
      TimesConcat(a, b[..|b| - 1], k);
      assert (a + b)[..|a + b| - 1] == a + b[..|b| - 1];
    }
  }

  /** How often a workload is deleted that was added or stopped since its last delete. */
  function DeletesWhileKnown(hs: seq<Handling>, id: Id): nat {
    if hs == [] then 0
    else
      var h, init := hs[|hs| - 1], hs[..|hs| - 1];
      DeletesWhileKnown(init, id) + if h.ev == DelEv(id) && LastWord(init, id) != Nothing then 1 else 0
  }

  lemma RemovesWritten(m: Mark, h: Handling)
    ensures Times(Written(m, h), Remove) == if h.ev.DelEv? && m != Nothing then 1 else 0
  {
    var w := Written(m, h);
    assert [Start, Secured, Stop][..2] == [Start, Secured] && [Start, Secured][..1] == [Start];
    assert [Start, Stop][..1] == [Start] && [Start][..0] == [] && [Stop][..0] == [] && [Remove][..0] == [];
  }

  lemma {:induction false} RemovesCounted(hs: seq<Handling>, id: Id)
    ensures Times(History(hs, id), Remove) == DeletesWhileKnown(hs, id)
  {
    if hs != [] {
      var h, init := hs[|hs| - 1], hs[..|hs| - 1];
      RemovesCounted(init, id);
      var w := if h.ev.id == id then Written(LastWord(init, id), h) else [];
      TimesConcat(History(init, id), w, Remove);
      RemovesWritten(LastWord(init, id), h);
      assert h.ev == DelEv(id) <==> h.ev.DelEv? && h.ev.id == id;
    }
  }

  /** In every run a workload's removes number the deletes handled while it was known. */
  lemma RemovesNumberDeletes(ts: seq<Task>, s: State, id: Id)
    requires IsRun(EMPTY, ts, s)
    ensures Times(All(s.log, id), Remove) == DeletesWhileKnown(HandledIn(EMPTY, ts), id)
  {
    EveryRunTells(ts, s, id);
    RemovesCounted(HandledIn(EMPTY, ts), id);
  }

  lemma {:induction false} FreshChain(s: State, ts: seq<Task>, m: State, t: Task)
    requires IsRun(s, ts, m) && FreshPids(s, ts) && Enabled(m, t) && FreshPid(m, t)
    ensures IsRun(s, ts + [t], Step(m, t)) && FreshPids(s, ts + [t])
    decreases |ts|
  {
    if ts == [] {
      assert ts + [t] == [t] && [t][1..] == [];
    } else {
      assert (ts + [t])[1..] == ts[1..] + [t];
      FreshChain(Step(s, ts[0]), ts[1..], m, t);
    }
  }

  lemma ReportedOnce(id: Id, pid: nat) returns (ts: seq<Task>, s: State)
    requires pid != 0
    ensures IsRun(EMPTY, ts, s) && FreshPids(EMPTY, ts)
    ensures s == State(map[id := Active(pid, true)], multiset{}, [AddLive(id)], map[], [], {})
  {
    var add, hit := Add(id, pid, true), Intercept(id, pid, Reported);
    var s1 := Step(EMPTY, add);
    assert s1 == State(map[id := Active(pid, false)], multiset{(id, pid)}, [], map[], [], {});
    FreshChain(EMPTY, [], EMPTY, add);
    assert [] + [add] == [add];
    FreshChain(EMPTY, [add], s1, hit);
    ts, s := [add] + [hit], Step(s1, hit);
  }

  lemma LifeEnds(id: Id, ts: seq<Task>, s: State) returns (ts': seq<Task>, s': State)
    requires IsRun(EMPTY, ts, s) && FreshPids(EMPTY, ts)
    requires s.active == map[] && s.chan == [StopEv(id)] && s.cache == map[id := true] && s.seen == {id}
    ensures IsRun(EMPTY, ts', s') && FreshPids(EMPTY, ts')
    ensures s'.active == map[] && s'.chan == [] && s'.cache == map[]
    ensures s'.log == s.log + [LogEntry(id, Stop)] + [LogEntry(id, Remove)]
  {
    var s1 := Step(s, Handle(false));
    FreshChain(EMPTY, ts, s, Handle(false));
    assert s1.chan == [] && s1.cache == map[id := false] && s1.active == map[];
    var del := Del(id, false, false);
    var s2 := Step(s1, del);
    FreshChain(EMPTY, ts + [Handle(false)], s1, del);
    assert s2.chan == [DelEv(id)] && s2.cache == s1.cache;
    s' := Step(s2, Handle(false));
    FreshChain(EMPTY, ts + [Handle(false)] + [del], s2, Handle(false));
    ts' := ts + [Handle(false)] + [del] + [Handle(false)];
    assert s'.cache == map[];
  }

  lemma LifeBegins(id: Id, pid: nat) returns (ts: seq<Task>, s: State)
    requires pid != 0
    ensures IsRun(EMPTY, ts, s) && FreshPids(EMPTY, ts)
    ensures s.active == map[id := Active(pid, true)] && s.chan == [] && s.cache == map[id := true] && s.seen == {id}
    ensures s.log == Entries(id, [Start, Secured])
  {
    var t3, s3 := ReportedOnce(id, pid);
    s := Step(s3, Handle(true));
    FreshChain(EMPTY, t3, s3, Handle(true));
    ts := t3 + [Handle(true)];
    assert s.cache == map[id := true] && s.log == Entries(id, [Start, Secured]);
  }

  lemma LifeLogged(id: Id)
    ensures All(Entries(id, [Start, Secured]) + [LogEntry(id, Stop)] + [LogEntry(id, Remove)], id)
            == [Start, Secured, Stop, Remove]
  {
    var ks := [Start, Secured, Stop, Remove];
    AllAppends([], id, ks, id);
    assert Entries(id, [Start, Secured]) + [LogEntry(id, Stop)] + [LogEntry(id, Remove)] == [] + Entries(id, ks);
  }

  /** A whole life: a running container is added, intercepted and handled, stops, and is deleted. */
  lemma WholeLife(id: Id, pid: nat) returns (ts: seq<Task>, s: State)
    requires pid != 0
    ensures IsRun(EMPTY, ts, s) && FreshPids(EMPTY, ts) && All(s.log, id) == [Start, Secured, Stop, Remove]
    ensures s.active == map[] && s.cache == map[] && s.chan == []
  {
    var t4, s4 := LifeBegins(id, pid);
    var stop := StopTask(id, pid, false);
    var s5 := Step(s4, stop);
    assert s5.active == map[] && s5.chan == [StopEv(id)];
    FreshChain(EMPTY, t4, s4, stop);
    ts, s := LifeEnds(id, t4 + [stop], s5);
    LifeLogged(id);
  }

  /** A container found exited is logged with its start and its stop, unless known as stopped. */
  lemma ExitedIsLogged(s: State, id: Id, pid: nat, running: bool)
    requires id !in s.active && s.chan == []
    ensures Enabled(Step(s, Add(id, pid, false)), Handle(running))
    ensures var s' := Step(Step(s, Add(id, pid, false)), Handle(running));
            && s'.active == s.active && s'.chan == [] && CacheMark(s', id) == Stopped
            && s'.log == s.log + if CacheMark(s, id) == Stopped then [] else Entries(id, [Start, Secured, Stop])
  {
    var s1 := Step(s, Add(id, pid, false));
    assert s1.chan == [AddExited(id)] && s1.cache == s.cache && s1.log == s.log;
    AddLogs(s1.(chan := s1.chan[1..]), id, false);
  }

  /** A stop is taken for an active container, if it names its pid or none and the container does
      not run any more; and else ignored. */
  lemma StopsExactly(s: State, id: Id, pid: nat, stillRunning: bool)
    ensures var s' := Step(s, StopTask(id, pid, stillRunning));
            if id in s.active && (pid == 0 || pid == s.active[id].pid) && !stillRunning
            then s' == s.(active := s.active - {id}, chan := s.chan + [StopEv(id)])
            else s' == s
  {
  }

  /** Deleting an active container whose process is gone stops it first; and one that still has
      its process is left alone. */
  lemma DeleteStopsFirst(s: State, id: Id, pidValid: bool)
    requires id in s.active
    ensures var s' := Step(s, Del(id, pidValid, false));
            if pidValid then s' == s
            else s'.chan == s.chan + [StopEv(id), DelEv(id)] && s'.active == s.active - {id}
  {
    assert s.chan + [StopEv(id)] + [DelEv(id)] == s.chan + [StopEv(id), DelEv(id)];
  }

  // -- The two workers as written

  lemma TaskKeeps(s: State, t: Task)
    requires Enabled(s, t) && !t.Handle?
    ensures LogMatches(s) ==> LogMatches(Step(s, t))
    ensures Synced(s) ==> (Synced(Step(s, t)) <==> FreshPid(s, t))
  {
    if LogMatches(s) {
      StepMatches(s, t);
    }
    if Synced(s) {
      StepSynced(s, t);
    }
  }

  lemma AddInStepExactly(s: State, id: Id, running: bool)
    ensures LogMatches(s) ==> (LogMatches(ClusterAdd(s, id, running)) <==> HarmlessAdd(s, id, running))
  {
    var s' := ClusterAdd(s, id, running);
    if LogMatches(s) {
      if HarmlessAdd(s, id, running) {
        forall own
          ensures LogMatchesAt(s', own)
        {
          AddMatches(s, id, running, own);
        }
      } else {
        HarmfulAddDoublesStart(s, id);
        if LogMatchesAt(s', id) {
          AcceptedAlternates(Of(s'.log, id));
        }
      }
    }
  }

  lemma StopInStep(s: State, id: Id)
    ensures LogMatches(s) ==> LogMatches(ClusterStop(s, id))
  {
    if LogMatches(s) {
      forall own
        ensures LogMatchesAt(ClusterStop(s, id), own)
      {
        StopMatches(s, id, own);
      }
    }
  }

  lemma DelInStep(s: State, id: Id)
    ensures LogMatches(s) ==> LogMatches(ClusterDel(s, id))
  {
    if LogMatches(s) {
      forall own
        ensures LogMatchesAt(ClusterDel(s, id), own)
      {
        DelMatches(s, id, own);
      }
    }
  }

  lemma HandlerKeeps(s: State, running: bool)
    requires s.chan != []
    ensures LogMatches(s) ==> (LogMatches(Step(s, Handle(running))) <==> HarmlessTask(s, Handle(running)))
    ensures LogMatches(s) && Synced(s) ==> LogMatches(Step(s, Handle(running))) && Synced(Step(s, Handle(running)))
  {
    if LogMatches(s) {
      if HarmlessTask(s, Handle(running)) {
        StepMatches(s, Handle(running));
      } else {
        var s0, ev := s.(chan := s.chan[1..]), s.chan[0];
        SameLogMatches(s, s0, ev.id);
        HarmDone(s0, ev, running);
        if LogMatchesAt(Handled(s0, ev, running), ev.id) {
          AcceptedAlternates(Of(Handled(s0, ev, running).log, ev.id));
        }
      }
    }
    if Synced(s) {
      HandleSynced(s, running);
    }
  }

  class Agent {
    var activeContainers: map<Id, Active>
    var scheduledTasks: multiset<(Id, nat)>
    var eventChan: seq<ClusterEvent>
    var wlCacheMap: map<Id, bool>
    var evqueue: seq<LogEntry>
    ghost var seen: set<Id>

    constructor ()
      ensures Value() == EMPTY && Valid()
    {
      activeContainers, scheduledTasks, eventChan := map[], multiset{}, [];
      wlCacheMap, evqueue, seen := map[], [], {};
      new;
      EmptyMatches();
      assert Intercepted(EMPTY.active) == {};
    }

    ghost function Value(): State
      reads this
    {
      State(activeContainers, scheduledTasks, eventChan, wlCacheMap, evqueue, seen)
    }

    /** The log and the workload cache agree. */
    ghost predicate InStep()
      reads this
    {
      LogMatches(Value())
    }

    /** And the channel agrees with the containers the task worker holds. */
    ghost predicate Valid()
      reads this
    {
      InStep() && Synced(Value())
    }

    method TaskAddContainer(id: Id, pid: nat, running: bool)
      modifies this
      ensures Value() == AddTask(old(Value()), id, pid, running)
      ensures old(InStep()) ==> InStep()
      ensures old(Valid()) ==> (Valid() <==> FreshPid(old(Value()), Add(id, pid, running)))
    {
      TaskKeeps(Value(), Add(id, pid, running));
      if id in activeContainers {
        return;
      }
      if !running {
        eventChan := eventChan + [AddExited(id)];
        return;
      }
      activeContainers := activeContainers[id := Active(pid, false)];
      scheduledTasks := scheduledTasks + multiset{(id, pid)};
    }

    method TaskInterceptContainer(id: Id, pid: nat, outcome: Outcome)
      requires (id, pid) in scheduledTasks
      modifies this
      ensures Value() == InterceptTask(old(Value()), id, pid, outcome)
      ensures old(InStep()) ==> InStep()
      ensures old(Valid()) ==> Valid()
    {
      TaskKeeps(Value(), Intercept(id, pid, outcome));
      scheduledTasks := scheduledTasks - multiset{(id, pid)};
      if id !in activeContainers || activeContainers[id].pid != pid {
        return;
      }
      match outcome
      case Gone =>
      case WaitParent =>
        scheduledTasks := scheduledTasks + multiset{(id, pid)};
        assert scheduledTasks == old(scheduledTasks);
      case Reported =>
        activeContainers := activeContainers[id := activeContainers[id].(intercepted := true)];
        eventChan := eventChan + [AddLive(id)];
    }

    method TaskStopContainer(id: Id, pid: nat, stillRunning: bool)
      modifies this
      ensures Value() == StopContainer(old(Value()), id, pid, stillRunning)
      ensures old(InStep()) ==> InStep()
      ensures old(Valid()) ==> Valid()
    {
      TaskKeeps(Value(), StopTask(id, pid, stillRunning));
      if id !in activeContainers || (pid != 0 && pid != activeContainers[id].pid) {
        return;
      }
      if stillRunning {
        return;
      }
      eventChan := eventChan + [StopEv(id)];
      activeContainers := activeContainers - {id};
    }

    method TaskDelContainer(id: Id, pidValid: bool, stillRunning: bool)
      modifies this
      ensures Value() == DelContainer(old(Value()), id, pidValid, stillRunning)
      ensures old(InStep()) ==> InStep()
      ensures old(Valid()) ==> Valid()
    {
      TaskKeeps(Value(), Del(id, pidValid, stillRunning));
      if id in activeContainers {
        if pidValid {
          return;
        }
        TaskStopContainer(id, 0, stillRunning);
      }
      eventChan := eventChan + [DelEv(id)];
    }

    method LogWorkload(id: Id, k: Kind)
      modifies this`evqueue
      ensures Value() == Logged(old(Value()), id, k)
    {
      evqueue := evqueue + [LogEntry(id, k)];
    }

    method ClusterAddContainer(id: Id, running: bool)
      modifies this
      ensures Value() == ClusterAdd(old(Value()), id, running)
      ensures old(InStep()) ==> (InStep() <==> HarmlessAdd(old(Value()), id, running))
    {
      AddInStepExactly(Value(), id, running);
      if id !in wlCacheMap || wlCacheMap[id] != running {
        LogWorkload(id, Start);
        LogWorkload(id, Secured);
        wlCacheMap := wlCacheMap[id := running];
        if !running {
          LogWorkload(id, Stop);
        }
      }
    }

    method ClusterStopContainer(id: Id)
      modifies this
      ensures Value() == ClusterStop(old(Value()), id)
      ensures old(InStep()) ==> InStep()
    {
      StopInStep(Value(), id);
      if id in wlCacheMap {
        if wlCacheMap[id] {
          wlCacheMap := wlCacheMap[id := false];
          LogWorkload(id, Stop);
        }
      } else {
        wlCacheMap := wlCacheMap[id := false];
        LogWorkload(id, Start);
        LogWorkload(id, Stop);
      }
    }

    method ClusterDelContainer(id: Id)
      modifies this
      ensures Value() == ClusterDel(old(Value()), id)
      ensures id !in wlCacheMap && evqueue == old(evqueue) + if id in old(wlCacheMap) then [LogEntry(id, Remove)] else []
      ensures old(InStep()) ==> InStep()
    {
      DelInStep(Value(), id);
      if id in wlCacheMap {
        LogWorkload(id, Remove);
        wlCacheMap := wlCacheMap - {id};
      }
    }

    method HandleEvent(ev: ClusterEvent, running: bool)
      modifies this
      ensures Value() == Handled(old(Value()), ev, running)
    {
      match ev {
        case AddLive(id) =>
          ClusterAddContainer(id, running);
          seen := seen + {id};
        case AddExited(id) => ClusterAddContainer(id, false);
        case StopEv(id) =>
          ClusterStopContainer(id);
          seen := seen - {id};
        case DelEv(id) => ClusterDelContainer(id);
        case UpdateEv(_) =>
      }
    }

    /** Takes the oldest event off the channel. */
    method ClusterEventHandler(running: bool)
      requires eventChan != []
      modifies this
      ensures Value() == Step(old(Value()), Handle(running))
      ensures old(InStep()) ==> (InStep() <==> HarmlessTask(old(Value()), Handle(running)))
      ensures old(Valid()) ==> Valid()
    {
      HandlerKeeps(Value(), running);
      var ev := eventChan[0];
      eventChan := eventChan[1..];
      HandleEvent(ev, running);
    }
  }
}
