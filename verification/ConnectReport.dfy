/** Connection records between the data-path threads and the control thread (dp/ctrl.c).
    Each thread owns two maps.  The control thread flips the thread's current map, waits
    for an RCU grace period and drains the other one into fixed-size messages. */
module ConnectReport {
  import opened Aggregation
  import opened Basics
  import RL = RateLimiter

  /** (8192 - 4 - 4) / 80: message size, two headers and the size of `DPMsgConnect`. */
  const CONNECTS_PER_MSG: nat := 102

  /** The limiter of new records. */
  const CONNECT_RL_DUR: nat := 2
  const CONNECT_RL_CNT: nat := 400

  datatype Key = Key(policyId: nat, client: nat, server: nat, ingress: bool, port: nat, ipproto: nat)

  datatype Log = Log(key: Key, app: nat, report: Report)

  /** `logs` is history: what was merged into this node so far, in order. */
  datatype Node = Node(key: Key, app: nat, conn: Conn, logs: seq<Log>)

  /** Where a data-path thread stands: outside or inside its RCU read section, and there
      holding the map index it read, or about to count the node it added. */
  datatype Reporter = Away | Inside | Holding(log: Log, idx: nat) | Counting(idx: nat)

  datatype Thread = Thread(maps: seq<seq<Node>>, cnts: seq<nat>, cur: nat, rl: RL.Window, rep: Reporter)

  /** Where the control thread stands in `dp_ctrl_update_connects`. */
  datatype Drainer = Resting | Visit(t: nat) | Switched(t: nat) | Waiting(t: nat, blocked: bool) | Draining(t: nat)

  /** `reported` and `dropped` are history; `buf` is the message under construction. */
  datatype State = State(threads: seq<Thread>, dr: Drainer, buf: seq<Node>, sent: seq<seq<Node>>,
                         reported: seq<Log>, dropped: seq<Log>)

  // -- Steps of one data-path thread

  predicate Shaped(th: Thread) {
    && |th.maps| == 2 && |th.cnts| == 2 && th.cur < 2
    && (th.rep.Holding? || th.rep.Counting? ==> th.rep.idx < 2)
  }

  /** The key's `application` is never assigned, so the lookup compares with `stray`. */
  predicate Matches(n: Node, key: Key, stray: nat) {
    n.key == key && n.app == stray
  }

  function Recorded(n: Node, log: Log): Node {
    n.(conn := Record(n.conn, log.report), logs := n.logs + [log])
  }

  function Created(log: Log): Node {
    Node(log.key, log.app, FromReport(log.report), [log])
  }

  predicate CanMerge(th: Thread, stray: nat, i: nat) {
    && Shaped(th) && th.rep.Holding?
    && i < |th.maps[th.rep.idx]| && Matches(th.maps[th.rep.idx][i], th.rep.log.key, stray)
  }

  predicate CanCreate(th: Thread, stray: nat) {
    && Shaped(th) && th.rep.Holding?
    && forall i :: 0 <= i < |th.maps[th.rep.idx]| ==> !Matches(th.maps[th.rep.idx][i], th.rep.log.key, stray)
  }

  function MergeStep(th: Thread, i: nat): Thread
    requires Shaped(th) && th.rep.Holding? && i < |th.maps[th.rep.idx]|
  {
    var m := th.maps[th.rep.idx];
    th.(maps := th.maps[th.rep.idx := m[i := Recorded(m[i], th.rep.log)]], rep := Inside)
  }

  predicate Admitted(th: Thread, now: nat, alloc: bool) {
    RL.Admits(th.rl, now) && alloc
  }

  /** No node found: the limiter is asked, and only then is memory allocated. */
  function CreateStep(th: Thread, now: nat, alloc: bool): Thread
    requires Shaped(th) && th.rep.Holding?
  {
    var th1 := th.(rl := RL.Check(th.rl, now));
    if Admitted(th, now, alloc) then
      th1.(maps := th.maps[th.rep.idx := th.maps[th.rep.idx] + [Created(th.rep.log)]], rep := Counting(th.rep.idx))
    else th1.(rep := Inside)
  }

  function CountStep(th: Thread): Thread
    requires Shaped(th) && th.rep.Counting?
  {
    th.(cnts := th.cnts[th.rep.idx := th.cnts[th.rep.idx] + 1], rep := Inside)
  }

  // -- The whole machine

  datatype Event =
    | Enter(t: nat) | Begin(t: nat, log: Log) | MergeNode(t: nat, stray: nat, i: nat)
    | CreateNode(t: nat, stray: nat, now: nat, alloc: bool) | Count(t: nat) | Exit(t: nat)
    | Round | Skip | Switch | Sync | Resume | Take(i: nat) | Clear | Flush

  function Old(th: Thread): nat
    requires th.cur < 2
  {
    1 - th.cur
  }

  predicate AllShaped(s: State) {
    && (forall t :: 0 <= t < |s.threads| ==> Shaped(s.threads[t]))
    && (s.dr.Visit? ==> s.dr.t <= |s.threads|)
    && (s.dr.Switched? || s.dr.Waiting? || s.dr.Draining? ==> s.dr.t < |s.threads|)
  }

  predicate IsReporterEvent(e: Event) {
    e.Enter? || e.Begin? || e.MergeNode? || e.CreateNode? || e.Count? || e.Exit?
  }

  predicate ReporterEnabled(th: Thread, e: Event)
    requires IsReporterEvent(e)
  {
    match e
    case Enter(_) => th.rep == Away
    case Begin(_, _) => th.rep == Inside
    case MergeNode(_, stray, i) => CanMerge(th, stray, i)
    case CreateNode(_, stray, _, _) => CanCreate(th, stray)
    case Count(_) => th.rep.Counting?
    case Exit(_) => th.rep == Inside
  }

  function ReporterStep(th: Thread, e: Event): Thread
    requires Shaped(th) && IsReporterEvent(e) && ReporterEnabled(th, e)
  {
    match e
    case Enter(_) => th.(rep := Inside)
    case Begin(_, log) => th.(rep := Holding(log, th.cur))
    case MergeNode(_, _, i) => MergeStep(th, i)
    case CreateNode(_, _, now, alloc) => CreateStep(th, now, alloc)
    case Count(_) => CountStep(th)
    case Exit(_) => th.(rep := Away)
  }

  predicate DrainerEnabled(s: State, e: Event)
    requires AllShaped(s) && !IsReporterEvent(e)
  {
    match e
    case Round => s.dr == Resting
    case Skip => s.dr.Visit? && s.dr.t < |s.threads| && var th := s.threads[s.dr.t]; th.cnts[th.cur] == 0
    case Switch => s.dr.Visit? && s.dr.t < |s.threads| && var th := s.threads[s.dr.t]; th.cnts[th.cur] != 0
    case Sync => s.dr.Switched?
    case Resume => s.dr.Waiting? && !s.dr.blocked
    case Take(i) => s.dr.Draining? && var th := s.threads[s.dr.t]; i < |th.maps[Old(th)]|
    case Clear => s.dr.Draining? && var th := s.threads[s.dr.t]; th.maps[Old(th)] == []
    case Flush => s.dr == Visit(|s.threads|)
  }

  predicate Enabled(s: State, e: Event) {
    && AllShaped(s)
    && (IsReporterEvent(e) ==> e.t < |s.threads| && ReporterEnabled(s.threads[e.t], e))
    && (!IsReporterEvent(e) ==> DrainerEnabled(s, e))
  }

  function Without<T>(m: seq<T>, i: nat): seq<T>
    requires i < |m|
  {
    m[..i] + m[i + 1..]
  }

  /** Append to the message under construction; a full message goes out at once. */
  function Appended(s: State, n: Node): State {
    var b := s.buf + [n];
    if |b| == CONNECTS_PER_MSG then s.(sent := s.sent + [b], buf := []) else s.(buf := b)
  }

  function SetThread(s: State, t: nat, th: Thread): State
    requires t < |s.threads|
  {
    s.(threads := s.threads[t := th])
  }

  /** The control thread's effect on the thread it is visiting. */
  function Visited(th: Thread, e: Event): Thread
    requires Shaped(th) && !IsReporterEvent(e)
    requires e.Take? ==> e.i < |th.maps[Old(th)]|
  {
    match e
    case Switch => th.(cur := 1 - th.cur)
    case Take(i) => th.(maps := th.maps[Old(th) := Without(th.maps[Old(th)], i)])
    case Clear => th.(cnts := th.cnts[Old(th) := 0])
    case _ => th
  }

  function Step(s: State, e: Event): State
    requires Enabled(s, e)
  {
    if IsReporterEvent(e) then
      var th := s.threads[e.t];
      var s1 := SetThread(s, e.t, ReporterStep(th, e));
      match e
      case MergeNode(_, _, _) => s1.(reported := s.reported + [th.rep.log])
      case CreateNode(_, _, now, alloc) =>
        var s2 := s1.(reported := s.reported + [th.rep.log]);
        if Admitted(th, now, alloc) then s2 else s2.(dropped := s.dropped + [th.rep.log])
      case Exit(t) => if s.dr == Waiting(t, true) then s1.(dr := Waiting(t, false)) else s1
      case _ => s1
    else
      match e
      case Round => s.(dr := Visit(0))
      case Skip => s.(dr := Visit(s.dr.t + 1))
      case Switch =>
        SetThread(s, s.dr.t, Visited(s.threads[s.dr.t], e)).(dr := Switched(s.dr.t))
      case Sync => s.(dr := Waiting(s.dr.t, s.threads[s.dr.t].rep != Away))
      case Resume => s.(dr := Draining(s.dr.t))
      case Take(i) =>
        var th := s.threads[s.dr.t];
        Appended(SetThread(s, s.dr.t, Visited(th, e)), th.maps[Old(th)][i])
      case Clear =>
        SetThread(s, s.dr.t, Visited(s.threads[s.dr.t], e)).(dr := Visit(s.dr.t + 1))
      case Flush =>
        (if s.buf != [] then s.(sent := s.sent + [s.buf], buf := []) else s).(dr := Resting)
  }

  predicate Init(s: State) {
    && s.dr == Resting && s.buf == [] && s.sent == [] && s.reported == [] && s.dropped == []
    && forall t :: 0 <= t < |s.threads| ==>
         var th := s.threads[t];
         th.maps == [[], []] && th.cnts == [0, 0] && th.cur == 0 && th.rep == Away
  }

  ghost predicate IsRun(s: State, es: seq<Event>, s': State)
    decreases |es|
  {
    if es == [] then s' == s
    else Enabled(s, es[0]) && IsRun(Step(s, es[0]), es[1..], s')
  }

  // -- Safety of the swap

  /** The map index the thread is working on, if it is at work. */
  predicate WorksOn(th: Thread, i: nat) {
    (th.rep.Holding? || th.rep.Counting?) && th.rep.idx == i
  }

  predicate Counted(th: Thread, i: nat)
    requires Shaped(th) && i < 2
  {
    |th.maps[i]| == th.cnts[i] + if th.rep == Counting(i) then 1 else 0
  }

  /** What the control thread is doing with thread `t`. */
  datatype Phase = NotVisited | Flipped | Grace(blocked: bool) | Drained

  function PhaseOf(dr: Drainer, t: nat): Phase {
    if dr == Switched(t) then Flipped
    else if dr == Waiting(t, true) then Grace(true)
    else if dr == Waiting(t, false) then Grace(false)
    else if dr == Draining(t) then Drained
    else NotVisited
  }

  predicate SwapSafe(th: Thread, phase: Phase)
    requires Shaped(th)
  {
    && Counted(th, th.cur)
    && (phase.Flipped? || phase.Grace? ==> Counted(th, Old(th)))
    && (phase == Grace(true) ==> th.rep != Away)
    && (phase == Grace(false) || phase.Drained? || phase.NotVisited? ==> !WorksOn(th, Old(th)))
    && (phase.NotVisited? ==> th.maps[Old(th)] == [] && th.cnts[Old(th)] == 0)
  }

  ghost predicate Safe(s: State) {
    && AllShaped(s)
    && (forall t :: 0 <= t < |s.threads| ==> SwapSafe(s.threads[t], PhaseOf(s.dr, t)))
    && |s.buf| < CONNECTS_PER_MSG
    && (forall k :: 0 <= k < |s.sent| ==> 1 <= |s.sent[k]| <= CONNECTS_PER_MSG)
  }

  lemma ReporterStaysSafe(th: Thread, e: Event, phase: Phase)
    requires Shaped(th) && IsReporterEvent(e) && ReporterEnabled(th, e) && SwapSafe(th, phase)
    ensures Shaped(ReporterStep(th, e))
    ensures SwapSafe(ReporterStep(th, e), if e.Exit? && phase == Grace(true) then Grace(false) else phase)
  {
  }

  lemma ReporterStepStaysSafe(s: State, e: Event)
    requires Safe(s) && Enabled(s, e) && IsReporterEvent(e)
    ensures Safe(Step(s, e))
  {
    var s' := Step(s, e);
    ReporterStaysSafe(s.threads[e.t], e, PhaseOf(s.dr, e.t));
    forall t | 0 <= t < |s.threads|
      ensures Shaped(s'.threads[t]) && SwapSafe(s'.threads[t], PhaseOf(s'.dr, t))
    {
      if t != e.t {
        assert s'.threads[t] == s.threads[t];
        assert PhaseOf(s'.dr, t) == PhaseOf(s.dr, t);
      } else {
        assert s'.threads[t] == ReporterStep(s.threads[t], e);
      }
    }
  }

  lemma VisitedStaysSafe(th: Thread, e: Event, phase: Phase, phase': Phase)
    requires Shaped(th) && SwapSafe(th, phase) && !IsReporterEvent(e)
    requires match e
             case Switch => phase.NotVisited? && phase'.Flipped?
             case Sync => phase.Flipped? && phase' == Grace(th.rep != Away)
             case Resume => phase == Grace(false) && phase'.Drained?
             case Take(i) => phase.Drained? && phase'.Drained? && i < |th.maps[Old(th)]|
             case Clear => phase.Drained? && phase'.NotVisited? && th.maps[Old(th)] == []
             case _ => phase.NotVisited? && phase'.NotVisited?
    ensures Shaped(Visited(th, e)) && SwapSafe(Visited(th, e), phase')
  {
  }

  lemma DrainerStepShape(s: State, e: Event)
    requires Safe(s) && Enabled(s, e) && !IsReporterEvent(e) && !s.dr.Resting? && !e.Flush?
    ensures s.dr.t < |s.threads|
    ensures e.Take? ==> var th := s.threads[s.dr.t]; e.i < |th.maps[Old(th)]|
    ensures Step(s, e).threads == s.threads[s.dr.t := Visited(s.threads[s.dr.t], e)]
    ensures forall t :: 0 <= t < |s.threads| && t != s.dr.t ==>
              PhaseOf(s.dr, t).NotVisited? && PhaseOf(Step(s, e).dr, t).NotVisited?
  {
  }

  lemma DrainerStepStaysSafe(s: State, e: Event)
    requires Safe(s) && Enabled(s, e) && !IsReporterEvent(e)
    ensures Safe(Step(s, e))
  {
    var s' := Step(s, e);
    if s.dr.Resting? || e.Flush? {
      assert s'.threads == s.threads;
      forall t | 0 <= t < |s.threads|
        ensures SwapSafe(s'.threads[t], PhaseOf(s'.dr, t))
      {
        assert SwapSafe(s.threads[t], PhaseOf(s.dr, t));
      }
    } else {
      var t := s.dr.t;
      DrainerStepShape(s, e);
      VisitedStaysSafe(s.threads[t], e, PhaseOf(s.dr, t), PhaseOf(s'.dr, t));
    }
  }

  lemma StepStaysSafe(s: State, e: Event)
    requires Safe(s) && Enabled(s, e)
    ensures Safe(Step(s, e))
  {
    if IsReporterEvent(e) {
      ReporterStepStaysSafe(s, e);
    } else {
      DrainerStepStaysSafe(s, e);
    }
  }

  lemma {:induction false} RunStaysSafe(s: State, es: seq<Event>, s': State)
    requires Safe(s) && IsRun(s, es, s')
    ensures Safe(s')
    decreases |es|
  {
    if es != [] {
      StepStaysSafe(s, es[0]);
      RunStaysSafe(Step(s, es[0]), es[1..], s');
    }
  }

  /** When the grace period ends, the counter of the map about to be drained is its size. */
  lemma GraceEndsQuiet(s: State)
    requires Safe(s) && Enabled(s, Resume)
    ensures var th := s.threads[s.dr.t];
            !WorksOn(th, Old(th)) && th.cnts[Old(th)] == |th.maps[Old(th)]|
  {
    assert SwapSafe(s.threads[s.dr.t], PhaseOf(s.dr, s.dr.t));
  }

  /** While the control thread drains a map, no step of any data-path thread touches it. */
  lemma DrainedMapUntouched(s: State, e: Event)
    requires Safe(s) && s.dr.Draining? && Enabled(s, e) && IsReporterEvent(e)
    ensures var th, th' := s.threads[s.dr.t], Step(s, e).threads[s.dr.t];
            Old(th') == Old(th) && th'.maps[Old(th)] == th.maps[Old(th)] && th'.cnts[Old(th)] == th.cnts[Old(th)]
  {
    assert SwapSafe(s.threads[s.dr.t], PhaseOf(s.dr, s.dr.t));
  }

  // -- Conservation, for any way of weighing a log

  type Weight = Log -> nat

  function Weigh(rs: seq<Log>, w: Weight): nat {
    if rs == [] then 0 else Weigh(rs[..|rs| - 1], w) + w(rs[|rs| - 1])
  }

  function NodesWeigh(ns: seq<Node>, w: Weight): nat {
    if ns == [] then 0 else NodesWeigh(ns[..|ns| - 1], w) + Weigh(ns[|ns| - 1].logs, w)
  }

  function ThreadWeigh(th: Thread, w: Weight): nat
    requires Shaped(th)
  {
    NodesWeigh(th.maps[0], w) + NodesWeigh(th.maps[1], w)
  }

  predicate ThreadsShaped(ths: seq<Thread>) {
    forall t :: 0 <= t < |ths| ==> Shaped(ths[t])
  }

  function ThreadsWeigh(ths: seq<Thread>, w: Weight): nat
    requires ThreadsShaped(ths)
  {
    if ths == [] then 0 else ThreadsWeigh(ths[..|ths| - 1], w) + ThreadWeigh(ths[|ths| - 1], w)
  }

  function SentWeigh(ms: seq<seq<Node>>, w: Weight): nat {
    if ms == [] then 0 else SentWeigh(ms[..|ms| - 1], w) + NodesWeigh(ms[|ms| - 1], w)
  }

  /** Reported is dropped by the limiter, plus still in maps, plus in the message under
      construction, plus sent. */
  ghost predicate Balanced(s: State, w: Weight)
    requires AllShaped(s)
  {
    Weigh(s.reported, w)
    == Weigh(s.dropped, w) + ThreadsWeigh(s.threads, w) + NodesWeigh(s.buf, w) + SentWeigh(s.sent, w)
  }

  lemma WeighAppend(rs: seq<Log>, r: Log, w: Weight)
    ensures Weigh(rs + [r], w) == Weigh(rs, w) + w(r)
  {
    assert (rs + [r])[..|rs|] == rs;
  }

  lemma NodesAppend(ns: seq<Node>, n: Node, w: Weight)
    ensures NodesWeigh(ns + [n], w) == NodesWeigh(ns, w) + Weigh(n.logs, w)
  {
    assert (ns + [n])[..|ns|] == ns;
  }

  lemma SentAppend(ms: seq<seq<Node>>, m: seq<Node>, w: Weight)
    ensures SentWeigh(ms + [m], w) == SentWeigh(ms, w) + NodesWeigh(m, w)
  {
    assert (ms + [m])[..|ms|] == ms;
  }

  lemma WithoutLast(m: seq<Node>, i: nat)
    requires i + 1 < |m|
    ensures Without(m, i) == Without(m[..|m| - 1], i) + [m[|m| - 1]]
  {
  }

  lemma {:induction false} NodesWithout(m: seq<Node>, i: nat, w: Weight)
    requires i < |m|
    ensures NodesWeigh(m, w) == NodesWeigh(Without(m, i), w) + Weigh(m[i].logs, w)
    decreases |m|
  {
    var n := |m| - 1;
    if i == n {
      assert Without(m, i) == m[..n];
    } else {
      NodesWithout(m[..n], i, w);
      WithoutLast(m, i);
      NodesAppend(Without(m[..n], i), m[n], w);
    }
  }

  lemma {:induction false} NodesUpdate(m: seq<Node>, i: nat, n: Node, w: Weight)
    requires i < |m|
    ensures NodesWeigh(m[i := n], w) + Weigh(m[i].logs, w) == NodesWeigh(m, w) + Weigh(n.logs, w)
    decreases |m|
  {
    var k := |m| - 1;
    if i == k {
      assert m[i := n][..k] == m[..k];
    } else {
      assert m[i := n][..k] == m[..k][i := n];
      NodesUpdate(m[..k], i, n, w);
    }
  }

  lemma PrefixUpdated(ths: seq<Thread>, t: nat, th: Thread)
    requires t < |ths|
    ensures var k := |ths| - 1; ths[t := th][..k] == if t == k then ths[..k] else ths[..k][t := th]
  {
  }

  lemma {:induction false} ThreadsUpdate(ths: seq<Thread>, t: nat, th: Thread, w: Weight)
    requires ThreadsShaped(ths) && t < |ths| && Shaped(th)
    ensures ThreadsShaped(ths[t := th])
    ensures ThreadsWeigh(ths[t := th], w) + ThreadWeigh(ths[t], w) == ThreadsWeigh(ths, w) + ThreadWeigh(th, w)
    decreases |ths|
  {
    var k := |ths| - 1;
    PrefixUpdated(ths, t, th);
    if t < k {
      ThreadsUpdate(ths[..k], t, th, w);
    }
  }

  /** What one step of a data-path thread adds to its maps. */
  function Gain(th: Thread, e: Event, w: Weight): nat
    requires Shaped(th) && IsReporterEvent(e) && ReporterEnabled(th, e)
  {
    if e.MergeNode? || (e.CreateNode? && Admitted(th, e.now, e.alloc)) then w(th.rep.log) else 0
  }

  lemma MergeGains(th: Thread, stray: nat, i: nat, w: Weight)
    requires CanMerge(th, stray, i)
    ensures ThreadWeigh(MergeStep(th, i), w) == ThreadWeigh(th, w) + w(th.rep.log)
  {
    var m := th.maps[th.rep.idx];
    NodesUpdate(m, i, Recorded(m[i], th.rep.log), w);
    WeighAppend(m[i].logs, th.rep.log, w);
  }

  lemma CreateGains(th: Thread, now: nat, w: Weight)
    requires Shaped(th) && th.rep.Holding? && Admitted(th, now, true)
    ensures ThreadWeigh(CreateStep(th, now, true), w) == ThreadWeigh(th, w) + w(th.rep.log)
  {
    NodesAppend(th.maps[th.rep.idx], Created(th.rep.log), w);
    WeighAppend([], th.rep.log, w);
    assert [] + [th.rep.log] == [th.rep.log];
  }

  lemma ThreadGains(th: Thread, e: Event, w: Weight)
    requires Shaped(th) && IsReporterEvent(e) && ReporterEnabled(th, e)
    ensures Shaped(ReporterStep(th, e))
    ensures ThreadWeigh(ReporterStep(th, e), w) == ThreadWeigh(th, w) + Gain(th, e, w)
  {
    if e.MergeNode? {
      MergeGains(th, e.stray, e.i, w);
    } else if e.CreateNode? && Admitted(th, e.now, e.alloc) {
      CreateGains(th, e.now, w);
    }
  }

  /** A step of a data-path thread weighs the same on both sides of the books. */
  lemma ReporterBooks(s: State, e: Event, w: Weight)
    requires Enabled(s, e) && IsReporterEvent(e)
    ensures Weigh(Step(s, e).reported, w) + Weigh(s.dropped, w)
            == Weigh(s.reported, w) + Gain(s.threads[e.t], e, w) + Weigh(Step(s, e).dropped, w)
    ensures Step(s, e).buf == s.buf && Step(s, e).sent == s.sent
    ensures Step(s, e).threads == s.threads[e.t := ReporterStep(s.threads[e.t], e)]
  {
    if e.MergeNode? || e.CreateNode? {
      WeighAppend(s.reported, s.threads[e.t].rep.log, w);
      WeighAppend(s.dropped, s.threads[e.t].rep.log, w);
    }
  }

  lemma ReporterBalances(s: State, e: Event, w: Weight)
    requires Enabled(s, e) && IsReporterEvent(e) && Balanced(s, w)
    requires AllShaped(Step(s, e))
    ensures Balanced(Step(s, e), w)
  {
    ReporterBooks(s, e, w);
    ThreadGains(s.threads[e.t], e, w);
    ThreadsUpdate(s.threads, e.t, ReporterStep(s.threads[e.t], e), w);
  }

  lemma AppendBalances(s: State, n: Node, w: Weight)
    ensures var s' := Appended(s, n);
            NodesWeigh(s'.buf, w) + SentWeigh(s'.sent, w)
            == NodesWeigh(s.buf, w) + SentWeigh(s.sent, w) + Weigh(n.logs, w)
  {
    NodesAppend(s.buf, n, w);
    SentAppend(s.sent, s.buf + [n], w);
  }

  lemma TakeLightens(th: Thread, i: nat, w: Weight)
    requires Shaped(th) && i < |th.maps[Old(th)]|
    ensures Shaped(Visited(th, Take(i)))
    ensures ThreadWeigh(th, w) == ThreadWeigh(Visited(th, Take(i)), w) + Weigh(th.maps[Old(th)][i].logs, w)
  {
    NodesWithout(th.maps[Old(th)], i, w);
  }

  lemma TakeBalances(s: State, i: nat, w: Weight)
    requires Enabled(s, Take(i)) && Balanced(s, w)
    requires AllShaped(Step(s, Take(i)))
    ensures Balanced(Step(s, Take(i)), w)
  {
    var th := s.threads[s.dr.t];
    var th' := Visited(th, Take(i));
    TakeLightens(th, i, w);
    ThreadsUpdate(s.threads, s.dr.t, th', w);
    var s1 := SetThread(s, s.dr.t, th');
    AppendBalances(s1, th.maps[Old(th)][i], w);
    assert Step(s, Take(i)) == Appended(s1, th.maps[Old(th)][i]);
  }

  lemma DrainerBalances(s: State, e: Event, w: Weight)
    requires Enabled(s, e) && !IsReporterEvent(e) && Balanced(s, w)
    requires AllShaped(Step(s, e))
    ensures Balanced(Step(s, e), w)
  {
    match e
    case Take(i) => TakeBalances(s, i, w);
    case Switch =>
      ThreadsUpdate(s.threads, s.dr.t, Visited(s.threads[s.dr.t], e), w);
    case Clear =>
      ThreadsUpdate(s.threads, s.dr.t, Visited(s.threads[s.dr.t], e), w);
    case Flush => SentAppend(s.sent, s.buf, w);
    case _ =>
  }

  lemma {:induction false} EmptyThreads(ths: seq<Thread>, w: Weight)
    requires ThreadsShaped(ths) && forall t :: 0 <= t < |ths| ==> ths[t].maps == [[], []]
    ensures ThreadsWeigh(ths, w) == 0
  {
    if ths != [] {
      EmptyThreads(ths[..|ths| - 1], w);
    }
  }

  /** In every interleaving of the data-path threads and the control thread, however each
      log is weighed, nothing is lost and nothing is counted twice. */
  lemma {:induction false} RunBalances(s: State, es: seq<Event>, s': State, w: Weight)
    requires Safe(s) && Balanced(s, w) && IsRun(s, es, s')
    ensures Safe(s') && Balanced(s', w)
    decreases |es|
  {
    if es != [] {
      StepStaysSafe(s, es[0]);
      if IsReporterEvent(es[0]) {
        ReporterBalances(s, es[0], w);
      } else {
        DrainerBalances(s, es[0], w);
      }
      RunBalances(Step(s, es[0]), es[1..], s', w);
    }
  }

  /** The same from start-up: the swap is safe, no message is empty or over-full, and the
      books balance. */
  lemma EveryRunBalances(s0: State, es: seq<Event>, s: State, w: Weight)
    requires Init(s0) && IsRun(s0, es, s)
    ensures Safe(s) && Balanced(s, w)
  {
    EmptyThreads(s0.threads, w);
    RunBalances(s0, es, s, w);
  }

  // -- What a record says

  function Reports(logs: seq<Log>): (rs: seq<Report>)
    ensures |rs| == |logs| && forall i :: 0 <= i < |logs| ==> rs[i] == logs[i].report
  {
    seq(|logs|, i requires 0 <= i < |logs| => logs[i].report)
  }

  /** The record folds what was logged for its own connection: policy, addresses, direction, port
      and protocol. */
  predicate Sound(n: Node) {
    && n.logs != [] && n.conn == Fold(Reports(n.logs))
    && forall i :: 0 <= i < |n.logs| ==> n.logs[i].key == n.key
  }

  predicate AllSound(ns: seq<Node>) {
    forall i :: 0 <= i < |ns| ==> Sound(ns[i])
  }

  predicate ThreadSound(th: Thread) {
    |th.maps| == 2 && AllSound(th.maps[0]) && AllSound(th.maps[1])
  }

  ghost predicate EverySound(s: State) {
    && (forall t :: 0 <= t < |s.threads| ==> ThreadSound(s.threads[t]))
    && AllSound(s.buf)
    && (forall k :: 0 <= k < |s.sent| ==> AllSound(s.sent[k]))
  }

  lemma RecordedSound(n: Node, log: Log)
    requires Sound(n) && log.key == n.key
    ensures Sound(Recorded(n, log))
  {
    assert Reports(n.logs + [log])[..|n.logs|] == Reports(n.logs);
  }

  lemma ReporterKeepsSound(th: Thread, e: Event)
    requires Shaped(th) && ThreadSound(th) && IsReporterEvent(e) && ReporterEnabled(th, e)
    ensures ThreadSound(ReporterStep(th, e))
  {
    if e.MergeNode? {
      RecordedSound(th.maps[th.rep.idx][e.i], th.rep.log);
    }
  }

  lemma VisitedKeepsSound(th: Thread, e: Event)
    requires Shaped(th) && ThreadSound(th) && !IsReporterEvent(e)
    requires e.Take? ==> e.i < |th.maps[Old(th)]|
    ensures ThreadSound(Visited(th, e))
    ensures e.Take? ==> Sound(th.maps[Old(th)][e.i])
  {
  }

  lemma ReporterStepKeepsSound(s: State, e: Event)
    requires Enabled(s, e) && EverySound(s) && IsReporterEvent(e)
    ensures EverySound(Step(s, e))
  {
    ReporterKeepsSound(s.threads[e.t], e);
    assert Step(s, e).threads == s.threads[e.t := ReporterStep(s.threads[e.t], e)];
  }

  lemma AppendedKeepsSound(s: State, n: Node)
    requires EverySound(s) && Sound(n)
    ensures EverySound(Appended(s, n))
  {
    assert AllSound(s.buf + [n]);
  }

  lemma DrainerStepKeepsSound(s: State, e: Event)
    requires Enabled(s, e) && EverySound(s) && !IsReporterEvent(e)
    ensures EverySound(Step(s, e))
  {
    if e.Switch? || e.Take? || e.Clear? {
      var th' := Visited(s.threads[s.dr.t], e);
      VisitedKeepsSound(s.threads[s.dr.t], e);
      assert EverySound(SetThread(s, s.dr.t, th'));
      if e.Take? {
        AppendedKeepsSound(SetThread(s, s.dr.t, th'), s.threads[s.dr.t].maps[Old(s.threads[s.dr.t])][e.i]);
      }
    }
  }

  lemma StepKeepsSound(s: State, e: Event)
    requires Enabled(s, e) && EverySound(s)
    ensures EverySound(Step(s, e))
  {
    if IsReporterEvent(e) {
      ReporterStepKeepsSound(s, e);
    } else {
      DrainerStepKeepsSound(s, e);
    }
  }

  /** In every run each record, pending or sent, is the fold of the reports it stands for, all of
      its own connection. */
  lemma {:induction false} EveryRecordIsAFold(s: State, es: seq<Event>, s': State)
    requires EverySound(s) && IsRun(s, es, s')
    ensures EverySound(s')
    decreases |es|
  {
    if es != [] {
      StepKeepsSound(s, es[0]);
      EveryRecordIsAFold(Step(s, es[0]), es[1..], s');
    }
  }

  // -- The counters of the records add up, connection by connection

  /** A choice of connections: one, some or all. */
  type Choice = Key -> bool

  function LogCount(log: Log, x: Counter, of: Choice): nat {
    if of(log.key) then ReportCount(log.report, x) else 0
  }

  function CounterWeight(x: Counter, of: Choice): Weight {
    (log: Log) => LogCount(log, x, of)
  }

  function NodesSum(ns: seq<Node>, x: Counter, of: Choice): nat {
    if ns == [] then 0
    else NodesSum(ns[..|ns| - 1], x, of) + if of(ns[|ns| - 1].key) then CountOf(ns[|ns| - 1].conn, x) else 0
  }

  function ThreadSum(th: Thread, x: Counter, of: Choice): nat
    requires Shaped(th)
  {
    NodesSum(th.maps[0], x, of) + NodesSum(th.maps[1], x, of)
  }

  function ThreadsSum(ths: seq<Thread>, x: Counter, of: Choice): nat
    requires ThreadsShaped(ths)
  {
    if ths == [] then 0 else ThreadsSum(ths[..|ths| - 1], x, of) + ThreadSum(ths[|ths| - 1], x, of)
  }

  function SentSum(ms: seq<seq<Node>>, x: Counter, of: Choice): nat {
    if ms == [] then 0 else SentSum(ms[..|ms| - 1], x, of) + NodesSum(ms[|ms| - 1], x, of)
  }

  function LogsSum(logs: seq<Log>, x: Counter, of: Choice): nat {
    if logs == [] then 0 else LogsSum(logs[..|logs| - 1], x, of) + LogCount(logs[|logs| - 1], x, of)
  }

  lemma {:induction false} SumIsWeight(logs: seq<Log>, x: Counter, of: Choice)
    ensures LogsSum(logs, x, of) == Weigh(logs, CounterWeight(x, of))
  {
    if logs != [] {
      SumIsWeight(logs[..|logs| - 1], x, of);
    }
  }

  /** What was logged for one connection. */
  predicate AllOf(logs: seq<Log>, key: Key) {
    forall i :: 0 <= i < |logs| ==> logs[i].key == key
  }

  lemma {:induction false} FoldCounts(logs: seq<Log>, key: Key, x: Counter, of: Choice)
    requires logs != [] && AllOf(logs, key)
    ensures (if of(key) then CountOf(Fold(Reports(logs)), x) else 0) == LogsSum(logs, x, of)
  {
    var init := logs[..|logs| - 1];
    if |logs| == 1 {
      assert LogsSum(init, x, of) == 0;
    } else {
      FoldCounts(init, key, x, of);
      assert Reports(logs)[..|logs| - 1] == Reports(init);
    }
  }

  lemma {:induction false} NodesCount(ns: seq<Node>, x: Counter, of: Choice)
    requires AllSound(ns)
    ensures NodesSum(ns, x, of) == NodesWeigh(ns, CounterWeight(x, of))
  {
    if ns != [] {
      var n := ns[|ns| - 1];
      NodesCount(ns[..|ns| - 1], x, of);
      assert Sound(n);
      FoldCounts(n.logs, n.key, x, of);
      SumIsWeight(n.logs, x, of);
    }
  }

  lemma {:induction false} ThreadsCount(ths: seq<Thread>, x: Counter, of: Choice)
    requires ThreadsShaped(ths) && forall t :: 0 <= t < |ths| ==> ThreadSound(ths[t])
    ensures ThreadsSum(ths, x, of) == ThreadsWeigh(ths, CounterWeight(x, of))
  {
    if ths != [] {
      var th := ths[|ths| - 1];
      ThreadsCount(ths[..|ths| - 1], x, of);
      assert ThreadSound(th);
      NodesCount(th.maps[0], x, of);
      NodesCount(th.maps[1], x, of);
    }
  }

  lemma {:induction false} SentCount(ms: seq<seq<Node>>, x: Counter, of: Choice)
    requires forall k :: 0 <= k < |ms| ==> AllSound(ms[k])
    ensures SentSum(ms, x, of) == SentWeigh(ms, CounterWeight(x, of))
  {
    if ms != [] {
      SentCount(ms[..|ms| - 1], x, of);
      NodesCount(ms[|ms| - 1], x, of);
    }
  }

  /** In every run, for each connection by itself and any choice of them: the bytes, sessions and
      violations reported are those in its records sent, in the message under construction and in
      the maps, plus those of its reports refused. */
  lemma EveryRunCounts(s0: State, es: seq<Event>, s: State, x: Counter, of: Choice)
    requires Init(s0) && IsRun(s0, es, s)
    ensures AllShaped(s)
    ensures LogsSum(s.reported, x, of)
            == LogsSum(s.dropped, x, of) + ThreadsSum(s.threads, x, of) + NodesSum(s.buf, x, of) + SentSum(s.sent, x, of)
  {
    EveryRunBalances(s0, es, s, CounterWeight(x, of));
    EveryRecordIsAFold(s0, es, s);
    SumIsWeight(s.reported, x, of);
    SumIsWeight(s.dropped, x, of);
    ThreadsCount(s.threads, x, of);
    NodesCount(s.buf, x, of);
    SentCount(s.sent, x, of);
  }

  lemma {:induction false} EmptyThreadsSum(ths: seq<Thread>, x: Counter, of: Choice)
    requires ThreadsShaped(ths) && forall t :: 0 <= t < |ths| ==> ths[t].maps == [[], []]
    ensures ThreadsSum(ths, x, of) == 0
  {
    if ths != [] {
      EmptyThreadsSum(ths[..|ths| - 1], x, of);
    }
  }

  /** At rest with every map empty, what was reported of a connection is in its records in the
      messages or was refused. */
  lemma QuietRunSentAll(s0: State, es: seq<Event>, s: State, x: Counter, of: Choice)
    requires Init(s0) && IsRun(s0, es, s) && s.dr == Resting && s.buf == []
    requires forall t :: 0 <= t < |s.threads| ==> s.threads[t].maps == [[], []]
    ensures LogsSum(s.reported, x, of) == LogsSum(s.dropped, x, of) + SentSum(s.sent, x, of)
  {
    EveryRunCounts(s0, es, s, x, of);
    EmptyThreadsSum(s.threads, x, of);
  }

  // -- How many records a thread can add

  function NodeCount(th: Thread): nat
    requires Shaped(th)
  {
    |th.maps[0]| + |th.maps[1]|
  }

  /** A step of the thread leaves it with more records than before. */
  predicate AddsRecord(s: State, e: Event, t: nat) {
    && Enabled(s, e) && IsReporterEvent(e) && e.t == t
    && Shaped(ReporterStep(s.threads[t], e)) && NodeCount(ReporterStep(s.threads[t], e)) > NodeCount(s.threads[t])
  }

  /** How many records a thread adds in a run, and when it asked for them. */
  ghost function RecordsAdded(s: State, es: seq<Event>, t: nat): nat
    decreases |es|
  {
    if es == [] || !Enabled(s, es[0]) then 0
    else (if AddsRecord(s, es[0], t) then 1 else 0) + RecordsAdded(Step(s, es[0]), es[1..], t)
  }

  function AskedAt(es: seq<Event>, t: nat): seq<nat>
    decreases |es|
  {
    if es == [] then []
    else (if es[0].CreateNode? && es[0].t == t then [es[0].now] else []) + AskedAt(es[1..], t)
  }

  lemma OnlyCreateAdds(s: State, e: Event, t: nat)
    requires AddsRecord(s, e, t)
    ensures e.CreateNode? && RL.Admits(s.threads[t].rl, e.now)
  {
  }

  lemma LimiterMoves(s: State, e: Event, t: nat)
    requires Enabled(s, e) && t < |s.threads|
    ensures t < |Step(s, e).threads|
    ensures Step(s, e).threads[t].rl ==
            if e.CreateNode? && e.t == t then RL.Check(s.threads[t].rl, e.now) else s.threads[t].rl
  {
  }

  lemma PassCountCons(w: RL.Window, now: nat, ts: seq<nat>)
    ensures RL.PassCount(w, [now] + ts) == (if RL.Admits(w, now) then 1 else 0) + RL.PassCount(RL.Check(w, now), ts)
  {
    assert ([now] + ts)[1..] == ts;
  }

  lemma {:induction false} AddedWithinLimit(s: State, es: seq<Event>, s': State, t: nat)
    requires IsRun(s, es, s') && t < |s.threads|
    ensures RecordsAdded(s, es, t) <= RL.PassCount(s.threads[t].rl, AskedAt(es, t))
    decreases |es|
  {
    if es != [] {
      var e, w := es[0], s.threads[t].rl;
      LimiterMoves(s, e, t);
      AddedWithinLimit(Step(s, e), es[1..], s', t);
      if AddsRecord(s, e, t) {
        OnlyCreateAdds(s, e, t);
      }
      if e.CreateNode? && e.t == t {
        PassCountCons(w, e.now, AskedAt(es[1..], t));
      } else {
        assert [] + AskedAt(es[1..], t) == AskedAt(es[1..], t);
      }
    }
  }

  lemma {:induction false} LimiterAfter(s: State, es: seq<Event>, s': State, t: nat)
    requires IsRun(s, es, s') && t < |s.threads|
    ensures t < |s'.threads| && s'.threads[t].rl == RL.Run(s.threads[t].rl, AskedAt(es, t))
    decreases |es|
  {
    if es != [] {
      var e, rest := es[0], AskedAt(es[1..], t);
      LimiterMoves(s, e, t);
      LimiterAfter(Step(s, e), es[1..], s', t);
      if e.CreateNode? && e.t == t {
        assert ([e.now] + rest)[1..] == rest;
      } else {
        assert [] + rest == rest;
      }
    }
  }

  /** In every run from start-up, a thread whose limiter was reset at `t0` adds, from any time `a` to
      any time `b`, no more records than a limit of 400 in 2 seconds admits. */
  lemma RecordsAreLimited(s0: State, before: seq<Event>, s1: State, during: seq<Event>, s: State,
                          t: nat, t0: nat, a: nat, b: nat)
    requires Init(s0) && IsRun(s0, before, s1) && IsRun(s1, during, s) && t < |s0.threads|
    requires s0.threads[t].rl == RL.Reset(CONNECT_RL_DUR, CONNECT_RL_CNT, t0)
    requires RL.Clock(t0, AskedAt(before, t), a) && RL.Clock(a, AskedAt(during, t), b)
    requires |AskedAt(before, t)| + |AskedAt(during, t)| < RL.U32
    ensures RecordsAdded(s1, during, t) <= RL.MostAdmitted(2, 400, b - a)
  {
    LimiterAfter(s0, before, s1, t);
    AddedWithinLimit(s1, during, s, t);
    RL.RateBound(CONNECT_RL_DUR, CONNECT_RL_CNT, t0, AskedAt(before, t), AskedAt(during, t), a, b);
  }

  // -- What the agent makes of them

  function Conns(ns: seq<Node>): (cs: seq<Conn>)
    ensures |cs| == |ns|
  {
    seq(|ns|, i requires 0 <= i < |ns| => ns[i].conn)
  }

  function Histories(ns: seq<Node>): (hs: seq<seq<Report>>)
    ensures |hs| == |ns|
  {
    seq(|ns|, i requires 0 <= i < |ns| => Reports(ns[i].logs))
  }

  lemma {:induction false} ConnsAreFolds(ns: seq<Node>)
    requires AllSound(ns)
    ensures NoneEmpty(Histories(ns)) && FoldEach(Histories(ns)) == Conns(ns)
  {
    if ns != [] {
      var init := ns[..|ns| - 1];
      ConnsAreFolds(init);
      assert Histories(ns)[..|ns| - 1] == Histories(init);
    }
  }

  /** End to end: whichever sent records the agent merges into one entry, the entry is the
      direct fold of every report behind them. */
  lemma AgentSeesOneFold(ns: seq<Node>)
    requires ns != [] && AllSound(ns)
    ensures Flatten(Histories(ns)) != [] && MergeAll(Conns(ns)) == Fold(Flatten(Histories(ns)))
  {
    ConnsAreFolds(ns);
    TwoLevelsEqualOne(Histories(ns));
  }

  // -- The routines as written

  /** One data-path thread's maps, inside its RCU read section. */
  class DataPath {
    var maps: seq<seq<Node>>
    var cnts: seq<nat>
    var cur: nat
    const limiter: RL.Limiter

    ghost function Value(): Thread
      reads this, limiter
    {
      Thread(maps, cnts, cur, limiter.Value(), Inside)
    }

    constructor (now: nat)
      ensures fresh(limiter)
      ensures Value() == Thread([[], []], [0, 0], 0, RL.Reset(CONNECT_RL_DUR, CONNECT_RL_CNT, now), Inside)
    {
      limiter := new RL.Limiter(CONNECT_RL_DUR, CONNECT_RL_CNT, now);
      maps, cnts, cur := [[], []], [0, 0], 0;
    }

    /** `dp_ctrl_connect_report` is the steps Begin, then MergeNode, or CreateNode and Count. */
    method ConnectReport(log: Log, stray: nat, now: nat, alloc: bool)
      requires Shaped(Value())
      modifies this, limiter
      ensures Shaped(Value()) && cur == old(cur)
      ensures maps[1 - cur] == old(maps[1 - cur]) && cnts[1 - cur] == old(cnts[1 - cur])
      ensures var before := old(maps[cur]);
              if exists i :: 0 <= i < |before| && before[i].key == log.key && before[i].app == stray
              then |maps[cur]| == |before| && cnts == old(cnts) && limiter.Value() == old(limiter.Value())
              else if RL.Admits(old(limiter.Value()), now) && alloc
              then maps[cur] == before + [Node(log.key, log.app, FromReport(log.report), [log])]
                   && cnts[cur] == old(cnts[cur]) + 1
              else maps == old(maps) && cnts == old(cnts)
      ensures var held := old(Value()).(rep := Holding(log, old(cur)));
              || (exists i: nat :: CanMerge(held, stray, i) && Value() == MergeStep(held, i))
              || (CanCreate(held, stray) && !Admitted(held, now, alloc) && Value() == CreateStep(held, now, alloc))
              || (CanCreate(held, stray) && Admitted(held, now, alloc) && Value() == CountStep(CreateStep(held, now, alloc)))
    {
      ghost var held := Value().(rep := Holding(log, cur));
      var idx := cur;
      var m := maps[idx];
      var i := 0;
      while i < |m| && !Matches(m[i], log.key, stray)
        invariant 0 <= i <= |m|
        invariant forall j :: 0 <= j < i ==> !Matches(m[j], log.key, stray)
      {
        i := i + 1;
      }
      if i < |m| {
        maps := maps[idx := m[i := Recorded(m[i], log)]];
        assert CanMerge(held, stray, i);
        assert Value() == MergeStep(held, i);
      } else {
        var ret := limiter.CheckNow(now);
        if ret == 0 && alloc {
          maps := maps[idx := m + [Created(log)]];
          cnts := cnts[idx := cnts[idx] + 1];
        }
      }
    }
  }

  lemma WithoutOne(m: seq<Node>, i: nat)
    requires i < |m|
    ensures multiset(m) == multiset(Without(m, i)) + multiset{m[i]}
  {
    assert m == m[..i] + [m[i]] + m[i + 1..];
  }

  lemma HandedOver(sent: seq<seq<Node>>, part: seq<Node>)
    ensures Flatten(sent + [part]) + [] == Flatten(sent) + part
  {
    FlattenSnoc(sent, part);
    assert Flatten(sent + [part]) + [] == Flatten(sent + [part]);
  }

  /** `g_notify_msg`: a fixed message buffer filled in place. */
  class Notifier {
    var msg: array<Node>
    var count: nat
    ghost var sent: seq<seq<Node>>

    ghost predicate Loaded()
      reads this
    {
      msg.Length == CONNECTS_PER_MSG && count <= CONNECTS_PER_MSG
    }

    /** Between two records the message has room. */
    ghost predicate Valid()
      reads this
    {
      Loaded() && count < CONNECTS_PER_MSG && Sized()
    }

    ghost predicate Sized()
      reads this
    {
      forall k :: 0 <= k < |sent| ==> 1 <= |sent[k]| <= CONNECTS_PER_MSG
    }

    /** Everything handed over so far, in order. */
    ghost function Through(): seq<Node>
      requires Loaded()
      reads this, msg
    {
      Flatten(sent) + msg[..count]
    }

    constructor (blank: Node)
      ensures Valid() && fresh(msg) && sent == [] && Through() == []
    {
      msg := new Node[CONNECTS_PER_MSG](_ => blank);
      count, sent := 0, [];
    }

    method SendConnects()
      requires Loaded() && Sized() && 1 <= count
      modifies this`count, this`sent
      ensures Valid() && count == 0
      ensures sent == old(sent) + [old(msg[..count])]
      ensures Through() == old(Through())
    {
      ghost var part := msg[..count];
      HandedOver(sent, part);
      sent := sent + [part];
      count := 0;
      assert msg[..0] == [];
    }

    method Append(n: Node)
      requires Valid()
      modifies this`count, this`sent, msg
      ensures Valid() && Through() == old(Through()) + [n]
    {
      ghost var before := msg[..count];
      msg[count] := n;
      count := count + 1;
      assert msg[..count] == before + [n];
      if count == CONNECTS_PER_MSG {
        SendConnects();
      }
    }

    /** Drain the map that the thread no longer uses: every node goes out once, in some order, and
        the map and its counter end at nothing. */
    method DrainMap(th: DataPath) returns (order: seq<Node>)
      requires Valid() && Shaped(th.Value())
      modifies this`count, this`sent, msg, th`maps, th`cnts
      ensures Valid() && Through() == old(Through()) + order
      ensures multiset(order) == multiset(old(th.maps)[1 - th.cur])
      ensures th.maps == old(th.maps)[1 - th.cur := []] && th.cnts == old(th.cnts)[1 - th.cur := 0]
    {
      var idx := 1 - th.cur;
      order := [];
      while th.maps[idx] != []
        invariant Valid() && |th.maps| == 2 && th.cnts == old(th.cnts)
        invariant th.maps[th.cur] == old(th.maps)[th.cur]
        invariant multiset(order) + multiset(th.maps[idx]) == multiset(old(th.maps)[idx])
        invariant Through() == old(Through()) + order
        decreases |th.maps[idx]|
      {
        var left := th.maps[idx];
        var i :| 0 <= i < |left|;
        Append(left[i]);
        order := order + [left[i]];
        WithoutOne(left, i);
        th.maps := th.maps[idx := Without(left, i)];
      }
      th.cnts := th.cnts[idx := 0];
      assert th.maps == old(th.maps)[idx := []];
    }

    /** One thread's turn, with no reporter at work on the map being left. */
    method VisitThread(th: DataPath) returns (order: seq<Node>)
      requires Valid() && Shaped(th.Value())
      requires th.cnts[th.cur] == |th.maps[th.cur]|
      modifies this`count, this`sent, msg, th`maps, th`cnts, th`cur
      ensures Valid() && Through() == old(Through()) + order
      ensures multiset(order) == multiset(old(th.maps[th.cur])) && Shaped(th.Value())
      ensures th.maps[old(th.cur)] == [] && th.cnts[old(th.cur)] == 0
      ensures th.cur == if old(th.maps[th.cur]) == [] then old(th.cur) else 1 - old(th.cur)
    {
      order := [];
      if th.cnts[th.cur] != 0 {
        th.cur := 1 - th.cur;
        order := DrainMap(th);
      }
    }
  }
}
