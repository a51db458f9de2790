/** The windowed rate limiter that admits new connection entries (dp/ctrl.c). */
module RateLimiter {
  import opened Basics

  const U32: nat := 0x1_0000_0000

  /** `dp_rate_limter_t`: a window of `dur` seconds that admits `limit` events. */
  datatype Window = Window(dur: nat, limit: nat, start: nat, cnt: nat, drops: nat, passes: nat)

  function Reset(dur: nat, limit: nat, now: nat): Window {
    Window(dur, limit, now, 0, 0, 0)
  }

  /** Subtraction and increment of unsigned 32-bit values. */
  function Minus(x: nat, y: nat): int {
    if x >= y then x - y else x - y + U32
  }

  function Next(x: nat): nat {
    if x + 1 == U32 then 0 else x + 1
  }

  predicate Expired(w: Window, now: nat) {
    Minus(now, w.start) > w.dur
  }

  function Opened(w: Window, now: nat): Window {
    if Expired(w, now) then w.(start := now, cnt := 0) else w
  }

  predicate Admits(w: Window, now: nat) {
    Next(Opened(w, now).cnt) <= w.limit
  }

  function Check(w: Window, now: nat): Window {
    var o := Opened(w, now);
    var counted := o.(cnt := Next(o.cnt));
    if Admits(w, now) then counted.(passes := Next(w.passes))
    else counted.(drops := Next(w.drops))
  }

  /** The limiter as the data path keeps it, updated in place. */
  class Limiter {
    var dur: nat
    var durCntLimit: nat
    var start: nat
    var cnt: nat
    var totalDrop: nat
    var totalPass: nat

    ghost function Value(): Window
      reads this
    {
      Window(dur, durCntLimit, start, cnt, totalDrop, totalPass)
    }

    constructor (dur: nat, limit: nat, now: nat)
      ensures Value() == Reset(dur, limit, now)
    {
      this.dur, this.durCntLimit, this.start := dur, limit, now;
      this.cnt, this.totalDrop, this.totalPass := 0, 0, 0;
    }

    method CheckNow(cur: nat) returns (ret: int)
      modifies this
      ensures Value() == Check(old(Value()), cur)
      ensures ret == if Admits(old(Value()), cur) then 0 else -1
    {
      if Minus(cur, start) > dur {
        start := cur;
        cnt := 0;
      }
      cnt := Next(cnt);
      if cnt > durCntLimit {
        totalDrop := Next(totalDrop);
        ret := -1;
      } else {
        totalPass := Next(totalPass);
        ret := 0;
      }
    }
  }

  /** The limiter after one check at each of the times `ts`. */
  function Run(w: Window, ts: seq<nat>): Window
    decreases |ts|
  {
    if ts == [] then w else Run(Check(w, ts[0]), ts[1..])
  }

  /** How many checks of that run are admitted. */
  function PassCount(w: Window, ts: seq<nat>): nat
    decreases |ts|
  {
    if ts == [] then 0
    else (if Admits(w, ts[0]) then 1 else 0) + PassCount(Check(w, ts[0]), ts[1..])
  }

  /** A clock that never goes back and stays in `[lo, hi]`. */
  predicate Clock(lo: nat, ts: seq<nat>, hi: nat) {
    && lo <= hi < U32
    && (forall i :: 0 <= i < |ts| ==> lo <= ts[i] <= hi)
    && (forall i, j :: 0 <= i < j < |ts| ==> ts[i] <= ts[j])
  }

  lemma ClockTail(lo: nat, ts: seq<nat>, hi: nat)
    requires Clock(lo, ts, hi) && ts != []
    ensures Clock(ts[0], ts[1..], hi) && Clock(lo, ts[1..], hi)
  {
  }

  /** One check at a time not before the window opened: no wrap-around. */
  lemma CheckFacts(w: Window, now: nat)
    requires w.start <= now < U32 && w.cnt + 1 < U32
    ensures Expired(w, now) <==> now > w.start + w.dur
    ensures var w' := Check(w, now);
            && w'.dur == w.dur && w'.limit == w.limit
            && (Expired(w, now) ==> w'.start == now && w'.cnt == 1)
            && (!Expired(w, now) ==> w'.start == w.start && w'.cnt == w.cnt + 1)
            && (Admits(w, now) <==> w'.cnt <= w.limit)
  {
  }

  function Room(w: Window): nat {
    if w.cnt <= w.limit then w.limit - w.cnt else 0
  }

  /** Both totals count every check exactly once while the 32-bit totals have not wrapped. */
  lemma {:induction false} TotalsCountEveryCheck(w: Window, ts: seq<nat>)
    requires w.passes + w.drops + |ts| < U32
    ensures Run(w, ts).passes == w.passes + PassCount(w, ts)
    ensures Run(w, ts).passes + Run(w, ts).drops == w.passes + w.drops + |ts|
    decreases |ts|
  {
    if ts != [] {
      TotalsCountEveryCheck(Check(w, ts[0]), ts[1..]);
    }
  }

  /** What `span` seconds of fresh windows may admit, one window at a time. */
  function Allowance(limit: nat, dur: nat, span: nat): nat {
    if span <= dur then 0 else limit + Allowance(limit, dur, span - dur - 1)
  }

  lemma {:induction false} AllowanceGrows(limit: nat, dur: nat, x: nat, y: nat)
    requires x <= y
    ensures Allowance(limit, dur, x) <= Allowance(limit, dur, y)
    decreases x
  {
    if x > dur {
      AllowanceGrows(limit, dur, x - dur - 1, y - dur - 1);
    }
  }

  lemma Distribute(limit: nat, q: nat, k: nat)
    ensures limit * (q + k) == limit * q + limit * k
  {
  }

  lemma {:induction false} AllowanceClosedForm(limit: nat, dur: nat, span: nat)
    ensures Allowance(limit, dur, span) == limit * (span / (dur + 1))
    decreases span
  {
    if span > dur {
      var less := span - dur - 1;
      AllowanceClosedForm(limit, dur, less);
      StepOver(less, dur + 1);
      Distribute(limit, less / (dur + 1), 1);
    }
  }

  /** From an open window on, every later window costs at least `dur + 1` seconds. */
  lemma {:induction false} OpenWindowBound(w: Window, ts: seq<nat>, b: nat)
    requires Clock(w.start, ts, b)
    requires w.cnt + |ts| < U32
    ensures PassCount(w, ts) <= Room(w) + Allowance(w.limit, w.dur, b - w.start)
    decreases |ts|
  {
    if ts != [] {
      CheckFacts(w, ts[0]);
      ClockTail(w.start, ts, b);
      OpenWindowBound(Check(w, ts[0]), ts[1..], b);
      if Expired(w, ts[0]) {
        AllowanceGrows(w.limit, w.dur, b - ts[0], b - w.start - w.dur - 1);
      }
    }
  }

  /** What further windows may admit once a check was made at the beginning of `span` seconds:
      the next one opens a second later at the earliest. */
  function Later(limit: nat, dur: nat, span: nat): nat {
    if span == 0 then 0 else limit + Allowance(limit, dur, span - 1)
  }

  lemma LaterIsMore(limit: nat, dur: nat, span: nat)
    ensures Allowance(limit, dur, span) <= Later(limit, dur, span)
  {
    if span > dur {
      AllowanceGrows(limit, dur, span - dur - 1, span - 1);
    }
  }

  /** The same, counting seconds only from `a`, when the window opened earlier is still open. */
  lemma {:induction false} StraddlingWindowBound(w: Window, ts: seq<nat>, a: nat, b: nat)
    requires w.start <= a <= w.start + w.dur && Clock(a, ts, b)
    requires w.cnt + |ts| < U32
    ensures PassCount(w, ts) <= Room(w) + Later(w.limit, w.dur, b - a)
    decreases |ts|
  {
    if ts != [] {
      CheckFacts(w, ts[0]);
      ClockTail(a, ts, b);
      if Expired(w, ts[0]) {
        OpenWindowBound(Check(w, ts[0]), ts[1..], b);
        AllowanceGrows(w.limit, w.dur, b - ts[0], b - a - 1);
      } else {
        StraddlingWindowBound(Check(w, ts[0]), ts[1..], a, b);
      }
    }
  }

  lemma RunOutBound(w: Window, ts: seq<nat>, b: nat)
    requires ts != [] && w.start + w.dur < ts[0] && Clock(ts[0], ts, b) && w.cnt + |ts| < U32
    ensures PassCount(w, ts) <= w.limit + Allowance(w.limit, w.dur, b - ts[0])
  {
    CheckFacts(w, ts[0]);
    ClockTail(ts[0], ts, b);
    OpenWindowBound(Check(w, ts[0]), ts[1..], b);
  }

  /** Whether or not the window has run out by then. */
  lemma WindowBound(w: Window, ts: seq<nat>, a: nat, b: nat)
    requires w.start <= a && Clock(a, ts, b) && w.cnt + |ts| < U32
    ensures PassCount(w, ts) <= w.limit + Later(w.limit, w.dur, b - a)
  {
    if a <= w.start + w.dur {
      StraddlingWindowBound(w, ts, a, b);
    } else if ts != [] {
      RunOutBound(w, ts, b);
      AllowanceGrows(w.limit, w.dur, b - ts[0], b - a);
      LaterIsMore(w.limit, w.dur, b - a);
    }
  }

  lemma {:induction false} RunKeepsWindow(w: Window, ts: seq<nat>, hi: nat)
    requires Clock(w.start, ts, hi) && w.cnt + |ts| < U32
    ensures Run(w, ts).dur == w.dur && Run(w, ts).limit == w.limit
    ensures Run(w, ts).start <= hi && Run(w, ts).cnt <= w.cnt + |ts|
    decreases |ts|
  {
    if ts != [] {
      CheckFacts(w, ts[0]);
      ClockTail(w.start, ts, hi);
      RunKeepsWindow(Check(w, ts[0]), ts[1..], hi);
    }
  }

  /** The most that `span` seconds can admit. */
  function MostAdmitted(dur: nat, limit: nat, span: nat): nat {
    limit * (1 + (span + dur) / (dur + 1))
  }

  lemma TwoMore(limit: nat, q: nat)
    ensures limit * (1 + (q + 1)) == limit * q + limit + limit
  {
    Distribute(limit, q, 2);
  }

  lemma CeilingIsFloor(dur: nat, span: nat)
    requires span > 0
    ensures (span + dur) / (dur + 1) == (span - 1) / (dur + 1) + 1
  {
    StepOver(span - 1, dur + 1);
    assert span - 1 + (dur + 1) == span + dur;
  }

  lemma LaterClosedForm(dur: nat, limit: nat, span: nat)
    ensures limit + Later(limit, dur, span) == MostAdmitted(dur, limit, span)
  {
    if span == 0 {
      assert dur / (dur + 1) == 0;
    } else {
      var q := (span - 1) / (dur + 1);
      AllowanceClosedForm(limit, dur, span - 1);
      CeilingIsFloor(dur, span);
      TwoMore(limit, q);
    }
  }

  /** Whatever was checked `before`, at most `MostAdmitted` of the checks made from time `a` to
      time `b` are admitted. */
  lemma RateBound(dur: nat, limit: nat, t0: nat, before: seq<nat>, during: seq<nat>, a: nat, b: nat)
    requires Clock(t0, before, a) && Clock(a, during, b)
    requires |before| + |during| < U32
    ensures PassCount(Run(Reset(dur, limit, t0), before), during) <= MostAdmitted(dur, limit, b - a)
  {
    var w := Run(Reset(dur, limit, t0), before);
    RunKeepsWindow(Reset(dur, limit, t0), before, a);
    WindowBound(w, during, a, b);
    LaterClosedForm(dur, limit, b - a);
  }

  lemma {:induction false} DivGrows(x: nat, y: nat, d: nat)
    requires d > 0 && x <= y
    ensures x / d <= y / d
    decreases x
  {
    if x >= d {
      DivGrows(x - d, y - d, d);
      StepOver(x - d, d);
      StepOver(y - d, d);
    } else {
      assert x / d == 0;
    }
  }

  /** In whole windows: the span's own, and two at its ends. */
  lemma MostInWindows(dur: nat, limit: nat, span: nat)
    ensures MostAdmitted(dur, limit, span) <= limit * (span / (dur + 1) + 2)
  {
    var n, m := (span + dur) / (dur + 1), span / (dur + 1);
    DivGrows(span + dur, span + (dur + 1), dur + 1);
    StepOver(span, dur + 1);
    Distribute(limit, 1 + n, m + 1 - n);
  }

  // -- A run that meets the bound, for every span

  function Repeat(t: nat, n: nat): seq<nat> {
    seq(n, _ => t)
  }

  lemma {:induction false} RepeatAllPass(w: Window, t: nat, n: nat)
    requires !Expired(w, t) && w.cnt + n <= w.limit < U32
    ensures PassCount(w, Repeat(t, n)) == n
    ensures Run(w, Repeat(t, n)).start == w.start
    ensures Run(w, Repeat(t, n)).limit == w.limit && Run(w, Repeat(t, n)).dur == w.dur
    decreases n
  {
    if n > 0 {
      assert Repeat(t, n)[1..] == Repeat(t, n - 1);
      RepeatAllPass(Check(w, t), t, n - 1);
    }
  }

  lemma FreshBurstPasses(w: Window, t: nat, limit: nat)
    requires Expired(w, t) && 1 <= limit == w.limit < U32
    ensures PassCount(w, Repeat(t, limit)) == limit
    ensures var v := Run(w, Repeat(t, limit)); v.start == t && v.limit == limit && v.dur == w.dur
  {
    assert Repeat(t, limit)[1..] == Repeat(t, limit - 1);
    RepeatAllPass(Check(w, t), t, limit - 1);
  }

  lemma {:induction false} PassSplits(w: Window, xs: seq<nat>, ys: seq<nat>)
    ensures PassCount(w, xs + ys) == PassCount(w, xs) + PassCount(Run(w, xs), ys)
    decreases |xs|
  {
    if xs == [] {
      assert xs + ys == ys;
    } else {
      assert (xs + ys)[1..] == xs[1..] + ys;
      PassSplits(Check(w, xs[0]), xs[1..], ys);
    }
  }

  /** A burst of `limit` checks at `t` and one every `dur + 1` seconds after it. */
  function Bursts(dur: nat, limit: nat, t: nat, span: nat): seq<nat>
    decreases span
  {
    Repeat(t, limit) + if span > dur then Bursts(dur, limit, t + dur + 1, span - dur - 1) else []
  }

  lemma {:induction false} BurstsPass(w: Window, t: nat, span: nat)
    requires Expired(w, t) && 1 <= w.limit < U32 && t + span < U32
    ensures PassCount(w, Bursts(w.dur, w.limit, t, span)) == w.limit + Allowance(w.limit, w.dur, span)
    decreases span
  {
    var burst := Repeat(t, w.limit);
    FreshBurstPasses(w, t, w.limit);
    if span > w.dur {
      var v, t' := Run(w, burst), t + w.dur + 1;
      assert Expired(v, t') by {
        assert t' - v.start == w.dur + 1;
      }
      BurstsPass(v, t', span - w.dur - 1);
      PassSplits(w, burst, Bursts(w.dur, w.limit, t', span - w.dur - 1));
    } else {
      assert burst + [] == burst;
    }
  }

  lemma {:induction false} BurstsClock(dur: nat, limit: nat, t: nat, span: nat)
    requires t + span < U32
    ensures Clock(t, Bursts(dur, limit, t, span), t + span)
    decreases span
  {
    if span > dur {
      BurstsClock(dur, limit, t + dur + 1, span - dur - 1);
    }
  }

  lemma ClockJoin(lo: nat, xs: seq<nat>, mid: nat, ys: seq<nat>, hi: nat)
    requires Clock(lo, xs, mid) && Clock(mid, ys, hi)
    ensures Clock(lo, xs + ys, hi)
  {
  }

  /** Bursts from the last second of the window opened at 0. */
  function LastSecond(dur: nat, limit: nat, span: nat): seq<nat> {
    Repeat(dur, limit) + if span > 0 then Bursts(dur, limit, dur + 1, span - 1) else []
  }

  lemma LastSecondClock(dur: nat, limit: nat, span: nat)
    requires dur + span < U32
    ensures Clock(dur, LastSecond(dur, limit, span), dur + span)
  {
    if span > 0 {
      BurstsClock(dur, limit, dur + 1, span - 1);
      ClockJoin(dur, Repeat(dur, limit), dur + 1, Bursts(dur, limit, dur + 1, span - 1), dur + span);
    }
  }

  lemma FirstBurst(dur: nat, limit: nat)
    requires dur + 1 < U32 && limit < U32
    ensures PassCount(Reset(dur, limit, 0), Repeat(dur, limit)) == limit
    ensures var v := Run(Reset(dur, limit, 0), Repeat(dur, limit));
            Expired(v, dur + 1) && v.dur == dur && v.limit == limit
  {
    RepeatAllPass(Reset(dur, limit, 0), dur, limit);
  }

  lemma LastSecondPasses(dur: nat, limit: nat, span: nat)
    requires dur + span < U32 && 1 <= limit < U32
    ensures PassCount(Reset(dur, limit, 0), LastSecond(dur, limit, span)) == limit + Later(limit, dur, span)
  {
    var w, first := Reset(dur, limit, 0), Repeat(dur, limit);
    if span == 0 {
      assert first + [] == first;
      RepeatAllPass(w, dur, limit);
    } else {
      FirstBurst(dur, limit);
      BurstsPass(Run(w, first), dur + 1, span - 1);
      PassSplits(w, first, Bursts(dur, limit, dur + 1, span - 1));
    }
  }

  /** The bound cannot be lowered for any span: a burst in the last second of a window, one in
      the second after it, and one in each window that follows. */
  lemma RateBoundIsMet(dur: nat, limit: nat, span: nat) returns (during: seq<nat>)
    requires dur + span < U32 && limit < U32
    ensures Clock(dur, during, dur + span)
    ensures PassCount(Reset(dur, limit, 0), during) == MostAdmitted(dur, limit, span)
  {
    if limit == 0 {
      during := [];
    } else {
      during := LastSecond(dur, limit, span);
      LastSecondClock(dur, limit, span);
      LastSecondPasses(dur, limit, span);
      LaterClosedForm(dur, limit, span);
    }
  }

  // -- From a reset on

  lemma {:induction false} RepeatPasses(w: Window, t: nat, n: nat)
    requires !Expired(w, t) && w.cnt + n < U32
    ensures PassCount(w, Repeat(t, n)) == Least(n, Room(w))
    ensures var v := Run(w, Repeat(t, n)); v.start == w.start && v.limit == w.limit && v.dur == w.dur
    decreases n
  {
    if n > 0 {
      assert Repeat(t, n)[1..] == Repeat(t, n - 1);
      RepeatPasses(Check(w, t), t, n - 1);
    }
  }

  lemma FreshRepeatPasses(w: Window, t: nat, n: nat)
    requires Expired(w, t) && n < U32
    ensures PassCount(w, Repeat(t, n)) == Least(n, w.limit)
  {
    if n > 0 {
      assert Repeat(t, n)[1..] == Repeat(t, n - 1);
      RepeatPasses(Check(w, t), t, n - 1);
    }
  }

  /** A limiter reset at `now` admits up to `limit` of the checks made at any one time until
      `now + dur`, and up to `limit` more a second later. */
  lemma FirstWindows(dur: nat, limit: nat, now: nat, t: nat, n: nat, m: nat)
    requires now <= t <= now + dur && now + dur + 1 < U32 && n < U32 && m < U32
    ensures PassCount(Reset(dur, limit, now), Repeat(t, n)) == Least(n, limit)
    ensures PassCount(Reset(dur, limit, now), Repeat(t, n) + Repeat(now + dur + 1, m)) == Least(n, limit) + Least(m, limit)
  {
    var w := Reset(dur, limit, now);
    RepeatPasses(w, t, n);
    FreshRepeatPasses(Run(w, Repeat(t, n)), now + dur + 1, m);
    PassSplits(w, Repeat(t, n), Repeat(now + dur + 1, m));
  }
}
