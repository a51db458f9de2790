/** The threat-log ring between one data-path thread (producer) and the control
    thread (consumer), dp/ctrl.c.  The producer fills the slot at `writer` and then
    publishes it; the consumer moves `reader` first and copies the slot afterwards. */
module ThreatRing {
  import opened Rings

  const MAX_LOG_ENTRIES: nat := 128

  function Next(i: nat): nat {
    (i + 1) % MAX_LOG_ENTRIES
  }

  /** Where the producer stands inside `dp_ctrl_threat_log`. */
  datatype Producer<T> = Outside | Writing(log: T) | Written(log: T)

  /** Where the consumer stands inside `dp_ctrl_consume_threat_log`. */
  datatype Consumer = Idle | Advancing | Reading

  /** `accepted` and `delivered` are history: logs published and logs handed to the controller. */
  datatype State<T> = State(
    ring: seq<T>, reader: nat, writer: nat,
    prod: Producer<T>, cons: Consumer,
    accepted: seq<T>, delivered: seq<T>)

  /** One atomic access to shared memory.  `Scribble` is a partial copy: memcpy may
      leave anything in the slot until the last byte is in. */
  datatype Event<T> = Admit(log: T) | Scribble(junk: T) | Copy | Publish | Peek | Advance | Read

  predicate Full<T>(s: State<T>) {
    s.writer == s.reader
  }

  predicate Drained<T>(s: State<T>) {
    Next(s.reader) == s.writer
  }

  predicate InRange<T>(s: State<T>) {
    |s.ring| == MAX_LOG_ENTRIES && s.reader < MAX_LOG_ENTRIES && s.writer < MAX_LOG_ENTRIES
  }

  predicate Enabled<T>(s: State<T>, e: Event<T>) {
    match e
    case Admit(_) => s.prod.Outside?
    case Scribble(_) => s.prod.Writing?
    case Copy => s.prod.Writing?
    case Publish => s.prod.Written?
    case Peek => s.cons == Idle
    case Advance => s.cons == Advancing
    case Read => s.cons == Reading
  }

  /** Both full/empty tests read the other side's index once and then act on that value. */
  function Step<T>(s: State<T>, e: Event<T>): State<T>
    requires InRange(s) && Enabled(s, e)
  {
    match e
    case Admit(log) => if Full(s) then s else s.(prod := Writing(log))
    case Scribble(junk) => s.(ring := s.ring[s.writer := junk])
    case Copy => s.(ring := s.ring[s.writer := s.prod.log], prod := Written(s.prod.log))
    case Publish => s.(writer := Next(s.writer), prod := Outside, accepted := s.accepted + [s.prod.log])
    case Peek => if Drained(s) then s else s.(cons := Advancing)
    case Advance => s.(reader := Next(s.reader), cons := Reading)
    case Read => s.(cons := Idle, delivered := s.delivered + [s.ring[s.reader]])
  }

  predicate Init<T>(s: State<T>) {
    && |s.ring| == MAX_LOG_ENTRIES && s.reader == MAX_LOG_ENTRIES - 1 && s.writer == 0
    && s.prod.Outside? && s.cons == Idle && s.accepted == [] && s.delivered == []
  }

  /** How many logs the consumer has claimed by moving `reader`. */
  function Claimed<T>(s: State<T>): nat {
    |s.delivered| + if s.cons == Reading then 1 else 0
  }

  ghost predicate Inv<T>(s: State<T>) {
    var r, w := Claimed(s), |s.accepted|;
    && InRange(s)
    && r <= w < r + MAX_LOG_ENTRIES
    && s.writer == Slot(w, MAX_LOG_ENTRIES) && s.reader == Slot(r + MAX_LOG_ENTRIES - 1, MAX_LOG_ENTRIES)
    && s.delivered == s.accepted[..|s.delivered|]
    && (forall k :: |s.delivered| <= k < w ==> s.ring[Slot(k, MAX_LOG_ENTRIES)] == s.accepted[k])
    && (!s.prod.Outside? ==> w < r + MAX_LOG_ENTRIES - 1)
    && (s.prod.Written? ==> s.ring[s.writer] == s.prod.log)
    && (s.cons == Advancing ==> r < w)
  }

  /** The slot being written holds no unread log and is not the one being read. */
  lemma WriterOwnsSlot<T>(s: State<T>, k: nat)
    requires Inv(s) && !s.prod.Outside?
    requires |s.delivered| <= k < |s.accepted|
    ensures s.writer != Slot(k, MAX_LOG_ENTRIES)
    ensures s.cons == Reading ==> s.writer != s.reader
  {
    SlotsDistinct(k, |s.accepted|, MAX_LOG_ENTRIES);
    if s.cons == Reading {
      SlotsDistinct(|s.delivered|, |s.accepted|, MAX_LOG_ENTRIES);
    }
  }

  lemma ProducerKeepsInv<T>(s: State<T>, e: Event<T>)
    requires Inv(s) && Enabled(s, e) && (e.Scribble? || e.Copy?)
    ensures Inv(Step(s, e))
  {
    var s' := Step(s, e);
    forall k | |s.delivered| <= k < |s.accepted|
      ensures s'.ring[Slot(k, MAX_LOG_ENTRIES)] == s.accepted[k]
    {
      WriterOwnsSlot(s, k);
    }
  }

  lemma AdmitKeepsInv<T>(s: State<T>, e: Event<T>)
    requires Inv(s) && Enabled(s, e) && e.Admit?
    ensures Inv(Step(s, e))
  {
  }

  lemma PublishKeepsInv<T>(s: State<T>)
    requires Inv(s) && s.prod.Written?
    ensures Inv(Step(s, Publish))
  {
    NextSlot(|s.accepted|, MAX_LOG_ENTRIES);
  }

  /** The consumer's test is exact: drained means no unclaimed log. */
  lemma DrainedIsExact<T>(s: State<T>)
    requires Inv(s)
    ensures Drained(s) <==> |s.accepted| == Claimed(s)
  {
    NextSlot(Claimed(s) + MAX_LOG_ENTRIES - 1, MAX_LOG_ENTRIES);
    assert Slot(Claimed(s) + MAX_LOG_ENTRIES, MAX_LOG_ENTRIES) == Slot(Claimed(s), MAX_LOG_ENTRIES);
    if Claimed(s) < |s.accepted| {
      SlotsDistinct(Claimed(s), |s.accepted|, MAX_LOG_ENTRIES);
    }
  }

  lemma PeekKeepsInv<T>(s: State<T>)
    requires Inv(s) && Enabled(s, Peek)
    ensures Inv(Step(s, Peek))
  {
    DrainedIsExact(s);
  }

  lemma AdvanceKeepsInv<T>(s: State<T>)
    requires Inv(s) && Enabled(s, Advance)
    ensures Inv(Step(s, Advance))
  {
    NextSlot(Claimed(s) + MAX_LOG_ENTRIES - 1, MAX_LOG_ENTRIES);
  }

  lemma ReadKeepsInv<T>(s: State<T>)
    requires Inv(s) && Enabled(s, Read)
    ensures Inv(Step(s, Read))
  {
    assert Slot(|s.delivered| + MAX_LOG_ENTRIES, MAX_LOG_ENTRIES) == Slot(|s.delivered|, MAX_LOG_ENTRIES);
  }

  lemma StepKeepsInv<T>(s: State<T>, e: Event<T>)
    requires Inv(s) && Enabled(s, e)
    ensures Inv(Step(s, e))
  {
    match e
    case Admit(_) => AdmitKeepsInv(s, e);
    case Scribble(_) => ProducerKeepsInv(s, e);
    case Copy => ProducerKeepsInv(s, e);
    case Publish => PublishKeepsInv(s);
    case Peek => PeekKeepsInv(s);
    case Advance => AdvanceKeepsInv(s);
    case Read => ReadKeepsInv(s);
  }

  /** A run: every event is enabled when it happens. */
  ghost predicate IsRun<T>(s: State<T>, es: seq<Event<T>>, s': State<T>)
    decreases |es|
  {
    if es == [] then s' == s
    else InRange(s) && Enabled(s, es[0]) && IsRun(Step(s, es[0]), es[1..], s')
  }

  lemma {:induction false} RunKeepsInv<T>(s: State<T>, es: seq<Event<T>>, s': State<T>)
    requires Inv(s) && IsRun(s, es, s')
    ensures Inv(s')
    decreases |es|
  {
    if es != [] {
      StepKeepsInv(s, es[0]);
      RunKeepsInv(Step(s, es[0]), es[1..], s');
    }
  }

  /** The producer's test is exact: full means `MAX_LOG_ENTRIES - 1` unclaimed logs. */
  lemma FullIsExact<T>(s: State<T>)
    requires Inv(s)
    ensures Full(s) <==> |s.accepted| - Claimed(s) == MAX_LOG_ENTRIES - 1
  {
    if |s.accepted| < Claimed(s) + MAX_LOG_ENTRIES - 1 {
      SlotsDistinct(|s.accepted|, Claimed(s) + MAX_LOG_ENTRIES - 1, MAX_LOG_ENTRIES);
    }
  }

  /** For every interleaving: what was delivered is what was accepted, in order, without loss
      or repeat; at most `MAX_LOG_ENTRIES - 1` logs are outstanding; writer and reader never
      share a slot; and the full and empty tests are exact. */
  lemma EveryRunDelivers<T>(s0: State<T>, es: seq<Event<T>>, s: State<T>)
    requires Init(s0) && IsRun(s0, es, s)
    ensures InRange(s)
    ensures s.delivered <= s.accepted
    ensures |s.accepted| - |s.delivered| <= MAX_LOG_ENTRIES
    ensures s.cons != Reading ==> |s.accepted| - |s.delivered| <= MAX_LOG_ENTRIES - 1
    ensures !s.prod.Outside? && s.cons == Reading ==> s.writer != s.reader
    ensures s.cons == Idle ==> (Drained(s) <==> s.delivered == s.accepted)
    ensures Full(s) <==> |s.accepted| - Claimed(s) == MAX_LOG_ENTRIES - 1
  {
    RunKeepsInv(s0, es, s);
    FullIsExact(s);
    DrainedIsExact(s);
    if !s.prod.Outside? && s.cons == Reading {
      WriterOwnsSlot(s, |s.delivered|);
    }
  }

  /** While the consumer is copying a slot, no step of the producer changes it. */
  lemma ReadIsStable<T>(s: State<T>, e: Event<T>)
    requires Inv(s) && s.cons == Reading && Enabled(s, e) && !e.Read?
    ensures Step(s, e).cons == Reading && Step(s, e).reader == s.reader
    ensures Step(s, e).ring[s.reader] == s.ring[s.reader] == s.accepted[|s.delivered|]
  {
    if e.Scribble? || e.Copy? {
      WriterOwnsSlot(s, |s.delivered|);
    }
  }

  lemma RunOfThree<T>(s: State<T>, a: Event<T>, b: Event<T>, c: Event<T>)
    requires InRange(s) && Enabled(s, a)
    requires InRange(Step(s, a)) && Enabled(Step(s, a), b)
    requires InRange(Step(Step(s, a), b)) && Enabled(Step(Step(s, a), b), c)
    ensures IsRun(s, [a, b, c], Step(Step(Step(s, a), b), c))
  {
    assert [a, b, c][1..] == [b, c];
    assert [b, c][1..] == [c];
    var s' := Step(Step(Step(s, a), b), c);
    assert IsRun(s', [], s');
    assert [c][1..] == [];
    assert IsRun(Step(Step(s, a), b), [c], s');
    assert IsRun(Step(s, a), [b, c], s');
  }

  /** An uninterrupted `dp_ctrl_threat_log` that finds room. */
  function Logged<T>(s: State<T>, log: T): State<T>
    requires InRange(s)
  {
    s.(ring := s.ring[s.writer := log], writer := Next(s.writer), accepted := s.accepted + [log])
  }

  lemma LoggedIsRun<T>(s: State<T>, log: T)
    requires Inv(s) && s.prod.Outside? && !Full(s)
    ensures Inv(Logged(s, log))
    ensures IsRun(s, [Admit(log), Copy, Publish], Logged(s, log))
  {
    StepKeepsInv(s, Admit(log));
    var s1 := Step(s, Admit(log));
    StepKeepsInv(s1, Copy);
    var s2 := Step(s1, Copy);
    StepKeepsInv(s2, Publish);
    RunOfThree(s, Admit(log), Copy, Publish);
  }

  /** One uninterrupted turn of the drain loop. */
  function Consumed<T>(s: State<T>): State<T>
    requires InRange(s)
  {
    s.(reader := Next(s.reader), delivered := s.delivered + [s.ring[Next(s.reader)]])
  }

  lemma ConsumedIsRun<T>(s: State<T>)
    requires Inv(s) && s.cons == Idle && !Drained(s)
    ensures Inv(Consumed(s)) && |s.delivered| < |s.accepted|
    ensures IsRun(s, [Peek, Advance, Read], Consumed(s))
  {
    DrainedIsExact(s);
    StepKeepsInv(s, Peek);
    StepKeepsInv(Step(s, Peek), Advance);
    StepKeepsInv(Step(Step(s, Peek), Advance), Read);
    RunOfThree(s, Peek, Advance, Read);
  }

  /** The shared memory of one data-path thread, and the two routines as written. */
  class ThreadData<T> {
    var logRing: array<T>
    var logReader: nat
    var logWriter: nat
    ghost var accepted: seq<T>
    ghost var delivered: seq<T>

    /** The machine state when neither side is inside its routine. */
    ghost function Value(): State<T>
      reads this, logRing
    {
      State(logRing[..], logReader, logWriter, Outside, Idle, accepted, delivered)
    }

    ghost predicate Valid()
      reads this, logRing
    {
      Inv(Value())
    }

    constructor (blank: T)
      ensures Valid() && Init(Value()) && fresh(logRing)
    {
      logRing := new T[MAX_LOG_ENTRIES](_ => blank);
      logReader, logWriter := MAX_LOG_ENTRIES - 1, 0;
      accepted, delivered := [], [];
    }

    /** Refused exactly when `MAX_LOG_ENTRIES - 1` logs wait; otherwise the steps of the machine. */
    method ThreatLog(log: T) returns (ret: int)
      requires Valid()
      modifies this, logRing
      ensures Valid() && logRing == old(logRing) && delivered == old(delivered)
      ensures ret == -1 <==> |old(accepted)| - |delivered| == MAX_LOG_ENTRIES - 1
      ensures ret == -1 ==> Value() == old(Value())
      ensures ret != -1 ==> ret == 0 && accepted == old(accepted) + [log]
      ensures ret != -1 ==> IsRun(old(Value()), [Admit(log), Copy, Publish], Value())
    {
      FullIsExact(Value());
      if logWriter == logReader {
        return -1;
      }
      LoggedIsRun(Value(), log);
      ghost var after := Logged(Value(), log);
      logRing[logWriter] := log;
      var next := (logWriter + 1) % MAX_LOG_ENTRIES;
      logWriter := next;
      accepted := accepted + [log];
      assert logRing[..] == after.ring;
      return 0;
    }

    /** With no producer at work the drain loop ends with everything delivered. */
    method ConsumeThreatLog() returns (out: seq<T>)
      requires Valid()
      modifies this
      ensures Valid() && logRing == old(logRing) && logRing[..] == old(logRing[..])
      ensures accepted == old(accepted) && logWriter == old(logWriter)
      ensures old(delivered) + out == accepted && delivered == accepted
    {
      out := [];
      while true
        invariant Valid() && logRing == old(logRing) && logRing[..] == old(logRing[..])
        invariant accepted == old(accepted) && logWriter == old(logWriter)
        invariant delivered == old(delivered) + out
        decreases |accepted| - |delivered|
      {
        var next := (logReader + 1) % MAX_LOG_ENTRIES;
        if next == logWriter {
          DrainedIsExact(Value());
          break;
        }
        ConsumedIsRun(Value());
        ghost var after := Consumed(Value());
        logReader := next;
        out := out + [logRing[logReader]];
        delivered := delivered + [logRing[logReader]];
        assert Value() == after;
      }
    }
  }
}
