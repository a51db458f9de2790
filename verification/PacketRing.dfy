/** The packet ring shared with the kernel (dp/ring.c): who owns a slot is told by its status
    word.  The kernel is an environment that takes steps of its own at any time. */
module PacketRing {
  import opened Basics
  import opened Rings
  import RingMask

  const MAX_TSO_SIZE: nat := 65536
  const DEFAULT_PENDING_LIMIT: nat := 16

  // -- Receiving

  /** `len` on the wire, `snap` bytes in the slot; `copied` when the kernel also queued the
      whole packet on the socket because it did not fit the slot. */
  datatype Frame<T> = Frame(data: T, len: nat, snap: nat, copied: bool)

  datatype RxSlot<T> = Kernel | User(frame: Frame<T>)

  predicate Intact<T>(f: Frame<T>) {
    f.len == f.snap
  }

  predicate Spilled<T>(f: Frame<T>) {
    !Intact(f) && f.copied
  }

  predicate Deliverable<T>(f: Frame<T>) {
    Intact(f) || (Spilled(f) && f.len <= MAX_TSO_SIZE)
  }

  /** `sock` is the socket queue of whole packets.  `busy`: the slot at `pos` was handed to the
      packet inspection and is not yet given back.  History: `accepted` are the frames the
      kernel put into the ring, `released` counts slots given back. */
  datatype Rx<T> = Rx(slots: seq<RxSlot<T>>, head: nat, pos: nat, sock: seq<Frame<T>>, busy: bool,
                      accepted: seq<Frame<T>>, released: nat, delivered: seq<Frame<T>>)

  datatype RxEvent<T> = Arrive(frame: Frame<T>) | Consume | Release

  predicate RxShaped<T>(s: Rx<T>) {
    s.head < |s.slots| && s.pos < |s.slots|
  }

  predicate RxEnabled<T>(s: Rx<T>, e: RxEvent<T>) {
    && RxShaped(s)
    && match e
       case Arrive(_) => true
       case Consume => !s.busy && s.slots[s.pos].User? && (Spilled(s.slots[s.pos].frame) ==> s.sock != [])
       case Release => s.busy
  }

  function Wrap(i: nat, n: nat): nat {
    if i + 1 == n then 0 else i + 1
  }

  function RxStep<T>(s: Rx<T>, e: RxEvent<T>): Rx<T>
    requires RxEnabled(s, e)
  {
    match e
    case Arrive(f) =>
      if s.slots[s.head].User? then s
      else s.(slots := s.slots[s.head := User(f)], head := Wrap(s.head, |s.slots|), accepted := s.accepted + [f],
              sock := if Spilled(f) then s.sock + [f] else s.sock)
    case Consume =>
      var f := s.slots[s.pos].frame;
      if Intact(f) then s.(busy := true, delivered := s.delivered + [f])
      else if f.copied then
        // the socket is read to keep it in step, even when the packet is then discarded
        s.(busy := true, sock := s.sock[1..],
           delivered := if f.len <= MAX_TSO_SIZE then s.delivered + [s.sock[0]] else s.delivered)
      else s.(busy := true)
    case Release =>
      s.(busy := false, slots := s.slots[s.pos := Kernel], pos := Wrap(s.pos, |s.slots|), released := s.released + 1)
  }

  function Delivered<T>(fs: seq<Frame<T>>): seq<Frame<T>> {
    if fs == [] then []
    else Delivered(fs[..|fs| - 1]) + if Deliverable(fs[|fs| - 1]) then [fs[|fs| - 1]] else []
  }

  /** The frames of `fs` whose whole packet waits on the socket. */
  function Spills<T>(fs: seq<Frame<T>>): seq<Frame<T>> {
    if fs == [] then [] else (if Spilled(fs[0]) then [fs[0]] else []) + Spills(fs[1..])
  }

  /** Frames that the packet inspection is done with. */
  function Done<T>(s: Rx<T>): nat {
    s.released + if s.busy then 1 else 0
  }

  /** The slot of the k-th frame, for the `n` frames from the first unreleased one on. */
  ghost predicate SlotAt<T>(s: Rx<T>, k: nat)
    requires |s.slots| > 0
  {
    s.slots[Slot(k, |s.slots|)] == if k < |s.accepted| then User(s.accepted[k]) else Kernel
  }

  ghost predicate Owned<T>(s: Rx<T>) {
    && RxShaped(s)
    && s.released <= |s.accepted| <= s.released + |s.slots|
    && s.pos == Slot(s.released, |s.slots|) && s.head == Slot(|s.accepted|, |s.slots|)
    && (forall k :: s.released <= k < s.released + |s.slots| ==> SlotAt(s, k))
  }

  ghost predicate Traced<T>(s: Rx<T>) {
    && Done(s) <= |s.accepted|
    && s.sock == Spills(s.accepted[Done(s)..])
    && s.delivered == Delivered(s.accepted[..Done(s)])
  }

  ghost predicate RxInv<T>(s: Rx<T>) {
    Owned(s) && Traced(s)
  }

  lemma {:induction false} SpillsSnoc<T>(fs: seq<Frame<T>>, f: Frame<T>)
    ensures Spills(fs + [f]) == Spills(fs) + if Spilled(f) then [f] else []
    decreases |fs|
  {
    var b := if Spilled(f) then [f] else [];
    if fs == [] {
      assert fs + [f] == [f] && [f][1..] == [];
      assert Spills([f]) == b + [];
    } else {
      assert (fs + [f])[1..] == fs[1..] + [f];
      SpillsSnoc(fs[1..], f);
      var a := if Spilled(fs[0]) then [fs[0]] else [];
      assert a + (Spills(fs[1..]) + b) == (a + Spills(fs[1..])) + b;
    }
  }

  lemma DeliveredSnoc<T>(fs: seq<Frame<T>>, f: Frame<T>)
    ensures Delivered(fs + [f]) == Delivered(fs) + if Deliverable(f) then [f] else []
  {
    assert (fs + [f])[..|fs|] == fs;
  }

  /** Inspected are the frames that came whole, or whole by the socket and not too long for it. */
  lemma {:induction false} DeliveredMeans<T>(fs: seq<Frame<T>>, f: Frame<T>)
    ensures f in Delivered(fs) <==> f in fs && (f.len == f.snap || (f.copied && f.len <= 65536))
    ensures multiset(Delivered(fs))[f] == if f.len == f.snap || (f.copied && f.len <= 65536) then multiset(fs)[f] else 0
  {
    if fs != [] {
      var init, last := fs[..|fs| - 1], fs[|fs| - 1];
      DeliveredMeans(init, f);
      assert fs == init + [last];
    }
  }

  /** The slot at the kernel's head is free exactly when the ring is not full. */
  lemma HeadIsFree<T>(s: Rx<T>)
    requires Owned(s)
    ensures s.slots[s.head].Kernel? <==> |s.accepted| < s.released + |s.slots|
  {
    var n := |s.slots|;
    if |s.accepted| == s.released + n {
      assert Slot(s.released + n, n) == Slot(s.released, n);
      assert SlotAt(s, s.released);
    } else {
      assert SlotAt(s, |s.accepted|);
    }
  }

  /** The status test is exact: the slot is the user's exactly when a frame waits. */
  lemma PosHasFrame<T>(s: Rx<T>)
    requires Owned(s)
    ensures s.slots[s.pos].User? <==> s.released < |s.accepted|
    ensures s.released < |s.accepted| ==> s.slots[s.pos] == User(s.accepted[s.released])
  {
    assert SlotAt(s, s.released);
  }

  lemma ArriveOwns<T>(s: Rx<T>, f: Frame<T>)
    requires Owned(s)
    ensures Owned(RxStep(s, Arrive(f)))
  {
    var s' := RxStep(s, Arrive(f));
    if s.slots[s.head].Kernel? {
      HeadIsFree(s);
      var n, a := |s.slots|, |s.accepted|;
      NextSlot(a, n);
      forall k | s.released <= k < s.released + n
        ensures SlotAt(s', k)
      {
        assert SlotAt(s, k);
        if k < a {
          SlotsDistinct(k, a, n);
        } else if k > a {
          SlotsDistinct(a, k, n);
        }
      }
    }
  }

  lemma ArriveTraces<T>(s: Rx<T>, f: Frame<T>)
    requires RxShaped(s) && Traced(s)
    ensures Traced(RxStep(s, Arrive(f)))
  {
    var d, acc := Done(s), s.accepted + [f];
    assert acc[d..] == s.accepted[d..] + [f];
    assert acc[..d] == s.accepted[..d];
    SpillsSnoc(s.accepted[d..], f);
  }

  /** When a spilled frame is consumed, the socket's next packet is that very frame. */
  lemma SocketInStep<T>(s: Rx<T>)
    requires RxInv(s) && !s.busy && s.slots[s.pos].User?
    ensures Spilled(s.slots[s.pos].frame) ==> s.sock != [] && s.sock[0] == s.slots[s.pos].frame
  {
    PosHasFrame(s);
    assert s.accepted[s.released..][0] == s.accepted[s.released];
  }

  lemma ConsumeOwns<T>(s: Rx<T>)
    requires Owned(s) && RxEnabled(s, Consume)
    ensures Owned(RxStep(s, Consume))
  {
    forall k | s.released <= k < s.released + |s.slots|
      ensures SlotAt(RxStep(s, Consume), k)
    {
      assert SlotAt(s, k);
    }
  }

  lemma TakeOne<T>(fs: seq<Frame<T>>, r: nat)
    requires r < |fs|
    ensures fs[r..] == [fs[r]] + fs[r + 1..]
    ensures Delivered(fs[..r + 1]) == Delivered(fs[..r]) + if Deliverable(fs[r]) then [fs[r]] else []
    ensures Spills(fs[r..]) == (if Spilled(fs[r]) then [fs[r]] else []) + Spills(fs[r + 1..])
  {
    assert fs[..r + 1] == fs[..r] + [fs[r]];
    DeliveredSnoc(fs[..r], fs[r]);
    assert fs[r..][1..] == fs[r + 1..];
  }

  lemma ConsumeTraces<T>(s: Rx<T>)
    requires Traced(s) && RxEnabled(s, Consume) && s.released < |s.accepted|
    requires s.slots[s.pos] == User(s.accepted[s.released])
    ensures Traced(RxStep(s, Consume))
  {
    TakeOne(s.accepted, s.released);
  }

  lemma ConsumeKeepsInv<T>(s: Rx<T>)
    requires RxInv(s) && RxEnabled(s, Consume)
    ensures RxInv(RxStep(s, Consume))
  {
    PosHasFrame(s);
    ConsumeOwns(s);
    ConsumeTraces(s);
  }

  lemma ReleaseOwns<T>(s: Rx<T>)
    requires Owned(s) && s.released < |s.accepted| && s.busy
    ensures Owned(RxStep(s, Release))
  {
    var n, r := |s.slots|, s.released;
    var s' := RxStep(s, Release);
    NextSlot(r, n);
    assert Slot(r + n, n) == Slot(r, n);
    forall k | r + 1 <= k < r + 1 + n
      ensures SlotAt(s', k)
    {
      if k < r + n {
        assert SlotAt(s, k);
        SlotsDistinct(r, k, n);
      }
    }
  }

  lemma RxStepKeepsInv<T>(s: Rx<T>, e: RxEvent<T>)
    requires RxInv(s) && RxEnabled(s, e)
    ensures RxInv(RxStep(s, e))
  {
    match e {
      case Arrive(f) =>
        ArriveOwns(s, f);
        ArriveTraces(s, f);
      case Consume => ConsumeKeepsInv(s);
      case Release => ReleaseOwns(s);
    }
  }

  ghost predicate IsRxRun<T>(s: Rx<T>, es: seq<RxEvent<T>>, s': Rx<T>)
    decreases |es|
  {
    if es == [] then s' == s
    else RxEnabled(s, es[0]) && IsRxRun(RxStep(s, es[0]), es[1..], s')
  }

  lemma {:induction false} RxRunKeepsInv<T>(s: Rx<T>, es: seq<RxEvent<T>>, s': Rx<T>)
    requires RxInv(s) && IsRxRun(s, es, s')
    ensures RxInv(s')
    decreases |es|
  {
    if es != [] {
      RxStepKeepsInv(s, es[0]);
      RxRunKeepsInv(RxStep(s, es[0]), es[1..], s');
    }
  }

  predicate RxInit<T>(s: Rx<T>) {
    && s.slots != [] && (forall i :: 0 <= i < |s.slots| ==> s.slots[i] == Kernel)
    && s.head == 0 && s.pos == 0 && s.sock == [] && !s.busy
    && s.accepted == [] && s.released == 0 && s.delivered == []
  }

  /** In every interleaving with the kernel: the frames delivered are exactly the deliverable
      ones among those taken from the ring, whole, once, in order of arrival; whole packets on
      the socket stay in step with the ring; and a slot is found empty only when nothing waits. */
  lemma EveryFrameOnce<T>(s0: Rx<T>, es: seq<RxEvent<T>>, s: Rx<T>)
    requires RxInit(s0) && IsRxRun(s0, es, s)
    ensures RxShaped(s) && Done(s) <= |s.accepted| <= s.released + |s.slots|
    ensures s.delivered == Delivered(s.accepted[..Done(s)])
    ensures s.sock == Spills(s.accepted[Done(s)..])
    ensures s.slots[s.pos].Kernel? <==> s.released == |s.accepted|
  {
    RxRunKeepsInv(s0, es, s);
    PosHasFrame(s);
  }

  // -- Sending

  /** `Available` stands for any status with neither the request nor the sending bit. */
  datatype TxSlot<T> = Available | Request(pkt: T) | Sending

  /** History: `accepted` are the packets put into the ring, `wire` those the kernel took up. */
  datatype Tx<T> = Tx(slots: seq<TxSlot<T>>, kpos: nat, pos: nat, pending: nat, tx: nat, drops: nat,
                      accepted: seq<T>, wire: seq<T>)

  datatype TxEvent<T> = Push(pkt: T) | Flush | KTake | KDone(i: nat)

  /** `dp_tx_flush`: a kick when at least `limit` packets are pending. */
  function Flushed<T>(s: Tx<T>, limit: nat): Tx<T> {
    if s.pending >= limit && s.pending > 0 then s.(tx := s.tx + s.pending, pending := 0) else s
  }

  predicate TxEnabled<T>(s: Tx<T>, e: TxEvent<T>) {
    && s.pos < |s.slots| && s.kpos < |s.slots|
    && match e
       case Push(_) => true
       case Flush => true
       case KTake => s.slots[s.kpos].Request?
       case KDone(i) => i < |s.slots| && s.slots[i].Sending?
  }

  function TxStep<T>(s: Tx<T>, e: TxEvent<T>): Tx<T>
    requires TxEnabled(s, e)
  {
    match e
    case Push(p) =>
      if s.slots[s.pos].Available? then
        Flushed(s.(slots := s.slots[s.pos := Request(p)], pending := s.pending + 1,
                   pos := Wrap(s.pos, |s.slots|), accepted := s.accepted + [p]), DEFAULT_PENDING_LIMIT)
      else s.(drops := s.drops + 1)
    case Flush => Flushed(s, 0)
    case KTake =>
      s.(slots := s.slots[s.kpos := Sending], kpos := Wrap(s.kpos, |s.slots|), wire := s.wire + [s.slots[s.kpos].pkt])
    case KDone(i) => s.(slots := s.slots[i := Available])
  }

  ghost predicate TxSlotAt<T>(s: Tx<T>, k: nat)
    requires |s.slots| > 0
  {
    if k < |s.accepted| then s.slots[Slot(k, |s.slots|)] == Request(s.accepted[k])
    else !s.slots[Slot(k, |s.slots|)].Request?
  }

  ghost predicate TxInv<T>(s: Tx<T>) {
    && s.pos < |s.slots| && s.kpos < |s.slots|
    && |s.wire| <= |s.accepted| <= |s.wire| + |s.slots|
    && s.wire == s.accepted[..|s.wire|]
    && s.kpos == Slot(|s.wire|, |s.slots|) && s.pos == Slot(|s.accepted|, |s.slots|)
    && (forall k :: |s.wire| <= k < |s.wire| + |s.slots| ==> TxSlotAt(s, k))
    && s.tx + s.pending == |s.accepted| && s.pending < DEFAULT_PENDING_LIMIT
  }

  /** A free slot at the writer's position means the ring is not full of unsent packets. */
  lemma FreeMeansRoom<T>(s: Tx<T>)
    requires TxInv(s)
    ensures s.slots[s.pos].Available? ==> |s.accepted| < |s.wire| + |s.slots|
  {
    var n, w := |s.slots|, |s.wire|;
    assert Slot(w + n, n) == Slot(w, n);
    assert TxSlotAt(s, w);
  }

  lemma PushedSlot<T>(s: Tx<T>, p: T, k: nat)
    requires TxInv(s) && s.slots[s.pos].Available?
    requires |s.wire| <= k < |s.wire| + |s.slots|
    ensures TxSlotAt(TxStep(s, Push(p)), k)
  {
    FreeMeansRoom(s);
    assert TxSlotAt(s, k);
    if k < |s.accepted| {
      SlotsDistinct(k, |s.accepted|, |s.slots|);
    } else if k > |s.accepted| {
      SlotsDistinct(|s.accepted|, k, |s.slots|);
    }
  }

  lemma PushKeepsInv<T>(s: Tx<T>, p: T)
    requires TxInv(s)
    ensures TxInv(TxStep(s, Push(p)))
  {
    var s' := TxStep(s, Push(p));
    if s.slots[s.pos].Available? {
      FreeMeansRoom(s);
      NextSlot(|s.accepted|, |s.slots|);
    }
    forall k | |s.wire| <= k < |s.wire| + |s.slots|
      ensures TxSlotAt(s', k)
    {
      if s.slots[s.pos].Available? {
        PushedSlot(s, p, k);
      } else {
        assert TxSlotAt(s, k);
      }
    }
  }

  lemma KTakeKeepsInv<T>(s: Tx<T>)
    requires TxInv(s) && TxEnabled(s, KTake)
    ensures TxInv(TxStep(s, KTake))
  {
    var s' := TxStep(s, KTake);
    var n, w := |s.slots|, |s.wire|;
    assert TxSlotAt(s, w);
    NextSlot(w, n);
    assert Slot(w + n, n) == Slot(w, n);
    forall k | w + 1 <= k < w + 1 + n
      ensures TxSlotAt(s', k)
    {
      if k < w + n {
        assert TxSlotAt(s, k);
        SlotsDistinct(w, k, n);
      }
    }
  }

  lemma TxStepKeepsInv<T>(s: Tx<T>, e: TxEvent<T>)
    requires TxInv(s) && TxEnabled(s, e)
    ensures TxInv(TxStep(s, e))
  {
    match e {
      case Push(p) => PushKeepsInv(s, p);
      case KTake => KTakeKeepsInv(s);
      case _ =>
        forall k | |s.wire| <= k < |s.wire| + |s.slots|
          ensures TxSlotAt(TxStep(s, e), k)
        {
          assert TxSlotAt(s, k);
        }
    }
  }

  ghost predicate IsTxRun<T>(s: Tx<T>, es: seq<TxEvent<T>>, s': Tx<T>)
    decreases |es|
  {
    if es == [] then s' == s
    else TxEnabled(s, es[0]) && IsTxRun(TxStep(s, es[0]), es[1..], s')
  }

  lemma {:induction false} TxRunKeepsInv<T>(s: Tx<T>, es: seq<TxEvent<T>>, s': Tx<T>)
    requires TxInv(s) && IsTxRun(s, es, s')
    ensures TxInv(s')
    decreases |es|
  {
    if es != [] {
      TxStepKeepsInv(s, es[0]);
      TxRunKeepsInv(TxStep(s, es[0]), es[1..], s');
    }
  }

  predicate TxInit<T>(s: Tx<T>) {
    && s.slots != [] && (forall i :: 0 <= i < |s.slots| ==> s.slots[i].Available?)
    && s.kpos == 0 && s.pos == 0 && s.pending == 0 && s.tx == 0 && s.drops == 0
    && s.accepted == [] && s.wire == []
  }

  /** In every interleaving with the kernel: packets go out in order, each once; none that the
      ring accepted is overwritten before the kernel took it; sent plus pending counts them
      all; and fewer than the flush limit are pending between calls. */
  lemma EveryPacketOnce<T>(s0: Tx<T>, es: seq<TxEvent<T>>, s: Tx<T>)
    requires TxInit(s0) && IsTxRun(s0, es, s)
    ensures s.wire <= s.accepted && |s.accepted| - |s.wire| <= |s.slots|
    ensures forall k :: |s.wire| <= k < |s.accepted| ==> s.slots[Slot(k, |s.slots|)] == Request(s.accepted[k])
    ensures s.tx + s.pending == |s.accepted| && s.pending < DEFAULT_PENDING_LIMIT
  {
    TxRunKeepsInv(s0, es, s);
    forall k | |s.wire| <= k < |s.accepted|
      ensures s.slots[Slot(k, |s.slots|)] == Request(s.accepted[k])
    {
      assert TxSlotAt(s, k);
    }
  }

  // -- The receive routine as written

  const DP_RX_MORE: int := -1

  /** The kernel's arrivals, one after the other. */
  function ArriveAll<T>(s: Rx<T>, fs: seq<Frame<T>>): Rx<T>
    requires RxShaped(s)
    decreases |fs|
  {
    if fs == [] then s else ArriveAll(RxStep(s, Arrive(fs[0])), fs[1..])
  }

  lemma {:induction false} ArriveAllKeepsInv<T>(s: Rx<T>, fs: seq<Frame<T>>)
    requires RxInv(s)
    ensures RxInv(ArriveAll(s, fs))
    ensures var s' := ArriveAll(s, fs);
            && |s'.slots| == |s.slots| && s'.pos == s.pos && s'.busy == s.busy
            && s'.released == s.released && s.accepted <= s'.accepted
    decreases |fs|
  {
    if fs != [] {
      RxStepKeepsInv(s, Arrive(fs[0]));
      ArriveAllKeepsInv(RxStep(s, Arrive(fs[0])), fs[1..]);
    }
  }

  /** One frame taken, looked at and given back. */
  function Turn<T>(s: Rx<T>): Rx<T>
    requires !s.busy && RxEnabled(s, Consume)
  {
    RxStep(RxStep(s, Consume), Release)
  }

  lemma TurnKeepsInv<T>(s: Rx<T>)
    requires RxInv(s) && !s.busy && s.slots[s.pos].User?
    ensures RxEnabled(s, Consume) && RxInv(Turn(s))
    ensures s.released < |s.accepted| && Turn(s).released == s.released + 1 && !Turn(s).busy
  {
    SocketInStep(s);
    PosHasFrame(s);
    RxStepKeepsInv(s, Consume);
    RxStepKeepsInv(RxStep(s, Consume), Release);
  }

  /** `dp_rx_v1`, with what the kernel delivers before each look at a status word. */
  ghost function Poll<T>(s: Rx<T>, arrivals: seq<seq<Frame<T>>>, count: nat): (Rx<T>, int)
    requires RxInv(s) && !s.busy
    decreases |arrivals|
  {
    if arrivals == [] then (s, DP_RX_MORE)
    else
      ArriveAllKeepsInv(s, arrivals[0]);
      var s1 := ArriveAll(s, arrivals[0]);
      if s1.slots[s1.pos].Kernel? then (s1, count)
      else
        TurnKeepsInv(s1);
        Poll(Turn(s1), arrivals[1..], count + 1)
  }

  lemma PollUnfolds<T>(s: Rx<T>, arrivals: seq<seq<Frame<T>>>, i: nat)
    requires RxInv(s) && !s.busy && i < |arrivals|
    ensures RxInv(ArriveAll(s, arrivals[i])) && !ArriveAll(s, arrivals[i]).busy
    ensures var s1 := ArriveAll(s, arrivals[i]);
            && (s1.slots[s1.pos].Kernel? ==> Poll(s, arrivals[i..], i) == (s1, i))
            && (s1.slots[s1.pos].User? ==>
                  && RxEnabled(s1, Consume) && RxInv(Turn(s1)) && !Turn(s1).busy
                  && Poll(s, arrivals[i..], i) == Poll(Turn(s1), arrivals[i + 1..], i + 1))
  {
    ArriveAllKeepsInv(s, arrivals[i]);
    var s1 := ArriveAll(s, arrivals[i]);
    if s1.slots[s1.pos].User? {
      TurnKeepsInv(s1);
    }
    assert arrivals[i..][1..] == arrivals[i + 1..];
  }

  /** What a batch that started at `s` and returned `c` at `s'` has done. */
  ghost predicate BatchDone<T>(s: Rx<T>, looks: nat, count: nat, s': Rx<T>, c: int) {
    && RxInv(s') && !s'.busy
    && (c != DP_RX_MORE ==> s'.released == |s'.accepted|)
    && s'.released == s.released + (if c == DP_RX_MORE then looks else c - count)
    && (c == DP_RX_MORE || count <= c < count + looks)
  }

  lemma EmptyRing<T>(s: Rx<T>, looks: nat, count: nat)
    requires RxInv(s) && !s.busy && s.slots[s.pos].Kernel? && looks > 0
    ensures BatchDone(s, looks, count, s, count)
  {
    PosHasFrame(s);
  }

  /** A batch takes one frame per look; it reports how many, and only when it left none behind. */
  lemma {:induction false} PollMeans<T>(s: Rx<T>, arrivals: seq<seq<Frame<T>>>, count: nat)
    requires RxInv(s) && !s.busy
    ensures BatchDone(s, |arrivals|, count, Poll(s, arrivals, count).0, Poll(s, arrivals, count).1)
    decreases |arrivals|
  {
    if arrivals != [] {
      ArriveAllKeepsInv(s, arrivals[0]);
      var s1 := ArriveAll(s, arrivals[0]);
      if s1.slots[s1.pos].Kernel? {
        EmptyRing(s1, |arrivals|, count);
      } else {
        TurnKeepsInv(s1);
        PollMeans(Turn(s1), arrivals[1..], count + 1);
      }
    }
  }

  /** Where frame `i` lies. */
  function Offset(i: nat, frame: nat): nat {
    if i == 0 then 0 else Offset(i - 1, frame) + frame
  }

  lemma {:induction false} OffsetMeans(i: nat, frame: nat)
    requires frame > 0
    ensures Offset(i, frame) == i * frame
    ensures Offset(i, frame) / frame == i && Offset(i, frame) % frame == 0
  {
    if i > 0 {
      OffsetMeans(i - 1, frame);
      StepOver(Offset(i - 1, frame), frame);
      assert i * frame == (i - 1) * frame + frame;
    }
  }

  lemma {:induction false} OffsetsGrow(i: nat, n: nat, frame: nat)
    requires frame > 0 && i < n
    ensures Offset(i, frame) + frame <= Offset(n, frame)
    ensures Offset(i, frame) + frame == Offset(n, frame) <==> i + 1 == n
    decreases n
  {
    if i + 1 < n {
      OffsetsGrow(i, n - 1, frame);
    }
  }

  /** In a ring of power-of-two size the mask leads from frame to frame, and round. */
  lemma OffsetStep(i: nat, n: nat, frame: nat)
    requires frame > 0 && i < n && RingMask.IsPow2(Offset(n, frame))
    ensures Offset(n, frame) > 0
    ensures RingMask.NextOffset(Offset(i, frame), frame, Offset(n, frame)) == Offset(Wrap(i, n), frame)
  {
    OffsetsGrow(i, n, frame);
    OffsetMeans(i, frame);
    OffsetMeans(n, frame);
    RingMask.PowerWalksRound(frame, Offset(n, frame), Offset(i, frame));
  }

  /** One transmit ring, as the data path writes it; the kernel takes its steps between calls. */
  class TxRing<T> {
    const frame: nat
    const size: nat
    const slots: array<TxSlot<T>>
    var txOffset: nat
    var txPending: nat
    var tx: nat
    var txDrops: nat
    ghost var pos: nat
    ghost var kpos: nat
    ghost var accepted: seq<T>
    ghost var wire: seq<T>
    ghost var direct: seq<T>

    ghost function Value(): Tx<T>
      reads this, slots
    {
      Tx(slots[..], kpos, pos, txPending, tx, txDrops, accepted, wire)
    }

    ghost predicate Placed()
      reads this
    {
      && frame > 0 && size == Offset(slots.Length, frame)
      && pos < slots.Length && kpos < slots.Length && txOffset == Offset(pos, frame)
    }

    /** The mask leads round the ring. */
    ghost predicate Walks() {
      RingMask.IsPow2(size)
    }

    constructor (jumbo: bool, blocks: nat)
      requires blocks > 0
      ensures Placed() && TxInit(Value()) && fresh(slots)
      ensures Walks() <==> RingMask.IsPow2(blocks)
      ensures frame == RingMask.FrameSize(jumbo) && size == RingMask.RingSize(jumbo, blocks)
    {
      frame := RingMask.FrameSize(jumbo);
      size := RingMask.RingSize(jumbo, blocks);
      slots := new TxSlot<T>[RingMask.RingSize(jumbo, blocks) / RingMask.FrameSize(jumbo)](_ => Available);
      txOffset, txPending, tx, txDrops := 0, 0, 0, 0;
      pos, kpos, accepted, wire, direct := 0, 0, [], [], [];
      new;
      RingMask.BlocksDecide(jumbo, blocks);
      RingMask.WholeFrames(jumbo, blocks);
      OffsetMeans(slots.Length, frame);
    }

    /** `dp_tx_flush`: a kick to the kernel once at least `limit` packets are pending. */
    method FlushPending(limit: nat)
      modifies this`tx, this`txPending
      ensures Value() == Flushed(old(Value()), limit)
    {
      if txPending >= limit && txPending > 0 {
        tx := tx + txPending;
        txPending := 0;
      }
    }

    /** A large frame bypasses the ring: what is pending goes first, and then the packet itself
        with `outcome` as the socket's answer.  Any other packet needs the slot at the offset, or
        is dropped. */
    method Transmit(pkt: T, len: nat, largeFrame: bool, outcome: int) returns (ret: int)
      requires Placed() && Walks()
      modifies this`txOffset, this`txPending, this`tx, this`txDrops, this`pos, this`accepted, this`direct, slots
      ensures Placed() && TxEnabled(old(Value()), Push(pkt))
      ensures Value() == TxStep(old(Value()), if largeFrame then Flush else Push(pkt))
      ensures largeFrame ==> txPending == 0 && direct == old(direct) + [pkt] && ret == outcome
      ensures !largeFrame ==> direct == old(direct)
      ensures !largeFrame && accepted == old(accepted) + [pkt] ==> ret == len && txDrops == old(txDrops)
      ensures !largeFrame && accepted != old(accepted) + [pkt] ==> ret == -1 && txDrops == old(txDrops) + 1
    {
      if largeFrame {
        FlushPending(0);
        direct := direct + [pkt];
        return outcome;
      }
      OffsetMeans(pos, frame);
      OffsetStep(pos, slots.Length, frame);
      var i := txOffset / frame;
      if slots[i].Available? {
        slots[i] := Request(pkt);
        txPending := txPending + 1;
        accepted := accepted + [pkt];
        txOffset := RingMask.NextOffset(txOffset, frame, size);
        pos := Wrap(pos, slots.Length);
        FlushPending(DEFAULT_PENDING_LIMIT);
        ret := len;
      } else {
        txDrops := txDrops + 1;
        ret := -1;
      }
    }
  }

  /** One receive ring.  Slots are reached by byte offset, and the offset advances by mask. */
  class RxRing<T> {
    const frame: nat
    const size: nat
    const batch: nat
    const tap: bool
    const peer: TxRing?<T>
    const slots: array<RxSlot<T>>
    var rxOffset: nat
    var sock: seq<Frame<T>>
    var delivered: seq<Frame<T>>
    var head: nat
    ghost var pos: nat
    ghost var accepted: seq<Frame<T>>
    ghost var released: nat

    ghost function Value(): Rx<T>
      reads this, slots
    {
      Rx(slots[..], head, pos, sock, false, accepted, released, delivered)
    }

    /** The offset is that of a frame of the ring. */
    ghost predicate Placed()
      reads this
    {
      && frame > 0 && size == Offset(slots.Length, frame) && (!tap ==> peer != null)
      && pos < slots.Length && head < slots.Length && rxOffset == Offset(pos, frame)
    }

    ghost predicate Valid()
      reads this, slots
    {
      Placed() && Walks() && RxInv(Value())
    }

    /** The mask leads round the ring. */
    ghost predicate Walks() {
      RingMask.IsPow2(size)
    }

    /** Frames are jumbo only on a context that is not a tap. */
    constructor (tap: bool, jumboframe: bool, blocks: nat, batch: nat, peer: TxRing?<T>)
      requires blocks > 0 && (!tap ==> peer != null)
      ensures Placed() && RxInit(Value()) && fresh(slots)
      ensures this.tap == tap && this.peer == peer && this.batch == batch
      ensures Walks() <==> RingMask.IsPow2(blocks)
      ensures Walks() ==> Valid()
      ensures frame == RingMask.FrameSize(!tap && jumboframe) && size == RingMask.RingSize(!tap && jumboframe, blocks)
    {
      var jumbo := !tap && jumboframe;
      this.tap, this.peer := tap, peer;
      frame := RingMask.FrameSize(jumbo);
      size := RingMask.RingSize(jumbo, blocks);
      this.batch := batch;
      slots := new RxSlot<T>[RingMask.RingSize(jumbo, blocks) / RingMask.FrameSize(jumbo)](_ => Kernel);
      rxOffset, head := 0, 0;
      sock, delivered := [], [];
      pos, accepted, released := 0, [], 0;
      new;
      RingMask.BlocksDecide(jumbo, blocks);
      RingMask.WholeFrames(jumbo, blocks);
      OffsetMeans(slots.Length, frame);
      var s := Value();
      forall k | 0 <= k < |s.slots|
        ensures SlotAt(s, k)
      {
      }
    }

    /** The kernel fills the slot at its head unless the user still owns it. */
    method KernelArrival(f: Frame<T>)
      requires Placed()
      modifies this`head, this`sock, this`accepted, slots
      ensures Placed() && RxShaped(old(Value())) && Value() == RxStep(old(Value()), Arrive(f))
    {
      if slots[head].Kernel? {
        slots[head] := User(f);
        if Spilled(f) {
          sock := sock + [f];
        }
        accepted := accepted + [f];
        head := Wrap(head, slots.Length);
      }
    }

    method KernelArrivals(fs: seq<Frame<T>>)
      requires Placed()
      modifies this`head, this`sock, this`accepted, slots
      ensures Placed() && RxShaped(old(Value())) && Value() == ArriveAll(old(Value()), fs)
    {
      ghost var was := Value();
      var i := 0;
      while i < |fs|
        invariant i <= |fs| && Placed()
        invariant ArriveAll(Value(), fs[i..]) == ArriveAll(was, fs)
      {
        assert fs[i..][1..] == fs[i + 1..];
        KernelArrival(fs[i]);
        i := i + 1;
      }
    }

    method Look() returns (slot: RxSlot<T>)
      requires Placed()
      ensures slot == slots[pos]
    {
      OffsetMeans(pos, frame);
      slot := slots[rxOffset / frame];
    }

    /** The frame at the offset goes to the packet inspection, whole or not at all. */
    method ConsumeFrame(f: Frame<T>)
      requires Placed() && slots[pos] == User(f) && (Spilled(f) ==> sock != [])
      modifies this`sock, this`delivered
      ensures RxEnabled(old(Value()), Consume)
      ensures Value().(busy := true) == RxStep(old(Value()), Consume)
    {
      if f.len != f.snap {
        if f.copied {
          if f.len <= MAX_TSO_SIZE {
            delivered := delivered + [sock[0]];
          }
          sock := sock[1..];
        }
      } else {
        delivered := delivered + [f];
      }
    }

    /** The slot goes back to the kernel, and the offset steps on by mask. */
    method ReleaseFrame()
      requires Placed() && Walks()
      modifies this`rxOffset, this`pos, this`released, slots
      ensures Placed() && RxShaped(old(Value()))
      ensures Value() == RxStep(old(Value()).(busy := true), Release)
    {
      OffsetMeans(pos, frame);
      OffsetStep(pos, slots.Length, frame);
      slots[rxOffset / frame] := Kernel;
      rxOffset := RingMask.NextOffset(rxOffset, frame, size);
      pos, released := Wrap(pos, slots.Length), released + 1;
    }

    /** One look at the status word, and one frame if it is the user's. */
    method ReceiveOne(fs: seq<Frame<T>>) returns (found: bool)
      requires Valid()
      modifies this, slots
      ensures Valid() && RxInv(old(Value())) && RxInv(ArriveAll(old(Value()), fs))
      ensures var s := ArriveAll(old(Value()), fs);
              && found == s.slots[s.pos].User?
              && (found ==> RxEnabled(s, Consume))
              && Value() == if found then Turn(s) else s
    {
      ArriveAllKeepsInv(Value(), fs);
      KernelArrivals(fs);
      var slot := Look();
      found := slot.User?;
      if found {
        TurnKeepsInv(Value());
        ConsumeFrame(slot.frame);
        ReleaseFrame();
      }
    }

    /** The batch loop. */
    method ReceiveBatch(arrivals: seq<seq<Frame<T>>>) returns (r: int)
      requires Valid() && |arrivals| == batch
      modifies this, slots
      ensures Valid() && (Value(), r) == Poll(old(Value()), arrivals, 0)
      ensures r != DP_RX_MORE ==> released == |accepted| && released == old(released) + r
      ensures r == DP_RX_MORE ==> released == old(released) + batch
      ensures delivered == Delivered(accepted[..released])
    {
      ghost var was := Value();
      PollMeans(was, arrivals, 0);
      var count := 0;
      while count < batch
        invariant count <= batch && Valid()
        invariant Poll(Value(), arrivals[count..], count) == Poll(was, arrivals, 0)
      {
        PollUnfolds(Value(), arrivals, count);
        var found := ReceiveOne(arrivals[count]);
        if !found {
          return count;
        }
        count := count + 1;
      }
      return DP_RX_MORE;
    }

    /** A batch, and a kick for what inspection passed on to the peer's transmit ring. */
    method Receive(arrivals: seq<seq<Frame<T>>>) returns (r: int)
      requires Valid() && |arrivals| == batch
      modifies this, slots, if tap then {} else {peer}
      ensures Valid() && (Value(), r) == Poll(old(Value()), arrivals, 0)
      ensures r != DP_RX_MORE ==> released == |accepted| && released == old(released) + r
      ensures r == DP_RX_MORE ==> released == old(released) + batch
      ensures delivered == Delivered(accepted[..released])
      ensures !tap ==> peer.Value() == Flushed(old(peer.Value()), 0) && peer.txPending == 0
    {
      r := ReceiveBatch(arrivals);
      if !tap {
        peer.FlushPending(0);
      }
    }
  }
}
