/** Publishing a CVE database to the key-value store (controller/grpc.go): slots are written one
    by one, a transaction then switches the version record, and the keys that were there before
    are deleted.  The controller may stop after any step. */
module CveStore {
  import opened Basics

  /** Slot `i` of a version's store. */
  datatype Key = Slot(ver: nat, i: nat)

  /** The version record.  `slots` and `upload` say which write it stands for. */
  datatype Version = Version(ver: nat, entries: nat, slots: nat, upload: nat)

  /** A database to be written: `upload` identifies it, and its slots hold that identity. */
  datatype Job = Job(ver: nat, entries: nat, slots: nat, upload: nat)

  /** `Cleaning`: the write failed and the new store's keys are being removed. */
  datatype Phase =
    | Idle
    | Writing(job: Job, oldKeys: set<Key>, next: nat)
    | Deleting(left: set<Key>)
    | Cleaning(left: set<Key>)

  datatype State = State(kv: map<Key, nat>, record: Option<Version>, phase: Phase)

  /** `Put(ok)` is the next slot write, `Apply(ok)` the transaction, `Remove(key, ok)` a delete
      whose failure is ignored; `NotApplied`: the transaction was refused; `Stop`: a crash. */
  datatype Event = Begin(job: Job) | Put(ok: bool) | Apply(ok: bool) | NotApplied | Remove(key: Key, ok: bool) | Stop

  /** The database is to be written. */
  predicate Newer(record: Option<Version>, job: Job) {
    record.None? || job.ver > record.value.ver || job.entries > record.value.entries
  }

  function StoreKeys(kv: map<Key, nat>, ver: nat): set<Key> {
    set k | k in kv && k.ver == ver
  }

  predicate Enabled(s: State, e: Event) {
    match e
    case Begin(job) => s.phase.Idle? && job.slots > 0 && Newer(s.record, job)
    case Put(_) => s.phase.Writing? && s.phase.next < s.phase.job.slots
    case Apply(_) => s.phase.Writing? && s.phase.next == s.phase.job.slots
    case NotApplied => s.phase.Writing? && s.phase.next == s.phase.job.slots
    case Remove(key, _) => (s.phase.Deleting? || s.phase.Cleaning?) && key in s.phase.left
    case Stop => true
  }

  function Done(p: Phase): Phase {
    if (p.Deleting? || p.Cleaning?) && p.left == {} then Idle else p
  }

  function Without(p: Phase, key: Key): Phase
    requires p.Deleting? || p.Cleaning?
  {
    Done(if p.Deleting? then Deleting(p.left - {key}) else Cleaning(p.left - {key}))
  }

  function Step(s: State, e: Event): State
    requires Enabled(s, e)
  {
    match e
    case Begin(job) => s.(phase := Writing(job, s.kv.Keys, 0))
    case Put(ok) =>
      var p := s.phase;
      if ok then s.(kv := s.kv[Slot(p.job.ver, p.next) := p.job.upload], phase := p.(next := p.next + 1))
      else s.(phase := Done(Cleaning(StoreKeys(s.kv, p.job.ver))))
    case Apply(ok) =>
      var p := s.phase;
      if ok then
        s.(record := Some(Version(p.job.ver, p.job.entries, p.job.slots, p.job.upload)), phase := Done(Deleting(p.oldKeys)))
      else s.(phase := Done(Cleaning(StoreKeys(s.kv, p.job.ver))))
    case NotApplied => s.(phase := Idle)
    case Remove(key, ok) => s.(kv := if ok then s.kv - {key} else s.kv, phase := Without(s.phase, key))
    case Stop => s.(phase := Idle)
  }

  // -- What a reader of the record finds

  /** The store of a version holds the slots of one upload, all of them and no others. */
  ghost predicate StoreIs(kv: map<Key, nat>, ver: nat, slots: nat, upload: nat) {
    forall i: nat :: if i < slots then Slot(ver, i) in kv && kv[Slot(ver, i)] == upload else Slot(ver, i) !in kv
  }

  ghost predicate Readable(s: State) {
    s.record.Some? ==> StoreIs(s.kv, s.record.value.ver, s.record.value.slots, s.record.value.upload)
  }

  /** No key of the version's store is there. */
  predicate Fresh(kv: map<Key, nat>, ver: nat) {
    forall k :: k in kv ==> k.ver != ver
  }

  /** What a registration in progress may rely on. */
  ghost predicate Orderly(s: State) {
    && (s.record.Some? ==> s.record.value.slots > 0)
    && match s.phase
       case Idle => true
       case Writing(job, oldKeys, next) =>
         && next <= job.slots && job.slots > 0 && StoreIs(s.kv, job.ver, next, job.upload)
         && (forall k :: k in oldKeys ==> k.ver != job.ver)
         && (s.record.Some? ==> s.record.value.ver != job.ver)
       case Deleting(left) => s.record.Some? && forall k :: k in left ==> k.ver != s.record.value.ver
       case Cleaning(left) => s.record.Some? ==> forall k :: k in left ==> k.ver != s.record.value.ver
  }

  ghost predicate Inv(s: State) {
    Readable(s) && Orderly(s)
  }

  lemma BeginKeepsInv(s: State, job: Job)
    requires Inv(s) && Enabled(s, Begin(job)) && Fresh(s.kv, job.ver)
    ensures Inv(Step(s, Begin(job)))
  {
    assert s.record.Some? ==> Slot(s.record.value.ver, 0) in s.kv;
  }

  lemma PutKeepsInv(s: State)
    requires Inv(s) && Enabled(s, Put(true))
    ensures Inv(Step(s, Put(true)))
  {
  }

  lemma RemoveKeepsInv(s: State, key: Key)
    requires Inv(s) && Enabled(s, Remove(key, true))
    ensures Inv(Step(s, Remove(key, true)))
  {
  }

  /** A version that is written afresh: every step keeps the record readable. */
  lemma StepKeepsInv(s: State, e: Event)
    requires Inv(s) && Enabled(s, e)
    requires e.Begin? ==> Fresh(s.kv, e.job.ver)
    ensures Inv(Step(s, e))
  {
    match e {
      case Begin(job) => BeginKeepsInv(s, job);
      case Put(ok) =>
        if ok {
          PutKeepsInv(s);
        }
      case Remove(key, ok) =>
        if ok {
          RemoveKeepsInv(s, key);
        }
      case _ =>
    }
  }

  /** A run in which every registration finds no key of its version. */
  ghost predicate IsFreshRun(s: State, es: seq<Event>, s': State)
    decreases |es|
  {
    if es == [] then s' == s
    else
      && Enabled(s, es[0]) && (es[0].Begin? ==> Fresh(s.kv, es[0].job.ver))
      && IsFreshRun(Step(s, es[0]), es[1..], s')
  }

  lemma {:induction false} FreshRunsKeepInv(s: State, es: seq<Event>, s': State)
    requires Inv(s) && IsFreshRun(s, es, s')
    ensures Inv(s')
    decreases |es|
  {
    if es != [] {
      StepKeepsInv(s, es[0]);
      FreshRunsKeepInv(Step(s, es[0]), es[1..], s');
    }
  }

  const EMPTY: State := State(map[], None, Idle)

  /** Through any number of registrations, failures and crashes: whenever a reader looks, the
      version record names a store with all slots of one database and no others. */
  lemma AlwaysReadable(es: seq<Event>, s: State)
    requires IsFreshRun(EMPTY, es, s)
    ensures s.record.Some? ==> StoreIs(s.kv, s.record.value.ver, s.record.value.slots, s.record.value.upload)
  {
    FreshRunsKeepInv(EMPTY, es, s);
  }

  // -- When the version is not fresh

  /** The slots `0 .. n` written over what is there. */
  function AllPut(kv: map<Key, nat>, job: Job, n: nat): map<Key, nat> {
    if n == 0 then kv else AllPut(kv, job, n - 1)[Slot(job.ver, n - 1) := job.upload]
  }

  lemma {:induction false} AllPutMeans(kv: map<Key, nat>, job: Job, n: nat, k: Key)
    ensures k in AllPut(kv, job, n) <==> k in kv || (k.ver == job.ver && k.i < n)
    ensures k.ver == job.ver && k.i < n ==> AllPut(kv, job, n)[k] == job.upload
    ensures k in kv && !(k.ver == job.ver && k.i < n) ==> AllPut(kv, job, n)[k] == kv[k]
    decreases n
  {
    if n > 0 {
      AllPutMeans(kv, job, n - 1, k);
    }
  }

  ghost predicate IsRun(s: State, es: seq<Event>, s': State)
    decreases |es|
  {
    if es == [] then s' == s else Enabled(s, es[0]) && IsRun(Step(s, es[0]), es[1..], s')
  }

  lemma {:induction false} RunsChain(s: State, es: seq<Event>, m: State, fs: seq<Event>, s': State)
    requires IsRun(s, es, m) && IsRun(m, fs, s')
    ensures IsRun(s, es + fs, s')
    decreases |es|
  {
    if es == [] {
      assert es + fs == fs;
    } else {
      assert (es + fs)[1..] == es[1..] + fs;
      RunsChain(Step(s, es[0]), es[1..], m, fs, s');
    }
  }

  lemma OneStep(s: State, e: Event)
    requires Enabled(s, e)
    ensures IsRun(s, [e], Step(s, e))
  {
    assert [e][1..] == [];
  }

  lemma {:induction false} PutsRun(s: State, job: Job, n: nat) returns (es: seq<Event>)
    requires n <= job.slots && s.phase == Writing(job, s.kv.Keys, 0)
    ensures forall i :: 0 <= i < |es| ==> !es[i].Begin?
    ensures IsRun(s, es, State(AllPut(s.kv, job, n), s.record, Writing(job, s.kv.Keys, n)))
    decreases n
  {
    es := [];
    if n > 0 {
      var fs := PutsRun(s, job, n - 1);
      var m := State(AllPut(s.kv, job, n - 1), s.record, Writing(job, s.kv.Keys, n - 1));
      OneStep(m, Put(true));
      RunsChain(s, fs, m, [Put(true)], Step(m, Put(true)));
      es := fs + [Put(true)];
    }
  }

  function Removed(keys: set<Key>, delOk: Key -> bool): set<Key> {
    set k | k in keys && delOk(k)
  }

  lemma {:induction false} RemovesRun(s: State, left: set<Key>, delOk: Key -> bool) returns (es: seq<Event>)
    requires s.phase == Done(Deleting(left)) || s.phase == Done(Cleaning(left))
    ensures IsRun(s, es, State(s.kv - Removed(left, delOk), s.record, Idle))
    ensures forall i :: 0 <= i < |es| ==> !es[i].Begin?
    decreases left
  {
    es := [];
    if left == {} {
      assert s.kv - Removed({}, delOk) == s.kv;
    } else {
      var k :| k in left;
      var e := Remove(k, delOk(k));
      var s1 := Step(s, e);
      var fs := RemovesRun(s1, left - {k}, delOk);
      assert s1.kv - Removed(left - {k}, delOk) == s.kv - Removed(left, delOk);
      es := [e] + fs;
      assert es[1..] == fs;
    }
  }

  // -- A registration, for any behaviour of the store

  datatype Outcome = Kept | PutFailed | TxnFailed | Refused | Written

  /** The first slot whose write fails. */
  function FirstFailure(putOk: nat -> bool, n: nat): Option<nat> {
    if n == 0 then None
    else if FirstFailure(putOk, n - 1).Some? then FirstFailure(putOk, n - 1)
    else if putOk(n - 1) then None else Some(n - 1)
  }

  lemma {:induction false} FirstFailureMeans(putOk: nat -> bool, n: nat)
    ensures FirstFailure(putOk, n).None? <==> forall i: nat | i < n :: putOk(i)
    ensures var f := FirstFailure(putOk, n);
            f.Some? ==> f.value < n && !putOk(f.value) && forall i: nat | i < f.value :: putOk(i)
  {
    if n > 0 {
      FirstFailureMeans(putOk, n - 1);
    }
  }

  /** `txn`: an error, or whether the transaction was applied. */
  function OutcomeOf(record: Option<Version>, job: Job, putOk: nat -> bool, txn: Option<bool>): Outcome {
    if !Newer(record, job) then Kept
    else if FirstFailure(putOk, job.slots).Some? then PutFailed
    else if txn.None? then TxnFailed
    else if !txn.value then Refused
    else Written
  }

  function Cleaned(kv: map<Key, nat>, ver: nat, delOk: Key -> bool): map<Key, nat> {
    kv - Removed(StoreKeys(kv, ver), delOk)
  }

  /** What is left behind. */
  function Registered(s: State, job: Job, putOk: nat -> bool, txn: Option<bool>, delOk: Key -> bool): State {
    var all := AllPut(s.kv, job, job.slots);
    match OutcomeOf(s.record, job, putOk, txn)
    case Kept => s
    case PutFailed => s.(kv := Cleaned(AllPut(s.kv, job, FirstFailure(putOk, job.slots).value), job.ver, delOk))
    case TxnFailed => s.(kv := Cleaned(all, job.ver, delOk))
    case Refused => s.(kv := all)
    case Written =>
      s.(kv := all - Removed(s.kv.Keys, delOk),
         record := Some(Version(job.ver, job.entries, job.slots, job.upload)))
  }

  /** Once a registration goes through, the record is at least as new and as large as what was
      offered; it is the offer itself if and only if that was newer or larger, and else everything
      stays as it was. */
  lemma RegisteredIsKnown(s: State, job: Job, putOk: nat -> bool, txn: Option<bool>, delOk: Key -> bool)
    requires (forall i: nat | i < job.slots :: putOk(i)) && txn == Some(true)
    ensures var s' := Registered(s, job, putOk, txn, delOk);
            && s'.record.Some? && job.ver <= s'.record.value.ver && job.entries <= s'.record.value.entries
            && (if s.record.Some? && job.ver <= s.record.value.ver && job.entries <= s.record.value.entries then s' == s
                else s'.record == Some(Version(job.ver, job.entries, job.slots, job.upload)))
  {
    FirstFailureMeans(putOk, job.slots);
  }

  /** Whatever fails, the record is the old one or the offer, and the offer only if it is newer or
      larger and nothing failed. */
  lemma RecordChangesExactly(s: State, job: Job, putOk: nat -> bool, txn: Option<bool>, delOk: Key -> bool)
    ensures var s', offer := Registered(s, job, putOk, txn, delOk), Some(Version(job.ver, job.entries, job.slots, job.upload));
            var wanted := s.record.None? || s.record.value.ver < job.ver || s.record.value.entries < job.entries;
            && s'.record == (if wanted && (forall i: nat | i < job.slots :: putOk(i)) && txn == Some(true) then offer else s.record)
            && (!wanted ==> s' == s)
  {
    FirstFailureMeans(putOk, job.slots);
  }

  lemma CleanedIsOld(kv: map<Key, nat>, job: Job, n: nat, delOk: Key -> bool)
    requires Fresh(kv, job.ver) && forall k :: delOk(k)
    ensures Cleaned(AllPut(kv, job, n), job.ver, delOk) == kv
  {
    forall k
      ensures k in Cleaned(AllPut(kv, job, n), job.ver, delOk) <==> k in kv
      ensures k in kv ==> Cleaned(AllPut(kv, job, n), job.ver, delOk)[k] == kv[k]
    {
      AllPutMeans(kv, job, n, k);
    }
  }

  /** If no delete fails, a registration of a fresh version that fails leaves no trace. */
  lemma FailureLeavesNoTrace(s: State, job: Job, putOk: nat -> bool, txn: Option<bool>, delOk: Key -> bool)
    requires Fresh(s.kv, job.ver) && forall k :: delOk(k)
    requires (exists i: nat :: i < job.slots && !putOk(i)) || txn.None?
    ensures Registered(s, job, putOk, txn, delOk) == s
  {
    FirstFailureMeans(putOk, job.slots);
    var n := if FirstFailure(putOk, job.slots).Some? then FirstFailure(putOk, job.slots).value else job.slots;
    CleanedIsOld(s.kv, job, n, delOk);
  }

  /** If nothing fails, not even a delete, the slots of a fresh version are all that is left. */
  lemma WrittenLeavesOnly(s: State, job: Job, putOk: nat -> bool, delOk: Key -> bool, k: Key)
    requires Fresh(s.kv, job.ver) && Newer(s.record, job)
    requires (forall i: nat | i < job.slots :: putOk(i)) && forall j :: delOk(j)
    ensures k in Registered(s, job, putOk, Some(true), delOk).kv <==> k.ver == job.ver && k.i < job.slots
  {
    FirstFailureMeans(putOk, job.slots);
    AllPutMeans(s.kv, job, job.slots, k);
  }

  function WrittenTo(s: State, job: Job, n: nat): State {
    State(AllPut(s.kv, job, n), s.record, Writing(job, s.kv.Keys, n))
  }

  lemma BeginsWriting(s: State, job: Job, n: nat) returns (es: seq<Event>)
    requires Enabled(s, Begin(job)) && n <= job.slots
    ensures IsRun(s, [Begin(job)] + es, WrittenTo(s, job, n))
    ensures forall i :: 0 <= i < |es| ==> !es[i].Begin?
  {
    var s1 := Step(s, Begin(job));
    es := PutsRun(s1, job, n);
    OneStep(s, Begin(job));
    RunsChain(s, [Begin(job)], s1, es, WrittenTo(s, job, n));
  }

  /** After the slots are written, one step and the deletes. */
  lemma ThenRemoves(s: State, job: Job, n: nat, e: Event, left: set<Key>, delOk: Key -> bool, s': State)
      returns (es: seq<Event>)
    requires Enabled(s, Begin(job)) && n <= job.slots && Enabled(WrittenTo(s, job, n), e)
    requires Step(WrittenTo(s, job, n), e).phase == Done(Deleting(left))
             || Step(WrittenTo(s, job, n), e).phase == Done(Cleaning(left))
    requires s' == Step(WrittenTo(s, job, n), e).(kv := Step(WrittenTo(s, job, n), e).kv - Removed(left, delOk), phase := Idle)
    ensures IsRun(s, es, s')
  {
    var puts := BeginsWriting(s, job, n);
    var s2 := WrittenTo(s, job, n);
    var s3 := Step(s2, e);
    OneStep(s2, e);
    var removes := RemovesRun(s3, left, delOk);
    RunsChain(s2, [e], s3, removes, s');
    RunsChain(s, [Begin(job)] + puts, s2, [e] + removes, s');
    es := ([Begin(job)] + puts) + ([e] + removes);
  }

  /** Every registration that writes is a run of the machine. */
  lemma RegisteredIsRun(s: State, job: Job, putOk: nat -> bool, txn: Option<bool>, delOk: Key -> bool) returns (es: seq<Event>)
    requires Enabled(s, Begin(job))
    ensures IsRun(s, es, Registered(s, job, putOk, txn, delOk))
  {
    var all := AllPut(s.kv, job, job.slots);
    var s' := Registered(s, job, putOk, txn, delOk);
    FirstFailureMeans(putOk, job.slots);
    match OutcomeOf(s.record, job, putOk, txn) {
      case PutFailed =>
        var n := FirstFailure(putOk, job.slots).value;
        es := ThenRemoves(s, job, n, Put(false), StoreKeys(AllPut(s.kv, job, n), job.ver), delOk, s');
      case TxnFailed => es := ThenRemoves(s, job, job.slots, Apply(false), StoreKeys(all, job.ver), delOk, s');
      case Written => es := ThenRemoves(s, job, job.slots, Apply(true), s.kv.Keys, delOk, s');
      case Refused =>
        var puts := BeginsWriting(s, job, job.slots);
        OneStep(WrittenTo(s, job, job.slots), NotApplied);
        RunsChain(s, [Begin(job)] + puts, WrittenTo(s, job, job.slots), [NotApplied], s');
        es := ([Begin(job)] + puts) + [NotApplied];
    }
  }

  /** A registration of which every operation succeeds: the old keys go, whatever they hold now. */
  function Published(s: State, job: Job): State {
    State(AllPut(s.kv, job, job.slots) - s.kv.Keys, Some(Version(job.ver, job.entries, job.slots, job.upload)), Idle)
  }

  lemma PublishedIsRun(s: State, job: Job) returns (es: seq<Event>)
    requires Enabled(s, Begin(job))
    ensures IsRun(s, es, Published(s, job))
  {
    FirstFailureMeans(_ => true, job.slots);
    es := RegisteredIsRun(s, job, _ => true, Some(true), _ => true);
    assert Removed(s.kv.Keys, _ => true) == s.kv.Keys;
  }

  /** None of the slots about to be written is there. */
  predicate NoSlotThere(kv: map<Key, nat>, job: Job) {
    forall k :: k in kv ==> !(k.ver == job.ver && k.i < job.slots)
  }

  /** Even when nothing fails, the database is there afterwards if and only if none of its slots
      was there before. */
  lemma PublishedExactly(s: State, job: Job)
    requires Enabled(s, Begin(job))
    ensures Readable(Published(s, job)) <==> NoSlotThere(s.kv, job)
  {
    var kv := Published(s, job).kv;
    forall i: nat
      ensures Slot(job.ver, i) in kv <==> i < job.slots && Slot(job.ver, i) !in s.kv
      ensures Slot(job.ver, i) in kv ==> kv[Slot(job.ver, i)] == job.upload
    {
      AllPutMeans(s.kv, job, job.slots, Slot(job.ver, i));
    }
    if Readable(Published(s, job)) {
      forall k | k in s.kv
        ensures !(k.ver == job.ver && k.i < job.slots)
      {
        assert k == Slot(k.ver, k.i);
      }
    }
  }

  /** The same version with more entries counts as newer, and its upload destroys the store. */
  lemma SameVersionLoses(s: State, job: Job)
    requires Inv(s) && s.phase.Idle? && s.record.Some? && job.slots > 0
    requires job.ver == s.record.value.ver && job.entries > s.record.value.entries
    ensures Enabled(s, Begin(job)) && !Readable(Published(s, job))
  {
    var k := Slot(job.ver, 0);
    assert k in s.kv;
    PublishedExactly(s, job);
  }

  /** A first attempt that stops after one slot: the second one, with nothing failing, loses it. */
  lemma RetryLoses(job: Job) returns (es: seq<Event>, s: State)
    requires job.slots > 0
    ensures IsRun(EMPTY, es, s) && s.record.Some? && s.record.value.ver == job.ver && !Readable(s)
  {
    var s1 := Step(EMPTY, Begin(job));
    var s2 := Step(s1, Put(true));
    var s3 := Step(s2, Stop);
    assert Slot(job.ver, 0) in s3.kv;
    OneStep(EMPTY, Begin(job));
    OneStep(s1, Put(true));
    OneStep(s2, Stop);
    RunsChain(s1, [Put(true)], s2, [Stop], s3);
    RunsChain(EMPTY, [Begin(job)], s1, [Put(true)] + [Stop], s3);
    var first := [Begin(job)] + ([Put(true)] + [Stop]);
    var second := PublishedIsRun(s3, job);
    PublishedExactly(s3, job);
    s := Published(s3, job);
    es := first + second;
    RunsChain(EMPTY, first, s3, second, s);
  }

  // -- One registration, step by step

  /** The steps of one registration from its beginning on. */
  ghost predicate IsRegistration(s: State, job: Job, es: seq<Event>, s': State) {
    && es != [] && es[0] == Begin(job) && IsRun(s, es, s')
    && forall i :: 0 < i < |es| ==> !es[i].Begin?
  }

  lemma {:induction false} NoBeginIsFresh(s: State, es: seq<Event>, s': State)
    requires IsRun(s, es, s') && forall i :: 0 <= i < |es| ==> !es[i].Begin?
    ensures IsFreshRun(s, es, s')
    decreases |es|
  {
    if es != [] {
      NoBeginIsFresh(Step(s, es[0]), es[1..], s');
    }
  }

  /** Just after the switch: the new version with whatever its store held before. */
  lemma SwitchedIsRegistration(s: State, job: Job) returns (es: seq<Event>)
    requires Enabled(s, Begin(job))
    ensures IsRegistration(s, job, es, Step(WrittenTo(s, job, job.slots), Apply(true)))
  {
    var puts := BeginsWriting(s, job, job.slots);
    var s2 := WrittenTo(s, job, job.slots);
    OneStep(s2, Apply(true));
    RunsChain(s, [Begin(job)] + puts, s2, [Apply(true)], Step(s2, Apply(true)));
    es := ([Begin(job)] + puts) + [Apply(true)];
  }

  lemma PublishedIsRegistration(s: State, job: Job) returns (es: seq<Event>)
    requires Enabled(s, Begin(job))
    ensures IsRegistration(s, job, es, Published(s, job))
  {
    var switch := SwitchedIsRegistration(s, job);
    var s3 := Step(WrittenTo(s, job, job.slots), Apply(true));
    var removes := AllRemoved(s3, s.kv.Keys);
    RunsChain(s, switch, s3, removes, Published(s, job));
    es := switch + removes;
  }

  lemma AllRemoved(s: State, left: set<Key>) returns (es: seq<Event>)
    requires s.phase == Done(Deleting(left))
    ensures IsRun(s, es, State(s.kv - left, s.record, Idle))
    ensures forall i :: 0 <= i < |es| ==> !es[i].Begin?
  {
    es := RemovesRun(s, left, _ => true);
    assert Removed(left, _ => true) == left;
  }

  /** Some run of a registration that finds keys of its version leaves the record unreadable. */
  lemma StaleKeysShow(s: State, job: Job, k: Key) returns (es: seq<Event>, s': State)
    requires Inv(s) && Enabled(s, Begin(job)) && k in s.kv && k.ver == job.ver
    ensures IsRegistration(s, job, es, s') && !Readable(s')
  {
    if k.i < job.slots {
      es := PublishedIsRegistration(s, job);
      s' := Published(s, job);
      PublishedExactly(s, job);
    } else {
      es := SwitchedIsRegistration(s, job);
      s' := Step(WrittenTo(s, job, job.slots), Apply(true));
      AllPutMeans(s.kv, job, job.slots, k);
      assert Slot(job.ver, k.i) == k && k in s'.kv;
    }
  }

  ghost predicate StaysReadable(s: State, job: Job) {
    forall es, s' :: IsRegistration(s, job, es, s') ==> Readable(s')
  }

  /** A registration can be cut short anywhere and leave the record readable if and only if no
      key of its version was there when it began. */
  lemma StaysReadableExactly(s: State, job: Job)
    requires Inv(s) && Enabled(s, Begin(job))
    ensures StaysReadable(s, job) <==> Fresh(s.kv, job.ver)
  {
    if Fresh(s.kv, job.ver) {
      forall es, s' | IsRegistration(s, job, es, s')
        ensures Readable(s')
      {
        StepKeepsInv(s, es[0]);
        NoBeginIsFresh(Step(s, es[0]), es[1..], s');
        FreshRunsKeepInv(Step(s, es[0]), es[1..], s');
      }
    } else {
      var k :| k in s.kv && k.ver == job.ver;
      var es, s' := StaleKeysShow(s, job, k);
    }
  }

  // -- The registration as written

  class Cluster {
    var kv: map<Key, nat>
    var record: Option<Version>

    ghost function Value(): State
      reads this
    {
      State(kv, record, Idle)
    }

    constructor ()
      ensures Value() == EMPTY
    {
      kv, record := map[], None;
    }

    method Delete(keys: set<Key>, delOk: Key -> bool)
      modifies this`kv
      ensures kv == old(kv) - Removed(keys, delOk)
    {
      var left := keys;
      ghost var gone := {};
      while left != {}
        invariant left <= keys && gone == Removed(keys - left, delOk) && kv == old(kv) - gone
        decreases left
      {
        var k :| k in left;
        left := left - {k};
        if delOk(k) {
          kv := kv - {k};
          gone := gone + {k};
        }
      }
      assert keys - left == keys;
    }

    /** The outcome is decided by the store's answers, and what is left behind by the outcome;
        each is an end of a run of the machine. */
    method Register(job: Job, putOk: nat -> bool, txn: Option<bool>, delOk: Key -> bool) returns (out: Outcome)
      modifies this
      ensures out == OutcomeOf(old(record), job, putOk, txn)
      ensures out == Kept <==> old(record).Some? && job.ver <= old(record).value.ver && job.entries <= old(record).value.entries
      ensures out == Written ==> record == Some(Version(job.ver, job.entries, job.slots, job.upload))
      ensures out != Written ==> record == old(record)
      ensures Value() == Registered(old(Value()), job, putOk, txn, delOk)
      ensures out != Kept && job.slots > 0 ==> exists es :: IsRun(old(Value()), es, Value())
    {
      if record.Some? && job.ver <= record.value.ver && job.entries <= record.value.entries {
        return Kept;
      }
      out := WriteDb(job, putOk, txn, delOk);
      if job.slots > 0 {
        ghost var es := RegisteredIsRun(old(Value()), job, putOk, txn, delOk);
      }
    }

    method WriteDb(job: Job, putOk: nat -> bool, txn: Option<bool>, delOk: Key -> bool) returns (out: Outcome)
      requires Newer(record, job)
      modifies this
      ensures out == OutcomeOf(old(record), job, putOk, txn)
      ensures Value() == Registered(old(Value()), job, putOk, txn, delOk)
    {
      var oldKeys := kv.Keys;
      for i := 0 to job.slots
        invariant kv == AllPut(old(kv), job, i) && record == old(record)
        invariant FirstFailure(putOk, i).None?
      {
        if !putOk(i) {
          FailureIsFirst(putOk, i, job.slots);
          Delete(StoreKeys(kv, job.ver), delOk);
          return PutFailed;
        }
        kv := kv[Slot(job.ver, i) := job.upload];
      }
      if txn.None? {
        Delete(StoreKeys(kv, job.ver), delOk);
        return TxnFailed;
      } else if !txn.value {
        return Refused;
      }
      record := Some(Version(job.ver, job.entries, job.slots, job.upload));
      Delete(oldKeys, delOk);
      return Written;
    }
  }

  lemma FailureIsFirst(putOk: nat -> bool, i: nat, n: nat)
    requires i < n && FirstFailure(putOk, i).None? && !putOk(i)
    ensures FirstFailure(putOk, n) == Some(i)
  {
    FirstFailureMeans(putOk, i);
    FirstFailureMeans(putOk, n);
  }
}
