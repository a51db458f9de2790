/** The agent's connection map (agent/timer.go): records are merged by key, taken out in lists
    for the controller, and put back when the controller asks for them again.  Each tick takes its
    list in a goroutine of its own, so records and further lists keep coming while lists are on
    their way, and these are answered in any order. */
module ConnectionMap {
  import opened Aggregation
  import opened Basics

  const CONNECTION_MAP_MAX: nat := 2048 * 16
  const CONNECTION_LIST_MAX: nat := 2048 * 4
  const CHECK_APP: nat := 3

  /** The key of a record, by protocol. */
  datatype Key =
    | TcpUdp(clientIP: nat, serverIP: nat, serverPort: nat, ipProto: nat, ingress: bool, policyId: nat, application: nat)
    | OtherProto(clientIP: nat, serverIP: nat, ingress: bool, policyId: nat, application: nat)

  /** `mesh`: the entry's network is the proxy mesh. */
  datatype Entry = Entry(conn: Conn, mesh: bool)

  /** A record with its key; `meshMac`: it was seen on a mesh interface; `onMesh`: the network
      found for its address is the mesh; `host`: it comes from the host's own sockets. */
  datatype Update = Update(key: Key, conn: Conn, meshMac: bool, onMesh: bool, host: bool)

  type Table = map<Key, Entry>

  /** The records of each key, in order. */
  type History = Key -> seq<Conn>

  function Held(m: Table, k: Key): seq<Conn> {
    if k in m then [m[k].conn] else []
  }

  function Noted(h: History, m: Table): History {
    k => h(k) + Held(m, k)
  }

  /** An entry exists and, but for host records, is of the same side (`realSameConn`). */
  predicate Merges(m: Table, u: Update) {
    u.key in m && (u.host || m[u.key].mesh == u.meshMac)
  }

  predicate Admits(m: Table, u: Update) {
    |m| < CONNECTION_MAP_MAX || (!u.host && u.conn.action > CHECK_APP)
  }

  function NewEntry(u: Update): Entry {
    Entry(u.conn, (!u.host && u.meshMac) || u.onMesh)
  }

  /** What a record adds to an entry: a host record leaves the entry's threat alone. */
  function Added(u: Update): Conn {
    if u.host then u.conn.(severity := 0, threat := 0) else u.conn
  }

  /** What is taken in of a record. */
  function Counted(m: Table, u: Update): Conn {
    if Merges(m, u) then Added(u) else u.conn
  }

  function Updated(m: Table, u: Update): Table {
    if Merges(m, u) then m[u.key := m[u.key].(conn := Merge(m[u.key].conn, Added(u)))]
    else if Admits(m, u) then m[u.key := NewEntry(u)]
    else m
  }

  /** How many of a returned list are put back; negative when the map outgrew its limit. */
  function Keep(inMap: nat, inList: nat): int {
    if inMap + inList <= CONNECTION_MAP_MAX then inList else CONNECTION_MAP_MAX - inMap
  }

  // -- The map with its reporters, as a machine

  /** `flights`: the lists taken out and not yet answered for, in the order taken. */
  datatype State = State(conns: Table, flights: seq<Table>,
                            recorded: History, delivered: History, lost: History)

  datatype Event = Record(u: Update) | Take(keys: set<Key>) | Delivered(i: nat) | Resend(i: nat, kept: set<Key>)

  function Without<T>(s: seq<T>, i: nat): seq<T>
    requires i < |s|
  {
    s[..i] + s[i + 1..]
  }

  /** Which keys a list takes, which of them fit when put back, and which list is answered next is
      not for the map to say. */
  predicate Enabled(s: State, e: Event) {
    match e
    case Record(_) => true
    case Take(keys) => keys <= s.conns.Keys && |keys| == Least(|s.conns|, CONNECTION_LIST_MAX)
    case Delivered(i) => i < |s.flights|
    case Resend(i, kept) => i < |s.flights| && kept <= s.flights[i].Keys && |kept| == Keep(|s.conns|, |s.flights[i]|)
  }

  /** Putting some list back slices it to a negative length. */
  predicate Panics(s: State) {
    exists i :: 0 <= i < |s.flights| && Keep(|s.conns|, |s.flights[i]|) < 0
  }

  function Part(m: Table, keys: set<Key>): Table
    requires keys <= m.Keys
  {
    map k | k in keys :: m[k]
  }

  /** What putting part of a list back throws away: the rest of it, and what it overwrites. */
  function Dropped(m: Table, list: Table, kept: set<Key>): Table {
    map k | k in list && (k !in kept || k in m) :: if k in kept then m[k] else list[k]
  }

  /** What an event throws away. */
  function LostBy(s: State, e: Event): Table
    requires Enabled(s, e)
  {
    match e
    case Record(u) =>
      if Merges(s.conns, u) then map[]
      else if !Admits(s.conns, u) then map[u.key := NewEntry(u)]
      else if u.key in s.conns then map[u.key := s.conns[u.key]]
      else map[]
    case Resend(i, kept) => Dropped(s.conns, s.flights[i], kept)
    case _ => map[]
  }

  function Restored(s: State, i: nat, kept: set<Key>): State
    requires i < |s.flights| && kept <= s.flights[i].Keys
  {
    s.(conns := s.conns + Part(s.flights[i], kept), flights := Without(s.flights, i),
       lost := Noted(s.lost, Dropped(s.conns, s.flights[i], kept)))
  }

  /** A list without entries is not sent. */
  function Step(s: State, e: Event): State
    requires Enabled(s, e)
  {
    match e
    case Record(u) =>
      s.(conns := Updated(s.conns, u), lost := Noted(s.lost, LostBy(s, e)),
         recorded := Noted(s.recorded, map[u.key := Entry(Counted(s.conns, u), false)]))
    case Take(keys) =>
      if keys == {} then s else s.(conns := s.conns - keys, flights := s.flights + [Part(s.conns, keys)])
    case Delivered(i) =>
      s.(flights := Without(s.flights, i), delivered := Noted(s.delivered, s.flights[i]))
    case Resend(i, kept) => Restored(s, i, kept)
  }

  // -- One key's share of the state

  datatype View = View(recorded: seq<Conn>, delivered: seq<Conn>, flight: seq<seq<Conn>>, held: seq<Conn>, lost: seq<Conn>)

  /** What each list holds of a key. */
  function InLists(fs: seq<Table>, k: Key): (r: seq<seq<Conn>>)
    ensures |r| == |fs| && forall j :: 0 <= j < |fs| ==> r[j] == Held(fs[j], k)
  {
    seq(|fs|, j requires 0 <= j < |fs| => Held(fs[j], k))
  }

  function ViewOf(s: State, k: Key): View {
    View(s.recorded(k), s.delivered(k), InLists(s.flights, k), Held(s.conns, k), s.lost(k))
  }

  /** What an event does to a key; `Passed`: a list is taken that does not have it. */
  datatype Move = Stay | Joins(c: Conn) | Enters(c: Conn) | Refused(c: Conn) | Out | Passed
                | Sent(i: nat) | Back(i: nat) | Forgotten(i: nat)

  function MoveOf(s: State, e: Event, k: Key): Move {
    match e
    case Record(u) =>
      if u.key != k then Stay
      else if Merges(s.conns, u) then Joins(Added(u))
      else if Admits(s.conns, u) then Enters(u.conn)
      else Refused(u.conn)
    case Take(keys) => if keys == {} then Stay else if k in keys then Out else Passed
    case Delivered(i) => Sent(i)
    case Resend(i, kept) => if k in kept then Back(i) else Forgotten(i)
  }

  predicate Fits(v: View, m: Move) {
    && |v.held| <= 1 && (forall j :: 0 <= j < |v.flight| ==> |v.flight[j]| <= 1)
    && (m.Joins? ==> v.held != []) && (m.Sent? || m.Back? || m.Forgotten? ==> m.i < |v.flight|)
  }

  function Moved(v: View, m: Move): View
    requires Fits(v, m)
  {
    match m
    case Stay => v
    case Joins(c) => v.(recorded := v.recorded + [c], held := [Merge(v.held[0], c)])
    case Enters(c) => v.(recorded := v.recorded + [c], held := [c], lost := v.lost + v.held)
    case Refused(c) => v.(recorded := v.recorded + [c], lost := v.lost + [c])
    case Out => v.(flight := v.flight + [v.held], held := [])
    case Passed => v.(flight := v.flight + [[]])
    case Sent(i) => v.(delivered := v.delivered + v.flight[i], flight := Without(v.flight, i))
    case Back(i) => v.(held := v.flight[i], flight := Without(v.flight, i), lost := v.lost + v.held)
    case Forgotten(i) => v.(lost := v.lost + v.flight[i], flight := Without(v.flight, i))
  }

  lemma RecordElsewhere(s: State, u: Update, k: Key)
    requires k != u.key
    ensures ViewOf(Step(s, Record(u)), k) == ViewOf(s, k)
  {
    var s' := Step(s, Record(u));
    assert Held(map[u.key := Entry(Counted(s.conns, u), false)], k) == [] && Held(LostBy(s, Record(u)), k) == [];
    assert s'.recorded(k) == s.recorded(k) + [] && s'.lost(k) == s.lost(k) + [];
  }

  lemma RecordIsMove(s: State, u: Update)
    ensures Fits(ViewOf(s, u.key), MoveOf(s, Record(u), u.key))
    ensures ViewOf(Step(s, Record(u)), u.key) == Moved(ViewOf(s, u.key), MoveOf(s, Record(u), u.key))
  {
    var s', k := Step(s, Record(u)), u.key;
    assert Held(map[k := Entry(Counted(s.conns, u), false)], k) == [Counted(s.conns, u)];
    assert s'.recorded(k) == s.recorded(k) + [Counted(s.conns, u)];
    assert s'.lost(k) == s.lost(k) + Held(LostBy(s, Record(u)), k);
  }

  lemma TakeIsMove(s: State, keys: set<Key>, k: Key)
    requires Enabled(s, Take(keys))
    ensures ViewOf(Step(s, Take(keys)), k) == Moved(ViewOf(s, k), MoveOf(s, Take(keys), k))
  {
    if keys != {} {
      var list := Part(s.conns, keys);
      assert InLists(s.flights + [list], k) == InLists(s.flights, k) + [Held(list, k)];
    }
  }

  lemma PutBack(m: Table, list: Table, kept: set<Key>, k: Key)
    requires kept <= list.Keys
    ensures Held(m + Part(list, kept), k) == if k in kept then Held(list, k) else Held(m, k)
    ensures Held(Dropped(m, list, kept), k) == if k in kept then Held(m, k) else Held(list, k)
  {
  }

  lemma ListsWithout(fs: seq<Table>, i: nat, k: Key)
    requires i < |fs|
    ensures InLists(Without(fs, i), k) == Without(InLists(fs, k), i)
  {
  }

  lemma ResendIsMove(s: State, i: nat, kept: set<Key>, k: Key)
    requires i < |s.flights| && kept <= s.flights[i].Keys
    ensures ViewOf(Restored(s, i, kept), k) == Moved(ViewOf(s, k), if k in kept then Back(i) else Forgotten(i))
  {
    PutBack(s.conns, s.flights[i], kept, k);
    ListsWithout(s.flights, i, k);
    assert Restored(s, i, kept).lost(k) == s.lost(k) + Held(Dropped(s.conns, s.flights[i], kept), k);
  }

  lemma DeliveredIsMove(s: State, i: nat, k: Key)
    requires i < |s.flights|
    ensures ViewOf(Step(s, Delivered(i)), k) == Moved(ViewOf(s, k), Sent(i))
  {
    ListsWithout(s.flights, i, k);
    assert Step(s, Delivered(i)).delivered(k) == s.delivered(k) + Held(s.flights[i], k);
  }

  lemma StepIsMove(s: State, e: Event, k: Key)
    requires Enabled(s, e)
    ensures Fits(ViewOf(s, k), MoveOf(s, e, k))
    ensures ViewOf(Step(s, e), k) == Moved(ViewOf(s, k), MoveOf(s, e, k))
  {
    match e {
      case Record(u) =>
        if u.key == k {
          RecordIsMove(s, u);
        } else {
          RecordElsewhere(s, u, k);
        }
      case Take(keys) => TakeIsMove(s, keys, k);
      case Delivered(i) => DeliveredIsMove(s, i, k);
      case Resend(i, kept) => ResendIsMove(s, i, kept, k);
    }
  }

  // -- Nothing is lost unseen or counted twice

  function SumOf(cs: seq<Conn>, x: Counter): nat {
    if cs == [] then 0 else SumOf(cs[..|cs| - 1], x) + CountOf(cs[|cs| - 1], x)
  }

  lemma SumSnoc(cs: seq<Conn>, b: seq<Conn>, x: Counter)
    requires |b| <= 1
    ensures SumOf(cs + b, x) == SumOf(cs, x) + SumOf(b, x)
  {
    if b == [] {
      assert cs + b == cs;
    } else {
      assert (cs + b)[..|cs|] == cs && b[..0] == [];
    }
  }

  lemma SumJoined(d: Conn, c: Conn, x: Counter)
    ensures SumOf([Merge(d, c)], x) == SumOf([d], x) + SumOf([c], x)
  {
    assert [c][..0] == [] && [d][..0] == [] && [Merge(d, c)][..0] == [];
  }

  function SumAll(fs: seq<seq<Conn>>, x: Counter): nat {
    if fs == [] then 0 else SumAll(fs[..|fs| - 1], x) + SumOf(fs[|fs| - 1], x)
  }

  lemma SumAllSnoc(fs: seq<seq<Conn>>, f: seq<Conn>, x: Counter)
    ensures SumAll(fs + [f], x) == SumAll(fs, x) + SumOf(f, x)
  {
    assert (fs + [f])[..|fs|] == fs;
  }

  lemma {:induction false} SumWithout(fs: seq<seq<Conn>>, i: nat, x: Counter)
    requires i < |fs|
    ensures SumAll(fs, x) == SumAll(Without(fs, i), x) + SumOf(fs[i], x)
    decreases |fs|
  {
    var init, last := fs[..|fs| - 1], fs[|fs| - 1];
    if i == |fs| - 1 {
      assert Without(fs, i) == init;
    } else {
      assert Without(fs, i) == Without(init, i) + [last];
      SumAllSnoc(Without(init, i), last, x);
      SumWithout(init, i, x);
    }
  }

  /** Every counter of every record is delivered, on its way, in the map, or known to be lost. */
  ghost predicate Balanced(v: View, x: Counter) {
    SumOf(v.recorded, x) == SumOf(v.delivered, x) + SumAll(v.flight, x) + SumOf(v.held, x) + SumOf(v.lost, x)
  }

  lemma MoveBalances(v: View, m: Move, x: Counter)
    requires Balanced(v, x) && Fits(v, m)
    ensures Balanced(Moved(v, m), x)
  {
    match m {
      case Joins(c) =>
        SumSnoc(v.recorded, [c], x);
        SumJoined(v.held[0], c, x);
        assert v.held == [v.held[0]];
      case Enters(c) =>
        SumSnoc(v.recorded, [c], x);
        SumSnoc(v.lost, v.held, x);
      case Refused(c) =>
        SumSnoc(v.recorded, [c], x);
        SumSnoc(v.lost, [c], x);
      case Out => SumAllSnoc(v.flight, v.held, x);
      case Passed => SumAllSnoc(v.flight, [], x);
      case Sent(i) =>
        SumWithout(v.flight, i, x);
        SumSnoc(v.delivered, v.flight[i], x);
      case Back(i) =>
        SumWithout(v.flight, i, x);
        SumSnoc(v.lost, v.held, x);
      case Forgotten(i) =>
        SumWithout(v.flight, i, x);
        SumSnoc(v.lost, v.flight[i], x);
      case Stay =>
    }
  }

  // -- Every run

  ghost predicate IsRun(s: State, es: seq<Event>, s': State)
    decreases |es|
  {
    if es == [] then s' == s else Enabled(s, es[0]) && IsRun(Step(s, es[0]), es[1..], s')
  }

  function Init(): State {
    State(map[], [], _ => [], _ => [], _ => [])
  }

  lemma {:induction false} RunBalances(s: State, es: seq<Event>, s': State, k: Key, x: Counter)
    requires Balanced(ViewOf(s, k), x) && IsRun(s, es, s')
    ensures Balanced(ViewOf(s', k), x)
    decreases |es|
  {
    if es != [] {
      StepIsMove(s, es[0], k);
      MoveBalances(ViewOf(s, k), MoveOf(s, es[0], k), x);
      RunBalances(Step(s, es[0]), es[1..], s', k, x);
    }
  }

  /** Key by key, in every run: the counters of what was recorded are those delivered, in all the
      lists in flight, in the map and lost. */
  lemma EveryRunAccounts(es: seq<Event>, s: State, k: Key, x: Counter)
    requires IsRun(Init(), es, s)
    ensures SumOf(s.recorded(k), x) ==
            SumOf(s.delivered(k), x) + SumAll(InLists(s.flights, k), x) + SumOf(Held(s.conns, k), x) + SumOf(s.lost(k), x)
  {
    RunBalances(Init(), es, s, k, x);
  }

  // -- When a step loses something

  /** What a caller can see before the step. */
  predicate Harmless(s: State, e: Event)
    requires Enabled(s, e)
  {
    match e
    case Record(u) =>
      if u.key in s.conns then u.host || s.conns[u.key].mesh == u.meshMac
      else |s.conns| < CONNECTION_MAP_MAX || (!u.host && u.conn.action > CHECK_APP)
    case Resend(i, _) => s.flights[i].Keys !! s.conns.Keys && |s.conns| + |s.flights[i]| <= CONNECTION_MAP_MAX
    case _ => true
  }

  lemma SubsetOfSize(a: set<Key>, b: set<Key>)
    requires a <= b && |a| == |b|
    ensures a == b
  {
    assert |b - a| == |b| - |a|;
    assert b == a + (b - a);
  }

  lemma PutBackLosesExactly(m: Table, list: Table, kept: set<Key>)
    requires kept <= list.Keys && |kept| == Keep(|m|, |list|)
    ensures Dropped(m, list, kept) == map[] <==> list.Keys !! m.Keys && |m| + |list| <= CONNECTION_MAP_MAX
  {
    var lost := Dropped(m, list, kept);
    if list.Keys !! m.Keys && |m| + |list| <= CONNECTION_MAP_MAX {
      SubsetOfSize(kept, list.Keys);
      assert lost.Keys == {};
    }
    if lost == map[] {
      assert forall k | k in list :: k !in lost;
      assert kept == list.Keys;
      assert list.Keys !! m.Keys;
    }
  }

  /** A step throws something away exactly when a record collides with the other side of a
      mesh or finds no room, or a list comes back to occupied keys or a map too full for it. */
  lemma LosesExactly(s: State, e: Event)
    requires Enabled(s, e)
    ensures LostBy(s, e) == map[] <==> Harmless(s, e)
  {
    var lost := LostBy(s, e);
    match e {
      case Record(u) =>
        assert !Harmless(s, e) ==> u.key in lost;
      case Resend(i, kept) => PutBackLosesExactly(s.conns, s.flights[i], kept);
      case _ =>
    }
  }

  ghost predicate AllHarmless(s: State, es: seq<Event>)
    decreases |es|
  {
    es != [] ==> Enabled(s, es[0]) && Harmless(s, es[0]) && AllHarmless(Step(s, es[0]), es[1..])
  }

  predicate NothingLost(s: State, k: Key) {
    s.lost(k) == []
  }

  /** What a step loses of a key is noted. */
  lemma LossIsNoted(s: State, e: Event, k: Key)
    requires Enabled(s, e)
    ensures Step(s, e).lost(k) == s.lost(k) + Held(LostBy(s, e), k)
  {
    if e.Take? || e.Delivered? {
      assert s.lost(k) + [] == s.lost(k);
    }
  }

  lemma {:induction false} HarmlessRunLosesNothing(s: State, es: seq<Event>, s': State, k: Key)
    requires IsRun(s, es, s') && AllHarmless(s, es) && NothingLost(s, k)
    ensures NothingLost(s', k)
    decreases |es|
  {
    if es != [] {
      LosesExactly(s, es[0]);
      LossIsNoted(s, es[0], k);
      HarmlessRunLosesNothing(Step(s, es[0]), es[1..], s', k);
    }
  }

  lemma {:induction false} LossesStay(s: State, es: seq<Event>, s': State, k: Key)
    requires IsRun(s, es, s') && NothingLost(s', k)
    ensures NothingLost(s, k)
    decreases |es|
  {
    if es != [] {
      LossesStay(Step(s, es[0]), es[1..], s', k);
      LossIsNoted(s, es[0], k);
    }
  }

  lemma {:induction false} LossShows(s: State, es: seq<Event>, s': State)
    requires IsRun(s, es, s') && forall k :: NothingLost(s', k)
    ensures AllHarmless(s, es)
    decreases |es|
  {
    if es != [] {
      var e, s1 := es[0], Step(s, es[0]);
      LossShows(s1, es[1..], s');
      LosesExactly(s, e);
      if LostBy(s, e) != map[] {
        assert LostBy(s, e).Keys != {};
        var k :| k in LostBy(s, e);
        LossesStay(s1, es[1..], s', k);
        assert NothingLost(s', k);
        LossIsNoted(s, e, k);
      }
    }
  }

  /** A run keeps every record of every key, delivered, in flight or in the map, if and only if
      each of its steps is harmless. */
  lemma RunLosesExactly(es: seq<Event>, s: State)
    requires IsRun(Init(), es, s)
    ensures (forall k :: NothingLost(s, k)) <==> AllHarmless(Init(), es)
  {
    if AllHarmless(Init(), es) {
      forall k
        ensures NothingLost(s, k)
      {
        HarmlessRunLosesNothing(Init(), es, s, k);
      }
    }
    if forall k :: NothingLost(s, k) {
      LossShows(Init(), es, s);
    }
  }

  lemma HarmlessRunsConserve(es: seq<Event>, s: State, k: Key, x: Counter)
    requires IsRun(Init(), es, s) && AllHarmless(Init(), es)
    ensures SumOf(s.recorded(k), x) ==
            SumOf(s.delivered(k), x) + SumAll(InLists(s.flights, k), x) + SumOf(Held(s.conns, k), x)
  {
    EveryRunAccounts(es, s, k, x);
    HarmlessRunLosesNothing(Init(), es, s, k);
  }

  // -- Records of connections that keep to their side

  function Recorded(s: State, us: seq<Update>): State
    decreases |us|
  {
    if us == [] then s else Step(Recorded(s, us[..|us| - 1]), Record(us[|us| - 1]))
  }

  function KeysOf(us: seq<Update>): set<Key> {
    if us == [] then {} else KeysOf(us[..|us| - 1]) + {us[|us| - 1].key}
  }

  function RecordsOf(us: seq<Update>, k: Key): seq<Conn> {
    if us == [] then []
    else RecordsOf(us[..|us| - 1], k) + if us[|us| - 1].key == k then [us[|us| - 1].conn] else []
  }

  /** Records of the data path, each connection seen on the mesh always or never. */
  predicate OneSided(us: seq<Update>, onMesh: Key -> bool) {
    forall i :: 0 <= i < |us| ==> !us[i].host && us[i].meshMac == onMesh(us[i].key) && (us[i].onMesh ==> us[i].meshMac)
  }

  /** The map holds the merge of each connection's records, and nothing is lost. */
  ghost predicate HoldsAll(s: State, us: seq<Update>, onMesh: Key -> bool, k: Key) {
    && (k in s.conns <==> k in KeysOf(us)) && (k in KeysOf(us) <==> RecordsOf(us, k) != [])
    && (k in s.conns ==> s.conns[k] == Entry(MergeAll(RecordsOf(us, k)), onMesh(k)))
    && s.lost(k) == [] && s.recorded(k) == RecordsOf(us, k)
  }

  lemma MergeSnoc(cs: seq<Conn>, c: Conn)
    ensures MergeAll(cs + [c]) == if cs == [] then c else Merge(MergeAll(cs), c)
  {
    assert (cs + [c])[..|cs|] == cs;
  }

  lemma OtherKeyStays(s: State, u: Update, k: Key)
    requires k != u.key
    ensures k in Step(s, Record(u)).conns <==> k in s.conns
    ensures k in s.conns ==> Step(s, Record(u)).conns[k] == s.conns[k]
  {
  }

  lemma KeysSnoc(us: seq<Update>, u: Update)
    ensures KeysOf(us + [u]) == KeysOf(us) + {u.key}
  {
    assert (us + [u])[..|us|] == us;
  }

  lemma RecordsSnoc(us: seq<Update>, u: Update, k: Key)
    ensures RecordsOf(us + [u], k) == RecordsOf(us, k) + if u.key == k then [u.conn] else []
  {
    assert (us + [u])[..|us|] == us;
  }

  lemma OwnEntry(m: Table, u: Update, cs: seq<Conn>, onMesh: Key -> bool)
    requires !u.host && u.meshMac == onMesh(u.key) && (u.onMesh ==> u.meshMac)
    requires u.key in m <==> cs != []
    requires u.key in m ==> m[u.key] == Entry(MergeAll(cs), onMesh(u.key))
    requires u.key in m || |m| < CONNECTION_MAP_MAX
    ensures u.key in Updated(m, u) && Updated(m, u)[u.key] == Entry(MergeAll(cs + [u.conn]), onMesh(u.key))
  {
    MergeSnoc(cs, u.conn);
  }

  lemma OwnHolds(s: State, us: seq<Update>, u: Update, onMesh: Key -> bool)
    requires HoldsAll(s, us, onMesh, u.key) && OneSided([u], onMesh)
    requires u.key in s.conns || |s.conns| < CONNECTION_MAP_MAX
    ensures HoldsAll(Step(s, Record(u)), us + [u], onMesh, u.key)
  {
    assert [u][0] == u;
    KeysSnoc(us, u);
    RecordsSnoc(us, u, u.key);
    OwnEntry(s.conns, u, RecordsOf(us, u.key), onMesh);
    LossIsNoted(s, Record(u), u.key);
    RecordIsMove(s, u);
    assert s.lost(u.key) + [] == s.lost(u.key);
  }

  lemma OtherHolds(s: State, us: seq<Update>, u: Update, onMesh: Key -> bool, k: Key)
    requires HoldsAll(s, us, onMesh, k) && k != u.key
    ensures HoldsAll(Step(s, Record(u)), us + [u], onMesh, k)
  {
    KeysSnoc(us, u);
    RecordsSnoc(us, u, k);
    assert RecordsOf(us, k) + [] == RecordsOf(us, k);
    RecordElsewhere(s, u, k);
    OtherKeyStays(s, u, k);
  }

  lemma RoomLeft(s: State, us: seq<Update>, u: Update, onMesh: Key -> bool)
    requires (forall k :: HoldsAll(s, us, onMesh, k)) && |KeysOf(us + [u])| <= CONNECTION_MAP_MAX
    ensures u.key in s.conns || |s.conns| < CONNECTION_MAP_MAX
  {
    KeysSnoc(us, u);
    assert s.conns.Keys == KeysOf(us) by {
      forall k
        ensures k in s.conns.Keys <==> k in KeysOf(us)
      {
        assert HoldsAll(s, us, onMesh, k);
      }
    }
    if u.key !in s.conns {
      assert KeysOf(us + [u]) == s.conns.Keys + {u.key};
    }
  }

  lemma FewerKeys(us: seq<Update>)
    requires us != []
    ensures |KeysOf(us[..|us| - 1])| <= |KeysOf(us)|
  {
    var a, b := KeysOf(us[..|us| - 1]), KeysOf(us);
    assert a <= b;
    assert |b - a| == |b| - |a|;
  }

  /** Records that come before a list is taken, each connection keeping to its side of the mesh and
      no more connections than the map holds: nothing is lost, and every connection is held as the
      merge of its records. */
  lemma {:induction false} OneSidedRecordsMerge(us: seq<Update>, onMesh: Key -> bool)
    requires OneSided(us, onMesh) && |KeysOf(us)| <= CONNECTION_MAP_MAX
    ensures forall k :: HoldsAll(Recorded(Init(), us), us, onMesh, k)
    decreases |us|
  {
    if us != [] {
      var init, u := us[..|us| - 1], us[|us| - 1];
      FewerKeys(us);
      OneSidedRecordsMerge(init, onMesh);
      var s := Recorded(Init(), init);
      assert us == init + [u];
      RoomLeft(s, init, u, onMesh);
      assert OneSided([u], onMesh);
      forall k
        ensures HoldsAll(Recorded(Init(), us), us, onMesh, k)
      {
        if k == u.key {
          OwnHolds(s, init, u, onMesh);
        } else {
          OtherHolds(s, init, u, onMesh, k);
        }
      }
    }
  }

  /** For one: a connection seen on one side of a mesh and then on the other. */
  lemma OtherSideLoses(k: Key, c1: Conn, c2: Conn) returns (es: seq<Event>, s: State)
    ensures IsRun(Init(), es, s) && s.lost(k) == [c1] && Held(s.conns, k) == [c2]
  {
    var u1, u2 := Update(k, c1, false, false, false), Update(k, c2, true, false, false);
    var s1 := Step(Init(), Record(u1));
    assert s1.conns == map[k := Entry(c1, false)];
    s := Step(s1, Record(u2));
    assert LostBy(s1, Record(u2)) == map[k := Entry(c1, false)];
    assert s1.lost(k) == [] && s.lost(k) == s1.lost(k) + [c1];
    es := [Record(u1), Record(u2)];
    assert es[1..] == [Record(u2)] && es[1..][1..] == [];
  }

  /** And for another: one whose address is on the mesh but that is not seen there never merges. */
  lemma MeshAddressLoses(k: Key, c1: Conn, c2: Conn) returns (es: seq<Event>, s: State)
    ensures IsRun(Init(), es, s) && s.lost(k) == [c1] && Held(s.conns, k) == [c2]
  {
    var u1, u2 := Update(k, c1, false, true, false), Update(k, c2, false, true, false);
    var s1 := Step(Init(), Record(u1));
    assert s1.conns == map[k := Entry(c1, true)];
    s := Step(s1, Record(u2));
    assert LostBy(s1, Record(u2)) == map[k := Entry(c1, true)];
    assert s1.lost(k) == [] && s.lost(k) == s1.lost(k) + [c1];
    es := [Record(u1), Record(u2)];
    assert es[1..] == [Record(u2)] && es[1..][1..] == [];
  }

  // -- The limit, and what happens beyond it

  predicate Moderate(e: Event) {
    e.Record? ==> e.u.host || e.u.conn.action <= CHECK_APP
  }

  lemma JoinedSize(m: Table, p: Table)
    ensures |m + p| <= |m| + |p|
  {
    assert (m + p).Keys == m.Keys + p.Keys;
  }

  lemma WithoutSize(m: Table, keys: set<Key>)
    ensures |m - keys| <= |m|
  {
    assert (m - keys).Keys == m.Keys - keys;
  }

  /** Putting a list back goes wrong exactly when the map holds more than its limit. */
  lemma PanicsExactly(s: State)
    ensures Panics(s) <==> s.flights != [] && |s.conns| > CONNECTION_MAP_MAX
  {
    if s.flights != [] && |s.conns| > CONNECTION_MAP_MAX {
      assert Keep(|s.conns|, |s.flights[0]|) < 0;
    }
  }

  /** A violation or denial of a new key, recorded by the data path into a full map. */
  predicate Outgrows(s: State, e: Event) {
    && |s.conns| == CONNECTION_MAP_MAX && e.Record? && e.u.key !in s.conns
    && !e.u.host && e.u.conn.action > CHECK_APP
  }

  lemma UpdatedSizeExactly(m: Table, u: Update)
    ensures |Updated(m, u)| == |m| + if u.key !in m && Admits(m, u) then 1 else 0
  {
    if u.key in m {
      assert Updated(m, u).Keys == m.Keys;
    } else if Admits(m, u) {
      assert Updated(m, u).Keys == m.Keys + {u.key};
    }
  }

  lemma OutgrowsExactly(s: State, e: Event)
    requires Enabled(s, e) && |s.conns| <= CONNECTION_MAP_MAX
    ensures |Step(s, e).conns| > CONNECTION_MAP_MAX <==> Outgrows(s, e)
  {
    match e {
      case Record(u) => UpdatedSizeExactly(s.conns, u);
      case Take(keys) => WithoutSize(s.conns, keys);
      case Delivered(_) =>
      case Resend(i, kept) =>
        assert Part(s.flights[i], kept).Keys == kept;
        JoinedSize(s.conns, Part(s.flights[i], kept));
    }
  }

  /** Some state of a run is over the limit; some step of it takes the map there. */
  ghost predicate EverOver(s: State, es: seq<Event>)
    decreases |es|
  {
    |s.conns| > CONNECTION_MAP_MAX || (es != [] && Enabled(s, es[0]) && EverOver(Step(s, es[0]), es[1..]))
  }

  ghost predicate EverOutgrows(s: State, es: seq<Event>)
    decreases |es|
  {
    es != [] && Enabled(s, es[0]) && (Outgrows(s, es[0]) || EverOutgrows(Step(s, es[0]), es[1..]))
  }

  /** Some state of a run would panic if a list in flight were to be sent again. */
  ghost predicate EverPanics(s: State, es: seq<Event>)
    decreases |es|
  {
    Panics(s) || (es != [] && Enabled(s, es[0]) && EverPanics(Step(s, es[0]), es[1..]))
  }

  lemma OverAtOnce(s: State, es: seq<Event>)
    requires |s.conns| > CONNECTION_MAP_MAX
    ensures EverOver(s, es)
  {
  }

  /** In every run the map exceeds its limit if and only if a violation or denial of a new key
      meets it full. */
  lemma {:induction false} RunOutgrowsExactly(s: State, es: seq<Event>, s': State)
    requires |s.conns| <= CONNECTION_MAP_MAX && IsRun(s, es, s')
    ensures EverOver(s, es) <==> EverOutgrows(s, es)
    decreases |es|
  {
    if es != [] {
      OutgrowsExactly(s, es[0]);
      if Outgrows(s, es[0]) {
        OverAtOnce(Step(s, es[0]), es[1..]);
      } else {
        RunOutgrowsExactly(Step(s, es[0]), es[1..], s');
      }
    }
  }

  lemma {:induction false} PanicsAreOver(s: State, es: seq<Event>, s': State)
    requires IsRun(s, es, s') && EverPanics(s, es)
    ensures EverOver(s, es)
    decreases |es|
  {
    PanicsExactly(s);
    if !Panics(s) {
      PanicsAreOver(Step(s, es[0]), es[1..], s');
    }
  }

  /** No panic without such a record; and one that comes while a list is in flight makes the next
      resend panic. */
  lemma PanicNeedsOutgrowth(s: State, es: seq<Event>, s': State)
    requires |s.conns| <= CONNECTION_MAP_MAX && IsRun(s, es, s') && EverPanics(s, es)
    ensures EverOutgrows(s, es)
  {
    PanicsAreOver(s, es, s');
    RunOutgrowsExactly(s, es, s');
  }

  lemma OutgrowthInFlightPanics(s: State, e: Event)
    requires Enabled(s, e) && Outgrows(s, e) && s.flights != []
    ensures Panics(Step(s, e))
  {
    OutgrowsExactly(s, e);
    PanicsExactly(Step(s, e));
  }

  lemma {:induction false} ModerateNeverOutgrows(s: State, es: seq<Event>)
    requires forall i :: 0 <= i < |es| ==> Moderate(es[i])
    ensures !EverOutgrows(s, es)
    decreases |es|
  {
    if es != [] && Enabled(s, es[0]) {
      ModerateNeverOutgrows(Step(s, es[0]), es[1..]);
    }
  }

  const DENIED: Conn := Conn(0, 1, 0, 0, 0, 5, 0, 0, 0)

  function Denial(i: nat): Update {
    Update(TcpUdp(i, 0, 0, 6, false, 0, 0), DENIED, false, false, false)
  }

  ghost predicate NoDenialFrom(m: Table, i: nat) {
    forall j: nat | j >= i :: Denial(j).key !in m
  }

  /** Denials enter a full map all the same. */
  lemma DenialEnters(m: Table, i: nat)
    requires NoDenialFrom(m, i)
    ensures |Updated(m, Denial(i))| == |m| + 1 && NoDenialFrom(Updated(m, Denial(i)), i + 1)
  {
    var u := Denial(i);
    assert u.key !in m;
    assert Updated(m, u).Keys == m.Keys + {u.key};
  }

  lemma {:induction false} DenialsPileUp(s: State, i: nat, n: nat) returns (es: seq<Event>, s': State)
    requires NoDenialFrom(s.conns, i)
    ensures IsRun(s, es, s') && |s'.conns| == |s.conns| + n && s'.flights == s.flights
    decreases n
  {
    if n == 0 {
      es, s' := [], s;
    } else {
      var e := Record(Denial(i));
      DenialEnters(s.conns, i);
      var rest;
      rest, s' := DenialsPileUp(Step(s, e), i + 1, n - 1);
      es := [e] + rest;
      assert es[1..] == rest;
    }
  }

  /** More denials than the map holds, recorded while a list is on its way: if the controller
      then asks for that list again, the agent panics. */
  lemma DenialsPanic() returns (es: seq<Event>, s: State)
    ensures IsRun(Init(), es, s) && Panics(s)
  {
    var e0, e1 := Record(Denial(0)), Take({Denial(0).key});
    var s1 := Step(Init(), e0);
    assert s1.conns.Keys == {Denial(0).key};
    var s2 := Step(s1, e1);
    assert |s2.flights| == 1;
    var rest;
    rest, s := DenialsPileUp(s2, 1, CONNECTION_MAP_MAX + 1);
    es := [e0, e1] + rest;
    assert es[1..][0] == e1 && es[1..][1..] == rest;
    PanicsExactly(s);
  }

  // -- The routines as written

  predicate Distinct(keys: seq<Key>) {
    forall i, j :: 0 <= i < j < |keys| ==> keys[i] != keys[j]
  }

  /** The parallel lists hold what was taken out. */
  ghost predicate IsList(keys: seq<Key>, list: seq<Entry>, flight: Table) {
    && Distinct(keys) && |list| == |keys|
    && forall i :: 0 <= i < |keys| ==> keys[i] in flight && list[i] == flight[keys[i]]
  }

  lemma PartStep(m: Table, list: Table, kept: set<Key>, k: Key)
    requires kept <= list.Keys && k in list
    ensures m + Part(list, kept + {k}) == (m + Part(list, kept))[k := list[k]]
  {
  }

  lemma TakenStep(m: Table, taken: set<Key>, k: Key)
    requires k in m - taken
    ensures m - (taken + {k}) == m - taken - {k} && |m - taken - {k}| == |m - taken| - 1
  {
    var rest := m - taken;
    assert (rest - {k}).Keys == rest.Keys - {k};
  }

  class Connections {
    var conns: Table

    constructor ()
      ensures conns == map[]
    {
      conns := map[];
    }

    method UpdateConnectionMap(u: Update)
      requires !u.host
      modifies this
      ensures conns == Updated(old(conns), u)
      ensures u.key in old(conns) && old(conns)[u.key].mesh == u.meshMac ==>
                var e, e', c := old(conns)[u.key], conns[u.key], u.conn;
                && e'.conn == MergeAll([e.conn, c]) && e'.mesh == e.mesh && conns == old(conns)[u.key := e']
                && e'.conn.bytes == e.conn.bytes + c.bytes && e'.conn.sessions == e.conn.sessions + c.sessions
                && e'.conn.violates == e.conn.violates + c.violates
      ensures !(u.key in old(conns) && old(conns)[u.key].mesh == u.meshMac) ==>
                conns == if |old(conns)| < CONNECTION_MAP_MAX || u.conn.action > CHECK_APP
                         then old(conns)[u.key := Entry(u.conn, u.meshMac || u.onMesh)] else old(conns)
    {
      if u.key in conns && conns[u.key].mesh == u.meshMac {
        var entry := conns[u.key];
        conns := conns[u.key := entry.(conn := Merge(entry.conn, u.conn))];
      } else if |conns| < CONNECTION_MAP_MAX || u.conn.action > CHECK_APP {
        conns := conns[u.key := Entry(u.conn, if u.meshMac then true else u.onMesh)];
      }
    }

    /** One record of `updateHostConnection`; `known`: its container is active and has a data path. */
    method UpdateHostConnection(u: Update, known: bool)
      requires u.host
      modifies this
      ensures conns == if known then Updated(old(conns), u) else old(conns)
      ensures known && u.key in old(conns) ==>
                var e, e', c := old(conns)[u.key].conn, conns[u.key].conn, u.conn;
                && e'.bytes == e.bytes + c.bytes && e'.sessions == e.sessions + c.sessions && e'.violates == e.violates + c.violates
                && e'.severity == e.severity && e'.threat == e.threat && e'.firstSeen == e.firstSeen
                && (if e.lastSeen <= c.lastSeen then (e'.lastSeen, e'.action, e'.policyId) == (c.lastSeen, c.action, c.policyId)
                    else (e'.lastSeen, e'.action, e'.policyId) == (e.lastSeen, e.action, e.policyId))
      ensures known && u.key !in old(conns) ==>
                conns == if |old(conns)| < CONNECTION_MAP_MAX then old(conns)[u.key := Entry(u.conn, u.onMesh)] else old(conns)
    {
      if !known {
        return;
      }
      if u.key in conns {
        var entry := conns[u.key];
        var e, c := entry.conn, u.conn;
        e := e.(bytes := e.bytes + c.bytes, sessions := e.sessions + c.sessions, violates := e.violates + c.violates);
        if e.lastSeen <= c.lastSeen {
          e := e.(lastSeen := c.lastSeen, action := c.action, policyId := c.policyId);
        }
        conns := conns[u.key := entry.(conn := e)];
      } else if |conns| < CONNECTION_MAP_MAX {
        conns := conns[u.key := Entry(u.conn, u.onMesh)];
      }
    }

    /** The first half of `putConnections`: a list of what the map holds, up to the limit. */
    method TakeList() returns (keys: seq<Key>, list: seq<Entry>, ghost taken: set<Key>)
      modifies this
      ensures taken <= old(conns).Keys && |taken| == |keys| == Least(|old(conns)|, CONNECTION_LIST_MAX)
      ensures IsList(keys, list, Part(old(conns), taken)) && conns == old(conns) - taken
    {
      ghost var was := conns;
      keys, list, taken := [], [], {};
      while conns != map[] && |list| < CONNECTION_LIST_MAX
        invariant taken <= was.Keys && |taken| == |keys| <= CONNECTION_LIST_MAX
        invariant IsList(keys, list, Part(was, taken))
        invariant conns == was - taken && |conns| + |keys| == |was|
        decreases |conns|
      {
        assert conns.Keys != {};
        var key :| key in conns;
        TakenStep(was, taken, key);
        list := list + [conns[key]];
        keys := keys + [key];
        taken := taken + {key};
        conns := conns - {key};
      }
    }

    /** The second half, when the list is to be sent again; `ok` is false for the panic. */
    method PutBackList(keys: seq<Key>, list: seq<Entry>, ghost flight: Table) returns (ok: bool, ghost kept: set<Key>)
      requires IsList(keys, list, flight)
      modifies this
      ensures !ok ==> conns == old(conns)
      ensures kept <= flight.Keys
      ensures ok <==> |old(conns)| <= CONNECTION_MAP_MAX
      ensures ok ==> |kept| == Keep(|old(conns)|, |keys|) && conns == old(conns) + Part(flight, kept)
      ensures ok ==> forall j :: 0 <= j < |keys| ==> (keys[j] in kept <==> j < Keep(|old(conns)|, |keys|))
    {
      kept := {};
      var keep: int;
      if |conns| + |list| <= CONNECTION_MAP_MAX {
        keep := |list|;
      } else {
        keep := CONNECTION_MAP_MAX - |conns|;
      }
      ok := keep >= 0;
      if ok {
        kept := PutBackFirst(keys, list, keep, flight);
      }
    }

    method PutBackFirst(keys: seq<Key>, list: seq<Entry>, keep: nat, ghost flight: Table) returns (ghost kept: set<Key>)
      requires IsList(keys, list, flight) && keep <= |keys|
      modifies this
      ensures kept <= flight.Keys && |kept| == keep && conns == old(conns) + Part(flight, kept)
      ensures forall j :: 0 <= j < |keys| ==> (keys[j] in kept <==> j < keep)
    {
      kept := {};
      for i := 0 to keep
        invariant kept <= flight.Keys && |kept| == i
        invariant forall j :: 0 <= j < |keys| ==> (keys[j] in kept <==> j < i)
        invariant conns == old(conns) + Part(flight, kept)
      {
        PartStep(old(conns), flight, kept, keys[i]);
        conns := conns[keys[i] := list[i]];
        kept := kept + {keys[i]};
      }
    }
  }
}
