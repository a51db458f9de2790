/** The CVE database on its way from a scanner (scanner/server.go) through the controller
    (controller/grpc.go) into slots of the key-value store, and back into a cache
    (controller/cache/scan.go). */
module CveUpload {

  const CVEDB_CHUNK_MAX: nat := 32 * 1024
  const KV_VALUE_SIZE_MAX: nat := 512 * 1024

  /** A name cut at its first colon, if it has one: "debian:CVE-1" is `Scoped("debian", Plain("CVE-1"))`
      with the pieces numbered. */
  datatype Name = Plain(text: nat) | Scoped(scope: nat, rest: Name)

  /** `meta` are the fields that `preprocessDB` copies, `extra` the others. */
  datatype Cve = Cve(name: Name, meta: nat, extra: nat)

  type Db = map<Name, Cve>

  datatype Result<T> = Ok(value: T) | Err

  function Only(db: Db, keys: set<Name>): Db {
    map k | k in keys && k in db :: db[k]
  }

  // -- The upload

  /** Blocks merged, in the order received, into what is there. */
  function Received(got: Db, blocks: seq<Db>): Db
    decreases |blocks|
  {
    if blocks == [] then got else Received(got + blocks[0], blocks[1..])
  }

  function ChunkSize(n: nat): nat {
    if n > CVEDB_CHUNK_MAX then CVEDB_CHUNK_MAX else n
  }

  lemma MoveOne(db: Db, keys: set<Name>, k: Name)
    requires keys <= db.Keys && k in db && k !in keys
    ensures Only(db, keys)[k := db[k]] == Only(db, keys + {k}) && db - keys - {k} == db - (keys + {k})
    ensures |db - (keys + {k})| == |db - keys| - 1 && |keys + {k}| == |keys| + 1
  {
    assert (db - keys - {k}).Keys == (db - keys).Keys - {k};
  }

  /** One block: up to the limit, in the map's order. */
  method TakeChunk(clone: Db) returns (send: Db, rest: Db)
    ensures exists keys :: IsChunk(clone, send, rest, keys)
  {
    var count := ChunkSize(|clone|);
    send, rest := map[], clone;
    ghost var keys := {};
    while count > 0
      invariant keys <= clone.Keys && send == Only(clone, keys) && rest == clone - keys
      invariant |keys| + |rest| == |clone| && |keys| + count == ChunkSize(|clone|)
    {
      assert rest.Keys != {};
      var k :| k in rest;
      MoveOne(clone, keys, k);
      send, rest := send[k := rest[k]], rest - {k};
      keys := keys + {k};
      count := count - 1;
    }
    assert IsChunk(clone, send, rest, keys);
  }

  ghost predicate IsChunk(clone: Db, send: Db, rest: Db, keys: set<Name>) {
    && keys <= clone.Keys && send == Only(clone, keys) && rest == clone - keys
    && |keys| == ChunkSize(|clone|) && |rest| == |clone| - |keys|
  }

  /** How a database of the given size is cut: full blocks, and a last one that holds what is left. */
  predicate WellCut(blocks: seq<Db>, n: nat)
    decreases |blocks|
  {
    blocks != [] && |blocks[0]| == ChunkSize(n)
    && if n <= CVEDB_CHUNK_MAX then |blocks| == 1 else WellCut(blocks[1..], n - CVEDB_CHUNK_MAX)
  }

  /** The database recovered from its blocks, block by block. */
  ghost predicate Covers(blocks: seq<Db>, db: Db)
    decreases |blocks|
  {
    if blocks == [] then db == map[]
    else blocks[0].Keys <= db.Keys && blocks[0] == Only(db, blocks[0].Keys) && Covers(blocks[1..], db - blocks[0].Keys)
  }

  lemma ChunkCovers(clone: Db, send: Db, rest: Db, keys: set<Name>)
    requires IsChunk(clone, send, rest, keys)
    ensures send.Keys == keys && |send| == ChunkSize(|clone|)
    ensures send.Keys <= clone.Keys && send == Only(clone, send.Keys) && rest == clone - send.Keys
  {
    assert send.Keys == keys;
  }

  /** Whatever completes the blocks for what is left completes them for the whole. */
  ghost predicate Continues(blocks: seq<Db>, db: Db, clone: Db) {
    forall more :: WellCut(more, |clone|) && Covers(more, clone) ==> WellCut(blocks + more, |db|) && Covers(blocks + more, db)
  }

  lemma OneBlockMore(clone: Db, send: Db, rest: Db, keys: set<Name>, more: seq<Db>)
    requires IsChunk(clone, send, rest, keys)
    requires if rest == map[] then more == [] else WellCut(more, |rest|) && Covers(more, rest)
    ensures WellCut([send] + more, |clone|) && Covers([send] + more, clone)
  {
    ChunkCovers(clone, send, rest, keys);
    assert ([send] + more)[1..] == more;
    assert rest != map[] ==> rest.Keys != {};
  }

  lemma LastBlock(blocks: seq<Db>, db: Db, clone: Db, send: Db, keys: set<Name>)
    requires IsChunk(clone, send, map[], keys) && Continues(blocks, db, clone)
    ensures WellCut(blocks + [send], |db|) && Covers(blocks + [send], db)
  {
    OneBlockMore(clone, send, map[], keys, []);
    assert [send] + [] == [send];
  }

  lemma NextBlock(blocks: seq<Db>, db: Db, clone: Db, send: Db, rest: Db, keys: set<Name>)
    requires IsChunk(clone, send, rest, keys) && rest != map[] && Continues(blocks, db, clone)
    ensures Continues(blocks + [send], db, rest)
  {
    forall more | WellCut(more, |rest|) && Covers(more, rest)
      ensures WellCut(blocks + [send] + more, |db|) && Covers(blocks + [send] + more, db)
    {
      OneBlockMore(clone, send, rest, keys, more);
      assert blocks + [send] + more == blocks + ([send] + more);
    }
  }

  /** The chunk loop of `scannerRegisterStream`. */
  method SendChunks(db: Db) returns (blocks: seq<Db>)
    ensures WellCut(blocks, |db|) && Covers(blocks, db)
  {
    blocks := [];
    var clone, done := db, false;
    assert Continues(blocks, db, clone) by {
      assert forall more: seq<Db> :: [] + more == more;
    }
    while !done
      invariant done ==> WellCut(blocks, |db|) && Covers(blocks, db)
      invariant !done ==> Continues(blocks, db, clone)
      decreases !done, |clone|
    {
      var send, rest := TakeChunk(clone);
      ghost var keys :| IsChunk(clone, send, rest, keys);
      if rest == map[] {
        LastBlock(blocks, db, clone, send, keys);
      } else {
        NextBlock(blocks, db, clone, send, rest, keys);
        assert rest.Keys != {};
      }
      blocks := blocks + [send];
      done := rest == map[];
      clone := rest;
    }
  }

  /** The receiver's merge of the empty block and the chunks. */
  method Receive(blocks: seq<Db>) returns (data: Db)
    ensures data == Received(map[], blocks)
  {
    data := map[];
    assert blocks[0..] == blocks;
    for i := 0 to |blocks|
      invariant Received(data, blocks[i..]) == Received(map[], blocks)
    {
      assert blocks[i..][1..] == blocks[i + 1..];
      data := data + blocks[i];
    }
  }

  lemma {:induction false} CoversReceived(blocks: seq<Db>, got: Db, db: Db)
    requires Covers(blocks, db)
    ensures Received(got, blocks) == got + db
    decreases |blocks|
  {
    if blocks != [] {
      var b := blocks[0];
      CoversReceived(blocks[1..], got + b, db - b.Keys);
      assert got + b + (db - b.Keys) == got + db;
    }
  }

  /** However the map's order cut the database, the receiver ends with that database. */
  lemma UploadRoundTrip(blocks: seq<Db>, db: Db)
    requires Covers(blocks, db)
    ensures Received(map[], [map[]] + blocks) == db
  {
    var e: Db := map[];
    assert ([e] + blocks)[1..] == blocks && e + e == e && e + db == db;
    CoversReceived(blocks, e, db);
  }

  // -- What the controller makes of it

  /** The record without its scope. */
  function Bare(n: Name, cve: Cve): Cve {
    Cve(n, cve.meta, 0)
  }

  function BareNames(db: Db): set<Name> {
    set k | k in db && k.Scoped? :: k.rest
  }

  /** Where an entry of the result may come from; a name that is both an entry and the bare
      form of others goes to whichever the map's order puts last. */
  ghost predicate FromDb(db: Db, k: Name, v: Cve) {
    || (k in db && v == db[k])
    || exists n :: n in db && n.Scoped? && n.rest == k && v == Bare(k, db[n])
  }

  ghost predicate Preprocessed(db: Db, r: Db) {
    && r.Keys == db.Keys + BareNames(db)
    && (forall k :: k in r ==> FromDb(db, k, r[k]))
    && (forall k :: k in db && k !in BareNames(db) ==> r[k] == db[k])
  }

  /** `preprocessDB`: each entry, and one under its bare name. */
  method Preprocess(db: Db) returns (r: Db)
    ensures Preprocessed(db, r)
  {
    r := map[];
    var left := db.Keys;
    while left != {}
      invariant left <= db.Keys
      invariant Preprocessed(Only(db, db.Keys - left), r)
      decreases left
    {
      var name :| name in left;
      ghost var done := Only(db, db.Keys - left);
      ghost var r0 := r;
      if name.Scoped? {
        r := r[name.rest := Bare(name.rest, db[name])];
      }
      r := r[name := db[name]];
      left := left - {name};
      PreprocessOne(done, name, db[name], r0);
      assert Only(db, db.Keys - left) == done[name := db[name]];
    }
    assert Only(db, db.Keys - {}) == db;
  }

  function Entered(r: Db, name: Name, cve: Cve): Db {
    (if name.Scoped? then r[name.rest := Bare(name.rest, cve)] else r)[name := cve]
  }

  lemma StillFromDb(done: Db, name: Name, cve: Cve, k: Name, v: Cve)
    requires FromDb(done, k, v) && name !in done
    ensures FromDb(done[name := cve], k, v)
  {
    if !(k in done && v == done[k]) {
      var n :| n in done && n.Scoped? && n.rest == k && v == Bare(k, done[n]);
      assert n in done[name := cve] && done[name := cve][n] == done[n];
    }
  }

  lemma EnteredFromDb(done: Db, name: Name, cve: Cve, r: Db, k: Name)
    requires Preprocessed(done, r) && name !in done && k in Entered(r, name, cve)
    ensures FromDb(done[name := cve], k, Entered(r, name, cve)[k])
  {
    var db', v := done[name := cve], Entered(r, name, cve)[k];
    if k == name {
      assert k in db' && v == db'[k];
    } else if name.Scoped? && k == name.rest {
      assert name in db' && v == Bare(k, db'[name]);
    } else {
      StillFromDb(done, name, cve, k, v);
    }
  }

  lemma PreprocessOne(done: Db, name: Name, cve: Cve, r: Db)
    requires Preprocessed(done, r) && name !in done
    ensures Preprocessed(done[name := cve], Entered(r, name, cve))
  {
    var db', r' := done[name := cve], Entered(r, name, cve);
    assert BareNames(db') == BareNames(done) + if name.Scoped? then {name.rest} else {};
    assert r'.Keys == db'.Keys + BareNames(db');
    forall k | k in r'
      ensures FromDb(db', k, r'[k])
    {
      EnteredFromDb(done, name, cve, r, k);
    }
  }

  /** A name that only stands for scoped ones has the metadata of one of them. */
  lemma BareKeepsMeta(db: Db, r: Db, k: Name)
    requires Preprocessed(db, r) && k in r && k !in db
    ensures exists n :: n in db && n.Scoped? && n.rest == k && r[k].name == k && r[k].meta == db[n].meta
  {
    assert FromDb(db, k, r[k]);
  }

  // -- Slots

  /** The part of the database that hashes to slot `i` of `n`, with its names made right. */
  function SlotOf(db: Db, hash: Name -> nat, n: nat, i: nat): Db
    requires n > 0
  {
    map k | k in db && hash(k) % n == i :: db[k].(name := k)
  }

  predicate AllFit(db: Db, hash: Name -> nat, size: Db -> nat, n: nat)
    requires n > 0
  {
    forall i :: 0 <= i < n ==> size(SlotOf(db, hash, n, i)) < KV_VALUE_SIZE_MAX
  }

  predicate AreSlots(db: Db, hash: Name -> nat, dbs: seq<Db>) {
    |dbs| > 0 && forall i :: 0 <= i < |dbs| ==> dbs[i] == SlotOf(db, hash, |dbs|, i)
  }

  lemma SlotOne(done: Db, k: Name, v: Cve, hash: Name -> nat, n: nat, i: nat)
    requires n > 0 && k !in done
    ensures SlotOf(done[k := v], hash, n, i) ==
            if hash(k) % n == i then SlotOf(done, hash, n, i)[k := v.(name := k)] else SlotOf(done, hash, n, i)
  {
  }

  method HashToSlots(db: Db, hash: Name -> nat, n: nat) returns (dbs: seq<Db>)
    requires n > 0
    ensures |dbs| == n && AreSlots(db, hash, dbs)
  {
    dbs := seq(n, _ => map[]);
    var left := db.Keys;
    while left != {}
      invariant left <= db.Keys && |dbs| == n
      invariant forall i :: 0 <= i < n ==> dbs[i] == SlotOf(Only(db, db.Keys - left), hash, n, i)
      decreases left
    {
      var name :| name in left;
      ghost var done := Only(db, db.Keys - left);
      var i := hash(name) % n;
      forall j | 0 <= j < n
        ensures SlotOf(done[name := db[name]], hash, n, j) ==
                if i == j then SlotOf(done, hash, n, j)[name := db[name].(name := name)] else SlotOf(done, hash, n, j)
      {
        SlotOne(done, name, db[name], hash, n, j);
      }
      dbs := dbs[i := dbs[i][name := db[name].(name := name)]];
      left := left - {name};
      assert Only(db, db.Keys - left) == done[name := db[name]];
    }
    assert Only(db, db.Keys - {}) == db;
  }

  /** `prepareDBSlots`: 16, 32, 64 or 128 slots, the fewest whose slots all fit. */
  method PrepareSlots(db: Db, hash: Name -> nat, size: Db -> nat) returns (r: Result<seq<Db>>)
    ensures r.Ok? ==>
              && |r.value| in {16, 32, 64, 128} && AreSlots(db, hash, r.value) && AllFit(db, hash, size, |r.value|)
              && (forall n :: n in {16, 32, 64, 128} && n < |r.value| ==> !AllFit(db, hash, size, n))
    ensures r.Err? ==> forall n :: n in {16, 32, 64, 128} ==> !AllFit(db, hash, size, n)
  {
    var slots := 16;
    while slots <= 128
      invariant slots in {16, 32, 64, 128, 256}
      invariant forall n :: n in {16, 32, 64, 128} && n < slots ==> !AllFit(db, hash, size, n)
      decreases 256 - slots
    {
      var dbs := HashToSlots(db, hash, slots);
      var enlarge, i := false, 0;
      while i < slots && !enlarge
        invariant 0 <= i <= slots
        invariant !enlarge ==> forall j :: 0 <= j < i ==> size(dbs[j]) < KV_VALUE_SIZE_MAX
        invariant enlarge ==> !AllFit(db, hash, size, slots)
        decreases slots - i, !enlarge
      {
        if size(dbs[i]) >= KV_VALUE_SIZE_MAX {
          enlarge := true;
        } else {
          i := i + 1;
        }
      }
      if !enlarge {
        return Ok(dbs);
      }
      slots := slots * 2;
    }
    return Err;
  }

  /** A name is in the slot that its hash gives, with its own record under its own name. */
  lemma InSlotExactly(db: Db, hash: Name -> nat, dbs: seq<Db>, i: nat, k: Name)
    requires AreSlots(db, hash, dbs) && i < |dbs|
    ensures k in dbs[i] <==> k in db && hash(k) % |dbs| == i
    ensures k in dbs[i] ==> dbs[i][k].name == k && dbs[i][k].meta == db[k].meta
  {
    assert dbs[i] == SlotOf(db, hash, |dbs|, i);
  }

  // -- Back into a cache

  /** The database with every record named by its key. */
  function Fixed(db: Db): Db {
    map k | k in db :: db[k].(name := k)
  }

  predicate Holds(db: Db, v: Cve) {
    exists k :: k in db && db[k] == v
  }

  predicate HasRecord(dbs: seq<Db>, v: Cve) {
    dbs != [] && (HasRecord(dbs[..|dbs| - 1], v) || Holds(dbs[|dbs| - 1], v))
  }

  lemma {:induction false} HasRecordMeans(dbs: seq<Db>, v: Cve)
    ensures HasRecord(dbs, v) <==> exists i :: 0 <= i < |dbs| && Holds(dbs[i], v)
    decreases |dbs|
  {
    if dbs != [] {
      HasRecordMeans(dbs[..|dbs| - 1], v);
    }
  }

  /** Every record of every slot, under its own name. */
  ghost predicate IsReassembled(dbs: seq<Db>, r: Db) {
    && (forall n :: n in r ==> r[n].name == n && HasRecord(dbs, r[n]))
    && (forall v :: HasRecord(dbs, v) ==> v.name in r)
  }

  /** The records of one slot, in the map's order, on top of what is there. */
  method AddSlot(newDb: Db, db: Db) returns (r: Db)
    ensures forall n :: n in r ==> (n in newDb && r[n] == newDb[n]) || (r[n].name == n && Holds(db, r[n]))
    ensures newDb.Keys <= r.Keys && forall k :: k in db ==> db[k].name in r
  {
    r := newDb;
    var left := db.Keys;
    while left != {}
      invariant left <= db.Keys && newDb.Keys <= r.Keys
      invariant forall n :: n in r ==> (n in newDb && r[n] == newDb[n]) || (r[n].name == n && Holds(db, r[n]))
      invariant forall k :: k in db && k !in left ==> db[k].name in r
      decreases left
    {
      var k :| k in left;
      assert Holds(db, db[k]);
      r := r[db[k].name := db[k]];
      left := left - {k};
    }
  }

  method Reassemble(dbs: seq<Db>) returns (newDb: Db)
    ensures IsReassembled(dbs, newDb)
  {
    newDb := map[];
    for i := 0 to |dbs|
      invariant IsReassembled(dbs[..i], newDb)
    {
      var r := AddSlot(newDb, dbs[i]);
      ReassembledMore(dbs[..i], dbs[i], newDb, r);
      assert dbs[..i] + [dbs[i]] == dbs[..i + 1];
      newDb := r;
    }
    assert dbs[..|dbs|] == dbs;
  }

  lemma ReassembledMore(dbs: seq<Db>, db: Db, r: Db, r': Db)
    requires IsReassembled(dbs, r) && r.Keys <= r'.Keys
    requires forall n :: n in r' ==> (n in r && r'[n] == r[n]) || (r'[n].name == n && Holds(db, r'[n]))
    requires forall k :: k in db ==> db[k].name in r'
    ensures IsReassembled(dbs + [db], r')
  {
    assert (dbs + [db])[..|dbs|] == dbs;
  }

  lemma SlotHasRecord(db: Db, hash: Name -> nat, dbs: seq<Db>, k: Name)
    requires AreSlots(db, hash, dbs) && k in db
    ensures HasRecord(dbs, db[k].(name := k))
  {
    var i, v := hash(k) % |dbs|, db[k].(name := k);
    assert dbs[i] == SlotOf(db, hash, |dbs|, i);
    assert k in dbs[i] && dbs[i][k] == v;
    assert Holds(dbs[i], v);
    HasRecordMeans(dbs, v);
  }

  lemma RecordOfSlot(db: Db, hash: Name -> nat, dbs: seq<Db>, v: Cve)
    requires AreSlots(db, hash, dbs) && HasRecord(dbs, v)
    ensures v.name in db && v == db[v.name].(name := v.name)
  {
    HasRecordMeans(dbs, v);
    var i :| 0 <= i < |dbs| && Holds(dbs[i], v);
    assert dbs[i] == SlotOf(db, hash, |dbs|, i);
  }

  /** The slots are a disjoint cover, and reassemble to the database with each record named by
      its key. */
  lemma SlotsRoundTrip(db: Db, hash: Name -> nat, dbs: seq<Db>, r: Db)
    requires AreSlots(db, hash, dbs) && IsReassembled(dbs, r)
    ensures r == Fixed(db)
  {
    forall k | k in db
      ensures k in r
    {
      SlotHasRecord(db, hash, dbs, k);
    }
    forall n | n in r
      ensures n in db && r[n] == db[n].(name := n)
    {
      RecordOfSlot(db, hash, dbs, r[n]);
    }
  }

  lemma SlotsApart(db: Db, hash: Name -> nat, dbs: seq<Db>, i: nat, j: nat)
    requires AreSlots(db, hash, dbs) && i < j < |dbs|
    ensures dbs[i].Keys !! dbs[j].Keys
  {
    assert dbs[i] == SlotOf(db, hash, |dbs|, i) && dbs[j] == SlotOf(db, hash, |dbs|, j);
  }

  /** From the scanner's database to the cache of a controller. */
  method Publish(db: Db, hash: Name -> nat, size: Db -> nat) returns (r: Result<Db>)
    ensures r.Ok? ==> exists p :: Preprocessed(db, p) && r.value == Fixed(p)
    ensures r.Err? ==> exists p :: Preprocessed(db, p) && forall n :: n in {16, 32, 64, 128} ==> !AllFit(p, hash, size, n)
  {
    var chunks := SendChunks(db);
    UploadRoundTrip(chunks, db);
    var data := Receive([map[]] + chunks);
    var cvedb := Preprocess(data);
    var slots := PrepareSlots(cvedb, hash, size);
    if slots.Err? {
      return Err;
    }
    var newDb := Reassemble(slots.value);
    SlotsRoundTrip(cvedb, hash, slots.value, newDb);
    return Ok(newDb);
  }
}
