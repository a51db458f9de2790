/** Merging process rules into one prioritised list (agent/group_profile.go). */
module ProcessRules {
  import opened Basics

  const DENY := "deny"

  /** `crd` tells a rule that came from a custom resource; `group` is the derived group. */
  datatype Entry = Entry(name: string, path: string, action: string, crd: bool, group: string)

  function Key(e: Entry): string {
    e.name + ":" + e.path
  }

  predicate RecursivePath(p: string) {
    |p| >= 2 && p[|p| - 2..] == "/*"
  }

  /** Deny-everything is the one entry that is thrown away. */
  predicate Kept(e: Entry) {
    !(e.action == DENY && e.name == "*" && e.path == "*")
  }

  const CLASSES: nat := 7

  /** (0) allow all, (1-3) deny: specific, recursive path, any name, (4-6) allow: the same. */
  function ClassOf(e: Entry): (c: nat)
    ensures c < CLASSES
  {
    if e.action == DENY then
      if e.name == "*" then 3 else if RecursivePath(e.path) then 2 else 1
    else if e.name == "*" && e.path == "*" then 0
    else if e.name == "*" then 6
    else if RecursivePath(e.path) then 5
    else 4
  }

  // -- Order

  predicate StrLess(a: string, b: string) {
    b != [] && (a == [] || a[0] < b[0] || (a[0] == b[0] && StrLess(a[1..], b[1..])))
  }

  /** By name, then by path: the comparison handed to the sort. */
  predicate Less(a: Entry, b: Entry) {
    if a.name == b.name then StrLess(a.path, b.path) else StrLess(a.name, b.name)
  }

  lemma {:induction false} StrTrichotomy(a: string, b: string)
    ensures (a == b && !StrLess(a, b) && !StrLess(b, a))
            || (a != b && StrLess(a, b) && !StrLess(b, a))
            || (a != b && !StrLess(a, b) && StrLess(b, a))
  {
    if a != [] && b != [] {
      assert a == [a[0]] + a[1..] && b == [b[0]] + b[1..];
      StrTrichotomy(a[1..], b[1..]);
    }
  }

  lemma {:induction false} StrTransitive(a: string, b: string, c: string)
    requires StrLess(a, b) && StrLess(b, c)
    ensures StrLess(a, c)
  {
    if a != [] && a[0] == b[0] && b[0] == c[0] {
      StrTransitive(a[1..], b[1..], c[1..]);
    }
  }

  lemma LessTransitive(a: Entry, b: Entry, c: Entry)
    requires !Less(b, a) && !Less(c, b)
    ensures !Less(c, a)
  {
    StrTrichotomy(a.name, b.name);
    StrTrichotomy(b.name, c.name);
    StrTrichotomy(a.name, c.name);
    StrTrichotomy(a.path, b.path);
    StrTrichotomy(b.path, c.path);
    StrTrichotomy(a.path, c.path);
    if StrLess(a.name, b.name) && StrLess(b.name, c.name) {
      StrTransitive(a.name, b.name, c.name);
    }
    if StrLess(a.path, b.path) && StrLess(b.path, c.path) {
      StrTransitive(a.path, b.path, c.path);
    }
  }

  predicate SortedRules(l: seq<Entry>) {
    forall i, j :: 0 <= i < j < |l| ==> !Less(l[j], l[i])
  }

  predicate DistinctKeys(l: seq<Entry>) {
    forall i, j :: 0 <= i < j < |l| ==> Key(l[i]) != Key(l[j])
  }

  /** Strings are ordered by the first character that differs, a prefix before what it begins. */
  lemma {:induction false} StrLessExactly(a: string, b: string)
    ensures StrLess(a, b) <==>
            exists k: nat :: k <= |a| && k <= |b| && a[..k] == b[..k] && k < |b| && (k == |a| || a[k] < b[k])
  {
    if StrLess(a, b) {
      if a == [] || a[0] < b[0] {
        assert a[..0] == b[..0];
      } else {
        StrLessExactly(a[1..], b[1..]);
        var k: nat :| k <= |a[1..]| && k <= |b[1..]| && a[1..][..k] == b[1..][..k] && k < |b[1..]|
                      && (k == |a[1..]| || a[1..][k] < b[1..][k]);
        assert a[..k + 1] == [a[0]] + a[1..][..k] && b[..k + 1] == [b[0]] + b[1..][..k];
      }
    }
    if exists k: nat :: k <= |a| && k <= |b| && a[..k] == b[..k] && k < |b| && (k == |a| || a[k] < b[k]) {
      var k: nat :| k <= |a| && k <= |b| && a[..k] == b[..k] && k < |b| && (k == |a| || a[k] < b[k]);
      if k > 0 {
        assert a[..k][0] == b[..k][0];
        assert a[1..][..k - 1] == a[..k][1..] && b[1..][..k - 1] == b[..k][1..];
        StrLessExactly(a[1..], b[1..]);
      }
    }
  }

  /** In a sorted list names never fall, and paths never fall under one name. */
  lemma NamesInOrder(l: seq<Entry>, i: nat, j: nat)
    requires SortedRules(l) && i < j < |l|
    ensures !StrLess(l[j].name, l[i].name)
    ensures l[i].name == l[j].name ==> !StrLess(l[j].path, l[i].path)
  {
    StrTrichotomy(l[i].name, l[j].name);
  }

  // -- The sort

  function Insert(e: Entry, l: seq<Entry>): (r: seq<Entry>)
    ensures |r| == |l| + 1
    ensures forall x :: x in r <==> x == e || x in l
  {
    if l == [] || Less(e, l[0]) then [e] + l
    else
      var r := [l[0]] + Insert(e, l[1..]);
      assert l == [l[0]] + l[1..];
      r
  }

  lemma {:induction false} InsertSorts(e: Entry, l: seq<Entry>)
    requires SortedRules(l)
    ensures SortedRules(Insert(e, l))
    decreases |l|
  {
    if l == [] {
    } else if Less(e, l[0]) {
      forall j | 0 <= j < |l|
        ensures !Less(l[j], e)
      {
        StrTrichotomy(e.name, l[0].name);
        StrTrichotomy(e.path, l[0].path);
        assert !Less(l[0], e);
        if j > 0 {
          LessTransitive(e, l[0], l[j]);
        }
      }
    } else {
      InsertSorts(e, l[1..]);
      var r := Insert(e, l[1..]);
      forall j | 0 <= j < |r|
        ensures !Less(r[j], l[0])
      {
        assert r[j] in r;
        if r[j] != e {
          var k :| 0 <= k < |l[1..]| && l[1..][k] == r[j];
          assert l[k + 1] == r[j];
        }
      }
    }
  }

  lemma {:induction false} InsertDistinct(e: Entry, l: seq<Entry>)
    requires DistinctKeys(l) && forall x :: x in l ==> Key(x) != Key(e)
    ensures DistinctKeys(Insert(e, l))
    decreases |l|
  {
    if l != [] && !Less(e, l[0]) {
      assert l == [l[0]] + l[1..];
      InsertDistinct(e, l[1..]);
      var r := Insert(e, l[1..]);
      forall j | 0 <= j < |r|
        ensures Key(r[j]) != Key(l[0])
      {
        assert r[j] in r;
        if r[j] != e {
          var k :| 0 <= k < |l[1..]| && l[1..][k] == r[j];
          assert l[k + 1] == r[j];
        } else {
          assert l[0] in l;
        }
      }
    }
  }

  function Sort(l: seq<Entry>): (r: seq<Entry>)
    ensures |r| == |l|
    ensures forall x :: x in r <==> x in l
  {
    if l == [] then []
    else
      assert l == [l[0]] + l[1..];
      Insert(l[0], Sort(l[1..]))
  }

  lemma {:induction false} SortSorts(l: seq<Entry>)
    ensures SortedRules(Sort(l))
    ensures DistinctKeys(l) ==> DistinctKeys(Sort(l))
  {
    if l != [] {
      SortSorts(l[1..]);
      InsertSorts(l[0], Sort(l[1..]));
      if DistinctKeys(l) {
        forall x | x in Sort(l[1..])
          ensures Key(x) != Key(l[0])
        {
          var k :| 0 <= k < |l[1..]| && l[1..][k] == x;
          assert l[k + 1] == x;
        }
        InsertDistinct(l[0], Sort(l[1..]));
      }
    }
  }

  // -- One class map to a sorted list

  predicate Keyed(m: map<string, Entry>) {
    forall k :: k in m ==> Key(m[k]) == k
  }

  /** `l` holds exactly the values of `m`, each once. */
  ghost predicate Lists(l: seq<Entry>, m: map<string, Entry>) {
    && DistinctKeys(l)
    && (forall x :: x in l ==> Key(x) in m && m[Key(x)] == x)
    && (forall k :: k in m ==> m[k] in l)
  }

  /** The map is enumerated in any order; the sorted list is the same whatever that was. */
  method MapProcToSortedSlices(m: map<string, Entry>) returns (list: seq<Entry>)
    requires Keyed(m)
    ensures Lists(list, m) && SortedRules(list)
  {
    list := [];
    var left := m.Keys;
    while left != {}
      invariant left <= m.Keys
      invariant DistinctKeys(list)
      invariant forall x :: x in list ==> Key(x) in m && Key(x) !in left && m[Key(x)] == x
      invariant forall k :: k in m && k !in left ==> m[k] in list
      decreases |left|
    {
      var k :| k in left;
      var item := m[k];
      forall i | 0 <= i < |list|
        ensures Key(list[i]) != Key(item)
      {
        assert list[i] in list;
      }
      list := list + [item];
      left := left - {k};
    }
    SortSorts(list);
    list := Sort(list);
  }

  // -- The merge

  /** The entries that survive in class `c`: of equal keys the last one. */
  function Winners(cur: seq<Entry>, c: nat): (m: map<string, Entry>)
    ensures Keyed(m)
    ensures forall k :: k in m ==> m[k] in cur && Kept(m[k]) && ClassOf(m[k]) == c
    ensures forall e :: e in cur && Kept(e) && ClassOf(e) == c ==> Key(e) in m
  {
    if cur == [] then map[]
    else
      var init, e := cur[..|cur| - 1], cur[|cur| - 1];
      assert cur == init + [e];
      var m := Winners(init, c);
      if Kept(e) && ClassOf(e) == c then m[Key(e) := e] else m
  }

  /** The sorted listing of a class's winners. */
  ghost predicate IsPart(cur: seq<Entry>, c: nat, part: seq<Entry>) {
    Lists(part, Winners(cur, c)) && SortedRules(part)
  }

  /** A merged list: the seven classes in order. */
  ghost predicate IsMerged(cur: seq<Entry>, parts: seq<seq<Entry>>) {
    |parts| == CLASSES && forall c :: 0 <= c < CLASSES ==> IsPart(cur, c, parts[c])
  }

  lemma WinnersGrow(cur: seq<Entry>, e: Entry, c: nat)
    ensures Winners(cur + [e], c)
            == if Kept(e) && ClassOf(e) == c then Winners(cur, c)[Key(e) := e] else Winners(cur, c)
  {
    assert (cur + [e])[..|cur|] == cur;
  }

  /** The branch tree that files one entry under its class. */
  method File(m: array<map<string, Entry>>, entry: Entry)
    requires m.Length == CLASSES
    modifies m
    ensures forall c :: 0 <= c < CLASSES ==>
              m[c] == if Kept(entry) && ClassOf(entry) == c then old(m[c])[Key(entry) := entry] else old(m[c])
  {
    var key := entry.name + ":" + entry.path;
    if entry.action == DENY {
      if entry.name == "*" && entry.path == "*" {
        // blocked elsewhere
      } else if entry.name == "*" {
        m[3] := m[3][key := entry];
      } else if RecursivePath(entry.path) {
        m[2] := m[2][key := entry];
      } else {
        m[1] := m[1][key := entry];
      }
    } else {
      if entry.name == "*" && entry.path == "*" {
        m[0] := m[0][key := entry];
      } else if entry.name == "*" {
        m[6] := m[6][key := entry];
      } else if RecursivePath(entry.path) {
        m[5] := m[5][key := entry];
      } else {
        m[4] := m[4][key := entry];
      }
    }
  }

  method FileAll(cur: seq<Entry>) returns (m: array<map<string, Entry>>)
    ensures fresh(m) && m.Length == CLASSES
    ensures forall c :: 0 <= c < CLASSES ==> m[c] == Winners(cur, c)
  {
    m := new map<string, Entry>[CLASSES](_ => map[]);
    for i := 0 to |cur|
      invariant forall c :: 0 <= c < CLASSES ==> m[c] == Winners(cur[..i], c)
    {
      File(m, cur[i]);
      assert cur[..i + 1] == cur[..i] + [cur[i]];
      forall c | 0 <= c < CLASSES
        ensures m[c] == Winners(cur[..i + 1], c)
      {
        WinnersGrow(cur[..i], cur[i], c);
      }
    }
    assert cur[..|cur|] == cur;
  }

  ghost predicate IsMergedTo(cur: seq<Entry>, parts: seq<seq<Entry>>, list: seq<Entry>) {
    IsMerged(cur, parts) && list == Flatten(parts)
  }

  method MergeProcessProfiles(cur: seq<Entry>) returns (list: seq<Entry>)
    ensures exists parts :: IsMergedTo(cur, parts, list)
  {
    var filed := FileAll(cur);
    var m := filed[..];
    ghost var parts := [];
    list := [];
    for c := 0 to CLASSES
      invariant |parts| == c && list == Flatten(parts)
      invariant forall d :: 0 <= d < c ==> IsPart(cur, d, parts[d])
    {
      var mm := MapProcToSortedSlices(m[c]);
      assert IsPart(cur, c, mm);
      FlattenSnoc(parts, mm);
      list, parts := list + mm, parts + [mm];
    }
    assert IsMergedTo(cur, parts, list);
  }

  // -- What the merged list decides

  /** Any test that looks at a rule's name and path only. */
  type Match = (string, string) -> bool

  predicate Hits(p: Match, e: Entry) {
    p(e.name, e.path)
  }

  /** The rule that a first-match lookup applies. */
  function FirstHit(l: seq<Entry>, p: Match): (r: Option<Entry>)
    ensures r.Some? ==> r.value in l && Hits(p, r.value)
    ensures r.None? <==> forall x :: x in l ==> !Hits(p, x)
  {
    if l == [] then None
    else
      assert l == [l[0]] + l[1..];
      if Hits(p, l[0]) then Some(l[0]) else FirstHit(l[1..], p)
  }

  lemma {:induction false} FirstHitConcat(a: seq<Entry>, b: seq<Entry>, p: Match)
    ensures FirstHit(a + b, p) == if FirstHit(a, p).Some? then FirstHit(a, p) else FirstHit(b, p)
    decreases |a|
  {
    if a == [] {
      assert a + b == b;
    } else {
      assert (a + b)[1..] == a[1..] + b;
      FirstHitConcat(a[1..], b, p);
    }
  }

  lemma {:induction false} FirstHitSorted(l: seq<Entry>, p: Match, x: Entry)
    requires SortedRules(l) && x in l && Hits(p, x)
    ensures FirstHit(l, p).Some? && !Less(x, FirstHit(l, p).value)
    decreases |l|
  {
    var k :| 0 <= k < |l| && l[k] == x;
    if Hits(p, l[0]) {
      StrTrichotomy(x.name, x.name);
      StrTrichotomy(x.path, x.path);
    } else {
      assert l[1..][k - 1] == x;
      FirstHitSorted(l[1..], p, x);
    }
  }

  /** The first hit of a merged list has the lowest class that is hit at all, and within
      that class the least name and path. */
  lemma {:induction false} FirstHitInParts(parts: seq<seq<Entry>>, p: Match) returns (c: nat)
    requires forall d :: 0 <= d < |parts| ==> SortedRules(parts[d])
    ensures c <= |parts|
    ensures forall d, x :: 0 <= d < c && x in parts[d] ==> !Hits(p, x)
    ensures c == |parts| ==> FirstHit(Flatten(parts), p).None?
    ensures c < |parts| ==> FirstHit(parts[c], p).Some? && FirstHit(Flatten(parts), p) == FirstHit(parts[c], p)
    decreases |parts|
  {
    if parts == [] {
      c := 0;
    } else {
      var init, last := parts[..|parts| - 1], parts[|parts| - 1];
      c := FirstHitInParts(init, p);
      FirstHitConcat(Flatten(init), last, p);
      assert forall d :: 0 <= d < |init| ==> init[d] == parts[d];
      if c == |init| && FirstHit(last, p).None? {
        c := |parts|;
      }
    }
  }

  /** `e` is the rule to apply: it is hit, and no hit rule has a lower class, or the same
      class and a lesser name and path. */
  ghost predicate Best(cur: seq<Entry>, p: Match, e: Entry) {
    && e in cur && Kept(e) && Hits(p, e)
    && forall x :: x in cur && Kept(x) && Hits(p, x) ==>
         ClassOf(e) < ClassOf(x) || (ClassOf(e) == ClassOf(x) && !Less(x, e))
  }

  ghost predicate NothingHit(cur: seq<Entry>, p: Match) {
    forall x :: x in cur && Kept(x) ==> !Hits(p, x)
  }

  /** What a lookup must return: the best rule, or nothing when nothing is hit. */
  ghost predicate Decides(cur: seq<Entry>, p: Match, r: Option<Entry>) {
    if r.Some? then Best(cur, p, r.value) else NothingHit(cur, p)
  }

  // -- Which rules come first

  predicate AllowAll(e: Entry) {
    e.action != "deny" && e.name == "*" && e.path == "*"
  }

  predicate EndsInStar(p: string) {
    |p| >= 2 && p[|p| - 2] == '/' && p[|p| - 1] == '*'
  }

  /** A rule that allows all comes first; then what denies before what allows; and there a rule
      with a name and a plain path before one with a recursive path, before one for any name. */
  predicate Outranks(x: Entry, y: Entry) {
    || (AllowAll(x) && !AllowAll(y))
    || (!AllowAll(x) && !AllowAll(y) && x.action == "deny" && y.action != "deny")
    || (!AllowAll(x) && !AllowAll(y) && (x.action == "deny") == (y.action == "deny") &&
        ((x.name != "*" && y.name == "*") ||
         (x.name != "*" && y.name != "*" && !EndsInStar(x.path) && EndsInStar(y.path))))
  }

  lemma EndsInStarIsRecursive(p: string)
    ensures RecursivePath(p) <==> EndsInStar(p)
  {
    if |p| >= 2 {
      assert p[|p| - 2..] == [p[|p| - 2], p[|p| - 1]];
    }
  }

  lemma OutranksExactly(x: Entry, y: Entry)
    requires Kept(x) && Kept(y)
    ensures ClassOf(x) < ClassOf(y) <==> Outranks(x, y)
  {
    EndsInStarIsRecursive(x.path);
    EndsInStarIsRecursive(y.path);
  }

  /** No rule that is hit outranks the answer; a rule that denies everything is never the answer. */
  lemma AnswerOutranks(cur: seq<Entry>, p: Match, e: Entry, x: Entry)
    requires Decides(cur, p, Some(e)) && x in cur && Kept(x) && Hits(p, x)
    ensures !Outranks(x, e) && !(e.action == "deny" && e.name == "*" && e.path == "*")
  {
    OutranksExactly(x, e);
  }

  /** The verdict: denied if and only if a rule that denies is hit and none that allows all. */
  lemma DeniedExactly(cur: seq<Entry>, p: Match, e: Entry)
    requires Decides(cur, p, Some(e))
    ensures e.action == "deny" <==>
            && (exists x :: x in cur && Kept(x) && Hits(p, x) && x.action == "deny")
            && (forall x :: x in cur && Hits(p, x) ==> !AllowAll(x))
  {
    forall x | x in cur && Kept(x) && Hits(p, x)
      ensures !Outranks(x, e)
    {
      AnswerOutranks(cur, p, e, x);
    }
    assert forall x :: AllowAll(x) ==> Kept(x);
  }

  // -- When the merged list decides rightly

  predicate SameSpot(x: Entry, y: Entry) {
    x.name == y.name && x.path == y.path
  }

  /** A kept rule of the same name and path is above: in rules that come first. */
  ghost predicate Covered(above: seq<Entry>, x: Entry) {
    exists y :: y in above && Kept(y) && SameSpot(y, x)
  }

  /** No kept rule of the same name and path has a lower class. */
  ghost predicate Lowest(cur: seq<Entry>, x: Entry) {
    forall y :: y in cur && Kept(y) && SameSpot(y, x) ==> ClassOf(x) <= ClassOf(y)
  }

  /** Of the rules that share `x`'s class and key, the last has `x`'s name and path. */
  predicate Survives(cur: seq<Entry>, x: Entry) {
    Key(x) in Winners(cur, ClassOf(x)) && SameSpot(Winners(cur, ClassOf(x))[Key(x)], x)
  }

  /** Every rule that is not overruled by one of its own name and path survives the merge. */
  ghost predicate Faithful(above: seq<Entry>, cur: seq<Entry>) {
    forall x :: x in cur && Kept(x) && !Covered(above, x) && Lowest(cur, x) ==> Survives(cur, x)
  }

  lemma {:induction false} LowestSpot(cur: seq<Entry>, x: Entry) returns (y: Entry)
    requires x in cur && Kept(x)
    ensures y in cur && Kept(y) && SameSpot(y, x) && ClassOf(y) <= ClassOf(x) && Lowest(cur, y)
    decreases ClassOf(x)
  {
    y := x;
    if !Lowest(cur, x) {
      var z :| z in cur && Kept(z) && SameSpot(z, x) && ClassOf(z) < ClassOf(x);
      y := LowestSpot(cur, z);
    }
  }

  /** Every kept entry that nothing covers is represented, in its class or a lower one, by a rule
      with its name and path. */
  lemma Represented(above: seq<Entry>, cur: seq<Entry>, parts: seq<seq<Entry>>, x: Entry) returns (c: nat, y: Entry)
    requires IsMerged(cur, parts) && Faithful(above, cur) && x in cur && Kept(x) && !Covered(above, x)
    ensures c <= ClassOf(x) && y in parts[c] && SameSpot(y, x)
  {
    var z := LowestSpot(cur, x);
    assert !Covered(above, z);
    c := ClassOf(z);
    y := Winners(cur, c)[Key(z)];
    assert IsPart(cur, c, parts[c]);
  }

  lemma SpotDecidesLess(x: Entry, y: Entry, e: Entry)
    requires SameSpot(x, y)
    ensures Less(x, e) == Less(y, e)
  {
  }

  lemma NoBetterRule(above: seq<Entry>, cur: seq<Entry>, parts: seq<seq<Entry>>, p: Match, c: nat, x: Entry)
    requires IsMerged(cur, parts) && Faithful(above, cur) && NothingHit(above, p) && c <= CLASSES
    requires forall d, y :: 0 <= d < c && y in parts[d] ==> !Hits(p, y)
    requires x in cur && Kept(x) && Hits(p, x)
    ensures c <= ClassOf(x)
    ensures c == ClassOf(x) ==> FirstHit(parts[c], p).Some? && !Less(x, FirstHit(parts[c], p).value)
  {
    assert !Covered(above, x);
    var d, y := Represented(above, cur, parts, x);
    assert Hits(p, y);
    if c == ClassOf(x) {
      assert d == c && IsPart(cur, c, parts[c]);
      FirstHitSorted(parts[c], p, y);
      SpotDecidesLess(x, y, FirstHit(parts[c], p).value);
    }
  }

  lemma HitIsARule(cur: seq<Entry>, parts: seq<seq<Entry>>, p: Match, c: nat)
    requires IsMerged(cur, parts) && c < CLASSES && FirstHit(parts[c], p).Some?
    ensures var e := FirstHit(parts[c], p).value;
            && e in cur && Kept(e) && ClassOf(e) == c && Hits(p, e)
            && Key(e) in Winners(cur, c) && Winners(cur, c)[Key(e)] == e
  {
    assert IsPart(cur, c, parts[c]);
  }

  lemma MergedHit(cur: seq<Entry>, parts: seq<seq<Entry>>, p: Match) returns (c: nat)
    requires IsMerged(cur, parts)
    ensures c <= CLASSES
    ensures forall d, x :: 0 <= d < c && x in parts[d] ==> !Hits(p, x)
    ensures c == CLASSES ==> FirstHit(Flatten(parts), p).None?
    ensures c < CLASSES ==>
              && FirstHit(parts[c], p).Some? && FirstHit(Flatten(parts), p) == FirstHit(parts[c], p)
              && FirstHit(parts[c], p).value in cur && Kept(FirstHit(parts[c], p).value)
  {
    forall d | 0 <= d < |parts|
      ensures SortedRules(parts[d])
    {
      assert IsPart(cur, d, parts[d]);
    }
    c := FirstHitInParts(parts, p);
    if c < CLASSES {
      HitIsARule(cur, parts, p, c);
    }
  }

  /** With nothing hit above, one merged list implements the priority order. */
  lemma MergeDecides(above: seq<Entry>, cur: seq<Entry>, parts: seq<seq<Entry>>, p: Match)
    requires IsMerged(cur, parts) && Faithful(above, cur) && NothingHit(above, p)
    ensures Decides(cur, p, FirstHit(Flatten(parts), p))
  {
    var c := MergedHit(cur, parts, p);
    forall x | x in cur && Kept(x) && Hits(p, x)
      ensures c <= ClassOf(x)
      ensures c == ClassOf(x) ==> FirstHit(parts[c], p).Some? && !Less(x, FirstHit(parts[c], p).value)
    {
      NoBetterRule(above, cur, parts, p, c, x);
    }
    if c < CLASSES {
      HitIsARule(cur, parts, p, c);
    }
  }

  /** The test that hits one name and path. */
  function Only(x: Entry): Match {
    (n, q) => n == x.name && q == x.path
  }

  /** A lookup that finds the best rule for `x`'s name and path shows that `x` survived. */
  lemma FoundSurvives(cur: seq<Entry>, parts: seq<seq<Entry>>, x: Entry)
    requires IsMerged(cur, parts) && x in cur && Kept(x) && Lowest(cur, x)
    requires Decides(cur, Only(x), FirstHit(Flatten(parts), Only(x)))
    ensures Survives(cur, x)
  {
    assert Hits(Only(x), x);
    var c := MergedHit(cur, parts, Only(x));
    HitIsARule(cur, parts, Only(x), c);
    var e := FirstHit(parts[c], Only(x)).value;
    assert SameSpot(e, x);
  }

  ghost predicate ImplementsPriority(cur: seq<Entry>, parts: seq<seq<Entry>>) {
    forall p: Match :: Decides(cur, p, FirstHit(Flatten(parts), p))
  }

  /** One merged list implements the priority order, for every test of name and path, if and only
      if each rule that is not overruled by one of its own name and path survives the merge. */
  lemma MergeImplementsPriorityExactly(cur: seq<Entry>, parts: seq<seq<Entry>>)
    requires IsMerged(cur, parts)
    ensures ImplementsPriority(cur, parts) <==> Faithful([], cur)
  {
    if Faithful([], cur) {
      forall p: Match
        ensures Decides(cur, p, FirstHit(Flatten(parts), p))
      {
        MergeDecides([], cur, parts, p);
      }
    }
    if ImplementsPriority(cur, parts) {
      forall x | x in cur && Kept(x) && Lowest(cur, x)
        ensures Survives(cur, x)
      {
        assert Decides(cur, Only(x), FirstHit(Flatten(parts), Only(x)));
        FoundSurvives(cur, parts, x);
      }
    }
  }

  // -- Rules whose keys tell them apart

  /** Rules of one class that share a key share name and path. */
  ghost predicate Unambiguous(cur: seq<Entry>) {
    forall x, y :: x in cur && y in cur && Kept(x) && Kept(y) && ClassOf(x) == ClassOf(y) && Key(x) == Key(y) ==>
      SameSpot(x, y)
  }

  lemma UnambiguousIsFaithful(above: seq<Entry>, cur: seq<Entry>)
    requires Unambiguous(cur)
    ensures Faithful(above, cur)
  {
    forall x | x in cur && Kept(x)
      ensures Survives(cur, x)
    {
      var w := Winners(cur, ClassOf(x))[Key(x)];
      assert w in cur && Kept(w) && ClassOf(w) == ClassOf(x) && Key(w) == Key(x);
    }
  }

  predicate PlainNames(cur: seq<Entry>) {
    forall e :: e in cur ==> ':' !in e.name
  }

  lemma ColonSplits(n: string, p: string, n': string, p': string)
    requires ':' !in n && ':' !in n' && n + ":" + p == n' + ":" + p'
    ensures n == n' && p == p'
  {
    var s, s' := n + ":" + p, n' + ":" + p';
    assert s[|n|] == ':' && s'[|n'|] == ':';
    assert forall i :: 0 <= i < |n| ==> s[i] == n[i] && n[i] in n;
    assert forall i :: 0 <= i < |n'| ==> s'[i] == n'[i] && n'[i] in n';
    assert |n| == |n'|;
    assert n == s[..|n|] == s'[..|n|] == n';
    assert p == s[|n| + 1..] == s'[|n| + 1..] == p';
  }

  /** Names without ':' do. */
  lemma PlainIsUnambiguous(cur: seq<Entry>)
    requires PlainNames(cur)
    ensures Unambiguous(cur)
  {
    forall x, y | x in cur && y in cur && Key(x) == Key(y)
      ensures SameSpot(x, y)
    {
      ColonSplits(x.name, x.path, y.name, y.path);
    }
  }

  lemma MergeImplementsPriority(cur: seq<Entry>, parts: seq<seq<Entry>>, p: Match)
    requires IsMerged(cur, parts) && PlainNames(cur)
    ensures Decides(cur, p, FirstHit(Flatten(parts), p))
  {
    PlainIsUnambiguous(cur);
    UnambiguousIsFaithful([], cur);
    MergeDecides([], cur, parts, p);
  }

  /** Names with ':' can share a key: then one of two different rules is lost, and with it the
      priority order. */
  lemma ColonNamesCollide(parts: seq<seq<Entry>>)
    requires IsMerged([Entry("a", "b:c", DENY, false, ""), Entry("a:b", "c", DENY, false, "")], parts)
    ensures !ImplementsPriority([Entry("a", "b:c", DENY, false, ""), Entry("a:b", "c", DENY, false, "")], parts)
  {
    var a, b := Entry("a", "b:c", DENY, false, ""), Entry("a:b", "c", DENY, false, "");
    var cur := [a, b];
    assert Key(a) == Key(b) == "a:b:c";
    WinnersGrow([a], b, ClassOf(a));
    assert [a] + [b] == cur;
    assert a in cur && Kept(a) && Lowest(cur, a) && !Survives(cur, a);
    MergeImplementsPriorityExactly(cur, parts);
  }

  // -- Federal rules, then custom-resource rules, then the rest

  ghost predicate IsCalculatedFrom(layers: seq<seq<Entry>>, a: seq<seq<Entry>>, b: seq<seq<Entry>>, c: seq<seq<Entry>>,
                                   out: seq<Entry>) {
    && |layers| == 3 && IsMerged(layers[0], a) && IsMerged(layers[1], b) && IsMerged(layers[2], c)
    && out == Flatten(a) + Flatten(b) + Flatten(c)
  }

  /** `out` is a list that the calculation may produce from these layers. */
  ghost predicate IsCalculated(layers: seq<seq<Entry>>, out: seq<Entry>) {
    exists a, b, c :: IsCalculatedFrom(layers, a, b, c, out)
  }

  method CalculateLayers(layers: seq<seq<Entry>>) returns (out: seq<Entry>)
    requires |layers| == 3
    ensures IsCalculated(layers, out)
  {
    var fed := MergeProcessProfiles(layers[0]);
    var crd := MergeProcessProfiles(layers[1]);
    var rest := MergeProcessProfiles(layers[2]);
    out := fed + crd + rest;
    ghost var a :| IsMergedTo(layers[0], a, fed);
    ghost var b :| IsMergedTo(layers[1], b, crd);
    ghost var c :| IsMergedTo(layers[2], c, rest);
    assert IsCalculatedFrom(layers, a, b, c, out);
  }

  /** `e` is the rule to apply: it is the best of the first layer in which anything is hit. */
  ghost predicate BestOfLayers(layers: seq<seq<Entry>>, p: Match, layer: nat, e: Entry) {
    && layer < |layers| && Best(layers[layer], p, e)
    && forall k :: 0 <= k < layer ==> NothingHit(layers[k], p)
  }

  /** A lookup over the layers: the best of the first layer hit, or nothing at all. */
  ghost predicate LayersDecide(layers: seq<seq<Entry>>, p: Match, r: Option<Entry>, layer: nat) {
    if r.Some? then BestOfLayers(layers, p, layer, r.value)
    else forall k :: 0 <= k < |layers| ==> NothingHit(layers[k], p)
  }

  /** Each layer is faithful but for what the layers above it overrule. */
  ghost predicate FaithfulLayers(layers: seq<seq<Entry>>) {
    && |layers| == 3
    && Faithful([], layers[0]) && Faithful(layers[0], layers[1]) && Faithful(layers[0] + layers[1], layers[2])
  }

  lemma NothingHitAbove(a: seq<Entry>, b: seq<Entry>, p: Match)
    ensures NothingHit(a + b, p) <==> NothingHit(a, p) && NothingHit(b, p)
  {
    if NothingHit(a + b, p) {
      assert forall x :: x in a || x in b ==> x in a + b;
    }
  }

  /** The lookup goes through the layers' lists one after the other. */
  lemma HitOfLayers(layers: seq<seq<Entry>>, a: seq<seq<Entry>>, b: seq<seq<Entry>>, c: seq<seq<Entry>>, out: seq<Entry>, p: Match)
    requires IsCalculatedFrom(layers, a, b, c, out)
    ensures var x, y, z := FirstHit(Flatten(a), p), FirstHit(Flatten(b), p), FirstHit(Flatten(c), p);
            FirstHit(out, p) == if x.Some? then x else if y.Some? then y else z
  {
    FirstHitConcat(Flatten(a) + Flatten(b), Flatten(c), p);
    FirstHitConcat(Flatten(a), Flatten(b), p);
  }

  lemma DecidedInTurn(layers: seq<seq<Entry>>, p: Match, x: Option<Entry>, y: Option<Entry>, z: Option<Entry>)
    returns (layer: nat)
    requires |layers| == 3 && Decides(layers[0], p, x)
    requires x.None? ==> Decides(layers[1], p, y)
    requires x.None? && y.None? ==> Decides(layers[2], p, z)
    ensures LayersDecide(layers, p, if x.Some? then x else if y.Some? then y else z, layer)
  {
    layer := if x.Some? then 0 else if y.Some? then 1 else 2;
  }

  /** The calculated list implements the priority order: federal, custom resource, rest; then
      class; then name and path. */
  lemma PriorityOrder(layers: seq<seq<Entry>>, out: seq<Entry>, p: Match) returns (layer: nat)
    requires IsCalculated(layers, out) && FaithfulLayers(layers)
    ensures LayersDecide(layers, p, FirstHit(out, p), layer)
  {
    var a, b, c :| IsCalculatedFrom(layers, a, b, c, out);
    var x, y, z := FirstHit(Flatten(a), p), FirstHit(Flatten(b), p), FirstHit(Flatten(c), p);
    HitOfLayers(layers, a, b, c, out, p);
    MergeDecides([], layers[0], a, p);
    if x.None? {
      MergeDecides(layers[0], layers[1], b, p);
      if y.None? {
        NothingHitAbove(layers[0], layers[1], p);
        MergeDecides(layers[0] + layers[1], layers[2], c, p);
      }
    }
    layer := DecidedInTurn(layers, p, x, y, z);
  }

  /** No rule stands in two layers: each carries its group and whether it is a custom resource's. */
  ghost predicate Apart(layers: seq<seq<Entry>>) {
    forall i, j, x :: 0 <= i < j < |layers| && x in layers[i] ==> x !in layers[j]
  }

  ghost predicate Decided(layers: seq<seq<Entry>>, p: Match, out: seq<Entry>) {
    exists layer: nat :: LayersDecide(layers, p, FirstHit(out, p), layer)
  }

  /** The hit of a calculated list comes from some layer's own list, the first that has one. */
  lemma HitFromLayer(layers: seq<seq<Entry>>, a: seq<seq<Entry>>, b: seq<seq<Entry>>, c: seq<seq<Entry>>, out: seq<Entry>, p: Match)
    returns (j: nat)
    requires IsCalculatedFrom(layers, a, b, c, out) && FirstHit(out, p).Some?
    ensures j < 3 && FirstHit(out, p) == FirstHit(Flatten([a, b, c][j]), p) && FirstHit(out, p).value in layers[j]
  {
    HitOfLayers(layers, a, b, c, out, p);
    j := if FirstHit(Flatten(a), p).Some? then 0 else if FirstHit(Flatten(b), p).Some? then 1 else 2;
    var d := MergedHit(layers[j], [a, b, c][j], p);
  }

  /** A rule that no layer above covers is to be found in its own layer. */
  lemma FoundAtHome(layers: seq<seq<Entry>>, k: nat, x: Entry, r: Option<Entry>, layer: nat)
    requires k < |layers| && x in layers[k] && Kept(x) && LayersDecide(layers, Only(x), r, layer)
    requires forall j :: 0 <= j < k ==> !Covered(layers[j], x)
    ensures r.Some? && Best(layers[k], Only(x), r.value)
  {
    assert Hits(Only(x), x) && !NothingHit(layers[k], Only(x));
    assert r.Some? && SameSpot(r.value, x);
    assert layer < k ==> Covered(layers[layer], x);
  }

  lemma DecidedSurvives(layers: seq<seq<Entry>>, out: seq<Entry>, k: nat, x: Entry)
    requires IsCalculated(layers, out) && Apart(layers) && Decided(layers, Only(x), out)
    requires k < 3 && x in layers[k] && Kept(x) && Lowest(layers[k], x)
    requires forall j :: 0 <= j < k ==> !Covered(layers[j], x)
    ensures Survives(layers[k], x)
  {
    var a, b, c :| IsCalculatedFrom(layers, a, b, c, out);
    var layer: nat :| LayersDecide(layers, Only(x), FirstHit(out, Only(x)), layer);
    FoundAtHome(layers, k, x, FirstHit(out, Only(x)), layer);
    var j := HitFromLayer(layers, a, b, c, out, Only(x));
    assert j == k by {
      assert FirstHit(out, Only(x)).value in layers[k];
    }
    FoundSurvives(layers[k], [a, b, c][k], x);
  }

  lemma DecidedIsFaithful(layers: seq<seq<Entry>>, out: seq<Entry>, k: nat, above: seq<Entry>)
    requires IsCalculated(layers, out) && Apart(layers) && forall p: Match :: Decided(layers, p, out)
    requires k < 3 && forall j, y :: 0 <= j < k && y in layers[j] ==> y in above
    ensures Faithful(above, layers[k])
  {
    forall x | x in layers[k] && Kept(x) && !Covered(above, x) && Lowest(layers[k], x)
      ensures Survives(layers[k], x)
    {
      assert Decided(layers, Only(x), out);
      DecidedSurvives(layers, out, k, x);
    }
  }

  lemma AllDecidedIsFaithful(layers: seq<seq<Entry>>, out: seq<Entry>)
    requires IsCalculated(layers, out) && Apart(layers) && forall p: Match :: Decided(layers, p, out)
    ensures FaithfulLayers(layers)
  {
    DecidedIsFaithful(layers, out, 0, []);
    DecidedIsFaithful(layers, out, 1, layers[0]);
    DecidedIsFaithful(layers, out, 2, layers[0] + layers[1]);
  }

  /** The calculated list implements the priority order for every test of name and path if and
      only if each layer's rules survive but for what the layers above overrule. */
  lemma PriorityOrderExactly(layers: seq<seq<Entry>>, out: seq<Entry>)
    requires IsCalculated(layers, out) && Apart(layers)
    ensures (forall p: Match :: Decided(layers, p, out)) <==> FaithfulLayers(layers)
  {
    if FaithfulLayers(layers) {
      forall p: Match
        ensures Decided(layers, p, out)
      {
        var layer := PriorityOrder(layers, out, p);
      }
    }
    if forall p: Match :: Decided(layers, p, out) {
      AllDecidedIsFaithful(layers, out);
    }
  }

  /** In unambiguous rules each kept one is represented in its own class. */
  lemma RepresentedInClass(cur: seq<Entry>, parts: seq<seq<Entry>>, x: Entry) returns (y: Entry)
    requires IsMerged(cur, parts) && Unambiguous(cur) && x in cur && Kept(x)
    ensures y in parts[ClassOf(x)] && SameSpot(y, x)
  {
    var c := ClassOf(x);
    y := Winners(cur, c)[Key(x)];
    assert y in cur && Kept(y) && ClassOf(y) == c && Key(y) == Key(x);
    assert IsPart(cur, c, parts[c]);
  }

  lemma PlainIsFaithful(layers: seq<seq<Entry>>)
    requires |layers| == 3 && forall k :: 0 <= k < 3 ==> PlainNames(layers[k])
    ensures FaithfulLayers(layers)
  {
    forall k | 0 <= k < 3
      ensures Unambiguous(layers[k])
    {
      PlainIsUnambiguous(layers[k]);
    }
    UnambiguousIsFaithful([], layers[0]);
    UnambiguousIsFaithful(layers[0], layers[1]);
    UnambiguousIsFaithful(layers[0] + layers[1], layers[2]);
  }

  // -- The list itself, whatever order groups and maps are enumerated in

  datatype Spot = Spot(name: string, path: string)

  function SpotOf(e: Entry): Spot {
    Spot(e.name, e.path)
  }

  predicate Before(a: Spot, b: Spot) {
    if a.name == b.name then StrLess(a.path, b.path) else StrLess(a.name, b.name)
  }

  predicate StrictlySorted(s: seq<Spot>) {
    forall i, j :: 0 <= i < j < |s| ==> Before(s[i], s[j])
  }

  lemma BeforeIsOrder(a: Spot, b: Spot)
    ensures a == b ==> !Before(a, b)
    ensures Before(a, b) ==> !Before(b, a)
    ensures a != b && !Before(a, b) ==> Before(b, a)
  {
    StrTrichotomy(a.name, b.name);
    StrTrichotomy(a.path, b.path);
  }

  lemma HeadIsLeast(a: seq<Spot>, x: Spot)
    requires StrictlySorted(a) && x in a
    ensures x == a[0] || Before(a[0], x)
  {
  }

  lemma SameHead(a: seq<Spot>, b: seq<Spot>)
    requires StrictlySorted(a) && StrictlySorted(b) && a != [] && b != []
    requires a[0] in b && b[0] in a
    ensures a[0] == b[0]
  {
    HeadIsLeast(b, a[0]);
    HeadIsLeast(a, b[0]);
    BeforeIsOrder(a[0], b[0]);
  }

  lemma TailIsRest(a: seq<Spot>, x: Spot)
    requires StrictlySorted(a) && a != []
    ensures x in a[1..] <==> x in a && x != a[0]
  {
    BeforeIsOrder(x, x);
    if x in a && x != a[0] {
      var i :| 0 <= i < |a| && a[i] == x;
      assert a[1..][i - 1] == x;
    }
  }

  /** A strictly sorted list is determined by what it holds. */
  lemma {:induction false} SortedListsAgree(a: seq<Spot>, b: seq<Spot>)
    requires StrictlySorted(a) && StrictlySorted(b) && forall x :: x in a <==> x in b
    ensures a == b
    decreases |a|
  {
    assert a != [] ==> a[0] in b;
    assert b != [] ==> b[0] in a;
    if a != [] {
      SameHead(a, b);
      forall x
        ensures x in a[1..] <==> x in b[1..]
      {
        TailIsRest(a, x);
        TailIsRest(b, x);
      }
      SortedListsAgree(a[1..], b[1..]);
      assert a == [a[0]] + a[1..] && b == [b[0]] + b[1..];
    }
  }

  function Spots(l: seq<Entry>): (s: seq<Spot>)
    ensures |s| == |l| && forall i :: 0 <= i < |l| ==> s[i] == SpotOf(l[i])
  {
    seq(|l|, i requires 0 <= i < |l| => SpotOf(l[i]))
  }

  /** The names and paths of the kept rules of a class. */
  ghost predicate InClass(cur: seq<Entry>, c: nat, s: Spot) {
    exists x :: x in cur && Kept(x) && ClassOf(x) == c && SpotOf(x) == s
  }

  lemma PartIsStrict(cur: seq<Entry>, c: nat, part: seq<Entry>)
    requires IsPart(cur, c, part)
    ensures StrictlySorted(Spots(part))
  {
    forall i, j | 0 <= i < j < |part|
      ensures Before(Spots(part)[i], Spots(part)[j])
    {
      BeforeIsOrder(SpotOf(part[i]), SpotOf(part[j]));
      assert Key(part[i]) != Key(part[j]) && !Less(part[j], part[i]);
    }
  }

  lemma PartHolds(cur: seq<Entry>, c: nat, part: seq<Entry>, s: Spot)
    requires IsPart(cur, c, part) && Unambiguous(cur)
    ensures s in Spots(part) <==> InClass(cur, c, s)
  {
    if s in Spots(part) {
      var i :| 0 <= i < |part| && Spots(part)[i] == s;
      assert part[i] in part;
      assert Winners(cur, c)[Key(part[i])] == part[i];
    }
    if InClass(cur, c, s) {
      var x :| x in cur && Kept(x) && ClassOf(x) == c && SpotOf(x) == s;
      var w := Winners(cur, c)[Key(x)];
      assert w in part && SameSpot(w, x);
      var i :| 0 <= i < |part| && part[i] == w;
      assert Spots(part)[i] == s;
    }
  }

  predicate SameSet(a: seq<Entry>, b: seq<Entry>) {
    (forall x :: x in a ==> x in b) && (forall x :: x in b ==> x in a)
  }

  /** Two parts of the same class from the same rules have the same names and paths in the same places. */
  lemma PartsAgree(cur: seq<Entry>, cur': seq<Entry>, c: nat, part: seq<Entry>, part': seq<Entry>)
    requires IsPart(cur, c, part) && IsPart(cur', c, part') && SameSet(cur, cur') && Unambiguous(cur)
    ensures Spots(part) == Spots(part')
  {
    PartIsStrict(cur, c, part);
    PartIsStrict(cur', c, part');
    forall s
      ensures s in Spots(part) <==> s in Spots(part')
    {
      PartHolds(cur, c, part, s);
      PartHolds(cur', c, part', s);
      assert InClass(cur, c, s) <==> InClass(cur', c, s);
    }
    SortedListsAgree(Spots(part), Spots(part'));
  }

  /** Equally long, and place by place of the same class, name and path. */
  predicate Agree(a: seq<Entry>, b: seq<Entry>) {
    |a| == |b| && forall i :: 0 <= i < |a| ==> ClassOf(a[i]) == ClassOf(b[i]) && SameSpot(a[i], b[i])
  }

  lemma AgreeJoins(a: seq<Entry>, b: seq<Entry>, c: seq<Entry>, d: seq<Entry>)
    requires Agree(a, b) && Agree(c, d)
    ensures Agree(a + c, b + d)
  {
  }

  lemma PartClass(cur: seq<Entry>, c: nat, part: seq<Entry>, i: nat)
    requires IsPart(cur, c, part) && i < |part|
    ensures ClassOf(part[i]) == c
  {
    assert part[i] in part;
    assert Winners(cur, c)[Key(part[i])] == part[i];
  }

  lemma PartsAgreeInPlace(cur: seq<Entry>, cur': seq<Entry>, c: nat, part: seq<Entry>, part': seq<Entry>)
    requires IsPart(cur, c, part) && IsPart(cur', c, part') && SameSet(cur, cur') && Unambiguous(cur)
    ensures Agree(part, part')
  {
    PartsAgree(cur, cur', c, part, part');
    assert |part| == |part'|;
    forall i | 0 <= i < |part|
      ensures ClassOf(part[i]) == ClassOf(part'[i]) && SameSpot(part[i], part'[i])
    {
      PartClass(cur, c, part, i);
      PartClass(cur', c, part', i);
      assert Spots(part)[i] == Spots(part')[i];
    }
  }

  lemma {:induction false} FlattenAgrees(parts: seq<seq<Entry>>, parts': seq<seq<Entry>>)
    requires |parts| == |parts'| && forall c :: 0 <= c < |parts| ==> Agree(parts[c], parts'[c])
    ensures Agree(Flatten(parts), Flatten(parts'))
    decreases |parts|
  {
    if parts != [] {
      var n := |parts| - 1;
      FlattenAgrees(parts[..n], parts'[..n]);
      AgreeJoins(Flatten(parts[..n]), Flatten(parts'[..n]), parts[n], parts'[n]);
    }
  }

  lemma MergesAgree(cur: seq<Entry>, parts: seq<seq<Entry>>, cur': seq<Entry>, parts': seq<seq<Entry>>)
    requires IsMerged(cur, parts) && IsMerged(cur', parts') && SameSet(cur, cur') && Unambiguous(cur)
    ensures Agree(Flatten(parts), Flatten(parts'))
  {
    forall c | 0 <= c < CLASSES
      ensures Agree(parts[c], parts'[c])
    {
      assert IsPart(cur, c, parts[c]) && IsPart(cur', c, parts'[c]);
      PartsAgreeInPlace(cur, cur', c, parts[c], parts'[c]);
    }
    FlattenAgrees(parts, parts');
  }

  ghost predicate SameRules(a: seq<seq<Entry>>, b: seq<seq<Entry>>) {
    |a| == |b| && forall k :: 0 <= k < |a| ==> SameSet(a[k], b[k])
  }

  /** The list does not depend on the order in which groups or maps are enumerated: two
      calculations from the same rules agree place by place in class, name and path. */
  lemma OrderIrrelevant(layers: seq<seq<Entry>>, out: seq<Entry>, layers': seq<seq<Entry>>, out': seq<Entry>)
    requires IsCalculated(layers, out) && IsCalculated(layers', out') && SameRules(layers, layers')
    requires forall k :: 0 <= k < |layers| ==> Unambiguous(layers[k])
    ensures Agree(out, out')
  {
    var a, b, c :| IsCalculatedFrom(layers, a, b, c, out);
    var a', b', c' :| IsCalculatedFrom(layers', a', b', c', out');
    MergesAgree(layers[0], a, layers'[0], a');
    MergesAgree(layers[1], b, layers'[1], b');
    MergesAgree(layers[2], c, layers'[2], c');
    AgreeJoins(Flatten(a), Flatten(a'), Flatten(b), Flatten(b'));
    AgreeJoins(Flatten(a) + Flatten(b), Flatten(a') + Flatten(b'), Flatten(c), Flatten(c'));
  }

  /** And so every lookup finds the same, with the same verdict. */
  lemma {:induction false} AgreeingLookups(a: seq<Entry>, b: seq<Entry>, p: Match)
    requires Agree(a, b)
    ensures FirstHit(a, p).Some? <==> FirstHit(b, p).Some?
    ensures FirstHit(a, p).Some? ==>
              var e, e' := FirstHit(a, p).value, FirstHit(b, p).value;
              ClassOf(e) == ClassOf(e') && SameSpot(e, e') && (e.action == DENY <==> e'.action == DENY)
    decreases |a|
  {
    if a != [] && !Hits(p, a[0]) {
      AgreeingLookups(a[1..], b[1..], p);
    }
  }

  // -- And exactly when it does not

  lemma {:induction false} ListingExists(m: map<string, Entry>, keys: set<string>) returns (l: seq<Entry>)
    requires Keyed(m) && keys <= m.Keys
    ensures DistinctKeys(l)
    ensures forall x :: x in l ==> Key(x) in keys && m[Key(x)] == x
    ensures forall k :: k in keys ==> m[k] in l
    decreases keys
  {
    l := [];
    if keys != {} {
      var k :| k in keys;
      var l' := ListingExists(m, keys - {k});
      l := l' + [m[k]];
      forall i | 0 <= i < |l'|
        ensures Key(l'[i]) != k
      {
        assert l'[i] in l';
      }
    }
  }

  lemma PartExists(cur: seq<Entry>, c: nat) returns (part: seq<Entry>)
    ensures IsPart(cur, c, part)
  {
    var m := Winners(cur, c);
    var l := ListingExists(m, m.Keys);
    SortSorts(l);
    part := Sort(l);
  }

  lemma {:induction false} PartsExist(cur: seq<Entry>, n: nat) returns (parts: seq<seq<Entry>>)
    ensures |parts| == n && forall c :: 0 <= c < n ==> IsPart(cur, c, parts[c])
  {
    parts := [];
    if n > 0 {
      parts := PartsExist(cur, n - 1);
      var part := PartExists(cur, n - 1);
      parts := parts + [part];
    }
  }

  /** Every enumeration gives the same list, up to rules of equal class, name and path. */
  ghost predicate OrderNeverMatters(cur: seq<Entry>) {
    forall one, parts, two, parts' ::
      SameSet(cur, one) && SameSet(cur, two) && IsMerged(one, parts) && IsMerged(two, parts') ==>
      Agree(Flatten(parts), Flatten(parts'))
  }

  lemma AgreeFinds(a: seq<Entry>, b: seq<Entry>, x: Entry) returns (e: Entry)
    requires Agree(a, b) && x in a
    ensures e in b && ClassOf(e) == ClassOf(x) && SameSpot(e, x)
  {
    var i :| 0 <= i < |a| && a[i] == x;
    e := b[i];
  }

  /** The last rule of a class and key is in the list, and no other of that key. */
  lemma LastIsListed(cur: seq<Entry>, x: Entry, parts: seq<seq<Entry>>)
    requires IsMerged(cur + [x], parts) && Kept(x)
    ensures x in Flatten(parts)
    ensures forall e :: e in Flatten(parts) && ClassOf(e) == ClassOf(x) && Key(e) == Key(x) ==> e == x
  {
    var c := ClassOf(x);
    WinnersGrow(cur, x, c);
    assert IsPart(cur + [x], c, parts[c]);
    assert x in parts[c];
    FlattenHolds(parts, x);
    forall e | e in Flatten(parts) && ClassOf(e) == c && Key(e) == Key(x)
      ensures e == x
    {
      FlattenHolds(parts, e);
      var d :| 0 <= d < |parts| && e in parts[d];
      assert IsPart(cur + [x], d, parts[d]);
      assert Winners(cur + [x], d)[Key(e)] == e;
    }
  }

  lemma NeverMatters(cur: seq<Entry>, one: seq<Entry>, parts: seq<seq<Entry>>, two: seq<Entry>, parts': seq<seq<Entry>>)
    requires OrderNeverMatters(cur) && SameSet(cur, one) && SameSet(cur, two) && IsMerged(one, parts) && IsMerged(two, parts')
    ensures Agree(Flatten(parts), Flatten(parts'))
  {
  }

  lemma OrderTells(cur: seq<Entry>, x: Entry, y: Entry)
    requires OrderNeverMatters(cur) && x in cur && y in cur && Kept(x) && Kept(y)
    requires ClassOf(x) == ClassOf(y) && Key(x) == Key(y)
    ensures SameSpot(x, y)
  {
    var parts := PartsExist(cur + [x], CLASSES);
    var parts' := PartsExist(cur + [y], CLASSES);
    NeverMatters(cur, cur + [x], parts, cur + [y], parts');
    LastIsListed(cur, x, parts);
    LastIsListed(cur, y, parts');
    var e := AgreeFinds(Flatten(parts), Flatten(parts'), x);
  }

  /** The order of enumeration never shows in the merged list if and only if rules of one class
      that share a key share name and path. */
  lemma OrderIrrelevantExactly(cur: seq<Entry>)
    ensures OrderNeverMatters(cur) <==> Unambiguous(cur)
  {
    if Unambiguous(cur) {
      forall one, parts, two, parts' |
        SameSet(cur, one) && SameSet(cur, two) && IsMerged(one, parts) && IsMerged(two, parts')
        ensures Agree(Flatten(parts), Flatten(parts'))
      {
        MergesAgree(one, parts, two, parts');
      }
    }
    if OrderNeverMatters(cur) {
      forall x, y | x in cur && y in cur && Kept(x) && Kept(y) && ClassOf(x) == ClassOf(y) && Key(x) == Key(y)
        ensures SameSpot(x, y)
      {
        OrderTells(cur, x, y);
      }
    }
  }
}
