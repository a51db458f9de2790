/** The order of rotated capture files (agent/sniffer.go): files are numbered, the capture writes
    over the oldest, and each file starts with a timestamp. */
module PcapFiles {
  import opened Basics

  /** The running maximum of the first `n` timestamps. */
  function MaxOf(ts: seq<nat>, n: nat): nat
    requires n <= |ts|
  {
    if n == 0 then 0 else if ts[n - 1] > MaxOf(ts, n - 1) then ts[n - 1] else MaxOf(ts, n - 1)
  }

  predicate Below(ts: seq<nat>, j: nat)
    requires j < |ts|
  {
    ts[j] < MaxOf(ts, j)
  }

  /** The second half (`below`) or the first half of the first `n` files. */
  function Half(ts: seq<nat>, n: nat, below: bool): seq<nat>
    requires n <= |ts|
  {
    if n == 0 then [] else Half(ts, n - 1, below) + if Below(ts, n - 1) == below then [n - 1] else []
  }

  /** The files listed, the second half first. */
  function Listed(ts: seq<nat>): seq<nat> {
    Half(ts, |ts|, true) + Half(ts, |ts|, false)
  }

  /** The timestamps up to the first file that cannot be read. */
  function Readable(files: seq<Option<nat>>): (ts: seq<nat>)
    ensures |ts| <= |files| && forall i :: 0 <= i < |ts| ==> files[i] == Some(ts[i])
    ensures |ts| < |files| ==> files[|ts|] == None
  {
    if files == [] || files[0] == None then [] else [files[0].value] + Readable(files[1..])
  }

  /** `getFileList`: numbers of files; a single file has no number and is listed as 0. */
  method GetFileList(max: nat, files: seq<Option<nat>>, found: bool) returns (list: seq<nat>)
    requires |files| == max
    ensures max <= 1 ==> list == if found then [0] else []
    ensures max > 1 ==> list == Listed(Readable(files))
  {
    if max <= 1 {
      return if found then [0] else [];
    }
    ghost var ts := Readable(files);
    var firstHalf, secondHalf := [], [];
    var lastTimestamp, i := 0, 0;
    while i < max && files[i].Some?
      invariant i <= |ts|
      invariant lastTimestamp == MaxOf(ts, i)
      invariant firstHalf == Half(ts, i, false) && secondHalf == Half(ts, i, true)
    {
      assert i < |ts|;
      var timestamp := files[i].value;
      if lastTimestamp == 0 || timestamp > lastTimestamp {
        lastTimestamp := timestamp;
      }
      if timestamp < lastTimestamp {
        secondHalf := secondHalf + [i];
      } else {
        firstHalf := firstHalf + [i];
      }
      i := i + 1;
    }
    assert i == |ts|;
    if |secondHalf| > 0 {
      list := secondHalf + firstHalf;
    } else {
      assert [] + firstHalf == firstHalf;
      list := firstHalf;
    }
  }

  // -- The halves

  /** File `j` is older than one with a smaller number. */
  predicate Older(ts: seq<nat>, j: nat)
    requires j < |ts|
  {
    exists i :: 0 <= i < j && ts[i] > ts[j]
  }

  lemma {:induction false} MaxAtLeast(ts: seq<nat>, n: nat, i: nat)
    requires i < n <= |ts|
    ensures ts[i] <= MaxOf(ts, n)
    decreases n
  {
    if i < n - 1 {
      MaxAtLeast(ts, n - 1, i);
    }
  }

  lemma {:induction false} MaxIsThere(ts: seq<nat>, n: nat) returns (i: nat)
    requires 0 < n <= |ts|
    ensures i < n && ts[i] == MaxOf(ts, n)
    decreases n
  {
    i := n - 1;
    if n > 1 && ts[n - 1] <= MaxOf(ts, n - 1) {
      i := MaxIsThere(ts, n - 1);
    }
  }

  lemma BelowIsOlder(ts: seq<nat>, j: nat)
    requires j < |ts|
    ensures Below(ts, j) <==> Older(ts, j)
  {
    if Older(ts, j) {
      var i :| 0 <= i < j && ts[i] > ts[j];
      MaxAtLeast(ts, j, i);
    }
    if Below(ts, j) {
      var i := MaxIsThere(ts, j);
      assert 0 <= i < j && ts[i] > ts[j];
    }
  }

  lemma {:induction false} HalfAt(ts: seq<nat>, n: nat, below: bool, a: nat)
    requires n <= |ts| && a < |Half(ts, n, below)|
    ensures Half(ts, n, below)[a] < n && Below(ts, Half(ts, n, below)[a]) == below
    decreases n
  {
    if a < |Half(ts, n - 1, below)| {
      HalfAt(ts, n - 1, below, a);
    }
  }

  lemma {:induction false} HalfHas(ts: seq<nat>, n: nat, k: nat) returns (a: nat)
    requires k < n <= |ts|
    ensures a < |Half(ts, n, Below(ts, k))| && Half(ts, n, Below(ts, k))[a] == k
    decreases n
  {
    if k == n - 1 {
      a := |Half(ts, n - 1, Below(ts, k))|;
    } else {
      a := HalfHas(ts, n - 1, k);
    }
  }

  lemma {:induction false} HalfIncreases(ts: seq<nat>, n: nat, below: bool, a: nat, b: nat)
    requires n <= |ts| && a < b < |Half(ts, n, below)|
    ensures Half(ts, n, below)[a] < Half(ts, n, below)[b]
    decreases n
  {
    if b < |Half(ts, n - 1, below)| {
      HalfIncreases(ts, n - 1, below, a, b);
    } else {
      HalfAt(ts, n - 1, below, a);
    }
  }

  lemma {:induction false} HalvesSize(ts: seq<nat>, n: nat)
    requires n <= |ts|
    ensures |Half(ts, n, true)| + |Half(ts, n, false)| == n
    decreases n
  {
    if n > 0 {
      HalvesSize(ts, n - 1);
    }
  }

  lemma {:induction false} FirstFile(ts: seq<nat>, n: nat)
    requires 0 < n <= |ts|
    ensures Half(ts, n, false) != [] && Half(ts, n, false)[0] == 0
    decreases n
  {
    if n > 1 {
      FirstFile(ts, n - 1);
    }
  }

  /** The first half is in order of time, whatever the files. */
  lemma FirstHalfSorted(ts: seq<nat>, n: nat, a: nat, b: nat)
    requires n <= |ts| && a < b < |Half(ts, n, false)|
    ensures Half(ts, n, false)[a] < |ts| && Half(ts, n, false)[b] < |ts|
    ensures ts[Half(ts, n, false)[a]] <= ts[Half(ts, n, false)[b]]
  {
    HalfAt(ts, n, false, a);
    HalfAt(ts, n, false, b);
    HalfIncreases(ts, n, false, a, b);
    MaxAtLeast(ts, Half(ts, n, false)[b], Half(ts, n, false)[a]);
  }

  // -- The list

  lemma ListedAt(ts: seq<nat>, c: nat)
    requires c < |Listed(ts)|
    ensures var s := |Half(ts, |ts|, true)|;
            Listed(ts)[c] == if c < s then Half(ts, |ts|, true)[c] else Half(ts, |ts|, false)[c - s]
    ensures Listed(ts)[c] < |ts| && Below(ts, Listed(ts)[c]) == (c < |Half(ts, |ts|, true)|)
  {
    var s := |Half(ts, |ts|, true)|;
    if c < s {
      HalfAt(ts, |ts|, true, c);
    } else {
      HalfAt(ts, |ts|, false, c - s);
    }
  }

  /** Every readable file is listed, and none twice. */
  lemma ListedOnce(ts: seq<nat>)
    ensures |Listed(ts)| == |ts|
    ensures forall k :: 0 <= k < |ts| ==> k in Listed(ts)
    ensures forall a, b :: 0 <= a < b < |ts| ==> Listed(ts)[a] != Listed(ts)[b]
  {
    HalvesSize(ts, |ts|);
    forall k | 0 <= k < |ts|
      ensures k in Listed(ts)
    {
      var a := HalfHas(ts, |ts|, k);
      assert k in Half(ts, |ts|, Below(ts, k));
    }
    forall a, b | 0 <= a < b < |ts|
      ensures Listed(ts)[a] != Listed(ts)[b]
    {
      ListedDiffer(ts, a, b);
    }
  }

  lemma ListedDiffer(ts: seq<nat>, a: nat, b: nat)
    requires a < b < |Listed(ts)|
    ensures Listed(ts)[a] != Listed(ts)[b]
  {
    ListedAt(ts, a);
    ListedAt(ts, b);
    var s := |Half(ts, |ts|, true)|;
    if b < s {
      HalfIncreases(ts, |ts|, true, a, b);
    } else if a >= s {
      HalfIncreases(ts, |ts|, false, a - s, b - s);
    }
  }

  predicate Before(ts: seq<nat>, s: seq<nat>, a: nat, b: nat) {
    a < b < |s| ==> s[a] < |ts| && s[b] < |ts| && ts[s[a]] <= ts[s[b]]
  }

  ghost predicate SortedBy(ts: seq<nat>, s: seq<nat>) {
    forall a: nat, b: nat :: Before(ts, s, a, b)
  }

  /** Of two files with an older one or ones among them, what a rotation promises. */
  predicate InTurn(ts: seq<nat>, j: nat, k: nat) {
    && (j < |ts| && Older(ts, j) ==> ts[j] <= ts[0])
    && (j < k < |ts| && Older(ts, j) && Older(ts, k) ==> ts[j] <= ts[k])
  }

  /** The older files are older than the first, and in order among themselves. */
  ghost predicate Rotated(ts: seq<nat>) {
    forall j: nat, k: nat :: InTurn(ts, j, k)
  }

  lemma SortedGivesTurn(ts: seq<nat>, j: nat, k: nat)
    requires SortedBy(ts, Listed(ts))
    ensures InTurn(ts, j, k)
  {
    var n, s := |ts|, |Half(ts, |ts|, true)|;
    if j < n && Older(ts, j) {
      BelowIsOlder(ts, j);
      var a := HalfHas(ts, n, j);
      FirstFile(ts, n);
      assert Listed(ts)[a] == j && Listed(ts)[s] == 0;
      assert Before(ts, Listed(ts), a, s);
      if j < k < n && Older(ts, k) {
        BelowIsOlder(ts, k);
        var b := HalfHas(ts, n, k);
        if b < a {
          HalfIncreases(ts, n, true, b, a);
        }
        assert a < b && Listed(ts)[b] == k;
        assert Before(ts, Listed(ts), a, b);
      }
    }
  }

  lemma TurnGivesSorted(ts: seq<nat>, a: nat, b: nat)
    requires Rotated(ts)
    ensures Before(ts, Listed(ts), a, b)
  {
    if a < b < |Listed(ts)| {
      ListedAt(ts, a);
      ListedAt(ts, b);
      var n, s, l := |ts|, |Half(ts, |ts|, true)|, Listed(ts);
      if a < s {
        BelowIsOlder(ts, l[a]);
        BelowIsOlder(ts, l[b]);
        assert InTurn(ts, l[a], l[b]);
        if b < s {
          HalfIncreases(ts, n, true, a, b);
        } else {
          FirstFile(ts, n);
          if b > s {
            FirstHalfSorted(ts, n, 0, b - s);
          }
        }
      } else {
        FirstHalfSorted(ts, n, a - s, b - s);
      }
    }
  }

  /** The list is in order of time if and only if the files are those of a rotation. */
  lemma SortedExactly(ts: seq<nat>)
    ensures SortedBy(ts, Listed(ts)) <==> Rotated(ts)
  {
    if Rotated(ts) {
      forall a: nat, b: nat
        ensures Before(ts, Listed(ts), a, b)
      {
        TurnGivesSorted(ts, a, b);
      }
    }
    if SortedBy(ts, Listed(ts)) {
      forall j: nat, k: nat
        ensures InTurn(ts, j, k)
      {
        SortedGivesTurn(ts, j, k);
      }
    }
  }

  /** When time went back between two files, the list need not be in order. */
  lemma TurnedBackIsUnsorted()
    ensures !Rotated([1, 3, 2]) && !SortedBy([1, 3, 2], Listed([1, 3, 2]))
  {
    var ts := [1, 3, 2];
    assert ts[1] > ts[2];
    assert Older(ts, 2) && !InTurn(ts, 2, 2);
    SortedExactly(ts);
  }

  predicate Increasing(s: seq<nat>) {
    forall a, b :: 0 <= a < b < |s| ==> s[a] < s[b]
  }

  /** In a rotation the later files are not older than any before them. */
  lemma LaterIsNotOlder(earlier: seq<nat>, later: seq<nat>, j: nat)
    requires Increasing(earlier + later) && j < |later| + |earlier| && (j < |later| || later == [])
    ensures !Older(later + earlier, j)
  {
    var ts, all := later + earlier, earlier + later;
    forall i | 0 <= i < j
      ensures ts[i] <= ts[j]
    {
      if later == [] {
        assert all[i] < all[j];
      } else {
        assert all[|earlier| + i] < all[|earlier| + j];
      }
    }
  }

  lemma RotationInTurn(earlier: seq<nat>, later: seq<nat>, j: nat, k: nat)
    requires Increasing(earlier + later)
    ensures InTurn(later + earlier, j, k)
  {
    var ts, all := later + earlier, earlier + later;
    if j < |ts| {
      if j < |later| || later == [] {
        LaterIsNotOlder(earlier, later, j);
      } else {
        assert all[j - |later|] == ts[j] && all[|earlier|] == ts[0];
        assert j < k < |ts| ==> all[k - |later|] == ts[k];
      }
    }
  }

  /** Strictly increasing timestamps, rotated by any amount, come out in order. */
  lemma RotationComesOutSorted(earlier: seq<nat>, later: seq<nat>)
    requires Increasing(earlier + later)
    ensures SortedBy(later + earlier, Listed(later + earlier))
  {
    forall j: nat, k: nat
      ensures InTurn(later + earlier, j, k)
    {
      RotationInTurn(earlier, later, j, k);
    }
    SortedExactly(later + earlier);
  }
}
