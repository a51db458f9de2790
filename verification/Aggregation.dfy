/** The merge algebra of connection records: the data path folds reports into a node
    (dp/ctrl.c) and the agent folds nodes into its own map entry (agent/timer.go). */
module Aggregation {
  import opened Basics

  /** What one call of `dp_ctrl_connect_report` contributes; `seen` is now minus idle time. */
  datatype Report = Report(bytes: nat, sessions: nat, violates: nat, seen: nat,
                           action: nat, policyId: nat, severity: nat, threat: nat)

  datatype Conn = Conn(bytes: nat, sessions: nat, violates: nat, firstSeen: nat, lastSeen: nat,
                       action: nat, policyId: nat, severity: nat, threat: nat)

  /** A new node of the data-path map. */
  function FromReport(r: Report): Conn {
    Conn(r.bytes, r.sessions, r.violates, r.seen, r.seen, r.action, r.policyId, r.severity, r.threat)
  }

  /** A report that hits an existing node. */
  function Record(c: Conn, r: Report): Conn {
    var c1 := c.(bytes := c.bytes + r.bytes, sessions := c.sessions + r.sessions, violates := c.violates + r.violates);
    var c2 := if r.seen >= c.lastSeen then c1.(action := r.action, policyId := r.policyId, lastSeen := r.seen) else c1;
    if r.severity > c.severity then c2.(threat := r.threat, severity := r.severity) else c2
  }

  /** The agent's merge of a received record into its map entry. */
  function Merge(e: Conn, c: Conn): Conn {
    var e1 := e.(bytes := e.bytes + c.bytes, sessions := e.sessions + c.sessions, violates := e.violates + c.violates);
    var e2 := if e.lastSeen <= c.lastSeen then e1.(lastSeen := c.lastSeen, action := c.action, policyId := c.policyId) else e1;
    if e.severity < c.severity then e2.(severity := c.severity, threat := c.threat) else e2
  }

  /** A node after the reports `rs`, in order. */
  function Fold(rs: seq<Report>): Conn
    requires rs != []
  {
    if |rs| == 1 then FromReport(rs[0]) else Record(Fold(rs[..|rs| - 1]), rs[|rs| - 1])
  }

  /** An agent entry after the records `cs`, in order. */
  function MergeAll(cs: seq<Conn>): Conn
    requires cs != []
  {
    if |cs| == 1 then cs[0] else Merge(MergeAll(cs[..|cs| - 1]), cs[|cs| - 1])
  }

  predicate NoneEmpty<T>(ss: seq<seq<T>>) {
    forall i :: 0 <= i < |ss| ==> ss[i] != []
  }

  function FoldEach(batches: seq<seq<Report>>): (cs: seq<Conn>)
    requires NoneEmpty(batches)
    ensures |cs| == |batches|
  {
    if batches == [] then [] else FoldEach(batches[..|batches| - 1]) + [Fold(batches[|batches| - 1])]
  }

  lemma MergeAssociates(a: Conn, b: Conn, c: Conn)
    ensures Merge(Merge(a, b), c) == Merge(a, Merge(b, c))
  {
  }

  lemma RecordIsMerge(c: Conn, r: Report)
    ensures Record(c, r) == Merge(c, FromReport(r))
  {
  }

  lemma {:induction false} FoldSplits(a: seq<Report>, b: seq<Report>)
    requires a != [] && b != []
    ensures Fold(a + b) == Merge(Fold(a), Fold(b))
    decreases |b|
  {
    var last := b[|b| - 1];
    assert (a + b)[..|a + b| - 1] == a + b[..|b| - 1];
    assert (a + b)[|a + b| - 1] == last;
    if |b| == 1 {
      assert a + b[..0] == a;
      RecordIsMerge(Fold(a), last);
    } else {
      var b' := b[..|b| - 1];
      FoldSplits(a, b');
      RecordIsMerge(Fold(a + b'), last);
      RecordIsMerge(Fold(b'), last);
      MergeAssociates(Fold(a), Fold(b'), FromReport(last));
    }
  }

  lemma {:induction false} FlattenNonempty<T>(ss: seq<seq<T>>)
    requires ss != [] && NoneEmpty(ss)
    ensures Flatten(ss) != []
  {
    assert ss[|ss| - 1] != [];
  }

  /** Two-level aggregation is a homomorphism: however the reports are cut into data-path
      batches, the agent ends with the record that one direct fold would give. */
  lemma {:induction false} TwoLevelsEqualOne(batches: seq<seq<Report>>)
    requires batches != [] && NoneEmpty(batches)
    ensures Flatten(batches) != []
    ensures MergeAll(FoldEach(batches)) == Fold(Flatten(batches))
    decreases |batches|
  {
    FlattenNonempty(batches);
    var init, last := batches[..|batches| - 1], batches[|batches| - 1];
    assert FoldEach(batches)[..|batches| - 1] == FoldEach(init);
    if init == [] {
      assert Flatten(batches) == last;
    } else {
      TwoLevelsEqualOne(init);
      FoldSplits(Flatten(init), last);
    }
  }

  // -- What a fold means, without folding

  /** The three counters that no merge may lose. */
  datatype Totals = Totals(bytes: nat, sessions: nat, violates: nat)

  const NONE: Totals := Totals(0, 0, 0)

  function Plus(a: Totals, b: Totals): Totals {
    Totals(a.bytes + b.bytes, a.sessions + b.sessions, a.violates + b.violates)
  }

  function OfConn(c: Conn): Totals {
    Totals(c.bytes, c.sessions, c.violates)
  }

  function OfReports(rs: seq<Report>): Totals {
    if rs == [] then NONE
    else var r := rs[|rs| - 1]; Plus(OfReports(rs[..|rs| - 1]), Totals(r.bytes, r.sessions, r.violates))
  }

  /** Report `i` was seen latest; of equals it is the last one reported. */
  predicate LatestAt(rs: seq<Report>, i: nat)
    requires i < |rs|
  {
    forall j :: 0 <= j < |rs| ==> if j > i then rs[j].seen < rs[i].seen else rs[j].seen <= rs[i].seen
  }

  /** Report `i` is the gravest; of equals it is the first one reported. */
  predicate GravestAt(rs: seq<Report>, i: nat)
    requires i < |rs|
  {
    forall j :: 0 <= j < |rs| ==> if j < i then rs[j].severity < rs[i].severity else rs[j].severity <= rs[i].severity
  }

  lemma {:induction false} LatestIndex(rs: seq<Report>) returns (i: nat)
    requires rs != []
    ensures i < |rs| && LatestAt(rs, i)
    ensures Fold(rs).lastSeen == rs[i].seen
    ensures Fold(rs).action == rs[i].action && Fold(rs).policyId == rs[i].policyId
    decreases |rs|
  {
    var n := |rs| - 1;
    if n == 0 {
      i := 0;
    } else {
      i := LatestIndex(rs[..n]);
      if rs[n].seen >= rs[i].seen {
        i := n;
      }
    }
  }

  lemma {:induction false} GravestIndex(rs: seq<Report>) returns (i: nat)
    requires rs != []
    ensures i < |rs| && GravestAt(rs, i)
    ensures Fold(rs).severity == rs[i].severity && Fold(rs).threat == rs[i].threat
    decreases |rs|
  {
    var n := |rs| - 1;
    if n == 0 {
      i := 0;
    } else {
      i := GravestIndex(rs[..n]);
      if rs[n].severity > rs[i].severity {
        i := n;
      }
    }
  }

  lemma {:induction false} FoldSums(rs: seq<Report>)
    requires rs != []
    ensures OfConn(Fold(rs)) == OfReports(rs)
    ensures Fold(rs).firstSeen == rs[0].seen
    decreases |rs|
  {
    if |rs| == 1 {
      assert OfReports(rs[..0]) == NONE;
    } else {
      FoldSums(rs[..|rs| - 1]);
    }
  }

  /** Sums, first-seen time, the policy of the latest report and the threat of the first
      gravest one: the record says exactly that about its reports. */
  lemma FoldMeans(rs: seq<Report>)
    requires rs != []
    ensures OfConn(Fold(rs)) == OfReports(rs)
    ensures Fold(rs).firstSeen == rs[0].seen
    ensures exists i: nat :: i < |rs| && LatestAt(rs, i)
              && Fold(rs).lastSeen == rs[i].seen && Fold(rs).action == rs[i].action && Fold(rs).policyId == rs[i].policyId
    ensures exists i: nat :: i < |rs| && GravestAt(rs, i)
              && Fold(rs).severity == rs[i].severity && Fold(rs).threat == rs[i].threat
  {
    FoldSums(rs);
    var i := LatestIndex(rs);
    var j := GravestIndex(rs);
  }

  // -- One counter at a time

  datatype Counter = Bytes | Sessions | Violates

  function CountOf(c: Conn, x: Counter): nat {
    match x
    case Bytes => c.bytes
    case Sessions => c.sessions
    case Violates => c.violates
  }

  function ReportCount(r: Report, x: Counter): nat {
    CountOf(FromReport(r), x)
  }
}
