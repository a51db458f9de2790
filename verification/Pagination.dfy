/** Paging through the session and meter lists that the data path streams in pieces
    (agent/service.go).  Sessions and meters run the same code with their own batch limit. */
module Pagination {
  import opened Basics

  const U32: nat := 0x1_0000_0000
  const SESSION_LIST_LIMIT_MAX: nat := 1024
  const METER_LIST_LIMIT_MAX: nat := 3072

  datatype PageState = Under | Middle | Above

  datatype Page<T> = Page(list: seq<T>, start: nat, limit: nat, state: PageState, sent: seq<seq<T>>)

  /** Below this size neither `uint32(len)` nor `Start + Limit` wraps. */
  predicate NoWrap<T>(pm: Page<T>) {
    |pm.list| + pm.limit < U32
  }

  function Paginate<T>(pm: Page<T>): Page<T>
    requires NoWrap(pm)
  {
    if pm.state == Above then pm.(list := [])
    else if pm.start > |pm.list| then
      if |pm.list| > 0 then pm.(start := pm.start - |pm.list|, list := []) else pm
    else if pm.limit == 0 then pm.(list := pm.list[pm.start..], start := 0, state := Middle)
    else if pm.start + pm.limit > |pm.list| then pm.(list := pm.list[pm.start..], start := 0, state := Middle)
    else pm.(list := pm.list[pm.start..pm.start + pm.limit], start := 0, limit := 0, state := Above)
  }

  function Sent<T>(pm: Page<T>): Page<T> {
    pm.(sent := pm.sent + [pm.list], list := [])
  }

  /** One callback: pieces after the page is complete are ignored; a long batch goes out. */
  function Received<T>(pm: Page<T>, piece: seq<T>, max: nat): Page<T>
    requires NoWrap(pm.(list := pm.list + piece))
  {
    if pm.state == Above then pm
    else
      var p := Paginate(pm.(list := pm.list + piece));
      if |p.list| > max then Sent(p) else p
  }

  /** The 32-bit condition for a whole stream. */
  predicate Fits<T>(host: seq<T>, pieces: seq<seq<T>>, limit: nat) {
    |host| + |Flatten(pieces)| + limit < U32
  }

  /** The page after `pieces`, given what was held before; total length bounds every list. */
  ghost function Stream<T>(host: seq<T>, pieces: seq<seq<T>>, start: nat, limit: nat, max: nat): (pm: Page<T>)
    requires Fits(host, pieces, limit)
    ensures |pm.list| <= |host| + |Flatten(pieces)| && pm.limit <= limit
    decreases |pieces|
  {
    if pieces == [] then Paginate(Page(host, start, limit, Under, []))
    else
      var init, last := pieces[..|pieces| - 1], pieces[|pieces| - 1];
      assert |Flatten(pieces)| == |Flatten(init)| + |last|;
      Received(Stream(host, init, start, limit, max), last, max)
  }

  /** All batches sent for one request, joined. */
  ghost function Answer<T>(host: seq<T>, pieces: seq<seq<T>>, start: nat, limit: nat, max: nat): seq<T>
    requires Fits(host, pieces, limit)
  {
    Flatten(Sent(Stream(host, pieces, start, limit, max)).sent)
  }

  // -- Drop and take

  function Window<T>(s: seq<T>, start: nat, limit: nat): seq<T> {
    var rest := if start <= |s| then s[start..] else [];
    if limit == 0 || limit >= |rest| then rest else rest[..limit]
  }

  /** What the page holds after the stream so far has been `seen`. */
  ghost predicate Tracks<T>(pm: Page<T>, seen: seq<T>, start: nat, limit: nat) {
    match pm.state
    case Under => pm.list == [] && pm.sent == [] && 0 < pm.start == start - |seen| && pm.limit == limit
    case Middle =>
      && start <= |seen| && pm.start == 0 && pm.limit == limit
      && Flatten(pm.sent) + pm.list == seen[start..]
      && (limit > 0 ==> |seen| < start + limit && pm.sent == [])
    case Above =>
      0 < limit && start + limit <= |seen| && Flatten(pm.sent) + pm.list == seen[start..start + limit]
  }

  /** The page limit must not exceed one batch, or a batch leaves before the page is complete. */
  predicate PageFits(limit: nat, max: nat) {
    limit == 0 || limit <= max + 1
  }

  lemma FirstPageTracks<T>(host: seq<T>, start: nat, limit: nat)
    requires |host| + limit < U32
    ensures Tracks(Paginate(Page(host, start, limit, Under, [])), host, start, limit)
  {
  }

  lemma UnderTracks<T>(pm: Page<T>, seen: seq<T>, piece: seq<T>, start: nat, limit: nat)
    requires Tracks(pm, seen, start, limit) && pm.state == Under && NoWrap(pm.(list := pm.list + piece))
    ensures Tracks(Paginate(pm.(list := pm.list + piece)), seen + piece, start, limit)
  {
    assert pm.list + piece == piece;
    assert start <= |seen + piece| ==> (seen + piece)[start..] == piece[pm.start..];
    assert start + limit <= |seen + piece| ==>
        (seen + piece)[start..start + limit] == piece[pm.start..pm.start + limit];
  }

  lemma MiddleTracks<T>(pm: Page<T>, seen: seq<T>, piece: seq<T>, start: nat, limit: nat)
    requires Tracks(pm, seen, start, limit) && pm.state == Middle && NoWrap(pm.(list := pm.list + piece))
    ensures Tracks(Paginate(pm.(list := pm.list + piece)), seen + piece, start, limit)
  {
    var joined := pm.list + piece;
    assert (seen + piece)[start..] == seen[start..] + piece;
    assert Flatten(pm.sent) + joined == (Flatten(pm.sent) + pm.list) + piece;
    if limit > 0 {
      assert joined == (seen + piece)[start..];
      if limit <= |joined| {
        assert joined[0..limit] == (seen + piece)[start..start + limit];
      }
    } else {
      assert joined[0..] == joined;
    }
  }

  lemma ReceivedTracks<T>(pm: Page<T>, seen: seq<T>, piece: seq<T>, start: nat, limit: nat, max: nat)
    requires Tracks(pm, seen, start, limit) && PageFits(limit, max) && NoWrap(pm.(list := pm.list + piece))
    ensures Tracks(Received(pm, piece, max), seen + piece, start, limit)
  {
    match pm.state
    case Above =>
      assert (seen + piece)[start..start + limit] == seen[start..start + limit];
    case Under =>
      UnderTracks(pm, seen, piece, start, limit);
      SendTracks(Paginate(pm.(list := pm.list + piece)), seen + piece, start, limit, max);
    case Middle =>
      MiddleTracks(pm, seen, piece, start, limit);
      SendTracks(Paginate(pm.(list := pm.list + piece)), seen + piece, start, limit, max);
  }

  lemma SendTracks<T>(pm: Page<T>, seen: seq<T>, start: nat, limit: nat, max: nat)
    requires Tracks(pm, seen, start, limit) && PageFits(limit, max)
    ensures |pm.list| > max ==> Tracks(Sent(pm), seen, start, limit)
  {
    FlattenSnoc(pm.sent, pm.list);
  }

  lemma {:induction false} StreamTracks<T>(host: seq<T>, pieces: seq<seq<T>>, start: nat, limit: nat, max: nat)
    requires Fits(host, pieces, limit) && PageFits(limit, max)
    ensures Tracks(Stream(host, pieces, start, limit, max), host + Flatten(pieces), start, limit)
    decreases |pieces|
  {
    if pieces == [] {
      FirstPageTracks(host, start, limit);
      assert host + Flatten(pieces) == host;
    } else {
      var init, last := pieces[..|pieces| - 1], pieces[|pieces| - 1];
      assert |Flatten(pieces)| == |Flatten(init)| + |last|;
      StreamTracks(host, init, start, limit, max);
      ReceivedTracks(Stream(host, init, start, limit, max), host + Flatten(init), last, start, limit, max);
      assert host + Flatten(pieces) == host + Flatten(init) + last;
    }
  }

  lemma WindowTracked<T>(pm: Page<T>, seen: seq<T>, start: nat, limit: nat)
    requires Tracks(pm, seen, start, limit)
    ensures Flatten(pm.sent) + pm.list == Window(seen, start, limit)
  {
    match pm.state {
      case Under => assert Window(seen, start, limit) == [];
      case Middle => assert Window(seen, start, limit) == seen[start..];
      case Above => assert seen[start..start + limit] == seen[start..][..limit];
    }
  }

  /** However the stream is cut, the batches sent are the stream with `start` dropped and then
      `limit` taken. */
  lemma AnswerIsWindow<T>(host: seq<T>, pieces: seq<seq<T>>, start: nat, limit: nat, max: nat)
    requires Fits(host, pieces, limit) && PageFits(limit, max)
    ensures Answer(host, pieces, start, limit, max) == Window(host + Flatten(pieces), start, limit)
  {
    var pm := Stream(host, pieces, start, limit, max);
    StreamTracks(host, pieces, start, limit, max);
    FlattenSnoc(pm.sent, pm.list);
    WindowTracked(pm, host + Flatten(pieces), start, limit);
  }

  /** Messages carry only so many items. */
  predicate Pieces<T>(pieces: seq<seq<T>>, m: nat) {
    forall i :: 0 <= i < |pieces| ==> |pieces[i]| <= m
  }

  /** Every stream in messages of at most `m` items is answered with the page asked for. */
  ghost predicate AlwaysWindow<T(!new)>(limit: nat, max: nat, m: nat) {
    forall host: seq<T>, pieces: seq<seq<T>>, start: nat ::
      Fits(host, pieces, limit) && Pieces(pieces, m) ==>
        Answer(host, pieces, start, limit, max) == Window(host + Flatten(pieces), start, limit)
  }

  function Singles<T>(x: T, n: nat): (pieces: seq<seq<T>>)
    ensures |pieces| == n && Pieces(pieces, 1)
  {
    if n == 0 then [] else Singles(x, n - 1) + [[x]]
  }

  lemma {:induction false} SinglesLength<T>(x: T, n: nat)
    ensures |Flatten(Singles(x, n))| == n
  {
    if n > 0 {
      SinglesLength(x, n - 1);
      FlattenSnoc(Singles(x, n - 1), [x]);
    }
  }

  /** Sent off before it is as long as a page, the list never completes one. */
  ghost predicate Overflowing<T>(pm: Page<T>, n: nat, limit: nat, max: nat) {
    pm.state == Middle && pm.start == 0 && pm.limit == limit && |pm.list| <= max && |Flatten(pm.sent)| + |pm.list| == n
  }

  lemma OneMoreOverflows<T>(pm: Page<T>, x: T, n: nat, limit: nat, max: nat)
    requires Overflowing(pm, n, limit, max) && limit > max + 1 && NoWrap(pm.(list := pm.list + [x]))
    ensures Overflowing(Received(pm, [x], max), n + 1, limit, max)
  {
    var list := pm.list + [x];
    assert list[0..] == list;
    FlattenSnoc(pm.sent, list);
  }

  lemma {:induction false} SinglesOverflow<T>(x: T, n: nat, limit: nat, max: nat)
    requires limit > max + 1 && n + limit < U32
    ensures Fits([], Singles(x, n), limit) && Overflowing(Stream([], Singles(x, n), 0, limit, max), n, limit, max)
  {
    SinglesLength(x, n);
    if n > 0 {
      assert Singles(x, n)[..n - 1] == Singles(x, n - 1);
      SinglesOverflow(x, n - 1, limit, max);
      OneMoreOverflows(Stream([], Singles(x, n - 1), 0, limit, max), x, n - 1, limit, max);
    }
  }

  lemma OverflowLength<T>(pm: Page<T>, n: nat, limit: nat, max: nat)
    requires Overflowing(pm, n, limit, max)
    ensures |Flatten(Sent(pm).sent)| == n
  {
    FlattenSnoc(pm.sent, pm.list);
  }

  lemma WindowLength<T>(s: seq<T>, limit: nat)
    requires 0 < limit < |s|
    ensures |Window(s, 0, limit)| == limit
  {
  }

  /** One item more than the page, sent one by one: all of them are answered. */
  lemma LongPageOverflows<T>(x: T, limit: nat, max: nat)
    requires limit > max + 1 && limit + 1 + limit < U32
    ensures Fits([], Singles(x, limit + 1), limit)
    ensures Answer([], Singles(x, limit + 1), 0, limit, max) != Window([] + Flatten(Singles(x, limit + 1)), 0, limit)
  {
    var pieces := Singles(x, limit + 1);
    SinglesOverflow(x, limit + 1, limit, max);
    OverflowLength(Stream([], pieces, 0, limit, max), limit + 1, limit, max);
    SinglesLength(x, limit + 1);
    WindowLength([] + Flatten(pieces), limit);
  }

  /** Exactly the page limits that one batch can hold are answered correctly for every stream,
      however few items a message carries. */
  lemma PageLimitExactly<T(!new)>(x: T, limit: nat, max: nat, m: nat)
    requires m > 0 && limit + 1 + limit < U32
    ensures AlwaysWindow<T>(limit, max, m) <==> PageFits(limit, max)
  {
    if PageFits(limit, max) {
      forall host: seq<T>, pieces: seq<seq<T>>, start: nat | Fits(host, pieces, limit) && Pieces(pieces, m)
        ensures Answer(host, pieces, start, limit, max) == Window(host + Flatten(pieces), start, limit)
      {
        AnswerIsWindow(host, pieces, start, limit, max);
      }
    } else {
      LongPageOverflows(x, limit, max);
      assert Pieces(Singles(x, limit + 1), m);
    }
  }

  // -- The service as written

  function Filter<T>(items: seq<T>, keep: T -> bool): seq<T> {
    if items == [] then []
    else Filter(items[..|items| - 1], keep) + if keep(items[|items| - 1]) then [items[|items| - 1]] else []
  }

  function FilterEach<T>(msgs: seq<seq<T>>, keep: T -> bool): seq<seq<T>> {
    if msgs == [] then [] else FilterEach(msgs[..|msgs| - 1], keep) + [Filter(msgs[|msgs| - 1], keep)]
  }

  /** The items that the filter keeps, all of them, each as often as it came. */
  lemma {:induction false} FilterMeans<T>(items: seq<T>, keep: T -> bool, x: T)
    ensures x in Filter(items, keep) <==> x in items && keep(x)
    ensures multiset(Filter(items, keep))[x] == if keep(x) then multiset(items)[x] else 0
  {
    if items != [] {
      var init, last := items[..|items| - 1], items[|items| - 1];
      FilterMeans(init, keep, x);
      assert items == init + [last];
    }
  }

  lemma {:induction false} FilterJoins<T>(a: seq<T>, b: seq<T>, keep: T -> bool)
    ensures Filter(a + b, keep) == Filter(a, keep) + Filter(b, keep)
    decreases |b|
  {
    if b == [] {
      assert a + b == a;
    } else {
      FilterJoins(a, b[..|b| - 1], keep);
      assert (a + b)[..|a + b| - 1] == a + b[..|b| - 1];
    }
  }

  /** Filtering message by message is filtering the stream. */
  lemma {:induction false} FilterEachIsFilter<T>(msgs: seq<seq<T>>, keep: T -> bool)
    ensures Flatten(FilterEach(msgs, keep)) == Filter(Flatten(msgs), keep)
  {
    if msgs != [] {
      var init, last := msgs[..|msgs| - 1], msgs[|msgs| - 1];
      FilterEachIsFilter(init, keep);
      FlattenSnoc(FilterEach(init, keep), Filter(last, keep));
      FilterJoins(Flatten(init), last, keep);
    }
  }

  class ListRequest<T> {
    var list: seq<T>
    var start: nat
    var limit: nat
    var state: PageState
    var sent: seq<seq<T>>
    const max: nat
    const keep: T -> bool

    constructor (list: seq<T>, start: nat, limit: nat, max: nat, keep: T -> bool)
      ensures Value() == Page(list, start, limit, Under, []) && this.max == max && this.keep == keep
    {
      this.list, this.start, this.limit, this.state, this.sent := list, start, limit, Under, [];
      this.max, this.keep := max, keep;
    }

    ghost function Value(): Page<T>
      reads this
    {
      Page(list, start, limit, state, sent)
    }

    method SendList()
      modifies this
      ensures Value() == Sent(old(Value()))
    {
      sent := sent + [list];
      list := [];
    }

    method PaginateList()
      requires NoWrap(Value())
      modifies this
      ensures Value() == Paginate(old(Value()))
    {
      if state == Above {
        if |list| > 0 {
          list := [];
        }
      } else if start > |list| {
        if |list| > 0 {
          start := start - |list|;
          list := [];
        }
      } else if limit == 0 {
        list := list[start..];
        start := 0;
        state := Middle;
      } else if start + limit > |list| {
        list := list[start..];
        start := 0;
        state := Middle;
      } else {
        list := list[start..start + limit];
        limit := 0;
        start := 0;
        state := Above;
      }
    }

    method Callback(items: seq<T>)
      requires NoWrap(Value().(list := list + Filter(items, keep)))
      modifies this
      ensures Value() == Received(old(Value()), Filter(items, keep), max)
    {
      if state == Above {
        return;
      }
      for i := 0 to |items|
        invariant Value() == old(Value()).(list := old(list) + Filter(items[..i], keep))
      {
        assert items[..i + 1][..i] == items[..i];
        if keep(items[i]) {
          list := list + [items[i]];
        }
      }
      assert items[..|items|] == items;
      PaginateList();
      if |list| > max {
        SendList();
      }
    }
  }

  lemma HostFillsPage<T>(host: seq<T>, start: nat, limit: nat)
    requires |host| + limit < U32
    ensures Paginate(Page(host, start, limit, Under, [])).state == Above <==> 0 < limit && start + limit <= |host|
  {
  }

  lemma {:induction false} AboveIgnores<T>(host: seq<T>, pieces: seq<seq<T>>, start: nat, limit: nat, max: nat)
    requires Fits(host, pieces, limit) && Stream(host, [], start, limit, max).state == Above
    ensures Stream(host, pieces, start, limit, max) == Stream(host, [], start, limit, max)
    decreases |pieces|
  {
    if pieces != [] {
      assert |Flatten(pieces)| == |Flatten(pieces[..|pieces| - 1])| + |pieces[|pieces| - 1]|;
      AboveIgnores(host, pieces[..|pieces| - 1], start, limit, max);
    }
  }

  lemma FilterPrefix<T>(msgs: seq<seq<T>>, i: nat, keep: T -> bool)
    requires i < |msgs|
    ensures FilterEach(msgs[..i + 1], keep) == FilterEach(msgs[..i], keep) + [Filter(msgs[i], keep)]
    ensures FilterEach(msgs[..i + 1], keep)[..|FilterEach(msgs[..i], keep)|] == FilterEach(msgs[..i], keep)
    ensures |Flatten(FilterEach(msgs[..i + 1], keep))| <= |Flatten(FilterEach(msgs, keep))|
  {
    assert msgs[..i + 1][..i] == msgs[..i];
    FilterGrows(msgs, i + 1, keep);
  }

  lemma {:induction false} FilterGrows<T>(msgs: seq<seq<T>>, i: nat, keep: T -> bool)
    requires i <= |msgs|
    ensures |Flatten(FilterEach(msgs[..i], keep))| <= |Flatten(FilterEach(msgs, keep))|
    decreases |msgs|
  {
    if i < |msgs| {
      var init := msgs[..|msgs| - 1];
      FilterGrows(init, i, keep);
      assert init[..i] == msgs[..i];
      FlattenSnoc(FilterEach(init, keep), Filter(msgs[|msgs| - 1], keep));
    } else {
      assert msgs[..i] == msgs;
    }
  }

  lemma NextMessage<T>(host: seq<T>, msgs: seq<seq<T>>, i: nat, start: nat, limit: nat, max: nat, keep: T -> bool)
    requires i < |msgs| && Fits(host, FilterEach(msgs, keep), limit)
    ensures |Flatten(FilterEach(msgs[..i], keep))| <= |Flatten(FilterEach(msgs[..i + 1], keep))| <= |Flatten(FilterEach(msgs, keep))|
    ensures var pm := Stream(host, FilterEach(msgs[..i], keep), start, limit, max);
            && NoWrap(pm.(list := pm.list + Filter(msgs[i], keep)))
            && Stream(host, FilterEach(msgs[..i + 1], keep), start, limit, max) == Received(pm, Filter(msgs[i], keep), max)
  {
    FilterPrefix(msgs, i, keep);
    FlattenSnoc(FilterEach(msgs[..i], keep), Filter(msgs[i], keep));
  }

  /** What both requests share: for page limits that one batch can hold, the joined batches are
      drop and take on the filtered stream; the data path is asked unless the host's own items
      fill the page. */
  method GetList<T>(host: seq<T>, msgs: seq<seq<T>>, start: nat, limit: nat, max: nat, keep: T -> bool)
    returns (batches: seq<seq<T>>, asked: bool)
    requires Fits(host, FilterEach(msgs, keep), limit)
    ensures Flatten(batches) == Answer(host, FilterEach(msgs, keep), start, limit, max)
    ensures PageFits(limit, max) ==>
              Flatten(batches) == Window(host + Flatten(FilterEach(msgs, keep)), start, limit)
    ensures asked <==> limit == 0 || |host| < start + limit
  {
    var pm := new ListRequest<T>(host, start, limit, max, keep);
    ghost var stream := FilterEach(msgs, keep);
    HostFillsPage(host, start, limit);
    pm.PaginateList();
    asked := pm.state != Above;
    if !asked {
      AboveIgnores(host, stream, start, limit, max);
    } else {
      for i := 0 to |msgs|
        invariant fresh(pm) && pm.max == max && pm.keep == keep
        invariant |Flatten(FilterEach(msgs[..i], keep))| <= |Flatten(stream)|
        invariant pm.Value() == Stream(host, FilterEach(msgs[..i], keep), start, limit, max)
      {
        NextMessage(host, msgs, i, start, limit, max, keep);
        pm.Callback(msgs[i]);
      }
      assert msgs[..|msgs|] == msgs;
    }
    pm.SendList();
    batches := pm.sent;
    if PageFits(limit, max) {
      AnswerIsWindow(host, stream, start, limit, max);
    }
  }

  /** Whose sessions are asked for: those of a host-mode container and its children, which the
      agent knows itself; those of another workload; or all, with the host-mode ones first. */
  datatype Target<T> = HostMode(sessions: seq<T>) | Workload | Everything(host: seq<T>)

  /** A host-mode container's sessions go out as one batch, whatever page was asked for. */
  method GetSessionList<T>(target: Target<T>, msgs: seq<seq<T>>, start: nat, limit: nat, keep: T -> bool)
    returns (batches: seq<seq<T>>)
    requires !target.HostMode? ==> Fits(if target.Everything? then target.host else [], FilterEach(msgs, keep), limit)
    ensures target.HostMode? ==> batches == [target.sessions]
    ensures !target.HostMode? ==>
              var host, pieces := if target.Everything? then target.host else [], FilterEach(msgs, keep);
              && Flatten(batches) == Answer(host, pieces, start, limit, SESSION_LIST_LIMIT_MAX)
              && (PageFits(limit, SESSION_LIST_LIMIT_MAX) ==> Flatten(batches) == Window(host + Flatten(pieces), start, limit))
  {
    var asked;
    match target
    case HostMode(sessions) => batches := [sessions];
    case Workload => batches, asked := GetList([], msgs, start, limit, SESSION_LIST_LIMIT_MAX, keep);
    case Everything(host) => batches, asked := GetList(host, msgs, start, limit, SESSION_LIST_LIMIT_MAX, keep);
  }

  method GetMeterList<T>(msgs: seq<seq<T>>, start: nat, limit: nat, keep: T -> bool) returns (batches: seq<seq<T>>)
    requires Fits([], FilterEach(msgs, keep), limit)
    ensures Flatten(batches) == Answer([], FilterEach(msgs, keep), start, limit, METER_LIST_LIMIT_MAX)
    ensures PageFits(limit, METER_LIST_LIMIT_MAX) ==>
              Flatten(batches) == Window(Flatten(FilterEach(msgs, keep)), start, limit)
  {
    var asked;
    batches, asked := GetList([], msgs, start, limit, METER_LIST_LIMIT_MAX, keep);
    assert [] + Flatten(FilterEach(msgs, keep)) == Flatten(FilterEach(msgs, keep));
  }
}
