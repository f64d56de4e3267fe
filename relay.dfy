/**
 * Windowing of a collection into a page of edges, as the Relay Cursor
 * Connections Specification defines it (section 4.4, the pagination
 * algorithm, and section 5, PageInfo). Each edge's cursor encodes the
 * absolute offset of its node in the collection.
 *
 * `Window` computes the page by offsets; `RelayEdges` and `RelayPageInfo`
 * follow the specification's algorithms step by step over the list of all
 * edges; `ConnectionFollowsRelay` proves the two agree.
 */
module Relay {
  import opened Wrappers
  import opened Text

  /** An opaque cursor: the text `arrayconnection:<offset>` (the base64 layer is not modelled). */
  datatype Cursor = Cursor(token: string)

  const CursorPrefix: string := "arrayconnection:"

  function OffsetToCursor(n: nat): Cursor
  {
    Cursor(CursorPrefix + NatToString(n))
  }

  /** The offset a cursor that this encoding produced stands for; `None` for any other text. */
  function DecodeCursor(c: Cursor): Option<nat>
  {
    if IsPrefix(CursorPrefix, c.token) then
      match ParseDigits(c.token[|CursorPrefix|..])
      case Some(o) => if OffsetToCursor(o) == c then Some(o) else None
      case None => None
    else None
  }

  /** Decoding is the exact inverse of encoding, in both directions. */
  lemma DecodeCursorSpec(c: Cursor, o: nat)
    ensures DecodeCursor(c) == Some(o) <==> c == OffsetToCursor(o)
  {
    var t := CursorPrefix + NatToString(o);
    assert t[..|CursorPrefix|] == CursorPrefix && t[|CursorPrefix|..] == NatToString(o);
    ParseNatToString(o);
  }

  /** Different offsets have different cursors. */
  lemma CursorInjective(m: nat, n: nat)
    requires OffsetToCursor(m) == OffsetToCursor(n)
    ensures m == n
  {
    DecodeCursorSpec(OffsetToCursor(m), m);
    DecodeCursorSpec(OffsetToCursor(m), n);
  }

  /** The pagination arguments; an absent argument is `None`. */
  datatype PageArgs = PageArgs(first: Option<int>, last: Option<int>, after: Option<Cursor>, before: Option<Cursor>)

  /** The errors section 4.4 demands for a negative `first` or `last`. */
  datatype PageError = NegativeFirst | NegativeLast

  datatype Edge<T> = Edge(node: T, cursor: Cursor)

  datatype PageInfo = PageInfo(startCursor: Option<Cursor>, endCursor: Option<Cursor>,
                               hasPreviousPage: bool, hasNextPage: bool)

  datatype Page<T> = Page(edges: seq<Edge<T>>, pageInfo: PageInfo)

  /** Every node of the collection with the cursor of its offset. */
  function AllEdges<T>(items: seq<T>): (es: seq<Edge<T>>)
    ensures |es| == |items|
    ensures forall i :: 0 <= i < |items| ==> es[i] == Edge(items[i], OffsetToCursor(i))
  {
    seq(|items|, i requires 0 <= i < |items| => Edge(items[i], OffsetToCursor(i)))
  }

  // ---------------------------------------------------------------------
  // The window, by offsets

  /** Where the edges start once `after` is applied: just past the after-edge, if it exists. */
  function AfterStart(n: nat, after: Option<Cursor>): (s: nat)
    ensures s <= n
  {
    if after.Some? && DecodeCursor(after.value).Some? && DecodeCursor(after.value).value < n
    then DecodeCursor(after.value).value + 1
    else 0
  }

  /** Where the edges end once `before` is applied: at the before-edge, if it is among them. */
  function BeforeEnd(n: nat, start: nat, before: Option<Cursor>): (e: nat)
    requires start <= n
    ensures start <= e <= n
  {
    if before.Some? && DecodeCursor(before.value).Some? && start <= DecodeCursor(before.value).value < n
    then DecodeCursor(before.value).value
    else n
  }

  /** `first`, then `last`, applied to the edges `[s, e)`: the bounds left, or the error for a negative bound. */
  function TrimBounds(s: nat, e: nat, args: PageArgs): (r: Result<(nat, nat), PageError>)
    requires s <= e
    ensures r.Err? <==> (args.first.Some? && args.first.value < 0) || (args.last.Some? && args.last.value < 0)
    ensures r.Ok? ==> s <= r.value.0 <= r.value.1 <= e
  {
    if args.first.Some? && args.first.value < 0 then Err(NegativeFirst)
    else
      var e1: nat := if args.first.Some? && e - s > args.first.value then s + args.first.value else e;
      if args.last.Some? && args.last.value < 0 then Err(NegativeLast)
      else
        var s1: nat := if args.last.Some? && e1 - s > args.last.value then e1 - args.last.value else s;
        Ok((s1, e1))
  }

  /** The bounds `[start, end)` of the edges returned, or the error for a negative bound. */
  function Window(n: nat, args: PageArgs): (r: Result<(nat, nat), PageError>)
    ensures r.Err? <==> (args.first.Some? && args.first.value < 0) || (args.last.Some? && args.last.value < 0)
    ensures r.Ok? ==> r.value.0 <= r.value.1 <= n
  {
    var start := AfterStart(n, args.after);
    TrimBounds(start, BeforeEnd(n, start, args.before), args)
  }

  /** `connection_from_array_slice` over the whole collection (slice start 0, slice length = length). */
  function ConnectionFromSlice<T>(items: seq<T>, args: PageArgs): (r: Result<Page<T>, PageError>)
    ensures r.Err? <==> Window(|items|, args).Err?
    ensures r.Ok? ==>
      var (s, e) := Window(|items|, args).value;
      && |r.value.edges| == e - s
      && forall i :: 0 <= i < e - s ==> r.value.edges[i] == Edge(items[s + i], OffsetToCursor(s + i))
  {
    var w := Window(|items|, args);
    if w.Err? then Err(w.error)
    else
      var s, e := w.value.0, w.value.1;
      var all := AllEdges(items);
      var edges := all[s..e];
      assert forall i :: 0 <= i < e - s ==> edges[i] == all[s + i];
      var start := AfterStart(|items|, args.after);
      var count := BeforeEnd(|items|, start, args.before) - start;
      Ok(Page(edges, PageInfo(
        if |edges| > 0 then Some(edges[0].cursor) else None,
        if |edges| > 0 then Some(edges[|edges| - 1].cursor) else None,
        args.last.Some? && count > args.last.value,
        args.first.Some? && count > args.first.value)))
  }

  // ---------------------------------------------------------------------
  // The algorithms of the specification, over the list of all edges

  /** The position of the (first) edge with cursor `c`. */
  function IndexOfCursor<T>(edges: seq<Edge<T>>, c: Cursor): (r: Option<nat>)
    ensures r.None? <==> forall j :: 0 <= j < |edges| ==> edges[j].cursor != c
    ensures r.Some? ==> r.value < |edges| && edges[r.value].cursor == c
  {
    if |edges| == 0 then None
    else if edges[0].cursor == c then Some(0)
    else match IndexOfCursor(edges[1..], c)
      case None => None
      case Some(i) => Some(i + 1)
  }

  /** ApplyCursorsToEdges(allEdges, before, after), section 4.4. */
  function ApplyCursorsToEdges<T>(allEdges: seq<Edge<T>>, before: Option<Cursor>, after: Option<Cursor>): seq<Edge<T>>
  {
    var edges :=
      if after.Some? && IndexOfCursor(allEdges, after.value).Some?
      then allEdges[IndexOfCursor(allEdges, after.value).value + 1..]
      else allEdges;
    if before.Some? && IndexOfCursor(edges, before.value).Some?
    then edges[..IndexOfCursor(edges, before.value).value]
    else edges
  }

  /** The `first` and `last` steps of EdgesToReturn, section 4.4. */
  function Trim<E>(edges: seq<E>, args: PageArgs): Result<seq<E>, PageError>
  {
    if args.first.Some? && args.first.value < 0 then Err(NegativeFirst)
    else
      var edges1 := if args.first.Some? && |edges| > args.first.value then edges[..args.first.value] else edges;
      if args.last.Some? && args.last.value < 0 then Err(NegativeLast)
      else Ok(if args.last.Some? && |edges1| > args.last.value then edges1[|edges1| - args.last.value..] else edges1)
  }

  /** EdgesToReturn(allEdges, before, after, first, last), section 4.4. */
  function RelayEdges<T>(allEdges: seq<Edge<T>>, args: PageArgs): Result<seq<Edge<T>>, PageError>
  {
    Trim(ApplyCursorsToEdges(allEdges, args.before, args.after), args)
  }

  /**
   * PageInfo, section 5. The clauses a server may answer when it "can
   * efficiently determine" more elements exist are answered false.
   */
  function RelayPageInfo<T>(allEdges: seq<Edge<T>>, args: PageArgs, edges: seq<Edge<T>>): PageInfo
  {
    var cut := ApplyCursorsToEdges(allEdges, args.before, args.after);
    PageInfo(
      if |edges| > 0 then Some(edges[0].cursor) else None,
      if |edges| > 0 then Some(edges[|edges| - 1].cursor) else None,
      args.last.Some? && |cut| > args.last.value,
      args.first.Some? && |cut| > args.first.value)
  }

  function RelayConnection<T>(allEdges: seq<Edge<T>>, args: PageArgs): Result<Page<T>, PageError>
  {
    match RelayEdges(allEdges, args)
    case Err(err) => Err(err)
    case Ok(edges) => Ok(Page(edges, RelayPageInfo(allEdges, args, edges)))
  }

  /** Looking a cursor up among the edges from offset `s` on finds it at its own offset. */
  lemma IndexOfCursorInSuffix<T>(items: seq<T>, s: nat, c: Cursor)
    requires s <= |items|
    ensures var d := DecodeCursor(c);
            IndexOfCursor(AllEdges(items)[s..], c)
            == if d.Some? && s <= d.value < |items| then Some(d.value - s) else None
  {
    var es := AllEdges(items)[s..];
    var d := DecodeCursor(c);
    forall j | 0 <= j < |es|
      ensures es[j].cursor == c <==> d == Some(s + j)
    {
      DecodeCursorSpec(c, s + j);
    }
    var r := IndexOfCursor(es, c);
    if r.Some? {
      assert d == Some(s + r.value);
    }
    if d.Some? && s <= d.value < |items| {
      assert es[d.value - s].cursor == c;
    }
  }

  /** The `after` step of ApplyCursorsToEdges keeps the edges from `AfterStart` on. */
  lemma AfterStep<T>(items: seq<T>, after: Option<Cursor>)
    ensures var all := AllEdges(items);
            (if after.Some? && IndexOfCursor(all, after.value).Some?
             then all[IndexOfCursor(all, after.value).value + 1..] else all)
            == all[AfterStart(|items|, after)..]
  {
    if after.Some? {
      IndexOfCursorInSuffix(items, 0, after.value);
      assert AllEdges(items)[0..] == AllEdges(items);
    }
  }

  /** The `before` step of ApplyCursorsToEdges, on the edges from `s` on, stops at `BeforeEnd`. */
  lemma BeforeStep<T>(items: seq<T>, s: nat, before: Option<Cursor>)
    requires s <= |items|
    ensures var edges := AllEdges(items)[s..];
            (if before.Some? && IndexOfCursor(edges, before.value).Some?
             then edges[..IndexOfCursor(edges, before.value).value] else edges)
            == AllEdges(items)[s..BeforeEnd(|items|, s, before)]
  {
    if before.Some? {
      IndexOfCursorInSuffix(items, s, before.value);
    }
  }

  /** The specification's cursor step cuts all edges to exactly `[AfterStart, BeforeEnd)`. */
  lemma ApplyCursorsWindow<T>(items: seq<T>, before: Option<Cursor>, after: Option<Cursor>)
    ensures var s := AfterStart(|items|, after);
            ApplyCursorsToEdges(AllEdges(items), before, after) == AllEdges(items)[s..BeforeEnd(|items|, s, before)]
  {
    var all := AllEdges(items);
    var s := AfterStart(|items|, after);
    var edges :=
      if after.Some? && IndexOfCursor(all, after.value).Some?
      then all[IndexOfCursor(all, after.value).value + 1..]
      else all;
    AfterStep(items, after);
    assert edges == all[s..];
    BeforeStep(items, s, before);
  }

  /** Trimming a slice `[s, e)` of a list gives the slice `TrimBounds` computes. */
  lemma TrimSlice<E>(a: seq<E>, s: nat, e: nat, args: PageArgs)
    requires s <= e <= |a|
    ensures match TrimBounds(s, e, args)
            case Err(err) => Trim(a[s..e], args) == Err(err)
            case Ok((s1, e1)) => Trim(a[s..e], args) == Ok(a[s1..e1])
  {
    if !(args.first.Some? && args.first.value < 0) {
      var e1: nat := if args.first.Some? && e - s > args.first.value then s + args.first.value else e;
      var edges1 := if args.first.Some? && e - s > args.first.value then a[s..e][..args.first.value] else a[s..e];
      assert edges1 == a[s..e1];
      if !(args.last.Some? && args.last.value < 0) {
        var s1: nat := if args.last.Some? && e1 - s > args.last.value then e1 - args.last.value else s;
        assert (if args.last.Some? && |edges1| > args.last.value then edges1[|edges1| - args.last.value..] else edges1) == a[s1..e1];
      }
    }
  }

  /** The specification's EdgesToReturn gives the slice `Window` computes. */
  lemma RelayEdgesWindow<T>(items: seq<T>, args: PageArgs)
    ensures match Window(|items|, args)
            case Err(err) => RelayEdges(AllEdges(items), args) == Err(err)
            case Ok((s, e)) => RelayEdges(AllEdges(items), args) == Ok(AllEdges(items)[s..e])
  {
    var s := AfterStart(|items|, args.after);
    ApplyCursorsWindow(items, args.before, args.after);
    TrimSlice(AllEdges(items), s, BeforeEnd(|items|, s, args.before), args);
  }

  /**
   * The offset computation returns what the specification's algorithms
   * return: the same edges, the same errors and the same PageInfo.
   */
  lemma ConnectionFollowsRelay<T>(items: seq<T>, args: PageArgs)
    ensures ConnectionFromSlice(items, args) == RelayConnection(AllEdges(items), args)
  {
    RelayEdgesWindow(items, args);
    ApplyCursorsWindow(items, args.before, args.after);
  }

  // ---------------------------------------------------------------------
  // Consequences

  /**
   * With only `first = f`: `min(f, n)` edges from the start, a next page
   * exactly when `f < n`, never a previous page.
   */
  lemma FirstOnly<T>(items: seq<T>, f: nat)
    ensures var r := ConnectionFromSlice(items, PageArgs(Some(f), None, None, None));
            && r.Ok?
            && |r.value.edges| == (if f < |items| then f else |items|)
            && (forall i :: 0 <= i < |r.value.edges| ==> r.value.edges[i].node == items[i])
            && r.value.pageInfo.hasNextPage == (f < |items|)
            && !r.value.pageInfo.hasPreviousPage
  {
  }

  /** After the cursor of offset `c`, the first edge returned holds the node at offset `c + 1`. */
  lemma AfterCursor<T>(items: seq<T>, c: nat, first: Option<int>)
    requires c + 1 < |items|
    requires first.None? || first.value > 0
    ensures var r := ConnectionFromSlice(items, PageArgs(first, None, Some(OffsetToCursor(c)), None));
            r.Ok? && |r.value.edges| > 0 && r.value.edges[0].node == items[c + 1]
            && r.value.edges[0].cursor == OffsetToCursor(c + 1)
  {
    DecodeCursorSpec(OffsetToCursor(c), c);
  }

  /** A page never holds more edges than `first` or `last` ask for. */
  lemma PageBounds<T>(items: seq<T>, args: PageArgs)
    requires ConnectionFromSlice(items, args).Ok?
    ensures var edges := ConnectionFromSlice(items, args).value.edges;
            && |edges| <= |items|
            && (args.first.Some? ==> |edges| <= args.first.value)
            && (args.last.Some? ==> |edges| <= args.last.value)
  {
  }

  /** The start and end cursors are those of the first and last edge. */
  lemma PageCursors<T>(items: seq<T>, args: PageArgs)
    requires ConnectionFromSlice(items, args).Ok?
    ensures var p := ConnectionFromSlice(items, args).value;
            var (s, e) := Window(|items|, args).value;
            && (p.pageInfo.startCursor.Some? <==> s < e)
            && (s < e ==> p.pageInfo.startCursor == Some(OffsetToCursor(s)) && p.pageInfo.endCursor == Some(OffsetToCursor(e - 1)))
  {
  }
}
