/**
 * The connection field resolver: a value the field's resolver produced is
 * returned as it is when it already is a connection, rejected when it is
 * not iterable, and otherwise windowed into a page over the whole
 * collection. Also the `ordering` argument of the page-limited Django
 * connection field, and the default for `first`.
 */
module Connections {
  import opened Wrappers
  import opened Common
  import opened Text
  import opened Relay

  /**
   * An iterable the resolver can produce: a Django QuerySet (its rows and
   * the keys of its last `order_by`) or any other iterable.
   */
  datatype Collection =
    | QuerySet(rows: seq<Value>, orderBy: seq<string>)
    | Iterable(items: seq<Value>)

  /** An instance of a connection type: its type, its page, and `iterable`. */
  datatype Connection = Connection(typeName: string, page: Page<Value>, iterable: Collection)

  /** What a resolver returns, as `resolve_connection` tells it apart. */
  datatype Resolved =
    | AsConnection(conn: Connection)
    | AsCollection(collection: Collection)
    | NotIterable(repr: string, truthy: bool)

  /** A value or a promise of one; `Pending` holds the value the promise settles with. */
  datatype Eventual<T> = Ready(value: T) | Pending(settled: T)

  /** The connection type of the field, possibly wrapped in `NonNull`. */
  datatype ConnectionType = ConnectionType(name: string, resolveObjects: Option<map<string, Value> -> Eventual<Resolved>>)
  datatype ConnectionTypeRef = Nullable(ct: ConnectionType) | NonNull(ofType: ConnectionType)

  datatype ConnError = NotIterableError(message: string) | PaginationError(error: PageError)

  /** The nodes of a collection and their number: `count()` for a QuerySet, `len()` otherwise. */
  function Nodes(c: Collection): seq<Value>
  {
    match c
    case QuerySet(rows, _) => rows
    case Iterable(items) => items
  }

  function Length(c: Collection): (n: nat)
    ensures n == |Nodes(c)|
  {
    match c
    case QuerySet(rows, _) => |rows|
    case Iterable(items) => |items|
  }

  /** The pagination arguments among the field arguments; `None` and absent are the same. */
  function PageArgsOf(args: map<string, Value>): PageArgs
  {
    PageArgs(
      if "first" in args && args["first"].Int? then Some(args["first"].i) else None,
      if "last" in args && args["last"].Int? then Some(args["last"].i) else None,
      if "after" in args && args["after"].Str? then Some(Cursor(args["after"].s)) else None,
      if "before" in args && args["before"].Str? then Some(Cursor(args["before"].s)) else None)
  }

  function ReprOf(r: Resolved): string
  {
    match r
    case AsConnection(c) => "<" + c.typeName + " object>"
    case AsCollection(_) => "<iterable>"
    case NotIterable(repr, _) => repr
  }

  function NotIterableMessage(typeName: string, repr: string): string
  {
    "Resolved value from the connection field have to be iterable or instance of " + typeName
      + ". Received \"" + repr + "\""
  }

  /** `resolve_connection(connection_type, args, resolved)`. */
  function ResolveConnection(typeName: string, args: map<string, Value>, resolved: Resolved): (r: Result<Connection, ConnError>)
    ensures resolved.AsConnection? && resolved.conn.typeName == typeName ==> r == Ok(resolved.conn)
    ensures (resolved.AsConnection? && resolved.conn.typeName != typeName) || resolved.NotIterable?
            ==> r == Err(NotIterableError(NotIterableMessage(typeName, ReprOf(resolved))))
    ensures resolved.AsCollection? ==>
      var page := ConnectionFromSlice(Nodes(resolved.collection), PageArgsOf(args));
      && (r.Ok? <==> page.Ok?)
      && (page.Err? ==> r == Err(PaginationError(page.error)))
      && (r.Ok? ==> r.value == Connection(typeName, page.value, resolved.collection))
  {
    match resolved
    case AsConnection(c) =>
      if c.typeName == typeName then Ok(c) else Err(NotIterableError(NotIterableMessage(typeName, ReprOf(resolved))))
    case NotIterable(repr, _) => Err(NotIterableError(NotIterableMessage(typeName, repr)))
    case AsCollection(col) =>
      var n := Length(col);
      assert n == |Nodes(col)|;
      match ConnectionFromSlice(Nodes(col), PageArgsOf(args))
      case Err(e) => Err(PaginationError(e))
      case Ok(page) => Ok(Connection(typeName, page, col))
  }

  /** Resolving what the resolver already resolved gives it back unchanged. */
  lemma ResolveConnectionIdempotent(typeName: string, args: map<string, Value>, resolved: Resolved)
    requires ResolveConnection(typeName, args, resolved).Ok?
    ensures var c := ResolveConnection(typeName, args, resolved).value;
            ResolveConnection(typeName, args, AsConnection(c)) == Ok(c)
  {
  }

  /**
   * A windowed collection keeps every node in `iterable`, and its edges are
   * the nodes of one contiguous window, each under the cursor of its
   * absolute offset.
   */
  lemma ResolvedWindow(typeName: string, args: map<string, Value>, col: Collection)
    requires ResolveConnection(typeName, args, AsCollection(col)).Ok?
    ensures var c := ResolveConnection(typeName, args, AsCollection(col)).value;
            var (s, e) := Window(Length(col), PageArgsOf(args)).value;
            && c.iterable == col
            && s <= e <= Length(col)
            && |c.page.edges| == e - s
            && forall i :: 0 <= i < e - s ==> c.page.edges[i] == Edge(Nodes(col)[s + i], OffsetToCursor(s + i))
  {
  }

  /** Truthiness of an eventual value: a promise is an object, hence truthy. */
  predicate TruthyResolved(e: Eventual<Resolved>)
  {
    match e
    case Pending(_) => true
    case Ready(AsConnection(_)) => true
    case Ready(AsCollection(c)) => Length(c) > 0
    case Ready(NotIterable(_, truthy)) => truthy
  }

  function Unwrap(t: ConnectionTypeRef): ConnectionType
  {
    match t
    case Nullable(ct) => ct
    case NonNull(ct) => ct
  }

  /**
   * `resolve_objects` replaces a falsy resolver result when the connection
   * type defines it.
   */
  function WithFallback(ct: ConnectionType, args: map<string, Value>, resolved: Eventual<Resolved>): (r: Eventual<Resolved>)
    ensures TruthyResolved(resolved) || ct.resolveObjects.None? ==> r == resolved
    ensures !TruthyResolved(resolved) && ct.resolveObjects.Some? ==> r == ct.resolveObjects.value(args)
  {
    if !TruthyResolved(resolved) && ct.resolveObjects.Some? then ct.resolveObjects.value(args) else resolved
  }

  /**
   * `maybe_thenable(resolved, on_resolve)`: the same windowing applies to a
   * ready value now and to a promise once it settles.
   */
  function OnResolve(typeName: string, args: map<string, Value>, e: Eventual<Resolved>): (r: Eventual<Result<Connection, ConnError>>)
    ensures e.Ready? <==> r.Ready?
    ensures e.Ready? ==> r.value == ResolveConnection(typeName, args, e.value)
    ensures e.Pending? ==> r.settled == ResolveConnection(typeName, args, e.settled)
  {
    match e
    case Ready(v) => Ready(ResolveConnection(typeName, args, v))
    case Pending(v) => Pending(ResolveConnection(typeName, args, v))
  }

  /**
   * `ConnectionField.connection_resolver(resolver, connection_type, root,
   * info, **args)`; the resolver is given with root and info applied.
   */
  function ConnectionResolver(resolver: map<string, Value> -> Eventual<Resolved>, t: ConnectionTypeRef,
                              args: map<string, Value>): (r: Eventual<Result<Connection, ConnError>>)
    ensures var e := resolver(args); var ct := Unwrap(t);
            TruthyResolved(e) || ct.resolveObjects.None? ==>
              && (r.Ready? <==> e.Ready?)
              && (e.Ready? ==> r.value == ResolveConnection(ct.name, args, e.value))
              && (e.Pending? ==> r.settled == ResolveConnection(ct.name, args, e.settled))
    ensures var e := resolver(args); var ct := Unwrap(t);
            !TruthyResolved(e) && ct.resolveObjects.Some? ==>
              var f := ct.resolveObjects.value(args);
              && (r.Ready? <==> f.Ready?)
              && (f.Ready? ==> r.value == ResolveConnection(ct.name, args, f.value))
              && (f.Pending? ==> r.settled == ResolveConnection(ct.name, args, f.settled))
  {
    var ct := Unwrap(t);
    OnResolve(ct.name, args, WithFallback(ct, args, resolver(args)))
  }

  /**
   * A resolver result that already is a connection of the field's type
   * comes back unchanged, whether or not the type is wrapped in `NonNull`
   * and whether it is ready or pending.
   */
  lemma ConnectionResolverKeepsConnections(resolver: map<string, Value> -> Eventual<Resolved>, t: ConnectionTypeRef,
                                           args: map<string, Value>)
    requires var e := resolver(args); var v := if e.Ready? then e.value else e.settled;
             v.AsConnection? && v.conn.typeName == Unwrap(t).name
    ensures var e := resolver(args); var c := (if e.Ready? then e.value else e.settled).conn;
            ConnectionResolver(resolver, t, args) == if e.Ready? then Ready(Ok(c)) else Pending(Ok(c))
  {
  }

  /** The argument defaults of the field: GraphQL fills in `first` when the query leaves it out. */
  function WithDefaultFirst(args: map<string, Value>, pageSize: Value): (r: map<string, Value>)
    ensures r.Keys == args.Keys + {"first"}
    ensures "first" !in args ==> r["first"] == pageSize
    ensures forall k :: k in args ==> r[k] == args[k]
  {
    if "first" in args then args else args["first" := pageSize]
  }

  /** The ordering keys an `ordering` string gives. */
  function OrderingKeys(order: string): seq<string>
  {
    if Contains(order, ",") then Split(RemoveChar(Strip(order, ','), ' '), ',') else [order]
  }

  /**
   * With a comma, the keys joined by commas give back the string with
   * leading and trailing commas stripped and every space removed; no key
   * holds a space or a comma.
   */
  lemma OrderingKeysRoundTrip(order: string)
    requires Contains(order, ",")
    ensures var keys := OrderingKeys(order);
            && |keys| >= 1
            && Join(keys, ',') == RemoveChar(Strip(order, ','), ' ')
            && forall i :: 0 <= i < |keys| ==> ' ' !in keys[i] && ',' !in keys[i]
  {
    var squeezed := RemoveChar(Strip(order, ','), ' ');
    JoinSplit(squeezed, ',');
    var keys := Split(squeezed, ',');
    forall i | 0 <= i < |keys|
      ensures ' ' !in keys[i]
    {
      if ' ' in keys[i] {
        SplitPiecesFrom(squeezed, ',', i, ' ');
      }
    }
  }

  /** Without a comma the string is the one key, exactly as given. */
  lemma OrderingKeysSingle(order: string)
    requires !Contains(order, ",")
    ensures OrderingKeys(order) == [order]
  {
  }

  /** The ordering `resolve_queryset` applies: only to a QuerySet, only for a non-empty `ordering`. */
  function OrderedQueryset(qs: Collection, order: Option<string>): (r: Collection)
    ensures !(StringIsSet(order) && qs.QuerySet?) ==> r == qs
    ensures StringIsSet(order) && qs.QuerySet? ==> r == qs.(orderBy := OrderingKeys(order.value))
    ensures Nodes(r) == Nodes(qs)
  {
    if StringIsSet(order) && qs.QuerySet? then qs.(orderBy := OrderingKeys(order.value)) else qs
  }

  /**
   * `DjangoConnectionPageLimitField.resolve_queryset`, from the QuerySet the
   * parent class resolved and `args.get('ordering')`.
   */
  method ResolveQueryset(resolvedQs: Collection, order: Option<string>) returns (qs: Collection)
    ensures qs == OrderedQueryset(resolvedQs, order)
  {
    qs := resolvedQs;
    var isQueryset := qs.QuerySet?;
    if StringIsSet(order) && isQueryset {
      var o := order.value;
      if Contains(o, ",") {
        var stripped := Strip(o, ',');
        var squeezed := RemoveChar(stripped, ' ');
        var keys := Split(squeezed, ',');
        if |keys| > 0 {
          qs := qs.(orderBy := keys);
        }
      } else {
        qs := qs.(orderBy := [o]);
      }
    }
  }
}
