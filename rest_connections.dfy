/**
 * The connection fields of the DRF integration: the same windowing, with a
 * default page size put into the arguments when the query bounds neither
 * end of the page.
 */
module RestConnections {
  import opened Wrappers
  import opened Common
  import opened Connections

  /** Neither `first` nor `last` is truthy (absent, `None` or 0). */
  predicate Unbounded(args: map<string, Value>)
  {
    !Truthy(GetOrNull(args, "first")) && !Truthy(GetOrNull(args, "last"))
  }

  /** The arguments after `args['first'] = DEFAULT_PAGE_SIZE` when the page is unbounded. */
  function InjectDefaultFirst(args: map<string, Value>, pageSize: Value): (r: map<string, Value>)
    ensures Unbounded(args) ==> r == args["first" := pageSize]
    ensures !Unbounded(args) ==> r == args
  {
    if Unbounded(args) then args["first" := pageSize] else args
  }

  /** Injecting twice is injecting once, for a truthy page size. */
  lemma InjectDefaultFirstIdempotent(args: map<string, Value>, pageSize: Value)
    requires Truthy(pageSize)
    ensures InjectDefaultFirst(InjectDefaultFirst(args, pageSize), pageSize) == InjectDefaultFirst(args, pageSize)
  {
  }

  /**
   * After injection with a truthy page size the page is always bounded, and
   * only `first` can have changed.
   */
  lemma InjectDefaultFirstBounds(args: map<string, Value>, pageSize: Value)
    requires Truthy(pageSize)
    ensures var r := InjectDefaultFirst(args, pageSize);
            && !Unbounded(r)
            && r.Keys <= args.Keys + {"first"}
            && forall k :: k in args && k != "first" ==> r[k] == args[k]
  {
  }

  /** The dictionary update `connection_resolver` performs on its arguments. */
  method InjectInPlace(args: map<string, Value>, pageSize: Value) returns (args': map<string, Value>)
    ensures args' == InjectDefaultFirst(args, pageSize)
  {
    args' := args;
    var first := GetOrNull(args', "first");
    var last := GetOrNull(args', "last");
    if !Truthy(first) && !Truthy(last) {
      args' := args'["first" := pageSize];
    }
  }

  /**
   * `ConnectionField.connection_resolver` of the DRF integration: the
   * resolver is called with the arguments as given; the `resolve_objects`
   * fallback and the windowing see the arguments after injection.
   */
  method RestConnectionResolver(resolver: map<string, Value> -> Eventual<Resolved>, t: ConnectionTypeRef,
                                args: map<string, Value>, pageSize: Value)
    returns (r: Eventual<Result<Connection, ConnError>>)
    ensures var injected := InjectDefaultFirst(args, pageSize);
            r == OnResolve(Unwrap(t).name, injected, WithFallback(Unwrap(t), injected, resolver(args)))
  {
    var resolved := resolver(args);
    var args' := InjectInPlace(args, pageSize);
    var ct := Unwrap(t);
    if !TruthyResolved(resolved) && ct.resolveObjects.Some? {
      resolved := ct.resolveObjects.value(args');
    }
    r := OnResolve(ct.name, args', resolved);
  }

  /**
   * With no bound in the query and a positive page size, a collection the
   * resolver produced is cut to at most that many edges.
   */
  lemma DefaultPageSizeBoundsPage(resolver: map<string, Value> -> Eventual<Resolved>, t: ConnectionTypeRef,
                                  args: map<string, Value>, size: nat, col: Collection)
    requires Unbounded(args) && size > 0
    requires resolver(args) == Ready(AsCollection(col)) && Length(col) > 0
    ensures var injected := InjectDefaultFirst(args, Int(size));
            var r := OnResolve(Unwrap(t).name, injected, WithFallback(Unwrap(t), injected, resolver(args)));
            r.Ready? && r.value.Ok? && |r.value.value.page.edges| <= size
  {
    var injected := InjectDefaultFirst(args, Int(size));
    Relay.PageBounds(Nodes(col), PageArgsOf(injected));
  }

  /**
   * `DjangoConnectionPageLimitField.connection_resolver(*args, **kwargs)`:
   * the same default applied to the keyword arguments before delegating to
   * graphene_django's resolver.
   */
  method PageLimitConnectionResolver<R>(kwargs: map<string, Value>, pageSize: Value, delegate: map<string, Value> -> R)
    returns (r: R)
    ensures r == delegate(InjectDefaultFirst(kwargs, pageSize))
  {
    var kwargs' := InjectInPlace(kwargs, pageSize);
    r := delegate(kwargs');
  }
}
