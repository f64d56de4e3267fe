/**
 * The self-contained helpers of `utils.py`: removing empty values from
 * nested data, unwrapping list and non-null type wrappers, flattening a
 * Django `ValidationError`, merging related-field queries onto a manager,
 * and deciding whether a model field is required.
 */
module Utils {
  import opened Wrappers
  import opened Common
  import opened OrderedDicts

  /** A value that is neither a dict nor a list: what `clean_dict` returns as it is. */
  type Scalar = v: Value | !v.Nested? && !v.Items? witness Null

  /** Nested data as `clean_dict` sees it: a dict (ordered), a list, or any other value. */
  datatype Data =
    | Atom(v: Scalar)
    | Dict(entries: seq<(string, Data)>)
    | List(items: seq<Data>)

  /** Python truthiness: empty dicts and lists are falsy, other values by their own rule. */
  predicate DataTruthy(d: Data)
  {
    match d
    case Atom(v) => Truthy(v)
    case Dict(es) => es != []
    case List(xs) => xs != []
  }

  /** No falsy value anywhere inside: every list item and every dict value is truthy, at every depth. */
  predicate IsClean(d: Data)
  {
    match d
    case Atom(_) => true
    case Dict(es) => EntriesAreClean(es)
    case List(xs) => ItemsAreClean(xs)
  }

  predicate ItemsAreClean(xs: seq<Data>)
  {
    forall i :: 0 <= i < |xs| ==> DataTruthy(xs[i]) && IsClean(xs[i])
  }

  predicate EntriesAreClean(es: seq<(string, Data)>)
  {
    forall i :: 0 <= i < |es| ==> var e := es[i]; assert e.1 < e; DataTruthy(e.1) && IsClean(e.1)
  }

  /** `clean_dict(d)`. */
  function Clean(d: Data): (r: Data)
    ensures d.Atom? ==> r == d
    ensures d.List? <==> r.List?
    ensures d.Dict? <==> r.Dict?
    decreases d
  {
    match d
    case Atom(_) => d
    case List(xs) => List(CleanItems(xs))
    case Dict(es) => Dict(CleanEntries(es))
  }

  /** `[v for v in (clean_dict(v) for v in d) if v]`. */
  function CleanItems(xs: seq<Data>): seq<Data>
    decreases xs
  {
    if xs == [] then []
    else
      var c := Clean(xs[0]);
      (if DataTruthy(c) then [c] else []) + CleanItems(xs[1..])
  }

  /** The entries `(k, clean_dict(v))` whose cleaned value is truthy. */
  function CleanEntries(es: seq<(string, Data)>): seq<(string, Data)>
    decreases es
  {
    if es == [] then []
    else
      var (k, v) := es[0];
      assert v < es[0];
      var c := Clean(v);
      (if DataTruthy(c) then [(k, c)] else []) + CleanEntries(es[1..])
  }

  /** The result of `clean_dict` holds no falsy value at any depth. */
  lemma {:induction false} CleanIsClean(d: Data)
    ensures IsClean(Clean(d))
    decreases d
  {
    match d
    case Atom(_) =>
    case List(xs) => CleanItemsAreClean(xs);
    case Dict(es) => CleanEntriesAreClean(es);
  }

  lemma {:induction false} CleanItemsAreClean(xs: seq<Data>)
    ensures ItemsAreClean(CleanItems(xs))
    decreases xs
  {
    if xs != [] {
      CleanIsClean(xs[0]);
      CleanItemsAreClean(xs[1..]);
    }
  }

  lemma {:induction false} CleanEntriesAreClean(es: seq<(string, Data)>)
    ensures EntriesAreClean(CleanEntries(es))
    decreases es
  {
    if es != [] {
      var (k, v) := es[0];
      assert v < es[0];
      CleanIsClean(v);
      CleanEntriesAreClean(es[1..]);
      var c := Clean(v);
      var head := if DataTruthy(c) then [(k, c)] else [];
      assert CleanEntries(es) == head + CleanEntries(es[1..]);
    }
  }

  /** Data that is already clean comes back unchanged. */
  lemma {:induction false} CleanFixesClean(d: Data)
    requires IsClean(d)
    ensures Clean(d) == d
    decreases d
  {
    match d
    case Atom(_) =>
    case List(xs) => CleanItemsFixClean(xs);
    case Dict(es) => CleanEntriesFixClean(es);
  }

  lemma {:induction false} CleanItemsFixClean(xs: seq<Data>)
    requires ItemsAreClean(xs)
    ensures CleanItems(xs) == xs
    decreases xs
  {
    if xs != [] {
      CleanFixesClean(xs[0]);
      CleanItemsFixClean(xs[1..]);
      assert [xs[0]] + xs[1..] == xs;
    }
  }

  lemma {:induction false} CleanEntriesFixClean(es: seq<(string, Data)>)
    requires EntriesAreClean(es)
    ensures CleanEntries(es) == es
    decreases es
  {
    if es != [] {
      var (k, v) := es[0];
      assert v < es[0];
      assert es[0].1 == v;
      CleanFixesClean(v);
      CleanEntriesFixClean(es[1..]);
      assert [es[0]] + es[1..] == es;
    }
  }

  /** `clean_dict` is idempotent. */
  lemma CleanIdempotent(d: Data)
    ensures Clean(Clean(d)) == Clean(d)
  {
    CleanIsClean(d);
    CleanFixesClean(Clean(d));
  }

  /** `a` is `b` with some elements left out, the rest in their order. */
  predicate Subsequence<T(==)>(a: seq<T>, b: seq<T>)
    decreases |b|
  {
    if a == [] then true
    else if b == [] then false
    else (a[0] == b[0] && Subsequence(a[1..], b[1..])) || Subsequence(a, b[1..])
  }

  /**
   * `clean_dict` keeps order: a cleaned list is its cleaned items in their
   * order with the falsy ones left out, and every truthy cleaned item is
   * kept.
   */
  lemma {:induction false} CleanItemsOrder(xs: seq<Data>)
    ensures Subsequence(CleanItems(xs), seq(|xs|, i requires 0 <= i < |xs| => Clean(xs[i])))
    ensures forall i :: 0 <= i < |xs| && DataTruthy(Clean(xs[i])) ==> Clean(xs[i]) in CleanItems(xs)
    decreases xs
  {
    var mapped := seq(|xs|, i requires 0 <= i < |xs| => Clean(xs[i]));
    if xs != [] {
      CleanItemsOrder(xs[1..]);
      var rest := seq(|xs[1..]|, i requires 0 <= i < |xs[1..]| => Clean(xs[1..][i]));
      assert mapped[1..] == rest;
      var c := Clean(xs[0]);
      if DataTruthy(c) {
        assert mapped[0] == c;
        assert CleanItems(xs) == [c] + CleanItems(xs[1..]);
        assert CleanItems(xs)[1..] == CleanItems(xs[1..]);
      } else {
        assert CleanItems(xs) == CleanItems(xs[1..]);
        SubsequenceSkip(CleanItems(xs[1..]), mapped);
      }
      forall i | 0 <= i < |xs| && DataTruthy(Clean(xs[i]))
        ensures Clean(xs[i]) in CleanItems(xs)
      {
        if i > 0 {
          assert Clean(xs[i]) == Clean(xs[1..][i - 1]);
        }
      }
    }
  }

  /** The entries of a cleaned dict, likewise: the keys keep their order. */
  lemma {:induction false} CleanEntriesOrder(es: seq<(string, Data)>)
    ensures Subsequence(CleanEntries(es), seq(|es|, i requires 0 <= i < |es| => (es[i].0, Clean(es[i].1))))
    ensures forall i :: 0 <= i < |es| && DataTruthy(Clean(es[i].1)) ==> (es[i].0, Clean(es[i].1)) in CleanEntries(es)
    decreases es
  {
    var mapped := seq(|es|, i requires 0 <= i < |es| => (es[i].0, Clean(es[i].1)));
    if es != [] {
      CleanEntriesOrder(es[1..]);
      var rest := seq(|es[1..]|, i requires 0 <= i < |es[1..]| => (es[1..][i].0, Clean(es[1..][i].1)));
      assert mapped[1..] == rest;
      var (k, v) := es[0];
      var c := Clean(v);
      if DataTruthy(c) {
        assert mapped[0] == (k, c);
        assert CleanEntries(es) == [(k, c)] + CleanEntries(es[1..]);
        assert CleanEntries(es)[1..] == CleanEntries(es[1..]);
      } else {
        assert CleanEntries(es) == CleanEntries(es[1..]);
        SubsequenceSkip(CleanEntries(es[1..]), mapped);
      }
      forall i | 0 <= i < |es| && DataTruthy(Clean(es[i].1))
        ensures (es[i].0, Clean(es[i].1)) in CleanEntries(es)
      {
        if i > 0 {
          assert es[i] == es[1..][i - 1];
        }
      }
    }
  }

  lemma SubsequenceSkip<T>(a: seq<T>, b: seq<T>)
    requires b != [] && Subsequence(a, b[1..])
    ensures Subsequence(a, b)
  {
  }

  /** A GraphQL type reference: a named type, or a list or non-null wrapper around one. */
  datatype GqlType = NamedType(name: string) | ListType(ofType: GqlType) | NonNullType(ofType: GqlType)

  /** `get_type(_type)`: the named type under every wrapper. */
  function GetType(t: GqlType): (r: GqlType)
    ensures r.NamedType?
    ensures t.NamedType? ==> r == t
  {
    match t
    case NamedType(_) => t
    case ListType(inner) => GetType(inner)
    case NonNullType(inner) => GetType(inner)
  }

  /** A named type under a stack of wrappers, outermost first (`true` for a list, `false` for non-null). */
  function Wrap(name: string, wrappers: seq<bool>): GqlType
    decreases |wrappers|
  {
    if wrappers == [] then NamedType(name)
    else if wrappers[0] then ListType(Wrap(name, wrappers[1..]))
    else NonNullType(Wrap(name, wrappers[1..]))
  }

  /** Whatever wrappers surround a named type, `get_type` gives that type back. */
  lemma {:induction false} GetTypeUnwraps(name: string, wrappers: seq<bool>)
    ensures GetType(Wrap(name, wrappers)) == NamedType(name)
    decreases |wrappers|
  {
    if wrappers != [] {
      GetTypeUnwraps(name, wrappers[1..]);
    }
  }

  /**
   * A `ValidationError`'s `error_dict`: for each field, in order, the
   * errors raised for it, each given by its `messages`.
   */
  type ErrorDict = ODict<seq<seq<string>>>

  /** One `{field, messages}` entry per error of one field, in order. */
  function FieldErrors(field: string, excs: seq<seq<string>>): (r: seq<MutationError>)
    ensures |r| == |excs|
    ensures forall j :: 0 <= j < |excs| ==> r[j] == MutationError(Some(field), excs[j])
  {
    seq(|excs|, j requires 0 <= j < |excs| => MutationError(Some(field), excs[j]))
  }

  /** The entries `parse_validation_exc` emits for an error dict. */
  function ErrorEntries(ed: ErrorDict): (r: seq<MutationError>)
    ensures forall e :: e in r ==> e.field.Some? && e.field.value in Keys(ed)
    decreases |ed|
  {
    if ed == [] then []
    else
      var init := ed[..|ed| - 1];
      assert forall k :: k in Keys(init) ==> k in Keys(ed) by {
        forall k | k in Keys(init) ensures k in Keys(ed) {
          var i :| 0 <= i < |init| && Keys(init)[i] == k;
          assert Keys(ed)[i] == k;
        }
      }
      assert Keys(ed)[|ed| - 1] == ed[|ed| - 1].0;
      ErrorEntries(init) + FieldErrors(ed[|ed| - 1].0, ed[|ed| - 1].1)
  }

  /** The number of errors in an error dict. */
  function ErrorCount(ed: ErrorDict): nat
  {
    if ed == [] then 0 else |ed[0].1| + ErrorCount(ed[1..])
  }

  /**
   * The entries follow the error dict: those of the first fields, then
   * those of the later ones.
   */
  lemma {:induction false} ErrorEntriesAppend(a: ErrorDict, b: ErrorDict)
    ensures ErrorEntries(a + b) == ErrorEntries(a) + ErrorEntries(b)
    decreases |b|
  {
    if b != [] {
      var n := |b| - 1;
      assert (a + b)[..|a + b| - 1] == a + b[..n];
      assert (a + b)[|a + b| - 1] == b[n];
      ErrorEntriesAppend(a, b[..n]);
    } else {
      assert a + b == a;
    }
  }

  /** One entry per (field, error) pair: as many entries as errors. */
  lemma {:induction false} ErrorEntriesCount(ed: ErrorDict)
    ensures |ErrorEntries(ed)| == ErrorCount(ed)
    decreases |ed|
  {
    if ed != [] {
      ErrorEntriesAppend([ed[0]], ed[1..]);
      assert [ed[0]] + ed[1..] == ed;
      assert [ed[0]][..0] == [];
      assert ErrorEntries([ed[0]]) == FieldErrors(ed[0].0, ed[0].1);
      ErrorEntriesCount(ed[1..]);
    }
  }

  /** `parse_validation_exc(validation_exc)`: the nested loops over fields and their errors. */
  method ParseValidationExc(ed: ErrorDict) returns (errors: seq<MutationError>)
    ensures errors == ErrorEntries(ed)
  {
    errors := [];
    for i := 0 to |ed|
      invariant errors == ErrorEntries(ed[..i])
    {
      var (key, value) := ed[i];
      ghost var before := errors;
      for j := 0 to |value|
        invariant errors == before + FieldErrors(key, value[..j])
      {
        errors := errors + [MutationError(Some(key), value[j])];
        assert FieldErrors(key, value[..j + 1]) == FieldErrors(key, value[..j]) + [MutationError(Some(key), value[j])];
      }
      assert value[..|value|] == value;
      assert ed[..i + 1][..i] == ed[..i];
    }
    assert ed[..|ed|] == ed;
  }

  /** A manager or QuerySet with the `select_related` / `prefetch_related` calls made on it, in order. */
  datatype RelatedCall = SelectRelated(fields: seq<string>) | PrefetchRelated(fields: seq<string>)
  datatype Manager = Manager(model: string, calls: seq<RelatedCall>)

  /** `merge_related_queries(manager, select_related, prefetch_related)`. */
  function MergeRelatedQueries(m: Manager, selectRelated: seq<string>, prefetchRelated: seq<string>): (r: Manager)
    ensures r.model == m.model
    ensures |r.calls| >= |m.calls| && r.calls[..|m.calls|] == m.calls
    ensures (SelectRelated(selectRelated) in r.calls[|m.calls|..]) <==> selectRelated != []
    ensures (PrefetchRelated(prefetchRelated) in r.calls[|m.calls|..]) <==> prefetchRelated != []
    ensures |r.calls| - |m.calls| == (if selectRelated != [] then 1 else 0) + (if prefetchRelated != [] then 1 else 0)
    ensures selectRelated == [] && prefetchRelated == [] ==> r == m
  {
    if selectRelated != [] && prefetchRelated != [] then
      m.(calls := m.calls + [SelectRelated(selectRelated), PrefetchRelated(prefetchRelated)])
    else if selectRelated == [] && prefetchRelated != [] then
      m.(calls := m.calls + [PrefetchRelated(prefetchRelated)])
    else if selectRelated != [] && prefetchRelated == [] then
      m.(calls := m.calls + [SelectRelated(selectRelated)])
    else m
  }

  /** `select_related` is applied before `prefetch_related` when both are. */
  lemma SelectBeforePrefetch(m: Manager, selectRelated: seq<string>, prefetchRelated: seq<string>)
    requires selectRelated != [] && prefetchRelated != []
    ensures MergeRelatedQueries(m, selectRelated, prefetchRelated).calls[|m.calls|] == SelectRelated(selectRelated)
    ensures MergeRelatedQueries(m, selectRelated, prefetchRelated).calls[|m.calls| + 1] == PrefetchRelated(prefetchRelated)
  {
  }

  /**
   * The objects `is_required` inspects: `None`, a bool, Django's
   * `NOT_PROVIDED` class, or another object with its optional `blank` and
   * `default` attributes (any object of that kind is truthy).
   */
  datatype Obj = NoneObj | BoolObj(b: bool) | NotProvided | OtherObj(id: nat, blank: Option<Obj>, default: Option<Obj>)

  /** A (model or serializer) field: its `blank`, `default` and `field` attributes, if present. */
  datatype FieldAttrs = FieldAttrs(blank: Option<Obj>, default: Option<Obj>, field: Option<Obj>)

  predicate ObjTruthy(o: Obj)
  {
    match o
    case NoneObj => false
    case BoolObj(b) => b
    case NotProvided => true
    case OtherObj(_, _, _) => true
  }

  /** `getattr(field, name, getattr(field, "field", None))`. */
  function AttrOrField(own: Option<Obj>, field: Option<Obj>): Obj
  {
    if own.Some? then own.value else if field.Some? then field.value else NoneObj
  }

  /** `blank` after its normalisation. */
  function ResolvedBlank(f: FieldAttrs): (b: Obj)
    ensures AttrOrField(f.blank, f.field) == NoneObj ==> b == BoolObj(true)
    ensures AttrOrField(f.blank, f.field).BoolObj? ==> b == AttrOrField(f.blank, f.field)
  {
    var blank := AttrOrField(f.blank, f.field);
    match blank
    case NoneObj => BoolObj(true)
    case BoolObj(_) => blank
    case NotProvided => BoolObj(true)
    case OtherObj(_, b, _) => if b.Some? then b.value else BoolObj(true)
  }

  /** `default` after its normalisation. */
  function ResolvedDefault(f: FieldAttrs): (d: Obj)
    ensures AttrOrField(f.default, f.field) == NoneObj ==> d == NotProvided
    ensures AttrOrField(f.default, f.field) == NotProvided ==> d == NotProvided
  {
    var default := AttrOrField(f.default, f.field);
    match default
    case NoneObj => NotProvided
    case NotProvided => NotProvided
    case BoolObj(_) => default
    case OtherObj(_, _, d) => if d.Some? then d.value else default
  }

  /**
   * `is_required(field)`: a field is required only when its `blank` says no
   * and no default was given; a missing `blank` or a boolean default makes it
   * optional.
   */
  function IsRequired(f: FieldAttrs): (r: bool)
    ensures AttrOrField(f.blank, f.field) == NoneObj ==> !r
    ensures AttrOrField(f.blank, f.field) == BoolObj(true) ==> !r
    ensures AttrOrField(f.default, f.field).BoolObj? ==> !r
    ensures r ==> ResolvedDefault(f) == NotProvided && !ObjTruthy(ResolvedBlank(f))
  {
    !ObjTruthy(ResolvedBlank(f)) && ResolvedDefault(f) == NotProvided
  }

  /** A model field with a boolean `blank` and no default is required exactly when it may not be blank. */
  lemma IsRequiredModelField(blank: bool, default: Option<Obj>)
    requires default.None? || default == Some(NotProvided) || default == Some(NoneObj)
    ensures IsRequired(FieldAttrs(Some(BoolObj(blank)), default, None)) <==> !blank
  {
  }

  /** A field with a real default is never required. */
  lemma DefaultMakesOptional(blank: Option<Obj>, default: Obj, field: Option<Obj>)
    requires default.BoolObj? || (default.OtherObj? && default.default.None?)
    ensures !IsRequired(FieldAttrs(blank, Some(default), field))
  {
  }

  /**
   * A serializer field without `blank` and `default` of its own is judged
   * by the model field behind it.
   */
  lemma IsRequiredDelegates(id: nat, blank: bool, default: Obj)
    ensures IsRequired(FieldAttrs(None, None, Some(OtherObj(id, Some(BoolObj(blank)), Some(default)))))
        <==> !blank && default == NotProvided
  {
  }
}
