/**
 * The requested-field helpers of `utils.py`: the nested dictionary of the
 * fields a query asks for, extracted from the GraphQL selections, and the
 * list of `__`-joined related-field paths built from it for
 * `select_related` / `prefetch_related`.
 */
module RequestedFields {
  import opened Wrappers
  import opened OrderedDicts

  /**
   * A selection of the GraphQL AST: a field with its name and, when it has
   * one, its selection set; a fragment spread; an inline fragment.
   */
  datatype Selection =
    | FieldNode(name: string, hasSelectionSet: bool, selections: seq<Selection>)
    | FragmentSpread(name: string)
    | InlineFragment

  /** The number of selection nodes, for termination. */
  function Size(s: Selection): (n: nat)
    ensures n >= 1
    decreases s
  {
    match s
    case FieldNode(_, _, sub) => 1 + SizeAll(sub)
    case _ => 1
  }

  function SizeAll(ss: seq<Selection>): nat
    decreases ss
  {
    if ss == [] then 0 else Size(ss[0]) + SizeAll(ss[1..])
  }

  lemma {:induction false} SizeAllElement(ss: seq<Selection>, i: nat)
    requires i < |ss|
    ensures Size(ss[i]) <= SizeAll(ss)
    ensures SizeAll(ss[i + 1..]) < SizeAll(ss[i..])
    decreases i
  {
    assert ss[i..][0] == ss[i] && ss[i..][1..] == ss[i + 1..];
    if i > 0 {
      SizeAllElement(ss[1..], i - 1);
      assert ss[1..][i - 1] == ss[i];
    }
  }

  /** The nested dictionary `extract_requested_fields` returns. */
  datatype Requested = Requested(fields: ODict<Requested>)

  /**
   * `info.fragments[name]` of an unknown fragment, or Python's recursion
   * limit, here a bound on nested fragment spreads.
   */
  datatype ExtractError = MissingFragment(name: string) | RecursionLimit

  /** The key of a field: its name, converted by `to_snake_case` when asked. */
  function KeyOf(name: string, snake: bool, toSnake: string -> string): string
  {
    if snake then toSnake(name) else name
  }

  /**
   * The loop of `extract_requested_fields` from the result `acc` built so
   * far. Nested calls leave `do_convert_to_snake_case` at its default, true.
   */
  function ExtractFrom(fragments: map<string, seq<Selection>>, acc: ODict<Requested>, fields: seq<Selection>,
                       snake: bool, toSnake: string -> string, depth: nat): Result<ODict<Requested>, ExtractError>
    decreases depth, SizeAll(fields)
  {
    if fields == [] then Ok(acc)
    else
      assert SizeAll(fields) == Size(fields[0]) + SizeAll(fields[1..]);
      match fields[0]
      case InlineFragment => ExtractFrom(fragments, acc, fields[1..], snake, toSnake, depth)
      case FieldNode(name, hasSet, sub) =>
        if !hasSet then ExtractFrom(fragments, acc, fields[1..], snake, toSnake, depth)
        else
          (match ExtractFrom(fragments, [], sub, true, toSnake, depth)
           case Err(e) => Err(e)
           case Ok(val) =>
             ExtractFrom(fragments, Put(acc, KeyOf(name, snake, toSnake), Requested(val)), fields[1..], snake, toSnake, depth))
      case FragmentSpread(name) =>
        if depth == 0 then Err(RecursionLimit)
        else if name !in fragments then Err(MissingFragment(name))
        else
          match ExtractFrom(fragments, [], fragments[name], true, toSnake, depth - 1)
          case Err(e) => Err(e)
          case Ok(val) => ExtractFrom(fragments, val, fields[1..], snake, toSnake, depth)
  }

  /** `extract_requested_fields(info, fields, do_convert_to_snake_case)`. */
  method ExtractRequestedFields(fragments: map<string, seq<Selection>>, fields: seq<Selection>, snake: bool,
                                toSnake: string -> string, depth: nat) returns (r: Result<ODict<Requested>, ExtractError>)
    ensures r == ExtractFrom(fragments, [], fields, snake, toSnake, depth)
    decreases depth, SizeAll(fields)
  {
    var result: ODict<Requested> := [];
    var i := 0;
    while i < |fields|
      invariant 0 <= i <= |fields|
      invariant ExtractFrom(fragments, [], fields, snake, toSnake, depth)
             == ExtractFrom(fragments, result, fields[i..], snake, toSnake, depth)
    {
      var field := fields[i];
      assert fields[i..][0] == field && fields[i..][1..] == fields[i + 1..];
      match field {
        case InlineFragment =>
        case FieldNode(name, hasSet, sub) =>
          if hasSet {
            SizeAllElement(fields, i);
            var val := ExtractRequestedFields(fragments, sub, true, toSnake, depth);
            if val.Err? {
              return Err(val.error);
            }
            result := Put(result, KeyOf(name, snake, toSnake), Requested(val.value));
          }
        case FragmentSpread(name) =>
          if depth == 0 {
            return Err(RecursionLimit);
          }
          if name !in fragments {
            return Err(MissingFragment(name));
          }
          var val := ExtractRequestedFields(fragments, fragments[name], true, toSnake, depth - 1);
          if val.Err? {
            return Err(val.error);
          }
          result := val.value;
      }
      i := i + 1;
    }
    return Ok(result);
  }

  /**
   * A fragment spread replaces the result built so far: what came before it
   * in the same selection set makes no difference.
   */
  lemma SpreadReplacesResult(fragments: map<string, seq<Selection>>, acc1: ODict<Requested>, acc2: ODict<Requested>,
                             name: string, rest: seq<Selection>, snake: bool, toSnake: string -> string, depth: nat)
    ensures ExtractFrom(fragments, acc1, [FragmentSpread(name)] + rest, snake, toSnake, depth)
         == ExtractFrom(fragments, acc2, [FragmentSpread(name)] + rest, snake, toSnake, depth)
  {
    assert ([FragmentSpread(name)] + rest)[1..] == rest;
  }

  /** A field or fragment the key set can grow by: no spread at this level. */
  predicate NoSpread(fields: seq<Selection>)
  {
    forall i :: 0 <= i < |fields| ==> !fields[i].FragmentSpread?
  }

  /** The keys of the fields that have a selection set. */
  function SelectedKeys(fields: seq<Selection>, snake: bool, toSnake: string -> string): set<string>
    decreases |fields|
  {
    if fields == [] then {}
    else
      (if fields[0].FieldNode? && fields[0].hasSelectionSet then {KeyOf(fields[0].name, snake, toSnake)} else {})
        + SelectedKeys(fields[1..], snake, toSnake)
  }

  /**
   * Without spreads, the keys of the result are those built so far, still in
   * their positions, and one for each field that has a selection set;
   * inline fragments and fields without a selection set add none. Keys stay
   * distinct.
   */
  lemma {:induction false} ExtractKeys(fragments: map<string, seq<Selection>>, acc: ODict<Requested>,
                                       fields: seq<Selection>, snake: bool, toSnake: string -> string, depth: nat)
    requires NoSpread(fields) && Distinct(Keys(acc))
    requires ExtractFrom(fragments, acc, fields, snake, toSnake, depth).Ok?
    ensures var ks := Keys(ExtractFrom(fragments, acc, fields, snake, toSnake, depth).value);
            && |Keys(acc)| <= |ks| && ks[..|acc|] == Keys(acc)
            && (forall k :: k in ks <==> k in Keys(acc) || k in SelectedKeys(fields, snake, toSnake))
            && Distinct(ks)
    decreases |fields|
  {
    if fields != [] {
      assert NoSpread(fields[1..]) by {
        forall i | 0 <= i < |fields[1..]| ensures !fields[1..][i].FragmentSpread? {
          assert fields[1..][i] == fields[i + 1];
        }
      }
      match fields[0]
      case InlineFragment =>
        ExtractKeys(fragments, acc, fields[1..], snake, toSnake, depth);
      case FieldNode(name, hasSet, sub) =>
        if !hasSet {
          ExtractKeys(fragments, acc, fields[1..], snake, toSnake, depth);
        } else {
          var val := ExtractFrom(fragments, [], sub, true, toSnake, depth).value;
          var k := KeyOf(name, snake, toSnake);
          var acc' := Put(acc, k, Requested(val));
          KeysPut(acc, k, Requested(val));
          PutDistinct(acc, k, Requested(val));
          ExtractKeys(fragments, acc', fields[1..], snake, toSnake, depth);
          assert Keys(acc')[..|acc|] == Keys(acc);
        }
    }
  }

  /**
   * `available_related_fields` of a model: related field name to related
   * model, forward foreign keys only when `is_fk`.
   */
  type Relations = (string, bool) -> map<string, string>

  /** The path appended for `name` after `last`: `"<last>__<name>"`, or `name` when `last` is empty. */
  function Step(last: string, name: string): (p: string)
    ensures last == "" ==> p == name
    ensures last != "" ==> p == last + "__" + name
  {
    if last != "" then last + "__" + name else name
  }

  /**
   * `build_model_query(manager, fields, query_parent, is_fk)` as written,
   * from entry `i` of `node`: the path of each related field is built from
   * the last entry of the list at the time, which after a sibling was
   * processed is that sibling's path.
   */
  function BuildModelQueryAsWritten(relatedOf: Relations, model: string, node: Requested, i: nat,
                                    queryParent: seq<string>, isFk: bool): (r: seq<string>)
    requires |queryParent| > 0 && i <= |node.fields|
    ensures |r| >= |queryParent| && r[..|queryParent|] == queryParent
    decreases node, |node.fields| - i
  {
    if i == |node.fields| then queryParent
    else
      var (name, val) := node.fields[i];
      assert val < node.fields[i];
      var avail := relatedOf(model, isFk);
      if name in avail then
        var qp1 := queryParent + [Step(queryParent[|queryParent| - 1], name)];
        var qp2 := if val.fields != [] then BuildModelQueryAsWritten(relatedOf, avail[name], val, 0, qp1, isFk) else qp1;
        assert qp2[..|queryParent|] == qp1[..|queryParent|];
        BuildModelQueryAsWritten(relatedOf, model, node, i + 1, qp2, isFk)
      else BuildModelQueryAsWritten(relatedOf, model, node, i + 1, queryParent, isFk)
  }

  /** The segments of a path joined after `prefix` the way `Step` joins them. */
  function JoinPath(prefix: string, segs: seq<string>): string
    decreases |segs|
  {
    if segs == [] then prefix else JoinPath(Step(prefix, segs[0]), segs[1..])
  }

  function Render(prefix: string, paths: seq<seq<string>>): (r: seq<string>)
    ensures |r| == |paths|
  {
    seq(|paths|, j requires 0 <= j < |paths| => JoinPath(prefix, paths[j]))
  }

  function Prepend(name: string, paths: seq<seq<string>>): (r: seq<seq<string>>)
    ensures |r| == |paths|
    ensures forall j :: 0 <= j < |paths| ==> r[j] == [name] + paths[j]
  {
    seq(|paths|, j requires 0 <= j < |paths| => [name] + paths[j])
  }

  /**
   * The related-field paths the requested fields name, as segment lists,
   * in the order they are reached: each related field, then the paths
   * below it.
   */
  function RelatedPaths(relatedOf: Relations, model: string, node: Requested, i: nat, isFk: bool): seq<seq<string>>
    requires i <= |node.fields|
    decreases node, |node.fields| - i
  {
    if i == |node.fields| then []
    else
      var (name, val) := node.fields[i];
      assert val < node.fields[i];
      var avail := relatedOf(model, isFk);
      (if name in avail then [[name]] + Prepend(name, RelatedPaths(relatedOf, avail[name], val, 0, isFk)) else [])
        + RelatedPaths(relatedOf, model, node, i + 1, isFk)
  }

  /** A chain of related fields, each one a relation of the model the previous one leads to. */
  predicate IsChain(relatedOf: Relations, model: string, isFk: bool, segs: seq<string>)
    decreases |segs|
  {
    && |segs| > 0
    && segs[0] in relatedOf(model, isFk)
    && (|segs| > 1 ==> IsChain(relatedOf, relatedOf(model, isFk)[segs[0]], isFk, segs[1..]))
  }

  /** Every path is a chain of relations starting at the model: it names something `select_related` can follow. */
  lemma {:induction false} RelatedPathsAreChains(relatedOf: Relations, model: string, node: Requested, i: nat, isFk: bool)
    requires i <= |node.fields|
    ensures forall j :: 0 <= j < |RelatedPaths(relatedOf, model, node, i, isFk)|
                        ==> IsChain(relatedOf, model, isFk, RelatedPaths(relatedOf, model, node, i, isFk)[j])
    decreases node, |node.fields| - i
  {
    if i < |node.fields| {
      var (name, val) := node.fields[i];
      assert val < node.fields[i];
      var avail := relatedOf(model, isFk);
      RelatedPathsAreChains(relatedOf, model, node, i + 1, isFk);
      if name in avail {
        RelatedPathsAreChains(relatedOf, avail[name], val, 0, isFk);
        var below := RelatedPaths(relatedOf, avail[name], val, 0, isFk);
        var head := [[name]] + Prepend(name, below);
        forall j | 0 <= j < |head| ensures IsChain(relatedOf, model, isFk, head[j]) {
          if j > 0 {
            assert head[j] == [name] + below[j - 1];
            assert head[j][1..] == below[j - 1];
          }
        }
        var all := RelatedPaths(relatedOf, model, node, i, isFk);
        assert all == head + RelatedPaths(relatedOf, model, node, i + 1, isFk);
      }
    }
  }

  lemma RenderAppend(prefix: string, a: seq<seq<string>>, b: seq<seq<string>>)
    ensures Render(prefix, a + b) == Render(prefix, a) + Render(prefix, b)
  {
    assert Render(prefix, a + b) == Render(prefix, a) + Render(prefix, b);
  }

  /** Paths below `name` rendered after `prefix` are those paths rendered after the path of `name`. */
  lemma RenderPrepend(prefix: string, name: string, paths: seq<seq<string>>)
    ensures Render(prefix, Prepend(name, paths)) == Render(Step(prefix, name), paths)
  {
    forall j | 0 <= j < |paths|
      ensures JoinPath(prefix, [name] + paths[j]) == JoinPath(Step(prefix, name), paths[j])
    {
      assert ([name] + paths[j])[1..] == paths[j];
    }
  }

  /** The rendered paths from entry `i`: those of entry `i` (nothing if it is no relation), then the rest. */
  lemma RenderedPathsStep(relatedOf: Relations, model: string, node: Requested, i: nat, isFk: bool, last: string)
    requires i < |node.fields|
    ensures var (name, val) := node.fields[i];
            var avail := relatedOf(model, isFk);
            var here := Render(last, RelatedPaths(relatedOf, model, node, i, isFk));
            var rest := Render(last, RelatedPaths(relatedOf, model, node, i + 1, isFk));
            && (name in avail ==>
                  here == [Step(last, name)] + Render(Step(last, name), RelatedPaths(relatedOf, avail[name], val, 0, isFk)) + rest)
            && (name !in avail ==> here == rest)
  {
    var (name, val) := node.fields[i];
    assert val < node.fields[i];
    var avail := relatedOf(model, isFk);
    var rest := RelatedPaths(relatedOf, model, node, i + 1, isFk);
    if name in avail {
      var below := RelatedPaths(relatedOf, avail[name], val, 0, isFk);
      var head := [[name]] + Prepend(name, below);
      assert RelatedPaths(relatedOf, model, node, i, isFk) == head + rest;
      RenderAppend(last, head, rest);
      RenderAppend(last, [[name]], Prepend(name, below));
      RenderPrepend(last, name, below);
      assert JoinPath(last, [name]) == Step(last, name) by {
        assert [name][1..] == [];
      }
      assert Render(last, [[name]]) == [JoinPath(last, [name])];
      assert Render(last, head) == [Step(last, name)] + Render(Step(last, name), below);
    } else {
      assert RelatedPaths(relatedOf, model, node, i, isFk) == rest;
    }
  }

  /** One turn of the loop of `BuildModelQuery` keeps its invariant. */
  lemma BuildStep(relatedOf: Relations, model: string, node: Requested, i: nat, isFk: bool, last: string,
                  r0: seq<string>, r: seq<string>, total: seq<string>)
    requires i < |node.fields|
    requires r0 + Render(last, RelatedPaths(relatedOf, model, node, i, isFk)) == total
    requires node.fields[i].0 in relatedOf(model, isFk) ==>
      r == r0 + [Step(last, node.fields[i].0)]
             + Render(Step(last, node.fields[i].0),
                      RelatedPaths(relatedOf, relatedOf(model, isFk)[node.fields[i].0], node.fields[i].1, 0, isFk))
    requires node.fields[i].0 !in relatedOf(model, isFk) ==> r == r0
    ensures r + Render(last, RelatedPaths(relatedOf, model, node, i + 1, isFk)) == total
  {
    RenderedPathsStep(relatedOf, model, node, i, isFk, last);
  }

  /**
   * `build_model_query` with the path prefix read once per call, before the
   * loop: the list only grows, and what is appended is every related-field
   * path the requested fields name, each joined after the entry the list
   * ended with.
   */
  method BuildModelQuery(relatedOf: Relations, model: string, node: Requested, queryParent: seq<string>, isFk: bool)
    returns (r: seq<string>)
    requires |queryParent| > 0
    ensures r == queryParent + Render(queryParent[|queryParent| - 1], RelatedPaths(relatedOf, model, node, 0, isFk))
    decreases node
  {
    var avail := relatedOf(model, isFk);
    var last := queryParent[|queryParent| - 1];
    ghost var total := queryParent + Render(last, RelatedPaths(relatedOf, model, node, 0, isFk));
    r := queryParent;
    for i := 0 to |node.fields|
      invariant r + Render(last, RelatedPaths(relatedOf, model, node, i, isFk)) == total
    {
      var name := node.fields[i].0;
      var val := node.fields[i].1;
      assert val < node.fields[i];
      ghost var r0 := r;
      if name in avail {
        r := r + [Step(last, name)];
        if val.fields != [] {
          assert r[|r| - 1] == Step(last, name);
          r := BuildModelQuery(relatedOf, avail[name], val, r, isFk);
        } else {
          assert RelatedPaths(relatedOf, avail[name], val, 0, isFk) == [];
        }
      }
      BuildStep(relatedOf, model, node, i, isFk, last, r0, r, total);
    }
  }

  /** An author with two related fields, for the sibling example below. */
  function AuthorRelations(model: string, isFk: bool): map<string, string>
  {
    if model == "Author" then map["books" := "Book", "awards" := "Award"] else map[]
  }

  const AuthorFields: Requested := Requested([("books", Requested([])), ("awards", Requested([]))])

  /**
   * As written, the second sibling is joined onto the first sibling's path
   * (`author__books__awards`), which names no relation of the author.
   */
  lemma SiblingPathsChainAsWritten()
    ensures BuildModelQueryAsWritten(AuthorRelations, "Author", AuthorFields, 0, ["author"], false)
         == ["author", "author__books", "author__books__awards"]
  {
    var n := AuthorFields;
    var q1 := ["author", "author__books"];
    var q2 := q1 + ["author__books__awards"];
    assert Step("author", "books") == "author__books";
    assert Step("author__books", "awards") == "author__books__awards";
    assert BuildModelQueryAsWritten(AuthorRelations, "Author", n, 2, q2, false) == q2;
    assert BuildModelQueryAsWritten(AuthorRelations, "Author", n, 1, q1, false) == q2;
    assert BuildModelQueryAsWritten(AuthorRelations, "Author", n, 0, ["author"], false) == q2;
  }

  /** With the prefix read once, each sibling is joined onto the parent's path. */
  lemma SiblingPathsFixed()
    ensures var paths := RelatedPaths(AuthorRelations, "Author", AuthorFields, 0, false);
            ["author"] + Render("author", paths) == ["author", "author__books", "author__awards"]
  {
    var n := AuthorFields;
    assert RelatedPaths(AuthorRelations, "Book", Requested([]), 0, false) == [];
    assert RelatedPaths(AuthorRelations, "Award", Requested([]), 0, false) == [];
    assert RelatedPaths(AuthorRelations, "Author", n, 2, false) == [];
    assert RelatedPaths(AuthorRelations, "Author", n, 1, false) == [["awards"]];
    assert RelatedPaths(AuthorRelations, "Author", n, 0, false) == [["books"], ["awards"]];
    assert JoinPath("author", ["books"]) == "author__books" by {
      assert ["books"][1..] == [];
    }
    assert JoinPath("author", ["awards"]) == "author__awards" by {
      assert ["awards"][1..] == [];
    }
  }
}
