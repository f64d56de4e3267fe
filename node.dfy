/**
 * The guarded node field: the class-level permission check, then the id
 * and the lookup, then the object-level check of the object found; and the
 * decision logic of `DjangoNode.get_node_from_global_id`.
 */
module NodeField {
  import opened Wrappers
  import opened Common
  import opened Permissions

  /**
   * `BaseNodeField.query_resolver`. `getId` is the field's `get_id` (an
   * assertion it fails is raised through), and `rows` stands for
   * `queryset_builder(model, info, filter_kwargs=dict(id=_id)).first()`. A
   * model instance is always truthy, so "not obj" means no row was found.
   */
  function QueryResolver(ps: seq<Provider>, allows: Policy, req: Request, getId: Request -> Result<Value, string>,
                         rows: Rows): (r: Guarded<Option<Record>>)
    ensures Verdict(ps, allows, req, ForRequest).Deny? ==> r == Refused(Verdict(ps, allows, req, ForRequest).message)
    ensures Verdict(ps, allows, req, ForRequest).Pass? && getId(req).Err? ==> r == Refused(Some(getId(req).error))
    ensures Verdict(ps, allows, req, ForRequest).Pass? && getId(req).Ok? && getId(req).value !in rows
            ==> r == Granted(None)
    ensures r.Granted? && r.value.Some? <==>
      && Verdict(ps, allows, req, ForRequest).Pass?
      && getId(req).Ok? && getId(req).value in rows
      && Verdict(ps, allows, req, ForObject(rows[getId(req).value])).Pass?
    ensures r.Granted? && r.value.Some? ==> r.value.value == rows[getId(req).value]
  {
    match Verdict(ps, allows, req, ForRequest)
    case Deny(m) => Refused(m)
    case Pass =>
      match getId(req)
      case Err(m) => Refused(Some(m))
      case Ok(id) =>
        if id !in rows then Granted(None)
        else
          var obj := rows[id];
          match Verdict(ps, allows, req, ForObject(obj))
          case Deny(m) => Refused(m)
          case Pass => Granted(Some(obj))
  }

  /**
   * A refused class check refuses the call whatever the id and the rows are:
   * neither is consulted.
   */
  lemma ClassCheckPrecedesLookup(ps: seq<Provider>, allows: Policy, req: Request,
                                 getId1: Request -> Result<Value, string>, rows1: Rows,
                                 getId2: Request -> Result<Value, string>, rows2: Rows)
    requires Verdict(ps, allows, req, ForRequest).Deny?
    ensures QueryResolver(ps, allows, req, getId1, rows1) == QueryResolver(ps, allows, req, getId2, rows2)
  {
  }

  /**
   * A missing object is returned as `None` without any object check: the
   * answer does not depend on the object-level decisions.
   */
  lemma MissingObjectNoObjectCheck(ps: seq<Provider>, p1: Policy, p2: Policy, req: Request,
                                   getId: Request -> Result<Value, string>, rows: Rows)
    requires forall i :: 0 <= i < |ps| ==> p1(ps[i], req, ForRequest) == p2(ps[i], req, ForRequest)
    requires Verdict(ps, p1, req, ForRequest).Pass?
    requires getId(req).Ok? && getId(req).value !in rows
    ensures QueryResolver(ps, p1, req, getId, rows) == QueryResolver(ps, p2, req, getId, rows) == Granted(None)
  {
  }

  /** A GraphQL type of the schema: its name and the names of the interfaces it implements. */
  datatype GrapheneType = GrapheneType(name: string, interfaces: set<string>)

  /** What `get_node_from_global_id` does: `None`, the decoded id, or a failed assertion. */
  datatype NodeLookup = NoNode | NodeId(id: string) | AssertionFailed(message: string)

  function MustReceiveMessage(onlyType: GrapheneType): string
  {
    "Must receive a " + onlyType.name + " id."
  }

  /**
   * `DjangoNode.get_node_from_global_id(info, global_id, only_type)`.
   * `decode` is `Node.from_global_id` (`None` where it raises), `schema` is
   * `info.schema.get_type(...)` by type name, and `base` is the name of
   * `cls.__base__`.
   */
  function GetNodeFromGlobalId(decode: string -> Option<(string, string)>, schema: map<string, GrapheneType>,
                               base: string, globalId: string, onlyType: Option<GrapheneType>): (r: NodeLookup)
    ensures decode(globalId).None? || decode(globalId).value.0 !in schema ==> r == NoNode
    ensures r.AssertionFailed? <==>
      && decode(globalId).Some? && decode(globalId).value.0 in schema
      && onlyType.Some? && schema[decode(globalId).value.0] != onlyType.value
    ensures r.AssertionFailed? ==> r.message == MustReceiveMessage(onlyType.value)
    ensures r.NodeId? <==>
      && decode(globalId).Some? && decode(globalId).value.0 in schema
      && (onlyType.Some? ==> schema[decode(globalId).value.0] == onlyType.value)
      && base in schema[decode(globalId).value.0].interfaces
    ensures r.NodeId? ==> r.id == decode(globalId).value.1
  {
    match decode(globalId)
    case None => NoNode
    case Some((typeName, id)) =>
      if typeName !in schema then NoNode
      else
        var graphene := schema[typeName];
        if onlyType.Some? && graphene != onlyType.value then AssertionFailed(MustReceiveMessage(onlyType.value))
        else if base !in graphene.interfaces then NoNode
        else NodeId(id)
  }

  /**
   * With a type restriction, every id that comes back belongs to that type:
   * its decoded type name is mapped to `only_type` in the schema.
   */
  lemma NodeIdHasOnlyType(decode: string -> Option<(string, string)>, schema: map<string, GrapheneType>,
                          base: string, globalId: string, onlyType: GrapheneType)
    requires GetNodeFromGlobalId(decode, schema, base, globalId, Some(onlyType)).NodeId?
    ensures schema[decode(globalId).value.0] == onlyType && base in onlyType.interfaces
  {
  }
}
