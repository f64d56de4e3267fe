/**
 * The create, update and delete resolvers of the DRF mutation mixins, run
 * against a store of records. The permission gate runs first; then the input
 * is assembled, the target looked up, the object gate run, and the work
 * handed to a serializer (`save`) or to the mutation's own hook
 * (`create_mutate` / `update_mutate`). Every path ends in a permission error,
 * `get_errors(...)` or `perform_mutate(...)`.
 */
module Mixins {
  import opened Wrappers
  import opened Common
  import opened Text
  import opened Permissions
  import opened Mutation

  /** How the serializer is built: `serializer_class(instance, data=data, partial=...)`. */
  datatype SerializerCall = SerializerCall(instance: Option<Record>, data: map<string, Value>, partial: bool)

  /** The `(ok, obj)` pair `save` returns: the saved object, or the errors. */
  datatype SaveResult = Saved(obj: Record) | Invalid(errors: seq<MutationError>)

  /** A user hook either returns a value or raises an exception `e`, seen as `str(e)`. */
  datatype HookResult<T> = Returned(value: T) | Raised(message: string)

  /**
   * The collaborators of one mutation class: its permission providers and
   * their decisions, `save`, `create_mutate`, `update_mutate` and
   * `get_extra_types`. The hooks receive `data` and every resolver argument
   * (`**kwargs`), and may write to the store. `update_mutate` also
   * gives back the instance as it left it (it may change its attributes).
   */
  datatype Backend = Backend(
    providers: seq<Provider>,
    allows: Policy,
    save: (SerializerCall, Rows) -> (SaveResult, Rows),
    createMutate: (map<string, Value>, map<string, Value>, Rows) -> (HookResult<Record>, Rows),
    updateMutate: (map<string, Value>, Record, map<string, Value>, Rows) -> (HookResult<Value>, Record, Rows),
    extraTypes: Option<Record> -> map<string, Value>)

  /**
   * Which `perform_create` / `perform_update` the class inherits: the
   * serializer one (`CreateSerializerMixin`, `UpdateSerializerMixin`) or the
   * hook one (`CreateModelMixin`, `UpdateModelMixin`).
   */
  datatype Strategy = SerializerBacked | HookBacked

  /** A resolver either raises the gate's `GraphQLError` or returns a response. */
  datatype Outcome = PermissionDenied(message: Option<string>) | Response(payload: Payload)

  /** The store the resolvers read and write. */
  class Database {
    var rows: Rows

    constructor (initial: Rows)
      ensures rows == initial
    {
      rows := initial;
    }
  }

  /** The mutation's input object is among the arguments when it is configured (the schema marks it required). */
  predicate InputAvailable(m: MutationMeta, kwargs: map<string, Value>)
  {
    StringIsSet(m.inputFieldName) ==> m.inputFieldName.value in kwargs && kwargs[m.inputFieldName.value].Nested?
  }

  predicate IsMultipart(req: Request)
  {
    Contains(req.contentType, "multipart/form-data")
  }

  /**
   * The input `create` and `update` build: the input object's entries or all
   * arguments, overridden by the uploaded files on a multipart request.
   */
  function InputData(m: MutationMeta, req: Request, kwargs: map<string, Value>): (data: map<string, Value>)
    requires InputAvailable(m, kwargs)
    ensures var base := if StringIsSet(m.inputFieldName) then kwargs[m.inputFieldName.value].fields else kwargs;
            && (forall k :: k in data <==> k in base || (IsMultipart(req) && k in req.files))
            && (forall k :: IsMultipart(req) && k in req.files ==> data[k] == req.files[k])
            && (forall k :: k in base && !(IsMultipart(req) && k in req.files) ==> data[k] == base[k])
  {
    var base := if StringIsSet(m.inputFieldName) then kwargs[m.inputFieldName.value].fields else kwargs;
    if IsMultipart(req) then base + req.files else base
  }

  /** The value `get_object` looks the target up by, `None` when the argument is absent. */
  function LookupKey(m: MutationMeta, data: map<string, Value>): Value
  {
    GetOrNull(data, LookupFieldName(m))
  }

  function UpdateNotFoundMessage(m: MutationMeta, pk: Value): string
  {
    "A " + m.modelName + " obj with id: " + Render(pk) + " do not exist"
  }

  function DeleteNotFoundMessage(m: MutationMeta, pk: Value): string
  {
    "A " + m.modelName + " obj with id " + Render(pk) + " do not exist"
  }

  /** `cls.get_errors(errors)` with this backend's extra types. */
  function Errors(m: MutationMeta, b: Backend, errors: seq<MutationError>): Payload
  {
    GetErrors(m.outputFieldName, b.extraTypes(None), errors)
  }

  /** `cls.perform_mutate(obj, info)` with this backend's extra types. */
  function Mutated(m: MutationMeta, b: Backend, obj: Record): Payload
  {
    PerformMutate(m.outputFieldName, b.extraTypes(Some(obj)), obj)
  }

  /** The single field-less error an exception from a hook becomes. */
  function HookError(message: string): MutationError
  {
    MutationError(None, [message])
  }

  /** What `perform_create` returns, and the store after it. */
  function PerformCreateSpec(m: MutationMeta, b: Backend, s: Strategy, data: map<string, Value>,
                             kwargs: map<string, Value>, rows: Rows): (Payload, Rows)
  {
    match s
    case SerializerBacked =>
      var (res, rows') := b.save(SerializerCall(None, data, false), rows);
      (match res
       case Invalid(errors) => Errors(m, b, errors)
       case Saved(obj) => Mutated(m, b, obj), rows')
    case HookBacked =>
      var (res, rows') := b.createMutate(data, kwargs, rows);
      (match res
       case Raised(message) => Errors(m, b, [HookError(message)])
       case Returned(obj) => Mutated(m, b, obj), rows')
  }

  /** What `perform_update` returns, and the store after it. */
  function PerformUpdateSpec(m: MutationMeta, b: Backend, s: Strategy, data: map<string, Value>, instance: Record,
                             kwargs: map<string, Value>, rows: Rows): (Payload, Rows)
  {
    match s
    case SerializerBacked =>
      var (res, rows') := b.save(SerializerCall(Some(instance), data, true), rows);
      (match res
       case Invalid(errors) => Errors(m, b, errors)
       case Saved(obj) => Mutated(m, b, obj), rows')
    case HookBacked =>
      var (res, after, rows') := b.updateMutate(data, instance, kwargs, rows);
      (match res
       case Raised(message) => Errors(m, b, [HookError(message)])
       case Returned(_) => Mutated(m, b, after), rows')
  }

  /** What `create` returns, and the store after it. */
  function CreateSpec(m: MutationMeta, b: Backend, s: Strategy, req: Request, kwargs: map<string, Value>, rows: Rows): (Outcome, Rows)
    requires InputAvailable(m, kwargs)
  {
    match Verdict(b.providers, b.allows, req, ForRequest)
    case Deny(message) => (PermissionDenied(message), rows)
    case Pass =>
      var (p, rows') := PerformCreateSpec(m, b, s, InputData(m, req, kwargs), kwargs, rows);
      (Response(p), rows')
  }

  /** What `update` returns, and the store after it. */
  function UpdateSpec(m: MutationMeta, b: Backend, s: Strategy, req: Request, kwargs: map<string, Value>, rows: Rows): (Outcome, Rows)
    requires InputAvailable(m, kwargs)
  {
    match Verdict(b.providers, b.allows, req, ForRequest)
    case Deny(message) => (PermissionDenied(message), rows)
    case Pass =>
      var data := InputData(m, req, kwargs);
      var key := LookupKey(m, data);
      if key in rows then
        match Verdict(b.providers, b.allows, req, ForObject(rows[key]))
        case Deny(message) => (PermissionDenied(message), rows)
        case Pass =>
          var (p, rows') := PerformUpdateSpec(m, b, s, data, rows[key], kwargs, rows);
          (Response(p), rows')
      else
        (Response(Errors(m, b, [MutationError(Some("id"), [UpdateNotFoundMessage(m, key)])])), rows)
  }

  /** What `delete` returns, and the store after it. */
  function DeleteSpec(m: MutationMeta, b: Backend, req: Request, kwargs: map<string, Value>, rows: Rows): (Outcome, Rows)
  {
    match Verdict(b.providers, b.allows, req, ForRequest)
    case Deny(message) => (PermissionDenied(message), rows)
    case Pass =>
      var key := LookupKey(m, kwargs);
      if key in rows then
        match Verdict(b.providers, b.allows, req, ForObject(rows[key]))
        case Deny(message) => (PermissionDenied(message), rows)
        case Pass =>
          var obj := rows[key]["id" := key];
          (Response(Mutated(m, b, obj)), rows - {key})
      else
        (Response(Errors(m, b, [MutationError(Some("id"), [DeleteNotFoundMessage(m, key)])])), rows)
  }

  /** `perform_create(root, info, data, **kwargs)`. */
  method PerformCreate(m: MutationMeta, b: Backend, s: Strategy, db: Database, data: map<string, Value>,
                       kwargs: map<string, Value>) returns (p: Payload)
    modifies db
    ensures (p, db.rows) == PerformCreateSpec(m, b, s, data, kwargs, old(db.rows))
  {
    if s.SerializerBacked? {
      var (res, rows') := b.save(SerializerCall(None, data, false), db.rows);
      db.rows := rows';
      if res.Invalid? {
        return Errors(m, b, res.errors);
      }
      return Mutated(m, b, res.obj);
    } else {
      var (res, rows') := b.createMutate(data, kwargs, db.rows);
      db.rows := rows';
      if res.Raised? {
        return Errors(m, b, [HookError(res.message)]);
      }
      return Mutated(m, b, res.value);
    }
  }

  /** `perform_update(root, info, data, instance, **kwargs)`. */
  method PerformUpdate(m: MutationMeta, b: Backend, s: Strategy, db: Database, data: map<string, Value>, instance: Record,
                       kwargs: map<string, Value>)
    returns (p: Payload)
    modifies db
    ensures (p, db.rows) == PerformUpdateSpec(m, b, s, data, instance, kwargs, old(db.rows))
  {
    if s.SerializerBacked? {
      var (res, rows') := b.save(SerializerCall(Some(instance), data, true), db.rows);
      db.rows := rows';
      if res.Invalid? {
        return Errors(m, b, res.errors);
      }
      return Mutated(m, b, res.obj);
    } else {
      var (res, after, rows') := b.updateMutate(data, instance, kwargs, db.rows);
      db.rows := rows';
      if res.Raised? {
        return Errors(m, b, [HookError(res.message)]);
      }
      return Mutated(m, b, after);
    }
  }

  /** The `data` dictionary `create` and `update` fill in step by step. */
  method AssembleInput(m: MutationMeta, req: Request, kwargs: map<string, Value>) returns (data: map<string, Value>)
    requires InputAvailable(m, kwargs)
    ensures data == InputData(m, req, kwargs)
  {
    data := map[];
    if StringIsSet(m.inputFieldName) {
      data := kwargs[m.inputFieldName.value].fields;
    } else {
      data := data + kwargs;
    }
    if IsMultipart(req) {
      data := data + req.files;
    }
  }

  /** `create(root, info, **kwargs)`. */
  method Create(m: MutationMeta, b: Backend, s: Strategy, db: Database, req: Request, kwargs: map<string, Value>)
    returns (o: Outcome)
    requires InputAvailable(m, kwargs)
    modifies db
    ensures (o, db.rows) == CreateSpec(m, b, s, req, kwargs, old(db.rows))
  {
    var gate := CheckPermissions(b.providers, b.allows, req);
    if gate.Deny? {
      return PermissionDenied(gate.message);
    }
    var data := AssembleInput(m, req, kwargs);
    var p := PerformCreate(m, b, s, db, data, kwargs);
    return Response(p);
  }

  /** `update(root, info, **kwargs)`. */
  method Update(m: MutationMeta, b: Backend, s: Strategy, db: Database, req: Request, kwargs: map<string, Value>)
    returns (o: Outcome)
    requires InputAvailable(m, kwargs)
    modifies db
    ensures (o, db.rows) == UpdateSpec(m, b, s, req, kwargs, old(db.rows))
  {
    var gate := CheckPermissions(b.providers, b.allows, req);
    if gate.Deny? {
      return PermissionDenied(gate.message);
    }
    var data := AssembleInput(m, req, kwargs);
    var key := GetOrNull(data, LookupFieldName(m));
    if key in db.rows {
      var existing := db.rows[key];
      var objectGate := CheckObjectPermissions(b.providers, b.allows, req, existing);
      if objectGate.Deny? {
        return PermissionDenied(objectGate.message);
      }
      var p := PerformUpdate(m, b, s, db, data, existing, kwargs);
      return Response(p);
    }
    var pk := GetOrNull(data, LookupFieldName(m));
    return Response(Errors(m, b, [MutationError(Some("id"), [UpdateNotFoundMessage(m, pk)])]));
  }

  /** `delete(root, info, **kwargs)`. */
  method Delete(m: MutationMeta, b: Backend, db: Database, req: Request, kwargs: map<string, Value>)
    returns (o: Outcome)
    modifies db
    ensures (o, db.rows) == DeleteSpec(m, b, req, kwargs, old(db.rows))
  {
    var gate := CheckPermissions(b.providers, b.allows, req);
    if gate.Deny? {
      return PermissionDenied(gate.message);
    }
    var pk := GetOrNull(kwargs, LookupFieldName(m));
    if pk in db.rows {
      var oldObj := db.rows[pk];
      var objectGate := CheckObjectPermissions(b.providers, b.allows, req, oldObj);
      if objectGate.Deny? {
        return PermissionDenied(objectGate.message);
      }
      db.rows := db.rows - {pk};
      oldObj := oldObj["id" := pk];
      return Response(Mutated(m, b, oldObj));
    }
    return Response(Errors(m, b, [MutationError(Some("id"), [DeleteNotFoundMessage(m, pk)])]));
  }

  // ---------------------------------------------------------------------
  // Properties of the pipeline

  /** Two backends that the request-level gate cannot tell apart. */
  predicate SameRequestGate(b1: Backend, b2: Backend, req: Request)
  {
    b1.providers == b2.providers
    && forall i :: 0 <= i < |b1.providers| ==> b1.allows(b1.providers[i], req, ForRequest) == b2.allows(b1.providers[i], req, ForRequest)
  }

  lemma {:induction false} SameGateSameVerdict(b1: Backend, b2: Backend, req: Request)
    requires SameRequestGate(b1, b2, req)
    ensures Verdict(b1.providers, b1.allows, req, ForRequest) == Verdict(b2.providers, b2.allows, req, ForRequest)
  {
    var ps := b1.providers;
    match FirstDenial(ps, b1.allows, req, ForRequest)
    case None =>
    case Some(k) =>
      VerdictIgnoresLaterProviders(ps, b1.allows, b2.allows, req, ForRequest, k);
  }

  /**
   * A refused request leaves the store alone and carries the refusing
   * provider's message; nothing else of the backend is consulted.
   */
  lemma CreateDenied(m: MutationMeta, b: Backend, s: Strategy, req: Request, kwargs: map<string, Value>, rows: Rows)
    requires InputAvailable(m, kwargs)
    requires Verdict(b.providers, b.allows, req, ForRequest).Deny?
    ensures CreateSpec(m, b, s, req, kwargs, rows) == (PermissionDenied(Verdict(b.providers, b.allows, req, ForRequest).message), rows)
  {
  }

  /**
   * A serializer-backed create hands `save` an unbound serializer over the
   * assembled input, and answers with exactly the errors or exactly the
   * saved object.
   */
  lemma SerializerCreate(m: MutationMeta, b: Backend, req: Request, kwargs: map<string, Value>, rows: Rows)
    requires InputAvailable(m, kwargs) && OutputNameFree(m.outputFieldName)
    requires Verdict(b.providers, b.allows, req, ForRequest).Pass?
    ensures var saved := b.save(SerializerCall(None, InputData(m, req, kwargs), false), rows);
            var (o, rows') := CreateSpec(m, b, SerializerBacked, req, kwargs, rows);
            && rows' == saved.1
            && o.Response?
            && Read(m.outputFieldName, o.payload) == (match saved.0 case Invalid(errors) => Failure(errors) case Saved(obj) => Success(obj))
  {
    var saved := b.save(SerializerCall(None, InputData(m, req, kwargs), false), rows);
    match saved.0
    case Invalid(errors) => ReadGetErrors(m.outputFieldName, b.extraTypes(None), errors);
    case Saved(obj) => ReadPerformMutate(m.outputFieldName, b.extraTypes(Some(obj)), obj);
  }

  /** An exception from `create_mutate` becomes exactly one error, with no field and `str(e)` as its message. */
  lemma HookCreateRaises(m: MutationMeta, b: Backend, req: Request, kwargs: map<string, Value>, rows: Rows, message: string)
    requires InputAvailable(m, kwargs) && OutputNameFree(m.outputFieldName)
    requires Verdict(b.providers, b.allows, req, ForRequest).Pass?
    requires b.createMutate(InputData(m, req, kwargs), kwargs, rows).0 == Raised(message)
    ensures var o := CreateSpec(m, b, HookBacked, req, kwargs, rows).0;
            o.Response? && Read(m.outputFieldName, o.payload) == Failure([MutationError(None, [message])])
  {
    ReadGetErrors(m.outputFieldName, b.extraTypes(None), [HookError(message)]);
  }

  /**
   * An update whose target is missing answers one error on `"id"` naming the
   * model and the requested value, leaves the store alone, and never reaches
   * the object gate or `perform_update`: any backend with the same
   * request-level gate and extra types gives the same answer.
   */
  lemma {:induction false} UpdateNotFound(m: MutationMeta, b: Backend, b2: Backend, s: Strategy, s2: Strategy,
                                          req: Request, kwargs: map<string, Value>, rows: Rows)
    requires InputAvailable(m, kwargs) && OutputNameFree(m.outputFieldName)
    requires Verdict(b.providers, b.allows, req, ForRequest).Pass?
    requires LookupKey(m, InputData(m, req, kwargs)) !in rows
    requires SameRequestGate(b, b2, req) && b2.extraTypes == b.extraTypes
    ensures var key := LookupKey(m, InputData(m, req, kwargs));
            var (o, rows') := UpdateSpec(m, b, s, req, kwargs, rows);
            && rows' == rows
            && o.Response?
            && Read(m.outputFieldName, o.payload) == Failure([MutationError(Some("id"), [UpdateNotFoundMessage(m, key)])])
    ensures UpdateSpec(m, b2, s2, req, kwargs, rows) == UpdateSpec(m, b, s, req, kwargs, rows)
  {
    SameGateSameVerdict(b, b2, req);
    var key := LookupKey(m, InputData(m, req, kwargs));
    ReadGetErrors(m.outputFieldName, b.extraTypes(None), [MutationError(Some("id"), [UpdateNotFoundMessage(m, key)])]);
  }

  /**
   * When the object gate refuses an update, the store is untouched: the
   * object check comes strictly before `perform_update`.
   */
  lemma UpdateObjectDenied(m: MutationMeta, b: Backend, s: Strategy, req: Request, kwargs: map<string, Value>, rows: Rows)
    requires InputAvailable(m, kwargs)
    requires Verdict(b.providers, b.allows, req, ForRequest).Pass?
    requires var key := LookupKey(m, InputData(m, req, kwargs));
             key in rows && Verdict(b.providers, b.allows, req, ForObject(rows[key])).Deny?
    ensures var key := LookupKey(m, InputData(m, req, kwargs));
            UpdateSpec(m, b, s, req, kwargs, rows) == (PermissionDenied(Verdict(b.providers, b.allows, req, ForObject(rows[key])).message), rows)
  {
  }

  /**
   * A serializer-backed update binds the serializer to the stored instance
   * in partial mode, and answers with exactly the errors or the saved object.
   */
  lemma SerializerUpdate(m: MutationMeta, b: Backend, req: Request, kwargs: map<string, Value>, rows: Rows)
    requires InputAvailable(m, kwargs) && OutputNameFree(m.outputFieldName)
    requires Verdict(b.providers, b.allows, req, ForRequest).Pass?
    requires var key := LookupKey(m, InputData(m, req, kwargs));
             key in rows && Verdict(b.providers, b.allows, req, ForObject(rows[key])).Pass?
    ensures var data := InputData(m, req, kwargs);
            var saved := b.save(SerializerCall(Some(rows[LookupKey(m, data)]), data, true), rows);
            var (o, rows') := UpdateSpec(m, b, SerializerBacked, req, kwargs, rows);
            && rows' == saved.1
            && o.Response?
            && Read(m.outputFieldName, o.payload) == (match saved.0 case Invalid(errors) => Failure(errors) case Saved(obj) => Success(obj))
  {
    var data := InputData(m, req, kwargs);
    var saved := b.save(SerializerCall(Some(rows[LookupKey(m, data)]), data, true), rows);
    match saved.0
    case Invalid(errors) => ReadGetErrors(m.outputFieldName, b.extraTypes(None), errors);
    case Saved(obj) => ReadPerformMutate(m.outputFieldName, b.extraTypes(Some(obj)), obj);
  }

  /**
   * A hook-backed update answers with the instance as `update_mutate` left
   * it, whatever the hook returned; if the hook raised, with one field-less
   * error carrying the message.
   */
  lemma HookUpdate(m: MutationMeta, b: Backend, req: Request, kwargs: map<string, Value>, rows: Rows)
    requires InputAvailable(m, kwargs) && OutputNameFree(m.outputFieldName)
    requires Verdict(b.providers, b.allows, req, ForRequest).Pass?
    requires var key := LookupKey(m, InputData(m, req, kwargs));
             key in rows && Verdict(b.providers, b.allows, req, ForObject(rows[key])).Pass?
    ensures var data := InputData(m, req, kwargs);
            var hooked := b.updateMutate(data, rows[LookupKey(m, data)], kwargs, rows);
            var (o, rows') := UpdateSpec(m, b, HookBacked, req, kwargs, rows);
            && rows' == hooked.2
            && o.Response?
            && Read(m.outputFieldName, o.payload)
               == (match hooked.0 case Raised(message) => Failure([MutationError(None, [message])]) case Returned(_) => Success(hooked.1))
  {
    var data := InputData(m, req, kwargs);
    var hooked := b.updateMutate(data, rows[LookupKey(m, data)], kwargs, rows);
    match hooked.0
    case Raised(message) => ReadGetErrors(m.outputFieldName, b.extraTypes(None), [HookError(message)]);
    case Returned(_) => ReadPerformMutate(m.outputFieldName, b.extraTypes(Some(hooked.1)), hooked.1);
  }

  /**
   * Deleting a record the gates allow removes exactly that record and
   * answers with it, its `id` set to the requested value, although the
   * store no longer holds it.
   */
  lemma DeleteFound(m: MutationMeta, b: Backend, req: Request, kwargs: map<string, Value>, rows: Rows)
    requires OutputNameFree(m.outputFieldName)
    requires Verdict(b.providers, b.allows, req, ForRequest).Pass?
    requires var key := LookupKey(m, kwargs);
             key in rows && Verdict(b.providers, b.allows, req, ForObject(rows[key])).Pass?
    ensures var key := LookupKey(m, kwargs);
            var (o, rows') := DeleteSpec(m, b, req, kwargs, rows);
            && rows' == rows - {key}
            && key !in rows'
            && (forall k :: k in rows && k != key ==> k in rows' && rows'[k] == rows[k])
            && o.Response?
            && Read(m.outputFieldName, o.payload) == Success(rows[key]["id" := key])
            && Read(m.outputFieldName, o.payload).obj["id"] == key
  {
    var key := LookupKey(m, kwargs);
    ReadPerformMutate(m.outputFieldName, b.extraTypes(Some(rows[key]["id" := key])), rows[key]["id" := key]);
  }

  /** Deleting a missing record deletes nothing and answers one error on `"id"`. */
  lemma DeleteNotFound(m: MutationMeta, b: Backend, req: Request, kwargs: map<string, Value>, rows: Rows)
    requires OutputNameFree(m.outputFieldName)
    requires Verdict(b.providers, b.allows, req, ForRequest).Pass?
    requires LookupKey(m, kwargs) !in rows
    ensures var (o, rows') := DeleteSpec(m, b, req, kwargs, rows);
            && rows' == rows
            && o.Response?
            && Read(m.outputFieldName, o.payload) == Failure([MutationError(Some("id"), [DeleteNotFoundMessage(m, LookupKey(m, kwargs))])])
  {
    ReadGetErrors(m.outputFieldName, b.extraTypes(None), [MutationError(Some("id"), [DeleteNotFoundMessage(m, LookupKey(m, kwargs))])]);
  }
}
