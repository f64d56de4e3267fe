/**
 * Response shaping and argument assembly of the DRF-backed mutation classes:
 * `get_errors` and `perform_mutate` build the response object, and
 * `_bundle_all_arguments`, `_init_update_args`, `_init_delete_args` and
 * `BaseModelMutation.base_args_setup` build the mutation's arguments.
 */
module Mutation {
  import opened Wrappers
  import opened Common
  import opened OrderedDicts

  /** One attribute of the response object `cls(**kwargs)`. */
  datatype Slot =
    | Flag(ok: bool)
    | ErrorList(errors: Option<seq<MutationError>>)
    | Output(obj: Option<Record>)
    | Extra(value: Value)

  /** The response object, as its attributes by name. */
  type Payload = map<string, Slot>

  /** The class-level configuration the mutation methods read. */
  datatype MutationMeta = MutationMeta(
    className: string,                  // `cls.__name__`
    modelName: string,                  // `model.__name__`
    pkName: string,                     // `model._meta.pk.name`
    lookupField: Option<string>,        // `cls.lookup_field`
    lookupUrlKwarg: Option<string>,     // `cls.lookup_url_kwarg`
    lookupFieldDescription: Option<string>,
    inputFieldName: Option<string>,     // `_meta.input_field_name`
    outputFieldName: string,            // `_meta.output_field_name`
    argumentsProps: ODict<Arg>,         // `_meta.arguments_props`
    onlyFields: seq<string>,
    excludeFields: seq<string>)

  /** A graphene type reference, as far as argument assembly needs one. */
  datatype GType = Named(name: string) | ListOf(of: GType) | NonNullOf(of: GType)

  /**
   * An `Argument` or `InputField` as the code constructs it: its type, the
   * `required` it is given, its description and its name.
   */
  datatype Arg = Arg(typ: GType, required: Option<bool>, description: Option<string>, name: Option<string>)

  /** The extra types turned into response attributes. */
  function ExtraSlots(extras: map<string, Value>): (p: Payload)
    ensures p.Keys == extras.Keys
    ensures forall k :: k in extras ==> p[k] == Extra(extras[k])
  {
    map k | k in extras :: Extra(extras[k])
  }

  /**
   * `get_errors(errors)`: the extra types, overridden by the output field
   * set to `None`, `ok = False` and `errors`.
   */
  function GetErrors(outputFieldName: string, extras: map<string, Value>, errors: seq<MutationError>): (p: Payload)
    ensures p.Keys == extras.Keys + {outputFieldName, "ok", "errors"}
    ensures p["ok"] == Flag(false) && p["errors"] == ErrorList(Some(errors))
    ensures outputFieldName != "ok" && outputFieldName != "errors" ==> p[outputFieldName] == Output(None)
    ensures forall k :: k in extras && k != outputFieldName && k != "ok" && k != "errors" ==> p[k] == Extra(extras[k])
  {
    ExtraSlots(extras)[outputFieldName := Output(None)]["ok" := Flag(false)]["errors" := ErrorList(Some(errors))]
  }

  /**
   * `perform_mutate(obj)`: the extra types, overridden by the output field
   * set to `obj`, `ok = True` and `errors = None`.
   */
  function PerformMutate(outputFieldName: string, extras: map<string, Value>, obj: Record): (p: Payload)
    ensures p.Keys == extras.Keys + {outputFieldName, "ok", "errors"}
    ensures p["ok"] == Flag(true) && p["errors"] == ErrorList(None)
    ensures outputFieldName != "ok" && outputFieldName != "errors" ==> p[outputFieldName] == Output(Some(obj))
    ensures forall k :: k in extras && k != outputFieldName && k != "ok" && k != "errors" ==> p[k] == Extra(extras[k])
  {
    ExtraSlots(extras)[outputFieldName := Output(Some(obj))]["ok" := Flag(true)]["errors" := ErrorList(None)]
  }

  /** What a client reads off a response: the errors, the object, or neither. */
  datatype Reading = Failure(errors: seq<MutationError>) | Success(obj: Record) | Unreadable

  function Read(outputFieldName: string, p: Payload): Reading
  {
    if "ok" in p && p["ok"].Flag? && "errors" in p && p["errors"].ErrorList?
       && outputFieldName in p && p[outputFieldName].Output?
    then
      if !p["ok"].ok && p["errors"].errors.Some? && p[outputFieldName].obj.None? then
        Failure(p["errors"].errors.value)
      else if p["ok"].ok && p["errors"].errors.None? && p[outputFieldName].obj.Some? then
        Success(p[outputFieldName].obj.value)
      else Unreadable
    else Unreadable
  }

  /** The output field does not collide with the `ok` and `errors` attributes. */
  predicate OutputNameFree(outputFieldName: string)
  {
    outputFieldName != "ok" && outputFieldName != "errors"
  }

  /** A response built by `get_errors` reads back as exactly its errors. */
  lemma ReadGetErrors(outputFieldName: string, extras: map<string, Value>, errors: seq<MutationError>)
    requires OutputNameFree(outputFieldName)
    ensures Read(outputFieldName, GetErrors(outputFieldName, extras, errors)) == Failure(errors)
  {
  }

  /** A response built by `perform_mutate` reads back as exactly its object. */
  lemma ReadPerformMutate(outputFieldName: string, extras: map<string, Value>, obj: Record)
    requires OutputNameFree(outputFieldName)
    ensures Read(outputFieldName, PerformMutate(outputFieldName, extras, obj)) == Success(obj)
  {
  }

  /** No response is both a success and a failure: the `ok` flags differ. */
  lemma SuccessIsNotFailure(outputFieldName: string, e1: map<string, Value>, e2: map<string, Value>,
                            obj: Record, errors: seq<MutationError>)
    ensures PerformMutate(outputFieldName, e1, obj) != GetErrors(outputFieldName, e2, errors)
  {
    assert PerformMutate(outputFieldName, e1, obj)["ok"] != GetErrors(outputFieldName, e2, errors)["ok"];
  }

  /** `error_builder(serialized_obj)`: one error per key of `serializer.errors`, in order. */
  function ErrorBuilder(serializerErrors: ODict<seq<string>>): (r: seq<MutationError>)
    ensures |r| == |serializerErrors|
    ensures forall i :: 0 <= i < |r| ==> r[i].field == Some(serializerErrors[i].0)
    ensures forall i :: 0 <= i < |r| ==> r[i].messages == serializerErrors[i].1
  {
    seq(|serializerErrors|, i requires 0 <= i < |serializerErrors| =>
      MutationError(Some(serializerErrors[i].0), serializerErrors[i].1))
  }

  /** The errors of a list regrouped by field, entries without a field dropped. */
  function ByField(errors: seq<MutationError>): ODict<seq<string>>
  {
    if |errors| == 0 then []
    else if errors[0].field.None? then ByField(errors[1..])
    else [(errors[0].field.value, errors[0].messages)] + ByField(errors[1..])
  }

  /** `error_builder` loses nothing: regrouping its errors by field gives back `serializer.errors`. */
  lemma {:induction false} ByFieldErrorBuilder(serializerErrors: ODict<seq<string>>)
    ensures ByField(ErrorBuilder(serializerErrors)) == serializerErrors
  {
    if |serializerErrors| > 0 {
      var r := ErrorBuilder(serializerErrors);
      assert r[1..] == ErrorBuilder(serializerErrors[1..]);
      ByFieldErrorBuilder(serializerErrors[1..]);
      assert [serializerErrors[0]] + serializerErrors[1..] == serializerErrors;
    }
  }

  /** `get_lookup_field_name()`: `lookup_field` when it is set, else the primary-key name. */
  function LookupFieldName(m: MutationMeta): (name: string)
    ensures StringIsSet(m.lookupField) ==> name == m.lookupField.value
    ensures !StringIsSet(m.lookupField) ==> name == m.pkName
  {
    if StringIsSet(m.lookupField) then m.lookupField.value else m.pkName
  }

  /** `cls.lookup_url_kwarg or cls.get_lookup_field_name()`: the name of the id argument. */
  function PkName(m: MutationMeta): (name: string)
    ensures StringIsSet(m.lookupUrlKwarg) ==> name == m.lookupUrlKwarg.value
    ensures !StringIsSet(m.lookupUrlKwarg) ==> name == LookupFieldName(m)
  {
    if StringIsSet(m.lookupUrlKwarg) then m.lookupUrlKwarg.value else LookupFieldName(m)
  }

  const DefaultIdDescription: string := "Django object unique identification field"

  /** `Argument(ID, required=True, description=cls.lookup_field_description or ...)`. */
  function IdArg(description: Option<string>): (a: Arg)
    ensures a.typ == Named("ID") && a.required == Some(true)
    ensures a.description == Some(if StringIsSet(description) then description.value else DefaultIdDescription)
  {
    Arg(Named("ID"), Some(true), Some(if StringIsSet(description) then description.value else DefaultIdDescription), None)
  }

  /**
   * What `_bundle_all_arguments` returns: with an input field name, that one
   * required argument of the input type; otherwise one argument per input
   * field, the field's type, description, name and `required` copied; in
   * both cases updated with `arguments_props`.
   */
  function Bundled(inputFieldName: Option<string>, argsType: GType, inputFields: ODict<Arg>, props: ODict<Arg>): ODict<Arg>
  {
    if StringIsSet(inputFieldName) then UpdateAll([(inputFieldName.value, Arg(argsType, Some(true), None, None))], props)
    else UpdateAll(inputFields, props)
  }

  /** `_bundle_all_arguments(args_type, input_fields)`. */
  method BundleAllArguments(inputFieldName: Option<string>, argsType: GType, inputFields: ODict<Arg>, props: ODict<Arg>)
    returns (arguments: ODict<Arg>)
    ensures arguments == Bundled(inputFieldName, argsType, inputFields, props)
  {
    if StringIsSet(inputFieldName) {
      arguments := [(inputFieldName.value, Arg(argsType, Some(true), None, None))];
    } else {
      arguments := inputFields;
    }
    for i := 0 to |props|
      invariant UpdateAll(arguments, props[i..]) == Bundled(inputFieldName, argsType, inputFields, props)
    {
      assert props[i..][1..] == props[i + 1..];
      arguments := Put(arguments, props[i].0, props[i].1);
    }
    assert props[|props|..] == [];
  }

  /**
   * An argument of the bundle is the `arguments_props` entry when there is
   * one; otherwise the input-type argument or the input field.
   */
  lemma GetBundled(inputFieldName: Option<string>, argsType: GType, inputFields: ODict<Arg>, props: ODict<Arg>, k: string)
    requires Distinct(Keys(props))
    ensures Get(Bundled(inputFieldName, argsType, inputFields, props), k)
         == if k in Keys(props) then Get(props, k)
            else if StringIsSet(inputFieldName) then
              (if k == inputFieldName.value then Some(Arg(argsType, Some(true), None, None)) else None)
            else Get(inputFields, k)
  {
    if StringIsSet(inputFieldName) {
      GetUpdateAll([(inputFieldName.value, Arg(argsType, Some(true), None, None))], props, k);
    } else {
      GetUpdateAll(inputFields, props, k);
    }
  }

  /** The input fields of an update: the id argument is added when neither side has it. */
  function WithUpdateKey(m: MutationMeta, inputFields: ODict<Arg>): ODict<Arg>
  {
    var pk := PkName(m);
    if Get(inputFields, pk).None? && Get(m.argumentsProps, pk).None? then Put(inputFields, pk, IdArg(m.lookupFieldDescription))
    else inputFields
  }

  /**
   * The id argument is added exactly when it is missing from both the input
   * fields and `arguments_props`, at the end; every other input field is
   * left as it was.
   */
  lemma WithUpdateKeySpec(m: MutationMeta, inputFields: ODict<Arg>, k: string)
    ensures var added := Get(inputFields, PkName(m)).None? && Get(m.argumentsProps, PkName(m)).None?;
            Keys(WithUpdateKey(m, inputFields)) == if added then Keys(inputFields) + [PkName(m)] else Keys(inputFields)
    ensures Get(WithUpdateKey(m, inputFields), k)
         == if k == PkName(m) && Get(inputFields, k).None? && Get(m.argumentsProps, k).None?
            then Some(IdArg(m.lookupFieldDescription)) else Get(inputFields, k)
  {
    KeysPut(inputFields, PkName(m), IdArg(m.lookupFieldDescription));
    GetPut(inputFields, PkName(m), IdArg(m.lookupFieldDescription), k);
  }

  /**
   * `_init_update_args()`, given what `base_args_setup()` returned (or the
   * exception it raised) and the name of the update input type.
   */
  method InitUpdateArgs(m: MutationMeta, setup: Result<ODict<Arg>, string>, updateTypeName: string)
    returns (r: Result<ODict<Arg>, string>)
    ensures setup.Err? ==> r == Err(setup.error)
    ensures setup.Ok? ==> r == Ok(Bundled(m.inputFieldName, Named(updateTypeName), WithUpdateKey(m, setup.value), m.argumentsProps))
  {
    if setup.Err? {
      return Err(setup.error);
    }
    var inputFields := setup.value;
    var pk := PkName(m);
    if Get(inputFields, pk).None? && Get(m.argumentsProps, pk).None? {
      inputFields := Put(inputFields, pk, IdArg(m.lookupFieldDescription));
    }
    var arguments := BundleAllArguments(m.inputFieldName, Named(updateTypeName), inputFields, m.argumentsProps);
    return Ok(arguments);
  }

  /**
   * Without an input field name, the arguments of an update always offer
   * the id argument, either from the input fields, from `arguments_props`
   * or as the one added.
   */
  lemma UpdateArgsOfferKey(m: MutationMeta, inputFields: ODict<Arg>, updateTypeName: string)
    requires !StringIsSet(m.inputFieldName) && Distinct(Keys(m.argumentsProps))
    ensures Get(Bundled(m.inputFieldName, Named(updateTypeName), WithUpdateKey(m, inputFields), m.argumentsProps), PkName(m)).Some?
  {
    WithUpdateKeySpec(m, inputFields, PkName(m));
    GetBundled(m.inputFieldName, Named(updateTypeName), WithUpdateKey(m, inputFields), m.argumentsProps, PkName(m));
  }

  /** `_init_delete_args()`: exactly one argument, the required id. */
  function InitDeleteArgs(m: MutationMeta): (arguments: ODict<Arg>)
    ensures Keys(arguments) == [PkName(m)]
    ensures Get(arguments, PkName(m)) == Some(IdArg(m.lookupFieldDescription))
  {
    [(PkName(m), IdArg(m.lookupFieldDescription))]
  }

  /**
   * Update and delete agree on the id argument: when the update has to add
   * it, it adds the very argument that is the delete mutation's only one.
   */
  lemma DeleteKeyIsUpdateKey(m: MutationMeta, inputFields: ODict<Arg>)
    requires Get(inputFields, PkName(m)).None? && Get(m.argumentsProps, PkName(m)).None?
    ensures Get(WithUpdateKey(m, inputFields), PkName(m)) == Get(InitDeleteArgs(m), PkName(m))
  {
    WithUpdateKeySpec(m, inputFields, PkName(m));
  }

  /** The message `base_args_setup` raises when a named input type would have no fields. */
  function EmptyInputMessage(inputFieldName: string, className: string): string
  {
    inputFieldName + " type can not be empty use `only_fields` or `exclude_fields` to defined its fields. " + className
  }

  /**
   * `BaseModelMutation.base_args_setup()`, given the fields graphene_django
   * would construct from the model.
   */
  function ModelBaseArgsSetup(m: MutationMeta, constructed: ODict<Arg>): (r: Result<ODict<Arg>, string>)
    ensures (|m.onlyFields| > 0 || |m.excludeFields| > 0) ==> r == Ok(constructed)
    ensures r.Err? <==> |m.onlyFields| == 0 && |m.excludeFields| == 0 && StringIsSet(m.inputFieldName)
    ensures r.Err? ==> r.error == EmptyInputMessage(m.inputFieldName.value, m.className)
    ensures r.Ok? && |m.onlyFields| == 0 && |m.excludeFields| == 0 ==> r.value == []
  {
    if |m.onlyFields| > 0 || |m.excludeFields| > 0 then Ok(constructed)
    else if StringIsSet(m.inputFieldName) then Err(EmptyInputMessage(m.inputFieldName.value, m.className))
    else Ok([])
  }
}
