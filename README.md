# graphene-django-extras, modelled in Dafny

graphene-django-extras extends graphene-django with:

- Django REST framework (DRF) serializer mutations (create, update, delete);
- a permission layer built on DRF's permission classes;
- cursor connection fields with a default page size and an `ordering` argument;
- an enum-type cache for serializer choice fields;
- a guarded node resolver;
- helpers over nested request data.

This project models the logic of those parts and proves what they promise:

- the first-denial permission gate and the mutation state machines over a record store;
- the response shapes `get_errors` and `perform_mutate`, and the argument assembly of mutation classes;
- connection resolution, windowed as the Relay Cursor Connections Specification lays out in sections 4.4 and 5;
- the `ordering` parser;
- the three-tier enum-type lookup and its cache;
- the permission decorators and the node resolver;
- the pure utilities `clean_dict`, `get_type`, `parse_validation_exc`, `merge_related_queries`, `is_required`, `extract_requested_fields` and `build_model_query`.

Collaborators the code calls but does not define are parameters of the model:

- DRF serializers and `save`;
- the `create_mutate` and `update_mutate` hooks;
- permission decisions, `get_extra_types` and `get_id`;
- global-id decoding and the schema;
- ORM relation maps and `to_snake_case`;
- the resolver of a connection field and `DEFAULT_PAGE_SIZE`.

Modules, one per source concern:

- `Wrappers`, `Common`, `Text`, `OrderedDicts`: shared values. `Text` holds the Python `str` builtins the code uses. `OrderedDicts` models a Python dict as an insertion-ordered association list.
- `Permissions`: `GraphqlPermissionMixin`.
- `Mutation`: response shaping and argument assembly in `mutation.py`.
- `Mixins`: `create`, `update` and `delete` over a `Database` class.
- `Relay`: cursors and windowing.
- `Connections` and `RestConnections`: the two connection field modules.
- `SerializerConverter`: the enum cache, as the class `Converter`.
- `Decorators`, `NodeField`: the decorators and the node resolver.
- `Utils` and `RequestedFields`: the utilities in `utils.py`.

Where the code and its documentation disagree, the model follows the code:

- `mixins.py:117` and `mixins.py:148` call `_get_lookup_field_name`, which no file defines. The model uses `get_lookup_field_name` (`mutation.py:138-140`).
- `BaseSerializerMutation.save` (`mutation.py:339-342`) returns a bare object, but `mixins.py:55` and `:92` unpack an `(ok, obj)` pair. `save` is modelled as returning the pair (`Mixins.SaveResult`).
- `delete` always sets the attribute `id` to the requested value (`mixins.py:155`), whatever the lookup field is. The model does the same.
- The `ordering` parser removes every space, not only the whitespace around a name, and keeps the empty names between doubled commas: `"a,,b"` gives `a`, an empty name and `b` (`connections.py:84`).
- The message texts are the code's:
  - "do not exist", with and without the colon;
  - "Not Authorized" against "Not Authorised".
- A permission's message may be `None` (`mixins.py:20`), so a refusal carries an `Option<string>`.
- The docstring of `extract_requested_fields` (`utils.py:444-446`) shows leaf fields mapped to `None`. The code keeps only fields that have a selection set, and so does the model.

## Model

| member | source | states |
|---|---|---|
| Permissions.FirstDenial | graphene_django_extras/rest_framework/mixins.py:34-36 | returns no position exactly when every provider allows; otherwise the position of a refusing provider, and every provider before it allows |
| Permissions.Verdict | graphene_django_extras/rest_framework/mixins.py:19-36 | the gate passes iff every provider allows; a refusal carries the `message` (or `None`) of the first refusing provider, the position `FirstDenial` finds |
| Permissions.CheckAll | graphene_django_extras/rest_framework/mixins.py:29-45 | the loop over providers, stopping at the first refusal, yields exactly `Verdict` |
| Permissions.CheckPermissions | graphene_django_extras/rest_framework/mixins.py:29-36 | `check_permissions` asks `has_permission` of each provider and yields the verdict for the request |
| Permissions.CheckObjectPermissions | graphene_django_extras/rest_framework/mixins.py:38-45 | `check_object_permissions` asks `has_object_permission` for the object and yields the verdict for it |
| Permissions.VerdictAppend | graphene_django_extras/rest_framework/mixins.py:34-36 | providers appended after a refusal change nothing; after an all-allow list, only the appended ones decide |
| Permissions.VerdictTail | graphene_django_extras/rest_framework/mixins.py:34-36 | skipping a leading provider that allows leaves the verdict unchanged |
| Permissions.VerdictIgnoresLaterProviders | graphene_django_extras/rest_framework/mixins.py:34-36 | two policies that agree up to and including the first refusal give the same verdict: later providers are never consulted |
| Mixins.InputData | graphene_django_extras/rest_framework/mixins.py:64-71 | the input is the input object's entries when `input_field_name` is set, else all arguments; on a multipart request every uploaded file is added and overrides a key of the same name |
| Mixins.AssembleInput | graphene_django_extras/rest_framework/mixins.py:64-71 | the in-place `data.update` steps build exactly `InputData` (the same steps as `update`'s, mixins.py:102-110) |
| Mixins.PerformCreate | graphene_django_extras/rest_framework/mixins.py:53-58 | the returned payload and the new store are those of `PerformCreateSpec`: `save` over an unbound serializer, or `create_mutate` called with the data and every resolver argument, its exception flattened (the hook variant, mixins.py:177-185) |
| Mixins.PerformUpdate | graphene_django_extras/rest_framework/mixins.py:86-95 | the returned payload and the new store are those of `PerformUpdateSpec`: `save` over a partial serializer bound to the instance, or `update_mutate` called with the data, the instance and every resolver argument, answering with the instance (the hook variant, mixins.py:193-204) |
| Mixins.Create | graphene_django_extras/rest_framework/mixins.py:60-72 | the outcome and the new store are those of `CreateSpec`: gate, then input, then `perform_create` |
| Mixins.Update | graphene_django_extras/rest_framework/mixins.py:97-129 | the outcome and the new store are those of `UpdateSpec`: gate, input, lookup, then object gate and `perform_update` or the not-found error |
| Mixins.Delete | graphene_django_extras/rest_framework/mixins.py:143-169 | the outcome and the new store are those of `DeleteSpec`: gate, lookup from the raw arguments, object gate, removal, `id` set to the requested value |
| Mixins.SameGateSameVerdict | graphene_django_extras/rest_framework/mixins.py:29-36 | backends whose providers decide the same for the request give the same verdict |
| Mixins.CreateDenied | graphene_django_extras/rest_framework/mixins.py:60-63 | a refused request raises the refusing provider's message, leaves the store alone and consults nothing else |
| Mixins.SerializerCreate | graphene_django_extras/rest_framework/mixins.py:53-72 | a serializer-backed create hands `save` an unbound serializer over the assembled input and answers exactly the errors (`ok=False`) or exactly the saved object (`ok=True`) |
| Mixins.HookCreateRaises | graphene_django_extras/rest_framework/mixins.py:177-185 | an exception from `create_mutate` becomes exactly one error with no field and its text as the only message |
| Mixins.UpdateNotFound | graphene_django_extras/rest_framework/mixins.py:112-129 | a missing target answers one error on `"id"`, "A <Model> obj with id: <pk> do not exist", leaves the store alone, and neither the object gate nor `perform_update` can change the answer |
| Mixins.UpdateObjectDenied | graphene_django_extras/rest_framework/mixins.py:112-115 | when the object gate refuses, the update raises its message and the store is untouched: the object check precedes `perform_update` |
| Mixins.SerializerUpdate | graphene_django_extras/rest_framework/mixins.py:86-115 | a serializer-backed update binds the serializer to the stored instance with `partial=True` and answers exactly the errors or the saved object |
| Mixins.HookUpdate | graphene_django_extras/rest_framework/mixins.py:193-204 | a hook-backed update answers the instance as `update_mutate` left it, whatever the hook returned; a raised exception becomes one field-less error |
| Mixins.DeleteFound | graphene_django_extras/rest_framework/mixins.py:150-156 | deleting an allowed record removes exactly that record and answers it with `id` set to the requested value |
| Mixins.DeleteNotFound | graphene_django_extras/rest_framework/mixins.py:157-169 | deleting a missing record deletes nothing and answers one error on `"id"`, "A <Model> obj with id <pk> do not exist" |
| Mutation.GetErrors | graphene_django_extras/rest_framework/mutation.py:110-114 | `ok=False`, `errors` the given list and the output field `None`, overriding extra types of the same name; other extra types are kept |
| Mutation.PerformMutate | graphene_django_extras/rest_framework/mutation.py:127-131 | `ok=True`, `errors=None` and the output field the object, overriding extra types of the same name; other extra types are kept |
| Mutation.ReadGetErrors | graphene_django_extras/rest_framework/mutation.py:110-114 | a `get_errors` response reads back as exactly its errors |
| Mutation.ReadPerformMutate | graphene_django_extras/rest_framework/mutation.py:127-131 | a `perform_mutate` response reads back as exactly its object |
| Mutation.SuccessIsNotFailure | graphene_django_extras/rest_framework/mutation.py:110-131 | no `perform_mutate` response equals a `get_errors` response |
| Mutation.ErrorBuilder | graphene_django_extras/rest_framework/mutation.py:102-107 | one error per key of `serializer.errors`, in order, carrying that key and its messages |
| Mutation.ByFieldErrorBuilder | graphene_django_extras/rest_framework/mutation.py:102-107 | regrouping `error_builder`'s errors by field gives back `serializer.errors`: nothing is lost or reordered |
| Mutation.LookupFieldName | graphene_django_extras/rest_framework/mutation.py:138-140 | `lookup_field` when set, else the primary-key name |
| Mutation.PkName | graphene_django_extras/rest_framework/mutation.py:230 | `lookup_url_kwarg` when set, else the lookup field name |
| Mutation.IdArg | graphene_django_extras/rest_framework/mutation.py:233-235 | a required `ID` argument described by `lookup_field_description` or "Django object unique identification field" |
| Mutation.BundleAllArguments | graphene_django_extras/rest_framework/mutation.py:155-170 | one required argument of the input type, or one argument per input field, then updated in place with `arguments_props` |
| Mutation.GetBundled | graphene_django_extras/rest_framework/mutation.py:155-170 | an argument of the bundle is the `arguments_props` entry when there is one, else the input-type argument or the input field |
| Mutation.WithUpdateKeySpec | graphene_django_extras/rest_framework/mutation.py:230-236 | the id argument is added, at the end, exactly when neither the input fields nor `arguments_props` have it; every other input field is unchanged |
| Mutation.InitUpdateArgs | graphene_django_extras/rest_framework/mutation.py:227-246 | a raising `base_args_setup` raises the same; otherwise the bundle of the input fields with the id argument added |
| Mutation.UpdateArgsOfferKey | graphene_django_extras/rest_framework/mutation.py:227-246 | without an input field name, the update arguments always offer the id argument |
| Mutation.InitDeleteArgs | graphene_django_extras/rest_framework/mutation.py:249-258 | exactly one argument: the required id under the lookup key |
| Mutation.DeleteKeyIsUpdateKey | graphene_django_extras/rest_framework/mutation.py:227-258 | the id argument an update adds is the delete mutation's only argument |
| Mutation.ModelBaseArgsSetup | graphene_django_extras/rest_framework/mutation.py:529-554 | with `only_fields` or `exclude_fields`, the constructed fields; otherwise it raises iff `input_field_name` is set, with the code's message; otherwise an empty mapping |
| Relay.DecodeCursorSpec | graphene_django_extras/connections.py:33-42 | decoding a cursor gives an offset iff the cursor is that offset's encoding |
| Relay.CursorInjective | graphene_django_extras/connections.py:33-42 | different offsets have different cursors |
| Relay.AllEdges | graphene_django_extras/connections.py:33-38 | every node of the slice, under the cursor of its absolute offset (slice start 0) |
| Relay.AfterStart | graphene_django_extras/connections.py:33-38 | the start of the edges once `after` is applied lies within the collection |
| Relay.BeforeEnd | graphene_django_extras/connections.py:33-38 | the end of the edges once `before` is applied lies between the start and the collection's end |
| Relay.TrimBounds | graphene_django_extras/connections.py:33-38 | an error exactly for a negative `first` or `last`; otherwise bounds within the given ones |
| Relay.Window | graphene_django_extras/connections.py:33-38 | an error exactly for a negative `first` or `last`; otherwise a window within the collection |
| Relay.ConnectionFromSlice | graphene_django_extras/connections.py:33-42 | the page holds the window's nodes under their absolute cursors, with the matching PageInfo; an error exactly when `Window` gives one |
| Relay.IndexOfCursor | graphene_django_extras/connections.py:33-38 | no position iff no edge has the cursor; otherwise the position of an edge with it |
| Relay.IndexOfCursorInSuffix | graphene_django_extras/connections.py:33-38 | among the edges from offset `s` on, a cursor is found exactly at its own offset |
| Relay.AfterStep | graphene_django_extras/connections.py:33-38 | the specification's `after` step keeps exactly the edges from `AfterStart` on |
| Relay.BeforeStep | graphene_django_extras/connections.py:33-38 | the specification's `before` step stops exactly at `BeforeEnd` |
| Relay.ApplyCursorsWindow | graphene_django_extras/connections.py:33-38 | ApplyCursorsToEdges cuts all edges to exactly `[AfterStart, BeforeEnd)` |
| Relay.TrimSlice | graphene_django_extras/connections.py:33-38 | trimming a slice by `first` and `last` gives the slice `TrimBounds` computes, errors included |
| Relay.RelayEdgesWindow | graphene_django_extras/connections.py:33-38 | EdgesToReturn gives exactly the slice `Window` computes |
| Relay.ConnectionFollowsRelay | graphene_django_extras/connections.py:33-42 | the offset computation gives the same edges, errors and PageInfo as the specification's algorithms |
| Relay.FirstOnly | graphene_django_extras/connections.py:33-42 | with only `first=f`: the first `min(f, n)` nodes, a next page exactly when `f < n`, never a previous page |
| Relay.AfterCursor | graphene_django_extras/connections.py:33-42 | after the cursor of offset `c`, the first edge holds the node at offset `c + 1` |
| Relay.PageBounds | graphene_django_extras/connections.py:33-42 | a page never holds more edges than `first` or `last` ask for |
| Relay.PageCursors | graphene_django_extras/connections.py:33-42 | the start and end cursors are those of the first and last edge |
| Connections.Length | graphene_django_extras/connections.py:29-32 | `count()` or `len()`: the number of nodes of the collection |
| Connections.ResolveConnection | graphene_django_extras/connections.py:19-44 | a connection of the type comes back unchanged; a non-iterable is rejected with the code's message; a collection is windowed over its whole length and kept in `iterable` |
| Connections.ResolveConnectionIdempotent | graphene_django_extras/connections.py:21-22 | resolving an already resolved connection gives it back unchanged |
| Connections.ResolvedWindow | graphene_django_extras/connections.py:29-43 | the edges are one contiguous window of the collection, each under its absolute offset's cursor, and `iterable` is the whole collection |
| Connections.WithFallback | graphene_django_extras/connections.py:53-54 | a falsy result is replaced by `resolve_objects` when the type has it; otherwise the result stands |
| Connections.ConnectionResolver | graphene_django_extras/connections.py:47-57 | the resolver's result, or `resolve_objects`' when that result is falsy and the type defines it, is resolved into a connection, now when it is ready and on settling when it is pending |
| Connections.OnResolve | graphene_django_extras/connections.py:56-57 | the same resolution applies to a ready value and to a promise once it settles |
| Connections.ConnectionResolverKeepsConnections | graphene_django_extras/connections.py:47-57 | a result that already is a connection of the field's type, wrapped in `NonNull` or not, comes back unchanged, ready or pending as it was |
| Connections.WithDefaultFirst | graphene_django_extras/connections.py:17 | an absent `first` defaults to the page size; every given argument is kept (the same default at connections.py:68) |
| Connections.OrderingKeysRoundTrip | graphene_django_extras/connections.py:83-86 | with a comma, joining the keys by commas gives the string with the outer commas stripped and every space removed; no key holds a space or a comma |
| Connections.OrderingKeysSingle | graphene_django_extras/connections.py:87-88 | without a comma the string is the one key, exactly as given |
| Connections.OrderedQueryset | graphene_django_extras/connections.py:82-88 | ordering applies only to a QuerySet with a non-empty `ordering`, and only the order keys change |
| Connections.ResolveQueryset | graphene_django_extras/connections.py:70-90 | the step-by-step parse gives exactly `OrderedQueryset` |
| RestConnections.InjectDefaultFirst | graphene_django_extras/rest_framework/connections.py:46-50 | with `first` and `last` both falsy, `first` is set to the page size; otherwise the arguments are unchanged |
| RestConnections.InjectDefaultFirstIdempotent | graphene_django_extras/rest_framework/connections.py:46-50 | injecting a truthy page size twice is injecting it once |
| RestConnections.InjectDefaultFirstBounds | graphene_django_extras/rest_framework/connections.py:46-50 | after injecting a truthy page size the page is bounded, and only `first` can have changed |
| RestConnections.InjectInPlace | graphene_django_extras/rest_framework/connections.py:46-50 | the in-place dictionary update gives exactly `InjectDefaultFirst` |
| RestConnections.RestConnectionResolver | graphene_django_extras/rest_framework/connections.py:42-59 | the resolver sees the original arguments; the fallback and the windowing see the injected ones |
| RestConnections.DefaultPageSizeBoundsPage | graphene_django_extras/rest_framework/connections.py:44-59 | with no bound in the query and a positive page size, a resolved collection is cut to at most that many edges |
| RestConnections.PageLimitConnectionResolver | graphene_django_extras/rest_framework/connections.py:64-71 | the keyword arguments get the same default before delegating |
| SerializerConverter.EnumType.constructor | graphene_django_extras/rest_framework/serializer_converter.py:37 | a new enum type named by the enum name, over the field's choices |
| SerializerConverter.FieldName | graphene_django_extras/rest_framework/serializer_converter.py:43 | `field_name`, else `source`, else "Choices"; never empty |
| SerializerConverter.CacheNameEnumName | graphene_django_extras/rest_framework/serializer_converter.py:42-54 | ModelSerializer: model name plus the capitalized name, keyed by the model field if it exists, else by "<Serializer>_<name>"; other serializers: "<Serializer><name>", keyed by the cache name |
| SerializerConverter.CacheNamesDistinguishFields | graphene_django_extras/rest_framework/serializer_converter.py:45 | two fields of one serializer class with different names get different cache names |
| SerializerConverter.Converter.constructor | graphene_django_extras/rest_framework/serializer_converter.py:15 | the cache starts empty |
| SerializerConverter.Converter.Lookup | graphene_django_extras/rest_framework/serializer_converter.py:21-35 | the converted-field registry first, then "<enum_name>Enum" in the extras registry, then the cache; nothing exactly when all three miss |
| SerializerConverter.Converter.ConvertSerializerFieldToEnum | graphene_django_extras/rest_framework/serializer_converter.py:19-39 | a hit returns that type and leaves the cache alone; a full miss creates exactly one new type and stores it under `str(cache_name)`; no existing entry changes |
| SerializerConverter.Converter.ConvertTwice | graphene_django_extras/rest_framework/serializer_converter.py:32-39 | converting one field twice with no registry hit gives the very same type, which the cache holds |
| Decorators.LoginRequiredMsg | graphene_django_extras/rest_framework/decorators.py:20-34 | the resolver is called iff the user is authenticated, and its result returned; otherwise `no_auth_msg` is raised |
| Decorators.LoginRequiredIgnoresResolver | graphene_django_extras/rest_framework/decorators.py:28-30 | for an anonymous user the resolver makes no difference: it is not called |
| Decorators.OrDefault | graphene_django_extras/rest_framework/decorators.py:75 | the message when it is set, else the default (also at decorators.py:97) |
| Decorators.IsSuperUserRequiredMsg | graphene_django_extras/rest_framework/decorators.py:61-80 | passes iff authenticated and superuser; `no_auth_msg` for anonymous users, `not_auth_msg` or "Not Authorized" otherwise |
| Decorators.IsStaffRequiredMsg | graphene_django_extras/rest_framework/decorators.py:83-102 | passes iff authenticated, superuser and staff; `no_auth_msg` for anonymous users, `not_auth_msg` or "Not Authorised" otherwise |
| Decorators.StaffGuardImpliesSuperUserGuard | graphene_django_extras/rest_framework/decorators.py:61-102 | whatever the staff guard lets through the superuser guard lets through, and both refuse anonymous users with the same message |
| Decorators.LoginRequired | graphene_django_extras/rest_framework/decorators.py:105 | "Authentication is required" for anonymous users; passes iff authenticated |
| Decorators.IsSuperUserRequired | graphene_django_extras/rest_framework/decorators.py:106 | "Authentication is required", then "Not Authorized" |
| Decorators.IsStaffRequired | graphene_django_extras/rest_framework/decorators.py:107 | "Authentication is required", then "Not Authorised" |
| Decorators.PermissionRequired | graphene_django_extras/rest_framework/decorators.py:37-43 | the assertion fails iff `permission_classes` is neither a list nor a tuple; otherwise those classes guard the resolver |
| Decorators.CheckedObject | graphene_django_extras/rest_framework/decorators.py:51-55 | the object checked is the first element of a non-empty QuerySet, list or tuple; none for an empty one or any other result |
| Decorators.PermissionRequiredWrap | graphene_django_extras/rest_framework/decorators.py:45-58 | the class check refuses first; the result comes back unchanged iff both gates pass; the object gate sees only the first element |
| Decorators.ClassCheckPrecedesResolver | graphene_django_extras/rest_framework/decorators.py:49-50 | a class-level refusal does not depend on the resolver: it is never called |
| Decorators.EmptyResultNoObjectCheck | graphene_django_extras/rest_framework/decorators.py:51-56 | an empty result gets no object check: only the class gate decides |
| Decorators.OnlyFirstElementChecked | graphene_django_extras/rest_framework/decorators.py:54-55 | two list results with the same first element are granted alike |
| NodeField.QueryResolver | graphene_django_extras/node.py:26-36 | class gate, then `get_id`, then the lookup; a missing object is returned as empty with no object check; a found object passes the object gate before being returned |
| NodeField.ClassCheckPrecedesLookup | graphene_django_extras/node.py:27-30 | a class-level refusal depends on neither the id nor the store |
| NodeField.MissingObjectNoObjectCheck | graphene_django_extras/node.py:31-34 | no object found: the empty result, whatever the object-level policy |
| NodeField.GetNodeFromGlobalId | graphene_django_extras/node.py:65-82 | no node when decoding or the type lookup fails; an assertion with "Must receive a <name> id." iff `only_type` mismatches; the decoded id iff the type implements the interface |
| NodeField.NodeIdHasOnlyType | graphene_django_extras/node.py:73-82 | a returned id names exactly `only_type`, and that type implements the interface |
| Utils.Clean | graphene_django_extras/utils.py:171-182 | a value that is neither a dict nor a list comes back unchanged; lists stay lists and dicts stay dicts |
| Utils.CleanIsClean | graphene_django_extras/utils.py:178-182 | the result holds no falsy value at any depth |
| Utils.CleanFixesClean | graphene_django_extras/utils.py:176-182 | data with no falsy value at any depth is left unchanged |
| Utils.CleanIdempotent | graphene_django_extras/utils.py:171-182 | cleaning twice is cleaning once |
| Utils.CleanItemsOrder | graphene_django_extras/utils.py:179 | list elements keep their order, and every truthy cleaned element stays |
| Utils.CleanEntriesOrder | graphene_django_extras/utils.py:180-182 | dict entries keep their order, and every entry with a truthy cleaned value stays |
| Utils.GetType | graphene_django_extras/utils.py:185-188 | the result is neither a List nor a NonNull; a named type comes back unchanged |
| Utils.GetTypeUnwraps | graphene_django_extras/utils.py:185-188 | any stack of List/NonNull wrappers is stripped back to the named type |
| Utils.FieldErrors | graphene_django_extras/utils.py:414-415 | one entry per error of a field, in order, with that field and the error's messages |
| Utils.ErrorEntries | graphene_django_extras/utils.py:410-417 | every entry names a field of the error dict |
| Utils.ErrorEntriesAppend | graphene_django_extras/utils.py:413-415 | the entries of two dicts in sequence are the entries of the first, then of the second |
| Utils.ErrorEntriesCount | graphene_django_extras/utils.py:413-415 | one entry per (key, error) pair |
| Utils.ParseValidationExc | graphene_django_extras/utils.py:410-417 | the nested loops build exactly `ErrorEntries`, in order |
| Utils.MergeRelatedQueries | graphene_django_extras/utils.py:385-401 | `select_related` is applied iff its list is non-empty, likewise `prefetch_related`, once each; with both empty the manager is unchanged |
| Utils.SelectBeforePrefetch | graphene_django_extras/utils.py:393-394 | with both lists, `select_related` comes first |
| Utils.ResolvedBlank | graphene_django_extras/utils.py:207-214 | `None` resolves to True, and a boolean stands |
| Utils.ResolvedDefault | graphene_django_extras/utils.py:208-219 | `None` and `NOT_PROVIDED` resolve to `NOT_PROVIDED` |
| Utils.IsRequired | graphene_django_extras/utils.py:205-224 | a field is optional when `blank` is missing or true or the default is a bool; a required field has no default and a falsy `blank`; its partner lemmas are the three below |
| Utils.IsRequiredModelField | graphene_django_extras/utils.py:205-224 | a field with no default is required iff it is not blank |
| Utils.DefaultMakesOptional | graphene_django_extras/utils.py:216-224 | a provided default makes the field optional, whatever `blank` is |
| Utils.IsRequiredDelegates | graphene_django_extras/utils.py:207-219 | a form field without its own attributes takes them from its model field: required iff not blank and no default |
| RequestedFields.ExtractRequestedFields | graphene_django_extras/utils.py:462-511 | the loop builds exactly the fold `ExtractFrom` over the fields |
| RequestedFields.SpreadReplacesResult | graphene_django_extras/utils.py:501-509 | a fragment spread discards what came before it |
| RequestedFields.ExtractKeys | graphene_django_extras/utils.py:462-495 | without spreads, the earlier keys stay in front; the keys are the earlier ones plus the fields with a selection set; keys stay distinct |
| RequestedFields.Step | graphene_django_extras/utils.py:520-524 | "<last>__<name>", or the name when the last path is empty |
| RequestedFields.BuildModelQueryAsWritten | graphene_django_extras/utils.py:514-528 | the code as written only appends: the input list is a prefix of the result |
| RequestedFields.RelatedPathsAreChains | graphene_django_extras/utils.py:515-519 | every path it builds is a chain of relations, each name a relation of the model before it |
| RequestedFields.RenderPrepend | graphene_django_extras/utils.py:520-524 | rendering under a name is rendering under that step's path |
| RequestedFields.BuildModelQuery | graphene_django_extras/utils.py:514-528 | the corrected loop appends, after the input list, each related path rendered under the input's last path |
| RequestedFields.SiblingPathsChainAsWritten | graphene_django_extras/utils.py:520-522 | as written, sibling relations `books` and `awards` under `author` give `author__books__awards` |
| RequestedFields.SiblingPathsFixed | graphene_django_extras/utils.py:514-528 | the corrected version gives `author`, `author__books`, `author__awards` |
| Text.Capitalize | graphene_django_extras/rest_framework/serializer_converter.py:50 | `str.capitalize` over ASCII letters: the first character upper-cased, every later one lower-cased |
| Text.CapitalizeIdempotent | graphene_django_extras/rest_framework/serializer_converter.py:50 | capitalizing a capitalized name changes nothing |
| Text.Strip | graphene_django_extras/connections.py:84 | `str.strip(",")`: the middle of the string, with only that character removed from both ends |
| Text.RemoveChar | graphene_django_extras/connections.py:84 | `str.replace(" ", "")`: the character is gone, every other character keeps its count, and a string without it comes back unchanged |
| Text.RemoveCharAppend | graphene_django_extras/connections.py:84 | removal works piece by piece over a concatenation, so the remaining characters keep their order |
| Text.Split | graphene_django_extras/connections.py:84 | `str.split(",")`: at least one piece, none holding the separator |
| Text.JoinSplit | graphene_django_extras/connections.py:84 | joining the pieces of a split gives back the string |
| Text.SplitJoin | graphene_django_extras/connections.py:84 | splitting a join of separator-free pieces gives back the pieces |
| OrderedDicts.GetUpdateAll | graphene_django_extras/rest_framework/mutation.py:159-169 | after `OrderedDict.update`, a key holds the update's value if it has one, else its old value |
| OrderedDicts.KeysUpdateAll | graphene_django_extras/rest_framework/mutation.py:159-169 | `update` keeps the old keys in front, adds only the new ones, and keeps keys distinct |

## Left out

- The Django ORM. The store is a map from lookup value to record. `get_Object_or_None`, `_get_queryset`, `queryset_builder`, `queryset_refactor` and the relation maps are not modelled or are parameters. Several objects matching one lookup are not modelled.
- Sorting by `order_by`: a QuerySet records its order keys, and applying them is the ORM's job.
- graphql_relay's base64 cursor layer: a cursor is the text `arrayconnection:<offset>`. Its internals are not shown, so the windowing follows the Relay Cursor Connections Specification. Where that specification lets a server answer `hasPreviousPage`/`hasNextPage` "if it can efficiently determine", the model answers false, and no leniency of the library is replicated.
- `super().resolve_queryset` and `get_queryset` in `DjangoConnectionPageLimitField.resolve_queryset`: their result is the method's input.
- `to_camel_case`, `to_snake_case` and `to_kebab_case` use regex-heavy string code. `to_snake_case` is a parameter of `extract_requested_fields`; the type names built with `to_camel_case` are parameters.
- Graphene type and schema construction in `mutation.py`: `__init_subclass_with_meta__`, the output-field builders and the `type(...)` calls. `base_args_setup`'s constructed fields are a parameter.
- `mutation.py`'s `arguments_props` is taken to be a dict of arguments; a falsy `arguments_props` is not modelled.
- The in-place mutation of Python dicts and lists and the aliasing it allows. Every such dict or list is a value the method reassigns; `build_model_query`'s `query_parent` is threaded as a sequence.
- `maybe_thenable` is modelled as a ready-or-pending value that gets the same treatment. Promise scheduling is left out.
- The enum cache has no locking, so only one sequential process is modelled.
- The `repr` of resolved values in the connection error message is a parameter.
- `DEFAULT_PAGE_SIZE` and the settings module are a parameter.
- ExtractRequestedFields: Python's recursion limit becomes a bound on nesting fragment spreads, the `depth` parameter. Past it the model returns `RecursionLimit`; the source would raise `RecursionError` at a depth the model does not fix, and a fragment that spreads itself never ends there.
- RequestedFields.BuildModelQuery: the empty `query_parent`, on which the source raises `IndexError`, is excluded by a precondition. Its only caller passes `[name]`.
- RequestedFields.BuildModelQuery: the `isinstance(val, dict)` check always holds. In the model every requested field maps to a nested dict, because `extract_requested_fields` produces nothing else.
- Text.Capitalize: upper- and lower-casing are ASCII only. Python's `str.capitalize` title-cases the first character and lower-cases the rest over all of Unicode, and can change the length (`'ß'` becomes `'Ss'`); a non-ASCII field name keeps its non-ASCII letters as they are.
- Mixins.PerformCreate and Mixins.PerformUpdate: the hooks receive the resolver arguments as they were passed. In the source, when `input_field_name` is set, `data` is the input object itself, so the uploaded files written into `data` also appear inside that argument; in the model the arguments stay as given.
- Utils.IsRequired: the `AttributeError` branch is not modelled. Every `getattr` in `is_required` has a default, so no branch of the model raises.
- Utils.MergeRelatedQueries: the default values `List[str]` of the two list parameters are not modelled, since the only caller passes lists.
- NodeField.GetNodeFromGlobalId: `Node.from_global_id` and `info.schema.get_type` are parameters, and their exceptions are "no result". `cls.__base__` is a name parameter.
- `recursive_params`, `get_fields`, `get_model_fk_fields` and `fields.py`: ORM and AST wiring.
- `get_permissions`' instantiation of classes: a provider is an instance already.

## Findings

| source | as written | input that shows it | evidently intended | confidence | as-written member | corrected member |
|---|---|---|---|---|---|---|
| graphene_django_extras/utils.py:517-527 | the loop reads `query_parent[-1]` on each iteration, after earlier iterations appended to it, so a sibling relation is joined onto the previous sibling's path | `build_model_query` on an `Author` manager whose relations are `books` and `awards`, with fields `{books: {}, awards: {}}` and `query_parent = ["author"]`, gives `["author", "author__books", "author__books__awards"]` | every relation at one level is joined onto the parent path: `["author", "author__books", "author__awards"]` | not executed | RequestedFields.SiblingPathsChainAsWritten | RequestedFields.SiblingPathsFixed |
