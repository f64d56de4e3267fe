/**
 * The enum conversion of DRF choice fields: an enum name and a cache key are
 * derived from the serializer and the field, and the enum type is looked up
 * in the converted-field registry, then in the extras enum registry, then in
 * a process-wide cache; only a miss in all three creates a type, which is
 * then cached.
 */
module SerializerConverter {
  import opened Wrappers
  import opened Text
  import opened Common

  /** A Django model: `__name__`, `_meta.label` (`app_label.ModelName`) and its field names. */
  datatype Model = Model(name: string, modelLabel: string, fieldNames: set<string>)

  /** A model field object; `str(field)` is `app_label.ModelName.field_name`. */
  datatype ModelField = ModelField(modelLabel: string, name: string)

  /** The serializer a field belongs to; `model` is set exactly for a `ModelSerializer`. */
  datatype Serializer = Serializer(className: string, model: Option<Model>)

  /** A `ChoiceField`: `field_name`, `source`, `parent` and its choices. */
  datatype ChoiceField = ChoiceField(fieldName: Option<string>, source: Option<string>, parent: Serializer,
                                     choices: seq<(string, string)>)

  /** The second result of `get_cache_name_enum_name`: a model field, or the cache name string. */
  datatype CacheKey = FieldKey(field: ModelField) | NameKey(name: string)

  /** `str(cache_name)`. */
  function KeyString(k: CacheKey): string
  {
    match k
    case FieldKey(f) => f.modelLabel + "." + f.name
    case NameKey(s) => s
  }

  /** A generated graphene Enum class; being a class, it has an identity of its own. */
  class EnumType {
    const name: string
    const choices: seq<(string, string)>

    constructor (name: string, choices: seq<(string, string)>)
      ensures this.name == name && this.choices == choices
    {
      this.name := name;
      this.choices := choices;
    }
  }

  /** `field.field_name or field.source or "Choices"`. */
  function FieldName(f: ChoiceField): (name: string)
    ensures StringIsSet(f.fieldName) ==> name == f.fieldName.value
    ensures !StringIsSet(f.fieldName) && StringIsSet(f.source) ==> name == f.source.value
    ensures !StringIsSet(f.fieldName) && !StringIsSet(f.source) ==> name == "Choices"
    ensures name != ""
  {
    if StringIsSet(f.fieldName) then f.fieldName.value
    else if StringIsSet(f.source) then f.source.value
    else "Choices"
  }

  /** `"<SerializerClass>_<name>"`. */
  function CacheName(f: ChoiceField): string
  {
    f.parent.className + "_" + FieldName(f)
  }

  /** `get_cache_name_enum_name(field)`: the enum name and the cache key. */
  function CacheNameEnumName(f: ChoiceField): (r: (string, CacheKey))
    ensures f.parent.model.Some? ==>
      var model := f.parent.model.value;
      && r.0 == model.name + Capitalize(FieldName(f))
      && r.1 == if FieldName(f) in model.fieldNames then FieldKey(ModelField(model.modelLabel, FieldName(f)))
                else NameKey(CacheName(f))
    ensures f.parent.model.None? ==> r == (f.parent.className + FieldName(f), NameKey(CacheName(f)))
  {
    var name := FieldName(f);
    var cacheName := f.parent.className + "_" + name;
    match f.parent.model
    case Some(model) =>
      var enumName := model.name + Capitalize(name);
      (enumName, if name in model.fieldNames then FieldKey(ModelField(model.modelLabel, name)) else NameKey(cacheName))
    case None => (f.parent.className + name, NameKey(cacheName))
  }

  /** Two fields of one serializer class whose names differ get different cache names. */
  lemma CacheNamesDistinguishFields(f: ChoiceField, g: ChoiceField)
    requires f.parent.className == g.parent.className && FieldName(f) != FieldName(g)
    ensures CacheName(f) != CacheName(g)
  {
    var p := f.parent.className + "_";
    assert FieldName(f) == CacheName(f)[|p|..] && FieldName(g) == CacheName(g)[|p|..];
  }

  /**
   * The process-wide `serializers_enum_types_cache`. The two registries it
   * consults first are read, never written, here: they are parameters.
   */
  class Converter {
    var cache: map<string, EnumType>

    constructor ()
      ensures cache == map[]
    {
      cache := map[];
    }

    /** The type the three tiers give, in order, if any of them has one. */
    function Lookup(converted: map<CacheKey, EnumType>, enums: map<string, EnumType>, f: ChoiceField): (r: Option<EnumType>)
      reads this
      ensures var (enumName, key) := CacheNameEnumName(f);
        && (key in converted ==> r == Some(converted[key]))
        && (key !in converted && enumName + "Enum" in enums ==> r == Some(enums[enumName + "Enum"]))
        && (key !in converted && enumName + "Enum" !in enums && KeyString(key) in cache ==> r == Some(cache[KeyString(key)]))
        && (r.None? <==> key !in converted && enumName + "Enum" !in enums && KeyString(key) !in cache)
    {
      var (enumName, key) := CacheNameEnumName(f);
      if key in converted then Some(converted[key])
      else if enumName + "Enum" in enums then Some(enums[enumName + "Enum"])
      else if KeyString(key) in cache then Some(cache[KeyString(key)])
      else None
    }

    /**
     * `convert_serializer_field_to_enum(field)`: a hit in any tier is returned
     * and the cache is left alone; a full miss creates exactly one new type,
     * named by the enum name, and adds it under `str(cache_name)`. The cache
     * only ever grows.
     */
    method ConvertSerializerFieldToEnum(converted: map<CacheKey, EnumType>, enums: map<string, EnumType>, f: ChoiceField)
      returns (t: EnumType)
      modifies this
      ensures old(Lookup(converted, enums, f)).Some? ==> t == old(Lookup(converted, enums, f)).value && cache == old(cache)
      ensures old(Lookup(converted, enums, f)).None? ==>
        && fresh(t)
        && t.name == CacheNameEnumName(f).0 && t.choices == f.choices
        && cache == old(cache)[KeyString(CacheNameEnumName(f).1) := t]
      ensures forall k :: k in old(cache) ==> k in cache && cache[k] == old(cache)[k]
    {
      var (enumName, key) := CacheNameEnumName(f);
      if key in converted {
        return converted[key];
      }
      if enumName + "Enum" in enums {
        return enums[enumName + "Enum"];
      }
      if KeyString(key) in cache {
        return cache[KeyString(key)];
      }
      t := new EnumType(enumName, f.choices);
      cache := cache[KeyString(key) := t];
    }

    /**
     * Converting the same field twice, with neither registry holding it,
     * gives the very same type both times: the second call creates nothing.
     */
    method ConvertTwice(converted: map<CacheKey, EnumType>, enums: map<string, EnumType>, f: ChoiceField)
      returns (t1: EnumType, t2: EnumType)
      requires CacheNameEnumName(f).1 !in converted && CacheNameEnumName(f).0 + "Enum" !in enums
      modifies this
      ensures t1 == t2
      ensures KeyString(CacheNameEnumName(f).1) in cache && cache[KeyString(CacheNameEnumName(f).1)] == t1
      ensures old(KeyString(CacheNameEnumName(f).1) in cache) ==> cache == old(cache)
    {
      t1 := ConvertSerializerFieldToEnum(converted, enums, f);
      t2 := ConvertSerializerFieldToEnum(converted, enums, f);
    }
  }
}
