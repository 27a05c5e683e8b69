/**
 * The part of pydantic the schemas use: a model is a map from field name to a
 * declared type and default; `Model(**data)` validates the given keys against
 * their types, fills the others with their defaults and ignores unknown keys;
 * `model_dump(exclude_unset=True)` turns an instance back into dicts holding
 * only the fields that were explicitly given.
 */
module Pydantic {
  import opened Wrappers
  import opened Values

  datatype FieldType =
    | FStr
    | FFloat
    | FBool
    | FEmail                 // EmailStr
    | FUrl                   // HttpUrl
    | FList(elem: FieldType)
    | FModel(spec: seq<Field>)

  /** A declared default: none (the field is required), `= None` or `= []`. */
  datatype Default = Required | DefaultNone | DefaultEmpty

  /** One annotated class attribute: `name: ty = dflt`. */
  datatype Field = Field(name: string, ty: FieldType, dflt: Default)

  /** A model class, its fields in declaration order. */
  type ModelSpec = seq<Field>

  /** The syntactic checks behind `EmailStr` and `HttpUrl`, which are not modelled. */
  datatype Checks = Checks(validEmail: string -> bool, validUrl: string -> bool)

  function Names(spec: ModelSpec): set<string>
  {
    set i | 0 <= i < |spec| :: spec[i].name
  }

  /** The position of the field called `k`. */
  function IndexOf(spec: ModelSpec, k: string): (i: nat)
    requires k in Names(spec)
    ensures i < |spec| && spec[i].name == k
  {
    if spec[0].name == k then 0
    else
      assert k in Names(spec[1..]) by {
        var j :| 0 <= j < |spec| && spec[j].name == k;
        assert spec[1..][j - 1] == spec[j];
      }
      1 + IndexOf(spec[1..], k)
  }

  function DefaultValue(d: Default): (v: Value)
    ensures d == DefaultEmpty ==> v == VList([])
    ensures d != DefaultEmpty ==> v == VNone
  {
    if d == DefaultEmpty then VList([]) else VNone
  }

  /**
   * `v` passes pydantic's (strict-typed) validation as a value of type `ty`.
   * A field that is not required also accepts None, since every such field of
   * these schemas is `Optional[...]`; a model-typed field accepts a dict, or an
   * instance already carrying that model's fields, which is kept as it is.
   */
  predicate Conforms(c: Checks, ty: FieldType, v: Value)
    decreases ty
  {
    match ty
    case FStr => v.VStr?
    case FFloat => v.VNum?
    case FBool => v.VBool?
    case FEmail => v.VStr? && c.validEmail(v.s)
    case FUrl => v.VStr? && c.validUrl(v.s)
    case FList(e) => v.VList? && forall i :: 0 <= i < |v.items| ==> Conforms(c, e, v.items[i])
    case FModel(spec) =>
      (v.VModel? && v.fields.Keys == Names(spec)) ||
      (v.VDict? &&
      forall i :: 0 <= i < |spec| ==>
        if spec[i].name in v.entries then
          (v.entries[spec[i].name] == VNone && spec[i].dflt != Required) || Conforms(c, spec[i].ty, v.entries[spec[i].name])
        else spec[i].dflt != Required)
  }

  /** The validated value: URLs become `HttpUrl` objects, dicts become model instances. */
  function Coerce(ty: FieldType, v: Value): Value
    decreases ty
  {
    match ty
    case FUrl => if v.VStr? then VUrl(v.s) else v
    case FList(e) =>
      if v.VList? then VList(seq(|v.items|, i requires 0 <= i < |v.items| => Coerce(e, v.items[i]))) else v
    case FModel(spec) =>
      if v.VDict? then
        VModel(map k | k in Names(spec) ::
                 var i := IndexOf(spec, k);
                 if k in v.entries then Coerce(spec[i].ty, v.entries[k]) else DefaultValue(spec[i].dflt),
               v.entries.Keys * Names(spec))
      else v
    case _ => v
  }

  datatype ValidationError = ValidationError

  /** `Model(**data)`. */
  function Validate(c: Checks, spec: ModelSpec, data: map<string, Value>): (r: Result<Value, ValidationError>)
    ensures r.Ok? <==> Conforms(c, FModel(spec), VDict(data))
    ensures r.Ok? ==> r.value.VModel? && r.value.fields.Keys == Names(spec)
    ensures r.Ok? ==> r.value.fieldsSet == data.Keys * Names(spec)
    ensures r.Ok? ==> forall k :: k in Names(spec) && k !in data ==>
              r.value.fields[k] == DefaultValue(spec[IndexOf(spec, k)].dflt)
    ensures r.Ok? ==> forall k :: k in Names(spec) && k in data ==>
              r.value.fields[k] == Coerce(spec[IndexOf(spec, k)].ty, data[k])
    ensures r.Ok? ==> forall k :: k in Names(spec) && !spec[IndexOf(spec, k)].ty.FUrl? ==> !r.value.fields[k].VUrl?
  {
    if Conforms(c, FModel(spec), VDict(data)) then
      CoercedFieldsNotUrl(c, spec, data);
      Ok(Coerce(FModel(spec), VDict(data)))
    else Err(ValidationError)
  }

  /** Only an `HttpUrl` field can hold a URL object after validation. */
  lemma CoercedFieldsNotUrl(c: Checks, spec: ModelSpec, data: map<string, Value>)
    requires Conforms(c, FModel(spec), VDict(data))
    ensures forall k :: k in Names(spec) && k in data && !spec[IndexOf(spec, k)].ty.FUrl? ==>
              !Coerce(spec[IndexOf(spec, k)].ty, data[k]).VUrl?
  {
    forall k | k in Names(spec) && k in data && !spec[IndexOf(spec, k)].ty.FUrl?
      ensures !Coerce(spec[IndexOf(spec, k)].ty, data[k]).VUrl?
    {
      var i := IndexOf(spec, k);
      assert (data[k] == VNone && spec[i].dflt != Required) || Conforms(c, spec[i].ty, data[k]);
    }
  }

  /** The two `model_dump` modes: Python (the default) keeps `HttpUrl` objects, JSON turns them into strings. */
  datatype DumpMode = PythonMode | JsonMode

  /** `model_dump(mode=..., exclude_unset=True)`, applied to nested instances too. */
  function Dump(mode: DumpMode, v: Value): Value
  {
    match v
    case VModel(f, fs) => VDict(map k | k in fs && k in f :: Dump(mode, f[k]))
    case VList(items) => VList(seq(|items|, i requires 0 <= i < |items| => Dump(mode, items[i])))
    case VDict(m) => VDict(map k | k in m :: Dump(mode, m[k]))
    case VUrl(u) => if mode == JsonMode then VStr(u) else v
    case _ => v
  }

  /** A dump keeps exactly the explicitly-set fields of an instance, each dumped in turn. */
  lemma DumpKeepsSetFields(mode: DumpMode, v: Value)
    requires v.VModel?
    ensures Dump(mode, v).VDict? && Dump(mode, v).entries.Keys == v.fieldsSet * v.fields.Keys
    ensures forall k :: k in v.fieldsSet * v.fields.Keys ==> Dump(mode, v).entries[k] == Dump(mode, v.fields[k])
  {
  }

  /** A JSON-mode dump can always be serialised: no URL object or instance is left anywhere. */
  lemma {:induction false} JsonDumpSerialisable(v: Value)
    ensures JsonSerialisable(Dump(JsonMode, v))
  {
    match v
    case VModel(f, fs) =>
      forall k | k in fs && k in f ensures JsonSerialisable(Dump(JsonMode, f[k])) {
        JsonDumpSerialisable(f[k]);
      }
    case VList(items) =>
      forall i | 0 <= i < |items| ensures JsonSerialisable(Dump(JsonMode, items[i])) {
        JsonDumpSerialisable(items[i]);
      }
    case VDict(m) =>
      forall k | k in m ensures JsonSerialisable(Dump(JsonMode, m[k])) {
        JsonDumpSerialisable(m[k]);
      }
    case _ =>
  }

  /** A value that holds no URL object anywhere. */
  predicate UrlFree(v: Value)
  {
    match v
    case VUrl(_) => false
    case VModel(f, _) => forall k :: k in f ==> UrlFree(f[k])
    case VList(items) => forall i :: 0 <= i < |items| ==> UrlFree(items[i])
    case VDict(m) => forall k :: k in m ==> UrlFree(m[k])
    case _ => true
  }

  /** On a value without URL objects the two modes agree. */
  lemma {:induction false} DumpModesAgreeWithoutUrls(v: Value)
    requires UrlFree(v)
    ensures Dump(PythonMode, v) == Dump(JsonMode, v)
  {
    match v {
      case VModel(f, fs) =>
        forall k | k in fs && k in f ensures Dump(PythonMode, f[k]) == Dump(JsonMode, f[k]) {
          DumpModesAgreeWithoutUrls(f[k]);
        }
        assert Dump(PythonMode, v).entries == Dump(JsonMode, v).entries;
      case VList(items) =>
        forall i | 0 <= i < |items| ensures Dump(PythonMode, items[i]) == Dump(JsonMode, items[i]) {
          DumpModesAgreeWithoutUrls(items[i]);
        }
        assert Dump(PythonMode, v).items == Dump(JsonMode, v).items;
      case VDict(m) =>
        forall k | k in m ensures Dump(PythonMode, m[k]) == Dump(JsonMode, m[k]) {
          DumpModesAgreeWithoutUrls(m[k]);
        }
        assert Dump(PythonMode, v).entries == Dump(JsonMode, v).entries;
      case _ =>
    }
  }

  /** So the Python-mode dump of a value without URL objects is serialisable too. */
  lemma PythonDumpWithoutUrlsSerialisable(v: Value)
    requires UrlFree(v)
    ensures JsonSerialisable(Dump(PythonMode, v))
  {
    DumpModesAgreeWithoutUrls(v);
    JsonDumpSerialisable(v);
  }

  /** A Python-mode dump of an instance whose set field holds a URL keeps the URL object. */
  lemma PythonDumpKeepsUrl(v: Value, k: string)
    requires v.VModel? && k in v.fieldsSet && k in v.fields && v.fields[k].VUrl?
    ensures k in Dump(PythonMode, v).entries && Dump(PythonMode, v).entries[k] == v.fields[k]
    ensures !JsonSerialisable(Dump(PythonMode, v))
  {
  }
}
