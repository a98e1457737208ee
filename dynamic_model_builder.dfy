/**
 * The dynamic schema compiler: a declarative model definition (a name and an
 * ordered list of field definitions) is compiled into a closed descriptor that
 * records, per field name, the Python type annotation, the default policy and
 * the description handed to pydantic's `create_model`.
 */
module DynamicModelBuilder {
  import opened Wrappers

  // ---------------------------------------------------------------------------
  // Field types and their wire values
  // ---------------------------------------------------------------------------

  /** The closed set of type tags a field definition may name. */
  datatype FieldType =
    | String
    | Integer
    | Float
    | Boolean
    | ListString
    | ListInteger
    | Dict
    | OptionalString
    | OptionalInteger

  /** The string each tag stands for in a JSON model definition. */
  function TagValue(t: FieldType): string {
    match t
    case String => "string"
    case Integer => "integer"
    case Float => "float"
    case Boolean => "boolean"
    case ListString => "list_string"
    case ListInteger => "list_integer"
    case Dict => "dict"
    case OptionalString => "optional_string"
    case OptionalInteger => "optional_integer"
  }

  /** Looking a tag up by its value, as `FieldType(s)` does; `None` where Python raises. */
  function ParseFieldType(s: string): (r: Option<FieldType>)
    ensures r.Some? ==> TagValue(r.value) == s
  {
    if s == "string" then Some(String)
    else if s == "integer" then Some(Integer)
    else if s == "float" then Some(Float)
    else if s == "boolean" then Some(Boolean)
    else if s == "list_string" then Some(ListString)
    else if s == "list_integer" then Some(ListInteger)
    else if s == "dict" then Some(Dict)
    else if s == "optional_string" then Some(OptionalString)
    else if s == "optional_integer" then Some(OptionalInteger)
    else None
  }

  /** Every tag is found again from its value, so the nine values are distinct. */
  lemma ParseTagValue(t: FieldType)
    ensures ParseFieldType(TagValue(t)) == Some(t)
  {
  }

  // ---------------------------------------------------------------------------
  // Python values and type annotations
  // ---------------------------------------------------------------------------

  /** The Python runtime values a default or an inferred value can be. */
  datatype PyValue =
    | NoneValue
    | StrValue(s: string)
    | IntValue(i: int)
    | FloatValue(x: real)
    | BoolValue(b: bool)
    | ListValue(items: seq<PyValue>)
    | DictValue(entries: map<string, PyValue>)
    | OtherValue

  /** The annotations `type_mapping` produces: str, int, float, bool, List[T], Dict[str, Any], Optional[T]. */
  datatype PyType =
    | StrType
    | IntType
    | FloatType
    | BoolType
    | ListType(elem: PyType)
    | DictType
    | OptionalType(inner: PyType)

  /** Python's `isinstance(v, int)`: a bool is an int. */
  predicate IsInt(v: PyValue) {
    v.IntValue? || v.BoolValue?
  }

  /** The values an annotation admits, in the sense of `isinstance` on the annotated type. */
  predicate Admits(t: PyType, v: PyValue)
    decreases t
  {
    match t
    case StrType => v.StrValue?
    case IntType => IsInt(v)
    case FloatType => v.FloatValue?
    case BoolType => v.BoolValue?
    case ListType(elem) => v.ListValue? && forall i :: 0 <= i < |v.items| ==> Admits(elem, v.items[i])
    case DictType => v.DictValue?
    case OptionalType(inner) => v.NoneValue? || Admits(inner, v)
  }

  /** `Optional[t]`; typing flattens `Optional[Optional[T]]` to `Optional[T]`. */
  function OptionalOf(t: PyType): (r: PyType)
    ensures r.OptionalType?
    ensures forall v :: Admits(r, v) <==> v.NoneValue? || Admits(t, v)
  {
    if t.OptionalType? then t else OptionalType(t)
  }

  lemma OptionalOfIdempotent(t: PyType)
    ensures OptionalOf(OptionalOf(t)) == OptionalOf(t)
  {
  }

  // ---------------------------------------------------------------------------
  // Model definitions
  // ---------------------------------------------------------------------------

  /** One field of a model definition; `required` defaults to true and `defaultValue` to None. */
  datatype FieldDefinition = FieldDefinition(
    name: string,
    fieldType: FieldType,
    description: string,
    required: bool := true,
    defaultValue: PyValue := NoneValue)

  /** A model name and its ordered list of field definitions. */
  datatype ModelDefinition = ModelDefinition(modelName: string, fields: seq<FieldDefinition>)

  /** Omitting `required` and `default_value` gives a required field without a default. */
  lemma FieldDefinitionDefaults(name: string, t: FieldType, description: string)
    ensures FieldDefinition(name, t, description).required
    ensures FieldDefinition(name, t, description).defaultValue == NoneValue
  {
  }

  // ---------------------------------------------------------------------------
  // type_mapping
  // ---------------------------------------------------------------------------

  /** The dictionary inside `type_mapping`. */
  const TypeTable: map<FieldType, PyType> := map[
    String := StrType,
    Integer := IntType,
    Float := FloatType,
    Boolean := BoolType,
    ListString := ListType(StrType),
    ListInteger := ListType(IntType),
    Dict := DictType,
    OptionalString := OptionalType(StrType),
    OptionalInteger := OptionalType(IntType)
  ]

  /** `table.get(key, str)`. */
  function GetOrStr(table: map<FieldType, PyType>, key: FieldType): PyType {
    if key in table then table[key] else StrType
  }

  /** The table covers every tag, so the `str` fallback of `type_mapping` is never taken. */
  lemma TypeTableTotal(t: FieldType)
    ensures t in TypeTable
  {
  }

  /** `type_mapping(field_def)`: the annotation of the field's declared tag. */
  function TypeMapping(fd: FieldDefinition): (t: PyType)
    ensures fd.fieldType in TypeTable && t == TypeTable[fd.fieldType]
  {
    TypeTableTotal(fd.fieldType);
    GetOrStr(TypeTable, fd.fieldType)
  }

  /** The fixed annotation of each of the nine tags. */
  lemma TypeMappingValues(fd: FieldDefinition)
    ensures fd.fieldType == String ==> TypeMapping(fd) == StrType
    ensures fd.fieldType == Integer ==> TypeMapping(fd) == IntType
    ensures fd.fieldType == Float ==> TypeMapping(fd) == FloatType
    ensures fd.fieldType == Boolean ==> TypeMapping(fd) == BoolType
    ensures fd.fieldType == ListString ==> TypeMapping(fd) == ListType(StrType)
    ensures fd.fieldType == ListInteger ==> TypeMapping(fd) == ListType(IntType)
    ensures fd.fieldType == Dict ==> TypeMapping(fd) == DictType
    ensures fd.fieldType == OptionalString ==> TypeMapping(fd) == OptionalType(StrType)
    ensures fd.fieldType == OptionalInteger ==> TypeMapping(fd) == OptionalType(IntType)
  {
  }

  // ---------------------------------------------------------------------------
  // The compiled descriptor
  // ---------------------------------------------------------------------------

  /** How pydantic treats an absent field. */
  datatype Policy =
    | RequiredNoDefault          // `Field(description=...)`: absence is a validation error
    | WithDefault(value: PyValue) // `Field(default=v, ...)`
    | OptionalNone               // `Optional[T]` with `Field(default=None, ...)`

  /** The `(annotation, Field(...))` pair stored under a field name. */
  datatype CompiledField = CompiledField(annotation: PyType, policy: Policy, description: string)

  /** The model name with an insertion-ordered dictionary of compiled fields. */
  datatype CompiledModel = CompiledModel(modelName: string, order: seq<string>, fields: map<string, CompiledField>)

  predicate NoDuplicates(s: seq<string>) {
    forall i, j :: 0 <= i < j < |s| ==> s[i] != s[j]
  }

  /** `order` lists each key of `fields` exactly once. */
  ghost predicate WellFormed(m: CompiledModel) {
    NoDuplicates(m.order) && forall k :: k in m.fields <==> k in m.order
  }

  /** The body of the loop in `create_pydantic_model` for one field definition. */
  function CompileField(fd: FieldDefinition): (f: CompiledField)
    ensures f.description == fd.description
  {
    var pythonType := TypeMapping(fd);
    if fd.required && fd.defaultValue.NoneValue? then
      CompiledField(pythonType, RequiredNoDefault, fd.description)
    else if !fd.defaultValue.NoneValue? then
      CompiledField(pythonType, WithDefault(fd.defaultValue), fd.description)
    else
      CompiledField(OptionalOf(pythonType), OptionalNone, fd.description)
  }

  /** Each field lands in exactly the policy its `required` flag and default select. */
  lemma CompileFieldPolicy(fd: FieldDefinition)
    ensures CompileField(fd).policy == RequiredNoDefault <==> fd.required && fd.defaultValue == NoneValue
    ensures CompileField(fd).policy == OptionalNone <==> !fd.required && fd.defaultValue == NoneValue
    ensures CompileField(fd).policy.WithDefault? <==> fd.defaultValue != NoneValue
    ensures CompileField(fd).policy.WithDefault? ==> CompileField(fd).policy.value == fd.defaultValue
    ensures CompileField(fd).policy == RequiredNoDefault ==> CompileField(fd).annotation == TypeMapping(fd)
    ensures CompileField(fd).policy == OptionalNone ==> CompileField(fd).annotation == OptionalOf(TypeMapping(fd))
  {
  }

  /** A default other than None wins over `required`, and the annotation stays the mapped type. */
  lemma DefaultWinsOverRequired(fd: FieldDefinition)
    requires fd.defaultValue != NoneValue
    ensures CompileField(fd) == CompiledField(TypeMapping(fd), WithDefault(fd.defaultValue), fd.description)
  {
  }

  /** Falsy defaults (`[]`, `0`, `""`, `False`, `{}`) are defaults: the test is `is not None`. */
  lemma FalsyDefaultsAreDefaults(name: string, t: FieldType, description: string, required: bool)
    ensures CompileField(FieldDefinition(name, t, description, required, ListValue([]))).policy == WithDefault(ListValue([]))
    ensures CompileField(FieldDefinition(name, t, description, required, IntValue(0))).policy == WithDefault(IntValue(0))
    ensures CompileField(FieldDefinition(name, t, description, required, StrValue(""))).policy == WithDefault(StrValue(""))
    ensures CompileField(FieldDefinition(name, t, description, required, BoolValue(false))).policy == WithDefault(BoolValue(false))
    ensures CompileField(FieldDefinition(name, t, description, required, DictValue(map[]))).policy == WithDefault(DictValue(map[]))
  {
  }

  /** A field that is neither required nor defaulted is annotated `Optional` of its mapped type and admits None. */
  lemma OptionalFieldAnnotation(fd: FieldDefinition)
    requires !fd.required && fd.defaultValue == NoneValue
    ensures CompileField(fd).annotation.OptionalType?
    ensures forall v :: Admits(CompileField(fd).annotation, v) <==> v == NoneValue || Admits(TypeMapping(fd), v)
    ensures fd.fieldType == OptionalString ==> CompileField(fd).annotation == OptionalType(StrType)
    ensures fd.fieldType == OptionalInteger ==> CompileField(fd).annotation == OptionalType(IntType)
  {
  }

  // ---------------------------------------------------------------------------
  // Names, first occurrences and last definitions
  // ---------------------------------------------------------------------------

  /** The field names, in definition order. */
  function Names(fs: seq<FieldDefinition>): (r: seq<string>)
    ensures |r| == |fs|
    ensures forall i :: 0 <= i < |fs| ==> r[i] == fs[i].name
  {
    if fs == [] then [] else [fs[0].name] + Names(fs[1..])
  }

  lemma NamesSnoc(fs: seq<FieldDefinition>, fd: FieldDefinition)
    ensures Names(fs + [fd]) == Names(fs) + [fd.name]
  {
    var a := Names(fs + [fd]);
    var b := Names(fs) + [fd.name];
    assert forall j :: 0 <= j < |a| ==> a[j] == b[j];
  }

  /** Each distinct name once, in order of first occurrence. */
  function FirstOccurrences(s: seq<string>): (d: seq<string>)
    ensures NoDuplicates(d)
    ensures forall x :: x in d <==> x in s
  {
    if s == [] then []
    else
      var prefix := FirstOccurrences(s[..|s| - 1]);
      if s[|s| - 1] in prefix then prefix else prefix + [s[|s| - 1]]
  }

  /** The position where `x` first occurs in `s`. */
  function FirstIndex(s: seq<string>, x: string): (i: nat)
    requires x in s
    ensures i < |s| && s[i] == x
    ensures forall j :: 0 <= j < i ==> s[j] != x
  {
    if s[0] == x then 0 else 1 + FirstIndex(s[1..], x)
  }

  /** The position where `k` last occurs in `s`, or -1 if it does not occur. */
  function LastIndex(s: seq<string>, k: string): (j: int)
    ensures -1 <= j < |s|
    ensures j == -1 <==> k !in s
    ensures 0 <= j ==> s[j] == k && forall i :: j < i < |s| ==> s[i] != k
  {
    if s == [] then -1
    else if s[|s| - 1] == k then |s| - 1
    else LastIndex(s[..|s| - 1], k)
  }

  lemma FirstIndexSnoc(s: seq<string>, y: string, x: string)
    requires x in s
    ensures FirstIndex(s + [y], x) == FirstIndex(s, x)
  {
    var a := FirstIndex(s + [y], x);
    var b := FirstIndex(s, x);
    assert (s + [y])[b] == x;
  }

  /** `FirstOccurrences` lists the names by increasing position of their first occurrence. */
  lemma {:induction false} FirstOccurrencesInOrder(s: seq<string>, i: nat, j: nat)
    requires i < j < |FirstOccurrences(s)|
    ensures FirstIndex(s, FirstOccurrences(s)[i]) < FirstIndex(s, FirstOccurrences(s)[j])
  {
    var p := s[..|s| - 1];
    var y := s[|s| - 1];
    assert s == p + [y];
    var dp := FirstOccurrences(p);
    var d := FirstOccurrences(s);
    assert d[i] == dp[i] && dp[i] in p;
    FirstIndexSnoc(p, y, d[i]);
    if j < |dp| {
      assert d[j] == dp[j] && dp[j] in p;
      FirstIndexSnoc(p, y, d[j]);
      FirstOccurrencesInOrder(p, i, j);
    } else {
      assert y !in p && d[j] == y;
      assert FirstIndex(s, y) == |p|;
    }
  }

  // ---------------------------------------------------------------------------
  // create_pydantic_model
  // ---------------------------------------------------------------------------

  /** `order` and `fields` are what the loop has built after the definitions `fs`. */
  ghost predicate CompiledPrefix(fs: seq<FieldDefinition>, order: seq<string>, fields: map<string, CompiledField>) {
    && order == FirstOccurrences(Names(fs))
    && (forall k :: k in fields <==> k in Names(fs))
    && (forall k :: k in fields ==> fields[k] == CompileField(fs[LastIndex(Names(fs), k)]))
  }

  /** Appending a name extends the first occurrences only if the name is new. */
  lemma FirstOccurrencesSnoc(s: seq<string>, x: string)
    ensures FirstOccurrences(s + [x]) == if x in s then FirstOccurrences(s) else FirstOccurrences(s) + [x]
  {
    assert (s + [x])[..|s|] == s;
  }

  /** Appending a name moves its last occurrence to the end and leaves the others. */
  lemma LastIndexSnoc(s: seq<string>, x: string, k: string)
    ensures LastIndex(s + [x], k) == if k == x then |s| else LastIndex(s, k)
  {
    assert (s + [x])[..|s|] == s;
  }

  /** After one more definition, a key's value comes from its last definition so far. */
  lemma CompileStepValue(fs: seq<FieldDefinition>, fd: FieldDefinition, fields: map<string, CompiledField>, k: string)
    requires forall k :: k in fields <==> k in Names(fs)
    requires forall k :: k in fields ==> fields[k] == CompileField(fs[LastIndex(Names(fs), k)])
    requires k in fields[fd.name := CompileField(fd)]
    requires k in Names(fs + [fd])
    ensures fields[fd.name := CompileField(fd)][k] == CompileField((fs + [fd])[LastIndex(Names(fs + [fd]), k)])
  {
    NamesSnoc(fs, fd);
    LastIndexSnoc(Names(fs), fd.name, k);
    if k != fd.name {
      assert (fs + [fd])[LastIndex(Names(fs), k)] == fs[LastIndex(Names(fs), k)];
    }
  }

  /** One iteration of the loop extends the compiled prefix by one definition. */
  lemma CompileStep(fs: seq<FieldDefinition>, fd: FieldDefinition, order: seq<string>, fields: map<string, CompiledField>)
    requires CompiledPrefix(fs, order, fields)
    ensures CompiledPrefix(fs + [fd], if fd.name in fields then order else order + [fd.name],
                           fields[fd.name := CompileField(fd)])
  {
    NamesSnoc(fs, fd);
    FirstOccurrencesSnoc(Names(fs), fd.name);
    forall k | k in fields[fd.name := CompileField(fd)]
      ensures fields[fd.name := CompileField(fd)][k] == CompileField((fs + [fd])[LastIndex(Names(fs + [fd]), k)])
    {
      CompileStepValue(fs, fd, fields, k);
    }
  }

  /** A compiled prefix lists each of its keys exactly once. */
  lemma CompiledPrefixWellFormed(fs: seq<FieldDefinition>, order: seq<string>, fields: map<string, CompiledField>)
    requires CompiledPrefix(fs, order, fields)
    ensures NoDuplicates(order)
    ensures forall k :: k in fields <==> k in order
  {
  }

  /**
   * `create_pydantic_model`: walks the field definitions in order and fills an
   * insertion-ordered dictionary; a repeated name keeps its first position and
   * takes the compilation of its last definition.
   */
  method CreatePydanticModel(def: ModelDefinition) returns (m: CompiledModel)
    ensures m.modelName == def.modelName
    ensures WellFormed(m)
    ensures m.order == FirstOccurrences(Names(def.fields))
    ensures forall k :: k in m.fields <==> k in Names(def.fields)
    ensures forall k :: k in m.fields ==>
              m.fields[k] == CompileField(def.fields[LastIndex(Names(def.fields), k)])
  {
    var order: seq<string> := [];
    var fields: map<string, CompiledField> := map[];
    for i := 0 to |def.fields|
      invariant CompiledPrefix(def.fields[..i], order, fields)
    {
      var fieldDef := def.fields[i];
      CompileStep(def.fields[..i], fieldDef, order, fields);
      assert def.fields[..i + 1] == def.fields[..i] + [fieldDef];
      if fieldDef.name !in fields {
        order := order + [fieldDef.name];
      }
      fields := fields[fieldDef.name := CompileField(fieldDef)];
    }
    assert def.fields[..|def.fields|] == def.fields;
    m := CompiledModel(def.modelName, order, fields);
    CompiledPrefixWellFormed(def.fields, order, fields);
  }

  /** The ProductInfo definition of the module's own demonstration. */
  function ProductInfoDefinition(): ModelDefinition {
    ModelDefinition("ProductInfo", [
      FieldDefinition("product_name", String, "Name of the product", true),
      FieldDefinition("price", Float, "Price of the product", true),
      FieldDefinition("categories", ListString, "Product categories", false, ListValue([]))
    ])
  }

  /** Compiling ProductInfo: two required fields and a list of strings defaulting to `[]`. */
  method CompileProductInfo() returns (m: CompiledModel)
    ensures m.modelName == "ProductInfo"
    ensures m.order == ["product_name", "price", "categories"]
    ensures WellFormed(m)
    ensures m.fields["product_name"] == CompiledField(StrType, RequiredNoDefault, "Name of the product")
    ensures m.fields["price"] == CompiledField(FloatType, RequiredNoDefault, "Price of the product")
    ensures m.fields["categories"] == CompiledField(ListType(StrType), WithDefault(ListValue([])), "Product categories")
  {
    var def := ProductInfoDefinition();
    ProductInfoNames();
    m := CreatePydanticModel(def);
    var names := Names(def.fields);
    assert "product_name" in names && "price" in names && "categories" in names;
    ProductInfoFields();
  }

  lemma ProductInfoFields()
    ensures var fs := ProductInfoDefinition().fields;
            && CompileField(fs[0]) == CompiledField(StrType, RequiredNoDefault, "Name of the product")
            && CompileField(fs[1]) == CompiledField(FloatType, RequiredNoDefault, "Price of the product")
            && CompileField(fs[2]) == CompiledField(ListType(StrType), WithDefault(ListValue([])), "Product categories")
  {
  }

  lemma ProductInfoNames()
    ensures var names := Names(ProductInfoDefinition().fields);
            && names == ["product_name", "price", "categories"]
            && FirstOccurrences(names) == names
            && LastIndex(names, "product_name") == 0
            && LastIndex(names, "price") == 1
            && LastIndex(names, "categories") == 2
  {
    var names := Names(ProductInfoDefinition().fields);
    assert names == ["product_name", "price", "categories"];
    assert names[..2][..1] == ["product_name"];
    assert names[..1][..0] == [];
    assert FirstOccurrences(names[..1]) == ["product_name"];
    assert FirstOccurrences(names[..2]) == ["product_name", "price"];
    assert names[..3] == names;
    assert LastIndex(names[..2], "price") == 1;
    assert LastIndex(names[..1], "product_name") == 0;
  }

  // ---------------------------------------------------------------------------
  // _infer_type
  // ---------------------------------------------------------------------------

  /** `_infer_type`: the isinstance checks in their fixed order; a list is judged by its first element. */
  function InferType(v: PyValue): FieldType {
    if v.StrValue? then String
    else if IsInt(v) then Integer
    else if v.FloatValue? then Float
    else if v.BoolValue? then Boolean
    else if v.ListValue? then
      if |v.items| > 0 && v.items[0].StrValue? then ListString
      else if |v.items| > 0 && IsInt(v.items[0]) then ListInteger
      else ListString
    else if v.DictValue? then Dict
    else String
  }

  /** Which values receive which tag; BOOLEAN and the OPTIONAL tags are never inferred. */
  lemma InferTypeCases(v: PyValue)
    ensures InferType(v) == String <==> v.StrValue? || v.NoneValue? || v.OtherValue?
    ensures InferType(v) == Integer <==> v.IntValue? || v.BoolValue?
    ensures InferType(v) == Float <==> v.FloatValue?
    ensures InferType(v) == ListString <==> v.ListValue? && (|v.items| == 0 || !IsInt(v.items[0]))
    ensures InferType(v) == ListInteger <==> v.ListValue? && |v.items| > 0 && IsInt(v.items[0])
    ensures InferType(v) == Dict <==> v.DictValue?
    ensures InferType(v) != Boolean
    ensures InferType(v) != OptionalString && InferType(v) != OptionalInteger
  {
  }

  /** Every element is a string, or every element is an int (bools included). */
  predicate Homogeneous(items: seq<PyValue>) {
    || (forall i :: 0 <= i < |items| ==> items[i].StrValue?)
    || (forall i :: 0 <= i < |items| ==> IsInt(items[i]))
  }

  /** The inferred tag's annotation admits the value, for all but None, foreign objects and mixed lists. */
  lemma InferredTypeAdmitsValue(v: PyValue)
    requires !v.NoneValue? && !v.OtherValue?
    requires v.ListValue? ==> Homogeneous(v.items)
    ensures Admits(TypeTable[InferType(v)], v)
  {
    if v.ListValue? && |v.items| > 0 {
      if v.items[0].StrValue? {
        assert !IsInt(v.items[0]);
      }
    }
  }

  /** None and lists of floats are inferred as string-like tags whose annotation rejects them. */
  lemma InferredTypeMayRejectValue()
    ensures InferType(NoneValue) == String && !Admits(StrType, NoneValue)
    ensures InferType(ListValue([FloatValue(1.5)])) == ListString
    ensures !Admits(ListType(StrType), ListValue([FloatValue(1.5)]))
  {
    assert ListValue([FloatValue(1.5)]).items[0] == FloatValue(1.5);
  }

  /** As written, a bool never reaches the BOOLEAN branch: `isinstance(True, int)` holds first. */
  lemma InferTypeOfBoolIsInteger()
    ensures InferType(BoolValue(true)) == Integer
    ensures InferType(ListValue([BoolValue(false)])) == ListInteger
  {
    assert ListValue([BoolValue(false)]).items[0] == BoolValue(false);
  }

  /** `_infer_type` with the bool test moved before the int test, as the BOOLEAN branch intends. */
  function InferTypeCorrected(v: PyValue): (t: FieldType)
    ensures t == Boolean <==> v.BoolValue?
    ensures !v.BoolValue? ==> t == InferType(v)
  {
    if v.BoolValue? then Boolean else InferType(v)
  }

  /** The corrected inference gives every value but None, foreign objects and mixed lists a tag that admits it. */
  lemma CorrectedInferenceAdmitsValue(v: PyValue)
    requires !v.NoneValue? && !v.OtherValue?
    requires v.ListValue? ==> Homogeneous(v.items)
    ensures Admits(TypeTable[InferTypeCorrected(v)], v)
    ensures v.BoolValue? ==> TypeTable[InferTypeCorrected(v)] == BoolType
  {
    if !v.BoolValue? {
      InferredTypeAdmitsValue(v);
    }
  }
}
