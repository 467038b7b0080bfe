/** The contract checker's JSON Schema subset (contracts/mes/v1/validate.py): what `schema_errors` finds, against
    what the keywords mean in JSON Schema 2020-12. */
module SchemaCheck {
  import opened Wrappers
  import opened JsonValue

  // ------------------------------------------------------------------
  // Schemas
  // ------------------------------------------------------------------

  datatype TypeName = TObject | TArray | TString | TBoolean | TNull | TInteger | TNumber | TOther(name: string)

  /** `#/$defs/name`, or a reference the checker does not follow. */
  datatype Ref = NoRef | Local(name: string) | Elsewhere

  datatype Given = Absent | Given(schema: Schema)

  datatype AnyOf = NoAnyOf | Branches(schemas: seq<Schema>)

  datatype TextRules = TextRules(minLength: Option<int>, maxLength: Option<int>, pattern: Option<string>)

  datatype NumberRules = NumberRules(minimum: Option<real>, maximum: Option<real>)

  datatype ArrayRules = ArrayRules(minItems: Option<int>, maxItems: Option<int>, unique: bool, items: Given)

  datatype ObjectRules = ObjectRules(required: seq<string>, properties: seq<Property>, names: Given, others: Given)

  datatype Property = Property(name: string, schema: Schema)

  /** A schema: true, false, or an object of keywords; `unknown` lists keywords outside the subset. */
  datatype Schema =
    | Always
    | Never
    | Node(ref: Ref, anyOf: AnyOf, types: Option<seq<TypeName>>, constant: Option<Json>, options: Option<seq<Json>>,
           text: TextRules, number: NumberRules, arrays: ArrayRules, objects: ObjectRules,
           defs: seq<Property>, unknown: seq<string>)

  /** The root schema; `search` is the regular expression engine; `ranks` witnesses that its definitions do not refer
      to themselves on the same value. */
  datatype Contract = Contract(root: Schema, ranks: map<string, nat>, search: (string, string) -> bool)

  function Find(properties: seq<Property>, name: string): Given {
    if properties == [] then Absent
    else if properties[0].name == name then Given(properties[0].schema)
    else Find(properties[1..], name)
  }

  /** The k-th entry is the one called `name`: the first, though a parsed object has each name once. */
  predicate IsProperty(properties: seq<Property>, k: int, name: string) {
    0 <= k < |properties| && properties[k].name == name && forall j :: 0 <= j < k ==> properties[j].name != name
  }

  /** Looking a name up finds the entry called so, and nothing if there is none. */
  lemma {:induction false} FindMeans(properties: seq<Property>, name: string)
    ensures Find(properties, name).Given? ==>
              exists k :: IsProperty(properties, k, name) && properties[k].schema == Find(properties, name).schema
    ensures Find(properties, name).Absent? ==> forall k :: 0 <= k < |properties| ==> properties[k].name != name
  {
    if properties != [] && properties[0].name != name {
      FindMeans(properties[1..], name);
      if Find(properties, name).Given? {
        var k :| IsProperty(properties[1..], k, name) && properties[1..][k].schema == Find(properties, name).schema;
        FirstLater(properties, k, name);
      }
    } else if properties != [] {
      assert IsProperty(properties, 0, name);
    }
  }

  lemma FirstLater(properties: seq<Property>, k: int, name: string)
    requires properties != [] && properties[0].name != name && IsProperty(properties[1..], k, name)
    ensures IsProperty(properties, k + 1, name) && properties[k + 1] == properties[1..][k]
  {
    forall j | 0 <= j < k + 1 ensures properties[j].name != name {
      assert j > 0 ==> properties[j] == properties[1..][j - 1];
    }
  }

  lemma OneProperty(properties: seq<Property>, k: int, m: int, name: string)
    requires IsProperty(properties, k, name) && IsProperty(properties, m, name)
    ensures k == m
  {
  }

  function Definitions(c: Contract): seq<Property> {
    if c.root.Node? then c.root.defs else []
  }

  function Resolve(c: Contract, ref: Ref): Given {
    if ref.Local? then Find(Definitions(c), ref.name) else Absent
  }

  // ------------------------------------------------------------------
  // References on the same value do not go in circles
  // ------------------------------------------------------------------

  function Max(a: nat, b: nat): nat { if a < b then b else a }

  /** A bound on the chain of references that `s` can follow without moving into the value. `full`: keywords beside a
      reference count too. */
  function Height(c: Contract, full: bool, s: Schema): nat
    decreases s
  {
    if !s.Node? then 0 else
      Max(if Resolve(c, s.ref).Given? && s.ref.name in c.ranks then c.ranks[s.ref.name] + 1 else 0,
          if s.anyOf.Branches? && (full || s.ref.NoRef?) then HeightAll(c, full, s.anyOf.schemas) else 0)
  }

  function HeightAll(c: Contract, full: bool, schemas: seq<Schema>): nat
    decreases schemas
  {
    if schemas == [] then 0 else Max(Height(c, full, schemas[0]), HeightAll(c, full, schemas[1..]))
  }

  lemma {:induction false} BranchHeight(c: Contract, full: bool, schemas: seq<Schema>, i: nat)
    requires i < |schemas|
    ensures Height(c, full, schemas[i]) <= HeightAll(c, full, schemas)
    decreases schemas
  {
    if i > 0 {
      BranchHeight(c, full, schemas[1..], i - 1);
    }
  }

  predicate Acyclic(c: Contract, full: bool) {
    forall i :: 0 <= i < |Definitions(c)| ==>
      var d := Definitions(c)[i]; d.name in c.ranks && Height(c, full, d.schema) <= c.ranks[d.name]
  }

  /** A reference leads to the definition of its name in the root schema, and to nothing else. */
  lemma ReferenceMeans(c: Contract, ref: Ref, t: Schema)
    ensures Resolve(c, ref) == Given(t) <==>
              && ref.Local? && c.root.Node?
              && exists k :: IsProperty(c.root.defs, k, ref.name) && c.root.defs[k].schema == t
  {
    if ref.Local? && c.root.Node? {
      FindMeans(c.root.defs, ref.name);
      forall k, m | IsProperty(c.root.defs, k, ref.name) && IsProperty(c.root.defs, m, ref.name) ensures k == m {
        OneProperty(c.root.defs, k, m, ref.name);
      }
    }
  }

  lemma FindIn(properties: seq<Property>, name: string)
    requires Find(properties, name).Given?
    ensures exists i :: 0 <= i < |properties| && properties[i] == Property(name, Find(properties, name).schema)
  {
    FindMeans(properties, name);
  }

  lemma TargetLower(c: Contract, full: bool, s: Schema)
    requires Acyclic(c, full) && s.Node? && Resolve(c, s.ref).Given?
    ensures Height(c, full, Resolve(c, s.ref).schema) < Height(c, full, s)
  {
    FindIn(Definitions(c), s.ref.name);
  }

  // ------------------------------------------------------------------
  // What the keywords mean
  // ------------------------------------------------------------------

  /** Validation, section 6.1.1; a number with no fractional part is an integer. */
  predicate InstanceOf(v: Json, t: TypeName) {
    match t
    case TObject => v.Obj?
    case TArray => v.Arr?
    case TString => v.Str?
    case TBoolean => v.Bool?
    case TNull => v.Null?
    case TInteger => IsNumber(v) && Number(v) == Number(v).Floor as real
    case TNumber => IsNumber(v)
    case TOther(_) => false
  }

  /** Validation, sections 6.1.1 to 6.1.3. */
  predicate AnyInstance(s: Schema, v: Json)
    requires s.Node?
  {
    && (s.types.Some? ==> exists i :: 0 <= i < |s.types.value| && InstanceOf(v, s.types.value[i]))
    && IsValue(s, v)
  }

  predicate IsValue(s: Schema, v: Json)
    requires s.Node?
  {
    && (s.constant.Some? ==> Equal(v, s.constant.value))
    && (s.options.Some? ==> exists i :: 0 <= i < |s.options.value| && Equal(v, s.options.value[i]))
  }

  /** A pattern that ends in `$` matches no text with a newline at its end. */
  predicate Matches(c: Contract, pattern: string, text: string) {
    && c.search(pattern, text)
    && !(|pattern| > 0 && |text| > 0 && pattern[|pattern| - 1..] == "$" && text[|text| - 1..] == "\n")
  }

  /** Validation, sections 6.2 and 6.3. */
  predicate Scalar(c: Contract, s: Schema, v: Json)
    requires s.Node?
  {
    && (v.Str? ==>
          && (s.text.minLength.Some? ==> |v.text| >= s.text.minLength.value)
          && (s.text.maxLength.Some? ==> |v.text| <= s.text.maxLength.value)
          && (s.text.pattern.Some? ==> Matches(c, s.text.pattern.value, v.text)))
    && (IsNumber(v) ==>
          && (s.number.minimum.Some? ==> Number(v) >= s.number.minimum.value)
          && (s.number.maximum.Some? ==> Number(v) <= s.number.maximum.value))
  }

  predicate Distinct(elements: seq<Json>) {
    forall i, j :: 0 <= j < i < |elements| ==> !Equal(elements[i], elements[j])
  }

  /** Whether `v` is valid under `s` (JSON Schema Core, sections 8.2.3.1, 10.2.1.2, 10.3.1.2 and 10.3.2; Validation,
      sections 6.1 to 6.5). With `full`, keywords beside a `$ref` hold as well, as the standard says; without, they
      are ignored. */
  ghost predicate Valid(c: Contract, full: bool, s: Schema, v: Json)
    requires Acyclic(c, full)
    decreases Size(v), Height(c, full, s), s, 3
  {
    match s
    case Always => true
    case Never => false
    case Node(_, _, _, _, _, _, _, _, _, _, _) =>
      && (!s.ref.NoRef? ==>
            && Resolve(c, s.ref).Given?
            && (TargetLower(c, full, s); Valid(c, full, Resolve(c, s.ref).schema, v)))
      && (full || s.ref.NoRef? ==> Keywords(c, full, s, v))
  }

  /** Everything but the reference. */
  ghost predicate Keywords(c: Contract, full: bool, s: Schema, v: Json)
    requires Acyclic(c, full) && s.Node? && (full || s.ref.NoRef?)
    decreases Size(v), Height(c, full, s), s, 2
  {
    && AnyBranch(c, full, s, v) && AnyInstance(s, v) && Scalar(c, s, v)
    && (v.Arr? ==> ValidArray(c, full, s, v)) && (v.Obj? ==> ValidObject(c, full, s, v))
  }

  ghost predicate AnyBranch(c: Contract, full: bool, s: Schema, v: Json)
    requires Acyclic(c, full) && s.Node? && (full || s.ref.NoRef?)
    decreases Size(v), Height(c, full, s), s, 0
  {
    s.anyOf.Branches? ==>
      exists i :: 0 <= i < |s.anyOf.schemas| &&
        (BranchHeight(c, full, s.anyOf.schemas, i); Valid(c, full, s.anyOf.schemas[i], v))
  }

  ghost predicate ValidArray(c: Contract, full: bool, s: Schema, v: Json)
    requires Acyclic(c, full) && s.Node? && v.Arr?
    decreases Size(v), Height(c, full, s), s, 1
  {
    && (s.arrays.minItems.Some? ==> |v.elements| >= s.arrays.minItems.value)
    && (s.arrays.maxItems.Some? ==> |v.elements| <= s.arrays.maxItems.value)
    && (s.arrays.unique ==> Distinct(v.elements))
    && (s.arrays.items.Given? ==> EachValid(c, full, s, v, |v.elements|))
  }

  /** The first `n` elements are valid. */
  ghost predicate EachValid(c: Contract, full: bool, s: Schema, v: Json, n: nat)
    requires Acyclic(c, full) && s.Node? && v.Arr? && s.arrays.items.Given? && n <= |v.elements|
    decreases Size(v), Height(c, full, s), s, 0
  {
    forall i :: 0 <= i < n ==>
      (ElementSmaller(v.elements, i); Valid(c, full, s.arrays.items.schema, v.elements[i]))
  }

  ghost predicate ValidObject(c: Contract, full: bool, s: Schema, v: Json)
    requires Acyclic(c, full) && s.Node? && v.Obj?
    decreases Size(v), Height(c, full, s), s, 1
  {
    && (forall i :: 0 <= i < |s.objects.required| ==> Present(v, s.objects.required[i]))
    && (forall i :: 0 <= i < |v.members| ==> ValidMember(c, full, s, v, i))
  }

  predicate Present(v: Json, key: string)
    requires v.Obj?
  {
    exists k :: 0 <= k < |v.members| && v.members[k].key == key
  }

  /** The name is a valid text; the value is valid under the property of that name; and under the schema for all
      others, if and only if no property has that name. */
  ghost predicate ValidMember(c: Contract, full: bool, s: Schema, v: Json, i: nat)
    requires Acyclic(c, full) && s.Node? && v.Obj? && i < |v.members|
    decreases Size(v), Height(c, full, s), s, 0
  {
    MemberSmaller(v.members, i);
    var key, value, properties := v.members[i].key, v.members[i].value, s.objects.properties;
    && (s.objects.names.Given? ==> Valid(c, full, s.objects.names.schema, Str(key)))
    && (forall k :: IsProperty(properties, k, key) ==> Valid(c, full, properties[k].schema, value))
    && (s.objects.others.Given? && (forall k :: 0 <= k < |properties| ==> properties[k].name != key) ==>
          Valid(c, full, s.objects.others.schema, value))
  }

  // ------------------------------------------------------------------
  // The checker
  // ------------------------------------------------------------------

  datatype Step = Key(name: string) | At(i: nat)

  datatype Code = CFalse | CAnyOf | CType | CConst | CEnum | CMinLength | CMaxLength | CPattern | CTrailingNewline
                | CMinimum | CMaximum | CMinItems | CMaxItems | CUniqueItems | CRequired | CPropertyNames

  datatype Error = Error(path: seq<Step>, code: Code)

  /** The contract itself is broken: an unknown type name, a reference without a target, an empty anyOf. */
  datatype Fault = UnknownType | Unresolved | NoBranches

  function IsType(v: Json, t: TypeName): Result<bool, Fault> {
    match t
    case TObject => Ok(v.Obj?)
    case TArray => Ok(v.Arr?)
    case TString => Ok(v.Str?)
    case TBoolean => Ok(v.Bool?)
    case TNull => Ok(v.Null?)
    case _ =>
      if v.Bool? then Ok(false)
      else if t.TInteger? then Ok(v.Int? || (v.Float? && v.x == v.x.Floor as real))
      else if t.TNumber? then Ok(v.Int? || v.Float?)
      else Err(UnknownType)
  }

  /** Nothing the checker would stumble over: references resolve, type names are known, no anyOf is empty. */
  predicate Usable(c: Contract, s: Schema)
    decreases s
  {
    s.Node? ==>
      if !s.ref.NoRef? then Resolve(c, s.ref).Given? else
        && (s.anyOf.Branches? ==>
              s.anyOf.schemas != [] && forall i :: 0 <= i < |s.anyOf.schemas| ==> Usable(c, s.anyOf.schemas[i]))
        && (s.types.Some? ==> forall i :: 0 <= i < |s.types.value| ==> !s.types.value[i].TOther?)
        && (s.arrays.items.Given? ==> Usable(c, s.arrays.items.schema))
        && (s.objects.names.Given? ==> Usable(c, s.objects.names.schema))
        && (s.objects.others.Given? ==> Usable(c, s.objects.others.schema))
        && (forall i :: 0 <= i < |s.objects.properties| ==> Usable(c, s.objects.properties[i].schema))
  }

  /** The whole contract, definitions included. */
  predicate Sound(c: Contract, s: Schema) {
    Usable(c, s) && forall i :: 0 <= i < |Definitions(c)| ==> Usable(c, Definitions(c)[i].schema)
  }

  lemma TargetSound(c: Contract, s: Schema)
    requires Sound(c, s) && s.Node? && Resolve(c, s.ref).Given?
    ensures Sound(c, Resolve(c, s.ref).schema)
  {
    FindIn(Definitions(c), s.ref.name);
  }

  /** The schema the checker applies to a member: its own, or the one for all others. */
  function MemberSchema(s: Schema, key: string): Given
    requires s.Node?
  {
    if Find(s.objects.properties, key).Given? then Find(s.objects.properties, key) else s.objects.others
  }

  lemma MemberMeans(c: Contract, full: bool, s: Schema, v: Json, i: nat)
    requires Acyclic(c, full) && s.Node? && v.Obj? && i < |v.members|
    ensures var m := v.members[i];
            ValidMember(c, full, s, v, i) <==>
              && (s.objects.names.Given? ==> Valid(c, full, s.objects.names.schema, Str(m.key)))
              && (MemberSchema(s, m.key).Given? ==> Valid(c, full, MemberSchema(s, m.key).schema, m.value))
  {
    var properties, key := s.objects.properties, v.members[i].key;
    FindMeans(properties, key);
    if Find(properties, key).Given? {
      var k :| IsProperty(properties, k, key) && properties[k].schema == Find(properties, key).schema;
      forall m | IsProperty(properties, m, key) ensures m == k {
        OneProperty(properties, k, m, key);
      }
    }
  }

  lemma MemberSound(c: Contract, s: Schema, key: string)
    requires Sound(c, s) && s.Node? && s.ref.NoRef? && MemberSchema(s, key).Given?
    ensures Sound(c, MemberSchema(s, key).schema)
  {
    if Find(s.objects.properties, key).Given? {
      FindIn(s.objects.properties, key);
    }
  }

  /** The first name that fits ends the search. */
  method HasType(v: Json, names: seq<TypeName>) returns (r: Result<bool, Fault>)
    ensures r.Ok? ==> (r.value <==> exists i :: 0 <= i < |names| && InstanceOf(v, names[i]))
    ensures (forall i :: 0 <= i < |names| ==> !names[i].TOther?) ==> r.Ok?
  {
    for i := 0 to |names|
      invariant forall k :: 0 <= k < i ==> !InstanceOf(v, names[k])
    {
      r := IsType(v, names[i]);
      if r.Err? || r.value {
        return;
      }
    }
    return Ok(false);
  }

  /** `const` and `enum`. */
  method ValueErrors(s: Schema, v: Json, path: seq<Step>) returns (out: seq<Error>)
    requires s.Node?
    ensures Under(out, path)
    ensures out == [] <==> IsValue(s, v)
  {
    out := [];
    if s.constant.Some? && !Equal(v, s.constant.value) {
      out := out + [Error(path, CConst)];
    }
    if s.options.Some? {
      var found := false;
      for i := 0 to |s.options.value|
        invariant found <==> exists k :: 0 <= k < i && Equal(v, s.options.value[k])
      {
        if Equal(v, s.options.value[i]) {
          found := true;
        }
      }
      if !found {
        out := out + [Error(path, CEnum)];
      }
    }
  }

  predicate EndsWith(text: string, ch: char) { text != "" && text[|text| - 1] == ch }

  method ScalarErrors(c: Contract, s: Schema, v: Json, path: seq<Step>) returns (out: seq<Error>)
    requires s.Node?
    ensures out == [] <==> Scalar(c, s, v)
    ensures Under(out, path)
  {
    out := [];
    if v.Str? {
      if s.text.minLength.Some? && |v.text| < s.text.minLength.value {
        out := out + [Error(path, CMinLength)];
      }
      if s.text.maxLength.Some? && |v.text| > s.text.maxLength.value {
        out := out + [Error(path, CMaxLength)];
      }
      if s.text.pattern.Some? {
        if !c.search(s.text.pattern.value, v.text) {
          out := out + [Error(path, CPattern)];
        } else if EndsWith(s.text.pattern.value, '$') && EndsWith(v.text, '\n') {
          out := out + [Error(path, CTrailingNewline)];
        }
      }
    }
    if IsNumber(v) {
      if s.number.minimum.Some? && Number(v) < s.number.minimum.value {
        out := out + [Error(path, CMinimum)];
      }
      if s.number.maximum.Some? && Number(v) > s.number.maximum.value {
        out := out + [Error(path, CMaximum)];
      }
    }
  }

  /** The first element that repeats an earlier one. */
  method FirstRepeat(elements: seq<Json>) returns (r: Option<nat>)
    ensures r.None? <==> Distinct(elements)
    ensures r.Some? ==> r.value < |elements| && exists j :: 0 <= j < r.value && Equal(elements[r.value], elements[j])
  {
    for i := 0 to |elements|
      invariant forall a, b :: 0 <= b < a < i ==> !Equal(elements[a], elements[b])
    {
      for j := 0 to i
        invariant forall b :: 0 <= b < j ==> !Equal(elements[i], elements[b])
      {
        if Equal(elements[i], elements[j]) {
          return Some(i);
        }
      }
    }
    return None;
  }

  /** Every error is at the place checked or inside it. */
  predicate Under(errors: seq<Error>, path: seq<Step>) {
    forall i :: 0 <= i < |errors| ==> path <= errors[i].path
  }

  lemma UnderConcat(a: seq<Error>, b: seq<Error>, path: seq<Step>)
    requires Under(a, path) && Under(b, path)
    ensures Under(a + b, path)
  {
  }

  lemma Deeper(errors: seq<Error>, path: seq<Step>, step: Step)
    requires Under(errors, path + [step])
    ensures Under(errors, path)
  {
    forall i | 0 <= i < |errors| ensures path <= errors[i].path {
      assert path + [step] <= errors[i].path;
    }
  }

  predicate AllRules(errors: seq<Error>) {
    forall i :: 0 <= i < |errors| ==> errors[i].code.CTrailingNewline?
  }

  /** Errors of `v` against `s`, or the fault that stopped the check. */
  method SchemaErrors(c: Contract, s: Schema, v: Json, path: seq<Step>) returns (r: Result<seq<Error>, Fault>)
    requires Acyclic(c, false)
    ensures r.Ok? ==> (r.value == [] <==> Valid(c, false, s, v))
    ensures r.Ok? ==> Under(r.value, path)
    ensures Sound(c, s) ==> r.Ok?
    decreases Size(v), Height(c, false, s), s, 5
  {
    if s.Always? {
      return Ok([]);
    }
    if s.Never? {
      return Ok([Error(path, CFalse)]);
    }
    if !s.ref.NoRef? {
      var target := Resolve(c, s.ref);
      if target.Absent? {
        return Err(Unresolved);
      }
      TargetLower(c, false, s);
      assert Sound(c, s) ==> Sound(c, target.schema) by {
        if Sound(c, s) {
          TargetSound(c, s);
        }
      }
      r := SchemaErrors(c, target.schema, v, path);
      return;
    }
    r := KeywordErrors(c, s, v, path);
  }

  method KeywordErrors(c: Contract, s: Schema, v: Json, path: seq<Step>) returns (r: Result<seq<Error>, Fault>)
    requires Acyclic(c, false) && s.Node? && s.ref.NoRef?
    ensures r.Ok? ==> (r.value == [] <==> Keywords(c, false, s, v))
    ensures r.Ok? ==> Under(r.value, path)
    ensures Sound(c, s) ==> r.Ok?
    decreases Size(v), Height(c, false, s), s, 4
  {
    if s.anyOf.Branches? {
      r := BranchErrors(c, s, v, path);
      if r.Err? || r.value != [] {
        return;
      }
    }
    if s.types.Some? {
      var fits := HasType(v, s.types.value);
      if fits.Err? {
        return Err(fits.error);
      }
      if !fits.value {
        return Ok([Error(path, CType)]);
      }
    }
    r := PlainErrors(c, s, v, path);
  }

  /** The keywords after `type`. */
  method PlainErrors(c: Contract, s: Schema, v: Json, path: seq<Step>) returns (r: Result<seq<Error>, Fault>)
    requires Acyclic(c, false) && s.Node? && s.ref.NoRef?
    ensures r.Ok? ==>
              (r.value == [] <==>
                 && IsValue(s, v) && Scalar(c, s, v)
                 && (v.Arr? ==> ValidArray(c, false, s, v)) && (v.Obj? ==> ValidObject(c, false, s, v)))
    ensures r.Ok? ==> Under(r.value, path)
    ensures Sound(c, s) ==> r.Ok?
    decreases Size(v), Height(c, false, s), s, 3
  {
    var values := ValueErrors(s, v, path);
    var scalars := ScalarErrors(c, s, v, path);
    r := ContentErrors(c, s, v, path);
    if r.Ok? {
      UnderConcat(values, scalars, path);
      UnderConcat(values + scalars, r.value, path);
      r := Ok(values + scalars + r.value);
    }
  }

  method ContentErrors(c: Contract, s: Schema, v: Json, path: seq<Step>) returns (r: Result<seq<Error>, Fault>)
    requires Acyclic(c, false) && s.Node? && s.ref.NoRef?
    ensures r.Ok? ==>
              (r.value == [] <==> (v.Arr? ==> ValidArray(c, false, s, v)) && (v.Obj? ==> ValidObject(c, false, s, v)))
    ensures r.Ok? ==> Under(r.value, path)
    ensures Sound(c, s) ==> r.Ok?
    decreases Size(v), Height(c, false, s), s, 2
  {
    if v.Arr? {
      r := ArrayErrors(c, s, v, path);
    } else if v.Obj? {
      r := ObjectErrors(c, s, v, path);
    } else {
      r := Ok([]);
    }
  }

  /** Every branch is tried; if none takes the value, the shortest list of errors says why. */
  method BranchErrors(c: Contract, s: Schema, v: Json, path: seq<Step>) returns (r: Result<seq<Error>, Fault>)
    requires Acyclic(c, false) && s.Node? && s.ref.NoRef? && s.anyOf.Branches?
    ensures r.Ok? ==> (r.value == [] <==> AnyBranch(c, false, s, v))
    ensures r.Ok? ==> Under(r.value, path)
    ensures Sound(c, s) ==> r.Ok?
    decreases Size(v), Height(c, false, s), s, 0
  {
    var schemas := s.anyOf.schemas;
    var passed, best := false, [];
    for i := 0 to |schemas|
      invariant passed <==>
                  (exists k :: 0 <= k < i && (BranchHeight(c, false, schemas, k); Valid(c, false, schemas[k], v)))
      invariant (!passed && i > 0 ==> best != []) && Under(best, path)
    {
      BranchHeight(c, false, schemas, i);
      r := SchemaErrors(c, schemas[i], v, path);
      if r.Err? {
        return;
      }
      if r.value == [] {
        passed := true;
      } else if i == 0 || |r.value| < |best| {
        best := r.value;
      }
    }
    if passed {
      return Ok([]);
    }
    if schemas == [] {
      return Err(NoBranches);
    }
    return Ok(if AllRules(best) then best else [Error(path, CAnyOf)]);
  }

  method ArrayErrors(c: Contract, s: Schema, v: Json, path: seq<Step>) returns (r: Result<seq<Error>, Fault>)
    requires Acyclic(c, false) && s.Node? && s.ref.NoRef? && v.Arr?
    ensures r.Ok? ==> (r.value == [] <==> ValidArray(c, false, s, v))
    ensures r.Ok? ==> Under(r.value, path)
    ensures Sound(c, s) ==> r.Ok?
    decreases Size(v), Height(c, false, s), s, 1
  {
    var out := [];
    if s.arrays.minItems.Some? && |v.elements| < s.arrays.minItems.value {
      out := out + [Error(path, CMinItems)];
    }
    if s.arrays.maxItems.Some? && |v.elements| > s.arrays.maxItems.value {
      out := out + [Error(path, CMaxItems)];
    }
    if s.arrays.unique {
      var repeat := FirstRepeat(v.elements);
      if repeat.Some? {
        out := out + [Error(path + [At(repeat.value)], CUniqueItems)];
      }
    }
    r := Ok([]);
    if s.arrays.items.Given? {
      r := ItemErrors(c, s, v, path);
      if r.Err? {
        return;
      }
      UnderConcat(out, r.value, path);
    }
    return Ok(out + r.value);
  }

  method ItemErrors(c: Contract, s: Schema, v: Json, path: seq<Step>) returns (r: Result<seq<Error>, Fault>)
    requires Acyclic(c, false) && s.Node? && s.ref.NoRef? && v.Arr? && s.arrays.items.Given?
    ensures r.Ok? ==> (r.value == [] <==> EachValid(c, false, s, v, |v.elements|)) && Under(r.value, path)
    ensures Sound(c, s) ==> r.Ok?
    decreases Size(v), Height(c, false, s), s, 0
  {
    var out := [];
    for i := 0 to |v.elements|
      invariant out == [] <==> EachValid(c, false, s, v, i)
      invariant Under(out, path)
    {
      ElementSmaller(v.elements, i);
      r := SchemaErrors(c, s.arrays.items.schema, v.elements[i], path + [At(i)]);
      if r.Err? {
        return;
      }
      Deeper(r.value, path, At(i));
      UnderConcat(out, r.value, path);
      out := out + r.value;
    }
    return Ok(out);
  }

  method ObjectErrors(c: Contract, s: Schema, v: Json, path: seq<Step>) returns (r: Result<seq<Error>, Fault>)
    requires Acyclic(c, false) && s.Node? && s.ref.NoRef? && v.Obj?
    ensures r.Ok? ==> (r.value == [] <==> ValidObject(c, false, s, v))
    ensures r.Ok? ==> Under(r.value, path)
    ensures Sound(c, s) ==> r.Ok?
    decreases Size(v), Height(c, false, s), s, 1
  {
    var out := [];
    for i := 0 to |s.objects.required|
      invariant out == [] <==> forall k :: 0 <= k < i ==> Present(v, s.objects.required[k])
      invariant Under(out, path)
    {
      if !HasKey(v.members, s.objects.required[i]) {
        out := out + [Error(path + [Key(s.objects.required[i])], CRequired)];
      }
    }
    ghost var before := out;
    for i := 0 to |v.members|
      invariant out == [] <==> before == [] && forall k :: 0 <= k < i ==> ValidMember(c, false, s, v, k)
      invariant Under(out, path)
    {
      r := MemberErrors(c, s, v, i, path + [Key(v.members[i].key)]);
      if r.Err? {
        return;
      }
      Deeper(r.value, path, Key(v.members[i].key));
      out := out + r.value;
    }
    assert out == [] ==> ValidObject(c, false, s, v);
    assert ValidObject(c, false, s, v) ==> before == [] && out == [];
    return Ok(out);
  }

  method MemberErrors(c: Contract, s: Schema, v: Json, i: nat, path: seq<Step>) returns (r: Result<seq<Error>, Fault>)
    requires Acyclic(c, false) && s.Node? && s.ref.NoRef? && v.Obj? && i < |v.members|
    ensures r.Ok? ==> (r.value == [] <==> ValidMember(c, false, s, v, i))
    ensures r.Ok? ==> Under(r.value, path)
    ensures Sound(c, s) ==> r.Ok?
    decreases Size(v), Height(c, false, s), s, 0
  {
    MemberSmaller(v.members, i);
    var out := [];
    if s.objects.names.Given? {
      r := SchemaErrors(c, s.objects.names.schema, Str(v.members[i].key), path);
      if r.Err? {
        return;
      }
      if r.value != [] {
        out := out + [Error(path, CPropertyNames)];
      }
    }
    MemberMeans(c, false, s, v, i);
    var schema := MemberSchema(s, v.members[i].key);
    if schema.Given? {
      assert Sound(c, s) ==> Sound(c, schema.schema) by {
        if Sound(c, s) {
          MemberSound(c, s, v.members[i].key);
        }
      }
      r := SchemaErrors(c, schema.schema, v.members[i].value, path);
      if r.Err? {
        return;
      }
      out := out + r.value;
    }
    return Ok(out);
  }

  // ------------------------------------------------------------------
  // Keywords beside a reference
  // ------------------------------------------------------------------

  predicate NoKeywords(s: Schema)
    requires s.Node?
  {
    && s.anyOf.NoAnyOf? && s.types.None? && s.constant.None? && s.options.None?
    && s.text == TextRules(None, None, None) && s.number == NumberRules(None, None)
    && s.arrays == ArrayRules(None, None, false, Absent) && s.objects == ObjectRules([], [], Absent, Absent)
  }

  /** References stand alone, here and below. */
  predicate RefsAlone(s: Schema)
    decreases s
  {
    s.Node? ==>
      if !s.ref.NoRef? then NoKeywords(s) else
        && (s.anyOf.Branches? ==> forall i :: 0 <= i < |s.anyOf.schemas| ==> RefsAlone(s.anyOf.schemas[i]))
        && (s.arrays.items.Given? ==> RefsAlone(s.arrays.items.schema))
        && (s.objects.names.Given? ==> RefsAlone(s.objects.names.schema))
        && (s.objects.others.Given? ==> RefsAlone(s.objects.others.schema))
        && (forall i :: 0 <= i < |s.objects.properties| ==> RefsAlone(s.objects.properties[i].schema))
  }

  predicate AllAlone(c: Contract, s: Schema) {
    RefsAlone(s) && forall i :: 0 <= i < |Definitions(c)| ==> RefsAlone(Definitions(c)[i].schema)
  }

  lemma TargetAlone(c: Contract, s: Schema)
    requires AllAlone(c, s) && s.Node? && Resolve(c, s.ref).Given?
    ensures AllAlone(c, Resolve(c, s.ref).schema)
  {
    FindIn(Definitions(c), s.ref.name);
  }

  lemma MemberAlone(c: Contract, s: Schema, key: string)
    requires AllAlone(c, s) && s.Node? && s.ref.NoRef? && MemberSchema(s, key).Given?
    ensures AllAlone(c, MemberSchema(s, key).schema)
  {
    if Find(s.objects.properties, key).Given? {
      FindIn(s.objects.properties, key);
    }
  }

  lemma NothingToMeet(c: Contract, s: Schema, v: Json)
    requires Acyclic(c, true) && s.Node? && NoKeywords(s)
    ensures Keywords(c, true, s, v)
  {
  }

  /** The checker never refuses what the standard allows; and it allows no more, if references stand alone. */
  lemma {:induction false} ChecksTheStandard(c: Contract, s: Schema, v: Json)
    requires Acyclic(c, true) && Acyclic(c, false)
    ensures Valid(c, true, s, v) ==> Valid(c, false, s, v)
    ensures AllAlone(c, s) && Valid(c, false, s, v) ==> Valid(c, true, s, v)
    decreases Size(v), Height(c, true, s), s, 3
  {
    if s.Node? {
      if s.ref.NoRef? {
        KeywordsAgree(c, s, v);
      } else if Resolve(c, s.ref).Given? {
        TargetLower(c, true, s);
        TargetLower(c, false, s);
        if AllAlone(c, s) {
          TargetAlone(c, s);
          NothingToMeet(c, s, v);
        }
        ChecksTheStandard(c, Resolve(c, s.ref).schema, v);
      }
    }
  }

  lemma {:induction false} KeywordsAgree(c: Contract, s: Schema, v: Json)
    requires Acyclic(c, true) && Acyclic(c, false) && s.Node? && s.ref.NoRef?
    ensures Keywords(c, true, s, v) ==> Keywords(c, false, s, v)
    ensures AllAlone(c, s) && Keywords(c, false, s, v) ==> Keywords(c, true, s, v)
    decreases Size(v), Height(c, true, s), s, 2
  {
    BranchesAgree(c, s, v);
    if v.Arr? {
      ElementsAgree(c, s, v);
    }
    if v.Obj? {
      MembersAgree(c, s, v);
    }
  }

  lemma {:induction false} BranchesAgree(c: Contract, s: Schema, v: Json)
    requires Acyclic(c, true) && Acyclic(c, false) && s.Node? && s.ref.NoRef?
    ensures AnyBranch(c, true, s, v) ==> AnyBranch(c, false, s, v)
    ensures AllAlone(c, s) && AnyBranch(c, false, s, v) ==> AnyBranch(c, true, s, v)
    decreases Size(v), Height(c, true, s), s, 0
  {
    if s.anyOf.Branches? {
      forall i | 0 <= i < |s.anyOf.schemas|
        ensures Valid(c, true, s.anyOf.schemas[i], v) ==> Valid(c, false, s.anyOf.schemas[i], v)
        ensures AllAlone(c, s) && Valid(c, false, s.anyOf.schemas[i], v) ==> Valid(c, true, s.anyOf.schemas[i], v)
      {
        BranchHeight(c, true, s.anyOf.schemas, i);
        ChecksTheStandard(c, s.anyOf.schemas[i], v);
      }
    }
  }

  lemma {:induction false} ElementsAgree(c: Contract, s: Schema, v: Json)
    requires Acyclic(c, true) && Acyclic(c, false) && s.Node? && s.ref.NoRef? && v.Arr?
    ensures ValidArray(c, true, s, v) ==> ValidArray(c, false, s, v)
    ensures AllAlone(c, s) && ValidArray(c, false, s, v) ==> ValidArray(c, true, s, v)
    decreases Size(v), Height(c, true, s), s, 0
  {
    if s.arrays.items.Given? {
      var t := s.arrays.items.schema;
      forall i | 0 <= i < |v.elements|
        ensures Valid(c, true, t, v.elements[i]) ==> Valid(c, false, t, v.elements[i])
        ensures AllAlone(c, s) && Valid(c, false, t, v.elements[i]) ==> Valid(c, true, t, v.elements[i])
      {
        ElementSmaller(v.elements, i);
        ChecksTheStandard(c, t, v.elements[i]);
      }
      var n := |v.elements|;
      assert EachValid(c, true, s, v, n) ==> EachValid(c, false, s, v, n);
      assert AllAlone(c, s) && EachValid(c, false, s, v, n) ==> EachValid(c, true, s, v, n);
    }
  }

  lemma {:induction false} MembersAgree(c: Contract, s: Schema, v: Json)
    requires Acyclic(c, true) && Acyclic(c, false) && s.Node? && s.ref.NoRef? && v.Obj?
    ensures ValidObject(c, true, s, v) ==> ValidObject(c, false, s, v)
    ensures AllAlone(c, s) && ValidObject(c, false, s, v) ==> ValidObject(c, true, s, v)
    decreases Size(v), Height(c, true, s), s, 1
  {
    forall i | 0 <= i < |v.members|
      ensures ValidMember(c, true, s, v, i) ==> ValidMember(c, false, s, v, i)
      ensures AllAlone(c, s) && ValidMember(c, false, s, v, i) ==> ValidMember(c, true, s, v, i)
    {
      var key := v.members[i].key;
      MemberSmaller(v.members, i);
      MemberMeans(c, true, s, v, i);
      MemberMeans(c, false, s, v, i);
      if s.objects.names.Given? {
        ChecksTheStandard(c, s.objects.names.schema, Str(key));
      }
      if MemberSchema(s, key).Given? {
        if AllAlone(c, s) {
          MemberAlone(c, s, key);
        }
        ChecksTheStandard(c, MemberSchema(s, key).schema, v.members[i].value);
      }
    }
  }

  const PLAIN := Node(NoRef, NoAnyOf, None, None, None, TextRules(None, None, None), NumberRules(None, None),
                      ArrayRules(None, None, false, Absent), ObjectRules([], [], Absent, Absent), [], [])

  /** A type beside a reference: the checker takes a number where the standard wants a text. */
  lemma KeywordBesideRefIgnored(search: (string, string) -> bool)
    ensures var s := PLAIN.(ref := Local("any"), types := Some([TString]), defs := [Property("any", Always)]);
            var c := Contract(s, map["any" := 0], search);
            && Acyclic(c, false) && Acyclic(c, true)
            && Valid(c, false, s, Int(1)) && !Valid(c, true, s, Int(1))
  {
  }

  // ------------------------------------------------------------------
  // Loading: no keyword the checker would skip
  // ------------------------------------------------------------------

  /** What `_check_keywords` accepts: nothing unknown here or in any schema inside, definitions included. */
  predicate Supported(s: Schema)
    decreases s
  {
    s.Node? ==>
      && s.unknown == []
      && (s.anyOf.Branches? ==> forall i :: 0 <= i < |s.anyOf.schemas| ==> Supported(s.anyOf.schemas[i]))
      && (s.arrays.items.Given? ==> Supported(s.arrays.items.schema))
      && (s.objects.names.Given? ==> Supported(s.objects.names.schema))
      && (s.objects.others.Given? ==> Supported(s.objects.others.schema))
      && (forall i :: 0 <= i < |s.objects.properties| ==> Supported(s.objects.properties[i].schema))
      && (forall i :: 0 <= i < |s.defs| ==> Supported(s.defs[i].schema))
  }

  /** One step of the evaluator: from a schema to one it evaluates next. */
  predicate Evaluates(c: Contract, s: Schema, t: Schema) {
    && s.Node?
    && (|| Resolve(c, s.ref) == Given(t)
        || (s.anyOf.Branches? && t in s.anyOf.schemas)
        || s.arrays.items == Given(t)
        || s.objects.names == Given(t)
        || s.objects.others == Given(t)
        || exists i :: 0 <= i < |s.objects.properties| && s.objects.properties[i].schema == t)
  }

  predicate Trail(c: Contract, trail: seq<Schema>) {
    trail != [] && trail[0] == c.root && forall i :: 0 < i < |trail| ==> Evaluates(c, trail[i - 1], trail[i])
  }

  /** Whatever values are checked, the evaluator reaches no schema with a keyword it does not know. */
  lemma {:induction false} LoadingCovers(c: Contract, trail: seq<Schema>)
    requires Supported(c.root) && Trail(c, trail)
    ensures Supported(trail[|trail| - 1])
    decreases trail
  {
    if |trail| > 1 {
      var init := trail[..|trail| - 1];
      LoadingCovers(c, init);
      var s, t := init[|init| - 1], trail[|trail| - 1];
      assert Evaluates(c, s, t);
      if Resolve(c, s.ref) == Given(t) {
        FindIn(Definitions(c), s.ref.name);
      }
    }
  }
}
