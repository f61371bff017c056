/** Validation and casting of tool parameters against a schema, and the strict path to a tool. */
module ToolParameters {
  import opened Util

  /** A JavaScript number; only finite ones have a numeric value here. */
  datatype Number = Finite(r: real) | PlusInfinity | MinusInfinity | NaN

  /** `Obj` lists its fields in the order JavaScript enumerates them. */
  datatype Value =
    | Undefined | Null
    | Bool(b: bool)
    | Num(n: Number)
    | Str(s: string)
    | Arr(items: seq<Value>)
    | Obj(fields: seq<Field>)

  datatype Field = Field(key: string, value: Value)

  datatype Type = StringType | IntegerType | NumberType | BooleanType | ArrayType | ObjectType | OtherType

  datatype Schema = Schema(
    kind: Option<Type>,
    choices: Option<seq<Value>>,
    minimum: Option<Number>,
    maximum: Option<Number>,
    minLength: Option<int>,
    maxLength: Option<int>,
    required: seq<string>,
    properties: Properties)

  datatype Properties = Absent | Present(list: seq<Property>)

  datatype Property = Property(name: string, schema: Schema)

  /** parseInt, parseFloat and toLowerCase; None stands for NaN. */
  datatype Library = Library(
    parseInt: string -> Option<Number>,
    parseFloat: string -> Option<Number>,
    toLowerCase: string -> string)

  function Lookup(properties: seq<Property>, key: string): (r: Option<Schema>)
    ensures r.Some? ==> exists i :: 0 <= i < |properties| && properties[i] == Property(key, r.value)
    ensures r == None ==> forall i :: 0 <= i < |properties| ==> properties[i].name != key
  {
    if properties == [] then None
    else
      var last := properties[|properties| - 1];
      if last.name == key then
        assert properties[|properties| - 1] == Property(key, last.schema);
        Some(last.schema)
      else Lookup(properties[..|properties| - 1], key)
  }

  predicate Declared(schema: Schema, key: string) {
    schema.properties.Present? && Lookup(schema.properties.list, key).Some?
  }

  function SchemaOf(schema: Schema, key: string): (p: Schema)
    requires Declared(schema, key)
    ensures p < schema
  {
    var p := Lookup(schema.properties.list, key).value;
    assert exists i :: 0 <= i < |schema.properties.list| && schema.properties.list[i] == Property(key, p);
    assert forall i :: 0 <= i < |schema.properties.list| ==> schema.properties.list[i].schema < schema;
    p
  }

  predicate HasField(fields: seq<Field>, key: string) {
    exists i :: 0 <= i < |fields| && fields[i].key == key && fields[i].value != Undefined
  }

  predicate HasKey(fields: seq<Field>, key: string) {
    exists i :: 0 <= i < |fields| && fields[i].key == key
  }

  /**
   * Reading the field finds something: the object has it, or inherits it. `inherited` are the names that
   * every plain object takes over from its prototype, such as toString; they stand for functions, and
   * read as a property schema they ask for nothing.
   */
  predicate Reads(inherited: set<string>, fields: seq<Field>, key: string) {
    HasField(fields, key) || (key in inherited && !HasKey(fields, key))
  }

  predicate Less(a: Number, b: Number) {
    match (a, b)
    case (Finite(x), Finite(y)) => x < y
    case (MinusInfinity, Finite(_)) => true
    case (MinusInfinity, PlusInfinity) => true
    case (Finite(_), PlusInfinity) => true
    case _ => false
  }

  /** Array.prototype.includes: objects and arrays are never the same object as a choice. */
  predicate Includes(choices: seq<Value>, v: Value) {
    v in choices && !v.Arr? && !v.Obj?
  }

  predicate IsInteger(n: Number) {
    n.Finite? && n.r == n.r.Floor as real
  }

  predicate CheckType(v: Value, t: Type) {
    match t
    case StringType => v.Str?
    case IntegerType => v.Num? && IsInteger(v.n)
    case NumberType => v.Num? && v.n != NaN
    case BooleanType => v.Bool?
    case ArrayType => v.Arr?
    case ObjectType => v.Obj?
    case OtherType => true
  }

  // ------------------------------------------------------------ conformance

  predicate InRange(v: Value, p: Schema) {
    && (v.Num? ==>
          && (p.minimum.Some? ==> !Less(v.n, p.minimum.value))
          && (p.maximum.Some? ==> !Less(p.maximum.value, v.n)))
    && (v.Str? ==>
          && (p.minLength.Some? ==> |v.s| >= p.minLength.value)
          && (p.maxLength.Some? ==> |v.s| <= p.maxLength.value))
  }

  predicate Nested(p: Schema) {
    p.kind == Some(ObjectType) && p.properties.Present?
  }

  /** A value fits its schema, all the way down. */
  predicate ValueConforms(inherited: set<string>, v: Value, p: Schema)
    decreases p, 2
  {
    && (p.kind.Some? ==> CheckType(v, p.kind.value))
    && (p.choices.Some? ==> Includes(p.choices.value, v))
    && InRange(v, p)
    && (Nested(p) && v.Obj? ==> Conforms(inherited, v.fields, p))
  }

  /** Every required field can be read, and every declared field that is there fits its schema. */
  predicate Conforms(inherited: set<string>, fields: seq<Field>, schema: Schema)
    decreases schema, 1
  {
    && (forall k :: 0 <= k < |schema.required| ==> Reads(inherited, fields, schema.required[k]))
    && (forall i :: 0 <= i < |fields| ==> FieldConforms(inherited, fields[i], schema))
  }

  predicate FieldConforms(inherited: set<string>, f: Field, schema: Schema)
    decreases schema, 0
  {
    Declared(schema, f.key) ==> ValueConforms(inherited, f.value, SchemaOf(schema, f.key))
  }

  predicate Equals(n: int, r: real) {
    n as real == r
  }

  /** The types that a value passes for. */
  ghost predicate Passes(v: Value, t: Type) {
    t == OtherType
    || match v
       case Undefined => false
       case Null => false
       case Bool(_) => t == BooleanType
       case Num(Finite(r)) => t == NumberType || (t == IntegerType && exists n :: Equals(n, r))
       case Num(NaN) => false
       case Num(_) => t == NumberType
       case Str(_) => t == StringType
       case Arr(_) => t == ArrayType
       case Obj(_) => t == ObjectType
  }

  /** A bound that is not a number bounds nothing, and neither does it bound what is not a number. */
  predicate AtLeast(n: Number, bound: Number) {
    match bound
    case Finite(m) => n == PlusInfinity || n == NaN || (n.Finite? && m <= n.r)
    case PlusInfinity => n == PlusInfinity || n == NaN
    case MinusInfinity => true
    case NaN => true
  }

  predicate AtMost(n: Number, bound: Number) {
    match bound
    case Finite(m) => n == MinusInfinity || n == NaN || (n.Finite? && n.r <= m)
    case MinusInfinity => n == MinusInfinity || n == NaN
    case PlusInfinity => true
    case NaN => true
  }

  /** What it takes to fit, value by value. */
  lemma FitsExactly(inherited: set<string>, v: Value, p: Schema)
    ensures ValueConforms(inherited, v, p) <==>
              && (p.kind.Some? ==> Passes(v, p.kind.value))
              && (p.choices.Some? ==> v in p.choices.value && !v.Arr? && !v.Obj?)
              && (v.Num? && p.minimum.Some? ==> AtLeast(v.n, p.minimum.value))
              && (v.Num? && p.maximum.Some? ==> AtMost(v.n, p.maximum.value))
              && (v.Str? && p.minLength.Some? ==> p.minLength.value <= |v.s|)
              && (v.Str? && p.maxLength.Some? ==> |v.s| <= p.maxLength.value)
              && (v.Obj? && p.kind == Some(ObjectType) && p.properties.Present? ==> Conforms(inherited, v.fields, p))
  {
    if v.Num? && v.n.Finite? {
      WholeExactly(v.n.r);
    }
    if p.kind.Some? {
      PassesExactly(v, p.kind.value);
    }
  }

  lemma PassesExactly(v: Value, t: Type)
    ensures Passes(v, t) <==> CheckType(v, t)
  {
    if v.Num? && v.n.Finite? {
      WholeExactly(v.n.r);
    }
  }

  lemma WholeExactly(r: real)
    ensures r == r.Floor as real <==> exists n :: Equals(n, r)
  {
    if n :| Equals(n, r) {
      assert (n as real).Floor == n;
    } else {
      assert !Equals(r.Floor, r);
    }
  }

  // ------------------------------------------------------------ validation

  datatype Problem = Missing | BadType | BadChoice | TooSmall | TooLarge | TooShort | TooLong

  /** One line of the error report. */
  datatype Error = Error(problem: Problem, path: string)

  function Under(path: string, key: string): string {
    if path == "" then key else path + "." + key
  }

  /** What is wrong with a value of the right type, apart from what is wrong inside it. */
  predicate Flawed(problem: Problem, v: Value, p: Schema) {
    match problem
    case Missing => false
    case BadType => false
    case BadChoice => p.choices.Some? && !Includes(p.choices.value, v)
    case TooSmall => v.Num? && p.minimum.Some? && Less(v.n, p.minimum.value)
    case TooLarge => v.Num? && p.maximum.Some? && Less(p.maximum.value, v.n)
    case TooShort => v.Str? && p.minLength.Some? && |v.s| < p.minLength.value
    case TooLong => v.Str? && p.maxLength.Some? && |v.s| > p.maxLength.value
  }

  predicate WrongType(v: Value, p: Schema) {
    p.kind.Some? && !CheckType(v, p.kind.value)
  }

  /** `e` names a problem of the value at `path`: its type, or else a flaw of its own or one further down. */
  predicate WrongValue(inherited: set<string>, e: Error, v: Value, p: Schema, path: string)
    decreases p, 4
  {
    if WrongType(v, p) then e == Error(BadType, path)
    else
      || (e.path == path && Flawed(e.problem, v, p))
      || (Nested(p) && v.Obj? && Wrong(inherited, e, v.fields, p, path))
  }

  predicate WrongField(inherited: set<string>, e: Error, f: Field, schema: Schema, path: string)
    decreases schema, 2
  {
    Declared(schema, f.key) && WrongValue(inherited, e, f.value, SchemaOf(schema, f.key), Under(path, f.key))
  }

  predicate Absence(inherited: set<string>, e: Error, fields: seq<Field>, required: seq<string>, path: string) {
    exists k :: 0 <= k < |required| && !Reads(inherited, fields, required[k])
                && e == Error(Missing, Under(path, required[k]))
  }

  /** `e` names, with its full path, a problem of the object or of an object in it. */
  predicate Wrong(inherited: set<string>, e: Error, fields: seq<Field>, schema: Schema, path: string)
    decreases schema, 3
  {
    || Absence(inherited, e, fields, schema.required, path)
    || exists i :: 0 <= i < |fields| && WrongField(inherited, e, fields[i], schema, path)
  }

  /** The checks on one value that do not look inside it. */
  method CheckValue(v: Value, p: Schema, path: string) returns (errors: seq<Error>)
    ensures errors == [] <==> (p.choices.Some? ==> Includes(p.choices.value, v)) && InRange(v, p)
    ensures forall e :: e in errors <==> e.path == path && Flawed(e.problem, v, p)
  {
    errors := [];
    if p.choices.Some? && !Includes(p.choices.value, v) {
      errors := errors + [Error(BadChoice, path)];
    }
    if v.Num? {
      if p.minimum.Some? && Less(v.n, p.minimum.value) {
        errors := errors + [Error(TooSmall, path)];
      }
      if p.maximum.Some? && Less(p.maximum.value, v.n) {
        errors := errors + [Error(TooLarge, path)];
      }
    }
    if v.Str? {
      if p.minLength.Some? && |v.s| < p.minLength.value {
        errors := errors + [Error(TooShort, path)];
      }
      if p.maxLength.Some? && |v.s| > p.maxLength.value {
        errors := errors + [Error(TooLong, path)];
      }
    }
  }

  method CheckRequired(inherited: set<string>, fields: seq<Field>, required: seq<string>, path: string)
    returns (errors: seq<Error>)
    ensures errors == [] <==> forall k :: 0 <= k < |required| ==> Reads(inherited, fields, required[k])
    ensures forall e :: e in errors <==> Absence(inherited, e, fields, required, path)
  {
    errors := [];
    for k := 0 to |required|
      invariant errors == [] <==> forall j :: 0 <= j < k ==> Reads(inherited, fields, required[j])
      invariant forall e :: e in errors <==>
                  exists j :: 0 <= j < k && !Reads(inherited, fields, required[j])
                              && e == Error(Missing, Under(path, required[j]))
    {
      if !Reads(inherited, fields, required[k]) {
        errors := errors + [Error(Missing, Under(path, required[k]))];
      }
    }
  }

  /** The report names just what is wrong; it is empty exactly when the object conforms to the schema. */
  method ValidateObject(inherited: set<string>, fields: seq<Field>, schema: Schema, path: string)
    returns (errors: seq<Error>)
    ensures errors == [] <==> Conforms(inherited, fields, schema)
    ensures forall e :: e in errors <==> Wrong(inherited, e, fields, schema, path)
    decreases schema, 2
  {
    errors := CheckRequired(inherited, fields, schema.required, path);
    if schema.properties.Absent? {
      return;
    }
    var found := ValidateFields(inherited, fields, schema, path);
    errors := errors + found;
  }

  method ValidateFields(inherited: set<string>, fields: seq<Field>, schema: Schema, path: string)
    returns (errors: seq<Error>)
    ensures errors == [] <==> forall i :: 0 <= i < |fields| ==> FieldConforms(inherited, fields[i], schema)
    ensures forall e :: e in errors <==>
              exists i :: 0 <= i < |fields| && WrongField(inherited, e, fields[i], schema, path)
    decreases schema, 1
  {
    errors := [];
    for i := 0 to |fields|
      invariant errors == [] <==> forall j :: 0 <= j < i ==> FieldConforms(inherited, fields[j], schema)
      invariant forall e :: e in errors <==>
                  exists j :: 0 <= j < i && WrongField(inherited, e, fields[j], schema, path)
    {
      var found := ValidateField(inherited, fields[i], schema, path);
      errors := errors + found;
    }
  }

  method ValidateField(inherited: set<string>, f: Field, schema: Schema, path: string) returns (errors: seq<Error>)
    ensures errors == [] <==> FieldConforms(inherited, f, schema)
    ensures forall e :: e in errors <==> WrongField(inherited, e, f, schema, path)
    decreases schema, 0
  {
    errors := [];
    if Declared(schema, f.key) {
      errors := ValidateValue(inherited, f.value, SchemaOf(schema, f.key), Under(path, f.key));
    }
  }

  method ValidateValue(inherited: set<string>, v: Value, p: Schema, path: string) returns (errors: seq<Error>)
    ensures errors == [] <==> ValueConforms(inherited, v, p)
    ensures forall e :: e in errors <==> WrongValue(inherited, e, v, p, path)
    decreases p, 3
  {
    if WrongType(v, p) {
      return [Error(BadType, path)];
    }
    errors := CheckValue(v, p, path);
    if Nested(p) && v.Obj? {
      var inner := ValidateObject(inherited, v.fields, p, path);
      errors := errors + inner;
    }
  }

  // ------------------------------------------------------------ casting

  function OneOf(lib: Library, s: string): Option<bool> {
    var lower := lib.toLowerCase(s);
    if lower == "true" || lower == "1" || lower == "yes" then Some(true)
    else if lower == "false" || lower == "0" || lower == "no" then Some(false)
    else None
  }

  /** Only strings are cast, and only to numbers and booleans. */
  function CastValue(lib: Library, v: Value, t: Type): Value {
    if !v.Str? then v
    else
      match t
      case IntegerType => if lib.parseInt(v.s).Some? then Num(lib.parseInt(v.s).value) else v
      case NumberType => if lib.parseFloat(v.s).Some? then Num(lib.parseFloat(v.s).value) else v
      case BooleanType => if OneOf(lib, v.s).Some? then Bool(OneOf(lib, v.s).value) else v
      case _ => v
  }

  function Decimal(n: nat): string {
    if n < 10 then [('0' as int + n) as char] else Decimal(n / 10) + [('0' as int + n % 10) as char]
  }

  /** The fields of an object, or of an array by index: both count as objects when casting. */
  function Entries(v: Value): seq<Field>
    requires v.Arr? || v.Obj?
  {
    if v.Obj? then v.fields else seq(|v.items|, (i: nat) requires i < |v.items| => Field(Decimal(i), v.items[i]))
  }

  function CastProperty(lib: Library, v: Value, p: Schema): Value
    decreases p, 2
  {
    if Nested(p) && (v.Obj? || v.Arr?) then Obj(CastFields(lib, Entries(v), p))
    else if p.kind.Some? then CastValue(lib, v, p.kind.value)
    else v
  }

  function CastField(lib: Library, f: Field, schema: Schema): Field
    decreases schema, 0
  {
    if Declared(schema, f.key) then Field(f.key, CastProperty(lib, f.value, SchemaOf(schema, f.key))) else f
  }

  /** The cast object: same keys in the same order, declared ones cast. */
  function CastFields(lib: Library, fields: seq<Field>, schema: Schema): (r: seq<Field>)
    ensures |r| == |fields|
    decreases schema, 1
  {
    seq(|fields|, (i: nat) requires i < |fields| => CastField(lib, fields[i], schema))
  }

  // ------------------------------------------------------------ what casting makes of a value

  predicate IsDigits(s: string) {
    s != [] && forall i :: 0 <= i < |s| ==> '0' <= s[i] <= '9'
  }

  function ValueOf(digits: string): nat
    requires forall i :: 0 <= i < |digits| ==> '0' <= digits[i] <= '9'
  {
    if digits == [] then 0
    else
      var last := |digits| - 1;
      10 * ValueOf(digits[..last]) + (digits[last] as int - '0' as int)
  }

  /** The decimal numeral of `n`, without a leading zero. */
  predicate IsNumeral(s: string, n: nat) {
    IsDigits(s) && ValueOf(s) == n && (s[0] == '0' ==> |s| == 1)
  }

  lemma {:induction false} DecimalIsNumeral(n: nat)
    ensures IsNumeral(Decimal(n), n)
    ensures n > 0 ==> Decimal(n)[0] != '0'
  {
    var digit := [('0' as int + n % 10) as char];
    if n >= 10 {
      DecimalIsNumeral(n / 10);
      assert (Decimal(n / 10) + digit)[..|Decimal(n)| - 1] == Decimal(n / 10);
    } else {
      assert digit[..0] == [];
    }
  }

  /** The entries of an array: its items in order, each under the numeral of its index. */
  ghost predicate AreEntries(fields: seq<Field>, items: seq<Value>) {
    && |fields| == |items|
    && forall i :: 0 <= i < |items| ==> fields[i].value == items[i] && IsNumeral(fields[i].key, i)
  }

  predicate IsYes(lib: Library, v: Value) {
    v.Str? && (lib.toLowerCase(v.s) == "true" || lib.toLowerCase(v.s) == "1" || lib.toLowerCase(v.s) == "yes")
  }

  predicate IsNo(lib: Library, v: Value) {
    v.Str? && (lib.toLowerCase(v.s) == "false" || lib.toLowerCase(v.s) == "0" || lib.toLowerCase(v.s) == "no")
  }

  /**
   * `w` is what a schema makes of `v`. Where a truth value is expected a word for one becomes it; where
   * a number is expected a string becomes the number that the library reads at its start; where an
   * object with declared fields is expected its fields are cast, or those of an array by index. Nothing
   * else changes.
   */
  ghost predicate CastsTo(lib: Library, v: Value, p: Schema, w: Value)
    decreases p, 1
  {
    if p.kind == Some(BooleanType) && IsYes(lib, v) then w == Bool(true)
    else if p.kind == Some(BooleanType) && IsNo(lib, v) then w == Bool(false)
    else if p.kind == Some(IntegerType) && v.Str? && lib.parseInt(v.s).Some? then
      w == Num(lib.parseInt(v.s).value)
    else if p.kind == Some(NumberType) && v.Str? && lib.parseFloat(v.s).Some? then
      w == Num(lib.parseFloat(v.s).value)
    else if p.kind == Some(ObjectType) && p.properties.Present? && v.Obj? then
      w.Obj? && FieldsCastTo(lib, v.fields, p, w.fields)
    else if p.kind == Some(ObjectType) && p.properties.Present? && v.Arr? then
      w.Obj? && exists fields :: AreEntries(fields, v.items) && FieldsCastTo(lib, fields, p, w.fields)
    else w == v
  }

  /** The same names in the same order, and every declared value cast by its own schema. */
  ghost predicate FieldsCastTo(lib: Library, fields: seq<Field>, schema: Schema, cast: seq<Field>)
    decreases schema, 0
  {
    && |cast| == |fields|
    && forall i :: 0 <= i < |fields| ==>
         && cast[i].key == fields[i].key
         && if Declared(schema, fields[i].key)
            then CastsTo(lib, fields[i].value, SchemaOf(schema, fields[i].key), cast[i].value)
            else cast[i].value == fields[i].value
  }

  lemma EntriesAreEntries(items: seq<Value>)
    ensures AreEntries(Entries(Arr(items)), items)
  {
    forall i | 0 <= i < |items|
      ensures Entries(Arr(items))[i].value == items[i] && IsNumeral(Entries(Arr(items))[i].key, i)
    {
      DecimalIsNumeral(i);
    }
  }

  lemma {:induction false} CastIsExact(lib: Library, fields: seq<Field>, schema: Schema)
    ensures FieldsCastTo(lib, fields, schema, CastFields(lib, fields, schema))
    decreases schema, 0
  {
    forall i | 0 <= i < |fields| && Declared(schema, fields[i].key)
      ensures CastsTo(
                lib, fields[i].value, SchemaOf(schema, fields[i].key), CastFields(lib, fields, schema)[i].value)
    {
      CastPropertyIsExact(lib, fields[i].value, SchemaOf(schema, fields[i].key));
    }
  }

  lemma {:induction false} CastPropertyIsExact(lib: Library, v: Value, p: Schema)
    ensures CastsTo(lib, v, p, CastProperty(lib, v, p))
    decreases p, 1
  {
    if Nested(p) && (v.Obj? || v.Arr?) {
      CastIsExact(lib, Entries(v), p);
      if v.Arr? {
        EntriesAreEntries(v.items);
      }
    }
  }

  lemma {:induction false} LeadingDigit(s: string)
    requires IsDigits(s) && s[0] != '0'
    ensures ValueOf(s) > 0
  {
    if |s| > 1 {
      LeadingDigit(s[..|s| - 1]);
    } else {
      assert s[..0] == [];
    }
  }

  lemma NumeralParts(s: string, n: nat)
    requires IsNumeral(s, n)
    ensures var last := |s| - 1;
            && s[last] as int == '0' as int + n % 10
            && (last == 0 <==> n < 10)
            && (last > 0 ==> IsNumeral(s[..last], n / 10))
  {
    var last := |s| - 1;
    var digit := s[last] as int - '0' as int;
    assert n == 10 * ValueOf(s[..last]) + digit && 0 <= digit < 10;
    if last > 0 {
      assert s[..last][0] == s[0];
      LeadingDigit(s[..last]);
    } else {
      assert s[..0] == [];
    }
  }

  lemma {:induction false} NumeralIsUnique(s: string, t: string, n: nat)
    requires IsNumeral(s, n) && IsNumeral(t, n)
    ensures s == t
  {
    NumeralParts(s, n);
    NumeralParts(t, n);
    var i, j := |s| - 1, |t| - 1;
    if n >= 10 {
      NumeralIsUnique(s[..i], t[..j], n / 10);
      assert s == s[..i] + [s[i]] && t == t[..j] + [t[j]];
    }
  }

  /** So an object is cast in one way only. */
  lemma {:induction false} CastIsUnique(
      lib: Library, fields: seq<Field>, schema: Schema, cast: seq<Field>, cast': seq<Field>)
    requires FieldsCastTo(lib, fields, schema, cast) && FieldsCastTo(lib, fields, schema, cast')
    ensures cast == cast'
    decreases schema, 0
  {
    forall i | 0 <= i < |fields| ensures cast[i] == cast'[i] {
      if Declared(schema, fields[i].key) {
        var p := SchemaOf(schema, fields[i].key);
        CastValueIsUnique(lib, fields[i].value, p, cast[i].value, cast'[i].value);
      }
    }
  }

  lemma {:induction false} CastValueIsUnique(lib: Library, v: Value, p: Schema, w: Value, w': Value)
    requires CastsTo(lib, v, p, w) && CastsTo(lib, v, p, w')
    ensures w == w'
    decreases p, 1
  {
    if Nested(p) && v.Obj? {
      CastIsUnique(lib, v.fields, p, w.fields, w'.fields);
    } else if Nested(p) && v.Arr? {
      var es :| AreEntries(es, v.items) && FieldsCastTo(lib, es, p, w.fields);
      var es' :| AreEntries(es', v.items) && FieldsCastTo(lib, es', p, w'.fields);
      EntriesAreUnique(es, es', v.items);
      CastIsUnique(lib, es, p, w.fields, w'.fields);
    }
  }

  lemma EntriesAreUnique(es: seq<Field>, es': seq<Field>, items: seq<Value>)
    requires AreEntries(es, items) && AreEntries(es', items)
    ensures es == es'
  {
    forall i | 0 <= i < |items| ensures es[i] == es'[i] {
      NumeralIsUnique(es[i].key, es'[i].key, i);
    }
  }

  method CastObject(lib: Library, fields: seq<Field>, schema: Schema) returns (result: seq<Field>)
    ensures result == CastFields(lib, fields, schema)
    ensures FieldsCastTo(lib, fields, schema, result)
    decreases schema
  {
    CastIsExact(lib, fields, schema);
    if schema.properties.Absent? {
      assert CastFields(lib, fields, schema) == fields;
      return fields;
    }
    result := [];
    for i := 0 to |fields|
      invariant |result| == i && forall j :: 0 <= j < i ==> result[j] == CastField(lib, fields[j], schema)
    {
      var key, value := fields[i].key, fields[i].value;
      if !Declared(schema, key) {
        result := result + [Field(key, value)];
      } else {
        var p := SchemaOf(schema, key);
        if Nested(p) && (value.Obj? || value.Arr?) {
          var inner := CastObject(lib, Entries(value), p);
          result := result + [Field(key, Obj(inner))];
        } else if p.kind.Some? {
          result := result + [Field(key, CastValue(lib, value, p.kind.value))];
        } else {
          result := result + [Field(key, value)];
        }
      }
    }
  }

  // ------------------------------------------------------------ what casting keeps

  /** What a string must be for the cast to make a value of the type out of it. */
  predicate Readable(lib: Library, s: string, t: Type) {
    match t
    case IntegerType => lib.parseInt(s).Some? && IsInteger(lib.parseInt(s).value)
    case NumberType => lib.parseFloat(s).Some? && lib.parseFloat(s).value != NaN
    case BooleanType => lib.toLowerCase(s) in ["true", "1", "yes", "false", "0", "no"]
    case _ => false
  }

  /**
   * Only a string changes, and only to the truth value it is a word for or to the number it reads as. A
   * value passes the type check once it is cast iff it passed before, or is a string that reads as such
   * a value.
   */
  lemma CastValueExactly(lib: Library, v: Value, t: Type)
    ensures CastValue(lib, v, t) != v ==> v.Str?
    ensures t == BooleanType ==>
              CastValue(lib, v, t) == if IsYes(lib, v) then Bool(true) else if IsNo(lib, v) then Bool(false) else v
    ensures t == IntegerType && v.Str? ==>
              CastValue(lib, v, t) == if lib.parseInt(v.s).Some? then Num(lib.parseInt(v.s).value) else v
    ensures t == NumberType && v.Str? ==>
              CastValue(lib, v, t) == if lib.parseFloat(v.s).Some? then Num(lib.parseFloat(v.s).value) else v
    ensures t != BooleanType && t != IntegerType && t != NumberType ==> CastValue(lib, v, t) == v
    ensures CheckType(CastValue(lib, v, t), t) <==> CheckType(v, t) || (v.Str? && Readable(lib, v.s, t))
  {
    if v.Str? && t == BooleanType {
      var words := ["true", "1", "yes", "false", "0", "no"];
      assert words[0] == "true" && words[1] == "1" && words[2] == "yes";
      assert words[3] == "false" && words[4] == "0" && words[5] == "no";
    }
  }

  /** Casting does nothing to an object that conforms. */
  lemma {:induction false} CastKeepsConforming(inherited: set<string>, lib: Library, fields: seq<Field>, schema: Schema)
    requires Conforms(inherited, fields, schema)
    ensures CastFields(lib, fields, schema) == fields
    decreases schema, 0
  {
    forall i | 0 <= i < |fields| ensures CastField(lib, fields[i], schema) == fields[i] {
      if Declared(schema, fields[i].key) {
        CastKeepsConformingValue(inherited, lib, fields[i].value, SchemaOf(schema, fields[i].key));
      }
    }
  }

  lemma {:induction false} CastKeepsConformingValue(inherited: set<string>, lib: Library, v: Value, p: Schema)
    requires ValueConforms(inherited, v, p)
    ensures CastProperty(lib, v, p) == v
    decreases p, 1
  {
    if Nested(p) {
      CastKeepsConforming(inherited, lib, v.fields, p);
    }
  }

  /** Casting twice is casting once. */
  lemma {:induction false} CastIsIdempotent(lib: Library, fields: seq<Field>, schema: Schema)
    ensures CastFields(lib, CastFields(lib, fields, schema), schema) == CastFields(lib, fields, schema)
    decreases schema, 0
  {
    var once := CastFields(lib, fields, schema);
    forall i | 0 <= i < |fields| ensures CastField(lib, once[i], schema) == once[i] {
      if Declared(schema, fields[i].key) {
        CastPropertyIsIdempotent(lib, fields[i].value, SchemaOf(schema, fields[i].key));
      }
    }
  }

  lemma {:induction false} CastPropertyIsIdempotent(lib: Library, v: Value, p: Schema)
    ensures CastProperty(lib, CastProperty(lib, v, p), p) == CastProperty(lib, v, p)
    decreases p, 1
  {
    if Nested(p) && (v.Obj? || v.Arr?) {
      CastIsIdempotent(lib, Entries(v), p);
    }
  }

  predicate IndexPresent(items: seq<Value>, key: string) {
    exists i :: 0 <= i < |items| && items[i] != Undefined && Decimal(i) == key
  }

  predicate IsIndex(items: seq<Value>, key: string) {
    exists i :: 0 <= i < |items| && Decimal(i) == key
  }

  /** The name can be read from the object that is made of the array. */
  predicate IndexReads(inherited: set<string>, items: seq<Value>, key: string) {
    IndexPresent(items, key) || (key in inherited && !IsIndex(items, key))
  }

  predicate IndexConforms(inherited: set<string>, lib: Library, items: seq<Value>, p: Schema, i: nat)
    requires i < |items|
  {
    Declared(p, Decimal(i)) ==>
      ValueConforms(inherited, CastProperty(lib, items[i], SchemaOf(p, Decimal(i))), SchemaOf(p, Decimal(i)))
  }

  lemma CastKeepsDefined(lib: Library, v: Value, p: Schema)
    ensures CastProperty(lib, v, p) == Undefined <==> v == Undefined
  {
  }

  lemma CastEntry(lib: Library, items: seq<Value>, p: Schema, i: nat)
    requires i < |items|
    ensures var f := CastFields(lib, Entries(Arr(items)), p)[i];
            && f.key == Decimal(i) && (f.value != Undefined <==> items[i] != Undefined)
            && (Declared(p, f.key) ==> f.value == CastProperty(lib, items[i], SchemaOf(p, f.key)))
  {
    if Declared(p, Decimal(i)) {
      CastKeepsDefined(lib, items[i], SchemaOf(p, Decimal(i)));
    }
  }

  lemma CastEntryFound(lib: Library, items: seq<Value>, p: Schema, key: string)
    ensures HasField(CastFields(lib, Entries(Arr(items)), p), key) <==> IndexPresent(items, key)
    ensures HasKey(CastFields(lib, Entries(Arr(items)), p), key) <==> IsIndex(items, key)
  {
    var cast := CastFields(lib, Entries(Arr(items)), p);
    forall i | 0 <= i < |items|
      ensures cast[i].key == Decimal(i) && (cast[i].value != Undefined <==> items[i] != Undefined)
    {
      CastEntry(lib, items, p, i);
    }
    if IsIndex(items, key) {
      var i :| 0 <= i < |items| && Decimal(i) == key;
      assert cast[i].key == key;
    }
    if IndexPresent(items, key) {
      var i :| 0 <= i < |items| && items[i] != Undefined && Decimal(i) == key;
      assert cast[i].key == key;
    }
  }

  /**
   * An array never fits a schema with declared properties, but casting turns it into an object keyed
   * by index. That object passes iff there are no choices to match, every required name is the index
   * of an item or inherited, and the items with a declared index fit when cast.
   */
  lemma ArrayPassesExactly(inherited: set<string>, lib: Library, items: seq<Value>, p: Schema)
    requires Nested(p)
    ensures !ValueConforms(inherited, Arr(items), p)
    ensures ValueConforms(inherited, CastProperty(lib, Arr(items), p), p) <==>
              && p.choices == None
              && (forall k :: 0 <= k < |p.required| ==> IndexReads(inherited, items, p.required[k]))
              && (forall i :: 0 <= i < |items| ==> IndexConforms(inherited, lib, items, p, i))
  {
    var cast := CastFields(lib, Entries(Arr(items)), p);
    forall k | 0 <= k < |p.required|
      ensures Reads(inherited, cast, p.required[k]) <==> IndexReads(inherited, items, p.required[k])
    {
      CastEntryFound(lib, items, p, p.required[k]);
    }
    forall i | 0 <= i < |items|
      ensures IndexConforms(inherited, lib, items, p, i) <==> FieldConforms(inherited, cast[i], p)
    {
      CastEntry(lib, items, p, i);
    }
    ConformsCast(inherited, lib, items, p);
  }

  lemma ConformsCast(inherited: set<string>, lib: Library, items: seq<Value>, p: Schema)
    requires Nested(p)
    ensures ValueConforms(inherited, CastProperty(lib, Arr(items), p), p)
        <==> p.choices == None && Conforms(inherited, CastFields(lib, Entries(Arr(items)), p), p)
  {
  }

  const POINT := Schema(
    Some(ObjectType), None, None, None, None, None, ["0"],
    Present([Property("0", Schema(Some(IntegerType), None, None, None, None, None, [], Absent))]))

  /** An array of one numeral passes where an object with a required integer field is expected. */
  lemma ArrayPasses(inherited: set<string>, lib: Library)
    requires lib.parseInt("7") == Some(Finite(7.0))
    ensures !ValueConforms(inherited, Arr([Str("7")]), POINT)
    ensures ValueConforms(inherited, CastProperty(lib, Arr([Str("7")]), POINT), POINT)
  {
    var items := [Str("7")];
    assert Decimal(0) == "0" && items[0] != Undefined;
    assert IndexPresent(items, "0");
    assert SchemaOf(POINT, "0").kind == Some(IntegerType);
    assert IndexConforms(inherited, lib, items, POINT, 0);
    ArrayPassesExactly(inherited, lib, items, POINT);
  }

  // ------------------------------------------------------------ the strict path

  /** The test of the strip is met by declared keys and by inherited names. */
  predicate Survives(inherited: set<string>, schema: Schema, key: string) {
    Declared(schema, key) || key in inherited
  }

  function StripUnknownKeys(inherited: set<string>, fields: seq<Field>, schema: Schema): seq<Field> {
    if schema.properties.Absent? then fields
    else if fields == [] then []
    else
      var last := fields[|fields| - 1];
      StripUnknownKeys(inherited, fields[..|fields| - 1], schema)
      + if Survives(inherited, schema, last.key) then [last] else []
  }

  method Strip(inherited: set<string>, fields: seq<Field>, schema: Schema) returns (result: seq<Field>)
    ensures result == StripUnknownKeys(inherited, fields, schema)
  {
    if schema.properties.Absent? {
      return fields;
    }
    result := [];
    for i := 0 to |fields|
      invariant result == StripUnknownKeys(inherited, fields[..i], schema)
    {
      assert fields[..i + 1][..i] == fields[..i];
      if Survives(inherited, schema, fields[i].key) {
        result := result + [fields[i]];
      }
    }
    assert fields[..|fields|] == fields;
  }

  predicate RequiredSurvive(inherited: set<string>, schema: Schema) {
    || schema.properties.Absent?
    || forall k :: 0 <= k < |schema.required| ==> Survives(inherited, schema, schema.required[k])
  }

  lemma {:induction false} StripKeepsSurvivors(inherited: set<string>, fields: seq<Field>, schema: Schema)
    requires schema.properties.Present?
    ensures forall f :: f in StripUnknownKeys(inherited, fields, schema)
                   <==> f in fields && Survives(inherited, schema, f.key)
  {
    if fields != [] {
      StripKeepsSurvivors(inherited, fields[..|fields| - 1], schema);
    }
  }

  lemma HasFieldIsMember(fields: seq<Field>, key: string)
    ensures HasField(fields, key) <==> exists f :: f in fields && f.key == key && f.value != Undefined
    ensures HasKey(fields, key) <==> exists f :: f in fields && f.key == key
  {
    if f :| f in fields && f.key == key && f.value != Undefined {
      var i :| 0 <= i < |fields| && fields[i] == f;
    }
    if f :| f in fields && f.key == key {
      var i :| 0 <= i < |fields| && fields[i] == f;
    }
  }

  lemma StrippedReads(inherited: set<string>, fields: seq<Field>, schema: Schema, key: string)
    requires schema.properties.Present?
    ensures Reads(inherited, StripUnknownKeys(inherited, fields, schema), key)
       <==> Reads(inherited, fields, key) && Survives(inherited, schema, key)
  {
    StripKeepsSurvivors(inherited, fields, schema);
    HasFieldIsMember(fields, key);
    HasFieldIsMember(StripUnknownKeys(inherited, fields, schema), key);
  }

  /** Stripping a conforming object leaves it conforming iff every required field is declared or inherited. */
  lemma StripConformsExactly(inherited: set<string>, fields: seq<Field>, schema: Schema)
    requires Conforms(inherited, fields, schema)
    ensures Conforms(inherited, StripUnknownKeys(inherited, fields, schema), schema)
       <==> RequiredSurvive(inherited, schema)
  {
    if schema.properties.Present? {
      var stripped := StripUnknownKeys(inherited, fields, schema);
      StripKeepsSurvivors(inherited, fields, schema);
      forall k | 0 <= k < |schema.required|
        ensures Reads(inherited, stripped, schema.required[k]) <==> Survives(inherited, schema, schema.required[k])
      {
        StrippedReads(inherited, fields, schema, schema.required[k]);
      }
      forall i | 0 <= i < |stripped| ensures FieldConforms(inherited, stripped[i], schema) {
        assert stripped[i] in stripped;
        var j :| 0 <= j < |fields| && fields[j] == stripped[i];
        assert FieldConforms(inherited, fields[j], schema);
      }
    }
  }

  predicate OnlyDeclared(fields: seq<Field>, schema: Schema) {
    forall f :: f in fields ==> Declared(schema, f.key)
  }

  /** No parameter bears an inherited name that is not declared. */
  predicate NoInheritedName(inherited: set<string>, fields: seq<Field>, schema: Schema) {
    forall f :: f in fields && f.key in inherited ==> Declared(schema, f.key)
  }

  /** Only declared fields survive stripping iff no field bears an undeclared inherited name. */
  lemma StrippedIsDeclaredExactly(inherited: set<string>, fields: seq<Field>, schema: Schema)
    requires schema.properties.Present?
    ensures OnlyDeclared(StripUnknownKeys(inherited, fields, schema), schema)
       <==> NoInheritedName(inherited, fields, schema)
  {
    StripKeepsSurvivors(inherited, fields, schema);
  }

  lemma CastKeepsNames(inherited: set<string>, lib: Library, fields: seq<Field>, schema: Schema)
    ensures NoInheritedName(inherited, CastFields(lib, fields, schema), schema)
       <==> NoInheritedName(inherited, fields, schema)
  {
    var cast := CastFields(lib, fields, schema);
    forall i | 0 <= i < |fields| ensures cast[i].key == fields[i].key && cast[i] in cast && fields[i] in fields {
      assert cast[i] == CastField(lib, fields[i], schema);
    }
  }

  lemma OnlyThisCast(inherited: set<string>, lib: Library, params: seq<Field>, schema: Schema, cast: seq<Field>)
    requires FieldsCastTo(lib, params, schema, cast) && !Conforms(inherited, cast, schema)
    ensures !exists other :: FieldsCastTo(lib, params, schema, other) && Conforms(inherited, other, schema)
  {
    forall other | FieldsCastTo(lib, params, schema, other) ensures !Conforms(inherited, other, schema) {
      CastIsUnique(lib, params, schema, cast, other);
    }
  }

  /**
   * The strict path: the tool gets parameters iff the cast parameters conform. It then gets those whose
   * name is declared or inherited: just declared ones iff no parameter bears an undeclared inherited
   * name. They conform too iff every required field is declared or inherited.
   */
  method StrictParameters(inherited: set<string>, lib: Library, params: seq<Field>, schema: Schema)
    returns (safe: Option<seq<Field>>)
    ensures safe.Some? <==> exists cast :: FieldsCastTo(lib, params, schema, cast) && Conforms(inherited, cast, schema)
    ensures safe.Some? ==> exists cast ::
              && FieldsCastTo(lib, params, schema, cast)
              && (if schema.properties.Absent? then safe.value == cast
                  else forall f :: f in safe.value <==>
                         f in cast && (Declared(schema, f.key) || f.key in inherited))
    ensures safe.Some? && schema.properties.Present? ==>
              (OnlyDeclared(safe.value, schema) <==> NoInheritedName(inherited, params, schema))
    ensures safe.Some? ==> (Conforms(inherited, safe.value, schema) <==> RequiredSurvive(inherited, schema))
    ensures Conforms(inherited, params, schema) && schema.properties.Absent? ==> safe == Some(params)
  {
    var cast := CastObject(lib, params, schema);
    var errors := ValidateObject(inherited, cast, schema, "");
    if Conforms(inherited, params, schema) {
      CastKeepsConforming(inherited, lib, params, schema);
    }
    if errors != [] {
      OnlyThisCast(inherited, lib, params, schema, cast);
      return None;
    }
    var stripped := Strip(inherited, cast, schema);
    StripConformsExactly(inherited, cast, schema);
    if schema.properties.Present? {
      StripKeepsSurvivors(inherited, cast, schema);
      StrippedIsDeclaredExactly(inherited, cast, schema);
      CastKeepsNames(inherited, lib, params, schema);
    }
    return Some(stripped);
  }

  const NO_FIELDS := Schema(None, None, None, None, None, None, [], Present([]))

  lemma NothingIsCast(lib: Library, field: Field, cast: seq<Field>)
    requires FieldsCastTo(lib, [field], NO_FIELDS, cast)
    ensures cast == [field]
  {
    assert [field][0] == field && !Declared(NO_FIELDS, field.key);
  }

  /** A parameter named toString reaches a tool that declares no parameters at all. */
  method InheritedNameGetsThrough(inherited: set<string>, lib: Library) returns (safe: Option<seq<Field>>)
    requires "toString" in inherited
    ensures safe.Some? && Field("toString", Num(Finite(1.0))) in safe.value
    ensures !Declared(NO_FIELDS, "toString")
  {
    var field := Field("toString", Num(Finite(1.0)));
    safe := StrictParameters(inherited, lib, [field], NO_FIELDS);
    assert safe.Some? by {
      assert FieldsCastTo(lib, [field], NO_FIELDS, [field]);
      assert Conforms(inherited, [field], NO_FIELDS);
    }
    forall other | FieldsCastTo(lib, [field], NO_FIELDS, other) ensures other == [field] {
      NothingIsCast(lib, field, other);
    }
    assert field in [field];
  }

  /** A required parameter of an inherited name never counts as missing. */
  lemma InheritedNameIsNeverMissing(inherited: set<string>, schema: Schema)
    requires forall k :: 0 <= k < |schema.required| ==> schema.required[k] in inherited
    ensures Conforms(inherited, [], schema)
  {
  }
}
