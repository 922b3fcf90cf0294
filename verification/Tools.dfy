/**
 * Gated tool execution: argument sanitising, schema validation, sandbox
 * policy, routing and the executor's pipeline. Handlers are oracles.
 */
module Tools {
  import opened Options

  // ---- runtime values -----------------------------------------------------------------

  /** A runtime value. `Foreign` is any object that is none of the others. */
  datatype Value =
    | Nothing
    | Str(s: string)
    | Int(i: int)
    | Float(f: real)
    | Bool(b: bool)
    | Tuple(items: seq<Value>)
    | List(elements: seq<Value>)
    | Dict(pairs: seq<Pair>)
    | Foreign

  /** A dictionary item, in insertion order. A key is a string or something else. */
  datatype Pair = Pair(key: Option<string>, value: Value)

  /** `_sanitize_value`; `None` is the unsafe marker. Tuples become lists. */
  function Sanitize(v: Value): Option<Value>
    decreases v
  {
    match v
    case Tuple(items) =>
      (match SanitizeAll(items)
       case None => None
       case Some(r) => Some(List(r)))
    case List(items) =>
      (match SanitizeAll(items)
       case None => None
       case Some(r) => Some(List(r)))
    case Dict(pairs) =>
      (match SanitizePairs(pairs)
       case None => None
       case Some(r) => Some(Dict(r)))
    case Foreign => None
    case _ => Some(v)
  }

  function SanitizeAll(items: seq<Value>): Option<seq<Value>>
    decreases items
  {
    if items == [] then Some([])
    else
      match Sanitize(items[0])
      case None => None
      case Some(first) =>
        match SanitizeAll(items[1..])
        case None => None
        case Some(rest) => Some([first] + rest)
  }

  function SanitizePairs(pairs: seq<Pair>): Option<seq<Pair>>
    decreases pairs
  {
    if pairs == [] then Some([])
    else
      match SanitizePair(pairs[0])
      case None => None
      case Some(first) =>
        match SanitizePairs(pairs[1..])
        case None => None
        case Some(rest) => Some([first] + rest)
  }

  function SanitizePair(pair: Pair): Option<Pair>
    decreases pair
  {
    if pair.key.None? then None
    else
      match Sanitize(pair.value)
      case None => None
      case Some(value) => Some(Pair(pair.key, value))
  }

  /** No foreign object and no non-string key anywhere inside. */
  predicate Safe(v: Value)
    decreases v
  {
    match v
    case Tuple(items) => forall i :: 0 <= i < |items| ==> Safe(items[i])
    case List(items) => forall i :: 0 <= i < |items| ==> Safe(items[i])
    case Dict(pairs) => forall i :: 0 <= i < |pairs| ==> pairs[i].key.Some? && Safe(pairs[i].value)
    case Foreign => false
    case _ => true
  }

  /** Safe, and no tuple anywhere inside. */
  predicate Clean(v: Value)
    decreases v
  {
    match v
    case Tuple(_) => false
    case List(items) => forall i :: 0 <= i < |items| ==> Clean(items[i])
    case Dict(pairs) => forall i :: 0 <= i < |pairs| ==> pairs[i].key.Some? && Clean(pairs[i].value)
    case Foreign => false
    case _ => true
  }

  /** Sanitising succeeds exactly on safe values, yields clean ones and leaves exactly the clean ones alone. */
  lemma {:induction false} SanitizeMeaning(v: Value)
    ensures Sanitize(v).Some? <==> Safe(v)
    ensures Sanitize(v).Some? ==> Clean(Sanitize(v).value)
    ensures Sanitize(v) == Some(v) <==> Clean(v)
    decreases v
  {
    match v
    case Tuple(items) => SanitizeAllMeaning(items);
    case List(items) => SanitizeAllMeaning(items);
    case Dict(pairs) => SanitizePairsMeaning(pairs);
    case _ =>
  }

  lemma {:induction false} SanitizeAllMeaning(items: seq<Value>)
    ensures SanitizeAll(items).Some? <==> forall i :: 0 <= i < |items| ==> Safe(items[i])
    ensures SanitizeAll(items).Some? ==>
              |SanitizeAll(items).value| == |items| && forall i :: 0 <= i < |items| ==> Clean(SanitizeAll(items).value[i])
    ensures SanitizeAll(items) == Some(items) <==> forall i :: 0 <= i < |items| ==> Clean(items[i])
    decreases items
  {
    if items != [] {
      SanitizeMeaning(items[0]);
      SanitizeAllMeaning(items[1..]);
      assert items == [items[0]] + items[1..];
      assert forall i :: 1 <= i < |items| ==> items[i] == items[1..][i - 1];
    }
  }

  lemma {:induction false} SanitizePairsMeaning(pairs: seq<Pair>)
    ensures SanitizePairs(pairs).Some? <==> forall i :: 0 <= i < |pairs| ==> pairs[i].key.Some? && Safe(pairs[i].value)
    ensures SanitizePairs(pairs).Some? ==>
              var r := SanitizePairs(pairs).value;
              |r| == |pairs| && forall i :: 0 <= i < |pairs| ==> r[i].key == pairs[i].key && r[i].key.Some? && Clean(r[i].value)
    ensures SanitizePairs(pairs) == Some(pairs) <==>
            forall i :: 0 <= i < |pairs| ==> pairs[i].key.Some? && Clean(pairs[i].value)
    decreases pairs
  {
    if pairs != [] {
      SanitizePairMeaning(pairs[0]);
      SanitizePairsMeaning(pairs[1..]);
      assert pairs == [pairs[0]] + pairs[1..];
      assert forall i :: 1 <= i < |pairs| ==> pairs[i] == pairs[1..][i - 1];
    }
  }

  lemma {:induction false} SanitizePairMeaning(pair: Pair)
    ensures SanitizePair(pair).Some? <==> pair.key.Some? && Safe(pair.value)
    ensures SanitizePair(pair).Some? ==> SanitizePair(pair).value.key == pair.key && Clean(SanitizePair(pair).value.value)
    ensures SanitizePair(pair) == Some(pair) <==> pair.key.Some? && Clean(pair.value)
    decreases pair
  {
    SanitizeMeaning(pair.value);
  }

  /** The same value but for tuples that became lists. */
  predicate MirrorOf(v: Value, w: Value)
    decreases v
  {
    match v
    case Tuple(items) => w.List? && AllMirror(items, w.elements)
    case List(items) => w.List? && AllMirror(items, w.elements)
    case Dict(pairs) =>
      w.Dict? && |w.pairs| == |pairs|
      && forall i :: 0 <= i < |pairs| ==> w.pairs[i].key == pairs[i].key && MirrorOf(pairs[i].value, w.pairs[i].value)
    case _ => w == v
  }

  predicate AllMirror(vs: seq<Value>, ws: seq<Value>)
    decreases vs
  {
    |vs| == |ws| && forall i :: 0 <= i < |vs| ==> MirrorOf(vs[i], ws[i])
  }

  /** Sanitising changes nothing else: same items in the same order, same keys. */
  lemma {:induction false} SanitizeMirrors(v: Value)
    requires Sanitize(v).Some?
    ensures MirrorOf(v, Sanitize(v).value)
    decreases v
  {
    match v
    case Tuple(items) => SanitizeAllMirrors(items);
    case List(items) => SanitizeAllMirrors(items);
    case Dict(pairs) => SanitizePairsMirror(pairs);
    case _ =>
  }

  lemma {:induction false} SanitizeAllMirrors(items: seq<Value>)
    requires SanitizeAll(items).Some?
    ensures AllMirror(items, SanitizeAll(items).value)
    decreases items
  {
    if items != [] {
      SanitizeMirrors(items[0]);
      SanitizeAllMirrors(items[1..]);
      var rest := SanitizeAll(items[1..]).value;
      assert forall i :: 1 <= i < |items| ==> items[i] == items[1..][i - 1];
    }
  }

  lemma {:induction false} SanitizePairsMirror(pairs: seq<Pair>)
    requires SanitizePairs(pairs).Some?
    ensures var r := SanitizePairs(pairs).value;
            |r| == |pairs| && forall i :: 0 <= i < |pairs| ==> r[i].key == pairs[i].key && MirrorOf(pairs[i].value, r[i].value)
    decreases pairs
  {
    if pairs != [] {
      SanitizePairMirrors(pairs[0]);
      SanitizePairsMirror(pairs[1..]);
      assert forall i :: 1 <= i < |pairs| ==> pairs[i] == pairs[1..][i - 1];
    }
  }

  lemma {:induction false} SanitizePairMirrors(pair: Pair)
    requires SanitizePair(pair).Some?
    ensures SanitizePair(pair).value.key == pair.key && MirrorOf(pair.value, SanitizePair(pair).value.value)
    decreases pair
  {
    SanitizeMirrors(pair.value);
  }

  /** Sanitising twice is sanitising once. */
  lemma SanitizeIsIdempotent(v: Value)
    requires Sanitize(v).Some?
    ensures Sanitize(Sanitize(v).value) == Sanitize(v)
  {
    SanitizeMeaning(v);
    SanitizeMeaning(Sanitize(v).value);
  }

  // ---- schema validation -----------------------------------------------------------------

  datatype Spec = Spec(
    name: string,
    parameterType: string,
    required: bool,
    allowed: seq<Value>,
    minValue: Option<real>,
    maxValue: Option<real>,
    minLength: Option<nat>,
    maxLength: Option<nat>,
    allowEmpty: bool
  )

  datatype Error =
    | UnexpectedArgument(name: string)
    | MissingArgument(name: string)
    | UnsupportedType(name: string)
    | WrongType(name: string)
    | NotAllowed(name: string)
    | BelowMinimum(name: string)
    | AboveMaximum(name: string)
    | EmptyValue(name: string)
    | TooShort(name: string)
    | TooLong(name: string)
    | UnsafeValue(name: string)

  predicate Supported(parameterType: string) {
    parameterType in {"str", "int", "float", "bool", "dict", "list"}
  }

  /** `_matches_expected_type`: an int is a float, a bool is neither, a tuple is no list. */
  predicate Matches(v: Value, parameterType: string) {
    match v
    case Str(_) => parameterType == "str"
    case Int(_) => parameterType == "int" || parameterType == "float"
    case Float(_) => parameterType == "float"
    case Bool(_) => parameterType == "bool"
    case Dict(_) => parameterType == "dict"
    case List(_) => parameterType == "list"
    case _ => false
  }

  /** `float(value)` of a number or truth value. */
  function Numeric(v: Value): Option<real> {
    match v
    case Int(i) => Some(i as real)
    case Float(f) => Some(f)
    case Bool(b) => Some(if b then 1.0 else 0.0)
    case _ => None
  }

  function Length(v: Value): Option<nat> {
    match v
    case Str(s) => Some(|s|)
    case List(items) => Some(|items|)
    case Dict(pairs) => Some(|pairs|)
    case _ => None
  }

  /** Value equality of the runtime (1, 1.0 and true are equal, for one). */
  type Equality = (Value, Value) -> bool

  predicate Among(eq: Equality, v: Value, allowed: seq<Value>) {
    exists i :: 0 <= i < |allowed| && eq(v, allowed[i])
  }

  /** The checks on one present argument, in the source's order: an error, or the sanitised value. */
  datatype Checked = Accepted(value: Value) | Rejected(error: Error)

  function Check(eq: Equality, spec: Spec, v: Value): Checked {
    if !Supported(spec.parameterType) then Rejected(UnsupportedType(spec.name))
    else if !Matches(v, spec.parameterType) then Rejected(WrongType(spec.name))
    else if spec.allowed != [] && !Among(eq, v, spec.allowed) then Rejected(NotAllowed(spec.name))
    else if Numeric(v).Some? && spec.minValue.Some? && Numeric(v).value < spec.minValue.value then
      Rejected(BelowMinimum(spec.name))
    else if Numeric(v).Some? && spec.maxValue.Some? && Numeric(v).value > spec.maxValue.value then
      Rejected(AboveMaximum(spec.name))
    else if Length(v) == Some(0) && !spec.allowEmpty then Rejected(EmptyValue(spec.name))
    else if Length(v).Some? && spec.minLength.Some? && Length(v).value < spec.minLength.value then
      Rejected(TooShort(spec.name))
    else if Length(v).Some? && spec.maxLength.Some? && Length(v).value > spec.maxLength.value then
      Rejected(TooLong(spec.name))
    else
      match Sanitize(v)
      case None => Rejected(UnsafeValue(spec.name))
      case Some(safe) => Accepted(safe)
  }

  type Arguments = map<string, Value>

  function Names(schema: seq<Spec>): set<string> { set spec | spec in schema :: spec.name }

  /** Errors and sanitised arguments of the schema's specs, in order. */
  function Scan(eq: Equality, schema: seq<Spec>, args: Arguments): (seq<Error>, Arguments) {
    if schema == [] then ([], map[])
    else
      var (errors, sanitized) := Scan(eq, schema[..|schema| - 1], args);
      var spec := schema[|schema| - 1];
      if spec.name !in args then
        (if spec.required then (errors + [MissingArgument(spec.name)], sanitized) else (errors, sanitized))
      else
        match Check(eq, spec, args[spec.name])
        case Rejected(error) => (errors + [error], sanitized)
        case Accepted(safe) => (errors, sanitized[spec.name := safe])
  }

  datatype Validation = Validation(valid: bool, sanitized: Arguments)

  /** `validate`, up to the wording of the errors. */
  function Validate(eq: Equality, schema: seq<Spec>, args: Arguments): Validation {
    var (errors, sanitized) := Scan(eq, schema, args);
    Validation(args.Keys <= Names(schema) && errors == [], sanitized)
  }

  /** The loop of `validate`; `sorted` puts the unexpected names first, in some order. */
  method RunValidation(eq: Equality, schema: seq<Spec>, args: Arguments, unexpected: seq<string>)
    returns (valid: bool, errors: seq<Error>, sanitized: Arguments)
    requires forall n :: n in unexpected <==> n in args && n !in Names(schema)
    ensures valid == (errors == [])
    ensures Validation(valid, sanitized) == Validate(eq, schema, args)
    ensures |errors| == |unexpected| + |Scan(eq, schema, args).0|
    ensures forall n :: n in args && n !in Names(schema) ==> UnexpectedArgument(n) in errors
  {
    errors, sanitized := [], map[];
    for i := 0 to |unexpected|
      invariant |errors| == i
      invariant forall j :: 0 <= j < i ==> errors[j] == UnexpectedArgument(unexpected[j])
    {
      errors := errors + [UnexpectedArgument(unexpected[i])];
    }
    ghost var prefix := errors;
    for i := 0 to |schema|
      invariant errors == prefix + Scan(eq, schema[..i], args).0
      invariant sanitized == Scan(eq, schema[..i], args).1
    {
      hide Check, Names;
      assert schema[..i + 1][..i] == schema[..i];
      var spec := schema[i];
      if spec.required && spec.name !in args {
        errors := errors + [MissingArgument(spec.name)];
        continue;
      }
      if spec.name !in args {
        continue;
      }
      var checked := Check(eq, spec, args[spec.name]);
      if checked.Rejected? {
        errors := errors + [checked.error];
        continue;
      }
      sanitized := sanitized[spec.name := checked.value];
    }
    assert schema[..|schema|] == schema;
    valid := errors == [];
    assert forall j :: 0 <= j < |unexpected| ==> errors[j] == UnexpectedArgument(unexpected[j]);
    forall n | n in args && n !in Names(schema) ensures UnexpectedArgument(n) in errors {
      var j :| 0 <= j < |unexpected| && unexpected[j] == n;
      assert errors[j] == UnexpectedArgument(n);
    }
    assert unexpected == [] <==> args.Keys <= Names(schema) by {
      if unexpected != [] {
        assert unexpected[0] in args && unexpected[0] !in Names(schema);
      } else {
        assert forall n :: n in args ==> n in Names(schema);
      }
    }
  }

  // ---- what a valid invocation is ------------------------------------------------------------

  /** An int is a float, a bool is neither, and a tuple is no list. */
  predicate IsOfType(v: Value, parameterType: string) {
    match parameterType
    case "str" => v.Str?
    case "int" => v.Int?
    case "float" => v.Int? || v.Float?
    case "bool" => v.Bool?
    case "dict" => v.Dict?
    case "list" => v.List?
    case _ => false
  }

  /** Numbers are bounded, and truth values like 0 and 1. */
  predicate NotBelow(v: Value, least: real) {
    && (v.Int? ==> v.i as real >= least)
    && (v.Float? ==> v.f >= least)
    && (v.Bool? && least > 0.0 ==> v.b && least <= 1.0)
  }

  predicate NotAbove(v: Value, most: real) {
    && (v.Int? ==> v.i as real <= most)
    && (v.Float? ==> v.f <= most)
    && (v.Bool? && most < 1.0 ==> !v.b && most >= 0.0)
  }

  /** Strings, lists and dictionaries have a length. */
  predicate NotEmpty(v: Value) { v != Str("") && v != List([]) && v != Dict([]) }

  predicate NotShorter(v: Value, least: int) {
    (v.Str? ==> |v.s| >= least) && (v.List? ==> |v.elements| >= least) && (v.Dict? ==> |v.pairs| >= least)
  }

  predicate NotLonger(v: Value, most: int) {
    (v.Str? ==> |v.s| <= most) && (v.List? ==> |v.elements| <= most) && (v.Dict? ==> |v.pairs| <= most)
  }

  /** The argument meets its spec. */
  predicate Conforms(eq: Equality, spec: Spec, v: Value) {
    && IsOfType(v, spec.parameterType)
    && (spec.allowed != [] ==> Among(eq, v, spec.allowed))
    && (spec.minValue.Some? ==> NotBelow(v, spec.minValue.value))
    && (spec.maxValue.Some? ==> NotAbove(v, spec.maxValue.value))
    && (!spec.allowEmpty ==> NotEmpty(v))
    && (spec.minLength.Some? ==> NotShorter(v, spec.minLength.value))
    && (spec.maxLength.Some? ==> NotLonger(v, spec.maxLength.value))
    && Safe(v)
  }

  lemma CheckMeaning(eq: Equality, spec: Spec, v: Value)
    ensures Check(eq, spec, v).Accepted? <==> Conforms(eq, spec, v)
    ensures Check(eq, spec, v).Accepted? ==> Sanitize(v) == Some(Check(eq, spec, v).value)
  {
    SanitizeMeaning(v);
  }

  /** The error names the spec and says something true of its argument. */
  predicate Blames(eq: Equality, spec: Spec, args: Arguments, e: Error) {
    && e.name == spec.name
    && if spec.name !in args then e.MissingArgument? && spec.required
       else
         var v := args[spec.name];
         match e
         case UnsupportedType(_) => !Supported(spec.parameterType)
         case WrongType(_) => !IsOfType(v, spec.parameterType)
         case NotAllowed(_) => spec.allowed != [] && !Among(eq, v, spec.allowed)
         case BelowMinimum(_) => spec.minValue.Some? && !NotBelow(v, spec.minValue.value)
         case AboveMaximum(_) => spec.maxValue.Some? && !NotAbove(v, spec.maxValue.value)
         case EmptyValue(_) => !spec.allowEmpty && !NotEmpty(v)
         case TooShort(_) => spec.minLength.Some? && !NotShorter(v, spec.minLength.value)
         case TooLong(_) => spec.maxLength.Some? && !NotLonger(v, spec.maxLength.value)
         case UnsafeValue(_) => !Safe(v)
         case _ => false
  }

  /** Exactly the specs that are not met are reported, in order, each for a reason that holds. */
  lemma {:induction false} ErrorsAreTrue(eq: Equality, schema: seq<Spec>, args: Arguments)
    ensures var errors := Scan(eq, schema, args).0;
            var unmet := Unmet(eq, schema, args);
            |errors| == |unmet| && forall i :: 0 <= i < |errors| ==> Blames(eq, unmet[i], args, errors[i])
  {
    if schema != [] {
      var front, spec := schema[..|schema| - 1], schema[|schema| - 1];
      ErrorsAreTrue(eq, front, args);
      CheckBlames(eq, spec, args);
      hide Check, Blames, Conforms;
    }
  }

  function Unmet(eq: Equality, schema: seq<Spec>, args: Arguments): seq<Spec> {
    if schema == [] then []
    else
      var spec := schema[|schema| - 1];
      Unmet(eq, schema[..|schema| - 1], args) + if Meets(eq, spec, args) then [] else [spec]
  }

  lemma CheckBlames(eq: Equality, spec: Spec, args: Arguments)
    ensures spec.name in args ==> (Check(eq, spec, args[spec.name]).Accepted? <==> Meets(eq, spec, args))
    ensures spec.name in args && Check(eq, spec, args[spec.name]).Rejected? ==>
              Blames(eq, spec, args, Check(eq, spec, args[spec.name]).error)
    ensures spec.name !in args && spec.required ==> Blames(eq, spec, args, MissingArgument(spec.name))
  {
    if spec.name in args {
      CheckMeaning(eq, spec, args[spec.name]);
      SanitizeMeaning(args[spec.name]);
    }
  }

  predicate Meets(eq: Equality, spec: Spec, args: Arguments) {
    if spec.name in args then Conforms(eq, spec, args[spec.name]) else !spec.required
  }

  lemma {:induction false} ScanMeaning(eq: Equality, schema: seq<Spec>, args: Arguments)
    ensures var (errors, sanitized) := Scan(eq, schema, args);
            && (errors == [] <==> forall i :: 0 <= i < |schema| ==> Meets(eq, schema[i], args))
            && (forall n :: n in sanitized ==> n in args && n in Names(schema) && Sanitize(args[n]) == Some(sanitized[n]))
            && (errors == [] ==> forall n :: n in args && n in Names(schema) ==> n in sanitized)
  {
    hide Conforms, Sanitize, Check;
    if schema != [] {
      var front, spec := schema[..|schema| - 1], schema[|schema| - 1];
      ScanMeaning(eq, front, args);
      assert schema == front + [spec];
      assert Names(schema) == Names(front) + {spec.name} by {
        assert forall s :: s in schema <==> s in front || s == spec;
        NamesAppend(front, spec);
      }
      if spec.name in args {
        CheckMeaning(eq, spec, args[spec.name]);
      }
    }
  }

  lemma NamesAppend(front: seq<Spec>, spec: Spec)
    ensures Names(front + [spec]) == Names(front) + {spec.name}
  {
    var schema := front + [spec];
    assert spec in schema;
    forall n | n in Names(front) ensures n in Names(schema) {
      var s :| s in front && s.name == n;
      assert s in schema;
    }
  }

  /**
   * An invocation is valid exactly when every argument is declared, every
   * required one is present and every present one conforms; then each
   * argument, and nothing else, is passed on in sanitised form.
   */
  lemma ValidateMeaning(eq: Equality, schema: seq<Spec>, args: Arguments)
    ensures var v := Validate(eq, schema, args);
            && (v.valid <==>
                  && args.Keys <= Names(schema)
                  && forall i :: 0 <= i < |schema| ==> Meets(eq, schema[i], args))
            && (v.valid ==>
                  && v.sanitized.Keys == args.Keys
                  && forall n :: n in args ==> Sanitize(args[n]) == Some(v.sanitized[n]) && Clean(v.sanitized[n]))
  {
    hide Meets, Sanitize, Clean;
    ScanMeaning(eq, schema, args);
    var v := Validate(eq, schema, args);
    if v.valid {
      forall n | n in args ensures n in v.sanitized && Clean(v.sanitized[n]) {
        assert n in Names(schema);
        SanitizeMeaning(args[n]);
      }
      assert v.sanitized.Keys == args.Keys;
    }
  }

  /** Sanitising keeps type, numeric value and length, unless it turns a tuple into a list. */
  lemma SanitizeKeepsShape(v: Value)
    requires Safe(v) && !v.Tuple?
    ensures Sanitize(v).Some?
    ensures var w := Sanitize(v).value;
            && Safe(w)
            && Numeric(w) == Numeric(v) && Length(w) == Length(v)
            && forall t :: IsOfType(w, t) == IsOfType(v, t)
  {
    hide Safe, Clean;
    SanitizeMeaning(v);
    SanitizeMeaning(Sanitize(v).value);
    match v {
      case List(items) => SanitizeAllMeaning(items);
      case Dict(pairs) => SanitizePairsMeaning(pairs);
      case _ =>
    }
  }

  /** Of a valid argument only the allow-list can reject the sanitised form. */
  lemma SanitizedConformsIff(eq: Equality, spec: Spec, v: Value)
    requires Conforms(eq, spec, v)
    ensures Sanitize(v).Some?
    ensures Conforms(eq, spec, Sanitize(v).value) <==> (spec.allowed == [] || Among(eq, Sanitize(v).value, spec.allowed))
  {
    SanitizeKeepsShape(v);
  }

  /** What a handler receives would pass validation again, unchanged, exactly when the allow-lists admit the sanitised values. */
  lemma RevalidationIff(eq: Equality, schema: seq<Spec>, args: Arguments)
    requires Validate(eq, schema, args).valid
    ensures var once := Validate(eq, schema, args).sanitized;
            && once.Keys == args.Keys
            && (Validate(eq, schema, once) == Validation(true, once) <==>
                  forall i :: 0 <= i < |schema| && schema[i].name in args ==>
                    schema[i].allowed == [] || Among(eq, once[schema[i].name], schema[i].allowed))
  {
    hide Sanitize, Conforms, Scan, Among;
    var once := Validate(eq, schema, args).sanitized;
    ValidateMeaning(eq, schema, args);
    ValidateMeaning(eq, schema, once);
    hide Validate;
    forall i | 0 <= i < |schema|
      ensures Meets(eq, schema[i], once) <==>
              (schema[i].name in args ==> schema[i].allowed == [] || Among(eq, once[schema[i].name], schema[i].allowed))
    {
      assert Meets(eq, schema[i], args);
      if schema[i].name in args {
        SanitizedConformsIff(eq, schema[i], args[schema[i].name]);
      }
    }
    var twice := Validate(eq, schema, once);
    if twice.valid {
      forall n | n in once ensures twice.sanitized[n] == once[n] {
        SanitizeIsIdempotent(args[n]);
      }
      assert twice.sanitized == once;
    }
  }

  /** It can fail under any equality that tells a tuple from a list: the allow-list holds the tuple, the handler gets the list. */
  lemma RevalidationCanFail(eq: Equality)
    requires eq(List([Tuple([])]), List([Tuple([])])) && !eq(List([List([])]), List([Tuple([])]))
    ensures var v := List([Tuple([])]);
            var schema := [Spec("x", "list", true, [v], None, None, None, None, true)];
            var once := Validate(eq, schema, map["x" := v]);
            once.valid && !Validate(eq, schema, once.sanitized).valid
  {
    var v := List([Tuple([])]);
    var spec := Spec("x", "list", true, [v], None, None, None, None, true);
    var schema := [spec];
    assert schema[..0] == [];
    assert SanitizeAll([]) == Some([]);
    assert [Tuple([])][1..] == [];
    assert [List([])] + [] == [List([])];
    assert SanitizeAll([Tuple([])]) == Some([List([])]);
    assert Sanitize(v) == Some(List([List([])]));
    assert spec.allowed[0] == v && Among(eq, v, spec.allowed);
    assert Check(eq, spec, v) == Accepted(List([List([])]));
    assert Scan(eq, schema, map["x" := v]) == ([], map["x" := List([List([])])]);
    assert spec in schema;
    var w := List([List([])]);
    assert w.elements[0] != v.elements[0];
    assert !Among(eq, w, spec.allowed);
    assert Scan(eq, schema, map["x" := w]).0 == [NotAllowed("x")];
  }
}
