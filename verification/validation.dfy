/** The validation gateway of src/validation.ts and the slice of Joi that the
    deserialisers use.

    A Joi object schema is modelled as a list of fields, each with a rule that
    stands for one Joi chain of the library (`Joi.string().required()`,
    `Joi.number().positive().integer()`, ...). Only those chains are
    modelled, and only in Joi's strict reading: the conversions Joi performs
    by default (a numeric string for a number, JSON text for an object or
    array) are not. */
module Validation {
  import opened Results
  import opened JsonValues

  /** The one value kind of src/SKValue.ts, which is not part of this model:
      values are built by `Externals.valueFromJson`. */
  datatype SKValue = SKValue(path: string, value: Json)

  /** The collaborators whose code is not modelled, as parameters.
      - parse: `JSON.parse`; `None` when the text is not well-formed JSON.
      - isDateTime: the `rfc3339()` rule of RFC3339Validator (the date-time
        profile of section 5.6 of RFC 3339).
      - numberText: JavaScript's Number-to-string conversion.
      - valueFromJson: `SKValue.fromJSON`. */
  datatype Externals = Externals(
    parse: string -> Option<Json>,
    isDateTime: string -> bool,
    numberText: real -> string,
    valueFromJson: Json -> Result<SKValue>)

  /** One Joi chain as applied to a present key. */
  datatype Rule =
    | Str(allowEmpty: bool)                       // Joi.string(), with .allow('') when allowEmpty
    | OneOf(choices: set<string>)                 // Joi.string().equal(...choices)
    | PositiveInteger                             // Joi.number().positive().integer()
    | Object                                      // Joi.object()
    | Array(minLength: nat, objectItems: bool)    // Joi.array().min(n), with .items(Joi.object())
    | DateTime                                    // CustomJoi.string().rfc3339()
    | StrOrDefault(gen: map<string, Json> -> Result<string>)
                                                  // Joi.string().default(gen): gen runs on the parent when the key is absent

  datatype Field = Field(key: string, rule: Rule, required: bool)

  /** The fields of a Joi object schema, in declaration order. */
  type Schema = seq<Field>

  function Keys(schema: Schema): set<string> {
    set i | 0 <= i < |schema| :: schema[i].key
  }

  predicate Accepts(ext: Externals, rule: Rule, v: Json) {
    match rule
    case Str(allowEmpty) => v.JStr? && (allowEmpty || v.s != "")
    case OneOf(choices) => v.JStr? && v.s in choices
    case PositiveInteger => v.JNum? && v.n > 0.0 && IsInteger(v.n)
    case Object => v.JObj?
    case Array(minLength, objectItems) =>
      && v.JArr?
      && |v.items| >= minLength
      && (objectItems ==> forall i :: 0 <= i < |v.items| ==> v.items[i].JObj?)
    case DateTime => v.JStr? && v.s != "" && ext.isDateTime(v.s)
    case StrOrDefault(_) => v.JStr? && v.s != ""
  }

  /** An absent key passes unless it is required; a function default is
      still run, and its throwing is a validation error. */
  predicate FieldOk(ext: Externals, o: map<string, Json>, f: Field) {
    if f.key in o then Accepts(ext, f.rule, o[f.key])
    else !f.required && (f.rule.StrOrDefault? ==> f.rule.gen(o).Success?)
  }

  /** `Joi.validate(v, schema, { allowUnknown })` reports no error. */
  predicate Conforms(ext: Externals, v: Json, schema: Schema, allowUnknown: bool) {
    && v.JObj?
    && (forall i :: 0 <= i < |schema| ==> FieldOk(ext, v.fields, schema[i]))
    && (allowUnknown || forall k :: k in v.fields ==> k in Keys(schema))
  }

  /** `typeof json === 'string' ? JSON.parse(json) : json` */
  function ParseInput(ext: Externals, input: Json): (r: Result<Json>)
    ensures !input.JStr? ==> r == Success(input)
    ensures input.JStr? ==>
      (r.Failure? <==> ext.parse(input.s).None?) &&
      (r.Success? ==> ext.parse(input.s) == Some(r.value))
  {
    if input.JStr? then
      match ext.parse(input.s)
      case None => Failure(ParseError)
      case Some(v) => Success(v)
    else Success(input)
  }

  /** parseAndValidate: parse a string input, check the value against the
      schema, throw on a violation, and hand back the value that was checked,
      not Joi's validated copy, so no schema default reaches the caller. */
  function ParseAndValidate(ext: Externals, input: Json, schema: Schema, allowUnknown: bool): (r: Result<Json>)
    ensures ParseInput(ext, input).Failure? ==> r == Failure(ParseError)
    ensures ParseInput(ext, input).Success? ==>
      (r.Success? <==> Conforms(ext, ParseInput(ext, input).value, schema, allowUnknown))
    ensures r.Failure? ==> r.error == ParseError || r.error == SchemaError
    ensures r.Success? ==> r.value == input || (input.JStr? && ext.parse(input.s) == Some(r.value))
  {
    var v :- ParseInput(ext, input);
    if Conforms(ext, v, schema, allowUnknown) then Success(v) else Failure(SchemaError)
  }

  /** A string that parses to a non-string value is validated exactly as
      that value is. A string that parses to another string is the exception:
      the parsed string is not parsed a second time. */
  lemma {:induction false} StringAndParsedAgree(ext: Externals, s: string, schema: Schema, allowUnknown: bool)
    requires ext.parse(s).Some? && !ext.parse(s).value.JStr?
    ensures ParseAndValidate(ext, JStr(s), schema, allowUnknown)
         == ParseAndValidate(ext, ext.parse(s).value, schema, allowUnknown)
  {
  }

  /** A `concat` of object schemas checks both halves: a value that passes
      the whole passes each part once unknown keys are allowed. */
  lemma {:induction false} ConcatChecksBoth(ext: Externals, v: Json, a: Schema, b: Schema, allowUnknown: bool)
    requires Conforms(ext, v, a + b, allowUnknown)
    ensures Conforms(ext, v, a, true) && Conforms(ext, v, b, true)
  {
    forall i | 0 <= i < |a|
      ensures FieldOk(ext, v.fields, a[i])
    {
      assert a[i] == (a + b)[i];
    }
    forall i | 0 <= i < |b|
      ensures FieldOk(ext, v.fields, b[i])
    {
      assert b[i] == (a + b)[|a| + i];
    }
  }
}
