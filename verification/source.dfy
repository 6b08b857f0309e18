/** src/SKSource.ts: the source union and its two-pass deserialiser.

    `SKSource.fromJSON` first checks only the base fields (`type`, `label`)
    while tolerating every other key, dispatches on the closed `type` tag, and
    then checks the base plus the chosen variant's fields with every other key
    refused. The built object copies the checked fields unchanged. */
module Sources {
  import opened Results
  import opened JsonValues
  import opened Validation

  /** The closed set of `type` tags. */
  const SourceTags: set<string> := {"NMEA2000", "NMEA0183", "I2C", "1W"}

  /** A built source, one constructor per domain class. `talker` is a string,
      as its schema demands at run time. */
  datatype SKSource =
    | N2K(sourceLabel: string, src: string, pgn: real, instance: Option<string>)
    | Nmea0183(sourceLabel: string, sentence: string, talker: string)
    | I2C(sourceLabel: string, src: string)
    | OneWire(sourceLabel: string, id: string)
  {
    /** The `type` each domain class passes to its base class. */
    function Type(): string {
      match this
      case N2K(_, _, _, _) => "NMEA2000"
      case Nmea0183(_, _, _) => "NMEA0183"
      case I2C(_, _) => "I2C"
      case OneWire(_, _) => "1W"
    }

    /** What the variant schemas demand of the fields: every string except
        `label` non-empty, `pgn` a positive integer. */
    predicate Valid() {
      match this
      case N2K(_, src, pgn, instance) =>
        src != "" && pgn > 0.0 && IsInteger(pgn) && (instance.Some? ==> instance.value != "")
      case Nmea0183(_, sentence, talker) => sentence != "" && talker != ""
      case I2C(_, src) => src != ""
      case OneWire(_, id) => id != ""
    }
  }

  /** The JSON object a source is read from: the base fields, the variant's
      fields, and `instance` only when the source has one. */
  function ToJson(s: SKSource): Json {
    var base := map["type" := JStr(s.Type()), "label" := JStr(s.sourceLabel)];
    match s
    case N2K(_, src, pgn, instance) =>
      var fields := base["src" := JStr(src)]["pgn" := JNum(pgn)];
      if instance.Some? then JObj(fields["instance" := JStr(instance.value)]) else JObj(fields)
    case Nmea0183(_, sentence, talker) => JObj(base["sentence" := JStr(sentence)]["talker" := JStr(talker)])
    case I2C(_, src) => JObj(base["src" := JStr(src)])
    case OneWire(_, id) => JObj(base["id" := JStr(id)])
  }

  /* The schemas, field by field as the classes declare them. */

  const BaseSchema: Schema := [Field("type", OneOf(SourceTags), true), Field("label", Str(true), true)]
  const N2KSchema: Schema :=
    [Field("src", Str(false), true), Field("pgn", PositiveInteger, true), Field("instance", Str(false), false)]
  const Nmea0183Schema: Schema := [Field("sentence", Str(false), true), Field("talker", Str(false), true)]
  const I2CSchema: Schema := [Field("src", Str(false), true)]
  const OneWireSchema: Schema := [Field("id", Str(false), true)]

  /** `SKBaseSource.schema.concat(schema)` */
  function WithBase(schema: Schema): Schema {
    BaseSchema + schema
  }

  /** The variant schema the dispatch chooses for a tag. */
  function VariantSchema(tag: string): Schema {
    if tag == "NMEA2000" then N2KSchema
    else if tag == "NMEA0183" then Nmea0183Schema
    else if tag == "I2C" then I2CSchema
    else if tag == "1W" then OneWireSchema
    else []
  }

  /* The type guards on JSON objects: they read the `type` property and
     nothing else. */

  predicate TypeIs(v: Json, tag: string) {
    Property(v, "type") == Some(JStr(tag))
  }

  predicate IsN2KSourceJson(v: Json) { TypeIs(v, "NMEA2000") }
  predicate IsNmea0183SourceJson(v: Json) { TypeIs(v, "NMEA0183") }
  predicate IsI2CSourceJson(v: Json) { TypeIs(v, "I2C") }
  predicate IsOneWireSourceJson(v: Json) { TypeIs(v, "1W") }

  /* The type guards on built sources. */

  predicate IsN2KSource(s: SKSource) { s.Type() == "NMEA2000" }
  predicate IsNmea0183Source(s: SKSource) { s.Type() == "NMEA0183" }
  predicate IsI2CSource(s: SKSource) { s.Type() == "I2C" }
  predicate IsOneWireSource(s: SKSource) { s.Type() == "1W" }

  predicate ExactlyOne(a: bool, b: bool, c: bool, d: bool) {
    (if a then 1 else 0) + (if b then 1 else 0) + (if c then 1 else 0) + (if d then 1 else 0) == 1
  }

  /* The schemas spelled out by hand, key by key. */

  predicate StrAt(o: map<string, Json>, key: string, allowEmpty: bool) {
    key in o && o[key].JStr? && (allowEmpty || o[key].s != "")
  }

  predicate BaseShape(o: map<string, Json>) {
    && "type" in o && o["type"].JStr? && o["type"].s in SourceTags
    && StrAt(o, "label", true)
  }

  predicate N2KShape(o: map<string, Json>) {
    && BaseShape(o)
    && o.Keys <= {"type", "label", "src", "pgn", "instance"}
    && StrAt(o, "src", false)
    && "pgn" in o && o["pgn"].JNum? && o["pgn"].n > 0.0 && IsInteger(o["pgn"].n)
    && ("instance" in o ==> StrAt(o, "instance", false))
  }

  predicate Nmea0183Shape(o: map<string, Json>) {
    && BaseShape(o)
    && o.Keys <= {"type", "label", "sentence", "talker"}
    && StrAt(o, "sentence", false)
    && StrAt(o, "talker", false)
  }

  predicate I2CShape(o: map<string, Json>) {
    && BaseShape(o)
    && o.Keys <= {"type", "label", "src"}
    && StrAt(o, "src", false)
  }

  predicate OneWireShape(o: map<string, Json>) {
    && BaseShape(o)
    && o.Keys <= {"type", "label", "id"}
    && StrAt(o, "id", false)
  }

  lemma BasePassMeaning(ext: Externals, v: Json)
    ensures Conforms(ext, v, BaseSchema, true) <==> v.JObj? && BaseShape(v.fields)
  {
    if v.JObj? && BaseShape(v.fields) {
      forall i | 0 <= i < |BaseSchema|
        ensures FieldOk(ext, v.fields, BaseSchema[i])
      {
      }
    }
    if Conforms(ext, v, BaseSchema, true) {
      assert FieldOk(ext, v.fields, BaseSchema[0]);
      assert FieldOk(ext, v.fields, BaseSchema[1]);
    }
  }

  lemma N2KPassMeaning(ext: Externals, v: Json)
    ensures Conforms(ext, v, WithBase(N2KSchema), false) <==> v.JObj? && N2KShape(v.fields)
  {
    var schema := WithBase(N2KSchema);
    assert schema == [BaseSchema[0], BaseSchema[1], N2KSchema[0], N2KSchema[1], N2KSchema[2]];
    assert Keys(schema) == {"type", "label", "src", "pgn", "instance"} by {
      assert schema[0].key == "type" && schema[1].key == "label" && schema[2].key == "src";
      assert schema[3].key == "pgn" && schema[4].key == "instance";
    }
    if Conforms(ext, v, schema, false) {
      assert FieldOk(ext, v.fields, schema[0]) && FieldOk(ext, v.fields, schema[1]);
      assert FieldOk(ext, v.fields, schema[2]) && FieldOk(ext, v.fields, schema[3]);
      assert FieldOk(ext, v.fields, schema[4]);
    }
  }

  lemma Nmea0183PassMeaning(ext: Externals, v: Json)
    ensures Conforms(ext, v, WithBase(Nmea0183Schema), false) <==> v.JObj? && Nmea0183Shape(v.fields)
  {
    var schema := WithBase(Nmea0183Schema);
    assert schema == [BaseSchema[0], BaseSchema[1], Nmea0183Schema[0], Nmea0183Schema[1]];
    assert Keys(schema) == {"type", "label", "sentence", "talker"} by {
      assert schema[0].key == "type" && schema[1].key == "label";
      assert schema[2].key == "sentence" && schema[3].key == "talker";
    }
    if Conforms(ext, v, schema, false) {
      assert FieldOk(ext, v.fields, schema[0]) && FieldOk(ext, v.fields, schema[1]);
      assert FieldOk(ext, v.fields, schema[2]) && FieldOk(ext, v.fields, schema[3]);
    }
  }

  lemma I2CPassMeaning(ext: Externals, v: Json)
    ensures Conforms(ext, v, WithBase(I2CSchema), false) <==> v.JObj? && I2CShape(v.fields)
  {
    var schema := WithBase(I2CSchema);
    assert schema == [BaseSchema[0], BaseSchema[1], I2CSchema[0]];
    assert Keys(schema) == {"type", "label", "src"} by {
      assert schema[0].key == "type" && schema[1].key == "label" && schema[2].key == "src";
    }
    if Conforms(ext, v, schema, false) {
      assert FieldOk(ext, v.fields, schema[0]) && FieldOk(ext, v.fields, schema[1]);
      assert FieldOk(ext, v.fields, schema[2]);
    }
  }

  lemma OneWirePassMeaning(ext: Externals, v: Json)
    ensures Conforms(ext, v, WithBase(OneWireSchema), false) <==> v.JObj? && OneWireShape(v.fields)
  {
    var schema := WithBase(OneWireSchema);
    assert schema == [BaseSchema[0], BaseSchema[1], OneWireSchema[0]];
    assert Keys(schema) == {"type", "label", "id"} by {
      assert schema[0].key == "type" && schema[1].key == "label" && schema[2].key == "id";
    }
    if Conforms(ext, v, schema, false) {
      assert FieldOk(ext, v.fields, schema[0]) && FieldOk(ext, v.fields, schema[1]);
      assert FieldOk(ext, v.fields, schema[2]);
    }
  }

  /** SKSource.fromJSON: the base pass, tolerating unknown keys, then the
      dispatch. */
  function SourceFromJson(ext: Externals, input: Json): Result<SKSource> {
    var obj :- ParseAndValidate(ext, input, BaseSchema, true);
    Dispatch(ext, obj)
  }

  /** The if-chain on the JSON type guards: the chosen variant's pass, with
      unknown keys refused, then the domain object from the checked fields. */
  function Dispatch(ext: Externals, obj: Json): Result<SKSource> {
    if IsN2KSourceJson(obj) then
      var n2k :- ParseAndValidate(ext, obj, WithBase(N2KSchema), false);
      N2KPassMeaning(ext, n2k);
      var f := n2k.fields;
      Success(N2K(f["label"].s, f["src"].s, f["pgn"].n,
                  if "instance" in f then Some(f["instance"].s) else None))
    else if IsNmea0183SourceJson(obj) then
      var nmea :- ParseAndValidate(ext, obj, WithBase(Nmea0183Schema), false);
      Nmea0183PassMeaning(ext, nmea);
      Success(Nmea0183(nmea.fields["label"].s, nmea.fields["sentence"].s, nmea.fields["talker"].s))
    else if IsI2CSourceJson(obj) then
      var i2c :- ParseAndValidate(ext, obj, WithBase(I2CSchema), false);
      I2CPassMeaning(ext, i2c);
      Success(I2C(i2c.fields["label"].s, i2c.fields["src"].s))
    else if IsOneWireSourceJson(obj) then
      var oneWire :- ParseAndValidate(ext, obj, WithBase(OneWireSchema), false);
      OneWirePassMeaning(ext, oneWire);
      Success(OneWire(oneWire.fields["label"].s, oneWire.fields["id"].s))
    else
      Failure(UnexpectedObject)
  }

  /* Properties of the deserialiser. */

  /** A built source is valid, and the (parsed) input was exactly the object
      that encodes it: `type` is the input's tag, every field is copied
      unchanged, an absent `instance` stays absent, and no other key was
      present. */
  lemma SourceFromJsonSound(ext: Externals, input: Json)
    ensures SourceFromJson(ext, input).Success? ==>
      && SourceFromJson(ext, input).value.Valid()
      && ParseInput(ext, input) == Success(ToJson(SourceFromJson(ext, input).value))
  {
    var r := SourceFromJson(ext, input);
    if r.Success? {
      var v := ParseInput(ext, input).value;
      var o := v.fields;
      var s := r.value;
      if IsN2KSourceJson(v) {
        N2KPassMeaning(ext, v);
        assert o == ToJson(s).fields;
      } else if IsNmea0183SourceJson(v) {
        Nmea0183PassMeaning(ext, v);
        assert o == ToJson(s).fields;
      } else if IsI2CSourceJson(v) {
        I2CPassMeaning(ext, v);
        assert o == ToJson(s).fields;
      } else {
        OneWirePassMeaning(ext, v);
        assert o == ToJson(s).fields;
      }
    }
  }

  /** Every valid source is read back from its JSON object. */
  lemma SourceRoundTrip(ext: Externals, s: SKSource)
    requires s.Valid()
    ensures SourceFromJson(ext, ToJson(s)) == Success(s)
  {
    var v := ToJson(s);
    BasePassMeaning(ext, v);
    match s
    case N2K(_, _, _, _) => N2KPassMeaning(ext, v);
    case Nmea0183(_, _, _) => Nmea0183PassMeaning(ext, v);
    case I2C(_, _) => I2CPassMeaning(ext, v);
    case OneWire(_, _) => OneWirePassMeaning(ext, v);
  }

  /** Once the base pass accepts a value, exactly one of the four JSON type
      guards holds. */
  lemma BasePassSelectsOneBranch(ext: Externals, v: Json)
    requires ParseAndValidate(ext, v, BaseSchema, true).Success?
    ensures var obj := ParseAndValidate(ext, v, BaseSchema, true).value;
      ExactlyOne(IsN2KSourceJson(obj), IsNmea0183SourceJson(obj), IsI2CSourceJson(obj), IsOneWireSourceJson(obj))
  {
    BasePassMeaning(ext, ParseAndValidate(ext, v, BaseSchema, true).value);
  }

  /** The `assertNever` fallback of the dispatch is never reached. */
  lemma DispatchIsExhaustive(ext: Externals, input: Json)
    ensures SourceFromJson(ext, input) != Failure(UnexpectedObject)
  {
    var base := ParseAndValidate(ext, input, BaseSchema, true);
    if base.Success? {
      BasePassSelectsOneBranch(ext, input);
    }
  }

  /** The first pass refuses an object whose `type` is missing, not a string
      or outside the closed set, or whose `label` is missing or not a string,
      before any dispatch. */
  lemma BasePassRejects(ext: Externals, v: Json)
    requires v.JObj? && !BaseShape(v.fields)
    ensures ParseAndValidate(ext, v, BaseSchema, true) == Failure(SchemaError)
    ensures SourceFromJson(ext, v) == Failure(SchemaError)
  {
    BasePassMeaning(ext, v);
  }

  /** A key outside the base and the chosen variant passes the first pass but
      is refused by the second. */
  lemma VariantRefusesForeignKey(ext: Externals, v: Json, k: string)
    requires v.JObj? && BaseShape(v.fields)
    requires k in v.fields && k !in Keys(WithBase(VariantSchema(v.fields["type"].s)))
    ensures ParseAndValidate(ext, v, BaseSchema, true) == Success(v)
    ensures SourceFromJson(ext, v) == Failure(SchemaError)
  {
    BasePassMeaning(ext, v);
    var schema := WithBase(VariantSchema(v.fields["type"].s));
    assert !Conforms(ext, v, schema, false);
  }

  /** An I2C source carrying a `pgn` is refused. */
  lemma I2CWithPgnRefused(ext: Externals)
    ensures SourceFromJson(ext, JObj(map["type" := JStr("I2C"), "label" := JStr("I2C-0"),
                                         "src" := JStr("14"), "pgn" := JNum(127488.0)]))
         == Failure(SchemaError)
  {
    var v := JObj(map["type" := JStr("I2C"), "label" := JStr("I2C-0"), "src" := JStr("14"), "pgn" := JNum(127488.0)]);
    BasePassMeaning(ext, v);
    I2CPassMeaning(ext, v);
    assert !I2CShape(v.fields) by { assert "pgn" in v.fields; }
  }

  /** The NMEA 2000 source of the library's tests. */
  const TestN2KSourceJson: Json :=
    JObj(map["label" := JStr("N2000-01"), "type" := JStr("NMEA2000"), "src" := JStr("017"), "pgn" := JNum(127488.0)])

  /** The test source reads back with its fields unchanged and no
      `instance`. */
  lemma TestN2KSource(ext: Externals)
    ensures SourceFromJson(ext, TestN2KSourceJson) == Success(N2K("N2000-01", "017", 127488.0, None))
  {
    var s := N2K("N2000-01", "017", 127488.0, None);
    SourceRoundTrip(ext, s);
    assert ToJson(s) == TestN2KSourceJson;
  }

  /** `label` may be empty; the other strings may not. */
  lemma EmptyStrings(ext: Externals, name: string)
    ensures SourceFromJson(ext, ToJson(I2C("", "14"))) == Success(I2C("", "14"))
    ensures SourceFromJson(ext, ToJson(I2C(name, ""))) == Failure(SchemaError)
  {
    SourceRoundTrip(ext, I2C("", "14"));
    I2CPassMeaning(ext, ToJson(I2C(name, "")));
  }

  /** For every built source exactly one domain type guard holds, the one of
      its own class. */
  lemma DomainGuardsPartition(s: SKSource)
    ensures ExactlyOne(IsN2KSource(s), IsNmea0183Source(s), IsI2CSource(s), IsOneWireSource(s))
    ensures IsN2KSource(s) <==> s.N2K?
    ensures IsNmea0183Source(s) <==> s.Nmea0183?
    ensures IsI2CSource(s) <==> s.I2C?
    ensures IsOneWireSource(s) <==> s.OneWire?
  {
  }
}
