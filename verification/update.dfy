/** src/SKUpdate.ts: one timestamped batch of values from one source.

    The schema gives `$source` a function default, `generate$source`, which
    Joi runs on the raw update object when `$source` is absent; a throwing
    default is a validation error. Because parseAndValidate hands back the
    input and not Joi's copy, the derived identifier never reaches the built
    update: its `$source` is the input's own, if any. */
module Updates {
  import opened Results
  import opened JsonValues
  import opened Validation
  import opened Sources

  /** `$source` is `sourceRef` here; `timestamp` stays the checked string. */
  datatype SKUpdate = SKUpdate(
    sourceRef: Option<string>,
    timestamp: string,
    values: seq<SKValue>,
    source: Option<SKSource>)

  /** generate$source, on the raw update object it is handed. It reads the
      raw `source` through the JSON type guards and converts each property it
      reads as a template literal does. */
  function GenerateSourceRef(ext: Externals, context: map<string, Json>): Result<string> {
    if "source" !in context || !Truthy(context["source"]) then Failure(DerivationError)
    else
      var src := context["source"];
      var name := PropertyText(ext.numberText, src, "label");
      if IsN2KSourceJson(src) then
        var instance := Property(src, "instance");
        Success(name + "." + PropertyText(ext.numberText, src, "src")
                + (if instance.Some? && Truthy(instance.value) then "." + Text(ext.numberText, instance.value) else ""))
      else if IsNmea0183SourceJson(src) then Success(name + "." + PropertyText(ext.numberText, src, "talker"))
      else if IsI2CSourceJson(src) then Success(name + "." + PropertyText(ext.numberText, src, "src"))
      else if IsOneWireSourceJson(src) then Success(name + "." + PropertyText(ext.numberText, src, "id"))
      else Failure(UnexpectedObject)
  }

  /** The identifier of a built source: its label, a ".", and its identifying
      field; an N2K source with an instance adds "." and the instance. */
  function DeriveSourceRef(s: SKSource): string {
    match s
    case N2K(name, src, _, instance) =>
      name + "." + src + (if instance.Some? && instance.value != "" then "." + instance.value else "")
    case Nmea0183(name, _, talker) => name + "." + talker
    case I2C(name, src) => name + "." + src
    case OneWire(name, id) => name + "." + id
  }

  function UpdateSchema(ext: Externals): Schema {
    [ Field("timestamp", DateTime, true),
      Field("$source", StrOrDefault(context => GenerateSourceRef(ext, context)), false),
      Field("values", Array(1, true), true),
      Field("source", Object, false) ]
  }

  /** The update schema spelled out by hand. */
  predicate UpdateShape(ext: Externals, o: map<string, Json>) {
    && o.Keys <= {"timestamp", "$source", "values", "source"}
    && StrAt(o, "timestamp", false) && ext.isDateTime(o["timestamp"].s)
    && (if "$source" in o then StrAt(o, "$source", false) else GenerateSourceRef(ext, o).Success?)
    && "values" in o && o["values"].JArr? && |o["values"].items| >= 1
    && (forall i :: 0 <= i < |o["values"].items| ==> o["values"].items[i].JObj?)
    && ("source" in o ==> o["source"].JObj?)
  }

  lemma UpdatePassMeaning(ext: Externals, v: Json)
    ensures Conforms(ext, v, UpdateSchema(ext), false) <==> v.JObj? && UpdateShape(ext, v.fields)
  {
    var schema := UpdateSchema(ext);
    assert Keys(schema) == {"timestamp", "$source", "values", "source"} by {
      assert schema[0].key == "timestamp" && schema[1].key == "$source";
      assert schema[2].key == "values" && schema[3].key == "source";
    }
    if Conforms(ext, v, schema, false) {
      assert FieldOk(ext, v.fields, schema[0]) && FieldOk(ext, v.fields, schema[1]);
      assert FieldOk(ext, v.fields, schema[2]) && FieldOk(ext, v.fields, schema[3]);
    }
    if v.JObj? && UpdateShape(ext, v.fields) {
      forall i | 0 <= i < |schema|
        ensures FieldOk(ext, v.fields, schema[i])
      {
      }
    }
  }

  /** SKUpdate.fromJSON: the source is built before the values, so a bad
      source is the error reported when both are bad. */
  function UpdateFromJson(ext: Externals, input: Json): Result<SKUpdate> {
    var obj :- ParseAndValidate(ext, input, UpdateSchema(ext), false);
    UpdatePassMeaning(ext, obj);
    var o := obj.fields;
    var source :- (if "source" in o && Truthy(o["source"]) then
                     var s :- SourceFromJson(ext, o["source"]); Success(Some(s))
                   else Success(None));
    var values :- MapAll(ext.valueFromJson, o["values"].items);
    Success(SKUpdate(if "$source" in o then Some(o["$source"].s) else None, o["timestamp"].s, values, source))
  }

  /** When an update is accepted: the (parsed) input passes the schema, its
      source, if any, builds, and every value builds. */
  predicate UpdateAccepted(ext: Externals, input: Json) {
    && ParseInput(ext, input).Success?
    && var v := ParseInput(ext, input).value;
    && v.JObj? && UpdateShape(ext, v.fields)
    && ("source" in v.fields ==> SourceFromJson(ext, v.fields["source"]).Success?)
    && (forall i :: 0 <= i < |v.fields["values"].items| ==>
          ext.valueFromJson(v.fields["values"].items[i]).Success?)
  }

  /** An update is built exactly when it is accepted, and then it holds the
      input's own `$source` (absent stays absent), its timestamp string, one
      value per input value in input order, and its source built by
      SKSource.fromJSON, present exactly when the input has one. */
  lemma UpdateFromJsonSpec(ext: Externals, input: Json)
    ensures UpdateFromJson(ext, input).Success? <==> UpdateAccepted(ext, input)
    ensures UpdateAccepted(ext, input) ==>
      var u := UpdateFromJson(ext, input).value;
      var o := ParseInput(ext, input).value.fields;
      && u.sourceRef == (if "$source" in o then Some(o["$source"].s) else None)
      && u.timestamp == o["timestamp"].s
      && |u.values| == |o["values"].items|
      && (forall i :: 0 <= i < |u.values| ==> ext.valueFromJson(o["values"].items[i]) == Success(u.values[i]))
      && (u.source.Some? <==> "source" in o)
      && (u.source.Some? ==> SourceFromJson(ext, o["source"]) == Success(u.source.value))
  {
    var p := ParseAndValidate(ext, input, UpdateSchema(ext), false);
    if p.Success? {
      UpdatePassMeaning(ext, p.value);
    } else if ParseInput(ext, input).Success? {
      UpdatePassMeaning(ext, ParseInput(ext, input).value);
    }
  }

  /** A timestamp that is absent, null, not a string, empty, or not an
      RFC 3339 date-time fails the update. */
  lemma TimestampRequired(ext: Externals, o: map<string, Json>)
    requires !(StrAt(o, "timestamp", false) && ext.isDateTime(o["timestamp"].s))
    ensures UpdateFromJson(ext, JObj(o)) == Failure(SchemaError)
  {
    UpdatePassMeaning(ext, JObj(o));
  }

  /** `values` that is absent, not an array, empty, or holds a non-object
      fails the update. */
  lemma ValuesRequired(ext: Externals, o: map<string, Json>)
    requires !("values" in o && o["values"].JArr? && |o["values"].items| >= 1
               && forall i :: 0 <= i < |o["values"].items| ==> o["values"].items[i].JObj?)
    ensures UpdateFromJson(ext, JObj(o)) == Failure(SchemaError)
  {
    UpdatePassMeaning(ext, JObj(o));
  }

  /** Without `$source`, an update whose source is missing, falsy or of no
      recognised type fails: the derivation has no fallback. */
  lemma UnderivableSourceRefRefused(ext: Externals, o: map<string, Json>)
    requires "$source" !in o
    requires "source" !in o || !(TypeIs(o["source"], "NMEA2000") || TypeIs(o["source"], "NMEA0183")
                                  || TypeIs(o["source"], "I2C") || TypeIs(o["source"], "1W"))
    ensures GenerateSourceRef(ext, o).Failure?
    ensures UpdateFromJson(ext, JObj(o)) == Failure(SchemaError)
  {
    UpdatePassMeaning(ext, JObj(o));
  }

  /** On a source object that builds, the raw derivation agrees with the
      identifier of the built source. */
  lemma GenerateMatchesDerive(ext: Externals, context: map<string, Json>)
    requires "source" in context && context["source"].JObj?
    requires SourceFromJson(ext, context["source"]).Success?
    ensures GenerateSourceRef(ext, context) == Success(DeriveSourceRef(SourceFromJson(ext, context["source"]).value))
  {
    SourceFromJsonSound(ext, context["source"]);
  }

  /** An update built without `$source` still had a well-defined identifier:
      the derivation ran on a source that builds, and gave that source's
      identifier, though the update does not store it. */
  lemma DerivedRefOfAcceptedUpdate(ext: Externals, input: Json)
    requires UpdateFromJson(ext, input).Success?
    requires UpdateFromJson(ext, input).value.sourceRef.None?
    ensures UpdateFromJson(ext, input).value.source.Some?
    ensures GenerateSourceRef(ext, ParseInput(ext, input).value.fields)
         == Success(DeriveSourceRef(UpdateFromJson(ext, input).value.source.value))
  {
    UpdateFromJsonSpec(ext, input);
    var o := ParseInput(ext, input).value.fields;
    assert "source" in o by {
      if "source" !in o {
        UnderivableSourceRefRefused(ext, o);
      }
    }
    GenerateMatchesDerive(ext, o);
  }

  /** The identifiers the library's tests expect of their four sources. */
  lemma DeriveVectors()
    ensures DeriveSourceRef(N2K("N2000-01", "017", 127488.0, None)) == "N2000-01.017"
    ensures DeriveSourceRef(Nmea0183("NMEA0183-0", "RMC", "GP")) == "NMEA0183-0.GP"
    ensures DeriveSourceRef(I2C("I2C-0", "14")) == "I2C-0.14"
    ensures DeriveSourceRef(OneWire("1W-0", "28FF8C9560163C3")) == "1W-0.28FF8C9560163C3"
  {
  }

  /** On the JSON object of any valid source, the raw derivation gives that
      source's identifier. */
  lemma GenerateOnEncoding(ext: Externals, s: SKSource)
    requires s.Valid()
    ensures GenerateSourceRef(ext, map["source" := ToJson(s)]) == Success(DeriveSourceRef(s))
  {
    SourceRoundTrip(ext, s);
    GenerateMatchesDerive(ext, map["source" := ToJson(s)]);
  }

  /** The derivation on the raw test sources of the library's tests gives
      the identifiers they expect. */
  lemma GenerateVectors(ext: Externals)
    ensures GenerateSourceRef(ext, map["source" := ToJson(Nmea0183("NMEA0183-0", "RMC", "GP"))])
         == Success("NMEA0183-0.GP")
    ensures GenerateSourceRef(ext, map["source" := ToJson(I2C("I2C-0", "14"))]) == Success("I2C-0.14")
    ensures GenerateSourceRef(ext, map["source" := ToJson(OneWire("1W-0", "28FF8C9560163C3"))])
         == Success("1W-0.28FF8C9560163C3")
  {
    DeriveVectors();
    GenerateOnEncoding(ext, Nmea0183("NMEA0183-0", "RMC", "GP"));
    GenerateOnEncoding(ext, I2C("I2C-0", "14"));
    GenerateOnEncoding(ext, OneWire("1W-0", "28FF8C9560163C3"));
  }

  /** The separator is always there: the identifier starts with the label and
      a ".", so an empty label gives a leading "."; an N2K identifier ends in
      "." and the instance exactly when a non-empty instance is present. */
  lemma DeriveShape(s: SKSource)
    ensures s.sourceLabel + "." <= DeriveSourceRef(s)
    ensures s.sourceLabel == "" ==> DeriveSourceRef(s)[0] == '.'
    ensures s.N2K? ==>
      (DeriveSourceRef(s) == s.sourceLabel + "." + s.src
       <==> s.instance.None? || s.instance.value == "")
  {
  }

  /* The update of the library's tests. */

  const SpeedJson: Json := JObj(map["path" := JStr("navigation.speedOverGround"), "value" := JNum(16.341667)])
  const CourseJson: Json := JObj(map["path" := JStr("navigation.courseOverGround"), "value" := JNum(3.1)])
  const TestTimestamp: string := "2010-01-07T07:18:44Z"
  const TestUpdateJson: map<string, Json> :=
    map["source" := TestN2KSourceJson, "$source" := JStr("myboat.017"),
        "timestamp" := JStr(TestTimestamp), "values" := JArr([SpeedJson, CourseJson])]

  /** The test update keeps its explicit "myboat.017", although its source
      would derive "N2000-01.017", and keeps both values in order. */
  lemma TestUpdate(ext: Externals)
    requires ext.isDateTime(TestTimestamp)
    requires ext.valueFromJson(SpeedJson).Success? && ext.valueFromJson(CourseJson).Success?
    ensures UpdateFromJson(ext, JObj(TestUpdateJson))
         == Success(SKUpdate(Some("myboat.017"), TestTimestamp,
                             [ext.valueFromJson(SpeedJson).value, ext.valueFromJson(CourseJson).value],
                             Some(N2K("N2000-01", "017", 127488.0, None))))
  {
    var v := JObj(TestUpdateJson);
    TestN2KSource(ext);
    UpdatePassMeaning(ext, v);
    assert UpdateShape(ext, TestUpdateJson);
    UpdateFromJsonSpec(ext, v);
    var u := UpdateFromJson(ext, v).value;
    assert u.values == [ext.valueFromJson(SpeedJson).value, ext.valueFromJson(CourseJson).value];
  }

  /** The test update without `$source`: its source derives
      "N2000-01.017". */
  lemma TestDerivation(ext: Externals)
    ensures GenerateSourceRef(ext, TestUpdateJson - {"$source"}) == Success("N2000-01.017")
  {
    var o := TestUpdateJson - {"$source"};
    TestN2KSource(ext);
    assert o["source"] == TestN2KSourceJson;
    GenerateMatchesDerive(ext, o);
    assert DeriveSourceRef(N2K("N2000-01", "017", 127488.0, None)) == "N2000-01.017";
  }

  /** With `$source` removed, the test update is still accepted, because its
      source derives an identifier, and the built update has no `$source`. */
  lemma TestUpdateWithoutSourceRef(ext: Externals)
    requires ext.isDateTime(TestTimestamp)
    requires ext.valueFromJson(SpeedJson).Success? && ext.valueFromJson(CourseJson).Success?
    ensures UpdateFromJson(ext, JObj(TestUpdateJson - {"$source"})).Success?
    ensures UpdateFromJson(ext, JObj(TestUpdateJson - {"$source"})).value.sourceRef == None
  {
    var o := TestUpdateJson - {"$source"};
    TestDerivation(ext);
    TestN2KSource(ext);
    assert o["source"] == TestN2KSourceJson;
    assert UpdateAccepted(ext, JObj(o)) by {
      assert UpdateShape(ext, o);
      assert o["values"].items == [SpeedJson, CourseJson];
    }
    UpdateFromJsonSpec(ext, JObj(o));
  }
}
