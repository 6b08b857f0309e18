/** src/SKDelta.ts: the top-level entry point, a context and its updates.

    `context` is required by the schema: an absent context is refused, not
    replaced by "self". */
module Deltas {
  import opened Results
  import opened JsonValues
  import opened Validation
  import opened Sources
  import opened Updates

  /** `context` stands for SKContext, whose file is not part of this model. */
  datatype SKDelta = SKDelta(context: string, updates: seq<SKUpdate>)

  const DeltaSchema: Schema := [Field("context", Str(false), true), Field("updates", Array(1, false), true)]

  /** The delta schema spelled out by hand. */
  predicate DeltaShape(o: map<string, Json>) {
    && o.Keys <= {"context", "updates"}
    && StrAt(o, "context", false)
    && "updates" in o && o["updates"].JArr? && |o["updates"].items| >= 1
  }

  lemma DeltaPassMeaning(ext: Externals, v: Json)
    ensures Conforms(ext, v, DeltaSchema, false) <==> v.JObj? && DeltaShape(v.fields)
  {
    assert Keys(DeltaSchema) == {"context", "updates"} by {
      assert DeltaSchema[0].key == "context" && DeltaSchema[1].key == "updates";
    }
    if Conforms(ext, v, DeltaSchema, false) {
      assert FieldOk(ext, v.fields, DeltaSchema[0]) && FieldOk(ext, v.fields, DeltaSchema[1]);
    }
    if v.JObj? && DeltaShape(v.fields) {
      forall i | 0 <= i < |DeltaSchema|
        ensures FieldOk(ext, v.fields, DeltaSchema[i])
      {
      }
    }
  }

  /** SKDelta.fromJSON */
  function DeltaFromJson(ext: Externals, input: Json): Result<SKDelta> {
    var obj :- ParseAndValidate(ext, input, DeltaSchema, false);
    DeltaPassMeaning(ext, obj);
    var updates :- MapAll(u => UpdateFromJson(ext, u), obj.fields["updates"].items);
    Success(SKDelta(obj.fields["context"].s, updates))
  }

  /** When a delta is accepted: the (parsed) input passes the schema and
      every update builds. */
  predicate DeltaAccepted(ext: Externals, input: Json) {
    && ParseInput(ext, input).Success?
    && var v := ParseInput(ext, input).value;
    && v.JObj? && DeltaShape(v.fields)
    && (forall i :: 0 <= i < |v.fields["updates"].items| ==>
          UpdateFromJson(ext, v.fields["updates"].items[i]).Success?)
  }

  /** A delta is built exactly when it is accepted, and then its context is
      the input's, verbatim, and its updates are the input's, one for one, in
      order, each built by SKUpdate.fromJSON. */
  lemma DeltaFromJsonSpec(ext: Externals, input: Json)
    ensures DeltaFromJson(ext, input).Success? <==> DeltaAccepted(ext, input)
    ensures DeltaAccepted(ext, input) ==>
      var d := DeltaFromJson(ext, input).value;
      var o := ParseInput(ext, input).value.fields;
      && d.context == o["context"].s
      && |d.updates| == |o["updates"].items|
      && forall i :: 0 <= i < |d.updates| ==> UpdateFromJson(ext, o["updates"].items[i]) == Success(d.updates[i])
  {
    if ParseInput(ext, input).Success? {
      DeltaPassMeaning(ext, ParseInput(ext, input).value);
    }
  }

  /** A context that is absent, null, empty or not a string fails the delta:
      there is no "self" default. */
  lemma ContextRequired(ext: Externals, o: map<string, Json>)
    requires !StrAt(o, "context", false)
    ensures DeltaFromJson(ext, JObj(o)) == Failure(SchemaError)
  {
    DeltaPassMeaning(ext, JObj(o));
  }

  /** `updates` that is absent, not an array, or empty fails the delta. */
  lemma UpdatesRequired(ext: Externals, o: map<string, Json>)
    requires !("updates" in o && o["updates"].JArr? && |o["updates"].items| >= 1)
    ensures DeltaFromJson(ext, JObj(o)) == Failure(SchemaError)
  {
    DeltaPassMeaning(ext, JObj(o));
  }

  /** One failing update fails the whole delta, with the error of the first
      update that fails; no partial delta is returned. */
  lemma FailingUpdateFailsDelta(ext: Externals, o: map<string, Json>, k: nat)
    requires DeltaShape(o)
    requires k < |o["updates"].items| && UpdateFromJson(ext, o["updates"].items[k]).Failure?
    ensures DeltaFromJson(ext, JObj(o)).Failure?
    ensures exists i :: && 0 <= i <= k
                        && UpdateFromJson(ext, o["updates"].items[i]) == Failure(DeltaFromJson(ext, JObj(o)).error)
                        && forall j :: 0 <= j < i ==> UpdateFromJson(ext, o["updates"].items[j]).Success?
  {
    DeltaPassMeaning(ext, JObj(o));
    var items := o["updates"].items;
    var f := u => UpdateFromJson(ext, u);
    var r := MapAll(f, items);
    assert f(items[k]).Failure?;
    var i :| 0 <= i < |items| && f(items[i]) == Failure(r.error)
             && forall j :: 0 <= j < i ==> f(items[j]).Success?;
    assert i <= k;
    assert DeltaFromJson(ext, JObj(o)) == Failure(r.error);
    assert UpdateFromJson(ext, items[i]) == Failure(r.error);
  }

  /** JSON text and the object it parses to give the same delta, or the same
      error. */
  lemma TextAndObjectAgree(ext: Externals, s: string)
    requires ext.parse(s).Some? && ext.parse(s).value.JObj?
    ensures DeltaFromJson(ext, JStr(s)) == DeltaFromJson(ext, ext.parse(s).value)
  {
    StringAndParsedAgree(ext, s, DeltaSchema, false);
  }

  /** JSON text that does not parse fails every entry point at parsing,
      before any schema is consulted. */
  lemma MalformedTextFailsAtParse(ext: Externals, s: string)
    requires ext.parse(s).None?
    ensures SourceFromJson(ext, JStr(s)) == Failure(ParseError)
    ensures UpdateFromJson(ext, JStr(s)) == Failure(ParseError)
    ensures DeltaFromJson(ext, JStr(s)) == Failure(ParseError)
  {
  }

  /** The delta of the library's tests: its context verbatim and its one
      update. */
  lemma TestDelta(ext: Externals)
    requires ext.isDateTime(TestTimestamp)
    requires ext.valueFromJson(SpeedJson).Success? && ext.valueFromJson(CourseJson).Success?
    ensures DeltaFromJson(ext, JObj(map["context" := JStr("vessels.urn:mrn:imo:mmsi:234567890"),
                                        "updates" := JArr([JObj(TestUpdateJson)])]))
         == Success(SKDelta("vessels.urn:mrn:imo:mmsi:234567890",
                            [SKUpdate(Some("myboat.017"), TestTimestamp,
                                      [ext.valueFromJson(SpeedJson).value, ext.valueFromJson(CourseJson).value],
                                      Some(N2K("N2000-01", "017", 127488.0, None)))]))
  {
    var v := JObj(map["context" := JStr("vessels.urn:mrn:imo:mmsi:234567890"), "updates" := JArr([JObj(TestUpdateJson)])]);
    var items := [JObj(TestUpdateJson)];
    TestUpdate(ext);
    assert DeltaShape(v.fields);
    assert DeltaAccepted(ext, v) by {
      assert v.fields["updates"].items == items;
    }
    DeltaFromJsonSpec(ext, v);
    var d := DeltaFromJson(ext, v).value;
    assert d.updates == [UpdateFromJson(ext, JObj(TestUpdateJson)).value];
  }
}
