/** The source as written next to the behaviour its authors evidently meant.

    src/SKSource.ts:142 calls parseAndValidate with a third argument,
    `{ allowUnknown: true }`, but parseAndValidate (src/validation.ts:3)
    takes only the input and the schema and calls Joi.validate without
    options. JavaScript drops the extra argument, so the first pass refuses
    unknown keys after all, and every key of a variant fails it. The rest of
    the model honours the option (`Validation.ParseAndValidate` with
    `allowUnknown`). */
module Findings {
  import opened Results
  import opened JsonValues
  import opened Validation
  import opened Sources

  /** parseAndValidate as written: no options reach Joi. */
  function ParseAndValidateAsWritten(ext: Externals, input: Json, schema: Schema): Result<Json> {
    ParseAndValidate(ext, input, schema, false)
  }

  /** SKSource.fromJSON on top of the parseAndValidate as written. */
  function SourceFromJsonAsWritten(ext: Externals, input: Json): Result<SKSource> {
    var obj :- ParseAndValidateAsWritten(ext, input, BaseSchema);
    Dispatch(ext, obj)
  }

  /** As written, no input at all builds a source: the first pass admits
      only `type` and `label`, and every variant's pass requires a key of its
      own. */
  lemma AsWrittenRefusesEverySource(ext: Externals, input: Json)
    ensures SourceFromJsonAsWritten(ext, input).Failure?
  {
    var base := ParseAndValidateAsWritten(ext, input, BaseSchema);
    if base.Success? {
      var o := base.value.fields;
      assert Keys(BaseSchema) == {"type", "label"} by {
        assert BaseSchema[0].key == "type" && BaseSchema[1].key == "label";
      }
      assert o.Keys <= {"type", "label"};
      N2KPassMeaning(ext, base.value);
      Nmea0183PassMeaning(ext, base.value);
      I2CPassMeaning(ext, base.value);
      OneWirePassMeaning(ext, base.value);
    }
  }

  /** The source of the library's tests shows it: refused as written, built
      with the option honoured. */
  lemma AsWrittenRefusesTestSource(ext: Externals)
    ensures SourceFromJsonAsWritten(ext, TestN2KSourceJson) == Failure(SchemaError)
    ensures SourceFromJson(ext, TestN2KSourceJson).Success?
  {
    AsWrittenRefusesEverySource(ext, TestN2KSourceJson);
    TestN2KSource(ext);
  }
}
