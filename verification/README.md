# Signal K delta deserialisation, modelled in Dafny

This project models the deserialisation core of a TypeScript Signal K
library (signalk-ts). A Signal K *delta* is a JSON message: a `context`
(usually a vessel URN) and a non-empty list of *updates*. Each update has a
`timestamp`, a non-empty list of `values`, an optional `source` descriptor
and an optional `$source` identifier. A source is one of four transport
variants, told apart by the closed `type` tag: `NMEA2000`, `NMEA0183`,
`I2C` and `1W`.

The library turns an already-parsed JSON value, or JSON text, into typed
`SKDelta`, `SKUpdate` and `SKSource` objects, or throws. The model follows
it step by step:

- `validation.dfy` models `parseAndValidate` (module `Validation`). It
  parses a string input and checks the value against a Joi object schema.
  On success it returns the value it checked, so Joi's defaults never reach
  the caller. The Joi chains the library uses are the constructors of `Rule`.
  Each schema is a list of `Field`s.
- `source.dfy` models `SKSource.fromJSON` (module `Sources`). The base pass
  checks `type` and `label` and tolerates every other key. The dispatch runs
  on the JSON type guards. The variant pass checks base plus variant fields
  and refuses every other key. `ToJson` is the inverse encoding.
- `update.dfy` models `SKUpdate.fromJSON` and `generate$source` (module
  `Updates`). `GenerateSourceRef` is the default function exactly as Joi runs
  it, on the raw update object. `DeriveSourceRef` is the same rule on a built
  source.
- `delta.dfy` models `SKDelta.fromJSON` (module `Deltas`).
- `results.dfy` holds `Result` and `Option`, the error kinds, and `MapAll`.
  `MapAll` is `xs.map(f)` where one throwing element fails the whole call.
  `json.dfy` holds the `Json` value and the JavaScript truthiness and
  `String()` conversion that `generate$source` relies on.
- `findings.dfy` holds the first pass as src/validation.ts writes it (see
  Findings).

Code the model cannot see becomes fields of an `Externals` parameter:
`JSON.parse`, the RFC 3339 date-time rule, JavaScript's Number-to-string
conversion, and `SKValue.fromJSON`. Every property is proved for every
choice of these.

Where the specification and the code disagree, the model follows the code:

- An absent `context` is refused (src/SKDelta.ts:19). It is not defaulted to
  "self".
- A built update's `$source` is the input's own optional field
  (src/SKUpdate.ts:53, src/validation.ts:9). The derived identifier decides
  only whether the update is accepted; it is never stored.
- When an update has neither `$source` nor a recognisable source, the
  derivation throws inside Joi, and the update fails with a validation error.
- `talker` is a string at run time, as its schema demands
  (src/SKSource.ts:104), whatever its TypeScript declaration says.
- An element of a delta's `updates` that is a JSON string is parsed again by
  `SKUpdate.fromJSON`, as the code does.

## Model

| member | source | states |
|---|---|---|
| Results.MapAll | src/SKDelta.ts:29-30 | mapping succeeds exactly when every element converts; the result then has the input's length and order, element by element; otherwise the error is that of the first element that fails, and every element before it converted |
| Validation.ParseAndValidate | src/validation.ts:3-10 | text that does not parse fails with a parse error before any schema check; otherwise success exactly when the parsed value conforms; on success the value returned is the input itself or the value its text parses to, with no defaults added |
| Validation.StringAndParsedAgree | src/validation.ts:3-4 | JSON text and the non-string value it parses to get the same outcome from the gateway |
| Validation.ConcatChecksBoth | src/SKSource.ts:162-164 | a value that passes `base.concat(variant)` passes the base schema and the variant schema on their own |
| Sources.BasePassMeaning | src/SKSource.ts:69-76 | the base pass accepts exactly objects whose `type` is one of the four tags and whose `label` is a string, possibly empty, whatever other keys they hold |
| Sources.N2KPassMeaning | src/SKSource.ts:82-89 | the NMEA2000 pass accepts exactly base plus a non-empty `src`, a positive integer `pgn` and an optional non-empty `instance`, and no other key |
| Sources.Nmea0183PassMeaning | src/SKSource.ts:102-105 | the NMEA0183 pass accepts exactly base plus non-empty `sentence` and `talker` strings, and no other key |
| Sources.I2CPassMeaning | src/SKSource.ts:113-115 | the I2C pass accepts exactly base plus a non-empty `src`, and no other key |
| Sources.OneWirePassMeaning | src/SKSource.ts:123-125 | the 1W pass accepts exactly base plus a non-empty `id`, and no other key |
| Sources.SourceFromJsonSound | src/SKSource.ts:140-160 | a built source is valid, and the parsed input is exactly its encoding: `type` is the input tag, fields are copied unchanged, a missing `instance` stays missing, and no other key was present |
| Sources.SourceRoundTrip | src/SKSource.ts:144-155 | every valid source of every variant is read back unchanged from its JSON encoding |
| Sources.BasePassSelectsOneBranch | src/SKSource.ts:45-59 | after the base pass succeeds, exactly one of the four JSON type guards holds |
| Sources.DispatchIsExhaustive | src/SKSource.ts:156-160 | the `assertNever` fallback never fires, whatever the input |
| Sources.BasePassRejects | src/SKSource.ts:142 | an object with a missing or non-string `label`, or a `type` that is missing or outside the four tags, fails in the first pass with a validation error |
| Sources.VariantRefusesForeignKey | src/SKSource.ts:141-155 | a key outside base plus the chosen variant passes the first pass but fails the whole call |
| Sources.I2CWithPgnRefused | src/SKSource.ts:150-152 | an I2C source carrying `pgn` is refused |
| Sources.TestN2KSource | test/SKSource.test.ts:6-11 | the test NMEA2000 source builds with type NMEA2000, label "N2000-01", src "017", pgn 127488 and no instance |
| Sources.EmptyStrings | src/SKSource.ts:73-75 | an empty `label` is accepted, while an empty I2C `src` is refused |
| Sources.DomainGuardsPartition | src/SKSource.ts:177-191 | for every built source exactly one domain type guard holds, the one of its own variant |
| Updates.UpdatePassMeaning | src/SKUpdate.ts:30-40 | the update schema accepts exactly: a non-empty RFC 3339 `timestamp`; a non-empty `$source`, or, when it is absent, a derivation that succeeds; a non-empty `values` array of objects; an optional object `source`; and no other key |
| Updates.UpdateFromJsonSpec | src/SKUpdate.ts:49-54 | an update is built exactly when the schema passes, its source builds and every value builds; it then keeps the input's own optional `$source`, its timestamp string, its values one for one in order, and a source that is present exactly when the input has one, built by SKSource.fromJSON |
| Updates.TimestampRequired | src/SKUpdate.ts:31-33 | a timestamp that is absent, null, not a string, empty or not a date-time fails the update |
| Updates.ValuesRequired | src/SKUpdate.ts:35-38 | `values` that is absent, not an array, empty or holding a non-object fails the update |
| Updates.UnderivableSourceRefRefused | src/SKUpdate.ts:57-61 | with no `$source`, an update whose source is missing, falsy or of no known type fails, because the derivation throws |
| Updates.GenerateMatchesDerive | src/SKUpdate.ts:63-70 | on a source object that builds, the raw derivation equals the identifier of the built source |
| Updates.DerivedRefOfAcceptedUpdate | src/SKUpdate.ts:34 | an update accepted without `$source` has a source, and the derivation Joi ran gave that source's identifier, which the update does not store |
| Updates.DeriveVectors | test/SKUpdate.test.ts:64-78 | the four test sources derive "N2000-01.017", "NMEA0183-0.GP", "I2C-0.14" and "1W-0.28FF8C9560163C3" |
| Updates.GenerateOnEncoding | src/SKUpdate.ts:57-73 | on the JSON object of any valid source the derivation succeeds with that source's identifier |
| Updates.GenerateVectors | test/SKUpdate.test.ts:68-78 | the raw derivation on the NMEA0183, I2C and 1W test sources gives the identifiers the tests expect |
| Updates.DeriveShape | src/SKUpdate.ts:64-70 | the identifier always starts with the label and a "." (so an empty label gives a leading "."); an NMEA2000 identifier gains "." and the instance exactly when a non-empty instance is present |
| Updates.TestUpdate | test/SKUpdate.test.ts:51-62 | the test update keeps its explicit "myboat.017", although its source would derive "N2000-01.017", and keeps its two values in order |
| Updates.TestDerivation | test/SKUpdate.test.ts:64-66 | the test update without `$source` derives "N2000-01.017" |
| Updates.TestUpdateWithoutSourceRef | src/SKUpdate.ts:50-53 | the test update without `$source` is accepted, and the built update has no `$source` |
| Deltas.DeltaPassMeaning | src/SKDelta.ts:18-23 | the delta schema accepts exactly a non-empty string `context` and a non-empty `updates` array, and no other key |
| Deltas.DeltaFromJsonSpec | src/SKDelta.ts:27-31 | a delta is built exactly when the schema passes and every update builds; its context is the input's verbatim, and its updates match the input's one for one, in order |
| Deltas.ContextRequired | src/SKDelta.ts:19 | a context that is absent, null, empty or not a string fails the delta |
| Deltas.UpdatesRequired | src/SKDelta.ts:20-22 | `updates` that is absent, not an array or empty fails the delta |
| Deltas.FailingUpdateFailsDelta | src/SKDelta.ts:29 | one failing update fails the whole delta, with the error of the first failing update; no partial delta is returned |
| Deltas.TextAndObjectAgree | src/SKDelta.ts:27-28 | JSON text and the object it parses to give the same delta or the same error |
| Deltas.MalformedTextFailsAtParse | src/validation.ts:4 | text that does not parse fails every entry point with a parse error |
| Deltas.TestDelta | test/SKDelta.test.ts:33-52 | the test delta keeps its context verbatim and holds its one update, as built |
| Findings.AsWrittenRefusesEverySource | src/validation.ts:3-5 | as written, with the options argument dropped, SKSource.fromJSON builds no source from any input |
| Findings.AsWrittenRefusesTestSource | src/SKSource.ts:142 | as written, the test NMEA2000 source is refused, while it builds when the option is honoured |

## Left out

- JSON text grammar: `JSON.parse` is the `Externals.parse` parameter.
- RFC 3339 checking: the `rfc3339()` rule is the `Externals.isDateTime` parameter, because the definition of `RFC3339Validator` is not part of this model. Only the absent, null, empty and non-string rejections of a timestamp are proved. The test rejections of "test", "2010-01-07 10:00:00" and "2010-01-07T10:00:00" depend on that rule.
- `new Date(timestamp)` (src/SKUpdate.ts:53): the update keeps the checked timestamp string.
- src/SKValue.ts and src/SKContext.ts are not part of this model. `SKValue.fromJSON` is the `Externals.valueFromJson` parameter, and a context is a string.
- JavaScript's Number-to-string conversion (floating point) is the `Externals.numberText` parameter. It matters only when a source field that `generate$source` reads holds a number.
- Joi's conversions are not modelled. By default Joi accepts a numeric string for `Joi.number()` and JSON text for `Joi.object()` and `Joi.array()`; the model refuses those inputs.
- Joi's error objects, messages and error order: every schema violation is one `SchemaError`.
- Sources.N2KPassMeaning: `pgn` is a real number that is positive and integral. The model does not impose Joi's safe-integer bound, which some Joi versions apply in `integer()`, or the rounding of large JSON numbers to doubles.
- Property reads see only the keys of the JSON object, not inherited JavaScript properties such as `constructor`. A top-level `undefined` input is not a JSON value and is not modelled.
- Test expectations the code does not meet are not proved: the `deviceInstance` of test/SKSource.test.ts:12 (no such field exists), the "self" context default of test/SKDelta.test.ts:55-60 (Deltas.ContextRequired proves the refusal), and a derived `$source` stored on the update (test/SKUpdate.test.ts:64-78). The derivation vectors are proved on `DeriveSourceRef` and `GenerateSourceRef` instead.
- A predicate telling whether a delta's context means "self" is not defined by the modelled files, so it is not modelled.

## Findings

| source | as written | input that shows it | evidently intended | confidence | as-written member | corrected member |
|---|---|---|---|---|---|---|
| src/validation.ts:3-5 | `parseAndValidate(json, schema)` takes no options and calls `Joi.validate` without them, so the `{ allowUnknown: true }` that src/SKSource.ts:142 passes is dropped, and the first pass refuses every key but `type` and `label` | the test source `{"label":"N2000-01","type":"NMEA2000","src":"017","pgn":127488}` is refused in the first pass, and in fact no input builds a source | the first pass tolerates the variant's keys, so every valid source is built | low, not executed: src/validation.ts at this revision may be out of date, as it also lacks the `RFC3339Validator` that src/SKUpdate.ts:2 imports | Findings.AsWrittenRefusesEverySource | Sources.SourceRoundTrip |
