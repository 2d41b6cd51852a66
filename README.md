# Lambda helpers for the driving-test examiner services, in Dafny

This project models the small helper library used by the examiner application's AWS Lambda
functions, and proves properties of the model:

- the structured logger: its process-wide context and level, the four level-gated emitters, the
  message formatter, and the one JSON line each emitted entry becomes;
- the licence transmission rule, the DL25 test-type table and the "EU" category-prefix trim;
- the lookups that return `null` instead of failing: a path parameter, and the staff number in the
  request context;
- the configuration presence checks, one with a default value and one that throws;
- the HTTP response builder and its CORS header;
- the decision logic of the three request-guard decorators `NonNullPathParam`, `ValidateRole`
  and `ValidatePathParam`.

JavaScript values appear as the datatype `JsValues.JsValue`, which has `undefined`, `null`,
booleans, integers, strings, plain objects and `Error` instances. Property reads follow
JavaScript: reading from `undefined` or `null` is a `TypeError`, so `Get` requires a non-nullish
receiver, and a missing property reads as `undefined`. `JsStrings` defines `String.prototype.trim`, `indexOf` and
`Array.prototype.join`. Trim uses the ECMAScript whitespace and line-terminator set. A string is a
Dafny `string`, a sequence of Unicode scalar values rather than of UTF-16 code units, so an index
counts characters (see `JsStrings.IndexOf` under "## Left out").

The host's `JSON.stringify` is a parameter `stringify: JsValue -> Option<string>`. Its `None`
result is the `undefined` that `JSON.stringify(undefined)` returns. The logger holds it as a
constant given to its constructor.

The logger is the one stateful part. The class `Logging.Logger` has the fields `context` and
`level` and a ghost `out` that stands for standard output. `level` is `None` until the first
bootstrap, as the module's `let logLevel` is `undefined`. Each method is proved against a pure
transition on `LoggerState` (`Appended`, `Emitted`, `Bootstrapped`), and the lemmas are stated
about those transitions. The decorators' checks are pure `Decision` functions.
`CustomDecorators.Invoke` carries a decision out: it logs and responds, or calls the handler.

The model follows the code as it stands:
- the licence rule overrides only for the categories `C`, `D`, `C+E` and `D+E`, so `C1` and
  `D1` are not among them;
- the response builder adds no trace-id header and does not read the log context;
- the log context has only `service` and `staffNumber`;
- `bootstrapLogging` takes no tracer argument.

## Model

| member | source | states |
|---|---|---|
| `JsStrings.TrimEmptyIffBlank` | src/framework/config/config.ts:8 | `s.trim().length === 0` holds exactly when every character of `s` is ECMAScript whitespace |
| `JsStrings.IndexOf` | src/domain/trim-test-category-prefix.ts:4 | `indexOf` gives the first index where the pattern occurs, or -1 exactly when it occurs nowhere |
| `JsStrings.IndexOfZeroIffPrefix` | src/domain/trim-test-category-prefix.ts:4 | `s.indexOf(p) === 0` exactly when `s` starts with `p` |
| `JsStrings.JoinSnoc` | src/application/utils/logger.ts:132-137 | `join(' ')` grows one separator and one part at a time from the right |
| `Config.PresentIffNotBlank` | src/framework/config/config.ts:8 | the shared guard passes exactly for a string with at least one non-whitespace character |
| `Config.DefaultIfNotPresent` | src/framework/config/config.ts:7-12 | returns the value itself, untrimmed, exactly when it is non-blank; otherwise the default, for null, undefined, "" and whitespace-only values |
| `Config.ThrowIfNotPresent` | src/framework/config/config.ts:20-25 | returns the value, untrimmed, exactly when it is non-blank; otherwise fails with "Configuration item <configKey> was not provided with a value" |
| `Config.SamePresenceCheck` | src/framework/config/config.ts:7-25 | `throwIfNotPresent` succeeds exactly when `defaultIfNotPresent` returns the value, and both return the same string |
| `Config.ConfigExamples` | src/framework/config/__tests__/config.spec.ts:6-28 | the tested cases, plus a whitespace-only value, which falls back to the default |
| `Authorisation.GetStaffNumberFromRequestContext` | src/framework/security/authorisation.ts:8-13 | never fails; returns a string exactly when the context is an object whose `authorizer` object has a string `staffNumber`, and then returns that string unchanged, even "" |
| `Authorisation.StaffNumberExamples` | src/framework/security/__tests__/authorisation.spec.ts:8-37 | null for a missing context, a missing authorizer and a numeric staff number; the string when one is set, including "" |
| `EventValidation.GetPathParam` | src/framework/validation/event-validation.ts:9-19 | a result exactly when the map is present, the key non-empty, and the entry a non-blank string; the result is then the stored value, untrimmed |
| `EventValidation.MissingPathParamExamples` | src/framework/validation/__tests__/event-validation.spec.ts:7-21 | null for no map, an empty key, a non-string entry, and a whitespace-only entry |
| `EventValidation.PresentPathParamExamples` | src/framework/validation/__tests__/event-validation.spec.ts:23-28 | a set value comes back exactly, surrounding spaces included |
| `Api.CreateResponse` | src/application/api/create-response.ts:11-25 | status echoed; header keys are exactly the caller's plus `Access-Control-Allow-Origin`; the caller's values win; CORS value is "*" unless supplied; body null exactly when the input is null, otherwise the serialised input |
| `Api.DefaultResponse` | src/application/api/create-response.ts:13-22 | with default arguments: status 200 and headers exactly `{"Access-Control-Allow-Origin": "*"}` |
| `Api.CallerHeaderWins` | src/application/api/create-response.ts:22 | a caller-supplied CORS header replaces the default one |
| `LicenceType.FindIndex` | src/application/utils/licence-type.ts:15 | `findIndex` gives the first index holding the item, or -1 exactly when it is absent |
| `LicenceType.LicenceToIssue` | src/application/utils/licence-type.ts:4-21 | the result is the given transmission or "Manual"; unchanged when code 78 is undefined; differs from the input exactly for category C, D, C+E or D+E with "Automatic" and code 78 false |
| `LicenceType.LicenceToIssueIdempotent` | src/application/utils/licence-type.ts:11-20 | feeding the result back with the same category and flag returns the same result |
| `LicenceType.NearMissCategories` | src/application/utils/licence-type.ts:9-15 | "CE", "C1", "B" and "c" never force Manual: matching is exact string equality |
| `Dl25TestType.MapGet` | src/application/utils/dl25-test-type.ts:10-29 | `new Map(entries).get(k)` is undefined exactly when no entry's key is `k`; otherwise the value of the last entry with key `k` |
| `Dl25TestType.DetermineDl25TestType` | src/application/utils/dl25-test-type.ts:8-30 | undefined for a string that is no category's value; every defined result lies in {1..12, 16, 17, 18, 19, 44} |
| `Dl25TestType.AllTestTypesListed` | src/application/utils/dl25-test-type.ts:10-28 | every value in the table lies in {1..12, 16, 17, 18, 19, 44} |
| `Dl25TestType.EntryAt` | src/application/utils/dl25-test-type.ts:10-28 | each table entry sits at its category's position and maps it to the grouped test type `TestTypeOf` |
| `Dl25TestType.EntryOf` | src/application/utils/dl25-test-type.ts:10-28 | every category of the table has an entry |
| `Dl25TestType.KeysDistinct` | src/application/utils/dl25-test-type.ts:10-28 | the table keys are pairwise distinct, so entry order does not affect a lookup |
| `Dl25TestType.Dl25OfCategory` | src/application/utils/dl25-test-type.ts:11-29 | each category looks up `TestTypeOf`: ADI2 10, ADI3 11, B/BE 2, C/CE/C1/C1E 3, D/DE/D1/D1E 4, F-K 5-8, EU module 1 16 (EUAMM1 17), module 2 1 (EUAMM2 9), CPC 44, CM group 18, DM group 19, SC 12 |
| `TestCategoryPrefix.TrimTestCategoryPrefix` | src/domain/trim-test-category-prefix.ts:3-9 | an input starting with "EU" loses its first two characters; any other input is returned unchanged |
| `TestCategoryPrefix.TrimmedIsSuffix` | src/domain/trim-test-category-prefix.ts:3-9 | the result is a suffix of the input, of length equal to the input's or two shorter |
| `TestCategoryPrefix.OnePrefixOnly` | src/domain/trim-test-category-prefix.ts:4-5 | only one prefix goes: "EUEU"+x becomes "EU"+x |
| `TestCategoryPrefix.EuElsewhereUntouched` | src/domain/trim-test-category-prefix.ts:4 | an input not starting with "EU" is untouched, wherever else "EU" appears |
| `TestCategoryPrefix.PrefixExamples` | src/domain/trim-test-category-prefix.ts:3-9 | "EUAM1" becomes "AM1"; "B" and "AEU" are unchanged |
| `Logging.LevelCodeOf` | src/application/utils/logger.ts:58-80 | "DEBUG"/"INFO"/"WARN"/"ERROR" give 3/2/1/0; any other name, absent included, gives 3 |
| `Logging.InvalidLevelWarning` | src/application/utils/logger.ts:72-78 | a warning exactly when the name is not a level name: "<name> is an invalid log level..." for a non-empty name, "No log level set..." for an absent or empty one |
| `Logging.LevelOfName` | src/application/utils/logger.ts:4-9 | each of the four level names names a level |
| `Logging.NameCodeRoundTrip` | src/application/utils/logger.ts:4-16 | the code of a level's name is that level's code, with no warning, and codes are distinct |
| `Logging.Thresholds` | src/application/utils/logger.ts:88-128 | debug emits iff the level is at least 3, info at least 2, warn at least 1; error always |
| `Logging.PassesMonotone` | src/application/utils/logger.ts:89-114 | a call that emits under level L emits under every L' >= L, and so does every more severe call |
| `Logging.Record` | src/application/utils/logger.ts:142-148 | an entry's properties are exactly the context's (`service`, then `staffNumber` if set), then `level`, then `message`: 4, 3 or, with no context, 2 properties |
| `Logging.Render` | src/application/utils/logger.ts:133-136 | an `Error` value renders as "name: message"; any other value as its serialisation, or "" when `JSON.stringify` gives `undefined` |
| `Logging.RenderAll` | src/application/utils/logger.ts:132-137 | one part per value, in order: each `Error` as "name: message", every other value as its serialisation |
| `Logging.FormatMessage` | src/application/utils/logger.ts:130-140 | with no values the message is unchanged; the message is always a prefix of the result |
| `Logging.FormatMessageSnoc` | src/application/utils/logger.ts:130-140 | the first value follows the message with no separator, each later one after a single space |
| `Logging.ErrorValueMessage` | src/application/utils/__tests__/logger.spec.ts:271-274 | "Log Message: " with `new Error('Oops')` formats as "Log Message: Error: Oops" |
| `Logging.Appended` | src/application/utils/logger.ts:142-148 | `log` appends exactly one entry carrying the current context, and changes neither context nor level |
| `Logging.Emitted` | src/application/utils/logger.ts:88-128 | an emitter that passes its gate appends exactly one entry; one that does not leaves the output unchanged; neither changes context or level |
| `Logging.ContextFor` | src/application/utils/logger.ts:46-53 | the context has the service name, and a staff number exactly when the lookup gave a non-empty string |
| `Logging.Bootstrapped` | src/application/utils/logger.ts:45-56 | replaces the whole context and sets the level to the named code; the invalid-level warning is filtered by the level in force before the call and carries the new context |
| `Logging.BootstrapForgetsEarlierState` | src/application/utils/logger.ts:46-55 | the context and level after a bootstrap do not depend on the state before it: no earlier staff number survives |
| `Logging.FirstBootstrapIsSilent` | src/application/utils/logger.ts:55-78 | while the level is still undefined, a bootstrap writes nothing, even for an invalid LOG_LEVEL |
| `Logging.WarnLevelFilters` | src/application/utils/__tests__/logger.spec.ts:164-189 | after bootstrapping with LOG_LEVEL=WARN, debug and info write nothing, and warn and error write one entry each |
| `Logging.InvalidLevelMeansDebug` | src/application/utils/logger.ts:72-78 | after a bootstrap with an unrecognised or absent LOG_LEVEL, every emitter writes |
| `Logging.Logger.constructor` | src/application/utils/logger.ts:28-29 | the module starts with no context, an undefined level and no output |
| `Logging.Logger.BootstrapLogging` | src/application/utils/logger.ts:45-56 | the new state is `Bootstrapped` of the old one, with the staff number looked up from `event.requestContext` |
| `Logging.Logger.NameToCode` | src/application/utils/logger.ts:58-80 | returns `LevelCodeOf(name)`; writes the warning through `warn` exactly in the default branch |
| `Logging.Logger.Debug` | src/application/utils/logger.ts:88-92 | the new state is `Emitted` at DEBUG with the formatted message |
| `Logging.Logger.Info` | src/application/utils/logger.ts:100-104 | the new state is `Emitted` at INFO with the formatted message |
| `Logging.Logger.Warn` | src/application/utils/logger.ts:113-117 | the new state is `Emitted` at WARN with the formatted message |
| `Logging.Logger.Error` | src/application/utils/logger.ts:126-128 | the new state is `Emitted` at ERROR, which always appends |
| `Logging.Logger.Log` | src/application/utils/logger.ts:142-148 | appends one entry with the current context |
| `CustomDecorators.NonNullPathParam` | src/application/utils/custom-decorators.ts:18-35 | a missing event or `pathParameters` gives the 400 "Event object or path parameters are missing."; otherwise it proceeds exactly when the named parameter is truthy, else 400 "Path parameter is required: <name>"; it never throws |
| `CustomDecorators.ValidateRole` | src/application/utils/custom-decorators.ts:49-60 | throws exactly for a nullish event; proceeds exactly when the role read from `requestContext` equals the required, non-empty role; otherwise 401 "Examiner role is not authorised for this request." |
| `CustomDecorators.ValidatePathParam` | src/application/utils/custom-decorators.ts:76-93 | a missing event or `pathParameters` gives the shared 400; otherwise it proceeds exactly when the validator's result on `pathParameters[param]`, possibly undefined, is truthy, else 400 `Path parameter failed validation: "<param>"` |
| `CustomDecorators.SameMissingEventRejection` | src/application/utils/custom-decorators.ts:22-25 | both path-parameter decorators reject a missing event or map with the same response and log call |
| `CustomDecorators.NonNullPathParamOnStrings` | src/application/utils/custom-decorators.ts:28-31 | for a string parameter, `NonNullPathParam` passes exactly the non-empty ones, whitespace-only included |
| `CustomDecorators.GetPathParamImpliesNonNull` | src/application/utils/custom-decorators.ts:28 | whatever `getPathParam` accepts, `NonNullPathParam` accepts |
| `CustomDecorators.WhitespaceParamPassesNonNull` | src/application/utils/custom-decorators.ts:28 | a whitespace-only parameter passes `NonNullPathParam` while `getPathParam` rejects it |
| `CustomDecorators.NonNullPathParamExamples` | src/application/utils/__tests__/custom-decorator.spec.ts:24-37 | a null parameter map gets the shared 400; a set parameter proceeds |
| `CustomDecorators.ValidatePathParamExamples` | src/application/utils/__tests__/custom-decorator.spec.ts:74-89 | a validator failing on an absent parameter gives the 400 with `{param, value: undefined}` logged; a passing one proceeds |
| `CustomDecorators.RoleDecoratorExamples` | src/application/utils/__tests__/custom-decorator.spec.ts:48-63 | an event without a request context gets 401; one whose authorizer carries the required role proceeds; no event at all throws |
| `CustomDecorators.Invoke` | src/application/utils/custom-decorators.ts:18-35 | on proceed the handler's result for the original arguments is returned and nothing is logged; on rejection exactly one ERROR entry is logged, the handler does not run, and the response is `createResponse(text, status)` |
| `CustomDecorators.RejectionLogsOnce` | src/application/utils/custom-decorators.ts:23-24 | an error-level call appends exactly one entry whatever the level in force |

## Left out

- Exact JSON text: `JSON.stringify` is the parameter `stringify`. Results that depend on its text, such as `"\"Some body\""` for the body `"Some body"`, are stated in terms of that parameter.
- `console.log` and `process.env.LOG_LEVEL`: the output is the ghost sequence `out` of structured entries, and the environment value is a parameter.
- Decorator and async machinery: property descriptors, `this`/`apply` and Promises are left out. Only the guard decision and its effect (log and respond, or call the handler) are modelled.
- `customMetric` and `customDurationMetric`: only tests exercise them, and logger.ts does not define them. The duration variant is floating-point arithmetic.
- `formatForExaminerRecords` and `formatApplicationReference`: only tests exercise them, and their implementation is not part of this model.
- `getRoleFromRequestContext` is the parameter `roleOf`. Its implementation is not part of this model.
- The `HttpStatus` and `ExaminerRole` enums are not part of this model. `HttpStatus` becomes the standard codes 200, 400 and 401, and roles are strings.
- The `TestCategory` enum's string values are not part of this model. They are the parameter `enumValue`.
- Dl25TestType.Dl25OfCategory: the per-category test types are proved only when those enum string values are pairwise distinct.
- JavaScript numbers are integers here: NaN, fractions and `-0` are not modelled.
- Arrays are not modelled as a kind of value.
- A property read on a primitive (a string's `length` or indices) is `undefined` here. An inherited prototype member (`constructor`, `toString`) is also `undefined`.
- An `Error` exposes only `name` and `message`.
- A validator passed to `ValidatePathParam` is a total function, so a validator that throws is not modelled.
- Concurrency between overlapping invocations that share the module state is not modelled: every call is sequential.
- Logging.Logger.BootstrapLogging: requires a non-nullish event, as the parameter's TypeScript type does. With a nullish event the source replaces the context, then throws a TypeError reading `requestContext` and leaves the level unchanged. That path is not modelled.
- JsStrings.IndexOf: strings are sequences of Unicode scalar values, not UTF-16 code units. Indices after a character outside the Basic Multilingual Plane are one lower than ECMAScript's, and a lone surrogate cannot be represented. The source only tests `indexOf(...) === 0`, and there the two agree. Every character `trim` removes is a single code unit.
