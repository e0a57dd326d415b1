# express-health `configValidator`, modelled in Dafny

`configValidator(config)` normalises the configuration tree of the express-health
status middleware in place and returns it:

- a missing or falsy configuration is replaced by the default configuration;
- a configuration object is marked `isDefault: false`, and its falsy `apiPath` and
  `consumedServicesAsyncMode` are taken from the defaults;
- its `response` block is defaulted, or its non-boolean `statusCodes` replaced;
- every truthy entry of `consumedServices` gets a defaulted `serviceName`,
  `expectedResponseStatus` and `isRequired`, an upper-cased `requestMethod` and
  an `isValid` flag (URL present and method known);
- every entry of `apis` gets a defaulted `apiName`, an upper-cased
  `requestMethod` that falls back to the default when unknown, and an array
  `dependsOn`;
- a missing `consumedServices` or `apis` becomes `{}`.

The project has four modules:

- `JsValue` (`js_value.dfy`) models the JavaScript values of the tree and the
  language operations the validator uses: truthiness, `||`, property reads and
  writes, and ASCII `toUpperCase`.
- `Defaults` (`defaults.dfy`) stands for the two imported collaborators, the
  default configuration and the `REQUEST_TYPES` table. They are a parameter
  `env`, constrained only by what the validator reads from them.
- `Validator` (`validator.dfy`) holds two things:
  - closed-form functions saying what the result is (`ValidateSpec`,
    `ServiceSpec`, `ApiSpec`, ...);
  - methods that perform the source's statements one at a time, in its order.
    The two `for...of` loops become `while` loops over the key sets, whose
    invariant is "entries already visited are normalised, the rest are
    untouched". Each method is proved to compute the closed form.
- `ValidatorProperties` (`properties.dfy`) proves what the validator promises
  about that closed form. This covers:
  - each field rule, with both directions;
  - the key sets, and that properties the validator does not name pass
    through unchanged;
  - the outcomes the tests check for;
  - that a second run changes nothing.

A JavaScript object is modelled by its own properties, as a value. Because the
module is not in strict mode, a property write on a primitive is dropped. So a
truthy primitive configuration, or a truthy primitive `response`, comes back
unchanged.

### Where the code and the documented contract differ

The model follows the code.

- `isRequired`: the documented contract keeps an explicit boolean `false`. The
  condition at `src/configValidator.js:52` is `!isRequired || typeof isRequired !==
  "boolean"`, so `false` is replaced by the default as well
  (`ServiceFields`).
- `consumedServicesAsyncMode: false` is replaced by the default. The test at
  `test/configValidator.test.js:64-69` passes only when the default is `false`
  (`AsyncFalseOverwritten`).
- The test at `test/configValidator.test.js:189-193` expects an API entry
  without a method to get the default API method back unchanged. That holds
  only when the default is upper case or not in the table
  (`ApiDefaultMethod`).
- The tests assert `isValid`/`isRequired` on the elements of `dependsOn` and a
  coercion of `systemInformation`. Neither is implemented in
  `src/configValidator.js`, so neither is modelled.

## Model

| member | source | states |
|---|---|---|
| `JsValue.ToUpper` | src/configValidator.js:42 | `toUpperCase` on ASCII: same length, each lower-case letter replaced by its capital, every other character kept, and the result contains no lower-case letter |
| `JsValue.ToUpperFixesUpperCase` | src/configValidator.js:70 | a string with no lower-case letter is left unchanged by upper-casing |
| `JsValue.ToUpperIdempotent` | src/configValidator.js:42 | upper-casing twice is upper-casing once |
| `Validator.NormaliseService` | src/configValidator.js:32-55 | the statements for one service entry, in order, yield exactly the normalised entry (falsy entries untouched) |
| `Validator.NormaliseApi` | src/configValidator.js:65-76 | the statements for one API entry, in order, yield exactly the normalised entry |
| `Validator.NormaliseServices` | src/configValidator.js:31-56 | the loop over `consumedServices` rewrites every entry, keeps the key set, and each entry is normalised independently of the others |
| `Validator.NormaliseApis` | src/configValidator.js:64-78 | the loop over `apis` rewrites every entry, keeps the key set, and each entry is normalised independently of the others |
| `Validator.ConfigValidator` | src/configValidator.js:7-83 | the whole function, statement by statement, returns exactly the normalised configuration (defaults for a falsy input, a truthy primitive unchanged) |
| `ValidatorProperties.ServiceValidity` | src/configValidator.js:33-45 | `isValid` is true iff `healthCheckUrl` is truthy and the defaulted, upper-cased method is in the table; `healthCheckUrl` is not filled in; read on the result alone, `isValid` iff URL set and final method known |
| `ValidatorProperties.ServiceFields` | src/configValidator.js:34-54 | `requestMethod` is the input's (or the default when falsy) upper-cased; `serviceName` and `expectedResponseStatus` are kept iff truthy, else defaulted; `isRequired` is kept iff it is `true`, else defaulted; the key set gains exactly the five written keys and every other property is unchanged |
| `ValidatorProperties.FalsyServiceUntouched` | src/configValidator.js:32 | a falsy service entry is skipped |
| `ValidatorProperties.ServiceMethodCaseInsensitive` | src/configValidator.js:39-45 | two entries that differ only in the case of a non-empty method normalise to the same entry |
| `ValidatorProperties.GetInAnyCase` | test/configValidator.test.js:149-164 | with a URL and `GET` in the table, `get`, `Get`, `gEt` and `GET` all become `GET` and the entry is valid |
| `ValidatorProperties.ApiFields` | src/configValidator.js:65-76 | `apiName` kept iff truthy, else defaulted; `requestMethod` is the upper-cased method when the table knows it, else the raw default API method; `dependsOn` is the input's array, or `[]`; the key set gains exactly the three written keys and every other property is unchanged |
| `ValidatorProperties.ApiDefaultMethod` | test/configValidator.test.js:189-193 | an API entry without a method ends with the default API method iff that method is upper case or unknown to the table |
| `ValidatorProperties.FalsyConfigGivesDefaults` | src/configValidator.js:8-10 | a falsy configuration yields the default configuration, with its `isDefault` |
| `ValidatorProperties.PrimitiveConfigUnchanged` | src/configValidator.js:13-26 | a truthy primitive configuration is returned unchanged, all writes being dropped |
| `ValidatorProperties.RootFields` | src/configValidator.js:12-16 | `isDefault` is `false`; `apiPath` and `consumedServicesAsyncMode` kept iff truthy, else defaulted; the root gains exactly the six named keys and every other root property (e.g. `mode`) passes through |
| `ValidatorProperties.AsyncFalseOverwritten` | src/configValidator.js:16 | an explicit `consumedServicesAsyncMode: false` survives iff the default is `false` |
| `ValidatorProperties.ResponseOfResult` | src/configValidator.js:18-26 | a falsy `response` becomes the default block; in an object, a boolean `statusCodes` leaves the block unchanged, any other is replaced by the default and all other properties are kept; a truthy primitive is kept; with a boolean default, an object result has a boolean `statusCodes` |
| `ValidatorProperties.ServicesOfResult` | src/configValidator.js:28-59 | a falsy `consumedServices` becomes `{}`; an object keeps its key set with each entry normalised; a truthy primitive is kept |
| `ValidatorProperties.ApisOfResult` | src/configValidator.js:61-81 | a falsy `apis` becomes `{}`; an object keeps its key set with each entry normalised; a truthy primitive is kept |
| `ValidatorProperties.ServicesWellFormed` | src/configValidator.js:31-56 | every truthy service entry of the result has a boolean `isValid`, an upper-case string `requestMethod`, and `isValid` iff URL set and method known |
| `ValidatorProperties.ApisWellFormed` | src/configValidator.js:64-78 | every API entry of the result has a truthy or default `apiName`, a `requestMethod` that is a known upper-case verb or the default API method, and an array `dependsOn` |
| `ValidatorProperties.ServiceFixedPoint` | src/configValidator.js:32-55 | an entry whose fields already have the normalised shape is left as it is |
| `ValidatorProperties.ServiceIdempotent` | src/configValidator.js:32-55 | normalising a service entry twice equals normalising it once |
| `ValidatorProperties.ApiIdempotent` | src/configValidator.js:65-76 | normalising an API entry twice equals normalising it once, given an upper-case default API method |
| `ValidatorProperties.ResponseIdempotent` | src/configValidator.js:19-26 | the `response` rule applied twice equals once, given a boolean default `statusCodes` |
| `ValidatorProperties.ServicesIdempotent` | src/configValidator.js:31-56 | the service loop applied to its own output changes nothing |
| `ValidatorProperties.ApisIdempotent` | src/configValidator.js:64-78 | the API loop applied to its own output changes nothing |
| `ValidatorProperties.ServicesBlockIdempotent` | src/configValidator.js:29-59 | the `consumedServices` block is stable under a second pass |
| `ValidatorProperties.ApisBlockIdempotent` | src/configValidator.js:62-81 | the `apis` block is stable under a second pass |
| `ValidatorProperties.ValidateIdempotent` | src/configValidator.js:7-83 | for a truthy input, the output is again an acceptable input and `configValidator` run on it returns it unchanged |

## Left out

- Object identity and aliasing are not modelled. The default blocks are handed
  out by reference (`src/configValidator.js:9`, `:25`) and the input is mutated
  in place. The model works with values, so sharing between two places of the
  tree is not captured.
- Iteration order of `Object.entries` is not modelled. The loops visit the keys
  in an arbitrary order; since every entry is rewritten independently, the
  result does not depend on it.
- The contents of `src/configs/defaultConfig` and of `REQUEST_TYPES` in
  `src/utils/apiHelper` are not part of this model. They are a parameter,
  constrained only as follows:
  - the default blocks are objects;
  - the two default request methods are strings;
  - for idempotence, the default API method is upper case and the default
    `statusCodes` is a boolean.
- Inputs on which the source throws are excluded by preconditions:
  - a truthy non-string `requestMethod` (lines 42, 70);
  - a truthy service entry that is not an object;
  - an API entry that is not an object (line 65);
  - a non-empty string as `consumedServices` or `apis`, which would be walked
    character by character.
- Arrays in places where the validator writes or enumerates named properties
  are excluded by preconditions: the root, `response`, `consumedServices`,
  `apis`, and their entries. The model gives arrays no named properties.
- `toUpperCase` is restricted to ASCII; Unicode case mapping is not modelled.
- Numbers are integers plus `NaN`. Fractional values are not modelled; only
  their truthiness would matter here.
- Validation of `expectedResponseStatus` as an integer is absent from the
  source (line 50), and so from the model.
- The `isValid`/`isRequired` handling of `dependsOn` elements and the
  `systemInformation` coercion are asserted by the tests
  (`test/configValidator.test.js:212-323`). They are not implemented in
  `src/configValidator.js`, so they are not modelled.
- ValidateIdempotent: does not cover a falsy input: the
  second pass would then run on the default configuration itself, whose
  contents are not part of this model.
