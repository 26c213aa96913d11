# runtime-caching-converter, modelled in Dafny

`workbox-build` accepts route descriptors written for `sw-toolbox` and turns
them into `workbox-sw` source code, one `workboxSW.router.registerRoute(...)`
statement per route. This project models
`packages/workbox-build/src/lib/runtime-caching-converter.js` and proves
properties of the model. The file has two parts:

- **The exported converter.** It defaults a missing list to `[]` and maps
  every entry to a statement. The map throws on the first entry that lacks
  `urlPattern`, or else lacks `handler`. It yields nothing for an entry whose
  handler is neither a string nor a function. A filter then drops the
  nothing-values.
- **`getOptionsString`.** It rewrites an entry's legacy `options` object into
  `workbox-sw` strategy options:
  - `cache.name` becomes `cacheName`;
  - `cache.maxEntries` and `cache.maxAgeSeconds` are merged into
    `cacheExpiration`;
  - `cache` is blanked out.

  It then serialises the result with `JSON.stringify(…, null, 2)`.

Files:

- `js_values.dfy` (`JsValues`) models the JavaScript values involved:
  - `undefined`, `null`, booleans, integral numbers, strings, plain objects,
    functions and RegExps (not arrays; see "Left out");
  - truthiness and `||`;
  - the text `${v}` inserts;
  - plain objects as ordered property lists, with property write (`Put`) and
    `Object.assign` (`AssignAll`).
- `json.dfy` (`Json`) is the part of `JSON.stringify(value, null, 2)` these
  values reach. It includes string quoting and its inverse, the JSON string
  decoder.
- `options.dfy` (`RuntimeCachingOptions`) holds `getOptionsString`:
  - `GetOptionsString` is a module-level method that builds a mutable
    `PlainObject` and performs the source's sequence of in-place updates on it: `Object.assign`, the
    `cacheExpiration` write with its in-place merge, and `cache = undefined`.
  - The method is proved equal to the declarative `EffectiveOptions` /
    `OptionsString`, and the properties are proved about those.
- `converter.dfy` (`RuntimeCachingConverter`) holds the exported converter
  as functions:
  - `ConvertEntry` is the `map` callback;
  - `MapEntries` is the `map`, where the first error wins;
  - `KeepTruthy` is the `filter`;
  - `Convert` is the whole converter.

  `Statements` is an independent reference definition: filter first, then map.

## Model

| member | source | states |
|---|---|---|
| JsValues.Truthy | packages/workbox-build/src/lib/runtime-caching-converter.js:39 | JavaScript's `ToBoolean`, as every `\|\|`, `if` and `!` of the file uses it: `undefined`, `null`, `false`, 0 and `""` are falsy, every object, function and RegExp is truthy (a definition) |
| JsValues.Or | packages/workbox-build/src/lib/runtime-caching-converter.js:30 | `a \|\| b` is `a` when `a` is truthy and `b` otherwise (a definition: the contract is the operator's own meaning) |
| JsValues.TemplateText | packages/workbox-build/src/lib/runtime-caching-converter.js:73-91 | the text `${v}` inserts into a template literal: a string as itself, a number in decimal, a function or RegExp as its source text (a definition) |
| JsValues.Put | packages/workbox-build/src/lib/runtime-caching-converter.js:50 | after `o[k] = v`, `k` reads `v`, every other key reads what it did, and a key that was present keeps its position |
| JsValues.AssignAll | packages/workbox-build/src/lib/runtime-caching-converter.js:33-35 | `Object.assign(target, source)` as the left fold of property writes over the source, in source order (a definition; its partners are `AssignAllLookup` and `AssignOverFirstKey`) |
| JsValues.AssignAllLookup | packages/workbox-build/src/lib/runtime-caching-converter.js:33-35 | after `Object.assign(target, source)` with distinct source keys, each key the source has holds the source's value and every other key holds the target's |
| JsValues.PutTwo | packages/workbox-build/src/lib/runtime-caching-converter.js:41-44 | two writes to different keys: each key reads its value, other keys are unchanged, and the keys are the old ones in place followed by each new key in write order |
| JsValues.AssignOverFirstKey | packages/workbox-build/src/lib/runtime-caching-converter.js:33-35 | `Object.assign({k: x, ...w}, source)` for distinct keys: `k` stays first and holds the source's own `k` when it has one, else `x`; the other source properties follow in source order |
| Json.SerializeValue | packages/workbox-build/src/lib/runtime-caching-converter.js:52-54 | a value produces JSON text exactly when it is neither `undefined` nor a function |
| Json.Quote | packages/workbox-build/src/lib/runtime-caching-converter.js:54 | the JSON string literal of a string: it starts and ends with a double quote (its inverse is `Unquote`, see `QuoteRoundTrip`) |
| Json.SerializeObject | packages/workbox-build/src/lib/runtime-caching-converter.js:54 | the text of an object nested at an indent always starts with `{` and ends with `}` (its member lines are `MembersFollowKeys`) |
| Json.Stringify | packages/workbox-build/src/lib/runtime-caching-converter.js:54 | `JSON.stringify(o, null, 2)` of the top-level object: a text between braces |
| Json.QuoteRoundTrip | packages/workbox-build/src/lib/runtime-caching-converter.js:54 | decoding a quoted string gives back the original string, so every option string survives serialisation intact |
| Json.MembersFollowKeys | packages/workbox-build/src/lib/runtime-caching-converter.js:52-54 | the serialised object has one member line per emitted key, in property order, each starting with that key quoted |
| Json.ObjectEmptyIff | packages/workbox-build/src/lib/runtime-caching-converter.js:52-54 | an object serialises as `{}` if and only if none of its properties is emitted |
| Json.UndefinedIsInvisible | packages/workbox-build/src/lib/runtime-caching-converter.js:47-53 | a property set to `undefined` leaves the JSON text exactly as if the property were absent |
| RuntimeCachingOptions.PlainObject.constructor | packages/workbox-build/src/lib/runtime-caching-converter.js:33-34 | a fresh object holds exactly the given properties |
| RuntimeCachingOptions.PlainObject.Set | packages/workbox-build/src/lib/runtime-caching-converter.js:50 | a property write changes the object as `Put` does, and nothing else |
| RuntimeCachingOptions.PlainObject.AssignFrom | packages/workbox-build/src/lib/runtime-caching-converter.js:33-35 | `Object.assign(o, source)` writes the source's properties one by one, in order; the result is the left fold `AssignAll` |
| RuntimeCachingOptions.AssignExpiration | packages/workbox-build/src/lib/runtime-caching-converter.js:41-44 | for a plain-object, RegExp or falsy target: the result is an object in which both limits hold the given values (even `undefined`) and every other key keeps the target's value; its keys are the target's in their order, then `maxEntries` and `maxAgeSeconds` when new; a truthy primitive or function is returned unchanged |
| RuntimeCachingOptions.MergeExpiration | packages/workbox-build/src/lib/runtime-caching-converter.js:41-44 | the in-place `Object.assign` into `cacheExpiration \|\| {}` yields the object `AssignExpiration` describes |
| RuntimeCachingOptions.Assemble | packages/workbox-build/src/lib/runtime-caching-converter.js:33-50 | the finished object from its parts: `cacheName`, the other own properties in order (`cache` blanked, `cacheExpiration` merged when requested), then a new `cacheExpiration` and a blank `cache` when absent (a definition; proved equal to the in-place steps by `AssembleSteps`) |
| RuntimeCachingOptions.EffectiveOptions | packages/workbox-build/src/lib/runtime-caching-converter.js:30-50 | `effectiveOptions` for given options (a definition; characterised by `KeyOrder`, `CacheNameFirst`, `OtherOptionsKept`, `ExpirationOutcome`, `NoCacheInOutput`) |
| RuntimeCachingOptions.OptionsString | packages/workbox-build/src/lib/runtime-caching-converter.js:29-54 | the text `getOptionsString` returns for options it can read (not `undefined` or `null`, on which `options.cache` throws) is a JSON object text, between braces |
| RuntimeCachingOptions.GetOptionsString | packages/workbox-build/src/lib/runtime-caching-converter.js:29-55 | for options that are neither `undefined` nor `null` (reading `options.cache` throws on those), the step-by-step construction returns `OptionsString(options)`. The caller's own `cacheExpiration` ends up replaced by the merged object when expiration is requested and that property is an object: the shallow copy shares it |
| RuntimeCachingOptions.CopyStep | packages/workbox-build/src/lib/runtime-caching-converter.js:33-35 | the copy is `cacheName` first, then the options' other properties in order; `cacheExpiration` is carried over unchanged, and keys stay distinct |
| RuntimeCachingOptions.ExpirationStep | packages/workbox-build/src/lib/runtime-caching-converter.js:39-45 | writing `cacheExpiration` replaces it in place when present and appends it otherwise |
| RuntimeCachingOptions.CacheStep | packages/workbox-build/src/lib/runtime-caching-converter.js:50 | blanking `cache` sets it to `undefined` in place when present and appends it otherwise |
| RuntimeCachingOptions.AssembleSteps | packages/workbox-build/src/lib/runtime-caching-converter.js:33-50 | the three in-place updates together produce the declarative `Assemble` object |
| RuntimeCachingOptions.NoCacheInOutput | packages/workbox-build/src/lib/runtime-caching-converter.js:47-54 | whatever `options.cache` held, the finished object's `cache` is `undefined` and the key never appears in the JSON text |
| RuntimeCachingOptions.CacheNameFirst | packages/workbox-build/src/lib/runtime-caching-converter.js:33-35 | `cacheName` is the first property. It holds the options' own `cacheName` when they have one, and `cache.name` otherwise, and it is the first key of the text whenever it is emitted |
| RuntimeCachingOptions.KeyOrder | packages/workbox-build/src/lib/runtime-caching-converter.js:33-50 | the keys are `cacheName`, then the options' own keys in their order, then `cacheExpiration` and `cache` when they were not already present |
| RuntimeCachingOptions.OtherOptionsKept | packages/workbox-build/src/lib/runtime-caching-converter.js:33-35 | every option other than `cacheName`, `cache` and `cacheExpiration` keeps its value |
| RuntimeCachingOptions.ExpirationOutcome | packages/workbox-build/src/lib/runtime-caching-converter.js:39-45 | `cacheExpiration` is the merged object exactly when `cache.maxEntries` or `cache.maxAgeSeconds` is truthy, and the options' own value otherwise |
| RuntimeCachingOptions.ExpirationOverwritesBoth | packages/workbox-build/src/lib/runtime-caching-converter.js:41-44 | when expiration is requested, both limits are copied from `cache`, even `undefined` ones, over the existing values; the other keys of `cacheExpiration` are kept |
| RuntimeCachingOptions.EmptyOptionsExample | packages/workbox-build/src/lib/runtime-caching-converter.js:52-54 | empty options serialise as `{}`, and so do missing options once the caller's `entry.options \|\| {}` has replaced them |
| RuntimeCachingOptions.EmptyOptionsText | packages/workbox-build/src/lib/runtime-caching-converter.js:52-54 | options other than `undefined` and `null` with no own properties serialise as `{}` |
| RuntimeCachingOptions.CacheNameAndLimitExample | packages/workbox-build/src/lib/runtime-caching-converter.js:30-45 | `{cache: {name: "X", maxEntries: 5}}` gives first property `cacheName: "X"`, and a new `cacheExpiration` with `maxEntries` 5 and `maxAgeSeconds` undefined; `cache` is not emitted |
| RuntimeCachingOptions.ExpirationClobberExample | packages/workbox-build/src/lib/runtime-caching-converter.js:41-44 | an existing `cacheExpiration.maxEntries` of 10 is lost, replaced by `undefined`, when only `cache.maxAgeSeconds` is given |
| RuntimeCachingOptions.ZeroLimitExample | packages/workbox-build/src/lib/runtime-caching-converter.js:39 | a limit of 0 is falsy: it requests no expiration and the text is `{}` |
| RuntimeCachingOptions.OwnCacheNameExample | packages/workbox-build/src/lib/runtime-caching-converter.js:33-35 | an own `cacheName` wins over `cache.name` |
| RuntimeCachingConverter.EntryError | packages/workbox-build/src/lib/runtime-caching-converter.js:62-68 | `urlPattern` is checked first: an invalid entry reports `handler-is-required` if and only if its pattern is truthy (a definition: the contract is the two-way check order itself) |
| RuntimeCachingConverter.MethodText | packages/workbox-build/src/lib/runtime-caching-converter.js:60 | a falsy method gives `GET`; a non-empty method string is used as given |
| RuntimeCachingConverter.Matcher | packages/workbox-build/src/lib/runtime-caching-converter.js:73-75 | a string pattern is put in single quotes without escaping; a RegExp gives its own source text |
| RuntimeCachingConverter.StrategyName | packages/workbox-build/src/lib/runtime-caching-converter.js:78-80 | the name is never `fastest`; it is `staleWhileRevalidate` exactly when the handler is `fastest` or `staleWhileRevalidate`, and otherwise it is the handler unchanged |
| RuntimeCachingConverter.ConvertEntry | packages/workbox-build/src/lib/runtime-caching-converter.js:59-92 | it fails exactly for an invalid entry, with `EntryError`. Otherwise it yields a statement exactly when the handler is a string or a function, and that statement is `Statement(e)` |
| RuntimeCachingConverter.HandlerText | packages/workbox-build/src/lib/runtime-caching-converter.js:77-91 | the middle argument: `workboxSW.strategies.<name>(<options text>)` for a string handler, the function's source text for a function (a definition; stated whole by `StrategyStatement` and `CallbackStatement`) |
| RuntimeCachingConverter.Statement | packages/workbox-build/src/lib/runtime-caching-converter.js:87-91 | the `registerRoute` statement of an entry (a definition; see `StatementShape`, `StrategyStatement`, `CallbackStatement`) |
| RuntimeCachingConverter.MapEntries | packages/workbox-build/src/lib/runtime-caching-converter.js:59-92 | `map` with throwing callback: on success there is exactly one result per entry, the callback's result for that entry |
| RuntimeCachingConverter.KeepTruthy | packages/workbox-build/src/lib/runtime-caching-converter.js:93 | the filter keeps at most as many items as it is given, and each one kept is non-empty and one of the given items (its partners `KeepTruthySingle` and `KeepTruthyAppend` pin it down) |
| RuntimeCachingConverter.KeepTruthySingle | packages/workbox-build/src/lib/runtime-caching-converter.js:93 | `Boolean(entry)` on one item: a non-empty statement is kept, an empty one or a nothing-value is dropped |
| RuntimeCachingConverter.KeepTruthyAppend | packages/workbox-build/src/lib/runtime-caching-converter.js:93 | the filter distributes over concatenation; with `KeepTruthySingle` this fixes its result on every list: every truthy item is kept, in input order, and nothing else |
| RuntimeCachingConverter.Convert | packages/workbox-build/src/lib/runtime-caching-converter.js:57-94 | a missing list converts to no statements; on success there are at most as many statements as entries, and none is empty |
| RuntimeCachingConverter.Statements | packages/workbox-build/src/lib/runtime-caching-converter.js:59-93 | the reference filter-then-map: at most one statement per entry, exactly one when every entry has a string or function handler |
| RuntimeCachingConverter.NoEntriesNoRoutes | packages/workbox-build/src/lib/runtime-caching-converter.js:58-59 | no list, or an empty one, converts to no statements |
| RuntimeCachingConverter.FailsIffSomeInvalid | packages/workbox-build/src/lib/runtime-caching-converter.js:59-68 | the conversion fails if and only if some entry lacks a truthy `urlPattern` or `handler` |
| RuntimeCachingConverter.FirstInvalidEntryDecides | packages/workbox-build/src/lib/runtime-caching-converter.js:59-68 | the error is the one of the first invalid entry, whatever follows it, and no partial output is returned |
| RuntimeCachingConverter.RoutesFollowEntries | packages/workbox-build/src/lib/runtime-caching-converter.js:59-93 | when all entries are valid, the output is the statements of the entries with a string or function handler, in input order: map-then-filter equals filter-then-map |
| RuntimeCachingConverter.StatementNotEmpty | packages/workbox-build/src/lib/runtime-caching-converter.js:87-93 | a statement is never empty, so the filter never drops one |
| RuntimeCachingConverter.StatementShape | packages/workbox-build/src/lib/runtime-caching-converter.js:87-91 | every statement begins with `workboxSW.router.registerRoute(<matcher>, ` and ends with `, '<method>');` |
| RuntimeCachingConverter.StrategyStatement | packages/workbox-build/src/lib/runtime-caching-converter.js:77-88 | a string handler's statement is, in full, `workboxSW.router.registerRoute(<matcher>, workboxSW.strategies.<name>(<options text>), '<method>');`, and the options affect it only through their text |
| RuntimeCachingConverter.CallbackStatement | packages/workbox-build/src/lib/runtime-caching-converter.js:89-91 | a function handler is embedded as its source text, and the entry's options do not affect the statement |
| RuntimeCachingConverter.OtherHandlerSkipped | packages/workbox-build/src/lib/runtime-caching-converter.js:77-93 | a valid entry whose handler is neither a string nor a function raises nothing and contributes nothing: the result is the same without it |
| RuntimeCachingConverter.FastestExample | packages/workbox-build/src/lib/runtime-caching-converter.js:77-88 | the entry `{urlPattern: "/api/", handler: "fastest", method: "POST"}` gives one statement, with matcher `'/api/'`, strategy `workboxSW.strategies.staleWhileRevalidate({})` and method `POST` |
| RuntimeCachingConverter.MissingPatternExample | packages/workbox-build/src/lib/runtime-caching-converter.js:62-63 | an entry with neither pattern nor handler reports `urlPattern-is-required`, whatever entries follow |
| RuntimeCachingConverter.EmptyHandlerExample | packages/workbox-build/src/lib/runtime-caching-converter.js:66-67 | an empty handler string is falsy and reports `handler-is-required` |

## Left out

- The `./errors` message table (line 17) is not part of this model. The two errors are the constructors `UrlPatternIsRequired` and `HandlerIsRequired`, not message strings.
- Arrays are not modelled: `Value` has no array case. An array-valued option (such as `cacheableResponse: {statuses: [0, 200]}`) is copied by `Object.assign` and printed by `JSON.stringify` as a JSON array, with `undefined` and function elements as `null`; an array `urlPattern` prints comma-joined inside the statement. Neither is covered.
- Numbers are unbounded integers, printed in plain decimal. Fractions, `NaN`, `Infinity` and the exponent notation of very large numbers are not modelled.
- Strings are sequences of characters. Lone surrogates, and the `\u` escapes `JSON.stringify` writes for them, are not modelled.
- A property list keeps insertion order for every key. JavaScript enumerates integer-like keys (`"1"`, `"2"`) first, in numeric order; that is not modelled.
- `toJSON` methods, getters, symbol keys, inherited or non-enumerable properties, and a `__proto__` key are not modelled.
- An `options` value that is a primitive is modelled as having no own properties. A string would give `Object.assign` its index properties; that is not modelled.
- A function used as `options.cache` is modelled with no properties. In JavaScript its `name` property, the function's name, would become `cacheName`.
- A truthy primitive `cacheExpiration` is modelled as unchanged by the merge. `Object.assign` would assign into a throwaway wrapper, whose JSON text is the primitive. A function `cacheExpiration` is modelled as unchanged too, because JSON omits it.
- RuntimeCachingOptions.GetOptionsString: requires the options' own keys to be distinct. A JavaScript object cannot hold a key twice, so this only excludes lists that represent no object.
- RuntimeCachingOptions.GetOptionsString: `undefined` or `null` options are excluded by its requires, as they are from `OptionsString`. The source throws a `TypeError` on `options.cache` for them, an error kind the model does not have; the converter never passes them, because line 82 substitutes `{}`.
- RuntimeCachingOptions.GetOptionsString: the shared-object write-through is modelled only for the caller's `cacheExpiration`. It is returned as a value, not as an update of a heap object. An object shared between several route entries is not modelled, and entries are converted as independent values.
- A RegExp `cacheExpiration` that gains the two limits is modelled as the plain object of its properties. Serialisation treats the two alike.
- A `null` or `undefined` route entry is not modelled: the source throws a `TypeError` on `entry.method`, a third kind of error the model does not have. Every entry is a `RouteEntry` record whose missing properties are `undefined`; a number, string or boolean entry reads `undefined` for every property, so it behaves as `RouteEntry(Undefined, Undefined, Undefined, Undefined)` and reports `urlPattern-is-required`.
- A truthy `runtimeCaching` that is not an array is not modelled: the source would fail on `map`. A falsy argument is the `None` case.
- How a function or a RegExp prints inside a template literal is host behaviour. Each carries the text it prints as a string.
- RuntimeCachingConverter.FastestExample: states the statement's matcher, strategy and method one by one, rather than as one literal string of the whole statement.
- The build step that calls the converter and writes the generated service-worker file is file I/O outside this module.
