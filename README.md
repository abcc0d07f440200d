# API-key resolver of the documentation site, in Dafny

The documentation site fetches the list of API keys that its code samples
show. The resolver `retrieveApiKeyDataFromApiKeyUrl`
(`src/redux/api-key/remote-api-key-data.ts`) turns the parsed payload of the
API-key endpoint into the value stored for the samples. It does three things:

- It chooses between a fallback and a success path. The fallback is taken when
  `error` is truthy, or `data` is missing or not an array.
- On the fallback path it returns a single "Demo Only" entry carrying a
  temporary key fetched from WEB_API_TEMP_KEY_ENDPOINT.
- On the success path it fetches the key list of every entry, keeps only
  `name` and `whole_key` of each key record, and returns the payload with
  `data` replaced by the enriched entries.

Along the way it updates a legacy hook, the global `window.ably.docs`. It
stores a key into its `DOCS_API_KEY` slot and calls its `onApiKeyRetrieved`
callback, swallowing anything the callback throws.

The project has three modules:

- `JsValue` (`js_value.dfy`) holds the JavaScript semantics the resolver
  relies on: JSON-shaped values, truthiness, property and index reads that
  throw on `null`/`undefined`, object spread, and lodash `pick`.
- `ApiKeyShaping` (`api_key_shaping.dfy`) holds the pure shaping and the
  function `Resolve`, which specifies one whole resolution: how it settles and
  which key, if any, it stores into the hook. The lemmas about `Resolve` state
  the resolver's properties.
- `RemoteApiKeyData` (`remote_api_key_data.dfy`) holds the hook as a class
  `Docs` updated in place, and the resolver as a method `RetrieveApiKeyData`
  proved against `Resolve`.

The network is not modelled. Its answers are an input, `Network`:

- the value of WEB_API_TEMP_KEY_ENDPOINT;
- the temporary-key text, or a failed fetch;
- one fetched JSON value (or a failed fetch) per entry of `payload.data`, in
  input order.

A failed fetch, or a TypeError thrown inside the resolver, makes the
asynchronous resolver reject (`Rejected`).

The resolver does not always return a non-empty `data`. A payload
`{data: []}` takes the success path. Without the hook it resolves to
`{data: []}`. With the hook, the read `apiKeyData[0].apiKeys[0]` at line 63
throws and the resolver rejects. `ApiKeyShaping.EmptyDataArray` proves both.

## Model

| member | source | states |
|---|---|---|
| JsValue.Prop | src/redux/api-key/remote-api-key-data.ts:53-54 | a property read such as `value.url` throws exactly when the value is `null` or `undefined` |
| JsValue.ReadsThrowTogether | src/redux/api-key/remote-api-key-data.ts:63 | a property read and an index read throw on the same values, exactly `null` and `undefined` |
| JsValue.Truthy | src/redux/api-key/remote-api-key-data.ts:28-33 | a value is falsy exactly when it is `undefined`, `null`, `false`, `0` or `""`; so every array and object is truthy |
| JsValue.Index | src/redux/api-key/remote-api-key-data.ts:63 | `o[i]` on an object is the property read `o[String(i)]` for indices below 10^21; an in-range array or string index gives the element or character, past the end `undefined`; it throws exactly on `null`/`undefined` |
| JsValue.DecimalStringSpellsValue | src/redux/api-key/remote-api-key-data.ts:63 | the property key an index read uses (for indices below 10^21) spells the index: reading its digits back gives the index |
| JsValue.OwnFields | src/redux/api-key/remote-api-key-data.ts:56 | `{...o}.k === o.k` for every object `o` and key `k`; spreading `null`, `undefined`, a boolean or a number adds no readable property |
| JsValue.Pick | src/redux/api-key/remote-api-key-data.ts:55 | `pick` keeps only the named keys, copies their values unchanged, and drops none of the named keys the record has |
| ApiKeyShaping.UsesFallback | src/redux/api-key/remote-api-key-data.ts:28 | the fallback is chosen exactly when `error` is truthy or `data` is not an array; the `!payload.data` test is subsumed |
| ApiKeyShaping.FallbackResult | src/redux/api-key/remote-api-key-data.ts:37-50 | the fallback value has only `data`, holding one entry with name "Demo Only", url the temp-key endpoint, and one key with name "Demo Only" and `whole_key` the temp key |
| ApiKeyShaping.ProjectKeys | src/redux/api-key/remote-api-key-data.ts:55 | one key per raw record, same length and order, each the `pick` of `name` and `whole_key` from the record at the same index |
| ApiKeyShaping.EnrichEntry | src/redux/api-key/remote-api-key-data.ts:53-57 | an entry resolves exactly when it is not nullish and its fetch gave an array; it then keeps every field of the input entry and gets `apiKeys` as the projected list |
| ApiKeyShaping.EnrichEntries | src/redux/api-key/remote-api-key-data.ts:52-58 | all entries resolve or the whole step rejects; on success, output i is the enrichment of input entry i with fetch i, for every i |
| ApiKeyShaping.FirstWholeKey | src/redux/api-key/remote-api-key-data.ts:63 | the read of `apiKeyData[0].apiKeys[0].whole_key` succeeds exactly when `data` is non-empty and its first entry has a key, and then gives that key's `whole_key` |
| ApiKeyShaping.Resolve | src/redux/api-key/remote-api-key-data.ts:27-73 | a resolution that stores a key into the hook has resolved and found the hook present |
| ApiKeyShaping.FallbackPath | src/redux/api-key/remote-api-key-data.ts:28-50 | the fallback rejects only when the temp-key fetch fails, otherwise returns the "Demo Only" value, and stores the temp key exactly when the hook exists and its slot is falsy |
| ApiKeyShaping.FallbackIgnoresPayload | src/redux/api-key/remote-api-key-data.ts:37-50 | no payload field reaches the fallback result: any two fallback payloads resolve identically |
| ApiKeyShaping.FallbackStoresAtMostOnce | src/redux/api-key/remote-api-key-data.ts:33-36 | after one fallback stored a non-empty temp key, a later fallback leaves the hook unchanged and does not call the callback |
| ApiKeyShaping.SuccessPassthrough | src/redux/api-key/remote-api-key-data.ts:52-72 | the success result keeps every top-level payload field but `data`; `data` keeps length and order, and entry i keeps input entry i's fields with `apiKeys` from fetch i |
| ApiKeyShaping.SuccessAllOrNothing | src/redux/api-key/remote-api-key-data.ts:52-58 | one failed per-entry fetch rejects the whole resolution, and nothing is stored into the hook |
| ApiKeyShaping.SuccessHookKey | src/redux/api-key/remote-api-key-data.ts:62-65 | with the hook present the success path resolves exactly when `data` is non-empty and the first fetched list is non-empty, and then overwrites the slot with that list's first `whole_key` |
| ApiKeyShaping.HookDoesNotAlterResult | src/redux/api-key/remote-api-key-data.ts:62-72 | without the hook nothing is stored; with it the resolver returns the same value as without it, or rejects |
| ApiKeyShaping.ResolvedShape | src/redux/api-key/remote-api-key-data.ts:37-72 | on both paths the result has a `data` array whose entries carry `apiKeys` arrays of records holding at most `name` and `whole_key` |
| ApiKeyShaping.EmptyDataArray | src/redux/api-key/remote-api-key-data.ts:52-72 | `{data: []}` resolves to `{data: []}` without the hook and rejects with it |
| ApiKeyShaping.SingleEntryExample | src/redux/api-key/remote-api-key-data.ts:52-72 | one entry whose key record has an extra field resolves to the entry with that field dropped from its key, and the hook receives its `whole_key` |
| RemoteApiKeyData.Docs.constructor | src/redux/api-key/remote-api-key-data.ts:9-15 | a hook object with the given key slot and callback, not yet called |
| RemoteApiKeyData.Docs.SafelyInvokeApiKeyRetrievalTrigger | src/redux/api-key/remote-api-key-data.ts:19-25 | calls a registered callback exactly once, and always returns: a throwing or missing callback is caught |
| RemoteApiKeyData.RetrieveApiKeyData | src/redux/api-key/remote-api-key-data.ts:27-73 | settles as `Resolve` says whatever the callback does; the hook slot gets `Resolve`'s key and the callback is called once per store; without the hook no state changes |

## Left out

- Network I/O: `fetch`, `.text()` and `getJsonResponse` are not modelled. Their answers are inputs, and their cache strategy is not modelled.
- `fetchApiKeyData` and the Store write through `addDataToStore` (lines 75-76) are not modelled. `../fetch-and-add-to-store` is not part of this model.
- WEB_API_TEMP_KEY_ENDPOINT and API_KEY_LOADED_EVENT are defined in `./constants`, which is not part of this model. The endpoint is a field of the `Network` input.
- Concurrency of `Promise.all`: the per-entry fetches are modelled as an ordered, all-or-nothing map. Which rejection reason is reported depends on completion order, so the model keeps no reason.
- `console.warn` and `console.error` are not modelled. `SafelyInvokeApiKeyRetrievalTrigger` reports a caught error through its result instead.
- Anything the legacy callback does besides returning or throwing is not modelled, such as writing the hook slot itself.
- RemoteApiKeyData.RetrieveApiKeyData and ApiKeyShaping.Resolve: require one per-entry answer for each entry of `payload.data`. This is how the inputs are lined up; the resolver itself makes no such demand.
- Strings are sequences of Unicode characters, not of UTF-16 code units, so a string index read splits surrogate pairs differently.
- JavaScript numbers are modelled as integers, so `NaN` and `-0` (both falsy) are not represented.
- JsValue.Index: an index of 10^21 or more is keyed by its plain decimal digits, where JavaScript's `String(i)` switches to exponent form (`"1e+21"`). The resolver indexes only with `0`.
- The hook is read once, after the fetches (lines 33 and 62); the model takes its state at that moment, and outside writes to `window.ably.docs` during the fetches are not modelled.
- The hook's `randomChannelName` field (line 12) is not modelled: the resolver never reads it.
- JsValue.OwnFields: spreading a string or an array copies its index properties in JavaScript; the model copies nothing for them.
- Prototype properties (such as `length` of a string) are not modelled. The resolver reads one kind: `map` from Array.prototype, on `payload.data` (line 53) and on the fetched key list (line 55). The model renders that read as the `Arr?` test in `UsesFallback` and `EnrichEntry`: an array has `map`, any other value makes the call throw.
- A payload that is not a plain object is not modelled. The type `Record<string, unknown>` is only a compile-time annotation: at run time a `null` body throws at line 28, and an array or primitive body takes the fallback. The model takes the payload as a map of fields and leaves these cases out.
- The menu, style and homepage components (`TopCodeMenu.tsx`, `menu-list-styles.ts`, `BodySectionDescriptionContainer.tsx`) are JSX rendering and style constants with no logic to verify.
