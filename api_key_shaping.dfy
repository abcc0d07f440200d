/** The pure part of `retrieveApiKeyDataFromApiKeyUrl`: which path it takes, the
    "Demo Only" fallback literal, the per-entry key projection, the payload
    passthrough, and which key the legacy hook receives. The network answers
    are given as inputs (`Network`), and the whole resolution is specified by
    the function `Resolve`. */
module ApiKeyShaping {
  import opened JsValue

  const DemoOnly: string := "Demo Only"

  /** The only fields of a raw key record that survive the projection. */
  const KeyFields: set<string> := {"name", "whole_key"}

  /** How the asynchronous resolver settles. The rejection reason is not kept. */
  datatype Outcome<T> = Resolved(value: T) | Rejected

  /** What one `fetch` gives: a body, or a failed request. */
  datatype Fetched<T> = Fetched(body: T) | FetchFailed

  /** The answers the network gives during one resolution.
      `tempKeyEndpoint` is the value of WEB_API_TEMP_KEY_ENDPOINT, `tempKey` the
      text body fetched from it, and `keyLists[i]` the parsed JSON fetched from
      the url of the i-th entry of `payload.data`. */
  datatype Network = Network(tempKeyEndpoint: string, tempKey: Fetched<string>, keyLists: seq<Fetched<Value>>)

  /** What one resolution does: how it settles, and the key it stores into the
      legacy hook's DOCS_API_KEY slot (each store is followed by one call of the
      hook's callback). */
  datatype Resolution = Resolution(outcome: Outcome<Value>, hookWrite: Option<Value>)

  /** The guard at the top of the resolver: `payload.error || !payload.data ||
      !isArray(payload.data)`. Since every array is truthy, the middle test adds
      nothing: the fallback is taken exactly when `error` is truthy or `data` is
      not an array. */
  function UsesFallback(payload: map<string, Value>): (fallback: bool)
    ensures fallback <==> Truthy(Get(payload, "error")) || !Get(payload, "data").Arr?
  {
    Truthy(Get(payload, "error")) || !Truthy(Get(payload, "data")) || !Get(payload, "data").Arr?
  }

  /** The entries of `payload.data` on the success path. */
  function Entries(payload: map<string, Value>): seq<Value>
    requires !UsesFallback(payload)
  {
    payload["data"].items
  }

  /** The model's inputs line up: on the success path there is one per-entry
      fetch for every entry of `payload.data`. */
  predicate Aligned(payload: map<string, Value>, net: Network) {
    !UsesFallback(payload) ==> |Entries(payload)| == |net.keyLists|
  }

  /** The value the fallback path returns: one "Demo Only" entry whose url is the
      temporary-key endpoint and whose single key is the temporary key. */
  function FallbackResult(endpoint: string, tempKey: string): (r: Value)
    ensures r.Obj? && r.fields.Keys == {"data"}
    ensures r.fields["data"].Arr? && |r.fields["data"].items| == 1
    ensures var entry := r.fields["data"].items[0];
      entry.Obj? && entry.fields.Keys == {"name", "url", "apiKeys"} &&
      entry.fields["name"] == Str(DemoOnly) && entry.fields["url"] == Str(endpoint) &&
      entry.fields["apiKeys"].Arr? && |entry.fields["apiKeys"].items| == 1 &&
      var key := entry.fields["apiKeys"].items[0];
      key.Obj? && key.fields.Keys == KeyFields &&
      key.fields["name"] == Str(DemoOnly) && key.fields["whole_key"] == Str(tempKey)
  {
    var key := Obj(map["name" := Str(DemoOnly), "whole_key" := Str(tempKey)]);
    var entry := Obj(map["name" := Str(DemoOnly), "url" := Str(endpoint), "apiKeys" := Arr([key])]);
    Obj(map["data" := Arr([entry])])
  }

  /** `apiKeysRaw.map(pick(['name', 'whole_key']))`: element by element, in order. */
  function ProjectKeys(records: seq<Value>): (keys: seq<Value>)
    ensures |keys| == |records|
    ensures forall i :: 0 <= i < |records| ==> keys[i] == Obj(Pick(records[i], KeyFields))
  {
    if records == [] then [] else [Obj(Pick(records[0], KeyFields))] + ProjectKeys(records[1..])
  }

  /** A key record as the projection leaves it: an object holding at most `name`
      and `whole_key`. */
  predicate IsProjectedKey(key: Value) {
    key.Obj? && key.fields.Keys <= KeyFields
  }

  /** An entry as the resolver hands it out on either path: an object whose
      `apiKeys` is an array of projected key records. */
  predicate IsEnrichedEntry(entry: Value) {
    entry.Obj? && "apiKeys" in entry.fields && entry.fields["apiKeys"].Arr? &&
    forall i :: 0 <= i < |entry.fields["apiKeys"].items| ==> IsProjectedKey(entry.fields["apiKeys"].items[i])
  }

  /** One call of the per-entry callback: `{ ...value, apiKeys }`. It rejects when
      `value.url` throws (a nullish entry), when the fetch fails, and when the
      fetched JSON is not an array (`apiKeysRaw.map` is not a function). */
  function EnrichEntry(entry: Value, fetched: Fetched<Value>): (r: Outcome<Value>)
    ensures r.Resolved? <==> !Nullish(entry) && fetched.Fetched? && fetched.body.Arr?
    ensures r.Resolved? ==>
      r.value.Obj? && r.value.fields.Keys == OwnFields(entry).Keys + {"apiKeys"} &&
      (forall k :: k in OwnFields(entry) && k != "apiKeys" ==> r.value.fields[k] == OwnFields(entry)[k]) &&
      r.value.fields["apiKeys"] == Arr(ProjectKeys(fetched.body.items))
    ensures r.Resolved? ==> IsEnrichedEntry(r.value)
  {
    if Nullish(entry) then Rejected
    else match fetched
      case FetchFailed => Rejected
      case Fetched(raw) =>
        if raw.Arr? then Resolved(Obj(OwnFields(entry)["apiKeys" := Arr(ProjectKeys(raw.items))]))
        else Rejected
  }

  /** `Promise.all(payload.data.map(...))`: all-or-nothing, and in input order
      whatever order the fetches complete in. */
  function EnrichEntries(entries: seq<Value>, lists: seq<Fetched<Value>>): (r: Outcome<seq<Value>>)
    requires |entries| == |lists|
    ensures r.Resolved? <==> forall i :: 0 <= i < |entries| ==> EnrichEntry(entries[i], lists[i]).Resolved?
    ensures r.Resolved? ==>
      |r.value| == |entries| &&
      forall i :: 0 <= i < |entries| ==> Resolved(r.value[i]) == EnrichEntry(entries[i], lists[i])
  {
    if entries == [] then Resolved([])
    else match (EnrichEntry(entries[0], lists[0]), EnrichEntries(entries[1..], lists[1..]))
      case (Resolved(first), Resolved(rest)) => Resolved([first] + rest)
      case _ => Rejected
  }

  /** The key records of an entry: its `apiKeys` array, or none. */
  function ApiKeysOf(entry: Value): seq<Value> {
    var keys := Get(OwnFields(entry), "apiKeys");
    if keys.Arr? then keys.items else []
  }

  /** `apiKeyData[0].apiKeys[0].whole_key`; `None` stands for the TypeError thrown
      when `apiKeyData` is empty or its first entry has no keys. */
  function FirstWholeKey(enriched: seq<Value>): (r: Option<Value>)
    requires forall i :: 0 <= i < |enriched| ==> IsEnrichedEntry(enriched[i])
    ensures r.Some? <==> |enriched| > 0 && |ApiKeysOf(enriched[0])| > 0
    ensures r.Some? ==> r.value == Get(OwnFields(ApiKeysOf(enriched[0])[0]), "whole_key")
  {
    var first := if |enriched| > 0 then enriched[0] else Undefined;
    assert |enriched| > 0 ==> IsEnrichedEntry(first);
    match Prop(first, "apiKeys")
    case None => None
    case Some(keys) =>
      match Index(keys, 0)
      case None => None
      case Some(key) => Prop(key, "whole_key")
  }

  /** The whole resolution of `retrieveApiKeyDataFromApiKeyUrl(payload)`.
      `hookKey` is the hook's state at the one point where the resolver reads
      it, after the fetches: `Some(k)` when `window.ably.docs` exists then and
      its DOCS_API_KEY slot holds `k`, and `None` when there is no hook then.
      Every failure happens before the hook is written, so a rejected
      resolution stores nothing. */
  function Resolve(payload: map<string, Value>, net: Network, hookKey: Option<Value>): (res: Resolution)
    requires Aligned(payload, net)
    ensures res.hookWrite.Some? ==> res.outcome.Resolved? && hookKey.Some?
  {
    if UsesFallback(payload) then
      match net.tempKey
      case FetchFailed => Resolution(Rejected, None)
      case Fetched(tempKey) =>
        var write := if hookKey.Some? && !Truthy(hookKey.value) then Some(Str(tempKey)) else None;
        Resolution(Resolved(FallbackResult(net.tempKeyEndpoint, tempKey)), write)
    else
      match EnrichEntries(Entries(payload), net.keyLists)
      case Rejected => Resolution(Rejected, None)
      case Resolved(enriched) =>
        var result := Obj(payload["data" := Arr(enriched)]);
        if hookKey.None? then Resolution(Resolved(result), None)
        else match FirstWholeKey(enriched)
          case None => Resolution(Rejected, None)
          case Some(key) => Resolution(Resolved(result), Some(key))
  }

  /** The data array of a resolved value. */
  function DataOf(result: Value): seq<Value> {
    var data := Get(OwnFields(result), "data");
    if data.Arr? then data.items else []
  }

  /** The fallback path: it rejects only when the temporary-key fetch fails;
      otherwise it returns the "Demo Only" value, and it stores the temporary
      key into the hook exactly when the hook exists and its slot is falsy. */
  lemma FallbackPath(payload: map<string, Value>, net: Network, hookKey: Option<Value>)
    requires Aligned(payload, net) && UsesFallback(payload)
    ensures var res := Resolve(payload, net, hookKey);
      (res.outcome.Rejected? <==> net.tempKey.FetchFailed?) &&
      (net.tempKey.Fetched? ==> res.outcome == Resolved(FallbackResult(net.tempKeyEndpoint, net.tempKey.body))) &&
      (res.hookWrite.Some? <==> net.tempKey.Fetched? && hookKey.Some? && !Truthy(hookKey.value)) &&
      (res.hookWrite.Some? ==> res.hookWrite.value == Str(net.tempKey.body))
  {
  }

  /** No field of the payload reaches the fallback result: two payloads that both
      take the fallback resolve identically. */
  lemma FallbackIgnoresPayload(p1: map<string, Value>, p2: map<string, Value>, net: Network, hookKey: Option<Value>)
    requires UsesFallback(p1) && UsesFallback(p2)
    ensures Aligned(p1, net) && Aligned(p2, net)
    ensures Resolve(p1, net, hookKey) == Resolve(p2, net, hookKey)
  {
  }

  /** Once a fallback has stored a non-empty temporary key, the slot is truthy,
      so a later fallback resolution leaves the hook alone. */
  lemma FallbackStoresAtMostOnce(p1: map<string, Value>, p2: map<string, Value>, n1: Network, n2: Network, hookKey: Option<Value>)
    requires UsesFallback(p1) && UsesFallback(p2)
    requires n1.tempKey.Fetched? && n1.tempKey.body != ""
    requires hookKey.Some?
    ensures Aligned(p1, n1) && Aligned(p2, n2)
    ensures var first := Resolve(p1, n1, hookKey);
      var slot := if first.hookWrite.Some? then first.hookWrite.value else hookKey.value;
      Truthy(slot) && Resolve(p2, n2, Some(slot)).hookWrite.None?
  {
  }

  /** The success path keeps every top-level field of the payload except `data`,
      which keeps its length and order: entry i keeps all the fields of input
      entry i and gets as `apiKeys` the projection of the i-th fetched list. */
  lemma SuccessPassthrough(payload: map<string, Value>, net: Network, hookKey: Option<Value>)
    requires Aligned(payload, net) && !UsesFallback(payload)
    requires Resolve(payload, net, hookKey).outcome.Resolved?
    ensures var result := Resolve(payload, net, hookKey).outcome.value;
      var entries := Entries(payload);
      result.Obj? && result.fields.Keys == payload.Keys &&
      (forall k :: k in payload && k != "data" ==> result.fields[k] == payload[k]) &&
      result.fields["data"].Arr? && |result.fields["data"].items| == |entries| &&
      forall i :: 0 <= i < |entries| ==>
        var out := result.fields["data"].items[i];
        net.keyLists[i].Fetched? && net.keyLists[i].body.Arr? &&
        out.Obj? && out.fields.Keys == OwnFields(entries[i]).Keys + {"apiKeys"} &&
        (forall k :: k in OwnFields(entries[i]) && k != "apiKeys" ==> out.fields[k] == OwnFields(entries[i])[k]) &&
        out.fields["apiKeys"] == Arr(ProjectKeys(net.keyLists[i].body.items))
  {
  }

  /** The success path rejects when a per-entry fetch fails: no partial result. */
  lemma SuccessAllOrNothing(payload: map<string, Value>, net: Network, hookKey: Option<Value>, i: nat)
    requires Aligned(payload, net) && !UsesFallback(payload)
    requires i < |net.keyLists| && net.keyLists[i].FetchFailed?
    ensures Resolve(payload, net, hookKey) == Resolution(Rejected, None)
  {
  }

  /** With the hook present, a success-path resolution whose per-entry fetches all
      succeeded still rejects unless `data` is non-empty and the first list of
      keys is non-empty; when it resolves, the hook receives the `whole_key` of
      the first raw record of the first entry (`undefined` when it has none). */
  lemma SuccessHookKey(payload: map<string, Value>, net: Network, key: Value)
    requires Aligned(payload, net) && !UsesFallback(payload)
    requires EnrichEntries(Entries(payload), net.keyLists).Resolved?
    ensures var res := Resolve(payload, net, Some(key));
      var entries := Entries(payload);
      (res.outcome.Resolved? <==> |entries| > 0 && |net.keyLists[0].body.items| > 0) &&
      (res.outcome.Resolved? ==> res.hookWrite == Some(Get(OwnFields(net.keyLists[0].body.items[0]), "whole_key"))) &&
      (res.outcome.Rejected? ==> res.hookWrite.None?)
  {
  }

  /** The hook never changes the value a resolution returns: with the hook
      present the resolver either returns what it returns without it, or rejects
      (the read at `apiKeyData[0].apiKeys[0]`); without the hook nothing is stored. */
  lemma HookDoesNotAlterResult(payload: map<string, Value>, net: Network, key: Value)
    requires Aligned(payload, net)
    ensures Resolve(payload, net, None).hookWrite.None?
    ensures var with := Resolve(payload, net, Some(key)).outcome;
      with.Resolved? ==> with == Resolve(payload, net, None).outcome
    ensures Resolve(payload, net, None).outcome.Rejected? ==> Resolve(payload, net, Some(key)).outcome.Rejected?
  {
  }

  /** Both paths hand out the same shape: a `data` array whose entries carry an
      `apiKeys` array of records holding at most `name` and `whole_key`. */
  lemma ResolvedShape(payload: map<string, Value>, net: Network, hookKey: Option<Value>)
    requires Aligned(payload, net)
    requires Resolve(payload, net, hookKey).outcome.Resolved?
    ensures var result := Resolve(payload, net, hookKey).outcome.value;
      "data" in OwnFields(result) && OwnFields(result)["data"].Arr? &&
      forall i :: 0 <= i < |DataOf(result)| ==> IsEnrichedEntry(DataOf(result)[i])
  {
  }

  /** A well-formed payload whose `data` array is empty takes the success path:
      without the hook it resolves to an empty `data` array (so the result need
      not hold an entry), and with the hook it rejects. */
  lemma EmptyDataArray(endpoint: string, tempKey: Fetched<string>, key: Value)
    ensures var payload := map["data" := Arr([])];
      var net := Network(endpoint, tempKey, []);
      Aligned(payload, net) &&
      Resolve(payload, net, None) == Resolution(Resolved(Obj(payload)), None) &&
      DataOf(Obj(payload)) == [] &&
      Resolve(payload, net, Some(key)) == Resolution(Rejected, None)
  {
    var payload := map["data" := Arr([])];
    assert payload["data" := Arr([])] == payload;
  }

  /** One entry `{name: "A", url: "/a"}` whose key list is
      `[{name: "k1", whole_key: "secret1", extra: "x"}]` resolves to the entry with
      `apiKeys: [{name: "k1", whole_key: "secret1"}]`: `extra` is dropped. */
  lemma SingleEntryExample(endpoint: string, tempKey: Fetched<string>)
    ensures var entry := Obj(map["name" := Str("A"), "url" := Str("/a")]);
      var raw := Obj(map["name" := Str("k1"), "whole_key" := Str("secret1"), "extra" := Str("x")]);
      var payload := map["data" := Arr([entry])];
      var net := Network(endpoint, tempKey, [Fetched(Arr([raw]))]);
      var expected := Obj(map["name" := Str("A"), "url" := Str("/a"),
                              "apiKeys" := Arr([Obj(map["name" := Str("k1"), "whole_key" := Str("secret1")])])]);
      Aligned(payload, net) &&
      Resolve(payload, net, None) == Resolution(Resolved(Obj(map["data" := Arr([expected])])), None) &&
      Resolve(payload, net, Some(Bool(false))) == Resolution(Resolved(Obj(map["data" := Arr([expected])])), Some(Str("secret1")))
  {
    var raw := Obj(map["name" := Str("k1"), "whole_key" := Str("secret1"), "extra" := Str("x")]);
    var entry := Obj(map["name" := Str("A"), "url" := Str("/a")]);
    var key := Obj(map["name" := Str("k1"), "whole_key" := Str("secret1")]);
    var expected := Obj(map["name" := Str("A"), "url" := Str("/a"), "apiKeys" := Arr([key])]);
    var payload := map["data" := Arr([entry])];
    assert Pick(raw, KeyFields) == key.fields;
    assert ProjectKeys([raw]) == [key];
    assert [expected] + [] == [expected];
    assert payload["data" := Arr([expected])] == map["data" := Arr([expected])];
  }
}
