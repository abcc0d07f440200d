/** `retrieveApiKeyDataFromApiKeyUrl` as the TypeScript code runs it: the shaping of
    ApiKeyShaping plus the legacy bridge, which updates the global
    `window.ably.docs` object in place and calls the callback registered there. */
module RemoteApiKeyData {
  import opened JsValue
  import opened ApiKeyShaping

  /** What the `onApiKeyRetrieved` slot holds: nothing callable, a callback that
      returns, or a callback that throws. */
  datatype Callback = Missing | Returns | Throws

  /** The legacy hook `window.ably.docs`, read and written by scripts outside
      this code base. */
  class Docs {
    /** DOCS_API_KEY: `false`, or the key handed to the legacy scripts. */
    var apiKey: Value
    /** onApiKeyRetrieved */
    var callback: Callback
    /** How many times a registered callback has been called. */
    var callbackCalls: nat

    constructor (apiKey: Value, callback: Callback)
      ensures this.apiKey == apiKey && this.callback == callback && callbackCalls == 0
    {
      this.apiKey := apiKey;
      this.callback := callback;
      callbackCalls := 0;
    }

    /** safelyInvokeApiKeyRetrievalTrigger: calls the registered callback once;
        whatever it throws (or the TypeError of calling a missing one) is caught
        and reported through `caught`, never propagated. */
    method SafelyInvokeApiKeyRetrievalTrigger() returns (caught: bool)
      modifies this`callbackCalls
      ensures callbackCalls == old(callbackCalls) + (if callback == Missing then 0 else 1)
      ensures caught <==> callback != Returns
    {
      match callback
      case Missing =>
        caught := true;
      case Returns =>
        callbackCalls := callbackCalls + 1;
        caught := false;
      case Throws =>
        callbackCalls := callbackCalls + 1;
        caught := true;
    }
  }

  /** retrieveApiKeyDataFromApiKeyUrl(payload), with the network's answers in
      `net` and `docs` the hook object as the resolver finds it after the fetches
      (`null` when `window.ably?.docs` is absent then).
      It settles as Resolve says, whatever the callback does; the hook's slot
      receives Resolve's key and the callback is called once per store. */
  method RetrieveApiKeyData(payload: map<string, Value>, net: Network, docs: Docs?) returns (outcome: Outcome<Value>)
    requires Aligned(payload, net)
    modifies docs
    ensures docs == null ==> outcome == Resolve(payload, net, None).outcome
    ensures docs != null ==>
      var res := Resolve(payload, net, Some(old(docs.apiKey)));
      outcome == res.outcome &&
      docs.apiKey == (if res.hookWrite.Some? then res.hookWrite.value else old(docs.apiKey)) &&
      docs.callback == old(docs.callback) &&
      docs.callbackCalls == old(docs.callbackCalls) + (if res.hookWrite.Some? && docs.callback != Missing then 1 else 0)
  {
    if UsesFallback(payload) {
      match net.tempKey
      case FetchFailed =>
        return Rejected;
      case Fetched(tempKey) =>
        if docs != null && !Truthy(docs.apiKey) {
          docs.apiKey := Str(tempKey);
          var _ := docs.SafelyInvokeApiKeyRetrievalTrigger();
        }
        return Resolved(FallbackResult(net.tempKeyEndpoint, tempKey));
    }
    var enriched := EnrichEntries(Entries(payload), net.keyLists);
    if enriched.Rejected? {
      return Rejected;
    }
    var apiKeyData := enriched.value;
    if docs != null {
      var key := FirstWholeKey(apiKeyData);
      if key.None? {
        return Rejected;
      }
      docs.apiKey := key.value;
      var _ := docs.SafelyInvokeApiKeyRetrievalTrigger();
    }
    return Resolved(Obj(payload["data" := Arr(apiKeyData)]));
  }
}
