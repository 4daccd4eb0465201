/**
 * The composable wrapper: a mutable default configuration, merged into GET
 * requests only, and four verbs that report successes and failures to the store.
 */
module ComposableAxios {
  import opened Wrappers
  import opened Js
  import opened Message
  import opened Config
  import opened Http

  class Client<V, B> {
    var defaultConfig: Option<map<string, V>>
    const message: Store

    /** `useAxios(initialConfig, defaultConfig)`; `message` is the shared store. */
    constructor (message: Store, defaultConfig: Option<map<string, V>>)
      ensures this.message == message && this.defaultConfig == defaultConfig
    {
      this.message := message;
      this.defaultConfig := defaultConfig;
    }

    /** Overlays `config` on the current default (an empty one if there is none). */
    method UpdateDefaultConfig(config: Option<map<string, V>>)
      modifies this
      ensures defaultConfig == Some(Combine(old(defaultConfig), config))
    {
      if defaultConfig.None? {
        defaultConfig := Some(map[]);
      }
      assert config.None? ==> defaultConfig.value + Spread(config) == defaultConfig.value;
      defaultConfig := Some(defaultConfig.value + Spread(config));
    }

    /** Replaces the default wholesale. */
    method RenewDefaultConfig(config: Option<map<string, V>>)
      modifies this
      ensures defaultConfig == config
    {
      defaultConfig := config;
    }

    /** The `try`/`catch` common to the four verbs. */
    method Settle(url: string, showMsg: bool, outcome: Outcome) returns (result: CallResult)
      modifies message
      ensures result == ResultOf(outcome)
      ensures message.State() == AfterCall(old(message.State()), url, showMsg, outcome, true)
    {
      match outcome
      case Success(response) =>
        result := Returned(response);
        if showMsg {
          if response.data.Body? {
            message.ToggleSuccess(url, SuccessOptions(response.data.message));
          }
        }
      case Failure(errResponse, errMessage) =>
        result := False;
        if showMsg {
          if errResponse.Some? {
            message.ToggleWarning(url, WarningOptions(errResponse.value, errMessage));
          }
        }
    }

    /** `apiGET`: the only verb that merges the default configuration. */
    method Get(url: string, config: Option<map<string, V>>, showMsg: bool, outcome: Outcome)
      returns (request: Request<V, B>, result: CallResult)
      modifies message
      ensures request == Request.Get(url, Some(Combine(defaultConfig, config)))
      ensures result == ResultOf(outcome)
      ensures message.State() == AfterCall(old(message.State()), url, showMsg, outcome, true)
    {
      var merged := Combine(defaultConfig, config);
      request := Request.Get(url, Some(merged));
      result := Settle(url, showMsg, outcome);
    }

    /** `apiPOST`: the per-call configuration is passed through. */
    method Post(url: string, data: Option<B>, config: Option<map<string, V>>, showMsg: bool, outcome: Outcome)
      returns (request: Request<V, B>, result: CallResult)
      modifies message
      ensures request == Request.Post(url, data, config)
      ensures result == ResultOf(outcome)
      ensures message.State() == AfterCall(old(message.State()), url, showMsg, outcome, true)
    {
      request := Request.Post(url, data, config);
      result := Settle(url, showMsg, outcome);
    }

    /** `apiPUT`: the per-call configuration is passed through. */
    method Put(url: string, data: Option<B>, config: Option<map<string, V>>, showMsg: bool, outcome: Outcome)
      returns (request: Request<V, B>, result: CallResult)
      modifies message
      ensures request == Request.Put(url, data, config)
      ensures result == ResultOf(outcome)
      ensures message.State() == AfterCall(old(message.State()), url, showMsg, outcome, true)
    {
      request := Request.Put(url, data, config);
      result := Settle(url, showMsg, outcome);
    }

    /** `apiDELETE`: the per-call configuration is passed through. */
    method Delete(url: string, config: Option<map<string, V>>, showMsg: bool, outcome: Outcome)
      returns (request: Request<V, B>, result: CallResult)
      modifies message
      ensures request == Request.Delete(url, config)
      ensures result == ResultOf(outcome)
      ensures message.State() == AfterCall(old(message.State()), url, showMsg, outcome, true)
    {
      request := Request.Delete(url, config);
      result := Settle(url, showMsg, outcome);
    }
  }

  /** Updates accumulate, a renewal discards every earlier key, and only GET sees the default. */
  method DefaultConfigScenario(store: Store)
    returns (client: Client<int, int>, afterUpdates: Option<map<string, int>>, get: Request<int, int>, post: Request<int, int>)
    modifies store
    ensures afterUpdates == Some(map["a" := 1, "b" := 2])
    ensures client.defaultConfig == Some(map["x" := 9])
    ensures get == Request.Get("/u", Some(map["x" := 9]))
    ensures post == Request.Post("/u", None, None)
  {
    client := new Client<int, int>(store, None);
    client.UpdateDefaultConfig(Some(map["a" := 1]));
    client.UpdateDefaultConfig(Some(map["b" := 2]));
    CumulativeExamples();
    afterUpdates := client.defaultConfig;
    client.RenewDefaultConfig(Some(map["x" := 9]));
    var r1, r2;
    get, r1 := client.Get("/u", None, true, Failure(None, Str("Network Error")));
    assert r1 == False;
    post, r2 := client.Post("/u", None, None, true, Failure(None, Str("Network Error")));
    assert r2 == False;
  }
}
