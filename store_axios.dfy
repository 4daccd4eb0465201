/**
 * The store wrapper: a default configuration fixed at construction and merged into
 * GET requests only, and four verbs that report failures (never successes) to the store.
 */
module StoreAxios {
  import opened Wrappers
  import opened Message
  import opened Config
  import opened Http

  class Client<V, B> {
    const defaultConfig: Option<map<string, V>>
    const message: Store

    /** The module's default export, called with `api` and `defaultConfig`; `message` is the shared store. */
    constructor (message: Store, defaultConfig: Option<map<string, V>>)
      ensures this.message == message && this.defaultConfig == defaultConfig
    {
      this.message := message;
      this.defaultConfig := defaultConfig;
    }

    /** The `try`/`catch` common to the four verbs: warnings only. */
    method Settle(url: string, showErr: bool, outcome: Outcome) returns (result: CallResult)
      modifies message
      ensures result == ResultOf(outcome)
      ensures outcome.Success? ==> message.State() == old(message.State())
      ensures message.State() == AfterCall(old(message.State()), url, showErr, outcome, false)
    {
      match outcome
      case Success(response) =>
        result := Returned(response);
      case Failure(errResponse, errMessage) =>
        result := False;
        if showErr {
          if errResponse.Some? {
            message.ToggleWarning(url, WarningOptions(errResponse.value, errMessage));
          }
        }
    }

    /** `apiGET`: the only verb that merges the default configuration. */
    method Get(url: string, config: Option<map<string, V>>, showErr: bool, outcome: Outcome)
      returns (request: Request<V, B>, result: CallResult)
      modifies message
      ensures request == Request.Get(url, Some(Combine(defaultConfig, config)))
      ensures result == ResultOf(outcome)
      ensures message.State() == AfterCall(old(message.State()), url, showErr, outcome, false)
    {
      var merged := Combine(defaultConfig, config);
      request := Request.Get(url, Some(merged));
      result := Settle(url, showErr, outcome);
    }

    /** `apiPOST`: the per-call configuration is passed through. */
    method Post(url: string, data: Option<B>, config: Option<map<string, V>>, showErr: bool, outcome: Outcome)
      returns (request: Request<V, B>, result: CallResult)
      modifies message
      ensures request == Request.Post(url, data, config)
      ensures result == ResultOf(outcome)
      ensures message.State() == AfterCall(old(message.State()), url, showErr, outcome, false)
    {
      request := Request.Post(url, data, config);
      result := Settle(url, showErr, outcome);
    }

    /** `apiPUT`: the per-call configuration is passed through. */
    method Put(url: string, data: Option<B>, config: Option<map<string, V>>, showErr: bool, outcome: Outcome)
      returns (request: Request<V, B>, result: CallResult)
      modifies message
      ensures request == Request.Put(url, data, config)
      ensures result == ResultOf(outcome)
      ensures message.State() == AfterCall(old(message.State()), url, showErr, outcome, false)
    {
      request := Request.Put(url, data, config);
      result := Settle(url, showErr, outcome);
    }

    /** `apiDELETE`: the per-call configuration is passed through. */
    method Delete(url: string, config: Option<map<string, V>>, showErr: bool, outcome: Outcome)
      returns (request: Request<V, B>, result: CallResult)
      modifies message
      ensures request == Request.Delete(url, config)
      ensures result == ResultOf(outcome)
      ensures message.State() == AfterCall(old(message.State()), url, showErr, outcome, false)
    {
      request := Request.Delete(url, config);
      result := Settle(url, showErr, outcome);
    }
  }
}
