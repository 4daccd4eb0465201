/**
 * What a wrapped request does once the HTTP client has settled: the value it
 * returns and the notification it writes. The client itself is an abstract
 * `Outcome`; the request handed to it is a `Request` value.
 */
module Http {
  import opened Wrappers
  import opened Js
  import opened Message

  /**
   * The `data` of a response: `NoData` when it is falsy, otherwise an object whose
   * `message` property is `message` (`Plain(Undefined)` when it has none).
   */
  datatype Data = NoData | Body(message: Text)

  datatype Response = Response(data: Data)

  /** How the client settled: resolved with a response, or rejected with an error. */
  datatype Outcome =
    | Success(response: Response)
    | Failure(errResponse: Option<Response>, errMessage: Scalar)

  /** What a wrapped call returns: the response, or `false`. */
  datatype CallResult = Returned(response: Response) | False

  /** The call made on the HTTP client, with the configuration it receives. */
  datatype Request<V, B> =
    | Get(url: string, config: Option<map<string, V>>)
    | Post(url: string, body: Option<B>, config: Option<map<string, V>>)
    | Put(url: string, body: Option<B>, config: Option<map<string, V>>)
    | Delete(url: string, config: Option<map<string, V>>)

  /** The value a call returns; a rejection is never re-thrown. */
  function ResultOf(outcome: Outcome): (r: CallResult)
    ensures r == False <==> outcome.Failure?
    ensures outcome.Success? ==> r == Returned(outcome.response)
  {
    match outcome
    case Success(response) => Returned(response)
    case Failure(_, _) => False
  }

  const ParagraphOpen: Scalar := Str("<p>")
  const ParagraphClose: Scalar := Str("</p>")

  /** The options a success is reported with. */
  function SuccessOptions(message: Text): Options
  {
    Options(Bool(true), Bool(true), Str("success"), message, ParagraphOpen, ParagraphClose)
  }

  /** `err.response.data?.message || err.message`. */
  function ServerMessage(response: Response, errMessage: Scalar): (t: Text)
    ensures response.data.Body? && TextTruthy(response.data.message) ==> t == response.data.message
    ensures !(response.data.Body? && TextTruthy(response.data.message)) ==> t == Plain(errMessage)
  {
    match response.data
    case Body(message) => if TextTruthy(message) then message else Plain(errMessage)
    case NoData => Plain(errMessage)
  }

  /** The options a failure with a server response is reported with. */
  function WarningOptions(response: Response, errMessage: Scalar): Options
  {
    Options(Bool(true), Bool(true), Str("error"), ServerMessage(response, errMessage), ParagraphOpen, ParagraphClose)
  }

  /** Whether a settled call writes a success record. */
  predicate ReportsSuccess(showMsg: bool, outcome: Outcome, reportSuccess: bool)
  {
    reportSuccess && showMsg && outcome.Success? && outcome.response.data.Body?
  }

  /** Whether a settled call writes a warning record. */
  predicate ReportsWarning(showMsg: bool, outcome: Outcome)
  {
    showMsg && outcome.Failure? && outcome.errResponse.Some?
  }

  /**
   * The store after a call to `url` settles. `reportSuccess` tells the wrapper that
   * also reports successes from the one that only reports warnings.
   */
  function AfterCall(st: Snapshot, url: string, showMsg: bool, outcome: Outcome, reportSuccess: bool): (r: Snapshot)
    ensures r.loading == st.loading
    ensures ReportsSuccess(showMsg, outcome, reportSuccess) ==>
              r == st.(success := st.success[url := ToastRecord(SuccessOptions(outcome.response.data.message))])
    ensures ReportsWarning(showMsg, outcome) ==>
              r == st.(warning := st.warning[url := ToastRecord(WarningOptions(outcome.errResponse.value, outcome.errMessage))])
    ensures !ReportsSuccess(showMsg, outcome, reportSuccess) && !ReportsWarning(showMsg, outcome) ==> r == st
  {
    match outcome
    case Success(response) =>
      if reportSuccess && showMsg && response.data.Body? then
        st.(success := st.success[url := ToastRecord(SuccessOptions(response.data.message))])
      else st
    case Failure(errResponse, errMessage) =>
      if showMsg && errResponse.Some? then
        st.(warning := st.warning[url := ToastRecord(WarningOptions(errResponse.value, errMessage))])
      else st
  }

  /** Only entry `url` of one map can change; loading never does. */
  lemma OnlyUrlChanges(st: Snapshot, url: string, showMsg: bool, outcome: Outcome, reportSuccess: bool, id: string)
    requires id != url
    ensures var r := AfterCall(st, url, showMsg, outcome, reportSuccess);
            r.loading == st.loading
            && (id in r.success <==> id in st.success) && (id in st.success ==> r.success[id] == st.success[id])
            && (id in r.warning <==> id in st.warning) && (id in st.warning ==> r.warning[id] == st.warning[id])
  {
  }

  /** A success writes no warning, a failure no success record. */
  lemma OneMapOnly(st: Snapshot, url: string, showMsg: bool, outcome: Outcome, reportSuccess: bool)
    ensures outcome.Success? ==> AfterCall(st, url, showMsg, outcome, reportSuccess).warning == st.warning
    ensures outcome.Failure? ==> AfterCall(st, url, showMsg, outcome, reportSuccess).success == st.success
  {
  }

  /** The warning-only wrapper never touches the store on success. */
  lemma WarningOnlyIgnoresSuccess(st: Snapshot, url: string, showMsg: bool, response: Response)
    ensures AfterCall(st, url, showMsg, Success(response), false) == st
  {
  }

  /** A rejection without a server response (a network failure) writes nothing. */
  lemma NoResponseNoWarning(st: Snapshot, url: string, showMsg: bool, errMessage: Scalar, reportSuccess: bool)
    ensures AfterCall(st, url, showMsg, Failure(None, errMessage), reportSuccess) == st
  {
  }

  /** A success whose message is a string `m` is shown as `<p>m</p>`, closable, with the success icon. */
  lemma SuccessRecordOfString(st: Snapshot, url: string, m: string)
    ensures AfterCall(st, url, true, Success(Response(Body(Plain(Str(m))))), true).success[url]
            == Record(Bool(true), Some(Bool(true)), Str("success"), Str("<p>" + m + "</p>"))
  {
  }

  /** A successful body without a `message` is shown as `<p>null</p>`: the toggle's `text` default applies. */
  lemma SuccessWithoutMessage(st: Snapshot, url: string)
    ensures AfterCall(st, url, true, Success(Response(Body(Plain(Undefined)))), true).success[url].text
            == Str("<p>null</p>")
  {
  }

  /** A message array is shown as one paragraph per element with a truthy `msg`. */
  lemma SuccessRecordOfList(st: Snapshot, url: string, items: seq<Item>)
    ensures AfterCall(st, url, true, Success(Response(Body(List(items)))), true).success[url].text
            == Str(Decorated(Kept(items), "<p>", "</p>"))
  {
    JoinedIsDecoratedKept(items, "<p>", "</p>");
  }

  /** A truthy server message `m` is shown as `<p>m</p>`, closable, with the error icon. */
  lemma WarningRecordOfServerMessage(st: Snapshot, url: string, m: string, errMessage: Scalar)
    requires m != ""
    ensures AfterCall(st, url, true, Failure(Some(Response(Body(Plain(Str(m))))), errMessage), true).warning[url]
            == Record(Bool(true), Some(Bool(true)), Str("error"), Str("<p>" + m + "</p>"))
  {
  }

  /** Without a truthy server message, the error's own message `e` is shown. */
  lemma WarningFallsBack(st: Snapshot, url: string, response: Response, e: string, reportSuccess: bool)
    requires response.data.NoData? || (response.data.message.Plain? && !Truthy(response.data.message.value))
    ensures AfterCall(st, url, true, Failure(Some(response), Str(e)), reportSuccess).warning[url]
            == Record(Bool(true), Some(Bool(true)), Str("error"), Str("<p>" + e + "</p>"))
  {
  }

  /** An empty message array is truthy, so it wins over the error's message and shows nothing. */
  lemma WarningOfEmptyList(st: Snapshot, url: string, errMessage: Scalar, reportSuccess: bool)
    ensures AfterCall(st, url, true, Failure(Some(Response(Body(List([])))), errMessage), reportSuccess).warning[url].text
            == Str("")
  {
  }
}
