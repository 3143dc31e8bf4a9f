/**
 * The HTTP client wrapper (`AppRequest`): the response interceptor that
 * unwraps the server's `{code, msg, data}` envelope, and the "visible"
 * client that numbers every request, shows a loading message when asked and
 * decides which messages to show when the request settles.
 */
module AppRequest {
  import opened Wrappers

  /** The field the unwrapped payload is tagged with. */
  const SourceField: string := "_source"

  /** The text of the success toast. */
  const SuccessText: string := "成功"

  /** A payload object, by its fields. */
  datatype Payload = Payload(fields: map<string, string>)

  /** The server's envelope; `data == None` stands for a falsy `data` field. */
  datatype Envelope = Envelope(code: int, msg: string, data: Option<Payload>)

  /** An HTTP response; `body == None` stands for a missing (null) body. */
  datatype Response = Response(status: int, body: Option<Envelope>)

  /**
   * What a request resolves to: the payload's fields and, in its `_source`
   * field, the response it came from (any `_source` field of its own is
   * overwritten).
   */
  datatype Resolved = Resolved(fields: map<string, string>, source: Response)

  /**
   * Why a request is rejected: a status other than 200, an envelope code
   * other than 200 (both reject with the response itself), or a body that
   * cannot be destructured.
   */
  datatype Rejection = HttpError(response: Response) | ApiError(response: Response) | Malformed

  /** The response interceptor's unwrap decision. */
  function UnwrapResponse(resp: Response): (r: Result<Resolved, Rejection>)
    ensures r.Success? <==> resp.status == 200 && resp.body.Some? && resp.body.value.code == 200
    ensures resp.status != 200 ==> r == Failure(HttpError(resp))
    ensures resp.status == 200 && resp.body.None? ==> r == Failure(Malformed)
    ensures resp.status == 200 && resp.body.Some? && resp.body.value.code != 200 ==> r == Failure(ApiError(resp))
    ensures r.Success? ==> r.value.source == resp && SourceField !in r.value.fields
    ensures r.Success? && resp.body.value.data.None? ==> r.value.fields == map[]
    ensures r.Success? && resp.body.value.data.Some? ==>
      r.value.fields == resp.body.value.data.value.fields - {SourceField}
  {
    if resp.status != 200 then Failure(HttpError(resp))
    else if resp.body.None? then Failure(Malformed)
    else if resp.body.value.code != 200 then Failure(ApiError(resp))
    else match resp.body.value.data
      case None => Success(Resolved(map[], resp))
      case Some(p) => Success(Resolved(p.fields - {SourceField}, resp))
  }

  /** The successful response the server sends for a payload. */
  function Wrap(p: Payload): (resp: Response)
    ensures resp.status == 200 && resp.body.Some? && resp.body.value.code == 200
  {
    Response(200, Some(Envelope(200, "", Some(p))))
  }

  /** A payload without a `_source` field survives wrapping and unwrapping unchanged. */
  lemma UnwrapWrapRoundTrip(p: Payload)
    requires SourceField !in p.fields
    ensures UnwrapResponse(Wrap(p)).Success?
    ensures UnwrapResponse(Wrap(p)).value.fields == p.fields
  {
    assert p.fields - {SourceField} == p.fields;
  }

  /** A notification the client shows or dismisses. */
  datatype Notice =
    | Loading(key: nat)
    | Dismissed(key: nat)
    | ErrorMessage(text: string)
    | SuccessMessage(text: string)

  /**
   * The notices `closeLoading` produces, in order: the loading message is
   * dismissed when there is one, the configured error message is shown when
   * it is set and the request failed, the success toast when it is asked for
   * and the request succeeded. `loadingMsg` is the key of the loading
   * message, `errorMsg == ""` an unset error message.
   */
  function ClosingNotices(loadingMsg: Option<nat>, errorMsg: string, showSuccess: bool, success: bool): (r: seq<Notice>)
    ensures |r| <= 2
    ensures |r| == (if loadingMsg.Some? then 1 else 0) + (if errorMsg != "" && !success then 1 else 0)
                   + (if showSuccess && success then 1 else 0)
    ensures forall k: nat :: Dismissed(k) in r <==> loadingMsg == Some(k)
    ensures ErrorMessage(errorMsg) in r <==> errorMsg != "" && !success
    ensures SuccessMessage(SuccessText) in r <==> showSuccess && success
    ensures forall n :: n in r ==> n.Dismissed? || n == ErrorMessage(errorMsg) || n == SuccessMessage(SuccessText)
    ensures loadingMsg.Some? ==> r[0] == Dismissed(loadingMsg.value)
  {
    (if loadingMsg.Some? then [Dismissed(loadingMsg.value)] else [])
    + (if errorMsg != "" && !success then [ErrorMessage(errorMsg)] else [])
    + (if showSuccess && success then [SuccessMessage(SuccessText)] else [])
  }

  /**
   * A request's configuration: the caller's flags, and what the request
   * interceptor writes into it (key, request id, loading message).
   */
  class RequestConfig {
    var showLoading: bool
    var showSuccess: bool
    var errorMsg: string
    var msgKey: Option<nat>
    var requestId: Option<nat>
    var loadingMsg: Option<nat>

    /** A fresh configuration the interceptor has not seen yet. */
    constructor (showLoading: bool, showSuccess: bool, errorMsg: string)
      ensures this.showLoading == showLoading && this.showSuccess == showSuccess && this.errorMsg == errorMsg
      ensures msgKey == None && requestId == None && loadingMsg == None
    {
      this.showLoading, this.showSuccess, this.errorMsg := showLoading, showSuccess, errorMsg;
      msgKey, requestId, loadingMsg := None, None, None;
    }
  }

  /**
   * The visible client: its shared key counter and the notices it has
   * shown. `issued` records every key handed out, in order.
   */
  class VisibleAxios {
    var nextMsgKey: nat
    var notices: seq<Notice>
    ghost var issued: seq<nat>

    /** The keys handed out so far are 1, 2, 3, ... and the counter is the next one. */
    ghost predicate Valid()
      reads this
    {
      && nextMsgKey == |issued| + 1
      && forall k :: 0 <= k < |issued| ==> issued[k] == k + 1
    }

    constructor ()
      ensures Valid() && issued == [] && nextMsgKey == 1 && notices == []
    {
      nextMsgKey, notices, issued := 1, [], [];
    }

    /**
     * The request interceptor: takes the next key, shows a loading message
     * under it when `showLoading` is set, and writes the key as both
     * `msgKey` and `requestId`.
     */
    method InterceptRequest(config: RequestConfig) returns (key: nat)
      requires Valid()
      modifies this, config
      ensures Valid()
      ensures key == old(nextMsgKey) && key == |old(issued)| + 1 && issued == old(issued) + [key]
      ensures config.msgKey == Some(key) && config.requestId == Some(key)
      ensures config.loadingMsg == (if config.showLoading then Some(key) else old(config.loadingMsg))
      ensures notices == old(notices) + (if config.showLoading then [Loading(key)] else [])
      ensures config.showLoading == old(config.showLoading) && config.showSuccess == old(config.showSuccess)
      ensures config.errorMsg == old(config.errorMsg)
    {
      key := nextMsgKey;
      nextMsgKey := nextMsgKey + 1;
      issued := issued + [key];
      if config.showLoading {
        notices := notices + [Loading(key)];
        config.loadingMsg := Some(key);
      }
      config.msgKey := Some(key);
      config.requestId := Some(key);
    }

    /** `closeLoading`: shows the closing notices for the request's configuration. */
    method CloseLoading(config: RequestConfig, success: bool)
      modifies this`notices
      ensures notices == old(notices) + ClosingNotices(config.loadingMsg, config.errorMsg, config.showSuccess, success)
    {
      if config.loadingMsg.Some? {
        notices := notices + [Dismissed(config.loadingMsg.value)];
      }
      if config.errorMsg != "" && !success {
        notices := notices + [ErrorMessage(config.errorMsg)];
      }
      if config.showSuccess && success {
        notices := notices + [SuccessMessage(SuccessText)];
      }
    }
  }
}
