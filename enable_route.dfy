/**
 * The handler of `POST <base>/alert/{id}/_enable`: license check, alerting
 * context check, the alerts client's `enable({ id })`, and the mapping of its
 * outcome to a response or a re-thrown error.
 */
module EnableRoute {

  /** An HTTP response: status code and body. */
  datatype Response = Response(status: nat, body: string)

  /** `res.noContent()`. */
  const NoContent := Response(204, "")

  /** `res.badRequest({ body })`. */
  function BadRequest(body: string): Response {
    Response(400, body)
  }

  const ContextNotRegistered := "RouteHandlerContext is not registered for alerting"

  /** The errors that can leave the handler or the alerts client. */
  datatype RouteError =
    | LicenseError(message: string)
      /** An `AlertTypeDisabledError`, carrying the response its `sendResponse(res)` builds. */
    | AlertTypeDisabledError(response: Response)
    | OtherError(message: string)

  /** What `verifyApiAccess(licenseState)` does: pass, or throw. */
  datatype LicenseCheck = Granted | Denied(error: RouteError)

  /** What the alerts client's `enable` does for an id: resolve, or throw. */
  datatype EnableResult = Enabled | EnableThrew(error: RouteError)

  /** The calls the handler makes on the alerting context, in order. */
  datatype Call = GetAlertsClient | Enable(id: string)

  /** The handler's result and the calls it made on the way. */
  datatype Outcome =
    | Responded(response: Response, calls: seq<Call>)
    | Rethrown(error: RouteError, calls: seq<Call>)

  /**
   * The handler body. `alertingRegistered` says whether `context.alerting` is
   * set; `enable` is the alerts client's answer for each id.
   */
  function HandleEnable(license: LicenseCheck, alertingRegistered: bool, id: string, enable: string -> EnableResult): (o: Outcome)
    // the license is checked first: a denial is thrown before anything else is looked at
    ensures license.Denied? ==> o == Rethrown(license.error, [])
    // a missing alerting context is a 400, and no client is obtained
    ensures license.Granted? && !alertingRegistered ==> o == Responded(BadRequest(ContextNotRegistered), [])
    // past both guards, the client is obtained and enable is called once, with the path id
    ensures o.calls == [] || o.calls == [GetAlertsClient, Enable(id)]
    ensures o.calls != [] <==> license.Granted? && alertingRegistered
    // a resolved enable call is answered with no content
    ensures o.calls != [] && enable(id).Enabled? ==> o == Responded(NoContent, o.calls)
    // an AlertTypeDisabledError answers with its own response
    ensures o.calls != [] && enable(id).EnableThrew? && enable(id).error.AlertTypeDisabledError? ==>
      o == Responded(enable(id).error.response, o.calls)
    // any other error from enable leaves the handler unchanged, with no response
    ensures o.calls != [] && enable(id).EnableThrew? && !enable(id).error.AlertTypeDisabledError? ==>
      o == Rethrown(enable(id).error, o.calls)
  {
    match license
    case Denied(e) => Rethrown(e, [])
    case Granted =>
      if !alertingRegistered then
        Responded(BadRequest(ContextNotRegistered), [])
      else
        var calls := [GetAlertsClient, Enable(id)];
        match enable(id)
        case Enabled => Responded(NoContent, calls)
        case EnableThrew(e) =>
          if e.AlertTypeDisabledError? then Responded(e.response, calls)
          else Rethrown(e, calls)
  }

  /**
   * The handler never turns an error into a generic failure: whatever it
   * re-throws is the license error or the very error `enable` threw, and an
   * error it answers is the disabled-type error's own response.
   */
  lemma ErrorsPassThrough(license: LicenseCheck, alertingRegistered: bool, id: string, enable: string -> EnableResult)
    ensures var o := HandleEnable(license, alertingRegistered, id, enable);
      && (o.Rethrown? ==>
           || (license.Denied? && o.error == license.error)
           || (enable(id) == EnableThrew(o.error) && !o.error.AlertTypeDisabledError?))
      && (o.Responded? ==>
           || (o.calls == [] && o.response == BadRequest(ContextNotRegistered))
           || (o.calls != [] && enable(id).Enabled? && o.response == NoContent)
           || (o.calls != [] && enable(id) == EnableThrew(AlertTypeDisabledError(o.response))))
  {
  }

  /** The outcome depends on the alerts client only through its answer for the requested id. */
  lemma OnlyRequestedIdMatters(license: LicenseCheck, alertingRegistered: bool, id: string,
                               enable1: string -> EnableResult, enable2: string -> EnableResult)
    requires enable1(id) == enable2(id)
    ensures HandleEnable(license, alertingRegistered, id, enable1) == HandleEnable(license, alertingRegistered, id, enable2)
  {
  }

  /** Id "1", license granted, context registered, enable resolves: 204 with an empty body. */
  lemma EnableSucceeds()
    ensures HandleEnable(Granted, true, "1", _ => Enabled) == Responded(Response(204, ""), [GetAlertsClient, Enable("1")])
  {
  }
}
