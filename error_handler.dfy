/** The last two handlers of app.js: the catch-all route, which turns every
    request no other route answered into a 404 error, and the error handler,
    which renders any error with its status code and message, each defaulted
    when the error does not carry it. */
module ErrorHandler {
  import opened Optional

  const DEFAULT_STATUS := 500
  const DEFAULT_MESSAGE := "Something went wrong!"
  const PAGE_NOT_FOUND := "Page Not Found!"

  /** The two properties the handler reads off an error; `None` is `undefined`. */
  datatype ErrorValue = ErrorValue(statusCode: Option<int>, message: Option<string>)

  /** The status the response is sent with and the message the error page shows. */
  datatype ErrorPage = ErrorPage(status: int, message: string)

  /** `new ExpressError(statusCode, message)` */
  function ExpressError(statusCode: int, message: string): (e: ErrorValue)
    ensures e.statusCode == Some(statusCode) && e.message == Some(message)
  {
    ErrorValue(Some(statusCode), Some(message))
  }

  /** The catch-all route: the error it passes on for an unmatched request. */
  function CatchAll(): (e: ErrorValue)
    ensures e.statusCode == Some(404) && e.message == Some(PAGE_NOT_FOUND)
  {
    ExpressError(404, PAGE_NOT_FOUND)
  }

  /** The error handler. A destructuring default applies only to a property
      that is undefined, so an error whose message is "" keeps "". */
  function RenderError(err: ErrorValue): (page: ErrorPage)
    ensures err.statusCode.Some? ==> page.status == err.statusCode.value
    ensures err.statusCode.None? ==> page.status == DEFAULT_STATUS
    ensures err.message.Some? ==> page.message == err.message.value
    ensures err.message.None? ==> page.message == DEFAULT_MESSAGE
  {
    var status := match err.statusCode case Some(s) => s case None => DEFAULT_STATUS;
    var message := match err.message case Some(m) => m case None => DEFAULT_MESSAGE;
    ErrorPage(status, message)
  }

  /** An `ExpressError` with a status Node accepts is shown with exactly the
      status and message it was built with. */
  lemma ExpressErrorRendersAsBuilt(statusCode: int, message: string)
    requires 100 <= statusCode <= 999
    ensures RenderError(ExpressError(statusCode, message)) == ErrorPage(statusCode, message)
  {
  }

  /** Every unmatched route ends in a 404 "Page Not Found!" page. */
  lemma UnmatchedRouteRendersNotFound()
    ensures RenderError(CatchAll()) == ErrorPage(404, PAGE_NOT_FOUND)
  {
  }
}
