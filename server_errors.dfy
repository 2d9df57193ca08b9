/** The error handler of internal/server/server.go: what a handler's returned
    error becomes on the wire — a redirect to the platform's login page, a
    redirect within this front end, or the error page with 403, 404 or 500. */
module ErrorHandler {

  import opened Wrappers
  import opened Errors
  import NetHttp

  /** What the error handler does with a handler's result. */
  datatype Action =
    /** nil: the handler's own response stands. */
    | Pass
    /** A 302 to `location`; nothing is rendered or logged. */
    | Redirect(location: string)
    /** The error page with status `code`. */
    | ErrorPage(code: int)

  /** The variables of the error page template. */
  datatype ErrorVars = ErrorVars(siriusURL: string, path: string, code: int, error: string)

  const AuthPath: string := "/auth"

  const TemplateFailureMessage: string := "Could not generate error template"

  /** The chain of checks in `errorHandler`: ErrUnauthorized goes to the
      platform's login page, a RedirectError to its target under the prefix,
      a StatusError of 403 or 404 keeps its code, everything else is 500. */
  function Classify(err: MaybeError, prefix: string, siriusURL: string): (a: Action)
    ensures a.Pass? <==> err.None?
    ensures a.Redirect? <==> err.Some? && (err.value == ErrUnauthorized || err.value.RedirectError?)
    ensures err == Some(ErrUnauthorized) ==> a == Redirect(siriusURL + AuthPath)
    ensures err.Some? && err.value.RedirectError? ==> a == Redirect(prefix + err.value.To())
    ensures a.ErrorPage? ==> a.code in {NetHttp.StatusForbidden, NetHttp.StatusNotFound, NetHttp.StatusInternalServerError}
    ensures a.ErrorPage? ==>
      (a.code != NetHttp.StatusInternalServerError <==>
       err.value.StatusError? && err.value.Code() in {NetHttp.StatusForbidden, NetHttp.StatusNotFound})
    ensures a.ErrorPage? && a.code != NetHttp.StatusInternalServerError ==> a.code == err.value.Code()
  {
    match err
    case None => Pass
    case Some(e) =>
      if e == ErrUnauthorized then Redirect(siriusURL + AuthPath)
      else if e.RedirectError? then Redirect(prefix + e.To())
      else if e.StatusError? && (e.Code() == NetHttp.StatusForbidden || e.Code() == NetHttp.StatusNotFound) then
        ErrorPage(e.Code())
      else ErrorPage(NetHttp.StatusInternalServerError)
  }

  /** A platform client error that reads "unauthorized" — whatever endpoint
      produced it — is sent to the login page, like a 401. */
  lemma UnauthorizedTextRedirectsToLogin(text: string, prefix: string, siriusURL: string)
    ensures text == "unauthorized" <==>
      Classify(Some(ClientError(text)), prefix, siriusURL) == Redirect(siriusURL + AuthPath)
  {
    if Classify(Some(ClientError(text)), prefix, siriusURL) == Redirect(siriusURL + AuthPath) {
      assert ClientError(text) == ErrUnauthorized;
    }
  }

  /** The line `logger.Printf("%s: %v\n", name, err)` writes. */
  function LogLine(name: string, err: Error): (line: string)
    ensures |line| == |name| + |err.Text()| + 3
    ensures line[..|name|] == name && line[|name|..|name| + 2] == ": "
    ensures line[|name| + 2..|line| - 1] == err.Text() && line[|line| - 1] == '\n'
  {
    name + ": " + err.Text() + "\n"
  }

  /** What `http.Error` writes as the body: the message and a newline. */
  function PlainTextBody(message: string): (body: string)
    ensures |body| == |message| + 1 && body[..|message|] == message && body[|message|] == '\n'
  {
    message + "\n"
  }

  /** One thing written to a response body: the whole error page, the part
      of it the template produced before failing (possibly nothing), or
      plain text. */
  datatype Piece = Page(vars: ErrorVars) | PartialPage(vars: ErrorVars) | PlainText(text: string)

  /** The part of `http.ResponseWriter` the error handler uses. Go keeps the
      status of the first `WriteHeader` and ignores later ones; 0 stands for
      "not yet written". */
  class ResponseWriter {
    var status: int
    var location: Option<string>
    var body: seq<Piece>

    constructor()
      ensures status == 0 && location == None && body == []
    {
      status := 0;
      location := None;
      body := [];
    }

    /** The status the writer has after a WriteHeader(code). */
    function Settled(code: int): (s: int)
      reads this
      ensures status == 0 ==> s == code
      ensures status != 0 ==> s == status
    {
      if status == 0 then code else status
    }

    method WriteHeader(code: int)
      modifies this
      ensures status == old(Settled(code))
      ensures location == old(location) && body == old(body)
    {
      status := Settled(code);
    }

    /** A write before any WriteHeader first writes a 200. */
    method Write(p: Piece)
      modifies this
      ensures body == old(body) + [p]
      ensures status == old(Settled(NetHttp.StatusOK)) && location == old(location)
    {
      status := Settled(NetHttp.StatusOK);
      body := body + [p];
    }

    /** `tmplError.ExecuteTemplate(w, "page", vars)`: the whole page, or
        when the template fails, whatever it wrote before failing. */
    method ExecuteErrorTemplate(vars: ErrorVars, failure: MaybeError)
      modifies this
      ensures body == old(body) + [if failure.None? then Page(vars) else PartialPage(vars)]
      ensures status == old(Settled(NetHttp.StatusOK)) && location == old(location)
    {
      if failure.None? {
        Write(Page(vars));
      } else {
        Write(PartialPage(vars));
      }
    }

    /** `http.Redirect`: the Location header, then a 302. */
    method Redirect(to: string)
      modifies this
      ensures location == Some(to) && status == old(Settled(NetHttp.StatusFound)) && body == old(body)
    {
      location := Some(to);
      WriteHeader(NetHttp.StatusFound);
    }
  }

  /** `log.Logger`, reduced to the lines it has printed. */
  class Logger {
    var lines: seq<string>

    constructor()
      ensures lines == []
    {
      lines := [];
    }

    method Printf(line: string)
      modifies this
      ensures lines == old(lines) + [line]
    {
      lines := lines + [line];
    }
  }

  /** The error-page branch of `errorHandler`: log the error, write the
      status, render the page, and on a render failure log that too and
      append the plain-text message. */
  method ServeErrorPage(name: string, logger: Logger, w: ResponseWriter, siriusURL: string,
                        code: int, err: Error, renderFailure: MaybeError)
    requires code != 0
    modifies logger, w
    ensures w.status == old(w.Settled(code)) && w.location == old(w.location)
    ensures renderFailure.None? ==>
      && logger.lines == old(logger.lines) + [LogLine(name, err)]
      && w.body == old(w.body) + [Page(ErrorVars(siriusURL, "", code, err.Text()))]
    ensures renderFailure.Some? ==>
      && logger.lines == old(logger.lines) + [LogLine(name, err), LogLine(name, renderFailure.value)]
      && w.body == old(w.body) + [PartialPage(ErrorVars(siriusURL, "", code, err.Text())),
                                  PlainText(PlainTextBody(TemplateFailureMessage))]
  {
    logger.Printf(LogLine(name, err));

    w.WriteHeader(code);
    w.ExecuteErrorTemplate(ErrorVars(siriusURL, "", code, err.Text()), renderFailure);

    if renderFailure.Some? {
      logger.Printf(LogLine(name, renderFailure.value));
      // http.Error asks for a 500, which the status already written overrides.
      w.WriteHeader(NetHttp.StatusInternalServerError);
      w.Write(PlainText(PlainTextBody(TemplateFailureMessage)));
    }
  }

  /** `errorHandler(name, logger, tmplError, prefix, siriusURL, next)` run on
      the result `next` returned. `renderFailure` is what executing the error
      template returns. */
  method ServeError(name: string, logger: Logger, w: ResponseWriter, prefix: string, siriusURL: string,
                    next: MaybeError, renderFailure: MaybeError)
    modifies logger, w
    // nil: nothing is written or logged.
    ensures next.None? ==> unchanged(logger) && unchanged(w)
    // A redirect: Location and 302, nothing rendered, nothing logged.
    ensures Classify(next, prefix, siriusURL).Redirect? ==>
      && unchanged(logger)
      && w.location == Some(Classify(next, prefix, siriusURL).location)
      && w.status == old(w.Settled(NetHttp.StatusFound)) && w.body == old(w.body)
    // The error page: one log line, the chosen status, the page with the
    // code and the error's text; a failed render is logged too and followed
    // by the plain-text message.
    ensures Classify(next, prefix, siriusURL).ErrorPage? ==>
      var code := Classify(next, prefix, siriusURL).code;
      var page := Page(ErrorVars(siriusURL, "", code, next.value.Text()));
      && w.status == old(w.Settled(code)) && w.location == old(w.location)
      && (renderFailure.None? ==>
            logger.lines == old(logger.lines) + [LogLine(name, next.value)]
            && w.body == old(w.body) + [page])
      && (renderFailure.Some? ==>
            logger.lines == old(logger.lines) + [LogLine(name, next.value), LogLine(name, renderFailure.value)]
            && w.body == old(w.body) + [PartialPage(page.vars), PlainText(PlainTextBody(TemplateFailureMessage))])
  {
    if next.None? {
      return;
    }
    var err := next.value;

    if err == ErrUnauthorized {
      w.Redirect(siriusURL + AuthPath);
      return;
    }

    if err.RedirectError? {
      w.Redirect(prefix + err.To());
      return;
    }

    var code := NetHttp.StatusInternalServerError;

    if err.StatusError? {
      if err.Code() == NetHttp.StatusForbidden || err.Code() == NetHttp.StatusNotFound {
        code := err.Code();
      }
    }

    assert Classify(next, prefix, siriusURL) == ErrorPage(code);
    ServeErrorPage(name, logger, w, siriusURL, code, err, renderFailure);
  }
}
