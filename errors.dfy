/** The Go `error` values that cross the boundary between the platform client
    (package sirius) and the handlers (package server), as one tagged union.
    Go tells them apart by dynamic type; here each is a constructor. */
module Errors {

  import opened Wrappers
  import Strconv
  import Strings
  import NetHttp

  /** Field name to (error code to message), as the platform reports them. */
  type ValidationErrors = map<string, map<string, string>>

  datatype Error =
    /** `sirius.ClientError`: a plain string error of the client. */
    | ClientError(text: string)
    /** `sirius.ValidationError`; `byPointer` tells a `*ValidationError`
        (returned by EditMyDetails and matched by editTeam) from a value
        (matched by addUser): Go's type switch sees two different types. */
    | ValidationError(message: string, errors: ValidationErrors, byPointer: bool)
    /** `server.RedirectError`: stop and redirect to a path under the prefix. */
    | RedirectError(target: string)
    /** `server.StatusError`: stop with an HTTP status. */
    | StatusError(code: int)
    /** Any other error: `fmt.Errorf`, `io.EOF`, transport and decoding errors. */
    | OtherError(text: string)
  {
    /** Go's `Error()` method of each error type. */
    function Text(): string {
      match this
      case ClientError(t) => t
      case ValidationError(m, _, _) => m
      case RedirectError(t) => "redirect to " + t
      case StatusError(c) => Strconv.Itoa(c) + " " + NetHttp.StatusText(c)
      case OtherError(t) => t
    }

    /** `StatusError.Code()`. */
    function Code(): int
      requires StatusError?
    {
      code
    }

    /** `RedirectError.To()`. */
    function To(): string
      requires RedirectError?
    {
      target
    }
  }

  /** `sirius.ErrUnauthorized`: a ClientError constant, so Go's `==` holds
      for every ClientError with the same text. */
  const ErrUnauthorized: Error := ClientError("unauthorized")

  /** `io.EOF`, what decoding an empty body reports. */
  const EOF: Error := OtherError("EOF")

  /** The error `fmt.Errorf("returned non-2XX response: %d", code)` builds. */
  function NonSuccessStatus(code: int): (e: Error)
    ensures e.OtherError? && Strings.HasPrefix(e.Text(), "returned non-2XX response: ")
  {
    OtherError("returned non-2XX response: " + Strconv.Itoa(code))
  }

  /** The error a Go function returns, or nil. */
  type MaybeError = Option<Error>

  /** A Go `(value, error)` pair in which exactly one side matters. */
  datatype Result<T> = Ok(value: T) | Err(error: Error)

  /** The text of a RedirectError gives back its target, and the text of a
      StatusError starts with its code, which parses back, then a space and
      the status text. */
  lemma TextRecoversPayload(e: Error)
    ensures e.RedirectError? ==>
      Strings.HasPrefix(e.Text(), "redirect to ") && Strings.TrimPrefix(e.Text(), "redirect to ") == e.To()
    ensures e.StatusError? && Strconv.InInt64(e.Code()) ==>
      var digits := Strconv.Itoa(e.Code());
      e.Text() == digits + " " + NetHttp.StatusText(e.Code()) &&
      Strconv.Atoi(e.Text()[..|digits|]) == Some(e.Code())
  {
    if e.RedirectError? {
      assert ("redirect to " + e.To())[..|"redirect to "|] == "redirect to ";
    }
    if e.StatusError? && Strconv.InInt64(e.Code()) {
      var digits := Strconv.Itoa(e.Code());
      assert e.Text()[..|digits|] == digits;
      Strconv.AtoiItoa(e.Code());
    }
  }

  /** Any ClientError whose text is "unauthorized" is ErrUnauthorized, and
      ErrUnauthorized is a ClientError. */
  lemma UnauthorizedIsClientError(e: Error)
    ensures e == ErrUnauthorized <==> e.ClientError? && e.Text() == "unauthorized"
  {
  }

  /** The non-2XX error text ends with the response code, which parses back. */
  lemma NonSuccessStatusMentionsCode(code: int)
    requires Strconv.InInt64(code)
    ensures var t := NonSuccessStatus(code).Text();
      var p := "returned non-2XX response: ";
      Strconv.Atoi(t[|p|..]) == Some(code)
  {
    var p := "returned non-2XX response: ";
    assert NonSuccessStatus(code).Text()[|p|..] == Strconv.Itoa(code);
    Strconv.AtoiItoa(code);
  }
}
