# opg-sirius-user-management: a verified model of the handlers and the platform client

opg-sirius-user-management is a small web front end for administering the
users and teams of the Sirius case-management platform. Each page is a
handler. A handler reads the request, makes a few calls to the Sirius API
through a client, and then does one of two things:

- it renders a template;
- it returns an error, which the error handler turns into a redirect or an
  error page.

This project models that core in Dafny:

- **The error handler** (`internal/server/server.go`), in `server_errors.dfy`.
  `ErrorHandler.Classify` is the decision itself: a login redirect, a
  redirect under the prefix, a 403 or 404 page, or a 500 page.
  `ErrorHandler.ServeError` runs the decision against a `ResponseWriter` and
  a `Logger`, both modelled as classes whose fields change in place.
- **The handlers** (`internal/server/*.go`), one module each. The API
  client is represented by its canned replies, as the Go tests' mocks do.
  A handler method returns two things:
  - the calls it made, in order, as a `seq<Call>`;
  - how it ended, as an `Outcome`: `Rendered(status, vars)` or
    `Returned(err)`.
  The contracts state the whole behaviour table of each handler: method
  dispatch, the id parsed from the path, the "System Admin" gate, the
  search-term rule, the order of the calls and how each error is routed.
- **Shared handler rules** (`server_common.dfy`): form access, `ParseId`
  and the `Permitted` role scan.
- **The client** (`internal/sirius/client.go`, `my_details.go`,
  `change_password.go`).
  - `SiriusClient.NewRequest` builds an `OutgoingRequest` object: cookies
    and headers are added in place, and the loop takes the XSRF token from
    the cookies.
  - Each endpoint pairs a pure `Classify…` function with a method. The
    function maps the platform's status code and body to the Go error. The
    method shapes the request.
- **Go's error values** (`errors.dfy`): one datatype, `Errors.Error`. Go
  tells errors apart by dynamic type; here each type is a constructor.
  `ErrUnauthorized` is `ClientError("unauthorized")`, as in Go.
- **The standard-library pieces the core relies on**, written out:
  - `strconv.Atoi`/`Itoa` over 64-bit ints;
  - `strings.TrimPrefix`, `Contains` and `ToLower`;
  - Go's byte-counting `len`;
  - `url.QueryUnescape`;
  - `http.StatusText`.

Behaviour of the source that the proofs bring out:

- Any platform error that is a `ClientError` reading "unauthorized" is equal
  to `ErrUnauthorized`. A password-change rejection whose `errors` field is
  "unauthorized" therefore sends the user to the login page, like a 401
  (`SiriusChangePassword.RejectionTextUnauthorizedIsUnauthorized`,
  `ErrorHandler.UnauthorizedTextRedirectsToLogin`).
- When the error template fails, the error handler asks for a 500 through
  `http.Error`. The status already written stays, because
  `http.ResponseWriter` keeps the first `WriteHeader`. The client sees the
  chosen code. The body is whatever part of the page the template wrote
  before failing, followed by the plain-text message
  (`ErrorHandler.ServeError`).
- `EditMyDetails` splices the phone number between literal quotes without
  escaping it (`SiriusMyDetails.EditMyDetailsBodyIsVerbatim`).
- The search rule counts bytes, not characters. A two-letter term such as
  "éé" (four UTF-8 bytes) triggers a search (`Strings.ByteLenBounds`).
- `server.New` calls `changePassword` with a logger argument. The handler
  in `internal/server/change_password.go` takes none. The model follows the
  handler as written.

## Model

| member | source | states |
|---|---|---|
| `Strconv.AtoiItoa` | internal/sirius/my_details.go:70 | a 64-bit id printed into a path by `strconv.Itoa` parses back to the same id |
| `Strconv.AtoiAcceptsOnlySignAndDigits` | internal/server/edit_team.go:31-34 | whatever `strconv.Atoi` accepts is an optional sign followed by digits, so a path remainder with a '/' (an extra segment) is never an id |
| `Strings.TrimPrefix` | internal/server/add_member.go:39 | the result is the path minus the prefix when the path starts with it, and the path unchanged otherwise |
| `Strings.ContainsIffOccurs` | internal/server/list_teams.go:42 | the team filter's `Contains` holds exactly when the term occurs at some index of the name |
| `Strings.ToLower` | internal/server/list_teams.go:37 | the lower-cased term has the same length, and each letter A-Z becomes a-z while every other character stays |
| `Strings.ToLowerIdempotent` | internal/server/list_teams.go:42 | lower-casing an already lower-cased name changes nothing |
| `Strings.ByteLenBounds` | internal/server/list_users.go:55 | Go's `len(search)` lies between the character count and four times it, and equals the count exactly when the term is ASCII |
| `Url.QueryUnescapeFailsIffBadEscape` | internal/sirius/client.go:54-58 | unescaping the XSRF token fails, and the request is refused, exactly when some '%' does not start a two-hex-digit escape |
| `Url.QueryUnescapePlain` | internal/sirius/client.go:54 | a token with no '%' and no '+' is sent unchanged in X-XSRF-TOKEN |
| `NetHttp.StatusText` | internal/server/server.go:65-69 | the status text is empty exactly for the codes outside Go's table of registered codes (100-511), so a `StatusError` of any registered code reads "<code> <reason phrase>" |
| `Errors.TextRecoversPayload` | internal/server/server.go:53-73 | `RedirectError(t).Error()` is "redirect to " followed by `t`, from which `To()` is recovered; `StatusError(c).Error()` is c's decimal digits, a space and the status text, and the digits parse back to `Code()` |
| `Errors.UnauthorizedIsClientError` | internal/sirius/client.go:10-16 | an error equals `ErrUnauthorized` if and only if it is a `ClientError` whose `Error()` text is "unauthorized" |
| `Errors.NonSuccessStatus` | internal/sirius/my_details.go:50-52 | the generic error for an unexpected status is a plain error whose text starts "returned non-2XX response: " |
| `Errors.NonSuccessStatusMentionsCode` | internal/sirius/my_details.go:50-52 | the status code printed at the end of the generic error parses back to the response's code |
| `SiriusClient.WithoutHeader` | internal/sirius/change_password.go:24 | `Header.Set` drops exactly the earlier headers of that name, keeps every other header, and changes nothing when there are none |
| `SiriusClient.OutgoingRequest.constructor` | internal/sirius/client.go:42 | a new request has the given method, the URL baseURL+path, the body, and no cookies or headers |
| `SiriusClient.OutgoingRequest.AddCookie` | internal/sirius/client.go:48 | the cookie is appended after the earlier ones; the headers are unchanged |
| `SiriusClient.OutgoingRequest.AddHeader` | internal/sirius/client.go:60-61 | the header is appended and earlier values of the same name are kept |
| `SiriusClient.OutgoingRequest.SetHeader` | internal/sirius/change_password.go:24 | earlier values of the header are dropped and the new one is appended |
| `SiriusClient.XsrfTokenIsLastMatch` | internal/sirius/client.go:46-52 | the token is "" when no cookie is named exactly XSRF-TOKEN, and otherwise the value of a cookie so named with no later one so named |
| `SiriusClient.NewRequest` | internal/sirius/client.go:41-64 | all input cookies are attached, in input order; the URL is baseURL+path; the headers are the bypass header and then X-XSRF-TOKEN carrying the unescaped last XSRF-TOKEN cookie; an unescape failure gives `ErrUnauthorized` and no request |
| `SiriusMyDetails.ClassifyMyDetails` | internal/sirius/my_details.go:46-55 | 401 is `ErrUnauthorized` and any other non-200 status is the generic non-2XX error, both with zero details; 200 yields the decoded details, `io.EOF` for an empty body, or the decoder's error |
| `SiriusMyDetails.FetchMyDetails` | internal/sirius/my_details.go:32-56 | a GET of /api/v1/users/current carrying the caller's cookies and an X-XSRF-TOKEN header with the unescaped token; it is refused with `ErrUnauthorized` and zero details exactly when the token does not unescape; otherwise the result is the classification of the reply, and a transport error is returned with zero details |
| `SiriusMyDetails.EditMyDetailsPathNamesUser` | internal/sirius/my_details.go:67-73 | the request path is "/api/v1/users/", then a segment that parses back to the user's id, then "/updateTelephoneNumber" |
| `SiriusMyDetails.EditMyDetailsBodyIsVerbatim` | internal/sirius/my_details.go:65 | the body is `{"phoneNumber":"`, the number verbatim and unescaped, then `"}` |
| `SiriusMyDetails.ClassifyEditMyDetails` | internal/sirius/my_details.go:86-106 | the result is nil exactly on 200; 401 is `ErrUnauthorized` whatever the body; any other status gives a `*ValidationError` with the problem's detail and field errors when the body decodes, the generic error when the body is empty, and the decoder's error otherwise |
| `SiriusMyDetails.EditMyDetails` | internal/sirius/my_details.go:58-107 | a PUT of that body to that path, with the bypass header, the X-XSRF-TOKEN header carrying the unescaped token, and "Content-type: application/json", refused exactly when the token does not unescape, and the reply classified as above |
| `SiriusChangePassword.ChangePasswordForm` | internal/sirius/change_password.go:13-17 | the form has exactly the fields existingPassword, password and confirmPassword, holding the old, new and confirmation passwords |
| `SiriusChangePassword.ClassifyChangePassword` | internal/sirius/change_password.go:32-47 | the result is nil exactly on 200; 401 is `ErrUnauthorized`; any other status gives `ClientError` of the body's `errors` field when it decodes, and the generic non-2XX error when it does not |
| `SiriusChangePassword.RejectionTextUnauthorizedIsUnauthorized` | internal/sirius/change_password.go:36-42 | a rejection whose `errors` text is "unauthorized" is indistinguishable from a 401 |
| `SiriusChangePassword.ChangePassword` | internal/sirius/change_password.go:12-48 | a form-encoded POST to /auth/change-password with the X-XSRF-TOKEN header carrying the unescaped token and a Content-Type header that replaces any earlier one; refused with `ErrUnauthorized` exactly when the token does not unescape; otherwise the reply classified as above |
| `ServerCommon.ParseIdRoundTrip` | internal/server/add_member.go:39 | a path made of the prefix and a 64-bit id selects that id |
| `ServerCommon.ParseIdRejects` | internal/server/edit_team.go:31-34 | an empty remainder, a remainder with an extra '/' segment, and a path not under the prefix (still starting with '/') select no id |
| `ServerCommon.Permitted` | internal/server/list_users.go:36-41 | the role scan grants access if and only if some role is exactly "System Admin" |
| `AddMemberHandler.BuildTeamUsersMap` | internal/server/add_member.go:64-71 | the map's keys are exactly the listed users' ids together with the members' ids, and an entry is true if and only if the id belongs to a team member, even when that user is also listed |
| `AddMemberHandler.AddMember` | internal/server/add_member.go:28-75 | a non-integer id is 404 with no call; the team is fetched first and its error returned; one search with the literal term happens iff the term has at least 3 bytes, and its error is returned; a shorter non-empty term sets the field error; no users without a search; the page carries the membership map |
| `EditTeamHandler.EditTeam` | internal/server/edit_team.go:29-97 | a bad id is 404 with no call; Team, HasPermission("team","post") and TeamTypes are called in order, and the first error is returned; GET renders the fetched team; POST sends the team with name, phone and email from the form and with id, members and type label kept; the type comes from the form only with permission; a `*ValidationError` renders 400 with its errors, any other error, a `ValidationError` value included, is returned unchanged, nil renders success; any other method is 405 after the fetches |
| `ListTeamsHandler.MatchingTeamsKeepsExactlyMatches` | internal/server/list_teams.go:35-47 | a team is in the filtered list if and only if it was fetched and its lower-cased name contains the lower-cased term |
| `ListTeamsHandler.MatchingTeamsIsSubsequence` | internal/server/list_teams.go:39-46 | the filtered list keeps the fetched order and adds nothing |
| `ListTeamsHandler.MatchingTeamsIdempotent` | internal/server/list_teams.go:37-46 | filtering the filtered list again with the same term gives the same list |
| `ListTeamsHandler.MatchingTeamsEmptyTermKeepsAll` | internal/server/list_teams.go:36 | every team matches the empty term, so skipping the filter for an empty search loses nothing |
| `ListTeamsHandler.FilterTeams` | internal/server/list_teams.go:37-46 | the loop produces exactly the matching teams in fetched order |
| `ListTeamsHandler.ListTeams` | internal/server/list_teams.go:22-59 | a non-GET request is 405 with no call; the Teams call is the only call and its error is returned; an empty search lists every fetched team as fetched, any other search exactly the matching ones |
| `ListUsersHandler.ListUsers` | internal/server/list_users.go:25-71 | a non-GET request is 405 with no call; MyDetails comes first and its error is returned; without the "System Admin" role the result is 403 with no search; with it, one search with the literal term happens iff the term has at least 3 bytes and its error is returned, a shorter non-empty term sets the field error, and the page echoes the path, the Sirius URL and the raw term |
| `AddUserHandler.AddUserCallFor` | internal/server/add_user.go:50-58 | the call carries the email, firstname, surname and organisation fields and every "roles" value in submitted order |
| `AddUserHandler.AddUser` | internal/server/add_user.go:22-77 | MyDetails comes first for every method and its error is returned; without the role the result is 403 whatever the method, and no user is added; GET renders; POST adds the user, a `ValidationError` value renders 400 with its errors, any other error is returned, and success redirects to /users; any other method is 405 |
| `ChangePasswordHandler.CurrentPasswordError` | internal/server/change_password.go:49-53 | the page errors hold exactly the current-password field, with the rejection's text |
| `ChangePasswordHandler.ChangePassword` | internal/server/change_password.go:21-69 | GET renders with the context's XSRF token and makes no call; POST passes currentpassword, password1 and password2 as current, new and confirmation; `ErrUnauthorized` is returned although it is a `ClientError`; any other `ClientError` renders 400 under the current password; any other error is returned; nil renders success; any other method is 405 |
| `ResendConfirmationHandler.ResendConfirmation` | internal/server/resend_confirmation.go:19-44 | only a POST calls the platform, once, with the submitted email; the page is rendered iff that call succeeds, and it echoes the id and email fields; GET redirects to /users; a failure is returned unchanged; any other method is 405 |
| `ErrorHandler.Classify` | internal/server/server.go:87-104 | nil passes; `ErrUnauthorized` redirects to siriusURL + "/auth"; a `RedirectError` redirects to the prefix plus its target; these are the only redirects; every other error gets a page whose code is 403 or 404 exactly when it is a `StatusError` with that code, and 500 otherwise |
| `ErrorHandler.UnauthorizedTextRedirectsToLogin` | internal/server/server.go:88-91 | a client error is sent to the login page if and only if its text is "unauthorized" |
| `ErrorHandler.LogLine` | internal/server/server.go:106 | the logged line is the handler name, ": ", the error's text and a newline |
| `ErrorHandler.ResponseWriter.ExecuteErrorTemplate` | internal/server/server.go:109-114 | the error template appends the whole page, or only the part before a failure; a writer with no status yet gets 200 from the first write |
| `ErrorHandler.ServeErrorPage` | internal/server/server.go:106-120 | the error is logged once; the status becomes the chosen code unless one was already written; the body gains the page with that code, the error's text and an empty path, or, when the template fails, the part of the page written before the failure, a second log line for the failure and the plain-text message, with the status unchanged by the later 500 |
| `ErrorHandler.ServeError` | internal/server/server.go:85-122 | nil writes and logs nothing; a redirect sets Location and 302 and logs nothing; otherwise one log line, the chosen status, and the page with that code, the error's text and an empty path; a failed render leaves only the part of the page written before the failure, is logged too and is followed by the plain-text message, with the status left as first written |

## Left out

- The HTTP transport. `http.Client.Do` is represented by its result, a `Reply` that is either a transport error or a status and a decoding outcome.
- JSON decoding. Each response body is given as `Decoded(value)`, `EmptyBody` or `Undecodable(err)`.
- SiriusMyDetails.ClassifyMyDetails: returns zero details beside any error. Go returns whatever part of the details was decoded before the decoder failed.
- Template rendering. `Rendered(status, vars)` stands for a successful `ExecuteTemplate`. A failure of a handler's own template, which Go returns to the error handler, is not modelled. The error page's failure is an input of `ErrorHandler.ServeError`.
- The calls a handler makes to the client's other endpoints (Team, Teams, SearchUsers, HasPermission, TeamTypes, EditTeam, AddUser, ResendConfirmation). Their answers are inputs. `internal/sirius/resend_confirmation.go` and the endpoints behind them are not part of this model.
- The request's cookies and context, which handlers pass to the client unchanged. `getContext` is not part of this model; only the XSRF token it provides is, as a field of `Request`.
- The API client's `MyDetails` result as the handlers see it is reduced to its roles in `ListUsersHandler` and `AddUserHandler`, the only field they read.
- Strings.ToLower: lower-cases ASCII letters only, whereas Go's `strings.ToLower` applies full Unicode case mapping. Matching of non-ASCII names is therefore not modelled.
- Url.QueryUnescape: treats each decoded byte as one character below 256 and does not re-assemble multi-byte UTF-8 sequences.
- The serialisation of `url.Values.Encode`. The form body is kept as the map of fields.
- Header key canonicalisation (Go stores "Content-type" as "Content-Type"). Headers are matched by their exact name.
- The order of headers with different names. Go's `http.Header` is a map and keeps order only among the values of one name. The model keeps headers in one sequence, so its statements about header positions say more than Go fixes.
- Strings that are not valid UTF-8. Go strings are byte strings, but form values, paths and cookie values are modelled as sequences of Unicode scalar values. The byte-counting search rule is therefore modelled only for valid UTF-8 terms. For example, `search=%FF%FF%FF` is three bytes in Go and triggers a search, but it cannot be represented here.
- The content of a partly rendered page. `PartialPage` stands for whatever prefix of the page the template wrote before failing, possibly nothing.
- `http.NewRequestWithContext` failing on a malformed method or URL. Only the XSRF unescape failure is modelled as a refused request.
- What `http.Redirect` adds: cleaning of relative paths and the short HTML body for GET. Also left out are the Content-Type and X-Content-Type-Options headers that `http.Error` sets, and the logger's own prefix and timestamp.
- The warning Go's server logs on a superfluous `WriteHeader`.
- Route wiring in `server.New`, the health check, the root redirect and static file serving. These are library plumbing.
- The remove-member handler, which is not among the source files modelled.
- Request-context cancellation and concurrency between requests. Every handler runs one request sequentially.
