/** What the handlers of package server share: the parts of an inbound
    request they read, the calls they make to the platform client, what a
    handler ends with, and the small rules several of them repeat (the id at
    the end of a path, the "System Admin" gate, the search-term rule). */
module ServerCommon {

  import opened Wrappers
  import opened Errors
  import opened SiriusEntities
  import Strings
  import Strconv

  /** An inbound request as the handlers see it. `form` is what
      `r.FormValue` reads (query and body together), `postForm` what
      `r.PostFormValue` and `r.PostForm` read (the body only), and
      `contextXsrfToken` the XSRF token of the request's context. */
  datatype Request = Request(
    verb: string,
    path: string,
    form: map<string, seq<string>>,
    postForm: map<string, seq<string>>,
    contextXsrfToken: string)

  /** `r.FormValue(key)`: the first value, or "" when there is none. */
  function FormValue(r: Request, key: string): (v: string)
    ensures key in r.form && r.form[key] != [] ==> v == r.form[key][0]
    ensures !(key in r.form && r.form[key] != []) ==> v == ""
  {
    if key in r.form && r.form[key] != [] then r.form[key][0] else ""
  }

  /** `r.PostFormValue(key)`: the first body value, or "". */
  function PostFormValue(r: Request, key: string): (v: string)
    ensures key in r.postForm && r.postForm[key] != [] ==> v == r.postForm[key][0]
    ensures !(key in r.postForm && r.postForm[key] != []) ==> v == ""
  {
    if key in r.postForm && r.postForm[key] != [] then r.postForm[key][0] else ""
  }

  /** `r.PostForm[key]`: every body value, in submitted order. */
  function PostFormValues(r: Request, key: string): (vs: seq<string>)
    ensures key in r.postForm ==> vs == r.postForm[key]
    ensures key !in r.postForm ==> vs == []
  {
    if key in r.postForm then r.postForm[key] else []
  }

  /** One call a handler makes to the platform client, with the arguments
      that vary (every call also receives the request's cookies or context
      unchanged). */
  datatype Call =
    | TeamCall(id: int)
    | SearchUsersCall(term: string)
    | HasPermissionCall(group: string, action: string)
    | TeamTypesCall
    | EditTeamCall(team: Team)
    | TeamsCall
    | MyDetailsCall
    | AddUserCall(email: string, firstname: string, surname: string, organisation: string, roles: seq<string>)
    | ChangePasswordCall(currentPassword: string, newPassword: string, newPasswordConfirm: string)
    | ResendConfirmationCall(email: string)

  /** How a handler ends: it renders its page with a status (200 unless it
      wrote another first) and its variables, or it returns an error to the
      error handler. */
  datatype Outcome<V> = Rendered(status: int, vars: V) | Returned(err: Error)

  const SearchTooShortMessage: string := "Search term must be at least three characters"

  /** The field error a too-short search term produces. */
  const SearchTooShort: ValidationErrors := map["search" := map["" := SearchTooShortMessage]]

  /** The minimum search length, in bytes as Go's `len` counts them. */
  const MinSearchBytes: nat := 3

  /** The role that opens the user administration pages. */
  const SystemAdminRole: string := "System Admin"

  /** The id at the end of a path: `strconv.Atoi(strings.TrimPrefix(path, prefix))`. */
  function ParseId(path: string, prefix: string): Option<int> {
    Strconv.Atoi(Strings.TrimPrefix(path, prefix))
  }

  /** The path of a resource parses back to its id. */
  lemma ParseIdRoundTrip(prefix: string, id: int)
    requires Strconv.InInt64(id)
    ensures ParseId(prefix + Strconv.Itoa(id), prefix) == Some(id)
  {
    var path := prefix + Strconv.Itoa(id);
    assert path[..|prefix|] == prefix;
    assert path[|prefix|..] == Strconv.Itoa(id);
    Strconv.AtoiItoa(id);
  }

  /** A path with an extra segment after the id, an empty id, or a path that
      does not start with the prefix (left intact by TrimPrefix, so it still
      starts with '/') has no id. */
  lemma ParseIdRejects(path: string, prefix: string)
    ensures var rest := Strings.TrimPrefix(path, prefix);
      rest == [] || (exists i :: 0 <= i < |rest| && rest[i] == '/') ==> ParseId(path, prefix).None?
    ensures !Strings.HasPrefix(path, prefix) && path != [] && path[0] == '/' ==> ParseId(path, prefix).None?
  {
    var rest := Strings.TrimPrefix(path, prefix);
    if Strconv.Atoi(rest).Some? {
      Strconv.AtoiAcceptsOnlySignAndDigits(rest);
    }
  }

  /** The role scan of listUsers and addUser: a flag set by any role equal
      to "System Admin". */
  method Permitted(roles: seq<string>) returns (permitted: bool)
    ensures permitted <==> SystemAdminRole in roles
  {
    permitted := false;
    var i := 0;
    while i < |roles|
      invariant 0 <= i <= |roles|
      invariant permitted <==> SystemAdminRole in roles[..i]
    {
      if roles[i] == SystemAdminRole {
        permitted := true;
      }
      assert roles[..i + 1] == roles[..i] + [roles[i]];
      i := i + 1;
    }
    assert roles[..i] == roles;
  }
}
