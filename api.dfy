/** What the two API route files share: the caller's identity as the session
    gives it, the shape of a response, and the validation step that appends
    a message to the `errors` array when a check fails. */
module Api {
  import opened Js

  type UserId = string

  /** A response: its status and, where there is one, its payload. */
  datatype Response<T> =
    | Created(body: T)               // 201
    | Ok(body: T)                    // 200
    | BadRequest(errors: seq<string>) // 400 with `{ errors }`
    | Unauthorized                   // 401
    | Forbidden                      // 403
    | NotFound                       // 404
    | ServerError                    // 500

  /** A registered account, as far as identity resolution needs it. */
  datatype User = User(id: UserId, email: string)

  /** `session.user` as next-auth hands it over; any field may be missing. */
  datatype SessionUser = SessionUser(id: Option<string>, email: Option<string>, name: Option<string>)

  /** The first account registered with `email` (`findUnique` on a unique column). */
  function FindUserByEmail(users: seq<User>, email: string): (r: Option<User>)
    ensures r.Some? ==> r.value in users && r.value.email == email
    ensures r.None? ==> forall i :: 0 <= i < |users| ==> users[i].email != email
  {
    Find((u: User) => u.email == email, users)
  }

  /** The caller's id after the handlers' backfill: a session whose user has no
      id but has an email gets the id of the account with that email; a caller
      counts as known only with a non-empty id. `session` is `None` when there
      is no session or it carries no user. */
  function ResolveCaller(session: Option<SessionUser>, users: seq<User>): (r: Option<UserId>)
    ensures r.Some? ==> r.value != ""
    ensures session.None? ==> r.None?
    ensures session.Some? && Truthy(session.value.id) ==> r == session.value.id
    ensures session.Some? && !Truthy(session.value.id) ==>
              (r.Some? <==> Truthy(session.value.email)
                            && FindUserByEmail(users, session.value.email.value).Some?
                            && FindUserByEmail(users, session.value.email.value).value.id != "")
    ensures session.Some? && !Truthy(session.value.id) && r.Some? ==>
              r.value == FindUserByEmail(users, session.value.email.value).value.id
  {
    if session.None? then None
    else
      var u := session.value;
      var id :=
        if !Truthy(u.id) && Truthy(u.email) then
          match FindUserByEmail(users, u.email.value)
          case Some(found) => Some(found.id)
          case None => u.id
        else u.id;
      if Truthy(id) then id else None
  }

  // ---------------------------------------------------------------- validation

  /** The errors one validation step contributes: its error if it failed. */
  function Flag<E>(failed: bool, error: E): (r: seq<E>)
    ensures |r| == if failed then 1 else 0
    ensures failed ==> r == [error]
  {
    if failed then [error] else []
  }

  /** A check that passed leaves the errors as they were. */
  lemma PassedCheckAddsNothing<E>(errors: seq<E>, error: E)
    ensures errors + Flag(false, error) == errors
  {
  }

  /** One `if (failed) errors.push(error)` step of a validator. */
  method Push<E>(errors: seq<E>, failed: bool, error: E) returns (r: seq<E>)
    ensures r == errors + Flag(failed, error)
  {
    r := errors;
    if failed {
      r := r + [error];
    }
  }
}
