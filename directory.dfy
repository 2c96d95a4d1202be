/** The remote user directory as the reconciliation cycle sees it: the
    desired users, fetched by `get_enable_users`. */
module Directory {
  import opened Wrappers
  import opened V2rayConfig

  /** One entry of the `users` list the directory returns. */
  datatype User = User(userId: UserId, level: int, alterId: int)

  /** The reply to `GET userapi`: its HTTP status and the `users` list of
      its body, `None` when the body is not JSON or has no `users` key. */
  datatype UsersResponse = UsersResponse(status: int, users: Option<seq<User>>)

  /** `get_enable_users` (lines 24-37): the users are returned only for a
      200 reply with a readable body; every other reply raises. */
  function GetEnableUsers(response: UsersResponse): (users: Option<seq<User>>)
    ensures users.Some? <==> response.status == 200 && response.users.Some?
    ensures users.Some? ==> users == response.users
  {
    if response.status == 200 then response.users else None
  }

  function UserIds(users: seq<User>): seq<UserId>
  {
    seq(|users|, k requires 0 <= k < |users| => users[k].userId)
  }
}
