/**
 * `getUser`: look up the identity the gate attached and send the stored row
 * without its `password` column.
 */
module UserController {
  import opened Wrappers
  import opened Http
  import opened UserModel

  /** `const { password, ...userInfo } = user`: every column of the row but `password`. */
  function Profile(u: User): (info: map<string, string>)
    ensures "password" !in info
    ensures info.Keys == Columns(u).Keys - {"password"}
    ensures forall column :: column in info ==> info[column] == Columns(u)[column]
  {
    Columns(u) - {"password"}
  }

  /** The profile holds exactly the seven non-secret columns, each with its stored value. */
  lemma ProfileFields(u: User)
    ensures Profile(u) == map["username" := u.username, "nric" := u.nric, "first_name" := u.first_name,
                              "last_name" := u.last_name, "dob" := u.dob, "address" := u.address,
                              "gender" := u.gender]
  {
  }

  /**
   * The reply of `getUser` for the identity in `req.user`: 404 when no row is
   * stored under it (an absent identity matches no row), otherwise 200 with
   * the row's profile. No reply carries a `password` field.
   */
  function GetUserReply(users: map<string, User>, identity: Option<string>): (r: Reply)
    ensures r.status == 404 <==> identity.None? || identity.value !in users
    ensures r.status == 404 ==> r == Reply(404, Message("User not found"), [])
    ensures r.status != 404 ==> r == Reply(200, Object(Profile(users[identity.value])), [])
    ensures r.body.Object? ==> "password" !in r.body.fields
  {
    var user := if identity.Some? then GetUserByUsername(users, identity.value) else None;
    match user
    case None => Reply(404, Message("User not found"), [])
    case Some(u) => Reply(200, Object(Profile(u)), [])
  }

  /** `getUser` as the handler runs it; it only reads the store. */
  method GetUser(store: UserStore, req: Request, res: Response)
    requires res.Unsent()
    modifies res
    ensures res.Sent() == Some(GetUserReply(store.users, req.user))
  {
    var user := if req.user.Some? then GetUserByUsername(store.users, req.user.value) else None;
    if user.None? {
      res.Status(404);
      res.SendJson(Message("User not found"));
      return;
    }
    var userInfo := Columns(user.value) - {"password"};
    res.SendJson(Object(userInfo));
  }
}
