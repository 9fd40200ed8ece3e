/**
 * The credential store. The `users` table becomes a map from username to the
 * stored row; `createUser` inserts a row and returns it (`RETURNING *`),
 * `getUserByUsername` is a point lookup on the key, and `getUserByNRIC` scans
 * the rows for a matching NRIC.
 */
module UserModel {
  import opened Wrappers

  /** A row of the `users` table; `password` holds the bcrypt hash. */
  datatype User = User(
    username: string,
    password: string,
    nric: string,
    first_name: string,
    last_name: string,
    dob: string,
    address: string,
    gender: string)

  /** The row as the JavaScript object `SELECT *` yields: column name to value. */
  function Columns(u: User): (row: map<string, string>)
    ensures row.Keys == {"username", "password", "nric", "first_name", "last_name", "dob", "address", "gender"}
  {
    map["username" := u.username, "password" := u.password, "nric" := u.nric,
        "first_name" := u.first_name, "last_name" := u.last_name, "dob" := u.dob,
        "address" := u.address, "gender" := u.gender]
  }

  /** `getUserByUsername(username)`: the row keyed by that username, if any. */
  function GetUserByUsername(users: map<string, User>, username: string): (r: Option<User>)
    ensures r.Some? <==> username in users
    ensures r.Some? ==> r.value == users[username]
    ensures r.Some? && Consistent(users) ==> r.value.username == username
  {
    if username in users then Some(users[username]) else None
  }

  /** Some row carries this NRIC. */
  predicate NricTaken(users: map<string, User>, nric: string) {
    exists name :: name in users && users[name].nric == nric
  }

  /**
   * What the table's uniqueness promises: every row is stored under its own
   * username, and no two rows share an NRIC.
   */
  predicate Consistent(users: map<string, User>) {
    && (forall name :: name in users ==> users[name].username == name)
    && (forall a, b :: a in users && b in users && users[a].nric == users[b].nric ==> a == b)
  }

  class UserStore {
    var users: map<string, User>

    constructor ()
      ensures users == map[]
    {
      users := map[];
    }

    /** `createUser(...)`: insert one row and return it as stored. */
    method CreateUser(username: string, hashedPassword: string, nric: string, firstName: string,
                      lastName: string, dob: string, address: string, gender: string)
      returns (row: User)
      modifies this
      ensures row == User(username, hashedPassword, nric, firstName, lastName, dob, address, gender)
      ensures users == old(users)[username := row]
    {
      row := User(username, hashedPassword, nric, firstName, lastName, dob, address, gender);
      users := users[username := row];
    }

    /**
     * `getUserByNRIC(nric)`: some stored row with that NRIC, or None exactly
     * when no row has it.
     */
    method GetUserByNric(nric: string) returns (r: Option<User>)
      ensures r.Some? ==> r.value.nric == nric && r.value in users.Values
      ensures r.None? <==> !NricTaken(users, nric)
      ensures r.Some? && Consistent(users) ==> r.value == users[r.value.username]
    {
      var unseen := users.Keys;
      while unseen != {}
        invariant unseen <= users.Keys
        invariant forall name :: name in users && name !in unseen ==> users[name].nric != nric
        decreases unseen
      {
        var name :| name in unseen;
        if users[name].nric == nric {
          return Some(users[name]);
        }
        unseen := unseen - {name};
      }
      return None;
    }
  }
}
