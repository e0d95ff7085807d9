/**
 * The auth context: one optional user record held in memory. `login` and
 * `signup` overwrite it without any check, `logout` clears it, and
 * `isAuthenticated` is derived from it.
 */
module Session {
  import opened Wrappers

  /**
   * The session record. `User` declares id, phoneNumber, alias, fullName and
   * avatar; the screens also read `token` and write `profileComplete`
   * through object spreads, so both are carried here. A field the server
   * left out stays absent (None).
   */
  datatype User = User(
    id: Option<string>,
    phoneNumber: string,
    alias: string,
    fullName: Option<string>,
    avatar: Option<string>,
    token: Option<string>,
    profileComplete: Option<bool>)

  /** `isAuthenticated: !!user`: any user object is truthy. */
  predicate IsAuthenticated(user: Option<User>) {
    user.Some?
  }

  class AuthStore {
    var user: Option<User>

    /** `useState<User | null>(null)`. */
    constructor()
      ensures user == None && !Authenticated()
    {
      user := None;
    }

    function Authenticated(): (b: bool)
      reads this
      ensures b <==> user.Some?
    {
      IsAuthenticated(user)
    }

    /** `login`: the record becomes exactly `u`; the last write wins. */
    method Login(u: User)
      modifies this
      ensures user == Some(u) && Authenticated()
    {
      user := Some(u);
    }

    /** `signup`: the same effect as `login`. */
    method Signup(u: User)
      modifies this
      ensures user == Some(u) && Authenticated()
    {
      user := Some(u);
    }

    /** `logout`. */
    method Logout()
      modifies this
      ensures user == None && !Authenticated()
    {
      user := None;
    }
  }
}
