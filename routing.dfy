/**
 * The entry route's guard (app/index.tsx) and the parameters the phone
 * screens pass to the verification screen.
 */
module Routing {
  import opened Wrappers
  import opened Api
  import opened Session

  const TabsRoute := "/(tabs)"
  const LoginRoute := "/login"

  /** The redirect of the entry route: the main tabs when authenticated, the login screen otherwise. */
  function Redirect(isAuthenticated: bool): (href: string)
    ensures href == TabsRoute || href == LoginRoute
    ensures href == TabsRoute <==> isAuthenticated
  {
    if isAuthenticated then TabsRoute else LoginRoute
  }

  /** Only authentication is consulted: whether the profile is complete does not change the target. */
  lemma RedirectIgnoresProfile(u: User, complete: Option<bool>)
    ensures Redirect(IsAuthenticated(Some(u))) == Redirect(IsAuthenticated(Some(u.(profileComplete := complete))))
    ensures Redirect(IsAuthenticated(Some(u))) == TabsRoute
  {
  }

  /** After `logout` the guard always sends the user to the login screen. */
  method GuardAfterLogout(store: AuthStore) returns (href: string)
    modifies store
    ensures store.user == None && href == LoginRoute
  {
    store.Logout();
    href := Redirect(store.Authenticated());
  }

  /** After `login(u)` the guard sends the user to the main tabs, whatever `u` holds. */
  method GuardAfterLogin(store: AuthStore, u: User) returns (href: string)
    modifies store
    ensures store.user == Some(u) && href == TabsRoute
  {
    store.Login(u);
    href := Redirect(store.Authenticated());
  }

  /** The verification screen's route parameters. */
  datatype VerifyParams = VerifyParams(phoneNumber: string, fullName: Option<string>, alias: Option<string>, flow: Flow)
}
