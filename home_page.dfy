// The home page: the admin check run once authentication has loaded, the
// main button's destination and its label.

module HomePage {
  import opened Wrappers
  import opened Browser

  /** What the admin-check request gave: its `isAdmin` field, or a throw. */
  datatype AdminCheck = CheckThrew | CheckReplied(isAdmin: bool)

  /** Whether the check confirms an admin: authentication has loaded, the
      user is signed in and the reply says admin. */
  predicate AdminConfirmed(isLoaded: bool, isSignedIn: bool, check: AdminCheck) {
    isLoaded && isSignedIn && check == CheckReplied(true)
  }

  /** Where the main button leads. */
  function MainButtonRoute(isSignedIn: bool, isAdmin: bool): (r: string)
    ensures !isSignedIn ==> r == "/please-login"
    ensures isSignedIn && isAdmin ==> r == "/admin"
    ensures isSignedIn && !isAdmin ==> r == "/age"
  {
    if !isSignedIn then "/please-login" else if isAdmin then "/admin" else "/age"
  }

  /** The main button's text. */
  function ButtonLabel(isAdmin: bool): (r: string)
    ensures r == "Dashboard" <==> isAdmin
  {
    if isAdmin then "Dashboard" else "Find My Color"
  }

  class HomePageState {
    const browser: BrowserState
    var isAdmin: bool

    constructor(b: BrowserState)
      ensures browser == b && !isAdmin
    {
      browser := b;
      isAdmin := false;
    }

    /** The label as drawn. */
    function Label(): string
      reads this
    {
      ButtonLabel(isAdmin)
    }

    /** The effect's `checkAuth`. */
    method CheckAuth(isLoaded: bool, isSignedIn: bool, check: AdminCheck)
      modifies this, browser
      ensures isAdmin == (old(isAdmin) || AdminConfirmed(isLoaded, isSignedIn, check))
      ensures browser.session == (if AdminConfirmed(isLoaded, isSignedIn, check)
                                  then old(browser.session)["skipAdminRedirect" := "true"]
                                  else old(browser.session))
      ensures browser.cookies == old(browser.cookies) && browser.local == old(browser.local)
      ensures browser.navigations == old(browser.navigations)
    {
      if !isLoaded {
        return;
      }
      if isSignedIn {
        match check
        case CheckThrew =>
        case CheckReplied(admin) =>
          if admin {
            browser.SetSession("skipAdminRedirect", "true");
            isAdmin := true;
          }
      }
    }

    /** The main button. */
    method ClickMainButton(isSignedIn: bool)
      modifies browser
      ensures browser.navigations == old(browser.navigations) + [Path(MainButtonRoute(isSignedIn, isAdmin))]
      ensures browser.cookies == old(browser.cookies) && browser.local == old(browser.local)
      ensures browser.session == old(browser.session)
    {
      if !isSignedIn {
        browser.Navigate(Path("/please-login"));
      } else if isAdmin {
        browser.Navigate(Path("/admin"));
      } else {
        browser.Navigate(Path("/age"));
      }
    }
  }
}

module HomePageProperties {
  import opened Wrappers
  import opened Browser
  import opened HomePage

  /** Before authentication has loaded, nothing is confirmed. */
  lemma NothingBeforeLoaded(isSignedIn: bool, check: AdminCheck)
    ensures !AdminConfirmed(false, isSignedIn, check)
  {
  }

  /** A signed-out visitor goes to the login page whatever the admin flag. */
  lemma SignedOutGoesToLogin(isAdmin: bool)
    ensures MainButtonRoute(false, isAdmin) == "/please-login"
  {
  }

  /** Once the check has confirmed an admin, the skip flag the onboarding
      pages read is set, and the button shows "Dashboard" and leads to the
      dashboard for a signed-in user. */
  lemma ConfirmedAdminSkipsOnboarding(session: map<string, string>, isLoaded: bool, isSignedIn: bool, check: AdminCheck)
    requires AdminConfirmed(isLoaded, isSignedIn, check)
    ensures SkipsOnboarding(session["skipAdminRedirect" := "true"])
    ensures ButtonLabel(true) == "Dashboard" && MainButtonRoute(isSignedIn, true) == "/admin"
  {
  }
}
