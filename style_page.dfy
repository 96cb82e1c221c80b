// The style step: the guard and clean-up run on entry, and choosing a style.
// The page keeps no state of its own; both handlers act on the browser.

module StylePage {
  import opened Wrappers
  import opened Strings
  import opened Browser

  /** The styles offered, in the order shown. */
  const StyleOptions: seq<string> := ["Daily", "Girly", "Sporty", "Streetwear", "Cocktail Party", "Formal"]

  /** The entry guard: off to `/age` unless the admin flag is set or an age cookie is there. */
  predicate EntryRedirects(session: map<string, string>, cookies: map<string, string>) {
    !SkipsOnboarding(session) && !Truthy(Lookup(cookies, "userAge"))
  }

  /** The keys cleared on entry. */
  const StaleCookies: set<string> := {"styleOption"}
  const StaleLocalKeys: set<string> := {"reportResult", "generatedImageUrl"}

  /** The effect run on entry: the guard, then the clean-up, which runs
      whether or not the guard redirected. */
  method Enter(b: BrowserState)
    modifies b
    ensures b.navigations == old(b.navigations)
      + (if EntryRedirects(old(b.session), old(b.cookies)) then [Path("/age")] else [])
    ensures b.cookies == old(b.cookies) - StaleCookies
    ensures b.local == old(b.local) - StaleLocalKeys
    ensures b.session == old(b.session)
  {
    var skip := b.Session("skipAdminRedirect") == Some("true");
    var userAge := b.Cookie("userAge");
    if !skip && !Truthy(userAge) {
      b.Navigate(Path("/age"));
    }
    b.RemoveCookie("styleOption");
    b.RemoveLocal("reportResult");
    b.RemoveLocal("generatedImageUrl");
    assert b.local == old(b.local) - {"reportResult"} - {"generatedImageUrl"};
  }

  /** A style button: remember the style, then go to the selfie step. */
  method ChooseStyle(b: BrowserState, style: string)
    modifies b
    ensures b.cookies == old(b.cookies)["preferredStyle" := style]
    ensures b.navigations == old(b.navigations) + [Path("/upload-image/selfie")]
    ensures b.local == old(b.local) && b.session == old(b.session)
  {
    b.SetCookie("preferredStyle", style);
    b.Navigate(Path("/upload-image/selfie"));
  }
}

module StylePageProperties {
  import opened Wrappers
  import opened Strings
  import opened Browser
  import opened StylePage

  /** Six styles, no two alike, "Daily" (the analysis default) among them. */
  lemma StyleOptionsDistinct()
    ensures |StyleOptions| == 6
    ensures forall i, j :: 0 <= i < j < |StyleOptions| ==> StyleOptions[i] != StyleOptions[j]
    ensures "Daily" in StyleOptions
  {
    var s := StyleOptions;
    assert s[0][0] == 'D' && s[1][0] == 'G' && s[2][0] == 'S' && s[3][0] == 'S';
    assert s[4][0] == 'C' && s[5][0] == 'F';
    assert s[2][1] == 'p' && s[3][1] == 't';
  }

  /** The entry clean-up keeps every other cookie and stored key, the age
      cookie among them. */
  lemma CleanupKeepsOtherKeys(cookies: map<string, string>, local: map<string, string>, k: string)
    requires k != "styleOption"
    requires k != "reportResult" && k != "generatedImageUrl"
    ensures Lookup(cookies - StaleCookies, k) == Lookup(cookies, k)
    ensures Lookup(local - StaleLocalKeys, k) == Lookup(local, k)
  {
  }

  /** The clean-up leaves none of the stale keys behind. */
  lemma CleanupRemovesStaleKeys(cookies: map<string, string>, local: map<string, string>)
    ensures Lookup(cookies - StaleCookies, "styleOption") == None
    ensures Lookup(local - StaleLocalKeys, "reportResult") == None
    ensures Lookup(local - StaleLocalKeys, "generatedImageUrl") == None
  {
  }

  /** Choosing a style stores exactly that style and keeps the age cookie. */
  lemma ChosenStyleStored(cookies: map<string, string>, style: string)
    ensures Lookup(cookies["preferredStyle" := style], "preferredStyle") == Some(style)
    ensures Lookup(cookies["preferredStyle" := style], "userAge") == Lookup(cookies, "userAge")
  {
  }

  /** An admin or a visitor with a non-empty age cookie stays on the page; anyone else is sent on. */
  lemma EntryGuard(session: map<string, string>, cookies: map<string, string>)
    ensures SkipsOnboarding(session) ==> !EntryRedirects(session, cookies)
    ensures Truthy(Lookup(cookies, "userAge")) ==> !EntryRedirects(session, cookies)
    ensures !SkipsOnboarding(session) && !Truthy(Lookup(cookies, "userAge")) ==> EntryRedirects(session, cookies)
  {
  }
}
