// The browser as the pages see it: three key/value stores (cookies,
// localStorage, sessionStorage) and the log of navigations requested
// through the router.

module Browser {
  import opened Wrappers

  /** A navigation the router is asked for. The query strings of the loading
      and error pages are kept as their fields. */
  datatype Route =
    | Path(path: string)
    | Loading(age: string, style: string, returnTo: string)
    | ErrorPage(message: string)
    | Back

  /** A key's value in a store, or None when it is not set. */
  function Lookup(store: map<string, string>, key: string): (v: Option<string>)
    ensures v.Some? <==> key in store
    ensures v.Some? ==> v.value == store[key]
  {
    if key in store then Some(store[key]) else None
  }

  class BrowserState {
    var cookies: map<string, string>
    var local: map<string, string>
    var session: map<string, string>
    var navigations: seq<Route>

    constructor(cookies0: map<string, string>, local0: map<string, string>, session0: map<string, string>)
      ensures cookies == cookies0 && local == local0 && session == session0
      ensures navigations == []
    {
      cookies, local, session := cookies0, local0, session0;
      navigations := [];
    }

    function Cookie(name: string): Option<string>
      reads this
    {
      Lookup(cookies, name)
    }

    function Local(key: string): Option<string>
      reads this
    {
      Lookup(local, key)
    }

    function Session(key: string): Option<string>
      reads this
    {
      Lookup(session, key)
    }

    /** `Cookies.set` (the expiry is not modelled). */
    method SetCookie(name: string, value: string)
      modifies this
      ensures cookies == old(cookies)[name := value]
      ensures local == old(local) && session == old(session) && navigations == old(navigations)
    {
      cookies := cookies[name := value];
    }

    /** `Cookies.remove`. */
    method RemoveCookie(name: string)
      modifies this
      ensures cookies == old(cookies) - {name}
      ensures local == old(local) && session == old(session) && navigations == old(navigations)
    {
      cookies := cookies - {name};
    }

    /** `localStorage.setItem`. */
    method SetLocal(key: string, value: string)
      modifies this
      ensures local == old(local)[key := value]
      ensures cookies == old(cookies) && session == old(session) && navigations == old(navigations)
    {
      local := local[key := value];
    }

    /** `localStorage.removeItem`. */
    method RemoveLocal(key: string)
      modifies this
      ensures local == old(local) - {key}
      ensures cookies == old(cookies) && session == old(session) && navigations == old(navigations)
    {
      local := local - {key};
    }

    /** `sessionStorage.setItem`. */
    method SetSession(key: string, value: string)
      modifies this
      ensures session == old(session)[key := value]
      ensures cookies == old(cookies) && local == old(local) && navigations == old(navigations)
    {
      session := session[key := value];
    }

    /** `router.push` or `router.back`. */
    method Navigate(r: Route)
      modifies this
      ensures navigations == old(navigations) + [r]
      ensures cookies == old(cookies) && local == old(local) && session == old(session)
    {
      navigations := navigations + [r];
    }
  }

  /** Pushing a route and then several is pushing them all at once. */
  lemma PushThenPushAll(log: seq<Route>, r: Route, rs: seq<Route>)
    ensures log + [r] + rs == log + ([r] + rs)
  {
  }

  /** The flag the home page leaves for admins, read by the onboarding pages. */
  predicate SkipsOnboarding(session: map<string, string>) {
    Lookup(session, "skipAdminRedirect") == Some("true")
  }
}
