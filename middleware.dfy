/**
 * The route guard that runs before every matched request: it lets the
 * Supabase server client refresh the session cookies, asks for the signed-in
 * user, and then either lets the request through or redirects it to the
 * login page. Every response it returns carries two debug headers.
 *
 * The authentication round trip is a parameter: the cookie batches the client
 * hands to `setAll` while it works, and whether it found a user.
 */
module Middleware {
  import opened Wrappers
  import opened Text
  import opened BrowserCookies

  /** The paths served without a session: five exact paths and every Next.js asset under `/_next/`. */
  function IsAllowedPath(pathname: string): (allowed: bool)
    ensures allowed <==>
      pathname in {"/login", "/auth/callback", "/favicon.ico", "/robots.txt", "/sitemap.xml"} ||
      (|pathname| >= 7 && pathname[..7] == "/_next/")
  {
    pathname == "/login" ||
    pathname == "/auth/callback" ||
    pathname == "/favicon.ico" ||
    pathname == "/robots.txt" ||
    pathname == "/sitemap.xml" ||
    StartsWith(pathname, "/_next/")
  }

  /** Anything below `/_next/` is allowed, however deep. */
  lemma AssetPathsAllowed(rest: string)
    ensures IsAllowedPath("/_next/" + rest)
  {
    StartsWithConcat("/_next/", rest);
  }

  /** The match is exact: every page below `/login`, `/_next` without its slash, and `/` are guarded. */
  lemma AllowListIsExact(rest: string)
    ensures !IsAllowedPath("/login/" + rest)
    ensures !IsAllowedPath("/_next")
    ensures !IsAllowedPath("/")
  {
    var path := "/login/" + rest;
    assert |path| >= 7 && path[1] == 'l' && path[6] == '/';
    assert path[..7] == "/login/";
  }

  /** What the guard does with a request. */
  datatype Decision = PassThrough | RedirectToLogin

  /** The allow/redirect rule: only a guarded path without a user is sent to the login page. */
  function Decide(pathname: string, hasUser: bool): (d: Decision)
    ensures d == RedirectToLogin <==> !IsAllowedPath(pathname) && !hasUser
  {
    if IsAllowedPath(pathname) then PassThrough
    else if !hasUser then RedirectToLogin
    else PassThrough
  }

  /** The three cases of the rule, one by one. */
  lemma DecisionCases(pathname: string, hasUser: bool)
    ensures IsAllowedPath(pathname) ==> Decide(pathname, hasUser) == PassThrough
    ensures !IsAllowedPath(pathname) && !hasUser ==> Decide(pathname, hasUser) == RedirectToLogin
    ensures !IsAllowedPath(pathname) && hasUser ==> Decide(pathname, hasUser) == PassThrough
  {
  }

  /** The value of the `x-user` debug header. */
  function UserHeader(hasUser: bool): (value: string)
    ensures value == "present" <==> hasUser
    ensures value == "absent" <==> !hasUser
  {
    if hasUser then "present" else "absent"
  }

  /** `new URL("/login", request.url)`, with the request's origin given. */
  function LoginUrl(origin: string): string {
    origin + "/login"
  }

  /**
   * Setting each cookie of a batch in turn, on a cookie store keyed by name;
   * `entry` is what the store keeps for a cookie.
   */
  function SetEach<V>(store: map<string, V>, batch: seq<CookieToSet>, entry: CookieToSet -> V): (r: map<string, V>)
    ensures r.Keys == store.Keys + set i | 0 <= i < |batch| :: batch[i].name
    decreases |batch|
  {
    if batch == [] then store
    else
      var r := SetEach(store[batch[0].name := entry(batch[0])], batch[1..], entry);
      assert forall i :: 1 <= i < |batch| ==> batch[1..][i - 1] == batch[i];
      assert forall i :: 0 <= i < |batch| - 1 ==> batch[i + 1] == batch[1..][i];
      r
  }

  /** A cookie the batch does not name keeps its entry. */
  lemma {:induction false} SetEachUnnamed<V>(store: map<string, V>, batch: seq<CookieToSet>, entry: CookieToSet -> V, name: string)
    requires name in store
    requires forall i :: 0 <= i < |batch| ==> batch[i].name != name
    ensures SetEach(store, batch, entry)[name] == store[name]
    decreases |batch|
  {
    if batch != [] {
      SetEachUnnamed(store[batch[0].name := entry(batch[0])], batch[1..], entry, name);
    }
  }

  /** The last cookie of a name in the batch decides that name's entry. */
  lemma {:induction false} SetEachLastWins<V>(store: map<string, V>, batch: seq<CookieToSet>, entry: CookieToSet -> V, i: nat)
    requires i < |batch|
    requires forall j :: i < j < |batch| ==> batch[j].name != batch[i].name
    ensures SetEach(store, batch, entry)[batch[i].name] == entry(batch[i])
    decreases |batch|
  {
    var next := store[batch[0].name := entry(batch[0])];
    if i == 0 {
      SetEachUnnamed(next, batch[1..], entry, batch[0].name);
    } else {
      SetEachLastWins(next, batch[1..], entry, i - 1);
    }
  }

  function CookieValue(c: CookieToSet): string {
    c.value
  }

  function WholeCookie(c: CookieToSet): CookieToSet {
    c
  }

  /** The request's cookies after every batch handed to `setAll`, in order. */
  function RefreshedRequestCookies(cookies: map<string, string>, batches: seq<seq<CookieToSet>>): map<string, string>
    decreases |batches|
  {
    if batches == [] then cookies
    else RefreshedRequestCookies(SetEach(cookies, batches[0], CookieValue), batches[1..])
  }

  /** `request.cookies`: the only part of the incoming request this code changes. */
  class IncomingRequest {
    var cookies: map<string, string>

    constructor(cookies: map<string, string>)
      ensures this.cookies == cookies
    {
      this.cookies := cookies;
    }

    /** `request.cookies.set(name, value)` */
    method SetCookie(name: string, value: string)
      modifies this
      ensures cookies == old(cookies)[name := value]
    {
      cookies := cookies[name := value];
    }
  }

  /**
   * A `NextResponse`: a pass-through (`NextResponse.next`) forwarding the
   * request cookies it was built with, or a redirect; its headers and the
   * cookies it sets.
   */
  class Response {
    var redirect: Option<string>
    var forwardedCookies: map<string, string>
    var headers: map<string, string>
    var cookies: map<string, CookieToSet>

    /** `NextResponse.next({ request: { headers: request.headers } })` */
    constructor Next(request: IncomingRequest)
      ensures redirect == None && forwardedCookies == request.cookies
      ensures headers == map[] && cookies == map[]
    {
      redirect := None;
      forwardedCookies := request.cookies;
      headers := map[];
      cookies := map[];
    }

    /** `NextResponse.redirect(location)` */
    constructor Redirect(location: string)
      ensures redirect == Some(location) && forwardedCookies == map[]
      ensures headers == map[] && cookies == map[]
    {
      redirect := Some(location);
      forwardedCookies := map[];
      headers := map[];
      cookies := map[];
    }

    /** `response.headers.set(name, value)` */
    method SetHeader(name: string, value: string)
      modifies this
      ensures headers == old(headers)[name := value]
      ensures redirect == old(redirect) && forwardedCookies == old(forwardedCookies) && cookies == old(cookies)
    {
      headers := headers[name := value];
    }

    /** `response.cookies.set(name, value, options)` */
    method SetCookie(c: CookieToSet)
      modifies this
      ensures cookies == old(cookies)[c.name := c]
      ensures redirect == old(redirect) && forwardedCookies == old(forwardedCookies) && headers == old(headers)
    {
      cookies := cookies[c.name := c];
    }
  }

  /** `withDebugHeaders`: marks the response as seen by the guard and says whether there was a user. */
  method WithDebugHeaders(response: Response, hasUser: bool) returns (marked: Response)
    modifies response
    ensures marked == response
    ensures response.headers == old(response.headers)["x-mw-hit" := "1"]["x-user" := UserHeader(hasUser)]
    ensures response.redirect == old(response.redirect)
    ensures response.forwardedCookies == old(response.forwardedCookies)
    ensures response.cookies == old(response.cookies)
  {
    response.SetHeader("x-mw-hit", "1");
    response.SetHeader("x-user", if hasUser then "present" else "absent");
    marked := response;
  }

  /**
   * The `setAll` callback: sets each cookie on the request, then replaces the
   * response with a fresh pass-through that forwards the updated request and
   * sets each cookie on it.
   */
  method SetAll(request: IncomingRequest, batch: seq<CookieToSet>) returns (response: Response)
    modifies request
    ensures request.cookies == SetEach(old(request.cookies), batch, CookieValue)
    ensures fresh(response)
    ensures response.redirect == None && response.forwardedCookies == request.cookies
    ensures response.headers == map[]
    ensures response.cookies == SetEach(map[], batch, WholeCookie)
  {
    ghost var before := request.cookies;
    for i := 0 to |batch|
      invariant SetEach(request.cookies, batch[i..], CookieValue) == SetEach(before, batch, CookieValue)
    {
      assert batch[i..][1..] == batch[i + 1..];
      request.SetCookie(batch[i].name, batch[i].value);
    }
    assert batch[|batch|..] == [];
    ghost var after := request.cookies;
    response := new Response.Next(request);
    for i := 0 to |batch|
      invariant request.cookies == after
      invariant response.redirect == None && response.forwardedCookies == request.cookies
      invariant response.headers == map[]
      invariant SetEach(response.cookies, batch[i..], WholeCookie) == SetEach(map[], batch, WholeCookie)
    {
      assert batch[i..][1..] == batch[i + 1..];
      response.SetCookie(batch[i]);
    }
  }

  /**
   * `middleware`: `batches` are the cookie batches the Supabase client hands
   * to `setAll` while it reads the session, `hasUser` is whether it found a
   * user, and `origin` is the origin of the request URL.
   */
  method Guard(request: IncomingRequest, pathname: string, origin: string,
               batches: seq<seq<CookieToSet>>, hasUser: bool)
    returns (response: Response)
    modifies request
    ensures request.cookies == RefreshedRequestCookies(old(request.cookies), batches)
    ensures fresh(response)
    ensures response.headers == map["x-mw-hit" := "1"]["x-user" := UserHeader(hasUser)]
    ensures Decide(pathname, hasUser) == RedirectToLogin ==>
      response.redirect == Some(LoginUrl(origin)) && response.cookies == map[]
    ensures Decide(pathname, hasUser) == PassThrough ==>
      response.redirect == None && response.forwardedCookies == request.cookies &&
      response.cookies == if batches == [] then map[] else SetEach(map[], batches[|batches| - 1], WholeCookie)
  {
    ghost var before := request.cookies;
    response := new Response.Next(request);
    for k := 0 to |batches|
      invariant fresh(response)
      invariant RefreshedRequestCookies(request.cookies, batches[k..]) == RefreshedRequestCookies(before, batches)
      invariant response.redirect == None && response.forwardedCookies == request.cookies
      invariant response.headers == map[]
      invariant response.cookies == if k == 0 then map[] else SetEach(map[], batches[k - 1], WholeCookie)
    {
      assert batches[k..][1..] == batches[k + 1..];
      response := SetAll(request, batches[k]);
    }
    assert batches[|batches|..] == [];

    if IsAllowedPath(pathname) {
      response := WithDebugHeaders(response, hasUser);
      return;
    }
    if !hasUser {
      var redirect := new Response.Redirect(LoginUrl(origin));
      response := WithDebugHeaders(redirect, false);
      return;
    }
    response := WithDebugHeaders(response, true);
  }
}
