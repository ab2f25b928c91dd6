/** The request middleware (src/middleware.ts): API and static-file requests
    and requests for one of the application's pages pass on; any other path
    is redirected to "/". */
module Middleware {
  import opened Text

  /** The page prefixes the middleware lets through. */
  const AvailablePaths: seq<string> := ["/", "/modes", "/getdata", "/patients", "/pressure", "/profile"]

  predicate IsApi(path: string) {
    StartsWith(path, "/api") || StartsWith(path, "/trpc")
  }

  /** Next.js assets, and any path with a '.' in it (the pattern `\.(.*)$`
      matches as soon as one '.' occurs). */
  predicate IsStatic(path: string) {
    StartsWith(path, "/_next") || '.' in path
  }

  /** `availablePaths.some(v => pathname.startsWith(v))` as written. */
  predicate IsAvailable(path: string) {
    exists i :: 0 <= i < |AvailablePaths| && StartsWith(path, AvailablePaths[i])
  }

  datatype Decision = RedirectHome | Next

  /** The middleware's decision as written: API and static requests always
      pass on, and so does every path that begins with '/'. */
  function Decide(path: string): (d: Decision)
    ensures IsApi(path) || IsStatic(path) ==> d == Next
    ensures StartsWith(path, "/") ==> d == Next
  {
    assert StartsWith(path, "/") ==> StartsWith(path, AvailablePaths[0]);
    if !IsApi(path) && !IsStatic(path) && !IsAvailable(path) then RedirectHome else Next
  }

  /** Because "/" is one of the prefixes, every path the server receives
      (they all begin with '/') is "available", so the redirect never happens. */
  lemma NeverRedirects(path: string)
    requires StartsWith(path, "/")
    ensures Decide(path) == Next
  {
    assert StartsWith(path, AvailablePaths[0]);
  }

  /** An unknown page such as "/unknown" passes on as written. */
  lemma UnknownPagePasses()
    ensures Decide("/unknown") == Next
  {
    NeverRedirects("/unknown");
  }

  /** The check as evidently intended: the home page matches "/" exactly,
      the other pages by prefix. */
  predicate IsAvailableIntended(path: string) {
    path == "/" || exists i :: 1 <= i < |AvailablePaths| && StartsWith(path, AvailablePaths[i])
  }

  /** The decision with the intended check: API and static requests and the
      home page pass on; a path sent home matches none of the other page
      prefixes. */
  function DecideIntended(path: string): (d: Decision)
    ensures IsApi(path) || IsStatic(path) || path == "/" ==> d == Next
    ensures d == RedirectHome ==> forall i :: 1 <= i < |AvailablePaths| ==> !StartsWith(path, AvailablePaths[i])
    ensures (!IsApi(path) && !IsStatic(path) && path != "/"
             && forall i :: 1 <= i < |AvailablePaths| ==> !StartsWith(path, AvailablePaths[i]))
            ==> d == RedirectHome
  {
    if !IsApi(path) && !IsStatic(path) && !IsAvailableIntended(path) then RedirectHome else Next
  }

  /** With the intended check every listed page and its sub-pages pass, and
      an unknown page is sent home. */
  lemma IntendedDecisions(path: string, i: nat)
    requires i < |AvailablePaths| && (if i == 0 then path == "/" else StartsWith(path, AvailablePaths[i]))
    ensures DecideIntended(path) == Next
    ensures DecideIntended("/unknown") == RedirectHome
  {
    var u := "/unknown";
    assert !StartsWith(u, "/api") by { assert u[1] != "/api"[1]; }
    assert !StartsWith(u, "/trpc") by { assert u[1] != "/trpc"[1]; }
    assert !StartsWith(u, "/_next") by { assert u[1] != "/_next"[1]; }
    assert '.' !in u;
    forall j | 1 <= j < |AvailablePaths|
      ensures !StartsWith(u, AvailablePaths[j])
    {
      assert u[1] != AvailablePaths[j][1];
    }
  }

  /** The intended check only narrows the written one: whatever it lets
      through, the written one does too. */
  lemma IntendedNarrows(path: string)
    ensures DecideIntended(path) == Next ==> Decide(path) == Next
  {
    if path == "/" {
      assert StartsWith(path, AvailablePaths[0]);
    }
  }
}
