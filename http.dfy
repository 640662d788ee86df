/** The web endpoint's request routing: the OAuth redirect carrying a code,
    the status page, and "not found" for everything else. */
module Http {
  import opened Buttons
  import opened Gpio
  import opened Spotify
  import opened Events

  /** The status line a request gets, with the code a redirect carries. */
  datatype Response = Found(code: string) | Ok | NotFound

  function Status(r: Response): int {
    match r
    case Found(_) => 302
    case Ok => 200
    case NotFound => 404
  }

  /** The text after the last '/' of `uri`, or all of `uri` when it has no '/'. */
  function LastSegment(uri: string): (seg: string)
    ensures |seg| <= |uri| && seg == uri[|uri| - |seg|..]
    ensures '/' !in seg
    ensures |seg| < |uri| ==> uri[|uri| - |seg| - 1] == '/'
  {
    if uri == [] then []
    else if uri[|uri| - 1] == '/' then []
    else LastSegment(uri[..|uri| - 1]) + [uri[|uri| - 1]]
  }

  /** The path prefix of the OAuth redirect, built from the configured redirect URI. */
  function RedirectPath(redirectUri: string): (p: string)
    ensures |p| >= 7 && p[0] == '/' && p[|p| - 6..] == "?code="
    ensures p[1..|p| - 6] == LastSegment(redirectUri)
  {
    var seg := LastSegment(redirectUri);
    var p := "/" + seg + "?code=";
    assert p[1..|p| - 6] == seg;
    assert p[|p| - 6..] == "?code=";
    p
  }

  /** Routes a GET request: the redirect prefix first, then the root page. */
  function HandleGet(path: string, redirectPath: string): (r: Response)
    ensures r.Found? <==> redirectPath <= path
    ensures r.Found? ==> redirectPath + r.code == path
    ensures r.Ok? <==> !(redirectPath <= path) && (path == "" || path == "/")
    ensures r.NotFound? <==> !(redirectPath <= path) && path != "" && path != "/"
    ensures Status(r) == 302 <==> redirectPath <= path
  {
    if redirectPath <= path then Found(path[|redirectPath|..])
    else if path == "" || path == "/" then Ok
    else NotFound
  }

  /** HEAD and POST requests are never served. */
  function HandleHeadOrPost(): (r: Response)
    ensures r.NotFound? && Status(r) == 404
  {
    NotFound
  }

  /** A GET, routed against the redirect path computed once at start-up
      (`RedirectPath` of the configured redirect URI): the root page and the
      redirect both refresh the display from the player; a missing page
      touches nothing. */
  method DoGet(gpio: GpioConnection, remote: Remote, path: string, redirectPath: string)
    returns (r: Response, remote': Remote, calls: seq<Call>)
    requires gpio.Valid()
    modifies gpio
    ensures gpio.Valid()
    ensures r == HandleGet(path, redirectPath)
    ensures gpio.lastTick == old(gpio.lastTick) && gpio.lastTime == old(gpio.lastTime)
    ensures r.NotFound? ==>
      remote' == remote && calls == [] &&
      gpio.lastState == old(gpio.lastState) && gpio.shown == old(gpio.shown)
    ensures !r.NotFound? ==>
      var o := PressNothing(remote);
      remote' == o.remote && calls == o.calls &&
      gpio.lastState == o.state && gpio.shown == old(gpio.shown) + [o.state]
  {
    r := HandleGet(path, redirectPath);
    if r.NotFound? {
      return r, remote, [];
    }
    remote', calls := Refresh(gpio, remote);
  }

  /** With the redirect URI "http://pi.local:8080/callback", the OAuth code is
      what follows "/callback?code=". */
  lemma RedirectExample()
    ensures RedirectPath("http://pi.local:8080/callback") == "/callback?code="
    ensures HandleGet("/callback?code=abc", "/callback?code=") == Found("abc")
    ensures HandleGet("/", "/callback?code=") == Ok
    ensures HandleGet("/blue", "/callback?code=") == NotFound
  {
  }
}
