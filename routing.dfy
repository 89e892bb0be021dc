/**
 * The catch-all GET handler of a server instance, with the filesystem
 * abstracted to the set of paths that exist and file streaming to a flag that
 * says whether it fails; and the extension-stripping redirect helper.
 */
module Routing {
  import opened Utils
  import opened Wrappers

  /** The body of every 404 response. */
  const NotFoundBody: string := "<h1>404 Not Found</h1>"

  datatype Request = Request(verb: string, originalUrl: string)

  /** `File(p)` is a 200 response streaming the file at `p`. */
  datatype Response =
    | File(path: string)
    | Redirect(location: string)
    | Status(code: int, body: string)

  /** The candidate path `${root}/${url}` for a request URL. */
  function FilePath(root: Value, url: string): (p: string)
    requires StringOrFalsy(root)
    ensures IsString(root) ==> p == root.s + "/" + url
    ensures |p| > |url| && p[|p| - |url| - 1] == '/' && p[|p| - |url|..] == url
  {
    TemplateText(root) + "/" + url
  }

  /** Streams the file at `path`; a failed stream is answered with the 404 page. */
  function SendFile(path: string, streamFails: bool): (r: Response)
    ensures r.File? <==> !streamFails
    ensures r.File? ==> r.path == path
    ensures !r.File? ==> r == Status(404, NotFoundBody)
  {
    if streamFails then Status(404, NotFoundBody) else File(path)
  }

  /**
   * The response of the catch-all GET handler. A served file always exists,
   * and is the candidate path itself whenever that exists, the ".html" sibling
   * otherwise; only "/index" with an existing "index.html" sibling and no exact
   * file redirects, and always to "/"; every other outcome is the fixed 404.
   */
  function HandleGet(root: Value, url: string, existing: set<string>, streamFails: bool): (r: Response)
    requires StringOrFalsy(root)
    ensures var c := FilePath(root, url);
      && (r.File? ==> !streamFails && r.path in existing)
      && (r.File? && c in existing ==> r.path == c)
      && (r.File? && c !in existing ==> r.path == c + ".html")
      && (r.Redirect? <==> c !in existing && c + ".html" in existing && url == "/index")
      && (r.Redirect? ==> r.location == "/")
      && (r.Status? ==> r == Status(404, NotFoundBody))
      && (r.Status? <==> (c !in existing && c + ".html" !in existing) || (streamFails && !r.Redirect?))
  {
    var c := FilePath(root, url);
    if c in existing then SendFile(c, streamFails)
    else if c + ".html" in existing then
      if url == "/index" then Redirect("/") else SendFile(c + ".html", streamFails)
    else Status(404, NotFoundBody)
  }

  /**
   * Routing through the server: only GET requests reach the handler; for any
   * other method the model gives no response of its own.
   */
  function Route(root: Value, req: Request, existing: set<string>, streamFails: bool): (r: Option<Response>)
    requires StringOrFalsy(root)
    ensures r.Some? <==> req.verb == "GET"
    ensures r.Some? ==> r.value == HandleGet(root, req.originalUrl, existing, streamFails)
  {
    if req.verb == "GET" then Some(HandleGet(root, req.originalUrl, existing, streamFails)) else None
  }

  /** The exact file wins over its ".html" sibling, whether or not that exists. */
  lemma ExactFileWins(root: Value, url: string, existing: set<string>, streamFails: bool)
    requires StringOrFalsy(root) && FilePath(root, url) in existing
    ensures HandleGet(root, url, existing, streamFails) == SendFile(FilePath(root, url), streamFails)
  {
  }

  /** Worked requests against a root of "/public". */
  lemma Examples()
    ensures HandleGet(Str("/public"), "/a.txt", {"/public//a.txt"}, false) == File("/public//a.txt")
    ensures HandleGet(Str("/public"), "/about", {"/public//about.html"}, false) == File("/public//about.html")
    ensures HandleGet(Str("/public"), "/index", {"/public//index.html"}, false) == Redirect("/")
    ensures HandleGet(Str("/public"), "/missing", {"/public//a.txt"}, false) == Status(404, NotFoundBody)
    ensures HandleGet(Str("/public"), "/a.txt", {"/public//a.txt"}, true) == Status(404, NotFoundBody)
  {
    assert FilePath(Str("/public"), "/a.txt") == "/public//a.txt";
    assert FilePath(Str("/public"), "/about") + ".html" == "/public//about.html";
    assert FilePath(Str("/public"), "/about") != "/public//about.html";
    assert FilePath(Str("/public"), "/index") + ".html" == "/public//index.html";
    assert FilePath(Str("/public"), "/index") != "/public//index.html";
  }

  /**
   * The index of the last occurrence of `ch` in `s`, or -1 when there is
   * none, like `String.prototype.lastIndexOf`.
   */
  function LastIndexOf(s: string, ch: char): (r: int)
    ensures -1 <= r < |s|
    ensures r >= 0 ==> s[r] == ch
    ensures forall k :: r < k < |s| ==> s[k] != ch
    decreases |s|
  {
    if |s| == 0 then -1
    else if s[|s| - 1] == ch then |s| - 1
    else LastIndexOf(s[..|s| - 1], ch)
  }

  /**
   * `checkForExtensions`: a URL containing '.' is answered with a redirect to
   * the part before its last '.' ("/" when that part is "/index") and the
   * helper returns true (`Some`); a URL without '.' gets no response and the
   * helper returns false (`None`).
   */
  function CheckForExtensions(url: string): (r: Option<Response>)
    ensures r.Some? <==> '.' in url
    ensures r.Some? ==> exists d ::
        && 0 <= d < |url| && url[d] == '.' && (forall k :: d < k < |url| ==> url[k] != '.')
        && r.value == Redirect(if url[..d] == "/index" then "/" else url[..d])
  {
    var lastDotIndex := LastIndexOf(url, '.');
    if lastDotIndex != -1 then
      var removedExtensionUrl := url[..lastDotIndex];
      if removedExtensionUrl == "/index" then Some(Redirect("/")) else Some(Redirect(removedExtensionUrl))
    else None
  }

  /** "/index.html" redirects to "/". */
  lemma IndexExtensionRedirect(u: string)
    requires u == "/index.html"
    ensures CheckForExtensions(u) == Some(Redirect("/"))
  {
    assert u[6] == '.' && u[7] == 'h' && u[8] == 't' && u[9] == 'm' && u[10] == 'l';
    assert LastIndexOf(u, '.') == 6 && u[..6] == "/index";
  }

  /** Only the last extension is stripped: "/docs/a.b.html" redirects to "/docs/a.b". */
  lemma LastExtensionStripped(v: string)
    requires v == "/docs/a.b.html"
    ensures CheckForExtensions(v) == Some(Redirect("/docs/a.b"))
  {
    assert v[9] == '.' && v[10] == 'h' && v[11] == 't' && v[12] == 'm' && v[13] == 'l';
    assert LastIndexOf(v, '.') == 9 && v[..9] == "/docs/a.b";
  }
}
