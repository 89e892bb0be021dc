/**
 * A server instance: it owns its configuration, validates it once at
 * construction (a failed check is fatal), rewrites the path fields in place,
 * and then mounts either the reverse proxy or nothing before the catch-all
 * GET route of the `Routing` module.
 */
module Server {
  import opened Utils
  import opened Types
  import opened Wrappers
  import opened Slashes
  import opened Validation
  import opened Routing

  /** The fatal configuration error: the violated check and the number of the server. */
  datatype ConfigError = ConfigError(violated: Check, serverNumber: int)

  /** The reverse proxy mounted ahead of the catch-all route, if any. */
  datatype Mount = ProxyMount(mountPath: string, upstream: string) | NoProxy

  /** The verdict of validating `c` for server `serverNumber`. */
  function Verdict(c: ConfigServer, serverNumber: int): Outcome<ConfigError>
  {
    match FirstViolation(c)
    case None => Pass
    case Some(k) => Fail(ConfigError(k, serverNumber))
  }

  /**
   * Validation passes exactly when `c` is valid, and otherwise reports this
   * server and the earliest violated check.
   */
  lemma VerdictSpec(c: ConfigServer, serverNumber: int)
    ensures var o := Verdict(c, serverNumber);
      && (o.Pass? <==> Valid(c))
      && (o.Fail? ==> o.error.serverNumber == serverNumber && Violated(c, o.error.violated))
      && (o.Fail? ==> forall k :: Rank(k) < Rank(o.error.violated) ==> !Violated(c, k))
  {
    FirstViolationSpec(c);
  }

  class Server {
    var config: ConfigServer
    const serverNumber: int

    /** Stores the configuration and the server number; the rest of the constructor is `Create`. */
    constructor (config: ConfigServer, serverNumber: int)
      ensures this.config == config && this.serverNumber == serverNumber
    {
      this.config := config;
      this.serverNumber := serverNumber;
    }

    /**
     * Builds a server: stores the configuration, validates it and, when that
     * fails, stops with the error instead of returning a server.
     */
    static method Create(config: ConfigServer, serverNumber: int) returns (r: Result<Server, ConfigError>)
      ensures r.Failure? <==> !Valid(config)
      ensures r.Failure? ==> Verdict(config, serverNumber) == Fail(r.error)
      ensures r.Success? ==> fresh(r.value) && r.value.serverNumber == serverNumber
      ensures r.Success? ==> r.value.config == Normalized(config) && Checked(r.value.config)
    {
      VerdictSpec(config, serverNumber);
      var s := new Server(config, serverNumber);
      var outcome := s.CheckConfig();
      if outcome.Fail? {
        return Failure(outcome.error);
      }
      return Success(s);
    }

    /**
     * `checkConfig`: runs the checks and stops at the first violated one,
     * leaving the configuration untouched; when all pass, replaces the four
     * path fields by their slash-normalised forms and changes nothing else.
     */
    method CheckConfig() returns (outcome: Outcome<ConfigError>)
      modifies this
      ensures outcome == Verdict(old(config), serverNumber)
      ensures outcome.Fail? ==> config == old(config)
      ensures outcome.Pass? ==> Valid(old(config)) && config == Normalized(old(config))
      ensures outcome.Pass? ==> Checked(config)
    {
      VerdictSpec(config, serverNumber);
      outcome := RunChecks(config, serverNumber);
      if outcome.Fail? {
        return;
      }
      var c := config;
      ValidShape(c);
      var location := RemoveOuterSlashes(c.location);
      var notFoundPath := RemoveOuterSlashes(c.notFoundPath);
      var internalErrorPath := RemoveOuterSlashes(c.internalErrorPath);
      var forbiddenPath := RemoveOuterSlashes(c.forbiddenPath);
      config := c.(location := Str(location), notFoundPath := Str(notFoundPath),
        internalErrorPath := Str(internalErrorPath), forbiddenPath := Str(forbiddenPath));
      NormalizedIsChecked(c);
    }

    /**
     * The guard sequence of `checkConfig`, in source order: the first
     * violated check returns its fatal error; passing them all returns `Pass`.
     */
    static method RunChecks(c: ConfigServer, serverNumber: int) returns (outcome: Outcome<ConfigError>)
      ensures outcome == Verdict(c, serverNumber)
    {
      if Truthy(c.proxy) && Truthy(c.port) {
        return Fail(ConfigError(ProxyWithPort, serverNumber));
      }
      if Truthy(c.proxy) && c.headers != Undefined {
        return Fail(ConfigError(ProxyWithHeaders, serverNumber));
      }
      if !Truthy(c.proxy) && !Truthy(c.root) {
        return Fail(ConfigError(RootOrProxyMissing, serverNumber));
      }
      if Truthy(c.proxy) && !IsString(c.proxy) {
        return Fail(ConfigError(ProxyNotString, serverNumber));
      }
      if Truthy(c.root) && !IsString(c.root) {
        return Fail(ConfigError(RootNotString, serverNumber));
      }
      if c.port != Undefined && !IsNumber(c.port) {
        return Fail(ConfigError(PortNotNumber, serverNumber));
      }
      if Truthy(c.location) && !IsString(c.location) {
        return Fail(ConfigError(LocationNotString, serverNumber));
      }
      if Truthy(c.redirectHtmlExtension) && !IsBool(c.redirectHtmlExtension) {
        return Fail(ConfigError(RedirectHtmlExtensionNotBool, serverNumber));
      }
      if Truthy(c.notFoundPath) && !IsString(c.notFoundPath) {
        return Fail(ConfigError(NotFoundPathNotString, serverNumber));
      }
      if Truthy(c.internalErrorPath) && !IsString(c.internalErrorPath) {
        return Fail(ConfigError(InternalErrorPathNotString, serverNumber));
      }
      if Truthy(c.forbiddenPath) && !IsString(c.forbiddenPath) {
        return Fail(ConfigError(ForbiddenPathNotString, serverNumber));
      }
      if Truthy(c.allowedFileTypes) && Truthy(c.forbiddenFileTypes) {
        return Fail(ConfigError(BothFileTypeLists, serverNumber));
      }
      outcome := Pass;
    }

    /**
     * Normalises a path value: "/" for an absent, falsy or exactly "/" value,
     * otherwise the string with its leading and then its trailing '/' stripped
     * one at a time.
     */
    static method RemoveOuterSlashes(url: Value) returns (r: string)
      requires StringOrFalsy(url)
      ensures r == OuterSlashesRemoved(url)
    {
      if url == Str("/") || !Truthy(url) {
        return "/";
      }
      var u := url.s;
      while |u| > 0 && u[0] == '/'
        invariant StripLeading(u) == StripLeading(url.s)
        decreases |u|
      {
        u := u[1..];
      }
      while |u| > 0 && u[|u| - 1] == '/'
        invariant StripTrailing(u) == StripOuter(url.s)
        decreases |u|
      {
        u := u[..|u| - 1];
      }
      r := u;
    }

    /**
     * The mount decision of the constructor: a truthy `proxy` mounts the
     * reverse proxy at the normalised `location`; otherwise the instance
     * serves files from a truthy string `root`. The catch-all GET route is
     * installed in both cases.
     */
    function MountOf(): (m: Mount)
      reads this
      requires Checked(config)
      ensures m.ProxyMount? <==> Truthy(config.proxy)
      ensures m.ProxyMount? ==> config.proxy == Str(m.upstream) && config.location == Str(m.mountPath)
      ensures m.ProxyMount? ==> !Truthy(config.port) && config.headers == Undefined
      ensures m.NoProxy? ==> IsString(config.root) && config.root.s != ""
    {
      ValidShape(config);
      if Truthy(config.proxy) then ProxyMount(config.location.s, config.proxy.s) else NoProxy
    }

    /**
     * The answer of the instance's catch-all route to `req`: the GET handler
     * over the instance's own `root`.
     */
    function Respond(req: Request, existing: set<string>, streamFails: bool): (r: Option<Response>)
      reads this
      requires Checked(config)
      ensures r.Some? <==> req.verb == "GET"
      ensures r.Some? ==> r.value == HandleGet(config.root, req.originalUrl, existing, streamFails)
      ensures r.Some? && MountOf().NoProxy? ==> var c := config.root.s + "/" + req.originalUrl;
        || r.value == Status(404, NotFoundBody)
        || r.value == Redirect("/")
        || (r.value.File? && r.value.path in existing && (r.value.path == c || r.value.path == c + ".html"))
    {
      ValidShape(config);
      Route(config.root, req, existing, streamFails)
    }
  }
}
