/**
 * The configuration validator: a fixed, ordered list of checks, the first of
 * which that is violated rejects the configuration, and the rewriting of the
 * four path fields that follows when none is.
 */
module Validation {
  import opened Utils
  import opened Types
  import opened Wrappers
  import opened Slashes

  /** The checks, named after the condition each rejects. */
  datatype Check =
    | ProxyWithPort
    | ProxyWithHeaders
    | RootOrProxyMissing
    | ProxyNotString
    | RootNotString
    | PortNotNumber
    | LocationNotString
    | RedirectHtmlExtensionNotBool
    | NotFoundPathNotString
    | InternalErrorPathNotString
    | ForbiddenPathNotString
    | BothFileTypeLists

  /** The position of `k` in the order the validator runs the checks. */
  function Rank(k: Check): (n: nat)
    ensures n < 12
  {
    match k
    case ProxyWithPort => 0
    case ProxyWithHeaders => 1
    case RootOrProxyMissing => 2
    case ProxyNotString => 3
    case RootNotString => 4
    case PortNotNumber => 5
    case LocationNotString => 6
    case RedirectHtmlExtensionNotBool => 7
    case NotFoundPathNotString => 8
    case InternalErrorPathNotString => 9
    case ForbiddenPathNotString => 10
    case BothFileTypeLists => 11
  }

  /**
   * The condition under which check `k` rejects `c`. The kind checks are
   * guarded by truthiness, except the one on `port`, which applies to every
   * value other than `undefined`.
   */
  predicate Violated(c: ConfigServer, k: Check)
  {
    match k
    case ProxyWithPort => Truthy(c.proxy) && Truthy(c.port)
    case ProxyWithHeaders => Truthy(c.proxy) && c.headers != Undefined
    case RootOrProxyMissing => !Truthy(c.proxy) && !Truthy(c.root)
    case ProxyNotString => Truthy(c.proxy) && !IsString(c.proxy)
    case RootNotString => Truthy(c.root) && !IsString(c.root)
    case PortNotNumber => c.port != Undefined && !IsNumber(c.port)
    case LocationNotString => Truthy(c.location) && !IsString(c.location)
    case RedirectHtmlExtensionNotBool => Truthy(c.redirectHtmlExtension) && !IsBool(c.redirectHtmlExtension)
    case NotFoundPathNotString => Truthy(c.notFoundPath) && !IsString(c.notFoundPath)
    case InternalErrorPathNotString => Truthy(c.internalErrorPath) && !IsString(c.internalErrorPath)
    case ForbiddenPathNotString => Truthy(c.forbiddenPath) && !IsString(c.forbiddenPath)
    case BothFileTypeLists => Truthy(c.allowedFileTypes) && Truthy(c.forbiddenFileTypes)
  }

  /** A configuration that passes every check. */
  predicate Valid(c: ConfigServer)
  {
    forall k :: !Violated(c, k)
  }

  /** The check that rejects `c`, if any: the checks are tried in order. */
  function FirstViolation(c: ConfigServer): Option<Check>
  {
    if Violated(c, ProxyWithPort) then Some(ProxyWithPort)
    else if Violated(c, ProxyWithHeaders) then Some(ProxyWithHeaders)
    else if Violated(c, RootOrProxyMissing) then Some(RootOrProxyMissing)
    else if Violated(c, ProxyNotString) then Some(ProxyNotString)
    else if Violated(c, RootNotString) then Some(RootNotString)
    else if Violated(c, PortNotNumber) then Some(PortNotNumber)
    else if Violated(c, LocationNotString) then Some(LocationNotString)
    else if Violated(c, RedirectHtmlExtensionNotBool) then Some(RedirectHtmlExtensionNotBool)
    else if Violated(c, NotFoundPathNotString) then Some(NotFoundPathNotString)
    else if Violated(c, InternalErrorPathNotString) then Some(InternalErrorPathNotString)
    else if Violated(c, ForbiddenPathNotString) then Some(ForbiddenPathNotString)
    else if Violated(c, BothFileTypeLists) then Some(BothFileTypeLists)
    else None
  }

  /**
   * The reported check is violated and no check run before it is; nothing is
   * reported exactly when `c` is valid.
   */
  lemma FirstViolationSpec(c: ConfigServer)
    ensures var r := FirstViolation(c);
      && (r.Some? ==> Violated(c, r.value))
      && (r.Some? ==> forall k :: Rank(k) < Rank(r.value) ==> !Violated(c, k))
      && (r.None? <==> Valid(c))
  {
  }

  /** The reported check is determined by the violated checks: it is the earliest. */
  lemma FirstViolationIsEarliest(c: ConfigServer, k: Check)
    requires Violated(c, k)
    requires forall j :: Rank(j) < Rank(k) ==> !Violated(c, j)
    ensures FirstViolation(c) == Some(k)
  {
    FirstViolationSpec(c);
  }

  /** Any violated check makes validation fail, at that check or an earlier one. */
  lemma ViolationRejects(c: ConfigServer, k: Check)
    requires Violated(c, k)
    ensures FirstViolation(c).Some? && Rank(FirstViolation(c).value) <= Rank(k)
  {
    FirstViolationSpec(c);
  }

  /** A truthy `proxy` with a truthy `port` is rejected by the first check. */
  lemma ProxyWithPortRejected(c: ConfigServer)
    requires Truthy(c.proxy) && Truthy(c.port)
    ensures FirstViolation(c) == Some(ProxyWithPort)
  {
    FirstViolationIsEarliest(c, ProxyWithPort);
  }

  /** A truthy `proxy` with any defined `headers`, even `null`, is rejected. */
  lemma ProxyWithHeadersRejected(c: ConfigServer)
    requires Truthy(c.proxy) && c.headers != Undefined
    ensures FirstViolation(c) == Some(if Truthy(c.port) then ProxyWithPort else ProxyWithHeaders)
  {
    if Truthy(c.port) {
      FirstViolationIsEarliest(c, ProxyWithPort);
    } else {
      FirstViolationIsEarliest(c, ProxyWithHeaders);
    }
  }

  /** With neither a truthy `proxy` nor a truthy `root`, the "required" check is reported. */
  lemma RootOrProxyRequired(c: ConfigServer)
    requires !Truthy(c.proxy) && !Truthy(c.root)
    ensures FirstViolation(c) == Some(RootOrProxyMissing)
  {
    FirstViolationIsEarliest(c, RootOrProxyMissing);
  }

  /** Truthy `allowedFileTypes` and `forbiddenFileTypes` together are rejected. */
  lemma BothFileTypeListsRejected(c: ConfigServer)
    requires Truthy(c.allowedFileTypes) && Truthy(c.forbiddenFileTypes)
    ensures FirstViolation(c).Some?
  {
    ViolationRejects(c, BothFileTypeLists);
  }

  /**
   * A falsy field is never the one reported by its kind check, whatever its
   * kind (`0`, `false`, `null`, `""`).
   */
  lemma KindChecksGuardedByTruthiness(c: ConfigServer)
    ensures !Truthy(c.proxy) ==> FirstViolation(c) != Some(ProxyNotString)
    ensures !Truthy(c.root) ==> FirstViolation(c) != Some(RootNotString)
    ensures !Truthy(c.location) ==> FirstViolation(c) != Some(LocationNotString)
    ensures !Truthy(c.redirectHtmlExtension) ==> FirstViolation(c) != Some(RedirectHtmlExtensionNotBool)
    ensures !Truthy(c.notFoundPath) ==> FirstViolation(c) != Some(NotFoundPathNotString)
    ensures !Truthy(c.internalErrorPath) ==> FirstViolation(c) != Some(InternalErrorPathNotString)
    ensures !Truthy(c.forbiddenPath) ==> FirstViolation(c) != Some(ForbiddenPathNotString)
  {
    FirstViolationSpec(c);
  }

  /**
   * `port` is checked for every defined value, not only truthy ones: any
   * defined non-number port (`null` and `false` included) is rejected, by
   * the port check itself unless an earlier check already fails.
   */
  lemma PortCheckedWheneverDefined(c: ConfigServer)
    requires c.port != Undefined && !IsNumber(c.port)
    ensures FirstViolation(c).Some? && Rank(FirstViolation(c).value) <= Rank(PortNotNumber)
    ensures !Truthy(c.proxy) && Truthy(c.root) && IsString(c.root) ==> FirstViolation(c) == Some(PortNotNumber)
  {
    ViolationRejects(c, PortNotNumber);
  }

  /**
   * What a valid configuration guarantees: a truthy `proxy` or `root`; a truthy
   * `proxy` is a string and comes without a truthy port and without headers;
   * a truthy `root` is a string; the four path fields are strings or falsy.
   */
  lemma ValidShape(c: ConfigServer)
    requires Valid(c)
    ensures Truthy(c.proxy) || Truthy(c.root)
    ensures Truthy(c.proxy) ==> IsString(c.proxy) && !Truthy(c.port) && c.headers == Undefined
    ensures Truthy(c.root) ==> IsString(c.root)
    ensures c.port == Undefined || IsNumber(c.port)
    ensures StringOrFalsy(c.location) && StringOrFalsy(c.notFoundPath)
    ensures StringOrFalsy(c.internalErrorPath) && StringOrFalsy(c.forbiddenPath)
    ensures !(Truthy(c.allowedFileTypes) && Truthy(c.forbiddenFileTypes))
  {
    assert !Violated(c, RootOrProxyMissing) && !Violated(c, ProxyNotString);
    assert !Violated(c, ProxyWithPort) && !Violated(c, ProxyWithHeaders);
    assert !Violated(c, RootNotString) && !Violated(c, PortNotNumber);
    assert !Violated(c, LocationNotString) && !Violated(c, NotFoundPathNotString);
    assert !Violated(c, InternalErrorPathNotString) && !Violated(c, ForbiddenPathNotString);
    assert !Violated(c, BothFileTypeLists);
  }

  /** Nothing stops a configuration from carrying both a `root` and a `proxy`. */
  lemma RootAndProxyTogetherAccepted()
    ensures Valid(ConfigServer(Str("public"), Undefined, Str("http://localhost:8080"), Undefined,
      Undefined, Undefined, Undefined, Undefined, Undefined, Undefined, Undefined))
  {
  }

  /** `c` with its four path fields replaced by their slash-normalised forms. */
  function Normalized(c: ConfigServer): ConfigServer
    requires Valid(c)
  {
    ValidShape(c);
    c.(location := Str(OuterSlashesRemoved(c.location)),
       notFoundPath := Str(OuterSlashesRemoved(c.notFoundPath)),
       internalErrorPath := Str(OuterSlashesRemoved(c.internalErrorPath)),
       forbiddenPath := Str(OuterSlashesRemoved(c.forbiddenPath)))
  }

  /** A path field in normal form: "/", "", or a string with no '/' at either end. */
  predicate NormalPath(v: Value)
  {
    v.Str? && (v.s == "/" || v.s == "" || (v.s[0] != '/' && v.s[|v.s| - 1] != '/'))
  }

  /**
   * A configuration as the validator leaves it: valid (so its `root` is a
   * string or falsy), with its path fields in normal form.
   */
  predicate Checked(c: ConfigServer)
  {
    && Valid(c) && StringOrFalsy(c.root)
    && NormalPath(c.location) && NormalPath(c.notFoundPath)
    && NormalPath(c.internalErrorPath) && NormalPath(c.forbiddenPath)
  }

  /**
   * Rewriting the path fields of a valid configuration yields a checked
   * one: it still passes every check, its path fields are in normal form, and
   * every other field is unchanged.
   */
  lemma NormalizedIsChecked(c: ConfigServer)
    requires Valid(c)
    ensures Checked(Normalized(c))
    ensures var n := Normalized(c);
      && n.root == c.root && n.port == c.port && n.proxy == c.proxy && n.headers == c.headers
      && n.redirectHtmlExtension == c.redirectHtmlExtension
      && n.allowedFileTypes == c.allowedFileTypes && n.forbiddenFileTypes == c.forbiddenFileTypes
  {
    ValidShape(c);
    var n := Normalized(c);
    forall k ensures !Violated(n, k) {
      assert !Violated(c, k);
    }
  }
}
