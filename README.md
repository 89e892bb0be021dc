# cotton: a verified model of the server core

cotton is a small static file server with an optional reverse-proxy mode. A
JSON file lists the server instances, and each entry is turned into a `Server`
(`src/server/index.ts`). On construction, a `Server` validates its
configuration. The first violated check is fatal. After the checks, it
rewrites four path fields to a slash-normalised form, mounts a reverse proxy
when `proxy` is truthy, and installs a catch-all GET route. That route serves
the file `${root}/${url}`, falls back to the same path with `.html` appended,
redirects `/index` to `/`, and otherwise answers with a fixed 404 page.

This project models that core in Dafny and proves what it does:

- `utils.dfy` (module `Utils`): configuration values as JavaScript sees them
  after `JSON.parse`, with JavaScript truthiness and the three kind tests the
  validator uses.
- `types.dfy` (module `Types`): the configuration record, one raw value per key
  the validator reads.
- `slashes.dfy` (module `Slashes`): what `removeOuterSlashes` returns, how that
  result can be described without the loops (it is the unique middle between a
  leading and a trailing run of `/`), and when normalising twice is harmless.
- `validation.dfy` (module `Validation`): the twelve checks, in the order they
  run, and the first violated check as a function. It also proves what a
  configuration that passes guarantees, and that rewriting its path fields
  keeps it valid.
- `routing.dfy` (module `Routing`): the GET handler as a total decision over an
  existence set and a stream-failure flag, plus the unused
  `checkForExtensions` helper.
- `server.dfy` (module `Server`): the `Server` class. `CheckConfig` runs the
  checks as a sequence of guarded returns (`RunChecks`) and then updates the
  `config` field in place. `RemoveOuterSlashes` keeps the two `while` loops of the source.
  `Create` gives the construct-then-validate flow, and `MountOf` the proxy
  decision.
- `wrappers.dfy` (module `Wrappers`): `Option`, `Outcome` and `Result`.

The fatal `error` (print, then `exit(1)`) is modelled as a returned
`Fail(ConfigError(check, serverNumber))`. The error names the check that was
violated. It does not carry the message text. This matters at line 33: its
message speaks of a `root`, but the condition tests `proxy` and `port`. The model
follows the condition.

Some behaviour of the code is easy to miss. The model follows the code in each
case:

- Normalisation is not idempotent. `"//"` becomes `""`, which becomes `"/"` on a
  second pass. It is idempotent whenever the first result is non-empty
  (`Slashes.NotIdempotentOnAllSlashes`, `Slashes.IdempotentOnNonEmpty`).
- No check rejects a configuration that has both a truthy `root` and a truthy
  `proxy` (`Validation.RootAndProxyTogetherAccepted`).
- The candidate file path is `root + "/" + url`, and `url` normally starts with
  `/`, so the path contains `//`.
- The handler is registered with `get` only. It is also installed when a proxy
  is mounted. In that case `root` may be falsy, and the template literal then
  renders `undefined`, `null`, `false` or `0`.

## Model

| member | source | states |
|---|---|---|
| `Utils.Truthy` | src/server/index.ts:32-77 | defines JavaScript truthiness, which every `&&` and `!` guard of the validator tests: `undefined`, `null`, `false`, `0` and `""` are falsy, anything else truthy |
| `Utils.IsString` | src/server/index.ts:43 | defines `isString` (imported at line 5 from `src/utils`) as a `typeof` test for strings |
| `Utils.IsNumber` | src/server/index.ts:51 | defines `isNumber` (imported at line 5) as a `typeof` test for numbers |
| `Utils.IsBool` | src/server/index.ts:59 | defines `isBool` (imported at line 5) as a `typeof` test for booleans |
| `Utils.TemplateText` | src/server/index.ts:102 | a string value is rendered as itself inside the template literal that builds the file path |
| `Slashes.StripLeading` | src/server/index.ts:88-90 | defines the first loop: drop a leading `/` while there is one |
| `Slashes.StripTrailing` | src/server/index.ts:92-94 | defines the second loop: drop a trailing `/` while there is one |
| `Slashes.StripLeadingSpec` | src/server/index.ts:88-90 | the first loop leaves a suffix of the input; everything before it is `/`; the suffix does not start with `/` |
| `Slashes.StripTrailingSpec` | src/server/index.ts:92-94 | the second loop leaves a prefix of the input; everything after it is `/`; the prefix does not end with `/` |
| `Slashes.StripOuter` | src/server/index.ts:88-94 | after both loops the string is empty or neither starts nor ends with `/` |
| `Slashes.OuterSlashesRemoved` | src/server/index.ts:86-97 | the normalised value is exactly `"/"`, or empty, or free of `/` at both ends |
| `Slashes.OuterSlashesRemovedIsInfix` | src/server/index.ts:88-96 | for an input other than `""` and `"/"`, the result is a contiguous piece of the input with only `/` before and after it; interior slashes are kept |
| `Slashes.OuterSlashesRemovedUnique` | src/server/index.ts:88-96 | any split of the input into slashes, a middle that neither starts nor ends with `/`, and slashes has the result as its middle, so the maximal runs are removed |
| `Slashes.StripOuterIsInfix` | src/server/index.ts:88-94 | the two loops leave a contiguous piece of the string with only `/` before and after it |
| `Slashes.StripOuterUnique` | src/server/index.ts:88-94 | the same uniqueness for the two loops alone, on every string |
| `Slashes.IdempotentOnNonEmpty` | src/server/index.ts:86-96 | normalising a non-empty result again returns it unchanged |
| `Slashes.AllSlashesBecomeEmpty` | src/server/index.ts:87-96 | a string of two or more `/` normalises to `""` |
| `Slashes.NotIdempotentOnAllSlashes` | src/server/index.ts:87-96 | `"//"` gives `""` and `""` gives `"/"`, so a second pass changes the result |
| `Slashes.Examples` | src/server/index.ts:86-87 | an absent value and `"/"` both give `"/"` |
| `Slashes.InteriorSlashesKept` | src/server/index.ts:88-96 | `"//foo/bar//"` gives `"foo/bar"` |
| `Validation.Violated` | src/server/index.ts:32-77 | defines the twelve rejection conditions, one per `if`, exactly as written: truthiness guards everywhere except `headers !== undefined` and `port !== undefined` |
| `Validation.FirstViolation` | src/server/index.ts:31-77 | defines the order the checks run in: the first violated one, in source order, is reported |
| `Validation.FirstViolationSpec` | src/server/index.ts:31-77 | the reported check is violated and no earlier check is; there is no report exactly when every check passes |
| `Validation.FirstViolationIsEarliest` | src/server/index.ts:31-77 | a violated check with no violated check before it is the one reported |
| `Validation.ViolationRejects` | src/server/index.ts:31-77 | any violated check makes validation fail, at that check or an earlier one |
| `Validation.ProxyWithPortRejected` | src/server/index.ts:32-34 | a truthy `proxy` with a truthy `port` is reported by the first check |
| `Validation.ProxyWithHeadersRejected` | src/server/index.ts:35-37 | a truthy `proxy` with any defined `headers`, `null` included, is rejected, by the port check when the port is truthy and by the headers check otherwise |
| `Validation.RootOrProxyRequired` | src/server/index.ts:39-41 | with neither `proxy` nor `root` truthy, the "required" check is reported |
| `Validation.BothFileTypeListsRejected` | src/server/index.ts:75-77 | truthy `allowedFileTypes` and `forbiddenFileTypes` together are rejected |
| `Validation.KindChecksGuardedByTruthiness` | src/server/index.ts:43-73 | a falsy `proxy`, `root`, `location`, `redirectHtmlExtension` or path field is never the field the validator reports, whatever its kind |
| `Validation.PortCheckedWheneverDefined` | src/server/index.ts:51-53 | any defined non-number `port`, `null` and `false` included, makes validation fail at the port check or earlier, and exactly at the port check for a root-only configuration |
| `Validation.ValidShape` | src/server/index.ts:31-77 | a valid configuration has a truthy `proxy` or `root`; a truthy `proxy` is a string with no truthy port and no headers; a truthy `root` is a string; `port` is absent or a number; the path fields are strings or falsy; not both file-type lists |
| `Validation.RootAndProxyTogetherAccepted` | src/server/index.ts:32-41 | a configuration with both a `root` and a `proxy` string passes every check |
| `Validation.Normalized` | src/server/index.ts:79-82 | defines the rewrite: the four path fields replaced by their slash-normalised strings |
| `Validation.NormalizedIsChecked` | src/server/index.ts:79-82 | rewriting the four path fields of a valid configuration keeps it valid, leaves every path field in normal form and changes no other field |
| `Routing.FilePath` | src/server/index.ts:102 | the candidate path is `root`, then `/`, then the request URL: the URL is a suffix preceded by `/`, and a string root is the prefix |
| `Routing.SendFile` | src/server/index.ts:122-127 | a file is streamed exactly when streaming does not fail, at the given path; a failed stream is answered with the fixed 404 page |
| `Routing.HandleGet` | src/server/index.ts:101-127 | a served file exists and did not fail to stream; it is the exact path whenever that exists, else the `.html` sibling; a redirect happens exactly for `/index` with only the sibling present, and goes to `/`; every other answer is 404 with the fixed body, exactly when neither file exists or streaming failed |
| `Routing.Route` | src/server/index.ts:101 | only GET requests reach the handler |
| `Routing.ExactFileWins` | src/server/index.ts:104-110 | when the exact path exists it is sent, whether or not the `.html` sibling exists |
| `Routing.Examples` | src/server/index.ts:101-127 | worked requests under root `/public`: exact file, `.html` fallback, `/index` redirect, 404, and 404 after a failed stream |
| `Routing.LastIndexOf` | src/server/index.ts:131 | -1 exactly when the character does not occur; otherwise an index holding it with no occurrence after it |
| `Routing.CheckForExtensions` | src/server/index.ts:130-145 | a response is produced exactly when the URL contains `.`; it redirects to the part before the last `.`, or to `/` when that part is `/index` |
| `Routing.IndexExtensionRedirect` | src/server/index.ts:130-145 | `/index.html` redirects to `/` |
| `Routing.LastExtensionStripped` | src/server/index.ts:130-145 | only the last extension is dropped: `/docs/a.b.html` redirects to `/docs/a.b` |
| `Server.Verdict` | src/server/index.ts:31-77 | defines the verdict: `Pass` when no check is violated, else the fatal error naming the first violated check and this server |
| `Server.VerdictSpec` | src/server/index.ts:31-77 | validation passes exactly for a valid configuration; a failure names this server and the earliest violated check |
| `Server.Server.constructor` | src/server/index.ts:15-19 | the new server holds the given configuration and number |
| `Server.Server.Create` | src/server/index.ts:15-28 | construction fails exactly for an invalid configuration, with the earliest violated check; otherwise it yields a fresh server whose configuration is the normalised input |
| `Server.Server.CheckConfig` | src/server/index.ts:31-83 | the outcome is the verdict on the old configuration; on failure the configuration is unchanged; on success it is the old one with its four path fields normalised, and it is checked |
| `Server.Server.RunChecks` | src/server/index.ts:32-77 | the guard sequence returns the fatal error of the earliest violated check, and `Pass` only for a valid configuration |
| `Server.Server.RemoveOuterSlashes` | src/server/index.ts:86-97 | the two stripping loops compute the normalised value |
| `Server.Server.MountOf` | src/server/index.ts:22-24 | a proxy is mounted exactly when `proxy` is truthy, at the normalised `location`, and then there is no truthy port and no headers; otherwise `root` is a non-empty string |
| `Server.Server.Respond` | src/server/index.ts:101-119 | the catch-all route answers GET requests only, with exactly the GET handler's response over the instance's own `root`; without a proxy, that answer is the 404 page, the redirect to `/`, or an existing file at the candidate path or its `.html` sibling |

## Left out

- The Express application, the registration calls `use` and `get`, and `start()`. They are HTTP framework wiring, and `start` is not defined in `src/server/index.ts`. Non-GET requests get `None`. Express's default answer to them is not modelled, and neither is Express passing HEAD requests to GET routes.
- Proxy forwarding through `express-http-proxy` is library code. `MountOf` records only that a truthy `proxy` mounts it, and where. How Express matches a request against the mount path is not modelled.
- Respond: describes the catch-all route only. On a proxy instance the proxy mounted at line 23 takes every request under `location` first, whatever its method; with the default location `/` that is every request, and the model does not describe which requests reach the catch-all.
- SendFile, HandleGet: assume an absolute `root`. Express's `res.sendFile` throws synchronously when given a relative path and no `root` option, and the request is then answered with a 500 by the default error handler, without the callback running; that failure is not modelled, so with a relative root the model's `File` and stream-failure 404 answers are not what is sent.
- Filesystem access (`existsSync`, `res.sendFile`) is replaced by a set of existing paths and a stream-failure flag. The set is keyed by the literal path string. Path resolution (`//`, `..`) and directories are not modelled.
- The console output, its ANSI colours, and `exit(1)` are I/O. The error becomes the returned `ConfigError`, without its message text.
- `src/index.ts` reads the JSON file and calls `new Server(server)` per entry. That is I/O and is not part of this model. It passes no server number, so the number in the message is `undefined`; the model takes the number as an `int` parameter.
- `src/types/index.ts` is only an interface, and it declares fewer fields than the validator reads. It is used only for field names.
- `src/utils` is not part of this model. `IsString`, `IsNumber` and `IsBool` are taken to be `typeof` tests.
- The unused `currentRequestPath` field. `redirectHtmlExtension` is modelled only through its kind check, because the code that would use it is commented out. `checkForExtensions` is modelled, but nothing calls it.
- In the source, `this.config` is the caller's object, so the in-place rewrite is seen by the caller too. The model keeps the configuration as a value in the `config` field, so it does not capture this aliasing.
- Numbers are modelled as reals. Only the rendering of a falsy root (`0`) inside the template literal is modelled; general number-to-string conversion is not.
- JavaScript strings are UTF-16 code units, and Dafny strings are sequences of characters. The model only ever inspects `/` and `.`, so the two agree on everything it states.
