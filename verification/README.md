# GitHub webhook auto-deployer — a Dafny model of its decision logic

The repository is a self-hosted deployer: a small Node.js HTTP server
receives GitHub webhooks, checks their `X-Hub-Signature-256`, decides which
configured projects a `push` concerns and spawns their deploy scripts. A
second variant of the server keys deployments by branch, and a companion
script publishes branches through a Cloudflare tunnel by rewriting the
tunnel's ingress table.

This project models the pure decisions of those three programs as total
functions over immutable values. Side effects become data: each request
handler returns the status code, the response text and the list of deploy
processes it would start (`Invocation`: command, arguments, working
directory, shell flag), and the tunnel updater returns the document it
would write and the shell commands it would run.

Modules (one file each):

- `JsValues` — `Option` for fields that may be `undefined`, plus JavaScript
  truthiness, `x || default` and `${x}` interpolation.
- `Strings` — prefix removal, `String.prototype.trim` with the ECMAScript
  whitespace set, and decimal rendering of numbers with its inverse.
- `Encoding` — UTF-8 encoding (what `Buffer.from(string)` produces) and
  lower-case hex (what `digest("hex")` produces).
- `OrderedMaps` — a JavaScript object's own properties: distinct string
  keys in enumeration order, with own-key lookup and `obj[k] = v`. The one
  lookup that can also reach inherited properties, `project.branches[name]`,
  adds the members of `Object.prototype` in `BranchDeployer`.
- `Config` — the records of `config/projects.json` that the programs read,
  and the `webhook` section defaults (port 4000, path `/github`, no secret).
- `Http` — the request (body read in full), the parsed push payload and the
  response.
- `Signature` — `verifySignature` of `webhook.js`.
- `PushDeployer` — the request handler of `webhook.js`.
- `BranchDeployer` — `findBranchConfig`, `runDeploy` and the request handler
  of `test/src/webhook.js`.
- `IngressSync` — `buildIngressForProfile` and `updateProfile` of
  `test/src/cloudflare-sync.js`.

Parameters stand in for what the model cannot see. `mac` is HMAC-SHA256.
`parse` is `JSON.parse` of the body, with `None` when it throws. `rootDir`
and `defaultRoot` are the installation directories. `loaded` is the tunnel
YAML document as read from disk, and `writeOk` is whether writing it back
succeeded.

Points of the code's behaviour that are easy to misread, all modelled as
the code has them:

- A project without a `branch` is never matched; there is no "any branch"
  default.
- A push with no matching project is still answered `200 "ok, matched=0"`.
  There is no separate "no match" response.
- The signature header is compared as a whole string against
  `"sha256=" + hex`. A missing `sha256=` prefix is not rejected as a
  separate step.
- `webhook.js` matches against the configuration loaded when the server
  started. It does not reload the configuration per request.
- `test/src/webhook.js` does not check signatures at all.

Defects in `test/src/webhook.js`. The model follows the evident intent of
the code, not what it would actually do:

- Line 114 compares the request URL against `PATH`, which is never
  declared (line 166 also prints it in the start-up log message). The
  model compares against the configured path (`PATHNAME`).
- Line 150 assigns to the `const` binding `config`. The model passes the
  freshly read configuration as the separate parameter `current`.
- Line 1 calls `loadConfig` before `CONFIG_PATH` is initialised on line 8.
  The file also has no `require` lines for `fs`, `path`, `http` and
  `spawn`. Neither defect is modelled.

The model also keeps four quirks of the code as they are:

- `webhook.js` counts a matched project that has no `deployScript` in
  `ok, matched=N`, although no process starts for it.
- `test/src/webhook.js` answers "Deploy triggered" even when `runDeploy`
  skips the deploy because the branch entry lacks `repoDir`, `composeFile`
  or `service`. In that case the model's deploy list is empty.
- In `test/src/webhook.js`, `project.branches[name]` also finds the members
  every object inherits (`constructor`, `toString`, `__proto__`, ...). A
  push of `refs/heads/constructor` to a configured repository whose branch
  map lacks that key is therefore answered "Deploy triggered" with no
  deploy. A project without any `branches` object gets "No matching
  project/branch in config" instead.
- A tunnel profile without `rootDomain` yields hostnames ending in
  `.undefined`, because the template string prints the missing value that
  way.

## Model

| member | source | states |
|---|---|---|
| Config.Settings | webhook.js:114-117 | the server's port, path and secret are the `webhook` section's own values when truthy; a missing section, or a falsy port, path or secret in a present one, gives 4000, `/github` and the empty secret respectively; the secret is non-empty exactly when one is configured |
| Encoding.Utf8AsciiInjective | webhook.js:62-69 | comparing UTF-8 buffers against an ASCII digest is the same as comparing the strings: no other string encodes to the digest's bytes |
| Encoding.Hex | webhook.js:60 | the hex digest has two characters per byte: byte `i` becomes characters `2i` and `2i+1`, the lower-case hex digits of its high and low nibble; the digest is pure ASCII |
| Signature.VerifySignature | webhook.js:47-70 | no secret means every request passes; with a secret, a missing or empty header fails, a header whose UTF-8 length differs from the digest's fails, and the result is true exactly when the header equals `sha256=` followed by the hex HMAC of the payload |
| Signature.SignatureRoundTrip | webhook.js:59-69 | the signature a sender computes with the shared secret is accepted, and any other header value is rejected |
| PushDeployer.MatchProjectsMembers | webhook.js:183-189 | a project is matched exactly when it is configured and has a non-empty `repo` equal to `repository.full_name` and a non-empty `branch` whose `refs/heads/` ref equals the pushed ref |
| PushDeployer.MatchProjectsAppend | webhook.js:183-193 | matching keeps configuration order: the matches of a concatenated project list are the matches of each part, concatenated |
| PushDeployer.EmptyRepositoryMatchesNothing | webhook.js:158-161 | a payload without `repository.full_name` (read as the empty string) matches no project |
| PushDeployer.RunDeploy | webhook.js:72-92 | no deploy without a truthy `deployScript`; otherwise the script runs through the shell with `deployArgs` (empty when absent) in `workDir`, or in the root directory when `workDir` is unset or empty |
| PushDeployer.DeploysMembers | webhook.js:189-192 | a process is started exactly for a matched project that has a deploy script, and it is that project's invocation |
| PushDeployer.DeploysAppend | webhook.js:183-193 | deploy processes are started in the order of the matched projects |
| PushDeployer.MatchLoop | webhook.js:180-197 | the loop as written (skip projects lacking repo or branch, count each match, deploy it) ends with the counter equal to the number of matching projects and the deploys equal to those of the matched list |
| PushDeployer.HandleRequest | webhook.js:119-198 | 404 for a wrong path or non-POST first; then 401 on a failed signature; 400 exactly when the signature passes but the body is not JSON; every request that gets past those three steps is answered 200: `ping` gets "pong", any other non-push event "ignored", neither deploying; a push gets 200 "ok, matched=N" with N the number of matched projects and their deploys |
| PushDeployer.UnauthorizedBeforeParsing | webhook.js:143-156 | a request that fails the signature check gets the same answer whatever the JSON parser would do with its body |
| PushDeployer.PushDeploysExactlyMatches | webhook.js:180-197 | for an authenticated push, a process is started iff some configured project matches and has a deploy script, and the number in the response text reads back as the number of matched projects |
| Strings.NatToStringRoundTrip | webhook.js:197 | the decimal text of the match count parses back to the count |
| BranchDeployer.BranchName | test/src/webhook.js:26 | a ref starting with `refs/heads/` loses exactly that prefix; any other ref is unchanged |
| BranchDeployer.BranchNameOfHeadsRef | test/src/webhook.js:26 | only one prefix is removed: the branch name of `refs/heads/b` is `b` for every `b`, including one that itself starts with `refs/heads/` |
| BranchDeployer.FindProject | test/src/webhook.js:28-30 | the result is the first project whose `repo` equals the repository name, or none when no project has it |
| BranchDeployer.FindBranchConfig | test/src/webhook.js:24-56 | a non-null result carries the stripped branch name, the first project for the repository and that project's entry for the branch (own or inherited), which is not disabled; the result is null exactly when there is no such project, it has no entry for the branch, or the entry has `enabled === false` |
| BranchDeployer.LaterProjectsIgnored | test/src/webhook.js:28-35 | projects after the first one for the repository are never consulted: replacing everything after it leaves the result unchanged |
| Strings.TrimEmptyIffBlank | test/src/webhook.js:61 | `trim()` yields the empty string exactly when every character is JavaScript whitespace |
| BranchDeployer.RootDir | test/src/webhook.js:60-63 | the root directory is `config.rootDir` as written when it is set and not all whitespace, and the default root otherwise |
| BranchDeployer.ScriptPath | test/src/webhook.js:65-69 | the deploy script is `config.deployScript`, or `deploy.sh` under the root directory when unset; an absolute name is kept and a relative one is joined to the root directory |
| BranchDeployer.RunDeploy | test/src/webhook.js:59-103 | no deploy when any of `repoDir`, `composeFile` or `service` is missing or empty; otherwise the script runs without a shell with exactly `[repoDir, branchName, composeFile, service]`, the two paths resolved against the root directory |
| BranchDeployer.HandleRequest | test/src/webhook.js:113-162 | the ladder in order: 404 exactly for a wrong method or path, 400 exactly for invalid JSON, and 200 for every other request: "Missing repo/ref", then "Event ignored" for non-push events, then "No matching project/branch in config" when the branch lookup fails; "Deploy triggered" exactly when it succeeds, with the lookup's single deploy if `runDeploy` starts one; no deploy in every other case |
| BranchDeployer.InheritedNameTriggersNothing | test/src/webhook.js:37-55 | a push of a branch named like an `Object.prototype` member that the first project's branch map lacks is answered 200 "Deploy triggered" and starts nothing |
| BranchDeployer.MissingDataBeforeEventKind | test/src/webhook.js:139-147 | the payload check comes before the event check: a payload with neither repository nor ref gets "Missing repo/ref" whatever the event |
| OrderedMaps.Set | test/src/cloudflare-sync.js:90 | assigning a key keeps the key order of the object, appending the key at the end only if it was absent |
| OrderedMaps.SetGet | test/src/cloudflare-sync.js:89-90 | after assigning a key, that key reads as the new value and every other key reads as before |
| IngressSync.BranchRoute | test/src/cloudflare-sync.js:34-52 | a branch yields a rule exactly when its tunnel settings are enabled and name a non-empty subdomain and a non-zero port; the hostname is `sub.rootDomain` and the service is `protocol://localhost:port` followed by the path, with `http` and `/` as defaults |
| IngressSync.BranchRoutesMembers | test/src/cloudflare-sync.js:32-53 | a rule comes from a project's branch map exactly when some entry of the map yields it |
| IngressSync.ProjectRoutesMembers | test/src/cloudflare-sync.js:29-54 | a rule is in the table exactly when some project on the requested profile has a branch that yields it |
| IngressSync.ProjectRoutesAppend | test/src/cloudflare-sync.js:29-33 | rules appear in project order: the table of a concatenated project list is the two tables concatenated |
| IngressSync.BranchRoutesAppend | test/src/cloudflare-sync.js:32-53 | within a project, rules appear in the branch map's order: the rules of a concatenated entry list are the two rule lists concatenated |
| IngressSync.OtherProfileIgnored | test/src/cloudflare-sync.js:29-30 | a project on another profile contributes nothing, wherever it stands in the list |
| IngressSync.BuildIngressForProfile | test/src/cloudflare-sync.js:19-60 | an unknown profile gives empty `ingress` and `hosts` with no fallback rule; a known profile gives one more rule than hosts, the last being the hostname-less `http_status:404` rule, and rule `i` is exactly route `i` of the profile's published branches (hostname `hosts[i]` and that route's service), so rules keep project order, then branch order |
| IngressSync.IngressRulesComeFromPublishedBranches | test/src/cloudflare-sync.js:36-52 | every host of the table is the subdomain of a published branch of a project on the profile, followed by `.` and the root domain; the rule beside it is exactly that branch's rule |
| IngressSync.UpdateProfile | test/src/cloudflare-sync.js:62-127 | nothing is done for an unknown profile or one missing `configFile` or `tunnelName`; otherwise only the `ingress` key of the loaded document (empty if none) is replaced, every other key and the key order are kept, and only after a successful write come one `cloudflared tunnel route dns` command per host, in order, and, last, `systemctl restart` of the service when a service name is set |

## Left out

- The HTTP server, body streaming, `listen`, the request `error` → 500 path and all logging: event-loop plumbing with no decisions.
- The HMAC-SHA256 computation is the parameter `mac`; the constant-time behaviour of `timingSafeEqual` is not modelled, only its result (byte equality).
- JSON parsing is the parameter `parse`. A body that is the JSON literal `null` makes the source throw when it reads `payload.repository`; the model's payload is always an object.
- Field types are fixed: string fields are strings, `enabled` is a boolean, ports are integers. A JSON value of another type (a numeric `repo`, `enabled: "yes"`, a string port) is outside the model. So are headers other than strings.
- JavaScript strings may hold unpaired surrogates, which `Buffer.from` encodes as U+FFFD; the model's strings are sequences of Unicode scalar values. The conversion of raw body bytes to text is also left out.
- The ordered maps are given in JavaScript enumeration order. The rule that integer-like keys enumerate first, in numeric order, is not modelled.
- IngressSync.BranchRoute: renders every integer port in full decimal, whereas JavaScript switches to exponent notation from 10^21 upwards; non-integer ports are not modelled.
- `path.join` normalisation (`..`, duplicate separators) is not modelled: joining is `a + "/" + b`, and a path is absolute when it starts with `/`.
- `spawn` itself, the child's `exit`/`close`/`error` callbacks, the concurrency of deploys and their outcomes: the model returns the intended invocations as data.
- YAML load and dump, file reads, writes and existence checks, and `loadConfig` with `process.exit`: the loaded document and the write's success are parameters. A YAML document that loads as a scalar or a list is outside the model.
- The `execSync` calls and `main` of the tunnel script: DNS routing and the service restart are returned as command text, and a failing command (which the source logs and skips) does not change the plan.
- `config.cloudflare.profiles` missing makes `buildIngressForProfile` throw; the model requires it, as `main` checks it before calling.
