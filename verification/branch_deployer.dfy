/**
  The per-branch dispatcher, `test/src/webhook.js`: a push names a
  repository and a ref; the first project for that repository and its
  entry in `branches` decide whether one deploy script runs, and with
  which four arguments.

  The module-level path constant the source compares against is undefined
  there; the model uses the configured path it evidently means. The
  configuration re-read for each request is the `current` snapshot
  parameter.
*/
module BranchDeployer {
  import opened JsValues
  import opened Strings
  import opened OrderedMaps
  import opened Config
  import opened Http

  // ---------- branch name and project lookup ----------

  /** `ref.replace(/^refs\/heads\//, "")`: one leading `refs/heads/` removed, any other ref unchanged. */
  function BranchName(ref: string): (b: string)
    ensures StartsWith(ref, HeadsPrefix) ==> HeadsPrefix + b == ref
    ensures !StartsWith(ref, HeadsPrefix) ==> b == ref
  {
    StripPrefix(ref, HeadsPrefix)
  }

  /** Only one prefix is removed: the branch name of `refs/heads/<b>` is `b`, whatever `b` is. */
  lemma BranchNameOfHeadsRef(b: string)
    ensures BranchName(HeadsPrefix + b) == b
  {
    StripPrefixRoundTrip(HeadsPrefix, b);
  }

  /** Project `i` is the one `projects.find(p => p.repo === repo)` returns. */
  predicate IsFirstWithRepo(ps: seq<Project>, repo: string, i: int) {
    && 0 <= i < |ps|
    && ps[i].repo == Some(repo)
    && forall j :: 0 <= j < i ==> ps[j].repo != Some(repo)
  }

  /** `Array.prototype.find` over the projects by exact repository name, as a position. */
  function FindProject(ps: seq<Project>, repo: string): (r: Option<nat>)
    ensures r.Some? ==> IsFirstWithRepo(ps, repo, r.value)
    ensures r.None? ==> forall j :: 0 <= j < |ps| ==> ps[j].repo != Some(repo)
  {
    if |ps| == 0 then None
    else if ps[0].repo == Some(repo) then Some(0)
    else
      match FindProject(ps[1..], repo)
      case None => None
      case Some(i) =>
        assert ps[i + 1] == ps[1..][i];
        Some(i + 1)
  }

  /** What `findBranchConfig` returns when it does not return null. */
  datatype Found = Found(project: Project, branchName: string, branch: Branch)

  /**
    The members every plain object inherits from `Object.prototype`. Each
    is truthy (a function, or the prototype itself for `__proto__`) and has
    none of the fields a branch entry carries.
  */
  const InheritedNames: set<string> := {
    "constructor", "hasOwnProperty", "isPrototypeOf", "propertyIsEnumerable",
    "toLocaleString", "toString", "valueOf", "__proto__",
    "__defineGetter__", "__defineSetter__", "__lookupGetter__", "__lookupSetter__"}

  /** How an inherited member reads when taken for a branch entry: every field undefined. */
  const InheritedEntry: Branch := Branch(None, None, None, None, None)

  /**
    `project.branches && project.branches[name]`: nothing when the project
    has no `branches` object; otherwise the own entry for `name`, or, when
    there is none, the inherited member of that name if there is one.
  */
  function BranchEntry(p: Project, name: string): (r: Option<Branch>)
    ensures p.branches.None? ==> r.None?
    ensures p.branches.Some? && HasKey(p.branches.value, name) ==> r == Get(p.branches.value, name)
    ensures p.branches.Some? && !HasKey(p.branches.value, name) ==>
              r == (if name in InheritedNames then Some(InheritedEntry) else None)
  {
    match p.branches
    case None => None
    case Some(m) =>
      match Get(m, name)
      case Some(b) => Some(b)
      case None => if name in InheritedNames then Some(InheritedEntry) else None
  }

  /** The branch entry a project has for `name`, unless it is explicitly disabled. */
  predicate EnabledEntry(p: Project, name: string) {
    var b := BranchEntry(p, name);
    b.Some? && b.value.enabled != Some(false)
  }

  /**
    `findBranchConfig`: the first project for the repository decides. The
    result is null when there is no such project, when it has no entry for
    the branch, or when that entry has `enabled === false`; a missing or
    true `enabled` yields the project, the branch name and the entry.
  */
  function FindBranchConfig(ps: seq<Project>, repoFullName: string, ref: string): (r: Option<Found>)
    ensures r.Some? ==> && r.value.branchName == BranchName(ref)
                        && (exists i :: IsFirstWithRepo(ps, repoFullName, i) && ps[i] == r.value.project)
                        && BranchEntry(r.value.project, r.value.branchName) == Some(r.value.branch)
                        && r.value.branch.enabled != Some(false)
    ensures r.None? <==> forall i :: IsFirstWithRepo(ps, repoFullName, i) ==> !EnabledEntry(ps[i], BranchName(ref))
  {
    var branchName := BranchName(ref);
    match FindProject(ps, repoFullName)
    case None => None
    case Some(i) =>
      var project := ps[i];
      FirstIsUnique(ps, repoFullName, i);
      match BranchEntry(project, branchName)
      case None => None
      case Some(branch) =>
        if branch.enabled == Some(false) then None
        else Some(Found(project, branchName, branch))
  }

  lemma FirstIsUnique(ps: seq<Project>, repo: string, i: int)
    requires IsFirstWithRepo(ps, repo, i)
    ensures forall k :: IsFirstWithRepo(ps, repo, k) ==> k == i
  {
  }

  /**
    A later project for the same repository is never consulted: whatever
    follows the first matching project, and whatever it says, the result
    is the same.
  */
  lemma LaterProjectsIgnored(ps: seq<Project>, rest: seq<Project>, repoFullName: string, ref: string, i: int)
    requires IsFirstWithRepo(ps, repoFullName, i)
    ensures FindBranchConfig(ps[..i + 1] + rest, repoFullName, ref) == FindBranchConfig(ps, repoFullName, ref)
  {
    var qs := ps[..i + 1] + rest;
    assert IsFirstWithRepo(qs, repoFullName, i) by {
      forall j | 0 <= j <= i ensures qs[j] == ps[j] { }
    }
    var a := FindProject(qs, repoFullName);
    var b := FindProject(ps, repoFullName);
    FirstIsUnique(qs, repoFullName, i);
    FirstIsUnique(ps, repoFullName, i);
    assert a == Some(i) && b == Some(i);
  }

  // ---------- deploy invocation ----------

  const DefaultScript: string := "deploy.sh"

  /** `path.isAbsolute`, for POSIX paths. */
  predicate IsAbsolute(p: string) {
    StartsWith(p, "/")
  }

  /** `path.join(a, b)` without normalisation. */
  function Join(a: string, b: string): string {
    a + "/" + b
  }

  /** An absolute path is kept; a relative one is placed under `root`. */
  function Resolve(root: string, p: string): (r: string)
    ensures IsAbsolute(p) ==> r == p
    ensures !IsAbsolute(p) ==> r == root + "/" + p
  {
    if IsAbsolute(p) then p else Join(root, p)
  }

  /**
    `config.rootDir` when it is set and not blank after trimming (used as
    written, untrimmed); otherwise the installation's default root.
  */
  function RootDir(c: Config, defaultRoot: string): (r: string)
    ensures c.rootDir.Some? && !Blank(c.rootDir.value) ==> r == c.rootDir.value
    ensures c.rootDir.None? || Blank(c.rootDir.value) ==> r == defaultRoot
  {
    if c.rootDir.None? then defaultRoot
    else
      TrimEmptyIffBlank(c.rootDir.value);
      if Truthy(c.rootDir) && Trim(c.rootDir.value) != "" then c.rootDir.value else defaultRoot
  }

  /** The deploy script: `config.deployScript || "deploy.sh"`, resolved against the root directory. */
  function ScriptPath(c: Config, rootDir: string): (r: string)
    ensures Truthy(c.deployScript) ==> r == Resolve(rootDir, c.deployScript.value)
    ensures !Truthy(c.deployScript) ==> r == rootDir + "/" + DefaultScript
  {
    assert !IsAbsolute(DefaultScript) by { assert DefaultScript[..1] == "d"; }
    Resolve(rootDir, OrElse(c.deployScript, DefaultScript))
  }

  /**
    `runDeploy`: nothing runs unless the branch entry names a repository
    directory, a compose file and a service; otherwise the script runs,
    without a shell and in the inherited directory, with exactly the
    repository directory, the branch name, the compose file and the
    service, the two paths resolved against the root directory.
  */
  function RunDeploy(c: Config, defaultRoot: string, f: Found): (r: Option<Invocation>)
    ensures r.None? <==> !Truthy(f.branch.repoDir) || !Truthy(f.branch.composeFile) || !Truthy(f.branch.service)
    ensures r.Some? ==>
              var root := RootDir(c, defaultRoot);
              && r.value.command == ScriptPath(c, root)
              && r.value.args == [Resolve(root, f.branch.repoDir.value), f.branchName,
                                  Resolve(root, f.branch.composeFile.value), f.branch.service.value]
              && r.value.cwd.None? && !r.value.shell
  {
    var root := RootDir(c, defaultRoot);
    var script := ScriptPath(c, root);
    var b := f.branch;
    if !Truthy(b.repoDir) || !Truthy(b.composeFile) || !Truthy(b.service) then None
    else
      var repoDir := Resolve(root, b.repoDir.value);
      var composeFile := Resolve(root, b.composeFile.value);
      Some(Invocation(script, [repoDir, f.branchName, composeFile, b.service.value], None, false))
  }

  // ---------- request handler ----------

  const MissingRepoRef: Response := Response(200, "Missing repo/ref", [])
  const EventIgnored: Response := Response(200, "Event ignored", [])
  const NoMatch: Response := Response(200, "No matching project/branch in config", [])
  const Triggered: string := "Deploy triggered"

  /** `payload.repository && payload.repository.full_name`. */
  function RepoName(p: Payload): Option<string> {
    if p.repository.Some? then p.repository.value.fullName else None
  }

  function OptionToSeq<T>(o: Option<T>): (s: seq<T>)
    ensures |s| <= 1
    ensures o.None? ==> s == []
    ensures o.Some? ==> s == [o.value]
  {
    match o
    case None => []
    case Some(x) => [x]
  }

  /**
    The request handler: wrong method or path, invalid JSON, a payload
    without repository or ref, a non-push event and an unconfigured branch
    each end the request in that order; otherwise at most one deploy starts
    and the answer is "Deploy triggered".
  */
  function HandleRequest(startup: Config, current: Config, defaultRoot: string, parse: Parser, req: Request)
    : (res: Response)
    ensures res == NotFound <==> !Routed(req, Settings(startup).path)
    ensures res == InvalidJson <==> Routed(req, Settings(startup).path) && parse(req.body).None?
    ensures Routed(req, Settings(startup).path) && parse(req.body).Some? ==>
              var payload := parse(req.body).value;
              && res.status == 200
              && (!Truthy(RepoName(payload)) || !Truthy(payload.ref) ==> res == MissingRepoRef)
              && (Truthy(RepoName(payload)) && Truthy(payload.ref) && req.event != Some("push") ==> res == EventIgnored)
              && (Truthy(RepoName(payload)) && Truthy(payload.ref) && req.event == Some("push")
                  && FindBranchConfig(current.projects, RepoName(payload).value, payload.ref.value).None?
                  ==> res == NoMatch)
    ensures |res.deploys| <= 1
    ensures res.text == Triggered <==>
              && Routed(req, Settings(startup).path)
              && parse(req.body).Some?
              && Truthy(RepoName(parse(req.body).value)) && Truthy(parse(req.body).value.ref)
              && req.event == Some("push")
              && FindBranchConfig(current.projects, RepoName(parse(req.body).value).value,
                                  parse(req.body).value.ref.value).Some?
    ensures res.text == Triggered ==>
              var payload := parse(req.body).value;
              var f := FindBranchConfig(current.projects, RepoName(payload).value, payload.ref.value).value;
              res.deploys == OptionToSeq(RunDeploy(current, defaultRoot, f))
    ensures res.text != Triggered ==> res.deploys == []
  {
    if !Routed(req, Settings(startup).path) then NotFound
    else match parse(req.body)
      case None => InvalidJson
      case Some(payload) =>
        var repoName := RepoName(payload);
        if !Truthy(repoName) || !Truthy(payload.ref) then MissingRepoRef
        else if req.event != Some("push") then EventIgnored
        else match FindBranchConfig(current.projects, repoName.value, payload.ref.value)
          case None => NoMatch
          case Some(f) => Response(200, Triggered, OptionToSeq(RunDeploy(current, defaultRoot, f)))
  }

  /**
    Unlike the root dispatcher, this one checks the payload before the
    event kind: a ping without repository data is answered "Missing
    repo/ref", not "Event ignored".
  */
  lemma MissingDataBeforeEventKind(startup: Config, current: Config, defaultRoot: string, parse: Parser, req: Request)
    requires Routed(req, Settings(startup).path)
    requires parse(req.body) == Some(Payload(None, None))
    ensures HandleRequest(startup, current, defaultRoot, parse, req) == MissingRepoRef
  {
  }

  /**
    A push for a branch named like a member of `Object.prototype`
    (`constructor`, `toString`, ...) that the first project for the
    repository does not configure still finds an "entry": the inherited
    member, which is not disabled. The answer is "Deploy triggered", yet no
    deploy starts, since that entry names no repository directory.
  */
  lemma InheritedNameTriggersNothing(startup: Config, current: Config, defaultRoot: string, parse: Parser,
                                     req: Request, i: nat, name: string)
    requires Routed(req, Settings(startup).path) && req.event == Some("push")
    requires parse(req.body).Some?
    requires Truthy(RepoName(parse(req.body).value))
    requires parse(req.body).value.ref == Some(HeadsPrefix + name)
    requires IsFirstWithRepo(current.projects, RepoName(parse(req.body).value).value, i)
    requires current.projects[i].branches.Some? && !HasKey(current.projects[i].branches.value, name)
    requires name in InheritedNames
    ensures HandleRequest(startup, current, defaultRoot, parse, req) == Response(200, Triggered, [])
  {
    var payload := parse(req.body).value;
    BranchNameOfHeadsRef(name);
    FirstIsUnique(current.projects, RepoName(payload).value, i);
    var f := FindBranchConfig(current.projects, RepoName(payload).value, payload.ref.value);
    assert f == Some(Found(current.projects[i], name, InheritedEntry));
  }
}
