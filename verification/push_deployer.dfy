/**
  The root dispatcher, `webhook.js`: a request passes the path/method gate,
  the signature check and JSON parsing, is classified by its event kind,
  and a `push` starts the deploy script of every configured project whose
  repository and branch it names.
*/
module PushDeployer {
  import opened JsValues
  import opened Strings
  import opened Config
  import opened Http
  import opened Signature

  /** `repository.full_name` when the payload carries a truthy one, else the empty string. */
  function RepoFullName(p: Payload): string {
    if p.repository.Some? && Truthy(p.repository.value.fullName) then p.repository.value.fullName.value else ""
  }

  /** `payload.ref || ""`. */
  function PushedRef(p: Payload): string {
    OrElse(p.ref, "")
  }

  /**
    The per-project test of the matching loop: the project names both a
    repository and a branch, the repository is exactly the pushed one and
    the ref is exactly that branch's `refs/heads/` ref.
  */
  predicate Matches(p: Project, repoFullName: string, ref: string) {
    && Truthy(p.repo)
    && Truthy(p.branch)
    && p.repo.value == repoFullName
    && ref == HeadsPrefix + p.branch.value
  }

  /** The projects the loop deploys, in configuration order. */
  function MatchProjects(ps: seq<Project>, repoFullName: string, ref: string): (r: seq<Project>)
    ensures |r| <= |ps|
  {
    if |ps| == 0 then []
    else
      var rest := MatchProjects(ps[1..], repoFullName, ref);
      if Matches(ps[0], repoFullName, ref) then [ps[0]] + rest else rest
  }

  /** A project is matched exactly when it is configured and passes the test. */
  lemma {:induction false} MatchProjectsMembers(ps: seq<Project>, repoFullName: string, ref: string, p: Project)
    ensures p in MatchProjects(ps, repoFullName, ref) <==> p in ps && Matches(p, repoFullName, ref)
  {
    if |ps| > 0 {
      MatchProjectsMembers(ps[1..], repoFullName, ref, p);
      assert p in ps <==> p == ps[0] || p in ps[1..];
    }
  }

  /** Matching keeps configuration order: it distributes over concatenation of project lists. */
  lemma {:induction false} MatchProjectsAppend(a: seq<Project>, b: seq<Project>, repoFullName: string, ref: string)
    ensures MatchProjects(a + b, repoFullName, ref) == MatchProjects(a, repoFullName, ref) + MatchProjects(b, repoFullName, ref)
  {
    if |a| > 0 {
      assert (a + b)[1..] == a[1..] + b;
      MatchProjectsAppend(a[1..], b, repoFullName, ref);
    } else {
      assert a + b == b;
    }
  }

  /** A payload without a repository name matches no project, since every matching project names one. */
  lemma {:induction false} EmptyRepositoryMatchesNothing(ps: seq<Project>, ref: string)
    ensures MatchProjects(ps, "", ref) == []
  {
    if |ps| > 0 {
      EmptyRepositoryMatchesNothing(ps[1..], ref);
    }
  }

  /**
    `runDeploy`'s decisions: no process without a truthy `deployScript`;
    otherwise the script runs through the shell with `deployArgs` (empty
    when absent) in `workDir`, or in the root directory when that is unset.
  */
  function RunDeploy(p: Project, rootDir: string): (r: Option<Invocation>)
    ensures r.None? <==> !Truthy(p.deployScript)
    ensures r.Some? ==> && r.value.command == p.deployScript.value
                        && r.value.args == p.deployArgs
                        && r.value.shell
                        && r.value.cwd == Some(if Truthy(p.workDir) then p.workDir.value else rootDir)
  {
    if !Truthy(p.deployScript) then None
    else Some(Invocation(p.deployScript.value, p.deployArgs, Some(OrElse(p.workDir, rootDir)), true))
  }

  /** The processes `runDeploy` starts for the matched projects, in order. */
  function Deploys(ms: seq<Project>, rootDir: string): (r: seq<Invocation>)
    ensures |r| <= |ms|
  {
    if |ms| == 0 then []
    else
      var rest := Deploys(ms[1..], rootDir);
      match RunDeploy(ms[0], rootDir)
      case None => rest
      case Some(inv) => [inv] + rest
  }

  /** A process is started exactly for a listed project that has a deploy script. */
  lemma {:induction false} DeploysMembers(ms: seq<Project>, rootDir: string, inv: Invocation)
    ensures inv in Deploys(ms, rootDir) <==> exists p :: p in ms && RunDeploy(p, rootDir) == Some(inv)
  {
    if |ms| > 0 {
      DeploysMembers(ms[1..], rootDir, inv);
      assert forall p :: p in ms <==> p == ms[0] || p in ms[1..];
    }
  }

  lemma {:induction false} DeploysAppend(a: seq<Project>, b: seq<Project>, rootDir: string)
    ensures Deploys(a + b, rootDir) == Deploys(a, rootDir) + Deploys(b, rootDir)
  {
    if |a| > 0 {
      assert (a + b)[1..] == a[1..] + b;
      DeploysAppend(a[1..], b, rootDir);
    } else {
      assert a + b == b;
    }
  }

  /** One more project processed by the loop extends the matched list and the deploy list by its own share. */
  lemma MatchStep(ps: seq<Project>, i: nat, repoFullName: string, ref: string, rootDir: string)
    requires i < |ps|
    ensures MatchProjects(ps[..i + 1], repoFullName, ref)
            == MatchProjects(ps[..i], repoFullName, ref) + (if Matches(ps[i], repoFullName, ref) then [ps[i]] else [])
    ensures Deploys(MatchProjects(ps[..i + 1], repoFullName, ref), rootDir)
            == Deploys(MatchProjects(ps[..i], repoFullName, ref), rootDir)
               + (if Matches(ps[i], repoFullName, ref) && RunDeploy(ps[i], rootDir).Some?
                  then [RunDeploy(ps[i], rootDir).value] else [])
  {
    var p := ps[i];
    assert ps[..i + 1] == ps[..i] + [p];
    MatchProjectsAppend(ps[..i], [p], repoFullName, ref);
    var one := MatchProjects([p], repoFullName, ref);
    assert one == if Matches(p, repoFullName, ref) then [p] else [];
    DeploysAppend(MatchProjects(ps[..i], repoFullName, ref), one, rootDir);
  }

  /**
    The matching loop as written: walk the projects in order, count every
    match and start its deploy. It computes exactly the matched list's size
    and that list's deploys.
  */
  method MatchLoop(ps: seq<Project>, repoFullName: string, ref: string, rootDir: string)
    returns (matched: nat, deploys: seq<Invocation>)
    ensures matched == |MatchProjects(ps, repoFullName, ref)|
    ensures deploys == Deploys(MatchProjects(ps, repoFullName, ref), rootDir)
  {
    matched := 0;
    deploys := [];
    var i := 0;
    while i < |ps|
      invariant 0 <= i <= |ps|
      invariant matched == |MatchProjects(ps[..i], repoFullName, ref)|
      invariant deploys == Deploys(MatchProjects(ps[..i], repoFullName, ref), rootDir)
    {
      var p := ps[i];
      MatchStep(ps, i, repoFullName, ref, rootDir);
      if Truthy(p.repo) && Truthy(p.branch) {
        var repoMatch := p.repo.value == repoFullName;
        var refMatch := ref == HeadsPrefix + p.branch.value;
        if repoMatch && refMatch {
          matched := matched + 1;
          var started := RunDeploy(p, rootDir);
          if started.Some? {
            deploys := deploys + [started.value];
          }
        }
      }
      i := i + 1;
    }
    assert ps[..i] == ps;
  }

  const Unauthorized: Response := Response(401, "Invalid signature", [])
  const Pong: Response := Response(200, "pong", [])
  const Ignored: Response := Response(200, "ignored", [])
  const MatchedPrefix: string := "ok, matched="

  /**
    The request handler, first failing step first: wrong path or method,
    bad signature, invalid JSON; then `ping`, other non-push events, and
    finally the push, answered with the number of matched projects.
  */
  function HandleRequest(c: Config, rootDir: string, mac: Mac, parse: Parser, req: Request): (res: Response)
    ensures !Routed(req, Settings(c).path) ==> res == NotFound
    ensures Routed(req, Settings(c).path) && !VerifySignature(mac, Settings(c).secret, req.body, req.signature)
            ==> res == Unauthorized
    ensures res.status == 400 <==> Routed(req, Settings(c).path)
                                   && VerifySignature(mac, Settings(c).secret, req.body, req.signature)
                                   && parse(req.body).None?
    ensures res.status == 400 ==> res == InvalidJson
    ensures Routed(req, Settings(c).path) && VerifySignature(mac, Settings(c).secret, req.body, req.signature)
            && parse(req.body).Some? ==>
              && res.status == 200
              && (req.event == Some("ping") ==> res == Pong)
              && (req.event != Some("ping") && req.event != Some("push") ==> res == Ignored)
    ensures res.status == 200 && req.event == Some("push") ==>
              var payload := parse(req.body).value;
              var ms := MatchProjects(c.projects, RepoFullName(payload), PushedRef(payload));
              && res.text == MatchedPrefix + NatToString(|ms|)
              && res.deploys == Deploys(ms, rootDir)
    ensures res.status in {200, 400, 401, 404}
  {
    var settings := Settings(c);
    if !Routed(req, settings.path) then NotFound
    else if !VerifySignature(mac, settings.secret, req.body, req.signature) then Unauthorized
    else match parse(req.body)
      case None => InvalidJson
      case Some(payload) =>
        if req.event == Some("ping") then Pong
        else if req.event != Some("push") then Ignored
        else
          var ms := MatchProjects(c.projects, RepoFullName(payload), PushedRef(payload));
          Response(200, MatchedPrefix + NatToString(|ms|), Deploys(ms, rootDir))
  }

  /** A request that fails the signature check is answered without looking at the body as JSON. */
  lemma UnauthorizedBeforeParsing(c: Config, rootDir: string, mac: Mac, parse1: Parser, parse2: Parser, req: Request)
    requires Routed(req, Settings(c).path)
    requires !VerifySignature(mac, Settings(c).secret, req.body, req.signature)
    ensures HandleRequest(c, rootDir, mac, parse1, req) == HandleRequest(c, rootDir, mac, parse2, req)
  {
  }

  /**
    A valid push deploys exactly what the configuration asks for: a process
    appears iff some project matches and has a deploy script, and the
    response text reports the number of matched projects in decimal.
  */
  lemma PushDeploysExactlyMatches(c: Config, rootDir: string, mac: Mac, parse: Parser, req: Request, inv: Invocation)
    requires Routed(req, Settings(c).path)
    requires VerifySignature(mac, Settings(c).secret, req.body, req.signature)
    requires parse(req.body).Some? && req.event == Some("push")
    ensures var res := HandleRequest(c, rootDir, mac, parse, req);
            var payload := parse(req.body).value;
            && res.status == 200
            && (inv in res.deploys <==>
                  exists p :: p in c.projects && Matches(p, RepoFullName(payload), PushedRef(payload))
                              && RunDeploy(p, rootDir) == Some(inv))
            && |res.text| > |MatchedPrefix|
            && ParseNat(res.text[|MatchedPrefix|..])
               == Some(|MatchProjects(c.projects, RepoFullName(payload), PushedRef(payload))|)
  {
    var payload := parse(req.body).value;
    var ms := MatchProjects(c.projects, RepoFullName(payload), PushedRef(payload));
    DeploysMembers(ms, rootDir, inv);
    forall p ensures p in ms <==> p in c.projects && Matches(p, RepoFullName(payload), PushedRef(payload)) {
      MatchProjectsMembers(c.projects, RepoFullName(payload), PushedRef(payload), p);
    }
    var n := |ms|;
    NatToStringRoundTrip(n);
    assert (MatchedPrefix + NatToString(n))[|MatchedPrefix|..] == NatToString(n);
  }
}
