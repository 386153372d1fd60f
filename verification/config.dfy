/**
  The configuration document `config/projects.json` as the three programs
  read it. Only the fields some decision reads are kept. Every scalar field
  may be missing (`None`); list fields that the source reads through
  `x || []` are plain sequences, a missing one being the empty one, since
  both behave identically. A project's `branches` object stays optional:
  one reader guards it with `&&`, and a missing object and an empty one
  answer differently there.
*/
module Config {
  import opened JsValues
  import opened OrderedMaps

  /** `branches[name].cloudflare`: how a branch is published through the tunnel. */
  datatype TunnelSettings = TunnelSettings(
    enabled: Option<bool>,
    subdomain: Option<string>,
    localPort: Option<int>,
    localPath: Option<string>,
    protocol: Option<string>)

  /** `branches[name]`: one deployable branch of a project. */
  datatype Branch = Branch(
    enabled: Option<bool>,
    repoDir: Option<string>,
    composeFile: Option<string>,
    service: Option<string>,
    cloudflare: Option<TunnelSettings>)

  /**
    One entry of `projects`. The root dispatcher reads `repo`, `branch`,
    `deployScript`, `deployArgs` and `workDir`; the branch dispatcher reads
    `repo` and `branches`; the ingress builder reads `cloudflareProfile` and
    `branches`.
  */
  datatype Project = Project(
    repo: Option<string>,
    branch: Option<string>,
    deployScript: Option<string>,
    deployArgs: seq<string>,
    workDir: Option<string>,
    cloudflareProfile: Option<string>,
    branches: Option<OrderedMap<Branch>>)

  /** `project.branches || {}`: the own entries of the branch map, none when it is missing. */
  function BranchMap(p: Project): OrderedMap<Branch> {
    if p.branches.Some? then p.branches.value else []
  }

  /** `cloudflare.profiles[name]`: one tunnel and the domain it serves. */
  datatype Profile = Profile(
    rootDomain: Option<string>,
    configFile: Option<string>,
    tunnelName: Option<string>,
    serviceName: Option<string>)

  datatype WebhookSection = WebhookSection(
    port: Option<int>,
    path: Option<string>,
    secret: Option<string>)

  /**
    The whole document. `profiles` stands for `cloudflare.profiles`, `None`
    when either level is missing. Own-key lookup suffices for it: the tunnel
    script only asks for names it took from `Object.keys` of that object.
  */
  datatype Config = Config(
    webhook: Option<WebhookSection>,
    projects: seq<Project>,
    rootDir: Option<string>,
    deployScript: Option<string>,
    profiles: Option<OrderedMap<Profile>>)

  const DefaultPort: int := 4000
  const DefaultPath: string := "/github"

  /** What the server takes from the `webhook` section at start-up. */
  datatype ServerSettings = ServerSettings(port: int, path: string, secret: string)

  /**
    `port || 4000`, `path || "/github"`, `secret || ""` over `webhook || {}`:
    a configured value is used only when it is truthy.
  */
  function Settings(c: Config): (s: ServerSettings)
    ensures s.port != 0 && s.path != ""
    ensures s.secret != "" <==> c.webhook.Some? && Truthy(c.webhook.value.secret)
    ensures c.webhook.None? ==> s == ServerSettings(DefaultPort, DefaultPath, "")
    ensures c.webhook.Some? && Truthy(c.webhook.value.secret) ==> s.secret == c.webhook.value.secret.value
    ensures c.webhook.Some? && Truthy(c.webhook.value.path) ==> s.path == c.webhook.value.path.value
    ensures c.webhook.Some? && !Truthy(c.webhook.value.path) ==> s.path == DefaultPath
    ensures c.webhook.Some? && TruthyNum(c.webhook.value.port) ==> s.port == c.webhook.value.port.value
    ensures c.webhook.Some? && !TruthyNum(c.webhook.value.port) ==> s.port == DefaultPort
  {
    var w := if c.webhook.Some? then c.webhook.value else WebhookSection(None, None, None);
    ServerSettings(OrElseNum(w.port, DefaultPort), OrElse(w.path, DefaultPath), OrElse(w.secret, ""))
  }
}
