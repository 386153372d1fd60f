/**
  The tunnel ingress builder, `test/src/cloudflare-sync.js`: for one
  profile, every published branch of every project on that profile becomes
  a `hostname -> local service` rule, in project order and then branch
  order, and the table ends with a catch-all 404 rule. `updateProfile`
  stores the table under the `ingress` key of the tunnel's YAML document,
  keeping every other key, and then asks for one DNS route per host and an
  optional service restart; those commands are returned as text.
*/
module IngressSync {
  import opened JsValues
  import opened Strings
  import opened OrderedMaps
  import opened Config

  /** A published branch: the public hostname and the local service behind it. */
  datatype Route = Route(hostname: string, service: string)

  /** One entry of the `ingress` list; only the catch-all has no hostname. */
  datatype IngressRule = IngressRule(hostname: Option<string>, service: string)

  const CatchAll: IngressRule := IngressRule(None, "http_status:404")

  /** `{ ingress, hosts }` as `buildIngressForProfile` returns it. */
  datatype IngressTable = IngressTable(ingress: seq<IngressRule>, hosts: seq<string>)

  /** A branch is published when its tunnel settings are enabled and name a subdomain and a non-zero port. */
  predicate Published(br: Branch) {
    && br.cloudflare.Some?
    && TruthyBool(br.cloudflare.value.enabled)
    && Truthy(br.cloudflare.value.subdomain)
    && TruthyNum(br.cloudflare.value.localPort)
  }

  /** `${sub}.${profile.rootDomain}`. */
  function HostName(sub: string, rootDomain: Option<string>): string {
    sub + "." + Interpolate(rootDomain)
  }

  /** `${protocol}://localhost:${localPort}${localPath}`. */
  function ServiceUrl(protocol: string, port: int, path: string): string {
    protocol + "://localhost:" + IntToString(port) + path
  }

  /**
    The rule one branch contributes, if any: its subdomain under the
    profile's root domain, served from localhost at its port, with the
    protocol defaulting to `http` and the path to `/`.
  */
  function BranchRoute(br: Branch, rootDomain: Option<string>): (r: Option<Route>)
    ensures r.Some? <==> Published(br)
    ensures r.Some? ==>
              var t := br.cloudflare.value;
              && r.value.hostname == t.subdomain.value + "." + Interpolate(rootDomain)
              && r.value.service == (if Truthy(t.protocol) then t.protocol.value else "http")
                                    + "://localhost:" + IntToString(t.localPort.value)
                                    + (if Truthy(t.localPath) then t.localPath.value else "/")
  {
    if br.cloudflare.None? || !TruthyBool(br.cloudflare.value.enabled) then None
    else
      var t := br.cloudflare.value;
      var localPath := OrElse(t.localPath, "/");
      var protocol := OrElse(t.protocol, "http");
      if !Truthy(t.subdomain) || !TruthyNum(t.localPort) then None
      else Some(Route(HostName(t.subdomain.value, rootDomain), ServiceUrl(protocol, t.localPort.value, localPath)))
  }

  /** The rules of one project's branches, in the branch map's order. */
  function BranchRoutes(entries: seq<(string, Branch)>, rootDomain: Option<string>): (rs: seq<Route>)
    ensures |rs| <= |entries|
  {
    if |entries| == 0 then []
    else
      var rest := BranchRoutes(entries[1..], rootDomain);
      match BranchRoute(entries[0].1, rootDomain)
      case None => rest
      case Some(r) => [r] + rest
  }

  /** The rules of all projects on profile `name`, in project order. */
  function ProjectRoutes(ps: seq<Project>, name: string, rootDomain: Option<string>): seq<Route> {
    if |ps| == 0 then []
    else
      var rest := ProjectRoutes(ps[1..], name, rootDomain);
      if ps[0].cloudflareProfile == Some(name) then BranchRoutes(BranchMap(ps[0]), rootDomain) + rest else rest
  }

  lemma {:induction false} BranchRoutesMembers(entries: seq<(string, Branch)>, rootDomain: Option<string>, r: Route)
    ensures r in BranchRoutes(entries, rootDomain) <==>
            exists e :: e in entries && BranchRoute(e.1, rootDomain) == Some(r)
  {
    if |entries| > 0 {
      BranchRoutesMembers(entries[1..], rootDomain, r);
      assert forall e :: e in entries <==> e == entries[0] || e in entries[1..];
    }
  }

  /**
    A rule is in the profile's table exactly when some project on that
    profile has a branch that publishes it.
  */
  lemma {:induction false} ProjectRoutesMembers(ps: seq<Project>, name: string, rootDomain: Option<string>, r: Route)
    ensures r in ProjectRoutes(ps, name, rootDomain) <==>
            exists p, e :: && p in ps && p.cloudflareProfile == Some(name)
                           && e in BranchMap(p) && BranchRoute(e.1, rootDomain) == Some(r)
  {
    if |ps| > 0 {
      ProjectRoutesMembers(ps[1..], name, rootDomain, r);
      BranchRoutesMembers(BranchMap(ps[0]), rootDomain, r);
      assert forall p :: p in ps <==> p == ps[0] || p in ps[1..];
    }
  }

  /** Rules keep project order: the table of a concatenation is the concatenation of the tables. */
  lemma {:induction false} ProjectRoutesAppend(a: seq<Project>, b: seq<Project>, name: string, rootDomain: Option<string>)
    ensures ProjectRoutes(a + b, name, rootDomain) == ProjectRoutes(a, name, rootDomain) + ProjectRoutes(b, name, rootDomain)
  {
    if |a| > 0 {
      assert (a + b)[1..] == a[1..] + b;
      ProjectRoutesAppend(a[1..], b, name, rootDomain);
    } else {
      assert a + b == b;
    }
  }

  /** Within a project, rules keep the branch map's order. */
  lemma {:induction false} BranchRoutesAppend(a: seq<(string, Branch)>, b: seq<(string, Branch)>, rootDomain: Option<string>)
    ensures BranchRoutes(a + b, rootDomain) == BranchRoutes(a, rootDomain) + BranchRoutes(b, rootDomain)
  {
    if |a| > 0 {
      assert (a + b)[1..] == a[1..] + b;
      BranchRoutesAppend(a[1..], b, rootDomain);
    } else {
      assert a + b == b;
    }
  }

  /** A project on another profile contributes nothing, wherever it stands. */
  lemma OtherProfileIgnored(a: seq<Project>, p: Project, b: seq<Project>, name: string, rootDomain: Option<string>)
    requires p.cloudflareProfile != Some(name)
    ensures ProjectRoutes(a + [p] + b, name, rootDomain) == ProjectRoutes(a + b, name, rootDomain)
  {
    ProjectRoutesAppend(a + [p], b, name, rootDomain);
    ProjectRoutesAppend(a, [p], name, rootDomain);
    ProjectRoutesAppend(a, b, name, rootDomain);
  }

  /**
    `buildIngressForProfile`: an unknown profile gives two empty lists and
    no fallback; a known one gives one rule per host, hostname for
    hostname, followed by the catch-all.
  */
  function BuildIngressForProfile(c: Config, name: string): (t: IngressTable)
    requires c.profiles.Some?
    ensures Get(c.profiles.value, name).None? ==> t == IngressTable([], [])
    ensures Get(c.profiles.value, name).Some? ==>
              && |t.ingress| == |t.hosts| + 1
              && t.ingress[|t.hosts|] == CatchAll
              && t.hosts == RouteHosts(ProjectRoutes(c.projects, name, Get(c.profiles.value, name).value.rootDomain))
    ensures forall i :: 0 <= i < |t.hosts| ==> t.ingress[i].hostname == Some(t.hosts[i])
    ensures Get(c.profiles.value, name).Some? ==>
              var routes := ProjectRoutes(c.projects, name, Get(c.profiles.value, name).value.rootDomain);
              forall i :: 0 <= i < |t.hosts| ==> t.ingress[i] == IngressRule(Some(routes[i].hostname), routes[i].service)
  {
    match Get(c.profiles.value, name)
    case None => IngressTable([], [])
    case Some(profile) =>
      var routes := ProjectRoutes(c.projects, name, profile.rootDomain);
      var rules := seq(|routes|, i requires 0 <= i < |routes| => IngressRule(Some(routes[i].hostname), routes[i].service));
      IngressTable(rules + [CatchAll], RouteHosts(routes))
  }

  function RouteHosts(routes: seq<Route>): (hs: seq<string>)
    ensures |hs| == |routes|
    ensures forall i :: 0 <= i < |routes| ==> hs[i] == routes[i].hostname
  {
    seq(|routes|, i requires 0 <= i < |routes| => routes[i].hostname)
  }

  /**
    Every rule before the catch-all comes from a published branch of a
    project on the profile: its hostname is that branch's subdomain under
    the root domain and its service is the branch's local URL.
  */
  lemma IngressRulesComeFromPublishedBranches(c: Config, name: string, i: nat)
    requires c.profiles.Some? && Get(c.profiles.value, name).Some?
    requires i < |BuildIngressForProfile(c, name).hosts|
    ensures var t := BuildIngressForProfile(c, name);
            var rootDomain := Get(c.profiles.value, name).value.rootDomain;
            exists p, e :: && p in c.projects && p.cloudflareProfile == Some(name)
                           && e in BranchMap(p) && Published(e.1)
                           && t.hosts[i] == e.1.cloudflare.value.subdomain.value + "." + Interpolate(rootDomain)
                           && BranchRoute(e.1, rootDomain) == Some(Route(t.hosts[i], t.ingress[i].service))
  {
    var rootDomain := Get(c.profiles.value, name).value.rootDomain;
    var routes := ProjectRoutes(c.projects, name, rootDomain);
    var t := BuildIngressForProfile(c, name);
    assert t.ingress[i] == IngressRule(Some(routes[i].hostname), routes[i].service);
    assert routes[i] == Route(t.hosts[i], t.ingress[i].service);
    ProjectRoutesMembers(c.projects, name, rootDomain, routes[i]);
  }

  // ---------- updateProfile ----------

  /** A value in the tunnel's YAML document: the ingress list, or anything else, kept opaque. */
  datatype YamlValue = YamlIngress(rules: seq<IngressRule>) | YamlOther(raw: string)

  /** The file to write, its new content, and the shell commands to run after a successful write. */
  datatype SyncPlan = SyncPlan(file: string, document: OrderedMap<YamlValue>, commands: seq<string>)

  const IngressKey: string := "ingress"

  function RouteDnsCommand(tunnel: string, host: string): string {
    "cloudflared tunnel route dns " + tunnel + " " + host
  }

  function RestartCommand(service: string): string {
    "systemctl restart " + service
  }

  /**
    `updateProfile`: nothing happens for an unknown profile or one without
    `configFile` and `tunnelName`. Otherwise the loaded document (empty
    when the file is missing or unreadable) gets its `ingress` key replaced
    and nothing else changed; only when the write succeeds do the DNS
    route commands, one per host in order, and the optional restart follow.
  */
  function UpdateProfile(c: Config, name: string, loaded: Option<OrderedMap<YamlValue>>, writeOk: bool)
    : (plan: Option<SyncPlan>)
    requires c.profiles.Some?
    ensures plan.None? <==> || Get(c.profiles.value, name).None?
                            || !Truthy(Get(c.profiles.value, name).value.configFile)
                            || !Truthy(Get(c.profiles.value, name).value.tunnelName)
    ensures plan.Some? ==>
              var profile := Get(c.profiles.value, name).value;
              var before: OrderedMap<YamlValue> := if loaded.Some? then loaded.value else [];
              var table := BuildIngressForProfile(c, name);
              && plan.value.file == profile.configFile.value
              && Get(plan.value.document, IngressKey) == Some(YamlIngress(table.ingress))
              && (forall k :: k != IngressKey ==> Get(plan.value.document, k) == Get(before, k))
              && (HasKey(before, IngressKey) ==> Keys(plan.value.document) == Keys(before))
              && (!HasKey(before, IngressKey) ==> Keys(plan.value.document) == Keys(before) + [IngressKey])
              && (!writeOk ==> plan.value.commands == [])
              && (writeOk ==> |plan.value.commands| == |table.hosts| + (if Truthy(profile.serviceName) then 1 else 0))
              && (writeOk ==> forall i :: 0 <= i < |table.hosts| ==>
                                plan.value.commands[i] == RouteDnsCommand(profile.tunnelName.value, table.hosts[i]))
              && (writeOk && Truthy(profile.serviceName) ==>
                    plan.value.commands[|table.hosts|] == RestartCommand(profile.serviceName.value))
  {
    match Get(c.profiles.value, name)
    case None => None
    case Some(profile) =>
      if !Truthy(profile.configFile) || !Truthy(profile.tunnelName) then None
      else
        var table := BuildIngressForProfile(c, name);
        var before: OrderedMap<YamlValue> := if loaded.Some? then loaded.value else [];
        var after := Set(before, IngressKey, YamlIngress(table.ingress));
        assert forall k :: Get(after, k) == if k == IngressKey then Some(YamlIngress(table.ingress)) else Get(before, k) by {
          forall k { SetGet(before, IngressKey, YamlIngress(table.ingress), k); }
        }
        var routes := seq(|table.hosts|, i requires 0 <= i < |table.hosts| => RouteDnsCommand(profile.tunnelName.value, table.hosts[i]));
        var restart := if Truthy(profile.serviceName) then [RestartCommand(profile.serviceName.value)] else [];
        Some(SyncPlan(profile.configFile.value, after, if writeOk then routes + restart else []))
  }
}
