/**
 * The parsed deployment configuration as the orchestrator reads it, and the
 * pure lookups over it: resolving a server by name, the defaults applied when
 * a key is absent, the choice of the publish command and the health URL.
 *
 * A key the orchestrator reads with a default is an `Option` here; a chain of
 * nested lookups (`storage`, then `static_files`) is a single `Option` that is
 * `None` when any level of the chain is absent.
 */
module Settings {

  datatype Option<+T> = None | Some(value: T) {
    /** The value, or `default` when absent. */
    function GetOr(default: T): T {
      match this
      case Some(v) => v
      case None => default
    }
  }

  datatype Result<+T, +E> = Success(value: T) | Failure(error: E)

  /** One entry of the `servers` mapping. */
  datatype ServerConfig = ServerConfig(
    name: Option<string>,                               // display label, e.g. "Production"
    kind: Option<string>,                               // the `type` key
    domain: Option<string>,
    environmentVariables: Option<map<string, string>>,
    buildCommand: Option<string>,                       // build_settings.build_command
    devCommand: Option<string>)                         // build_settings.dev_command

  /** The whole configuration document, loaded once and never changed. */
  datatype Config = Config(
    servers: Option<map<string, ServerConfig>>,
    staticFiles: Option<seq<string>>,                   // storage.static_files
    preDeploy: Option<seq<string>>,                     // deployment_scripts.pre_deploy
    postDeploy: Option<seq<string>>,                    // deployment_scripts.post_deploy
    healthEndpoint: Option<string>)                     // monitoring.health_check.endpoint

  /** Why a server name cannot be resolved: it carries every configured name. */
  datatype LookupError = UnknownServer(requested: string, available: set<string>)

  const DefaultServerType := "unknown"
  const DefaultBuildCommand := "npm run build"
  const DefaultDevCommand := "npm run dev"
  const DefaultHealthEndpoint := "/api/keep_alive"
  const PackageManifest := "package.json"
  const ProductionName := "Production"
  const ProductionPublish := "vercel --prod"
  const PreviewPublish := "vercel"
  const HealthScheme := "https://"

  function Servers(c: Config): map<string, ServerConfig> { c.servers.GetOr(map[]) }
  function StaticFiles(c: Config): seq<string> { c.staticFiles.GetOr([]) }
  function PreDeployHooks(c: Config): seq<string> { c.preDeploy.GetOr([]) }
  function PostDeployHooks(c: Config): seq<string> { c.postDeploy.GetOr([]) }
  function HealthEndpoint(c: Config): string { c.healthEndpoint.GetOr(DefaultHealthEndpoint) }

  function ServerType(s: ServerConfig): string { s.kind.GetOr(DefaultServerType) }
  function Domain(s: ServerConfig): string { s.domain.GetOr("") }
  function EnvironmentVariables(s: ServerConfig): map<string, string> { s.environmentVariables.GetOr(map[]) }
  function BuildCommand(s: ServerConfig): string { s.buildCommand.GetOr(DefaultBuildCommand) }
  function DevCommand(s: ServerConfig): string { s.devCommand.GetOr(DefaultDevCommand) }

  /** Every key read with a default takes that default when it is absent. */
  lemma AbsentKeysTakeDefaults(c: Config, s: ServerConfig)
    ensures c.servers.None? ==> Servers(c) == map[]
    ensures c.staticFiles.None? ==> StaticFiles(c) == []
    ensures c.preDeploy.None? ==> PreDeployHooks(c) == []
    ensures c.postDeploy.None? ==> PostDeployHooks(c) == []
    ensures c.healthEndpoint.None? ==> HealthEndpoint(c) == "/api/keep_alive"
    ensures s.kind.None? ==> ServerType(s) == "unknown"
    ensures s.domain.None? ==> Domain(s) == ""
    ensures s.environmentVariables.None? ==> EnvironmentVariables(s) == map[]
    ensures s.buildCommand.None? ==> BuildCommand(s) == "npm run build"
    ensures s.devCommand.None? ==> DevCommand(s) == "npm run dev"
  {
  }

  /**
   * Resolves a server by name. An unknown name (including every name when the
   * configuration has no `servers` key) is an error listing all configured names.
   */
  function GetServerConfig(c: Config, name: string): (r: Result<ServerConfig, LookupError>)
    ensures r.Success? <==> name in Servers(c)
    ensures r.Success? ==> r.value == Servers(c)[name]
    ensures r.Failure? ==> r.error.requested == name && r.error.available == Servers(c).Keys
  {
    var servers := Servers(c);
    if name !in servers then Failure(UnknownServer(name, servers.Keys)) else Success(servers[name])
  }

  /** The platform publish command: the production flag only for the server labelled "Production". */
  function PublishCommand(s: ServerConfig): (command: string)
    ensures command == "vercel --prod" <==> s.name == Some("Production")
    ensures command == "vercel --prod" || command == "vercel"
  {
    if s.name == Some(ProductionName) then ProductionPublish else PreviewPublish
  }

  /**
   * The URL the health probe requests, or `None` when the server has no
   * domain (absent or empty). The URL splits back into the scheme, the domain
   * and the endpoint.
   */
  function HealthUrl(c: Config, s: ServerConfig): (url: Option<string>)
    ensures url.None? <==> Domain(s) == ""
    ensures url.Some? ==>
      var d, e := Domain(s), HealthEndpoint(c);
      && |url.value| == 8 + |d| + |e|
      && url.value[..8] == "https://"
      && url.value[8..8 + |d|] == d
      && url.value[8 + |d|..] == e
  {
    var domain := Domain(s);
    if domain == "" then None
    else
      var url := HealthScheme + domain + HealthEndpoint(c);
      assert url[..8] == HealthScheme;
      assert url[8..8 + |domain|] == domain;
      assert url[8 + |domain|..] == HealthEndpoint(c);
      Some(url)
  }
}
