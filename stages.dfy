/**
 * The outside world the orchestrator talks to, and one specification function
 * per pipeline stage: what the stage issues and whether it succeeds, given the
 * answers of the world.
 */
module Stages {
  import opened Settings

  /** What the HTTP client reports: a response status, or a transport failure. */
  datatype ProbeResult = Status(code: int) | RequestFailed

  /** One externally visible act of the orchestrator, in the order it happened. */
  datatype Event = Command(line: string) | Probe(url: string)

  /**
   * The verdict of `run_command` for a command line, given the process
   * environment and everything issued before it: true for exit status 0,
   * false for a non-zero status or for any exception while running it.
   */
  type Runner = (map<string, string>, seq<Event>, string) -> bool

  /**
   * What an HTTP GET of a URL returns, given the process environment (the
   * client reads its proxy and certificate settings from it) and everything
   * issued before it.
   */
  type Prober = (map<string, string>, seq<Event>, string) -> ProbeResult

  /**
   * Oracles for everything outside the process: which paths exist after the
   * given history of events, what `run_command` reports, and what a GET of a
   * URL returns.
   */
  datatype World = World(
    fileExists: (seq<Event>, string) -> bool,
    run: Runner,
    httpGet: Prober)

  /** What a deployment has done so far: the process environment and the ordered event log. */
  datatype Effects = Effects(env: map<string, string>, trace: seq<Event>)

  /** The commands a hook stage issued and its verdict. */
  datatype Hooks = Hooks(commands: seq<string>, ok: bool)

  /** The environment a publish step leaves, the commands it issued and its verdict. */
  datatype Publish = Publish(env: map<string, string>, commands: seq<string>, ok: bool)

  /** The probes a health check made and its verdict. */
  datatype Health = Health(probed: seq<Event>, ok: bool)

  /** The events of issuing `lines`, in order. */
  function Commands(lines: seq<string>): (events: seq<Event>)
    ensures |events| == |lines|
    ensures forall i :: 0 <= i < |lines| ==> events[i] == Command(lines[i])
  {
    seq(|lines|, i requires 0 <= i < |lines| => Command(lines[i]))
  }

  /** Issuing `a` then `b` is issuing `a + b`. */
  lemma CommandsAppend(a: seq<string>, b: seq<string>)
    ensures Commands(a + b) == Commands(a) + Commands(b)
  {
  }

  /** The prechecks after `log`: every configured static file exists, and so does `package.json`. */
  predicate PrechecksPass(c: Config, w: World, log: seq<Event>): (ok: bool)
    ensures ok <==> (forall f :: f in StaticFiles(c) ==> w.fileExists(log, f)) && w.fileExists(log, "package.json")
  {
    && (forall i :: 0 <= i < |StaticFiles(c)| ==> w.fileExists(log, StaticFiles(c)[i]))
    && w.fileExists(log, PackageManifest)
  }

  /**
   * The prechecks read the file system as earlier commands left it: with a
   * file system where exactly the files some `rm` command named are gone,
   * they pass on an empty history and fail once `rm package.json` has run.
   */
  lemma PrechecksSeeEarlierCommands(c: Config, run: Runner, get: Prober)
    ensures var removed := (l: seq<Event>, f: string) => Command("rm " + f) !in l;
            && PrechecksPass(c, World(removed, run, get), [])
            && !PrechecksPass(c, World(removed, run, get), [Command("rm package.json")])
  {
    assert "rm " + PackageManifest == "rm package.json";
  }

  /** Hook `j` succeeds when run after `log` and after hooks `0..j-1`. */
  predicate HookPasses(run: Runner, env: map<string, string>, log: seq<Event>, hooks: seq<string>, j: int)
    requires 0 <= j < |hooks|
  {
    run(env, log + Commands(hooks[..j]), hooks[j])
  }

  /** Running the first hook and then the rest is running the whole list. */
  lemma HookPassesShift(run: Runner, env: map<string, string>, log: seq<Event>, hooks: seq<string>)
    requires hooks != []
    ensures HookPasses(run, env, log, hooks, 0) == run(env, log, hooks[0])
    ensures forall j :: 1 <= j < |hooks| ==>
              HookPasses(run, env, log, hooks, j) == HookPasses(run, env, log + [Command(hooks[0])], hooks[1..], j - 1)
    ensures forall j :: 0 <= j < |hooks| - 1 ==>
              HookPasses(run, env, log + [Command(hooks[0])], hooks[1..], j) == HookPasses(run, env, log, hooks, j + 1)
  {
    assert log + Commands(hooks[..0]) == log;
    forall j | 1 <= j < |hooks|
      ensures log + Commands(hooks[..j]) == log + [Command(hooks[0])] + Commands(hooks[1..][..j - 1])
    {
      assert hooks[..j] == [hooks[0]] + hooks[1..][..j - 1];
      CommandsAppend([hooks[0]], hooks[1..][..j - 1]);
    }
  }

  /**
   * The pre-deploy hooks: run in list order, stopping at the first one that
   * fails. What is issued is a prefix of the list; every issued hook but the
   * last succeeded; the stage fails exactly when some hook fails, and then
   * the last issued hook is the failing one.
   */
  function PreHooks(run: Runner, env: map<string, string>, log: seq<Event>, hooks: seq<string>): (r: Hooks)
    ensures |r.commands| <= |hooks| && r.commands == hooks[..|r.commands|]
    ensures forall j :: 0 <= j < |r.commands| - 1 ==> HookPasses(run, env, log, hooks, j)
    ensures r.ok <==> forall j :: 0 <= j < |hooks| ==> HookPasses(run, env, log, hooks, j)
    ensures r.ok ==> r.commands == hooks
    ensures !r.ok ==> |r.commands| > 0 && !HookPasses(run, env, log, hooks, |r.commands| - 1)
    decreases |hooks|
  {
    if hooks == [] then Hooks([], true)
    else
      HookPassesShift(run, env, log, hooks);
      if !run(env, log, hooks[0]) then Hooks([hooks[0]], false)
      else
        var rest := PreHooks(run, env, log + [Command(hooks[0])], hooks[1..]);
        Hooks([hooks[0]] + rest.commands, rest.ok)
  }

  /** If hook `k` is the first to fail, exactly hooks `0..k` are issued and the stage fails. */
  lemma PreHooksStopAtFirstFailure(run: Runner, env: map<string, string>, log: seq<Event>, hooks: seq<string>, k: nat)
    requires k < |hooks|
    requires forall j :: 0 <= j < k ==> HookPasses(run, env, log, hooks, j)
    requires !HookPasses(run, env, log, hooks, k)
    ensures PreHooks(run, env, log, hooks) == Hooks(hooks[..k + 1], false)
  {
  }

  /** If every hook succeeds, every hook is issued in order and the stage succeeds. */
  lemma PreHooksAllPass(run: Runner, env: map<string, string>, log: seq<Event>, hooks: seq<string>)
    requires forall j :: 0 <= j < |hooks| ==> HookPasses(run, env, log, hooks, j)
    ensures PreHooks(run, env, log, hooks) == Hooks(hooks, true)
  {
  }

  /**
   * A hook listed twice is run twice, and its second run may fail where the
   * first passed: the verdict may depend on what ran before.
   */
  lemma RepeatedHookRunsAgain(env: map<string, string>, log: seq<Event>, hook: string)
    ensures var firstRunOnly: Runner := (e, l, h) => l == log;
            PreHooks(firstRunOnly, env, log, [hook, hook]) == Hooks([hook, hook], false)
  {
  }

  /**
   * The Vercel publish: inject the server's environment variables (overwriting,
   * leaving every other key as it was), run the build under the injected
   * environment after `log`, and only if it succeeds run the publish command
   * after the build.
   */
  function VercelStep(run: Runner, env: map<string, string>, log: seq<Event>, s: ServerConfig): (p: Publish)
    ensures forall k :: k in EnvironmentVariables(s) ==> k in p.env && p.env[k] == EnvironmentVariables(s)[k]
    ensures forall k :: k !in EnvironmentVariables(s) ==> (k in p.env <==> k in env) && (k in env ==> p.env[k] == env[k])
    ensures 1 <= |p.commands| <= 2 && p.commands[0] == BuildCommand(s)
    ensures |p.commands| == 2 <==> run(p.env, log, BuildCommand(s))
    ensures |p.commands| == 2 ==> p.commands[1] == PublishCommand(s)
    ensures p.ok <==> run(p.env, log, BuildCommand(s))
                      && run(p.env, log + [Command(BuildCommand(s))], PublishCommand(s))
  {
    var injected := env + EnvironmentVariables(s);
    var build := BuildCommand(s);
    if !run(injected, log, build) then Publish(injected, [build], false)
    else
      var deploy := PublishCommand(s);
      Publish(injected, [build, deploy], run(injected, log + [Command(build)], deploy))
  }

  /**
   * The local publish: start the dev command; it succeeds whatever the dev
   * process does, and leaves the environment alone.
   */
  function LocalStep(env: map<string, string>, s: ServerConfig): (p: Publish)
    ensures p.ok && p.env == env
    ensures p.commands == [DevCommand(s)]
  {
    Publish(env, [DevCommand(s)], true)
  }

  /**
   * The health check under `env` and after `log`: no probe without a domain;
   * otherwise exactly one probe of the health URL, passing only on status 200.
   */
  function HealthStep(c: Config, s: ServerConfig, get: Prober, env: map<string, string>, log: seq<Event>): (h: Health)
    ensures Domain(s) == "" ==> h == Health([], false)
    ensures Domain(s) != "" ==> h.probed == [Probe("https://" + Domain(s) + HealthEndpoint(c))]
    ensures h.ok <==> Domain(s) != "" && get(env, log, h.probed[0].url) == Status(200)
  {
    match HealthUrl(c, s)
    case None => Health([], false)
    case Some(url) => Health([Probe(url)], get(env, log, url) == Status(200))
  }

  /**
   * The probe's answer may depend on the environment: a client that fails
   * whenever `HTTPS_PROXY` is set passes the check under `env` without that
   * key, and fails it once the key has been injected.
   */
  lemma ProbeSeesEnvironment(c: Config, s: ServerConfig, env: map<string, string>, log: seq<Event>, proxy: string)
    requires Domain(s) != "" && "HTTPS_PROXY" !in env
    ensures var noProxy: Prober := (e, l, u) => if "HTTPS_PROXY" in e then RequestFailed else Status(200);
            && HealthStep(c, s, noProxy, env, log).ok
            && !HealthStep(c, s, noProxy, env["HTTPS_PROXY" := proxy], log).ok
  {
  }
}
