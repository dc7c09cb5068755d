/**
 * The deployment orchestrator. A `Deployer` holds the loaded configuration,
 * the world it deploys into, and what it has changed or issued so far: the
 * process environment (written by the Vercel step) and the ordered log of
 * commands issued and URLs probed. Every method is proved against the stage
 * specifications, and `Deploy` against the whole-pipeline specification.
 */
module Orchestrator {
  import opened Settings
  import opened Stages
  import opened Pipeline

  class Deployer {
    const config: Config
    const world: World
    var env: map<string, string>
    var trace: seq<Event>

    /** Everything the deployer has changed or issued so far. */
    function Current(): Effects
      reads this
    {
      Effects(env, trace)
    }

    /** A deployer over a parsed configuration, starting from the process environment `env`. */
    constructor (config: Config, world: World, env: map<string, string>)
      ensures this.config == config && this.world == world
      ensures Current() == Effects(env, [])
    {
      this.config := config;
      this.world := world;
      this.env := env;
      this.trace := [];
    }

    /** Issues one command under the current environment and after everything issued so far. */
    method RunCommand(command: string) returns (ok: bool)
      modifies this`trace
      ensures trace == old(trace) + [Command(command)]
      ensures ok == world.run(env, old(trace), command)
    {
      ok := world.run(env, trace, command);
      trace := trace + [Command(command)];
    }

    /** Succeeds iff every configured static file exists and `package.json` exists now; issues nothing. */
    method PreDeployChecks() returns (ok: bool)
      ensures ok == PrechecksPass(config, world, trace)
    {
      var files := StaticFiles(config);
      var i := 0;
      while i < |files|
        invariant 0 <= i <= |files|
        invariant forall j :: 0 <= j < i ==> world.fileExists(trace, files[j])
      {
        if !world.fileExists(trace, files[i]) {
          return false;
        }
        i := i + 1;
      }
      ok := world.fileExists(trace, PackageManifest);
    }

    /** Runs the pre-deploy hooks in order, stopping at the first failure. */
    method RunPreDeployScripts() returns (ok: bool)
      modifies this`trace
      ensures trace == old(trace) + Commands(PreHooks(world.run, env, old(trace), PreDeployHooks(config)).commands)
      ensures ok == PreHooks(world.run, env, old(trace), PreDeployHooks(config)).ok
    {
      var scripts := PreDeployHooks(config);
      if scripts == [] {
        return true;
      }
      var i := 0;
      while i < |scripts|
        invariant 0 <= i <= |scripts|
        invariant trace == old(trace) + Commands(scripts[..i])
        invariant forall j :: 0 <= j < i ==> HookPasses(world.run, env, old(trace), scripts, j)
      {
        var passed := RunCommand(scripts[i]);
        assert passed == HookPasses(world.run, env, old(trace), scripts, i);
        assert scripts[..i + 1] == scripts[..i] + [scripts[i]];
        CommandsAppend(scripts[..i], [scripts[i]]);
        if !passed {
          PreHooksStopAtFirstFailure(world.run, env, old(trace), scripts, i);
          return false;
        }
        i := i + 1;
      }
      assert scripts[..i] == scripts;
      PreHooksAllPass(world.run, env, old(trace), scripts);
      ok := true;
    }

    /**
     * Publishes to Vercel: writes every configured variable into the
     * environment, keeping all other keys, then builds and publishes.
     */
    method DeployToVercel(s: ServerConfig) returns (ok: bool)
      modifies this`env, this`trace
      ensures forall k :: k in EnvironmentVariables(s) ==> k in env && env[k] == EnvironmentVariables(s)[k]
      ensures forall k :: k !in EnvironmentVariables(s) ==> (k in env <==> k in old(env)) && (k in env ==> env[k] == old(env)[k])
      ensures env == VercelStep(world.run, old(env), old(trace), s).env
      ensures trace == old(trace) + Commands(VercelStep(world.run, old(env), old(trace), s).commands)
      ensures ok == VercelStep(world.run, old(env), old(trace), s).ok
    {
      var vars := EnvironmentVariables(s);
      var pending := vars.Keys;
      while pending != {}
        modifies this`env
        invariant pending <= vars.Keys
        invariant forall k :: k in vars && k !in pending ==> k in env && env[k] == vars[k]
        invariant forall k :: (k !in vars || k in pending) ==> (k in env <==> k in old(env)) && (k in env ==> env[k] == old(env)[k])
        decreases pending
      {
        var key :| key in pending;
        env := env[key := vars[key]];
        pending := pending - {key};
      }
      assert env == old(env) + vars;

      var built := RunCommand(BuildCommand(s));
      if !built {
        return false;
      }
      var published := RunCommand(PublishCommand(s));
      assert Commands([BuildCommand(s), PublishCommand(s)]) == [Command(BuildCommand(s)), Command(PublishCommand(s))];
      if !published {
        return false;
      }
      ok := true;
    }

    /** Starts the dev server; the result is success whatever the dev process does. */
    method DeployToLocal(s: ServerConfig) returns (ok: bool)
      modifies this`trace
      ensures trace == old(trace) + Commands(LocalStep(env, s).commands)
      ensures ok
    {
      trace := trace + [Command(DevCommand(s))];
      ok := true;
    }

    /** Probes the health URL once, under the current environment, when the server has a domain; passes only on status 200. */
    method HealthCheck(s: ServerConfig) returns (ok: bool)
      modifies this`trace
      ensures trace == old(trace) + HealthStep(config, s, world.httpGet, env, old(trace)).probed
      ensures ok == HealthStep(config, s, world.httpGet, env, old(trace)).ok
    {
      match HealthUrl(config, s)
      case None =>
        ok := false;
      case Some(url) =>
        var response := world.httpGet(env, trace, url);
        trace := trace + [Probe(url)];
        ok := response == Status(200);
    }

    /** Runs every post-deploy hook once, in order, whatever each returns, and always succeeds. */
    method RunPostDeployScripts() returns (ok: bool)
      modifies this`trace
      ensures trace == old(trace) + Commands(PostDeployHooks(config))
      ensures ok
    {
      var scripts := PostDeployHooks(config);
      if scripts == [] {
        return true;
      }
      var i := 0;
      while i < |scripts|
        invariant 0 <= i <= |scripts|
        invariant trace == old(trace) + Commands(scripts[..i])
      {
        var _ := RunCommand(scripts[i]);
        assert scripts[..i + 1] == scripts[..i] + [scripts[i]];
        CommandsAppend(scripts[..i], [scripts[i]]);
        i := i + 1;
      }
      assert scripts[..i] == scripts;
      ok := true;
    }

    /** Deploys the named server: the whole pipeline, with its per-stage failure policy. */
    method Deploy(name: string) returns (result: Result<bool, LookupError>)
      modifies this`env, this`trace
      ensures Run(result, Current()) == Deployment(config, world, name, old(Current()))
    {
      var found := GetServerConfig(config, name);
      if found.Failure? {
        return Failure(found.error);
      }
      var s := found.value;

      var passed := PreDeployChecks();
      if !passed {
        return Success(false);
      }
      passed := RunPreDeployScripts();
      if !passed {
        return Success(false);
      }

      var serverType := ServerType(s);
      var success;
      if serverType == "vercel" {
        success := DeployToVercel(s);
      } else if serverType == "local" {
        success := DeployToLocal(s);
      } else {
        return Success(false);
      }
      if !success {
        return Success(false);
      }

      if serverType != "local" {
        // A failed health check is only a warning.
        var _ := HealthCheck(s);
      }
      // Failed post-deploy hooks are only warnings.
      var _ := RunPostDeployScripts();
      return Success(true);
    }
  }
}
