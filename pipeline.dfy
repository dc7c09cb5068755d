/**
 * One deployment of a named server, as a function of the configuration, the
 * world's answers and the effects so far: resolve, precheck, pre-deploy
 * hooks, publish by type, health check (not for `local`), post-deploy hooks.
 * The lemmas state the failure policy of each stage.
 */
module Pipeline {
  import opened Settings
  import opened Stages

  /**
   * The outcome of `deploy` and what it did. `Failure` is the unknown-server
   * exit; `Success(b)` is the boolean the orchestrator returns.
   */
  datatype Run = Run(result: Result<bool, LookupError>, effects: Effects)

  /**
   * The whole pipeline. It only ever appends to the event log; it fails with
   * the list of names exactly when the name is unknown, and then does nothing;
   * the only change to the environment is the injection of the server's
   * variables.
   */
  function Deployment(c: Config, w: World, name: string, before: Effects): (r: Run)
    ensures r.result.Failure? <==> name !in Servers(c)
    ensures r.result.Failure? ==> r.result.error == UnknownServer(name, Servers(c).Keys) && r.effects == before
    ensures |before.trace| <= |r.effects.trace| && r.effects.trace[..|before.trace|] == before.trace
    ensures || r.effects.env == before.env
            || (name in Servers(c) && r.effects.env == before.env + EnvironmentVariables(Servers(c)[name]))
  {
    match GetServerConfig(c, name)
    case Failure(e) => Run(Failure(e), before)
    case Success(s) =>
      if !PrechecksPass(c, w, before.trace) then Run(Success(false), before)
      else
        var pre := PreHooks(w.run, before.env, before.trace, PreDeployHooks(c));
        var afterPre := before.(trace := before.trace + Commands(pre.commands));
        if !pre.ok then Run(Success(false), afterPre)
        else
          var serverType := ServerType(s);
          if serverType != "vercel" && serverType != "local" then Run(Success(false), afterPre)
          else
            var p := if serverType == "vercel" then VercelStep(w.run, afterPre.env, afterPre.trace, s) else LocalStep(afterPre.env, s);
            var published := Effects(p.env, afterPre.trace + Commands(p.commands));
            if !p.ok then Run(Success(false), published)
            else
              var checked :=
                if serverType != "local"
                then published.(trace := published.trace + HealthStep(c, s, w.httpGet, published.env, published.trace).probed)
                else published;
              Run(Success(true), checked.(trace := checked.trace + Commands(PostDeployHooks(c))))
  }

  /** An unknown server name changes nothing and reports every configured name. */
  lemma UnknownServerHasNoEffects(c: Config, w: World, name: string, before: Effects)
    requires name !in Servers(c)
    ensures Deployment(c, w, name, before) == Run(Failure(UnknownServer(name, Servers(c).Keys)), before)
  {
  }

  /** A missing static file or `package.json` fails the deployment before any command is issued. */
  lemma FailedPrechecksHaveNoEffects(c: Config, w: World, name: string, before: Effects)
    requires name in Servers(c)
    requires !PrechecksPass(c, w, before.trace)
    ensures Deployment(c, w, name, before) == Run(Success(false), before)
  {
  }

  /**
   * If pre-deploy hook `k` is the first to fail, the deployment fails having
   * issued exactly hooks `0..k`: nothing is published, probed or run afterwards.
   */
  lemma PreHookFailureIsFatal(c: Config, w: World, name: string, before: Effects, k: nat)
    requires name in Servers(c) && PrechecksPass(c, w, before.trace)
    requires k < |PreDeployHooks(c)|
    requires forall j :: 0 <= j < k ==> HookPasses(w.run, before.env, before.trace, PreDeployHooks(c), j)
    requires !HookPasses(w.run, before.env, before.trace, PreDeployHooks(c), k)
    ensures Deployment(c, w, name, before)
         == Run(Success(false), before.(trace := before.trace + Commands(PreDeployHooks(c)[..k + 1])))
  {
  }

  /** The server resolves, the prechecks pass and every pre-deploy hook succeeds. */
  ghost predicate ReadyToPublish(c: Config, w: World, name: string, before: Effects) {
    && name in Servers(c)
    && PrechecksPass(c, w, before.trace)
    && forall j :: 0 <= j < |PreDeployHooks(c)| ==> HookPasses(w.run, before.env, before.trace, PreDeployHooks(c), j)
  }

  /**
   * A type other than `vercel` and `local` (an absent type reads as `unknown`)
   * fails after the pre-deploy hooks: no publish, health or post-deploy command.
   */
  lemma UnknownTypeIsFatal(c: Config, w: World, name: string, before: Effects)
    requires ReadyToPublish(c, w, name, before)
    requires ServerType(Servers(c)[name]) != "vercel" && ServerType(Servers(c)[name]) != "local"
    ensures Deployment(c, w, name, before)
         == Run(Success(false), before.(trace := before.trace + Commands(PreDeployHooks(c))))
  {
  }

  /**
   * A `local` server succeeds once the pre-deploy hooks pass: it issues the
   * hooks, the dev command and every post-deploy hook, and probes nothing.
   */
  lemma LocalDeployment(c: Config, w: World, name: string, before: Effects)
    requires ReadyToPublish(c, w, name, before)
    requires ServerType(Servers(c)[name]) == "local"
    ensures Deployment(c, w, name, before)
         == Run(Success(true), before.(trace := before.trace
                                                 + Commands(PreDeployHooks(c) + [DevCommand(Servers(c)[name])] + PostDeployHooks(c))))
  {
  }

  /**
   * A `vercel` server: the variables are injected; the build runs under them
   * after the pre-deploy hooks; the publish command runs only after a
   * successful build; the health probe comes right after a successful
   * publish and before every post-deploy hook; the result is success exactly
   * when build and publish both succeed.
   */
  lemma VercelDeployment(c: Config, w: World, name: string, before: Effects)
    requires ReadyToPublish(c, w, name, before)
    requires ServerType(Servers(c)[name]) == "vercel"
    ensures
      var s := Servers(c)[name];
      var env := before.env + EnvironmentVariables(s);
      var build, publish := BuildCommand(s), PublishCommand(s);
      var afterPre := before.trace + Commands(PreDeployHooks(c));
      var afterPublish := afterPre + [Command(build), Command(publish)];
      var r := Deployment(c, w, name, before);
      && (!w.run(env, afterPre, build) ==>
            r == Run(Success(false), Effects(env, afterPre + [Command(build)])))
      && (w.run(env, afterPre, build) && !w.run(env, afterPre + [Command(build)], publish) ==>
            r == Run(Success(false), Effects(env, afterPublish)))
      && (w.run(env, afterPre, build) && w.run(env, afterPre + [Command(build)], publish) ==>
            r == Run(Success(true), Effects(env, afterPublish + HealthStep(c, s, w.httpGet, env, afterPublish).probed
                                                 + Commands(PostDeployHooks(c)))))
  {
  }

  /**
   * The deployment succeeds if and only if the server resolves, the prechecks
   * and every pre-deploy hook pass, and the type is `local`, or `vercel` with
   * a successful build and publish. The health probe's answer and the
   * post-deploy hooks' outcomes do not appear: they never change the result.
   */
  lemma DeploymentSucceedsIff(c: Config, w: World, name: string, before: Effects)
    ensures Deployment(c, w, name, before).result == Success(true)
        <==> && ReadyToPublish(c, w, name, before)
             && var s := Servers(c)[name];
                var env := before.env + EnvironmentVariables(s);
                var afterPre := before.trace + Commands(PreDeployHooks(c));
                || ServerType(s) == "local"
                || (&& ServerType(s) == "vercel"
                    && w.run(env, afterPre, BuildCommand(s))
                    && w.run(env, afterPre + [Command(BuildCommand(s))], PublishCommand(s)))
  {
  }

  /** The health probe's answer never changes anything the deployment does or returns. */
  lemma HealthAnswerIsIrrelevant(c: Config, w: World, name: string, before: Effects, get: Prober)
    ensures Deployment(c, w.(httpGet := get), name, before) == Deployment(c, w, name, before)
  {
  }

  /**
   * A deployment that does not succeed probes nothing, and what it issued is
   * a prefix of the pre-deploy hooks followed by the build and publish
   * commands: no post-deploy hook ever runs after a fatal failure.
   */
  lemma FailureStopsThePipeline(c: Config, w: World, name: string, before: Effects)
    requires Deployment(c, w, name, before).result != Success(true)
    ensures
      var r := Deployment(c, w, name, before);
      var added := r.effects.trace[|before.trace|..];
      && (name !in Servers(c) ==> added == [])
      && (name in Servers(c) ==>
            var s := Servers(c)[name];
            var fatal := PreDeployHooks(c) + [BuildCommand(s), PublishCommand(s)];
            |added| <= |fatal| && added == Commands(fatal[..|added|]))
  {
  }
}
