# Deployment orchestrator model

A Dafny model of the `Deployer` class in `deploy.py`. It deploys a website to one named
server from a configuration document, in a strictly forward pipeline:

1. Resolve the server name.
2. Run the prechecks: every `storage.static_files` path and `package.json` must exist.
3. Run the pre-deploy hooks. The first failure is fatal.
4. Publish according to the server `type`: `vercel` builds and publishes, `local` starts the dev server, and any other type is fatal.
5. Run the health check. It is skipped for `local`, and a failure is only a warning.
6. Run the post-deploy hooks. A failure is only a warning, and the remaining hooks still run.

The outside world is a `World` value made of three oracles:
- which paths exist, given the event log so far, so that a command issued by an earlier `deploy` on the same deployer can create or remove files;
- the verdict of `run_command` for a command line: true for exit status 0, false for a non-zero status or for any exception raised while running it (deploy.py:52-64);
- what an HTTP GET of a URL returns: a status code, or a transport failure.

Everything the orchestrator does outside the process goes into one ordered event log: `Command(line)` for each command issued, and `Probe(url)` for each health probe. The command and HTTP oracles receive the process environment and the log so far (the HTTP client takes its proxy and certificate settings from the environment, which the Vercel step has just written). So a verdict may depend on what ran before: the same hook listed twice may pass and then fail, and the publish may depend on the build. Because the build's verdict is taken under the injected environment, "the Vercel variables are injected before the build" is a checked fact.

The prechecks include `package.json` as well as the static files (deploy.py:77-80).

Files:
- `settings.dfy` (module `Settings`): the parsed configuration as datatypes. It also holds the defaults applied to absent keys, the server lookup, the publish-command choice and the health URL.
- `stages.dfy` (module `Stages`): the oracles, the event log, and one specification function per stage: prechecks, pre-deploy hooks, Vercel publish, local publish and health check.
- `pipeline.dfy` (module `Pipeline`): `Deployment`, the whole `deploy` call as a function of the configuration, the world and the effects so far. Its lemmas state the failure policy.
- `deployer.dfy` (module `Orchestrator`): the class `Deployer`. Its fields are the environment map and the event log. Each method is proved against the matching stage function, and `Deploy` is proved against `Deployment`.

`get_server_config` ends the process when the name is unknown. Here that exit is the result
`Failure(UnknownServer(name, configured names))`, and `deploy` returns `Result<bool, LookupError>`.

## Model

| member | source | states |
|---|---|---|
| `Settings.AbsentKeysTakeDefaults` | deploy.py:35-190 | Absent keys take the fallbacks of the source's `.get` calls (deploy.py:35, 71, 87, 104, 109, 124, 141, 146, 163, 190): no servers, no static files, no hooks, no variables, no domain, type `"unknown"`, build `"npm run build"`, dev `"npm run dev"`, health endpoint `"/api/keep_alive"` |
| `Settings.GetServerConfig` | deploy.py:33-39 | A name resolves iff it is a configured server, to that server's entry; otherwise the error carries the requested name and the set of all configured names |
| `Settings.PublishCommand` | deploy.py:114 | The command is `"vercel --prod"` exactly when the server's `name` is `"Production"`, and `"vercel"` otherwise |
| `Settings.HealthUrl` | deploy.py:141-147 | No URL iff the domain is absent or empty; otherwise the URL is `https://`, then the domain, then the endpoint (each recoverable by slicing) |
| `Stages.PrechecksPass` | deploy.py:66-83 | The prechecks pass iff every path listed in `storage.static_files` exists and `package.json` exists, as the file system stands after the log so far |
| `Stages.PrechecksSeeEarlierCommands` | deploy.py:73-80 | The prechecks read the live file system: when `rm package.json` has run earlier, the same configuration that passed on an empty history fails |
| `Stages.PreHooks` | deploy.py:85-97 | Issued hooks are a prefix of the list; all but the last issued succeeded; the stage succeeds iff every hook succeeds, and then all were issued; on failure the last issued hook is the failing one |
| `Stages.PreHooksStopAtFirstFailure` | deploy.py:92-95 | If hook k is the first to fail, exactly hooks 0..k are issued, in order, and the stage fails |
| `Stages.PreHooksAllPass` | deploy.py:92-97 | If every hook succeeds, every hook is issued in list order and the stage succeeds (an empty list issues nothing) |
| `Stages.RepeatedHookRunsAgain` | deploy.py:92-95 | Each listed hook is run again even when the same command appeared before; with an oracle that passes only the first run, the list `[h, h]` issues both and the stage fails on the second |
| `Stages.VercelStep` | deploy.py:99-118 | Every configured variable maps to its value and every other key is unchanged; the build command comes first and runs under the injected environment; the publish command is issued only after a successful build; success iff both succeed |
| `Stages.LocalStep` | deploy.py:120-135 | The local step issues only the dev command, leaves the environment alone, and succeeds whatever the dev process does |
| `Stages.HealthStep` | deploy.py:137-159 | Without a domain there is no probe and the check fails; otherwise exactly one probe of `https://` + domain + endpoint, passing iff the status answered under the environment and the log so far is 200 (any other status or a transport failure fails) |
| `Stages.ProbeSeesEnvironment` | deploy.py:150 | The probe's answer may depend on the environment the Vercel step wrote: a client that fails whenever `HTTPS_PROXY` is set passes without the key and fails once it is injected |
| `Pipeline.Deployment` | deploy.py:175-211 | `deploy` as a whole: it only appends to the event log; it fails with the list of configured names iff the name is unknown, and then changes nothing; the only change to the environment is the injection of the resolved server's variables |
| `Pipeline.UnknownServerHasNoEffects` | deploy.py:175-179 | An unknown name issues nothing, probes nothing, leaves the environment unchanged, and reports every configured name |
| `Pipeline.FailedPrechecksHaveNoEffects` | deploy.py:181-183 | A missing static file or `package.json` makes `deploy` return false with nothing issued, probed or written |
| `Pipeline.PreHookFailureIsFatal` | deploy.py:185-187 | If pre-deploy hook k is the first to fail, `deploy` returns false having issued exactly hooks 0..k, with no publish, probe or post-deploy hook |
| `Pipeline.UnknownTypeIsFatal` | deploy.py:189-197 | A type other than `vercel` or `local` (absent reads as `"unknown"`) returns false after the pre-deploy hooks; no publish, health or post-deploy command, and the environment is unchanged |
| `Pipeline.LocalDeployment` | deploy.py:193-211 | A `local` deployment whose earlier stages pass returns true; it issues the pre-deploy hooks, the dev command and every post-deploy hook, and probes nothing |
| `Pipeline.VercelDeployment` | deploy.py:191-211 | A `vercel` deployment injects the variables, then issues the build after the pre-deploy hooks; if the build fails, it stops and returns false. After a successful build it issues the publish; if that fails, it stops and returns false. After a successful publish the log holds the probe next, then every post-deploy hook, and the result is true |
| `Pipeline.DeploymentSucceedsIff` | deploy.py:175-211 | `deploy` returns true iff the name resolves, the prechecks and all pre-deploy hooks pass, and the type is `local`, or `vercel` with a successful build and publish; health and post-deploy outcomes do not enter |
| `Pipeline.HealthAnswerIsIrrelevant` | deploy.py:202-205 | Replacing the HTTP oracle changes nothing: the result, the environment and the event log (probes included) are all the same |
| `Pipeline.FailureStopsThePipeline` | deploy.py:181-200 | A deployment that does not return true probes nothing, and what it issued is a prefix of the pre-deploy hooks followed by the build and publish commands |
| `Orchestrator.Deployer.constructor` | deploy.py:17-19 | A deployer holds the given parsed configuration and world, starts from the given environment, and has an empty event log |
| `Orchestrator.Deployer.RunCommand` | deploy.py:41-64 | Appends the command to the event log; returns the oracle's `run_command` verdict under the current environment and the log before it |
| `Orchestrator.Deployer.PreDeployChecks` | deploy.py:66-83 | The loop with early return succeeds iff every static file exists and `package.json` exists after the log so far, and it issues nothing |
| `Orchestrator.Deployer.RunPreDeployScripts` | deploy.py:85-97 | The loop with early return issues exactly `PreHooks`' commands and returns its verdict |
| `Orchestrator.Deployer.DeployToVercel` | deploy.py:99-118 | The loop writes every variable into `env` and keeps all other keys. It then issues the build and publish commands and returns what `VercelStep` specifies |
| `Orchestrator.Deployer.DeployToLocal` | deploy.py:120-135 | Issues the dev command and returns true |
| `Orchestrator.Deployer.HealthCheck` | deploy.py:137-159 | Appends to the log and returns exactly what `HealthStep` specifies, the HTTP answer taken under the current environment and after the log so far |
| `Orchestrator.Deployer.RunPostDeployScripts` | deploy.py:161-173 | Issues every post-deploy hook once, in list order, whatever each returns, and returns true |
| `Orchestrator.Deployer.Deploy` | deploy.py:175-211 | The final result, environment and event log are exactly those of `Deployment` from the starting state |

## Left out

- Loading and parsing the YAML document, and its not-found and malformed errors (deploy.py:21-31). The model starts from a parsed `Config`. YAML `null` values and non-string variable values (which would raise in Python) are not representable.
- The `ValueError` that `os.environ[key] = value` raises for an empty key, a key containing `=`, or a key or value containing a NUL character (deploy.py:106). Nothing catches it, so the source crashes after the pre-deploy hooks. `Stages.VercelStep` and `Orchestrator.Deployer.DeployToVercel` write any key and go on to the build.
- `subprocess.run`, shell semantics, the `cwd` argument (never passed by the orchestrator), and the printing of captured output (deploy.py:41-64). A command is reduced to `run_command`'s boolean verdict, given by the oracle.
- The `requests` client and its 10-second timeout (deploy.py:150). The probe is an oracle returning a status or a transport failure.
- `os.path.exists` (deploy.py:73, 78): it is the `fileExists` oracle, which answers for the file system as the event log so far has left it, not a real file system.
- `port` and the printed local URL (deploy.py:125-128): they are only printed.
- The blocking dev server and the `KeyboardInterrupt` handler (deploy.py:130-133). Only their result is modelled: the local step always succeeds.
- All progress and warning messages, `sys.exit` after an unknown name (it is the `Failure` result), `list_servers` and `main` (deploy.py:213-240). These are console input and output.
- `Settings.GetServerConfig`: the source prints the configured names as a list in configuration order (deploy.py:37). The model reports them as a set, so that order is not kept.
- `os.environ` is written in dictionary order. The final environment does not depend on that order, so the model writes the keys in an unspecified order.
- `Pipeline.Deployment` does not consult the command oracle for post-deploy hooks, because their outcomes are discarded. `Orchestrator.Deployer.RunPostDeployScripts` does issue each hook through `RunCommand`.
