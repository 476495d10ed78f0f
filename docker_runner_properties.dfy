/**
 * What the runner's bookkeeping amounts to: `alter_options` is an overlay of the global
 * container options with a user override of the docker options, the allow-list refuses
 * a container before anything else happens, every script is validated and given a
 * default timeout before it runs, and a host script's output is what the next script
 * sees as `stdout_lines`.
 */
module DockerRunnerProperties {
  import opened Wrappers
  import opened Strings
  import opened PyValues
  import opened DockerRunnerPy

  // ----- alter_options -----

  /** A string is never one of a dictionary's key/value pairs, so the per-container overlay never runs. */
  lemma ContainerItemsNeverMatch(s: string, d: map<string, Value>)
    ensures !InItems(PyStr(s), d)
  {
  }

  /** The configuration holds `container_options` as a dictionary `conf`. */
  predicate HasContainerOptions(config: Value, conf: map<string, Value>)
  {
    config.PyDict? && "container_options" in config.entries && config.entries["container_options"] == PyDict(conf)
  }

  /** With a `'*'` dictionary and no user override, every key of `'*'` overwrites the option,
      the other options keep their values, and nothing else is added. */
  lemma AlterOverlaysStar(options: map<string, Value>, config: Value, args: Args,
                          conf: map<string, Value>, star: map<string, Value>)
    requires HasContainerOptions(config, conf) && "*" in conf && conf["*"] == PyDict(star)
    requires !Overrides(options + star)
    ensures var a := AlterSpec(options, config, args);
      && a.error == None && a.options.Keys == options.Keys + star.Keys
      && (forall k :: k in star ==> a.options[k] == star[k])
      && (forall k :: k in options && k !in star ==> a.options[k] == options[k])
  {
  }

  /** Without a `'*'` entry the options are left as they are, unless they already allow the override. */
  lemma AlterWithoutStar(options: map<string, Value>, config: Value, args: Args, conf: map<string, Value>)
    requires HasContainerOptions(config, conf) && "*" !in conf && !Overrides(options)
    ensures AlterSpec(options, config, args) == AlterEnd(options, None)
  {
    assert options + map[] == options;
  }

  /** When the merged options allow it, the docker options become the user's `--opts`
      (`None` when it was not given); every other option is the overlay's. */
  lemma AlterUserOverride(options: map<string, Value>, config: Value, args: Args,
                          conf: map<string, Value>, star: map<string, Value>)
    requires HasContainerOptions(config, conf) && "*" in conf && conf["*"] == PyDict(star)
    requires Overrides(options + star)
    ensures var a := AlterSpec(options, config, args);
      && a.error == None && a.options["docker"] == OptValue(args.opts)
      && a.options.Keys == options.Keys + star.Keys + {"docker"}
      && (forall k :: k in star && k != "docker" ==> a.options[k] == star[k])
      && (forall k :: k in options && k !in star && k != "docker" ==> a.options[k] == options[k])
  {
  }

  /** A configuration without `container_options` raises `KeyError`; one whose `'*'` is not a
      dictionary raises `AttributeError`; neither changes the options. */
  lemma AlterErrors(options: map<string, Value>, config: Value, args: Args, conf: map<string, Value>)
    ensures config.PyDict? && "container_options" !in config.entries ==>
      AlterSpec(options, config, args) == AlterEnd(options, Some(KeyError("container_options")))
    ensures HasContainerOptions(config, conf) && "*" in conf && !conf["*"].PyDict? ==>
      AlterSpec(options, config, args) == AlterEnd(options, Some(AttributeError))
  {
  }

  /** The options the runner starts from hold exactly `docker` and `scripts`, both empty strings. */
  lemma InitialOptionsShape()
    ensures InitialOptions.Keys == {"docker", "scripts"}
    ensures InitialOptions["docker"] == PyStr("") && InitialOptions["scripts"] == PyStr("")
  {
  }

  // ----- Run: admission -----

  /** The configuration holds the allow-list `allowed` as a list. */
  predicate HasAllowList(config: Value, allowed: seq<Value>)
  {
    config.PyDict? && AllowListKey in config.entries && config.entries[AllowListKey] == PyList(allowed)
  }

  /** A container missing from the allow-list is refused: `Run` returns `False` with the
      options untouched and nothing written. */
  lemma AdmissionRefuses(options: map<string, Value>, config: Value, args: Args, environ: seq<string>,
                         oracles: Oracles, allowed: seq<Value>)
    requires HasAllowList(config, allowed) && PyStr(args.docker) !in allowed
    ensures RunSpec(options, config, args, environ, oracles) == RunEnd(Returned(false), options, [])
  {
  }

  /** A container is admitted exactly when there is no allow-list or it is on the list. */
  lemma AdmissionAdmits(config: Value, docker: string, allowed: seq<Value>)
    requires config.PyDict?
    ensures AllowListKey !in config.entries ==> Admission(config, docker) == Ok(true)
    ensures HasAllowList(config, allowed) ==> Admission(config, docker) == Ok(PyStr(docker) in allowed)
  {
  }

  /** Once admitted, merged and with `--user` decoded, `Run` is the script loop over the merged
      options, with the user's ids, the environment file, the image and the decoded command
      as template variables and no `stdout_lines` yet. */
  lemma RunAfterAdmission(options: map<string, Value>, config: Value, args: Args, environ: seq<string>,
                          oracles: Oracles)
    requires Admission(config, args.docker) == Ok(true)
    requires AlterSpec(options, config, args).error == None
    requires SplitUser(args.user).Ok?
    ensures var ug := SplitUser(args.user).value;
      RunSpec(options, config, args, environ, oracles)
        == ScriptsSpec(AlterSpec(options, config, args).options, args, environ,
                       J2Vars(ug.0, ug.1, args.envfile, args.docker, Join(CmdPieces(args.cmd), " "), []), oracles)
  {
  }

  /** A `--user` without exactly one colon makes `Run` raise `ValueError` once admitted and merged. */
  lemma BadUserRaises(options: map<string, Value>, config: Value, args: Args, environ: seq<string>,
                      oracles: Oracles)
    requires Admission(config, args.docker) == Ok(true)
    requires AlterSpec(options, config, args).error == None
    requires |Split(args.user, ":")| != 2
    ensures RunSpec(options, config, args, environ, oracles).outcome == Raised(ValueError)
  {
  }

  // ----- Run: one script -----

  /** A script dictionary with an accepted type. */
  predicate TypedScript(d: map<string, Value>)
  {
    "type" in d && (d["type"] == PyStr("container") || d["type"] == PyStr("host"))
  }

  /** The script after `if 'timeout' not in elem: elem['timeout'] = 30`. */
  function Defaulted(d: map<string, Value>): (e: map<string, Value>)
    ensures e.Keys == d.Keys + {"timeout"}
    ensures e["timeout"] == (if "timeout" in d then d["timeout"] else PyInt(30))
    ensures forall k :: k in d && k != "timeout" ==> e[k] == d[k]
  {
    if "timeout" in d then d else d["timeout" := PyInt(DefaultHostTimeout)]
  }

  /** A script without a type, with a type other than `container` and `host`, or without a
      script body stops the run with `False`, the script itself unchanged. */
  lemma StepRejects(ctx: Ctx, d: map<string, Value>, lines: seq<string>)
    requires !TypedScript(d) || "script" !in d
    ensures Step(ctx, PyDict(d), lines) == Stop(PyDict(d), Returned(false))
  {
  }

  /** A script with a known type and a body passes validation with its timeout defaulted
      and goes on to be rendered and run where its type says. */
  lemma ValidatedStep(ctx: Ctx, d: map<string, Value>, lines: seq<string>)
    requires "type" in d && (d["type"] == PyStr("host") || d["type"] == PyStr("container")) && "script" in d
    ensures Step(ctx, PyDict(d), lines) == Execute(ctx, PyDict(Defaulted(d)), d["type"] == PyStr("host"), lines)
  {
    assert WithDefaultTimeout(PyDict(d)) == Ok(PyDict(Defaulted(d)));
  }

  /** Running a validated script in a container with dictionary docker options. */
  lemma ContainerExecute(ctx: Ctx, e1: map<string, Value>, lines: seq<string>, docker: map<string, Value>)
    requires "script" in e1
    requires ctx.docker == Ok(PyDict(docker))
    ensures var body := ctx.oracles.render(e1["script"], ctx.vars.(stdoutLines := lines));
      var run := ctx.oracles.runContainer(ContainerOptions(docker, ctx.args.docker, body, ctx.environ));
      Execute(ctx, PyDict(e1), false, lines) == match run
        case Output(text) => Next(PyDict(e1), lines, [text])
        case ContainerError => Next(PyDict(e1), lines, [])
        case ApiError => Stop(PyDict(e1), Raised(DockerApiError))
  {
  }

  /** A host script runs the rendered body with its timeout (30 when it had none); a non-zero
      status stops the run with `False`, otherwise its output, split into lines, becomes
      `stdout_lines` and nothing is written. */
  lemma HostStep(ctx: Ctx, d: map<string, Value>, lines: seq<string>)
    requires "type" in d && d["type"] == PyStr("host") && "script" in d
    ensures var e1 := Defaulted(d);
      var body := ctx.oracles.render(d["script"], ctx.vars.(stdoutLines := lines));
      var h := ctx.oracles.runCmd(body, e1["timeout"]);
      Step(ctx, PyDict(d), lines)
        == if h.rc != 0 then Stop(PyDict(e1), Returned(false)) else Next(PyDict(e1), Split(h.stdout, "\n"), [])
  {
    var e1 := Defaulted(d);
    assert WithDefaultTimeout(PyDict(d)) == Ok(PyDict(e1));
    assert e1["script"] == d["script"];
  }

  /** A container script runs the configured docker options with the image, the quoted
      command, the clean-up and terminal flags and the environment; its output is written,
      a `ContainerError` is only logged, and `stdout_lines` is left as it was. */
  lemma ContainerStep(ctx: Ctx, d: map<string, Value>, lines: seq<string>, docker: map<string, Value>)
    requires "type" in d && d["type"] == PyStr("container") && "script" in d
    requires ctx.docker == Ok(PyDict(docker))
    ensures var e1 := PyDict(Defaulted(d));
      var body := ctx.oracles.render(d["script"], ctx.vars.(stdoutLines := lines));
      var run := ctx.oracles.runContainer(ContainerOptions(docker, ctx.args.docker, body, ctx.environ));
      Step(ctx, PyDict(d), lines) == match run
        case Output(text) => Next(e1, lines, [text])
        case ContainerError => Next(e1, lines, [])
        case ApiError => Stop(e1, Raised(DockerApiError))
  {
    ValidatedStep(ctx, d, lines);
    ContainerExecute(ctx, Defaulted(d), lines, docker);
  }

  /** With the docker options still the initial empty string, a container script raises
      `AttributeError` at `.copy()`. */
  lemma ContainerStepNeedsDict(ctx: Ctx, d: map<string, Value>, lines: seq<string>)
    requires "type" in d && d["type"] == PyStr("container") && "script" in d
    requires ctx.docker == Ok(PyStr(""))
    ensures Step(ctx, PyDict(d), lines) == Stop(PyDict(Defaulted(d)), Raised(AttributeError))
  {
    var e1 := Defaulted(d);
    assert WithDefaultTimeout(PyDict(d)) == Ok(PyDict(e1));
    assert e1["script"] == d["script"];
  }

  // ----- Run: the loop -----

  /** A successful host script hands its output lines to the rest of the loop, and the
      script keeps its defaulted timeout. */
  lemma HostOutputFeedsNext(ctx: Ctx, elems: seq<Value>, i: nat, lines: seq<string>, d: map<string, Value>)
    requires i < |elems| && elems[i] == PyDict(d)
    requires "type" in d && d["type"] == PyStr("host") && "script" in d
    requires ctx.oracles.runCmd(ctx.oracles.render(d["script"], ctx.vars.(stdoutLines := lines)),
                                Defaulted(d)["timeout"]).rc == 0
    ensures var h := ctx.oracles.runCmd(ctx.oracles.render(d["script"], ctx.vars.(stdoutLines := lines)),
                                        Defaulted(d)["timeout"]);
      ScriptsFrom(ctx, elems, i, lines)
        == ScriptsFrom(ctx, elems[i := PyDict(Defaulted(d))], i + 1, Split(h.stdout, "\n"))
  {
    HostStep(ctx, d, lines);
    ScriptsFromStep(ctx, elems, i, lines, Step(ctx, elems[i], lines));
  }

  /** A script that stops the run ends the loop there, the later scripts untouched. */
  lemma StopEndsLoop(ctx: Ctx, elems: seq<Value>, i: nat, lines: seq<string>)
    requires i < |elems| && Step(ctx, elems[i], lines).Stop?
    ensures var s := Step(ctx, elems[i], lines);
      ScriptsFrom(ctx, elems, i, lines) == LoopEnd(s.outcome, elems[i := s.elem], [])
  {
    ScriptsFromStep(ctx, elems, i, lines, Step(ctx, elems[i], lines));
  }

  /** The end of the script list returns `True`. */
  lemma LoopEndsTrue(ctx: Ctx, elems: seq<Value>, lines: seq<string>)
    ensures ScriptsFrom(ctx, elems, |elems|, lines) == LoopEnd(Returned(true), elems, [])
  {
  }

  // ----- Run: end to end -----

  /** A configuration with global options `star`, no allow-list. */
  function GlobalConfig(star: map<string, Value>): Value
  {
    PyDict(map["container_options" := PyDict(map["*" := PyDict(star)])])
  }

  /** A loop over one successful host script returns `True` with the script defaulted. */
  lemma OneHostLoop(ctx: Ctx, d: map<string, Value>)
    requires "type" in d && d["type"] == PyStr("host") && "script" in d
    requires ctx.oracles.runCmd(ctx.oracles.render(d["script"], ctx.vars.(stdoutLines := [])),
                                Defaulted(d)["timeout"]).rc == 0
    ensures ScriptsFrom(ctx, [PyDict(d)], 0, []) == LoopEnd(Returned(true), [PyDict(Defaulted(d))], [])
  {
    var e1 := PyDict(Defaulted(d));
    var h := ctx.oracles.runCmd(ctx.oracles.render(d["script"], ctx.vars.(stdoutLines := [])), Defaulted(d)["timeout"]);
    HostOutputFeedsNext(ctx, [PyDict(d)], 0, [], d);
    LoopEndsTrue(ctx, [e1], Split(h.stdout, "\n"));
    assert [PyDict(d)][0 := e1] == [e1];
  }

  /** Under a global-only configuration the container is admitted and the options are the
      initial ones with `scripts` replaced. */
  lemma GlobalConfigAlter(args: Args, scripts: Value)
    ensures Admission(GlobalConfig(map["scripts" := scripts]), args.docker) == Ok(true)
    ensures AlterSpec(InitialOptions, GlobalConfig(map["scripts" := scripts]), args)
      == AlterEnd(map["docker" := PyStr(""), "scripts" := scripts], None)
  {
    var options := map["docker" := PyStr(""), "scripts" := scripts];
    assert Overlay(InitialOptions, map["scripts" := scripts]) == options;
  }

  /** The scripts part of `Run` over one successful host script. */
  lemma OneHostScripts(options: map<string, Value>, args: Args, environ: seq<string>, vars: J2Vars,
                       oracles: Oracles, d: map<string, Value>)
    requires "scripts" in options && options["scripts"] == PyList([PyDict(d)])
    requires "type" in d && d["type"] == PyStr("host") && "script" in d
    requires forall body, t :: oracles.runCmd(body, t).rc == 0
    ensures ScriptsSpec(options, args, environ, vars, oracles)
      == RunEnd(Returned(true), options["scripts" := PyList([PyDict(Defaulted(d))])], [])
  {
    assert Iterate(PyList([PyDict(d)]), oracles.dictOrder) == Ok([PyDict(d)]);
    OneHostLoop(Ctx(args, environ, Subscript(PyDict(options), "docker"), vars, oracles), d);
  }

  /** One host script that succeeds: `Run` returns `True`, the script in the options has
      gained its default timeout, and nothing is written. */
  lemma OneHostScriptRun(args: Args, environ: seq<string>, oracles: Oracles, d: map<string, Value>)
    requires "type" in d && d["type"] == PyStr("host") && "script" in d
    requires SplitUser(args.user).Ok?
    requires forall body, t :: oracles.runCmd(body, t).rc == 0
    ensures RunSpec(InitialOptions, GlobalConfig(map["scripts" := PyList([PyDict(d)])]), args, environ, oracles)
      == RunEnd(Returned(true), map["docker" := PyStr(""), "scripts" := PyList([PyDict(Defaulted(d))])], [])
  {
    var options := map["docker" := PyStr(""), "scripts" := PyList([PyDict(d)])];
    GlobalConfigAlter(args, PyList([PyDict(d)]));
    RunAfterAdmission(InitialOptions, GlobalConfig(map["scripts" := PyList([PyDict(d)])]), args, environ, oracles);
    var ug := SplitUser(args.user).value;
    var vars := J2Vars(ug.0, ug.1, args.envfile, args.docker, Join(CmdPieces(args.cmd), " "), []);
    OneHostScripts(options, args, environ, vars, oracles, d);
    assert options["scripts" := PyList([PyDict(Defaulted(d))])]
      == map["docker" := PyStr(""), "scripts" := PyList([PyDict(Defaulted(d))])];
  }

  /** The host script `{'type': 'host', 'script': s}` gains `'timeout': 30`. */
  lemma HostScriptDefault(script: Value)
    ensures Defaulted(map["type" := PyStr("host"), "script" := script])
      == map["type" := PyStr("host"), "script" := script, "timeout" := PyInt(30)]
  {
  }
}
