/**
 * The runner `docker_runner.py` that the plugin's command line starts. It reads the
 * environment file, admits the container against the configured allow-list, merges
 * the configured container options, decodes `--user` and `--cmd`, then walks the
 * configured scripts: each is validated, given a default timeout, rendered and run on
 * the host or in the container.
 */
module DockerRunnerPy {
  import opened Wrappers
  import opened Strings
  import opened PyValues

  /** `default_host_timeout`. */
  const DefaultHostTimeout: int := 30
  /** The token `--cmd` is split on: a backslash and the digit zero. */
  const CmdSep: string := "\\0"
  /** The configuration key of the container allow-list, spelled as the runner spells it. */
  const AllowListKey: string := "alowed_containers"

  /** The parsed command line: `--docker`, `--cmd` and `--user` are required, `--opts` and `--envfile` may be absent. */
  datatype Args = Args(docker: string, cmd: string, user: string, opts: Option<string>, envfile: Option<string>)

  /** An optional argument as the attribute argparse sets: the string, or `None`. */
  function OptValue(o: Option<string>): Value
  {
    match o
    case None => PyNone
    case Some(s) => PyStr(s)
  }

  /** `self.options` as `__init__` leaves it. */
  const InitialOptions: map<string, Value> := map["docker" := PyStr(""), "scripts" := PyStr("")]

  /** How `Run` ends: by returning a boolean or by raising. */
  datatype Outcome = Returned(ok: bool) | Raised(error: PyError)

  // ----- read_envfile -----

  /** `read_envfile` on the file's text: each line stripped. */
  function ReadEnvfile(text: string): (env: seq<string>)
    ensures |env| == |ReadLines(text)|
    ensures forall k :: 0 <= k < |env| ==> Stripped(env[k]) && '\n' !in env[k]
  {
    var lines := ReadLines(text);
    StripLinesNoNewline(lines);
    seq(|lines|, k requires 0 <= k < |lines| => Strip(lines[k]))
  }

  /** Stripping the lines of `readlines` removes their newlines. */
  lemma StripLinesNoNewline(lines: seq<string>)
    requires forall k, j :: 0 <= k < |lines| && 0 <= j < |lines[k]| - 1 ==> lines[k][j] != '\n'
    ensures forall k :: 0 <= k < |lines| ==> '\n' !in Strip(lines[k])
  {
    forall k | 0 <= k < |lines|
      ensures '\n' !in Strip(lines[k])
    {
      StripNoNewline(lines[k]);
    }
  }

  /** Stripping a line whose only newline can be its last character leaves none. */
  lemma StripNoNewline(line: string)
    requires forall j :: 0 <= j < |line| - 1 ==> line[j] != '\n'
    ensures '\n' !in Strip(line)
  {
    var r := Strip(line);
    var i := SpanLeft(line, 0);
    forall j | 0 <= j < |r|
      ensures r[j] != '\n'
    {
      assert r[j] == line[i + j];
      if i + j == |line| - 1 {
        assert j == |r| - 1;
      }
    }
  }

  // ----- alter_options -----

  /** `d[k] = v` for every item of `update`, in any order: `options` overlaid with `update`. */
  function Overlay(options: map<string, Value>, update: map<string, Value>): (r: map<string, Value>)
    ensures r.Keys == options.Keys + update.Keys
    ensures forall k :: k in update ==> r[k] == update[k]
    ensures forall k :: k in options && k !in update ==> r[k] == options[k]
  {
    options + update
  }

  /** `needle in d.items()`: `needle` equals one of the key/value pairs. */
  predicate InItems(needle: Value, d: map<string, Value>)
  {
    exists k | k in d :: needle == PyTuple([PyStr(k), d[k]])
  }

  /** The user-override switch is present and true. */
  predicate Overrides(options: map<string, Value>)
  {
    "allow_user_override" in options && Truthy(options["allow_user_override"])
  }

  /** The options and the exception (if any) `alter_options` leaves. */
  datatype AlterEnd = AlterEnd(options: map<string, Value>, error: Option<PyError>)

  /** `alter_options` as a function of the options before it; the per-container overlay is
      left out because its guard never holds (`ContainerItemsNeverMatch`). */
  function AlterSpec(options: map<string, Value>, config: Value, args: Args): AlterEnd
  {
    match Subscript(config, "container_options")
    case Err(e) => AlterEnd(options, Some(e))
    case Ok(conf) =>
      match PyIn(PyStr("*"), conf)
      case Err(e) => AlterEnd(options, Some(e))
      case Ok(hasStar) =>
        var star := if hasStar then StarEntries(conf) else Ok(map[]);
        match star
        case Err(e) => AlterEnd(options, Some(e))
        case Ok(s) =>
          var merged := Overlay(options, s);
          if !conf.PyDict? then AlterEnd(merged, Some(AttributeError))
          else if Overrides(merged) then AlterEnd(merged["docker" := OptValue(args.opts)], None)
          else AlterEnd(merged, None)
  }

  /** `conf['*'].items()`. */
  function StarEntries(conf: Value): Result<map<string, Value>, PyError>
  {
    match Subscript(conf, "*")
    case Err(e) => Err(e)
    case Ok(v) => AsDict(v)
  }

  /** `v.items()` or `v.copy()`: only a dictionary has these methods. */
  function AsDict(v: Value): Result<map<string, Value>, PyError>
  {
    match v
    case PyDict(d) => Ok(d)
    case _ => Err(AttributeError)
  }

  // ----- Run: admission and decoding -----

  /** The admission test: `Ok(false)` when the allow-list exists and does not hold the container. */
  function Admission(config: Value, docker: string): Result<bool, PyError>
  {
    match PyIn(PyStr(AllowListKey), config)
    case Err(e) => Err(e)
    case Ok(present) =>
      if !present then Ok(true)
      else match Subscript(config, AllowListKey)
        case Err(e) => Err(e)
        case Ok(allowed) => PyIn(PyStr(docker), allowed)
  }

  /** `uid, gid = user.split(':')`: the two colon-free parts around the only colon, or `ValueError`. */
  function SplitUser(user: string): (r: Result<(string, string), PyError>)
    ensures r.Ok? ==> user == r.value.0 + ":" + r.value.1 && ':' !in r.value.0 && ':' !in r.value.1
    ensures r.Err? ==> r.error == ValueError
  {
    var parts := Split(user, ":");
    if |parts| == 2 then
      JoinSplit(user, ":");
      assert Join(parts, ":") == parts[0] + ":" + parts[1];
      SplitPiecesFree(user, ":");
      ContainsChar(parts[0], ':');
      ContainsChar(parts[1], ':');
      Ok((parts[0], parts[1]))
    else Err(ValueError)
  }

  /** Conversely, any two colon-free parts around one colon are accepted and given back. */
  lemma SplitUserJoin(a: string, b: string)
    requires ':' !in a && ':' !in b
    ensures SplitUser(a + ":" + b) == Ok((a, b))
  {
    ContainsChar(a, ':');
    ContainsChar(b, ':');
    assert Join([a, b], ":") == a + ":" + b;
    SplitJoin([a, b], ":");
  }

  /** One piece of `--cmd`, wrapped in double quotes when `e.find(" ") > 0`. */
  function Quote(e: string): string
  {
    if PyFind(e, " ") > 0 then "\"" + e + "\"" else e
  }

  /** A piece is quoted exactly when it is not empty, does not start with a space and holds one. */
  lemma QuoteWraps(e: string)
    ensures Quote(e) == (if |e| > 0 && e[0] != ' ' && ' ' in e then "\"" + e + "\"" else e)
  {
    ContainsChar(e, ' ');
    assert PyFind(e, " ") == 0 ==> e[0..1] == " ";
  }

  /** The pieces the decoding loop builds from `--cmd`. */
  function CmdPieces(cmd: string): seq<string>
  {
    QuoteAll(Split(cmd, CmdSep))
  }

  /** Every piece quoted, in order. */
  function QuoteAll(pieces: seq<string>): (r: seq<string>)
    ensures |r| == |pieces|
    ensures forall k :: 0 <= k < |r| ==> r[k] == Quote(pieces[k])
  {
    if pieces == [] then [] else QuoteAll(pieces[..|pieces| - 1]) + [Quote(pieces[|pieces| - 1])]
  }

  /** The decoding loop of `Run`: split `--cmd` on the token and quote each piece. */
  method DecodeCmd(cmdArg: string) returns (cmd: seq<string>)
    ensures cmd == CmdPieces(cmdArg)
  {
    var tmpCmd := Split(cmdArg, CmdSep);
    cmd := [];
    for i := 0 to |tmpCmd|
      invariant cmd == QuoteAll(tmpCmd[..i])
    {
      var e := tmpCmd[i];
      if PyFind(e, " ") > 0 {
        cmd := cmd + ["\"" + e + "\""];
      } else {
        cmd := cmd + [e];
      }
      assert tmpCmd[..i + 1][..i] == tmpCmd[..i];
    }
    assert tmpCmd[..|tmpCmd|] == tmpCmd;
  }

  // ----- Run: the script loop -----

  /** The template variables `j2_vars`. */
  datatype J2Vars = J2Vars(uid: string, gid: string, envfile: Option<string>, image: string, cmd: string,
                           stdoutLines: seq<string>)

  /** What `run_cmd` reports (its exception text is only logged). */
  datatype HostRun = HostRun(rc: int, stdout: string, stderr: string)

  /** What `client.containers.run` does: returns the output, raises `ContainerError`, raises anything else. */
  datatype ContainerRun = Output(text: string) | ContainerError | ApiError

  /** The libraries the loop calls: Jinja2 rendering, `run_cmd`, the docker client and the
      order CPython iterates a dictionary's keys in. */
  datatype Oracles = Oracles(
    render: (Value, J2Vars) -> string,
    runCmd: (string, Value) -> HostRun,
    runContainer: map<string, Value> -> ContainerRun,
    dictOrder: map<string, Value> -> seq<string>)

  /** Everything one script's step reads besides the script and `stdout_lines`;
      `docker` is `self.options['docker']`. */
  datatype Ctx = Ctx(args: Args, environ: seq<string>, docker: Result<Value, PyError>, vars: J2Vars, oracles: Oracles)

  /** One script's step: the script as it stands afterwards, and either the loop goes on
      (with the next `stdout_lines` and what was written to standard output) or `Run` ends. */
  datatype StepResult =
    | Next(elem: Value, lines: seq<string>, out: seq<string>)
    | Stop(elem: Value, outcome: Outcome)

  /** `after` is `before`, or `before` with `timeout` set to the default where it had none. */
  predicate TimeoutDefaulted(before: Value, after: Value)
  {
    after == before
    || (before.PyDict? && "timeout" !in before.entries
        && after == PyDict(before.entries["timeout" := PyInt(DefaultHostTimeout)]))
  }

  /** `if 'timeout' not in elem: elem['timeout'] = default_host_timeout`. */
  function WithDefaultTimeout(elem: Value): (r: Result<Value, PyError>)
    ensures r.Ok? ==> TimeoutDefaulted(elem, r.value) && r.value.PyDict?
    ensures r.Ok? ==> "timeout" in r.value.entries
    ensures elem.PyDict? <==> r.Ok?
  {
    match elem
    case PyDict(d) => if "timeout" in d then Ok(elem) else Ok(PyDict(d["timeout" := PyInt(DefaultHostTimeout)]))
    case _ => Err(TypeError)
  }

  /** The body of the script loop for one element. */
  function Step(ctx: Ctx, elem: Value, lines: seq<string>): (r: StepResult)
    ensures TimeoutDefaulted(elem, r.elem)
  {
    match PyIn(PyStr("type"), elem)
    case Err(e) => Stop(elem, Raised(e))
    case Ok(hasType) =>
      if !hasType then Stop(elem, Returned(false))
      else match Subscript(elem, "type")
        case Err(e) => Stop(elem, Raised(e))
        case Ok(t) =>
          if t != PyStr("container") && t != PyStr("host") then Stop(elem, Returned(false))
          else match PyIn(PyStr("script"), elem)
            case Err(e) => Stop(elem, Raised(e))
            case Ok(hasScript) =>
              if !hasScript then Stop(elem, Returned(false))
              else match WithDefaultTimeout(elem)
                case Err(e) => Stop(elem, Raised(e))
                case Ok(e1) => Execute(ctx, e1, t == PyStr("host"), lines)
  }

  /** Rendering and running one validated script (`e1` already has its timeout). */
  function Execute(ctx: Ctx, e1: Value, onHost: bool, lines: seq<string>): (r: StepResult)
    ensures r.elem == e1
  {
    match Subscript(e1, "script")
    case Err(e) => Stop(e1, Raised(e))
    case Ok(script) =>
      var body := ctx.oracles.render(script, ctx.vars.(stdoutLines := lines));
      if onHost then
        match Subscript(e1, "timeout")
        case Err(e) => Stop(e1, Raised(e))
        case Ok(timeout) =>
          var h := ctx.oracles.runCmd(body, timeout);
          if h.rc != 0 then Stop(e1, Returned(false)) else Next(e1, Split(h.stdout, "\n"), [])
      else
        match ctx.docker
        case Err(e) => Stop(e1, Raised(e))
        case Ok(dv) =>
          match AsDict(dv)
          case Err(e) => Stop(e1, Raised(e))
          case Ok(d) =>
            match ctx.oracles.runContainer(ContainerOptions(d, ctx.args.docker, body, ctx.environ))
            case Output(text) => Next(e1, lines, [text])
            case ContainerError => Next(e1, lines, [])
            case ApiError => Stop(e1, Raised(DockerApiError))
  }

  /** The container command: `bash -c "<body>"` with every double quote of the body escaped. */
  function BashCommand(body: string): string
  {
    "bash -c \"" + Replace(body, "\"", "\\\"") + "\""
  }

  /** A body without double quotes is placed between the quotes of `bash -c` as it is. */
  lemma BashCommandPlain(body: string)
    requires '"' !in body
    ensures BashCommand(body) == "bash -c \"" + body + "\""
  {
    ContainsChar(body, '"');
    assert FindFrom(body, "\"", 0) == None;
  }

  /** `docker_opts`: a copy of the configured docker options with the image, the command,
      the clean-up and terminal flags and the environment file's entries. */
  function ContainerOptions(docker: map<string, Value>, image: string, body: string, environ: seq<string>)
    : (r: map<string, Value>)
    ensures r.Keys == docker.Keys + {"image", "command", "remove", "tty", "stderr", "environment"}
    ensures r["image"] == PyStr(image) && r["command"] == PyStr(BashCommand(body))
    ensures r["remove"] == PyBool(true) && r["tty"] == PyBool(true) && r["stderr"] == PyBool(true)
    ensures r["environment"] == PyList(seq(|environ|, k requires 0 <= k < |environ| => PyStr(environ[k])))
    ensures forall k :: k in docker && k !in {"image", "command", "remove", "tty", "stderr", "environment"}
                        ==> r[k] == docker[k]
  {
    docker["image" := PyStr(image)]["command" := PyStr(BashCommand(body))]
          ["remove" := PyBool(true)]["tty" := PyBool(true)]["stderr" := PyBool(true)]
          ["environment" := PyList(seq(|environ|, k requires 0 <= k < |environ| => PyStr(environ[k])))]
  }

  /** The result of the loop from some element on: the outcome, the scripts as they stand
      at the end, and what was written to standard output. */
  datatype LoopEnd = LoopEnd(outcome: Outcome, elems: seq<Value>, written: seq<string>)

  /** The script loop from element `i` on, with `stdout_lines` equal to `lines`. */
  function ScriptsFrom(ctx: Ctx, elems: seq<Value>, i: nat, lines: seq<string>): (r: LoopEnd)
    ensures |r.elems| == |elems|
    ensures forall k :: 0 <= k < |elems| ==> TimeoutDefaulted(elems[k], r.elems[k])
    decreases |elems| - i, 1
  {
    if i >= |elems| then LoopEnd(Returned(true), elems, []) else Turn(ctx, elems, i, lines)
  }

  /** The turn of the loop for element `i` and all the turns after it. */
  function Turn(ctx: Ctx, elems: seq<Value>, i: nat, lines: seq<string>): (r: LoopEnd)
    requires i < |elems|
    ensures |r.elems| == |elems|
    ensures forall k :: 0 <= k < |elems| ==> TimeoutDefaulted(elems[k], r.elems[k])
    decreases |elems| - i, 0
  {
    var s := Step(ctx, elems[i], lines);
    var next := elems[i := s.elem];
    match s
    case Stop(_, o) => LoopEnd(o, next, [])
    case Next(_, l, out) =>
      var rest := ScriptsFrom(ctx, next, i + 1, l);
      assert forall k :: 0 <= k < |elems| && k != i ==> next[k] == elems[k];
      assert forall k :: 0 <= k < |elems| ==> TimeoutDefaulted(next[k], rest.elems[k]);
      TimeoutDefaultedTwice(elems[i], next[i], rest.elems[i]);
      LoopEnd(rest.outcome, rest.elems, out + rest.written)
  }

  /** One turn of the script loop, given that turn's step `s`. */
  lemma ScriptsFromStep(ctx: Ctx, elems: seq<Value>, i: nat, lines: seq<string>, s: StepResult)
    requires i < |elems| && s == Step(ctx, elems[i], lines)
    ensures s.Stop? ==> ScriptsFrom(ctx, elems, i, lines) == LoopEnd(s.outcome, elems[i := s.elem], [])
    ensures s.Next? ==>
      var rest := ScriptsFrom(ctx, elems[i := s.elem], i + 1, s.lines);
      ScriptsFrom(ctx, elems, i, lines) == LoopEnd(rest.outcome, rest.elems, s.out + rest.written)
  {
    assert ScriptsFrom(ctx, elems, i, lines) == Turn(ctx, elems, i, lines);
  }

  /** What is left of the loop from element `i` on accounts for the rest of the whole loop's
      result `final`, given that `written` is what was output so far and `total` what the
      whole loop outputs. */
  ghost predicate LoopRest(ctx: Ctx, cur: seq<Value>, i: nat, lines: seq<string>, final: LoopEnd,
                           written: seq<string>, total: seq<string>)
  {
    var rest := ScriptsFrom(ctx, cur, i, lines);
    rest.outcome == final.outcome && rest.elems == final.elems && written + rest.written == total
  }

  /** Takes the step for element `i` and shows what it leaves of the loop. */
  method TakeStep(ctx: Ctx, cur: seq<Value>, i: nat, lines: seq<string>, ghost final: LoopEnd,
                  ghost written: seq<string>, ghost total: seq<string>) returns (s: StepResult)
    requires i < |cur| && LoopRest(ctx, cur, i, lines, final, written, total)
    ensures s.Stop? ==> s.outcome == final.outcome && cur[i := s.elem] == final.elems && written == total
    ensures s.Next? ==> LoopRest(ctx, cur[i := s.elem], i + 1, s.lines, final, written + s.out, total)
  {
    s := Step(ctx, cur[i], lines);
    if s.Stop? {
      LoopRestStop(ctx, cur, i, lines, final, written, total, s);
    } else {
      LoopRestNext(ctx, cur, i, lines, final, written, total, s);
    }
  }

  /** A stopping step ends the loop with the whole loop's result. */
  lemma LoopRestStop(ctx: Ctx, cur: seq<Value>, i: nat, lines: seq<string>, final: LoopEnd,
                     written: seq<string>, total: seq<string>, s: StepResult)
    requires i < |cur| && LoopRest(ctx, cur, i, lines, final, written, total)
    requires s == Step(ctx, cur[i], lines) && s.Stop?
    ensures s.outcome == final.outcome && cur[i := s.elem] == final.elems && written == total
  {
    ScriptsFromStep(ctx, cur, i, lines, s);
  }

  /** A step that goes on leaves the rest of the loop accounting for the whole loop's result. */
  lemma LoopRestNext(ctx: Ctx, cur: seq<Value>, i: nat, lines: seq<string>, final: LoopEnd,
                     written: seq<string>, total: seq<string>, s: StepResult)
    requires i < |cur| && LoopRest(ctx, cur, i, lines, final, written, total)
    requires s == Step(ctx, cur[i], lines) && s.Next?
    ensures LoopRest(ctx, cur[i := s.elem], i + 1, s.lines, final, written + s.out, total)
  {
    ScriptsFromStep(ctx, cur, i, lines, s);
    assert written + (s.out + ScriptsFrom(ctx, cur[i := s.elem], i + 1, s.lines).written)
      == written + s.out + ScriptsFrom(ctx, cur[i := s.elem], i + 1, s.lines).written;
  }

  /** Setting the default timeout a second time changes nothing. */
  lemma TimeoutDefaultedTwice(a: Value, b: Value, c: Value)
    requires TimeoutDefaulted(a, b) && TimeoutDefaulted(b, c)
    ensures TimeoutDefaulted(a, c)
  {
    if b != a {
      assert "timeout" in b.entries;
    }
  }

  /** The scripts value with its elements replaced: lists and tuples hold the (mutated)
      dictionaries themselves, strings and dictionaries are unchanged by the loop. */
  function Rewrap(scripts: Value, elems: seq<Value>): Value
  {
    match scripts
    case PyList(_) => PyList(elems)
    case PyTuple(_) => PyTuple(elems)
    case _ => scripts
  }

  /** The result, the options and the output of `Run`. */
  datatype RunEnd = RunEnd(outcome: Outcome, options: map<string, Value>, written: seq<string>)

  /** `for elem in self.options['scripts']` and the final `return True`. */
  function ScriptsSpec(options: map<string, Value>, args: Args, environ: seq<string>, vars: J2Vars,
                       oracles: Oracles): RunEnd
  {
    if "scripts" !in options then RunEnd(Raised(KeyError("scripts")), options, [])
    else
      var scripts := options["scripts"];
      match Iterate(scripts, oracles.dictOrder)
      case Err(e) => RunEnd(Raised(e), options, [])
      case Ok(elems) =>
        var ctx := Ctx(args, environ, Subscript(PyDict(options), "docker"), vars, oracles);
        var f := ScriptsFrom(ctx, elems, 0, []);
        RunEnd(f.outcome, options["scripts" := Rewrap(scripts, f.elems)], f.written)
  }

  /** `DockerRunner.Run` as a function of the options before it. */
  function RunSpec(options: map<string, Value>, config: Value, args: Args, environ: seq<string>,
                   oracles: Oracles): RunEnd
  {
    match Admission(config, args.docker)
    case Err(e) => RunEnd(Raised(e), options, [])
    case Ok(admitted) =>
      if !admitted then RunEnd(Returned(false), options, [])
      else
        var a := AlterSpec(options, config, args);
        if a.error.Some? then RunEnd(Raised(a.error.value), a.options, [])
        else match SplitUser(args.user)
          case Err(e) => RunEnd(Raised(e), a.options, [])
          case Ok(ug) =>
            var vars := J2Vars(ug.0, ug.1, args.envfile, args.docker, Join(CmdPieces(args.cmd), " "), []);
            ScriptsSpec(a.options, args, environ, vars, oracles)
  }

  // ----- the runner object -----

  /** A `DockerRunner`: the arguments, the configuration, the environment read at
      construction, the options it merges and what it writes to standard output. */
  class Runner {
    const args: Args
    const config: Value
    const environ: seq<string>
    var options: map<string, Value>
    var written: seq<string>

    /** `__init__`, given the text of the environment file. */
    constructor (args: Args, config: Value, envText: string)
      ensures this.args == args && this.config == config
      ensures environ == ReadEnvfile(envText) && options == InitialOptions && written == []
    {
      this.args := args;
      this.config := config;
      options := InitialOptions;
      environ := ReadEnvfile(envText);
      written := [];
    }

    /** `alter_options`. */
    method AlterOptions() returns (err: Option<PyError>)
      modifies this`options
      ensures var a := AlterSpec(old(options), config, args); err == a.error && options == a.options
    {
      var conf: Value;
      match Subscript(config, "container_options") {
        case Err(e) => return Some(e);
        case Ok(c) => conf := c;
      }
      var hasStar: bool;
      match PyIn(PyStr("*"), conf) {
        case Err(e) => return Some(e);
        case Ok(b) => hasStar := b;
      }
      if hasStar {
        var star: map<string, Value>;
        match StarEntries(conf) {
          case Err(e) => return Some(e);
          case Ok(d) => star := d;
        }
        SetAll(star);
      } else {
        assert Overlay(options, map[]) == options;
      }
      if !conf.PyDict? {
        return Some(AttributeError);
      }
      if InItems(PyStr(args.docker), conf.entries) {
        assert false;
      }
      if Overrides(options) {
        options := options["docker" := OptValue(args.opts)];
      }
      return None;
    }

    /** `for k, v in update.items(): self.options[k] = v`, in whatever order the keys come. */
    method SetAll(update: map<string, Value>)
      modifies this`options
      ensures options == Overlay(old(options), update)
    {
      var todo := update.Keys;
      ghost var done: set<string> := {};
      while todo != {}
        invariant todo + done == update.Keys && todo !! done
        invariant options == Overlay(old(options), Restrict(update, done))
        decreases todo
      {
        var k :| k in todo;
        assert Restrict(update, done + {k}) == Restrict(update, done)[k := update[k]];
        options := options[k := update[k]];
        todo := todo - {k};
        done := done + {k};
      }
      assert Restrict(update, done) == update;
    }

    /** `Run`. */
    method Run(oracles: Oracles) returns (r: Outcome)
      modifies this`options, this`written
      ensures var s := RunSpec(old(options), config, args, environ, oracles);
        && r == s.outcome && options == s.options && written == old(written) + s.written
    {
      var admitted: bool;
      match Admission(config, args.docker) {
        case Err(e) => return Raised(e);
        case Ok(b) => admitted := b;
      }
      if !admitted {
        return Returned(false);
      }
      var err := AlterOptions();
      if err.Some? {
        return Raised(err.value);
      }
      var uid: string, gid: string;
      match SplitUser(args.user) {
        case Err(e) => return Raised(e);
        case Ok(ug) => uid, gid := ug.0, ug.1;
      }
      var cmd := DecodeCmd(args.cmd);
      var vars := J2Vars(uid, gid, args.envfile, args.docker, Join(cmd, " "), []);
      r := RunScripts(vars, oracles);
    }

    /** The script loop of `Run`. */
    method RunScripts(vars: J2Vars, oracles: Oracles) returns (r: Outcome)
      modifies this`options, this`written
      ensures var s := ScriptsSpec(old(options), args, environ, vars, oracles);
        && r == s.outcome && options == s.options && written == old(written) + s.written
    {
      if "scripts" !in options {
        return Raised(KeyError("scripts"));
      }
      var scripts := options["scripts"];
      var elems: seq<Value>;
      match Iterate(scripts, oracles.dictOrder) {
        case Err(e) => return Raised(e);
        case Ok(es) => elems := es;
      }
      RewrapSame(scripts, elems, oracles.dictOrder);
      r := WalkScripts(scripts, elems, vars, oracles);
    }

    /** `for elem in scripts`, where iterating `scripts` gave `elems`. */
    method WalkScripts(scripts: Value, elems: seq<Value>, vars: J2Vars, oracles: Oracles) returns (r: Outcome)
      requires "scripts" in options && options == options["scripts" := Rewrap(scripts, elems)]
      modifies this`options, this`written
      ensures var f := ScriptsFrom(Ctx(args, environ, Subscript(PyDict(old(options)), "docker"), vars, oracles),
                                   elems, 0, []);
        && r == f.outcome && options == old(options)["scripts" := Rewrap(scripts, f.elems)]
        && written == old(written) + f.written
    {
      var ctx := Ctx(args, environ, Subscript(PyDict(options), "docker"), vars, oracles);
      ghost var final := ScriptsFrom(ctx, elems, 0, []);
      ghost var opts0 := options;
      ghost var w0 := written;
      var cur := elems;
      var lines: seq<string> := [];
      var i := 0;
      while i < |cur|
        invariant 0 <= i <= |cur| == |elems|
        invariant options == opts0["scripts" := Rewrap(scripts, cur)]
        invariant LoopRest(ctx, cur, i, lines, final, written, w0 + final.written)
        decreases |cur| - i
      {
        var s := TakeStep(ctx, cur, i, lines, final, written, w0 + final.written);
        cur := cur[i := s.elem];
        options := options["scripts" := Rewrap(scripts, cur)];
        if s.Stop? {
          return s.outcome;
        }
        written := written + s.out;
        lines := s.lines;
        i := i + 1;
      }
      return Returned(true);
    }
  }

  /** The entries of `update` whose keys are in `ks`. */
  function Restrict(update: map<string, Value>, ks: set<string>): map<string, Value>
  {
    map k | k in ks && k in update :: update[k]
  }

  /** Writing back the elements iteration produced gives the scripts value itself. */
  lemma RewrapSame(scripts: Value, elems: seq<Value>, dictOrder: map<string, Value> -> seq<string>)
    requires Iterate(scripts, dictOrder) == Ok(elems)
    ensures Rewrap(scripts, elems) == scripts
  {
  }
}
