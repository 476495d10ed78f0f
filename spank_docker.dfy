/**
 * The SPANK plugin: option capture, plugin initialisation, the privileged task hook,
 * and the runner class that gathers the job's identity, command and environment,
 * stages the environment in a temporary file and runs the external runner.
 */
module SpankDocker {
  import opened Wrappers
  import opened Strings
  import opened SpankDockerH
  import opened SpankHost

  /** The token `_GetCmd` puts between arguments: a backslash and the digit zero, not a NUL byte. */
  const ArgvSep: string := "\\0"
  /** The template handed to `mkstemp` (the spelling is the plugin's own). */
  const EnvFileTemplate: string := "/tmp/spank-doker-env.XXXXXX"

  const RegisterFailedMessage: string := "Unable to register spank docker options"
  const ArgvFailedMessage: string := "Unable to get S_JOB_ARGV"
  const UidFailedMessage: string := "Unable to get S_JOB_UID"
  const GidFailedMessage: string := "Unable to get S_JOB_GID"
  const EnvFailedMessage: string := "Unable to get S_JOB_ENV"
  /** `slurm_error("Unable to create tmp file: ", tmpfilename)` has no conversion, so only this is logged. */
  const TempFailedMessage: string := "Unable to create tmp file: "
  const PopenFailedMessage: string := "Unable to run command. popen() failed!"
  const ReadFailedMessage: string := "Error while running command."

  // ----- specification functions -----

  /** The command string `_GetCmd` builds from the job's argument vector. */
  function JoinArgv(argv: seq<string>): string
  {
    Join(argv, ArgvSep)
  }

  /** The runner string `slurm_spank_init` builds: every plugstack argument followed by one space. */
  function RunnerPrefix(args: seq<string>): string
  {
    Terminated(args, " ")
  }

  /** The content of the environment file: every entry followed by a newline. */
  function EnvFileText(environ: seq<string>): string
  {
    Terminated(environ, "\n")
  }

  /** The `--user` value: `uid:gid` in decimal. */
  function UserFlag(uid: Int32, gid: Int32): string
  {
    IntToDecimal(uid as int) + ":" + IntToDecimal(gid as int)
  }

  /** The command line `Run` hands to `spank_exec`; values are quoted but never escaped. */
  function CommandLine(runner: string, name: string, cmd: string, opts: string,
                       uid: Int32, gid: Int32, envfile: string): string
  {
    runner + " --docker=\"" + name + "\"" + " --cmd=\"" + cmd + "\"" + " --opts=\"" + opts + "\""
      + " --user=" + UserFlag(uid, gid) + " --envfile=" + envfile
  }

  /** The strings of a C string array read up to, not including, its first NULL. */
  function EntriesBeforeNull(a: seq<Option<string>>): (r: seq<string>)
    ensures |r| <= |a|
    ensures forall k :: 0 <= k < |r| ==> a[k] == Some(r[k])
    ensures |r| < |a| ==> a[|r|] == None
  {
    if a == [] || a[0].None? then [] else [a[0].value] + EntriesBeforeNull(a[1..])
  }

  /** What `spank_exec` returns for a process. */
  function ExecResult(p: Process): RetStr
  {
    match p
    case SpawnFails => RetStr(-1, PopenFailedMessage)
    case Runs(chunks, readThrows, status) =>
      if readThrows then RetStr(-1, ReadFailedMessage)
      else RetStr(CDiv(status as int, 256) as Int32, Concat(chunks))
  }

  /** The result, the calls on the host, the messages logged, the gathered environment
      and the temporary file (if one was created) of one `Run`. */
  datatype RunView = RunView(
    result: RetStr, events: seq<Event>, errors: seq<string>, environ: seq<string>, temp: Option<string>)

  const Queries: seq<Event> := [GetItem(JobUid), GetItem(JobGid), GetItem(JobArgv), GetItem(JobEnv)]

  /** The path `mkstemp` makes of the template. */
  function TempPath(t: TempFile): string
  {
    EnvFileTemplate[..|EnvFileTemplate| - 6] + t.unique
  }

  /** All four job items are available. */
  predicate ContextAvailable(w: World)
  {
    w.uid.Some? && w.gid.Some? && w.argv.Some? && w.env.Some?
  }

  /** The command line `Run` builds once every query has succeeded. */
  function RunCommandLine(w: World, runner: string, name: string, opts: string, t: TempFile): string
    requires ContextAvailable(w)
  {
    CommandLine(runner, name, JoinArgv(w.argv.value), opts,
                AsInt32(w.uid.value), AsInt32(w.gid.value), TempPath(t))
  }

  /** The part of `Run` after the queries: the environment file, the runner and the file's removal. */
  function LaunchSpec(w: World, runner: string, name: string, opts: string,
                      cmd: string, uid: Int32, gid: Int32, env: seq<string>): RunView
  {
    match w.mkstemp
    case None => RunView(RetStr(-1, ""), [CreateTemp(None)], [TempFailedMessage], env, None)
    case Some(t) =>
      var path := TempPath(t);
      var line := CommandLine(runner, name, cmd, opts, uid, gid, path);
      var p := w.exec(line);
      RunView(ExecResult(p),
              [CreateTemp(Some(path)), CloseTemp(path, EnvFileText(env)), Spawn(line)]
                + (if p.Runs? then [Reap] else []) + [DeleteTemp(path)],
              [], env, Some(path))
  }

  /** `DockerRunner::Run` as a function of the host's answers. */
  function RunSpec(w: World, runner: string, name: string, opts: string, environ: seq<string>): RunView
  {
    var aborted := RetStr(-1, "");
    if w.uid.None? then RunView(aborted, Queries[..1], [UidFailedMessage], environ, None)
    else if w.gid.None? then RunView(aborted, Queries[..2], [GidFailedMessage], environ, None)
    else if w.argv.None? then RunView(aborted, Queries[..3], [ArgvFailedMessage], environ, None)
    else if w.env.None? then RunView(aborted, Queries, [EnvFailedMessage], environ, None)
    else
      var launch := LaunchSpec(w, runner, name, opts, JoinArgv(w.argv.value),
                               AsInt32(w.uid.value), AsInt32(w.gid.value),
                               environ + EntriesBeforeNull(w.env.value));
      launch.(events := Queries + launch.events)
  }

  /** Once every query succeeds, `Run` is the launch phase preceded by the four queries. */
  lemma RunSpecLaunch(w: World, runner: string, name: string, opts: string, environ: seq<string>)
    requires ContextAvailable(w)
    ensures var l := LaunchSpec(w, runner, name, opts, JoinArgv(w.argv.value), AsInt32(w.uid.value),
                                AsInt32(w.gid.value), environ + EntriesBeforeNull(w.env.value));
      var v := RunSpec(w, runner, name, opts, environ);
      && v.result == l.result && v.events == Queries + l.events && v.errors == l.errors
      && v.environ == l.environ && v.temp == l.temp
  {
  }

  /** How the privileged hook ends: by returning to SLURM, or by `exit`ing the process. */
  datatype Outcome = Return(rc: int) | Exit(status: Int32)

  /** The outcome, host calls, messages and temporary file of the privileged hook. */
  datatype HookView = HookView(outcome: Outcome, events: seq<Event>, errors: seq<string>, temp: Option<string>)

  /** `slurm_spank_task_init_privileged` as a function of the globals and the host's answers. */
  function HookSpec(w: World, runner: string, name: string, opts: string): HookView
  {
    if name == "" then HookView(Return(0), [], [], None)
    else
      var v := RunSpec(w, runner, name, opts, []);
      HookView(Exit(v.result.rc), v.events,
               v.errors + (if v.result.data != "" then ["\n" + v.result.data] else []), v.temp)
  }

  /** The index of the first option the host refuses to register, if any. */
  function FirstRefused(opts: seq<SpankOption>, register: SpankOption -> int): (r: Option<nat>)
    ensures r.Some? ==> r.value < |opts| && register(opts[r.value]) != EspankSuccess
    ensures r.Some? ==> forall k :: 0 <= k < r.value ==> register(opts[k]) == EspankSuccess
    ensures r.None? ==> forall k :: 0 <= k < |opts| ==> register(opts[k]) == EspankSuccess
  {
    if opts == [] then None
    else if register(opts[0]) != EspankSuccess then Some(0)
    else match FirstRefused(opts[1..], register)
      case None => None
      case Some(i) => Some(i + 1)
  }

  /** An option refused after a run of accepted ones is the first refusal. */
  lemma {:induction false} FirstRefusedAt(opts: seq<SpankOption>, register: SpankOption -> int, i: nat)
    requires i < |opts| && register(opts[i]) != EspankSuccess
    requires forall k :: 0 <= k < i ==> register(opts[k]) == EspankSuccess
    ensures FirstRefused(opts, register) == Some(i)
  {
    if i > 0 {
      FirstRefusedAt(opts[1..], register, i - 1);
    }
  }

  /** When every option is accepted there is no refusal. */
  lemma {:induction false} FirstRefusedNone(opts: seq<SpankOption>, register: SpankOption -> int)
    requires forall k :: 0 <= k < |opts| ==> register(opts[k]) == EspankSuccess
    ensures FirstRefused(opts, register) == None
  {
    if opts != [] {
      FirstRefusedNone(opts[1..], register);
    }
  }

  /** The registration calls for a run of options, in order. */
  function Registrations(opts: seq<SpankOption>): (r: seq<Event>)
    ensures |r| == |opts| && forall k :: 0 <= k < |opts| ==> r[k] == Register(opts[k].name)
  {
    if opts == [] then [] else Registrations(opts[..|opts| - 1]) + [Register(opts[|opts| - 1].name)]
  }

  /** The options `slurm_spank_init` tries to register: up to and including the first refused one. */
  function Attempted(opts: seq<SpankOption>, register: SpankOption -> int): seq<SpankOption>
  {
    match FirstRefused(opts, register)
    case None => opts
    case Some(i) => opts[..i + 1]
  }

  // ----- the process-wide option state and the plugin entry points -----

  /** The plugin's globals `opt_docker_name`, `opt_docker_opts` and `opt_docker_runner`. */
  class Plugin {
    var dockerName: string
    var dockerOpts: string
    var dockerRunner: string

    constructor ()
      ensures dockerName == "" && dockerOpts == "" && dockerRunner == ""
    {
      dockerName, dockerOpts, dockerRunner := "", "", "";
    }

    /** `opt_cb_docker`: stores the argument of `--docker` or `--docker-opts`. */
    method OptCbDocker(val: int, optarg: string, remote: int) returns (r: int)
      modifies this`dockerName, this`dockerOpts
      ensures r == 0
      ensures dockerName == (if val == OptDockerName then optarg else old(dockerName))
      ensures dockerOpts == (if val == OptDockerOpts then optarg else old(dockerOpts))
    {
      if val == OptDockerName {
        dockerName := optarg;
      }
      if val == OptDockerOpts {
        dockerOpts := optarg;
      }
      return 0;
    }

    /** `slurm_spank_init`: registers the option table, stopping at the first refusal,
        then appends every plugstack argument and a space to the runner string. */
    method SpankInit(sp: Host, argv: seq<string>) returns (r: int)
      modifies this`dockerRunner, sp`trace, sp`log
      ensures var refused := FirstRefused(SpankDockerCmdOptions, sp.world.register);
        && r == (if refused.Some? then 1 else 0)
        && sp.trace == old(sp.trace) + Registrations(Attempted(SpankDockerCmdOptions, sp.world.register))
        && sp.log == old(sp.log) + (if refused.Some? then [RegisterFailedMessage] else [])
        && dockerRunner == old(dockerRunner) + (if refused.Some? then "" else RunnerPrefix(argv))
    {
      var registered := RegisterOptions(sp, SpankDockerCmdOptions);
      if !registered {
        sp.Error(RegisterFailedMessage);
        return 1;
      }
      AppendRunner(argv);
      return 0;
    }

    /** The registration loop of `slurm_spank_init`: one `spank_option_register` per option
        until the host refuses one. */
    static method RegisterOptions(sp: Host, opts: seq<SpankOption>) returns (ok: bool)
      modifies sp`trace
      ensures ok <==> FirstRefused(opts, sp.world.register).None?
      ensures sp.trace == old(sp.trace) + Registrations(Attempted(opts, sp.world.register))
    {
      var i := 0;
      while i < |opts|
        invariant 0 <= i <= |opts|
        invariant forall k :: 0 <= k < i ==> sp.world.register(opts[k]) == EspankSuccess
        invariant sp.trace == old(sp.trace) + Registrations(opts[..i])
      {
        var err := sp.RegisterOption(opts[i]);
        assert opts[..i + 1][..i] == opts[..i];
        if err != EspankSuccess {
          assert FirstRefused(opts, sp.world.register) == Some(i) by {
            FirstRefusedAt(opts, sp.world.register, i);
          }
          return false;
        }
        i := i + 1;
      }
      assert opts[..i] == opts;
      FirstRefusedNone(opts, sp.world.register);
      return true;
    }

    /** The second loop of `slurm_spank_init`: each plugstack argument and a space. */
    method AppendRunner(argv: seq<string>)
      modifies this`dockerRunner
      ensures dockerRunner == old(dockerRunner) + RunnerPrefix(argv)
    {
      for j := 0 to |argv|
        invariant dockerRunner == old(dockerRunner) + RunnerPrefix(argv[..j])
      {
        assert argv[..j + 1] == argv[..j] + [argv[j]];
        TerminatedSnoc(argv[..j], argv[j], " ");
        dockerRunner := dockerRunner + argv[j];
        dockerRunner := dockerRunner + " ";
      }
      assert argv[..|argv|] == argv;
    }

    /** `slurm_spank_task_init_privileged`: nothing without `--docker`; otherwise runs the
        runner, reports its output through `slurm_error` and exits with its status. */
    method TaskInitPrivileged(sp: Host) returns (o: Outcome)
      modifies sp`trace, sp`log, sp`files, sp`fds
      ensures var h := HookSpec(sp.world, old(dockerRunner), old(dockerName), old(dockerOpts));
        && o == h.outcome
        && sp.trace == old(sp.trace) + h.events
        && sp.log == old(sp.log) + h.errors
        && sp.files == (if h.temp.Some? then old(sp.files) - {h.temp.value} else old(sp.files))
        && sp.fds == (if h.temp.Some? then old(sp.fds) - {sp.world.mkstemp.value.fd} else old(sp.fds))
    {
      if dockerName == "" {
        return Return(0);
      }
      var res := RunDocker(sp);
      var rc := res.rc;
      var outErr := res.data;
      if outErr != "" {
        sp.Error("\n" + outErr);
      }
      return Exit(rc);
    }

    /** Lines 67-71 of the hook: a fresh runner over the globals, run once. */
    method RunDocker(sp: Host) returns (res: RetStr)
      modifies sp`trace, sp`log, sp`files, sp`fds
      ensures res == RunSpec(sp.world, dockerRunner, dockerName, dockerOpts, []).result
      ensures sp.trace == old(sp.trace) + RunSpec(sp.world, dockerRunner, dockerName, dockerOpts, []).events
      ensures sp.log == old(sp.log) + RunSpec(sp.world, dockerRunner, dockerName, dockerOpts, []).errors
      ensures var v := RunSpec(sp.world, dockerRunner, dockerName, dockerOpts, []);
        && sp.files == (if v.temp.Some? then old(sp.files) - {v.temp.value} else old(sp.files))
        && sp.fds == (if v.temp.Some? then old(sp.fds) - {sp.world.mkstemp.value.fd} else old(sp.fds))
    {
      var dr := new DockerRunner(sp, dockerRunner, dockerName, dockerOpts, this);
      ghost var v;
      res, v := dr.Run();
    }
  }

  // ----- the runner class -----

  class DockerRunner {
    const sp: Host
    const runner: string
    const name: string
    const opts: string
    var environ: seq<string>

    /** The constructor ignores its `runner` argument: the runner string is read from the global. */
    constructor (sp: Host, runner: string, name: string, opts: string, globals: Plugin)
      ensures this.sp == sp && this.name == name && this.opts == opts
      ensures this.runner == globals.dockerRunner && environ == []
    {
      this.sp := sp;
      this.name := name;
      this.opts := opts;
      this.runner := globals.dockerRunner;
      environ := [];
    }

    /** `_GetCmd`: the job's arguments joined with the backslash-zero token. */
    method GetCmd() returns (r: RetStr)
      modifies sp`trace, sp`log
      ensures sp.trace == old(sp.trace) + [GetItem(JobArgv)]
      ensures sp.world.argv.None? ==> r == RetStr(-1, "") && sp.log == old(sp.log) + [ArgvFailedMessage]
      ensures sp.world.argv.Some? ==> r == RetStr(0, JoinArgv(sp.world.argv.value)) && sp.log == old(sp.log)
    {
      var cmd := "";
      var err, jav := sp.GetJobArgv();
      if err != EspankSuccess {
        sp.Error(ArgvFailedMessage);
        return RetStr(-1, "");
      }
      var jac := |jav|;
      for i := 0 to jac
        invariant cmd == JoinArgv(jav[..i]) + (if 0 < i < jac then ArgvSep else "")
        invariant sp.trace == old(sp.trace) + [GetItem(JobArgv)] && sp.log == old(sp.log)
      {
        assert jav[..i + 1] == jav[..i] + [jav[i]];
        if i > 0 {
          JoinSnoc(jav[..i], jav[i], ArgvSep);
        }
        cmd := cmd + jav[i];
        if i != jac - 1 {
          cmd := cmd + ArgvSep;
        }
      }
      assert jav[..jac] == jav;
      return RetStr(0, cmd);
    }

    /** `_GetUID`. */
    method GetUID() returns (r: RetInt)
      modifies sp`trace, sp`log
      ensures sp.trace == old(sp.trace) + [GetItem(JobUid)]
      ensures sp.world.uid.None? ==> r == RetInt(-1, -1) && sp.log == old(sp.log) + [UidFailedMessage]
      ensures sp.world.uid.Some? ==> r == RetInt(0, AsInt32(sp.world.uid.value)) && sp.log == old(sp.log)
    {
      var err, uid := sp.GetJobUid();
      if err != EspankSuccess {
        sp.Error(UidFailedMessage);
        return RetInt(-1, -1);
      }
      return RetInt(0, uid);
    }

    /** `_GetGID`. */
    method GetGID() returns (r: RetInt)
      modifies sp`trace, sp`log
      ensures sp.trace == old(sp.trace) + [GetItem(JobGid)]
      ensures sp.world.gid.None? ==> r == RetInt(-1, -1) && sp.log == old(sp.log) + [GidFailedMessage]
      ensures sp.world.gid.Some? ==> r == RetInt(0, AsInt32(sp.world.gid.value)) && sp.log == old(sp.log)
    {
      var err, gid := sp.GetJobGid();
      if err != EspankSuccess {
        sp.Error(GidFailedMessage);
        return RetInt(-1, -1);
      }
      return RetInt(0, gid);
    }

    /** `_GetEnv`: appends the job's environment entries, up to the NULL terminator. */
    method GetEnv() returns (rc: int)
      modifies this`environ, sp`trace, sp`log
      ensures sp.trace == old(sp.trace) + [GetItem(JobEnv)]
      ensures sp.world.env.None? ==> rc == -1 && environ == old(environ) && sp.log == old(sp.log) + [EnvFailedMessage]
      ensures sp.world.env.Some? ==>
        rc == 0 && environ == old(environ) + EntriesBeforeNull(sp.world.env.value) && sp.log == old(sp.log)
    {
      var err, env := sp.GetJobEnv();
      if err != EspankSuccess {
        sp.Error(EnvFailedMessage);
        return -1;
      }
      ghost var entries := EntriesBeforeNull(env);
      assert |entries| < |env|;
      var k := 0;
      while env[k].Some?
        invariant 0 <= k <= |entries|
        invariant environ == old(environ) + entries[..k]
        invariant sp.trace == old(sp.trace) + [GetItem(JobEnv)] && sp.log == old(sp.log)
        decreases |entries| - k
      {
        assert entries[..k + 1] == entries[..k] + [env[k].value];
        environ := environ + [env[k].value];
        k := k + 1;
      }
      assert entries[..k] == entries;
      return 0;
    }

    /** Writes every gathered entry and a newline to the open temporary file. */
    method WriteEnvFile(fd: Int32)
      requires fd in sp.fds && sp.fds[fd] in sp.files
      modifies sp`files
      ensures sp.files == old(sp.files)[sp.fds[fd] := old(sp.files)[sp.fds[fd]] + EnvFileText(environ)]
    {
      var path := sp.fds[fd];
      ghost var start := sp.files[path];
      assert environ[..0] == [] && EnvFileText([]) == "" && start + "" == start;
      assert sp.files == sp.files[path := start + EnvFileText(environ[..0])];
      for i := 0 to |environ|
        invariant path == sp.fds[fd] && path in sp.files
        invariant sp.files == old(sp.files)[path := start + EnvFileText(environ[..i])]
      {
        assert environ[..i + 1] == environ[..i] + [environ[i]];
        TerminatedSnoc(environ[..i], environ[i], "\n");
        ghost var before := sp.files[path];
        sp.Write(fd, environ[i]);
        sp.Write(fd, "\n");
        assert sp.files[path] == before + environ[i] + "\n";
        assert before + environ[i] + "\n" == start + EnvFileText(environ[..i + 1]);
      }
      assert environ[..|environ|] == environ;
    }

    /** `Run`: the four queries in order, each failure ending the run before anything else;
        then the environment file, the command line, `spank_exec` and the file's removal. */
    method Run() returns (r: RetStr, ghost v: RunView)
      modifies this`environ, sp`trace, sp`log, sp`files, sp`fds
      ensures v == RunSpec(sp.world, runner, name, opts, old(environ))
      ensures r == v.result && environ == v.environ
      ensures sp.trace == old(sp.trace) + v.events && sp.log == old(sp.log) + v.errors
      ensures sp.files == (if v.temp.Some? then old(sp.files) - {v.temp.value} else old(sp.files))
      ensures sp.fds == (if v.temp.Some? then old(sp.fds) - {sp.world.mkstemp.value.fd} else old(sp.fds))
    {
      v := RunSpec(sp.world, runner, name, opts, environ);
      var rc, uid, gid, cmd := Gather();
      if rc != 0 {
        return RetStr(-1, ""), v;
      }
      RunSpecLaunch(sp.world, runner, name, opts, old(environ));
      r := Launch(uid, gid, cmd);
    }

    /** The four queries of `Run`, in order, each ending `Run` when it fails. */
    method Gather() returns (rc: int, uid: Int32, gid: Int32, cmd: string)
      modifies this`environ, sp`trace, sp`log
      ensures rc == 0 <==> ContextAvailable(sp.world)
      ensures rc != 0 ==>
        var v := RunSpec(sp.world, runner, name, opts, old(environ));
        && v.result == RetStr(-1, "") && v.temp == None
        && environ == v.environ && sp.trace == old(sp.trace) + v.events && sp.log == old(sp.log) + v.errors
      ensures rc == 0 ==>
        && uid == AsInt32(sp.world.uid.value) && gid == AsInt32(sp.world.gid.value)
        && cmd == JoinArgv(sp.world.argv.value)
        && environ == old(environ) + EntriesBeforeNull(sp.world.env.value)
        && sp.trace == old(sp.trace) + Queries && sp.log == old(sp.log)
    {
      uid, gid, cmd := 0, 0, "";
      {
        var res := GetUID();
        if res.rc != 0 {
          return -1, uid, gid, cmd;
        }
        uid := res.data;
      }
      assert sp.trace == old(sp.trace) + Queries[..1];
      {
        var res := GetGID();
        if res.rc != 0 {
          return -1, uid, gid, cmd;
        }
        gid := res.data;
      }
      assert sp.trace == old(sp.trace) + Queries[..2];
      {
        var res := GetCmd();
        if res.rc != 0 {
          return -1, uid, gid, cmd;
        }
        cmd := res.data;
      }
      assert sp.trace == old(sp.trace) + Queries[..3];
      {
        var err := GetEnv();
        if err != 0 {
          return -1, uid, gid, cmd;
        }
      }
      assert sp.trace == old(sp.trace) + Queries;
      return 0, uid, gid, cmd;
    }

    /** Stages the gathered environment in a new temporary file, one entry per line;
        on failure logs it and gives -1. */
    method StageEnv() returns (tmpfd: Int32, tmpfilename: string)
      modifies sp`trace, sp`log, sp`files, sp`fds
      ensures sp.world.mkstemp.None? ==>
        && tmpfd == -1 && sp.trace == old(sp.trace) + [CreateTemp(None)]
        && sp.log == old(sp.log) + [TempFailedMessage]
        && sp.files == old(sp.files) && sp.fds == old(sp.fds)
      ensures sp.world.mkstemp.Some? ==>
        && tmpfd == sp.world.mkstemp.value.fd && tmpfd != -1 && tmpfilename == TempPath(sp.world.mkstemp.value)
        && sp.trace == old(sp.trace) + [CreateTemp(Some(tmpfilename)), CloseTemp(tmpfilename, EnvFileText(environ))]
        && sp.log == old(sp.log)
        && sp.files == old(sp.files)[tmpfilename := EnvFileText(environ)]
        && sp.fds == old(sp.fds) - {tmpfd}
    {
      tmpfd, tmpfilename := sp.Mkstemp(EnvFileTemplate);
      if tmpfd == -1 {
        sp.Error(TempFailedMessage);
        return;
      }
      WriteEnvFile(tmpfd);
      assert sp.files[tmpfilename] == EnvFileText(environ);
      sp.Close(tmpfd);
    }

    /** Lines after the queries: stage the environment, build the command line, run it, unlink the file. */
    method Launch(uid: Int32, gid: Int32, cmd: string) returns (r: RetStr)
      modifies sp`trace, sp`log, sp`files, sp`fds
      ensures var v := LaunchSpec(sp.world, runner, name, opts, cmd, uid, gid, environ);
        && r == v.result
        && sp.trace == old(sp.trace) + v.events
        && sp.log == old(sp.log) + v.errors
        && sp.files == (if v.temp.Some? then old(sp.files) - {v.temp.value} else old(sp.files))
        && sp.fds == (if v.temp.Some? then old(sp.fds) - {sp.world.mkstemp.value.fd} else old(sp.fds))
    {
      var tmpfd, tmpfilename := StageEnv();
      if tmpfd == -1 {
        return RetStr(-1, "");
      }
      ghost var t1 := sp.trace;
      var cmdLine := CommandLine(runner, name, cmd, opts, uid, gid, tmpfilename);
      var execOut := SpankExec(sp, cmdLine);
      sp.Unlink(tmpfilename);
      assert sp.files == old(sp.files) - {tmpfilename};
      return execOut;
    }
  }

  /** The `fgets` loop of `spank_exec`: the chunks appended in order. */
  method ReadAll(chunks: seq<string>) returns (result: string)
    ensures result == Concat(chunks)
  {
    result := "";
    for i := 0 to |chunks|
      invariant result == Concat(chunks[..i])
    {
      assert chunks[..i + 1][..i] == chunks[..i];
      result := result + chunks[i];
    }
    assert chunks[..|chunks|] == chunks;
  }

  /** `spank_exec`: runs the command, collects its output, normalises its status. */
  method SpankExec(sp: Host, cmd: string) returns (r: RetStr)
    modifies sp`trace
    ensures r == ExecResult(sp.world.exec(cmd))
    ensures sp.trace == old(sp.trace) + [Spawn(cmd)] + (if sp.world.exec(cmd).Runs? then [Reap] else [])
  {
    var pipe := sp.Popen(cmd);
    if pipe.SpawnFails? {
      return RetStr(-1, PopenFailedMessage);
    }
    var result := ReadAll(pipe.chunks);
    if pipe.readThrows {
      var _ := sp.Pclose(pipe);
      return RetStr(-1, ReadFailedMessage);
    }
    var status := sp.Pclose(pipe);
    var rc := CDiv(status as int, 256) as Int32;
    return RetStr(rc, result);
  }
}
