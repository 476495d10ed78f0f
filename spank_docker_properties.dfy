/**
 * What the plugin's behaviour amounts to: the run stops at the first failed query and
 * never stages a file or spawns the runner without the whole job context, the staged
 * file is removed exactly once and last, the command line carries its five fields in
 * order, the runner's status is decoded from the wait status, and the hook fails closed.
 */
module SpankDockerProperties {
  import opened Wrappers
  import opened Strings
  import opened SpankDockerH
  import opened SpankHost
  import opened SpankDocker

  // ----- _GetCmd -----

  /** The total length of some strings. */
  function TotalLength(parts: seq<string>): nat
  {
    if parts == [] then 0 else TotalLength(parts[..|parts| - 1]) + |parts[|parts| - 1]|
  }

  /** Joining `n >= 1` arguments adds exactly `n - 1` two-character tokens to their text. */
  lemma {:induction false} JoinArgvLength(argv: seq<string>)
    requires |argv| >= 1
    ensures |JoinArgv(argv)| == TotalLength(argv) + |ArgvSep| * (|argv| - 1)
    decreases |argv|
  {
    if |argv| > 1 {
      var init := argv[..|argv| - 1];
      assert argv == init + [argv[|argv| - 1]];
      JoinSnoc(init, argv[|argv| - 1], ArgvSep);
      JoinArgvLength(init);
    }
  }

  /** No arguments give the empty command; the two-argument example gives one token between them. */
  lemma JoinArgvExamples()
    ensures JoinArgv([]) == ""
    ensures JoinArgv(["echo", "hi"]) == "echo\\0hi"
  {
    assert ["echo", "hi"][1..] == ["hi"];
  }

  // ----- Run: the queries -----

  /** The host answers the query `item`. */
  predicate Answered(w: World, item: Item)
  {
    match item
    case JobUid => w.uid.Some?
    case JobGid => w.gid.Some?
    case JobArgv => w.argv.Some?
    case JobEnv => w.env.Some?
  }

  /** When an item is missing, `Run` asks for the uid, gid, argv and environment in that
      order, stops right after the first unanswered query, logs one message and returns
      `{-1, ""}` without creating a file or adding to the environment. */
  lemma RunFailsFast(w: World, runner: string, name: string, opts: string, environ: seq<string>)
    requires !ContextAvailable(w)
    ensures var v := RunSpec(w, runner, name, opts, environ);
      && v.result == RetStr(-1, "") && v.temp == None && v.environ == environ && |v.errors| == 1
      && 1 <= |v.events| <= |Queries| && v.events == Queries[..|v.events|]
      && (forall k :: 0 <= k < |v.events| - 1 ==> Answered(w, v.events[k].item))
      && !Answered(w, v.events[|v.events| - 1].item)
  {
  }

  /** The runner is spawned only when every query succeeded and the file exists, and then
      with the command line built from the host's answers. */
  lemma SpawnNeedsContext(w: World, runner: string, name: string, opts: string, environ: seq<string>,
                          line: string)
    requires Spawn(line) in RunSpec(w, runner, name, opts, environ).events
    ensures ContextAvailable(w) && w.mkstemp.Some?
    ensures line == RunCommandLine(w, runner, name, opts, w.mkstemp.value)
  {
    if ContextAvailable(w) {
      RunSpecLaunch(w, runner, name, opts, environ);
      if w.mkstemp.Some? {
        var t := w.mkstemp.value;
        var l := RunCommandLine(w, runner, name, opts, t);
        var tail := (if w.exec(l).Runs? then [Reap] else []) + [DeleteTemp(TempPath(t))];
        assert RunSpec(w, runner, name, opts, environ).events
          == Queries + [CreateTemp(Some(TempPath(t))), CloseTemp(TempPath(t), EnvFileText(environ + EntriesBeforeNull(w.env.value))), Spawn(l)] + tail;
        assert Spawn(line) !in Queries;
        assert Spawn(line) !in tail;
      }
    }
  }

  // ----- Run: the temporary file -----

  /** A file is staged exactly when every query succeeded and `mkstemp` did; its path is the template's. */
  lemma RunStagesFile(w: World, runner: string, name: string, opts: string, environ: seq<string>)
    ensures var v := RunSpec(w, runner, name, opts, environ);
      v.temp.Some? <==> ContextAvailable(w) && w.mkstemp.Some?
    ensures var v := RunSpec(w, runner, name, opts, environ);
      v.temp.Some? ==> v.temp.value == TempPath(w.mkstemp.value)
  {
    if ContextAvailable(w) {
      RunSpecLaunch(w, runner, name, opts, environ);
    }
  }

  /** Once the file exists it holds every gathered entry followed by a newline when it is
      closed, the runner is spawned after that, the file is deleted exactly once, as the
      very last call, and the runner's result is returned unchanged. */
  lemma RunWithFile(w: World, runner: string, name: string, opts: string, environ: seq<string>)
    requires ContextAvailable(w) && w.mkstemp.Some?
    ensures var v := RunSpec(w, runner, name, opts, environ);
      var path := TempPath(w.mkstemp.value);
      var line := RunCommandLine(w, runner, name, opts, w.mkstemp.value);
      && v.events[..|Queries| + 3]
         == Queries + [CreateTemp(Some(path)), CloseTemp(path, EnvFileText(v.environ)), Spawn(line)]
      && v.events[|v.events| - 1] == DeleteTemp(path)
      && (forall k :: 0 <= k < |v.events| - 1 ==> !v.events[k].DeleteTemp?)
      && v.environ == environ + EntriesBeforeNull(w.env.value)
      && v.result == ExecResult(w.exec(line)) && v.errors == []
  {
    RunSpecLaunch(w, runner, name, opts, environ);
    var t := w.mkstemp.value;
    var path := TempPath(t);
    var env := environ + EntriesBeforeNull(w.env.value);
    var line := RunCommandLine(w, runner, name, opts, t);
    var reaped := w.exec(line).Runs?;
    LaunchEventsOrder(path, EnvFileText(env), line, reaped);
    var launch := [CreateTemp(Some(path)), CloseTemp(path, EnvFileText(env)), Spawn(line)]
      + (if reaped then [Reap] else []) + [DeleteTemp(path)];
    assert RunSpec(w, runner, name, opts, environ).events == Queries + launch;
  }

  /** The calls of a run that staged its file: the queries, creation, closing and spawning
      first, and the deletion last and only there. */
  lemma LaunchEventsOrder(path: string, text: string, line: string, reaped: bool)
    ensures var head := Queries + [CreateTemp(Some(path)), CloseTemp(path, text), Spawn(line)];
      var es := Queries + ([CreateTemp(Some(path)), CloseTemp(path, text), Spawn(line)]
                           + (if reaped then [Reap] else []) + [DeleteTemp(path)]);
      && es[..|Queries| + 3] == head
      && es[|es| - 1] == DeleteTemp(path)
      && (forall k :: 0 <= k < |es| - 1 ==> !es[k].DeleteTemp?)
  {
    var head := Queries + [CreateTemp(Some(path)), CloseTemp(path, text), Spawn(line)];
    var tail := (if reaped then [Reap] else []) + [DeleteTemp(path)];
    var es := Queries + ([CreateTemp(Some(path)), CloseTemp(path, text), Spawn(line)] + (if reaped then [Reap] else []) + [DeleteTemp(path)]);
    assert es == head + tail;
    assert es[..|head|] == head;
    assert forall k :: 0 <= k < |es| - 1 ==> es[k] in head || es[k] == Reap;
  }

  /** When `mkstemp` fails after the queries, the run logs it, spawns nothing and returns `{-1, ""}`. */
  lemma RunWithoutFile(w: World, runner: string, name: string, opts: string, environ: seq<string>)
    requires ContextAvailable(w) && w.mkstemp.None?
    ensures var v := RunSpec(w, runner, name, opts, environ);
      && v.result == RetStr(-1, "") && v.events == Queries + [CreateTemp(None)]
      && v.errors == [TempFailedMessage] && v.temp == None
  {
    RunSpecLaunch(w, runner, name, opts, environ);
  }

  /** The two-entry example of the environment file. */
  lemma EnvFileTextExample()
    ensures EnvFileText(["A=1", "B=2"]) == "A=1\nB=2\n"
  {
    assert ["A=1", "B=2"][1..] == ["B=2"];
  }

  // ----- the command line -----

  /** The `--user` value, the one passed to the shell unquoted, holds no double quote and no space. */
  lemma UserFlagUnquoted(uid: Int32, gid: Int32)
    ensures '"' !in UserFlag(uid, gid)
    ensures ' ' !in UserFlag(uid, gid)
  {
    DecimalHasNo(uid as int, '"');
    DecimalHasNo(gid as int, '"');
    ContainsChar(IntToDecimal(uid as int), '"');
    ContainsChar(IntToDecimal(gid as int), '"');
    DecimalHasNo(uid as int, ' ');
    DecimalHasNo(gid as int, ' ');
    ContainsChar(IntToDecimal(uid as int), ' ');
    ContainsChar(IntToDecimal(gid as int), ' ');
  }

  /** Appending `"flag"value` to a quote-joined text appends the fields `flag` and `value`. */
  lemma {:induction false} JoinQuotedField(parts: seq<string>, flag: string, v: string)
    requires |parts| > 0
    ensures Join(parts, "\"") + "\"" + (flag + "\"") + v == Join(parts + [flag] + [v], "\"")
  {
    JoinSnoc(parts, flag, "\"");
    JoinSnoc(parts + [flag], v, "\"");
  }

  /** Regrouping four appended pieces. */
  lemma AppendFour(x: string, a: string, b: string, c: string, d: string)
    ensures x + a + b + c + d == x + (a + b + c + d)
  {
  }

  /** The command line is its seven fields joined with double quotes. */
  lemma CommandLineIsJoin(runner: string, name: string, cmd: string, opts: string,
                          uid: Int32, gid: Int32, envfile: string)
    ensures Join([runner + " --docker=", name, " --cmd=", cmd, " --opts=", opts,
                  " --user=" + UserFlag(uid, gid) + " --envfile=" + envfile], "\"")
      == CommandLine(runner, name, cmd, opts, uid, gid, envfile)
  {
    var q := "\"";
    var p0 := runner + " --docker=";
    var p6 := " --user=" + UserFlag(uid, gid) + " --envfile=" + envfile;
    var j1 := [p0, name];
    var j3 := j1 + [" --cmd="] + [cmd];
    var j5 := j3 + [" --opts="] + [opts];
    assert " --docker=\"" == " --docker=" + q;
    assert " --cmd=\"" == " --cmd=" + q;
    assert " --opts=\"" == " --opts=" + q;
    var t1 := runner + " --docker=\"" + name;
    JoinSnoc([p0], name, q);
    assert [p0] + [name] == j1;
    assert Join(j1, q) == t1;
    var t3 := t1 + "\"" + " --cmd=\"" + cmd;
    JoinQuotedField(j1, " --cmd=", cmd);
    assert Join(j3, q) == t3;
    var t5 := t3 + "\"" + " --opts=\"" + opts;
    JoinQuotedField(j3, " --opts=", opts);
    assert Join(j5, q) == t5;
    JoinSnoc(j5, p6, q);
    AppendFour(t5 + q, " --user=", UserFlag(uid, gid), " --envfile=", envfile);
    assert j5 + [p6] == [p0, name, " --cmd=", cmd, " --opts=", opts, p6];
  }

  /** Cutting the command line at its double quotes gives back the runner and the five
      flags, with the container name, the command and the options as separate fields,
      whenever none of the values holds a double quote itself. */
  lemma CommandLineFields(runner: string, name: string, cmd: string, opts: string,
                          uid: Int32, gid: Int32, envfile: string)
    requires '"' !in runner && '"' !in name && '"' !in cmd && '"' !in opts && '"' !in envfile
    ensures Split(CommandLine(runner, name, cmd, opts, uid, gid, envfile), "\"")
      == [runner + " --docker=", name, " --cmd=", cmd, " --opts=", opts,
          " --user=" + UserFlag(uid, gid) + " --envfile=" + envfile]
  {
    var last := " --user=" + UserFlag(uid, gid) + " --envfile=" + envfile;
    CommandLineIsJoin(runner, name, cmd, opts, uid, gid, envfile);
    UserFlagUnquoted(uid, gid);
    assert '"' !in " --docker=" && '"' !in " --cmd=" && '"' !in " --opts=";
    assert '"' !in " --user=" && '"' !in " --envfile=";
    assert '"' !in runner + " --docker=";
    assert '"' !in last;
    QuoteFreeFields([runner + " --docker=", name, " --cmd=", cmd, " --opts=", opts, last]);
    SplitJoin([runner + " --docker=", name, " --cmd=", cmd, " --opts=", opts, last], "\"");
  }

  /** Fields without a double-quote character do not contain the one-character pattern. */
  lemma QuoteFreeFields(ps: seq<string>)
    requires forall k :: 0 <= k < |ps| ==> '"' !in ps[k]
    ensures forall k :: 0 <= k < |ps| ==> !Contains(ps[k], "\"")
  {
    forall k | 0 <= k < |ps|
      ensures !Contains(ps[k], "\"")
    {
      ContainsChar(ps[k], '"');
    }
  }

  /** `1000` prints as four characters. */
  lemma ThousandDecimal()
    ensures IntToDecimal(1000) == "1000"
  {
    assert NatToDecimal(1) == "1";
    assert NatToDecimal(10) == "10";
    assert NatToDecimal(100) == "100";
    assert NatToDecimal(1000) == "1000";
  }

  /** The runner string as `slurm_spank_init` builds it ends in a space, so a one-word
      plugstack line gives two spaces before `--docker`. */
  lemma CommandLineExample()
    ensures CommandLine(RunnerPrefix(["/usr/bin/run-container"]), "web", "ls", "", 1000, 1000, "/tmp/x")
      == "/usr/bin/run-container  --docker=\"web\" --cmd=\"ls\" --opts=\"\" --user=1000:1000 --envfile=/tmp/x"
  {
    ThousandDecimal();
    assert RunnerPrefix(["/usr/bin/run-container"]) == "/usr/bin/run-container ";
    assert UserFlag(1000, 1000) == "1000:1000";
    ExampleHead();
    ExampleTail();
  }

  lemma ExampleHead()
    ensures "/usr/bin/run-container " + " --docker=\"" + "web" + "\"" + " --cmd=\"" + "ls" + "\""
      == "/usr/bin/run-container  --docker=\"web\" --cmd=\"ls\""
  {
  }

  lemma ExampleTail()
    ensures "/usr/bin/run-container  --docker=\"web\" --cmd=\"ls\"" + " --opts=\"" + "" + "\""
            + " --user=" + "1000:1000" + " --envfile=" + "/tmp/x"
      == "/usr/bin/run-container  --docker=\"web\" --cmd=\"ls\" --opts=\"\" --user=1000:1000 --envfile=/tmp/x"
  {
    ExampleOpts();
    ExampleUser();
  }

  lemma ExampleOpts()
    ensures "/usr/bin/run-container  --docker=\"web\" --cmd=\"ls\"" + " --opts=\"" + "" + "\""
      == "/usr/bin/run-container  --docker=\"web\" --cmd=\"ls\" --opts=\"\""
  {
  }

  lemma ExampleUser()
    ensures "/usr/bin/run-container  --docker=\"web\" --cmd=\"ls\" --opts=\"\"" + " --user=" + "1000:1000"
            + " --envfile=" + "/tmp/x"
      == "/usr/bin/run-container  --docker=\"web\" --cmd=\"ls\" --opts=\"\" --user=1000:1000 --envfile=/tmp/x"
  {
  }

  /** Cutting the runner string at spaces gives the plugstack arguments back, then one
      empty piece, when no argument holds a space. */
  lemma RunnerPrefixArgs(args: seq<string>)
    requires forall k :: 0 <= k < |args| ==> ' ' !in args[k]
    ensures Split(RunnerPrefix(args), " ") == args + [""]
  {
    forall k | 0 <= k < |args|
      ensures !Contains(args[k], " ")
    {
      ContainsChar(args[k], ' ');
    }
    SplitTerminated(args, " ");
  }

  // ----- spank_exec -----

  /** A runner that exits with `code` gives `code` back, with its output in order. */
  lemma ExecExitCode(chunks: seq<string>, code: int)
    requires 0 <= code < 256
    ensures ExecResult(Runs(chunks, false, (code * 256) as Int32)) == RetStr(code as Int32, Concat(chunks))
  {
  }

  /** A wait status with no exit code in it (a signal, or `pclose` failing with -1) gives 0. */
  lemma ExecNoExitCode(chunks: seq<string>, status: Int32)
    requires -256 < status as int < 256
    ensures ExecResult(Runs(chunks, false, status)).rc == 0
  {
  }

  /** The exit-3 example, and a runner that cannot be spawned. */
  lemma ExecExamples()
    ensures ExecResult(Runs(["oops"], false, 768)) == RetStr(3, "oops")
    ensures ExecResult(SpawnFails) == RetStr(-1, "Unable to run command. popen() failed!")
  {
    assert Concat(["oops"]) == Concat([]) + "oops";
  }

  // ----- the hook -----

  /** The status the parent sees after `exit(status)`: its low eight bits. */
  function ExitStatus(status: Int32): (r: int)
    ensures 0 <= r < 256 && (status as int - r) % 256 == 0
  {
    status as int % 256
  }

  /** Without `--docker` the hook returns 0 and touches nothing. */
  lemma HookWithoutName(w: World, runner: string, opts: string)
    ensures HookSpec(w, runner, "", opts) == HookView(Return(0), [], [], None)
  {
  }

  /** With `--docker` the hook always exits, with the run's own status, and reports the
      run's output, once and after a newline, exactly when there is some. */
  lemma HookReports(w: World, runner: string, name: string, opts: string)
    requires name != ""
    ensures var v := RunSpec(w, runner, name, opts, []);
      var h := HookSpec(w, runner, name, opts);
      && h.outcome == Exit(v.result.rc) && h.events == v.events && h.errors[..|v.errors|] == v.errors
      && (v.result.data != "" <==> |h.errors| == |v.errors| + 1)
      && (v.result.data != "" ==> h.errors[|v.errors|] == "\n" + v.result.data)
      && (v.result.data == "" <==> h.errors == v.errors)
  {
  }

  /** A job whose context cannot be read is never handed to the runner and the task's
      process exits with status 255. */
  lemma HookFailsClosed(w: World, runner: string, name: string, opts: string)
    requires name != "" && !ContextAvailable(w)
    ensures var h := HookSpec(w, runner, name, opts);
      && h.outcome == Exit(-1) && ExitStatus(h.outcome.status) == 255
      && (forall k :: 0 <= k < |h.events| ==> h.events[k].GetItem?)
      && h.temp == None
  {
    RunFailsFast(w, runner, name, opts, []);
  }

  /** End to end: a runner that exits with `code` makes the task exit with `code`, reporting
      its output once exactly when there is some. */
  lemma HookRunnerExits(w: World, runner: string, name: string, opts: string, chunks: seq<string>, code: int)
    requires name != "" && ContextAvailable(w) && w.mkstemp.Some? && 0 <= code < 256
    requires w.exec(RunCommandLine(w, runner, name, opts, w.mkstemp.value)) == Runs(chunks, false, (code * 256) as Int32)
    ensures var h := HookSpec(w, runner, name, opts);
      && h.outcome == Exit(code as Int32)
      && h.errors == (if Concat(chunks) == "" then [] else ["\n" + Concat(chunks)])
  {
    var v := RunSpec(w, runner, name, opts, []);
    RunSpecLaunch(w, runner, name, opts, []);
    ExecExitCode(chunks, code);
    assert v.result == RetStr(code as Int32, Concat(chunks)) && v.errors == [];
    HookReports(w, runner, name, opts);
  }

  /** End to end: a runner that exits 0 without output makes the task exit 0 with nothing reported. */
  lemma HookRunnerSucceeds(w: World, runner: string, name: string, opts: string, chunks: seq<string>)
    requires name != "" && ContextAvailable(w) && w.mkstemp.Some?
    requires w.exec(RunCommandLine(w, runner, name, opts, w.mkstemp.value)) == Runs(chunks, false, 0)
    requires Concat(chunks) == ""
    ensures var h := HookSpec(w, runner, name, opts);
      h.outcome == Exit(0) && ExitStatus(0) == 0 && h.errors == []
  {
    HookRunnerExits(w, runner, name, opts, chunks, 0);
  }

  /** The line `slurm_error("\n%s", "bad opts")` reports. */
  lemma BadOptsLine()
    ensures "bad opts" != "" && "\n" + "bad opts" == "\nbad opts"
  {
    assert |"bad opts"| == 8;
  }

  /** End to end: a runner that exits 5 printing "bad opts" makes the task exit 5, with
      "bad opts" reported exactly once. */
  lemma HookRunnerFails(w: World, runner: string, name: string, opts: string, chunks: seq<string>)
    requires name != "" && ContextAvailable(w) && w.mkstemp.Some?
    requires w.exec(RunCommandLine(w, runner, name, opts, w.mkstemp.value)) == Runs(chunks, false, 5 * 256)
    requires Concat(chunks) == "bad opts"
    ensures var h := HookSpec(w, runner, name, opts);
      h.outcome == Exit(5) && ExitStatus(5) == 5 && h.errors == ["\nbad opts"]
  {
    HookRunnerExits(w, runner, name, opts, chunks, 5);
    BadOptsLine();
  }

  // ----- slurm_spank_init -----

  /** When the host accepts both options, exactly the two registrations are made, `docker` first. */
  lemma RegisterBoth(register: SpankOption -> int)
    requires register(SpankDockerCmdOptions[0]) == EspankSuccess
    requires register(SpankDockerCmdOptions[1]) == EspankSuccess
    ensures FirstRefused(SpankDockerCmdOptions, register) == None
    ensures Registrations(Attempted(SpankDockerCmdOptions, register)) == [Register("docker"), Register("docker-opts")]
  {
    FirstRefusedNone(SpankDockerCmdOptions, register);
  }

  /** A refused first option stops initialisation before the second is tried. */
  lemma RegisterFirstRefused(register: SpankOption -> int)
    requires register(SpankDockerCmdOptions[0]) != EspankSuccess
    ensures FirstRefused(SpankDockerCmdOptions, register) == Some(0)
    ensures Registrations(Attempted(SpankDockerCmdOptions, register)) == [Register("docker")]
  {
    FirstRefusedAt(SpankDockerCmdOptions, register, 0);
  }

  /** A refused second option is reported after both were tried. */
  lemma RegisterSecondRefused(register: SpankOption -> int)
    requires register(SpankDockerCmdOptions[0]) == EspankSuccess
    requires register(SpankDockerCmdOptions[1]) != EspankSuccess
    ensures FirstRefused(SpankDockerCmdOptions, register) == Some(1)
    ensures Registrations(Attempted(SpankDockerCmdOptions, register)) == [Register("docker"), Register("docker-opts")]
  {
    FirstRefusedAt(SpankDockerCmdOptions, register, 1);
  }
}
