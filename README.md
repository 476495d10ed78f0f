# spank-docker, modelled in Dafny

spank-docker is a SLURM SPANK plugin that runs a job's command inside a Docker
container. There are two halves:

- **The C++ plugin** (`spank-docker.cpp`, `spank-docker.h`):
  - registers `--docker` and `--docker-opts`, and records the plugstack arguments as the runner command;
  - in the privileged task hook, asks SLURM for the job's uid, gid, argv and environment;
  - writes the environment to a temporary file;
  - launches the runner through `popen` with `--docker`, `--cmd` (the argv joined on the two-character token `\0`), `--opts`, `--user=uid:gid` and `--envfile`;
  - deletes the file, reports the runner's output through `slurm_error`, and exits with the runner's status, so SLURM never goes on with the user's own command.
- **The Python runner** (`runner/docker_runner/docker_runner.py`):
  - reads the environment file back;
  - checks the container against the allow-list;
  - merges the configured container options, letting the user override the docker options when allowed;
  - decodes `--user` and `--cmd`;
  - runs the configured scripts one after another. Host scripts run through a shell; their output lines become `stdout_lines` for the next script. Container scripts run through the docker client.

The Dafny files follow that split:

| file | module | what it holds |
|---|---|---|
| `spank_docker_h.dfy` | `SpankDockerH` | `int`/`uid_t` widths, C division, the option table, `RetInt`/`RetStr` |
| `spank_host.dfy` | `SpankHost` | the SLURM and libc calls the plugin makes, as a `Host` object whose answers come from a `World` |
| `spank_docker.dfy` | `SpankDocker` | the globals and hooks (`Plugin`), the `DockerRunner` class, `spank_exec`, and spec functions for the hook and the run |
| `strings.dfy` | `Strings` | find, split, join, termination, decimal printing, and their round trips |
| `py_values.dfy` | `PyValues` | the Python values the runner handles, `in`, subscripting, iteration, `strip`, `readlines` |
| `docker_runner.dfy` | `DockerRunnerPy` | `read_envfile`, `alter_options`, `Run` (class `Runner` and spec functions) |
| `spank_docker_properties.dfy` | `SpankDockerProperties` | properties of the plugin: fail-closed hook, temp file lifetime, command line, exit codes |
| `docker_runner_properties.dfy` | `DockerRunnerProperties` | properties of the runner: overlay, override, admission, script validation, timeout default, output threading |
| `round_trips.dfy` | `RoundTrips` | what the plugin writes and what the runner reads back: argv, user, environment |

How the model works:

- **State-changing code is a class.**
  - `Plugin` holds the three globals.
  - `SpankDocker.DockerRunner` holds the runner's fields, and `DockerRunnerPy.Runner` holds the runner object.
  - Each method is proved against a spec function of the old state: `HookSpec`, `RunSpec`, `AlterSpec`, `ScriptsSpec`, `ScriptsFrom`.
  - The properties are lemmas about those functions.
- **The host is an oracle.** SLURM and libc are a `Host` (in `SpankHost`) whose answers come from an immutable `World`. It records:
  - the calls made (`trace`),
  - the `slurm_error` lines (`log`),
  - the files that exist (`files`).
- **The runner's libraries are oracles too.** Rendering, `run_cmd`, the docker client and dictionary key order are a value of type `Oracles`.

Behaviours of the code worth noting (the model follows the code):

- **A failed context query exits with -1.** `Run` returns `{-1, ""}` and the hook then calls `exit(-1)`. So the task's process ends with status 255; the hook never returns a status to SLURM (`HookFailsClosed`).
- **A failed `popen` returns a message.** `spank_exec` gives rc -1 and the message text as its output, and the hook forwards that message through `slurm_error`. The same holds for an exception while reading (`ExecExamples`, `SpankDocker.SpankExec`).
- **A failed `mkstemp` creates no file.** No file is created, nothing is deleted, and the runner never runs (`RunWithoutFile`).
- **The constructor ignores its `runner` argument.** The `DockerRunner` constructor reads the global `opt_docker_runner` instead. The model does the same; the two are equal at the only call site.

## Model

| member | source | states |
|---|---|---|
| SpankDockerH.AsInt32 | spank-docker.cpp:117-118 | the host's unsigned id stored through an `int *` is the same value modulo 2^32, and unchanged whenever it fits |
| SpankDockerH.CDiv | spank-docker.cpp:232 | C division by a positive divisor truncates toward zero: the remainder has the dividend's sign and is smaller than the divisor |
| SpankDockerH.OptionTableShape | spank-docker.h:37-47 | the table holds exactly `docker` then `docker-opts`, each with an argument, its own dispatch key and `opt_cb_docker` as callback |
| SpankDockerH.OptionKeysDistinct | spank-docker.h:28-29 | two different table entries never share a name or a dispatch key |
| SpankHost.Host.Error | spank-docker.cpp:45 | `slurm_error` appends exactly one line to the log |
| SpankHost.Host.RegisterOption | spank-docker.cpp:43 | registration records the option's name and returns the host's answer for that option |
| SpankHost.Host.GetJobUid | spank-docker.cpp:118 | succeeds exactly when the host knows the uid, and then yields it as a C `int` |
| SpankHost.Host.GetJobGid | spank-docker.cpp:129 | succeeds exactly when the host knows the gid, and then yields it as a C `int` |
| SpankHost.Host.GetJobArgv | spank-docker.cpp:101 | succeeds exactly when the host knows the argv, and then yields it unchanged |
| SpankHost.Host.GetJobEnv | spank-docker.cpp:140 | succeeds exactly when the host knows the environment array, and then yields it unchanged |
| SpankHost.Host.Mkstemp | spank-docker.cpp:192 | either fails with -1, leaving the template and the files as they were, or creates one new empty file under a name derived from the template |
| SpankHost.Host.Write | spank-docker.cpp:199-200 | the data is appended to the open file and nothing else changes |
| SpankHost.Host.Close | spank-docker.cpp:202 | the descriptor is released and the file's final contents are recorded |
| SpankHost.Host.Unlink | spank-docker.cpp:212 | the file no longer exists |
| SpankHost.Host.Popen | spank-docker.cpp:219 | the spawn is recorded and the process is the host's answer for that command line |
| SpankHost.Host.Pclose | spank-docker.cpp:232 | the wait is recorded and the raw wait status is returned |
| SpankDocker.JoinArgv | spank-docker.cpp:106-111 | the job's arguments with the two-character token `\0` between consecutive ones; `ArgvRoundTrip` and `JoinArgvLength` are its partners |
| SpankDocker.RunnerPrefix | spank-docker.cpp:52-55 | every plugstack argument followed by one space; `RunnerPrefixArgs` reads it back |
| SpankDocker.EnvFileText | spank-docker.cpp:198-201 | every environment entry followed by a newline; `EnvfileRoundTrip` reads it back |
| SpankDocker.UserFlag | spank-docker.cpp:209 | the uid and the gid in decimal around a colon; `UserRoundTrip` reads it back |
| SpankDocker.CommandLine | spank-docker.cpp:204-210 | the runner, then `--docker`, `--cmd` and `--opts` with their values in double quotes, then `--user` and `--envfile` unquoted; `CommandLineIsJoin` and `CommandLineFields` take it apart |
| SpankDocker.ExecResult | spank-docker.cpp:216-234 | a failed `popen` gives -1 and its message, a read exception -1 and its message, otherwise the output with the status divided by 256 toward zero; `ExecExitCode` and `ExecNoExitCode` are its partners |
| SpankDocker.LaunchSpec | spank-docker.cpp:190-213 | after the queries: a failed `mkstemp` logs and gives (-1, ""); otherwise the file is written and closed, the command line run, and the file deleted last; `LaunchEventsOrder` states the order |
| SpankDocker.RunSpec | spank-docker.cpp:153-214 | the four queries in order, the first failure ending the run with (-1, "") and one error line, then the launch; `RunFailsFast`, `RunWithFile` and `SpawnNeedsContext` are its partners |
| SpankDocker.HookSpec | spank-docker.cpp:59-89 | without `--docker` a return of 0; otherwise the run, its non-empty output reported once, and an exit with its rc; `HookReports` and `HookFailsClosed` are its partners |
| SpankDocker.EntriesBeforeNull | spank-docker.cpp:145-148 | the environment entries are taken in order up to the first NULL, and the walk stops exactly there |
| SpankDocker.FirstRefused | spank-docker.cpp:42-49 | the first option the host refuses, with every earlier one accepted; none exactly when all are accepted |
| SpankDocker.FirstRefusedAt | spank-docker.cpp:42-49 | a refusal after a run of acceptances is the first refusal |
| SpankDocker.FirstRefusedNone | spank-docker.cpp:42-49 | when every option is accepted there is no refusal |
| SpankDocker.Registrations | spank-docker.cpp:43 | one registration per attempted option, in table order |
| SpankDocker.RunSpecLaunch | spank-docker.cpp:153-214 | with the whole context available, a run is the four queries followed by staging and launching |
| SpankDocker.Plugin.constructor | spank-docker.cpp:19-21 | container name, options and runner start empty |
| SpankDocker.Plugin.OptCbDocker | spank-docker.cpp:24-34 | returns 0; the key selects which global takes the argument, and any other key changes nothing |
| SpankDocker.Plugin.SpankInit | spank-docker.cpp:36-57 | returns 1 with one error line and no runner text at the first refused option; otherwise returns 0 and appends every plugstack argument and a space |
| SpankDocker.Plugin.RegisterOptions | spank-docker.cpp:40-49 | registers in table order, stops at the first refusal, and reports success exactly when none was refused |
| SpankDocker.Plugin.AppendRunner | spank-docker.cpp:52-55 | the runner text gains each argument followed by one space |
| SpankDocker.Plugin.TaskInitPrivileged | spank-docker.cpp:59-89 | without `--docker` it returns 0 and touches nothing; otherwise it exits with the run's status, after the run's events, errors and output report; the temp file is gone afterwards; the open descriptors are as before, the temporary one closed again |
| SpankDocker.Plugin.RunDocker | spank-docker.cpp:67-71 | a fresh runner over the globals yields the run's result, events, errors and file changes; the open descriptors are as before, the temporary one closed again |
| SpankDocker.DockerRunner.constructor | spank-docker.cpp:92-94 | keeps the name and options, takes the runner from the global, and starts with no environment |
| SpankDocker.DockerRunner.GetCmd | spank-docker.cpp:97-113 | the argv joined on `\0`, or -1 and one error line when the host cannot give it |
| SpankDocker.DockerRunner.GetUID | spank-docker.cpp:116-124 | the uid, or (-1, -1) and one error line |
| SpankDocker.DockerRunner.GetGID | spank-docker.cpp:127-135 | the gid, or (-1, -1) and one error line |
| SpankDocker.DockerRunner.GetEnv | spank-docker.cpp:138-150 | appends the entries before the NULL and returns 0, or returns -1 with one error line and no change |
| SpankDocker.DockerRunner.WriteEnvFile | spank-docker.cpp:198-201 | the file gains every entry followed by a newline, in order |
| SpankDocker.DockerRunner.Run | spank-docker.cpp:153-214 | result, environment, events, error lines and surviving files are those of `RunSpec`; a staged file no longer exists afterwards; the open descriptors are as before, the temporary one closed again |
| SpankDocker.DockerRunner.Gather | spank-docker.cpp:157-189 | returns 0 exactly when all four queries succeed; queries stop at the first failure |
| SpankDocker.DockerRunner.StageEnv | spank-docker.cpp:191-202 | without a file it reports the failure and nothing is created; otherwise the file holds the environment text and is closed |
| SpankDocker.DockerRunner.Launch | spank-docker.cpp:204-213 | runs the assembled command line, returns its result, and deletes the file afterwards; the open descriptors are as before, the temporary one closed again |
| SpankDocker.ReadAll | spank-docker.cpp:224-227 | the output is every chunk read, in arrival order |
| SpankDocker.SpankExec | spank-docker.cpp:216-234 | a failed spawn gives -1 and the message; a read exception gives -1 and the message after reaping; otherwise the output and the wait status divided by 256 |
| SpankDockerProperties.JoinArgvLength | spank-docker.cpp:106-111 | the joined command is every argument plus two characters per gap |
| SpankDockerProperties.JoinArgvExamples | spank-docker.cpp:106-111 | an empty argv joins to the empty string; `echo hi` joins to `echo\0hi` |
| SpankDockerProperties.RunFailsFast | spank-docker.cpp:157-189 | a missing query result gives (-1, ""), one error line, no file, and a prefix of the queries ending right at the failed one |
| SpankDockerProperties.SpawnNeedsContext | spank-docker.cpp:153-214 | the runner is spawned only with every query answered and a temp file created, and only with the assembled command line |
| SpankDockerProperties.RunStagesFile | spank-docker.cpp:191-196 | a temp file exists for the run exactly when the context is available and `mkstemp` succeeds |
| SpankDockerProperties.RunWithFile | spank-docker.cpp:191-213 | queries, create, write-and-close, spawn, with the file deleted last and exactly once; the result is the runner's, with no errors |
| SpankDockerProperties.LaunchEventsOrder | spank-docker.cpp:191-213 | a staged run makes the queries, creation, closing and spawning first, and deletes the file last and nowhere else |
| SpankDockerProperties.RunWithoutFile | spank-docker.cpp:193-196 | a failed `mkstemp` gives (-1, ""), one error line and no spawn |
| SpankDockerProperties.EnvFileTextExample | spank-docker.cpp:198-201 | `A=1`, `B=2` are written as `A=1\nB=2\n` |
| SpankDockerProperties.UserFlagUnquoted | spank-docker.cpp:209 | the `--user` value never holds a double quote or a space |
| SpankDockerProperties.JoinQuotedField | spank-docker.cpp:206-208 | writing `"flag"value` after quote-joined text adds the two fields to the join |
| SpankDockerProperties.CommandLineIsJoin | spank-docker.cpp:204-210 | the command line is its seven fields joined on double quotes |
| SpankDockerProperties.CommandLineFields | spank-docker.cpp:204-210 | when no value holds a double quote, splitting the command line on double quotes gives back the name, the command, the options and the user-and-file tail |
| SpankDockerProperties.ThousandDecimal | spank-docker.cpp:209 | 1000 prints as `1000` |
| SpankDockerProperties.CommandLineExample | spank-docker.cpp:204-210 | a concrete command line, with the double space from the runner's trailing space |
| SpankDockerProperties.ExampleHead | spank-docker.cpp:205-207 | proof step of `CommandLineExample`: the first fields of the concrete command line |
| SpankDockerProperties.ExampleTail | spank-docker.cpp:208-210 | proof step of `CommandLineExample`: the last fields of the concrete command line |
| SpankDockerProperties.ExampleOpts | spank-docker.cpp:208 | proof step of `CommandLineExample`: the options field of the concrete command line |
| SpankDockerProperties.ExampleUser | spank-docker.cpp:209-210 | proof step of `CommandLineExample`: the user and file fields of the concrete command line |
| SpankDockerProperties.RunnerPrefixArgs | spank-docker.cpp:52-55 | splitting the runner text on spaces gives the plugstack arguments and one empty tail, when no argument holds a space |
| SpankDockerProperties.ExecExitCode | spank-docker.cpp:232-233 | a runner exiting with code c in 0..255 gives rc c and the full output |
| SpankDockerProperties.ExecNoExitCode | spank-docker.cpp:232 | a status below 256 in magnitude (a signal, or `pclose` failing) gives rc 0 |
| SpankDockerProperties.ExecExamples | spank-docker.cpp:216-234 | exit 3 with `oops` gives (3, `oops`); a failed spawn gives -1 and the popen message |
| SpankDockerProperties.ExitStatus | spank-docker.cpp:86 | the status the parent sees lies in 0..255 and is congruent to the exit argument modulo 256 |
| SpankDockerProperties.HookWithoutName | spank-docker.cpp:62-64 | without `--docker` the hook returns 0 and does nothing |
| SpankDockerProperties.HookReports | spank-docker.cpp:71-86 | with `--docker` the hook always exits with the run's status; it reports output once, after a newline, exactly when there is some |
| SpankDockerProperties.HookFailsClosed | spank-docker.cpp:59-89 | a missing context never reaches the runner; the task exits with status 255 and no file is left |
| SpankDockerProperties.HookRunnerExits | spank-docker.cpp:59-89 | a runner exiting with code c in 0..255 makes the task exit with c, reporting its output once exactly when there is some |
| SpankDockerProperties.HookRunnerSucceeds | spank-docker.cpp:59-89 | a runner exiting 0 with no output makes the task exit 0 with nothing reported |
| SpankDockerProperties.HookRunnerFails | spank-docker.cpp:59-89 | a runner exiting 5 with `bad opts` makes the task exit 5 with `bad opts` reported exactly once |
| SpankDockerProperties.RegisterBoth | spank-docker.cpp:42-49 | both accepted: two registrations, `docker` first, no refusal |
| SpankDockerProperties.RegisterFirstRefused | spank-docker.cpp:42-49 | a refused first option stops before the second is tried |
| SpankDockerProperties.RegisterSecondRefused | spank-docker.cpp:42-49 | a refused second option is reported after both were tried |
| Strings.FindFrom | runner/docker_runner/docker_runner.py:99 | the leftmost occurrence at or after the start, or none at all |
| Strings.PyFind | runner/docker_runner/docker_runner.py:99 | `find` gives -1 exactly when the pattern is absent, else its leftmost index |
| Strings.Split | runner/docker_runner/docker_runner.py:96 | `split` always yields at least one piece |
| Strings.FirstPieceFree | runner/docker_runner/docker_runner.py:95 | the first piece of a split holds no separator |
| Strings.SplitPiecesFree | runner/docker_runner/docker_runner.py:95 | no piece of a split holds the separator |
| Strings.ContainsChar | runner/docker_runner/docker_runner.py:99 | a one-character pattern occurs exactly when the character does |
| Strings.JoinSnoc | runner/docker_runner/docker_runner.py:109 | appending a piece to a join adds one separator and the piece |
| Strings.TerminatedSnoc | spank-docker.cpp:198-201 | appending a line to terminated text adds the line and one terminator |
| Strings.TerminatedIsJoin | spank-docker.cpp:52-55 | terminating every piece is joining them with an empty piece at the end |
| Strings.JoinSplit | runner/docker_runner/docker_runner.py:95 | splitting and joining back gives the original text |
| Strings.NoMatchInsidePiece | runner/docker_runner/docker_runner.py:96 | a separator without borders cannot start inside a piece that lacks it |
| Strings.FindAfterPiece | runner/docker_runner/docker_runner.py:96 | the first separator of `p + sep + rest` is the one right after `p` |
| Strings.SplitJoin | runner/docker_runner/docker_runner.py:96 | joining separator-free pieces and splitting gives the pieces back |
| Strings.ConcatCons | runner/docker_runner/docker_runner.py:59 | concatenating a piece in front of a run of pieces puts it in front of their concatenation |
| Strings.SplitTerminated | spank-docker.cpp:52-55 | splitting terminated text gives the pieces and one empty tail |
| Strings.DigitChar | spank-docker.cpp:209 | a digit value below ten prints as a digit character |
| Strings.NatToDecimal | spank-docker.cpp:209 | a natural number prints as a non-empty string of digits |
| Strings.IntToDecimal | spank-docker.cpp:209 | an `int` prints as digits, with a leading minus exactly when it is negative |
| Strings.NatToDecimalValue | spank-docker.cpp:209 | printed digits read back as the number |
| Strings.IntToDecimalRoundTrip | spank-docker.cpp:209 | a printed `int` reads back as the same integer |
| Strings.DecimalHasNo | spank-docker.cpp:209 | a printed `int` holds nothing but digits and the minus sign |
| PyValues.SpanLeft | runner/docker_runner/docker_runner.py:59 | the leading white space of a line is skipped up to the first other character |
| PyValues.SpanRight | runner/docker_runner/docker_runner.py:59 | the trailing white space of a line is skipped back to the last other character |
| PyValues.Strip | runner/docker_runner/docker_runner.py:59 | `strip` gives a stripped middle part of the line, with only white space removed on either side |
| PyValues.StripNewline | runner/docker_runner/docker_runner.py:59 | a stripped entry, with or without its newline, strips to itself |
| PyValues.ReadLines | runner/docker_runner/docker_runner.py:59 | `readlines` gives non-empty lines, each ending in its only newline except possibly the last |
| PyValues.ReadLinesConcat | runner/docker_runner/docker_runner.py:59 | the lines `readlines` gives, put back together, are the file's text |
| PyValues.Truthy | runner/docker_runner/docker_runner.py:73-74 | Python 2 truthiness: `None`, `False`, zero and empty strings, lists and dicts are false, everything else true |
| PyValues.PyIn | runner/docker_runner/docker_runner.py:78-79 | Python 2 `in`: substring test on a string, element test on a list or tuple, key test on a dict (`TypeError` for a list or dict needle), `TypeError` on numbers and `None` |
| PyValues.Subscript | runner/docker_runner/docker_runner.py:64 | `v[key]` on a dict gives the value or `KeyError`; other values raise `TypeError` |
| PyValues.Iterate | runner/docker_runner/docker_runner.py:112 | `for elem in v`: the characters of a string, the elements of a list or tuple, the keys of a dict in the order oracle's order, `TypeError` otherwise |
| DockerRunnerPy.AlterSpec | runner/docker_runner/docker_runner.py:62-75 | `container_options` read (or `KeyError`), the `'*'` entries overlaid, and `docker` set to `--opts` when the merged options allow user override; `AlterOverlaysStar`, `AlterUserOverride` and `AlterErrors` are its partners |
| DockerRunnerPy.Admission | runner/docker_runner/docker_runner.py:78-79 | admitted unless `alowed_containers` is configured and the container is not in it; `AdmissionAdmits` and `AdmissionRefuses` are its partners |
| DockerRunnerPy.ScriptsSpec | runner/docker_runner/docker_runner.py:112-184 | the scripts iterated (or the error of iterating them), the loop run from the first one with no output lines, and the scripts put back with their defaulted timeouts; `OneHostScripts` is its partner |
| DockerRunnerPy.RunSpec | runner/docker_runner/docker_runner.py:77-184 | admission, then `alter_options`, then the `--user` split and the `--cmd` decoding, then the script loop, each failure ending the run; `RunAfterAdmission` and `OneHostScriptRun` are its partners |
| DockerRunnerPy.ReadEnvfile | runner/docker_runner/docker_runner.py:57-60 | one entry per line, each stripped and free of newlines |
| DockerRunnerPy.StripLinesNoNewline | runner/docker_runner/docker_runner.py:59 | stripping the lines `readlines` gives leaves no newline |
| DockerRunnerPy.StripNoNewline | runner/docker_runner/docker_runner.py:59 | stripping a line whose only newline is last leaves none |
| DockerRunnerPy.Overlay | runner/docker_runner/docker_runner.py:66-67 | every overlaid key takes the new value and every other key is kept |
| DockerRunnerPy.SplitUser | runner/docker_runner/docker_runner.py:95 | an accepted `--user` is two colon-free parts around its only colon; any failure is `ValueError` |
| DockerRunnerPy.SplitUserJoin | runner/docker_runner/docker_runner.py:95 | any two colon-free parts around one colon are accepted and given back, so `SplitUser` succeeds exactly on such text |
| DockerRunnerPy.QuoteWraps | runner/docker_runner/docker_runner.py:99-102 | a piece is quoted exactly when it is non-empty, does not start with a space, and holds one |
| DockerRunnerPy.Quote | runner/docker_runner/docker_runner.py:99-102 | a `--cmd` piece wrapped in double quotes when `find(" ") > 0`; characterised by `QuoteWraps` |
| DockerRunnerPy.QuoteAll | runner/docker_runner/docker_runner.py:98-102 | each piece is quoted in place, same length and order |
| DockerRunnerPy.DecodeCmd | runner/docker_runner/docker_runner.py:96-102 | the decoding loop builds the quoted pieces of `--cmd` split on `\0` |
| DockerRunnerPy.WithDefaultTimeout | runner/docker_runner/docker_runner.py:125-126 | exactly a script dict is accepted, and it comes out with a timeout, added only when missing; anything else raises |
| DockerRunnerPy.Step | runner/docker_runner/docker_runner.py:114-182 | one iteration changes the script at most by adding the default timeout |
| DockerRunnerPy.Execute | runner/docker_runner/docker_runner.py:144-182 | running a validated script leaves the script itself as it is |
| DockerRunnerPy.ContainerOptions | runner/docker_runner/docker_runner.py:162-171 | the configured docker options plus image, `bash -c` command, remove, tty, stderr and environment, with everything else kept |
| DockerRunnerPy.BashCommand | runner/docker_runner/docker_runner.py:164-166 | the container command `bash -c "<body>"` with every double quote of the body backslash-escaped |
| DockerRunnerPy.BashCommandPlain | runner/docker_runner/docker_runner.py:164-166 | a body without double quotes is put between the quotes of `bash -c` unchanged |
| DockerRunnerPy.ScriptsFrom | runner/docker_runner/docker_runner.py:112-184 | the loop keeps the number of scripts and changes each at most by the timeout default |
| DockerRunnerPy.Turn | runner/docker_runner/docker_runner.py:112-182 | one turn of the loop followed by the rest keeps the same two facts |
| DockerRunnerPy.ScriptsFromStep | runner/docker_runner/docker_runner.py:112-157 | a stopping script ends the loop there; otherwise the rest runs with its lines and its output follows |
| DockerRunnerPy.TakeStep | runner/docker_runner/docker_runner.py:112-182 | one iteration keeps the loop on course toward the loop's final result |
| DockerRunnerPy.LoopRestStop | runner/docker_runner/docker_runner.py:112-182 | a script that stops the loop gives the whole loop's outcome, scripts and output |
| DockerRunnerPy.LoopRestNext | runner/docker_runner/docker_runner.py:112-182 | after a script that goes on, the rest of the loop, with the new lines, still accounts for the whole loop's result |
| DockerRunnerPy.TimeoutDefaultedTwice | runner/docker_runner/docker_runner.py:125-126 | defaulting the timeout twice is defaulting it once |
| DockerRunnerPy.RewrapSame | runner/docker_runner/docker_runner.py:112 | putting back the elements just iterated leaves the scripts value unchanged |
| DockerRunnerPy.Runner.constructor | runner/docker_runner/docker_runner.py:45-55 | keeps args and config, starts from the empty `docker` and `scripts` options, reads the environment file |
| DockerRunnerPy.Runner.AlterOptions | runner/docker_runner/docker_runner.py:62-75 | options and raised error are those of `AlterSpec` on the old options |
| DockerRunnerPy.Runner.SetAll | runner/docker_runner/docker_runner.py:66-67 | the options are overlaid with the update |
| DockerRunnerPy.Runner.Run | runner/docker_runner/docker_runner.py:77-184 | result, new options and written output are those of `RunSpec` on the old options |
| DockerRunnerPy.Runner.RunScripts | runner/docker_runner/docker_runner.py:112-184 | result, options and output are those of `ScriptsSpec` |
| DockerRunnerPy.Runner.WalkScripts | runner/docker_runner/docker_runner.py:112-184 | the loop's result and output are those of `ScriptsFrom`, and the scripts in the options are its mutated ones |
| DockerRunnerProperties.ContainerItemsNeverMatch | runner/docker_runner/docker_runner.py:69 | a container name is never among a dictionary's items, so the per-container overlay never runs |
| DockerRunnerProperties.AlterOverlaysStar | runner/docker_runner/docker_runner.py:64-67 | every `'*'` key overwrites its option, the others are kept, and nothing else is added |
| DockerRunnerProperties.AlterWithoutStar | runner/docker_runner/docker_runner.py:64-75 | without `'*'` and without override the options are unchanged and nothing is raised |
| DockerRunnerProperties.AlterUserOverride | runner/docker_runner/docker_runner.py:73-75 | when the merged options allow it, the docker options become the user's `--opts` and the rest is the overlay |
| DockerRunnerProperties.AlterErrors | runner/docker_runner/docker_runner.py:64-66 | a missing `container_options` raises `KeyError`; a `'*'` that is not a dict raises `AttributeError` |
| DockerRunnerProperties.InitialOptionsShape | runner/docker_runner/docker_runner.py:51-54 | the runner starts with exactly `docker` and `scripts`, both empty strings |
| DockerRunnerProperties.AdmissionRefuses | runner/docker_runner/docker_runner.py:78-86 | a container off the allow-list gives `False`, with options untouched and nothing written |
| DockerRunnerProperties.AdmissionAdmits | runner/docker_runner/docker_runner.py:78-79 | admitted exactly when there is no allow-list or the container is on it |
| DockerRunnerProperties.BadUserRaises | runner/docker_runner/docker_runner.py:95 | a `--user` without exactly one colon raises `ValueError` |
| DockerRunnerProperties.RunAfterAdmission | runner/docker_runner/docker_runner.py:88-112 | once admitted, merged and with `--user` decoded, `Run` is the script loop over the merged options with ids, envfile, image and decoded command as template variables |
| DockerRunnerProperties.Defaulted | runner/docker_runner/docker_runner.py:125-126 | the script gains `timeout` 30 only when missing, with all else kept |
| DockerRunnerProperties.StepRejects | runner/docker_runner/docker_runner.py:114-123 | a missing or unknown type, or a missing script, stops the run with `False` and the script unchanged |
| DockerRunnerProperties.ValidatedStep | runner/docker_runner/docker_runner.py:114-126 | a script with type `host` or `container` and a `script` key passes validation, gains its default timeout and is run where its type says |
| DockerRunnerProperties.ContainerExecute | runner/docker_runner/docker_runner.py:159-182 | with dictionary docker options, a validated container script runs its assembled options; output is written, a `ContainerError` is only logged, other errors raise |
| DockerRunnerProperties.HostStep | runner/docker_runner/docker_runner.py:125-157 | a host script runs with its timeout (30 by default); a non-zero status stops with `False`, else its output lines become `stdout_lines` |
| DockerRunnerProperties.ContainerStep | runner/docker_runner/docker_runner.py:159-182 | a container script runs its assembled options; output is written, a `ContainerError` is only logged, other errors raise; `stdout_lines` stays |
| DockerRunnerProperties.ContainerStepNeedsDict | runner/docker_runner/docker_runner.py:162 | with the docker options still the initial string, a container script raises `AttributeError` |
| DockerRunnerProperties.HostOutputFeedsNext | runner/docker_runner/docker_runner.py:144-157 | after a successful host script the rest of the loop sees its output lines |
| DockerRunnerProperties.StopEndsLoop | runner/docker_runner/docker_runner.py:114-153 | a stopping script ends the loop with the later scripts untouched |
| DockerRunnerProperties.LoopEndsTrue | runner/docker_runner/docker_runner.py:184 | the end of the scripts returns `True` |
| DockerRunnerProperties.OneHostLoop | runner/docker_runner/docker_runner.py:112-184 | one successful host script: `True`, with the script defaulted |
| DockerRunnerProperties.GlobalConfigAlter | runner/docker_runner/docker_runner.py:62-88 | a global-only configuration admits the container and replaces only the scripts |
| DockerRunnerProperties.OneHostScripts | runner/docker_runner/docker_runner.py:112-184 | the scripts part of a run over one successful host script |
| DockerRunnerProperties.OneHostScriptRun | runner/docker_runner/docker_runner.py:77-184 | end to end: one successful host script gives `True`, the script gains its default timeout, nothing is written |
| DockerRunnerProperties.HostScriptDefault | runner/docker_runner/docker_runner.py:125-126 | `{'type': 'host', 'script': s}` gains `'timeout': 30` |
| RoundTrips.SameArgvToken | runner/docker_runner/docker_runner.py:96 | the plugin joins with the two characters the runner splits on |
| RoundTrips.ArgvTokenUnbordered | spank-docker.cpp:109 | two occurrences of the token never overlap |
| RoundTrips.ArgvRoundTrip | spank-docker.cpp:106-111 | the runner splits the joined argv back into the argv when no argument holds the token |
| RoundTrips.EmptyArgvRoundTrip | runner/docker_runner/docker_runner.py:96 | an empty argv reads back as a single empty argument |
| RoundTrips.ArgvTokenInArgument | runner/docker_runner/docker_runner.py:96 | an argument holding the token reads back as two |
| RoundTrips.CommandRoundTrip | runner/docker_runner/docker_runner.py:96-102 | the decoded command is the argv with each piece quoted, and pieces without spaces are kept as they are |
| RoundTrips.UserRoundTrip | runner/docker_runner/docker_runner.py:95 | the runner splits `--user` into the printed ids, which read back as the uid and gid |
| RoundTrips.ReadLinesCons | runner/docker_runner/docker_runner.py:59 | `readlines` cuts a newline-free line off at the first newline |
| RoundTrips.ReadTerminatedLines | runner/docker_runner/docker_runner.py:59 | reading newline-terminated entries gives each entry followed by its newline |
| RoundTrips.EnvfileRoundTrip | runner/docker_runner/docker_runner.py:57-60 | the runner reads back the environment the plugin wrote, when entries are stripped and newline-free |
| RoundTrips.EnvfileStripsEntry | runner/docker_runner/docker_runner.py:59 | an entry with a trailing space comes back without it |

## Left out

- Logging: `self.log.*` messages, log levels and `logging.basicConfig` are not modelled. `slurm_error` is modelled as appending its message line.
- `run_cmd` (`docker_runner.py:13-40`) is an oracle from the rendered body and timeout to (rc, stdout, stderr). Its subprocess, its timer kill and its captured exception are not modelled.
- Jinja2 rendering is an oracle from the template and the variables to text.
- The docker client is an oracle from the option dictionary to output, `ContainerError` or another error. `docker.from_env()` failing is not modelled.
- `socket.gethostname()` (`docker_runner.py:177`) and the `script_body.replace("\n", "\\n")` of `docker_runner.py:139` only feed log messages, and are left out. The `replace` of `docker_runner.py:165` builds the container command and is modelled as `BashCommand`.
- `cmd.py` (argument parsing and configuration loading) is not part of this model. The runner receives its arguments and configuration as values.
- Opening the environment file: the constructor receives the file's text. A missing file, a `None` envfile and I/O errors are not modelled.
- Aliasing: option values are the same objects as the configuration's. So a script's `timeout` added in place also appears in `CONFIG`, and in any other key sharing that list. The model tracks the change only in `options['scripts']`.
- Python's mixed-type equality (`1 == True`, `1 == 1.0`) differs from the model's structural equality of values.
- Python values: dictionaries are keyed by strings only, so a YAML mapping with integer or boolean keys (`1: x`) is not modelled. A tuple needle holding a list or dict is unhashable in Python 2, so `in` on a dict raises `TypeError`; the model answers `False`. Every needle the runner tests is a string.
- Python values: the `Value` datatype has no floats (a YAML `timeout: 1.5` cannot be written down), and Python 2 byte strings are modelled as sequences of characters, with no encoding.
- The key order of a dictionary-valued `scripts` is an oracle (`Oracles.dictOrder`). Nothing requires it to list each key exactly once, so the model also admits orders that drop or repeat keys.
- The per-container overlay (`docker_runner.py:69-71`) is not modelled, because its guard never holds (`ContainerItemsNeverMatch`).
- `spank_exec`'s 128-byte `fgets` buffer and `feof` loop: the output arrives as the chunks the host gives. An exception while reading is a flag of the process.
- The shell that `popen` starts is not modelled. The command line is handed to it unescaped; `CommandLineFields` covers only values without double quotes.
- `Host.Mkstemp`: the model does not require that the file name and descriptor it returns are unused, as `mkstemp`'s exclusive creation guarantees. With a reused name the model would truncate that file and `TaskInitPrivileged` would then remove it.
- `errno`, short writes from `write`, the permissions and random name of `mkstemp`, and the return values of `close` and `unlink` are not modelled.
- `exit(rc)` is modelled as the terminal outcome `Exit(rc)`. The process's termination itself is not.
- The `remote` argument of `opt_cb_docker` is ignored, as in the source.
- The plugin symbols `plugin_name`, `plugin_type` and `plugin_version` (`spank-docker.h:31-33`) are constants only, with nothing proved about them.
