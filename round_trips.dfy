/**
 * The plugin and the runner talk through text: the job's argv joined on the two-character
 * token `\0`, the user as `uid:gid`, and the job environment as a file of lines. Each
 * encoding written by the plugin is read back by the runner to what was encoded, under the
 * conditions stated here.
 */
module RoundTrips {
  import opened Wrappers
  import opened Strings
  import opened PyValues
  import opened SpankDockerH
  import opened SpankDocker
  import opened DockerRunnerPy

  /** The plugin joins with the token the runner splits on. */
  lemma SameArgvToken()
    ensures ArgvSep == CmdSep && ArgvSep == ['\\', '0']
  {
  }

  /** Two occurrences of the token never overlap. */
  lemma ArgvTokenUnbordered()
    ensures Unbordered(ArgvSep)
  {
    assert ArgvSep[1..] == "0" && ArgvSep[..1] == "\\";
  }

  /** Splitting the joined argv gives the argv back, when no argument holds the token itself. */
  lemma ArgvRoundTrip(argv: seq<string>)
    requires |argv| >= 1
    requires forall k :: 0 <= k < |argv| ==> !Contains(argv[k], ArgvSep)
    ensures Split(JoinArgv(argv), CmdSep) == argv
  {
    ArgvTokenUnbordered();
    SplitJoin(argv, ArgvSep);
  }

  /** An empty argv reads back as one empty argument. */
  lemma EmptyArgvRoundTrip()
    ensures Split(JoinArgv([]), CmdSep) == [""]
  {
    assert FindFrom("", CmdSep, 0) == None;
  }

  /** An argument holding the token is read back as two. */
  lemma ArgvTokenInArgument()
    ensures Split(JoinArgv(["a\\0b"]), CmdSep) == ["a", "b"]
  {
    var s := JoinArgv(["a\\0b"]);
    assert s == "a" + ArgvSep + "b";
    assert !Contains("a", ArgvSep);
    ArgvTokenUnbordered();
    FindAfterPiece("a", ArgvSep, "b");
    assert s[..1] == "a" && s[3..] == "b";
    assert FindFrom("b", CmdSep, 0) == None;
  }

  /** The runner's decoded command is the plugin's argv with each piece quoted. */
  lemma CommandRoundTrip(argv: seq<string>)
    requires |argv| >= 1
    requires forall k :: 0 <= k < |argv| ==> !Contains(argv[k], ArgvSep)
    ensures CmdPieces(JoinArgv(argv)) == QuoteAll(argv)
    ensures forall k :: 0 <= k < |argv| && ' ' !in argv[k] ==> CmdPieces(JoinArgv(argv))[k] == argv[k]
  {
    ArgvRoundTrip(argv);
    forall k | 0 <= k < |argv| && ' ' !in argv[k]
      ensures Quote(argv[k]) == argv[k]
    {
      QuoteWraps(argv[k]);
    }
  }

  /** The runner splits the plugin's `--user` back into the two decimal ids, which read
      back as the uid and gid the plugin queried. */
  lemma UserRoundTrip(uid: Int32, gid: Int32)
    ensures SplitUser(UserFlag(uid, gid)) == Ok((IntToDecimal(uid as int), IntToDecimal(gid as int)))
    ensures DecimalValue(SplitUser(UserFlag(uid, gid)).value.0) == uid as int
    ensures DecimalValue(SplitUser(UserFlag(uid, gid)).value.1) == gid as int
  {
    var a := IntToDecimal(uid as int);
    var b := IntToDecimal(gid as int);
    DecimalHasNo(uid as int, ':');
    DecimalHasNo(gid as int, ':');
    ContainsChar(a, ':');
    ContainsChar(b, ':');
    SplitUserJoin(a, b);
    IntToDecimalRoundTrip(uid as int);
    IntToDecimalRoundTrip(gid as int);
  }

  /** `readlines` cuts a line holding no newline off at the first newline. */
  lemma ReadLinesCons(p: string, rest: string)
    requires '\n' !in p
    ensures ReadLines(p + "\n" + rest) == [p + "\n"] + ReadLines(rest)
  {
    var text := p + "\n" + rest;
    ContainsChar(p, '\n');
    FindAfterPiece(p, "\n", rest);
    assert text[..|p| + 1] == p + "\n";
    assert text[|p| + 1..] == rest;
  }

  /** `readlines` of newline-terminated lines gives each line with its newline. */
  lemma {:induction false} ReadTerminatedLines(env: seq<string>)
    requires forall k :: 0 <= k < |env| ==> '\n' !in env[k]
    ensures |ReadLines(Terminated(env, "\n"))| == |env|
    ensures forall k :: 0 <= k < |env| ==> ReadLines(Terminated(env, "\n"))[k] == env[k] + "\n"
    decreases |env|
  {
    if env != [] {
      var rest := Terminated(env[1..], "\n");
      assert Terminated(env, "\n") == env[0] + "\n" + rest;
      ReadLinesCons(env[0], rest);
      ReadTerminatedLines(env[1..]);
      var lines := ReadLines(Terminated(env, "\n"));
      assert lines == [env[0] + "\n"] + ReadLines(rest);
      forall k | 0 <= k < |env|
        ensures lines[k] == env[k] + "\n"
      {
        if k > 0 {
          assert lines[k] == ReadLines(rest)[k - 1];
        }
      }
    }
  }

  /** The runner reads back the environment file the plugin wrote, when every entry is
      already stripped of surrounding white space and holds no newline. */
  lemma EnvfileRoundTrip(env: seq<string>)
    requires forall k :: 0 <= k < |env| ==> Stripped(env[k]) && '\n' !in env[k]
    ensures ReadEnvfile(EnvFileText(env)) == env
  {
    ReadTerminatedLines(env);
    var r := ReadEnvfile(EnvFileText(env));
    forall k | 0 <= k < |env|
      ensures r[k] == env[k]
    {
      StripNewline(env[k]);
    }
  }

  /** An entry with a trailing space comes back without it. */
  lemma EnvfileStripsEntry()
    ensures ReadEnvfile(EnvFileText(["A=1 "])) == ["A=1"]
  {
    var e := "A=1 ";
    var line := e + "\n";
    assert Terminated([e], "\n") == e + "\n" + "";
    ReadLinesCons(e, "");
    assert ReadLines(EnvFileText([e])) == [line];
    assert Strip(line) == "A=1" by {
      assert line[0] == 'A' && line[2] == '1' && line[3] == ' ' && line[4] == '\n';
      assert SpanLeft(line, 0) == 0;
      assert SpanRight(line, 0, 5) == 3;
      assert line[0..3] == "A=1";
    }
  }
}
