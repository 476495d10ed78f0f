/**
 * The plugin's header: the option dispatch keys, the two-entry option table
 * handed to SLURM, and the plain result records returned by the runner class.
 */
module SpankDockerH {

  /** A C `int`. */
  newtype Int32 = x: int | -0x8000_0000 <= x < 0x8000_0000

  /** A C `uid_t` / `gid_t`. */
  newtype UInt32 = x: int | 0 <= x < 0x1_0000_0000

  /** Dispatch key of `--docker`. */
  const OptDockerName: int := 0
  /** Dispatch key of `--docker-opts`. */
  const OptDockerOpts: int := 1

  /** The symbols SLURM's plugin loader reads. */
  const PluginName: string := "spank-docker"
  const PluginType: string := "spank"
  const PluginVersion: nat := 1

  /** The callbacks the plugin can hand to SLURM; the table uses only one. */
  datatype Callback = OptCbDocker

  /** One `struct spank_option`: name, argument label, usage text, has_arg, val, callback. */
  datatype SpankOption = SpankOption(
    name: string, arginfo: string, usage: string, hasArg: int, val: int, cb: Callback)

  /** `spank_docker_cmd_options`: the options the plugin registers, in registration order. */
  const SpankDockerCmdOptions: seq<SpankOption> := [
    SpankOption("docker", "name", "Name of the container", 1, OptDockerName, OptCbDocker),
    SpankOption("docker-opts", "options", "Options to run for the container", 1, OptDockerOpts, OptCbDocker)
  ]

  /** `struct RetInt`: a status and an integer payload. */
  datatype RetInt = RetInt(rc: Int32, data: Int32)

  /** `struct RetStr`: a status and a text payload. */
  datatype RetStr = RetStr(rc: Int32, data: string)

  /** Storing a host `uid_t` through an `int *`: the same 32 bits read as two's complement. */
  function AsInt32(u: UInt32): (i: Int32)
    ensures i as int % 0x1_0000_0000 == u as int
    ensures 0 <= i as int ==> i as int == u as int
  {
    if u < 0x8000_0000 then u as int as Int32 else (u as int - 0x1_0000_0000) as Int32
  }

  /** C's `a / b` for a positive divisor: the quotient truncated toward zero. */
  function CDiv(a: int, b: int): (q: int)
    requires b > 0
    ensures (a >= 0 ==> 0 <= a - q * b < b) && (a < 0 ==> -b < a - q * b <= 0)
  {
    if a >= 0 then a / b else -((-a) / b)
  }

  /** The two dispatch keys differ, the table has exactly the two options, `--docker` first,
      each taking an argument, carrying its own key and routed to `opt_cb_docker`. */
  lemma OptionTableShape()
    ensures OptDockerName != OptDockerOpts
    ensures |SpankDockerCmdOptions| == 2
    ensures SpankDockerCmdOptions[0].name == "docker" && SpankDockerCmdOptions[0].val == OptDockerName
    ensures SpankDockerCmdOptions[1].name == "docker-opts" && SpankDockerCmdOptions[1].val == OptDockerOpts
    ensures forall k :: 0 <= k < |SpankDockerCmdOptions| ==>
      SpankDockerCmdOptions[k].hasArg == 1 && SpankDockerCmdOptions[k].cb == OptCbDocker
  {
  }

  /** Distinct table entries carry distinct names and distinct dispatch keys. */
  lemma OptionKeysDistinct(i: nat, j: nat)
    requires i < |SpankDockerCmdOptions| && j < |SpankDockerCmdOptions| && i != j
    ensures SpankDockerCmdOptions[i].val != SpankDockerCmdOptions[j].val
    ensures SpankDockerCmdOptions[i].name != SpankDockerCmdOptions[j].name
  {
  }
}
