/**
 * Everything outside the plugin that the plugin talks to, as a fake provider:
 * SLURM's `spank_get_item`, `spank_option_register` and `slurm_error`, and the
 * C library's `mkstemp`, `write`, `close`, `unlink`, `popen` and `pclose`.
 * What the outside world answers is fixed in a `World` value; what the plugin
 * does to it is recorded in a ghost trace, the error log and a ghost file system.
 */
module SpankHost {
  import opened Wrappers
  import opened SpankDockerH

  /** `ESPANK_SUCCESS`. */
  const EspankSuccess: int := 0
  /** `ESPANK_ERROR`: the answer the fake provider gives for an unavailable item. */
  const EspankError: int := 1

  /** The `spank_get_item` items the plugin asks for. */
  datatype Item = JobUid | JobGid | JobArgv | JobEnv

  /** A NULL-terminated array of C strings: `None` is the NULL pointer. */
  type CStringArray = a: seq<Option<string>> | None in a witness [None]

  /** A descriptor of an open file. */
  type Fd = x: Int32 | 0 <= x

  /** A successful `mkstemp`: the descriptor and the six characters that replace `XXXXXX`. */
  datatype TempFile = TempFile(fd: Fd, unique: string)

  /** What a `popen`ed command does, as seen through its pipe. */
  datatype Process =
    | SpawnFails
      /** The text pieces `fgets` delivers, whether reading them threw, and the raw `pclose` status. */
    | Runs(chunks: seq<string>, readThrows: bool, status: Int32)

  /** The answers of the outside world; `None` is an item or a call that fails. */
  datatype World = World(
    uid: Option<UInt32>,
    gid: Option<UInt32>,
    argv: Option<seq<string>>,
    env: Option<CStringArray>,
    register: SpankOption -> int,
    mkstemp: Option<TempFile>,
    exec: string -> Process)

  /** The calls the plugin makes on the outside world, in order. */
  datatype Event =
    | GetItem(item: Item)
    | Register(option: string)
    | CreateTemp(created: Option<string>)
    | CloseTemp(path: string, content: string)
    | Spawn(command: string)
    | Reap
    | DeleteTemp(path: string)

  class Host {
    const world: World
    /** Messages passed to `slurm_error`, oldest first. */
    var log: seq<string>
    ghost var trace: seq<Event>
    /** File contents by path. */
    ghost var files: map<string, string>
    /** The path behind every open descriptor. */
    ghost var fds: map<Int32, string>

    constructor (w: World)
      ensures world == w && log == [] && trace == [] && files == map[] && fds == map[]
    {
      world := w;
      log, trace, files, fds := [], [], map[], map[];
    }

    /** `slurm_error(msg)`. */
    method Error(msg: string)
      modifies this`log
      ensures log == old(log) + [msg]
    {
      log := log + [msg];
    }

    /** `spank_get_item(sp, S_JOB_UID, &uid)` with `uid` an `int`. */
    method GetJobUid() returns (err: int, uid: Int32)
      modifies this`trace
      ensures trace == old(trace) + [GetItem(JobUid)]
      ensures err == EspankSuccess <==> world.uid.Some?
      ensures world.uid.Some? ==> uid == AsInt32(world.uid.value)
    {
      trace := trace + [GetItem(JobUid)];
      match world.uid
      case Some(u) => err, uid := EspankSuccess, AsInt32(u);
      case None => err, uid := EspankError, 0;
    }

    /** `spank_get_item(sp, S_JOB_GID, &gid)` with `gid` an `int`. */
    method GetJobGid() returns (err: int, gid: Int32)
      modifies this`trace
      ensures trace == old(trace) + [GetItem(JobGid)]
      ensures err == EspankSuccess <==> world.gid.Some?
      ensures world.gid.Some? ==> gid == AsInt32(world.gid.value)
    {
      trace := trace + [GetItem(JobGid)];
      match world.gid
      case Some(g) => err, gid := EspankSuccess, AsInt32(g);
      case None => err, gid := EspankError, 0;
    }

    /** `spank_get_item(sp, S_JOB_ARGV, &jac, &jav)`. */
    method GetJobArgv() returns (err: int, jav: seq<string>)
      modifies this`trace
      ensures trace == old(trace) + [GetItem(JobArgv)]
      ensures err == EspankSuccess <==> world.argv.Some?
      ensures world.argv.Some? ==> jav == world.argv.value
    {
      trace := trace + [GetItem(JobArgv)];
      match world.argv
      case Some(a) => err, jav := EspankSuccess, a;
      case None => err, jav := EspankError, [];
    }

    /** `spank_get_item(sp, S_JOB_ENV, &env)`. */
    method GetJobEnv() returns (err: int, env: CStringArray)
      modifies this`trace
      ensures trace == old(trace) + [GetItem(JobEnv)]
      ensures err == EspankSuccess <==> world.env.Some?
      ensures world.env.Some? ==> env == world.env.value
    {
      trace := trace + [GetItem(JobEnv)];
      match world.env
      case Some(e) => err, env := EspankSuccess, e;
      case None => err, env := EspankError, [None];
    }

    /** `spank_option_register(sp, opt)`. */
    method RegisterOption(opt: SpankOption) returns (err: int)
      modifies this`trace
      ensures trace == old(trace) + [Register(opt.name)]
      ensures err == world.register(opt)
    {
      trace := trace + [Register(opt.name)];
      err := world.register(opt);
    }

    /** `mkstemp(template)`: on success the template's last six characters are replaced
        and a new empty file is open; on failure the result is -1. */
    method Mkstemp(template: string) returns (fd: Int32, path: string)
      requires |template| >= 6
      modifies this`trace, this`files, this`fds
      ensures world.mkstemp.None? ==> fd == -1 && path == template && files == old(files) && fds == old(fds)
      ensures world.mkstemp.Some? ==>
        && fd == world.mkstemp.value.fd
        && path == template[..|template| - 6] + world.mkstemp.value.unique
        && files == old(files)[path := ""] && fds == old(fds)[fd := path]
      ensures trace == old(trace) + [CreateTemp(if world.mkstemp.Some? then Some(path) else None)]
    {
      match world.mkstemp {
      case None =>
        fd, path := -1, template;
      case Some(t) =>
        fd, path := t.fd, template[..|template| - 6] + t.unique;
        files := files[path := ""];
        fds := fds[fd := path];
      }
      trace := trace + [CreateTemp(if world.mkstemp.Some? then Some(path) else None)];
    }

    /** `write(fd, data, |data|)`, writing everything. */
    method Write(fd: Int32, data: string)
      requires fd in fds && fds[fd] in files
      modifies this`files
      ensures files == old(files)[fds[fd] := old(files)[fds[fd]] + data]
    {
      files := files[fds[fd] := files[fds[fd]] + data];
    }

    /** `close(fd)`. */
    method Close(fd: Int32)
      requires fd in fds && fds[fd] in files
      modifies this`trace, this`fds
      ensures trace == old(trace) + [CloseTemp(old(fds)[fd], files[old(fds)[fd]])]
      ensures fds == old(fds) - {fd}
    {
      trace := trace + [CloseTemp(fds[fd], files[fds[fd]])];
      fds := fds - {fd};
    }

    /** `unlink(path)`. */
    method Unlink(path: string)
      modifies this`trace, this`files
      ensures trace == old(trace) + [DeleteTemp(path)]
      ensures files == old(files) - {path}
    {
      trace := trace + [DeleteTemp(path)];
      files := files - {path};
    }

    /** `popen(cmd, "r")`: the process the command becomes, or `SpawnFails`. */
    method Popen(cmd: string) returns (p: Process)
      modifies this`trace
      ensures trace == old(trace) + [Spawn(cmd)]
      ensures p == world.exec(cmd)
    {
      trace := trace + [Spawn(cmd)];
      p := world.exec(cmd);
    }

    /** `pclose(pipe)`: waits for the process and gives its raw wait status. */
    method Pclose(p: Process) returns (status: Int32)
      requires p.Runs?
      modifies this`trace
      ensures trace == old(trace) + [Reap]
      ensures status == p.status
    {
      trace := trace + [Reap];
      status := p.status;
    }
  }
}
