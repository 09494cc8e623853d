/**
 * The deploy executor: picks the compose tool found on the PATH, builds the
 * command that recreates the `app` service with a given image, and reports
 * the process result, or the "not found" sentinel when no tool is present.
 */
module DeployExecutor {
  import opened Wrappers

  /** Everything the executor reads from its host: the binaries on the PATH, the process environment, the compose directory. */
  datatype Host = Host(path: set<string>, env: map<string, string>, composeDir: string)

  /** One start of the deployment tool: argument vector, working directory and environment. */
  datatype Invocation = Invocation(argv: seq<string>, cwd: string, env: map<string, string>)

  /** What a run of the tool reports: exit code, captured standard output and standard error. */
  datatype ProcessResult = ProcessResult(code: int, out: string, err: string)

  const DockerCompose := "docker-compose"
  const Docker := "docker"
  const ComposeFileName := "docker-compose.yml"
  const ServiceName := "app"
  const ImageVariable := "APP_IMAGE"
  const NotFoundCode := 127
  const NotFoundMessage := "docker-compose (or docker) not found in PATH"

  /** The sentinel result reported when no compose tool is on the PATH. */
  const NotFound := ProcessResult(NotFoundCode, "", NotFoundMessage)

  /** POSIX `os.path.join(dir, name)` for a relative `name`. */
  function PathJoin(dir: string, name: string): (p: string)
    requires name == [] || name[0] != '/'
    ensures dir == [] || dir[|dir| - 1] == '/' ==> |p| == |dir| + |name|
    ensures dir != [] && dir[|dir| - 1] != '/' ==> |p| == |dir| + 1 + |name| && p[|dir|] == '/'
    ensures |dir| + |name| <= |p| && p[..|dir|] == dir && p[|p| - |name|..] == name
  {
    if dir == [] || dir[|dir| - 1] == '/' then dir + name else dir + "/" + name
  }

  /** The compose file the service uses. */
  function ComposeFile(dir: string): string {
    PathJoin(dir, ComposeFileName)
  }

  /**
   * The command prefix for the compose tool: `docker-compose` when that
   * binary is on the PATH, else `docker compose` when `docker` is, else none.
   */
  function FindComposeCmd(path: set<string>): (cmd: Option<seq<string>>)
    ensures cmd.Some? ==> cmd.value == [DockerCompose] || cmd.value == [Docker, "compose"]
    ensures cmd.Some? ==> cmd.value[0] in path
    ensures cmd == Some([Docker, "compose"]) ==> DockerCompose !in path
    ensures cmd.None? <==> DockerCompose !in path && Docker !in path
  {
    if DockerCompose in path then Some([DockerCompose])
    else if Docker in path then Some([Docker, "compose"])
    else None
  }

  /** The arguments after the tool prefix: bring up only `app`, detached, recreated, without its dependencies. */
  function ComposeArgs(composeFile: string): seq<string> {
    ["-f", composeFile, "up", "-d", "--no-deps", "--force-recreate", ServiceName]
  }

  /** The host environment with `APP_IMAGE` set to `image`. */
  function WithImage(env: map<string, string>, image: string): (env': map<string, string>)
    ensures ImageVariable in env' && env'[ImageVariable] == image
    ensures forall k :: k != ImageVariable ==> (k in env' <==> k in env)
    ensures forall k :: k != ImageVariable && k in env ==> env'[k] == env[k]
  {
    env[ImageVariable := image]
  }

  /**
   * The process the executor starts to deploy `image`, or None when no
   * compose tool is on the PATH.
   */
  function ComposeInvocation(image: string, host: Host): (inv: Option<Invocation>)
    ensures inv.None? <==> FindComposeCmd(host.path).None?
    ensures inv.Some? ==>
      var prefix := FindComposeCmd(host.path).value;
      && inv.value.argv == prefix + ["-f", ComposeFile(host.composeDir), "up", "-d", "--no-deps", "--force-recreate", ServiceName]
      && inv.value.cwd == host.composeDir
      && ImageVariable in inv.value.env && inv.value.env[ImageVariable] == image
      && (forall k :: k != ImageVariable ==> (k in inv.value.env <==> k in host.env))
      && (forall k :: k != ImageVariable && k in host.env ==> inv.value.env[k] == host.env[k])
  {
    match FindComposeCmd(host.path)
    case None => None
    case Some(prefix) => Some(Invocation(prefix + ComposeArgs(ComposeFile(host.composeDir)), host.composeDir, WithImage(host.env, image)))
  }

  /**
   * Redeploy `image`. `run` is what the tool reports if it is started.
   * Returns the invocation started (None when no tool was found) and the
   * reported (code, out, err).
   */
  method RunComposeWithImage(image: string, host: Host, run: ProcessResult)
    returns (code: int, out: string, err: string, started: Option<Invocation>)
    ensures started == ComposeInvocation(image, host)
    ensures started.None? ==> code == NotFoundCode && out == "" && err == NotFoundMessage
    ensures started.Some? ==> code == run.code && out == run.out && err == run.err
    ensures started.Some? ==> started.value.argv[0] in host.path
  {
    var env := host.env;
    env := env[ImageVariable := image];
    var composeCmd := FindComposeCmd(host.path);
    if composeCmd.None? {
      return NotFoundCode, "", NotFoundMessage, None;
    }
    var cmd := composeCmd.value + ComposeArgs(ComposeFile(host.composeDir));
    started := Some(Invocation(cmd, host.composeDir, env));
    code, out, err := run.code, run.out, run.err;
  }
}
