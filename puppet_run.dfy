/**
 * Running one puppet container per config volume (container-puppet.py): choosing the
 * container runtime, the `rm_container` commands, the `common_dcmd` argument list, the
 * pull and run retry loops, the order-preserving pool map and the overall success flag.
 * Subprocess exit codes, `hostname -s` output, the unique container name and the
 * temporary manifest path are inputs.
 */
module PuppetRun {
  import opened Wrappers
  import opened Strs
  import opened PosixPath
  import opened PuppetJobs

  const Puppets := "/usr/share/openstack-puppet/modules/:/usr/share/openstack-puppet/modules/:ro"
  const ShScript := "/var/lib/container-puppet/container-puppet.sh"
  const DefaultCli := "podman"
  const DefaultLogPath := "/var/log/containers/stdouts"
  const PackagesInclude := "include ::tripleo::packages\n"

  /** `os.environ.get(key, default)`. */
  function Getenv(environ: map<string, string>, key: string, default: string): string {
    if key in environ then environ[key] else default
  }

  // ---------------------------------------------------------------------------------
  // Container runtime selection (lines 37-40, 70-94)
  // ---------------------------------------------------------------------------------

  datatype Cli = Docker | Podman

  function CliName(c: Cli): string {
    match c
    case Docker => "docker"
    case Podman => "podman"
  }

  /** The two runtimes the script accepts; any other name makes it exit with status 1. */
  function ParseCli(name: string): (r: Option<Cli>)
    ensures r.Some? ==> CliName(r.value) == name
    ensures r.None? <==> name != "docker" && name != "podman"
  {
    if name == "docker" then Some(Docker)
    else if name == "podman" then Some(Podman)
    else None
  }

  lemma ParseCliName(c: Cli)
    ensures ParseCli(CliName(c)) == Some(c)
  {
  }

  /** `cli_dcmd` as each runtime branch sets it. */
  function BaseCliArgs(c: Cli): seq<string> {
    match c
    case Docker => ["--volume", Puppets]
    case Podman => ["--security-opt", "label=disable", "--volume", Puppets]
  }

  /** `cli_dcmd` after the MOUNT_HOST_PUPPET extension of lines 90-92. */
  function CliArgs(c: Cli, environ: map<string, string>): seq<string> {
    if Getenv(environ, "MOUNT_HOST_PUPPET", "true") == "true" && Puppets !in BaseCliArgs(c)
    then BaseCliArgs(c) + ["--volume", Puppets]
    else BaseCliArgs(c)
  }

  /**
   * MOUNT_HOST_PUPPET never changes anything: both runtime branches already mount the
   * host puppet modules, so the guard's second half is always false.
   */
  lemma MountHostPuppetNoEffect(c: Cli, environ: map<string, string>)
    ensures CliArgs(c, environ) == BaseCliArgs(c)
    ensures Puppets in CliArgs(c, environ)
  {
    match c
    case Docker => assert BaseCliArgs(c)[1] == Puppets;
    case Podman => assert BaseCliArgs(c)[3] == Puppets;
  }

  /** How the module-level set-up can stop the script. */
  datatype StartupError =
    | InvalidCli(name: string)   // log.error + sys.exit(1)
    | MissingKey(key: string)    // KeyError on os.environ['PATH']

  datatype Setup = Setup(cli: Cli, cliCmd: string, cliArgs: seq<string>, env: map<string, string>,
                         logPath: string)

  /** The environment handed to the container runtime before any DOCKER* copy. */
  function BaseEnv(c: Cli, environ: map<string, string>): map<string, string>
    requires c == Podman ==> "PATH" in environ
  {
    match c
    case Docker => map[]
    case Podman => map["PATH" := environ["PATH"]]
  }

  function Startup(environ: map<string, string>): Result<Setup, StartupError> {
    var name := Getenv(environ, "CONTAINER_CLI", DefaultCli);
    match ParseCli(name)
    case None => Err(InvalidCli(name))
    case Some(c) =>
      if c == Podman && "PATH" !in environ then Err(MissingKey("PATH"))
      else Ok(Setup(c, "/usr/bin/" + name, CliArgs(c, environ), BaseEnv(c, environ),
                    Getenv(environ, "CONTAINER_LOG_STDOUT_PATH", DefaultLogPath)))
  }

  /**
   * The set-up succeeds exactly for docker, and for podman when PATH is set; the runtime
   * binary lives in /usr/bin, and podman hands PATH on and nothing else.
   */
  lemma StartupSpec(environ: map<string, string>)
    ensures Startup(environ).Err? <==>
            (Getenv(environ, "CONTAINER_CLI", DefaultCli) != "docker" &&
             Getenv(environ, "CONTAINER_CLI", DefaultCli) != "podman") ||
            (Getenv(environ, "CONTAINER_CLI", DefaultCli) == "podman" && "PATH" !in environ)
    ensures Startup(environ).Ok? ==>
            Startup(environ).value.cliCmd == "/usr/bin/" + CliName(Startup(environ).value.cli) &&
            Startup(environ).value.cliArgs == BaseCliArgs(Startup(environ).value.cli)
    ensures Startup(environ).Ok? && Startup(environ).value.cli == Podman ==>
            Startup(environ).value.env == map["PATH" := environ["PATH"]]
    ensures !("CONTAINER_CLI" in environ) ==> Startup(environ).Ok? || Startup(environ) == Err(MissingKey("PATH"))
  {
    var name := Getenv(environ, "CONTAINER_CLI", DefaultCli);
    if ParseCli(name).Some? {
      MountHostPuppetNoEffect(ParseCli(name).value, environ);
    }
  }

  /** `{k: os.environ[k] for k in os.environ if k.startswith('DOCKER')}` */
  function DockerVars(environ: map<string, string>): map<string, string> {
    map k | k in environ && StartsWith(k, "DOCKER") :: environ[k]
  }

  /**
   * The environment of the `run` subprocess (lines 364-368): docker copies every DOCKER*
   * variable into the shared `env` dict; podman adds nothing.
   */
  method RunEnv(setup: Setup, environ: map<string, string>) returns (env: map<string, string>)
    ensures setup.cli == Podman ==> env == setup.env
    ensures setup.cli == Docker ==> env == setup.env + DockerVars(environ)
  {
    env := setup.env;
    if setup.cli == Docker {
      var keys := environ.Keys;
      ghost var seen: set<string> := {};
      while keys != {}
        invariant keys + seen == environ.Keys && keys !! seen
        invariant env == setup.env + map k | k in seen && StartsWith(k, "DOCKER") :: environ[k]
        decreases keys
      {
        var k :| k in keys;
        if StartsWith(k, "DOCKER") {
          env := env[k := environ[k]];
        }
        keys := keys - {k};
        seen := seen + {k};
      }
      assert seen == environ.Keys;
    }
  }

  /** The runtime environment keeps exactly the DOCKER* variables (docker) or PATH (podman). */
  lemma DockerVarsSpec(environ: map<string, string>, k: string)
    ensures k in DockerVars(environ) <==> k in environ && StartsWith(k, "DOCKER")
    ensures k in DockerVars(environ) ==> DockerVars(environ)[k] == environ[k]
  {
  }

  // ---------------------------------------------------------------------------------
  // rm_container (lines 181-218)
  // ---------------------------------------------------------------------------------

  /**
   * The commands `rm_container(name)` issues, in order: an optional `diff` when
   * SHOW_DIFF is set and non-empty, then `rm`, then (podman only) `rm --storage`.
   */
  function RmCommands(setup: Setup, name: string, showDiff: Option<string>): (r: seq<seq<string>>)
  {
    (if showDiff.Some? && showDiff.value != "" then [[setup.cliCmd, "diff", name]] else [])
    + [[setup.cliCmd, "rm", name]]
    + (if setup.cli == Podman then [[setup.cliCmd, "rm", "--storage", name]] else [])
  }

  /** Every removal ends by removing `name`; podman also purges its storage, last. */
  lemma RmCommandsShape(setup: Setup, name: string, showDiff: Option<string>)
    ensures 1 <= |RmCommands(setup, name, showDiff)| <= 3
    ensures var r := RmCommands(setup, name, showDiff);
            r[|r| - 1] == if setup.cli == Podman then [setup.cliCmd, "rm", "--storage", name]
                          else [setup.cliCmd, "rm", name]
    ensures var r := RmCommands(setup, name, showDiff);
            (r[0] == [setup.cliCmd, "diff", name]) <==> (showDiff.Some? && showDiff.value != "")
    ensures [setup.cliCmd, "rm", name] in RmCommands(setup, name, showDiff)
  {
  }

  // ---------------------------------------------------------------------------------
  // The `run` argument list (lines 324-400)
  // ---------------------------------------------------------------------------------

  /** What one `mp_puppet_config` call is given from outside the job description. */
  datatype Host = Host(uname: string, tmpName: string, hostnameOut: string,
                       inspect: int, pulls: seq<int>, runs: seq<int>)

  /** The temporary manifest file's content (lines 313-316). */
  function TmpManifest(manifest: string): (r: string)
    ensures StartsWith(r, PackagesInclude) && r[|PackagesInclude|..] == manifest
  {
    PackagesInclude + manifest
  }

  function RunHead(cliCmd: string, uname: string): seq<string> {
    [cliCmd, "run", "--user", "0", "--name", uname]
  }

  /** `'KEY=%s' % value`. */
  function EnvVar(key: string, value: string): string {
    key + "=" + value
  }

  /** A bind mount `src:dst:mode`. */
  function Mount(src: string, dst: string, mode: string): string {
    src + ":" + dst + ":" + mode
  }

  /** `[flag, x]` for each `x` of `xs`, flattened. */
  function Pairs(flag: string, xs: seq<string>): seq<string> {
    if xs == [] then [] else Pairs(flag, xs[..|xs| - 1]) + [flag, xs[|xs| - 1]]
  }

  /** The seven `--env` values of lines 332-338. */
  function EnvList(task: Task, hostname: string, environ: map<string, string>): seq<string> {
    [EnvVar("PUPPET_TAGS", task.puppetTags),
     EnvVar("NAME", task.configVolume),
     EnvVar("HOSTNAME", hostname),
     EnvVar("NO_ARCHIVE", Getenv(environ, "NO_ARCHIVE", "")),
     EnvVar("STEP", Getenv(environ, "STEP", "6")),
     EnvVar("NET_HOST", Getenv(environ, "NET_HOST", "false")),
     EnvVar("DEBUG", Getenv(environ, "DEBUG", "false"))]
  }

  const PkiRoot := "/etc/pki/"
  const FacterRoot := "/var/lib/container-puppet/puppetlabs/"

  /** The eleven fixed `--volume` mounts of lines 339-352. */
  function MountList(tmpName: string, prefix: string): seq<string> {
    [Mount("/etc/localtime", "/etc/localtime", "ro"),
     Mount(tmpName, "/etc/config.pp", "ro"),
     Mount("/etc/puppet/", "/tmp/puppet-etc/", "ro"),
     Mount(PkiRoot + "ca-trust/extracted", PkiRoot + "ca-trust/extracted", "ro"),
     Mount(PkiRoot + "tls/certs/ca-bundle.crt", PkiRoot + "tls/certs/ca-bundle.crt", "ro"),
     Mount(PkiRoot + "tls/certs/ca-bundle.trust.crt", PkiRoot + "tls/certs/ca-bundle.trust.crt", "ro"),
     Mount(PkiRoot + "tls/cert.pem", PkiRoot + "tls/cert.pem", "ro"),
     Mount(prefix, "/var/lib/config-data/", "rw"),
     Mount(FacterRoot + "facter.conf", "/etc/puppetlabs/facter/facter.conf", "ro"),
     Mount(FacterRoot, "/opt/puppetlabs/", "ro"),
     Mount("/dev/log", "/dev/log", "rw")]
  }

  /** The list literal of lines 324-352. */
  function CommonArgs(cliCmd: string, host: Host, task: Task, prefix: string,
                      environ: map<string, string>): seq<string> {
    RunHead(cliCmd, host.uname) + Pairs("--env", EnvList(task, RStrip(host.hostnameOut), environ))
    + Pairs("--volume", MountList(host.tmpName, prefix))
  }

  function RmFlag(keep: bool): seq<string> {
    if !keep then ["--rm"] else []
  }

  function PrivilegedFlag(privileged: bool): seq<string> {
    if privileged then ["--privileged"] else []
  }

  /** Podman logs to `<CONTAINER_LOG_STDOUT_PATH>/<uname>.log`; docker adds no flags. */
  function LogArgs(setup: Setup, uname: string): seq<string> {
    if setup.cli == Podman
    then ["--log-driver", "k8s-file", "--log-opt", "path=" + JoinPath(setup.logPath, uname) + ".log"]
    else []
  }

  const CheckModeMount := Mount("/etc/puppet/check-mode", "/tmp/puppet-check-mode", "ro")

  function CheckArgs(checkMode: int): seq<string> {
    if checkMode != 0 then ["--volume", CheckModeMount] else []
  }

  /** The job volumes that are truthy, i.e. non-empty, in order. */
  function NonEmpty(vs: seq<string>): (r: seq<string>)
    ensures |r| <= |vs|
  {
    if vs == [] then []
    else if vs[|vs| - 1] == "" then NonEmpty(vs[..|vs| - 1])
    else NonEmpty(vs[..|vs| - 1]) + [vs[|vs| - 1]]
  }

  /** The filter keeps exactly the non-empty volumes. */
  lemma {:induction false} NonEmptyMembers(vs: seq<string>)
    ensures forall x :: x in NonEmpty(vs) <==> x in vs && x != ""
  {
    if vs != [] {
      NonEmptyMembers(vs[..|vs| - 1]);
      assert vs == vs[..|vs| - 1] + [vs[|vs| - 1]];
    }
  }

  /** `--volume v` for each truthy job volume (lines 379-381). */
  function VolumeArgs(vs: seq<string>): seq<string> {
    Pairs("--volume", NonEmpty(vs))
  }

  const HostsMount := Mount("/etc/hosts", "/etc/hosts", "ro")

  function NetArgs(environ: map<string, string>): seq<string> {
    if Getenv(environ, "NET_HOST", "false") == "true"
    then ["--net", "host", "--volume", HostsMount]
    else ["--net", "none"]
  }

  /** `'%s:%s:ro' % (sh_script, sh_script)` */
  const ScriptMount := Mount(ShScript, ShScript, "ro")

  /** Everything before the job volumes. */
  function FrontArgs(setup: Setup, host: Host, task: Task, prefix: string,
                     environ: map<string, string>): seq<string> {
    CommonArgs(setup.cliCmd, host, task, prefix, environ)
    + RmFlag(task.keepContainer) + PrivilegedFlag(task.privileged)
    + LogArgs(setup, host.uname) + setup.cliArgs + CheckArgs(task.checkMode)
  }

  /** Everything after the job volumes. */
  function BackArgs(task: Task, environ: map<string, string>): seq<string> {
    ["--entrypoint", ShScript] + NetArgs(environ) + ["--volume", ScriptMount] + [task.image]
  }

  function RunArgv(setup: Setup, host: Host, task: Task, prefix: string,
                   environ: map<string, string>): seq<string> {
    FrontArgs(setup, host, task, prefix, environ) + VolumeArgs(task.volumes) + BackArgs(task, environ)
  }

  lemma PairsSnoc(flag: string, xs: seq<string>, x: string)
    ensures Pairs(flag, xs + [x]) == Pairs(flag, xs) + [flag, x]
  {
    assert (xs + [x])[..|xs|] == xs;
  }

  /** The loop of lines 379-381: `--volume v` for each truthy job volume, in order. */
  method ExtendVolumes(argv0: seq<string>, volumes: seq<string>) returns (argv: seq<string>)
    ensures argv == argv0 + VolumeArgs(volumes)
  {
    argv := argv0;
    var i := 0;
    while i < |volumes|
      invariant 0 <= i <= |volumes|
      invariant argv == argv0 + Pairs("--volume", NonEmpty(volumes[..i]))
    {
      var volume := volumes[i];
      ghost var pre := volumes[..i];
      assert volumes[..i + 1] == pre + [volume];
      assert (pre + [volume])[..i] == pre;
      ghost var done := NonEmpty(pre);
      if volume != "" {
        argv := argv + ["--volume", volume];
        assert NonEmpty(volumes[..i + 1]) == done + [volume];
        PairsSnoc("--volume", done, volume);
      } else {
        assert NonEmpty(volumes[..i + 1]) == done;
      }
      i := i + 1;
    }
    assert volumes[..i] == volumes;
  }

  /** Lines 324-376: the list literal, the option flags, the runtime options and check mode. */
  method FrontCommand(setup: Setup, host: Host, task: Task, prefix: string,
                      environ: map<string, string>) returns (argv: seq<string>)
    ensures argv == FrontArgs(setup, host, task, prefix, environ)
  {
    argv := CommonArgs(setup.cliCmd, host, task, prefix, environ);
    ghost var common := argv;
    if !task.keepContainer {
      argv := argv + ["--rm"];
    }
    assert argv == common + RmFlag(task.keepContainer);
    ghost var step := argv;
    if task.privileged {
      argv := argv + ["--privileged"];
    }
    assert argv == step + PrivilegedFlag(task.privileged);
    step := argv;
    if setup.cli == Podman {
      var logPath := JoinPath(setup.logPath, host.uname);
      argv := argv + ["--log-driver", "k8s-file", "--log-opt", "path=" + logPath + ".log"];
    }
    assert argv == step + LogArgs(setup, host.uname);
    argv := argv + setup.cliArgs;
    step := argv;
    if task.checkMode != 0 {
      argv := argv + ["--volume", CheckModeMount];
    }
    assert argv == step + CheckArgs(task.checkMode);
  }

  /** `common_dcmd` built by appends and extends, in the order of lines 324-400. */
  method BuildRunCommand(setup: Setup, host: Host, task: Task, prefix: string,
                         environ: map<string, string>) returns (argv: seq<string>)
    ensures argv == RunArgv(setup, host, task, prefix, environ)
  {
    argv := FrontCommand(setup, host, task, prefix, environ);
    ghost var front := argv;
    argv := ExtendVolumes(argv, task.volumes);
    ghost var mid := argv;
    argv := argv + ["--entrypoint", ShScript];
    ghost var entry := argv;
    if Getenv(environ, "NET_HOST", "false") == "true" {
      argv := argv + ["--net", "host", "--volume", HostsMount];
    } else {
      argv := argv + ["--net", "none"];
    }
    assert argv == entry + NetArgs(environ);
    argv := argv + ["--volume", ScriptMount];
    argv := argv + [task.image];
    BackParts(mid, entry, argv, task, environ);
  }

  /** The appends after the volumes, regrouped as the back block. */
  lemma BackParts(mid: seq<string>, entry: seq<string>, argv: seq<string>, task: Task, environ: map<string, string>)
    requires entry == mid + ["--entrypoint", ShScript]
    requires argv == entry + NetArgs(environ) + ["--volume", ScriptMount] + [task.image]
    ensures argv == mid + BackArgs(task, environ)
  {
  }

  /** `Pairs` lays out `flag x` for each element in order. */
  lemma {:induction false} PairsLayout(flag: string, xs: seq<string>)
    ensures |Pairs(flag, xs)| == 2 * |xs|
    ensures forall i :: 0 <= i < |xs| ==>
              Pairs(flag, xs)[2 * i] == flag && Pairs(flag, xs)[2 * i + 1] == xs[i]
  {
    if xs != [] {
      PairsLayout(flag, xs[..|xs| - 1]);
    }
  }

  /** Nothing but `flag` and the elements themselves occurs in `Pairs(flag, xs)`. */
  lemma NotInPairs(f: string, flag: string, xs: seq<string>)
    requires f != flag && f !in xs
    ensures f !in Pairs(flag, xs)
  {
    PairsLayout(flag, xs);
    var p := Pairs(flag, xs);
    forall k | 0 <= k < |p| ensures p[k] != f {
      var j := k / 2;
      assert k == 2 * j || k == 2 * j + 1;
      assert p[2 * j] == flag && p[2 * j + 1] == xs[j];
    }
  }

  lemma BaseArgsShape(setup: Setup, host: Host, task: Task, prefix: string,
                      environ: map<string, string>)
    ensures |RunHead(setup.cliCmd, host.uname)| == 6
    ensures |CommonArgs(setup.cliCmd, host, task, prefix, environ)| == 42
  {
    PairsLayout("--env", EnvList(task, RStrip(host.hostnameOut), environ));
    PairsLayout("--volume", MountList(host.tmpName, prefix));
  }

  /**
   * The argument list starts `<cli> run --user 0 --name <uname>`, then the environment
   * and the fixed mounts; it ends with the script mount as the last `--volume` and the
   * image as the final element.
   */
  lemma RunArgvEnds(setup: Setup, host: Host, task: Task, prefix: string,
                    environ: map<string, string>)
    ensures |RunArgv(setup, host, task, prefix, environ)| >= 47
    ensures RunArgv(setup, host, task, prefix, environ)[..6] ==
            [setup.cliCmd, "run", "--user", "0", "--name", host.uname]
    ensures RunArgv(setup, host, task, prefix, environ)[|RunArgv(setup, host, task, prefix, environ)| - 3..] ==
            ["--volume", ScriptMount, task.image]
  {
    var f := FrontArgs(setup, host, task, prefix, environ);
    var c := CommonArgs(setup.cliCmd, host, task, prefix, environ);
    var h := RunHead(setup.cliCmd, host.uname);
    BaseArgsShape(setup, host, task, prefix, environ);
    var argv := RunArgv(setup, host, task, prefix, environ);
    var b := BackArgs(task, environ);
    assert b[|b| - 3..] == ["--volume", ScriptMount, task.image];
    assert argv == f + VolumeArgs(task.volumes) + b;
    assert argv[..6] == f[..6] by {
      assert argv[..|f|] == f;
    }
    assert f[..6] == c[..6] by {
      assert f[..|c|] == c;
    }
    assert c[..6] == h by {
      assert c[..|h|] == h;
    }
    assert argv[|argv| - 3..] == b[|b| - 3..] by {
      assert argv[|argv| - |b|..] == b;
    }
  }

  /**
   * With NET_HOST equal to 'true' the network block is `--net host --volume
   * /etc/hosts:/etc/hosts:ro`; otherwise it is `--net none`. It sits just before the
   * script mount.
   */
  lemma RunArgvNet(setup: Setup, host: Host, task: Task, prefix: string,
                   environ: map<string, string>)
    ensures Getenv(environ, "NET_HOST", "false") == "true" ==>
              |RunArgv(setup, host, task, prefix, environ)| >= 7 &&
              RunArgv(setup, host, task, prefix, environ)[|RunArgv(setup, host, task, prefix, environ)| - 7..
                                                         |RunArgv(setup, host, task, prefix, environ)| - 3]
              == ["--net", "host", "--volume", HostsMount]
    ensures Getenv(environ, "NET_HOST", "false") != "true" ==>
              |RunArgv(setup, host, task, prefix, environ)| >= 5 &&
              RunArgv(setup, host, task, prefix, environ)[|RunArgv(setup, host, task, prefix, environ)| - 5..
                                                         |RunArgv(setup, host, task, prefix, environ)| - 3]
              == ["--net", "none"]
  {
    var argv := RunArgv(setup, host, task, prefix, environ);
    var b := BackArgs(task, environ);
    assert argv == FrontArgs(setup, host, task, prefix, environ) + VolumeArgs(task.volumes) + b;
    assert argv[|argv| - |b|..] == b;
  }

  /** The truthy job volumes occupy the slots right after the front block, in order. */
  lemma RunArgvVolumes(setup: Setup, host: Host, task: Task, prefix: string,
                       environ: map<string, string>)
    ensures |FrontArgs(setup, host, task, prefix, environ)| + 2 * |NonEmpty(task.volumes)|
            <= |RunArgv(setup, host, task, prefix, environ)|
    ensures forall i :: 0 <= i < |NonEmpty(task.volumes)| ==>
              RunArgv(setup, host, task, prefix, environ)[|FrontArgs(setup, host, task, prefix, environ)| + 2 * i]
              == "--volume" &&
              RunArgv(setup, host, task, prefix, environ)[|FrontArgs(setup, host, task, prefix, environ)| + 2 * i + 1]
              == NonEmpty(task.volumes)[i]
  {
    PairsBetween(FrontArgs(setup, host, task, prefix, environ), "--volume", NonEmpty(task.volumes), BackArgs(task, environ));
  }

  /** The pairs placed between a front and a back part sit right after the front part. */
  lemma PairsBetween(front: seq<string>, flag: string, xs: seq<string>, back: seq<string>)
    ensures |front| + 2 * |xs| <= |front + Pairs(flag, xs) + back|
    ensures forall i :: 0 <= i < |xs| ==>
      (front + Pairs(flag, xs) + back)[|front| + 2 * i] == flag &&
      (front + Pairs(flag, xs) + back)[|front| + 2 * i + 1] == xs[i]
  {
    var v := Pairs(flag, xs);
    var argv := front + v + back;
    PairsLayout(flag, xs);
    forall i | 0 <= i < |xs|
      ensures argv[|front| + 2 * i] == flag && argv[|front| + 2 * i + 1] == xs[i]
    {
      assert argv[|front| + 2 * i] == v[2 * i];
      assert argv[|front| + 2 * i + 1] == v[2 * i + 1];
    }
  }

  /** A set-up as `Startup` produces it. */
  predicate FromStartup(setup: Setup) {
    setup.cliCmd == "/usr/bin/" + CliName(setup.cli) && setup.cliArgs == BaseCliArgs(setup.cli)
  }

  /**
   * A flag none of the free-form arguments spells: not the unique name, not the image,
   * not a job volume.
   */
  predicate FreeOf(flag: string, host: Host, task: Task) {
    flag != host.uname && flag != task.image && flag !in task.volumes
  }

  /** The three option flags whose presence the job decides. */
  predicate OptionFlag(flag: string) {
    flag == "--rm" || flag == "--privileged" || flag == "--log-driver"
  }

  lemma OptionFlagChars(flag: string)
    requires OptionFlag(flag)
    ensures ':' !in flag && '=' !in flag && flag[0] == '-' && flag[1] == '-'
    ensures |flag| == 4 || (|flag| == 12 && (flag[2] == 'p' || flag[2] == 'l'))
  {
  }

  lemma NoEnvVar(flag: string, key: string, value: string)
    requires '=' !in flag
    ensures flag != EnvVar(key, value)
  {
    assert EnvVar(key, value)[|key|] == '=';
  }

  lemma NoMount(flag: string, src: string, dst: string, mode: string)
    requires ':' !in flag
    ensures flag != Mount(src, dst, mode)
  {
    assert Mount(src, dst, mode)[|src|] == ':';
  }

  lemma EnvListFree(flag: string, task: Task, hostname: string, environ: map<string, string>)
    requires '=' !in flag
    ensures flag !in EnvList(task, hostname, environ)
  {
    forall key, value ensures flag != EnvVar(key, value) {
      NoEnvVar(flag, key, value);
    }
  }

  lemma MountListFree(flag: string, tmpName: string, prefix: string)
    requires ':' !in flag
    ensures flag !in MountList(tmpName, prefix)
  {
    forall src, dst, mode ensures flag != Mount(src, dst, mode) {
      NoMount(flag, src, dst, mode);
    }
  }

  lemma CommonArgsFree(flag: string, setup: Setup, host: Host, task: Task, prefix: string,
                       environ: map<string, string>)
    requires OptionFlag(flag) && FromStartup(setup) && flag != host.uname
    ensures flag !in CommonArgs(setup.cliCmd, host, task, prefix, environ)
  {
    OptionFlagChars(flag);
    assert flag != setup.cliCmd by { assert setup.cliCmd[0] == '/'; }
    assert flag !in RunHead(setup.cliCmd, host.uname);
    EnvListFree(flag, task, RStrip(host.hostnameOut), environ);
    NotInPairs(flag, "--env", EnvList(task, RStrip(host.hostnameOut), environ));
    MountListFree(flag, host.tmpName, prefix);
    NotInPairs(flag, "--volume", MountList(host.tmpName, prefix));
  }

  lemma CliArgsFree(flag: string, c: Cli)
    requires OptionFlag(flag)
    ensures flag !in BaseCliArgs(c)
  {
    OptionFlagChars(flag);
    assert |Puppets| > 12;
    assert "label=disable"[0] == 'l';
  }

  lemma CheckArgsFree(flag: string, checkMode: int)
    requires OptionFlag(flag)
    ensures flag !in CheckArgs(checkMode)
  {
    OptionFlagChars(flag);
    NoMount(flag, "/etc/puppet/check-mode", "/tmp/puppet-check-mode", "ro");
  }

  lemma NetArgsFree(flag: string, environ: map<string, string>)
    requires OptionFlag(flag)
    ensures flag !in NetArgs(environ)
  {
    OptionFlagChars(flag);
    NoMount(flag, "/etc/hosts", "/etc/hosts", "ro");
    assert "host"[0] == 'h' && "none"[0] == 'n';
  }

  lemma BackArgsFree(flag: string, task: Task, environ: map<string, string>)
    requires OptionFlag(flag) && flag != task.image
    ensures flag !in BackArgs(task, environ)
  {
    OptionFlagChars(flag);
    NetArgsFree(flag, environ);
    NoMount(flag, ShScript, ShScript, "ro");
    assert |ShScript| > 12;
    assert "--entrypoint"[2] == 'e';
  }

  /** The option flags occur only where their own condition puts them. */
  lemma FixedPartsFree(flag: string, setup: Setup, host: Host, task: Task, prefix: string,
                       environ: map<string, string>)
    requires OptionFlag(flag) && FromStartup(setup) && FreeOf(flag, host, task)
    ensures flag !in CommonArgs(setup.cliCmd, host, task, prefix, environ)
    ensures flag !in setup.cliArgs
    ensures flag !in CheckArgs(task.checkMode)
    ensures flag !in VolumeArgs(task.volumes)
    ensures flag !in BackArgs(task, environ)
  {
    CommonArgsFree(flag, setup, host, task, prefix, environ);
    CliArgsFree(flag, setup.cli);
    BackArgsFree(flag, task, environ);
    CheckArgsFree(flag, task.checkMode);
    NonEmptyMembers(task.volumes);
    NotInPairs(flag, "--volume", NonEmpty(task.volumes));
  }

  /** An option flag is present exactly when the option block passes it. */
  lemma OptionFlagIn(flag: string, setup: Setup, host: Host, task: Task, prefix: string,
                     environ: map<string, string>)
    requires OptionFlag(flag) && FromStartup(setup) && FreeOf(flag, host, task)
    ensures flag in RunArgv(setup, host, task, prefix, environ) <==>
            flag in RmFlag(task.keepContainer) + PrivilegedFlag(task.privileged) + LogArgs(setup, host.uname)
  {
    FixedPartsFree(flag, setup, host, task, prefix, environ);
  }

  /** Which option flag each part of the option block contributes. */
  lemma OptionBlock(keep: bool, privileged: bool, setup: Setup, uname: string)
    ensures "--rm" in RmFlag(keep) + PrivilegedFlag(privileged) + LogArgs(setup, uname) <==> !keep
    ensures "--privileged" in RmFlag(keep) + PrivilegedFlag(privileged) + LogArgs(setup, uname) <==> privileged
    ensures "--log-driver" in RmFlag(keep) + PrivilegedFlag(privileged) + LogArgs(setup, uname) <==>
            setup.cli == Podman
  {
    var logFile := "path=" + JoinPath(setup.logPath, uname) + ".log";
    assert logFile[0] == 'p';
    assert "--log-driver"[2] == 'l' && "--privileged"[2] == 'p';
    assert "--log-driver" != "--privileged";
  }

  /** `--rm` is passed exactly when the container is not to be kept. */
  lemma RunArgvRm(setup: Setup, host: Host, task: Task, prefix: string, environ: map<string, string>)
    requires FromStartup(setup) && FreeOf("--rm", host, task)
    ensures "--rm" in RunArgv(setup, host, task, prefix, environ) <==> !task.keepContainer
  {
    OptionFlagIn("--rm", setup, host, task, prefix, environ);
    OptionBlock(task.keepContainer, task.privileged, setup, host.uname);
  }

  /** `--privileged` is passed exactly when the job asks for it. */
  lemma RunArgvPrivileged(setup: Setup, host: Host, task: Task, prefix: string,
                          environ: map<string, string>)
    requires FromStartup(setup) && FreeOf("--privileged", host, task)
    ensures "--privileged" in RunArgv(setup, host, task, prefix, environ) <==> task.privileged
  {
    OptionFlagIn("--privileged", setup, host, task, prefix, environ);
    OptionBlock(task.keepContainer, task.privileged, setup, host.uname);
  }

  /** The k8s-file log flags are passed exactly under podman. */
  lemma RunArgvLogFlags(setup: Setup, host: Host, task: Task, prefix: string,
                        environ: map<string, string>)
    requires FromStartup(setup) && FreeOf("--log-driver", host, task)
    ensures "--log-driver" in RunArgv(setup, host, task, prefix, environ) <==> setup.cli == Podman
  {
    OptionFlagIn("--log-driver", setup, host, task, prefix, environ);
    OptionBlock(task.keepContainer, task.privileged, setup, host.uname);
  }

  // ---------------------------------------------------------------------------------
  // Retry loops (lines 106-140 and 404-437)
  // ---------------------------------------------------------------------------------

  /** Exit codes that end the run retries: puppet's detailed exit codes 0 and 2. */
  predicate RunOk(code: int) {
    code == 0 || code == 2
  }

  /**
   * How many attempts a retry loop makes over the exit codes `codes`: it stops at the
   * first code `ok` accepts, or after `limit` attempts.
   */
  function Attempts(codes: seq<int>, limit: nat, ok: set<int>): (n: nat)
    requires 1 <= limit <= |codes|
    ensures 1 <= n <= limit
    ensures forall j :: 0 <= j < n - 1 ==> codes[j] !in ok
    ensures codes[n - 1] in ok || n == limit
  {
    if codes[0] in ok || limit == 1 then 1 else 1 + Attempts(codes[1..], limit - 1, ok)
  }

  /** The stopping rule determines the number of attempts. */
  lemma AttemptsUnique(codes: seq<int>, limit: nat, ok: set<int>, n: nat)
    requires 1 <= limit <= |codes| && 1 <= n <= limit
    requires forall j :: 0 <= j < n - 1 ==> codes[j] !in ok
    requires codes[n - 1] in ok || n == limit
    ensures n == Attempts(codes, limit, ok)
  {
    var m := Attempts(codes, limit, ok);
  }

  /** `xs` repeated `n` times. */
  function Repeat<T>(xs: seq<T>, n: nat): seq<T> {
    if n == 0 then [] else Repeat(xs, n - 1) + xs
  }

  /** The commands `pull_image` issues: one `inspect`, then the `pull` attempts. */
  function PullCommands(setup: Setup, image: string, inspect: int, pulls: seq<int>): seq<seq<string>>
    requires |pulls| >= 5
  {
    [[setup.cliCmd, "inspect", image]]
    + if inspect == 0 then [] else Repeat([[setup.cliCmd, "pull", image]], Attempts(pulls, 5, {0}))
  }

  /**
   * `pull_image` (lines 106-140): nothing is pulled when `inspect` succeeds; otherwise
   * `pull` is tried until it exits 0, at most five times. `pulls` gives each attempt's
   * exit code. Returns the commands issued and whether the image ended up present.
   */
  method PullImage(setup: Setup, image: string, inspect: int, pulls: seq<int>)
    returns (cmds: seq<seq<string>>, present: bool)
    requires |pulls| >= 5
    ensures cmds == PullCommands(setup, image, inspect, pulls)
    ensures inspect == 0 ==> cmds == [[setup.cliCmd, "inspect", image]] && present
    ensures inspect != 0 ==>
              cmds == [[setup.cliCmd, "inspect", image]]
                      + Repeat([[setup.cliCmd, "pull", image]], Attempts(pulls, 5, {0}))
    ensures inspect != 0 ==> (present <==> pulls[Attempts(pulls, 5, {0}) - 1] == 0)
  {
    var pull := [[setup.cliCmd, "pull", image]];
    cmds := [[setup.cliCmd, "inspect", image]];
    var retval := inspect;
    if retval == 0 {
      present := true;
      return;
    }
    retval := -1;
    var count := 0;
    while retval != 0
      invariant 0 <= count < 5
      invariant count == 0 ==> retval == -1
      invariant count > 0 ==> retval == pulls[count - 1]
      invariant forall j :: 0 <= j < count - 1 ==> pulls[j] != 0
      invariant cmds == [[setup.cliCmd, "inspect", image]] + Repeat(pull, count)
      decreases 5 - count
    {
      count := count + 1;
      retval := pulls[count - 1];
      cmds := cmds + pull;
      if count >= 5 {
        break;
      }
    }
    AttemptsUnique(pulls, 5, {0}, count);
    present := retval == 0;
  }

  /** What `mp_puppet_config` returns for a volume whose run attempts exit with `runs`. */
  function RunCode(runs: seq<int>): int
    requires |runs| >= 3
  {
    runs[Attempts(runs, 3, {0, 2}) - 1]
  }

  /**
   * The run loop (lines 404-437): up to three attempts, each followed by removing the
   * container, stopping at the first exit code 0 or 2; the last attempt's code is returned.
   */
  method RunContainer(argv: seq<string>, rm: seq<seq<string>>, runs: seq<int>)
    returns (retval: int, cmds: seq<seq<string>>)
    requires |runs| >= 3
    ensures retval == RunCode(runs)
    ensures cmds == Repeat([argv] + rm, Attempts(runs, 3, {0, 2}))
  {
    retval := -1;
    var count := 0;
    cmds := [];
    while count < 3
      invariant 0 <= count <= 3
      invariant count > 0 ==> retval == runs[count - 1]
      invariant forall j :: 0 <= j < count ==> !RunOk(runs[j])
      invariant cmds == Repeat([argv] + rm, count)
    {
      count := count + 1;
      retval := runs[count - 1];
      if retval == 0 || retval == 2 {
        cmds := cmds + ([argv] + rm);
        break;
      }
      cmds := cmds + ([argv] + rm);
    }
    AttemptsUnique(runs, 3, {0, 2}, count);
  }

  /** A volume's run fails only when all three attempts fail. */
  lemma RunCodeOk(runs: seq<int>)
    requires |runs| >= 3
    ensures RunOk(RunCode(runs)) <==> RunOk(runs[0]) || RunOk(runs[1]) || RunOk(runs[2])
  {
    var n := Attempts(runs, 3, {0, 2});
    if RunOk(runs[0]) || RunOk(runs[1]) || RunOk(runs[2]) {
      assert runs[n - 1] in {0, 2};
    }
  }

  // ---------------------------------------------------------------------------------
  // One config volume, the pool map and the overall result (lines 300-481)
  // ---------------------------------------------------------------------------------

  /** The inputs a host supplies are long enough for every attempt the loops can make. */
  predicate Scripted(host: Host) {
    |host.pulls| >= 5 && |host.runs| >= 3
  }

  /**
   * `mp_puppet_config` for one task: write the temporary manifest, remove any stale
   * container, pull the image, build the argument list and run it with retries.
   * Returns the exit code, the manifest file's content, the argument list and every
   * container command issued, in order.
   */
  method PuppetConfig(setup: Setup, task: Task, host: Host, prefix: string,
                      environ: map<string, string>, showDiff: Option<string>)
    returns (retval: int, manifestFile: string, argv: seq<string>, cmds: seq<seq<string>>)
    requires Scripted(host)
    ensures retval == RunCode(host.runs)
    ensures manifestFile == TmpManifest(task.manifest)
    ensures argv == RunArgv(setup, host, task, prefix, environ)
    ensures cmds == RmCommands(setup, host.uname, showDiff)
                    + PullCommands(setup, task.image, host.inspect, host.pulls)
                    + Repeat([argv] + RmCommands(setup, host.uname, showDiff), Attempts(host.runs, 3, {0, 2}))
  {
    manifestFile := PackagesInclude + task.manifest;
    var rm := RmCommands(setup, host.uname, showDiff);
    var pullCmds, _ := PullImage(setup, task.image, host.inspect, host.pulls);
    argv := BuildRunCommand(setup, host, task, prefix, environ);
    var runCmds;
    retval, runCmds := RunContainer(argv, rm, host.runs);
    cmds := rm + pullCmds + runCmds;
  }

  /**
   * `Pool.map(mp_puppet_config, process_map)` (lines 474-475), sequentially: one return
   * code per task, in task order.
   */
  method ConfigureAll(setup: Setup, tasks: seq<Task>, hosts: seq<Host>, prefix: string,
                      environ: map<string, string>, showDiff: Option<string>)
    returns (returncodes: seq<int>)
    requires |hosts| == |tasks| && forall i :: 0 <= i < |hosts| ==> |hosts[i].pulls| >= 5 && |hosts[i].runs| >= 3
    ensures |returncodes| == |tasks|
    ensures forall i :: 0 <= i < |tasks| ==> returncodes[i] == RunCode(hosts[i].runs)
  {
    returncodes := [];
    var i := 0;
    while i < |tasks|
      invariant 0 <= i <= |tasks| && |returncodes| == i
      invariant forall j :: 0 <= j < i ==> returncodes[j] == RunCode(hosts[j].runs)
    {
      var code, _, _, _ := PuppetConfig(setup, tasks[i], hosts[i], prefix, environ, showDiff);
      returncodes := returncodes + [code];
      i := i + 1;
    }
  }

  /** The config volumes whose return code is a failure, in order. */
  function Failed(codes: seq<int>, volumes: seq<string>): seq<string>
    requires |codes| == |volumes|
  {
    if codes == [] then []
    else if RunOk(codes[|codes| - 1]) then Failed(codes[..|codes| - 1], volumes[..|volumes| - 1])
    else Failed(codes[..|codes| - 1], volumes[..|volumes| - 1]) + [volumes[|volumes| - 1]]
  }

  /**
   * Lines 477-481: `success` is cleared by every code outside {0, 2}, and each such
   * config volume is reported.
   */
  method OverallSuccess(codes: seq<int>, volumes: seq<string>) returns (success: bool, errors: seq<string>)
    requires |codes| == |volumes|
    ensures success <==> forall i :: 0 <= i < |codes| ==> RunOk(codes[i])
    ensures errors == Failed(codes, volumes)
  {
    success := true;
    errors := [];
    var i := 0;
    while i < |codes|
      invariant 0 <= i <= |codes|
      invariant success <==> forall j :: 0 <= j < i ==> RunOk(codes[j])
      invariant errors == Failed(codes[..i], volumes[..i])
    {
      assert codes[..i + 1][..i] == codes[..i];
      assert volumes[..i + 1][..i] == volumes[..i];
      if !(codes[i] == 0 || codes[i] == 2) {
        errors := errors + [volumes[i]];
        success := false;
      }
      i := i + 1;
    }
    assert codes[..i] == codes && volumes[..i] == volumes;
  }

  /** A config volume is reported exactly when its code is a failure. */
  lemma {:induction false} FailedMembers(codes: seq<int>, volumes: seq<string>)
    requires |codes| == |volumes|
    ensures |Failed(codes, volumes)| <= |codes|
    ensures (Failed(codes, volumes) == []) <==> forall i :: 0 <= i < |codes| ==> RunOk(codes[i])
    ensures forall v :: v in Failed(codes, volumes) <==>
              exists i :: 0 <= i < |codes| && volumes[i] == v && !RunOk(codes[i])
  {
    if codes != [] {
      var n := |codes| - 1;
      FailedMembers(codes[..n], volumes[..n]);
      forall v ensures v in Failed(codes, volumes) <==>
                       exists i :: 0 <= i < |codes| && volumes[i] == v && !RunOk(codes[i])
      {
        if v in Failed(codes, volumes) {
          if v != volumes[n] || RunOk(codes[n]) {
            var i :| 0 <= i < n && volumes[..n][i] == v && !RunOk(codes[..n][i]);
            assert volumes[i] == v && !RunOk(codes[i]);
          }
        }
        if exists i :: 0 <= i < |codes| && volumes[i] == v && !RunOk(codes[i]) {
          var i :| 0 <= i < |codes| && volumes[i] == v && !RunOk(codes[i]);
          if i < n {
            assert volumes[..n][i] == v && !RunOk(codes[..n][i]);
          }
        }
      }
    }
  }

  /**
   * The whole run succeeds exactly when every config volume has a run attempt, among its
   * first three, that exits 0 or 2.
   */
  lemma AllConfigured(tasks: seq<Task>, hosts: seq<Host>, returncodes: seq<int>)
    requires |hosts| == |tasks| == |returncodes| && forall i :: 0 <= i < |hosts| ==> |hosts[i].pulls| >= 5 && |hosts[i].runs| >= 3
    requires forall i :: 0 <= i < |tasks| ==> returncodes[i] == RunCode(hosts[i].runs)
    ensures (forall i :: 0 <= i < |returncodes| ==> RunOk(returncodes[i])) <==>
            forall i :: 0 <= i < |hosts| ==>
              RunOk(hosts[i].runs[0]) || RunOk(hosts[i].runs[1]) || RunOk(hosts[i].runs[2])
  {
    forall i | 0 <= i < |hosts| ensures RunOk(returncodes[i]) <==>
      RunOk(hosts[i].runs[0]) || RunOk(hosts[i].runs[1]) || RunOk(hosts[i].runs[2])
    {
      RunCodeOk(hosts[i].runs);
    }
  }
}
