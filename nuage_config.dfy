/**
 * What the Nuage image-patching scripts share: the YAML configuration as a dictionary
 * of Python values, the few Python operations the scripts apply to those values
 * (truthiness, `in`, `len`, iteration, `%s` formatting, subscripting), the constants
 * of `utils/constants.py`, and the record of helper calls a patching run makes.
 */
module NuageConfig {
  import opened Wrappers
  import opened Strs

  /** A configuration value as `yaml.load` produces it (lists hold strings). */
  datatype Value =
    | Null
    | Bool(b: bool)
    | Num(n: int)
    | Str(s: string)
    | List(items: seq<string>)

  /** The configuration keys the scripts read (`logFileName` is spelled with a lower-case l). */
  datatype Key =
    | ImageName | RepoFile | VRSRepoNames | DeploymentType
    | KernelHF | KernelRepoNames | AVRSRepoNames | MellanoxRepoNames
    | RpmPublicKey | RhelUserName | RhelPassword | RhelPool
    | RhelSatUrl | RhelSatOrg | RhelSatActKey
    | ProxyHostname | ProxyPort | LogFileName

  /** The key as it is spelled in the YAML file. */
  function KeyName(k: Key): string {
    match k
    case ImageName => "ImageName"
    case RepoFile => "RepoFile"
    case VRSRepoNames => "VRSRepoNames"
    case DeploymentType => "DeploymentType"
    case KernelHF => "KernelHF"
    case KernelRepoNames => "KernelRepoNames"
    case AVRSRepoNames => "AVRSRepoNames"
    case MellanoxRepoNames => "MellanoxRepoNames"
    case RpmPublicKey => "RpmPublicKey"
    case RhelUserName => "RhelUserName"
    case RhelPassword => "RhelPassword"
    case RhelPool => "RhelPool"
    case RhelSatUrl => "RhelSatUrl"
    case RhelSatOrg => "RhelSatOrg"
    case RhelSatActKey => "RhelSatActKey"
    case ProxyHostname => "ProxyHostname"
    case ProxyPort => "ProxyPort"
    case LogFileName => "logFileName"
  }

  /** The loaded YAML dictionary, restricted to the keys the scripts read. */
  type Config = map<Key, Value>

  /** The Python exceptions the scripts can raise on a bad configuration. */
  datatype PyError =
    | KeyError(key: Key)
    | TypeError

  /** `nuage_config.get(key)`: None when the key is absent. */
  function Get(config: Config, key: Key): Value {
    if key in config then config[key] else Null
  }

  /** `nuage_config[key]`. */
  function Subscript(config: Config, key: Key): Result<Value, PyError> {
    if key in config then Ok(config[key]) else Err(KeyError(key))
  }

  /** Python truthiness. */
  predicate Truthy(v: Value) {
    match v
    case Null => false
    case Bool(b) => b
    case Num(n) => n != 0
    case Str(s) => s != ""
    case List(items) => items != []
  }

  /** `x in v` for a string `x`: list membership, substring for a string, else TypeError. */
  function PyIn(x: string, v: Value): Result<bool, PyError> {
    match v
    case List(items) => Ok(x in items)
    case Str(s) => Ok(Contains(s, x))
    case _ => Err(TypeError)
  }

  /** `len(v)`. */
  function PyLen(v: Value): Result<int, PyError> {
    match v
    case List(items) => Ok(|items|)
    case Str(s) => Ok(|s|)
    case _ => Err(TypeError)
  }

  /** The items `for x in v` visits: the elements of a list, the characters of a string. */
  function Items(v: Value): (r: Result<seq<string>, PyError>)
    ensures v.List? ==> r == Ok(v.items)
    ensures v.Str? ==> r.Ok? && |r.value| == |v.s| && forall i :: 0 <= i < |v.s| ==> r.value[i] == [v.s[i]]
    ensures !v.List? && !v.Str? ==> r == Err(TypeError)
  {
    match v
    case List(items) => Ok(items)
    case Str(s) => Ok(Chars(s))
    case _ => Err(TypeError)
  }

  function Chars(s: string): (r: seq<string>)
    ensures |r| == |s| && forall i :: 0 <= i < |s| ==> r[i] == [s[i]]
  {
    if s == [] then [] else Chars(s[..|s| - 1]) + [[s[|s| - 1]]]
  }

  function Digits(n: nat): string
    decreases n
  {
    if n < 10 then [(48 + n) as char] else Digits(n / 10) + [(48 + n % 10) as char]
  }

  /** `'%s' % v` (a list is shown with each item quoted). */
  function Show(v: Value): string {
    match v
    case Null => "None"
    case Bool(b) => if b then "True" else "False"
    case Num(n) => if n < 0 then "-" + Digits(-n) else Digits(n)
    case Str(s) => s
    case List(items) => "[" + Join(Quoted(items), ", ") + "]"
  }

  function Quoted(items: seq<string>): seq<string> {
    if items == [] then [] else Quoted(items[..|items| - 1]) + ["'" + items[|items| - 1] + "'"]
  }

  // --------------------------------------------------------------- constants.py

  const NuagePythonOvs := "python-openvswitch-nuage"
  const NuagePackages := "nuage-puppet-modules selinux-policy-nuage nuage-openstack-neutronclient"
  const NuageDependencies := "libvirt perl-JSON lldpad createrepo"
  const NuageVrsPackage := "nuage-openvswitch nuage-metadata-agent"
  const VirtCustomizeMemsize := "2048"
  const VirtCustomizeEnv := "export LIBGUESTFS_BACKEND=direct;"
  const ScriptName := "patching_script.sh"
  const RhelSubPortal := "portal"
  const RhelSubSatellite := "satellite"
  const RhelSubDisabled := "disabled"

  /** The command the 5.0 fragments enable and disable repositories with. */
  const ManagerCmd := "yum-config-manager"

  /** The script line `yum install --setopt=skip_missing_names_on_install=False -y <packages>`. */
  function YumInstall(packages: string): string {
    "yum " + "install --setopt=skip_missing_names_on_install=False -y " + packages
  }

  // ------------------------------------------------------------- missing keys

  /** The keys of `keys` whose configured value is falsy, in order. */
  function Missing(config: Config, keys: seq<Key>): seq<Key> {
    if keys == [] then []
    else if Truthy(Get(config, keys[|keys| - 1])) then Missing(config, keys[..|keys| - 1])
    else Missing(config, keys[..|keys| - 1]) + [keys[|keys| - 1]]
  }

  /** The loop `for key in [...]: if not nuage_config.get(key): missing_config.append(key)`. */
  method CollectMissing(config: Config, keys: seq<Key>) returns (missing: seq<Key>)
    ensures missing == Missing(config, keys)
  {
    missing := [];
    var i := 0;
    while i < |keys|
      invariant 0 <= i <= |keys|
      invariant missing == Missing(config, keys[..i])
    {
      assert keys[..i + 1][..i] == keys[..i];
      if !Truthy(Get(config, keys[i])) {
        missing := missing + [keys[i]];
      }
      i := i + 1;
    }
    assert keys[..i] == keys;
  }

  /** A key is reported missing exactly when it is listed and its value is falsy. */
  lemma {:induction false} MissingMembers(config: Config, keys: seq<Key>)
    ensures forall k :: k in Missing(config, keys) <==> k in keys && !Truthy(Get(config, k))
    ensures |Missing(config, keys)| <= |keys|
  {
    if keys != [] {
      MissingMembers(config, keys[..|keys| - 1]);
      assert keys == keys[..|keys| - 1] + [keys[|keys| - 1]];
    }
  }

  /** The report for one key on its own: the key itself when its value is falsy. */
  function MissingOne(config: Config, k: Key): seq<Key> {
    if Truthy(Get(config, k)) then [] else [k]
  }

  /** Listing one more key appends it to the report exactly when its value is falsy. */
  lemma MissingSnoc(config: Config, keys: seq<Key>, k: Key)
    ensures Missing(config, keys + [k]) == Missing(config, keys) + MissingOne(config, k)
  {
    assert (keys + [k])[..|keys|] == keys;
  }

  /** With two keys listed, the report is each falsy key in the listed order. */
  lemma MissingTwo(config: Config, a: Key, b: Key)
    ensures Missing(config, [a, b]) == MissingOne(config, a) + MissingOne(config, b)
  {
    MissingSnoc(config, [], a);
    assert [] + [a] == [a];
    MissingSnoc(config, [a], b);
    assert [a] + [b] == [a, b];
  }

  /** With three keys listed, the report is each falsy key in the listed order. */
  lemma MissingThree(config: Config, a: Key, b: Key, c: Key)
    ensures Missing(config, [a, b, c]) == MissingOne(config, a) + MissingOne(config, b) + MissingOne(config, c)
  {
    MissingTwo(config, a, b);
    MissingSnoc(config, [a, b], c);
    assert [a, b] + [c] == [a, b, c];
  }

  // ---------------------------------------------------------- deployment types

  datatype Deployment = Vrs | Avrs | Ovrs

  function DeploymentName(d: Deployment): string {
    match d
    case Vrs => "vrs"
    case Avrs => "avrs"
    case Ovrs => "ovrs"
  }

  /** How a check stops the script. */
  datatype Stop =
    | Exit(reason: Reason)   // logger.error + sys.exit(1)
    | Raise(error: PyError)  // an uncaught exception

  datatype Reason =
    | MissingLibguestfs
    | IncompleteSubscription
    | MissingConfig(keys: seq<Key>)
    | MissingKernelRepos
    | MultipleDeploymentTypes
    | UnsupportedDeploymentType
    | MissingAvrsRepos
    | MissingMellanoxRepos

  /**
   * The DeploymentType chain shared by both stopgap scripts: more than one element is
   * rejected, then `vrs`, `avrs` and `ovrs` are tried in that order by `in`.
   */
  function DeploymentOf(v: Value): Result<Deployment, Stop> {
    match PyLen(v)
    case Err(e) => Err(Raise(e))
    case Ok(n) =>
      if n > 1 then Err(Exit(MultipleDeploymentTypes))
      else if PyIn("vrs", v) == Ok(true) then Ok(Vrs)
      else if PyIn("avrs", v) == Ok(true) then Ok(Avrs)
      else if PyIn("ovrs", v) == Ok(true) then Ok(Ovrs)
      else Err(Exit(UnsupportedDeploymentType))
  }

  /**
   * Exactly a one-element list naming a supported type is accepted; a string value is
   * never accepted (a one-character string contains none of the names), and a
   * non-sequence value raises TypeError.
   */
  lemma DeploymentOfSpec(v: Value)
    ensures DeploymentOf(v).Ok? <==> v.List? && |v.items| == 1 && v.items[0] in {"vrs", "avrs", "ovrs"}
    ensures DeploymentOf(v).Ok? ==> DeploymentName(DeploymentOf(v).value) == v.items[0]
    ensures v.List? && |v.items| > 1 ==> DeploymentOf(v) == Err(Exit(MultipleDeploymentTypes))
    ensures !v.List? && !v.Str? ==> DeploymentOf(v) == Err(Raise(TypeError))
  {
    if v.Str? && |v.s| <= 1 {
      NotContainedShort(v.s, "vrs");
      NotContainedShort(v.s, "avrs");
      NotContainedShort(v.s, "ovrs");
    }
  }

  /** A string shorter than `p` does not contain `p`. */
  lemma NotContainedShort(s: string, p: string)
    requires |s| < |p|
    ensures !Contains(s, p)
  {
    if s != [] {
      NotContainedShort(s[1..], p);
    }
  }

  // --------------------------------------------------------------- the trace

  /** The package fragments the patchers generate. */
  datatype Section = NuageSection | MellanoxSection | KernelSection | AvrsSection

  /**
   * One helper call of a patching run, in the order the run makes them. `Append` is a
   * fragment builder appending its section (built for the given repos) to the patching
   * script through `write_to_file`; `AppendText` appends a fixed text.
   */
  datatype Step =
    | StartScript
    | ImportGpgKeys(image: Value, key: Value)
    | Subscribe(args: seq<Value>)
    | InstallPythonOvs
    | UninstallPackages
    | CopyRepoFile(image: Value, repoFile: Value)
    | Append(section: Section, repos: seq<string>)
    | AppendText(text: string)
    | Unsubscribe(args: seq<Value>)
    | AddLogHandler(file: Value)
    | VirtCustomize(image: Value)   // `virt_customize_run` with the options `VirtCustomizeArgs(image)`
    | Sysprep(image: Value)         // `cmds_run` of `SysprepCommand(image)`

  predicate Writes(s: Step) {
    s.Append? || s.AppendText?
  }

  /** Every fragment header is this comment marker followed by its title. */
  const HeaderMark := "#### "
  const NuageHeader := HeaderMark + "Installing Nuage Packages"
  const MellanoxHeader := HeaderMark + "Installing Mellanox OFED and os-net-config Packages"
  const KernelHeader := HeaderMark + "Installing Kernel Hot Fix Packages"
  const AvrsHeader := HeaderMark + "Downloading Nuage Avrs and 6wind Packages"

  /** The comment line that opens a section's fragment in every patcher. */
  function Header(section: Section): string {
    match section
    case NuageSection => NuageHeader
    case MellanoxSection => MellanoxHeader
    case KernelSection => KernelHeader
    case AvrsSection => AvrsHeader
  }

  /** The stopgap scripts subscribe only when all three Red Hat credentials are set. */
  predicate Credentials(config: Config) {
    Truthy(Get(config, RhelUserName)) && Truthy(Get(config, RhelPassword)) && Truthy(Get(config, RhelPool))
  }

  predicate Proxy(config: Config) {
    Truthy(Get(config, ProxyHostname)) && Truthy(Get(config, ProxyPort))
  }

  /** `rhel_subscription(user, password, pool[, proxy host, proxy port])` in the stopgap scripts. */
  function Subscription(config: Config): seq<Step> {
    var creds := [Get(config, RhelUserName), Get(config, RhelPassword), Get(config, RhelPool)];
    if !Credentials(config) then []
    else if Proxy(config) then [Subscribe(creds + [Get(config, ProxyHostname), Get(config, ProxyPort)])]
    else [Subscribe(creds)]
  }

  /**
   * The calls both stopgap scripts make before their first fragment: start the script,
   * import the keys, subscribe, uninstall, copy the repo file.
   */
  function Prologue(config: Config): seq<Step> {
    var image := Get(config, ImageName);
    [StartScript] +
    (if Truthy(Get(config, RpmPublicKey)) then [ImportGpgKeys(image, Get(config, RpmPublicKey))] else []) +
    Subscription(config) +
    [UninstallPackages, CopyRepoFile(image, Get(config, RepoFile))]
  }

  method BeginPatching(session: Session, config: Config)
    modifies session
    ensures session.steps == old(session.steps) + Prologue(config)
  {
    var image := Get(config, ImageName);
    session.Perform(StartScript);
    if Truthy(Get(config, RpmPublicKey)) {
      session.Perform(ImportGpgKeys(image, Get(config, RpmPublicKey)));
    }
    var creds := [Get(config, RhelUserName), Get(config, RhelPassword), Get(config, RhelPool)];
    if Credentials(config) {
      if Proxy(config) {
        session.Perform(Subscribe(creds + [Get(config, ProxyHostname), Get(config, ProxyPort)]));
      } else {
        session.Perform(Subscribe(creds));
      }
    }
    session.Perform(UninstallPackages);
    session.Perform(CopyRepoFile(image, Get(config, RepoFile)));
  }

  lemma PrologueShape(config: Config)
    ensures Written(Prologue(config)) == []
    ensures |Prologue(config)| >= 3 && Prologue(config)[|Prologue(config)| - 1].CopyRepoFile?
    ensures forall s :: s in Prologue(config) ==> !Writes(s) && !s.Unsubscribe? && !s.VirtCustomize? && !s.Sysprep?
    ensures forall s :: s in Prologue(config) && s.Subscribe? ==> Credentials(config) && (|s.args| == 5 <==> Proxy(config))
    ensures Credentials(config) ==> Subscription(config)[0] in Prologue(config) && Subscription(config)[0].Subscribe?
  {
    WrittenNone(Prologue(config));
  }

  /** `if nuage_config.get("logFileName")`: a file handler is added to the logger. */
  function LogHandler(config: Config): seq<Step> {
    if Truthy(Get(config, LogFileName)) then [AddLogHandler(Get(config, LogFileName))] else []
  }

  /** The steps of the run that append to the patching script, in order. */
  function Written(steps: seq<Step>): seq<Step> {
    if steps == [] then []
    else Written(steps[..|steps| - 1]) + (if Writes(steps[|steps| - 1]) then [steps[|steps| - 1]] else [])
  }

  lemma {:induction false} WrittenAppend(a: seq<Step>, b: seq<Step>)
    ensures Written(a + b) == Written(a) + Written(b)
    decreases |b|
  {
    if b == [] {
      assert a + b == a;
    } else {
      assert (a + b)[..|a + b| - 1] == a + b[..|b| - 1];
      WrittenAppend(a, b[..|b| - 1]);
    }
  }

  lemma {:induction false} WrittenNone(steps: seq<Step>)
    requires forall i :: 0 <= i < |steps| ==> !Writes(steps[i])
    ensures Written(steps) == []
  {
    if steps != [] {
      WrittenNone(steps[..|steps| - 1]);
    }
  }

  lemma WrittenAll(steps: seq<Step>)
    requires |steps| <= 1 && forall i :: 0 <= i < |steps| ==> Writes(steps[i])
    ensures Written(steps) == steps
  {
    if steps != [] {
      assert steps[..0] == [];
    }
  }

  function Concat(texts: seq<string>): string {
    if texts == [] then "" else Concat(texts[..|texts| - 1]) + texts[|texts| - 1]
  }

  /** A patching run: the helper calls made, and how it ended. */
  datatype Run = Run(steps: seq<Step>, outcome: Result<(), Stop>)

  /** Running `next` after `r`: nothing happens once `r` has stopped, and an exception stops the run. */
  function AndThen(r: Run, next: Result<seq<Step>, PyError>): (q: Run)
    ensures r.outcome.Err? ==> q == r
    ensures r.outcome.Ok? && next.Ok? ==> q == Run(r.steps + next.value, Ok(()))
    ensures r.outcome.Ok? && next.Err? ==> q == Run(r.steps, Err(Raise(next.error)))
  {
    if r.outcome.Err? then r
    else match next
      case Ok(xs) => Run(r.steps + xs, Ok(()))
      case Err(e) => Run(r.steps, Err(Raise(e)))
  }

  /** `after` is what running `w` on `before` leaves, and `r` what the call returned. */
  predicate Applied(before: seq<Step>, after: seq<Step>, w: Result<seq<Step>, PyError>, r: Result<(), PyError>) {
    match w
    case Ok(xs) => r.Ok? && after == before + xs
    case Err(e) => r == Err(e) && after == before
  }

  /** One more phase on a run that has not stopped: a session that tracks the run tracks `AndThen`. */
  lemma AppliedStep(start: seq<Step>, run: Run, before: seq<Step>, after: seq<Step>,
                    w: Result<seq<Step>, PyError>, r: Result<(), PyError>)
    requires run.outcome.Ok? && before == start + run.steps && Applied(before, after, w, r)
    ensures after == start + AndThen(run, w).steps
    ensures r.Ok? <==> AndThen(run, w).outcome.Ok?
    ensures r.Err? ==> AndThen(run, w).outcome == Err(Raise(r.error))
  {
  }

  /**
   * The patching script and the image, as the helper calls leave them: the calls made
   * so far, in order.
   */
  class Session {
    var steps: seq<Step>

    constructor ()
      ensures steps == []
    {
      steps := [];
    }

    method Perform(s: Step)
      modifies this
      ensures steps == old(steps) + [s]
    {
      steps := steps + [s];
    }
  }

  // ------------------------------------------------------------ script texts

  predicate NoNewline(s: string) {
    '\n' !in s
  }

  /**
   * A script fragment written as a triple-quoted literal that opens and closes with a
   * line break: its lines joined by newlines, plus the final newline.
   */
  function Text(lines: seq<string>): string {
    Join(lines, "\n") + "\n"
  }

  /** Reading a fragment back line by line gives its lines and the empty rest after the last newline. */
  lemma TextLines(lines: seq<string>)
    requires |lines| >= 1
    requires forall i :: 0 <= i < |lines| ==> NoNewline(lines[i])
    ensures Split(Text(lines), '\n') == lines + [""]
  {
    JoinSnoc(lines, "", "\n");
    assert Text(lines) == Join(lines + [""], ['\n']);
    forall i | 0 <= i < |lines + [""]| ensures '\n' !in (lines + [""])[i] {
      if i < |lines| {
        assert NoNewline(lines[i]);
      }
    }
    SplitJoin(lines + [""], '\n');
  }

  /** `' %s -a %s --memsize %s --selinux-relabel' % (SCRIPT_NAME, image, MEMSIZE)` */
  function VirtCustomizeArgs(image: Value): string {
    " " + ScriptName + " -a " + Show(image) + " --memsize " + VirtCustomizeMemsize + " --selinux-relabel"
  }

  /** The machine-id reset command. */
  function SysprepCommand(image: Value): string {
    VirtCustomizeEnv + "virt-sysprep --operation machine-id -a " + Show(image)
  }

  /** Whether the libguestfs check fails: `'not installed' in cmds_run([...])`. */
  predicate LibguestfsMissing(rpmQuery: string) {
    Contains(rpmQuery, "not installed")
  }
}
