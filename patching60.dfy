/**
 * The Nuage 6.0 stopgap patcher (`stopgap-script/utils/nuage_patching_6_0.py`). Its
 * fragment builders write fixed texts with no repo enabling, `check_config` only
 * requires the image and the repo file, and `image_patching` goes on to run the
 * generated script with `virt-customize` and to reset the machine id.
 */
module Patching60 {
  import opened Wrappers
  import opened Strs
  import opened NuageConfig

  // ------------------------------------------------------------- fragments

  /**
   * The AVRS download lines; the last line of the fragment is a literal `%s`. Long lines
   * are written as their command word and the rest, which spells the same text.
   */
  const AvrsBody := [
    "mkdir -p /6wind",
    "rm -rf /var/cache/yum/Nuage",
    "yum clean all",
    "touch /kernel-version",
    "rpm " + "-q kernel | awk '{ print substr($1,8) }' > /kernel-version",
    "yum " + "install --setopt=skip_missing_names_on_install=False -y createrepo",
    "yum " + "install --setopt=skip_missing_names_on_install=False --downloadonly --downloaddir=/6wind kernel-headers-$(awk 'END{print}' /kernel-version) kernel-devel-$(awk 'END{print}' /kernel-version) python-pyelftools* dkms* 6windgate* nuage-openvswitch-6wind nuage-metadata-agent virtual-accelerator*",
    "yum " + "install --setopt=skip_missing_names_on_install=False --downloadonly --downloaddir=/6wind selinux-policy-nuage-avrs*",
    "yum " + "install --setopt=skip_missing_names_on_install=False --downloadonly --downloaddir=/6wind 6wind-openstack-extensions",
    "rm -rf /kernel-version",
    "yum clean all",
    "%s"]

  /** The lines below the header. The Mellanox OFED and kernel package lists are parameters. */
  function Body(section: Section, mlnxPackages: string, kernelPackages: string): seq<string> {
    match section
    case NuageSection => [YumInstall(NuageDependencies), YumInstall(NuageVrsPackage), YumInstall(NuagePackages)]
    case MellanoxSection => ["yum clean all", YumInstall(mlnxPackages), "systemctl disable mlnx-en.d"]
    case KernelSection => ["yum clean all", YumInstall(kernelPackages)]
    case AvrsSection => AvrsBody
  }

  /** The lines a 6.0 builder writes: a blank line, the header and the body. */
  function Lines(section: Section, mlnxPackages: string, kernelPackages: string): seq<string> {
    ["", Header(section)] + Body(section, mlnxPackages, kernelPackages)
  }

  /** The text a 6.0 builder writes: its lines, each one ended. */
  function Fragment(section: Section, mlnxPackages: string, kernelPackages: string): string {
    Text(Lines(section, mlnxPackages, kernelPackages))
  }

  /**
   * Unlike 5.0, no 6.0 fragment enables or disables repositories: none of its lines is a
   * `yum-config-manager` command.
   */
  lemma NoRepoCommands(section: Section, mlnxPackages: string, kernelPackages: string)
    ensures forall i :: 0 <= i < |Lines(section, mlnxPackages, kernelPackages)| ==>
      !StartsWith(Lines(section, mlnxPackages, kernelPackages)[i], ManagerCmd)
  {
    var lines := Lines(section, mlnxPackages, kernelPackages);
    forall i | 0 <= i < |lines| ensures !StartsWith(lines[i], ManagerCmd) {
      if i == 1 {
        HeaderNotCommand(section);
      } else if i > 1 {
        BodyNotCommand(section, mlnxPackages, kernelPackages, i - 2);
      }
    }
  }

  lemma HeaderNotCommand(section: Section)
    ensures !StartsWith(Header(section), ManagerCmd)
  {
    DiffersAt(Header(section), ManagerCmd, 0);
  }

  lemma BodyNotCommand(section: Section, mlnxPackages: string, kernelPackages: string, i: nat)
    requires i < |Body(section, mlnxPackages, kernelPackages)|
    ensures !StartsWith(Body(section, mlnxPackages, kernelPackages)[i], ManagerCmd)
  {
    var line := Body(section, mlnxPackages, kernelPackages)[i];
    if section == AvrsSection {
      AvrsNotCommand(i);
    } else if section == MellanoxSection && i == 2 {
      DiffersAt(line, ManagerCmd, 0);
    } else {
      DiffersAt(line, ManagerCmd, 3);
    }
  }

  lemma AvrsNotCommand(i: nat)
    requires i < |AvrsBody|
    ensures !StartsWith(AvrsBody[i], ManagerCmd)
  {
    var line := AvrsBody[i];
    if i in {2, 5, 6, 7, 8, 10} {
      DiffersAt(line, ManagerCmd, 3);
    } else {
      DiffersAt(line, ManagerCmd, 0);
    }
  }

  /** A string whose `k`-th character differs from the pattern's does not start with it. */
  lemma DiffersAt(s: string, p: string, k: nat)
    requires k < |p| && (k >= |s| || s[k] != p[k])
    ensures !StartsWith(s, p)
  {
  }

  /** Every 6.0 fragment opens with an empty line and then its header. */
  lemma FragmentStart(section: Section, mlnxPackages: string, kernelPackages: string)
    ensures "\n" + Header(section) + "\n" <= Fragment(section, mlnxPackages, kernelPackages)
  {
    var lines := ["", Header(section)] + Body(section, mlnxPackages, kernelPackages);
    var rest := lines[2..];
    assert lines == ["", Header(section)] + rest;
    JoinFront(Header(section), rest);
  }

  /** Joining lines that start with an empty one and `h`. */
  lemma JoinFront(h: string, rest: seq<string>)
    ensures "\n" + h + "\n" <= Text(["", h] + rest)
  {
    var parts := ["", h] + rest;
    assert parts[1..] == [h] + rest;
    assert Join(parts, "\n") == "" + "\n" + Join([h] + rest, "\n");
    var tail := if rest == [] then "" else "\n" + Join(rest, "\n");
    if rest != [] {
      assert ([h] + rest)[1..] == rest;
    }
    assert Join([h] + rest, "\n") == h + tail;
    if rest == [] {
      assert Text(parts) == "\n" + h + "\n";
    } else {
      assert Text(parts) == ("\n" + h + "\n") + (Join(rest, "\n") + "\n");
    }
  }

  /** The AVRS fragment ends with a line holding a bare `%s`. */
  lemma AvrsPlaceholder(mlnxPackages: string, kernelPackages: string)
    ensures |Fragment(AvrsSection, mlnxPackages, kernelPackages)| >= 4
    ensures Fragment(AvrsSection, mlnxPackages, kernelPackages)[|Fragment(AvrsSection, mlnxPackages, kernelPackages)| - 4..] == "\n%s\n"
  {
    var lines := Lines(AvrsSection, mlnxPackages, kernelPackages);
    var init := lines[..|lines| - 1];
    assert lines == init + ["%s"];
    JoinSnoc(init, "%s", "\n");
    var j := Join(init, "\n");
    var f := Fragment(AvrsSection, mlnxPackages, kernelPackages);
    assert f == j + "\n" + "%s" + "\n";
    SuffixOf(j, "\n" + "%s" + "\n");
    assert "\n" + "%s" + "\n" == "\n%s\n";
  }

  lemma SuffixOf(a: string, b: string)
    ensures (a + b)[|a + b| - |b|..] == b
  {
  }

  /** What one step appends to the patching script. */
  function StepText(step: Step, mlnxPackages: string, kernelPackages: string): string {
    match step
    case Append(section, _) => Fragment(section, mlnxPackages, kernelPackages)
    case AppendText(text) => text
    case _ => ""
  }

  /** The generated `patching_script.sh`: the text of every append of the run, in order. */
  function ScriptText(steps: seq<Step>, mlnxPackages: string, kernelPackages: string): string {
    if steps == [] then ""
    else ScriptText(steps[..|steps| - 1], mlnxPackages, kernelPackages) + StepText(steps[|steps| - 1], mlnxPackages, kernelPackages)
  }

  lemma ScriptTextSnoc(steps: seq<Step>, step: Step, mlnxPackages: string, kernelPackages: string)
    ensures ScriptText(steps + [step], mlnxPackages, kernelPackages) ==
            ScriptText(steps, mlnxPackages, kernelPackages) + StepText(step, mlnxPackages, kernelPackages)
  {
    assert (steps + [step])[..|steps|] == steps;
  }

  /** Only the appending steps contribute to the script. */
  lemma {:induction false} ScriptTextWritten(steps: seq<Step>, mlnxPackages: string, kernelPackages: string)
    ensures ScriptText(steps, mlnxPackages, kernelPackages) == ScriptText(Written(steps), mlnxPackages, kernelPackages)
  {
    if steps != [] {
      var init, last := steps[..|steps| - 1], steps[|steps| - 1];
      ScriptTextWritten(init, mlnxPackages, kernelPackages);
      if Writes(last) {
        assert Written(steps) == Written(init) + [last];
        ScriptTextSnoc(Written(init), last, mlnxPackages, kernelPackages);
      } else {
        assert Written(steps) == Written(init);
      }
    }
  }

  /**
   * A builder call: `write_to_file(SCRIPT_NAME, cmds)` with the builder's fixed text,
   * recorded as an append of its section (`ScriptText` gives the text it adds).
   */
  method WriteSection(session: Session, section: Section)
    modifies session
    ensures session.steps == old(session.steps) + [Append(section, [])]
  {
    session.Perform(Append(section, []));
  }

  // ---------------------------------------------------------------- check

  const RequiredKeys := [ImageName, RepoFile]

  /**
   * `check_config`, up to the helpers it calls: missing keys, then the DeploymentType
   * chain (subscripting the key to format the error message first), then libguestfs.
   */
  function Check(config: Config, rpmQuery: string): Result<Deployment, Stop> {
    var missing := Missing(config, RequiredKeys);
    if missing != [] then Err(Exit(MissingConfig(missing)))
    else match Subscript(config, DeploymentType)
      case Err(e) => Err(Raise(e))
      case Ok(dt) =>
        match DeploymentOf(dt)
        case Err(stop) => Err(stop)
        case Ok(d) => if LibguestfsMissing(rpmQuery) then Err(Exit(MissingLibguestfs)) else Ok(d)
  }

  method CheckConfig(config: Config, rpmQuery: string) returns (r: Result<Deployment, Stop>)
    ensures r == Check(config, rpmQuery)
  {
    var missing := CollectMissing(config, RequiredKeys);
    if missing != [] {
      return Err(Exit(MissingConfig(missing)));
    }
    if DeploymentType !in config {
      return Err(Raise(KeyError(DeploymentType)));
    }
    var d := DeploymentOf(config[DeploymentType]);
    if d.Err? {
      return Err(d.error);
    }
    if LibguestfsMissing(rpmQuery) {
      return Err(Exit(MissingLibguestfs));
    }
    r := Ok(d.value);
  }

  /** Missing required keys are reported first, exactly the falsy ones, in the listed order. */
  lemma CheckMissing(config: Config, rpmQuery: string)
    requires Missing(config, RequiredKeys) != []
    ensures Check(config, rpmQuery).Err? && Check(config, rpmQuery).error.Exit?
    ensures Check(config, rpmQuery).error.reason.MissingConfig?
    ensures forall k :: k in Check(config, rpmQuery).error.reason.keys <==>
                        k in RequiredKeys && !Truthy(Get(config, k))
    ensures Check(config, rpmQuery).error.reason.keys ==
      MissingOne(config, ImageName) + MissingOne(config, RepoFile)
  {
    MissingMembers(config, RequiredKeys);
    MissingTwo(config, ImageName, RepoFile);
  }

  /** Which configurations the check accepts, and the deployment it then reports. */
  lemma CheckAccepts(config: Config, rpmQuery: string)
    ensures Check(config, rpmQuery).Ok? <==>
      Truthy(Get(config, ImageName)) && Truthy(Get(config, RepoFile)) &&
      DeploymentType in config && config[DeploymentType].List? &&
      |config[DeploymentType].items| == 1 &&
      config[DeploymentType].items[0] in {"vrs", "avrs", "ovrs"} &&
      !LibguestfsMissing(rpmQuery)
    ensures Check(config, rpmQuery).Ok? ==>
      config[DeploymentType] == List([DeploymentName(Check(config, rpmQuery).value)])
  {
    MissingMembers(config, RequiredKeys);
    assert Missing(config, RequiredKeys) == [] <==>
      Truthy(Get(config, ImageName)) && Truthy(Get(config, RepoFile)) by {
      if Missing(config, RequiredKeys) != [] {
        var k := Missing(config, RequiredKeys)[0];
        assert k in Missing(config, RequiredKeys);
      }
    }
    if DeploymentType in config {
      DeploymentOfSpec(config[DeploymentType]);
    }
  }

  // -------------------------------------------------------- image patching

  /**
   * `if nuage_config['KernelHF']: update_kernel(nuage_config["KernelRepoNames"])`.
   * `update_kernel` takes no argument, so once the argument has been read the call
   * raises TypeError.
   */
  function KernelCall(config: Config): Result<seq<Step>, PyError> {
    match Subscript(config, KernelHF)
    case Err(e) => Err(e)
    case Ok(hf) =>
      if !Truthy(hf) then Ok([])
      else match Subscript(config, KernelRepoNames)
        case Err(e) => Err(e)
        case Ok(_) => Err(TypeError)
  }

  /** `if "ovrs" in ...: install_mellanox(nuage_config["MellanoxRepoNames"])`, which takes no argument either. */
  function MellanoxCall(config: Config): Result<seq<Step>, PyError> {
    if PyIn("ovrs", Get(config, DeploymentType)) == Ok(true) then
      match Subscript(config, MellanoxRepoNames)
      case Err(e) => Err(e)
      case Ok(_) => Err(TypeError)
    else Ok([])
  }

  /** The AVRS and Nuage fragments, the unsubscribe, `virt-customize` and `virt-sysprep`. */
  function Finish(config: Config): seq<Step> {
    AvrsWrite(config) + [Append(NuageSection, [])] + UnsubscribeStep(config) + VirtSteps(Get(config, ImageName))
  }

  /** `download_avrs_packages()` when `avrs` is in DeploymentType. */
  function AvrsWrite(config: Config): seq<Step> {
    if PyIn("avrs", Get(config, DeploymentType)) == Ok(true) then [Append(AvrsSection, [])] else []
  }

  function UnsubscribeStep(config: Config): seq<Step> {
    if Credentials(config) then [Unsubscribe([])] else []
  }

  /** `virt_customize_run` on the script, then `virt-sysprep` on the image. */
  function VirtSteps(image: Value): seq<Step> {
    [VirtCustomize(image), Sysprep(image)]
  }

  /** `image_patching`: the calls it makes and how it ends. */
  function Patch(config: Config, rpmQuery: string): Run {
    match Check(config, rpmQuery)
    case Err(stop) => Run([], Err(stop))
    case Ok(_) =>
      var r1 := AndThen(Run(LogHandler(config) + Prologue(config), Ok(())), KernelCall(config));
      AndThen(AndThen(r1, MellanoxCall(config)), Ok(Finish(config)))
  }

  method FinishPatching(session: Session, config: Config)
    modifies session
    ensures session.steps == old(session.steps) + Finish(config)
  {
    ghost var start := session.steps;
    if PyIn("avrs", Get(config, DeploymentType)) == Ok(true) {
      WriteSection(session, AvrsSection);
    }
    WriteSection(session, NuageSection);
    ghost var written := session.steps;
    assert written == start + AvrsWrite(config) + [Append(NuageSection, [])];
    if Credentials(config) {
      session.Perform(Unsubscribe([]));
    }
    assert session.steps == written + UnsubscribeStep(config);
    var image := Get(config, ImageName);
    session.Perform(VirtCustomize(image));
    session.Perform(Sysprep(image));
    assert session.steps == written + UnsubscribeStep(config) + VirtSteps(image);
    ConcatRegroup(start, AvrsWrite(config) + [Append(NuageSection, [])], UnsubscribeStep(config), VirtSteps(image));
  }

  lemma ConcatRegroup(a: seq<Step>, b: seq<Step>, c: seq<Step>, d: seq<Step>)
    ensures a + b + c + d == a + (b + c + d)
  {
  }

  method ImagePatching(session: Session, config: Config, rpmQuery: string)
    returns (outcome: Result<(), Stop>)
    modifies session
    ensures session.steps == old(session.steps) + Patch(config, rpmQuery).steps
    ensures outcome == Patch(config, rpmQuery).outcome
  {
    var checked := CheckConfig(config, rpmQuery);
    if checked.Err? {
      return Err(checked.error);
    }
    ghost var start := session.steps;
    Setup(session, config);
    var kernel := KernelCall(config);
    var mellanox := MellanoxCall(config);
    PatchForm(config, rpmQuery);
    ghost var setup := LogHandler(config) + Prologue(config);
    if kernel.Err? {
      return Err(Raise(kernel.error));
    }
    if mellanox.Err? {
      return Err(Raise(mellanox.error));
    }
    FinishPatching(session, config);
    assert session.steps == start + (setup + Finish(config));
    outcome := Ok(());
  }

  method Setup(session: Session, config: Config)
    modifies session
    ensures session.steps == old(session.steps) + (LogHandler(config) + Prologue(config))
  {
    if Truthy(Get(config, LogFileName)) {
      session.Perform(AddLogHandler(Get(config, LogFileName)));
    }
    BeginPatching(session, config);
  }

  /** The run after a successful check: the setup, then a crash in one of the two calls or the finish. */
  lemma PatchForm(config: Config, rpmQuery: string)
    requires Check(config, rpmQuery).Ok?
    ensures var setup := LogHandler(config) + Prologue(config);
      Patch(config, rpmQuery) ==
        if KernelCall(config).Err? then Run(setup, Err(Raise(KernelCall(config).error)))
        else if MellanoxCall(config).Err? then Run(setup, Err(Raise(MellanoxCall(config).error)))
        else Run(setup + Finish(config), Ok(()))
  {
    var setup := LogHandler(config) + Prologue(config);
    if KernelCall(config).Ok? {
      assert KernelCall(config).value == [];
      assert setup + [] == setup;
      if MellanoxCall(config).Ok? {
        assert MellanoxCall(config).value == [];
      }
    }
  }

  /** After a successful check, the run finishes exactly when `KernelHF` is set and falsy and the type is not `ovrs`. */
  lemma PatchFinishes(config: Config, rpmQuery: string)
    requires Check(config, rpmQuery).Ok?
    ensures Patch(config, rpmQuery).outcome.Ok? <==>
      KernelHF in config && !Truthy(config[KernelHF]) && Check(config, rpmQuery).value != Ovrs
  {
    PatchForm(config, rpmQuery);
    OvrsIn(config, rpmQuery);
  }

  lemma OvrsIn(config: Config, rpmQuery: string)
    requires Check(config, rpmQuery).Ok?
    ensures PyIn("ovrs", Get(config, DeploymentType)) == Ok(Check(config, rpmQuery).value == Ovrs)
    ensures PyIn("avrs", Get(config, DeploymentType)) == Ok(Check(config, rpmQuery).value == Avrs)
  {
    CheckAccepts(config, rpmQuery);
  }

  /**
   * A set `KernelHF` always crashes the run right after the repo file is copied: with
   * KeyError when `KernelRepoNames` is absent, TypeError otherwise.
   */
  lemma PatchKernelHF(config: Config, rpmQuery: string)
    requires Check(config, rpmQuery).Ok? && Truthy(Get(config, KernelHF))
    ensures Patch(config, rpmQuery) == Run(LogHandler(config) + Prologue(config),
      Err(Raise(if KernelRepoNames in config then TypeError else KeyError(KernelRepoNames))))
  {
    PatchForm(config, rpmQuery);
  }

  /** An `ovrs` deployment always crashes the run before any fragment is written. */
  lemma PatchOvrs(config: Config, rpmQuery: string)
    requires Check(config, rpmQuery).Ok? && Check(config, rpmQuery).value == Ovrs
    requires KernelHF in config && !Truthy(config[KernelHF])
    ensures Patch(config, rpmQuery) == Run(LogHandler(config) + Prologue(config),
      Err(Raise(if MellanoxRepoNames in config then TypeError else KeyError(MellanoxRepoNames))))
  {
    PatchForm(config, rpmQuery);
    OvrsIn(config, rpmQuery);
  }

  /** A run that finishes writes the AVRS fragment for `avrs` and then the Nuage fragment. */
  lemma PatchWritten(config: Config, rpmQuery: string)
    requires Patch(config, rpmQuery).outcome.Ok?
    ensures Check(config, rpmQuery).Ok?
    ensures Written(Patch(config, rpmQuery).steps) ==
      (if Check(config, rpmQuery).value == Avrs then [Append(AvrsSection, [])] else []) + [Append(NuageSection, [])]
  {
    PatchForm(config, rpmQuery);
    OvrsIn(config, rpmQuery);
    SetupWritten(config);
    FinishWritten(config);
    WrittenAppend(LogHandler(config) + Prologue(config), Finish(config));
  }

  lemma SetupWritten(config: Config)
    ensures Written(LogHandler(config) + Prologue(config)) == []
  {
    PrologueShape(config);
    WrittenNone(LogHandler(config));
    WrittenAppend(LogHandler(config), Prologue(config));
  }

  lemma FinishWritten(config: Config)
    ensures Written(Finish(config)) == AvrsWrite(config) + [Append(NuageSection, [])]
  {
    var a, n, u, v := AvrsWrite(config), [Append(NuageSection, [])], UnsubscribeStep(config), VirtSteps(Get(config, ImageName));
    assert Written(a) == a by {
      if a != [] { WrittenAll(a); }
    }
    WrittenAll(n);
    assert Written(u) == [] by {
      if u != [] { WrittenNone(u); }
    }
    assert Written(v) == [] by { WrittenNone(v); }
    assert Finish(config) == a + n + u + v;
    WrittenFour(a, n, u, v);
  }

  lemma WrittenFour(a: seq<Step>, b: seq<Step>, c: seq<Step>, d: seq<Step>)
    requires Written(c) == [] && Written(d) == []
    ensures Written(a + b + c + d) == Written(a) + Written(b)
  {
    var wa, wb := Written(a), Written(b);
    WrittenAppend(a, b);
    assert Written(a + b) == wa + wb;
    WrittenAppend(a + b, c);
    assert Written(a + b + c) == wa + wb;
    WrittenAppend(a + b + c, d);
  }

  /** The patching script of a run that finishes: the AVRS fragment for `avrs`, then the Nuage fragment. */
  lemma PatchScript(config: Config, rpmQuery: string, mlnxPackages: string, kernelPackages: string)
    requires Patch(config, rpmQuery).outcome.Ok?
    ensures Check(config, rpmQuery).Ok?
    ensures ScriptText(Patch(config, rpmQuery).steps, mlnxPackages, kernelPackages) ==
      (if Check(config, rpmQuery).value == Avrs then Fragment(AvrsSection, mlnxPackages, kernelPackages) else "") +
      Fragment(NuageSection, mlnxPackages, kernelPackages)
  {
    PatchWritten(config, rpmQuery);
    ScriptTextWritten(Patch(config, rpmQuery).steps, mlnxPackages, kernelPackages);
    ScriptTextSections(Check(config, rpmQuery).value == Avrs, mlnxPackages, kernelPackages);
  }

  lemma ScriptTextSections(avrs: bool, mlnxPackages: string, kernelPackages: string)
    ensures ScriptText((if avrs then [Append(AvrsSection, [])] else []) + [Append(NuageSection, [])], mlnxPackages, kernelPackages) ==
      (if avrs then Fragment(AvrsSection, mlnxPackages, kernelPackages) else "") + Fragment(NuageSection, mlnxPackages, kernelPackages)
  {
    var a := if avrs then [Append(AvrsSection, [])] else [];
    ScriptTextSnoc(a, Append(NuageSection, []), mlnxPackages, kernelPackages);
    if avrs {
      ScriptTextSnoc([], Append(AvrsSection, []), mlnxPackages, kernelPackages);
      assert [] + [Append(AvrsSection, [])] == a;
    }
  }

  /**
   * A run that finishes ends by unsubscribing when it subscribed, running the script on
   * the configured image with `virt-customize`, and resetting its machine id.
   */
  lemma PatchEnds(config: Config, rpmQuery: string)
    requires Patch(config, rpmQuery).outcome.Ok?
    ensures var steps := Patch(config, rpmQuery).steps;
      |steps| >= 3 &&
      steps[|steps| - 2] == VirtCustomize(Get(config, ImageName)) &&
      steps[|steps| - 1] == Sysprep(Get(config, ImageName)) &&
      (steps[|steps| - 3] == Unsubscribe([]) <==> Credentials(config))
  {
    PatchForm(config, rpmQuery);
  }
}
