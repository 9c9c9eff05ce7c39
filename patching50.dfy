/**
 * The Nuage 5.0 stopgap patcher (`stopgap-script/utils/nuage_patching_5_0.py`): the
 * `yum-config-manager` enable/disable commands around each package fragment, the
 * configuration check, and the order in which `image_patching` makes its helper calls
 * and appends fragments to the patching script.
 */
module Patching50 {
  import opened Wrappers
  import opened Strs
  import opened NuageConfig

  // ------------------------------------------------------ enable / disable

  const ManagerPrefix := ManagerCmd + " --"
  const EnableBase := ManagerPrefix + "enable"
  const DisableBase := ManagerPrefix + "disable"

  lemma BasesAsWords()
    ensures EnableBase == ManagerCmd + [' '] + "--enable"
    ensures DisableBase == ManagerCmd + [' '] + "--disable"
    ensures ' ' !in ManagerCmd && ' ' !in "--enable" && ' ' !in "--disable"
  {
    assert " --" + "enable" == [' '] + "--enable";
    assert " --" + "disable" == [' '] + "--disable";
  }

  /** `" %s" % repo` for every repo, in list order. */
  function RepoArgs(repos: seq<string>): string {
    if repos == [] then "" else RepoArgs(repos[..|repos| - 1]) + " " + repos[|repos| - 1]
  }

  function EnableCmd(repos: seq<string>): string {
    EnableBase + RepoArgs(repos)
  }

  /** `enable_repos_cmd.replace("enable", "disable")`. */
  function DisableCmd(repos: seq<string>): string {
    ReplaceAll(EnableCmd(repos), "enable", "disable")
  }

  /** Every repo name with each `enable` in it replaced by `disable`. */
  function Renamed(repos: seq<string>): (r: seq<string>)
    ensures |r| == |repos|
  {
    if repos == [] then []
    else Renamed(repos[..|repos| - 1]) + [ReplaceAll(repos[|repos| - 1], "enable", "disable")]
  }

  /** The loop `for repo in repos: enable_repos_cmd += " %s" % (repo)`. */
  method EnableCommand(repos: seq<string>) returns (cmd: string)
    ensures cmd == EnableCmd(repos)
  {
    cmd := EnableBase;
    var i := 0;
    while i < |repos|
      invariant 0 <= i <= |repos|
      invariant cmd == EnableBase + RepoArgs(repos[..i])
    {
      assert repos[..i + 1][..i] == repos[..i];
      cmd := cmd + " " + repos[i];
      i := i + 1;
    }
    assert repos[..i] == repos;
  }

  lemma ConsTwo(a: string, b: string, xs: seq<string>)
    ensures [a] + ([b] + xs) == [a, b] + xs
  {
  }

  /** The words of `cmd flag` followed by the repo arguments. */
  lemma SplitCommand(cmd: string, flag: string, repos: seq<string>)
    requires ' ' !in cmd && ' ' !in flag
    requires forall i :: 0 <= i < |repos| ==> ' ' !in repos[i]
    ensures Split(cmd + [' '] + (flag + RepoArgs(repos)), ' ') == [cmd] + ([flag] + repos)
  {
    RepoArgsWords(flag, repos);
    SplitNoSep(cmd, ' ');
    SplitAppend(cmd, flag + RepoArgs(repos), ' ');
  }

  lemma CommandWords(cmd: string, flag: string, repos: seq<string>)
    requires ' ' !in cmd && ' ' !in flag
    requires forall i :: 0 <= i < |repos| ==> ' ' !in repos[i]
    ensures Split(cmd + [' '] + flag + RepoArgs(repos), ' ') == [cmd, flag] + repos
  {
    SplitCommand(cmd, flag, repos);
    ConsTwo(cmd, flag, repos);
    assert cmd + [' '] + flag + RepoArgs(repos) == cmd + [' '] + (flag + RepoArgs(repos));
  }

  /** The command's words are the tool, `--enable` and the repos, when no repo holds a space. */
  lemma EnableCmdWords(repos: seq<string>)
    requires forall i :: 0 <= i < |repos| ==> ' ' !in repos[i]
    ensures Split(EnableCmd(repos), ' ') == [ManagerCmd, "--enable"] + repos
  {
    BasesAsWords();
    CommandWords(ManagerCmd, "--enable", repos);
  }

  lemma ManagerPrefixSafe()
    ensures NoMatchStart(ManagerPrefix, 'e', 'n')
  {
  }

  /** Replacing in the repo arguments replaces in each repo name separately. */
  lemma {:induction false} ReplaceRepoArgs(repos: seq<string>)
    ensures ReplaceAll(RepoArgs(repos), "enable", "disable") == RepoArgs(Renamed(repos))
  {
    if repos != [] {
      var init, last := repos[..|repos| - 1], repos[|repos| - 1];
      ReplaceRepoArgs(init);
      assert RepoArgs(repos) == RepoArgs(init) + (" " + last);
      ReplaceAllSplitAt(RepoArgs(init), " " + last, "enable", "disable");
      MismatchAt(" " + last, "enable", 0);
      ReplaceAllStep(" " + last, "enable", "disable");
      assert (" " + last)[1..] == last;
      assert Renamed(repos)[..|repos| - 1] == Renamed(init);
    }
  }

  /**
   * The disable command is `yum-config-manager --disable` followed by the repos, each
   * with every `enable` inside its name turned into `disable`.
   */
  lemma DisableCmdShape(repos: seq<string>)
    ensures DisableCmd(repos) == DisableBase + RepoArgs(Renamed(repos))
  {
    var args := RepoArgs(repos);
    var t := "enable" + args;
    Regroup(ManagerPrefix, "enable", args);
    PrefixKept(t);
    FlagRenamed(args);
    ReplaceRepoArgs(repos);
    Regroup(ManagerPrefix, "disable", RepoArgs(Renamed(repos)));
  }

  lemma Regroup(x: string, y: string, z: string)
    ensures x + y + z == x + (y + z)
  {
  }

  lemma PrefixKept(t: string)
    ensures ReplaceAll(ManagerPrefix + t, "enable", "disable") == ManagerPrefix + ReplaceAll(t, "enable", "disable")
  {
    ManagerPrefixSafe();
    ReplaceAllSafePrefix(ManagerPrefix, t, "enable", "disable");
  }

  lemma FlagRenamed(r: string)
    ensures ReplaceAll("enable" + r, "enable", "disable") == "disable" + ReplaceAll(r, "enable", "disable")
  {
    var t := "enable" + r;
    assert StartsWith(t, "enable");
    assert t[|"enable"|..] == r;
  }

  lemma {:induction false} RenamedPlain(repos: seq<string>)
    requires forall i :: 0 <= i < |repos| ==> !Contains(repos[i], "enable")
    ensures Renamed(repos) == repos
  {
    if repos != [] {
      RenamedPlain(repos[..|repos| - 1]);
      ReplaceAllNoMatch(repos[|repos| - 1], "enable", "disable");
      assert repos[..|repos| - 1] + [repos[|repos| - 1]] == repos;
    }
  }

  /** With no `enable` inside any repo name, the same repos are disabled that were enabled. */
  lemma DisableCmdPlain(repos: seq<string>)
    requires forall i :: 0 <= i < |repos| ==> !Contains(repos[i], "enable")
    ensures DisableCmd(repos) == DisableBase + RepoArgs(repos)
  {
    DisableCmdShape(repos);
    RenamedPlain(repos);
  }

  /** A repo whose name starts with `enable` is disabled under a different name. */
  lemma DisableRenamesRepo(x: string)
    requires !Contains(x, "enable")
    ensures DisableCmd(["enable" + x]) == DisableBase + " disable" + x
  {
    var r := "enable" + x;
    DisableCmdShape([r]);
    FlagRenamed(x);
    ReplaceAllNoMatch(x, "enable", "disable");
    var d := "disable" + x;
    assert [r][..0] == [];
    assert Renamed([r]) == [d];
    assert [d][..0] == [];
    assert RepoArgs([d]) == " " + d;
    assert " disable" == " " + "disable";
    Regroup(" ", "disable", x);
    Regroup(DisableBase, " disable", x);
  }

  /** Replacing with a text free of `c` keeps a text free of `c` free of it. */
  lemma {:induction false} ReplaceAllKeepsFree(s: string, pat: string, rep: string, c: char)
    requires |pat| > 0 && c !in s && c !in rep
    ensures c !in ReplaceAll(s, pat, rep)
    decreases |s|
  {
    if StartsWith(s, pat) {
      assert c !in s[|pat|..] by {
        forall k | 0 <= k < |s[|pat|..]| ensures s[|pat|..][k] != c { assert s[|pat|..][k] == s[k + |pat|]; }
      }
      ReplaceAllKeepsFree(s[|pat|..], pat, rep, c);
    } else if s != [] {
      assert c !in s[1..] by {
        forall k | 0 <= k < |s[1..]| ensures s[1..][k] != c { assert s[1..][k] == s[k + 1]; }
      }
      ReplaceAllKeepsFree(s[1..], pat, rep, c);
    }
  }

  lemma {:induction false} RepoArgsFree(repos: seq<string>, c: char)
    requires c != ' ' && forall i :: 0 <= i < |repos| ==> c !in repos[i]
    ensures c !in RepoArgs(repos)
  {
    if repos != [] {
      RepoArgsFree(repos[..|repos| - 1], c);
    }
  }

  lemma RenamedFree(repos: seq<string>, c: char)
    requires c !in "disable"
    requires forall i :: 0 <= i < |repos| ==> c !in repos[i]
    ensures forall i :: 0 <= i < |repos| ==> c !in Renamed(repos)[i]
  {
    forall i | 0 <= i < |repos| ensures c !in Renamed(repos)[i] {
      RenamedAt(repos, i);
      ReplaceAllKeepsFree(repos[i], "enable", "disable", c);
    }
  }

  lemma DisableArgsWords(repos: seq<string>)
    requires forall i :: 0 <= i < |repos| ==> ' ' !in repos[i]
    ensures Split(DisableBase + RepoArgs(repos), ' ') == [ManagerCmd, "--disable"] + repos
  {
    BasesAsWords();
    CommandWords(ManagerCmd, "--disable", repos);
  }

  /** The disabled repos are the enabled ones, renamed, when no repo holds a space. */
  lemma DisableCmdWords(repos: seq<string>)
    requires forall i :: 0 <= i < |repos| ==> ' ' !in repos[i]
    ensures Split(DisableCmd(repos), ' ') == [ManagerCmd, "--disable"] + Renamed(repos)
  {
    DisableCmdShape(repos);
    RenamedArgsWords(repos);
  }

  lemma RenamedArgsWords(repos: seq<string>)
    requires forall i :: 0 <= i < |repos| ==> ' ' !in repos[i]
    ensures Split(DisableBase + RepoArgs(Renamed(repos)), ' ') == [ManagerCmd, "--disable"] + Renamed(repos)
  {
    RenamedFree(repos, ' ');
    DisableArgsWords(Renamed(repos));
  }

  lemma {:induction false} RenamedAt(repos: seq<string>, i: nat)
    requires i < |repos|
    ensures Renamed(repos)[i] == ReplaceAll(repos[i], "enable", "disable")
  {
    if i < |repos| - 1 {
      RenamedAt(repos[..|repos| - 1], i);
    }
  }

  /** Splitting `first + RepoArgs(repos)` at spaces gives `first` and then the repos. */
  lemma {:induction false} RepoArgsWords(first: string, repos: seq<string>)
    requires ' ' !in first
    requires forall i :: 0 <= i < |repos| ==> ' ' !in repos[i]
    ensures Split(first + RepoArgs(repos), ' ') == [first] + repos
  {
    if repos == [] {
      assert first + RepoArgs(repos) == first;
      SplitNoSep(first, ' ');
    } else {
      var init, last := repos[..|repos| - 1], repos[|repos| - 1];
      RepoArgsWords(first, init);
      assert first + RepoArgs(repos) == (first + RepoArgs(init)) + [' '] + last;
      SplitAppend(first + RepoArgs(init), last, ' ');
      SplitNoSep(last, ' ');
      assert init + [last] == repos;
    }
  }

  // ------------------------------------------------------------- fragments

  /** The lines of a 5.0 fragment: a blank line, the header, enable, the body, disable. */
  function Bracket(header: string, repos: seq<string>, body: seq<string>): seq<string> {
    ["", header, EnableCmd(repos)] + body + [DisableCmd(repos)]
  }

  /**
   * Read back line by line, every fragment has the enable command right below its
   * header, then the body lines, then the disable command as its last line.
   */
  lemma FragmentLines(header: string, repos: seq<string>, body: seq<string>)
    requires NoNewline(header)
    requires forall i :: 0 <= i < |repos| ==> NoNewline(repos[i])
    requires forall i :: 0 <= i < |body| ==> NoNewline(body[i])
    ensures Split(Text(Bracket(header, repos, body)), '\n') ==
            ["", header, EnableCmd(repos)] + body + [DisableCmd(repos), ""]
  {
    RepoArgsFree(repos, '\n');
    assert '\n' !in EnableBase;
    assert NoNewline(EnableCmd(repos));
    DisableCmdShape(repos);
    RenamedFree(repos, '\n');
    RepoArgsFree(Renamed(repos), '\n');
    assert '\n' !in DisableBase;
    assert NoNewline(DisableCmd(repos));
    var lines := Bracket(header, repos, body);
    forall i | 0 <= i < |lines| ensures NoNewline(lines[i]) {
      if 3 <= i < 3 + |body| {
        assert lines[i] == body[i - 3];
      }
    }
    TextLines(lines);
  }

  const AvrsBody := [
    "mkdir -p /6wind",
    "rm -rf /var/cache/yum/Nuage",
    "yum clean all",
    "touch /kernel-version",
    "rpm -q kernel | awk '{ print substr($1,8) }' > /kernel-version",
    "yum install --setopt=skip_missing_names_on_install=False -y createrepo",
    "yum install --setopt=skip_missing_names_on_install=False --downloadonly --downloaddir=/6wind kernel-headers-$(awk 'END{print}' /kernel-version) kernel-devel-$(awk 'END{print}' /kernel-version) python-pyelftools* dkms* 6windgate* nuage-openvswitch nuage-metadata-agent virtual-accelerator*",
    "yum install --setopt=skip_missing_names_on_install=False --downloadonly --downloaddir=/6wind selinux-policy-nuage-avrs*",
    "yum install --setopt=skip_missing_names_on_install=False --downloadonly --downloaddir=/6wind 6wind-openstack-extensions",
    "rm -rf /kernel-version",
    "yum clean all"]

  /**
   * The lines between the enable and the disable command. The Mellanox OFED and kernel
   * package lists are parameters: the constants module that defines them is not part of
   * this model.
   */
  function Body(section: Section, mlnxPackages: string, kernelPackages: string): seq<string> {
    match section
    case NuageSection => [YumInstall(NuageDependencies), YumInstall(NuageVrsPackage), YumInstall(NuagePackages)]
    case MellanoxSection => ["yum clean all", YumInstall(mlnxPackages), "systemctl disable mlnx-en.d"]
    case KernelSection => ["yum clean all", YumInstall(kernelPackages)]
    case AvrsSection => AvrsBody
  }

  /** The text `section`'s builder writes for `repos`. */
  function Fragment(section: Section, repos: seq<string>, mlnxPackages: string, kernelPackages: string): string {
    Text(Bracket(Header(section), repos, Body(section, mlnxPackages, kernelPackages)))
  }

  /** The generated `patching_script.sh`: the text of every append of the run, in order. */
  function ScriptText(steps: seq<Step>, mlnxPackages: string, kernelPackages: string): string {
    if steps == [] then ""
    else
      var last := steps[|steps| - 1];
      ScriptText(steps[..|steps| - 1], mlnxPackages, kernelPackages) +
      (match last
       case Append(section, repos) => Fragment(section, repos, mlnxPackages, kernelPackages)
       case AppendText(text) => text
       case _ => "")
  }

  /** Only the appending steps contribute to the script. */
  lemma {:induction false} ScriptTextWritten(steps: seq<Step>, mlnxPackages: string, kernelPackages: string)
    ensures ScriptText(steps, mlnxPackages, kernelPackages) == ScriptText(Written(steps), mlnxPackages, kernelPackages)
  {
    if steps != [] {
      var init, last := steps[..|steps| - 1], steps[|steps| - 1];
      ScriptTextWritten(init, mlnxPackages, kernelPackages);
      if Writes(last) {
        var w := Written(init) + [last];
        assert Written(steps) == w;
        assert w[..|w| - 1] == Written(init) && w[|w| - 1] == last;
      } else {
        assert Written(steps) == Written(init);
      }
    }
  }

  /** What a fragment builder appends, given the configured repo value it iterates over. */
  function FragmentWrite(section: Section, repos: Value): Result<seq<Step>, PyError> {
    match Items(repos)
    case Ok(items) => Ok([Append(section, items)])
    case Err(e) => Err(e)
  }

  /**
   * One fragment builder (`install_nuage_packages`, `install_mellanox`, `update_kernel`,
   * `download_avrs_packages`): build both commands and the fragment, then append it.
   * Iterating over a value that is neither a list nor a string raises TypeError.
   */
  method WriteFragment(session: Session, section: Section, repos: Value, mlnxPackages: string, kernelPackages: string)
    returns (r: Result<(), PyError>, text: string)
    modifies session
    ensures Applied(old(session.steps), session.steps, FragmentWrite(section, repos), r)
    ensures r.Ok? ==> Items(repos).Ok? && text == Fragment(section, Items(repos).value, mlnxPackages, kernelPackages)
  {
    var items := Items(repos);
    if items.Err? {
      return Err(items.error), "";
    }
    var enable := EnableCommand(items.value);
    var disable := ReplaceAll(enable, "enable", "disable");
    text := Text(["", Header(section), enable] + Body(section, mlnxPackages, kernelPackages) + [disable]);
    session.Perform(Append(section, items.value));
    r := Ok(());
  }

  // ---------------------------------------------------------------- check

  const RequiredKeys := [ImageName, RepoFile, VRSRepoNames]

  /** `check_config`, up to the helpers it calls: the deployment it accepts, or how it stops. */
  function Check(config: Config, rpmQuery: string): Result<Deployment, Stop> {
    var missing := Missing(config, RequiredKeys);
    if missing != [] then Err(Exit(MissingConfig(missing)))
    else if Truthy(Get(config, KernelHF)) && !Truthy(Get(config, KernelRepoNames)) then
      Err(Exit(MissingKernelRepos))
    else match Subscript(config, DeploymentType)
      case Err(e) => Err(Raise(e))
      case Ok(dt) =>
        match DeploymentOf(dt)
        case Err(stop) => Err(stop)
        case Ok(d) =>
          if d == Avrs && !Truthy(Get(config, AVRSRepoNames)) then Err(Exit(MissingAvrsRepos))
          else if d == Ovrs && !Truthy(Get(config, MellanoxRepoNames)) then Err(Exit(MissingMellanoxRepos))
          else if LibguestfsMissing(rpmQuery) then Err(Exit(MissingLibguestfs))
          else Ok(d)
  }

  method CheckConfig(config: Config, rpmQuery: string) returns (r: Result<Deployment, Stop>)
    ensures r == Check(config, rpmQuery)
  {
    var missing := CollectMissing(config, RequiredKeys);
    if missing != [] {
      return Err(Exit(MissingConfig(missing)));
    }
    if Truthy(Get(config, KernelHF)) && !Truthy(Get(config, KernelRepoNames)) {
      return Err(Exit(MissingKernelRepos));
    }
    if DeploymentType !in config {
      return Err(Raise(KeyError(DeploymentType)));
    }
    var d := DeploymentOf(config[DeploymentType]);
    if d.Err? {
      return Err(d.error);
    }
    if d.value == Avrs && !Truthy(Get(config, AVRSRepoNames)) {
      return Err(Exit(MissingAvrsRepos));
    }
    if d.value == Ovrs && !Truthy(Get(config, MellanoxRepoNames)) {
      return Err(Exit(MissingMellanoxRepos));
    }
    if LibguestfsMissing(rpmQuery) {
      return Err(Exit(MissingLibguestfs));
    }
    r := Ok(d.value);
  }

  /** Missing required keys are reported first, exactly the falsy ones, in the listed order. */
  lemma CheckMissing(config: Config, rpmQuery: string)
    requires Missing(config, RequiredKeys) != []
    ensures Check(config, rpmQuery).Err? && Check(config, rpmQuery).error.Exit?
    ensures Check(config, rpmQuery).error.reason.MissingConfig?
    ensures forall k :: k in Check(config, rpmQuery).error.reason.keys <==>
                        k in RequiredKeys && !Truthy(Get(config, k))
    ensures Check(config, rpmQuery).error.reason.keys ==
      MissingOne(config, ImageName) + MissingOne(config, RepoFile) + MissingOne(config, VRSRepoNames)
  {
    MissingMembers(config, RequiredKeys);
    MissingThree(config, ImageName, RepoFile, VRSRepoNames);
  }

  /** Which configurations the check accepts, and the deployment it then reports. */
  lemma CheckAccepts(config: Config, rpmQuery: string)
    ensures Check(config, rpmQuery).Ok? <==>
      Truthy(Get(config, ImageName)) && Truthy(Get(config, RepoFile)) &&
      Truthy(Get(config, VRSRepoNames)) &&
      (Truthy(Get(config, KernelHF)) ==> Truthy(Get(config, KernelRepoNames))) &&
      DeploymentType in config && config[DeploymentType].List? &&
      |config[DeploymentType].items| == 1 &&
      config[DeploymentType].items[0] in {"vrs", "avrs", "ovrs"} &&
      (config[DeploymentType].items[0] == "avrs" ==> Truthy(Get(config, AVRSRepoNames))) &&
      (config[DeploymentType].items[0] == "ovrs" ==> Truthy(Get(config, MellanoxRepoNames))) &&
      !LibguestfsMissing(rpmQuery)
    ensures Check(config, rpmQuery).Ok? ==>
      [DeploymentName(Check(config, rpmQuery).value)] == config[DeploymentType].items
  {
    MissingMembers(config, RequiredKeys);
    assert Missing(config, RequiredKeys) == [] <==>
      Truthy(Get(config, ImageName)) && Truthy(Get(config, RepoFile)) && Truthy(Get(config, VRSRepoNames)) by {
      if Missing(config, RequiredKeys) != [] {
        var k := Missing(config, RequiredKeys)[0];
        assert k in Missing(config, RequiredKeys);
      }
    }
    if DeploymentType in config {
      DeploymentOfSpec(config[DeploymentType]);
    }
  }

  /** A configuration without `DeploymentType` that passes the earlier checks raises KeyError. */
  lemma CheckNoDeploymentType(config: Config, rpmQuery: string)
    requires Missing(config, RequiredKeys) == []
    requires Truthy(Get(config, KernelHF)) ==> Truthy(Get(config, KernelRepoNames))
    requires DeploymentType !in config
    ensures Check(config, rpmQuery) == Err(Raise(KeyError(DeploymentType)))
  {
  }

  // -------------------------------------------------------- image patching

  /** `if nuage_config['KernelHF']: update_kernel(...)`: a missing key raises KeyError. */
  function KernelWrite(config: Config): Result<seq<Step>, PyError> {
    match Subscript(config, KernelHF)
    case Err(e) => Err(e)
    case Ok(hf) => if Truthy(hf) then FragmentWrite(KernelSection, Get(config, KernelRepoNames)) else Ok([])
  }

  function MellanoxWrite(config: Config): Result<seq<Step>, PyError> {
    if PyIn("ovrs", Get(config, DeploymentType)) == Ok(true) then
      FragmentWrite(MellanoxSection, Get(config, MellanoxRepoNames))
    else Ok([])
  }

  function AvrsWrite(config: Config): Result<seq<Step>, PyError> {
    if PyIn("avrs", Get(config, DeploymentType)) == Ok(true) then
      FragmentWrite(AvrsSection, Get(config, AVRSRepoNames))
    else Ok([])
  }

  function NuageWrite(config: Config): Result<seq<Step>, PyError> {
    FragmentWrite(NuageSection, Get(config, VRSRepoNames))
  }

  /** The prologue and the four fragment builders, each run only while nothing has raised. */
  function Fragments(config: Config): Run {
    var r1 := AndThen(Run(Prologue(config), Ok(())), KernelWrite(config));
    var r2 := AndThen(r1, MellanoxWrite(config));
    var r3 := AndThen(r2, AvrsWrite(config));
    AndThen(r3, NuageWrite(config))
  }

  /**
   * `image_patching`: the calls it makes and how it ends. The final `virt_customize_run`
   * and `virt-sysprep` calls sit inside a string literal in the source and never run.
   */
  function Patch(config: Config, rpmQuery: string): Run {
    match Check(config, rpmQuery)
    case Err(stop) => Run([], Err(stop))
    case Ok(_) => AndThen(Fragments(config), Ok(if Credentials(config) then [Unsubscribe([])] else []))
  }

  method UpdateKernel(session: Session, config: Config, mlnxPackages: string, kernelPackages: string)
    returns (r: Result<(), PyError>)
    modifies session
    ensures Applied(old(session.steps), session.steps, KernelWrite(config), r)
  {
    if KernelHF !in config {
      return Err(KeyError(KernelHF));
    }
    r := Ok(());
    if Truthy(config[KernelHF]) {
      var text;
      r, text := WriteFragment(session, KernelSection, Get(config, KernelRepoNames), mlnxPackages, kernelPackages);
    }
  }

  method InstallMellanox(session: Session, config: Config, mlnxPackages: string, kernelPackages: string)
    returns (r: Result<(), PyError>)
    modifies session
    ensures Applied(old(session.steps), session.steps, MellanoxWrite(config), r)
  {
    r := Ok(());
    if PyIn("ovrs", Get(config, DeploymentType)) == Ok(true) {
      var text;
      r, text := WriteFragment(session, MellanoxSection, Get(config, MellanoxRepoNames), mlnxPackages, kernelPackages);
    }
  }

  method DownloadAvrs(session: Session, config: Config, mlnxPackages: string, kernelPackages: string)
    returns (r: Result<(), PyError>)
    modifies session
    ensures Applied(old(session.steps), session.steps, AvrsWrite(config), r)
  {
    r := Ok(());
    if PyIn("avrs", Get(config, DeploymentType)) == Ok(true) {
      var text;
      r, text := WriteFragment(session, AvrsSection, Get(config, AVRSRepoNames), mlnxPackages, kernelPackages);
    }
  }

  method InstallNuagePackages(session: Session, config: Config, mlnxPackages: string, kernelPackages: string)
    returns (r: Result<(), PyError>)
    modifies session
    ensures Applied(old(session.steps), session.steps, NuageWrite(config), r)
  {
    var text;
    r, text := WriteFragment(session, NuageSection, Get(config, VRSRepoNames), mlnxPackages, kernelPackages);
  }

  method ImagePatching(session: Session, config: Config, rpmQuery: string, mlnxPackages: string, kernelPackages: string)
    returns (outcome: Result<(), Stop>)
    modifies session
    ensures session.steps == old(session.steps) + Patch(config, rpmQuery).steps
    ensures outcome == Patch(config, rpmQuery).outcome
  {
    var checked := CheckConfig(config, rpmQuery);
    if checked.Err? {
      return Err(checked.error);
    }
    ghost var start := session.steps;
    ghost var r0 := Run(Prologue(config), Ok(()));
    ghost var r1 := AndThen(r0, KernelWrite(config));
    ghost var r2 := AndThen(r1, MellanoxWrite(config));
    ghost var r3 := AndThen(r2, AvrsWrite(config));
    ghost var r4 := AndThen(r3, NuageWrite(config));
    ghost var tail: seq<Step> := if Credentials(config) then [Unsubscribe([])] else [];
    assert Patch(config, rpmQuery) == AndThen(r4, Ok(tail));
    BeginPatching(session, config);

    ghost var before := session.steps;
    var w := UpdateKernel(session, config, mlnxPackages, kernelPackages);
    AppliedStep(start, r0, before, session.steps, KernelWrite(config), w);
    if w.Err? {
      return Err(Raise(w.error));
    }

    before := session.steps;
    w := InstallMellanox(session, config, mlnxPackages, kernelPackages);
    AppliedStep(start, r1, before, session.steps, MellanoxWrite(config), w);
    if w.Err? {
      return Err(Raise(w.error));
    }

    before := session.steps;
    w := DownloadAvrs(session, config, mlnxPackages, kernelPackages);
    AppliedStep(start, r2, before, session.steps, AvrsWrite(config), w);
    if w.Err? {
      return Err(Raise(w.error));
    }

    before := session.steps;
    w := InstallNuagePackages(session, config, mlnxPackages, kernelPackages);
    AppliedStep(start, r3, before, session.steps, NuageWrite(config), w);
    if w.Err? {
      return Err(Raise(w.error));
    }

    if Credentials(config) {
      session.Perform(Unsubscribe([]));
    }
    outcome := Ok(());
  }

  /** A configuration the check rejects leaves the script and the image untouched. */
  lemma PatchRejected(config: Config, rpmQuery: string)
    requires Check(config, rpmQuery).Err?
    ensures Patch(config, rpmQuery) == Run([], Err(Check(config, rpmQuery).error))
  {
  }

  /**
   * A configuration without `KernelHF` passes the check (which reads it with `get`) and
   * then raises KeyError in `image_patching` (which subscripts it), after the repo file
   * has been copied and before any fragment is written.
   */
  lemma PatchWithoutKernelHF(config: Config, rpmQuery: string)
    requires Check(config, rpmQuery).Ok? && KernelHF !in config
    ensures Patch(config, rpmQuery) == Run(Prologue(config), Err(Raise(KeyError(KernelHF))))
    ensures Written(Prologue(config)) == [] && Prologue(config)[|Prologue(config)| - 1].CopyRepoFile?
  {
    PrologueShape(config);
  }

  /** After a successful check the configured deployment type is the one-element list of its name. */
  lemma CheckedDeployment(config: Config, rpmQuery: string)
    requires Check(config, rpmQuery).Ok?
    ensures Get(config, DeploymentType) == List([DeploymentName(Check(config, rpmQuery).value)])
    ensures PyIn("ovrs", Get(config, DeploymentType)) == Ok(Check(config, rpmQuery).value == Ovrs)
    ensures PyIn("avrs", Get(config, DeploymentType)) == Ok(Check(config, rpmQuery).value == Avrs)
  {
    CheckAccepts(config, rpmQuery);
  }

  /** A successful run made every phase, in order, and then unsubscribed if it had subscribed. */
  lemma PatchOkSteps(config: Config, rpmQuery: string)
    requires Patch(config, rpmQuery).outcome.Ok?
    ensures Check(config, rpmQuery).Ok?
    ensures KernelWrite(config).Ok? && MellanoxWrite(config).Ok? && AvrsWrite(config).Ok? && NuageWrite(config).Ok?
    ensures Patch(config, rpmQuery).steps ==
      Prologue(config) + KernelWrite(config).value + MellanoxWrite(config).value +
      AvrsWrite(config).value + NuageWrite(config).value +
      (if Credentials(config) then [Unsubscribe([])] else [])
  {
  }

  /** The append a builder makes for a repo value it can iterate over. */
  function AppendFor(section: Section, repos: Value): Step {
    match Items(repos)
    case Ok(items) => Append(section, items)
    case Err(_) => Append(section, [])
  }

  lemma FragmentWriteOne(section: Section, repos: Value)
    requires FragmentWrite(section, repos).Ok?
    ensures Written(FragmentWrite(section, repos).value) == [AppendFor(section, repos)]
  {
    WrittenAll(FragmentWrite(section, repos).value);
  }

  /**
   * A successful run appends the kernel hot-fix fragment when `KernelHF` is set, then the
   * Mellanox fragment for `ovrs` or the AVRS download fragment for `avrs`, then the Nuage
   * packages fragment, and nothing else.
   */
  lemma PatchFragments(config: Config, rpmQuery: string)
    requires Patch(config, rpmQuery).outcome.Ok?
    ensures Check(config, rpmQuery).Ok?
    ensures Written(Patch(config, rpmQuery).steps) ==
      (if Truthy(Get(config, KernelHF)) then [AppendFor(KernelSection, Get(config, KernelRepoNames))] else []) +
      (if Check(config, rpmQuery).value == Ovrs then [AppendFor(MellanoxSection, Get(config, MellanoxRepoNames))] else []) +
      (if Check(config, rpmQuery).value == Avrs then [AppendFor(AvrsSection, Get(config, AVRSRepoNames))] else []) +
      [AppendFor(NuageSection, Get(config, VRSRepoNames))]
  {
    PatchOkSteps(config, rpmQuery);
    PhaseWrites(config, rpmQuery);
    PrologueShape(config);
    var tail := if Credentials(config) then [Unsubscribe([])] else [];
    WrittenNone(tail);
    WrittenPhases(Prologue(config), KernelWrite(config).value, MellanoxWrite(config).value,
                  AvrsWrite(config).value, NuageWrite(config).value, tail);
  }

  lemma WrittenPhases(p: seq<Step>, a: seq<Step>, b: seq<Step>, c: seq<Step>, d: seq<Step>, tail: seq<Step>)
    requires Written(p) == [] && Written(tail) == []
    ensures Written(p + a + b + c + d + tail) == Written(a) + Written(b) + Written(c) + Written(d)
  {
    var wa, wb, wc, wd := Written(a), Written(b), Written(c), Written(d);
    WrittenAppend(p, a);
    assert Written(p + a) == wa;
    WrittenAppend(p + a, b);
    assert Written(p + a + b) == wa + wb;
    WrittenAppend(p + a + b, c);
    assert Written(p + a + b + c) == wa + wb + wc;
    WrittenAppend(p + a + b + c, d);
    assert Written(p + a + b + c + d) == wa + wb + wc + wd;
    WrittenAppend(p + a + b + c + d, tail);
  }

  lemma PhaseWrites(config: Config, rpmQuery: string)
    requires Check(config, rpmQuery).Ok?
    requires KernelWrite(config).Ok? && MellanoxWrite(config).Ok? && AvrsWrite(config).Ok? && NuageWrite(config).Ok?
    ensures Written(KernelWrite(config).value) ==
      if Truthy(Get(config, KernelHF)) then [AppendFor(KernelSection, Get(config, KernelRepoNames))] else []
    ensures Written(MellanoxWrite(config).value) ==
      if Check(config, rpmQuery).value == Ovrs then [AppendFor(MellanoxSection, Get(config, MellanoxRepoNames))] else []
    ensures Written(AvrsWrite(config).value) ==
      if Check(config, rpmQuery).value == Avrs then [AppendFor(AvrsSection, Get(config, AVRSRepoNames))] else []
    ensures Written(NuageWrite(config).value) == [AppendFor(NuageSection, Get(config, VRSRepoNames))]
  {
    CheckedDeployment(config, rpmQuery);
    if Truthy(Get(config, KernelHF)) {
      FragmentWriteOne(KernelSection, Get(config, KernelRepoNames));
    }
    if Check(config, rpmQuery).value == Ovrs {
      FragmentWriteOne(MellanoxSection, Get(config, MellanoxRepoNames));
    }
    if Check(config, rpmQuery).value == Avrs {
      FragmentWriteOne(AvrsSection, Get(config, AVRSRepoNames));
    }
    FragmentWriteOne(NuageSection, Get(config, VRSRepoNames));
  }

  /** Only appends follow the prologue in a run that has not finished. */
  predicate Extends(r: Run, base: seq<Step>) {
    |r.steps| >= |base| && r.steps[..|base|] == base &&
    forall i :: |base| <= i < |r.steps| ==> r.steps[i].Append?
  }

  lemma ExtendsStep(r: Run, base: seq<Step>, w: Result<seq<Step>, PyError>)
    requires Extends(r, base)
    requires w.Ok? ==> forall i :: 0 <= i < |w.value| ==> w.value[i].Append?
    ensures Extends(AndThen(r, w), base)
  {
    if r.outcome.Ok? && w.Ok? {
      var q := AndThen(r, w);
      assert q.steps[..|base|] == r.steps[..|base|];
      forall i | |base| <= i < |q.steps| ensures q.steps[i].Append? {
        if i >= |r.steps| {
          assert q.steps[i] == w.value[i - |r.steps|];
        }
      }
    }
  }

  lemma FragmentsExtend(config: Config)
    ensures Extends(Fragments(config), Prologue(config))
  {
    var r0 := Run(Prologue(config), Ok(()));
    assert r0.steps[..|Prologue(config)|] == Prologue(config);
    var r1 := AndThen(r0, KernelWrite(config));
    ExtendsStep(r0, Prologue(config), KernelWrite(config));
    var r2 := AndThen(r1, MellanoxWrite(config));
    ExtendsStep(r1, Prologue(config), MellanoxWrite(config));
    var r3 := AndThen(r2, AvrsWrite(config));
    ExtendsStep(r2, Prologue(config), AvrsWrite(config));
    ExtendsStep(r3, Prologue(config), NuageWrite(config));
  }

  /** The steps of a run that got past the check: the prologue, appends, and at most an unsubscribe. */
  lemma PatchSteps(config: Config, rpmQuery: string)
    requires Check(config, rpmQuery).Ok?
    ensures forall s :: s in Patch(config, rpmQuery).steps ==>
      s in Prologue(config) || s.Append? || s == Unsubscribe([])
    ensures Patch(config, rpmQuery).steps[..|Prologue(config)|] == Prologue(config)
  {
    FragmentsExtend(config);
    var f := Fragments(config);
    var steps := Patch(config, rpmQuery).steps;
    var tail := if Credentials(config) && f.outcome.Ok? then [Unsubscribe([])] else [];
    assert steps == f.steps + tail;
    assert steps[..|Prologue(config)|] == f.steps[..|Prologue(config)|];
    forall s | s in steps ensures s in Prologue(config) || s.Append? || s == Unsubscribe([]) {
      var i :| 0 <= i < |steps| && steps[i] == s;
      if i < |Prologue(config)| {
        assert f.steps[..|Prologue(config)|][i] == s;
      } else if i < |f.steps| {
        assert f.steps[i] == s;
      }
    }
  }

  /**
   * The run subscribes only with all three credentials and passes the proxy only when
   * both proxy keys are set; neither `virt-customize` nor `virt-sysprep` is ever called.
   */
  lemma PatchSubscription(config: Config, rpmQuery: string)
    ensures forall s :: s in Patch(config, rpmQuery).steps && s.Subscribe? ==>
      Credentials(config) && (|s.args| == 5 <==> Proxy(config))
    ensures Check(config, rpmQuery).Ok? && Credentials(config) ==>
      exists s :: s in Patch(config, rpmQuery).steps && s.Subscribe?
    ensures forall s :: s in Patch(config, rpmQuery).steps ==> !s.VirtCustomize? && !s.Sysprep?
  {
    if Check(config, rpmQuery).Ok? {
      PrologueShape(config);
      PatchSteps(config, rpmQuery);
      if Credentials(config) {
        var steps := Patch(config, rpmQuery).steps;
        var k :| 0 <= k < |Prologue(config)| && Prologue(config)[k] == Subscription(config)[0];
        assert steps[k] == steps[..|Prologue(config)|][k];
      }
    }
  }

  /** A successful run ends by unsubscribing exactly when it subscribed. */
  lemma PatchUnsubscribes(config: Config, rpmQuery: string)
    requires Patch(config, rpmQuery).outcome.Ok?
    ensures Credentials(config) <==>
      Patch(config, rpmQuery).steps[|Patch(config, rpmQuery).steps| - 1] == Unsubscribe([])
  {
    PatchOkSteps(config, rpmQuery);
    var steps := Patch(config, rpmQuery).steps;
    if !Credentials(config) {
      assert NuageWrite(config).value[0].Append?;
      assert steps[|steps| - 1] == NuageWrite(config).value[0];
    }
  }
}
