/**
 * The full overcloud image patcher (`nuage_image_patching_scripts/nuage_overcloud_full_patch.py`):
 * the Red Hat subscription type it derives from the configuration and keeps in the
 * module-level `rhel_subs_type`, its configuration check, and the calls `image_patching`
 * makes, ending with `virt-customize` and the machine-id reset.
 */
module OvercloudFullPatch {
  import opened Wrappers
  import opened Strs
  import opened NuageConfig

  // ---------------------------------------------------- subscription type

  const SatelliteKeys := [RhelSatUrl, RhelSatOrg, RhelSatActKey]
  const PortalKeys := [RhelPassword, RhelUserName, RhelPool]

  /** `all(nuage_config.get(key) for key in keys)`. */
  predicate AllSet(config: Config, keys: seq<Key>) {
    forall i :: 0 <= i < |keys| ==> Truthy(Get(config, keys[i]))
  }

  /** `all(not nuage_config.get(key) for key in keys)`. */
  predicate NoneSet(config: Config, keys: seq<Key>) {
    forall i :: 0 <= i < |keys| ==> !Truthy(Get(config, keys[i]))
  }

  /** `check_rhel_subscription_type`: satellite wins over portal; a partial set exits. */
  function SubscriptionType(config: Config): Result<string, Stop> {
    if AllSet(config, SatelliteKeys) then Ok(RhelSubSatellite)
    else if AllSet(config, PortalKeys) then Ok(RhelSubPortal)
    else if NoneSet(config, PortalKeys + SatelliteKeys) then Ok(RhelSubDisabled)
    else Err(Exit(IncompleteSubscription))
  }

  predicate SatelliteSet(config: Config) {
    Truthy(Get(config, RhelSatUrl)) && Truthy(Get(config, RhelSatOrg)) && Truthy(Get(config, RhelSatActKey))
  }

  predicate PortalSet(config: Config) {
    Truthy(Get(config, RhelUserName)) && Truthy(Get(config, RhelPassword)) && Truthy(Get(config, RhelPool))
  }

  predicate NoSubscriptionKeys(config: Config) {
    !Truthy(Get(config, RhelUserName)) && !Truthy(Get(config, RhelPassword)) && !Truthy(Get(config, RhelPool)) &&
    !Truthy(Get(config, RhelSatUrl)) && !Truthy(Get(config, RhelSatOrg)) && !Truthy(Get(config, RhelSatActKey))
  }

  /**
   * The type is `satellite` with all three satellite keys, else `portal` with all three
   * portal keys, else `disabled` when none of the six is set; any other mix exits.
   */
  lemma SubscriptionTypeSpec(config: Config)
    ensures SubscriptionType(config) == Ok(RhelSubSatellite) <==> SatelliteSet(config)
    ensures SubscriptionType(config) == Ok(RhelSubPortal) <==> !SatelliteSet(config) && PortalSet(config)
    ensures SubscriptionType(config) == Ok(RhelSubDisabled) <==> NoSubscriptionKeys(config)
    ensures SubscriptionType(config).Err? <==>
      !SatelliteSet(config) && !PortalSet(config) && !NoSubscriptionKeys(config)
    ensures SubscriptionType(config).Err? ==> SubscriptionType(config).error == Exit(IncompleteSubscription)
  {
    AllSetThree(config, RhelSatUrl, RhelSatOrg, RhelSatActKey);
    AllSetThree(config, RhelPassword, RhelUserName, RhelPool);
    NoneSetSix(config, PortalKeys + SatelliteKeys);
  }

  lemma AllSetThree(config: Config, a: Key, b: Key, c: Key)
    ensures AllSet(config, [a, b, c]) <==>
      Truthy(Get(config, a)) && Truthy(Get(config, b)) && Truthy(Get(config, c))
  {
    if Truthy(Get(config, a)) && Truthy(Get(config, b)) && Truthy(Get(config, c)) {
      forall i | 0 <= i < 3 ensures Truthy(Get(config, [a, b, c][i])) {
        if i == 0 {} else if i == 1 {} else {}
      }
    } else {
      assert !Truthy(Get(config, [a, b, c][0])) || !Truthy(Get(config, [a, b, c][1])) || !Truthy(Get(config, [a, b, c][2]));
    }
  }

  lemma NoneSetSix(config: Config, keys: seq<Key>)
    requires keys == PortalKeys + SatelliteKeys
    ensures NoneSet(config, keys) <==> NoSubscriptionKeys(config)
  {
    assert keys == [RhelPassword, RhelUserName, RhelPool, RhelSatUrl, RhelSatOrg, RhelSatActKey];
    if NoSubscriptionKeys(config) {
      forall i | 0 <= i < 6 ensures !Truthy(Get(config, keys[i])) {
        if i == 0 {} else if i == 1 {} else if i == 2 {} else if i == 3 {} else if i == 4 {} else {}
      }
    } else {
      assert exists i :: 0 <= i < 6 && Truthy(Get(config, keys[i])) by {
        if Truthy(Get(config, keys[0])) {} else if Truthy(Get(config, keys[1])) {}
        else if Truthy(Get(config, keys[2])) {} else if Truthy(Get(config, keys[3])) {}
        else if Truthy(Get(config, keys[4])) {} else { assert Truthy(Get(config, keys[5])); }
      }
    }
  }

  /** The types under which the run subscribes and unsubscribes. */
  predicate Subscribed(subsType: string) {
    subsType == RhelSubPortal || subsType == RhelSubSatellite
  }

  // ---------------------------------------------------------------- check

  /**
   * `check_config`, up to the helpers it calls: libguestfs first, then the subscription
   * type, the image, and the repo file unless the subscription is through a satellite.
   */
  function Check(config: Config, rpmQuery: string): Result<string, Stop> {
    if LibguestfsMissing(rpmQuery) then Err(Exit(MissingLibguestfs))
    else match SubscriptionType(config)
      case Err(stop) => Err(stop)
      case Ok(subsType) =>
        if !Truthy(Get(config, ImageName)) then Err(Exit(MissingConfig([ImageName])))
        else if !Truthy(Get(config, RepoFile)) && subsType != RhelSubSatellite then Err(Exit(MissingConfig([RepoFile])))
        else Ok(subsType)
  }

  /** `rhel_subs_type` after `check_config`: set once the libguestfs check and the type's own check pass. */
  function TypeAfterCheck(before: string, config: Config, rpmQuery: string): string {
    if LibguestfsMissing(rpmQuery) then before
    else match SubscriptionType(config)
      case Err(_) => before
      case Ok(subsType) => subsType
  }

  /** Which configurations the check accepts; the type it accepts with is the one it stored. */
  lemma CheckAccepts(config: Config, rpmQuery: string, before: string)
    ensures Check(config, rpmQuery).Ok? <==>
      !LibguestfsMissing(rpmQuery) && SubscriptionType(config).Ok? && Truthy(Get(config, ImageName)) &&
      (Truthy(Get(config, RepoFile)) || SatelliteSet(config))
    ensures Check(config, rpmQuery).Ok? ==>
      Check(config, rpmQuery).value == SubscriptionType(config).value == TypeAfterCheck(before, config, rpmQuery)
  {
    SubscriptionTypeSpec(config);
  }

  // -------------------------------------------------------- image patching

  /** `importing_gpgkeys(nuage_config["ImageName"], ...)` when a key is configured. */
  function GpgKeys(config: Config): Result<seq<Step>, PyError> {
    if !Truthy(Get(config, RpmPublicKey)) then Ok([])
    else match Subscript(config, ImageName)
      case Err(e) => Err(e)
      case Ok(image) => Ok([ImportGpgKeys(image, Get(config, RpmPublicKey))])
  }

  /** `rhel_subscription(...)` with its nine keyword arguments, in the order written. */
  function SubscribeCall(config: Config, subsType: string): seq<Step> {
    if !Subscribed(subsType) then []
    else [Subscribe([Get(config, RhelUserName), Get(config, RhelPassword), Get(config, RhelPool),
                     Get(config, RhelSatUrl), Get(config, RhelSatOrg), Get(config, RhelSatActKey),
                     Get(config, ProxyHostname), Get(config, ProxyPort), Str(subsType)])]
  }

  function RepoCopy(config: Config): Result<seq<Step>, PyError> {
    if !Truthy(Get(config, RepoFile)) then Ok([])
    else match Subscript(config, ImageName)
      case Err(e) => Err(e)
      case Ok(image) => Ok([CopyRepoFile(image, Get(config, RepoFile))])
  }

  /** The decorated `install_nuage_packages` writes its fragment and then a newline. */
  const NuageInstall := [Append(NuageSection, []), AppendText("\n")]

  function UnsubscribeCall(subsType: string): seq<Step> {
    if Subscribed(subsType) then [Unsubscribe([Str(subsType)])] else []
  }

  function Customize(config: Config): Result<seq<Step>, PyError> {
    match Subscript(config, ImageName)
    case Err(e) => Err(e)
    case Ok(image) => Ok([VirtCustomize(image), Sysprep(image)])
  }

  /** `image_patching` under the stored subscription type: its calls and how it ends. */
  function Patch(config: Config, subsType: string): Run {
    var r1 := AndThen(Run([StartScript], Ok(())), GpgKeys(config));
    var r2 := AndThen(r1, Ok(SubscribeCall(config, subsType) + [InstallPythonOvs, UninstallPackages]));
    var r3 := AndThen(r2, RepoCopy(config));
    var r4 := AndThen(r3, Ok(NuageInstall + UnsubscribeCall(subsType)));
    AndThen(r4, Customize(config))
  }

  /** `main` after parsing: the log handler, `check_config`, then `image_patching`. */
  function Script(config: Config, rpmQuery: string): Run {
    match Check(config, rpmQuery)
    case Err(stop) => Run(LogHandler(config), Err(stop))
    case Ok(subsType) =>
      var p := Patch(config, subsType);
      Run(LogHandler(config) + p.steps, p.outcome)
  }

  /** The calls up to the Nuage packages fragment, of a run on a configuration that names its image. */
  function Opening(config: Config, subsType: string): seq<Step>
    requires ImageName in config
  {
    var image := config[ImageName];
    [StartScript] +
    (if Truthy(Get(config, RpmPublicKey)) then [ImportGpgKeys(image, Get(config, RpmPublicKey))] else []) +
    SubscribeCall(config, subsType) + [InstallPythonOvs, UninstallPackages] +
    (if Truthy(Get(config, RepoFile)) then [CopyRepoFile(image, Get(config, RepoFile))] else [])
  }

  /** The calls after the fragment. */
  function Closing(config: Config, subsType: string): seq<Step>
    requires ImageName in config
  {
    UnsubscribeCall(subsType) +
    [VirtCustomize(config[ImageName]), Sysprep(config[ImageName])]
  }

  /** The calls of a run on a configuration that names its image. */
  function Completed(config: Config, subsType: string): seq<Step>
    requires ImageName in config
  {
    Opening(config, subsType) + NuageInstall + Closing(config, subsType)
  }

  /** With the image named, `image_patching` makes every call and ends normally. */
  lemma PatchCompletes(config: Config, subsType: string)
    requires ImageName in config
    ensures Patch(config, subsType) == Run(Completed(config, subsType), Ok(()))
  {
    var image := config[ImageName];
    var keys := if Truthy(Get(config, RpmPublicKey)) then [ImportGpgKeys(image, Get(config, RpmPublicKey))] else [];
    var copy := if Truthy(Get(config, RepoFile)) then [CopyRepoFile(image, Get(config, RepoFile))] else [];
    var virt := [VirtCustomize(image), Sysprep(image)];
    assert GpgKeys(config) == Ok(keys);
    assert RepoCopy(config) == Ok(copy);
    assert Customize(config) == Ok(virt);
    var sub, unsub := SubscribeCall(config, subsType), UnsubscribeCall(subsType);
    assert Opening(config, subsType) == [StartScript] + keys + sub + [InstallPythonOvs, UninstallPackages] + copy;
    assert Closing(config, subsType) == unsub + virt;
    Regroup([StartScript] + keys, sub, [InstallPythonOvs, UninstallPackages], copy, NuageInstall, unsub, virt);
  }

  /** Moving the brackets of a concatenation of the run's pieces. */
  lemma Regroup(a: seq<Step>, b: seq<Step>, c: seq<Step>, d: seq<Step>, e: seq<Step>, f: seq<Step>, g: seq<Step>)
    ensures a + (b + c) + d + (e + f) + g == (a + b + c + d) + e + (f + g)
  {
  }

  /** Without an image key, `image_patching` raises KeyError at its first use of the image. */
  lemma PatchWithoutImage(config: Config, subsType: string)
    requires ImageName !in config
    ensures Patch(config, subsType).outcome == Err(Raise(KeyError(ImageName)))
    ensures forall s :: s in Patch(config, subsType).steps ==> !s.VirtCustomize? && !s.Sysprep? && !s.CopyRepoFile?
  {
  }

  /** The patching script of a completed run: the Nuage packages fragment and a newline. */
  lemma CompletedWritten(config: Config, subsType: string)
    requires ImageName in config
    ensures Written(Completed(config, subsType)) == NuageInstall
  {
    WrittenNone(Opening(config, subsType));
    WrittenNone(Closing(config, subsType));
    NuageInstallWritten();
    WrittenBetween(Opening(config, subsType), NuageInstall, Closing(config, subsType));
  }

  lemma NuageInstallWritten()
    ensures Written(NuageInstall) == NuageInstall
  {
    assert NuageInstall[..1] == [Append(NuageSection, [])];
    assert NuageInstall[..1][..0] == [];
  }

  lemma WrittenBetween(a: seq<Step>, b: seq<Step>, c: seq<Step>)
    requires Written(a) == [] && Written(c) == []
    ensures Written(a + b + c) == Written(b)
  {
    WrittenAppend(a + b, c);
    WrittenAppend(a, b);
  }

  /** A configuration the check rejects gets only the log handler. */
  lemma ScriptRejected(config: Config, rpmQuery: string)
    requires Check(config, rpmQuery).Err?
    ensures Script(config, rpmQuery) == Run(LogHandler(config), Err(Check(config, rpmQuery).error))
  {
  }

  /** After a successful check the run completes. */
  lemma ScriptAccepted(config: Config, rpmQuery: string)
    requires Check(config, rpmQuery).Ok?
    ensures Script(config, rpmQuery) ==
      Run(LogHandler(config) + Completed(config, Check(config, rpmQuery).value), Ok(()))
  {
    PatchCompletes(config, Check(config, rpmQuery).value);
  }

  /** Under the `portal` and `satellite` types the run subscribes and later unsubscribes with the type. */
  lemma CompletedSubscribes(config: Config, subsType: string)
    requires ImageName in config && Subscribed(subsType)
    ensures SubscribeCall(config, subsType)[0] in Completed(config, subsType)
    ensures SubscribeCall(config, subsType)[0].Subscribe?
    ensures Unsubscribe([Str(subsType)]) in Completed(config, subsType)
  {
    assert SubscribeCall(config, subsType)[0] in Opening(config, subsType);
    assert Unsubscribe([Str(subsType)]) in Closing(config, subsType);
  }

  /** Every subscription of the run happens under those types, with the type as its last argument. */
  lemma CompletedSubscribeArgs(config: Config, subsType: string)
    requires ImageName in config
    ensures forall s :: s in Completed(config, subsType) && s.Subscribe? ==>
      Subscribed(subsType) && |s.args| == 9 && s.args[8] == Str(subsType)
  {
    forall s | s in Completed(config, subsType) && s.Subscribe?
      ensures Subscribed(subsType) && |s.args| == 9 && s.args[8] == Str(subsType)
    {
      InCompleted(config, subsType, s);
    }
  }

  /** Where a call of a completed run comes from. */
  lemma InCompleted(config: Config, subsType: string, s: Step)
    requires ImageName in config && s in Completed(config, subsType)
    ensures s in SubscribeCall(config, subsType) || s in UnsubscribeCall(subsType) ||
      s == StartScript || s.ImportGpgKeys? || s == InstallPythonOvs || s == UninstallPackages ||
      s.CopyRepoFile? || s in NuageInstall || s.VirtCustomize? || s.Sysprep?
  {
    var image := config[ImageName];
    var keys := if Truthy(Get(config, RpmPublicKey)) then [ImportGpgKeys(image, Get(config, RpmPublicKey))] else [];
    var copy := if Truthy(Get(config, RepoFile)) then [CopyRepoFile(image, Get(config, RepoFile))] else [];
    var virt := [VirtCustomize(image), Sysprep(image)];
    var sub, unsub := SubscribeCall(config, subsType), UnsubscribeCall(subsType);
    assert Opening(config, subsType) == [StartScript] + keys + sub + [InstallPythonOvs, UninstallPackages] + copy;
    assert Closing(config, subsType) == unsub + virt;
    assert s in [StartScript] || s in keys || s in sub || s in [InstallPythonOvs, UninstallPackages] ||
      s in copy || s in NuageInstall || s in unsub || s in virt;
  }

  /** Every unsubscription of the run happens under those types, with the type. */
  lemma CompletedUnsubscribes(config: Config, subsType: string)
    requires ImageName in config
    ensures forall s :: s in Completed(config, subsType) && s.Unsubscribe? ==>
      Subscribed(subsType) && s == Unsubscribe([Str(subsType)])
  {
    forall s | s in Completed(config, subsType) && s.Unsubscribe?
      ensures Subscribed(subsType) && s == Unsubscribe([Str(subsType)])
    {
      InCompleted(config, subsType, s);
    }
  }

  /** The repo file is copied exactly when one is configured. */
  lemma CompletedCopiesRepo(config: Config, subsType: string)
    requires ImageName in config
    ensures (exists s :: s in Completed(config, subsType) && s.CopyRepoFile?) <==> Truthy(Get(config, RepoFile))
  {
    if Truthy(Get(config, RepoFile)) {
      assert CopyRepoFile(config[ImageName], Get(config, RepoFile)) in Completed(config, subsType);
    }
  }

  /**
   * A satellite subscription needs no repo file: such a configuration passes the check,
   * subscribes, and copies no repo file.
   */
  lemma SatelliteWithoutRepoFile(config: Config, rpmQuery: string)
    requires !LibguestfsMissing(rpmQuery) && SatelliteSet(config) && Truthy(Get(config, ImageName))
    requires !Truthy(Get(config, RepoFile))
    ensures Check(config, rpmQuery) == Ok(RhelSubSatellite)
    ensures ImageName in config
    ensures forall s :: s in Completed(config, RhelSubSatellite) ==> !s.CopyRepoFile?
    ensures exists s :: s in Completed(config, RhelSubSatellite) && s.Subscribe?
  {
    SubscriptionTypeSpec(config);
    CompletedCopiesRepo(config, RhelSubSatellite);
    CompletedSubscribes(config, RhelSubSatellite);
  }

  // ----------------------------------------------------------- the script

  /** The decorated fragment: the Nuage packages, then `yum clean all`. */
  function Fragment(section: Section): string {
    match section
    case NuageSection =>
      Text(["", NuageHeader, YumInstall(NuageDependencies), YumInstall(NuageVrsPackage),
            YumInstall(NuagePackages), "yum clean all"])
    case _ => ""
  }

  function StepText(step: Step): string {
    match step
    case Append(section, _) => Fragment(section)
    case AppendText(text) => text
    case _ => ""
  }

  /** The generated `patching_script.sh`: the text of every append of the run, in order. */
  function ScriptText(steps: seq<Step>): string {
    if steps == [] then "" else ScriptText(steps[..|steps| - 1]) + StepText(steps[|steps| - 1])
  }

  lemma ScriptTextSnoc(steps: seq<Step>, step: Step)
    ensures ScriptText(steps + [step]) == ScriptText(steps) + StepText(step)
  {
    assert (steps + [step])[..|steps|] == steps;
  }

  lemma {:induction false} ScriptTextWritten(steps: seq<Step>)
    ensures ScriptText(steps) == ScriptText(Written(steps))
  {
    if steps != [] {
      var init, last := steps[..|steps| - 1], steps[|steps| - 1];
      ScriptTextWritten(init);
      if Writes(last) {
        assert Written(steps) == Written(init) + [last];
        ScriptTextSnoc(Written(init), last);
      } else {
        assert Written(steps) == Written(init);
      }
    }
  }

  /** Every accepted run writes the Nuage packages fragment followed by a newline, and nothing else. */
  lemma ScriptOfAccepted(config: Config, rpmQuery: string)
    requires Check(config, rpmQuery).Ok?
    ensures ScriptText(Script(config, rpmQuery).steps) == Fragment(NuageSection) + "\n"
  {
    ScriptAccepted(config, rpmQuery);
    ScriptOfCompleted(config, Check(config, rpmQuery).value);
  }

  lemma ScriptOfCompleted(config: Config, subsType: string)
    requires ImageName in config
    ensures ScriptText(LogHandler(config) + Completed(config, subsType)) == Fragment(NuageSection) + "\n"
  {
    var done := Completed(config, subsType);
    CompletedWritten(config, subsType);
    WrittenNone(LogHandler(config));
    WrittenAppend(LogHandler(config), done);
    ScriptTextWritten(LogHandler(config) + done);
    NuageInstallScript();
  }

  lemma NuageInstallScript()
    ensures ScriptText(NuageInstall) == Fragment(NuageSection) + "\n"
  {
    ScriptTextSnoc([Append(NuageSection, [])], AppendText("\n"));
    ScriptTextSnoc([], Append(NuageSection, []));
    assert [Append(NuageSection, [])] + [AppendText("\n")] == NuageInstall;
  }

  // ------------------------------------------------------------- the phases

  method ImportKeys(session: Session, config: Config) returns (r: Result<(), PyError>)
    modifies session
    ensures Applied(old(session.steps), session.steps, GpgKeys(config), r)
  {
    r := Ok(());
    if Truthy(Get(config, RpmPublicKey)) {
      if ImageName !in config {
        return Err(KeyError(ImageName));
      }
      session.Perform(ImportGpgKeys(config[ImageName], Get(config, RpmPublicKey)));
    }
  }

  method SubscribeAndUninstall(session: Session, config: Config, subsType: string)
    modifies session
    ensures session.steps == old(session.steps) + (SubscribeCall(config, subsType) + [InstallPythonOvs, UninstallPackages])
  {
    if Subscribed(subsType) {
      session.Perform(SubscribeCall(config, subsType)[0]);
    }
    session.Perform(InstallPythonOvs);
    session.Perform(UninstallPackages);
  }

  method CopyRepo(session: Session, config: Config) returns (r: Result<(), PyError>)
    modifies session
    ensures Applied(old(session.steps), session.steps, RepoCopy(config), r)
  {
    r := Ok(());
    if Truthy(Get(config, RepoFile)) {
      if ImageName !in config {
        return Err(KeyError(ImageName));
      }
      session.Perform(CopyRepoFile(config[ImageName], Get(config, RepoFile)));
    }
  }

  /** The decorated `install_nuage_packages`, then `rhel_remove_subscription` when subscribed. */
  method InstallNuagePackages(session: Session, subsType: string)
    modifies session
    ensures session.steps == old(session.steps) + (NuageInstall + UnsubscribeCall(subsType))
  {
    session.Perform(Append(NuageSection, []));
    session.Perform(AppendText("\n"));
    if Subscribed(subsType) {
      session.Perform(Unsubscribe([Str(subsType)]));
    }
  }

  /** `virt_customize_run` on the image, then the `virt-sysprep` machine-id reset. */
  method RunPatchingScript(session: Session, config: Config) returns (r: Result<(), PyError>)
    modifies session
    ensures Applied(old(session.steps), session.steps, Customize(config), r)
  {
    if ImageName !in config {
      return Err(KeyError(ImageName));
    }
    var image := config[ImageName];
    session.Perform(VirtCustomize(image));
    session.Perform(Sysprep(image));
    r := Ok(());
  }

  // ------------------------------------------------------------- the patcher

  /** The patcher's module state: `rhel_subs_type`, set by the check and read by the patching. */
  class Patcher {
    var rhelSubsType: string

    constructor ()
      ensures rhelSubsType == ""
    {
      rhelSubsType := "";
    }

    method CheckConfig(config: Config, rpmQuery: string) returns (r: Result<(), Stop>)
      modifies this
      ensures rhelSubsType == TypeAfterCheck(old(rhelSubsType), config, rpmQuery)
      ensures r.Ok? <==> Check(config, rpmQuery).Ok?
      ensures r.Err? ==> r.error == Check(config, rpmQuery).error
    {
      if LibguestfsMissing(rpmQuery) {
        return Err(Exit(MissingLibguestfs));
      }
      var subsType := SubscriptionType(config);
      if subsType.Err? {
        return Err(subsType.error);
      }
      rhelSubsType := subsType.value;
      if !Truthy(Get(config, ImageName)) {
        return Err(Exit(MissingConfig([ImageName])));
      }
      if !Truthy(Get(config, RepoFile)) && rhelSubsType != RhelSubSatellite {
        return Err(Exit(MissingConfig([RepoFile])));
      }
      r := Ok(());
    }

    method ImagePatching(session: Session, config: Config) returns (outcome: Result<(), Stop>)
      modifies session
      ensures session.steps == old(session.steps) + Patch(config, rhelSubsType).steps
      ensures outcome == Patch(config, rhelSubsType).outcome
    {
      var subsType := rhelSubsType;
      ghost var start := session.steps;
      session.Perform(StartScript);
      ghost var run := Run([StartScript], Ok(()));

      ghost var before := session.steps;
      var w := ImportKeys(session, config);
      AppliedStep(start, run, before, session.steps, GpgKeys(config), w);
      run := AndThen(run, GpgKeys(config));
      if w.Err? {
        return Err(Raise(w.error));
      }

      before := session.steps;
      SubscribeAndUninstall(session, config, subsType);
      AppliedStep(start, run, before, session.steps, Ok(SubscribeCall(config, subsType) + [InstallPythonOvs, UninstallPackages]), Ok(()));
      run := AndThen(run, Ok(SubscribeCall(config, subsType) + [InstallPythonOvs, UninstallPackages]));

      before := session.steps;
      w := CopyRepo(session, config);
      AppliedStep(start, run, before, session.steps, RepoCopy(config), w);
      run := AndThen(run, RepoCopy(config));
      if w.Err? {
        return Err(Raise(w.error));
      }

      before := session.steps;
      InstallNuagePackages(session, subsType);
      AppliedStep(start, run, before, session.steps, Ok(NuageInstall + UnsubscribeCall(subsType)), Ok(()));
      run := AndThen(run, Ok(NuageInstall + UnsubscribeCall(subsType)));

      before := session.steps;
      w := RunPatchingScript(session, config);
      AppliedStep(start, run, before, session.steps, Customize(config), w);
      run := AndThen(run, Customize(config));
      assert run == Patch(config, subsType);
      if w.Err? {
        return Err(Raise(w.error));
      }
      outcome := Ok(());
    }

    /** `main` once the configuration is parsed. */
    method RunScript(session: Session, config: Config, rpmQuery: string) returns (outcome: Result<(), Stop>)
      modifies this, session
      ensures session.steps == old(session.steps) + Script(config, rpmQuery).steps
      ensures outcome == Script(config, rpmQuery).outcome
      ensures rhelSubsType == TypeAfterCheck(old(rhelSubsType), config, rpmQuery)
    {
      if Truthy(Get(config, LogFileName)) {
        session.Perform(AddLogHandler(Get(config, LogFileName)));
      }
      var checked := CheckConfig(config, rpmQuery);
      if checked.Err? {
        return checked;
      }
      CheckAccepts(config, rpmQuery, old(rhelSubsType));
      outcome := ImagePatching(session, config);
    }
  }
}
