# Verified model of the Nuage/TripleO deployment helpers

This project models in Dafny the decision logic of five scripts in the repository and proves
properties of that model. The scripts themselves are shell-command orchestration.

- `openstack-tripleo-heat-templates/common/container-puppet.py` does three things:
  - It compiles the JSON list of service descriptions into one puppet job per config volume
    (`PuppetJobs`).
  - It runs one container per job with pull and run retries, and reports overall success
    (`PuppetRun`).
  - It stamps every startup-config file with the hash of the config bases its volumes belong
    to (`ConfigHash`, on top of `PosixPath`, a model of `posixpath.dirname`/`basename`/`join`).
    Its `bound` parameter says whether the module-level `config_volume` is bound by the earlier
    loops (`PuppetJobs.ConfigVolumeBound`); the debug message for a non-empty hash needs it.
- Three image patchers build a shell script fragment by fragment and then run it in the
  overcloud image:
  - `image-patching/nuage_image_patching_scripts/nuage_overcloud_full_patch.py`
    (`OvercloudFullPatch`);
  - the 5.0 stopgap patcher `image-patching/stopgap-script/utils/nuage_patching_5_0.py`
    (`Patching50`);
  - the 6.0 stopgap patcher `image-patching/stopgap-script/utils/nuage_patching_6_0.py`
    (`Patching60`).

  What they share is in `NuageConfig`:
  - the YAML configuration as a map from keys to Python values, with `.get`, `[]`, truthiness
    and `in`;
  - the missing-key loop and the DeploymentType rules;
  - the common prologue of subscription, uninstall and repo copy;
  - a `Session` object that records every external step of a run in order.
- `tripleo-heat-templates-diff/apply_patch.py` picks one of four diffs from four version
  comparisons and builds the `patch` command (`ApplyPatch`).

`Wrappers` (Option/Result) and `Strs` (Python's `startswith`, `in`, `split`, `join`,
`replace`, `rstrip` and `sorted` on strings) are helpers.

## How the model is built

**Inputs.** Everything the scripts read from outside is a parameter:
- environment variables;
- subprocess exit codes, given per attempt;
- the output of `rpm -q libguestfs-tools-c`;
- the unique container name, the temp manifest path and the `hostname -s` output;
- the `.md5sum` sidecars, as a map from path to content;
- the parsed JSON and YAML documents.

**Side effects.** Script-level side effects are recorded, not performed:
- A patcher's run is a trace of `Step`s in a `Session`. `write_to_file` calls are `Append`
  steps, and the script text they produce is computed from the trace by `ScriptText`.
- A virt-customize or virt-sysprep step records the image it works on. Its command text is a
  function of that image (`NuageConfig.VirtCustomizeArgs`, `NuageConfig.SysprepCommand`).
- The `patch` command of `apply_patch.py` is kept as its five words, joined by single spaces
  (`ApplyPatch.PatchWords`).
- Python exceptions (`KeyError`, `TypeError`, `IndexError`, `AttributeError`, `ValueError`)
  and `sys.exit(1)` are explicit error outcomes.
- A loop that can never end is the outcome `Hangs`/`NeverReturns`.

**Form.** Loops and in-place updates in the source are methods with loops or state:
- the merge loop, `get_config_base`, the retry loops, the `common_dcmd` appends, the hash-stamp
  pass and the 5.0 `+=` repo loop are methods with loops;
- `infile_data['environment']` is updated in place on a `StartupConfig` object;
- the full patcher's global `rhel_subs_type` is a field of the `Patcher` class;
- every patcher writes to a `Session`.

Each method is proved equal to a specification function, and the properties are lemmas about
those functions.

**Behaviour worth noting.** The model follows the code, including where it does less than
one might expect:
- A merged job does not OR `privileged` and `keep_container`: the first entry's values are
  kept (`PuppetJobs.CompileFirstWins`).
- The resolved config bases are sorted but not de-duplicated (`ConfigHash.MatchKeepsDuplicates`).
- The 6.0 `image_patching` calls `update_kernel` and `install_mellanox` with an argument,
  but both are declared without one. The model does not skip these calls: they end the run
  with a `TypeError` (`Patching60.PatchKernelHF`, `Patching60.PatchOvrs`).
- The comment at the top of `apply_patch.py` says that versions up to 5.3.8-1 are handled.
  The code handles versions up to 5.3.10-1 and rejects only later ones
  (`ApplyPatch.SelectRanges`).

## Model

| member | source | states |
|---|---|---|
| PuppetJobs.NormalizeSpec | openstack-tripleo-heat-templates/common/container-puppet.py:241-264 | a positional entry shorter than four items raises; an entry is skipped exactly when it is null or its manifest or image is empty; otherwise the key, manifest, image and tags are the entry's own; a dict entry's volumes default to `[]` (a null stays null) and its flags to false; a four-item list has no volumes slot, and a list without slot 5 or 6 has false flags |
| PuppetJobs.CompileConfigs | openstack-tripleo-heat-templates/common/container-puppet.py:241-295 | the loop over the entries computes the compiled table, stopping at the first exception |
| PuppetJobs.CompileErrSticks | openstack-tripleo-heat-templates/common/container-puppet.py:241-295 | an exception raised on a prefix of the entries is the result of the whole loop |
| PuppetJobs.AddValid | openstack-tripleo-heat-templates/common/container-puppet.py:274-295 | one more entry keeps the table well formed (the key order lists exactly the stored keys, each once) |
| PuppetJobs.CompileValid | openstack-tripleo-heat-templates/common/container-puppet.py:241-295 | the compiled `configs` holds at most one job per config volume, with its keys in a duplicate-free order list |
| PuppetJobs.CompileFilter | openstack-tripleo-heat-templates/common/container-puppet.py:289-295 | with CONFIG_VOLUME set, the only key that can be stored is that volume, so at most one job results |
| PuppetJobs.CompileAdmitted | openstack-tripleo-heat-templates/common/container-puppet.py:289-295 | every stored key passes the CONFIG_VOLUME filter |
| PuppetJobs.AddAt | openstack-tripleo-heat-templates/common/container-puppet.py:274-295 | one entry leaves other keys unchanged, merges into an existing key, or stores a new one |
| PuppetJobs.AddOrder | openstack-tripleo-heat-templates/common/container-puppet.py:289-292 | a key joins the order only when it is new and admitted |
| PuppetJobs.CompileFirstWins | openstack-tripleo-heat-templates/common/container-puppet.py:274-292 | a key is stored exactly when some admitted entry contributes it; its image, privileged and keep_container come from the first such entry, and its volumes slot is missing or null exactly when the first entry's is |
| PuppetJobs.MergeErr | openstack-tripleo-heat-templates/common/container-puppet.py:277-287 | a merge raises exactly when the incoming entry has volumes and the stored volumes slot is missing or null; the images play no part, and a merge keeps the stored image and flags |
| PuppetJobs.AddMergeImage | openstack-tripleo-heat-templates/common/container-puppet.py:274-287 | an entry for a stored config volume succeeds exactly when its merge does; the stored image stays, and a differing image only appends the key to the warnings |
| PuppetJobs.AddRefused | openstack-tripleo-heat-templates/common/container-puppet.py:289-295 | a new config volume that CONFIG_VOLUME refuses leaves the table unchanged, without error |
| PuppetJobs.CompileOkIff | openstack-tripleo-heat-templates/common/container-puppet.py:241-295 | compilation succeeds exactly when no entry raises: no entry is a short positional list, and none brings volumes to a config volume whose first contribution has a missing or null volumes slot |
| PuppetJobs.CompileWarnings | openstack-tripleo-heat-templates/common/container-puppet.py:274-285 | the image warnings list, in order, each later contribution whose image differs from the first contribution's |
| PuppetJobs.FirstForRefused | openstack-tripleo-heat-templates/common/container-puppet.py:289-295 | a config volume that CONFIG_VOLUME refuses never has a stored contribution |
| PuppetJobs.CompileIgnores | openstack-tripleo-heat-templates/common/container-puppet.py:241-295 | appending a null or skipped entry, or one that CONFIG_VOLUME refuses, changes neither the outcome nor the table |
| PuppetJobs.CompileManifest | openstack-tripleo-heat-templates/common/container-puppet.py:280-282 | the stored manifest is the newline-join of every contributing manifest in arrival order |
| PuppetJobs.CompileVolumes | openstack-tripleo-heat-templates/common/container-puppet.py:286-287 | the stored volumes are the concatenation of every contributing entry's volumes in arrival order |
| PuppetJobs.CompileTags | openstack-tripleo-heat-templates/common/container-puppet.py:277-279 | the stored tags are the first entry's raw tags, followed by `,` and each later non-empty tag list, when there is one |
| PuppetJobs.MergeTags | openstack-tripleo-heat-templates/common/container-puppet.py:277-279 | a merge appends `,`+tags only for non-empty incoming tags |
| PuppetJobs.CompileNoContribution | openstack-tripleo-heat-templates/common/container-puppet.py:274-292 | a key nothing contributes has no manifests and no volumes |
| PuppetJobs.LaterTagsNone | openstack-tripleo-heat-templates/common/container-puppet.py:277-279 | a key nothing contributes has no later tags |
| PuppetJobs.CompileOrder | openstack-tripleo-heat-templates/common/container-puppet.py:241-295 | the key order is the first-seen order of the admitted keys, without repeats |
| PuppetJobs.NullTagsMerge | openstack-tripleo-heat-templates/common/container-puppet.py:277-279 | a null first tag slot merges as the text `None` (`'%s,%s'` formatting) |
| PuppetJobs.FourSlotsThenVolumes | openstack-tripleo-heat-templates/common/container-puppet.py:259-287 | a four-item positional entry followed by one with volumes for the same volume raises IndexError |
| PuppetJobs.NullThenVolumes | openstack-tripleo-heat-templates/common/container-puppet.py:250-287 | a dict entry with `volumes: null` followed by one with volumes for the same volume raises AttributeError (`None.extend`) |
| PuppetJobs.PuppetTagsSplit | openstack-tripleo-heat-templates/common/container-puppet.py:459-462 | the job tags split at `,` into file, file_line, concat, augeas, cron and then the merged tags when they are non-empty |
| PuppetJobs.BuildProcessMap | openstack-tripleo-heat-templates/common/container-puppet.py:449-465 | one task per stored config volume, in the table's key order |
| PuppetJobs.ProcessMapVolumes | openstack-tripleo-heat-templates/common/container-puppet.py:449-465 | the tasks name distinct config volumes, each of them stored |
| PuppetRun.ParseCli | openstack-tripleo-heat-templates/common/container-puppet.py:70-86 | only `docker` and `podman` are accepted as runtimes; any other name is the error exit |
| PuppetRun.ParseCliName | openstack-tripleo-heat-templates/common/container-puppet.py:70-86 | each runtime's name parses back to that runtime |
| PuppetRun.MountHostPuppetNoEffect | openstack-tripleo-heat-templates/common/container-puppet.py:88-94 | the MOUNT_HOST_PUPPET extension never changes `cli_dcmd`, which already holds the puppet modules mount |
| PuppetRun.StartupSpec | openstack-tripleo-heat-templates/common/container-puppet.py:37-94 | set-up fails exactly for an unknown runtime or podman without PATH; otherwise it has `/usr/bin/<cli>`, the runtime's `cli_dcmd`, and PATH alone as podman's environment |
| PuppetRun.RunEnv | openstack-tripleo-heat-templates/common/container-puppet.py:363-373 | podman runs with the set-up environment; docker adds the DOCKER* variables |
| PuppetRun.DockerVarsSpec | openstack-tripleo-heat-templates/common/container-puppet.py:372-373 | exactly the environment variables starting with DOCKER are copied, with their values |
| PuppetRun.RmCommandsShape | openstack-tripleo-heat-templates/common/container-puppet.py:181-218 | `rm_container` issues `rm <name>` and, under podman, `rm --storage <name>` last; it issues `diff <name>` first exactly when SHOW_DIFF is non-empty |
| PuppetRun.TmpManifest | openstack-tripleo-heat-templates/common/container-puppet.py:314-317 | the temp manifest is the packages include line followed by the job's manifest |
| PuppetRun.NonEmptyMembers | openstack-tripleo-heat-templates/common/container-puppet.py:382-384 | the volumes passed are exactly the non-empty job volumes |
| PuppetRun.ExtendVolumes | openstack-tripleo-heat-templates/common/container-puppet.py:382-384 | the loop adds `--volume v` for each non-empty volume, in order |
| PuppetRun.FrontCommand | openstack-tripleo-heat-templates/common/container-puppet.py:324-381 | the appends before the job volumes build the specified front block |
| PuppetRun.BuildRunCommand | openstack-tripleo-heat-templates/common/container-puppet.py:324-400 | the append/extend sequence builds the specified run argument list |
| PuppetRun.PairsLayout | openstack-tripleo-heat-templates/common/container-puppet.py:332-352 | flag/value lists lay the flag at even and the value at odd positions |
| PuppetRun.RunArgvEnds | openstack-tripleo-heat-templates/common/container-puppet.py:324-400 | the command starts `<cli> run --user 0 --name <uname>` and ends with the script mount and then the image |
| PuppetRun.RunArgvNet | openstack-tripleo-heat-templates/common/container-puppet.py:388-394 | NET_HOST=true gives `--net host --volume /etc/hosts:/etc/hosts:ro`; anything else gives `--net none`, right before the final script mount |
| PuppetRun.RunArgvVolumes | openstack-tripleo-heat-templates/common/container-puppet.py:382-384 | the non-empty job volumes sit right after the front block as `--volume v`, in order |
| PuppetRun.OptionFlagIn | openstack-tripleo-heat-templates/common/container-puppet.py:358-368 | an option flag occurs in the command exactly when the option block passes it |
| PuppetRun.OptionBlock | openstack-tripleo-heat-templates/common/container-puppet.py:358-368 | the option block holds `--rm` iff not keep_container, `--privileged` iff privileged, and the log flags iff podman |
| PuppetRun.RunArgvRm | openstack-tripleo-heat-templates/common/container-puppet.py:358-359 | `--rm` is in the command exactly when the container is not kept, for host and task values that do not contain the flag |
| PuppetRun.RunArgvPrivileged | openstack-tripleo-heat-templates/common/container-puppet.py:360-361 | `--privileged` is in the command exactly when the job is privileged, for host and task values that do not contain the flag |
| PuppetRun.RunArgvLogFlags | openstack-tripleo-heat-templates/common/container-puppet.py:363-368 | the k8s-file log flags are in the command exactly under podman, for host and task values that do not contain the flag |
| PuppetRun.Attempts | openstack-tripleo-heat-templates/common/container-puppet.py:404-437 | a retry loop makes at least one and at most `limit` attempts, and stops at the first accepted code |
| PuppetRun.AttemptsUnique | openstack-tripleo-heat-templates/common/container-puppet.py:404-437 | that stopping rule fixes the number of attempts |
| PuppetRun.PullImage | openstack-tripleo-heat-templates/common/container-puppet.py:106-140 | `inspect` success pulls nothing; otherwise pulls repeat until one exits 0, at most five, and the image is present exactly when the last pull succeeded |
| PuppetRun.RunContainer | openstack-tripleo-heat-templates/common/container-puppet.py:404-437 | at most three runs, stopping at the first code in {0, 2}, each followed by the removal; the last run's code is returned |
| PuppetRun.RunCodeOk | openstack-tripleo-heat-templates/common/container-puppet.py:404-437 | the returned code is a success exactly when one of the three attempts succeeds |
| PuppetRun.PuppetConfig | openstack-tripleo-heat-templates/common/container-puppet.py:300-437 | one volume: the temp manifest, then removal, pull and run commands in that order, and the run's code |
| PuppetRun.ConfigureAll | openstack-tripleo-heat-templates/common/container-puppet.py:474-475 | the pool map returns one code per task, in task order |
| PuppetRun.OverallSuccess | openstack-tripleo-heat-templates/common/container-puppet.py:476-481 | success is false exactly when some code is outside {0, 2}; the reported volumes are the failed ones |
| PuppetRun.FailedMembers | openstack-tripleo-heat-templates/common/container-puppet.py:476-481 | a volume is reported exactly when its code is a failure |
| PuppetRun.AllConfigured | openstack-tripleo-heat-templates/common/container-puppet.py:474-481 | the run succeeds overall exactly when every volume has a successful attempt among its three |
| ConfigHash.GetConfigBase | openstack-tripleo-heat-templates/common/container-puppet.py:143-155 | the `while` loop computes the walk's result |
| ConfigHash.WalkFound | openstack-tripleo-heat-templates/common/container-puppet.py:149-154 | a found base is a prefix of the path, starts with the prefix, and has the base or the puppet-generated directory as its parent |
| ConfigHash.ConfigBaseFound | openstack-tripleo-heat-templates/common/container-puppet.py:143-155 | `get_config_base` returns a path above the volume whose parent is the stripped prefix or `<prefix>/puppet-generated`, reached by `dirname` steps that each passed a path under the prefix without a match |
| ConfigHash.WalkFirst | openstack-tripleo-heat-templates/common/container-puppet.py:149-154 | a found base is the first matching path on the upward `dirname` walk |
| ConfigHash.FirstWalks | openstack-tripleo-heat-templates/common/container-puppet.py:149-154 | the first matching path on the upward walk is what the walk returns |
| ConfigHash.ConfigBaseFirst | openstack-tripleo-heat-templates/common/container-puppet.py:143-155 | `get_config_base` returns `b` exactly when `b` is the first path on the upward walk that lies under the prefix and whose parent is a base |
| ConfigHash.ExitNoBase | openstack-tripleo-heat-templates/common/container-puppet.py:149-155 | a walk that leaves the prefix before any match raises ValueError |
| ConfigHash.NoBaseExit | openstack-tripleo-heat-templates/common/container-puppet.py:149-155 | a ValueError means the walk left the prefix before any match |
| ConfigHash.ConfigBaseNoBase | openstack-tripleo-heat-templates/common/container-puppet.py:143-155 | `get_config_base` raises ValueError exactly when the walk leaves the prefix before any match |
| ConfigHash.WalkHangs | openstack-tripleo-heat-templates/common/container-puppet.py:149-154 | the walk can loop forever only when the prefix is all slashes |
| ConfigHash.ConfigBaseHangs | openstack-tripleo-heat-templates/common/container-puppet.py:143-155 | `get_config_base` can fail to terminate only for an all-slash (or empty) prefix |
| ConfigHash.ConfigBaseServiceFile | openstack-tripleo-heat-templates/common/container-puppet.py:143-155 | for `<prefix>/<service>/<file>` the base is `<prefix>/<service>` |
| ConfigHash.ConfigBaseGeneratedFile | openstack-tripleo-heat-templates/common/container-puppet.py:143-155 | for `<prefix>/puppet-generated/<service>/<file>` the base is `<prefix>/puppet-generated/<service>` |
| ConfigHash.ConfigBaseRootHangs | openstack-tripleo-heat-templates/common/container-puppet.py:149-154 | with prefix `/` the loop never ends |
| ConfigHash.UnderPrefix | openstack-tripleo-heat-templates/common/container-puppet.py:166-167 | a volume is considered exactly when it is listed and starts with the prefix |
| ConfigHash.UnderPrefixOrder | openstack-tripleo-heat-templates/common/container-puppet.py:166-167 | the filter keeps the listed order: filtering a concatenation concatenates the filtered parts, and one volume is kept exactly when it starts with the prefix |
| ConfigHash.ResolveAllBases | openstack-tripleo-heat-templates/common/container-puppet.py:166-167 | each considered volume resolves its host path to the base at the same position |
| ConfigHash.MatchConfigVolumesSorted | openstack-tripleo-heat-templates/common/container-puppet.py:158-167 | the result is sorted and a permutation of the bases resolved for the volumes under the prefix, one per volume, each the base of such a volume |
| ConfigHash.StampVolumesSlot | openstack-tripleo-heat-templates/common/container-puppet.py:162-167 | a descriptor without `volumes` resolves no bases and is written back unchanged; a null `volumes` raises TypeError |
| ConfigHash.HostPathOf | openstack-tripleo-heat-templates/common/container-puppet.py:166 | the host path is the text before the first `:` |
| ConfigHash.MatchKeepsDuplicates | openstack-tripleo-heat-templates/common/container-puppet.py:166-167 | two mounts of files of the same service give that service's base twice |
| ConfigHash.MatchTwoSameBase | openstack-tripleo-heat-templates/common/container-puppet.py:166-167 | two volumes with the same base give that base twice |
| ConfigHash.PresentHashes | openstack-tripleo-heat-templates/common/container-puppet.py:506-507 | `filter(None, ...)` keeps only non-empty hashes, and a hash is kept exactly when some base has it as its stripped, non-blank sidecar |
| ConfigHash.PresentHashesAppend | openstack-tripleo-heat-templates/common/container-puppet.py:506-507 | the hashes keep the order of the bases |
| ConfigHash.PresentHashesOne | openstack-tripleo-heat-templates/common/container-puppet.py:170-178 | one base contributes its stripped sidecar when it is present and non-blank, and nothing otherwise |
| ConfigHash.PresentHashesEmpty | openstack-tripleo-heat-templates/common/container-puppet.py:506-507 | no hash remains exactly when every sidecar is missing or empty |
| ConfigHash.CompositeHashEmpty | openstack-tripleo-heat-templates/common/container-puppet.py:506-509 | the composite hash is empty exactly when every sidecar is missing or empty |
| ConfigHash.CompositeHashSplits | openstack-tripleo-heat-templates/common/container-puppet.py:508 | the composite hash splits at `-` back into the present hashes |
| ConfigHash.LoadBody | openstack-tripleo-heat-templates/common/container-puppet.py:496-505 | a null or falsy body becomes `{}`; only a truthy non-object body fails (AttributeError) |
| ConfigHash.StampedEnvSpec | openstack-tripleo-heat-templates/common/container-puppet.py:509-516 | with a non-empty hash, TRIPLEO_CONFIG_HASH is set (the environment is created when absent or null) and every other variable is kept; an empty hash changes nothing |
| ConfigHash.StampedEnvIdempotent | openstack-tripleo-heat-templates/common/container-puppet.py:509-516 | stamping twice with the same hash equals stamping once |
| ConfigHash.OutNameShape | openstack-tripleo-heat-templates/common/container-puppet.py:518 | the output is `hashed-<basename>` in the input's directory |
| ConfigHash.OutputSkippedOnRerun | openstack-tripleo-heat-templates/common/container-puppet.py:489-494 | every output name contains `hashed`, so a later run skips it |
| ConfigHash.StampWithoutHashesKeepsDescriptor | openstack-tripleo-heat-templates/common/container-puppet.py:505-516 | without any present hash the descriptor is written back unchanged |
| ConfigHash.StampIdempotent | openstack-tripleo-heat-templates/common/container-puppet.py:489-521 | re-stamping an output body with the same sidecars gives the same output |
| ConfigHash.StampOneShape | openstack-tripleo-heat-templates/common/container-puppet.py:489-518 | a file is skipped exactly when its path contains `hashed`; otherwise a file that does not fail is written to its `hashed-` name; a file can end in NameError only while `config_volume` is unbound |
| ConfigHash.StampPassWritesUnmarked | openstack-tripleo-heat-templates/common/container-puppet.py:489-521 | a pass that ends in no exception, NameError included, writes one output per unmarked input, in order, each to its `hashed-` name |
| ConfigHash.StampNameError | openstack-tripleo-heat-templates/common/container-puppet.py:505-510 | a file raises NameError exactly when it is unmarked, loads, resolves to a non-empty composite hash and `config_volume` is unbound; otherwise the outcome is the one with the name bound |
| ConfigHash.StampPassFailure | openstack-tripleo-heat-templates/common/container-puppet.py:489-521 | the pass ends with an exception exactly when some file raises it and every earlier file was skipped or written |
| ConfigHash.StampPassBound | openstack-tripleo-heat-templates/common/container-puppet.py:505-510 | with `config_volume` bound the pass never ends in NameError |
| PuppetJobs.UnboundCompilesEmpty | openstack-tripleo-heat-templates/common/container-puppet.py:241-295 | when no entry is non-null, `config_volume` is never bound at line 255 and nothing is stored, so the loops at lines 449 and 478 do not bind it either |
| ConfigHash.StartupConfig.StampHash | openstack-tripleo-heat-templates/common/container-puppet.py:512-516 | the in-place update changes only the environment, to the stamped environment |
| ConfigHash.StampFile | openstack-tripleo-heat-templates/common/container-puppet.py:489-521 | stamping one file on the mutable descriptor gives the specified output, including the NameError when the hash is non-empty and `config_volume` is unbound |
| ConfigHash.StampAll | openstack-tripleo-heat-templates/common/container-puppet.py:489-521 | the loop over the input files is the specified pass, ending at the first file that raises (NameError included) |
| NuageConfig.Items | image-patching/stopgap-script/utils/nuage_patching_5_0.py:46-47 | `for repo in value` iterates a list's items or a string's characters; other values raise TypeError |
| NuageConfig.CollectMissing | image-patching/stopgap-script/utils/nuage_patching_5_0.py:140-143 | the loop collects the keys whose `.get` is falsy, in key order |
| NuageConfig.MissingMembers | image-patching/stopgap-script/utils/nuage_patching_6_0.py:111-114 | a key is reported missing exactly when it is required and falsy |
| NuageConfig.DeploymentOfSpec | image-patching/stopgap-script/utils/nuage_patching_6_0.py:124-136 | DeploymentType is accepted exactly when it is a one-element list of vrs, avrs or ovrs; a longer list is the `Multiple` exit; a non-iterable value raises TypeError |
| NuageConfig.BeginPatching | image-patching/stopgap-script/utils/nuage_patching_5_0.py:192-213 | the session records the prologue: start, gpg keys when set, subscription, uninstall and the repo copy |
| NuageConfig.PrologueShape | image-patching/stopgap-script/utils/nuage_patching_5_0.py:192-213 | the prologue writes nothing to the script, ends with the repo copy, subscribes only with all three credentials, and passes the proxy exactly when both proxy keys are set |
| NuageConfig.TextLines | image-patching/stopgap-script/utils/nuage_patching_6_0.py:41-49 | a fragment text is its lines, each ended by a newline |
| Patching50.EnableCommand | image-patching/stopgap-script/utils/nuage_patching_5_0.py:44-48 | the `+=` loop builds `yum-config-manager --enable` followed by ` <repo>` for each repo |
| Patching50.EnableCmdWords | image-patching/stopgap-script/utils/nuage_patching_5_0.py:44-47 | the enable command's words are the manager, `--enable` and the repos in list order |
| Patching50.DisableCmdShape | image-patching/stopgap-script/utils/nuage_patching_5_0.py:48 | the disable command is `yum-config-manager --disable` followed by each repo with `enable` replaced by `disable` |
| Patching50.DisableCmdWords | image-patching/stopgap-script/utils/nuage_patching_5_0.py:44-48 | the disable command's words are the manager, `--disable` and the renamed repos |
| Patching50.DisableCmdPlain | image-patching/stopgap-script/utils/nuage_patching_5_0.py:48 | repos that do not contain `enable` are disabled under their own names |
| Patching50.DisableRenamesRepo | image-patching/stopgap-script/utils/nuage_patching_5_0.py:48 | a repo named `enable...` is disabled as `disable...`: the replace reaches repo names |
| Patching50.RenamedAt | image-patching/stopgap-script/utils/nuage_patching_5_0.py:48 | each renamed repo is the repo with every `enable` replaced by `disable` |
| Patching50.FragmentLines | image-patching/stopgap-script/utils/nuage_patching_5_0.py:50-58 | each 5.0 fragment's lines are blank, header, enable command, body, disable command |
| Patching50.ScriptTextWritten | image-patching/stopgap-script/utils/nuage_patching_5_0.py:190-228 | the script text depends only on the write steps of the run |
| Patching50.WriteFragment | image-patching/stopgap-script/utils/nuage_patching_5_0.py:44-60 | a fragment builder iterates the repos (TypeError for a non-iterable) and appends the bracketed fragment |
| Patching50.CheckConfig | image-patching/stopgap-script/utils/nuage_patching_5_0.py:139-182 | the check computes the specified decision |
| Patching50.CheckMissing | image-patching/stopgap-script/utils/nuage_patching_5_0.py:140-147 | missing ImageName, RepoFile or VRSRepoNames exits, naming exactly the falsy ones, in the order ImageName, RepoFile, VRSRepoNames |
| Patching50.CheckAccepts | image-patching/stopgap-script/utils/nuage_patching_5_0.py:139-182 | the check passes exactly when the three keys are set, KernelHF implies KernelRepoNames, DeploymentType is one of vrs/avrs/ovrs, avrs has AVRSRepoNames, ovrs has MellanoxRepoNames, and libguestfs is installed |
| Patching50.CheckNoDeploymentType | image-patching/stopgap-script/utils/nuage_patching_5_0.py:154-158 | a config without DeploymentType raises KeyError |
| Patching50.UpdateKernel | image-patching/stopgap-script/utils/nuage_patching_5_0.py:215-216 | the kernel fragment is written only for a truthy KernelHF (KeyError when it is absent) |
| Patching50.InstallMellanox | image-patching/stopgap-script/utils/nuage_patching_5_0.py:218-219 | the Mellanox fragment is written only when `ovrs` is in DeploymentType |
| Patching50.DownloadAvrs | image-patching/stopgap-script/utils/nuage_patching_5_0.py:221-222 | the AVRS fragment is written only when `avrs` is in DeploymentType |
| Patching50.InstallNuagePackages | image-patching/stopgap-script/utils/nuage_patching_5_0.py:224 | the Nuage fragment is always written |
| Patching50.ImagePatching | image-patching/stopgap-script/utils/nuage_patching_5_0.py:190-228 | the session records the specified run and its outcome |
| Patching50.PatchRejected | image-patching/stopgap-script/utils/nuage_patching_5_0.py:190-191 | a failed check stops the run before any step |
| Patching50.PatchWithoutKernelHF | image-patching/stopgap-script/utils/nuage_patching_5_0.py:215 | without a KernelHF key the run raises KeyError after the prologue, having written nothing |
| Patching50.CheckedDeployment | image-patching/stopgap-script/utils/nuage_patching_5_0.py:158-177 | after the check, `"ovrs" in` and `"avrs" in` DeploymentType agree with the accepted type |
| Patching50.PatchOkSteps | image-patching/stopgap-script/utils/nuage_patching_5_0.py:190-228 | a finished run is the prologue, the four fragment phases and, with credentials, the unsubscribe |
| Patching50.PatchFragments | image-patching/stopgap-script/utils/nuage_patching_5_0.py:215-224 | a finished run appends the kernel (KernelHF), Mellanox (ovrs), AVRS (avrs) and Nuage fragments, in that order |
| Patching50.PatchSteps | image-patching/stopgap-script/utils/nuage_patching_5_0.py:190-228 | after the prologue, a run only appends fragments and unsubscribes |
| Patching50.PatchSubscription | image-patching/stopgap-script/utils/nuage_patching_5_0.py:199-209 | subscription happens exactly with all three credentials, with the proxy exactly when both proxy keys are set; 5.0 runs neither virt-customize nor virt-sysprep |
| Patching50.PatchUnsubscribes | image-patching/stopgap-script/utils/nuage_patching_5_0.py:226-228 | a finished run ends with the unsubscribe exactly when the credentials are set |
| Patching60.NoRepoCommands | image-patching/stopgap-script/utils/nuage_patching_6_0.py:40-104 | no line of a 6.0 fragment is a `yum-config-manager` command |
| Patching60.FragmentStart | image-patching/stopgap-script/utils/nuage_patching_6_0.py:40-80 | every 6.0 fragment opens with a blank line and its header |
| Patching60.AvrsPlaceholder | image-patching/stopgap-script/utils/nuage_patching_6_0.py:86-104 | the AVRS fragment ends with a literal `%s` line |
| Patching60.ScriptTextWritten | image-patching/stopgap-script/utils/nuage_patching_6_0.py:149-203 | the script text depends only on the write steps of the run |
| Patching60.WriteSection | image-patching/stopgap-script/utils/nuage_patching_6_0.py:40-49 | a 6.0 builder appends its fixed fragment |
| Patching60.CheckConfig | image-patching/stopgap-script/utils/nuage_patching_6_0.py:110-141 | the check computes the specified decision |
| Patching60.CheckMissing | image-patching/stopgap-script/utils/nuage_patching_6_0.py:111-118 | missing ImageName or RepoFile exits, naming exactly the falsy ones, in the order ImageName, RepoFile |
| Patching60.CheckAccepts | image-patching/stopgap-script/utils/nuage_patching_6_0.py:110-141 | the check passes exactly when ImageName and RepoFile are set, DeploymentType is a one-element list of vrs/avrs/ovrs, and libguestfs is installed; no repo names are required |
| Patching60.FinishPatching | image-patching/stopgap-script/utils/nuage_patching_6_0.py:186-203 | the session records the AVRS and Nuage fragments, the unsubscribe with credentials, virt-customize and virt-sysprep |
| Patching60.ImagePatching | image-patching/stopgap-script/utils/nuage_patching_6_0.py:149-203 | the session records the specified run and its outcome |
| Patching60.Setup | image-patching/stopgap-script/utils/nuage_patching_6_0.py:152-178 | the session records the log handler and the prologue |
| Patching60.PatchForm | image-patching/stopgap-script/utils/nuage_patching_6_0.py:149-203 | after the check, the run stops at the kernel call, at the Mellanox call, or finishes |
| Patching60.PatchFinishes | image-patching/stopgap-script/utils/nuage_patching_6_0.py:180-184 | after the check, a run finishes exactly when KernelHF is present and falsy and the type is not ovrs |
| Patching60.PatchKernelHF | image-patching/stopgap-script/utils/nuage_patching_6_0.py:180-181 | a truthy KernelHF raises: TypeError from the one-argument call, or KeyError when KernelRepoNames is absent |
| Patching60.PatchOvrs | image-patching/stopgap-script/utils/nuage_patching_6_0.py:183-184 | ovrs raises: TypeError from the one-argument call, or KeyError when MellanoxRepoNames is absent |
| Patching60.PatchWritten | image-patching/stopgap-script/utils/nuage_patching_6_0.py:186-189 | a finished run writes the AVRS fragment (avrs only) and then the Nuage fragment |
| Patching60.PatchScript | image-patching/stopgap-script/utils/nuage_patching_6_0.py:186-189 | a finished run's script text is the AVRS fragment (avrs only) followed by the Nuage fragment |
| Patching60.PatchEnds | image-patching/stopgap-script/utils/nuage_patching_6_0.py:191-203 | a finished run ends with virt-customize and virt-sysprep on the image, preceded by the unsubscribe exactly with credentials |
| OvercloudFullPatch.SubscriptionTypeSpec | image-patching/nuage_image_patching_scripts/nuage_overcloud_full_patch.py:100-123 | satellite exactly when its three keys are truthy; portal when its three are and satellite's are not; disabled exactly when all six are falsy; any other mix is the error exit |
| OvercloudFullPatch.CheckAccepts | image-patching/nuage_image_patching_scripts/nuage_overcloud_full_patch.py:126-148 | the check passes exactly when libguestfs is installed, the subscription type is valid, ImageName is set, and RepoFile is set unless the type is satellite; it leaves that type in `rhel_subs_type` |
| OvercloudFullPatch.PatchCompletes | image-patching/nuage_image_patching_scripts/nuage_overcloud_full_patch.py:156-204 | with ImageName present the run always finishes, with the specified steps |
| OvercloudFullPatch.PatchWithoutImage | image-patching/nuage_image_patching_scripts/nuage_overcloud_full_patch.py:156-163 | without ImageName the run raises KeyError and copies no repo and runs no virt-customize or virt-sysprep |
| OvercloudFullPatch.CompletedWritten | image-patching/nuage_image_patching_scripts/nuage_overcloud_full_patch.py:187 | the only script writes of a run are the Nuage fragment and then a lone newline |
| OvercloudFullPatch.ScriptRejected | image-patching/nuage_image_patching_scripts/nuage_overcloud_full_patch.py:224-231 | a failed check stops the script before image patching |
| OvercloudFullPatch.ScriptAccepted | image-patching/nuage_image_patching_scripts/nuage_overcloud_full_patch.py:224-232 | a passed check is followed by a finished image patching with the type it found |
| OvercloudFullPatch.CompletedSubscribes | image-patching/nuage_image_patching_scripts/nuage_overcloud_full_patch.py:165-191 | for portal or satellite the run subscribes and later unsubscribes with that type |
| OvercloudFullPatch.CompletedSubscribeArgs | image-patching/nuage_image_patching_scripts/nuage_overcloud_full_patch.py:165-175 | subscription happens only for portal or satellite and passes all nine arguments, the type last |
| OvercloudFullPatch.CompletedUnsubscribes | image-patching/nuage_image_patching_scripts/nuage_overcloud_full_patch.py:189-191 | unsubscription happens only for portal or satellite, with that type |
| OvercloudFullPatch.CompletedCopiesRepo | image-patching/nuage_image_patching_scripts/nuage_overcloud_full_patch.py:179-185 | the repo file is copied exactly when RepoFile is truthy |
| OvercloudFullPatch.SatelliteWithoutRepoFile | image-patching/nuage_image_patching_scripts/nuage_overcloud_full_patch.py:137-185 | a satellite config without RepoFile passes the check, subscribes and copies no repo file |
| OvercloudFullPatch.ScriptTextWritten | image-patching/nuage_image_patching_scripts/nuage_overcloud_full_patch.py:69-75 | the script text depends only on the write steps of the run |
| OvercloudFullPatch.ScriptOfAccepted | image-patching/nuage_image_patching_scripts/nuage_overcloud_full_patch.py:69-93 | after a passed check the script holds the Nuage fragment (dependencies, VRS package, Nuage packages, `yum clean all`) followed by a newline |
| OvercloudFullPatch.ScriptOfCompleted | image-patching/nuage_image_patching_scripts/nuage_overcloud_full_patch.py:69-93 | the same holds for every finished image patching |
| OvercloudFullPatch.NuageInstallScript | image-patching/nuage_image_patching_scripts/nuage_overcloud_full_patch.py:69-75 | the decorated builder writes its fragment and then a lone newline |
| OvercloudFullPatch.ImportKeys | image-patching/nuage_image_patching_scripts/nuage_overcloud_full_patch.py:160-163 | gpg keys are imported only when RpmPublicKey is truthy |
| OvercloudFullPatch.SubscribeAndUninstall | image-patching/nuage_image_patching_scripts/nuage_overcloud_full_patch.py:165-177 | the session records the subscription (portal or satellite only), the python-ovs install and the uninstall |
| OvercloudFullPatch.CopyRepo | image-patching/nuage_image_patching_scripts/nuage_overcloud_full_patch.py:179-185 | the repo copy is recorded only when RepoFile is truthy |
| OvercloudFullPatch.InstallNuagePackages | image-patching/nuage_image_patching_scripts/nuage_overcloud_full_patch.py:187-191 | the session records the Nuage fragment, the newline, and the unsubscribe for portal or satellite |
| OvercloudFullPatch.RunPatchingScript | image-patching/nuage_image_patching_scripts/nuage_overcloud_full_patch.py:195-203 | the session records virt-customize and then virt-sysprep on the image |
| OvercloudFullPatch.Patcher.CheckConfig | image-patching/nuage_image_patching_scripts/nuage_overcloud_full_patch.py:126-148 | `rhel_subs_type` is set once the libguestfs test passes; the outcome is the check's |
| OvercloudFullPatch.Patcher.ImagePatching | image-patching/nuage_image_patching_scripts/nuage_overcloud_full_patch.py:156-204 | the session records the run for the stored `rhel_subs_type` |
| OvercloudFullPatch.Patcher.RunScript | image-patching/nuage_image_patching_scripts/nuage_overcloud_full_patch.py:207-232 | `main` after parsing: log handler, check, then image patching |
| ApplyPatch.ChooseArms | tripleo-heat-templates-diff/apply_patch.py:65-79 | each diff is chosen exactly under its own condition, given that the earlier ones failed, and rc1..rc4 all positive is the unsupported case |
| ApplyPatch.NoArmUnreachable | tripleo-heat-templates-diff/apply_patch.py:65-83 | some arm fires for all comparison results, so the bare `patch` command is never run |
| ApplyPatch.LabelCompare | tripleo-heat-templates-diff/apply_patch.py:47-48 | the comparison's sign follows the order of the two versions |
| ApplyPatch.SelectRanges | tripleo-heat-templates-diff/apply_patch.py:53-79 | for thresholds v1 < v2 < v3 < v4: below v1 → 5.2.0-15, [v1, v2) → 5.3.0-4, [v2, v3] → 5.3.3-1 (5.3.8-1 included), (v3, v4] → 5.3.10-1, above v4 unsupported |
| ApplyPatch.SelectMonotone | tripleo-heat-templates-diff/apply_patch.py:61-79 | the versions that choose one diff form an interval |
| ApplyPatch.CommandWords | tripleo-heat-templates-diff/apply_patch.py:58-75 | the command's words are `patch -p0 -N -d /usr/share < <diff>` |
| ApplyPatch.RunApplies | tripleo-heat-templates-diff/apply_patch.py:58-83 | a supported version runs `patch` with exactly one of the four diffs after `<` |

## Left out

- Subprocess calls are not executed. `inspect`, `pull`, `run`, `rm`, `diff`, `hostname -s`,
  `rpm -q`, virt-customize, virt-sysprep and `patch` are inputs (exit codes or output) or
  recorded steps.
- Patching60: the names `utils.logger` (nuage_patching_6_0.py:9), `constants.SCRIPT_NAME` (:49)
  and `formatter` (:154) are assumed to resolve through the star imports at lines 5 and 7. The
  stopgap `utils` package is not part of this model, so this cannot be confirmed.
- Logging (its set-up, the log handler and every message) is left out, except the message at
  container-puppet.py:510, whose NameError is modelled (`ConfigHash.StampNameError`). The 6.0 handler is a
  recorded step.
- The `multiprocessing.Pool` fan-out is modelled as an order-preserving sequential map,
  which is what `Pool.map` returns.
- File system and time are left out:
  - `json.load`/`json.dump`, `glob` and `chmod 0600` are not modelled;
  - `tempfile`, the `.md5sum` reads (a map), `time.sleep` and `os.makedirs` are not modelled;
  - `write_to_file` (an `Append` step), `copy_repo_file` and `importing_gpgkeys` are recorded
    steps;
  - `file_exists` on the image is not modelled. The checks at nuage_patching_5_0.py:148,
    nuage_patching_6_0.py:119 and nuage_overcloud_full_patch.py:148 end the script when the
    image file is missing; `Patching50.Check`, `Patching60.Check` and
    `OvercloudFullPatch.Check` never take that exit.
- YAML and argparse parsing are not modelled. Config values are strings, string lists, numbers,
  booleans and null. A list item that is not a string is not modelled.
- `rpm.labelCompare` and `stringToVersion` are abstracted. Either the four comparison results
  are inputs, or the versions are ranks in a total order.
- `paunch`'s `unique_container_name` is an input string.
- The helpers in `utils.common`/`utils` are recorded steps with their arguments; their bodies
  are not part of this model. These are `start_script`, `rhel_subscription`,
  `rhel_remove_subscription`, `uninstall_packages`, `install_nuage_python_ovs_packages`,
  `virt_customize_run` and `cmds_run`.
- `MLNX_OFED_PACKAGES` and `KERNEL_PACKAGES` are not defined in
  `image-patching/nuage_image_patching_scripts/utils/constants.py`, and their definition is not
  part of this model, so the fragment builders take them as parameters.
- The stopgap dispatcher `image-patching/stopgap-script/nuage_overcloud_full_patch.py` is not
  modelled. It calls `images_patching`, which neither stopgap module defines.
- Patching50.ImagePatching: the virt-customize and virt-sysprep calls at the end of the 5.0
  `image_patching` sit inside a string literal and never run, so the model records neither.
- Patching50.CheckAccepts: the check reads KernelHF with `.get`, but `image_patching` uses
  `nuage_config['KernelHF']`. A config without the key therefore passes the check and then
  raises KeyError (`Patching50.PatchWithoutKernelHF`).
- Patching60.NoRepoCommands: it states that no fragment line starts with `yum-config-manager`.
  It does not state that the text is absent inside a line, because the package lists are
  parameters and could contain it.
- PuppetRun.PullImage: the retry loops need a supplied exit code for every attempt they can
  make, so the exit-code sequences must have at least five (pull) or three (run) entries.
- PuppetJobs.BuildProcessMap: `CHECK_MODE` is taken as an integer. A non-numeric value makes
  `int(os.environ.get('CHECK_MODE', 0))` raise ValueError (container-puppet.py:446), which the
  model does not capture.
- PuppetJobs.TaskFor: a stored job whose volumes slot is JSON null reaches the worker with no
  volumes. Python raises TypeError in the worker at `for volume in volumes`
  (container-puppet.py:382), and `Pool.map` re-raises it at line 475; the model's
  `PuppetRun.PuppetConfig` takes a list of mount specs and does not raise. The null slot itself
  is modelled up to that point (`PuppetJobs.NullThenVolumes`, `PuppetJobs.CompileFirstWins`).
- A `volumes` value that is neither a list nor null (a string, say) is not modelled.
- A JSON null in `privileged` or `keep_container` reads as false; the source only tests their
  truthiness, so this changes no behaviour.
- ConfigHash.StampFile: the JSON text written is not modelled, only the descriptor value.
  The idempotence lemmas are about that value, not about bytes.
