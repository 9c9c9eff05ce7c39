/**
 * The diff selection of `tripleo-heat-templates-diff/apply_patch.py`: the installed
 * openstack-tripleo-heat-templates version is compared with four threshold versions,
 * and the comparison results choose the diff fed to `patch`. The comparison itself
 * (`rpm.labelCompare` on the parsed versions) is an input: its four results, or ranks
 * in a total order of versions.
 */
module ApplyPatch {
  import opened Strs

  /** The words of `args = "patch -p0 -N -d /usr/share"`; the command is them joined by single spaces. */
  const PatchWords: seq<string> := ["patch", "-p0", "-N", "-d", "/usr/share"]
  const PatchCommand := Join(PatchWords, " ")
  const PreVersion1Diff := "diff_OSPD10_5.2.0-15"
  const PreVersion2Diff := "diff_OSPD10_5.3.0-4"
  const PreVersion3Diff := "diff_OSPD10_5.3.3-1"
  const PostVersion3Diff := "diff_OSPD10_5.3.10-1"

  /** Which arm of the `if`/`elif` chain fires, if any. */
  datatype Choice = Diff(name: string) | Unsupported | NoArm

  /** The chain over `version_1_rc` .. `version_4_rc`, tested in the order written. */
  function Choose(rc1: int, rc2: int, rc3: int, rc4: int): Choice {
    if rc1 < 0 then Diff(PreVersion1Diff)
    else if rc1 >= 0 && rc2 < 0 then Diff(PreVersion2Diff)
    else if rc2 >= 0 && rc3 <= 0 then Diff(PreVersion3Diff)
    else if rc3 > 0 && rc4 <= 0 then Diff(PostVersion3Diff)
    else if rc4 > 0 then Unsupported
    else NoArm
  }

  /** How the script ends: a usage error, an unsupported version, or the `patch` command it runs. */
  datatype Outcome = UsageError | NotSupported | Applies(command: string)

  /** The whole script for `argc` arguments (the script name included) and the four comparison results. */
  function Run(argc: nat, rc1: int, rc2: int, rc3: int, rc4: int): Outcome {
    if argc != 1 then UsageError
    else match Choose(rc1, rc2, rc3, rc4)
      case Unsupported => NotSupported
      case Diff(name) => Applies(PatchCommand + " < " + name)
      case NoArm => Applies(PatchCommand)
  }

  /** Each arm fires under exactly the condition the chain gives it once the earlier arms failed. */
  lemma ChooseArms(rc1: int, rc2: int, rc3: int, rc4: int)
    ensures Choose(rc1, rc2, rc3, rc4) == Diff(PreVersion1Diff) <==> rc1 < 0
    ensures Choose(rc1, rc2, rc3, rc4) == Diff(PreVersion2Diff) <==> rc1 >= 0 && rc2 < 0
    ensures Choose(rc1, rc2, rc3, rc4) == Diff(PreVersion3Diff) <==> rc1 >= 0 && rc2 >= 0 && rc3 <= 0
    ensures Choose(rc1, rc2, rc3, rc4) == Diff(PostVersion3Diff) <==> rc1 >= 0 && rc2 >= 0 && rc3 > 0 && rc4 <= 0
    ensures Choose(rc1, rc2, rc3, rc4) == Unsupported <==> rc1 >= 0 && rc2 >= 0 && rc3 > 0 && rc4 > 0
  {
    DiffNamesDistinct();
  }

  lemma DiffNamesDistinct()
    ensures PreVersion1Diff != PreVersion2Diff && PreVersion1Diff != PreVersion3Diff
    ensures PreVersion1Diff != PostVersion3Diff && PreVersion2Diff != PreVersion3Diff
    ensures PreVersion2Diff != PostVersion3Diff && PreVersion3Diff != PostVersion3Diff
  {
    assert PreVersion1Diff[14] != PreVersion2Diff[14];
    assert PreVersion1Diff[14] != PreVersion3Diff[14];
    assert PreVersion1Diff[14] != PostVersion3Diff[14];
    assert PreVersion2Diff[16] != PreVersion3Diff[16];
    assert |PreVersion2Diff| != |PostVersion3Diff|;
    assert |PreVersion3Diff| != |PostVersion3Diff|;
  }

  /**
   * Whatever the four results, some arm fires: the conditions left after `rc4 <= 0`
   * fails are `rc4 > 0`, so the bare `patch` command is never run.
   */
  lemma NoArmUnreachable(rc1: int, rc2: int, rc3: int, rc4: int)
    ensures Choose(rc1, rc2, rc3, rc4) != NoArm
    ensures Run(1, rc1, rc2, rc3, rc4) != Applies(PatchCommand)
  {
    var c := Choose(rc1, rc2, rc3, rc4);
    if c.Diff? {
      assert |PatchCommand + " < " + c.name| > |PatchCommand|;
    }
  }

  /** Any argument besides the script name is a usage error, whatever the versions. */
  lemma UsageChecked(argc: nat, rc1: int, rc2: int, rc3: int, rc4: int)
    ensures Run(argc, rc1, rc2, rc3, rc4) == UsageError <==> argc != 1
  {
  }

  // ------------------------------------------------------ a total order

  /** `rpm.labelCompare` on versions placed by rank in rpm's total order. */
  function LabelCompare(a: int, b: int): (r: int)
    ensures r < 0 <==> a < b
    ensures r == 0 <==> a == b
    ensures r > 0 <==> a > b
  {
    if a < b then -1 else if a == b then 0 else 1
  }

  /** The selection for an installed version, with the four threshold versions given by rank. */
  function Select(installed: int, v1: int, v2: int, v3: int, v4: int): Choice {
    Choose(LabelCompare(installed, v1), LabelCompare(installed, v2),
           LabelCompare(installed, v3), LabelCompare(installed, v4))
  }

  /**
   * With thresholds 5.3.0-4 < 5.3.3-1 < 5.3.8-1 < 5.3.10-1, the diff depends on the
   * range the installed version falls into; 5.3.8-1 itself still takes the 5.3.3-1 diff,
   * and only versions above 5.3.10-1 are unsupported.
   */
  lemma SelectRanges(installed: int, v1: int, v2: int, v3: int, v4: int)
    requires v1 < v2 < v3 < v4
    ensures Select(installed, v1, v2, v3, v4) == Diff(PreVersion1Diff) <==> installed < v1
    ensures Select(installed, v1, v2, v3, v4) == Diff(PreVersion2Diff) <==> v1 <= installed < v2
    ensures Select(installed, v1, v2, v3, v4) == Diff(PreVersion3Diff) <==> v2 <= installed <= v3
    ensures Select(installed, v1, v2, v3, v4) == Diff(PostVersion3Diff) <==> v3 < installed <= v4
    ensures Select(installed, v1, v2, v3, v4) == Unsupported <==> v4 < installed
  {
    ChooseArms(LabelCompare(installed, v1), LabelCompare(installed, v2),
               LabelCompare(installed, v3), LabelCompare(installed, v4));
  }

  /** Versions ordered the same way against the thresholds get the same diff. */
  lemma SelectMonotone(a: int, b: int, v1: int, v2: int, v3: int, v4: int)
    requires v1 < v2 < v3 < v4 && a <= b
    requires Select(a, v1, v2, v3, v4) == Select(b, v1, v2, v3, v4)
    ensures forall c :: a <= c <= b ==> Select(c, v1, v2, v3, v4) == Select(a, v1, v2, v3, v4)
  {
    forall c | a <= c <= b ensures Select(c, v1, v2, v3, v4) == Select(a, v1, v2, v3, v4) {
      SelectRanges(a, v1, v2, v3, v4);
      SelectRanges(b, v1, v2, v3, v4);
      SelectRanges(c, v1, v2, v3, v4);
    }
  }

  // ------------------------------------------------------ the command

  /** The words of the command the shell runs: `patch`, its options, `<` and the diff. */
  lemma CommandWords(name: string)
    requires ' ' !in name
    ensures Split(PatchCommand + " < " + name, ' ') == PatchWords + ["<", name]
  {
    var words := PatchWords + ["<", name];
    JoinSnoc(PatchWords, "<", " ");
    JoinSnoc(PatchWords + ["<"], name, " ");
    assert PatchWords + ["<"] + [name] == words;
    assert PatchCommand + " < " + name == PatchCommand + " " + "<" + " " + name;
    forall i | 0 <= i < |words| ensures ' ' !in words[i] {
      if i < |PatchWords| { assert words[i] == PatchWords[i]; }
    }
    SplitJoin(words, ' ');
  }

  /** None of the four diff names holds a space, so each is the last word of its command. */
  lemma DiffNamesUnspaced(name: string)
    requires name in {PreVersion1Diff, PreVersion2Diff, PreVersion3Diff, PostVersion3Diff}
    ensures ' ' !in name
  {
  }

  /** A supported run feeds exactly one of the four diffs to `patch`, as the word after `<`. */
  lemma RunApplies(rc1: int, rc2: int, rc3: int, rc4: int)
    requires Run(1, rc1, rc2, rc3, rc4).Applies?
    ensures exists name ::
      name in {PreVersion1Diff, PreVersion2Diff, PreVersion3Diff, PostVersion3Diff} &&
      Run(1, rc1, rc2, rc3, rc4).command == PatchCommand + " < " + name &&
      Split(Run(1, rc1, rc2, rc3, rc4).command, ' ') == PatchWords + ["<", name]
  {
    NoArmUnreachable(rc1, rc2, rc3, rc4);
    var name := Choose(rc1, rc2, rc3, rc4).name;
    assert Run(1, rc1, rc2, rc3, rc4).command == PatchCommand + " < " + name;
    DiffNamesUnspaced(name);
    CommandWords(name);
  }
}
