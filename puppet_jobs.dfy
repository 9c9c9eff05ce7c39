/**
 * How container-puppet.py compiles its JSON list of service descriptions into one
 * configuration job per config volume: each entry is normalised to a seven-slot list,
 * entries without a manifest or image are dropped, entries sharing a config volume are
 * merged (tags joined with ',', manifests with a newline, volumes concatenated), and the
 * optional CONFIG_VOLUME filter admits only that volume. The jobs are then turned into
 * the process map handed to the worker pool.
 */
module PuppetJobs {
  import opened Wrappers
  import opened Strs

  /** A `volumes` value as the JSON gives it: null, or a list of mount specs. */
  datatype VolumeList = NullList | List(items: seq<string>)

  /** The slots a positional entry has after its first four. */
  datatype Tail =
    | FourSlots
    | FiveSlots(volumes: VolumeList)
    | SixSlots(volumes: VolumeList, privileged: bool)
    | SevenSlots(volumes: VolumeList, privileged: bool, keepContainer: bool)   // or longer

  /**
   * One element of the JSON list. In a dict entry `None` stands for a missing key; for
   * the string and flag keys a JSON null reads the same (`or ''`, and a falsy flag),
   * while a null `volumes` is the value `Some(NullList)`.
   */
  datatype Entry =
    | NullEntry
    | DictEntry(configVolume: Option<string>, puppetTags: Option<string>, stepConfig: Option<string>,
                configImage: Option<string>, volumes: Option<VolumeList>, privileged: Option<bool>,
                keepContainer: Option<bool>)
    | ListEntry(configVolume: Option<string>, puppetTags: Option<string>, stepConfig: Option<string>,
                configImage: Option<string>, tail: Tail)
    | ShortList   // a positional entry with fewer than four items

  /** The exceptions compilation lets escape. */
  datatype LoadError =
    | IndexError       // a positional entry that is too short, or a four-slot list extended at slot 4
    | AttributeError   // `None.extend(...)`: merging volumes into a null volumes slot

  /**
   * The stored list of one config volume. `tags` is the raw slot (it may hold null);
   * `volumes` is `None` for a four-slot positional entry, which has no volumes slot.
   */
  datatype Job = Job(tags: Option<string>, manifest: string, image: string,
                     volumes: Option<VolumeList>, privileged: bool, keepContainer: bool)
  {
    /** `service[1] or ''` */
    function Tags(): string {
      tags.GetOr("")
    }

    /** The mount specs of `service[4] if len(service) > 4 else []`; a null slot holds none. */
    function Volumes(): seq<string> {
      if volumes.Some? && volumes.value.List? then volumes.value.items else []
    }
  }

  datatype Normalized = Skip | Service(key: string, job: Job)

  function Admit(volume: Option<string>, tags: Option<string>, manifest: Option<string>, image: Option<string>,
                 volumes: Option<VolumeList>, privileged: bool, keep: bool): Normalized
  {
    if manifest.GetOr("") == "" || image.GetOr("") == "" then Skip
    else Service(volume.GetOr(""), Job(tags, manifest.value, image.value, volumes, privileged, keep))
  }

  /** Lines 242-264: normalise one entry, or skip it. */
  function Normalize(e: Entry): Result<Normalized, LoadError> {
    match e
    case NullEntry => Ok(Skip)
    case ShortList => Err(IndexError)
    case DictEntry(v, t, m, i, vols, p, k) =>
      Ok(Admit(v, t, m, i, Some(vols.GetOr(List([]))), p.GetOr(false), k.GetOr(false)))
    case ListEntry(v, t, m, i, tail) =>
      match tail
      case FourSlots => Ok(Admit(v, t, m, i, None, false, false))
      case FiveSlots(vols) => Ok(Admit(v, t, m, i, Some(vols), false, false))
      case SixSlots(vols, p) => Ok(Admit(v, t, m, i, Some(vols), p, false))
      case SevenSlots(vols, p, k) => Ok(Admit(v, t, m, i, Some(vols), p, k))
  }

  /**
   * An entry is dropped exactly when it is null or lacks a manifest or an image; a
   * positional entry shorter than four items is an IndexError; every kept entry carries
   * its manifest and image unchanged and is keyed by its config volume (or ''). The
   * remaining slots take the defaults of lines 250-252 and 259-261: a dict without
   * `volumes` gets `[]`, missing flags are false, and a positional entry without a slot
   * gets no volumes slot at all (four items) or false flags.
   */
  lemma NormalizeSpec(e: Entry)
    ensures Normalize(e).Err? <==> e.ShortList?
    ensures Normalize(e) == Ok(Skip) <==>
      e.NullEntry? || (!e.ShortList? && (e.stepConfig.GetOr("") == "" || e.configImage.GetOr("") == ""))
    ensures Normalize(e).Ok? && Normalize(e).value.Service? ==>
      var s := Normalize(e).value;
      s.key == e.configVolume.GetOr("") && Some(s.job.manifest) == e.stepConfig && s.job.manifest != ""
      && Some(s.job.image) == e.configImage && s.job.image != "" && s.job.tags == e.puppetTags
    ensures Normalize(e).Ok? && Normalize(e).value.Service? && e.DictEntry? ==>
      Normalize(e).value.job.volumes == Some(e.volumes.GetOr(List([])))
      && Normalize(e).value.job.privileged == e.privileged.GetOr(false)
      && Normalize(e).value.job.keepContainer == e.keepContainer.GetOr(false)
    ensures Normalize(e).Ok? && Normalize(e).value.Service? && e.ListEntry? ==>
      (Normalize(e).value.job.volumes.None? <==> e.tail.FourSlots?)
      && (!e.tail.FourSlots? ==> Normalize(e).value.job.volumes == Some(e.tail.volumes))
      && Normalize(e).value.job.privileged == ((e.tail.SixSlots? || e.tail.SevenSlots?) && e.tail.privileged)
      && Normalize(e).value.job.keepContainer == (e.tail.SevenSlots? && e.tail.keepContainer)
  {
  }

  /** Python's `'%s' % x` for a slot that is a string or null. */
  function PyStr(o: Option<string>): string {
    match o
    case Some(s) => s
    case None => "None"
  }

  /** Lines 277-287: fold a later entry into the stored list of the same config volume. */
  function Merge(stored: Job, incoming: Job): Result<Job, LoadError> {
    var tags := if incoming.Tags() != "" then Some(PyStr(stored.tags) + "," + incoming.Tags()) else stored.tags;
    var manifest := if incoming.manifest != "" then stored.manifest + "\n" + incoming.manifest else stored.manifest;
    if incoming.Volumes() == [] then Ok(stored.(tags := tags, manifest := manifest))
    else match stored.volumes
      case None => Err(IndexError)
      case Some(NullList) => Err(AttributeError)
      case Some(List(vs)) => Ok(stored.(tags := tags, manifest := manifest, volumes := Some(List(vs + incoming.Volumes()))))
  }

  /** The dict `configs` (in insertion order) and the keys whose images disagreed. */
  datatype Table = Table(order: seq<string>, jobs: map<string, Job>, imageWarnings: seq<string>)

  const EmptyTable := Table([], map[], [])

  /** `not config_volume_only or config_volume_only == config_volume` */
  predicate Admits(only: Option<string>, key: string) {
    only.None? || only.value == "" || only.value == key
  }

  /** One iteration of the loop at lines 241-295. */
  function Add(t: Table, e: Entry, only: Option<string>): Result<Table, LoadError> {
    match Normalize(e)
    case Err(x) => Err(x)
    case Ok(Skip) => Ok(t)
    case Ok(Service(key, job)) =>
      if key in t.jobs then
        match Merge(t.jobs[key], job)
        case Err(x) => Err(x)
        case Ok(merged) =>
          var warnings := if t.jobs[key].image != job.image then t.imageWarnings + [key] else t.imageWarnings;
          Ok(Table(t.order, t.jobs[key := merged], warnings))
      else if Admits(only, key) then Ok(Table(t.order + [key], t.jobs[key := job], t.imageWarnings))
      else Ok(t)
  }

  /** The whole loop, entry by entry; the first exception aborts it. */
  function Compile(entries: seq<Entry>, only: Option<string>): Result<Table, LoadError> {
    if entries == [] then Ok(EmptyTable)
    else
      match Compile(entries[..|entries| - 1], only)
      case Err(x) => Err(x)
      case Ok(t) => Add(t, entries[|entries| - 1], only)
  }

  /** The loop that builds `configs`, with the dict held as an order list and a map. */
  method CompileConfigs(entries: seq<Entry>, only: Option<string>) returns (r: Result<Table, LoadError>)
    ensures r == Compile(entries, only)
  {
    var order: seq<string> := [];
    var jobs: map<string, Job> := map[];
    var warnings: seq<string> := [];
    var i := 0;
    while i < |entries|
      invariant 0 <= i <= |entries|
      invariant Compile(entries[..i], only) == Ok(Table(order, jobs, warnings))
    {
      assert entries[..i + 1][..i] == entries[..i];
      var n := Normalize(entries[i]);
      if n.Err? {
        CompileErrSticks(entries, i + 1, only);
        return Err(n.error);
      }
      if n.value.Service? {
        var key, job := n.value.key, n.value.job;
        if key in jobs {
          var merged := Merge(jobs[key], job);
          if merged.Err? {
            CompileErrSticks(entries, i + 1, only);
            return Err(merged.error);
          }
          if jobs[key].image != job.image {
            warnings := warnings + [key];
          }
          jobs := jobs[key := merged.value];
        } else if Admits(only, key) {
          order := order + [key];
          jobs := jobs[key := job];
        }
      }
      i := i + 1;
    }
    assert entries[..i] == entries;
    return Ok(Table(order, jobs, warnings));
  }

  /** An exception on a prefix of the entries is the exception of the whole loop. */
  lemma {:induction false} CompileErrSticks(entries: seq<Entry>, i: nat, only: Option<string>)
    requires i <= |entries| && Compile(entries[..i], only).Err?
    ensures Compile(entries, only) == Compile(entries[..i], only)
    decreases |entries| - i
  {
    if i < |entries| {
      assert entries[..i + 1][..i] == entries[..i];
      CompileErrSticks(entries, i + 1, only);
    } else {
      assert entries[..i] == entries;
    }
  }

  // ------------------------------------------------------------ the table's invariant

  predicate Distinct(s: seq<string>) {
    forall i, j :: 0 <= i < j < |s| ==> s[i] != s[j]
  }

  /** The dict's keys are exactly the listed ones, each listed once. */
  predicate Valid(t: Table) {
    Distinct(t.order) && t.jobs.Keys == set k | k in t.order
  }

  lemma AddValid(t: Table, e: Entry, only: Option<string>)
    requires Valid(t) && Add(t, e, only).Ok?
    ensures Valid(Add(t, e, only).value)
  {
  }

  /** Every compiled table lists each of its config volumes exactly once. */
  lemma {:induction false} CompileValid(entries: seq<Entry>, only: Option<string>)
    requires Compile(entries, only).Ok?
    ensures Valid(Compile(entries, only).value)
    decreases |entries|
  {
    if entries != [] {
      CompileValid(entries[..|entries| - 1], only);
      AddValid(Compile(entries[..|entries| - 1], only).value, entries[|entries| - 1], only);
    }
  }

  /** With CONFIG_VOLUME set, the table holds at most that one config volume. */
  lemma {:induction false} CompileFilter(entries: seq<Entry>, only: Option<string>)
    requires Compile(entries, only).Ok? && only.Some? && only.value != ""
    ensures forall k :: k in Compile(entries, only).value.jobs ==> k == only.value
    ensures |Compile(entries, only).value.order| <= 1
    decreases |entries|
  {
    var t := Compile(entries, only).value;
    if entries != [] {
      CompileFilter(entries[..|entries| - 1], only);
    }
    CompileValid(entries, only);
    assert |t.order| > 1 ==> t.order[0] in t.jobs && t.order[1] in t.jobs && t.order[0] != t.order[1];
  }

  /** Every stored config volume passed the filter when it was first added. */
  lemma {:induction false} CompileAdmitted(entries: seq<Entry>, only: Option<string>, k: string)
    requires Compile(entries, only).Ok? && k in Compile(entries, only).value.jobs
    ensures Admits(only, k)
    decreases |entries|
  {
    var init := entries[..|entries| - 1];
    if k in Compile(init, only).value.jobs {
      CompileAdmitted(init, only, k);
    }
  }

  // ------------------------------------------------ the per-key reference definition

  /** The job the entry contributes to config volume `k`, if it is kept and admitted. */
  function Contribution(e: Entry, only: Option<string>, k: string): Option<Job> {
    match Normalize(e)
    case Ok(Service(key, job)) => if key == k && Admits(only, k) then Some(job) else None
    case _ => None
  }

  /** The first contribution to `k`: the entry whose list is stored. */
  function FirstFor(entries: seq<Entry>, only: Option<string>, k: string): Option<Job> {
    if entries == [] then None
    else
      var before := FirstFor(entries[..|entries| - 1], only, k);
      if before.Some? then before else Contribution(entries[|entries| - 1], only, k)
  }

  /** The manifests contributed to `k`, in order. */
  function ManifestsFor(entries: seq<Entry>, only: Option<string>, k: string): seq<string> {
    if entries == [] then []
    else
      var c := Contribution(entries[|entries| - 1], only, k);
      ManifestsFor(entries[..|entries| - 1], only, k) + (if c.Some? then [c.value.manifest] else [])
  }

  /** The volumes contributed to `k`, concatenated in order. */
  function VolumesFor(entries: seq<Entry>, only: Option<string>, k: string): seq<string> {
    if entries == [] then []
    else
      var c := Contribution(entries[|entries| - 1], only, k);
      VolumesFor(entries[..|entries| - 1], only, k) + (if c.Some? then c.value.Volumes() else [])
  }

  /** The non-empty tags of the contributions after the first, in order. */
  function LaterTags(entries: seq<Entry>, only: Option<string>, k: string): seq<string> {
    if entries == [] then []
    else
      var c := Contribution(entries[|entries| - 1], only, k);
      var init := entries[..|entries| - 1];
      LaterTags(init, only, k)
        + (if FirstFor(init, only, k).Some? && c.Some? && c.value.Tags() != "" then [c.value.Tags()] else [])
  }

  /** The keys of the admitted contributions, in entry order, repeats included. */
  function AdmittedKeys(entries: seq<Entry>, only: Option<string>): seq<string> {
    if entries == [] then []
    else
      var n := Normalize(entries[|entries| - 1]);
      AdmittedKeys(entries[..|entries| - 1], only)
        + (if n.Ok? && n.value.Service? && Admits(only, n.value.key) then [n.value.key] else [])
  }

  /** The first occurrence of each element, in order. */
  function Dedup(s: seq<string>): seq<string> {
    if s == [] then []
    else
      var d := Dedup(s[..|s| - 1]);
      if s[|s| - 1] in d then d else d + [s[|s| - 1]]
  }

  lemma {:induction false} DedupMembers(s: seq<string>)
    ensures forall x :: x in Dedup(s) <==> x in s
  {
    if s != [] {
      DedupMembers(s[..|s| - 1]);
      assert s == s[..|s| - 1] + [s[|s| - 1]];
    }
  }

  /** How one entry changes the stored list of `k`: untouched, merged into, or created. */
  lemma AddAt(t: Table, e: Entry, only: Option<string>, k: string)
    requires Add(t, e, only).Ok? && (k in t.jobs ==> Admits(only, k))
    ensures Contribution(e, only, k).None? ==>
      (k in Add(t, e, only).value.jobs <==> k in t.jobs)
      && (k in t.jobs ==> Add(t, e, only).value.jobs[k] == t.jobs[k])
    ensures Contribution(e, only, k).Some? && k in t.jobs ==>
      Merge(t.jobs[k], Contribution(e, only, k).value).Ok?
      && Add(t, e, only).value.jobs[k] == Merge(t.jobs[k], Contribution(e, only, k).value).value
    ensures Contribution(e, only, k).Some? && k !in t.jobs ==>
      k in Add(t, e, only).value.jobs && Add(t, e, only).value.jobs[k] == Contribution(e, only, k).value
  {
  }

  /** How one entry changes the order: it appends a key exactly when it creates one. */
  lemma AddOrder(t: Table, e: Entry, only: Option<string>)
    requires Add(t, e, only).Ok?
    ensures var n := Normalize(e);
      Add(t, e, only).value.order
        == t.order + (if n.Ok? && n.value.Service? && Admits(only, n.value.key) && n.value.key !in t.jobs
                      then [n.value.key] else [])
  {
  }

  /**
   * A merge fails only on volumes: incoming volumes meet a stored slot that is missing
   * (IndexError) or null (AttributeError). The images play no part, and a merge keeps the
   * stored image and flags.
   */
  lemma MergeErr(stored: Job, incoming: Job)
    ensures Merge(stored, incoming).Err? <==>
      incoming.Volumes() != [] && !(stored.volumes.Some? && stored.volumes.value.List?)
    ensures Merge(stored, incoming).Ok? ==>
      Merge(stored, incoming).value.image == stored.image
      && Merge(stored, incoming).value.privileged == stored.privileged
      && Merge(stored, incoming).value.keepContainer == stored.keepContainer
  {
  }

  /**
   * An entry for a stored config volume fails exactly when its merge does; otherwise the
   * stored image stays and a differing image only appends the key to the warnings.
   */
  lemma AddMergeImage(t: Table, e: Entry, only: Option<string>)
    requires Normalize(e).Ok? && Normalize(e).value.Service? && Normalize(e).value.key in t.jobs
    ensures var key, job := Normalize(e).value.key, Normalize(e).value.job;
      Add(t, e, only).Ok? <==> Merge(t.jobs[key], job).Ok?
    ensures var key, job := Normalize(e).value.key, Normalize(e).value.job;
      Add(t, e, only).Ok? ==>
        Add(t, e, only).value.jobs[key].image == t.jobs[key].image
        && Add(t, e, only).value.imageWarnings
           == t.imageWarnings + (if t.jobs[key].image != job.image then [key] else [])
  {
    MergeErr(t.jobs[Normalize(e).value.key], Normalize(e).value.job);
  }

  /** An entry for a new config volume that CONFIG_VOLUME refuses leaves the table as it is. */
  lemma AddRefused(t: Table, e: Entry, only: Option<string>)
    requires Normalize(e).Ok? && Normalize(e).value.Service?
    requires Normalize(e).value.key !in t.jobs && !Admits(only, Normalize(e).value.key)
    ensures Add(t, e, only) == Ok(t)
  {
  }

  /**
   * Whether entry `i` raises, in terms of the entries before it: it is a short positional
   * list, or it brings volumes to a config volume whose first contribution has no volumes
   * slot or a null one. An image that differs from the stored one never raises.
   */
  predicate Raises(entries: seq<Entry>, i: nat, only: Option<string>)
    requires i < |entries|
  {
    match Normalize(entries[i])
    case Err(_) => true
    case Ok(Skip) => false
    case Ok(Service(key, job)) =>
      var first := FirstFor(entries[..i], only, key);
      first.Some? && job.Volumes() != [] && !(first.value.volumes.Some? && first.value.volumes.value.List?)
  }

  /** The keys whose later contributions brought an image other than the stored one, in order. */
  function ImageWarnings(entries: seq<Entry>, only: Option<string>): seq<string> {
    if entries == [] then []
    else
      var init := entries[..|entries| - 1];
      var n := Normalize(entries[|entries| - 1]);
      ImageWarnings(init, only)
        + (if n.Ok? && n.value.Service? && FirstFor(init, only, n.value.key).Some?
              && FirstFor(init, only, n.value.key).value.image != n.value.job.image
           then [n.value.key] else [])
  }

  /** The entries before the last one raise exactly as they do on their own. */
  lemma RaisesInit(entries: seq<Entry>, only: Option<string>)
    requires entries != []
    ensures forall i :: 0 <= i < |entries| - 1 ==>
      (Raises(entries, i, only) <==> Raises(entries[..|entries| - 1], i, only))
  {
    var init := entries[..|entries| - 1];
    forall i | 0 <= i < |init| ensures Raises(entries, i, only) <==> Raises(init, i, only) {
      assert entries[..i] == init[..i];
      assert entries[i] == init[i];
    }
  }

  /** Compilation succeeds exactly when no entry raises. */
  lemma {:induction false} CompileOkIff(entries: seq<Entry>, only: Option<string>)
    ensures Compile(entries, only).Ok? <==> forall i :: 0 <= i < |entries| ==> !Raises(entries, i, only)
    decreases |entries|
  {
    if entries != [] {
      var init := entries[..|entries| - 1];
      var last := |entries| - 1;
      CompileOkIff(init, only);
      RaisesInit(entries, only);
      assert entries[..last] == init;
      if Compile(init, only).Ok? {
        var t := Compile(init, only).value;
        var n := Normalize(entries[last]);
        if n.Ok? && n.value.Service? {
          CompileFirstWins(init, only, n.value.key);
          if n.value.key in t.jobs {
            MergeErr(t.jobs[n.value.key], n.value.job);
          }
        }
        assert Compile(entries, only).Ok? <==> !Raises(entries, last, only);
      } else {
        var i :| 0 <= i < |init| && Raises(init, i, only);
        assert Raises(entries, i, only);
      }
    }
  }

  /** The warnings of a compiled table name the later contributions with a differing image. */
  lemma {:induction false} CompileWarnings(entries: seq<Entry>, only: Option<string>)
    requires Compile(entries, only).Ok?
    ensures Compile(entries, only).value.imageWarnings == ImageWarnings(entries, only)
    decreases |entries|
  {
    if entries != [] {
      var init := entries[..|entries| - 1];
      var t := Compile(init, only).value;
      var n := Normalize(entries[|entries| - 1]);
      CompileWarnings(init, only);
      if n.Ok? && n.value.Service? {
        CompileFirstWins(init, only, n.value.key);
        if n.value.key in t.jobs {
          AddMergeImage(t, entries[|entries| - 1], only);
        } else {
          assert ImageWarnings(entries, only) == ImageWarnings(init, only) + [];
        }
      } else {
        assert ImageWarnings(entries, only) == ImageWarnings(init, only) + [];
      }
    }
  }

  /** A key that CONFIG_VOLUME refuses never has a first contribution. */
  lemma {:induction false} FirstForRefused(entries: seq<Entry>, only: Option<string>, k: string)
    requires !Admits(only, k)
    ensures FirstFor(entries, only, k).None?
    decreases |entries|
  {
    if entries != [] {
      FirstForRefused(entries[..|entries| - 1], only, k);
    }
  }

  /**
   * A skipped entry, or one whose config volume CONFIG_VOLUME refuses, is ignored without
   * error: appending it changes neither the outcome nor the table.
   */
  lemma CompileIgnores(entries: seq<Entry>, e: Entry, only: Option<string>)
    requires Normalize(e) == Ok(Skip) || (Normalize(e).Ok? && Normalize(e).value.Service? && !Admits(only, Normalize(e).value.key))
    ensures Compile(entries + [e], only) == Compile(entries, only)
  {
    assert (entries + [e])[..|entries|] == entries;
    if Compile(entries, only).Ok? && Normalize(e).value.Service? {
      var key := Normalize(e).value.key;
      if key in Compile(entries, only).value.jobs {
        CompileAdmitted(entries, only, key);
      }
      AddRefused(Compile(entries, only).value, e, only);
    }
  }

  /**
   * Whether the module-level name `config_volume` is bound after the loops: line 255 binds
   * it for every non-null entry, and the loops at lines 449 and 478 run only over stored
   * config volumes.
   */
  predicate ConfigVolumeBound(entries: seq<Entry>) {
    exists i :: 0 <= i < |entries| && !entries[i].NullEntry?
  }

  /** Without a non-null entry nothing is stored, so no later loop binds the name either. */
  lemma {:induction false} UnboundCompilesEmpty(entries: seq<Entry>, only: Option<string>)
    requires !ConfigVolumeBound(entries)
    ensures Compile(entries, only) == Ok(EmptyTable)
    decreases |entries|
  {
    if entries != [] {
      var init := entries[..|entries| - 1];
      assert !ConfigVolumeBound(init) by {
        forall i | 0 <= i < |init| ensures init[i].NullEntry? {
          assert init[i] == entries[i];
        }
      }
      UnboundCompilesEmpty(init, only);
      assert entries[|entries| - 1].NullEntry?;
    }
  }

  /**
   * A config volume is in the table exactly when some entry contributes to it; the
   * stored list is the first contribution's, so its image, privileged and keep_container
   * values win over later entries (a differing image only adds a warning), and its
   * volumes slot stays missing, null or a list as the first entry gave it.
   */
  lemma {:induction false} CompileFirstWins(entries: seq<Entry>, only: Option<string>, k: string)
    requires Compile(entries, only).Ok?
    ensures k in Compile(entries, only).value.jobs <==> FirstFor(entries, only, k).Some?
    ensures k in Compile(entries, only).value.jobs ==>
      Compile(entries, only).value.jobs[k].image == FirstFor(entries, only, k).value.image
      && Compile(entries, only).value.jobs[k].privileged == FirstFor(entries, only, k).value.privileged
      && Compile(entries, only).value.jobs[k].keepContainer == FirstFor(entries, only, k).value.keepContainer
      && (Compile(entries, only).value.jobs[k].volumes.None? <==> FirstFor(entries, only, k).value.volumes.None?)
      && (Compile(entries, only).value.jobs[k].volumes == Some(NullList) <==>
          FirstFor(entries, only, k).value.volumes == Some(NullList))
    decreases |entries|
  {
    if entries != [] {
      var init := entries[..|entries| - 1];
      CompileFirstWins(init, only, k);
      if k in Compile(init, only).value.jobs {
        CompileAdmitted(init, only, k);
      }
      AddAt(Compile(init, only).value, entries[|entries| - 1], only, k);
    }
  }

  /** A config volume's manifest is its contributions' manifests joined with newlines. */
  lemma {:induction false} CompileManifest(entries: seq<Entry>, only: Option<string>, k: string)
    requires Compile(entries, only).Ok? && k in Compile(entries, only).value.jobs
    ensures ManifestsFor(entries, only, k) != []
    ensures Compile(entries, only).value.jobs[k].manifest == Join(ManifestsFor(entries, only, k), "\n")
    decreases |entries|
  {
    var init := entries[..|entries| - 1];
    var t := Compile(init, only).value;
    var c := Contribution(entries[|entries| - 1], only, k);
    CompileAdmitted(entries, only, k);
    AddAt(t, entries[|entries| - 1], only, k);
    NormalizeSpec(entries[|entries| - 1]);
    if k in t.jobs {
      CompileManifest(init, only, k);
      if c.Some? {
        JoinSnoc(ManifestsFor(init, only, k), c.value.manifest, "\n");
      } else {
        assert Compile(entries, only) == Add(t, entries[|entries| - 1], only);
        assert Compile(entries, only).value.jobs[k] == t.jobs[k];
        assert ManifestsFor(entries, only, k) == ManifestsFor(init, only, k) + [];
        assert ManifestsFor(entries, only, k) == ManifestsFor(init, only, k);
      }
    } else {
      CompileFirstWins(init, only, k);
      CompileNoContribution(init, only, k);
      assert ManifestsFor(entries, only, k) == [] + [c.value.manifest];
    }
  }

  /** A config volume's volumes are its contributions' volumes, concatenated in order. */
  lemma {:induction false} CompileVolumes(entries: seq<Entry>, only: Option<string>, k: string)
    requires Compile(entries, only).Ok? && k in Compile(entries, only).value.jobs
    ensures Compile(entries, only).value.jobs[k].Volumes() == VolumesFor(entries, only, k)
    decreases |entries|
  {
    var init := entries[..|entries| - 1];
    var t := Compile(init, only).value;
    var c := Contribution(entries[|entries| - 1], only, k);
    CompileAdmitted(entries, only, k);
    AddAt(t, entries[|entries| - 1], only, k);
    if k in t.jobs {
      CompileVolumes(init, only, k);
      if c.None? || c.value.Volumes() == [] {
        assert VolumesFor(entries, only, k) == VolumesFor(init, only, k) + [];
      }
    } else {
      CompileFirstWins(init, only, k);
      CompileNoContribution(init, only, k);
      assert VolumesFor(entries, only, k) == [] + c.value.Volumes();
    }
  }

  /**
   * Tags: with no later non-empty tags the stored raw slot stays as it was; otherwise it
   * becomes the first slot rendered with '%s' (so a null first slot reads "None"), then
   * ',' and the later tags joined with ','.
   */
  lemma {:induction false} CompileTags(entries: seq<Entry>, only: Option<string>, k: string)
    requires Compile(entries, only).Ok? && k in Compile(entries, only).value.jobs
    ensures FirstFor(entries, only, k).Some?
    ensures LaterTags(entries, only, k) == [] ==>
      Compile(entries, only).value.jobs[k].tags == FirstFor(entries, only, k).value.tags
    ensures LaterTags(entries, only, k) != [] ==>
      Compile(entries, only).value.jobs[k].tags
        == Some(PyStr(FirstFor(entries, only, k).value.tags) + "," + Join(LaterTags(entries, only, k), ","))
    decreases |entries|
  {
    CompileFirstWins(entries, only, k);
    var init := entries[..|entries| - 1];
    var t := Compile(init, only).value;
    var c := Contribution(entries[|entries| - 1], only, k);
    CompileAdmitted(entries, only, k);
    AddAt(t, entries[|entries| - 1], only, k);
    if k in t.jobs {
      CompileTags(init, only, k);
      CompileFirstWins(init, only, k);
      var lt := LaterTags(init, only, k);
      assert FirstFor(entries, only, k) == FirstFor(init, only, k);
      if c.Some? {
        MergeTags(t.jobs[k], FirstFor(init, only, k).value.tags, lt, c.value);
      }
      if c.Some? && c.value.Tags() != "" {
        assert LaterTags(entries, only, k) == lt + [c.value.Tags()];
      } else {
        assert LaterTags(entries, only, k) == lt + [];
        assert LaterTags(entries, only, k) == lt;
      }
    } else {
      CompileFirstWins(init, only, k);
      CompileNoContribution(init, only, k);
      LaterTagsNone(init, only, k);
      assert LaterTags(entries, only, k) == [] + [];
    }
  }

  /** One merge step of the tags slot, against the first slot and the later tags so far. */
  lemma MergeTags(stored: Job, first: Option<string>, later: seq<string>, incoming: Job)
    requires Merge(stored, incoming).Ok?
    requires later == [] ==> stored.tags == first
    requires later != [] ==> stored.tags == Some(PyStr(first) + "," + Join(later, ","))
    ensures incoming.Tags() == "" ==> Merge(stored, incoming).value.tags == stored.tags
    ensures incoming.Tags() != "" ==>
      Merge(stored, incoming).value.tags == Some(PyStr(first) + "," + Join(later + [incoming.Tags()], ","))
  {
    if incoming.Tags() != "" {
      if later != [] {
        var a, j, ct := PyStr(first), Join(later, ","), incoming.Tags();
        JoinSnoc(later, ct, ",");
        assert Merge(stored, incoming).value.tags == Some(a + "," + j + "," + ct);
        assert a + "," + j + "," + ct == a + "," + (j + "," + ct);
      } else {
        assert later + [incoming.Tags()] == [incoming.Tags()];
      }
    }
  }

  /** Before the first contribution there are no manifests, volumes or tags for `k`. */
  lemma {:induction false} CompileNoContribution(entries: seq<Entry>, only: Option<string>, k: string)
    requires FirstFor(entries, only, k).None?
    ensures ManifestsFor(entries, only, k) == [] && VolumesFor(entries, only, k) == []
    decreases |entries|
  {
    if entries != [] {
      CompileNoContribution(entries[..|entries| - 1], only, k);
    }
  }

  lemma {:induction false} LaterTagsNone(entries: seq<Entry>, only: Option<string>, k: string)
    requires FirstFor(entries, only, k).None?
    ensures LaterTags(entries, only, k) == []
    decreases |entries|
  {
    if entries != [] {
      LaterTagsNone(entries[..|entries| - 1], only, k);
    }
  }

  /** `configs` lists the admitted config volumes in the order they first appear. */
  lemma {:induction false} CompileOrder(entries: seq<Entry>, only: Option<string>)
    requires Compile(entries, only).Ok?
    ensures Compile(entries, only).value.order == Dedup(AdmittedKeys(entries, only))
    decreases |entries|
  {
    if entries != [] {
      var init := entries[..|entries| - 1];
      var t := Compile(init, only).value;
      CompileOrder(init, only);
      CompileValid(init, only);
      var before := AdmittedKeys(init, only);
      DedupMembers(before);
      var n := Normalize(entries[|entries| - 1]);
      if !(n.Ok? && n.value.Service? && Admits(only, n.value.key)) {
        AddOrder(t, entries[|entries| - 1], only);
        assert AdmittedKeys(entries, only) == before + [];
        assert AdmittedKeys(entries, only) == before;
        assert Compile(entries, only).value.order == t.order + [];
        assert Compile(entries, only).value.order == t.order;
      } else {
        var key := n.value.key;
        AddOrder(t, entries[|entries| - 1], only);
        var s := AdmittedKeys(entries, only);
        assert s == before + [key];
        assert s[..|s| - 1] == before;
        assert (key in Dedup(before)) == (key in t.jobs);
        if key in t.jobs {
          assert Compile(entries, only).value.order == t.order;
        } else {
          assert Compile(entries, only).value.order == t.order + [key];
        }
      }
    }
  }

  /** A null first tags slot leaks into the merged tags as the word "None". */
  lemma NullTagsMerge(manifest: string, image: string, later: string)
    requires manifest != "" && image != "" && later != ""
    ensures Merge(Job(None, manifest, image, Some(List([])), false, false), Job(Some(later), manifest, image, Some(List([])), false, false))
      == Ok(Job(Some("None," + later), manifest + "\n" + manifest, image, Some(List([])), false, false))
  {
    assert "None" + "," == "None,";
  }

  /** A four-slot positional entry followed by one with volumes for the same volume fails. */
  lemma FourSlotsThenVolumes(v: string, m: string, i: string, vol: string)
    requires m != "" && i != ""
    ensures Compile([ListEntry(Some(v), None, Some(m), Some(i), FourSlots),
                     ListEntry(Some(v), None, Some(m), Some(i), FiveSlots(List([vol])))], None) == Err(IndexError)
  {
    var es := [ListEntry(Some(v), None, Some(m), Some(i), FourSlots),
               ListEntry(Some(v), None, Some(m), Some(i), FiveSlots(List([vol])))];
    var first := Job(None, m, i, None, false, false);
    assert es[..1][..0] == [];
    assert Normalize(es[0]) == Ok(Service(v, first));
    assert Add(EmptyTable, es[0], None) == Ok(Table([] + [v], map[][v := first], []));
    assert [] + [v] == [v];
    assert Compile(es[..1], None) == Ok(Table([v], map[v := first], []));
    assert es[..|es| - 1] == es[..1];
    assert Normalize(es[1]) == Ok(Service(v, Job(None, m, i, Some(List([vol])), false, false)));
  }

  /** A dict entry with `volumes: null` followed by one with volumes for the same volume fails. */
  lemma NullThenVolumes(v: string, m: string, i: string, vol: string)
    requires m != "" && i != ""
    ensures Compile([DictEntry(Some(v), None, Some(m), Some(i), Some(NullList), None, None),
                     DictEntry(Some(v), None, Some(m), Some(i), Some(List([vol])), None, None)], None)
            == Err(AttributeError)
  {
    var es := [DictEntry(Some(v), None, Some(m), Some(i), Some(NullList), None, None),
               DictEntry(Some(v), None, Some(m), Some(i), Some(List([vol])), None, None)];
    var first := Job(None, m, i, Some(NullList), false, false);
    assert es[..1][..0] == [];
    assert Normalize(es[0]) == Ok(Service(v, first));
    assert Add(EmptyTable, es[0], None) == Ok(Table([] + [v], map[][v := first], []));
    assert [] + [v] == [v];
    assert Compile(es[..1], None) == Ok(Table([v], map[v := first], []));
    assert es[..|es| - 1] == es[..1];
    assert Normalize(es[1]) == Ok(Service(v, Job(None, m, i, Some(List([vol])), false, false)));
  }

  // ---------------------------------------------------------------- the process map

  /** "file,file_line,concat,augeas,cron" */
  const BaseTags := "file" + "," + "file_line" + "," + "concat" + "," + "augeas" + "," + "cron"

  /** Lines 459-462: the resource types every run manages, then the service's own tags. */
  function PuppetTags(tags: string): string {
    if tags != "" then BaseTags + "," + tags else BaseTags
  }

  lemma SplitFive(a: string, b: string, c: string, d: string, e: string)
    requires ',' !in a && ',' !in b && ',' !in c && ',' !in d && ',' !in e
    ensures Split(a + [','] + b + [','] + c + [','] + d + [','] + e, ',') == [a, b, c, d, e]
  {
    SplitNoSep(a, ',');
    SplitNoSep(b, ',');
    SplitNoSep(c, ',');
    SplitNoSep(d, ',');
    SplitNoSep(e, ',');
    var ab := a + [','] + b;
    var abc := ab + [','] + c;
    var abcd := abc + [','] + d;
    SplitAppend(a, b, ',');
    SplitAppend(ab, c, ',');
    SplitAppend(abc, d, ',');
    SplitAppend(abcd, e, ',');
  }

  /** The tag list puppet sees: the five built-in types first, then the service's tags. */
  lemma PuppetTagsSplit(tags: string)
    ensures Split(PuppetTags(tags), ',')
      == ["file", "file_line", "concat", "augeas", "cron"] + (if tags == "" then [] else Split(tags, ','))
  {
    SplitFive("file", "file_line", "concat", "augeas", "cron");
    if tags != "" {
      SplitAppend(BaseTags, tags, ',');
      assert BaseTags + "," + tags == BaseTags + [','] + tags;
    }
  }

  /** The argument list of `mp_puppet_config` for one config volume. */
  datatype Task = Task(configVolume: string, puppetTags: string, manifest: string, image: string,
                       volumes: seq<string>, privileged: bool, checkMode: int, keepContainer: bool)

  /** Lines 451-465 for one stored list. */
  function TaskFor(key: string, job: Job, checkMode: int): Task {
    Task(key, PuppetTags(job.Tags()), job.manifest, job.image, job.Volumes(), job.privileged, checkMode, job.keepContainer)
  }

  /** The loop at lines 449-465: one task per config volume, in the dict's order. */
  method BuildProcessMap(t: Table, checkMode: int) returns (tasks: seq<Task>)
    requires Valid(t)
    ensures |tasks| == |t.order|
    ensures forall i :: 0 <= i < |tasks| ==> tasks[i] == TaskFor(t.order[i], t.jobs[t.order[i]], checkMode)
  {
    tasks := [];
    var i := 0;
    while i < |t.order|
      invariant 0 <= i <= |t.order|
      invariant |tasks| == i
      invariant forall j :: 0 <= j < i ==> tasks[j] == TaskFor(t.order[j], t.jobs[t.order[j]], checkMode)
    {
      var key := t.order[i];
      tasks := tasks + [TaskFor(key, t.jobs[key], checkMode)];
      i := i + 1;
    }
  }

  /** The tasks of a compiled table name distinct config volumes, one per table entry. */
  lemma ProcessMapVolumes(t: Table, checkMode: int, tasks: seq<Task>)
    requires Valid(t) && |tasks| == |t.order|
    requires forall i :: 0 <= i < |tasks| ==> tasks[i] == TaskFor(t.order[i], t.jobs[t.order[i]], checkMode)
    ensures forall i, j :: 0 <= i < j < |tasks| ==> tasks[i].configVolume != tasks[j].configVolume
    ensures forall i :: 0 <= i < |tasks| ==> tasks[i].configVolume in t.jobs
  {
  }
}
