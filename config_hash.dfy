/**
 * The startup-config hash stamping pass of container-puppet.py: resolving each mounted
 * volume to the config base it belongs to (`get_config_base`, `match_config_volumes`),
 * joining the md5 sidecars of those bases into one hash, writing it into the descriptor's
 * environment as TRIPLEO_CONFIG_HASH and naming the result `hashed-<basename>`.
 *
 * Files are modelled as values: a startup-config file is its path and its parsed body;
 * the `.md5sum` sidecars are a map from sidecar path to file content.
 */
module ConfigHash {
  import opened Wrappers
  import opened Strs
  import opened PosixPath

  const HashKey := "TRIPLEO_CONFIG_HASH"
  const HashedMarker := "hashed"
  const HashedPrefix := "hashed-"
  const SidecarSuffix := ".md5sum"
  const GeneratedDir := "puppet-generated"
  const DefaultPrefix := "/var/lib/config-data"

  /** How one call of `get_config_base` ends. */
  datatype BaseResult =
    | Found(base: string)   // the path whose parent is the prefix or its puppet-generated dir
    | NoBase                // the walk left the prefix: ValueError
    | Hangs                 // dirname(path) == path inside the prefix: the source loops forever

  /** Why the stamping pass stops: the exceptions the source lets escape, and divergence. */
  datatype Failure =
    | ValueError(volume: string)   // get_config_base found no base for this host path
    | NeverReturns                 // get_config_base would spin forever
    | AttributeError               // the file's JSON body is a non-empty non-object
    | TypeError                    // the descriptor's `volumes` is JSON null, which cannot be iterated
    | NameError                    // the log message of a non-empty hash names an unbound `config_volume`

  // ------------------------------------------------------------ get_config_base

  function Base(prefix: string): string {
    RStripChar(prefix, '/')
  }

  function GeneratedBase(prefix: string): string {
    JoinPath(Base(prefix), GeneratedDir)
  }

  /** The walk of `get_config_base` from `path` upwards. */
  function Walk(prefix: string, base: string, generated: string, path: string): BaseResult
    decreases |path|
  {
    if !StartsWith(path, prefix) then NoBase
    else
      var parent := Dirname(path);
      if parent == base || parent == generated then Found(path)
      else if parent == path then Hangs
      else
        DirnameFixpoint(path);
        Walk(prefix, base, generated, parent)
  }

  /** `get_config_base(prefix, volume)` as a value. */
  function ConfigBase(prefix: string, volume: string): BaseResult {
    Walk(prefix, Base(prefix), GeneratedBase(prefix), volume)
  }

  /** The loop of `get_config_base`, walking `path` upwards one `dirname` at a time. */
  method GetConfigBase(prefix: string, volume: string) returns (r: BaseResult)
    ensures r == ConfigBase(prefix, volume)
  {
    var path := volume;
    var base := RStripChar(prefix, '/');
    var generated := JoinPath(base, GeneratedDir);
    while StartsWith(path, prefix)
      invariant Walk(prefix, base, generated, path) == ConfigBase(prefix, volume)
      decreases |path|
    {
      var parent := Dirname(path);
      if parent == base || parent == generated {
        return Found(path);
      }
      if parent == path {
        // the source keeps reassigning the same path here and never leaves the loop
        return Hangs;
      }
      DirnameFixpoint(path);
      path := parent;
    }
    return NoBase;
  }

  lemma StartsWithTrans(a: string, b: string, c: string)
    requires StartsWith(a, b) && StartsWith(b, c)
    ensures StartsWith(a, c)
  {
    assert a[..|c|] == a[..|b|][..|c|];
  }

  /** `n` steps of the walk upwards: `dirname` applied `n` times. */
  function Up(path: string, n: nat): string
    decreases n
  {
    if n == 0 then path else Up(Dirname(path), n - 1)
  }

  /** A path the loop steps past: under the prefix, and its parent is neither base. */
  predicate Passes(prefix: string, base: string, generated: string, path: string) {
    StartsWith(path, prefix) && Dirname(path) != base && Dirname(path) != generated
  }

  /** A path the loop returns: under the prefix, with one of the two bases as its parent. */
  predicate Matches(prefix: string, base: string, generated: string, path: string) {
    StartsWith(path, prefix) && (Dirname(path) == base || Dirname(path) == generated)
  }

  /** The loop stepped past each of the first `n` paths of the walk from `path`. */
  predicate PassedBelow(prefix: string, base: string, generated: string, path: string, n: nat) {
    forall j: nat :: j < n ==> Passes(prefix, base, generated, Up(path, j))
  }

  /** Passing `path` and then `n` paths from its parent is passing `n + 1` paths from `path`. */
  lemma PassedShift(prefix: string, base: string, generated: string, path: string, n: nat)
    ensures PassedBelow(prefix, base, generated, path, n + 1) <==>
      Passes(prefix, base, generated, path) && PassedBelow(prefix, base, generated, Dirname(path), n)
  {
    if PassedBelow(prefix, base, generated, path, n + 1) {
      assert Passes(prefix, base, generated, Up(path, 0));
      forall j: nat | j < n ensures Passes(prefix, base, generated, Up(Dirname(path), j)) {
        assert Up(path, j + 1) == Up(Dirname(path), j);
      }
    }
    if Passes(prefix, base, generated, path) && PassedBelow(prefix, base, generated, Dirname(path), n) {
      forall j: nat | j < n + 1 ensures Passes(prefix, base, generated, Up(path, j)) {
        if j > 0 { assert Up(path, j) == Up(Dirname(path), j - 1); }
      }
    }
  }

  /** Every path above a fixpoint of `dirname` is that path again. */
  lemma {:induction false} UpFixpoint(path: string, n: nat)
    requires Dirname(path) == path
    ensures Up(path, n) == path
  {
    if n > 0 {
      UpFixpoint(path, n - 1);
    }
  }

  /**
   * `Found(b)` is the FIRST match on the upward walk: `b` is `volume` after some number
   * of `dirname` steps, it matches, and the walk stepped past every path before it.
   */
  lemma {:induction false} WalkFirst(prefix: string, base: string, generated: string, path: string)
    requires Walk(prefix, base, generated, path).Found?
    ensures exists n: nat ::
      Up(path, n) == Walk(prefix, base, generated, path).base
      && Matches(prefix, base, generated, Up(path, n)) && PassedBelow(prefix, base, generated, path, n)
    decreases |path|
  {
    var b := Walk(prefix, base, generated, path).base;
    if Matches(prefix, base, generated, path) {
      assert Up(path, 0) == b && PassedBelow(prefix, base, generated, path, 0);
    } else {
      var parent := Dirname(path);
      DirnameFixpoint(path);
      WalkFirst(prefix, base, generated, parent);
      var m: nat :| Up(parent, m) == b && Matches(prefix, base, generated, Up(parent, m))
        && PassedBelow(prefix, base, generated, parent, m);
      PassedShift(prefix, base, generated, path, m);
      assert Up(path, m + 1) == b;
    }
  }

  /** Conversely, the first match on the upward walk is what the walk returns. */
  lemma {:induction false} FirstWalks(prefix: string, base: string, generated: string, path: string, n: nat)
    requires Matches(prefix, base, generated, Up(path, n)) && PassedBelow(prefix, base, generated, path, n)
    ensures Walk(prefix, base, generated, path) == Found(Up(path, n))
    decreases n
  {
    if n > 0 {
      PassedShift(prefix, base, generated, path, n - 1);
      var parent := Dirname(path);
      if parent == path {
        UpFixpoint(path, n);
        assert false;
      }
      DirnameFixpoint(path);
      FirstWalks(prefix, base, generated, parent, n - 1);
    }
  }

  /** A walk that leaves the prefix after stepping past `n` paths ends in `NoBase`. */
  lemma {:induction false} ExitNoBase(prefix: string, base: string, generated: string, path: string, n: nat)
    requires !StartsWith(Up(path, n), prefix) && PassedBelow(prefix, base, generated, path, n)
    ensures Walk(prefix, base, generated, path) == NoBase
    decreases n
  {
    if n > 0 {
      PassedShift(prefix, base, generated, path, n - 1);
      var parent := Dirname(path);
      if parent == path {
        UpFixpoint(path, n);
        assert false;
      }
      DirnameFixpoint(path);
      ExitNoBase(prefix, base, generated, parent, n - 1);
    }
  }

  /** A walk that ends in `NoBase` left the prefix after stepping past some `n` paths. */
  lemma {:induction false} NoBaseExit(prefix: string, base: string, generated: string, path: string)
    requires Walk(prefix, base, generated, path) == NoBase
    ensures exists n: nat :: !StartsWith(Up(path, n), prefix) && PassedBelow(prefix, base, generated, path, n)
    decreases |path|
  {
    if !StartsWith(path, prefix) {
      assert !StartsWith(Up(path, 0), prefix) && PassedBelow(prefix, base, generated, path, 0);
    } else {
      var parent := Dirname(path);
      DirnameFixpoint(path);
      NoBaseExit(prefix, base, generated, parent);
      var m: nat :| !StartsWith(Up(parent, m), prefix) && PassedBelow(prefix, base, generated, parent, m);
      PassedShift(prefix, base, generated, path, m);
      assert Up(path, m + 1) == Up(parent, m);
    }
  }

  lemma {:induction false} WalkFound(prefix: string, base: string, generated: string, path: string)
    requires Walk(prefix, base, generated, path).Found?
    ensures var b := Walk(prefix, base, generated, path).base;
      StartsWith(path, b) && StartsWith(b, prefix) && (Dirname(b) == base || Dirname(b) == generated)
    decreases |path|
  {
    var parent := Dirname(path);
    if !(parent == base || parent == generated) {
      DirnameFixpoint(path);
      WalkFound(prefix, base, generated, parent);
      DirnamePrefix(path);
      StartsWithTrans(path, parent, Walk(prefix, base, generated, parent).base);
    } else {
      assert path[..|path|] == path;
    }
  }

  /**
   * A resolved base is an ancestor (or the path itself) of the volume, lies under the
   * prefix, and its parent is the prefix without trailing '/' or `<prefix>/puppet-generated`.
   */
  lemma ConfigBaseFound(prefix: string, volume: string)
    requires ConfigBase(prefix, volume).Found?
    ensures var b := ConfigBase(prefix, volume).base;
      StartsWith(volume, b) && StartsWith(b, prefix)
      && (Dirname(b) == Base(prefix) || Dirname(b) == GeneratedBase(prefix))
    ensures exists n: nat ::
      Up(volume, n) == ConfigBase(prefix, volume).base
      && PassedBelow(prefix, Base(prefix), GeneratedBase(prefix), volume, n)
  {
    WalkFound(prefix, Base(prefix), GeneratedBase(prefix), volume);
    WalkFirst(prefix, Base(prefix), GeneratedBase(prefix), volume);
  }

  /**
   * `get_config_base` returns `b` exactly when `b` is the first path on the upward walk
   * from the volume that lies under the prefix with a base as its parent.
   */
  lemma ConfigBaseFirst(prefix: string, volume: string, b: string)
    ensures ConfigBase(prefix, volume) == Found(b) <==>
      exists n: nat :: Up(volume, n) == b && Matches(prefix, Base(prefix), GeneratedBase(prefix), b)
        && PassedBelow(prefix, Base(prefix), GeneratedBase(prefix), volume, n)
  {
    var base, g := Base(prefix), GeneratedBase(prefix);
    if exists n: nat :: Up(volume, n) == b && Matches(prefix, base, g, b) && PassedBelow(prefix, base, g, volume, n) {
      var n: nat :| Up(volume, n) == b && Matches(prefix, base, g, b) && PassedBelow(prefix, base, g, volume, n);
      FirstWalks(prefix, base, g, volume, n);
    }
    if ConfigBase(prefix, volume) == Found(b) {
      WalkFirst(prefix, base, g, volume);
    }
  }

  /** `get_config_base` raises ValueError exactly when the walk leaves the prefix before any match. */
  lemma ConfigBaseNoBase(prefix: string, volume: string)
    ensures ConfigBase(prefix, volume) == NoBase <==>
      exists n: nat :: !StartsWith(Up(volume, n), prefix)
        && PassedBelow(prefix, Base(prefix), GeneratedBase(prefix), volume, n)
  {
    var base, g := Base(prefix), GeneratedBase(prefix);
    if exists n: nat :: !StartsWith(Up(volume, n), prefix) && PassedBelow(prefix, base, g, volume, n) {
      var n: nat :| !StartsWith(Up(volume, n), prefix) && PassedBelow(prefix, base, g, volume, n);
      ExitNoBase(prefix, base, g, volume, n);
    }
    if ConfigBase(prefix, volume) == NoBase {
      NoBaseExit(prefix, base, g, volume);
    }
  }

  lemma {:induction false} WalkHangs(prefix: string, base: string, generated: string, path: string)
    requires Walk(prefix, base, generated, path).Hangs?
    ensures AllChar(prefix, '/')
    decreases |path|
  {
    var parent := Dirname(path);
    DirnameFixpoint(path);
    if parent == path {
      forall i | 0 <= i < |prefix| ensures prefix[i] == '/' {
        assert prefix[i] == path[..|prefix|][i] == path[i];
      }
    } else {
      WalkHangs(prefix, base, generated, parent);
    }
  }

  /**
   * The walk can only get stuck when the prefix consists of slashes alone (for example
   * CONFIG_VOLUME_PREFIX=/); any prefix holding another character makes it end.
   */
  lemma ConfigBaseHangs(prefix: string, volume: string)
    requires ConfigBase(prefix, volume).Hangs?
    ensures AllChar(prefix, '/')
  {
    WalkHangs(prefix, Base(prefix), GeneratedBase(prefix), volume);
  }

  lemma WalkUp(prefix: string, base: string, generated: string, path: string)
    requires StartsWith(path, prefix) && |Dirname(path)| < |path|
    requires Dirname(path) != base && Dirname(path) != generated
    ensures Walk(prefix, base, generated, path) == Walk(prefix, base, generated, Dirname(path))
  {
  }

  lemma WalkStop(prefix: string, base: string, generated: string, path: string)
    requires StartsWith(path, prefix) && (Dirname(path) == base || Dirname(path) == generated)
    ensures Walk(prefix, base, generated, path) == Found(path)
  {
  }

  /** The conditions under which the examples below hold: a plain prefix and plain names. */
  predicate PlainPrefix(prefix: string) {
    prefix != [] && prefix[|prefix| - 1] != '/'
  }

  lemma PlainPrefixBases(prefix: string)
    requires PlainPrefix(prefix)
    ensures Base(prefix) == prefix
    ensures GeneratedBase(prefix) == prefix + "/" + GeneratedDir
  {
    assert !StartsWith(GeneratedDir, "/") by { assert GeneratedDir[0] == 'p'; }
  }

  /** `<prefix>/<service>/<file>` resolves to `<prefix>/<service>`. */
  lemma ConfigBaseServiceFile(prefix: string, service: string, file: string)
    requires PlainPrefix(prefix)
    requires service != [] && '/' !in service && service != GeneratedDir && '/' !in file
    ensures ConfigBase(prefix, prefix + "/" + service + "/" + file) == Found(prefix + "/" + service)
  {
    PlainPrefixBases(prefix);
    var b, g := Base(prefix), GeneratedBase(prefix);
    var dir := prefix + "/" + service;
    var path := dir + "/" + file;
    assert service[|service| - 1] in service;
    DirnameChild(dir, file);
    DirnameChild(prefix, service);
    assert StartsWith(path, prefix) by { assert path[..|prefix|] == prefix; }
    assert StartsWith(dir, prefix) by { assert dir[..|prefix|] == prefix; }
    assert dir[|prefix| + 1..] == service;
    assert g[|prefix| + 1..] == GeneratedDir;
    WalkStop(prefix, b, g, dir);
    WalkUp(prefix, b, g, path);
  }

  /** `<prefix>/puppet-generated/<service>/<file>` resolves to `<prefix>/puppet-generated/<service>`. */
  lemma ConfigBaseGeneratedFile(prefix: string, service: string, file: string)
    requires PlainPrefix(prefix)
    requires service != [] && '/' !in service && '/' !in file
    ensures var gen := prefix + "/" + GeneratedDir;
      ConfigBase(prefix, gen + "/" + service + "/" + file) == Found(gen + "/" + service)
  {
    PlainPrefixBases(prefix);
    var b := Base(prefix);
    var gen := prefix + "/" + GeneratedDir;
    var dir := gen + "/" + service;
    var path := dir + "/" + file;
    assert service[|service| - 1] in service;
    DirnameChild(dir, file);
    assert gen[|gen| - 1] == 'd';
    DirnameChild(gen, service);
    assert StartsWith(path, prefix) by { assert path[..|prefix|] == prefix; }
    assert StartsWith(dir, prefix) by { assert dir[..|prefix|] == prefix; }
    WalkStop(prefix, b, gen, dir);
    WalkUp(prefix, b, gen, path);
  }

  /** With the prefix "/" the walk reaches "/" without finding a base, and sticks there. */
  lemma ConfigBaseRootHangs()
    ensures ConfigBase("/", "/x") == Hangs
  {
    DirnameRootChild("x");
    assert "/" + "x" == "/x";
    assert Dirname("/") == "/";
  }

  // ------------------------------------------------------- match_config_volumes

  /** The host path of a mount spec: the text before its first ':'. */
  function HostPath(spec: string): string {
    Split(spec, ':')[0]
  }

  /** The mounts `match_config_volumes` considers: those starting with the prefix. */
  function UnderPrefix(prefix: string, volumes: seq<string>): (r: seq<string>)
    ensures |r| <= |volumes|
    ensures forall v :: v in r <==> v in volumes && StartsWith(v, prefix)
  {
    if volumes == [] then []
    else if StartsWith(volumes[0], prefix) then [volumes[0]] + UnderPrefix(prefix, volumes[1..])
    else UnderPrefix(prefix, volumes[1..])
  }

  /**
   * The filter keeps the order of the mounts: filtering a concatenation concatenates the
   * filtered parts, and a single mount is kept exactly when it starts with the prefix.
   */
  lemma {:induction false} UnderPrefixOrder(prefix: string, a: seq<string>, b: seq<string>)
    ensures UnderPrefix(prefix, a + b) == UnderPrefix(prefix, a) + UnderPrefix(prefix, b)
    ensures forall v :: UnderPrefix(prefix, [v]) == if StartsWith(v, prefix) then [v] else []
  {
    if a != [] {
      assert (a + b)[1..] == a[1..] + b;
      UnderPrefixOrder(prefix, a[1..], b);
    } else {
      assert a + b == b;
    }
    forall v ensures UnderPrefix(prefix, [v]) == if StartsWith(v, prefix) then [v] else [] {
      assert [v][1..] == [];
    }
  }

  /** The list comprehension: resolve each mount in order; the first exception wins. */
  function ResolveAll(prefix: string, volumes: seq<string>): (r: Result<seq<string>, Failure>)
    ensures r.Err? ==> r.error.ValueError? || r.error == NeverReturns
  {
    if volumes == [] then Ok([])
    else
      match ConfigBase(prefix, HostPath(volumes[0]))
      case NoBase => Err(ValueError(HostPath(volumes[0])))
      case Hangs => Err(NeverReturns)
      case Found(b) =>
        match ResolveAll(prefix, volumes[1..])
        case Ok(rest) => Ok([b] + rest)
        case Err(e) => Err(e)
  }

  lemma ResolveAllCons(prefix: string, v: string, rest: seq<string>, b: string, bs: seq<string>)
    requires ConfigBase(prefix, HostPath(v)) == Found(b) && ResolveAll(prefix, rest) == Ok(bs)
    ensures ResolveAll(prefix, [v] + rest) == Ok([b] + bs)
  {
    assert ([v] + rest)[1..] == rest;
  }

  /** `match_config_volumes(prefix, config)` on the config's volume list. */
  function MatchConfigVolumes(prefix: string, volumes: seq<string>): Result<seq<string>, Failure> {
    match ResolveAll(prefix, UnderPrefix(prefix, volumes))
    case Ok(bases) => Ok(Sort(bases))
    case Err(e) => Err(e)
  }

  lemma {:induction false} ResolveAllBases(prefix: string, volumes: seq<string>)
    requires ResolveAll(prefix, volumes).Ok?
    ensures |ResolveAll(prefix, volumes).value| == |volumes|
    ensures forall i :: 0 <= i < |volumes| ==>
      ConfigBase(prefix, HostPath(volumes[i])) == Found(ResolveAll(prefix, volumes).value[i])
  {
    if volumes != [] {
      ResolveAllBases(prefix, volumes[1..]);
      var rest := ResolveAll(prefix, volumes[1..]).value;
      forall i | 0 < i < |volumes|
        ensures ConfigBase(prefix, HostPath(volumes[i])) == Found(ResolveAll(prefix, volumes).value[i])
      {
        assert volumes[i] == volumes[1..][i - 1];
      }
    }
  }

  /**
   * The resolved bases come out sorted, one per mount under the prefix (duplicates kept),
   * each the base of one of those mounts' host paths.
   */
  lemma MatchConfigVolumesSorted(prefix: string, volumes: seq<string>)
    requires MatchConfigVolumes(prefix, volumes).Ok?
    ensures var r := MatchConfigVolumes(prefix, volumes).value;
      Sorted(r)
      && multiset(r) == multiset(ResolveAll(prefix, UnderPrefix(prefix, volumes)).value)
      && |r| == |UnderPrefix(prefix, volumes)|
      && forall b :: b in r ==>
           exists v :: v in volumes && StartsWith(v, prefix) && ConfigBase(prefix, HostPath(v)) == Found(b)
  {
    var under := UnderPrefix(prefix, volumes);
    var bases := ResolveAll(prefix, under).value;
    ResolveAllBases(prefix, under);
    var r := Sort(bases);
    assert |r| == |multiset(r)| == |multiset(bases)| == |bases|;
    forall b | b in r
      ensures exists v :: v in volumes && StartsWith(v, prefix) && ConfigBase(prefix, HostPath(v)) == Found(b)
    {
      assert b in multiset(r);
      assert b in multiset(bases);
      var i :| 0 <= i < |bases| && bases[i] == b;
      assert under[i] in under;
    }
  }

  lemma HostPathOf(host: string, rest: string)
    requires ':' !in host
    ensures HostPath(host + ":" + rest) == host
  {
    assert host + ":" + rest == host + [':'] + rest;
    SplitAppend(host, rest, ':');
    SplitNoSep(host, ':');
  }

  /** Duplicates survive: two mounts under one service directory yield its base twice. */
  lemma MatchKeepsDuplicates(prefix: string, service: string, f1: string, f2: string, m1: string, m2: string)
    requires PlainPrefix(prefix) && ':' !in prefix
    requires service != [] && '/' !in service && ':' !in service && service != GeneratedDir
    requires '/' !in f1 && ':' !in f1 && '/' !in f2 && ':' !in f2
    ensures var dir := prefix + "/" + service;
      MatchConfigVolumes(prefix, [dir + "/" + f1 + ":" + m1, dir + "/" + f2 + ":" + m2]) == Ok([dir, dir])
  {
    var dir := prefix + "/" + service;
    var h1, h2 := dir + "/" + f1, dir + "/" + f2;
    var v1, v2 := h1 + ":" + m1, h2 + ":" + m2;
    assert ':' !in h1 && ':' !in h2 by {
      assert ':' !in dir + "/";
    }
    HostPathOf(h1, m1);
    HostPathOf(h2, m2);
    ConfigBaseServiceFile(prefix, service, f1);
    ConfigBaseServiceFile(prefix, service, f2);
    assert StartsWith(v1, prefix) by { assert v1[..|prefix|] == prefix; }
    assert StartsWith(v2, prefix) by { assert v2[..|prefix|] == prefix; }
    MatchTwoSameBase(prefix, v1, v2, dir);
  }

  lemma MatchTwoSameBase(prefix: string, v1: string, v2: string, b: string)
    requires StartsWith(v1, prefix) && StartsWith(v2, prefix)
    requires ConfigBase(prefix, HostPath(v1)) == Found(b) && ConfigBase(prefix, HostPath(v2)) == Found(b)
    ensures MatchConfigVolumes(prefix, [v1, v2]) == Ok([b, b])
  {
    var vs := [v1, v2];
    assert vs[1..] == [v2] && [v2][1..] == vs[2..];
    assert UnderPrefix(prefix, vs) == vs;
    ResolveAllCons(prefix, v2, [], b, []);
    assert [v2] + [] == [v2] && [b] + [] == [b];
    ResolveAllCons(prefix, v1, [v2], b, [b]);
    assert [v1] + [v2] == vs;
    assert Sort([b, b]) == [b, b] by {
      var r := Sort([b, b]);
      assert multiset(r) == multiset{b, b};
      assert |r| == 2;
      assert r[0] in multiset(r) && r[1] in multiset(r);
    }
  }

  // ---------------------------------------------------------------- the hash

  /** `get_config_hash(base)`: the sidecar's content without trailing whitespace, if it exists. */
  function SidecarHash(base: string, sidecars: map<string, string>): Option<string> {
    var file := base + SidecarSuffix;
    if file in sidecars then Some(RStrip(sidecars[file])) else None
  }

  /** `filter(None, ...)` of the sidecar hashes: drops missing and empty ones, keeps order. */
  function PresentHashes(bases: seq<string>, sidecars: map<string, string>): (r: seq<string>)
    ensures forall i :: 0 <= i < |r| ==> r[i] != ""
    ensures forall h :: h in r <==> exists i :: 0 <= i < |bases| && SidecarHash(bases[i], sidecars) == Some(h) && h != ""
  {
    if bases == [] then []
    else
      var h := SidecarHash(bases[0], sidecars);
      if h.Some? && h.value != "" then [h.value] + PresentHashes(bases[1..], sidecars)
      else PresentHashes(bases[1..], sidecars)
  }

  /** The hashes keep the order of the bases: hashing a concatenation concatenates the parts. */
  lemma {:induction false} PresentHashesAppend(a: seq<string>, b: seq<string>, sidecars: map<string, string>)
    ensures PresentHashes(a + b, sidecars) == PresentHashes(a, sidecars) + PresentHashes(b, sidecars)
  {
    if a == [] {
      assert a + b == b;
    } else {
      assert (a + b)[1..] == a[1..] + b;
      PresentHashesAppend(a[1..], b, sidecars);
    }
  }

  /** One base contributes its stripped sidecar when that is present and non-blank, else nothing. */
  lemma PresentHashesOne(base: string, sidecars: map<string, string>)
    ensures PresentHashes([base], sidecars) ==
      if SidecarHash(base, sidecars).Some? && SidecarHash(base, sidecars).value != ""
      then [SidecarHash(base, sidecars).value] else []
  {
    assert [base][1..] == [];
  }

  /** `'-'.join(...)` of the present hashes. */
  function CompositeHash(bases: seq<string>, sidecars: map<string, string>): string {
    Join(PresentHashes(bases, sidecars), "-")
  }

  lemma {:induction false} PresentHashesEmpty(bases: seq<string>, sidecars: map<string, string>)
    ensures PresentHashes(bases, sidecars) == [] <==>
      forall i :: 0 <= i < |bases| ==> SidecarHash(bases[i], sidecars) in {None, Some("")}
  {
    if bases != [] {
      PresentHashesEmpty(bases[1..], sidecars);
      assert forall i :: 0 < i < |bases| ==> bases[i] == bases[1..][i - 1];
    }
  }

  /** The composite hash is empty exactly when no base has a non-blank sidecar. */
  lemma CompositeHashEmpty(bases: seq<string>, sidecars: map<string, string>)
    ensures CompositeHash(bases, sidecars) == "" <==>
      forall i :: 0 <= i < |bases| ==> SidecarHash(bases[i], sidecars) in {None, Some("")}
  {
    PresentHashesEmpty(bases, sidecars);
    JoinEmpty(PresentHashes(bases, sidecars), "-");
  }

  /** md5 sums hold no '-', so the composite splits back into the present hashes. */
  lemma CompositeHashSplits(bases: seq<string>, sidecars: map<string, string>)
    requires PresentHashes(bases, sidecars) != []
    requires forall h :: h in PresentHashes(bases, sidecars) ==> '-' !in h
    ensures Split(CompositeHash(bases, sidecars), '-') == PresentHashes(bases, sidecars)
  {
    var hs := PresentHashes(bases, sidecars);
    assert forall i :: 0 <= i < |hs| ==> hs[i] in hs;
    SplitJoin(hs, '-');
  }

  // ------------------------------------------------------- the descriptor

  /** The `environment` entry of a startup config: absent, JSON null, or a string map. */
  datatype EnvSlot = NoEnv | NullEnv | Env(vars: map<string, string>)

  /** The `volumes` entry of a startup config: absent, JSON null, or a list of mount specs. */
  datatype VolumesSlot = NoVolumes | NullVolumes | Mounts(specs: seq<string>)

  /** A startup-config descriptor; `other` holds the remaining keys, carried unchanged. */
  datatype Descriptor = Descriptor(environment: EnvSlot, volumes: VolumesSlot, other: map<string, string>)

  /** The parsed JSON body of a startup-config file. */
  datatype Body =
    | NullBody
    | Object(descriptor: Descriptor)
    | NonObject(truthy: bool)   // a list, string, number or boolean

  datatype InFile = InFile(path: string, body: Body)

  datatype Output = Output(path: string, descriptor: Descriptor)

  const EmptyDescriptor := Descriptor(NoEnv, NoVolumes, map[])

  /** `if not infile_data: infile_data = {}` followed by the `.get` that needs a dict. */
  function LoadBody(body: Body): (r: Result<Descriptor, Failure>)
    ensures r.Err? <==> body == NonObject(true)
  {
    match body
    case NullBody => Ok(EmptyDescriptor)
    case Object(d) => Ok(d)
    case NonObject(truthy) => if truthy then Err(AttributeError) else Ok(EmptyDescriptor)
  }

  /**
   * `match_config_volumes(prefix, config)` on a descriptor: `config.get('volumes', [])`
   * gives `[]` for an absent key and None for a null one, which the comprehension cannot
   * iterate.
   */
  function MatchConfig(prefix: string, d: Descriptor): (r: Result<seq<string>, Failure>)
    ensures d.volumes == NoVolumes ==> r == Ok([])
    ensures d.volumes == NullVolumes ==> r == Err(TypeError)
    ensures d.volumes.Mounts? ==> r == MatchConfigVolumes(prefix, d.volumes.specs)
  {
    match d.volumes
    case NoVolumes => MatchConfigVolumes(prefix, [])
    case NullVolumes => Err(TypeError)
    case Mounts(specs) => MatchConfigVolumes(prefix, specs)
  }

  /** The environment after the stamp: the hash is inserted only when it is non-empty. */
  function StampedEnv(env: EnvSlot, hash: string): EnvSlot {
    if hash == "" then env
    else
      var vars := if env.Env? then env.vars else map[];
      Env(vars[HashKey := hash])
  }

  /**
   * The key is set (creating the map when absent or null) exactly when the hash is
   * non-empty, and every other variable keeps its value.
   */
  lemma StampedEnvSpec(env: EnvSlot, hash: string)
    ensures hash == "" ==> StampedEnv(env, hash) == env
    ensures hash != "" ==>
      StampedEnv(env, hash).Env? && HashKey in StampedEnv(env, hash).vars
      && StampedEnv(env, hash).vars[HashKey] == hash
    ensures hash != "" && env.Env? ==>
      StampedEnv(env, hash).vars.Keys == env.vars.Keys + {HashKey}
      && forall k :: k in env.vars && k != HashKey ==> StampedEnv(env, hash).vars[k] == env.vars[k]
    ensures hash != "" && !env.Env? ==> StampedEnv(env, hash).vars.Keys == {HashKey}
  {
  }

  /** Stamping twice with the same hash is the same as stamping once. */
  lemma StampedEnvIdempotent(env: EnvSlot, hash: string)
    ensures StampedEnv(StampedEnv(env, hash), hash) == StampedEnv(env, hash)
  {
    if hash != "" {
      var once := StampedEnv(env, hash).vars;
      assert once[HashKey := hash] == once;
    }
  }

  /** `os.path.join(os.path.dirname(infile), "hashed-" + os.path.basename(infile))`. */
  function OutName(infile: string): string {
    JoinPath(Dirname(infile), HashedPrefix + Basename(infile))
  }

  /** The output sits in the input's directory and is named `hashed-<basename>`. */
  lemma OutNameShape(infile: string)
    ensures Basename(OutName(infile)) == HashedPrefix + Basename(infile)
    ensures Dirname(OutName(infile)) == Dirname(infile)
  {
    BasenameNoSlash(infile);
    var name := HashedPrefix + Basename(infile);
    assert '/' !in name by {
      forall i | 0 <= i < |name| ensures name[i] != '/' {
        if i >= |HashedPrefix| { assert name[i] == Basename(infile)[i - |HashedPrefix|]; }
      }
    }
    JoinDirname(infile, name);
  }

  /**
   * One iteration of the loop at lines 489-518. `bound` says whether the module-level
   * `config_volume` is bound by then (`PuppetJobs.ConfigVolumeBound`): the debug message for
   * a non-empty hash formats it, so without it the iteration raises NameError before the
   * output is written. `os.path.splitext(...)` is only logged.
   */
  function StampOne(f: InFile, prefix: string, sidecars: map<string, string>, bound: bool): Result<Option<Output>, Failure> {
    if Contains(f.path, HashedMarker) then Ok(None)
    else
      match LoadBody(f.body)
      case Err(e) => Err(e)
      case Ok(data) =>
        match MatchConfig(prefix, data)
        case Err(e) => Err(e)
        case Ok(bases) =>
          var hash := CompositeHash(bases, sidecars);
          if hash != "" && !bound then Err(NameError)
          else Ok(Some(Output(OutName(f.path), data.(environment := StampedEnv(data.environment, hash)))))
  }

  /** Every output name contains the marker, so a second run skips the file it wrote. */
  lemma OutputSkippedOnRerun(infile: string, body: Body, prefix: string, sidecars: map<string, string>, bound: bool)
    ensures Contains(OutName(infile), HashedMarker)
    ensures StampOne(InFile(OutName(infile), body), prefix, sidecars, bound) == Ok(None)
  {
    var name := HashedPrefix + Basename(infile);
    var o := OutName(infile);
    assert StartsWith(name, HashedMarker) by { assert name[..|HashedMarker|] == HashedMarker; }
    assert Contains(name, HashedMarker);
    assert !StartsWith(name, "/") by { assert name[0] == 'h'; }
    if Dirname(infile) == [] || Dirname(infile)[|Dirname(infile)| - 1] == '/' {
      ContainsAppend(Dirname(infile), name, HashedMarker);
    } else {
      ContainsAppend(Dirname(infile) + "/", name, HashedMarker);
      assert o == Dirname(infile) + "/" + name;
    }
  }

  /**
   * When no resolved base has a non-blank sidecar the descriptor is written back as read:
   * no environment entry is added or changed.
   */
  lemma StampWithoutHashesKeepsDescriptor(f: InFile, prefix: string, sidecars: map<string, string>, bound: bool)
    requires StampOne(f, prefix, sidecars, bound).Ok? && StampOne(f, prefix, sidecars, bound).value.Some?
    requires forall b :: b in MatchConfig(prefix, LoadBody(f.body).value).value ==>
      SidecarHash(b, sidecars) in {None, Some("")}
    ensures StampOne(f, prefix, sidecars, bound).value.value.descriptor == LoadBody(f.body).value
  {
    var data := LoadBody(f.body).value;
    var bases := MatchConfig(prefix, data).value;
    var hash := CompositeHash(bases, sidecars);
    assert StampOne(f, prefix, sidecars, bound).value.value.descriptor ==
      data.(environment := StampedEnv(data.environment, hash));
    forall i | 0 <= i < |bases| ensures SidecarHash(bases[i], sidecars) in {None, Some("")} {
      assert bases[i] in bases;
    }
    CompositeHashEmpty(bases, sidecars);
    assert data.(environment := data.environment) == data;
  }

  /**
   * A descriptor without a `volumes` key resolves no bases and is written back unchanged;
   * one whose `volumes` is null stops the pass with the TypeError of the comprehension.
   */
  lemma StampVolumesSlot(f: InFile, prefix: string, sidecars: map<string, string>, bound: bool)
    requires !Contains(f.path, HashedMarker) && LoadBody(f.body).Ok?
    ensures LoadBody(f.body).value.volumes == NoVolumes ==>
      StampOne(f, prefix, sidecars, bound) == Ok(Some(Output(OutName(f.path), LoadBody(f.body).value)))
    ensures LoadBody(f.body).value.volumes == NullVolumes ==> StampOne(f, prefix, sidecars, bound) == Err(TypeError)
  {
    var data := LoadBody(f.body).value;
    if data.volumes == NoVolumes {
      assert ResolveAll(prefix, UnderPrefix(prefix, [])) == Ok([]);
      assert Sort([]) == [] by { assert |multiset(Sort([]))| == 0; }
      assert CompositeHash([], sidecars) == "" by { JoinEmpty(PresentHashes([], sidecars), "-"); }
      assert data.(environment := data.environment) == data;
    }
  }

  /** Stamping a stamped descriptor once more (same volumes, same sidecars) changes nothing. */
  lemma StampIdempotent(f: InFile, prefix: string, sidecars: map<string, string>, bound: bool)
    requires StampOne(f, prefix, sidecars, bound).Ok? && StampOne(f, prefix, sidecars, bound).value.Some?
    ensures StampOne(InFile(f.path, Object(StampOne(f, prefix, sidecars, bound).value.value.descriptor)), prefix, sidecars, bound)
      == StampOne(f, prefix, sidecars, bound)
  {
    var data := LoadBody(f.body).value;
    var bases := MatchConfig(prefix, data).value;
    StampOneOk(f, prefix, sidecars, bound, data, bases);
    StampAgain(f.path, data, bases, prefix, sidecars, bound);
  }

  /** The stamped descriptor keeps its volumes, so it resolves the same bases and stamps to itself. */
  lemma StampAgain(path: string, data: Descriptor, bases: seq<string>, prefix: string, sidecars: map<string, string>, bound: bool)
    requires !Contains(path, HashedMarker) && MatchConfig(prefix, data) == Ok(bases)
    requires bound || CompositeHash(bases, sidecars) == ""
    ensures var once := data.(environment := StampedEnv(data.environment, CompositeHash(bases, sidecars)));
      StampOne(InFile(path, Object(once)), prefix, sidecars, bound) == Ok(Some(Output(OutName(path), once)))
  {
    var hash := CompositeHash(bases, sidecars);
    var once := data.(environment := StampedEnv(data.environment, hash));
    assert MatchConfig(prefix, once) == Ok(bases) by { assert once.volumes == data.volumes; }
    StampOneOk(InFile(path, Object(once)), prefix, sidecars, bound, once, bases);
    StampedEnvIdempotent(data.environment, hash);
    assert once.(environment := StampedEnv(once.environment, hash)) == once;
  }

  /** The outcome of stamping an unmarked file whose body loads and whose volumes resolve. */
  lemma StampOneOk(f: InFile, prefix: string, sidecars: map<string, string>, bound: bool, data: Descriptor, bases: seq<string>)
    requires !Contains(f.path, HashedMarker)
    requires LoadBody(f.body) == Ok(data)
    requires MatchConfig(prefix, data) == Ok(bases)
    requires bound || CompositeHash(bases, sidecars) == ""
    ensures StampOne(f, prefix, sidecars, bound) ==
      Ok(Some(Output(OutName(f.path), data.(environment := StampedEnv(data.environment, CompositeHash(bases, sidecars))))))
  {
  }

  // --------------------------------------------------------- the whole pass

  /** What the pass over the globbed files writes, and the exception that ends it early. */
  datatype Pass = Pass(written: seq<Output>, failure: Option<Failure>)

  /** The pass from one file's outcome on: an exception ends it, a skipped file writes nothing. */
  function Continue(r: Result<Option<Output>, Failure>, rest: Pass): (p: Pass)
    ensures |p.written| <= |rest.written| + 1
  {
    match r
    case Err(e) => Pass([], Some(e))
    case Ok(None) => rest
    case Ok(Some(out)) => Pass([out] + rest.written, rest.failure)
  }

  function StampPass(files: seq<InFile>, prefix: string, sidecars: map<string, string>, bound: bool): (p: Pass)
    ensures |p.written| <= |files|
  {
    if files == [] then Pass([], None)
    else Continue(StampOne(files[0], prefix, sidecars, bound), StampPass(files[1..], prefix, sidecars, bound))
  }

  /**
   * A file is skipped exactly when its path holds the marker; an output is named after its
   * input; NameError needs an unbound `config_volume`.
   */
  lemma StampOneShape(f: InFile, prefix: string, sidecars: map<string, string>, bound: bool)
    ensures StampOne(f, prefix, sidecars, bound).Ok? ==>
      (StampOne(f, prefix, sidecars, bound).value.None? <==> Contains(f.path, HashedMarker))
    ensures StampOne(f, prefix, sidecars, bound).Ok? && StampOne(f, prefix, sidecars, bound).value.Some? ==>
      StampOne(f, prefix, sidecars, bound).value.value.path == OutName(f.path)
    ensures StampOne(f, prefix, sidecars, bound) == Err(NameError) ==> !bound
  {
    if !Contains(f.path, HashedMarker) && LoadBody(f.body).Ok? && MatchConfig(prefix, LoadBody(f.body).value).Ok? {
      var data := LoadBody(f.body).value;
      var bases := MatchConfig(prefix, data).value;
      if bound || CompositeHash(bases, sidecars) == "" {
        StampOneOk(f, prefix, sidecars, bound, data, bases);
      }
    }
  }

  /**
   * A file raises NameError exactly when it is unmarked, loads, resolves its bases to a
   * non-empty composite hash, and no loop has bound `config_volume`.
   */
  lemma StampNameError(f: InFile, prefix: string, sidecars: map<string, string>, bound: bool)
    ensures StampOne(f, prefix, sidecars, bound) == Err(NameError) <==>
      !bound && !Contains(f.path, HashedMarker) && LoadBody(f.body).Ok?
      && MatchConfig(prefix, LoadBody(f.body).value).Ok?
      && CompositeHash(MatchConfig(prefix, LoadBody(f.body).value).value, sidecars) != ""
    ensures bound || StampOne(f, prefix, sidecars, bound).Ok? ==>
      StampOne(f, prefix, sidecars, bound) == StampOne(f, prefix, sidecars, true)
  {
    if !Contains(f.path, HashedMarker) && LoadBody(f.body).Ok? && MatchConfig(prefix, LoadBody(f.body).value).Ok? {
      var data := LoadBody(f.body).value;
      var bases := MatchConfig(prefix, data).value;
      if bound || CompositeHash(bases, sidecars) == "" {
        StampOneOk(f, prefix, sidecars, bound, data, bases);
        StampOneOk(f, prefix, sidecars, true, data, bases);
      } else {
        assert StampOne(f, prefix, sidecars, bound) == Err(NameError);
      }
    }
  }

  /**
   * The pass stops with failure `e` exactly when some file raises `e` and every file
   * before it was skipped or written.
   */
  lemma {:induction false} StampPassFailure(files: seq<InFile>, prefix: string, sidecars: map<string, string>,
                                            bound: bool, e: Failure)
    ensures StampPass(files, prefix, sidecars, bound).failure == Some(e) <==>
      exists i :: 0 <= i < |files| && FailsFirst(files, i, prefix, sidecars, bound) && StampOne(files[i], prefix, sidecars, bound) == Err(e)
  {
    if files != [] {
      StampPassFailure(files[1..], prefix, sidecars, bound, e);
      if StampOne(files[0], prefix, sidecars, bound).Err? {
        FailsFirstHead(files, prefix, sidecars, bound);
      } else {
        FailsFirstTail(files, prefix, sidecars, bound);
        if StampPass(files, prefix, sidecars, bound).failure == Some(e) {
          var i :| 0 <= i < |files[1..]| && FailsFirst(files[1..], i, prefix, sidecars, bound)
                   && StampOne(files[1..][i], prefix, sidecars, bound) == Err(e);
          assert FailsFirst(files, i + 1, prefix, sidecars, bound) && files[i + 1] == files[1..][i];
        }
      }
    }
  }

  /** A first file that raises is the first failure, and no later file is. */
  lemma FailsFirstHead(files: seq<InFile>, prefix: string, sidecars: map<string, string>, bound: bool)
    requires files != [] && StampOne(files[0], prefix, sidecars, bound).Err?
    ensures forall i :: 0 <= i < |files| ==> (FailsFirst(files, i, prefix, sidecars, bound) <==> i == 0)
  {
  }

  /** After a first file that does not raise, the first failure is the tail's, one position on. */
  lemma FailsFirstTail(files: seq<InFile>, prefix: string, sidecars: map<string, string>, bound: bool)
    requires files != [] && StampOne(files[0], prefix, sidecars, bound).Ok?
    ensures !FailsFirst(files, 0, prefix, sidecars, bound)
    ensures forall i :: 0 <= i < |files| - 1 ==>
      (FailsFirst(files, i + 1, prefix, sidecars, bound) <==> FailsFirst(files[1..], i, prefix, sidecars, bound))
  {
    forall i | 0 <= i < |files| - 1
      ensures FailsFirst(files, i + 1, prefix, sidecars, bound) <==> FailsFirst(files[1..], i, prefix, sidecars, bound)
    {
      assert files[1..][i] == files[i + 1];
      assert forall j :: 0 < j <= i ==> files[1..][j - 1] == files[j];
    }
  }

  /** Once `config_volume` is bound, no file raises NameError and the pass never ends with it. */
  lemma StampPassBound(files: seq<InFile>, prefix: string, sidecars: map<string, string>)
    ensures StampPass(files, prefix, sidecars, true).failure != Some(NameError)
  {
    StampPassFailure(files, prefix, sidecars, true, NameError);
    forall i | 0 <= i < |files| ensures StampOne(files[i], prefix, sidecars, true) != Err(NameError) {
      StampNameError(files[i], prefix, sidecars, true);
    }
  }

  /** File `i` is the first of the pass that raises. */
  predicate FailsFirst(files: seq<InFile>, i: nat, prefix: string, sidecars: map<string, string>, bound: bool)
    requires i < |files|
  {
    StampOne(files[i], prefix, sidecars, bound).Err? && forall j :: 0 <= j < i ==> StampOne(files[j], prefix, sidecars, bound).Ok?
  }

  /** The files a complete pass writes: one per unmarked input, in glob order. */
  function Unmarked(files: seq<InFile>): seq<string> {
    if files == [] then []
    else if Contains(files[0].path, HashedMarker) then Unmarked(files[1..])
    else [files[0].path] + Unmarked(files[1..])
  }

  /**
   * A pass that meets no exception writes exactly one output per input whose path does
   * not contain "hashed", each named after its input, in the input order.
   */
  lemma {:induction false} StampPassWritesUnmarked(files: seq<InFile>, prefix: string, sidecars: map<string, string>, bound: bool)
    requires StampPass(files, prefix, sidecars, bound).failure.None?
    ensures |StampPass(files, prefix, sidecars, bound).written| == |Unmarked(files)|
    ensures forall i :: 0 <= i < |Unmarked(files)| ==>
      StampPass(files, prefix, sidecars, bound).written[i].path == OutName(Unmarked(files)[i])
  {
    if files != [] {
      var r := StampOne(files[0], prefix, sidecars, bound);
      var rest := StampPass(files[1..], prefix, sidecars, bound);
      StampOneShape(files[0], prefix, sidecars, bound);
      StampPassWritesUnmarked(files[1..], prefix, sidecars, bound);
      ContinueWrites(r, rest, files[0].path, Unmarked(files[1..]));
    }
  }

  /** One more file on a pass that writes one output per unmarked file keeps it so. */
  lemma ContinueWrites(r: Result<Option<Output>, Failure>, rest: Pass, path: string, names: seq<string>)
    requires Continue(r, rest).failure.None?
    requires r.Ok? ==> (r.value.None? <==> Contains(path, HashedMarker))
    requires r.Ok? && r.value.Some? ==> r.value.value.path == OutName(path)
    requires |rest.written| == |names|
    requires forall i :: 0 <= i < |names| ==> rest.written[i].path == OutName(names[i])
    ensures var all := if Contains(path, HashedMarker) then names else [path] + names;
      |Continue(r, rest).written| == |all| &&
      forall i :: 0 <= i < |all| ==> Continue(r, rest).written[i].path == OutName(all[i])
  {
    assert r.Ok?;
    if r.value.Some? {
      var out := r.value.value;
      var w := [out] + rest.written;
      var all := [path] + names;
      assert Continue(r, rest).written == w;
      assert !Contains(path, HashedMarker);
      forall i | 0 <= i < |all| ensures w[i].path == OutName(all[i]) {
        if i > 0 {
          assert w[i] == rest.written[i - 1];
          assert all[i] == names[i - 1];
        }
      }
    } else {
      assert Continue(r, rest) == rest;
    }
  }

  /** The in-memory `infile_data` dict, whose `environment` entry the pass updates in place. */
  class StartupConfig {
    var environment: EnvSlot
    var volumes: VolumesSlot
    var other: map<string, string>

    function Snapshot(): Descriptor
      reads this
    {
      Descriptor(environment, volumes, other)
    }

    constructor (d: Descriptor)
      ensures Snapshot() == d
    {
      environment, volumes, other := d.environment, d.volumes, d.other;
    }

    /** Lines 509-516: create `environment` when it is absent or null, then `update` it. */
    method StampHash(hash: string)
      modifies this
      ensures Snapshot() == old(Snapshot()).(environment := StampedEnv(old(environment), hash))
    {
      if hash != "" {
        if !environment.Env? {
          environment := Env(map[]);
        }
        environment := Env(environment.vars[HashKey := hash]);
      }
    }
  }

  /**
   * One iteration of the loop over the globbed files, on the in-memory descriptor; it
   * computes exactly `StampOne`.
   */
  method StampFile(f: InFile, prefix: string, sidecars: map<string, string>, bound: bool) returns (r: Result<Option<Output>, Failure>)
    ensures r == StampOne(f, prefix, sidecars, bound)
  {
    if Contains(f.path, HashedMarker) {
      return Ok(None);
    }
    var loaded := LoadBody(f.body);
    if loaded.Err? {
      return Err(loaded.error);
    }
    var data := new StartupConfig(loaded.value);
    var bases := MatchConfig(prefix, data.Snapshot());
    if bases.Err? {
      return Err(bases.error);
    }
    var hash := CompositeHash(bases.value, sidecars);
    if hash != "" && !bound {
      return Err(NameError);
    }
    data.StampHash(hash);
    return Ok(Some(Output(OutName(f.path), data.Snapshot())));
  }

  /** The loop over the globbed startup configs; an exception ends it, keeping what was written. */
  method StampAll(files: seq<InFile>, prefix: string, sidecars: map<string, string>, bound: bool) returns (p: Pass)
    ensures p == StampPass(files, prefix, sidecars, bound)
  {
    var written: seq<Output> := [];
    var i := 0;
    while i < |files|
      invariant 0 <= i <= |files|
      invariant StampPass(files, prefix, sidecars, bound).written == written + StampPass(files[i..], prefix, sidecars, bound).written
      invariant StampPass(files, prefix, sidecars, bound).failure == StampPass(files[i..], prefix, sidecars, bound).failure
    {
      var r := StampOne(files[i], prefix, sidecars, bound);
      StampPassAt(files, i, prefix, sidecars, bound);
      if r.Err? {
        return Pass(written, Some(r.error));
      }
      var next := if r.value.Some? then written + [r.value.value] else written;
      ContinueAppends(r, StampPass(files[i + 1..], prefix, sidecars, bound), written);
      written := next;
      i := i + 1;
    }
    return Pass(written, None);
  }

  /** What a file adds to the outputs written so far; it does not change how the pass ends. */
  lemma ContinueAppends(r: Result<Option<Output>, Failure>, rest: Pass, written: seq<Output>)
    requires r.Ok?
    ensures written + Continue(r, rest).written ==
      (if r.value.Some? then written + [r.value.value] else written) + rest.written
    ensures Continue(r, rest).failure == rest.failure
  {
    if r.value.Some? {
      assert written + ([r.value.value] + rest.written) == (written + [r.value.value]) + rest.written;
    }
  }

  lemma StampPassAt(files: seq<InFile>, i: nat, prefix: string, sidecars: map<string, string>, bound: bool)
    requires i < |files|
    ensures StampPass(files[i..], prefix, sidecars, bound)
      == Continue(StampOne(files[i], prefix, sidecars, bound), StampPass(files[i + 1..], prefix, sidecars, bound))
  {
    assert files[i..][1..] == files[i + 1..];
  }
}
