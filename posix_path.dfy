/**
 * The parts of Python's `posixpath` the orchestrator uses: `dirname`, `basename` and
 * `join`, on '/'-separated strings exactly as Python computes them (no normalisation).
 */
module PosixPath {
  import opened Strs

  /** `p.rfind('/')`: the index of the last '/', or -1 when there is none. */
  function LastSlash(p: string): (r: int)
    ensures -1 <= r < |p|
    ensures r >= 0 ==> p[r] == '/'
    ensures forall k :: r < k < |p| ==> p[k] != '/'
  {
    if p == [] then -1
    else if p[|p| - 1] == '/' then |p| - 1
    else LastSlash(p[..|p| - 1])
  }

  /** `posixpath.basename(p)`: what follows the last '/'. */
  function Basename(p: string): string {
    p[LastSlash(p) + 1..]
  }

  /**
   * `posixpath.dirname(p)`: everything up to the last '/', with trailing slashes removed
   * unless the head consists of slashes only (so `dirname("/") == "/"`).
   */
  function Dirname(p: string): string {
    var head := p[..LastSlash(p) + 1];
    if head != [] && !AllChar(head, '/') then RStripChar(head, '/') else head
  }

  /** `posixpath.join(a, b)` for two components. */
  function JoinPath(a: string, b: string): string {
    if StartsWith(b, "/") then b
    else if a == [] || a[|a| - 1] == '/' then a + b
    else a + "/" + b
  }

  /** `dirname` never adds characters: it is a prefix of its argument. */
  lemma DirnamePrefix(p: string)
    ensures StartsWith(p, Dirname(p))
  {
    var head := p[..LastSlash(p) + 1];
    if head != [] && !AllChar(head, '/') {
      var r := RStripChar(head, '/');
      assert p[..|r|] == head[..|r|];
    }
  }

  /**
   * `dirname` returns its argument unchanged only for the empty string and strings of
   * slashes; every other path strictly shrinks, so walking upwards terminates or sticks.
   */
  lemma DirnameFixpoint(p: string)
    ensures Dirname(p) == p ==> AllChar(p, '/')
    ensures Dirname(p) != p ==> |Dirname(p)| < |p|
  {
    DirnamePrefix(p);
    var k := LastSlash(p);
    var head := p[..k + 1];
    if Dirname(p) == p {
      if head != [] && !AllChar(head, '/') {
        assert false;
      }
    }
  }

  /** The shape of a `dirname` result: empty, all slashes, or no trailing slash. */
  lemma DirnameShape(p: string)
    ensures var d := Dirname(p); d == [] || AllChar(d, '/') || d[|d| - 1] != '/'
  {
  }

  lemma {:induction false} BasenameNoSlash(p: string)
    ensures '/' !in Basename(p)
  {
    var k := LastSlash(p);
    forall i | 0 <= i < |Basename(p)| ensures Basename(p)[i] != '/' {
      assert Basename(p)[i] == p[k + 1 + i];
    }
  }

  /** The last '/' of `u + x` is the one `u` ends with when `x` holds no '/'. */
  lemma LastSlashAfter(u: string, x: string)
    requires u != [] && u[|u| - 1] == '/' && '/' !in x
    ensures LastSlash(u + x) == |u| - 1
  {
    var s := u + x;
    var r := LastSlash(s);
    assert s[|u| - 1] == '/';
    if r < |u| - 1 {
      assert false;
    }
    if r > |u| - 1 {
      assert false;
    }
  }

  lemma LastSlashNone(x: string)
    requires '/' !in x
    ensures LastSlash(x) == -1
  {
    var r := LastSlash(x);
    if r >= 0 {
      assert x[r] == '/';
    }
  }

  /** The parent of `d/name` is `d` when `d` does not end in '/' and `name` holds no '/'. */
  lemma DirnameChild(d: string, name: string)
    requires d != [] && d[|d| - 1] != '/' && '/' !in name
    ensures Dirname(d + "/" + name) == d
  {
    var u := d + "/";
    assert d + "/" + name == u + name;
    LastSlashAfter(u, name);
    assert (u + name)[..|u|] == u;
    assert !AllChar(u, '/') by { assert u[|d| - 1] == d[|d| - 1]; }
    assert RStripChar(u, '/') == RStripChar(d, '/') by { assert u[..|u| - 1] == d; }
  }

  /** The parent of `/name` is the root when `name` holds no '/'. */
  lemma DirnameRootChild(name: string)
    requires '/' !in name
    ensures Dirname("/" + name) == "/"
  {
    LastSlashAfter("/", name);
    assert ("/" + name)[..1] == "/";
  }

  /**
   * Joining a directory name and a slash-free file name: `basename` gives back the name
   * and `dirname` gives back the directory, whatever `posixpath.dirname` produced.
   */
  lemma JoinDirname(p: string, name: string)
    requires '/' !in name && name != [] && name[0] != '/'
    ensures Basename(JoinPath(Dirname(p), name)) == name
    ensures Dirname(JoinPath(Dirname(p), name)) == Dirname(p)
  {
    var d := Dirname(p);
    DirnameShape(p);
    assert !StartsWith(name, "/");
    var o := JoinPath(d, name);
    if d == [] {
      assert o == name;
      LastSlashNone(name);
      assert o[..0] == [];
    } else if d[|d| - 1] == '/' {
      assert o == d + name;
      LastSlashAfter(d, name);
      assert o[|d|..] == name;
      assert o[..|d|] == d;
    } else {
      var u := d + "/";
      assert o == u + name;
      LastSlashAfter(u, name);
      assert o[|u|..] == name;
      assert o[..|u|] == u;
      assert !AllChar(u, '/') by { assert u[|d| - 1] == d[|d| - 1]; }
      assert RStripChar(u, '/') == RStripChar(d, '/') by { assert u[..|u| - 1] == d; }
      assert RStripChar(d, '/') == d;
    }
  }
}
