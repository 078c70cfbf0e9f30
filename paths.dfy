/**
 * The POSIX path helpers the recorder uses to build the output file name
 * (`os.path.join` and `os.path.basename`), and the name of a recording.
 */
module Paths {

  /** `os.path.join(dir, name)` for two components on a POSIX system. */
  function Join(dir: string, name: string): string
  {
    if name != [] && name[0] == '/' then name
    else if dir == [] || dir[|dir| - 1] == '/' then dir + name
    else dir + "/" + name
  }

  /**
   * An absolute name replaces the directory. Otherwise the result is the
   * directory followed by the name, with one '/' inserted between them exactly
   * when the directory is non-empty and does not already end in '/'.
   */
  lemma JoinShape(dir: string, name: string)
    ensures var p := Join(dir, name);
      && (name != [] && name[0] == '/' ==> p == name)
      && ((name == [] || name[0] != '/') && (dir == [] || dir[|dir| - 1] == '/') ==> p == dir + name)
      && ((name == [] || name[0] != '/') && dir != [] && dir[|dir| - 1] != '/' ==> p == dir + "/" + name)
  {
  }

  /** `os.path.basename(p)`: everything after the last '/'. */
  function Basename(p: string): string
  {
    if p == [] then []
    else if p[|p| - 1] == '/' then []
    else Basename(p[..|p| - 1]) + [p[|p| - 1]]
  }

  /** The basename is the longest suffix without '/': it is preceded by a '/' or is the whole path. */
  lemma {:induction false} BasenameIsLastComponent(p: string)
    ensures var b := Basename(p);
      && '/' !in b
      && |b| <= |p| && p[|p| - |b|..] == b
      && (|b| < |p| ==> p[|p| - |b| - 1] == '/')
  {
    if p != [] && p[|p| - 1] != '/' {
      var q := p[..|p| - 1];
      BasenameIsLastComponent(q);
      var b := Basename(p);
      assert b == Basename(q) + [p[|p| - 1]];
      assert p[|p| - |b|..] == q[|q| - |Basename(q)|..] + [p[|p| - 1]];
    }
  }

  /** The recording's file name: `detection_<timestamp>.avi`. */
  function FileName(stamp: string): string
  {
    "detection_" + stamp + ".avi"
  }

  /** What `strftime("%Y%m%d_%H%M%S")` produces: eight digits, '_', six digits. */
  predicate IsStamp(stamp: string)
  {
    |stamp| == 15 && stamp[8] == '_' &&
    forall k :: 0 <= k < 15 && k != 8 ==> '0' <= stamp[k] <= '9'
  }

  lemma StampFileNameHasNoSlash(stamp: string)
    requires IsStamp(stamp)
    ensures '/' !in FileName(stamp) && FileName(stamp)[0] == 'd'
  {
    var f := FileName(stamp);
    forall k | 0 <= k < |f| ensures f[k] != '/' {
      if 10 <= k < 25 {
        assert f[k] == stamp[k - 10];
      }
    }
  }

  /** The last component of `prefix/name` is `name` when `name` holds no '/'. */
  lemma {:induction false} BasenameAfterSlash(prefix: string, name: string)
    requires '/' !in name
    ensures Basename(prefix + "/" + name) == name
  {
    var p := prefix + "/" + name;
    if name == [] {
      assert p[|p| - 1] == '/';
    } else {
      var n := |name|;
      assert p[..|p| - 1] == prefix + "/" + name[..n - 1];
      assert name[n - 1] in name;
      BasenameAfterSlash(prefix, name[..n - 1]);
      assert name[..n - 1] + [name[n - 1]] == name;
    }
  }

  /** A name without '/' is its own basename. */
  lemma {:induction false} BasenameOfPlainName(name: string)
    requires '/' !in name
    ensures Basename(name) == name
  {
    if name != [] {
      var n := |name|;
      var init := name[..n - 1];
      assert name[n - 1] in name;
      assert '/' !in init by {
        forall k | 0 <= k < |init| ensures init[k] != '/' {
          assert init[k] == name[k];
        }
      }
      BasenameOfPlainName(init);
      assert name[..n - 1] + [name[n - 1]] == name;
    }
  }

  /** Basename undoes Join for a plain file name, whatever the directory. */
  lemma BasenameOfJoin(dir: string, name: string)
    requires '/' !in name
    ensures Basename(Join(dir, name)) == name
  {
    assert name == [] || name[0] in name;
    if dir == [] {
      assert Join(dir, name) == name;
      BasenameOfPlainName(name);
    } else if dir[|dir| - 1] == '/' {
      assert dir + name == dir[..|dir| - 1] + "/" + name;
      BasenameAfterSlash(dir[..|dir| - 1], name);
    } else {
      BasenameAfterSlash(dir, name);
    }
  }
}
