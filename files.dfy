/**
  The part of `java.io.File` (on a Unix file system) that the plugin relies on.
  A file is its path string; the host build hands the plugin resolved, absolute
  files, so `getAbsolutePath()` of such a file is its path.
 */
module Files {

  /** A `java.io.File`, identified by its path string. */
  datatype File = File(path: string)

  /** The name separator of the Unix file system. */
  const Separator: char := '/'

  /** `s` ends `t`. */
  predicate IsSuffix(s: string, t: string) {
    |s| <= |t| && forall i :: 0 <= i < |s| ==> s[i] == t[|t| - |s| + i]
  }

  /** `File.isAbsolute()` on Unix. */
  predicate IsAbsolute(f: File) {
    |f.path| > 0 && f.path[0] == Separator
  }

  /** `File.getAbsolutePath()` of a file the host has already resolved. */
  function AbsolutePath(f: File): string {
    f.path
  }

  /**
    `File.getName()`: everything after the last separator of the path, or the
    whole path when it has none. The contract characterises that suffix: it
    holds no separator, it ends the path, and whatever precedes it ends in a
    separator.
   */
  function Name(f: File): (r: string)
    ensures Separator !in r
    ensures IsSuffix(r, f.path)
    ensures |r| < |f.path| ==> f.path[|f.path| - |r| - 1] == Separator
    decreases |f.path|
  {
    if f.path == [] then []
    else if f.path[|f.path| - 1] == Separator then []
    else Name(File(f.path[..|f.path| - 1])) + [f.path[|f.path| - 1]]
  }

  /** The name of a path is determined by the three facts `Name` ensures. */
  lemma {:induction false} NameUnique(f: File, n: string)
    requires Separator !in n
    requires IsSuffix(n, f.path)
    requires |n| < |f.path| ==> f.path[|f.path| - |n| - 1] == Separator
    ensures Name(f) == n
  {
    var r, p := Name(f), f.path;
    // neither suffix holds a separator, so neither can reach past the
    // separator that precedes the other
    assert forall i :: |p| - |n| <= i < |p| ==> p[i] != Separator by {
      forall i | |p| - |n| <= i < |p| ensures p[i] != Separator {
        assert p[i] == n[i - (|p| - |n|)];
      }
    }
    assert forall i :: |p| - |r| <= i < |p| ==> p[i] != Separator by {
      forall i | |p| - |r| <= i < |p| ensures p[i] != Separator {
        assert p[i] == r[i - (|p| - |r|)];
      }
    }
    assert |r| == |n|;
  }

  /**
    The Unix rule for joining a parent path and a normalised child path, as
    `new File(parent, child)` applies it.
   */
  function Resolve(parent: string, child: string): string {
    if child == [] then parent
    else if child[0] == Separator then (if parent == [Separator] then child else parent + child)
    else if parent == [Separator] then parent + child
    else parent + [Separator] + child
  }

  /** The paths `new File(parent, child)` treats as the root: "" and "/". */
  predicate IsRootParent(path: string) {
    path == [] || path == [Separator]
  }

  /** `new File(parent, child)`; an empty parent path stands for the root. */
  function Child(parent: File, child: string): (r: File)
    ensures |child| > 0 && child[0] != Separator && !IsRootParent(parent.path) ==>
              r.path == parent.path + [Separator] + child
    ensures |child| > 0 && child[0] != Separator && IsRootParent(parent.path) ==>
              r.path == [Separator] + child
  {
    File(Resolve(if parent.path == [] then [Separator] else parent.path, child))
  }
}
