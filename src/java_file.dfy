/** A `java.io.File` on a Unix file system, reduced to the path string it
    holds (taken as already normalised, as the File constructor leaves it). */
module JavaFile {
  import opened Wrappers

  datatype File = File(path: string)

  /** No empty name between two separators, as the File constructor ensures. */
  predicate Normalised(f: File) {
    forall k :: 0 < k < |f.path| ==> !(f.path[k - 1] == '/' && f.path[k] == '/')
  }

  predicate IsAbsolute(f: File) {
    |f.path| > 0 && f.path[0] == '/'
  }

  /** Length of the path's root prefix: 1 for "/", 0 for a relative path. */
  function PrefixLength(f: File): nat {
    if IsAbsolute(f) then 1 else 0
  }

  /** `String.lastIndexOf('/')`: the last separator, or -1 when there is none. */
  function LastSlash(s: string): (i: int)
    ensures -1 <= i < |s|
    ensures i >= 0 ==> s[i] == '/'
    ensures forall k :: i < k < |s| ==> s[k] != '/'
  {
    if |s| == 0 then -1
    else if s[|s| - 1] == '/' then |s| - 1
    else LastSlash(s[..|s| - 1])
  }

  /** `File.getParentFile()`: null (None) when the path names no parent. */
  function GetParentFile(f: File): Option<File> {
    var i := LastSlash(f.path);
    var pre := PrefixLength(f);
    if i < pre then
      if pre > 0 && |f.path| > pre then Some(File(f.path[..pre])) else None
    else Some(File(f.path[..i]))
  }

  /** `File.getName()`: the last name in the path. */
  function GetName(f: File): (name: string)
    ensures forall k :: 0 <= k < |name| ==> name[k] != '/'
  {
    var i := LastSlash(f.path);
    if i < PrefixLength(f) then f.path[PrefixLength(f)..] else f.path[i + 1..]
  }

  /** `UnixFileSystem.resolve(parent, child)`, used by `getAbsolutePath`. */
  function JavaResolve(parent: string, child: string): string {
    if child == [] then parent
    else if child[0] == '/' then (if parent == "/" then child else parent + child)
    else if parent == "/" then parent + child
    else parent + "/" + child
  }

  /** `File.getAbsolutePath()`; a relative path is resolved against the
      JVM's current directory, passed in as `userDir`. */
  function GetAbsolutePath(f: File, userDir: string): (r: string)
    ensures IsAbsolute(f) ==> r == f.path
    ensures !IsAbsolute(f) && IsAbsolute(File(userDir)) ==> IsAbsolute(File(r))
    ensures !IsAbsolute(f) && f.path == [] ==> r == userDir
    ensures !IsAbsolute(f) && f.path != [] ==>
      r == (if userDir == "/" then userDir else userDir + "/") + f.path
  {
    if IsAbsolute(f) then f.path else JavaResolve(userDir, f.path)
  }

  /** How the scheduler reads an output path given with a job whose working
      directory is `dir`: an absolute path as it stands, a relative one
      beneath `dir`. */
  function SchedulerPath(dir: File, p: string): string {
    if |p| > 0 && p[0] == '/' then p
    else if |dir.path| > 0 && dir.path[|dir.path| - 1] == '/' then dir.path + p
    else dir.path + "/" + p
  }

  /** An absolute file is its parent directory joined with its name. */
  lemma ParentJoinName(f: File)
    requires IsAbsolute(f) && Normalised(f) && GetParentFile(f).Some?
    ensures SchedulerPath(GetParentFile(f).value, GetName(f)) == f.path
  {
    var i := LastSlash(f.path);
    var name := GetName(f);
    if i < 1 {
      assert i == 0;
      assert GetParentFile(f).value.path == "/";
      assert name == f.path[1..];
      assert "/" + f.path[1..] == f.path;
    } else {
      var dir := GetParentFile(f).value;
      assert dir.path == f.path[..i];
      assert name == f.path[i + 1..];
      assert |name| == 0 || name[0] != '/';
      assert f.path[i] == '/' && dir.path[|dir.path| - 1] == f.path[i - 1];
      assert f.path[..i] + "/" + f.path[i + 1..] == f.path;
    }
  }
}
