/**
 * The working-directory rule shared by the two Terminal apps
 * (`Terminal.cmd_cd` in Apps/Terminal/main.py, `Terminal.do_cd` in
 * programs/Terminal/main.py).  Paths are plain strings; nothing is looked up
 * in a file system.
 */
module ShellPath {
  import opened PyStr

  /** Where `cd` with no argument goes, and where a terminal starts. */
  const HomeDir: string := "/Users/Default"

  /** `'/'.join(cwd.rstrip('/').split('/')[:-1]) or '/'`. */
  function Parent(cwd: string): (r: string)
    ensures r != []
  {
    var parts := SplitOn(StripRightChar(cwd, '/'), '/');
    var joined := Join(parts[..|parts| - 1], "/");
    if joined == [] then "/" else joined
  }

  /** `cd` with the words after the command. */
  function ChangeDir(cwd: string, args: seq<string>): (r: string)
    ensures args == [] ==> r == HomeDir
    ensures args != [] && args[0] != ".." && "/" <= args[0] ==> r == args[0]
  {
    if args == [] then HomeDir
    else if args[0] == ".." then (if cwd != "/" then Parent(cwd) else cwd)
    else if args[0] == "/" then "/"
    else if "/" <= args[0] then args[0]
    else CollapseSlashes(cwd + "/" + args[0])
  }

  /**
   * The parent drops the trailing slashes and then everything from the last
   * remaining '/' on; when that leaves nothing the parent is the root.
   */
  lemma ParentShape(cwd: string)
    ensures var t := StripRightChar(cwd, '/');
      Parent(cwd) == if '/' in t && LastIndexOf(t, '/') > 0 then t[..LastIndexOf(t, '/')] else "/"
  {
    var t := StripRightChar(cwd, '/');
    var parts := SplitOn(t, '/');
    JoinAllButLast(t, '/');
    var joined := Join(parts[..|parts| - 1], "/");
    assert joined == if '/' in t then t[..LastIndexOf(t, '/')] else [];
  }

  /** The parent is the root or a proper prefix of the directory that ends just before a '/'. */
  lemma ParentIsAncestor(cwd: string)
    ensures var p := Parent(cwd);
      p == "/" || (|p| < |cwd| && p == cwd[..|p|] && cwd[|p|] == '/')
  {
    ParentShape(cwd);
    var t := StripRightChar(cwd, '/');
    if '/' in t && LastIndexOf(t, '/') > 0 {
      var i := LastIndexOf(t, '/');
      assert Parent(cwd) == t[..i];
      assert cwd[i] == t[i];
    }
  }

  /** The parent of `a/b`, for a last component `b` without '/', is `a` (the root when `a` is empty). */
  lemma ParentOfChild(a: string, b: string)
    requires b != [] && '/' !in b
    ensures Parent(a + ['/'] + b) == if a == [] then "/" else a
  {
    var s := a + ['/'] + b;
    assert s[|s| - 1] == b[|b| - 1];
    assert StripRightChar(s, '/') == s;
    LastIndexBefore(a, '/', b);
    assert s[..|a|] == a;
    ParentShape(s);
  }

  /** `cd ..` at the root stays at the root; elsewhere it goes to the parent. */
  lemma UpFromRoot(args: seq<string>)
    requires args != [] && args[0] == ".."
    ensures ChangeDir("/", args) == "/"
  {
  }

  /** "/Users" goes up to the root. */
  lemma ParentOfTopLevel()
    ensures Parent("/Users") == "/"
  {
    assert "/Users" == [] + ['/'] + "Users";
    assert '/' !in "Users";
    ParentOfChild([], "Users");
  }

  /** "/Users/Default" goes up to "/Users". */
  lemma ParentOfHome()
    ensures Parent(HomeDir) == "/Users"
  {
    assert HomeDir == "/Users" + ['/'] + "Default";
    assert '/' !in "Default";
    ParentOfChild("/Users", "Default");
  }

  /** Trailing slashes do not matter: "/Users/Default/" also goes up to "/Users". */
  lemma ParentIgnoresTrailingSlash()
    ensures Parent("/Users/Default/") == "/Users"
  {
    var v := "/Users/Default/";
    assert v[..|v| - 1] == HomeDir;
    assert StripRightChar(HomeDir, '/') == HomeDir;
    assert StripRightChar(v, '/') == HomeDir;
    ParentOfHome();
  }

  /** A name without "//" and not starting with '/' appended to the root gives "/" + name. */
  lemma RelativeFromRoot(name: string)
    requires name != ".." && !("/" <= name)
    requires forall k :: 0 <= k < |name| - 1 ==> !(name[k] == '/' && name[k + 1] == '/')
    ensures ChangeDir("/", [name]) == "/" + name
  {
    assert "/" + "/" + name == "//" + name;
    assert ("//" + name)[2..] == name;
    CollapseWithoutPairs(name);
  }

  /**
   * Below a directory that does not end in '/', a relative name is joined
   * with one '/', provided neither part holds "//".
   */
  lemma RelativeJoin(cwd: string, name: string)
    requires cwd != "/" && name != ".." && !("/" <= name) && name != "/"
    requires cwd != [] && cwd[|cwd| - 1] != '/'
    requires forall k :: 0 <= k < |cwd| - 1 ==> !(cwd[k] == '/' && cwd[k + 1] == '/')
    requires forall k :: 0 <= k < |name| - 1 ==> !(name[k] == '/' && name[k + 1] == '/')
    ensures ChangeDir(cwd, [name]) == cwd + "/" + name
  {
    var s := cwd + "/" + name;
    forall k | 0 <= k < |s| - 1
      ensures !(s[k] == '/' && s[k + 1] == '/')
    {
      if k < |cwd| - 1 {
        assert s[k] == cwd[k] && s[k + 1] == cwd[k + 1];
      } else if k == |cwd| - 1 {
        assert s[k] == cwd[|cwd| - 1];
      } else if k == |cwd| {
        assert s[k + 1] == name[0];
      } else {
        assert s[k] == name[k - |cwd| - 1] && s[k + 1] == name[k - |cwd|];
      }
    }
    CollapseWithoutPairs(s);
  }

  /** "/" and "Apps" give "/Apps". */
  lemma AppsFromRoot()
    ensures ChangeDir("/", ["Apps"]) == "/Apps"
  {
    var name := "Apps";
    assert name[0] != '/';
    assert forall k :: 0 <= k < |name| ==> name[k] != '/';
    RelativeFromRoot(name);
  }
}
