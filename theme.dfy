/**
 * The ttk theme loader of Theme.py: it optionally loads a theme package,
 * then either sources a Tcl theme file and uses the theme named after the
 * file, or uses a theme by name.
 */
module Themes {
  import opened Values

  // ---------------------------------------------------------------------
  // Theme-name derivation
  // ---------------------------------------------------------------------

  /** b is the tail of p. */
  predicate EndsWith(p: string, b: string) {
    |b| <= |p| && p[|p| - |b|..] == b
  }

  /** `os.path.basename` on a POSIX path: everything after the last '/'. */
  function Basename(p: string): (b: string)
    ensures EndsWith(p, b)
    ensures '/' !in b
    ensures |b| < |p| ==> p[|p| - |b| - 1] == '/'
  {
    if p == [] then []
    else if p[|p| - 1] == '/' then []
    else Basename(p[..|p| - 1]) + [p[|p| - 1]]
  }

  const Suffix: string := ".tcl"

  /** Whether ".tcl" occurs in s starting at index i. */
  predicate SuffixAt(s: string, i: int)
    requires 0 <= i <= |s|
  {
    i + 4 <= |s| && s[i..i + 4] == Suffix
  }

  /**
   * `s.replace(".tcl", "")`: occurrences are removed left to right, without
   * overlap, in one pass.
   */
  function RemoveSuffixes(s: string): (r: string)
    ensures |r| <= |s| && (|s| - |r|) % 4 == 0
    ensures forall c :: c in r ==> c in s
  {
    if |s| >= 4 && s[..4] == Suffix then RemoveSuffixes(s[4..])
    else if s == [] then []
    else [s[0]] + RemoveSuffixes(s[1..])
  }

  /** A subsequence of b with k leading characters dropped is a subsequence of b. */
  lemma {:induction false} SubsequenceOfTail(a: string, b: string, k: nat)
    requires k <= |b| && IsSubsequence(a, b[k..])
    ensures IsSubsequence(a, b)
  {
    if k > 0 {
      assert b[k - 1..][1..] == b[k..];
      SubsequenceOfTail(a, b, k - 1);
    }
  }

  /** Removal only deletes characters: the result is a subsequence of the text. */
  lemma {:induction false} RemovalDeletes(s: string)
    ensures IsSubsequence(RemoveSuffixes(s), s)
  {
    if |s| >= 4 && s[..4] == Suffix {
      RemovalDeletes(s[4..]);
      SubsequenceOfTail(RemoveSuffixes(s), s, 4);
    } else if s != [] {
      RemovalDeletes(s[1..]);
      assert ([s[0]] + RemoveSuffixes(s[1..]))[1..] == RemoveSuffixes(s[1..]);
    }
  }

  /**
   * The first occurrence is removed whole and what precedes it is kept:
   * when p + ".tcl" + q holds no ".tcl" starting inside p, the result is p
   * followed by the removal applied to q. With `NoSuffixUnchanged` for texts
   * without an occurrence, this determines the result for every text.
   */
  lemma {:induction false} RemovesFirstOccurrence(p: string, q: string)
    requires forall i :: 0 <= i < |p| ==> !SuffixAt(p + Suffix + q, i)
    ensures RemoveSuffixes(p + Suffix + q) == p + RemoveSuffixes(q)
  {
    var s := p + Suffix + q;
    if p == [] {
      assert s[..4] == Suffix && s[4..] == q;
    } else {
      assert !SuffixAt(s, 0);
      assert s[1..] == p[1..] + Suffix + q;
      forall i | 0 <= i < |p[1..]|
        ensures !SuffixAt(p[1..] + Suffix + q, i)
      {
        assert !SuffixAt(s, i + 1);
        assert s[1..][i..i + 4] == s[i + 1..i + 5];
      }
      RemovesFirstOccurrence(p[1..], q);
      assert [p[0]] + (p[1..] + RemoveSuffixes(q)) == p + RemoveSuffixes(q);
    }
  }

  /** The name a theme file's theme is used under: its basename with every ".tcl" removed. */
  function ThemeNameOf(file: string): (n: string)
    ensures '/' !in n
  {
    RemoveSuffixes(Basename(file))
  }

  /** A text without ".tcl" in it is left as it is. */
  lemma {:induction false} NoSuffixUnchanged(s: string)
    requires forall i :: 0 <= i <= |s| ==> !SuffixAt(s, i)
    ensures RemoveSuffixes(s) == s
  {
    if s != [] {
      assert !SuffixAt(s, 0);
      forall i | 0 <= i <= |s[1..]|
        ensures !SuffixAt(s[1..], i)
      {
        assert !SuffixAt(s, i + 1);
        if i + 4 <= |s[1..]| {
          assert s[1..][i..i + 4] == s[i + 1..i + 5];
        }
      }
      NoSuffixUnchanged(s[1..]);
    }
  }

  /** Appending ".tcl" to a name does not change the theme name it gives. */
  lemma {:induction false} DropsTrailingSuffix(s: string)
    ensures RemoveSuffixes(s + Suffix) == RemoveSuffixes(s)
  {
    if s == [] {
      assert s + Suffix == Suffix;
      assert Suffix[4..] == [];
    } else if |s| >= 4 && s[..4] == Suffix {
      assert (s + Suffix)[..4] == Suffix;
      assert (s + Suffix)[4..] == s[4..] + Suffix;
      DropsTrailingSuffix(s[4..]);
    } else {
      // no occurrence starts at index 0: when s is shorter than four, the
      // '.' that ".tcl" starts with would have to fall on 't', 'c' or 'l'
      assert (s + Suffix)[..4] != Suffix by {
        if |s| < 4 {
          assert (s + Suffix)[|s|] == Suffix[0];
          assert Suffix[|s|] != '.';
        } else {
          assert (s + Suffix)[..4] == s[..4];
        }
      }
      assert (s + Suffix)[1..] == s[1..] + Suffix;
      DropsTrailingSuffix(s[1..]);
    }
  }

  /** A text without a '.' cannot hold ".tcl". */
  lemma NoDotUnchanged(s: string)
    requires '.' !in s
    ensures RemoveSuffixes(s) == s
  {
  }

  /** The basename of a path is the part after its last '/', whatever the directory. */
  lemma {:induction false} BasenameOf(dir: string, f: string)
    requires '/' !in f
    ensures Basename(dir + "/" + f) == f
  {
    var p := dir + "/" + f;
    if f != [] {
      assert p[|p| - 1] == f[|f| - 1];
      assert p[..|p| - 1] == dir + "/" + f[..|f| - 1];
      BasenameOf(dir, f[..|f| - 1]);
      assert f[..|f| - 1] + [f[|f| - 1]] == f;
    } else {
      assert p[|p| - 1] == '/';
    }
  }

  /** A file "dir/stem.tcl" gives the theme "stem" (as "themes/azure.tcl" gives "azure"). */
  lemma ThemeFileName(dir: string, stem: string)
    requires '/' !in stem && '.' !in stem
    ensures ThemeNameOf(dir + "/" + stem + Suffix) == stem
  {
    assert dir + "/" + stem + Suffix == dir + "/" + (stem + Suffix);
    assert '/' !in stem + Suffix;
    BasenameOf(dir, stem + Suffix);
    DropsTrailingSuffix(stem);
    NoDotUnchanged(stem);
  }

  /** One pass can leave a ".tcl" behind: removing the middle one of ".t.tclcl" joins ".t" and "cl". */
  lemma RemovalCanCreateSuffix()
    ensures RemoveSuffixes(".t.tclcl") == ".tcl"
  {
    assert ".t.tclcl"[..4][2] != Suffix[2];
    assert ".t.tclcl"[1..] == "t.tclcl";
    assert "t.tclcl"[..4][0] != Suffix[0];
    assert "t.tclcl"[1..] == ".tclcl";
    assert ".tclcl"[..4] == Suffix;
    assert ".tclcl"[4..] == "cl";
    NoDotUnchanged("cl");
  }

  // ---------------------------------------------------------------------
  // The theme object
  // ---------------------------------------------------------------------

  /** The Tcl commands the loader sends to the interpreter. */
  datatype TclCall =
    | AppendAutoPath(dir: string)   // `lappend auto_path dir`
    | PackageRequire(pkg: string)   // `package require pkg`
    | Source(file: string)          // `source file`
    | ThemeUse(theme: string)       // `ttk::style theme use theme`
    | ThemeQuery                    // `theme_use()` with no name: asks for the current theme

  /**
   * What the interpreter of the master (the given window, or the default
   * root that the style's setup supplies) can do: which packages
   * `package require` finds, which files `source` reads and which themes are
   * defined once they are sourced.
   */
  datatype Interpreter = Interpreter(packages: set<string>, sourceable: set<string>, themes: set<string>)

  datatype ThemeError =
    | NotAPath                      // TypeError: `os.path.basename(None)`
    | PackageNotFound(pkg: string)  // TclError from `package require`
    | FileAndName                   // "Couldn't use theme name and tcl file at the same time"
    | NotARoot                      // the one exception every failure of the try block becomes

  /** The package step goes through: no package, or a name whose basename is a package that is found. */
  predicate PackageLoads(name: Option<string>, pkg: Option<string>, tcl: Interpreter) {
    pkg.None? || (name.Some? && Basename(name.value) in tcl.packages)
  }

  /** The try block goes through: the file is sourced and defines its theme, or the named theme exists. */
  predicate ThemeApplies(name: Option<string>, file: Option<string>, tcl: Interpreter) {
    if file.Some? then file.value in tcl.sourceable && ThemeNameOf(file.value) in tcl.themes
    else name.None? || name.value in tcl.themes
  }

  /** The Tcl commands of the package step: `lappend auto_path`, then `package require` once there is a name. */
  function PackageCalls(name: Option<string>, pkg: Option<string>): seq<TclCall> {
    if pkg.None? then []
    else if name.None? then [AppendAutoPath(pkg.value)]
    else [AppendAutoPath(pkg.value), PackageRequire(Basename(name.value))]
  }

  /**
   * The Tcl commands of the try block up to its first failure: the file is
   * sourced and, when that succeeds, its theme used; or the named theme is
   * used; or, with neither, the current theme is asked for.
   */
  function TryCalls(name: Option<string>, file: Option<string>, tcl: Interpreter): seq<TclCall> {
    if file.Some? then
      if file.value in tcl.sourceable then [Source(file.value), ThemeUse(ThemeNameOf(file.value))]
      else [Source(file.value)]
    else if name.Some? then [ThemeUse(name.value)]
    else [ThemeQuery]
  }

  class Theme {
    const name: Option<string>
    const file: Option<string>
    const pkg: Option<string>
    /** the theme in use: None when neither a name nor a file was given */
    const theme: Option<string>

    constructor (name: Option<string>, file: Option<string>, pkg: Option<string>, theme: Option<string>)
      ensures this.name == name && this.file == file && this.pkg == pkg && this.theme == theme
    {
      this.name, this.file, this.pkg, this.theme := name, file, pkg, theme;
    }

    /**
     * The package step of `Theme(...)` (before any other check): with a
     * package, append it to `auto_path` and require the basename of the
     * name. Its errors are raised as they are.
     */
    static method LoadPackage(name: Option<string>, pkg: Option<string>, tcl: Interpreter)
      returns (err: Option<ThemeError>, calls: seq<TclCall>)
      ensures err.None? <==> PackageLoads(name, pkg, tcl)
      ensures calls == PackageCalls(name, pkg)
      ensures pkg.None? ==> calls == []
      ensures pkg.Some? && name.None? ==> err == Some(NotAPath) && calls == [AppendAutoPath(pkg.value)]
      ensures pkg.Some? && name.Some? ==>
        && calls == [AppendAutoPath(pkg.value), PackageRequire(Basename(name.value))]
        && (Basename(name.value) !in tcl.packages ==> err == Some(PackageNotFound(Basename(name.value))))
    {
      calls := [];
      err := None;
      if pkg.Some? {
        calls := [AppendAutoPath(pkg.value)];
        if name.None? {
          return Some(NotAPath), calls;
        }
        var required := Basename(name.value);
        calls := calls + [PackageRequire(required)];
        if required !in tcl.packages {
          err := Some(PackageNotFound(required));
        }
      }
    }

    /**
     * The try block of `Theme(...)`: source the file and use the theme named
     * after it, or use the named theme (with no name, only ask for the
     * current one). Every failure is the one generic NotARoot.
     */
    static method ApplyTheme(name: Option<string>, file: Option<string>, tcl: Interpreter)
      returns (r: Result<Option<string>, ThemeError>, calls: seq<TclCall>)
      ensures r.Ok? <==> ThemeApplies(name, file, tcl)
      ensures r.Err? ==> r.error == NotARoot
      ensures r.Ok? ==> r.value == (if file.Some? then Some(ThemeNameOf(file.value)) else name)
      ensures calls == TryCalls(name, file, tcl)
      ensures file.Some? && file.value !in tcl.sourceable ==> r.Err? && calls == [Source(file.value)]
      ensures file.Some? && file.value in tcl.sourceable ==> calls == [Source(file.value), ThemeUse(ThemeNameOf(file.value))]
      ensures file.None? && name.Some? ==> calls == [ThemeUse(name.value)]
      ensures file.None? && name.None? ==> r.Ok? && calls == [ThemeQuery]
    {
      if file.Some? {
        calls := [Source(file.value)];
        if file.value !in tcl.sourceable {
          return Err(NotARoot), calls;
        }
        var used := ThemeNameOf(file.value);
        calls := calls + [ThemeUse(used)];
        if used !in tcl.themes {
          return Err(NotARoot), calls;
        }
        r := Ok(Some(used));
      } else if name.Some? {
        calls := [ThemeUse(name.value)];
        if name.value !in tcl.themes {
          return Err(NotARoot), calls;
        }
        r := Ok(name);
      } else {
        calls := [ThemeQuery];
        r := Ok(None);
      }
    }

    /**
     * `Theme(master, name, file, pkg)`. The package (when given) is loaded
     * first and its errors pass through unchanged; then a file together
     * with a name is refused; then the try block runs, and any failure there
     * becomes NotARoot.
     */
    static method New(name: Option<string>, file: Option<string>, pkg: Option<string>, tcl: Interpreter)
      returns (r: Result<Theme, ThemeError>, calls: seq<TclCall>)
      ensures pkg.Some? ==> |calls| >= 1 && calls[0] == AppendAutoPath(pkg.value)
      ensures pkg.Some? && name.Some? ==> |calls| >= 2 && calls[1] == PackageRequire(Basename(name.value))
      ensures !PackageLoads(name, pkg, tcl) ==> r.Err? && r.error != NotARoot && r.error != FileAndName
      ensures pkg.Some? && name.None? ==> r == Err(NotAPath) && calls == [AppendAutoPath(pkg.value)]
      ensures pkg.Some? && name.Some? && Basename(name.value) !in tcl.packages ==>
        && r == Err(PackageNotFound(Basename(name.value)))
        && calls == [AppendAutoPath(pkg.value), PackageRequire(Basename(name.value))]
      ensures PackageLoads(name, pkg, tcl) && file.Some? && name.Some? ==> r == Err(FileAndName)
      ensures (!PackageLoads(name, pkg, tcl) || (file.Some? && name.Some?)) ==> calls == PackageCalls(name, pkg)
      ensures pkg.None? && file.Some? && name.Some? ==> calls == []
      ensures PackageLoads(name, pkg, tcl) && !(file.Some? && name.Some?) ==>
        calls == PackageCalls(name, pkg) + TryCalls(name, file, tcl)
      ensures PackageLoads(name, pkg, tcl) && !(file.Some? && name.Some?) && r.Err? ==> r.error == NotARoot
      ensures r.Ok? <==> PackageLoads(name, pkg, tcl) && !(file.Some? && name.Some?) && ThemeApplies(name, file, tcl)
      ensures r.Ok? ==> (fresh(r.value)
        && r.value.name == name && r.value.file == file && r.value.pkg == pkg
        && r.value.theme == (if file.Some? then Some(ThemeNameOf(file.value)) else name))
      ensures r.Ok? ==>
        calls == PackageCalls(name, pkg) + (if file.Some? then [Source(file.value), ThemeUse(ThemeNameOf(file.value))]
                                            else if name.Some? then [ThemeUse(name.value)]
                                            else [ThemeQuery])
    {
      var err;
      err, calls := LoadPackage(name, pkg, tcl);
      if err.Some? {
        return Err(err.value), calls;
      }
      if file.Some? && name.Some? {
        return Err(FileAndName), calls;
      }
      var theme, more := ApplyTheme(name, file, tcl);
      calls := calls + more;
      if theme.Err? {
        return Err(theme.error), calls;
      }
      var t := new Theme(name, file, pkg, theme.value);
      return Ok(t), calls;
    }

    /** `keys()`: the three constructor options, once each. */
    static function Keys(): (ks: seq<string>)
      ensures |ks| == 3 && forall k :: k in ks <==> k in {"name", "file", "pkg"}
      ensures ks[0] == "name" && ks[1] == "file" && ks[2] == "pkg"
    {
      ["name", "file", "pkg"]
    }
  }

  /**
   * Loading "dir/stem.tcl" sources the file and uses the
   * theme "stem".
   */
  method LoadThemeFile(dir: string, stem: string) returns (theme: Option<string>, calls: seq<TclCall>)
    requires '/' !in stem && '.' !in stem
    ensures theme == Some(stem)
    ensures calls == [Source(dir + "/" + stem + Suffix), ThemeUse(stem)]
  {
    var file := dir + "/" + stem + Suffix;
    ThemeFileName(dir, stem);
    var r;
    r, calls := Theme.New(None, Some(file), None, Interpreter({}, {file}, {stem}));
    theme := r.value.theme;
  }
}
