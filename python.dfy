/** The few pieces of Python the script engine relies on: optional values,
    exceptions escaping a call, `str.replace(p, "")` and the parts of a
    POSIX `pathlib.Path`. */
module Python {

  datatype Option<+T> = None | Some(value: T)

  /** The exceptions the model lets escape a call. */
  datatype PyError =
    | TypeError     // a callable invoked with the wrong number or kind of arguments
    | IndexError    // `parts[-1]` on an empty tuple
    | RuntimeError  // a thread joining itself

  /** What a Python call does: return a value or raise. */
  datatype Outcome<+T> = Ok(value: T) | Raised(error: PyError)

  predicate StartsWith(s: string, p: string) {
    |p| <= |s| && s[..|p|] == p
  }

  /** `p` occurs in `s` starting at index `i`. */
  predicate OccursAt(s: string, p: string, i: int) {
    0 <= i && i + |p| <= |s| && s[i..i + |p|] == p
  }

  /** `p in s` */
  ghost predicate Occurs(s: string, p: string) {
    exists i :: OccursAt(s, p, i)
  }

  /** `s.replace(p, "")`: scanning left to right, every non-overlapping
      occurrence of `p` is deleted. */
  function DeleteAll(s: string, p: string): (r: string)
    requires p != ""
    ensures forall c :: c in r ==> c in s
    decreases |s|
  {
    if s == [] then []
    else if StartsWith(s, p) then DeleteAll(s[|p|..], p)
    else [s[0]] + DeleteAll(s[1..], p)
  }

  /** Deleting never lengthens a string. */
  lemma {:induction false} DeleteAllShortens(s: string, p: string)
    requires p != ""
    ensures |DeleteAll(s, p)| <= |s|
    decreases |s|
  {
    if s == [] {
    } else if StartsWith(s, p) {
      DeleteAllShortens(s[|p|..], p);
    } else {
      DeleteAllShortens(s[1..], p);
    }
  }

  /** A string without an occurrence of `p` is left as it is. */
  lemma {:induction false} DeleteAllWithoutOccurrence(s: string, p: string)
    requires p != ""
    requires !Occurs(s, p)
    ensures DeleteAll(s, p) == s
    decreases |s|
  {
    if s != [] {
      assert StartsWith(s, p) ==> OccursAt(s, p, 0);
      forall i | OccursAt(s[1..], p, i)
        ensures OccursAt(s, p, i + 1)
      {
        assert s[i + 1..i + 1 + |p|] == s[1..][i..i + |p|];
      }
      DeleteAllWithoutOccurrence(s[1..], p);
    }
  }

  /** Because no suffix of ".py" is also a prefix of it, deleting ".py" from
      `stem + ".py"` deletes the trailing copy and treats `stem` alone. */
  lemma {:induction false} DeleteAllTrailingPy(stem: string)
    ensures DeleteAll(stem + ".py", ".py") == DeleteAll(stem, ".py")
    decreases |stem|
  {
    var s := stem + ".py";
    if stem == [] {
      assert StartsWith(s, ".py");
      assert s[3..] == [];
    } else if |stem| >= 3 {
      assert s[..3] == stem[..3];
      if StartsWith(stem, ".py") {
        assert s[3..] == stem[3..] + ".py";
        DeleteAllTrailingPy(stem[3..]);
      } else {
        assert s[1..] == stem[1..] + ".py";
        DeleteAllTrailingPy(stem[1..]);
      }
    } else {
      assert !StartsWith(s, ".py") by {
        if |stem| == 1 { assert s[1] == '.'; } else { assert s[2] == '.'; }
      }
      assert !StartsWith(stem, ".py");
      assert s[1..] == stem[1..] + ".py";
      DeleteAllTrailingPy(stem[1..]);
    }
  }

  /** `s.split("/")`: the pieces between separators, empty ones included. */
  function Split(s: string): (r: seq<string>)
    ensures |r| >= 1
    ensures forall k :: 0 <= k < |r| ==> '/' !in r[k]
  {
    if s == [] then [""]
    else
      var rest := Split(s[1..]);
      if s[0] == '/' then [""] + rest
      else [[s[0]] + rest[0]] + rest[1..]
  }

  /** Splitting at a separator splits the two sides independently. */
  lemma {:induction false} SplitAtSeparator(x: string, y: string)
    ensures Split(x + "/" + y) == Split(x) + Split(y)
    decreases |x|
  {
    if x == [] {
      assert x + "/" + y == ['/'] + y;
      assert (x + "/" + y)[1..] == y;
    } else {
      assert (x + "/" + y)[1..] == x[1..] + "/" + y;
      SplitAtSeparator(x[1..], y);
    }
  }

  /** A piece without a separator splits into itself. */
  lemma {:induction false} SplitPiece(name: string)
    requires '/' !in name
    ensures Split(name) == [name]
    decreases |name|
  {
    if name != [] {
      SplitPiece(name[1..]);
      assert [name[0]] + name[1..] == name;
    }
  }

  /** The pieces `pathlib` keeps as parts: empty pieces and "." are dropped. */
  function Components(pieces: seq<string>): (r: seq<string>)
    ensures forall k :: 0 <= k < |r| ==> r[k] != "" && r[k] != "."
    ensures forall x :: x in r ==> x in pieces
  {
    if pieces == [] then []
    else
      (if pieces[0] != "" && pieces[0] != "." then [pieces[0]] else [])
      + Components(pieces[1..])
  }

  lemma {:induction false} ComponentsAppend(a: seq<string>, b: seq<string>)
    ensures Components(a + b) == Components(a) + Components(b)
    decreases |a|
  {
    if a == [] {
      assert a + b == b;
    } else {
      assert (a + b)[0] == a[0];
      assert (a + b)[1..] == a[1..] + b;
      ComponentsAppend(a[1..], b);
    }
  }

  /** `Path(path).parts` for a POSIX path: the root "/" first when the path
      is absolute, then the named components. */
  function PathParts(path: string): (parts: seq<string>)
    ensures forall k :: 0 <= k < |parts| ==> parts[k] != ""
    ensures (parts != [] && parts[0] == "/") <==> (path != [] && path[0] == '/')
  {
    var named := Components(Split(path));
    assert named != [] ==> named[0] in Split(path) && '/' in "/";
    (if |path| > 0 && path[0] == '/' then ["/"] else []) + named
  }

  /** `Path(path).parts[-1]`, or None where that raises IndexError. */
  function ScriptName(path: string): (r: Option<string>)
    ensures r.None? <==> PathParts(path) == []
    ensures r.Some? ==> r.value != "" && r.value in PathParts(path)
  {
    var parts := PathParts(path);
    if parts == [] then None else Some(parts[|parts| - 1])
  }

  /** The module a script file is imported as: its last path component with
      every ".py" deleted (`script_name.replace(".py", "")`). */
  function ModuleName(path: string): (r: Option<string>)
    ensures r.None? <==> ScriptName(path).None?
    ensures r.Some? ==> |r.value| <= |ScriptName(path).value|
    ensures r.Some? ==> forall c :: c in r.value ==> c in ScriptName(path).value
  {
    match ScriptName(path)
    case None => None
    case Some(name) =>
      DeleteAllShortens(name, ".py");
      Some(DeleteAll(name, ".py"))
  }

  /** The last component of `dir/name` is `name`, whatever `dir` is. */
  lemma LastComponentIsName(dir: string, name: string)
    requires '/' !in name && name != "" && name != "."
    ensures ScriptName(dir + "/" + name) == Some(name)
  {
    SplitAtSeparator(dir, name);
    SplitPiece(name);
    ComponentsAppend(Split(dir), [name]);
    assert Components([name]) == [name];
  }

  /** A script `dir/stem.py` is imported as `stem` with any ".py" inside it
      deleted as well, so the name is more than a stripped suffix. */
  lemma ModuleNameOfScript(dir: string, stem: string)
    requires '/' !in stem
    ensures ModuleName(dir + "/" + stem + ".py") == Some(DeleteAll(stem, ".py"))
  {
    assert dir + "/" + stem + ".py" == dir + "/" + (stem + ".py");
    LastComponentIsName(dir, stem + ".py");
    DeleteAllTrailingPy(stem);
  }

  /** An empty path has no parts, so `parts[-1]` raises. */
  lemma EmptyPathHasNoScriptName()
    ensures ModuleName("") == None
  {
  }

  /** `strategies/demo.py` is imported as `demo`. */
  lemma ModuleNameOfDemo()
    ensures ModuleName("strategies/demo.py") == Some("demo")
  {
    ModuleNameOfScript("strategies", "demo");
    assert "strategies" + "/" + "demo" + ".py" == "strategies/demo.py";
    assert DeleteAll("demo", ".py") == "demo" by {
      assert DeleteAll("o", ".py") == "o";
      assert DeleteAll("mo", ".py") == "mo";
      assert DeleteAll("emo", ".py") == "emo";
    }
  }

  /** `scripts/my.pyth.py` is imported as `myth`: the ".py" inside the
      stem goes too. */
  lemma ModuleNameOfDottedStem()
    ensures ModuleName("scripts/my.pyth.py") == Some("myth")
  {
    ModuleNameOfScript("scripts", "my.pyth");
    assert "scripts" + "/" + "my.pyth" + ".py" == "scripts/my.pyth.py";
    assert DeleteAll("my.pyth", ".py") == "myth" by {
      assert DeleteAll("h", ".py") == "h";
      assert DeleteAll("th", ".py") == "th";
      assert DeleteAll(".pyth", ".py") == "th";
      assert DeleteAll("y.pyth", ".py") == "yth";
    }
  }
}
