/** Where a (stage, event) pair's scripts live, which files of that directory
    run, in what order, and the loop of execute_scripts. */
module Scripts {
  import opened Results
  import opened JsonValues
  import opened Lifecycle
  import opened StringOrder

  /** SCRIPTS_DIR. */
  const ScriptsDir: string := "scripts"

  /** _get_script_path: `scripts/<stage name>/<event name>`. The call to
      get_target_path is taken as the identity on this relative path. */
  function ScriptPath(stage: Stage, event: Event): string
  {
    ScriptsDir + "/" + (StageToName(stage) + "/" + EventToName(event))
  }

  lemma PrefixCancel(p: string, x: string, y: string)
    requires p + x == p + y
    ensures x == y
  {
    assert x == (p + x)[|p|..];
    assert y == (p + y)[|p|..];
  }

  /** Joining two slash-free-headed parts at a '/' can be undone. */
  lemma SlashJoinInjective(a: string, b: string, c: string, d: string)
    requires '/' !in a && '/' !in c
    requires a + "/" + b == c + "/" + d
    ensures a == c && b == d
  {
    var x, y := a + "/" + b, c + "/" + d;
    assert forall i :: 0 <= i < |a| ==> x[i] == a[i] && a[i] != '/';
    assert forall i :: 0 <= i < |c| ==> y[i] == c[i] && c[i] != '/';
    assert x[|a|] == '/' && y[|c|] == '/';
    var n := if |a| <= |c| then |a| else |c|;
    assert x[n] == y[n];
    assert |a| == |c|;
    assert a == x[..|a|] && c == y[..|c|];
    assert b == x[|a| + 1..] && d == y[|c| + 1..];
  }

  /** Distinct (stage, event) pairs have distinct script directories. */
  lemma ScriptPathInjective(s1: Stage, e1: Event, s2: Stage, e2: Event)
    ensures ScriptPath(s1, e1) == ScriptPath(s2, e2) <==> s1 == s2 && e1 == e2
  {
    if ScriptPath(s1, e1) == ScriptPath(s2, e2) {
      var n1, m1 := StageToName(s1), EventToName(e1);
      var n2, m2 := StageToName(s2), EventToName(e2);
      PrefixCancel(ScriptsDir + "/", n1 + "/" + m1, n2 + "/" + m2);
      SlashJoinInjective(n1, m1, n2, m2);
      StageNamesDistinct(s1, s2);
      EventNamesDistinct(e1, e2);
    }
  }

  predicate IsDigit(c: char)
  {
    '0' <= c <= '9'
  }

  /** The name matches the glob pattern `*.py` (a wildcard never matches a
      leading '.'). */
  predicate MatchesPyGlob(name: string)
  {
    |name| >= 3 && name[|name| - 3..] == ".py" && name[0] != '.'
  }

  /** `script[0].isdigit()`. */
  predicate StartsWithDigit(name: string)
  {
    |name| > 0 && IsDigit(name[0])
  }

  /** A directory entry that execute_scripts runs. */
  predicate IsRunnable(name: string)
  {
    MatchesPyGlob(name) && StartsWithDigit(name)
  }

  /** The script selection of execute_scripts, as evidently intended: the
      `*.py` entries of the directory listing, sorted, keeping those whose
      first character is a digit. */
  function SelectScripts(listing: seq<string>): seq<string>
  {
    Filter(StartsWithDigit, Sort(Filter(MatchesPyGlob, listing)))
  }

  /** The selection is ascending. */
  lemma SelectScriptsSorted(listing: seq<string>)
    ensures Sorted(SelectScripts(listing))
  {
    SortSorted(Filter(MatchesPyGlob, listing));
    FilterSorted(StartsWithDigit, Sort(Filter(MatchesPyGlob, listing)));
  }

  /** The selection holds each runnable entry of the listing as often as the
      listing does, and nothing else. */
  lemma SelectScriptsElements(listing: seq<string>)
    ensures forall x :: multiset(SelectScripts(listing))[x] == if IsRunnable(x) then multiset(listing)[x] else 0
  {
    var globbed := Filter(MatchesPyGlob, listing);
    FilterElements(MatchesPyGlob, listing);
    SortElements(globbed);
    FilterElements(StartsWithDigit, Sort(globbed));
  }

  /** The selection as written: `scripts.sort()` sorts in place and returns
      None, and iterating over None raises a TypeError, whatever the listing. */
  function SelectScriptsAsWritten(listing: seq<string>): (r: Result<seq<string>>)
  {
    Raise(TypeError("'NoneType' object is not iterable"))
  }

  /** Counterexample: a directory holding one runnable script. The code as
      written raises; the intended selection runs that script. */
  lemma SortResultIsNone()
    ensures SelectScriptsAsWritten(["01_a.py"]).Raise?
    ensures SelectScripts(["01_a.py"]) == ["01_a.py"]
  {
    var r := SelectScripts(["01_a.py"]);
    SelectScriptsElements(["01_a.py"]);
    assert IsRunnable("01_a.py");
    assert multiset(r)["01_a.py"] == 1;
    assert forall x :: x != "01_a.py" ==> multiset(r)[x] == 0;
    assert multiset(r) == multiset(["01_a.py"]);
    assert |r| == 1;
  }

  /** The listing as `glob.glob` returns it: the matching entries joined to
      their directory. */
  function GlobPaths(dir: string, listing: seq<string>): (paths: seq<string>)
    ensures |paths| <= |listing|
    ensures forall i :: 0 <= i < |paths| ==> |paths[i]| > 0 && (|dir| > 0 ==> paths[i][0] == dir[0])
    decreases |listing|
  {
    if listing == [] then []
    else
      var rest := GlobPaths(dir, listing[1..]);
      if MatchesPyGlob(listing[0]) then [JoinPath(dir, listing[0])] + rest else rest
  }

  function JoinPath(dir: string, name: string): string
  {
    dir + "/" + name
  }

  /** The selection with the sort call repaired but the first-character test
      left on the full path that glob returns, as written. */
  function SelectScriptPathsAsWritten(dir: string, listing: seq<string>): seq<string>
  {
    Filter(StartsWithDigit, Sort(GlobPaths(dir, listing)))
  }

  /** Testing the first character of the full path tests the directory's
      first character: under a directory such as an absolute path, nothing
      is ever selected. */
  lemma {:induction false} PathDigitTestSelectsNothing(dir: string, listing: seq<string>)
    requires |dir| > 0 && !IsDigit(dir[0])
    ensures SelectScriptPathsAsWritten(dir, listing) == []
  {
    var globbed := GlobPaths(dir, listing);
    var sorted := Sort(globbed);
    var r := Filter(StartsWithDigit, sorted);
    SortElements(globbed);
    FilterElements(StartsWithDigit, sorted);
    forall x | x in multiset(globbed) ensures !StartsWithDigit(x) {
      var i :| 0 <= i < |globbed| && globbed[i] == x;
    }
    assert forall x :: multiset(r)[x] == 0;
    assert multiset(r) == multiset{};
  }

  /** Counterexample: with the repository at "/repo" and one script "01_a.py",
      the as-written test selects nothing where the intended one selects it. */
  lemma PathDigitTestMissesScript()
    ensures SelectScriptPathsAsWritten("/repo", ["01_a.py"]) == []
    ensures SelectScripts(["01_a.py"]) == ["01_a.py"]
  {
    PathDigitTestSelectsNothing("/repo", ["01_a.py"]);
    SortResultIsNone();
  }

  /** The order in which the directory lists its entries does not matter. */
  lemma SelectScriptsOrderIndependent(l1: seq<string>, l2: seq<string>)
    requires multiset(l1) == multiset(l2)
    ensures SelectScripts(l1) == SelectScripts(l2)
  {
    var r1, r2 := SelectScripts(l1), SelectScripts(l2);
    SelectScriptsSorted(l1);
    SelectScriptsSorted(l2);
    SelectScriptsElements(l1);
    SelectScriptsElements(l2);
    assert forall x :: multiset(r1)[x] == multiset(r2)[x];
    assert multiset(r1) == multiset(r2);
    SortedUnique(r1, r2);
  }

  /** A directory lists each name once, so each runnable entry is selected
      exactly once. */
  lemma SelectScriptsOnce(listing: seq<string>, name: string)
    requires forall i, j :: 0 <= i < j < |listing| ==> listing[i] != listing[j]
    requires name in listing && IsRunnable(name)
    ensures multiset(SelectScripts(listing))[name] == 1
  {
    DistinctCountOne(listing, name);
    SelectScriptsElements(listing);
  }

  /** In a list without repeats, a member occurs once. */
  lemma DistinctCountOne(listing: seq<string>, name: string)
    requires forall i, j :: 0 <= i < j < |listing| ==> listing[i] != listing[j]
    requires name in listing
    ensures multiset(listing)[name] == 1
  {
    var i :| 0 <= i < |listing| && listing[i] == name;
    assert listing == listing[..i] + [name] + listing[i + 1..];
    assert name !in listing[..i] && name !in listing[i + 1..];
  }

  lemma ExampleListingRunnable(listing: seq<string>)
    requires listing == ["02_b.py", "01_a.py", "10_c.py"]
    ensures multiset(SelectScripts(listing)) == multiset(listing)
  {
    var r := SelectScripts(listing);
    SelectScriptsElements(listing);
    assert IsRunnable(listing[0]) && IsRunnable(listing[1]) && IsRunnable(listing[2]);
    forall x ensures multiset(r)[x] == multiset(listing)[x] {
      if x !in listing {
        assert multiset(listing)[x] == 0;
      }
    }
  }

  lemma ExampleExpectedSorted(expected: seq<string>)
    requires expected == ["01_a.py", "02_b.py", "10_c.py"]
    ensures Sorted(expected)
  {
    assert LexLe(expected[0], expected[1]) && LexLe(expected[1], expected[2]);
    LexLeTransitive(expected[0], expected[1], expected[2]);
  }

  lemma ExampleSameElements(listing: seq<string>, expected: seq<string>)
    requires listing == ["02_b.py", "01_a.py", "10_c.py"]
    requires expected == ["01_a.py", "02_b.py", "10_c.py"]
    ensures multiset(listing) == multiset(expected)
  {
    assert listing == [expected[1]] + [expected[0]] + [expected[2]];
  }

  /** Example: `02_b.py, 01_a.py, 10_c.py` run as `01_a.py, 02_b.py, 10_c.py`. */
  lemma SelectScriptsExample(listing: seq<string>, expected: seq<string>)
    requires listing == ["02_b.py", "01_a.py", "10_c.py"]
    requires expected == ["01_a.py", "02_b.py", "10_c.py"]
    ensures SelectScripts(listing) == expected
  {
    ExampleListingRunnable(listing);
    ExampleExpectedSorted(expected);
    ExampleSameElements(listing, expected);
    SelectScriptsSorted(listing);
    SortedUnique(SelectScripts(listing), expected);
  }

  /** One invocation of a script: its path and the payload it is given on
      its command line. */
  datatype ScriptRun = ScriptRun(script: string, input: Dict)

  /** execute_scripts: every selected script of `<repo>/<relative path>` is
      run once, in the selection's order, each given the same payload; the
      output of each run is not used, so the payload never changes. */
  method ExecuteScripts(repoPath: string, scriptsRelPath: string, listing: seq<string>, data: Dict)
    returns (runs: seq<ScriptRun>)
    ensures |runs| == |SelectScripts(listing)|
    ensures forall i :: 0 <= i < |runs| ==>
      runs[i] == ScriptRun(JoinPath(JoinPath(repoPath, scriptsRelPath), SelectScripts(listing)[i]), data)
  {
    var scriptsPath := JoinPath(repoPath, scriptsRelPath);
    var scripts := SelectScripts(listing);
    runs := [];
    for i := 0 to |scripts|
      invariant |runs| == i
      invariant forall j :: 0 <= j < i ==> runs[j] == ScriptRun(JoinPath(scriptsPath, scripts[j]), data)
    {
      runs := runs + [ScriptRun(JoinPath(scriptsPath, scripts[i]), data)];
    }
  }
}
