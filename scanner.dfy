/**
  The command-line scanner of the start-up hook: among the process arguments it
  finds the first one whose lowercased form ends with the document extension
  ".cfj", and hands that argument on exactly as it was given.
*/
module Scanner {
  import opened Wrappers

  /** The extension marker, compared against the lowercased argument. */
  const Marker: string := ".cfj"

  /** Lowercasing of one character, restricted to the ASCII letters. */
  function LowerChar(c: char): char
  {
    if 'A' <= c <= 'Z' then (c as int - 'A' as int + 'a' as int) as char else c
  }

  function Lowercase(s: string): string
  {
    seq(|s|, i requires 0 <= i < |s| => LowerChar(s[i]))
  }

  predicate EndsWith(s: string, suffix: string)
  {
    |suffix| <= |s| && s[|s| - |suffix|..] == suffix
  }

  /** The test the scanner applies to each argument. */
  predicate IsCfjPath(arg: string)
  {
    EndsWith(Lowercase(arg), Marker)
  }

  /** `i` is the position of the first argument that passes the test. */
  ghost predicate IsFirstMatch(args: seq<string>, i: int)
  {
    0 <= i < |args| && IsCfjPath(args[i]) &&
    forall j :: 0 <= j < i ==> !IsCfjPath(args[j])
  }

  /**
    The scan itself: a first-match search in argument order. It yields none
    exactly when no argument passes the test, and otherwise the argument at the
    first passing position, unchanged (not its lowercased form).
  */
  function FindCfj(args: seq<string>): (r: Option<string>)
    ensures r.None? <==> forall i :: 0 <= i < |args| ==> !IsCfjPath(args[i])
    ensures r.Some? ==> exists i :: IsFirstMatch(args, i) && args[i] == r.value
  {
    if |args| == 0 then None
    else if IsCfjPath(args[0]) then
      assert IsFirstMatch(args, 0);
      Some(args[0])
    else
      var r := FindCfj(args[1..]);
      assert forall i :: 1 <= i < |args| ==> args[i] == args[1..][i - 1];
      assert forall k :: IsFirstMatch(args[1..], k) ==> IsFirstMatch(args, k + 1);
      r
  }

  /**
    The test is case-insensitive and looks only at the last four characters:
    a dot followed by c, f and j, each in either case.
  */
  lemma {:induction false} IsCfjPathIff(arg: string)
    ensures IsCfjPath(arg) <==>
      |arg| >= 4 &&
      arg[|arg| - 4] == '.' &&
      arg[|arg| - 3] in "cC" &&
      arg[|arg| - 2] in "fF" &&
      arg[|arg| - 1] in "jJ"
  {
    var low := Lowercase(arg);
    if |arg| >= 4 {
      var n := |arg|;
      assert low[n - 4..] == [low[n - 4], low[n - 3], low[n - 2], low[n - 1]];
    }
  }

  /** Two arguments that differ only in letter case are either both document paths or neither. */
  lemma IsCfjPathCaseInsensitive(a: string, b: string)
    requires Lowercase(a) == Lowercase(b)
    ensures IsCfjPath(a) == IsCfjPath(b)
  {
  }

  /** Arguments before the first match decide nothing; arguments after it are never looked at. */
  lemma {:induction false} FindCfjAppend(before: seq<string>, after: seq<string>)
    ensures FindCfj(before + after) == if FindCfj(before).Some? then FindCfj(before) else FindCfj(after)
  {
    if before != [] {
      assert (before + after)[1..] == before[1..] + after;
      FindCfjAppend(before[1..], after);
    } else {
      assert before + after == after;
    }
  }

  /** An upper-case document path is found, and returned with its original case. */
  lemma UpperCasePathKept()
    ensures FindCfj(["app.bin", "REPORT.CFJ"]) == Some("REPORT.CFJ")
  {
    IsCfjPathIff("app.bin");
    IsCfjPathIff("REPORT.CFJ");
  }
}
