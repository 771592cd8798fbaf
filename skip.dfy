/**
 * The skip-path list of the configuration: the exact-match test that decides
 * whether a request is logged (Config.isSkipped) and the comma-joined form
 * that is logged at start-up (Config.listSkipPath).
 */
module SkipPaths {
  import opened PluginConfig

  /**
   * Config.isSkipped: scans the list, stopping at the first entry equal to
   * `path`. Only exact equality counts: no prefixes or patterns, so the
   * answer depends on which strings are listed and not on their order.
   */
  method IsSkipped(c: Config, path: string) returns (skip: bool)
    ensures skip <==> path in c.skipPaths
    ensures c.skipPaths == [] ==> !skip
  {
    skip := false;
    for i := 0 to |c.skipPaths|
      invariant !skip
      invariant path !in c.skipPaths[..i]
    {
      skip := path == c.skipPaths[i];
      if skip {
        break;
      }
    }
  }

  /** strings.Join(parts, ","). */
  function Join(parts: seq<string>): string {
    if parts == [] then ""
    else if |parts| == 1 then parts[0]
    else parts[0] + "," + Join(parts[1..])
  }

  /** Config.listSkipPath: the skip paths separated by commas. */
  function ListSkipPath(c: Config): string {
    Join(c.skipPaths)
  }

  /** The position of the first comma in `s`. */
  function FirstComma(s: string): (i: nat)
    requires ',' in s
    ensures i < |s| && s[i] == ',' && ',' !in s[..i]
  {
    if s[0] == ',' then 0
    else
      assert ',' in s[1..] by {
        var k :| 0 <= k < |s| && s[k] == ',';
        assert s[1..][k - 1] == ',';
      }
      var i := 1 + FirstComma(s[1..]);
      assert s[..i] == [s[0]] + s[1..][..i - 1];
      i
  }

  /** strings.Split(s, ","): the pieces between commas; never empty. */
  function Split(s: string): (pieces: seq<string>)
    ensures |pieces| >= 1
    decreases |s|
  {
    if ',' !in s then [s]
    else
      var i := FirstComma(s);
      [s[..i]] + Split(s[i + 1..])
  }

  /** Splitting the logged line at its commas gives the pieces it was joined from. */
  lemma {:induction false} JoinSplit(s: string)
    ensures Join(Split(s)) == s
    decreases |s|
  {
    if ',' in s {
      var i := FirstComma(s);
      JoinSplit(s[i + 1..]);
      assert s == s[..i] + "," + s[i + 1..];
    }
  }

  /** A comma-free piece followed by a comma splits off as the first piece. */
  lemma SplitAfter(a: string, b: string)
    requires ',' !in a
    ensures Split(a + "," + b) == [a] + Split(b)
  {
    var s := a + "," + b;
    assert s[|a|] == ',';
    assert FirstComma(s) == |a|;
    assert s[..|a|] == a && s[|a| + 1..] == b;
  }

  /**
   * The logged line determines the skip list, as long as the list is not
   * empty and no path contains a comma.
   */
  lemma {:induction false} SplitJoin(parts: seq<string>)
    requires |parts| >= 1
    requires forall k | 0 <= k < |parts| :: ',' !in parts[k]
    ensures Split(Join(parts)) == parts
  {
    if |parts| > 1 {
      assert ',' !in parts[0];
      SplitAfter(parts[0], Join(parts[1..]));
      SplitJoin(parts[1..]);
      assert parts == [parts[0]] + parts[1..];
    }
  }
}
