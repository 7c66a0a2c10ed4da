/**
 * The unescaped-output rule (`checkUnescapedOutput`): every line that
 * matches `/(echo|print|printf|=>)\s*\$_(GET|POST|REQUEST)\[/i` and does not
 * mention `wp_verify_nonce` yields one Security/Critical issue naming the
 * line's 1-based number.
 */
module UnescapedOutput {
  import opened Text
  import opened Types

  /** `\$_(GET|POST|REQUEST)\[` at index `k`. */
  predicate SuperglobalReadAt(s: string, k: int)
  {
    OccursAtIgnoringCase(s, k, "$_GET[") || OccursAtIgnoringCase(s, k, "$_POST[")
    || OccursAtIgnoringCase(s, k, "$_REQUEST[")
  }

  /** After the keyword ending at `j`, a greedy `\s*` and then the superglobal read. */
  predicate ReadAfter(s: string, j: int)
  {
    0 <= j <= |s| && SuperglobalReadAt(s, SkipSpaces(s, j))
  }

  /** The pattern matches starting at index `i`. */
  predicate PatternAt(s: string, i: int)
  {
    (OccursAtIgnoringCase(s, i, "echo") && ReadAfter(s, i + 4))
    || (OccursAtIgnoringCase(s, i, "print") && ReadAfter(s, i + 5))
    || (OccursAtIgnoringCase(s, i, "printf") && ReadAfter(s, i + 6))
    || (OccursAtIgnoringCase(s, i, "=>") && ReadAfter(s, i + 2))
  }

  /** `unescapedRegex.test(line)`: the pattern matches somewhere in the line. */
  predicate MatchesPattern(line: string)
  {
    exists i | 0 <= i <= |line| :: PatternAt(line, i)
  }

  /** Whether a line is reported. */
  predicate FlagsLine(line: string)
  {
    MatchesPattern(line) && !Contains(line, "wp_verify_nonce")
  }

  // The regular expression as its semantics defines it (with backtracking
  // over the length of `\s*`), as an independent reference.

  predicate KeywordAt(s: string, i: int, kw: string)
  {
    kw in ["echo", "print", "printf", "=>"] && OccursAtIgnoringCase(s, i, kw)
  }

  ghost predicate RegexMatches(s: string)
  {
    exists i, kw, k :: KeywordAt(s, i, kw) && i + |kw| <= k <= |s|
      && AllSpaces(s[i + |kw|..k]) && SuperglobalReadAt(s, k)
  }

  /** A superglobal read begins with a dollar sign, which `\s` does not match. */
  lemma SuperglobalStartsWithDollar(s: string, k: int)
    requires SuperglobalReadAt(s, k)
    ensures 0 <= k < |s| && s[k] == '$' && !IsSpace(s[k])
  {
    if OccursAtIgnoringCase(s, k, "$_GET[") {
      FirstCharIgnoringCase(s, k, "$_GET[");
    } else if OccursAtIgnoringCase(s, k, "$_POST[") {
      FirstCharIgnoringCase(s, k, "$_POST[");
    } else {
      FirstCharIgnoringCase(s, k, "$_REQUEST[");
    }
  }

  lemma PatternAtIsRegexMatch(s: string, i: int)
    requires PatternAt(s, i)
    ensures RegexMatches(s)
  {
    var kw := if OccursAtIgnoringCase(s, i, "echo") && ReadAfter(s, i + 4) then "echo"
              else if OccursAtIgnoringCase(s, i, "print") && ReadAfter(s, i + 5) then "print"
              else if OccursAtIgnoringCase(s, i, "printf") && ReadAfter(s, i + 6) then "printf"
              else "=>";
    assert OccursAtIgnoringCase(s, i, kw) && ReadAfter(s, i + |kw|);
    var k := SkipSpaces(s, i + |kw|);
    assert KeywordAt(s, i, kw);
    assert AllSpaces(s[i + |kw|..k]) && SuperglobalReadAt(s, k);
  }

  lemma RegexMatchIsPatternAt(s: string, i: int, kw: string, k: int)
    requires KeywordAt(s, i, kw) && i + |kw| <= k <= |s|
    requires AllSpaces(s[i + |kw|..k]) && SuperglobalReadAt(s, k)
    ensures PatternAt(s, i)
  {
    SuperglobalStartsWithDollar(s, k);
    SpacesEndAtSkip(s, i + |kw|, k);
    assert ReadAfter(s, i + |kw|);
  }

  /** The greedy matcher and the backtracking semantics agree on every line. */
  lemma MatcherIsTheRegex(s: string)
    ensures MatchesPattern(s) <==> RegexMatches(s)
  {
    if MatchesPattern(s) {
      var i :| 0 <= i <= |s| && PatternAt(s, i);
      PatternAtIsRegexMatch(s, i);
    }
    if RegexMatches(s) {
      var i, kw, k :| KeywordAt(s, i, kw) && i + |kw| <= k <= |s|
        && AllSpaces(s[i + |kw|..k]) && SuperglobalReadAt(s, k);
      RegexMatchIsPatternAt(s, i, kw, k);
      assert i <= |s|;
    }
  }

  // The rule.

  const XssDescriptionPrefix: string := "Potential Cross-Site Scripting (XSS) vulnerability on line "
  const XssImpact: string := "This could allow an attacker to inject malicious scripts into your website, potentially stealing user data or defacing the site."
  const XssSuggestion: string := "Always escape output. Sanitize and validate all user input. Use WordPress escaping functions like esc_html(), esc_attr(), or esc_url() on the variable from $_GET or $_POST before echoing it. For example: echo esc_html( $_POST['user_input'] );"

  /** The issue for the line with 0-based index `index`; its description gives the 1-based line number. */
  function XssIssue(pluginName: string, fileName: string, index: nat): ReviewIssue
  {
    ReviewIssue(
      pluginName, fileName, Security, Critical,
      XssDescriptionPrefix + NatToString(index + 1) + ".",
      XssImpact, XssSuggestion, LocalScanner)
  }

  /** The 0-based indices of the lines that `flags` holds of, in increasing order. */
  function Flagged(lines: seq<string>, flags: string -> bool): (r: seq<nat>)
    ensures forall k :: k in r <==> 0 <= k < |lines| && flags(lines[k])
    ensures forall a, b :: 0 <= a < b < |r| ==> r[a] < r[b]
    ensures forall a :: 0 <= a < |r| ==> r[a] < |lines|
  {
    if lines == [] then []
    else
      var n := |lines| - 1;
      var front := lines[..n];
      var r := Flagged(front, flags) + (if flags(lines[n]) then [n] else []);
      assert forall k :: 0 <= k < n ==> front[k] == lines[k];
      r
  }

  /** One more line is flagged after all earlier ones, or not at all. */
  lemma FlaggedStep(lines: seq<string>, i: nat, flags: string -> bool)
    requires i < |lines|
    ensures Flagged(lines[..i + 1], flags) == Flagged(lines[..i], flags) + (if flags(lines[i]) then [i] else [])
  {
    assert lines[..i + 1][..i] == lines[..i];
  }

  /** The 0-based indices of the reported lines, in increasing order. */
  function FlaggedIndices(lines: seq<string>): (r: seq<nat>)
    ensures forall k :: k in r <==> 0 <= k < |lines| && FlagsLine(lines[k])
    ensures forall a, b :: 0 <= a < b < |r| ==> r[a] < r[b]
  {
    Flagged(lines, FlagsLine)
  }

  function XssIssues(pluginName: string, fileName: string, indices: seq<nat>): (r: seq<ReviewIssue>)
  {
    seq(|indices|, j requires 0 <= j < |indices| => XssIssue(pluginName, fileName, indices[j]))
  }

  /** What `checkUnescapedOutput` returns. */
  function UnescapedOutputIssues(fileCode: string, fileName: string, pluginName: string): seq<ReviewIssue>
  {
    XssIssues(pluginName, fileName, FlaggedIndices(Split(fileCode)))
  }

  lemma XssIssuesAppend(pluginName: string, fileName: string, indices: seq<nat>, k: nat)
    ensures XssIssues(pluginName, fileName, indices + [k])
         == XssIssues(pluginName, fileName, indices) + [XssIssue(pluginName, fileName, k)]
  {
  }

  /** `checkUnescapedOutput`: one pass over the lines, pushing an issue per reported line. */
  method CheckUnescapedOutput(fileCode: string, fileName: string, pluginName: string)
    returns (issues: seq<ReviewIssue>)
    ensures issues == UnescapedOutputIssues(fileCode, fileName, pluginName)
    ensures forall j :: 0 <= j < |issues| ==>
      issues[j].category == Security && issues[j].severity == Critical && issues[j].source == LocalScanner
      && issues[j].pluginName == pluginName && issues[j].fileName == fileName
  {
    var lines := Split(fileCode);
    issues := [];
    for index := 0 to |lines|
      invariant issues == XssIssues(pluginName, fileName, FlaggedIndices(lines[..index]))
    {
      ghost var done := FlaggedIndices(lines[..index]);
      FlaggedStep(lines, index, FlagsLine);
      var reported := MatchesPattern(lines[index]) && !Contains(lines[index], "wp_verify_nonce");
      assert reported == FlagsLine(lines[index]);
      if reported {
        XssIssuesAppend(pluginName, fileName, done, index);
        issues := issues + [XssIssue(pluginName, fileName, index)];
      } else {
        assert done + [] == done;
      }
    }
    assert lines[..|lines|] == lines;
  }

  /** A line is reported exactly when it matches and carries no nonce check; the issue names its 1-based number. */
  lemma ReportedLines(fileCode: string, fileName: string, pluginName: string, index: nat)
    requires index < |Split(fileCode)|
    ensures
      var issues := UnescapedOutputIssues(fileCode, fileName, pluginName);
      FlagsLine(Split(fileCode)[index]) <==>
        exists j :: 0 <= j < |issues| && issues[j] == XssIssue(pluginName, fileName, index)
  {
    var lines := Split(fileCode);
    var idx := FlaggedIndices(lines);
    var issues := UnescapedOutputIssues(fileCode, fileName, pluginName);
    assert issues == XssIssues(pluginName, fileName, idx);
    if FlagsLine(lines[index]) {
      assert index in idx;
      var j :| 0 <= j < |idx| && idx[j] == index;
      assert issues[j] == XssIssue(pluginName, fileName, index);
    }
    if exists j :: 0 <= j < |issues| && issues[j] == XssIssue(pluginName, fileName, index) {
      var j :| 0 <= j < |issues| && issues[j] == XssIssue(pluginName, fileName, index);
      assert issues[j] == XssIssue(pluginName, fileName, idx[j]);
      XssIssueNamesLine(pluginName, fileName, idx[j], index);
      assert idx[j] in idx;
    }
  }

  /** Different lines give different issues: the line number in the description tells them apart. */
  lemma XssIssueNamesLine(pluginName: string, fileName: string, a: nat, b: nat)
    requires XssIssue(pluginName, fileName, a) == XssIssue(pluginName, fileName, b)
    ensures a == b
  {
    var da, db := XssIssue(pluginName, fileName, a).description, XssIssue(pluginName, fileName, b).description;
    assert da == db;
    SameMiddle(XssDescriptionPrefix, NatToString(a + 1), NatToString(b + 1), ".");
    NatToStringInjective(a + 1, b + 1);
  }

  /** Every issue of the rule is a Security/Critical finding of the local scanner for this plugin and file. */
  lemma UnescapedIssuesAreCritical(fileCode: string, fileName: string, pluginName: string)
    ensures forall issue <- UnescapedOutputIssues(fileCode, fileName, pluginName) ::
      issue.category == Security && issue.severity == Critical && issue.source == LocalScanner
      && issue.pluginName == pluginName && issue.fileName == fileName
  {
  }

  /** A line guarded by a nonce check is never reported, even when it echoes a superglobal. */
  lemma NonceCheckedLineNotReported(fileCode: string, fileName: string, pluginName: string, index: nat)
    requires index < |Split(fileCode)| && Contains(Split(fileCode)[index], "wp_verify_nonce")
    ensures XssIssue(pluginName, fileName, index) !in UnescapedOutputIssues(fileCode, fileName, pluginName)
  {
    ReportedLines(fileCode, fileName, pluginName, index);
  }

  lemma EchoGetMatches(code: string)
    requires code == "<?php echo $_GET[\"name\"];"
    ensures PatternAt(code, 6)
  {
    assert code[6..10] == "echo";
    assert OccursAtIgnoringCase(code, 6, "echo");
    assert IsSpace(code[10]) && !IsSpace(code[11]);
    assert SkipSpaces(code, 11) == 11;
    assert SkipSpaces(code, 10) == 11;
    assert code[11..17] == "$_GET[";
    assert OccursAtIgnoringCase(code, 11, "$_GET[");
  }

  lemma EchoGetHasNoNonce(code: string)
    requires code == "<?php echo $_GET[\"name\"];"
    ensures !Contains(code, "wp_verify_nonce")
  {
    var word := "wp_verify_nonce";
    assert forall j :: 0 <= j < |code| ==> code[j] != 'w';
    forall i | 0 <= i <= |code| - |word|
      ensures !OccursAt(code, i, word)
    {
      assert code[i..i + |word|][0] == code[i] != word[0];
    }
  }

  /** `<?php echo $_GET["name"];` is reported on its first line. */
  lemma EchoGetExample(code: string, pluginName: string, fileName: string)
    requires code == "<?php echo $_GET[\"name\"];"
    ensures XssIssue(pluginName, fileName, 0) in UnescapedOutputIssues(code, fileName, pluginName)
  {
    SplitSingle(code);
    EchoGetMatches(code);
    EchoGetHasNoNonce(code);
    assert FlagsLine(Split(code)[0]);
    ReportedLines(code, fileName, pluginName, 0);
  }
}
