/**
 * `performLocalAnalysis`: the offline scan of every PHP file of every
 * plugin. A syntax check gates each file; a file that parses gets the
 * unescaped-output issues followed by the deprecated-call issues of its
 * syntax tree. The PHP parser is a foreign library and enters as the
 * function `parse`.
 */
module LocalAnalysis {
  import opened Wrappers
  import opened Text
  import opened Types
  import opened UnescapedOutput
  import opened DeprecatedCalls

  /** What `parser.parseCode(code, fileName)` does: a syntax tree, or a thrown syntax error. */
  datatype ParseResult =
    | Parsed(ast: JsValue)
    | SyntaxError(message: string, lineNumber: string, columnNumber: string)

  /** `file.name.toLowerCase().endsWith('.php')`. */
  predicate IsPhp(name: string)
  {
    EndsWith(ToLower(name), ".php")
  }

  const SyntaxImpact: string := "This is a fatal error that will crash your website."
  const SyntaxSuggestionTail: string := " for mistakes like missing semicolons, incorrect variable names, or mismatched brackets."

  /** The issue for a syntax error; line and column appear as the error renders them. */
  function SyntaxIssue(pluginName: string, fileName: string, message: string, lineNumber: string, columnNumber: string): ReviewIssue
  {
    ReviewIssue(
      pluginName, fileName, CodeQuality, Critical,
      "PHP Syntax Error: " + message,
      SyntaxImpact,
      "Check the code around line " + lineNumber + ", column " + columnNumber + SyntaxSuggestionTail,
      LocalScanner)
  }

  /** `checkSyntax`: no issue when the code parses, one Code Quality/Critical issue when it throws. */
  function CheckSyntax(parsed: ParseResult, fileName: string, pluginName: string): (r: seq<ReviewIssue>)
    ensures |r| <= 1
    ensures r == [] <==> parsed.Parsed?
    ensures forall issue <- r ::
      issue.category == CodeQuality && issue.severity == Critical && issue.source == LocalScanner
      && issue.pluginName == pluginName && issue.fileName == fileName
  {
    match parsed
    case Parsed(_) => []
    case SyntaxError(message, line, column) => [SyntaxIssue(pluginName, fileName, message, line, column)]
  }

  /** What the deprecated-call rule adds to the file: nothing when the second parse or the walk throws (the `catch`). */
  function AstIssues(second: ParseResult, fileName: string, pluginName: string, deprecated: set<string>): seq<ReviewIssue>
  {
    if second.SyntaxError? then []
    else
      match DeprecatedFunctionIssues(second.ast, fileName, pluginName, deprecated)
      case None => []
      case Some(issues) => issues
  }

  /**
   * The issues one file contributes. `first` is what the syntax check's
   * parse gave and `second` what the later parse for the syntax tree gave.
   */
  function FileIssues(file: PluginFile, pluginName: string, first: ParseResult, second: ParseResult, deprecated: set<string>): seq<ReviewIssue>
  {
    if !IsPhp(file.name) then []
    else if first.SyntaxError? then CheckSyntax(first, file.name, pluginName)
    else UnescapedOutputIssues(file.code, file.name, pluginName) + AstIssues(second, file.name, pluginName, deprecated)
  }

  /** Files whose lower-cased name does not end in `.php` contribute nothing. */
  lemma NonPhpFileIgnored(file: PluginFile, pluginName: string, first: ParseResult, second: ParseResult, deprecated: set<string>)
    requires !IsPhp(file.name)
    ensures FileIssues(file, pluginName, first, second, deprecated) == []
  {
  }

  /** A syntax error gates the file: exactly one Code Quality/Critical issue, and no other rule runs. */
  lemma SyntaxErrorGatesFile(file: PluginFile, pluginName: string, first: ParseResult, second: ParseResult, deprecated: set<string>)
    requires IsPhp(file.name) && first.SyntaxError?
    ensures FileIssues(file, pluginName, first, second, deprecated)
         == [SyntaxIssue(pluginName, file.name, first.message, first.lineNumber, first.columnNumber)]
    ensures var issue := FileIssues(file, pluginName, first, second, deprecated)[0];
      issue.category == CodeQuality && issue.severity == Critical
  {
  }

  /** A file that parses gets its unescaped-output issues first, then only deprecated-call warnings. */
  lemma ParsedFileOrder(file: PluginFile, pluginName: string, first: ParseResult, second: ParseResult, deprecated: set<string>)
    requires IsPhp(file.name) && first.Parsed?
    ensures var r := FileIssues(file, pluginName, first, second, deprecated);
      var xss := UnescapedOutputIssues(file.code, file.name, pluginName);
      |xss| <= |r| && r[..|xss|] == xss
      && forall issue <- r[|xss|..] :: issue.category == BestPractices && issue.severity == Warning
  {
    var r := FileIssues(file, pluginName, first, second, deprecated);
    var xss := UnescapedOutputIssues(file.code, file.name, pluginName);
    var ast := AstIssues(second, file.name, pluginName, deprecated);
    assert r == xss + ast;
    assert r[..|xss|] == xss && r[|xss|..] == ast;
    if second.Parsed? && DeprecatedFunctionIssues(second.ast, file.name, pluginName, deprecated).Some? {
      DeprecatedIssuesAreWarnings(second.ast, file.name, pluginName, deprecated);
    }
  }

  /** When the second parse throws after the syntax check passed, the file keeps its unescaped-output issues and gains nothing else. */
  lemma SecondParseFailureKeepsIssues(file: PluginFile, pluginName: string, first: ParseResult, second: ParseResult, deprecated: set<string>)
    requires IsPhp(file.name) && first.Parsed? && second.SyntaxError?
    ensures FileIssues(file, pluginName, first, second, deprecated) == UnescapedOutputIssues(file.code, file.name, pluginName)
  {
    var xss := UnescapedOutputIssues(file.code, file.name, pluginName);
    assert xss + [] == xss;
  }

  /** A walk that throws is caught the same way: the unescaped-output issues stay, no deprecated-call issue is added. */
  lemma ThrowingWalkKeepsIssues(file: PluginFile, pluginName: string, first: ParseResult, second: ParseResult, deprecated: set<string>)
    requires IsPhp(file.name) && first.Parsed? && second.Parsed? && Walk(second.ast, deprecated).None?
    ensures FileIssues(file, pluginName, first, second, deprecated) == UnescapedOutputIssues(file.code, file.name, pluginName)
  {
    var xss := UnescapedOutputIssues(file.code, file.name, pluginName);
    assert xss + [] == xss;
  }

  /** An issue of the deprecated-call rule is an issue of a PHP file whose syntax check passed. */
  lemma AstIssueReported(file: PluginFile, pluginName: string, first: ParseResult, second: ParseResult, deprecated: set<string>, issue: ReviewIssue)
    requires IsPhp(file.name) && first.Parsed?
    requires issue in AstIssues(second, file.name, pluginName, deprecated)
    ensures issue in FileIssues(file, pluginName, first, second, deprecated)
  {
  }

  /** Every issue of a file is the local scanner's and names the plugin and the file. */
  lemma FileIssuesNameTheirFile(file: PluginFile, pluginName: string, first: ParseResult, second: ParseResult, deprecated: set<string>)
    ensures forall issue <- FileIssues(file, pluginName, first, second, deprecated) ::
      issue.source == LocalScanner && issue.pluginName == pluginName && issue.fileName == file.name
  {
    UnescapedIssuesAreCritical(file.code, file.name, pluginName);
    if second.Parsed? && DeprecatedFunctionIssues(second.ast, file.name, pluginName, deprecated).Some? {
      DeprecatedIssuesAreWarnings(second.ast, file.name, pluginName, deprecated);
    }
  }

  /** The issues of a plugin's files, in file order; the parser is run twice on each analysed file. */
  function FilesIssues(files: seq<PluginFile>, pluginName: string, parse: (string, string) -> ParseResult, deprecated: set<string>): seq<ReviewIssue>
  {
    if files == [] then []
    else
      var file := files[|files| - 1];
      FilesIssues(files[..|files| - 1], pluginName, parse, deprecated)
        + FileIssues(file, pluginName, parse(file.code, file.name), parse(file.code, file.name), deprecated)
  }

  /** What `performLocalAnalysis(plugins)` returns: plugin order, then file order. */
  function LocalAnalysis(plugins: seq<Plugin>, parse: (string, string) -> ParseResult, deprecated: set<string>): seq<ReviewIssue>
  {
    if plugins == [] then []
    else
      var plugin := plugins[|plugins| - 1];
      LocalAnalysis(plugins[..|plugins| - 1], parse, deprecated) + FilesIssues(plugin.files, plugin.name, parse, deprecated)
  }

  /** `performLocalAnalysis`: nested loops over plugins and files, appending to `allIssues`. */
  method PerformLocalAnalysis(plugins: seq<Plugin>, parse: (string, string) -> ParseResult, deprecated: set<string>)
    returns (allIssues: seq<ReviewIssue>)
    ensures allIssues == LocalAnalysis(plugins, parse, deprecated)
  {
    allIssues := [];
    for p := 0 to |plugins|
      invariant allIssues == LocalAnalysis(plugins[..p], parse, deprecated)
    {
      ghost var done := LocalAnalysis(plugins[..p], parse, deprecated);
      assert plugins[..p + 1][..p] == plugins[..p];
      assert LocalAnalysis(plugins[..p + 1], parse, deprecated)
          == done + FilesIssues(plugins[p].files, plugins[p].name, parse, deprecated);
      allIssues := AnalysePluginFiles(plugins[p], parse, deprecated, allIssues);
    }
    assert plugins[..|plugins|] == plugins;
  }

  lemma FilesIssuesStep(files: seq<PluginFile>, f: nat, pluginName: string, parse: (string, string) -> ParseResult, deprecated: set<string>)
    requires f < |files|
    ensures FilesIssues(files[..f + 1], pluginName, parse, deprecated)
         == FilesIssues(files[..f], pluginName, parse, deprecated)
            + FileIssues(files[f], pluginName, parse(files[f].code, files[f].name), parse(files[f].code, files[f].name), deprecated)
  {
    assert files[..f + 1][..f] == files[..f];
  }

  /** Appending to a list that extends `issues` by `done` extends it by `done` followed by what was appended. */
  lemma AppendedInOrder(issues: seq<ReviewIssue>, done: seq<ReviewIssue>, before: seq<ReviewIssue>, after: seq<ReviewIssue>)
    requires before == issues + done && |before| <= |after| && after[..|before|] == before
    ensures after == issues + (done + after[|before|..])
  {
    assert after == before + after[|before|..];
  }

  /** The inner loop of `performLocalAnalysis`, over one plugin's files. */
  method AnalysePluginFiles(plugin: Plugin, parse: (string, string) -> ParseResult, deprecated: set<string>, issues: seq<ReviewIssue>)
    returns (allIssues: seq<ReviewIssue>)
    ensures allIssues == issues + FilesIssues(plugin.files, plugin.name, parse, deprecated)
  {
    var files := plugin.files;
    allIssues := issues;
    for f := 0 to |files|
      invariant allIssues == issues + FilesIssues(files[..f], plugin.name, parse, deprecated)
    {
      FilesIssuesStep(files, f, plugin.name, parse, deprecated);
      ghost var before := allIssues;
      allIssues := AnalyseFile(files[f], plugin.name, parse, deprecated, allIssues);
      AppendedInOrder(issues, FilesIssues(files[..f], plugin.name, parse, deprecated), before, allIssues);
    }
    assert files[..|files|] == files;
  }

  /** The loop body for one file: skip non-PHP files, stop at a syntax error, else both rules. */
  method AnalyseFile(file: PluginFile, pluginName: string, parse: (string, string) -> ParseResult, deprecated: set<string>, issues: seq<ReviewIssue>)
    returns (allIssues: seq<ReviewIssue>)
    ensures allIssues == issues + FileIssues(file, pluginName, parse(file.code, file.name), parse(file.code, file.name), deprecated)
  {
    allIssues := issues;
    if !IsPhp(file.name) {
      assert issues + [] == issues;
      return;
    }
    var syntaxErrors := CheckSyntax(parse(file.code, file.name), file.name, pluginName);
    if |syntaxErrors| > 0 {
      allIssues := allIssues + syntaxErrors;
      return;
    }
    var unescaped := CheckUnescapedOutput(file.code, file.name, pluginName);
    allIssues := allIssues + unescaped;
    var parsed := parse(file.code, file.name);
    if parsed.Parsed? {
      var deprecatedIssues := CheckDeprecatedFunctions(parsed.ast, file.name, pluginName, deprecated);
      if deprecatedIssues.Some? {
        allIssues := allIssues + deprecatedIssues.value;
      }
    }
    ghost var ast := AstIssues(parsed, file.name, pluginName, deprecated);
    assert allIssues == issues + (unescaped + ast);
  }

  // Properties of the whole analysis.

  lemma {:induction false} FilesIssuesAppend(a: seq<PluginFile>, b: seq<PluginFile>, pluginName: string, parse: (string, string) -> ParseResult, deprecated: set<string>)
    ensures FilesIssues(a + b, pluginName, parse, deprecated)
         == FilesIssues(a, pluginName, parse, deprecated) + FilesIssues(b, pluginName, parse, deprecated)
    decreases |b|
  {
    if b == [] {
      assert a + b == a;
    } else {
      var n := |b| - 1;
      assert (a + b)[..|a + b| - 1] == a + b[..n];
      assert (a + b)[|a + b| - 1] == b[n];
      FilesIssuesAppend(a, b[..n], pluginName, parse, deprecated);
    }
  }

  /** Adding a file that is not PHP to a plugin changes nothing. */
  lemma NonPhpFileChangesNothing(a: seq<PluginFile>, file: PluginFile, b: seq<PluginFile>, pluginName: string, parse: (string, string) -> ParseResult, deprecated: set<string>)
    requires !IsPhp(file.name)
    ensures FilesIssues(a + [file] + b, pluginName, parse, deprecated) == FilesIssues(a + b, pluginName, parse, deprecated)
  {
    FilesIssuesAppend(a + [file], b, pluginName, parse, deprecated);
    FilesIssuesAppend(a, [file], pluginName, parse, deprecated);
    FilesIssuesAppend(a, b, pluginName, parse, deprecated);
    assert [file][..0] == [];
    assert FilesIssues([file], pluginName, parse, deprecated) == [];
    assert FilesIssues(a, pluginName, parse, deprecated) + [] == FilesIssues(a, pluginName, parse, deprecated);
  }

  /** The analysis of a list of plugins is the analyses of its parts, in order. */
  lemma {:induction false} LocalAnalysisAppend(a: seq<Plugin>, b: seq<Plugin>, parse: (string, string) -> ParseResult, deprecated: set<string>)
    ensures LocalAnalysis(a + b, parse, deprecated) == LocalAnalysis(a, parse, deprecated) + LocalAnalysis(b, parse, deprecated)
    decreases |b|
  {
    if b == [] {
      assert a + b == a;
    } else {
      var n := |b| - 1;
      assert (a + b)[..|a + b| - 1] == a + b[..n];
      assert (a + b)[|a + b| - 1] == b[n];
      LocalAnalysisAppend(a, b[..n], parse, deprecated);
    }
  }

  /** Every issue of a plugin names the plugin and one of its PHP files, and comes from the local scanner. */
  lemma {:induction false} FilesIssuesProvenance(files: seq<PluginFile>, pluginName: string, parse: (string, string) -> ParseResult, deprecated: set<string>)
    ensures forall issue <- FilesIssues(files, pluginName, parse, deprecated) ::
      issue.source == LocalScanner && issue.pluginName == pluginName
      && exists j :: 0 <= j < |files| && files[j].name == issue.fileName && IsPhp(files[j].name)
    decreases |files|
  {
    if files != [] {
      var n := |files| - 1;
      var file := files[n];
      FilesIssuesProvenance(files[..n], pluginName, parse, deprecated);
      FileIssuesNameTheirFile(file, pluginName, parse(file.code, file.name), parse(file.code, file.name), deprecated);
      forall issue <- FilesIssues(files, pluginName, parse, deprecated)
        ensures exists j :: 0 <= j < |files| && files[j].name == issue.fileName && IsPhp(files[j].name)
      {
        if issue in FilesIssues(files[..n], pluginName, parse, deprecated) {
          var j :| 0 <= j < n && files[..n][j].name == issue.fileName && IsPhp(files[..n][j].name);
          assert files[j] == files[..n][j];
        } else {
          assert issue in FileIssues(file, pluginName, parse(file.code, file.name), parse(file.code, file.name), deprecated);
          assert IsPhp(file.name);
        }
      }
    }
  }

  /** Every issue of the analysis comes from the local scanner and names one of the plugins and one of its PHP files. */
  lemma {:induction false} LocalAnalysisProvenance(plugins: seq<Plugin>, parse: (string, string) -> ParseResult, deprecated: set<string>)
    ensures forall issue <- LocalAnalysis(plugins, parse, deprecated) ::
      issue.source == LocalScanner
      && (exists k, j :: (0 <= k < |plugins| && 0 <= j < |plugins[k].files|
        && plugins[k].name == issue.pluginName && plugins[k].files[j].name == issue.fileName
        && IsPhp(plugins[k].files[j].name)))
    decreases |plugins|
  {
    if plugins != [] {
      var n := |plugins| - 1;
      var plugin := plugins[n];
      LocalAnalysisProvenance(plugins[..n], parse, deprecated);
      FilesIssuesProvenance(plugin.files, plugin.name, parse, deprecated);
      forall issue <- LocalAnalysis(plugins, parse, deprecated)
        ensures exists k, j :: (0 <= k < |plugins| && 0 <= j < |plugins[k].files|
          && plugins[k].name == issue.pluginName && plugins[k].files[j].name == issue.fileName
          && IsPhp(plugins[k].files[j].name))
      {
        if issue in LocalAnalysis(plugins[..n], parse, deprecated) {
          var k, j :| 0 <= k < n && 0 <= j < |plugins[..n][k].files|
            && plugins[..n][k].name == issue.pluginName && plugins[..n][k].files[j].name == issue.fileName
            && IsPhp(plugins[..n][k].files[j].name);
          assert plugins[k] == plugins[..n][k];
        } else {
          assert issue in FilesIssues(plugin.files, plugin.name, parse, deprecated);
          var j :| 0 <= j < |plugin.files| && plugin.files[j].name == issue.fileName && IsPhp(plugin.files[j].name);
          assert plugins[n].files[j].name == issue.fileName;
        }
      }
    }
  }

  // The three cases of the analyser's test suite: a plugin `TestPlugin`
  // holding one file `file.php`. What the parser returns is stated as a
  // requirement, since the parser is not part of this model.

  function TestPlugin(code: string): Plugin
  {
    Plugin("p1", "TestPlugin", None, [PluginFile("f1", "file.php", code, false)])
  }

  lemma FilePhpIsPhp()
    ensures IsPhp("file.php")
  {
    ToLowerOfLower("file.php");
    assert "file.php"[4..] == ".php";
  }

  lemma SingleFileAnalysis(code: string, parse: (string, string) -> ParseResult, deprecated: set<string>)
    ensures LocalAnalysis([TestPlugin(code)], parse, deprecated)
         == FileIssues(PluginFile("f1", "file.php", code, false), "TestPlugin", parse(code, "file.php"), parse(code, "file.php"), deprecated)
  {
    var plugin := TestPlugin(code);
    var file := plugin.files[0];
    var issues := FileIssues(file, "TestPlugin", parse(code, "file.php"), parse(code, "file.php"), deprecated);
    assert [plugin][..0] == [] && [plugin][0] == plugin;
    assert plugin.files[..0] == [];
    assert FilesIssues(plugin.files, plugin.name, parse, deprecated) == [] + issues;
    assert LocalAnalysis([plugin], parse, deprecated) == [] + FilesIssues(plugin.files, plugin.name, parse, deprecated);
    assert [] + issues == issues;
  }

  /** A deprecated-call issue of the test file's syntax tree is an issue of the whole analysis. */
  lemma ParsedTestFileIssue(code: string, parse: (string, string) -> ParseResult, ast: JsValue, deprecated: set<string>, issue: ReviewIssue)
    requires parse(code, "file.php") == Parsed(ast)
    requires issue in AstIssues(Parsed(ast), "file.php", "TestPlugin", deprecated)
    ensures issue in LocalAnalysis([TestPlugin(code)], parse, deprecated)
  {
    SingleFileAnalysis(code, parse, deprecated);
    FilePhpIsPhp();
    AstIssueReported(PluginFile("f1", "file.php", code, false), "TestPlugin", Parsed(ast), Parsed(ast), deprecated, issue);
  }

  /** A file the parser rejects yields a Code Quality issue. */
  lemma SyntaxErrorTestCase(parse: (string, string) -> ParseResult, deprecated: set<string>)
    requires parse("<?php if (true) { echo \"hi\";", "file.php").SyntaxError?
    ensures exists issue <- LocalAnalysis([TestPlugin("<?php if (true) { echo \"hi\";")], parse, deprecated) ::
      issue.category == CodeQuality
  {
    var code := "<?php if (true) { echo \"hi\";";
    var file := PluginFile("f1", "file.php", code, false);
    SingleFileAnalysis(code, parse, deprecated);
    FilePhpIsPhp();
    SyntaxErrorGatesFile(file, "TestPlugin", parse(code, "file.php"), parse(code, "file.php"), deprecated);
    assert LocalAnalysis([TestPlugin(code)], parse, deprecated)[0].category == CodeQuality;
  }

  /** `<?php echo $_GET["name"];` yields a Security issue once it parses. */
  lemma UnescapedOutputTestCase(parse: (string, string) -> ParseResult, deprecated: set<string>)
    requires parse("<?php echo $_GET[\"name\"];", "file.php").Parsed?
    ensures exists issue <- LocalAnalysis([TestPlugin("<?php echo $_GET[\"name\"];")], parse, deprecated) ::
      issue.category == Security
  {
    var code := "<?php echo $_GET[\"name\"];";
    var file := PluginFile("f1", "file.php", code, false);
    SingleFileAnalysis(code, parse, deprecated);
    FilePhpIsPhp();
    EchoGetExample(code, "TestPlugin", "file.php");
    var issue := XssIssue("TestPlugin", "file.php", 0);
    assert issue in FileIssues(file, "TestPlugin", parse(code, "file.php"), parse(code, "file.php"), deprecated);
  }

  /** `<?php add_option_whitelist();` yields a Best Practices issue, given the syntax tree the parser builds for it. */
  lemma DeprecatedFunctionTestCase(parse: (string, string) -> ParseResult, program: JsValue, statement: JsValue, call: JsValue)
    requires call == Obj([Field("kind", Str("call")),
      Field("what", Obj([Field("kind", Str("name")), Field("name", Str("add_option_whitelist")), Field("resolution", Str("uqn"))])),
      Field("arguments", Arr([]))])
    requires statement == Obj([Field("kind", Str("expressionstatement")), Field("expression", call)])
    requires program == Obj([Field("kind", Str("program")), Field("children", Arr([statement])),
      Field("errors", Arr([])), Field("comments", Arr([]))])
    requires parse("<?php add_option_whitelist();", "file.php") == Parsed(program)
    ensures exists issue <- LocalAnalysis([TestPlugin("<?php add_option_whitelist();")], parse, WordPressDeprecated) ::
      issue.category == BestPractices
  {
    AddOptionWhitelistExample(program, statement, call);
    var issue := DeprecatedIssue("TestPlugin", "file.php", "add_option_whitelist");
    assert AstIssues(Parsed(program), "file.php", "TestPlugin", WordPressDeprecated) == [issue];
    ParsedTestFileIssue("<?php add_option_whitelist();", parse, program, WordPressDeprecated, issue);
  }
}
