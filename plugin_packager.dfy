/**
 * The package analyser of the plugin packager: `parsePluginHeader` reads the
 * `* Plugin Name:`, `* Version:` and `* Author:` lines at the top of a PHP
 * file, `analyzePackageContents` classifies the uploaded files and finds the
 * main plugin file, and `getBoilerplateUninstall` supplies a default
 * `uninstall.php`.
 */
module PluginPackager {
  import opened Wrappers
  import opened Text

  datatype UploadedFile = UploadedFile(name: string, content: string, path: string)

  /** `PluginHeaderData`: each field is absent until a header line sets it. */
  datatype HeaderData = HeaderData(pluginName: Option<string>, version: Option<string>, author: Option<string>)

  datatype HeaderKey = PluginName | Version | Author

  datatype FileTypes = FileTypes(php: nat, js: nat, css: nat, pot: nat, other: nat)

  datatype PackageAnalysis = PackageAnalysis(
    hasMainFile: bool,
    mainFileName: Option<string>,
    hasReadme: bool,
    hasUninstall: bool,
    headerData: HeaderData,
    fileTypes: FileTypes)

  // Header lines.

  /** Only the first 2000 characters are scanned for the header. */
  const HeaderScanLimit: nat := 2000

  /** `fileContent.substring(0, 2000)`. */
  function Top(content: string): (r: string)
    ensures |r| <= HeaderScanLimit && r <= content
    ensures |content| <= HeaderScanLimit ==> r == content
  {
    if |content| <= HeaderScanLimit then content else content[..HeaderScanLimit]
  }

  /** The `headerFields` table, in its order. */
  const HeaderFields: seq<HeaderKey> := [PluginName, Version, Author]

  /** The literal part of each field's pattern. */
  function Label(key: HeaderKey): string
  {
    match key
    case PluginName => "Plugin Name:"
    case Version => "Version:"
    case Author => "Author:"
  }

  /** The characters `.` does not match: line feed, carriage return and the two Unicode line separators. */
  predicate IsLineTerminator(c: char)
  {
    c == '\n' || c == '\r' || c as int == 0x2028 || c as int == 0x2029
  }

  /** Where a greedy `.*` starting at `k` stops. */
  function RestOfLine(s: string, k: nat): (e: nat)
    requires k <= |s|
    ensures k <= e <= |s|
    ensures forall i :: k <= i < e ==> !IsLineTerminator(s[i])
    ensures e < |s| ==> IsLineTerminator(s[e])
    decreases |s| - k
  {
    if k < |s| && !IsLineTerminator(s[k]) then RestOfLine(s, k + 1) else k
  }

  /**
   * Where `line.match(/^\s*\*\s*<Label>\s*(.*)/i)` captures, if it matches:
   * both `\s*` before the label stop at the first non-space, the one after
   * it is greedy, and the capture runs to the end of the line.
   */
  function CaptureBounds(line: string, key: HeaderKey): (r: Option<(nat, nat)>)
    ensures r.Some? ==> r.value.0 <= r.value.1 <= |line|
    ensures r.Some? ==> forall i :: r.value.0 <= i < r.value.1 ==> !IsLineTerminator(line[i])
  {
    CaptureAfter(line, Label(key))
  }

  /** The same match for any literal `word`. */
  function CaptureAfter(line: string, word: string): (r: Option<(nat, nat)>)
    ensures r.Some? ==> r.value.0 <= r.value.1 <= |line|
    ensures r.Some? ==> forall i :: r.value.0 <= i < r.value.1 ==> !IsLineTerminator(line[i])
  {
    var a := SkipSpaces(line, 0);
    if a < |line| && line[a] == '*' then
      var b := SkipSpaces(line, a + 1);
      if OccursAtIgnoringCase(line, b, word) then
        var c := SkipSpaces(line, b + |word|);
        Some((c, RestOfLine(line, c)))
      else None
    else None
  }

  /** The match of one header line followed by `match[1].trim()`. */
  function MatchHeaderLine(line: string, key: HeaderKey): Option<string>
  {
    match CaptureBounds(line, key)
    case None => None
    case Some((c, e)) => Some(Trim(line[c..e]))
  }

  /** The pattern as its semantics reads, as an independent reference: some split of the line fits it. */
  ghost predicate HeaderPatternMatches(line: string, key: HeaderKey)
  {
    exists a, b :: 0 <= a < b <= |line| && AllSpaces(line[..a]) && line[a] == '*'
      && AllSpaces(line[a + 1..b]) && OccursAtIgnoringCase(line, b, Label(key))
  }

  lemma LabelStartsWithLetter(line: string, b: int, key: HeaderKey)
    requires OccursAtIgnoringCase(line, b, Label(key))
    ensures 0 <= b < |line| && !IsSpace(line[b])
  {
    FirstCharIgnoringCase(line, b, Label(key));
  }

  /** A value found by `MatchHeaderLine` comes from a line the pattern matches. */
  lemma MatchFitsThePattern(line: string, key: HeaderKey)
    requires CaptureBounds(line, key).Some?
    ensures HeaderPatternMatches(line, key)
  {
    var a := SkipSpaces(line, 0);
    var b := SkipSpaces(line, a + 1);
    LabelStartsWithLetter(line, b, key);
    assert line[..a] == line[0..a];
  }

  /** A line the pattern matches has its value found by `MatchHeaderLine`. */
  lemma PatternIsMatched(line: string, key: HeaderKey)
    requires HeaderPatternMatches(line, key)
    ensures CaptureBounds(line, key).Some?
  {
    var a, b :| 0 <= a < b <= |line| && AllSpaces(line[..a]) && line[a] == '*'
      && AllSpaces(line[a + 1..b]) && OccursAtIgnoringCase(line, b, Label(key));
    assert line[..a] == line[0..a];
    SpacesEndAtSkip(line, 0, a);
    LabelStartsWithLetter(line, b, key);
    SpacesEndAtSkip(line, a + 1, b);
  }

  /** `MatchHeaderLine` finds a value exactly when the regular expression matches the line. */
  lemma MatchHeaderLineIsThePattern(line: string, key: HeaderKey)
    ensures MatchHeaderLine(line, key).Some? <==> HeaderPatternMatches(line, key)
  {
    if CaptureBounds(line, key).Some? {
      MatchFitsThePattern(line, key);
    }
    if HeaderPatternMatches(line, key) {
      PatternIsMatched(line, key);
    }
  }

  /** A stretch of a line free of line terminators, taken out as a text of its own. */
  lemma SliceIsOneLine(line: string, c: nat, e: nat)
    requires c <= e <= |line|
    requires forall i :: c <= i < e ==> !IsLineTerminator(line[i])
    ensures forall i :: 0 <= i < e - c ==> !IsLineTerminator(line[c..e][i])
  {
  }

  /** Trimming keeps a text free of line terminators. */
  lemma TrimKeepsOneLine(s: string)
    requires forall i :: 0 <= i < |s| ==> !IsLineTerminator(s[i])
    ensures forall i :: 0 <= i < |Trim(s)| ==> !IsLineTerminator(Trim(s)[i])
  {
    TrimKeepsCharacters(s, c => !IsLineTerminator(c));
  }

  /** A captured value is trimmed and stays within its line. */
  lemma HeaderValueIsTrimmed(line: string, key: HeaderKey)
    requires MatchHeaderLine(line, key).Some?
    ensures var v := MatchHeaderLine(line, key).value;
      (v == [] || (!IsSpace(v[0]) && !IsSpace(v[|v| - 1])))
      && forall i :: 0 <= i < |v| ==> !IsLineTerminator(v[i])
  {
    var bounds := CaptureBounds(line, key).value;
    SliceIsOneLine(line, bounds.0, bounds.1);
    TrimKeepsOneLine(line[bounds.0..bounds.1]);
  }

  /** `RestOfLine` stops at the first line terminator at or after `k`, or at the end of `s`. */
  lemma RestOfLineStopsAtTerminator(s: string, k: nat, e: nat)
    requires k <= e <= |s|
    requires forall i :: k <= i < e ==> !IsLineTerminator(s[i])
    requires e < |s| ==> IsLineTerminator(s[e])
    ensures RestOfLine(s, k) == e
  {
  }

  /** The two `\s*` before the label stop where a fitting split puts the `*` and the label's first letter. */
  lemma PatternSplitIsFound(line: string, a: nat, b: nat)
    requires a < b < |line| && AllSpaces(line[..a]) && line[a] == '*' && AllSpaces(line[a + 1..b]) && !IsSpace(line[b])
    ensures SkipSpaces(line, 0) == a && SkipSpaces(line, a + 1) == b
  {
    assert line[..a] == line[0..a];
    SpacesEndAtSkip(line, 0, a);
    SpacesEndAtSkip(line, a + 1, b);
  }

  /** The capture bounds of a line with a fitting split, for any label `word` starting with a letter. */
  lemma CaptureOfSplit(line: string, word: string, a: nat, b: nat, c: nat, e: nat)
    requires a < b < |line| && AllSpaces(line[..a]) && line[a] == '*' && AllSpaces(line[a + 1..b]) && !IsSpace(line[b])
    requires OccursAtIgnoringCase(line, b, word)
    requires b + |word| <= c <= e <= |line| && AllSpaces(line[b + |word|..c]) && (c < |line| ==> !IsSpace(line[c]))
    requires forall i :: c <= i < e ==> !IsLineTerminator(line[i])
    requires e < |line| ==> IsLineTerminator(line[e])
    ensures CaptureAfter(line, word) == Some((c, e))
  {
    PatternSplitIsFound(line, a, b);
    SkipSpacesStopsAtRunEnd(line, b + |word|, c);
    RestOfLineStopsAtTerminator(line, c, e);
  }

  /**
   * Which stretch of the line the value is: given a split of the line that
   * fits the pattern, with `c` the end of the white space after the label
   * and `e` the first line terminator at or after `c`, the value is
   * `line[c..e]` trimmed.
   */
  lemma HeaderValueIsTheRestOfTheLine(line: string, key: HeaderKey, a: nat, b: nat, c: nat, e: nat)
    requires a < b <= |line| && AllSpaces(line[..a]) && line[a] == '*' && AllSpaces(line[a + 1..b])
    requires OccursAtIgnoringCase(line, b, Label(key))
    requires b + |Label(key)| <= c <= e <= |line| && AllSpaces(line[b + |Label(key)|..c]) && (c < |line| ==> !IsSpace(line[c]))
    requires forall i :: c <= i < e ==> !IsLineTerminator(line[i])
    requires e < |line| ==> IsLineTerminator(line[e])
    ensures MatchHeaderLine(line, key) == Some(Trim(line[c..e]))
  {
    LabelStartsWithLetter(line, b, key);
    CaptureOfSplit(line, Label(key), a, b, c, e);
  }

  // The header record.

  const NoHeader: HeaderData := HeaderData(None, None, None)

  function GetField(h: HeaderData, key: HeaderKey): Option<string>
  {
    match key
    case PluginName => h.pluginName
    case Version => h.version
    case Author => h.author
  }

  /** `header[field.key] = value`. */
  function SetField(h: HeaderData, key: HeaderKey, value: string): (r: HeaderData)
    ensures GetField(r, key) == Some(value)
    ensures forall other :: other != key ==> GetField(r, other) == GetField(h, other)
  {
    match key
    case PluginName => h.(pluginName := Some(value))
    case Version => h.(version := Some(value))
    case Author => h.(author := Some(value))
  }

  /**
   * How one header line is read: `MatchHeaderLine` in the analyser. The
   * loops below are stated for any such reader, so their properties do not
   * depend on the pattern's details.
   */
  type LineReader = (string, HeaderKey) -> Option<string>

  /** The inner loop over `headerFields` for one line, for the first `keys`. */
  function ApplyFields(h: HeaderData, line: string, keys: seq<HeaderKey>, read: LineReader): HeaderData
  {
    if keys == [] then h
    else
      var h' := ApplyFields(h, line, keys[..|keys| - 1], read);
      var key := keys[|keys| - 1];
      match read(line, key)
      case Some(v) => SetField(h', key, v)
      case None => h'
  }

  /** One line sets exactly the fields whose patterns it matches. */
  lemma {:induction false} ApplyFieldsEffect(h: HeaderData, line: string, keys: seq<HeaderKey>, key: HeaderKey, read: LineReader)
    ensures GetField(ApplyFields(h, line, keys, read), key)
         == (if key in keys && read(line, key).Some? then read(line, key) else GetField(h, key))
  {
    if keys != [] {
      ApplyFieldsEffect(h, line, keys[..|keys| - 1], key, read);
      assert keys == keys[..|keys| - 1] + [keys[|keys| - 1]];
    }
  }

  /** The outer loop over the lines, for the first lines. */
  function HeaderOfLines(lines: seq<string>, read: LineReader): HeaderData
  {
    if lines == [] then NoHeader
    else ApplyFields(HeaderOfLines(lines[..|lines| - 1], read), lines[|lines| - 1], HeaderFields, read)
  }

  /** What `parsePluginHeader(fileContent)` returns. */
  function PluginHeader(content: string): HeaderData
  {
    HeaderOfLines(Split(Top(content)), MatchHeaderLine)
  }

  /** A field holds the value of the LAST line matching its pattern, and is absent when no line matches. */
  lemma {:induction false} LastMatchWins(lines: seq<string>, key: HeaderKey, read: LineReader)
    ensures GetField(HeaderOfLines(lines, read), key).None? <==>
      forall i :: 0 <= i < |lines| ==> read(lines[i], key).None?
    ensures GetField(HeaderOfLines(lines, read), key).Some? ==>
      exists i :: 0 <= i < |lines| && read(lines[i], key) == GetField(HeaderOfLines(lines, read), key)
        && forall j :: i < j < |lines| ==> read(lines[j], key).None?
  {
    if lines != [] {
      var n := |lines| - 1;
      var front := lines[..n];
      LastMatchWins(front, key, read);
      ApplyFieldsEffect(HeaderOfLines(front, read), lines[n], HeaderFields, key, read);
      assert key in HeaderFields;
      assert forall i :: 0 <= i < n ==> front[i] == lines[i];
      var r := GetField(HeaderOfLines(lines, read), key);
      if read(lines[n], key).None? && r.Some? {
        var i :| 0 <= i < n && read(front[i], key) == r
          && forall j :: i < j < n ==> read(front[j], key).None?;
        assert read(lines[i], key) == r;
      }
    }
  }

  /** The header of a file: each field is the trimmed value of the last top line matching its pattern, if any. */
  lemma PluginHeaderFields(content: string, key: HeaderKey)
    ensures var lines := Split(Top(content));
      (GetField(PluginHeader(content), key).None? <==> forall i :: 0 <= i < |lines| ==> MatchHeaderLine(lines[i], key).None?)
      && (GetField(PluginHeader(content), key).Some? ==>
        exists i :: 0 <= i < |lines| && MatchHeaderLine(lines[i], key) == GetField(PluginHeader(content), key)
          && forall j :: i < j < |lines| ==> MatchHeaderLine(lines[j], key).None?)
  {
    LastMatchWins(Split(Top(content)), key, MatchHeaderLine);
  }

  /** Text past the first 2000 characters never affects the header. */
  lemma OnlyTheTopIsScanned(content: string, rest: string)
    requires |content| >= HeaderScanLimit
    ensures PluginHeader(content + rest) == PluginHeader(content)
  {
    assert (content + rest)[..HeaderScanLimit] == content[..HeaderScanLimit];
    assert Top(content + rest) == Top(content);
  }

  /** The inner loop of `parsePluginHeader`: every field that `read` finds on `line` is set. */
  method ApplyHeaderFields(header: HeaderData, line: string, read: LineReader) returns (updated: HeaderData)
    ensures updated == ApplyFields(header, line, HeaderFields, read)
  {
    updated := header;
    for f := 0 to |HeaderFields|
      invariant updated == ApplyFields(header, line, HeaderFields[..f], read)
    {
      var key := HeaderFields[f];
      assert HeaderFields[..f + 1] == HeaderFields[..f] + [key];
      var match_ := read(line, key);
      if match_.Some? {
        updated := SetField(updated, key, match_.value);
      }
    }
    assert HeaderFields[..|HeaderFields|] == HeaderFields;
  }

  /** `parsePluginHeader`: the loop over the top lines. */
  method ParsePluginHeader(fileContent: string) returns (header: HeaderData)
    ensures header == PluginHeader(fileContent)
  {
    var lines := Split(Top(fileContent));
    header := NoHeader;
    for l := 0 to |lines|
      invariant header == HeaderOfLines(lines[..l], MatchHeaderLine)
    {
      assert lines[..l + 1][..l] == lines[..l];
      header := ApplyHeaderFields(header, lines[l], MatchHeaderLine);
    }
    assert lines[..|lines|] == lines;
  }

  // Classification.

  datatype FileKind = PhpFile | JsFile | CssFile | PotFile | OtherFile

  /** The `if … else if` chain on the lower-cased name. */
  function Classify(lowerName: string): FileKind
  {
    if EndsWith(lowerName, ".php") then PhpFile
    else if EndsWith(lowerName, ".js") then JsFile
    else if EndsWith(lowerName, ".css") then CssFile
    else if EndsWith(lowerName, ".pot") then PotFile
    else OtherFile
  }

  function Bump(t: FileTypes, kind: FileKind): FileTypes
  {
    match kind
    case PhpFile => t.(php := t.php + 1)
    case JsFile => t.(js := t.js + 1)
    case CssFile => t.(css := t.css + 1)
    case PotFile => t.(pot := t.pot + 1)
    case OtherFile => t.(other := t.other + 1)
  }

  /** `if (headerData.pluginName)`: present and not empty. */
  predicate NamesAPlugin(h: HeaderData)
  {
    h.pluginName.Some? && h.pluginName.value != []
  }

  /**
   * What the loop body learns about one file: its kind, the header of a PHP
   * file whose header names the plugin, and whether the lower-cased name is
   * exactly `readme.txt` or `uninstall.php`.
   */
  datatype FileFacts = FileFacts(kind: FileKind, mainHeader: Option<HeaderData>, isReadme: bool, isUninstall: bool)

  /** The facts the analyser reads off a file. */
  function ReadFacts(file: UploadedFile): FileFacts
  {
    var lowerCaseName := ToLower(file.name);
    var kind := Classify(lowerCaseName);
    var headerData := PluginHeader(file.content);
    FileFacts(kind, if kind == PhpFile && NamesAPlugin(headerData) then Some(headerData) else None,
              lowerCaseName == "readme.txt", lowerCaseName == "uninstall.php")
  }

  /**
   * How files are read: `ReadFacts` in the analyser. The fold below is
   * stated for any such reader, so its properties do not depend on how names
   * are classified or headers parsed.
   */
  type FactsReader = UploadedFile -> FileFacts

  const NoAnalysis: PackageAnalysis := PackageAnalysis(false, None, false, false, NoHeader, FileTypes(0, 0, 0, 0, 0))

  /** The loop body of `analyzePackageContents` for one file with facts `facts`. */
  function Step(a: PackageAnalysis, name: string, facts: FileFacts): PackageAnalysis
  {
    var counted := a.(fileTypes := Bump(a.fileTypes, facts.kind));
    var withMain :=
      match facts.mainHeader
      case Some(headerData) => counted.(hasMainFile := true, mainFileName := Some(name), headerData := headerData)
      case None => counted;
    withMain.(hasReadme := withMain.hasReadme || facts.isReadme, hasUninstall := withMain.hasUninstall || facts.isUninstall)
  }

  /** The analysis of `files`, each read by `factsOf`. */
  function AnalysisWith(files: seq<UploadedFile>, factsOf: FactsReader): PackageAnalysis
  {
    if files == [] then NoAnalysis
    else
      var file := files[|files| - 1];
      Step(AnalysisWith(files[..|files| - 1], factsOf), file.name, factsOf(file))
  }

  /** What `analyzePackageContents(files)` returns. */
  function Analysis(files: seq<UploadedFile>): PackageAnalysis
  {
    AnalysisWith(files, ReadFacts)
  }

  /** The loop body of `analyzePackageContents`: classify the file, read its header if PHP, check the two special names. */
  method AnalyzeFile(analysis: PackageAnalysis, file: UploadedFile) returns (updated: PackageAnalysis)
    ensures updated == Step(analysis, file.name, ReadFacts(file))
  {
    var lowerCaseName := ToLower(file.name);
    var kind := Classify(lowerCaseName);
    updated := analysis.(fileTypes := Bump(analysis.fileTypes, kind));
    if kind == PhpFile {
      var headerData := ParsePluginHeader(file.content);
      if headerData.pluginName.Some? && headerData.pluginName.value != [] {
        updated := updated.(hasMainFile := true, mainFileName := Some(file.name), headerData := headerData);
      }
    }
    if lowerCaseName == "readme.txt" {
      updated := updated.(hasReadme := true);
    }
    if lowerCaseName == "uninstall.php" {
      updated := updated.(hasUninstall := true);
    }
  }

  /** `analyzePackageContents`: one pass updating the counters and flags of `analysis`. */
  method AnalyzePackageContents(files: seq<UploadedFile>) returns (analysis: PackageAnalysis)
    ensures analysis == Analysis(files)
  {
    analysis := NoAnalysis;
    for i := 0 to |files|
      invariant analysis == AnalysisWith(files[..i], ReadFacts)
    {
      assert files[..i + 1][..i] == files[..i];
      analysis := AnalyzeFile(analysis, files[i]);
    }
    assert files[..|files|] == files;
  }

  // Properties of the analysis.

  /** The kind of every file, in order. */
  function Kinds(files: seq<UploadedFile>, factsOf: FactsReader): (r: seq<FileKind>)
    ensures |r| == |files|
    ensures forall i :: 0 <= i < |files| ==> r[i] == factsOf(files[i]).kind
  {
    if files == [] then []
    else Kinds(files[..|files| - 1], factsOf) + [factsOf(files[|files| - 1]).kind]
  }

  /** The five counters of `t` are the numbers of each kind in `m`. */
  predicate CountsKinds(t: FileTypes, m: multiset<FileKind>)
  {
    t.php == m[PhpFile] && t.js == m[JsFile] && t.css == m[CssFile] && t.pot == m[PotFile] && t.other == m[OtherFile]
  }

  /** Bumping a kind's counter counts one more file of that kind. */
  lemma BumpCountsOneMore(t: FileTypes, m: multiset<FileKind>, kind: FileKind)
    requires CountsKinds(t, m)
    ensures CountsKinds(Bump(t, kind), m + multiset{kind})
  {
  }

  /** Each counter counts the files of its kind. */
  lemma {:induction false} CountersCountKinds(files: seq<UploadedFile>, factsOf: FactsReader)
    ensures CountsKinds(AnalysisWith(files, factsOf).fileTypes, multiset(Kinds(files, factsOf)))
  {
    if files != [] {
      var n := |files| - 1;
      var front := files[..n];
      var kind := factsOf(files[n]).kind;
      CountersCountKinds(front, factsOf);
      assert Kinds(files, factsOf) == Kinds(front, factsOf) + [kind];
      BumpCountsOneMore(AnalysisWith(front, factsOf).fileTypes, multiset(Kinds(front, factsOf)), kind);
    }
  }

  function Total(t: FileTypes): nat
  {
    t.php + t.js + t.css + t.pot + t.other
  }

  /** A step bumps exactly the counter of the file's kind. */
  lemma StepCounts(a: PackageAnalysis, name: string, facts: FileFacts)
    ensures Step(a, name, facts).fileTypes == Bump(a.fileTypes, facts.kind)
    ensures Total(Bump(a.fileTypes, facts.kind)) == Total(a.fileTypes) + 1
  {
  }

  /** Every file is counted once: the five counters add up to the number of files. */
  lemma {:induction false} CountersAddUp(files: seq<UploadedFile>, factsOf: FactsReader)
    ensures Total(AnalysisWith(files, factsOf).fileTypes) == |files|
  {
    if files != [] {
      var n := |files| - 1;
      CountersAddUp(files[..n], factsOf);
      StepCounts(AnalysisWith(files[..n], factsOf), files[n].name, factsOf(files[n]));
    }
  }

  /** `hasReadme` and `hasUninstall` say whether some file is the readme or the uninstall script. */
  lemma {:induction false} ReadmeAndUninstallFlags(files: seq<UploadedFile>, factsOf: FactsReader)
    ensures AnalysisWith(files, factsOf).hasReadme <==> exists i :: 0 <= i < |files| && factsOf(files[i]).isReadme
    ensures AnalysisWith(files, factsOf).hasUninstall <==> exists i :: 0 <= i < |files| && factsOf(files[i]).isUninstall
  {
    if files != [] {
      var n := |files| - 1;
      ReadmeAndUninstallFlags(files[..n], factsOf);
      assert forall i :: 0 <= i < n ==> files[..n][i] == files[i];
    }
  }

  /** One step sets the main file exactly when the file is a candidate, and otherwise keeps it. */
  lemma StepMainFile(a: PackageAnalysis, name: string, facts: FileFacts)
    ensures var r := Step(a, name, facts);
      if facts.mainHeader.Some? then
        r.hasMainFile && r.mainFileName == Some(name) && r.headerData == facts.mainHeader.value
      else
        r.hasMainFile == a.hasMainFile && r.mainFileName == a.mainFileName && r.headerData == a.headerData
  {
  }

  /** The index of the last file read as a main-file candidate, or -1 when there is none. */
  function LastMainFile(files: seq<UploadedFile>, factsOf: FactsReader): (k: int)
    ensures -1 <= k < |files|
    ensures k >= 0 ==> factsOf(files[k]).mainHeader.Some?
    ensures forall j :: k < j < |files| ==> factsOf(files[j]).mainHeader.None?
  {
    if files == [] then -1
    else if factsOf(files[|files| - 1]).mainHeader.Some? then |files| - 1
    else LastMainFile(files[..|files| - 1], factsOf)
  }

  /**
   * The main file is the LAST PHP file whose header names the plugin: its
   * name and header are the ones recorded; with no such file, `hasMainFile`
   * is false and the name and header stay unset.
   */
  lemma {:induction false} MainFileIsLastNamedPhpFile(files: seq<UploadedFile>, factsOf: FactsReader)
    ensures AnalysisWith(files, factsOf).hasMainFile <==> LastMainFile(files, factsOf) >= 0
    ensures LastMainFile(files, factsOf) >= 0 ==>
      AnalysisWith(files, factsOf).mainFileName == Some(files[LastMainFile(files, factsOf)].name)
      && AnalysisWith(files, factsOf).headerData == factsOf(files[LastMainFile(files, factsOf)]).mainHeader.value
    ensures LastMainFile(files, factsOf) < 0 ==>
      AnalysisWith(files, factsOf).mainFileName == None && AnalysisWith(files, factsOf).headerData == NoHeader
  {
    if files != [] {
      var n := |files| - 1;
      MainFileIsLastNamedPhpFile(files[..n], factsOf);
      StepMainFile(AnalysisWith(files[..n], factsOf), files[n].name, factsOf(files[n]));
      if factsOf(files[n]).mainHeader.None? {
        var k := LastMainFile(files[..n], factsOf);
        if k >= 0 {
          assert files[..n][k] == files[k];
        }
      }
    }
  }

  /** `hasMainFile` says whether some PHP file's header names the plugin. */
  lemma MainFileFlag(files: seq<UploadedFile>, factsOf: FactsReader)
    ensures AnalysisWith(files, factsOf).hasMainFile <==> exists i :: 0 <= i < |files| && factsOf(files[i]).mainHeader.Some?
  {
    MainFileIsLastNamedPhpFile(files, factsOf);
    var k := LastMainFile(files, factsOf);
    if k >= 0 {
      assert factsOf(files[k]).mainHeader.Some?;
    }
  }

  /** The last two characters of a name tell the four suffixes apart. */
  lemma EndingsAreExclusive(s: string, suffix: string)
    requires EndsWith(s, suffix) && |suffix| >= 2
    ensures s[|s| - 2] == suffix[|suffix| - 2] && s[|s| - 1] == suffix[|suffix| - 1]
  {
    assert s[|s| - |suffix|..][|suffix| - 2] == s[|s| - 2];
    assert s[|s| - |suffix|..][|suffix| - 1] == s[|s| - 1];
  }

  /** Each kind but the last is exactly the names with its suffix; the order of the `if` chain does not matter. */
  lemma ClassifyByEnding(lowerName: string)
    ensures Classify(lowerName) == PhpFile <==> EndsWith(lowerName, ".php")
    ensures Classify(lowerName) == JsFile <==> EndsWith(lowerName, ".js")
    ensures Classify(lowerName) == CssFile <==> EndsWith(lowerName, ".css")
    ensures Classify(lowerName) == PotFile <==> EndsWith(lowerName, ".pot")
  {
    if EndsWith(lowerName, ".php") { EndingsAreExclusive(lowerName, ".php"); }
    if EndsWith(lowerName, ".js") { EndingsAreExclusive(lowerName, ".js"); }
    if EndsWith(lowerName, ".css") { EndingsAreExclusive(lowerName, ".css"); }
    if EndsWith(lowerName, ".pot") { EndingsAreExclusive(lowerName, ".pot"); }
  }

  /** A main-file candidate: a name ending `.php` in any case, whose header names the plugin. */
  predicate IsMainFileCandidate(file: UploadedFile)
  {
    EndsWith(ToLower(file.name), ".php") && NamesAPlugin(PluginHeader(file.content))
  }

  /** The facts the analyser reads, in terms of the file's own name and content. */
  lemma ReadFactsMeaning(file: UploadedFile)
    ensures ReadFacts(file).kind == Classify(ToLower(file.name))
    ensures ReadFacts(file).mainHeader.Some? <==> IsMainFileCandidate(file)
    ensures ReadFacts(file).mainHeader.Some? ==> ReadFacts(file).mainHeader.value == PluginHeader(file.content)
    ensures ReadFacts(file).isReadme <==> ToLower(file.name) == "readme.txt"
    ensures ReadFacts(file).isUninstall <==> ToLower(file.name) == "uninstall.php"
  {
    ClassifyByEnding(ToLower(file.name));
  }

  /** The number of files whose lower-cased name ends with `suffix`. */
  function NamesEndingWith(files: seq<UploadedFile>, suffix: string): nat
  {
    if files == [] then 0
    else NamesEndingWith(files[..|files| - 1], suffix) + (if EndsWith(ToLower(files[|files| - 1].name), suffix) then 1 else 0)
  }

  /** Bumping the counter of a name's kind adds one to the counter of its suffix. */
  lemma BumpBySuffix(t: FileTypes, lowerName: string)
    ensures var u := Bump(t, Classify(lowerName));
      u.php == t.php + (if EndsWith(lowerName, ".php") then 1 else 0)
      && u.js == t.js + (if EndsWith(lowerName, ".js") then 1 else 0)
      && u.css == t.css + (if EndsWith(lowerName, ".css") then 1 else 0)
      && u.pot == t.pot + (if EndsWith(lowerName, ".pot") then 1 else 0)
  {
    ClassifyByEnding(lowerName);
  }

  /** The counters of the first four kinds count the names ending with their suffix, in any case. */
  lemma {:induction false} SuffixCounters(files: seq<UploadedFile>)
    ensures var t := Analysis(files).fileTypes;
      t.php == NamesEndingWith(files, ".php") && t.js == NamesEndingWith(files, ".js")
      && t.css == NamesEndingWith(files, ".css") && t.pot == NamesEndingWith(files, ".pot")
  {
    if files != [] {
      var n := |files| - 1;
      var front := files[..n];
      SuffixCounters(front);
      StepCounts(Analysis(front), files[n].name, ReadFacts(files[n]));
      ReadFactsMeaning(files[n]);
      BumpBySuffix(Analysis(front).fileTypes, ToLower(files[n].name));
    }
  }

  /**
   * The counters of `analyzePackageContents`: `php`, `js`, `css` and `pot`
   * count the names ending with that suffix in any case, and `other` the
   * remaining files.
   */
  lemma CountersCountSuffixes(files: seq<UploadedFile>)
    ensures var t := Analysis(files).fileTypes;
      t.php == NamesEndingWith(files, ".php") && t.js == NamesEndingWith(files, ".js")
      && t.css == NamesEndingWith(files, ".css") && t.pot == NamesEndingWith(files, ".pot")
      && t.other == |files| - t.php - t.js - t.css - t.pot
  {
    SuffixCounters(files);
    CountersAddUp(files, ReadFacts);
  }

  /** `hasReadme` and `hasUninstall`: some file is named `readme.txt` or `uninstall.php`, in any case. */
  lemma ReadmeAndUninstallNames(files: seq<UploadedFile>)
    ensures Analysis(files).hasReadme <==> exists i :: 0 <= i < |files| && ToLower(files[i].name) == "readme.txt"
    ensures Analysis(files).hasUninstall <==> exists i :: 0 <= i < |files| && ToLower(files[i].name) == "uninstall.php"
  {
    ReadmeAndUninstallFlags(files, ReadFacts);
    forall i | 0 <= i < |files|
      ensures ReadFacts(files[i]).isReadme <==> ToLower(files[i].name) == "readme.txt"
      ensures ReadFacts(files[i]).isUninstall <==> ToLower(files[i].name) == "uninstall.php"
    {
      ReadFactsMeaning(files[i]);
    }
  }

  /**
   * The main file is the last candidate: `hasMainFile` holds exactly when
   * there is one, its name and parsed header are recorded, and with none the
   * name and header stay unset.
   */
  lemma MainFileIsLastCandidate(files: seq<UploadedFile>)
    ensures Analysis(files).hasMainFile <==> exists i :: 0 <= i < |files| && IsMainFileCandidate(files[i])
    ensures Analysis(files).hasMainFile ==>
      exists k :: 0 <= k < |files| && IsMainFileCandidate(files[k])
        && Analysis(files).mainFileName == Some(files[k].name) && Analysis(files).headerData == PluginHeader(files[k].content)
        && forall j :: k < j < |files| ==> !IsMainFileCandidate(files[j])
    ensures !Analysis(files).hasMainFile ==> Analysis(files).mainFileName == None && Analysis(files).headerData == NoHeader
  {
    MainFileIsLastNamedPhpFile(files, ReadFacts);
    forall i | 0 <= i < |files|
      ensures ReadFacts(files[i]).mainHeader.Some? <==> IsMainFileCandidate(files[i])
      ensures ReadFacts(files[i]).mainHeader.Some? ==> ReadFacts(files[i]).mainHeader.value == PluginHeader(files[i].content)
    {
      ReadFactsMeaning(files[i]);
    }
    var k := LastMainFile(files, ReadFacts);
    if k >= 0 {
      assert IsMainFileCandidate(files[k]);
    }
  }

  // The uninstall boilerplate.

  datatype GeneratedFile = GeneratedFile(fileName: string, code: string)

  /** The opening tag of a PHP file. */
  const PhpOpenTag: string := "<?php"

  const BoilerplateCode: string := PhpOpenTag + BoilerplateBody

  const BoilerplateBody: string :=
    "\n/**\n * Fired when the plugin is uninstalled.\n *\n * @package   My_Custom_Plugin\n */\n\n"
    + "// If uninstall not called from WordPress, then exit.\nif ( ! defined( 'WP_UNINSTALL_PLUGIN' ) ) {\n\texit;\n}\n\n"
    + "// TODO: Add cleanup logic here, such as deleting options and custom tables.\n// For example:\n"
    + "// delete_option( 'my_plugin_option_name' );\n"

  /** `getBoilerplateUninstall()`. */
  function BoilerplateUninstall(): (r: GeneratedFile)
    ensures r.fileName == "uninstall.php"
    ensures |r.code| >= |PhpOpenTag| && r.code[..|PhpOpenTag|] == PhpOpenTag
  {
    assert BoilerplateCode[..|PhpOpenTag|] == PhpOpenTag;
    GeneratedFile("uninstall.php", BoilerplateCode)
  }

  /** A file named `uninstall.php`, whatever it holds, is counted as PHP and sets `hasUninstall`. */
  lemma UninstallFileCounted(files: seq<UploadedFile>, file: UploadedFile)
    requires file.name == "uninstall.php"
    ensures var a := Analysis(files + [file]);
      a.hasUninstall && a.fileTypes.php == Analysis(files).fileTypes.php + 1
  {
    var all := files + [file];
    assert all[..|all| - 1] == files;
    ToLowerOfLower("uninstall.php");
    assert "uninstall.php"[9..] == ".php";
  }

  /** Added to a package, the boilerplate is counted as PHP and recognised as its uninstall file. */
  lemma BoilerplateIsTheUninstallFile(files: seq<UploadedFile>, path: string)
    ensures var b := BoilerplateUninstall();
      var a := Analysis(files + [UploadedFile(b.fileName, b.code, path)]);
      a.hasUninstall && a.fileTypes.php == Analysis(files).fileTypes.php + 1
  {
    var b := BoilerplateUninstall();
    UninstallFileCounted(files, UploadedFile(b.fileName, b.code, path));
  }
}
