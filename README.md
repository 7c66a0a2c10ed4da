# WP Plugin Bonsai core, modelled in Dafny

WP Plugin Bonsai is a browser tool for reviewing and repairing WordPress
plugins. This project models the parts of it that decide what the tool
reports and what it writes back:

- **The patch applicator** (`LocalCodePatcher.applyPatch`, `code_patcher.dfy`).
  Every edit instruction gives its line numbers against the original file.
  The instructions are sorted by start line, highest first, with a stable
  sort. Each valid instruction is spliced into the line list, invalid ones
  are skipped, and the lines are joined again.
- **The offline analyser** (`performLocalAnalysis`, `local_analysis.dfy`).
  A syntax check gates each PHP file. A file that parses gets the
  unescaped-output rule (`unescaped_output.dfy`) and then the
  deprecated-call rule. That rule walks the syntax tree the PHP parser
  returns (`deprecated_calls.dfy`). The older copy of the service under
  `services/` behaves the same and is cited beside the current one.
- **The plugin packager** (`plugin_packager.dfy`):
  - `parsePluginHeader` reads the header fields from the first 2000 characters;
  - `analyzePackageContents` counts file kinds, finds the main file, the
    readme and the uninstall script;
  - `getBoilerplateUninstall` returns the stock uninstall script.
- **Provider failover** (`executeWithFailover`, `ai_failover.dfy`). The
  chosen model is tried first, then every other model of an enabled
  provider, in list order. A failure either ends the run (invalid key,
  network error) or moves on to the next model.
- **The workspace state of `App.tsx`** (`workspace.dfy`): the plugin list,
  its four-state undo history, the handlers that change them, and the
  default download name.

Shared pieces:

- `text.dfy`: the JavaScript string operations used by the core (`split`,
  `join`, `toLowerCase`, `trim`, `endsWith`, `includes`, decimal rendering).
- `types.dfy`: the records of `src/types.ts`.
- `wrappers.dfy`: `Option`.

Foreign code enters as parameters:

- the PHP parser is a function `parse(code, fileName)`;
- the model runners become `respond(n, model)`, the outcome of the `n`-th call;
- the random plugin ids are arguments.

Stateful code is modelled as methods with loops. Each method's
postcondition equates its result with a specification function, and the
source's promises are proved about those functions as lemmas:

- `applyPatch`, the two analyser loops, the walk, header parsing, package
  analysis and the failover loop are methods with loops;
- the workspace is a class whose methods update its fields;
- each method's `ensures` ties its result or new state to a specification
  function.

## Model

| member | source | states |
|---|---|---|
| Text.JoinSplit | wp-plugin-bonsai/src/services/localCodePatcher.ts:6 | Joining the lines of a split text with newlines gives the text back. |
| Text.SplitJoin | wp-plugin-bonsai/src/services/localCodePatcher.ts:36 | Splitting a join of newline-free lines gives those lines back. |
| Text.Split | wp-plugin-bonsai/src/services/localCodePatcher.ts:6 | `split('\n')` yields at least one piece, and no piece holds a newline. |
| Text.ToLower | wp-plugin-bonsai/src/services/localPluginPackager.ts:56 | Lower-casing keeps the length and maps every character on its own. |
| Text.ToLowerOfLower | wp-plugin-bonsai/src/services/localPluginPackager.ts:56 | A text without capitals is unchanged by lower-casing. |
| Text.Trim | wp-plugin-bonsai/src/services/localPluginPackager.ts:38 | The trimmed text is a slice of the input, cut only at whitespace, and starts and ends with non-whitespace. |
| Text.TrimKeepsCharacters | wp-plugin-bonsai/src/services/localPluginPackager.ts:38 | Every character of the trimmed text comes from the input. |
| Text.SkipSpaces | wp-plugin-bonsai/src/services/localPluginPackager.ts:29-31 | `\s*` matches greedily up to the first non-space character. |
| Text.NatToString | wp-plugin-bonsai/src/services/localAnalysisService.ts:50 | A line number renders as decimal digits whose value is that number, with no leading zero. |
| Text.NatToStringInjective | wp-plugin-bonsai/src/services/localAnalysisService.ts:50 | Different line numbers render differently. |
| CodePatcher.InsertByStartAdds | wp-plugin-bonsai/src/services/localCodePatcher.ts:7 | An insertion step of the sort adds exactly the inserted instruction. |
| CodePatcher.InsertByStartOrdered | wp-plugin-bonsai/src/services/localCodePatcher.ts:7 | Inserting into a list ordered by descending start line keeps it ordered. |
| CodePatcher.InsertByStartStable | wp-plugin-bonsai/src/services/localCodePatcher.ts:7 | An inserted instruction goes before the equal-start instructions already placed. |
| CodePatcher.SortIsOrderedPermutation | wp-plugin-bonsai/src/services/localCodePatcher.ts:7 | `SortByStartDesc`, the model of `sort((a, b) => b.startLine - a.startLine)`, orders by start line, highest first, and holds exactly the input instructions. |
| CodePatcher.SortIsStable | wp-plugin-bonsai/src/services/localCodePatcher.ts:7 | Instructions that share a start line keep their input order. |
| CodePatcher.ApplyChange | wp-plugin-bonsai/src/services/localCodePatcher.ts:9-35 | Each kind splices as the source does. Replace swaps lines start..end for the content as one entry. Insert-before and insert-after put the content before or after the start line. Delete removes start..end. An instruction the range guard rejects changes nothing. |
| CodePatcher.ApplyPatch | wp-plugin-bonsai/src/services/localCodePatcher.ts:4-37 | An empty patch returns the code unchanged. Otherwise the method returns `PatchResult`: the split lines with the sorted instructions applied in order by `ApplyAll`, joined with newlines. |
| CodePatcher.SkippedChangesKeepLines | wp-plugin-bonsai/src/services/localCodePatcher.ts:11 | Instructions that all fail the range guard leave the lines untouched. |
| CodePatcher.OutOfRangePatchIsIdentity | wp-plugin-bonsai/src/services/localCodePatcher.ts:11 | A patch of out-of-range instructions returns the original text exactly. |
| CodePatcher.PrefixKept | wp-plugin-bonsai/src/services/localCodePatcher.ts:12-33 | Instructions applied at or below a line keep every line above it. |
| CodePatcher.NoLineDrift | wp-plugin-bonsai/src/services/localCodePatcher.ts:7-35 | When an instruction's turn comes, every line above its start line is still the original line. Lines at or below its start line may already have changed. |
| CodePatcher.BlockIntactWhenDisjoint | wp-plugin-bonsai/src/services/localCodePatcher.ts:7-35 | When every instruction applied before it starts after its end line, every line up to its end line is still the original line, so its whole block is the original block. |
| CodePatcher.ReorderedPatchExample | wp-plugin-bonsai/test/localCodePatcher.test.ts:7-17 | Instructions listed out of order give the expected patched text. |
| CodePatcher.OutOfRangeExample | wp-plugin-bonsai/test/localCodePatcher.test.ts:19-27 | Out-of-range instructions return the input text. |
| UnescapedOutput.MatcherIsTheRegex | wp-plugin-bonsai/src/services/localAnalysisService.ts:40 | The greedy matcher agrees with the backtracking meaning of `/(echo\|print\|printf\|=>)\s*\$_(GET\|POST\|REQUEST)\[/i` on every line. |
| UnescapedOutput.Flagged | wp-plugin-bonsai/src/services/localAnalysisService.ts:42-56 | The flagged indices are exactly the lines the test holds of, each once, increasing. |
| UnescapedOutput.FlaggedIndices | wp-plugin-bonsai/src/services/localAnalysisService.ts:44 | An index is listed iff its line matches the pattern and does not mention `wp_verify_nonce`. |
| UnescapedOutput.CheckUnescapedOutput | wp-plugin-bonsai/src/services/localAnalysisService.ts:37-59 | The loop returns one Security/Critical issue per reported line, in line order. The older copy in `services/localAnalysisService.ts` does the same at lines 41-63. |
| UnescapedOutput.ReportedLines | wp-plugin-bonsai/src/services/localAnalysisService.ts:44-50 | A line is reported iff it matches and has no nonce check. Its issue names the 1-based line number. |
| UnescapedOutput.XssIssueNamesLine | wp-plugin-bonsai/src/services/localAnalysisService.ts:50 | Issues for different lines differ. |
| UnescapedOutput.UnescapedIssuesAreCritical | wp-plugin-bonsai/src/services/localAnalysisService.ts:45-54 | Every issue of the rule is a Security/Critical local-scanner issue for this plugin and file. |
| UnescapedOutput.NonceCheckedLineNotReported | wp-plugin-bonsai/src/services/localAnalysisService.ts:44 | A line that mentions `wp_verify_nonce` is never reported. |
| UnescapedOutput.EchoGetExample | wp-plugin-bonsai/test/localAnalysisService.test.ts:22-26 | `<?php echo $_GET["name"];` is reported on line 1. |
| DeprecatedCalls.Get | wp-plugin-bonsai/src/services/localAnalysisService.ts:90 | A property lookup gives the value of the first field with the key, or `undefined` when no field has it. |
| DeprecatedCalls.CallReport | wp-plugin-bonsai/src/services/localAnalysisService.ts:68-85 | A call node reports only names in the deprecated list. |
| DeprecatedCalls.Walk | wp-plugin-bonsai/src/services/localAnalysisService.ts:65-98 | Every reported name is in the deprecated list. |
| DeprecatedCalls.CallReportNamesTheCall | wp-plugin-bonsai/src/services/localAnalysisService.ts:66-71 | A node's own report names `f` iff the node is a call whose callee is the plain name `f` and `f` is deprecated (`DeprecatedCallOf`). |
| DeprecatedCalls.WalkComplete | wp-plugin-bonsai/src/services/localAnalysisService.ts:63-95 | When the walk does not throw, every deprecated call it reaches is reported. `Visits` follows the traversal: a truthy node, then each property, descending into every array element and into objects with a truthy `kind`. |
| DeprecatedCalls.WalkSound | wp-plugin-bonsai/src/services/localAnalysisService.ts:63-95 | Every reported name is the callee of a deprecated call the walk reaches. |
| DeprecatedCalls.WalkFindsTheDeprecatedCalls | wp-plugin-bonsai/src/services/localAnalysisService.ts:63-98 | When the walk does not throw, a name is reported iff some call the walk reaches calls it as a plain name and it is deprecated. |
| DeprecatedCalls.ThenAssociative | wp-plugin-bonsai/src/services/localAnalysisService.ts:65-98 | Sequencing parts of the walk is associative, so a throw anywhere aborts it. |
| DeprecatedCalls.WalkFieldsAppend | wp-plugin-bonsai/src/services/localAnalysisService.ts:88-97 | The properties of an object are visited in order: walking two runs of properties is walking each in turn. |
| DeprecatedCalls.WalkEachAppend | wp-plugin-bonsai/src/services/localAnalysisService.ts:92 | `forEach(walk)` over two runs of elements is the walk of each in turn. |
| DeprecatedCalls.KindlessPropertySkipped | wp-plugin-bonsai/src/services/localAnalysisService.ts:93-94 | An object property without a truthy `kind` is not descended into. |
| DeprecatedCalls.ThrowingElementAborts | wp-plugin-bonsai/src/services/localAnalysisService.ts:91-92 | Every array element is walked whatever its kind; one element that throws aborts the rule. |
| DeprecatedCalls.DeprecatedCallReportedFirst | wp-plugin-bonsai/src/services/localAnalysisService.ts:68-85 | A call to a deprecated plain name is reported before anything found below it. |
| DeprecatedCalls.IndirectCallNotReported | wp-plugin-bonsai/src/services/localAnalysisService.ts:70-71 | A call whose callee is not a plain name reports nothing itself. |
| DeprecatedCalls.MissingCalleeThrows | wp-plugin-bonsai/src/services/localAnalysisService.ts:70 | A call node without a callee makes the walk throw. |
| DeprecatedCalls.DeprecatedIssuesAreWarnings | wp-plugin-bonsai/src/services/localAnalysisService.ts:72-83 | Every issue of the rule is a Best Practices warning from the local scanner that names a deprecated function. |
| DeprecatedCalls.ReportCall | wp-plugin-bonsai/src/services/localAnalysisService.ts:68-85 | The call block throws exactly when the node's own report does. Otherwise it appends that report's issues. |
| DeprecatedCalls.CheckDeprecatedFunctions | wp-plugin-bonsai/src/services/localAnalysisService.ts:62-102 | The recursive walk returns the issues of the pre-order walk specification, or throws exactly when it does. The older copy in `services/localAnalysisService.ts` does the same at lines 66-106. |
| DeprecatedCalls.AddOptionWhitelistExample | wp-plugin-bonsai/src/data/wordpress.ts:3-13 | The program `<?php add_option_whitelist();`, as the parser returns it, reports exactly that deprecated name. |
| LocalAnalysis.CheckSyntax | wp-plugin-bonsai/src/services/localAnalysisService.ts:18-35 | No issue when the code parses. Otherwise exactly one Code Quality/Critical issue for the file. The older copy in `services/localAnalysisService.ts` does the same at lines 22-39. |
| LocalAnalysis.NonPhpFileIgnored | wp-plugin-bonsai/src/services/localAnalysisService.ts:109 | A file whose lower-cased name does not end in `.php` yields nothing. |
| LocalAnalysis.SyntaxErrorGatesFile | wp-plugin-bonsai/src/services/localAnalysisService.ts:110-114 | A syntax error yields exactly the syntax issue; no other rule runs. |
| LocalAnalysis.ParsedFileOrder | wp-plugin-bonsai/src/services/localAnalysisService.ts:116-123 | A parsed file gets its unescaped-output issues first, then only deprecated-call warnings. |
| LocalAnalysis.SecondParseFailureKeepsIssues | wp-plugin-bonsai/src/services/localAnalysisService.ts:118-123 | If the second parse throws, the file keeps its unescaped-output issues and gains nothing else. |
| LocalAnalysis.ThrowingWalkKeepsIssues | wp-plugin-bonsai/src/services/localAnalysisService.ts:118-123 | A walk that throws is caught; the file keeps its unescaped-output issues. |
| LocalAnalysis.AstIssueReported | wp-plugin-bonsai/src/services/localAnalysisService.ts:119-120 | A deprecated-call issue of a PHP file that passed the syntax check is among the file's issues. |
| LocalAnalysis.FileIssuesNameTheirFile | wp-plugin-bonsai/src/services/localAnalysisService.ts:108-124 | Every issue of a file comes from the local scanner and names the plugin and the file. |
| LocalAnalysis.PerformLocalAnalysis | wp-plugin-bonsai/src/services/localAnalysisService.ts:104-129 | The nested loops return the issues of every plugin, in plugin order and then file order. It returns `LocalAnalysis`, built from `FilesIssues` and, per file, `FileIssues`. The older copy in `services/localAnalysisService.ts` does the same at lines 108-142. |
| LocalAnalysis.AnalysePluginFiles | wp-plugin-bonsai/src/services/localAnalysisService.ts:108-125 | The inner loop appends one plugin's file issues, in file order, after the issues so far. |
| LocalAnalysis.AnalyseFile | wp-plugin-bonsai/src/services/localAnalysisService.ts:109-124 | One file's loop body appends exactly that file's issues. |
| LocalAnalysis.FilesIssuesAppend | wp-plugin-bonsai/src/services/localAnalysisService.ts:108-125 | The issues of two runs of files are the issues of each run, in order. |
| LocalAnalysis.NonPhpFileChangesNothing | wp-plugin-bonsai/src/services/localAnalysisService.ts:109 | Adding a non-PHP file to a plugin changes no issue. |
| LocalAnalysis.LocalAnalysisAppend | wp-plugin-bonsai/src/services/localAnalysisService.ts:107-126 | The analysis of two runs of plugins is the analysis of each run, in order. |
| LocalAnalysis.LocalAnalysisProvenance | wp-plugin-bonsai/src/services/localAnalysisService.ts:104-129 | Every issue comes from the local scanner and names an analysed plugin and one of its PHP files. |
| LocalAnalysis.SyntaxErrorTestCase | wp-plugin-bonsai/test/localAnalysisService.test.ts:16-20 | A file the parser rejects yields a Code Quality issue. |
| LocalAnalysis.UnescapedOutputTestCase | wp-plugin-bonsai/test/localAnalysisService.test.ts:22-26 | `<?php echo $_GET["name"];` yields a Security issue once it parses. |
| LocalAnalysis.DeprecatedFunctionTestCase | wp-plugin-bonsai/test/localAnalysisService.test.ts:28-32 | `<?php add_option_whitelist();` yields a Best Practices issue, given the tree the parser builds. |
| PluginPackager.Top | wp-plugin-bonsai/src/services/localPluginPackager.ts:26 | The scanned text is a prefix of at most 2000 characters, and is the whole content when that is shorter. |
| PluginPackager.RestOfLine | wp-plugin-bonsai/src/services/localPluginPackager.ts:29-31 | `.*` stops at the first line terminator or at the end. |
| PluginPackager.MatchHeaderLineIsThePattern | wp-plugin-bonsai/src/services/localPluginPackager.ts:29-36 | A line gives a value iff the field's `/^\s*\*\s*Label:\s*(.*)/i` pattern matches it. The pattern is read as an independent reference definition. |
| PluginPackager.HeaderValueIsTrimmed | wp-plugin-bonsai/src/services/localPluginPackager.ts:37-38 | A captured value is trimmed and holds no line terminator. |
| PluginPackager.HeaderValueIsTheRestOfTheLine | wp-plugin-bonsai/src/services/localPluginPackager.ts:29-38 | For a line the pattern matches, the value is `line[c..e]` trimmed. Here `c` ends the white space after the label and `e` is the first line terminator at or after `c`, or the end of the line. |
| PluginPackager.SetField | wp-plugin-bonsai/src/services/localPluginPackager.ts:38 | Setting a field changes that field only. |
| PluginPackager.ApplyFieldsEffect | wp-plugin-bonsai/src/services/localPluginPackager.ts:35-40 | One line sets exactly the fields whose patterns it matches. |
| PluginPackager.LastMatchWins | wp-plugin-bonsai/src/services/localPluginPackager.ts:34-41 | A field is absent iff no line matches its pattern. Otherwise it holds the value of the last matching line. |
| PluginPackager.PluginHeaderFields | wp-plugin-bonsai/src/services/localPluginPackager.ts:24-43 | Each header field is the trimmed value of the last line of the first 2000 characters that matches its pattern, if any. |
| PluginPackager.OnlyTheTopIsScanned | wp-plugin-bonsai/src/services/localPluginPackager.ts:26 | Text past the first 2000 characters never changes the header. |
| PluginPackager.ApplyHeaderFields | wp-plugin-bonsai/src/services/localPluginPackager.ts:35-40 | The inner loop sets the fields the line matches, in table order. |
| PluginPackager.ParsePluginHeader | wp-plugin-bonsai/src/services/localPluginPackager.ts:24-43 | The nested loops compute `PluginHeader`: `HeaderOfLines` over the lines of the first 2000 characters. |
| PluginPackager.AnalyzeFile | wp-plugin-bonsai/src/services/localPluginPackager.ts:56-82 | One file's loop body is one step of the analysis specification. |
| PluginPackager.AnalyzePackageContents | wp-plugin-bonsai/src/services/localPluginPackager.ts:45-86 | The loop computes `Analysis`: one step per file, in order, on the facts `ReadFacts` reads off its name and content. |
| PluginPackager.ClassifyByEnding | wp-plugin-bonsai/src/services/localPluginPackager.ts:58-74 | `Classify` gives PHP, JS, CSS or POT iff the lower-cased name ends with `.php`, `.js`, `.css` or `.pot`. The order of the `else if` chain does not matter. |
| PluginPackager.CountersCountSuffixes | wp-plugin-bonsai/src/services/localPluginPackager.ts:56-74 | The `php`, `js`, `css` and `pot` counters are the numbers of files whose name ends with that suffix, in any case. `other` counts the remaining files. |
| PluginPackager.ReadmeAndUninstallNames | wp-plugin-bonsai/src/services/localPluginPackager.ts:76-82 | `hasReadme` holds iff some file's lower-cased name is `readme.txt`. `hasUninstall` holds iff some file's lower-cased name is `uninstall.php`. |
| PluginPackager.MainFileIsLastCandidate | wp-plugin-bonsai/src/services/localPluginPackager.ts:59-66 | `hasMainFile` holds iff some file's name ends with `.php`, in any case, and its parsed header has a non-empty plugin name. The recorded name and header are those of the last such file. With none, the name and header stay unset. |
| PluginPackager.CountersCountKinds | wp-plugin-bonsai/src/services/localPluginPackager.ts:58-74 | Each of the five counters is the number of files of its kind; an empty package counts nothing. |
| PluginPackager.CountersAddUp | wp-plugin-bonsai/src/services/localPluginPackager.ts:58-74 | Every file is counted exactly once. |
| PluginPackager.ReadmeAndUninstallFlags | wp-plugin-bonsai/src/services/localPluginPackager.ts:76-82 | `hasReadme` and `hasUninstall` hold iff some file is the readme or the uninstall script. |
| PluginPackager.MainFileIsLastNamedPhpFile | wp-plugin-bonsai/src/services/localPluginPackager.ts:60-65 | The main file is the last PHP file whose header names the plugin, and its header is that file's. With no such file there is no main file. |
| PluginPackager.MainFileFlag | wp-plugin-bonsai/src/services/localPluginPackager.ts:60-65 | `hasMainFile` holds iff some PHP file's header names the plugin. |
| PluginPackager.BoilerplateUninstall | wp-plugin-bonsai/src/services/localPluginPackager.ts:89-108 | The generated file is `uninstall.php` and its code starts with the PHP opening tag. |
| PluginPackager.UninstallFileCounted | wp-plugin-bonsai/src/services/localPluginPackager.ts:80-82 | A file named `uninstall.php` is counted as PHP and sets `hasUninstall`. |
| PluginPackager.BoilerplateIsTheUninstallFile | wp-plugin-bonsai/src/services/localPluginPackager.ts:89-108 | Added to a package, the boilerplate is counted as PHP and recognised as its uninstall script. |
| AiFailover.Find | wp-plugin-bonsai/src/services/aiService.ts:40-41 | `find` gives a model with the id, the first one, or nothing iff no model has it. |
| AiFailover.OtherEnabledInListOrder | wp-plugin-bonsai/src/services/aiService.ts:44-48 | The other models keep their list order. |
| AiFailover.OtherEnabledMembers | wp-plugin-bonsai/src/services/aiService.ts:44-48 | A model follows the chosen one iff it has another id and an enabled provider. |
| AiFailover.ModelQueueShape | wp-plugin-bonsai/src/services/aiService.ts:44-48 | The queue (`ModelQueue`) holds only models of enabled providers. It starts with the chosen model iff that model's provider is enabled, and the chosen id never appears again. |
| AiFailover.QueueEmptyIffNoneEnabled | wp-plugin-bonsai/src/services/aiService.ts:50-52 | The queue is empty iff no model has an enabled provider. |
| AiFailover.StepOnClassifies | wp-plugin-bonsai/src/services/aiService.ts:57-89 | A queued model is skipped iff it is not runnable. A call settles the run iff it succeeds or its error ends the run. Otherwise it fails over with a note. |
| AiFailover.CallsFollowTheQueue | wp-plugin-bonsai/src/services/aiService.ts:56-90 | The called models are a prefix of the runnable queued models, in queue order, with consecutive call numbers. A call that ends the run cuts the prefix short. |
| AiFailover.EarlierCallsFailedOver | wp-plugin-bonsai/src/services/aiService.ts:56-90 | Every call before the last one failed with an error that moves on. |
| AiFailover.RunCallsEveryRunnableModel | wp-plugin-bonsai/src/services/aiService.ts:56-90 | If no call ends the run, every runnable queued model is called once. |
| AiFailover.RunNotesEveryQueuedModel | wp-plugin-bonsai/src/services/aiService.ts:56-90 | If no call ends the run, every queued model leaves one failover message. |
| AiFailover.UnknownModelThrows | wp-plugin-bonsai/src/services/aiService.ts:40-41 | An unknown model id throws "Model with ID … not found." and calls nothing. |
| AiFailover.NoEnabledProviderThrows | wp-plugin-bonsai/src/services/aiService.ts:50-52 | With no enabled provider the run throws the "no providers" error and calls nothing. |
| AiFailover.StoppingCallEndsTheRun | wp-plugin-bonsai/src/services/aiService.ts:65-78 | A call that succeeds or fails with a run-ending error is the last call, and the run settles on it. |
| AiFailover.SuccessIsReturned | wp-plugin-bonsai/src/services/aiService.ts:65-66 | A successful call is the last call, and its value is returned. |
| AiFailover.ReturnedValueComesFromLastCall | wp-plugin-bonsai/src/services/aiService.ts:56-90 | A returned value is the last call's, and every earlier call failed over. |
| AiFailover.InvalidKeyIsRethrown | wp-plugin-bonsai/src/services/aiService.ts:72-74 | An invalid-key failure ends the run and its error is rethrown as is. `Classify` tests for an invalid key before the other messages. |
| AiFailover.NetworkErrorStops | wp-plugin-bonsai/src/services/aiService.ts:75-78 | A network failure ends the run with the connection error. |
| AiFailover.AllFailedThrowsLastError | wp-plugin-bonsai/src/services/aiService.ts:54-91 | If every call fails over, all runnable models were called and every queued model left a message. The last error is thrown, or the generic error when no call was made. |
| AiFailover.QueuedModelsAreRunnableWithRunner | wp-plugin-bonsai/src/services/aiService.ts:58-64 | No queued model is skipped as disabled; only a missing runner skips one. |
| AiFailover.BuildModelQueue | wp-plugin-bonsai/src/services/aiService.ts:44-48 | Builds the queue of the specification. |
| AiFailover.TryModel | wp-plugin-bonsai/src/services/aiService.ts:57-89 | One loop iteration is one step of the specification. |
| AiFailover.RunModelQueue | wp-plugin-bonsai/src/services/aiService.ts:54-91 | The loop settles, notes and calls as the run specification `RunFrom` does. |
| AiFailover.ExecuteWithFailover | wp-plugin-bonsai/src/services/aiService.ts:32-92 | The whole function settles, notes and calls as the failover specification `FailoverRun` does. |
| AiFailover.OpenAIOnlyQueue | wp-plugin-bonsai/config/models.ts:3-28 | With only OpenAI enabled and `gpt-4o` chosen, the queue is the two OpenAI models in list order. |
| AppWorkspace.Created | wp-plugin-bonsai/App.tsx:43-56 | A new workspace is in WordPress mode with Plugin 1 and Plugin 2, and its history holds that one list. |
| AppWorkspace.Record | wp-plugin-bonsai/App.tsx:113-118 | The new history keeps at most four lists. It ends with the new list, after the most recent states up to the current one. |
| AppWorkspace.Recorded | wp-plugin-bonsai/App.tsx:109-125 | Recording sets the plugins, points at the last history entry and keeps the history within bounds. |
| AppWorkspace.Undone | wp-plugin-bonsai/App.tsx:414-419 | Undo keeps the history. It changes nothing iff already at the oldest state. Otherwise the index moves back by one and the plugins become that history entry. |
| AppWorkspace.Redone | wp-plugin-bonsai/App.tsx:421-426 | Redo keeps the history. It changes nothing iff already at the newest state. Otherwise the index moves forward by one and the plugins become that history entry. |
| AppWorkspace.UndoAfterRecord | wp-plugin-bonsai/App.tsx:109-125 | Undo right after recording restores the plugin list shown before. |
| AppWorkspace.RecordClearsRedo | wp-plugin-bonsai/App.tsx:113 | After recording there is nothing to redo. |
| AppWorkspace.RecordKeepsRecentPast | wp-plugin-bonsai/App.tsx:113-118 | The states kept before the new one are the most recent states up to the current one. |
| AppWorkspace.RedoAfterUndo | wp-plugin-bonsai/App.tsx:414-426 | Redo after undo restores the state. |
| AppWorkspace.UndoAfterRedo | wp-plugin-bonsai/App.tsx:414-426 | Undo after redo restores the state. |
| AppWorkspace.Reset | wp-plugin-bonsai/App.tsx:189 | A reset holds the given plugins with a one-entry history. |
| AppWorkspace.RenameIn | wp-plugin-bonsai/App.tsx:182 | Only the plugins with the id are renamed; everything else is kept. |
| AppWorkspace.Renamed | wp-plugin-bonsai/App.tsx:180-184 | Renaming does not touch the history. |
| AppWorkspace.Added | wp-plugin-bonsai/App.tsx:186-191 | With ten plugins nothing changes. Otherwise one plugin named after the new count is appended and the history restarts. |
| AppWorkspace.AddKeepsAtMostTen | wp-plugin-bonsai/App.tsx:187 | Adding never goes past ten plugins and keeps the existing ones first. |
| AppWorkspace.WithoutMembers | wp-plugin-bonsai/App.tsx:195 | The filter `Without` keeps exactly the plugins with another id. |
| AppWorkspace.WithoutAppend | wp-plugin-bonsai/App.tsx:195 | Filtering a concatenation filters each part, in order. |
| AppWorkspace.WithoutKeepsOrder | wp-plugin-bonsai/App.tsx:195 | Each plugin is kept or dropped in its place: the survivors keep their order and every copy with another id stays. |
| AppWorkspace.WithoutAbsentId | wp-plugin-bonsai/App.tsx:195 | Removing an absent id changes nothing. |
| AppWorkspace.WithoutDropsAtMostOne | wp-plugin-bonsai/App.tsx:195 | With distinct ids, removal drops at most one plugin. |
| AppWorkspace.Removed | wp-plugin-bonsai/App.tsx:193-198 | With two plugins or fewer nothing changes. Otherwise the list becomes the filter `Without`, holding exactly the plugins with another id, and the history restarts. |
| AppWorkspace.RemoveKeepsTwo | wp-plugin-bonsai/App.tsx:193-198 | With distinct ids, removal never leaves fewer than two plugins. |
| AppWorkspace.WithZip | wp-plugin-bonsai/App.tsx:216-218 | Only the target plugin takes the extracted files and the zip name. Ids and names are kept. |
| AppWorkspace.ZipLoaded | wp-plugin-bonsai/App.tsx:216-219 | Loading a zip updates the plugins and restarts the history. |
| AppWorkspace.ModeChanged | wp-plugin-bonsai/App.tsx:153-165 | A mode change sets the mode and restarts the history at the new plugin list. |
| AppWorkspace.ModeChangeShape | wp-plugin-bonsai/App.tsx:156-162 | File-editor mode holds only the editor plugin, WordPress mode a non-editor first plugin, packager mode none. The other modes keep the list. |
| AppWorkspace.DownloadNameShape | wp-plugin-bonsai/App.tsx:351-353 | The default name `DownloadName` ends in `-modified.zip`, after the original name less one trailing `.zip`. |
| AppWorkspace.DownloadNameFromPluginName | wp-plugin-bonsai/App.tsx:351-353 | Without a zip name, or with an empty one, the default is the plugin name plus `-modified.zip`. |
| AppWorkspace.Workspace.constructor | wp-plugin-bonsai/App.tsx:43-56 | A new workspace object holds the created state. |
| AppWorkspace.Workspace.UpdatePluginsWithHistory | wp-plugin-bonsai/App.tsx:109-125 | The fields become the recorded state, and the history stays within bounds. |
| AppWorkspace.Workspace.Undo | wp-plugin-bonsai/App.tsx:414-419 | The fields become the undone state. |
| AppWorkspace.Workspace.Redo | wp-plugin-bonsai/App.tsx:421-426 | The fields become the redone state. |
| AppWorkspace.Workspace.ResetTo | wp-plugin-bonsai/App.tsx:189 | The fields take the given plugins with a fresh one-entry history. |
| AppWorkspace.Workspace.RenamePlugin | wp-plugin-bonsai/App.tsx:180-184 | The fields become the renamed state. |
| AppWorkspace.Workspace.AddPlugin | wp-plugin-bonsai/App.tsx:186-191 | The fields become the state after adding. |
| AppWorkspace.Workspace.RemovePlugin | wp-plugin-bonsai/App.tsx:193-198 | The fields become the state after removal. |
| AppWorkspace.Workspace.LoadZip | wp-plugin-bonsai/App.tsx:216-219 | The fields become the state after the zip is loaded. |
| AppWorkspace.Workspace.ChangeMode | wp-plugin-bonsai/App.tsx:153-165 | The fields become the state after the mode change. |

## Left out

- Text.ToLower: lower-cases ASCII letters only. JavaScript lower-cases all of Unicode. The core compares the result mostly with ASCII literals. The differences show where JavaScript lower-cases the KELVIN SIGN (U+212A) to `k` and a message test holds a `k`. A runner error reading "API \u212AEY IS INVALID" is rethrown by `aiService.ts` (lines 72-74), but the model fails over on it. A runner error reading "NETWOR\u212A ERROR" makes `aiService.ts` throw the connection error and stop (lines 75-78), but the model fails over on it too. The file-name tests and the rate-limit test hold no `k`.
- Strings are sequences of Dafny characters, not UTF-16 code units.
- Line numbers, counters and indices are modelled as unbounded integers. JavaScript numbers are doubles, and fractional, NaN, infinite and unsafe-integer line numbers are not modelled. In `localCodePatcher.ts` (lines 10-31) such a line number can pass the range guards, `splice` then truncates it (NaN acts as 0), and the sort comparator treats NaN as equal to everything.
- Rendering, React state plumbing, JSX, storage, `console.error` logging and `window.prompt` are not modelled.
- Workspace list handling is left out: several workspaces, lookup by id, and the `id`, `name`, `createdAt`, `selectedModelId` and `reviewIssues` fields. The model is the active workspace's mode, plugins and history.
- Random ids (`Date.now`, `Math.random`) are parameters.
- CodePatcher.ApplyPatch: a `null` or `undefined` instruction list is not modelled, because a Dafny sequence is always present. The empty list is modelled.
- JSZip extraction and the zip download are left out. The extracted files enter as a parameter.
- AppWorkspace.DownloadName: does not model the early return of `handleDownloadPlugin` for a missing plugin or a plugin without files, because that return depends on the workspace lookup.
- The PHP parser (`php-parser`) is a foreign library. It enters as the function `parse`, and its syntax tree as a JSON-like value.
- Model runners, API clients and prompts are foreign code. `executeWithFailover` sees them only through `respond` and the set of providers with a runner.
- Asynchronous calls are a sequential loop. Thrown values are `Error`s whose message may be missing; other thrown values (strings, `undefined`) are not modelled.
- The analyser's regular expressions are written out as matchers, not as a general regular-expression engine.
- `src/config/models.ts` is not part of this model; the model list of `config/models.ts` is used.
- The older service's own `data/wordpress` list is not part of this model; the list of `src/data/wordpress.ts` is used by both copies.
- The `splice` calls of `CodePatcher.ApplyPatch` (`localCodePatcher.ts` lines 15-31) and the analysers' `push` onto arrays are sequence reassignments, so in-place aliasing is not modelled.
- DeprecatedCalls.WalkFindsTheDeprecatedCalls: states which names are reported, not how often. Equal subtrees at different places are the same value here, so one reported name per reached call is not stated.
- Other parts of the app are outside this model: `handleApplyAllSafeFixes` and the other App handlers not listed above, the exported aiService wrappers, prompts, and the review and build flows.
