/** The records the core passes around (`src/types.ts`). */
module Types {
  import opened Wrappers

  datatype IssueCategory = Security | Performance | BestPractices | Interoperability | CodeQuality
  datatype IssueSeverity = Critical | Warning | Info
  datatype IssueSource = LocalScanner | AiAnalysis

  /** A review finding (`ReviewIssue`); the optional `id` is assigned by the caller and is not modelled. */
  datatype ReviewIssue = ReviewIssue(
    pluginName: string,
    fileName: string,
    category: IssueCategory,
    severity: IssueSeverity,
    description: string,
    impact: string,
    suggestion: string,
    source: IssueSource)

  datatype PluginFile = PluginFile(id: string, name: string, code: string, modified: bool)

  datatype Plugin = Plugin(id: string, name: string, zipName: Option<string>, files: seq<PluginFile>)
}
