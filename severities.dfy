/** The severity map: winston's level names translated to Cloud Logging
    `LogSeverity` values. */
module Severities {

  /** The Cloud Logging severities the transport sends, by their wire names
      DEFAULT, DEBUG, INFO, NOTICE, WARNING and ERROR. */
  datatype Severity = Default | Debug | Info | Notice | Warning | Error

  /** winston's default (npm) levels, the ones the table knows. */
  const NpmLevels: set<string> := {"error", "warn", "info", "verbose", "debug", "silly"}

  /** The transport's fixed level table. */
  const SeverityMap: map<string, Severity> :=
    map[
      "silly" := Debug,
      "debug" := Debug,
      "verbose" := Notice,
      "info" := Info,
      "warn" := Warning,
      "error" := Error
    ]

  /** The severity an entry of the given level is sent with: the table's
      value, or DEFAULT for a level the table does not know, so the lookup
      never fails. */
  function SeverityOf(level: string): (s: Severity)
    ensures s == Default <==> level !in NpmLevels
  {
    if level in SeverityMap then SeverityMap[level] else Default
  }

  /** Each npm level has its fixed severity. */
  lemma SeverityOfNpmLevels()
    ensures SeverityOf("silly") == Debug && SeverityOf("debug") == Debug
    ensures SeverityOf("verbose") == Notice
    ensures SeverityOf("info") == Info
    ensures SeverityOf("warn") == Warning
    ensures SeverityOf("error") == Error
  {
  }

  /** Only DEBUG is shared: the other five known levels each have a severity
      of their own. */
  lemma SeverityDistinguishesLevels(a: string, b: string)
    requires a in NpmLevels && b in NpmLevels
    requires SeverityOf(a) == SeverityOf(b)
    ensures a == b || {a, b} == {"silly", "debug"}
  {
  }
}
