/** The `ChartPayloadError` cases raised by the core, and the text each one carries. */
module ChartErrors {
  import opened Text

  datatype PayloadError =
    | EmptyPath
    | UnmatchedBracket(path: string)
    | NonNumericIndex(path: string)
    | NotEditable(pattern: string, chartType: string)
    | ExpectedList(index: nat)
    | ExpectedMapping(field: string)
    | NotChartOptions

  /** `str(exc)` for each error. */
  function Message(e: PayloadError): string {
    match e
    case EmptyPath => "Update paths cannot be empty."
    case UnmatchedBracket(path) => "Unmatched '[' in path " + path + "."
    case NonNumericIndex(path) => "List index must be numeric in path " + path + "."
    case NotEditable(pattern, chartType) =>
      "Path '" + pattern + "' is not editable for chart type '" + chartType + "'."
    case ExpectedList(index) => "Expected list while updating path segment " + NatToString(index) + "."
    case ExpectedMapping(field) => "Expected mapping while updating path segment '" + field + "'."
    case NotChartOptions => "Chart payloads must contain a dict of Highcharts options."
  }
}
