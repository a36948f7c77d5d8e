/** The fixed form: nine pages of four text areas each, their titles and
    helper lines, and the position label under each page
    (`PageIndex`, its `Display` and the `pages` array in src/main.rs). */
module Schema {

  const PageCount: nat := 9
  const FieldsPerPage: nat := 4

  /** Ordinal of a page, `Page0` .. `Page8`. */
  type PageIndex = p: nat | p < PageCount

  /** Ordinal of a text area within its page. */
  type Slot = a: nat | a < FieldsPerPage

  /** Title drawn at the top of each page. */
  const MainTitles: seq<string> := ["Problematic", "Resolution", "Security", "Tests",
    "Requirements", "Database", "Communication", "Ideas", "Next"]

  /** Title of each text area, page by page. */
  const FieldTitles: seq<seq<string>> := [
    ["Title", "Description", "Steps to reproduce", "Expectation"],
    ["Before", "After", "Results", "Samples"],
    ["Vulnerability", "Quality", "Conformity", "Risk"],
    ["Added", "Updated", "Deleted", "Platforms"],
    ["Breaking changes", "New needed dependencies", "New packages needed", "Rollback"],
    ["Up", "Down", "Changes", "Why"],
    ["Authors", "Testers", "Comments", "Notes"],
    ["News headline", "Workflow samples", "Examples", "Technical considerations"],
    ["To Implement", "Motivation", "Implementation Plan", "Related links"]]

  /** The page names the position labels mention, in page order, with
      `/dev/null` standing before the first page and after the last. */
  const LabelNames: seq<string> := ["/dev/null", "Problematics", "Resolution", "Security",
    "Tests", "Requirements", "Database", "Communication", "Ideas", "Next", "/dev/null"]

  /** A label naming the previous page, the one-based position out of
      nine, and the next page. */
  function Label(before: string, p: PageIndex, after: string): string
  {
    " " + before + " <== page " + ["123456789"[p]] + "/9 ==> " + after + " "
  }

  /** The label drawn under page `p`: every label of the source has the
      shape " <previous> <== page <p+1>/9 ==> <next> ". */
  function PageLabel(p: PageIndex): string
  {
    Label(LabelNames[p], p, LabelNames[p + 2])
  }

  /** Title of the page before `p`, or `/dev/null` on the first page. */
  function Before(p: PageIndex): string
  {
    if p == 0 then "/dev/null" else MainTitles[p - 1]
  }

  /** Title of the page after `p`, or `/dev/null` on the last page. */
  function After(p: PageIndex): string
  {
    if p == PageCount - 1 then "/dev/null" else MainTitles[p + 1]
  }

  /** Each label names the previous page, the one-based position out of
      nine, and the next page, with `/dev/null` past either end; the one
      exception is the second page, whose label calls the first page
      "Problematics" where that page's title is "Problematic". */
  lemma LabelNamesNeighbours(p: PageIndex)
    ensures p != 1 ==> PageLabel(p) == Label(Before(p), p, After(p))
    ensures p == 1 ==> PageLabel(p) == Label(Before(p) + "s", p, After(p))
  {
  }
}
