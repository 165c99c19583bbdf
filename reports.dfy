/** The Template Method pattern: a report generator runs a fixed skeleton of
    steps, each printed by the report format's own override, and finishes
    with either saving or sending the report, as the format's save decision
    says.

    Each printed line is abstracted to a `Step`. The HTML format asks the
    customer; its answer is a parameter here (the line read from the
    console, already lower-cased). */
module Reports {

  datatype Format = Pdf | Excel | Html

  /** Which message the save step prints: the base class's, or the Excel
      format's own override. */
  datatype SaveMessage = GenericSave | ExcelSave

  datatype Step =
    | GatherData(format: Format)
    | FormatData(format: Format)
    | CreateHeader(format: Format)
    | CreateContent(format: Format)
    | SavePrompt
    | SaveReport(message: SaveMessage)
    | SendReport

  /** `CustomerWantsSave()`: true by default; the HTML format prompts and
      says yes exactly when the answer is "да". */
  function CustomerWantsSave(format: Format, answer: string): (wants: bool)
    ensures format != Html ==> wants
    ensures format == Html ==> (wants <==> answer == "да")
  {
    if format == Html then answer == "да" else true
  }

  /** What `CustomerWantsSave()` prints: only the HTML format's prompt. */
  function DecisionSteps(format: Format): seq<Step> {
    if format == Html then [SavePrompt] else []
  }

  /** `SaveReport()`: the Excel format overrides the base class's message. */
  function SaveStep(format: Format): (s: Step)
    ensures s.SaveReport?
    ensures s.message == ExcelSave <==> format == Excel
  {
    if format == Excel then SaveReport(ExcelSave) else SaveReport(GenericSave)
  }

  predicate IsFinalStep(s: Step) {
    s.SaveReport? || s.SendReport?
  }

  /** `GenerateReport()`. Every format runs gather, format, header and
      content first, in that order and for that format; the report ends in
      exactly one final step, a save exactly when the customer wants one;
      and only the save prompt may stand between the two. */
  function GenerateReport(format: Format, answer: string): (r: seq<Step>)
    ensures |r| >= 5
    ensures r[..4] == [GatherData(format), FormatData(format), CreateHeader(format), CreateContent(format)]
    ensures r[|r| - 1].SaveReport? == CustomerWantsSave(format, answer)
    ensures r[|r| - 1].SendReport? == !CustomerWantsSave(format, answer)
    ensures forall i :: 0 <= i < |r| - 1 ==> !IsFinalStep(r[i])
    ensures forall i :: 4 <= i < |r| - 1 ==> r[i] == SavePrompt
  {
    [GatherData(format), FormatData(format), CreateHeader(format), CreateContent(format)]
    + DecisionSteps(format)
    + (if CustomerWantsSave(format, answer) then [SaveStep(format)] else [SendReport])
  }

  /** Formats that keep the default decision always save, and never prompt. */
  lemma DefaultFormatsAlwaysSave(format: Format, answer: string)
    requires format != Html
    ensures GenerateReport(format, answer) ==
      [GatherData(format), FormatData(format), CreateHeader(format), CreateContent(format), SaveStep(format)]
  {
  }

  /** The HTML report prompts, then saves on "да" and sends on anything else. */
  lemma HtmlReportFollowsAnswer(answer: string)
    ensures GenerateReport(Html, answer)[4] == SavePrompt
    ensures GenerateReport(Html, answer)[5] == if answer == "да" then SaveReport(GenericSave) else SendReport
  {
  }
}
