/**
 * The post-processing block of streamlit_app.py (lines 159-222) as one
 * step from the crew's raw output to what the page shows: which outcome
 * the parse reached, whether the briefing is rendered, its on-screen
 * summary and links, and the download (text and file name).
 */
module Presentation {
  import opened Wrappers
  import opened JsonValue
  import opened OutputParser
  import opened Briefing

  datatype Download = Download(data: string, fileName: string)

  /** The rendered briefing. `download` is None when a source loop raised first. */
  datatype Report = Report(summary: Json, links: seq<string>, noSourcesNotice: bool, download: Option<Download>)

  /** `crashed` is the generic error message of the outer handler, reached when
      rendering the briefing raised. */
  datatype Page = Page(outcome: Outcome, report: Option<Report>, crashed: bool)

  method PostProcess(raw: RawOutput, topic: string, decode: Decoder, show: Formatter) returns (page: Page)
    ensures page.outcome == Classify(raw, decode)
    ensures page.report.Some? <==> ShowsReport(page.outcome) && page.outcome.value.JObject?
    ensures page.crashed <==>
              ShowsReport(page.outcome)
              && !(page.outcome.value.JObject? && Walkable(SourcesOf(page.outcome.value.members)))
    ensures page.report.Some? ==>
              var result := page.outcome.value.members;
              var sources := SourcesOf(result);
              var r := page.report.value;
              && r.summary == GetOr(result, "final_summary", JString("No summary was generated."))
              && r.noSourcesNotice == !Truthy(sources)
              && r.links == (if Truthy(sources) && sources.JArray? then LinkLines(sources.items, show) else [])
              && (r.download.Some? <==> Walkable(sources))
              && (r.download.Some? ==> r.download.value == Download(Markdown(topic, result, show), FileName(topic)))
  {
    var outcome := Classify(raw, decode);
    page := Page(outcome, None, false);
    var data := ResultData(outcome);
    if data.None? || !Truthy(data.value) {
      return;
    }
    if !data.value.JObject? {
      // `result_data.get` raises on a value that is not a dict
      page := page.(crashed := true);
      return;
    }
    var result := data.value.members;
    var summary := GetOr(result, "final_summary", JString("No summary was generated."));
    var sources := SourcesOf(result);
    var links, notice, crashed := RenderSourceLinks(sources, show);
    if crashed {
      page := Page(outcome, Some(Report(summary, links, notice, None)), true);
      return;
    }
    var md := BuildMarkdown(topic, result, show);
    var download := Download(md, FileName(topic));
    page := Page(outcome, Some(Report(summary, links, notice, Some(download))), false);
  }
}
