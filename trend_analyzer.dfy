/**
 * The AI trend analyzer panel (src/components/dashboard/trend-analyzer.tsx):
 * it reduces each ticket to four fields, hands them to the report
 * generator and shows either the report or an error.
 *
 * The generator (`generateTicketTrends`, a call to an external model) is
 * the function parameter `generate`; its failure, whatever the cause, is
 * the `Failed` response. The JSON text of the payload is not modelled: the
 * payload is the sequence of projected records.
 */
module TrendAnalyzer {
  import opened TicketTypes
  import opened Optional
  import Actions

  /** The four fields of a ticket the generator sees. */
  datatype TicketSummary = TicketSummary(category: string, description: string, createdAt: Timestamp, priority: Priority)

  /** `{ trendReport, actionItems? }`, the generator's output. */
  datatype TrendReport = TrendReport(trendReport: string, actionItems: Option<string>)

  /** How the awaited call ends: a report, or a thrown error. */
  datatype Response = Generated(report: TrendReport) | Failed

  const FailureMessage: string := "Failed to generate trend report. Please try again."

  function Summarize(t: Ticket): TicketSummary
  {
    TicketSummary(t.category, t.description, t.createdAt, t.priority)
  }

  /** `tickets.map(t => ({ category, description, created_at, priority }))`. */
  function Project(tickets: seq<Ticket>): seq<TicketSummary>
  {
    seq(|tickets|, i requires 0 <= i < |tickets| => Summarize(tickets[i]))
  }

  /** One summary per ticket, in ticket order, each holding exactly that
      ticket's category, description, creation time and priority. */
  lemma ProjectShape(tickets: seq<Ticket>)
    ensures |Project(tickets)| == |tickets|
    ensures forall i :: 0 <= i < |tickets| ==>
      Project(tickets)[i].category == tickets[i].category &&
      Project(tickets)[i].description == tickets[i].description &&
      Project(tickets)[i].createdAt == tickets[i].createdAt &&
      Project(tickets)[i].priority == tickets[i].priority
  {
  }

  /** Identity, employee, status and update time never reach the generator:
      tickets that differ only there give the same payload. */
  lemma ProjectIgnoresOtherFields(a: seq<Ticket>, b: seq<Ticket>)
    requires |a| == |b|
    requires forall i :: 0 <= i < |a| ==>
      a[i].category == b[i].category && a[i].description == b[i].description &&
      a[i].createdAt == b[i].createdAt && a[i].priority == b[i].priority
    ensures Project(a) == Project(b)
  {
  }

  /** A status change in the store never changes what the generator is sent. */
  lemma ProjectIgnoresStatusUpdates(tickets: seq<Ticket>, id: string, status: Status, now: Timestamp)
    ensures Project(Actions.ApplyStatus(tickets, id, status, now)) == Project(tickets)
  {
    ProjectIgnoresOtherFields(Actions.ApplyStatus(tickets, id, status, now), tickets);
  }

  /** What the panel holds: the transition's pending flag, the report and the error. */
  datatype Panel = Panel(isPending: bool, report: Option<TrendReport>, error: Option<string>)

  predicate ShowsSpinner(p: Panel) { p.isPending }

  /** `{error && ...}`: a non-empty error string is shown. */
  predicate ShowsError(p: Panel) { p.error.Some? && p.error.value != "" }

  predicate ShowsReport(p: Panel) { p.report.Some? }

  /** `{report.actionItems && ...}`: only a present, non-empty string is shown. */
  predicate ShowsActionItems(p: Panel)
  {
    p.report.Some? && p.report.value.actionItems.Some? && p.report.value.actionItems.value != ""
  }

  /** `{!isPending && !report && !error && ...}`: the "Click Analyze" prompt. */
  predicate ShowsIdlePrompt(p: Panel)
  {
    !p.isPending && p.report.None? && (p.error.None? || p.error.value == "")
  }

  /** The panel once an analysis has finished with `response`. */
  function Settled(response: Response): Panel
  {
    match response
    case Generated(r) => Panel(false, Some(r), None)
    case Failed => Panel(false, None, Some(FailureMessage))
  }

  /** A finished analysis shows exactly one of report and error and never
      the idle prompt; action items appear only when the report has a
      non-empty list of them. */
  lemma SettledView(response: Response)
    ensures !ShowsIdlePrompt(Settled(response)) && !ShowsSpinner(Settled(response))
    ensures ShowsReport(Settled(response)) <==> response.Generated?
    ensures ShowsError(Settled(response)) <==> response.Failed?
    ensures ShowsActionItems(Settled(response)) <==>
      response.Generated? && response.report.actionItems.Some? && response.report.actionItems.value != ""
  {
  }

  class TrendAnalyzerView {
    var isPending: bool
    var report: Option<TrendReport>
    var error: Option<string>

    /** A fresh panel: not pending, no report, no error. */
    constructor()
      ensures isPending == false && report == None && error == None
      ensures ShowsIdlePrompt(State())
    {
      isPending := false;
      report := None;
      error := None;
    }

    function State(): Panel
      reads this
    {
      Panel(isPending, report, error)
    }

    /** The synchronous part of `handleAnalyze`: both results are cleared
        and the transition starts. */
    method BeginAnalysis()
      modifies this
      ensures report == None && error == None && isPending
    {
      report := None;
      error := None;
      isPending := true;
    }

    /** The end of the transition: the report is stored, or the fixed
        error message is. */
    method FinishAnalysis(response: Response)
      modifies this
      ensures !isPending
      ensures report == if response.Generated? then Some(response.report) else old(report)
      ensures error == if response.Failed? then Some(FailureMessage) else old(error)
    {
      match response {
        case Generated(r) =>
          report := Some(r);
        case Failed =>
          error := Some(FailureMessage);
      }
      isPending := false;
    }

    /** `handleAnalyze`: clear, project the tickets, call the generator, settle. */
    method HandleAnalyze(tickets: seq<Ticket>, generate: seq<TicketSummary> -> Response)
      modifies this
      ensures State() == Settled(generate(Project(tickets)))
    {
      BeginAnalysis();
      var payload := Project(tickets);
      var response := generate(payload);
      FinishAnalysis(response);
    }
  }
}
