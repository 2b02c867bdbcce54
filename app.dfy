/**
 * The run coordinator of app.py: the input gate, the session fields that
 * survive between reruns of the page, the extraction of the three agent
 * responses from the crew's result, the error path, and the decision to
 * offer results and exports. The crew itself is a parameter: a function from
 * the three tasks to either a result or a raised exception.
 */
module App {
  import opened Common
  import opened PyValues
  import opened Dates
  import opened TravelAgents
  import opened TravelTasks
  import opened FStrings
  import opened AppExports

  /** The five inputs of the form; a cleared date picker gives no date. */
  datatype Form = Form(
    fromCity: string, destinationCity: string, dateFrom: Option<Date>, dateTo: Option<Date>, interests: string)

  const FieldsMissingMessage := "⚠️ Please fill in all fields before generating your travel plan."
  const ErrorPrefix := "❌ Error during execution: "
  const LogErrorPrefix := "ERROR: "
  const IncludedInFinalPlan := "Included in final plan"

  /** The gate before a run: every field must be truthy. */
  function FormComplete(form: Form): (ok: bool)
    ensures ok <==> form.fromCity != "" && form.destinationCity != "" && form.interests != ""
                    && form.dateFrom.Some? && form.dateTo.Some?
  {
    Truthy(PyStr(form.fromCity)) && Truthy(PyStr(form.destinationCity))
    && form.dateFrom.Some? && form.dateTo.Some? && Truthy(PyStr(form.interests))
  }

  /** The request a complete form stands for. */
  function ToRequest(form: Form): TripRequest
    requires FormComplete(form)
  {
    TripRequest(form.fromCity, form.destinationCity, form.dateFrom.value, form.dateTo.value, form.interests)
  }

  /**
   * The three tasks handed to the crew: location, then guide, then the
   * planner, whose context is the first two in that order.
   */
  function BuildTasks(req: TripRequest): (ts: seq<Task>)
    ensures |ts| == 3
    ensures ts[0].agent == LocationExpert && ts[1].agent == GuideExpert && ts[2].agent == PlannerExpert
    ensures ts[0].context == None && ts[1].context == None
    ensures ts[2].context == Some([ts[0], ts[1]])
  {
    var loc := LocationTask(LocationExpert, req.fromCity, req.destinationCity, req.dateFrom, req.dateTo);
    var guide := GuideTask(GuideExpert, req.destinationCity, req.interests, req.dateFrom, req.dateTo);
    var plan := PlannerTask([loc, guide], PlannerExpert, req.destinationCity, req.interests, req.dateFrom, req.dateTo);
    [loc, guide, plan]
  }

  /**
   * The first two tasks of a run are built from the trip's own fields: the
   * location task names the origin, then the destination, then the departure
   * and return dates; the guide task names the destination, the interests and
   * the dates in order.
   */
  lemma TasksOfRun(req: TripRequest)
    ensures var ts := BuildTasks(req);
            && ts[0] == LocationTask(LocationExpert, req.fromCity, req.destinationCity, req.dateFrom, req.dateTo)
            && ts[1] == GuideTask(GuideExpert, req.destinationCity, req.interests, req.dateFrom, req.dateTo)
            && IsInfix(req.fromCity + " to " + req.destinationCity, ts[0].description)
            && IsInfix(IsoFormat(req.dateFrom) + " and " + IsoFormat(req.dateTo), ts[0].description)
            && IsInfix(req.destinationCity, ts[1].description)
            && IsInfix(req.interests, ts[1].description)
            && IsInfix(IsoFormat(req.dateFrom) + " to " + IsoFormat(req.dateTo), ts[1].description)
  {
    LocationTaskContents(LocationExpert, req.fromCity, req.destinationCity, req.dateFrom, req.dateTo);
    GuideTaskContents(GuideExpert, req.destinationCity, req.interests, req.dateFrom, req.dateTo);
  }

  /** The planner task of a run is the one built for the trip's own dates. */
  lemma PlannerTaskOfRun(req: TripRequest)
    ensures var ts := BuildTasks(req);
            ts[2] == PlannerTask(ts[..2], PlannerExpert, req.destinationCity, req.interests, req.dateFrom, req.dateTo)
  {
    var ts := BuildTasks(req);
    assert ts[..2] == [ts[0], ts[1]];
  }

  /** One entry of the crew's `tasks_output`: its `raw` attribute when it has one, and its `str`. */
  datatype TaskOutput = TaskOutput(raw: Option<PyVal>, text: string)

  /** The crew's result: its `tasks_output` list when it has one, its `raw` attribute when it has one, and its `str`. */
  datatype CrewOutput = CrewOutput(tasksOutput: Option<seq<TaskOutput>>, raw: Option<PyVal>, text: string)

  /** What the crew call does: return a result or raise with a message. */
  datatype Kickoff = Raised(message: string) | Returned(output: CrewOutput)

  /** `str(out.raw if hasattr(out, 'raw') else out)`. */
  function OutputText(out: TaskOutput): (r: PyVal)
    ensures r.PyStr?
    ensures out.raw.Some? && out.raw.value.PyStr? ==> r == out.raw.value
    ensures out.raw.Some? ==> r.s == Str(out.raw.value)
    ensures out.raw.Some? && !out.raw.value.PyStr? ==> Truthy(r)
    ensures out.raw.None? ==> r == PyStr(out.text)
  {
    if out.raw.Some? then PyStr(Str(out.raw.value)) else PyStr(out.text)
  }

  /** `result.raw if hasattr(result, 'raw') else str(result)`: not passed through `str`. */
  function FinalOutput(result: CrewOutput): PyVal {
    if result.raw.Some? then result.raw.value else PyStr(result.text)
  }

  /** `hasattr(result, 'tasks_output') and result.tasks_output`. */
  predicate HasTaskOutputs(result: CrewOutput) {
    result.tasksOutput.Some? && |result.tasksOutput.value| > 0
  }

  datatype Responses = Responses(location: PyVal, guide: PyVal, planner: PyVal)

  /**
   * The extraction policy: three or more task outputs give one response
   * each, in order; one or two give the final output to all three; none give
   * the final output to the planner and the fallback text to the other two.
   */
  function ExtractResponses(result: CrewOutput): (r: Responses)
    ensures HasTaskOutputs(result) && |result.tasksOutput.value| >= 3 ==>
              var outs := result.tasksOutput.value;
              && r.location == OutputText(outs[0])
              && r.guide == OutputText(outs[1])
              && r.planner == OutputText(outs[2])
    ensures HasTaskOutputs(result) && |result.tasksOutput.value| < 3 ==>
              r.location == r.guide == r.planner == FinalOutput(result)
    ensures !HasTaskOutputs(result) ==>
              && r.planner == FinalOutput(result)
              && r.location == r.guide == PyStr(IncludedInFinalPlan)
  {
    if HasTaskOutputs(result) then
      var outs := result.tasksOutput.value;
      if |outs| >= 3 then Responses(OutputText(outs[0]), OutputText(outs[1]), OutputText(outs[2]))
      else var final := FinalOutput(result); Responses(final, final, final)
    else Responses(PyStr(IncludedInFinalPlan), PyStr(IncludedInFinalPlan), FinalOutput(result))
  }

  /**
   * Whether a successful run shows results: with three or more task outputs,
   * exactly when the third output's text is non-empty; otherwise exactly
   * when the final output is truthy.
   */
  lemma PlanShownAfterSuccess(result: CrewOutput)
    ensures var planner := ExtractResponses(result).planner;
            && (HasTaskOutputs(result) && |result.tasksOutput.value| >= 3 ==>
                  (Truthy(planner) <==> OutputText(result.tasksOutput.value[2]).s != ""))
            && (!(HasTaskOutputs(result) && |result.tasksOutput.value| >= 3) ==>
                  (Truthy(planner) <==> Truthy(FinalOutput(result))))
  {
  }

  /**
   * With three or more task outputs, the report's itinerary section is the
   * text of the third output, whatever the first two hold.
   */
  lemma ReportShowsThirdOutput(req: TripRequest, result: CrewOutput, generatedAt: string)
    requires HasTaskOutputs(result) && |result.tasksOutput.value| >= 3
    ensures var r := ExtractResponses(result);
            IsInfix(ItineraryHeading + OutputText(result.tasksOutput.value[2]).s + SectionBreak,
                    CombinedReport(req, r.location, r.guide, r.planner, generatedAt))
  {
    var r := ExtractResponses(result);
    ReportItinerarySection(req, r.location, r.guide, r.planner, generatedAt);
  }

  /** The two downloads offered with the results. */
  datatype Exports = Exports(report: string, csv: string)

  /** What one rerun of the page shows. */
  datatype Page =
    | Idle
    | FieldsMissing(message: string)
    | Ran(tasks: seq<Task>, error: Option<string>, results: Option<Exports>)

  /** A session field before and after its first initialisation. */
  datatype Slot<T> = Absent | Present(value: T)

  /** Streamlit's session state: the fields that outlive one rerun of the script. */
  class Session {
    var locationResponse: Slot<PyVal>
    var guideResponse: Slot<PyVal>
    var plannerResponse: Slot<PyVal>
    var executionLog: Slot<seq<string>>

    /** Every field has been given a value. */
    predicate Initialized()
      reads this
    {
      locationResponse.Present? && guideResponse.Present? && plannerResponse.Present? && executionLog.Present?
    }

    /** A new browser session holds none of the fields. */
    constructor ()
      ensures locationResponse == Absent && guideResponse == Absent && plannerResponse == Absent
      ensures executionLog == Absent
    {
      locationResponse := Absent;
      guideResponse := Absent;
      plannerResponse := Absent;
      executionLog := Absent;
    }

    /** The defaults set on every rerun, each only when its field is absent. */
    method InitializeDefaults()
      modifies this
      ensures Initialized()
      ensures old(locationResponse).Present? ==> locationResponse == old(locationResponse)
      ensures old(guideResponse).Present? ==> guideResponse == old(guideResponse)
      ensures old(plannerResponse).Present? ==> plannerResponse == old(plannerResponse)
      ensures old(executionLog).Present? ==> executionLog == old(executionLog)
      ensures old(locationResponse).Absent? ==> locationResponse == Present(PyNone)
      ensures old(guideResponse).Absent? ==> guideResponse == Present(PyNone)
      ensures old(plannerResponse).Absent? ==> plannerResponse == Present(PyNone)
      ensures old(executionLog).Absent? ==> executionLog == Present([])
    {
      if locationResponse.Absent? {
        locationResponse := Present(PyNone);
      }
      if guideResponse.Absent? {
        guideResponse := Present(PyNone);
      }
      if plannerResponse.Absent? {
        plannerResponse := Present(PyNone);
      }
      if executionLog.Absent? {
        executionLog := Present([]);
      }
    }

    /** Adds one entry at the end of the execution log. */
    method AppendLog(entry: string)
      requires executionLog.Present?
      modifies this
      ensures executionLog == Present(old(executionLog.value) + [entry])
      ensures locationResponse == old(locationResponse) && guideResponse == old(guideResponse)
      ensures plannerResponse == old(plannerResponse)
    {
      executionLog := Present(executionLog.value + [entry]);
    }

    /** Stores the responses of a successful run, branch by branch as the page does. */
    method StoreResponses(result: CrewOutput)
      modifies this
      ensures var r := ExtractResponses(result);
              && locationResponse == Present(r.location)
              && guideResponse == Present(r.guide)
              && plannerResponse == Present(r.planner)
      ensures executionLog == old(executionLog)
    {
      if HasTaskOutputs(result) {
        var outs := result.tasksOutput.value;
        if |outs| >= 3 {
          locationResponse := Present(OutputText(outs[0]));
          guideResponse := Present(OutputText(outs[1]));
          plannerResponse := Present(OutputText(outs[2]));
        } else {
          var final := FinalOutput(result);
          locationResponse := Present(final);
          guideResponse := Present(final);
          plannerResponse := Present(final);
        }
      } else {
        var final := FinalOutput(result);
        plannerResponse := Present(final);
        locationResponse := Present(PyStr(IncludedInFinalPlan));
        guideResponse := Present(PyStr(IncludedInFinalPlan));
      }
    }

    /**
     * The guarded crew call with a freshly emptied log: an exception is
     * reported and logged, a result is stored.
     */
    method Execute(outcome: Kickoff) returns (error: Option<string>)
      requires executionLog == Present([])
      modifies this
      ensures executionLog.Present?
      ensures outcome.Raised? ==>
                && executionLog == Present([LogErrorPrefix + outcome.message])
                && locationResponse == old(locationResponse)
                && guideResponse == old(guideResponse)
                && plannerResponse == old(plannerResponse)
                && error == Some(ErrorPrefix + outcome.message)
      ensures outcome.Returned? ==>
                var r := ExtractResponses(outcome.output);
                && executionLog == Present([])
                && locationResponse == Present(r.location)
                && guideResponse == Present(r.guide)
                && plannerResponse == Present(r.planner)
                && error == None
    {
      match outcome
      case Raised(message) =>
        error := Some(ErrorPrefix + message);
        AppendLog(LogErrorPrefix + message);
        assert [] + [LogErrorPrefix + message] == [LogErrorPrefix + message];
        assert executionLog == Present([LogErrorPrefix + message]);
      case Returned(output) =>
        error := None;
        StoreResponses(output);
    }

    /** The results and downloads, offered only when the stored planner response is truthy. */
    method OfferResults(req: TripRequest, reportTime: string, csvTime: string) returns (results: Option<Exports>)
      requires Initialized()
      ensures results.Some? <==> Truthy(plannerResponse.value)
      ensures results.Some? ==>
                results.value == Exports(
                  CombinedReport(req, locationResponse.value, guideResponse.value, plannerResponse.value, reportTime),
                  CsvSummary(req, csvTime))
    {
      results := None;
      if Truthy(plannerResponse.value) {
        var report := CombinedReport(req, locationResponse.value, guideResponse.value, plannerResponse.value, reportTime);
        var csv := CsvSummary(req, csvTime);
        results := Some(Exports(report, csv));
      }
    }

    /**
     * A press of the generate button. An incomplete form changes nothing.
     * Otherwise the log is emptied, three tasks are built and handed to the
     * crew; a raised exception leaves one log entry and the stored responses
     * untouched, a result replaces them. Results and exports are offered
     * exactly when the stored planner response is truthy afterwards, which
     * after a failure may be the previous run's.
     */
    method Generate(form: Form, crew: seq<Task> -> Kickoff, reportTime: string, csvTime: string) returns (page: Page)
      requires Initialized()
      modifies this
      ensures Initialized()
      ensures !FormComplete(form) ==> page == FieldsMissing(FieldsMissingMessage) && unchanged(this)
      ensures FormComplete(form) ==> page.Ran? && page.tasks == BuildTasks(ToRequest(form))
      ensures FormComplete(form) && crew(BuildTasks(ToRequest(form))).Raised? ==>
                var message := crew(BuildTasks(ToRequest(form))).message;
                && executionLog == Present([LogErrorPrefix + message])
                && locationResponse == old(locationResponse)
                && guideResponse == old(guideResponse)
                && plannerResponse == old(plannerResponse)
                && page.error == Some(ErrorPrefix + message)
      ensures FormComplete(form) && crew(BuildTasks(ToRequest(form))).Returned? ==>
                var r := ExtractResponses(crew(BuildTasks(ToRequest(form))).output);
                && executionLog == Present([])
                && locationResponse == Present(r.location)
                && guideResponse == Present(r.guide)
                && plannerResponse == Present(r.planner)
                && page.error == None
      ensures FormComplete(form) ==> (page.results.Some? <==> Truthy(plannerResponse.value))
      ensures FormComplete(form) && page.results.Some? ==>
                page.results.value == Exports(
                  CombinedReport(ToRequest(form), locationResponse.value, guideResponse.value, plannerResponse.value, reportTime),
                  CsvSummary(ToRequest(form), csvTime))
    {
      if !FormComplete(form) {
        return FieldsMissing(FieldsMissingMessage);
      }
      var req := ToRequest(form);
      executionLog := Present([]);
      var tasks := BuildTasks(req);
      var error := Execute(crew(tasks));
      var results := OfferResults(req, reportTime, csvTime);
      page := Ran(tasks, error, results);
    }
  }

  /** A session field after the rerun's defaults: kept when present, else the default. */
  function Defaulted<T>(slot: Slot<T>, default: T): (r: Slot<T>)
    ensures r.Present?
    ensures slot.Present? ==> r == slot
    ensures slot.Absent? ==> r == Present(default)
  {
    if slot.Present? then slot else Present(default)
  }

  /**
   * One rerun of the page script: the defaults first, then a run when the
   * button was pressed.
   */
  method RunScript(session: Session, form: Form, clicked: bool, crew: seq<Task> -> Kickoff,
                   reportTime: string, csvTime: string) returns (page: Page)
    modifies session
    ensures session.Initialized()
    ensures !clicked ==> page == Idle
    ensures clicked && !FormComplete(form) ==> page == FieldsMissing(FieldsMissingMessage)
    ensures !clicked || !FormComplete(form) ==>
              && session.locationResponse == Defaulted(old(session.locationResponse), PyNone)
              && session.guideResponse == Defaulted(old(session.guideResponse), PyNone)
              && session.plannerResponse == Defaulted(old(session.plannerResponse), PyNone)
              && session.executionLog == Defaulted(old(session.executionLog), [])
    ensures clicked && FormComplete(form) ==>
              var req := ToRequest(form);
              var outcome := crew(BuildTasks(req));
              && page.Ran?
              && page.tasks == BuildTasks(req)
              && (outcome.Raised? ==>
                    && session.executionLog == Present([LogErrorPrefix + outcome.message])
                    && session.locationResponse == Defaulted(old(session.locationResponse), PyNone)
                    && session.guideResponse == Defaulted(old(session.guideResponse), PyNone)
                    && session.plannerResponse == Defaulted(old(session.plannerResponse), PyNone)
                    && page.error == Some(ErrorPrefix + outcome.message))
              && (outcome.Returned? ==>
                    var r := ExtractResponses(outcome.output);
                    && session.executionLog == Present([])
                    && session.locationResponse == Present(r.location)
                    && session.guideResponse == Present(r.guide)
                    && session.plannerResponse == Present(r.planner)
                    && page.error == None)
              && (page.results.Some? <==> Truthy(session.plannerResponse.value))
  {
    session.InitializeDefaults();
    if clicked {
      page := session.Generate(form, crew, reportTime, csvTime);
    } else {
      page := Idle;
    }
  }
}
