# Multi-agent travel planner — Dafny model of the deterministic core

The travel planner is a Streamlit page. It collects a trip request (origin,
destination, departure and return dates, interests) and builds three crewai
tasks for a location expert, a local guide and a travel planner. It runs them
as one sequential crew and stores each agent's answer in the page's session
state. When a plan exists, it offers the combined report (text or Markdown) and
a CSV summary for download. The agents can call a DuckDuckGo search tool.
Before searching, the tool coerces its loosely typed argument into a query
string.

This project models the deterministic parts of that system and proves what
they promise:

- `py_values.dfy` (`PyValues`): the Python values the tool can receive, with
  truthiness, `or`, `dict.get`, `str` and `repr`.
- `travel_tools.dfy` (`TravelTools`): the query coercion of `search_web_tool`.
  The search itself is a function parameter.
- `dates.dfy` (`Dates`): calendar dates, with Python's `date.toordinal` and
  `str(date)`. Date subtraction is modelled as a difference of ordinals.
- `f_strings.dfy` (`FStrings`): f-string templates as literal and substituted
  parts, and lemmas that locate a substituted field in the rendered text.
- `travel_agents.dfy` (`TravelAgents`): the three agents, reduced to their identities.
- `travel_tasks.dfy` (`TravelTasks`): the three task builders and the trip length.
- `app_exports.dfy` (`AppExports`): the combined report and the CSV summary.
  The timestamps are parameters.
- `app.dfy` (`App`): the input gate, the session state as a class, the
  extraction of the responses from the crew's result, the error path, and the
  decision to offer results.

Behaviour of the code worth knowing:

- A return date before the departure date is accepted. The trip length is then
  0 or negative (`TravelTasks.TripDurationSign`).
- A run resets only the execution log. The three stored responses are not
  cleared at run start (`App.Session.Generate`).
- If the crew call raises, the previous run's responses stay in the session.
  When the stored planner response is truthy, those old responses are shown and
  exported under the new request's title, dates and CSV rows.
- Per-task outputs are used whenever there are three **or more** of them.
  One or two outputs give the final output to all three responses.
  No outputs give the final output to the planner and
  "Included in final plan" to the other two (`App.ExtractResponses`).
- The planner's description does not contain the first two answers. They reach the
  planner only as its `context` list, which crewai consumes
  (`TravelTasks.PlannerTask`, `App.BuildTasks`).
- CSV values are written unquoted. A comma in a field adds a cell, and a
  newline adds a line (`AppExports.CsvCommaAddsCell`,
  `AppExports.CsvNewlineAddsLine`).

## Model

| member | source | states |
|---|---|---|
| PyValues.GetFirstMatch | TravelTools.py:13 | `dict.get` gives the value of the first entry whose key equals the string |
| PyValues.GetMissing | TravelTools.py:13 | `dict.get` gives `None` when no entry has that key |
| PyValues.Str | TravelTools.py:13 | `str(v)`: a string is itself, a dict prints in braces, a list in brackets |
| PyValues.Repr | TravelTools.py:13 | `repr(v)`: an int prints as `str(int)`, a str between matching quotes, a list in brackets, a dict in braces |
| PyValues.StrRepr | TravelTools.py:13 | `repr` of a str, specified by `PyValues.StrReprPlain` |
| PyValues.StrReprPlain | TravelTools.py:13 | printable ASCII text without backslash or double quote prints unchanged between quotes: double quotes when it holds a single quote, single quotes otherwise |
| PyValues.NatText | TravelTasks.py:76 | the decimal text of a count is non-empty, all digits, a single digit exactly for counts below 10, and without a leading zero |
| PyValues.NatTextRoundTrip | TravelTasks.py:76 | reading the decimal text of a count gives the count back |
| PyValues.IntText | TravelTasks.py:76 | `str(int)` starts with '-' exactly for a negative number, the digits that follow read back as its magnitude, and they have no leading zero |
| TravelTools.CoerceQuery | TravelTools.py:10-17 | a str passes unchanged; a dict gives a truthy "description", else a truthy "query", else `str(dict)`; a chosen non-str, or any input that is neither dict nor str, raises `ValueError` with the type and value in its message |
| TravelTools.SelectQuery | TravelTools.py:11-13 | a non-dict is kept; a dict gives its "description" value when truthy, else its "query" value when truthy, else `str` of the dict |
| TravelTools.SearchWebTool | TravelTools.py:5-22 | the search runs exactly when coercion succeeds, on the coerced string, and its answer is returned; otherwise the coercion error is raised |
| TravelTools.CoercedQueryIsChosenString | TravelTools.py:16-21 | coercion succeeds iff the chosen value is a str, and the query searched is that str |
| TravelTools.DictFallbackNeverRaises | TravelTools.py:13 | a dict with neither key truthy never raises and searches for its own printed form, which starts with `{` |
| TravelTools.EmptyDescriptionFallsThrough | TravelTools.py:13 | `{"description": ""}` falls through both keys to `str` of the dict |
| TravelTools.NonStringDescriptionRaises | TravelTools.py:13-17 | a truthy non-str "description", such as `[1]`, raises `ValueError` naming that value |
| Dates.IsoFormat | TravelTasks.py:10 | `str(date)` is 10 characters long, with dashes at positions 4 and 7; its meaning is stated by `Dates.IsoFormatFields` |
| Dates.IsoFormatFields | TravelTasks.py:10 | every position of `str(date)` but the two dashes is a digit, and its three fields read back as the year, the month and the day |
| Dates.ZeroPad | TravelTasks.py:10 | zero-padded digits have the requested width and read back as the number |
| Dates.Ordinal | TravelTasks.py:72 | `date.toordinal()`, specified by `Dates.OrdinalOrder` and `Dates.OrdinalRange` |
| Dates.OrdinalOrder | TravelTasks.py:72 | one date is before another iff its ordinal is smaller, and two dates are equal iff their ordinals are equal |
| Dates.OrdinalRange | TravelTasks.py:72 | ordinals run from 1 (0001-01-01) to 3652059 (9999-12-31) |
| TravelTasks.TripDuration | TravelTasks.py:72 | `(date_to - date_from).days + 1` as a difference of ordinals, specified by `TravelTasks.TripDurationSign` and `TravelTasks.TripDurationRange` |
| TravelTasks.TripDurationRange | TravelTasks.py:72 | the inclusive day count lies between -3652057 and 3652059, the span of representable dates |
| TravelTasks.TripDurationSign | TravelTasks.py:67-72 | the length is at least 1 iff the return date is not before the departure date, exactly 1 for a same-day trip, and at most 0 when the dates are reversed, which is not rejected |
| TravelTasks.LocationTask | TravelTasks.py:4-32 | the returned record is bound to the given agent, has no context, and has the fixed expected output |
| TravelTasks.LocationTaskContents | TravelTasks.py:9-10 | the description contains "<from> to <destination>" and "<departure> and <return>" as ISO dates |
| TravelTasks.GuideTask | TravelTasks.py:34-65 | the returned record is bound to the given agent, has no context, and has the fixed expected output |
| TravelTasks.GuideTaskContents | TravelTasks.py:39-42 | the description contains the destination, the interests, and "<departure> to <return>" |
| TravelTasks.PlannerTask | TravelTasks.py:67-135 | the returned record is bound to the given agent and its context is exactly the list passed in |
| TravelTasks.PlannerTaskContents | TravelTasks.py:72-109 | the description contains the destination, the interests, "<departure> to <return>" and "(N days)", and the expected output contains "(for all N days)", with the same N, the inclusive day count |
| App.FormComplete | app.py:97 | the gate passes iff both cities and the interests are non-empty and both dates are given |
| App.BuildTasks | app.py:112-114 | three tasks for the location, guide and planner experts, in that order; the first two have no context, and the planner's context is the first two in order; the fields each task is built from are stated by `App.TasksOfRun` and `App.PlannerTaskOfRun` |
| App.TasksOfRun | app.py:112-113 | the location task is built from the origin, the destination and the two dates, and its description names "<from> to <destination>" and "<departure> and <return>"; the guide task is built from the destination, the interests and the two dates, and its description names each of them |
| App.PlannerTaskOfRun | app.py:114 | the planner task of a run is the planner builder applied to the run's first two tasks and the trip's fields |
| App.OutputText | app.py:135-137 | a task output's response is always a str: `str(raw)` when `raw` is present (the `raw` itself when it is a str, a non-empty and so truthy text otherwise, "None" included), its own text when there is no `raw` |
| App.FinalOutput | app.py:140 | `result.raw` kept as it is, of any type, else `str(result)`; `App.ExtractResponses` states where it lands |
| App.HasTaskOutputs | app.py:130 | `hasattr(result, 'tasks_output') and result.tasks_output`; the branch it selects is stated by `App.ExtractResponses` |
| App.ExtractResponses | app.py:130-149 | with three or more outputs, entries 0, 1 and 2 in order; with one or two, the final output in all three; with none, the final output for the planner and "Included in final plan" for the other two |
| App.PlanShownAfterSuccess | app.py:130-165 | after a successful run, results appear iff the third output's text is non-empty (three or more outputs) or the final output is truthy (otherwise) |
| App.ReportShowsThirdOutput | app.py:130-219 | with three or more outputs, the report's itinerary section is the third output's text |
| App.Session.constructor | app.py:79-86 | a new session holds none of the four fields |
| App.Session.InitializeDefaults | app.py:79-86 | an absent field gets its default (`None`, or an empty log), and a present field is never overwritten |
| App.Session.AppendLog | app.py:155 | the log gains exactly one entry at its end, and the responses are unchanged |
| App.Session.StoreResponses | app.py:130-149 | the three responses become those of the extraction policy, assigned branch by branch; the log is unchanged |
| App.Session.Execute | app.py:107-155 | an exception leaves exactly one log entry "ERROR: <msg>", keeps the stored responses and reports "❌ Error during execution: <msg>"; a result stores the extracted responses and reports no error |
| App.Session.OfferResults | app.py:165-258 | results are offered iff the stored planner response is truthy, and they are the combined report and CSV summary of the stored responses |
| App.Session.Generate | app.py:96-165 | an incomplete form changes nothing and shows the fields error; otherwise the log is reset, the three tasks go to the crew, the error or result path follows, and results appear iff the planner response is truthy afterwards |
| App.RunScript | app.py:79-165 | without a click, or with an incomplete form, every present field is kept and every absent one gets its default; with a click on a complete form, the log is reset, an exception leaves one log entry and the kept or defaulted responses, a result stores the extracted responses, and results appear iff the planner response is truthy |
| AppExports.Upper | app.py:201 | upper-casing keeps the length and maps exactly the ASCII lower-case letters |
| AppExports.UpperIdempotent | app.py:201 | upper-casing is idempotent and leaves no lower-case ASCII letter |
| AppExports.CombinedReport | app.py:200-226 | the report export, specified by `AppExports.ReportTitle`, `AppExports.ReportHeaderDetails`, the three section lemmas, `AppExports.ReportSectionsInOrder`, `AppExports.ReportEndsWithFooter` and `AppExports.ReportClosesWithDestination` |
| AppExports.ReportTitle | app.py:200-201 | the report opens with the title naming the destination in upper case |
| AppExports.ReportHeaderDetails | app.py:203-204 | the report states the generation time and then the trip dates as "<departure> to <return>", each in ISO form |
| AppExports.ReportLocationSection | app.py:208-209 | the location section holds the location response when it is truthy, else "See full itinerary below" |
| AppExports.ReportGuideSection | app.py:213-214 | the guide section holds the guide response when it is truthy, else "See full itinerary below" |
| AppExports.ReportItinerarySection | app.py:218-219 | the itinerary section holds `str` of the planner response, whatever its type, and a str response verbatim |
| AppExports.ReportSectionsInOrder | app.py:206-221 | the location, guide and itinerary sections follow one another in that order |
| AppExports.ReportEndsWithFooter | app.py:223-226 | the report ends with the footer lines naming the interests, the origin and the destination, in that order |
| AppExports.ReportClosesWithDestination | app.py:223-226 | the report ends with the destination as typed, not upper-cased |
| AppExports.CsvSummary | app.py:251-258 | the CSV export, specified by `AppExports.CsvSummaryLines`, `AppExports.CsvRowsTwoColumns`, `AppExports.CsvCommaAddsCell` and `AppExports.CsvNewlineAddsLine` |
| AppExports.CsvSummaryLines | app.py:251-258 | without newlines in the fields, the summary splits into the header, six rows in the fixed order, and the empty piece after the last newline |
| AppExports.CsvRowsTwoColumns | app.py:251-258 | without commas in the fields, the header splits into `Attribute`/`Value` and each row into its attribute and its value |
| AppExports.CsvCommaAddsCell | app.py:256 | a comma in the interests gives the Interests row three or more cells |
| AppExports.CsvNewlineAddsLine | app.py:256 | a newline in the interests gives the summary more lines than the header and six rows |

## Left out

- The DuckDuckGo search and `str(results)` (TravelTools.py:20-22) are a network call. The search is a function parameter of `TravelTools.SearchWebTool`.
- The crew call and everything behind it (`Crew`, `kickoff`, the LLM, app.py:116-127) are external orchestration. The crew is a parameter from the three tasks to a result or an exception message. How crewai passes context outputs into the planner's prompt is not modelled.
- TravelAgents.py is configuration: goals, backstories, the LLM and the tool list. Only the three agents' identities are kept; their role labels have no behaviour.
- The prompt prose of the three task templates is replaced by short bracketed stand-ins. The substituted fields and the text next to them ("from … to …", "… and …", "(N days)", "(for all N days)") are kept as written.
- `datetime.now()` (app.py:203, 257) and the date-stamped file names are nondeterministic. The report and CSV timestamps are two separate parameters, because the source reads the clock twice.
- The Streamlit widgets, status messages, tabs, `st.markdown`/`st.info` rendering and download buttons are UI. A run's page keeps only the three tasks, the error text and the exports.
- `AppExports.Upper`: maps only ASCII letters. Python's `str.upper` also maps other scripts and may change the length (for example "ß" becomes "SS").
- `PyValues.Str`: `repr` escapes control characters up to U+00FF as Python does. Non-printable characters beyond U+00FF are shown unescaped. Floats, tuples and other types are not among the modelled values.
- `App.Session.StoreResponses`: if `str()` raised part-way through the three assignments, the source would keep earlier assignments. That cannot happen with the modelled values and is not modelled.
- `App.Session.Generate`: an exception raised while the three tasks are being built is not modelled. With valid dates the builders cannot raise.
