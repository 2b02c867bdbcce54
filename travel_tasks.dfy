/**
 * The three task builders of TravelTasks.py. Each renders its prompt as an
 * f-string over the trip parameters and returns a task record; the planner
 * also computes the trip length. The long prompt prose is abbreviated to
 * short bracketed stand-ins; the substituted fields appear where, and as
 * often as, the source substitutes them.
 */
module TravelTasks {
  import opened Common
  import opened PyValues
  import opened FStrings
  import opened Dates
  import opened TravelAgents

  /** A crewai `Task`: what to do, what to hand back, who does it, and the earlier tasks whose outputs it reads. */
  datatype Task = Task(description: string, expectedOutput: string, agent: Agent, context: Option<seq<Task>>)

  const LocationExpectedOutput := "[location report]"
  const GuideExpectedOutput := "[local guide]"

  /** `(date_to - date_from).days + 1`: the trip length in days, counting both ends. */
  function TripDuration(dateFrom: Date, dateTo: Date): int {
    Ordinal(dateTo) - Ordinal(dateFrom) + 1
  }

  /** The trip length never exceeds the span of representable dates, in either direction. */
  lemma TripDurationRange(dateFrom: Date, dateTo: Date)
    ensures -3652057 <= TripDuration(dateFrom, dateTo) <= 3652059
  {
    OrdinalRange(dateFrom);
    OrdinalRange(dateTo);
  }

  /**
   * The trip length is positive exactly when the return date is not before
   * the departure date, and 1 exactly for a same-day trip. A return date
   * before the departure date is not rejected: it gives a length of 0 or less.
   */
  lemma TripDurationSign(dateFrom: Date, dateTo: Date)
    ensures TripDuration(dateFrom, dateTo) >= 1 <==> !Before(dateTo, dateFrom)
    ensures TripDuration(dateFrom, dateTo) == 1 <==> dateFrom == dateTo
    ensures TripDuration(dateFrom, dateTo) <= 0 <==> Before(dateTo, dateFrom)
  {
    OrdinalOrder(dateTo, dateFrom);
  }

  function LocationDescription(fromCity: string, destinationCity: string, dateFrom: Date, dateTo: Date): seq<Part> {
    [Lit("[research] trip from ")] +
    Span(fromCity, " to ", destinationCity) +
    [Lit("\n        between ")] +
    Span(IsoFormat(dateFrom), " and ", IsoFormat(dateTo)) +
    [ Lit(".\n[visa from] "), Sub(fromCity), Lit(" for "), Sub(destinationCity),
      Lit(" [transport in] "), Sub(destinationCity), Lit(" [weather in] "), Sub(destinationCity),
      Lit(" [safety; budget]") ]
  }

  /**
   * `location_task`: the expected output is fixed, the returned record is bound to the
   * given agent and declares no context.
   */
  function LocationTask(agent: Agent, fromCity: string, destinationCity: string, dateFrom: Date, dateTo: Date): (r: Task)
    ensures r.agent == agent && r.context == None
    ensures r.expectedOutput == LocationExpectedOutput
  {
    Task(Render(LocationDescription(fromCity, destinationCity, dateFrom, dateTo)), LocationExpectedOutput, agent, None)
  }

  /** The location prompt names the trip as "from <origin> to <destination>" and the dates as "<departure> and <return>". */
  lemma LocationTaskContents(agent: Agent, fromCity: string, destinationCity: string, dateFrom: Date, dateTo: Date)
    ensures var d := LocationTask(agent, fromCity, destinationCity, dateFrom, dateTo).description;
            IsInfix(fromCity + " to " + destinationCity, d) &&
            IsInfix(IsoFormat(dateFrom) + " and " + IsoFormat(dateTo), d)
  {
    RenderInfix5([Lit("[research] trip from ")],
                 Span(fromCity, " to ", destinationCity),
                 [Lit("\n        between ")],
                 Span(IsoFormat(dateFrom), " and ", IsoFormat(dateTo)),
                 [ Lit(".\n[visa from] "), Sub(fromCity), Lit(" for "), Sub(destinationCity),
                   Lit(" [transport in] "), Sub(destinationCity), Lit(" [weather in] "), Sub(destinationCity),
                   Lit(" [safety; budget]") ]);
    RenderSpan(fromCity, " to ", destinationCity);
    RenderSpan(IsoFormat(dateFrom), " and ", IsoFormat(dateTo));
  }

  function GuideDescription(destinationCity: string, interests: string, dateFrom: Date, dateTo: Date): seq<Part> {
    [Lit("[local guide for] ")] +
    Span(destinationCity, " [interested in] ", interests) +
    [Lit(".\n        Trip dates: ")] +
    Span(IsoFormat(dateFrom), " to ", IsoFormat(dateTo)) +
    [Lit("\n[recommendations]")]
  }

  /**
   * `guide_task`: the expected output is fixed, the returned record is bound to the
   * given agent and declares no context.
   */
  function GuideTask(agent: Agent, destinationCity: string, interests: string, dateFrom: Date, dateTo: Date): (r: Task)
    ensures r.agent == agent && r.context == None
    ensures r.expectedOutput == GuideExpectedOutput
  {
    Task(Render(GuideDescription(destinationCity, interests, dateFrom, dateTo)), GuideExpectedOutput, agent, None)
  }

  /** The guide prompt names the destination, the traveller's interests, and the dates as "<departure> to <return>". */
  lemma GuideTaskContents(agent: Agent, destinationCity: string, interests: string, dateFrom: Date, dateTo: Date)
    ensures var d := GuideTask(agent, destinationCity, interests, dateFrom, dateTo).description;
            IsInfix(destinationCity, d) && IsInfix(interests, d) &&
            IsInfix(IsoFormat(dateFrom) + " to " + IsoFormat(dateTo), d)
  {
    var d := GuideTask(agent, destinationCity, interests, dateFrom, dateTo).description;
    var request := Span(destinationCity, " [interested in] ", interests);
    RenderInfix5([Lit("[local guide for] ")], request, [Lit(".\n        Trip dates: ")],
                 Span(IsoFormat(dateFrom), " to ", IsoFormat(dateTo)), [Lit("\n[recommendations]")]);
    RenderSpan(IsoFormat(dateFrom), " to ", IsoFormat(dateTo));
    SpanFields(destinationCity, " [interested in] ", interests);
    InfixTransitive(destinationCity, Render(request), d);
    InfixTransitive(interests, Render(request), d);
  }

  function PlannerDescription(destinationCity: string, interests: string, dateFrom: Date, dateTo: Date, days: string): seq<Part> {
    Framed("[itinerary for] ", destinationCity, "\n        from ") +
    Span(IsoFormat(dateFrom), " to ", IsoFormat(dateTo)) +
    Framed(" (", days, " days)") +
    Framed(".\n        Traveler interests: ", interests, "\n[planning]")
  }

  function PlannerExpectedOutput(days: string): seq<Part> {
    [Lit("[plan] ")] + Framed("(for all ", days, " days)") + [Lit("\n[per-day plan]")]
  }

  /**
   * `planner_task`: its context is exactly the list passed in, and it is
   * bound to the given agent. The dates are not checked against each other.
   */
  function PlannerTask(contextTasks: seq<Task>, agent: Agent, destinationCity: string, interests: string,
                       dateFrom: Date, dateTo: Date): (r: Task)
    ensures r.agent == agent && r.context == Some(contextTasks)
  {
    var days := IntText(TripDuration(dateFrom, dateTo));
    Task(Render(PlannerDescription(destinationCity, interests, dateFrom, dateTo, days)),
         Render(PlannerExpectedOutput(days)), agent, Some(contextTasks))
  }

  /**
   * The planner prompt names the destination, the dates as "<departure> to <return>",
   * the trip length as "(N days)" and the traveller's interests; its expected output
   * repeats the same N as "(for all N days)".
   */
  lemma PlannerTaskContents(contextTasks: seq<Task>, agent: Agent, destinationCity: string, interests: string,
                            dateFrom: Date, dateTo: Date)
    ensures var t, days := PlannerTask(contextTasks, agent, destinationCity, interests, dateFrom, dateTo),
                           IntText(TripDuration(dateFrom, dateTo));
            IsInfix(destinationCity, t.description) && IsInfix(interests, t.description) &&
            IsInfix(IsoFormat(dateFrom) + " to " + IsoFormat(dateTo), t.description) &&
            IsInfix(" (" + days + " days)", t.description) &&
            IsInfix("(for all " + days + " days)", t.expectedOutput)
  {
    var t := PlannerTask(contextTasks, agent, destinationCity, interests, dateFrom, dateTo);
    var days := IntText(TripDuration(dateFrom, dateTo));
    var opening := Framed("[itinerary for] ", destinationCity, "\n        from ");
    var closing := Framed(".\n        Traveler interests: ", interests, "\n[planning]");
    RenderInfix4(opening, Span(IsoFormat(dateFrom), " to ", IsoFormat(dateTo)), Framed(" (", days, " days)"), closing);
    RenderSpan(IsoFormat(dateFrom), " to ", IsoFormat(dateTo));
    RenderFramed(" (", days, " days)");
    FramedField("[itinerary for] ", destinationCity, "\n        from ");
    InfixTransitive(destinationCity, Render(opening), t.description);
    FramedField(".\n        Traveler interests: ", interests, "\n[planning]");
    InfixTransitive(interests, Render(closing), t.description);
    RenderInfix([Lit("[plan] ")], Framed("(for all ", days, " days)"), [Lit("\n[per-day plan]")]);
    RenderFramed("(for all ", days, " days)");
  }
}
