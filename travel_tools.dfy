/**
 * The argument handling of the web-search tool (TravelTools.py). The search
 * itself is a parameter: a function from the query string to the text the
 * tool returns.
 */
module TravelTools {
  import opened Common
  import opened PyValues

  /** The `ValueError` the tool raises, with its message. */
  datatype ValueError = ValueError(message: string)

  /** The value of `query` after the dictionary case has rebound it. */
  function SelectQuery(query: PyVal): (r: PyVal)
    ensures !query.PyDict? ==> r == query
    ensures query.PyDict? && Truthy(Get(query.entries, "description")) ==> r == Get(query.entries, "description")
    ensures query.PyDict? && !Truthy(Get(query.entries, "description")) && Truthy(Get(query.entries, "query")) ==>
              r == Get(query.entries, "query")
    ensures query.PyDict? && !Truthy(Get(query.entries, "description")) && !Truthy(Get(query.entries, "query")) ==>
              r == PyStr(Str(query))
  {
    match query
    case PyDict(entries) =>
      Or(Or(Get(entries, "description"), Get(entries, "query")), PyStr(Str(query)))
    case _ => query
  }

  /**
   * The query string handed to the search, or the error raised for it.
   * A string passes unchanged; a dictionary yields its "description" value
   * when that is truthy, else its "query" value when that is truthy, else its
   * own printed form; the value so chosen must be a string. Anything else,
   * and a chosen value that is not a string, raises `ValueError`.
   */
  function CoerceQuery(query: PyVal): (r: Result<string, ValueError>)
    ensures query.PyStr? ==> r == Ok(query.s)
    ensures !query.PyStr? && !query.PyDict? ==> r.Err?
    ensures query.PyDict? ==>
              var description, q := Get(query.entries, "description"), Get(query.entries, "query");
              && (Truthy(description) ==>
                    (if description.PyStr? then r == Ok(description.s) else r.Err?))
              && (!Truthy(description) && Truthy(q) ==>
                    (if q.PyStr? then r == Ok(q.s) else r.Err?))
              && (!Truthy(description) && !Truthy(q) ==> r == Ok(Str(query)))
    ensures r.Err? ==> r.error == ValueError(TypeErrorMessage(SelectQuery(query)))
  {
    var chosen := SelectQuery(query);
    if chosen.PyStr? then Ok(chosen.s) else Err(ValueError(TypeErrorMessage(chosen)))
  }

  /** The message of the `ValueError`: the type and the printed form of the offending value. */
  function TypeErrorMessage(chosen: PyVal): string {
    "Query must be a string, got " + ClassText(chosen) + ": " + Str(chosen)
  }

  /**
   * `search_web_tool(query)`: the search runs on the coerced query, and only
   * when coercion succeeds; its answer is returned as it is.
   */
  function SearchWebTool(query: PyVal, search: string -> string): (r: Result<string, ValueError>)
    ensures r.Ok? <==> CoerceQuery(query).Ok?
    ensures r.Ok? ==> r.value == search(CoerceQuery(query).value)
    ensures r.Err? ==> r == Err(CoerceQuery(query).error)
  {
    match CoerceQuery(query)
    case Ok(q) => Ok(search(q))
    case Err(e) => Err(e)
  }

  /** Coercion succeeds exactly when the chosen value is a string, and then passes that string on. */
  lemma CoercedQueryIsChosenString(query: PyVal)
    ensures CoerceQuery(query).Ok? <==> SelectQuery(query).PyStr?
    ensures CoerceQuery(query).Ok? ==> SelectQuery(query) == PyStr(CoerceQuery(query).value)
  {
  }

  /** A dictionary with no truthy "description" or "query" never raises: its printed form is searched. */
  lemma DictFallbackNeverRaises(entries: seq<(PyVal, PyVal)>)
    requires !Truthy(Get(entries, "description")) && !Truthy(Get(entries, "query"))
    ensures CoerceQuery(PyDict(entries)) == Ok(Str(PyDict(entries)))
    ensures var q := CoerceQuery(PyDict(entries)).value; |q| >= 2 && q[0] == '{'
  {
  }

  /** `{"description": ""}` falls through both keys and searches for its own printed form. */
  lemma EmptyDescriptionFallsThrough()
    ensures var d := PyDict([(PyStr("description"), PyStr(""))]);
            CoerceQuery(d) == Ok(Repr(d))
  {
    var entries := [(PyStr("description"), PyStr(""))];
    assert Get(entries, "description") == PyStr("");
    assert Get(entries, "query") == PyNone;
  }

  /**
   * A truthy value under "description" that is not a string, such as the
   * list in `{"description": [1]}`, makes the tool raise, naming that value.
   */
  lemma NonStringDescriptionRaises(v: PyVal)
    requires Truthy(v) && !v.PyStr?
    ensures CoerceQuery(PyDict([(PyStr("description"), v)])) == Err(ValueError(TypeErrorMessage(v)))
  {
    var entries := [(PyStr("description"), v)];
    assert Get(entries, "description") == v;
  }
}
