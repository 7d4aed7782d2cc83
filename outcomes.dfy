/** What one run records and how it can end: the result record of an
    expectation, the diagnostic a failed one reports, the errors that
    abort a run, and the trace of events (log records and calls into the
    collaborators) that a run leaves. */
module Outcomes {
  import opened Results
  import opened Values
  import opened Severity

  /** A dataframe produced by the warehouse connector, known by a handle. */
  datatype Frame = Frame(handle: nat)

  /** The part of a great_expectations validation result the runner reads:
      `success`, `expectation_config.kwargs.column`, `expectation_config.type`,
      `result.element_count` and `result.unexpected_percent` (kept as the
      text it is printed as). */
  datatype ValidationResult = ValidationResult(
    success: bool,
    column: string,
    ruleType: string,
    elementCount: int,
    unexpectedPercent: string)

  /** The fields a failure message carries. */
  datatype Diagnostic = Diagnostic(
    column: string,
    ruleType: string,
    severity: SeverityLevel,
    unexpectedPercent: string,
    elementCount: int)

  /** Everything that can end a run early, each standing for an exception
      of the Python code. */
  datatype Failure =
    | ValidationFailed(diagnostic: Diagnostic)  // ValueError of a failed HIGH rule
    | CheckRaised                               // the expectation routine itself raised
    | MissingColumn                             // KeyError of kwargs['column'] on success
    | MemberRaised(member: string)              // a non-expectation attribute raised when called
    | NotAMapping(declaration: Value)           // AttributeError of .get on a non-dictionary
    | NoSuchAttribute(name: Value)              // getattr found nothing (or the name is no string)
    | UnknownSeverity(given: Value)             // KeyError of SeverityLevel[...]
    | NotIterable                               // `for ... in None`, `zip(..., None)`
    | BadShape(access: string)                  // KeyError or TypeError on the document
    | NoDocument                                // `'query_dq' in` a document that is no container
    | FetchFailed(bucket: string, key: string)  // read_s3_text raised
    | QueryFailed(sql: string)                  // BuildDF raised
    | UnboundFrame                              // UnboundLocalError: df never assigned

  /** A log record, abstracted from its text. */
  datatype LogRecord =
    | Warning(warned: Diagnostic)
    | Info(informed: Diagnostic)
    | Error(failure: Failure)

  /** One observable step of a run. */
  datatype Event =
    | Logged(record: LogRecord)
    | Invoked(rule: string, kwargs: Kwargs)           // an attribute of the engine is called
    | FrameRequested(sql: string, parameters: Value)  // BuildDF(sql_query, parameters)
    | RulesRun(frame: Frame, config: Value, keyPath: Option<string>)  // QARulesPandas(df, yaml, key_path).run()

  function LogEvents(records: seq<LogRecord>): (r: seq<Event>)
    ensures |r| == |records|
    ensures forall i :: 0 <= i < |r| ==> r[i] == Logged(records[i])
  {
    if records == [] then [] else [Logged(records[0])] + LogEvents(records[1..])
  }
}
