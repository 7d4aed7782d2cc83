# Data-quality rule runner, modelled in Dafny

This project models the control logic of a data-quality runner. The runner
reads a YAML rule document from object storage. It renders SQL templates
named by the document's `query_dq` entries, builds one dataframe per
rendered query, and runs great_expectations rules against each dataframe.
It then walks the document's generic `rules` items: an item with
`parameters` builds a dataframe from a table, and an item with
`expectations` validates the last dataframe built.

The model covers these pieces of the repository:

- the `SeverityLevel` enumeration and the exact-name lookup `SeverityLevel[name]` (`severity.dfy`);
- the `handle_expectation_result` decorator, which maps a validation result and a severity to raise, warn, inform or stay silent (`expectation.dfy`);
- the rule dispatcher `UtillsExecution.run_yaml_rules` (`dispatch.dfy`). It is a loop over an `array` of declaration dictionaries that pops `severity` from each slot in place, looks up the routine the way `getattr` does, and re-raises the first failure after logging it;
- route parsing and `-env-` substitution, with Python's `str.replace` written out (`strings.dfy`, `route.dfy`);
- the two `build_sql_template` loops and `BuildTemplateSQL` (`templates.dfy`);
- `RunRules`: its constructor and `execute_rules`, including section gating, the positional `zip` of queries with entries, and the shared local `df` of the generic loop (`orchestration.dfy`).

YAML values are the `Values.Value` datatype. Exceptions are `Outcomes.Failure` values. What a run does is a trace of `Outcomes.Event`s: log records, rule invocations, dataframe requests and engine runs. Storage, the warehouse, Jinja2 and the great_expectations routines are function-valued parameters (`Templates.Io`, `Orchestration.Collaborators`, `Dispatch.Engine`).

Each loop is a method proved equal to a specification function over the
same inputs:

- `DispatchInPlace` is proved against `Dispatch`, through `RunInPlace`, the same loop over any step function, which is proved against `Run`;
- `BuildQueryList` is proved against `QueryList`;
- `RunQueryPairs` is proved against `QueryPairs`;
- `RunGenericItems` is proved against `GenericItems`;
- `RunRules.ExecuteRules` is proved against `Execute`.

The properties are proved as lemmas about those functions.

In four places the code does something other than one would expect at first reading. The model follows the code:

- **Query rules are nested.** One would expect each `query_dq` entry's own `rules_dq` list to run against that entry's dataframe. The code instead hands every query-path engine the whole document, with `key_path='rules_dq'`. The jmespath projection `query_dq[*].rules_dq` does not flatten (`Values.PluckNoFlatten`), so the engine walks a list whose elements are the rule *lists*. With that layout, each entry holding its own rule list, the first engine run therefore fails at `rule.get` on a list (`Orchestration.NestedRuleListsAbort`).
- **Reruns see HIGH.** One would expect every query run to see the document as written, each run leaving it untouched. The pops of `severity` change the shared document instead, so every query run after the first sees each declaration as HIGH (`Orchestration.LaterQueryRunsSeeHigh`).
- **Every query is rendered first.** One would expect each `query_dq` entry to be rendered and then run in turn. `build_sql_template` instead renders every entry (data_quality/rules.py:328-336) before the `zip` loop requests the first dataframe (data_quality/generate.py:33-35). So an entry that fails to render ends the run before any dataframe is requested, even for the entries before it (`Orchestration.RenderFailureBeforeAnyFrame`, `Orchestration.LaterRenderFailureRequestsNoFrame`).
- **The two utilities can disagree.** `UtillsExecution.build_sql_template` substitutes the environment twice. This differs from a single substitution when markers overlap, as in `-env-env-`: one pass leaves a marker behind (`Route.OverlappingMarkersOnce`), and the second pass rewrites it (`Route.OverlappingMarkersTwice`).

## Model

| member | source | states |
|---|---|---|
| Severity.FromName | data_quality/utills.py:19-22 | The lookup succeeds exactly for the three member names HIGH, MEDIUM and LOW. It yields the member whose name is the given string. |
| Expectation.SeverityOf | data_quality/rules.py:48 | `kwargs.pop('severity', default_severity)`, the level the decorator applies. Its effect is stated by `Wrap` and `MissingSeverityIsHigh`. |
| Expectation.Policy | data_quality/rules.py:54-79 | A failed rule raises iff severity is HIGH, warns iff MEDIUM and informs iff LOW. A passed rule is silent. |
| Expectation.DiagnosticOf | data_quality/rules.py:55-61 | The fields of the failure message, as a definition. That a failed result's record carries them with the severity applied is stated by `Wrap`. |
| Expectation.Wrap | data_quality/rules.py:44-86 | The routine is called without `severity`, which defaults to the decorator's default. A routine that raises propagates. A failed HIGH rule raises `ValueError` with the diagnostic. A failed MEDIUM rule returns after exactly one warning, and a failed LOW rule after exactly one info record. A passed rule returns with no record, but raises `KeyError` when there is no `column` argument. The result is never returned. |
| Expectation.WrapHidesSeverity | data_quality/rules.py:48-49 | Two routines that agree on every argument map without `severity` behave the same under the decorator, so the routine never sees `severity`. |
| Expectation.MissingSeverityIsHigh | data_quality/rules.py:44-48 | A call without `severity` behaves like one with `severity=HIGH`. |
| Expectation.OnlyHighFailureRaisesValidation | data_quality/rules.py:54-71 | The decorator raises the validation error iff the routine returned a failed result and the severity is HIGH. |
| Values.Contains | data_quality/generate.py:23-49 | Python's `in` tests the keys of a dictionary. It raises a TypeError (`None`) exactly on values that are not a dictionary, list or string. |
| Values.Subscript | data_quality/rules.py:324 | `container[key]` with a string key, as a definition. What it gives is stated where it is used: by `Templates.RenderEntry` for a missing `parameters`, by `Templates.QueryList` for a missing or null `query_dq`, by `Values.ProjectField` for the selection `query_dq[*].<field>`, and by `Orchestration.NullQuerySectionRaises` for a null `query_dq`. |
| Values.Compact | data_quality/utills.py:88 | A projection keeps exactly the non-null elements. A list without nulls is kept as it is. |
| Values.CompactSingleton | data_quality/utills.py:88 | One element is kept iff it is not null. |
| Values.CompactAppend | data_quality/utills.py:88 | The projection of a concatenation is the concatenation of the projections, so order is kept. |
| Values.ProjectAll | data_quality/utills.py:88 | `[*]` gives a list exactly when applied to a list. It is then the list's non-null elements (`Compact`), which is the list itself when it holds no null. |
| Values.Pluck | data_quality/utills.py:88 | `[*].field` keeps no null and is no longer than the list. |
| Values.PluckSingleton | data_quality/utills.py:88 | One element gives its `field`, unless it has none or holds null there. |
| Values.PluckAppend | data_quality/utills.py:88 | `[*].field` of a concatenation is the concatenation of the two projections, so order is kept. |
| Values.PluckNoFlatten | data_quality/utills.py:88 | When every element holds a list at `field`, the projection has one element per element, and the i-th is that element's list itself: no flattening. |
| Values.ProjectField | data_quality/utills.py:88 | `query_dq[*].key_path` is a list exactly when `query_dq` is a list in a dictionary document. It is then `Pluck` of that list. |
| Strings.ReplaceAll | data_quality/rules.py:330 | Python's `str.replace` for a non-empty pattern: a left-to-right scan that rewrites each occurrence it finds and resumes after it. What it computes is stated by the `ReplaceIsJoinOfSplit`, `SplitPiecesAreFree` and `NoOccurrenceUnchanged` rows. |
| Strings.Split | data_quality/rules.py:330 | Python's `str.split` for a non-empty pattern, the reference that `ReplaceAll` is stated against. It always gives at least one piece. |
| Strings.Join | data_quality/rules.py:330 | Python's `sep.join(parts)`, the other half of that reference. |
| Strings.ReplaceIsJoinOfSplit | data_quality/rules.py:330 | `s.replace(p, r)` equals `r.join(s.split(p))`. |
| Strings.JoinSplitIsIdentity | data_quality/rules.py:330 | Joining the split pieces with the pattern gives back the string. |
| Strings.SplitPiecesAreFree | data_quality/rules.py:330 | No piece between the replaced occurrences contains the pattern. So every occurrence a left-to-right scan finds is replaced. |
| Strings.NoOccurrenceUnchanged | data_quality/rules.py:330 | A string without the pattern is left unchanged. |
| Strings.ReplaceBySelfIsIdentity | data_quality/rules.py:330 | Replacing a pattern by itself changes nothing. |
| Strings.ReplaceAtFront | data_quality/rules.py:330 | An occurrence at the front is replaced, and the scan resumes after it. |
| Strings.ReplaceAfterFreePrefix | data_quality/rules.py:330 | A prefix that starts no occurrence is copied unchanged. |
| Route.DropScheme | data_quality/rules.py:329 | `route[5:]`. A route of at most five characters gives the empty string. Otherwise the result is the route after its first five characters. |
| Route.ParseRoute | data_quality/rules.py:329-331 | The bucket has no `/`. With a `/`, the text after the scheme is bucket + `/` + key. Without one, the bucket is the whole text and the key is `''`. |
| Route.ParseRouteRoundTrip | data_quality/rules.py:329-331 | Any five-character scheme, a slash-free bucket and a key parse back into that bucket and key. Without a key they parse to the key `''`. |
| Route.SubstituteEnv | data_quality/rules.py:330 | `.replace("-env-", "-" + environment + "-")`. Its effect is stated by the Route rows that follow. |
| Route.SubstituteEnvRewritesEveryMarker | data_quality/rules.py:330 | The bucket is its marker-free pieces joined by `-env-`. The substitution joins the same pieces with `-<environment>-`. |
| Route.SubstituteEnvWithoutMarker | data_quality/rules.py:330 | A bucket without `-env-` is unchanged. |
| Route.SubstituteEnvIdentity | data_quality/rules.py:330 | The environment `env` leaves every bucket unchanged. |
| Route.SubstituteEnvSingleMarker | data_quality/rules.py:330 | One marker between dash-free parts becomes `-<environment>-`, as `data-env-artifacts` becomes `data-prod-artifacts`. |
| Route.DoubleSubstitutionIsSingle | data_quality/utills.py:63-66 | Substituting twice equals substituting once when the first pass leaves no marker. |
| Route.OverlappingMarkersOnce | data_quality/rules.py:330 | On `<head>-env-env-<tail>`, with no dash in the head, the tail or the environment, one pass rewrites only the first marker and leaves `-env-` behind: `a-env-env-b` becomes `a-prod-env-b`. |
| Route.OverlappingMarkersTwice | data_quality/utills.py:63-66 | The second pass of `UtillsExecution` rewrites that marker too, for any dash-free environment other than `env`: `a-prod-env-b` becomes `a-prod-prod-b`. So one and two passes disagree on overlapping markers. |
| Route.FetchLocation | data_quality/rules.py:329-332 | The key is the parsed key and is never substituted. The bucket is substituted once (`BuildTemplate`) or twice (`UtillsExecution`). |
| Templates.BuildTemplateSql | data_quality/utills.py:47-51 | `BuildTemplateSQL` as a definition: render the SQL with the document's `parameters`. That it is what rendering one entry does once its template is read is stated by `RenderEntryIsBuildTemplateSql`. |
| Templates.RenderEntryIsBuildTemplateSql | data_quality/utills.py:47-51 | Once an entry's route parses and its template is read, rendering the entry is `BuildTemplateSQL` applied to the entry and that template: both fail on a missing `parameters`, and both render with it otherwise. |
| Templates.RenderEntry | data_quality/rules.py:329-334 | A missing or non-string `route` fails first, then a failed read, then a missing `parameters`. Otherwise the result is the template read from the entry's location, rendered with its `parameters`. |
| Templates.RenderAll | data_quality/rules.py:328-336 | Succeeds iff every entry renders. It then gives one query per entry, in order: the i-th query is entry i rendered. |
| Templates.RenderAllFirstError | data_quality/rules.py:328-336 | A failing loop fails with the error of its first failing entry. |
| Templates.RenderEach | data_quality/rules.py:328-334 | One result per entry, in order: the j-th is entry j rendered. |
| Templates.CollectQueries | data_quality/rules.py:328-336 | A loop that stops at its first failure succeeds iff every step succeeds. It then gives every step's value, in order. |
| Templates.CollectQueriesFirstError | data_quality/rules.py:328-336 | When steps 0..k-1 succeed and step k fails, the loop fails with step k's error. |
| Templates.CollectQueriesOfRendered | data_quality/rules.py:328-336 | Steps that all gave queries yield exactly those queries. |
| Templates.RenderedPrefixExtend | data_quality/rules.py:336 | Appending the next rendered query keeps the list equal to the rendered prefix of the entries. |
| Templates.RenderedPrefixThenError | data_quality/rules.py:328-336 | A failing entry after the queries appended so far makes the loop fail with that entry's error. |
| Templates.QueryList | data_quality/rules.py:322-338 | An unreadable `query_dq` fails, and a null one gives `[]`. A list gives one query per entry, in order, iff every entry renders. |
| Templates.BuildQueryList | data_quality/rules.py:320-338 | The appending loop computes exactly `QueryList`. |
| Templates.RenderEntryTwiceIsOnce | data_quality/utills.py:62-68 | One entry renders the same with one or two substitutions when the substituted bucket holds no marker. |
| Templates.RenderAllTwiceIsOnce | data_quality/utills.py:61-70 | The same holds for a whole list of entries. |
| Templates.QueryListTwiceIsOnce | data_quality/utills.py:53-72 | The two `build_sql_template`s agree on every document whose substituted buckets hold no new marker. |
| Templates.BuildTemplate.constructor | data_quality/rules.py:315-317 | The document is what `read_s3_yaml` returns for the bucket and key. |
| Templates.BuildTemplate.BuildSqlTemplate | data_quality/rules.py:320-338 | Gives the queries of the loaded document with one substitution. |
| Dispatch.RuleName | data_quality/utills.py:93 | `rule.get('rule')`: the declared name, or `None` without one. Its use is stated by `Step`. |
| Dispatch.SeverityArg | data_quality/utills.py:94 | `rule.pop("severity", "HIGH")`, the value popped. Its use is stated by `Step` and `StepMissingSeverityIsHigh`. |
| Dispatch.ParseLevel | data_quality/utills.py:96 | `SeverityLevel[v]` succeeds exactly for a string naming a member, and yields that member. |
| Dispatch.Popped | data_quality/utills.py:93 | After the pop a declaration has no `severity` and keeps every other key with its value. A non-dictionary is unchanged. |
| Dispatch.CallArgs | data_quality/utills.py:96 | The call receives the popped declaration, including `rule`, plus `severity` set to the parsed level. |
| Dispatch.Step | data_quality/utills.py:91-100 | The declaration always loses `severity`. A non-dictionary, an unknown attribute and an unknown severity each fail before any call. A dispatchable declaration's first event is the call with its arguments. Success implies the declaration was dispatchable. |
| Dispatch.StepAppliesSeverity | data_quality/utills.py:93-96 | A routine's result is applied with the declared severity, as the decorator's policy says. |
| Dispatch.StepCallOutcomes | data_quality/utills.py:96-100 | A routine that raises makes the step re-raise `CheckRaised` after its call. A passed rule without `column` fails with `MissingColumn`. Any other member fails with `MemberRaised` iff calling it raises, and otherwise leaves just its call. |
| Dispatch.StepMissingSeverityIsHigh | data_quality/utills.py:93 | A declaration without `severity` is dispatched like one with `severity: HIGH`. |
| Dispatch.Dispatch | data_quality/utills.py:90-100 | The run's result has one slot per declaration. That it is the loop over the declarations' steps is stated by `DispatchIsRun`, its completion by `DispatchCompletes`, its events by `DispatchCompletedEvents`, and its abort by `DispatchAborts`. |
| Dispatch.Steps | data_quality/utills.py:91-97 | The j-th step is the step of declaration j. |
| Dispatch.Run | data_quality/utills.py:90-100 | The loop over given steps keeps one slot per declaration. |
| Dispatch.DispatchIsRun | data_quality/utills.py:90-100 | The run is the loop over the steps of its declarations, each looked at on its own. |
| Dispatch.RunCompletes | data_quality/utills.py:90-100 | The loop completes iff no step fails. Every slot is then what its step left. |
| Dispatch.StepEvents | data_quality/utills.py:91-97 | The j-th list is the events of step j. |
| Dispatch.RunCompletedEvents | data_quality/utills.py:90-97 | A loop that completes has exactly the events of its steps, joined in the order of the steps. |
| Dispatch.DispatchCompletedEvents | data_quality/utills.py:90-97 | A completed run has exactly the events of its declarations' steps, joined in declaration order: no call is left out, repeated or moved. |
| Dispatch.DispatchCompletes | data_quality/utills.py:90-100 | A run completes iff every declaration's step succeeds. Every declaration has then lost `severity`. |
| Dispatch.RunPrefix | data_quality/utills.py:90-97 | Steps that all succeed run, in order, before the rest of the list is looked at. The result is their slots and events followed by the loop over the rest. |
| Dispatch.RunAborts | data_quality/utills.py:98-100 | At the first failing step k, the loop logs one error and re-raises it. The slots after k are unchanged. |
| Dispatch.DispatchAborts | data_quality/utills.py:98-100 | At the first failing declaration k, the run logs one error and re-raises it. Declarations after k are neither dispatched nor changed. The events are those of declarations 0..k. |
| Dispatch.RunFailureHasFirst | data_quality/utills.py:90-100 | A failing loop yields the index of its first failing step. |
| Dispatch.FailureHasFirst | data_quality/utills.py:90-100 | A failed run has a first failing declaration. |
| Dispatch.RunSameSteps | data_quality/utills.py:90-100 | Two lists with the same steps give the same events and failure, and the same slots when the loop completes. |
| Dispatch.RerunSeesHigh | data_quality/utills.py:93 | A second run over the popped declarations behaves as if every declaration said HIGH. |
| Dispatch.RunOneEventEach | data_quality/utills.py:90-96 | Steps that each succeed with one event give a completed loop with exactly those events, in order. |
| Dispatch.AllPassedRun | data_quality/utills.py:90-96 | When every rule passes, the run makes exactly one call per declaration, in order, and logs nothing. |
| Dispatch.RunEvents | data_quality/utills.py:90-100 | When every step's events are rule calls or log records, so are the loop's: it adds only error records. |
| Dispatch.StepMakesEngineEvents | data_quality/utills.py:96-100 | A step's events are only its call and the decorator's log records. |
| Dispatch.DispatchEvents | data_quality/utills.py:90-100 | Every event of a run is a rule call or a log record. |
| Dispatch.InPlaceTurn | data_quality/utills.py:91-100 | One turn of the loop: slot i takes what its step left. The run then either goes on with the rest or stops with the logged error. |
| Dispatch.RunInPlace | data_quality/utills.py:90-100 | The in-place loop over the array, for any step function, computes `Run` over those steps: the slots, the events and the failure. |
| Dispatch.DispatchInPlace | data_quality/utills.py:90-100 | The in-place loop over the array computes `Dispatch`: the popped slots, the events and the failure. |
| Dispatch.SelectRules | data_quality/utills.py:88 | The jmespath selection, as a definition. What each branch yields is stated by `Values.ProjectAll` and `Values.ProjectField`, and the query path's selection by `Orchestration.PairTurn`. |
| Dispatch.RunYamlRules | data_quality/utills.py:83-100 | A selection that is not a list fails with no event. Anything else is dispatched in order. |
| Orchestration.GenericQuery | data_quality/generate.py:45 | The query is `SELECT * FROM ` followed by the table name: the string itself, or `str` of any other value. |
| Orchestration.PopEntry | data_quality/utills.py:93 | An entry whose declaration was popped keeps its keys and every field except `rules_dq`, which becomes its popped declaration. An entry that is not a dictionary, or has no `rules_dq`, is unchanged. |
| Orchestration.PopRulesDq | data_quality/utills.py:93 | The document as the next query run sees it, through the dictionaries it shares with the engine. A list section stays a list section, and its entries are the popped entries. Any other document is unchanged. |
| Orchestration.QueryPairs | data_quality/generate.py:33-35 | The `zip` loop from pair i on, as a function. Its meaning is stated by `PairTurn`, `QueryPairsInOrder` and `QueryPairsLastFrame`, and `RunQueryPairs` computes it. |
| Orchestration.QueryPath | data_quality/generate.py:24-35 | The query path, as a definition: render every query, then zip them with `yaml_file['query_dq']`. Its failures are stated by `RenderFailureBeforeAnyFrame`, `LaterRenderFailureRequestsNoFrame`, `NullQuerySectionRaises` and `SectionsGatePaths`. |
| Orchestration.RenderFailureBeforeAnyFrame | data_quality/generate.py:30-35 | A rendering that fails ends the query path with that error and no event: no dataframe is requested. |
| Orchestration.LaterRenderFailureRequestsNoFrame | data_quality/rules.py:328-336 | When entries 0..k-1 render and entry k fails, the query path ends with entry k's error and no event, although the earlier queries were ready. |
| Orchestration.GenericSelection | data_quality/generate.py:39 | jmespath `rules[*]`, through `Values.ProjectAll`. |
| Orchestration.Format | data_quality/generate.py:45 | The text an f-string gives a value, as used by `GenericQuery`. |
| Orchestration.ItemStep | data_quality/generate.py:43-51 | One item of the generic loop. Its three kinds of item are stated by `ParametersItemBuildsFrame`, `ExpectationsItemUsesCurrentFrame` and `OtherItemIsSkipped`. |
| Orchestration.GenericItems | data_quality/generate.py:41-51 | The generic loop, as a function. `GenericItemsSplit` and `FrameFlowsToNextItem` state how it carries `df`, and `RunGenericItems` computes it. |
| Orchestration.GenericPath | data_quality/generate.py:38-51 | The generic path: `rules[*]`, then the loop. |
| Orchestration.Execute | data_quality/generate.py:19-51 | `execute_rules`, as a function. Its gating and ordering are stated by `SectionsGatePaths` and the other path lemmas, and `RunRules.ExecuteRules` computes it. |
| Orchestration.PopRulesDqIdempotent | data_quality/utills.py:93 | Popping a second time changes nothing more. |
| Orchestration.PluckPopEntries | data_quality/utills.py:88-93 | Selecting from the popped entries gives the popped selection. |
| Orchestration.CompletedRunWritesBack | data_quality/generate.py:33-35 | A completed query run leaves exactly its in-place result in the document. That result is what the next run selects. |
| Orchestration.LaterQueryRunsSeeHigh | data_quality/generate.py:33-35 | Every query run after the first dispatches each declaration as HIGH. |
| Orchestration.NestedRuleListsAbort | data_quality/generate.py:35 | When every `rules_dq` is a list, the first query run requests its dataframe, starts the engine, and fails with one error on the first rule list. |
| Orchestration.DispatchMakesNoCall | data_quality/utills.py:90-100 | The engine requests no dataframe and starts no engine. |
| Orchestration.PairCallsFromEvents | data_quality/generate.py:33-35 | A pair's calls are its dataframe request and its engine run, followed by the calls of the pairs after it. The engine's own events add none. |
| Orchestration.QueryPairCalls | data_quality/generate.py:33-35 | A completed pair requests its dataframe, then runs the rules once. |
| Orchestration.ShiftPairs | data_quality/generate.py:33-35 | Pair i's two calls, put before the ordered calls of the pairs after it, are the ordered calls from pair i. The later pairs start from the popped document. |
| Orchestration.QueryPairsInOrder | data_quality/generate.py:33-35 | A completed query path requests one dataframe per pair, pairing the j-th query with the j-th entry, in order. Each dataframe gets one run over the whole document with `key_path='rules_dq'` (`InOrder`). |
| Orchestration.PairAtShift | data_quality/generate.py:33-35 | A pair's two calls keep their order behind any prefix of calls. |
| Orchestration.GenericItemsSplit | data_quality/generate.py:41-51 | Once the first k items complete, the rest of the loop runs from the `df` they leave, after their events. |
| Orchestration.GenericItemsTwo | data_quality/generate.py:41-51 | In a loop over two items whose first completes, the second starts from the first's `df`. |
| Orchestration.FrameFlowsToNextItem | data_quality/generate.py:43-51 | A `parameters` item followed by an `expectations` item requests the table, then runs the second item's rules against the dataframe just built, whatever `df` held before. |
| Orchestration.JoinItemTrails | data_quality/generate.py:41-51 | Two item steps joined: the first one's single event, then the second one's events, failure and `df`. |
| Orchestration.CompletedPairGoesOn | data_quality/generate.py:33-35 | A completed pair built its dataframe. The pairs after it complete too and leave the final `df`. |
| Orchestration.QueryPairsLastFrame | data_quality/generate.py:33-34 | After the query path, `df` is the dataframe of the last pair. |
| Orchestration.NullQuerySectionRaises | data_quality/generate.py:30-33 | A null `query_dq` renders no query, but the `zip` with it raises. |
| Orchestration.ParametersItemBuildsFrame | data_quality/generate.py:43-48 | A `parameters` item makes exactly the request `SELECT * FROM <table_name>` and rebinds `df`. Its `expectations` do not run. |
| Orchestration.ExpectationsItemUsesCurrentFrame | data_quality/generate.py:49-51 | An `expectations` item runs its rules on the current `df`, with `key_path` None, and keeps `df`. Without a dataframe it fails with `UnboundLocalError`. |
| Orchestration.OtherItemIsSkipped | data_quality/generate.py:41-51 | An item with neither key does nothing. |
| Orchestration.UnreadableDocumentFails | data_quality/generate.py:20-23 | An unreadable document fails at the first `in`. |
| Orchestration.SectionsGatePaths | data_quality/generate.py:23-51 | The query path runs only with `query_dq`, and the generic path only with `rules`. With both, the query path runs first and the generic path starts from its `df`. |
| Orchestration.ExpectationsBeforeAnyFrameFail | data_quality/generate.py:38-51 | Without `query_dq`, a first generic item with only `expectations` fails with `UnboundLocalError`. |
| Orchestration.QueryFrameReachesGenericRules | data_quality/generate.py:34-51 | A first generic `expectations` item is validated against the last query-path dataframe. |
| Orchestration.PairTurn | data_quality/generate.py:33-35 | One turn of the `zip` loop has three outcomes. A failed `BuildDF` ends the run with `QueryFailed`, and failing rules end it with their failure. Otherwise the run goes on from the popped document and the new `df`. |
| Orchestration.RunQueryPairs | data_quality/generate.py:33-35 | The `zip` loop computes `QueryPairs`. |
| Orchestration.RunGenericItems | data_quality/generate.py:41-51 | The generic loop computes `GenericItems`. |
| Orchestration.RunRules.constructor | data_quality/generate.py:10-17 | `bucket_artifact` is stored with every `-env-` substituted once. The other arguments are stored unchanged. |
| Orchestration.RunRules.BuildSqlTemplate | data_quality/utills.py:53-72 | Gives the queries of `self.yaml_file` with the environment substituted twice. |
| Orchestration.RunRules.ExecuteRules | data_quality/generate.py:19-51 | The run stores the document it loads in `self.yaml_file`, gives the trace and failure of `Execute`, and leaves the other fields unchanged. |

## Left out

- Storage and warehouse I/O are function parameters that always give the same answer for the same arguments: `read_s3_yaml`, `read_s3_text` and `BuildDF`. As a result, the second read of the document by `BuildTemplate` returns the same document. A read or query that raises is an absent result. The AWS clients, `check_s3_file_exists`, and the printing inside the readers are not modelled.
- great_expectations is not modelled. An engine is a map from attribute names to either an expectation routine that returns a result record or raises, or another member of which only "does the call raise" matters. `DefineGe` and the engine's construction are assumed not to raise. The eight `Expect*` routines are not modelled one by one.
- Jinja2 rendering is a total function of the template text and the parameters. Rendering errors are not modelled.
- jmespath is modelled only for the three selections the code uses: `[*]` and `query_dq[*].<field>` in `run_yaml_rules`, and `rules[*]` in `execute_rules`.
- `time_execution`, log message text, ANSI formatting and `logger.info("Execute Custom Query")` are left out. Log records are abstract trace entries that carry their diagnostic.
- YAML mapping keys are modelled as strings. A declaration with a non-string key would raise a `TypeError` at the `**rule` call (data_quality/utills.py:96); that case is not modelled.
- Exceptions are modelled by kind only (`Outcomes.Failure`), not by message.
- `unexpected_percent` is opaque text. YAML floats are kept as their text.
- Expectation.Wrap: requires a `severity` keyword argument to be a `SeverityLevel` member. The dispatcher always passes one. A direct call with another value, which would fail at `severity.name`, is not modelled.
- The `else` branch at data_quality/rules.py:80-84 is not modelled. A result's `success` is assumed to be a boolean (`ValidationResult.success: bool`). A result whose `success` is neither True nor False would log there.
- Object identity is not modelled beyond the one case where it changes behaviour: the query path re-reading the declarations an earlier run popped (`Orchestration.PopRulesDq`). Not modelled:
  - the pops a run makes before it aborts;
  - the pops the generic path makes in `self.yaml_file`;
  - the copy of the document kept in `self.files`;
  - declarations shared through YAML anchors.

  None of these is read again by the code.
- The attributes `self.files` and `self.utills` of `RunRules` are not fields of the model. `column_partition` and `value_partition` are stored but used nowhere by the code.
- `UtillsExecution.build_sql_template` reads `self.yaml_file`, which only `RunRules.execute_rules` sets. It is modelled as `Orchestration.RunRules.BuildSqlTemplate` over that field.
