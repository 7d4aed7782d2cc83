/** `RunRules` of data_quality/generate.py: the entry point. It loads the
    rule document, runs the custom queries of `query_dq` (each against the
    rules of the whole document under `rules_dq`), then the generic `rules`
    items, which either build a dataframe from a table (`parameters`) or
    validate the last dataframe built (`expectations`). */
module Orchestration {
  import opened Results
  import opened Strings
  import opened Values
  import opened Outcomes
  import opened Route
  import opened Dispatch
  import opened Templates

  /** The collaborators of a run: `read_s3_yaml` (null when the read or the
      parse fails), the template I/O, `BuildDF(sql_query, parameters)`
      (`None` when the query raises), the engine `QARulesPandas(df, ...)`
      that a dataframe gives, and `str` of a value inside an f-string. */
  datatype Collaborators = Collaborators(
    readYaml: (string, string) -> Value,
    io: Io,
    buildDf: (string, Value) -> Option<Frame>,
    engineFor: Frame -> Engine,
    show: Value -> string)

  /** What a stretch of the run leaves: its events, the failure that ends
      it (if any) and the dataframe bound to the local `df` at its end. */
  datatype Trail = Trail(events: seq<Event>, failure: Option<Failure>, df: Option<Frame>)

  /** `events`, followed by the stretch `t`. */
  function Then(events: seq<Event>, t: Trail): Trail {
    Trail(events + t.events, t.failure, t.df)
  }

  lemma ThenAssoc(e1: seq<Event>, e2: seq<Event>, t: Trail)
    ensures Then(e1, Then(e2, t)) == Then(e1 + e2, t)
  {
    assert e1 + (e2 + t.events) == (e1 + e2) + t.events;
  }

  // ---------------------------------------------------------------------
  // The query path

  /** `yaml_file['query_dq']` is a list. */
  predicate ListSection(doc: Value) {
    Subscript(doc, "query_dq").Some? && Subscript(doc, "query_dq").value.List?
  }

  /** The entries of a list section. */
  function Entries(doc: Value): seq<Value> {
    match Subscript(doc, "query_dq")
    case Some(List(xs)) => xs
    case _ => []
  }

  /** `query_dq[*].rules_dq`: the rule list every query-path engine walks. */
  function QueryRules(doc: Value): seq<Value> {
    Pluck(Entries(doc), "rules_dq")
  }

  /** An entry once the engine has popped `severity` from its `rules_dq`
      declaration (a completed run pops every declaration it walks). */
  function PopEntry(e: Value): (r: Value)
    ensures r.Dict? <==> e.Dict?
    ensures e.Dict? ==> (r.fields.Keys == e.fields.Keys &&
      forall k :: k in e.fields && k != "rules_dq" ==> r.fields[k] == e.fields[k])
    ensures e.Dict? && "rules_dq" in e.fields ==> r.fields["rules_dq"] == Popped(e.fields["rules_dq"])
    ensures !e.Dict? || "rules_dq" !in e.fields ==> r == e
  {
    if e.Dict? && "rules_dq" in e.fields then Dict(e.fields["rules_dq" := Popped(e.fields["rules_dq"])]) else e
  }

  function PopEntries(xs: seq<Value>): (r: seq<Value>)
    ensures |r| == |xs|
    ensures forall i :: 0 <= i < |xs| ==> r[i] == PopEntry(xs[i])
  {
    if xs == [] then [] else [PopEntry(xs[0])] + PopEntries(xs[1..])
  }

  /** The document as the next query run sees it: the declarations the
      previous run popped are the document's own dictionaries. */
  function PopRulesDq(doc: Value): (r: Value)
    ensures ListSection(doc) ==> ListSection(r) && Entries(r) == PopEntries(Entries(doc))
    ensures !ListSection(doc) ==> r == doc
  {
    if ListSection(doc) then Dict(doc.fields["query_dq" := List(PopEntries(Entries(doc)))]) else doc
  }

  /** The `zip` loop from pair `i` on: `BuildDF(query, parameters)`, then
      `QARulesPandas(df, yaml_file, 'rules_dq').run()` over the whole
      document, and the first failure ends the run. */
  function QueryPairs(c: Collaborators, queries: seq<string>, i: nat, doc: Value, df: Option<Frame>): Trail
    requires i <= |queries| && ListSection(doc) && |Entries(doc)| == |queries|
    decreases |queries| - i
  {
    if i == |queries| then Trail([], None, df)
    else
      var sql := queries[i];
      var parameters := Entries(doc)[i];
      match c.buildDf(sql, parameters)
      case None => Trail([FrameRequested(sql, parameters)], Some(QueryFailed(sql)), df)
      case Some(frame) =>
        var run := Dispatch.Dispatch(c.engineFor(frame), QueryRules(doc));
        var head := [FrameRequested(sql, parameters), RulesRun(frame, doc, Some("rules_dq"))] + run.events;
        if run.failure.Some? then Trail(head, run.failure, Some(frame))
        else Then(head, QueryPairs(c, queries, i + 1, PopRulesDq(doc), Some(frame)))
  }

  /** The query path on the document `BuildTemplate` loaded: the queries are
      rendered, then zipped with `yaml_file['query_dq']`; `zip` with a null
      section raises, and an empty string or mapping gives no pair. */
  function QueryPath(c: Collaborators, doc: Value, environment: string): Trail {
    match QueryList(c.io, doc, environment, false)
    case Err(e) => Trail([], Some(e), None)
    case Ok(queries) =>
      match Subscript(doc, "query_dq")
      case Some(List(xs)) => QueryPairs(c, queries, 0, doc, None)
      case Some(Null) => Trail([], Some(NotIterable), None)
      case _ => Trail([], None, None)
  }

  // ---------------------------------------------------------------------
  // The generic path

  /** jmespath `rules[*]` of the document. */
  function GenericSelection(doc: Value): Option<seq<Value>> {
    match Subscript(doc, "rules")
    case Some(v) => ProjectAll(v)
    case None => None
  }

  /** The text an f-string gives a value. */
  function Format(show: Value -> string, v: Value): string {
    if v.Str? then v.s else show(v)
  }

  /** The query of a `parameters` item. */
  function GenericQuery(show: Value -> string, tableName: Value): (sql: string)
    ensures |sql| >= 14 && sql[..14] == "SELECT * FROM "
    ensures tableName.Str? ==> sql[14..] == tableName.s
    ensures !tableName.Str? ==> sql[14..] == show(tableName)
  {
    "SELECT * FROM " + Format(show, tableName)
  }

  /** One item of the generic loop: `if 'parameters' in item` builds a
      dataframe from `item['parameters']['table_name']` and rebinds `df`;
      `elif 'expectations' in item` runs the rules of
      `item['expectations']` against the current `df`; any other item is
      skipped. */
  function ItemStep(c: Collaborators, item: Value, df: Option<Frame>): Trail {
    match Contains(item, "parameters")
    case None => Trail([], Some(NotIterable), df)
    case Some(true) =>
      (match Subscript(item, "parameters")
       case None => Trail([], Some(BadShape("parameters")), df)
       case Some(p) =>
         match Subscript(p, "table_name")
         case None => Trail([], Some(BadShape("table_name")), df)
         case Some(t) =>
           var sql := GenericQuery(c.show, t);
           match c.buildDf(sql, item)
           case None => Trail([FrameRequested(sql, item)], Some(QueryFailed(sql)), df)
           case Some(frame) => Trail([FrameRequested(sql, item)], None, Some(frame)))
    case Some(false) =>
      if Contains(item, "expectations") != Some(true) then Trail([], None, df)
      else
        match df
        case None => Trail([], Some(UnboundFrame), df)
        case Some(frame) =>
          match Subscript(item, "expectations")
          case None => Trail([], Some(BadShape("expectations")), df)
          case Some(exps) =>
            var run := [RulesRun(frame, exps, None)];
            match SelectRules(exps, None)
            case None => Trail(run, Some(NotIterable), df)
            case Some(rules) =>
              var d := Dispatch.Dispatch(c.engineFor(frame), rules);
              Trail(run + d.events, d.failure, df)
  }

  /** The generic loop over the items. */
  function GenericItems(c: Collaborators, items: seq<Value>, df: Option<Frame>): Trail {
    if items == [] then Trail([], None, df)
    else
      var s := ItemStep(c, items[0], df);
      if s.failure.Some? then s else Then(s.events, GenericItems(c, items[1..], s.df))
  }

  /** The generic path: `for item in jmespath.search('rules[*]', ...)`. */
  function GenericPath(c: Collaborators, doc: Value, df: Option<Frame>): Trail {
    match GenericSelection(doc)
    case None => Trail([], Some(NotIterable), df)
    case Some(items) => GenericItems(c, items, df)
  }

  /** `execute_rules()`: the document is read, the query path runs when it
      has `query_dq` (on a second read, by `BuildTemplate`), then the
      generic path when it has `rules`, starting from the query path's
      `df`. */
  function Execute(c: Collaborators, bucketArtifact: string, sourceFileYaml: string, environment: string): Trail {
    var doc := c.readYaml(bucketArtifact, sourceFileYaml);
    match Contains(doc, "query_dq")
    case None => Trail([], Some(NoDocument), None)
    case Some(hasQuery) =>
      var q := if hasQuery then QueryPath(c, c.readYaml(bucketArtifact, sourceFileYaml), environment)
               else Trail([], None, None);
      if q.failure.None? && Contains(doc, "rules") == Some(true) then Then(q.events, GenericPath(c, doc, q.df))
      else q
  }

  // ---------------------------------------------------------------------
  // Properties of the query path

  lemma PoppedIdempotent(v: Value)
    ensures Popped(Popped(v)) == Popped(v)
  {
    if v.Dict? {
      assert v.fields - {"severity"} - {"severity"} == v.fields - {"severity"};
    }
  }

  lemma PopEntryIdempotent(e: Value)
    ensures PopEntry(PopEntry(e)) == PopEntry(e)
  {
    if e.Dict? && "rules_dq" in e.fields {
      PoppedIdempotent(e.fields["rules_dq"]);
      var m := e.fields["rules_dq" := Popped(e.fields["rules_dq"])];
      assert m["rules_dq" := Popped(m["rules_dq"])] == m;
    }
  }

  /** Popping is done once: a second completed run changes nothing more. */
  lemma PopRulesDqIdempotent(doc: Value)
    ensures PopRulesDq(PopRulesDq(doc)) == PopRulesDq(doc)
  {
    if ListSection(doc) {
      var xs := Entries(doc);
      forall i | 0 <= i < |xs| ensures PopEntry(PopEntry(xs[i])) == PopEntry(xs[i]) {
        PopEntryIdempotent(xs[i]);
      }
      assert PopEntries(PopEntries(xs)) == PopEntries(xs);
      var m := doc.fields["query_dq" := List(PopEntries(xs))];
      assert m["query_dq" := List(PopEntries(PopEntries(xs)))] == m;
    }
  }

  /** The selection of the popped entries is the popped selection. */
  lemma {:induction false} PluckPopEntries(xs: seq<Value>)
    ensures Pluck(PopEntries(xs), "rules_dq") == PoppedAll(Pluck(xs, "rules_dq"))
  {
    if xs != [] {
      PluckPopEntries(xs[1..]);
      assert PopEntries(xs)[1..] == PopEntries(xs[1..]);
      var e := xs[0];
      if e.Dict? && "rules_dq" in e.fields {
        assert Subscript(PopEntry(e), "rules_dq") == Some(Popped(e.fields["rules_dq"]));
      }
    }
  }

  /** What the next query run sees is what the completed run left in
      place: the popped declarations of the in-place loop. */
  lemma CompletedRunWritesBack(engine: Engine, doc: Value)
    requires ListSection(doc)
    requires Dispatch.Dispatch(engine, QueryRules(doc)).failure.None?
    ensures QueryRules(PopRulesDq(doc)) == Dispatch.Dispatch(engine, QueryRules(doc)).after
  {
    DispatchCompletes(engine, QueryRules(doc));
    PluckPopEntries(Entries(doc));
  }

  /** Every query run after the first dispatches each declaration as HIGH,
      whatever severity the document gives it. */
  lemma LaterQueryRunsSeeHigh(engine: Engine, doc: Value)
    requires ListSection(doc)
    ensures var later := Dispatch.Dispatch(engine, QueryRules(PopRulesDq(doc)));
      var high := Dispatch.Dispatch(engine, WithHighAll(QueryRules(doc)));
      later.events == high.events && later.failure == high.failure
  {
    PluckPopEntries(Entries(doc));
    RerunSeesHigh(engine, QueryRules(doc));
  }

  /** With the documented layout, where every entry's `rules_dq` is a list
      of declarations, `query_dq[*].rules_dq` is a list of lists and the
      first query run stops at once: `.get` of a list raises. */
  lemma {:induction false} NestedRuleListsAbort(c: Collaborators, queries: seq<string>, doc: Value, frame: Frame)
    requires ListSection(doc) && |Entries(doc)| == |queries| && |queries| > 0
    requires forall i :: 0 <= i < |queries| ==>
      Entries(doc)[i].Dict? && "rules_dq" in Entries(doc)[i].fields && Entries(doc)[i].fields["rules_dq"].List?
    requires c.buildDf(queries[0], Entries(doc)[0]) == Some(frame)
    ensures var nested := Entries(doc)[0].fields["rules_dq"];
      QueryPairs(c, queries, 0, doc, None) == Trail(
        [FrameRequested(queries[0], Entries(doc)[0]), RulesRun(frame, doc, Some("rules_dq")),
         Logged(Error(NotAMapping(nested)))],
        Some(NotAMapping(nested)), Some(frame))
  {
    var xs := Entries(doc);
    assert Pluck(xs, "rules_dq") == [xs[0].fields["rules_dq"]] + Pluck(xs[1..], "rules_dq");
  }

  /** The calls a run makes into its collaborators. */
  predicate IsCall(e: Event) {
    e.FrameRequested? || e.RulesRun?
  }

  function Calls(events: seq<Event>): (r: seq<Event>)
    ensures forall e :: e in r <==> e in events && IsCall(e)
  {
    if events == [] then []
    else (if IsCall(events[0]) then [events[0]] else []) + Calls(events[1..])
  }

  lemma {:induction false} CallsAppend(a: seq<Event>, b: seq<Event>)
    ensures Calls(a + b) == Calls(a) + Calls(b)
  {
    if a == [] {
      assert a + b == b;
    } else {
      assert (a + b)[0] == a[0] && (a + b)[1..] == a[1..] + b;
      CallsAppend(a[1..], b);
    }
  }

  lemma NoCalls(events: seq<Event>)
    requires forall e :: e in events ==> !IsCall(e)
    ensures Calls(events) == []
  {
    if Calls(events) != [] {
      assert Calls(events)[0] in Calls(events);
    }
  }

  /** The engine itself calls no collaborator: its events are calls of
      rules and log records. */
  lemma DispatchMakesNoCall(engine: Engine, rules: seq<Value>)
    ensures Calls(Dispatch.Dispatch(engine, rules).events) == []
  {
    DispatchEvents(engine, rules);
    NoCalls(Dispatch.Dispatch(engine, rules).events);
  }

  /** The two calls of a pair, the engine's events (which are no calls)
      and the rest of the run. */
  lemma PairCallsFromEvents(requested: Event, run: Event, engineEvents: seq<Event>, restEvents: seq<Event>)
    requires requested.FrameRequested? && run.RulesRun?
    requires Calls(engineEvents) == []
    ensures Calls([requested, run] + engineEvents + restEvents) == [requested, run] + Calls(restEvents)
  {
    var two := [requested, run];
    assert Calls([run]) == [run] by { assert [run][1..] == []; }
    assert Calls(two) == two by { assert two[1..] == [run]; }
    CallsAppend(two, engineEvents);
    CallsAppend(two + engineEvents, restEvents);
    assert Calls(two + engineEvents) == two + [];
  }

  /** One completed pair requests its dataframe and runs the rules once,
      then the rest of the pairs go on from the popped document. */
  lemma QueryPairCalls(c: Collaborators, queries: seq<string>, i: nat, doc: Value, df: Option<Frame>)
    requires i < |queries| && ListSection(doc) && |Entries(doc)| == |queries|
    requires QueryPairs(c, queries, i, doc, df).failure.None?
    ensures var parameters := Entries(doc)[i];
      && c.buildDf(queries[i], parameters).Some?
      && var frame := c.buildDf(queries[i], parameters).value;
      var rest := QueryPairs(c, queries, i + 1, PopRulesDq(doc), Some(frame));
      && rest.failure.None?
      && Calls(QueryPairs(c, queries, i, doc, df).events) ==
           [FrameRequested(queries[i], parameters), RulesRun(frame, doc, Some("rules_dq"))] + Calls(rest.events)
  {
    var sql, parameters := queries[i], Entries(doc)[i];
    var frame := c.buildDf(sql, parameters).value;
    var run := Dispatch.Dispatch(c.engineFor(frame), QueryRules(doc));
    var rest := QueryPairs(c, queries, i + 1, PopRulesDq(doc), Some(frame));
    DispatchMakesNoCall(c.engineFor(frame), QueryRules(doc));
    PairCallsFromEvents(FrameRequested(sql, parameters), RulesRun(frame, doc, Some("rules_dq")), run.events, rest.events);
  }

  /** `calls` hold, from index `at`, the two calls of one pair: the
      request of a dataframe for `sql` with `parameters`, then one run of
      the rules of `runDoc` under `rules_dq` on that dataframe. */
  predicate PairAt(c: Collaborators, sql: string, parameters: Value, runDoc: Value, calls: seq<Event>, at: nat) {
    && at + 1 < |calls|
    && c.buildDf(sql, parameters).Some?
    && calls[at] == FrameRequested(sql, parameters)
    && calls[at + 1] == RulesRun(c.buildDf(sql, parameters).value, runDoc, Some("rules_dq"))
  }

  /** A pair's calls stay a pair's calls behind a prefix. */
  lemma PairAtShift(c: Collaborators, sql: string, parameters: Value, runDoc: Value,
                    prefix: seq<Event>, rest: seq<Event>, at: nat, whole: seq<Event>, shifted: nat)
    requires PairAt(c, sql, parameters, runDoc, rest, at)
    requires whole == prefix + rest && shifted == |prefix| + at
    ensures PairAt(c, sql, parameters, runDoc, whole, shifted)
  {
    assert whole[shifted] == rest[at];
    assert whole[shifted + 1] == rest[at + 1];
  }

  /** `calls` are the calls of a completed query path from pair `i` on:
      one dataframe per pair, the `j`-th query with the `j`-th entry, in
      order, each followed by one run of the rules of the whole document
      under `rules_dq` on that dataframe. From the second pair on, the
      entries and the document are those the earlier runs popped. */
  predicate InOrder(c: Collaborators, queries: seq<string>, i: nat, doc: Value, calls: seq<Event>)
    requires i <= |queries| && ListSection(doc) && |Entries(doc)| == |queries|
  {
    && |calls| == 2 * (|queries| - i)
    && forall j :: i <= j < |queries| ==>
         PairAt(c, queries[j], if j == i then Entries(doc)[j] else PopEntry(Entries(doc)[j]),
                if j == i then doc else PopRulesDq(doc), calls, 2 * (j - i))
  }

  /** Putting pair `i` in front of the calls of the pairs after it, which
      start from the popped document, keeps them in order. */
  lemma ShiftPairs(c: Collaborators, queries: seq<string>, i: nat, doc: Value, frame: Frame, calls: seq<Event>, restCalls: seq<Event>)
    requires i < |queries| && ListSection(doc) && |Entries(doc)| == |queries|
    requires c.buildDf(queries[i], Entries(doc)[i]) == Some(frame)
    requires calls == [FrameRequested(queries[i], Entries(doc)[i]), RulesRun(frame, doc, Some("rules_dq"))] + restCalls
    requires InOrder(c, queries, i + 1, PopRulesDq(doc), restCalls)
    ensures InOrder(c, queries, i, doc, calls)
  {
    var next := PopRulesDq(doc);
    var pair := [FrameRequested(queries[i], Entries(doc)[i]), RulesRun(frame, doc, Some("rules_dq"))];
    PopRulesDqIdempotent(doc);
    forall j | i < j < |queries|
      ensures PairAt(c, queries[j], PopEntry(Entries(doc)[j]), next, calls, 2 * (j - i))
    {
      PopEntryIdempotent(Entries(doc)[j]);
      assert Entries(next)[j] == PopEntry(Entries(doc)[j]);
      assert PairAt(c, queries[j], PopEntry(Entries(doc)[j]), next, restCalls, 2 * (j - (i + 1)));
      PairAtShift(c, queries[j], PopEntry(Entries(doc)[j]), next, pair, restCalls, 2 * (j - (i + 1)), calls, 2 * (j - i));
    }
  }

  /** A query path that completes makes its calls in order. */
  lemma {:induction false} QueryPairsInOrder(c: Collaborators, queries: seq<string>, i: nat, doc: Value, df: Option<Frame>)
    requires i <= |queries| && ListSection(doc) && |Entries(doc)| == |queries|
    requires QueryPairs(c, queries, i, doc, df).failure.None?
    ensures InOrder(c, queries, i, doc, Calls(QueryPairs(c, queries, i, doc, df).events))
    decreases |queries| - i
  {
    if i < |queries| {
      QueryPairCalls(c, queries, i, doc, df);
      var frame := c.buildDf(queries[i], Entries(doc)[i]).value;
      var rest := QueryPairs(c, queries, i + 1, PopRulesDq(doc), Some(frame));
      QueryPairsInOrder(c, queries, i + 1, PopRulesDq(doc), Some(frame));
      ShiftPairs(c, queries, i, doc, frame, Calls(QueryPairs(c, queries, i, doc, df).events), Calls(rest.events));
    }
  }

  // ---------------------------------------------------------------------
  // Properties of the generic path

  /** A `parameters` item requests exactly `SELECT * FROM <table_name>`
      and rebinds `df` to the result. Its `expectations`, if any, are not
      run, and the `df` it replaces does not matter. */
  lemma ParametersItemBuildsFrame(c: Collaborators, item: Value, df: Option<Frame>)
    requires item.Dict? && "parameters" in item.fields
    requires Subscript(item.fields["parameters"], "table_name").Some?
    ensures var sql := GenericQuery(c.show, item.fields["parameters"].fields["table_name"]);
      var s := ItemStep(c, item, df);
      && s.events == [FrameRequested(sql, item)]
      && (c.buildDf(sql, item).None? ==> s.failure == Some(QueryFailed(sql)) && s.df == df)
      && (c.buildDf(sql, item).Some? ==> s.failure.None? && s.df == c.buildDf(sql, item))
  {
  }

  /** An `expectations` item (without `parameters`) runs its rules against
      whatever `df` holds and leaves it bound; before any dataframe was
      built it fails with `UnboundLocalError`. */
  lemma ExpectationsItemUsesCurrentFrame(c: Collaborators, item: Value, df: Option<Frame>)
    requires item.Dict? && "parameters" !in item.fields && "expectations" in item.fields
    ensures var s := ItemStep(c, item, df);
      var exps := item.fields["expectations"];
      && s.df == df
      && (df.None? ==> s == Trail([], Some(UnboundFrame), None))
      && (df.Some? && exps.List? ==>
           var d := Dispatch.Dispatch(c.engineFor(df.value), ProjectAll(exps).value);
           s == Trail([RulesRun(df.value, exps, None)] + d.events, d.failure, df))
      && (df.Some? && !exps.List? ==> s == Trail([RulesRun(df.value, exps, None)], Some(NotIterable), df))
  {
  }

  /** An item with neither key is skipped. */
  lemma OtherItemIsSkipped(c: Collaborators, item: Value, df: Option<Frame>)
    requires item.Dict? && "parameters" !in item.fields && "expectations" !in item.fields
    ensures ItemStep(c, item, df) == Trail([], None, df)
  {
  }

  /** The generic loop carries `df` from item to item: once the first `k`
      items complete, the rest of the loop starts from the `df` they leave. */
  lemma {:induction false} GenericItemsSplit(c: Collaborators, items: seq<Value>, df: Option<Frame>, k: nat)
    requires k <= |items|
    requires GenericItems(c, items[..k], df).failure.None?
    ensures var first := GenericItems(c, items[..k], df);
      GenericItems(c, items, df) == Then(first.events, GenericItems(c, items[k..], first.df))
    decreases k
  {
    if k == 0 {
      assert items[..0] == [] && items[0..] == items;
      var t := GenericItems(c, items, df);
      assert [] + t.events == t.events;
    } else {
      var s := ItemStep(c, items[0], df);
      var front := items[..k];
      assert front[0] == items[0] && front[1..] == items[1..][..k - 1];
      GenericItemsSplit(c, items[1..], s.df, k - 1);
      assert items[1..][k - 1..] == items[k..];
      var mid := GenericItems(c, items[1..][..k - 1], s.df);
      ThenAssoc(s.events, mid.events, GenericItems(c, items[k..], mid.df));
    }
  }

  /** A loop over two items whose first completes: the second starts
      from the `df` the first leaves. */
  lemma GenericItemsTwo(c: Collaborators, a: Value, b: Value, df: Option<Frame>)
    requires ItemStep(c, a, df).failure.None?
    ensures var sa := ItemStep(c, a, df);
      var sb := ItemStep(c, b, sa.df);
      GenericItems(c, [a, b], df) == Trail(sa.events + sb.events, sb.failure, sb.df)
  {
    var sa := ItemStep(c, a, df);
    var sb := ItemStep(c, b, sa.df);
    assert [a, b][0] == a && [a, b][1..] == [b] && [b][1..] == [];
    assert GenericItems(c, [b], sa.df) == sb by {
      assert sb.events + [] == sb.events;
    }
  }

  /** A `parameters` item followed by an `expectations` item: the rules of
      the second run against the dataframe the first one built, whatever
      `df` held before. */
  lemma FrameFlowsToNextItem(c: Collaborators, p: Value, e: Value, df: Option<Frame>, frame: Frame)
    requires p.Dict? && "parameters" in p.fields && Subscript(p.fields["parameters"], "table_name").Some?
    requires c.buildDf(GenericQuery(c.show, p.fields["parameters"].fields["table_name"]), p) == Some(frame)
    requires e.Dict? && "parameters" !in e.fields && "expectations" in e.fields && e.fields["expectations"].List?
    ensures var sql := GenericQuery(c.show, p.fields["parameters"].fields["table_name"]);
      var exps := e.fields["expectations"];
      var d := Dispatch.Dispatch(c.engineFor(frame), ProjectAll(exps).value);
      GenericItems(c, [p, e], df) == Trail([FrameRequested(sql, p), RulesRun(frame, exps, None)] + d.events, d.failure, Some(frame))
  {
    ParametersItemBuildsFrame(c, p, df);
    ExpectationsItemUsesCurrentFrame(c, e, Some(frame));
    GenericItemsTwo(c, p, e, df);
    var sql := GenericQuery(c.show, p.fields["parameters"].fields["table_name"]);
    var exps := e.fields["expectations"];
    var d := Dispatch.Dispatch(c.engineFor(frame), ProjectAll(exps).value);
    JoinItemTrails(GenericItems(c, [p, e], df), ItemStep(c, p, df), ItemStep(c, e, Some(frame)),
      FrameRequested(sql, p), RulesRun(frame, exps, None), d.events, d.failure, Some(frame));
  }

  /** Two item steps joined: the first one's single event, then the second
      one's events, failure and `df`. */
  lemma JoinItemTrails(two: Trail, first: Trail, second: Trail, x: Event, y: Event, rest: seq<Event>,
                       failure: Option<Failure>, df: Option<Frame>)
    requires first.events == [x] && second == Trail([y] + rest, failure, df)
    requires two == Trail(first.events + second.events, second.failure, second.df)
    ensures two == Trail([x, y] + rest, failure, df)
  {
    AppendAssoc([x], [y], rest);
  }

  /** A completed pair built its dataframe, and the rest of the pairs,
      which complete too, leave the final `df`. */
  lemma CompletedPairGoesOn(c: Collaborators, queries: seq<string>, i: nat, doc: Value, df: Option<Frame>)
    requires i < |queries| && ListSection(doc) && |Entries(doc)| == |queries|
    requires QueryPairs(c, queries, i, doc, df).failure.None?
    ensures c.buildDf(queries[i], Entries(doc)[i]).Some?
    ensures var rest := QueryPairs(c, queries, i + 1, PopRulesDq(doc), Some(c.buildDf(queries[i], Entries(doc)[i]).value));
      rest.failure.None? && QueryPairs(c, queries, i, doc, df).df == rest.df
  {
  }

  /** After a completed query path `df` is the dataframe of the last pair. */
  lemma {:induction false} QueryPairsLastFrame(c: Collaborators, queries: seq<string>, i: nat, doc: Value, df: Option<Frame>)
    requires i < |queries| && ListSection(doc) && |Entries(doc)| == |queries|
    requires QueryPairs(c, queries, i, doc, df).failure.None?
    ensures var last := |queries| - 1;
      QueryPairs(c, queries, i, doc, df).df ==
        c.buildDf(queries[last], if last == i then Entries(doc)[last] else PopEntry(Entries(doc)[last]))
    decreases |queries| - i
  {
    CompletedPairGoesOn(c, queries, i, doc, df);
    var frame := c.buildDf(queries[i], Entries(doc)[i]).value;
    var next := PopRulesDq(doc);
    if i + 1 < |queries| {
      QueryPairsLastFrame(c, queries, i + 1, next, Some(frame));
      PopEntryIdempotent(Entries(doc)[|queries| - 1]);
    }
  }

  /** Every entry is rendered before the `zip` loop starts: a rendering
      that fails ends the query path before any dataframe is requested. */
  lemma RenderFailureBeforeAnyFrame(c: Collaborators, doc: Value, environment: string)
    requires QueryList(c.io, doc, environment, false).Err?
    ensures QueryPath(c, doc, environment) == Trail([], Some(QueryList(c.io, doc, environment, false).error), None)
  {
  }

  /** So a failing entry `k` ends the path with its own error, and with no
      event, even when the entries before it render and their queries
      could have been run. */
  lemma LaterRenderFailureRequestsNoFrame(c: Collaborators, doc: Value, environment: string, k: nat)
    requires ListSection(doc) && k < |Entries(doc)|
    requires forall j :: 0 <= j < k ==> RenderEntry(c.io, Entries(doc)[j], environment, false).Ok?
    requires RenderEntry(c.io, Entries(doc)[k], environment, false).Err?
    ensures QueryPath(c, doc, environment) ==
      Trail([], Some(RenderEntry(c.io, Entries(doc)[k], environment, false).error), None)
  {
    RenderAllFirstError(c.io, Entries(doc), environment, false, k);
  }

  /** `build_sql_template` gives no query for a null `query_dq`, but the
      `zip` with the null section itself raises. */
  lemma NullQuerySectionRaises(c: Collaborators, doc: Value, environment: string)
    requires Subscript(doc, "query_dq") == Some(Null)
    ensures QueryList(c.io, doc, environment, false) == Ok([])
    ensures QueryPath(c, doc, environment) == Trail([], Some(NotIterable), None)
  {
  }

  // ---------------------------------------------------------------------
  // Properties of the whole run

  /** A document that could not be read fails the first `in` test. */
  lemma UnreadableDocumentFails(c: Collaborators, bucketArtifact: string, sourceFileYaml: string, environment: string)
    requires c.readYaml(bucketArtifact, sourceFileYaml) == Null
    ensures Execute(c, bucketArtifact, sourceFileYaml, environment) == Trail([], Some(NoDocument), None)
  {
  }

  /** The two sections gate the two paths: without `query_dq` nothing is
      rendered or queried for it, without `rules` no generic item runs,
      and when both are present the query path runs first and the generic
      path starts from its `df`. */
  lemma SectionsGatePaths(c: Collaborators, bucketArtifact: string, sourceFileYaml: string, environment: string)
    requires c.readYaml(bucketArtifact, sourceFileYaml).Dict?
    ensures var doc := c.readYaml(bucketArtifact, sourceFileYaml);
      var run := Execute(c, bucketArtifact, sourceFileYaml, environment);
      var q := QueryPath(c, doc, environment);
      && ("query_dq" !in doc.fields && "rules" !in doc.fields ==> run == Trail([], None, None))
      && ("query_dq" !in doc.fields && "rules" in doc.fields ==> run == GenericPath(c, doc, None))
      && ("query_dq" in doc.fields && "rules" !in doc.fields ==> run == q)
      && ("query_dq" in doc.fields && "rules" in doc.fields ==>
            run == if q.failure.Some? then q else Then(q.events, GenericPath(c, doc, q.df)))
  {
    var doc := c.readYaml(bucketArtifact, sourceFileYaml);
    assert Then([], GenericPath(c, doc, None)) == GenericPath(c, doc, None);
  }

  /** With no `query_dq`, a first generic item that only has
      `expectations` finds `df` unbound. */
  lemma ExpectationsBeforeAnyFrameFail(c: Collaborators, bucketArtifact: string, sourceFileYaml: string, environment: string)
    requires var doc := c.readYaml(bucketArtifact, sourceFileYaml);
      && doc.Dict? && "query_dq" !in doc.fields && "rules" in doc.fields
      && GenericSelection(doc).Some? && GenericSelection(doc).value != []
      && var first := GenericSelection(doc).value[0];
         first.Dict? && "parameters" !in first.fields && "expectations" in first.fields
    ensures Execute(c, bucketArtifact, sourceFileYaml, environment) == Trail([], Some(UnboundFrame), None)
  {
    SectionsGatePaths(c, bucketArtifact, sourceFileYaml, environment);
    var doc := c.readYaml(bucketArtifact, sourceFileYaml);
    ExpectationsItemUsesCurrentFrame(c, GenericSelection(doc).value[0], None);
  }

  /** `df` outlives the query path: a first generic item with only
      `expectations` is validated against the dataframe of the last
      custom query. */
  lemma QueryFrameReachesGenericRules(c: Collaborators, bucketArtifact: string, sourceFileYaml: string, environment: string, frame: Frame)
    requires var doc := c.readYaml(bucketArtifact, sourceFileYaml);
      && doc.Dict? && "query_dq" in doc.fields && "rules" in doc.fields
      && var q := QueryPath(c, doc, environment);
      && q.failure.None? && q.df == Some(frame)
      && GenericSelection(doc).Some? && GenericSelection(doc).value != []
      && var first := GenericSelection(doc).value[0];
         first.Dict? && "parameters" !in first.fields && "expectations" in first.fields
    ensures var doc := c.readYaml(bucketArtifact, sourceFileYaml);
      var q := QueryPath(c, doc, environment);
      var first := GenericSelection(doc).value[0];
      var run := Execute(c, bucketArtifact, sourceFileYaml, environment);
      |run.events| > |q.events| && run.events[|q.events|] == RulesRun(frame, first.fields["expectations"], None)
  {
    SectionsGatePaths(c, bucketArtifact, sourceFileYaml, environment);
    var doc := c.readYaml(bucketArtifact, sourceFileYaml);
    var first := GenericSelection(doc).value[0];
    ExpectationsItemUsesCurrentFrame(c, first, Some(frame));
  }

  // ---------------------------------------------------------------------
  // The loops

  /** One turn of the `zip` loop after the events `before`: pair `i`
      either cannot build its dataframe, or its rules fail, and the run
      ends there; or it completes and the run goes on from the popped
      document. */
  lemma PairTurn(c: Collaborators, queries: seq<string>, i: nat, doc: Value, df: Option<Frame>, before: seq<Event>)
    requires i < |queries| && ListSection(doc) && |Entries(doc)| == |queries|
    ensures SelectRules(doc, Some("rules_dq")) == Some(QueryRules(doc))
    ensures var sql, parameters := queries[i], Entries(doc)[i];
      var pair := Then(before, QueryPairs(c, queries, i, doc, df));
      match c.buildDf(sql, parameters)
      case None => pair == Trail(before + [FrameRequested(sql, parameters)], Some(QueryFailed(sql)), df)
      case Some(frame) =>
        var run := Dispatch.Dispatch(c.engineFor(frame), QueryRules(doc));
        var head := [FrameRequested(sql, parameters), RulesRun(frame, doc, Some("rules_dq"))] + run.events;
        if run.failure.Some? then pair == Trail(before + head, run.failure, Some(frame))
        else pair == Then(before + head, QueryPairs(c, queries, i + 1, PopRulesDq(doc), Some(frame)))
  {
    var sql, parameters := queries[i], Entries(doc)[i];
    if c.buildDf(sql, parameters).Some? {
      var frame := c.buildDf(sql, parameters).value;
      var run := Dispatch.Dispatch(c.engineFor(frame), QueryRules(doc));
      var head := [FrameRequested(sql, parameters), RulesRun(frame, doc, Some("rules_dq"))] + run.events;
      if run.failure.None? {
        ThenAssoc(before, head, QueryPairs(c, queries, i + 1, PopRulesDq(doc), Some(frame)));
      }
    }
  }

  /** The `zip` loop of `execute_rules`. */
  method RunQueryPairs(c: Collaborators, queries: seq<string>, loaded: Value) returns (t: Trail)
    requires ListSection(loaded) && |Entries(loaded)| == |queries|
    ensures t == QueryPairs(c, queries, 0, loaded, None)
  {
    var doc := loaded;
    var df: Option<Frame> := None;
    var events: seq<Event> := [];
    var i := 0;
    while i < |queries|
      invariant 0 <= i <= |queries| && ListSection(doc) && |Entries(doc)| == |queries|
      invariant QueryPairs(c, queries, 0, loaded, None) == Then(events, QueryPairs(c, queries, i, doc, df))
      decreases |queries| - i
    {
      var query, parameters := queries[i], Entries(doc)[i];
      PairTurn(c, queries, i, doc, df, events);
      var frame := c.buildDf(query, parameters);
      if frame.None? {
        return Trail(events + [FrameRequested(query, parameters)], Some(QueryFailed(query)), df);
      }
      var run := RunYamlRules(c.engineFor(frame.value), doc, Some("rules_dq"));
      var head := [FrameRequested(query, parameters), RulesRun(frame.value, doc, Some("rules_dq"))] + run.events;
      if run.failure.Some? {
        return Trail(events + head, run.failure, frame);
      }
      events := events + head;
      doc := PopRulesDq(doc);
      df := frame;
      i := i + 1;
    }
    t := Trail(events, None, df);
  }

  /** The `for item in generic_rules` loop of `execute_rules`. */
  method RunGenericItems(c: Collaborators, items: seq<Value>, frame0: Option<Frame>) returns (t: Trail)
    ensures t == GenericItems(c, items, frame0)
  {
    var df := frame0;
    var events: seq<Event> := [];
    var i := 0;
    while i < |items|
      invariant 0 <= i <= |items|
      invariant GenericItems(c, items, frame0) == Then(events, GenericItems(c, items[i..], df))
    {
      var item := items[i];
      assert items[i..][0] == item && items[i..][1..] == items[i + 1..];
      var s := ItemStep(c, item, df);
      if s.failure.Some? {
        return Trail(events + s.events, s.failure, s.df);
      }
      ThenAssoc(events, s.events, GenericItems(c, items[i + 1..], s.df));
      events := events + s.events;
      df := s.df;
      i := i + 1;
    }
    t := Trail(events, None, df);
  }

  /** `RunRules(bucket_artifact, source_file_yaml, environment,
      column_partition, value_partition)`. */
  class RunRules {
    var sourceFileYaml: string
    var columnPartition: Value
    var valuePartition: Value
    var environment: string
    var bucketArtifact: string
    /** `self.yaml_file`, the document `execute_rules` loads; `Null`
        until then (the constructor does not set it: nothing is read yet). */
    var yamlFile: Value

    /** The artifact bucket is stored with the environment substituted
        once; the other arguments are stored as given. */
    constructor (bucketArtifact0: string, sourceFileYaml0: string, environment0: string,
                 columnPartition0: Value, valuePartition0: Value)
      ensures bucketArtifact == SubstituteEnv(bucketArtifact0, environment0)
      ensures sourceFileYaml == sourceFileYaml0 && environment == environment0
      ensures columnPartition == columnPartition0 && valuePartition == valuePartition0
      ensures yamlFile == Null
    {
      sourceFileYaml := sourceFileYaml0;
      columnPartition := columnPartition0;
      valuePartition := valuePartition0;
      environment := environment0;
      bucketArtifact := SubstituteEnv(bucketArtifact0, environment0);
      yamlFile := Null;
    }

    /** The inherited `UtillsExecution.build_sql_template`, on
        `self.yaml_file`, substituting the environment twice. */
    method BuildSqlTemplate(io: Io, environment0: string) returns (r: Result<seq<string>, Failure>)
      ensures r == QueryList(io, yamlFile, environment0, true)
    {
      r := BuildQueryList(io, yamlFile, environment0, true);
    }

    method ExecuteRules(c: Collaborators) returns (t: Trail)
      modifies this
      ensures yamlFile == c.readYaml(bucketArtifact, sourceFileYaml)
      ensures t == Execute(c, bucketArtifact, sourceFileYaml, environment)
      ensures bucketArtifact == old(bucketArtifact) && sourceFileYaml == old(sourceFileYaml)
      ensures environment == old(environment)
      ensures columnPartition == old(columnPartition) && valuePartition == old(valuePartition)
    {
      yamlFile := c.readYaml(bucketArtifact, sourceFileYaml);
      var hasQuery := Contains(yamlFile, "query_dq");
      if hasQuery.None? {
        return Trail([], Some(NoDocument), None);
      }
      var q := Trail([], None, None);
      if hasQuery.value {
        var files := new BuildTemplate(c.readYaml, bucketArtifact, sourceFileYaml);
        var sqlFileTemp := files.BuildSqlTemplate(c.io, environment);
        var loaded := files.yamlFile;
        if sqlFileTemp.Err? {
          q := Trail([], Some(sqlFileTemp.error), None);
        } else {
          var section := Subscript(loaded, "query_dq");
          if section.Some? && section.value.List? {
            q := RunQueryPairs(c, sqlFileTemp.value, loaded);
          } else if section == Some(Null) {
            q := Trail([], Some(NotIterable), None);
          }
        }
      }
      if q.failure.None? && Contains(yamlFile, "rules") == Some(true) {
        var genericRules := GenericSelection(yamlFile);
        if genericRules.None? {
          return Then(q.events, Trail([], Some(NotIterable), q.df));
        }
        var g := RunGenericItems(c, genericRules.value, q.df);
        return Then(q.events, g);
      }
      t := q;
    }
  }
}
