/** Rendering of the custom queries: `BuildTemplate.build_sql_template`
    (data_quality/rules.py) and `UtillsExecution.build_sql_template` and
    `BuildTemplateSQL` (data_quality/utills.py). Each entry of the
    document's `query_dq` list names a template by its route; the template
    text is read from the substituted bucket and rendered with the entry's
    `parameters`. */
module Templates {
  import opened Results
  import opened Strings
  import opened Values
  import opened Outcomes
  import opened Route

  /** The collaborators the rendering calls: `read_s3_text(bucket, key)`
      (`None` when it raises) and Jinja2's `Template(text).render(parameters)`. */
  datatype Io = Io(readText: (string, string) -> Option<string>, render: (string, Value) -> string)

  /** `BuildTemplateSQL(yaml_file, sql_file)`: the template rendered with the
      document's own `parameters`, a `KeyError` when it has none. */
  function BuildTemplateSql(render: (string, Value) -> string, yamlFile: Value, sqlFile: string): Result<string, Failure> {
    match Subscript(yamlFile, "parameters")
    case Some(p) => Ok(render(sqlFile, p))
    case None => Err(BadShape("parameters"))
  }

  /** The entry names its template by a string `route`. */
  predicate HasRoute(source: Value) {
    source.Dict? && "route" in source.fields && source.fields["route"].Str?
  }

  /** Where the template of an entry with a route is read. */
  function EntryLocation(source: Value, environment: string, twice: bool): Location
    requires HasRoute(source)
  {
    FetchLocation(source.fields["route"].s, environment, twice)
  }

  /** One iteration of the loop: `source['route']`, the parse and the
      substitution, `read_s3_text`, then `source['parameters']` and the
      rendering, failing at the first access that raises. */
  function RenderEntry(io: Io, source: Value, environment: string, twice: bool): (r: Result<string, Failure>)
    ensures !HasRoute(source) ==> r == Err(BadShape("route"))
    ensures HasRoute(source) ==>
      var loc := EntryLocation(source, environment, twice);
      && (io.readText(loc.bucket, loc.key).None? ==> r == Err(FetchFailed(loc.bucket, loc.key)))
      && (io.readText(loc.bucket, loc.key).Some? && "parameters" !in source.fields ==> r == Err(BadShape("parameters")))
      && (io.readText(loc.bucket, loc.key).Some? && "parameters" in source.fields ==>
            r == Ok(io.render(io.readText(loc.bucket, loc.key).value, source.fields["parameters"])))
  {
    if !HasRoute(source) then Err(BadShape("route"))
    else
      var loc := EntryLocation(source, environment, twice);
      match io.readText(loc.bucket, loc.key)
      case None => Err(FetchFailed(loc.bucket, loc.key))
      case Some(text) =>
        match Subscript(source, "parameters")
        case None => Err(BadShape("parameters"))
        case Some(p) => Ok(io.render(text, p))
  }

  /** Once its template is read, an entry of `build_sql_template` is
      rendered exactly as `BuildTemplateSQL` renders a document: with its
      own `parameters`, and a `KeyError` when it has none. */
  lemma RenderEntryIsBuildTemplateSql(io: Io, source: Value, environment: string, twice: bool)
    requires HasRoute(source)
    requires var loc := EntryLocation(source, environment, twice); io.readText(loc.bucket, loc.key).Some?
    ensures var loc := EntryLocation(source, environment, twice);
      RenderEntry(io, source, environment, twice) == BuildTemplateSql(io.render, source, io.readText(loc.bucket, loc.key).value)
  {
  }

  /** The result of every entry, in order. */
  function RenderEach(io: Io, entries: seq<Value>, environment: string, twice: bool): (results: seq<Result<string, Failure>>)
    ensures |results| == |entries|
    ensures forall j :: 0 <= j < |entries| ==> results[j] == RenderEntry(io, entries[j], environment, twice)
  {
    if entries == [] then [] else [RenderEntry(io, entries[0], environment, twice)] + RenderEach(io, entries[1..], environment, twice)
  }

  /** A loop that stops at its first failure: the value of every step, or
      the failure of the first step that fails. */
  function CollectQueries(results: seq<Result<string, Failure>>): (r: Result<seq<string>, Failure>)
    ensures r.Ok? <==> forall i :: 0 <= i < |results| ==> results[i].Ok?
    ensures r.Ok? ==> (|r.value| == |results| &&
      forall i :: 0 <= i < |results| ==> r.value[i] == results[i].value)
  {
    if results == [] then Ok([])
    else
      match results[0]
      case Err(e) => Err(e)
      case Ok(q) =>
        assert forall i :: 1 <= i < |results| ==> results[i] == results[1..][i - 1];
        match CollectQueries(results[1..])
        case Err(e) => Err(e)
        case Ok(qs) => Ok([q] + qs)
  }

  /** The failure of the loop is that of its first failing step. */
  lemma {:induction false} CollectQueriesFirstError(results: seq<Result<string, Failure>>, k: nat)
    requires k < |results|
    requires forall j :: 0 <= j < k ==> results[j].Ok?
    requires results[k].Err?
    ensures CollectQueries(results) == Err(results[k].error)
  {
    if k > 0 {
      var tail := results[1..];
      forall j | 0 <= j < k - 1 ensures tail[j].Ok? {
        assert tail[j] == results[j + 1];
      }
      assert tail[k - 1] == results[k];
      CollectQueriesFirstError(tail, k - 1);
    }
  }

  /** The loop over a `query_dq` list: one rendered query per entry, in
      order, or the failure of the first entry that fails. */
  function RenderAll(io: Io, entries: seq<Value>, environment: string, twice: bool): (r: Result<seq<string>, Failure>)
    ensures r.Ok? <==> forall i :: 0 <= i < |entries| ==> RenderEntry(io, entries[i], environment, twice).Ok?
    ensures r.Ok? ==> (|r.value| == |entries| &&
      forall i :: 0 <= i < |entries| ==> r.value[i] == RenderEntry(io, entries[i], environment, twice).value)
  {
    CollectQueries(RenderEach(io, entries, environment, twice))
  }

  /** The failure of a run is that of its first failing entry. */
  lemma RenderAllFirstError(io: Io, entries: seq<Value>, environment: string, twice: bool, k: nat)
    requires k < |entries|
    requires forall j :: 0 <= j < k ==> RenderEntry(io, entries[j], environment, twice).Ok?
    requires RenderEntry(io, entries[k], environment, twice).Err?
    ensures RenderAll(io, entries, environment, twice) == Err(RenderEntry(io, entries[k], environment, twice).error)
  {
    var results := RenderEach(io, entries, environment, twice);
    CollectQueriesFirstError(results, k);
  }

  /** The first `|queries|` results are the queries. */
  predicate RenderedPrefix(results: seq<Result<string, Failure>>, queries: seq<string>) {
    |queries| <= |results| && forall j :: 0 <= j < |queries| ==> results[j] == Ok(queries[j])
  }

  lemma RenderedPrefixExtend(results: seq<Result<string, Failure>>, queries: seq<string>, q: string)
    requires RenderedPrefix(results, queries) && |queries| < |results| && results[|queries|] == Ok(q)
    ensures RenderedPrefix(results, queries + [q])
  {
    var qs := queries + [q];
    forall j | 0 <= j < |qs| ensures results[j] == Ok(qs[j]) {
      if j < |queries| { assert qs[j] == queries[j]; }
    }
  }

  /** Steps that all succeeded give exactly their values. */
  lemma CollectQueriesOfRendered(results: seq<Result<string, Failure>>, queries: seq<string>)
    requires |queries| == |results| && RenderedPrefix(results, queries)
    ensures CollectQueries(results) == Ok(queries)
  {
    var r := CollectQueries(results);
    assert r.Ok? by {
      forall i | 0 <= i < |results| ensures results[i].Ok? {
        assert results[i] == Ok(queries[i]);
      }
    }
    assert r.value == queries;
  }

  /** A failing entry after a rendered prefix fails the whole loop. */
  lemma RenderedPrefixThenError(io: Io, entries: seq<Value>, environment: string, twice: bool, queries: seq<string>)
    requires RenderedPrefix(RenderEach(io, entries, environment, twice), queries) && |queries| < |entries|
    requires RenderEntry(io, entries[|queries|], environment, twice).Err?
    ensures RenderAll(io, entries, environment, twice) == Err(RenderEntry(io, entries[|queries|], environment, twice).error)
  {
    var results := RenderEach(io, entries, environment, twice);
    forall j | 0 <= j < |queries| ensures results[j].Ok? {
      assert results[j] == Ok(queries[j]);
    }
    CollectQueriesFirstError(results, |queries|);
  }

  /** `build_sql_template(environment)` on a loaded document (null when the
      document could not be read): `yaml_file['query_dq']`, then the `for`
      over it. A null section gives no query; iterating a string or a
      dictionary yields strings, whose `['route']` raises unless there is
      nothing to iterate; any other value is not iterable. */
  function QueryList(io: Io, doc: Value, environment: string, twice: bool): (r: Result<seq<string>, Failure>)
    ensures Subscript(doc, "query_dq").None? ==> r == Err(BadShape("query_dq"))
    ensures Subscript(doc, "query_dq") == Some(Null) ==> r == Ok([])
    ensures Subscript(doc, "query_dq").Some? && Subscript(doc, "query_dq").value.List? ==>
      var entries := Subscript(doc, "query_dq").value.items;
      (r.Ok? <==> forall i :: 0 <= i < |entries| ==> RenderEntry(io, entries[i], environment, twice).Ok?) &&
      (r.Ok? ==> (|r.value| == |entries| &&
        forall i :: 0 <= i < |entries| ==> r.value[i] == RenderEntry(io, entries[i], environment, twice).value))
  {
    match Subscript(doc, "query_dq")
    case None => Err(BadShape("query_dq"))
    case Some(section) =>
      match section
      case Null => Ok([])
      case List(entries) => RenderAll(io, entries, environment, twice)
      case Str(s) => if s == "" then Ok([]) else Err(BadShape("route"))
      case Dict(m) => if m == map[] then Ok([]) else Err(BadShape("route"))
      case _ => Err(NotIterable)
  }

  /** The loop of both `build_sql_template`s, appending one rendered query
      per entry to `query_list`. */
  method BuildQueryList(io: Io, doc: Value, environment: string, twice: bool) returns (r: Result<seq<string>, Failure>)
    ensures r == QueryList(io, doc, environment, twice)
  {
    var section := Subscript(doc, "query_dq");
    if section.None? {
      return Err(BadShape("query_dq"));
    }
    var yamlPath := section.value;
    if yamlPath.Null? {
      return Ok([]);
    } else if yamlPath.Str? || yamlPath.Dict? {
      // iterating yields strings, and a string has no `['route']`
      var empty := if yamlPath.Str? then yamlPath.s == "" else yamlPath.fields == map[];
      return if empty then Ok([]) else Err(BadShape("route"));
    } else if !yamlPath.List? {
      return Err(NotIterable);
    }
    var entries := yamlPath.items;
    var queryList: seq<string> := [];
    ghost var results := RenderEach(io, entries, environment, twice);
    var i := 0;
    while i < |entries|
      invariant 0 <= i <= |entries| && |queryList| == i
      invariant RenderedPrefix(results, queryList)
    {
      var query := RenderEntry(io, entries[i], environment, twice);
      if query.Err? {
        RenderedPrefixThenError(io, entries, environment, twice, queryList);
        return Err(query.error);
      }
      RenderedPrefixExtend(results, queryList, query.value);
      queryList := queryList + [query.value];
      i := i + 1;
    }
    CollectQueriesOfRendered(results, queryList);
    r := Ok(queryList);
  }

  /** Substituting twice reads every template from the same place as
      substituting once, when no substituted bucket holds a new marker. */
  lemma RenderEntryTwiceIsOnce(io: Io, source: Value, environment: string)
    requires HasRoute(source) ==>
      !Occurs(SubstituteEnv(ParseRoute(source.fields["route"].s).bucket, environment), EnvMarker)
    ensures RenderEntry(io, source, environment, true) == RenderEntry(io, source, environment, false)
  {
    if HasRoute(source) {
      DoubleSubstitutionIsSingle(ParseRoute(source.fields["route"].s).bucket, environment);
    }
  }

  lemma RenderAllTwiceIsOnce(io: Io, entries: seq<Value>, environment: string)
    requires forall i :: 0 <= i < |entries| && HasRoute(entries[i]) ==>
      !Occurs(SubstituteEnv(ParseRoute(entries[i].fields["route"].s).bucket, environment), EnvMarker)
    ensures RenderAll(io, entries, environment, true) == RenderAll(io, entries, environment, false)
  {
    var once := RenderEach(io, entries, environment, false);
    var double := RenderEach(io, entries, environment, true);
    forall i | 0 <= i < |entries| ensures double[i] == once[i] {
      RenderEntryTwiceIsOnce(io, entries[i], environment);
    }
    assert double == once;
  }

  /** The two utilities agree on every document whose substituted buckets
      hold no new marker (no overlapping `-env-env-`). */
  lemma QueryListTwiceIsOnce(io: Io, doc: Value, environment: string)
    requires Subscript(doc, "query_dq").Some? && Subscript(doc, "query_dq").value.List? ==>
      var entries := Subscript(doc, "query_dq").value.items;
      forall i :: 0 <= i < |entries| && HasRoute(entries[i]) ==>
        !Occurs(SubstituteEnv(ParseRoute(entries[i].fields["route"].s).bucket, environment), EnvMarker)
    ensures QueryList(io, doc, environment, true) == QueryList(io, doc, environment, false)
  {
    if Subscript(doc, "query_dq").Some? && Subscript(doc, "query_dq").value.List? {
      RenderAllTwiceIsOnce(io, Subscript(doc, "query_dq").value.items, environment);
    }
  }

  /** `BuildTemplate`: the constructor loads the document once; the
      method renders its queries substituting the environment once. */
  class BuildTemplate {
    var yamlFile: Value

    /** `read_s3_yaml(bucket_artifact, source_file_yaml)`, null when the
        read or the parse fails. */
    constructor (readYaml: (string, string) -> Value, bucketArtifact: string, sourceFileYaml: string)
      ensures yamlFile == readYaml(bucketArtifact, sourceFileYaml)
    {
      yamlFile := readYaml(bucketArtifact, sourceFileYaml);
    }

    method BuildSqlTemplate(io: Io, environment: string) returns (r: Result<seq<string>, Failure>)
      ensures r == QueryList(io, yamlFile, environment, false)
    {
      r := BuildQueryList(io, yamlFile, environment, false);
    }
  }
}
