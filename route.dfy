/** Route and environment handling of `build_sql_template`
    (data_quality/rules.py and data_quality/utills.py) and of the
    `RunRules` constructor (data_quality/generate.py): a route such as
    `s3://bucket-env-x/path/q.sql` loses its first five characters, is
    split once at the first `/` into bucket and key, and the bucket has
    every `-env-` replaced by `-<environment>-`. */
module Route {
  import opened Strings

  /** The length of the `s3://` prefix the code drops unchecked. */
  const SchemeLength: nat := 5

  /** The placeholder that names the environment inside a bucket. */
  const EnvMarker: string := "-env-"

  /** The storage location of a template. */
  datatype Location = Location(bucket: string, key: string)

  /** Python's `route[5:]`. */
  function DropScheme(route: string): (r: string)
    ensures |route| <= SchemeLength ==> r == ""
    ensures |route| > SchemeLength ==> route == route[..SchemeLength] + r
  {
    if |route| <= SchemeLength then "" else route[SchemeLength..]
  }

  /** The index of the first `/`, or the length when there is none. */
  function SlashIndex(s: string): (i: nat)
    ensures i <= |s|
    ensures forall j :: 0 <= j < i ==> s[j] != '/'
    ensures i < |s| ==> s[i] == '/'
  {
    if s == [] then 0
    else if s[0] == '/' then 0
    else 1 + SlashIndex(s[1..])
  }

  /** `parts = route[5:].split('/', 1)`; the bucket is `parts[0]` and the
      key `parts[1]`, or `''` when there is no `/`. */
  function ParseRoute(route: string): (loc: Location)
    ensures '/' !in loc.bucket
    ensures var rest := DropScheme(route);
      ('/' in rest ==> rest == loc.bucket + "/" + loc.key) &&
      ('/' !in rest ==> loc.bucket == rest && loc.key == "")
  {
    var rest := DropScheme(route);
    var i := SlashIndex(rest);
    if i < |rest| then
      assert rest == rest[..i] + "/" + rest[i + 1..];
      Location(rest[..i], rest[i + 1..])
    else
      Location(rest, "")
  }

  /** The first `/` after a slash-free bucket is the one that follows it. */
  lemma {:induction false} SlashAfterBucket(bucket: string, rest: string)
    requires '/' !in bucket
    ensures SlashIndex(bucket + "/" + rest) == |bucket|
    decreases |bucket|
  {
    var s := bucket + "/" + rest;
    if bucket == [] {
      assert s[0] == '/';
    } else {
      assert s[0] == bucket[0];
      assert s[1..] == bucket[1..] + "/" + rest;
      SlashAfterBucket(bucket[1..], rest);
    }
  }

  /** A route built from any five-character scheme, a bucket without `/`
      and a key parses back into that bucket and key. */
  lemma ParseRouteRoundTrip(scheme: string, bucket: string, key: string)
    requires |scheme| == SchemeLength && '/' !in bucket
    ensures ParseRoute(scheme + bucket + "/" + key) == Location(bucket, key)
    ensures ParseRoute(scheme + bucket) == Location(bucket, "")
  {
    var rest := bucket + "/" + key;
    assert DropScheme(scheme + bucket + "/" + key) == rest by {
      assert scheme + bucket + "/" + key == scheme + rest;
      assert (scheme + rest)[SchemeLength..] == rest;
    }
    SlashAfterBucket(bucket, key);
    assert rest[..|bucket|] == bucket && rest[|bucket| + 1..] == key;
    assert DropScheme(scheme + bucket) == bucket by {
      assert (scheme + bucket)[SchemeLength..] == bucket;
    }
    assert SlashIndex(bucket) == |bucket|;
  }

  /** `bucket.replace("-env-", "-" + environment + "-")`. */
  function SubstituteEnv(bucket: string, environment: string): string {
    ReplaceAll(bucket, EnvMarker, "-" + environment + "-")
  }

  /** The bucket splits at the markers into marker-free pieces; the
      substitution joins the same pieces with `-<environment>-`. */
  lemma SubstituteEnvRewritesEveryMarker(bucket: string, environment: string)
    ensures var pieces := Split(bucket, EnvMarker);
      && Join(pieces, EnvMarker) == bucket
      && SubstituteEnv(bucket, environment) == Join(pieces, "-" + environment + "-")
      && forall k :: 0 <= k < |pieces| ==> !Occurs(pieces[k], EnvMarker)
  {
    JoinSplitIsIdentity(bucket, EnvMarker);
    ReplaceIsJoinOfSplit(bucket, EnvMarker, "-" + environment + "-");
    SplitPiecesAreFree(bucket, EnvMarker);
  }

  /** A bucket without the marker is left as it is. */
  lemma SubstituteEnvWithoutMarker(bucket: string, environment: string)
    requires !Occurs(bucket, EnvMarker)
    ensures SubstituteEnv(bucket, environment) == bucket
  {
    NoOccurrenceUnchanged(bucket, EnvMarker, "-" + environment + "-");
  }

  /** Substituting twice (as UtillsExecution.build_sql_template does) is
      substituting once when the first pass leaves no marker behind. */
  lemma DoubleSubstitutionIsSingle(bucket: string, environment: string)
    requires !Occurs(SubstituteEnv(bucket, environment), EnvMarker)
    ensures SubstituteEnv(SubstituteEnv(bucket, environment), environment) == SubstituteEnv(bucket, environment)
  {
    SubstituteEnvWithoutMarker(SubstituteEnv(bucket, environment), environment);
  }

  /** The environment `env` leaves every bucket unchanged. */
  lemma SubstituteEnvIdentity(bucket: string)
    ensures SubstituteEnv(bucket, "env") == bucket
  {
    assert "-" + "env" + "-" == EnvMarker;
    ReplaceBySelfIsIdentity(bucket, EnvMarker);
  }

  /** One marker between two dash-free parts, as in the bucket
      `data-env-artifacts`, becomes `-<environment>-`. */
  lemma SubstituteEnvSingleMarker(head: string, tail: string, environment: string)
    requires '-' !in head && '-' !in tail
    ensures SubstituteEnv(head + EnvMarker + tail, environment) == head + "-" + environment + "-" + tail
  {
    var rep := "-" + environment + "-";
    assert head + EnvMarker + tail == head + (EnvMarker + tail);
    FreeOfDashes(tail, rep);
    FreePrefixByFirstChar(head, EnvMarker + tail, EnvMarker);
    ReplaceAfterFreePrefix(head, EnvMarker + tail, EnvMarker, rep);
    ReplaceAtFront(EnvMarker, tail, rep);
  }

  /** A dash followed by a dash-free string holds no marker. */
  lemma FreeDashTail(tail: string, rep: string)
    requires '-' !in tail
    ensures ReplaceAll("-" + tail, EnvMarker, rep) == "-" + tail
  {
    var u := "-" + tail;
    forall i | 0 <= i <= |u| - |EnvMarker| ensures !OccursAt(u, EnvMarker, i) {
      assert u[i + 4] == tail[i + 3];
    }
    NoOccurrenceUnchanged(u, EnvMarker, rep);
  }

  /** `-<environment>` cannot start a marker ahead of one, unless the
      environment is `env` itself. */
  lemma DashEnvironmentIsFree(environment: string, t: string)
    requires '-' !in environment && environment != "env"
    ensures forall i :: 0 <= i < |"-" + environment| ==> !OccursAt(("-" + environment) + (EnvMarker + t), EnvMarker, i)
  {
    var a := "-" + environment;
    var u := a + (EnvMarker + t);
    forall i | 0 <= i < |a| ensures !OccursAt(u, EnvMarker, i) {
      if i == 0 {
        if |environment| >= 4 {
          assert u[4] == environment[3];
        } else if |environment| == 3 {
          assert u[1..4] == environment;
        } else {
          assert u[4] == EnvMarker[3 - |environment|];
        }
      } else if i > 0 {
        assert u[i] == environment[i - 1];
      }
    }
  }

  /** A dash-free string is left unchanged. */
  lemma FreeOfDashes(t: string, rep: string)
    requires '-' !in t
    ensures ReplaceAll(t, EnvMarker, rep) == t
  {
    FreePrefixByFirstChar(t, [], EnvMarker);
    ReplaceAfterFreePrefix(t, [], EnvMarker, rep);
    assert t + [] == t;
  }

  /** The first pass over `<head>-env-env-<tail>`: the scan rewrites the
      first marker and resumes after it, inside the second one. */
  lemma OverlapFirstPass(head: string, tail: string, rep: string)
    requires '-' !in head && '-' !in tail
    ensures ReplaceAll(head + (EnvMarker + ("env" + ("-" + tail))), EnvMarker, rep) == head + (rep + ("env" + ("-" + tail)))
  {
    var rest := "env" + ("-" + tail);
    assert ReplaceAll(rest, EnvMarker, rep) == rest by {
      FreePrefixByFirstChar("env", "-" + tail, EnvMarker);
      ReplaceAfterFreePrefix("env", "-" + tail, EnvMarker, rep);
      FreeDashTail(tail, rep);
    }
    FreePrefixByFirstChar(head, EnvMarker + rest, EnvMarker);
    ReplaceAfterFreePrefix(head, EnvMarker + rest, EnvMarker, rep);
    ReplaceAtFront(EnvMarker, rest, rep);
  }

  /** The second pass over `<head>-<environment>-env-<tail>` rewrites the
      marker the first pass left behind. */
  lemma OverlapSecondPass(head: string, tail: string, environment: string)
    requires '-' !in head && '-' !in tail && '-' !in environment && environment != "env"
    ensures var rep := "-" + environment + "-";
      ReplaceAll(head + (("-" + environment) + (EnvMarker + tail)), EnvMarker, rep) == head + (("-" + environment) + (rep + tail))
  {
    var rep := "-" + environment + "-";
    var a := "-" + environment;
    DashEnvironmentIsFree(environment, tail);
    ReplaceAfterFreePrefix(a, EnvMarker + tail, EnvMarker, rep);
    ReplaceAtFront(EnvMarker, tail, rep);
    FreeOfDashes(tail, rep);
    FreePrefixByFirstChar(head, a + (EnvMarker + tail), EnvMarker);
    ReplaceAfterFreePrefix(head, a + (EnvMarker + tail), EnvMarker, rep);
  }

  /** Overlapping markers, as in `a-env-env-b`: one pass rewrites the first
      marker only and leaves `-env-` behind ... */
  lemma OverlappingMarkersOnce(head: string, tail: string, environment: string)
    requires '-' !in head && '-' !in tail && '-' !in environment
    ensures SubstituteEnv(head + "-env-env-" + tail, environment) == head + "-" + environment + "-env-" + tail
  {
    var rep := "-" + environment + "-";
    assert "-env-env-" == EnvMarker + ("env" + "-");
    assert head + "-env-env-" + tail == head + (EnvMarker + ("env" + ("-" + tail)));
    OverlapFirstPass(head, tail, rep);
    assert "-env-" == "-" + ("env" + "-");
    assert head + (rep + ("env" + ("-" + tail))) == head + "-" + environment + "-env-" + tail;
  }

  /** ... which a second pass rewrites, so substituting once and twice
      disagree unless the environment is `env`. */
  lemma OverlappingMarkersTwice(head: string, tail: string, environment: string)
    requires '-' !in head && '-' !in tail && '-' !in environment && environment != "env"
    ensures SubstituteEnv(head + "-" + environment + "-env-" + tail, environment)
      == head + "-" + environment + "-" + environment + "-" + tail
  {
    assert head + "-" + environment + "-env-" + tail == head + (("-" + environment) + (EnvMarker + tail));
    OverlapSecondPass(head, tail, environment);
    var e := environment;
    AppendAssoc("-" + e, "-", tail);
    AppendAssoc("-", e, "-" + tail);
    AppendAssoc("-" + e + "-" + e, "-", tail);
    AppendAssoc("-" + e + "-", e, "-" + tail);
    AppendAssoc("-" + e, "-", e + ("-" + tail));
  }

  /** Where the template of a route is read: the bucket substituted once
      (`BuildTemplate`) or twice (`UtillsExecution`); the key as parsed. */
  function FetchLocation(route: string, environment: string, twice: bool): (loc: Location)
    ensures loc.key == ParseRoute(route).key
    ensures !twice ==> loc.bucket == SubstituteEnv(ParseRoute(route).bucket, environment)
    ensures twice ==> loc.bucket == SubstituteEnv(SubstituteEnv(ParseRoute(route).bucket, environment), environment)
  {
    var parsed := ParseRoute(route);
    var once := SubstituteEnv(parsed.bucket, environment);
    Location(if twice then SubstituteEnv(once, environment) else once, parsed.key)
  }
}
