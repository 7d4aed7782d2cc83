/** The parsed YAML document the runner walks, and the few Python and
    jmespath operations it applies to it. */
module Values {
  import opened Results
  import opened Strings
  import opened Severity

  /** A value of a YAML document (`yaml.safe_load`), plus `Level`, the
      `SeverityLevel` member the dispatcher passes as a keyword argument.
      Floats (such as `mostly: 0.5`) are kept as their text. */
  datatype Value =
    | Null
    | Bool(b: bool)
    | Int(i: int)
    | Float(text: string)
    | Str(s: string)
    | List(items: seq<Value>)
    | Dict(fields: map<string, Value>)
    | Level(level: SeverityLevel)

  /** Keyword arguments of a rule call. */
  type Kwargs = map<string, Value>

  /** Python's `key in container`: dictionary keys, list elements or a
      substring; `None` stands for the `TypeError` of any other value. */
  function Contains(container: Value, key: string): (r: Option<bool>)
    ensures container.Dict? ==> r == Some(key in container.fields)
    ensures r.None? <==> !(container.Dict? || container.List? || container.Str?)
  {
    match container
    case Dict(m) => Some(key in m)
    case List(xs) => Some(Str(key) in xs)
    case Str(s) => Some(Occurs(s, key))
    case _ => None
  }

  /** Python's `container[key]` with a string key: only a dictionary that
      holds the key answers; `None` stands for the `KeyError` or `TypeError`. */
  function Subscript(container: Value, key: string): Option<Value> {
    if container.Dict? && key in container.fields then Some(container.fields[key]) else None
  }

  /** The elements of a list other than null, in order: what a jmespath
      projection keeps. */
  function Compact(xs: seq<Value>): (r: seq<Value>)
    ensures |r| <= |xs|
    ensures forall v :: v in r <==> v in xs && v != Null
    ensures (forall i :: 0 <= i < |xs| ==> xs[i] != Null) ==> r == xs
  {
    if xs == [] then []
    else if xs[0] == Null then Compact(xs[1..])
    else [xs[0]] + Compact(xs[1..])
  }

  /** jmespath `[*]`: the non-null elements of a list; `None` (jmespath's
      null) for anything that is not a list. */
  function ProjectAll(v: Value): (r: Option<seq<Value>>)
    ensures r.Some? <==> v.List?
    ensures v.List? ==> r == Some(Compact(v.items))
    ensures v.List? && (forall i :: 0 <= i < |v.items| ==> v.items[i] != Null) ==> r == Some(v.items)
  {
    if v.List? then Some(Compact(v.items)) else None
  }

  /** The `field` of every element, skipping elements that are not
      dictionaries, lack the field, or hold null there. */
  function Pluck(xs: seq<Value>, field: string): (r: seq<Value>)
    ensures |r| <= |xs|
    ensures forall v :: v in r ==> v != Null
  {
    if xs == [] then []
    else
      var rest := Pluck(xs[1..], field);
      match Subscript(xs[0], field)
      case Some(v) => if v == Null then rest else [v] + rest
      case None => rest
  }

  /** jmespath `<section>[*].<field>` on a document: the projection of
      `field` over the list `section`. It does not flatten: when each
      `field` holds a list, the result is a list of lists. */
  function ProjectField(doc: Value, section: string, field: string): (r: Option<seq<Value>>)
    ensures r.Some? <==> Subscript(doc, section).Some? && Subscript(doc, section).value.List?
    ensures r.Some? ==> r.value == Pluck(Subscript(doc, section).value.items, field)
  {
    match Subscript(doc, section)
    case Some(List(xs)) => Some(Pluck(xs, field))
    case _ => None
  }

  /** A projection keeps a non-null element as it is, and drops a null. */
  lemma CompactSingleton(x: Value)
    ensures Compact([x]) == if x == Null then [] else [x]
  {
    assert [x][1..] == [];
  }

  /** A projection works element by element, in order: the projection of
      a concatenation is the concatenation of the projections. */
  lemma {:induction false} CompactAppend(a: seq<Value>, b: seq<Value>)
    ensures Compact(a + b) == Compact(a) + Compact(b)
    decreases |a|
  {
    if a == [] {
      assert a + b == b;
    } else {
      assert (a + b)[0] == a[0] && (a + b)[1..] == a[1..] + b;
      CompactAppend(a[1..], b);
      if a[0] != Null {
        assert [a[0]] + (Compact(a[1..]) + Compact(b)) == ([a[0]] + Compact(a[1..])) + Compact(b);
      }
    }
  }

  /** `[*].field` of one element: its field, unless it has none or holds
      null there. */
  lemma PluckSingleton(x: Value, field: string)
    ensures Pluck([x], field) ==
      match Subscript(x, field)
      case Some(v) => if v == Null then [] else [v]
      case None => []
  {
    assert [x][1..] == [];
  }

  /** `[*].field` works element by element, in order. */
  lemma {:induction false} PluckAppend(a: seq<Value>, b: seq<Value>, field: string)
    ensures Pluck(a + b, field) == Pluck(a, field) + Pluck(b, field)
    decreases |a|
  {
    if a == [] {
      assert a + b == b;
    } else {
      assert (a + b)[0] == a[0] && (a + b)[1..] == a[1..] + b;
      PluckAppend(a[1..], b, field);
      var rest := Pluck(a[1..], field);
      match Subscript(a[0], field)
      case Some(v) =>
        if v != Null {
          assert [v] + (rest + Pluck(b, field)) == ([v] + rest) + Pluck(b, field);
        }
      case None =>
    }
  }

  /** The projection does not flatten: when every element holds a list at
      `field`, the result has one element per element, and the i-th is the
      i-th element's list itself. */
  lemma {:induction false} PluckNoFlatten(xs: seq<Value>, field: string)
    requires forall i :: 0 <= i < |xs| ==> xs[i].Dict? && field in xs[i].fields && xs[i].fields[field].List?
    ensures |Pluck(xs, field)| == |xs|
    ensures forall i :: 0 <= i < |xs| ==> Pluck(xs, field)[i] == xs[i].fields[field]
    decreases |xs|
  {
    if xs != [] {
      var tail := xs[1..];
      forall i | 0 <= i < |tail| ensures tail[i].Dict? && field in tail[i].fields && tail[i].fields[field].List? {
        assert tail[i] == xs[i + 1];
      }
      PluckNoFlatten(tail, field);
      var r := Pluck(xs, field);
      assert r == [xs[0].fields[field]] + Pluck(tail, field);
      forall i | 0 <= i < |xs| ensures r[i] == xs[i].fields[field] {
        if i > 0 { assert xs[i] == tail[i - 1]; }
      }
    }
  }
}
