/** `UtillsExecution.run_yaml_rules` of data_quality/utills.py: the rule
    dispatcher. Each declaration (a dictionary) loses its `severity` key in
    place, its `rule` names an attribute of the engine, and that attribute
    is called with the rest of the declaration and the parsed severity. The
    first exception is logged and re-raised, which ends the run. */
module Dispatch {
  import opened Results
  import opened Severity
  import opened Values
  import opened Outcomes
  import opened Expectation

  /** An attribute of the engine object, as `getattr` finds it: one of the
      decorated expectation routines, or any other member (`run`, `df`,
      `DefineGe`, ...), of which only whether calling it raises matters. */
  datatype Attribute =
    | Routine(check: Kwargs -> Option<ValidationResult>)
    | OtherMember(raises: Kwargs -> bool)

  /** The engine's attributes by name. */
  type Engine = map<string, Attribute>

  /** `rule.get('rule')`. */
  function RuleName(m: map<string, Value>): Value {
    if "rule" in m then m["rule"] else Null
  }

  /** `rule.pop("severity", "HIGH")`, the value popped. */
  function SeverityArg(m: map<string, Value>): Value {
    if "severity" in m then m["severity"] else Str("HIGH")
  }

  /** `getattr(self, name)` succeeds. */
  predicate Resolves(engine: Engine, name: Value) {
    name.Str? && name.s in engine
  }

  /** `SeverityLevel[v]`: only the exact name of a member, as a string. */
  function ParseLevel(v: Value): (r: Option<SeverityLevel>)
    ensures r.Some? <==> v.Str? && v.s in {"HIGH", "MEDIUM", "LOW"}
    ensures r.Some? ==> v == Str(Name(r.value))
  {
    if v.Str? then FromName(v.s) else None
  }

  /** A declaration after the in-place pop of `severity`. */
  function Popped(decl: Value): (r: Value)
    ensures r.Dict? <==> decl.Dict?
    ensures r.Dict? ==> "severity" !in r.fields && r.fields.Keys == decl.fields.Keys - {"severity"}
    ensures r.Dict? ==> forall k :: k in r.fields ==> r.fields[k] == decl.fields[k]
    ensures !decl.Dict? ==> r == decl
  {
    if decl.Dict? then Dict(decl.fields - {"severity"}) else decl
  }

  /** The keyword arguments of the call: the popped declaration (with its
      `rule` key) and `severity=SeverityLevel[...]`. */
  function CallArgs(m: map<string, Value>, level: SeverityLevel): (k: Kwargs)
    ensures k - {"severity"} == m - {"severity"}
    ensures "severity" in k && k["severity"] == Level(level)
  {
    (m - {"severity"})["severity" := Level(level)]
  }

  /** A declaration whose rule resolves and whose severity parses is
      handed to its attribute. */
  predicate Dispatchable(engine: Engine, decl: Value) {
    decl.Dict? && Resolves(engine, RuleName(decl.fields)) && ParseLevel(SeverityArg(decl.fields)).Some?
  }

  /** The call event of a dispatchable declaration. */
  function Invocation(engine: Engine, decl: Value): Event
    requires Dispatchable(engine, decl)
  {
    Invoked(RuleName(decl.fields).s, CallArgs(decl.fields, ParseLevel(SeverityArg(decl.fields)).value))
  }

  datatype StepResult = StepResult(after: Value, events: seq<Event>, failure: Option<Failure>)

  /** One iteration of the loop's `try` block. */
  function Step(engine: Engine, decl: Value): (r: StepResult)
    ensures r.after == Popped(decl)
    ensures !decl.Dict? ==> r.failure == Some(NotAMapping(decl)) && r.events == []
    ensures decl.Dict? && !Resolves(engine, RuleName(decl.fields)) ==>
      r.failure == Some(NoSuchAttribute(RuleName(decl.fields))) && r.events == []
    ensures decl.Dict? && Resolves(engine, RuleName(decl.fields)) && ParseLevel(SeverityArg(decl.fields)).None? ==>
      r.failure == Some(UnknownSeverity(SeverityArg(decl.fields))) && r.events == []
    ensures Dispatchable(engine, decl) ==> r.events != [] && r.events[0] == Invocation(engine, decl)
    ensures r.failure.None? ==> Dispatchable(engine, decl)
  {
    if !decl.Dict? then StepResult(decl, [], Some(NotAMapping(decl)))
    else
      var m := decl.fields;
      var name := RuleName(m);
      var sev := SeverityArg(m);
      var after := Dict(m - {"severity"});
      if !Resolves(engine, name) then StepResult(after, [], Some(NoSuchAttribute(name)))
      else if ParseLevel(sev).None? then StepResult(after, [], Some(UnknownSeverity(sev)))
      else
        var kwargs := CallArgs(m, ParseLevel(sev).value);
        var call := [Invoked(name.s, kwargs)];
        match engine[name.s]
        case Routine(check) =>
          (match Wrap(check, kwargs, HIGH)
           case Returned(logs) => StepResult(after, call + LogEvents(logs), None)
           case Raised(f) => StepResult(after, call, Some(f)))
        case OtherMember(raises) =>
          if raises(kwargs) then StepResult(after, call, Some(MemberRaised(name.s)))
          else StepResult(after, call, None)
  }

  /** A routine's verdict is applied with the declared severity: a failed
      HIGH rule aborts, a failed MEDIUM rule leaves one warning, a failed LOW
      rule one info record, and a passed rule (with a `column`) nothing. */
  lemma StepAppliesSeverity(engine: Engine, decl: Value, v: ValidationResult)
    requires Dispatchable(engine, decl) && engine[RuleName(decl.fields).s].Routine?
    requires engine[RuleName(decl.fields).s].check(decl.fields - {"severity"}) == Some(v)
    ensures var level := ParseLevel(SeverityArg(decl.fields)).value;
      var d := DiagnosticOf(v, level);
      var call := [Invocation(engine, decl)];
      && (!v.success && level == HIGH ==> Step(engine, decl) == StepResult(Popped(decl), call, Some(ValidationFailed(d))))
      && (!v.success && level == MEDIUM ==> Step(engine, decl) == StepResult(Popped(decl), call + [Logged(Warning(d))], None))
      && (!v.success && level == LOW ==> Step(engine, decl) == StepResult(Popped(decl), call + [Logged(Info(d))], None))
      && (v.success && "column" in decl.fields ==> Step(engine, decl) == StepResult(Popped(decl), call, None))
  {
    var level := ParseLevel(SeverityArg(decl.fields)).value;
    var kwargs := CallArgs(decl.fields, level);
    assert kwargs - {"severity"} == decl.fields - {"severity"};
    assert "column" in decl.fields ==> "column" in kwargs;
    var d := DiagnosticOf(v, level);
    assert LogEvents([Warning(d)]) == [Logged(Warning(d))];
    assert LogEvents([Info(d)]) == [Logged(Info(d))];
  }

  /** The other outcomes of a call: a routine that raises re-raises its
      own exception, a passed rule without `column` fails at the
      decorator's `kwargs['column']`, and any other member fails iff
      calling it raises, and otherwise leaves just the call. */
  lemma StepCallOutcomes(engine: Engine, decl: Value)
    requires Dispatchable(engine, decl)
    ensures var name := RuleName(decl.fields).s;
      var args := decl.fields - {"severity"};
      var call := [Invocation(engine, decl)];
      && (engine[name].Routine? && engine[name].check(args).None? ==>
            Step(engine, decl) == StepResult(Popped(decl), call, Some(CheckRaised)))
      && (engine[name].Routine? && engine[name].check(args).Some? && engine[name].check(args).value.success &&
          "column" !in decl.fields ==>
            Step(engine, decl) == StepResult(Popped(decl), call, Some(MissingColumn)))
      && (engine[name].OtherMember? ==>
            Step(engine, decl) == StepResult(Popped(decl), call,
              if engine[name].raises(Invocation(engine, decl).kwargs) then Some(MemberRaised(name)) else None))
  {
    var level := ParseLevel(SeverityArg(decl.fields)).value;
    var kwargs := CallArgs(decl.fields, level);
    assert kwargs - {"severity"} == decl.fields - {"severity"};
    assert "column" in kwargs <==> "column" in decl.fields;
  }

  /** A declaration without `severity` is dispatched as one that says
      `severity: HIGH`. */
  lemma StepMissingSeverityIsHigh(engine: Engine, m: map<string, Value>)
    ensures Step(engine, Dict(m - {"severity"})) == Step(engine, Dict(m["severity" := Str("HIGH")]))
  {
    var m1 := m - {"severity"};
    var m2 := m["severity" := Str("HIGH")];
    assert m1 - {"severity"} == m2 - {"severity"};
    assert RuleName(m1) == RuleName(m2);
    forall level ensures CallArgs(m1, level) == CallArgs(m2, level) {
    }
  }

  datatype DispatchResult = DispatchResult(after: seq<Value>, events: seq<Event>, failure: Option<Failure>)

  /** The step of every declaration, in order. */
  function Steps(engine: Engine, rules: seq<Value>): (steps: seq<StepResult>)
    ensures |steps| == |rules|
    ensures forall i :: 0 <= i < |rules| ==> steps[i] == Step(engine, rules[i])
  {
    if rules == [] then [] else [Step(engine, rules[0])] + Steps(engine, rules[1..])
  }

  /** The loop, given the step of each declaration: the first failing step
      is logged and ends it, and the declarations after it stay as they are.
      It is `Dispatch` with the steps computed beforehand (`DispatchIsRun`),
      a proof device: the lemmas about the loop are proved once over `Run`,
      where a step is any value rather than the engine's call. */
  function Run(steps: seq<StepResult>, rules: seq<Value>): (r: DispatchResult)
    requires |steps| == |rules|
    ensures |r.after| == |rules|
  {
    if rules == [] then DispatchResult([], [], None)
    else
      var s := steps[0];
      if s.failure.Some? then
        DispatchResult([s.after] + rules[1..], s.events + [Logged(Error(s.failure.value))], s.failure)
      else
        var rest := Run(steps[1..], rules[1..]);
        DispatchResult([s.after] + rest.after, s.events + rest.events, rest.failure)
  }

  /** The whole loop over the declarations: `after` is the list as the
      in-place pops leave it; the first failure is logged and ends it. */
  function Dispatch(engine: Engine, rules: seq<Value>): (r: DispatchResult)
    ensures |r.after| == |rules|
  {
    if rules == [] then DispatchResult([], [], None)
    else
      var s := Step(engine, rules[0]);
      if s.failure.Some? then
        DispatchResult([s.after] + rules[1..], s.events + [Logged(Error(s.failure.value))], s.failure)
      else
        var rest := Dispatch(engine, rules[1..]);
        DispatchResult([s.after] + rest.after, s.events + rest.events, rest.failure)
  }

  /** The run is the loop over the steps of its declarations. */
  lemma {:induction false} DispatchIsRun(engine: Engine, rules: seq<Value>)
    ensures Dispatch(engine, rules) == Run(Steps(engine, rules), rules)
  {
    if rules != [] {
      DispatchIsRun(engine, rules[1..]);
      assert Steps(engine, rules)[1..] == Steps(engine, rules[1..]);
    }
  }

  /** The declaration each step leaves behind. */
  function Afters(steps: seq<StepResult>): (r: seq<Value>)
    ensures |r| == |steps|
    ensures forall i :: 0 <= i < |steps| ==> r[i] == steps[i].after
  {
    if steps == [] then [] else [steps[0].after] + Afters(steps[1..])
  }

  function PoppedAll(rules: seq<Value>): (r: seq<Value>)
    ensures |r| == |rules|
    ensures forall i :: 0 <= i < |rules| ==> r[i] == Popped(rules[i])
  {
    if rules == [] then [] else [Popped(rules[0])] + PoppedAll(rules[1..])
  }

  /** Every declaration dictionary with `severity` set to `"HIGH"`. */
  function WithHighAll(rules: seq<Value>): (r: seq<Value>)
    ensures |r| == |rules|
    ensures forall i :: 0 <= i < |rules| ==> r[i] == if rules[i].Dict? then Dict(rules[i].fields["severity" := Str("HIGH")]) else rules[i]
  {
    if rules == [] then []
    else [if rules[0].Dict? then Dict(rules[0].fields["severity" := Str("HIGH")]) else rules[0]] + WithHighAll(rules[1..])
  }

  /** The steps of a slice are the slice of the steps. */
  lemma StepsSlice(engine: Engine, rules: seq<Value>, lo: nat, hi: nat)
    requires lo <= hi <= |rules|
    ensures Steps(engine, rules[lo..hi]) == Steps(engine, rules)[lo..hi]
  {
    var steps := Steps(engine, rules);
    forall i | 0 <= i < hi - lo ensures Steps(engine, rules[lo..hi])[i] == steps[lo..hi][i] {
      assert rules[lo..hi][i] == rules[lo + i];
    }
  }

  /** Every step pops its declaration. */
  lemma AftersArePopped(engine: Engine, rules: seq<Value>)
    ensures Afters(Steps(engine, rules)) == PoppedAll(rules)
  {
  }

  /** The loop completes exactly when no step fails, and then every
      declaration is what its step left. */
  lemma {:induction false} RunCompletes(steps: seq<StepResult>, rules: seq<Value>)
    requires |steps| == |rules|
    ensures Run(steps, rules).failure.None? <==> forall i :: 0 <= i < |steps| ==> steps[i].failure.None?
    ensures Run(steps, rules).failure.None? ==> Run(steps, rules).after == Afters(steps)
  {
    if rules != [] {
      RunCompletes(steps[1..], rules[1..]);
      forall i | 1 <= i < |steps| ensures steps[i] == steps[1..][i - 1] { }
      if steps[0].failure.None? && Run(steps[1..], rules[1..]).failure.None? {
        assert Afters(steps) == [steps[0].after] + Afters(steps[1..]);
      }
    }
  }

  /** A run completes exactly when every declaration's step succeeds, and
      then every declaration has lost its `severity`. */
  lemma DispatchCompletes(engine: Engine, rules: seq<Value>)
    ensures Dispatch(engine, rules).failure.None? <==>
      forall i :: 0 <= i < |rules| ==> Step(engine, rules[i]).failure.None?
    ensures Dispatch(engine, rules).failure.None? ==> Dispatch(engine, rules).after == PoppedAll(rules)
  {
    DispatchIsRun(engine, rules);
    RunCompletes(Steps(engine, rules), rules);
    AftersArePopped(engine, rules);
  }

  /** The lists of `xss` joined end to end, in order. */
  function Flatten(xss: seq<seq<Event>>): seq<Event> {
    if xss == [] then [] else xss[0] + Flatten(xss[1..])
  }

  /** The events of every step, in order. */
  function StepEvents(steps: seq<StepResult>): (r: seq<seq<Event>>)
    ensures |r| == |steps|
    ensures forall i :: 0 <= i < |steps| ==> r[i] == steps[i].events
  {
    if steps == [] then [] else [steps[0].events] + StepEvents(steps[1..])
  }

  /** A loop that completes has the events of its steps, each step's
      after the one before, and nothing else. */
  lemma {:induction false} RunCompletedEvents(steps: seq<StepResult>, rules: seq<Value>)
    requires |steps| == |rules| && Run(steps, rules).failure.None?
    ensures Run(steps, rules).events == Flatten(StepEvents(steps))
  {
    if rules != [] {
      RunCompletedEvents(steps[1..], rules[1..]);
      assert StepEvents(steps)[1..] == StepEvents(steps[1..]);
    }
  }

  /** A completed run has the events of its declarations' steps, in the
      order of the declarations: no call is left out, repeated or moved. */
  lemma DispatchCompletedEvents(engine: Engine, rules: seq<Value>)
    requires Dispatch(engine, rules).failure.None?
    ensures Dispatch(engine, rules).events == Flatten(StepEvents(Steps(engine, rules)))
  {
    DispatchIsRun(engine, rules);
    RunCompletedEvents(Steps(engine, rules), rules);
  }

  /** The result of the declarations `done` and `events` so far, followed
      by the run `rest` over the remaining ones. */
  function Combine(done: seq<Value>, events: seq<Event>, rest: DispatchResult): DispatchResult {
    DispatchResult(done + rest.after, events + rest.events, rest.failure)
  }

  lemma CombineAssoc(d1: seq<Value>, e1: seq<Event>, d2: seq<Value>, e2: seq<Event>, rest: DispatchResult)
    ensures Combine(d1, e1, Combine(d2, e2, rest)) == Combine(d1 + d2, e1 + e2, rest)
  {
    assert d1 + (d2 + rest.after) == (d1 + d2) + rest.after;
    assert e1 + (e2 + rest.events) == (e1 + e2) + rest.events;
  }

  /** Steps that all succeed run one after the other before the rest of
      the list is looked at. */
  lemma {:induction false} RunPrefix(steps: seq<StepResult>, rules: seq<Value>, k: nat)
    requires |steps| == |rules| && k <= |rules|
    requires forall j :: 0 <= j < k ==> steps[j].failure.None?
    ensures Run(steps[..k], rules[..k]).failure.None?
    ensures Run(steps, rules) == Combine(Afters(steps[..k]), Run(steps[..k], rules[..k]).events, Run(steps[k..], rules[k..]))
  {
    if k == 0 {
      assert steps[..0] == [] && rules[..0] == [] && steps[0..] == steps && rules[0..] == rules;
      var r := Run(steps, rules);
      assert [] + r.after == r.after && [] + r.events == r.events;
    } else {
      var ts, tr := steps[1..], rules[1..];
      forall j | 0 <= j < k - 1 ensures ts[j].failure.None? {
        assert ts[j] == steps[j + 1];
      }
      RunPrefix(ts, tr, k - 1);
      var s := steps[0];
      var ps, pr := steps[..k], rules[..k];
      assert ps[0] == s && ps[1..] == ts[..k - 1] && pr[1..] == tr[..k - 1];
      assert ts[k - 1..] == steps[k..] && tr[k - 1..] == rules[k..];
      assert Afters(ps) == [s.after] + Afters(ts[..k - 1]);
      CombineAssoc([s.after], s.events, Afters(ts[..k - 1]), Run(ts[..k - 1], tr[..k - 1]).events,
        Run(steps[k..], rules[k..]));
    }
  }

  /** A loop whose first failing step is `k` ends there. */
  lemma RunAborts(steps: seq<StepResult>, rules: seq<Value>, k: nat)
    requires |steps| == |rules| && k < |rules|
    requires steps[k].failure.Some? && forall j :: 0 <= j < k ==> steps[j].failure.None?
    ensures var r := Run(steps, rules);
      var s := steps[k];
      var done := Run(steps[..k], rules[..k]);
      && done.failure.None?
      && r.failure == s.failure
      && r.after == Afters(steps[..k]) + [s.after] + rules[k + 1..]
      && r.events == done.events + s.events + [Logged(Error(s.failure.value))]
  {
    RunPrefix(steps, rules, k);
    var s := steps[k];
    var last := [Logged(Error(s.failure.value))];
    assert Run(steps[k..], rules[k..]) == DispatchResult([s.after] + rules[k + 1..], s.events + last, s.failure) by {
      assert steps[k..][0] == s && rules[k..][1..] == rules[k + 1..];
    }
    var done := Afters(steps[..k]);
    var events := Run(steps[..k], rules[..k]).events;
    assert done + ([s.after] + rules[k + 1..]) == done + [s.after] + rules[k + 1..];
    assert events + (s.events + last) == events + s.events + last;
  }

  /** Declaration `k` is the first whose step fails. */
  predicate FirstFailure(engine: Engine, rules: seq<Value>, k: nat) {
    && k < |rules|
    && Step(engine, rules[k]).failure.Some?
    && forall j :: 0 <= j < k ==> Step(engine, rules[j]).failure.None?
  }

  /** A run that fails stops at the first failing declaration `k`: it
      re-raises that failure after one error record, the declarations
      after `k` are neither dispatched nor changed, and the events are
      those of the declarations up to `k`. */
  lemma DispatchAborts(engine: Engine, rules: seq<Value>, k: nat)
    requires FirstFailure(engine, rules, k)
    ensures var r := Dispatch(engine, rules);
      var s := Step(engine, rules[k]);
      var done := Dispatch(engine, rules[..k]);
      && done.failure.None?
      && r.failure == s.failure
      && r.after == PoppedAll(rules[..k]) + [s.after] + rules[k + 1..]
      && r.events == done.events + s.events + [Logged(Error(s.failure.value))]
  {
    var steps := Steps(engine, rules);
    DispatchIsRun(engine, rules);
    DispatchIsRun(engine, rules[..k]);
    RunAborts(steps, rules, k);
    StepsSlice(engine, rules, 0, k);
    assert rules[0..k] == rules[..k] && steps[0..k] == steps[..k];
    AftersArePopped(engine, rules[..k]);
  }

  /** Some step of a failing loop fails first. */
  lemma {:induction false} RunFailureHasFirst(steps: seq<StepResult>, rules: seq<Value>) returns (k: nat)
    requires |steps| == |rules| && Run(steps, rules).failure.Some?
    ensures k < |steps| && steps[k].failure.Some? && forall j :: 0 <= j < k ==> steps[j].failure.None?
  {
    if steps[0].failure.Some? {
      k := 0;
    } else {
      var k1 := RunFailureHasFirst(steps[1..], rules[1..]);
      k := k1 + 1;
      forall j | 0 <= j < k ensures steps[j].failure.None? {
        if j > 0 { assert steps[j] == steps[1..][j - 1]; }
      }
    }
  }

  /** Some declaration fails first exactly when the run fails. */
  lemma FailureHasFirst(engine: Engine, rules: seq<Value>)
    requires Dispatch(engine, rules).failure.Some?
    ensures exists k: nat :: FirstFailure(engine, rules, k)
  {
    DispatchIsRun(engine, rules);
    var k := RunFailureHasFirst(Steps(engine, rules), rules);
    assert FirstFailure(engine, rules, k);
  }

  /** Two lists with the same steps run alike, except for the untouched
      declarations after a failure. */
  lemma {:induction false} RunSameSteps(steps: seq<StepResult>, a: seq<Value>, b: seq<Value>)
    requires |steps| == |a| == |b|
    ensures Run(steps, a).events == Run(steps, b).events && Run(steps, a).failure == Run(steps, b).failure
    ensures Run(steps, a).failure.None? ==> Run(steps, a).after == Run(steps, b).after
  {
    if steps != [] {
      RunSameSteps(steps[1..], a[1..], b[1..]);
    }
  }

  /** Because the pops change the shared declarations, a second run over
      the same (completed) list dispatches every declaration as HIGH. */
  lemma RerunSeesHigh(engine: Engine, rules: seq<Value>)
    ensures var popped := Dispatch(engine, PoppedAll(rules)); var high := Dispatch(engine, WithHighAll(rules));
      popped.events == high.events && popped.failure == high.failure &&
      (popped.failure.None? ==> popped.after == high.after)
  {
    var a, b := PoppedAll(rules), WithHighAll(rules);
    forall i | 0 <= i < |rules| ensures Step(engine, a[i]) == Step(engine, b[i]) {
      if rules[i].Dict? { StepMissingSeverityIsHigh(engine, rules[i].fields); }
    }
    assert Steps(engine, a) == Steps(engine, b);
    DispatchIsRun(engine, a);
    DispatchIsRun(engine, b);
    RunSameSteps(Steps(engine, a), a, b);
  }

  /** Steps that each succeed with one event: the loop completes with
      those events, in order. */
  lemma {:induction false} RunOneEventEach(steps: seq<StepResult>, rules: seq<Value>)
    requires |steps| == |rules|
    requires forall i :: 0 <= i < |steps| ==> steps[i].failure.None? && |steps[i].events| == 1
    ensures Run(steps, rules).failure.None?
    ensures |Run(steps, rules).events| == |steps|
    ensures forall i :: 0 <= i < |steps| ==> Run(steps, rules).events[i] == steps[i].events[0]
  {
    if steps != [] {
      RunOneEventEach(steps[1..], rules[1..]);
      var r := Run(steps, rules);
      forall i | 1 <= i < |steps| ensures r.events[i] == steps[i].events[0] {
        assert steps[i] == steps[1..][i - 1];
      }
    }
  }

  /** When every declaration names a routine that passes and has a
      `column`, the run completes with exactly one call per declaration,
      in order, and no log record. */
  lemma AllPassedRun(engine: Engine, rules: seq<Value>)
    requires forall i :: 0 <= i < |rules| ==>
      && Dispatchable(engine, rules[i])
      && engine[RuleName(rules[i].fields).s].Routine?
      && "column" in rules[i].fields
      && var v := engine[RuleName(rules[i].fields).s].check(rules[i].fields - {"severity"});
         v.Some? && v.value.success
    ensures Dispatch(engine, rules).failure.None?
    ensures |Dispatch(engine, rules).events| == |rules|
    ensures forall i :: 0 <= i < |rules| ==> Dispatch(engine, rules).events[i] == Invocation(engine, rules[i])
  {
    var steps := Steps(engine, rules);
    forall i | 0 <= i < |rules| ensures steps[i] == StepResult(Popped(rules[i]), [Invocation(engine, rules[i])], None) {
      var v := engine[RuleName(rules[i].fields).s].check(rules[i].fields - {"severity"});
      StepAppliesSeverity(engine, rules[i], v.value);
    }
    DispatchIsRun(engine, rules);
    RunOneEventEach(steps, rules);
  }

  /** The dispatcher's own events: calls of rules and log records. */
  predicate EngineEvent(e: Event) {
    e.Logged? || e.Invoked?
  }

  lemma {:induction false} RunEvents(steps: seq<StepResult>, rules: seq<Value>)
    requires |steps| == |rules|
    requires forall i, e :: 0 <= i < |steps| && e in steps[i].events ==> EngineEvent(e)
    ensures forall e :: e in Run(steps, rules).events ==> EngineEvent(e)
  {
    if steps != [] {
      forall i, e | 0 <= i < |steps| - 1 && e in steps[1..][i].events ensures EngineEvent(e) {
        assert steps[1..][i] == steps[i + 1];
      }
      RunEvents(steps[1..], rules[1..]);
    }
  }

  /** A step's events are its call and the decorator's log records. */
  lemma StepMakesEngineEvents(engine: Engine, decl: Value)
    ensures forall e :: e in Step(engine, decl).events ==> EngineEvent(e)
  {
  }

  /** A run only calls rules and logs: it makes no other call. */
  lemma DispatchEvents(engine: Engine, rules: seq<Value>)
    ensures forall e :: e in Dispatch(engine, rules).events ==> EngineEvent(e)
  {
    var steps := Steps(engine, rules);
    forall i | 0 <= i < |steps| ensures forall e :: e in steps[i].events ==> EngineEvent(e) {
      StepMakesEngineEvents(engine, rules[i]);
    }
    DispatchIsRun(engine, rules);
    RunEvents(steps, rules);
  }

  lemma UpdateSplice(done: seq<Value>, x: Value, rest: seq<Value>)
    requires rest != []
    ensures (done + rest)[|done| := x] == done + [x] + rest[1..]
  {
    var lhs := (done + rest)[|done| := x];
    var rhs := done + [x] + rest[1..];
    assert |lhs| == |rhs|;
    forall j | 0 <= j < |lhs| ensures lhs[j] == rhs[j] {
      if j < |done| { } else if j == |done| { } else { assert rhs[j] == rest[1..][j - |done| - 1]; }
    }
  }

  /** One more step of the loop, when it succeeds. */
  lemma RunAdvance(steps: seq<StepResult>, rules: seq<Value>, i: nat, whole: DispatchResult, done: seq<Value>, events: seq<Event>)
    requires |steps| == |rules| && i < |rules| && steps[i].failure.None?
    requires whole == Combine(done, events, Run(steps[i..], rules[i..]))
    ensures whole == Combine(done + [steps[i].after], events + steps[i].events, Run(steps[i + 1..], rules[i + 1..]))
  {
    assert steps[i..][0] == steps[i] && steps[i..][1..] == steps[i + 1..];
    assert rules[i..][1..] == rules[i + 1..];
    CombineAssoc(done, events, [steps[i].after], steps[i].events, Run(steps[i + 1..], rules[i + 1..]));
  }

  /** The step of the loop that fails ends it. */
  lemma RunStop(steps: seq<StepResult>, rules: seq<Value>, i: nat, whole: DispatchResult, done: seq<Value>, events: seq<Event>)
    requires |steps| == |rules| && i < |rules| && steps[i].failure.Some?
    requires whole == Combine(done, events, Run(steps[i..], rules[i..]))
    ensures whole == DispatchResult(done + [steps[i].after] + rules[i + 1..],
      events + steps[i].events + [Logged(Error(steps[i].failure.value))], steps[i].failure)
  {
    var s := steps[i];
    assert steps[i..][0] == s && rules[i..][1..] == rules[i + 1..];
    CombineAssoc(done, events, [s.after], s.events + [Logged(Error(s.failure.value))],
      DispatchResult(rules[i + 1..], [], s.failure));
  }

  /** One turn of the loop: declaration `i` is replaced by what its step
      left, and the run either goes on or stops there. */
  lemma InPlaceTurn(steps: seq<StepResult>, rules: seq<Value>, i: nat, whole: DispatchResult,
                    done: seq<Value>, events: seq<Event>, before: seq<Value>, after: seq<Value>)
    requires |steps| == |rules| && i < |rules| && |done| == i
    requires before == done + rules[i..] && after == before[i := steps[i].after]
    requires whole == Combine(done, events, Run(steps[i..], rules[i..]))
    ensures after == done + [steps[i].after] + rules[i + 1..]
    ensures steps[i].failure.None? ==>
      whole == Combine(done + [steps[i].after], events + steps[i].events, Run(steps[i + 1..], rules[i + 1..]))
    ensures steps[i].failure.Some? ==>
      whole == DispatchResult(after, events + steps[i].events + [Logged(Error(steps[i].failure.value))], steps[i].failure)
  {
    assert rules[i..][1..] == rules[i + 1..];
    UpdateSplice(done, steps[i].after, rules[i..]);
    if steps[i].failure.Some? {
      RunStop(steps, rules, i, whole, done, events);
    } else {
      RunAdvance(steps, rules, i, whole, done, events);
    }
  }

  /** The loop over the declarations of `rules`, each replaced in place by
      what `step` leaves of it; `steps` are those steps, named beforehand. */
  method RunInPlace(step: Value -> StepResult, rules: array<Value>, ghost steps: seq<StepResult>) returns (events: seq<Event>, failure: Option<Failure>)
    requires |steps| == rules.Length
    requires forall j :: 0 <= j < |steps| ==> steps[j] == step(rules[j])
    modifies rules
    ensures var d := Run(steps, old(rules[..]));
      rules[..] == d.after && events == d.events && failure == d.failure
  {
    ghost var orig := rules[..];
    ghost var whole := Run(steps, orig);
    ghost var done: seq<Value> := [];
    events, failure := [], None;
    var i := 0;
    while i < rules.Length
      invariant 0 <= i <= rules.Length && |done| == i
      invariant rules[..] == done + orig[i..]
      invariant whole == Combine(done, events, Run(steps[i..], orig[i..]))
    {
      assert rules[i] == orig[i];
      var s := step(rules[i]);
      ghost var before := rules[..];
      rules[i] := s.after;
      assert rules[..] == before[i := s.after];
      InPlaceTurn(steps, orig, i, whole, done, events, before, rules[..]);
      if s.failure.Some? {
        events := events + s.events + [Logged(Error(s.failure.value))];
        failure := s.failure;
        return;
      }
      events := events + s.events;
      done := done + [s.after];
      i := i + 1;
    }
    assert orig[i..] == [];
    assert done == done + orig[i..];
  }

  /** The loop itself, over the list of declaration dictionaries, each
      popped in place. */
  method DispatchInPlace(engine: Engine, rules: array<Value>) returns (events: seq<Event>, failure: Option<Failure>)
    modifies rules
    ensures var d := Dispatch(engine, old(rules[..]));
      rules[..] == d.after && events == d.events && failure == d.failure
  {
    DispatchIsRun(engine, rules[..]);
    events, failure := RunInPlace(d => Step(engine, d), rules, Steps(engine, rules[..]));
  }

  /** The rule list the engine walks: the document itself projected
      (`[*]`) when `key_path` is None, else `query_dq[*].<key_path>`. */
  function SelectRules(config: Value, keyPath: Option<string>): Option<seq<Value>> {
    match keyPath
    case None => ProjectAll(config)
    case Some(k) => ProjectField(config, "query_dq", k)
  }

  /** `run_yaml_rules(yaml_file, key_path)`: a selection that is not a list
      fails the `for` before any declaration (and is not logged); otherwise
      the declarations are dispatched in order. */
  method RunYamlRules(engine: Engine, config: Value, keyPath: Option<string>) returns (r: DispatchResult)
    ensures SelectRules(config, keyPath).None? ==> r == DispatchResult([], [], Some(NotIterable))
    ensures SelectRules(config, keyPath).Some? ==> r == Dispatch(engine, SelectRules(config, keyPath).value)
  {
    match SelectRules(config, keyPath)
    case None =>
      r := DispatchResult([], [], Some(NotIterable));
    case Some(selected) =>
      var rules := new Value[|selected|](i requires 0 <= i < |selected| => selected[i]);
      assert rules[..] == selected;
      var events, failure := DispatchInPlace(engine, rules);
      r := DispatchResult(rules[..], events, failure);
  }
}
