/** The `handle_expectation_result` decorator of data_quality/rules.py:
    it takes `severity` out of the keyword arguments (HIGH by default),
    runs the expectation routine on the rest and turns the result into an
    exception, a warning, an info record or nothing. */
module Expectation {
  import opened Results
  import opened Severity
  import opened Values
  import opened Outcomes

  /** What the decorator does with a result. */
  datatype Action = Raise | Warn | Inform | Silent

  /** The severity policy: a failed HIGH rule raises, a failed MEDIUM rule
      warns, any other failed rule informs, and a passed rule stays silent. */
  function Policy(success: bool, severity: SeverityLevel): (a: Action)
    ensures a == Raise <==> !success && severity == HIGH
    ensures a == Warn <==> !success && severity == MEDIUM
    ensures a == Inform <==> !success && severity == LOW
    ensures a == Silent <==> success
  {
    if success then Silent
    else match severity
      case HIGH => Raise
      case MEDIUM => Warn
      case LOW => Inform  // the `else` branch: the only member left
  }

  /** The decorated call ends by returning `None` after logging `logs`, or
      by raising. It never hands back the validation result. */
  datatype Wrapped = Returned(logs: seq<LogRecord>) | Raised(error: Failure)

  /** `kwargs.pop('severity', default)`. */
  function SeverityOf(kwargs: Kwargs, default: SeverityLevel): SeverityLevel
    requires "severity" in kwargs ==> kwargs["severity"].Level?
  {
    if "severity" in kwargs then kwargs["severity"].level else default
  }

  /** The diagnostic a failure message is built from. */
  function DiagnosticOf(v: ValidationResult, severity: SeverityLevel): Diagnostic {
    Diagnostic(v.column, v.ruleType, severity, v.unexpectedPercent, v.elementCount)
  }

  /** The decorated routine called with `kwargs`. `check` is the routine
      itself (`None` when it raises); it receives `kwargs` without
      `severity`. The success branch reads `kwargs['column']` to build a
      message it never logs. */
  function Wrap(check: Kwargs -> Option<ValidationResult>, kwargs: Kwargs, default: SeverityLevel): (w: Wrapped)
    requires "severity" in kwargs ==> kwargs["severity"].Level?
    ensures w.Returned? ==> |w.logs| <= 1
    ensures check(kwargs - {"severity"}).None? ==> w == Raised(CheckRaised)
    ensures forall v :: check(kwargs - {"severity"}) == Some(v) ==>
      var d := DiagnosticOf(v, SeverityOf(kwargs, default));
      && (!v.success && d.severity == HIGH ==> w == Raised(ValidationFailed(d)))
      && (!v.success && d.severity == MEDIUM ==> w == Returned([Warning(d)]))
      && (!v.success && d.severity == LOW ==> w == Returned([Info(d)]))
      && (v.success ==> w == if "column" in kwargs then Returned([]) else Raised(MissingColumn))
  {
    var severity := SeverityOf(kwargs, default);
    var args := kwargs - {"severity"};
    match check(args)
    case None => Raised(CheckRaised)
    case Some(v) =>
      var d := DiagnosticOf(v, severity);
      match Policy(v.success, severity)
      case Raise => Raised(ValidationFailed(d))
      case Warn => Returned([Warning(d)])
      case Inform => Returned([Info(d)])
      case Silent => if "column" in args then Returned([]) else Raised(MissingColumn)
  }

  /** The routine never sees `severity`: two routines that agree on every
      severity-free argument map behave the same under the decorator. */
  lemma WrapHidesSeverity(check1: Kwargs -> Option<ValidationResult>, check2: Kwargs -> Option<ValidationResult>,
                          kwargs: Kwargs, default: SeverityLevel)
    requires "severity" in kwargs ==> kwargs["severity"].Level?
    requires forall a :: "severity" !in a ==> check1(a) == check2(a)
    ensures Wrap(check1, kwargs, default) == Wrap(check2, kwargs, default)
  {
    assert "severity" !in kwargs - {"severity"};
  }

  /** A missing `severity` behaves as `severity=SeverityLevel.HIGH`, the
      decorator's default. */
  lemma MissingSeverityIsHigh(check: Kwargs -> Option<ValidationResult>, kwargs: Kwargs)
    requires "severity" !in kwargs
    ensures Wrap(check, kwargs, HIGH) == Wrap(check, kwargs["severity" := Level(HIGH)], MEDIUM)
  {
    assert kwargs["severity" := Level(HIGH)] - {"severity"} == kwargs - {"severity"};
  }

  /** Only a failed HIGH rule, a raising routine or a passed rule without
      a `column` argument raise; everything else returns. */
  lemma OnlyHighFailureRaisesValidation(check: Kwargs -> Option<ValidationResult>, kwargs: Kwargs, default: SeverityLevel)
    requires "severity" in kwargs ==> kwargs["severity"].Level?
    ensures Wrap(check, kwargs, default).Raised? && Wrap(check, kwargs, default).error.ValidationFailed? <==>
      check(kwargs - {"severity"}).Some? && !check(kwargs - {"severity"}).value.success &&
      SeverityOf(kwargs, default) == HIGH
  {
  }
}
