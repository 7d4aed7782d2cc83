/** The `SeverityLevel` enumeration of data_quality/utills.py and the
    lookup `SeverityLevel[name]` by exact member name. */
module Severity {
  import opened Results

  /** HIGH aborts the run, MEDIUM warns and goes on, LOW informs and goes on. */
  datatype SeverityLevel = HIGH | MEDIUM | LOW

  /** `level.name`, the text the diagnostics print. */
  function Name(level: SeverityLevel): string {
    match level
    case HIGH => "HIGH"
    case MEDIUM => "MEDIUM"
    case LOW => "LOW"
  }

  /** `SeverityLevel[name]`: the member whose name is exactly `name`;
      `None` stands for the `KeyError` of any other string. */
  function FromName(name: string): (r: Option<SeverityLevel>)
    ensures r.Some? <==> name in {"HIGH", "MEDIUM", "LOW"}
    ensures forall level :: r == Some(level) <==> name == Name(level)
  {
    if name == "HIGH" then Some(HIGH)
    else if name == "MEDIUM" then Some(MEDIUM)
    else if name == "LOW" then Some(LOW)
    else None
  }
}
