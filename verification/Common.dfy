module Common {
  datatype Option<+T> = None | Some(value: T) {
    function GetOr(default: T): T {
      if Some? then value else default
    }
  }

  /** Whether a call gets through: anything may happen unless calls are `sure` to. */
  method Chance(sure: bool) returns (ok: bool)
    ensures sure ==> ok
  {
    ok := *;
    if sure { ok := true; }
  }
}
