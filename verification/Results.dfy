/** What readers take from a run's public result document. */
module Results {
  import opened Json

  predicate Paused(result: Value) {
    Text(Get(result, "state")) == Some("uncertain") && Flag(Get(result, "terminal")) == Some(false)
  }

  predicate Terminal(result: Value) {
    Flag(Get(result, "terminal")) == Some(true)
  }

  function EscalationOf(result: Value): Option<string> {
    Text(Pointer(result, ["escalation", "id"]))
  }

  function ExitCode(result: Value): Option<nat> {
    match Text(Get(result, "state"))
    case None => None
    case Some(state) =>
      if state == "passed" then Some(0)
      else if state == "uncertain" then Some(2)
      else if state == "blocked" then Some(3)
      else if state == "failed" then Some(4)
      else if state == "aborted" || state == "expired" then Some(5)
      else if state == "running" then Some(6)
      else None
  }
}
