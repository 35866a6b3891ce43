/** Nagios state codes and the names and problem classification the status
    page gives them. Hosts report 0 (UP), 1 (DOWN) or 2 (UNREACHABLE);
    services report 0 (OK), 1 (WARNING), 2 (CRITICAL) or 3 (UNKNOWN). Any
    other code is shown as "UNKNOWN". */
module StateCodes {
  import opened Common

  /** Whether an incident concerns a whole host or one service on a host. */
  datatype IncidentType = HostIncident | ServiceIncident

  /** Parses a host state name back to its code; the inverse of `HostStateName`
      on the codes that have a name of their own. */
  function HostStateCode(name: string): Option<int>
  {
    if name == "UP" then Some(0)
    else if name == "DOWN" then Some(1)
    else if name == "UNREACHABLE" then Some(2)
    else None
  }

  /** Parses a service state name back to its code. */
  function ServiceStateCode(name: string): Option<int>
  {
    if name == "OK" then Some(0)
    else if name == "WARNING" then Some(1)
    else if name == "CRITICAL" then Some(2)
    else if name == "UNKNOWN" then Some(3)
    else None
  }

  /** The name shown for a host state code. */
  function HostStateName(code: int): (name: string)
    ensures name in {"UP", "DOWN", "UNREACHABLE", "UNKNOWN"}
    ensures name == "UNKNOWN" <==> !(0 <= code <= 2)
    ensures 0 <= code <= 2 ==> HostStateCode(name) == Some(code)
  {
    if code == 0 then "UP"
    else if code == 1 then "DOWN"
    else if code == 2 then "UNREACHABLE"
    else "UNKNOWN"
  }

  /** The name shown for a service state code; 3 and every unmapped code
      share the name "UNKNOWN". */
  function ServiceStateName(code: int): (name: string)
    ensures name in {"OK", "WARNING", "CRITICAL", "UNKNOWN"}
    ensures 0 <= code <= 3 ==> ServiceStateCode(name) == Some(code)
    ensures !(0 <= code <= 3) ==> name == "UNKNOWN"
  {
    if code == 0 then "OK"
    else if code == 1 then "WARNING"
    else if code == 2 then "CRITICAL"
    else "UNKNOWN"
  }

  /** A host is a problem when it is DOWN or UNREACHABLE. */
  predicate IsHostProblem(code: int)
    ensures IsHostProblem(code) <==> HostStateName(code) in {"DOWN", "UNREACHABLE"}
  {
    code == 1 || code == 2
  }

  /** A service is a problem when it is WARNING, CRITICAL or UNKNOWN (code 3).
      An unmapped code is named "UNKNOWN" too but is not a problem. */
  predicate IsServiceProblem(code: int)
    ensures IsServiceProblem(code) <==> 0 <= code <= 3 && ServiceStateName(code) != "OK"
  {
    code == 1 || code == 2 || code == 3
  }

  /** The incident tracker's state name for an entity of the given type. */
  function StateName(kind: IncidentType, code: int): (name: string)
    ensures kind == HostIncident ==> (name == "UP" <==> code == 0) && (name == "DOWN" <==> code == 1)
    ensures kind == ServiceIncident ==>
              (name == "OK" <==> code == 0) && (name == "WARNING" <==> code == 1) && (name == "CRITICAL" <==> code == 2)
  {
    match kind
    case HostIncident => HostStateName(code)
    case ServiceIncident => ServiceStateName(code)
  }

  /** The incident tracker's problem test: never true of state 0. */
  predicate IsProblemState(kind: IncidentType, code: int)
    ensures IsProblemState(kind, code) ==> code != 0
    ensures IsProblemState(kind, code) ==> StateName(kind, code) !in {"UP", "OK"}
    ensures kind == HostIncident ==> (IsProblemState(kind, code) <==> StateName(kind, code) in {"DOWN", "UNREACHABLE"})
    ensures kind == ServiceIncident ==> (IsProblemState(kind, code) <==> 0 <= code <= 3 && StateName(kind, code) != "OK")
  {
    match kind
    case HostIncident => IsHostProblem(code)
    case ServiceIncident => IsServiceProblem(code)
  }
}
