/** The printer connection/operation states and their integer codes (the `States` enumeration).
    The host reports a state by its member name; the first feature of every row is the code. */
module States {
  import opened Wrappers

  datatype State =
    | OpenSerial | DetectSerial | DetectBaudrate | Connecting | Operational
    | Printing | Paused | Closed | Error | ClosedWithError | TransferingFile
    | Offline | Unknown | NoneState   // NoneState is the member called NONE

  /** Number of members of the enumeration. */
  const StateCount: nat := 14

  /** The member's value. */
  function Code(s: State): (c: nat)
    ensures c < StateCount
  {
    match s
    case OpenSerial => 0
    case DetectSerial => 1
    case DetectBaudrate => 2
    case Connecting => 3
    case Operational => 4
    case Printing => 5
    case Paused => 6
    case Closed => 7
    case Error => 8
    case ClosedWithError => 9
    case TransferingFile => 10
    case Offline => 11
    case Unknown => 12
    case NoneState => 13
  }

  /** The member's name, as the host reports it. */
  function Name(s: State): (n: string)
    ensures n != ""
  {
    match s
    case OpenSerial => "OPEN_SERIAL"
    case DetectSerial => "DETECT_SERIAL"
    case DetectBaudrate => "DETECT_BAUDRATE"
    case Connecting => "CONNECTING"
    case Operational => "OPERATIONAL"
    case Printing => "PRINTING"
    case Paused => "PAUSED"
    case Closed => "CLOSED"
    case Error => "ERROR"
    case ClosedWithError => "CLOSED_WITH_ERROR"
    case TransferingFile => "TRANSFERING_FILE"
    case Offline => "OFFLINE"
    case Unknown => "UNKNOWN"
    case NoneState => "NONE"
  }

  /** `States[name]`: the member with that name; None stands for the KeyError raised otherwise. */
  function FromName(name: string): (r: Option<State>)
    ensures r.Some? ==> Name(r.value) == name
  {
    if name == "OPEN_SERIAL" then Some(OpenSerial)
    else if name == "DETECT_SERIAL" then Some(DetectSerial)
    else if name == "DETECT_BAUDRATE" then Some(DetectBaudrate)
    else if name == "CONNECTING" then Some(Connecting)
    else if name == "OPERATIONAL" then Some(Operational)
    else if name == "PRINTING" then Some(Printing)
    else if name == "PAUSED" then Some(Paused)
    else if name == "CLOSED" then Some(Closed)
    else if name == "ERROR" then Some(Error)
    else if name == "CLOSED_WITH_ERROR" then Some(ClosedWithError)
    else if name == "TRANSFERING_FILE" then Some(TransferingFile)
    else if name == "OFFLINE" then Some(Offline)
    else if name == "UNKNOWN" then Some(Unknown)
    else if name == "NONE" then Some(NoneState)
    else None
  }

  /** `States(code)`: the member with that value, None for any other integer. */
  function FromCode(c: int): (r: Option<State>)
    ensures r.Some? <==> 0 <= c < StateCount
    ensures r.Some? ==> Code(r.value) == c
  {
    if c == 0 then Some(OpenSerial)
    else if c == 1 then Some(DetectSerial)
    else if c == 2 then Some(DetectBaudrate)
    else if c == 3 then Some(Connecting)
    else if c == 4 then Some(Operational)
    else if c == 5 then Some(Printing)
    else if c == 6 then Some(Paused)
    else if c == 7 then Some(Closed)
    else if c == 8 then Some(Error)
    else if c == 9 then Some(ClosedWithError)
    else if c == 10 then Some(TransferingFile)
    else if c == 11 then Some(Offline)
    else if c == 12 then Some(Unknown)
    else if c == 13 then Some(NoneState)
    else None
  }

  /** Every member is found under its own name and under its own code. */
  lemma RoundTrips(s: State)
    ensures FromName(Name(s)) == Some(s)
    ensures FromCode(Code(s)) == Some(s)
  {
  }

  /** Distinct members have distinct codes and distinct names. */
  lemma Injective(s: State, t: State)
    ensures Code(s) == Code(t) ==> s == t
    ensures Name(s) == Name(t) ==> s == t
  {
    RoundTrips(s);
    RoundTrips(t);
  }
}
