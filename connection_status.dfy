/** The backend connection badge (components/connection-status.tsx): how
    a connectivity probe's outcome is classified, the message kept from a
    failure, what is reported to the page, and the status label.  The
    probe itself and its 30-second repetition are inputs. */
module ConnectionStatus {
  import opened Wrappers
  import opened Text

  datatype Status = Checking | Connected | CorsError | NetworkError | ServerError

  /** What `testConnection` yields: an answer, or a thrown value with its
      `message` (`None` when it has none). */
  datatype Probe = Answered(isConnected: bool) | Failed(message: Option<string>)

  /** The value passed to `onConnectionChange`. */
  datatype Report = ReportConnected | ReportError

  /** `error.message?.toLowerCase().includes(word)`: false without a message. */
  predicate Mentions(message: Option<string>, word: string) {
    message.Some? && Contains(Lower(message.value), word)
  }

  /** The status a finished check settles on: connected only on a true
      answer; a failure that mentions "cors" (in any case) is a CORS
      error, tested first; one that mentions "network" or "fetch" means
      the backend is offline; everything else is a server error. */
  function Classify(probe: Probe): (s: Status)
    ensures s != Checking
    ensures s == Connected <==> probe == Answered(true)
    ensures s == CorsError <==> probe.Failed? && Mentions(probe.message, "cors")
    ensures s == NetworkError <==>
      probe.Failed? && !Mentions(probe.message, "cors")
      && (Mentions(probe.message, "network") || Mentions(probe.message, "fetch"))
    ensures s == ServerError <==>
      probe == Answered(false)
      || (probe.Failed? && !Mentions(probe.message, "cors")
          && !Mentions(probe.message, "network") && !Mentions(probe.message, "fetch"))
  {
    match probe
    case Answered(isConnected) => if isConnected then Connected else ServerError
    case Failed(message) =>
      if Mentions(message, "cors") then CorsError
      else if Mentions(message, "network") || Mentions(message, "fetch") then NetworkError
      else ServerError
  }

  /** `error.message || 'Unknown error'`. */
  function FailureText(message: Option<string>): (r: string)
    ensures r != ""
    ensures message.Some? && message.value != "" ==> r == message.value
  {
    if message.Some? && message.value != "" then message.value else "Unknown error"
  }

  /** The test ignores case: a message "CORS" is a CORS error, and one
      without a message is a server error. */
  lemma CaseIgnored()
    ensures Classify(Failed(Some("CORS"))) == CorsError
    ensures Classify(Failed(None)) == ServerError
  {
    assert Lower("CORS") == "cors";
    assert OccursAt("cors", "cors", 0);
  }

  class Monitor {
    var status: Status
    var lastError: string

    constructor()
      ensures status == Checking && lastError == ""
    {
      status := Checking;
      lastError := "";
    }

    /** `checkConnection`: checking with no error first; then the status
        the probe's outcome classifies to, the failure's message kept, and
        the report passed on: connected only when connected. */
    method CheckConnection(probe: Probe) returns (report: Report)
      modifies this
      ensures status == Classify(probe)
      ensures lastError == (if probe.Failed? then FailureText(probe.message) else "")
      ensures report == ReportConnected <==> status == Connected
    {
      status := Checking;
      lastError := "";
      match probe {
        case Answered(isConnected) =>
          if isConnected {
            status := Connected;
            report := ReportConnected;
          } else {
            status := ServerError;
            report := ReportError;
          }
        case Failed(message) =>
          lastError := FailureText(message);
          if Mentions(message, "cors") {
            status := CorsError;
          } else if Mentions(message, "network") || Mentions(message, "fetch") {
            status := NetworkError;
          } else {
            status := ServerError;
          }
          report := ReportError;
      }
    }
  }

  /** `getStatusText`: one fixed label per status. */
  function StatusText(s: Status): (r: string)
    ensures s == Checking <==> r == "Checking..."
    ensures s == Connected <==> r == "Connected"
    ensures s == CorsError <==> r == "CORS Error"
    ensures s == NetworkError <==> r == "Backend Offline"
    ensures s == ServerError <==> r == "Server Error"
  {
    match s
    case Checking => "Checking..."
    case Connected => "Connected"
    case CorsError => "CORS Error"
    case NetworkError => "Backend Offline"
    case ServerError => "Server Error"
  }
}
