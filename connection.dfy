/** Specification of the connection state machine: the state and the error message after each
    lifecycle event. */
module Connection {
  import opened SessionTypes

  /** Shown when the session reports an error. */
  const ServerErrorMessage: string := "Error de conexión con el servidor."

  /** Shown when the microphone or the service could not be acquired while connecting. */
  const AcquisitionErrorMessage: string := "No se pudo acceder al micrófono o conectar con el servicio."

  datatype Event =
    | UserConnect         // the start button: state and message reset
    | SessionOpen         // the session's open callback
    | SessionClose        // the session's close callback
    | SessionError        // the session's error callback
    | AcquisitionFailure  // the connect attempt threw
    | UserDisconnect      // the end-call button

  /** The observable connection status: the state and the message shown with it. */
  datatype Status = Status(state: ConnectionState, errorMsg: Option<string>)

  /** The state each event sets, whatever the state before. */
  function Target(e: Event): ConnectionState {
    match e
    case UserConnect => Connecting
    case SessionOpen => Connected
    case SessionClose => Disconnected
    case SessionError => Error
    case AcquisitionFailure => Error
    case UserDisconnect => Disconnected
  }

  /** The status after one event. */
  function Apply(s: Status, e: Event): Status {
    match e
    case UserConnect => Status(Connecting, None)
    case SessionError => Status(Error, Some(ServerErrorMessage))
    case AcquisitionFailure => Status(Error, Some(AcquisitionErrorMessage))
    case _ => s.(state := Target(e))
  }

  /** The status after a sequence of events. */
  function Run(s: Status, trace: seq<Event>): Status
    decreases |trace|
  {
    if trace == [] then s else Run(Apply(s, trace[0]), trace[1..])
  }

  /** The start button is offered only at rest. */
  predicate CanConnect(state: ConnectionState) {
    state == Disconnected || state == Error
  }

  /** The end-call button is offered only while connected. */
  predicate CanDisconnect(state: ConnectionState) {
    state == Connected
  }

  /** An error state always comes with a message. */
  predicate Consistent(s: Status) {
    s.state == Error ==> s.errorMsg.Some?
  }

  /** Every event keeps an error state paired with its message. */
  lemma {:induction false} RunKeepsConsistent(s: Status, trace: seq<Event>)
    requires Consistent(s)
    ensures Consistent(Run(s, trace))
    decreases |trace|
  {
    if trace != [] {
      RunKeepsConsistent(Apply(s, trace[0]), trace[1..]);
    }
  }

  /** Transitions are unconditional: after a non-empty trace the state is the one its last event sets,
      whatever the state before. */
  lemma {:induction false} StateSetByLastEvent(s: Status, trace: seq<Event>)
    requires trace != []
    ensures Run(s, trace).state == Target(trace[|trace| - 1])
    decreases |trace|
  {
    if |trace| > 1 {
      StateSetByLastEvent(Apply(s, trace[0]), trace[1..]);
    }
  }

  /** Only a new connect attempt clears the message: open, close and disconnect leave it shown. */
  lemma {:induction false} MessageKeptUntilConnect(s: Status, trace: seq<Event>)
    requires forall i :: 0 <= i < |trace| ==> trace[i] != UserConnect
    requires s.errorMsg.Some?
    ensures Run(s, trace).errorMsg.Some?
    decreases |trace|
  {
    if trace != [] {
      MessageKeptUntilConnect(Apply(s, trace[0]), trace[1..]);
    }
  }

  /** The two failure paths are told apart by their messages. */
  lemma FailureMessagesDistinct(s: Status, t: Status)
    ensures Apply(s, SessionError).errorMsg != Apply(t, AcquisitionFailure).errorMsg
    ensures Apply(s, SessionError).state == Apply(t, AcquisitionFailure).state == Error
  {
  }

  /** From a rest state the user can connect; while connecting no button acts; once connected only
      disconnect is offered. */
  lemma ButtonsExclusive(state: ConnectionState)
    ensures !(CanConnect(state) && CanDisconnect(state))
    ensures CanConnect(state) || CanDisconnect(state) <==> state != Connecting
  {
  }
}
