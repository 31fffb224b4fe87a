/** Shared value types of the voice support-intake client (types.ts). */
module SessionTypes {

  /** A value that may be absent: the source's `T | null` refs and state. */
  datatype Option<+T> = None | Some(value: T)

  /** The four connection states; exactly one holds at any time. */
  datatype ConnectionState = Disconnected | Connecting | Connected | Error

  /** The typed support ticket with its six string fields. */
  datatype SupportTicket = SupportTicket(
    nombre: string,
    correo: string,
    municipalidad: string,
    area: string,
    modulo: string,
    problema: string)

  /** Audio-clock times and durations: `currentTime` and `AudioBuffer.duration` are never negative. */
  type Seconds = r: real | 0.0 <= r

  /** The arguments of a function call as the remote model sends them: named string values. */
  type Args = map<string, string>
}
