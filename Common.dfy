/** Types shared by the client-side and server-side models: an optional value,
    opaque batch payloads, and the connection whose sends are recorded in a log. */
module Common {

  datatype Option<+T> = None | Some(value: T)

  newtype byte = x: int | 0 <= x < 256

  /** The serialized bytes of one render batch (a Uint8Array on the client).
      The model never looks inside a payload. */
  type Payload = seq<byte>

  /** What the browser sends back to the server. `OnRenderCompleted(id, false)`
      acknowledges batch `id`; `OnRenderCompleted(id, true)` carries the text of
      an exception thrown while applying a batch (the text itself is abstracted). */
  datatype Message = OnRenderCompleted(batchId: int, failed: bool)

  /** A hub connection, reduced to the log of every send attempt made on it.
      A send may fail at the transport; the attempt is recorded either way,
      since every caller in the modelled code swallows or ignores that failure. */
  class Connection {
    var sent: seq<Message>

    constructor ()
      ensures sent == []
    {
      sent := [];
    }

    method Send(m: Message)
      modifies this
      ensures sent == old(sent) + [m]
    {
      sent := sent + [m];
    }
  }

  /** No value occurs twice in `s`. */
  predicate NoDuplicates<T(==)>(s: seq<T>) {
    forall i, j :: 0 <= i < j < |s| ==> s[i] != s[j]
  }
}
