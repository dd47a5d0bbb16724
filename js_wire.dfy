/**
 * What the JavaScript side sees of a WebSocket connection once the
 * `json-rpc-protocol` library has parsed or formatted the text: decoded
 * payloads, and a network that records, in order, every payload sent and
 * every message listener attached to or detached from a connection.
 */
module JsWire {
  import opened Wrappers
  import opened Json

  /** The identity of one `WebSocket` object. */
  datatype Conn = Conn(n: nat)

  /**
   * The `error` member of an error payload: a `JsonRpcError` (whose code, when
   * the code does not give one, is the library's default and so is left
   * `None` here), or an arbitrary thrown value sent as it is.
   */
  datatype ErrorValue =
    | Structured(code: Option<int>, message: string, data: Option<Value>)
    | Raw(value: Value)

  /** The four payload types the library distinguishes by `rpc.type`. */
  datatype Payload =
    | Request(id: Value, methodName: string, params: Option<Value>)
    | Notification(methodName: string, params: Option<Value>)
    | Response(id: Value, result: Value)
    | ErrorReply(id: Value, error: ErrorValue)

  /** What `parse` makes of the text of one message. */
  datatype Decoded =
    | Unreadable
    | Single(payload: Payload)
    | Batch(payloads: seq<Payload>)

  datatype NetEvent =
    | Sent(to: Conn, payload: Payload)
    | Listen(on: Conn, call: nat)
    | Unlisten(on: Conn, call: nat)

  /** The message listeners attached after the events of `log`, each named by the call it serves. */
  function Attached(log: seq<NetEvent>): set<(Conn, nat)>
  {
    if log == [] then {}
    else
      var before := Attached(log[..|log| - 1]);
      match log[|log| - 1]
      case Sent(_, _) => before
      case Listen(c, id) => before + {(c, id)}
      case Unlisten(c, id) => before - {(c, id)}
  }

  class Network {
    var log: seq<NetEvent>
    var listeners: set<(Conn, nat)>

    ghost predicate Valid()
      reads this
    {
      listeners == Attached(log)
    }

    constructor ()
      ensures Valid() && log == []
    {
      log := [];
      listeners := {};
    }

    /** `ws.send(...)` of a formatted payload. */
    method Send(c: Conn, p: Payload)
      requires Valid()
      modifies this
      ensures Valid()
      ensures log == old(log) + [Sent(c, p)] && listeners == old(listeners)
    {
      log := log + [Sent(c, p)];
      assert log[..|log| - 1] == old(log);
    }

    /** `ws.addListener('message', ...)` for the listener of call `id`. */
    method AddListener(c: Conn, id: nat)
      requires Valid()
      modifies this
      ensures Valid()
      ensures log == old(log) + [Listen(c, id)] && listeners == old(listeners) + {(c, id)}
    {
      log := log + [Listen(c, id)];
      listeners := listeners + {(c, id)};
      assert log[..|log| - 1] == old(log);
    }

    /** `ws.removeListener('message', ...)` for the listener of call `id`. */
    method RemoveListener(c: Conn, id: nat)
      requires Valid()
      modifies this
      ensures Valid()
      ensures log == old(log) + [Unlisten(c, id)] && listeners == old(listeners) - {(c, id)}
    {
      log := log + [Unlisten(c, id)];
      listeners := listeners - {(c, id)};
      assert log[..|log| - 1] == old(log);
    }
  }
}
