/**
 * Streaming-transport sessions. The multi-session server keeps a map from
 * session id to transport: an entry is set when a connection opens and
 * deleted when it closes, and `POST /messages` is routed by the id it names.
 * The earlier server keeps a single slot holding the latest transport.
 *
 * Transports are opaque handles `H`; what a transport does with a posted
 * message is not part of this model.
 */
module Sessions {
  import opened Wrappers
  import opened JsValues

  /** The answer to `POST /messages`: an error status with its JSON `error`, or the transport that handles it. */
  datatype Response<H> = Status(code: int, error: string) | Forward(transport: H)

  /** `activeTransports`. */
  type Registry<H> = map<string, H>

  /** `activeTransports.set(transport.sessionId, transport)` on `GET /sse`. */
  function Open<H>(reg: Registry<H>, id: string, h: H): (r: Registry<H>)
    ensures r.Keys == reg.Keys + {id}
    ensures r[id] == h
    ensures forall k :: k in reg && k != id ==> r[k] == reg[k]
  {
    reg[id := h]
  }

  /** `activeTransports.delete(transport.sessionId)` when the request closes. */
  function Close<H>(reg: Registry<H>, id: string): (r: Registry<H>)
    ensures r.Keys == reg.Keys - {id}
    ensures forall k :: k in r ==> r[k] == reg[k]
  {
    reg - {id}
  }

  /** `req.query.sessionId`, or `req.body.sessionId` when the query value is falsy. */
  function SessionIdOf(query: Scalar, body: Scalar): Scalar {
    if !Truthy(query) && Truthy(body) then body else query
  }

  /** `POST /messages` on the multi-session server. A non-string id is never a key. */
  function Route<H>(reg: Registry<H>, query: Scalar, body: Scalar): (r: Response<H>)
    ensures r == Status(400, "Session ID missing") <==> !Truthy(query) && !Truthy(body)
    ensures r.Forward? <==>
      (Truthy(query) && query.Str? && query.s in reg) || (!Truthy(query) && body.Str? && body.s != "" && body.s in reg)
    ensures r.Forward? && Truthy(query) ==> r.transport == reg[query.s]
    ensures r.Forward? && !Truthy(query) ==> r.transport == reg[body.s]
    ensures !r.Forward? && r != Status(400, "Session ID missing") ==> r == Status(404, "Session not found")
  {
    var id := SessionIdOf(query, body);
    if !Truthy(id) then Status(400, "Session ID missing")
    else if id.Str? && id.s in reg then Forward(reg[id.s])
    else Status(404, "Session not found")
  }

  /** A freshly opened session is routed to its own transport, whatever was registered under its id before. */
  lemma RouteAfterOpen<H>(reg: Registry<H>, id: string, h: H, body: Scalar)
    requires id != ""
    ensures Route(Open(reg, id, h), Str(id), body) == Forward(h)
    ensures Route(Open(reg, id, h), Undefined, Str(id)) == Forward(h)
  {
  }

  /** Closing a session makes its id unknown and leaves every other session's routing as it was. */
  lemma RouteAfterClose<H>(reg: Registry<H>, id: string, query: Scalar, body: Scalar)
    ensures SessionIdOf(query, body) != Str(id) ==> Route(Close(reg, id), query, body) == Route(reg, query, body)
    ensures id != "" ==> Route(Close(reg, id), Str(id), body) == Status(404, "Session not found")
  {
  }

  /** Closing a session that is not registered changes nothing. */
  lemma CloseUnknown<H>(reg: Registry<H>, id: string)
    requires id !in reg
    ensures Close(reg, id) == reg
  {
  }

  /** An id in the query string wins over one in the body. */
  lemma QueryWins<H>(reg: Registry<H>, id: string, body: Scalar)
    requires id != ""
    ensures Route(reg, Str(id), body) == Route(reg, Str(id), Undefined)
  {
  }

  // ---------------------------------------------------------------------------
  // Lifecycle: the registry is what the open and close events leave behind.
  // ---------------------------------------------------------------------------

  datatype Event<H> = Opened(id: string, transport: H) | Closed(id: string)

  /** The registry after a history of connection events, starting empty. */
  function Replay<H>(evs: seq<Event<H>>): Registry<H> {
    if |evs| == 0 then map[]
    else
      var reg := Replay(evs[..|evs| - 1]);
      match evs[|evs| - 1]
      case Opened(id, h) => Open(reg, id, h)
      case Closed(id) => Close(reg, id)
  }

  /** The last event of the history that names `id`, if any. */
  function LastEvent<H>(evs: seq<Event<H>>, id: string): Option<Event<H>> {
    if |evs| == 0 then None
    else if evs[|evs| - 1].id == id then Some(evs[|evs| - 1])
    else LastEvent(evs[..|evs| - 1], id)
  }

  /**
   * An id is registered exactly when the last event naming it opened a
   * connection, and it then maps to that connection's transport.
   */
  lemma {:induction false} ReplayRegistered<H>(evs: seq<Event<H>>, id: string)
    ensures id in Replay(evs) <==> LastEvent(evs, id).Some? && LastEvent(evs, id).value.Opened?
    ensures id in Replay(evs) ==> Replay(evs)[id] == LastEvent(evs, id).value.transport
  {
    if |evs| > 0 {
      ReplayRegistered(evs[..|evs| - 1], id);
    }
  }

  // ---------------------------------------------------------------------------
  // The single-slot server.
  // ---------------------------------------------------------------------------

  /** `transport = new SSEServerTransport(...)` on `GET /sse`: the newest connection replaces the slot. */
  function Connect<H>(slot: Option<H>, h: H): (r: Option<H>)
    ensures PostMessage(r) == Forward(h)
  {
    Some(h)
  }

  /** `POST /messages` on the single-slot server: no session id is consulted. */
  function PostMessage<H>(slot: Option<H>): (r: Response<H>)
    ensures r == Status(503, "No active SSE connection") <==> slot.None?
    ensures slot.Some? ==> r == Forward(slot.value)
  {
    match slot
    case None => Status(503, "No active SSE connection")
    case Some(h) => Forward(h)
  }

  /** Every message after a connection goes to the newest transport; the slot is never emptied again. */
  lemma SlotLatestWins<H>(slot: Option<H>, a: H, b: H)
    ensures PostMessage(Connect(Connect(slot, a), b)) == Forward(b)
    ensures PostMessage(Connect(slot, a)) != Status(503, "No active SSE connection")
  {
  }
}
