/**
 * The broadcast handle of the back end (backend/src/socket/socket.service.ts):
 * a holder for the Socket.IO server that is empty until `setServer`, and an
 * `emit` that broadcasts through it, or does nothing while it is empty.
 */
module Socket {
  import opened Wrappers

  /** A Socket.IO `Server` instance, known only by its identity. */
  datatype IoServer = IoServer(name: string)

  /** The `data: any` argument of `emit`: `null`, `undefined` or some value (as JSON text). */
  datatype Payload = Null | Undefined | Json(text: string)

  /** Reading `data.id` throws a `TypeError` exactly for these two. */
  predicate IsNullish(data: Payload)
  {
    data.Null? || data.Undefined?
  }

  /** One `io.emit(event, data)` call: the server it went through, the event name and the payload (as JSON text). */
  datatype Broadcast = Broadcast(server: IoServer, event: string, data: string)

  class SocketService {
    var io: Option<IoServer>
    /** Every broadcast made through this service, oldest first. */
    ghost var broadcasts: seq<Broadcast>

    /** A fresh service has no server and has broadcast nothing. */
    constructor ()
      ensures io == None && broadcasts == []
    {
      io := None;
      broadcasts := [];
    }

    /** `setServer(server)`: hold `server`, replacing any earlier one. */
    method SetServer(server: IoServer)
      modifies this
      ensures io == Some(server)
      ensures broadcasts == old(broadcasts)
    {
      io := Some(server);
    }

    /** `getServer()`: the server held, or null. */
    method GetServer() returns (server: Option<IoServer>)
      ensures server == io
    {
      server := io;
    }

    /**
     * `emit(event, data)`: with a server, the log line reads `data.id`
     * first, so a `null` or `undefined` payload throws (`failed`) before
     * anything is broadcast; any other payload is broadcast exactly once
     * through the server. Without a server, nothing happens and nothing
     * fails. The server held is never changed.
     */
    method Emit(event: string, data: Payload) returns (failed: bool)
      modifies this
      ensures io == old(io)
      ensures failed <==> old(io).Some? && IsNullish(data)
      ensures old(io).Some? && data.Json? ==>
        broadcasts == old(broadcasts) + [Broadcast(old(io).value, event, data.text)]
      ensures old(io).None? || IsNullish(data) ==> broadcasts == old(broadcasts)
    {
      failed := false;
      if io.Some? {
        if IsNullish(data) {
          failed := true;
        } else {
          broadcasts := broadcasts + [Broadcast(io.value, event, data.text)];
        }
      }
    }
  }

  /** A client of the service: emits before `setServer` are lost, and later ones go through the last server set. */
  method EmitBeforeAndAfterSetServer(first: IoServer, second: IoServer, event: string, data: string)
    returns (service: SocketService, held: Option<IoServer>, failedBefore: bool, failedAfter: bool)
    ensures service.io == Some(second) && held == Some(second)
    ensures !failedBefore && !failedAfter
    ensures service.broadcasts == [Broadcast(second, event, data)]
  {
    service := new SocketService();
    failedBefore := service.Emit(event, Json(data));
    service.SetServer(first);
    service.SetServer(second);
    held := service.GetServer();
    failedAfter := service.Emit(event, Json(data));
  }
}
