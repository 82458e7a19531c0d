/**
 * `RadiumDevToolsSession`: one DevTools client's session. Commands the
 * browser's own protocol handlers know are kept pending under their call id
 * until the handler answers or falls through to the default handling;
 * unknown commands go straight back to the caller's not-handled callback.
 * What the protocol dispatcher makes of a message (its call id, whether it
 * knows the method) is an input; callbacks are named by numbers; runs and
 * messages to the client are recorded.
 */
module RadiumDevToolsSession {
  type Bytes = seq<bv8>

  datatype Event =
    | CallbackRun(callback: nat, message: Bytes)   // a not-handled callback ran with `message`
    | Dispatched(callId: int)                      // the domain handler was run
    | ToClient(message: Bytes)                     // `DispatchProtocolMessageToClient`

  /** What `FallThrough` did: ran the pending callback, or ran a null callback (no command was pending). */
  datatype FallThroughResult = RanPending(callback: nat) | RanNull

  class RadiumDevToolsSession {
    /** `client_channel_`. */
    const channel: nat
    /** `pending_commands_`. */
    var pending: map<int, nat>
    var events: seq<Event>

    constructor (channel: nat)
      ensures this.channel == channel && pending == map[] && events == []
    {
      this.channel := channel;
      pending := map[];
      events := [];
    }

    /**
     * `HandleCommand`: a method the dispatcher does not know is handed back
     * at once with the original message and nothing is stored; a known one
     * stores its callback under the call id, then runs.
     */
    method HandleCommand(message: Bytes, callId: int, methodFound: bool, callback: nat)
      modifies this
      ensures !methodFound ==> pending == old(pending) && events == old(events) + [CallbackRun(callback, message)]
      ensures methodFound ==> pending == old(pending)[callId := callback] && events == old(events) + [Dispatched(callId)]
    {
      if !methodFound {
        events := events + [CallbackRun(callback, message)];
        return;
      }
      pending := pending[callId := callback];
      events := events + [Dispatched(callId)];
    }

    /** `SendProtocolResponse`: the command is no longer pending and the response goes to the client. */
    method SendProtocolResponse(callId: int, serialized: Bytes)
      modifies this
      ensures pending == old(pending) - {callId}
      ensures events == old(events) + [ToClient(serialized)]
    {
      pending := pending - {callId};
      events := events + [ToClient(serialized)];
    }

    /** `SendProtocolNotification`: forwarded to the client; pending commands are untouched. */
    method SendProtocolNotification(serialized: Bytes)
      modifies this
      ensures pending == old(pending)
      ensures events == old(events) + [ToClient(serialized)]
    {
      events := events + [ToClient(serialized)];
    }

    /** `FallThrough`: the pending callback is taken out and run with the message. */
    method FallThrough(callId: int, message: Bytes) returns (r: FallThroughResult)
      modifies this
      ensures pending == old(pending) - {callId}
      ensures callId in old(pending) ==>
              r == RanPending(old(pending)[callId]) && events == old(events) + [CallbackRun(old(pending)[callId], message)]
      ensures callId !in old(pending) ==> r == RanNull && events == old(events)
    {
      if callId in pending {
        var callback := pending[callId];
        pending := pending - {callId};
        events := events + [CallbackRun(callback, message)];
        r := RanPending(callback);
      } else {
        r := RanNull;
      }
    }
  }

  /** A known command answered by its handler leaves nothing pending and sends one response. */
  method CommandThenResponse(message: Bytes, callId: int, callback: nat, response: Bytes)
    returns (pending: map<int, nat>, events: seq<Event>)
    ensures pending == map[]
    ensures events == [Dispatched(callId), ToClient(response)]
  {
    var s := new RadiumDevToolsSession(0);
    s.HandleCommand(message, callId, true, callback);
    s.SendProtocolResponse(callId, response);
    pending, events := s.pending, s.events;
  }

  /** A known command that falls through reaches the callback it was sent with, exactly once. */
  method CommandThenFallThrough(message: Bytes, callId: int, callback: nat)
    returns (first: FallThroughResult, second: FallThroughResult, events: seq<Event>)
    ensures first == RanPending(callback) && second == RanNull
    ensures events == [Dispatched(callId), CallbackRun(callback, message)]
  {
    var s := new RadiumDevToolsSession(0);
    s.HandleCommand(message, callId, true, callback);
    first := s.FallThrough(callId, message);
    second := s.FallThrough(callId, message);
    events := s.events;
  }
}
