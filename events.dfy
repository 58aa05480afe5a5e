/** Events delivered by the transport and the registry of objects that
    receive them. */
module Events {
  import opened Uris

  /** The payload of an event, by the concrete event class that carries it. */
  datatype Body =
    | SessionBody(errorType: int, reason: int)
    | NewSessionBody(ptrSes: int, uri: Uri, srcIP: string)
    | NoBody

  /** A raw event: its numeric type code and its payload. The code and the
      payload class are independent facts about the event, so a code that
      does not match its payload is representable. */
  datatype Event = Event(eventType: int, body: Body)

  /** Type code of a session-level error or lifecycle event. */
  const SessionEventType: int := 0
  /** Type code of a new inbound connection request. */
  const NewSessionType: int := 5

  /** A decoded session event name; only the two terminal names matter to a portal. */
  datatype EventName = SessionClosed | PortalClosed | OtherName(index: int)
  {
    predicate IsTerminal()
    {
      this == SessionClosed || this == PortalClosed
    }
  }

  /** The registry of dispatchable objects that an event-queue handler
      resolves events against. */
  class EventQueueHandler {
    const id: int
    var eventables: set<object>

    constructor (id: int)
      ensures this.id == id && eventables == {}
    {
      this.id := id;
      eventables := {};
    }

    method AddEventable(e: object)
      modifies this`eventables
      ensures eventables == old(eventables) + {e}
    {
      eventables := eventables + {e};
    }

    /** Deregisters `e`; removing an object that is not registered is a no-op. */
    method RemoveEventable(e: object)
      modifies this`eventables
      ensures eventables == old(eventables) - {e}
    {
      eventables := eventables - {e};
    }
  }
}
