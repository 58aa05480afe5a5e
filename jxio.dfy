/** The server side of the control path: sessions, the user callbacks,
    and the portal that admits, forwards, rejects and closes sessions. */
module Jxio {
  import opened Uris
  import opened Native
  import opened Events

  datatype Option<T> = None | Some(value: T)

  /** Correlates a pending inbound connection with the decision made about it. */
  datatype SessionKey = SessionKey(sessionPtr: int, uri: Uri)

  /** One invocation of a user callback. */
  datatype Notice =
    | SessionNew(key: SessionKey, srcIP: string)
    | SessionEvent(name: EventName, reason: int)

  /** What a portal's dispatch does with one event: whether it deregisters the
      portal from its event-queue handler, and which callback it invokes. */
  datatype Reaction = Reaction(deregister: bool, notice: Option<Notice>)

  /** The callback invocations an optional notice amounts to. */
  function Notices(o: Option<Notice>): seq<Notice>
  {
    match o
    case None => []
    case Some(n) => [n]
  }

  /** The reaction the portal's dispatch specifies for `ev`, where `nameOf`
      decodes a session event's error type into its name. */
  function React(ev: Event, nameOf: int -> EventName): (r: Reaction)
    ensures r.deregister <==>
      ev.eventType == SessionEventType && ev.body.SessionBody? && nameOf(ev.body.errorType).IsTerminal()
    ensures r.notice.Some? <==>
      (ev.eventType == SessionEventType && ev.body.SessionBody?) ||
      (ev.eventType == NewSessionType && ev.body.NewSessionBody?)
    ensures ev.eventType == SessionEventType && ev.body.SessionBody? ==>
      r.notice == Some(SessionEvent(nameOf(ev.body.errorType), ev.body.reason))
    ensures ev.eventType == NewSessionType && ev.body.NewSessionBody? ==>
      r.notice == Some(SessionNew(SessionKey(ev.body.ptrSes, ev.body.uri), ev.body.srcIP))
  {
    match ev.body
    case SessionBody(errorType, reason) =>
      if ev.eventType == SessionEventType then
        Reaction(nameOf(errorType).IsTerminal(), Some(SessionEvent(nameOf(errorType), reason)))
      else Reaction(false, None)
    case NewSessionBody(ptrSes, uri, srcIP) =>
      if ev.eventType == NewSessionType then
        Reaction(false, Some(SessionNew(SessionKey(ptrSes, uri), srcIP)))
      else Reaction(false, None)
    case NoBody => Reaction(false, None)
  }

  /** Events of any other type code are dropped: no callback, no deregistration. */
  lemma UnknownTypeIgnored(ev: Event, nameOf: int -> EventName)
    requires ev.eventType != SessionEventType && ev.eventType != NewSessionType
    ensures React(ev, nameOf) == Reaction(false, None)
  {
  }

  /** The user's callbacks, recorded as the sequence of invocations. */
  class Callbacks {
    var received: seq<Notice>

    constructor ()
      ensures received == []
    {
      received := [];
    }

    method OnSessionNew(key: SessionKey, srcIP: string)
      modifies this
      ensures received == old(received) + [SessionNew(key, srcIP)]
    {
      received := received + [SessionNew(key, srcIP)];
    }

    method OnSessionEvent(name: EventName, reason: int)
      modifies this
      ensures received == old(received) + [SessionEvent(name, reason)]
    {
      received := received + [SessionEvent(name, reason)];
    }
  }

  /** A connection on the server side. */
  class ServerSession {
    /** Native handle of the pending connection. */
    const id: int
    /** The URI the connection came in on. */
    const uri: Uri
    var isClosing: bool
    var portal: ServerPortal?
    var ptrServerSession: int
    var eqhMain: EventQueueHandler?
    var eqhWorker: EventQueueHandler?

    /** A pending session for the connection `key` names. */
    constructor (key: SessionKey)
      ensures id == key.sessionPtr && uri == key.uri
      ensures !isClosing && portal == null && eqhMain == null && eqhWorker == null
    {
      id := key.sessionPtr;
      uri := key.uri;
      isClosing := false;
      portal := null;
      ptrServerSession := 0;
      eqhMain := null;
      eqhWorker := null;
    }

    /** Closes the session unless it is already closing. */
    method Close(bridge: Bridge) returns (ok: bool)
      modifies this`isClosing, bridge
      ensures ok == !old(isClosing)
      ensures isClosing
      ensures bridge.log == old(bridge.log) + (if ok then [CloseSessionServer(ptrServerSession)] else [])
    {
      if isClosing {
        return false;
      }
      bridge.CloseSessionServer(ptrServerSession);
      isClosing := true;
      ok := true;
    }
  }

  /** No session is listed twice. */
  predicate Distinct(ss: seq<ServerSession>)
  {
    forall i, j :: 0 <= i < j < |ss| ==> ss[i] != ss[j]
  }

  /** The boundary calls that closing the sessions `ss`, in order, issues. */
  function CloseCalls(ss: seq<ServerSession>): (r: seq<Call>)
    reads ss`ptrServerSession
    ensures |r| == |ss|
    ensures forall i :: 0 <= i < |ss| ==> r[i] == CloseSessionServer(ss[i].ptrServerSession)
  {
    if ss == [] then [] else [CloseSessionServer(ss[0].ptrServerSession)] + CloseCalls(ss[1..])
  }

  lemma CloseCallsSnoc(ss: seq<ServerSession>, s: ServerSession)
    ensures CloseCalls(ss + [s]) == CloseCalls(ss) + [CloseSessionServer(s.ptrServerSession)]
  {
  }

  /** Every session owned by a portal of `portals` names that portal as its
      owner; hence no session is owned by two of them. */
  ghost predicate Exclusive(portals: set<ServerPortal>)
    reads portals, set p, s | p in portals && s in p.sessions :: s
  {
    forall p, s :: p in portals && s in p.sessions ==> s.portal == p
  }

  lemma ExclusiveOwner(portals: set<ServerPortal>, p: ServerPortal, q: ServerPortal, s: ServerSession)
    requires Exclusive(portals)
    requires p in portals && q in portals
    requires s in p.sessions && s in q.sessions
    ensures p == q
  {
    assert s.portal == p;
  }

  /** A listening (manager) portal, or a worker portal when built without callbacks. */
  class ServerPortal {
    const eqh: EventQueueHandler
    const bridge: Bridge
    const callbacks: Callbacks?
    /** Native handle; 0 when the boundary failed to create the portal. */
    const id: int
    /** The port the boundary bound, as a 32-bit Java int. */
    const port: int
    /** The bound address: the requested URI with the bound port. */
    const uri: Uri
    /** The advertised address: the requested URI with port 0. */
    const uriPort0: Uri
    var sessions: set<ServerSession>
    var isClosing: bool

    /** The two addresses differ only in their port, and `uri` carries the bound port. */
    ghost predicate Valid()
    {
      uri.port == port && uriPort0 == ReplacePort(uri, 0)
    }

    /** Starts listening on `uri`. A scheme other than "rdma" and a zero
        handle from the boundary are only logged; neither stops construction. */
    constructor (eqh: EventQueueHandler, uri: Uri, callbacks: Callbacks?, bridge: Bridge)
      modifies eqh`eventables, bridge
      ensures Valid()
      ensures this.eqh == eqh && this.callbacks == callbacks && this.bridge == bridge
      ensures |bridge.log| == |old(bridge.log)| + 1 && bridge.log[..|old(bridge.log)|] == old(bridge.log)
      ensures var call := bridge.log[|bridge.log| - 1];
        call.StartServerPortal? && call.uri == uri && call.eqhId == eqh.id &&
        call.handle == id && port == ToInt32(call.port)
      ensures uriPort0 == ReplacePort(uri, 0) && this.uri == ReplacePort(uri, port)
      ensures sessions == {} && !isClosing
      ensures eqh.eventables == old(eqh.eventables) + {this}
    {
      this.eqh := eqh;
      this.callbacks := callbacks;
      this.bridge := bridge;
      var handle, boundPort := bridge.StartServerPortal(uri, eqh.id);
      id := handle;
      port := ToInt32(boundPort);
      uriPort0 := ReplacePort(uri, 0);
      this.uri := ReplacePort(uri, ToInt32(boundPort));
      sessions := {};
      isClosing := false;
      new;
      eqh.AddEventable(this);
    }

    /** The address clients are told to connect to: the bound address with port 0. */
    function GetUriForServer(): (u: Uri)
      requires Valid()
      ensures u.port == 0 && SameButPort(u, uri)
    {
      uriPort0
    }

    /** The bound address, with the port the boundary assigned. */
    function GetUri(): (u: Uri)
      requires Valid()
      ensures u.port == port && SameButPort(u, uriPort0)
    {
      uri
    }

    /** Closes every owned session that is not already closing, stops
        listening and marks the portal closing. Refused, with nothing changed,
        when the portal is already closing or has no native handle. `closed`
        lists the sessions closed, in the order they were closed. */
    method Close() returns (ok: bool, ghost closed: seq<ServerSession>)
      modifies this`isClosing, sessions`isClosing, bridge
      ensures ok <==> !old(isClosing) && id != 0
      ensures !ok ==> isClosing == old(isClosing) && bridge.log == old(bridge.log) && closed == []
      ensures !ok ==> forall s :: s in sessions ==> s.isClosing == old(s.isClosing)
      ensures ok ==> isClosing
      ensures ok ==> forall s :: s in sessions ==> s.isClosing
      ensures ok ==> Distinct(closed)
      ensures ok ==> forall s :: s in closed <==> s in sessions && !old(s.isClosing)
      ensures ok ==> bridge.log == old(bridge.log) + CloseCalls(closed) + [StopServerPortal(id)]
    {
      closed := [];
      if isClosing {
        return false, closed;
      }
      if id == 0 {
        return false, closed;
      }
      closed := CloseOpenSessions();
      bridge.StopServerPortal(id);
      isClosing := true;
      ok := true;
    }

    /** The loop of `Close`: closes, one by one, the owned sessions that are
        not already closing. */
    method CloseOpenSessions() returns (ghost closed: seq<ServerSession>)
      modifies sessions`isClosing, bridge
      ensures forall s :: s in sessions ==> s.isClosing
      ensures Distinct(closed)
      ensures forall s :: s in closed <==> s in sessions && !old(s.isClosing)
      ensures bridge.log == old(bridge.log) + CloseCalls(closed)
    {
      closed := [];
      ghost var wasOpen := set s | s in sessions && !s.isClosing;
      var todo := sessions;
      while todo != {}
        invariant todo <= sessions
        invariant forall s :: s in todo ==> (s.isClosing <==> s !in wasOpen)
        invariant forall s :: s in sessions && s !in todo ==> s.isClosing
        invariant forall s :: s in closed <==> s in wasOpen && s !in todo
        invariant Distinct(closed)
        invariant bridge.log == old(bridge.log) + CloseCalls(closed)
        decreases todo
      {
        var s :| s in todo;
        if !s.isClosing {
          ghost var calls := CloseCalls(closed);
          var _ := s.Close(bridge);
          assert CloseCalls(closed) == calls;
          CloseCallsSnoc(closed, s);
          assert bridge.log == old(bridge.log) + (calls + [CloseSessionServer(s.ptrServerSession)]);
          closed := closed + [s];
        }
        todo := todo - {s};
      }
    }

    /** `s` is owned by this portal and served on its event-queue handler,
        with the native session pointer the boundary returned; nothing else
        about the portal or the session changed. */
    twostate predicate Accepted(s: ServerSession)
      reads this, s, bridge
    {
      sessions == old(sessions) + {s} &&
      s.portal == this && s.eqhMain == eqh && s.eqhWorker == eqh &&
      bridge.log == old(bridge.log) + [AcceptSession(s.id, id, s.ptrServerSession)]
    }

    /** Makes this portal the owner of the pending session `s`. */
    method Accept(s: ServerSession, ghost portals: set<ServerPortal>)
      modifies this`sessions, s`portal, s`eqhMain, s`eqhWorker, s`ptrServerSession, bridge
      ensures Accepted(s)
      ensures old(Exclusive(portals)) && (old(s.portal) == null || old(s.portal) == this) ==> Exclusive(portals)
    {
      s.eqhMain, s.eqhWorker := eqh, eqh;
      var ptr := bridge.AcceptSession(s.id, id);
      s.ptrServerSession := ptr;
      SetSession(s);
    }

    /** Hands the pending session `s` to the worker portal `p`; forwarding to
        this portal itself is an accept. */
    method Forward(p: ServerPortal, s: ServerSession, ghost portals: set<ServerPortal>)
      modifies this`sessions, p`sessions, s`portal, s`eqhMain, s`eqhWorker, s`ptrServerSession, bridge
      ensures p == this ==> Accepted(s)
      ensures p != this ==> sessions == old(sessions) && p.sessions == old(p.sessions) + {s}
      ensures p != this ==> s.portal == p && s.eqhMain == eqh && s.eqhWorker == p.eqh
      ensures p != this ==>
        bridge.log == old(bridge.log) + [ForwardSession(ForwardUri(p.uri, s.uri), s.id, p.id, s.ptrServerSession)]
      ensures old(Exclusive(portals)) && (old(s.portal) == null || old(s.portal) == p) ==> Exclusive(portals)
    {
      if p == this {
        Accept(s, portals);
        return;
      }
      var uriForForward := p.uri;
      if uriForForward.host == Wildcard {
        uriForForward := ReplaceHost(uriForForward, s.uri);
      }
      s.eqhMain, s.eqhWorker := eqh, p.eqh;
      var ptr := bridge.ForwardSession(uriForForward, s.id, p.id);
      s.ptrServerSession := ptr;
      p.SetSession(s);
    }

    /** Refuses the pending connection `key` names, with a reason code and a
        payload returned to the peer; the length passed is the payload's
        length in UTF-16 code units. */
    method Reject(key: SessionKey, reason: int, data: string)
      modifies bridge
      ensures bridge.log == old(bridge.log) + [RejectSession(key.sessionPtr, reason, data, Utf16Length(data))]
    {
      bridge.RejectSession(key.sessionPtr, reason, data, Utf16Length(data));
    }

    method SetSession(s: ServerSession)
      modifies this`sessions, s`portal
      ensures sessions == old(sessions) + {s} && s.portal == this
    {
      sessions := sessions + {s};
      s.portal := this;
    }

    /** Drops `s` from the owned set, when it reaches its terminal state. */
    method RemoveSession(s: ServerSession, ghost portals: set<ServerPortal>)
      modifies this`sessions
      ensures sessions == old(sessions) - {s}
      ensures old(Exclusive(portals)) ==> Exclusive(portals)
    {
      sessions := sessions - {s};
    }

    /** Dispatches one event: a session event deregisters the portal when it
        is terminal and is reported to the callbacks, a new-session event is
        reported to the callbacks, any other event is dropped. A portal
        without callbacks (a worker) reports nothing. */
    method OnEvent(ev: Event, nameOf: int -> EventName)
      modifies eqh`eventables, callbacks
      ensures sessions == old(sessions) && isClosing == old(isClosing)
      ensures eqh.eventables ==
        if React(ev, nameOf).deregister then old(eqh.eventables) - {this} else old(eqh.eventables)
      ensures callbacks != null ==>
        callbacks.received == old(callbacks.received) + Notices(React(ev, nameOf).notice)
    {
      if ev.eventType == SessionEventType {
        if ev.body.SessionBody? {
          var name := nameOf(ev.body.errorType);
          if name == SessionClosed {
            eqh.RemoveEventable(this);
          }
          if name == PortalClosed {
            eqh.RemoveEventable(this);
          }
          if callbacks != null {
            callbacks.OnSessionEvent(name, ev.body.reason);
          }
        }
      } else if ev.eventType == NewSessionType {
        if ev.body.NewSessionBody? {
          var key := SessionKey(ev.body.ptrSes, ev.body.uri);
          if callbacks != null {
            callbacks.OnSessionNew(key, ev.body.srcIP);
          }
        }
      }
    }

    /** Dispatch exactly as written: the callbacks are invoked without
        checking that the portal has any. `threw` reports the null
        dereference, which happens after the deregistration. */
    method OnEventAsWritten(ev: Event, nameOf: int -> EventName) returns (threw: bool)
      modifies eqh`eventables, callbacks
      ensures threw <==> callbacks == null && React(ev, nameOf).notice.Some?
      ensures sessions == old(sessions) && isClosing == old(isClosing)
      ensures eqh.eventables ==
        if React(ev, nameOf).deregister then old(eqh.eventables) - {this} else old(eqh.eventables)
      ensures callbacks != null ==>
        callbacks.received == old(callbacks.received) + Notices(React(ev, nameOf).notice)
    {
      threw := false;
      if ev.eventType == SessionEventType {
        if ev.body.SessionBody? {
          var name := nameOf(ev.body.errorType);
          if name == SessionClosed {
            eqh.RemoveEventable(this);
          }
          if name == PortalClosed {
            eqh.RemoveEventable(this);
          }
          if callbacks == null {
            threw := true;
            return;
          }
          callbacks.OnSessionEvent(name, ev.body.reason);
        }
      } else if ev.eventType == NewSessionType {
        if ev.body.NewSessionBody? {
          var key := SessionKey(ev.body.ptrSes, ev.body.uri);
          if callbacks == null {
            threw := true;
            return;
          }
          callbacks.OnSessionNew(key, ev.body.srcIP);
        }
      }
    }
  }

  /** A worker portal (built without callbacks) that receives its own
      PORTAL_CLOSED event leaves the registry and then, as written,
      dereferences null. */
  method WorkerPortalClosedDereferencesNull(p: ServerPortal, nameOf: int -> EventName, errorType: int, reason: int)
    returns (threw: bool)
    requires p.callbacks == null && nameOf(errorType) == PortalClosed
    modifies p.eqh`eventables
    ensures threw && p !in p.eqh.eventables
  {
    threw := p.OnEventAsWritten(Event(SessionEventType, SessionBody(errorType, reason)), nameOf);
  }
}
