# JXIO server portal: a Dafny model

This project models the server-side portal of JXIO's control path
(`ServerPortal`). A portal listens on an `rdma://` address. It owns a set of
server sessions and admits pending connections: it accepts them, forwards
them to a worker portal or rejects them. It closes itself and its sessions,
and it dispatches the transport's events to the user's callbacks.

Modules:

- `Uris` (uris.dfy): the URI as a record of components, with the two pure
  rewritings the portal uses. One replaces the port: it gives the advertised
  port-0 address and the bound address. The other replaces the host: a
  wildcard `0.0.0.0` forward target gets the host the session came in on.
- `Native` (native.dfy): the native `Bridge`. Each call returns an
  unconstrained handle and is appended, together with what it returned, to
  the bridge's call log. Also holds Java's narrowing of the bound port from
  `long` to `int`, and `String.length()` in UTF-16 code units.
- `Events` (events.dfy): raw events (type code plus payload class), decoded
  event names, and the event-queue handler's registry of eventables.
- `Jxio` (jxio.dfy): `ServerSession`, the user `Callbacks`, `ServerPortal`,
  and the pure reaction that specifies dispatch.

The portal's state (`sessions`, `isClosing`), each session's fields, the
registry and the bridge log are class fields that the methods update in
place. Each method's `ensures` gives the whole new state in terms of the old
one. The ghost predicate `Exclusive(portals)` is the ownership invariant: a
session in a portal's set names that portal as its owner, so no session is
owned by two portals. `Accept`, `Forward` and `RemoveSession` preserve it.

Details of the code that the model keeps as written:

- A scheme other than `rdma` and a zero handle from the bridge are only
  logged (src/java/com/mellanox/jxio/ServerPortal.java:56-58 and :64-66).
  A wrong scheme or a zero handle does not stop construction.
- The portal deregisters itself on SESSION_CLOSED as well as on
  PORTAL_CLOSED (:157-166).
- `reject` passes `data.length()` as the payload length (:138). That is the
  number of UTF-16 code units, not the number of bytes.
- `accept` sets both of the session's event-queue handlers to the portal's
  own handler (:112). `forward` sets them to this portal's handler and the
  target's handler (:131).

## Model

| member | source | states |
|---|---|---|
| `Uris.ReplacePort` | src/java/com/mellanox/jxio/ServerPortal.java:193-207 | the result carries the new port and agrees with the input on scheme, user info, host, path, query and fragment |
| `Uris.ReplacePortLastWins` | src/java/com/mellanox/jxio/ServerPortal.java:70-71 | only the last port replacement matters, so the bound and advertised addresses differ only in the port |
| `Uris.SameButPortAgreeOnPort` | src/java/com/mellanox/jxio/ServerPortal.java:70-71 | two addresses that differ only in their port become equal once given the same port |
| `Uris.ReplaceHost` | src/java/com/mellanox/jxio/ServerPortal.java:209-219 | the result takes its host from the session's URI and everything else, the port included, from the forward target |
| `Uris.ForwardUri` | src/java/com/mellanox/jxio/ServerPortal.java:126-129 | a wildcard target host is replaced by the session's host, and any other target address is used unchanged |
| `Uris.ForwardUriResolvesWildcard` | src/java/com/mellanox/jxio/ServerPortal.java:126-129 | a forward address carries the wildcard host only if the session's own URI does |
| `Native.ToInt32` | src/java/com/mellanox/jxio/ServerPortal.java:62 | the narrowed port is a 32-bit signed value congruent to the bridge's value modulo 2^32, and equal to it when that value is in range |
| `Jxio.ServerPortal.constructor` | src/java/com/mellanox/jxio/ServerPortal.java:52-81 | one StartServerPortal call is logged, whose handle becomes the id and whose narrowed port becomes `port`; `uri` is the request with that port and `uriPort0` the request with port 0; no sessions, not closing; the portal is registered; a worker portal is the same constructor with no callbacks |
| `Jxio.ServerPortal.GetUriForServer` | src/java/com/mellanox/jxio/ServerPortal.java:83-85 | the advertised address is the bound address with port 0 |
| `Jxio.ServerPortal.GetUri` | src/java/com/mellanox/jxio/ServerPortal.java:221-223 | the bound address carries the bound port and differs from the advertised address only in the port |
| `Jxio.ServerPortal.Close` | src/java/com/mellanox/jxio/ServerPortal.java:87-109 | succeeds iff the portal was not closing and its id is non-zero; a refused close changes no flag and makes no bridge call; a successful one closes every session that was open, each exactly once, and no session that was already closing; it then issues one StopServerPortal(id) and sets the closing flag, so a second close is refused |
| `Jxio.ServerPortal.CloseOpenSessions` | src/java/com/mellanox/jxio/ServerPortal.java:96-104 | afterwards every owned session is closing; the sessions closed are exactly those that were open, without repetition, and the log gains one CloseSessionServer per closed session in closing order |
| `Jxio.CloseCalls` | src/java/com/mellanox/jxio/ServerPortal.java:96-104 | one CloseSessionServer call per listed session, at the same position, with that session's native pointer |
| `Jxio.CloseCallsSnoc` | src/java/com/mellanox/jxio/ServerPortal.java:96-104 | closing one more session appends exactly its call to the log |
| `Jxio.ServerSession.Close` | src/java/com/mellanox/jxio/ServerPortal.java:97-102 | an open session is marked closing with one CloseSessionServer call; an already-closing one is left as is, with no call |
| `Jxio.ServerPortal.Accept` | src/java/com/mellanox/jxio/ServerPortal.java:111-116 | the session joins this portal's set and nothing else joins or leaves; its owner is this portal and both its queue handlers are the portal's; its native pointer is the one the logged AcceptSession call returned; ownership stays exclusive when the session was pending |
| `Jxio.ServerPortal.Forward` | src/java/com/mellanox/jxio/ServerPortal.java:118-135 | forwarding to itself has exactly the effect of Accept; otherwise the session joins the target's set only, its owner is the target, its handlers are this portal's and the target's, and one ForwardSession call is logged to the target's address with its wildcard host resolved; ownership stays exclusive when the session was pending |
| `Jxio.ServerPortal.Reject` | src/java/com/mellanox/jxio/ServerPortal.java:137-139 | exactly one RejectSession call is logged, with the key's pointer, the reason, the payload and the payload's length in UTF-16 code units |
| `Native.Utf16Length` | src/java/com/mellanox/jxio/ServerPortal.java:138 | `String.length()` counts UTF-16 code units: between the number of characters and twice it, and equal to it when every character is in the Basic Multilingual Plane |
| `Jxio.ServerPortal.SetSession` | src/java/com/mellanox/jxio/ServerPortal.java:141-144 | the session joins the set and names this portal as its owner |
| `Jxio.ServerPortal.RemoveSession` | src/java/com/mellanox/jxio/ServerPortal.java:189-191 | only the given session leaves the set, and ownership stays exclusive |
| `Jxio.ExclusiveOwner` | src/java/com/mellanox/jxio/ServerPortal.java:141-144 | under the ownership invariant, two portals that both own a session are the same portal |
| `Jxio.React` | src/java/com/mellanox/jxio/ServerPortal.java:146-187 | the portal deregisters iff a type-0 session event decodes to SESSION_CLOSED or PORTAL_CLOSED; exactly one callback fires iff the event is type 0 with a session payload or type 5 with a new-session payload; that callback carries the decoded name and reason, or the session key (pointer, URI) and source address |
| `Jxio.UnknownTypeIgnored` | src/java/com/mellanox/jxio/ServerPortal.java:184-186 | an event of any other type code causes no deregistration and no callback |
| `Jxio.ServerPortal.OnEvent` | src/java/com/mellanox/jxio/ServerPortal.java:146-187 | the registry loses this portal exactly when React says to deregister; the callbacks receive exactly React's notice; the session set and the closing flag are unchanged; a portal without callbacks reports nothing |
| `Jxio.ServerPortal.OnEventAsWritten` | src/java/com/mellanox/jxio/ServerPortal.java:146-187 | dispatch branch for branch as written, without a null check: the registry changes as React says, because the removal comes first; it throws exactly when the portal has no callbacks and React calls for one; otherwise the callbacks receive React's notice |
| `Jxio.WorkerPortalClosedDereferencesNull` | src/java/com/mellanox/jxio/ServerPortal.java:161-167 | as written, a worker portal that gets its own PORTAL_CLOSED event leaves the registry and then dereferences null |
| `Jxio.Callbacks.OnSessionNew` | src/java/com/mellanox/jxio/ServerPortal.java:43 | records one new-session notification with the key and source address |
| `Jxio.Callbacks.OnSessionEvent` | src/java/com/mellanox/jxio/ServerPortal.java:45 | records one session-event notification with the name and reason |
| `Events.EventQueueHandler.AddEventable` | src/java/com/mellanox/jxio/ServerPortal.java:73 | the registry gains exactly the given object |
| `Events.EventQueueHandler.RemoveEventable` | src/java/com/mellanox/jxio/ServerPortal.java:158-162 | the registry loses exactly the given object; removing an unregistered object changes nothing |

## Findings

| source | as written | input that shows it | evidently intended | confidence | as-written member | corrected member |
|---|---|---|---|---|---|---|
| src/java/com/mellanox/jxio/ServerPortal.java:167 | `onEvent` calls `callbacks.onSessionEvent` (and, at :180, `callbacks.onSessionNew`) without checking for a null callbacks object. The worker constructor at :79-81 always passes null. | a worker portal is closed and then receives its own PORTAL_CLOSED event (type 0): it leaves the registry at :162, then dereferences null at :167 | a portal without callbacks deregisters on its terminal event and reports nothing | medium; not executed | `Jxio.WorkerPortalClosedDereferencesNull` (over `Jxio.ServerPortal.OnEventAsWritten`) | `Jxio.ServerPortal.OnEvent` |

## Left out

- ServerSession.java is not part of this model. A session has only the fields the portal touches. Its `close` is modelled as a guarded flag flip plus one `CloseSessionServer` bridge call.
- EventQueueHandler.java is not part of this model. The registry is a plain set, updated one call at a time. The dispatch thread, the mapping from handles to objects and the dropping of stale events are not modelled. What `addEventable` does with a zero or already-registered handle is not modelled; the constructor registers the portal even when its handle is 0.
- EventName.java and EventReason.java are not part of this model. The decoding of an error type into an event name is the parameter `nameOf` of `OnEvent`. Reasons stay integer indices.
- Bridge semantics: native calls only record themselves and return unconstrained handles. The C sources c/src/Context.cc and c/src/cJXServer.cc are native plumbing and are not modelled.
- URI parsing, `toString` and `URISyntaxException`: a URI is a record. The bridge receives the record, not its string form. The null that `replacePortInURI` and `replaceIPinURI` return after a syntax error is not modelled.
- A URI without a scheme: `uri.getScheme().equals("rdma")` at :56 then throws a NullPointerException. The model's URI record always has a scheme, so this case is not modelled.
- Logging, including the `LOG.fatal` calls, which do not stop construction.
- The static `Bridge`: each portal holds a reference to a bridge object, and `Forward` logs to the forwarding portal's bridge. The model matches the source's single process-wide bridge only when every portal is built with the same bridge object. Nothing in the model enforces this.
- Concurrency: the portal, its sessions and the registry are updated sequentially. Dispatch on several threads is not modelled.
- Iteration order of the `HashSet` in `close`: the sessions are closed in an arbitrary order, and `Close` reports that order as the ghost sequence `closed`.
- Jxio.ServerPortal.Accept: exclusive ownership is preserved only when the session was pending or already owned by this portal. The source does not check that a session is pending, so accepting an owned session on a second portal leaves it in two sets.
- Jxio.ServerPortal.Forward: exclusive ownership is preserved only when the session was pending or already owned by the target, for the same reason as Accept.
- tests/ClientControlPathMT.java is a threaded harness that needs a live peer. It states nothing to model.
