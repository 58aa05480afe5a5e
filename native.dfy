/** The native transport boundary (the static methods of `Bridge`).
    Its semantics are not modelled: every call returns an unconstrained
    handle and is recorded, with that handle, in a call log. */
module Native {
  import opened Uris

  /** One call made across the boundary, with what it returned. */
  datatype Call =
    | StartServerPortal(uri: Uri, eqhId: int, handle: int, port: int)
    | StopServerPortal(portalId: int)
    | AcceptSession(sessionId: int, portalId: int, ptrServerSession: int)
    | ForwardSession(uri: Uri, sessionId: int, portalId: int, ptrServerSession: int)
    | RejectSession(sessionPtr: int, reason: int, data: string, length: int)
    | CloseSessionServer(ptrServerSession: int)

  const TwoTo32: int := 0x1_0000_0000

  /** Java's narrowing of a 64-bit `long` to a 32-bit `int`: keep the low 32
      bits, read as a two's-complement number. */
  function ToInt32(x: int): (r: int)
    ensures -0x8000_0000 <= r < 0x8000_0000
    ensures (x - r) % TwoTo32 == 0
    ensures -0x8000_0000 <= x < 0x8000_0000 ==> r == x
  {
    var m := x % TwoTo32;
    if m < 0x8000_0000 then m else m - TwoTo32
  }

  /** Java's `String.length()`: the number of UTF-16 code units, where a
      character outside the Basic Multilingual Plane takes two. */
  function Utf16Length(s: string): (n: nat)
    ensures |s| <= n <= 2 * |s|
    ensures (forall i :: 0 <= i < |s| ==> s[i] < '\U{10000}') ==> n == |s|
  {
    if s == [] then 0 else (if s[0] < '\U{10000}' then 1 else 2) + Utf16Length(s[1..])
  }

  class Bridge {
    /** Every call issued so far, oldest first. */
    var log: seq<Call>

    constructor ()
      ensures log == []
    {
      log := [];
    }

    method StartServerPortal(uri: Uri, eqhId: int) returns (handle: int, port: int)
      modifies this
      ensures log == old(log) + [Call.StartServerPortal(uri, eqhId, handle, port)]
    {
      handle :| true;
      port :| true;
      log := log + [Call.StartServerPortal(uri, eqhId, handle, port)];
    }

    method StopServerPortal(portalId: int)
      modifies this
      ensures log == old(log) + [Call.StopServerPortal(portalId)]
    {
      log := log + [Call.StopServerPortal(portalId)];
    }

    method AcceptSession(sessionId: int, portalId: int) returns (ptr: int)
      modifies this
      ensures log == old(log) + [Call.AcceptSession(sessionId, portalId, ptr)]
    {
      ptr :| true;
      log := log + [Call.AcceptSession(sessionId, portalId, ptr)];
    }

    method ForwardSession(uri: Uri, sessionId: int, portalId: int) returns (ptr: int)
      modifies this
      ensures log == old(log) + [Call.ForwardSession(uri, sessionId, portalId, ptr)]
    {
      ptr :| true;
      log := log + [Call.ForwardSession(uri, sessionId, portalId, ptr)];
    }

    method RejectSession(sessionPtr: int, reason: int, data: string, length: int)
      modifies this
      ensures log == old(log) + [Call.RejectSession(sessionPtr, reason, data, length)]
    {
      log := log + [Call.RejectSession(sessionPtr, reason, data, length)];
    }

    method CloseSessionServer(ptrServerSession: int)
      modifies this
      ensures log == old(log) + [Call.CloseSessionServer(ptrServerSession)]
    {
      log := log + [Call.CloseSessionServer(ptrServerSession)];
    }
  }
}
