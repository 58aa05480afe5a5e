/** Addresses of portals and sessions.
    A URI is kept as the record of components that java.net.URI exposes;
    parsing and printing are outside this model. */
module Uris {

  /** scheme://userInfo@host:port/path?query#fragment */
  datatype Uri = Uri(
    scheme: string,
    userInfo: string,
    host: string,
    port: int,
    path: string,
    query: string,
    fragment: string)

  /** The unspecified host that forwarding replaces by the peer-observed host. */
  const Wildcard: string := "0.0.0.0"

  /** True when two URIs agree on every component except the port. */
  predicate SameButPort(a: Uri, b: Uri)
  {
    a.scheme == b.scheme && a.userInfo == b.userInfo && a.host == b.host &&
    a.path == b.path && a.query == b.query && a.fragment == b.fragment
  }

  /** True when two URIs agree on every component except the host. */
  predicate SameButHost(a: Uri, b: Uri)
  {
    a.scheme == b.scheme && a.userInfo == b.userInfo && a.port == b.port &&
    a.path == b.path && a.query == b.query && a.fragment == b.fragment
  }

  /** `u` with its port replaced by `newPort`; every other component is kept. */
  function ReplacePort(u: Uri, newPort: int): (r: Uri)
    ensures r.port == newPort
    ensures SameButPort(r, u)
  {
    u.(port := newPort)
  }

  /** `u` with its host replaced by the host of `source`; every other
      component, the port included, comes from `u`. */
  function ReplaceHost(u: Uri, source: Uri): (r: Uri)
    ensures r.host == source.host
    ensures SameButHost(r, u)
  {
    u.(host := source.host)
  }

  /** The address a forward request is sent to: the target portal's bound
      address, whose wildcard host (if any) is replaced by the host the
      session came in on. */
  function ForwardUri(target: Uri, sessionUri: Uri): (r: Uri)
    ensures SameButHost(r, target)
    ensures target.host == Wildcard ==> r.host == sessionUri.host
    ensures target.host != Wildcard ==> r == target
  {
    if target.host == Wildcard then ReplaceHost(target, sessionUri) else target
  }

  /** Only the last port replacement matters. */
  lemma ReplacePortLastWins(u: Uri, m: int, n: int)
    ensures ReplacePort(ReplacePort(u, m), n) == ReplacePort(u, n)
  {
  }

  /** Two URIs that differ only in their port coincide once given the same port. */
  lemma SameButPortAgreeOnPort(a: Uri, b: Uri, n: int)
    requires SameButPort(a, b)
    ensures ReplacePort(a, n) == ReplacePort(b, n)
  {
  }

  /** A forward address never carries the wildcard host unless the session's
      own address does. */
  lemma ForwardUriResolvesWildcard(target: Uri, sessionUri: Uri)
    requires sessionUri.host != Wildcard
    ensures ForwardUri(target, sessionUri).host != Wildcard
  {
  }
}
