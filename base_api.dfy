/**
 * The shared API definition: the cache tag types every endpoint may use and
 * the `prepareHeaders` hook that attaches the session's bearer token.
 */
module BaseApi {
  import opened Common

  /** The tag types the API declares. */
  const TagTypes: seq<string> := ["Auth", "Products"]

  /** The header name the hook writes; the fetch `Headers` object stores names in lower case. */
  const AuthorizationHeader: string := "authorization"

  /** JavaScript truthiness of a `string | null | undefined` token: present and not empty. */
  predicate Truthy(token: Option<string>)
  {
    token.Some? && token.value != ""
  }

  /** The value the hook writes into the authorization header. */
  function BearerValue(token: string): (v: string)
    ensures |v| == |token| + 7 && v[..7] == "Bearer " && v[7..] == token
  {
    "Bearer " + token
  }

  /**
   * The header map `prepareHeaders` leaves behind for a given session token:
   * with a truthy token the authorization entry holds the bearer value, and
   * every other header is exactly as before; otherwise nothing changes.
   */
  function PreparedHeaders(headers: map<string, string>, token: Option<string>): (r: map<string, string>)
    ensures forall k :: k != AuthorizationHeader ==> (k in r <==> k in headers)
    ensures forall k :: k != AuthorizationHeader && k in headers ==> r[k] == headers[k]
    ensures Truthy(token) ==> AuthorizationHeader in r && r[AuthorizationHeader] == BearerValue(token.value)
    ensures !Truthy(token) ==> r == headers
  {
    if Truthy(token) then headers[AuthorizationHeader := BearerValue(token.value)] else headers
  }

  /** Preparing the same headers twice with the same token changes nothing the second time. */
  lemma PreparedHeadersIdempotent(headers: map<string, string>, token: Option<string>)
    ensures PreparedHeaders(PreparedHeaders(headers, token), token) == PreparedHeaders(headers, token)
  {
  }

  /** The authorization entry is the only one whose value the hook can change. */
  lemma OnlyAuthorizationChanges(headers: map<string, string>, token: Option<string>, k: string)
    requires k in headers && k in PreparedHeaders(headers, token)
    requires PreparedHeaders(headers, token)[k] != headers[k]
    ensures k == AuthorizationHeader && Truthy(token)
  {
  }

  /** The request's mutable `Headers` object. */
  class Headers {
    var entries: map<string, string>

    constructor (initial: map<string, string>)
      ensures entries == initial
    {
      entries := initial;
    }

    /** `headers.set(name, value)`: replaces or adds one entry. */
    method Set(name: string, value: string)
      modifies this
      ensures entries == old(entries)[name := value]
    {
      entries := entries[name := value];
    }
  }

  /**
   * `prepareHeaders(headers, { getState })`: `token` is the `auth.token`
   * that `getState()` yields. The same object is updated and returned.
   */
  method PrepareHeaders(headers: Headers, token: Option<string>) returns (r: Headers)
    modifies headers
    ensures r == headers
    ensures headers.entries == PreparedHeaders(old(headers.entries), token)
  {
    if Truthy(token) {
      headers.Set(AuthorizationHeader, BearerValue(token.value));
    }
    r := headers;
  }
}
