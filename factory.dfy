/**
  The transport decoration of the HTTP client factory: the auth-token
  injector, the response-header extractor, the function-backed round
  tripper that both are built from, and the order in which the factory
  stacks them over the client's base transport.

  Go's `http.RoundTripper` interface is modelled by the datatype `Transport`:
  each decorator is a constructor holding what its closure captures and the
  transport it wraps, and `RoundTrip` dispatches on it.
 */
module Factory {
  import opened Wrappers
  import opened Http
  import Sso

  /** The header the injector sets. */
  const AuthorizationHeader := "Authorization"
  /** The credential kind looked up for a host. */
  const TokenKey := "oauth_token"
  /** The response header whose value the factory's client captures. */
  const SsoHeaderName := "X-GitHub-SSO"

  /** What `configGetter.Get(host, key)` returns: a value, or an error. */
  datatype Lookup = Found(value: string) | LookupFailed(error: string)

  /** The credential store, keyed by (hostname, credential kind). */
  type ConfigGetter = (string, string) -> Lookup

  /** A `*string` destination: the package variable `ssoHeader` is one,
      initialised to "". */
  class Cell {
    var value: string

    constructor ()
      ensures value == ""
    {
      value := "";
    }
  }

  /** The host a request is for: the explicit `Host` field when it is set,
      otherwise the URL's hostname. */
  function GetHost(r: RequestView): (h: string)
    ensures r.host != "" ==> h == r.host
    ensures h == r.host || h == r.url.hostname
    ensures h == "" <==> r.host == "" && r.url.hostname == ""
  {
    if r.host != "" then r.host else r.url.hostname
  }

  /** The token the injector adds to `r`: present only when the lookup for
      the normalised host succeeds with a non-empty value. */
  function Token(cfg: ConfigGetter, normalize: string -> string, r: RequestView): (t: Option<string>)
    ensures t.Some? <==> exists v :: v != "" && cfg(normalize(GetHost(r)), TokenKey) == Found(v)
    ensures t.Some? ==> t.value != "" && cfg(normalize(GetHost(r)), TokenKey) == Found(t.value)
  {
    match cfg(normalize(GetHost(r)), TokenKey)
    case Found(token) => if token != "" then Some(token) else None
    case LookupFailed(_) => None
  }

  /** The request the injector hands to the transport it wraps. */
  function Authorize(cfg: ConfigGetter, normalize: string -> string, r: RequestView): (a: RequestView)
    ensures a.host == r.host && a.url == r.url
    ensures forall k :: k != AuthorizationHeader ==> (k in a.header <==> k in r.header)
    ensures forall k :: k != AuthorizationHeader && k in r.header ==> a.header[k] == r.header[k]
    ensures Token(cfg, normalize, r).Some? ==>
      Get(a.header, AuthorizationHeader) == "token " + Token(cfg, normalize, r).value
    ensures Token(cfg, normalize, r).None? ==> a == r
  {
    match Token(cfg, normalize, r)
    case Some(token) => r.(header := Set(r.header, AuthorizationHeader, "token " + token))
    case None => r
  }

  /** The lookup key ignores the URL whenever the explicit host is set. */
  lemma ExplicitHostTakesPrecedence(cfg: ConfigGetter, normalize: string -> string, r: RequestView, u: Url)
    requires r.host != ""
    ensures Authorize(cfg, normalize, r.(url := u)) == Authorize(cfg, normalize, r).(url := u)
  {
  }

  /** Authorising twice is authorising once: the injector keys its lookup on
      fields it never changes, and overwrites rather than appends. */
  lemma AuthorizeIdempotent(cfg: ConfigGetter, normalize: string -> string, r: RequestView)
    ensures Authorize(cfg, normalize, Authorize(cfg, normalize, r)) == Authorize(cfg, normalize, r)
  {
  }

  /** A transport: the base one that reaches the network (it answers the
      request it is handed and leaves it unmodified), or one of the two
      decorators over an inner transport. */
  datatype Transport =
    | Network(send: RequestView -> Outcome)
    | AuthTokenHeader(cfg: ConfigGetter, normalize: string -> string, inner: Transport)
    | ExtractHeader(name: string, dest: Cell, inner: Transport)

  /** The destinations a transport may write. */
  function Cells(t: Transport): set<Cell>
  {
    match t
    case Network(_) => {}
    case AuthTokenHeader(_, _, inner) => Cells(inner)
    case ExtractHeader(_, dest, inner) => Cells(inner) + {dest}
  }

  /** The base transport's send function. */
  function Terminal(t: Transport): RequestView -> Outcome
  {
    match t
    case Network(send) => send
    case AuthTokenHeader(_, _, inner) => Terminal(inner)
    case ExtractHeader(_, _, inner) => Terminal(inner)
  }

  /** The request as it reaches the network (and as the caller's request
      object is left afterwards, since it is shared by reference and the
      base transport does not modify it). */
  function Sent(t: Transport, r: RequestView): (s: RequestView)
    ensures s.host == r.host && s.url == r.url
    ensures forall k :: k != AuthorizationHeader ==> (k in s.header <==> k in r.header)
    ensures forall k :: k != AuthorizationHeader && k in r.header ==> s.header[k] == r.header[k]
  {
    match t
    case Network(_) => r
    case AuthTokenHeader(cfg, normalize, inner) => Sent(inner, Authorize(cfg, normalize, r))
    case ExtractHeader(_, _, inner) => Sent(inner, r)
  }

  /** What a round trip through `t` returns, layer by layer. No decorator
      alters, wraps or swallows an outcome: it is what the network returned
      for the request it was sent. */
  function Returned(t: Transport, r: RequestView): (o: Outcome)
    ensures o == Terminal(t)(Sent(t, r))
  {
    match t
    case Network(send) => send(r)
    case AuthTokenHeader(cfg, normalize, inner) => Returned(inner, Authorize(cfg, normalize, r))
    case ExtractHeader(_, _, inner) => Returned(inner, r)
  }

  /** The value of header `name` that an outcome carries: "" for an error. */
  function Carried(name: string, o: Outcome): string
  {
    if o.Responded? then Get(o.response.header, name) else ""
  }

  /** The extractor's update of its destination: a non-empty carried value
      replaces `prev`; an error or an empty value keeps it. */
  function Capture(name: string, o: Outcome, prev: string): (next: string)
    ensures o.Failed? ==> next == prev
    ensures o.Responded? && name !in o.response.header ==> next == prev
    ensures next != prev ==> o.Responded? && next != "" && name in o.response.header
                             && next == o.response.header[name]
    ensures o.Responded? && name in o.response.header && o.response.header[name] != "" ==>
              next == o.response.header[name]
  {
    if Carried(name, o) != "" then Carried(name, o) else prev
  }

  /** The value cell `c` holds after a round trip through `t` returned `o`,
      given it held `prev` before: the extractors apply `Capture` from the
      innermost outwards. */
  function After(t: Transport, o: Outcome, c: Cell, prev: string): (v: string)
    ensures c !in Cells(t) ==> v == prev
    ensures o.Failed? ==> v == prev
    ensures v != prev ==> o.Responded? && v != "" && v in o.response.header.Values
  {
    match t
    case Network(_) => prev
    case AuthTokenHeader(_, _, inner) => After(inner, o, c, prev)
    case ExtractHeader(name, dest, inner) =>
      var p := After(inner, o, c, prev);
      if c == dest then Capture(name, o, p) else p
  }

  /** The destination after a series of outcomes, oldest first. */
  function CaptureAll(name: string, os: seq<Outcome>, init: string): string
  {
    if os == [] then init else Capture(name, os[|os| - 1], CaptureAll(name, os[..|os| - 1], init))
  }

  /** `v` is the last non-empty value of header `name` among the successful
      outcomes `os`, or `init` when there is none. */
  ghost predicate IsLastNonEmpty(name: string, os: seq<Outcome>, init: string, v: string)
  {
    || ((forall i :: 0 <= i < |os| ==> Carried(name, os[i]) == "") && v == init)
    || (exists i :: 0 <= i < |os| && Carried(name, os[i]) != "" && v == Carried(name, os[i])
                    && forall j :: i < j < |os| ==> Carried(name, os[j]) == "")
  }

  /** The destination always holds the last non-empty value seen, or its
      initial value. */
  lemma {:induction false} CaptureAllIsLastNonEmpty(name: string, os: seq<Outcome>, init: string)
    ensures IsLastNonEmpty(name, os, init, CaptureAll(name, os, init))
  {
    if os != [] {
      var front, last := os[..|os| - 1], os[|os| - 1];
      CaptureAllIsLastNonEmpty(name, front, init);
      if Carried(name, last) != "" {
        assert Carried(name, os[|os| - 1]) != "";
      } else {
        var v := CaptureAll(name, front, init);
        if forall i :: 0 <= i < |front| ==> Carried(name, front[i]) == "" {
          assert forall i :: 0 <= i < |os| ==> Carried(name, os[i]) == "" by {
            forall i | 0 <= i < |os| ensures Carried(name, os[i]) == "" {
              if i < |front| { assert os[i] == front[i]; }
            }
          }
        } else {
          var i :| 0 <= i < |front| && Carried(name, front[i]) != "" && v == Carried(name, front[i])
                   && forall j :: i < j < |front| ==> Carried(name, front[j]) == "";
          assert os[i] == front[i];
          assert forall j :: i < j < |os| ==> Carried(name, os[j]) == "" by {
            forall j | i < j < |os| ensures Carried(name, os[j]) == "" {
              if j < |front| { assert os[j] == front[j]; }
            }
          }
        }
      }
    }
  }

  /** `funcTripper.RoundTrip`: run the transport's round-trip function. */
  method RoundTrip(t: Transport, req: Request) returns (o: Outcome)
    modifies req, Cells(t)
    decreases t, 1
    ensures req.View() == Sent(t, old(req.View()))
    ensures o == Returned(t, old(req.View()))
    ensures forall c :: c in Cells(t) && old(allocated(c)) ==> c.value == After(t, o, c, old(c.value))
  {
    match t
    case Network(send) =>
      o := send(req.View());
    case AuthTokenHeader(cfg, normalize, inner) =>
      o := AuthRoundTrip(cfg, normalize, inner, req);
    case ExtractHeader(name, dest, inner) =>
      o := ExtractRoundTrip(name, dest, inner, req);
  }

  /** The round-trip function of `AddAuthTokenHeader(cfg, inner)`: set the
      `Authorization` header on the caller's request when the store has a
      token for its host, then delegate. */
  method AuthRoundTrip(cfg: ConfigGetter, normalize: string -> string, inner: Transport, req: Request)
    returns (o: Outcome)
    modifies req, Cells(inner)
    decreases inner, 2
    ensures req.View() == Sent(inner, Authorize(cfg, normalize, old(req.View())))
    ensures o == Returned(inner, Authorize(cfg, normalize, old(req.View())))
    ensures forall c :: c in Cells(inner) && old(allocated(c)) ==> c.value == After(inner, o, c, old(c.value))
  {
    var hostname := normalize(GetHost(req.View()));
    var lookup := cfg(hostname, TokenKey);
    if lookup.Found? && lookup.value != "" {
      req.header := Set(req.header, AuthorizationHeader, "token " + lookup.value);
    }
    o := RoundTrip(inner, req);
  }

  /** The round-trip function of `ExtractHeader(name, dest)(inner)`:
      delegate, then on success save a non-empty value of header `name`
      to `dest`. */
  method ExtractRoundTrip(name: string, dest: Cell, inner: Transport, req: Request)
    returns (o: Outcome)
    modifies req, Cells(inner), dest
    decreases inner, 2
    ensures req.View() == Sent(inner, old(req.View()))
    ensures o == Returned(inner, old(req.View()))
    ensures forall c :: c in Cells(inner) && old(allocated(c)) && c != dest ==> c.value == After(inner, o, c, old(c.value))
    ensures dest.value == Capture(name, o, After(inner, o, dest, old(dest.value)))
  {
    o := RoundTrip(inner, req);
    if o.Responded? {
      var value := Get(o.response.header, name);
      if value != "" {
        dest.value := value;
      }
    }
  }

  /** The transport the factory builds over the base client's transport:
      auth injection wrapped first, header extraction second (outermost). */
  function Decorate(cfg: ConfigGetter, normalize: string -> string, sso: Cell, base: Transport): (t: Transport)
    ensures Cells(t) == Cells(base) + {sso}
    ensures Terminal(t) == Terminal(base)
    ensures forall r :: Sent(t, r) == Sent(base, Authorize(cfg, normalize, r))
  {
    ExtractHeader(SsoHeaderName, sso, AuthTokenHeader(cfg, normalize, base))
  }

  /** One round trip through the factory's chain authenticates the request
      before it reaches the base transport, returns the base transport's
      outcome unchanged, and updates the SSO cell from that outcome. */
  lemma DecoratedRoundTrip(cfg: ConfigGetter, normalize: string -> string, sso: Cell, base: Transport,
                           r: RequestView, prev: string)
    requires sso !in Cells(base)
    ensures Sent(Decorate(cfg, normalize, sso, base), r) == Sent(base, Authorize(cfg, normalize, r))
    ensures Returned(Decorate(cfg, normalize, sso, base), r) == Returned(base, Authorize(cfg, normalize, r))
    ensures After(Decorate(cfg, normalize, sso, base), Returned(base, Authorize(cfg, normalize, r)), sso, prev)
         == Capture(SsoHeaderName, Returned(base, Authorize(cfg, normalize, r)), prev)
  {
  }

  /** After a successful response whose `X-GitHub-SSO` header starts with a
      `url=` attribute (as in `url=https://example.com/sso; other=x`), the
      SSO URL of the captured value is that attribute's value. */
  lemma SsoUrlAfterChallenge(cfg: ConfigGetter, normalize: string -> string, sso: Cell, base: Transport,
                             r: RequestView, prev: string, u: string, rest: string)
    requires sso !in Cells(base)
    requires u != [] && forall m :: 0 <= m < |u| ==> u[m] != ';'
    requires rest == [] || rest[0] == ';'
    requires Returned(base, Authorize(cfg, normalize, r)).Responded?
    requires Get(Returned(base, Authorize(cfg, normalize, r)).response.header, SsoHeaderName) == Sso.Key + u + rest
    ensures Sso.SSOURL(After(Decorate(cfg, normalize, sso, base), Returned(Decorate(cfg, normalize, sso, base), r), sso, prev))
         == u
  {
    DecoratedRoundTrip(cfg, normalize, sso, base, r, prev);
    Sso.LeadingUrlAttribute(u, rest);
  }

  /** `*http.Client`, as far as the factory touches it. */
  class Client {
    var transport: Transport

    constructor (transport: Transport)
      ensures this.transport == transport
    {
      this.transport := transport;
    }
  }

  /** The tail of `NewHTTPClient`: `built` is what constructing the base
      client yielded (its transport, or the construction error). An error is
      returned unchanged; otherwise the client's transport is wrapped in
      place, auth injection first and SSO header extraction second. */
  method NewHTTPClient(built: Result<Transport, string>, cfg: ConfigGetter, normalize: string -> string, sso: Cell)
    returns (r: Result<Client, string>)
    ensures built.Failure? ==> r == Failure(built.error)
    ensures built.Success? ==> r.Success? && fresh(r.value)
    ensures built.Success? ==> r.value.transport == Decorate(cfg, normalize, sso, built.value)
  {
    if built.Failure? {
      return Failure(built.error);
    }
    var client := new Client(built.value);
    client.transport := AuthTokenHeader(cfg, normalize, client.transport);
    client.transport := ExtractHeader(SsoHeaderName, sso, client.transport);
    return Success(client);
  }

  /** A client built by the factory over a network that answers the
      authorised request with an SSO challenge: the caller's request is left
      authorised, and `SSOURL` of the captured header is the challenge URL. */
  method SsoChallengeThroughClient(cfg: ConfigGetter, normalize: string -> string, send: RequestView -> Outcome,
                                   request: RequestView, u: string, rest: string)
    returns (url: string, after: RequestView)
    requires u != [] && forall m :: 0 <= m < |u| ==> u[m] != ';'
    requires rest == [] || rest[0] == ';'
    requires send(Authorize(cfg, normalize, request)).Responded?
    requires Get(send(Authorize(cfg, normalize, request)).response.header, SsoHeaderName) == Sso.Key + u + rest
    ensures after == Authorize(cfg, normalize, request)
    ensures url == u
  {
    var sso := new Cell();
    var client := NewHTTPClient(Success(Network(send)), cfg, normalize, sso);
    var req := new Request(request.host, request.url, request.header);
    var o := RoundTrip(client.value.transport, req);
    after := req.View();
    url := Sso.SSOURL(sso.value);
    Sso.LeadingUrlAttribute(u, rest);
  }
}
