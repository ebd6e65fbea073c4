/**
  The slice of Go's net/http that the transport decorators touch: header maps,
  the request they mutate, the response they inspect, and the outcome of one
  round trip.
 */
module Http {

  /** A header map. Names are matched exactly as written, without Go's
      case-insensitive canonicalisation, and each name carries a single
      value (see README, "Left out"). */
  type Header = map<string, string>

  /** `Header.Get`: the value stored under `name`, or "" when there is none. */
  function Get(h: Header, name: string): string
  {
    if name in h then h[name] else ""
  }

  /** `Header.Set`: store `value` under `name`, replacing any earlier value. */
  function Set(h: Header, name: string, value: string): Header
  {
    h[name := value]
  }

  /** A request URL, reduced to what `URL.Hostname()` returns for it. */
  datatype Url = Url(hostname: string)

  /** The contents of a request at one moment: its explicit `Host` field,
      its URL and its headers. */
  datatype RequestView = RequestView(host: string, url: Url, header: Header)

  /** `*http.Request`: owned by the caller and handed down the transport
      chain by reference, so a decorator that sets a header changes it for
      every layer below and for the caller. */
  class Request {
    var host: string
    var url: Url
    var header: Header

    constructor (host: string, url: Url, header: Header)
      ensures View() == RequestView(host, url, header)
    {
      this.host := host;
      this.url := url;
      this.header := header;
    }

    /** The request's current contents. */
    function View(): RequestView
      reads this
    {
      RequestView(host, url, header)
    }
  }

  /** `*http.Response`, as far as the decorators look at it. */
  datatype Response = Response(header: Header)

  /** What `RoundTrip` hands back: a response, or an error and no response. */
  datatype Outcome = Responded(response: Response) | Failed(error: string)
}
