# GitHub CLI HTTP transport decoration, modelled in Dafny

This project models the request/response decoration that the GitHub CLI's
client factory (`pkg/cmd/factory/http.go`) puts around every HTTP client it
builds:

- **Auth injection** (`AddAuthTokenHeader`, `getHost`): for each request,
  take the explicit `Host` field or else the URL's hostname, normalise it,
  look up `(host, "oauth_token")` in the credential store, and when that
  yields a non-empty token set `Authorization: token <value>` on the
  caller's request (in place) before delegating. The `Authorization` field
  is the one of section 11.6.2 of RFC 9110; the `token` scheme is GitHub's.
- **Header capture** (`ExtractHeader`): delegate, then, if the round trip
  succeeded and the response carries a non-empty value of the named header,
  store it in a destination string. The factory points it at the package
  variable `ssoHeader` for the `X-GitHub-SSO` header.
- **SSO URL resolution** (`SSOURL`): apply `\burl=([^;]+)` (RE2, ASCII
  `\b`) to the captured value and return the first capture group of the
  leftmost match, or "" when the value is empty or nothing matches.
- **Composition** (`funcTripper.RoundTrip`, `NewHTTPClient` lines 49-57):
  every decorator is a function-backed round tripper; the factory wraps the
  base transport with auth injection first and header extraction second, so
  the extractor is outermost.

Files:

- `wrappers.dfy` — `Option` and `Result`.
- `http.dfy` — header maps with `Get`/`Set`, the mutable `Request` class,
  `Response`, and the `Outcome` of a round trip.
- `sso.dfy` — the regular expression as predicates (`MatchAt`, `Leftmost`,
  `MaximalRun`, `IsCapture`), the scanning functions `FindMatch` and
  `RunEnd`, `SSOURL`, and the lemmas that pin its result down.
- `factory.dfy` — `GetHost`, `Authorize`, the decorator chain as the
  datatype `Transport` with the methods that run it, the capture rules
  (`Capture`, `After`, `CaptureAll`), and `NewHTTPClient`'s wrapping order.

Go's `http.RoundTripper` interface is represented by the datatype
`Transport`: `Network` is the base transport (a function from the request
to an outcome), `AuthTokenHeader` and `ExtractHeader` are the two
decorators with what their closures capture. The method `RoundTrip`
dispatches on it, `AuthRoundTrip` and `ExtractRoundTrip` are the two
closures, and each is proved against the specification functions `Sent`
(the request as it reaches the network, which is also how the caller's
request is left, given that the base transport does not modify it), `Returned` (the outcome) and `After` (each destination's
new value). The destination `*string` is the class `Cell`.

## Model

| member | source | states |
|---|---|---|
| Sso.MatchAtStartsAfterNonWord | pkg/cmd/factory/http.go:96 | a match of `\burl=([^;]+)` starts at `i` exactly when `i` is 0 or follows a non-word character, `url=` sits at `i`, and the next character exists and is not `;` |
| Sso.FindMatch | pkg/cmd/factory/http.go:104 | the scan returns the first index at or after `from` where a match starts, and returns none only when no match starts at or after `from` |
| Sso.RunEnd | pkg/cmd/factory/http.go:96 | greedy `[^;]+`: the run from `k` stops at the first `;` or at the end of the string and contains no `;` |
| Sso.SSOURL | pkg/cmd/factory/http.go:100-108 | an empty header gives ""; the result is "" exactly when no match exists; otherwise it is the maximal `;`-free run right after `url=` of the leftmost match, copied verbatim |
| Sso.CaptureIsUnique | pkg/cmd/factory/http.go:104-108 | a header has at most one capture (leftmost match, maximal run) |
| Sso.SSOURLIsTheCapture | pkg/cmd/factory/http.go:100-108 | a string is the capture of the header if and only if it is what `SSOURL` returns |
| Sso.LeftmostExists | pkg/cmd/factory/http.go:104 | whenever the pattern matches somewhere, a leftmost match exists at or before that place |
| Sso.LeadingUrlAttribute | pkg/cmd/factory/http.go:104-108 | for a header `url=<u>` followed by nothing or by `;...`, with `u` non-empty and `;`-free, the result is `u` exactly |
| Sso.ExampleUrlBeforeOtherAttribute | pkg/cmd/factory/http.go:104-108 | `url=https://example.com/sso; other=x` gives `https://example.com/sso` |
| Sso.ExampleNoUrlKey | pkg/cmd/factory/http.go:104-107 | `foo=bar` gives "" |
| Sso.ExampleNoWordBoundary | pkg/cmd/factory/http.go:96 | `myurl=x` gives "" because `url=` does not follow a word boundary |
| Sso.ExampleEmptyValue | pkg/cmd/factory/http.go:96 | `url=;x` gives "" because `[^;]+` needs at least one character |
| Sso.ExampleLeftmostQualifying | pkg/cmd/factory/http.go:104-108 | `xurl=a; url=b` gives `b`: the leftmost occurrence that qualifies, not the leftmost text |
| Factory.Cell.constructor | pkg/cmd/factory/http.go:95 | the captured header starts out as "" |
| Factory.GetHost | pkg/cmd/factory/http.go:111-116 | the explicit `Host` when it is non-empty, else the URL's hostname; the host is empty only when both are (see also `ExplicitHostTakesPrecedence`) |
| Factory.Token | pkg/cmd/factory/http.go:63-64 | a token is injected exactly when the lookup of `(normalize(host), "oauth_token")` succeeds with a non-empty value, and it is that value |
| Factory.Authorize | pkg/cmd/factory/http.go:63-65 | host and URL unchanged; every header other than `Authorization` unchanged; with a non-empty token from the lookup of the normalised host, `Authorization` becomes `token <value>` whatever it was; otherwise the request is unchanged |
| Factory.ExplicitHostTakesPrecedence | pkg/cmd/factory/http.go:111-116 | when the explicit host is set, changing the URL changes nothing about the injected header |
| Factory.AuthorizeIdempotent | pkg/cmd/factory/http.go:63-65 | injecting twice gives the same request as injecting once |
| Factory.Sent | pkg/cmd/factory/http.go:62-67 | no layer of the chain changes the request's host, URL or any header except `Authorization` |
| Factory.Returned | pkg/cmd/factory/http.go:91-93 | the outcome a chain returns (each layer delegating, as at lines 67 and 82) is exactly what the base transport returned for the request it was sent; no layer alters or swallows it |
| Factory.After | pkg/cmd/factory/http.go:77-81 | a destination outside the chain, or any destination after an error, keeps its value; a changed value is a non-empty value of a header of the response |
| Factory.Capture | pkg/cmd/factory/http.go:77-81 | the destination keeps its value after an error or when the header is missing or empty, and otherwise takes the header's value verbatim |
| Factory.CaptureAllIsLastNonEmpty | pkg/cmd/factory/http.go:77-81 | after a series of round trips the destination holds the last non-empty header value from a successful response, or its initial value if there was none |
| Factory.RoundTrip | pkg/cmd/factory/http.go:91-93 | running a chain leaves the caller's request as `Sent`, returns `Returned`, and leaves each destination as `After` says |
| Factory.AuthRoundTrip | pkg/cmd/factory/http.go:62-68 | the caller's request is authorised in place and handed to the inner transport, whose outcome is returned verbatim |
| Factory.ExtractRoundTrip | pkg/cmd/factory/http.go:75-83 | the inner outcome is returned verbatim; `dest` takes the response header's value when the round trip succeeded and the value is non-empty, and is otherwise unchanged |
| Factory.NewHTTPClient | pkg/cmd/factory/http.go:49-57 | a base-client construction error is returned unchanged; otherwise the client's transport becomes extraction of `X-GitHub-SSO` over auth injection over the base transport |
| Factory.Decorate | pkg/cmd/factory/http.go:54-55 | the factory's chain adds exactly the SSO cell to the base transport's destinations, keeps its network, and sends the base transport the authorised request |
| Factory.DecoratedRoundTrip | pkg/cmd/factory/http.go:54-55 | one round trip through the factory's chain sends the authorised request to the base transport, returns its outcome, and updates the SSO cell from that outcome |
| Factory.SsoUrlAfterChallenge | pkg/cmd/factory/http.go:55-108 | after a successful response whose `X-GitHub-SSO` header is `url=<u>` followed by nothing or by `;...` (such as `url=https://example.com/sso; other=x`), the SSO URL of the captured value is `u` |
| Factory.SsoChallengeThroughClient | pkg/cmd/factory/http.go:49-108 | through the stateful code (a fresh `ssoHeader` cell, `NewHTTPClient`, one `RoundTrip`), the caller's request ends up authorised and `SSOURL` of the captured value is the challenge URL `u` |

## Left out

- Building the base client's options in `NewHTTPClient` (lines 29-48: the debug-environment query, the `User-Agent` and `Accept` headers, the cache flag and TTL) and the call into the go-gh library: the model takes the construction's result (a transport or an error) as a parameter.
- `ghinstance.NormalizeHostname` and the credential store are not part of this model; both are parameters (`normalize`, `cfg`). `url.URL` is reduced to the hostname its `Hostname()` returns.
- Go's case-insensitive header names: `Header.Get` and `Header.Set` canonicalise names (`X-GitHub-SSO` becomes `X-Github-Sso`), while the model matches names exactly as written. Responses are assumed to carry the spelling the code looks up (`X-GitHub-SSO`, `Authorization`); a response keyed `X-Github-Sso` is captured by the source but not by the model. Multiple values per header name are not modelled either.
- The network: the base transport is a function from the request it is sent to an outcome, so it is deterministic in the model, and it does not modify the request it is handed. Go passes it the same `*http.Request` the caller holds, and the `RoundTripper` contract asks it not to modify it; what `RoundTrip` and `SsoChallengeThroughClient` say about the caller's request after the round trip rests on that.
- A round trip returning both a response and an error, or neither: an outcome is one or the other, as the `RoundTripper` contract asks.
- `SSOURL` works on Unicode characters; the invalid UTF-8 that RE2 reads as U+FFFD is not modelled.
- The package variable `ssoHeader` and unsynchronised writes to it from concurrent round trips: the model has one `Cell` written by a single thread.
