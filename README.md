# UniFi Network controller client, modelled in Dafny

This project models the core of a read-only client for the UniFi Network
controller's integration API (`pkg/unifi/unifi.go`). The client builds
authenticated requests from a base host and API key, and it treats any status
other than 200 as an error. It has two single-call endpoints: controller info
and device detail. It has three list endpoints: sites, the clients of a site
and the devices of a site. The list endpoints all run the same offset/limit
pagination loop. The loop asks for windows of 25 items at offsets 0, 25, 50
and so on. It appends each page's `data` and stops once the number of items
gathered reaches the `totalCount` of the page just fetched. Any error on any
page aborts the whole listing with no partial result.

Modules:

- `Wrappers`: `Option` and `Result`.
- `Decimal`: `strconv.Itoa` for the non-negative offset and limit values, with
  its inverse `Atoi`.
- `Models`: the records of `pkg/unifi/models.go` (`Info`, `Site`, `Client`,
  `Device`, `FullDevice` and its parts), and the list `Envelope`.
- `Transport`: `callAPI`. The environment is a `Network` value with two
  functions: `joinPath` stands for `url.JoinPath`, and `send` stands for
  creating and executing the request and reading its body.
- `Paginator`: one generic loop, `Paginate`, over an abstract page source
  `(offset, limit) -> Result<Envelope<T>, Error>`. The predicate `Paginated`
  characterises every run. The module also has lemmas about arbitrary
  servers, about a well-behaved server (`WindowServer`, which serves windows
  of a fixed sequence) and about a server whose listing never converges.
- `Controller`: `GetInfo`, `ListSites`, `ListClients`, `ListDevices` and
  `GetDeviceDetail`. The three list operations are instances of `Paginate`,
  each over its own `EndpointFetcher`.

The server is modelled as a pure function of the request. The k-th page is
always requested at offset 25·k, so offsets never repeat. A server that
answers by request is therefore as general as one that answers by call
number. Each list operation returns the calls it made, so the number of
fetches and the offsets used are part of its contract.

Three facts about the code that the model keeps:

- The code puts identifiers into paths with `fmt.Sprintf("%s")` and does not
  path-escape them.
- The code's errors are formatted strings, not a typed taxonomy.
  `Transport.Error` gives one case per error return.
- The code never checks the envelope's `count` field against `len(data)`.

## Model

| member | source | states |
|---|---|---|
| `Decimal.Itoa` | pkg/unifi/unifi.go:89-90 | the rendered offset/limit is a non-empty string of digits with no leading zero except for 0 |
| `Decimal.AtoiItoa` | pkg/unifi/unifi.go:89-90 | reading the rendered numeral back gives the number sent |
| `Decimal.ItoaInjective` | pkg/unifi/unifi.go:89-90 | different offsets are sent as different parameter values |
| `Transport.Outgoing` | pkg/unifi/unifi.go:40-52 | a request exists exactly when host and path join into a URL; it carries the call's method and query, and its headers are exactly `X-API-KEY` = the key and `Accept` = `application/json` |
| `Transport.CallApi` | pkg/unifi/unifi.go:40-69 | a body comes back exactly when the reply has status 200 and its body was read; any other status is `UnexpectedStatus(status)` whatever the body; a 200 reply whose body cannot be read gives `ReadFailed`; a URL, creation or execution failure is its own error and never a decode error |
| `Controller.FetchOne` | pkg/unifi/unifi.go:72-79 | a call followed by decoding: the call's error is passed on, a body that does not decode gives `DecodeFailed`, otherwise the decoded value |
| `Controller.GetInfo` | pkg/unifi/unifi.go:71-81 | exactly one GET call to `/v1/info`, with no query parameters, whose decoded reply is the result |
| `Controller.GetDeviceDetail` | pkg/unifi/unifi.go:163-177 | exactly one GET call, never paginated, to `/v1/sites/<site>/devices/<device>`, with `siteId` and `deviceId` parameters, whose decoded reply is the result |
| `Paginator.Paginate` | pkg/unifi/unifi.go:83-107 | at least one fetch; the k-th uses offset 25·k and limit 25, so each offset is the previous one plus the limit; the run satisfies `Paginated`: every page but the last reports a total not yet reached; success returns the concatenation of all pages in fetch order exactly when the last page's total is reached; failure returns that page's error and no items |
| `Paginator.PaginatedUnique` | pkg/unifi/unifi.go:87-106 | two runs of the same listing with the same fuel make the same number of fetches and end the same way |
| `Paginator.FuelSuffices` | pkg/unifi/unifi.go:87-106 | a run that ended done or failed is exactly the run any larger fuel bound gives, so the bound only cuts off listings that never finish |
| `Paginator.CollectedPrefix` | pkg/unifi/unifi.go:100 | the items gathered after k pages are a prefix of those gathered after any later page |
| `Paginator.PageInPlace` | pkg/unifi/unifi.go:100 | page k's items appear, unchanged and in order, right after those of pages 0..k-1 |
| `Paginator.NonPositiveTotalFetchesOnce` | pkg/unifi/unifi.go:85-104 | if the first page reports a total ≤ 0, exactly one fetch is made and its items are returned |
| `Paginator.AbortsOnFailedPage` | pkg/unifi/unifi.go:91-99 | a failed page k ends the listing after k+1 fetches with that page's error, discarding earlier pages |
| `Paginator.WindowServerCollects` | pkg/unifi/unifi.go:100-105 | against a well-behaved server the first n pages hold exactly `data[..min(25·n, T)]`: no gaps, no duplicates |
| `Paginator.WindowServerStops` | pkg/unifi/unifi.go:102-104 | against a well-behaved server page k ends the listing iff 25·(k+1) ≥ T |
| `Paginator.WindowServerListing` | pkg/unifi/unifi.go:83-107 | against a well-behaved server, given enough fuel, exactly ceil(T/25) fetches are made (1 when T = 0) and the result is `data` itself |
| `Paginator.SixtyItems` | pkg/unifi/unifi.go:83-107 | with T = 60 the offsets are 0, 25 and 50 and all 60 items come back in server order |
| `Paginator.EmptyPagesNeverFinish` | pkg/unifi/unifi.go:87-106 | a server that keeps sending empty pages with a positive total never lets the loop finish: only the fuel bound ends it |
| `Paginator.EmptyPagesCollectNothing` | pkg/unifi/unifi.go:100 | appending empty pages gathers nothing |
| `Controller.ListSites` | pkg/unifi/unifi.go:83-107 | at least one call; the k-th is a GET to `/v1/sites` with `offset` = 25·k (reading back as 25·k) and `limit` = 25; the result is the paginator's over the decoded replies to exactly those calls |
| `Controller.ListClients` | pkg/unifi/unifi.go:109-134 | as for sites, but every call goes to `/v1/sites/<site>/clients` and sends `siteId` = site with every page's offset and limit (in the model's parameter list, in the order the code adds them) |
| `Controller.ListDevices` | pkg/unifi/unifi.go:136-161 | as for clients, over `/v1/sites/<site>/devices` |
| `Controller.NonOkPageAborts` | pkg/unifi/unifi.go:58-60 | a non-200 reply to any page of any list endpoint ends the listing there with `UnexpectedStatus` of that code and no items |
| `Controller.MalformedPageAborts` | pkg/unifi/unifi.go:96-99 | a body that does not decode on any page ends the listing there with `DecodeFailed` and no items |

## Left out

- Paginate: the client's loop has no bound. The model takes a fuel bound
  `maxFetches` (at least 1) and returns `OutOfFuel` when it is used up. The
  exit test is unchanged. A run that finishes by itself gives the same
  fetches and outcome under any larger bound (`FuelSuffices`); only a
  listing that never finishes, such as the one in `EmptyPagesNeverFinish`,
  ends in `OutOfFuel`.
- HTTP execution (`http.NewRequest`, `Client.Do`, `io.ReadAll`) is network
  I/O. It is the `send` function of `Network`, whose `Delivery` result
  records which step failed.
- URL joining (`url.JoinPath`) is foreign library behaviour. It is the
  `joinPath` function of `Network`, applied to the host, the API base path
  and the endpoint path.
- Query encoding (`url.Values.Encode`, which sorts keys) is foreign library
  behaviour. Parameters are kept as the list of pairs in the order they are
  added.
- Go's canonicalisation of header names (`X-API-KEY` becomes `X-Api-Key` on
  the wire) is library behaviour and is not modelled.
- JSON decoding (`encoding/json`) is foreign library behaviour. Each response
  shape has an abstract decoder in `Controller.Json` that can fail.
- Field-level types: `time.Time` and `net.IP` are kept as their text, a
  radio's `float32` frequency is dropped, and the untyped features payload
  is raw JSON text.
- Releasing the response body (`defer resp.Body.Close()`) is resource
  handling with no functional effect. The model does not record that it is
  skipped on the non-200 and read-error paths.
- Logging (`logging.NewLogger`) and the `http.Client` field of `Controller`
  are global or foreign state and are not part of the model.
- `NewController` only fills the two fields of the `Transport.Config`
  value, so it has no separate member.
- Go's `int` is 64-bit. The model's offsets are unbounded, which matters
  only after about 3.7·10^17 pages.
- The command-line program `unifi.go` is not part of this model.
