/** The public operations of the controller client: two single-call endpoints
    (controller info, device detail) and three list endpoints that run the
    shared paginator over their own path and query. */
module Controller {
  import opened Wrappers
  import opened Models
  import opened Transport
  import opened Decimal
  import opened Paginator

  const INFO_PATH: string := "/v1/info"
  const SITES_PATH: string := "/v1/sites"

  /** The site-scoped paths, with the identifiers substituted verbatim. */
  function ClientsPath(site: string): string {
    "/v1/sites/" + site + "/clients"
  }

  function DevicesPath(site: string): string {
    "/v1/sites/" + site + "/devices"
  }

  function DeviceDetailPath(site: string, device: string): string {
    "/v1/sites/" + site + "/devices/" + device
  }

  /** How each response shape is decoded from its body; None when the body is
      not valid JSON for that shape. */
  datatype Json = Json(
    info: Bytes -> Option<Info>,
    sites: Bytes -> Option<Envelope<Site>>,
    clients: Bytes -> Option<Envelope<Client>>,
    devices: Bytes -> Option<Envelope<Device>>,
    fullDevice: Bytes -> Option<FullDevice>)

  datatype Env = Env(net: Network, json: Json)

  /** The outcome of a single-call operation, with the calls it made. */
  datatype Answer<X> = Answer(result: Result<X, Error>, calls: seq<ApiCall>)

  function PageParams(offset: nat, limit: nat): seq<Param> {
    [Param("offset", Itoa(offset)), Param("limit", Itoa(limit))]
  }

  function SitesCall(offset: nat, limit: nat): ApiCall {
    ApiCall(METHOD_GET, SITES_PATH, PageParams(offset, limit))
  }

  function ClientsCall(site: string, offset: nat, limit: nat): ApiCall {
    ApiCall(METHOD_GET, ClientsPath(site), [Param("siteId", site)] + PageParams(offset, limit))
  }

  function DevicesCall(site: string, offset: nat, limit: nat): ApiCall {
    ApiCall(METHOD_GET, DevicesPath(site), [Param("siteId", site)] + PageParams(offset, limit))
  }

  /** One call followed by decoding its body: the call's own error when it
      failed, DecodeFailed when its body does not decode, the decoded value
      otherwise. */
  function FetchOne<X>(net: Network, c: Config, call: ApiCall, decode: Bytes -> Option<X>): (r: Result<X, Error>)
    ensures CallApi(net, c, call).Failure? ==> r == Failure(CallApi(net, c, call).error)
    ensures CallApi(net, c, call).Success? ==>
      && (r.Success? <==> decode(CallApi(net, c, call).value).Some?)
      && (r.Success? ==> decode(CallApi(net, c, call).value) == Some(r.value))
      && (r.Failure? ==> r.error == DecodeFailed)
  {
    match CallApi(net, c, call)
    case Failure(e) => Failure(e)
    case Success(body) =>
      match decode(body)
      case None => Failure(DecodeFailed)
      case Some(x) => Success(x)
  }

  /** The page source of a list endpoint: the page at (offset, limit) is the
      decoded reply to the call built for that window. */
  function EndpointFetcher<T>(net: Network, c: Config, callFor: (nat, nat) -> ApiCall,
                              decode: Bytes -> Option<Envelope<T>>): Fetcher<T>
  {
    (offset: nat, limit: nat) => FetchOne(net, c, callFor(offset, limit), decode)
  }

  function SitesFetcher(env: Env, c: Config): Fetcher<Site> {
    EndpointFetcher(env.net, c, SitesCall, env.json.sites)
  }

  function ClientsFetcher(env: Env, c: Config, site: string): Fetcher<Client> {
    EndpointFetcher(env.net, c, (offset: nat, limit: nat) => ClientsCall(site, offset, limit), env.json.clients)
  }

  function DevicesFetcher(env: Env, c: Config, site: string): Fetcher<Device> {
    EndpointFetcher(env.net, c, (offset: nat, limit: nat) => DevicesCall(site, offset, limit), env.json.devices)
  }

  /** The controller's version information: one call to the info path, without
      query parameters. */
  function GetInfo(env: Env, c: Config): (a: Answer<Info>)
    ensures |a.calls| == 1
    ensures a.calls[0].verb == METHOD_GET && a.calls[0].path == INFO_PATH && a.calls[0].params == []
    ensures a.result == FetchOne(env.net, c, a.calls[0], env.json.info)
  {
    var call := ApiCall(METHOD_GET, INFO_PATH, []);
    Answer(FetchOne(env.net, c, call, env.json.info), [call])
  }

  /** One device in full: exactly one call, never paginated, to the path naming
      the site and the device, which are repeated as query parameters. */
  function GetDeviceDetail(env: Env, c: Config, site: string, device: string): (a: Answer<FullDevice>)
    ensures |a.calls| == 1
    ensures a.calls[0].verb == METHOD_GET && a.calls[0].path == DeviceDetailPath(site, device)
    ensures a.calls[0].params == [Param("siteId", site), Param("deviceId", device)]
    ensures a.result == FetchOne(env.net, c, a.calls[0], env.json.fullDevice)
  {
    var call := ApiCall(METHOD_GET, DeviceDetailPath(site, device), [Param("siteId", site), Param("deviceId", device)]);
    Answer(FetchOne(env.net, c, call, env.json.fullDevice), [call])
  }

  /** All sites. The k-th call asks the sites path for offset 25 * k and limit 25,
      and the listing is the paginator's over the decoded replies. */
  method ListSites(env: Env, c: Config, maxFetches: nat) returns (r: Listing<Site>, calls: seq<ApiCall>)
    requires maxFetches > 0
    ensures |calls| >= 1
    ensures forall k :: 0 <= k < |calls| ==>
      && calls[k].verb == METHOD_GET && calls[k].path == SITES_PATH
      && calls[k].params == [Param("offset", Itoa(PAGE_SIZE * k)), Param("limit", Itoa(PAGE_SIZE))]
      && Atoi(calls[k].params[0].value) == PAGE_SIZE * k
    ensures Paginated(SitesFetcher(env, c), maxFetches, |calls|, r)
    ensures forall k :: 0 <= k < |calls| ==> PageAt(SitesFetcher(env, c), k) == FetchOne(env.net, c, calls[k], env.json.sites)
  {
    var pages;
    r, pages := Paginate(SitesFetcher(env, c), maxFetches);
    calls := seq(|pages|, k requires 0 <= k < |pages| => SitesCall(pages[k].offset, pages[k].limit));
    forall k | 0 <= k < |calls| ensures Atoi(calls[k].params[0].value) == PAGE_SIZE * k {
      AtoiItoa(PAGE_SIZE * k);
    }
  }

  /** The clients of one site. Every call names the site in its path and sends
      it as `siteId` ahead of the window's offset and limit. */
  method ListClients(env: Env, c: Config, site: string, maxFetches: nat) returns (r: Listing<Client>, calls: seq<ApiCall>)
    requires maxFetches > 0
    ensures |calls| >= 1
    ensures forall k :: 0 <= k < |calls| ==>
      && calls[k].verb == METHOD_GET && calls[k].path == ClientsPath(site)
      && calls[k].params == [Param("siteId", site), Param("offset", Itoa(PAGE_SIZE * k)), Param("limit", Itoa(PAGE_SIZE))]
      && Atoi(calls[k].params[1].value) == PAGE_SIZE * k
    ensures Paginated(ClientsFetcher(env, c, site), maxFetches, |calls|, r)
    ensures forall k :: 0 <= k < |calls| ==> PageAt(ClientsFetcher(env, c, site), k) == FetchOne(env.net, c, calls[k], env.json.clients)
  {
    var pages;
    r, pages := Paginate(ClientsFetcher(env, c, site), maxFetches);
    calls := seq(|pages|, k requires 0 <= k < |pages| => ClientsCall(site, pages[k].offset, pages[k].limit));
    forall k | 0 <= k < |calls| ensures Atoi(calls[k].params[1].value) == PAGE_SIZE * k {
      AtoiItoa(PAGE_SIZE * k);
    }
  }

  /** The devices of one site, with the same scoping as the clients. */
  method ListDevices(env: Env, c: Config, site: string, maxFetches: nat) returns (r: Listing<Device>, calls: seq<ApiCall>)
    requires maxFetches > 0
    ensures |calls| >= 1
    ensures forall k :: 0 <= k < |calls| ==>
      && calls[k].verb == METHOD_GET && calls[k].path == DevicesPath(site)
      && calls[k].params == [Param("siteId", site), Param("offset", Itoa(PAGE_SIZE * k)), Param("limit", Itoa(PAGE_SIZE))]
      && Atoi(calls[k].params[1].value) == PAGE_SIZE * k
    ensures Paginated(DevicesFetcher(env, c, site), maxFetches, |calls|, r)
    ensures forall k :: 0 <= k < |calls| ==> PageAt(DevicesFetcher(env, c, site), k) == FetchOne(env.net, c, calls[k], env.json.devices)
  {
    var pages;
    r, pages := Paginate(DevicesFetcher(env, c, site), maxFetches);
    calls := seq(|pages|, k requires 0 <= k < |pages| => DevicesCall(site, pages[k].offset, pages[k].limit));
    forall k | 0 <= k < |calls| ensures Atoi(calls[k].params[1].value) == PAGE_SIZE * k {
      AtoiItoa(PAGE_SIZE * k);
    }
  }

  /** A reply with any status other than 200 to the k-th page of a list endpoint
      ends the listing there with that status, and no items. */
  lemma NonOkPageAborts<T>(net: Network, c: Config, callFor: (nat, nat) -> ApiCall,
                           decode: Bytes -> Option<Envelope<T>>, maxFetches: nat, n: nat, r: Listing<T>, k: nat)
    requires Paginated(EndpointFetcher(net, c, callFor, decode), maxFetches, n, r)
    requires k < maxFetches
    requires forall j :: 0 <= j < k ==> Continues(EndpointFetcher(net, c, callFor, decode), j)
    requires Outgoing(net, c, callFor(PAGE_SIZE * k, PAGE_SIZE)).Some?
    requires net.send(Outgoing(net, c, callFor(PAGE_SIZE * k, PAGE_SIZE)).value).Answered?
    requires net.send(Outgoing(net, c, callFor(PAGE_SIZE * k, PAGE_SIZE)).value).status != STATUS_OK
    ensures n == k + 1
    ensures r == Failed(UnexpectedStatus(net.send(Outgoing(net, c, callFor(PAGE_SIZE * k, PAGE_SIZE)).value).status))
  {
    AbortsOnFailedPage(EndpointFetcher(net, c, callFor, decode), maxFetches, n, r, k);
  }

  /** A body that does not decode on the k-th page of a list endpoint ends the
      listing there with DecodeFailed, discarding the pages already gathered. */
  lemma MalformedPageAborts<T>(net: Network, c: Config, callFor: (nat, nat) -> ApiCall,
                               decode: Bytes -> Option<Envelope<T>>, maxFetches: nat, n: nat, r: Listing<T>, k: nat)
    requires Paginated(EndpointFetcher(net, c, callFor, decode), maxFetches, n, r)
    requires k < maxFetches
    requires forall j :: 0 <= j < k ==> Continues(EndpointFetcher(net, c, callFor, decode), j)
    requires CallApi(net, c, callFor(PAGE_SIZE * k, PAGE_SIZE)).Success?
    requires decode(CallApi(net, c, callFor(PAGE_SIZE * k, PAGE_SIZE)).value).None?
    ensures n == k + 1 && r == Failed(DecodeFailed)
  {
    AbortsOnFailedPage(EndpointFetcher(net, c, callFor, decode), maxFetches, n, r, k);
  }
}
