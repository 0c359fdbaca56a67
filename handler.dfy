/** The request-handling rules of the runtime (server/handler.ts): the body-size
    limit, the trailing-slash redirect for prerendered pages, the client address
    and origin taken from request headers, and the fall-through composition of the
    middleware chain. The static file server, the URL parser, `decodeURIComponent`
    and the framework's renderer are outside the model; their results are inputs. */
module Handler {
  import opened Common
  import opened Numeric
  import opened Text
  import opened Env

  // ---------------------------------------------------------------------------
  // BODY_SIZE_LIMIT
  // ---------------------------------------------------------------------------

  const Kibi: nat := 1024
  const Mebi: nat := 1024 * 1024
  const Gibi: nat := 1024 * 1024 * 1024

  /** The factor a final unit letter stands for; 1 for any other character. */
  function Multiplier(c: char): nat {
    if c == 'K' || c == 'k' then Kibi
    else if c == 'M' || c == 'm' then Mebi
    else if c == 'G' || c == 'g' then Gibi
    else 1
  }

  predicate IsUnit(c: char) { Multiplier(c) != 1 }

  /** `parse_body_size_limit`: a number with an optional K, M or G suffix (either
      case) scaled by 1024, 1024² or 1024³. `None` is `NaN`. */
  function ParseBodySizeLimit(bytes: string): (r: Option<int>)
    ensures bytes == [] || !IsUnit(bytes[|bytes| - 1]) ==> r == NumberOf(bytes)
    ensures bytes != [] && IsUnit(bytes[|bytes| - 1]) ==>
      && (r.Some? <==> NumberOf(bytes[..|bytes| - 1]).Some?)
      && (r.Some? ==> r.value == NumberOf(bytes[..|bytes| - 1]).value * Multiplier(bytes[|bytes| - 1]))
  {
    var m := if bytes == [] then 1 else Multiplier(bytes[|bytes| - 1]);
    var number := if m != 1 then bytes[..|bytes| - 1] else bytes;
    match NumberOf(number)
    case Some(n) => Some(n * m)
    case None => None
  }

  /** A unit suffix scales the decimal number in front of it. */
  lemma BodySizeWithUnit(n: nat, unit: char)
    requires IsUnit(unit)
    ensures ParseBodySizeLimit(DecimalString(n) + [unit]) == Some(n * Multiplier(unit))
    ensures Multiplier(unit) == if unit in "Kk" then 1024 else if unit in "Mm" then 1024 * 1024 else 1024 * 1024 * 1024
  {
    var s := DecimalString(n) + [unit];
    assert s[..|s| - 1] == DecimalString(n);
    NumberOfDecimalString(n);
  }

  /** Without a unit suffix the whole string is the number, unscaled. */
  lemma BodySizeWithoutUnit(bytes: string)
    requires bytes == [] || !IsUnit(bytes[|bytes| - 1])
    ensures ParseBodySizeLimit(bytes) == NumberOf(bytes)
  {
  }

  /** A string whose number part is not numeric never yields a limit. */
  lemma BodySizeRejectsGarbage(bytes: string, i: nat)
    requires i < |bytes| - 1 && !IsDigit(bytes[i])
    requires i > 0 || (bytes[0] != '-' && bytes[0] != '+')
    ensures ParseBodySizeLimit(bytes) == None
  {
    var number := if IsUnit(bytes[|bytes| - 1]) then bytes[..|bytes| - 1] else bytes;
    assert number[i] == bytes[i];
    NumberOfRejects(number, i);
  }

  /** The built-in default, "512K", is 512 KiB. */
  lemma DefaultBodySizeLimit()
    ensures ParseBodySizeLimit("512K") == Some(524288)
  {
    assert DecimalString(512) == "512";
    BodySizeWithUnit(512, 'K');
    assert DecimalString(512) + ['K'] == "512K";
  }

  // ---------------------------------------------------------------------------
  // Handler configuration
  // ---------------------------------------------------------------------------

  datatype ConfigError = InvalidBodySizeLimit(text: string)

  datatype HandlerConfig = HandlerConfig(
    origin: Option<string>,
    xffDepth: Option<int>,
    addressHeader: string,
    protocolHeader: string,
    hostHeader: string,
    portHeader: string,
    bodySizeLimit: int)

  function BodySizeText(e: Environment, prefix: string): string {
    EnvOr(e, prefix, "BODY_SIZE_LIMIT", "512K")
  }

  /** The handler's configuration as read at start-up; a body-size limit that is
      not numeric stops start-up. */
  function LoadHandlerConfig(e: Environment, prefix: string): (r: Result<HandlerConfig, ConfigError>)
    ensures r.Err? <==> ParseBodySizeLimit(BodySizeText(e, prefix)).None?
    ensures r.Err? ==> r.error == InvalidBodySizeLimit(BodySizeText(e, prefix))
    ensures r.Ok? ==> Some(r.value.bodySizeLimit) == ParseBodySizeLimit(BodySizeText(e, prefix))
    ensures r.Ok? ==> r.value.xffDepth == ParseInt(EnvOr(e, prefix, "XFF_DEPTH", "1"))
    ensures r.Ok? ==> r.value.origin == EnvOpt(e, prefix, "ORIGIN")
    ensures r.Ok? ==> r.value.addressHeader == ToLower(EnvOr(e, prefix, "ADDRESS_HEADER", ""))
    ensures r.Ok? ==> r.value.protocolHeader == ToLower(EnvOr(e, prefix, "PROTOCOL_HEADER", ""))
    ensures r.Ok? ==> r.value.hostHeader == ToLower(EnvOr(e, prefix, "HOST_HEADER", "host"))
    ensures r.Ok? ==> r.value.portHeader == ToLower(EnvOr(e, prefix, "PORT_HEADER", ""))
  {
    var limit := ParseBodySizeLimit(BodySizeText(e, prefix));
    if limit.None? then Err(InvalidBodySizeLimit(BodySizeText(e, prefix)))
    else Ok(HandlerConfig(
      EnvOpt(e, prefix, "ORIGIN"),
      ParseInt(EnvOr(e, prefix, "XFF_DEPTH", "1")),
      ToLower(EnvOr(e, prefix, "ADDRESS_HEADER", "")),
      ToLower(EnvOr(e, prefix, "PROTOCOL_HEADER", "")),
      ToLower(EnvOr(e, prefix, "HOST_HEADER", "host")),
      ToLower(EnvOr(e, prefix, "PORT_HEADER", "")),
      limit.value))
  }

  /** With nothing set, the handler trusts the Host header, one proxy hop and
      accepts bodies up to 512 KiB. */
  lemma DefaultHandlerConfig(prefix: string)
    ensures LoadHandlerConfig(map[], prefix)
         == Ok(HandlerConfig(None, Some(1), "", "", "host", "", 524288))
  {
    var e: Environment := map[];
    assert BodySizeText(e, prefix) == "512K";
    DefaultBodySizeLimit();
    assert EnvOr(e, prefix, "XFF_DEPTH", "1") == "1";
    ParseIntDecimalString(1, []);
    assert DecimalString(1) + [] == "1";
    assert EnvOpt(e, prefix, "ORIGIN") == None;
    assert EnvOr(e, prefix, "HOST_HEADER", "host") == "host";
    assert ToLower("host") == "host";
    assert ToLower("") == "";
  }

  // ---------------------------------------------------------------------------
  // Trailing-slash redirect for prerendered pages
  // ---------------------------------------------------------------------------

  predicate EndsWithSlash(p: string) { p != [] && p[|p| - 1] == '/' }

  /** Removes a final `/` if there is one and appends one otherwise. */
  function ToggleTrailingSlash(p: string): (r: string)
    ensures EndsWithSlash(p) ==> r + "/" == p
    ensures !EndsWithSlash(p) ==> r == p + "/"
  {
    if EndsWithSlash(p) then p[..|p| - 1] else p + "/"
  }

  /** The toggled path is never the path itself. */
  lemma ToggleChangesPath(p: string)
    ensures ToggleTrailingSlash(p) != p
  {
    assert |ToggleTrailingSlash(p)| != |p|;
  }

  /** Toggling twice gives the path back exactly when it does not end in `//`. */
  lemma ToggleTwice(p: string)
    ensures ToggleTrailingSlash(ToggleTrailingSlash(p)) == p
        <==> !(|p| >= 2 && p[|p| - 2..] == "//")
  {
    var q := ToggleTrailingSlash(p);
    if !EndsWithSlash(p) {
      assert EndsWithSlash(q);
      assert q[..|q| - 1] == p;
    } else if |p| >= 2 && p[|p| - 2] == '/' {
      assert p[|p| - 2..] == "//";
      assert |ToggleTrailingSlash(q)| == |p| - 2;
    } else {
      assert !EndsWithSlash(q);
      assert q + "/" == p;
      if |p| >= 2 { assert p[|p| - 2..][0] == p[|p| - 2]; }
    }
  }

  /** What the prerendered-page middleware does with a decoded pathname. */
  datatype Decision = Serve | Redirect(location: string) | PassOn

  /** The three outcomes: serve the page, send a 308 to the toggled path (keeping
      the search string only when the query is non-empty), or pass the request on. */
  function PrerenderedDecision(prerendered: set<string>, pathname: string, search: string, query: string): (d: Decision)
    ensures d.Serve? <==> pathname in prerendered
    ensures d.Redirect? <==> pathname !in prerendered && ToggleTrailingSlash(pathname) in prerendered
    ensures d.Redirect? ==> d.location == ToggleTrailingSlash(pathname) + (if query != [] then search else [])
  {
    if pathname in prerendered then Serve
    else
      var location := ToggleTrailingSlash(pathname);
      if location in prerendered then Redirect(location + (if query != [] then search else []))
      else PassOn
  }

  /** A redirect never points back at the requested path, and the path it points
      to is served on the next request. */
  lemma RedirectLandsOnPage(prerendered: set<string>, pathname: string, search: string, query: string)
    requires PrerenderedDecision(prerendered, pathname, search, query).Redirect?
    ensures ToggleTrailingSlash(pathname) != pathname
    ensures PrerenderedDecision(prerendered, ToggleTrailingSlash(pathname), search, query) == Serve
    ensures query == [] ==> PrerenderedDecision(prerendered, pathname, search, query).location != pathname
  {
    ToggleChangesPath(pathname);
  }

  /** `decodeURIComponent` is outside the model: `decoded` is its result, `None`
      when it throws, in which case the raw pathname is kept. */
  function DecodedPathname(raw: string, decoded: Option<string>): (p: string)
    ensures decoded.None? ==> p == raw
    ensures decoded.Some? ==> p == decoded.value
  {
    decoded.GetOr(raw)
  }

  // ---------------------------------------------------------------------------
  // Responses and the middleware that write them
  // ---------------------------------------------------------------------------

  /** The parts of a server response the middleware write. */
  class Response {
    var statusCode: int
    var headers: map<string, string>
    var body: string
    var ended: bool

    constructor ()
      ensures statusCode == 200 && headers == map[] && body == [] && !ended
    {
      statusCode, headers, body, ended := 200, map[], [], false;
    }

    /** `res.writeHead(code, headers)`. */
    method WriteHead(code: int, extra: map<string, string>)
      modifies this
      ensures statusCode == code && headers == old(headers) + extra
      ensures body == old(body) && ended == old(ended)
    {
      statusCode := code;
      headers := headers + extra;
    }

    /** `res.setHeader(name, value)`. */
    method SetHeader(name: string, value: string)
      modifies this
      ensures headers == old(headers)[name := value]
      ensures statusCode == old(statusCode) && body == old(body) && ended == old(ended)
    {
      headers := headers[name := value];
    }

    /** `res.end(chunk)`. */
    method End(chunk: string)
      modifies this
      ensures ended && body == old(body) + chunk
      ensures statusCode == old(statusCode) && headers == old(headers)
    {
      body := body + chunk;
      ended := true;
    }
  }

  /** What a middleware did with the request: called `next`, handed it to a
      library that is outside the model, or answered it itself. */
  datatype Outcome = CalledNext | Delegated | Answered

  const PermanentRedirect: int := 308
  const BadRequest: int := 400

  /** `serve_prerendered()` applied to one request. Without a prerendered
      directory it only calls `next`. */
  method ServePrerendered(res: Response, hasDirectory: bool, prerendered: set<string>,
                          rawPathname: string, decoded: Option<string>, search: string, query: string)
    returns (o: Outcome)
    modifies res
    ensures !hasDirectory ==> o == CalledNext && unchanged(res)
    ensures hasDirectory ==>
      match PrerenderedDecision(prerendered, DecodedPathname(rawPathname, decoded), search, query)
      case Serve => o == Delegated && unchanged(res)
      case PassOn => o == CalledNext && unchanged(res)
      case Redirect(location) =>
        && o == Answered && res.ended && res.statusCode == PermanentRedirect
        && res.headers == old(res.headers)["location" := location]
        && res.body == old(res.body)
  {
    if !hasDirectory {
      return CalledNext;
    }
    var pathname := DecodedPathname(rawPathname, decoded);
    if pathname in prerendered {
      return Delegated;
    }
    var location := ToggleTrailingSlash(pathname);
    if location in prerendered {
      ghost var decision := PrerenderedDecision(prerendered, pathname, search, query);
      if query != [] {
        location := location + search;
      }
      res.WriteHead(PermanentRedirect, map["location" := location]);
      res.End([]);
      assert decision == Redirect(location);
      o := Answered;
    } else {
      o := CalledNext;
    }
  }

  /** The cache rule the client-asset server applies: files under the build's
      immutable directory, answered with 200, may be cached for a year. */
  method SetClientHeaders(res: Response, appPath: string, pathname: string)
    modifies res
    ensures var immutable := "/" + appPath + "/immutable/";
      if |immutable| <= |pathname| && pathname[..|immutable|] == immutable && old(res.statusCode) == 200
      then res.headers == old(res.headers)["cache-control" := "public,max-age=31536000,immutable"]
      else res.headers == old(res.headers)
    ensures res.statusCode == old(res.statusCode) && res.body == old(res.body) && res.ended == old(res.ended)
  {
    var immutable := "/" + appPath + "/immutable/";
    if |immutable| <= |pathname| && pathname[..|immutable|] == immutable && res.statusCode == 200 {
      res.SetHeader("cache-control", "public,max-age=31536000,immutable");
    }
  }

  /** The `ssr` middleware: when the framework cannot build a request from the
      incoming one, the answer is 400 "Bad Request"; otherwise rendering is
      handed to the framework. */
  method Ssr(res: Response, requestBuilt: bool) returns (o: Outcome)
    modifies res
    ensures o != CalledNext
    ensures requestBuilt ==> o == Delegated && unchanged(res)
    ensures !requestBuilt ==>
      && o == Answered && res.statusCode == BadRequest && res.ended
      && res.body == old(res.body) + "Bad Request" && res.headers == old(res.headers)
  {
    if !requestBuilt {
      res.statusCode := BadRequest;
      res.End("Bad Request");
      return Answered;
    }
    o := Delegated;
  }

  // ---------------------------------------------------------------------------
  // Request headers
  // ---------------------------------------------------------------------------

  /** A header value: a string, or a list when the header was sent several times. */
  datatype HeaderValue = Single(text: string) | Multiple(items: seq<string>)

  /** Incoming headers, keyed by lower-case name. */
  type Headers = map<string, HeaderValue>

  /** The string a header value becomes: lists are joined with commas. */
  function HeaderText(v: HeaderValue): (r: string)
    ensures v.Single? ==> r == v.text
    ensures v.Multiple? ==> r == Join(v.items, ',')
    ensures v.Multiple? && |v.items| >= 1 && (forall i :: 0 <= i < |v.items| ==> ',' !in v.items[i])
      ==> Split(r, ',') == v.items
  {
    match v
    case Single(t) => t
    case Multiple(items) =>
      if |items| >= 1 && (forall i :: 0 <= i < |items| ==> ',' !in items[i]) then
        SplitJoin(items, ',');
        Join(items, ',')
      else Join(items, ',')
  }

  /** JavaScript truthiness of a header value: a string is truthy when it is
      non-empty, a list always. */
  predicate HeaderTruthy(v: HeaderValue) {
    v.Multiple? || Truthy(Some(v.text))
  }

  // ---------------------------------------------------------------------------
  // Client address
  // ---------------------------------------------------------------------------

  datatype AddressError =
    | HeaderAbsent(header: string)
    | DepthNotPositive(depth: int)
    | DepthTooLarge(depth: int, found: nat)
    | DepthNotANumber

  const ForwardedFor: string := "x-forwarded-for"

  /** `a || b || ... || z` over the socket's address candidates: the first
      non-empty one, or else the last candidate as it is. */
  function FirstTruthy(candidates: seq<Option<string>>): (r: Option<string>)
    requires |candidates| > 0
    ensures r in candidates
    ensures Truthy(r) <==> exists i :: 0 <= i < |candidates| && Truthy(candidates[i])
    ensures Truthy(r) ==>
      exists i :: 0 <= i < |candidates| && candidates[i] == r
        && forall j :: 0 <= j < i ==> !Truthy(candidates[j])
    ensures (forall i :: 0 <= i < |candidates| ==> !Truthy(candidates[i])) ==> r == candidates[|candidates| - 1]
  {
    if |candidates| == 1 || Truthy(candidates[0]) then candidates[0]
    else
      var r := FirstTruthy(candidates[1..]);
      assert forall i :: 0 <= i < |candidates[1..]| ==> candidates[1..][i] == candidates[i + 1];
      r
  }

  /** The entry `depth` places from the right of `addresses`; a depth below 1,
      beyond the list or not a number is an error. */
  function PickFromRight(addresses: seq<string>, depth: Option<int>): (r: Result<string, AddressError>)
    ensures r.Ok? <==> depth.Some? && 1 <= depth.value <= |addresses|
    ensures r.Ok? ==> r.value == addresses[|addresses| - depth.value]
    ensures depth.Some? && depth.value < 1 ==> r == Err(DepthNotPositive(depth.value))
    ensures depth.Some? && depth.value > |addresses| >= 1 ==> r == Err(DepthTooLarge(depth.value, |addresses|))
    ensures depth.None? ==> r == Err(DepthNotANumber)
  {
    match depth
    case Some(d) =>
      if d < 1 then Err(DepthNotPositive(d))
      else if d > |addresses| then Err(DepthTooLarge(d, |addresses|))
      else Ok(addresses[|addresses| - d])
    case None => Err(DepthNotANumber)
  }

  /** The address taken from an `X-Forwarded-For` value: the entry chosen by
      depth among the comma-separated entries, trimmed. */
  function ForwardedAddress(value: string, depth: Option<int>): (r: Result<Option<string>, AddressError>)
    ensures r.Ok? <==> PickFromRight(Split(value, ','), depth).Ok?
    ensures r.Ok? ==> r.value == Some(Trim(PickFromRight(Split(value, ','), depth).value))
    ensures r.Err? ==> r.error == PickFromRight(Split(value, ','), depth).error
  {
    match PickFromRight(Split(value, ','), depth)
    case Ok(entry) => Ok(Some(Trim(entry)))
    case Err(e) => Err(e)
  }

  /** `getClientAddress()`: with an address header configured, its value (for
      `x-forwarded-for`, one entry chosen by depth), or an error when the header
      is missing; otherwise the socket's address. */
  function ClientAddress(headers: Headers, addressHeader: string, xffDepth: Option<int>,
                         socket: seq<Option<string>>): (r: Result<Option<string>, AddressError>)
    requires |socket| > 0
    ensures addressHeader == [] ==> r == Ok(FirstTruthy(socket))
    ensures addressHeader != [] && addressHeader !in headers ==> r == Err(HeaderAbsent(addressHeader))
    ensures addressHeader != [] && addressHeader in headers && addressHeader != ForwardedFor
      ==> r == Ok(Some(HeaderText(headers[addressHeader])))
    ensures addressHeader == ForwardedFor && addressHeader in headers
      ==> r == ForwardedAddress(HeaderText(headers[addressHeader]), xffDepth)
  {
    if addressHeader != [] then
      if addressHeader !in headers then Err(HeaderAbsent(addressHeader))
      else
        var value := HeaderText(headers[addressHeader]);
        if addressHeader == ForwardedFor then ForwardedAddress(value, xffDepth)
        else Ok(Some(value))
    else Ok(FirstTruthy(socket))
  }

  /** The three outcomes of `PickFromRight` for a numeric depth. */
  lemma PickFromRightCases(addresses: seq<string>, d: int)
    ensures 1 <= d <= |addresses| ==> PickFromRight(addresses, Some(d)) == Ok(addresses[|addresses| - d])
    ensures d < 1 ==> PickFromRight(addresses, Some(d)) == Err(DepthNotPositive(d))
    ensures d > |addresses| ==> PickFromRight(addresses, Some(d)) == Err(DepthTooLarge(d, |addresses|))
  {
  }

  /** Proxies append the address they saw: for a header listing `hops` (no commas
      inside), depth `d` picks the `d`-th hop from the right, and every depth
      outside `1..|hops|` is refused. */
  lemma ForwardedPicksFromRight(hops: seq<string>, d: int)
    requires |hops| >= 1
    requires forall i :: 0 <= i < |hops| ==> ',' !in hops[i]
    ensures 1 <= d <= |hops| ==> PickFromRight(Split(Join(hops, ','), ','), Some(d)) == Ok(hops[|hops| - d])
    ensures d < 1 ==> PickFromRight(Split(Join(hops, ','), ','), Some(d)) == Err(DepthNotPositive(d))
    ensures d > |hops| ==> PickFromRight(Split(Join(hops, ','), ','), Some(d)) == Err(DepthTooLarge(d, |hops|))
  {
    SplitJoin(hops, ',');
    PickFromRightCases(hops, d);
  }

  /** One more trusted proxy in front of the server shifts the chosen entry by one:
      depth `d + 1` on the longer header picks what depth `d` picked before. */
  lemma ForwardedExtraHop(hops: seq<string>, proxy: string, d: int)
    requires |hops| >= 1 && 1 <= d <= |hops| && ',' !in proxy
    requires forall i :: 0 <= i < |hops| ==> ',' !in hops[i]
    ensures PickFromRight(Split(Join(hops + [proxy], ','), ','), Some(d + 1))
         == PickFromRight(Split(Join(hops, ','), ','), Some(d))
  {
    var longer := hops + [proxy];
    forall i | 0 <= i < |longer| ensures ',' !in longer[i] {
      if i < |hops| { assert longer[i] == hops[i]; }
    }
    SplitJoin(longer, ',');
    SplitJoin(hops, ',');
    PickFromRightCases(longer, d + 1);
    PickFromRightCases(hops, d);
    assert longer[|longer| - (d + 1)] == hops[|hops| - d];
  }

  /** A header sent several times is read as its values joined by commas. */
  lemma RepeatedHeaderIsJoined(headers: Headers, items: seq<string>, xffDepth: Option<int>, socket: seq<Option<string>>)
    requires |socket| > 0
    requires ForwardedFor in headers && headers[ForwardedFor] == Multiple(items)
    ensures ClientAddress(headers, ForwardedFor, xffDepth, socket)
         == ClientAddress(headers[ForwardedFor := Single(Join(items, ','))], ForwardedFor, xffDepth, socket)
  {
  }

  // ---------------------------------------------------------------------------
  // Origin
  // ---------------------------------------------------------------------------

  /** The protocol: the configured header's value when it is configured and has a
      non-empty value, `https` otherwise. */
  function Protocol(headers: Headers, protocolHeader: string): (r: string)
    ensures protocolHeader == [] || protocolHeader !in headers ==> r == "https"
    ensures protocolHeader != [] && protocolHeader in headers && headers[protocolHeader].Multiple?
      ==> r == Join(headers[protocolHeader].items, ',')
    ensures protocolHeader != [] && protocolHeader in headers && headers[protocolHeader].Single?
      ==> r == if headers[protocolHeader].text != [] then headers[protocolHeader].text else "https"
  {
    if protocolHeader != [] && protocolHeader in headers && HeaderTruthy(headers[protocolHeader])
    then HeaderText(headers[protocolHeader])
    else "https"
  }

  /** The host: the configured header's value; a missing header prints as `undefined`. */
  function Host(headers: Headers, hostHeader: string): (r: string)
    ensures hostHeader !in headers ==> r == "undefined"
    ensures hostHeader in headers && headers[hostHeader].Single? ==> r == headers[hostHeader].text
    ensures hostHeader in headers && headers[hostHeader].Multiple? ==> r == Join(headers[hostHeader].items, ',')
  {
    if hostHeader in headers then HeaderText(headers[hostHeader]) else "undefined"
  }

  /** The port, when a port header is configured and has a non-empty value. */
  function Port(headers: Headers, portHeader: string): (r: Option<string>)
    ensures r.Some? <==> portHeader != [] && portHeader in headers && HeaderTruthy(headers[portHeader])
    ensures r.Some? && headers[portHeader].Single? ==> r.value == headers[portHeader].text
    ensures r.Some? && headers[portHeader].Multiple? ==> r.value == Join(headers[portHeader].items, ',')
  {
    if portHeader != [] && portHeader in headers && HeaderTruthy(headers[portHeader])
    then Some(HeaderText(headers[portHeader]))
    else None
  }

  /** `get_origin(headers)`: `protocol://host`, followed by `:port` exactly when a
      port header is configured and set. */
  function GetOrigin(headers: Headers, protocolHeader: string, hostHeader: string, portHeader: string): (r: string)
    ensures var head := Protocol(headers, protocolHeader) + "://" + Host(headers, hostHeader);
      |head| <= |r| && r[..|head|] == head
      && (Port(headers, portHeader).None? <==> r == head)
      && (Port(headers, portHeader).Some? ==> r[|head|..] == ":" + Port(headers, portHeader).value)
  {
    var head := Protocol(headers, protocolHeader) + "://" + Host(headers, hostHeader);
    match Port(headers, portHeader)
    case Some(port) => head + ":" + port
    case None => head
  }

  /** Without a protocol header the origin is always `https`. */
  lemma OriginDefaultsToHttps(headers: Headers, hostHeader: string, portHeader: string)
    ensures GetOrigin(headers, "", hostHeader, portHeader)[..8] == "https://"
  {
  }

  /** The origin depends on the three configured headers only. */
  lemma OriginReadsConfiguredHeaders(h1: Headers, h2: Headers, protocolHeader: string, hostHeader: string, portHeader: string)
    requires forall name :: name in {protocolHeader, hostHeader, portHeader} ==>
      (name in h1 <==> name in h2) && (name in h1 ==> h1[name] == h2[name])
    ensures GetOrigin(h1, protocolHeader, hostHeader, portHeader) == GetOrigin(h2, protocolHeader, hostHeader, portHeader)
  {
  }

  /** The base URL handed to the framework: the ORIGIN setting when it is a
      non-empty string, the origin built from the headers otherwise. */
  function RequestBase(origin: Option<string>, headers: Headers, cfg: HandlerConfig): (r: string)
    ensures origin.Some? && origin.value != [] ==> r == origin.value
    ensures origin.None? || origin.value == [] ==> r == GetOrigin(headers, cfg.protocolHeader, cfg.hostHeader, cfg.portHeader)
  {
    if origin.Some? && origin.value != [] then origin.value
    else GetOrigin(headers, cfg.protocolHeader, cfg.hostHeader, cfg.portHeader)
  }

  // ---------------------------------------------------------------------------
  // Middleware composition
  // ---------------------------------------------------------------------------

  /** Which handlers ran, by index, and whether the outer `next` was reached. */
  datatype Trace = Trace(invoked: seq<nat>, fellThrough: bool)

  /** `handle(i)` inside `sequence`: runs handler `i`, whose `next` is `handle(i + 1)`;
      past the last handler it calls the outer `next`. `callsNext` says whether a
      handler calls its `next` for the request at hand. */
  function Handle<H>(handlers: seq<H>, callsNext: H -> bool, i: nat): (t: Trace)
    requires i <= |handlers|
    decreases |handlers| - i
    ensures i + |t.invoked| <= |handlers|
    ensures forall k :: 0 <= k < |t.invoked| ==> t.invoked[k] == i + k
    ensures forall j :: i <= j < i + |t.invoked| - 1 ==> callsNext(handlers[j])
    ensures t.fellThrough <==> forall j :: i <= j < |handlers| ==> callsNext(handlers[j])
    ensures t.fellThrough ==> |t.invoked| == |handlers| - i
    ensures !t.fellThrough ==> |t.invoked| > 0 && !callsNext(handlers[i + |t.invoked| - 1])
  {
    if i < |handlers| then
      if callsNext(handlers[i]) then
        var rest := Handle(handlers, callsNext, i + 1);
        Trace([i] + rest.invoked, rest.fellThrough)
      else Trace([i], false)
    else Trace([], true)
  }

  /** `sequence(handlers)`: the handlers run in list order, each one's `next`
      starting the following one, until one does not call `next`; the outer
      `next` runs only when every handler passed the request on. */
  function Sequence<H>(handlers: seq<H>, callsNext: H -> bool): (t: Trace)
    ensures forall k :: 0 <= k < |t.invoked| ==> t.invoked[k] == k
    ensures |handlers| == 0 ==> t == Trace([], true)
    ensures t.fellThrough <==> forall j :: 0 <= j < |handlers| ==> callsNext(handlers[j])
    ensures t.fellThrough ==> |t.invoked| == |handlers|
    ensures !t.fellThrough ==>
      && 0 < |t.invoked| <= |handlers|
      && !callsNext(handlers[|t.invoked| - 1])
      && forall j :: 0 <= j < |t.invoked| - 1 ==> callsNext(handlers[j])
  {
    Handle(handlers, callsNext, 0)
  }

  /** The middleware of the runtime, in the order they are listed. */
  datatype Stage = ClientAssets | StaticAssets | Prerendered | Render

  function Rank(s: Stage): nat {
    match s
    case ClientAssets => 0
    case StaticAssets => 1
    case Prerendered => 2
    case Render => 3
  }

  /** An entry of the handler list: `serve(dir)` gives `false` when the directory
      does not exist. */
  datatype Slot = Missing | Present(stage: Stage)

  predicate RankedSlots(slots: seq<Slot>) {
    forall i, j :: 0 <= i < j < |slots| && slots[i].Present? && slots[j].Present?
      ==> Rank(slots[i].stage) < Rank(slots[j].stage)
  }

  /** The stages in strictly increasing list position. */
  predicate Ascending(stages: seq<Stage>) {
    forall i, j :: 0 <= i < j < |stages| ==> Rank(stages[i]) < Rank(stages[j])
  }

  /** `.filter((x) => typeof x !== "boolean")`: drops the missing entries. */
  function KeepMiddleware(slots: seq<Slot>): (r: seq<Stage>)
    ensures |r| <= |slots|
  {
    if slots == [] then []
    else
      match slots[0]
      case Missing => KeepMiddleware(slots[1..])
      case Present(s) => [s] + KeepMiddleware(slots[1..])
  }

  /** The filter keeps exactly the middleware that are present. */
  lemma {:induction false} KeepMiddlewareMembers(slots: seq<Slot>)
    ensures forall s :: s in KeepMiddleware(slots) <==> Present(s) in slots
  {
    if slots != [] {
      KeepMiddlewareMembers(slots[1..]);
      assert slots == [slots[0]] + slots[1..];
    }
  }

  /** The filter keeps the middleware in their original relative order. */
  lemma {:induction false} KeepMiddlewareOrdered(slots: seq<Slot>)
    requires RankedSlots(slots)
    ensures Ascending(KeepMiddleware(slots))
  {
    if slots != [] {
      var rest := KeepMiddleware(slots[1..]);
      assert RankedSlots(slots[1..]) by {
        forall i, j | 0 <= i < j < |slots[1..]| && slots[1..][i].Present? && slots[1..][j].Present?
          ensures Rank(slots[1..][i].stage) < Rank(slots[1..][j].stage)
        {
          assert slots[1..][i] == slots[i + 1] && slots[1..][j] == slots[j + 1];
        }
      }
      KeepMiddlewareOrdered(slots[1..]);
      if slots[0].Present? {
        KeepMiddlewareMembers(slots[1..]);
        forall k | 0 <= k < |rest| ensures Rank(slots[0].stage) < Rank(rest[k]) {
          assert rest[k] in rest;
          var j :| 0 <= j < |slots[1..]| && slots[1..][j] == Present(rest[k]);
          assert slots[j + 1] == Present(rest[k]);
        }
        var r := KeepMiddleware(slots);
        assert r == [slots[0].stage] + rest;
        forall i, j | 0 <= i < j < |r| ensures Rank(r[i]) < Rank(r[j]) {
          assert r[j] == rest[j - 1];
          if i > 0 { assert r[i] == rest[i - 1]; } else { assert r[i] == slots[0].stage; }
        }
      } else {
        assert KeepMiddleware(slots) == rest;
      }
    }
  }

  /** The handler list before filtering: `serve(dir)` for the client and static
      directories, then the prerendered-page middleware and rendering. */
  function HandlerSlots(clientDirectory: bool, staticDirectory: bool): (slots: seq<Slot>)
    ensures |slots| == 4 && slots[2] == Present(Prerendered) && slots[3] == Present(Render)
    ensures slots[0].Present? <==> clientDirectory
    ensures slots[1].Present? <==> staticDirectory
    ensures RankedSlots(slots)
  {
    [ if clientDirectory then Present(ClientAssets) else Missing,
      if staticDirectory then Present(StaticAssets) else Missing,
      Present(Prerendered),
      Present(Render) ]
  }

  /** The handler list after filtering, written out. */
  function FilteredChain(clientDirectory: bool, staticDirectory: bool): seq<Stage> {
    (if clientDirectory then [ClientAssets] else [])
      + (if staticDirectory then [StaticAssets] else [])
      + [Prerendered, Render]
  }

  /** Filtering the handler list drops exactly the missing asset servers. */
  lemma KeepHandlerSlots(clientDirectory: bool, staticDirectory: bool)
    ensures KeepMiddleware(HandlerSlots(clientDirectory, staticDirectory)) == FilteredChain(clientDirectory, staticDirectory)
  {
    var tail := [Present(Prerendered), Present(Render)];
    assert KeepMiddleware(tail) == [Prerendered, Render] by {
      assert tail[1..] == [Present(Render)] && tail[1..][1..] == [];
    }
    var middle := [if staticDirectory then Present(StaticAssets) else Missing] + tail;
    assert middle[1..] == tail;
    var slots := HandlerSlots(clientDirectory, staticDirectory);
    assert slots[1..] == middle;
  }

  /** The filtered list ends in prerendered pages then rendering and holds each
      asset server exactly when its directory exists. */
  lemma FilteredChainShape(clientDirectory: bool, staticDirectory: bool)
    ensures var chain := FilteredChain(clientDirectory, staticDirectory);
      && 2 <= |chain| <= 4 && chain[|chain| - 2..] == [Prerendered, Render]
      && (ClientAssets in chain <==> clientDirectory)
      && (StaticAssets in chain <==> staticDirectory)
  {
    var chain := FilteredChain(clientDirectory, staticDirectory);
    var head := (if clientDirectory then [ClientAssets] else []) + (if staticDirectory then [StaticAssets] else []);
    assert chain == head + [Prerendered, Render];
    assert chain[|chain| - 2..] == [Prerendered, Render];
    assert ClientAssets in chain <==> ClientAssets in head;
    assert StaticAssets in chain <==> StaticAssets in head;
  }

  /** The filtered list keeps the list order. */
  lemma FilteredChainAscending(clientDirectory: bool, staticDirectory: bool)
    ensures Ascending(FilteredChain(clientDirectory, staticDirectory))
  {
    var chain := FilteredChain(clientDirectory, staticDirectory);
    // neighbouring stages have increasing ranks, hence any two do
    assert forall k :: 0 <= k < |chain| - 1 ==> Rank(chain[k]) < Rank(chain[k + 1]);
    forall i, j | 0 <= i < j < |chain| ensures Rank(chain[i]) < Rank(chain[j]) {
      assert Rank(chain[j]) >= Rank(chain[i]) + (j - i) by {
        var k := i;
        while k < j
          invariant i <= k <= j
          invariant Rank(chain[k]) >= Rank(chain[i]) + (k - i)
        {
          k := k + 1;
        }
      }
    }
  }

  /** The exported `handler`: client assets and static files when their
      directories exist, then prerendered pages, then rendering, in that order. */
  function HandlerChain(clientDirectory: bool, staticDirectory: bool): (chain: seq<Stage>)
    ensures 2 <= |chain| <= 4 && chain[|chain| - 2..] == [Prerendered, Render]
    ensures ClientAssets in chain <==> clientDirectory
    ensures StaticAssets in chain <==> staticDirectory
    ensures Ascending(chain)
  {
    var kept := KeepMiddleware(HandlerSlots(clientDirectory, staticDirectory));
    KeepHandlerSlots(clientDirectory, staticDirectory);
    FilteredChainShape(clientDirectory, staticDirectory);
    FilteredChainAscending(clientDirectory, staticDirectory);
    assert kept == FilteredChain(clientDirectory, staticDirectory);
    kept
  }

  /** Rendering never calls `next` (`Ssr` ensures its outcome is never
      `CalledNext`), so no request falls through the whole handler, and every
      stage before the one that answered passed the request on. */
  lemma RenderEndsEveryRequest(clientDirectory: bool, staticDirectory: bool, callsNext: Stage -> bool)
    requires !callsNext(Render)
    ensures var chain := HandlerChain(clientDirectory, staticDirectory);
      var t := Sequence(chain, callsNext);
      !t.fellThrough && !callsNext(chain[|t.invoked| - 1])
  {
    var chain := HandlerChain(clientDirectory, staticDirectory);
    assert chain[|chain| - 1] == Render;
  }
}
