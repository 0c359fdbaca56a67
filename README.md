# svelte-adapter-node-esbuild runtime, modelled in Dafny

This project models the runtime that the adapter ships with a built SvelteKit
application: the small Node HTTP server that reads its configuration from the
environment, serves assets and prerendered pages, hands everything else to the
framework's renderer, and shuts down gracefully.

- `env.dfy` (module `Env`): `env(name, fallback)`. Every variable is read under
  a build-time prefix, except `LISTEN_PID` and `LISTEN_FDS`. A variable that is
  present but `undefined` counts as unset. An empty string counts as set.
- `numeric.dfy` (module `Numeric`): the two number conversions the runtime
  relies on. `Number(s)` reads BODY_SIZE_LIMIT; `Number.parseInt(s)` reads the
  depth, timeout and socket-activation variables. `NaN` is `None`.
- `text.dfy` (module `Text`): `split(",")`, `join(",")`, `trim()` and
  `toLowerCase()`, with their round trips.
- `handler.dfy` (module `Handler`): the request handler. It covers:
  - the body-size limit and its start-up error;
  - the trailing-slash redirect for prerendered pages;
  - the cache header on immutable client assets;
  - the 400 answer when no request can be built;
  - the client address taken from a configured header, or picked by depth from
    `X-Forwarded-For`;
  - the origin built from the protocol, host and port headers;
  - `sequence`, which chains middleware through `next`;
  - the filtered handler list.
- `lifecycle.dfy` (module `Lifecycle`): the server process. It covers:
  - validation of the socket-activation variables against the process id;
  - the listen target and the configuration defaults;
  - a `Server` class holding the module-level state of `server/index.ts`
    (requests in flight, the shutdown and idle timers, and the ordered list
    of effects on the server).

  Each event callback is a method of `Server`: a request, a request closing,
  a signal, the server's close callback, and a timer firing. The class
  invariant `Valid()` says:
  - the counter equals requests started minus requests closed;
  - an idle timer exists only when nothing is in flight, socket activation
    is on and an idle timeout is set;
  - the server stops listening at most once;
  - the shutdown event is emitted at most once, and with the reason of the
    first shutdown.

Some behaviour that follows from the code, and that the model reproduces:
- `Number("")` is 0, so BODY_SIZE_LIMIT set to `""` or `"K"` gives a limit of 0
  rather than a start-up error.
- An empty SOCKET_PATH is falsy, so PORT still falls back to `3000`.
- A missing host header makes the origin `https://undefined`.
- An XFF_DEPTH that is not a number passes both range checks. The request then
  fails when `.trim()` is called on `undefined`. The model reports that as its
  own error, `DepthNotANumber`.
- A LISTEN_PID that is not a number stops start-up. A LISTEN_FDS that is not a
  number only turns socket activation off.

## Model

| member | source | states |
|---|---|---|
| Env.Key | server/env.ts:19-23 | the two socket-activation variables are read under their bare names; every other name is read under prefix + name |
| Env.Lookup | server/env.ts:21-27 | the variable's text is returned exactly when its key is present with a defined value (an empty string included); otherwise the caller's fallback is returned unchanged |
| Env.EnvOr | server/env.ts:21-27 | `env(name, "…")` with a string fallback is the variable's text when it is set to a defined value, and the fallback otherwise |
| Env.EnvOpt | server/env.ts:21-27 | `env(name, undefined)` (or `false`) is set exactly when the key is present with a defined value, and then holds that value |
| Env.UnprefixedIgnorePrefix | server/env.ts:19-22 | LISTEN_PID and LISTEN_FDS read the same under any prefix |
| Env.EmptyPrefixReadsBareName | server/env.ts:22-26 | with an empty prefix every variable is looked up under its own name |
| Env.FallbackUnusedWhenSet | server/env.ts:24-26 | a set variable decides the result whatever the fallback |
| Env.BareNameIgnoredUnderPrefix | server/env.ts:22-24 | under a non-empty prefix, changing the unprefixed variable of a prefixed name changes nothing |
| Numeric.NumberOf | server/handler.ts:39 | `Number(s)` is a number exactly for the empty string (0), a digit string, or a sign followed by digits, and then has the signed decimal value; anything else is NaN |
| Numeric.NumberOfDecimalString | server/handler.ts:39 | `Number` reads back every decimal numeral, with or without a minus sign |
| Numeric.NumberOfRejects | server/handler.ts:39 | a character that is neither a digit nor a leading sign makes `Number` give NaN |
| Numeric.ParseInt | server/index.ts:15-18 | `parseInt(s)` is a number exactly when s starts with a digit, or with a sign followed by a digit; its sign follows the leading minus |
| Numeric.ParseIntDecimalString | server/index.ts:15-18 | `parseInt` reads the decimal numeral of n at the head of a string and ignores the non-digit text after it |
| Numeric.ParseIntDigits | server/index.ts:15-18 | `parseInt` reads any digit run at the head of a string, leading zeros included, as its value, after a `+` as the same value and after a `-` as its negation, ignoring the non-digit text after it |
| Numeric.ParseIntAgreesWithNumber | server/handler.ts:25 | on every non-empty string `Number` accepts, `parseInt` gives the same value |
| Text.Split | server/handler.ts:152 | `split` gives at least one piece and no piece contains the separator |
| Text.SplitLength | server/handler.ts:152 | there is one more piece than there are separators |
| Text.JoinSplit | server/handler.ts:147-152 | joining the pieces of a split with the same separator restores the string |
| Text.SplitJoin | server/handler.ts:147-152 | splitting a join of comma-free values gives back the values, so a repeated header is split into its original entries |
| Text.Join | server/handler.ts:149 | `join(",")` of no parts is empty, starts with the first part, and holds the separator when there are two or more parts |
| Text.Trim | server/handler.ts:167 | the trimmed entry neither starts nor ends with white space |
| Text.TrimInfix | server/handler.ts:167 | the trimmed entry is the original with only white space removed from its two ends |
| Text.TrimIdempotent | server/handler.ts:167 | trimming twice is trimming once |
| Text.ToLower | server/handler.ts:26-29 | a configured header name keeps its length; each capital letter becomes its small letter and every other character is kept, so no capital letter is left |
| Text.ToLowerIdempotent | server/handler.ts:26-29 | lower-casing twice is lower-casing once |
| Handler.ParseBodySizeLimit | server/handler.ts:31-42 | without a final K, M or G the limit is `Number` of the whole text; with one it is `Number` of the text before the letter times that letter's factor, and NaN exactly when that number is NaN |
| Handler.BodySizeWithUnit | server/handler.ts:31-42 | a numeral followed by K, M or G (either case) is scaled by 1024, 1024² or 1024³ |
| Handler.BodySizeWithoutUnit | server/handler.ts:31-42 | without a unit letter the whole string is the number, unscaled |
| Handler.BodySizeRejectsGarbage | server/handler.ts:38-42 | a non-digit inside the number part makes the limit NaN |
| Handler.DefaultBodySizeLimit | server/handler.ts:44 | the default "512K" is 524288 bytes |
| Handler.LoadHandlerConfig | server/handler.ts:24-50 | start-up fails with the offending text exactly when the body-size limit is NaN; otherwise the limit is the parsed value, ORIGIN is read with no fallback, XFF_DEPTH is `parseInt` of its setting (default "1") and the four header names are the lower-cased settings (defaults "", "", "host", "") |
| Handler.DefaultHandlerConfig | server/handler.ts:24-29 | with nothing set: no ORIGIN, depth 1, the `host` header for the host, no other headers, a 512 KiB limit |
| Handler.ToggleTrailingSlash | server/handler.ts:109-110 | a final `/` is removed if there is one; otherwise one is appended |
| Handler.ToggleChangesPath | server/handler.ts:109-111 | the alternative path always differs from the requested one |
| Handler.ToggleTwice | server/handler.ts:109-110 | toggling twice restores the path exactly when it does not end in `//` |
| Handler.PrerenderedDecision | server/handler.ts:104-116 | a prerendered path is served; otherwise the request is redirected exactly when the toggled path is prerendered, with the search string kept only for a non-empty query; otherwise it is passed on |
| Handler.RedirectLandsOnPage | server/handler.ts:104-113 | the toggled path differs from the requested one and is served when requested; without a query the redirect location differs from the requested path |
| Handler.DecodedPathname | server/handler.ts:98-102 | a successfully decoded pathname replaces the raw one; one that cannot be decoded is kept raw |
| Handler.Response.WriteHead | server/handler.ts:113 | sets the status and adds the given headers; body and end state unchanged |
| Handler.Response.SetHeader | server/handler.ts:75-78 | sets one header and nothing else |
| Handler.Response.End | server/handler.ts:113 | appends the chunk and ends the response |
| Handler.ServePrerendered | server/handler.ts:87-118 | without a prerendered directory only `next` is called; otherwise the middleware serves, redirects with 308 and a `location` header, or calls `next`, as the decision says, and leaves the response untouched unless it redirects |
| Handler.SetClientHeaders | server/handler.ts:68-80 | a year-long immutable `cache-control` is set exactly on 200 answers under `/<appPath>/immutable/`; nothing else changes |
| Handler.Ssr | server/handler.ts:120-133 | when no request can be built, the answer is 400 with body "Bad Request"; otherwise the response is left to the framework; rendering never passes the request on to `next` |
| Handler.FirstTruthy | server/handler.ts:173-180 | the socket address is the first truthy candidate, and is truthy exactly when some candidate is; when none is, it is the last candidate |
| Handler.HeaderText | server/handler.ts:147-150 | a single header value is used as it is; a repeated header is read as its values joined by commas, which split back into the same values when none holds a comma |
| Handler.PickFromRight | server/handler.ts:151-167 | succeeds exactly when 1 <= depth <= number of entries, giving the entry `depth` places from the right; a depth below 1, above the count or NaN gives its own error |
| Handler.PickFromRightCases | server/handler.ts:154-167 | a numeric depth in range picks the entry that many places from the right; below 1 or above the count it is refused with the matching error |
| Handler.ForwardedAddress | server/handler.ts:151-168 | the comma-separated entry chosen by depth, trimmed, or the depth error |
| Handler.ClientAddress | server/handler.ts:139-181 | with no address header, the socket address; a configured header that is absent is an error; `x-forwarded-for` is read by depth; any other header is returned whole, lists joined with commas |
| Handler.ForwardedPicksFromRight | server/handler.ts:152-167 | for a header listing comma-free hops, depth d picks the d-th hop from the right, and every depth outside 1..hops is refused |
| Handler.ForwardedExtraHop | server/handler.ts:152-167 | one more proxy appending its hop moves the trusted entry by one: depth d+1 then picks what depth d picked before |
| Handler.RepeatedHeaderIsJoined | server/handler.ts:147-150 | a header sent several times gives the same address as one header holding the values joined by commas |
| Handler.Protocol | server/handler.ts:200 | without a protocol header configured or present the protocol is `https`; a configured header's non-empty value is used, an empty one gives `https`; a repeated header gives its values joined by commas |
| Handler.Host | server/handler.ts:201 | the configured host header's value, a repeated header's values joined by commas; `undefined` when it is absent |
| Handler.Port | server/handler.ts:202 | a port is present exactly when a port header is configured and its value is truthy, and it is that value, a repeated header's values joined by commas |
| Handler.GetOrigin | server/handler.ts:199-207 | the origin starts with protocol://host and ends with `:port` exactly when a port header is configured and set |
| Handler.OriginDefaultsToHttps | server/handler.ts:200 | without a protocol header the origin is `https://…` |
| Handler.OriginReadsConfiguredHeaders | server/handler.ts:199-203 | the origin depends only on the three configured headers |
| Handler.RequestBase | server/handler.ts:125 | a non-empty ORIGIN wins; otherwise the origin comes from the headers |
| Handler.Handle | server/handler.ts:188-193 | handlers from i run in order; each one after the first runs only because its predecessor called `next`; the outer `next` runs exactly when all of them called `next`; otherwise the last one run did not call `next` |
| Handler.Sequence | server/handler.ts:186-197 | the handlers run from the first, in list order, until one does not call `next`; the outer `next` runs exactly when every handler passed the request on, and then every handler ran |
| Handler.KeepMiddleware | server/handler.ts:215 | filtering never lengthens the list |
| Handler.KeepMiddlewareMembers | server/handler.ts:215 | the filter keeps exactly the present middleware |
| Handler.KeepMiddlewareOrdered | server/handler.ts:215 | the filter keeps the middleware in their original relative order |
| Handler.HandlerSlots | server/handler.ts:210-215 | the unfiltered list has four entries: the client-asset and static servers (present exactly when their directories exist), then prerendered pages, then rendering, in that order |
| Handler.KeepHandlerSlots | server/handler.ts:209-216 | filtering the handler list drops exactly the asset servers whose directories are missing |
| Handler.FilteredChainShape | server/handler.ts:209-216 | the filtered list ends in prerendered pages then rendering, and holds each asset server exactly when its directory exists |
| Handler.FilteredChainAscending | server/handler.ts:209-216 | the filtered list keeps the order in which the middleware are listed |
| Handler.HandlerChain | server/handler.ts:209-216 | the exported handler is the client assets and static files when present, then prerendered pages, then rendering, in that order |
| Handler.RenderEndsEveryRequest | server/handler.ts:186-216 | since rendering never calls `next`, no request falls through the exported handler |
| Lifecycle.SocketActivation | server/index.ts:22-33 | a LISTEN_PID that is neither 0 nor this process stops start-up; so does LISTEN_FDS above 1; otherwise activation is on exactly when LISTEN_PID is this process and LISTEN_FDS is 1 |
| Lifecycle.ForeignListenPidRejected | server/index.ts:22-26 | variables meant for another process stop start-up whatever LISTEN_FDS says |
| Lifecycle.NoVariablesNoActivation | server/index.ts:17-33 | with the defaults "0" and "0" the server starts without activation |
| Lifecycle.PortFallback | server/index.ts:10 | PORT falls back to "3000" exactly when SOCKET_PATH is unset or empty |
| Lifecycle.LoadServerConfig | server/index.ts:8-33 | start-up fails exactly when the socket-activation check fails, with its error; otherwise activation, SOCKET_PATH, HOST (default 0.0.0.0), PORT with its fallback, and `parseInt` of SHUTDOWN_TIMEOUT (default "30") and IDLE_TIMEOUT (default "0") are taken from the environment |
| Lifecycle.PortDefault | server/index.ts:8-10 | with PORT unset the port is 3000 unless a non-empty socket path is set |
| Lifecycle.DefaultServerConfig | server/index.ts:8-18 | with nothing set: host 0.0.0.0, port 3000, shutdown timeout 30, idle timeout 0, no activation |
| Lifecycle.ListenOn | server/index.ts:47-55 | under activation the server listens on descriptor 3; otherwise on the configured path, host and port |
| Lifecycle.ActivatedServerListensOnFd3 | server/index.ts:17-50 | LISTEN_PID equal to this process and LISTEN_FDS=1 start the server on descriptor 3 |
| Lifecycle.Clear | server/index.ts:69-74 | `clearTimeout` cancels a pending timer and leaves its handle set (truthy) |
| Lifecycle.Server.constructor | server/index.ts:33-38 | no requests, no timers, no effects |
| Lifecycle.Server.OnRequest | server/index.ts:87-92 | one more request in flight, and no idle timer is left |
| Lifecycle.Server.OnRequestClosed | server/index.ts:94-108 | one request fewer; idle connections are closed again during shutdown; the idle timer is armed exactly when nothing is left in flight under activation with an idle timeout; the invariant is kept |
| Lifecycle.Server.GracefulShutdown | server/index.ts:57-85 | a no-op once shutdown has begun; otherwise idle connections are closed, the server stops listening, the close callback keeps this reason and the shutdown timer is armed |
| Lifecycle.Server.OnServerClosed | server/index.ts:65-78 | on an error nothing happens; otherwise both timers are cleared and one shutdown event is emitted with the first shutdown's reason |
| Lifecycle.Server.OnShutdownTimer | server/index.ts:80-84 | when the shutdown timeout elapses, every remaining connection is closed |
| Lifecycle.Server.OnIdleTimer | server/index.ts:102-106 | the idle timer fires with nothing in flight and starts a graceful shutdown for reason IDLE: unless shutdown had already begun, idle connections are closed, the server stops listening and the shutdown timer is armed; otherwise nothing else changes |

## Left out

- src/index.ts (the adapter build step), the bundler configurations, server/module.d.ts and server/prom.ts are not part of this model. The same holds for METRICS_PATH and the metrics route in server/index.ts:12-13 and 42-44.
- The static file server (sirv), the URL parser (@polka/url), polka's routing, `decodeURIComponent`, `fs.existsSync` and the framework's `Server` (`init`, `respond`, `getRequest`, `setResponse`) are outside the model. Their results are inputs: `hasDirectory`, `decoded`, `requestBuilt`, the `callsNext` of each middleware, and the socket address candidates.
- Timers, the event loop, signals, sockets and connections are not modelled as mechanisms. Each callback is a method of `Lifecycle.Server`, called when the event would occur. The timeout durations (`* 1000`) are not modelled.
- The exported `expected` set of variable names (server/env.ts:4-17) is not read by the core and is not modelled.
- Console logging and the error messages' wording are left out. Errors are datatypes that carry the values the messages print.
- Numeric.NumberOf: accepts only an optional sign followed by decimal digits. White space, decimals, exponents, hexadecimal, `Infinity` and the resulting non-integer limits are not modelled.
- Handler.ParseBodySizeLimit: inherits the restrictions of `Numeric.NumberOf`. It also reads only ASCII K, M and G (either case) as units, and does not model other characters whose upper case is one of those letters.
- Numeric.ParseInt: leading white space, radix prefixes and the loss of precision for very long digit runs are not modelled.
- Text.ToLower: lower-cases ASCII letters only. Header names are ASCII, so this is enough for the configured header names.
- Handler.ServePrerendered: Node's header-value validation in `res.writeHead` is not modelled. A `location` holding a character above U+00FF (for example the decoded `/中/`) makes the runtime throw and end in polka's error handler, where the model answers 308.
- Handler.Response.WriteHead: never fails; Node's checks on header names and values are not modelled.
- Handler.Ssr: the response body the framework renders is not modelled. Whether a request can be built is an input.
- Handler.KeepMiddleware: its own contract only bounds the length. Membership and order are the separate lemmas `Handler.KeepMiddlewareMembers` and `Handler.KeepMiddlewareOrdered`.
