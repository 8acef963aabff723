# coinfo core, modelled in Dafny

coinfo is a Nuxt application that shows live cryptocurrency tickers. This
project models the core of its server and of its browser client, and proves
properties of that model:

- the in-memory market data store and its broadcast hook;
- the shared exchange table and the compact ticker tuple;
- the three ticker REST handlers;
- the WebSocket service: client map, message dispatch, HTTP routing and
  server-instance slot;
- the h3 WebSocket route with its hot-reload peer set;
- the browser composable with its 200-entry message log;
- the Korean duration formatter;
- the route middleware that derives page titles.

Layout, one module per source file:

| file | module | models |
|---|---|---|
| `wrappers.dfy` | `Wrappers` | `Option` and `Result` |
| `strings.dfy` | `Strings` | JavaScript `split`, `join`, `trim`, ASCII case conversion, decimal rendering |
| `shared_types.dfy` | `SharedTypes` | `shared/types/index.ts` |
| `market_data.dfy` | `MarketData` | `server/store/marketData.ts` |
| `tickers_api.dfy` | `TickersApi` | `server/api/tickers.ts` |
| `upbit_tickers_api.dfy` | `UpbitTickersApi` | `server/api/upbit/tickers/index.get.ts` |
| `upbit_hot_api.dfy` | `UpbitHotApi` | `server/api/upbit/tickers/hot.get.ts` |
| `websocket_service.dfy` | `WebSocketService` | `server/services/websocket.ts` |
| `ws_route.dfy` | `WsRoute` | `server/routes/ws.ts` |
| `use_websocket.dfy` | `UseWebSocket` | `app/composables/useWebSocket.ts` |
| `time_format.dfy` | `TimeFormat` | `shared/utils/time.ts` |
| `auto_title.dfy` | `AutoTitle` | `app/middleware/auto-title.global.ts` |

Code whose state changes in place is modelled as classes with `modifies` frames:

- the store's module-level maps and callback slot;
- the service's `clients` map and global server slot;
- the route's `activePeers` set;
- the client's state record;
- each socket's outgoing frames.

Code that only computes is modelled as functions, with lemmas about them.

## Modelling decisions

- **Numbers.** JavaScript numbers (prices, limits, durations) are integers.
- **Store inner map.** Each exchange's inner `Map` is a map plus its key
  insertion order. That order is what `values()` iterates.
- **Broadcast callback.** The callback is an opaque handle. Each call to it
  is recorded in a `broadcasts` log, so "called exactly once, after storing"
  is a statement about that log.
- **Sockets.** A socket is an object that records the payloads sent on it
  and the close frames it received. msgpack encoding is not modelled: the
  payload value itself is recorded.
- **Parameters.** These become parameters of the model:
  - `JSON.parse` becomes its outcome (unparseable, `null`, or an object with
    an optional `type`).
  - `crypto.randomUUID` becomes a fresh id.
  - `server.upgrade` and `stop()` failure become booleans.
  - `import.meta.prerender` and Bun availability become booleans.
  - `toLocaleTimeString` becomes a `now` string.
  - msgpack decoding followed by `JSON.stringify` becomes an optional text.
- **Where the code differs from its documented design, the model follows
  the code:**
  - `updateTickerData` always stores, and calls the callback whenever one is
    registered (`server/store/marketData.ts:70`). There is no direction
    computation and no suppression of unchanged prices.
  - Server replies carry `type`, not `t`, and the error reply has no `code`.
  - `subscribe`, `unsubscribe` and `snapshot` are accepted and answered with
    nothing.
  - The Bun `message` hook echoes the raw message instead of dispatching it
    (`server/services/websocket.ts:118-122`).
  - The Bun `close` hook only logs and never calls `handleClose`.
- **Arity mismatch.** `server/routes/ws.ts:29,53` passes extra arguments to
  `handleOpen`/`handleClose`. They ignore them, so the route calls the
  service's one-argument operations.

## Model

| member | source | states |
|---|---|---|
| SharedTypes.ExchangeToId | shared/types/index.ts:11-30 | the id of an exchange is the index of its name in `EXCHANGES` |
| SharedTypes.ExchangeOfId | shared/types/index.ts:9-30 | mapping an id to its exchange and back gives the id again |
| SharedTypes.ExchangeOfName | shared/types/index.ts:11-17 | a name denotes an exchange exactly when it is listed in `EXCHANGES`, and then that exchange's name is the given name |
| SharedTypes.ExchangeIdsAreIndices | shared/types/index.ts:9-30 | `EXCHANGE_TO_ID[EXCHANGES[i]] == i` for both ids, and names, ids and exchanges convert both ways without loss |
| SharedTypes.ExchangeNameIsLowercase | shared/types/index.ts:11 | exchange names are non-empty and lower-case letters only |
| SharedTypes.SchemaIndex | shared/types/index.ts:81-89 | every schema index lies in 0..6 |
| SharedTypes.FieldAt | shared/types/index.ts:94-102 | the field read at a tuple index is the one whose schema index it is |
| SharedTypes.SchemaIsBijection | shared/types/index.ts:81-102 | schema indices are pairwise distinct, and index lookup inverts the schema |
| SharedTypes.ToCompact | shared/types/index.ts:55-89 | a ticker packs exactly when its exchange is listed; the packed tuple carries the exchange's id and the symbol |
| SharedTypes.FromCompact | shared/types/index.ts:55-115 | unpacking names the exchange at the tuple's id |
| SharedTypes.Encode | shared/types/index.ts:77-115 | the wire array has 7 slots and each field sits at its schema index |
| SharedTypes.Decode | shared/types/index.ts:81-115 | a decoded tuple comes from a 7-slot array, has an exchange id in 0..1 and a direction in -1..1, and its symbol is the string at the symbol's schema index |
| SharedTypes.DecodeEncode | shared/types/index.ts:77-115 | reading a placed tuple back by `TickerCompactIndex` returns it |
| SharedTypes.EncodeDecode | shared/types/index.ts:77-115 | a wire array that decodes is exactly the encoding of what it decodes to |
| SharedTypes.TickerRoundTrip | shared/types/index.ts:55-115 | for a listed exchange, pack, encode, decode and unpack returns the original ticker |
| SharedTypes.TagsDistinct | shared/types/index.ts:255-304 | two messages share a tag exactly when they are the same kind of message |
| MarketData.Get | shared/types/index.ts:140 | a symbol finds a ticker exactly when it is a key, and then finds the stored one |
| MarketData.Values | server/api/upbit/tickers/index.get.ts:20 | `values()` lists one ticker per key, in key insertion order |
| MarketData.Set | server/store/marketData.ts:67 | `map.set(symbol, t)`: the keys gain `symbol`, which maps to `t`; the old insertion order stays a prefix and grows by at most one key |
| MarketData.GetAfterSet | server/store/marketData.ts:67 | after `set(symbol, t)`, `get(symbol)` is `t` |
| MarketData.GetAfterSetOther | server/store/marketData.ts:67 | `set` leaves every other key's entry unchanged |
| MarketData.SetKeepsOrder | server/store/marketData.ts:67 | a new key is appended to the insertion order; overwriting keeps the order |
| MarketData.MarketDataStore.constructor | server/store/marketData.ts:13-24 | both stores start empty and no callback is registered |
| MarketData.MarketDataStore.SetBroadcastCallback | server/store/marketData.ts:29-33 | the callback slot holds the new callback, replacing any earlier one; nothing else changes |
| MarketData.MarketDataStore.SetMarketInfo | server/store/marketData.ts:38-43 | the exchange's market list is replaced wholesale, and `getMarketInfo` returns exactly it |
| MarketData.MarketDataStore.GetMarketInfo | server/store/marketData.ts:48-50 | the stored list, or absent when none was ever set |
| MarketData.MarketDataStore.GetTickerData | server/store/marketData.ts:78-83 | absent when the exchange has no inner map, else the inner map's entry |
| MarketData.MarketDataStore.GetExchangeData | server/store/marketData.ts:88-91 | the exchange's inner map, or absent |
| MarketData.MarketDataStore.GetAllMarketData | server/store/marketData.ts:96-98 | the whole store: an exchange is present exactly when `getExchangeData` finds it, with the same inner map (entries and insertion order), and every ticker agrees with `getTickerData` |
| MarketData.MarketDataStore.UpdateTickerData | server/store/marketData.ts:55-73 | the inner map is created when absent and reused otherwise; `getTickerData(e, s)` is then `t` whatever `t.e`/`t.s` say; every other entry and the market info are unchanged; exactly one broadcast `(e, s)` is logged when a callback is set, none otherwise |
| MarketData.MarketDataStore.ClearExchangeData | server/store/marketData.ts:103-105 | the exchange's data and every one of its tickers become absent; other exchanges are untouched |
| MarketData.LatestCallbackWins | server/store/marketData.ts:29-72 | after two registrations, a write invokes only the second callback |
| TickersApi.SymbolKeys | server/api/tickers.ts:20 | one key per comma-separated segment, each trimmed |
| Strings.Split | server/api/tickers.ts:20 | `split` yields at least one piece and no piece contains the separator; `JoinSplit` and `SplitJoin` make it the inverse of `join` |
| Strings.Trim | server/api/tickers.ts:20 | `trim` never lengthens; `TrimSpec` makes it the infix left after removing white space from both ends |
| Strings.TrimSpec | server/api/tickers.ts:20 | what `trim` removes is white space at both ends, and what it keeps neither starts nor ends with white space |
| Strings.Join | shared/utils/time.ts:28 | `join` of a non-empty list starts with its first element |
| Strings.JoinSplit | shared/utils/time.ts:28 | splitting on a separator and joining with it gives back the input |
| Strings.SplitJoin | shared/utils/time.ts:28 | joining pieces free of the separator and splitting again gives back the pieces |
| TickersApi.LookupKey | server/api/tickers.ts:23-27 | a key finds a ticker only if it has at least two `:`-parts whose first names a listed exchange; conversely, for such a key the result is exactly `getTickerData` of the first two parts |
| TickersApi.Found | server/api/tickers.ts:22-29 | at most one result per key, and every result is what some key finds |
| TickersApi.Tickers | server/api/tickers.ts:11-32 | a missing or empty `symbols` gives `[]`; otherwise at most one result per segment, each the lookup of some trimmed segment |
| TickersApi.FoundAppend | server/api/tickers.ts:22-29 | results follow key order: a concatenation of keys finds the concatenation of results |
| TickersApi.FoundSingle | server/api/tickers.ts:28-29 | a key that finds nothing is dropped; one that finds a ticker contributes exactly it |
| TickersApi.EmptyKeyFindsNothing | server/api/tickers.test.ts:118-130 | an empty segment finds nothing |
| TickersApi.LookupQualifiedKey | server/api/tickers.ts:24-26 | `exchange:symbol` finds `getTickerData(exchange, symbol)` |
| TickersApi.ExtraPartsIgnored | server/api/tickers.ts:24-26 | anything after a second `:` is ignored: `exchange:symbol:rest` finds `getTickerData(exchange, symbol)` |
| TickersApi.PaddedKeyTrims | server/api/tickers.ts:20 | a key padded with spaces trims back to itself |
| TickersApi.PaddedPairKeys | server/api/tickers.ts:20 | two space-padded keys around a comma parse to the two keys |
| TickersApi.QualifiedKeyShape | server/api/tickers.ts:20-24 | an `exchange:symbol` key has no outer white space and no comma when its symbol has neither |
| TickersApi.WhitespaceAroundKeys | server/api/tickers.test.ts:102-116 | a request with whitespace around two keys returns both stored tickers, in request order |
| UpbitTickersApi.RequestedSymbols | server/api/upbit/tickers/index.get.ts:24 | no requested symbol is empty, and there are at most as many as segments |
| UpbitTickersApi.NonEmptyTrimmed | server/api/upbit/tickers/index.get.ts:24 | the non-empty trimmed segments, none empty, no more than the segments |
| UpbitTickersApi.Kept | server/api/upbit/tickers/index.get.ts:24 | a segment contributes exactly its trimmed form when that is non-empty, and nothing otherwise |
| UpbitTickersApi.RequestedAreTrimmed | server/api/upbit/tickers/index.get.ts:24 | every requested symbol is already trimmed |
| UpbitTickersApi.NonEmptyTrimmedAppend | server/api/upbit/tickers/index.get.ts:24 | parsing keeps segment order across a concatenation |
| UpbitTickersApi.BlankSegmentsDropped | server/api/upbit/tickers/index.get.ts:24 | a blank segment contributes nothing |
| UpbitTickersApi.Select | server/api/upbit/tickers/index.get.ts:27-32 | at most one ticker per requested symbol |
| UpbitTickersApi.SelectedAreStored | server/api/upbit/tickers/index.get.ts:27-32 | every returned ticker is stored under some requested symbol |
| UpbitTickersApi.SelectAppend | server/api/upbit/tickers/index.get.ts:27-32 | results follow request order |
| UpbitTickersApi.RepeatedSymbol | server/api/upbit/tickers/index.get.ts:27-32 | a symbol requested twice is returned twice |
| UpbitTickersApi.UpbitTickersSpec | server/api/upbit/tickers/index.get.ts:9-35 | without an upbit map the answer is `[]`; every ticker returned is a value stored in the upbit map |
| UpbitTickersApi.UpbitTickers | server/api/upbit/tickers/index.get.ts:9-35 | the loop's result equals the specification: `[]` without upbit data; all upbit tickers in insertion order without `symbols`; otherwise the stored tickers of the requested symbols, in order |
| UpbitTickersApi.NoUpbitData | server/api/upbit/tickers/index.get.ts:13-16 | with no upbit map the answer is `[]` whatever is requested |
| UpbitTickersApi.OnlyUpbitRead | server/api/upbit/tickers/index.get.ts:13 | the answer depends on nothing but the upbit map |
| UpbitHotApi.TypeOrDefault | server/api/upbit/tickers/hot.get.ts:14 | a missing or empty `type` becomes "volume"; any other is kept |
| UpbitHotApi.LimitOrDefault | server/api/upbit/tickers/hot.get.ts:16 | `NaN` or 0 becomes 20; any other number is kept |
| UpbitHotApi.HotTickers | server/api/upbit/tickers/hot.get.ts:12-32 | a 400 error with the exact message exactly when the type is not one of the four; otherwise one `queryTickers('upbit', {quote, sort: type, limit})` call |
| UpbitHotApi.DefaultQuery | server/api/upbit/tickers/hot.get.ts:14-16 | no parameters forward sort "volume", limit 20 and no quote |
| UpbitHotApi.ForwardedQueriesAreValid | server/api/upbit/tickers/hot.get.ts:19-31 | any forwarded query has a valid sort and a non-zero limit |
| WebSocketService.Socket.Close | server/routes/ws.ts:12 | a close appends one close frame and sends no payload |
| WebSocketService.Dispatch | server/services/websocket.ts:170-204 | `ping` gets `pong`; `subscribe`/`unsubscribe`/`snapshot` get nothing; any other type (or none) gets "Unknown message type"; unparseable or `null` input gets "Invalid JSON" — each an if-and-only-if |
| WebSocketService.Replies | server/services/websocket.ts:170-204 | at most one reply, and one exactly when dispatch produces one |
| WebSocketService.DispatchRepliesAreKnown | server/services/websocket.ts:170-204 | every reply is a pong or one of the two error messages |
| WebSocketService.Route | server/services/websocket.ts:82-110 | `/ws` upgrades with a fresh id and no subscriptions, or answers 400 "WebSocket upgrade failed" when refused; `/health` answers 200 "OK"; anything else 404 "Not Found" — each status an if-and-only-if |
| WebSocketService.WebSocketServer.constructor | server/services/websocket.ts:15-32 | no clients, no server instance |
| WebSocketService.WebSocketServer.HandleOpen | server/services/websocket.ts:153-165 | the socket is entered in `clients` with its data and receives one `connected` payload with its id |
| WebSocketService.WebSocketServer.HandleClose | server/services/websocket.ts:209-229 | the socket is removed from `clients`; nothing else changes |
| WebSocketService.WebSocketServer.GetServerInstance | server/services/websocket.ts:15-18 | the stored instance, or none |
| WebSocketService.WebSocketServer.SetServerInstance | server/services/websocket.ts:23-26 | the slot holds the given instance |
| WebSocketService.WebSocketServer.StopServer | server/services/websocket.ts:234-246 | with no instance nothing happens; otherwise `stop()` is called once and the slot is cleared unless `stop()` throws |
| WebSocketService.WebSocketServer.StartWebSocketServer | server/services/websocket.ts:42-137 | as intended: in prerender mode, or without Bun (logged), nothing changes and the call returns; otherwise an existing server is stopped first, then the new one is stored; when `Bun.serve` throws, the exception reaches the caller (`threw`) and the slot keeps what the stop attempt left |
| WebSocketService.WebSocketServer.StartWebSocketServerAsWritten | server/services/websocket.ts:42-137 | the same state changes, but the no-Bun branch throws: `threw` holds exactly outside prerender mode when Bun is missing or `Bun.serve` throws |
| WebSocketService.NoBunThrowsAsWritten | server/services/websocket.ts:55-58 | outside prerender mode and without Bun, the code as written throws where the intended version returns |
| WebSocketService.WebSocketServer.HandleMessage | server/services/websocket.ts:170-204 | the socket receives exactly the dispatch reply and nothing else |
| WebSocketService.WebSocketServer.BunMessage | server/services/websocket.ts:118-122 | the Bun hook echoes the raw message back |
| WsRoute.HmrRoute.constructor | server/routes/ws.ts:6 | no active peers |
| WsRoute.HmrRoute.Open | server/routes/ws.ts:25-30 | the peer is tracked, registered as a client and greeted; the server instance is neither replaced nor stopped |
| WsRoute.HmrRoute.Message | server/routes/ws.ts:36-45 | decodable text is dispatched; a text failure is caught and changes nothing |
| WsRoute.HmrRoute.Close | server/routes/ws.ts:50-55 | the peer is no longer tracked nor a client; the server instance is neither replaced nor stopped |
| WsRoute.HmrRoute.ClosePeers | server/routes/ws.ts:8-15 | every peer tracked at the call gets exactly one close frame (1012, "Server restarting due to file change"), no payload, and afterwards none is tracked |
| UseWebSocket.BoundedAppend | app/composables/useWebSocket.ts:22-32 | the new entry is last; below the cap nothing is dropped; at the cap exactly the oldest entry is dropped and the rest keep their order; a log within 200 entries stays within 200 |
| UseWebSocket.AppendAllKeepsNewest | app/composables/useWebSocket.ts:22-32 | any run of appends leaves exactly the newest `min(200, total)` entries, oldest first |
| UseWebSocket.ClientState.constructor | app/composables/useWebSocket.ts:16-20 | no socket, not connected, empty log |
| UseWebSocket.ClientState.AddMessage | app/composables/useWebSocket.ts:22-32 | the log is the bounded append of the stamped text; connection state unchanged |
| UseWebSocket.ClientState.Connect | app/composables/useWebSocket.ts:34-42 | a no-op while `ws` is set; otherwise one new socket, with `ws` still unset |
| UseWebSocket.ClientState.OnOpen | app/composables/useWebSocket.ts:44-49 | connected, `ws` is the opened socket, one log entry |
| UseWebSocket.ClientState.OnMessage | app/composables/useWebSocket.ts:51-60 | one "Server: …" entry, or on a decode failure one "Error: Failed to decode message. …" entry; nothing else changes |
| UseWebSocket.ClientState.OnClose | app/composables/useWebSocket.ts:62-67 | disconnected, no socket, one log entry |
| UseWebSocket.ClientState.OnError | app/composables/useWebSocket.ts:69-72 | one log entry only |
| UseWebSocket.ClientState.SendMessage | app/composables/useWebSocket.ts:75-83 | sends and logs "You: …" only when a socket is set and connected; otherwise sends nothing and logs "Error: Not connected." |
| UseWebSocket.DoubleConnectBeforeOpen | app/composables/useWebSocket.ts:34-49 | two `connect` calls before the first socket opens create two sockets |
| UseWebSocket.ConnectAfterOpen | app/composables/useWebSocket.ts:36 | after an open, `connect` creates nothing |
| TimeFormat.Amount | shared/utils/time.ts:15-18 | seconds and minutes lie in [0, 60), hours in [0, 24) |
| TimeFormat.DurationParts | shared/utils/time.ts:20-26 | one to four parts, each carrying its unit's amount of the duration |
| TimeFormat.FormatDuration | shared/utils/time.ts:10-29 | the conditional pushes and join produce the rendering of the duration's parts |
| TimeFormat.Decomposition | shared/utils/time.ts:15-18 | days·86400000 + hours·3600000 + minutes·60000 + seconds·1000 = ms − ms mod 1000 |
| TimeFormat.PartsTotal | shared/utils/time.ts:20-26 | omitting zero units loses nothing: the parts still sum to ms − ms mod 1000 |
| TimeFormat.AllZeroIffSubSecond | shared/utils/time.ts:15-18 | all four units are zero exactly below one second |
| TimeFormat.PartsOrdered | shared/utils/time.ts:20-26 | units appear strictly in the order days, hours, minutes, seconds, each with its own value |
| TimeFormat.PartsPresence | shared/utils/time.ts:21-26 | a unit is shown exactly when it is non-zero, except that seconds is shown (as 0) below one second |
| TimeFormat.PartsSubSecond | shared/utils/time.ts:24-26 | there is always a part, and the lone part is "0 seconds" exactly below one second |
| TimeFormat.WordsOfFormatted | shared/utils/time.ts:28 | splitting the result on spaces gives back one rendered part per unit |
| TimeFormat.Formatted | shared/utils/time.ts:10-28 | the string returned is never empty; `WordsOfFormatted` splits it back into the rendered parts |
| TimeFormat.SubSecond | shared/utils/time.ts:24 | 0 < ms < 1000 gives "0초" |
| TimeFormat.TwoDaysExample | shared/utils/time.ts:6 | 176583000 gives "2일 1시간 3분 3초" |
| TimeFormat.TwoDaysParts | shared/utils/time.ts:15-26 | 176583000 splits into 2 days, 1 hour, 3 minutes, 3 seconds |
| TimeFormat.TwoDaysRender | shared/utils/time.ts:21-28 | those parts render as "2일 1시간 3분 3초" |
| TimeFormat.OneHourExample | shared/utils/time.ts:7 | 3661000 gives "1시간 1분 1초" |
| TimeFormat.OneHourParts | shared/utils/time.ts:15-26 | 3661000 splits into 1 hour, 1 minute, 1 second |
| TimeFormat.OneHourRender | shared/utils/time.ts:21-28 | those parts render as "1시간 1분 1초" |
| AutoTitle.DropEmpty | app/middleware/auto-title.global.ts:3 | `filter(Boolean)` keeps only non-empty pieces, each taken from the input |
| AutoTitle.Segments | app/middleware/auto-title.global.ts:3 | the path's segments are non-empty, contain no '/', and are no more than the pieces of the split |
| AutoTitle.LastSegment | app/middleware/auto-title.global.ts:3-4 | empty exactly when the path has no non-empty segment; never contains '/' |
| AutoTitle.Capitalize | app/middleware/auto-title.global.ts:41 | same length, first character upper-cased, all others lower-cased |
| AutoTitle.TransformWord | app/middleware/auto-title.global.ts:35-41 | a word whose lower-case form is a key gets that key's display form, any other word is capitalised; this is the own-key lookup, which differs from the code as written on "constructor" and "__proto__" (see Findings) |
| AutoTitle.TransformAll | app/middleware/auto-title.global.ts:32-42 | one display word per word, in order |
| AutoTitle.SegmentTitle | app/middleware/auto-title.global.ts:32-43 | a segment without '-' is titled by its one display word |
| AutoTitle.SegmentTitleWords | app/middleware/auto-title.global.ts:32-43 | for a segment without spaces, splitting the title on spaces gives one display word per '-'-part, in order |
| AutoTitle.AutoTitle | app/middleware/auto-title.global.ts:1-46 | no title and template "coinfo" exactly when the path has no non-empty segment; otherwise "%s - coinfo" and the last segment's title; built on the own-key lookup, so it differs from the code as written on paths whose last segment has the word "constructor" or "__proto__" (see Findings) |
| AutoTitle.RootHasSiteTitle | app/middleware/auto-title.global.ts:6-10 | "/" and "" give no title and the bare site template |
| AutoTitle.TrailingSlashIgnored | app/middleware/auto-title.global.ts:3-4 | a trailing slash changes nothing |
| AutoTitle.OnlyLastSegmentMatters | app/middleware/auto-title.global.ts:3-4 | whatever precedes the last segment is ignored |
| AutoTitle.MappedValuesLowerToKey | app/middleware/auto-title.global.ts:13-29 | every mapped value except "JavaScript" lower-cases back to its key |
| AutoTitle.TransformWordIdempotent | app/middleware/auto-title.global.ts:35-41 | transforming a transformed word changes nothing, unless the word is "js" in some case |
| AutoTitle.JsIsNotIdempotent | app/middleware/auto-title.global.ts:13-41 | "js" → "JavaScript" → "Javascript" |
| AutoTitle.JavaScriptCapitalises | app/middleware/auto-title.global.ts:37-41 | "JavaScript" is not a key in lower case and capitalises to "Javascript" |
| AutoTitle.MappedInAnyCase | app/middleware/auto-title.global.ts:35-38 | a key in any letter case, e.g. "WEBSOCKET", maps to its display form |
| AutoTitle.TransformWordAsWritten | app/middleware/auto-title.global.ts:35-41 | agrees with the own-key transformation except on the inherited keys |
| AutoTitle.AutoTitleAsWritten | app/middleware/auto-title.global.ts:1-46 | the same template choice as the own-key version |
| AutoTitle.AsWrittenAgrees | app/middleware/auto-title.global.ts:1-46 | when no word of the last segment lower-cases to an inherited key, the head as written equals the own-key head |
| AutoTitle.SingleWordTitle | app/middleware/auto-title.global.ts:3-45 | a one-word path's title is that word's display form, as written and corrected |
| AutoTitle.ProtoWordAsWritten | app/middleware/auto-title.global.ts:37-38 | "__proto__" becomes "[object Object]" as written, and stays "__proto__" with an own-key lookup |
| AutoTitle.ConstructorWordAsWritten | app/middleware/auto-title.global.ts:37-38 | "constructor" becomes the `Object` function's source text as written, and "Constructor" with an own-key lookup |
| AutoTitle.InheritedKeyPathsAsWritten | app/middleware/auto-title.global.ts:3-45 | the paths "/__proto__" and "/constructor" get those texts as whole titles |

## Left out

- The batched broadcaster, the subscription reverse index, price-direction computation and the upstream feed connector are not in the modelled sources (`server/services/upbit.ts` is a stub and the subscription code in `server/services/websocket.ts` is commented out), so none is modelled.
- `queryTickers`, `broadcastUpdate`, `getUpbitStatus` and `getWebSocketStats` are imported but not defined in the modelled sources. The hot-list handler is modelled up to the call it makes (`QueryTickersCall`).
- Signal handlers and `process.exit` (`server/services/websocket.ts:248-257`) are not modelled. Neither are the Nitro/Nuxt plugins, the configuration files, the logging middleware, the diagnostic `server/api/time.ts` and `server/services/ws.ts`, and the one-line holders `server/store/coins.ts` and `app/stores/tickers.ts`.
- The legacy `TickerMessage` record (`shared/types/index.ts:150-159`) and `types/index.ts` duplicate shared types and are not modelled. `UpbitTickerResponse`, `UpbitMarket` and `ExchangeConnector` are only used by absent components.
- All `console` output is left out.
- MarketData.MarketDataStore.GetExchangeData: returns a value snapshot. The source returns the live inner `Map`, so later writes through that reference (aliasing) are not captured.
- MarketData.MarketDataStore.GetAllMarketData: returns a value snapshot of the outer map. The source returns the live outer `Map` (`server/store/marketData.ts:97`), so writes through it are not captured. The model's outer `map` also does not keep the order in which exchanges were first inserted.
- MarketData.MarketDataStore.SetMarketInfo: the list is stored as a value. The source keeps the caller's array by reference (`server/store/marketData.ts:42`), and `getMarketInfo` hands that same array out (`server/store/marketData.ts:49`), so later mutations of it by either side are not captured.
- MarketData.MarketDataStore.UpdateTickerData: the callback is recorded as a log entry, not run. What the callback itself does is outside this model.
- UpbitHotApi.LimitOrDefault: `Number(query.limit)` is modelled on integers and `NaN` only. Fractional and infinite limits are not modelled.
- TickersApi.Tickers: a `symbols` parameter that arrives as an array, and the other non-string query forms, are not modelled. The same holds for the upbit handlers.
- TimeFormat.FormatDuration: `ms` is an integer. Floating-point durations, and the precision limits of `Math.floor` above 2^53, are not modelled.
- AutoTitle.TransformWord: `toUpperCase`/`toLowerCase` are modelled for ASCII letters only. Unicode case mapping, including changes of length, is not.
- AutoTitle.ConstructorWordAsWritten: the text of the `Object` function is V8's. Other engines may print it differently.
- WsRoute.HmrRoute.Open: `server/routes/ws.ts:1` imports `handleOpen`, but `server/services/websocket.ts:153` declares it without `export`. In an ES module such an import fails when the module is linked, so as written the route may not load at all, or `open` may call `undefined`. The model assumes the import resolves to the service's `handleOpen`.
- WebSocketService.WebSocketServer.StartWebSocketServer: a thrown exception, from `Bun.serve` or (as written) from the no-Bun log line, is modelled as the `threw` result with the state as the call left it. What the caller then skips (`server/plugins/init.ts:29`, which does not catch, so the `close` and `dev:reload` hooks below it are not registered) is not modelled.
- WebSocketService.WebSocketServer.HandleMessage: the msgpack encoding of replies and the compression flag are not modelled.
- UseWebSocket.ClientState.OnMessage: `event.data` is taken as its string form. Whether an `ArrayBuffer` prints as "[object ArrayBuffer]" is not modelled.
- The Bun server's `compression` and `port` options and the URL parsing in `fetch` are not modelled beyond the pathname.

## Findings

| source | as written | input that shows it | evidently intended | confidence | as-written member | corrected member |
|---|---|---|---|---|---|---|
| app/middleware/auto-title.global.ts:37-38 | `wordMap[lowerWord]` on an object literal also finds properties inherited from `Object.prototype` | the path "/__proto__" gets the title "[object Object]"; "/constructor" gets "function Object() { [native code] }" | only the listed words are mapped (an own-key lookup), so these get "__proto__" and "Constructor" | not executed | AutoTitle.TransformWordAsWritten, AutoTitle.ProtoWordAsWritten, AutoTitle.ConstructorWordAsWritten, AutoTitle.InheritedKeyPathsAsWritten, AutoTitle.AsWrittenAgrees | AutoTitle.TransformWord, AutoTitle.TransformAll, AutoTitle.AutoTitle, AutoTitle.TransformWordIdempotent |
| server/services/websocket.ts:57 | the no-Bun branch logs the bare identifier `Bun`, which is undeclared when `globalThis.Bun` is undefined (the file imports `bun` only as a type) | outside prerender mode without the Bun runtime: evaluating the `console.error` arguments throws a `ReferenceError`, so the `return` on line 58 is never reached and `server/plugins/init.ts:29` propagates it | log the missing runtime and return normally | not executed | WebSocketService.WebSocketServer.StartWebSocketServerAsWritten, WebSocketService.NoBunThrowsAsWritten | WebSocketService.WebSocketServer.StartWebSocketServer |
