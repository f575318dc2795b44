# k-yunzhi-embed: a verified model of the socket RPC client and its data transformations

This project models, in Dafny, the core logic of the `k-yunzhi-embed` web front end and proves properties about it.

The main part is the socket RPC client `CreateWebSocket` (`src/utils/webSocket.js`). It covers:

- the request correlator (`requestDataMap`, filled by `callServerFunc` and drained on read by `getRequestConfig`);
- the connection state 0/1/2 and the socket handlers that drive it;
- the debounced probe and reconnect timers, and the keep-alive chain;
- the credential check of the constructor and the choice of login parameters;
- the error classifier `checkError`, whose side effects are returned as effect records;
- the routing of incoming frames;
- the pure helpers `parseWebJson`, `getGuid`, `arrayBufferToHex` and `initContextRoot`.

Alongside it the project models five smaller transformations:

- the per-scene aggregation of `FetchFlowErrorRate.ts`;
- the two-table merge of `FetchDemandOverview.ts`;
- the queue form and flow-parameter builder of `execFlow.js`;
- `downgradeErrorsToWarnings` from the lint configuration;
- the `manualChunks`, `chunkFileNames` and proxy `rewrite` callbacks of the bundler configuration.

Modules:

- `Common` (`common.dfy`): the JSON value model and JavaScript's truthiness and `String(v)`. It also has `parseInt` on decimal text, `indexOf`/`lastIndexOf`, `split`/`join` and hex digits.
- `SocketCodec` (`socket_codec.dfy`): the pure helpers of the socket client. Text is a sequence of UTF-16 code units, as JavaScript sees it.
- `ErrorClassifier` (`socket_errors.dfy`): `checkError`.
- `SocketClient` (`socket_client.dfy`): class `Client`, whose fields are the closure state of `CreateWebSocket`.
  - The browser is replaced by logs that the methods append to: frames sent and sockets opened and closed (`transport`), `ElMessage` notices, `checkError` effects, host hook calls, callback deliveries and pushes to the message sink.
  - Timers are pending deadlines.
  - The random source of `getGuid`, the clock and `JSON.parse` are parameters.
- `FlowErrorRate`, `DemandOverview` (`flow_error_rate.dfy`, `demand_overview.dfy`): the hooks' reply handlers, as classes over their reactive state.
  - Each cursor loop is a method, proved against a fold function.
  - The fold functions are related to independent definitions (sums, last and first matching rows) by lemmas.
- `ExecFlow`, `EslintConfig`, `ViteConfig`: the remaining transformations.

Two behaviours of the code that the model keeps as written:

- **Keep-alive errors.** On an error reply, the keep-alive callback returns after showing the message and does not schedule the next keep-alive (`src/utils/webSocket.js:149`). The chain therefore ends at the first error.
- **Frames without `IDD_lpGuid`.** Every parsed frame that lacks a truthy `IDD_lpGuid` key falls into the older-shape branch. There it throws at `response.getRequestId()`, because a parsed value has no such method, and the `catch` swallows the exception. `SocketClient.Client.HandleMessage` states that nothing changes in that case. The older-shape routing itself is modelled on an abstract record by `SocketClient.Client.HandleLegacyResponse`.

## Model

| member | source | states |
|---|---|---|
| Common.DecimalRoundTrip | src/utils/webSocket.js:137 | `parseInt` of the decimal text of a safe integer (at most 2^53 − 1 in magnitude, which a JavaScript number holds exactly) gives that integer back, so a stored `DwTime` survives the trip through storage |
| Common.ParseDecimal | src/utils/webSocket.js:137 | `parseInt` on decimal text: an optional sign, then the longest run of digits; `None` (NaN) when there is no digit |
| SocketCodec.ReplaceLtSpec | src/utils/webSocket.js:273 | after `replace(/</g, '&lt;')` no `<` remains; text without `<` is unchanged; the replacement is idempotent and maps only empty text to empty text |
| SocketCodec.ReplaceLtConcat | src/utils/webSocket.js:273 | the global replacement works character by character: it distributes over concatenation |
| SocketCodec.HexUnit | src/utils/webSocket.js:420 | a lower-case hex digit of an escape is itself an allowed character, neither `<` nor a backslash |
| SocketCodec.EscapeWebAllowed | src/utils/webSocket.js:417-422 | every character of the escaped text is in the allow-list, and the escape pass introduces no `<` |
| SocketCodec.EscapeWebKeepsAllowed | src/utils/webSocket.js:417-422 | text made only of allowed characters passes through the escape pass unchanged |
| SocketCodec.EscapeWebIdempotent | src/utils/webSocket.js:417-422 | escaping escaped text changes nothing |
| SocketCodec.HexUnitRoundTrip | src/utils/webSocket.js:420 | each hex digit written by the escape reads back as its value |
| SocketCodec.Hex4RoundTrip | src/utils/webSocket.js:420 | the four hex digits of `\uXXXX` read back, as in section 7 of RFC 8259, to the escaped code unit |
| SocketCodec.EscapeWebRoundTrip | src/utils/webSocket.js:417-422 | for text without a backslash, decoding the `\u` escapes as section 7 of RFC 8259 does gives back exactly the original text |
| SocketCodec.ParseWebJson | src/utils/webSocket.js:410-430 | the result is always truthy; empty text gives `{}`; any other result is the parser's value on the escaped text, and a truthy parse is returned as is |
| SocketCodec.ParserInput | src/utils/webSocket.js:273-274 | what reaches `JSON.parse` from a socket frame holds no `<` and only allowed characters |
| SocketCodec.ArrayBufferToHex | src/utils/webSocket.js:438-443 | two characters per byte |
| SocketCodec.HexLowerCase | src/utils/webSocket.js:438-443 | the upload text is lower-case hex only |
| SocketCodec.HexRoundTrip | src/utils/webSocket.js:438-443 | decoding the hex text gives back the bytes: the two-digit padding loses nothing |
| SocketCodec.LowBits | src/utils/webSocket.js:457 | `c & 0x3` on a hex digit is between 0 and 3, a letter counting as 0 |
| SocketCodec.GetGuid | src/utils/webSocket.js:450-459 | the array-filling loop computes the id `GuidOf` gives, and the id is 32 upper-case hex digits with `4` at index 12 and one of `8`, `9`, `A`, `B` at index 16 (the layout of section 4.4 of RFC 4122 without hyphens) |
| SocketCodec.GuidIsV4 | src/utils/webSocket.js:450-459 | every draw of 32 nibbles gives an id of that layout |
| SocketCodec.UpperOfLower | src/utils/webSocket.js:458 | upper-casing a lower-case hex digit gives the upper-case digit of the same value |
| SocketCodec.DrawFor | src/utils/webSocket.js:450-459 | for each id of that layout, a draw of 32 nibbles |
| SocketCodec.GuidOnto | src/utils/webSocket.js:450-459 | every id of that layout is produced by some draw |
| SocketCodec.VariantBias | src/utils/webSocket.js:457 | the digit at index 16 is `8` for 9 of the 16 draws, `9` for 3 and `A`, `B` for 2 each, because a letter digit contributes 0 to `& 0x3` |
| SocketCodec.InitContextRoot | src/utils/webSocket.js:466-474 | the context root is the path text between the leading character and the last `/web/` when that occurrence starts past index 1, and empty otherwise, including when the path holds no `/web/` |
| SocketCodec.SocketUrl | src/utils/webSocket.js:78 | the address uses `ws://` exactly when the page is served over `http:`, and `wss://` otherwise; the host follows the scheme, and the address ends there or continues with `/` and the context root when that is non-empty |
| ErrorClassifier.CheckError | src/utils/webSocket.js:347-377 | a falsy error gives `null` and no effect; exactly `授权信息已经失效` navigates `top` to the test page and gives `true`; the WsKey failure texts and texts starting `无效令牌: ` alert, then call the token-lose hook or navigate to `LogoutUrl` (default `/login`), and give `true`; text containing `: SQL error ` is persisted hex-encoded under two keys and gives the 500 message, or throws with no effect when the window has no `stringToHex`; any other value is returned unchanged, so the value `true` gives `true` with no effect; a returned message is truthy and never `true` |
| ErrorClassifier.VerdictIgnoresEnv | src/utils/webSocket.js:347-377 | the verdict depends only on the error value and on whether `stringToHex` exists; storage, hooks and the date affect only the effects |
| ErrorClassifier.CheckErrorTexts | src/utils/webSocket.js:351-371 | the literal texts classify as listed: empty and absent give `null`, each token text, any `无效令牌: ` prefix and the value `true` give `true`, and SQL text gives the 500 message, or a throw without `stringToHex` |
| ErrorClassifier.NoSqlTextLeaks | src/utils/webSocket.js:366-374 | a message handed to a callback never contains SQL error text, and the 500 message classifies as itself |
| SocketClient.ParseIntJson | src/utils/webSocket.js:137 | a parsed time stamp goes out as a number or, for NaN and a missing item, as `null` |
| SocketClient.ReadCredentials | src/utils/webSocket.js:67-72 | construction fails with `Token或认证参数缺失!` exactly when neither the stored `webSocket_Token` nor the item under `tokenKey` is truthy; otherwise both are captured |
| SocketClient.LoginParams | src/utils/webSocket.js:171-182 | with a captured `wsKey`, the resumed form `{userID, WsKey, DwTime: [parseInt], isWebJson}`, using the key captured at construction; without one, `{Token, isWebJson}` |
| SocketClient.KeepAliveParams | src/utils/webSocket.js:138-145 | the keep-alive frame has exactly the keys `UserID`, `WsKey`, `DwTime`, `KeepAlive`, `isWebJson` and `Token`; user, key and time stamp are read from storage when it fires, and the token always from `rpa_micro_Token` |
| SocketClient.WithControlId | src/utils/webSocket.js:233-240 | a truthy stored control id is written to `IDD_GlobalID`, and to `ControlID` only when that key was present; a falsy one changes nothing; no other key changes |
| SocketClient.WithUpload | src/utils/webSocket.js:243-246 | an upload adds `file: {type: 'hex', data}` with the buffer's hex text; without an upload the parameters are unchanged |
| SocketClient.LoginSessionStores | src/utils/webSocket.js:191-198 | a successful login stores the reply's user, key and time stamp, and its control id only when truthy; every other stored entry is kept |
| SocketClient.KeepAliveSessionStores | src/utils/webSocket.js:150-156 | a successful keep-alive stores the new key and time stamp, and the control id only when truthy; the stored user and every other entry are kept |
| SocketClient.DwTimeRoundTrip | src/utils/webSocket.js:176-198 | a safe integral `DwTime` stored from a reply is sent back unchanged by the next keep-alive and by the next resumed login |
| SocketClient.TakeAfterRegister | src/utils/webSocket.js:328-338 | reading back an id a call registered returns that call's callback and options and removes the entry |
| SocketClient.TakeAtMostOnce | src/utils/webSocket.js:328-338 | a second read of the same id finds nothing: each callback is delivered at most once |
| SocketClient.TakeFrame | src/utils/webSocket.js:328-338 | an unknown id gives callback `null` and options `{}` and leaves the map unchanged; a known id removes that entry and no other |
| SocketClient.TakeCommutes | src/utils/webSocket.js:328-338 | replies to two distinct requests may arrive in either order with the same outcome |
| SocketClient.ErrorArgumentTruthy | src/utils/webSocket.js:309-319 | the error a callback receives is truthy when there is one, and `null` exactly when the reply's error field was falsy |
| SocketClient.LoginStepOutcome | src/utils/webSocket.js:184-205 | a login error rejects a pending connect promise held by the login and is shown, and nothing else changes; success stores the reply, sets state 2, cancels the reconnect timer and calls `regWebJsonMessage` when `mainMessages` exists; the promise is resolved and the keep-alive chain started exactly when the login holds a pending promise |
| SocketClient.KeepAliveStep | src/utils/webSocket.js:147-158 | the next keep-alive is scheduled exactly when the reply has no error; an error is shown and changes nothing else; success stores the new key, time stamp and control id; no other part of the state changes |
| SocketClient.CallbackStep | src/utils/webSocket.js:309-319 | a callback never touches the map or the effects, and a delivery to a caller is recorded exactly when the callback is a caller's |
| SocketClient.Respond | src/utils/webSocket.js:309-320 | the entry of the reply's id is removed whatever the verdict (even when the check then throws), the effects of the error check happen, and nothing goes to the message sink |
| SocketClient.FrameStep | src/utils/webSocket.js:270-278 | a frame without a truthy `IDD_lpGuid` changes nothing; one with it consumes the entry of its id |
| SocketClient.LegacyStep | src/utils/webSocket.js:283-297 | apart from the message sink, an older-shape response is routed as a JSON one; it goes to the sink exactly when no entry with a callback claims it, the check neither returned `true` nor threw, `mainMessages` exists and its message id is not 1 |
| SocketClient.UnclaimedReplyRunsNothing | src/utils/webSocket.js:309-320 | a reply whose id has no entry runs no callback and changes nothing but the error's effects |
| SocketClient.HandledReplyRunsNothing | src/utils/webSocket.js:309-317 | a reply whose error field makes the check return `true` (lost authorisation, a token error, the value `true`) or throw (SQL text without `stringToHex`) consumes its entry and runs no callback |
| SocketClient.TrueReplyIsDropped | src/utils/webSocket.js:283-315 | a reply whose error field is the value `true`, in either shape, only consumes its entry: no effect, no callback, no push |
| SocketClient.CallerReplyDelivered | src/utils/webSocket.js:309-319 | a caller's reply whose check neither returns `true` nor throws is delivered once, with the verdict on its error, and the client's own state is untouched |
| SocketClient.LoginReplyAuthenticates | src/utils/webSocket.js:184-205 | a login reply without error authenticates: state 2, the reconnect timer cancelled, the reply's ids stored, and a pending promise held by the login resolved with the keep-alive chain started |
| SocketClient.LoginReplyRejected | src/utils/webSocket.js:184-189 | a login reply with an unhandled error keeps the connection state and storage, rejects a pending promise held by the login, shows the message and starts no keep-alive |
| SocketClient.KeepAliveChain | src/utils/webSocket.js:147-158 | the reply to a keep-alive schedules the next one exactly when it has no error; an error handed to the callback ends the chain and keeps the storage |
| SocketClient.Client.constructor | src/utils/webSocket.js:60-78 | a new client has state 0, no pending request, no timer and no socket, and the address of its page |
| SocketClient.Create | src/utils/webSocket.js:67-78 | construction throws exactly when the credentials are missing; otherwise it gives a fresh client in state 0 with an empty map |
| SocketClient.Client.CheckConnect | src/utils/webSocket.js:380-387 | after a clear-then-set, exactly one probe timer is pending, due in 25000 ms |
| SocketClient.Client.ReConnect | src/utils/webSocket.js:390-401 | exactly one reconnect timer is pending, due in 2000 ms |
| SocketClient.Client.KeepAlive | src/utils/webSocket.js:131-162 | one more keep-alive timeout is pending |
| SocketClient.Client.InitWs | src/utils/webSocket.js:98-100 | an existing socket is closed before the new one opens on `<url>/ws` |
| SocketClient.Client.Init | src/utils/webSocket.js:80-89 | without WebSocket support, the client fails with the warning and changes nothing; otherwise a socket that holds the connect promise opens |
| SocketClient.Client.CallServerFunc | src/utils/webSocket.js:218-262 | the probe timer is re-armed even for a refused call; when not authenticated, a call other than the login is refused: only `网络异常` is shown, with no map entry and no frame; an accepted call adds exactly one entry, under the new id, and sends exactly one frame `{request: {method, module, id, newjson: true}, body}` with that id and the entry's parameters |
| SocketClient.Client.GetRequestConfig | src/utils/webSocket.js:328-339 | the method's effect on the map and its result are those of remove-on-read |
| SocketClient.Client.Login | src/utils/webSocket.js:171-206 | the login call registers the login callback and sends the chosen login parameters to `TCoreDM.SetWsControlByToken` |
| SocketClient.Client.OnOpen | src/utils/webSocket.js:102-109 | opening sets state 1, resets the error count and sends the login call; the top window's `reconnectReset` is called exactly when it exists |
| SocketClient.Client.OnError | src/utils/webSocket.js:115-121 | an error increments the count and reports it with the control id, exactly when the `onError` option is given; it rejects a pending connect promise held by this socket, sets state 0 and schedules a reconnect |
| SocketClient.Client.OnClose | src/utils/webSocket.js:123-127 | closing sets state 0, calls the top window's `showConnectError` exactly when it exists, and schedules a reconnect |
| SocketClient.Client.FireCheckTimer | src/utils/webSocket.js:383-386 | the probe sends `Ws.Ping` only when authenticated, otherwise shows `网络异常`; either way one probe timer is pending afterwards |
| SocketClient.Client.FireReconnectTimer | src/utils/webSocket.js:392-399 | the reconnect shows its notice and opens a new socket that holds no connect promise |
| SocketClient.Client.FireKeepAlive | src/utils/webSocket.js:137-158 | the keep-alive call passes the gate in any state and registers the keep-alive callback |
| SocketClient.Client.LoginReply | src/utils/webSocket.js:184-205 | the callback's updates of the client's fields leave it in the state `LoginStep` gives |
| SocketClient.Client.KeepAliveReply | src/utils/webSocket.js:147-158 | the callback's updates of the client's fields leave it in the state `KeepAliveStep` gives |
| SocketClient.Client.RunCallback | src/utils/webSocket.js:184-205 | invoking any callback, the caller's or the client's own, leaves the client in the state `CallbackStep` gives |
| SocketClient.Client.HandleJsonResponse | src/utils/webSocket.js:309-320 | the whole state a reply can change (map, effects, deliveries, promise, notices, storage, control id, connection state, reconnect timer, hook calls, keep-alive timers) ends as `Respond` gives for the reply's id and error field |
| SocketClient.Client.HandleMessage | src/utils/webSocket.js:270-301 | the frame is `<`-escaped and parsed; the client ends in the state `FrameStep` gives: routed as above with a truthy `IDD_lpGuid`, unchanged otherwise |
| SocketClient.Client.HandleLegacyResponse | src/utils/webSocket.js:283-297 | the client ends in the state `LegacyStep` gives |
| FlowErrorRate.CountsAreSums | src/views/chart/hooks/FetchFlowErrorRate.ts:63-85 | a scene has a counter exactly when some row maps to it, and its counts are the sums of `ExecCount` and `SuccCount` over those rows |
| FlowErrorRate.NoRowsNoSum | src/views/chart/hooks/FetchFlowErrorRate.ts:66-85 | a scene without rows sums to zero |
| FlowErrorRate.UnknownFlowIsOther | src/views/chart/hooks/FetchFlowErrorRate.ts:70 | a row whose flow has no scene, or an empty one, counts under `其他` |
| FlowErrorRate.SceneIndexLastWins | src/views/chart/hooks/FetchFlowErrorRate.ts:49-51 | the flow's scene is the one from its last entry in the list |
| FlowErrorRate.SceneIndexKeys | src/views/chart/hooks/FetchFlowErrorRate.ts:49-51 | exactly the listed flow ids are indexed |
| FlowErrorRate.AddFlowIdsNoDuplicates | src/views/chart/hooks/FetchFlowErrorRate.ts:54-60 | no per-scene flow-id list holds a duplicate |
| FlowErrorRate.AddFlowIdsKeepsPrefix | src/views/chart/hooks/FetchFlowErrorRate.ts:54-60 | lists only grow at the end, so first-seen order is kept across replies |
| FlowErrorRate.AddFlowIdsKeys | src/views/chart/hooks/FetchFlowErrorRate.ts:54-58 | a scene has a list exactly when it had one or some item names it (`其他` for an empty name) |
| FlowErrorRate.AddFlowIdsMembers | src/views/chart/hooks/FetchFlowErrorRate.ts:54-60 | a flow id is in a scene's list exactly when it was before or some item files it there |
| FlowErrorRate.CountsToList | src/views/chart/hooks/FetchFlowErrorRate.ts:86-92 | the output list holds exactly one entry per scene, with that scene's counts |
| FlowErrorRate.SumRows | src/views/chart/hooks/FetchFlowErrorRate.ts:63-85 | the cursor loop ends with one counter per scene that has rows, holding the sums over its rows |
| FlowErrorRate.FlowErrorRateHook.constructor | src/views/chart/hooks/FetchFlowErrorRate.ts:24-26 | the hook starts with an empty list and an empty map |
| FlowErrorRate.FlowErrorRateHook.HandleReply | src/views/chart/hooks/FetchFlowErrorRate.ts:47-92 | the reply extends the flow-id lists, and the list is emptied and refilled with one entry per scene holding the sums |
| DemandOverview.FetchRequest | src/views/chart/hooks/FetchDemandOverview.ts:42-48 | nothing is requested when either date is empty; otherwise both dates and the role id are sent |
| DemandOverview.AppearsSplit | src/views/chart/hooks/FetchDemandOverview.ts:61-76 | a user appears in a table exactly when they appear in its prefix or in its last row |
| DemandOverview.NamesDefined | src/views/chart/hooks/FetchDemandOverview.ts:62-72 | a user has a first and a last name exactly when they appear |
| DemandOverview.FirstNameIsFirstRow | src/views/chart/hooks/FetchDemandOverview.ts:62-72 | the first name is that of the user's first row, `其他` when empty |
| DemandOverview.MergeKeys | src/views/chart/hooks/FetchDemandOverview.ts:65-73 | a table read adds exactly the users that appear in it |
| DemandOverview.MergeCounts | src/views/chart/hooks/FetchDemandOverview.ts:61-76 | the table's counter is overwritten by the user's last row, and the other counter is kept |
| DemandOverview.MergeName | src/views/chart/hooks/FetchDemandOverview.ts:65-92 | an entry keeps the name it was created with |
| DemandOverview.NameFoldSpec | src/views/chart/hooks/FetchDemandOverview.ts:61-95 | the id-to-name map holds the name from the user's last row, and earlier names for users not in the table |
| DemandOverview.OverviewSpec | src/views/chart/hooks/FetchDemandOverview.ts:58-95 | one entry per user in either table; its counts are the last `iCount` in each table (0 when absent); its name is from the first row seen |
| DemandOverview.LastCountAbsent | src/views/chart/hooks/FetchDemandOverview.ts:69-70 | an absent user's count is 0 |
| DemandOverview.EntriesToList | src/views/chart/hooks/FetchDemandOverview.ts:97 | the output list holds exactly one entry per user, with that user's counts and name |
| DemandOverview.DemandOverviewHook.constructor | src/views/chart/hooks/FetchDemandOverview.ts:27-29 | the hook starts with an empty list and an empty map |
| DemandOverview.DemandOverviewHook.ReadTable | src/views/chart/hooks/FetchDemandOverview.ts:59-95 | one cursor loop computes the table merge and the name map of its fold functions |
| DemandOverview.DemandOverviewHook.HandleReply | src/views/chart/hooks/FetchDemandOverview.ts:58-97 | the name map is folded over both tables, and the list is emptied and refilled with exactly one entry per user of the merged counts |
| ExecFlow.ParamNames | src/views/demo/execFlow.js:79-83 | the names list has one entry per parameter, in input order |
| ExecFlow.KeysDistinct | src/views/demo/execFlow.js:77-78 | the two key families never collide, and each determines its name |
| ExecFlow.LastValueWins | src/views/demo/execFlow.js:73-78 | both keys of a name hold the value of its last parameter |
| ExecFlow.ParamValuesKeys | src/views/demo/execFlow.js:72-78 | the dictionary holds exactly the two keys of each parameter name |
| ExecFlow.DuplicateName | src/views/demo/execFlow.js:77-79 | a repeated name is listed twice but keeps only the later value |
| ExecFlow.RobotRoundTrip | src/views/demo/execFlow.js:41-45 | the agent and map groups can be read back from the `{Robot}{…}{…}` tag |
| ExecFlow.FormData.constructor | src/views/demo/execFlow.js:29-38 | the form copies the flow id, execution id and queue fields, with `iType` 0 and `WebJson` true |
| ExecFlow.SetFlowParamToPar | src/views/demo/execFlow.js:69-85 | an empty list leaves the form unchanged; otherwise the form gets the parameter dictionary and both name lists |
| ExecFlow.SetFlowParamsAndToQueue | src/views/demo/execFlow.js:25-50 | the queue form, with `Robot` set exactly when `R_QueueFlow` or `R_AgentID` is truthy, and then the parameters |
| EslintConfig.DowngradeValue | eslint.config.js:120-126 | no result is an error severity; `'error'` becomes `'warn'`; an array led by `'error'` keeps its other elements; every other value is unchanged |
| EslintConfig.DowngradeRules | eslint.config.js:118-127 | the loop keeps every rule id, in order, and downgrades each value |
| EslintConfig.DowngradeSpec | eslint.config.js:115-130 | same length; a config without rules is returned as is; the other fields are kept; no output rule is an error |
| EslintConfig.DowngradeIdempotent | eslint.config.js:115-130 | downgrading twice is the same as once |
| ViteConfig.ManualChunksSpec | vite.config.ts:62-66 | no chunk for ids without `node_modules`; a throw for ids with `node_modules` but no `node_modules/`; otherwise the package directory after the first `node_modules/` |
| ViteConfig.PackageDirOfRest | vite.config.ts:64 | the split-and-index chain yields the package directory |
| ViteConfig.PackageDirUnique | vite.config.ts:64 | the package directory is unique |
| ViteConfig.ScopedPackageChunk | vite.config.ts:64 | a scoped package yields only its scope |
| ViteConfig.ChunkFileNames | vite.config.ts:75-78 | every name is `js/<dir>/[name].js` with a non-empty directory free of `/` |
| ViteConfig.ChunkFileNamesParentDir | vite.config.ts:76-77 | a path `x/d/y` is filed under `d`, or under `[name]` when `d` is empty |
| ViteConfig.ChunkFileNamesTopDir | vite.config.ts:76-77 | a path `d/y` is filed under `d` |
| ViteConfig.ChunkFileNamesFallback | vite.config.ts:76-77 | without an id, or with a one-part id, the chunk is filed under `[name]` |
| ViteConfig.ReplaceLeading | vite.config.ts:104 | an anchored replacement touches only a leading prefix |
| ViteConfig.RewriteApi | vite.config.ts:104 | a leading `/api` is stripped once; other paths pass unchanged |
| ViteConfig.RewriteGet | vite.config.ts:113 | a leading `/get` is stripped once; other paths pass unchanged |
| ViteConfig.RewriteKingAutomate | vite.config.ts:118 | every path is kept |

## Left out

- Browser plumbing is modelled only as logs: `new WebSocket`, `send`/`close`, `ElMessage`, `alert`, navigation, `sessionStorage`/`localStorage` writes of `checkError` and the top window's hooks.
- `getTopWindow` (`src/utils/webSocket.js:482-498`): it walks cross-origin window ancestry under `try`/`catch`. The model takes its result as given, in the hook flags of `Host`.
- Real time and asynchrony are not modelled: `setTimeout`, promises and microtask order. Timers are pending deadlines that the `Fire…` methods consume.
  - The file-upload `await` can let other events run between the gate and the send. This is not modelled: the upload is already read when `CallServerFunc` starts.
  - `options.isUploadFunc && options.fileObj` is represented by whether the upload bytes are present.
- Events from a socket that has since been replaced are not modelled: handlers act on the client's current state.
- Sending on a socket that is still connecting is logged as a send. The browser would refuse it.
- `CallServerFunc` with no socket at all registers the entry without sending, where the source throws inside its promise after registering.
- `JSON.parse` is a parameter. `JSON.stringify` is not modelled: frames stay structured values.
  - The object branch of `parseWebJson` (a non-string argument) is not modelled, because socket frames are text.
- `stringToHex` of the top window is a parameter, `None` when the window has none. Its code is not part of this model.
- Numbers are unbounded integers. JavaScript doubles, fractions and the exponent form that `String(n)` writes from 10^21 on are not modelled. The round-trip lemmas `Common.DecimalRoundTrip` and `SocketClient.DwTimeRoundTrip` are stated for safe integers, which a double holds exactly.
- The `parseInt` model reads only optional-sign decimal text. Leading whitespace and the `0x` form are not modelled.
- The older response shape is an abstract record: its `getRequestId`, `getReturn` and `getMsgId` results, with the message id taken as an integer.
- `params` is mutated in place and shared with the caller in the source. The model builds a new dictionary, so aliasing is not captured.
- Property order is not modelled for JavaScript objects whose keys look like integers. The hooks' output lists are stated order-free: one entry per key.
- Prototype-inherited keys (`flowIdAsScenesName['constructor']`) are not modelled.
- `errorRate` and `numFixedExcept0` (`src/views/chart/hooks/FetchFlowErrorRate.ts:86-90`) are left out because they use floating point.
- Vue glue is left out: `watch`, `reactive`, `nextTick` and `isLoading`.
- `SQLTable` is left out, because its code is not part of this model; its rows are a sequence.
- `getFlowInfo`, `startFlow` and the `hexToString`/`parseWebJson` decoding of the flow data in `execFlow.js` are calls into a library whose code is not part of this model. The flow data arrives already decoded.
- The rest of the bundler and lint configuration is static wiring without logic.
- ExecFlow.Param: keys and values are texts or absent. A numeric or boolean key or value is not modelled: `||` turns `0` and `false` into empty text, and the template string writes any other number as its decimal text.
- SocketClient.Client.OnError: the error object passed to `options.onError` is not recorded, only the control id and the count.
- SocketCodec.GetGuid: `Math.random` is replaced by 32 given nibbles. The uneven frequency of the variant digit is stated as a property of `VariantNibble` (`SocketCodec.VariantBias`), not as a distribution.
