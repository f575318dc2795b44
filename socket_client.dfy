/** The socket RPC client `CreateWebSocket`: the request correlator, the
    connection state machine, the two debounced timers and the keep-alive
    chain, the login credential choice and the routing of incoming frames.
    The socket itself, the browser's dialogs and hooks and the clock are
    replaced by logs the methods append to and by parameters. */
module SocketClient {
  import opened Common
  import SocketCodec
  import opened ErrorClassifier

  /** The reply keys of the new JSON shape. */
  const LpGuid := "{12455C51-A578-4538-8105-CF984177BBDD}"
  const ReturnKey := "{50043442-8A69-4A6B-A8B5-61F882EDE4F3}"

  const LoginMethod := "SetWsControlByToken"
  const CoreModule := "TCoreDM"
  const NetworkError := "网络异常"
  const Reconnecting := "正在重新连接..."
  const MissingCredentials := "Token或认证参数缺失!"
  const NoWebSocket := "警告：当前浏览器不支持WebSocket"

  /** Timer delays, in milliseconds. */
  const CheckDelay := 25000
  const ReconnectDelay := 2000
  const KeepAliveDelay := 30000

  // ---------------------------------------------------------------------
  // Session storage and the values read from it

  /** `sessionStorage.getItem(key)`, `None` for `null`. */
  function Get(session: map<string, string>, key: string): Option<string> {
    if key in session then Some(session[key]) else None
  }

  /** A stored item as a JSON value: `null` when absent. */
  function ItemJson(v: Option<string>): Json {
    if v.Some? then JStr(v.value) else JNull
  }

  /** `parseInt` of a stored item as it goes out in a frame: `NaN` (also for an
      absent item, read as the text "null") is written as `null`. */
  function ParseIntJson(v: Option<string>): (r: Json)
    ensures r.JNum? || r.JNull?
  {
    match ParseDecimal(if v.Some? then v.value else "null")
    case Some(n) => JNum(n)
    case None => JNull
  }

  datatype Result<T> = Ok(value: T) | Fail(message: string)

  /** The credentials read once, by the constructor. */
  datatype Credentials = Credentials(wsKey: string, token: Option<string>)

  /** The credential check of the constructor: the stored `webSocket_Token`
      (or `''`) and the item under `tokenKey`; it throws when neither is
      truthy. */
  function ReadCredentials(session: map<string, string>, tokenKey: string): (r: Result<Credentials>)
    ensures r.Fail? <==> Get(session, "webSocket_Token") in {None, Some("")} && Get(session, tokenKey) in {None, Some("")}
    ensures r.Fail? ==> r.message == MissingCredentials
    ensures r.Ok? ==> r.value.wsKey == (if "webSocket_Token" in session then session["webSocket_Token"] else "")
                      && r.value.token == Get(session, tokenKey)
  {
    var wsKey := if "webSocket_Token" in session then session["webSocket_Token"] else "";
    var token := Get(session, tokenKey);
    if (token.None? || token.value == "") && wsKey == "" then Fail(MissingCredentials)
    else Ok(Credentials(wsKey, token))
  }

  /** The login parameters: the resumed form with the stored user, the
      constructor's `wsKey` and the stored time stamp when `wsKey` is truthy,
      otherwise the token form. */
  function LoginParams(creds: Credentials, session: map<string, string>): (r: map<string, Json>)
    ensures "isWebJson" in r && r["isWebJson"] == JBool(true)
    ensures creds.wsKey != "" ==> r.Keys == {"userID", "WsKey", "DwTime", "isWebJson"}
                                  && r["WsKey"] == JStr(creds.wsKey)
                                  && r["userID"] == ItemJson(Get(session, "user"))
                                  && r["DwTime"] == JArr([ParseIntJson(Get(session, "webSocket_DWTime"))])
    ensures creds.wsKey == "" ==> r.Keys == {"Token", "isWebJson"} && r["Token"] == ItemJson(creds.token)
  {
    if creds.wsKey != "" then
      map["userID" := ItemJson(Get(session, "user")),
          "WsKey" := JStr(creds.wsKey),
          "DwTime" := JArr([ParseIntJson(Get(session, "webSocket_DWTime"))]),
          "isWebJson" := JBool(true)]
    else
      map["Token" := ItemJson(creds.token), "isWebJson" := JBool(true)]
  }

  /** The keep-alive parameters, all read from storage at the time the timer
      fires; the token is always read under `rpa_micro_Token`. */
  function KeepAliveParams(session: map<string, string>): (r: map<string, Json>)
    ensures r.Keys == {"UserID", "WsKey", "DwTime", "KeepAlive", "isWebJson", "Token"}
    ensures r["UserID"] == ItemJson(Get(session, "user"))
    ensures r["WsKey"] == ItemJson(Get(session, "webSocket_Token"))
    ensures r["Token"] == ItemJson(Get(session, "rpa_micro_Token"))
    ensures r["DwTime"] == JArr([ParseIntJson(Get(session, "webSocket_DWTime"))])
    ensures r["KeepAlive"] == JBool(true) && r["isWebJson"] == JBool(true)
  {
    map["UserID" := ItemJson(Get(session, "user")),
        "WsKey" := ItemJson(Get(session, "webSocket_Token")),
        "DwTime" := JArr([ParseIntJson(Get(session, "webSocket_DWTime"))]),
        "KeepAlive" := JBool(true),
        "isWebJson" := JBool(true),
        "Token" := ItemJson(Get(session, "rpa_micro_Token"))]
  }

  /** The stored control id, when truthy, is written to `IDD_GlobalID`, and to
      `ControlID` only if the caller's parameters already have that key. */
  function WithControlId(params: map<string, Json>, session: map<string, string>): (r: map<string, Json>)
    ensures var c := Get(session, "ws_control_id");
            && (c.None? || c.value == "" ==> r == params)
            && (c.Some? && c.value != "" ==>
                  && r.Keys == params.Keys + {"IDD_GlobalID"}
                  && r["IDD_GlobalID"] == JStr(c.value)
                  && ("ControlID" in params ==> r["ControlID"] == JStr(c.value)))
    ensures forall k :: k in params && k != "IDD_GlobalID" && k != "ControlID" ==> r[k] == params[k]
  {
    var c := Get(session, "ws_control_id");
    if c.Some? && c.value != "" then
      var withGlobal := params["IDD_GlobalID" := JStr(c.value)];
      if "ControlID" in params then withGlobal["ControlID" := JStr(c.value)] else withGlobal
    else params
  }

  /** The upload field: `{type: 'hex', data: arrayBufferToHex(buff)}`. */
  function WithUpload(params: map<string, Json>, upload: Option<seq<Byte>>): (r: map<string, Json>)
    ensures upload.None? ==> r == params
    ensures upload.Some? ==> r == params["file" := JObj(map["type" := JStr("hex"), "data" := JStr(SocketCodec.ArrayBufferToHex(upload.value))])]
  {
    if upload.Some? then
      params["file" := JObj(map["type" := JStr("hex"), "data" := JStr(SocketCodec.ArrayBufferToHex(upload.value))])]
    else params
  }

  /** The text `setItem` stores for the login and keep-alive replies. */
  function Field(fields: map<string, Json>, key: string): Option<Json> {
    if key in fields then Some(fields[key]) else None
  }

  /** Storage after a successful login reply. */
  function LoginSession(session: map<string, string>, fields: map<string, Json>): map<string, string> {
    var s := if TruthyField(Field(fields, "ControlID")) then session["ws_control_id" := FieldText(Field(fields, "ControlID"))]
             else session;
    s["user" := FieldText(Field(fields, "UserID"))]
     ["webSocket_Token" := FieldText(Field(fields, "WsKey"))]
     ["webSocket_DWTime" := FieldText(Field(fields, "DwTime"))]
  }

  /** A successful login stores the reply's user, key and time stamp, as
      `setItem` writes them, and its control id only when that is truthy;
      every other entry is kept. */
  lemma LoginSessionStores(session: map<string, string>, fields: map<string, Json>)
    ensures var r := LoginSession(session, fields);
            && r.Keys == session.Keys + {"user", "webSocket_Token", "webSocket_DWTime"}
                         + (if TruthyField(Field(fields, "ControlID")) then {"ws_control_id"} else {})
            && r["user"] == FieldText(Field(fields, "UserID"))
            && r["webSocket_Token"] == FieldText(Field(fields, "WsKey"))
            && r["webSocket_DWTime"] == FieldText(Field(fields, "DwTime"))
            && (TruthyField(Field(fields, "ControlID")) ==> r["ws_control_id"] == FieldText(Field(fields, "ControlID")))
    ensures forall k :: k in session && k !in {"user", "webSocket_Token", "webSocket_DWTime", "ws_control_id"} ==>
              LoginSession(session, fields)[k] == session[k]
  {
  }

  /** Storage after a successful keep-alive reply. */
  function KeepAliveSession(session: map<string, string>, fields: map<string, Json>): map<string, string> {
    var s := session["webSocket_Token" := FieldText(Field(fields, "WsKey"))]
                    ["webSocket_DWTime" := FieldText(Field(fields, "DwTime"))];
    if TruthyField(Field(fields, "ControlID")) then s["ws_control_id" := FieldText(Field(fields, "ControlID"))] else s
  }

  /** A successful keep-alive stores the new key and time stamp, and the
      control id only when truthy; the stored user and every other entry are
      kept. */
  lemma KeepAliveSessionStores(session: map<string, string>, fields: map<string, Json>)
    ensures var r := KeepAliveSession(session, fields);
            && r.Keys == session.Keys + {"webSocket_Token", "webSocket_DWTime"}
                         + (if TruthyField(Field(fields, "ControlID")) then {"ws_control_id"} else {})
            && r["webSocket_Token"] == FieldText(Field(fields, "WsKey"))
            && r["webSocket_DWTime"] == FieldText(Field(fields, "DwTime"))
            && (TruthyField(Field(fields, "ControlID")) ==> r["ws_control_id"] == FieldText(Field(fields, "ControlID")))
    ensures forall k :: k in session && k !in {"webSocket_Token", "webSocket_DWTime", "ws_control_id"} ==>
              KeepAliveSession(session, fields)[k] == session[k]
  {
  }

  /** An integral `DwTime` stored by a login or keep-alive reply goes out
      unchanged in the next keep-alive frame and the next resumed login, as
      long as it is a safe integer, which a double holds exactly. */
  lemma DwTimeRoundTrip(session: map<string, string>, fields: map<string, Json>, n: int, creds: Credentials)
    requires Field(fields, "DwTime") == Some(JNum(n))
    requires -MaxSafeInteger <= n <= MaxSafeInteger
    requires creds.wsKey != ""
    ensures KeepAliveParams(KeepAliveSession(session, fields))["DwTime"] == JArr([JNum(n)])
    ensures KeepAliveParams(LoginSession(session, fields))["DwTime"] == JArr([JNum(n)])
    ensures LoginParams(creds, LoginSession(session, fields))["DwTime"] == JArr([JNum(n)])
  {
    DecimalRoundTrip(n);
    LoginSessionStores(session, fields);
    KeepAliveSessionStores(session, fields);
  }

  // ---------------------------------------------------------------------
  // Frames, callbacks and the correlator

  datatype RequestHeader = RequestHeader(methodName: string, moduleName: string, id: string, newjson: bool)

  /** `{request, body}` before `JSON.stringify`. */
  datatype Frame = Frame(request: RequestHeader, body: map<string, Json>)

  /** What the client does to its socket. */
  datatype Transport = OpenSocket(url: string) | CloseSocket | Send(frame: Frame)

  /** The callbacks a request can carry: the login and keep-alive callbacks of
      the client itself (the login one knowing whether it holds the connect
      promise's `resolve`/`reject`), or one of the caller's, by number. */
  datatype Callback = LoginCallback(withWaiter: bool) | KeepAliveCallback | CallerCallback(n: nat)

  /** One value of `requestDataMap`. */
  datatype Pending = Pending(callback: Option<Callback>, params: map<string, Json>, options: map<string, Json>)

  /** What `getRequestConfig` returns. */
  datatype RequestConfig = RequestConfig(options: map<string, Json>, callback: Option<Callback>)

  const NoConfig := RequestConfig(map[], None)

  /** `getRequestConfig` on a map value: remove-on-read. */
  function Take(m: map<string, Pending>, id: Option<string>): (r: (map<string, Pending>, RequestConfig)) {
    if id.Some? && id.value in m then (m - {id.value}, RequestConfig(m[id.value].options, m[id.value].callback))
    else (m, NoConfig)
  }

  /** Reading an id registered by a call returns that call's callback and
      options and removes the entry. */
  lemma TakeAfterRegister(m: map<string, Pending>, id: string, p: Pending)
    ensures Take(m[id := p], Some(id)) == (m - {id}, RequestConfig(p.options, p.callback))
  {
    assert m[id := p] - {id} == m - {id};
  }

  /** A callback is delivered at most once: a second read of the same id finds
      nothing. */
  lemma TakeAtMostOnce(m: map<string, Pending>, id: Option<string>)
    ensures Take(Take(m, id).0, id).1 == NoConfig
    ensures id.Some? ==> id.value !in Take(m, id).0
  {
  }

  /** An unknown id yields no callback and `{}` options and leaves the map
      as it was; a known one removes that entry and no other. */
  lemma TakeFrame(m: map<string, Pending>, id: Option<string>)
    ensures (id.None? || id.value !in m) <==> Take(m, id) == (m, NoConfig)
    ensures forall k :: k in m && Some(k) != id ==> k in Take(m, id).0 && Take(m, id).0[k] == m[k]
    ensures forall k :: k in Take(m, id).0 ==> k in m
  {
    if id.Some? && id.value in m {
      assert id.value !in Take(m, id).0;
    }
  }

  /** Replies to distinct requests may arrive in either order. */
  lemma TakeCommutes(m: map<string, Pending>, a: string, b: string)
    requires a != b
    ensures Take(Take(m, Some(a)).0, Some(b)).0 == Take(Take(m, Some(b)).0, Some(a)).0
    ensures Take(Take(m, Some(a)).0, Some(b)).1 == Take(m, Some(b)).1
  {
  }

  /** The map key a reply's id can match: keys are strings. */
  function KeyOf(v: Option<Json>): Option<string> {
    if v.Some? && v.value.JStr? then Some(v.value.s) else None
  }

  /** The property of a parsed frame, when it is an object that has it. */
  function FieldOf(v: Json, key: string): Option<Json> {
    if v.JObj? && key in v.fields then Some(v.fields[key]) else None
  }

  /** A response of the older shape, as an abstract record: what its
      `getRequestId`, `getReturn` and `getMsgId` give, and its own fields. */
  datatype LegacyResponse = LegacyResponse(requestId: Json, ret: Option<Json>, msgId: int, fields: map<string, Json>)

  datatype Reply = JsonReply(json: Json) | LegacyReply(legacy: LegacyResponse)

  /** The properties a callback reads off its response. */
  function FieldsOf(reply: Reply): map<string, Json> {
    match reply
    case JsonReply(v) => if v.JObj? then v.fields else map[]
    case LegacyReply(r) => r.fields
  }

  /** A caller's callback invoked with `(response, errorMsg)`. */
  datatype Delivery = Delivery(n: nat, reply: Reply, errorMsg: Verdict)

  /** A message handed to `mainMessages.getSocketMessages`. */
  datatype Push = Push(response: LegacyResponse, errorMsg: Verdict)

  /** The optional hooks of the top window and of the options, when called. */
  datatype HostCall = ReconnectReset | ShowConnectError | RegWebJsonMessage | ReportError(controlId: Json, errorCount: nat)

  /** What the handlers read from the top window and the clock: which of the
      optional hooks exist (each is called through `?.`), and the date as
      text. */
  datatype Host = Host(hasTokenLoseHook: bool, hasMainMessages: bool, hasReconnectReset: bool,
                       hasShowConnectError: bool, dateText: string)

  /** `connectState`: 0 unconnected, 1 connected, 2 authenticated. */
  datatype ConnectState = Unconnected | Connected | Authenticated {
    function Code(): int {
      match this
      case Unconnected => 0
      case Connected => 1
      case Authenticated => 2
    }
  }

  /** The promise `init` awaits. */
  datatype Waiter = NoWaiter | Waiting | Resolved | Rejected

  /** The gate of `callServerFunc`: only the login method passes before
      authentication. */
  predicate Accepts(state: ConnectState, methodName: string) {
    state.Code() == 2 || methodName == LoginMethod
  }

  /** Whether a reply error reaches callbacks as `error` (a truthy value). */
  lemma ErrorArgumentTruthy(errorMsg: Option<Json>, env: Env, stringToHex: Option<string -> string>)
    ensures var v := CheckError(errorMsg, env, stringToHex).0;
            (v.Message? ==> Truthy(v.msg)) && (v.NoError? ==> !TruthyField(errorMsg))
  {
  }

  // ---------------------------------------------------------------------
  // The routing of replies, on values

  /** The part of the client that the arrival of a reply can change. */
  datatype RouteState = RouteState(
    requestDataMap: map<string, Pending>,
    effects: seq<Effect>,
    deliveries: seq<Delivery>,
    pushes: seq<Push>,
    waiter: Waiter,
    notices: seq<Json>,
    session: map<string, string>,
    controlId: Json,
    connectState: ConnectState,
    reConnectTimer: Option<int>,
    hostCalls: seq<HostCall>,
    keepAliveTimers: nat)

  /** What the error check reads: the stored logout address and the host. */
  function EnvOf(s: RouteState, host: Host): Env {
    Env(Get(s.session, "LogoutUrl"), host.hasTokenLoseHook, host.dateText)
  }

  /** `controlId` after a reply: replaced only by a truthy `ControlID`. */
  function NextControlId(current: Json, fields: map<string, Json>): Json {
    if TruthyField(Field(fields, "ControlID")) then fields["ControlID"] else current
  }

  /** Whether the login callback holds a connect promise that is still
      pending. */
  predicate Settles(s: RouteState, withWaiter: bool) {
    withWaiter && s.waiter == Waiting
  }

  /** The login callback. An error rejects the connect promise (when held and
      pending) and is shown, and nothing else changes. Success stores the
      reply's ids, authenticates, cancels the reconnect timer, registers the
      JSON message sink when there is one and resolves the promise, after
      which `init` starts the keep-alive chain. */
  function LoginStep(s: RouteState, withWaiter: bool, fields: map<string, Json>, errorMsg: Verdict, host: Host): RouteState
  {
    if errorMsg.Message? then
      s.(waiter := if Settles(s, withWaiter) then Rejected else s.waiter, notices := s.notices + [errorMsg.msg])
    else
      s.(session := LoginSession(s.session, fields),
         controlId := NextControlId(s.controlId, fields),
         connectState := Authenticated,
         reConnectTimer := None,
         hostCalls := s.hostCalls + (if host.hasMainMessages then [RegWebJsonMessage] else []),
         waiter := if Settles(s, withWaiter) then Resolved else s.waiter,
         keepAliveTimers := s.keepAliveTimers + (if Settles(s, withWaiter) then 1 else 0))
  }

  /** What the login callback does: an error only rejects and shows; success
      authenticates, and resolves a pending promise it holds, starting the
      keep-alive chain, exactly when it holds one. */
  lemma LoginStepOutcome(s: RouteState, withWaiter: bool, fields: map<string, Json>, errorMsg: Verdict, host: Host)
    ensures var r := LoginStep(s, withWaiter, fields, errorMsg, host);
            r.requestDataMap == s.requestDataMap && r.effects == s.effects && r.deliveries == s.deliveries && r.pushes == s.pushes
    ensures var r := LoginStep(s, withWaiter, fields, errorMsg, host);
            errorMsg.Message? ==>
              r == s.(waiter := if Settles(s, withWaiter) then Rejected else s.waiter, notices := s.notices + [errorMsg.msg])
    ensures var r := LoginStep(s, withWaiter, fields, errorMsg, host);
            !errorMsg.Message? ==>
              && r.connectState.Code() == 2 && r.reConnectTimer.None? && r.notices == s.notices
              && r.session == LoginSession(s.session, fields)
              && r.controlId == NextControlId(s.controlId, fields)
              && r.hostCalls == s.hostCalls + (if host.hasMainMessages then [RegWebJsonMessage] else [])
    ensures var r := LoginStep(s, withWaiter, fields, errorMsg, host);
            !errorMsg.Message? ==>
              (r.waiter == Resolved && r.keepAliveTimers == s.keepAliveTimers + 1 <==> Settles(s, withWaiter))
    ensures var r := LoginStep(s, withWaiter, fields, errorMsg, host);
            !errorMsg.Message? && !Settles(s, withWaiter) ==> r.waiter == s.waiter && r.keepAliveTimers == s.keepAliveTimers
  {
  }

  /** The keep-alive callback. An error is shown and ends the chain; success
      stores the new key and time stamp (and control id), then schedules the
      next keep-alive. Nothing else changes. */
  function KeepAliveStep(s: RouteState, fields: map<string, Json>, errorMsg: Verdict): (r: RouteState)
    ensures r.keepAliveTimers == s.keepAliveTimers + 1 <==> !errorMsg.Message?
    ensures errorMsg.Message? ==> r.keepAliveTimers == s.keepAliveTimers
    ensures r.notices == s.notices + (if errorMsg.Message? then [errorMsg.msg] else [])
    ensures r.session == (if errorMsg.Message? then s.session else KeepAliveSession(s.session, fields))
    ensures r.controlId == (if errorMsg.Message? then s.controlId else NextControlId(s.controlId, fields))
    ensures r.(notices := s.notices, session := s.session, controlId := s.controlId, keepAliveTimers := s.keepAliveTimers) == s
  {
    if errorMsg.Message? then
      s.(notices := s.notices + [errorMsg.msg])
    else
      s.(session := KeepAliveSession(s.session, fields),
         controlId := NextControlId(s.controlId, fields),
         keepAliveTimers := s.keepAliveTimers + 1)
  }

  /** A callback invoked with `(response, errorMsg)`: the caller's are
      recorded, the client's own run. The correlator and the effects are
      not touched. */
  function CallbackStep(s: RouteState, cb: Callback, reply: Reply, errorMsg: Verdict, host: Host): (r: RouteState)
    ensures r.requestDataMap == s.requestDataMap && r.effects == s.effects && r.pushes == s.pushes
    ensures cb.CallerCallback? <==> r.deliveries != s.deliveries
  {
    match cb
    case CallerCallback(n) => s.(deliveries := s.deliveries + [Delivery(n, reply, errorMsg)])
    case LoginCallback(withWaiter) => LoginStep(s, withWaiter, FieldsOf(reply), errorMsg, host)
    case KeepAliveCallback => KeepAliveStep(s, FieldsOf(reply), errorMsg)
  }

  /** What both response shapes share: the entry of the reply's id is taken
      out first, the error field is classified and its effects happen; a
      verdict of `true`, or a throw, stops there, and otherwise the entry's
      callback, if any, runs. */
  function Respond(s: RouteState, id: Option<string>, errorField: Option<Json>, reply: Reply, host: Host,
                   stringToHex: Option<string -> string>): (r: RouteState)
    ensures r.requestDataMap == Take(s.requestDataMap, id).0
    ensures r.effects == s.effects + CheckError(errorField, EnvOf(s, host), stringToHex).1
    ensures r.pushes == s.pushes
  {
    var taken := Take(s.requestDataMap, id);
    var verdict := CheckError(errorField, EnvOf(s, host), stringToHex);
    var s1 := s.(requestDataMap := taken.0, effects := s.effects + verdict.1);
    if Stops(verdict.0) || taken.1.callback.None? then s1
    else CallbackStep(s1, taken.1.callback.value, reply, verdict.0, host)
  }

  /** `handleJsonResponse` on a parsed frame. */
  function JsonStep(s: RouteState, jsonData: Json, host: Host, stringToHex: Option<string -> string>): RouteState {
    Respond(s, KeyOf(FieldOf(jsonData, LpGuid)), FieldOf(jsonData, ReturnKey), JsonReply(jsonData), host, stringToHex)
  }

  /** `handleMessage` on a text frame: a frame whose id key is not truthy
      changes nothing. */
  function FrameStep(s: RouteState, data: seq<SocketCodec.CodeUnit>, parse: seq<SocketCodec.CodeUnit> -> Option<Json>,
                     host: Host, stringToHex: Option<string -> string>): (r: RouteState)
    ensures !TruthyField(FieldOf(SocketCodec.DecodeFrame(data, parse), LpGuid)) ==> r == s
    ensures TruthyField(FieldOf(SocketCodec.DecodeFrame(data, parse), LpGuid)) ==>
              r.requestDataMap == Take(s.requestDataMap, KeyOf(FieldOf(SocketCodec.DecodeFrame(data, parse), LpGuid))).0
  {
    var jsonData := SocketCodec.DecodeFrame(data, parse);
    if TruthyField(FieldOf(jsonData, LpGuid)) then JsonStep(s, jsonData, host, stringToHex) else s
  }

  /** A response of the older shape: routed as a JSON one, except that a
      response that no entry with a callback claims, and that the check does
      not stop, goes to the message sink when there is one and its message id
      is not 1. */
  function LegacyStep(s: RouteState, response: LegacyResponse, host: Host, stringToHex: Option<string -> string>): (r: RouteState)
    ensures r.(pushes := s.pushes) == Respond(s, KeyOf(Some(response.requestId)), response.ret, LegacyReply(response), host, stringToHex)
    ensures var verdict := CheckError(response.ret, EnvOf(s, host), stringToHex).0;
            var noCallback := Take(s.requestDataMap, KeyOf(Some(response.requestId))).1.callback.None?;
            r.pushes == s.pushes + (if !Stops(verdict) && noCallback && host.hasMainMessages && response.msgId != 1
                                    then [Push(response, verdict)] else [])
  {
    var id := KeyOf(Some(response.requestId));
    var verdict := CheckError(response.ret, EnvOf(s, host), stringToHex).0;
    var r := Respond(s, id, response.ret, LegacyReply(response), host, stringToHex);
    if !Stops(verdict) && Take(s.requestDataMap, id).1.callback.None? && host.hasMainMessages && response.msgId != 1 then
      r.(pushes := s.pushes + [Push(response, verdict)])
    else r
  }

  /** A reply whose id has no entry (already answered, or never sent) runs no
      callback: only the effects of its error happen. */
  lemma UnclaimedReplyRunsNothing(s: RouteState, id: Option<string>, errorField: Option<Json>, reply: Reply, host: Host,
                                  stringToHex: Option<string -> string>)
    requires id.None? || id.value !in s.requestDataMap
    ensures Respond(s, id, errorField, reply, host, stringToHex)
            == s.(effects := s.effects + CheckError(errorField, EnvOf(s, host), stringToHex).1)
  {
  }

  /** An error field that makes the check return `true` (a lost authorisation,
      a token error, or the value `true` itself), or makes it throw (SQL error
      text with no encoder), stops the routing: the entry is consumed and no
      callback runs. */
  lemma HandledReplyRunsNothing(s: RouteState, id: Option<string>, errorField: Option<Json>, reply: Reply, host: Host,
                                stringToHex: Option<string -> string>)
    requires TruthyField(errorField)
    requires || errorField.value == JStr(AuthLost) || IsTokenError(errorField.value) || errorField.value == JBool(true)
             || (IsSqlError(errorField.value) && stringToHex.None?)
    ensures Respond(s, id, errorField, reply, host, stringToHex)
            == s.(requestDataMap := Take(s.requestDataMap, id).0,
                  effects := s.effects + CheckError(errorField, EnvOf(s, host), stringToHex).1)
  {
  }

  /** A reply whose error field is the value `true`, in either shape, only
      consumes its entry: no effect, no callback and no push. */
  lemma TrueReplyIsDropped(s: RouteState, jsonData: Json, response: LegacyResponse, host: Host,
                           stringToHex: Option<string -> string>)
    requires FieldOf(jsonData, ReturnKey) == Some(JBool(true)) && response.ret == Some(JBool(true))
    ensures JsonStep(s, jsonData, host, stringToHex)
            == s.(requestDataMap := Take(s.requestDataMap, KeyOf(FieldOf(jsonData, LpGuid))).0)
    ensures LegacyStep(s, response, host, stringToHex)
            == s.(requestDataMap := Take(s.requestDataMap, KeyOf(Some(response.requestId))).0)
  {
  }

  /** A caller's reply is delivered to its callback, once, with the verdict
      on its error, and nothing of the client's own state changes. */
  lemma CallerReplyDelivered(s: RouteState, id: string, errorField: Option<Json>, reply: Reply, host: Host,
                             stringToHex: Option<string -> string>, n: nat)
    requires id in s.requestDataMap && s.requestDataMap[id].callback == Some(CallerCallback(n))
    requires !Stops(CheckError(errorField, EnvOf(s, host), stringToHex).0)
    ensures var v := CheckError(errorField, EnvOf(s, host), stringToHex);
            Respond(s, Some(id), errorField, reply, host, stringToHex)
            == s.(requestDataMap := s.requestDataMap - {id}, effects := s.effects + v.1,
                  deliveries := s.deliveries + [Delivery(n, reply, v.0)])
  {
  }

  /** A login reply without error authenticates: state 2, the reconnect timer
      cancelled, the reply's ids stored, and a pending connect promise held by
      this login resolved with the keep-alive chain started. */
  lemma LoginReplyAuthenticates(s: RouteState, id: string, errorField: Option<Json>, reply: Reply, host: Host,
                                stringToHex: Option<string -> string>, withWaiter: bool)
    requires id in s.requestDataMap && s.requestDataMap[id].callback == Some(LoginCallback(withWaiter))
    requires !TruthyField(errorField)
    ensures var r := Respond(s, Some(id), errorField, reply, host, stringToHex);
            && id !in r.requestDataMap && r.effects == s.effects
            && r.connectState == Authenticated && r.reConnectTimer.None?
            && r.session == LoginSession(s.session, FieldsOf(reply))
            && (Settles(s, withWaiter) ==> r.waiter == Resolved && r.keepAliveTimers == s.keepAliveTimers + 1)
  {
    var v := CheckError(errorField, EnvOf(s, host), stringToHex);
    assert v.0.NoError? && v.1 == [];
  }

  /** A login reply with an error the check does not handle leaves the
      connection state as it was, rejects a pending connect promise held by
      this login, shows the message, and does not start the keep-alive
      chain. */
  lemma LoginReplyRejected(s: RouteState, id: string, errorField: Option<Json>, reply: Reply, host: Host,
                           stringToHex: Option<string -> string>, withWaiter: bool)
    requires id in s.requestDataMap && s.requestDataMap[id].callback == Some(LoginCallback(withWaiter))
    requires CheckError(errorField, EnvOf(s, host), stringToHex).0.Message?
    ensures var r := Respond(s, Some(id), errorField, reply, host, stringToHex);
            && id !in r.requestDataMap
            && r.connectState == s.connectState && r.session == s.session && r.keepAliveTimers == s.keepAliveTimers
            && r.waiter == (if Settles(s, withWaiter) then Rejected else s.waiter)
            && r.notices == s.notices + [CheckError(errorField, EnvOf(s, host), stringToHex).0.msg]
  {
  }

  /** The keep-alive chain: the reply to a keep-alive call schedules the next
      one exactly when it carries no error; an error handed to the callback
      ends the chain. */
  lemma KeepAliveChain(s: RouteState, id: string, errorField: Option<Json>, reply: Reply, host: Host,
                       stringToHex: Option<string -> string>)
    requires id in s.requestDataMap && s.requestDataMap[id].callback == Some(KeepAliveCallback)
    requires !Stops(CheckError(errorField, EnvOf(s, host), stringToHex).0)
    ensures var r := Respond(s, Some(id), errorField, reply, host, stringToHex);
            && (r.keepAliveTimers == s.keepAliveTimers + 1 <==> !TruthyField(errorField))
            && (TruthyField(errorField) ==> r.keepAliveTimers == s.keepAliveTimers && r.session == s.session)
            && (!TruthyField(errorField) ==> r.session == KeepAliveSession(s.session, FieldsOf(reply)))
            && r.connectState == s.connectState && r.waiter == s.waiter
  {
  }

  class Client {
    const creds: Credentials
    const url: string
    /** Whether the options carry an `onError` hook (`null` by default). */
    const hasOnError: bool
    var connectState: ConnectState
    var errorCount: nat
    var controlId: Json
    var requestDataMap: map<string, Pending>
    /** Deadlines of the pending probe and reconnect timers. */
    var checkTimer: Option<int>
    var reConnectTimer: Option<int>
    /** Keep-alive timeouts are never cleared: the number pending. */
    var keepAliveTimers: nat
    var session: map<string, string>
    var hasSocket: bool
    var socketHasWaiter: bool
    var waiter: Waiter
    var transport: seq<Transport>
    /** `ElMessage` texts. */
    var notices: seq<Json>
    var effects: seq<Effect>
    var hostCalls: seq<HostCall>
    var deliveries: seq<Delivery>
    var pushes: seq<Push>

    /** The fields a reply can change. */
    function Routing(): RouteState
      reads this
    {
      RouteState(requestDataMap, effects, deliveries, pushes, waiter, notices, session, controlId,
                 connectState, reConnectTimer, hostCalls, keepAliveTimers)
    }

    /** The constructor after its credential check: no socket, state 0, no
        pending request and no timer. */
    constructor (creds: Credentials, loc: SocketCodec.Location, session: map<string, string>, hasOnError: bool)
      ensures this.creds == creds && url == SocketCodec.SocketUrl(loc) && this.session == session
      ensures this.hasOnError == hasOnError
      ensures connectState == Unconnected && errorCount == 0 && controlId == JStr("")
      ensures requestDataMap == map[] && checkTimer.None? && reConnectTimer.None? && keepAliveTimers == 0
      ensures !hasSocket && !socketHasWaiter && waiter == NoWaiter
      ensures transport == [] && notices == [] && effects == [] && hostCalls == [] && deliveries == [] && pushes == []
    {
      this.creds := creds;
      url := SocketCodec.SocketUrl(loc);
      this.session := session;
      this.hasOnError := hasOnError;
      connectState := Unconnected;
      errorCount := 0;
      controlId := JStr("");
      requestDataMap := map[];
      checkTimer := None;
      reConnectTimer := None;
      keepAliveTimers := 0;
      hasSocket := false;
      socketHasWaiter := false;
      waiter := NoWaiter;
      transport := [];
      notices := [];
      effects := [];
      hostCalls := [];
      deliveries := [];
      pushes := [];
    }
    /** `checkConnect`: the probe timer is cleared and set again, so exactly
        one is pending. */
    method CheckConnect(now: int)
      modifies this`checkTimer
      ensures checkTimer == Some(now + CheckDelay)
    {
      checkTimer := Some(now + CheckDelay);
    }

    /** `reConnect`: the reconnect timer is cleared and set again. */
    method ReConnect(now: int)
      modifies this`reConnectTimer
      ensures reConnectTimer == Some(now + ReconnectDelay)
    {
      reConnectTimer := Some(now + ReconnectDelay);
    }

    /** `keepAlive`: one more keep-alive timeout pending. */
    method KeepAlive()
      modifies this`keepAliveTimers
      ensures keepAliveTimers == old(keepAliveTimers) + 1
    {
      keepAliveTimers := keepAliveTimers + 1;
    }

    /** `initWs`: an open socket is closed, and a new one opened on
        `<url>/ws`, holding the connect promise only when given one. */
    method InitWs(withWaiter: bool)
      modifies this`transport, this`hasSocket, this`socketHasWaiter
      ensures transport == old(transport) + (if old(hasSocket) then [CloseSocket] else []) + [OpenSocket(url + "/ws")]
      ensures hasSocket && socketHasWaiter == withWaiter
    {
      if hasSocket {
        transport := transport + [CloseSocket];
      }
      transport := transport + [OpenSocket(url + "/ws")];
      hasSocket := true;
      socketHasWaiter := withWaiter;
    }

    /** `init`: refused without WebSocket support; otherwise a socket holding
        the connect promise. */
    method Init(hasWebSocket: bool) returns (err: Option<string>)
      modifies this`transport, this`hasSocket, this`socketHasWaiter, this`waiter
      ensures !hasWebSocket ==> err == Some(NoWebSocket) && transport == old(transport)
                                && hasSocket == old(hasSocket) && socketHasWaiter == old(socketHasWaiter) && waiter == old(waiter)
      ensures hasWebSocket ==> err.None? && waiter == Waiting && hasSocket && socketHasWaiter
                               && transport == old(transport) + (if old(hasSocket) then [CloseSocket] else []) + [OpenSocket(url + "/ws")]
    {
      if !hasWebSocket {
        return Some(NoWebSocket);
      }
      waiter := Waiting;
      InitWs(true);
      err := None;
    }

    /** `callServerFunc`: the probe timer is always re-armed; a call the gate
        refuses only raises "网络异常"; an accepted call registers one entry
        under a fresh id and, when there is a socket, sends one frame with
        that id and the same parameters. */
    method CallServerFunc(moduleName: string, methodName: string, params: map<string, Json>, callback: Option<Callback>,
                          options: map<string, Json>, upload: Option<seq<Byte>>, rand: seq<Nibble>, now: int)
      requires |rand| == 32
      modifies this`checkTimer, this`notices, this`requestDataMap, this`transport
      ensures checkTimer == Some(now + CheckDelay)
      ensures !Accepts(connectState, methodName) ==>
                notices == old(notices) + [JStr(NetworkError)] && requestDataMap == old(requestDataMap) && transport == old(transport)
      ensures Accepts(connectState, methodName) ==>
                var id := SocketCodec.GuidOf(rand);
                var body := WithUpload(WithControlId(params, session), upload);
                && notices == old(notices)
                && requestDataMap == old(requestDataMap)[id := Pending(callback, body, options)]
                && transport == old(transport) + (if hasSocket then [Send(Frame(RequestHeader(methodName, moduleName, id, true), body))] else [])
    {
      CheckConnect(now);
      if connectState != Authenticated && methodName != LoginMethod {
        notices := notices + [JStr(NetworkError)];
        return;
      }
      var guid := SocketCodec.GetGuid(rand);
      var requestData := RequestHeader(methodName, moduleName, guid, true);
      var body := WithUpload(WithControlId(params, session), upload);
      requestDataMap := requestDataMap[guid := Pending(callback, body, options)];
      if hasSocket {
        transport := transport + [Send(Frame(requestData, body))];
      }
    }

    /** `getRequestConfig`: remove-on-read. */
    method GetRequestConfig(id: Option<string>) returns (cfg: RequestConfig)
      modifies this`requestDataMap
      ensures (requestDataMap, cfg) == Take(old(requestDataMap), id)
    {
      cfg := NoConfig;
      if id.Some? && id.value in requestDataMap {
        var info := requestDataMap[id.value];
        requestDataMap := requestDataMap - {id.value};
        cfg := RequestConfig(info.options, info.callback);
      }
    }

    /** `login`: the login call, with the callback that completes it. */
    method Login(withWaiter: bool, rand: seq<Nibble>, now: int)
      requires |rand| == 32
      modifies this`checkTimer, this`notices, this`requestDataMap, this`transport
      ensures checkTimer == Some(now + CheckDelay) && notices == old(notices)
      ensures var id := SocketCodec.GuidOf(rand);
              var body := WithControlId(LoginParams(creds, session), session);
              && requestDataMap == old(requestDataMap)[id := Pending(Some(LoginCallback(withWaiter)), body, map[])]
              && transport == old(transport) + (if hasSocket then [Send(Frame(RequestHeader(LoginMethod, CoreModule, id, true), body))] else [])
    {
      CallServerFunc(CoreModule, LoginMethod, LoginParams(creds, session), Some(LoginCallback(withWaiter)), map[], None, rand, now);
    }

    /** `onopen`: state 1, the error count reset, the login call, then the
        top window's `reconnectReset` when it has one. */
    method OnOpen(rand: seq<Nibble>, now: int, host: Host)
      requires |rand| == 32
      modifies this`errorCount, this`connectState, this`checkTimer, this`notices, this`requestDataMap, this`transport, this`hostCalls
      ensures connectState.Code() == 1 && errorCount == 0
      ensures checkTimer == Some(now + CheckDelay) && notices == old(notices)
      ensures var id := SocketCodec.GuidOf(rand);
              var body := WithControlId(LoginParams(creds, session), session);
              && requestDataMap == old(requestDataMap)[id := Pending(Some(LoginCallback(socketHasWaiter)), body, map[])]
              && transport == old(transport) + (if hasSocket then [Send(Frame(RequestHeader(LoginMethod, CoreModule, id, true), body))] else [])
      ensures hostCalls == old(hostCalls) + (if host.hasReconnectReset then [ReconnectReset] else [])
    {
      errorCount := 0;
      connectState := Connected;
      Login(socketHasWaiter, rand, now);
      hostCalls := hostCalls + (if host.hasReconnectReset then [ReconnectReset] else []);
    }

    /** `onerror`: one more error, reported with the control id to the
        `onError` option when there is one; the connect
        promise rejected if this socket holds it and it is still pending;
        state 0 and a reconnect scheduled. */
    method OnError(now: int)
      modifies this`errorCount, this`hostCalls, this`waiter, this`connectState, this`reConnectTimer
      ensures errorCount == old(errorCount) + 1
      ensures hostCalls == old(hostCalls) + (if hasOnError then [ReportError(controlId, errorCount)] else [])
      ensures waiter == (if socketHasWaiter && old(waiter) == Waiting then Rejected else old(waiter))
      ensures connectState.Code() == 0 && reConnectTimer == Some(now + ReconnectDelay)
    {
      errorCount := errorCount + 1;
      if hasOnError {
        hostCalls := hostCalls + [ReportError(controlId, errorCount)];
      }
      if socketHasWaiter && waiter == Waiting {
        waiter := Rejected;
      }
      connectState := Unconnected;
      ReConnect(now);
    }

    /** `onclose`: state 0, the top window's `showConnectError` when it has
        one, and a reconnect scheduled. */
    method OnClose(now: int, host: Host)
      modifies this`connectState, this`hostCalls, this`reConnectTimer
      ensures connectState.Code() == 0 && reConnectTimer == Some(now + ReconnectDelay)
      ensures hostCalls == old(hostCalls) + (if host.hasShowConnectError then [ShowConnectError] else [])
    {
      connectState := Unconnected;
      if host.hasShowConnectError {
        hostCalls := hostCalls + [ShowConnectError];
      }
      ReConnect(now);
    }

    /** The probe timer fires: a `Ws.Ping` call (refused with "网络异常" unless
        authenticated), then the timer set again. */
    method FireCheckTimer(rand: seq<Nibble>, now: int)
      requires |rand| == 32 && checkTimer == Some(now)
      modifies this`checkTimer, this`notices, this`requestDataMap, this`transport
      ensures checkTimer == Some(now + CheckDelay)
      ensures !Accepts(connectState, "Ping") ==>
                notices == old(notices) + [JStr(NetworkError)] && requestDataMap == old(requestDataMap) && transport == old(transport)
      ensures Accepts(connectState, "Ping") ==>
                var id := SocketCodec.GuidOf(rand);
                var body := WithControlId(map[], session);
                && notices == old(notices)
                && requestDataMap == old(requestDataMap)[id := Pending(None, body, map[])]
                && transport == old(transport) + (if hasSocket then [Send(Frame(RequestHeader("Ping", "Ws", id, true), body))] else [])
    {
      checkTimer := None;
      CallServerFunc("Ws", "Ping", map[], None, map[], None, rand, now);
      CheckConnect(now);
    }

    /** The reconnect timer fires: a notice, then a new socket that holds no
        connect promise. */
    method FireReconnectTimer(now: int)
      requires reConnectTimer == Some(now)
      modifies this`reConnectTimer, this`notices, this`transport, this`hasSocket, this`socketHasWaiter
      ensures reConnectTimer.None?
      ensures notices == old(notices) + [JStr(Reconnecting)]
      ensures transport == old(transport) + (if old(hasSocket) then [CloseSocket] else []) + [OpenSocket(url + "/ws")]
      ensures hasSocket && !socketHasWaiter
    {
      reConnectTimer := None;
      notices := notices + [JStr(Reconnecting)];
      InitWs(false);
    }

    /** A keep-alive timeout fires: the keep-alive call, which passes the gate
        in any state. */
    method FireKeepAlive(rand: seq<Nibble>, now: int)
      requires |rand| == 32 && keepAliveTimers > 0
      modifies this`keepAliveTimers, this`checkTimer, this`notices, this`requestDataMap, this`transport
      ensures keepAliveTimers == old(keepAliveTimers) - 1
      ensures checkTimer == Some(now + CheckDelay) && notices == old(notices)
      ensures var id := SocketCodec.GuidOf(rand);
              var body := WithControlId(KeepAliveParams(session), session);
              && requestDataMap == old(requestDataMap)[id := Pending(Some(KeepAliveCallback), body, map[])]
              && transport == old(transport) + (if hasSocket then [Send(Frame(RequestHeader(LoginMethod, CoreModule, id, true), body))] else [])
    {
      keepAliveTimers := keepAliveTimers - 1;
      CallServerFunc(CoreModule, LoginMethod, KeepAliveParams(session), Some(KeepAliveCallback), map[], None, rand, now);
    }

    /** The login callback (see `LoginStep`). */
    method LoginReply(withWaiter: bool, fields: map<string, Json>, errorMsg: Verdict, host: Host)
      modifies this`waiter, this`notices, this`session, this`controlId, this`connectState, this`reConnectTimer,
               this`hostCalls, this`keepAliveTimers
      ensures var r := LoginStep(old(Routing()), withWaiter, fields, errorMsg, host);
              && waiter == r.waiter && notices == r.notices && session == r.session && controlId == r.controlId
              && connectState == r.connectState && reConnectTimer == r.reConnectTimer && hostCalls == r.hostCalls
              && keepAliveTimers == r.keepAliveTimers
    {
      var settles := withWaiter && waiter == Waiting;
      if errorMsg.Message? {
        waiter := if settles then Rejected else waiter;
        notices := notices + [errorMsg.msg];
      } else {
        controlId := NextControlId(controlId, fields);
        session := LoginSession(session, fields);
        connectState := Authenticated;
        reConnectTimer := None;
        hostCalls := hostCalls + (if host.hasMainMessages then [RegWebJsonMessage] else []);
        // the promise resolves, and `init`'s continuation calls `keepAlive`
        waiter := if settles then Resolved else waiter;
        keepAliveTimers := keepAliveTimers + (if settles then 1 else 0);
      }
    }

    /** The keep-alive callback (see `KeepAliveStep`). */
    method KeepAliveReply(fields: map<string, Json>, errorMsg: Verdict)
      modifies this`notices, this`session, this`controlId, this`keepAliveTimers
      ensures Routing() == KeepAliveStep(old(Routing()), fields, errorMsg)
    {
      if errorMsg.Message? {
        notices := notices + [errorMsg.msg];
        return;
      }
      session := KeepAliveSession(session, fields);
      if TruthyField(Field(fields, "ControlID")) {
        controlId := fields["ControlID"];
      }
      KeepAlive();
    }

    /** Invokes a callback with `(response, errorMsg)`: the caller's are
        recorded, the client's own run. */
    method RunCallback(cb: Callback, reply: Reply, errorMsg: Verdict, host: Host)
      modifies this`deliveries, this`waiter, this`notices, this`session, this`controlId, this`connectState,
               this`reConnectTimer, this`hostCalls, this`keepAliveTimers
      ensures Routing() == CallbackStep(old(Routing()), cb, reply, errorMsg, host)
    {
      match cb
      case CallerCallback(n) =>
        deliveries := deliveries + [Delivery(n, reply, errorMsg)];
      case LoginCallback(withWaiter) =>
        LoginReply(withWaiter, FieldsOf(reply), errorMsg, host);
      case KeepAliveCallback =>
        KeepAliveReply(FieldsOf(reply), errorMsg);
    }

    /** `handleJsonResponse`: the entry of the reply's id is removed first;
        then the error field is classified; `true` or a throw stops there, and
        otherwise the entry's callback, if any, is invoked. A throw leaves
        this method for `handleMessage`, which catches it; the state is the
        same as after a return. */
    method HandleJsonResponse(jsonData: Json, host: Host, stringToHex: Option<string -> string>)
      modifies this`requestDataMap, this`effects, this`deliveries, this`waiter, this`notices, this`session, this`controlId,
               this`connectState, this`reConnectTimer, this`hostCalls, this`keepAliveTimers
      ensures Routing() == JsonStep(old(Routing()), jsonData, host, stringToHex)
    {
      var guid := FieldOf(jsonData, LpGuid);
      var cfg := GetRequestConfig(KeyOf(guid));
      var logoutUrl := Get(session, "LogoutUrl");
      var verdict := CheckError(FieldOf(jsonData, ReturnKey), Env(logoutUrl, host.hasTokenLoseHook, host.dateText), stringToHex);
      effects := effects + verdict.1;
      if Stops(verdict.0) {
        return;
      }
      if cfg.callback.Some? {
        RunCallback(cfg.callback.value, JsonReply(jsonData), verdict.0, host);
      }
    }

    /** `handleMessage` on a text frame: `'<'` escaped, parsed, and routed to
        `handleJsonResponse` when the id key is truthy. Any other parsed
        value is a plain value without `getRequestId`: the call throws, the
        handler catches it, and nothing changes. */
    method HandleMessage(data: seq<SocketCodec.CodeUnit>, parse: seq<SocketCodec.CodeUnit> -> Option<Json>, host: Host,
                         stringToHex: Option<string -> string>)
      modifies this`requestDataMap, this`effects, this`deliveries, this`waiter, this`notices, this`session, this`controlId,
               this`connectState, this`reConnectTimer, this`hostCalls, this`keepAliveTimers
      ensures Routing() == FrameStep(old(Routing()), data, parse, host, stringToHex)
    {
      var jsonData := SocketCodec.ParseWebJson(SocketCodec.ReplaceLt(data), parse);
      if TruthyField(FieldOf(jsonData, LpGuid)) {
        HandleJsonResponse(jsonData, host, stringToHex);
      }
    }

    /** The routing of a response of the older shape (see `LegacyStep`). */
    method HandleLegacyResponse(response: LegacyResponse, host: Host, stringToHex: Option<string -> string>)
      modifies this`requestDataMap, this`effects, this`deliveries, this`pushes, this`waiter, this`notices, this`session,
               this`controlId, this`connectState, this`reConnectTimer, this`hostCalls, this`keepAliveTimers
      ensures Routing() == LegacyStep(old(Routing()), response, host, stringToHex)
    {
      var cfg := GetRequestConfig(KeyOf(Some(response.requestId)));
      var logoutUrl := Get(session, "LogoutUrl");
      var verdict := CheckError(response.ret, Env(logoutUrl, host.hasTokenLoseHook, host.dateText), stringToHex);
      effects := effects + verdict.1;
      if Stops(verdict.0) {
        return;
      }
      if cfg.callback.Some? {
        RunCallback(cfg.callback.value, LegacyReply(response), verdict.0, host);
      } else if host.hasMainMessages && response.msgId != 1 {
        pushes := pushes + [Push(response, verdict.0)];
      }
    }
  }

  /** `new CreateWebSocket(options)`: the credential check, then the client. */
  method Create(session: map<string, string>, tokenKey: string, hasOnError: bool, loc: SocketCodec.Location)
    returns (r: Result<Client>)
    ensures r.Fail? <==> ReadCredentials(session, tokenKey).Fail?
    ensures r.Fail? ==> r.message == MissingCredentials
    ensures r.Ok? ==> fresh(r.value) && r.value.creds == ReadCredentials(session, tokenKey).value
                      && r.value.connectState.Code() == 0 && r.value.requestDataMap == map[]
                      && r.value.url == SocketCodec.SocketUrl(loc) && r.value.hasOnError == hasOnError
  {
    match ReadCredentials(session, tokenKey)
    case Fail(msg) => r := Fail(msg);
    case Ok(creds) =>
      var c := new Client(creds, loc, session, hasOnError);
      r := Ok(c);
  }
}
