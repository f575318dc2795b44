/** `checkError` of the socket client: the classification of a reply's error
    field, with its side effects returned as effect records instead of being
    performed. */
module ErrorClassifier {
  import opened Common

  const AuthLost := "授权信息已经失效"
  const WsKeyFailed := "WsKey验证失败"
  const WsKeyTimeout := "WsKey验证超时"
  const InvalidTokenPrefix := "无效令牌: "
  const SqlErrorMark := ": SQL error "
  const Server500 := "服务器内部错误，错误码500"
  const ReLoginAlert := "认证信息失效，请重新登陆"
  const TestPage := "/web/dist/index.html#/test"
  const DefaultLogout := "/login"

  /** The window whose location an effect changes: `top`, or the client's
      `topWindow`. */
  datatype Window = Top | TopWindow

  /** A side effect of `checkError`. */
  datatype Effect =
    | Navigate(window: Window, url: string)
    | Alert(text: string)
    | CallTokenLose
    | Persist(key: string, value: string)

  /** What `checkError` returns: `null`, `true` (the caller returns at once),
      or a message for the callback; or `Throws` when the call throws. */
  datatype Verdict = NoError | Handled | Message(msg: Json) | Throws

  /** What the classifier reads besides the error value: the stored
      `LogoutUrl` (`None` when unset), whether `topWindow.tokenLoseCallFunc`
      is a function, and the current date as text. */
  datatype Env = Env(logoutUrl: Option<string>, hasTokenLoseHook: bool, dateText: string)

  /** The token errors: either WsKey failure text exactly, or any value whose
      text starts with `无效令牌: `. */
  predicate IsTokenError(v: Json) {
    v == JStr(WsKeyFailed) || v == JStr(WsKeyTimeout) || StartsWith(ToText(v), InvalidTokenPrefix)
  }

  /** The reply field a callback would be handed an error for. */
  predicate IsSqlError(v: Json) {
    Contains(ToText(v), SqlErrorMark)
  }

  /** Whether the caller of `checkError` goes no further: it returns on
      `errorMsg === true`, and a thrown error leaves it. */
  predicate Stops(v: Verdict) {
    v.Handled? || v.Throws?
  }

  /** `checkError(errorMsg)`, with `None` for an absent field. `stringToHex`
      is the top window's encoder, `None` when the window has none: calling
      it then throws a `TypeError`, before either `setItem` runs. */
  function CheckError(errorMsg: Option<Json>, env: Env, stringToHex: Option<string -> string>): (r: (Verdict, seq<Effect>))
    ensures r.0.NoError? <==> !TruthyField(errorMsg)
    ensures r.0.Handled? <==> TruthyField(errorMsg) && (errorMsg.value == JStr(AuthLost) || IsTokenError(errorMsg.value)
                                                        || errorMsg.value == JBool(true))
    ensures r.0.Throws? <==> TruthyField(errorMsg) && errorMsg.value != JStr(AuthLost) && !IsTokenError(errorMsg.value)
                             && IsSqlError(errorMsg.value) && stringToHex.None?
    ensures r.0.Message? ==> r.0.msg == (if IsSqlError(errorMsg.value) then JStr(Server500) else errorMsg.value)
    ensures r.0.Message? ==> Truthy(r.0.msg) && r.0.msg != JBool(true)
    ensures r.0.NoError? || r.0.Throws? ==> r.1 == []
    ensures TruthyField(errorMsg) && errorMsg.value == JStr(AuthLost) ==> r.1 == [Navigate(Top, TestPage)]
    ensures errorMsg == Some(JBool(true)) ==> r == (Handled, [])
    ensures r.0.Handled? && errorMsg.value != JStr(AuthLost) && errorMsg.value != JBool(true) ==>
              |r.1| == 2 && r.1[0] == Alert(ReLoginAlert)
              && r.1[1] == (if env.hasTokenLoseHook then CallTokenLose
                            else Navigate(TopWindow, if env.logoutUrl.Some? && env.logoutUrl.value != "" then env.logoutUrl.value else DefaultLogout))
    ensures r.0.Message? && IsSqlError(errorMsg.value) ==>
              && stringToHex.Some?
              && r.1 == [Persist("error_log_" + env.dateText, stringToHex.value(ToText(errorMsg.value))),
                         Persist("error_log_last", stringToHex.value(ToText(errorMsg.value)))]
    ensures r.0.Message? && !IsSqlError(errorMsg.value) ==> r.1 == []
  {
    if !TruthyField(errorMsg) then (NoError, [])
    else
      var v := errorMsg.value;
      if v == JStr(AuthLost) then (Handled, [Navigate(Top, TestPage)])
      else if v == JStr(WsKeyFailed) || v == JStr(WsKeyTimeout) || StartsWith(ToText(v), InvalidTokenPrefix) then
        var logoutUrl := if env.logoutUrl.Some? then env.logoutUrl.value else "";
        var leave := if env.hasTokenLoseHook then CallTokenLose
                     else Navigate(TopWindow, if logoutUrl != "" then logoutUrl else DefaultLogout);
        (Handled, [Alert(ReLoginAlert), leave])
      else if Contains(ToText(v), SqlErrorMark) then
        if stringToHex.None? then (Throws, [])
        else
          var hex := stringToHex.value(ToText(v));
          (Message(JStr(Server500)), [Persist("error_log_" + env.dateText, hex), Persist("error_log_last", hex)])
      // `return errorMsg`: a `true` field comes back as `true`
      else if v == JBool(true) then (Handled, [])
      else (Message(v), [])
  }

  /** The verdict does not depend on the environment, nor on the encoder
      beyond its presence; only the effects do. */
  lemma VerdictIgnoresEnv(errorMsg: Option<Json>, e1: Env, e2: Env, h1: Option<string -> string>, h2: Option<string -> string>)
    requires h1.Some? == h2.Some?
    ensures CheckError(errorMsg, e1, h1).0 == CheckError(errorMsg, e2, h2).0
  {
  }

  /** The literal reply texts, one by one. */
  lemma CheckErrorTexts(env: Env, stringToHex: Option<string -> string>, rest: string)
    ensures CheckError(Some(JStr("")), env, stringToHex).0 == NoError
    ensures CheckError(None, env, stringToHex).0 == NoError
    ensures CheckError(Some(JStr(AuthLost)), env, stringToHex).0 == Handled
    ensures CheckError(Some(JStr(WsKeyFailed)), env, stringToHex).0 == Handled
    ensures CheckError(Some(JStr(WsKeyTimeout)), env, stringToHex).0 == Handled
    ensures CheckError(Some(JStr(InvalidTokenPrefix + rest)), env, stringToHex).0 == Handled
    ensures CheckError(Some(JBool(true)), env, stringToHex).0 == Handled
    ensures CheckError(Some(JStr(rest + SqlErrorMark)), env, stringToHex).0 ==
              (if IsTokenError(JStr(rest + SqlErrorMark)) then Handled
               else if stringToHex.None? then Throws
               else Message(JStr(Server500)))
  {
    var t := InvalidTokenPrefix + rest;
    assert t[..|InvalidTokenPrefix|] == InvalidTokenPrefix;
    var q := rest + SqlErrorMark;
    assert OccursAt(q, SqlErrorMark, |rest|) by {
      assert q[|rest|..|rest| + |SqlErrorMark|] == SqlErrorMark;
    }
  }

  /** A message handed to a callback never carries SQL error text: such text is
      replaced by the fixed 500 message, and the 500 message is not itself
      classified again. */
  lemma NoSqlTextLeaks(errorMsg: Option<Json>, env: Env, stringToHex: Option<string -> string>)
    ensures var r := CheckError(errorMsg, env, stringToHex).0;
            r.Message? ==> !IsSqlError(r.msg)
    ensures CheckError(Some(JStr(Server500)), env, stringToHex).0 == Message(JStr(Server500))
  {
    assert !Contains(Server500, SqlErrorMark) by {
      forall i | 0 <= i <= |Server500| ensures !OccursAt(Server500, SqlErrorMark, i) {
        assert ':' !in Server500;
        if i + |SqlErrorMark| <= |Server500| {
          assert Server500[i..i + |SqlErrorMark|][0] == Server500[i];
        }
      }
    }
    assert !StartsWith(Server500, InvalidTokenPrefix) by {
      assert Server500[0] != InvalidTokenPrefix[0];
    }
  }
}
