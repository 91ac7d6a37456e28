/** The QQ channel bot notifier of src/notifier/qq.rs. */
module QQ {
  import opened Common
  import opened Notifier
  import opened QQBot

  /** `num_items_each_notify`: three items per message. */
  const ITEMS_EACH_NOTIFY: nat := 3

  /**
   * `check_response`: whether the token the request carried was accepted. A 401, or a
   * 500 whose body reports an expired token, means it was not; any other 500 is an
   * error carrying the body's message (or the body's decoding error).
   */
  function CheckResponse(resp: Response): (r: Result<bool>)
    ensures r == Ok(true) <==> resp.status != 401 && resp.status != 500
    ensures r == Ok(false) <==>
              resp.status == 401 ||
              (resp.status == 500 && resp.errorBody.Ok? && resp.errorBody.value.code == CODE_TOKEN_EXPIRED)
    ensures r.Err? <==>
              resp.status == 500 && (resp.errorBody.Err? || resp.errorBody.value.code != CODE_TOKEN_EXPIRED)
    ensures r.Err? ==>
              r.message == (if resp.errorBody.Ok? then resp.errorBody.value.message else resp.errorBody.message)
  {
    if resp.status == 401 then Ok(false)
    else if resp.status == 500 then
      match resp.errorBody
      case Err(m) => Err(m)
      case Ok(body) => if body.code == CODE_TOKEN_EXPIRED then Ok(false) else Err(body.message)
    else Ok(true)
  }

  /** The first post went out and its answer says the token was not accepted. */
  predicate InvalidFirstAnswer(ex: Exchange)
  {
    ex.firstSend.Ok? && CheckResponse(ex.firstSend.value) == Ok(false)
  }

  /**
   * One `notify` from stored token `token` with message text `content`. The token is
   * fetched first only when none is stored; a rejected token is renewed once and the
   * message posted once more, and that second post's status is not looked at.
   */
  function NotifyRun(token: string, content: string, ex: Exchange): (run: Run)
    ensures SendCount(run.calls) <= 2 && RequestCount(run.calls) <= 2
    ensures run.calls != [] && (run.calls[0] == RequestToken <==> token == "")
    ensures forall i :: 0 <= i < |run.calls| && run.calls[i].Send? ==> run.calls[i].content == content
    ensures TokenFromNetwork(token, run.token, ex)
    ensures SessionToken(token, ex).Ok? && ex.renewedToken.Err? ==> run.token == SessionToken(token, ex).value
    ensures SessionToken(token, ex).Err? ==>
              run == Run(Err(SessionToken(token, ex).message), token, LazyCalls(token))
    ensures SessionToken(token, ex).Ok? && !InvalidFirstAnswer(ex) ==>
              SinglePost(run, token, SessionToken(token, ex).value, content)
    ensures SessionToken(token, ex).Ok? && InvalidFirstAnswer(ex) ==>
              RenewalOutcome(run, token, SessionToken(token, ex).value, content, ex)
    ensures SessionToken(token, ex).Ok? && ex.firstSend.Err? ==> run.result == Err(ex.firstSend.message)
    ensures SessionToken(token, ex).Ok? && ex.firstSend.Ok? && CheckResponse(ex.firstSend.value).Err? ==>
              run.result == Err(CheckResponse(ex.firstSend.value).message)
    ensures SessionToken(token, ex).Ok? && ex.firstSend.Ok? && CheckResponse(ex.firstSend.value) == Ok(true) ==>
              run.result == Ok(())
    ensures SendCount(run.calls) == 2 <==>
              SessionToken(token, ex).Ok? && ex.firstSend.Ok? &&
              CheckResponse(ex.firstSend.value) == Ok(false) && ex.renewedToken.Ok?
    ensures run.result.Ok? <==>
              SessionToken(token, ex).Ok? && ex.firstSend.Ok? &&
              (CheckResponse(ex.firstSend.value) == Ok(true) ||
               (CheckResponse(ex.firstSend.value) == Ok(false) && ex.renewedToken.Ok? && ex.resend.Ok?))
  {
    var lazy := LazyCalls(token);
    match SessionToken(token, ex)
    case Err(m) => Run(Err(m), token, lazy)
    case Ok(t) =>
      var sent := lazy + [Send(t, content)];
      CountsAppend(lazy, [Send(t, content)]);
      assert SendCount([Send(t, content)]) == 1 && RequestCount([Send(t, content)]) == 0;
      match ex.firstSend
      case Err(m) => Run(Err(m), t, sent)
      case Ok(resp) =>
        match CheckResponse(resp)
        case Err(m) => Run(Err(m), t, sent)
        case Ok(valid) =>
          if valid then Run(Ok(()), t, sent)
          else
            Renew(sent, t, content, ex)
  }

  /** The QQ notifier: its configuration, endpoint and the access token it keeps. */
  class QQNotifier {
    const conf: BotConfig
    const api: string
    var accessToken: string
    /** Every network call made through this notifier, in order. */
    ghost var calls: seq<ApiCall>

    /** `new`: no token yet, and the endpoint of the configured host and channel. */
    constructor (conf: BotConfig)
      ensures this.conf == conf && api == ApiUrl(conf)
      ensures accessToken == "" && calls == []
    {
      this.conf := conf;
      api := ApiUrl(conf);
      accessToken := "";
      calls := [];
    }

    method Notify(source: string, items: seq<Item>, fmt: DateFormat, ex: Exchange) returns (r: Result<()>)
      modifies this
      ensures var run := NotifyRun(old(accessToken), MessageContent(source, items, fmt), ex);
              r == run.result && accessToken == run.token && calls == old(calls) + run.calls
    {
      if accessToken == "" {
        calls := calls + [RequestToken];
        if ex.firstToken.Err? {
          return Err(ex.firstToken.message);
        }
        accessToken := ex.firstToken.value;
      }
      var content := BuildMessage(source, items, fmt);
      calls := calls + [Send(accessToken, content)];
      if ex.firstSend.Err? {
        return Err(ex.firstSend.message);
      }
      var valid := CheckResponse(ex.firstSend.value);
      if valid.Err? {
        return Err(valid.message);
      }
      if valid.value {
        return Ok(());
      }
      calls := calls + [RequestToken];
      if ex.renewedToken.Err? {
        return Err(ex.renewedToken.message);
      }
      accessToken := ex.renewedToken.value;
      calls := calls + [Send(accessToken, content)];
      r := if ex.resend.Ok? then Ok(()) else Err(ex.resend.message);
    }
  }

  /** With three items per call a batch of `m` items goes out in ceil(m / 3) messages, in order. */
  lemma BatchesOfThree(items: seq<Item>)
    ensures var chunks := Chunks(items, ITEMS_EACH_NOTIFY);
            Flatten(chunks) == items && |chunks| == (|items| + 2) / 3 &&
            forall i :: 0 <= i < |chunks| ==> 1 <= |chunks[i]| <= 3
  {
    ChunkCount(items, ITEMS_EACH_NOTIFY);
  }
}
