/** The QQ guild bot notifier of src/notifier/qq_guild.rs. */
module QQGuild {
  import opened Common
  import opened Notifier
  import opened QQBot
  import QQ

  /** `num_items_each_notify`: five items per message. */
  const ITEMS_EACH_NOTIFY: nat := 5

  /** The statuses after which `notify` renews its token: a 401, or a 500 reporting expiry. */
  predicate TokenRejected(resp: Response)
  {
    resp.status == 401 ||
    (resp.status == 500 && resp.errorBody.Ok? && resp.errorBody.value.code == CODE_TOKEN_EXPIRED)
  }

  /**
   * One `notify` from stored token `token` with message text `content`: the status chain
   * of the first post decides between success, an error, and one renewal and re-post.
   */
  function NotifyRun(token: string, content: string, ex: Exchange): (run: Run)
    ensures SendCount(run.calls) <= 2 && RequestCount(run.calls) <= 2
    ensures run.calls != [] && (run.calls[0] == RequestToken <==> token == "")
    ensures forall i :: 0 <= i < |run.calls| && run.calls[i].Send? ==> run.calls[i].content == content
    ensures TokenFromNetwork(token, run.token, ex)
    ensures SessionToken(token, ex).Ok? && ex.renewedToken.Err? ==> run.token == SessionToken(token, ex).value
    ensures SessionToken(token, ex).Err? ==>
              run == Run(Err(SessionToken(token, ex).message), token, LazyCalls(token))
    ensures SessionToken(token, ex).Ok? && !(ex.firstSend.Ok? && TokenRejected(ex.firstSend.value)) ==>
              SinglePost(run, token, SessionToken(token, ex).value, content)
    ensures SessionToken(token, ex).Ok? && ex.firstSend.Ok? && TokenRejected(ex.firstSend.value) ==>
              RenewalOutcome(run, token, SessionToken(token, ex).value, content, ex)
    ensures SessionToken(token, ex).Ok? && ex.firstSend.Err? ==> run.result == Err(ex.firstSend.message)
    ensures SessionToken(token, ex).Ok? && ex.firstSend.Ok? && ex.firstSend.value.status == 500 &&
            ex.firstSend.value.errorBody.Err? ==>
              run.result == Err(ex.firstSend.value.errorBody.message)
    ensures SendCount(run.calls) == 2 <==>
              SessionToken(token, ex).Ok? && ex.firstSend.Ok? && TokenRejected(ex.firstSend.value) &&
              ex.renewedToken.Ok?
    ensures SessionToken(token, ex).Ok? && ex.firstSend.Ok? && !TokenRejected(ex.firstSend.value) ==>
              SendCount(run.calls) == 1 && run.token == SessionToken(token, ex).value &&
              RequestCount(run.calls) == (if token == "" then 1 else 0)
    ensures SessionToken(token, ex).Ok? && ex.firstSend.Ok? &&
            ex.firstSend.value.status != 401 && ex.firstSend.value.status != 500 ==>
              run.result == Ok(())
    ensures SessionToken(token, ex).Ok? && ex.firstSend.Ok? && ex.firstSend.value.status == 500 &&
            ex.firstSend.value.errorBody.Ok? && ex.firstSend.value.errorBody.value.code != CODE_TOKEN_EXPIRED ==>
              run.result == Err(ex.firstSend.value.errorBody.value.message)
    ensures SessionToken(token, ex).Ok? && ex.firstSend.Ok? && TokenRejected(ex.firstSend.value) ==>
              (run.result.Ok? <==> ex.renewedToken.Ok? && ex.resend.Ok?)
  {
    var lazy := LazyCalls(token);
    match SessionToken(token, ex)
    case Err(m) => Run(Err(m), token, lazy)
    case Ok(t) =>
      var sent := lazy + [Send(t, content)];
      CountsAppend(lazy, [Send(t, content)]);
      assert SendCount([Send(t, content)]) == 1 && RequestCount([Send(t, content)]) == 0;
      match ex.firstSend
      case Err(m) => Run(Err(m), t, sent)
      case Ok(resp) =>
        if resp.status == 401 then Renew(sent, t, content, ex)
        else if resp.status == 500 then
          match resp.errorBody
          case Err(m) => Run(Err(m), t, sent)
          case Ok(body) =>
            if body.code == CODE_TOKEN_EXPIRED then Renew(sent, t, content, ex)
            else Run(Err(body.message), t, sent)
        else Run(Ok(()), t, sent)
  }

  /**
   * The guild notifier's inline status chain does what `check_response` and the retry
   * of the QQ notifier do: for the same network answers, the same result, token and calls.
   */
  lemma SameAsQQ(token: string, content: string, ex: Exchange)
    ensures NotifyRun(token, content, ex) == QQ.NotifyRun(token, content, ex)
  {
    if SessionToken(token, ex).Ok? && ex.firstSend.Ok? {
      var resp := ex.firstSend.value;
      assert TokenRejected(resp) <==> QQ.CheckResponse(resp) == Ok(false);
    }
  }

  /** The guild notifier: its configuration, endpoint and the access token it keeps. */
  class QQGuildNotifier {
    const conf: BotConfig
    const api: string
    var accessToken: string
    /** Every network call made through this notifier, in order. */
    ghost var calls: seq<ApiCall>

    /** `new`: no token yet, and the endpoint of the configured host and channel. */
    constructor (conf: BotConfig)
      ensures this.conf == conf && api == ApiUrl(conf)
      ensures accessToken == "" && calls == []
    {
      this.conf := conf;
      api := ApiUrl(conf);
      accessToken := "";
      calls := [];
    }

    method Notify(source: string, items: seq<Item>, fmt: DateFormat, ex: Exchange) returns (r: Result<()>)
      modifies this
      ensures var run := NotifyRun(old(accessToken), MessageContent(source, items, fmt), ex);
              r == run.result && accessToken == run.token && calls == old(calls) + run.calls
    {
      if accessToken == "" {
        calls := calls + [RequestToken];
        if ex.firstToken.Err? {
          return Err(ex.firstToken.message);
        }
        accessToken := ex.firstToken.value;
      }
      var content := BuildMessage(source, items, fmt);
      calls := calls + [Send(accessToken, content)];
      if ex.firstSend.Err? {
        return Err(ex.firstSend.message);
      }
      var resp := ex.firstSend.value;
      var renew := false;
      if resp.status == 401 {
        renew := true;
      } else if resp.status == 500 {
        if resp.errorBody.Err? {
          return Err(resp.errorBody.message);
        }
        if resp.errorBody.value.code == CODE_TOKEN_EXPIRED {
          renew := true;
        } else {
          return Err(resp.errorBody.value.message);
        }
      }
      if renew {
        calls := calls + [RequestToken];
        if ex.renewedToken.Err? {
          return Err(ex.renewedToken.message);
        }
        accessToken := ex.renewedToken.value;
        calls := calls + [Send(accessToken, content)];
        if ex.resend.Err? {
          return Err(ex.resend.message);
        }
      }
      r := Ok(());
    }
  }

  /** With five items per call a batch of `m` items goes out in ceil(m / 5) messages, in order. */
  lemma BatchesOfFive(items: seq<Item>)
    ensures var chunks := Chunks(items, ITEMS_EACH_NOTIFY);
            Flatten(chunks) == items && |chunks| == (|items| + 4) / 5 &&
            forall i :: 0 <= i < |chunks| ==> 1 <= |chunks[i]| <= 5
  {
    ChunkCount(items, ITEMS_EACH_NOTIFY);
  }
}
