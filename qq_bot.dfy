/**
 * What the two QQ bot notifiers (src/notifier/qq.rs and src/notifier/qq_guild.rs)
 * have in common: the bot API endpoints, the error body of a failed request, the
 * message text, and the record of the calls a `notify` makes.
 */
module QQBot {
  import opened Common
  import opened Notifier

  const API_GET_ACCESS_TOKEN: string := "https://bots.qq.com/app/getAppAccessToken"
  const API_BOT: string := "https://api.sgroup.qq.com"
  const API_BOT_SANDBOX: string := "https://sandbox.api.sgroup.qq.com"

  /** The error code of a response whose access token has expired. */
  const CODE_TOKEN_EXPIRED: int := 11244

  /** The bot's configuration as far as the notifiers read it. */
  datatype BotConfig = BotConfig(appId: string, appSecret: string, channelId: string, sandbox: bool)

  /** The JSON body of a failed bot API call. */
  datatype ErrorMessage = ErrorMessage(message: string, code: int, errCode: int, traceId: string)

  /** A bot API response: its status and its body read as an `ErrorMessage`. */
  datatype Response = Response(status: nat, errorBody: Result<ErrorMessage>)

  /** A network call of `notify`: a token request, or a message post with the token it carries. */
  datatype ApiCall = RequestToken | Send(token: string, content: string)

  /**
   * The network's answers to one `notify`, in the order they may be asked for: the lazy
   * token fetch, the first post, the token renewal and the repeated post.
   */
  datatype Exchange = Exchange(
    firstToken: Result<string>,
    firstSend: Result<Response>,
    renewedToken: Result<string>,
    resend: Result<Response>)

  /** The effect of one `notify`: its result, the stored token afterwards, the calls made. */
  datatype Run = Run(result: Result<()>, token: string, calls: seq<ApiCall>)

  function SendCount(calls: seq<ApiCall>): nat
  {
    if calls == [] then 0 else (if calls[0].Send? then 1 else 0) + SendCount(calls[1..])
  }

  function RequestCount(calls: seq<ApiCall>): nat
  {
    if calls == [] then 0 else (if calls[0].RequestToken? then 1 else 0) + RequestCount(calls[1..])
  }

  lemma {:induction false} CountsAppend(a: seq<ApiCall>, b: seq<ApiCall>)
    ensures SendCount(a + b) == SendCount(a) + SendCount(b)
    ensures RequestCount(a + b) == RequestCount(a) + RequestCount(b)
  {
    if a == [] {
      assert a + b == b;
    } else {
      assert (a + b)[0] == a[0];
      assert (a + b)[1..] == a[1..] + b;
      CountsAppend(a[1..], b);
    }
  }

  /** The token the first post uses: the stored one, or a fetched one when none is stored. */
  function SessionToken(token: string, ex: Exchange): (r: Result<string>)
    ensures token != "" ==> r == Ok(token)
    ensures token == "" ==> r == ex.firstToken
  {
    if token == "" then ex.firstToken else Ok(token)
  }

  /** The lazy token request that precedes the first post when no token is stored. */
  function LazyCalls(token: string): seq<ApiCall>
  {
    if token == "" then [RequestToken] else []
  }

  /** A `notify` that posted once, with token `t`, and made no renewal. */
  predicate SinglePost(run: Run, token: string, t: string, content: string)
  {
    run.calls == LazyCalls(token) + [Send(t, content)] && run.token == t
  }

  /**
   * A `notify` whose first post, with token `t`, was answered "token rejected": one token
   * request follows; if it succeeds the new token is stored and the message is posted with
   * it, and the result is that post's transport outcome; otherwise `t` stays stored and the
   * request's error is the result.
   */
  predicate RenewalOutcome(run: Run, token: string, t: string, content: string, ex: Exchange)
  {
    run.calls == LazyCalls(token) + [Send(t, content), RequestToken] +
                 (if ex.renewedToken.Ok? then [Send(ex.renewedToken.value, content)] else []) &&
    run.token == (if ex.renewedToken.Ok? then ex.renewedToken.value else t) &&
    run.result == (if ex.renewedToken.Err? then Err(ex.renewedToken.message)
                   else if ex.resend.Ok? then Ok(()) else Err(ex.resend.message))
  }

  /** The stored token only ever changes to a token the network handed out. */
  predicate TokenFromNetwork(old_token: string, new_token: string, ex: Exchange)
  {
    new_token == old_token ||
    (ex.firstToken.Ok? && new_token == ex.firstToken.value) ||
    (ex.renewedToken.Ok? && new_token == ex.renewedToken.value)
  }

  /** The renewal part of `notify`: a new token, then the same message once more. */
  function Renew(calls: seq<ApiCall>, token: string, content: string, ex: Exchange): (run: Run)
    ensures |run.calls| > |calls| && run.calls[..|calls|] == calls
    ensures run.calls[|calls|] == RequestToken
    ensures ex.renewedToken.Err? ==> run == Run(Err(ex.renewedToken.message), token, calls + [RequestToken])
    ensures ex.renewedToken.Ok? ==>
              run.token == ex.renewedToken.value &&
              run.calls == calls + [RequestToken, Send(ex.renewedToken.value, content)]
    ensures run.result.Ok? <==> ex.renewedToken.Ok? && ex.resend.Ok?
    ensures SendCount(run.calls) == SendCount(calls) + (if ex.renewedToken.Ok? then 1 else 0)
    ensures RequestCount(run.calls) == RequestCount(calls) + 1
  {
    match ex.renewedToken
    case Err(m) =>
      CountsAppend(calls, [RequestToken]);
      Run(Err(m), token, calls + [RequestToken])
    case Ok(t) =>
      CountsAppend(calls, [RequestToken, Send(t, content)]);
      var tail := [RequestToken, Send(t, content)];
      assert tail[1..] == [Send(t, content)];
      assert SendCount(tail[1..]) == 1 && RequestCount(tail[1..]) == 0;
      assert SendCount(tail) == 1 && RequestCount(tail) == 1;
      Run(if ex.resend.Ok? then Ok(()) else Err(ex.resend.message), t, calls + [RequestToken, Send(t, content)])
  }

  /** The channel's message endpoint under one API base. */
  function ChannelApi(base: string, channelId: string): string
  {
    base + "/channels/" + channelId + "/messages"
  }

  /** `new`: the message endpoint, on the sandbox host if the bot is configured for it. */
  function ApiUrl(conf: BotConfig): (r: string)
    ensures r == ChannelApi(if conf.sandbox then API_BOT_SANDBOX else API_BOT, conf.channelId)
  {
    if conf.sandbox then ChannelApi(API_BOT_SANDBOX, conf.channelId)
    else ChannelApi(API_BOT, conf.channelId)
  }

  /** Distinct hosts or channels never share an endpoint. */
  lemma ApiUrlInjective(a: BotConfig, b: BotConfig)
    requires ApiUrl(a) == ApiUrl(b)
    ensures a.sandbox == b.sandbox && a.channelId == b.channelId
  {
    var u := ApiUrl(a);
    assert a.sandbox == b.sandbox by {
      assert u[8] == ApiUrl(a)[8] == ApiUrl(b)[8];
    }
    var base := if a.sandbox then API_BOT_SANDBOX else API_BOT;
    var head := base + "/channels/";
    assert u == head + a.channelId + "/messages";
    assert u == head + b.channelId + "/messages";
    assert |a.channelId| == |b.channelId|;
    assert a.channelId == u[|head|..|head| + |a.channelId|];
    assert b.channelId == u[|head|..|head| + |b.channelId|];
  }

  /** One line of the message: the title and the rendered date in parentheses. */
  function ItemLine(item: Item, fmt: DateFormat): string
  {
    item.title + " (" + fmt(item.pubDate) + ")\n"
  }

  function ItemLines(items: seq<Item>, fmt: DateFormat): string
  {
    if items == [] then "" else ItemLine(items[0], fmt) + ItemLines(items[1..], fmt)
  }

  /** The text of `message`: the source name and a colon, then one line per item. */
  function MessageContent(source: string, items: seq<Item>, fmt: DateFormat): string
  {
    source + ":\n" + ItemLines(items, fmt)
  }

  /** The lines of a batch are the lines of its parts, in order. */
  lemma {:induction false} ItemLinesAppend(a: seq<Item>, b: seq<Item>, fmt: DateFormat)
    ensures ItemLines(a + b, fmt) == ItemLines(a, fmt) + ItemLines(b, fmt)
  {
    if a == [] {
      assert a + b == b;
    } else {
      assert (a + b)[0] == a[0];
      assert (a + b)[1..] == a[1..] + b;
      ItemLinesAppend(a[1..], b, fmt);
    }
  }

  /** Sending a batch in chunks sends, line for line, the text of the whole batch. */
  lemma {:induction false} ItemLinesFlatten(chunks: seq<seq<Item>>, fmt: DateFormat)
    ensures ItemLines(Flatten(chunks), fmt) == ConcatLines(chunks, fmt)
  {
    if chunks != [] {
      ItemLinesAppend(chunks[0], Flatten(chunks[1..]), fmt);
      ItemLinesFlatten(chunks[1..], fmt);
    }
  }

  function ConcatLines(chunks: seq<seq<Item>>, fmt: DateFormat): string
  {
    if chunks == [] then "" else ItemLines(chunks[0], fmt) + ConcatLines(chunks[1..], fmt)
  }

  /** `message`: the header, then a `push_str` per item. */
  method BuildMessage(source: string, items: seq<Item>, fmt: DateFormat) returns (content: string)
    ensures content == MessageContent(source, items, fmt)
    ensures content[..|source| + 2] == source + ":\n"
  {
    content := source + ":\n";
    for i := 0 to |items|
      invariant content == source + ":\n" + ItemLines(items[..i], fmt)
    {
      ItemLinesAppend(items[..i], [items[i]], fmt);
      assert items[..i + 1] == items[..i] + [items[i]];
      content := content + ItemLine(items[i], fmt);
    }
    assert items[..|items|] == items;
  }
}
