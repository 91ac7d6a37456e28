# A Dafny model of the blooming feed notifier

blooming polls RSS feeds (Mikan and others), finds the items published since it last
looked, and posts them to QQ chats. There are three notifiers: a QQ channel bot, a QQ guild
bot and a go-cqhttp bridge. This project models the core of that program:

- the polling loop with its `last_update` watermark (`src/main.rs`);
- the message building, token refresh and retry-once logic of the two QQ bot notifiers
  (`src/notifier/qq.rs`, `src/notifier/qq_guild.rs`);
- the fan-out of forward messages to users and groups in the cqhttp notifier
  (`src/notifier/cqhttp.rs`);
- the meaning of `num_items_each_notify` (`src/notifier/mod.rs`);
- the source registry (`src/source/factory.rs`);
- the rendering of Mikan items (`src/mikan/mod.rs`).

The repository's files come from several revisions and do not fit together. `src/main.rs`
uses an older notifier with a different signature. The cqhttp notifier reads configuration
fields and an item link that this revision's `config` and `source::Item` do not have. Each
file is modelled on its own terms.

Modelling choices:

- A `DateTime<Local>` is an integer instant (`Common.Instant`), and chrono compares these
  instants.
- chrono's `Display` of a date is a function parameter (`DateFormat`) that stays
  uninterpreted. So is the RFC 3339 parser (`string -> Instant`).
- The network is a parameter. `QQBot.Exchange` holds the answers to a QQ `notify`: the lazy
  token fetch, the first post, the token renewal and the second post. For cqhttp, a function
  `nat -> Result<()>` gives the outcome of the i-th post. `Poll.TickInput` gives a tick its
  fetch result and the outcomes of its two `notify` calls. The fetch result stands for what
  `get_new_items` returns, so its items are already converted; `Poll.GetNewItems` models
  that conversion on its own.
- State that the source mutates becomes classes with fields:
  - `PollLoop.lastUpdate`;
  - `QQNotifier.accessToken` and `QQGuildNotifier.accessToken`;
  - `SourceFactory.sources`.
- Ghost logs record what the program sends out: the lists passed to `notify`, and the token
  requests and message posts of a QQ notifier.
- Each state-changing method is tied to a pure function of the old state: `NextWatermark`,
  `TickNotifications`, `TickResult` and the two `NotifyRun` functions. The properties are
  proved about those functions.
- The constants, the endpoints and the message text that `qq.rs` and `qq_guild.rs` both
  define are modelled once, in module `QQBot`. `message` is the same code in both files
  (`src/notifier/qq.rs:142-148` and `src/notifier/qq_guild.rs:132-138`).

The model follows the code as written:

- The watermark starts at the current time. It does not start at the newest initial item,
  and the initial items are only logged.
- Every tick also notifies the whole fetched list, before filtering (`src/main.rs:49`).
  `Poll.UnchangedFeed` shows that an unchanged feed is notified again on each tick, while
  the call for new items does not happen again.
- A failed `notify` of the new items leaves the watermark where it was. The `?` on line 58
  exits the `try` block before the update on line 61, so the watermark does not advance
  despite the failure.
- There is no retry around the fetch. A failed fetch skips the tick.
- No code in this revision splits a batch by `num_items_each_notify`. `Notifier.Chunks`
  states the doc comment's contract as a function.

In `qq.rs`, `notify` returns the `Result<Response>` of its second post where `Result<()>` is
expected, and `check_response` uses `.await` outside an async function. The model keeps the
evident intent:
- the second post's status is not inspected;
- only a transport failure of that post is an error;
- `check_response` branches as it is written.

## Model

| member | source | states |
|---|---|---|
| `Mikan.Rfc3339Text` | src/mikan/mod.rs:32-33 | the parser input is the torrent date followed by `+08:00` |
| `Mikan.FromRss` | src/mikan/mod.rs:30-41 | the title is kept; the date is the parse of the completed RFC 3339 text |
| `Mikan.Display` | src/mikan/mod.rs:43-47 | the rendering is the title, ` (`, the rendered date, `)`, with exactly that length |
| `Mikan.StringifyEmpty` | src/mikan/mod.rs:49-53 | no items render as the empty string |
| `Mikan.StringifySnoc` | src/mikan/mod.rs:49-53 | one fold step appends a newline and the new item's rendering |
| `Mikan.StringifyItems` | src/mikan/mod.rs:49-53 | the fold equals the in-order concatenation of newline-prefixed item renderings, and its length is the sum of 1 + each item rendering's length |
| `Poll.GetNewItems` | src/main.rs:19-28 | a fetch error propagates; otherwise one converted item per RSS item, same order |
| `Poll.NewItems` | src/main.rs:50-53 | an item is kept iff it was fetched and its date is strictly after the watermark |
| `Poll.NewItemsAppend` | src/main.rs:50-53 | filtering distributes over concatenation, so fetched order is kept |
| `Poll.NewItemsNone` | src/main.rs:50-53 | when no fetched date is after the watermark nothing is new |
| `Poll.MaxFrom` | src/main.rs:61-67 | the fold's result is at least the seed and every date, and is the seed or one of the dates |
| `Poll.LatestDate` | src/main.rs:61-67 | the new watermark is a date of the new items and no new item is later |
| `Poll.NoRenotify` | src/main.rs:50-67 | the new watermark is strictly later than the old, and re-filtering the same fetch yields nothing |
| `Poll.NextWatermark` | src/main.rs:47-69 | the watermark never decreases; it increases iff fetch and both notifies succeed and something is new; then it is the latest date among the new items, and nothing in that fetch is new |
| `Poll.TickNotifications` | src/main.rs:47-58 | no call after a failed fetch; first the whole fetched list; the new items (exactly the filter of the fetch by the old watermark) second iff the first call succeeded and some are new |
| `Poll.TickResult` | src/main.rs:47-76 | the tick succeeds iff fetch and every notify it made succeeded |
| `Poll.UnchangedFeed` | src/main.rs:48-67 | after a completed tick, the same fetch again notifies only the full list, with no new-item call |
| `Poll.Replay` | src/main.rs:44-77 | after any run of ticks the watermark is at least where it started |
| `Poll.ReplayNotifications` | src/main.rs:44-77 | a run of ticks makes at most two `notify` calls per tick |
| `Poll.ReplayStep` | src/main.rs:44-77 | one more tick applies that tick's watermark update and calls to the state the earlier ticks left |
| `Poll.ReplayMonotone` | src/main.rs:44-77 | the watermark after a longer prefix of ticks is at least that after a shorter one |
| `Poll.PollLoop.constructor` | src/main.rs:42 | the watermark starts at the given current time and nothing has been notified |
| `Poll.PollLoop.Tick` | src/main.rs:47-76 | the new watermark, the notify calls and the logged result are those of the tick functions; an error leaves the watermark alone |
| `Poll.PollLoop.Run` | src/main.rs:44-77 | running ticks in order moves the watermark as their replay does, never down, and appends exactly the replayed `notify` calls to the log |
| `Poll.Start` | src/main.rs:38-42 | a failed initial fetch ends `run` with its error; otherwise the watermark is the current time, with no notify |
| `Notifier.Chunks` | src/notifier/mod.rs:28-33 | the chunks concatenate to the batch; each is non-empty and at most n long, all but the last exactly n; limit 0 gives one chunk |
| `Notifier.DefaultIsWholeBatch` | src/notifier/mod.rs:28-33 | the default limit 0 sends a non-empty batch in one call |
| `Notifier.ChunkBounds` | src/notifier/mod.rs:28-30 | for n > 0 the chunk count k is the least with m <= k * n |
| `Notifier.ChunkCount` | src/notifier/mod.rs:28-30 | for n > 0 there are ceil(m / n) chunks |
| `QQBot.CountsAppend` | src/notifier/qq.rs:88-104 | post and token-request counts add up over concatenated call logs |
| `QQBot.SessionToken` | src/notifier/qq.rs:89-91 | the stored token is used when present, otherwise the fetched one |
| `QQBot.Renew` | src/notifier/qq.rs:100-102 | renewal requests a token, then re-posts the same text with it; its result is ok iff both calls succeed |
| `QQBot.ApiUrl` | src/notifier/qq.rs:112-117 | the endpoint is `/channels/{id}/messages` on the sandbox or the production host |
| `QQBot.ApiUrlInjective` | src/notifier/qq.rs:112-117 | different hosts or channel ids never give the same endpoint |
| `QQBot.ItemLinesAppend` | src/notifier/qq.rs:144-146 | the lines of a batch are the lines of its parts, in order |
| `QQBot.ItemLinesFlatten` | src/notifier/qq.rs:144-146 | the lines of a chunked batch are the chunks' lines concatenated |
| `QQBot.BuildMessage` | src/notifier/qq.rs:142-148 | the text is `source:\n` and then `title (date)\n` per item, in order |
| `QQ.CheckResponse` | src/notifier/qq.rs:69-84 | 401, or 500 with code 11244, means an invalid token; any other 500 is an error with its message; any other status is valid |
| `QQ.NotifyRun` | src/notifier/qq.rs:88-104 | a failed lazy fetch is the only call and its error; a valid first answer means exactly one post with the session token; an invalid one means exactly that post, one token request and, if it succeeds, a re-post with the renewed token, which is then stored; a failed post or check is its own error; a failed renewal is its error and keeps the session token |
| `QQ.QQNotifier.constructor` | src/notifier/qq.rs:112-125 | a new notifier has the configured endpoint and an empty token |
| `QQ.QQNotifier.Notify` | src/notifier/qq.rs:88-104 | result, stored token and call log are those of the run function |
| `QQ.BatchesOfThree` | src/notifier/qq.rs:106-108 | with 3 items per call a batch goes out in ceil(m / 3) messages of 1 to 3 items, in order |
| `QQGuild.NotifyRun` | src/notifier/qq_guild.rs:69-94 | a failed lazy fetch is the only call and its error; 401 or an expiry 500 leads to exactly one token request and, if it succeeds, a re-post with the renewed token, which is then stored; another 500 is its message's (or its decoding's) error after one post with the session token; other statuses succeed after one post; the re-post's status is never read |
| `QQGuild.SameAsQQ` | src/notifier/qq_guild.rs:76-93 | the inline status chain does exactly what the QQ notifier's check and retry do |
| `QQGuild.QQGuildNotifier.constructor` | src/notifier/qq_guild.rs:102-115 | a new notifier has the configured endpoint and an empty token |
| `QQGuild.QQGuildNotifier.Notify` | src/notifier/qq_guild.rs:69-94 | result, stored token and call log are those of the run function |
| `QQGuild.BatchesOfFive` | src/notifier/qq_guild.rs:96-98 | with 5 items per call a batch goes out in ceil(m / 5) messages of 1 to 5 items, in order |
| `CQHttp.ItemMessages` | src/notifier/cqhttp.rs:110-130 | one node, two with torrents; all are `node`s from the configured sender; the text node and then the link |
| `CQHttp.AllMessages` | src/notifier/cqhttp.rs:69-72 | a batch has items times nodes-per-item nodes, all from the configured sender |
| `CQHttp.AllMessagesLayout` | src/notifier/cqhttp.rs:69-72 | item k's nodes sit at positions k*p to k*p+p, so item order is kept |
| `CQHttp.AllMessagesSnoc` | src/notifier/cqhttp.rs:69-72 | extending the batch by an item appends that item's nodes |
| `CQHttp.CollectMessages` | src/notifier/cqhttp.rs:69-72 | the loop's node list is the batch's nodes, of length items times nodes-per-item |
| `CQHttp.PrivateEnvelopes` | src/notifier/cqhttp.rs:132-141 | one envelope per user, in configured order, each with the whole node list |
| `CQHttp.GroupEnvelopes` | src/notifier/cqhttp.rs:143-152 | one envelope per group, in configured order, each with the whole node list |
| `CQHttp.PrivateMessages` | src/notifier/cqhttp.rs:132-141 | the loop builds exactly the private envelopes |
| `CQHttp.GroupMessages` | src/notifier/cqhttp.rs:143-152 | the loop builds exactly the group envelopes |
| `CQHttp.SendMessages` | src/notifier/cqhttp.rs:154-165 | envelopes are posted in order up to and including the first failure, which is returned; success iff every post succeeds |
| `CQHttp.Notify` | src/notifier/cqhttp.rs:63-102 | always succeeds; each delivery posts a prefix of its envelopes, built from the same nodes, to its own endpoint and stops at its first failure |
| `Factory.SourceFactory.constructor` | src/source/factory.rs:25-28 | a default factory holds no sources |
| `Factory.SourceFactory.Register` | src/source/factory.rs:31-33 | the source is appended; length grows by one; earlier entries are unchanged |
| `Factory.SourceFactory.Sources` | src/source/factory.rs:35-37 | the sources in registration order, read without change |
| `Factory.RegisterFromConfig` | src/source/factory.rs:19-23 | nothing changes without a Mikan configuration; with one, exactly that source is appended |

## Left out

- Network I/O (`reqwest` requests, the RSS download, `get_access_token`, `send_message`,
  the cqhttp posts, `check_connection`): their results are parameters.
- The `tokio::join!` of the two cqhttp deliveries: they are modelled as two independent
  sequential runs, with no claim about how their posts interleave.
- `thread::sleep` between ticks and the `delay` sleep between cqhttp posts: timing is not modelled.
- `Local::now()`: the current time is a parameter of `Poll.Start`.
- chrono parsing and formatting (RFC 3339 in `From<MikanRSSItem>`, RFC 2822 for Byrbt):
  dates are instants, and their rendering and parsing are uninterpreted parameters. The
  `unwrap` panic on a malformed date is not modelled.
- XML and JSON (de)serialisation and HTTP headers: the error body of a QQ response arrives
  already decoded, or as a decoding error.
- Logging (`info!`, `error!`): the logged initial items and errors are not modelled. The
  logged error of a tick or a cqhttp delivery is returned as its result.
- Configuration loading, the command line and daemonisation (`main`, `src/config/mod.rs`).
- The Source implementations, `src/source/item.rs` and `src/lib.rs`. `CQHTTPNotifier::new`
  only stores its arguments.
- `Poll.PollLoop.Run`: models a finite stretch of the endless `loop`, one tick per input.
- `Notifier.Chunks`: the splitting of a batch across `notify` calls is a specification. No
  code in this revision performs it, and `Poll` calls `notify` with whole lists, as `src/main.rs` does.
- Integer widths: status codes, error codes, user and group ids are unbounded integers.
  Nothing in the model does arithmetic on them.
