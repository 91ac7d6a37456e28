/**
 * The go-cqhttp notifier of src/notifier/cqhttp.rs: every item becomes one or two
 * forward-message nodes, the nodes go to every configured user and group, and each
 * delivery posts its envelopes one after another until the first failure.
 */
module CQHttp {
  import opened Common
  import opened Notifier

  /** The notifier's configuration as far as it is read. */
  datatype CqConfig = CqConfig(
    api: string, dms: seq<nat>, groups: seq<nat>,
    name: string, uin: string, withTorrent: bool, delay: nat)

  datatype Data = Data(senderName: string, senderUin: string, content: string)

  /** One node of a forward message. */
  datatype Message = Message(msgType: string, data: Data)

  datatype PrivateMsg = PrivateMsg(userId: nat, messages: seq<Message>)

  datatype GroupMsg = GroupMsg(groupId: nat, messages: seq<Message>)

  /** What one delivery did: where it posted, what it posted, and the error it logged, if any. */
  datatype Delivery<T> = Delivery(url: string, posted: seq<T>, result: Result<()>)

  /** The node count per item: the text node, and the link node when torrents are wanted. */
  function NodesPerItem(conf: CqConfig): nat
  {
    if conf.withTorrent then 2 else 1
  }

  /** The text of an item's first node. */
  function ItemText(source: string, item: Item, fmt: DateFormat): string
  {
    source + ":\n" + item.title + " (" + fmt(item.pubDate) + ")"
  }

  /** A node sent under the configured name and account. */
  predicate FromBot(conf: CqConfig, m: Message)
  {
    m.msgType == "node" && m.data.senderName == conf.name && m.data.senderUin == conf.uin
  }

  /** `messages`: the nodes of one item. */
  function ItemMessages(conf: CqConfig, source: string, item: Item, fmt: DateFormat): (r: seq<Message>)
    ensures |r| == NodesPerItem(conf)
    ensures forall i :: 0 <= i < |r| ==> FromBot(conf, r[i])
    ensures r[0].data.content == ItemText(source, item, fmt)
    ensures conf.withTorrent ==> r[1].data.content == item.url
  {
    var text := Message("node", Data(conf.name, conf.uin, ItemText(source, item, fmt)));
    if conf.withTorrent then [text, Message("node", Data(conf.name, conf.uin, item.url))] else [text]
  }

  /** The nodes of a batch: each item's nodes, items in order. */
  function AllMessages(conf: CqConfig, source: string, items: seq<Item>, fmt: DateFormat): (r: seq<Message>)
    ensures |r| == |items| * NodesPerItem(conf)
    ensures forall i :: 0 <= i < |r| ==> FromBot(conf, r[i])
  {
    if items == [] then []
    else
      var rest := AllMessages(conf, source, items[1..], fmt);
      assert |items| * NodesPerItem(conf) == NodesPerItem(conf) + (|items| - 1) * NodesPerItem(conf);
      ItemMessages(conf, source, items[0], fmt) + rest
  }

  /** Item `k`'s nodes sit at positions `k * p` to `k * p + p` of the batch's nodes. */
  lemma {:induction false} AllMessagesLayout(conf: CqConfig, source: string, items: seq<Item>, fmt: DateFormat, k: nat)
    requires k < |items|
    ensures var p := NodesPerItem(conf);
            k * p + p <= |AllMessages(conf, source, items, fmt)| &&
            AllMessages(conf, source, items, fmt)[k * p..k * p + p] == ItemMessages(conf, source, items[k], fmt)
  {
    var p := NodesPerItem(conf);
    var head := ItemMessages(conf, source, items[0], fmt);
    var rest := AllMessages(conf, source, items[1..], fmt);
    assert AllMessages(conf, source, items, fmt) == head + rest;
    if k > 0 {
      AllMessagesLayout(conf, source, items[1..], fmt, k - 1);
      MulStep(k, p);
      SliceOfSecond(head, rest, (k - 1) * p + p, p);
    }
  }

  lemma MulStep(k: nat, p: nat)
    requires k > 0
    ensures k * p == (k - 1) * p + p
  {
  }

  lemma SliceOfSecond<T>(a: seq<T>, b: seq<T>, i: nat, len: nat)
    requires |a| <= i && i + len <= |a| + |b|
    ensures (a + b)[i..i + len] == b[i - |a|..i - |a| + len]
  {
  }

  lemma {:induction false} AllMessagesSnoc(conf: CqConfig, source: string, items: seq<Item>, x: Item, fmt: DateFormat)
    ensures AllMessages(conf, source, items + [x], fmt) ==
            AllMessages(conf, source, items, fmt) + ItemMessages(conf, source, x, fmt)
  {
    if items == [] {
      assert items + [x] == [x];
    } else {
      assert (items + [x])[0] == items[0];
      assert (items + [x])[1..] == items[1..] + [x];
      AllMessagesSnoc(conf, source, items[1..], x, fmt);
    }
  }

  /** The loops of lines 69-72 and 86-89: extend the node list item by item. */
  method CollectMessages(conf: CqConfig, source: string, items: seq<Item>, fmt: DateFormat) returns (msgs: seq<Message>)
    ensures msgs == AllMessages(conf, source, items, fmt)
    ensures |msgs| == |items| * NodesPerItem(conf)
  {
    msgs := [];
    for i := 0 to |items|
      invariant msgs == AllMessages(conf, source, items[..i], fmt)
    {
      AllMessagesSnoc(conf, source, items[..i], items[i], fmt);
      assert items[..i + 1] == items[..i] + [items[i]];
      msgs := msgs + ItemMessages(conf, source, items[i], fmt);
    }
    assert items[..|items|] == items;
  }

  /** The private envelopes: one per user, users in configured order, each with all nodes. */
  function PrivateEnvelopes(dms: seq<nat>, msgs: seq<Message>): (r: seq<PrivateMsg>)
    ensures |r| == |dms|
    ensures forall i :: 0 <= i < |r| ==> r[i] == PrivateMsg(dms[i], msgs)
  {
    if dms == [] then [] else [PrivateMsg(dms[0], msgs)] + PrivateEnvelopes(dms[1..], msgs)
  }

  /** The group envelopes: one per group, groups in configured order, each with all nodes. */
  function GroupEnvelopes(groups: seq<nat>, msgs: seq<Message>): (r: seq<GroupMsg>)
    ensures |r| == |groups|
    ensures forall i :: 0 <= i < |r| ==> r[i] == GroupMsg(groups[i], msgs)
  {
    if groups == [] then [] else [GroupMsg(groups[0], msgs)] + GroupEnvelopes(groups[1..], msgs)
  }

  /** `private_messages`. */
  method PrivateMessages(conf: CqConfig, msgs: seq<Message>) returns (envelopes: seq<PrivateMsg>)
    ensures envelopes == PrivateEnvelopes(conf.dms, msgs)
  {
    envelopes := [];
    for i := 0 to |conf.dms|
      invariant |envelopes| == i
      invariant forall j :: 0 <= j < i ==> envelopes[j] == PrivateMsg(conf.dms[j], msgs)
    {
      envelopes := envelopes + [PrivateMsg(conf.dms[i], msgs)];
    }
  }

  /** `group_messages`. */
  method GroupMessages(conf: CqConfig, msgs: seq<Message>) returns (envelopes: seq<GroupMsg>)
    ensures envelopes == GroupEnvelopes(conf.groups, msgs)
  {
    envelopes := [];
    for i := 0 to |conf.groups|
      invariant |envelopes| == i
      invariant forall j :: 0 <= j < i ==> envelopes[j] == GroupMsg(conf.groups[j], msgs)
    {
      envelopes := envelopes + [GroupMsg(conf.groups[i], msgs)];
    }
  }

  /**
   * What posting `envelopes` in order, stopping at the first failed post, leaves behind:
   * `posted` is the prefix that was posted; every post but a failing last one succeeded,
   * and the result is the failing post's error, or success when every envelope went out.
   */
  predicate StopsAtFirstError<T(==)>(envelopes: seq<T>, post: nat -> Result<()>, r: Result<()>, posted: seq<T>)
  {
    |posted| <= |envelopes| && posted == envelopes[..|posted|] &&
    (r.Ok? ==> |posted| == |envelopes| && forall i :: 0 <= i < |posted| ==> post(i).Ok?) &&
    (r.Err? ==> |posted| > 0 && post(|posted| - 1) == r && forall i :: 0 <= i < |posted| - 1 ==> post(i).Ok?)
  }

  /**
   * `send_messages`: post each envelope in turn; `post(i)` is the outcome of the `i`-th
   * post. The first failure ends the loop and is returned.
   */
  method SendMessages<T(==)>(envelopes: seq<T>, post: nat -> Result<()>) returns (r: Result<()>, posted: seq<T>)
    ensures StopsAtFirstError(envelopes, post, r, posted)
    ensures r.Ok? <==> forall i :: 0 <= i < |envelopes| ==> post(i).Ok?
  {
    posted := [];
    for i := 0 to |envelopes|
      invariant posted == envelopes[..i]
      invariant forall j :: 0 <= j < i ==> post(j).Ok?
    {
      posted := posted + [envelopes[i]];
      var sent := post(i);
      if sent.Err? {
        return sent, posted;
      }
    }
    r := Ok(());
  }

  /**
   * `notify`: the private and the group delivery, built from the same nodes; their
   * failures are only logged, so `notify` itself always succeeds. The two deliveries are
   * independent; `privatePost` and `groupPost` give each one's post outcomes.
   */
  method Notify(conf: CqConfig, source: string, items: seq<Item>, fmt: DateFormat,
                privatePost: nat -> Result<()>, groupPost: nat -> Result<()>)
    returns (r: Result<()>, pm: Delivery<PrivateMsg>, gm: Delivery<GroupMsg>)
    ensures r == Ok(())
    ensures pm.url == conf.api + "/send_private_forward_msg"
    ensures gm.url == conf.api + "/send_group_forward_msg"
    ensures StopsAtFirstError(PrivateEnvelopes(conf.dms, AllMessages(conf, source, items, fmt)), privatePost, pm.result, pm.posted)
    ensures StopsAtFirstError(GroupEnvelopes(conf.groups, AllMessages(conf, source, items, fmt)), groupPost, gm.result, gm.posted)
  {
    var pmMsgs := CollectMessages(conf, source, items, fmt);
    var pmEnvelopes := PrivateMessages(conf, pmMsgs);
    var pmUrl := conf.api + "/send_private_forward_msg";
    var pmResult, pmPosted := SendMessages(pmEnvelopes, privatePost);
    pm := Delivery(pmUrl, pmPosted, pmResult);

    var gmMsgs := CollectMessages(conf, source, items, fmt);
    var gmEnvelopes := GroupMessages(conf, gmMsgs);
    var gmUrl := conf.api + "/send_group_forward_msg";
    var gmResult, gmPosted := SendMessages(gmEnvelopes, groupPost);
    gm := Delivery(gmUrl, gmPosted, gmResult);

    r := Ok(());
  }
}
