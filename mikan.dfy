/** The feed item of the Mikan RSS dialect and how it is rendered (src/mikan/mod.rs). */
module Mikan {
  import opened Common

  /** The `<torrent>` element of an RSS item; its date has no zone offset. */
  datatype Torrent = Torrent(link: string, contentLength: string, pubDate: string)

  /** One `<item>` of the Mikan RSS channel as the XML layer delivers it. */
  datatype RssItem = RssItem(guid: string, link: string, title: string, description: string, torrent: Torrent)

  datatype Item = Item(title: string, pubDate: Instant)

  /** The zone offset appended to every torrent date before it is parsed. */
  const CHINA_OFFSET: string := "+08:00"

  /** The RFC 3339 text handed to the date parser: the torrent date, then the offset. */
  function Rfc3339Text(torrentDate: string): (r: string)
    ensures |r| == |torrentDate| + |CHINA_OFFSET|
    ensures r[..|torrentDate|] == torrentDate && r[|torrentDate|..] == CHINA_OFFSET
  {
    torrentDate + CHINA_OFFSET
  }

  /** `From<MikanRSSItem>`: keeps the title, parses the completed date with `parse`. */
  function FromRss(item: RssItem, parse: string -> Instant): (r: Item)
    ensures r.title == item.title
    ensures r.pubDate == parse(Rfc3339Text(item.torrent.pubDate))
  {
    Item(item.title, parse(item.torrent.pubDate + CHINA_OFFSET))
  }

  /** `Display for Item`: the title, a blank, and the rendered date in parentheses. */
  function Display(item: Item, fmt: DateFormat): (r: string)
    ensures |r| == |item.title| + |fmt(item.pubDate)| + 3
    ensures r[..|item.title|] == item.title
    ensures r[|item.title|..|item.title| + 2] == " ("
    ensures r[|item.title| + 2..|r| - 1] == fmt(item.pubDate)
    ensures r[|r| - 1] == ')'
  {
    item.title + " (" + fmt(item.pubDate) + ")"
  }

  /**
   * `stringify_items`: a left fold that appends a newline and the item for each item.
   * The fold renders the items in order, each after its own newline, and is exactly as
   * long as its items' texts plus one newline each.
   */
  function StringifyItems(items: seq<Item>, fmt: DateFormat): (r: string)
    ensures r == Lines(items, fmt)
    ensures |r| == RenderedLength(items, fmt)
  {
    LinesLength(items, fmt);
    if items == [] then ""
    else
      var init, last := items[..|items| - 1], items[|items| - 1];
      assert items == init + [last];
      LinesSnoc(init, last, fmt);
      StringifyItems(init, fmt) + "\n" + Display(last, fmt)
  }

  /** Reference reading of the fold: the in-order concatenation of newline-prefixed items. */
  function Lines(items: seq<Item>, fmt: DateFormat): string
  {
    if items == [] then "" else "\n" + Display(items[0], fmt) + Lines(items[1..], fmt)
  }

  /** The total length the rendering takes: one newline plus the item text per item. */
  function RenderedLength(items: seq<Item>, fmt: DateFormat): nat
  {
    if items == [] then 0 else 1 + |Display(items[0], fmt)| + RenderedLength(items[1..], fmt)
  }

  lemma StringifyEmpty(fmt: DateFormat)
    ensures StringifyItems([], fmt) == ""
  {
  }

  /** One fold step: rendering `xs + [x]` extends the rendering of `xs`. */
  lemma StringifySnoc(xs: seq<Item>, x: Item, fmt: DateFormat)
    ensures StringifyItems(xs + [x], fmt) == StringifyItems(xs, fmt) + "\n" + Display(x, fmt)
  {
    assert (xs + [x])[..|xs|] == xs;
  }

  lemma {:induction false} LinesSnoc(xs: seq<Item>, x: Item, fmt: DateFormat)
    ensures Lines(xs + [x], fmt) == Lines(xs, fmt) + "\n" + Display(x, fmt)
  {
    if xs != [] {
      assert (xs + [x])[1..] == xs[1..] + [x];
      LinesSnoc(xs[1..], x, fmt);
    }
  }

  lemma {:induction false} LinesLength(items: seq<Item>, fmt: DateFormat)
    ensures |Lines(items, fmt)| == RenderedLength(items, fmt)
  {
    if items != [] {
      LinesLength(items[1..], fmt);
    }
  }
}
