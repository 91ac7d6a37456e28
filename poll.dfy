/**
 * The polling loop of src/main.rs: each tick fetches the feed, notifies the whole
 * fetched list, keeps the items newer than the watermark `last_update`, notifies
 * those and then moves the watermark to the newest of them.
 */
module Poll {
  import opened Common
  import opened Mikan

  /** `get_new_items`: the fetched RSS items, each converted with `From<MikanRSSItem>`. */
  function GetNewItems(fetched: Result<seq<RssItem>>, parse: string -> Instant): (r: Result<seq<Item>>)
    ensures fetched.Err? <==> r.Err?
    ensures r.Err? ==> r.message == fetched.message
    ensures r.Ok? ==> |r.value| == |fetched.value|
    ensures r.Ok? ==> forall i :: 0 <= i < |r.value| ==> r.value[i] == FromRss(fetched.value[i], parse)
  {
    match fetched
    case Err(m) => Err(m)
    case Ok(rss) => Ok(seq(|rss|, i requires 0 <= i < |rss| => FromRss(rss[i], parse)))
  }

  /** The `filter` of lines 50-53: the items published strictly after `lastUpdate`. */
  function NewItems(items: seq<Item>, lastUpdate: Instant): (r: seq<Item>)
    ensures |r| <= |items|
    ensures forall it :: it in r <==> it in items && it.pubDate > lastUpdate
  {
    if items == [] then []
    else (if items[0].pubDate > lastUpdate then [items[0]] else []) + NewItems(items[1..], lastUpdate)
  }

  /** Filtering keeps fetched order: it distributes over concatenation. */
  lemma {:induction false} NewItemsAppend(a: seq<Item>, b: seq<Item>, lastUpdate: Instant)
    ensures NewItems(a + b, lastUpdate) == NewItems(a, lastUpdate) + NewItems(b, lastUpdate)
  {
    if a != [] {
      assert (a + b)[0] == a[0];
      assert (a + b)[1..] == a[1..] + b;
      NewItemsAppend(a[1..], b, lastUpdate);
    } else {
      assert a + b == b;
    }
  }

  /** Nothing is new when no fetched item is newer than the watermark. */
  lemma NewItemsNone(items: seq<Item>, lastUpdate: Instant)
    requires forall i :: 0 <= i < |items| ==> items[i].pubDate <= lastUpdate
    ensures NewItems(items, lastUpdate) == []
  {
  }

  /** The accumulator of the `fold` on lines 61-67, replaced only by a strictly later date. */
  function MaxFrom(acc: Instant, items: seq<Item>): (r: Instant)
    ensures r >= acc
    ensures forall i :: 0 <= i < |items| ==> items[i].pubDate <= r
    ensures r == acc || exists i :: 0 <= i < |items| && items[i].pubDate == r
    decreases |items|
  {
    if items == [] then acc
    else
      var r := MaxFrom(if items[0].pubDate > acc then items[0].pubDate else acc, items[1..]);
      assert forall i :: 1 <= i < |items| ==> items[i] == items[1..][i - 1];
      r
  }

  /** The new watermark: the fold seeded with the first new item's date. */
  function LatestDate(newItems: seq<Item>): (r: Instant)
    requires newItems != []
    ensures exists i :: 0 <= i < |newItems| && newItems[i].pubDate == r
    ensures forall i :: 0 <= i < |newItems| ==> newItems[i].pubDate <= r
  {
    MaxFrom(newItems[0].pubDate, newItems)
  }

  /** Advancing the watermark to the newest new item leaves nothing new in the same fetch. */
  lemma NoRenotify(items: seq<Item>, lastUpdate: Instant)
    requires NewItems(items, lastUpdate) != []
    ensures LatestDate(NewItems(items, lastUpdate)) > lastUpdate
    ensures NewItems(items, LatestDate(NewItems(items, lastUpdate))) == []
  {
    var recent := NewItems(items, lastUpdate);
    var w := LatestDate(recent);
    var k :| 0 <= k < |recent| && recent[k].pubDate == w;
    assert recent[k] in recent;
    forall i | 0 <= i < |items| ensures items[i].pubDate <= w {
      if items[i].pubDate > lastUpdate {
        assert items[i] in recent;
        var j :| 0 <= j < |recent| && recent[j] == items[i];
      }
    }
    NewItemsNone(items, w);
  }

  /** The outcomes the outside world supplies to one tick. */
  datatype TickInput = TickInput(
    fetch: Result<seq<Item>>,   // get_new_items
    fullNotify: Result<()>,     // notify of the whole fetched list (line 49)
    newNotify: Result<()>)      // notify of the new items (line 58)

  /** Whether the tick reaches the watermark update of line 61. */
  predicate Advances(lastUpdate: Instant, t: TickInput)
  {
    t.fetch.Ok? && t.fullNotify.Ok? && NewItems(t.fetch.value, lastUpdate) != [] && t.newNotify.Ok?
  }

  /** The watermark after one tick. */
  function NextWatermark(lastUpdate: Instant, t: TickInput): (r: Instant)
    ensures r >= lastUpdate
    ensures r > lastUpdate <==> Advances(lastUpdate, t)
    ensures r == lastUpdate <==> !Advances(lastUpdate, t)
    ensures Advances(lastUpdate, t) ==> r == LatestDate(NewItems(t.fetch.value, lastUpdate))
    ensures Advances(lastUpdate, t) ==> NewItems(t.fetch.value, r) == []
  {
    if Advances(lastUpdate, t) then
      NoRenotify(t.fetch.value, lastUpdate);
      LatestDate(NewItems(t.fetch.value, lastUpdate))
    else lastUpdate
  }

  /** The item lists a tick passes to `notify`, in call order. */
  function TickNotifications(lastUpdate: Instant, t: TickInput): (r: seq<seq<Item>>)
    ensures |r| <= 2
    ensures t.fetch.Err? <==> r == []
    ensures t.fetch.Ok? ==> r[0] == t.fetch.value
    ensures |r| == 2 <==> t.fetch.Ok? && t.fullNotify.Ok? && NewItems(t.fetch.value, lastUpdate) != []
    ensures |r| == 2 ==> r[1] == NewItems(t.fetch.value, lastUpdate)
    ensures |r| == 2 ==> forall it :: it in r[1] <==> it in t.fetch.value && it.pubDate > lastUpdate
  {
    match t.fetch
    case Err(_) => []
    case Ok(items) =>
      var recent := NewItems(items, lastUpdate);
      if t.fullNotify.Err? || recent == [] then [items] else [items, recent]
  }

  /** What the `try` block of one tick yields; an error is only logged. */
  function TickResult(lastUpdate: Instant, t: TickInput): (r: Result<()>)
    ensures r.Ok? <==> (Advances(lastUpdate, t) ||
                        (t.fetch.Ok? && t.fullNotify.Ok? && NewItems(t.fetch.value, lastUpdate) == []))
  {
    match t.fetch
    case Err(m) => Err(m)
    case Ok(items) =>
      if t.fullNotify.Err? then t.fullNotify
      else if NewItems(items, lastUpdate) == [] then Ok(())
      else t.newNotify
  }

  /**
   * A second tick that fetches the same list after a completed first one: the whole list
   * is notified again (line 49), but nothing is new, so there is no second notify call.
   */
  lemma UnchangedFeed(lastUpdate: Instant, t: TickInput, again: TickInput)
    requires t.fetch.Ok? && TickResult(lastUpdate, t).Ok?
    requires again.fetch == t.fetch
    ensures TickNotifications(NextWatermark(lastUpdate, t), again) == [t.fetch.value]
  {
    var w := NextWatermark(lastUpdate, t);
    assert NewItems(t.fetch.value, w) == [];
  }

  /** The watermark after a run of ticks, ticks applied in order. */
  function Replay(lastUpdate: Instant, ticks: seq<TickInput>): (r: Instant)
    ensures r >= lastUpdate
  {
    if ticks == [] then lastUpdate
    else NextWatermark(Replay(lastUpdate, ticks[..|ticks| - 1]), ticks[|ticks| - 1])
  }

  /** The lists passed to `notify` over a run of ticks, in call order. */
  function ReplayNotifications(lastUpdate: Instant, ticks: seq<TickInput>): (r: seq<seq<Item>>)
    ensures |r| <= 2 * |ticks|
  {
    if ticks == [] then []
    else
      var init := ticks[..|ticks| - 1];
      ReplayNotifications(lastUpdate, init) + TickNotifications(Replay(lastUpdate, init), ticks[|ticks| - 1])
  }

  /** Extending a run by one tick applies that tick to the state the prefix left. */
  lemma ReplayStep(lastUpdate: Instant, ticks: seq<TickInput>, i: nat)
    requires i < |ticks|
    ensures Replay(lastUpdate, ticks[..i + 1]) == NextWatermark(Replay(lastUpdate, ticks[..i]), ticks[i])
    ensures ReplayNotifications(lastUpdate, ticks[..i + 1])
         == ReplayNotifications(lastUpdate, ticks[..i]) + TickNotifications(Replay(lastUpdate, ticks[..i]), ticks[i])
  {
    assert ticks[..i + 1][..i] == ticks[..i];
  }

  /** The watermark never decreases over a run: a later prefix ends at least as high. */
  lemma {:induction false} ReplayMonotone(lastUpdate: Instant, ticks: seq<TickInput>, i: nat, j: nat)
    requires i <= j <= |ticks|
    ensures Replay(lastUpdate, ticks[..i]) <= Replay(lastUpdate, ticks[..j])
    decreases j
  {
    if i < j {
      ReplayMonotone(lastUpdate, ticks, i, j - 1);
      assert ticks[..j][..j - 1] == ticks[..j - 1];
    }
  }

  /** The state `run` keeps between ticks. */
  class PollLoop {
    var lastUpdate: Instant
    /** Every list passed to `notify`, in call order. */
    ghost var notified: seq<seq<Item>>

    constructor (now: Instant)
      ensures lastUpdate == now && notified == []
    {
      lastUpdate := now;
      notified := [];
    }

    /** One iteration of the `loop` body after the sleep. */
    method Tick(t: TickInput) returns (r: Result<()>)
      modifies this
      ensures lastUpdate == NextWatermark(old(lastUpdate), t)
      ensures notified == old(notified) + TickNotifications(old(lastUpdate), t)
      ensures r == TickResult(old(lastUpdate), t)
      ensures r.Err? ==> lastUpdate == old(lastUpdate)
    {
      if t.fetch.Err? {
        return Err(t.fetch.message);
      }
      var items := t.fetch.value;
      notified := notified + [items];
      if t.fullNotify.Err? {
        return t.fullNotify;
      }
      var newItems := NewItems(items, lastUpdate);
      if newItems != [] {
        notified := notified + [newItems];
        if t.newNotify.Err? {
          return t.newNotify;
        }
        lastUpdate := LatestDate(newItems);
        return t.newNotify;
      }
      r := Ok(());
    }

    /** A finite stretch of the endless loop: the ticks in order, errors swallowed. */
    method Run(ticks: seq<TickInput>)
      modifies this
      ensures lastUpdate == Replay(old(lastUpdate), ticks)
      ensures lastUpdate >= old(lastUpdate)
      ensures notified == old(notified) + ReplayNotifications(old(lastUpdate), ticks)
    {
      var i := 0;
      while i < |ticks|
        invariant 0 <= i <= |ticks|
        invariant lastUpdate == Replay(old(lastUpdate), ticks[..i])
        invariant notified == old(notified) + ReplayNotifications(old(lastUpdate), ticks[..i])
      {
        ghost var before := notified;
        var _ := Tick(ticks[i]);
        ReplayStep(old(lastUpdate), ticks, i);
        assert notified == before + TickNotifications(Replay(old(lastUpdate), ticks[..i]), ticks[i]);
        i := i + 1;
      }
      assert ticks[..i] == ticks;
    }
  }

  /**
   * Lines 38-42 of `run`: an initial fetch whose items are only logged; a failed fetch
   * ends `run` with the error; otherwise the watermark starts at the current time.
   */
  method Start(initial: Result<seq<Item>>, now: Instant) returns (r: Result<PollLoop>)
    ensures initial.Err? <==> r.Err?
    ensures r.Err? ==> r.message == initial.message
    ensures r.Ok? ==> fresh(r.value) && r.value.lastUpdate == now && r.value.notified == []
  {
    if initial.Err? {
      return Err(initial.message);
    }
    var p := new PollLoop(now);
    r := Ok(p);
  }
}
