/**
 * The notifier interface of src/notifier/mod.rs: the item every notifier receives and
 * the meaning of `num_items_each_notify`, read as a chunking of one batch.
 */
module Notifier {
  import opened Common

  /** The source item handed to notifiers; cqhttp also reads its link. */
  datatype Item = Item(title: string, pubDate: Instant, url: string)

  /** The trait's default `num_items_each_notify`: 0, "all items at once". */
  const DEFAULT_ITEMS_EACH_NOTIFY: nat := 0

  function Flatten<T>(chunks: seq<seq<T>>): seq<T>
  {
    if chunks == [] then [] else chunks[0] + Flatten(chunks[1..])
  }

  /**
   * The item lists of the successive `notify` calls for one batch when each call may
   * take `n` items (0: no limit). Every chunk but the last holds exactly `n` items.
   */
  function Chunks<T>(items: seq<T>, n: nat): (r: seq<seq<T>>)
    ensures Flatten(r) == items
    ensures forall i :: 0 <= i < |r| ==> r[i] != [] && (n > 0 ==> |r[i]| <= n)
    ensures n > 0 ==> forall i :: 0 <= i < |r| - 1 ==> |r[i]| == n
    ensures items == [] <==> r == []
    ensures n == 0 && items != [] ==> r == [items]
    decreases |items|
  {
    if items == [] then []
    else if n == 0 || |items| <= n then [items]
    else
      var rest := Chunks(items[n..], n);
      assert items == items[..n] + items[n..];
      [items[..n]] + rest
  }

  /** Under the default limit a non-empty batch goes to a single `notify` call. */
  lemma DefaultIsWholeBatch<T>(items: seq<T>)
    requires items != []
    ensures Chunks(items, DEFAULT_ITEMS_EACH_NOTIFY) == [items]
  {
  }

  /** For a limit `n > 0`, a batch of `m` items takes the least `k` with `m <= k * n` calls. */
  lemma {:induction false} ChunkBounds<T>(items: seq<T>, n: nat)
    requires n > 0
    ensures (|Chunks(items, n)| - 1) * n < |items| <= |Chunks(items, n)| * n
    decreases |items|
  {
    if items == [] {
    } else if |items| <= n {
      assert |Chunks(items, n)| == 1;
    } else {
      ChunkBounds(items[n..], n);
      var k := |Chunks(items[n..], n)|;
      assert |Chunks(items, n)| == k + 1;
      BoundsStep(k, n, |items|);
    }
  }

  lemma BoundsStep(k: int, n: int, m: int)
    requires (k - 1) * n < m - n <= k * n
    ensures (k + 1 - 1) * n < m <= (k + 1) * n
  {
    assert (k + 1) * n == k * n + n;
    assert (k - 1) * n == k * n - n;
  }

  /** The same count as ceil(m / n), written with Dafny's division. */
  lemma ChunkCount<T>(items: seq<T>, n: nat)
    requires n > 0
    ensures |Chunks(items, n)| == (|items| + n - 1) / n
  {
    var k := |Chunks(items, n)|;
    ChunkBounds(items, n);
    var x := |items| + n - 1;
    assert k * n == (k - 1) * n + n;
    DivUnique(x, n, k, x - k * n);
  }

  /** Division is determined by any quotient/remainder pair. */
  lemma DivUnique(x: int, n: int, k: int, r: int)
    requires n > 0 && x == k * n + r && 0 <= r < n
    ensures x / n == k
  {
    var q, s := x / n, x % n;
    assert x == q * n + s && 0 <= s < n;
    assert (q - k) * n == r - s;
    if q - k >= 1 {
      MulAtLeast(q - k, n);
    } else if q - k <= -1 {
      MulAtLeast(k - q, n);
    }
  }

  lemma MulAtLeast(a: int, n: int)
    requires a >= 1 && n > 0
    ensures a * n >= n
  {
    assert a * n == (a - 1) * n + n;
  }
}
