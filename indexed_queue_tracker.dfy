/** The indexed queue tracker: a bounded in-memory window over an external,
    index-ordered event log. Live items are appended at the tail and the
    window is trimmed from the head; a lookup by index drops stale items and
    backfills from storage when the requested index is older than the
    window. */
module IndexedQueue {
  import opened Common
  import opened IndexOrder

  /** One buffered item: the index that the formatting callback gave it and
      the raw item. */
  datatype QueueItem<D> = QueueItem(queueIndex: string, data: D)

  /** Neighbouring items have strictly ascending indices. */
  ghost predicate Ascending<D>(q: seq<QueueItem<D>>)
  {
    forall i :: 0 <= i < |q| - 1 ==> Less(q[i].queueIndex, q[i + 1].queueIndex)
  }

  lemma {:induction false} AscendingPairs<D>(q: seq<QueueItem<D>>, i: nat, j: nat)
    requires Ascending(q) && i < j < |q|
    ensures Less(q[i].queueIndex, q[j].queueIndex)
  {
    if j > i + 1 {
      AscendingPairs(q, i, j - 1);
      LessTransitive(q[i].queueIndex, q[j - 1].queueIndex, q[j].queueIndex);
    }
  }

  lemma AscendingSuffix<D>(q: seq<QueueItem<D>>, k: nat)
    requires Ascending(q) && k <= |q|
    ensures Ascending(q[k..])
  {
    forall i | 0 <= i < |q[k..]| - 1
      ensures Less(q[k..][i].queueIndex, q[k..][i + 1].queueIndex)
    {
      assert q[k..][i] == q[k + i] && q[k..][i + 1] == q[k + i + 1];
    }
  }

  /** The items the backfill loop builds from raw storage items, in storage
      order. */
  function Formatted<D>(items: seq<D>, formatIndex: D -> string): (r: seq<QueueItem<D>>)
    ensures |r| == |items|
    ensures forall k :: 0 <= k < |items| ==> r[k] == QueueItem(formatIndex(items[k]), items[k])
  {
    if items == [] then [] else [QueueItem(formatIndex(items[0]), items[0])] + Formatted(items[1..], formatIndex)
  }

  /** How many leading items of `q` the stale-drop loop discards for
      `target`: exactly the leading run of items older than `target`. */
  function LeadingStale<D>(q: seq<QueueItem<D>>, target: string): (k: nat)
    ensures k <= |q|
    ensures forall i :: 0 <= i < k ==> Less(q[i].queueIndex, target)
    ensures k < |q| ==> !Less(q[k].queueIndex, target)
  {
    if q == [] || !Less(q[0].queueIndex, target) then 0
    else 1 + LeadingStale(q[1..], target)
  }

  /** In an ascending window that holds `target`, the drop loop stops exactly
      at that item. */
  lemma LeadingStaleFindsPresent<D>(q: seq<QueueItem<D>>, target: string, j: nat)
    requires Ascending(q) && j < |q| && q[j].queueIndex == target
    ensures LeadingStale(q, target) == j
  {
    var k := LeadingStale(q, target);
    if k < j {
      AscendingPairs(q, k, j);
    } else if k > j {
      LessIrreflexive(target);
    }
  }

  /** One step of the backfill loop: prepend `x` only when the window is
      empty or `x` is strictly older than the current head. */
  function PrependIfOlder<D>(q: seq<QueueItem<D>>, x: QueueItem<D>): seq<QueueItem<D>>
  {
    if q == [] || Less(x.queueIndex, q[0].queueIndex) then [x] + q else q
  }

  /** The window after the backfill loop has walked `items` from the last to
      the first. */
  function Backfill<D>(q: seq<QueueItem<D>>, items: seq<D>, formatIndex: D -> string): seq<QueueItem<D>>
  {
    if items == [] then q
    else PrependIfOlder(Backfill(q, items[1..], formatIndex), QueueItem(formatIndex(items[0]), items[0]))
  }

  /** Backfill only prepends: the old window is a suffix of the new one, and
      every prepended item is one of the storage items. It never trims. */
  lemma {:induction false} BackfillExtends<D>(q: seq<QueueItem<D>>, items: seq<D>, formatIndex: D -> string)
    ensures var b := Backfill(q, items, formatIndex);
      |q| <= |b| <= |q| + |items| && b[|b| - |q|..] == q &&
      forall i :: 0 <= i < |b| - |q| ==> b[i] in Formatted(items, formatIndex)
  {
    if items != [] {
      BackfillExtends(q, items[1..], formatIndex);
      var rest := Backfill(q, items[1..], formatIndex);
      var x := QueueItem(formatIndex(items[0]), items[0]);
      var f := Formatted(items, formatIndex);
      assert f == [x] + Formatted(items[1..], formatIndex);
      var b := Backfill(q, items, formatIndex);
      if b != rest {
        assert b == [x] + rest;
        assert b[|b| - |q|..] == rest[|rest| - |q|..];
        forall i | 0 <= i < |b| - |q|
          ensures b[i] in f
        {
          if i > 0 {
            assert b[i] == rest[i - 1];
          }
        }
      }
    }
  }

  /** Whatever order storage returns, backfill keeps an ascending window
      ascending. */
  lemma {:induction false} BackfillAscending<D>(q: seq<QueueItem<D>>, items: seq<D>, formatIndex: D -> string)
    requires Ascending(q)
    ensures Ascending(Backfill(q, items, formatIndex))
  {
    if items != [] {
      BackfillAscending(q, items[1..], formatIndex);
      var rest := Backfill(q, items[1..], formatIndex);
      var x := QueueItem(formatIndex(items[0]), items[0]);
      if rest != [] && Less(x.queueIndex, rest[0].queueIndex) {
        var b := [x] + rest;
        forall i | 0 <= i < |b| - 1
          ensures Less(b[i].queueIndex, b[i + 1].queueIndex)
        {
          if i > 0 {
            assert b[i] == rest[i - 1] && b[i + 1] == rest[i];
          }
        }
      }
    }
  }

  /** If the window head and every storage item are newer than `t`, so is
      the head after backfill. */
  lemma {:induction false} BackfillHeadAbove<D>(q: seq<QueueItem<D>>, items: seq<D>, formatIndex: D -> string, t: string)
    requires q == [] || Less(t, q[0].queueIndex)
    requires forall k :: 0 <= k < |items| ==> Less(t, formatIndex(items[k]))
    ensures var b := Backfill(q, items, formatIndex); b == [] || Less(t, b[0].queueIndex)
  {
    if items != [] {
      BackfillHeadAbove(q, items[1..], formatIndex, t);
    }
  }

  /** When storage honours its contract (ascending items at or after the
      requested index) and holds the requested index, and the window holds
      nothing at or below it, backfill puts storage's first item, which has
      that index, at the head. */
  lemma BackfillFindsTarget<D>(q: seq<QueueItem<D>>, items: seq<D>, formatIndex: D -> string, target: string, j: nat)
    requires q == [] || Less(target, q[0].queueIndex)
    requires Ascending(Formatted(items, formatIndex))
    requires forall k :: 0 <= k < |items| ==> !Less(formatIndex(items[k]), target)
    requires j < |items| && formatIndex(items[j]) == target
    ensures Backfill(q, items, formatIndex) == [QueueItem(target, items[0])] + Backfill(q, items[1..], formatIndex)
  {
    var f := Formatted(items, formatIndex);
    if j > 0 {
      AscendingPairs(f, 0, j);
    }
    assert formatIndex(items[0]) == target;
    forall k | 0 <= k < |items[1..]|
      ensures Less(target, formatIndex(items[1..][k]))
    {
      AscendingPairs(f, 0, k + 1);
    }
    BackfillHeadAbove(q, items[1..], formatIndex, target);
  }

  /** The result and the new window of `dequeueAtQueueIndex`: drop the stale
      run, take an exact match if it surfaces, otherwise backfill and take
      the head if it is the requested index. */
  function DequeueAt<D>(q: seq<QueueItem<D>>, target: string, items: seq<D>, formatIndex: D -> string)
    : (Option<QueueItem<D>>, seq<QueueItem<D>>)
  {
    var rest := q[LeadingStale(q, target)..];
    if rest != [] && rest[0].queueIndex == target then (Some(rest[0]), rest[1..])
    else
      var b := Backfill(rest, items, formatIndex);
      if b != [] && b[0].queueIndex == target then (Some(b[0]), b[1..]) else (None, b)
  }

  /** A returned item always has the requested index and comes from the
      window or from storage; so an index found in neither is not found. */
  lemma DequeueAtSound<D>(q: seq<QueueItem<D>>, target: string, items: seq<D>, formatIndex: D -> string)
    ensures var (r, _) := DequeueAt(q, target, items, formatIndex);
      r.Some? ==> r.value.queueIndex == target && (r.value in q || r.value in Formatted(items, formatIndex))
  {
    var k := LeadingStale(q, target);
    BackfillExtends(q[k..], items, formatIndex);
  }

  /** In an ascending window, an index that the window holds is returned
      without consulting storage. */
  lemma DequeueAtFindsInWindow<D>(q: seq<QueueItem<D>>, target: string, items: seq<D>, formatIndex: D -> string, j: nat)
    requires Ascending(q) && j < |q| && q[j].queueIndex == target
    ensures DequeueAt(q, target, items, formatIndex) == (Some(q[j]), q[j + 1..])
  {
    LeadingStaleFindsPresent(q, target, j);
  }

  /** An index missing from the window but held by storage (which returns
      ascending items at or after it) is returned. */
  lemma DequeueAtFindsInStorage<D>(q: seq<QueueItem<D>>, target: string, items: seq<D>, formatIndex: D -> string, j: nat)
    requires Ascending(q) && forall i :: 0 <= i < |q| ==> q[i].queueIndex != target
    requires Ascending(Formatted(items, formatIndex))
    requires forall k :: 0 <= k < |items| ==> !Less(formatIndex(items[k]), target)
    requires j < |items| && formatIndex(items[j]) == target
    ensures var (r, _) := DequeueAt(q, target, items, formatIndex);
      r.Some? && r.value == QueueItem(target, items[0])
  {
    var k := LeadingStale(q, target);
    var rest := q[k..];
    if rest != [] {
      assert rest[0] == q[k];
      LessTrichotomy(target, rest[0].queueIndex);
    }
    BackfillFindsTarget(rest, items, formatIndex, target, j);
  }

  /** Looking an index up keeps an ascending window ascending. */
  lemma DequeueAtAscending<D>(q: seq<QueueItem<D>>, target: string, items: seq<D>, formatIndex: D -> string)
    requires Ascending(q)
    ensures Ascending(DequeueAt(q, target, items, formatIndex).1)
  {
    var k := LeadingStale(q, target);
    AscendingSuffix(q, k);
    var rest := q[k..];
    if rest != [] && rest[0].queueIndex == target {
      AscendingSuffix(rest, 1);
    } else {
      BackfillAscending(rest, items, formatIndex);
      var b := Backfill(rest, items, formatIndex);
      if b != [] {
        AscendingSuffix(b, 1);
      }
    }
  }

  /** The last `n` items of `s` (all of `s` when it is shorter). */
  function LastN<T>(s: seq<T>, n: nat): (r: seq<T>)
    ensures |r| == if |s| < n then |s| else n
    ensures r == s[|s| - |r|..]
  {
    if |s| <= n then s else s[|s| - n..]
  }

  /** The tracker's `change` event. */
  datatype TrackerEvent = QueueChanged

  class IndexedQueueTracker<D> {
    /** The window, oldest first. */
    var queue: seq<QueueItem<D>>
    /** Whether the tracker still receives `queue:item` events. */
    var subscribed: bool
    const maximumQueueLength: nat
    const formatIndex: D -> string

    constructor (formatIndex: D -> string, maximumQueueLength: nat)
      ensures this.formatIndex == formatIndex && this.maximumQueueLength == maximumQueueLength
      ensures queue == [] && subscribed
    {
      this.formatIndex := formatIndex;
      this.maximumQueueLength := maximumQueueLength;
      queue := [];
      subscribed := true;
    }

    method Dispose()
      modifies this
      ensures queue == [] && !subscribed
    {
      subscribed := false;
      queue := [];
    }

    /** Pops the head of the window, or returns nothing when it is empty. */
    method Dequeue() returns (r: Option<QueueItem<D>>)
      modifies this`queue
      ensures old(queue) == [] ==> r == None && queue == []
      ensures old(queue) != [] ==> r == Some(old(queue)[0]) && queue == old(queue)[1..]
    {
      if queue == [] {
        r := None;
      } else {
        r := Some(queue[0]);
        queue := queue[1..];
      }
    }

    /** A live `queue:item`: appended at the tail, then the oldest items are
        shifted off until the window fits `maximumQueueLength`; listeners
        then hear `change`. */
    method OnQueueItem(data: D) returns (emitted: seq<TrackerEvent>)
      modifies this`queue
      ensures emitted == [QueueChanged]
      ensures queue == LastN(old(queue) + [QueueItem(formatIndex(data), data)], maximumQueueLength)
      ensures |queue| <= maximumQueueLength
      ensures maximumQueueLength > 0 ==> queue[|queue| - 1] == QueueItem(formatIndex(data), data)
    {
      var item := QueueItem(formatIndex(data), data);
      ghost var appended := queue + [item];
      queue := queue + [item];
      while |queue| > maximumQueueLength
        invariant |queue| <= |appended| && queue == appended[|appended| - |queue|..]
        invariant |queue| >= if |appended| < maximumQueueLength then |appended| else maximumQueueLength
        decreases |queue|
      {
        queue := queue[1..];
      }
      emitted := [QueueChanged];
    }

    /** Lines 54-69 of `dequeueAtQueueIndex`: shift off items older than
        `target`; return and consume an exact match; put back a newer head. */
    method DropStale(target: string) returns (found: Option<QueueItem<D>>)
      modifies this`queue
      ensures var rest := old(queue)[LeadingStale(old(queue), target)..];
        if rest != [] && rest[0].queueIndex == target then found == Some(rest[0]) && queue == rest[1..]
        else found == None && queue == rest
    {
      ghost var q0 := queue;
      found := None;
      while queue != []
        invariant |queue| <= |q0| && queue == q0[|q0| - |queue|..]
        invariant forall i :: 0 <= i < |q0| - |queue| ==> Less(q0[i].queueIndex, target)
        invariant found == None
        decreases |queue|
      {
        var item := queue[0];
        queue := queue[1..];
        if Less(item.queueIndex, target) {
          continue;
        } else if item.queueIndex == target {
          found := Some(item);
          return;
        } else {
          queue := [item] + queue;
          break;
        }
      }
    }

    /** Lines 77-96 of `dequeueAtQueueIndex`, run once storage has answered
        with `items`: walk them from the last to the first, prepending each
        one that is older than the head, then take the head if it matches. */
    method MergeBackfill(target: string, items: seq<D>) returns (found: Option<QueueItem<D>>)
      modifies this`queue
      ensures var b := Backfill(old(queue), items, formatIndex);
        if b != [] && b[0].queueIndex == target then found == Some(b[0]) && queue == b[1..]
        else found == None && queue == b
    {
      ghost var q0 := queue;
      var i := |items|;
      while i > 0
        invariant 0 <= i <= |items|
        invariant queue == Backfill(q0, items[i..], formatIndex)
      {
        i := i - 1;
        var item := QueueItem(formatIndex(items[i]), items[i]);
        assert items[i..][1..] == items[i + 1..];
        if queue == [] || Less(item.queueIndex, queue[0].queueIndex) {
          queue := [item] + queue;
        }
      }
      assert items[0..] == items;
      if queue != [] && queue[0].queueIndex == target {
        found := Some(queue[0]);
        queue := queue[1..];
      } else {
        found := None;
      }
    }

    /** `dequeueAtQueueIndex`, with the storage answer for `target` given as
        `storageItems` (it is only used when the window has no match). */
    method DequeueAtQueueIndex(target: string, storageItems: seq<D>) returns (found: Option<QueueItem<D>>)
      modifies this`queue
      ensures (found, queue) == DequeueAt(old(queue), target, storageItems, formatIndex)
      ensures found.Some? ==> found.value.queueIndex == target
      ensures Ascending(old(queue)) ==> Ascending(queue)
    {
      ghost var q0 := queue;
      found := DropStale(target);
      if found.None? {
        found := MergeBackfill(target, storageItems);
      }
      DequeueAtSound(q0, target, storageItems, formatIndex);
      if Ascending(q0) {
        DequeueAtAscending(q0, target, storageItems, formatIndex);
      }
    }
  }
}
