/**
 * The two row schemas of the price frames and the two frame operations the
 * fetchers end with: `sort_values(key)` and `drop_duplicates(key)`.
 */
module Frames {
  import opened Outcomes

  const MsPerDay := 86_400_000

  /** The UTC calendar day (days since the epoch) of a millisecond timestamp, as `normalize()` floors it. */
  function DayOf(ms: int): int
  {
    ms / MsPerDay
  }

  /** One `[ms, value]` pair of a CoinGecko series; None for a null value. */
  datatype Point = Point(ms: int, value: Option<int>)

  /** A row of the market-chart schema: date, price, market_cap, total_volume; None stands for a missing or non-numeric value. */
  datatype ChartRow = ChartRow(date: int, price: Option<int>, marketCap: Option<int>, totalVolume: Option<int>)

  /** A row of the daily-close schema: timestamp_utc, date, close, volume. */
  datatype CloseRow = CloseRow(timestampMs: int, date: int, close: Option<int>, volume: Option<int>)

  /** `pd.concat(frames)` / `rows.extend(page)` page after page: the frames one after the other. */
  function Concat<T>(frames: seq<seq<T>>): seq<T>
  {
    if frames == [] then [] else Concat(frames[..|frames| - 1]) + frames[|frames| - 1]
  }

  /** Appending one more frame extends the concatenation by that frame. */
  lemma ConcatSnoc<T>(frames: seq<seq<T>>, last: seq<T>)
    ensures Concat(frames + [last]) == Concat(frames) + last
  {
    assert (frames + [last])[..|frames|] == frames;
  }

  /** Putting one frame in front extends the concatenation at the front. */
  lemma {:induction false} ConcatCons<T>(first: seq<T>, frames: seq<seq<T>>)
    ensures Concat([first] + frames) == first + Concat(frames)
    decreases |frames|
  {
    if frames == [] {
      assert [first] + frames == [first];
      assert Concat([first]) == Concat<T>([]) + first;
    } else {
      var init, last := frames[..|frames| - 1], frames[|frames| - 1];
      ConcatCons(first, init);
      var all := [first] + frames;
      assert all[..|all| - 1] == [first] + init && all[|all| - 1] == last;
      assert Concat(all) == (first + Concat(init)) + last;
      assert frames == init + [last];
      assert Concat(frames) == Concat(init) + last;
      assert (first + Concat(init)) + last == first + (Concat(init) + last);
    }
  }

  function ChartDate(row: ChartRow): int { row.date }

  function CloseTimestamp(row: CloseRow): int { row.timestampMs }

  ghost predicate SortedBy<T>(s: seq<T>, key: T -> int)
  {
    forall i, j | 0 <= i < j < |s| :: key(s[i]) <= key(s[j])
  }

  /** Sorted with no key twice: one row per key. */
  ghost predicate StrictlySortedBy<T>(s: seq<T>, key: T -> int)
  {
    forall i, j | 0 <= i < j < |s| :: key(s[i]) < key(s[j])
  }

  /** The keys (dates, timestamps) present in a frame. */
  function Keys<T(==)>(s: seq<T>, key: T -> int): set<int>
  {
    set y | y in s :: key(y)
  }

  /** A row no greater than every row of a sorted frame can go in front of it. */
  lemma PrependSorted<T>(h: T, s: seq<T>, key: T -> int)
    requires SortedBy(s, key)
    requires forall i | 0 <= i < |s| :: key(h) <= key(s[i])
    ensures SortedBy([h] + s, key)
  {
    var r := [h] + s;
    forall i, j | 0 <= i < j < |r| ensures key(r[i]) <= key(r[j]) {
      assert r[j] == s[j - 1];
      if i > 0 {
        assert r[i] == s[i - 1];
      }
    }
  }

  /** In a sorted frame no row has a key below the first row's. */
  lemma HeadIsLeast<T>(s: seq<T>, key: T -> int)
    requires s != [] && SortedBy(s, key)
    ensures forall y | y in s :: key(s[0]) <= key(y)
  {
    forall y | y in s ensures key(s[0]) <= key(y) {
      var j :| 0 <= j < |s| && s[j] == y;
    }
  }

  /** The step of an insertion behind the first row: the first row stays in front of the insertion into the rest. */
  lemma InsertStep<T>(head: T, tail: seq<T>, x: T, rest: seq<T>, key: T -> int)
    requires SortedBy([head] + tail, key) && key(head) <= key(x)
    requires SortedBy(rest, key)
    requires multiset(rest) == multiset(tail) + multiset{x}
    requires forall i | 0 <= i < |rest| :: rest[i] == x || rest[i] in tail
    ensures SortedBy([head] + rest, key)
    ensures multiset([head] + rest) == multiset([head] + tail) + multiset{x}
    ensures forall i | 0 <= i < |[head] + rest| :: ([head] + rest)[i] == x || ([head] + rest)[i] in [head] + tail
  {
    HeadIsLeast([head] + tail, key);
    assert forall i | 0 <= i < |rest| :: key(head) <= key(rest[i]);
    PrependSorted(head, rest, key);
    var r := [head] + rest;
    forall i | 0 <= i < |r| ensures r[i] == x || r[i] in [head] + tail {
      if i > 0 {
        assert r[i] == rest[i - 1];
      }
    }
  }

  function InsertBy<T(==)>(x: T, s: seq<T>, key: T -> int): (r: seq<T>)
    requires SortedBy(s, key)
    ensures SortedBy(r, key)
    ensures multiset(r) == multiset(s) + multiset{x}
    ensures forall i | 0 <= i < |r| :: r[i] == x || r[i] in s
  {
    if s == [] then [x]
    else if key(x) < key(s[0]) then
      PrependSorted(x, s, key);
      [x] + s
    else
      var head, tail := s[0], s[1..];
      assert s == [head] + tail;
      SortedTail(head, tail, key);
      var rest := InsertBy(x, tail, key);
      InsertStep(head, tail, x, rest, key);
      [head] + rest
  }

  /** Dropping the first row of a sorted frame leaves it sorted. */
  lemma SortedTail<T>(head: T, tail: seq<T>, key: T -> int)
    requires SortedBy([head] + tail, key)
    ensures SortedBy(tail, key)
  {
    var s := [head] + tail;
    forall i, j | 0 <= i < j < |tail| ensures key(tail[i]) <= key(tail[j]) {
      assert tail[i] == s[i + 1] && tail[j] == s[j + 1];
    }
  }

  /** `sort_values(key)`: the same rows, ordered by key. */
  function SortBy<T(==)>(s: seq<T>, key: T -> int): (r: seq<T>)
    ensures SortedBy(r, key)
    ensures multiset(r) == multiset(s)
  {
    if s == [] then []
    else
      assert s == s[..|s| - 1] + [s[|s| - 1]];
      InsertBy(s[|s| - 1], SortBy(s[..|s| - 1], key), key)
  }

  /** One more row adds its key to the frame's keys. */
  lemma KeysSnoc<T>(s: seq<T>, x: T, key: T -> int)
    ensures Keys(s + [x], key) == Keys(s, key) + {key(x)}
  {
    assert forall y | y in s + [x] :: y in s || y == x;
  }

  /** In a sorted frame no row has a key above the last row's. */
  lemma LastIsGreatest<T>(s: seq<T>, key: T -> int)
    requires s != [] && SortedBy(s, key)
    ensures forall y | y in s :: key(y) <= key(s[|s| - 1])
  {
    forall y | y in s ensures key(y) <= key(s[|s| - 1]) {
      var j :| 0 <= j < |s| && s[j] == y;
    }
  }

  /** A row whose key is above every key of a strictly sorted frame extends it strictly sorted. */
  lemma AppendAbove<T>(d: seq<T>, x: T, key: T -> int)
    requires StrictlySortedBy(d, key)
    requires forall i | 0 <= i < |d| :: key(d[i]) < key(x)
    ensures StrictlySortedBy(d + [x], key)
  {
    var r := d + [x];
    forall i, j | 0 <= i < j < |r| ensures key(r[i]) < key(r[j]) {
      assert r[i] == d[i];
    }
  }

  /** Dropping the last row of a sorted frame leaves it sorted. */
  lemma SortedPrefix<T>(init: seq<T>, x: T, key: T -> int)
    requires SortedBy(init + [x], key)
    ensures SortedBy(init, key)
  {
    var s := init + [x];
    forall i, j | 0 <= i < j < |init| ensures key(init[i]) <= key(init[j]) {
      assert init[i] == s[i] && init[j] == s[j];
    }
  }

  /** Appending a row with a new key after the deduplicated prefix of a sorted frame keeps it strictly sorted. */
  lemma AppendNewKey<T>(init: seq<T>, x: T, d: seq<T>, key: T -> int)
    requires forall i | 0 <= i < |d| :: d[i] in init && key(d[i]) != key(x)
    requires SortedBy(init, key) ==> StrictlySortedBy(d, key)
    ensures SortedBy(init + [x], key) ==> StrictlySortedBy(d + [x], key)
  {
    var s := init + [x];
    if SortedBy(s, key) {
      SortedPrefix(init, x, key);
      LastIsGreatest(s, key);
      assert forall i | 0 <= i < |d| :: d[i] in s;
      AppendAbove(d, x, key);
    }
  }

  /** `row` occurs in `s` at a position where no earlier row has its key: it is the first row of its key. */
  ghost predicate FirstOfKey<T>(s: seq<T>, row: T, key: T -> int)
  {
    exists k | 0 <= k < |s| :: s[k] == row && key(row) !in Keys(s[..k], key)
  }

  /** A first occurrence in a frame stays one when a row is appended. */
  lemma FirstOfKeySnoc<T>(init: seq<T>, x: T, row: T, key: T -> int)
    requires FirstOfKey(init, row, key)
    ensures FirstOfKey(init + [x], row, key)
  {
    var k :| 0 <= k < |init| && init[k] == row && key(row) !in Keys(init[..k], key);
    assert (init + [x])[..k] == init[..k] && (init + [x])[k] == row;
  }

  /** The step of `drop_duplicates` keeps only first occurrences: the last row is one exactly when its key is new. */
  lemma DedupKeepsFirst<T>(init: seq<T>, x: T, d: seq<T>, r: seq<T>, key: T -> int)
    requires forall i | 0 <= i < |d| :: FirstOfKey(init, d[i], key)
    requires r == (if key(x) in Keys(init, key) then d else d + [x])
    ensures forall i | 0 <= i < |r| :: FirstOfKey(init + [x], r[i], key)
  {
    forall i | 0 <= i < |r| ensures FirstOfKey(init + [x], r[i], key) {
      if i < |d| {
        assert r[i] == d[i];
        FirstOfKeySnoc(init, x, d[i], key);
      } else {
        assert (init + [x])[..|init|] == init && (init + [x])[|init|] == r[i];
      }
    }
  }

  /** The step of `drop_duplicates`: the last row of a frame is kept exactly when its key is new. */
  lemma DedupStep<T>(init: seq<T>, x: T, d: seq<T>, key: T -> int)
    requires forall i | 0 <= i < |d| :: d[i] in init
    requires Keys(d, key) == Keys(init, key)
    requires forall i, j | 0 <= i < j < |d| :: key(d[i]) != key(d[j])
    requires SortedBy(init, key) ==> StrictlySortedBy(d, key)
    ensures var r := if key(x) in Keys(init, key) then d else d + [x];
      && (forall i | 0 <= i < |r| :: r[i] in init + [x])
      && Keys(r, key) == Keys(init + [x], key)
      && (forall i, j | 0 <= i < j < |r| :: key(r[i]) != key(r[j]))
      && (SortedBy(init + [x], key) ==> StrictlySortedBy(r, key))
  {
    KeysSnoc(init, x, key);
    if SortedBy(init + [x], key) {
      SortedPrefix(init, x, key);
    }
    if key(x) !in Keys(init, key) {
      KeysSnoc(d, x, key);
      var r := d + [x];
      assert forall i | 0 <= i < |d| :: key(d[i]) in Keys(init, key);
      assert forall i | 0 <= i < |d| :: key(d[i]) != key(x);
      AppendNewKey(init, x, d, key);
      forall i, j | 0 <= i < j < |r| ensures key(r[i]) != key(r[j]) {
        assert r[i] == d[i];
      }
    }
  }

  /**
   * `drop_duplicates(key)` with its default `keep="first"`: each row whose
   * key has not been seen earlier in the frame, in order.
   */
  function DropDuplicatesBy<T(==)>(s: seq<T>, key: T -> int): (r: seq<T>)
    ensures forall i | 0 <= i < |r| :: r[i] in s
    ensures forall i | 0 <= i < |r| :: FirstOfKey(s, r[i], key)
    ensures Keys(r, key) == Keys(s, key)
    ensures forall i, j | 0 <= i < j < |r| :: key(r[i]) != key(r[j])
    ensures SortedBy(s, key) ==> StrictlySortedBy(r, key)
  {
    if s == [] then []
    else
      var init, x := s[..|s| - 1], s[|s| - 1];
      assert s == init + [x];
      var d := DropDuplicatesBy(init, key);
      DedupStep(init, x, d, key);
      var r := if key(x) in Keys(init, key) then d else d + [x];
      DedupKeepsFirst(init, x, d, r, key);
      r
  }

  /** `sort_values(key).drop_duplicates(key)`: one row per key, in increasing key order, each taken from the input. */
  function SortDedupBy<T(==)>(s: seq<T>, key: T -> int): (r: seq<T>)
    ensures StrictlySortedBy(r, key)
    ensures Keys(r, key) == Keys(s, key)
    ensures forall i | 0 <= i < |r| :: r[i] in s
  {
    var sorted := SortBy(s, key);
    assert forall y | y in s :: y in sorted by {
      forall y | y in s ensures y in sorted {
        assert y in multiset(s);
      }
    }
    assert forall y | y in sorted :: y in s by {
      forall y | y in sorted ensures y in s {
        assert y in multiset(sorted);
      }
    }
    assert Keys(sorted, key) == Keys(s, key);
    DropDuplicatesBy(sorted, key)
  }
}
