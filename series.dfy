/// Trailing-window time series, as both charts build them: a run of
/// consecutive day (or month) buckets starting at zero, to which every record
/// adds its amount when its own day (or month) matches a bucket's.
module Series {
  import opened Basics

  /** One point of a chart: the day or month number it stands for and its accumulated amount. */
  datatype Bucket = Bucket(key: int, amount: int)

  /** A record reduced to the day or month it falls on and its amount. */
  datatype Entry = Entry(key: int, amount: int)

  function BucketAmount(b: Bucket): int
  {
    b.amount
  }

  /** Sum of the amounts of the entries that fall on `key`. */
  function KeyTotal(entries: seq<Entry>, key: int): int
  {
    if entries == [] then 0
    else KeyTotal(entries[..|entries| - 1], key) + (if entries[|entries| - 1].key == key then entries[|entries| - 1].amount else 0)
  }

  /** Sum of the amounts of the entries whose key lies in `[lo, hi)`. */
  function RangeTotal(entries: seq<Entry>, lo: int, hi: int): int
  {
    if entries == [] then 0
    else
      var e := entries[|entries| - 1];
      RangeTotal(entries[..|entries| - 1], lo, hi) + (if lo <= e.key < hi then e.amount else 0)
  }

  /** The series over keys `first .. first + count - 1`, ascending, each bucket holding its key's total. */
  function Window(entries: seq<Entry>, first: int, count: nat): seq<Bucket>
  {
    seq(count, i => Bucket(first + i, KeyTotal(entries, first + i)))
  }

  /** Before any record is counted, every bucket of the window is at zero. */
  lemma EmptyWindowIsZero(first: int, count: nat)
    ensures |Window([], first, count)| == count
    ensures forall i :: 0 <= i < count ==> Window([], first, count)[i] == Bucket(first + i, 0)
  {
    forall i | 0 <= i < count
      ensures Window([], first, count)[i] == Bucket(first + i, 0)
    {
      assert KeyTotal([], first + i) == 0;
    }
  }

  /** Widening `[lo, hi)` by the key `hi` adds exactly that key's total. */
  lemma {:induction false} RangeTotalExtend(entries: seq<Entry>, lo: int, hi: int)
    requires lo <= hi
    ensures RangeTotal(entries, lo, hi + 1) == RangeTotal(entries, lo, hi) + KeyTotal(entries, hi)
    decreases |entries|
  {
    if entries != [] {
      RangeTotalExtend(entries[..|entries| - 1], lo, hi);
    }
  }

  /**
   * The buckets of a window sum to the amounts of exactly the entries that
   * fall inside it: nothing outside the window is counted, nothing inside lost.
   */
  lemma {:induction false} WindowTotal(entries: seq<Entry>, first: int, count: nat)
    ensures SumBy(Window(entries, first, count), BucketAmount) == RangeTotal(entries, first, first + count)
    decreases count
  {
    var w := Window(entries, first, count);
    if count == 0 {
      RangeTotalEmpty(entries, first);
    } else {
      WindowTotal(entries, first, count - 1);
      assert w[..count - 1] == Window(entries, first, count - 1);
      RangeTotalExtend(entries, first, first + count - 1);
    }
  }

  lemma {:induction false} RangeTotalEmpty(entries: seq<Entry>, lo: int)
    ensures RangeTotal(entries, lo, lo) == 0
    decreases |entries|
  {
    if entries != [] {
      RangeTotalEmpty(entries[..|entries| - 1], lo);
    }
  }

  /** A record whose key lies outside the window changes no bucket of it. */
  lemma {:induction false} OutsideEntryIgnored(entries: seq<Entry>, e: Entry, first: int, count: nat)
    requires e.key < first || first + count <= e.key
    ensures Window(entries + [e], first, count) == Window(entries, first, count)
  {
    var all := entries + [e];
    assert all[..|all| - 1] == entries;
    var w, w' := Window(entries, first, count), Window(all, first, count);
    forall i | 0 <= i < count
      ensures w'[i] == w[i]
    {
      assert KeyTotal(all, first + i) == KeyTotal(entries, first + i);
    }
  }

  /** `buckets.find(b => b.key === key)`, as an index: the first bucket with that key, or -1. */
  method FindBucket(buckets: array<Bucket>, key: int) returns (index: int)
    ensures -1 <= index < buckets.Length
    ensures 0 <= index ==> buckets[index].key == key
    ensures 0 <= index ==> forall j :: 0 <= j < index ==> buckets[j].key != key
    ensures index == -1 ==> forall j :: 0 <= j < buckets.Length ==> buckets[j].key != key
  {
    index := 0;
    while index < buckets.Length
      invariant 0 <= index <= buckets.Length
      invariant forall j :: 0 <= j < index ==> buckets[j].key != key
    {
      if buckets[index].key == key {
        return;
      }
      index := index + 1;
    }
    index := -1;
  }

  /**
   * The `forEach` over the records: each entry's bucket, when there is one,
   * gets `amount +=` the entry's amount.  Starting from the zero window, the
   * buckets end up holding the window of all the entries.
   */
  method Accumulate(buckets: array<Bucket>, entries: seq<Entry>, first: int)
    requires buckets[..] == Window([], first, buckets.Length)
    modifies buckets
    ensures buckets[..] == Window(entries, first, buckets.Length)
  {
    var n := buckets.Length;
    var k := 0;
    while k < |entries|
      invariant 0 <= k <= |entries|
      invariant buckets[..] == Window(entries[..k], first, n)
    {
      var e := entries[k];
      var index := FindBucket(buckets, e.key);
      if index >= 0 {
        buckets[index] := buckets[index].(amount := buckets[index].amount + e.amount);
      }
      assert entries[..k + 1][..k] == entries[..k];
      forall j | 0 <= j < n
        ensures buckets[j] == Window(entries[..k + 1], first, n)[j]
      {
        assert KeyTotal(entries[..k + 1], first + j)
          == KeyTotal(entries[..k], first + j) + (if e.key == first + j then e.amount else 0);
      }
      k := k + 1;
    }
    assert entries[..k] == entries;
  }
}
