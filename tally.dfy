/// Per-key totals, as both charts compute their breakdowns: a plain object
/// used as a dictionary, `acc[key] = (acc[key] || 0) + amount`, read back
/// with `Object.entries` in the order the labels were first seen.
module Tally {
  import opened Basics

  /** One record as the breakdown sees it: the key it is counted under and its amount. */
  datatype Item = Item(key: string, amount: int)

  /** One key of the accumulator object with the sum collected under it. */
  datatype Total = Total(key: string, amount: int)

  function TotalAmount(t: Total): int
  {
    t.amount
  }

  /** Position of `key` among the accumulator's keys, or `|acc|` when it is not a key. */
  function IndexOf(acc: seq<Total>, key: string): (i: nat)
    ensures i <= |acc|
    ensures i < |acc| ==> acc[i].key == key
    ensures forall j :: 0 <= j < i ==> acc[j].key != key
  {
    if acc == [] then 0
    else if acc[0].key == key then 0
    else 1 + IndexOf(acc[1..], key)
  }

  /** `acc[key] = (acc[key] || 0) + amount`: an existing key keeps its place, a new one goes last. */
  function Add(acc: seq<Total>, key: string, amount: int): seq<Total>
  {
    var i := IndexOf(acc, key);
    if i < |acc| then acc[i := Total(key, acc[i].amount + amount)]
    else acc + [Total(key, amount)]
  }

  /** The accumulator after folding every item in order, from `{}`. */
  function Totals(items: seq<Item>): seq<Total>
  {
    if items == [] then [] else Add(Totals(items[..|items| - 1]), items[|items| - 1].key, items[|items| - 1].amount)
  }

  /** Sum of the amounts of the items counted under `key`. */
  function SumFor(items: seq<Item>, key: string): int
  {
    if items == [] then 0
    else SumFor(items[..|items| - 1], key) + (if items[|items| - 1].key == key then items[|items| - 1].amount else 0)
  }

  predicate HasKey(acc: seq<Total>, key: string)
  {
    exists t :: t in acc && t.key == key
  }

  predicate Mentions(items: seq<Item>, key: string)
  {
    exists it :: it in items && it.key == key
  }

  ghost predicate DistinctKeys(acc: seq<Total>)
  {
    forall i, j :: 0 <= i < j < |acc| ==> acc[i].key != acc[j].key
  }

  lemma {:induction false} UnmentionedIsZero(items: seq<Item>, key: string)
    requires !Mentions(items, key)
    ensures SumFor(items, key) == 0
    decreases |items|
  {
    if items != [] {
      var init := items[..|items| - 1];
      assert forall it :: it in init ==> it in items;
      UnmentionedIsZero(init, key);
    }
  }

  /** What the breakdown promises about the records folded so far. */
  ghost predicate SumsOf(acc: seq<Total>, items: seq<Item>)
  {
    DistinctKeys(acc) &&
    (forall t :: t in acc ==> t.amount == SumFor(items, t.key)) &&
    (forall key :: HasKey(acc, key) <==> Mentions(items, key))
  }

  /**
   * The breakdown is a dictionary of the records: each key that occurs
   * appears exactly once, no other key appears, and each carries the sum of
   * the amounts counted under it.
   */
  lemma {:induction false} TotalsAreSums(items: seq<Item>)
    ensures DistinctKeys(Totals(items))
    ensures forall t :: t in Totals(items) ==> t.amount == SumFor(items, t.key)
    ensures forall key :: HasKey(Totals(items), key) <==> Mentions(items, key)
    decreases |items|
  {
    if items != [] {
      var init, last := items[..|items| - 1], items[|items| - 1];
      TotalsAreSums(init);
      var acc := Totals(init);
      assert Totals(items) == Add(acc, last.key, last.amount);
      assert items == init + [last];
      if IndexOf(acc, last.key) < |acc| {
        AddToKnownKey(acc, init, last);
      } else {
        AddNewKey(acc, init, last);
      }
    }
  }

  /** Adding a record under a key already present updates that key's sum in place. */
  lemma AddToKnownKey(acc: seq<Total>, init: seq<Item>, last: Item)
    requires SumsOf(acc, init)
    requires IndexOf(acc, last.key) < |acc|
    ensures SumsOf(Add(acc, last.key, last.amount), init + [last])
  {
    var acc' := Add(acc, last.key, last.amount);
    assert forall j :: 0 <= j < |acc| ==> acc'[j].key == acc[j].key;
    KnownKeyAmounts(acc, init, last);
    KnownKeyMentions(acc, init, last);
  }

  lemma KnownKeyAmounts(acc: seq<Total>, init: seq<Item>, last: Item)
    requires SumsOf(acc, init)
    requires IndexOf(acc, last.key) < |acc|
    ensures forall t :: t in Add(acc, last.key, last.amount) ==> t.amount == SumFor(init + [last], t.key)
  {
    var items := init + [last];
    assert items[..|items| - 1] == init;
    var acc' := Add(acc, last.key, last.amount);
    var i := IndexOf(acc, last.key);
    forall t | t in acc'
      ensures t.amount == SumFor(items, t.key)
    {
      var j :| 0 <= j < |acc'| && acc'[j] == t;
      if j != i {
        assert acc[j] == t;
        assert acc[j].key != acc[i].key;
      }
    }
  }

  lemma KnownKeyMentions(acc: seq<Total>, init: seq<Item>, last: Item)
    requires SumsOf(acc, init)
    requires IndexOf(acc, last.key) < |acc|
    ensures forall key :: HasKey(Add(acc, last.key, last.amount), key) <==> Mentions(init + [last], key)
  {
    var items := init + [last];
    var acc' := Add(acc, last.key, last.amount);
    var i := IndexOf(acc, last.key);
    assert forall it :: it in items <==> it in init || it == last;
    assert forall j :: 0 <= j < |acc| ==> acc'[j].key == acc[j].key;
    forall key | HasKey(acc', key)
      ensures Mentions(items, key)
    {
      var t :| t in acc' && t.key == key;
      var j :| 0 <= j < |acc'| && acc'[j] == t;
      assert acc[j] in acc && acc[j].key == key;
      assert HasKey(acc, key);
      var it :| it in init && it.key == key;
      assert it in items;
    }
    forall key | Mentions(items, key)
      ensures HasKey(acc', key)
    {
      if key == last.key {
        assert acc'[i] in acc';
      } else {
        assert HasKey(acc, key);
        var t :| t in acc && t.key == key;
        var j :| 0 <= j < |acc| && acc[j] == t;
        assert acc'[j] in acc';
      }
    }
  }

  /** Adding a record under a new key appends that key with the record's amount. */
  lemma AddNewKey(acc: seq<Total>, init: seq<Item>, last: Item)
    requires SumsOf(acc, init)
    requires IndexOf(acc, last.key) == |acc|
    ensures SumsOf(Add(acc, last.key, last.amount), init + [last])
  {
    var items := init + [last];
    assert items[..|items| - 1] == init;
    var acc' := Add(acc, last.key, last.amount);
    assert !HasKey(acc, last.key);
    UnmentionedIsZero(init, last.key);
    assert forall it :: it in items <==> it in init || it == last;
    assert forall t :: t in acc' <==> t in acc || t == Total(last.key, last.amount);
    forall key
      ensures HasKey(acc', key) <==> Mentions(items, key)
    {
      if key == last.key {
        assert Total(last.key, last.amount) in acc';
        assert last in items;
      } else {
        assert HasKey(acc', key) <==> HasKey(acc, key);
        assert Mentions(items, key) <==> Mentions(init, key);
      }
    }
  }

  function ItemAmount(it: Item): int
  {
    it.amount
  }

  lemma {:induction false} SumAfterUpdate(acc: seq<Total>, i: nat, t: Total)
    requires i < |acc|
    ensures SumBy(acc[i := t], TotalAmount) == SumBy(acc, TotalAmount) - acc[i].amount + t.amount
    decreases |acc|
  {
    var acc' := acc[i := t];
    if i < |acc| - 1 {
      assert acc'[..|acc'| - 1] == acc[..|acc| - 1][i := t];
      SumAfterUpdate(acc[..|acc| - 1], i, t);
    } else {
      assert acc'[..|acc'| - 1] == acc[..|acc| - 1];
    }
  }

  /** Nothing is lost or counted twice: the totals add up to the sum of all the items. */
  lemma {:induction false} TotalsKeepGrandTotal(items: seq<Item>)
    ensures SumBy(Totals(items), TotalAmount) == SumBy(items, ItemAmount)
    decreases |items|
  {
    if items != [] {
      var init, last := items[..|items| - 1], items[|items| - 1];
      TotalsKeepGrandTotal(init);
      var acc := Totals(init);
      assert Totals(items) == Add(acc, last.key, last.amount);
      assert SumBy(items, ItemAmount) == SumBy(init, ItemAmount) + last.amount;
      var i := IndexOf(acc, last.key);
      if i < |acc| {
        var t := Total(last.key, acc[i].amount + last.amount);
        assert Add(acc, last.key, last.amount) == acc[i := t];
        SumAfterUpdate(acc, i, t);
      } else {
        var acc' := acc + [Total(last.key, last.amount)];
        assert Add(acc, last.key, last.amount) == acc';
        assert acc'[..|acc'| - 1] == acc;
      }
    }
  }

  /** The `reduce` over the records, updating the accumulator object one record at a time. */
  method Accumulate(items: seq<Item>) returns (acc: seq<Total>)
    ensures acc == Totals(items)
  {
    acc := [];
    var k := 0;
    while k < |items|
      invariant 0 <= k <= |items|
      invariant acc == Totals(items[..k])
    {
      var i := IndexOf(acc, items[k].key);
      if i < |acc| {
        acc := acc[i := Total(items[k].key, acc[i].amount + items[k].amount)];
      } else {
        acc := acc + [Total(items[k].key, items[k].amount)];
      }
      assert items[..k + 1][..k] == items[..k];
      k := k + 1;
    }
    assert items[..k] == items;
  }
}
