/**
 * A FIFO bounded both in items and in bytes. The byte counter is kept incrementally; JavaScript's
 * `undefined` is told apart because taking one out looks like finding the array empty.
 */
module MessageBuffer {

  datatype Value<T> = Undefined | Value(v: T)

  function Sum<T>(measure: Value<T> -> nat, items: seq<Value<T>>): (n: nat) {
    if items == [] then 0 else measure(items[0]) + Sum(measure, items[1..])
  }

  lemma {:induction false} SumSplits<T>(measure: Value<T> -> nat, a: seq<Value<T>>, b: seq<Value<T>>)
    ensures Sum(measure, a + b) == Sum(measure, a) + Sum(measure, b)
  {
    if a == [] {
      assert a + b == b;
    } else {
      assert (a + b)[1..] == a[1..] + b;
      SumSplits(measure, a[1..], b);
    }
  }

  lemma SumHead<T>(measure: Value<T> -> nat, items: seq<Value<T>>)
    ensures Sum(measure, []) == 0
    ensures items != [] ==> Sum(measure, items) == measure(items[0]) + Sum(measure, items[1..])
  {}

  function Less(a: nat, b: nat): (n: nat) {
    if a >= b then a - b else 0
  }

  predicate Fits<T>(measure: Value<T> -> nat, maxItems: nat, maxBytes: nat, items: seq<Value<T>>) {
    |items| <= maxItems && Sum(measure, items) <= maxBytes
  }

  predicate Defined<T>(items: seq<Value<T>>) {
    forall i :: 0 <= i < |items| ==> items[i].Value?
  }

  // `kept` is what remains of `all`, and no longer suffix of `all` is within both budgets.
  ghost predicate LongestSuffix<T(!new)>(
    measure: Value<T> -> nat, maxItems: nat, maxBytes: nat, all: seq<Value<T>>, dropped: seq<Value<T>>,
        kept: seq<Value<T>>)
  {
    && all == dropped + kept
    && Fits(measure, maxItems, maxBytes, kept)
    && (forall k :: 0 <= k < |dropped| ==> !Fits(measure, maxItems, maxBytes, all[k..]))
  }

  // The longest suffix is unique, so it does not matter how it is found.
  lemma LongestSuffixIsUnique<T(!new)>(
    measure: Value<T> -> nat, maxItems: nat, maxBytes: nat, all: seq<Value<T>>,
    d1: seq<Value<T>>, k1: seq<Value<T>>, d2: seq<Value<T>>, k2: seq<Value<T>>)
    requires LongestSuffix(measure, maxItems, maxBytes, all, d1, k1)
    requires LongestSuffix(measure, maxItems, maxBytes, all, d2, k2)
    ensures d1 == d2 && k1 == k2
  {
    assert k1 == all[|d1|..] && k2 == all[|d2|..];
    assert d1 == all[..|d1|] && d2 == all[..|d2|];
  }

  class BoundedMessageBuffer<T(!new)> {
    var items: seq<Value<T>>
    var bytes: nat
    const maxItems: nat
    const maxBytes: nat
    const measure: Value<T> -> nat

    predicate Within() reads this {
      Fits(measure, maxItems, maxBytes, items)
    }

    ghost predicate Counted() reads this {
      bytes == Sum(measure, items)
    }

    ghost predicate Valid() reads this {
      maxItems >= 1 && maxBytes >= 1 && Counted() && Within() && Defined(items)
    }

    constructor (items: seq<Value<T>>, maxItems: nat, maxBytes: nat, measure: Value<T> -> nat)
      requires maxItems >= 1 && maxBytes >= 1
      ensures this.maxItems == maxItems && this.maxBytes == maxBytes && this.measure == measure
      ensures Defined(items) ==> Valid() && KeepsLongest(items)
    {
      this.items, this.maxItems, this.maxBytes, this.measure := items, maxItems, maxBytes, measure;
      bytes := 0;
      new;
      Recalculate();
      var dropped := Trim();
    }

    // Of `all`, the longest suffix within both budgets is left.
    ghost predicate KeepsLongest(all: seq<Value<T>>) reads this {
      exists dropped :: LongestSuffix(measure, maxItems, maxBytes, all, dropped, items)
    }

    // The limits are checked before anything is built.
    static method Make(items: seq<Value<T>>, maxItems: int, maxBytes: int, measure: Value<T> -> nat)
      returns (b: BoundedMessageBuffer?<T>)
      ensures b == null <==> maxItems < 1 || maxBytes < 1
      ensures b != null ==> fresh(b) && b.maxItems == maxItems && b.maxBytes == maxBytes && b.measure == measure
      ensures b != null && Defined(items) ==> b.Valid() && b.KeepsLongest(items)
    {
      if maxItems < 1 || maxBytes < 1 { return null; }
      b := new BoundedMessageBuffer(items, maxItems, maxBytes, measure);
    }

    method Recalculate()
      modifies this
      ensures items == old(items) && Counted()
    {
      var total, i := 0, 0;
      while i < |items|
        invariant 0 <= i <= |items| && items == old(items) && total == Sum(measure, items[..i])
      {
        assert items[..i + 1] == items[..i] + [items[i]];
        SumSplits(measure, items[..i], [items[i]]);
        total := total + measure(items[i]);
        i := i + 1;
      }
      assert items[..i] == items;
      bytes := total;
    }

    // Oldest first, until both budgets hold. Meeting an `undefined` ends the loop and loses it: it
    // is neither among the dropped nor subtracted from the counter.
    method Trim() returns (dropped: seq<Value<T>>)
      requires Counted()
      modifies this
      ensures Defined(dropped) && Trimmed(old(items), dropped)
      ensures Defined(old(items)) ==> |dropped| + |items| == |old(items)| && Defined(items)
    {
      hide Sum;
      ghost var all, n := items, 0;
      dropped := [];
      SumHead(measure, all);
      while |items| > maxItems || bytes > maxBytes
        invariant Counted() && 0 <= n <= |all| && dropped == all[..n] && items == all[n..] && Defined(dropped)
        invariant forall k :: 0 <= k < n ==> !Fits(measure, maxItems, maxBytes, all[k..])
        decreases |items|
      {
        if items == [] { break; }
        var item := items[0];
        SumHead(measure, items);
        items := items[1..];
        assert items == all[n + 1..];
        if item == Undefined {
          assert all == all[..n] + [Undefined] + items && [Undefined] + items == all[n..];
          return;
        }
        bytes := Less(bytes, measure(item));
        dropped := dropped + [item];
        n := n + 1;
      }
      assert all == all[..n] + all[n..];
    }

    // What trimming `all` leaves, with and without an `undefined` in the way.
    ghost predicate Trimmed(all: seq<Value<T>>, dropped: seq<Value<T>>) reads this {
      if |dropped| + |items| == |all| then
        Counted() && LongestSuffix(measure, maxItems, maxBytes, all, dropped, items)
      else
        && all == dropped + [Undefined] + items
        && bytes == Sum(measure, items) + measure(Undefined)
        && !Fits(measure, maxItems, maxBytes, [Undefined] + items)
    }

    // Too large an item is refused; any other stays, whatever else has to go.
    method Append(item: Value<T>) returns (accepted: bool, dropped: seq<Value<T>>, byteLength: nat)
      requires Counted() && maxItems >= 1
      modifies this
      ensures accepted <==> measure(item) <= maxBytes
      ensures !accepted ==> items == old(items) && bytes == old(bytes) && dropped == []
      ensures accepted ==> Defined(dropped) && Trimmed(old(items) + [item], dropped)
      ensures accepted && Defined(old(items)) ==>
                && LongestSuffix(measure, maxItems, maxBytes, old(items) + [item], dropped, items)
                && items != [] && items[|items| - 1] == item && Counted()
      ensures byteLength == bytes
      ensures old(Valid()) && item.Value? ==> Valid()
    {
      var itemBytes := measure(item);
      if itemBytes > maxBytes { return false, [], bytes; }
      items := items + [item];
      SumSplits(measure, old(items), [item]);
      bytes := bytes + itemBytes;
      dropped := Trim();
      if Defined(old(items)) {
        NothingIsLost(measure, maxItems, maxBytes, old(items), item, dropped, items);
        LastIsKept(measure, maxItems, maxBytes, old(items), item, dropped, items);
      }
      return true, dropped, bytes;
    }

    // Taking out an `undefined` leaves the counter as it was.
    method Shift() returns (item: Value<T>)
      requires Counted()
      modifies this
      ensures old(items) == [] ==> item == Undefined && items == [] && Counted()
      ensures old(items) != [] ==> item == old(items)[0] && items == old(items)[1..]
      ensures Counted() <==> old(items) == [] || item.Value? || measure(Undefined) == 0
      ensures item == Undefined ==> bytes == old(bytes)
      ensures old(Valid()) ==> Valid()
    {
      if items == [] { return Undefined; }
      item := items[0];
      items := items[1..];
      if item.Value? { bytes := Less(bytes, measure(item)); }
    }

    method RemoveAt(index: int) returns (item: Value<T>)
      requires Counted()
      modifies this
      ensures !(0 <= index < |old(items)|) ==> item == Undefined && items == old(items) && Counted()
      ensures 0 <= index < |old(items)| ==>
                && item == old(items)[index]
                && items == old(items)[..index] + old(items)[index + 1..]
                && (Counted() <==> item.Value? || measure(Undefined) == 0)
      ensures item == Undefined ==> bytes == old(bytes)
      ensures old(Valid()) ==> Valid()
    {
      if index < 0 || index >= |items| { return Undefined; }
      item := items[index];
      RemovedSum(measure, items, index);
      items := items[..index] + items[index + 1..];
      if item.Value? { bytes := Less(bytes, measure(item)); }
    }

    method TakeAll() returns (values: seq<Value<T>>)
      modifies this
      ensures values == old(items) && items == [] && Counted()
      ensures old(Valid()) ==> Valid()
    {
      values := items;
      items, bytes := [], 0;
    }

    method Replace(values: seq<Value<T>>) returns (dropped: seq<Value<T>>)
      requires maxItems >= 1 && maxBytes >= 1
      modifies this
      ensures Defined(values) ==> Valid() && LongestSuffix(measure, maxItems, maxBytes, values, dropped, items)
      ensures Defined(dropped) && Trimmed(values, dropped)
    {
      items := values;
      Recalculate();
      dropped := Trim();
    }
  }

  lemma RemovedSum<T>(measure: Value<T> -> nat, items: seq<Value<T>>, i: nat)
    requires i < |items|
    ensures Sum(measure, items) == Sum(measure, items[..i] + items[i + 1..]) + measure(items[i])
  {
    assert items == items[..i] + ([items[i]] + items[i + 1..]);
    SumSplits(measure, items[..i], [items[i]] + items[i + 1..]);
    SumSplits(measure, [items[i]], items[i + 1..]);
    SumSplits(measure, items[..i], items[i + 1..]);
    assert Sum(measure, [items[i]]) == measure(items[i]) + Sum(measure, []);
  }

  // An item that fits by itself is part of the longest suffix that fits.
  lemma LastIsKept<T(!new)>(
    measure: Value<T> -> nat, maxItems: nat, maxBytes: nat, before: seq<Value<T>>, item: Value<T>,
    dropped: seq<Value<T>>, kept: seq<Value<T>>)
    requires maxItems >= 1 && measure(item) <= maxBytes
    requires LongestSuffix(measure, maxItems, maxBytes, before + [item], dropped, kept)
    ensures kept != [] && kept[|kept| - 1] == item
  {
    var all := before + [item];
    assert all[|before|..] == [item];
    assert Sum(measure, [item]) == measure(item) + Sum(measure, []);
  }

  lemma LostIsLast<T>(before: seq<Value<T>>, item: Value<T>, dropped: seq<Value<T>>, kept: seq<Value<T>>)
    requires Defined(before) && before + [item] == dropped + [Undefined] + kept
    ensures [Undefined] + kept == [item]
  {
    assert (before + [item])[|dropped|] == Undefined;
    assert kept == [];
  }

  // The new item alone is never the one that gets lost.
  lemma NothingIsLost<T(!new)>(
    measure: Value<T> -> nat, maxItems: nat, maxBytes: nat, before: seq<Value<T>>, item: Value<T>,
    dropped: seq<Value<T>>, kept: seq<Value<T>>)
    requires maxItems >= 1 && measure(item) <= maxBytes && Defined(before)
    requires |dropped| + |kept| == |before| + 1 ||
             (before + [item] == dropped + [Undefined] + kept && !Fits(measure, maxItems, maxBytes, [Undefined] + kept))
    ensures |dropped| + |kept| == |before| + 1
  {
    assert Sum(measure, [item]) == measure(item) + Sum(measure, []);
    if before + [item] == dropped + [Undefined] + kept { LostIsLast(before, item, dropped, kept); }
  }

  lemma OnlyLost(dropped: seq<Value<int>>, kept: seq<Value<int>>)
    requires Defined(dropped)
    requires if |dropped| + |kept| == 2 then [Undefined] + [Value(0)] == dropped + kept && |kept| <= 1
             else [Undefined] + [Value(0)] == dropped + [Undefined] + kept
    ensures |dropped| + |kept| != 2 && kept == [Value(0)]
  {
    var all := [Undefined] + [Value(0)];
    assert all[0] == Undefined && all[1] == Value(0);
    assert dropped == [];
  }

  // An `undefined` pushed out by the item budget stays in the byte counter, until all items are taken or replaced.
  method UndefinedStaysInTheCount(measure: Value<int> -> nat) returns (b: BoundedMessageBuffer<int>)
    requires measure(Undefined) == 4 && measure(Value(0)) == 1
    ensures fresh(b) && b.items == [Value(0)] && b.bytes == 5 && !b.Counted()
  {
    b := new BoundedMessageBuffer<int>([], 1, 100, measure);
    var _, first, _ := b.Append(Undefined);
    assert b.items == [Undefined];
    var _, second, _ := b.Append(Value(0));
    OnlyLost(second, b.items);
    assert Sum(measure, [Value(0)]) == measure(Value(0)) + Sum(measure, []);
  }
}
