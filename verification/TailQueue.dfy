/**
 The intrusive singly-linked tail queue. Items carry the link themselves, so an item can be
 linked by one queue at a time; the head caches the number of items in an unsigned int.
*/
module TailQueue {
  import opened Actions

  const TWO_TO_THE_32 := 0x1_0000_0000

  /** An item of the list: its payload and the single link field. */
  class Item<T> {
    var next: Item?<T>
    var data: T

    constructor (data: T)
      ensures this.data == data && next == null
    {
      this.data := data;
      next := null;
    }
  }

  const INT_MIN := -0x8000_0000

  /** What list_addr leaves in its result; Undefined: it has decremented INT_MIN, an overflow of int. */
  datatype Addressed<T> = To(elm: Item?<T>) | Undefined

  /** Following the links from `first` visits exactly `s`, which ends with a null link. */
  ghost predicate Chain<T>(first: Item?<T>, s: seq<Item<T>>)
    reads s`next
  {
    && first == (if s == [] then null else s[0])
    && (forall i {:trigger s[i].next} :: 0 <= i < |s| ==> s[i].next == (if i + 1 < |s| then s[i + 1] else null))
  }

  predicate Distinct<T>(s: seq<Item<T>>) {
    forall i, j :: 0 <= i < j < |s| ==> s[i] != s[j]
  }

  /** Where x stands among distinct items when one is spliced in or out. */
  lemma Spliced<T>(a: seq<Item<T>>, x: Item<T>, b: seq<Item<T>>)
    ensures Distinct(a + [x] + b) <==> Distinct(a + b) && x !in a && x !in b
  {
    var s, t := a + [x] + b, a + b;
    if Distinct(s) {
      forall i, j | 0 <= i < j < |t| ensures t[i] != t[j] {
        assert t[i] == s[if i < |a| then i else i + 1] && t[j] == s[if j < |a| then j else j + 1];
      }
      assert s[|a|] == x;
      forall i | 0 <= i < |a| ensures a[i] != x { assert a[i] == s[i]; }
      forall i | 0 <= i < |b| ensures b[i] != x { assert b[i] == s[|a| + 1 + i]; }
    }
    if Distinct(t) && x !in a && x !in b {
      forall i, j | 0 <= i < j < |s| ensures s[i] != s[j] {
        if i != |a| && j != |a| {
          assert s[i] == t[if i < |a| then i else i - 1] && s[j] == t[if j < |a| then j else j - 1];
        }
      }
    }
  }

  /** A list of distinct items without its i-th. */
  lemma Without<T>(s: seq<Item<T>>, i: nat)
    requires Distinct(s) && i < |s|
    ensures var t := s[..i] + s[i + 1..];
            && |t| == |s| - 1 && Distinct(t)
            && (forall j {:trigger t[j]} :: 0 <= j < |t| ==> t[j] == s[if j < i then j else j + 1])
  {
    assert s == s[..i] + [s[i]] + s[i + 1..];
    Spliced(s[..i], s[i], s[i + 1..]);
  }

  lemma Joined<T>(a: seq<Item<T>>, b: seq<Item<T>>)
    requires Distinct(a) && Distinct(b) && forall x :: x in a ==> x !in b
    ensures Distinct(a + b)
  {
    forall i, j | 0 <= i < j < |a + b| ensures (a + b)[i] != (a + b)[j] {
      if i < |a| <= j { assert a[i] in a && b[j - |a|] in b; }
    }
  }

  lemma SizeAfter(n: nat, m: nat)
    ensures (n % TWO_TO_THE_32 + m % TWO_TO_THE_32) % TWO_TO_THE_32 == (n + m) % TWO_TO_THE_32
    ensures n > 0 ==> (n % TWO_TO_THE_32 + TWO_TO_THE_32 - 1) % TWO_TO_THE_32 == (n - 1) % TWO_TO_THE_32
  {
  }

  /** Two ways to follow the same links agree as far as both go. */
  lemma {:induction false} SamePrefix<T>(first: Item?<T>, s: seq<Item<T>>, t: seq<Item<T>>, i: nat)
    requires Chain(first, s) && i < |t| && first == t[0]
    requires forall k {:trigger t[k].next} :: 0 <= k < i ==> t[k].next == t[k + 1]
    ensures i < |s| && s[i] == t[i]
  {
    if i > 0 {
      SamePrefix(first, s, t, i - 1);
      assert s[i - 1].next == t[i - 1].next;
    }
  }

  class Head<T> {
    var first: Item?<T>
    /** The item whose link `stqh_last` addresses; null stands for the address of `first`. */
    var last: Item?<T>
    var size: nat
    ghost var items: seq<Item<T>>

    /** The fields describe a list of the items s. */
    ghost predicate Lists(s: seq<Item<T>>)
      reads this, s`next
    {
      && Distinct(s) && Chain(first, s)
      && last == (if s == [] then null else s[|s| - 1])
      && size == |s| % TWO_TO_THE_32
    }

    ghost predicate Valid()
      reads this, items`next
    {
      Lists(items)
    }

    constructor ()
      ensures Valid() && items == []
    {
      first, last, size, items := null, null, 0, [];
    }

    method InsertTail(elm: Item<T>)
      requires Valid() && elm !in items
      modifies this, elm`next, items`next
      ensures Valid() && items == old(items) + [elm]
    {
      elm.next := null;
      if last == null { first := elm; } else { last.next := elm; }
      last := elm;
      size := (size + 1) % TWO_TO_THE_32;
      items := items + [elm];
    }

    /**
     The macro does not look whether elm is linked already. Afterwards the head still describes
     some list if and only if it was not: otherwise the chain loops, or is cut short of `size`.
     */
    method InsertTailUnchecked(elm: Item<T>)
      requires Valid() && |items| < TWO_TO_THE_32 - 1
      modifies this`first, this`last, this`size, elm`next, items`next
      ensures (exists s :: Lists(s)) <==> elm !in old(items)
    {
      elm.next := null;
      if last == null { first := elm; } else { last.next := elm; }
      last := elm;
      size := (size + 1) % TWO_TO_THE_32;
      if elm !in items {
        assert Lists(items + [elm]);
      } else {
        ghost var i :| 0 <= i < |items| && items[i] == elm;
        forall s ensures !Lists(s) { Relinked(s, i); }
      }
    }

    /** No list has an item that links back to itself, or a size beyond its end. */
    lemma Relinked(s: seq<Item<T>>, i: nat)
      requires i < |items| < TWO_TO_THE_32 - 1 && first == items[0]
      requires forall k {:trigger items[k].next} :: 0 <= k < i ==> items[k].next == items[k + 1]
      requires items[i].next == (if i + 1 < |items| then null else items[i])
      requires size == (|items| + 1) % TWO_TO_THE_32
      ensures !Lists(s)
    {
      if Lists(s) { SamePrefix(first, s, items, i); }
    }

    method InsertHead(elm: Item<T>)
      requires Valid() && elm !in items
      modifies this, elm`next
      ensures Valid() && items == [elm] + old(items)
    {
      elm.next := first;
      if elm.next == null { last := elm; }
      first := elm;
      size := (size + 1) % TWO_TO_THE_32;
      items := [elm] + items;
    }

    /** Insert elm after the item at position i. */
    method InsertAfter(tqelm: Item<T>, elm: Item<T>, ghost i: nat)
      requires Valid() && elm !in items && i < |items| && items[i] == tqelm
      modifies this, elm`next, tqelm`next
      ensures Valid() && items == old(items)[..i + 1] + [elm] + old(items)[i + 1..]
    {
      ghost var was := items;
      elm.next := tqelm.next;
      if elm.next == null { last := elm; }
      tqelm.next := elm;
      size := (size + 1) % TWO_TO_THE_32;
      items := was[..i + 1] + [elm] + was[i + 1..];
      assert Distinct(items) by {
        assert was == was[..i + 1] + was[i + 1..];
        Spliced(was[..i + 1], elm, was[i + 1..]);
      }
      forall k | 0 <= k < |items| ensures items[k].next == (if k + 1 < |items| then items[k + 1] else null) {
        if k <= i { assert items[k] == was[k]; } else if k > i + 1 { assert items[k] == was[k - 1]; }
      }
    }

    method RemoveHead()
      requires Valid() && items != []
      modifies this
      ensures Valid() && items == old(items)[1..]
    {
      first := first.next;
      if first == null { last := null; }
      size := (size + TWO_TO_THE_32 - 1) % TWO_TO_THE_32;
      items := items[1..];
    }

    method Shift() returns (elm: Item<T>)
      requires Valid() && items != []
      modifies this
      ensures Valid() && elm == old(items)[0] && items == old(items)[1..]
    {
      elm := first;
      RemoveHead();
    }

    /** The search of STAILQ_REMOVE: the item whose link leads to elm. */
    method Predecessor(elm: Item<T>, ghost i: nat) returns (curelm: Item<T>)
      requires Valid() && 0 < i < |items| && items[i] == elm
      ensures curelm == items[i - 1]
    {
      curelm := first;
      ghost var k := 0;
      while curelm.next != elm
        invariant 0 <= k < i && curelm == items[k]
        decreases i - k
      {
        curelm := curelm.next;
        k := k + 1;
      }
    }

    /** Unlink elm, which is at position i, after searching for its predecessor. */
    method Remove(elm: Item<T>, ghost i: nat)
      requires Valid() && i < |items| && items[i] == elm
      modifies this, items`next
      ensures Valid() && items == old(items)[..i] + old(items)[i + 1..]
    {
      if first == elm {
        RemoveHead();
      } else {
        var curelm := Predecessor(elm, i);
        UnlinkNext(curelm, i);
      }
    }

    /** The second half of STAILQ_REMOVE: unlink what follows curelm. */
    method UnlinkNext(curelm: Item<T>, ghost i: nat)
      requires Valid() && 0 < i < |items| && items[i - 1] == curelm
      modifies this, curelm`next
      ensures Valid() && items == old(items)[..i] + old(items)[i + 1..]
    {
      ghost var was := items;
      curelm.next := curelm.next.next;
      if curelm.next == null { last := curelm; }
      size := (size + TWO_TO_THE_32 - 1) % TWO_TO_THE_32;
      items := was[..i] + was[i + 1..];
      Without(was, i);
      forall j | 0 <= j < |items| ensures items[j].next == (if j + 1 < |items| then items[j + 1] else null) {
        var k := if j < i then j else j + 1;
        assert items[j] == was[k] && was[k].next == (if k == i - 1 then curelm.next else old(was[k].next));
      }
    }

    method Last() returns (elm: Item?<T>)
      requires Valid()
      ensures elm == (if items == [] then null else items[|items| - 1])
    {
      elm := if first == null then null else last;
    }

    method Pop() returns (elm: Item<T>)
      requires Valid() && items != []
      modifies this, items`next
      ensures Valid() && elm == old(items)[|old(items)| - 1] && items == old(items)[..|old(items)| - 1]
    {
      elm := last;
      Remove(elm, |items| - 1);
    }

    /** Append all of `other`, which is left empty. */
    method Concat(other: Head<T>)
      requires Valid() && other.Valid() && this != other
      requires forall x :: x in items ==> x !in other.items
      modifies this, other, items`next
      ensures Valid() && items == old(items) + old(other.items)
      ensures other.Valid() && other.items == []
    {
      if other.first != null {
        ghost var was, more := items, other.items;
        assert size == |was| % TWO_TO_THE_32 && other.size == |more| % TWO_TO_THE_32;
        SizeAfter(|was|, |more|);
        if last == null { first := other.first; } else { last.next := other.first; }
        last := other.last;
        size := (size + other.size) % TWO_TO_THE_32;
        items := was + more;
        Joined(was, more);
        forall k | 0 <= k < |items| ensures items[k].next == (if k + 1 < |items| then items[k + 1] else null) {
          if k < |was| {
            assert items[k] == was[k] && was[k] in was;
          } else {
            var x := more[k - |was|];
            assert items[k] == x && x in more && x !in was;
            assert x.next == old(x.next);
          }
        }
        assert Chain(first, items);
        other.first, other.last, other.size, other.items := null, null, 0, [];
      }
    }

    /** The n-th item, as list_addr computes it: both numbers pass through int, and so does the countdown. */
    method Nth(n: int) returns (r: Addressed<T>)
      requires Valid()
      ensures r == NthOf(items, n)
    {
      var m := AsInt(n);
      if m >= AsInt(size) { return To(null); }
      if m == INT_MIN { return Undefined; }
      var elm := first;
      ghost var k := 0;
      m := m - 1;
      while m >= 0
        invariant -1 <= m || AsInt(n) < 0
        invariant AsInt(n) >= 0 ==> k + m + 1 == AsInt(n) && k < |items| && elm == items[k]
        invariant AsInt(n) < 0 ==> m < 0 && elm == first
        decreases m
      {
        elm := elm.next;
        k := k + 1;
        m := m - 1;
      }
      return To(elm);
    }

    /** Remove and free every item, first to last. */
    method Clear() returns (ghost freed: seq<Item<T>>)
      requires Valid()
      modifies this
      ensures Valid() && items == [] && freed == old(items)
    {
      freed := [];
      while first != null
        invariant Valid() && freed + items == old(items)
        decreases |items|
      {
        HeadMoves(freed, items);
        freed := freed + [first];
        RemoveHead();
      }
    }
  }

  lemma HeadMoves<T>(freed: seq<T>, s: seq<T>)
    requires s != []
    ensures (freed + [s[0]]) + s[1..] == freed + s
  {
  }

  ghost function NthOf<T>(s: seq<Item<T>>, n: int): Addressed<T> {
    if AsInt(n) >= AsInt(|s| % TWO_TO_THE_32) then To(null)
    else if AsInt(n) == INT_MIN then Undefined
    else if AsInt(n) >= 0 then To(NthItem(s, AsInt(n)))
    else To(if s == [] then null else s[0])
  }

  /** The n-th item, or null when there is none. */
  ghost function NthItem<T>(s: seq<Item<T>>, n: int): Item?<T> {
    if 0 <= n < |s| then s[n] else null
  }

  /**
   Exactly when list_addr finds the n-th item, or null where there is none. On an empty list: unless
   the countdown starts at INT_MIN. Otherwise, if its test lets it walk: when n passed through int
   unchanged and is not negative; and if its test gives null: when there is no such item.
  */
  lemma NthExact<T>(s: seq<Item<T>>, n: int)
    requires Distinct(s)
    ensures NthOf(s, n) == To(NthItem(s, n)) <==>
              if s == [] then AsInt(n) != INT_MIN
              else if AsInt(n) < AsInt(|s| % TWO_TO_THE_32) then 0 <= AsInt(n) == n
              else !(0 <= n < |s|)
  {
    var m := AsInt(n);
    if m < AsInt(|s| % TWO_TO_THE_32) && 0 <= n < |s| {
      assert s[n] == s[if m >= 0 then m else 0] <==> n == if m >= 0 then m else 0;
    }
  }

  /** The same in plain intervals, for numbers that fit an unsigned int. */
  lemma NthIntervals<T>(s: seq<Item<T>>, n: nat)
    requires Distinct(s) && n < TWO_TO_THE_32 && |s| < TWO_TO_THE_32
    ensures NthOf(s, n) == To(NthItem(s, n)) <==>
              || (n < 0x8000_0000 && |s| < 0x8000_0000)
              || (s == [] && n != 0x8000_0000)
              || (n >= |s| >= 0x8000_0000)
  {
    NthExact(s, n);
  }

  /** Item 2^31 + 1 of a list of one item is its first item. */
  lemma NthWraps<T>(elm: Item<T>)
    ensures NthOf([elm], 0x8000_0001) == To(elm) && NthItem([elm], 0x8000_0001) == null
  {
  }

  /** Asked for item 2^31, list_addr decrements INT_MIN, for exactly the lists whose size as an int is above it. */
  lemma NthOverflows<T>(s: seq<Item<T>>)
    ensures NthOf(s, 0x8000_0000) == Undefined <==> |s| % TWO_TO_THE_32 != 0x8000_0000
  {
  }
}
