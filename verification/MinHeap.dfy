/** `std::priority_queue` ordered by the smallest key: the top is an entry with the least key, ties
    and the order of everything below the top are arbitrary. */
module MinHeaps {
  import opened BrokerModel

  /** How many entries are due at time `now`. */
  ghost function CountDue<T>(s: seq<Timed<T>>, now: int): nat
  {
    if s == [] then 0 else CountDue(s[..|s| - 1], now) + if s[|s| - 1].key <= now then 1 else 0
  }

  lemma {:induction false} CountDueOfTwo<T>(a: seq<Timed<T>>, b: seq<Timed<T>>, now: int)
    ensures CountDue(a + b, now) == CountDue(a, now) + CountDue(b, now)
    decreases |b|
  {
    if b == [] {
      assert a + b == a;
    } else {
      assert (a + b)[..|a + b| - 1] == a + b[..|b| - 1];
      CountDueOfTwo(a, b[..|b| - 1], now);
    }
  }

  lemma CountDueOfOne<T>(e: Timed<T>, now: int)
    ensures CountDue([e], now) == if e.key <= now then 1 else 0
  {
    assert [e][..0] == [];
  }

  class MinHeap<T(==)> {
    /** Entry 0 is the top. */
    var items: seq<Timed<T>>

    constructor ()
      ensures items == [] && Valid()
    {
      items := [];
    }

    predicate Valid()
      reads this
    {
      forall i | 0 <= i < |items| :: items[0].key <= items[i].key
    }

    function Top(): Timed<T>
      requires items != []
      reads this
    {
      items[0]
    }

    /** A new entry displaces the top only if its key is smaller. */
    method Push(e: Timed<T>)
      requires Valid()
      modifies this
      ensures Valid() && multiset(items) == multiset(old(items)) + multiset{e}
      ensures old(items) != [] && old(items)[0].key <= e.key ==> items[0] == old(items)[0]
      ensures forall now :: CountDue(items, now) == CountDue(old(items), now) + if e.key <= now then 1 else 0
    {
      forall now
        ensures CountDue([e] + items, now) == CountDue(items, now) + if e.key <= now then 1 else 0
        ensures CountDue(items + [e], now) == CountDue(items, now) + if e.key <= now then 1 else 0
      {
        CountDueOfTwo([e], items, now);
        CountDueOfTwo(items, [e], now);
        CountDueOfOne(e, now);
      }
      if items == [] || e.key < items[0].key {
        items := [e] + items;
      } else {
        items := items + [e];
      }
    }

    /** Removes the top; which of the least remaining entries comes up is arbitrary. */
    method Pop()
      requires Valid() && items != []
      modifies this
      ensures Valid() && multiset(items) == multiset(old(items)) - multiset{old(items)[0]}
      ensures |items| == |old(items)| - 1
      ensures forall now :: CountDue(items, now) == CountDue(old(items), now) - if old(items)[0].key <= now then 1 else 0
    {
      var rest := items[1..];
      ghost var whole := items;
      if rest == [] {
        items := [];
        assert whole == [whole[0]];
        forall now { CountDueOfOne(whole[0], now); }
      } else {
        HasLeast(rest);
        var i :| 0 <= i < |rest| && IsLeast(rest, i);
        items := [rest[i]] + rest[..i] + rest[i + 1..];
        Rearranged(whole, i, items);
      }
    }
  }

  predicate IsLeast<T>(s: seq<Timed<T>>, i: int)
  {
    0 <= i < |s| && forall j | 0 <= j < |s| :: s[i].key <= s[j].key
  }

  lemma {:induction false} HasLeast<T>(s: seq<Timed<T>>)
    requires s != []
    ensures exists i :: IsLeast(s, i)
    decreases |s|
  {
    if |s| == 1 {
      assert IsLeast(s, 0);
    } else {
      var init := s[..|s| - 1];
      HasLeast(init);
      var i :| IsLeast(init, i);
      assert IsLeast(s, if s[|s| - 1].key < s[i].key then |s| - 1 else i);
    }
  }

  /** Taking the top off and moving entry `i` of the rest up loses and invents nothing. */
  lemma Rearranged<T>(whole: seq<Timed<T>>, i: nat, s: seq<Timed<T>>)
    requires whole != [] && i < |whole| - 1
    requires var rest := whole[1..]; s == [rest[i]] + rest[..i] + rest[i + 1..]
    ensures multiset(s) == multiset(whole) - multiset{whole[0]}
    ensures forall now :: CountDue(s, now) == CountDue(whole, now) - if whole[0].key <= now then 1 else 0
  {
    var rest := whole[1..];
    var a, x, c := rest[..i], [rest[i]], rest[i + 1..];
    assert whole == [whole[0]] + (a + x + c);
    assert multiset(s) == multiset(x) + multiset(a) + multiset(c);
    forall now ensures CountDue(s, now) == CountDue(whole, now) - if whole[0].key <= now then 1 else 0 {
      CountDueOfTwo([whole[0]], a + x + c, now);
      CountDueOfOne(whole[0], now);
      CountDueOfTwo(a + x, c, now);
      CountDueOfTwo(a, x, now);
      CountDueOfTwo(x + a, c, now);
      CountDueOfTwo(x, a, now);
    }
  }
}
